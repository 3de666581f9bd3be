/** Option and Result, used where the handlers return None or raise. */
module Wrappers {

  datatype Option<+T> = None | Some(value: T)

  /** Success carries what the Python code returns; Failure the exception it raises. */
  datatype Result<+R, +E> = Success(value: R) | Failure(error: E)
}
