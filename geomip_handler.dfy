/**
 * The GeoMIP project handler: `validateFile` checks the `project_id` global
 * attribute before the file is admitted. The file object is its map of global
 * attributes, from name to value.
 */
module GeomipHandler {
  import opened PythonText

  /** How `validateFile` ends: returning, or raising a metadata-format error. */
  datatype Verdict = Accepted | InvalidMetadataFormat(message: string)

  const ProjectIdMissingMessage := "No global attribute: project_id"
  const ProjectIdMismatchMessage := "project_id should be 'GeoMIP'"

  /** `validateFile` as written: the first five characters of `project_id` are compared
      with the six-character "GeoMIP". A slice of at most five characters never equals
      it, so every file is rejected; which message is raised depends only on whether the
      attribute is present. */
  function ValidateFile(attributes: map<string, string>): (r: Verdict)
    ensures r == InvalidMetadataFormat(
      if "project_id" in attributes then ProjectIdMismatchMessage else ProjectIdMissingMessage)
  {
    if "project_id" !in attributes then
      InvalidMetadataFormat(ProjectIdMissingMessage)
    else
      var projectId := attributes["project_id"];
      if Head(projectId, 5) == "GeoMIP" then Accepted
      else InvalidMetadataFormat(ProjectIdMismatchMessage)
  }

  /** Even a file whose `project_id` is exactly "GeoMIP" is rejected by the check as
      written, and accepted by the intended one. */
  lemma GeoMipFileRejected()
    ensures ValidateFile(map["project_id" := "GeoMIP"]) == InvalidMetadataFormat(ProjectIdMismatchMessage)
    ensures ValidateFileIntended(map["project_id" := "GeoMIP"]) == Accepted
  {
    assert "GeoMIP" <= "GeoMIP";
  }

  /** A `project_id` shorter than five characters, the empty one included, is sliced
      whole, raises no index error and is reported as a mismatch. */
  lemma ShortProjectIdIsMismatch(attributes: map<string, string>)
    requires "project_id" in attributes && |attributes["project_id"]| < 5
    ensures Head(attributes["project_id"], 5) == attributes["project_id"]
    ensures ValidateFile(attributes) == InvalidMetadataFormat(ProjectIdMismatchMessage)
  {
  }

  /** The check the message asks for: `project_id` starts with "GeoMIP". */
  function ValidateFileIntended(attributes: map<string, string>): (r: Verdict)
    ensures r == Accepted <==> "project_id" in attributes && "GeoMIP" <= attributes["project_id"]
    ensures r != Accepted ==> r == InvalidMetadataFormat(
      if "project_id" in attributes then ProjectIdMismatchMessage else ProjectIdMissingMessage)
  {
    if "project_id" !in attributes then
      InvalidMetadataFormat(ProjectIdMissingMessage)
    else
      var projectId := attributes["project_id"];
      if Head(projectId, 6) == "GeoMIP" then Accepted
      else InvalidMetadataFormat(ProjectIdMismatchMessage)
  }
}
