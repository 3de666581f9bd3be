# CMIP6 and GeoMIP publisher handlers, modelled in Dafny

This project models the decision logic of two project handlers of the ESGF
publisher. Each handler checks a climate data file before the file is admitted to
the archive.

- **The CMIP6 handler** (`cmip6_handler.dfy`, module `Cmip6Handler`). It covers:
  - `check_pid_avail`, which decides whether a dataset version gets a persistent
    identifier (PID) prefix;
  - `get_pid_config`, which turns the configured `pid_credentials` records into
    credentials for the PID messaging service;
  - `get_citation_url`;
  - the CMOR table path;
  - the decision path of `validateFile` up to the hand-off to the external
    controlled-vocabulary (CV) validator;
  - the handler's `data_specs_version` field (class `Handler`).
- **The GeoMIP handler** (`geomip_handler.dfy`, module `GeomipHandler`). It covers
  `validateFile`, which checks the `project_id` global attribute.
- **`python_text.dfy`** (module `PythonText`) models the Python 2 text built-ins
  that the handlers call: `str.strip()`, `str.upper()`, the slice `s[:k]` and
  `str(i)` of an integer. Strings are byte strings in the C locale, so whitespace
  and case are ASCII.
- **`wrappers.dfy`** holds `Option` and `Result`. A `Failure` stands for an
  exception the Python code raises.

Inputs that the Python code reads from outside become plain values:

- A file object is its map of global attributes, from name to value. A missing
  key stands for `getAttribute` raising.
- The configuration is a map from section to options.
- The records produced by `splitRecord` are a sequence of records. Each field
  is either text or a number.
- `compareLibVersions` is a function parameter.
- The external CV check is a function parameter too, returning one of three
  outcomes.

Points where the code does something other than what its own text suggests:

- The GeoMIP message "project_id should be 'GeoMIP'" (project_handler.py:35)
  asks for a `project_id` that begins with "GeoMIP". The comparison at
  project_handler.py:34 rejects every file instead (see Findings).
- `check_pid_avail` skips the PID only for a "local index without versioning"
  (cmip6_handler.py:167). It recognises a versioned index by the pattern
  `20\d{2}[0,1]\d[0-3]\d`, a date of the 2000s. `re.match` anchors the pattern
  only at the start, so a longer integer whose first eight digits fit matches
  too. The class `[0,1]` also admits a comma, which never occurs in the text of
  an integer.
- A `pid_credentials` option that is present but yields no records raises the
  same "missing" error as an absent option.

## Model

| member | source | states |
|---|---|---|
| `Cmip6Handler.Handler.constructor` | src/python/esgcet/esgcet/config/cmip6_handler.py:33-36 | a new handler has data-specs version "0" and the given project name |
| `Cmip6Handler.Handler.SetSpecVersion` | src/python/esgcet/esgcet/config/cmip6_handler.py:39-40 | the data-specs version becomes the given one; the name is unchanged |
| `Cmip6Handler.CheckPidAvail` | src/python/esgcet/esgcet/config/cmip6_handler.py:168-172 | no PID exactly for a bool version or an int version that is not date-shaped; otherwise the prefix "21.14100", including for None, dicts and other values |
| `Cmip6Handler.MatchesVersionPattern` | src/python/esgcet/esgcet/config/cmip6_handler.py:29 | a text that matches has at least eight characters, and all of the first eight except the fifth are digits |
| `Cmip6Handler.MatchIsAnchoredAtStart` | src/python/esgcet/esgcet/config/cmip6_handler.py:29 | whatever follows the first eight characters does not change whether the text matches |
| `Cmip6Handler.VersionPatternOnIntText` | src/python/esgcet/esgcet/config/cmip6_handler.py:29 | the start-anchored pattern matches `str(i)` iff `i` is non-negative, has at least 8 digits, and its leading digits read 2, 0, any, any, 0 or 1, any, 0 to 3, any |
| `Cmip6Handler.PythonStrPattern` | src/python/esgcet/esgcet/config/cmip6_handler.py:168 | among ints, only a date-shaped integer matches; the texts "True" and "False" never match |
| `Cmip6Handler.DateVersionGetsPid` | src/python/esgcet/esgcet/config/cmip6_handler.py:29 | version 20190101 gets the PID prefix |
| `Cmip6Handler.CheckPidAvailExamples` | src/python/esgcet/esgcet/config/cmip6_handler.py:168-172 | versions 1, -20190101 and True get no PID; None gets the prefix |
| `Cmip6Handler.FirstNumberField` | src/python/esgcet/esgcet/config/cmip6_handler.py:200-208 | the field reported is a number; it is the ssl flag iff that is a number, and otherwise the ssl flag and every earlier one of url, port, vhost, user, password are text; there is none iff the six fields are all text |
| `Cmip6Handler.PidConfigError.Message` | src/python/esgcet/esgcet/config/cmip6_handler.py:198-216 | each of the three publish errors starts with its own opening words followed by the section name; the attribute error has one fixed text, whichever field raised it |
| `Cmip6Handler.GetPidConfig` | src/python/esgcet/esgcet/config/cmip6_handler.py:174-218 | raises for a missing section or an empty record list; fails iff some record is malformed, with the error of the first such record; on success returns exchange "esgffed-exchange" and one credential per record, in order, with stripped fields, ssl flag and running priority |
| `Cmip6Handler.ConvertRecords` | src/python/esgcet/esgcet/config/cmip6_handler.py:190-210 | the loop fails iff some record is malformed, with the error of the first such record; otherwise it yields one credential per record, in order, with stripped fields, ssl flag and running priority |
| `Cmip6Handler.MakeCredential` | src/python/esgcet/esgcet/config/cmip6_handler.py:200-210 | one record of the right arity becomes a credential iff its six text fields are all text; otherwise it raises the attribute error of the first field that is a number; the credential holds the stripped fields, the ssl flag and the given priority |
| `Cmip6Handler.Priority` | src/python/esgcet/esgcet/config/cmip6_handler.py:191-196 | a 7-field record whose last field is an int takes that field as its priority; a leading 6-field record gets 1 |
| `Cmip6Handler.PriorityCountsUp` | src/python/esgcet/esgcet/config/cmip6_handler.py:191-196 | across a run of 6-field records the priority rises by one per record |
| `Cmip6Handler.PriorityAfterExplicit` | src/python/esgcet/esgcet/config/cmip6_handler.py:193-196 | a 7-field record sets the priority to its seventh field, and later 6-field records count up from it |
| `Cmip6Handler.PriorityWithoutExplicit` | src/python/esgcet/esgcet/config/cmip6_handler.py:191-196 | with no 7-field record, the priorities are 1, 2, 3, and so on, so a leading 6-field record gets 1 |
| `Cmip6Handler.PriorityIgnoresLaterRecords` | src/python/esgcet/esgcet/config/cmip6_handler.py:191-196 | a record's priority depends only on the records up to it |
| `Cmip6Handler.SslFlag` | src/python/esgcet/esgcet/config/cmip6_handler.py:200-202 | a set flag is four characters long once stripped |
| `Cmip6Handler.SslFlagSpellsTrue` | src/python/esgcet/esgcet/config/cmip6_handler.py:200-202 | ssl is enabled iff the stripped flag field is "true" in any mix of cases |
| `Cmip6Handler.GetCitationUrl` | src/python/esgcet/esgcet/config/cmip6_handler.py:235 | the URL starts with the CERA base, ends with ".json", and is 7 characters longer than base, name and version together |
| `Cmip6Handler.CitationUrlLayout` | src/python/esgcet/esgcet/config/cmip6_handler.py:235 | the citation URL is the fixed base, the name, ".v", the version and ".json", and each piece can be read back |
| `Cmip6Handler.CitationUrlSeparatesVersions` | src/python/esgcet/esgcet/config/cmip6_handler.py:235 | two versions of one dataset never share a citation URL |
| `Cmip6Handler.CitationUrlExample` | src/python/esgcet/esgcet/config/cmip6_handler.py:235 | the exact URL for dataset "ds1" version "1" |
| `Cmip6Handler.CitationUrlCollision` | src/python/esgcet/esgcet/config/cmip6_handler.py:235 | a dataset name containing ".v" can collide with another name and version |
| `Cmip6Handler.TableDirectory` | src/python/esgcet/esgcet/config/cmip6_handler.py:117-124 | the table directory is never empty: it is the configured path, or the default path when that is empty or unreadable |
| `Cmip6Handler.TableFile` | src/python/esgcet/esgcet/config/cmip6_handler.py:129 | the table file starts with the table directory, ends with ".json", and is 12 characters longer than directory and table id together |
| `Cmip6Handler.TableFileLayout` | src/python/esgcet/esgcet/config/cmip6_handler.py:129 | the table file is the directory, then "/CMIP6_", the table id and ".json" |
| `Cmip6Handler.TableFileInjective` | src/python/esgcet/esgcet/config/cmip6_handler.py:129 | different table ids give different table files |
| `Cmip6Handler.MinCmorVersion` | src/python/esgcet/esgcet/config/cmip6_handler.py:66 | the configured `min_cmor_version` of the project section when it is set, and "0.0.0" when the option or the whole section is absent |
| `Cmip6Handler.FileCmorVersion` | src/python/esgcet/esgcet/config/cmip6_handler.py:68-73 | the file's `cmor_version` when the attribute is present, and "0.0.0" when it is missing |
| `Cmip6Handler.ValidateFile` | src/python/esgcet/esgcet/config/cmip6_handler.py:51-153 | returns early iff the CMOR version satisfies the minimum; otherwise, with all three attributes present, passes iff the CV check on the computed table file passes and raises exactly "failed the CV check" when it does not, whether it raised or created no checker object; passing the CV path needs all three attributes; every failure carries a missing-attribute or "failed the CV check" message |
| `Cmip6Handler.MissingAttributeNamed` | src/python/esgcet/esgcet/config/cmip6_handler.py:94-112 | past the CMOR check, the first missing of data_specs_version, table_id and variable_id is named in the error |
| `Cmip6Handler.CmorVersionShortCircuits` | src/python/esgcet/esgcet/config/cmip6_handler.py:75-77 | a satisfying CMOR version passes regardless of the CV validator and the table path |
| `Cmip6Handler.MissingCmorVersionReadsAsZero` | src/python/esgcet/esgcet/config/cmip6_handler.py:68-73 | a missing cmor_version is judged as version "0.0.0", not as an error |
| `Cmip6Handler.ObjectCreateFailureIsSwallowed` | src/python/esgcet/esgcet/config/cmip6_handler.py:144-153 | the "object create failure" message never reaches the caller: the bare except replaces it |
| `Cmip6Handler.ObjectCreateFailureNotRaised` | src/python/esgcet/esgcet/config/cmip6_handler.py:144-153 | the "object create failure" message differs from every message `validateFile` can raise |
| `PythonText.Strip` | src/python/esgcet/esgcet/config/cmip6_handler.py:204-208 | the stripped text has no whitespace at either end |
| `PythonText.StripRemovesPadding` | src/python/esgcet/esgcet/config/cmip6_handler.py:204-208 | stripping whitespace padding off a trimmed text gives back exactly that text |
| `PythonText.StripDropsSpace` | src/python/esgcet/esgcet/config/cmip6_handler.py:204-208 | the stripped text is the original minus whitespace before and after it |
| `PythonText.StripIdempotent` | src/python/esgcet/esgcet/config/cmip6_handler.py:201 | stripping twice is stripping once |
| `PythonText.Upper` | src/python/esgcet/esgcet/config/cmip6_handler.py:201 | upper-casing keeps the length (with `UpperAt`, each character is upper-cased on its own) |
| `PythonText.UpperAt` | src/python/esgcet/esgcet/config/cmip6_handler.py:201 | each character of the upper-cased text is the ASCII upper case of the original character |
| `PythonText.NatText` | src/python/esgcet/esgcet/config/cmip6_handler.py:168 | `str(n)` of a non-negative integer is all digits, one per decimal digit of `n` |
| `PythonText.IntText` | src/python/esgcet/esgcet/config/cmip6_handler.py:168 | `str(i)` is non-empty and begins with '-' iff `i` is negative |
| `PythonText.ParseNatText` | src/python/esgcet/esgcet/config/cmip6_handler.py:168 | reading back the decimal text of `n` gives `n` |
| `PythonText.IntTextInjective` | src/python/esgcet/esgcet/config/cmip6_handler.py:168 | distinct integers have distinct texts |
| `PythonText.NatTextAt` | src/python/esgcet/esgcet/config/cmip6_handler.py:168 | character `i` of `str(n)` is the digit at place `d - 1 - i`, where `d` is the number of digits of `n` |
| `PythonText.Head` | src/python/geomip/geomip/project_handler.py:34 | the slice `s[:k]` is a prefix of `s` of length min(k, len(s)), without any index error |
| `GeomipHandler.ValidateFile` | src/python/geomip/geomip/project_handler.py:27-37 | every file is rejected as written: "No global attribute: project_id" without the attribute, "project_id should be 'GeoMIP'" with it |
| `GeomipHandler.GeoMipFileRejected` | src/python/geomip/geomip/project_handler.py:34 | a file whose project_id is exactly "GeoMIP" is rejected as written and accepted by the intended check |
| `GeomipHandler.ShortProjectIdIsMismatch` | src/python/geomip/geomip/project_handler.py:34 | a project_id shorter than 5 characters, the empty one included, is sliced whole and reported as a mismatch |
| `GeomipHandler.ValidateFileIntended` | src/python/geomip/geomip/project_handler.py:32-37 | the intended check accepts iff project_id is present and starts with "GeoMIP", with the same two messages otherwise |

## Left out

- The PrePARE CV validator, the `argparse` set-up and `checkAndUpdateRepo` are external or do I/O. The CV check is the parameter `cvCheck`. Errors raised while building its arguments are not modelled. These would come from the table and file actions, which run outside the guarded block. Neither is the table repository update.
- `compareLibVersions` is external. It is the parameter `versionAtLeast`.
- `splitRecord` is external. Its output is the input of `GetPidConfig`, per section. A field is either text or an integer. Other Python values (None, floats) are not modelled.
- `getConfig` and the ini parser are replaced by a map. A `min_cmor_version` that is absent, from the option or from the whole section, reads as its default "0.0.0". The `cmor_table_path` lookup passes a misspelt `defaut=` keyword, so it may raise. It is therefore the optional input `configuredTablePath`, where None means the lookup raised, rather than a value read from the configuration map.
- `openPath`, the file-format handlers and the exceptions raised by `getAttribute` are file I/O. A missing key in the attribute map stands for an attribute read that raises. Attribute values are text.
- Logging (`debug`, `warning`) is a side effect only and is left out.
- `Cmip6Handler.Handler.constructor` keeps only the project name. `__init__` also takes `path`, `Session`, `validate` and `offline` (cmip6_handler.py:33-36) and passes them to the base handler's constructor, which is not part of this model.
- The GeoMIP `getContext`, `readContext` and `generateDerivedContext` only delegate to the IPCC5 base handler. That handler is not part of this model.
- The unused parameters of `check_pid_avail` (`project_config_section`, `config`) and of `get_citation_url` (`project_section`, `config`) are dropped.
- `Cmip6Handler.Version`: a Python 2 `long`, the type of integers beyond the machine range, is not an `int`. It is modelled as `OtherVersion`, so such a version always gets the PID prefix. Whether a given integer is an `int` or a `long` is for the caller to decide.
- `PythonText.Upper` and `PythonText.Strip` assume the C locale. Case and whitespace are ASCII.
- `Cmip6Handler.PidConfigError`: `FieldNotText` records which field raised, in the order the loop strips them. Python's attribute error does not show it: `PidConfigError.Message` gives the same text for every field.
- The exception types are modelled only as far as the callers can tell them apart. `GetPidConfig` returns one error value per raise site. `PidConfigError.Message` gives each error's text.

## Findings

| source | as written | input that shows it | evidently intended | confidence | as-written member | corrected member |
|---|---|---|---|---|---|---|
| src/python/geomip/geomip/project_handler.py:34 | compares the first five characters of project_id with the six-character "GeoMIP", which can never be equal, so every file is rejected | a file whose project_id is "GeoMIP" is rejected with "project_id should be 'GeoMIP'" | accept a project_id that starts with "GeoMIP" | high (not executed) | `GeomipHandler.ValidateFile` | `GeomipHandler.ValidateFileIntended` |
