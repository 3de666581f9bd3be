/**
 * The CMIP6 handler of the ESGF publisher: the persistent-identifier helpers
 * (`check_pid_avail`, `get_pid_config`), the citation URL, the data-specs
 * version field and the decision path of `validateFile` up to the hand-off
 * to the external controlled-vocabulary validator.
 */
module Cmip6Handler {
  import opened Wrappers
  import opened PythonText

  // ---------------------------------------------------------------------------
  // The handler object and its data-specs version
  // ---------------------------------------------------------------------------

  /** The handler's own state: the project name (recorded by the base handler)
      and the data-specs version that `set_spec_version` replaces. */
  class Handler {
    var name: string
    var dataSpecsVersion: string

    constructor (name: string)
      ensures this.name == name
      ensures dataSpecsVersion == "0"
    {
      this.name := name;
      dataSpecsVersion := "0";
    }

    method SetSpecVersion(ver: string)
      modifies this
      ensures dataSpecsVersion == ver
      ensures name == old(name)
    {
      dataSpecsVersion := ver;
    }
  }

  // ---------------------------------------------------------------------------
  // check_pid_avail
  // ---------------------------------------------------------------------------

  /** The prefix of every CMIP6 persistent identifier. */
  const PidPrefix := "21.14100"

  /** The `version` argument. Python 2's `int` is a machine integer and `bool` is a
      subclass of it; anything else (None, a dict of versions, a string, a `long`)
      is not an `int`. */
  datatype Version =
    | NoVersion
    | IntVersion(n: int)
    | BoolVersion(b: bool)
    | OtherVersion

  predicate IsPythonInt(v: Version) {
    v.IntVersion? || v.BoolVersion?
  }

  /** `str(v)` for an int or a bool. */
  function PythonStr(v: Version): string
    requires IsPythonInt(v)
  {
    match v
    case IntVersion(n) => IntText(n)
    case BoolVersion(b) => if b then "True" else "False"
  }

  /** `re.match` of `20\d{2}[0,1]\d[0-3]\d`: it is anchored at the start only, so the
      first eight characters must fit and anything may follow. The class `[0,1]`
      admits '0', ',' and '1'. */
  predicate MatchesVersionPattern(s: string): (b: bool)
    ensures b ==> |s| >= 8 && forall k :: 0 <= k < 8 && k != 4 ==> IsDigit(s[k])
  {
    && |s| >= 8
    && s[0] == '2' && s[1] == '0' && IsDigit(s[2]) && IsDigit(s[3])
    && s[4] in "0,1" && IsDigit(s[5])
    && '0' <= s[6] <= '3' && IsDigit(s[7])
  }

  /** The match is anchored at the start only: whatever follows the first eight
      characters does not change the outcome. */
  lemma MatchIsAnchoredAtStart(s: string, tail: string)
    requires |s| >= 8
    ensures MatchesVersionPattern(s + tail) <==> MatchesVersionPattern(s)
  {
    forall k | 0 <= k < 8
      ensures (s + tail)[k] == s[k]
    {
    }
  }

  /** Digit `i` of `n` counted from the most significant one. */
  function LeadingDigit(n: nat, i: nat): nat
    requires i < NumDigits(n)
  {
    n / Pow10(NumDigits(n) - 1 - i) % 10
  }

  /** The arithmetic reading of the version heuristic: `n` has at least eight digits
      and they begin like a date of the 2000s, 20yy then a month-tens digit 0 or 1,
      a digit, a day-tens digit 0 to 3 and a digit. */
  predicate DateShaped(n: int) {
    && n >= 0 && NumDigits(n) >= 8
    && LeadingDigit(n, 0) == 2 && LeadingDigit(n, 1) == 0
    && LeadingDigit(n, 4) <= 1 && LeadingDigit(n, 6) <= 3
  }

  /** The pattern matches `str(i)` exactly when `i` is date-shaped. */
  lemma VersionPatternOnIntText(i: int)
    ensures MatchesVersionPattern(IntText(i)) <==> DateShaped(i)
  {
    if i >= 0 && NumDigits(i) >= 8 {
      var s := IntText(i);
      forall k | 0 <= k < 8
        ensures s[k] == DigitChar(LeadingDigit(i, k))
      {
        NatTextAt(i, k);
      }
    }
  }

  /** `check_pid_avail`: no identifier for an integer version that is not date-shaped
      (a local index without versioning); the CMIP6 prefix for every other value. */
  function CheckPidAvail(version: Version): (r: Option<string>)
    ensures r == None <==> version.BoolVersion? || (version.IntVersion? && !DateShaped(version.n))
    ensures r != None ==> r == Some(PidPrefix)
  {
    PythonStrPattern(version);
    if IsPythonInt(version) && !MatchesVersionPattern(PythonStr(version)) then None else Some(PidPrefix)
  }

  /** A date-like integer version gets an identifier. */
  lemma DateVersionGetsPid()
    ensures CheckPidAvail(IntVersion(20190101)) == Some(PidPrefix)
  {
    DateExampleIsDateShaped();
  }

  lemma DateExampleIsDateShaped()
    ensures DateShaped(20190101)
  {
    var n := 20190101;
    DateExampleDigitCount();
    assert Pow10(7) == 10000000 && Pow10(6) == 1000000 && Pow10(3) == 1000 && Pow10(1) == 10 by {
      assert Pow10(2) == 100;
      assert Pow10(4) == 10000;
      assert Pow10(5) == 100000;
    }
    assert n / 10000000 == 2 && n / 1000000 == 20 && n / 1000 == 20190 && n / 10 == 2019010;
    assert LeadingDigit(n, 0) == 2 % 10;
    assert LeadingDigit(n, 1) == 20 % 10;
    assert LeadingDigit(n, 4) == 20190 % 10;
    assert LeadingDigit(n, 6) == 2019010 % 10;
  }

  lemma DateExampleDigitCount()
    ensures NumDigits(20190101) == 8
  {
    assert NumDigits(20) == 2;
    assert NumDigits(2019) == 4;
    assert NumDigits(201901) == 6;
  }

  /** A small or negative integer version gets none, a missing version gets one, and a
      bool version is an int whose text "True" does not match. */
  lemma CheckPidAvailExamples()
    ensures CheckPidAvail(IntVersion(1)) == None
    ensures CheckPidAvail(IntVersion(-20190101)) == None
    ensures CheckPidAvail(NoVersion) == Some(PidPrefix)
    ensures CheckPidAvail(BoolVersion(true)) == None
  {
  }

  /** Of the values that are ints, only a date-shaped integer matches: "True" and
      "False" are too short. */
  lemma PythonStrPattern(version: Version)
    ensures IsPythonInt(version) ==>
      (MatchesVersionPattern(PythonStr(version)) <==> version.IntVersion? && DateShaped(version.n))
  {
    if version.IntVersion? {
      VersionPatternOnIntText(version.n);
    }
  }

  // ---------------------------------------------------------------------------
  // get_pid_config
  // ---------------------------------------------------------------------------

  /** The messaging exchange every CMIP6 identifier is sent to. */
  const ExchangeName := "esgffed-exchange"

  /** One field of a credential record as the record splitter yields it. */
  datatype Field = Text(s: string) | Number(n: int)

  type Record = seq<Field>

  /** One parsed credential: the `dict` appended per record. */
  datatype Credential = Credential(
    url: string, port: string, vhost: string, user: string, password: string,
    sslEnabled: bool, priority: int)

  datatype PidConfig = PidConfig(exchange: string, credentials: seq<Credential>)

  /** What `get_pid_config` raises. The first three are publish errors; the last is the
      attribute error of calling `strip()` on a number. */
  datatype PidConfigError =
    | SectionNotFound(section: string)
    | CredentialsMissing(section: string)
    | Misconfiguration(section: string)
    | FieldNotText(field: nat)
  {
    /** The three publish errors name the section right after their own opening words;
        the attribute error does not say which field it was raised on. */
    function Message(): (r: string)
      ensures SectionNotFound? ==> NotFoundOpening + section <= r
      ensures CredentialsMissing? ==> MissingOpening + section <= r
      ensures Misconfiguration? ==> MisconfigurationOpening + section <= r
      ensures FieldNotText? ==> r == FieldNotTextMessage
    {
      match this
      case SectionNotFound(section) =>
        Around(NotFoundOpening, section, "' not found in esg.ini.")
      case CredentialsMissing(section) =>
        Around(MissingOpening, section, "' of esg.ini. "
          + "Please contact your tier1 data node admin to get the proper values.")
      case Misconfiguration(section) =>
        Around(MisconfigurationOpening, section, "' of esg.ini.")
      case FieldNotText(_) =>
        FieldNotTextMessage
    }
  }

  const NotFoundOpening := "Section '"
  const MissingOpening := "Option 'pid_credentials' missing in section '"
  const MisconfigurationOpening := "Misconfiguration: 'pid_credentials', section '"

  /** `pre`, then `s`, then `post`: a `%s` template filled in with `s`. */
  function Around(pre: string, s: string, post: string): (r: string)
    ensures |r| == |pre| + |s| + |post|
    ensures pre + s <= r
    ensures r[|pre| + |s|..] == post
  {
    pre + s + post
  }

  /** Python's text of the attribute error raised by `strip()` on an `int`. */
  const FieldNotTextMessage := "'int' object has no attribute 'strip'"

  /** A record of 6 fields, or of 7 whose last is a number. */
  predicate GoodArity(rec: Record) {
    (|rec| == 7 && rec[6].Number?) || |rec| == 6
  }

  /** The first field that `strip()` is called on and that is a number: the ssl flag
      (field 5) is stripped first, then url, port, vhost, user and password. */
  function FirstNumberField(rec: Record): (r: Option<nat>)
    requires |rec| >= 6
    ensures r == None <==> forall f :: 0 <= f < 6 ==> rec[f].Text?
    ensures r != None ==> r.value < 6 && rec[r.value].Number?
    ensures r == Some(5) <==> rec[5].Number?
    ensures r != None && r.value < 5 ==> rec[5].Text? && forall g :: 0 <= g < r.value ==> rec[g].Text?
  {
    if rec[5].Number? then Some(5)
    else if rec[0].Number? then Some(0)
    else if rec[1].Number? then Some(1)
    else if rec[2].Number? then Some(2)
    else if rec[3].Number? then Some(3)
    else if rec[4].Number? then Some(4)
    else None
  }

  /** A record that the loop turns into a credential without raising. */
  predicate WellFormedRecord(rec: Record) {
    && GoodArity(rec)
    && rec[0].Text? && rec[1].Text? && rec[2].Text? && rec[3].Text? && rec[4].Text? && rec[5].Text?
  }

  /** What the loop raises on a record that is not well formed. */
  function RecordError(section: string, rec: Record): PidConfigError
    requires !WellFormedRecord(rec)
  {
    if !GoodArity(rec) then Misconfiguration(section) else FieldNotText(FirstNumberField(rec).value)
  }

  /** The running priority after record `i`: it starts at 0, a 7-field record sets it
      to its own last field, and any other record adds one. */
  function Priority(records: seq<Record>, i: nat): (p: int)
    requires i < |records|
    ensures |records[i]| == 7 && records[i][6].Number? ==> p == records[i][6].n
    ensures i == 0 && |records[0]| == 6 ==> p == 1
  {
    var previous := if i == 0 then 0 else Priority(records, i - 1);
    if |records[i]| == 7 && records[i][6].Number? then records[i][6].n else previous + 1
  }

  /** `ssl_enabled`: the flag field, stripped and upper-cased, reads TRUE. */
  predicate SslFlag(field: string): (b: bool)
    ensures b ==> |Strip(field)| == 4
  {
    Upper(Strip(field)) == "TRUE"
  }

  /** The credential holds the record's first five fields stripped, its ssl flag and
      the given priority. */
  predicate Describes(c: Credential, rec: Record, priority: int)
    requires WellFormedRecord(rec)
  {
    && c.url == Strip(rec[0].s) && c.port == Strip(rec[1].s) && c.vhost == Strip(rec[2].s)
    && c.user == Strip(rec[3].s) && c.password == Strip(rec[4].s)
    && c.sslEnabled == SslFlag(rec[5].s)
    && c.priority == priority
  }

  /** The failure is the one raised by the first record that is not well formed. */
  predicate FirstFault(section: string, records: seq<Record>, e: PidConfigError) {
    exists k :: 0 <= k < |records| && !WellFormedRecord(records[k]) && RecordError(section, records[k]) == e
      && forall j :: 0 <= j < k ==> WellFormedRecord(records[j])
  }

  /** `get_pid_config`. `config` maps each section that exists to its split
      `pid_credentials` records. It fails on a missing section, on an empty record
      list and on the first malformed record; otherwise it returns one credential per
      record, in order, and the fixed exchange name. */
  method GetPidConfig(section: string, config: map<string, seq<Record>>)
    returns (r: Result<PidConfig, PidConfigError>)
    ensures section !in config ==> r == Failure(SectionNotFound(section))
    ensures section in config && config[section] == [] ==> r == Failure(CredentialsMissing(section))
    ensures section in config && config[section] != [] ==>
      (r.Success? <==> forall i :: 0 <= i < |config[section]| ==> WellFormedRecord(config[section][i]))
    ensures section in config && config[section] != [] && r.Failure? ==>
      FirstFault(section, config[section], r.error)
    ensures r.Success? ==>
      && section in config
      && r.value.exchange == ExchangeName
      && |r.value.credentials| == |config[section]|
      && forall i :: 0 <= i < |config[section]| ==>
           WellFormedRecord(config[section][i])
           && Describes(r.value.credentials[i], config[section][i], Priority(config[section], i))
  {
    if section !in config {
      return Failure(SectionNotFound(section));
    }
    var records := config[section];
    if records == [] {
      return Failure(CredentialsMissing(section));
    }
    var converted := ConvertRecords(section, records);
    if converted.Failure? {
      return Failure(converted.error);
    }
    r := Success(PidConfig(ExchangeName, converted.value));
  }

  /** The loop of `get_pid_config` over a non-empty record list: one credential per
      record, in order, with the running priority; it stops at the first record that
      is not well formed and raises that record's error. */
  method ConvertRecords(section: string, records: seq<Record>)
    returns (r: Result<seq<Credential>, PidConfigError>)
    ensures r.Success? <==> forall i :: 0 <= i < |records| ==> WellFormedRecord(records[i])
    ensures r.Failure? ==> FirstFault(section, records, r.error)
    ensures r.Success? ==>
      && |r.value| == |records|
      && forall i :: 0 <= i < |records| ==>
           WellFormedRecord(records[i]) && Describes(r.value[i], records[i], Priority(records, i))
  {
    var credentials: seq<Credential> := [];
    var priority := 0;
    var i := 0;
    while i < |records|
      invariant 0 <= i <= |records| && |credentials| == i
      invariant priority == if i == 0 then 0 else Priority(records, i - 1)
      invariant forall j :: 0 <= j < i ==>
        WellFormedRecord(records[j]) && Describes(credentials[j], records[j], Priority(records, j))
    {
      var rec := records[i];
      if |rec| == 7 && rec[6].Number? {
        priority := rec[6].n;
      } else if |rec| == 6 {
        priority := priority + 1;
      } else {
        FaultAt(section, records, i);
        return Failure(Misconfiguration(section));
      }
      assert priority == Priority(records, i);
      var made := MakeCredential(section, rec, priority);
      if made.Failure? {
        FaultAt(section, records, i);
        return Failure(made.error);
      }
      var credential := made.value;
      ghost var done := credentials;
      credentials := credentials + [credential];
      forall j | 0 <= j <= i
        ensures WellFormedRecord(records[j]) && Describes(credentials[j], records[j], Priority(records, j))
      {
        if j < i {
          assert credentials[j] == done[j];
        }
      }
      i := i + 1;
    }
    r := Success(credentials);
  }

  /** Record `i` is the first that is not well formed, so the error it raises is the
      first fault and not every record is well formed. */
  lemma FaultAt(section: string, records: seq<Record>, i: nat)
    requires i < |records| && !WellFormedRecord(records[i])
    requires forall j :: 0 <= j < i ==> WellFormedRecord(records[j])
    ensures FirstFault(section, records, RecordError(section, records[i]))
    ensures !forall j :: 0 <= j < |records| ==> WellFormedRecord(records[j])
  {
  }

  /** The body of the loop after the priority step: strip the six text fields, which
      raises on the first one that is a number, and build the credential. */
  method MakeCredential(section: string, rec: Record, priority: int) returns (r: Result<Credential, PidConfigError>)
    requires GoodArity(rec)
    ensures r.Success? <==> WellFormedRecord(rec)
    ensures r.Failure? ==> !WellFormedRecord(rec) && r.error == RecordError(section, rec)
    ensures r.Success? ==> WellFormedRecord(rec) && Describes(r.value, rec, priority)
  {
    var bad := FirstNumberField(rec);
    if bad != None {
      return Failure(FieldNotText(bad.value));
    }
    var sslEnabled := false;
    if SslFlag(rec[5].s) {
      sslEnabled := true;
    }
    r := Success(Credential(Strip(rec[0].s), Strip(rec[1].s), Strip(rec[2].s),
                            Strip(rec[3].s), Strip(rec[4].s), sslEnabled, priority));
  }

  /** A run of 6-field records counts up by one from the priority before it. */
  lemma {:induction false} PriorityCountsUp(records: seq<Record>, k: nat, i: nat)
    requires k <= i < |records|
    requires forall j :: k < j <= i ==> |records[j]| == 6
    ensures Priority(records, i) == Priority(records, k) + (i - k)
  {
    if i > k {
      PriorityCountsUp(records, k, i - 1);
    }
  }

  /** After a 7-field record, the 6-field records that follow count up from its own
      priority field. */
  lemma PriorityAfterExplicit(records: seq<Record>, k: nat, i: nat)
    requires k <= i < |records|
    requires |records[k]| == 7 && records[k][6].Number?
    requires forall j :: k < j <= i ==> |records[j]| == 6
    ensures Priority(records, i) == records[k][6].n + (i - k)
  {
    PriorityCountsUp(records, k, i);
  }

  /** Without any 7-field record the priorities are 1, 2, 3, ... */
  lemma PriorityWithoutExplicit(records: seq<Record>, i: nat)
    requires i < |records|
    requires forall j :: 0 <= j <= i ==> |records[j]| == 6
    ensures Priority(records, i) == i + 1
  {
    PriorityCountsUp(records, 0, i);
  }

  /** A record's priority depends only on the records up to it. */
  lemma {:induction false} PriorityIgnoresLaterRecords(records: seq<Record>, later: seq<Record>, i: nat)
    requires i < |records|
    ensures Priority(records + later, i) == Priority(records, i)
  {
    assert (records + later)[i] == records[i];
    if i > 0 {
      PriorityIgnoresLaterRecords(records, later, i - 1);
    }
  }

  /** The ssl flag ignores surrounding whitespace and case: it is set exactly when the
      stripped field spells "true" in any mix of cases. */
  lemma SslFlagSpellsTrue(field: string)
    ensures SslFlag(field) <==>
      var t := Strip(field);
      |t| == 4 && t[0] in "Tt" && t[1] in "Rr" && t[2] in "Uu" && t[3] in "Ee"
  {
    var t := Strip(field);
    if |t| == 4 {
      UpperAt(t, 0);
      UpperAt(t, 1);
      UpperAt(t, 2);
      UpperAt(t, 3);
      assert Upper(t) == [UpperChar(t[0]), UpperChar(t[1]), UpperChar(t[2]), UpperChar(t[3])];
    }
  }

  // ---------------------------------------------------------------------------
  // get_citation_url
  // ---------------------------------------------------------------------------

  const CitationBase := "http://cera-www.dkrz.de/WDCC/meta/CMIP6/"

  /** `get_citation_url`: the citation record of a dataset version. */
  function GetCitationUrl(datasetName: string, datasetVersion: string): (url: string)
    ensures CitationBase <= url
    ensures |url| == |CitationBase| + |datasetName| + |datasetVersion| + 7
    ensures url[|url| - 5..] == ".json"
  {
    CitationBase + datasetName + ".v" + datasetVersion + ".json"
  }

  /** The URL is the base, the dataset name, ".v", the version and ".json", in that order;
      knowing the name's length, each piece can be read back from the URL. */
  lemma CitationUrlLayout(datasetName: string, datasetVersion: string)
    ensures var url, b, n := GetCitationUrl(datasetName, datasetVersion), |CitationBase|, |datasetName|;
      && |url| == b + n + |datasetVersion| + 7
      && url[..b] == CitationBase
      && url[b..b + n] == datasetName
      && url[b + n..b + n + 2] == ".v"
      && url[b + n + 2..|url| - 5] == datasetVersion
      && url[|url| - 5..] == ".json"
  {
  }

  /** Two versions of the same dataset never share a citation URL. */
  lemma CitationUrlSeparatesVersions(datasetName: string, v1: string, v2: string)
    requires GetCitationUrl(datasetName, v1) == GetCitationUrl(datasetName, v2)
    ensures v1 == v2
  {
    CitationUrlLayout(datasetName, v1);
    CitationUrlLayout(datasetName, v2);
  }

  lemma CitationUrlExample()
    ensures GetCitationUrl("ds1", "1") == "http://cera-www.dkrz.de/WDCC/meta/CMIP6/ds1.v1.json"
  {
  }

  /** Across datasets the URL is ambiguous: a name that itself contains ".v" can
      collide with another name and version. */
  lemma CitationUrlCollision()
    ensures GetCitationUrl("ds.v1", "2") == GetCitationUrl("ds", "1.v2")
  {
  }

  // ---------------------------------------------------------------------------
  // validateFile
  // ---------------------------------------------------------------------------

  const DefaultCmorTablePath := "/usr/local/cmip6-cmor-tables/Tables"

  /** The CMOR table directory: the configured one, or the default when it is empty
      or could not be read. */
  function TableDirectory(configured: Option<string>): (dir: string)
    ensures dir != ""
    ensures configured != None && configured.value != "" ==> dir == configured.value
    ensures configured == None || configured.value == "" ==> dir == DefaultCmorTablePath
  {
    if configured == None || configured.value == "" then DefaultCmorTablePath else configured.value
  }

  /** The CV table file of a table id. */
  function TableFile(configured: Option<string>, tableId: string): (f: string)
    ensures TableDirectory(configured) <= f
    ensures |f| == |TableDirectory(configured)| + |tableId| + 12
    ensures f[|f| - 5..] == ".json"
  {
    TableDirectory(configured) + "/CMIP6_" + tableId + ".json"
  }

  /** The table file sits in the table directory, is named after the table id, and
      different table ids give different files. */
  lemma TableFileLayout(configured: Option<string>, tableId: string)
    ensures var f, d := TableFile(configured, tableId), |TableDirectory(configured)|;
      && |f| == d + |tableId| + 12
      && f[..d] == TableDirectory(configured)
      && f[d..d + 7] == "/CMIP6_"
      && f[d + 7..|f| - 5] == tableId
      && f[|f| - 5..] == ".json"
  {
  }

  lemma TableFileInjective(configured: Option<string>, t1: string, t2: string)
    requires TableFile(configured, t1) == TableFile(configured, t2)
    ensures t1 == t2
  {
    TableFileLayout(configured, t1);
    TableFileLayout(configured, t2);
  }

  /** What the external controlled-vocabulary check does with the file: pass, fail to
      create its checker object, or raise. */
  datatype CvVerdict = CvPassed | CvNoProcess | CvRaised

  /** How `validateFile` ends: returning early on the CMOR version, returning after the
      CV check, or raising a publish error with the given message. */
  datatype Verdict = PassedCmorVersion | PassedCvCheck | PublishError(message: string)

  /** The attributes the CV path reads, in the order it reads them. */
  const RequiredAttributes: seq<string> := ["data_specs_version", "table_id", "variable_id"]

  function MissingAttributeMessage(path: string, attribute: string): string {
    "File " + path + " missing required " + attribute + " global attribute"
  }

  function CvFailureMessage(path: string): string {
    "File " + path + " failed the CV check"
  }

  /** Every message `validateFile` can raise for the file at `path`. */
  function FailureMessages(path: string): seq<string> {
    [ MissingAttributeMessage(path, RequiredAttributes[0]), MissingAttributeMessage(path, RequiredAttributes[1]),
      MissingAttributeMessage(path, RequiredAttributes[2]), CvFailureMessage(path) ]
  }

  /** The message raised inside the guarded block when no checker object is created. */
  function ObjectCreateFailureMessage(path: string): string {
    "File " + path + " failed the CV check - object create failure"
  }

  function ProjectSection(name: string): string {
    "project:" + name
  }

  /** `min_cmor_version` of the project section, "0.0.0" when it is not set. */
  function MinCmorVersion(config: map<string, map<string, string>>, name: string): (v: string)
    ensures ProjectSection(name) in config && "min_cmor_version" in config[ProjectSection(name)] ==>
      v == config[ProjectSection(name)]["min_cmor_version"]
    ensures !(ProjectSection(name) in config && "min_cmor_version" in config[ProjectSection(name)]) ==> v == "0.0.0"
  {
    var section := ProjectSection(name);
    if section in config && "min_cmor_version" in config[section] then config[section]["min_cmor_version"]
    else "0.0.0"
  }

  /** The file's `cmor_version`, "0.0.0" when the attribute is missing. */
  function FileCmorVersion(attributes: map<string, string>): (v: string)
    ensures "cmor_version" in attributes ==> v == attributes["cmor_version"]
    ensures "cmor_version" !in attributes ==> v == "0.0.0"
  {
    if "cmor_version" in attributes then attributes["cmor_version"] else "0.0.0"
  }

  /** `validateFile`. `versionAtLeast` stands for `compareLibVersions(minimum, found)`,
      `cvCheck` for the external validator run on (variable, table file, path), and
      `configuredTablePath` for the guarded `cmor_table_path` lookup (None when it raised).
      The table path is a parameter of its own rather than read from `config`, because
      that lookup passes the misspelt keyword `defaut=`: whether it raises, and so whether
      the configured value is used at all, depends on the configuration reader, which is
      not part of this model. */
  function ValidateFile(
    name: string, path: string, attributes: map<string, string>,
    config: map<string, map<string, string>>, configuredTablePath: Option<string>,
    versionAtLeast: (string, string) -> bool, cvCheck: (string, string, string) -> CvVerdict): (r: Verdict)
    ensures r == PassedCmorVersion <==> versionAtLeast(MinCmorVersion(config, name), FileCmorVersion(attributes))
    ensures r == PassedCvCheck ==>
      && (forall a :: a in RequiredAttributes ==> a in attributes)
      && cvCheck(attributes["variable_id"], TableFile(configuredTablePath, attributes["table_id"]), path) == CvPassed
    ensures r.PublishError? ==> r.message in FailureMessages(path)
    ensures (!versionAtLeast(MinCmorVersion(config, name), FileCmorVersion(attributes))
             && forall a :: a in RequiredAttributes ==> a in attributes) ==>
      && (r == PassedCvCheck <==>
           cvCheck(attributes["variable_id"], TableFile(configuredTablePath, attributes["table_id"]), path) == CvPassed)
      && (r.PublishError? ==> r.message == CvFailureMessage(path))
  {
    if versionAtLeast(MinCmorVersion(config, name), FileCmorVersion(attributes)) then
      PassedCmorVersion
    else if "data_specs_version" !in attributes then
      PublishError(MissingAttributeMessage(path, "data_specs_version"))
    else if "table_id" !in attributes then
      PublishError(MissingAttributeMessage(path, "table_id"))
    else if "variable_id" !in attributes then
      PublishError(MissingAttributeMessage(path, "variable_id"))
    else
      var tableFile := TableFile(configuredTablePath, attributes["table_id"]);
      match cvCheck(attributes["variable_id"], tableFile, path)
      case CvPassed => PassedCvCheck
      case CvNoProcess => PublishError(CvFailureMessage(path))
      case CvRaised => PublishError(CvFailureMessage(path))
  }

  /** When the first required attribute missing is `RequiredAttributes[k]`, the file is
      rejected with a message naming exactly that attribute. */
  lemma MissingAttributeNamed(
    name: string, path: string, attributes: map<string, string>,
    config: map<string, map<string, string>>, configuredTablePath: Option<string>,
    versionAtLeast: (string, string) -> bool, cvCheck: (string, string, string) -> CvVerdict, k: nat)
    requires !versionAtLeast(MinCmorVersion(config, name), FileCmorVersion(attributes))
    requires k < |RequiredAttributes| && RequiredAttributes[k] !in attributes
    requires forall j :: 0 <= j < k ==> RequiredAttributes[j] in attributes
    ensures ValidateFile(name, path, attributes, config, configuredTablePath, versionAtLeast, cvCheck)
      == PublishError(MissingAttributeMessage(path, RequiredAttributes[k]))
  {
    if k > 0 {
      assert RequiredAttributes[0] in attributes;
    }
    if k > 1 {
      assert RequiredAttributes[1] in attributes;
    }
  }

  /** A file whose CMOR version satisfies the minimum is accepted whatever the CV
      validator, the table directory and the other attributes would say. */
  lemma CmorVersionShortCircuits(
    name: string, path: string, attributes: map<string, string>,
    config: map<string, map<string, string>>,
    t1: Option<string>, t2: Option<string>,
    versionAtLeast: (string, string) -> bool,
    cv1: (string, string, string) -> CvVerdict, cv2: (string, string, string) -> CvVerdict)
    requires versionAtLeast(MinCmorVersion(config, name), FileCmorVersion(attributes))
    ensures ValidateFile(name, path, attributes, config, t1, versionAtLeast, cv1)
      == ValidateFile(name, path, attributes, config, t2, versionAtLeast, cv2)
      == PassedCmorVersion
  {
  }

  /** A missing `cmor_version` is not an error: the file is judged as if it had been
      made by CMOR 0.0.0. */
  lemma MissingCmorVersionReadsAsZero(
    name: string, path: string, attributes: map<string, string>,
    config: map<string, map<string, string>>, configuredTablePath: Option<string>,
    versionAtLeast: (string, string) -> bool, cvCheck: (string, string, string) -> CvVerdict)
    requires "cmor_version" !in attributes
    ensures ValidateFile(name, path, attributes, config, configuredTablePath, versionAtLeast, cvCheck)
      == ValidateFile(name, path, attributes["cmor_version" := "0.0.0"], config, configuredTablePath, versionAtLeast, cvCheck)
  {
    var zero := attributes["cmor_version" := "0.0.0"];
    assert FileCmorVersion(zero) == "0.0.0";
    forall a | a != "cmor_version"
      ensures (a in zero <==> a in attributes) && (a in attributes ==> zero[a] == attributes[a])
    {
    }
    assert "data_specs_version" != "cmor_version" && "table_id" != "cmor_version" && "variable_id" != "cmor_version";
  }

  /** The bare `except` around the CV check swallows the "object create failure" error
      raised inside it: a validator that creates no checker object surfaces as the
      generic CV failure, and the more specific message never reaches the caller. */
  lemma ObjectCreateFailureIsSwallowed(
    name: string, path: string, attributes: map<string, string>,
    config: map<string, map<string, string>>, configuredTablePath: Option<string>,
    versionAtLeast: (string, string) -> bool, cvCheck: (string, string, string) -> CvVerdict)
    ensures ValidateFile(name, path, attributes, config, configuredTablePath, versionAtLeast, cvCheck)
      != PublishError(ObjectCreateFailureMessage(path))
  {
    ObjectCreateFailureNotRaised(path);
  }

  /** The lengths alone tell the messages apart: the object-create message is 49
      characters longer than the path, the others 25, 48, 51 and 58. */
  lemma ObjectCreateFailureNotRaised(path: string)
    ensures ObjectCreateFailureMessage(path) !in FailureMessages(path)
  {
    var n := |path|;
    assert |ObjectCreateFailureMessage(path)| == n + 49;
    assert |CvFailureMessage(path)| == n + 25;
    assert |MissingAttributeMessage(path, RequiredAttributes[0])| == n + 58;
    assert |MissingAttributeMessage(path, RequiredAttributes[1])| == n + 48;
    assert |MissingAttributeMessage(path, RequiredAttributes[2])| == n + 51;
  }
}
