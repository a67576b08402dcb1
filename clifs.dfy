/**
 * Decoded JSON values, as encoding/json produces them for an interface{}
 * target: numbers are float64 in Go and real here. A number also records
 * whether its literal is written as an integer (no fraction, no exponent),
 * which decoding into an int field demands.
 */
module Json {
  datatype JsonValue =
    | JNull
    | JBool(b: bool)
    | JNumber(n: real, integerLiteral: bool)
    | JString(s: string)
    | JArray(items: seq<JsonValue>)
    | JObject(fields: map<string, JsonValue>)
}

/**
 * The pure parts of the CLI filesystem: a back end that forwards each
 * filesystem operation to an external program.
 *
 * Running the program is not modelled: its observable outcome (whether it
 * failed, its stdout and stderr bytes, and what the JSON decoder makes of
 * them) is a RunOutcome given to the operations. The configured extra
 * arguments are likewise given in decoded form.
 */
module CliFs {
  import opened Wrappers
  import opened Bytes
  import opened Json
  import opened Strings
  import opened GoPath
  import Decimal

  const StatusTypeSuccess := 0
  const StatusTypeWarning := 1
  const StatusTypeError := 2
  const StatusTypeUnknown := 3

  const StatusCodeFeedback := 0
  const StatusCodeNotExists := 1
  const StatusCodePermissionDenied := 2

  /** The status record the program writes to stderr. */
  datatype Status = Status(statusType: int, code: int, message: string)

  /** The errors the back end returns, by their Go type; Wrapped is errors.Wrap. */
  datatype FsError =
    | NotExists(message: string)
    | PermissionDenied(message: string)
    | Feedback(message: string)
    | Unsupported
    | JsonError
    | Failure(message: string)
    | ProcessError(message: string)
    | CastPanic
    | Wrapped(context: string, cause: FsError)

  /**
   * ExtraCommandArgs as decoded from its JSON text: None when it is not an
   * array of strings (the empty text included).
   */
  datatype CliFsConfig = CliFsConfig(binPath: string, extraArgs: Option<seq<string>>)

  /** What running the program produced, and the JSON decoder's reading of stdout and stderr. */
  datatype RunOutcome = RunOutcome(failed: bool, runError: string,
                                   stdout: seq<byte>, stdoutJson: Option<JsonValue>,
                                   stderr: seq<byte>, stderrJson: Option<JsonValue>)

  datatype FileInfo = FileInfo(name: string, isDir: bool, size: int, modTime: string, fullName: bool)

  const MinInt64 := -0x8000_0000_0000_0000
  const MaxInt64 := 0x7FFF_FFFF_FFFF_FFFF

  /** A JSON value that encoding/json stores into a Go int: an integer literal within 64 bits. */
  predicate IsInt64Literal(v: JsonValue)
  {
    v.JNumber? && v.integerLiteral && v.n == v.n.Floor as real && MinInt64 <= v.n.Floor <= MaxInt64
  }

  /**
   * Decoding an int field: absent or null keeps the field's prior value; any
   * other value must be an integer literal that fits in 64 bits.
   */
  function IntField(m: map<string, JsonValue>, key: string, prior: int): (r: Option<int>)
    ensures key !in m || m[key].JNull? ==> r == Some(prior)
    ensures key in m && !m[key].JNull? ==> (r.Some? <==> IsInt64Literal(m[key]))
    ensures r.Some? && key in m && !m[key].JNull? ==> m[key].n == r.value as real && MinInt64 <= r.value <= MaxInt64
  {
    if key !in m || m[key].JNull? then Some(prior)
    else if IsInt64Literal(m[key]) then Some(m[key].n.Floor)
    else None
  }

  /**
   * Decoding a string field: absent or null keeps the field's prior value; a
   * JSON string gives its text; any other value fails.
   */
  function StringField(m: map<string, JsonValue>, key: string, prior: string): (r: Option<string>)
    ensures key !in m || m[key].JNull? ==> r == Some(prior)
    ensures key in m && m[key].JString? ==> r == Some(m[key].s)
    ensures key in m && !m[key].JNull? && !m[key].JString? ==> r.None?
  {
    if key !in m || m[key].JNull? then Some(prior)
    else if m[key].JString? then Some(m[key].s)
    else None
  }

  /**
   * json.Unmarshal into Status{Type: StatusTypeUnknown}: null leaves the
   * defaults, an object overrides the fields it carries, anything else fails.
   */
  function DecodeStatus(v: JsonValue): (r: Option<Status>)
    ensures v.JNull? ==> r == Some(Status(StatusTypeUnknown, 0, ""))
    ensures !v.JNull? && !v.JObject? ==> r.None?
    ensures v.JObject? ==>
      var t, c, msg := IntField(v.fields, "type", StatusTypeUnknown), IntField(v.fields, "code", 0),
                       StringField(v.fields, "message", "");
      && (r.Some? <==> t.Some? && c.Some? && msg.Some?)
      && (r.Some? ==> r.value == Status(t.value, c.value, msg.value))
  {
    match v
    case JNull => Some(Status(StatusTypeUnknown, 0, ""))
    case JObject(m) =>
      var t := IntField(m, "type", StatusTypeUnknown);
      var c := IntField(m, "code", 0);
      var msg := StringField(m, "message", "");
      if t.Some? && c.Some? && msg.Some? then Some(Status(t.value, c.value, msg.value)) else None
    case _ => None
  }

  /** A plain type check: nil, and any wrapped error, is not recognised. */
  predicate IsNotExist(e: Option<FsError>)
    ensures e.None? || e.value.Wrapped? ==> !IsNotExist(e)
    ensures IsNotExist(e) ==> e.value != Unsupported
  {
    e.Some? && e.value.NotExists?
  }

  /** A plain type check: nil, and any wrapped error, is not recognised. */
  predicate IsPermission(e: Option<FsError>)
    ensures e.None? || e.value.Wrapped? ==> !IsPermission(e)
    ensures IsPermission(e) ==> e.value != Unsupported
  {
    e.Some? && e.value.PermissionDenied?
  }

  /** False for nil; otherwise equality with the one unsupported error. */
  predicate IsNotSupported(e: Option<FsError>)
    ensures e.None? ==> !IsNotSupported(e)
    ensures e.Some? && e.value.Wrapped? ==> !IsNotSupported(e)
  {
    e.Some? && e.value == Unsupported
  }

  /** The three classifiers are false for nil and never hold together. */
  lemma ClassifiersExclusive(e: Option<FsError>)
    ensures e.None? ==> !IsNotExist(e) && !IsPermission(e) && !IsNotSupported(e)
    ensures !(IsNotExist(e) && IsPermission(e))
    ensures !(IsNotExist(e) && IsNotSupported(e))
    ensures !(IsPermission(e) && IsNotSupported(e))
  {
  }

  /** getErrorFromStatus: the error the program reported on stderr, if any. */
  function GetErrorFromStatus(stderr: seq<byte>, decoded: Option<JsonValue>): (r: Option<FsError>)
    ensures |stderr| == 0 ==> r.None?
    ensures |stderr| > 0 && (decoded.None? || DecodeStatus(decoded.value).None?) ==> r == Some(JsonError)
    ensures |stderr| > 0 && decoded.Some? && DecodeStatus(decoded.value).Some? ==>
      var s := DecodeStatus(decoded.value).value;
      && (r.None? <==> s.statusType != StatusTypeError && s.statusType != StatusTypeUnknown)
      && (s.statusType == StatusTypeError && s.code == StatusCodeNotExists ==>
            IsNotExist(r) && r.value.message == s.message)
      && (s.statusType == StatusTypeError && s.code == StatusCodePermissionDenied ==>
            IsPermission(r) && r.value.message == s.message)
      && (s.statusType == StatusTypeError && s.code != StatusCodeNotExists && s.code != StatusCodePermissionDenied ==>
            r == Some(Feedback(s.message)))
      && (s.statusType == StatusTypeUnknown ==> r == Some(Failure("Unknown status error")))
  {
    if |stderr| == 0 then None
    else if decoded.None? then Some(JsonError)
    else match DecodeStatus(decoded.value)
      case None => Some(JsonError)
      case Some(s) =>
        if s.statusType == StatusTypeError then
          if s.code == StatusCodeNotExists then Some(NotExists(s.message))
          else if s.code == StatusCodePermissionDenied then Some(PermissionDenied(s.message))
          else Some(Feedback(s.message))
        else if s.statusType == StatusTypeUnknown then Some(Failure("Unknown status error"))
        else None
  }

  /**
   * A status whose type is written 2.0, or whose code does not fit in 64 bits,
   * fails to decode, so the program's stderr reads as a JSON error.
   */
  lemma NonIntegerStatusIsJsonError(stderr: seq<byte>)
    requires |stderr| > 0
    ensures GetErrorFromStatus(stderr, Some(JObject(map["type" := JNumber(2.0, false), "code" := JNumber(1.0, true)])))
            == Some(JsonError)
    ensures GetErrorFromStatus(stderr, Some(JObject(map["type" := JNumber(2.0, true),
                                                        "code" := JNumber(9223372036854775808.0, true)])))
            == Some(JsonError)
  {
    var m1 := map["type" := JNumber(2.0, false), "code" := JNumber(1.0, true)];
    assert !IsInt64Literal(m1["type"]);
    var m2 := map["type" := JNumber(2.0, true), "code" := JNumber(9223372036854775808.0, true)];
    assert !IsInt64Literal(m2["code"]);
  }

  /**
   * A status object carrying all three keys, with 64-bit integer literals for
   * the type and the code, decodes to exactly those values; other keys are
   * ignored. An object without the keys keeps the defaults.
   */
  lemma DecodeFullStatus(t: int, c: int, msg: string, others: map<string, JsonValue>)
    requires MinInt64 <= t <= MaxInt64 && MinInt64 <= c <= MaxInt64
    requires "type" !in others && "code" !in others && "message" !in others
    ensures DecodeStatus(JObject(others)) == Some(Status(StatusTypeUnknown, 0, ""))
    ensures DecodeStatus(JObject(others["type" := JNumber(t as real, true)]["code" := JNumber(c as real, true)]
                                       ["message" := JString(msg)]))
            == Some(Status(t, c, msg))
  {
    var m := others["type" := JNumber(t as real, true)]["code" := JNumber(c as real, true)]["message" := JString(msg)];
    assert IsInt64Literal(m["type"]) && m["type"].n.Floor == t;
    assert IsInt64Literal(m["code"]) && m["code"].n.Floor == c;
  }

  /** A status without a "type" key counts as Unknown, whatever its code and message. */
  lemma MissingTypeIsUnknown(stderr: seq<byte>, m: map<string, JsonValue>)
    requires |stderr| > 0 && "type" !in m
    requires IntField(m, "code", 0).Some? && StringField(m, "message", "").Some?
    ensures GetErrorFromStatus(stderr, Some(JObject(m))) == Some(Failure("Unknown status error"))
  {
  }

  /** The argv of call: the extra arguments, the operation name, then its arguments. */
  function CallArgv(cfg: CliFsConfig, name: string, args: seq<string>): (r: Result<seq<string>, FsError>)
    ensures cfg.extraArgs.None? <==> r.Err?
    ensures r.Err? ==> r.error == Wrapped("failed to decode extra command flags", JsonError)
    ensures r.Ok? ==> var extra := cfg.extraArgs.value;
      && |r.value| == |extra| + 1 + |args|
      && r.value[..|extra|] == extra
      && r.value[|extra|] == name
      && r.value[|extra| + 1..] == args
  {
    match cfg.extraArgs
    case None => Err(Wrapped("failed to decode extra command flags", JsonError))
    case Some(extra) => Ok(extra + [name] + args)
  }

  /**
   * call: run the program; on failure, the status error from stderr if there
   * is one, else the run error wrapped with the command line.
   */
  function Call(cfg: CliFsConfig, name: string, args: seq<string>, run: RunOutcome): (r: Result<seq<byte>, FsError>)
    ensures r.Ok? <==> cfg.extraArgs.Some? && !run.failed
    ensures r.Ok? ==> r.value == run.stdout
    ensures CallArgv(cfg, name, args).Err? ==> r == Err(CallArgv(cfg, name, args).error)
    ensures cfg.extraArgs.Some? && run.failed && GetErrorFromStatus(run.stderr, run.stderrJson).Some? ==>
              r == Err(GetErrorFromStatus(run.stderr, run.stderrJson).value)
    ensures cfg.extraArgs.Some? && run.failed && GetErrorFromStatus(run.stderr, run.stderrJson).None? ==>
              r == Err(Wrapped("failed to run command: " + cfg.binPath + " " + Join(CallArgv(cfg, name, args).value, ' '),
                               ProcessError(run.runError)))
  {
    match CallArgv(cfg, name, args)
    case Err(e) => Err(e)
    case Ok(argv) =>
      if run.failed then
        match GetErrorFromStatus(run.stderr, run.stderrJson)
        case Some(e) => Err(e)
        case None => Err(Wrapped("failed to run command: " + cfg.binPath + " " + Join(argv, ' '),
                                 ProcessError(run.runError)))
      else Ok(run.stdout)
  }

  /** toMap: a JSON object gives its map, JSON null a nil map; empty or other output fails. */
  function ToMap(b: seq<byte>, decoded: Option<JsonValue>): (r: Result<Option<map<string, JsonValue>>, FsError>)
    ensures r.Ok? <==> |b| > 0 && decoded.Some? && (decoded.value.JObject? || decoded.value.JNull?)
    ensures r.Ok? && r.value.Some? ==> decoded == Some(JObject(r.value.value))
    ensures r.Err? ==> r.error == Wrapped("failed to decode JSON", JsonError)
  {
    if |b| == 0 || decoded.None? then Err(Wrapped("failed to decode JSON", JsonError))
    else match decoded.value
      case JObject(m) => Ok(Some(m))
      case JNull => Ok(None)
      case _ => Err(Wrapped("failed to decode JSON", JsonError))
  }

  function CallMustMap(cfg: CliFsConfig, name: string, args: seq<string>, run: RunOutcome)
    : (r: Result<Option<map<string, JsonValue>>, FsError>)
    ensures Call(cfg, name, args, run).Err? ==> r == Err(Call(cfg, name, args, run).error)
    ensures Call(cfg, name, args, run).Ok? ==> r == ToMap(run.stdout, run.stdoutJson)
  {
    match Call(cfg, name, args, run)
    case Err(e) => Err(e)
    case Ok(b) => ToMap(b, run.stdoutJson)
  }

  /** callCanMap: like callMustMap, except that empty output means no map and no error. */
  function CallCanMap(cfg: CliFsConfig, name: string, args: seq<string>, run: RunOutcome)
    : (r: Result<Option<map<string, JsonValue>>, FsError>)
    ensures Call(cfg, name, args, run).Err? ==> r == Err(Call(cfg, name, args, run).error)
    ensures Call(cfg, name, args, run).Ok? && |run.stdout| == 0 ==> r == Ok(None)
    ensures Call(cfg, name, args, run).Ok? && |run.stdout| > 0 ==> r == ToMap(run.stdout, run.stdoutJson)
  {
    match Call(cfg, name, args, run)
    case Err(e) => Err(e)
    case Ok(b) => if |b| == 0 then Ok(None) else ToMap(b, run.stdoutJson)
  }

  /** The two calls differ exactly on empty output: an error for one, no map for the other. */
  lemma EmptyOutputConvention(cfg: CliFsConfig, name: string, args: seq<string>, run: RunOutcome)
    requires Call(cfg, name, args, run).Ok? && |run.stdout| == 0
    ensures CallCanMap(cfg, name, args, run) == Ok(None)
    ensures CallMustMap(cfg, name, args, run) == Err(Wrapped("failed to decode JSON", JsonError))
  {
  }

  /** int64(f) for a float64 f: truncation toward zero. */
  function TruncateToInt(x: real): (r: int)
    ensures x >= 0.0 ==> 0 <= r && r as real <= x < r as real + 1.0
    ensures x < 0.0 ==> r <= 0 && r as real - 1.0 < x <= r as real
  {
    if x >= 0.0 then x.Floor else -((-x).Floor)
  }

  /**
   * newFileInfoFromMap: the five keys with their JSON types, else the
   * recovered type-assertion panic. modTime is kept as the text it holds.
   */
  function NewFileInfoFromMap(m: map<string, JsonValue>): (r: Result<FileInfo, FsError>)
    ensures r.Ok? <==>
      && "modTime" in m && m["modTime"].JString?
      && "name" in m && m["name"].JString?
      && "isDirectory" in m && m["isDirectory"].JBool?
      && "sizeInBytes" in m && m["sizeInBytes"].JNumber?
      && "fullName" in m && m["fullName"].JBool?
    ensures r.Ok? ==>
      && m["name"] == JString(r.value.name)
      && m["isDirectory"] == JBool(r.value.isDir)
      && m["modTime"] == JString(r.value.modTime)
      && m["fullName"] == JBool(r.value.fullName)
      && r.value.size == TruncateToInt(m["sizeInBytes"].n)
    ensures r.Err? ==> r.error == Wrapped("failed to cast file info map to struct", CastPanic)
  {
    if && "modTime" in m && m["modTime"].JString?
       && "name" in m && m["name"].JString?
       && "isDirectory" in m && m["isDirectory"].JBool?
       && "sizeInBytes" in m && m["sizeInBytes"].JNumber?
       && "fullName" in m && m["fullName"].JBool?
    then Ok(FileInfo(m["name"].s, m["isDirectory"].b, TruncateToInt(m["sizeInBytes"].n),
                     m["modTime"].s, m["fullName"].b))
    else Err(Wrapped("failed to cast file info map to struct", CastPanic))
  }

  /** Lstat: no output means the file does not exist; call errors come back wrapped. */
  function Lstat(cfg: CliFsConfig, name: string, run: RunOutcome): (r: Result<FileInfo, FsError>)
    ensures CallCanMap(cfg, "lstat", [name], run).Err? ==>
              r == Err(Wrapped("calling lstat command failed", CallCanMap(cfg, "lstat", [name], run).error))
    ensures CallCanMap(cfg, "lstat", [name], run) == Ok(None) ==>
              r.Err? && IsNotExist(Some(r.error)) && r.error.message == "file or directory does not exist: " + name
    ensures CallCanMap(cfg, "lstat", [name], run).Ok? && CallCanMap(cfg, "lstat", [name], run).value.Some? ==>
              r == NewFileInfoFromMap(CallCanMap(cfg, "lstat", [name], run).value.value)
  {
    match CallCanMap(cfg, "lstat", [name], run)
    case Err(e) => Err(Wrapped("calling lstat command failed", e))
    case Ok(None) => Err(NotExists("file or directory does not exist: " + name))
    case Ok(Some(m)) => NewFileInfoFromMap(m)
  }

  /** Stat: as Lstat, but through callMustMap, so only a JSON null means not-exists. */
  function Stat(cfg: CliFsConfig, name: string, run: RunOutcome): (r: Result<FileInfo, FsError>)
    ensures CallMustMap(cfg, "stat", [name], run).Err? ==>
              r == Err(Wrapped("calling stat command failed", CallMustMap(cfg, "stat", [name], run).error))
    ensures CallMustMap(cfg, "stat", [name], run) == Ok(None) ==>
              r.Err? && IsNotExist(Some(r.error)) && r.error.message == "file or directory does not exist: " + name
    ensures CallMustMap(cfg, "stat", [name], run).Ok? && CallMustMap(cfg, "stat", [name], run).value.Some? ==>
              r == NewFileInfoFromMap(CallMustMap(cfg, "stat", [name], run).value.value)
  {
    match CallMustMap(cfg, "stat", [name], run)
    case Err(e) => Err(Wrapped("calling stat command failed", e))
    case Ok(None) => Err(NotExists("file or directory does not exist: " + name))
    case Ok(Some(m)) => NewFileInfoFromMap(m)
  }

  /** A program that succeeds with no output makes Lstat report not-exists. */
  lemma LstatOfEmptyOutput(cfg: CliFsConfig, name: string, run: RunOutcome)
    requires cfg.extraArgs.Some? && !run.failed && |run.stdout| == 0
    ensures Lstat(cfg, name, run).Err? && IsNotExist(Some(Lstat(cfg, name, run).error))
  {
  }

  /** errors.Cause: the innermost error under the wraps. */
  function Cause(e: FsError): (r: FsError)
    ensures !r.Wrapped?
  {
    if e.Wrapped? then Cause(e.cause) else e
  }

  /** IsNotExist looking through wraps, as the not-exists status of Stat and Lstat needs. */
  predicate IsNotExistThroughWraps(e: Option<FsError>)
  {
    e.Some? && Cause(e.value).NotExists?
  }

  function NotExistsRun(): RunOutcome
  {
    RunOutcome(true, "exit status 1", [], None, [1], Some(JObject(map["type" := JNumber(2.0, true), "code" := JNumber(1.0, true)])))
  }

  /**
   * When the program fails with the NotExists status, Lstat wraps that error
   * and IsNotExist, which looks only at the outer error, does not recognise it.
   */
  lemma WrappedNotExistsMissed(name: string)
    ensures var r := Lstat(CliFsConfig("cli", Some([])), name, NotExistsRun());
            r.Err? && !IsNotExist(Some(r.error))
  {
    var m := map["type" := JNumber(2.0, true), "code" := JNumber(1.0, true)];
    assert DecodeStatus(JObject(m)) == Some(Status(2, 1, ""));
  }

  /** Looking through the wraps, a NotExists status always reads as not-exists after Lstat and Stat. */
  lemma NotExistsStatusRecognised(cfg: CliFsConfig, name: string, run: RunOutcome)
    requires cfg.extraArgs.Some? && run.failed
    requires IsNotExist(GetErrorFromStatus(run.stderr, run.stderrJson))
    ensures Lstat(cfg, name, run).Err? && IsNotExistThroughWraps(Some(Lstat(cfg, name, run).error))
    ensures Stat(cfg, name, run).Err? && IsNotExistThroughWraps(Some(Stat(cfg, name, run).error))
  {
  }

  /** Rename: call "rename" with source and target; success carries no value. */
  function Rename(cfg: CliFsConfig, source: string, target: string, run: RunOutcome): (r: Option<FsError>)
    ensures r.None? <==> Call(cfg, "rename", [source, target], run).Ok?
    ensures r.Some? ==> r.value == Call(cfg, "rename", [source, target], run).error
  {
    match Call(cfg, "rename", [source, target], run)
    case Ok(_) => None
    case Err(e) => Some(e)
  }

  /** Remove's isDir argument: "1" for a directory, "0" otherwise. */
  function IsDirArg(isDir: bool): (r: string)
    ensures r == "1" <==> isDir
    ensures r == "0" <==> !isDir
  {
    if isDir then "1" else "0"
  }

  function Remove(cfg: CliFsConfig, name: string, isDir: bool, run: RunOutcome): (r: Option<FsError>)
    ensures r.None? <==> Call(cfg, "remove", [name, IsDirArg(isDir)], run).Ok?
    ensures r.Some? ==> r.value == Call(cfg, "remove", [name, IsDirArg(isDir)], run).error
  {
    match Call(cfg, "remove", [name, IsDirArg(isDir)], run)
    case Ok(_) => None
    case Err(e) => Some(e)
  }

  /** The argv of Remove ends with the name and then the directory flag. */
  lemma RemoveArgvLayout(cfg: CliFsConfig, name: string, isDir: bool)
    requires cfg.extraArgs.Some?
    ensures var a := CallArgv(cfg, "remove", [name, IsDirArg(isDir)]).value;
            var extra := cfg.extraArgs.value;
            && |a| == |extra| + 3 && a[..|extra|] == extra
            && a[|extra|] == "remove" && a[|extra| + 1] == name
            && (a[|extra| + 2] == "1" <==> isDir)
  {
    var a := CallArgv(cfg, "remove", [name, IsDirArg(isDir)]).value;
    assert a[|cfg.extraArgs.value| + 1..] == [name, IsDirArg(isDir)];
  }

  /** The argv of Open: the extra arguments, "open", the name and the decimal offset. */
  function OpenArgv(cfg: CliFsConfig, name: string, offset: int): (r: Result<seq<string>, FsError>)
    ensures cfg.extraArgs.None? <==> r.Err?
    ensures r.Err? ==> r.error == Wrapped("failed to decode extra command args", JsonError)
    ensures r.Ok? ==> var extra := cfg.extraArgs.value;
      && |r.value| == |extra| + 3
      && r.value[..|extra|] == extra
      && r.value[|extra|] == "open"
      && r.value[|extra| + 1] == name
      && Decimal.ParseInt(r.value[|extra| + 2]) == Some(offset)
  {
    match cfg.extraArgs
    case None => Err(Wrapped("failed to decode extra command args", JsonError))
    case Some(extra) =>
      Decimal.ItoaRoundTrip(offset);
      Ok(extra + ["open"] + [name] + [Decimal.Itoa(offset)])
  }

  /** The operations the back end refuses, plus MkdirAll, which does nothing. */
  datatype LocalOperation = Symlink | Readlink | Chown | Chmod | Chtimes | Truncate | Mkdir | Walk | GetDirSize | MkdirAll

  function LocalResult(op: LocalOperation): (r: Option<FsError>)
    ensures op.MkdirAll? ==> r.None?
    ensures !op.MkdirAll? ==> IsNotSupported(r)
  {
    if op.MkdirAll? then None else Some(Unsupported)
  }

  /** An error is "not supported" exactly when it is the unsupported error. */
  lemma NotSupportedExactly(e: Option<FsError>)
    ensures IsNotSupported(e) <==> e == Some(Unsupported)
    ensures IsNotSupported(e) ==> !IsNotExist(e) && !IsPermission(e)
  {
  }

  /** GetRelativePath: the cleaned name, rooted, then placed under the mount path when there is one. */
  function GetRelativePath(mountPath: string, name: string): (r: string)
    ensures mountPath == "" ==> IsAbs(r)
    ensures IsAbs(mountPath) ==> IsAbs(r)
    ensures mountPath != "" ==> r == PathJoin([mountPath, RootedRel(name)])
  {
    var rel := RootedRel(name);
    if mountPath != "" then
      CleanKeepsRooted(mountPath + "/" + rel);
      assert Join([mountPath, rel], '/') == mountPath + "/" + rel;
      assert IsAbs(mountPath) ==> (mountPath + "/" + rel)[0] == mountPath[0];
      PathJoin([mountPath, rel])
    else rel
  }

  /** The name cleaned and made absolute; "." becomes "/". */
  function RootedRel(name: string): (r: string)
    ensures IsAbs(r)
  {
    var c := Clean(name);
    var rel := if c == "." then "" else c;
    if IsAbs(rel) then rel else "/" + rel
  }

  lemma RelativePathOfDot(mountPath: string)
    ensures GetRelativePath("", ".") == "/"
    ensures mountPath != "" ==> GetRelativePath(mountPath, ".") == PathJoin([mountPath, "/"])
  {
    CleanOfDot();
  }

  /** For a rooted name and no mount path, the relative path is the cleaned name. */
  lemma RelativePathOfRooted(name: string)
    requires IsAbs(name)
    ensures GetRelativePath("", name) == Clean(name)
    ensures Clean(GetRelativePath("", name)) == GetRelativePath("", name)
  {
    CleanKeepsRooted(name);
    CleanIdempotent(name);
  }

  /**
   * ResolvePath: the mount path prefix goes, a relative path is cleaned
   * under "/", and one leading "/" is removed. It never fails.
   */
  function ResolvePath(mountPath: string, virtualPath: string): (r: string)
    ensures var v := if mountPath != "" then TrimPrefix(virtualPath, mountPath) else virtualPath;
            && (IsAbs(v) ==> "/" + r == v)
            && (!IsAbs(v) ==> "/" + r == Clean("/" + v))
  {
    var v := if mountPath != "" then TrimPrefix(virtualPath, mountPath) else virtualPath;
    var p := if IsAbs(v) then v else Clean("/" + v);
    CleanKeepsRooted("/" + v);
    TrimPrefix(p, "/")
  }

  /** A relative input resolves to a path without ".." segments: it cannot climb above the root. */
  lemma ResolvedRelativeStaysInside(mountPath: string, virtualPath: string)
    requires var v := if mountPath != "" then TrimPrefix(virtualPath, mountPath) else virtualPath;
             !IsAbs(v)
    ensures var segs := Split(ResolvePath(mountPath, virtualPath), '/');
            forall i :: 0 <= i < |segs| ==> segs[i] != ".."
  {
    var v := if mountPath != "" then TrimPrefix(virtualPath, mountPath) else virtualPath;
    var r := ResolvePath(mountPath, virtualPath);
    RootedCleanHasNoParent("/" + v);
    assert ("/" + r)[1..] == r;
    assert Split("/" + r, '/') == [""] + Split(r, '/');
    var segs := Split(r, '/');
    forall i | 0 <= i < |segs| ensures segs[i] != ".." {
      assert Split("/" + r, '/')[i + 1] == segs[i];
    }
  }

  /** Without a mount path, a rooted name maps to its cleaned form without the leading "/". */
  lemma ResolveRelativePath(name: string)
    requires IsAbs(name)
    ensures "/" + ResolvePath("", GetRelativePath("", name)) == Clean(name)
  {
    RelativePathOfRooted(name);
    CleanKeepsRooted(name);
  }

  /** The error ReadDir reports for the item at 0-based index i. */
  function ItemResult(i: nat, item: JsonValue): (r: Result<FileInfo, FsError>)
    ensures !item.JObject? ==> r == Err(Failure("failed to cast item at #" + Decimal.Itoa(i + 1) + " to map"))
    ensures item.JObject? && NewFileInfoFromMap(item.fields).Ok? ==> r == NewFileInfoFromMap(item.fields)
    ensures item.JObject? && NewFileInfoFromMap(item.fields).Err? ==>
              r == Err(Wrapped("failed to cast item at #" + Decimal.Itoa(i + 1) + " to FileInfo struct",
                               NewFileInfoFromMap(item.fields).error))
  {
    if !item.JObject? then Err(Failure("failed to cast item at #" + Decimal.Itoa(i + 1) + " to map"))
    else match NewFileInfoFromMap(item.fields)
      case Ok(fi) => Ok(fi)
      case Err(e) => Err(Wrapped("failed to cast item at #" + Decimal.Itoa(i + 1) + " to FileInfo struct", e))
  }

  /** Item k is the first one that fails to convert. */
  predicate FirstFailure(list: seq<JsonValue>, k: int)
  {
    && 0 <= k < |list|
    && ItemResult(k, list[k]).Err?
    && forall i :: 0 <= i < k ==> ItemResult(i, list[i]).Ok?
  }

  /** The loop of ReadDir: one FileInfo per item in order, or the error of the first item that fails. */
  method ConvertItems(list: seq<JsonValue>) returns (r: Result<seq<FileInfo>, FsError>)
    ensures r.Ok? <==> forall i :: 0 <= i < |list| ==> ItemResult(i, list[i]).Ok?
    ensures r.Ok? ==> |r.value| == |list| && forall i :: 0 <= i < |list| ==> Ok(r.value[i]) == ItemResult(i, list[i])
    ensures r.Err? ==> exists k :: FirstFailure(list, k) && r == Err(ItemResult(k, list[k]).error)
  {
    var infos := new FileInfo[|list|];
    for i := 0 to |list|
      invariant forall j :: 0 <= j < i ==> ItemResult(j, list[j]) == Ok(infos[j])
    {
      var item := list[i];
      if item.JObject? {
        var fi := NewFileInfoFromMap(item.fields);
        if fi.Err? {
          return Err(Wrapped("failed to cast item at #" + Decimal.Itoa(i + 1) + " to FileInfo struct", fi.error));
        }
        infos[i] := fi.value;
      } else {
        return Err(Failure("failed to cast item at #" + Decimal.Itoa(i + 1) + " to map"));
      }
    }
    return Ok(infos[..]);
  }

  /**
   * ReadDir: the "list" array of the program's reply, one FileInfo per item
   * in order, or the error of the first item that is not a valid file map.
   */
  method ReadDir(cfg: CliFsConfig, dirname: string, run: RunOutcome) returns (r: Result<seq<FileInfo>, FsError>)
    ensures CallMustMap(cfg, "readDir", [dirname], run).Err? ==>
              r == Err(CallMustMap(cfg, "readDir", [dirname], run).error)
    ensures CallMustMap(cfg, "readDir", [dirname], run).Ok? ==>
      var m := CallMustMap(cfg, "readDir", [dirname], run).value;
      && (m.None? || "list" !in m.value ==>
            r == Err(Failure("returned JSON must contain 'list' as an object key")))
      && (m.Some? && "list" in m.value && !m.value["list"].JArray? ==>
            r == Err(Failure("list must be an array")))
      && (m.Some? && "list" in m.value && m.value["list"].JArray? ==>
            var list := m.value["list"].items;
            && (r.Ok? <==> forall i :: 0 <= i < |list| ==> ItemResult(i, list[i]).Ok?)
            && (r.Ok? ==>
                  && |r.value| == |list|
                  && forall i :: 0 <= i < |list| ==> Ok(r.value[i]) == ItemResult(i, list[i]))
            && (r.Err? ==>
                  exists k :: FirstFailure(list, k) && r == Err(ItemResult(k, list[k]).error)))
  {
    var mapped := CallMustMap(cfg, "readDir", [dirname], run);
    if mapped.Err? {
      return Err(mapped.error);
    }
    if mapped.value.None? || "list" !in mapped.value.value {
      return Err(Failure("returned JSON must contain 'list' as an object key"));
    }
    var res := mapped.value.value["list"];
    if !res.JArray? {
      return Err(Failure("list must be an array"));
    }
    r := ConvertItems(res.items);
  }
}
