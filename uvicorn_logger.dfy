/**
  The Uvicorn logging configuration: which formatter each of the three
  formatter slots gets, how handlers and loggers are wired to them, and the
  access-log processor that lifts the request fields out of the record's
  positional arguments.
*/
module UvicornLogger {
  import opened Errors
  import opened Settings
  import opened LoggerSetup

  // ---------------------------------------------------------------------
  // _extract_uvicorn_request_meta

  const PositionalArgsKey: string := "positional_args"
  const ClientAddrKey: string := "client_addr"
  const HttpMethodKey: string := "http_method"
  const UrlKey: string := "url"
  const StatusCodeKey: string := "status_code"

  /**
    What a Python iterable unpacking sees: the items of a tuple, the
    one-character strings of a str; a number or `None` is not iterable.
  */
  function Items(v: Value): (r: Option<seq<Value>>)
    ensures r.Some? <==> v.Tuple? || v.Str?
    ensures v.Tuple? ==> r == Some(v.items)
    ensures v.Str? ==> |r.value| == |v.s|
  {
    match v
    case Tuple(items) => Some(items)
    case Str(s) => Some(seq(|s|, i requires 0 <= i < |s| => Str([s[i]])))
    case Int(_) => None
    case NoneValue => None
  }

  /** A processor either hands the dict on or raises; only a `TypeError` escapes this one. */
  datatype Outcome = Returned(entries: map<string, Value>) | RaisedTypeError

  /** The four request keys set from the unpacked values, `positional_args` removed. */
  function WithRequestFields(m: map<string, Value>, addr: Value, httpMethod: Value, path: Value, status: Value): map<string, Value> {
    m[ClientAddrKey := addr][HttpMethodKey := httpMethod][UrlKey := path][StatusCodeKey := status] - {PositionalArgsKey}
  }

  predicate IsRequestKey(k: string) {
    k == PositionalArgsKey || k == ClientAddrKey || k == HttpMethodKey || k == UrlKey || k == StatusCodeKey
  }

  /**
    `_extract_uvicorn_request_meta` as written: the positional arguments are
    unpacked into exactly four names (client address, method, path, status)
    inside a block that swallows `KeyError` and `ValueError`. With no
    `positional_args`, or with the wrong number of items, the unpacking
    fails before any assignment, so the dict is unchanged; a value that is
    not iterable raises `TypeError`, which is not swallowed.
  */
  function ExtractRequestMeta(m: map<string, Value>): (r: Outcome)
    ensures PositionalArgsKey !in m ==> r == Returned(m)
    ensures r.RaisedTypeError? <==> PositionalArgsKey in m && Items(m[PositionalArgsKey]).None?
    ensures r.Returned? && r.entries != m ==>
      PositionalArgsKey in m && |Items(m[PositionalArgsKey]).value| == 4
    ensures PositionalArgsKey in m && Items(m[PositionalArgsKey]).Some? && |Items(m[PositionalArgsKey]).value| == 4 ==>
      var args := Items(m[PositionalArgsKey]).value;
      r.Returned? && PositionalArgsKey !in r.entries &&
      ClientAddrKey in r.entries && r.entries[ClientAddrKey] == args[0] &&
      HttpMethodKey in r.entries && r.entries[HttpMethodKey] == args[1] &&
      UrlKey in r.entries && r.entries[UrlKey] == args[2] &&
      StatusCodeKey in r.entries && r.entries[StatusCodeKey] == args[3]
    ensures r.Returned? ==> forall k :: !IsRequestKey(k) ==>
      (k in r.entries <==> k in m) && (k in r.entries ==> r.entries[k] == m[k])
  {
    if PositionalArgsKey !in m then Returned(m)
    else
      match Items(m[PositionalArgsKey])
      case None => RaisedTypeError
      case Some(args) =>
        if |args| != 4 then Returned(m)
        else Returned(WithRequestFields(m, args[0], args[1], args[2], args[3]))
  }

  /** The processor on the dict object: the same dict is returned, or `None` stands for the escaping `TypeError`. */
  method ExtractUvicornRequestMeta(eventDict: EventDict) returns (r: Option<EventDict>)
    modifies eventDict
    ensures r.Some? <==> ExtractRequestMeta(old(eventDict.entries)).Returned?
    ensures r.Some? ==> r.value == eventDict && eventDict.entries == ExtractRequestMeta(old(eventDict.entries)).entries
    ensures r.None? ==> eventDict.entries == old(eventDict.entries)
  {
    if PositionalArgsKey !in eventDict.entries {
      return Some(eventDict);
    }
    var items := Items(eventDict.entries[PositionalArgsKey]);
    if items.None? {
      return None;
    }
    var args := items.value;
    if |args| != 4 {
      return Some(eventDict);
    }
    eventDict.entries := eventDict.entries[ClientAddrKey := args[0]];
    eventDict.entries := eventDict.entries[HttpMethodKey := args[1]];
    eventDict.entries := eventDict.entries[UrlKey := args[2]];
    eventDict.entries := eventDict.entries[StatusCodeKey := args[3]];
    eventDict.entries := eventDict.entries - {PositionalArgsKey};
    r := Some(eventDict);
  }

  /** A dict without the access fields comes out as it went in, and so does one whose `positional_args` is the wrong length. */
  lemma WrongArityLeavesDictUnchanged(m: map<string, Value>)
    requires PositionalArgsKey in m && m[PositionalArgsKey].Tuple? && |m[PositionalArgsKey].items| != 4
    ensures ExtractRequestMeta(m) == Returned(m)
  {
  }

  /**
    The arguments of a Uvicorn access record: client address, method, path
    with query string, HTTP version and status code, in that order.
  */
  function UvicornAccessArgs(addr: string, httpMethod: string, path: string, httpVersion: string, status: int): Value {
    Tuple([Str(addr), Str(httpMethod), Str(path), Str(httpVersion), Int(status)])
  }

  /**
    A real access record has five arguments, so the processor as written
    never fires on it: the request fields are never set and
    `positional_args` stays.
  */
  lemma AccessRecordIsNeverExtracted(m: map<string, Value>, addr: string, httpMethod: string, path: string, httpVersion: string, status: int)
    ensures var record := m[PositionalArgsKey := UvicornAccessArgs(addr, httpMethod, path, httpVersion, status)];
      ExtractRequestMeta(record) == Returned(record)
  {
  }

  /**
    The extraction meant for Uvicorn's five-argument access records:
    unpack address, method, path, HTTP version and status, and set the four
    request fields from the address, method, path and status.
  */
  function ExtractAccessMeta(m: map<string, Value>): (r: Outcome)
    ensures PositionalArgsKey !in m ==> r == Returned(m)
    ensures r.RaisedTypeError? <==> PositionalArgsKey in m && Items(m[PositionalArgsKey]).None?
    ensures r.Returned? ==> forall k :: !IsRequestKey(k) ==>
      (k in r.entries <==> k in m) && (k in r.entries ==> r.entries[k] == m[k])
  {
    if PositionalArgsKey !in m then Returned(m)
    else
      match Items(m[PositionalArgsKey])
      case None => RaisedTypeError
      case Some(args) =>
        if |args| != 5 then Returned(m)
        else Returned(WithRequestFields(m, args[0], args[1], args[2], args[4]))
  }

  /** With the five-way unpacking every access record yields its address, method, path and status. */
  lemma AccessRecordIsExtracted(m: map<string, Value>, addr: string, httpMethod: string, path: string, httpVersion: string, status: int)
    ensures var record := m[PositionalArgsKey := UvicornAccessArgs(addr, httpMethod, path, httpVersion, status)];
      var r := ExtractAccessMeta(record);
      r.Returned? &&
      r.entries == WithRequestFields(record, Str(addr), Str(httpMethod), Str(path), Int(status)) &&
      PositionalArgsKey !in r.entries &&
      r.entries[ClientAddrKey] == Str(addr) && r.entries[HttpMethodKey] == Str(httpMethod) &&
      r.entries[UrlKey] == Str(path) && r.entries[StatusCodeKey] == Int(status)
  {
  }

  // ---------------------------------------------------------------------
  // Formatters

  /** The six formatter classes of this module. */
  datatype FormatterClass =
    | DefaultConsoleFormatter | AccessConsoleFormatter
    | DefaultJSONFormatter | AccessJSONFormatter
    | FileFormatter | FileJSONFormatter

  /**
    What a formatter is built from: the chain run on records from the
    standard library, the processors run afterwards, and whether the
    record's arguments are passed on as `positional_args`. A formatter
    given a single renderer runs `remove_processors_meta` and then it.
  */
  datatype Formatter = Formatter(foreignPreChain: seq<Processor>, processors: seq<Processor>, passForeignArgs: bool)

  function BuildFormatter(f: FormatterClass, level: int): (r: Formatter)
    ensures r.passForeignArgs <==> f == AccessConsoleFormatter || f == AccessJSONFormatter
  {
    match f
    case DefaultConsoleFormatter =>
      Formatter(BuildDefaultProcessors(level, false), [RemoveProcessorsMeta, ConsoleRenderer(Some(true))], false)
    case AccessConsoleFormatter =>
      Formatter(BuildDefaultProcessors(level, false), [RequestMetaExtractor, RemoveProcessorsMeta, ConsoleRenderer(None)], true)
    case DefaultJSONFormatter =>
      Formatter(BuildDefaultProcessors(level, true), [RemoveProcessorsMeta, JSONRenderer], false)
    case AccessJSONFormatter =>
      Formatter(BuildDefaultProcessors(level, true), [RequestMetaExtractor, RemoveProcessorsMeta, JSONRenderer], true)
    case FileFormatter =>
      Formatter(BuildDefaultProcessors(level, false), [RemoveProcessorsMeta, LogfmtRenderer], false)
    case FileJSONFormatter =>
      Formatter(BuildDefaultProcessors(level, true), [RemoveProcessorsMeta, JSONRenderer], false)
  }

  /** A formatter renders JSON exactly when its pre-chain formats exceptions, and only access formatters extract request fields. */
  lemma FormattersAgreeWithTheirRenderer(f: FormatterClass, level: int)
    ensures var b := BuildFormatter(f, level);
      (JSONRenderer in b.processors <==> FormatExcInfo in b.foreignPreChain) &&
      (RequestMetaExtractor in b.processors <==> b.passForeignArgs) &&
      b.processors[|b.processors| - 2] == RemoveProcessorsMeta
  {
    var b := BuildFormatter(f, level);
    var json := f == DefaultJSONFormatter || f == AccessJSONFormatter || f == FileJSONFormatter;
    assert b.foreignPreChain == BuildDefaultProcessors(level, json);
    JsonOnlyAppendsFormatExcInfo(level);
    if !json {
      assert FormatExcInfo !in BuildDefaultProcessors(level, false);
    }
  }

  // ---------------------------------------------------------------------
  // build_uvicorn_log_config

  datatype FormatterConfig = FormatterConfig(factory: FormatterClass, level: int, jsonFormat: Option<bool>)

  /**
    A handler entry. A `RotatingFileHandler` rolls over only when
    `maxBytes` is positive; an entry that does not set it gets 0.
  */
  datatype HandlerConfig =
    | StreamHandler(formatter: string, stream: string)
    | RotatingFileHandler(formatter: string, filename: string, maxBytes: int, backupCount: int, mode: string, encoding: string)

  datatype LoggerConfig = LoggerConfig(handlers: seq<string>, level: string, propagate: bool)

  datatype LogConfig = LogConfig(
    version: int,
    disableExistingLoggers: bool,
    formatters: map<string, FormatterConfig>,
    handlers: map<string, HandlerConfig>,
    loggers: map<string, LoggerConfig>)

  /** `logging.getLevelName` for a number: the registered name, or "Level <n>". */
  function LevelName(level: int): string {
    if level == 50 then "CRITICAL"
    else if level == 40 then "ERROR"
    else if level == 30 then "WARNING"
    else if level == 20 then "INFO"
    else if level == 10 then "DEBUG"
    else if level == 0 then "NOTSET"
    else "Level " + IntToString(level)
  }

  /** The names `dictConfig` accepts as a level, with their numbers. */
  function LevelNumber(name: string): (r: Option<int>)
    ensures r.Some? ==> StandardLevel(r.value)
  {
    if name == "CRITICAL" || name == "FATAL" then Some(50)
    else if name == "ERROR" then Some(40)
    else if name == "WARNING" || name == "WARN" then Some(30)
    else if name == "INFO" then Some(20)
    else if name == "DEBUG" then Some(10)
    else if name == "NOTSET" then Some(0)
    else None
  }

  predicate StandardLevel(level: int) {
    level == 0 || level == 10 || level == 20 || level == 30 || level == 40 || level == 50
  }

  /**
    The level name of a standard level reads back as that level; the name
    of any other level is not one `dictConfig` accepts.
  */
  lemma LevelNameReadsBack(level: int)
    ensures StandardLevel(level) ==> LevelNumber(LevelName(level)) == Some(level)
    ensures !StandardLevel(level) ==> LevelNumber(LevelName(level)).None?
  {
    if !StandardLevel(level) {
      var name := LevelName(level);
      assert name[0] == 'L';
    }
  }

  const UvicornLoggerName: string := "uvicorn"
  const UvicornErrorLoggerName: string := "uvicorn.error"
  const UvicornAccessLoggerName: string := "uvicorn.access"

  /**
    `build_uvicorn_log_config`: the console flag picks the JSON or console
    default and access formatters, the file flag picks the JSON or logfmt
    file formatter and is also passed along as `json_format`; `logFile` and
    `backupCount` are the logging settings the file handler uses.
  */
  function BuildUvicornLogConfig(level: int, jsonConsoleFormat: bool, jsonFileFormat: bool,
                                 logFile: string, backupCount: int): (r: LogConfig)
    ensures r.formatters.Keys == {"default", "access", "file_formatter"}
    ensures r.handlers.Keys == {"default", "access", "file"}
    ensures r.loggers.Keys == {UvicornLoggerName, UvicornErrorLoggerName, UvicornAccessLoggerName}
  {
    var default := if jsonConsoleFormat then DefaultJSONFormatter else DefaultConsoleFormatter;
    var access := if jsonConsoleFormat then AccessJSONFormatter else AccessConsoleFormatter;
    var fileFormatter := if jsonFileFormat then FileJSONFormatter else FileFormatter;
    var levelName := LevelName(level);
    LogConfig(
      1,
      false,
      map[
        "default" := FormatterConfig(default, level, None),
        "access" := FormatterConfig(access, level, None),
        "file_formatter" := FormatterConfig(fileFormatter, level, Some(jsonFileFormat))],
      map[
        "default" := StreamHandler("default", "ext://sys.stdout"),
        "access" := StreamHandler("access", "ext://sys.stdout"),
        "file" := RotatingFileHandler("file_formatter", logFile, 0, backupCount, "a", "utf-8")],
      map[
        UvicornLoggerName := LoggerConfig(["default", "file"], levelName, false),
        UvicornErrorLoggerName := LoggerConfig(["default", "file"], levelName, false),
        UvicornAccessLoggerName := LoggerConfig(["access", "file"], levelName, false)])
  }

  /** JSON console output means JSON default and access formatters; otherwise both are console ones. */
  lemma ConsoleFormatterSelection(level: int, jsonConsole: bool, jsonFile: bool, logFile: string, backupCount: int)
    ensures var c := BuildUvicornLogConfig(level, jsonConsole, jsonFile, logFile, backupCount);
      (c.formatters["default"].factory == DefaultJSONFormatter <==> jsonConsole) &&
      (c.formatters["access"].factory == AccessJSONFormatter <==> jsonConsole) &&
      (!jsonConsole ==> c.formatters["default"].factory == DefaultConsoleFormatter &&
                        c.formatters["access"].factory == AccessConsoleFormatter)
  {
  }

  /** JSON file output means the JSON file formatter, otherwise logfmt, and the flag reaches the formatter entry. */
  lemma FileFormatterSelection(level: int, jsonConsole: bool, jsonFile: bool, logFile: string, backupCount: int)
    ensures var c := BuildUvicornLogConfig(level, jsonConsole, jsonFile, logFile, backupCount);
      (c.formatters["file_formatter"].factory == FileJSONFormatter <==> jsonFile) &&
      (!jsonFile ==> c.formatters["file_formatter"].factory == FileFormatter) &&
      c.formatters["file_formatter"].jsonFormat == Some(jsonFile)
  {
  }

  /**
    The wiring is closed and uniform: every handler names a formatter that
    exists, every logger names handlers that exist, all loggers write to
    the file, none propagates, and all share the level's name;
    `uvicorn.access` uses the access handler and the other two the default
    one.
  */
  lemma LoggerWiring(level: int, jsonConsole: bool, jsonFile: bool, logFile: string, backupCount: int)
    ensures var c := BuildUvicornLogConfig(level, jsonConsole, jsonFile, logFile, backupCount);
      (forall h :: h in c.handlers ==> c.handlers[h].formatter in c.formatters) &&
      (forall n :: n in c.loggers ==>
        (forall i :: 0 <= i < |c.loggers[n].handlers| ==> c.loggers[n].handlers[i] in c.handlers) &&
        "file" in c.loggers[n].handlers &&
        !c.loggers[n].propagate &&
        c.loggers[n].level == LevelName(level) &&
        (("access" in c.loggers[n].handlers) <==> n == UvicornAccessLoggerName) &&
        (("default" in c.loggers[n].handlers) <==> n != UvicornAccessLoggerName))
  {
    var c := BuildUvicornLogConfig(level, jsonConsole, jsonFile, logFile, backupCount);
    forall n | n in c.loggers
      ensures (("access" in c.loggers[n].handlers) <==> n == UvicornAccessLoggerName)
      ensures (("default" in c.loggers[n].handlers) <==> n != UvicornAccessLoggerName)
    {
      if n != UvicornAccessLoggerName {
        assert c.loggers[n].handlers == ["default", "file"];
      } else {
        assert c.loggers[n].handlers == ["access", "file"];
      }
    }
  }

  /**
    The Uvicorn file handler is given no `maxBytes`, so it never rolls
    over and its `backupCount` never takes effect.
  */
  lemma UvicornFileHandlerNeverRotates(level: int, jsonConsole: bool, jsonFile: bool, logFile: string, backupCount: int)
    ensures var c := BuildUvicornLogConfig(level, jsonConsole, jsonFile, logFile, backupCount);
      c.handlers["file"].RotatingFileHandler? && c.handlers["file"].maxBytes == 0 &&
      c.handlers["file"].filename == logFile && c.handlers["file"].backupCount == backupCount
  {
  }

  /** Every formatter slot is built for the configured level. */
  lemma FormattersShareTheLevel(level: int, jsonConsole: bool, jsonFile: bool, logFile: string, backupCount: int)
    ensures var c := BuildUvicornLogConfig(level, jsonConsole, jsonFile, logFile, backupCount);
      forall f :: f in c.formatters ==> c.formatters[f].level == level
  {
  }
}
