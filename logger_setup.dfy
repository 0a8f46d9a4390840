/**
  The structlog set-up shared by the application and the Uvicorn loggers:
  the processor chain `build_default_processors` returns, and the
  event-dict rewriter that drops Uvicorn's `color_message`. An event dict
  is a mutable dictionary that processors edit in place, so it is an
  object here with one map field.
*/
module LoggerSetup {
  import opened Errors

  /** The standard library's DEBUG level. */
  const Debug: int := 10

  datatype CallsiteParameter =
    | Module | Filename | FuncName | ProcessName | ThreadName
    | Pathname | Thread | Process

  /**
    The processors this code puts into a chain, named after the structlog
    callables; a console renderer built without `colors` has `None`, the
    library's default.
  */
  datatype Processor =
    | MergeContextvars
    | AddLoggerName
    | AddLogLevel
    | CallsiteParameterAdder(parameters: set<CallsiteParameter>)
    | DropColorMessageKey
    | TimeStamper(fmt: string)
    | StackInfoRenderer
    | FormatExcInfo
    | RequestMetaExtractor
    | RemoveProcessorsMeta
    | WrapForFormatter
    | ConsoleRenderer(colors: Option<bool>)
    | JSONRenderer
    | LogfmtRenderer

  const BaseCallsiteParameters: set<CallsiteParameter> := {Module, Filename, FuncName, ProcessName, ThreadName}
  const DebugCallsiteParameters: set<CallsiteParameter> := {Pathname, Thread, Process}

  /** The call-site fields recorded: five always, the three debug ones only at exactly DEBUG. */
  function CallsiteParameters(level: int): set<CallsiteParameter> {
    if level == Debug then BaseCallsiteParameters + DebugCallsiteParameters else BaseCallsiteParameters
  }

  /** `build_default_processors`: seven processors in a fixed order, and `format_exc_info` eighth for JSON output. */
  function BuildDefaultProcessors(level: int, jsonFormat: bool): (r: seq<Processor>)
    ensures |r| == if jsonFormat then 8 else 7
    ensures r[3] == CallsiteParameterAdder(CallsiteParameters(level))
    ensures jsonFormat ==> r[7] == FormatExcInfo
  {
    var shared := [
      MergeContextvars,
      AddLoggerName,
      AddLogLevel,
      CallsiteParameterAdder(CallsiteParameters(level)),
      DropColorMessageKey,
      TimeStamper("iso"),
      StackInfoRenderer
    ];
    if jsonFormat then shared + [FormatExcInfo] else shared
  }

  /** Five call-site fields, or eight exactly when the level is DEBUG; the debug fields appear only then. */
  lemma CallsiteParameterCount(level: int)
    ensures |CallsiteParameters(level)| == if level == Debug then 8 else 5
    ensures (Pathname in CallsiteParameters(level)) <==> level == Debug
    ensures BaseCallsiteParameters <= CallsiteParameters(level)
  {
    BaseAndDebugSizes();
    assert BaseCallsiteParameters !! DebugCallsiteParameters;
  }

  lemma BaseAndDebugSizes()
    ensures |BaseCallsiteParameters| == 5 && |DebugCallsiteParameters| == 3
  {
    assert BaseCallsiteParameters == {Module} + {Filename} + {FuncName} + {ProcessName} + {ThreadName};
    assert DebugCallsiteParameters == {Pathname} + {Thread} + {Process};
  }

  /**
    The JSON flag only appends: both chains share the first seven
    processors, and in both the color message is dropped before the time
    stamp and the stack info are added.
  */
  lemma JsonOnlyAppendsFormatExcInfo(level: int)
    ensures BuildDefaultProcessors(level, true) == BuildDefaultProcessors(level, false) + [FormatExcInfo]
    ensures forall json: bool :: BuildDefaultProcessors(level, json)[4] == DropColorMessageKey
    ensures forall json: bool, i :: 0 <= i < |BuildDefaultProcessors(level, json)| && i != 4 ==>
      BuildDefaultProcessors(level, json)[i] != DropColorMessageKey
  {
  }

  // ---------------------------------------------------------------------
  // Event dicts

  /** The values this model needs to tell apart in an event dict. */
  datatype Value =
    | Str(s: string)
    | Int(i: int)
    | Tuple(items: seq<Value>)
    | NoneValue

  const ColorMessageKey: string := "color_message"

  /** A structlog event dict: one mutable dictionary handed from processor to processor. */
  class EventDict {
    var entries: map<string, Value>

    constructor (entries0: map<string, Value>)
      ensures entries == entries0
    {
      entries := entries0;
    }
  }

  /** The entries once `color_message` is gone: every other key keeps its value. */
  function WithoutColorMessage(m: map<string, Value>): (r: map<string, Value>)
    ensures ColorMessageKey !in r
    ensures forall k :: k != ColorMessageKey ==> (k in r <==> k in m)
    ensures forall k :: k in r ==> r[k] == m[k]
    ensures ColorMessageKey !in m ==> r == m
  {
    m - {ColorMessageKey}
  }

  /** Dropping twice is dropping once. */
  lemma DropIsIdempotent(m: map<string, Value>)
    ensures WithoutColorMessage(WithoutColorMessage(m)) == WithoutColorMessage(m)
  {
  }

  /**
    `_drop_color_message_key`: pops `color_message` if present, raises
    nothing when it is absent, and returns the same dict.
  */
  method DropColorMessage(eventDict: EventDict) returns (r: EventDict)
    modifies eventDict
    ensures r == eventDict
    ensures eventDict.entries == WithoutColorMessage(old(eventDict.entries))
  {
    if ColorMessageKey in eventDict.entries {
      eventDict.entries := eventDict.entries - {ColorMessageKey};
    }
    r := eventDict;
  }
}
