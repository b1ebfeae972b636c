/** The slice of Serilog the library drives, reduced to what the library can
    observe: a LoggerConfiguration that records, in order, the configuration
    steps applied to it; the loggers it creates; the ILogger references the
    library switches between; and the static Log.Logger slot.

    ConfiguredLogger is declared here, beside the other ILogger cases, because
    Serilog's ILogger is an open interface: a reference to any of its
    implementations must be one value type. */
module Serilog {
  import opened Wrappers
  import opened Primitives
  import opened DateTimes

  datatype Level = Verbose | Debug | Information | Warning | Error | Fatal {
    /** The numeric value of LogEventLevel. */
    function Rank(): nat {
      match this
      case Verbose => 0
      case Debug => 1
      case Information => 2
      case Warning => 3
      case Error => 4
      case Fatal => 5
    }
  }

  /** The members of LogEventLevel by name, as Enum.TryParse knows them. */
  const LevelMembers: seq<(string, Level)> := [
    ("Verbose", Verbose), ("Debug", Debug), ("Information", Information),
    ("Warning", Warning), ("Error", Error), ("Fatal", Fatal)]

  /** The member names, lower-cased, are six distinct texts, and each is the
      name of its own member. */
  lemma LevelMemberNames()
    ensures |LevelMembers| == 6
    ensures forall i :: 0 <= i < 6 ==> LevelMembers[i].0 == LevelName(LevelMembers[i].1)
    ensures forall i :: 0 <= i < 6 ==> LevelMembers[i].1.Rank() == i
    ensures forall i, j :: 0 <= i < j < 6 ==> Lower(LevelMembers[i].0) != Lower(LevelMembers[j].0)
  {
    var names := ["verbose", "debug", "information", "warning", "error", "fatal"];
    assert forall i :: 0 <= i < 6 ==> Lower(LevelMembers[i].0) == names[i];
  }

  /** A member name in any letter case parses to that member. */
  lemma LevelNameParses(l: Level, text: string)
    requires Lower(text) == Lower(LevelName(l))
    ensures EnumTryParse(text, LevelMembers) == Some(l)
  {
    LevelMemberNames();
    var k := l.Rank();
    assert LevelMembers[k].1 == l;
    EnumTryParseUnique(text, LevelMembers, k);
  }

  /** A text that names no member does not parse. */
  lemma OtherNameFailsToParse(text: string)
    requires forall m: Level :: Lower(text) != Lower(LevelName(m))
    ensures EnumTryParse(text, LevelMembers).None?
  {
    LevelMemberNames();
  }

  function LevelName(l: Level): string {
    match l
    case Verbose => "Verbose"
    case Debug => "Debug"
    case Information => "Information"
    case Warning => "Warning"
    case Error => "Error"
    case Fatal => "Fatal"
  }

  /** A property value handed to a write. */
  datatype Value = Null | Text(text: string) | Number(number: int) | Stamp(stamp: DateTimeOffset)

  /** An exception object handed to a write. */
  datatype Exception = Exception(typeName: string, message: string)

  /** What one ForContext call attaches: a named property (ForContext(Type)
      and ForContext<T>() attach "SourceContext" with the type's full name),
      or an enricher. */
  datatype ContextItem = Property(name: string, value: string) | Enricher(name: string)

  function SourceContext(typeFullName: string): ContextItem {
    Property("SourceContext", typeFullName)
  }

  /** One step applied to a LoggerConfiguration. */
  datatype Op =
    | DestructureUsingAttributes
    | EnrichFromLogContext
    | MinimumLevelIs(level: Level)
    | MinimumLevelOverride(source: string, level: Level)
    | EnrichWith(enricherType: string)
    | FileSink(path: string, minLevel: Level, outputTemplate: string, fileSizeLimitBytes: int,
               rollOnFileSizeLimit: bool, retainedFileCountLimit: Option<int>)
    | PlainFileSink(path: string, outputTemplate: string)
    | ConsoleSink(outputTemplate: string, theme: string)
    | Async(inner: seq<Op>)
    | Custom(description: string)

  /** The minimum level a configuration sets: that of its last
      MinimumLevel.Is step, Information when there is none. */
  function MinimumOf(ops: seq<Op>): (l: Level)
    ensures (forall i :: 0 <= i < |ops| ==> !ops[i].MinimumLevelIs?) ==> l == Information
    decreases |ops|
  {
    if ops == [] then Information
    else if ops[|ops| - 1].MinimumLevelIs? then ops[|ops| - 1].level
    else MinimumOf(ops[..|ops| - 1])
  }

  lemma {:induction false} MinimumOfAppend(ops: seq<Op>, more: seq<Op>)
    requires forall i :: 0 <= i < |more| ==> !more[i].MinimumLevelIs?
    ensures MinimumOf(ops + more) == MinimumOf(ops)
    decreases |more|
  {
    if more != [] {
      assert (ops + more)[..|ops + more| - 1] == ops + more[..|more| - 1];
      assert (ops + more)[|ops + more| - 1] == more[|more| - 1];
      MinimumOfAppend(ops, more[..|more| - 1]);
    } else {
      assert ops + more == ops;
    }
  }

  lemma MinimumOfLast(ops: seq<Op>, level: Level, more: seq<Op>)
    requires forall i :: 0 <= i < |more| ==> !more[i].MinimumLevelIs?
    ensures MinimumOf(ops + [MinimumLevelIs(level)] + more) == level
  {
    MinimumOfAppend(ops + [MinimumLevelIs(level)], more);
  }

  /** Serilog.LoggerConfiguration: the steps applied so far, in order. */
  class LoggerConfiguration {
    var ops: seq<Op>

    constructor()
      ensures ops == []
    {
      ops := [];
    }

    method Apply(more: seq<Op>)
      modifies this
      ensures ops == old(ops) + more
    {
      ops := ops + more;
    }

    method CreateLogger() returns (l: Logger)
      ensures fresh(l) && l.ops == ops && l.context == [] && l.disposals == 0
    {
      l := new Logger(ops, []);
    }
  }

  /** Serilog.Core.Logger: the pipeline it was created from, the context
      attached by ForContext, and how often it was disposed. */
  class Logger {
    const ops: seq<Op>
    const context: seq<ContextItem>
    var disposals: nat

    constructor(ops: seq<Op>, context: seq<ContextItem>)
      ensures this.ops == ops && this.context == context && disposals == 0
    {
      this.ops := ops;
      this.context := context;
      disposals := 0;
    }

    predicate IsEnabled(level: Level) {
      level.Rank() >= MinimumOf(ops).Rank()
    }
  }

  /** An ILogger implementation the library does not know (the silent
      Logger.None among them): which levels it accepts and whether it is
      IDisposable. */
  class OtherLogger {
    const enabled: set<Level>
    const disposable: bool
    var disposals: nat

    constructor(enabled: set<Level>, disposable: bool)
      ensures this.enabled == enabled && this.disposable == disposable && disposals == 0
    {
      this.enabled := enabled;
      this.disposable := disposable;
      disposals := 0;
    }
  }

  /** A reference to a Serilog.ILogger; equality is reference equality. */
  datatype ILogger =
    | Concrete(logger: Logger)
    | Configured(configured: ConfiguredLogger)
    | Other(other: OtherLogger)

  /** ILogger.IsEnabled. A ConfiguredLogger answers for its `impl`. */
  predicate IsEnabled(l: ILogger, level: Level) {
    match l
    case Concrete(x) => x.IsEnabled(level)
    case Configured(c) => c.impl.IsEnabled(level)
    case Other(o) => level in o.enabled
  }

  /** The objects whose state disposing `l` may change. */
  function Resources(l: ILogger): set<object> {
    match l
    case Concrete(x) => {x}
    case Configured(c) => {c, c.log, c.impl}
    case Other(o) => {o}
  }

  /** ILogger.ForContext: a fresh logger over the same pipeline with one more
      context item. A ConfiguredLogger answers through its `impl`; of an
      unknown implementation the model only keeps the levels it accepts. */
  method ForContext(l: ILogger, item: ContextItem) returns (r: ILogger)
    ensures l.Concrete? ==> (r.Concrete? && fresh(r.logger)
      && r.logger.ops == l.logger.ops && r.logger.context == l.logger.context + [item])
    ensures l.Configured? ==> (r.Concrete? && fresh(r.logger)
      && r.logger.ops == l.configured.impl.ops && r.logger.context == l.configured.impl.context + [item])
    ensures l.Other? ==> r.Other? && fresh(r.other) && r.other.enabled == l.other.enabled
    ensures forall level :: IsEnabled(r, level) == IsEnabled(l, level)
  {
    match l
    case Concrete(x) =>
      var y := new Logger(x.ops, x.context + [item]);
      r := Concrete(y);
    case Configured(c) =>
      var y := new Logger(c.impl.ops, c.impl.context + [item]);
      r := Concrete(y);
    case Other(o) =>
      var y := new OtherLogger(o.enabled, o.disposable);
      r := Other(y);
  }

  /** `(logger as IDisposable)?.Dispose()`. */
  method DisposeLogger(l: ILogger)
    modifies Resources(l)
    ensures l.Concrete? ==> l.logger.disposals == old(l.logger.disposals) + 1
    ensures l.Other? ==> l.other.disposals == old(l.other.disposals) + (if l.other.disposable then 1 else 0)
    ensures l.Configured? ==> l.configured.Disposed(old(l.configured.isDisposedFlag),
                                                   old(l.configured.impl.disposals),
                                                   old(l.configured.log.logger))
  {
    match l
    case Concrete(x) =>
      x.disposals := x.disposals + 1;
    case Configured(c) =>
      c.Dispose();
    case Other(o) =>
      if o.disposable {
        o.disposals := o.disposals + 1;
      }
  }

  /** One write as an ILogger receives it: which overload, the level, the
      exception, the message template and the property values. */
  datatype Overload = NoProperties | Properties(arity: nat) | ParamsArray
  datatype Write = Write(overload: Overload, level: Level, exception: Option<Exception>,
                         template: string, args: seq<Value>)

  /** A log event as the pipeline sees it; which overload carried it does not
      show. */
  datatype LogEvent = LogEvent(level: Level, exception: Option<Exception>, template: string, args: seq<Value>)

  /** The events a write to `l` puts into the pipeline: one when `l` is enabled
      for the level, none otherwise. */
  function Emitted(l: ILogger, w: Write): (r: seq<LogEvent>)
    ensures |r| <= 1
    ensures r != [] <==> IsEnabled(l, w.level)
    ensures r != [] ==> r[0] == LogEvent(w.level, w.exception, w.template, w.args)
  {
    if IsEnabled(l, w.level) then [LogEvent(w.level, w.exception, w.template, w.args)] else []
  }

  /** The static Serilog.Log: the global logger slot and the silent logger
      it starts with and falls back to. */
  class GlobalLog {
    const none: OtherLogger
    var logger: ILogger

    constructor()
      ensures fresh(none) && none.enabled == {} && !none.disposable
      ensures logger == Other(none)
    {
      var silent := new OtherLogger({}, false);
      none := silent;
      logger := Other(silent);
    }

    /** The Log.Logger setter. */
    method SetLogger(l: ILogger)
      modifies this
      ensures logger == l
    {
      logger := l;
    }

    /** Log.CloseAndFlush: the slot goes back to the silent logger and the
        logger it held is disposed. A ConfiguredLogger disposed for the first
        time writes the logger it replaced back into its slot, so when that
        slot is this one the global logger ends as the replaced logger, not
        the silent one. */
    method CloseAndFlush() returns (closed: ILogger)
      modifies this, Resources(logger)
      ensures closed == old(logger)
      ensures closed.Concrete? ==> (logger == Other(none)
        && closed.logger.disposals == old(closed.logger.disposals) + 1)
      ensures closed.Other? ==> (logger == Other(none)
        && closed.other.disposals == old(closed.other.disposals) + (if closed.other.disposable then 1 else 0))
      ensures closed.Configured? ==>
        closed.configured.Disposed(old(closed.configured.isDisposedFlag), old(closed.configured.impl.disposals),
                                   if closed.configured.log == this then Other(none)
                                   else old(closed.configured.log.logger))
      ensures closed.Configured? && closed.configured.log == this ==>
        logger == (if old(closed.configured.isDisposedFlag) == 0 then closed.configured.overriden else Other(none))
      ensures closed.Configured? && closed.configured.log != this ==> logger == Other(none)
    {
      closed := logger;
      logger := Other(none);
      DisposeLogger(closed);
    }
  }

  /** ConfiguredLogger: the logger built from configuration (`impl`), the
      global logger it replaced (`overriden`), the Log slot it swapped, and the
      flag that makes Dispose act once. */
  class ConfiguredLogger {
    const impl: Logger
    const overriden: ILogger
    const log: GlobalLog
    var isDisposedFlag: int

    /** The swap `(overriden, Log.Logger) = (Log.Logger, impl)`. */
    constructor(impl: Logger, log: GlobalLog)
      modifies log
      ensures this.impl == impl && this.log == log
      ensures overriden == old(log.logger) && log.logger == Concrete(impl)
      ensures isDisposedFlag == 0
    {
      this.impl := impl;
      this.log := log;
      overriden := log.logger;
      isDisposedFlag := 0;
      new;
      log.logger := Concrete(impl);
    }

    /** The state after Dispose, given the flag, the disposal count of `impl`
        and the global logger before it. */
    ghost predicate Disposed(flag: int, implDisposals: nat, global: ILogger)
      reads this, impl, log
    {
      if flag == 0 then
        isDisposedFlag == 1 && log.logger == overriden && impl.disposals == implDisposals + 1
      else
        isDisposedFlag == flag && log.logger == global && impl.disposals == implDisposals
    }

    /** The first call (the flag goes from 0 to 1) restores the replaced
        global logger and disposes `impl`; every later call does nothing. */
    method Dispose()
      modifies this, log, impl
      ensures Disposed(old(isDisposedFlag), old(impl.disposals), old(log.logger))
    {
      if isDisposedFlag == 0 {
        isDisposedFlag := 1;
        log.logger := overriden;
        impl.disposals := impl.disposals + 1;
      }
    }
  }
}
