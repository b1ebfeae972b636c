/** CrashLogger: the last-resort handler for unhandled exceptions. Every
    crash goes to the global logger as a Fatal record; depending on the
    options, and on whether the global logger accepted the record, the same
    record also goes to an emergency logger writing to the console and a
    crash file. */
module CrashLogger {
  import opened Wrappers
  import opened Primitives
  import opened Errors
  import opened DateTimes
  import opened Serilog
  import opened CrashLoggerOptions
  import CF = CompositeFormat

  // ---------------------------------------------------------------------------
  // Worker.EncodeToUseInPath

  /** The characters a file name part must not contain: the platform's
      invalid path characters and both directory separators. */
  function InvalidNameChars(platform: PathPlatform): seq<char> {
    platform.invalidPathChars + [platform.pathSeparator, platform.altDirectorySeparatorChar]
  }

  function EncodeChar(c: char, invalidChars: seq<char>): char {
    if c in invalidChars then '-' else c
  }

  /** `name` with every invalid character replaced by '-'. */
  function Encoded(name: string, invalidChars: seq<char>): (s: string)
    ensures |s| == |name|
  {
    seq(|name|, k requires 0 <= k < |name| => EncodeChar(name[k], invalidChars))
  }

  /** The encoding keeps the length, replaces exactly the invalid characters,
      leaves none behind when '-' is itself allowed, and changes nothing on a
      second pass. */
  lemma EncodedIsSafe(name: string, invalidChars: seq<char>)
    requires '-' !in invalidChars
    ensures forall i :: 0 <= i < |name| ==> Encoded(name, invalidChars)[i] !in invalidChars
    ensures forall i :: 0 <= i < |name| ==> (Encoded(name, invalidChars)[i] == name[i] <==> name[i] !in invalidChars)
    ensures Encoded(Encoded(name, invalidChars), invalidChars) == Encoded(name, invalidChars)
  {
  }

  /** EncodeToUseInPath: each character of a copy of the name is compared with
      the invalid characters in turn and becomes '-' at the first match. */
  method EncodeToUseInPath(name: string, platform: PathPlatform) returns (encodedName: string)
    ensures encodedName == Encoded(name, InvalidNameChars(platform))
  {
    var invalidChars := InvalidNameChars(platform);
    var encoded := new char[|name|](k requires 0 <= k < |name| => name[k]);
    for i := 0 to encoded.Length
      invariant forall k :: 0 <= k < i ==> encoded[k] == EncodeChar(name[k], invalidChars)
      invariant forall k :: i <= k < encoded.Length ==> encoded[k] == name[k]
    {
      var j := 0;
      while j < |invalidChars|
        invariant 0 <= j <= |invalidChars|
        invariant encoded[i] == name[i]
        invariant forall k :: 0 <= k < j ==> invalidChars[k] != name[i]
        invariant forall k :: 0 <= k < i ==> encoded[k] == EncodeChar(name[k], invalidChars)
        invariant forall k :: i < k < encoded.Length ==> encoded[k] == name[k]
      {
        if encoded[i] == invalidChars[j] {
          encoded[i] := '-';
          break;
        }
        j := j + 1;
      }
    }
    encodedName := encoded[..];
    assert forall k :: 0 <= k < |name| ==> encodedName[k] == Encoded(name, invalidChars)[k];
  }

  // ---------------------------------------------------------------------------
  // Worker.CreateCrashLoggerIfRequired: the decision

  /** What a write condition means for one crash. */
  function ConditionHolds(c: WriteCondition, missedGlobalLogger: bool): (r: bool)
    requires IsDefined(c)
    ensures r <==> c == Always || (c == IfGlobalLoggerMissed && missedGlobalLogger)
  {
    if c == Always then true
    else if c == IfGlobalLoggerMissed then missedGlobalLogger
    else false
  }

  /** The test `!(writeToConsole & writeToFile)`: an emergency logger is built
      only when both outputs are wanted. */
  predicate ShouldCreate(options: Options, missedGlobalLogger: bool)
    requires IsDefined(options.writeToConsole) && IsDefined(options.writeToFile)
  {
    ConditionHolds(options.writeToConsole, missedGlobalLogger) && ConditionHolds(options.writeToFile, missedGlobalLogger)
  }

  /** With Version2, an emergency logger exists exactly when the global logger
      missed the record; with Version1, whose console condition is Never,
      there is never one. */
  lemma DefaultsDecide(baseDirectory: string, platform: PathPlatform, missedGlobalLogger: bool)
    ensures ShouldCreate(Version2(baseDirectory, platform), missedGlobalLogger) == missedGlobalLogger
    ensures !ShouldCreate(Version1(), missedGlobalLogger)
  {
  }

  /** Neither output alone is enough; and no Never condition ever gives an
      emergency logger. */
  lemma ShouldCreateNeedsBoth(options: Options, missedGlobalLogger: bool)
    requires IsDefined(options.writeToConsole) && IsDefined(options.writeToFile)
    ensures ShouldCreate(options, missedGlobalLogger) <==>
      (options.writeToConsole == Always || (options.writeToConsole == IfGlobalLoggerMissed && missedGlobalLogger))
      && (options.writeToFile == Always || (options.writeToFile == IfGlobalLoggerMissed && missedGlobalLogger))
    ensures options.writeToConsole == Never || options.writeToFile == Never ==> !ShouldCreate(options, missedGlobalLogger)
  {
  }

  /** As written, Version1 loses a crash the global logger misses: the
      global logger emits nothing, and with the console at Never no
      emergency logger, not even the file-only one Version1 asks for. */
  lemma Version1CrashIsLostAsWritten(global: ILogger, w: Write)
    requires w.level == Fatal && !IsEnabled(global, Fatal)
    ensures Emitted(global, w) == []
    ensures Version1().writeToFile == IfGlobalLoggerMissed
    ensures !ShouldCreate(Version1(), !IsEnabled(global, Fatal))
  {
  }

  /** The test as evidently intended, `!(writeToConsole | writeToFile)`: an
      emergency logger is built when either output is wanted, and the inner
      tests then choose its sinks. */
  predicate ShouldCreateIntended(options: Options, missedGlobalLogger: bool)
    requires IsDefined(options.writeToConsole) && IsDefined(options.writeToFile)
  {
    ConditionHolds(options.writeToConsole, missedGlobalLogger) || ConditionHolds(options.writeToFile, missedGlobalLogger)
  }

  /** The sinks of the intended emergency logger: the console when it is
      wanted, then the crash file when it is wanted. */
  function IntendedCrashOps(options: Options, missedGlobalLogger: bool, rootPath: string, fileName: string,
                            platform: PathPlatform): (ops: seq<Op>)
    requires IsDefined(options.writeToConsole) && IsDefined(options.writeToFile)
    ensures ConsoleSink(OutputTemplate, ThemeName) in ops <==> ConditionHolds(options.writeToConsole, missedGlobalLogger)
    ensures PlainFileSink(platform.combine(rootPath, fileName), OutputTemplate) in ops
            <==> ConditionHolds(options.writeToFile, missedGlobalLogger)
    ensures ops != [] <==> ShouldCreateIntended(options, missedGlobalLogger)
    ensures ShouldCreate(options, missedGlobalLogger) ==> ops == CrashOps(rootPath, fileName, platform)
  {
    (if ConditionHolds(options.writeToConsole, missedGlobalLogger) then [ConsoleSink(OutputTemplate, ThemeName)] else [])
    + (if ConditionHolds(options.writeToFile, missedGlobalLogger)
       then [PlainFileSink(platform.combine(rootPath, fileName), OutputTemplate)] else [])
  }

  /** As intended, any condition other than Never keeps every crash: the
      global logger or an emergency logger records it; in particular
      Version1 writes its crash file whenever the global logger misses. The
      intended test differs from the written one exactly when one output is
      wanted and the other is not. */
  lemma CrashIsAlwaysRecordedIntended(options: Options, global: ILogger, w: Write)
    requires IsDefined(options.writeToConsole) && IsDefined(options.writeToFile)
    requires options.writeToConsole != Never || options.writeToFile != Never
    requires w.level == Fatal
    ensures Emitted(global, w) != [] || ShouldCreateIntended(options, !IsEnabled(global, Fatal))
    ensures ShouldCreateIntended(Version1(), !IsEnabled(global, Fatal)) == !IsEnabled(global, Fatal)
    ensures ShouldCreateIntended(options, !IsEnabled(global, Fatal)) != ShouldCreate(options, !IsEnabled(global, Fatal))
      <==> ConditionHolds(options.writeToConsole, !IsEnabled(global, Fatal))
           != ConditionHolds(options.writeToFile, !IsEnabled(global, Fatal))
  {
  }

  // ---------------------------------------------------------------------------
  // The crash file name

  const OutputTemplate: string := "[[CRASH]] {Message:lj}{NewLine}{Exception}{NewLine}"
  const ThemeName: string := "CrashLogConsoleTheme"
  const FileNameSuffix: string := "_{0}_{1}.log"

  /** The cached template as the source builds it: the encoded application
      name, unescaped, in front of the format items. */
  function TemplateAsWritten(appName: string, platform: PathPlatform): string {
    Encoded(appName, InvalidNameChars(platform)) + FileNameSuffix
  }

  /** The file name as the source formats it: the "hh" stamp, through the
      unescaped template. */
  function CrashFileNameAsWritten(template: string, logName: string, raisedAt: DateTimeOffset): Result<string, Error> {
    CF.Format(template, [logName, FormatCrashStampAsWritten(raisedAt.utcDateTime)])
  }

  /** The cached template with the braces of the application name escaped. */
  function Template(appName: string, platform: PathPlatform): string {
    CF.Escape(Encoded(appName, InvalidNameChars(platform))) + FileNameSuffix
  }

  /** The file name with the 24-hour stamp. */
  function CrashFileName(template: string, logName: string, raisedAt: DateTimeOffset): Result<string, Error> {
    CF.Format(template, [logName, DateTimes.Format(raisedAt.utcDateTime)])
  }

  /** The suffix formats to "_<logName>_<stamp>.log". */
  lemma FormatSuffix(logName: string, stamp: string)
    ensures CF.Format(FileNameSuffix, [logName, stamp]) == Success("_" + (logName + ("_" + (stamp + ".log"))))
  {
    SuffixParts();
    CF.FormatTwoItems("_", "_", ".log", logName, stamp);
  }

  lemma SuffixParts()
    ensures FileNameSuffix == "_" + ("{0}" + ("_" + ("{1}" + ".log")))
  {
  }

  /** The intended name: the encoded application name, the log name and the
      24-hour stamp of the raise, whatever characters the name holds. */
  lemma CrashFileNameIsIntended(appName: string, platform: PathPlatform, logName: string, raisedAt: DateTimeOffset)
    ensures CrashFileName(Template(appName, platform), logName, raisedAt)
      == Success(Encoded(appName, InvalidNameChars(platform)) + "_" + logName + "_"
                 + DateTimes.Format(raisedAt.utcDateTime) + ".log")
  {
    var name, stamp := Encoded(appName, InvalidNameChars(platform)), DateTimes.Format(raisedAt.utcDateTime);
    EscapedTemplateFormats(name, logName, stamp);
    FileNameJoin(name, logName, stamp);
  }

  /** An escaped name in front of the suffix comes out unchanged, followed by
      the log name and the stamp. */
  lemma EscapedTemplateFormats(name: string, logName: string, stamp: string)
    ensures CF.Format(CF.Escape(name) + FileNameSuffix, [logName, stamp])
      == Success(name + ("_" + (logName + ("_" + (stamp + ".log")))))
  {
    FormatSuffix(logName, stamp);
    CF.EscapedPrefixFormats(name, FileNameSuffix, [logName, stamp], "_" + (logName + ("_" + (stamp + ".log"))));
  }

  lemma FileNameJoin(name: string, logName: string, stamp: string)
    ensures name + ("_" + (logName + ("_" + (stamp + ".log")))) == name + "_" + logName + "_" + stamp + ".log"
  {
  }

  /** Crashes at different instants get different files. */
  lemma CrashFileNamesDiffer(appName: string, platform: PathPlatform, logName: string,
                             a: DateTimeOffset, b: DateTimeOffset)
    requires a.utcDateTime.Valid() && b.utcDateTime.Valid() && a.utcDateTime != b.utcDateTime
    ensures CrashFileName(Template(appName, platform), logName, a) != CrashFileName(Template(appName, platform), logName, b)
  {
    CrashFileNameIsIntended(appName, platform, logName, a);
    CrashFileNameIsIntended(appName, platform, logName, b);
    var prefix := Encoded(appName, InvalidNameChars(platform)) + "_" + logName + "_";
    var s, t := DateTimes.Format(a.utcDateTime), DateTimes.Format(b.utcDateTime);
    if prefix + s + ".log" == prefix + t + ".log" {
      assert (prefix + s + ".log")[|prefix|..|prefix| + 21] == s;
      assert (prefix + t + ".log")[|prefix|..|prefix| + 21] == t;
      FormatInjective(a.utcDateTime, b.utcDateTime);
    }
  }

  /** As written, an application name holding '{' makes the file name a
      format error. */
  lemma BraceInAppNameAsWrittenFails(platform: PathPlatform, logName: string, raisedAt: DateTimeOffset)
    requires '{' !in InvalidNameChars(platform)
    ensures CrashFileNameAsWritten(TemplateAsWritten("{", platform), logName, raisedAt) == Failure(FormatFailure)
  {
    var t := TemplateAsWritten("{", platform);
    assert Encoded("{", InvalidNameChars(platform)) == "{";
    assert t == "{_{0}_{1}.log";
    assert CF.LeadingDigits(t[1..]) == 0;
  }

  /** As written, two crashes twelve hours apart on one day share a file. */
  lemma TwelveHoursApartAsWrittenCollide(appName: string, platform: PathPlatform, logName: string)
    ensures var morning := DateTimeOffset(DateTime(2021, 3, 14, 1, 0, 0, 0), 0);
            var afternoon := DateTimeOffset(DateTime(2021, 3, 14, 13, 0, 0, 0), 0);
            && morning.utcDateTime.Valid() && afternoon.utcDateTime.Valid() && morning != afternoon
            && CrashFileNameAsWritten(TemplateAsWritten(appName, platform), logName, morning)
               == CrashFileNameAsWritten(TemplateAsWritten(appName, platform), logName, afternoon)
  {
    CrashStampAsWrittenCollides();
  }

  /** As written, an application name without braces still gives the
      expected name, with the 12-hour stamp: the encoded application name,
      the log name and the "hh" stamp of the raise. */
  lemma CrashFileNameAsWrittenForPlainName(appName: string, platform: PathPlatform, logName: string,
                                           raisedAt: DateTimeOffset)
    requires CF.HasNoBraces(Encoded(appName, InvalidNameChars(platform)))
    ensures CrashFileNameAsWritten(TemplateAsWritten(appName, platform), logName, raisedAt)
      == Success(Encoded(appName, InvalidNameChars(platform)) + "_" + logName + "_"
                 + FormatCrashStampAsWritten(raisedAt.utcDateTime) + ".log")
  {
    var name, stamp := Encoded(appName, InvalidNameChars(platform)), FormatCrashStampAsWritten(raisedAt.utcDateTime);
    assert CF.Escape(name) == name;
    EscapedTemplateFormats(name, logName, stamp);
    FileNameJoin(name, logName, stamp);
  }

  // ---------------------------------------------------------------------------
  // ValidatePath and ValidateWriteCondition

  /** ValidatePath as written: both errors name the parameter "path", not the
      argument name the caller passes. */
  function ValidatePathAsWritten(path: Option<string>, argName: string, platform: PathPlatform): Option<Error> {
    if IsNullOrEmpty(path) then Some(PathNullOrEmpty("path"))
    else
      match IndexOfAny(path.value, platform.invalidPathChars)
      case Some(i) => Some(PathInvalidChar(path.value, path.value[i], i, "path"))
      case None => None
  }

  /** As written, Activate("") reports "path" where its parameter is
      "crashLogRootPath". */
  lemma ValidatePathAsWrittenNamesWrongParameter(platform: PathPlatform)
    ensures ValidatePathAsWritten(Some(""), "crashLogRootPath", platform).Some?
    ensures ValidatePathAsWritten(Some(""), "crashLogRootPath", platform).value.ParamName() != Some("crashLogRootPath")
  {
  }

  /** ValidatePath: a null or empty path, or one with an invalid character
      (the first is reported), each against the caller's argument name. */
  function ValidatePath(path: Option<string>, argName: string, platform: PathPlatform): (r: Option<Error>)
    ensures r.None? <==> !IsNullOrEmpty(path) && forall i :: 0 <= i < |path.value| ==> path.value[i] !in platform.invalidPathChars
    ensures IsNullOrEmpty(path) ==> r == Some(PathNullOrEmpty(argName))
    ensures r.Some? && !IsNullOrEmpty(path) ==> (r.value.PathInvalidChar? && r.value.path == path.value
      && r.value.index < |path.value| && r.value.invalidChar == path.value[r.value.index]
      && r.value.invalidChar in platform.invalidPathChars
      && forall j :: 0 <= j < r.value.index ==> path.value[j] !in platform.invalidPathChars)
    ensures r.Some? ==> r.value.ParamName() == Some(argName) && r.value.ExceptionType() == "ArgumentException"
  {
    if IsNullOrEmpty(path) then Some(PathNullOrEmpty(argName))
    else
      match IndexOfAny(path.value, platform.invalidPathChars)
      case Some(i) => Some(PathInvalidChar(path.value, path.value[i], i, argName))
      case None => None
  }

  /** The two forms accept the same paths and differ only in the parameter
      name they report. */
  lemma ValidatePathDiffersOnlyInName(path: Option<string>, argName: string, platform: PathPlatform)
    ensures ValidatePathAsWritten(path, argName, platform).None? == ValidatePath(path, argName, platform).None?
    ensures ValidatePathAsWritten(path, argName, platform) == ValidatePath(path, "path", platform)
  {
  }

  /** ValidateWriteCondition: only the three named members pass. */
  function ValidateWriteCondition(c: WriteCondition, argName: string): (r: Option<Error>)
    ensures r.None? <==> IsDefined(c)
    ensures r.Some? ==> r.value == WriteConditionNotValid(c, argName)
  {
    if c == Never || c == Always || c == IfGlobalLoggerMissed then None
    else Some(WriteConditionNotValid(c, argName))
  }

  /** What Activate(options) checks, in order: the console condition, the
      file condition, and the root path when a file may be written. As
      written, a path error names the parameter "path". */
  function ValidateOptions(options: Options, platform: PathPlatform): (r: Option<Error>)
    ensures r.None? <==>
      && IsDefined(options.writeToConsole) && IsDefined(options.writeToFile)
      && (options.NeedsRootPath() ==> ValidatePath(options.crashLogRootPath, "path", platform).None?)
    ensures !IsDefined(options.writeToConsole) ==>
      r == Some(WriteConditionNotValid(options.writeToConsole, "options.writeToConsole"))
    ensures IsDefined(options.writeToConsole) && !IsDefined(options.writeToFile) ==>
      r == Some(WriteConditionNotValid(options.writeToFile, "options.writeToFile"))
    ensures IsDefined(options.writeToConsole) && IsDefined(options.writeToFile) && options.NeedsRootPath() ==>
      r == ValidatePath(options.crashLogRootPath, "path", platform)
    ensures !options.NeedsRootPath() && IsDefined(options.writeToConsole) ==> r.None?
  {
    var console := ValidateWriteCondition(options.writeToConsole, "options.writeToConsole");
    if console.Some? then console
    else
      var file := ValidateWriteCondition(options.writeToFile, "options.writeToFile");
      if file.Some? then file
      else if options.writeToFile != Never then
        ValidatePathDiffersOnlyInName(options.crashLogRootPath, "options.crashLogRootPath", platform);
        ValidatePathAsWritten(options.crashLogRootPath, "options.crashLogRootPath", platform)
      else None
  }

  // ---------------------------------------------------------------------------
  // OnCrash

  const FirstLog: string := "Unhandled exception raised at {RaiseTimestamp}."
  const NextLog: string := FirstLog + " Previous raise was at {PreviousRaiseTimestamp}."

  /** The Fatal write OnCrash makes: the one-clause message with the raise
      time, or, after an earlier crash, the two-clause message with both
      times. */
  function CrashWrite(exception: Exception, previous: Option<DateTimeOffset>, now: DateTimeOffset): (w: Write)
    ensures w.level == Fatal && w.exception == Some(exception) && w.overload == ParamsArray
    ensures previous.None? ==> w.template == FirstLog && w.args == [Stamp(now)]
    ensures previous.Some? ==> w.template == NextLog && w.args == [Stamp(now), Stamp(previous.value)]
  {
    match previous
    case None => Write(ParamsArray, Fatal, Some(exception), FirstLog, [Stamp(now)])
    case Some(p) => Write(ParamsArray, Fatal, Some(exception), NextLog, [Stamp(now), Stamp(p)])
  }

  /** The steps of an emergency logger: the console sink, then the crash
      file under the root path. */
  function CrashOps(rootPath: string, fileName: string, platform: PathPlatform): seq<Op> {
    [ConsoleSink(OutputTemplate, ThemeName), PlainFileSink(platform.combine(rootPath, fileName), OutputTemplate)]
  }

  /** The emergency logger writes every Fatal record it is given. */
  lemma CrashLoggerAcceptsFatal(rootPath: string, fileName: string, platform: PathPlatform)
    ensures MinimumOf(CrashOps(rootPath, fileName, platform)) == Information
    ensures Fatal.Rank() >= MinimumOf(CrashOps(rootPath, fileName, platform)).Rank()
  {
    var ops := CrashOps(rootPath, fileName, platform);
    assert ops[..1][..0] == [];
    assert ops[..|ops| - 1] == ops[..1];
  }

  /** The static Worker: its options, the cached file-name template, the
      previous raise time and the global Log it writes to. */
  class Worker {
    const appName: string           // AppDomain.FriendlyName
    const platform: PathPlatform
    const log: GlobalLog
    var options: Options
    var logFileNameTemplate: Option<string>
    var previousRaiseTimestamp: Option<DateTimeOffset>

    /** The options hold named conditions and a root path wherever one is
        needed (Activate admits no other), and the cache, once filled, holds
        this application's template as the source builds it. */
    predicate Valid()
      reads this
    {
      && IsDefined(options.writeToConsole) && IsDefined(options.writeToFile)
      && (options.NeedsRootPath() ==> options.crashLogRootPath.Some?)
      && (logFileNameTemplate.Some? ==> logFileNameTemplate.value == TemplateAsWritten(appName, platform))
    }

    /** The static constructor: Version2 options, nothing cached, no crash
        seen. The event subscriptions are not modelled. */
    constructor(appName: string, baseDirectory: string, platform: PathPlatform, log: GlobalLog)
      ensures this.appName == appName && this.platform == platform && this.log == log
      ensures options == Version2(baseDirectory, platform)
      ensures logFileNameTemplate.None? && previousRaiseTimestamp.None?
      ensures Valid()
    {
      this.appName := appName;
      this.platform := platform;
      this.log := log;
      options := Version2(baseDirectory, platform);
      logFileNameTemplate := None;
      previousRaiseTimestamp := None;
    }

    /** `logFileNameTemplate ??= ...`: the unescaped template is built on
        first use and reused after. */
    method GetLogFileNameTemplate() returns (template: string)
      requires Valid()
      modifies this
      ensures Valid()
      ensures template == TemplateAsWritten(appName, platform) && logFileNameTemplate == Some(template)
      ensures options == old(options) && previousRaiseTimestamp == old(previousRaiseTimestamp)
    {
      if logFileNameTemplate.None? {
        var encoded := EncodeToUseInPath(appName, platform);
        logFileNameTemplate := Some(encoded + FileNameSuffix);
      }
      template := logFileNameTemplate.value;
    }

    /** CreateCrashLoggerIfRequired: nothing unless both outputs are wanted;
        otherwise the template is cached and the file name formatted, which
        fails as String.Format throws; on success a fresh logger with the
        console sink and the crash file. */
    method CreateCrashLoggerIfRequired(logName: string, raisedAt: DateTimeOffset, missedGlobalLogger: bool)
      returns (r: Result<Option<Logger>, Error>)
      requires Valid()
      modifies this
      ensures Valid()
      ensures options == old(options) && previousRaiseTimestamp == old(previousRaiseTimestamp)
      ensures !ShouldCreate(options, missedGlobalLogger) ==>
        r == Success(None) && logFileNameTemplate == old(logFileNameTemplate)
      ensures ShouldCreate(options, missedGlobalLogger) ==>
        var fileName := CrashFileNameAsWritten(TemplateAsWritten(appName, platform), logName, raisedAt);
        && logFileNameTemplate == Some(TemplateAsWritten(appName, platform))
        && (fileName.Failure? ==> r == Failure(fileName.error))
        && (fileName.Success? ==>
              r.Success? && r.value.Some? && fresh(r.value.value) && r.value.value.context == []
              && r.value.value.ops == CrashOps(options.crashLogRootPath.value, fileName.value, platform))
    {
      var writeToConsole := ConditionHolds(options.writeToConsole, missedGlobalLogger);
      var writeToFile := ConditionHolds(options.writeToFile, missedGlobalLogger);
      if !(writeToConsole && writeToFile) {
        return Success(None);
      }
      var loggerConf := new LoggerConfiguration();
      if writeToConsole {
        loggerConf.Apply([ConsoleSink(OutputTemplate, ThemeName)]);
      }
      if writeToFile {
        var template := GetLogFileNameTemplate();
        var fileName := CrashFileNameAsWritten(template, logName, raisedAt);
        if fileName.Failure? {
          return Failure(fileName.error);
        }
        loggerConf.Apply([PlainFileSink(platform.combine(options.crashLogRootPath.value, fileName.value), OutputTemplate)]);
      }
      var logger := loggerConf.CreateLogger();
      return Success(Some(logger));
    }

    /** OnCrash: the slot takes the raise time and yields the previous one;
        the global logger gets the Fatal record, and an emergency logger, if
        one is built for this crash, gets the same record. A file name that
        fails to format is the exception OnCrash ends with, after the global
        write. Returns the events each logger emits and that exception. */
    method OnCrash(logName: string, exception: Exception, now: DateTimeOffset)
      returns (globalEvents: seq<LogEvent>, crashEvents: seq<LogEvent>, failure: Option<Error>)
      requires Valid()
      modifies this
      ensures Valid()
      ensures previousRaiseTimestamp == Some(now) && options == old(options)
      ensures var w := CrashWrite(exception, old(previousRaiseTimestamp), now);
        var create := ShouldCreate(options, !IsEnabled(log.logger, Fatal));
        var fileName := CrashFileNameAsWritten(TemplateAsWritten(appName, platform), logName, now);
        && globalEvents == Emitted(log.logger, w)
        && (create && fileName.Success? ==>
             crashEvents == [LogEvent(Fatal, Some(exception), w.template, w.args)] && failure.None?)
        && (create && fileName.Failure? ==> crashEvents == [] && failure == Some(fileName.error))
        && (!create ==> crashEvents == [] && failure.None?)
    {
      var previous := previousRaiseTimestamp;
      previousRaiseTimestamp := Some(now);
      var w := CrashWrite(exception, previous, now);
      globalEvents := Emitted(log.logger, w);
      var missedGlobalLogger := !IsEnabled(log.logger, Fatal);
      var crashLogger := CreateCrashLoggerIfRequired(logName, now, missedGlobalLogger);
      crashEvents := [];
      failure := None;
      if crashLogger.Failure? {
        failure := Some(crashLogger.error);
      } else if crashLogger.value.Some? {
        var fileName := CrashFileNameAsWritten(TemplateAsWritten(appName, platform), logName, now).value;
        CrashLoggerAcceptsFatal(options.crashLogRootPath.value, fileName, platform);
        crashEvents := Emitted(Concrete(crashLogger.value.value), w);
      }
    }

    /** Activate(crashLogRootPath): after the path check, console when the
        global logger missed and file always, under that root. As written,
        a path error names the parameter "path". */
    method ActivateWithRootPath(crashLogRootPath: Option<string>) returns (error: Option<Error>)
      requires Valid()
      modifies this
      ensures Valid()
      ensures error == ValidatePath(crashLogRootPath, "path", platform)
      ensures error.Some? ==> options == old(options)
      ensures error.None? ==> options == Options(IfGlobalLoggerMissed, Always, crashLogRootPath)
      ensures logFileNameTemplate == old(logFileNameTemplate) && previousRaiseTimestamp == old(previousRaiseTimestamp)
    {
      ValidatePathDiffersOnlyInName(crashLogRootPath, "crashLogRootPath", platform);
      error := ValidatePathAsWritten(crashLogRootPath, "crashLogRootPath", platform);
      if error.None? {
        options := Options(IfGlobalLoggerMissed, Always, crashLogRootPath);
      }
    }

    /** Activate(options): a copy of the options is checked and, if it passes,
        stored. */
    method ActivateWithOptions(newOptions: Options) returns (error: Option<Error>)
      requires Valid()
      modifies this
      ensures Valid()
      ensures error == ValidateOptions(newOptions, platform)
      ensures error.Some? ==> options == old(options)
      ensures error.None? ==> options == newOptions
      ensures logFileNameTemplate == old(logFileNameTemplate) && previousRaiseTimestamp == old(previousRaiseTimestamp)
    {
      var theOptions := newOptions;
      error := ValidateOptions(theOptions, platform);
      if error.None? {
        options := theOptions;
      }
    }
  }

  /** When neither condition is Never, no crash is lost: the global logger
      or an emergency logger records it. */
  lemma CrashIsAlwaysRecorded(options: Options, global: ILogger, w: Write)
    requires IsDefined(options.writeToConsole) && IsDefined(options.writeToFile)
    requires options.writeToConsole != Never && options.writeToFile != Never
    requires w.level == Fatal
    ensures Emitted(global, w) != [] || ShouldCreate(options, !IsEnabled(global, Fatal))
  {
  }
}
