/** CrashLoggerOptions: when the crash guard writes to the console and to a
    file, and where crash files go; the two published defaults. */
module CrashLoggerOptions {
  import opened Wrappers
  import opened Primitives

  /** CrashLogWriteCondition. An enum is an Int32 underneath, so a cast can
      give a value outside the named members. */
  type WriteCondition = Int32

  const Never: WriteCondition := 0
  const Always: WriteCondition := 1
  const IfGlobalLoggerMissed: WriteCondition := 2

  /** One of the three named members. */
  predicate IsDefined(c: WriteCondition) {
    c == Never || c == Always || c == IfGlobalLoggerMissed
  }

  datatype Options = Options(writeToConsole: WriteCondition, writeToFile: WriteCondition,
                             crashLogRootPath: Option<string>)
  {
    /** The root directory must exist only when a file may be written. */
    predicate NeedsRootPath() {
      writeToFile != Never
    }
  }

  /** `new CrashLoggerOptions()`: enum fields at their default member, Never,
      and no root path. */
  const Unset: Options := Options(Never, Never, None)

  /** Version2, the current default: console when the global logger missed,
      file always, under `<base directory>/logs/crashes`. */
  function Version2(baseDirectory: string, platform: PathPlatform): Options {
    Unset.(writeToConsole := IfGlobalLoggerMissed, writeToFile := Always,
           crashLogRootPath := Some(platform.combine(baseDirectory, "logs/crashes")))
  }

  /** Version1, the default of the 1.x releases: file when the global logger
      missed, under "logs/critical"; the console condition is left at Never. */
  function Version1(): Options {
    Unset.(writeToFile := IfGlobalLoggerMissed, crashLogRootPath := Some("logs/critical"))
  }

  /** Both defaults use named conditions and carry a root path, which both
      need since both may write a file. */
  lemma DefaultsAreConsistent(baseDirectory: string, platform: PathPlatform)
    ensures var v2 := Version2(baseDirectory, platform);
      && IsDefined(v2.writeToConsole) && IsDefined(v2.writeToFile)
      && v2.NeedsRootPath() && v2.crashLogRootPath.Some?
      && v2.writeToConsole == IfGlobalLoggerMissed && v2.writeToFile == Always
    ensures var v1 := Version1();
      && IsDefined(v1.writeToConsole) && IsDefined(v1.writeToFile)
      && v1.NeedsRootPath() && v1.crashLogRootPath == Some("logs/critical")
      && v1.writeToConsole == Never && v1.writeToFile == IfGlobalLoggerMissed
  {
  }
}
