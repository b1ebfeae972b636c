/** The "file" profile: a file sink whose path comes from a template with
    `{app}` and `{launchutc}` tokens, checked for emptiness and invalid
    characters, resolved against the content root when relative, and bounded
    by a size limit and an optional retained-file count. */
module LogFileProfileApplier {
  import opened Wrappers
  import opened Primitives
  import opened DateTimes
  import opened Configuration
  import opened NumberSigns
  import opened Errors
  import opened Serilog
  import opened Appliers
  import opened ProfileConfiguration
  import Legacy = LegacyLoggingConfigurationFunctions
  import Reads = LoggingConfigurationFunctions

  /** LoggingAppEnvironment: the application name, the content root and the
      moment of launch. */
  datatype LoggingAppEnvironment = LoggingAppEnvironment(appName: string, contentRootPath: string,
                                                         launchTimestamp: DateTimeOffset)

  const ProfileTypeName: string := "file"
  const TypeName: string := "KorneiDontsov.Logging.LogFileProfileApplier"

  /** The size limit when `maxSize` is absent: one gibibyte. */
  const DefaultMaxSize: Int64 := 1073741824

  /** The Regex.Replace of `{(app|launchutc)}`, ignoring case: scanning from
      the left, each token is replaced and scanning resumes after it; every
      other character is kept. */
  function Substitute(s: string, app: string, stamp: string): string
    decreases |s|
  {
    if s == [] then []
    else if |s| >= 5 && Lower(s[..5]) == "{app}" then app + Substitute(s[5..], app, stamp)
    else if |s| >= 11 && Lower(s[..11]) == "{launchutc}" then stamp + Substitute(s[11..], app, stamp)
    else [s[0]] + Substitute(s[1..], app, stamp)
  }

  /** A character other than an opening brace is kept, and the scan moves
      on past it. */
  lemma SubstitutePlainHead(s: string, app: string, stamp: string)
    requires s != [] && s[0] != '{'
    ensures Substitute(s, app, stamp) == [s[0]] + Substitute(s[1..], app, stamp)
  {
    if |s| >= 5 {
      assert Lower(s[..5])[0] == LowerChar(s[0]);
    }
    if |s| >= 11 {
      assert Lower(s[..11])[0] == LowerChar(s[0]);
    }
  }

  /** Text without an opening brace is left as it is. */
  lemma {:induction false} SubstituteKeepsPlainText(s: string, app: string, stamp: string)
    requires forall i :: 0 <= i < |s| ==> s[i] != '{'
    ensures Substitute(s, app, stamp) == s
    decreases |s|
  {
    if s != [] {
      SubstitutePlainHead(s, app, stamp);
      SubstituteKeepsPlainText(s[1..], app, stamp);
    }
  }

  /** A token in any letter case at the front is replaced, and the scan goes
      on after it. */
  lemma SubstituteAtToken(token: string, rest: string, app: string, stamp: string)
    requires Lower(token) == "{app}" || Lower(token) == "{launchutc}"
    ensures Lower(token) == "{app}" ==> Substitute(token + rest, app, stamp) == app + Substitute(rest, app, stamp)
    ensures Lower(token) == "{launchutc}" ==> Substitute(token + rest, app, stamp) == stamp + Substitute(rest, app, stamp)
  {
    var s := token + rest;
    assert s[..|token|] == token;
    assert s[|token|..] == rest;
    if Lower(token) == "{launchutc}" {
      assert s[..5] == token[..5];
      assert Lower(token[..5])[1] == Lower(token)[1];
    }
  }

  /** Text without an opening brace before some text is kept, and the scan
      reaches that text unchanged. */
  lemma {:induction false} SubstituteAfterPlainText(prefix: string, s: string, app: string, stamp: string)
    requires forall i :: 0 <= i < |prefix| ==> prefix[i] != '{'
    ensures Substitute(prefix + s, app, stamp) == prefix + Substitute(s, app, stamp)
    decreases |prefix|
  {
    if prefix == [] {
      assert prefix + s == s;
    } else {
      var t := prefix + s;
      assert t[0] == prefix[0];
      SubstitutePlainHead(t, app, stamp);
      assert t[1..] == prefix[1..] + s;
      SubstituteAfterPlainText(prefix[1..], s, app, stamp);
      var rest := Substitute(s, app, stamp);
      assert [prefix[0]] + (prefix[1..] + rest) == prefix + rest;
    }
  }

  /** After text without an opening brace, a token in any letter case is
      replaced by the application name or by the launch stamp, and the
      scan goes on after it; all other text is kept. */
  lemma SubstituteReplacesTokens(prefix: string, token: string, rest: string, app: string, stamp: string)
    requires forall i :: 0 <= i < |prefix| ==> prefix[i] != '{'
    requires Lower(token) == "{app}" || Lower(token) == "{launchutc}"
    ensures Lower(token) == "{app}" ==>
      Substitute(prefix + token + rest, app, stamp) == prefix + app + Substitute(rest, app, stamp)
    ensures Lower(token) == "{launchutc}" ==>
      Substitute(prefix + token + rest, app, stamp) == prefix + stamp + Substitute(rest, app, stamp)
  {
    assert prefix + token + rest == prefix + (token + rest);
    SubstituteAfterPlainText(prefix, token + rest, app, stamp);
    SubstituteAtToken(token, rest, app, stamp);
  }

  /** The `{launchutc}` text: the launch moment in UTC as
      yyyy-MM-ddTHHmmss.fff. */
  function LaunchStamp(env: LoggingAppEnvironment): (s: string)
    ensures |s| == 21
  {
    Format(env.launchTimestamp.utcDateTime)
  }

  /** A rooted path is used as it is; a relative one is combined with the
      content root. */
  function FullPath(env: LoggingAppEnvironment, platform: PathPlatform, filePath: string): (r: string)
    ensures platform.isPathRooted(filePath) ==> r == filePath
    ensures !platform.isPathRooted(filePath) ==> r == platform.combine(env.contentRootPath, filePath)
  {
    if platform.isPathRooted(filePath) then filePath else platform.combine(env.contentRootPath, filePath)
  }

  /** The file sink Apply configures, wrapped for asynchronous writing unless
      the profile is synchronous. */
  function SyncOrAsync(isSync: bool, sink: Op): seq<Op> {
    if isSync then [sink] else [Async([sink])]
  }

  /** The one file sink a profile adds: with the profile's level and output
      template, a positive size limit it rolls on, and a positive retained-file
      limit if any. */
  predicate ConfiguredSink(sink: Op, conf: ProfileConfiguration) {
    && sink.FileSink?
    && sink.minLevel == conf.minLevel
    && Success(sink.outputTemplate) == conf.OutputTemplate()
    && sink.rollOnFileSizeLimit
    && sink.fileSizeLimitBytes > 0
    && (sink.retainedFileCountLimit.Some? ==> sink.retainedFileCountLimit.value > 0)
  }

  /** Apply: in this order, the `sync` flag, the output template, the `path`
      template (present, not blank), the substituted path (no invalid
      character), `maxSize` (positive, one gibibyte by default) and
      `retainedFileCountLimit` (positive when present); the first failing
      check is the error. */
  function Apply(env: LoggingAppEnvironment, platform: PathPlatform, conf: ProfileConfiguration)
    : (r: Result<seq<Op>, Error>)
    ensures r.Success? ==> |r.value| == 1 && (r.value[0].Async? ==> |r.value[0].inner| == 1)
    ensures r.Success? ==> (r.value[0].Async? <==> conf.GetSyncValue() == Success(false))
    ensures r.Success? ==> ConfiguredSink(if r.value[0].Async? then r.value[0].inner[0] else r.value[0], conf)
    ensures r.Success? ==>
      var sink := if r.value[0].Async? then r.value[0].inner[0] else r.value[0];
      var maxSize := Reads.ReadInt64(conf.profileConf, "maxSize", Positive, Some(DefaultMaxSize));
      var retained := Reads.ReadInt32IfExists(conf.profileConf, "retainedFileCountLimit", Positive);
      && conf.Item("path").Some?
      && sink.path == FullPath(env, platform, Substitute(conf.Item("path").value, env.appName, LaunchStamp(env)))
      && maxSize.Success? && sink.fileSizeLimitBytes == maxSize.value
      && retained.Success? && sink.retainedFileCountLimit == retained.value
  {
    var isSync :- conf.GetSyncValue();
    var outputTemplate :- conf.OutputTemplate();
    var template :- Legacy.ReadString(conf.profileConf, "path");
    if IsNullOrWhiteSpace(Some(template)) then Failure(FilePathEmpty(conf.Path()))
    else
      var filePath := Substitute(template, env.appName, LaunchStamp(env));
      match IndexOfAny(filePath, platform.invalidPathChars)
      case Some(i) => Failure(FilePathInvalid(conf.Path(), template, filePath, filePath[i], i))
      case None =>
        var fullPath := FullPath(env, platform, filePath);
        var maxSize :- Reads.ReadInt64(conf.profileConf, "maxSize", Positive, Some(DefaultMaxSize));
        var retained :- Reads.ReadInt32IfExists(conf.profileConf, "retainedFileCountLimit", Positive);
        Success(SyncOrAsync(isSync, FileSink(fullPath, conf.minLevel, outputTemplate, maxSize, true, retained)))
  }

  function AsApplier(env: LoggingAppEnvironment, platform: PathPlatform): (a: Applier<ProfileConfiguration>)
    ensures a.name == "file"
  {
    Applier(ProfileTypeName, TypeName, c => Apply(env, platform, c))
  }

  /** The checks that come before the path is read pass. */
  predicate SyncAndOutputValid(conf: ProfileConfiguration) {
    conf.GetSyncValue().Success? && conf.OutputTemplate().Success?
  }

  /** A missing `path` is reported as missing; a blank one as empty. */
  lemma PathMustBeGiven(env: LoggingAppEnvironment, platform: PathPlatform, conf: ProfileConfiguration)
    requires SyncAndOutputValid(conf)
    ensures conf.Item("path").None? ==> Apply(env, platform, conf) == Failure(MissedProp(conf.Path(), "path"))
    ensures conf.Item("path").Some? && IsNullOrWhiteSpace(conf.Item("path")) ==>
      Apply(env, platform, conf) == Failure(FilePathEmpty(conf.Path()))
  {
  }

  /** A substituted path with an invalid character is rejected, naming the
      first such character and its index. */
  lemma InvalidCharacterIsReported(env: LoggingAppEnvironment, platform: PathPlatform, conf: ProfileConfiguration, i: nat)
    requires SyncAndOutputValid(conf)
    requires conf.Item("path").Some? && !IsNullOrWhiteSpace(conf.Item("path"))
    requires var p := Substitute(conf.Item("path").value, env.appName, LaunchStamp(env));
      i < |p| && p[i] in platform.invalidPathChars && forall j :: 0 <= j < i ==> p[j] !in platform.invalidPathChars
    ensures var t := conf.Item("path").value;
      var p := Substitute(t, env.appName, LaunchStamp(env));
      Apply(env, platform, conf) == Failure(FilePathInvalid(conf.Path(), t, p, p[i], i))
  {
  }

  /** The path checks that come before the limits are read pass. */
  predicate PathValid(env: LoggingAppEnvironment, platform: PathPlatform, conf: ProfileConfiguration) {
    && SyncAndOutputValid(conf)
    && conf.Item("path").Some? && !IsNullOrWhiteSpace(conf.Item("path"))
    && IndexOfAny(Substitute(conf.Item("path").value, env.appName, LaunchStamp(env)), platform.invalidPathChars).None?
  }

  /** With both limits absent, the sink gets the full path, one gibibyte and
      no retained-file limit. */
  lemma DefaultLimits(env: LoggingAppEnvironment, platform: PathPlatform, conf: ProfileConfiguration)
    requires PathValid(env, platform, conf)
    requires conf.Item("maxSize").None? && conf.Item("retainedFileCountLimit").None?
    ensures var p := Substitute(conf.Item("path").value, env.appName, LaunchStamp(env));
      Apply(env, platform, conf)
      == Success(SyncOrAsync(conf.GetSyncValue().value,
                             FileSink(FullPath(env, platform, p), conf.minLevel, conf.OutputTemplate().value,
                                      1073741824, true, None)))
  {
  }

  /** Limits given as positive numbers reach the sink as they are, over the
      full path. */
  lemma ConfiguredLimits(env: LoggingAppEnvironment, platform: PathPlatform, conf: ProfileConfiguration,
                         n: Int64, m: Int32)
    requires PathValid(env, platform, conf)
    requires conf.Item("maxSize") == Some(FormatInteger(n)) && n > 0
    requires conf.Item("retainedFileCountLimit") == Some(FormatInteger(m)) && m > 0
    ensures var p := Substitute(conf.Item("path").value, env.appName, LaunchStamp(env));
      Apply(env, platform, conf)
      == Success(SyncOrAsync(conf.GetSyncValue().value,
                             FileSink(FullPath(env, platform, p), conf.minLevel, conf.OutputTemplate().value,
                                      n, true, Some(m))))
  {
    ParseFormatRoundTrip(n, Int64Min, Int64Max);
    ParseFormatRoundTrip(m, Int32Min, Int32Max);
  }

  /** A `maxSize` of zero or below is rejected as not positive; the
      retained-file limit is not looked at. */
  lemma MaxSizeMustBePositive(env: LoggingAppEnvironment, platform: PathPlatform, conf: ProfileConfiguration, n: Int64)
    requires PathValid(env, platform, conf)
    requires conf.Item("maxSize") == Some(FormatInteger(n)) && n <= 0
    ensures Apply(env, platform, conf) == Failure(NotMatchSign(conf.Path(), "maxSize", FormatInteger(n), Positive))
  {
    ParseFormatRoundTrip(n, Int64Min, Int64Max);
  }

  /** A retained-file limit of zero or below is rejected as not positive. */
  lemma RetainedLimitMustBePositive(env: LoggingAppEnvironment, platform: PathPlatform, conf: ProfileConfiguration, n: Int32)
    requires PathValid(env, platform, conf)
    requires conf.Item("maxSize").None?
    requires conf.Item("retainedFileCountLimit") == Some(FormatInteger(n)) && n <= 0
    ensures Apply(env, platform, conf)
      == Failure(NotMatchSign(conf.Path(), "retainedFileCountLimit", FormatInteger(n), Positive))
  {
    ParseFormatRoundTrip(n, Int32Min, Int32Max);
  }
}
