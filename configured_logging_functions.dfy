/** The newer pipeline builder: from a configuration section and three sets
    of appliers, a Serilog logger whose configuration holds, in this order,
    the attribute destructuring and log-context enrichment, the minimum
    levels, the profiles' sinks, the enrichments, the filters, and what the
    optional callback adds. Each stage builds its own registry just before
    it reads its section, and the first exception ends the build. */
module ConfiguredLoggingFunctions {
  import opened Wrappers
  import opened Primitives
  import opened Configuration
  import opened Errors
  import opened Serilog
  import opened Appliers
  import PC = ProfileConfiguration
  import Reads = LoggingConfigurationFunctions

  /** `.Destructure.UsingAttributes().Enrich.FromLogContext()`. */
  const InitialOps: seq<Op> := [DestructureUsingAttributes, EnrichFromLogContext]

  // ---------------------------------------------------------------------------
  // ConfigureMinLevels

  /** One child of `minLevels:overrides`: its key names the source, its value
      the level. */
  function OverrideStep(overrideConf: Section): (r: Result<seq<Op>, Error>)
    ensures IsNullOrWhiteSpace(Some(overrideConf.key)) ==> r == Failure(SourceNotSpecified(overrideConf.path))
    ensures r.Success? ==> exists level :: (r.value == [MinimumLevelOverride(overrideConf.key, level)]
        && Reads.ReadEnum(overrideConf, LevelMembers, None) == Success(level))
  {
    if IsNullOrWhiteSpace(Some(overrideConf.key)) then Failure(SourceNotSpecified(overrideConf.path))
    else
      var level :- Reads.ReadEnum(overrideConf, LevelMembers, None);
      Success([MinimumLevelOverride(overrideConf.key, level)])
  }

  function MinLevelsConf(conf: Section): Section {
    conf.GetSection("minLevels")
  }

  function Overrides(conf: Section): seq<Section> {
    MinLevelsConf(conf).GetSection("overrides").GetChildren()
  }

  /** `minLevels:default`, read as a level; Information when it is absent. */
  function DefaultMinLevel(conf: Section): Result<Level, Error> {
    Reads.ReadEnumProp(MinLevelsConf(conf), "default", LevelMembers, Some(Information))
  }

  /** What ConfigureMinLevels adds once the default level is read: that
      level, then one override per child of `minLevels:overrides`. */
  function MinLevelsRunOf(minLevel: Result<Level, Error>, overrides: seq<Section>): Run {
    match minLevel
    case Failure(e) => Run([], Some(e))
    case Success(level) => Run([MinimumLevelIs(level)], None).Then(Fold(overrides, OverrideStep))
  }

  /** What ConfigureMinLevels adds. */
  function MinLevelsRun(conf: Section): Run {
    MinLevelsRunOf(DefaultMinLevel(conf), Overrides(conf))
  }

  method ApplyMinLevels(loggerConf: LoggerConfiguration, minLevel: Result<Level, Error>, overrides: seq<Section>)
    returns (failure: Option<Error>)
    modifies loggerConf
    ensures loggerConf.ops == old(loggerConf.ops) + MinLevelsRunOf(minLevel, overrides).ops
    ensures failure == MinLevelsRunOf(minLevel, overrides).failure
  {
    if minLevel.Failure? {
      return Some(minLevel.error);
    }
    loggerConf.Apply([MinimumLevelIs(minLevel.value)]);
    failure := ApplyAll(loggerConf, overrides, OverrideStep);
  }

  method ConfigureMinLevels(loggerConf: LoggerConfiguration, conf: Section) returns (failure: Option<Error>)
    modifies loggerConf
    ensures loggerConf.ops == old(loggerConf.ops) + MinLevelsRun(conf).ops
    ensures failure == MinLevelsRun(conf).failure
  {
    var minLevel := DefaultMinLevel(conf);
    failure := ApplyMinLevels(loggerConf, minLevel, Overrides(conf));
  }

  /** Without a `minLevels` section, the minimum level is Information and no
      source is overridden. */
  lemma MinLevelsDefault(conf: Section)
    requires MinLevelsConf(conf).Item("default").None? && Overrides(conf) == []
    ensures MinLevelsRun(conf) == Run([MinimumLevelIs(Information)], None)
  {
  }

  /** An override whose key is blank stops the build with an error naming its
      path, after the overrides before it. */
  lemma BlankOverrideSourceFails(conf: Section, k: nat)
    requires DefaultMinLevel(conf).Success?
    requires k < |Overrides(conf)| && IsNullOrWhiteSpace(Some(Overrides(conf)[k].key))
    requires Fold(Overrides(conf)[..k], OverrideStep).failure.None?
    ensures MinLevelsRun(conf).failure == Some(SourceNotSpecified(Overrides(conf)[k].path))
  {
    FoldFirstFailure(Overrides(conf), k, OverrideStep);
  }

  // ---------------------------------------------------------------------------
  // ConfigureProfiles

  /** One child of `profiles`: its view is built (which may fail), and the
      applier registered for its type applies it. */
  function ProfileStep(registry: map<string, Applier<PC.ProfileConfiguration>>, profileConfRaw: Section)
    : (r: Result<seq<Op>, Error>)
    ensures PC.New(profileConfRaw).Failure? ==> r == Failure(PC.New(profileConfRaw).error)
    ensures PC.New(profileConfRaw).Success? && PC.New(profileConfRaw).value.profileTypeName in registry ==>
      r == registry[PC.New(profileConfRaw).value.profileTypeName].apply(PC.New(profileConfRaw).value)
    ensures PC.New(profileConfRaw).Success? && PC.New(profileConfRaw).value.profileTypeName !in registry ==>
      r == Failure(NotKnown(ProfileKind, PC.New(profileConfRaw).value.profileTypeName, profileConfRaw.path))
  {
    var profileConf :- PC.New(profileConfRaw);
    if profileConf.profileTypeName in registry then registry[profileConf.profileTypeName].apply(profileConf)
    else Failure(NotKnown(ProfileKind, profileConf.profileTypeName, profileConf.Path()))
  }

  function ProfileStepOf(registry: map<string, Applier<PC.ProfileConfiguration>>)
    : Section -> Result<seq<Op>, Error>
  {
    profileConfRaw => ProfileStep(registry, profileConfRaw)
  }

  /** What ConfigureProfiles adds: nothing, if two appliers claim one type;
      otherwise each profile's sinks, in order. */
  function ProfilesRun(conf: Section, appliers: seq<Applier<PC.ProfileConfiguration>>): Run {
    match RegistryOf(appliers, ProfileKind)
    case Failure(e) => Run([], Some(e))
    case Success(registry) => Fold(conf.GetSection("profiles").GetChildren(), ProfileStepOf(registry))
  }

  method ConfigureProfiles(loggerConf: LoggerConfiguration, conf: Section,
                           profileAppliers: seq<Applier<PC.ProfileConfiguration>>)
    returns (failure: Option<Error>)
    modifies loggerConf
    ensures loggerConf.ops == old(loggerConf.ops) + ProfilesRun(conf, profileAppliers).ops
    ensures failure == ProfilesRun(conf, profileAppliers).failure
  {
    var registry := BuildRegistry(profileAppliers, ProfileKind);
    if registry.Failure? {
      return Some(registry.error);
    }
    failure := ApplyAll(loggerConf, conf.GetSection("profiles").GetChildren(), ProfileStepOf(registry.value));
  }

  // ---------------------------------------------------------------------------
  // ConfigureEnrichments and ConfigureFilters

  /** One child of `enrichments` or `filters`: its lower-cased key selects
      the applier. */
  function EntryStep(kind: ExtensionKind, registry: map<string, Applier<Section>>, entryConf: Section)
    : (r: Result<seq<Op>, Error>)
    ensures Lower(entryConf.key) in registry ==> r == registry[Lower(entryConf.key)].apply(entryConf)
    ensures Lower(entryConf.key) !in registry ==> r == Failure(NotKnown(kind, Lower(entryConf.key), entryConf.path))
  {
    var name := Lower(entryConf.key);
    if name in registry then registry[name].apply(entryConf) else Failure(NotKnown(kind, name, entryConf.path))
  }

  function EntryStepOf(kind: ExtensionKind, registry: map<string, Applier<Section>>): Section -> Result<seq<Op>, Error> {
    entryConf => EntryStep(kind, registry, entryConf)
  }

  /** The section each kind of entry is read from. */
  function EntriesKey(kind: ExtensionKind): string {
    match kind
    case ProfileKind => "profiles"
    case EnrichmentKind => "enrichments"
    case FilterKind => "filters"
  }

  function Entries(conf: Section, kind: ExtensionKind): seq<Section> {
    conf.GetSection(EntriesKey(kind)).GetChildren()
  }

  /** What ConfigureEnrichments (kind EnrichmentKind) or ConfigureFilters
      (kind FilterKind) adds. */
  function EntriesRun(conf: Section, kind: ExtensionKind, appliers: seq<Applier<Section>>): Run {
    match RegistryOf(appliers, kind)
    case Failure(e) => Run([], Some(e))
    case Success(registry) => Fold(Entries(conf, kind), EntryStepOf(kind, registry))
  }

  method ConfigureEnrichments(loggerConf: LoggerConfiguration, conf: Section, enrichmentAppliers: seq<Applier<Section>>)
    returns (failure: Option<Error>)
    modifies loggerConf
    ensures loggerConf.ops == old(loggerConf.ops) + EntriesRun(conf, EnrichmentKind, enrichmentAppliers).ops
    ensures failure == EntriesRun(conf, EnrichmentKind, enrichmentAppliers).failure
  {
    var registry := BuildRegistry(enrichmentAppliers, EnrichmentKind);
    if registry.Failure? {
      return Some(registry.error);
    }
    failure := ApplyAll(loggerConf, Entries(conf, EnrichmentKind), EntryStepOf(EnrichmentKind, registry.value));
  }

  method ConfigureFilters(loggerConf: LoggerConfiguration, conf: Section, filterAppliers: seq<Applier<Section>>)
    returns (failure: Option<Error>)
    modifies loggerConf
    ensures loggerConf.ops == old(loggerConf.ops) + EntriesRun(conf, FilterKind, filterAppliers).ops
    ensures failure == EntriesRun(conf, FilterKind, filterAppliers).failure
  {
    var registry := BuildRegistry(filterAppliers, FilterKind);
    if registry.Failure? {
      return Some(registry.error);
    }
    failure := ApplyAll(loggerConf, Entries(conf, FilterKind), EntryStepOf(FilterKind, registry.value));
  }

  /** Each entry invokes the one applier its lower-cased key names, in entry
      order; the first entry whose name has no applier ends the stage with
      the entries before it applied. */
  lemma UnknownEntryAborts(conf: Section, kind: ExtensionKind, appliers: seq<Applier<Section>>, k: nat)
    requires RegistryOf(appliers, kind).Success?
    requires k < |Entries(conf, kind)| && Lower(Entries(conf, kind)[k].key) !in RegistryOf(appliers, kind).value
    requires Fold(Entries(conf, kind)[..k], EntryStepOf(kind, RegistryOf(appliers, kind).value)).failure.None?
    ensures EntriesRun(conf, kind, appliers)
      == Run(Fold(Entries(conf, kind)[..k], EntryStepOf(kind, RegistryOf(appliers, kind).value)).ops,
             Some(NotKnown(kind, Lower(Entries(conf, kind)[k].key), Entries(conf, kind)[k].path)))
  {
    FoldFirstFailure(Entries(conf, kind), k, EntryStepOf(kind, RegistryOf(appliers, kind).value));
  }

  /** When every entry names a registered applier that succeeds, each entry
      adds exactly what its applier adds, after the entries before it. */
  lemma KnownEntriesApplyInOrder(conf: Section, kind: ExtensionKind, appliers: seq<Applier<Section>>, k: nat)
    requires RegistryOf(appliers, kind).Success?
    requires var registry := RegistryOf(appliers, kind).value;
      forall i :: 0 <= i < |Entries(conf, kind)| ==>
        Lower(Entries(conf, kind)[i].key) in registry
        && registry[Lower(Entries(conf, kind)[i].key)].apply(Entries(conf, kind)[i]).Success?
    requires k < |Entries(conf, kind)|
    ensures EntriesRun(conf, kind, appliers).failure.None?
    ensures var registry := RegistryOf(appliers, kind).value;
      var step := EntryStepOf(kind, registry);
      Fold(Entries(conf, kind)[..k + 1], step).ops
      == Fold(Entries(conf, kind)[..k], step).ops + registry[Lower(Entries(conf, kind)[k].key)].apply(Entries(conf, kind)[k]).value
  {
    var registry := RegistryOf(appliers, kind).value;
    FoldAllSucceed(Entries(conf, kind), EntryStepOf(kind, registry));
  }

  // ---------------------------------------------------------------------------
  // CreateConfiguredLogger and its variants

  /** The configuration a build leaves: the stages in their fixed order,
      each only if the ones before it did not fail. */
  function Build(conf: Section, profileAppliers: seq<Applier<PC.ProfileConfiguration>>,
                 enrichmentAppliers: seq<Applier<Section>>, filterAppliers: seq<Applier<Section>>,
                 onLoggerConfigurationLoaded: Option<seq<Op>>): Run
  {
    Pipeline(MinLevelsRun(conf), ProfilesRun(conf, profileAppliers),
             EntriesRun(conf, EnrichmentKind, enrichmentAppliers), EntriesRun(conf, FilterKind, filterAppliers),
             onLoggerConfigurationLoaded.GetOr([]))
  }

  /** The stages in their fixed order after the initial steps, each only if
      the ones before it did not fail. */
  function Pipeline(minLevels: Run, profiles: Run, enrichments: Run, filters: Run, callback: seq<Op>): Run {
    Run(InitialOps, None).Then(minLevels).Then(profiles).Then(enrichments).Then(filters).Then(Run(callback, None))
  }

  /** A pipeline fails at its first failing stage, keeping the steps of the
      stages before it. */
  lemma PipelineFirstFailure(minLevels: Run, profiles: Run, enrichments: Run, filters: Run, callback: seq<Op>)
    ensures var r := Pipeline(minLevels, profiles, enrichments, filters, callback);
      if minLevels.failure.Some? then r == Run(InitialOps + minLevels.ops, minLevels.failure)
      else if profiles.failure.Some? then r == Run(InitialOps + minLevels.ops + profiles.ops, profiles.failure)
      else if enrichments.failure.Some? then
        r == Run(InitialOps + minLevels.ops + profiles.ops + enrichments.ops, enrichments.failure)
      else if filters.failure.Some? then
        r == Run(InitialOps + minLevels.ops + profiles.ops + enrichments.ops + filters.ops, filters.failure)
      else r == Run(InitialOps + minLevels.ops + profiles.ops + enrichments.ops + filters.ops + callback, None)
  {
  }

  /** The minimum levels, then the profiles, applied after the steps of
      `before`. */
  method ConfigureLevelsAndProfiles(loggerConf: LoggerConfiguration, conf: Section,
                                    profileAppliers: seq<Applier<PC.ProfileConfiguration>>, ghost before: Run)
    returns (failure: Option<Error>)
    requires before.failure.None? && loggerConf.ops == before.ops
    modifies loggerConf
    ensures var run := before.Then(MinLevelsRun(conf)).Then(ProfilesRun(conf, profileAppliers));
      loggerConf.ops == run.ops && failure == run.failure
  {
    failure := ConfigureMinLevels(loggerConf, conf);
    if failure.Some? {
      return;
    }
    failure := ConfigureProfiles(loggerConf, conf, profileAppliers);
  }

  /** The enrichments, then the filters, applied after the steps of
      `before`. */
  method ConfigureEntries(loggerConf: LoggerConfiguration, conf: Section,
                          enrichmentAppliers: seq<Applier<Section>>, filterAppliers: seq<Applier<Section>>,
                          ghost before: Run)
    returns (failure: Option<Error>)
    requires before.failure.None? && loggerConf.ops == before.ops
    modifies loggerConf
    ensures var run := before.Then(EntriesRun(conf, EnrichmentKind, enrichmentAppliers))
                             .Then(EntriesRun(conf, FilterKind, filterAppliers));
      loggerConf.ops == run.ops && failure == run.failure
  {
    failure := ConfigureEnrichments(loggerConf, conf, enrichmentAppliers);
    if failure.Some? {
      return;
    }
    failure := ConfigureFilters(loggerConf, conf, filterAppliers);
  }

  /** CreateConfiguredLogger: the logger over the configuration the build
      leaves, or the exception that ended the build. The callback is given as
      the steps it adds. */
  method CreateConfiguredLogger(conf: Section, profileAppliers: seq<Applier<PC.ProfileConfiguration>>,
                                enrichmentAppliers: seq<Applier<Section>>, filterAppliers: seq<Applier<Section>>,
                                onLoggerConfigurationLoaded: Option<seq<Op>>)
    returns (r: Result<Logger, Error>)
    ensures var run := Build(conf, profileAppliers, enrichmentAppliers, filterAppliers, onLoggerConfigurationLoaded);
      && (r.Failure? <==> run.failure.Some?)
      && (r.Failure? ==> r.error == run.failure.value)
      && (r.Success? ==> fresh(r.value) && r.value.ops == run.ops && r.value.context == [] && r.value.disposals == 0)
  {
    var loggerConf := new LoggerConfiguration();
    loggerConf.Apply(InitialOps);
    ghost var run := Run(InitialOps, None);
    var failure := ConfigureLevelsAndProfiles(loggerConf, conf, profileAppliers, run);
    run := run.Then(MinLevelsRun(conf)).Then(ProfilesRun(conf, profileAppliers));
    if failure.Some? {
      return Failure(failure.value);
    }
    failure := ConfigureEntries(loggerConf, conf, enrichmentAppliers, filterAppliers, run);
    run := run.Then(EntriesRun(conf, EnrichmentKind, enrichmentAppliers)).Then(EntriesRun(conf, FilterKind, filterAppliers));
    if failure.Some? {
      return Failure(failure.value);
    }
    if onLoggerConfigurationLoaded.Some? {
      loggerConf.Apply(onLoggerConfigurationLoaded.value);
    }
    run := run.Then(Run(onLoggerConfigurationLoaded.GetOr([]), None));
    assert loggerConf.ops == run.ops;
    var logger := loggerConf.CreateLogger();
    return Success(logger);
  }

  /** The three-argument overload: no filter appliers and no callback. */
  method CreateConfiguredLoggerWithoutFilters(conf: Section, profileAppliers: seq<Applier<PC.ProfileConfiguration>>,
                                              enrichmentAppliers: seq<Applier<Section>>)
    returns (r: Result<Logger, Error>)
    ensures var run := Build(conf, profileAppliers, enrichmentAppliers, [], None);
      && (r.Failure? <==> run.failure.Some?)
      && (r.Failure? ==> r.error == run.failure.value)
      && (r.Success? ==> fresh(r.value) && r.value.ops == run.ops && r.value.context == [])
  {
    r := CreateConfiguredLogger(conf, profileAppliers, enrichmentAppliers, [], None);
  }

  /** CreateSharedConfiguredLogger: the three-argument build, installed as the
      global logger when it succeeds. */
  method CreateSharedConfiguredLogger(log: GlobalLog, conf: Section,
                                      profileAppliers: seq<Applier<PC.ProfileConfiguration>>,
                                      enrichmentAppliers: seq<Applier<Section>>)
    returns (r: Result<Logger, Error>)
    modifies log
    ensures var run := Build(conf, profileAppliers, enrichmentAppliers, [], None);
      && (r.Failure? <==> run.failure.Some?)
      && (r.Failure? ==> r.error == run.failure.value && log.logger == old(log.logger))
      && (r.Success? ==> fresh(r.value) && r.value.ops == run.ops && log.logger == Concrete(r.value))
  {
    r := CreateConfiguredLoggerWithoutFilters(conf, profileAppliers, enrichmentAppliers);
    if r.Success? {
      log.SetLogger(Concrete(r.value));
    }
  }

  /** The stages before profiles succeed. */
  predicate MinLevelsPass(conf: Section) {
    MinLevelsRun(conf).failure.None?
  }

  /** A failing profile ends the build before the enrichment registry is
      built: the profile's error is reported even when enrichment appliers
      conflict. */
  lemma ProfileErrorPrecedesEnrichmentConflict(conf: Section, profileAppliers: seq<Applier<PC.ProfileConfiguration>>,
                                               enrichmentAppliers: seq<Applier<Section>>,
                                               filterAppliers: seq<Applier<Section>>, callback: Option<seq<Op>>)
    requires MinLevelsPass(conf) && ProfilesRun(conf, profileAppliers).failure.Some?
    ensures Build(conf, profileAppliers, enrichmentAppliers, filterAppliers, callback).failure
         == ProfilesRun(conf, profileAppliers).failure
  {
  }

  /** An enrichment registry conflict surfaces only after the minimum levels
      and every profile have been applied. */
  lemma EnrichmentConflictAfterProfiles(conf: Section, profileAppliers: seq<Applier<PC.ProfileConfiguration>>,
                                        enrichmentAppliers: seq<Applier<Section>>,
                                        filterAppliers: seq<Applier<Section>>, callback: Option<seq<Op>>)
    requires MinLevelsPass(conf) && ProfilesRun(conf, profileAppliers).failure.None?
    requires !DistinctNames(enrichmentAppliers)
    ensures var failure := Build(conf, profileAppliers, enrichmentAppliers, filterAppliers, callback).failure;
      failure.Some? && failure.value.Conflict? && failure.value.kind == EnrichmentKind
    ensures Build(conf, profileAppliers, enrichmentAppliers, filterAppliers, callback).ops
         == InitialOps + MinLevelsRun(conf).ops + ProfilesRun(conf, profileAppliers).ops
  {
    RegistryOfSucceedsIffDistinct(enrichmentAppliers, EnrichmentKind);
    var e := RegistryOf(enrichmentAppliers, EnrichmentKind).error;
    assert EntriesRun(conf, EnrichmentKind, enrichmentAppliers) == Run([], Some(e));
    PipelineFirstFailure(MinLevelsRun(conf), ProfilesRun(conf, profileAppliers), Run([], Some(e)),
                         EntriesRun(conf, FilterKind, filterAppliers), callback.GetOr([]));
    assert InitialOps + MinLevelsRun(conf).ops + ProfilesRun(conf, profileAppliers).ops + []
        == InitialOps + MinLevelsRun(conf).ops + ProfilesRun(conf, profileAppliers).ops;
    RegistryOfConflict(enrichmentAppliers, EnrichmentKind);
  }

  /** Without filter appliers, the three-argument overload rejects any
      `filters` entry: the first one is reported as not known. */
  lemma NoFilterAppliersRejectFilters(conf: Section, profileAppliers: seq<Applier<PC.ProfileConfiguration>>,
                                      enrichmentAppliers: seq<Applier<Section>>)
    requires MinLevelsPass(conf) && ProfilesRun(conf, profileAppliers).failure.None?
    requires EntriesRun(conf, EnrichmentKind, enrichmentAppliers).failure.None?
    requires Entries(conf, FilterKind) != []
    ensures Build(conf, profileAppliers, enrichmentAppliers, [], None).failure
         == Some(NotKnown(FilterKind, Lower(Entries(conf, FilterKind)[0].key), Entries(conf, FilterKind)[0].path))
  {
    var registry: map<string, Applier<Section>> := map[];
    assert RegistryOf([], FilterKind) == Success(registry);
    assert Entries(conf, FilterKind)[..0] == [];
    FoldFirstFailure(Entries(conf, FilterKind), 0, EntryStepOf(FilterKind, registry));
  }

  /** A profile whose type has no applier ends the build with an error naming
      the type and the profile's path. */
  lemma UnknownProfileTypeFails(registry: map<string, Applier<PC.ProfileConfiguration>>, profileConfRaw: Section)
    requires profileConfRaw.Item("minLevel").None? && profileConfRaw.Item("type").Some?
    requires Lower(profileConfRaw.Item("type").value) !in registry
    ensures ProfileStep(registry, profileConfRaw)
         == Failure(NotKnown(ProfileKind, Lower(profileConfRaw.Item("type").value), profileConfRaw.path))
  {
  }
}
