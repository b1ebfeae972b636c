/** The older pipeline builder: one method that first builds all three
    registries, then adds the attribute destructuring and log-context
    enrichment, the profiles' sinks, the enrichments and the filters, with no
    minimum-level stage and no callback. */
module LegacyConfiguredLoggingFunctions {
  import opened Wrappers
  import opened Primitives
  import opened Configuration
  import opened Errors
  import opened Serilog
  import opened Appliers
  import PC = ProfileConfiguration
  import Current = ConfiguredLoggingFunctions
  import Legacy = LegacyLoggingConfigurationFunctions

  /** One child of `profiles`: its view is built (which may fail), and the
      applier registered for its type applies it; an unknown type fails with
      the older message, which names the path before the type. */
  function ProfileStep(registry: map<string, Applier<PC.ProfileConfiguration>>, profileConfRaw: Section)
    : (r: Result<seq<Op>, Error>)
    ensures PC.New(profileConfRaw).Failure? ==> r == Failure(PC.New(profileConfRaw).error)
    ensures PC.New(profileConfRaw).Success? && PC.New(profileConfRaw).value.profileTypeName in registry ==>
      r == registry[PC.New(profileConfRaw).value.profileTypeName].apply(PC.New(profileConfRaw).value)
    ensures PC.New(profileConfRaw).Success? && PC.New(profileConfRaw).value.profileTypeName !in registry ==>
      r == Failure(LegacyNotKnown(ProfileKind, profileConfRaw.path, PC.New(profileConfRaw).value.profileTypeName))
  {
    var profileConf :- PC.New(profileConfRaw);
    if profileConf.profileTypeName in registry then registry[profileConf.profileTypeName].apply(profileConf)
    else Failure(LegacyNotKnown(ProfileKind, profileConf.Path(), profileConf.profileTypeName))
  }

  function ProfileStepOf(registry: map<string, Applier<PC.ProfileConfiguration>>)
    : Section -> Result<seq<Op>, Error>
  {
    profileConfRaw => ProfileStep(registry, profileConfRaw)
  }

  /** One child of `enrichments` or `filters`: its lower-cased key selects
      the applier. */
  function EntryStep(kind: ExtensionKind, registry: map<string, Applier<Section>>, entryConf: Section)
    : (r: Result<seq<Op>, Error>)
    ensures Lower(entryConf.key) in registry ==> r == registry[Lower(entryConf.key)].apply(entryConf)
    ensures Lower(entryConf.key) !in registry ==> r == Failure(LegacyNotKnown(kind, entryConf.path, Lower(entryConf.key)))
  {
    var name := Lower(entryConf.key);
    if name in registry then registry[name].apply(entryConf) else Failure(LegacyNotKnown(kind, entryConf.path, name))
  }

  function EntryStepOf(kind: ExtensionKind, registry: map<string, Applier<Section>>): Section -> Result<seq<Op>, Error> {
    entryConf => EntryStep(kind, registry, entryConf)
  }

  function Profiles(conf: Section): seq<Section> {
    conf.GetSection("profiles").GetChildren()
  }

  function Enrichments(conf: Section): seq<Section> {
    conf.GetSection("enrichments").GetChildren()
  }

  function Filters(conf: Section): seq<Section> {
    conf.GetSection("filters").GetChildren()
  }

  /** The three dispatch loops over registries that were all built. */
  function Dispatch(conf: Section, profiles: map<string, Applier<PC.ProfileConfiguration>>,
                    enrichments: map<string, Applier<Section>>, filters: map<string, Applier<Section>>): Run
  {
    Run(Current.InitialOps, None)
      .Then(Fold(Profiles(conf), ProfileStepOf(profiles)))
      .Then(Fold(Enrichments(conf), EntryStepOf(EnrichmentKind, enrichments)))
      .Then(Fold(Filters(conf), EntryStepOf(FilterKind, filters)))
  }

  /** What the older CreateConfiguredLogger leaves: the first registry
      conflict, reached before any section is read, or the dispatch loops. */
  function Build(conf: Section, profileAppliers: seq<Applier<PC.ProfileConfiguration>>,
                 enrichmentAppliers: seq<Applier<Section>>, filterAppliers: seq<Applier<Section>>): Run
  {
    match RegistryOf(profileAppliers, ProfileKind)
    case Failure(e) => Run([], Some(e))
    case Success(profiles) =>
      (match RegistryOf(enrichmentAppliers, EnrichmentKind)
       case Failure(e) => Run([], Some(e))
       case Success(enrichments) =>
         (match RegistryOf(filterAppliers, FilterKind)
          case Failure(e) => Run([], Some(e))
          case Success(filters) => Dispatch(conf, profiles, enrichments, filters)))
  }

  /** CreateConfiguredLogger, the older single method. */
  method CreateConfiguredLogger(conf: Section, profileAppliers: seq<Applier<PC.ProfileConfiguration>>,
                                enrichmentAppliers: seq<Applier<Section>>, filterAppliers: seq<Applier<Section>>)
    returns (r: Result<Logger, Error>)
    ensures var run := Build(conf, profileAppliers, enrichmentAppliers, filterAppliers);
      && (r.Failure? <==> run.failure.Some?)
      && (r.Failure? ==> r.error == run.failure.value)
      && (r.Success? ==> fresh(r.value) && r.value.ops == run.ops && r.value.context == [] && r.value.disposals == 0)
  {
    var profiles := BuildRegistry(profileAppliers, ProfileKind);
    if profiles.Failure? {
      return Failure(profiles.error);
    }
    var enrichments := BuildRegistry(enrichmentAppliers, EnrichmentKind);
    if enrichments.Failure? {
      return Failure(enrichments.error);
    }
    var filters := BuildRegistry(filterAppliers, FilterKind);
    if filters.Failure? {
      return Failure(filters.error);
    }
    var loggerConf := new LoggerConfiguration();
    loggerConf.Apply(Current.InitialOps);
    ghost var run := Run(Current.InitialOps, None);
    var failure := ApplyAll(loggerConf, Profiles(conf), ProfileStepOf(profiles.value));
    run := run.Then(Fold(Profiles(conf), ProfileStepOf(profiles.value)));
    assert loggerConf.ops == run.ops && failure == run.failure;
    if failure.Some? {
      return Failure(failure.value);
    }
    failure := ApplyAll(loggerConf, Enrichments(conf), EntryStepOf(EnrichmentKind, enrichments.value));
    run := run.Then(Fold(Enrichments(conf), EntryStepOf(EnrichmentKind, enrichments.value)));
    assert loggerConf.ops == run.ops && failure == run.failure;
    if failure.Some? {
      return Failure(failure.value);
    }
    failure := ApplyAll(loggerConf, Filters(conf), EntryStepOf(FilterKind, filters.value));
    run := run.Then(Fold(Filters(conf), EntryStepOf(FilterKind, filters.value)));
    assert loggerConf.ops == run.ops && failure == run.failure;
    if failure.Some? {
      return Failure(failure.value);
    }
    var logger := loggerConf.CreateLogger();
    return Success(logger);
  }

  /** The three-argument overload: an empty set of filter appliers. */
  method CreateConfiguredLoggerWithoutFilters(conf: Section, profileAppliers: seq<Applier<PC.ProfileConfiguration>>,
                                              enrichmentAppliers: seq<Applier<Section>>)
    returns (r: Result<Logger, Error>)
    ensures var run := Build(conf, profileAppliers, enrichmentAppliers, []);
      && (r.Failure? <==> run.failure.Some?)
      && (r.Failure? ==> r.error == run.failure.value)
      && (r.Success? ==> fresh(r.value) && r.value.ops == run.ops && r.value.context == [])
  {
    r := CreateConfiguredLogger(conf, profileAppliers, enrichmentAppliers, []);
  }

  /** CreateSharedConfiguredLogger: the three-argument build, installed as the
      global logger when it succeeds. */
  method CreateSharedConfiguredLogger(log: GlobalLog, conf: Section,
                                      profileAppliers: seq<Applier<PC.ProfileConfiguration>>,
                                      enrichmentAppliers: seq<Applier<Section>>)
    returns (r: Result<Logger, Error>)
    modifies log
    ensures var run := Build(conf, profileAppliers, enrichmentAppliers, []);
      && (r.Failure? <==> run.failure.Some?)
      && (r.Failure? ==> r.error == run.failure.value && log.logger == old(log.logger))
      && (r.Success? ==> fresh(r.value) && r.value.ops == run.ops && log.logger == Concrete(r.value))
  {
    r := CreateConfiguredLoggerWithoutFilters(conf, profileAppliers, enrichmentAppliers);
    if r.Success? {
      log.SetLogger(Concrete(r.value));
    }
  }

  /** All three registries are built before any section is read: when any of
      them conflicts, the outcome is that conflict, whatever the
      configuration holds. */
  lemma RegistryConflictIgnoresConfiguration(conf: Section, other: Section,
                                             profileAppliers: seq<Applier<PC.ProfileConfiguration>>,
                                             enrichmentAppliers: seq<Applier<Section>>,
                                             filterAppliers: seq<Applier<Section>>)
    requires !DistinctNames(profileAppliers) || !DistinctNames(enrichmentAppliers) || !DistinctNames(filterAppliers)
    ensures Build(conf, profileAppliers, enrichmentAppliers, filterAppliers)
         == Build(other, profileAppliers, enrichmentAppliers, filterAppliers)
    ensures var run := Build(conf, profileAppliers, enrichmentAppliers, filterAppliers);
      run.ops == [] && run.failure.Some? && run.failure.value.Conflict?
  {
    RegistryOfSucceedsIffDistinct(profileAppliers, ProfileKind);
    RegistryOfSucceedsIffDistinct(enrichmentAppliers, EnrichmentKind);
    RegistryOfSucceedsIffDistinct(filterAppliers, FilterKind);
    if RegistryOf(profileAppliers, ProfileKind).Failure? {
      RegistryOfConflict(profileAppliers, ProfileKind);
    } else if RegistryOf(enrichmentAppliers, EnrichmentKind).Failure? {
      RegistryOfConflict(enrichmentAppliers, EnrichmentKind);
    } else {
      RegistryOfConflict(filterAppliers, FilterKind);
    }
  }

  /** The profile conflict is reported first: it names the profile kind even
      when the other registries conflict too. */
  lemma ProfileConflictReportedFirst(conf: Section, profileAppliers: seq<Applier<PC.ProfileConfiguration>>,
                                     enrichmentAppliers: seq<Applier<Section>>, filterAppliers: seq<Applier<Section>>)
    requires !DistinctNames(profileAppliers)
    ensures var run := Build(conf, profileAppliers, enrichmentAppliers, filterAppliers);
      run.failure.Some? && run.failure.value.Conflict? && run.failure.value.kind == ProfileKind
  {
    RegistryOfSucceedsIffDistinct(profileAppliers, ProfileKind);
    RegistryOfConflict(profileAppliers, ProfileKind);
  }

  /** With every registry built and every loop through, the older builder
      adds nothing between the initial steps and the profiles: there is no
      minimum-level stage. */
  lemma NoMinLevelStage(conf: Section, profileAppliers: seq<Applier<PC.ProfileConfiguration>>,
                        enrichmentAppliers: seq<Applier<Section>>, filterAppliers: seq<Applier<Section>>)
    requires DistinctNames(profileAppliers) && DistinctNames(enrichmentAppliers) && DistinctNames(filterAppliers)
    ensures var profiles := RegistryOf(profileAppliers, ProfileKind);
      var enrichments := RegistryOf(enrichmentAppliers, EnrichmentKind);
      var filters := RegistryOf(filterAppliers, FilterKind);
      profiles.Success? && enrichments.Success? && filters.Success?
      && Build(conf, profileAppliers, enrichmentAppliers, filterAppliers)
         == Dispatch(conf, profiles.value, enrichments.value, filters.value)
      && Dispatch(conf, profiles.value, enrichments.value, filters.value).ops[..2] == Current.InitialOps
  {
    RegistryOfSucceedsIffDistinct(profileAppliers, ProfileKind);
    RegistryOfSucceedsIffDistinct(enrichmentAppliers, EnrichmentKind);
    RegistryOfSucceedsIffDistinct(filterAppliers, FilterKind);
  }

  /** The older unknown-type text: "'<path>:type': profile type '<t>' is not
      known.", thrown as a configuration exception. */
  lemma UnknownProfileTypeMessage(registry: map<string, Applier<PC.ProfileConfiguration>>, profileConfRaw: Section)
    requires profileConfRaw.Item("minLevel").None? && profileConfRaw.Item("type").Some?
    requires Lower(profileConfRaw.Item("type").value) !in registry
    ensures ProfileStep(registry, profileConfRaw).Failure?
    ensures var e := ProfileStep(registry, profileConfRaw).error;
      && e.ExceptionType() == "LoggingConfigurationException"
      && e.Message() == "'" + profileConfRaw.path + ":type': profile type '"
                        + Lower(profileConfRaw.Item("type").value) + "' is not known."
  {
    var typeName := Lower(profileConfRaw.Item("type").value);
    assert Legacy.ReadEnum(profileConfRaw, "minLevel", LevelMembers) == Success(None);
    assert PC.New(profileConfRaw).Success? && PC.New(profileConfRaw).value.profileTypeName == typeName;
    assert ProfileStep(registry, profileConfRaw) == Failure(LegacyNotKnown(ProfileKind, profileConfRaw.path, typeName));
    LegacyNotKnownProfileText(profileConfRaw.path, typeName);
  }

  /** The older not-known error for a profile type, as thrown. */
  lemma LegacyNotKnownProfileText(path: string, typeName: string)
    ensures LegacyNotKnown(ProfileKind, path, typeName).ExceptionType() == "LoggingConfigurationException"
    ensures LegacyNotKnown(ProfileKind, path, typeName).Message()
         == "'" + path + ":type': profile type '" + typeName + "' is not known."
  {
  }

  /** An unknown enrichment or filter fails with the path and the lower-cased
      name, after the entries before it. */
  lemma UnknownEntryAborts(conf: Section, kind: ExtensionKind, registry: map<string, Applier<Section>>,
                           entries: seq<Section>, k: nat)
    requires k < |entries| && Lower(entries[k].key) !in registry
    requires Fold(entries[..k], EntryStepOf(kind, registry)).failure.None?
    ensures Fold(entries, EntryStepOf(kind, registry))
      == Run(Fold(entries[..k], EntryStepOf(kind, registry)).ops,
             Some(LegacyNotKnown(kind, entries[k].path, Lower(entries[k].key))))
  {
    FoldFirstFailure(entries, k, EntryStepOf(kind, registry));
  }

  /** Both revisions dispatch an entry to the same applier; they differ only
      in the error for an unknown name, which carries the same name and
      path. */
  lemma EntryStepAgreesWithCurrent(kind: ExtensionKind, registry: map<string, Applier<Section>>, entryConf: Section)
    ensures EntryStep(kind, registry, entryConf).Success? == Current.EntryStep(kind, registry, entryConf).Success?
    ensures EntryStep(kind, registry, entryConf).Success? ==>
      EntryStep(kind, registry, entryConf) == Current.EntryStep(kind, registry, entryConf)
    ensures Lower(entryConf.key) in registry ==>
      EntryStep(kind, registry, entryConf) == Current.EntryStep(kind, registry, entryConf)
  {
  }
}
