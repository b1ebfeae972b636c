/** The newer ConfiguredLogger's construction: the pipeline is built from
    the `logging` subsection first, and only a successful build swaps the
    global logger. The class itself, with its idempotent Dispose, lives with
    the Serilog references it is one of. */
module ConfiguredLoggerCreation {
  import opened Wrappers
  import opened Configuration
  import opened Errors
  import opened Serilog
  import opened Appliers
  import PC = ProfileConfiguration
  import Builder = ConfiguredLoggingFunctions

  /** The build the constructor runs. */
  function LoggingBuild(configuration: Section, profileAppliers: seq<Applier<PC.ProfileConfiguration>>,
                        enrichmentAppliers: seq<Applier<Section>>, filterAppliers: seq<Applier<Section>>,
                        onLoggerConfigurationLoaded: Option<seq<Op>>): Run
  {
    Builder.Build(configuration.GetSection("logging"), profileAppliers, enrichmentAppliers, filterAppliers,
                  onLoggerConfigurationLoaded)
  }

  /** `new ConfiguredLogger(...)`: the exception of a failed build, with the
      global logger untouched; or the logger, with `impl` installed as the
      global logger and the previous global saved. */
  method NewConfiguredLogger(log: GlobalLog, configuration: Section,
                             profileAppliers: seq<Applier<PC.ProfileConfiguration>>,
                             enrichmentAppliers: seq<Applier<Section>>, filterAppliers: seq<Applier<Section>>,
                             onLoggerConfigurationLoaded: Option<seq<Op>>)
    returns (r: Result<ConfiguredLogger, Error>)
    modifies log
    ensures var run := LoggingBuild(configuration, profileAppliers, enrichmentAppliers, filterAppliers,
                                    onLoggerConfigurationLoaded);
      && (r.Failure? <==> run.failure.Some?)
      && (r.Failure? ==> r.error == run.failure.value && log.logger == old(log.logger))
      && (r.Success? ==> (fresh(r.value) && fresh(r.value.impl) && r.value.log == log
          && r.value.impl.ops == run.ops && r.value.impl.disposals == 0
          && r.value.overriden == old(log.logger) && log.logger == Concrete(r.value.impl)
          && r.value.isDisposedFlag == 0))
  {
    var impl := Builder.CreateConfiguredLogger(configuration.GetSection("logging"), profileAppliers,
                                               enrichmentAppliers, filterAppliers, onLoggerConfigurationLoaded);
    if impl.Failure? {
      return Failure(impl.error);
    }
    var c := new ConfiguredLogger(impl.value, log);
    return Success(c);
  }

  /** Construction followed by disposal leaves the global logger as it was,
      with `impl` disposed once; a second Dispose changes nothing. */
  method ScopedConfiguredLogger(log: GlobalLog, configuration: Section,
                                profileAppliers: seq<Applier<PC.ProfileConfiguration>>,
                                enrichmentAppliers: seq<Applier<Section>>, filterAppliers: seq<Applier<Section>>)
    returns (r: Result<ConfiguredLogger, Error>)
    modifies log
    ensures log.logger == old(log.logger)
    ensures r.Success? ==> fresh(r.value.impl) && r.value.impl.disposals == 1 && r.value.isDisposedFlag == 1
  {
    r := NewConfiguredLogger(log, configuration, profileAppliers, enrichmentAppliers, filterAppliers, None);
    if r.Success? {
      r.value.Dispose();
      r.value.Dispose();
    }
  }

  /** IsEnabled and every write of a ConfiguredLogger are those of `impl`. */
  lemma ForwardsToImpl(c: ConfiguredLogger, w: Write, level: Level)
    ensures IsEnabled(Configured(c), level) == IsEnabled(Concrete(c.impl), level)
    ensures Emitted(Configured(c), w) == Emitted(Concrete(c.impl), w)
  {
  }
}
