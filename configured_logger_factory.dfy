/** The older ConfiguredLoggerFactory: a Microsoft logger factory over a
    logger built from the `logging` subsection, installed as the global
    logger for the factory's lifetime. Unlike the newer ConfiguredLogger, its
    Dispose is not guarded. */
module ConfiguredLoggerFactories {
  import opened Wrappers
  import opened Configuration
  import opened Errors
  import opened Serilog
  import opened Appliers
  import PC = ProfileConfiguration
  import Builder = LegacyConfiguredLoggingFunctions

  /** A SerilogLoggerProvider: the logger it hands out and whether disposing
      the provider disposes that logger. */
  datatype LoggerProvider = LoggerProvider(logger: Logger, dispose: bool)

  /** A Microsoft ILogger the provider creates for a category. */
  datatype CategoryLogger = CategoryLogger(logger: Logger, categoryName: string)

  class ConfiguredLoggerFactory {
    const logger: Logger
    const overridenLogger: ILogger
    const provider: LoggerProvider
    const log: GlobalLog

    /** The provider hands out the factory's logger and does not own it. */
    predicate Valid() {
      provider == LoggerProvider(logger, false)
    }

    /** The part of the constructor after the build: the swap
        `(overridenLogger, Log.Logger) = (Log.Logger, logger)` and a provider
        that does not own the logger. */
    constructor(logger: Logger, log: GlobalLog)
      modifies log
      ensures this.logger == logger && this.log == log
      ensures overridenLogger == old(log.logger) && log.logger == Concrete(logger)
      ensures provider == LoggerProvider(logger, false) && Valid()
    {
      this.logger := logger;
      this.log := log;
      overridenLogger := log.logger;
      provider := LoggerProvider(logger, false);
      new;
      log.logger := Concrete(logger);
    }

    /** IDisposable.Dispose, with no guard: every call restores the saved
        global logger and disposes the logger once more. */
    method Dispose()
      modifies log, logger
      ensures log.logger == overridenLogger
      ensures logger.disposals == old(logger.disposals) + 1
    {
      log.logger := overridenLogger;
      logger.disposals := logger.disposals + 1;
    }

    /** CreateLogger: the provider's logger for the category; the factory's
        state is unchanged. */
    method CreateLogger(categoryName: string) returns (r: CategoryLogger)
      requires Valid()
      ensures r.logger == logger && r.categoryName == categoryName
      ensures !provider.dispose
    {
      r := CategoryLogger(provider.logger, categoryName);
    }

    /** AddProvider ignores the provider: it changes no state and only
        produces the self-log line naming it. */
    method AddProvider(providerText: string) returns (diagnostic: string)
      ensures diagnostic == "Ignoring added logger provider " + providerText
    {
      diagnostic := "Ignoring added logger provider " + providerText;
    }
  }

  /** `new ConfiguredLoggerFactory(...)`: the older build over `logging` with
      all three applier sets; a failed build leaves the global logger as it
      was. */
  method NewConfiguredLoggerFactory(log: GlobalLog, configuration: Section,
                                    profileAppliers: seq<Applier<PC.ProfileConfiguration>>,
                                    enrichmentAppliers: seq<Applier<Section>>, filterAppliers: seq<Applier<Section>>)
    returns (r: Result<ConfiguredLoggerFactory, Error>)
    modifies log
    ensures var run := Builder.Build(configuration.GetSection("logging"), profileAppliers, enrichmentAppliers,
                                     filterAppliers);
      && (r.Failure? <==> run.failure.Some?)
      && (r.Failure? ==> r.error == run.failure.value && log.logger == old(log.logger))
      && (r.Success? ==> (fresh(r.value) && fresh(r.value.logger) && r.value.log == log
          && r.value.logger.ops == run.ops && r.value.logger.disposals == 0
          && r.value.overridenLogger == old(log.logger) && log.logger == Concrete(r.value.logger)
          && r.value.Valid() && !r.value.provider.dispose))
  {
    var logger := Builder.CreateConfiguredLogger(configuration.GetSection("logging"), profileAppliers,
                                                 enrichmentAppliers, filterAppliers);
    if logger.Failure? {
      return Failure(logger.error);
    }
    var factory := new ConfiguredLoggerFactory(logger.value, log);
    return Success(factory);
  }

  /** The unguarded Dispose repeats both of its steps: two calls dispose the
      logger twice, and the global logger is the saved one. */
  method DisposeTwice(factory: ConfiguredLoggerFactory)
    modifies factory.log, factory.logger
    ensures factory.log.logger == factory.overridenLogger
    ensures factory.logger.disposals == old(factory.logger.disposals) + 2
  {
    factory.Dispose();
    factory.Dispose();
  }
}
