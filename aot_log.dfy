/** AotLog: the shared AotLogger over the global Serilog logger, cached and
    rebuilt only when the global logger has been replaced. */
module AotLogs {
  import opened Serilog
  import opened AotLoggers

  class AotLog {
    const log: GlobalLog
    /** The cached wrapper. */
    var logger: AotLogger

    /** The cache starts as AotLogger.None, the wrapper over the silent
        logger the global slot starts with. */
    constructor(log: GlobalLog)
      ensures this.log == log && fresh(logger) && logger.Valid() && logger.impl == Other(log.none)
    {
      this.log := log;
      logger := new AotLogger(Other(log.none));
    }

    predicate Valid()
      reads this
    {
      logger.Valid()
    }

    /** The Logger getter: the cached wrapper while it wraps the current
        global logger, otherwise a new wrapper over it, installed as the
        cache. Either way the result wraps the global logger and is the
        cache. */
    method GetLogger() returns (r: AotLogger)
      requires Valid()
      modifies this
      ensures Valid() && logger == r && r.impl == log.logger
      ensures old(logger).impl == log.logger ==> r == old(logger)
      ensures old(logger).impl != log.logger ==> fresh(r)
    {
      var oldValue := logger;
      var loggerImpl := log.logger;
      if oldValue.impl == loggerImpl {
        return oldValue;
      }
      var newValue := new AotLogger(loggerImpl);
      logger := newValue;
      return newValue;
    }

    /** Two reads with no change of the global logger in between give the
        same wrapper. */
    method GetLoggerTwice() returns (a: AotLogger, b: AotLogger)
      requires Valid()
      modifies this
      ensures a == b && a.impl == log.logger && logger == a
    {
      a := GetLogger();
      b := GetLogger();
    }

    /** CloseAndFlush: Log.CloseAndFlush, then a read of the getter, so the
        cache wraps whatever the global logger is after the flush. */
    method CloseAndFlush()
      requires Valid()
      modifies this, log, Resources(log.logger)
      ensures Valid() && logger.impl == log.logger
      ensures old(log.logger).Concrete? ==>
        (log.logger == Other(log.none) && old(log.logger).logger.disposals == old(log.logger.logger.disposals) + 1)
      ensures old(log.logger).Other? ==> log.logger == Other(log.none)
      ensures old(log.logger).Configured? ==>
        old(log.logger).configured.Disposed(old(log.logger.configured.isDisposedFlag),
                                            old(log.logger.configured.impl.disposals),
                                            if old(log.logger).configured.log == log then Other(log.none)
                                            else old(log.logger.configured.log.logger))
      ensures old(log.logger).Configured? && old(log.logger).configured.log == log ==>
        log.logger == (if old(log.logger.configured.isDisposedFlag) == 0 then old(log.logger).configured.overriden
                       else Other(log.none))
    {
      var closed := log.CloseAndFlush();
      var current := GetLogger();
    }
  }
}
