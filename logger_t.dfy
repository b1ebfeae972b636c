/** Logger<TSource>: the typed logger over an ILogger with the source type
    attached as "SourceContext". It keeps the fast view MayGetFastImpl gives;
    writes with one to three property values use it, and otherwise go to the
    same overload of `impl`, with no IsEnabled gate. */
module SourceLoggers {
  import opened Wrappers
  import opened Serilog
  import opened LoggerFunctions
  import opened AotLoggers

  /** The registrations an IServiceProvider answers ILogger<T> with, by the
      full name of T. */
  class ServiceProvider {
    const loggers: map<string, SourceLogger>

    constructor(loggers: map<string, SourceLogger>)
      ensures this.loggers == loggers
    {
      this.loggers := loggers;
    }
  }

  class SourceLogger {
    const sourceType: string
    const impl: ILogger
    const fastImpl: Option<Logger>
    const serviceProvider: Option<ServiceProvider>

    /** `impl` is logger.ForContext<TSource>(): the same levels, one more
        SourceContext item; its fast view is MayGetFastImpl(impl). */
    constructor(logger: ILogger, sourceType: string, serviceProvider: Option<ServiceProvider>)
      ensures this.sourceType == sourceType && this.serviceProvider == serviceProvider
      ensures Valid()
      ensures fastImpl.Some? <==> !logger.Other?
      ensures forall level :: IsEnabled(impl, level) == IsEnabled(logger, level)
      ensures MayGetFastImpl(logger).Some? ==>
        (fastImpl.Some? && fresh(fastImpl.value) && fastImpl.value.ops == MayGetFastImpl(logger).value.ops
         && fastImpl.value.context == MayGetFastImpl(logger).value.context + [SourceContext(sourceType)])
    {
      var inner := Serilog.ForContext(logger, SourceContext(sourceType));
      this.sourceType := sourceType;
      impl := inner;
      fastImpl := MayGetFastImpl(inner);
      this.serviceProvider := serviceProvider;
    }

    predicate Valid() {
      fastImpl == MayGetFastImpl(impl)
    }

    /** A Write overload (or a per-level one): one to three values go to the
        fast view when there is one; everything else goes to the same
        overload of `impl` ungated. The pipeline gets what a direct write to
        `impl` would give. */
    function Dispatch(w: Write): (r: seq<Forward>)
      requires Valid() && WellFormed(w)
      ensures Events(r) == Emitted(impl, w)
      ensures w.overload.Properties? && fastImpl.Some? ==> r == [ToFast(fastImpl.value, w)]
      ensures !(w.overload.Properties? && fastImpl.Some?) ==> r == [ToImpl(impl, w)]
    {
      if w.overload.Properties? && fastImpl.Some? then
        EventsOfOne(ToFast(fastImpl.value, w));
        [ToFast(fastImpl.value, w)]
      else
        EventsOfOne(ToImpl(impl, w));
        [ToImpl(impl, w)]
    }

    /** ForContext<TOtherSource>(): the service provider's ILogger<TOther>
        when it has one; otherwise a new Logger<TOther> over
        impl.ForContext(typeof(TOther)), whose own constructor attaches the
        source context once more. */
    method ForContextOf(otherType: string) returns (r: SourceLogger)
      requires Valid()
      ensures serviceProvider.Some? && otherType in serviceProvider.value.loggers ==>
        r == serviceProvider.value.loggers[otherType]
      ensures !(serviceProvider.Some? && otherType in serviceProvider.value.loggers) ==>
        (fresh(r) && r.Valid() && r.sourceType == otherType && r.serviceProvider == serviceProvider
         && (forall level :: IsEnabled(r.impl, level) == IsEnabled(impl, level))
         && (fastImpl.Some? ==>
               r.fastImpl.Some? && r.fastImpl.value.ops == fastImpl.value.ops
               && r.fastImpl.value.context
                  == fastImpl.value.context + [SourceContext(otherType), SourceContext(otherType)]))
    {
      if serviceProvider.Some? && otherType in serviceProvider.value.loggers {
        return serviceProvider.value.loggers[otherType];
      }
      var inner := Serilog.ForContext(impl, SourceContext(otherType));
      r := new SourceLogger(inner, otherType, serviceProvider);
    }

    /** The ILogger.ForContext<TOther>() of the interface: impl.ForContext
        with one SourceContext item. */
    method ForContextAsILogger(otherType: string) returns (r: ILogger)
      requires Valid()
      ensures forall level :: IsEnabled(r, level) == IsEnabled(impl, level)
      ensures fastImpl.Some? ==>
        (r.Concrete? && fresh(r.logger) && r.logger.ops == fastImpl.value.ops
         && r.logger.context == fastImpl.value.context + [SourceContext(otherType)])
    {
      r := Serilog.ForContext(impl, SourceContext(otherType));
    }
  }
}
