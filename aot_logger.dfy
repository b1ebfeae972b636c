/** AotLogger: a wrapper over a Serilog ILogger that keeps, besides `impl`,
    a fast view of it when it is a concrete Serilog Logger. Writes with one to
    three property values go to the fast view; without one they reach impl's
    params-array overload, and only when impl is enabled for the level. */
module AotLoggers {
  import opened Wrappers
  import opened Serilog

  /** One call a dispatch makes: to the fast view or to `impl`. */
  datatype Forward = ToFast(fast: Logger, write: Write) | ToImpl(target: ILogger, write: Write)

  /** The events a call puts into the pipeline. */
  function Reaches(f: Forward): seq<LogEvent> {
    match f
    case ToFast(x, w) => Emitted(Concrete(x), w)
    case ToImpl(t, w) => Emitted(t, w)
  }

  /** The events a sequence of calls puts into the pipeline, in order. */
  function Events(fs: seq<Forward>): seq<LogEvent>
    decreases |fs|
  {
    if fs == [] then [] else Reaches(fs[0]) + Events(fs[1..])
  }

  lemma EventsOfOne(f: Forward)
    ensures Events([f]) == Reaches(f)
  {
    assert [f][1..] == [];
  }

  /** `impl as Logger`: only a concrete Serilog Logger is a fast view; a
      ConfiguredLogger is not. */
  function FastViewOf(impl: ILogger): (r: Option<Logger>)
    ensures r.Some? <==> impl.Concrete?
    ensures r.Some? ==> Concrete(r.value) == impl
  {
    if impl.Concrete? then Some(impl.logger) else None
  }

  /** What distinguishes the overloads: zero values, one to three values with
      a generic overload each, or a params array of any length. */
  predicate WellFormed(w: Write) {
    && (w.overload.NoProperties? ==> w.args == [])
    && (w.overload.Properties? ==> 1 <= w.overload.arity <= 3 && |w.args| == w.overload.arity)
  }

  class AotLogger {
    const fastImpl: Option<Logger>
    const impl: ILogger

    constructor(impl: ILogger)
      ensures this.impl == impl && fastImpl == FastViewOf(impl)
    {
      fastImpl := FastViewOf(impl);
      this.impl := impl;
    }

    predicate Valid() {
      fastImpl == FastViewOf(impl)
    }

    /** A Write overload (or a per-level one, which is Write with its own
        level and no exception). Whatever the route, the pipeline gets the
        events a direct write to `impl` would give: the IsEnabled gate only
        spares the params-array call. */
    function Dispatch(w: Write): (r: seq<Forward>)
      requires Valid() && WellFormed(w)
      ensures Events(r) == Emitted(impl, w)
      ensures w.overload.Properties? && fastImpl.Some? ==> r == [ToFast(fastImpl.value, w)]
      ensures w.overload.Properties? && fastImpl.None? ==>
        (r != [] <==> IsEnabled(impl, w.level))
        && (r != [] ==> r == [ToImpl(impl, w.(overload := ParamsArray))]
                        && |r[0].write.args| == w.overload.arity && r[0].write.args == w.args)
      ensures !w.overload.Properties? ==> r == [ToImpl(impl, w)]
    {
      if !w.overload.Properties? then
        EventsOfOne(ToImpl(impl, w));
        [ToImpl(impl, w)]
      else if fastImpl.Some? then
        EventsOfOne(ToFast(fastImpl.value, w));
        [ToFast(fastImpl.value, w)]
      else if IsEnabled(impl, w.level) then
        EventsOfOne(ToImpl(impl, w.(overload := ParamsArray)));
        [ToImpl(impl, w.(overload := ParamsArray))]
      else []
    }

    /** IsEnabled answers for `impl`, and so for the fast view when there is
        one. */
    predicate IsEnabledFor(level: Level)
      requires Valid()
      ensures IsEnabledFor(level) == IsEnabled(impl, level)
      ensures fastImpl.Some? ==> IsEnabledFor(level) == fastImpl.value.IsEnabled(level)
    {
      IsEnabled(impl, level)
    }

    /** ForContext: a new wrapper over impl.ForContext(...), which accepts the
        same levels. Since ForContext of a ConfiguredLogger is a concrete
        logger, the new wrapper has a fast view whenever `impl` is not an
        unknown implementation. */
    method ForContext(item: ContextItem) returns (r: AotLogger)
      requires Valid()
      ensures fresh(r) && r.Valid()
      ensures r.fastImpl.Some? <==> !impl.Other?
      ensures forall level :: IsEnabled(r.impl, level) == IsEnabled(impl, level)
      ensures fastImpl.Some? ==>
        (r.fastImpl.Some? && r.fastImpl.value.ops == fastImpl.value.ops
         && r.fastImpl.value.context == fastImpl.value.context + [item])
    {
      var inner := Serilog.ForContext(impl, item);
      r := new AotLogger(inner);
    }

    /** Dispose: the fast view if there is one, otherwise `impl` if it is
        disposable; a concrete logger is disposed exactly once. */
    method Dispose()
      requires Valid()
      modifies Resources(impl)
      ensures fastImpl.Some? ==> fastImpl.value.disposals == old(fastImpl.value.disposals) + 1
      ensures impl.Other? ==> impl.other.disposals == old(impl.other.disposals) + (if impl.other.disposable then 1 else 0)
      ensures impl.Configured? ==> impl.configured.Disposed(old(impl.configured.isDisposedFlag),
                                                         old(impl.configured.impl.disposals),
                                                         old(impl.configured.log.logger))
    {
      if fastImpl.Some? {
        var fast := fastImpl.value;
        fast.disposals := fast.disposals + 1;
      } else {
        DisposeLogger(impl);
      }
    }
  }
}
