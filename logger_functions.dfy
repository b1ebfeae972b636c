/** MayGetFastImpl: the concrete Serilog logger behind an ILogger, when the
    library can see one. */
module LoggerFunctions {
  import opened Wrappers
  import opened Serilog

  /** A concrete logger is its own fast view and a ConfiguredLogger offers
      its `impl`; any other implementation has none. A fast view, when there
      is one, accepts exactly the levels `l` accepts. */
  function MayGetFastImpl(l: ILogger): (r: Option<Logger>)
    ensures r.Some? <==> !l.Other?
    ensures l.Concrete? ==> r == Some(l.logger)
    ensures r.Some? ==> forall level :: r.value.IsEnabled(level) == IsEnabled(l, level)
  {
    match l
    case Concrete(x) => Some(x)
    case Configured(c) => Some(c.impl)
    case Other(_) => None
  }

  /** The fast view of a fast view is itself: the result is never a
      wrapper. */
  lemma FastImplIsConcrete(l: ILogger)
    requires MayGetFastImpl(l).Some?
    ensures MayGetFastImpl(Concrete(MayGetFastImpl(l).value)) == MayGetFastImpl(l)
  {
  }
}
