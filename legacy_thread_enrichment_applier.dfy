/** The older thread enrichment applier: the same decision as the newer one,
    written as its own switch, whose error quotes the value as written. */
module LegacyThreadEnrichmentApplier {
  import opened Wrappers
  import opened Primitives
  import opened Configuration
  import opened Errors
  import opened Serilog
  import opened Appliers
  import Current = ThreadEnrichmentApplier

  const EnrichmentName: string := "thread"
  const TypeName: string := "KorneiDontsov.Logging.ThreadEnrichmentApplier"

  /** What Apply adds to the enrichment configuration, or the error it
      throws. */
  function ApplyOps(conf: Section): (r: Result<seq<Op>, Error>)
    ensures conf.Value().None? ==> r == Success([])
    ensures conf.Value().Some? && Lower(conf.Value().value) == "true" ==> r == Success(Current.ThreadEnrichers)
    ensures conf.Value().Some? && Lower(conf.Value().value) == "false" ==> r == Success([])
    ensures conf.Value().Some? && Lower(conf.Value().value) != "true" && Lower(conf.Value().value) != "false"
      ==> r == Failure(ThreadNotTrueOrFalse(conf.path, conf.Value().value))
  {
    match conf.Value()
    case None => Success([])
    case Some(v) =>
      var lowered := Lower(v);
      if lowered == "true" then Success([EnrichWith("ThreadIdEnricher"), EnrichWith("ThreadNameEnricher")])
      else if lowered == "false" then Success([])
      else Failure(ThreadNotTrueOrFalse(conf.path, v))
  }

  function AsApplier(): (a: Applier<Section>)
    ensures a.name == "thread"
  {
    Applier(EnrichmentName, TypeName, ApplyOps)
  }

  /** Apply: the switch over the lower-cased value. */
  method Apply(enrich: LoggerConfiguration, conf: Section) returns (failure: Option<Error>)
    modifies enrich
    ensures failure.None? ==> (ApplyOps(conf).Success? && enrich.ops == old(enrich.ops) + ApplyOps(conf).value)
    ensures failure.Some? ==> (enrich.ops == old(enrich.ops) && ApplyOps(conf) == Failure(failure.value))
  {
    var value := conf.Value();
    if value.None? {
      return None;
    }
    var lowered := Lower(value.value);
    if lowered == "true" {
      enrich.Apply([EnrichWith("ThreadIdEnricher")]);
      enrich.Apply([EnrichWith("ThreadNameEnricher")]);
      return None;
    } else if lowered == "false" {
      return None;
    }
    return Some(ThreadNotTrueOrFalse(conf.path, value.value));
  }

  /** The two revisions accept the same sections and add the same enrichers;
      they fail on the same sections. */
  lemma AgreesWithCurrent(conf: Section)
    ensures ApplyOps(conf).Success? == Current.ApplyOps(conf).Success?
    ensures ApplyOps(conf).Success? ==> ApplyOps(conf).value == Current.ApplyOps(conf).value
  {
  }

  /** Their errors differ: the older one quotes the value as written, the
      newer one lower-cased, and the wording differs. */
  lemma ErrorsDiffer(conf: Section)
    requires conf.Value() == Some("Yes")
    ensures ApplyOps(conf) == Failure(ThreadNotTrueOrFalse(conf.path, "Yes"))
    ensures Current.ApplyOps(conf) == Failure(NotBoolean(conf.path, "yes"))
  {
    assert Lower("Yes") == "yes";
  }
}
