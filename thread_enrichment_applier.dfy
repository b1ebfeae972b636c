/** The newer thread enrichment applier: under the name "thread", a section
    whose value reads as true adds the thread id and thread name enrichers,
    one that reads as false or is absent adds nothing. */
module ThreadEnrichmentApplier {
  import opened Wrappers
  import opened Primitives
  import opened Configuration
  import opened Errors
  import opened Serilog
  import opened Appliers
  import Reads = LoggingConfigurationFunctions

  const EnrichmentName: string := "thread"
  const TypeName: string := "KorneiDontsov.Logging.ThreadEnrichmentApplier"

  /** The two enrichers, in the order they are added. */
  const ThreadEnrichers: seq<Op> := [EnrichWith("ThreadIdEnricher"), EnrichWith("ThreadNameEnricher")]

  /** What Apply adds to the enrichment configuration, or the error of
      ReadBoolean(defaultValue: false). */
  function ApplyOps(conf: Section): (r: Result<seq<Op>, Error>)
    ensures conf.Value().None? ==> r == Success([])
    ensures conf.Value().Some? && Lower(conf.Value().value) == "true" ==> r == Success(ThreadEnrichers)
    ensures conf.Value().Some? && Lower(conf.Value().value) == "false" ==> r == Success([])
    ensures conf.Value().Some? && Lower(conf.Value().value) != "true" && Lower(conf.Value().value) != "false"
      ==> r == Failure(NotBoolean(conf.path, Lower(conf.Value().value)))
  {
    var enabled :- Reads.ReadBoolean(conf, Some(false));
    if enabled then Success(ThreadEnrichers) else Success([])
  }

  /** The applier as the builders see it. */
  function AsApplier(): (a: Applier<Section>)
    ensures a.name == "thread"
  {
    Applier(EnrichmentName, TypeName, ApplyOps)
  }

  /** Apply: adds the enrichers to the enrichment configuration when the
      section reads as true, and nothing otherwise. */
  method Apply(enrich: LoggerConfiguration, conf: Section) returns (failure: Option<Error>)
    modifies enrich
    ensures failure.None? ==> (ApplyOps(conf).Success? && enrich.ops == old(enrich.ops) + ApplyOps(conf).value)
    ensures failure.Some? ==> (enrich.ops == old(enrich.ops) && ApplyOps(conf) == Failure(failure.value))
  {
    var enabled := Reads.ReadBoolean(conf, Some(false));
    if enabled.Failure? {
      return Some(enabled.error);
    }
    if enabled.value {
      enrich.Apply([EnrichWith("ThreadIdEnricher")]);
      enrich.Apply([EnrichWith("ThreadNameEnricher")]);
    }
    return None;
  }

  /** Whatever the section holds, the applier adds both enrichers or none of
      them, and only a value that is not a boolean makes it fail. */
  lemma AllOrNothing(conf: Section)
    ensures ApplyOps(conf).Success? ==> ApplyOps(conf).value == [] || ApplyOps(conf).value == ThreadEnrichers
    ensures ApplyOps(conf).Failure? <==> Reads.BooleanText(conf.Value().GetOr("false")).None?
  {
  }
}
