/** LoggerProviderCollection: a collection of Microsoft.Extensions.Logging
    providers that only grows, by replacing its array with a longer copy, and
    that disposes all of them when it is disposed. */
module LoggerProviders {
  import opened Wrappers
  import opened Errors

  /** An ILoggerProvider, known by how often it was disposed. */
  class Provider {
    var disposals: nat

    constructor()
      ensures disposals == 0
    {
      disposals := 0;
    }
  }

  class LoggerProviderCollection {
    /** The array behind Providers. */
    var providers: seq<Provider>

    constructor()
      ensures providers == []
    {
      providers := [];
    }

    /** AddProvider: a null provider is an ArgumentNullException naming
        `provider`; otherwise the array is replaced by a copy with the
        provider appended. */
    method AddProvider(provider: Option<Provider>) returns (failure: Option<Error>)
      modifies this
      ensures provider.None? ==> failure == Some(ArgumentNull("provider")) && providers == old(providers)
      ensures provider.Some? ==> failure.None? && providers == old(providers) + [provider.value]
    {
      if provider.None? {
        return Some(ArgumentNull("provider"));
      }
      var existing := providers;
      var added := existing + [provider.value];
      providers := added;
      failure := None;
    }

    /** Dispose: every provider in the array, in order, once per occurrence;
        the array itself stays as it is. Returns the providers in the order
        they were disposed. */
    method Dispose() returns (disposed: seq<Provider>)
      modifies set p | p in providers
      ensures disposed == providers
      ensures forall p :: p in providers ==> p.disposals == old(p.disposals) + multiset(providers)[p]
    {
      disposed := [];
      var i := 0;
      while i < |providers|
        invariant 0 <= i <= |providers|
        invariant disposed == providers[..i]
        invariant forall p :: p in providers ==> p.disposals == old(p.disposals) + multiset(providers[..i])[p]
      {
        var provider := providers[i];
        assert providers[..i + 1] == providers[..i] + [provider];
        provider.disposals := provider.disposals + 1;
        disposed := disposed + [provider];
        i := i + 1;
      }
      assert providers[..i] == providers;
    }
  }
}
