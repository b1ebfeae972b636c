/** The extension points both pipeline builders dispatch to: profile,
    enrichment and filter appliers, each known by a name, by its runtime type
    name, and by what applying it to a configuration section adds to the
    logger configuration. Also the two loops every builder runs over them:
    the registry loop, which keys appliers by lower-cased name and rejects a
    second applier for a name, and the dispatch loop, which applies one
    applier per configuration child and stops at the first failure. */
module Appliers {
  import opened Wrappers
  import opened Primitives
  import opened Errors
  import opened Serilog

  /** An ILoggingProfileApplier (C is the profile view), an
      ILoggingEnrichmentApplier or an ILoggingFilterApplier (C is a section):
      its profileTypeName, enrichmentName or filterName; its GetType(), as
      printed; and the steps Apply adds, or the exception it throws. */
  datatype Applier<!C> = Applier(name: string, typeName: string, apply: C -> Result<seq<Op>, Error>)

  // ---------------------------------------------------------------------------
  // The registry loop

  /** The dictionary the registry loop fills, defined over the appliers taken
      so far: the next applier is added under its lower-cased name, or fails
      naming itself, the name and the applier that already holds it. */
  function RegistryOf<C>(appliers: seq<Applier<C>>, kind: ExtensionKind): Result<map<string, Applier<C>>, Error>
    decreases |appliers|
  {
    if appliers == [] then Success(map[])
    else
      var prior :- RegistryOf(appliers[..|appliers| - 1], kind);
      var last := appliers[|appliers| - 1];
      var name := Lower(last.name);
      if name in prior then Failure(Conflict(kind, name, last.typeName, prior[name].typeName))
      else Success(prior[name := last])
  }

  /** No two appliers share a name, ignoring case. */
  predicate DistinctNames<C>(appliers: seq<Applier<C>>) {
    forall i, j :: 0 <= i < j < |appliers| ==> Lower(appliers[i].name) != Lower(appliers[j].name)
  }

  /** A registry keys every applier under its own lower-cased name. */
  ghost predicate Registers<C>(m: map<string, Applier<C>>, appliers: seq<Applier<C>>) {
    && (forall k :: k in m <==> exists i :: 0 <= i < |appliers| && Lower(appliers[i].name) == k)
    && (forall i :: 0 <= i < |appliers| ==> Lower(appliers[i].name) in m && m[Lower(appliers[i].name)] == appliers[i])
  }

  /** One turn of the registry loop, unfolded. */
  lemma RegistryOfUnfold<C>(appliers: seq<Applier<C>>, kind: ExtensionKind)
    requires appliers != []
    ensures var front := appliers[..|appliers| - 1];
      var last := appliers[|appliers| - 1];
      RegistryOf(appliers, kind)
      == match RegistryOf(front, kind)
         case Failure(e) => Failure(e)
         case Success(m) =>
           if Lower(last.name) in m then Failure(Conflict(kind, Lower(last.name), last.typeName, m[Lower(last.name)].typeName))
           else Success(m[Lower(last.name) := last])
  {
  }

  /** Adding the last applier under a fresh name to a registry of the ones
      before it gives a registry of all of them. */
  lemma RegistersSnoc<C>(m: map<string, Applier<C>>, appliers: seq<Applier<C>>)
    requires appliers != []
    requires Registers(m, appliers[..|appliers| - 1]) && Lower(appliers[|appliers| - 1].name) !in m
    ensures Registers(m[Lower(appliers[|appliers| - 1].name) := appliers[|appliers| - 1]], appliers)
  {
    var n := |appliers| - 1;
    var front := appliers[..n];
    var name := Lower(appliers[n].name);
    var m' := m[name := appliers[n]];
    forall i | 0 <= i < |appliers|
      ensures Lower(appliers[i].name) in m' && m'[Lower(appliers[i].name)] == appliers[i]
    {
      if i < n {
        assert front[i] == appliers[i];
      }
    }
    forall k | k in m'
      ensures exists i :: 0 <= i < |appliers| && Lower(appliers[i].name) == k
    {
      if k == name {
        assert Lower(appliers[n].name) == k;
      } else {
        var i :| 0 <= i < |front| && Lower(front[i].name) == k;
        assert Lower(appliers[i].name) == k;
      }
    }
  }

  /** A built registry keys every applier under its own lower-cased name. */
  lemma {:induction false} RegistryOfRegisters<C>(appliers: seq<Applier<C>>, kind: ExtensionKind)
    requires RegistryOf(appliers, kind).Success?
    ensures Registers(RegistryOf(appliers, kind).value, appliers)
    decreases |appliers|
  {
    if appliers != [] {
      var front := appliers[..|appliers| - 1];
      RegistryOfUnfold(appliers, kind);
      RegistryOfRegisters(front, kind);
      RegistersSnoc(RegistryOf(front, kind).value, appliers);
    }
  }

  /** Names stay distinct with one more applier exactly when they were
      distinct before and the new name is not among them. */
  lemma DistinctNamesSnoc<C>(appliers: seq<Applier<C>>)
    requires appliers != []
    ensures var n := |appliers| - 1;
      DistinctNames(appliers)
      <==> DistinctNames(appliers[..n]) && forall i :: 0 <= i < n ==> Lower(appliers[i].name) != Lower(appliers[n].name)
  {
    var n := |appliers| - 1;
    var front := appliers[..n];
    assert forall i :: 0 <= i < n ==> front[i] == appliers[i];
    if DistinctNames(front) && forall i :: 0 <= i < n ==> Lower(appliers[i].name) != Lower(appliers[n].name) {
      forall i, j | 0 <= i < j < |appliers|
        ensures Lower(appliers[i].name) != Lower(appliers[j].name)
      {
        if j < n {
          assert Lower(front[i].name) != Lower(front[j].name);
        }
      }
    }
  }

  /** A registry over the appliers before `appliers[n]` holds its name
      exactly when one of them has it. */
  lemma RegisteredBefore<C>(m: map<string, Applier<C>>, appliers: seq<Applier<C>>, n: nat)
    requires n < |appliers| && Registers(m, appliers[..n])
    ensures Lower(appliers[n].name) in m <==> exists i :: 0 <= i < n && Lower(appliers[i].name) == Lower(appliers[n].name)
  {
    var front := appliers[..n];
    var name := Lower(appliers[n].name);
    if name in m {
      var i :| 0 <= i < |front| && Lower(front[i].name) == name;
      assert Lower(appliers[i].name) == name;
    }
    if exists i :: 0 <= i < n && Lower(appliers[i].name) == name {
      var i :| 0 <= i < n && Lower(appliers[i].name) == name;
      assert Lower(front[i].name) == name;
    }
  }

  /** The registry is built exactly when the lower-cased names are
      distinct. */
  lemma {:induction false} RegistryOfSucceedsIffDistinct<C>(appliers: seq<Applier<C>>, kind: ExtensionKind)
    ensures RegistryOf(appliers, kind).Success? <==> DistinctNames(appliers)
    decreases |appliers|
  {
    if appliers != [] {
      var n := |appliers| - 1;
      var front := appliers[..n];
      RegistryOfUnfold(appliers, kind);
      RegistryOfSucceedsIffDistinct(front, kind);
      DistinctNamesSnoc(appliers);
      if RegistryOf(front, kind).Success? {
        RegistryOfRegisters(front, kind);
        RegisteredBefore(RegistryOf(front, kind).value, appliers, n);
      }
    }
  }

  /** A conflict names the first applier whose name is taken, the name, and
      the earlier applier that took it. */
  lemma {:induction false} RegistryOfConflict<C>(appliers: seq<Applier<C>>, kind: ExtensionKind)
    requires RegistryOf(appliers, kind).Failure?
    ensures exists i, j :: (0 <= i < j < |appliers| && DistinctNames(appliers[..j])
        && Lower(appliers[i].name) == Lower(appliers[j].name)
        && RegistryOf(appliers, kind).error
           == Conflict(kind, Lower(appliers[j].name), appliers[j].typeName, appliers[i].typeName))
    decreases |appliers|
  {
    var n := |appliers| - 1;
    var front := appliers[..n];
    assert forall i :: 0 <= i < n ==> front[i] == appliers[i];
    if RegistryOf(front, kind).Failure? {
      RegistryOfConflict(front, kind);
      var i, j :| 0 <= i < j < |front| && DistinctNames(front[..j])
        && Lower(front[i].name) == Lower(front[j].name)
        && RegistryOf(front, kind).error == Conflict(kind, Lower(front[j].name), front[j].typeName, front[i].typeName);
      assert front[..j] == appliers[..j];
    } else {
      RegistryOfRegisters(front, kind);
      RegistryOfSucceedsIffDistinct(front, kind);
      var m := RegistryOf(front, kind).value;
      var name := Lower(appliers[n].name);
      var i :| 0 <= i < n && Lower(front[i].name) == name;
      assert m[name] == appliers[i];
      assert front == appliers[..n];
    }
  }

  /** Once the appliers taken so far conflict, the loop has stopped: later
      appliers do not change the error. */
  lemma {:induction false} RegistryOfFailureStays<C>(appliers: seq<Applier<C>>, k: nat, kind: ExtensionKind)
    requires k <= |appliers| && RegistryOf(appliers[..k], kind).Failure?
    ensures RegistryOf(appliers, kind) == Failure(RegistryOf(appliers[..k], kind).error)
    decreases |appliers| - k
  {
    if k < |appliers| {
      assert appliers[..k + 1][..k] == appliers[..k];
      RegistryOfFailureStays(appliers, k + 1, kind);
    } else {
      assert appliers[..k] == appliers;
    }
  }

  /** The registry loop: each applier, in order, is added under its
      lower-cased name unless the name is taken. */
  method BuildRegistry<C>(appliers: seq<Applier<C>>, kind: ExtensionKind) returns (r: Result<map<string, Applier<C>>, Error>)
    ensures r == RegistryOf(appliers, kind)
  {
    var m: map<string, Applier<C>> := map[];
    var i := 0;
    while i < |appliers|
      invariant 0 <= i <= |appliers|
      invariant RegistryOf(appliers[..i], kind) == Success(m)
    {
      assert appliers[..i + 1][..i] == appliers[..i];
      var name := Lower(appliers[i].name);
      if name in m {
        RegistryOfFailureStays(appliers, i + 1, kind);
        return Failure(Conflict(kind, name, appliers[i].typeName, m[name].typeName));
      }
      m := m[name := appliers[i]];
      i := i + 1;
    }
    assert appliers[..i] == appliers;
    return Success(m);
  }

  // ---------------------------------------------------------------------------
  // The dispatch loops

  /** What a builder leaves in its logger configuration: the steps applied,
      and the exception that stopped it, if one did. */
  datatype Run = Run(ops: seq<Op>, failure: Option<Error>) {
    /** This run followed by `next`, which only starts if this one did not
        fail. */
    function Then(next: Run): (r: Run)
      ensures failure.Some? ==> r == this
      ensures failure.None? ==> r.ops == ops + next.ops && r.failure == next.failure
    {
      if failure.Some? then this else Run(ops + next.ops, next.failure)
    }
  }

  /** A run of one step that either adds its steps or throws before adding
      any. */
  function RunOf(r: Result<seq<Op>, Error>): Run {
    match r
    case Success(ops) => Run(ops, None)
    case Failure(e) => Run([], Some(e))
  }

  /** A dispatch loop over `items`, one step each, in order: it stops at the
      first step that fails. */
  function Fold<T>(items: seq<T>, step: T -> Result<seq<Op>, Error>): Run
    decreases |items|
  {
    if items == [] then Run([], None)
    else Fold(items[..|items| - 1], step).Then(RunOf(step(items[|items| - 1])))
  }

  /** Running one run after another groups either way. */
  lemma ThenAssociates(a: Run, b: Run, c: Run)
    ensures a.Then(b).Then(c) == a.Then(b.Then(c))
  {
  }

  /** A loop over two stretches of items is the loop over the first, then,
      if that did not fail, the loop over the second. */
  lemma {:induction false} FoldConcat<T>(a: seq<T>, b: seq<T>, step: T -> Result<seq<Op>, Error>)
    ensures Fold(a + b, step) == Fold(a, step).Then(Fold(b, step))
    decreases |b|
  {
    if b == [] {
      assert a + b == a;
    } else {
      var b' := b[..|b| - 1];
      assert (a + b)[..|a + b| - 1] == a + b';
      assert (a + b)[|a + b| - 1] == b[|b| - 1];
      FoldConcat(a, b', step);
      ThenAssociates(Fold(a, step), Fold(b', step), RunOf(step(b[|b| - 1])));
    }
  }

  /** Each item invokes its step exactly once, in item order, and the first
      failing step ends the loop with the steps of the items before it in
      place and its own error. */
  lemma {:induction false} FoldFirstFailure<T>(items: seq<T>, k: nat, step: T -> Result<seq<Op>, Error>)
    requires k < |items| && Fold(items[..k], step).failure.None? && step(items[k]).Failure?
    ensures Fold(items, step) == Run(Fold(items[..k], step).ops, Some(step(items[k]).error))
  {
    assert items == items[..k] + ([items[k]] + items[k + 1..]);
    FoldConcat(items[..k], [items[k]] + items[k + 1..], step);
    FoldConcat([items[k]], items[k + 1..], step);
    assert [items[k]][..0] == [];
  }

  /** When every step succeeds the loop succeeds, each item's steps following
      those of the items before it. */
  lemma {:induction false} FoldAllSucceed<T>(items: seq<T>, step: T -> Result<seq<Op>, Error>)
    requires forall i :: 0 <= i < |items| ==> step(items[i]).Success?
    ensures Fold(items, step).failure.None?
    ensures forall k :: 0 <= k < |items| ==>
      Fold(items[..k + 1], step).ops == Fold(items[..k], step).ops + step(items[k]).value
    decreases |items|
  {
    if items != [] {
      var front := items[..|items| - 1];
      FoldAllSucceed(front, step);
      forall k | 0 <= k < |items|
        ensures Fold(items[..k + 1], step).ops == Fold(items[..k], step).ops + step(items[k]).value
      {
        assert items[..k + 1][..k] == items[..k];
        PrefixSucceeds(items, k, step);
      }
    }
  }

  lemma {:induction false} PrefixSucceeds<T>(items: seq<T>, k: nat, step: T -> Result<seq<Op>, Error>)
    requires k <= |items|
    requires forall i :: 0 <= i < |items| ==> step(items[i]).Success?
    ensures Fold(items[..k], step).failure.None?
    decreases k
  {
    if k > 0 {
      assert items[..k][..k - 1] == items[..k - 1];
      PrefixSucceeds(items, k - 1, step);
    }
  }

  /** Once a loop over a prefix has failed, the rest of the items are never
      looked at. */
  lemma {:induction false} FoldFailureStays<T>(items: seq<T>, k: nat, step: T -> Result<seq<Op>, Error>)
    requires k <= |items| && Fold(items[..k], step).failure.Some?
    ensures Fold(items, step) == Fold(items[..k], step)
  {
    assert items == items[..k] + items[k..];
    FoldConcat(items[..k], items[k..], step);
  }

  /** The dispatch loop: each item, in order, has its step applied to the
      logger configuration; the first failing step ends the loop. */
  method ApplyAll<T>(loggerConf: LoggerConfiguration, items: seq<T>, step: T -> Result<seq<Op>, Error>)
    returns (failure: Option<Error>)
    modifies loggerConf
    ensures loggerConf.ops == old(loggerConf.ops) + Fold(items, step).ops
    ensures failure == Fold(items, step).failure
  {
    var i := 0;
    while i < |items|
      invariant 0 <= i <= |items|
      invariant Fold(items[..i], step).failure.None?
      invariant loggerConf.ops == old(loggerConf.ops) + Fold(items[..i], step).ops
    {
      assert items[..i + 1][..i] == items[..i];
      var r := step(items[i]);
      if r.Failure? {
        FoldFailureStays(items, i + 1, step);
        return Some(r.error);
      }
      loggerConf.Apply(r.value);
      i := i + 1;
    }
    assert items[..i] == items;
    return None;
  }
}
