/** What the rewriting of `prefetch_related()` lookups promises, and the rewriting in place. */
module PrefetchResults {
  import opened Gucs
  import opened Prefetches
  import opened PrefetchSoundness

  lemma StartIsSound(reg: Registry, rel: Path -> string, model: string)
    ensures Inv(reg, rel, [], Scoping({}, map[[] := model]), StartRun(model).done)
    ensures Image(reg, StartRun(model)) == StartRun(model)
  {
  }

  /** The rewritten lookups make Django run the queries of the caller's lookups, each once, in their
      order and with their querysets; only those through the base manager onto a protected model,
      which the caller gave no queryset, get the tenant's filter. They are refused where the caller's
      would be. */
  lemma RewritingScopesTheRun(reg: Registry, rel: Path -> string, lookups: seq<Lookup>, model: string)
    requires WellFormed(lookups) && LegalAll(reg, rel, [], lookups, StartRun(model))
    ensures WellFormed(ScopedLookups(reg, lookups, model))
    ensures RunAll(reg, [], ScopedLookups(reg, lookups, model), StartRun(model)) ==
              Image(reg, RunAll(reg, [], lookups, StartRun(model)))
  {
    StartIsSound(reg, rel, model);
    AllSim(reg, rel, [], lookups, model, Scoping({}, map[[] := model]), StartRun(model));
    AllAreKept(reg, [], lookups, model, Scoping({}, map[[] := model]));
  }

  /** Complete: no query of the rewritten lookups reads a protected model through the base manager
      without the tenant's filter, at the end of known models. */
  lemma NothingIsUnfiltered(reg: Registry, rel: Path -> string, lookups: seq<Lookup>, model: string, f: Fetch)
    requires WellFormed(lookups) && LegalAll(reg, rel, [], lookups, StartRun(model))
    requires WellFormed(ScopedLookups(reg, lookups, model))
    requires f in RunAll(reg, [], ScopedLookups(reg, lookups, model), StartRun(model)).fetches
    ensures !NeedsScope(reg, f)
  {
    RewritingScopesTheRun(reg, rel, lookups, model);
    var r := RunAll(reg, [], lookups, StartRun(model));
    var i :| 0 <= i < |r.fetches| && Image(reg, r).fetches[i] == f;
    assert f == Scope(reg, r.fetches[i]);
  }

  /** Lazy: lookups that fetch nothing to filter are returned as they are. */
  lemma NothingToScope(reg: Registry, rel: Path -> string, lookups: seq<Lookup>, model: string)
    requires WellFormed(lookups) && LegalAll(reg, rel, [], lookups, StartRun(model))
    requires !RunAll(reg, [], lookups, StartRun(model)).failed
    requires !Scopes(reg, RunAll(reg, [], lookups, StartRun(model)))
    ensures ScopedLookups(reg, lookups, model) == lookups
  {
    StartIsSound(reg, rel, model);
    AllSim(reg, rel, [], lookups, model, Scoping({}, map[[] := model]), StartRun(model));
  }

  // ---- No path is fetched twice ----

  ghost predicate Once(r: Run) {
    && (forall i :: 0 <= i < |r.fetches| ==> r.fetches[i].path in r.done)
    && (forall i, j :: 0 <= i < j < |r.fetches| ==> r.fetches[i].path != r.fetches[j].path)
  }

  lemma {:induction false} LevelsFetchOnce(reg: Registry, prefix: Path, l: Lookup, n: nat, r: Run)
    requires l.hops != [] && n <= |l.hops| && Once(r)
    ensures Once(FetchLevels(reg, prefix, l, n, r))
  {
    if n > 0 {
      LevelsFetchOnce(reg, prefix, l, n - 1, r);
    }
  }

  lemma {:induction false} LookupFetchesOnce(reg: Registry, prefix: Path, l: Lookup, r: Run)
    requires WellFormedLookup(l) && Once(r)
    ensures Once(RunLookup(reg, prefix, l, r))
    decreases l, 1
  {
    LevelsFetchOnce(reg, prefix, l, |l.hops|, r);
    if l.query.Some? && l.query.value.Caller? {
      AllFetchOnce(reg, prefix + To(l), l.query.value.lookups, FetchLevels(reg, prefix, l, |l.hops|, r));
    }
  }

  lemma {:induction false} AllFetchOnce(reg: Registry, prefix: Path, lookups: seq<Lookup>, r: Run)
    requires WellFormed(lookups) && Once(r)
    ensures Once(RunAll(reg, prefix, lookups, r))
    decreases lookups
  {
    if lookups != [] {
      var init := lookups[..|lookups| - 1];
      AllFetchOnce(reg, prefix, init, r);
      LookupFetchesOnce(reg, prefix, lookups[|lookups| - 1], RunAll(reg, prefix, init, r));
    }
  }

  /** Each path is fetched once, so each hop is filtered once, before anything uses it. */
  lemma EachPathIsFetchedOnce(reg: Registry, lookups: seq<Lookup>, model: string)
    requires WellFormed(lookups) && WellFormed(ScopedLookups(reg, lookups, model))
    ensures Once(RunAll(reg, [], ScopedLookups(reg, lookups, model), StartRun(model)))
  {
    AllFetchOnce(reg, [], ScopedLookups(reg, lookups, model), StartRun(model));
  }

  // ---- No second queryset ----

  /** Every lookup with a queryset, at any depth, reaches a path that is not fetched when it runs. */
  ghost predicate FreshQuerysets(reg: Registry, prefix: Path, lookups: seq<Lookup>, r: Run)
    requires WellFormed(lookups)
    decreases lookups
  {
    lookups == [] ||
    var init := lookups[..|lookups| - 1];
    FreshQuerysets(reg, prefix, init, r)
    && FreshQueryset(reg, prefix, lookups[|lookups| - 1], RunAll(reg, prefix, init, r))
  }

  ghost predicate FreshQueryset(reg: Registry, prefix: Path, l: Lookup, r: Run)
    requires WellFormedLookup(l)
    decreases l, 1
  {
    l.query.Some? ==>
      && prefix + To(l) !in r.done
      && (l.query.value.Caller? ==>
            FreshQuerysets(reg, prefix + To(l), l.query.value.lookups, FetchLevels(reg, prefix, l, |l.hops|, r)))
  }

  lemma {:induction false} NotRefusedIsFresh(reg: Registry, prefix: Path, lookups: seq<Lookup>, r: Run)
    requires WellFormed(lookups) && !RunAll(reg, prefix, lookups, r).failed
    ensures FreshQuerysets(reg, prefix, lookups, r) && !r.failed
    decreases lookups
  {
    AllRunBelow(reg, prefix, lookups, r);
    if lookups != [] {
      var init, last := lookups[..|lookups| - 1], lookups[|lookups| - 1];
      LookupRunsBelow(reg, prefix, last, RunAll(reg, prefix, init, r));
      NotRefusedIsFresh(reg, prefix, init, r);
      NotRefusedLookupIsFresh(reg, prefix, last, RunAll(reg, prefix, init, r));
    }
  }

  lemma {:induction false} NotRefusedLookupIsFresh(reg: Registry, prefix: Path, l: Lookup, r: Run)
    requires WellFormedLookup(l) && !r.failed && !RunLookup(reg, prefix, l, r).failed
    ensures FreshQueryset(reg, prefix, l, r)
    decreases l, 1
  {
    if l.query.Some? && l.query.value.Caller? {
      NotRefusedIsFresh(reg, prefix + To(l), l.query.value.lookups, FetchLevels(reg, prefix, l, |l.hops|, r));
    }
  }

  /** The rewriting gives no queryset to a path that is fetched already, or has one already: where the
      caller's lookups would not be refused, each queryset of the rewritten ones, inserted, added or the
      caller's, at any depth, comes before anything fetches its path. */
  lemma RewritingAddsNoSecondQueryset(reg: Registry, rel: Path -> string, lookups: seq<Lookup>, model: string)
    requires WellFormed(lookups) && LegalAll(reg, rel, [], lookups, StartRun(model))
    requires !RunAll(reg, [], lookups, StartRun(model)).failed
    ensures WellFormed(ScopedLookups(reg, lookups, model))
    ensures FreshQuerysets(reg, [], ScopedLookups(reg, lookups, model), StartRun(model))
  {
    RewritingScopesTheRun(reg, rel, lookups, model);
    NotRefusedIsFresh(reg, [], ScopedLookups(reg, lookups, model), StartRun(model));
  }

  // ---- The caller's lookups ----

  /** Where the `i`th of the caller's lookups is in what is collected. */
  function Position(reg: Registry, prefix: Path, lookups: seq<Lookup>, model: string, s: Scoping, i: nat): int
    requires WellFormed(lookups) && i < |lookups|
  {
    |ScopeAll(reg, prefix, lookups[..i + 1], model, s).1| - 1
  }

  lemma {:induction false} CollectedSoFar(reg: Registry, prefix: Path, lookups: seq<Lookup>, model: string, s: Scoping,
                                          i: nat)
    requires WellFormed(lookups) && i <= |lookups|
    ensures ScopeAll(reg, prefix, lookups[..i], model, s).1 <= ScopeAll(reg, prefix, lookups, model, s).1
    decreases |lookups|
  {
    if i == |lookups| {
      assert lookups[..i] == lookups;
    } else {
      var init := lookups[..|lookups| - 1];
      CollectedSoFar(reg, prefix, init, model, s, i);
      assert init[..i] == lookups[..i];
    }
  }

  /** The caller's lookups keep their order, path and `to_attr`, and their own querysets; what lies
      between them are the inserted ones. */
  lemma CallersLookupsKeepTheirOrder(reg: Registry, prefix: Path, lookups: seq<Lookup>, model: string, s: Scoping,
                                     i: nat)
    requires WellFormed(lookups) && i < |lookups|
    ensures var scoped := ScopeAll(reg, prefix, lookups, model, s).1;
            var at := Position(reg, prefix, lookups, model, s, i);
            && 0 <= at < |scoped| && (i > 0 ==> Position(reg, prefix, lookups, model, s, i - 1) < at)
            && scoped[at].hops == lookups[i].hops && scoped[at].toAttr == lookups[i].toAttr
            && (lookups[i].query.Some? ==>
                  scoped[at].query.Some? && scoped[at].query.value.model == lookups[i].query.value.model)
  {
    var upTo := lookups[..i + 1];
    CollectedSoFar(reg, prefix, lookups, model, s, i + 1);
    assert upTo[..|upTo| - 1] == lookups[..i] && upTo[i] == lookups[i];
    LookupIsKept(reg, prefix, lookups[i], model, ScopeAll(reg, prefix, lookups[..i], model, s).0);
    if i > 0 {
      assert lookups[..i - 1 + 1] == lookups[..i];
    }
  }

  // ---- Two relations in one `to_attr` ----

  /** A lookup of one hop, stored in `attr`. */
  function StoredIn(name: string, attr: string): Lookup {
    Lookup([name], Some(attr), None)
  }

  lemma ScopeOneMore(reg: Registry, prefix: Path, init: seq<Lookup>, l: Lookup, model: string, s: Scoping)
    requires WellFormed(init) && WellFormedLookup(l)
    ensures var (before, scoped, changed) := ScopeAll(reg, prefix, init, model, s);
            var one := ScopeLookup(reg, prefix, l, model, before);
            && WellFormed(init + [l])
            && ScopeAll(reg, prefix, init + [l], model, s) ==
                (one.state, scoped + one.inserted + [one.result], changed || one.changed)
  {
    assert (init + [l])[..|init|] == init;
  }

  lemma OneHop(name: string, attr: string, query: Option<Query>)
    ensures var l := Lookup([name], Some(attr), query);
            [] + To(l) == [attr] && At([], l, 0) == [attr]
  {
    var l := Lookup([name], Some(attr), query);
    AtIsDeeper([], l, 0);
    assert To(l) == [attr];
  }

  /** A lookup of one hop, not fetched before: what is fetched, and what the rewriting makes of it. */
  lemma FirstStored(reg: Registry, model: string, name: string, attr: string)
    requires Hop(reg, Some(model), name).Some?
    ensures var l, s := StoredIn(name, attr), Scoping({}, map[[] := model]);
            var relation := Hop(reg, Some(model), name).value;
            var needs := Needs(reg, Some(relation), relation.target);
            var one := ScopeLookup(reg, [], l, model, s);
            && one.inserted == [] && one.changed == needs && one.result.hops == [name]
            && one.result.toAttr == Some(attr)
            && one.result.query == (if needs then Some(TenantRows(relation.target)) else None)
            && one.state == Scoping(if needs then {[attr]} else {}, map[[] := model, [attr] := relation.target])
  {
    var l, s := StoredIn(name, attr), Scoping({}, map[[] := model]);
    OneHop(name, attr, None);
    assert ScopeHops(reg, [], l, model, 0, s) == Hops(s, [], Some(model), false);
    var target := Hop(reg, Some(model), name).value.target;
    assert s.targets[[attr] := target] == map[[] := model, [attr] := target];
    assert {} + {[attr]} == {[attr]};
  }

  lemma StoredIsFetched(reg: Registry, model: string, l: Lookup, attr: string)
    requires |l.hops| == 1 && l.toAttr == Some(attr) && (l.query.Some? ==> l.query.value.TenantRows?)
    ensures !RunLookup(reg, [], l, StartRun(model)).failed && [attr] in RunLookup(reg, [], l, StartRun(model)).done
  {
    OneHop(l.hops[0], attr, l.query);
    assert l == Lookup([l.hops[0]], Some(attr), l.query);
    LevelsFetch(reg, [], l, 1, StartRun(model));
  }

  lemma StoredAgain(reg: Registry, l: Lookup, attr: string, r: Run)
    requires WellFormedLookup(l) && |l.hops| == 1 && l.toAttr == Some(attr) && !r.failed && [attr] in r.done
    ensures RunLookup(reg, [], l, r).failed <==> l.query.Some?
  {
    OneHop(l.hops[0], attr, l.query);
    assert l == Lookup([l.hops[0]], Some(attr), l.query);
  }

  lemma RunPair(reg: Registry, l1: Lookup, l2: Lookup, r: Run)
    requires WellFormedLookup(l1) && WellFormedLookup(l2)
    ensures WellFormed([l1, l2]) && RunAll(reg, [], [l1, l2], r) == RunLookup(reg, [], l2, RunLookup(reg, [], l1, r))
  {
    RunOneMore(reg, [], [], l1, r);
    RunOneMore(reg, [], [l1], l2, r);
    assert [] + [l1] == [l1] && [l1] + [l2] == [l1, l2];
  }

  /** Two lookups stored in one attribute are refused exactly when the second one has a queryset. */
  lemma StoredTwiceRuns(reg: Registry, model: string, l1: Lookup, l2: Lookup, attr: string)
    requires |l1.hops| == |l2.hops| == 1 && l1.toAttr == l2.toAttr == Some(attr)
    requires (l1.query.Some? ==> l1.query.value.TenantRows?) && (l2.query.Some? ==> l2.query.value.TenantRows?)
    ensures RunAll(reg, [], [l1, l2], StartRun(model)).failed <==> l2.query.Some?
  {
    StoredIsFetched(reg, model, l1, attr);
    StoredAgain(reg, l2, attr, RunLookup(reg, [], l1, StartRun(model)));
    RunPair(reg, l1, l2, StartRun(model));
  }

  /** Whether a second lookup, stored where a first one is, gets a queryset. */
  lemma SecondStored(reg: Registry, model: string, name: string, attr: string, target: string, marked: bool)
    requires Hop(reg, Some(model), name).Some?
    ensures var l := StoredIn(name, attr);
            var s := Scoping(if marked then {[attr]} else {}, map[[] := model, [attr] := target]);
            var one := ScopeLookup(reg, [], l, model, s);
            var needs := Needs(reg, Hop(reg, Some(model), name), target) && !marked;
            && one.inserted == [] && one.changed == needs && one.result.hops == [name]
            && one.result.toAttr == Some(attr)
            && one.result.query == if needs then Some(TenantRows(target)) else None
  {
    var l := StoredIn(name, attr);
    var s := Scoping(if marked then {[attr]} else {}, map[[] := model, [attr] := target]);
    OneHop(name, attr, None);
    assert ScopeHops(reg, [], l, model, 0, s) == Hops(s, [], Some(model), false);
  }

  lemma ScopedPair(reg: Registry, model: string, l1: Lookup, l2: Lookup)
    requires WellFormedLookup(l1) && WellFormedLookup(l2)
    requires var one := ScopeLookup(reg, [], l1, model, Scoping({}, map[[] := model]));
             one.inserted == [] && ScopeLookup(reg, [], l2, model, one.state).inserted == []
    ensures WellFormed([l1, l2])
    ensures var one := ScopeLookup(reg, [], l1, model, Scoping({}, map[[] := model]));
            ScopedLookups(reg, [l1, l2], model) == [one.result, ScopeLookup(reg, [], l2, model, one.state).result]
  {
    var s := Scoping({}, map[[] := model]);
    var one := ScopeLookup(reg, [], l1, model, s);
    var two := ScopeLookup(reg, [], l2, model, one.state);
    LookupIsKept(reg, [], l1, model, s);
    LookupIsKept(reg, [], l2, model, one.state);
    ScopeOneMore(reg, [], [], l1, model, s);
    ScopeOneMore(reg, [], [l1], l2, model, s);
    assert [] + [l1] == [l1] && [l1] + [l2] == [l1, l2];
    assert [] + one.inserted + [one.result] == [one.result];
    assert [one.result] + two.inserted + [two.result] == [one.result, two.result];
  }

  lemma ScopeStoredTwice(reg: Registry, model: string, first: string, second: string, attr: string)
    returns (result1: Lookup, result2: Lookup)
    requires Hop(reg, Some(model), first).Some? && Hop(reg, Some(model), second).Some?
    ensures ScopedLookups(reg, [StoredIn(first, attr), StoredIn(second, attr)], model) == [result1, result2]
    ensures |result1.hops| == |result2.hops| == 1 && result1.toAttr == result2.toAttr == Some(attr)
    ensures (result1.query.Some? ==> result1.query.value.TenantRows?)
    ensures (result2.query.Some? ==> result2.query.value.TenantRows?)
    ensures var fetched, relation := Hop(reg, Some(model), first).value, Hop(reg, Some(model), second).value;
            result2.query.Some? <==> relation.unscoped && fetched.target in reg.protected && !fetched.unscoped
  {
    var l1, l2, s := StoredIn(first, attr), StoredIn(second, attr), Scoping({}, map[[] := model]);
    var fetched := Hop(reg, Some(model), first).value;
    FirstStored(reg, model, first, attr);
    SecondStored(reg, model, second, attr, fetched.target, Needs(reg, Some(fetched), fetched.target));
    ScopedPair(reg, model, l1, l2);
    result1 := ScopeLookup(reg, [], l1, model, s).result;
    result2 := ScopeLookup(reg, [], l2, model, ScopeLookup(reg, [], l1, model, s).state).result;
  }

  /** Two relations stored in one `to_attr`: as the caller wrote them the second lookup fetches nothing.
      Rewritten, Django refuses it, if and only if it goes through the base manager, what the first one
      fetched is protected, and the first one was given no filter. */
  lemma SharedToAttrIsRefusedIff(reg: Registry, model: string, first: string, second: string, attr: string)
    requires Hop(reg, Some(model), first).Some? && Hop(reg, Some(model), second).Some?
    ensures var lookups := [StoredIn(first, attr), StoredIn(second, attr)];
            var fetched, relation := Hop(reg, Some(model), first).value, Hop(reg, Some(model), second).value;
            && WellFormed(lookups) && WellFormed(ScopedLookups(reg, lookups, model))
            && !RunAll(reg, [], lookups, StartRun(model)).failed
            && (RunAll(reg, [], ScopedLookups(reg, lookups, model), StartRun(model)).failed <==>
                  relation.unscoped && fetched.target in reg.protected && !fetched.unscoped)
  {
    var l1, l2 := StoredIn(first, attr), StoredIn(second, attr);
    StoredTwiceRuns(reg, model, l1, l2, attr);
    var result1, result2 := ScopeStoredTwice(reg, model, first, second, attr);
    StoredTwiceRuns(reg, model, result1, result2, attr);
  }

  // ---- In place ----

  /** The `with_queryset` set and the `targets` dictionary that all levels of the rewriting share. */
  class PrefetchScope {
    const reg: Registry
    var withQuery: set<Path>
    var targets: map<Path, string>

    ghost function State(): Scoping
      reads this
    {
      Scoping(withQuery, targets)
    }

    constructor (reg: Registry, model: string)
      ensures this.reg == reg && State() == Scoping({}, map[[] := model])
    {
      this.reg, withQuery, targets := reg, {}, map[[] := model];
    }

    /** The loop over the hops of one lookup. */
    method ScopeEachHop(prefix: Path, l: Lookup, model: string)
      returns (inserted: seq<Lookup>, current: Option<string>, scopeLeaf: bool)
      requires l.hops != []
      modifies this
      ensures Hops(State(), inserted, current, scopeLeaf) == ScopeHops(reg, prefix, l, model, |l.hops|, old(State()))
    {
      inserted, current, scopeLeaf := [], Some(model), false;
      var level := 0;
      while level < |l.hops|
        invariant 0 <= level <= |l.hops|
        invariant Hops(State(), inserted, current, scopeLeaf) == ScopeHops(reg, prefix, l, model, level, old(State()))
      {
        if current.Some? {
          var p := At(prefix, l, level);
          var relation := Hop(reg, current, l.hops[level]);
          if p in targets {
            current := Some(targets[p]);
          } else {
            current := if relation.Some? then Some(relation.value.target) else None;
          }
          if current.Some? {
            targets := targets[p := current.value];
            var needsScope := Needs(reg, relation, current.value) && p !in withQuery;
            scopeLeaf := level == |l.hops| - 1 && needsScope;
            if needsScope && !scopeLeaf {
              inserted := inserted + [Lookup(To(l)[..level + 1], None, Some(TenantRows(current.value)))];
              withQuery := withQuery + {p};
            }
          }
        }
        level := level + 1;
      }
    }

    method ScopeOne(prefix: Path, l: Lookup, model: string)
      returns (inserted: seq<Lookup>, result: Lookup, changed: bool)
      requires WellFormedLookup(l)
      modifies this
      ensures Scoped(State(), inserted, result, changed) == ScopeLookup(reg, prefix, l, model, old(State()))
      decreases l, 1
    {
      var current, scopeLeaf;
      inserted, current, scopeLeaf := ScopeEachHop(prefix, l, model);
      result, changed := l, inserted != [];
      var p := prefix + To(l);
      if l.query.Some? {
        withQuery := withQuery + {p};
        targets := targets[p := l.query.value.model];
        if l.query.value.Caller? {
          var scoped, inner := ScopeEach(p, l.query.value.lookups, l.query.value.model);
          if inner {
            result, changed := l.(query := Some(Caller(l.query.value.model, scoped))), true;
          }
        }
      } else if scopeLeaf && current.Some? {
        result, changed := Lookup(l.hops, l.toAttr, Some(TenantRows(current.value))), true;
        withQuery := withQuery + {p};
      }
    }

    /** `_scoped_prefetch_lookups` */
    method ScopeEach(prefix: Path, lookups: seq<Lookup>, model: string) returns (scoped: seq<Lookup>, changed: bool)
      requires WellFormed(lookups)
      modifies this
      ensures (State(), scoped, changed) == ScopeAll(reg, prefix, lookups, model, old(State()))
      decreases lookups, 0
    {
      scoped, changed := [], false;
      var i := 0;
      while i < |lookups|
        invariant 0 <= i <= |lookups|
        invariant (State(), scoped, changed) == ScopeAll(reg, prefix, lookups[..i], model, old(State()))
      {
        assert lookups[..i + 1][..i] == lookups[..i];
        var inserted, result, one := ScopeOne(prefix, lookups[i], model);
        scoped := scoped + inserted + [result];
        changed := changed || one;
        i := i + 1;
      }
      assert lookups[..|lookups|] == lookups;
    }
  }
}
