/** Rewritten lookups fetch what the caller's would, with the tenant's filter where it is missing. */
module PrefetchSoundness {
  import opened Gucs
  import opened Prefetches

  /** A query through the base manager, onto a protected model, at the end of known models. */
  predicate NeedsScope(reg: Registry, f: Fetch) {
    f.how == BaseManager && f.followed && f.model.Some? && f.model.value in reg.protected
  }

  function Scope(reg: Registry, f: Fetch): Fetch {
    if NeedsScope(reg, f) then f.(how := OfTenant) else f
  }

  /** The same run with the tenant's filter on the queries that need it. */
  function Image(reg: Registry, r: Run): (r': Run)
    ensures |r'.fetches| == |r.fetches| && r'.done == r.done && r'.failed == r.failed
  {
    r.(fetches := seq(|r.fetches|, i requires 0 <= i < |r.fetches| => Scope(reg, r.fetches[i])))
  }

  // ---- What the caller's lookups must be like ----

  predicate NoRelation(reg: Registry, name: string) {
    forall m :: m in reg.relations ==> name !in reg.relations[m]
  }

  /** Each path has one relation, `rel`, through which lookups reach it; once it is fetched, a name that
      is no relation of any model, a `to_attr`, may reach it too. */
  ghost predicate LegalHop(reg: Registry, rel: Path -> string, prefix: Path, l: Lookup, level: nat,
                           done: map<Path, Option<string>>)
    requires l.hops != [] && level < |l.hops|
  {
    l.hops[level] == rel(At(prefix, l, level)) || (At(prefix, l, level) in done && NoRelation(reg, l.hops[level]))
  }

  ghost predicate LegalLookup(reg: Registry, rel: Path -> string, prefix: Path, l: Lookup, r: Run)
    requires WellFormedLookup(l)
    decreases l, 1
  {
    r.failed ||
    (&& (forall i :: 0 <= i < |l.hops| ==> LegalHop(reg, rel, prefix, l, i, r.done))
     && (prefix + To(l) !in r.done && l.query.Some? && l.query.value.Caller? ==>
           LegalAll(reg, rel, prefix + To(l), l.query.value.lookups, FetchLevels(reg, prefix, l, |l.hops|, r))))
  }

  ghost predicate LegalAll(reg: Registry, rel: Path -> string, prefix: Path, lookups: seq<Lookup>, r: Run)
    requires WellFormed(lookups)
    decreases lookups
  {
    lookups == [] ||
    (&& LegalAll(reg, rel, prefix, lookups[..|lookups| - 1], r)
     && LegalLookup(reg, rel, prefix, lookups[|lookups| - 1], RunAll(reg, prefix, lookups[..|lookups| - 1], r)))
  }

  // ---- Django's run ----

  lemma AtIsDeeper(prefix: Path, l: Lookup, i: nat)
    requires l.hops != [] && i < |l.hops|
    ensures var p := At(prefix, l, i);
            && |p| == |prefix| + i + 1 && p[..|prefix|] == prefix
            && Parent(p) == if i == 0 then prefix else At(prefix, l, i - 1)
    ensures At(prefix, l, |l.hops| - 1) == prefix + To(l)
  {
    assert To(l)[..|l.hops|] == To(l);
    assert At(prefix, l, i)[..|prefix| + i] == prefix + To(l)[..i];
    assert To(l)[..0] == [];
  }

  ghost predicate Extends(prefix: Path, p: Path) {
    |prefix| < |p| && p[..|prefix|] == prefix
  }

  /** `r'` has fetched what `r` had, and below `prefix` down to `depth` hops. */
  ghost predicate FetchesBelow(prefix: Path, depth: nat, r: Run, r': Run) {
    && (forall p :: p in r.done ==> p in r'.done && r'.done[p] == r.done[p])
    && (forall p :: p in r'.done && p !in r.done ==> Extends(prefix, p) && |p| <= |prefix| + depth)
    && r'.failed == r.failed && r.fetches <= r'.fetches
  }

  lemma LevelFetches(reg: Registry, prefix: Path, l: Lookup, level: nat, r: Run)
    requires l.hops != [] && level < |l.hops|
    ensures FetchesBelow(prefix, level + 1, r, FetchLevel(reg, prefix, l, level, r))
    ensures At(prefix, l, level) in FetchLevel(reg, prefix, l, level, r).done
  {
    AtIsDeeper(prefix, l, level);
  }

  /** Fetching hops keeps what was fetched, and adds the hops' own paths. */
  lemma LevelsFetch(reg: Registry, prefix: Path, l: Lookup, n: nat, r: Run)
    requires l.hops != [] && n <= |l.hops|
    ensures FetchesBelow(prefix, n, r, FetchLevels(reg, prefix, l, n, r))
    ensures forall i :: 0 <= i < n ==> At(prefix, l, i) in FetchLevels(reg, prefix, l, n, r).done
  {
    LevelsFetchBelow(reg, prefix, l, n, r);
    HopsAreFetched(reg, prefix, l, n, r);
  }

  lemma {:induction false} LevelsFetchBelow(reg: Registry, prefix: Path, l: Lookup, n: nat, r: Run)
    requires l.hops != [] && n <= |l.hops|
    ensures FetchesBelow(prefix, n, r, FetchLevels(reg, prefix, l, n, r))
  {
    if n == 0 {
      FetchesNothing(prefix, r);
    } else {
      LevelsFetchBelow(reg, prefix, l, n - 1, r);
      var r1 := FetchLevels(reg, prefix, l, n - 1, r);
      assert FetchLevels(reg, prefix, l, n, r) == FetchLevel(reg, prefix, l, n - 1, r1);
      LevelFetches(reg, prefix, l, n - 1, r1);
      FetchesFurther(prefix, n, r, r1, FetchLevel(reg, prefix, l, n - 1, r1));
    }
  }

  lemma FetchesNothing(prefix: Path, r: Run)
    ensures FetchesBelow(prefix, 0, r, r)
  {
  }

  lemma {:induction false} HopsAreFetched(reg: Registry, prefix: Path, l: Lookup, n: nat, r: Run)
    requires l.hops != [] && n <= |l.hops|
    ensures forall i :: 0 <= i < n ==> At(prefix, l, i) in FetchLevels(reg, prefix, l, n, r).done
  {
    if n > 0 {
      HopsAreFetched(reg, prefix, l, n - 1, r);
    }
  }

  lemma FetchesFurther(prefix: Path, depth: nat, r: Run, r1: Run, r2: Run)
    requires depth > 0 && FetchesBelow(prefix, depth - 1, r, r1) && FetchesBelow(prefix, depth, r1, r2)
    ensures FetchesBelow(prefix, depth, r, r2)
  {
  }

  /** Hops that are all fetched fetch nothing. */
  lemma {:induction false} FetchedAlready(reg: Registry, prefix: Path, l: Lookup, n: nat, r: Run)
    requires l.hops != [] && n <= |l.hops| && forall i :: 0 <= i < n ==> At(prefix, l, i) in r.done
    ensures FetchLevels(reg, prefix, l, n, r) == r
  {
    if n > 0 {
      FetchedAlready(reg, prefix, l, n - 1, r);
    }
  }

  /** A hop that needs no filter is the same in both runs. */
  lemma LevelOfImage(reg: Registry, prefix: Path, l: Lookup, level: nat, r: Run)
    requires l.hops != [] && level < |l.hops|
    requires At(prefix, l, level) in r.done || !NeedsScope(reg, FetchOf(reg, prefix, l, level, r.done))
    ensures FetchLevel(reg, prefix, l, level, Image(reg, r)) == Image(reg, FetchLevel(reg, prefix, l, level, r))
  {
  }

  /** `l2` is the lookup put before `l` for its hop at `level`. */
  predicate IsInserted(l: Lookup, level: nat, model: string, l2: Lookup)
    requires l.hops != []
  {
    level < |l.hops| - 1 && l2 == Lookup(To(l)[..level + 1], None, Some(TenantRows(model)))
  }

  lemma InsertedPaths(prefix: Path, l: Lookup, level: nat, model: string, l2: Lookup, i: nat)
    requires l.hops != [] && IsInserted(l, level, model, l2) && i <= level
    ensures l2.hops != [] && |l2.hops| == level + 1 && At(prefix, l2, i) == At(prefix, l, i) && l2.hops[i] == l.hops[i]
    ensures prefix + To(l2) == At(prefix, l, level)
  {
    assert To(l)[..level + 1] == l.hops[..level + 1];
    assert To(l2) == l2.hops;
    assert To(l2)[..i + 1] == To(l)[..i + 1];
  }

  lemma {:induction false} InsertedLevels(reg: Registry, prefix: Path, l: Lookup, level: nat, model: string, l2: Lookup,
                                          n: nat, r: Run)
    requires l.hops != [] && IsInserted(l, level, model, l2) && n <= level
    ensures l2.hops != [] && n < |l2.hops| && FetchLevels(reg, prefix, l2, n, r) == FetchLevels(reg, prefix, l, n, r)
    decreases n
  {
    InsertedPaths(prefix, l, level, model, l2, n);
    if n > 0 {
      InsertedLevels(reg, prefix, l, level, model, l2, n - 1, r);
      InsertedPaths(prefix, l, level, model, l2, n - 1);
      SameFetch(reg, prefix, l, level, model, l2, n - 1, FetchLevels(reg, prefix, l, n - 1, r).done);
    }
  }

  lemma SameFollowed(prefix: Path, l: Lookup, level: nat, model: string, l2: Lookup, i: nat,
                     done: map<Path, Option<string>>)
    requires l.hops != [] && IsInserted(l, level, model, l2) && i <= level
    ensures l2.hops != [] && i < |l2.hops|
    ensures Followed(done, prefix, l2, i) == Followed(done, prefix, l, i)
    ensures Start(done, prefix, l2, i) == Start(done, prefix, l, i)
  {
    InsertedPaths(prefix, l, level, model, l2, i);
    forall k | 0 <= k < i ensures At(prefix, l2, k) == At(prefix, l, k) {
      InsertedPaths(prefix, l, level, model, l2, k);
    }
  }

  lemma SameFetch(reg: Registry, prefix: Path, l: Lookup, level: nat, model: string, l2: Lookup, i: nat,
                  done: map<Path, Option<string>>)
    requires l.hops != [] && IsInserted(l, level, model, l2) && i <= level
    ensures l2.hops != [] && i < |l2.hops|
    ensures i < level ==> FetchOf(reg, prefix, l2, i, done) == FetchOf(reg, prefix, l, i, done)
    ensures var f := FetchOf(reg, prefix, l, level, done);
            i == level && NeedsScope(reg, f) && f.model == Some(model) ==>
                FetchOf(reg, prefix, l2, level, done) == Scope(reg, f)
  {
    InsertedPaths(prefix, l, level, model, l2, i);
    SameFollowed(prefix, l, level, model, l2, i, done);
  }

  // ---- The invariant ----

  function Parent(p: Path): Path {
    if p == [] then [] else p[..|p| - 1]
  }

  /** Every path from `prefix` on, up to `p`'s parent, has a known model. */
  ghost predicate Chain(targets: map<Path, string>, prefix: Path, p: Path) {
    Extends(prefix, p) && forall k :: |prefix| <= k < |p| ==> p[..k] in targets
  }

  ghost predicate Known(s: Scoping, done: map<Path, Option<string>>) {
    && (forall p :: p in s.targets ==> p in done && done[p] == Some(s.targets[p]))
    && (forall p :: p in s.withQuery ==> p in done)
    && (forall p {:trigger Parent(p)} :: p in done && p != [] ==> Parent(p) in done)
  }

  /** A known path that has no queryset needs none. */
  ghost predicate NothingMissed(reg: Registry, rel: Path -> string, s: Scoping) {
    forall p :: p in s.targets && p !in s.withQuery && p != [] && Parent(p) in s.targets ==>
      !Needs(reg, Hop(reg, Some(s.targets[Parent(p)]), rel(p)), s.targets[p])
  }

  /** A path fetched from a known model but not known itself leads nowhere. */
  ghost predicate DeadEnd(reg: Registry, rel: Path -> string, s: Scoping, done: map<Path, Option<string>>, p: Path)
    requires p in done && p != []
  {
    Parent(p) in s.targets && done[p].None? && Hop(reg, Some(s.targets[Parent(p)]), rel(p)).None?
  }

  ghost predicate DeadEnds(reg: Registry, rel: Path -> string, prefix: Path, s: Scoping,
                           done: map<Path, Option<string>>) {
    forall p :: p in done && p !in s.targets && Chain(s.targets, prefix, p) ==> DeadEnd(reg, rel, s, done, p)
  }

  ghost predicate Inv(reg: Registry, rel: Path -> string, prefix: Path, s: Scoping, done: map<Path, Option<string>>) {
    && prefix in s.targets
    && Known(s, done) && NothingMissed(reg, rel, s) && DeadEnds(reg, rel, prefix, s, done)
  }

  /** The loop over the hops, against Django's walk of the same hops. */
  ghost predicate HopInv(reg: Registry, rel: Path -> string, prefix: Path, l: Lookup, n: nat, h: Hops, r: Run)
    requires l.hops != [] && n <= |l.hops|
  {
    && Inv(reg, rel, prefix, h.state, r.done) && !h.scopeLeaf
    && (forall i :: 0 <= i < n ==> At(prefix, l, i) in r.done)
    && (if h.current.Some? then
          && (forall i :: 0 <= i < n ==> At(prefix, l, i) in h.state.targets)
          && Start(r.done, prefix, l, n) == h.current
        else !Followed(r.done, prefix, l, n))
  }

  lemma {:induction false} ParentsAreFetched(s: Scoping, done: map<Path, Option<string>>, p: Path, k: nat)
    requires Known(s, done) && p in done && k <= |p|
    ensures p[..k] in done
    decreases |p| - k
  {
    if k == |p| {
      assert p[..k] == p;
    } else {
      ParentsAreFetched(s, done, p, k + 1);
      assert Parent(p[..k + 1]) == p[..k];
    }
  }

  /** The hop's parent is known, while the loop goes on. */
  lemma HopParent(reg: Registry, rel: Path -> string, prefix: Path, l: Lookup, n: nat, h: Hops, r: Run)
    requires l.hops != [] && n < |l.hops| && HopInv(reg, rel, prefix, l, n, h, r) && h.current.Some?
    ensures var p := At(prefix, l, n);
            && p != [] && Parent(p) in h.state.targets && h.current == Some(h.state.targets[Parent(p)])
            && Chain(h.state.targets, prefix, p)
  {
    var p := At(prefix, l, n);
    AtIsDeeper(prefix, l, n);
    forall k | |prefix| <= k < |p| ensures p[..k] in h.state.targets {
      if k == |prefix| {
      } else {
        var i := k - |prefix| - 1;
        AtIsDeeper(prefix, l, i);
        assert To(l)[..n + 1][..i + 1] == To(l)[..i + 1];
        assert p[..k] == At(prefix, l, i);
      }
    }
  }

  /** What the loop leaves once the mark of the last hop, if any, is noted. */
  function Marked(h: Hops, p: Path): Hops {
    if h.scopeLeaf then h.(state := h.state.(withQuery := h.state.withQuery + {p}), scopeLeaf := false) else h
  }

  lemma ChainIsFollowed(prefix: Path, l: Lookup, n: nat, s: Scoping, done: map<Path, Option<string>>)
    requires l.hops != [] && n < |l.hops| && Known(s, done) && Chain(s.targets, prefix, At(prefix, l, n))
    ensures Followed(done, prefix, l, n)
  {
    var p := At(prefix, l, n);
    AtIsDeeper(prefix, l, n);
    forall i | 0 <= i < n ensures ModelAt(done, At(prefix, l, i)).Some? {
      AtIsDeeper(prefix, l, i);
      assert To(l)[..n + 1][..i + 1] == To(l)[..i + 1];
      assert p[..|prefix| + i + 1] == At(prefix, l, i);
    }
  }

  /** A path fetched without a known model to start from changes nothing that is known. */
  lemma UnknownFetchKeeps(reg: Registry, rel: Path -> string, prefix: Path, s: Scoping, done: map<Path, Option<string>>,
                          p: Path, model: Option<string>)
    requires Inv(reg, rel, prefix, s, done) && p !in done && p != [] && Parent(p) in done
    requires Chain(s.targets, prefix, p) ==> model.None? && Hop(reg, Some(s.targets[Parent(p)]), rel(p)).None?
    ensures Inv(reg, rel, prefix, s, done[p := model])
  {
    var done' := done[p := model];
    forall q | q in done' && q !in s.targets && Chain(s.targets, prefix, q) ensures DeadEnd(reg, rel, s, done', q) {
      if q != p {
        assert DeadEnd(reg, rel, s, done, q);
      }
    }
  }

  lemma LevelKeepsHops(reg: Registry, prefix: Path, l: Lookup, n: nat, r: Run)
    requires l.hops != [] && n < |l.hops| && forall i :: 0 <= i < n ==> At(prefix, l, i) in r.done
    ensures var r' := FetchLevel(reg, prefix, l, n, r);
            && (forall i :: 0 <= i < n + 1 ==> At(prefix, l, i) in r'.done)
            && (forall i :: 0 <= i < n ==> r'.done[At(prefix, l, i)] == r.done[At(prefix, l, i)])
            && Followed(r'.done, prefix, l, n) == Followed(r.done, prefix, l, n)
            && (Followed(r'.done, prefix, l, n + 1) ==> Followed(r'.done, prefix, l, n))
  {
    LevelFetches(reg, prefix, l, n, r);
  }

  lemma StoppedHop(reg: Registry, rel: Path -> string, prefix: Path, l: Lookup, n: nat, h: Hops, r: Run)
    requires l.hops != [] && n < |l.hops| && HopInv(reg, rel, prefix, l, n, h, r) && h.current.None?
    ensures HopInv(reg, rel, prefix, l, n + 1, h, FetchLevel(reg, prefix, l, n, r))
    ensures !FetchOf(reg, prefix, l, n, r.done).followed
  {
    var p := At(prefix, l, n);
    LevelKeepsHops(reg, prefix, l, n, r);
    if p !in r.done {
      AtIsDeeper(prefix, l, n);
      if Chain(h.state.targets, prefix, p) {
        ChainIsFollowed(prefix, l, n, h.state, r.done);
        assert false;
      }
      assert Parent(p) in r.done;
      UnknownFetchKeeps(reg, rel, prefix, h.state, r.done, p, FetchOf(reg, prefix, l, n, r.done).model);
    }
  }

  lemma FetchedHop(reg: Registry, rel: Path -> string, prefix: Path, l: Lookup, n: nat, h: Hops, r: Run)
    requires l.hops != [] && n < |l.hops| && HopInv(reg, rel, prefix, l, n, h, r) && h.current.Some?
    requires LegalHop(reg, rel, prefix, l, n, r.done) && At(prefix, l, n) in r.done
    ensures var h' := ScopeHop(reg, prefix, l, n, h);
            && h'.inserted == h.inserted && !h'.scopeLeaf && h'.state == h.state
            && HopInv(reg, rel, prefix, l, n + 1, h', r)
  {
    var p := At(prefix, l, n);
    HopParent(reg, rel, prefix, l, n, h, r);
    if p in h.state.targets {
      assert h.state.targets[p := h.state.targets[p]] == h.state.targets;
    } else {
      assert DeadEnd(reg, rel, h.state, r.done, p);
    }
  }

  /** A path fetched from a known model, with a queryset if it needs one, is known. */
  lemma KnownFetchKeeps(reg: Registry, rel: Path -> string, prefix: Path, s: Scoping, done: map<Path, Option<string>>,
                        p: Path, model: string, marked: bool)
    requires Inv(reg, rel, prefix, s, done) && p !in done && p != [] && Parent(p) in done
    requires marked || (Parent(p) in s.targets && !Needs(reg, Hop(reg, Some(s.targets[Parent(p)]), rel(p)), model))
    ensures Inv(reg, rel, prefix, Scoping(if marked then s.withQuery + {p} else s.withQuery, s.targets[p := model]),
                done[p := Some(model)])
  {
    var s' := Scoping(if marked then s.withQuery + {p} else s.withQuery, s.targets[p := model]);
    var done' := done[p := Some(model)];
    forall q | q in s'.targets && q !in s'.withQuery && q != [] && Parent(q) in s'.targets
      ensures !Needs(reg, Hop(reg, Some(s'.targets[Parent(q)]), rel(q)), s'.targets[q])
    {
      if q != p {
        assert q in done;
        assert Parent(q) != p;
      }
    }
    forall q | q in done' && q !in s'.targets && Chain(s'.targets, prefix, q) ensures DeadEnd(reg, rel, s', done', q) {
      assert q in done && q != p;
      forall k | |prefix| <= k < |q| ensures q[..k] in s.targets {
        ParentsAreFetched(s, done, q, k);
        assert q[..k] in s'.targets;
      }
      assert DeadEnd(reg, rel, s, done, q);
    }
  }

  /** The lookup inserted for a hop that needs a filter. */
  function InsertedFor(reg: Registry, l: Lookup, n: nat, f: Fetch): (inserted: seq<Lookup>)
    requires l.hops != [] && n < |l.hops|
  {
    if n < |l.hops| - 1 && NeedsScope(reg, f) then [Lookup(To(l)[..n + 1], None, Some(TenantRows(f.model.value)))]
    else []
  }

  lemma NewHop(reg: Registry, rel: Path -> string, prefix: Path, l: Lookup, n: nat, h: Hops, r: Run)
    requires l.hops != [] && n < |l.hops| && HopInv(reg, rel, prefix, l, n, h, r) && h.current.Some?
    requires LegalHop(reg, rel, prefix, l, n, r.done) && At(prefix, l, n) !in r.done
    requires (n < |l.hops| - 1 || l.query.None?)
    ensures var h' := ScopeHop(reg, prefix, l, n, h);
            var f := FetchOf(reg, prefix, l, n, r.done);
            && h'.inserted == h.inserted + InsertedFor(reg, l, n, f)
            && h'.scopeLeaf == (n == |l.hops| - 1 && NeedsScope(reg, f))
            && (h'.scopeLeaf ==> h'.current == f.model)
            && HopInv(reg, rel, prefix, l, n + 1, Marked(h', f.path), FetchLevel(reg, prefix, l, n, r))
  {
    var p := At(prefix, l, n);
    var f := FetchOf(reg, prefix, l, n, r.done);
    HopParent(reg, rel, prefix, l, n, h, r);
    NewHopFetches(reg, rel, prefix, l, n, h, r);
    if f.model.None? {
      UnknownFetchKeeps(reg, rel, prefix, h.state, r.done, p, None);
      NextHop(reg, rel, prefix, l, n, h.state.targets, r, h.(current := None));
    } else {
      KnownFetchKeeps(reg, rel, prefix, h.state, r.done, p, f.model.value, NeedsScope(reg, f));
      NextHop(reg, rel, prefix, l, n, h.state.targets, r, Marked(ScopeHop(reg, prefix, l, n, h), p));
    }
  }

  /** The hops so far, once the hop at `n` is fetched and noted. */
  lemma NextHop(reg: Registry, rel: Path -> string, prefix: Path, l: Lookup, n: nat, targets: map<Path, string>, r: Run,
                h': Hops)
    requires l.hops != [] && n < |l.hops| && At(prefix, l, n) !in r.done && !h'.scopeLeaf
    requires forall i :: 0 <= i < n ==> At(prefix, l, i) in r.done && At(prefix, l, i) in targets
    requires var f := FetchOf(reg, prefix, l, n, r.done);
             && f.path == At(prefix, l, n) && h'.current == f.model
             && Inv(reg, rel, prefix, h'.state, r.done[f.path := f.model])
             && (f.model.Some? ==> h'.state.targets == targets[f.path := f.model.value])
    ensures HopInv(reg, rel, prefix, l, n + 1, h', FetchLevel(reg, prefix, l, n, r))
  {
    var f := FetchOf(reg, prefix, l, n, r.done);
    var r' := FetchLevel(reg, prefix, l, n, r);
    assert r'.done == r.done[f.path := f.model];
    assert ModelAt(r'.done, At(prefix, l, n)) == f.model;
    LevelKeepsHops(reg, prefix, l, n, r);
  }

  lemma NewHopFetches(reg: Registry, rel: Path -> string, prefix: Path, l: Lookup, n: nat, h: Hops, r: Run)
    requires l.hops != [] && n < |l.hops| && HopInv(reg, rel, prefix, l, n, h, r) && h.current.Some?
    requires At(prefix, l, n) !in r.done && l.hops[n] == rel(At(prefix, l, n)) && (n < |l.hops| - 1 || l.query.None?)
    ensures var p := At(prefix, l, n);
            var f := FetchOf(reg, prefix, l, n, r.done);
            var relation := Hop(reg, h.current, rel(p));
            var h' := ScopeHop(reg, prefix, l, n, h);
            && f.path == p && p !in h.state.targets && p !in h.state.withQuery
            && (f.model.None? ==> relation.None? && h' == h.(current := None) && !NeedsScope(reg, f))
            && (f.model.Some? ==>
                  && relation.Some? && NeedsScope(reg, f) == Needs(reg, relation, f.model.value)
                  && Marked(h', p) ==
                      Hops(Scoping(if NeedsScope(reg, f) then h.state.withQuery + {p} else h.state.withQuery,
                                                   h.state.targets[p := f.model.value]),
                                           h.inserted + InsertedFor(reg, l, n, f), f.model, false)
                  && h'.scopeLeaf == (n == |l.hops| - 1 && NeedsScope(reg, f)) && h'.current == f.model)
  {
    assert Followed(r.done, prefix, l, n);
  }

  // ---- The hops of one lookup, in both runs ----

  /** `d` is behind `r` by hops of `l` only. */
  ghost predicate Behind(reg: Registry, prefix: Path, l: Lookup, n: nat, d: Run, r: Run)
    requires l.hops != [] && n <= |l.hops|
  {
    !d.failed && FetchLevels(reg, prefix, l, n, d) == Image(reg, r)
  }

  lemma ImageOfOneMore(reg: Registry, r: Run, f: Fetch, done: map<Path, Option<string>>)
    ensures Image(reg, r.(done := done, fetches := r.fetches + [f])) ==
              Image(reg, r).(done := done, fetches := Image(reg, r).fetches + [Scope(reg, f)])
  {
  }

  /** The lookup inserted for a hop fetches the hop, and those before it that are not fetched yet. */
  lemma InsertionRuns(reg: Registry, prefix: Path, l: Lookup, n: nat, model: string, l2: Lookup, d: Run, r: Run)
    requires l.hops != [] && IsInserted(l, n, model, l2) && Behind(reg, prefix, l, n, d, r) && WellFormedLookup(l2)
    requires var f := FetchOf(reg, prefix, l, n, r.done);
             At(prefix, l, n) !in r.done && NeedsScope(reg, f) && f.model == Some(model)
    ensures RunLookup(reg, prefix, l2, d) == Image(reg, FetchLevel(reg, prefix, l, n, r))
  {
    LevelsFetch(reg, prefix, l, n, d);
    InsertedPaths(prefix, l, n, model, l2, n);
    InsertedLevels(reg, prefix, l, n, model, l2, n, d);
    assert At(prefix, l, n) !in d.done;
    InsertedLastHop(reg, prefix, l, n, model, l2, r);
  }

  lemma InsertedLastHop(reg: Registry, prefix: Path, l: Lookup, n: nat, model: string, l2: Lookup, r: Run)
    requires l.hops != [] && IsInserted(l, n, model, l2)
    requires var f := FetchOf(reg, prefix, l, n, r.done);
             At(prefix, l, n) !in r.done && NeedsScope(reg, f) && f.model == Some(model)
    ensures l2.hops != [] && n < |l2.hops|
    ensures FetchLevel(reg, prefix, l2, n, Image(reg, r)) == Image(reg, FetchLevel(reg, prefix, l, n, r))
  {
    var f := FetchOf(reg, prefix, l, n, r.done);
    InsertedPaths(prefix, l, n, model, l2, n);
    SameFetch(reg, prefix, l, n, model, l2, n, r.done);
    ImageOfOneMore(reg, r, f, r.done[f.path := f.model]);
  }

  /** A run that is not behind stays so. */
  lemma NotBehind(reg: Registry, prefix: Path, l: Lookup, n: nat, r: Run)
    requires l.hops != [] && n < |l.hops| && !r.failed && forall i :: 0 <= i < n ==> At(prefix, l, i) in r.done
    ensures var r' := FetchLevel(reg, prefix, l, n, r);
            Behind(reg, prefix, l, n + 1, Image(reg, r'), r')
  {
    LevelKeepsHops(reg, prefix, l, n, r);
    FetchedAlready(reg, prefix, l, n + 1, Image(reg, FetchLevel(reg, prefix, l, n, r)));
  }

  ghost predicate Scopes(reg: Registry, r: Run) {
    exists f :: f in r.fetches && NeedsScope(reg, f)
  }

  /** The state of both runs and of the loop, before the hop at `n`. */
  ghost predicate HopsAgree(reg: Registry, rel: Path -> string, prefix: Path, l: Lookup, n: nat, h: Hops, d: Run,
                            r: Run)
    requires l.hops != [] && n <= |l.hops|
  {
    && HopInv(reg, rel, prefix, l, n, h, r) && Behind(reg, prefix, l, n, d, r) && !r.failed
    && (h.inserted != [] ==> Scopes(reg, r))
  }

  lemma HopStep(reg: Registry, rel: Path -> string, prefix: Path, l: Lookup, n: nat, h: Hops, d: Run, r: Run)
    requires l.hops != [] && n < |l.hops| - 1 && HopsAgree(reg, rel, prefix, l, n, h, d, r) && WellFormed(h.inserted)
    requires LegalHop(reg, rel, prefix, l, n, r.done)
    ensures var h' := ScopeHop(reg, prefix, l, n, h);
            var f := FetchOf(reg, prefix, l, n, r.done);
            && h'.inserted == h.inserted + (if At(prefix, l, n) in r.done then [] else InsertedFor(reg, l, n, f))
            && WellFormed(h'.inserted)
            && var d' := if h'.inserted == h.inserted then d
            else RunLookup(reg, prefix, h'.inserted[|h'.inserted| - 1], d);
            HopsAgree(reg, rel, prefix, l, n + 1, h', d', FetchLevel(reg, prefix, l, n, r))
  {
    var f := FetchOf(reg, prefix, l, n, r.done);
    var r' := FetchLevel(reg, prefix, l, n, r);
    if h.current.None? {
      StoppedHop(reg, rel, prefix, l, n, h, r);
      LevelOfImage(reg, prefix, l, n, r);
    } else if At(prefix, l, n) in r.done {
      FetchedHop(reg, rel, prefix, l, n, h, r);
    } else {
      NewHop(reg, rel, prefix, l, n, h, r);
      if NeedsScope(reg, f) {
        var l2 := Lookup(To(l)[..n + 1], None, Some(TenantRows(f.model.value)));
        InsertionRuns(reg, prefix, l, n, f.model.value, l2, d, r);
        NotBehind(reg, prefix, l, n, r);
        assert r'.fetches[|r.fetches|] == f;
      } else {
        LevelOfImage(reg, prefix, l, n, r);
      }
    }
  }

  lemma RunOneMore(reg: Registry, prefix: Path, lookups: seq<Lookup>, l: Lookup, r: Run)
    requires WellFormed(lookups) && WellFormedLookup(l)
    ensures WellFormed(lookups + [l])
    ensures RunAll(reg, prefix, lookups + [l], r) == RunLookup(reg, prefix, l, RunAll(reg, prefix, lookups, r))
  {
    assert (lookups + [l])[..|lookups|] == lookups;
  }

  lemma LegalLater(reg: Registry, rel: Path -> string, prefix: Path, l: Lookup, level: nat, n: nat, r: Run)
    requires l.hops != [] && level < |l.hops| && n <= |l.hops| && LegalHop(reg, rel, prefix, l, level, r.done)
    ensures LegalHop(reg, rel, prefix, l, level, FetchLevels(reg, prefix, l, n, r).done)
    ensures n <= level ==>
              (At(prefix, l, level) in FetchLevels(reg, prefix, l, n, r).done <==> At(prefix, l, level) in r.done)
  {
    LevelsFetch(reg, prefix, l, n, r);
    AtIsDeeper(prefix, l, level);
  }

  lemma InsertedStep(reg: Registry, rel: Path -> string, prefix: Path, l: Lookup, n: nat, h: Hops, start: Run, r: Run)
    requires l.hops != [] && n < |l.hops| - 1 && WellFormed(h.inserted) && LegalHop(reg, rel, prefix, l, n, r.done)
    requires HopsAgree(reg, rel, prefix, l, n, h, RunAll(reg, prefix, h.inserted, start), r)
    ensures var h' := ScopeHop(reg, prefix, l, n, h);
            && WellFormed(h'.inserted)
            && HopsAgree(reg, rel, prefix, l, n + 1, h', RunAll(reg, prefix, h'.inserted, start),
                         FetchLevel(reg, prefix, l, n, r))
            && (At(prefix, l, n) in r.done ==> h'.inserted == h.inserted)
  {
    HopStep(reg, rel, prefix, l, n, h, RunAll(reg, prefix, h.inserted, start), r);
    var h' := ScopeHop(reg, prefix, l, n, h);
    if h'.inserted != h.inserted {
      var l2 := h'.inserted[|h'.inserted| - 1];
      assert h'.inserted == h.inserted + [l2];
      RunOneMore(reg, prefix, h.inserted, l2, start);
    }
  }

  /** After `n` hops the loop agrees with both runs. */
  ghost predicate HopsAgreeAfter(reg: Registry, rel: Path -> string, prefix: Path, l: Lookup, model: string, n: nat,
                                 s: Scoping, r: Run)
    requires l.hops != [] && n <= |l.hops|
  {
    var h := ScopeHops(reg, prefix, l, model, n, s);
    && WellFormed(h.inserted)
    && HopsAgree(reg, rel, prefix, l, n, h, RunAll(reg, prefix, h.inserted, Image(reg, r)),
                 FetchLevels(reg, prefix, l, n, r))
  }

  lemma HopsNext(reg: Registry, rel: Path -> string, prefix: Path, l: Lookup, model: string, n: nat, s: Scoping, r: Run)
    requires l.hops != [] && n < |l.hops| - 1 && LegalHop(reg, rel, prefix, l, n, r.done)
    requires HopsAgreeAfter(reg, rel, prefix, l, model, n, s, r)
    ensures HopsAgreeAfter(reg, rel, prefix, l, model, n + 1, s, r)
  {
    LegalLater(reg, rel, prefix, l, n, n, r);
    InsertedStep(reg, rel, prefix, l, n, ScopeHops(reg, prefix, l, model, n, s), Image(reg, r),
                 FetchLevels(reg, prefix, l, n, r));
  }

  /** The loop over the hops before the last one agrees with both runs. */
  lemma {:induction false} HopsSim(reg: Registry, rel: Path -> string, prefix: Path, l: Lookup, model: string, n: nat,
                                   s: Scoping, r: Run)
    requires WellFormedLookup(l) && n < |l.hops| && !r.failed && Inv(reg, rel, prefix, s, r.done)
    requires s.targets[prefix] == model
    requires forall i :: 0 <= i < |l.hops| ==> LegalHop(reg, rel, prefix, l, i, r.done)
    ensures HopsAgreeAfter(reg, rel, prefix, l, model, n, s, r)
  {
    if n == 0 {
      HopsStart(reg, rel, prefix, l, model, s, r);
    } else {
      HopsSim(reg, rel, prefix, l, model, n - 1, s, r);
      HopsNext(reg, rel, prefix, l, model, n - 1, s, r);
    }
  }

  lemma HopsStart(reg: Registry, rel: Path -> string, prefix: Path, l: Lookup, model: string, s: Scoping, r: Run)
    requires WellFormedLookup(l) && !r.failed && Inv(reg, rel, prefix, s, r.done) && s.targets[prefix] == model
    ensures HopsAgree(reg, rel, prefix, l, 0, Hops(s, [], Some(model), false), Image(reg, r), r)
  {
  }

  lemma FetchedHopInsertsNothing(reg: Registry, rel: Path -> string, prefix: Path, l: Lookup, n: nat, h: Hops, r: Run)
    requires l.hops != [] && n < |l.hops| && HopInv(reg, rel, prefix, l, n, h, r)
    requires LegalHop(reg, rel, prefix, l, n, r.done) && At(prefix, l, n) in r.done
    ensures ScopeHop(reg, prefix, l, n, h).inserted == h.inserted
  {
    if h.current.Some? {
      FetchedHop(reg, rel, prefix, l, n, h, r);
    }
  }

  ghost predicate AllLegalAndFetched(reg: Registry, rel: Path -> string, prefix: Path, l: Lookup,
                                     done: map<Path, Option<string>>)
    requires l.hops != []
  {
    forall i :: 0 <= i < |l.hops| ==> LegalHop(reg, rel, prefix, l, i, done) && At(prefix, l, i) in done
  }

  lemma AgreesWhereFetched(reg: Registry, rel: Path -> string, prefix: Path, l: Lookup, model: string, n: nat,
                           s: Scoping, r: Run)
    requires WellFormedLookup(l) && n < |l.hops| && !r.failed && Inv(reg, rel, prefix, s, r.done)
    requires s.targets[prefix] == model
    requires AllLegalAndFetched(reg, rel, prefix, l, r.done)
    ensures HopInv(reg, rel, prefix, l, n, ScopeHops(reg, prefix, l, model, n, s), r)
  {
    HopsSim(reg, rel, prefix, l, model, n, s, r);
    FetchedAlready(reg, prefix, l, n, r);
  }

  /** Where every hop is fetched already, nothing is inserted. */
  lemma {:induction false} NothingInserted(reg: Registry, rel: Path -> string, prefix: Path, l: Lookup, model: string,
                                           n: nat, s: Scoping, r: Run)
    requires WellFormedLookup(l) && n < |l.hops| && !r.failed && Inv(reg, rel, prefix, s, r.done)
    requires s.targets[prefix] == model
    requires AllLegalAndFetched(reg, rel, prefix, l, r.done)
    ensures ScopeHops(reg, prefix, l, model, n, s).inserted == []
  {
    if n > 0 {
      NothingInserted(reg, rel, prefix, l, model, n - 1, s, r);
      NextInsertsNothing(reg, rel, prefix, l, model, n - 1, s, r);
    }
  }

  lemma NextInsertsNothing(reg: Registry, rel: Path -> string, prefix: Path, l: Lookup, model: string, n: nat,
                           s: Scoping, r: Run)
    requires WellFormedLookup(l) && n < |l.hops| - 1 && !r.failed && Inv(reg, rel, prefix, s, r.done)
    requires s.targets[prefix] == model
    requires AllLegalAndFetched(reg, rel, prefix, l, r.done)
    ensures ScopeHops(reg, prefix, l, model, n + 1, s).inserted == ScopeHops(reg, prefix, l, model, n, s).inserted
  {
    AgreesWhereFetched(reg, rel, prefix, l, model, n, s, r);
    FetchedHopInsertsNothing(reg, rel, prefix, l, n, ScopeHops(reg, prefix, l, model, n, s), r);
  }

  // ---- What lies outside a queryset's own lookups ----

  ghost predicate RunsBelow(prefix: Path, r: Run, r': Run) {
    && (forall p :: p in r.done ==> p in r'.done && r'.done[p] == r.done[p])
    && (forall p :: p in r'.done && p !in r.done ==> Extends(prefix, p))
    && (r.failed ==> r'.failed) && r.fetches <= r'.fetches
  }

  lemma {:induction false} LookupRunsBelow(reg: Registry, prefix: Path, l: Lookup, r: Run)
    requires WellFormedLookup(l)
    ensures RunsBelow(prefix, r, RunLookup(reg, prefix, l, r))
    decreases l, 1
  {
    LevelsFetch(reg, prefix, l, |l.hops|, r);
    if !r.failed && prefix + To(l) !in r.done && l.query.Some? && l.query.value.Caller? {
      AllRunBelow(reg, prefix + To(l), l.query.value.lookups, FetchLevels(reg, prefix, l, |l.hops|, r));
    }
  }

  lemma {:induction false} AllRunBelow(reg: Registry, prefix: Path, lookups: seq<Lookup>, r: Run)
    requires WellFormed(lookups)
    ensures RunsBelow(prefix, r, RunAll(reg, prefix, lookups, r))
    decreases lookups
  {
    if lookups != [] {
      var init := lookups[..|lookups| - 1];
      AllRunBelow(reg, prefix, init, r);
      LookupRunsBelow(reg, prefix, lookups[|lookups| - 1], RunAll(reg, prefix, init, r));
    }
  }

  /** What is known outside of `prefix` stays as it is. */
  ghost predicate ScopesBelow(prefix: Path, targets: map<Path, string>, targets': map<Path, string>) {
    forall p :: !Extends(prefix, p) ==>
        (p in targets <==> p in targets') && (p in targets ==> targets'[p] == targets[p])
  }

  lemma HopTargets(reg: Registry, prefix: Path, l: Lookup, n: nat, h: Hops)
    requires l.hops != [] && n < |l.hops|
    ensures var p, targets := At(prefix, l, n), ScopeHop(reg, prefix, l, n, h).state.targets;
            targets == h.state.targets || (p in targets && targets == h.state.targets[p := targets[p]])
  {
  }

  lemma OneTargetBelow(prefix: Path, targets: map<Path, string>, p: Path, model: string)
    requires Extends(prefix, p)
    ensures ScopesBelow(prefix, targets, targets[p := model])
  {
  }

  lemma HopScopesBelow(reg: Registry, prefix: Path, l: Lookup, n: nat, h: Hops)
    requires l.hops != [] && n < |l.hops|
    ensures ScopesBelow(prefix, h.state.targets, ScopeHop(reg, prefix, l, n, h).state.targets)
  {
    var p, targets := At(prefix, l, n), ScopeHop(reg, prefix, l, n, h).state.targets;
    AtIsDeeper(prefix, l, n);
    HopTargets(reg, prefix, l, n, h);
    if targets != h.state.targets {
      OneTargetBelow(prefix, h.state.targets, p, targets[p]);
    }
  }

  lemma {:induction false} HopsScopeBelow(reg: Registry, prefix: Path, l: Lookup, model: string, n: nat, s: Scoping)
    requires l.hops != [] && n <= |l.hops|
    ensures ScopesBelow(prefix, s.targets, ScopeHops(reg, prefix, l, model, n, s).state.targets)
  {
    if n > 0 {
      HopsScopeBelow(reg, prefix, l, model, n - 1, s);
      HopScopesBelow(reg, prefix, l, n - 1, ScopeHops(reg, prefix, l, model, n - 1, s));
    }
  }

  lemma {:induction false} LookupScopesBelow(reg: Registry, prefix: Path, l: Lookup, model: string, s: Scoping)
    requires WellFormedLookup(l)
    ensures ScopesBelow(prefix, s.targets, ScopeLookup(reg, prefix, l, model, s).state.targets)
    decreases l, 1
  {
    HopsScopeBelow(reg, prefix, l, model, |l.hops|, s);
    var h := ScopeHops(reg, prefix, l, model, |l.hops|, s);
    var p := prefix + To(l);
    assert Extends(prefix, p);
    if l.query.Some? && l.query.value.Caller? {
      var q := l.query.value;
      var state := Scoping(h.state.withQuery + {p}, h.state.targets[p := q.model]);
      AllScopeBelow(reg, p, q.lookups, q.model, state);
    }
  }

  lemma {:induction false} AllScopeBelow(reg: Registry, prefix: Path, lookups: seq<Lookup>, model: string, s: Scoping)
    requires WellFormed(lookups)
    ensures ScopesBelow(prefix, s.targets, ScopeAll(reg, prefix, lookups, model, s).0.targets)
    decreases lookups
  {
    if lookups != [] {
      var init := lookups[..|lookups| - 1];
      AllScopeBelow(reg, prefix, init, model, s);
      LookupScopesBelow(reg, prefix, lookups[|lookups| - 1], model, ScopeAll(reg, prefix, init, model, s).0);
    }
  }

  /** The invariant inside a queryset that has just been fetched. */
  lemma InvInside(reg: Registry, rel: Path -> string, prefix: Path, s: Scoping, done: map<Path, Option<string>>,
                  p: Path)
    requires Inv(reg, rel, prefix, s, done) && p in s.targets && forall q :: q in done ==> !Extends(p, q)
    ensures Inv(reg, rel, p, s, done)
  {
  }

  /** The invariant outside again, once the queryset's own lookups are done. */
  lemma InvOutside(reg: Registry, rel: Path -> string, prefix: Path, s: Scoping, done: map<Path, Option<string>>,
                   p: Path, s': Scoping, done': map<Path, Option<string>>)
    requires Inv(reg, rel, prefix, s, done) && Extends(prefix, p) && Inv(reg, rel, p, s', done')
    requires ScopesBelow(p, s.targets, s'.targets)
    requires forall q :: q in done ==> q in done' && done'[q] == done[q]
    requires forall q :: q in done' && q !in done ==> Extends(p, q)
    ensures Inv(reg, rel, prefix, s', done')
  {
    assert !Extends(p, prefix);
    forall q | q in done' && q !in s'.targets && Chain(s'.targets, prefix, q) ensures DeadEnd(reg, rel, s', done', q) {
      if Extends(p, q) {
        assert Chain(s'.targets, p, q);
      } else {
        assert q in done && q !in s.targets;
        forall k | |prefix| <= k < |q| ensures q[..k] in s.targets {
          assert q[..k] in s'.targets;
          assert !Extends(p, q[..k]);
        }
        assert DeadEnd(reg, rel, s, done, q);
        assert !Extends(p, Parent(q));
      }
    }
  }

  // ---- The shape of what is returned ----

  lemma {:induction false} InsertedAreWellFormed(reg: Registry, prefix: Path, l: Lookup, model: string, n: nat,
                                                 s: Scoping)
    requires l.hops != [] && n <= |l.hops|
    ensures WellFormed(ScopeHops(reg, prefix, l, model, n, s).inserted)
  {
    if n > 0 {
      InsertedAreWellFormed(reg, prefix, l, model, n - 1, s);
    }
  }

  /** A lookup keeps its path and `to_attr`, and the queryset the caller gave it; one that is not
      changed is the caller's own. */
  ghost predicate KeepsLookup(l: Lookup, one: Scoped) {
    && WellFormed(one.inserted) && WellFormedLookup(one.result)
    && one.result.hops == l.hops && one.result.toAttr == l.toAttr
    && (l.query.Some? ==>
          && one.result.query.Some? && one.result.query.value.model == l.query.value.model
          && one.result.query.value.Caller? == l.query.value.Caller?)
    && (!one.changed ==> one.inserted == [] && one.result == l)
  }

  lemma {:induction false} LookupIsKept(reg: Registry, prefix: Path, l: Lookup, model: string, s: Scoping)
    requires WellFormedLookup(l)
    ensures KeepsLookup(l, ScopeLookup(reg, prefix, l, model, s))
    decreases l, 1
  {
    InsertedAreWellFormed(reg, prefix, l, model, |l.hops|, s);
    if l.query.Some? && l.query.value.Caller? {
      var h := ScopeHops(reg, prefix, l, model, |l.hops|, s);
      var q := l.query.value;
      var state := Scoping(h.state.withQuery + {prefix + To(l)}, h.state.targets[prefix + To(l) := q.model]);
      AllAreKept(reg, prefix + To(l), q.lookups, q.model, state);
    }
  }

  /** With nothing to change the lookups are the caller's. */
  lemma {:induction false} AllAreKept(reg: Registry, prefix: Path, lookups: seq<Lookup>, model: string, s: Scoping)
    requires WellFormed(lookups)
    ensures var (_, scoped, changed) := ScopeAll(reg, prefix, lookups, model, s);
            WellFormed(scoped) && (!changed ==> scoped == lookups)
    decreases lookups
  {
    if lookups != [] {
      var init, last := lookups[..|lookups| - 1], lookups[|lookups| - 1];
      AllAreKept(reg, prefix, init, model, s);
      var (before, collected, changed) := ScopeAll(reg, prefix, init, model, s);
      LookupIsKept(reg, prefix, last, model, before);
      var one := ScopeLookup(reg, prefix, last, model, before);
      assert lookups == init + [last];
      assert !changed && !one.changed ==> collected + one.inserted + [one.result] == lookups;
    }
  }

  // ---- One lookup, in both runs ----

  /** The rewritten lookups fetch the image of what the caller's fetch, and the state describes it. */
  ghost predicate Simulates(reg: Registry, rel: Path -> string, prefix: Path, s: Scoping, changed: bool, d: Run,
                            r: Run) {
    && d == Image(reg, r)
    && (!r.failed ==> Inv(reg, rel, prefix, s, r.done) && (changed ==> Scopes(reg, r)))
  }

  lemma AllHopsFetched(prefix: Path, l: Lookup, s: Scoping, done: map<Path, Option<string>>)
    requires l.hops != [] && Known(s, done) && prefix + To(l) in done
    ensures forall i :: 0 <= i < |l.hops| ==> At(prefix, l, i) in done
  {
    forall i | 0 <= i < |l.hops| ensures At(prefix, l, i) in done {
      ParentsAreFetched(s, done, prefix + To(l), |prefix| + i + 1);
      assert (prefix + To(l))[..|prefix| + i + 1] == At(prefix, l, i);
    }
  }

  lemma SkippedHops(reg: Registry, rel: Path -> string, prefix: Path, l: Lookup, model: string, s: Scoping, r: Run)
    requires WellFormedLookup(l) && !r.failed && Inv(reg, rel, prefix, s, r.done) && s.targets[prefix] == model
    requires forall i :: 0 <= i < |l.hops| ==> LegalHop(reg, rel, prefix, l, i, r.done)
    requires prefix + To(l) in r.done
    ensures var h := ScopeHops(reg, prefix, l, model, |l.hops|, s);
            h.inserted == [] && !h.scopeLeaf && Inv(reg, rel, prefix, h.state, r.done)
  {
    var n := |l.hops| - 1;
    AllHopsFetched(prefix, l, s, r.done);
    NothingInserted(reg, rel, prefix, l, model, n, s, r);
    AgreesWhereFetched(reg, rel, prefix, l, model, n, s, r);
    var h := ScopeHops(reg, prefix, l, model, n, s);
    if h.current.Some? {
      FetchedHop(reg, rel, prefix, l, n, h, r);
    }
  }

  /** A lookup of a path that is fetched already: neither run fetches anything, or both refuse it. */
  lemma SkippedLookup(reg: Registry, rel: Path -> string, prefix: Path, l: Lookup, model: string, s: Scoping, r: Run)
    requires WellFormedLookup(l) && !r.failed && Inv(reg, rel, prefix, s, r.done) && s.targets[prefix] == model
    requires forall i :: 0 <= i < |l.hops| ==> LegalHop(reg, rel, prefix, l, i, r.done)
    requires prefix + To(l) in r.done
    ensures var one := ScopeLookup(reg, prefix, l, model, s);
            && KeepsLookup(l, one)
            && Simulates(reg, rel, prefix, one.state, one.changed,
                         RunLookup(reg, prefix, one.result,
                                   RunAll(reg, prefix, one.inserted, Image(reg, r))), RunLookup(reg, prefix, l, r))
  {
    LookupIsKept(reg, prefix, l, model, s);
    SkippedHops(reg, rel, prefix, l, model, s, r);
  }

  /** The rewritten last hop, once both runs are at it. */
  lemma LastHopRuns(reg: Registry, prefix: Path, l: Lookup, result: Lookup, d: Run, r: Run)
    requires l.hops != [] && result.hops == l.hops && result.toAttr == l.toAttr
    requires Behind(reg, prefix, l, |l.hops| - 1, d, r)
    requires prefix + To(l) !in r.done
    requires var f := FetchOf(reg, prefix, l, |l.hops| - 1, r.done);
             FetchOf(reg, prefix, result, |l.hops| - 1, r.done) == Scope(reg, f)
    ensures prefix + To(result) !in d.done && !d.failed
    ensures FetchLevels(reg, prefix, result, |l.hops|, d) == Image(reg, FetchLevel(reg, prefix, l, |l.hops| - 1, r))
  {
    var n := |l.hops| - 1;
    var f := FetchOf(reg, prefix, l, n, r.done);
    LevelsFetch(reg, prefix, l, n, d);
    AtIsDeeper(prefix, l, n);
    AtIsDeeper(prefix, result, n);
    OtherQuerySameLevels(reg, prefix, l, result, n, d);
    ImageOfOneMore(reg, r, f, r.done[f.path := f.model]);
  }

  /** The queryset of a lookup matters for its last hop only. */
  lemma {:induction false} OtherQuerySameLevels(reg: Registry, prefix: Path, l: Lookup, result: Lookup, n: nat, r: Run)
    requires l.hops != [] && result.hops == l.hops && result.toAttr == l.toAttr && n < |l.hops|
    ensures FetchLevels(reg, prefix, result, n, r) == FetchLevels(reg, prefix, l, n, r)
  {
    if n > 0 {
      OtherQuerySameLevels(reg, prefix, l, result, n - 1, r);
      OtherQuerySamePaths(prefix, l, result, n - 1, FetchLevels(reg, prefix, l, n - 1, r).done);
      OtherQuerySameFetch(reg, prefix, l, result, n - 1, FetchLevels(reg, prefix, l, n - 1, r).done);
    }
  }

  lemma OtherQuerySamePaths(prefix: Path, l: Lookup, result: Lookup, n: nat, done: map<Path, Option<string>>)
    requires l.hops != [] && result.hops == l.hops && result.toAttr == l.toAttr && n < |l.hops|
    ensures At(prefix, result, n) == At(prefix, l, n)
    ensures Followed(done, prefix, result, n) == Followed(done, prefix, l, n)
    ensures Start(done, prefix, result, n) == Start(done, prefix, l, n)
  {
    assert To(result) == To(l);
    assert forall i :: 0 <= i <= n ==> At(prefix, result, i) == At(prefix, l, i);
  }

  lemma OtherQuerySameFetch(reg: Registry, prefix: Path, l: Lookup, result: Lookup, n: nat,
                            done: map<Path, Option<string>>)
    requires l.hops != [] && result.hops == l.hops && result.toAttr == l.toAttr && n < |l.hops|
    requires At(prefix, result, n) == At(prefix, l, n) && Start(done, prefix, result, n) == Start(done, prefix, l, n)
    requires Followed(done, prefix, result, n) == Followed(done, prefix, l, n)
    ensures n < |l.hops| - 1 ==> FetchOf(reg, prefix, result, n, done) == FetchOf(reg, prefix, l, n, done)
    ensures var f, f' := FetchOf(reg, prefix, l, n, done), FetchOf(reg, prefix, result, n, done);
            n == |l.hops| - 1 && result.query.Some? ==>
              && f'.path == f.path && f'.followed == f.followed && f'.model == Some(result.query.value.model)
              && f'.how == if result.query.value.Caller? then CallersQuery else OfTenant
  {
  }

  /** Both runs and the loop at the last hop of a lookup that is not fetched yet. */
  ghost predicate AtLastHop(reg: Registry, rel: Path -> string, prefix: Path, l: Lookup, h: Hops, d: Run, r: Run)
    requires l.hops != []
  {
    && HopsAgree(reg, rel, prefix, l, |l.hops| - 1, h, d, r)
    && At(prefix, l, |l.hops| - 1) == prefix + To(l) && prefix + To(l) !in r.done
    && LegalHop(reg, rel, prefix, l, |l.hops| - 1, r.done)
  }

  lemma ComesToLastHop(reg: Registry, rel: Path -> string, prefix: Path, l: Lookup, model: string, s: Scoping, r: Run)
    requires WellFormedLookup(l) && !r.failed && Inv(reg, rel, prefix, s, r.done) && s.targets[prefix] == model
    requires forall i :: 0 <= i < |l.hops| ==> LegalHop(reg, rel, prefix, l, i, r.done)
    requires prefix + To(l) !in r.done
    ensures var n := |l.hops| - 1;
            var h := ScopeHops(reg, prefix, l, model, n, s);
            && WellFormed(h.inserted)
            && AtLastHop(reg, rel, prefix, l, h, RunAll(reg, prefix, h.inserted, Image(reg, r)),
                         FetchLevels(reg, prefix, l, n, r))
  {
    var n := |l.hops| - 1;
    HopsSim(reg, rel, prefix, l, model, n, s, r);
    LegalLater(reg, rel, prefix, l, n, n, r);
    AtIsDeeper(prefix, l, n);
  }

  /** A lookup without a queryset: its last hop gets one where it needs one. */
  lemma PlainLastHop(reg: Registry, rel: Path -> string, prefix: Path, l: Lookup, h: Hops, d: Run, r: Run)
    requires WellFormedLookup(l) && l.query.None? && AtLastHop(reg, rel, prefix, l, h, d, r)
    ensures var n := |l.hops| - 1;
            var r' := FetchLevel(reg, prefix, l, n, r);
            var h' := ScopeHop(reg, prefix, l, n, h);
            var result := if h'.scopeLeaf && h'.current.Some?
                          then Lookup(l.hops, l.toAttr, Some(TenantRows(h'.current.value))) else l;
            && h'.inserted == h.inserted
            && RunLookup(reg, prefix, result, d) == Image(reg, r')
            && (h'.scopeLeaf ==> h'.current.Some?)
            && Inv(reg, rel, prefix, Marked(h', prefix + To(l)).state, r'.done)
            && (h'.inserted != [] || h'.scopeLeaf ==> Scopes(reg, r'))
  {
    var n := |l.hops| - 1;
    var f := FetchOf(reg, prefix, l, n, r.done);
    var r' := FetchLevel(reg, prefix, l, n, r);
    var h' := ScopeHop(reg, prefix, l, n, h);
    assert r'.fetches == r.fetches + [f];
    if h.current.None? {
      StoppedHop(reg, rel, prefix, l, n, h, r);
      LastHopRuns(reg, prefix, l, l, d, r);
    } else {
      NewHop(reg, rel, prefix, l, n, h, r);
      if h'.scopeLeaf {
        var result := Lookup(l.hops, l.toAttr, Some(TenantRows(h'.current.value)));
        OtherQuerySamePaths(prefix, l, result, n, r.done);
        OtherQuerySameFetch(reg, prefix, l, result, n, r.done);
        LastHopRuns(reg, prefix, l, result, d, r);
        assert r'.fetches[|r.fetches|] == f;
      } else {
        LastHopRuns(reg, prefix, l, l, d, r);
      }
    }
    if h'.inserted != [] {
      var g :| g in r.fetches && NeedsScope(reg, g);
      assert g in r'.fetches;
    }
  }

  lemma PlainLookup(reg: Registry, rel: Path -> string, prefix: Path, l: Lookup, model: string, s: Scoping, r: Run)
    requires WellFormedLookup(l) && !r.failed && Inv(reg, rel, prefix, s, r.done) && s.targets[prefix] == model
    requires forall i :: 0 <= i < |l.hops| ==> LegalHop(reg, rel, prefix, l, i, r.done)
    requires prefix + To(l) !in r.done && l.query.None?
    ensures var one := ScopeLookup(reg, prefix, l, model, s);
            && KeepsLookup(l, one)
            && Simulates(reg, rel, prefix, one.state, one.changed,
                         RunLookup(reg, prefix, one.result,
                                   RunAll(reg, prefix, one.inserted, Image(reg, r))), RunLookup(reg, prefix, l, r))
  {
    var n := |l.hops| - 1;
    var h := ScopeHops(reg, prefix, l, model, n, s);
    LookupIsKept(reg, prefix, l, model, s);
    ComesToLastHop(reg, rel, prefix, l, model, s, r);
    PlainLastHop(reg, rel, prefix, l, h, RunAll(reg, prefix, h.inserted, Image(reg, r)),
                 FetchLevels(reg, prefix, l, n, r));
  }

  /** A lookup with the caller's queryset: its path is known, and done, from its last hop on. */
  lemma QueriedLastHop(reg: Registry, rel: Path -> string, prefix: Path, l: Lookup, result: Lookup, h: Hops, d: Run,
                       r: Run)
    requires WellFormedLookup(l) && l.query.Some? && AtLastHop(reg, rel, prefix, l, h, d, r)
    requires result.hops == l.hops && result.toAttr == l.toAttr && result.query.Some?
    requires result.query.value.model == l.query.value.model && result.query.value.Caller? == l.query.value.Caller?
    ensures var n, p, q := |l.hops| - 1, prefix + To(l), l.query.value;
            var r' := FetchLevel(reg, prefix, l, n, r);
            var h' := ScopeHop(reg, prefix, l, n, h);
            var state := Scoping(h'.state.withQuery + {p}, h'.state.targets[p := q.model]);
            && h'.inserted == h.inserted
            && FetchLevels(reg, prefix, result, |l.hops|, d) == Image(reg, r') && prefix + To(result) !in d.done
            && !d.failed
            && Inv(reg, rel, prefix, state, r'.done) && Inv(reg, rel, p, state, r'.done)
            && (h.inserted != [] ==> Scopes(reg, r'))
  {
    var n, p, q := |l.hops| - 1, prefix + To(l), l.query.value;
    var f := FetchOf(reg, prefix, l, n, r.done);
    var r' := FetchLevel(reg, prefix, l, n, r);
    var h' := ScopeHop(reg, prefix, l, n, h);
    assert r'.fetches == r.fetches + [f];
    if h.inserted != [] {
      var g :| g in r.fetches && NeedsScope(reg, g);
      assert g in r'.fetches;
    }
    OtherQuerySamePaths(prefix, l, l, n, r.done);
    OtherQuerySameFetch(reg, prefix, l, l, n, r.done);
    OtherQuerySamePaths(prefix, l, result, n, r.done);
    OtherQuerySameFetch(reg, prefix, l, result, n, r.done);
    LastHopRuns(reg, prefix, l, result, d, r);
    LastHopState(reg, prefix, l, h, q.model);
    AtIsDeeper(prefix, l, n);
    assert Parent(p) in r.done;
    KnownFetchKeeps(reg, rel, prefix, h.state, r.done, p, q.model, true);
    forall x | x in r'.done ensures !Extends(p, x) {
      if Extends(p, x) {
        ParentsAreFetched(h.state, r.done, x, |p|);
      }
    }
    InvInside(reg, rel, prefix, Scoping(h.state.withQuery + {p}, h.state.targets[p := q.model]), r'.done, p);
  }

  lemma LastHopState(reg: Registry, prefix: Path, l: Lookup, h: Hops, model: string)
    requires l.hops != [] && At(prefix, l, |l.hops| - 1) == prefix + To(l)
    ensures var n, p := |l.hops| - 1, prefix + To(l);
            var h' := ScopeHop(reg, prefix, l, n, h);
            && h'.inserted == h.inserted
            && Scoping(h'.state.withQuery + {p}, h'.state.targets[p := model]) ==
                Scoping(h.state.withQuery + {p}, h.state.targets[p := model])
  {
  }

  // ---- All lookups ----

  lemma {:induction false} RunAppended(reg: Registry, prefix: Path, first: seq<Lookup>, rest: seq<Lookup>, r: Run)
    requires WellFormed(first) && WellFormed(rest)
    ensures WellFormed(first + rest)
    ensures RunAll(reg, prefix, first + rest, r) == RunAll(reg, prefix, rest, RunAll(reg, prefix, first, r))
    decreases |rest|
  {
    if rest == [] {
      assert first + rest == first;
    } else {
      var n := |rest| - 1;
      RunAppended(reg, prefix, first, rest[..n], r);
      assert (first + rest)[..|first + rest| - 1] == first + rest[..n];
    }
  }

  lemma {:induction false} FailedRuns(reg: Registry, prefix: Path, lookups: seq<Lookup>, r: Run)
    requires WellFormed(lookups) && r.failed
    ensures RunAll(reg, prefix, lookups, r) == r
    decreases |lookups|
  {
    if lookups != [] {
      FailedRuns(reg, prefix, lookups[..|lookups| - 1], r);
    }
  }

  lemma {:induction false} QueriedLookup(reg: Registry, rel: Path -> string, prefix: Path, l: Lookup, model: string,
                                         s: Scoping, r: Run)
    requires WellFormedLookup(l) && !r.failed && Inv(reg, rel, prefix, s, r.done) && s.targets[prefix] == model
    requires LegalLookup(reg, rel, prefix, l, r) && prefix + To(l) !in r.done && l.query.Some?
    ensures var one := ScopeLookup(reg, prefix, l, model, s);
            && KeepsLookup(l, one)
            && Simulates(reg, rel, prefix, one.state, one.changed,
                         RunLookup(reg, prefix, one.result,
                                   RunAll(reg, prefix, one.inserted, Image(reg, r))), RunLookup(reg, prefix, l, r))
    decreases l, 0
  {
    var n, p, q := |l.hops| - 1, prefix + To(l), l.query.value;
    var one := ScopeLookup(reg, prefix, l, model, s);
    var h := ScopeHops(reg, prefix, l, model, n, s);
    LookupIsKept(reg, prefix, l, model, s);
    ComesToLastHop(reg, rel, prefix, l, model, s, r);
    QueriedLastHop(reg, rel, prefix, l, one.result, h, RunAll(reg, prefix, h.inserted, Image(reg, r)),
                   FetchLevels(reg, prefix, l, n, r));
    if q.Caller? {
      var h' := ScopeHops(reg, prefix, l, model, |l.hops|, s);
      QuerysetSim(reg, rel, prefix, p, q.lookups, q.model,
                  Scoping(h'.state.withQuery + {p}, h'.state.targets[p := q.model]),
                  FetchLevels(reg, prefix, l, |l.hops|, r), h'.inserted != []);
    }
  }

  /** The lookups of the caller's queryset, run as lookups of the outer one. */
  lemma {:induction false} QuerysetSim(reg: Registry, rel: Path -> string, prefix: Path, p: Path, lookups: seq<Lookup>,
                                       model: string,
                                       s: Scoping, r: Run, changed: bool)
    requires WellFormed(lookups) && !r.failed && LegalAll(reg, rel, p, lookups, r) && Extends(prefix, p)
    requires Inv(reg, rel, prefix, s, r.done) && Inv(reg, rel, p, s, r.done) && s.targets[p] == model
    requires (changed ==> Scopes(reg, r))
    ensures var (s', scoped, inner) := ScopeAll(reg, p, lookups, model, s);
            && WellFormed(scoped)
            && Simulates(reg, rel, prefix, s', changed || inner,
                         RunAll(reg, p, if inner then scoped else lookups, Image(reg, r)), RunAll(reg, p, lookups, r))
    decreases lookups, 1
  {
    AllSim(reg, rel, p, lookups, model, s, r);
    AllAreKept(reg, p, lookups, model, s);
    AllRunBelow(reg, p, lookups, r);
    AllScopeBelow(reg, p, lookups, model, s);
    var r' := RunAll(reg, p, lookups, r);
    if !r'.failed {
      InvOutside(reg, rel, prefix, s, r.done, p, ScopeAll(reg, p, lookups, model, s).0, r'.done);
      if changed {
        var g :| g in r.fetches && NeedsScope(reg, g);
        assert g in r'.fetches;
      }
    }
  }

  lemma {:induction false} LookupSim(reg: Registry, rel: Path -> string, prefix: Path, l: Lookup, model: string,
                                     s: Scoping, r: Run)
    requires WellFormedLookup(l) && !r.failed && Inv(reg, rel, prefix, s, r.done) && s.targets[prefix] == model
    requires LegalLookup(reg, rel, prefix, l, r)
    ensures var one := ScopeLookup(reg, prefix, l, model, s);
            && KeepsLookup(l, one)
            && Simulates(reg, rel, prefix, one.state, one.changed,
                         RunLookup(reg, prefix, one.result,
                                   RunAll(reg, prefix, one.inserted, Image(reg, r))), RunLookup(reg, prefix, l, r))
    decreases l, 1
  {
    if prefix + To(l) in r.done {
      SkippedLookup(reg, rel, prefix, l, model, s, r);
    } else if l.query.None? {
      PlainLookup(reg, rel, prefix, l, model, s, r);
    } else {
      QueriedLookup(reg, rel, prefix, l, model, s, r);
    }
  }

  lemma {:induction false} AllSim(reg: Registry, rel: Path -> string, prefix: Path, lookups: seq<Lookup>, model: string,
                                  s: Scoping, r: Run)
    requires WellFormed(lookups) && !r.failed && Inv(reg, rel, prefix, s, r.done) && s.targets[prefix] == model
    requires LegalAll(reg, rel, prefix, lookups, r)
    ensures var (s', scoped, changed) := ScopeAll(reg, prefix, lookups, model, s);
            && WellFormed(scoped)
            && Simulates(reg, rel, prefix, s', changed, RunAll(reg, prefix, scoped, Image(reg, r)),
                         RunAll(reg, prefix, lookups, r))
    decreases lookups, 0
  {
    AllAreKept(reg, prefix, lookups, model, s);
    if lookups != [] {
      var init, l := lookups[..|lookups| - 1], lookups[|lookups| - 1];
      AllSim(reg, rel, prefix, init, model, s, r);
      OneMoreSim(reg, rel, prefix, init, l, model, s, r);
    }
  }

  lemma {:induction false} OneMoreSim(reg: Registry, rel: Path -> string, prefix: Path, init: seq<Lookup>, l: Lookup,
                                      model: string, s: Scoping, r: Run)
    requires WellFormed(init) && WellFormedLookup(l) && !r.failed && s.targets.Keys >= {prefix}
    requires s.targets[prefix] == model
    requires LegalLookup(reg, rel, prefix, l, RunAll(reg, prefix, init, r))
    requires var (s1, scoped, changed) := ScopeAll(reg, prefix, init, model, s);
             && WellFormed(scoped)
             && Simulates(reg, rel, prefix, s1, changed, RunAll(reg, prefix, scoped, Image(reg, r)),
                          RunAll(reg, prefix, init, r))
    ensures var (s1, scoped, changed) := ScopeAll(reg, prefix, init, model, s);
            var one := ScopeLookup(reg, prefix, l, model, s1);
            && WellFormed(scoped + one.inserted + [one.result])
            && Simulates(reg, rel, prefix, one.state, changed || one.changed,
                         RunAll(reg, prefix, scoped + one.inserted + [one.result], Image(reg, r)),
                         RunLookup(reg, prefix, l, RunAll(reg, prefix, init, r)))
    decreases l, 2
  {
    var (s1, scoped, changed) := ScopeAll(reg, prefix, init, model, s);
    var one := ScopeLookup(reg, prefix, l, model, s1);
    var r1, d1 := RunAll(reg, prefix, init, r), RunAll(reg, prefix, scoped, Image(reg, r));
    LookupIsKept(reg, prefix, l, model, s1);
    RunAppended(reg, prefix, scoped, one.inserted, Image(reg, r));
    RunOneMore(reg, prefix, scoped + one.inserted, one.result, Image(reg, r));
    if r1.failed {
      FailedRuns(reg, prefix, one.inserted, d1);
    } else {
      AllScopeBelow(reg, prefix, init, model, s);
      assert !Extends(prefix, prefix);
      LookupSim(reg, rel, prefix, l, model, s1, r1);
      LookupRunsBelow(reg, prefix, l, r1);
      if changed {
        var g :| g in r1.fetches && NeedsScope(reg, g);
        assert g in RunLookup(reg, prefix, l, r1).fetches;
      }
    }
  }
}
