/** The rewriting of `prefetch_related()` lookups, and what Django makes of lookups. */
module Prefetches {
  import opened Gucs

  // ---- Models and lookups ----

  /** What an attribute leads to; `unscoped`: Django fetches it through the target's base manager. */
  datatype Relation = Relation(target: string, unscoped: bool)

  datatype Registry = Registry(relations: map<string, map<string, Relation>>, protected: set<string>)

  /** The attribute names from the outermost queryset on. */
  type Path = seq<string>

  /** `_prefetch_hop` */
  function Hop(reg: Registry, model: Option<string>, name: string): Option<Relation> {
    if model.Some? && model.value in reg.relations && name in reg.relations[model.value]
    then Some(reg.relations[model.value][name])
    else None
  }

  /** The queryset of a `Prefetch`: the caller's, with its own lookups, or `_tenant_rows`: the base
      manager's rows, filtered on the model's tenant field if it has one. */
  datatype Query = Caller(model: string, lookups: seq<Lookup>) | TenantRows(model: string)

  /** A lookup: a path of at least one hop, the attribute the last hop is stored in, its queryset. */
  datatype Lookup = Lookup(hops: Path, toAttr: Option<string>, query: Option<Query>)

  /** `prefetch_to` */
  function To(l: Lookup): (p: Path)
    requires l.hops != []
    ensures |p| == |l.hops| && p[..|p| - 1] == l.hops[..|p| - 1]
  {
    var n := |l.hops| - 1;
    l.hops[..n] + [if l.toAttr.Some? then l.toAttr.value else l.hops[n]]
  }

  /** `get_current_prefetch_to`, from the outermost queryset. */
  function At(prefix: Path, l: Lookup, level: nat): Path
    requires l.hops != [] && level < |l.hops|
  {
    prefix + To(l)[..level + 1]
  }

  ghost predicate WellFormedLookup(l: Lookup)
    decreases l
  {
    l.hops != [] && (l.query.Some? && l.query.value.Caller? ==> WellFormed(l.query.value.lookups))
  }

  ghost predicate WellFormed(lookups: seq<Lookup>)
    decreases lookups
  {
    forall i :: 0 <= i < |lookups| ==> WellFormedLookup(lookups[i])
  }

  // ---- What Django fetches ----

  /** `OfTenant`: the rows of `_tenant_rows`. */
  datatype How = Unresolved | DefaultManager | BaseManager | CallersQuery | OfTenant

  /** One query of a prefetch. `followed`: every hop up to it leads to a known model. */
  datatype Fetch = Fetch(path: Path, model: Option<string>, how: How, followed: bool)

  /** The models fetched so far by path, `[]` being the outermost queryset's own, the queries in order,
      and whether a lookup was refused: Django gives no fetched path a second queryset. */
  datatype Run = Run(done: map<Path, Option<string>>, fetches: seq<Fetch>, failed: bool)

  function ModelAt(done: map<Path, Option<string>>, p: Path): Option<string> {
    if p in done then done[p] else None
  }

  /** Every hop before `level` led to a known model. */
  predicate Followed(done: map<Path, Option<string>>, prefix: Path, l: Lookup, level: nat)
    requires l.hops != [] && level <= |l.hops|
  {
    forall i :: 0 <= i < level ==> ModelAt(done, At(prefix, l, i)).Some?
  }

  /** The model the hop at `level` starts from. */
  function Start(done: map<Path, Option<string>>, prefix: Path, l: Lookup, level: nat): Option<string>
    requires l.hops != [] && level <= |l.hops|
  {
    if level == 0 then ModelAt(done, prefix) else ModelAt(done, At(prefix, l, level - 1))
  }

  function FetchOf(reg: Registry, prefix: Path, l: Lookup, level: nat, done: map<Path, Option<string>>): Fetch
    requires l.hops != [] && level < |l.hops|
  {
    var relation := Hop(reg, Start(done, prefix, l, level), l.hops[level]);
    var followed := Followed(done, prefix, l, level) && relation.Some?;
    var p := At(prefix, l, level);
    if level == |l.hops| - 1 && l.query.Some? then
      Fetch(p, Some(l.query.value.model), if l.query.value.Caller? then CallersQuery else OfTenant, followed)
    else if relation.None? then Fetch(p, None, Unresolved, followed)
    else
      var how := if relation.value.unscoped then BaseManager else DefaultManager;
      Fetch(p, Some(relation.value.target), how, followed)
  }

  /** One hop: objects already fetched at its path are used again. */
  function FetchLevel(reg: Registry, prefix: Path, l: Lookup, level: nat, r: Run): Run
    requires l.hops != [] && level < |l.hops|
  {
    if At(prefix, l, level) in r.done then r
    else
      var f := FetchOf(reg, prefix, l, level, r.done);
      r.(done := r.done[f.path := f.model], fetches := r.fetches + [f])
  }

  function FetchLevels(reg: Registry, prefix: Path, l: Lookup, n: nat, r: Run): Run
    requires l.hops != [] && n <= |l.hops|
  {
    if n == 0 then r else FetchLevel(reg, prefix, l, n - 1, FetchLevels(reg, prefix, l, n - 1, r))
  }

  /** `prefetch_related_objects`, one lookup: its hops, then the lookups of its queryset. */
  function RunLookup(reg: Registry, prefix: Path, l: Lookup, r: Run): Run
    requires WellFormedLookup(l)
    decreases l, 1
  {
    if r.failed then r
    else if prefix + To(l) in r.done then r.(failed := l.query.Some?)
    else
      var fetched := FetchLevels(reg, prefix, l, |l.hops|, r);
      if l.query.Some? && l.query.value.Caller? then
        RunAll(reg, prefix + To(l), l.query.value.lookups, fetched)
      else fetched
  }

  function RunAll(reg: Registry, prefix: Path, lookups: seq<Lookup>, r: Run): Run
    requires WellFormed(lookups)
    decreases lookups
  {
    if lookups == [] then r
    else RunLookup(reg, prefix, lookups[|lookups| - 1], RunAll(reg, prefix, lookups[..|lookups| - 1], r))
  }

  // ---- The rewriting ----

  /** `with_queryset` and `targets`, shared by the whole rewriting. */
  datatype Scoping = Scoping(withQuery: set<Path>, targets: map<Path, string>)

  /** The loop over the hops of one lookup; `current` is `None` once it has stopped. */
  datatype Hops = Hops(state: Scoping, inserted: seq<Lookup>, current: Option<string>, scopeLeaf: bool)

  predicate Needs(reg: Registry, relation: Option<Relation>, model: string) {
    relation.Some? && relation.value.unscoped && model in reg.protected
  }

  function ScopeHop(reg: Registry, prefix: Path, l: Lookup, level: nat, h: Hops): Hops
    requires l.hops != [] && level < |l.hops|
  {
    if h.current.None? then h
    else
      var p := At(prefix, l, level);
      var relation := Hop(reg, h.current, l.hops[level]);
      var current :=
        if p in h.state.targets then Some(h.state.targets[p])
        else if relation.Some? then Some(relation.value.target)
        else None;
      if current.None? then h.(current := None)
      else
        var state := h.state.(targets := h.state.targets[p := current.value]);
        var needsScope := Needs(reg, relation, current.value) && p !in state.withQuery;
        if level == |l.hops| - 1 then Hops(state, h.inserted, current, needsScope)
        else if needsScope then
          Hops(state.(withQuery := state.withQuery + {p}),
               h.inserted + [Lookup(To(l)[..level + 1], None, Some(TenantRows(current.value)))],
               current, false)
        else Hops(state, h.inserted, current, false)
  }

  function ScopeHops(reg: Registry, prefix: Path, l: Lookup, model: string, n: nat, s: Scoping): Hops
    requires l.hops != [] && n <= |l.hops|
  {
    if n == 0 then Hops(s, [], Some(model), false)
    else ScopeHop(reg, prefix, l, n - 1, ScopeHops(reg, prefix, l, model, n - 1, s))
  }

  /** The lookups put before a lookup, the lookup itself, and whether anything changed. */
  datatype Scoped = Scoped(state: Scoping, inserted: seq<Lookup>, result: Lookup, changed: bool)

  function ScopeLookup(reg: Registry, prefix: Path, l: Lookup, model: string, s: Scoping): Scoped
    requires WellFormedLookup(l)
    decreases l, 1
  {
    var h := ScopeHops(reg, prefix, l, model, |l.hops|, s);
    var p := prefix + To(l);
    if l.query.Some? then
      var q := l.query.value;
      var state := Scoping(h.state.withQuery + {p}, h.state.targets[p := q.model]);
      if q.TenantRows? then Scoped(state, h.inserted, l, h.inserted != [])
      else
        var inner := ScopeAll(reg, p, q.lookups, q.model, state);
        Scoped(inner.0, h.inserted,
               if inner.2 then l.(query := Some(Caller(q.model, inner.1))) else l,
               h.inserted != [] || inner.2)
    else if h.scopeLeaf && h.current.Some? then
      Scoped(h.state.(withQuery := h.state.withQuery + {p}), h.inserted,
             Lookup(l.hops, l.toAttr, Some(TenantRows(h.current.value))), true)
    else Scoped(h.state, h.inserted, l, h.inserted != [])
  }

  /** `_scoped_prefetch_lookups` over all lookups: the state, the lookups it collects, `changed`. */
  function ScopeAll(reg: Registry, prefix: Path, lookups: seq<Lookup>, model: string, s: Scoping)
    : (Scoping, seq<Lookup>, bool)
    requires WellFormed(lookups)
    decreases lookups
  {
    if lookups == [] then (s, [], false)
    else
      var (before, scoped, changed) := ScopeAll(reg, prefix, lookups[..|lookups| - 1], model, s);
      var one := ScopeLookup(reg, prefix, lookups[|lookups| - 1], model, before);
      (one.state, scoped + one.inserted + [one.result], changed || one.changed)
  }

  /** What `_scoped_prefetch_lookups` returns. */
  function ScopedLookups(reg: Registry, lookups: seq<Lookup>, model: string): seq<Lookup>
    requires WellFormed(lookups)
  {
    var (_, scoped, changed) := ScopeAll(reg, [], lookups, model, Scoping({}, map[[] := model]));
    if changed then scoped else lookups
  }

  function StartRun(model: string): Run {
    Run(map[[] := Some(model)], [], false)
  }
}
