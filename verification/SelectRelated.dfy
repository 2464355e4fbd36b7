/** The tenant filters `select_related()` adds to the joins it makes. */
module SelectRelated {
  import opened Gucs

  /** A relation field, with its related model, when that is resolved, and whether it can be `NULL`.
      `reverse`: the far end of a one-to-one field, whose key is in the related table. */
  datatype Field = Field(related: Option<string>, nullable: bool, reverse: bool)

  /** The fields of every model; for a protected model the column of its tenant field, if it has that. */
  datatype Registry = Registry(fields: map<string, map<string, Field>>, protected: map<string, Option<string>>)

  /** A row's columns: keys of related rows, or of tenants; `None` is `NULL`. For a reverse field, the key
      of the row that refers to this one. */
  type Row = map<string, Option<int>>

  /** The rows of each model by key, as the session sees them. */
  type Data = map<string, map<int, Row>>

  predicate Resolves(reg: Registry, model: string, part: string) {
    model in reg.fields && part in reg.fields[model] && reg.fields[model][part].related.Some?
  }

  function Related(reg: Registry, model: string, part: string): string
    requires Resolves(reg, model, part)
  {
    reg.fields[model][part].related.value
  }

  /** `_resolve_related_path` from `model` on, `nullable` so far. */
  function Resolve(reg: Registry, model: string, path: seq<string>, nullable: bool): (Option<string>, bool)
    decreases |path|
  {
    if path == [] then (Some(model), nullable)
    else if !Resolves(reg, model, path[0]) then (None, false)
    else Resolve(reg, Related(reg, model, path[0]), path[1..], nullable || reg.fields[model][path[0]].nullable)
  }

  method ResolveRelatedPath(reg: Registry, model: string, path: seq<string>)
    returns (target: Option<string>, nullable: bool)
    ensures (target, nullable) == Resolve(reg, model, path, false)
  {
    var current := model;
    nullable := false;
    for i := 0 to |path|
      invariant Resolve(reg, model, path, false) == Resolve(reg, current, path[i..], nullable)
    {
      if !Resolves(reg, current, path[i]) {
        return None, false;
      }
      assert path[i..][1..] == path[i + 1..];
      nullable := nullable || reg.fields[current][path[i]].nullable;
      current := Related(reg, current, path[i]);
    }
    target := Some(current);
  }

  /** `tenant_id = X` at the end of a path, or, when some hop may be `NULL`, `NULL` there. */
  datatype Filter = Filter(path: seq<string>, column: string, tenant: int, orNull: bool)

  /** The filter for one path, if it ends at a protected model with a tenant field. */
  function FilterFor(reg: Registry, model: string, path: seq<string>, tenant: int): (f: Option<Filter>)
    ensures f.Some? ==> f.value.path == path
  {
    var (target, nullable) := Resolve(reg, model, path, false);
    if target.None? || target.value !in reg.protected || reg.protected[target.value].None? then None
    else Some(Filter(path, reg.protected[target.value].value, tenant, nullable))
  }

  function FiltersFor(reg: Registry, model: string, paths: seq<seq<string>>, tenant: int): (filters: seq<Filter>)
    ensures forall f :: f in filters ==>
      f.path in paths && exists i :: 0 <= i < |paths| && FilterFor(reg, model, paths[i], tenant) == Some(f)
  {
    if paths == [] then []
    else
      var last := FilterFor(reg, model, paths[|paths| - 1], tenant);
      FiltersFor(reg, model, paths[..|paths| - 1], tenant) + if last.Some? then [last.value] else []
  }

  /** `TenantQuerySet.select_related`; `tenant` is the active one, if any. */
  method FiltersOfSelectRelated(reg: Registry, model: string, paths: seq<seq<string>>, tenant: Option<int>)
    returns (filters: seq<Filter>)
    ensures filters == if tenant.None? then [] else FiltersFor(reg, model, paths, tenant.value)
  {
    filters := [];
    if tenant.None? {
      return;
    }
    for i := 0 to |paths|
      invariant filters == FiltersFor(reg, model, paths[..i], tenant.value)
    {
      var related, nullable := ResolveRelatedPath(reg, model, paths[i]);
      assert paths[..i + 1][..i] == paths[..i];
      if related.Some? && related.value in reg.protected {
        var column := reg.protected[related.value];
        if column.Some? {
          filters := filters + [Filter(paths[i], column.value, tenant.value, nullable)];
        }
      }
    }
    assert paths[..|paths|] == paths;
  }

  // ---- What SQL makes of a filter ----

  function ColumnOf(row: Option<Row>, column: string): Option<int> {
    if row.Some? && column in row.value then row.value[column] else None
  }

  function RowAt(data: Data, model: string, key: Option<int>): Option<Row> {
    if key.Some? && model in data && key.value in data[model] then Some(data[model][key.value]) else None
  }

  /** The row a left join along `path` brings up; `None` when its columns are all `NULL`. */
  function Joined(reg: Registry, data: Data, model: string, row: Option<Row>, path: seq<string>): Option<Row>
    decreases |path|
  {
    if path == [] then row
    else if !Resolves(reg, model, path[0]) then None
    else
      var next := Related(reg, model, path[0]);
      Joined(reg, data, next, RowAt(data, next, ColumnOf(row, path[0])), path[1..])
  }

  predicate EndsReverse(reg: Registry, model: string, path: seq<string>)
    requires path != []
    decreases |path|
  {
    && Resolves(reg, model, path[0])
    && if |path| == 1 then reg.fields[model][path[0]].reverse
       else EndsReverse(reg, Related(reg, model, path[0]), path[1..])
  }

  /** `path__isnull`: a foreign key is read where it is stored, so that the last join is not needed;
      a reverse one is the key of the row the last join brings up. */
  predicate IsNull(reg: Registry, data: Data, model: string, row: Row, path: seq<string>)
    requires path != []
  {
    var n := |path| - 1;
    if EndsReverse(reg, model, path) then Joined(reg, data, model, Some(row), path).None?
    else ColumnOf(Joined(reg, data, model, Some(row), path[..n]), path[n]).None?
  }

  /** The filter's condition on a row: `NULL = X` is not true. */
  predicate Keeps(reg: Registry, data: Data, model: string, row: Row, f: Filter)
    requires f.path != []
  {
    || ColumnOf(Joined(reg, data, model, Some(row), f.path), f.column) == Some(f.tenant)
    || (f.orNull && IsNull(reg, data, model, row, f.path))
  }

  predicate KeepsAll(reg: Registry, data: Data, model: string, row: Row, filters: seq<Filter>)
    requires forall f :: f in filters ==> f.path != []
  {
    forall f :: f in filters ==> Keeps(reg, data, model, row, f)
  }

  // ---- What the caller means ----

  /** Where a chain of relations leads: to a row, to a `NULL`, or to a row the session does not see. */
  datatype Chain = Ends(row: Row) | BrokenByNull | Hidden(atLast: bool)

  function Follow(reg: Registry, data: Data, model: string, row: Row, path: seq<string>): Chain
    decreases |path|
  {
    if path == [] then Ends(row)
    else if !Resolves(reg, model, path[0]) || ColumnOf(Some(row), path[0]).None? then BrokenByNull
    else
      var next := Related(reg, model, path[0]);
      var found := RowAt(data, next, ColumnOf(Some(row), path[0]));
      if found.None? then Hidden(|path| == 1) else Follow(reg, data, next, found.value, path[1..])
  }

  /** A field that cannot be `NULL` is not. */
  ghost predicate RowRespects(reg: Registry, model: string, row: Row) {
    forall part :: Resolves(reg, model, part) && !reg.fields[model][part].nullable ==> ColumnOf(Some(row), part).Some?
  }

  ghost predicate Respects(reg: Registry, data: Data) {
    forall model, key :: model in data && key in data[model] ==> RowRespects(reg, model, data[model][key])
  }

  lemma {:induction false} NothingJoinsToNothing(reg: Registry, data: Data, model: string, path: seq<string>)
    ensures Joined(reg, data, model, None, path).None?
    decreases |path|
  {
    if path != [] && Resolves(reg, model, path[0]) {
      NothingJoinsToNothing(reg, data, Related(reg, model, path[0]), path[1..]);
    }
  }

  /** A left join brings up the row the chain ends in, and nothing when it is broken. */
  lemma {:induction false} JoinFollows(reg: Registry, data: Data, model: string, row: Row, path: seq<string>)
    ensures var chain := Follow(reg, data, model, row, path);
            Joined(reg, data, model, Some(row), path) == if chain.Ends? then Some(chain.row) else None
    decreases |path|
  {
    if path != [] && Resolves(reg, model, path[0]) {
      var next := Related(reg, model, path[0]);
      var found := RowAt(data, next, ColumnOf(Some(row), path[0]));
      if found.None? {
        NothingJoinsToNothing(reg, data, next, path[1..]);
      } else {
        JoinFollows(reg, data, next, found.value, path[1..]);
      }
    }
  }

  /** The last foreign key of a path reads `NULL` when the chain is broken, or an earlier hop hidden. */
  lemma {:induction false} LastReadsNull(reg: Registry, data: Data, model: string, row: Row, path: seq<string>)
    requires path != [] && Resolve(reg, model, path, false).0.Some?
    ensures var n := |path| - 1;
            var chain := Follow(reg, data, model, row, path);
            ColumnOf(Joined(reg, data, model, Some(row), path[..n]), path[n]).None? <==>
              chain.BrokenByNull? || chain == Hidden(false)
    decreases |path|
  {
    var n := |path| - 1;
    if n > 0 {
      var next := Related(reg, model, path[0]);
      var found := RowAt(data, next, ColumnOf(Some(row), path[0]));
      ResolveIgnoresStart(reg, next, path[1..], reg.fields[model][path[0]].nullable);
      assert path[..n][1..] == path[1..][..n - 1];
      if found.None? {
        NothingJoinsToNothing(reg, data, next, path[1..][..n - 1]);
      } else {
        LastReadsNull(reg, data, next, found.value, path[1..]);
      }
    }
  }

  /** Where a path leads does not depend on the hops before it; a nullable hop stays one. */
  lemma {:induction false} ResolveIgnoresStart(reg: Registry, model: string, path: seq<string>, nullable: bool)
    ensures Resolve(reg, model, path, nullable).0 == Resolve(reg, model, path, false).0
    ensures Resolve(reg, model, path, false).0.Some? ==>
              Resolve(reg, model, path, nullable).1 == (nullable || Resolve(reg, model, path, false).1)
    decreases |path|
  {
    if path != [] && Resolves(reg, model, path[0]) {
      var next := Related(reg, model, path[0]);
      ResolveIgnoresStart(reg, next, path[1..], nullable || reg.fields[model][path[0]].nullable);
      ResolveIgnoresStart(reg, next, path[1..], reg.fields[model][path[0]].nullable);
    }
  }

  /** A path none of whose hops can be `NULL` is broken nowhere. */
  lemma {:induction false} NotNullableNotBroken(reg: Registry, data: Data, model: string, row: Row, path: seq<string>)
    requires Respects(reg, data) && RowRespects(reg, model, row)
    requires Resolve(reg, model, path, false).0.Some? && !Resolve(reg, model, path, false).1
    ensures !Follow(reg, data, model, row, path).BrokenByNull?
    decreases |path|
  {
    if path != [] {
      var next := Related(reg, model, path[0]);
      ResolveIgnoresStart(reg, next, path[1..], reg.fields[model][path[0]].nullable);
      var found := RowAt(data, next, ColumnOf(Some(row), path[0]));
      if found.Some? {
        var key := ColumnOf(Some(row), path[0]).value;
        assert next in data && key in data[next] && found.value == data[next][key];
        NotNullableNotBroken(reg, data, next, found.value, path[1..]);
      }
    }
  }

  /** The model a path leads to, if each of its parts is a relation. */
  ghost function Target(reg: Registry, model: string, path: seq<string>): Option<string>
    decreases |path|
  {
    if path == [] then Some(model)
    else if !Resolves(reg, model, path[0]) then None
    else Target(reg, Related(reg, model, path[0]), path[1..])
  }

  /** Some hop of the path may be `NULL`. */
  ghost predicate SomeHopMayBeNull(reg: Registry, model: string, path: seq<string>)
    decreases |path|
  {
    && path != [] && Resolves(reg, model, path[0])
    && (reg.fields[model][path[0]].nullable || SomeHopMayBeNull(reg, Related(reg, model, path[0]), path[1..]))
  }

  /** The column of the tenant field at the end of a path, if it ends at a protected model that has one. */
  ghost function TenantColumnAt(reg: Registry, model: string, path: seq<string>): Option<string> {
    var target := Target(reg, model, path);
    if target.Some? && target.value in reg.protected then reg.protected[target.value] else None
  }

  lemma {:induction false} ResolvesToTarget(reg: Registry, model: string, path: seq<string>)
    ensures Resolve(reg, model, path, false).0 == Target(reg, model, path)
    ensures Target(reg, model, path).Some? ==> Resolve(reg, model, path, false).1 == SomeHopMayBeNull(reg, model, path)
    decreases |path|
  {
    if path != [] && Resolves(reg, model, path[0]) {
      ResolvesToTarget(reg, Related(reg, model, path[0]), path[1..]);
      ResolveIgnoresStart(reg, Related(reg, model, path[0]), path[1..], reg.fields[model][path[0]].nullable);
    }
  }

  /** A path gets a filter if and only if it leads to a protected model with a tenant field; the filter is
      for the active tenant, on that field, and lets a `NULL` pass if some hop may be one. */
  lemma FilteredIff(reg: Registry, model: string, path: seq<string>, tenant: int)
    ensures var column := TenantColumnAt(reg, model, path);
            FilterFor(reg, model, path, tenant) ==
              if column.None? then None
              else Some(Filter(path, column.value, tenant, SomeHopMayBeNull(reg, model, path)))
  {
    ResolvesToTarget(reg, model, path);
  }

  /** A row the session does not see is as a `NULL` if some hop may be `NULL`, unless the hidden row is
      the last one and its key is stored in a row that is seen. */
  ghost predicate ReadsAsNull(reg: Registry, model: string, path: seq<string>, atLast: bool)
    requires path != []
  {
    SomeHopMayBeNull(reg, model, path) && (!atLast || EndsReverse(reg, model, path))
  }

  /** The chain ends in a row of the tenant, or in no row because of a `NULL`, or of what reads as one. */
  ghost predicate EndsInTenant(reg: Registry, data: Data, model: string, row: Row, path: seq<string>, column: string,
                               tenant: int)
    requires path != []
  {
    match Follow(reg, data, model, row, path)
    case Ends(end) => ColumnOf(Some(end), column) == Some(tenant)
    case BrokenByNull => true
    case Hidden(atLast) => ReadsAsNull(reg, model, path, atLast)
  }

  /** The filter of a path keeps a row exactly when its chain is broken by a `NULL` or ends in the
      tenant, or in a row the policy hides that reads as a `NULL`. */
  lemma FilterIsExact(reg: Registry, data: Data, model: string, row: Row, path: seq<string>, tenant: int)
    requires path != [] && Respects(reg, data) && RowRespects(reg, model, row)
    requires FilterFor(reg, model, path, tenant).Some?
    ensures var f := FilterFor(reg, model, path, tenant).value;
            Keeps(reg, data, model, row, f) <==> EndsInTenant(reg, data, model, row, path, f.column, tenant)
  {
    FilteredIff(reg, model, path, tenant);
    JoinFollows(reg, data, model, row, path);
    LastReadsNull(reg, data, model, row, path);
    if !Resolve(reg, model, path, false).1 {
      NotNullableNotBroken(reg, data, model, row, path);
    }
  }

  /** Every path to a protected model with a tenant field ends so. */
  ghost predicate AllEndInTenant(reg: Registry, data: Data, model: string, row: Row, paths: seq<seq<string>>,
                                 tenant: int)
    requires forall i :: 0 <= i < |paths| ==> paths[i] != []
  {
    forall i :: 0 <= i < |paths| ==>
      var column := TenantColumnAt(reg, model, paths[i]);
      column.Some? ==> EndsInTenant(reg, data, model, row, paths[i], column.value, tenant)
  }

  lemma {:induction false} FiltersAreOfPaths(reg: Registry, model: string, paths: seq<seq<string>>, tenant: int, i: nat)
    requires i < |paths| && FilterFor(reg, model, paths[i], tenant).Some?
    ensures FilterFor(reg, model, paths[i], tenant).value in FiltersFor(reg, model, paths, tenant)
    decreases |paths|
  {
    if i < |paths| - 1 {
      FiltersAreOfPaths(reg, model, paths[..|paths| - 1], tenant, i);
    }
  }

  ghost predicate FilteredAt(reg: Registry, model: string, path: seq<string>, tenant: int) {
    var f, column := FilterFor(reg, model, path, tenant), TenantColumnAt(reg, model, path);
    (f.Some? <==> column.Some?) && (f.Some? ==> f.value.column == column.value)
  }

  /** The filters `select_related()` adds keep a row exactly when every such path of it ends in a row of
      the active tenant, or at a `NULL` or what reads as one. */
  lemma SelectRelatedIsExact(reg: Registry, data: Data, model: string, row: Row, paths: seq<seq<string>>, tenant: int)
    requires Respects(reg, data) && RowRespects(reg, model, row)
    requires forall i :: 0 <= i < |paths| ==> paths[i] != []
    ensures KeepsAll(reg, data, model, row, FiltersFor(reg, model, paths, tenant)) <==>
              AllEndInTenant(reg, data, model, row, paths, tenant)
  {
    var filters := FiltersFor(reg, model, paths, tenant);
    forall i | 0 <= i < |paths| ensures FilteredAt(reg, model, paths[i], tenant) {
      FilteredIff(reg, model, paths[i], tenant);
    }
    forall i | 0 <= i < |paths| && FilterFor(reg, model, paths[i], tenant).Some?
      ensures var f := FilterFor(reg, model, paths[i], tenant).value;
              && f in filters
              && (Keeps(reg, data, model, row, f) <==> EndsInTenant(reg, data, model, row, paths[i], f.column, tenant))
    {
      FiltersAreOfPaths(reg, model, paths, tenant, i);
      FilterIsExact(reg, data, model, row, paths[i], tenant);
    }
    forall f | f in filters && AllEndInTenant(reg, data, model, row, paths, tenant)
      ensures Keeps(reg, data, model, row, f)
    {
      var i :| 0 <= i < |paths| && FilterFor(reg, model, paths[i], tenant) == Some(f);
    }
  }

  /** No relation leaves the tenant: every chain that ends, ends in one of its rows. */
  ghost predicate StaysInTenant(reg: Registry, data: Data, model: string, row: Row, paths: seq<seq<string>>,
                                tenant: int) {
    forall i :: 0 <= i < |paths| ==>
      var column := TenantColumnAt(reg, model, paths[i]);
      var chain := Follow(reg, data, model, row, paths[i]);
      column.Some? && chain.Ends? ==> ColumnOf(Some(chain.row), column.value) == Some(tenant)
  }

  /** Some filtered path leads to a hidden row that does not read as a `NULL`. */
  ghost predicate LeadsToHidden(reg: Registry, data: Data, model: string, row: Row, paths: seq<seq<string>>)
    requires forall i :: 0 <= i < |paths| ==> paths[i] != []
  {
    exists i :: 0 <= i < |paths| && TenantColumnAt(reg, model, paths[i]).Some? &&
      var chain := Follow(reg, data, model, row, paths[i]);
      chain.Hidden? && !ReadsAsNull(reg, model, paths[i], chain.atLast)
  }

  /** While relations stay in the tenant, a row of the unfiltered left join is in the result, unless one
      of its paths leads to a row the policy hides. */
  lemma FiltersDropNothingIff(reg: Registry, data: Data, model: string, row: Row, paths: seq<seq<string>>, tenant: int)
    requires Respects(reg, data) && RowRespects(reg, model, row)
    requires forall i :: 0 <= i < |paths| ==> paths[i] != []
    requires StaysInTenant(reg, data, model, row, paths, tenant)
    ensures KeepsAll(reg, data, model, row, FiltersFor(reg, model, paths, tenant)) <==>
              !LeadsToHidden(reg, data, model, row, paths)
  {
    SelectRelatedIsExact(reg, data, model, row, paths, tenant);
    forall i | 0 <= i < |paths| && TenantColumnAt(reg, model, paths[i]).Some?
      ensures var column := TenantColumnAt(reg, model, paths[i]).value;
              var chain := Follow(reg, data, model, row, paths[i]);
              EndsInTenant(reg, data, model, row, paths[i], column, tenant) <==>
                !(chain.Hidden? && !ReadsAsNull(reg, model, paths[i], chain.atLast))
    {
      var chain := Follow(reg, data, model, row, paths[i]);
    }
  }
}
