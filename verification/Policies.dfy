/** The policies the constraints create, the fragment `safe_tenant_sql` returns, and what they mean. */
module Policies {
  import opened Gucs
  import opened Keys
  import opened Sql

  // ---- The expressions ----

  /** `tenant_value_sql` */
  function TenantValue(tenantVar: string): Expr {
    AsKey(NullIf(Setting(tenantVar), TextLiteral("")))
  }

  /** `tenant_match_sql` */
  function TenantMatch(column: Expr, tenantVar: string): Expr {
    Equals(column, TenantValue(tenantVar))
  }

  /** `bool_flag_sql` */
  function BoolFlag(variable: string): Expr {
    Equals(Setting(variable), TextLiteral("true"))
  }

  function BoolFlags(variables: seq<string>): (r: seq<Expr>) {
    seq(|variables|, i requires 0 <= i < |variables| => BoolFlag(variables[i]))
  }

  /** `USING` of the tenant policy. */
  function TenantUsing(column: Expr, tenantVar: string, adminVar: string, flags: seq<string>): Expr {
    CaseTrue(AnyOf([BoolFlag(adminVar)] + BoolFlags(flags)), TenantMatch(column, tenantVar))
  }

  /** `WITH CHECK` of the tenant policy. */
  function TenantCheck(column: Expr, tenantVar: string, adminVar: string): Expr {
    CaseTrue(BoolFlag(adminVar), TenantMatch(column, tenantVar))
  }

  /** The fragment `safe_tenant_sql` returns. */
  function SafeTenant(column: Expr, tenantVar: string, adminVar: string, includeAdmin: bool, flags: seq<string>): Expr {
    if !includeAdmin then TenantMatch(column, tenantVar)
    else AnyOf([TenantMatch(column, tenantVar), BoolFlag(adminVar)] + BoolFlags(flags))
  }

  /** `safe_tenant_sql`, which collects the bypass conditions in a loop. */
  method SafeTenantSql(column: Expr, tenantVar: string, adminVar: string, includeAdmin: bool, flags: seq<string>)
    returns (e: Expr)
    ensures e == SafeTenant(column, tenantVar, adminVar, includeAdmin, flags)
  {
    var tenantMatch := TenantMatch(column, tenantVar);
    if !includeAdmin {
      return tenantMatch;
    }
    var bypass := [BoolFlag(adminVar)];
    for i := 0 to |flags|
      invariant bypass == [BoolFlag(adminVar)] + BoolFlags(flags[..i])
    {
      bypass := bypass + [BoolFlag(flags[i])];
      assert flags[..i + 1] == flags[..i] + [flags[i]];
      assert BoolFlags(flags[..i + 1]) == BoolFlags(flags[..i]) + [BoolFlag(flags[i])];
    }
    assert flags[..|flags|] == flags;
    assert [tenantMatch] + bypass == [tenantMatch, BoolFlag(adminVar)] + BoolFlags(flags);
    e := AnyOf([tenantMatch] + bypass);
  }

  /** An extra predicate of a model: the columns are its registry's. */
  datatype Predicate =
    | SharedWith(through: string, fkColumn: string, targetColumn: string, tenantColumn: string)
    | TenantField(column: string)
    | RawPredicate(sql: Expr)

  const THROUGH_ALIAS := "rls_shared"

  /** `policy_sql` of a predicate, for the policy of `table`. */
  function PredicateSql(p: Predicate, table: string, tenantVar: string): Expr {
    match p
    case SharedWith(through, fk, target, tenant) =>
      Exists(through, THROUGH_ALIAS,
             And(Equals(Column(THROUGH_ALIAS, fk), Column(table, target)),
                 TenantMatch(Column(THROUGH_ALIAS, tenant), tenantVar)))
    case TenantField(column) => TenantMatch(Column(table, column), tenantVar)
    case RawPredicate(sql) => sql
  }

  function PredicatesSql(predicates: seq<Predicate>, table: string, tenantVar: string): (r: seq<Expr>) {
    seq(|predicates|, i requires 0 <= i < |predicates| => PredicateSql(predicates[i], table, tenantVar))
  }

  // ---- What the policies let through ----

  datatype Command = Select | SelectForUpdate | Insert | Update | Delete

  /** A permissive policy, for every command or for `SELECT`. */
  datatype Policy = Policy(onlySelect: bool, using: Expr, check: Option<Expr>)

  /** A protected model: its table, its tenant column, and the constraint's arguments. */
  datatype Model = Model(table: string, column: string, flags: seq<string>, predicates: seq<Predicate>)

  function TenantColumn(m: Model): Expr {
    Column(m.table, m.column)
  }

  function TenantPolicy(m: Model): Policy {
    Policy(false, TenantUsing(TenantColumn(m), TENANT_VAR, ADMIN_VAR, m.flags),
           Some(TenantCheck(TenantColumn(m), TENANT_VAR, ADMIN_VAR)))
  }

  /** The policies `RLSConstraint` creates; the sharing policy only with extra predicates. */
  function PoliciesOf(m: Model): (r: seq<Policy>) {
    if m.predicates == [] then [TenantPolicy(m)]
    else [TenantPolicy(m), Policy(true, AnyOf(PredicatesSql(m.predicates, m.table, TENANT_VAR)), None)]
  }

  /** Permissive policies are ORed: some policy of the command lets the stored row through. */
  predicate SomePolicyLets(policies: seq<Policy>, forSelect: bool, env: Env, scope: map<string, Row>) {
    exists i :: 0 <= i < |policies| && (policies[i].onlySelect ==> forSelect) && Holds(policies[i].using, env, scope)
  }

  /** PostgreSQL lets `command` reach the stored row; what changes or locks a row reads it too. */
  predicate Reaches(policies: seq<Policy>, command: Command, env: Env, scope: map<string, Row>) {
    match command
    case Select => SomePolicyLets(policies, true, env, scope)
    case Insert => false
    case _ => SomePolicyLets(policies, true, env, scope) && SomePolicyLets(policies, false, env, scope)
  }

  /** PostgreSQL lets `command` write the new row. */
  predicate Writes(policies: seq<Policy>, command: Command, env: Env, scope: map<string, Row>) {
    command in {Insert, Update} &&
    exists i :: 0 <= i < |policies| && !policies[i].onlySelect &&
      Holds(if policies[i].check.Some? then policies[i].check.value else policies[i].using, env, scope)
  }

  // ---- Meaning ----

  predicate FlagSet(env: Env, variable: string) {
    variable in env.settings && env.settings[variable] == "true"
  }

  /** The current tenant's key, if the setting is set and not empty. */
  function CurrentTenant(env: Env, tenantVar: string): Option<int> {
    if tenantVar in env.settings && env.settings[tenantVar] != "" then Some(Parse(env.settings[tenantVar])) else None
  }

  lemma TenantMatchMeans(column: Expr, tenantVar: string, env: Env, scope: map<string, Row>)
    ensures Holds(TenantMatch(column, tenantVar), env, scope) <==>
              && CurrentTenant(env, tenantVar).Some?
              && Eval(column, env, scope) == Value.Key(CurrentTenant(env, tenantVar).value)
    ensures Eval(TenantMatch(column, tenantVar), env, scope).Bool?
            || Eval(TenantMatch(column, tenantVar), env, scope).Null?
  {
    var setting := NullIf(Setting(tenantVar), TextLiteral(""));
    assert Eval(TextLiteral(""), env, scope) == Text("");
    assert Eval(Setting(tenantVar), env, scope) ==
             if tenantVar in env.settings then Text(env.settings[tenantVar]) else Null;
    assert TenantMatch(column, tenantVar) == Equals(column, AsKey(setting));
    if CurrentTenant(env, tenantVar).Some? {
      assert Eval(setting, env, scope) == Text(env.settings[tenantVar]);
      assert Eval(TenantValue(tenantVar), env, scope) == Value.Key(CurrentTenant(env, tenantVar).value);
    } else {
      assert Eval(setting, env, scope) == Null;
      assert Eval(TenantValue(tenantVar), env, scope) == Null;
    }
  }

  lemma BoolFlagMeans(variable: string, env: Env, scope: map<string, Row>)
    ensures Holds(BoolFlag(variable), env, scope) <==> FlagSet(env, variable)
  {
    assert Eval(TextLiteral("true"), env, scope) == Text("true");
    assert Eval(Setting(variable), env, scope) ==
             if variable in env.settings then Text(env.settings[variable]) else Null;
  }

  lemma BypassMeans(first: seq<Expr>, flags: seq<string>, env: Env, scope: map<string, Row>)
    requires first != []
    ensures Holds(AnyOf(first + BoolFlags(flags)), env, scope) <==>
              || Holds(AnyOf(first), env, scope)
              || exists f :: f in flags && FlagSet(env, f)
  {
    var all := first + BoolFlags(flags);
    AnyOfHolds(all, env, scope);
    AnyOfHolds(first, env, scope);
    forall i | 0 <= i < |flags| ensures Holds(all[|first| + i], env, scope) <==> FlagSet(env, flags[i]) {
      BoolFlagMeans(flags[i], env, scope);
    }
    forall i | 0 <= i < |first| ensures all[i] == first[i] {
    }
    if exists f :: f in flags && FlagSet(env, f) {
      var i :| 0 <= i < |flags| && FlagSet(env, flags[i]);
      assert Holds(all[|first| + i], env, scope);
    }
    if Holds(AnyOf(first), env, scope) {
      var i :| 0 <= i < |first| && Holds(first[i], env, scope);
      assert Holds(all[i], env, scope);
    }
  }

  /** The tenant policy lets a row through exactly for an admin, a bypass flag, or the row's tenant. */
  lemma UsingMeans(column: Expr, tenantVar: string, adminVar: string, flags: seq<string>, env: Env,
                   scope: map<string, Row>)
    ensures Holds(TenantUsing(column, tenantVar, adminVar, flags), env, scope) <==>
              || FlagSet(env, adminVar)
              || (exists f :: f in flags && FlagSet(env, f))
              || Holds(TenantMatch(column, tenantVar), env, scope)
  {
    BypassMeans([BoolFlag(adminVar)], flags, env, scope);
    BoolFlagMeans(adminVar, env, scope);
  }

  /** The fragment, given the policy's flags, is true exactly where the policy's `CASE` is: whatever
      is set, unset or empty, and whatever the row holds. */
  lemma SafeTenantIsThePolicy(column: Expr, tenantVar: string, adminVar: string, flags: seq<string>,
                              env: Env, scope: map<string, Row>)
    ensures Holds(SafeTenant(column, tenantVar, adminVar, true, flags), env, scope) <==>
              Holds(TenantUsing(column, tenantVar, adminVar, flags), env, scope)
  {
    var first := [TenantMatch(column, tenantVar), BoolFlag(adminVar)];
    BypassMeans(first, flags, env, scope);
    AnyOfHolds(first, env, scope);
    assert first[0] == TenantMatch(column, tenantVar) && first[1] == BoolFlag(adminVar);
    BoolFlagMeans(adminVar, env, scope);
    UsingMeans(column, tenantVar, adminVar, flags, env, scope);
  }

  /** Without the admin bypass it is true exactly where the policy is with every bypass off. */
  lemma BareMatchIsThePolicyWithoutBypass(column: Expr, tenantVar: string, adminVar: string, flags: seq<string>,
                                          env: Env, scope: map<string, Row>)
    ensures Holds(SafeTenant(column, tenantVar, adminVar, false, flags), env, scope) ==>
              Holds(TenantUsing(column, tenantVar, adminVar, flags), env, scope)
    ensures !FlagSet(env, adminVar) && (forall f :: f in flags ==> !FlagSet(env, f)) ==>
              (Holds(SafeTenant(column, tenantVar, adminVar, false, flags), env, scope) <==>
               Holds(TenantUsing(column, tenantVar, adminVar, flags), env, scope))
  {
    UsingMeans(column, tenantVar, adminVar, flags, env, scope);
  }

  /** Bypass flags never widen a write: what may be written depends on no flag's setting, and is the
      admin's or of the row's tenant. */
  lemma FlagsNeverWidenWrites(m: Model, command: Command, env: Env, scope: map<string, Row>)
    ensures Writes(PoliciesOf(m), command, env, scope) <==>
              && command in {Insert, Update}
              && (FlagSet(env, ADMIN_VAR) || Holds(TenantMatch(TenantColumn(m), TENANT_VAR), env, scope))
  {
    var policies := PoliciesOf(m);
    assert policies[0] == TenantPolicy(m);
    BoolFlagMeans(ADMIN_VAR, env, scope);
    assert Holds(policies[0].check.value, env, scope) <==>
             FlagSet(env, ADMIN_VAR) || Holds(TenantMatch(TenantColumn(m), TENANT_VAR), env, scope);
  }

  /** A predicate lets a row through. */
  ghost predicate Shared(m: Model, env: Env, scope: map<string, Row>) {
    exists i :: 0 <= i < |m.predicates| && Holds(PredicateSql(m.predicates[i], m.table, TENANT_VAR), env, scope)
  }

  /** Sharing predicates widen `SELECT` by exactly the rows they hold for, and no other command. */
  lemma SharingWidensSelectOnly(m: Model, command: Command, env: Env, scope: map<string, Row>)
    ensures var alone := m.(predicates := []);
            && Reaches(PoliciesOf(m), Select, env, scope) ==
                 (Reaches(PoliciesOf(alone), Select, env, scope) || Shared(m, env, scope))
            && (command != Select ==>
                  Reaches(PoliciesOf(m), command, env, scope) == Reaches(PoliciesOf(alone), command, env, scope))
            && Writes(PoliciesOf(m), command, env, scope) == Writes(PoliciesOf(alone), command, env, scope)
  {
    var alone := m.(predicates := []);
    var policies := PoliciesOf(m);
    assert policies[0] == TenantPolicy(m) == PoliciesOf(alone)[0];
    FlagsNeverWidenWrites(m, command, env, scope);
    FlagsNeverWidenWrites(alone, command, env, scope);
    if m.predicates != [] {
      var sharing := PredicatesSql(m.predicates, m.table, TENANT_VAR);
      AnyOfHolds(sharing, env, scope);
      assert forall i :: 0 <= i < |sharing| ==> sharing[i] == PredicateSql(m.predicates[i], m.table, TENANT_VAR);
      assert policies[1].using == AnyOf(sharing);
    }
  }

  /** Without a tenant no library predicate holds, for any row and any sharing records. */
  lemma NothingIsSharedWithoutATenant(p: Predicate, table: string, tenantVar: string, env: Env, scope: map<string, Row>)
    requires CurrentTenant(env, tenantVar).None? && !p.RawPredicate?
    ensures !Holds(PredicateSql(p, table, tenantVar), env, scope)
  {
    match p
    case TenantField(column) => TenantMatchMeans(Column(table, column), tenantVar, env, scope);
    case SharedWith(through, _, _, tenant) =>
      var rows := RowsOf(env, through);
      forall i | 0 <= i < |rows|
        ensures !Holds(PredicateSql(p, table, tenantVar).where, env, scope[THROUGH_ALIAS := rows[i]])
      {
        TenantMatchMeans(Column(THROUGH_ALIAS, tenant), tenantVar, env, scope[THROUGH_ALIAS := rows[i]]);
      }
  }

  function At(row: Row, column: string): Value {
    if column in row then row[column] else Null
  }

  /** A row is shared with the tenant its own column names. */
  lemma TenantFieldMeans(p: Predicate, table: string, tenantVar: string, env: Env, scope: map<string, Row>)
    requires p.TenantField? && table in scope
    ensures Holds(PredicateSql(p, table, tenantVar), env, scope) <==>
              && CurrentTenant(env, tenantVar).Some?
              && At(scope[table], p.column) == Value.Key(CurrentTenant(env, tenantVar).value)
  {
    TenantMatchMeans(Column(table, p.column), tenantVar, env, scope);
  }

  /** A row is shared with the tenant of a record that points at both. */
  lemma SharedWithMeans(p: Predicate, table: string, tenantVar: string, env: Env, scope: map<string, Row>)
    requires p.SharedWith? && table in scope && table != THROUGH_ALIAS
    ensures Holds(PredicateSql(p, table, tenantVar), env, scope) <==>
              exists i :: 0 <= i < |RowsOf(env, p.through)| &&
                var record := RowsOf(env, p.through)[i];
                && At(record, p.fkColumn) == At(scope[table], p.targetColumn) != Null
                && CurrentTenant(env, tenantVar).Some?
                && At(record, p.tenantColumn) == Value.Key(CurrentTenant(env, tenantVar).value)
  {
    var rows := RowsOf(env, p.through);
    var where := PredicateSql(p, table, tenantVar).where;
    forall i | 0 <= i < |rows|
      ensures Holds(where, env, scope[THROUGH_ALIAS := rows[i]]) <==>
                && At(rows[i], p.fkColumn) == At(scope[table], p.targetColumn) != Null
                && CurrentTenant(env, tenantVar).Some?
                && At(rows[i], p.tenantColumn) == Value.Key(CurrentTenant(env, tenantVar).value)
    {
      var inner := scope[THROUGH_ALIAS := rows[i]];
      TenantMatchMeans(Column(THROUGH_ALIAS, p.tenantColumn), tenantVar, env, inner);
      assert Eval(Column(THROUGH_ALIAS, p.fkColumn), env, inner) == At(rows[i], p.fkColumn);
      assert Eval(Column(table, p.targetColumn), env, inner) == At(scope[table], p.targetColumn);
      var points := Equals(Column(THROUGH_ALIAS, p.fkColumn), Column(table, p.targetColumn));
      assert where == And(points, TenantMatch(Column(THROUGH_ALIAS, p.tenantColumn), tenantVar));
      assert Eval(points, env, inner) == EqualTo(At(rows[i], p.fkColumn), At(scope[table], p.targetColumn));
      assert Eval(Column(THROUGH_ALIAS, p.tenantColumn), env, inner) == At(rows[i], p.tenantColumn);
    }
  }

  // ---- Join tables ----

  /** One side of a many-to-many join table; `tenantColumn` is `None` when it is not protected. */
  datatype Side = Side(table: string, fkColumn: string, tenantColumn: Option<string>)

  /** The rows of a side that the join row points at and that are the tenant's. */
  function SideCondition(joinTable: string, side: Side, tenantVar: string): Expr
    requires side.tenantColumn.Some?
  {
    Exists(side.table, side.table,
           And(Equals(Column(side.table, "id"), Column(joinTable, side.fkColumn)),
               TenantMatch(Column(side.table, side.tenantColumn.value), tenantVar)))
  }

  function SideConditions(joinTable: string, side: Side, tenantVar: string): seq<Expr> {
    if side.tenantColumn.Some? then [SideCondition(joinTable, side, tenantVar)] else []
  }

  /** `a AND b` */
  function AllOf(conditions: seq<Expr>): Expr
    requires conditions != []
  {
    if |conditions| == 1 then conditions[0]
    else And(AllOf(conditions[..|conditions| - 1]), conditions[|conditions| - 1])
  }

  lemma {:induction false} AllOfHolds(conditions: seq<Expr>, env: Env, scope: map<string, Row>)
    requires conditions != []
    ensures Holds(AllOf(conditions), env, scope) <==>
              forall i :: 0 <= i < |conditions| ==> Holds(conditions[i], env, scope)
  {
    var n := |conditions| - 1;
    if n > 0 {
      AllOfHolds(conditions[..n], env, scope);
      assert AllOf(conditions) == And(AllOf(conditions[..n]), conditions[n]);
      assert forall i :: 0 <= i < n ==> conditions[..n][i] == conditions[i];
    }
  }

  /** `_build_m2m_conditions`; the constraint refuses two unprotected sides. */
  function JoinConditions(joinTable: string, source: Side, target: Side, tenantVar: string): Expr
    requires source.tenantColumn.Some? || target.tenantColumn.Some?
  {
    AllOf(SideConditions(joinTable, source, tenantVar) + SideConditions(joinTable, target, tenantVar))
  }

  /** `USING` and `WITH CHECK` of the join table's policy. */
  function JoinPolicy(joinTable: string, source: Side, target: Side, tenantVar: string, adminVar: string): Expr
    requires source.tenantColumn.Some? || target.tenantColumn.Some?
  {
    CaseTrue(BoolFlag(adminVar), JoinConditions(joinTable, source, target, tenantVar))
  }

  /** The join row points, on this side, at a row of the current tenant. */
  ghost predicate PointsIntoTenant(joinRow: Row, side: Side, tenantVar: string, env: Env) {
    side.tenantColumn.Some? ==>
      exists i :: 0 <= i < |RowsOf(env, side.table)| &&
        var row := RowsOf(env, side.table)[i];
        && At(row, "id") == At(joinRow, side.fkColumn) != Null
        && CurrentTenant(env, tenantVar).Some?
        && At(row, side.tenantColumn.value) == Value.Key(CurrentTenant(env, tenantVar).value)
  }

  lemma SideConditionMeans(joinTable: string, side: Side, tenantVar: string, env: Env, joinRow: Row)
    requires side.tenantColumn.Some? && side.table != joinTable
    ensures Holds(SideCondition(joinTable, side, tenantVar), env, map[joinTable := joinRow]) <==>
              PointsIntoTenant(joinRow, side, tenantVar, env)
  {
    var rows := RowsOf(env, side.table);
    var scope := map[joinTable := joinRow];
    var points := Equals(Column(side.table, "id"), Column(joinTable, side.fkColumn));
    var tenantMatch := TenantMatch(Column(side.table, side.tenantColumn.value), tenantVar);
    assert SideCondition(joinTable, side, tenantVar).where == And(points, tenantMatch);
    forall i | 0 <= i < |rows|
      ensures Holds(And(points, tenantMatch), env, scope[side.table := rows[i]]) <==>
                && At(rows[i], "id") == At(joinRow, side.fkColumn) != Null
                && CurrentTenant(env, tenantVar).Some?
                && At(rows[i], side.tenantColumn.value) == Value.Key(CurrentTenant(env, tenantVar).value)
    {
      var inner := scope[side.table := rows[i]];
      TenantMatchMeans(Column(side.table, side.tenantColumn.value), tenantVar, env, inner);
      assert Eval(points, env, inner) == EqualTo(At(rows[i], "id"), At(joinRow, side.fkColumn));
      assert Eval(Column(side.table, side.tenantColumn.value), env, inner) == At(rows[i], side.tenantColumn.value);
    }
  }

  /** A join row passes for an admin, or when every protected side it points at is the tenant's. */
  lemma JoinPolicyMeans(joinTable: string, source: Side, target: Side, tenantVar: string, adminVar: string, env: Env,
                        joinRow: Row)
    requires source.tenantColumn.Some? || target.tenantColumn.Some?
    requires source.table != joinTable && target.table != joinTable
    ensures Holds(JoinPolicy(joinTable, source, target, tenantVar, adminVar), env, map[joinTable := joinRow]) <==>
              || FlagSet(env, adminVar)
              || (PointsIntoTenant(joinRow, source, tenantVar, env)
                  && PointsIntoTenant(joinRow, target, tenantVar, env))
  {
    var scope := map[joinTable := joinRow];
    BoolFlagMeans(adminVar, env, scope);
    if source.tenantColumn.Some? {
      SideConditionMeans(joinTable, source, tenantVar, env, joinRow);
    }
    if target.tenantColumn.Some? {
      SideConditionMeans(joinTable, target, tenantVar, env, joinRow);
    }
    var conditions := SideConditions(joinTable, source, tenantVar) + SideConditions(joinTable, target, tenantVar);
    AllOfHolds(conditions, env, scope);
    if source.tenantColumn.Some? {
      assert conditions[0] == SideCondition(joinTable, source, tenantVar);
    }
    if target.tenantColumn.Some? {
      assert conditions[|conditions| - 1] == SideCondition(joinTable, target, tenantVar);
    }
  }

  /** What a session that is no admin sees of a protected table inside a subquery. */
  function UnderItsPolicy(env: Env, m: Model): Env
    requires m.table in env.tables
  {
    env.(tables := env.tables[m.table := FilterRows(env.tables[m.table],
      row => SomePolicyLets(PoliciesOf(m), true, env, map[m.table := row]))])
  }

  /** The subquery of a side reads its table under that table's own policy, which changes nothing:
      the rows of the tenant pass it. */
  lemma SidePolicyChangesNothing(joinRow: Row, side: Side, m: Model, env: Env)
    requires m.table == side.table && side.tenantColumn == Some(m.column) && m.table in env.tables
    ensures PointsIntoTenant(joinRow, side, TENANT_VAR, UnderItsPolicy(env, m)) <==>
              PointsIntoTenant(joinRow, side, TENANT_VAR, env)
  {
    var rows, seen := RowsOf(env, m.table), RowsOf(UnderItsPolicy(env, m), m.table);
    forall row | row in rows && CurrentTenant(env, TENANT_VAR).Some?
                 && At(row, m.column) == Value.Key(CurrentTenant(env, TENANT_VAR).value)
      ensures row in seen
    {
      var scope := map[m.table := row];
      TenantMatchMeans(TenantColumn(m), TENANT_VAR, env, scope);
      UsingMeans(TenantColumn(m), TENANT_VAR, ADMIN_VAR, m.flags, env, scope);
      assert PoliciesOf(m)[0] == TenantPolicy(m);
      assert Eval(TenantColumn(m), env, scope) == At(row, m.column);
    }
    if PointsIntoTenant(joinRow, side, TENANT_VAR, env) {
      var i :| 0 <= i < |rows| && At(rows[i], "id") == At(joinRow, side.fkColumn) != Null
               && CurrentTenant(env, TENANT_VAR).Some?
               && At(rows[i], m.column) == Value.Key(CurrentTenant(env, TENANT_VAR).value);
      var j :| 0 <= j < |seen| && seen[j] == rows[i];
    }
    if PointsIntoTenant(joinRow, side, TENANT_VAR, UnderItsPolicy(env, m)) {
      var j :| 0 <= j < |seen| && At(seen[j], "id") == At(joinRow, side.fkColumn) != Null
               && CurrentTenant(env, TENANT_VAR).Some?
               && At(seen[j], m.column) == Value.Key(CurrentTenant(env, TENANT_VAR).value);
      assert seen[j] in rows;
      var i :| 0 <= i < |rows| && rows[i] == seen[j];
    }
  }
}
