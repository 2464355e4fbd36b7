/** Isolation from end to end: the guard brings the session to the task's context, and the policy
    lets through that context's rows. */
module Isolation {
  import opened Gucs
  import opened Keys
  import opened Sql
  import opened Policies
  import Guard
  import GuardSoundness
  import Holders
  import Blocks
  import AutoScope

  /** Which rows a task may read. */
  datatype Reach = NoRows | AllRows | RowsOfTenant(key: int)

  /** What the values of a context mean: those `tenant_context()` and `admin_context()` set, or none. */
  predicate Means(values: Option<ContextGucs>, reach: Reach) {
    match reach
    case NoRows => values == None
    case AllRows => values == Some(ADMIN_GUCS)
    case RowsOfTenant(key) => values == Some(ForTenant(Render(key)))
  }

  /** A setting the session shows as empty may be unset there. */
  predicate Shows(env: Env, g: ContextGucs) {
    ValueIn(env.settings, TENANT_VAR) == g.currentTenant && ValueIn(env.settings, ADMIN_VAR) == g.isAdmin
  }

  function RowsIn(rows: seq<Row>, column: string, reach: Reach): seq<Row> {
    match reach
    case NoRows => []
    case AllRows => rows
    case RowsOfTenant(key) => FilterRows(rows, row => At(row, column) == Value.Key(key))
  }

  /** What a `SELECT` on the model's table returns under its policies. */
  function Read(m: Model, env: Env, rows: seq<Row>): seq<Row> {
    FilterRows(rows, row => Reaches(PoliciesOf(m), Select, env, map[m.table := row]))
  }

  /** `RLSManager.get_queryset`: `WHERE tenant_id = X` with the tenant of the context, if any. */
  function Managed(m: Model, env: Env, rows: seq<Row>, tenant: Option<int>): seq<Row> {
    if tenant.None? then Read(m, env, rows)
    else FilterRows(Read(m, env, rows), row => EqualTo(At(row, m.column), Value.Key(tenant.value)) == Bool(true))
  }

  /** The policy under the values of a context lets one row through exactly when it is in reach. */
  lemma RowIsInReach(m: Model, env: Env, row: Row, values: Option<ContextGucs>, reach: Reach)
    requires m.flags == [] && m.predicates == [] && Means(values, reach) && Shows(env, OnSession(values))
    ensures Reaches(PoliciesOf(m), Select, env, map[m.table := row]) <==>
              match reach
              case NoRows => false
              case AllRows => true
              case RowsOfTenant(key) => At(row, m.column) == Value.Key(key)
  {
    var scope := map[m.table := row];
    assert PoliciesOf(m)[0] == TenantPolicy(m);
    UsingMeans(TenantColumn(m), TENANT_VAR, ADMIN_VAR, m.flags, env, scope);
    TenantMatchMeans(TenantColumn(m), TENANT_VAR, env, scope);
    assert Eval(TenantColumn(m), env, scope) == At(row, m.column);
    if reach.RowsOfTenant? {
      CastReadsTheKey(reach.key);
    }
  }

  lemma PolicyReturnsTheRowsInReach(m: Model, env: Env, rows: seq<Row>, values: Option<ContextGucs>, reach: Reach)
    requires m.flags == [] && m.predicates == [] && Means(values, reach) && Shows(env, OnSession(values))
    ensures Read(m, env, rows) == RowsIn(rows, m.column, reach)
  {
    var reaches := (row: Row) => Reaches(PoliciesOf(m), Select, env, map[m.table := row]);
    forall row | row in rows
      ensures reaches(row) <==>
                match reach
                case NoRows => false
                case AllRows => true
                case RowsOfTenant(key) => At(row, m.column) == Value.Key(key)
    {
      RowIsInReach(m, env, row, values, reach);
    }
    match reach
    case NoRows => NothingPasses(rows, row => Reaches(PoliciesOf(m), Select, env, map[m.table := row]));
    case AllRows => PassingFilter(rows, row => Reaches(PoliciesOf(m), Select, env, map[m.table := row]));
    case RowsOfTenant(key) =>
      SameFilter(rows, row => Reaches(PoliciesOf(m), Select, env, map[m.table := row]), row => At(row, m.column) ==
                   Value.Key(key));
  }

  /** The run of a readable statement by a task, after any run of the tasks that share the connection. */
  ghost predicate RunsInATask(sys: Blocks.System, events: seq<Blocks.Event>, localMode: bool, c: nat,
                              q: Guard.Statement, f: Guard.Faults) {
    && Blocks.SystemInv(sys) && Blocks.LegalRun(sys, events, localMode)
    && var sys' := Blocks.Run(sys, events, localMode);
    && Blocks.HasContext(sys', c) && !Guard.IsControl(q)
    && (sys'.conn.session.Some? ==>
          !GuardSoundness.RunsAsItIs(sys'.conn, Holders.Visible(sys'.world, c), localMode, q))
    && Blocks.RunStatementIn(sys', c, localMode, q, f).showed.Some?
  }

  /** What the session shows the statement, and the values of the task's innermost live context. */
  ghost function ShownTo(sys: Blocks.System, events: seq<Blocks.Event>, localMode: bool, c: nat, q: Guard.Statement,
                         f: Guard.Faults): ContextGucs
    requires RunsInATask(sys, events, localMode, c, q, f)
  {
    Blocks.RunStatementIn(Blocks.Run(sys, events, localMode), c, localMode, q, f).showed.value
  }

  ghost function ContextOf(sys: Blocks.System, events: seq<Blocks.Event>, localMode: bool, c: nat): Option<ContextGucs>
    requires Blocks.SystemInv(sys) && Blocks.LegalRun(sys, events, localMode)
    requires Blocks.HasContext(Blocks.Run(sys, events, localMode), c)
  {
    Holders.Visible(Blocks.Run(sys, events, localMode).world, c)
  }

  /** Isolation: whatever the tasks that share the connection ran before, in whatever mode, a query of
      a protected table returns exactly the rows of the task's innermost live tenant context, all
      rows in an admin context, and none without a context. */
  lemma GuardedReadIsIsolated(sys: Blocks.System, events: seq<Blocks.Event>, localMode: bool, c: nat,
                              q: Guard.Statement, f: Guard.Faults, m: Model, env: Env, rows: seq<Row>, reach: Reach)
    requires RunsInATask(sys, events, localMode, c, q, f)
    requires Shows(env, ShownTo(sys, events, localMode, c, q, f))
    requires m.flags == [] && m.predicates == []
    requires Means(ContextOf(sys, events, localMode, c), reach)
    ensures Read(m, env, rows) == RowsIn(rows, m.column, reach)
  {
    Blocks.EveryTaskSeesItsOwnContext(sys, events, localMode, c, q, f);
    PolicyReturnsTheRowsInReach(m, env, rows, ContextOf(sys, events, localMode, c), reach);
  }

  /** The manager's filter widens nothing, whatever tenant it filters for. */
  lemma ManagerNeverWidens(m: Model, env: Env, rows: seq<Row>, tenant: Option<int>, row: Row)
    ensures row in Managed(m, env, rows, tenant) ==> row in Read(m, env, rows)
  {
  }

  /** The exact condition for one context: the manager's filter changes no result, whatever the table
      holds, if and only if there is nothing in reach, no filter, or the filter is for the context's tenant. */
  lemma ManagerChangesNothingIff(m: Model, env: Env, values: Option<ContextGucs>, reach: Reach, tenant: Option<int>)
    requires m.flags == [] && m.predicates == [] && Means(values, reach) && Shows(env, OnSession(values))
    ensures (forall rows :: Managed(m, env, rows, tenant) == Read(m, env, rows)) <==>
              reach.NoRows? || tenant.None? || reach == RowsOfTenant(tenant.value)
  {
    forall rows: seq<Row>
      ensures reach.NoRows? || tenant.None? || reach == RowsOfTenant(tenant.value) ==>
                Managed(m, env, rows, tenant) == Read(m, env, rows)
    {
      PolicyReturnsTheRowsInReach(m, env, rows, values, reach);
      if tenant.Some? && (reach.NoRows? || reach == RowsOfTenant(tenant.value)) {
        PassingFilter(Read(m, env, rows), row => EqualTo(At(row, m.column), Value.Key(tenant.value)) == Bool(true));
      }
    }
    if !reach.NoRows? && tenant.Some? && reach != RowsOfTenant(tenant.value) {
      var key := if reach.RowsOfTenant? then reach.key else tenant.value + 1;
      FilterTakesTheRow(m, env, values, reach, tenant.value, key);
    }
  }

  /** A row in reach of a tenant the filter is not for is taken away. */
  lemma FilterTakesTheRow(m: Model, env: Env, values: Option<ContextGucs>, reach: Reach, tenant: int, key: int)
    requires m.flags == [] && m.predicates == [] && Means(values, reach) && Shows(env, OnSession(values))
    requires key != tenant && (reach.AllRows? || reach == RowsOfTenant(key))
    ensures var rows := [map[m.column := Value.Key(key)]];
            Managed(m, env, rows, Some(tenant)) != Read(m, env, rows)
  {
    var row: Row := map[m.column := Value.Key(key)];
    RowIsInReach(m, env, row, values, reach);
    var read := Read(m, env, [row]);
    assert [row][0] in [row] && row in read;
    assert row !in Managed(m, env, [row], Some(tenant));
  }

  /** For any table and tenant: exactly when a row the policy lets through is not of it, a bypass flag's or
      a sharing predicate's, does the filter take something away. */
  lemma ManagerKeepsIff(m: Model, env: Env, rows: seq<Row>, tenant: int)
    ensures Managed(m, env, rows, Some(tenant)) == Read(m, env, rows) <==>
              forall row :: row in rows && Reaches(PoliciesOf(m), Select, env, map[m.table := row]) ==>
                At(row, m.column) == Value.Key(tenant)
  {
    var read := Read(m, env, rows);
    if forall row :: row in read ==> At(row, m.column) == Value.Key(tenant) {
      PassingFilter(read, row => EqualTo(At(row, m.column), Value.Key(tenant)) == Bool(true));
    } else {
      var row :| row in read && At(row, m.column) != Value.Key(tenant);
      assert row !in Managed(m, env, rows, Some(tenant));
    }
  }

  // ---- The manager, over runs ----

  /** The tenant the task's managers filter for, after the run. */
  ghost function TenantOfTask(scope: AutoScope.Scope, sys: Blocks.System, events: seq<Blocks.Event>, localMode: bool,
                              c: nat): Option<int>
    requires Blocks.SystemInv(sys) && Blocks.LegalRun(sys, events, localMode)
    requires AutoScope.ScopeInv(scope) && scope.world == sys.world
    requires Blocks.HasContext(Blocks.Run(sys, events, localMode), c)
  {
    Blocks.TraceMovesHolders(sys, events, localMode);
    AutoScope.TenantIn(AutoScope.Run(scope, Blocks.Trace(sys, events, localMode)), c)
  }

  /** What the values of a context mean, its tenant says. */
  lemma TenantSaysTheReach(values: Option<ContextGucs>, reach: Reach)
    requires Means(values, reach)
    ensures AutoScope.TenantFor(values) == if reach.RowsOfTenant? then Some(reach.key) else None
  {
    if reach.RowsOfTenant? {
      CastReadsTheKey(reach.key);
    }
  }

  /** Isolation with the manager: after any run of the tasks that holds no harmful copy between
      `Context`s, the manager's query returns exactly what the policy alone would: the rows of the
      innermost live tenant context, all rows in an admin context, none without a context. */
  lemma ManagedReadIsIsolated(sys: Blocks.System, events: seq<Blocks.Event>, localMode: bool, c: nat,
                              q: Guard.Statement, f: Guard.Faults, m: Model, env: Env, rows: seq<Row>, reach: Reach,
                              scope: AutoScope.Scope)
    requires RunsInATask(sys, events, localMode, c, q, f)
    requires Shows(env, ShownTo(sys, events, localMode, c, q, f))
    requires m.flags == [] && m.predicates == []
    requires Means(ContextOf(sys, events, localMode, c), reach)
    requires AutoScope.ScopeInv(scope) && scope.world == sys.world
    requires AutoScope.AlwaysHarmless(scope, Blocks.Trace(sys, events, localMode))
    ensures Managed(m, env, rows, TenantOfTask(scope, sys, events, localMode, c)) == RowsIn(rows, m.column, reach)
  {
    var trace := Blocks.Trace(sys, events, localMode);
    var values := ContextOf(sys, events, localMode, c);
    Blocks.TraceMovesHolders(sys, events, localMode);
    AutoScope.HarmlessRunAgrees(scope, trace);
    assert AutoScope.Agrees(AutoScope.Run(scope, trace), c);
    TenantSaysTheReach(values, reach);
    GuardedReadIsIsolated(sys, events, localMode, c, q, f, m, env, rows, reach);
    Blocks.EveryTaskSeesItsOwnContext(sys, events, localMode, c, q, f);
    ManagerChangesNothingIff(m, env, values, reach, TenantOfTask(scope, sys, events, localMode, c));
  }

  /** A task that cancels a call inside another tenant's block keeps its context, and loses its rows: the
      manager filters them for the other tenant. */
  lemma CancelledCallLosesRows(m: Model, env: Env)
    requires m.flags == [] && m.predicates == []
    requires Shows(env, OnSession(Some(ForTenant(Render(1)))))
    ensures var s := AutoScope.Run(AutoScope.NOTHING, AutoScope.CANCELLED_CALL);
            var rows := [map[m.column := Value.Key(1)]];
            && |s.slots| == |s.world.slots| == 2
            && Holders.Visible(s.world, 0) == Some(ForTenant(Render(1)))
            && Read(m, env, rows) == rows && Managed(m, env, rows, AutoScope.TenantIn(s, 0)) == []
  {
    AutoScope.CancelledCallBringsItsTenant();
    var row: Row := map[m.column := Value.Key(1)];
    var values := Some(ForTenant(Render(1)));
    PolicyReturnsTheRowsInReach(m, env, [row], values, RowsOfTenant(1));
    PassingFilter([row], r => At(r, m.column) == Value.Key(1));
    NothingPasses([row], r => EqualTo(At(r, m.column), Value.Key(2)) == Bool(true));
  }
}
