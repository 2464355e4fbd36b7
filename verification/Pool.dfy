/** Sessions lent by a connection pool: what a checkout and a return do to their settings. */
module Pool {
  import opened Gucs
  import opened Sessions
  import opened Trackers
  import opened TrackerSoundness
  import opened Guard
  import opened GuardSoundness
  import opened Snapshots
  import opened Aliases
  import Runs

  // ---- The settings the policies read ----

  datatype Constraint =
    | TenantConstraint(tenantVar: string, adminVar: string, flags: seq<string>)
    | JoinConstraint(tenantVar: string, adminVar: string)
    | OtherConstraint

  function NamesOf(c: Constraint): seq<string> {
    match c
    case TenantConstraint(tenant, admin, flags) => [tenant, admin] + flags
    case JoinConstraint(tenant, admin) => [tenant, admin]
    case OtherConstraint => []
  }

  function NamesOfAll(constraints: seq<Constraint>): seq<string> {
    if constraints == [] then []
    else NamesOfAll(constraints[..|constraints| - 1]) + NamesOf(constraints[|constraints| - 1])
  }

  /** `dict.fromkeys`: the first of equal names stays. */
  function Deduplicated(names: seq<string>): (r: seq<string>)
    ensures forall n :: n in r <==> n in names
    ensures forall i, j :: 0 <= i < j < |r| ==> r[i] != r[j]
  {
    if names == [] then []
    else
      var init, last := Deduplicated(names[..|names| - 1]), names[|names| - 1];
      if last in init then init else init + [last]
  }

  function Only(names: seq<string>, custom: string -> bool): (r: seq<string>)
    ensures forall n :: n in r <==> n in names && custom(n)
  {
    if names == [] then []
    else
      var init, last := Only(names[..|names| - 1], custom), names[|names| - 1];
      if custom(last) then init + [last] else init
  }

  function NamesOfModels(models: seq<seq<Constraint>>): seq<string> {
    if models == [] then []
    else NamesOfModels(models[..|models| - 1]) + NamesOfAll(models[|models| - 1])
  }

  /** `_declared_policy_guc_names` */
  method DeclaredNames(models: seq<seq<Constraint>>) returns (names: seq<string>)
    ensures names == Deduplicated(NamesOfModels(models))
  {
    names := [];
    for m := 0 to |models|
      invariant names == NamesOfModels(models[..m])
    {
      var found := [];
      for i := 0 to |models[m]|
        invariant found == NamesOfAll(models[m][..i])
      {
        assert models[m][..i + 1][..i] == models[m][..i];
        found := found + NamesOf(models[m][i]);
      }
      assert models[m][..|models[m]|] == models[m];
      assert models[..m + 1][..m] == models[..m];
      names := names + found;
    }
    assert models[..|models|] == models;
    names := Deduplicated(names);
  }

  ghost predicate Reads(constraints: seq<Constraint>, n: string) {
    exists i :: 0 <= i < |constraints| && n in NamesOf(constraints[i])
  }

  lemma {:induction false} NamesOfAllAreRead(constraints: seq<Constraint>, n: string)
    ensures n in NamesOfAll(constraints) <==> Reads(constraints, n)
  {
    if constraints != [] {
      var last := |constraints| - 1;
      var init := constraints[..last];
      NamesOfAllAreRead(init, n);
      assert NamesOfAll(constraints) == NamesOfAll(init) + NamesOf(constraints[last]);
      assert forall i :: 0 <= i < last ==> init[i] == constraints[i];
    }
  }

  /** The names to clear are exactly those some constraint of some model reads. */
  lemma {:induction false} DeclaredNamesAreThoseRead(models: seq<seq<Constraint>>, n: string)
    ensures n in Deduplicated(NamesOfModels(models)) <==> exists k :: 0 <= k < |models| && Reads(models[k], n)
    decreases |models|
  {
    if models != [] {
      var last := |models| - 1;
      NamesOfAllAreRead(models[last], n);
      var init := models[..last];
      DeclaredNamesAreThoseRead(init, n);
      assert NamesOfModels(models) == NamesOfModels(init) + NamesOfAll(models[last]);
      assert forall k :: 0 <= k < last ==> init[k] == models[k];
    }
  }

  /** `_policy_guc_names`; `custom` are the names PostgreSQL accepts for a setting of one's own. */
  function PolicyNames(declared: seq<string>, custom: string -> bool): (names: seq<string>)
    ensures forall n :: n in names <==> custom(n) && (n in declared || n == ADMIN_VAR || n == TENANT_VAR)
  {
    Only(Deduplicated([ADMIN_VAR, TENANT_VAR] + declared), custom)
  }

  // ---- Sessions with all their settings ----

  type Settings = map<string, string>

  /** The two settings the guard follows. */
  function Held(m: Settings): ContextGucs {
    ContextGucs(ValueIn(m, ADMIN_VAR), ValueIn(m, TENANT_VAR))
  }

  function WithHeld(m: Settings, g: ContextGucs): Settings {
    m[ADMIN_VAR := g.isAdmin][TENANT_VAR := g.currentTenant]
  }

  /** One statement that clears `names`. */
  function ClearNames(m: Settings, names: seq<string>): (r: Settings)
    ensures forall n :: ValueIn(r, n) == if n in names then "" else ValueIn(m, n)
  {
    if names == [] then m
    else
      assert names == names[..|names| - 1] + [names[|names| - 1]];
      ClearNames(m, names[..|names| - 1])[names[|names| - 1] := ""]
  }

  /** What a fresh session of the pool may find: on which thread, in what request, in what mode. */
  datatype Facts = Facts(
    pooled: bool,
    configured: bool,
    gucsSet: bool,
    onRequestThread: bool,
    localMode: bool,
    active: Option<ContextGucs>)

  /** What goes wrong; `past`: an exception the handlers' `except Exception` does not catch. */
  datatype CheckoutFaults = CheckoutFaults(clear: Fault, commit: Fault, apply: Fault, past: bool)

  /** An exception of the database is always caught; what is raised before anything is sent, or once it
      is done, may be an interruption. */
  predicate PassesHandlers(fault: Fault, f: CheckoutFaults) {
    f.past && NotOfDatabase(fault)
  }

  /** A connection, all settings its session keeps if it commits, and if it rolls back; and whether the
      checkout raised. */
  datatype Lent = Lent(conn: Conn, settings: Settings, undone: Settings, raised: bool)

  predicate Done(fault: Fault) {
    fault in {Fine, Interrupted}
  }

  /** The settings after the clear and, outside autocommit, its commit. */
  function AfterClear(l: Lent, names: seq<string>, f: CheckoutFaults): (Settings, Settings) {
    var cleared := ClearNames(l.settings, names);
    if !Done(f.clear) then (l.settings, l.undone)
    else if l.conn.autocommit || (f.clear == Fine && Done(f.commit)) then (cleared, cleared)
    else if f.clear == Fine && f.commit == Rejected then (l.undone, l.undone)
    else (cleared, l.undone)
  }

  /** `_clear_policy_gucs` inside `writing()`. */
  function ClearPolicyGucs(l: Lent, names: seq<string>, f: CheckoutFaults): Lent
    requires l.conn.session.Some?
  {
    var c := l.conn;
    var s := c.session.value;
    var looked := Look(c.tracker, s);
    var (settings, undone) := AfterClear(l, names, f);
    var sent := SendWriteThroughCursor(s, c.autocommit, c.needsRollback, CLEARED, false, f.clear);
    var c1 := c.(session := Some(sent.session));
    if sent.raised then Lent(c1.(tracker := Forget(looked)), settings, undone, true)
    else if c.autocommit then Lent(c1.(tracker := Record(looked, sent.session, None, c.guarded, false)), settings,
                                   undone, false)
    else
      var ended := Send(sent.session, CommitTransaction(false), f.commit);
      var c2 := c.(session := Some(ended.session));
      if ended.raised then Lent(c2.(tracker := Forget(looked)), settings, undone, true)
      else Lent(c2.(tracker := Record(looked, ended.session, None, c.guarded, false)), settings, undone, false)
  }

  /** What the clear raises passes the handler. */
  predicate ClearPasses(autocommit: bool, f: CheckoutFaults) {
    PassesHandlers(f.clear, f) || (f.clear == Fine && !autocommit && PassesHandlers(f.commit, f))
  }

  /** `_clear_new_connection_gucs`: a failure ends a pooled session, and is only logged otherwise; one that
      passes the handler leaves the session open. */
  function ClearNewConnection(l: Lent, names: seq<string>, pooled: bool, f: CheckoutFaults): Lent
    requires l.conn.session.Some?
  {
    var r := ClearPolicyGucs(l, names, f);
    if !r.raised || ClearPasses(l.conn.autocommit, f) then r
    else if !pooled then r.(raised := false)
    else r.(conn := r.conn.(session := None))
  }

  /** `_apply_request_gucs`; a failure is logged, one that passes the handler raises. */
  function ApplyRequestGucs(l: Lent, active: Option<ContextGucs>, f: CheckoutFaults): Lent
    requires l.conn.session.Some?
  {
    if active.None? then l
    else
      var ran := WriteGucs(l.conn, active, false, f.apply);
      var settings := WithHeld(l.settings, ran.conn.session.value.kept);
      Lent(ran.conn, settings, if ran.conn.session.value.status == Idle then settings else l.undone,
           ran.raised && PassesHandlers(f.apply, f))
  }

  /** `install`, then `_prepare_new_connection`, for a session just opened or checked out. */
  function Prepare(c: Conn, id: nat, settings: Settings, facts: Facts, names: seq<string>, f: CheckoutFaults): Lent {
    var l := Opened(c, id, settings, facts.pooled);
    if !facts.configured then l
    else if facts.gucsSet && !facts.onRequestThread then ClearNewConnection(l, names, facts.pooled, f)
    else
      var cleared := if facts.pooled then ClearNewConnection(l, names, true, f) else l;
      if cleared.raised || cleared.conn.session.None? then cleared
      else if facts.onRequestThread && !facts.localMode then ApplyRequestGucs(cleared, facts.active, f)
      else cleared
  }

  /** The session, with what it is found to hold, and the record installed for it. */
  function Opened(c: Conn, id: nat, settings: Settings, pooled: bool): Lent {
    Lent(c.(session := Some(Runs.NewSession(id, Held(settings))),
            tracker := Runs.Install(c.tracker, id, if pooled then Unknown else Known(None))),
         settings, settings, false)
  }

  // ---- A checkout ----

  ghost predicate Cleared(m: Settings, names: seq<string>) {
    forall n :: n in names ==> ValueIn(m, n) == ""
  }

  /** The request's own values are applied on this checkout. */
  predicate AppliesRequest(facts: Facts) {
    facts.onRequestThread && !facts.localMode && facts.active.Some? && !(facts.gucsSet && !facts.onRequestThread)
  }

  /** Every setting is cleared, but for the request's own two where they are applied. */
  ghost predicate Clean(m: Settings, names: seq<string>, facts: Facts) {
    && (forall n :: n in names && n != ADMIN_VAR && n != TENANT_VAR ==> ValueIn(m, n) == "")
    && (Held(m) == CLEARED || (AppliesRequest(facts) && Held(m) == OnSession(facts.active)))
  }

  /** The session is ended, or clean whether its transaction, if any, commits or rolls back. */
  ghost predicate CleanOrEnded(l: Lent, names: seq<string>, facts: Facts) {
    l.conn.session.None? || (Clean(l.settings, names, facts) && Clean(l.undone, names, facts))
  }

  ghost predicate FreshlyLent(l: Lent) {
    && l.conn.session.Some? && ConnInv(l.conn) && l.conn.session.value.status == Idle && !l.conn.needsRollback
    && l.settings == l.undone && l.conn.session.value.kept == Held(l.settings)
  }

  lemma ClearedInAutocommit(l: Lent, names: seq<string>, f: CheckoutFaults)
    requires FreshlyLent(l) && l.conn.autocommit && ADMIN_VAR in names && TENANT_VAR in names
    ensures var r := ClearPolicyGucs(l, names, f);
            && r.conn.session.Some? && ConnInv(r.conn) && SameSetup(l.conn, r.conn)
            && r.raised == (f.clear != Fine)
            && (!r.raised ==> FreshlyLent(r) && Cleared(r.settings, names) && (l.conn.guarded ==> Holds(r.conn, None)))
  {
    var s := l.conn.session.value;
    var looked := Look(l.conn.tracker, s);
    LookKeeps(l.conn.tracker, s);
    ForgetKeeps(looked, s);
    WriteKeeps(looked, s, None, false, l.conn.guarded);
    UnrecordedWriteKeeps(looked, s, CLEARED, false);
  }

  /** Outside autocommit the statement opens a transaction, which the pool's code commits itself. */
  lemma ClearedAndCommitted(s: Session, f: CheckoutFaults)
    requires s.status == Idle
    ensures var sent := SendWriteThroughCursor(s, false, false, CLEARED, false, f.clear);
            && (sent.raised ==>
                  sent.session == s || sent.session.status == Bad ||
                  (sent.session.status in {InTransaction, InError} && sent.session.start == s.kept
                   && sent.session.savepoints == []))
            && (!sent.raised ==> sent.session == WriteSession(Begin(s), CLEARED))
            && sent.session.id == s.id
            && (!sent.raised ==>
                  var ended := Send(sent.session, CommitTransaction(false), f.commit);
                  && ended.session.id == s.id
                  && (!ended.raised ==> ended.session == Commit(WriteSession(Begin(s), CLEARED)))
                  && (ended.session.status == Bad || Sessions.Valid(ended.session))
                  && (ended.session.status in {InTransaction, InError} ==>
                        ended.session.start == s.kept && ended.session.savepoints == []))
  {
  }

  lemma ClearedInATransaction(l: Lent, names: seq<string>, f: CheckoutFaults)
    requires FreshlyLent(l) && !l.conn.autocommit && ADMIN_VAR in names && TENANT_VAR in names
    ensures var r := ClearPolicyGucs(l, names, f);
            && r.conn.session.Some? && ConnInv(r.conn) && SameSetup(l.conn, r.conn)
            && r.raised == (f.clear != Fine || f.commit != Fine)
            && (!r.raised ==> FreshlyLent(r) && Cleared(r.settings, names) && (l.conn.guarded ==> Holds(r.conn, None)))
  {
    var s := l.conn.session.value;
    var looked := Look(l.conn.tracker, s);
    LookKeeps(l.conn.tracker, s);
    ClearedAndCommitted(s, f);
    var s' := ClearPolicyGucs(l, names, f).conn.session.value;
    if s'.status in {InTransaction, InError} {
      ForgottenWhileIdle(looked, s, s');
    } else if s'.status == Idle {
      ForgottenWhileIdle(looked, s', s');
    }
  }

  /** The clear raises unless it, and its commit, went through. */
  predicate ClearRaises(autocommit: bool, f: CheckoutFaults) {
    f.clear != Fine || (!autocommit && f.commit != Fine)
  }

  lemma ClearedKeeps(l: Lent, names: seq<string>, f: CheckoutFaults)
    requires FreshlyLent(l) && ADMIN_VAR in names && TENANT_VAR in names
    ensures var r := ClearPolicyGucs(l, names, f);
            && r.conn.session.Some? && ConnInv(r.conn) && SameSetup(l.conn, r.conn)
            && r.raised == ClearRaises(l.conn.autocommit, f)
            && (!r.raised ==> FreshlyLent(r) && Cleared(r.settings, names) && (l.conn.guarded ==> Holds(r.conn, None)))
  {
    if l.conn.autocommit {
      ClearedInAutocommit(l, names, f);
    } else {
      ClearedInATransaction(l, names, f);
    }
  }

  /** The tracker is sound from the moment of the installation. */
  lemma InstalledIsSound(c: Conn, id: nat, settings: Settings, pooled: bool)
    requires !pooled ==> c.tracker.raw != Some(id) && Held(settings) == CLEARED
    ensures var t := Runs.Install(c.tracker, id, if pooled then Unknown else Known(None));
            Inv(t, Runs.NewSession(id, Held(settings)))
  {
  }

  /** A session that is tracked already, and has run statements since it opened, keeps its record. */
  lemma InstallKeepsATrackedRecord(t: Tracker, s: Session, values: Tracked)
    requires Inv(t, s) && t.raw == Some(s.id)
    ensures values.Known? ==> Runs.Install(t, s.id, values) == t
    ensures values == Unknown && s.status == Idle ==> Inv(Runs.Install(t, s.id, values), s)
  {
  }

  /** What the request's values leave: those, or none, whatever fails. */
  lemma AppliedKeeps(l: Lent, facts: Facts, f: CheckoutFaults)
    requires FreshlyLent(l) && !l.raised && Held(l.settings) == CLEARED && l.conn.guarded
    ensures var r := ApplyRequestGucs(l, facts.active, f);
            && r.conn.session.Some? && ConnInv(r.conn) && SameSetup(l.conn, r.conn)
            && (r.raised ==> PassesHandlers(f.apply, f))
            && Held(r.settings) in {CLEARED, OnSession(facts.active)}
            && Held(r.undone) in {CLEARED, OnSession(facts.active)}
            && (forall n :: n != ADMIN_VAR && n != TENANT_VAR ==>
                  ValueIn(r.settings, n) == ValueIn(r.undone, n) == ValueIn(l.settings, n))
            && (facts.active.Some? && f.apply == Fine ==> !r.raised && Holds(r.conn, facts.active))
            && (facts.active.None? ==> r == l)
  {
    if facts.active.Some? {
      WriteGucsKeeps(l.conn, facts.active, false, f.apply);
    }
  }

  /** The clear is interrupted before it takes effect for good, past the handler: the session stays open
      with what the previous borrower left, or with a transaction that may go back to it. */
  predicate LeavesLeftovers(autocommit: bool, f: CheckoutFaults) {
    f.past && (f.clear == NotSent
               || (!autocommit && (f.clear == Interrupted || (f.clear == Fine && f.commit == NotSent))))
  }

  /** A pooled checkout on a configured alias: the record is sound; it raises where a failure ended the
      session, or where one passed a handler; without a raise the session is open, and holds the
      request's values where they were applied without a failure, else none or those. */
  lemma CheckoutKeeps(c: Conn, id: nat, leftover: Settings, facts: Facts, names: seq<string>, f: CheckoutFaults)
    requires facts.pooled && facts.configured && c.guarded && !c.needsRollback
    requires ADMIN_VAR in names && TENANT_VAR in names
    ensures var l := Prepare(c, id, leftover, facts, names, f);
            && ConnInv(l.conn) && l.conn.guarded
            && (l.raised ==> l.conn.session.None? || f.past)
            && (!l.raised ==>
                  && l.conn.session.Some? && CleanOrEnded(l, names, facts)
                  && (!AppliesRequest(facts) ==> Holds(l.conn, None))
                  && (AppliesRequest(facts) && f.apply == Fine ==> Holds(l.conn, facts.active)))
            && (ClearRaises(c.autocommit, f) && !ClearPasses(c.autocommit, f) ==> l.raised && l.conn.session.None?)
            && (!ClearRaises(c.autocommit, f) ==> CleanOrEnded(l, names, facts))
  {
    InstalledIsSound(c, id, leftover, true);
    var l := Opened(c, id, leftover, true);
    ClearedKeeps(l, names, f);
    var cleared := ClearPolicyGucs(l, names, f);
    if !cleared.raised {
      AppliedKeeps(cleared, facts, f);
    }
  }

  /** What a clear that raised past the handler leaves. */
  lemma PassedClearLeaves(c: Conn, id: nat, leftover: Settings, facts: Facts, names: seq<string>, f: CheckoutFaults)
    requires facts.pooled && facts.configured && c.guarded && !c.needsRollback && ADMIN_VAR in names
    requires TENANT_VAR in names
    requires ClearPasses(c.autocommit, f)
    ensures var l := Prepare(c, id, leftover, facts, names, f);
            && l.raised && l.conn.session.Some?
            && (if LeavesLeftovers(c.autocommit, f) then l.undone == leftover
                else Cleared(l.settings, names) && Cleared(l.undone, names))
  {
    InstalledIsSound(c, id, leftover, true);
    ClearedKeeps(Opened(c, id, leftover, true), names, f);
  }

  /** The exact condition: whatever the previous borrower left, a checkout on a configured alias ends the
      session, or finds every setting the policies read cleared but for the request's own, if and only
      if no clear was interrupted, past the handler, before it took effect for good. */
  lemma CheckoutIsCleanOrEndedIff(c: Conn, id: nat, facts: Facts, names: seq<string>, f: CheckoutFaults)
    requires facts.pooled && facts.configured && c.guarded && !c.needsRollback
    requires ADMIN_VAR in names && TENANT_VAR in names
    ensures (forall leftover :: CleanOrEnded(Prepare(c, id, leftover, facts, names, f), names, facts)) <==>
              !LeavesLeftovers(c.autocommit, f)
  {
    forall leftover: Settings | !LeavesLeftovers(c.autocommit, f)
      ensures CleanOrEnded(Prepare(c, id, leftover, facts, names, f), names, facts)
    {
      CheckoutKeeps(c, id, leftover, facts, names, f);
      if ClearPasses(c.autocommit, f) {
        PassedClearLeaves(c, id, leftover, facts, names, f);
      }
    }
    if LeavesLeftovers(c.autocommit, f) {
      var other := if facts.active.Some? && facts.active.value.currentTenant == "a" then "b" else "a";
      var leftover := map[TENANT_VAR := other];
      PassedClearLeaves(c, id, leftover, facts, names, f);
      assert Held(leftover).currentTenant == other && other[0] != 'c';
      assert !Clean(leftover, names, facts);
    }
  }

  /** What the borrower's first statement finds, setting by setting, when the session shows it `g`. */
  function Found(l: Lent, g: ContextGucs): Settings {
    WithHeld(l.settings, g)
  }

  /** After a checkout that did not raise, whatever was left and whatever failed in applying the request's
      values: the borrower's first data statement in a context finds that context's two settings, and
      every other one the policies read cleared. */
  lemma FirstStatementFinds(c: Conn, id: nat, leftover: Settings, facts: Facts, names: seq<string>, f: CheckoutFaults,
                            active: Option<ContextGucs>, localMode: bool, q: Statement, run: Faults, n: string)
    requires facts.pooled && facts.configured && c.guarded && !c.needsRollback
    requires ADMIN_VAR in names && TENANT_VAR in names && n in names
    requires var l := Prepare(c, id, leftover, facts, names, f);
             && !l.raised && l.conn.session.Some? && !IsControl(q) && !RunsAsItIs(l.conn, active, localMode, q)
             && GuardStep(l.conn, active, localMode, q, run).showed.Some?
    ensures var l := Prepare(c, id, leftover, facts, names, f);
            var g := GuardStep(l.conn, active, localMode, q, run).showed.value;
            ValueIn(Found(l, g), n) ==
              if n == TENANT_VAR then OnSession(active).currentTenant
              else if n == ADMIN_VAR then OnSession(active).isAdmin
              else ""
  {
    CheckoutKeeps(c, id, leftover, facts, names, f);
    GuardShowsActiveContext(Prepare(c, id, leftover, facts, names, f).conn, active, localMode, q, run);
  }

  // ---- A return ----

  /** The pool takes the session back: it rolls back an open transaction, then runs `reset_rls_gucs`,
      if that is the pool's `reset`. `None`: the pool discards the session. */
  function Return(s: Session, left: Settings, names: seq<string>, autocommit: bool, reset: bool, clear: Fault,
                  commit: Fault): Option<Settings> {
    var idle := Rollback(s);
    if idle.status != Idle then None
    else if !reset || names == [] then Some(WithHeld(left, idle.kept))
    else
      var sent := SendWriteThroughCursor(idle, autocommit, false, CLEARED, false, clear);
      if sent.raised then None
      else if !autocommit && Send(sent.session, CommitTransaction(false), commit).raised then None
      else Some(ClearNames(left, names))
  }

  /** With the reset, a session is back in the pool clean, or not at all. */
  lemma ReturnIsCleanOrDiscarded(s: Session, left: Settings, names: seq<string>, autocommit: bool, clear: Fault,
                                 commit: Fault)
    requires names != []
    ensures var r := Return(s, left, names, autocommit, true, clear, commit);
            r.Some? ==> Cleared(r.value, names) && clear == Fine && (!autocommit ==> commit == Fine)
  {
  }

  // ---- Runs of a pool ----

  datatype PooledSession = PooledSession(id: nat, settings: Settings)

  /** The idle sessions, and the connection that borrows one at a time. */
  datatype PoolState = PoolState(idle: seq<PooledSession>, conn: Conn)

  /** `left`: what the borrower leaves of the other settings, whatever it is. */
  datatype Event =
    | Checkout(i: nat, facts: Facts, faults: CheckoutFaults)
    | Borrower(event: Runs.Event)
    | GiveBack(left: Settings, reset: bool, clear: Fault, commit: Fault)

  function CheckOut(p: PoolState, i: nat, facts: Facts, names: seq<string>, f: CheckoutFaults): Lent
    requires i < |p.idle|
  {
    Prepare(p.conn.(needsRollback := false), p.idle[i].id, p.idle[i].settings, facts, names, f)
  }

  function Step(p: PoolState, e: Event, names: seq<string>, localMode: bool): (p': PoolState) {
    match e
    case Checkout(i, facts, f) =>
      if i >= |p.idle| || p.conn.session.Some? then p
      else PoolState(p.idle[..i] + p.idle[i + 1..], CheckOut(p, i, facts, names, f).conn)
    case Borrower(r) => p.(conn := Runs.Step(p.conn, r, localMode).conn)
    case GiveBack(left, reset, clear, commit) =>
      if p.conn.session.None? then p
      else
        var kept := Return(p.conn.session.value, left, names, p.conn.autocommit, reset, clear, commit);
        PoolState(if kept.None? then p.idle else p.idle + [PooledSession(p.conn.session.value.id, kept.value)],
                  p.conn.(session := None))
  }

  /** A session comes from the pool only, and the guard's limits hold between checkout and return. */
  ghost predicate Legal(p: PoolState, e: Event) {
    match e
    case Checkout(_, facts, _) => facts.pooled && facts.configured
    case Borrower(r) => !r.Open? && Runs.Legal(p.conn, r)
    case _ => true
  }

  function Run(p: PoolState, events: seq<Event>, names: seq<string>, localMode: bool): PoolState
    decreases |events|
  {
    if events == [] then p
    else Step(Run(p, events[..|events| - 1], names, localMode), events[|events| - 1], names, localMode)
  }

  ghost predicate LegalRun(p: PoolState, events: seq<Event>, names: seq<string>, localMode: bool) {
    forall n :: 0 <= n < |events| ==> Legal(Run(p, events[..n], names, localMode), events[n])
  }

  lemma StepKeeps(p: PoolState, e: Event, names: seq<string>, localMode: bool)
    requires ConnInv(p.conn) && p.conn.guarded && Legal(p, e) && ADMIN_VAR in names && TENANT_VAR in names
    ensures var p' := Step(p, e, names, localMode);
            ConnInv(p'.conn) && p'.conn.guarded
  {
    match e
    case Checkout(i, facts, f) =>
      if i < |p.idle| && p.conn.session.None? {
        CheckoutKeeps(p.conn.(needsRollback := false), p.idle[i].id, p.idle[i].settings, facts, names, f);
      }
    case Borrower(r) =>
      Runs.StepKeeps(p.conn, r, localMode);
      Runs.StepKeepsGuarded(p.conn, r, localMode);
    case _ =>
  }

  lemma {:induction false} RunKeeps(p: PoolState, events: seq<Event>, names: seq<string>, localMode: bool)
    requires ConnInv(p.conn) && p.conn.guarded && LegalRun(p, events, names, localMode) && ADMIN_VAR in names
    requires TENANT_VAR in names
    ensures ConnInv(Run(p, events, names, localMode).conn) && Run(p, events, names, localMode).conn.guarded
    decreases |events|
  {
    if events != [] {
      var n := |events| - 1;
      forall k | 0 <= k < n ensures Legal(Run(p, events[..n][..k], names, localMode), events[..n][k]) {
        assert events[..n][..k] == events[..k];
      }
      RunKeeps(p, events[..n], names, localMode);
      StepKeeps(Run(p, events[..n], names, localMode), events[n], names, localMode);
    }
  }

  /** Over any run of checkouts and returns, also interrupted ones, with whatever borrowers leave behind
      and whether or not the pool resets: the record is sound, and the next checkout ends its session or
      starts clean, unless its clear is interrupted past the handler before it took effect for good. */
  lemma EveryCheckoutIsCleanOrEnded(p: PoolState, events: seq<Event>, names: seq<string>, localMode: bool,
                                    i: nat, facts: Facts, f: CheckoutFaults)
    requires ConnInv(p.conn) && p.conn.guarded && LegalRun(p, events, names, localMode)
    requires ADMIN_VAR in names && TENANT_VAR in names && facts.pooled && facts.configured
    requires i < |Run(p, events, names, localMode).idle| && Run(p, events, names, localMode).conn.session.None?
    ensures var l := CheckOut(Run(p, events, names, localMode), i, facts, names, f);
            && ConnInv(l.conn)
            && (!LeavesLeftovers(Run(p, events, names, localMode).conn.autocommit, f) ==> CleanOrEnded(l, names, facts))
            && (!l.raised ==> l.conn.session.Some? && CleanOrEnded(l, names, facts))
  {
    RunKeeps(p, events, names, localMode);
    var before := Run(p, events, names, localMode);
    var c := before.conn.(needsRollback := false);
    CheckoutKeeps(c, before.idle[i].id, before.idle[i].settings, facts, names, f);
    CheckoutIsCleanOrEndedIff(c, before.idle[i].id, facts, names, f);
  }

  /** Also over runs, the borrower's first statement finds its own context and nothing of another's. */
  lemma EveryFirstStatementFinds(p: PoolState, events: seq<Event>, names: seq<string>, localMode: bool, i: nat,
                                 facts: Facts,
                                 f: CheckoutFaults, active: Option<ContextGucs>, q: Statement, run: Faults, n: string)
    requires ConnInv(p.conn) && p.conn.guarded && LegalRun(p, events, names, localMode)
    requires ADMIN_VAR in names && TENANT_VAR in names && n in names && facts.pooled && facts.configured
    requires i < |Run(p, events, names, localMode).idle| && Run(p, events, names, localMode).conn.session.None?
    requires var l := CheckOut(Run(p, events, names, localMode), i, facts, names, f);
             && !l.raised && l.conn.session.Some? && !IsControl(q) && !RunsAsItIs(l.conn, active, localMode, q)
             && GuardStep(l.conn, active, localMode, q, run).showed.Some?
    ensures var l := CheckOut(Run(p, events, names, localMode), i, facts, names, f);
            ValueIn(Found(l, GuardStep(l.conn, active, localMode, q, run).showed.value), n) ==
              if n == TENANT_VAR then OnSession(active).currentTenant
              else if n == ADMIN_VAR then OnSession(active).isAdmin
              else ""
  {
    RunKeeps(p, events, names, localMode);
    var before := Run(p, events, names, localMode);
    FirstStatementFinds(before.conn.(needsRollback := false), before.idle[i].id, before.idle[i].settings, facts, names,
                        f,
                        active, localMode, q, run, n);
  }

  // ---- Where nothing fails ----

  predicate Faultless(f: CheckoutFaults) {
    f.clear == f.commit == f.apply == Fine
  }

  /** A pooled checkout goes through: the session is open, every name is cleared but for the request's own
      two, which are applied and known where they are due, and no other setting is touched. */
  lemma FaultlessCheckout(c: Conn, id: nat, leftover: Settings, facts: Facts, names: seq<string>, f: CheckoutFaults)
    requires facts.pooled && facts.configured && c.guarded && !c.needsRollback && Faultless(f)
    requires ADMIN_VAR in names && TENANT_VAR in names
    ensures var l := Prepare(c, id, leftover, facts, names, f);
            && !l.raised && l.conn.session.Some? && ConnInv(l.conn) && l.conn.session.value.id == id
            && Holds(l.conn, if AppliesRequest(facts) then facts.active else None)
            && forall n :: n != ADMIN_VAR && n != TENANT_VAR ==>
                 ValueIn(l.settings, n) == if n in names then "" else ValueIn(leftover, n)
  {
    CheckoutKeeps(c, id, leftover, facts, names, f);
    var l := Opened(c, id, leftover, true);
    ClearedKeeps(l, names, f);
    InstalledIsSound(c, id, leftover, true);
    var cleared := ClearPolicyGucs(l, names, f);
    AppliedKeeps(cleared, facts, f);
    SessionStays(l, names, f);
    AppliedStays(cleared, facts.active, f);
  }

  lemma SessionStays(l: Lent, names: seq<string>, f: CheckoutFaults)
    requires l.conn.session.Some? && l.conn.session.value.status == Idle && !l.conn.needsRollback && Faultless(f)
    ensures ClearPolicyGucs(l, names, f).conn.session.value.id == l.conn.session.value.id
    ensures ClearPolicyGucs(l, names, f).settings == ClearNames(l.settings, names)
  {
  }

  lemma AppliedStays(l: Lent, active: Option<ContextGucs>, f: CheckoutFaults)
    requires l.conn.session.Some?
    ensures ApplyRequestGucs(l, active, f).conn.session.value.id == l.conn.session.value.id
  {
  }

  /** A session that is no pool's is new and holds nothing. It is known to, unless a clear of it failed; a
      failure is logged and never ends it; the request's values are applied where they are due. */
  lemma NewSessionIsKnown(c: Conn, id: nat, settings: Settings, facts: Facts, names: seq<string>, f: CheckoutFaults)
    requires !facts.pooled && c.guarded && !c.needsRollback && c.tracker.raw != Some(id) && Held(settings) == CLEARED
    requires ADMIN_VAR in names && TENANT_VAR in names
    ensures var l := Prepare(c, id, settings, facts, names, f);
            && l.conn.session.Some? && ConnInv(l.conn)
            && (l.raised ==> f.past)
            && (!facts.configured ==> l == Opened(c, id, settings, false))
            && (facts.configured && AppliesRequest(facts) && f.apply == Fine ==>
                  !l.raised && Holds(l.conn, facts.active))
            && (facts.configured && facts.gucsSet && !facts.onRequestThread && !ClearRaises(c.autocommit, f) ==>
                  !l.raised && Holds(l.conn, None) && Cleared(l.settings, names))
            && (facts.configured && !AppliesRequest(facts) && !(facts.gucsSet && !facts.onRequestThread) ==>
                  !l.raised && Holds(l.conn, None))
  {
    var l := Opened(c, id, settings, false);
    InstalledIsSound(c, id, settings, false);
    ClearedKeeps(l, names, f);
    if facts.configured && !(facts.gucsSet && !facts.onRequestThread) {
      AppliedKeeps(l, facts, f);
    }
  }

  /** A session is given back: rolled back, and with the pool's reset cleared of every name and of nothing
      else; only one that is lost, or whose reset fails, is discarded. */
  lemma ReturnGoesThroughIff(s: Session, left: Settings, names: seq<string>, autocommit: bool, reset: bool,
                             clear: Fault,
                             commit: Fault)
    ensures var r := Return(s, left, names, autocommit, reset, clear, commit);
            && (r.Some? <==>
                  s.status != Bad && (reset && names != [] ==> clear == Fine && (!autocommit ==> commit == Fine)))
            && (r.Some? ==>
                  forall n :: n != ADMIN_VAR && n != TENANT_VAR ==>
                    ValueIn(r.value, n) == if reset && n in names then "" else ValueIn(left, n))
            && (r.Some? && !(reset && names != []) ==> Held(r.value) == Rollback(s).kept)
  {
  }
}
