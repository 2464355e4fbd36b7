/** The settings read, written and restored one at a time, on entry to and exit from a block
    that writes them for the session. */
module Snapshots {
  import opened Gucs
  import opened Sessions
  import opened Trackers
  import opened TrackerSoundness
  import opened Guard
  import opened GuardSoundness

  datatype Setting = IsAdmin | CurrentTenant

  function Put(g: ContextGucs, setting: Setting, v: string): ContextGucs {
    match setting
    case IsAdmin => g.(isAdmin := v)
    case CurrentTenant => g.(currentTenant := v)
  }

  /** `set_config(setting, v, false)` */
  function PutSession(s: Session, setting: Setting, v: string): Session {
    s.(shown := Put(s.shown, setting, v), kept := Put(s.kept, setting, v))
  }

  /** What `get_guc` reads of each. */
  datatype Saved = Saved(isAdmin: Option<string>, currentTenant: Option<string>)

  const NOTHING_SAVED := Saved(None, None)

  function Restored(saved: Saved): ContextGucs {
    ContextGucs(RestoredGuc(saved.isAdmin), RestoredGuc(saved.currentTenant))
  }

  /** One `set_guc` inside `writing()`: the guard only looks. */
  function WriteSetting(c: Conn, setting: Setting, v: string, fault: Fault): (r: Ran)
    requires c.session.Some?
    ensures r.conn.session.Some? && SameSetup(c, r.conn)
  {
    var s := c.session.value;
    var looked := c.(tracker := Look(c.tracker, s));
    if c.needsRollback || s.status == Bad || fault == NotSent then Ran(looked, true, None)
    else
      var s1 := Opened(c);
      if s1.status == InError then Ran(looked.(session := Some(s1)), true, None)
      else match fault
        case Fine => Ran(looked.(session := Some(PutSession(s1, setting, v))), false, None)
        case Interrupted => Ran(looked.(session := Some(PutSession(s1, setting, v))), true, None)
        case Lost => Ran(looked.(session := Some(s1.(status := Bad))), true, None)
        case _ => Ran(looked.(session := Some(Fail(s1))), true, None)
  }

  /** Both settings, for the session; the first failure ends it. */
  function WriteBoth(c: Conn, v: ContextGucs, f1: Fault, f2: Fault): (r: Ran)
    requires c.session.Some?
    ensures r.conn.session.Some? && SameSetup(c, r.conn)
  {
    var first := WriteSetting(c, IsAdmin, v.isAdmin, f1);
    if first.raised then first else WriteSetting(first.conn, CurrentTenant, v.currentTenant, f2)
  }

  /** The restore of a setting failed with a `DatabaseError`. */
  predicate IsDatabaseError(r: Ran, fault: Fault) {
    r.raised && !NotOfDatabase(fault)
  }

  /** How a restore ended. */
  datatype RestoreOutcome = AllRestored | SomeSkipped | Raised

  /** `restore_gucs`: with an exception pending, a database error is skipped. Django's rollback mark
      is lifted meanwhile. */
  function RestoreLifted(c: Conn, v: ContextGucs, excPending: bool, f1: Fault, f2: Fault): (r: (Conn, RestoreOutcome))
    requires c.session.Some?
    ensures r.0.session.Some? && SameSetup(c, r.0)
  {
    var first := WriteSetting(c, IsAdmin, v.isAdmin, f1);
    if first.raised && !(excPending && IsDatabaseError(first, f1)) then (first.conn, Raised)
    else
      var second := WriteSetting(first.conn, CurrentTenant, v.currentTenant, f2);
      if second.raised && !(excPending && IsDatabaseError(second, f2)) then (second.conn, Raised)
      else (second.conn, if first.raised || second.raised then SomeSkipped else AllRestored)
  }

  function RestoreGucs(c: Conn, saved: Saved, excPending: bool, f1: Fault, f2: Fault): (r: (Conn, RestoreOutcome))
    requires c.session.Some?
    ensures r.0.session.Some? && SameSetup(c, r.0)
  {
    var r := RestoreLifted(c.(needsRollback := false), Restored(saved), excPending, f1, f2);
    (r.0.(needsRollback := c.needsRollback), r.1)
  }

  // ---- Half-written settings ----

  /** The session may hold half of a write; once the tracker forgets, or looks and forgets, it is sound. */
  ghost predicate Half(c: Conn) {
    c.session.Some? &&
    var s := c.session.value;
    && Inv(Forget(c.tracker), s) && Inv(Forget(Look(c.tracker, s)), s)
    && (s.status == Idle && !c.autocommit ==> Inv(c.tracker, s))
  }

  lemma WholeIsHalf(c: Conn)
    requires c.session.Some? && ConnInv(c)
    ensures Half(c)
  {
    LookKeeps(c.tracker, c.session.value);
    ForgetKeeps(c.tracker, c.session.value);
    ForgetKeeps(Look(c.tracker, c.session.value), c.session.value);
  }

  /** Forgetting while idle is sound, whatever the session holds; so it is once a transaction opens. */
  lemma ForgottenWhileIdle(t: Tracker, s: Session, s': Session)
    requires Valid(s) && s.status == Idle && !t.inTransaction
    requires s' == s || (s'.status in {InTransaction, InError} && s'.id == s.id && s'.savepoints == [])
    requires s' != s && t.raw == Some(s.id) ==> Sound(t.values, s'.start)
    ensures Inv(Forget(t), s') && Inv(Forget(Look(t, s')), s')
  {
  }

  /** In a transaction, a forgotten write of any kind is sound. */
  lemma ForgottenInTransaction(t: Tracker, s: Session, shown: ContextGucs, kept: ContextGucs)
    requires s.status == InTransaction && t == Look(t, s) && Inv(Forget(t), s)
    ensures var s' := s.(shown := shown, kept := kept);
            Look(t, s') == t && Inv(Forget(t), s') && Inv(Forget(t), Fail(s'))
  {
    assert WriteLocal(WriteSession(s, kept), shown) == s.(shown := shown, kept := kept);
    OpaqueChangesKeep(Forget(t), s, shown, kept);
    FailKeeps(Forget(t), s.(shown := shown, kept := kept));
  }

  lemma WriteInTransactionIsHalf(c: Conn, setting: Setting, v: string, fault: Fault)
    requires Half(c) && c.session.value.status in {InTransaction, InError, Bad}
    ensures Half(WriteSetting(c, setting, v, fault).conn)
  {
    var s := c.session.value;
    var t := Look(c.tracker, s);
    if s.status == InTransaction {
      ForgottenInTransaction(t, s, s.shown, s.kept);
      var put := PutSession(s, setting, v);
      assert put == s.(shown := put.shown, kept := put.kept);
      ForgottenInTransaction(t, s, put.shown, put.kept);
      WrittenInTransaction(c, setting, v, fault);
    }
  }

  /** What the session is after a write in an open transaction. */
  lemma WrittenInTransaction(c: Conn, setting: Setting, v: string, fault: Fault)
    requires c.session.Some? && c.session.value.status == InTransaction
    ensures var s, r := c.session.value, WriteSetting(c, setting, v, fault).conn;
            && r.tracker == Look(c.tracker, s)
            && r.session.value in {s, PutSession(s, setting, v), Fail(s), s.(status := Bad)}
  {
  }

  lemma WriteWhileIdleIsHalf(c: Conn, setting: Setting, v: string, fault: Fault)
    requires Half(c) && c.session.value.status == Idle
    ensures Half(WriteSetting(c, setting, v, fault).conn)
  {
    var s := c.session.value;
    var t := Look(c.tracker, s);
    var s' := WriteSetting(c, setting, v, fault).conn.session.value;
    if s'.status == Bad {
    } else if c.autocommit {
      ForgottenWhileIdle(t, s', s');
    } else {
      LookKeeps(c.tracker, s);
      ForgottenWhileIdle(t, s, s');
    }
  }

  lemma WriteSettingIsHalf(c: Conn, setting: Setting, v: string, fault: Fault)
    requires Half(c)
    ensures Half(WriteSetting(c, setting, v, fault).conn)
  {
    if c.session.value.status == Idle {
      WriteWhileIdleIsHalf(c, setting, v, fault);
    } else {
      WriteInTransactionIsHalf(c, setting, v, fault);
    }
  }

  lemma WriteBothIsHalf(c: Conn, v: ContextGucs, f1: Fault, f2: Fault)
    requires Half(c)
    ensures Half(WriteBoth(c, v, f1, f2).conn)
  {
    WriteSettingIsHalf(c, IsAdmin, v.isAdmin, f1);
    WriteSettingIsHalf(WriteSetting(c, IsAdmin, v.isAdmin, f1).conn, CurrentTenant, v.currentTenant, f2);
  }

  lemma RestoreIsHalf(c: Conn, v: ContextGucs, excPending: bool, f1: Fault, f2: Fault)
    requires Half(c)
    ensures Half(RestoreLifted(c, v, excPending, f1, f2).0)
  {
    WriteSettingIsHalf(c, IsAdmin, v.isAdmin, f1);
    WriteSettingIsHalf(WriteSetting(c, IsAdmin, v.isAdmin, f1).conn, CurrentTenant, v.currentTenant, f2);
  }

  lemma WrittenSetting(c: Conn, setting: Setting, v: string, fault: Fault)
    requires c.session.Some? && !WriteSetting(c, setting, v, fault).raised
    ensures Opened(c).status !in {InError, Bad}
    ensures WriteSetting(c, setting, v, fault).conn ==
              c.(tracker := Look(c.tracker, c.session.value), session := Some(PutSession(Opened(c), setting, v)))
  {
  }

  /** Two writes that go through are one write of the pair. */
  lemma WrittenBoth(c: Conn, v: ContextGucs, f1: Fault, f2: Fault)
    requires c.session.Some? && Valid(c.session.value) && !WriteBoth(c, v, f1, f2).raised
    ensures var r := WriteBoth(c, v, f1, f2).conn;
            && r.session == Some(WriteSession(Opened(c), v))
            && Look(r.tracker, r.session.value) == Look(Look(c.tracker, c.session.value), Opened(c))
            && r.session.value.status in {Idle, InTransaction}
  {
    WrittenSetting(c, IsAdmin, v.isAdmin, f1);
    var first := WriteSetting(c, IsAdmin, v.isAdmin, f1).conn;
    WrittenSetting(first, CurrentTenant, v.currentTenant, f2);
    var r := WriteBoth(c, v, f1, f2).conn;
    assert Opened(first) == first.session.value;
    assert r.session.value.shown == v && r.session.value.kept == v;
  }

  /** Recording the pair once both are written keeps the invariant. */
  lemma RecordedBothKeeps(c: Conn, values: Option<ContextGucs>, f1: Fault, f2: Fault)
    requires c.session.Some? && ConnInv(c) && !WriteBoth(c, OnSession(values), f1, f2).raised
    ensures var r := WriteBoth(c, OnSession(values), f1, f2).conn;
            Inv(Record(r.tracker, r.session.value, values, c.guarded, false), r.session.value)
  {
    var s := c.session.value;
    WrittenBoth(c, OnSession(values), f1, f2);
    LookKeeps(c.tracker, s);
    var t := Look(Look(c.tracker, s), Opened(c));
    BeginKeeps(Look(c.tracker, s), s);
    LookKeeps(Look(c.tracker, s), Opened(c));
    WriteKeeps(t, Opened(c), values, false, c.guarded);
  }

  /** Without failures a restore writes the pair, whether an exception is pending or not. */
  lemma AllRestoredWritesBoth(c: Conn, v: ContextGucs, excPending: bool, f1: Fault, f2: Fault)
    requires c.session.Some?
    ensures RestoreLifted(c, v, excPending, f1, f2).1 == AllRestored <==> !WriteBoth(c, v, f1, f2).raised
    ensures RestoreLifted(c, v, excPending, f1, f2).1 == AllRestored ==>
              RestoreLifted(c, v, excPending, f1, f2).0 == WriteBoth(c, v, f1, f2).conn
  {
  }

  /** A restore that was skipped is recorded and then forgotten. */
  lemma ForgottenRecordKeeps(t: Tracker, s: Session, values: Option<ContextGucs>)
    requires Inv(Forget(Look(t, s)), s)
    ensures Inv(Forget(SetValues(Look(t, s), Known(values), false)), s)
  {
    var u := Look(t, s);
    var t1, t2 := Forget(u), Forget(SetValues(u, Known(values), false));
    if u.inTransaction && s.status in {InTransaction, InError} {
      FlagsRise(Look(t1, s), Look(t2, s), t1.savepoints, s.savepoints, s.start);
    }
  }
}
