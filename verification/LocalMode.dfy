/** With `USE_LOCAL_SET=True`: no context's values are ever kept by a session. */
module LocalMode {
  import opened Gucs
  import opened Sessions
  import opened Trackers
  import opened TrackerSoundness
  import opened Guard
  import opened GuardSoundness
  import opened Runs

  predicate Harmless(v: ContextGucs, initial: ContextGucs) {
    v == initial || v == CLEARED
  }

  /** Whatever ends the transaction, and to whatever savepoint it goes back before: the session
      keeps its initial values, or none. */
  ghost predicate KeepsNoContext(s: Session, initial: ContextGucs) {
    && Harmless(s.kept, initial)
    && Harmless(s.start, initial)
    && (forall k :: 0 <= k < |s.savepoints| ==> Harmless(s.savepoints[k].kept, initial))
  }

  /** The statement leaves no context's values for the session: no foreign write. */
  ghost predicate NoForeignWrite(q: Statement, initial: ContextGucs) {
    match q
    case Reset(_, ours, left) => ours ==> Harmless(left, initial)
    case ForeignWrite(v) => Harmless(v, initial)
    case Compound(_, _, does, _) => NoForeignEffect(does, initial)
    case Unreadable(does, _) => NoForeignEffect(does, initial)
    case _ => true
  }

  ghost predicate NoForeignEffect(does: OpaqueEffect, initial: ContextGucs) {
    match does
    case Keeps => true
    case Changes(_, kept, _) => Harmless(kept, initial)
    case Opens(start, _, kept) => Harmless(start, initial) && Harmless(kept, initial)
    case Ends(left) => Harmless(left, initial)
  }

  lemma {:induction false} SavepointsKeepNoContext(s: Session, names: seq<string>, initial: ContextGucs)
    requires KeepsNoContext(s, initial)
    ensures KeepsNoContext(SetSavepoints(s, names), initial)
    decreases |names|
  {
    if names != [] {
      SavepointsKeepNoContext(SetSavepoint(s, names[0]), names[1..], initial);
    }
  }

  lemma SendKeepsNoContext(s: Session, q: Statement, fault: Fault, initial: ContextGucs)
    requires KeepsNoContext(s, initial) && NoForeignWrite(q, initial)
    ensures KeepsNoContext(Send(s, q, fault).session, initial)
  {
    EffectKeepsNoContext(s, q, initial);
  }

  lemma EffectKeepsNoContext(s: Session, q: Statement, initial: ContextGucs)
    requires KeepsNoContext(s, initial) && NoForeignWrite(q, initial)
    ensures Effect(s, q).Some? ==> KeepsNoContext(Effect(s, q).value, initial)
  {
    if IsOpaque(q) {
      OpaqueKeepsNoContext(s, q.does, initial);
    }
  }

  lemma OpaqueKeepsNoContext(s: Session, does: OpaqueEffect, initial: ContextGucs)
    requires KeepsNoContext(s, initial) && NoForeignEffect(does, initial)
    ensures KeepsNoContext(ApplyOpaque(s, does), initial)
  {
    if does.Changes? {
      SavepointsKeepNoContext(WriteLocal(WriteSession(s, does.kept), does.shown), does.savepoints, initial);
    }
  }

  lemma ExecuteKeepsNoContext(c: Conn, q: Statement, fault: Fault, initial: ContextGucs)
    requires c.session.Some? && KeepsNoContext(c.session.value, initial) && NoForeignWrite(q, initial)
    ensures KeepsNoContext(Execute(c, q, fault).session, initial)
  {
    SendKeepsNoContext(Opened(c), q, fault, initial);
  }

  lemma WriteKeepsNoContext(c: Conn, values: Option<ContextGucs>, isLocal: bool, fault: Fault, initial: ContextGucs)
    requires c.session.Some? && KeepsNoContext(c.session.value, initial)
    requires isLocal || values.None?
    ensures KeepsNoContext(WriteGucs(c, values, isLocal, fault).conn.session.value, initial)
  {
  }

  ghost predicate ConnKeepsNoContext(c: Conn, initial: ContextGucs) {
    c.session.Some? ==> KeepsNoContext(c.session.value, initial)
  }

  lemma AbandonKeepsNoContext(c: Conn, fault: Fault, initial: ContextGucs)
    requires c.session.Some? && ConnKeepsNoContext(c, initial)
    ensures ConnKeepsNoContext(AbandonOwnTransaction(c, fault), initial)
  {
    SendKeepsNoContext(c.session.value, RollbackTransaction(false), fault, initial);
  }

  lemma EnterKeepsNoContext(c: Conn, active: Option<ContextGucs>, f: Faults, initial: ContextGucs)
    requires c.session.Some? && ConnKeepsNoContext(c, initial)
    ensures ConnKeepsNoContext(EnterOwnTransaction(c, active, f).conn, initial)
  {
    var begun := Send(c.session.value, BeginTransaction, f.begin);
    SendKeepsNoContext(c.session.value, BeginTransaction, f.begin, initial);
    if !begun.raised {
      WriteKeepsNoContext(c.(session := Some(begun.session), tracker := Look(c.tracker, begun.session)),
                          active, true, f.write, initial);
    }
  }

  lemma OwnKeepsNoContext(c: Conn, active: Option<ContextGucs>, q: Statement, f: Faults, initial: ContextGucs)
    requires c.session.Some? && ConnKeepsNoContext(c, initial) && NoForeignWrite(q, initial)
    ensures ConnKeepsNoContext(RunInOwnTransaction(c, active, q, f).conn, initial)
  {
    EnterKeepsNoContext(c, active, f, initial);
    var entered := EnterOwnTransaction(c, active, f);
    if entered.raised {
      AbandonKeepsNoContext(entered.conn, f.rollback, initial);
    } else {
      FinishKeepsNoContext(entered.conn, q, f, initial);
    }
  }

  lemma FinishKeepsNoContext(c: Conn, q: Statement, f: Faults, initial: ContextGucs)
    requires c.session.Some? && ConnKeepsNoContext(c, initial) && NoForeignWrite(q, initial)
    ensures ConnKeepsNoContext(FinishOwnTransaction(c, q, f).conn, initial)
  {
    var ran := Execute(c, q, f.statement);
    ExecuteKeepsNoContext(c, q, f.statement, initial);
    var ended := Send(ran.session, CommitTransaction(false), f.commit);
    SendKeepsNoContext(ran.session, CommitTransaction(false), f.commit, initial);
    AbandonKeepsNoContext(c.(session := Some(ran.session)), f.rollback, initial);
    AbandonKeepsNoContext(c.(session := Some(ended.session)), f.rollback, initial);
  }

  lemma PrepareKeepsNoContext(c: Conn, active: Option<ContextGucs>, q: Statement, fault: Fault, initial: ContextGucs)
    requires c.session.Some? && ConnKeepsNoContext(c, initial)
    ensures ConnKeepsNoContext(Prepare(c, active, true, q, fault).conn, initial)
  {
    WriteKeepsNoContext(c.(tracker := Look(c.tracker, c.session.value)), active, active.Some?, fault, initial);
  }

  lemma GuardKeepsNoContext(c: Conn, active: Option<ContextGucs>, q: Statement, f: Faults, initial: ContextGucs)
    requires c.session.Some? && ConnKeepsNoContext(c, initial) && NoForeignWrite(q, initial)
    ensures ConnKeepsNoContext(GuardStep(c, active, true, q, f).conn, initial)
  {
    var prepared := Prepare(c, active, true, q, f.write);
    PrepareKeepsNoContext(c, active, q, f.write, initial);
    OwnKeepsNoContext(prepared.conn, active, q, f, initial);
    ExecuteKeepsNoContext(prepared.conn, q, f.statement, initial);
  }

  /** The event writes no context's values for the session past the guard; a new session holds
      the initial values. The library itself writes contexts transaction-locally only. */
  ghost predicate NoForeignEvent(e: Event, initial: ContextGucs) {
    match e
    case Statement(_, q, _) => NoForeignWrite(q, initial)
    case LibraryWrite(values, isLocal, _) => isLocal || values.None?
    case Open(_, held, _) => Harmless(held, initial)
    case _ => true
  }

  lemma EndKeepsNoContext(c: Conn, commit: bool, fault: Fault, initial: ContextGucs)
    requires c.session.Some? && ConnKeepsNoContext(c, initial)
    ensures ConnKeepsNoContext(TransactionEnd(c, commit, fault).conn, initial)
  {
    var q := if commit then CommitTransaction(false) else RollbackTransaction(false);
    SendKeepsNoContext(c.session.value, q, fault, initial);
  }

  lemma UnseenKeepsNoContext(s: Session, e: Event, initial: ContextGucs)
    requires KeepsNoContext(s, initial)
    ensures KeepsNoContext(Unseen(s, e), initial)
  {
  }

  lemma StepKeepsNoContext(c: Conn, e: Event, initial: ContextGucs)
    requires ConnKeepsNoContext(c, initial) && NoForeignEvent(e, initial)
    ensures ConnKeepsNoContext(Step(c, e, true).conn, initial)
  {
    if c.session.Some? {
      match e
      case Statement(active, q, f) => GuardKeepsNoContext(c, active, q, f, initial);
      case LibraryWrite(values, isLocal, fault) => WriteKeepsNoContext(c, values, isLocal, fault, initial);
      case Apply(active, fault) => PrepareKeepsNoContext(c, active, Data(false), fault, initial);
      case DjangoEnds(commit, fault) => EndKeepsNoContext(c, commit, fault, initial);
      case Open(_, _, _) =>
      case _ => UnseenKeepsNoContext(c.session.value, e, initial);
    }
  }

  /** Over every run in local mode, whatever commits, rolls back or fails, the value a session keeps
      is never a context's: it is the initial one, or cleared. */
  lemma {:induction false} NoContextIsEverKept(c: Conn, events: seq<Event>, initial: ContextGucs)
    requires ConnKeepsNoContext(c, initial)
    requires forall n :: 0 <= n < |events| ==> NoForeignEvent(events[n], initial)
    ensures ConnKeepsNoContext(Run(c, events, true), initial)
    decreases |events|
  {
    if events != [] {
      var n := |events| - 1;
      NoContextIsEverKept(c, events[..n], initial);
      StepKeepsNoContext(Run(c, events[..n], true), events[n], initial);
    }
  }
}
