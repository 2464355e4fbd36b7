/** The guard as the library runs it: methods that change a connection and its tracker in place.
    The session's own changes are PostgreSQL's answer to what the driver sends. */
module GuardedConnections {
  import opened Gucs
  import opened Sessions
  import opened Trackers
  import opened TrackerSoundness
  import opened Guard

  class GuardedConnection {
    var session: Option<Session>
    var autocommit: bool
    var needsRollback: bool
    const tracker: SessionGucs
    const guarded: bool

    ghost function State(): Conn
      reads this, tracker
    {
      Conn(session, tracker.State(), autocommit, needsRollback, guarded)
    }

    constructor (configured: bool)
      ensures State() == Conn(None, NEW_TRACKER, true, false, configured)
      ensures fresh(tracker)
    {
      session, autocommit, needsRollback, guarded := None, true, false, configured;
      tracker := new SessionGucs();
    }

    /** `_observe` */
    method Observe() returns (status: Status)
      modifies tracker
      ensures State() == if session.None? then old(State())
                         else old(State()).(tracker := Look(old(tracker.State()), session.value))
      ensures status == if session.None? then Bad else session.value.status
    {
      if session.None? {
        return Bad;
      }
      if tracker.raw != Some(session.value.id) {
        tracker.AttachTo(session.value.id, Unknown);
      }
      tracker.Sync(session.value.status);
      status := session.value.status;
    }

    /** `_record` */
    method RecordWrite(values: Option<ContextGucs>, isLocal: bool)
      requires session.Some?
      modifies tracker
      ensures tracker.State() == Record(old(tracker.State()), session.value, values, guarded, isLocal)
    {
      var _ := Observe();
      tracker.Set(if guarded then Known(values) else Unknown, isLocal);
    }

    /** `write_gucs`, with the bookkeeping of `writing`. */
    method Write(values: Option<ContextGucs>, isLocal: bool, fault: Fault) returns (raised: bool)
      requires session.Some?
      modifies this`session, tracker
      ensures var r := WriteGucs(old(State()), values, isLocal, fault);
              State() == r.conn && raised == r.raised
    {
      if isLocal && session.value.status == Idle && autocommit {
        return true;
      }
      ghost var c := State();
      var _ := Observe();
      ghost var looked := tracker.State();
      var sent := SendWriteThroughCursor(session.value, autocommit, needsRollback, OnSession(values), isLocal, fault);
      assert sent == SendWrite(c, OnSession(values), isLocal, fault) && looked == Look(c.tracker, c.session.value);
      session := Some(sent.session);
      raised := sent.raised;
      if raised {
        tracker.ForgetValues();
      } else {
        RecordWrite(values, isLocal);
      }
    }

    /** `_apply_if_stale` */
    method Apply(active: Option<ContextGucs>, localMode: bool, fault: Fault) returns (status: Status, raised: bool)
      requires session.Some?
      modifies this`session, tracker
      ensures var r := ApplyIfStale(old(State()), active, localMode, fault);
              State() == r.conn && raised == r.raised
      ensures status == old(session.value.status)
    {
      status := Observe();
      raised := false;
      if tracker.values == Known(active) || status == InError || status == Bad || needsRollback || !guarded {
        return;
      }
      var isLocal := active.Some? && localMode;
      if isLocal && status == Idle && autocommit {
        return;
      }
      raised := Write(active, isLocal, fault);
    }

    /** `_abandon_own_transaction` */
    method Abandon(fault: Fault)
      requires session.Some?
      modifies this`session, tracker
      ensures State() == AbandonOwnTransaction(old(State()), fault)
    {
      var ended := true;
      if session.value.status != Idle {
        var sent := Send(session.value, RollbackTransaction(false), fault);
        session := Some(sent.session);
        ended := !sent.raised && sent.session.status == Idle;
      }
      if ended {
        tracker.End(Some(false));
      } else {
        tracker.ForgetValues();
        session := None;
      }
    }

    /** The first half of `_run_in_own_transaction`: `BEGIN`, and the context's values. */
    method EnterOwn(active: Option<ContextGucs>, f: Faults) returns (raised: bool)
      requires session.Some?
      modifies this`session, tracker
      ensures var r := EnterOwnTransaction(old(State()), active, f);
              State() == r.conn && raised == r.raised
    {
      var sent := Send(session.value, BeginTransaction, f.begin);
      session := Some(sent.session);
      raised := sent.raised;
      if !raised {
        var _ := Observe();
        raised := Write(active, true, f.write);
      }
    }

    /** `_run_in_own_transaction` */
    method RunOwn(active: Option<ContextGucs>, q: Statement, f: Faults)
      returns (raised: bool, showed: Option<ContextGucs>)
      requires session.Some?
      modifies this`session, tracker
      ensures var r := RunInOwnTransaction(old(State()), active, q, f);
              State() == r.conn && raised == r.raised && showed == r.showed
    {
      showed := None;
      raised := EnterOwn(active, f);
      if raised {
        Abandon(f.rollback);
      } else {
        raised, showed := FinishOwn(q, f);
      }
    }

    /** The end of `_run_in_own_transaction`: `COMMIT`. */
    method CommitOwn(ghost showed: Option<ContextGucs>, f: Faults) returns (raised: bool)
      requires session.Some?
      modifies this`session, tracker
      ensures var r := CommitOwnTransaction(old(State()), showed, f);
              State() == r.conn && raised == r.raised
    {
      var ended := Send(session.value, CommitTransaction(false), f.commit);
      session := Some(ended.session);
      raised := ended.raised;
      if raised {
        Abandon(f.rollback);
      } else {
        tracker.End(Some(true));
      }
    }

    /** The second half of `_run_in_own_transaction`: the statement, and `COMMIT`. */
    method FinishOwn(q: Statement, f: Faults) returns (raised: bool, showed: Option<ContextGucs>)
      requires session.Some?
      modifies this`session, tracker
      ensures var r := FinishOwnTransaction(old(State()), q, f);
              State() == r.conn && raised == r.raised && showed == r.showed
    {
      var ran := SendThroughCursor(session.value, autocommit, needsRollback, q, f.statement);
      session := Some(ran.session);
      raised, showed := ran.raised, ran.showed;
      if raised {
        Abandon(f.rollback);
      } else {
        raised := CommitOwn(showed, f);
      }
    }

    /** `_follow` */
    method FollowStatement(q: Statement, before: Status)
      requires session.Some?
      modifies tracker
      ensures tracker.State() == Follow(old(tracker.State()), q, before, session.value)
    {
      match q
      case Reset(_, ours, _) =>
        if ours {
          tracker.ForgetValues();
        }
      case EndPrepared =>
      case RollbackTransaction(_) =>
        tracker.End(Some(false));
        var _ := Observe();
      case CommitTransaction(_) =>
        tracker.End(Some(before != InError));
        var _ := Observe();
      case PrepareTransaction =>
        tracker.End(Some(false));
        tracker.ForgetValues();
        var _ := Observe();
      case SetSavepointNamed(name, clear) =>
        var _ := Observe();
        if clear {
          tracker.savepoints := tracker.savepoints + [Entry(name, tracker.values)];
        } else {
          tracker.ForgetValues();
        }
      case ReleaseNamed(name, clear) =>
        var _ := Observe();
        tracker.FollowEndOfSavepoint(if clear then Some(name) else None, false);
      case RollbackToNamed(name, clear) =>
        var _ := Observe();
        tracker.FollowEndOfSavepoint(if clear then Some(name) else None, true);
      case _ =>
        var _ := Observe();
    }

    /** The statement itself, in a transaction of its own or not. */
    method RunOne(active: Option<ContextGucs>, q: Statement, own: bool, f: Faults)
      returns (raised: bool, showed: Option<ContextGucs>)
      requires session.Some?
      modifies this`session, tracker
      ensures var r := RunStatement(old(State()), active, q, own, f);
              State() == r.conn && raised == r.raised && showed == r.showed
    {
      if own {
        raised, showed := RunOwn(active, q, f);
      } else {
        var sent := SendThroughCursor(session.value, autocommit, needsRollback, q, f.statement);
        session := Some(sent.session);
        raised, showed := sent.raised, sent.showed;
      }
    }

    /** The start of `_guard`: nothing but a look, for transaction control. */
    method PrepareFor(active: Option<ContextGucs>, localMode: bool, q: Statement, fault: Fault)
      returns (status: Status, own: bool, raised: bool)
      requires session.Some?
      modifies this`session, tracker
      ensures var r := Prepare(old(State()), active, localMode, q, fault);
              State() == r.conn && raised == r.raised
      ensures status == old(session.value.status)
      ensures own == (!IsControl(q) && NeedsOwnTransaction(old(State()), status, active, localMode, q))
    {
      own, raised := false, false;
      if IsControl(q) {
        status := Observe();
      } else {
        status, raised := Apply(active, localMode, fault);
        own := status == Idle && localMode && autocommit && active.Some? && guarded && !MayBeRefused(q);
      }
    }

    /** The statement, and what the guard notes of it. */
    method RunAndNote(active: Option<ContextGucs>, q: Statement, before: Status, own: bool, f: Faults)
      returns (raised: bool, showed: Option<ContextGucs>)
      requires session.Some?
      modifies this`session, tracker
      ensures var r := RunPrepared(old(State()), active, q, before, own, f);
              State() == r.conn && raised == r.raised && showed == r.showed
    {
      raised, showed := RunOne(active, q, own, f);
      NoteStatement(raised, q, before, own);
    }

    /** `_guard`; `showed` is what the session showed the statement, if it ran. */
    method RunGuarded(active: Option<ContextGucs>, localMode: bool, q: Statement, f: Faults)
      returns (raised: bool, showed: Option<ContextGucs>)
      requires session.Some?
      modifies this`session, tracker
      ensures var r := GuardStep(old(State()), active, localMode, q, f);
              State() == r.conn && raised == r.raised && showed == r.showed
    {
      var status, own;
      showed := None;
      status, own, raised := PrepareFor(active, localMode, q, f.write);
      if !raised {
        raised, showed := RunAndNote(active, q, status, own, f);
      }
    }

    /** The end of `_guard`: what the tracker is told about a statement that ran or raised. */
    method NoteStatement(raised: bool, q: Statement, before: Status, own: bool)
      modifies tracker
      ensures tracker.State() == Noted(old(tracker.State()), session, raised, q, before, own)
    {
      if raised {
        if q.Unreadable? || IsFollowed(q) {
          tracker.ForgetValues();
        }
        return;
      }
      if IsOpaque(q) {
        tracker.ForgetValues();
      } else if IsFollowed(q) && session.Some? {
        FollowStatement(q, before);
      }
      if own || (tracker.wroteLocal && tracker.inTransaction) {
        tracker.Suspect(true);
      }
    }

    /** `_transaction_end`, around Django's `_commit` or `_rollback`. */
    method EndByDjango(commit: bool, fault: Fault) returns (raised: bool)
      requires session.Some?
      modifies this`session, tracker
      ensures var r := TransactionEnd(old(State()), commit, fault);
              State() == r.conn && raised == r.raised
    {
      var before := session.value.status;
      var ours := tracker.raw == Some(session.value.id);
      if before == Idle {
        raised := fault != Fine;
      } else {
        var sent := Send(session.value, if commit then CommitTransaction(false) else RollbackTransaction(false), fault);
        session := Some(sent.session);
        raised := sent.raised;
      }
      if ours {
        var outcome :=
          if !raised then Some(commit)
          else if fault in {NotSent, Interrupted} && commit then None
          else Some(false);
        var after := session.value.status;
        if before != Idle && after == Idle {
          tracker.End(if before == InError then Some(false) else outcome);
        } else if before != after {
          tracker.ForgetValues();
        }
      }
    }
  }
}
