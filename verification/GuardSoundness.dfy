/** Every step on a guarded connection keeps the tracker sound, and what the guard lets a statement see. */
module GuardSoundness {
  import opened Gucs
  import opened Sessions
  import opened Trackers
  import opened TrackerSoundness
  import opened Guard

  // ---- What is asked of the code that runs on the connection ----

  /** `name` is none of the savepoints the tracker follows in the open transaction. */
  ghost predicate NotTracked(c: Conn, name: string)
    requires c.session.Some?
  {
    c.session.value.status in {InTransaction, InError} ==>
      !Follows(Look(c.tracker, c.session.value).savepoints, name)
  }

  /** A statement that ends the savepoint `name` can be followed, or leaves no namesake of a tracked one
      it drops. */
  ghost predicate MayEndSavepoint(c: Conn, name: string, followed: bool, rolledBack: bool)
    requires c.session.Some?
  {
    var s, e := c.session.value, Look(c.tracker, c.session.value).savepoints;
    var i := NewestSavepoint(s.savepoints, name);
    i.Some? ==> (followed && Follows(e, name)) || MayDrop(e, s, i.value, rolledBack)
  }

  /** What the tracker takes for the start of the transaction is what a commit would keep. */
  ghost predicate StartsAsItIsKept(c: Conn)
    requires c.session.Some?
  {
    var t := Look(c.tracker, c.session.value);
    c.session.value.status == InTransaction ==> Sound(t.base, c.session.value.kept)
  }

  ghost predicate EffectAllowed(c: Conn, does: OpaqueEffect)
    requires c.session.Some?
  {
    does.Changes? ==> forall k :: 0 <= k < |does.savepoints| ==> NotTracked(c, does.savepoints[k])
  }

  predicate Done(fault: Fault) {
    fault in {Fine, Interrupted}
  }

  /** PostgreSQL runs the statement: nothing kept it from being sent, refused it or lost it. */
  predicate TakesEffect(c: Conn, q: Statement, fault: Fault)
    requires c.session.Some?
  {
    Done(fault) && !c.needsRollback && Effect(Opened(c), q).Some?
  }

  /** The limits the guard works within, for a statement of its own kind that takes effect. */
  ghost predicate ControlAllowed(c: Conn, q: Statement, fault: Fault)
    requires c.session.Some?
  {
    match q
    case SetSavepointNamed(name, clear) => (clear && fault == Fine) || NotTracked(c, name)
    case ReleaseNamed(name, clear) => MayEndSavepoint(c, name, clear && fault == Fine, false)
    case RollbackToNamed(name, clear) => MayEndSavepoint(c, name, clear && fault == Fine, true)
    case CommitTransaction(chain) => chain && fault == Interrupted ==> StartsAsItIsKept(c)
    case _ => true
  }

  /** The limits the guard works within. */
  ghost predicate StatementAllowed(c: Conn, q: Statement, fault: Fault)
    requires c.session.Some?
  {
    // Of a compound statement that starts with a command the guard does not follow, only success is noticed.
    match q
    case Compound(followed, _, does, _) =>
      Done(fault) ==> EffectAllowed(c, does) && (fault == Interrupted && !followed ==> does.Keeps?)
    case Unreadable(does, _) => Done(fault) ==> EffectAllowed(c, does)
    case ForeignWrite(_) => false
    case _ => TakesEffect(c, q, fault) ==> ControlAllowed(c, q, fault)
  }

  // ---- Writes ----

  lemma BeginKeeps(t: Tracker, s: Session)
    requires Inv(t, s)
    requires s.status == Idle ==> t == Look(t, s)
    ensures Inv(t, Begin(s))
  {
  }

  lemma FailKeeps(t: Tracker, s: Session)
    requires Inv(t, s)
    ensures Inv(t, Fail(s))
  {
  }

  lemma SendWriteKeeps(c: Conn, values: Option<ContextGucs>, isLocal: bool, fault: Fault)
    requires c.session.Some? && ConnInv(c) && c.tracker == Look(c.tracker, c.session.value)
    requires isLocal ==> WillRunInTransaction(c, c.session.value.status)
    ensures var sent := SendWrite(c, OnSession(values), isLocal, fault);
            if sent.raised then Inv(Forget(c.tracker), sent.session)
            else Inv(SetValues(Look(c.tracker, sent.session), if c.guarded then Known(values) else Unknown, isLocal),
                     sent.session)
  {
    var t, s, s1 := c.tracker, c.session.value, Opened(c);
    if c.needsRollback || s.status == Bad || fault == NotSent {
      ForgetKeeps(t, s);
    } else {
      BeginKeeps(t, s);
      FailKeeps(t, s1);
      ForgetKeeps(t, s1);
      ForgetKeeps(t, Fail(s1));
      if s1.status != InError {
        OpenedWriteKeeps(c, t, values, isLocal, c.guarded);
      }
    }
  }

  lemma WriteGucsKeeps(c: Conn, values: Option<ContextGucs>, isLocal: bool, fault: Fault)
    requires c.session.Some? && ConnInv(c)
    ensures ConnInv(WriteGucs(c, values, isLocal, fault).conn)
  {
    var s := c.session.value;
    LookKeeps(c.tracker, s);
    if !(isLocal && !WillRunInTransaction(c, s.status)) {
      SendWriteKeeps(c.(tracker := Look(c.tracker, s)), values, isLocal, fault);
    }
  }

  lemma OpenedWriteKeeps(c: Conn, t: Tracker, values: Option<ContextGucs>, isLocal: bool, recorded: bool)
    requires c.session.Some? && Inv(t, c.session.value) && t == Look(t, c.session.value)
    requires c.session.value.status in {Idle, InTransaction}
    requires isLocal ==> WillRunInTransaction(c, c.session.value.status)
    ensures var s' := Write(Opened(c), OnSession(values), isLocal);
            && Inv(Forget(t), s')
            && Inv(SetValues(Look(t, s'), if recorded then Known(values) else Unknown, isLocal), s')
  {
    var s, s1 := c.session.value, Opened(c);
    BeginKeeps(t, s);
    assert Look(t, Write(s1, OnSession(values), isLocal)) == Look(t, s1);
    LookKeeps(t, s1);
    WriteKeeps(Look(t, s1), s1, values, isLocal, recorded);
    if s1 == s {
      UnrecordedWriteKeeps(t, s, OnSession(values), isLocal);
    }
  }

  lemma ApplyIfStaleKeeps(c: Conn, active: Option<ContextGucs>, localMode: bool, fault: Fault)
    requires c.session.Some? && ConnInv(c)
    ensures ConnInv(ApplyIfStale(c, active, localMode, fault).conn)
  {
    var looked := c.(tracker := Look(c.tracker, c.session.value));
    LookKeeps(c.tracker, c.session.value);
    WriteGucsKeeps(looked, active, active.Some? && localMode, fault);
  }

  // ---- Statements, outside a transaction of the guard's ----

  /** The tracker once the statement has run, before a transaction holding local values is suspected. */
  function Followed(t: Tracker, q: Statement, before: Status, sent: Sent): Tracker {
    if sent.raised then (if q.Unreadable? || IsFollowed(q) then Forget(t) else t)
    else if IsOpaque(q) then Forget(t)
    else if IsFollowed(q) then Follow(t, q, before, sent.session)
    else t
  }

  /** A tracker that knows its transaction is over and forgets is sound on any idle session. */
  lemma ForgottenIdle(t: Tracker, s: Session)
    requires Valid(s) && s.status == Idle && !t.inTransaction
    ensures Inv(Forget(t), s)
  {
  }

  lemma BadKeeps(t: Tracker, s: Session)
    ensures Inv(t, s.(status := Bad))
  {
  }

  /** A statement that left the session as it was, opened, aborted or lost. */
  lemma UntouchedKeeps(c: Conn, q: Statement, fault: Fault)
    requires c.session.Some? && ConnInv(c) && c.tracker == Look(c.tracker, c.session.value)
    requires Execute(c, q, fault).session in
               {c.session.value, Opened(c), Worked(Opened(c)), Fail(Opened(c)), Opened(c).(status := Bad)}
    ensures Inv(c.tracker, Execute(c, q, fault).session)
    ensures Inv(Forget(c.tracker), Execute(c, q, fault).session)
  {
    var s' := Execute(c, q, fault).session;
    BeginKeeps(c.tracker, c.session.value);
    FailKeeps(c.tracker, Opened(c));
    BadKeeps(c.tracker, Opened(c));
    ForgetKeeps(c.tracker, s');
  }

  lemma SimpleStatementKeeps(c: Conn, q: Statement, fault: Fault)
    requires c.session.Some? && ConnInv(c) && c.tracker == Look(c.tracker, c.session.value)
    requires q.Data? || q.SetTransaction? || q.PrepareStatement? || q.EndPrepared?
    ensures var sent := Execute(c, q, fault);
            Inv(Followed(c.tracker, q, c.session.value.status, sent), sent.session)
  {
    UntouchedKeeps(c, q, fault);
    LookKeeps(c.tracker, Execute(c, q, fault).session);
  }

  lemma BeginStatementKeeps(c: Conn, fault: Fault)
    requires c.session.Some? && ConnInv(c) && c.tracker == Look(c.tracker, c.session.value)
    ensures var sent := Execute(c, BeginTransaction, fault);
            Inv(Followed(c.tracker, BeginTransaction, c.session.value.status, sent), sent.session)
  {
    var s := c.session.value;
    BeginKeeps(c.tracker, s);
    FailKeeps(c.tracker, s);
    FailKeeps(c.tracker, Begin(s));
    BadKeeps(c.tracker, s);
    BadKeeps(c.tracker, Begin(s));
    var s' := Execute(c, BeginTransaction, fault).session;
    assert s' in {s, Begin(s), Fail(s), Fail(Begin(s)), s.(status := Bad), Begin(s).(status := Bad)};
    LookKeeps(c.tracker, s');
    ForgetKeeps(c.tracker, s');
  }

  lemma ResetKeeps(c: Conn, q: Statement, fault: Fault)
    requires c.session.Some? && ConnInv(c) && c.tracker == Look(c.tracker, c.session.value)
    requires q.Reset?
    ensures var sent := Execute(c, q, fault);
            Inv(Followed(c.tracker, q, c.session.value.status, sent), sent.session)
  {
    var s1, sent := Opened(c), Execute(c, q, fault);
    if sent.session in {c.session.value, s1, Fail(s1), s1.(status := Bad)} {
      UntouchedKeeps(c, q, fault);
    } else {
      BeginKeeps(c.tracker, c.session.value);
      if s1 == c.session.value {
        UnrecordedWriteKeeps(c.tracker, s1, q.left, false);
      }
    }
  }

  /** A statement that ends the transaction, seen or not to have worked. */
  lemma EndStatementKeeps(c: Conn, q: Statement, fault: Fault)
    requires c.session.Some? && ConnInv(c) && c.tracker == Look(c.tracker, c.session.value)
    requires q.CommitTransaction? || q.RollbackTransaction? || q.PrepareTransaction?
    requires StatementAllowed(c, q, fault)
    ensures var sent := Execute(c, q, fault);
            Inv(Followed(c.tracker, q, c.session.value.status, sent), sent.session)
  {
    var s, s1, sent := c.session.value, Opened(c), Execute(c, q, fault);
    var t := c.tracker;
    if sent.session in {s, s1, Fail(s1), s1.(status := Bad)} && sent.raised {
      UntouchedKeeps(c, q, fault);
    } else {
      BeginKeeps(t, s);
      var committed := !q.RollbackTransaction? && Done(fault);
      if s1.status == Idle {
        EndedIdleKeeps(c, q, fault);
      } else if sent.raised {
        UnnoticedEndKeeps(c, q, fault, committed);
      } else {
        EndKeeps(t, s1, committed);
        EndedKeeps(c, q, fault, committed);
      }
    }
  }

  /** One that raised once the transaction was over, and perhaps the next one begun. */
  lemma UnnoticedEndKeeps(c: Conn, q: Statement, fault: Fault, committed: bool)
    requires c.session.Some? && ConnInv(c) && c.tracker == Look(c.tracker, c.session.value)
    requires q.CommitTransaction? || q.RollbackTransaction? || q.PrepareTransaction?
    requires StatementAllowed(c, q, fault) && Opened(c).status in {InTransaction, InError}
    requires Inv(c.tracker, Opened(c)) && committed == (!q.RollbackTransaction? && Done(fault))
    requires Execute(c, q, fault).session in {End(Opened(c), committed), Begin(End(Opened(c), committed))}
    requires Execute(c, q, fault).raised
    requires Execute(c, q, fault).session !in {c.session.value, Opened(c), Fail(Opened(c))}
    ensures Inv(Forget(c.tracker), Execute(c, q, fault).session)
  {
    var t, s1, sent := c.tracker, Opened(c), Execute(c, q, fault);
    UnseenEndKeeps(t, s1, committed);
    ForgetKeeps(t, End(s1, committed));
    if sent.session != End(s1, committed) {
      assert fault == Interrupted && TakesEffect(c, q, fault);
      ChainedUnnoticed(t, s1, committed);
    }
  }

  /** After a chained end that went unnoticed, a tracker that forgets is sound if and only if what it takes
      for the start of the transaction is what the end has left. */
  lemma ChainedUnnoticed(t: Tracker, s: Session, committed: bool)
    requires Inv(t, s) && t == Look(t, s) && s.status in {InTransaction, InError}
    ensures Inv(Forget(t), Begin(End(s, committed))) <==> Sound(t.base, End(s, committed).kept)
  {
    assert Look(Forget(t), Begin(End(s, committed))) == Forget(t);
  }

  lemma EndedIdleKeeps(c: Conn, q: Statement, fault: Fault)
    requires c.session.Some? && ConnInv(c) && c.tracker == Look(c.tracker, c.session.value)
    requires q.CommitTransaction? || q.RollbackTransaction? || q.PrepareTransaction?
    requires Opened(c).status == Idle
    ensures var sent := Execute(c, q, fault);
            Inv(Followed(c.tracker, q, c.session.value.status, sent), sent.session)
  {
    var sent := Execute(c, q, fault);
    ForgetKeeps(c.tracker, c.session.value);
    BadKeeps(Forget(c.tracker), c.session.value);
  }

  lemma EndedKeeps(c: Conn, q: Statement, fault: Fault, committed: bool)
    requires c.session.Some? && ConnInv(c) && c.tracker == Look(c.tracker, c.session.value)
    requires q.CommitTransaction? || q.RollbackTransaction? || q.PrepareTransaction?
    requires committed == !q.RollbackTransaction?
    requires Opened(c).status in {InTransaction, InError} && !Execute(c, q, fault).raised
    requires Inv(EndTransaction(c.tracker, Some(committed && Opened(c).status != InError)), End(Opened(c), committed))
    ensures var sent := Execute(c, q, fault);
            Inv(Followed(c.tracker, q, c.session.value.status, sent), sent.session)
  {
    var t, s', sent := c.tracker, End(Opened(c), committed), Execute(c, q, fault);
    if q.PrepareTransaction? {
      assert sent.session == s';
      ForgottenIdle(EndTransaction(t, Some(false)), s');
      LookKeeps(Forget(EndTransaction(t, Some(false))), s');
    } else {
      var ended := EndTransaction(t, Some(committed && Opened(c).status != InError));
      ChainKeeps(ended, s');
      assert sent.session in {s', Begin(s')};
      assert Followed(t, q, c.session.value.status, sent) == Look(ended, sent.session);
    }
  }

  lemma ChainKeeps(t: Tracker, s: Session)
    requires Inv(t, s) && s.status == Idle && !t.inTransaction
    ensures Inv(Look(t, s), s) && Inv(Look(t, Begin(s)), Begin(s))
  {
    BeginKeeps(Look(t, s), s);
    LookKeeps(t, s);
  }

  /** A savepoint was set: the guard could follow it, could not read its name, or saw it raise. */
  lemma SavepointSetKeeps(t: Tracker, s: Session, name: string, clear: bool, raised: bool)
    requires Inv(t, s) && s.status == InTransaction
    requires (clear && !raised) || !Follows(Look(t, s).savepoints, name)
    ensures var s' := SetSavepoint(s, name);
            Inv(if raised then Forget(t) else Follow(t, SetSavepointNamed(name, clear), s.status, s'), s')
  {
    var looked, s' := Look(t, s), SetSavepoint(s, name);
    LookKeeps(t, s);
    assert Look(t, s') == looked;
    if clear && !raised {
      SavepointKeeps(looked, s, name);
    } else {
      UnnoticedSetKeeps(t, s, name);
      UnnoticedSetKeeps(looked, s, name);
    }
  }

  lemma UnnoticedSetKeeps(t: Tracker, s: Session, name: string)
    requires Inv(t, s) && s.status == InTransaction && !Follows(Look(t, s).savepoints, name)
    ensures Inv(Forget(t), SetSavepoint(s, name))
  {
    UnseenSavepointKeeps(t, s, name);
    ForgetKeeps(t, SetSavepoint(s, name));
  }

  lemma SetSavepointStatementKeeps(c: Conn, name: string, clear: bool, fault: Fault)
    requires c.session.Some? && ConnInv(c) && c.tracker == Look(c.tracker, c.session.value)
    requires StatementAllowed(c, SetSavepointNamed(name, clear), fault)
    ensures var sent := Execute(c, SetSavepointNamed(name, clear), fault);
            Inv(Followed(c.tracker, SetSavepointNamed(name, clear), c.session.value.status, sent), sent.session)
  {
    var q := SetSavepointNamed(name, clear);
    if c.needsRollback || !Done(fault) || Opened(c).status != InTransaction {
      UntouchedKeeps(c, q, fault);
    } else {
      BeginKeeps(c.tracker, c.session.value);
      SavepointSetKeeps(c.tracker, Opened(c), name, clear, fault == Interrupted);
      ExecutedSavepoint(c, name, clear, fault);
    }
  }

  lemma ExecutedSavepoint(c: Conn, name: string, clear: bool, fault: Fault)
    requires c.session.Some? && !c.needsRollback && Opened(c).status == InTransaction && Done(fault)
    ensures var sent := Execute(c, SetSavepointNamed(name, clear), fault);
            && sent.session == SetSavepoint(Opened(c), name)
            && sent.raised == (fault == Interrupted)
  {
  }

  /** A savepoint was ended: the guard could follow it, could not read its name, or saw it raise. */
  lemma SavepointEndedKeeps(t: Tracker, s: Session, name: string, clear: bool, rolledBack: bool, raised: bool)
    requires Inv(t, s) && t == Look(t, s)
    requires s.status == InTransaction || (rolledBack && s.status == InError)
    requires NewestSavepoint(s.savepoints, name).Some?
    requires (clear && !raised && Follows(t.savepoints, name)) ||
             MayDrop(t.savepoints, s, NewestSavepoint(s.savepoints, name).value, rolledBack)
    ensures var s' := EndSavepoint(s, NewestSavepoint(s.savepoints, name).value, rolledBack);
            Inv(if raised then Forget(t)
                else FollowSavepointEnd(Look(t, s'), if clear then Some(name) else None, rolledBack), s')
  {
    var i := NewestSavepoint(s.savepoints, name).value;
    assert Look(t, EndSavepoint(s, i, rolledBack)) == t;
    if raised {
      UnreadEndKeeps(t, Forget(t), s, i, rolledBack);
    } else if clear && Follows(t.savepoints, name) {
      TrackedSavepointEndKeeps(t, s, name, rolledBack);
    } else {
      UnreadSavepointEndKeeps(t, s, name, clear, rolledBack);
    }
  }

  /** `RELEASE` and `ROLLBACK TO`, as statements. */
  lemma SavepointEndStatementKeeps(c: Conn, q: Statement, fault: Fault)
    requires c.session.Some? && ConnInv(c) && c.tracker == Look(c.tracker, c.session.value)
    requires (q.ReleaseNamed? || q.RollbackToNamed?) && StatementAllowed(c, q, fault)
    ensures var sent := Execute(c, q, fault);
            Inv(Followed(c.tracker, q, c.session.value.status, sent), sent.session)
  {
    if TakesEffect(c, q, fault) {
      EndedSavepoint(c, q, fault);
      FollowedEnd(c.tracker, q, c.session.value.status, Execute(c, q, fault));
      SavepointEndedKeeps(c.tracker, c.session.value, q.name, q.clear, q.RollbackToNamed?, fault == Interrupted);
    } else {
      NothingEnded(c, q, fault);
      FollowedEnd(c.tracker, q, c.session.value.status, Execute(c, q, fault));
      UntouchedKeeps(c, q, fault);
    }
  }

  lemma FollowedEnd(t: Tracker, q: Statement, before: Status, sent: Sent)
    requires q.ReleaseNamed? || q.RollbackToNamed?
    ensures Followed(t, q, before, sent) ==
              if sent.raised then Forget(t)
              else FollowSavepointEnd(Look(t, sent.session), if q.clear then Some(q.name) else None, q.RollbackToNamed?)
  {
  }

  lemma NothingEnded(c: Conn, q: Statement, fault: Fault)
    requires c.session.Some? && (q.ReleaseNamed? || q.RollbackToNamed?) && !TakesEffect(c, q, fault)
    ensures Execute(c, q, fault).raised
    ensures Execute(c, q, fault).session in {c.session.value, Opened(c), Fail(Opened(c)), Opened(c).(status := Bad)}
  {
  }

  lemma EndedSavepoint(c: Conn, q: Statement, fault: Fault)
    requires c.session.Some? && Valid(c.session.value) && (q.ReleaseNamed? || q.RollbackToNamed?)
    requires TakesEffect(c, q, fault)
    ensures var s, i := c.session.value, NewestSavepoint(c.session.value.savepoints, q.name);
            && i.Some? && (s.status == InTransaction || (q.RollbackToNamed? && s.status == InError))
            && Execute(c, q, fault).session == EndSavepoint(s, i.value, q.RollbackToNamed?)
            && Execute(c, q, fault).raised == (fault == Interrupted)
  {
  }

  // ---- Statements that cannot be followed ----

  lemma {:induction false} SetSavepointsKeeps(t: Tracker, s: Session, names: seq<string>)
    requires Inv(t, s) && s.status == InTransaction
    requires forall k :: 0 <= k < |names| ==> !Follows(Look(t, s).savepoints, names[k])
    ensures Inv(t, SetSavepoints(s, names)) && SetSavepoints(s, names).status == InTransaction
    ensures SetSavepoints(s, names).id == s.id
    decreases |names|
  {
    if names != [] {
      UnseenSavepointKeeps(t, s, names[0]);
      var s' := SetSavepoint(s, names[0]);
      assert Look(t, s') == Look(t, s);
      assert forall k :: 0 <= k < |names[1..]| ==> names[1..][k] == names[k + 1];
      SetSavepointsKeeps(t, s', names[1..]);
    }
  }

  /** Whatever it did to the settings, a tracker that forgets is sound again. */
  lemma OpaqueChangesKeep(t: Tracker, s: Session, shown: ContextGucs, kept: ContextGucs)
    requires Inv(t, s) && s.status == InTransaction
    requires t.raw == Some(s.id)
    ensures Inv(Forget(t), WriteLocal(WriteSession(s, kept), shown))
  {
    ForgetKeeps(t, s);
  }

  lemma OpaqueKeeps(c: Conn, q: Statement, fault: Fault)
    requires c.session.Some? && ConnInv(c) && c.tracker == Look(c.tracker, c.session.value)
    requires IsOpaque(q) && StatementAllowed(c, q, fault)
    ensures var sent := Execute(c, q, fault);
            Inv(Followed(c.tracker, q, c.session.value.status, sent), sent.session)
  {
    var t, s, s1, sent := c.tracker, c.session.value, Opened(c), Execute(c, q, fault);
    BeginKeeps(t, s);
    if sent.session in {s, s1, Fail(s1), s1.(status := Bad)} {
      if sent.raised || q.does.Keeps? {
        UntouchedKeeps(c, q, fault);
      } else {
        ForgetKeeps(t, sent.session);
      }
    } else if fault == Rejected {
      UnseenEndKeeps(t, s1, q.endsOnError.value);
      ForgetKeeps(t, sent.session);
    } else {
      OpaqueDoneKeeps(c, q.does);
    }
  }

  lemma OpaqueDoneKeeps(c: Conn, does: OpaqueEffect)
    requires c.session.Some? && ConnInv(c) && c.tracker == Look(c.tracker, c.session.value)
    requires EffectAllowed(c, does) && c.session.value.status != Bad
    ensures Inv(Forget(c.tracker), ApplyOpaque(Opened(c), does))
  {
    var t, s, s1 := c.tracker, c.session.value, Opened(c);
    BeginKeeps(t, s);
    ForgetKeeps(t, s1);
    if s1.status == InTransaction {
      match does
      case Changes(shown, kept, names) =>
        var s2 := WriteLocal(WriteSession(s1, kept), shown);
        OpaqueChangesKeep(t, s1, shown, kept);
        assert Look(Forget(t), s2).savepoints == if s.status == Idle then [] else Look(t, s).savepoints;
        SetSavepointsKeeps(Forget(t), s2, names);
      case Opens(_, shown, kept) => OpaqueChangesKeep(t, s1, shown, kept);
      case Ends(_) => EndedOpaquely(t, s1, does);
      case Keeps =>
    } else if s1.status == InError && does.Ends? {
      EndedOpaquely(t, s1, does);
    } else if s1.status == Idle {
      OpaqueIdleKeeps(t, s1, does);
    }
  }

  lemma EndedOpaquely(t: Tracker, s: Session, does: OpaqueEffect)
    requires Inv(t, s) && s.status in {InTransaction, InError} && does.Ends?
    ensures Inv(Forget(t), ApplyOpaque(s, does))
  {
  }

  lemma OpaqueIdleKeeps(t: Tracker, s: Session, does: OpaqueEffect)
    requires Inv(t, s) && s.status == Idle && t == Look(t, s)
    ensures Inv(Forget(t), ApplyOpaque(s, does))
  {
    ForgetKeeps(t, s);
  }

  // ---- The guard ----

  lemma StatementKeeps(c: Conn, q: Statement, fault: Fault)
    requires c.session.Some? && ConnInv(c) && c.tracker == Look(c.tracker, c.session.value)
    requires StatementAllowed(c, q, fault)
    ensures var sent := Execute(c, q, fault);
            Inv(Followed(c.tracker, q, c.session.value.status, sent), sent.session)
  {
    match q
    case Reset(_, _, _) => ResetKeeps(c, q, fault);
    case BeginTransaction => BeginStatementKeeps(c, fault);
    case CommitTransaction(_) => EndStatementKeeps(c, q, fault);
    case RollbackTransaction(_) => EndStatementKeeps(c, q, fault);
    case PrepareTransaction => EndStatementKeeps(c, q, fault);
    case SetSavepointNamed(name, clear) => SetSavepointStatementKeeps(c, name, clear, fault);
    case ReleaseNamed(_, _) => SavepointEndStatementKeeps(c, q, fault);
    case RollbackToNamed(_, _) => SavepointEndStatementKeeps(c, q, fault);
    case Compound(_, _, _, _) => OpaqueKeeps(c, q, fault);
    case Unreadable(_, _) => OpaqueKeeps(c, q, fault);
    case _ => SimpleStatementKeeps(c, q, fault);
  }

  // ---- The guard's own transaction ----

  /** A statement that leaves the settings alone: of its kind, or because it did not run. */
  predicate LeavesSettings(q: Statement, fault: Fault) {
    q.Data? || (q.Reset? && !q.ours) || (q.Compound? && (q.does.Keeps? || !Done(fault)))
  }

  /** The connection is closed, or its session is idle and keeps `kept`. */
  ghost predicate ClosedOrIdle(c: Conn) {
    c.session.Some? ==> c.session.value.status == Idle && Valid(c.session.value)
  }

  /** A rollback leaves what the tracker believes the transaction started with. */
  ghost predicate Abandonable(c: Conn)
    requires c.session.Some?
  {
    var s := c.session.value;
    && Valid(s)
    && c.tracker.raw == Some(s.id)
    && (s.status != Bad ==> Sound(EndTransaction(c.tracker, Some(false)).values, Rollback(s).shown))
  }

  lemma AbandonCloses(c: Conn, fault: Fault)
    requires c.session.Some? && Valid(c.session.value)
    ensures var c' := AbandonOwnTransaction(c, fault);
            && ClosedOrIdle(c')
            && (c'.session.Some? ==> c'.session.value.kept == Rollback(c.session.value).kept)
            && (c'.session.Some? ==> c'.session.value.id == c.session.value.id)
            && (c'.session.Some? ==> !c'.tracker.inTransaction && c'.tracker.raw == c.tracker.raw)
    ensures Abandonable(c) ==> ConnInv(AbandonOwnTransaction(c, fault))
  {
  }

  /** A connection in the guard's own transaction, with the context's values set. */
  ghost predicate InOwnTransaction(c: Conn, active: Option<ContextGucs>, kept: ContextGucs) {
    && c.session.Some?
    && c.session.value.status == InTransaction
    && c.session.value.shown == OnSession(active)
    && c.session.value.kept == c.session.value.start == kept
    && c.session.value.savepoints == []
    && c.tracker == Look(c.tracker, c.session.value)
    && c.tracker.inTransaction && !c.tracker.wroteSession
    && Sound(c.tracker.base, kept)
    && ConnInv(c)
  }

  lemma EnterOwnTransactionKeeps(c: Conn, active: Option<ContextGucs>, f: Faults)
    requires c.session.Some? && c.session.value.status == Idle && ConnInv(c) && c.guarded
    requires c.tracker == Look(c.tracker, c.session.value)
    ensures var r := EnterOwnTransaction(c, active, f);
            && r.conn.session.Some?
            && Valid(r.conn.session.value)
            && r.conn.session.value.id == c.session.value.id
            && Rollback(r.conn.session.value).kept == c.session.value.kept
            && (if r.raised then Abandonable(r.conn) else InOwnTransaction(r.conn, active, c.session.value.kept))
  {
    if f.begin == Fine {
      BegunWrites(c, active, f.write);
    }
  }

  /** After `BEGIN`, the write either puts the context in force or can be rolled back. */
  lemma BegunWrites(c: Conn, active: Option<ContextGucs>, fault: Fault)
    requires c.session.Some? && c.session.value.status == Idle && ConnInv(c) && c.guarded
    requires c.tracker == Look(c.tracker, c.session.value)
    ensures var s := c.session.value;
            var r := WriteGucs(c.(session := Some(Begin(s)), tracker := Look(c.tracker, Begin(s))), active, true,
                               fault);
            && Valid(r.conn.session.value)
            && r.conn.session.value.id == s.id
            && Rollback(r.conn.session.value).kept == s.kept
            && (if r.raised then Abandonable(r.conn) else InOwnTransaction(r.conn, active, s.kept))
  {
    var s := c.session.value;
    var c1 := c.(session := Some(Begin(s)), tracker := Look(c.tracker, Begin(s)));
    BeginKeeps(c.tracker, s);
    LookKeeps(c.tracker, Begin(s));
    WriteGucsKeeps(c1, active, true, fault);
    var sent := SendWrite(c1, OnSession(active), true, fault);
    assert Look(c1.tracker, Begin(s)) == c1.tracker;
    if sent.raised {
      assert WriteGucs(c1, active, true, fault).conn.tracker == Forget(c1.tracker);
    } else {
      assert sent.session == Begin(s).(shown := OnSession(active));
      assert Look(c1.tracker, sent.session) == c1.tracker;
    }
  }

  lemma CommitOwnTransactionCloses(c: Conn, showed: Option<ContextGucs>, f: Faults)
    requires c.session.Some? && Valid(c.session.value)
    ensures var r := CommitOwnTransaction(c, showed, f);
            && ClosedOrIdle(r.conn) && r.showed == showed
            && (r.conn.session.Some? ==> !r.conn.tracker.inTransaction && r.conn.tracker.raw == c.tracker.raw)
            && (r.conn.session.Some? ==> r.conn.session.value.id == c.session.value.id)
  {
    var ended := Send(c.session.value, CommitTransaction(false), f.commit);
    AbandonCloses(c.(session := Some(ended.session)), f.rollback);
  }

  /** After `COMMIT`, done or failed, a rollback would still leave what was there before. */
  lemma CommitLeavesAbandonable(c: Conn, fault: Fault, kept: ContextGucs)
    requires c.session.Some? && Abandonable(c) && c.session.value.kept == kept
    requires c.session.value.status in {InTransaction, InError} ==> c.session.value.start == kept
    ensures var ended := Send(c.session.value, CommitTransaction(false), fault);
            && Abandonable(c.(session := Some(ended.session)))
            && Rollback(ended.session).kept == kept
            && (!ended.raised ==> ended.session.status == Idle && ended.session.kept == kept)
  {
    var s := c.session.value;
    var ended := Send(s, CommitTransaction(false), fault);
    assert ended.session in {s, Commit(s), Rollback(s), s.(status := Bad)};
  }

  lemma CommitDoneKeeps(c: Conn, kept: ContextGucs, s: Session)
    requires c.session.Some? && Abandonable(c) && Abandonable(c.(session := Some(s))) && s.status == Idle
    requires s.kept == kept
    requires c.tracker.inTransaction ==> !c.tracker.wroteSession
    ensures Inv(EndTransaction(c.tracker, Some(true)), s)
  {
    assert EndTransaction(c.tracker, Some(true)) == EndTransaction(c.tracker, Some(false));
  }

  lemma CommitOwnTransactionKeeps(c: Conn, showed: Option<ContextGucs>, f: Faults, kept: ContextGucs)
    requires c.session.Some? && Abandonable(c) && c.session.value.kept == kept
    requires c.session.value.status in {InTransaction, InError} ==> c.session.value.start == kept
    requires c.tracker.inTransaction ==> !c.tracker.wroteSession
    ensures var r := CommitOwnTransaction(c, showed, f);
            ConnInv(r.conn) && (r.conn.session.Some? ==> r.conn.session.value.kept == kept)
  {
    CommitLeavesAbandonable(c, f.commit, kept);
    var ended := Send(c.session.value, CommitTransaction(false), f.commit);
    if ended.raised {
      AbandonCloses(c.(session := Some(ended.session)), f.rollback);
    } else {
      CommitDoneKeeps(c, kept, ended.session);
    }
  }

  lemma FinishOwnTransactionCloses(c: Conn, active: Option<ContextGucs>, q: Statement, f: Faults, kept: ContextGucs)
    requires InOwnTransaction(c, active, kept) && !IsControl(q)
    ensures var r := FinishOwnTransaction(c, q, f);
            && ClosedOrIdle(r.conn)
            && (r.conn.session.Some? ==> !r.conn.tracker.inTransaction && r.conn.tracker.raw == c.tracker.raw)
            && (r.conn.session.Some? ==> r.conn.session.value.id == c.session.value.id)
            && (r.showed.Some? ==> r.showed.value == OnSession(active))
            && (!r.raised ==> r.showed.Some?)
  {
    var ran := Execute(c, q, f.statement);
    OpaqueValid(c, q, f.statement);
    var c1 := c.(session := Some(ran.session));
    AbandonCloses(c1, f.rollback);
    CommitOwnTransactionCloses(c1, ran.showed, f);
  }

  lemma FinishOwnTransactionKeeps(c: Conn, active: Option<ContextGucs>, q: Statement, f: Faults, kept: ContextGucs)
    requires InOwnTransaction(c, active, kept)
    requires LeavesSettings(q, f.statement)
    ensures var r := FinishOwnTransaction(c, q, f);
            ConnInv(r.conn) && (r.conn.session.Some? ==> r.conn.session.value.kept == kept)
  {
    var ran := Execute(c, q, f.statement);
    LeftAbandonable(c, active, q, f.statement, kept);
    var c1 := c.(session := Some(ran.session));
    if ran.raised {
      AbandonCloses(c1, f.rollback);
    } else {
      CommitOwnTransactionKeeps(c1, ran.showed, f, kept);
    }
  }

  /** A statement that leaves the settings alone can be rolled back. */
  lemma LeftAbandonable(c: Conn, active: Option<ContextGucs>, q: Statement, fault: Fault, kept: ContextGucs)
    requires InOwnTransaction(c, active, kept)
    requires LeavesSettings(q, fault)
    ensures var ran := Execute(c, q, fault);
            && Abandonable(c.(session := Some(ran.session)))
            && ran.session.kept == kept
            && Rollback(ran.session).kept == kept
            && (ran.session.status in {InTransaction, InError} ==> ran.session.start == kept)
  {
  }

  /** Whatever fails, and wherever: the transaction is over or the connection closed, and the
      statement saw the context. */
  lemma OwnTransactionCloses(c: Conn, active: Option<ContextGucs>, q: Statement, f: Faults)
    requires c.session.Some? && c.session.value.status == Idle && ConnInv(c) && c.guarded
    requires c.tracker == Look(c.tracker, c.session.value)
    requires !IsControl(q)
    ensures var r := RunInOwnTransaction(c, active, q, f);
            && ClosedOrIdle(r.conn)
            && (r.conn.session.Some? ==> !r.conn.tracker.inTransaction && r.conn.tracker.raw == c.tracker.raw)
            && (r.conn.session.Some? ==> r.conn.session.value.id == c.session.value.id)
            && (r.showed.Some? ==> r.showed.value == OnSession(active))
            && (!r.raised ==> r.showed.Some?)
  {
    EnterOwnTransactionKeeps(c, active, f);
    var entered := EnterOwnTransaction(c, active, f);
    if entered.raised {
      AbandonCloses(entered.conn, f.rollback);
    } else {
      FinishOwnTransactionCloses(entered.conn, active, q, f, c.session.value.kept);
    }
  }

  /** Around a data statement, the guard's transaction changes nothing the session keeps, and
      leaves the tracker sound. */
  lemma OwnTransactionKeeps(c: Conn, active: Option<ContextGucs>, q: Statement, f: Faults)
    requires c.session.Some? && c.session.value.status == Idle && ConnInv(c) && c.guarded
    requires c.tracker == Look(c.tracker, c.session.value)
    requires LeavesSettings(q, f.statement)
    ensures var r := RunInOwnTransaction(c, active, q, f);
            ConnInv(r.conn) && (r.conn.session.Some? ==> r.conn.session.value.kept == c.session.value.kept)
  {
    EnterOwnTransactionKeeps(c, active, f);
    var entered := EnterOwnTransaction(c, active, f);
    if entered.raised {
      AbandonCloses(entered.conn, f.rollback);
    } else {
      FinishOwnTransactionKeeps(entered.conn, active, q, f, c.session.value.kept);
    }
  }

  lemma {:induction false} SetSavepointsValues(s: Session, names: seq<string>)
    ensures var s' := SetSavepoints(s, names);
            s'.id == s.id && s'.status == s.status && s'.shown == s.shown && s'.kept == s.kept && s'.start == s.start
    decreases |names|
  {
    if names != [] {
      SetSavepointsValues(SetSavepoint(s, names[0]), names[1..]);
    }
  }

  /** What a statement run in the guard's own transaction can do to it. */
  lemma OpaqueValid(c: Conn, q: Statement, fault: Fault)
    requires c.session.Some? && c.session.value.status == InTransaction && !IsControl(q)
    ensures var s' := Execute(c, q, fault).session;
            && Valid(s') && s'.id == c.session.value.id
            && (s'.status in {InTransaction, InError} ==> s'.start == c.session.value.start)
            && (Execute(c, q, fault).showed.Some? ==> Execute(c, q, fault).showed.value == c.session.value.shown)
            && (!Execute(c, q, fault).raised ==> Execute(c, q, fault).showed.Some?)
  {
    if IsOpaque(q) && q.does.Changes? {
      SetSavepointsValues(WriteLocal(WriteSession(c.session.value, q.does.kept), q.does.shown), q.does.savepoints);
    }
  }

  // ---- One guarded statement ----

  /** The statement runs as it is: PostgreSQL may refuse it in a transaction. */
  predicate RunsAsItIs(c: Conn, active: Option<ContextGucs>, localMode: bool, q: Statement)
    requires c.session.Some?
  {
    localMode && active.Some? && !WillRunInTransaction(c, c.session.value.status) && MayBeRefused(q)
  }

  ghost predicate StepAllowed(c: Conn, q: Statement, f: Faults)
    requires c.session.Some?
  {
    && StatementAllowed(c, q, f.statement)
    && (q.Compound? && !q.followed && f.statement == Fine && f.commit != Fine ==>
          q.does.Keeps? || (!Done(f.commit) && !q.does.Ends?))
  }

  /** The savepoints of `c'`, and those its tracker follows, are those of `c`. */
  ghost predicate SameSavepoints(c: Conn, c': Conn)
    requires c.session.Some? && c'.session.Some?
  {
    var s, s' := c.session.value, c'.session.value;
    && s'.savepoints == s.savepoints
    && c'.tracker == Look(c'.tracker, s')
    && (s'.status in {InTransaction, InError} ==>
          c'.tracker.savepoints == if s.status == Idle then [] else Look(c.tracker, s).savepoints)
  }

  lemma RecordedIsLookedAt(t: Tracker, s: Session, belief: Tracked, isLocal: bool)
    ensures var recorded := SetValues(Look(t, s), belief, isLocal);
            recorded == Look(recorded, s) && recorded.savepoints == Look(t, s).savepoints
  {
    var looked := Look(t, s);
    assert looked.raw == Some(s.id) && (looked.inTransaction <==> s.status != Idle);
    var recorded := SetValues(looked, belief, isLocal);
    assert recorded.raw == looked.raw && recorded.inTransaction == looked.inTransaction;
  }

  lemma WriteLeavesSavepoints(c: Conn, values: Option<ContextGucs>, isLocal: bool, fault: Fault)
    requires c.session.Some? && ConnInv(c)
    requires isLocal ==> WillRunInTransaction(c, c.session.value.status)
    ensures var r := WriteGucs(c, values, isLocal, fault);
            !r.raised ==> SameSavepoints(c, r.conn)
  {
    var looked := Look(c.tracker, c.session.value);
    LookKeeps(c.tracker, c.session.value);
    var r := WriteGucs(c, values, isLocal, fault);
    if !r.raised {
      assert r.conn.session.value == Write(Opened(c), OnSession(values), isLocal);
      assert Look(looked, r.conn.session.value) == Look(looked, Opened(c));
      RecordedIsLookedAt(looked, r.conn.session.value, if c.guarded then Known(values) else Unknown, isLocal);
    }
  }

  /** The limits concern savepoints and transactions, which applying the context leaves alone. */
  lemma AppliedAllowed(c: Conn, active: Option<ContextGucs>, localMode: bool, q: Statement, f: Faults)
    requires c.session.Some? && ConnInv(c) && StepAllowed(c, q, f) && !IsControl(q)
    ensures var c' := ApplyIfStale(c, active, localMode, f.write).conn;
            !ApplyIfStale(c, active, localMode, f.write).raised ==>
              StepAllowed(c', q, f) && SameSavepoints(c, c')
  {
    var looked := c.(tracker := Look(c.tracker, c.session.value));
    var isLocal := active.Some? && localMode;
    LookKeeps(c.tracker, c.session.value);
    if isLocal ==> WillRunInTransaction(c, c.session.value.status) {
      WriteLeavesSavepoints(looked, active, isLocal, f.write);
    }
    var r := ApplyIfStale(c, active, localMode, f.write);
    assert !r.raised ==> SameSavepoints(c, r.conn);
  }

  /** Transaction control is sent as it is. */
  lemma ControlStep(c: Conn, active: Option<ContextGucs>, localMode: bool, q: Statement, f: Faults)
    requires c.session.Some? && IsControl(q)
    ensures var s, sent := c.session.value, Execute(c, q, f.statement);
            GuardStep(c, active, localMode, q, f) ==
              Ran(c.(session := Some(sent.session),
                     tracker := Noted(Look(c.tracker, s), Some(sent.session), sent.raised, q, s.status, false)),
                  sent.raised, sent.showed)
  {
  }

  lemma PlainStepKeeps(c: Conn, q: Statement, f: Faults, before: Status)
    requires c.session.Some? && ConnInv(c) && c.tracker == Look(c.tracker, c.session.value)
    requires StatementAllowed(c, q, f.statement)
    requires IsControl(q) ==> before == c.session.value.status
    ensures var sent := Execute(c, q, f.statement);
            var ran := Ran(c.(session := Some(sent.session)), sent.raised, sent.showed);
            ConnInv(AfterStatement(ran, q, before, false).conn)
  {
    var sent := Execute(c, q, f.statement);
    StatementKeeps(c, q, f.statement);
    var t := Followed(c.tracker, q, c.session.value.status, sent);
    assert t == Followed(c.tracker, q, before, sent);
    SuspectKeeps(t, sent.session, true);
  }

  lemma OwnStepKeeps(c: Conn, active: Option<ContextGucs>, q: Statement, f: Faults)
    requires c.session.Some? && c.session.value.status == Idle && ConnInv(c) && c.guarded
    requires c.tracker == Look(c.tracker, c.session.value)
    requires !IsControl(q) && StepAllowed(c, q, f)
    ensures ConnInv(AfterStatement(RunInOwnTransaction(c, active, q, f), q, Idle, true).conn)
  {
    OwnTransactionCloses(c, active, q, f);
    var ran := RunInOwnTransaction(c, active, q, f);
    if ran.conn.session.Some? {
      NotedIdle(ran.conn.tracker, ran.conn.session.value, ran.raised, q);
      if LeavesSettings(q, f.statement) {
        OwnTransactionKeeps(c, active, q, f);
      } else if q.Compound? && !q.followed && f.commit == Fine {
        CleanRunDoesNotRaise(c, active, q, f);
      } else if q.Compound? && !q.followed {
        UncommittedKeeps(c, active, q, f);
      }
    }
  }

  /** What the guard notes once its own transaction is over. */
  lemma NotedIdle(t: Tracker, s: Session, raised: bool, q: Statement)
    requires Valid(s) && s.status == Idle && !t.inTransaction && !IsControl(q)
    ensures !raised || q.Unreadable? || IsFollowed(q) ==> Inv(Noted(t, Some(s), raised, q, Idle, true), s)
    ensures raised && !q.Unreadable? && !IsFollowed(q) ==> Noted(t, Some(s), raised, q, Idle, true) == t
  {
    ForgottenIdle(t, s);
    ForgottenIdle(Forget(t), s);
  }

  lemma CleanRunDoesNotRaise(c: Conn, active: Option<ContextGucs>, q: Statement, f: Faults)
    requires c.session.Some? && c.session.value.status == Idle && ConnInv(c) && c.guarded
    requires c.tracker == Look(c.tracker, c.session.value)
    requires q.Compound? && f.statement == f.commit == Fine
    ensures var r := RunInOwnTransaction(c, active, q, f);
            r.raised ==> r.showed.None? && ConnInv(r.conn)
  {
    EnterOwnTransactionKeeps(c, active, f);
    var entered := EnterOwnTransaction(c, active, f);
    if entered.raised {
      AbandonCloses(entered.conn, f.rollback);
    } else {
      OpaqueValid(entered.conn, q, f.statement);
      OpaqueNotBad(entered.conn.session.value, q.does);
    }
  }

  /** A compound statement the guard's `COMMIT` did not commit is rolled back. */
  lemma UncommittedKeeps(c: Conn, active: Option<ContextGucs>, q: Statement, f: Faults)
    requires c.session.Some? && c.session.value.status == Idle && ConnInv(c) && c.guarded
    requires c.tracker == Look(c.tracker, c.session.value)
    requires q.Compound? && !q.does.Ends? && f.statement == Fine && !Done(f.commit)
    ensures var r := RunInOwnTransaction(c, active, q, f);
            r.raised && ConnInv(r.conn)
  {
    EnterOwnTransactionKeeps(c, active, f);
    var entered := EnterOwnTransaction(c, active, f);
    if entered.raised {
      AbandonCloses(entered.conn, f.rollback);
    } else {
      var ran := Execute(entered.conn, q, f.statement);
      var c1 := entered.conn.(session := Some(ran.session));
      StillAbandonable(entered.conn, active, q, c.session.value.kept);
      if ran.raised {
        AbandonCloses(c1, f.rollback);
      } else {
        var ended := Send(ran.session, CommitTransaction(false), f.commit);
        assert ended.session in {ran.session, Rollback(ran.session), ran.session.(status := Bad)};
        AbandonCloses(c1.(session := Some(ended.session)), f.rollback);
      }
    }
  }

  lemma StillAbandonable(c: Conn, active: Option<ContextGucs>, q: Statement, kept: ContextGucs)
    requires InOwnTransaction(c, active, kept) && q.Compound? && !q.does.Ends?
    ensures var s := Execute(c, q, Fine).session;
            && Abandonable(c.(session := Some(s)))
            && s.status == InTransaction && s.start == c.session.value.start
  {
    if q.does.Changes? {
      var s := c.session.value;
      SetSavepointsValues(WriteLocal(WriteSession(s, q.does.kept), q.does.shown), q.does.savepoints);
    }
  }

  lemma OpaqueNotBad(s: Session, does: OpaqueEffect)
    requires s.status == InTransaction
    ensures ApplyOpaque(s, does).status in {InTransaction, Idle}
  {
    if does.Changes? {
      SetSavepointsValues(WriteLocal(WriteSession(s, does.kept), does.shown), does.savepoints);
    }
  }

  lemma RunPreparedKeeps(c: Conn, active: Option<ContextGucs>, q: Statement, before: Status, own: bool, f: Faults)
    requires c.session.Some? && ConnInv(c) && c.tracker == Look(c.tracker, c.session.value)
    requires StepAllowed(c, q, f)
    requires IsControl(q) ==> before == c.session.value.status
    requires own ==> before == c.session.value.status == Idle && c.guarded && !IsControl(q)
    ensures ConnInv(RunPrepared(c, active, q, before, own, f).conn)
  {
    if own {
      OwnStepKeeps(c, active, q, f);
    } else {
      PlainStepKeeps(c, q, f, before);
    }
  }

  /** Every guarded statement keeps the invariant, whatever it does and whatever fails. */
  lemma GuardKeeps(c: Conn, active: Option<ContextGucs>, localMode: bool, q: Statement, f: Faults)
    requires c.session.Some? && ConnInv(c) && StepAllowed(c, q, f)
    ensures ConnInv(GuardStep(c, active, localMode, q, f).conn)
  {
    var s := c.session.value;
    var own := !IsControl(q) && NeedsOwnTransaction(c, s.status, active, localMode, q);
    var prepared := Prepare(c, active, localMode, q, f.write);
    LookKeeps(c.tracker, s);
    if !IsControl(q) {
      ApplyIfStaleKeeps(c, active, localMode, f.write);
      AppliedAllowed(c, active, localMode, q, f);
      if own {
        AppliesNothing(c, active, localMode, f.write);
      }
    }
    if !prepared.raised {
      RunPreparedKeeps(prepared.conn, active, q, s.status, own, f);
    }
  }

  /** A context is never written in autocommit when it is to be set transaction-locally. */
  lemma AppliesNothing(c: Conn, active: Option<ContextGucs>, localMode: bool, fault: Fault)
    requires c.session.Some? && localMode && active.Some?
    requires !WillRunInTransaction(c, c.session.value.status)
    ensures ApplyIfStale(c, active, localMode, fault) ==
            Ran(c.(tracker := Look(c.tracker, c.session.value)), false, None)
  {
  }

  lemma WriteShows(c: Conn, values: Option<ContextGucs>, isLocal: bool, fault: Fault)
    requires c.session.Some? && (isLocal ==> WillRunInTransaction(c, c.session.value.status))
    ensures var r := WriteGucs(c, values, isLocal, fault);
            !r.raised ==>
              r.conn.session.value.shown == OnSession(values) && r.conn.session.value.status in {Idle, InTransaction}
  {
  }

  /** The session shows the context once the guard has applied it, or runs nothing. */
  lemma AppliedShows(c: Conn, active: Option<ContextGucs>, localMode: bool, fault: Fault)
    requires c.session.Some? && ConnInv(c) && c.guarded
    requires localMode && active.Some? ==> WillRunInTransaction(c, c.session.value.status)
    ensures var applied := ApplyIfStale(c, active, localMode, fault);
            !applied.raised ==>
              || applied.conn.session.value.shown == OnSession(active)
              || applied.conn.session.value.status in {InError, Bad}
              || applied.conn.needsRollback
  {
    var looked := c.(tracker := Look(c.tracker, c.session.value));
    LookKeeps(c.tracker, c.session.value);
    WriteShows(looked, active, active.Some? && localMode, fault);
  }

  lemma ExecuteShows(c: Conn, q: Statement, fault: Fault)
    requires c.session.Some? && Valid(c.session.value)
    ensures Execute(c, q, fault).showed.Some? ==>
              && Execute(c, q, fault).showed.value == c.session.value.shown
              && c.session.value.status !in {InError, Bad}
              && !c.needsRollback
  {
  }

  /** The guard theorem: a statement the guard treats as data, on a configured alias, runs while
      the session shows exactly the active context, or does not run at all. */
  lemma GuardShowsActiveContext(c: Conn, active: Option<ContextGucs>, localMode: bool, q: Statement, f: Faults)
    requires c.session.Some? && ConnInv(c) && c.guarded && !IsControl(q)
    requires !RunsAsItIs(c, active, localMode, q)
    ensures var ran := GuardStep(c, active, localMode, q, f);
            ran.showed.Some? ==> ran.showed.value == OnSession(active)
  {
    var s := c.session.value;
    LookKeeps(c.tracker, s);
    if NeedsOwnTransaction(c, s.status, active, localMode, q) {
      AppliesNothing(c, active, localMode, f.write);
      OwnTransactionCloses(c.(tracker := Look(c.tracker, s)), active, q, f);
    } else {
      AppliedShows(c, active, localMode, f.write);
      ApplyIfStaleKeeps(c, active, localMode, f.write);
      ExecuteShows(ApplyIfStale(c, active, localMode, f.write).conn, q, f.statement);
    }
  }
}
