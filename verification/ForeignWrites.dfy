/** With `USE_LOCAL_SET=True`, code inside a context may write the settings for the session. The guard
    does not see what it wrote; no such write outlives the context.

    The proof runs the guard on a second session beside the real one. They differ only in what
    statements are shown: the second one is shown what the tracker believes. Once the session is
    idle again, what it shows is what it keeps, and the two agree. */
module ForeignWrites {
  import opened Gucs
  import opened Sessions
  import opened Trackers
  import opened TrackerSoundness
  import opened Guard
  import opened GuardSoundness
  import opened Runs

  // ---- Two sessions that keep the same ----

  ghost predicate AlikeSavepoints(p: seq<Savepoint>, p': seq<Savepoint>) {
    && |p| == |p'|
    && (forall k :: 0 <= k < |p| ==>
          p'[k].name == p[k].name && p'[k].kept == p[k].kept && p'[k].work == p[k].work)
  }

  ghost predicate AlikeSessions(s: Session, s': Session) {
    && s'.id == s.id && s'.status == s.status && s'.kept == s.kept && s'.start == s.start
    && AlikeSavepoints(s.savepoints, s'.savepoints) && s'.work == s.work && s'.workStart == s.workStart
    && Valid(s) && Valid(s')
  }

  ghost predicate Alike(c: Conn, c': Conn) {
    && c'.tracker == c.tracker
    && SameSetup(c, c')
    && (c.session.Some? <==> c'.session.Some?)
    && (c.session.Some? ==> AlikeSessions(c.session.value, c'.session.value))
  }

  lemma {:induction false} AlikeNewest(p: seq<Savepoint>, p': seq<Savepoint>, name: string)
    requires AlikeSavepoints(p, p')
    ensures NewestSavepoint(p', name) == NewestSavepoint(p, name)
  {
    if p != [] {
      AlikeNewest(p[..|p| - 1], p'[..|p| - 1], name);
    }
  }

  lemma {:induction false} AlikeSetSavepoints(s: Session, s': Session, names: seq<string>)
    requires AlikeSessions(s, s') && s.status == InTransaction
    ensures AlikeSessions(SetSavepoints(s, names), SetSavepoints(s', names))
    decreases |names|
  {
    if names != [] {
      AlikeSetSavepoints(SetSavepoint(s, names[0]), SetSavepoint(s', names[0]), names[1..]);
    }
  }

  lemma AlikeOpaque(s: Session, s': Session, does: OpaqueEffect)
    requires AlikeSessions(s, s')
    ensures AlikeSessions(ApplyOpaque(s, does), ApplyOpaque(s', does))
  {
    if does.Changes? && s.status == InTransaction {
      AlikeSetSavepoints(WriteLocal(WriteSession(s, does.kept), does.shown),
                     WriteLocal(WriteSession(s', does.kept), does.shown), does.savepoints);
    }
  }

  lemma AlikeSavepointEffect(s: Session, s': Session, q: Statement)
    requires AlikeSessions(s, s') && (q.RollbackToNamed? || q.ReleaseNamed?)
    ensures Effect(s, q).Some? <==> Effect(s', q).Some?
    ensures Effect(s, q).Some? ==> AlikeSessions(Effect(s, q).value, Effect(s', q).value)
  {
    AlikeNewest(s.savepoints, s'.savepoints, q.name);
  }

  lemma AlikeEffect(s: Session, s': Session, q: Statement)
    requires AlikeSessions(s, s')
    ensures Effect(s, q).Some? <==> Effect(s', q).Some?
    ensures Effect(s, q).Some? ==> AlikeSessions(Effect(s, q).value, Effect(s', q).value)
  {
    match q
    case RollbackToNamed(_, _) => AlikeSavepointEffect(s, s', q);
    case ReleaseNamed(_, _) => AlikeSavepointEffect(s, s', q);
    case Compound(_, _, does, _) => AlikeOpaque(s, s', does);
    case Unreadable(does, _) => AlikeOpaque(s, s', does);
    case _ =>
  }

  lemma AlikeRefusal(s: Session, s': Session, q: Statement)
    requires AlikeSessions(s, s')
    ensures AlikeSessions(Refusal(s, q), Refusal(s', q))
  {
  }

  lemma AlikeSend(s: Session, s': Session, q: Statement, fault: Fault)
    requires AlikeSessions(s, s')
    ensures AlikeSessions(Send(s, q, fault).session, Send(s', q, fault).session)
    ensures Send(s, q, fault).raised == Send(s', q, fault).raised
  {
    AlikeEffect(s, s', q);
    AlikeRefusal(s, s', q);
  }

  lemma AlikeExecute(c: Conn, c': Conn, q: Statement, fault: Fault)
    requires Alike(c, c') && c.session.Some?
    ensures AlikeSessions(Execute(c, q, fault).session, Execute(c', q, fault).session)
    ensures Execute(c, q, fault).raised == Execute(c', q, fault).raised
  {
    AlikeSend(Opened(c), Opened(c'), q, fault);
  }

  // ---- The guard does the same on both ----

  ghost predicate AlikeRan(r: Ran, r': Ran) {
    Alike(r.conn, r'.conn) && r.raised == r'.raised
  }

  lemma AlikeWrite(c: Conn, c': Conn, values: Option<ContextGucs>, isLocal: bool, fault: Fault)
    requires Alike(c, c') && c.session.Some?
    ensures AlikeRan(WriteGucs(c, values, isLocal, fault), WriteGucs(c', values, isLocal, fault))
  {
    var sent, sent' :=
        SendWrite(c, OnSession(values), isLocal, fault), SendWrite(c', OnSession(values), isLocal, fault);
    assert AlikeSessions(sent.session, sent'.session) && sent.raised == sent'.raised;
  }

  lemma AlikeLook(c: Conn, c': Conn)
    requires Alike(c, c') && c.session.Some?
    ensures Alike(c.(tracker := Look(c.tracker, c.session.value)), c'.(tracker := Look(c'.tracker, c'.session.value)))
    ensures c'.session.value.status == c.session.value.status
    ensures WillRunInTransaction(c, c.session.value.status) == WillRunInTransaction(c', c'.session.value.status)
  {
  }

  lemma AlikePrepare(c: Conn, c': Conn, active: Option<ContextGucs>, localMode: bool, q: Statement, fault: Fault)
    requires Alike(c, c') && c.session.Some?
    ensures AlikeRan(Prepare(c, active, localMode, q, fault), Prepare(c', active, localMode, q, fault))
  {
    var looked := c.(tracker := Look(c.tracker, c.session.value));
    var looked' := c'.(tracker := Look(c'.tracker, c'.session.value));
    AlikeLook(c, c');
    AlikeWrite(looked, looked', active, active.Some? && localMode, fault);
  }

  lemma AlikeAbandon(c: Conn, c': Conn, fault: Fault)
    requires Alike(c, c') && c.session.Some?
    ensures Alike(AbandonOwnTransaction(c, fault), AbandonOwnTransaction(c', fault))
  {
    AlikeSend(c.session.value, c'.session.value, RollbackTransaction(false), fault);
  }

  lemma AlikeEnter(c: Conn, c': Conn, active: Option<ContextGucs>, f: Faults)
    requires Alike(c, c') && c.session.Some?
    ensures AlikeRan(EnterOwnTransaction(c, active, f), EnterOwnTransaction(c', active, f))
  {
    var b, b' := Send(c.session.value, BeginTransaction, f.begin), Send(c'.session.value, BeginTransaction, f.begin);
    AlikeSend(c.session.value, c'.session.value, BeginTransaction, f.begin);
    AlikeWrite(c.(session := Some(b.session), tracker := Look(c.tracker, b.session)),
               c'.(session := Some(b'.session), tracker := Look(c'.tracker, b'.session)), active, true, f.write);
  }

  lemma AlikeFinish(c: Conn, c': Conn, q: Statement, f: Faults)
    requires Alike(c, c') && c.session.Some?
    ensures AlikeRan(FinishOwnTransaction(c, q, f), FinishOwnTransaction(c', q, f))
  {
    var ran, ran' := Execute(c, q, f.statement), Execute(c', q, f.statement);
    AlikeExecute(c, c', q, f.statement);
    var c1, c1' := c.(session := Some(ran.session)), c'.(session := Some(ran'.session));
    AlikeAbandon(c1, c1', f.rollback);
    if !ran.raised {
      AlikeCommit(c1, c1', ran.showed, ran'.showed, f);
    }
  }

  lemma AlikeCommit(c: Conn, c': Conn, showed: Option<ContextGucs>, showed': Option<ContextGucs>, f: Faults)
    requires Alike(c, c') && c.session.Some?
    ensures AlikeRan(CommitOwnTransaction(c, showed, f), CommitOwnTransaction(c', showed', f))
  {
    var e, e' := Send(c.session.value, CommitTransaction(false), f.commit),
                 Send(c'.session.value, CommitTransaction(false), f.commit);
    AlikeSend(c.session.value, c'.session.value, CommitTransaction(false), f.commit);
    AlikeAbandon(c.(session := Some(e.session)), c'.(session := Some(e'.session)), f.rollback);
  }

  lemma AlikeRun(c: Conn, c': Conn, active: Option<ContextGucs>, q: Statement, own: bool, f: Faults)
    requires Alike(c, c') && c.session.Some?
    ensures AlikeRan(RunStatement(c, active, q, own, f), RunStatement(c', active, q, own, f))
  {
    if own {
      AlikeEnter(c, c', active, f);
      var e, e' := EnterOwnTransaction(c, active, f), EnterOwnTransaction(c', active, f);
      if e.raised {
        AlikeAbandon(e.conn, e'.conn, f.rollback);
      } else {
        AlikeFinish(e.conn, e'.conn, q, f);
      }
    } else {
      AlikeExecute(c, c', q, f.statement);
    }
  }

  lemma AlikeFollow(t: Tracker, q: Statement, before: Status, s: Session, s': Session)
    requires AlikeSessions(s, s')
    ensures Follow(t, q, before, s') == Follow(t, q, before, s)
  {
  }

  lemma AlikeAfter(r: Ran, r': Ran, q: Statement, before: Status, own: bool)
    requires AlikeRan(r, r')
    ensures AlikeRan(AfterStatement(r, q, before, own), AfterStatement(r', q, before, own))
  {
    if !r.raised && !IsOpaque(q) && IsFollowed(q) && r.conn.session.Some? {
      AlikeFollow(r.conn.tracker, q, before, r.conn.session.value, r'.conn.session.value);
    }
  }

  lemma AlikeRunPrepared(c: Conn, c': Conn, active: Option<ContextGucs>, q: Statement, before: Status, own: bool,
                         f: Faults)
    requires Alike(c, c') && c.session.Some?
    ensures AlikeRan(RunPrepared(c, active, q, before, own, f), RunPrepared(c', active, q, before, own, f))
  {
    AlikeRun(c, c', active, q, own, f);
    AlikeAfter(RunStatement(c, active, q, own, f), RunStatement(c', active, q, own, f), q, before, own);
  }

  lemma AlikeOwn(c: Conn, c': Conn, active: Option<ContextGucs>, localMode: bool, q: Statement)
    requires Alike(c, c') && c.session.Some?
    ensures c'.session.Some? && c'.session.value.status == c.session.value.status
    ensures NeedsOwnTransaction(c', c.session.value.status, active, localMode, q) ==
              NeedsOwnTransaction(c, c.session.value.status, active, localMode, q)
  {
  }

  lemma AlikeGuard(c: Conn, c': Conn, active: Option<ContextGucs>, localMode: bool, q: Statement, f: Faults)
    requires Alike(c, c') && c.session.Some?
    ensures AlikeRan(GuardStep(c, active, localMode, q, f), GuardStep(c', active, localMode, q, f))
  {
    var before := c.session.value.status;
    var own := !IsControl(q) && NeedsOwnTransaction(c, before, active, localMode, q);
    AlikePrepare(c, c', active, localMode, q, f.write);
    AlikeOwn(c, c', active, localMode, q);
    var p, p' := Prepare(c, active, localMode, q, f.write), Prepare(c', active, localMode, q, f.write);
    AlikeRunPrepared(p.conn, p'.conn, active, q, before, own, f);
  }

  lemma AlikeUnseen(s: Session, s': Session, e: Event)
    requires AlikeSessions(s, s')
    ensures AlikeSessions(Unseen(s, e), Unseen(s', e))
  {
    match e
    case UnseenRelease(name) => AlikeNewest(s.savepoints, s'.savepoints, name);
    case UnseenRollbackTo(name) => AlikeNewest(s.savepoints, s'.savepoints, name);
    case _ =>
  }

  lemma AlikeEnd(c: Conn, c': Conn, commit: bool, fault: Fault)
    requires Alike(c, c') && c.session.Some?
    ensures AlikeRan(TransactionEnd(c, commit, fault), TransactionEnd(c', commit, fault))
  {
    AlikeSend(c.session.value, c'.session.value,
              if commit then CommitTransaction(false) else RollbackTransaction(false), fault);
  }

  lemma AlikeApply(c: Conn, c': Conn, active: Option<ContextGucs>, localMode: bool, fault: Fault)
    requires Alike(c, c') && c.session.Some?
    ensures AlikeRan(ApplyIfStale(c, active, localMode, fault), ApplyIfStale(c', active, localMode, fault))
  {
    AlikePrepare(c, c', active, localMode, Data(false), fault);
  }

  lemma AlikeSuspect(c: Conn, c': Conn, underLocalValues: bool)
    requires Alike(c, c') && c.session.Some?
    ensures AlikeRan(OpenStep(c, Event.Suspect(underLocalValues), false),
                     OpenStep(c', Event.Suspect(underLocalValues), false))
  {
    AlikeLook(c, c');
  }

  lemma AlikeOpenStep(c: Conn, c': Conn, e: Event, localMode: bool)
    requires Alike(c, c') && c.session.Some?
    ensures AlikeRan(OpenStep(c, e, localMode), OpenStep(c', e, localMode))
  {
    match e
    case Statement(active, q, f) => AlikeGuard(c, c', active, localMode, q, f);
    case LibraryWrite(values, isLocal, fault) => AlikeWrite(c, c', values, isLocal, fault);
    case Apply(active, fault) => AlikeApply(c, c', active, localMode, fault);
    case Suspect(underLocalValues) => AlikeSuspect(c, c', underLocalValues);
    case DjangoEnds(commit, fault) => AlikeEnd(c, c', commit, fault);
    case _ => AlikeUnseen(c.session.value, c'.session.value, e);
  }

  lemma AlikeStep(c: Conn, c': Conn, e: Event, localMode: bool)
    requires Alike(c, c')
    ensures AlikeRan(Step(c, e, localMode), Step(c', e, localMode))
  {
    if c.session.Some? { AlikeOpenStep(c, c', e, localMode); }
  }

  lemma AlikeEnds(c: Conn, c': Conn, name: string, followed: bool, rolledBack: bool)
    requires Alike(c, c') && c.session.Some? && MayEndSavepoint(c, name, followed, rolledBack)
    ensures MayEndSavepoint(c', name, followed, rolledBack)
  {
    var p, p' := c.session.value.savepoints, c'.session.value.savepoints;
    AlikeNewest(p, p', name);
    assert forall k :: 0 <= k < |p| ==> p'[k].name == p[k].name;
  }

  lemma AlikeTakesEffect(c: Conn, c': Conn, q: Statement, fault: Fault)
    requires Alike(c, c') && c.session.Some?
    ensures TakesEffect(c', q, fault) == TakesEffect(c, q, fault)
  {
    AlikeEffect(Opened(c), Opened(c'), q);
  }

  lemma AlikeAllowed(c: Conn, c': Conn, q: Statement, fault: Fault)
    requires Alike(c, c') && c.session.Some? && StatementAllowed(c, q, fault)
    ensures StatementAllowed(c', q, fault)
  {
    AlikeTakesEffect(c, c', q, fault);
    match q
    case ReleaseNamed(name, clear) =>
      if TakesEffect(c, q, fault) { AlikeEnds(c, c', name, clear && fault == Fine, false); }
    case RollbackToNamed(name, clear) =>
      if TakesEffect(c, q, fault) { AlikeEnds(c, c', name, clear && fault == Fine, true); }
    case _ =>
  }

  lemma AlikeLegal(c: Conn, c': Conn, e: Event)
    requires Alike(c, c') && Legal(c, e)
    ensures Legal(c', e)
  {
    if c.session.Some? {
      match e
      case UnseenRelease(name) => AlikeEnds(c, c', name, false, false);
      case UnseenRollbackTo(name) =>
        AlikeNewest(c.session.value.savepoints, c'.session.value.savepoints, name);
        AlikeEnds(c, c', name, false, true);
      case Statement(_, q, f) => AlikeAllowed(c, c', q, f.statement);
      case _ =>
    }
  }

  // ---- In local mode, believing a context means having written it locally ----

  predicate NotAContext(belief: Tracked) {
    belief.Known? ==> belief.gucs.None?
  }

  ghost predicate ContextsAreLocal(t: Tracker) {
    && (t.inTransaction ==> NotAContext(t.base))
    && (!t.inTransaction || !t.wroteLocal ==>
          NotAContext(t.values) && forall k :: 0 <= k < |t.savepoints| ==> NotAContext(t.savepoints[k].values))
  }

  lemma LookLocal(t: Tracker, s: Session)
    requires ContextsAreLocal(t)
    ensures ContextsAreLocal(Look(t, s))
  {
  }

  lemma ForgetLocal(t: Tracker)
    requires ContextsAreLocal(t)
    ensures ContextsAreLocal(Forget(t))
  {
  }

  lemma SetLocal(t: Tracker, belief: Tracked, isLocal: bool)
    requires ContextsAreLocal(t)
    requires NotAContext(belief) || (isLocal && t.inTransaction)
    ensures ContextsAreLocal(SetValues(t, belief, isLocal))
  {
  }

  lemma WriteLocalOnly(c: Conn, values: Option<ContextGucs>, isLocal: bool, fault: Fault)
    requires c.session.Some? && ContextsAreLocal(c.tracker)
    requires isLocal || values.None?
    ensures ContextsAreLocal(WriteGucs(c, values, isLocal, fault).conn.tracker)
  {
    var looked := Look(c.tracker, c.session.value);
    var sent := SendWrite(c, OnSession(values), isLocal, fault);
    LookLocal(c.tracker, c.session.value);
    if sent.raised {
      ForgetLocal(looked);
    } else if !isLocal || WillRunInTransaction(c, c.session.value.status) {
      LookLocal(looked, sent.session);
      assert isLocal ==> sent.session.status != Idle;
      SetLocal(Look(looked, sent.session), if c.guarded then Known(values) else Unknown, isLocal);
    }
  }

  lemma PrepareLocal(c: Conn, active: Option<ContextGucs>, q: Statement, fault: Fault)
    requires c.session.Some? && ContextsAreLocal(c.tracker)
    ensures ContextsAreLocal(Prepare(c, active, true, q, fault).conn.tracker)
  {
    LookLocal(c.tracker, c.session.value);
    WriteLocalOnly(c.(tracker := Look(c.tracker, c.session.value)), active, active.Some?, fault);
  }

  lemma EndLocal(t: Tracker, committed: Option<bool>)
    requires ContextsAreLocal(t)
    ensures ContextsAreLocal(EndTransaction(t, committed))
  {
  }

  lemma EnterLocal(c: Conn, active: Option<ContextGucs>, f: Faults)
    requires c.session.Some? && ContextsAreLocal(c.tracker)
    ensures ContextsAreLocal(EnterOwnTransaction(c, active, f).conn.tracker)
  {
    var begun := Send(c.session.value, BeginTransaction, f.begin);
    var t1 := Look(c.tracker, begun.session);
    LookLocal(c.tracker, begun.session);
    WriteLocalOnly(c.(session := Some(begun.session), tracker := t1), active, true, f.write);
  }

  lemma AbandonLocal(c: Conn, fault: Fault)
    requires c.session.Some? && ContextsAreLocal(c.tracker)
    ensures ContextsAreLocal(AbandonOwnTransaction(c, fault).tracker)
  {
    EndLocal(c.tracker, Some(false));
    ForgetLocal(c.tracker);
  }

  lemma FinishLocal(c: Conn, q: Statement, f: Faults)
    requires c.session.Some? && ContextsAreLocal(c.tracker)
    ensures ContextsAreLocal(FinishOwnTransaction(c, q, f).conn.tracker)
  {
    var ran := Execute(c, q, f.statement);
    var ended := Send(ran.session, CommitTransaction(false), f.commit);
    AbandonLocal(c.(session := Some(ran.session)), f.rollback);
    AbandonLocal(c.(session := Some(ended.session)), f.rollback);
    EndLocal(c.tracker, Some(true));
  }

  lemma RunLocal(c: Conn, active: Option<ContextGucs>, q: Statement, own: bool, f: Faults)
    requires c.session.Some? && ContextsAreLocal(c.tracker)
    ensures ContextsAreLocal(RunStatement(c, active, q, own, f).conn.tracker)
  {
    if own {
      EnterLocal(c, active, f);
      var entered := EnterOwnTransaction(c, active, f);
      if entered.raised {
        AbandonLocal(entered.conn, f.rollback);
      } else {
        FinishLocal(entered.conn, q, f);
      }
    }
  }

  lemma SavepointEndLocal(t: Tracker, name: Option<string>, rolledBack: bool)
    requires ContextsAreLocal(t)
    ensures ContextsAreLocal(FollowSavepointEnd(t, name, rolledBack))
  {
    ForgetLocal(t);
  }

  lemma FollowLocal(t: Tracker, q: Statement, before: Status, s: Session)
    requires ContextsAreLocal(t)
    ensures ContextsAreLocal(Follow(t, q, before, s))
  {
    var looked := Look(t, s);
    LookLocal(t, s);
    ForgetLocal(t);
    ForgetLocal(looked);
    match q
    case RollbackTransaction(_) =>
      EndLocal(t, Some(false));
      LookLocal(EndTransaction(t, Some(false)), s);
    case CommitTransaction(_) =>
      EndLocal(t, Some(before != InError));
      LookLocal(EndTransaction(t, Some(before != InError)), s);
    case PrepareTransaction =>
      EndLocal(t, Some(false));
      ForgetLocal(EndTransaction(t, Some(false)));
      LookLocal(Forget(EndTransaction(t, Some(false))), s);
    case ReleaseNamed(name, clear) => SavepointEndLocal(looked, if clear then Some(name) else None, false);
    case RollbackToNamed(name, clear) => SavepointEndLocal(looked, if clear then Some(name) else None, true);
    case _ =>
  }

  lemma NotedLocal(t: Tracker, s: Option<Session>, raised: bool, q: Statement, before: Status, own: bool)
    requires ContextsAreLocal(t)
    ensures ContextsAreLocal(Noted(t, s, raised, q, before, own))
  {
    ForgetLocal(t);
    if s.Some? {
      FollowLocal(t, q, before, s.value);
      ForgetLocal(Follow(t, q, before, s.value));
    }
  }

  lemma AfterLocal(r: Ran, q: Statement, before: Status, own: bool)
    requires ContextsAreLocal(r.conn.tracker)
    ensures ContextsAreLocal(AfterStatement(r, q, before, own).conn.tracker)
  {
    NotedLocal(r.conn.tracker, r.conn.session, r.raised, q, before, own);
  }

  lemma GuardLocal(c: Conn, active: Option<ContextGucs>, q: Statement, f: Faults)
    requires c.session.Some? && ContextsAreLocal(c.tracker)
    ensures ContextsAreLocal(GuardStep(c, active, true, q, f).conn.tracker)
  {
    var before := c.session.value.status;
    var own := !IsControl(q) && NeedsOwnTransaction(c, before, active, true, q);
    PrepareLocal(c, active, q, f.write);
    var p := Prepare(c, active, true, q, f.write);
    RunLocal(p.conn, active, q, own, f);
    AfterLocal(RunStatement(p.conn, active, q, own, f), q, before, own);
  }

  /** The library's own writes in local mode; a new session is known to hold no context. */
  ghost predicate LocalModeEvent(e: Event) {
    match e
    case LibraryWrite(values, isLocal, _) => isLocal || values.None?
    case Open(_, _, known) => NotAContext(known)
    case _ => true
  }

  lemma StepLocal(c: Conn, e: Event)
    requires ContextsAreLocal(c.tracker) && LocalModeEvent(e)
    ensures ContextsAreLocal(Step(c, e, true).conn.tracker)
  {
    ForgetLocal(c.tracker);
    if c.session.Some? {
      match e
      case Statement(active, q, f) => GuardLocal(c, active, q, f);
      case LibraryWrite(values, isLocal, fault) => WriteLocalOnly(c, values, isLocal, fault);
      case Apply(active, fault) => PrepareLocal(c, active, Data(false), fault);
      case Suspect(_) =>
        LookLocal(c.tracker, c.session.value);
        ForgetLocal(Look(c.tracker, c.session.value));
      case _ =>
    }
  }

  // ---- A foreign write inside a context ----

  /** Code inside a context writes the settings for the session, and anything may fail. */
  ghost predicate ForeignInContext(e: Event) {
    e.Statement? && e.q.ForeignWrite? && e.active.Some?
  }

  /** In the guard's own transaction the write goes unnoticed when the `COMMIT` is done and then
      interrupted, and something was believed of the session. */
  predicate UnnoticedInOwnTransaction(c: Conn, f: Faults)
    requires c.session.Some?
  {
    && f.begin == f.write == f.statement == Fine && f.commit == Interrupted && !c.needsRollback
    && Look(c.tracker, c.session.value).values.Known?
  }

  /** In an open transaction, when it is done and then interrupted, on a connection `p` brought to the
      context, without another write for the session, and with something believed of its start. */
  predicate UnnoticedInTransaction(p: Ran, f: Faults)
    requires p.conn.session.Some?
  {
    && f.statement == Interrupted && !p.raised && !p.conn.needsRollback
    && p.conn.session.value.status !in {InError, Bad}
    && !p.conn.tracker.wroteSession && p.conn.tracker.base.Known?
  }

  /** The guard notices the write, or the write leaves nothing behind. */
  ghost predicate Noticed(c: Conn, e: Event)
    requires ForeignInContext(e)
  {
    c.session.Some? ==>
      if NeedsOwnTransaction(c, c.session.value.status, e.active, true, e.q) then !UnnoticedInOwnTransaction(c,
                                                                                                             e.faults)
      else !UnnoticedInTransaction(Prepare(c, e.active, true, e.q, e.faults.write), e.faults)
  }

  /** An idle session is shown what it keeps, so the second session is the real one. */
  lemma IdleIsReal(c: Conn, c': Conn)
    requires Alike(c, c') && ConnInv(c') && c.session.Some? && c.session.value.status == Idle
    ensures ConnInv(c)
  {
    assert c'.session == c.session;
  }

  lemma ForeignAbandonable(c: Conn, active: Option<ContextGucs>, v: ContextGucs, f: Faults, kept: ContextGucs)
    requires InOwnTransaction(c, active, kept) && (f.statement == Fine && !c.needsRollback ==> f.commit != Interrupted)
    ensures FinishOwnTransaction(c, ForeignWrite(v), f).raised ==>
              ConnInv(FinishOwnTransaction(c, ForeignWrite(v), f).conn)
  {
    var ran := Execute(c, ForeignWrite(v), f.statement);
    var c1 := c.(session := Some(ran.session));
    if ran.raised {
      assert ran.session in {c.session.value, Fail(c.session.value), c.session.value.(status := Bad),
                             WriteSession(c.session.value, v)};
      AbandonCloses(c1, f.rollback);
    } else {
      var ended := Send(ran.session, CommitTransaction(false), f.commit);
      assert ran.session == WriteSession(c.session.value, v);
      assert ended.raised ==> ended.session in {ran.session, Rollback(ran.session), ran.session.(status := Bad)};
      AbandonCloses(c1.(session := Some(ended.session)), f.rollback);
    }
  }

  lemma ForeignInOwnTransaction(c: Conn, active: Option<ContextGucs>, v: ContextGucs, f: Faults)
    requires c.session.Some? && c.session.value.status == Idle && ConnInv(c) && c.guarded
    requires c.tracker == Look(c.tracker, c.session.value)
    requires f.begin == f.write == f.statement == Fine && !c.needsRollback ==> f.commit != Interrupted
    ensures ConnInv(AfterStatement(RunInOwnTransaction(c, active, ForeignWrite(v), f), ForeignWrite(v), Idle,
                                   true).conn)
  {
    OwnTransactionCloses(c, active, ForeignWrite(v), f);
    var ran := RunInOwnTransaction(c, active, ForeignWrite(v), f);
    if ran.conn.session.Some? {
      NotedIdle(ran.conn.tracker, ran.conn.session.value, ran.raised, ForeignWrite(v));
      EnterOwnTransactionKeeps(c, active, f);
      var entered := EnterOwnTransaction(c, active, f);
      if entered.raised {
        AbandonCloses(entered.conn, f.rollback);
      } else {
        EnteredCleanly(c, active, f);
        ForeignAbandonable(entered.conn, active, v, f, c.session.value.kept);
      }
    }
  }

  lemma EnteredCleanly(c: Conn, active: Option<ContextGucs>, f: Faults)
    requires c.session.Some? && c.session.value.status == Idle && !EnterOwnTransaction(c, active, f).raised
    ensures f.begin == f.write == Fine && !c.needsRollback && !EnterOwnTransaction(c, active, f).conn.needsRollback
  {
  }

  /** In an open transaction: both kinds of write count as made, so a commit leaves nothing known. */
  lemma ForeignSuspected(t: Tracker, s: Session, v: ContextGucs)
    requires Inv(t, s) && t == Look(t, s) && s.status == InTransaction && t.wroteLocal
    ensures Inv(SuspectSession(t, true), s.(kept := v))
  {
    FlagsRise(t, SuspectSession(t, true), t.savepoints, s.savepoints, s.start);
  }

  lemma PreparedKnows(c: Conn, active: Option<ContextGucs>, q: Statement, fault: Fault)
    requires c.session.Some? && c.guarded && !IsControl(q) && active.Some?
    requires WillRunInTransaction(c, c.session.value.status)
    ensures var p := Prepare(c, active, true, q, fault);
            !p.raised && !p.conn.needsRollback && p.conn.session.value.status !in {InError, Bad} ==>
              p.conn.tracker.values == Known(active)
    ensures var p := Prepare(c, active, true, q, fault);
            !p.raised ==> Look(p.conn.tracker, p.conn.session.value) == p.conn.tracker
  {
    var looked := Look(c.tracker, c.session.value);
    var sent := SendWrite(c, OnSession(active), true, fault);
    assert Look(looked, c.session.value) == looked;
    if !sent.raised {
      assert Look(Look(looked, sent.session), sent.session) == Look(looked, sent.session);
    }
  }

  /** A foreign write that PostgreSQL refused is any other statement it refused. */
  lemma RefusedForeignIsData(c: Conn, active: Option<ContextGucs>, v: ContextGucs, before: Status, f: Faults)
    requires c.session.Some? && f.statement != Interrupted && f.statement != Fine
    ensures RunPrepared(c, active, ForeignWrite(v), before, false, f).conn ==
            RunPrepared(c, active, Data(false), before, false, f).conn
  {
  }

  /** In the guard's own transaction. */
  lemma OwnNoticed(c: Conn, active: Option<ContextGucs>, v: ContextGucs, f: Faults)
    requires c.session.Some? && c.session.value.status == Idle && ConnInv(c) && c.guarded && c.autocommit
    requires active.Some?
    requires c.tracker == Look(c.tracker, c.session.value) && !UnnoticedInOwnTransaction(c, f)
    ensures ConnInv(AfterStatement(RunInOwnTransaction(c, active, ForeignWrite(v), f), ForeignWrite(v), Idle,
                                   true).conn)
  {
    if f.begin == f.write == f.statement == Fine && !c.needsRollback && f.commit == Interrupted {
      InterruptedCommitLeaves(c, active, v, f);
      AppliesNothing(c, active, true, f.write);
    } else {
      ForeignInOwnTransaction(c, active, v, f);
    }
  }

  /** The second session after a foreign write in an open transaction: only what is kept changes. */
  lemma ForeignInTransaction(c: Conn, c': Conn, active: Option<ContextGucs>, v: ContextGucs, f: Faults, before: Status)
    returns (d': Conn)
    requires Alike(c, c') && ConnInv(c') && ContextsAreLocal(c.tracker) && c.session.Some?
    requires c.tracker == Look(c.tracker, c.session.value)
    requires !c.needsRollback && c.session.value.status !in {InError, Bad} ==> c.tracker.values == Known(active)
    requires active.Some? && WillRunInTransaction(c, c.session.value.status) && f.statement == Fine
    ensures Alike(RunPrepared(c, active, ForeignWrite(v), before, false, f).conn, d') && ConnInv(d')
  {
    var r := RunPrepared(c, active, ForeignWrite(v), before, false, f);
    var s, s' := c.session.value, c'.session.value;
    if c.needsRollback || s.status in {InError, Bad} {
      d' := c';
      assert r.conn == c;
    } else {
      assert s.status == InTransaction && c.tracker.wroteLocal;
      ForeignSuspected(c.tracker, s', v);
      d' := c'.(session := Some(s'.(kept := v)), tracker := SuspectSession(c.tracker, true));
      assert r.conn == c.(session := Some(WriteSession(s, v)), tracker := SuspectSession(c.tracker, true));
    }
  }

  /** The second session after an interrupted one that leaves the record true. */
  lemma InterruptedInTransaction(c: Conn, c': Conn, active: Option<ContextGucs>, v: ContextGucs, f: Faults,
                                 before: Status)
    returns (d': Conn)
    requires Alike(c, c') && ConnInv(c') && ContextsAreLocal(c.tracker) && c.session.Some?
    requires c.tracker == Look(c.tracker, c.session.value)
    requires !c.needsRollback && c.session.value.status !in {InError, Bad} ==> c.tracker.values == Known(active)
    requires active.Some? && WillRunInTransaction(c, c.session.value.status) && f.statement == Interrupted
    requires !UnnoticedInTransaction(Ran(c, false, None), f)
    ensures Alike(RunPrepared(c, active, ForeignWrite(v), before, false, f).conn, d') && ConnInv(d')
  {
    var r := RunPrepared(c, active, ForeignWrite(v), before, false, f);
    var s, s' := c.session.value, c'.session.value;
    if c.needsRollback || s.status in {InError, Bad} {
      d' := c';
      assert r.conn == c;
    } else {
      assert s.status == InTransaction && c.tracker.wroteLocal;
      KeptUnderFlags(c.tracker, s', v);
      d' := c'.(session := Some(s'.(kept := v)));
      assert r.conn == c.(session := Some(WriteSession(s, v)));
    }
  }

  /** Where the record claims nothing of what is kept, that may change. */
  lemma KeptUnderFlags(t: Tracker, s: Session, v: ContextGucs)
    requires Inv(t, s) && t == Look(t, s) && s.status == InTransaction && t.wroteLocal
    requires (t.wroteSession || t.base == Unknown)
    ensures Inv(t, s.(kept := v))
  {
  }

  lemma ForeignStepShadowed(c: Conn, c': Conn, e: Event) returns (d': Conn)
    requires Alike(c, c') && ConnInv(c') && ContextsAreLocal(c.tracker) && c.guarded
    requires ForeignInContext(e) && Noticed(c, e)
    ensures Alike(Step(c, e, true).conn, d') && ConnInv(d')
  {
    var active, v, f := e.active, e.q.value, e.faults;
    if c.session.None? {
      return c';
    }
    var s := c.session.value;
    var own := NeedsOwnTransaction(c, s.status, active, true, e.q);
    if own {
      IdleIsReal(c, c');
      AppliesNothing(c, active, true, f.write);
      LookKeeps(c.tracker, s);
      OwnNoticed(c.(tracker := Look(c.tracker, s)), active, v, f);
      d' := Step(c, e, true).conn;
      AlikeStep(c, c', e, true);
      AlikeItself(c, c', e);
      return;
    }
    var p, p' := Prepare(c, active, true, e.q, f.write), Prepare(c', active, true, e.q, f.write);
    AlikePrepare(c, c', active, true, e.q, f.write);
    ApplyIfStaleKeeps(c', active, true, f.write);
    PrepareLocal(c, active, e.q, f.write);
    PreparedKnows(c, active, e.q, f.write);
    if p.raised {
      d' := p'.conn;
    } else if f.statement == Fine {
      d' := ForeignInTransaction(p.conn, p'.conn, active, v, f, s.status);
    } else if f.statement == Interrupted {
      d' := InterruptedInTransaction(p.conn, p'.conn, active, v, f, s.status);
    } else {
      RefusedForeignIsData(p.conn, active, v, s.status, f);
      AlikeRunPrepared(p.conn, p'.conn, active, Data(false), s.status, false, f);
      LookKeeps(c'.tracker, c'.session.value);
      PlainStepKeeps(p'.conn, Data(false), f, s.status);
      d' := RunPrepared(p'.conn, active, Data(false), s.status, false, f).conn;
    }
  }

  /** What a step makes of a valid session is valid, so it is like itself. */
  lemma AlikeItself(c: Conn, c': Conn, e: Event)
    requires Alike(c, c') && Alike(Step(c, e, true).conn, Step(c', e, true).conn)
    ensures Alike(Step(c, e, true).conn, Step(c, e, true).conn)
  {
  }

  // ---- Over whole runs ----

  /** What may happen in a run: what the guard covers, and foreign writes inside contexts. */
  ghost predicate Covered(c: Conn, e: Event) {
    LocalModeEvent(e) && (if ForeignInContext(e) then Noticed(c, e) else Legal(c, e))
  }

  ghost predicate CoveredRun(c: Conn, events: seq<Event>) {
    forall n :: 0 <= n < |events| ==> Covered(Run(c, events[..n], true), events[n])
  }

  lemma CoveredBefore(c: Conn, events: seq<Event>)
    requires CoveredRun(c, events) && events != []
    ensures var n := |events| - 1;
            CoveredRun(c, events[..n]) && Covered(Run(c, events[..n], true), events[n])
  {
    var init := events[..|events| - 1];
    forall k | 0 <= k < |init| ensures Covered(Run(c, init[..k], true), init[k]) {
      assert init[..k] == events[..k];
    }
  }

  /** One step more on both sessions. */
  lemma StepShadowed(c: Conn, c': Conn, e: Event) returns (d': Conn)
    requires Alike(c, c') && ConnInv(c') && ContextsAreLocal(c.tracker) && c.guarded && Covered(c, e)
    ensures Alike(Step(c, e, true).conn, d') && ConnInv(d')
    ensures ContextsAreLocal(Step(c, e, true).conn.tracker) && Step(c, e, true).conn.guarded
  {
    StepLocal(c, e);
    StepKeepsGuarded(c, e, true);
    if ForeignInContext(e) {
      d' := ForeignStepShadowed(c, c', e);
    } else {
      AlikeLegal(c, c', e);
      StepKeeps(c', e, true);
      AlikeStep(c, c', e, true);
      d' := Step(c', e, true).conn;
    }
  }

  lemma {:induction false} RunShadowed(c: Conn, events: seq<Event>) returns (d': Conn)
    requires ConnInv(c) && ContextsAreLocal(c.tracker) && c.guarded && CoveredRun(c, events)
    ensures Alike(Run(c, events, true), d') && ConnInv(d')
    ensures ContextsAreLocal(Run(c, events, true).tracker) && Run(c, events, true).guarded
    decreases |events|
  {
    if events == [] {
      d' := c;
    } else {
      var n := |events| - 1;
      CoveredBefore(c, events);
      var c' := RunShadowed(c, events[..n]);
      d' := StepShadowed(Run(c, events[..n], true), c', events[n]);
    }
  }

  lemma {:induction false} RunSplits(c: Conn, first: seq<Event>, rest: seq<Event>)
    ensures Run(c, first + rest, true) == Run(Run(c, first, true), rest, true)
    decreases |rest|
  {
    if rest == [] {
      assert first + rest == first;
    } else {
      var n := |rest| - 1;
      RunSplits(c, first, rest[..n]);
      assert (first + rest)[..|first + rest| - 1] == first + rest[..n];
    }
  }

  lemma {:induction false} StaysLocal(c: Conn, events: seq<Event>)
    requires ContextsAreLocal(c.tracker) && forall n :: 0 <= n < |events| ==> LocalModeEvent(events[n])
    ensures ContextsAreLocal(Run(c, events, true).tracker) && Run(c, events, true).guarded == c.guarded
    decreases |events|
  {
    if events != [] {
      var n := |events| - 1;
      StaysLocal(c, events[..n]);
      StepLocal(Run(c, events[..n], true), events[n]);
      StepKeepsGuarded(Run(c, events[..n], true), events[n], true);
    }
  }

  /** No foreign write for the session outlives its context: whatever happened before some moment at
      which the record was in step (the start, or once nothing was believed of an idle session), and
      whatever code inside contexts wrote, committed, rolled back or was interrupted in since, noticed:
      an idle session is in step with its record again, and the first data statement run on it outside
      any context is shown cleared settings. */
  lemma NoForeignWriteOutlivesItsContext(c: Conn, events: seq<Event>, n: nat, q: Statement, f: Faults)
    requires ContextsAreLocal(c.tracker) && c.guarded && n <= |events|
    requires forall m :: 0 <= m < n ==> LocalModeEvent(events[m])
    requires ConnInv(Run(c, events[..n], true)) && CoveredRun(Run(c, events[..n], true), events[n..])
    requires Run(c, events, true).session.Some? && Run(c, events, true).session.value.status == Idle
    requires !IsControl(q)
    ensures ConnInv(Run(c, events, true))
    ensures var ran := GuardStep(Run(c, events, true), None, true, q, f);
            ran.showed.Some? ==> ran.showed.value == CLEARED
  {
    StaysLocal(c, events[..n]);
    RunSplits(c, events[..n], events[n..]);
    assert events[..n] + events[n..] == events;
    var d' := RunShadowed(Run(c, events[..n], true), events[n..]);
    IdleIsReal(Run(c, events, true), d');
    GuardShowsActiveContext(Run(c, events, true), None, true, q, f);
  }

  /** A moment at which the record is in step, whatever went unnoticed before: the end of a context finds
      the session idle. */
  lemma SuspectedIdleIsSound(c: Conn, underLocalValues: bool)
    requires c.session.Some? && c.session.value.status == Idle && Valid(c.session.value)
    ensures ConnInv(Step(c, Event.Suspect(underLocalValues), true).conn)
  {
  }

  /** Another one: it finds a transaction open, which is then committed. */
  lemma SuspectedCommitIsSound(c: Conn)
    requires c.session.Some? && c.session.value.status == InTransaction && Valid(c.session.value)
    ensures ConnInv(Step(Step(c, Event.Suspect(true), true).conn, DjangoEnds(true, Fine), true).conn)
  {
    var suspected := Step(c, Event.Suspect(true), true).conn;
    assert suspected.tracker.inTransaction && suspected.tracker.wroteLocal && suspected.tracker.wroteSession;
  }

  // ---- An interruption of the guard's own `COMMIT` ----

  /** The guard's transaction around a foreign write, its `COMMIT` done but interrupted: the session
      keeps the write, and the tracker goes back to what it believed before. */
  lemma InterruptedCommitLeaves(c: Conn, active: Option<ContextGucs>, v: ContextGucs, f: Faults)
    requires c.session.Some? && c.session.value.status == Idle && c.autocommit && !c.needsRollback && c.guarded
    requires active.Some?
    requires ConnInv(c) && c.tracker == Look(c.tracker, c.session.value)
    requires f.begin == f.write == f.statement == Fine && f.commit == Interrupted
    ensures var s := c.session.value;
            var c' := Step(c, Event.Statement(active, ForeignWrite(v), f), true).conn;
            && c'.session == Some(s.(shown := v, kept := v, start := s.kept, workStart := s.work))
            && c'.tracker.values == c.tracker.values && c'.tracker == Look(c'.tracker, c'.session.value)
  {
    AppliesNothing(c, active, true, f.write);
    var begun := Send(c.session.value, BeginTransaction, f.begin);
    var c1 := c.(session := Some(begun.session), tracker := Look(c.tracker, begun.session));
    BegunWrites(c, active, f.write);
    var entered := EnterOwnTransaction(c, active, f).conn;
    assert entered == WriteGucs(c1, active, true, f.write).conn;
    assert entered.session == Some(Begin(c.session.value).(shown := OnSession(active)));
    var ran := Execute(entered, ForeignWrite(v), f.statement);
    assert ran.session == WriteSession(entered.session.value, v) && !ran.raised;
    var finished := FinishOwnTransaction(entered, ForeignWrite(v), f);
    assert finished.raised && finished.conn.session == Some(Commit(ran.session));
    assert finished.conn.tracker == EndTransaction(entered.tracker, Some(false));
  }

  /** The exact condition: whatever the write, the tracker is sound after it if and only if the
      `COMMIT` was not interrupted once done, or nothing was believed of the session before. */
  lemma ForeignWriteNoticedIff(c: Conn, active: Option<ContextGucs>, f: Faults)
    requires c.session.Some? && c.session.value.status == Idle && c.autocommit && !c.needsRollback && c.guarded
    requires active.Some?
    requires ConnInv(c) && c.tracker == Look(c.tracker, c.session.value)
    requires f.begin == f.write == f.statement == Fine
    ensures (forall v :: ConnInv(Step(c, Event.Statement(active, ForeignWrite(v), f), true).conn)) <==>
              f.commit != Interrupted || c.tracker.values == Unknown
  {
    AppliesNothing(c, active, true, f.write);
    forall v ensures ConnInv(Step(c, Event.Statement(active, ForeignWrite(v), f), true).conn) <==>
                       f.commit != Interrupted || Sound(c.tracker.values, v)
    {
      if f.commit == Interrupted {
        InterruptedCommitLeaves(c, active, v, f);
      } else {
        ForeignInOwnTransaction(c, active, v, f);
      }
    }
    if c.tracker.values.Known? {
      var v := if OnSession(c.tracker.values.gucs) == CLEARED then ADMIN_GUCS else CLEARED;
      assert !Sound(c.tracker.values, v);
    }
  }

  // ---- What an unnoticed write leads to ----

  const QUIET := Faults(Fine, Fine, Fine, Fine, Fine)

  /** The context goes on to begin a transaction, ends in it, and the transaction is rolled back. */
  function EndsInARolledBackTransaction(active: Option<ContextGucs>): seq<Event> {
    [Event.Statement(active, BeginTransaction, QUIET), Event.Suspect(true), DjangoEnds(false, Fine)]
  }

  /** Once the context has ended, and the session is idle, a data statement outside is shown nothing. */
  ghost predicate SafeAfter(c: Conn, events: seq<Event>) {
    && CoveredRun(c, events) && Event.Suspect(true) in events
    && Run(c, events, true).session.Some? && Run(c, events, true).session.value.status == Idle
    ==> var ran := GuardStep(Run(c, events, true), None, true, Data(false), QUIET);
        ran.showed.Some? ==> ran.showed.value == CLEARED
  }

  /** An idle session that keeps a foreign write, and a record that believes it cleared. */
  ghost predicate Unaware(c: Conn, v: ContextGucs) {
    && c.session.Some? && c.session.value.status == Idle && c.session.value.shown == c.session.value.kept == v
    && c.tracker == Look(c.tracker, c.session.value) && c.tracker.values == Known(None)
    && !c.needsRollback && c.guarded
  }

  lemma RunOfThree(c: Conn, e1: Event, e2: Event, e3: Event)
    ensures Run(c, [e1, e2, e3], true) == Step(Step(Step(c, e1, true).conn, e2, true).conn, e3, true).conn
    ensures Covered(c, e1) && Covered(Step(c, e1, true).conn, e2)
            && Covered(Step(Step(c, e1, true).conn, e2, true).conn, e3) ==>
              CoveredRun(c, [e1, e2, e3])
  {
    var events := [e1, e2, e3];
    assert events[..0] == [] && events[..3] == events;
    assert events[..1] == [e1] && events[..1][..0] == [];
    assert events[..2] == [e1, e2] && events[..2][..1] == [e1];
    assert Run(c, [e1], true) == Step(c, e1, true).conn;
    assert Run(c, [e1, e2], true) == Step(Run(c, [e1], true), e2, true).conn;
  }

  /** The connection once the transaction is begun. */
  function Begun(c: Conn): Conn
    requires c.session.Some?
  {
    c.(session := Some(Begin(c.session.value)), tracker := Look(c.tracker, Begin(c.session.value)))
  }

  lemma UnawareBegins(c: Conn, v: ContextGucs, active: Option<ContextGucs>)
    requires Unaware(c, v)
    ensures Step(c, Event.Statement(active, BeginTransaction, QUIET), true).conn == Begun(c)
  {
    var prepared := Prepare(c, active, true, BeginTransaction, Fine).conn;
    assert prepared == c;
    var sent := Execute(c, BeginTransaction, Fine);
    assert sent.session == Begin(c.session.value) && !sent.raised;
    assert Look(c.tracker, sent.session).wroteLocal == false;
  }

  lemma BegunEndsUnaware(c: Conn, v: ContextGucs)
    requires Unaware(c, v)
    ensures var c2 := Step(Begun(c), Event.Suspect(true), true).conn;
            var c3 := Step(c2, DjangoEnds(false, Fine), true).conn;
            c3.session == Some(Rollback(Begin(c.session.value)))
            && c3.tracker == EndTransaction(c2.tracker, Some(false))
    ensures var c2 := Step(Begun(c), Event.Suspect(true), true).conn;
            Step(c2, DjangoEnds(false, Fine), true).conn.tracker.values == Known(None)
  {
    var c1 := Begun(c);
    assert Look(c1.tracker, c1.session.value) == c1.tracker;
    var c2 := Step(c1, Event.Suspect(true), true).conn;
    assert c2 == c1.(tracker := SuspectSession(c1.tracker, true));
  }

  lemma UnawareShows(c: Conn, v: ContextGucs)
    requires Unaware(c, v)
    ensures GuardStep(c, None, true, Data(false), QUIET).showed == Some(v)
  {
    assert ApplyIfStale(c, None, true, Fine) == Ran(c, false, None);
  }

  /** The foreign write outlives its context: the rollback takes the record back to a wrong belief. */
  lemma UnawareOutlives(c: Conn, v: ContextGucs, active: Option<ContextGucs>)
    requires Unaware(c, v) && v != CLEARED
    ensures !SafeAfter(c, EndsInARolledBackTransaction(active))
  {
    var e := EndsInARolledBackTransaction(active);
    UnawareBegins(c, v, active);
    BegunEndsUnaware(c, v);
    RunOfThree(c, e[0], e[1], e[2]);
    assert e[1] in e;
    var c3 := Run(c, e, true);
    assert Unaware(c3, v);
    UnawareShows(c3, v);
  }

  /** What an unnoticed write leaves: at once, or once its transaction is committed. */
  lemma OwnLeavesUnaware(c: Conn, e: Event, v: ContextGucs)
    requires ForeignInContext(e) && e.q == ForeignWrite(v) && ConnInv(c) && c.guarded && ContextsAreLocal(c.tracker)
    requires c.session.Some?
    requires NeedsOwnTransaction(c, c.session.value.status, e.active, true, e.q) && !Noticed(c, e)
    ensures Unaware(Step(c, e, true).conn, v)
  {
    var looked := c.(tracker := Look(c.tracker, c.session.value));
    LookKeeps(c.tracker, c.session.value);
    LookLocal(c.tracker, c.session.value);
    InterruptedCommitLeaves(looked, e.active, v, e.faults);
    AppliesNothing(c, e.active, true, e.faults.write);
    AppliesNothing(looked, e.active, true, e.faults.write);
    assert Step(c, e, true) == Step(looked, e, true);
  }

  lemma OpenLeavesUnaware(c: Conn, e: Event, v: ContextGucs)
    requires ForeignInContext(e) && e.q == ForeignWrite(v) && ConnInv(c) && c.guarded && ContextsAreLocal(c.tracker)
    requires c.session.Some?
    requires !NeedsOwnTransaction(c, c.session.value.status, e.active, true, e.q) && !Noticed(c, e)
    ensures Unaware(Step(Step(c, e, true).conn, DjangoEnds(true, Fine), true).conn, v)
  {
    var p := Prepare(c, e.active, true, e.q, e.faults.write);
    ApplyIfStaleKeeps(c, e.active, true, e.faults.write);
    PrepareLocal(c, e.active, e.q, e.faults.write);
    PreparedKnows(c, e.active, e.q, e.faults.write);
    var s := p.conn.session.value;
    assert s.status == InTransaction;
    var c1 := Step(c, e, true).conn;
    assert c1 == p.conn.(session := Some(WriteSession(s, v)));
    var ended := Step(c1, DjangoEnds(true, Fine), true).conn;
    assert ended.session == Some(Commit(WriteSession(s, v)));
    assert ended.tracker == EndTransaction(p.conn.tracker, Some(true));
  }

  /** The events of a run after its first one. */
  lemma CoveredFromFirst(c: Conn, e: Event, after: seq<Event>)
    requires Covered(c, e) && CoveredRun(Step(c, e, true).conn, after)
    ensures CoveredRun(c, [e] + after) && Run(c, [e] + after, true) == Run(Step(c, e, true).conn, after, true)
  {
    var events := [e] + after;
    AfterFirst(c, e, after);
    forall n | 0 <= n < |events| ensures Covered(Run(c, events[..n], true), events[n]) {
      if n == 0 {
        assert events[..0] == [];
      } else {
        assert events[..n] == [e] + after[..n - 1] && events[n] == after[n - 1];
        AfterFirst(c, e, after[..n - 1]);
      }
    }
  }

  lemma AfterFirst(c: Conn, e: Event, after: seq<Event>)
    ensures Run(c, [e] + after, true) == Run(Step(c, e, true).conn, after, true)
  {
    RunOneEvent(c, e);
    RunSplits(c, [e], after);
  }

  lemma RunOneEvent(c: Conn, e: Event)
    ensures Run(c, [e], true) == Step(c, e, true).conn
  {
    assert [e][..0] == [];
  }

  lemma UnnoticedOutlives(c: Conn, e: Event, v: ContextGucs) returns (after: seq<Event>)
    requires ForeignInContext(e) && e.q == ForeignWrite(v) && ConnInv(c) && c.guarded && ContextsAreLocal(c.tracker)
    requires !Noticed(c, e) && v != CLEARED
    ensures !SafeAfter(Step(c, e, true).conn, after)
  {
    var c1 := Step(c, e, true).conn;
    var rest := EndsInARolledBackTransaction(e.active);
    if NeedsOwnTransaction(c, c.session.value.status, e.active, true, e.q) {
      OwnLeavesUnaware(c, e, v);
      UnawareOutlives(c1, v, e.active);
      after := rest;
    } else {
      OpenLeavesUnaware(c, e, v);
      UnawareOutlives(Step(c1, DjangoEnds(true, Fine), true).conn, v, e.active);
      CoveredFromFirst(c1, DjangoEnds(true, Fine), rest);
      after := [DjangoEnds(true, Fine)] + rest;
    }
  }

  /** The exact condition: whatever a context writes for the session, and whatever covered run follows in
      which the context ends, the write is not shown outside, if and only if the guard notices it. */
  lemma ForeignWriteIsSafeIff(c: Conn, e: Event)
    requires ForeignInContext(e) && ConnInv(c) && c.guarded && ContextsAreLocal(c.tracker)
    ensures (forall v, after :: SafeAfter(Step(c, e.(q := ForeignWrite(v)), true).conn, after)) <==> Noticed(c, e)
  {
    if Noticed(c, e) {
      forall v, after: seq<Event> ensures SafeAfter(Step(c, e.(q := ForeignWrite(v)), true).conn, after) {
        NoticedIsSafe(c, e.(q := ForeignWrite(v)), after);
      }
    } else {
      var after := UnnoticedOutlives(c, e.(q := ForeignWrite(ADMIN_GUCS)), ADMIN_GUCS);
    }
  }

  lemma NoticedIsSafe(c: Conn, e: Event, after: seq<Event>)
    requires ForeignInContext(e) && Noticed(c, e) && ConnInv(c) && c.guarded && ContextsAreLocal(c.tracker)
    ensures SafeAfter(Step(c, e, true).conn, after)
  {
    var c1 := Step(c, e, true).conn;
    if CoveredRun(c1, after) && Run(c1, after, true).session.Some?
       && Run(c1, after, true).session.value.status == Idle {
      CoveredFromFirst(c, e, after);
      var events := [e] + after;
      assert events[..0] == [] && events[0..] == events;
      NoForeignWriteOutlivesItsContext(c, events, 0, Data(false), QUIET);
    }
  }
}
