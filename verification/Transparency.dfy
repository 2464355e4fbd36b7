/** The guard changes nothing but the two settings: each statement does what it would do without it, and
    what it did is kept or lost as the caller is told. */
module Transparency {
  import opened Gucs
  import opened Sessions
  import opened Trackers
  import opened TrackerSoundness
  import opened Guard
  import opened GuardSoundness
  import Runs

  const NO_FAULTS := Faults(Fine, Fine, Fine, Fine, Fine)

  // ---- Sessions that differ in their settings only ----

  ghost predicate SameSavepointsBut(p: seq<Savepoint>, p': seq<Savepoint>) {
    |p'| == |p| && forall k :: 0 <= k < |p| ==> p'[k].name == p[k].name && p'[k].work == p[k].work
  }

  /** The same session but for its settings. */
  ghost predicate SameBut(s: Session, s': Session) {
    && s'.id == s.id && s'.status == s.status && s'.work == s.work && SameSavepointsBut(s.savepoints, s'.savepoints)
    && (s.status in {InTransaction, InError} ==> s'.workStart == s.workStart)
  }

  lemma {:induction false} NewestBut(p: seq<Savepoint>, p': seq<Savepoint>, name: string)
    requires SameSavepointsBut(p, p')
    ensures NewestSavepoint(p', name) == NewestSavepoint(p, name)
  {
    if p != [] {
      NewestBut(p[..|p| - 1], p'[..|p| - 1], name);
    }
  }

  lemma {:induction false} SavepointsBut(s: Session, s': Session, names: seq<string>)
    requires SameBut(s, s')
    ensures SameBut(SetSavepoints(s, names), SetSavepoints(s', names))
    decreases |names|
  {
    if names != [] {
      SavepointsBut(SetSavepoint(s, names[0]), SetSavepoint(s', names[0]), names[1..]);
    }
  }

  lemma OpaqueBut(s: Session, s': Session, does: OpaqueEffect)
    requires SameBut(s, s')
    ensures SameBut(ApplyOpaque(s, does), ApplyOpaque(s', does))
  {
    if does.Changes? && s.status == InTransaction {
      SavepointsBut(WriteLocal(WriteSession(s, does.kept), does.shown),
                    WriteLocal(WriteSession(s', does.kept), does.shown), does.savepoints);
    }
  }

  lemma EffectBut(s: Session, s': Session, q: Statement)
    requires SameBut(s, s')
    ensures Effect(s', q).Some? <==> Effect(s, q).Some?
    ensures Effect(s, q).Some? ==> SameBut(Effect(s, q).value, Effect(s', q).value)
  {
    match q
    case RollbackToNamed(name, _) => NewestBut(s.savepoints, s'.savepoints, name);
    case ReleaseNamed(name, _) => NewestBut(s.savepoints, s'.savepoints, name);
    case Compound(_, _, does, _) => OpaqueBut(s, s', does);
    case Unreadable(does, _) => OpaqueBut(s, s', does);
    case _ =>
  }

  lemma RefusalBut(s: Session, s': Session, q: Statement)
    requires SameBut(s, s')
    ensures SameBut(Refusal(s, q), Refusal(s', q))
  {
  }

  lemma SendBut(s: Session, s': Session, q: Statement, fault: Fault)
    requires SameBut(s, s')
    ensures var sent, sent' := Send(s, q, fault), Send(s', q, fault);
            SameBut(sent.session, sent'.session) && sent'.raised == sent.raised
            && (sent'.showed.Some? <==> sent.showed.Some?)
  {
    EffectBut(s, s', q);
    RefusalBut(s, s', q);
  }

  // ---- One statement ----

  /** What the caller's statement does on this connection, with or without the guard's settings. */
  lemma ExecuteBut(c: Conn, c': Conn, q: Statement, fault: Fault)
    requires c.session.Some? && c'.session.Some? && SameSetup(c, c') && fault != NotSent
    requires SameBut(c.session.value, c'.session.value) || SameBut(Opened(c), c'.session.value)
    requires c.needsRollback || c.session.value.status == Bad ==> SameBut(c.session.value, c'.session.value)
    ensures var sent, sent' := Execute(c, q, fault), Execute(c', q, fault);
            SameBut(sent.session, sent'.session) && sent'.raised == sent.raised
            && (sent'.showed.Some? <==> sent.showed.Some?)
  {
    assert SameBut(Opened(c), Opened(c'));
    SendBut(Opened(c), Opened(c'), q, fault);
  }

  /** Bringing the connection to the context writes settings, and nothing else. */
  lemma PreparedBut(c: Conn, active: Option<ContextGucs>, localMode: bool, q: Statement, fault: Fault)
    requires c.session.Some? && fault == Fine
    ensures var p := Prepare(c, active, localMode, q, fault);
            && !p.raised && SameSetup(c, p.conn)
            && (SameBut(c.session.value, p.conn.session.value) || SameBut(Opened(c), p.conn.session.value))
            && (c.needsRollback || c.session.value.status in {InError, Bad} ==>
                  SameBut(c.session.value, p.conn.session.value))
  {
  }

  /** A statement the guard sends as it is does what it would do without the guard. */
  lemma SentAsItIs(c: Conn, active: Option<ContextGucs>, localMode: bool, q: Statement, f: Faults)
    requires c.session.Some? && f.write == Fine && f.statement != NotSent
    requires IsControl(q) || !NeedsOwnTransaction(c, c.session.value.status, active, localMode, q)
    ensures var ran, plain := GuardStep(c, active, localMode, q, f), Execute(c, q, f.statement);
            && ran.conn.session.Some? && SameBut(plain.session, ran.conn.session.value)
            && ran.raised == plain.raised && (ran.showed.Some? <==> plain.showed.Some?)
  {
    var p := Prepare(c, active, localMode, q, f.write).conn;
    PreparedBut(c, active, localMode, q, f.write);
    SentPrepared(c, active, localMode, q, f);
    ExecuteBut(c, p, q, f.statement);
  }

  lemma SentPrepared(c: Conn, active: Option<ContextGucs>, localMode: bool, q: Statement, f: Faults)
    requires c.session.Some? && !Prepare(c, active, localMode, q, f.write).raised
    requires IsControl(q) || !NeedsOwnTransaction(c, c.session.value.status, active, localMode, q)
    ensures var ran, sent := GuardStep(c, active, localMode, q, f),
                             Execute(Prepare(c, active, localMode, q, f.write).conn, q, f.statement);
            ran.conn.session == Some(sent.session) && ran.raised == sent.raised && ran.showed == sent.showed
  {
  }

  // ---- The guard's own transaction ----

  /** `BEGIN` and the values went through. */
  predicate Enters(c: Conn, f: Faults) {
    f.begin == f.write == Fine && !c.needsRollback
  }

  /** An idle session, which the guard gives a transaction of its own. */
  ghost predicate OwnStarts(c: Conn, active: Option<ContextGucs>) {
    && c.session.Some? && c.session.value.status == Idle && ConnInv(c) && c.guarded && c.autocommit && active.Some?
    && c.tracker == Look(c.tracker, c.session.value)
  }

  lemma EntersOwn(c: Conn, active: Option<ContextGucs>, f: Faults)
    requires OwnStarts(c, active)
    ensures var r, s := EnterOwnTransaction(c, active, f), c.session.value;
            && r.raised == !Enters(c, f)
            && (!r.raised ==> r.conn.session == Some(Begin(s).(shown := OnSession(active))))
            && r.conn.session.value.work == s.work && r.conn.session.value.kept == s.kept
            && (r.conn.session.value.status in {InTransaction, InError} ==>
                  r.conn.session.value.workStart == s.work && r.conn.session.value.start == s.kept)
            && (r.conn.session.value.status == Bad ==> f.begin == Lost || f.write == Lost)
  {
    var s := c.session.value;
    assert Look(Look(c.tracker, Begin(s)), Begin(s)) == Look(c.tracker, Begin(s));
  }

  /** A session in which a transaction is open, ended, failed or lost. */
  predicate Under(s: Session, work: nat, kept: ContextGucs) {
    s.status in {InTransaction, InError} ==> s.workStart == work && s.start == kept
  }

  /** Where the session is not lost and the rollback works, it is open and idle again, and what was not
      committed is gone. */
  lemma AbandonLeaves(c: Conn, fault: Fault, work: nat, kept: ContextGucs)
    requires c.session.Some? && Valid(c.session.value) && Under(c.session.value, work, kept)
    ensures var c' := AbandonOwnTransaction(c, fault);
            && (c'.session.Some? ==>
                  && c'.session.value.status == Idle
                  && (if c.session.value.status == Idle then c'.session == c.session
                      else c'.session.value.work == work && c'.session.value.kept == kept))
            && (c.session.value.status == Idle || (c.session.value.status != Bad && fault == Fine) ==> c'.session.Some?)
  {
  }

  /** No step loses the session, and a rollback, should it come to that, works. */
  predicate Reachable(f: Faults) {
    f.begin != Lost && f.write != Lost && f.statement != Lost && f.commit != Lost && f.rollback == Fine
  }

  /** The work of a data statement outlasts the guard's transaction: it ran, and the `COMMIT` was done. */
  predicate WorkIsCommitted(c: Conn, f: Faults) {
    Enters(c, f) && f.statement == Fine && Done(f.commit)
  }

  /** What `FinishOwnTransaction` does to a data statement. */
  lemma FinishesOwn(c: Conn, s: Session, active: Option<ContextGucs>, refused: bool, f: Faults)
    requires s.status == Idle && Valid(s) && c.session == Some(Begin(s).(shown := OnSession(active)))
    requires c.autocommit && !c.needsRollback
    ensures var r := FinishOwnTransaction(c, Data(refused), f);
            && r.raised == !(f.statement == f.commit == Fine)
            && (f.statement != NotSent ==> r.showed == Some(OnSession(active)))
            && (r.conn.session.Some? ==>
                  && r.conn.session.value.status == Idle && r.conn.session.value.kept == s.kept
                  && r.conn.session.value.work == s.work + (if f.statement == Fine && Done(f.commit) then 1 else 0))
            && (f.statement == Fine && Done(f.commit) ==> r.conn.session.Some?)
            && (f.statement != Lost && f.commit != Lost && f.rollback == Fine ==> r.conn.session.Some?)
  {
    var ran := Execute(c, Data(refused), f.statement);
    var c1 := c.(session := Some(ran.session));
    AbandonLeaves(c1, f.rollback, s.work, s.kept);
    if !ran.raised {
      var ended := Send(ran.session, CommitTransaction(false), f.commit);
      AbandonLeaves(c1.(session := Some(ended.session)), f.rollback, s.work, s.kept);
    }
  }

  /** A data statement in local mode and autocommit, whatever fails: it raises if and only if some step
      failed, and its work is kept if and only if it did not raise or its `COMMIT` was interrupted once
      done. The session keeps the settings it had, and is idle or closed, and closed only where it was lost
      or would not roll back. */
  lemma OwnWorkIsKeptIff(c: Conn, active: Option<ContextGucs>, f: Faults)
    requires c.session.Some? && c.session.value.status == Idle && ConnInv(c) && c.guarded && c.autocommit
    requires active.Some?
    ensures var s, r := c.session.value, GuardStep(c, active, true, Data(false), f);
            && (r.raised <==> !(Enters(c, f) && f.statement == f.commit == Fine))
            && (Enters(c, f) && f.statement != NotSent ==> r.showed == Some(OnSession(active)))
            && (WorkIsCommitted(c, f) <==> r.conn.session.Some? && r.conn.session.value.work == s.work + 1)
            && (r.conn.session.Some? ==>
                  && r.conn.session.value.status == Idle && r.conn.session.value.kept == s.kept
                  && r.conn.session.value.work in {s.work, s.work + 1})
            && (!r.raised || Reachable(f) ==> r.conn.session.Some?)
  {
    var s := c.session.value;
    var looked := c.(tracker := Look(c.tracker, s));
    LookKeeps(c.tracker, s);
    AppliesNothing(c, active, true, f.write);
    EntersOwn(looked, active, f);
    EnterOwnTransactionKeeps(looked, active, f);
    var entered := EnterOwnTransaction(looked, active, f);
    if entered.raised {
      AbandonLeaves(entered.conn, f.rollback, s.work, s.kept);
    } else {
      FinishesOwn(entered.conn, s, active, false, f);
    }
  }

  /** The other statements that get one: they change nothing but settings, if anything. */
  lemma OwnIsTransparent(c: Conn, active: Option<ContextGucs>, q: Statement, f: Faults)
    requires c.session.Some? && ConnInv(c) && c.guarded && !IsControl(q) && !IsOpaque(q)
    requires NeedsOwnTransaction(c, c.session.value.status, active, true, q)
    requires f == NO_FAULTS.(statement := f.statement) && f.statement in {Fine, Rejected}
    ensures var ran, plain := GuardStep(c, active, true, q, f), Execute(c, q, f.statement);
            && ran.conn.session.Some? && SameBut(plain.session, ran.conn.session.value) && ran.raised == plain.raised
  {
    var s := c.session.value;
    var looked := c.(tracker := Look(c.tracker, s));
    LookKeeps(c.tracker, s);
    AppliesNothing(c, active, true, f.write);
    EntersOwn(looked, active, f);
    EnterOwnTransactionKeeps(looked, active, f);
    var entered := EnterOwnTransaction(looked, active, f);
    if !entered.raised {
      FinishesTransparently(entered.conn, s, active, q, f);
    }
  }

  lemma FinishesTransparently(c: Conn, s: Session, active: Option<ContextGucs>, q: Statement, f: Faults)
    requires s.status == Idle && Valid(s) && c.session == Some(Begin(s).(shown := OnSession(active)))
    requires c.autocommit && !c.needsRollback && !IsControl(q) && !IsOpaque(q)
    requires f == NO_FAULTS.(statement := f.statement) && f.statement in {Fine, Rejected}
    ensures var r, plain := FinishOwnTransaction(c, q, f), Send(s, q, f.statement);
            && r.conn.session.Some? && SameBut(plain.session, r.conn.session.value) && r.raised == plain.raised
  {
    var ran := Execute(c, q, f.statement);
    assert ran.raised ==> ran.session == Fail(c.session.value);
    assert !ran.raised ==> Commit(ran.session).status == Idle;
  }

  /** A statement PostgreSQL may refuse in a transaction gets none, in local mode and autocommit: it runs as it
      is, on the session as it is, and raises as it would without the guard. */
  lemma RefusedRunsAsItIs(c: Conn, active: Option<ContextGucs>, q: Statement, f: Faults)
    requires c.session.Some? && c.session.value.status == Idle && c.autocommit && active.Some?
    requires (q.Data? || q.Reset? || q.Compound?) && q.refused
    ensures var plain, r := Execute(c, q, f.statement), GuardStep(c, active, true, q, f);
            r.conn.session == Some(plain.session) && r.raised == plain.raised && r.showed == plain.showed
  {
    AppliesNothing(c, active, true, f.write);
  }

  /** What Django's own end of a transaction keeps: the work, if it committed, or else what there was
      before it. */
  lemma EndKeepsWorkIff(c: Conn, commit: bool, fault: Fault)
    requires c.session.Some? && c.session.value.status in {InTransaction, InError}
    ensures var s, r := c.session.value, TransactionEnd(c, commit, fault);
            && r.conn.session.Some? && r.raised == (fault != Fine)
            && (Done(fault) ==>
                  && r.conn.session.value.status == Idle
                  && r.conn.session.value.work == if commit && s.status == InTransaction then s.work else s.workStart)
            && (fault == NotSent ==> r.conn.session == c.session)
  {
  }

  // ---- Runs ----

  /** The caller's own statements and transactions, none of them interrupted or lost, and anything past the
      cursor; the library only forgets. */
  predicate Ordinary(e: Runs.Event) {
    match e
    case Statement(_, q, f) =>
      !IsOpaque(q) && f == NO_FAULTS.(statement := f.statement) && f.statement in {Fine, Rejected}
    case DjangoEnds(_, fault) => fault == Fine
    case LibraryWrite(_, _, _) => false
    case Apply(_, _) => false
    case _ => true
  }

  /** The same event on a connection without a guard. */
  function Plain(c: Conn, e: Runs.Event): Conn {
    match e
    case Statement(_, q, f) => if c.session.None? then c else c.(session := Some(Execute(c, q, f.statement).session))
    case _ => Runs.Step(c, e, false).conn
  }

  function PlainRun(c: Conn, events: seq<Runs.Event>): Conn
    decreases |events|
  {
    if events == [] then c else Plain(PlainRun(c, events[..|events| - 1]), events[|events| - 1])
  }

  /** The same connection but for its settings, and what is known of them. */
  ghost predicate SameConn(c: Conn, p: Conn) {
    && SameSetup(c, p) && (c.session.Some? <==> p.session.Some?)
    && (c.session.Some? ==> SameBut(c.session.value, p.session.value))
  }

  lemma StatementBut(c: Conn, p: Conn, active: Option<ContextGucs>, localMode: bool, q: Statement, f: Faults)
    requires c.session.Some? && ConnInv(c) && c.guarded && SameConn(c, p)
    requires Ordinary(Runs.Event.Statement(active, q, f))
    ensures SameConn(GuardStep(c, active, localMode, q, f).conn, Plain(p, Runs.Event.Statement(active, q, f)))
    ensures GuardStep(c, active, localMode, q, f).raised == Execute(p, q, f.statement).raised
  {
    SendBut(Opened(c), Opened(p), q, f.statement);
    if !IsControl(q) && NeedsOwnTransaction(c, c.session.value.status, active, localMode, q) {
      OwnIsTransparent(c, active, q, f);
    } else {
      SentAsItIs(c, active, localMode, q, f);
    }
  }

  lemma UnseenBut(s: Session, s': Session, e: Runs.Event)
    requires SameBut(s, s')
    ensures SameBut(Runs.Unseen(s, e), Runs.Unseen(s', e))
  {
    match e
    case UnseenRelease(name) => NewestBut(s.savepoints, s'.savepoints, name);
    case UnseenRollbackTo(name) => NewestBut(s.savepoints, s'.savepoints, name);
    case _ =>
  }

  lemma EndBut(c: Conn, p: Conn, commit: bool)
    requires c.session.Some? && SameConn(c, p)
    ensures SameConn(TransactionEnd(c, commit, Fine).conn, TransactionEnd(p, commit, Fine).conn)
  {
    SendBut(c.session.value, p.session.value,
            if commit then CommitTransaction(false) else RollbackTransaction(false), Fine);
  }

  lemma StepBut(c: Conn, p: Conn, e: Runs.Event, localMode: bool)
    requires ConnInv(c) && c.guarded && SameConn(c, p) && Ordinary(e)
    ensures SameConn(Runs.Step(c, e, localMode).conn, Plain(p, e))
  {
    if c.session.Some? {
      match e
      case Statement(active, q, f) => StatementBut(c, p, active, localMode, q, f);
      case DjangoEnds(commit, _) => EndBut(c, p, commit);
      case Suspect(_) =>
      case SetAutocommit(_) =>
      case MarkForRollback(_) =>
      case ForgetValues =>
      case Close =>
      case Open(_, _, _) =>
      case LibraryWrite(_, _, _) =>
      case Apply(_, _) =>
      case _ => UnseenBut(c.session.value, p.session.value, e);
    }
  }

  lemma LegalInit(c: Conn, events: seq<Runs.Event>, localMode: bool)
    requires Runs.LegalRun(c, events, localMode) && events != []
    ensures Runs.LegalRun(c, events[..|events| - 1], localMode)
  {
    var init := events[..|events| - 1];
    forall n | 0 <= n < |init| ensures Runs.Legal(Runs.Run(c, init[..n], localMode), init[n]) {
      assert init[..n] == events[..n];
    }
  }

  /** Over every run, in either mode and with any interleaving of contexts: the session's transactions,
      savepoints and work are those the same statements would have left without the guard. */
  lemma {:induction false} RunIsTransparent(c: Conn, events: seq<Runs.Event>, localMode: bool)
    requires ConnInv(c) && c.guarded && Runs.LegalRun(c, events, localMode)
    requires forall n :: 0 <= n < |events| ==> Ordinary(events[n])
    ensures SameConn(Runs.Run(c, events, localMode), PlainRun(c, events))
    decreases |events|
  {
    if events != [] {
      var n := |events| - 1;
      LegalInit(c, events, localMode);
      RunIsTransparent(c, events[..n], localMode);
      Runs.RunKeeps(c, events[..n], localMode);
      StepBut(Runs.Run(c, events[..n], localMode), PlainRun(c, events[..n]), events[n], localMode);
    }
  }

  /** So each statement of the run raises exactly where it would without the guard. */
  lemma StatementRaisesAsItWould(c: Conn, events: seq<Runs.Event>, localMode: bool, e: Runs.Event)
    requires ConnInv(c) && c.guarded && Runs.LegalRun(c, events, localMode)
    requires (forall n :: 0 <= n < |events| ==> Ordinary(events[n])) && Ordinary(e) && e.Statement?
    requires Runs.Run(c, events, localMode).session.Some?
    ensures var plain := PlainRun(c, events);
            && plain.session.Some?
            && Runs.Step(Runs.Run(c, events, localMode), e, localMode).raised ==
                Execute(plain, e.q, e.faults.statement).raised
  {
    RunIsTransparent(c, events, localMode);
    Runs.RunKeeps(c, events, localMode);
    StatementBut(Runs.Run(c, events, localMode), PlainRun(c, events), e.active, localMode, e.q, e.faults);
  }
}
