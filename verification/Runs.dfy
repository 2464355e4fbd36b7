/** Whole runs of one guarded connection: any interleaving of tasks, library writes, Django's own
    commits, and what happens past Django's cursor. */
module Runs {
  import opened Gucs
  import opened Sessions
  import opened Trackers
  import opened TrackerSoundness
  import opened Guard
  import opened GuardSoundness

  /** `active` is the context of the task that runs the statement at that moment. */
  datatype Event =
    | Statement(active: Option<ContextGucs>, q: Statement, faults: Faults)
    | LibraryWrite(values: Option<ContextGucs>, isLocal: bool, fault: Fault)
    | Apply(active: Option<ContextGucs>, fault: Fault)
    | Suspect(underLocalValues: bool)
    | ForgetValues
    | DjangoEnds(commit: bool, fault: Fault)
    | SetAutocommit(on: bool)
    | MarkForRollback(on: bool)
    | Close
    | Open(id: nat, held: ContextGucs, known: Tracked)
    | UnseenBegin
    | UnseenEnd(committed: bool)
    | UnseenError
    | UnseenSavepoint(name: string)
    | UnseenRelease(name: string)
    | UnseenRollbackTo(name: string)

  /** `install`, for a connection that has just opened its session. */
  function Install(t: Tracker, id: nat, values: Tracked): Tracker {
    if values == Unknown || t.raw != Some(id) then Attach(t, id, values) else t
  }

  function NewSession(id: nat, held: ContextGucs): Session {
    Session(id, Idle, held, held, held, [], 0, 0)
  }

  /** What happens past Django's cursor: the tracker is not told. */
  function Unseen(s: Session, e: Event): Session {
    match e
    case UnseenBegin => Begin(s)
    case UnseenEnd(committed) => End(s, committed)
    case UnseenError => Fail(s)
    case UnseenSavepoint(name) => if s.status == InTransaction then SetSavepoint(s, name) else s
    case UnseenRelease(name) =>
      var i := NewestSavepoint(s.savepoints, name);
      if s.status == InTransaction && i.Some? then ReleaseSavepoint(s, i.value) else Fail(s)
    case UnseenRollbackTo(name) =>
      var i := NewestSavepoint(s.savepoints, name);
      if s.status in {InTransaction, InError} && i.Some? then RollbackToSavepoint(s, i.value) else Fail(s)
    case _ => s
  }

  function Step(c: Conn, e: Event, localMode: bool): Ran {
    match e
    case SetAutocommit(on) => Ran(c.(autocommit := on), false, None)
    case MarkForRollback(on) => Ran(c.(needsRollback := on), false, None)
    case ForgetValues => Ran(c.(tracker := Forget(c.tracker)), false, None)
    case Close => Ran(c.(session := None), false, None)
    case Open(id, held, values) =>
      Ran(c.(session := Some(NewSession(id, held)), tracker := Install(c.tracker, id, values)), false, None)
    case _ =>
      if c.session.None? then Ran(c, true, None)
      else OpenStep(c, e, localMode)
  }

  function OpenStep(c: Conn, e: Event, localMode: bool): Ran
    requires c.session.Some?
  {
    match e
    case Statement(active, q, f) => GuardStep(c, active, localMode, q, f)
    case LibraryWrite(values, isLocal, fault) => WriteGucs(c, values, isLocal, fault)
    case Apply(active, fault) => ApplyIfStale(c, active, localMode, fault)
    case Suspect(underLocalValues) =>
      Ran(c.(tracker := SuspectSession(Look(c.tracker, c.session.value), underLocalValues)), false, None)
    case DjangoEnds(commit, fault) => TransactionEnd(c, commit, fault)
    case _ => Ran(c.(session := Some(Unseen(c.session.value, e))), false, None)
  }

  /** The connection after the first events of a run. */
  function Run(c: Conn, events: seq<Event>, localMode: bool): Conn
    decreases |events|
  {
    if events == [] then c
    else Step(Run(c, events[..|events| - 1], localMode), events[|events| - 1], localMode).conn
  }

  /** The limits the guard works within, event by event. */
  ghost predicate Legal(c: Conn, e: Event) {
    match e
    case Open(id, held, values) => (values == Unknown || c.tracker.raw != Some(id)) && Sound(values, held)
    case _ => c.session.Some? ==> LegalOpen(c, e)
  }

  ghost predicate LegalOpen(c: Conn, e: Event)
    requires c.session.Some?
  {
    var s := c.session.value;
    match e
    case Statement(_, q, f) => StepAllowed(c, q, f)
    // A transaction ended past the cursor is looked at while idle before another one is opened there.
    case UnseenBegin => s.status == Idle && c.tracker.raw == Some(s.id) ==> !c.tracker.inTransaction
    case UnseenSavepoint(name) => NotTracked(c, name)
    case UnseenRelease(name) => MayEndSavepoint(c, name, false, false)
    case UnseenRollbackTo(name) =>
      MayEndSavepoint(c, name, false, true) &&
      (NewestSavepoint(s.savepoints, name).Some? ==> UnchangedOrUnknown(Look(c.tracker, s)))
    case _ => true
  }

  ghost predicate LegalRun(c: Conn, events: seq<Event>, localMode: bool) {
    forall n :: 0 <= n < |events| ==> Legal(Run(c, events[..n], localMode), events[n])
  }

  // ---- Soundness over every run ----

  /** The outcome the wrapped commit or rollback reports agrees with what it did. */
  lemma FollowEndKeeps(t: Tracker, s: Session, commit: bool, fault: Fault)
    requires Inv(t, s) && s.status in {InTransaction, InError} && t.raw == Some(s.id)
    ensures var s' := EndedByDriver(s, commit, fault);
            Inv(FollowEnd(t, s.status, s'.status, ReportedOutcome(commit, fault)), s')
  {
    if fault == NotSent {
    } else if fault == Lost {
      BadKeeps(Forget(t), s);
    } else if fault == Rejected && !commit {
      FailKeeps(t, s);
      ForgetKeeps(t, Fail(s));
    } else {
      EndKept(t, s, commit && fault != Rejected);
    }
  }

  function EndedByDriver(s: Session, commit: bool, fault: Fault): Session {
    match fault
    case NotSent => s
    case Lost => s.(status := Bad)
    case Rejected => if commit then Rollback(s) else Fail(s)
    case _ => End(s, commit)
  }

  function ReportedOutcome(commit: bool, fault: Fault): Option<bool> {
    if fault == Fine then Some(commit)
    else if fault in {NotSent, Interrupted} && commit then None
    else Some(false)
  }

  lemma TransactionEndIs(c: Conn, commit: bool, fault: Fault)
    requires c.session.Some? && c.session.value.status in {InTransaction, InError}
    ensures var t, s := c.tracker, c.session.value;
            var s' := EndedByDriver(s, commit, fault);
            TransactionEnd(c, commit, fault).conn ==
              c.(session := Some(s'),
                 tracker := if t.raw ==
                     Some(s.id) then FollowEnd(t, s.status, s'.status, ReportedOutcome(commit, fault))
                            else t)
  {
  }

  lemma TransactionEndKeeps(c: Conn, commit: bool, fault: Fault)
    requires c.session.Some? && ConnInv(c)
    ensures ConnInv(TransactionEnd(c, commit, fault).conn)
  {
    var t, s := c.tracker, c.session.value;
    if s.status in {InTransaction, InError} {
      TransactionEndIs(c, commit, fault);
      if t.raw == Some(s.id) {
        FollowEndKeeps(t, s, commit, fault);
      } else {
        EndKept(t, s, true);
        EndKept(t, s, false);
        FailKeeps(t, s);
        BadKeeps(t, s);
      }
    }
  }

  lemma EndKept(t: Tracker, s: Session, committed: bool)
    requires Inv(t, s) && s.status in {InTransaction, InError}
    ensures Inv(t, End(s, committed)) && Inv(EndTransaction(t, None), End(s, committed))
    ensures t.raw == Some(s.id) ==> Inv(EndTransaction(t, Some(committed && s.status != InError)), End(s, committed))
  {
    UnseenEndKeeps(t, s, committed);
    if t.raw == Some(s.id) {
      EndKeeps(t, s, committed);
    }
  }

  lemma UnseenKeeps(c: Conn, e: Event)
    requires c.session.Some? && ConnInv(c) && LegalOpen(c, e)
    ensures Inv(c.tracker, Unseen(c.session.value, e))
  {
    var t, s := c.tracker, c.session.value;
    FailKeeps(t, s);
    match e
    case UnseenEnd(committed) => if s.status in {InTransaction, InError} { UnseenEndKeeps(t, s, committed); }
    case UnseenSavepoint(name) => if s.status == InTransaction { UnseenSavepointKeeps(t, s, name); }
    case UnseenRelease(name) =>
      var i := NewestSavepoint(s.savepoints, name);
      if s.status == InTransaction && i.Some? { UnseenReleaseKeeps(t, s, i.value); }
    case UnseenRollbackTo(name) =>
      var i := NewestSavepoint(s.savepoints, name);
      if s.status in {InTransaction, InError} && i.Some? { UnseenRollbackToKeeps(t, s, i.value); }
    case _ =>
  }

  lemma OpenStepKeeps(c: Conn, e: Event, localMode: bool)
    requires c.session.Some? && ConnInv(c) && LegalOpen(c, e)
    ensures ConnInv(OpenStep(c, e, localMode).conn)
  {
    match e
    case Statement(active, q, f) => GuardKeeps(c, active, localMode, q, f);
    case LibraryWrite(values, isLocal, fault) => WriteGucsKeeps(c, values, isLocal, fault);
    case Apply(active, fault) => ApplyIfStaleKeeps(c, active, localMode, fault);
    case Suspect(under) =>
      LookKeeps(c.tracker, c.session.value);
      SuspectKeeps(Look(c.tracker, c.session.value), c.session.value, under);
    case DjangoEnds(commit, fault) => TransactionEndKeeps(c, commit, fault);
    case _ => UnseenKeeps(c, e);
  }

  lemma StepKeeps(c: Conn, e: Event, localMode: bool)
    requires ConnInv(c) && Legal(c, e)
    ensures ConnInv(Step(c, e, localMode).conn)
  {
    if c.session.Some? {
      match e
      case ForgetValues => ForgetKeeps(c.tracker, c.session.value);
      case Open(_, _, _) =>
      case SetAutocommit(_) =>
      case MarkForRollback(_) =>
      case Close =>
      case _ => OpenStepKeeps(c, e, localMode);
    }
  }

  lemma StepKeepsGuarded(c: Conn, e: Event, localMode: bool)
    ensures Step(c, e, localMode).conn.guarded == c.guarded
  {
  }

  lemma {:induction false} RunKeeps(c: Conn, events: seq<Event>, localMode: bool)
    requires ConnInv(c) && LegalRun(c, events, localMode)
    ensures ConnInv(Run(c, events, localMode)) && Run(c, events, localMode).guarded == c.guarded
    decreases |events|
  {
    if events != [] {
      var n := |events| - 1;
      var init := events[..n];
      forall k | 0 <= k < n
        ensures Legal(Run(c, init[..k], localMode), init[k])
      {
        assert init[..k] == events[..k];
      }
      RunKeeps(c, init, localMode);
      StepKeeps(Run(c, init, localMode), events[n], localMode);
      StepKeepsGuarded(Run(c, init, localMode), events[n], localMode);
    }
  }

  /** Tracker soundness: after any run, once the guard has looked, it knows nothing or the truth. */
  lemma TrackerSoundOverEveryRun(c: Conn, events: seq<Event>, localMode: bool)
    requires ConnInv(c) && LegalRun(c, events, localMode)
    ensures var c' := Run(c, events, localMode);
            c'.session.Some? && c'.session.value.status in {Idle, InTransaction} ==>
              Sound(Look(c'.tracker, c'.session.value).values, c'.session.value.shown)
  {
    RunKeeps(c, events, localMode);
  }

  /** The guard theorem over runs: whichever task runs a data statement, and whatever ran before it,
      the statement sees exactly that task's active context. */
  lemma EveryStatementSeesItsContext(c: Conn, events: seq<Event>, localMode: bool, n: nat)
    requires ConnInv(c) && c.guarded && LegalRun(c, events, localMode)
    requires n < |events| && events[n].Statement? && !IsControl(events[n].q)
    requires var before := Run(c, events[..n], localMode);
             before.session.Some? ==> !RunsAsItIs(before, events[n].active, localMode, events[n].q)
    ensures var ran := Step(Run(c, events[..n], localMode), events[n], localMode);
            ran.showed.Some? ==> ran.showed.value == OnSession(events[n].active)
  {
    var init := events[..n];
    forall k | 0 <= k < n
      ensures Legal(Run(c, init[..k], localMode), init[k])
    {
      assert init[..k] == events[..k];
    }
    RunKeeps(c, init, localMode);
    var before := Run(c, init, localMode);
    if before.session.Some? {
      GuardShowsActiveContext(before, events[n].active, localMode, events[n].q, events[n].faults);
    }
  }
}
