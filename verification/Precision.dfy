/** The record is not only sound: as long as it can follow what happens, it knows everything. */
module Precision {
  import opened Gucs
  import opened Sessions
  import opened Trackers
  import opened TrackerSoundness
  import opened Guard
  import opened GuardSoundness
  import opened Aliases
  import Runs

  const NO_FAULTS := Faults(Fine, Fine, Fine, Fine, Fine)

  // ---- Nothing is forgotten, in session mode ----

  ghost predicate KnownEntries(e: seq<Entry>) {
    forall k :: 0 <= k < |e| ==> e[k].values.Known?
  }

  ghost predicate SameNames(e: seq<Entry>, p: seq<Savepoint>) {
    |e| == |p| && forall k :: 0 <= k < |e| ==> e[k].name == p[k].name
  }

  /** The record knows the session, the start of its transaction, and each of its savepoints. */
  ghost predicate KnowsAll(t: Tracker, s: Session) {
    && t.raw == Some(s.id) && t.values.Known? && !t.wroteLocal
    && (t.inTransaction <==> s.status != Idle)
    && (t.inTransaction ==> t.base.Known?)
    && SameNames(t.savepoints, s.savepoints) && KnownEntries(t.savepoints)
  }

  ghost predicate Complete(c: Conn) {
    && c.session.Some? && c.session.value.status != Bad && c.guarded && ConnInv(c)
    && c.tracker.raw == Some(c.session.value.id) && !c.tracker.wroteLocal
    && KnowsAll(Look(c.tracker, c.session.value), c.session.value)
    && c.tracker.values == Look(c.tracker, c.session.value).values
  }

  lemma {:induction false} SameNewest(e: seq<Entry>, p: seq<Savepoint>, name: string)
    requires SameNames(e, p)
    ensures SavepointIndex(e, name) == NewestSavepoint(p, name)
  {
    if e != [] {
      SameNewest(e[..|e| - 1], p[..|p| - 1], name);
    }
  }

  /** A followed command that PostgreSQL runs, and that does not raise. */
  ghost predicate RunsFollowed(c: Conn, q: Statement, fault: Fault)
    requires c.session.Some?
  {
    && fault == Fine && TakesEffect(c, q, Fine)
    && match q
       case BeginTransaction => true
       case CommitTransaction(_) => true
       case RollbackTransaction(_) => true
       case SetSavepointNamed(_, clear) => clear
       case ReleaseNamed(_, clear) => clear
       case RollbackToNamed(_, clear) => clear
       case _ => false
  }

  /** What the record can follow: those, data statements that may also fail, Django's own ends of
      transactions, and the library's writes. */
  ghost predicate Followable(c: Conn, e: Runs.Event) {
    match e
    case Statement(_, q, f) =>
      c.session.Some? && f.write == Fine &&
      (RunsFollowed(c, q, f.statement) || ((q.Data? || q.SetTransaction?) && f.statement != Lost))
    case DjangoEnds(_, fault) => fault == Fine
    case LibraryWrite(_, isLocal, fault) =>
      !isLocal && fault == Fine && !c.needsRollback && c.session.Some? && c.session.value.status != InError
    case Apply(_, fault) => fault == Fine
    case MarkForRollback(_) => true
    case SetAutocommit(_) => true
    case _ => false
  }

  lemma LookKnowsAll(t: Tracker, s: Session)
    requires KnowsAll(t, s)
    ensures Look(t, s) == t
  {
  }

  lemma WriteKnowsAll(c: Conn, values: Option<ContextGucs>)
    requires Complete(c) && !c.needsRollback && c.session.value.status != InError
    ensures var r := WriteGucs(c, values, false, Fine);
            !r.raised && Complete(r.conn) && r.conn.tracker.values == Known(values)
  {
    WriteGucsKeeps(c, values, false, Fine);
  }

  lemma AppliedKnowsAll(c: Conn, active: Option<ContextGucs>)
    requires Complete(c)
    ensures var r := ApplyIfStale(c, active, false, Fine);
            !r.raised && Complete(r.conn)
  {
    var looked := c.(tracker := Look(c.tracker, c.session.value));
    LookKeeps(c.tracker, c.session.value);
    LookKnowsAll(looked.tracker, c.session.value);
    if !c.needsRollback && c.session.value.status != InError {
      WriteKnowsAll(looked, active);
    }
  }

  /** The record after a command it follows. */
  lemma FollowedKnowsAll(t: Tracker, s: Session, q: Statement, s': Session)
    requires KnowsAll(t, s) && s.status != Bad && Valid(s)
    requires q.BeginTransaction? || ((q.SetSavepointNamed? || q.ReleaseNamed? || q.RollbackToNamed?) && q.clear)
    requires Effect(s, q) == Some(s')
    ensures KnowsAll(Follow(t, q, s.status, s'), s')
  {
    if q.ReleaseNamed? || q.RollbackToNamed? {
      EndedSavepointKnowsAll(t, s, q, s');
    }
  }

  lemma EndedSavepointKnowsAll(t: Tracker, s: Session, q: Statement, s': Session)
    requires KnowsAll(t, s) && s.status != Bad && Valid(s) && (q.ReleaseNamed? || q.RollbackToNamed?) && q.clear
    requires Effect(s, q) == Some(s')
    ensures KnowsAll(Follow(t, q, s.status, s'), s')
  {
    SameNewest(t.savepoints, s.savepoints, q.name);
    assert Look(t, s') == t;
  }

  lemma EndKnowsAll(t: Tracker, s: Session, committed: bool, chain: bool)
    requires KnowsAll(t, s) && s.status != Bad && Valid(s)
    ensures var s' := if chain then Begin(End(s, committed)) else End(s, committed);
            KnowsAll(Look(EndTransaction(t, Some(committed && s.status != InError)), s'), s')
  {
  }

  /** The driver opens a transaction for the statement: the record sees it afterwards. */
  lemma OpenedKnowsAll(t: Tracker, s: Session, q: Statement, s': Session)
    requires KnowsAll(t, s) && s.status == Idle && Valid(s)
    requires q.BeginTransaction? || q.CommitTransaction? || q.RollbackTransaction? || (q.SetSavepointNamed? && q.clear)
    requires Effect(Begin(s), q) == Some(s')
    ensures KnowsAll(Follow(t, q, Idle, s'), s')
  {
  }

  lemma NotedKnowsAll(c: Conn, q: Statement)
    requires Complete(c) && RunsFollowed(c, q, Fine) && c.tracker == Look(c.tracker, c.session.value)
    ensures KnowsAll(Noted(c.tracker, Some(Execute(c, q, Fine).session), false, q, c.session.value.status, false),
                     Execute(c, q, Fine).session)
    ensures !Execute(c, q, Fine).raised
  {
    var s, t, s' := c.session.value, c.tracker, Execute(c, q, Fine).session;
    assert Effect(Opened(c), q) == Some(s');
    if Opened(c) != s {
      OpenedKnowsAll(t, s, q, s');
    } else if q.CommitTransaction? || q.RollbackTransaction? {
      EndKnowsAll(t, s, q.CommitTransaction?, q.chain);
    } else {
      FollowedKnowsAll(t, s, q, s');
    }
    assert !Follow(t, q, s.status, s').wroteLocal;
  }

  lemma ControlKnowsAll(c: Conn, active: Option<ContextGucs>, q: Statement, f: Faults)
    requires Complete(c) && RunsFollowed(c, q, f.statement)
    requires ConnInv(GuardStep(c, active, false, q, f).conn)
    ensures Complete(GuardStep(c, active, false, q, f).conn) && !GuardStep(c, active, false, q, f).raised
  {
    var looked := c.(tracker := Look(c.tracker, c.session.value));
    LookKeeps(c.tracker, c.session.value);
    ControlStep(c, active, false, q, f);
    NotedKnowsAll(looked, q);
    LookKnowsAll(GuardStep(c, active, false, q, f).conn.tracker, Execute(c, q, Fine).session);
  }

  lemma DataKnowsAll(c: Conn, active: Option<ContextGucs>, q: Statement, f: Faults)
    requires Complete(c) && (q.Data? || q.SetTransaction?) && f.write == Fine && f.statement != Lost
    requires ConnInv(GuardStep(c, active, false, q, f).conn)
    ensures Complete(GuardStep(c, active, false, q, f).conn)
  {
    var s := c.session.value;
    LookKnowsAll(Look(c.tracker, s), s);
    AppliedKnowsAll(c, active);
    if q.Data? {
      AppliedIsLookedAt(c, active, false);
      SentKnowsAll(ApplyIfStale(c, active, false, Fine).conn, q, f.statement);
    } else {
      LookKeeps(c.tracker, s);
      SentKnowsAll(c.(tracker := Look(c.tracker, s)), q, f.statement);
    }
  }

  lemma SentKnowsAll(c: Conn, q: Statement, fault: Fault)
    requires Complete(c) && (q.Data? || q.SetTransaction?) && fault != Lost
    requires c.tracker == Look(c.tracker, c.session.value)
    ensures var s' := Execute(c, q, fault).session;
            && s'.id == c.session.value.id && s'.status != Bad && KnowsAll(Look(c.tracker, s'), s')
            && c.tracker.values == Look(c.tracker, s').values
  {
    var s := c.session.value;
    var s' := Execute(c, q, fault).session;
    assert s' in {s, Opened(c), Worked(Opened(c)), Fail(Opened(c))};
  }

  lemma DjangoEndKnowsAll(c: Conn, commit: bool)
    requires Complete(c) && ConnInv(TransactionEnd(c, commit, Fine).conn)
    ensures Complete(TransactionEnd(c, commit, Fine).conn)
  {
    var s := c.session.value;
    var ended := TransactionEnd(c, commit, Fine).conn;
    if s.status != Idle {
      EndKnowsAll(Look(c.tracker, s), s, commit, false);
      UnlookedEnd(c.tracker, s, commit);
    }
  }

  /** Whether or not the record has looked since the transaction began. */
  lemma UnlookedEnd(t: Tracker, s: Session, commit: bool)
    requires s.status in {InTransaction, InError} && t.raw == Some(s.id) && !t.wroteLocal && Valid(s)
    requires KnowsAll(Look(t, s), s)
    ensures var t' := FollowEnd(t, s.status, Idle, Some(commit));
            && KnowsAll(Look(t', End(s, commit)), End(s, commit)) && t'.raw == t.raw && !t'.wroteLocal
            && t'.values == Look(t', End(s, commit)).values
  {
  }

  lemma StepKnowsAll(c: Conn, e: Runs.Event)
    requires Complete(c) && Followable(c, e) && ConnInv(Runs.Step(c, e, false).conn)
    ensures Complete(Runs.Step(c, e, false).conn)
  {
    match e
    case Statement(active, q, f) =>
      if q.Data? || q.SetTransaction? {
        DataKnowsAll(c, active, q, f);
      } else {
        ControlKnowsAll(c, active, q, f);
      }
    case DjangoEnds(commit, _) => DjangoEndKnowsAll(c, commit);
    case LibraryWrite(values, _, _) => WriteKnowsAll(c, values);
    case Apply(active, _) => AppliedKnowsAll(c, active);
    case _ =>
  }

  ghost predicate FollowableRun(c: Conn, events: seq<Runs.Event>)
    decreases |events|
  {
    events == [] ||
    (FollowableRun(c, events[..|events| - 1]) &&
     Followable(Runs.Run(c, events[..|events| - 1], false), events[|events| - 1]))
  }

  /** Nothing is forgotten: in session mode, after every run of statements the guard can follow, the record
      holds exactly the values the session shows, and as much of the start of its transaction and of each
      of its savepoints. */
  lemma {:induction false} RecordIsExact(c: Conn, events: seq<Runs.Event>)
    requires Complete(c) && Runs.LegalRun(c, events, false) && FollowableRun(c, events)
    ensures var c' := Runs.Run(c, events, false);
            && Complete(c')
            && (c'.session.value.status in {Idle, InTransaction} ==>
                  OnSession(Look(c'.tracker, c'.session.value).values.gucs) == c'.session.value.shown)
    decreases |events|
  {
    Runs.RunKeeps(c, events, false);
    if events != [] {
      var n := |events| - 1;
      var init := events[..n];
      forall k | 0 <= k < |init| ensures Runs.Legal(Runs.Run(c, init[..k], false), init[k]) {
        assert init[..k] == events[..k];
      }
      RecordIsExact(c, init);
      StepKnowsAll(Runs.Run(c, init, false), events[n]);
    }
  }

  lemma SettledOrNone(c: Conn, outer: Option<ContextGucs>)
    requires Complete(c) && Healthy(c)
    ensures var r := SettleOne(c, false, false, outer, false, Fine);
            && !r.interrupted && r.conn.session.Some?
            && (if c.tracker.values.gucs.Some? then Holds(r.conn, outer)
                else r.conn == c && c.session.value.shown == CLEARED)
  {
    if c.tracker.values.gucs.Some? {
      AppliedIsKnown(c, outer, false);
    }
  }

  /** So the exit of an enclosing block takes every context off an alias, whatever was run there: it holds
      the context around the block, or none. */
  lemma ExitLeavesNoOtherContext(c: Conn, events: seq<Runs.Event>, outer: Option<ContextGucs>)
    requires Complete(c) && Runs.LegalRun(c, events, false) && FollowableRun(c, events)
    requires Healthy(Runs.Run(c, events, false))
    ensures var r := SettleOne(Runs.Run(c, events, false), false, false, outer, false, Fine);
            && !r.interrupted && r.conn.session.Some?
            && r.conn.session.value.shown in {OnSession(outer), CLEARED}
  {
    RecordIsExact(c, events);
    SettledOrNone(Runs.Run(c, events, false), outer);
  }

  // ---- Properly nested savepoints keep a context, in both modes ----

  /** A transaction is open, holds `active`, and the record knows so, now and at each savepoint from the
      `from`th on. */
  ghost predicate HeldIn(c: Conn, active: Option<ContextGucs>, from: nat) {
    && Healthy(c) && c.session.value.status == InTransaction && c.tracker == Look(c.tracker, c.session.value)
    && c.tracker.values == Known(active)
    && forall k :: from <= k < |c.tracker.savepoints| ==> c.tracker.savepoints[k].values == Known(active)
  }

  /** A savepoint, the end of one set since, or a data statement under `active`. */
  ghost predicate NestedIn(c: Conn, active: Option<ContextGucs>, from: nat, q: Statement)
    requires c.session.Some?
  {
    match q
    case Data(_) => true
    case SetSavepointNamed(_, clear) => clear
    case ReleaseNamed(name, clear) => clear && TakesEffect(c, q, Fine) && EndsInside(c, from, name)
    case RollbackToNamed(name, clear) => clear && TakesEffect(c, q, Fine) && EndsInside(c, from, name)
    case _ => false
  }

  ghost predicate EndsInside(c: Conn, from: nat, name: string) {
    var j := SavepointIndex(c.tracker.savepoints, name);
    j.Some? && from <= j.value
  }

  /** `RELEASE` of a tracked savepoint forgets nothing. */
  lemma ReleaseKeepsKnown(c: Conn, active: Option<ContextGucs>, other: Option<ContextGucs>, name: string,
                          localMode: bool)
    requires Healthy(c) && Holds(c, active) && TakesEffect(c, ReleaseNamed(name, true), Fine)
    requires SavepointIndex(Look(c.tracker, c.session.value).savepoints, name).Some?
    ensures var ran := GuardStep(c, other, localMode, ReleaseNamed(name, true), NO_FAULTS);
            && !ran.raised && Healthy(ran.conn) && Holds(ran.conn, active)
            && ran.conn.tracker.changed == Look(c.tracker, c.session.value).changed
  {
    var q, t, s' :=
        ReleaseNamed(name, true), Look(c.tracker, c.session.value), Execute(c, ReleaseNamed(name, true), Fine).session;
    EndedSavepoint(c, q, Fine);
    assert TrackerSoundness.Follows(t.savepoints, name);
    GuardKeeps(c, other, localMode, q, NO_FAULTS);
    ControlStep(c, other, localMode, q, NO_FAULTS);
    assert Look(t, s') == t;
  }

  /** `ROLLBACK TO` a tracked savepoint: the record knows again what it knew when that was set. */
  lemma RollbackKnowsAgain(c: Conn, active: Option<ContextGucs>, name: string, localMode: bool)
    requires Healthy(c) && TakesEffect(c, RollbackToNamed(name, true), Fine)
    requires SavepointIndex(Look(c.tracker, c.session.value).savepoints, name).Some?
    ensures var ran := GuardStep(c, active, localMode, RollbackToNamed(name, true), NO_FAULTS);
            var e := Look(c.tracker, c.session.value).savepoints;
            && !ran.raised && Healthy(ran.conn)
            && ran.conn.tracker.values == e[SavepointIndex(e, name).value].values
            && ran.conn.tracker.changed == Look(c.tracker, c.session.value).changed
  {
    var q, t, s' :=
        RollbackToNamed(name, true), Look(c.tracker, c.session.value), Execute(c, RollbackToNamed(name, true),
                                                                               Fine).session;
    EndedSavepoint(c, q, Fine);
    assert TrackerSoundness.Follows(t.savepoints, name);
    GuardKeeps(c, active, localMode, q, NO_FAULTS);
    ControlStep(c, active, localMode, q, NO_FAULTS);
    assert Look(t, s') == t;
  }

  lemma DataInside(c: Conn, active: Option<ContextGucs>, from: nat, q: Statement, localMode: bool)
    requires HeldIn(c, active, from) && q.Data?
    ensures var ran := GuardStep(c, active, localMode, q, NO_FAULTS);
            !ran.raised && ran.showed == Some(OnSession(active)) && HeldIn(ran.conn, active, from)
  {
    var s := Worked(c.session.value);
    GuardKeeps(c, active, localMode, q, NO_FAULTS);
    assert Prepare(c, active, localMode, q, Fine) == Ran(c, false, None);
    assert Look(c.tracker, s) == c.tracker;
    var t := if c.tracker.wroteLocal then SuspectSession(c.tracker, true) else c.tracker;
    assert GuardStep(c, active, localMode, q, NO_FAULTS).conn == c.(session := Some(s), tracker := t);
  }

  lemma SavepointInside(c: Conn, active: Option<ContextGucs>, from: nat, q: Statement, localMode: bool)
    requires HeldIn(c, active, from) && NestedIn(c, active, from, q) && !q.Data?
    ensures var ran := GuardStep(c, active, localMode, q, NO_FAULTS);
            !ran.raised && HeldIn(ran.conn, active, from)
  {
    var s, t := c.session.value, c.tracker;
    var s' := Execute(c, q, Fine).session;
    if !q.SetSavepointNamed? {
      EndedSavepoint(c, q, Fine);
      assert TrackerSoundness.Follows(t.savepoints, q.name);
    }
    GuardKeeps(c, active, localMode, q, NO_FAULTS);
    ControlStep(c, active, localMode, q, NO_FAULTS);
    assert Look(t, s') == t;
    FollowsInside(t, active, from, q, s.status, s');
  }

  lemma FollowsInside(t: Tracker, active: Option<ContextGucs>, from: nat, q: Statement, before: Status, s: Session)
    requires t == Look(t, s) && s.status == InTransaction && t.values == Known(active)
    requires forall k :: from <= k < |t.savepoints| ==> t.savepoints[k].values == Known(active)
    requires (q.SetSavepointNamed? && q.clear) ||
             ((q.ReleaseNamed? || q.RollbackToNamed?) && q.clear && SavepointIndex(t.savepoints, q.name).Some?
              && from <= SavepointIndex(t.savepoints, q.name).value)
    ensures var t' := Noted(t, Some(s), false, q, before, false);
            && t' == Look(t', s) && t'.values == Known(active)
            && forall k :: from <= k < |t'.savepoints| ==> t'.savepoints[k].values == Known(active)
  {
  }

  /** The statements of a task, one after the other, without a failure. */
  function Inside(c: Conn, active: Option<ContextGucs>, localMode: bool, statements: seq<Statement>): Conn
    decreases |statements|
  {
    if statements == [] || c.session.None? then c
    else Inside(GuardStep(c, active, localMode, statements[0], NO_FAULTS).conn, active, localMode, statements[1..])
  }

  /** Each savepoint that is ended was set among them. */
  ghost predicate ProperlyNested(c: Conn, active: Option<ContextGucs>, from: nat, localMode: bool,
                                 statements: seq<Statement>)
    decreases |statements|
  {
    statements == [] ||
    (&& c.session.Some? && NestedIn(c, active, from, statements[0])
     && ProperlyNested(GuardStep(c, active, localMode, statements[0], NO_FAULTS).conn, active, from, localMode,
                       statements[1..]))
  }

  /** However savepoints are set, released and gone back to, properly nested, with data statements between
      them: in both modes the transaction holds the context, and the record knows it. */
  lemma {:induction false} NestedSavepointsKeepTheContext(c: Conn, active: Option<ContextGucs>, from: nat,
                                                          localMode: bool, statements: seq<Statement>)
    requires HeldIn(c, active, from) && ProperlyNested(c, active, from, localMode, statements)
    ensures HeldIn(Inside(c, active, localMode, statements), active, from)
    ensures Holds(Inside(c, active, localMode, statements), active)
    decreases |statements|
  {
    if statements == [] {
      assert Sound(c.tracker.values, c.session.value.shown);
    } else {
      if statements[0].Data? {
        DataInside(c, active, from, statements[0], localMode);
      } else {
        SavepointInside(c, active, from, statements[0], localMode);
      }
      NestedSavepointsKeepTheContext(GuardStep(c, active, localMode, statements[0], NO_FAULTS).conn, active, from,
                                     localMode, statements[1..]);
    }
  }

  /** So the exit of the block takes it off, in both modes: in local mode of every alias with an open
      transaction, the block having written on none. */
  lemma ExitAfterNestingTakesItOff(c: Conn, active: Option<ContextGucs>, from: nat, localMode: bool,
                                   statements: seq<Statement>, outer: Option<ContextGucs>)
    requires HeldIn(c, active, from) && ProperlyNested(c, active, from, localMode, statements) && active.Some?
    ensures var r := SettleOne(Inside(c, active, localMode, statements), localMode, false, outer, localMode, Fine);
            !r.interrupted && Holds(r.conn, outer) && Healthy(r.conn)
  {
    NestedSavepointsKeepTheContext(c, active, from, localMode, statements);
    AppliedIsKnown(Inside(c, active, localMode, statements), outer, localMode);
  }

  /** A data statement that goes through starts it: in a transaction, in both modes. */
  lemma DataHolds(c: Conn, active: Option<ContextGucs>, refused: bool, localMode: bool)
    requires Healthy(c) && c.session.value.status == InTransaction
    ensures var ran := GuardStep(c, active, localMode, Data(refused), NO_FAULTS);
            && !ran.raised && ran.showed == Some(OnSession(active)) && Healthy(ran.conn)
            && HeldIn(ran.conn, active, |ran.conn.tracker.savepoints|)
  {
    AppliedIsKnown(c, active, localMode);
    var p := ApplyIfStale(c, active, localMode, Fine).conn;
    GuardKeeps(c, active, localMode, Data(refused), NO_FAULTS);
    WrittenStaysOpen(c, active, localMode);
    assert HeldIn(p, active, |p.tracker.savepoints|);
    DataInside(p, active, |p.tracker.savepoints|, Data(refused), localMode);
    assert GuardStep(c, active, localMode, Data(refused), NO_FAULTS) ==
             GuardStep(p, active, localMode, Data(refused), NO_FAULTS);
  }

  lemma WrittenStaysOpen(c: Conn, active: Option<ContextGucs>, localMode: bool)
    requires Healthy(c) && c.session.value.status == InTransaction
    ensures ApplyIfStale(c, active, localMode, Fine).conn.session.value.status == InTransaction
  {
  }

  // ---- What goes unseen, and changes nothing ----

  /** A transaction starts with nothing changed, and with what was known before it, which a statement under
      the same context leaves so. */
  lemma BegunKnowsTheStart(c: Conn, active: Option<ContextGucs>, q: Statement, localMode: bool)
    requires Healthy(c) && c.session.value.status == Idle && q in {BeginTransaction, Data(false)}
    requires c.tracker == Look(c.tracker, c.session.value) && c.tracker.values == Known(active)
    requires q.Data? ==> !c.autocommit
    ensures var ran := GuardStep(c, active, localMode, q, NO_FAULTS);
            && !ran.raised && ran.conn.session.Some? && ran.conn.session.value.status == InTransaction
            && var t := Look(ran.conn.tracker, ran.conn.session.value);
            && t.values == t.base == Known(active) && !t.changed && !t.wroteLocal && !t.wroteSession
            && t.savepoints == []
  {
    if q.BeginTransaction? {
      ControlStep(c, active, localMode, q, NO_FAULTS);
    } else {
      assert Prepare(c, active, localMode, q, Fine).conn == c.(tracker := Look(c.tracker, c.session.value));
    }
  }

  /** A savepoint set past the cursor and gone back to through it: what was known before anything was
      written in the transaction is known still. */
  lemma UnchangedIsKept(c: Conn, active: Option<ContextGucs>, name: string, rolledBack: bool, localMode: bool)
    requires Healthy(c) && c.session.value.status == InTransaction && !Look(c.tracker, c.session.value).changed
    requires SavepointIndex(Look(c.tracker, c.session.value).savepoints, name).None?
    requires var q := if rolledBack then RollbackToNamed(name, true) else ReleaseNamed(name, true);
             TakesEffect(c, q, Fine)
    ensures var q := if rolledBack then RollbackToNamed(name, true) else ReleaseNamed(name, true);
            var ran := GuardStep(c, active, localMode, q, NO_FAULTS);
            !ran.raised && ran.conn.tracker.values == Look(c.tracker, c.session.value).values
  {
    var q := if rolledBack then RollbackToNamed(name, true) else ReleaseNamed(name, true);
    var t, s' := Look(c.tracker, c.session.value), Execute(c, q, Fine).session;
    EndedSavepoint(c, q, Fine);
    ControlStep(c, active, localMode, q, NO_FAULTS);
    assert Look(t, s') == t;
  }

  /** Writing again what is known changes nothing: no savepoint and no end of a transaction forgets more
      for it. */
  lemma WrittenAgainIsUnchanged(c: Conn, active: Option<ContextGucs>, isLocal: bool)
    requires Healthy(c) && c.session.value.status == InTransaction && Holds(c, active)
    requires c.tracker == Look(c.tracker, c.session.value)
    ensures var r := WriteGucs(c, active, isLocal, Fine);
            && !r.raised && Healthy(r.conn) && Holds(r.conn, active)
            && r.conn.tracker.changed == c.tracker.changed && r.conn.tracker.base == c.tracker.base
            && r.conn.tracker.savepoints == c.tracker.savepoints
  {
    WriteGucsKeeps(c, active, isLocal, Fine);
  }

  /** An end by Django that took the work back, refused commits and interrupted rollbacks included: the
      record knows what it knew when the transaction began. */
  lemma EndWithoutCommitKnowsTheStart(c: Conn, commit: bool, fault: Fault)
    requires c.session.Some? && c.session.value.status in {InTransaction, InError}
    requires c.tracker == Look(c.tracker, c.session.value)
    requires commit && fault in {Fine, Interrupted} ==> c.session.value.status == InError
    ensures var ran := TransactionEnd(c, commit, fault).conn;
            && ran.session.Some?
            && (ran.session.value.status == Idle ==> ran.tracker.values == c.tracker.base)
  {
  }

  /** An end of the transaction past the cursor: as long as nothing was written for the session, or nothing
      new, the record knows what it knew at the start. */
  lemma UnseenEndKeepsKnown(c: Conn, committed: bool)
    requires Healthy(c) && c.session.value.status == InTransaction
    requires c.tracker == Look(c.tracker, c.session.value)
    requires !c.tracker.wroteSession || (!c.tracker.wroteLocal && c.tracker.values == c.tracker.base)
    ensures var s' := End(c.session.value, committed);
            Look(c.tracker, s').values == c.tracker.base && !Look(c.tracker, s').inTransaction
  {
  }
}
