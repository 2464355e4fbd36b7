/** What the guard does not cover: runs that break one of its limits, step by step. */
module Limits {
  import opened Gucs
  import opened Sessions
  import opened Trackers
  import opened TrackerSoundness
  import opened Guard
  import opened GuardSoundness
  import opened Runs

  const FIRST := ForTenant("1")
  const SECOND := ForTenant("2")
  const NO_FAULTS := Faults(Fine, Fine, Fine, Fine, Fine)

  function Does(active: ContextGucs, q: Statement): Event {
    Event.Statement(Some(active), q, NO_FAULTS)
  }

  /** A savepoint `s` in each of two contexts, with an unseen savepoint `u` between them; then,
      through the guard, back to `u`, back to `s`, and a data statement. */
  const EVENTS: seq<Event> := [
    Does(FIRST, BeginTransaction),
    Does(FIRST, Data(false)),
    Does(FIRST, SetSavepointNamed("s", true)),
    Does(SECOND, Data(false)),
    UnseenSavepoint("u"),
    Does(SECOND, SetSavepointNamed("s", true)),
    Does(SECOND, RollbackToNamed("u", true)),
    Does(SECOND, RollbackToNamed("s", true)),
    Does(SECOND, Data(false))]

  const FRESH := Conn(Some(NewSession(0, CLEARED)), Attach(NEW_TRACKER, 0, Known(None)), true, false, true)

  /** The open transaction of `FRESH`, and a tracker that has written for the session in it. */
  function At(shown: ContextGucs, p: seq<Savepoint>, values: Tracked, e: seq<Entry>, work: nat): Conn {
    FRESH.(
      session := Some(Session(0, InTransaction, shown, shown, CLEARED, p, work, 0)),
      tracker := Tracker(Some(0), values, true, Known(None), true, false, true, e))
  }

  const S1 := Savepoint("s", FIRST, FIRST, 1)
  const U := Savepoint("u", SECOND, SECOND, 2)
  const S2 := Savepoint("s", SECOND, SECOND, 2)
  const E1 := Entry("s", Known(Some(FIRST)))
  const E2 := Entry("s", Known(Some(SECOND)))

  /** The connection before each event. */
  const STATES: seq<Conn> := [
    FRESH,
    At(CLEARED, [], Known(None), [], 0).(
      tracker := Tracker(Some(0), Known(None), true, Known(None), false, false, false, [])),
    At(FIRST, [], Known(Some(FIRST)), [], 1),
    At(FIRST, [S1], Known(Some(FIRST)), [E1], 1),
    At(SECOND, [S1], Known(Some(SECOND)), [E1], 2),
    At(SECOND, [S1, U], Known(Some(SECOND)), [E1], 2),
    At(SECOND, [S1, U, S2], Known(Some(SECOND)), [E1, E2], 2),
    At(SECOND, [S1, U], Unknown, [E1, E2], 2),
    At(FIRST, [S1], Known(Some(SECOND)), [E1, E2], 1)]

  lemma Starts()
    ensures Step(STATES[0], EVENTS[0], false).conn == STATES[1] && Legal(STATES[0], EVENTS[0])
  {
  }

  lemma FirstWrites()
    ensures Step(STATES[1], EVENTS[1], false).conn == STATES[2] && Legal(STATES[1], EVENTS[1])
  {
  }

  lemma FirstSavepoint()
    ensures Step(STATES[2], EVENTS[2], false).conn == STATES[3] && Legal(STATES[2], EVENTS[2])
  {
    assert [] + [S1] == [S1] && [] + [E1] == [E1];
  }

  lemma SecondWrites()
    ensures Step(STATES[3], EVENTS[3], false).conn == STATES[4] && Legal(STATES[3], EVENTS[3])
  {
  }

  lemma UnseenOne()
    ensures Step(STATES[4], EVENTS[4], false).conn == STATES[5] && Legal(STATES[4], EVENTS[4])
  {
    assert [S1] + [U] == [S1, U];
    assert Look(STATES[4].tracker, STATES[4].session.value).savepoints == [E1];
  }

  lemma SecondSavepoint()
    ensures Step(STATES[5], EVENTS[5], false).conn == STATES[6] && Legal(STATES[5], EVENTS[5])
  {
    assert [S1, U] + [S2] == [S1, U, S2] && [E1] + [E2] == [E1, E2];
  }

  lemma BackToUnseen()
    ensures Step(STATES[6], EVENTS[6], false).conn == STATES[7] && !Legal(STATES[6], EVENTS[6])
  {
    var c, p, e := STATES[6], [S1, U, S2], [E1, E2];
    assert NewestSavepoint(p, "u") == Some(1) && p[..2] == [S1, U];
    assert SavepointIndex(e, "u") == None && !Follows(e, "u");
    assert p[0].name == p[2].name == e[0].name && Follows(e, "s");
    assert Look(c.tracker, c.session.value).savepoints == e;
    assert !MayDrop(e, c.session.value, 1, true);
  }

  lemma BackToFirst()
    ensures Step(STATES[7], EVENTS[7], false).conn == STATES[8] && Legal(STATES[7], EVENTS[7])
  {
    var p, e := [S1, U], [E1, E2];
    assert NewestSavepoint(p, "s") == Some(0) && p[..1] == [S1];
    assert SavepointIndex(e, "s") == Some(1) && e[..2] == e && Follows(e, "s");
  }

  lemma WrongTenant()
    ensures Legal(STATES[8], EVENTS[8])
    ensures Step(STATES[8], EVENTS[8], false).showed == Some(FIRST)
  {
  }

  /** The run of one event more. */
  lemma OneMore(c: Conn, events: seq<Event>, k: nat)
    requires k < |events|
    ensures Run(c, events[..k + 1], false) == Step(Run(c, events[..k], false), events[k], false).conn
  {
    assert events[..k + 1][..k] == events[..k];
  }

  lemma OneMoreIsLegal(c: Conn, events: seq<Event>, k: nat)
    requires k < |events| && LegalRun(c, events[..k], false) && Legal(Run(c, events[..k], false), events[k])
    ensures LegalRun(c, events[..k + 1], false)
  {
    var init, more := events[..k], events[..k + 1];
    forall n | 0 <= n < |more| ensures Legal(Run(c, more[..n], false), more[n]) {
      if n < k {
        assert more[..n] == init[..n] && more[n] == init[n];
      } else {
        assert more[..n] == init && more[n] == events[k];
      }
    }
  }

  /** The run has come to the `k`th state, within the limits. */
  ghost predicate Reached(k: nat)
    requires k < |STATES|
  {
    LegalRun(FRESH, EVENTS[..k], false) && Run(FRESH, EVENTS[..k], false) == STATES[k]
  }

  lemma ReachesNext(k: nat)
    requires k + 1 < |STATES| && Reached(k)
    requires Step(STATES[k], EVENTS[k], false).conn == STATES[k + 1] && Legal(STATES[k], EVENTS[k])
    ensures Reached(k + 1)
  {
    OneMore(FRESH, EVENTS, k);
    OneMoreIsLegal(FRESH, EVENTS, k);
  }

  lemma TwoStatements()
    ensures Reached(2)
  {
    Starts();
    FirstWrites();
    ReachesNext(0);
    ReachesNext(1);
  }

  lemma FourStatements()
    ensures Reached(4)
  {
    TwoStatements();
    FirstSavepoint();
    SecondWrites();
    ReachesNext(2);
    ReachesNext(3);
  }

  lemma SixStatements()
    ensures Reached(6)
  {
    FourStatements();
    UnseenOne();
    SecondSavepoint();
    ReachesNext(4);
    ReachesNext(5);
  }

  /** One run from a new session: six events within the limits; one that breaks a limit, by dropping a
      savepoint the guard saw above another one of its name; one within the limits; and then a data
      statement in the second tenant's context that is shown the first tenant's values. */
  lemma DroppedSavepointShowsAnotherTenant()
    ensures LegalRun(FRESH, EVENTS[..6], false) && !Legal(Run(FRESH, EVENTS[..6], false), EVENTS[6])
    ensures var c7 := Step(Run(FRESH, EVENTS[..6], false), EVENTS[6], false).conn;
            var c8 := Step(c7, EVENTS[7], false).conn;
            && Legal(c7, EVENTS[7])
            && Legal(c8, EVENTS[8])
            && EVENTS[8].active == Some(SECOND)
            && Step(c8, EVENTS[8], false).showed == Some(FIRST)
            && FIRST != OnSession(Some(SECOND))
  {
    SixStatements();
    BackToUnseen();
    BackToFirst();
    WrongTenant();
    assert "1"[0] != "2"[0];
  }

  /** `COMMIT AND CHAIN`, done and then interrupted; the guard takes it for one that may not have run. */
  const CHAINED := Event.Statement(Some(FIRST), CommitTransaction(true), NO_FAULTS.(statement := Interrupted))

  const ROLLED_BACK := Event.Statement(None, RollbackTransaction(false), NO_FAULTS)

  const AFTER_CHAINED := FRESH.(
    session := Some(Session(0, InTransaction, FIRST, FIRST, FIRST, [], 1, 1)),
    tracker := Tracker(Some(0), Unknown, true, Known(None), true, false, true, []))

  const AFTER_ROLLBACK := FRESH.(
    session := Some(Session(0, Idle, FIRST, FIRST, FIRST, [], 1, 1)),
    tracker := Tracker(Some(0), Known(None), false, Known(None), true, false, true, []))

  lemma ChainsUnnoticed()
    ensures !Legal(STATES[2], CHAINED) && Step(STATES[2], CHAINED, false).conn == AFTER_CHAINED
  {
    var c := STATES[2];
    assert Look(c.tracker, c.session.value) == c.tracker;
    assert TakesEffect(c, CHAINED.q, Interrupted) && !StartsAsItIsKept(c);
  }

  lemma RollsBack()
    ensures Legal(AFTER_CHAINED, ROLLED_BACK) && Step(AFTER_CHAINED, ROLLED_BACK, false).conn == AFTER_ROLLBACK
  {
    assert Look(AFTER_CHAINED.tracker, AFTER_CHAINED.session.value) == AFTER_CHAINED.tracker;
  }

  lemma ShowsFirst()
    ensures GuardStep(AFTER_ROLLBACK, None, false, Data(false), NO_FAULTS).showed == Some(FIRST)
  {
    assert Look(AFTER_ROLLBACK.tracker, AFTER_ROLLBACK.session.value) == AFTER_ROLLBACK.tracker;
  }

  /** The transaction it has begun is rolled back, and the guard goes back to what it knew before the
      first one: a statement outside any context is shown the tenant the commit has kept. */
  lemma InterruptedChainShowsATenant()
    ensures LegalRun(FRESH, EVENTS[..2], false) && !Legal(Run(FRESH, EVENTS[..2], false), CHAINED)
    ensures var c3 := Step(Run(FRESH, EVENTS[..2], false), CHAINED, false).conn;
            && Legal(c3, ROLLED_BACK)
            && var c4 := Step(c3, ROLLED_BACK, false).conn;
            && c4.session.Some? && c4.session.value.status == Idle
            && GuardStep(c4, None, false, Data(false), NO_FAULTS).showed == Some(FIRST)
  {
    TwoStatements();
    ChainsUnnoticed();
    RollsBack();
    ShowsFirst();
  }

  // ---- A transaction between two looks ----

  const UNSEEN_COMMITTED := AFTER_CHAINED.(
    session := Some(Session(0, Idle, FIRST, FIRST, CLEARED, [], 1, 0)), tracker := STATES[2].tracker)

  const UNSEEN_BEGUN := AFTER_CHAINED.(tracker := STATES[2].tracker)

  lemma CommitsAndBeginsUnseen()
    ensures Legal(STATES[2], UnseenEnd(true)) && Step(STATES[2], UnseenEnd(true), false).conn == UNSEEN_COMMITTED
    ensures !Legal(UNSEEN_COMMITTED, UnseenBegin) && Step(UNSEEN_COMMITTED, UnseenBegin, false).conn == UNSEEN_BEGUN
  {
  }

  lemma RollsBackUnseen()
    ensures Legal(UNSEEN_BEGUN, ROLLED_BACK) && Step(UNSEEN_BEGUN, ROLLED_BACK, false).conn == AFTER_ROLLBACK
  {
    assert Look(UNSEEN_BEGUN.tracker, UNSEEN_BEGUN.session.value) == UNSEEN_BEGUN.tracker;
  }

  /** The same without an interruption: past the cursor, the transaction is committed and another begun,
      which the guard takes for the first one and rolls back. */
  lemma UnseenTransactionShowsATenant()
    ensures LegalRun(FRESH, EVENTS[..2], false)
    ensures var c3 := Step(Run(FRESH, EVENTS[..2], false), UnseenEnd(true), false).conn;
            var c4 := Step(c3, UnseenBegin, false).conn;
            && Legal(Run(FRESH, EVENTS[..2], false), UnseenEnd(true)) && !Legal(c3, UnseenBegin)
            && Legal(c4, ROLLED_BACK)
            && var c5 := Step(c4, ROLLED_BACK, false).conn;
            && c5.session.Some? && c5.session.value.status == Idle
            && GuardStep(c5, None, false, Data(false), NO_FAULTS).showed == Some(FIRST)
  {
    TwoStatements();
    CommitsAndBeginsUnseen();
    RollsBackUnseen();
    ShowsFirst();
  }

  // ---- A compound statement that raised ----

  /** Two commands in one string, the first not one the guard follows, which write the settings; done,
      and then interrupted. */
  const COMPOUND := Event.Statement(None, Compound(false, false, Changes(FIRST, FIRST, []), None),
                                    NO_FAULTS.(statement := Interrupted))

  /** The guard forgets nothing: the next statement outside any context is shown what they wrote. */
  lemma InterruptedCompoundShowsItsValue()
    ensures ConnInv(FRESH) && !Legal(FRESH, COMPOUND)
    ensures var c := Step(FRESH, COMPOUND, false).conn;
            && c.session.Some? && c.session.value.status == Idle
            && GuardStep(c, None, false, Data(false), NO_FAULTS).showed == Some(FIRST)
  {
    var written := FRESH.(session := Some(Session(0, Idle, FIRST, FIRST, CLEARED, [], 0, 0)));
    assert Step(FRESH, COMPOUND, false).conn == written;
    assert Look(written.tracker, written.session.value) == written.tracker;
  }
}
