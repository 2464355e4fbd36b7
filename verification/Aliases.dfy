/** What a block's exit does to every configured alias: `settle_other_aliases` and `suspect_sessions`. */
module Aliases {
  import opened Gucs
  import opened Sessions
  import opened Trackers
  import opened TrackerSoundness
  import opened Guard
  import opened GuardSoundness
  import opened Runs

  /** What comes of one alias: its connection, and whether an exception not of the database ends the loop. */
  datatype Settled = Settled(conn: Conn, interrupted: bool)

  /** The tests that make `settle_other_aliases` apply the active context, once it has looked. */
  predicate ToSettle(held: Tracked, inTransaction: bool, all: bool, cleared: bool) {
    || (held.Known? && held.gucs.Some?)
    || (all && held == Unknown && inTransaction)
    || (cleared && (held == Unknown || held == Known(None)))
  }

  /** One turn of the loop of `settle_other_aliases`; `all`: the block restored no alias itself. */
  function SettleOne(c: Conn, all: bool, cleared: bool, active: Option<ContextGucs>, localMode: bool,
                     fault: Fault): Settled {
    if c.session.None? then Settled(c, false)
    else
      var held := c.tracker.values;
      var looked := if all && held == Unknown then c.(tracker := Look(c.tracker, c.session.value)) else c;
      if !ToSettle(held, c.session.value.status != Idle, all, cleared) then Settled(looked, false)
      else ApplyOrForget(looked, active, localMode, fault)
  }

  /** The active context is applied; a `DatabaseError` is forgotten. */
  function ApplyOrForget(c: Conn, active: Option<ContextGucs>, localMode: bool, fault: Fault): Settled
    requires c.session.Some?
  {
    var applied := ApplyIfStale(c, active, localMode, fault);
    if !applied.raised then Settled(applied.conn, false)
    else if NotOfDatabase(fault) then Settled(applied.conn, true)
    else Settled(applied.conn.(tracker := Forget(applied.conn.tracker)), false)
  }

  /** One turn of the loop of `suspect_sessions`. */
  function SuspectOne(c: Conn, underLocalValues: bool): Conn {
    if c.session.None? then c
    else c.(tracker := SuspectSession(Look(c.tracker, c.session.value), underLocalValues))
  }

  /** `settle_other_aliases` from alias `i` on; `using`: the alias the block restored itself. */
  function SettleFrom(conns: seq<Conn>, i: nat, using: Option<nat>, cleared: bool,
                      active: Option<ContextGucs>, localMode: bool, faults: seq<Fault>): (r: (seq<Conn>, bool))
    requires i <= |conns| == |faults|
    ensures |r.0| == |conns|
    decreases |conns| - i
  {
    if i == |conns| then (conns, false)
    else if Some(i) == using then SettleFrom(conns, i + 1, using, cleared, active, localMode, faults)
    else
      var one := SettleOne(conns[i], using.None?, cleared, active, localMode, faults[i]);
      if one.interrupted then (conns[i := one.conn], true)
      else SettleFrom(conns[i := one.conn], i + 1, using, cleared, active, localMode, faults)
  }

  /** `suspect_sessions` */
  function SuspectAll(conns: seq<Conn>, underLocalValues: bool): (r: seq<Conn>) {
    seq(|conns|, i requires 0 <= i < |conns| => SuspectOne(conns[i], underLocalValues))
  }

  /** `_settle_after_no_context`: suspect first, settle second. */
  function SettleAfterNoContext(conns: seq<Conn>, active: Option<ContextGucs>, localMode: bool, faults: seq<Fault>)
    : (seq<Conn>, bool)
    requires |conns| == |faults|
  {
    SettleFrom(SuspectAll(conns, localMode), 0, None, true, active, localMode, faults)
  }

  // ---- Every alias keeps its invariant ----

  lemma AppliedOrForgottenKeeps(c: Conn, active: Option<ContextGucs>, localMode: bool, fault: Fault)
    requires c.session.Some? && ConnInv(c)
    ensures var applied := ApplyIfStale(c, active, localMode, fault).conn;
            ConnInv(applied) && ConnInv(applied.(tracker := Forget(applied.tracker)))
  {
    ApplyIfStaleKeeps(c, active, localMode, fault);
    var applied := ApplyIfStale(c, active, localMode, fault).conn;
    ForgetKeeps(applied.tracker, applied.session.value);
  }

  lemma SettleOneKeeps(c: Conn, all: bool, cleared: bool, active: Option<ContextGucs>, localMode: bool, fault: Fault)
    requires ConnInv(c)
    ensures ConnInv(SettleOne(c, all, cleared, active, localMode, fault).conn)
  {
    if c.session.Some? {
      var looked := c.(tracker := Look(c.tracker, c.session.value));
      LookKeeps(c.tracker, c.session.value);
      AppliedOrForgottenKeeps(c, active, localMode, fault);
      AppliedOrForgottenKeeps(looked, active, localMode, fault);
    }
  }

  lemma SuspectOneKeeps(c: Conn, underLocalValues: bool)
    requires ConnInv(c)
    ensures ConnInv(SuspectOne(c, underLocalValues))
  {
    if c.session.Some? {
      LookKeeps(c.tracker, c.session.value);
      SuspectKeeps(Look(c.tracker, c.session.value), c.session.value, underLocalValues);
    }
  }

  /** An error of the database ends no loop: only another exception leaves an alias unsettled. */
  lemma {:induction false} DatabaseErrorsEndNoLoop(conns: seq<Conn>, i: nat, using: Option<nat>, cleared: bool,
                                                   active: Option<ContextGucs>, localMode: bool, faults: seq<Fault>)
    requires i <= |conns| == |faults|
    requires forall k :: i <= k < |faults| ==> !NotOfDatabase(faults[k])
    ensures !SettleFrom(conns, i, using, cleared, active, localMode, faults).1
    decreases |conns| - i
  {
    if i < |conns| {
      if Some(i) == using {
        DatabaseErrorsEndNoLoop(conns, i + 1, using, cleared, active, localMode, faults);
      } else {
        var one := SettleOne(conns[i], using.None?, cleared, active, localMode, faults[i]);
        DatabaseErrorsEndNoLoop(conns[i := one.conn], i + 1, using, cleared, active, localMode, faults);
      }
    }
  }

  /** Each alias is settled by itself, the restored one not at all, unless one is interrupted. */
  lemma {:induction false} EachAliasIsSettled(conns: seq<Conn>, i: nat, using: Option<nat>, cleared: bool,
                                              active: Option<ContextGucs>, localMode: bool, faults: seq<Fault>, k: nat)
    requires i <= |conns| == |faults| && k < |conns|
    ensures var (conns', interrupted) := SettleFrom(conns, i, using, cleared, active, localMode, faults);
            var one := SettleOne(conns[k], using.None?, cleared, active, localMode, faults[k]).conn;
            && (k < i || Some(k) == using ==> conns'[k] == conns[k])
            && (k >= i && Some(k) != using ==> conns'[k] == one || (interrupted && conns'[k] == conns[k]))
    decreases |conns| - i
  {
    if i < |conns| {
      if Some(i) == using {
        EachAliasIsSettled(conns, i + 1, using, cleared, active, localMode, faults, k);
      } else {
        var one := SettleOne(conns[i], using.None?, cleared, active, localMode, faults[i]);
        if !one.interrupted {
          EachAliasIsSettled(conns[i := one.conn], i + 1, using, cleared, active, localMode, faults, k);
        }
      }
    }
  }

  lemma SettlingKeeps(conns: seq<Conn>, using: Option<nat>, cleared: bool, active: Option<ContextGucs>,
                      localMode: bool, faults: seq<Fault>, k: nat)
    requires |conns| == |faults| && k < |conns| && ConnInv(conns[k])
    ensures ConnInv(SettleFrom(conns, 0, using, cleared, active, localMode, faults).0[k])
  {
    EachAliasIsSettled(conns, 0, using, cleared, active, localMode, faults, k);
    SettleOneKeeps(conns[k], using.None?, cleared, active, localMode, faults[k]);
  }

  // ---- Suspect, then settle ----

  /** The session accepts statements, and its alias is configured. */
  ghost predicate Healthy(c: Conn) {
    c.session.Some? && c.session.value.status in {Idle, InTransaction} && !c.needsRollback && c.guarded && ConnInv(c)
  }

  /** The session shows `active`, and the tracker knows it. */
  ghost predicate Holds(c: Conn, active: Option<ContextGucs>) {
    c.session.Some? && c.session.value.shown == OnSession(active) && c.tracker.values == Known(active)
  }

  /** A write that goes through is recorded. */
  lemma AppliedIsKnown(c: Conn, active: Option<ContextGucs>, localMode: bool)
    requires Healthy(c)
    requires active.Some? && localMode ==> WillRunInTransaction(c, c.session.value.status)
    ensures var r := ApplyIfStale(c, active, localMode, Fine);
            && !r.raised && Holds(r.conn, active) && Healthy(r.conn)
            && r.conn.tracker == Look(r.conn.tracker, r.conn.session.value)
    ensures !localMode && !c.tracker.wroteLocal ==> !ApplyIfStale(c, active, localMode, Fine).conn.tracker.wroteLocal
  {
    LookKeeps(c.tracker, c.session.value);
    ApplyIfStaleKeeps(c, active, localMode, Fine);
    AppliedIsLookedAt(c, active, localMode);
  }

  lemma AppliedIsLookedAt(c: Conn, active: Option<ContextGucs>, localMode: bool)
    requires c.session.Some?
    ensures var r := ApplyIfStale(c, active, localMode, Fine);
            && (!r.raised ==> r.conn.tracker == Look(r.conn.tracker, r.conn.session.value))
            && (!localMode && !c.tracker.wroteLocal ==> !r.conn.tracker.wroteLocal)
  {
    var looked := c.(tracker := Look(c.tracker, c.session.value));
    var isLocal := active.Some? && localMode;
    var sent := SendWrite(looked, OnSession(active), isLocal, Fine);
    RecordedIsLookedAt(looked.tracker, sent.session, Known(active), isLocal);
  }

  /** The guard remembers what it applied: in session mode, a statement that went through leaves the
      active context known, and the next one under it is sent without another write. */
  lemma GuardRemembers(c: Conn, active: Option<ContextGucs>, refused: bool, f: Faults, next: Fault)
    requires Healthy(c) && !c.tracker.wroteLocal && f.write == f.statement == Fine
    ensures var ran := GuardStep(c, active, false, Data(refused), f);
            && !ran.raised && ran.showed == Some(OnSession(active)) && Holds(ran.conn, active)
            && var applied := ApplyIfStale(ran.conn, active, false, next);
            && !applied.raised && applied.conn.session == ran.conn.session
            && applied.conn.tracker.values == Known(active)
  {
    AppliedIsKnown(c, active, false);
    var prepared := ApplyIfStale(c, active, false, Fine).conn;
    DataIsSent(prepared, active, refused, c.session.value.status, f);
    StillKnown(prepared, active, next);
  }

  /** A data statement that goes through leaves the tracker alone, where nothing was written locally. */
  lemma DataIsSent(c: Conn, active: Option<ContextGucs>, refused: bool, before: Status, f: Faults)
    requires Healthy(c) && !c.tracker.wroteLocal && f.statement == Fine
    ensures RunPrepared(c, active, Data(refused), before, false, f) ==
              Ran(c.(session := Some(Worked(Opened(c)))), false, Some(c.session.value.shown))
  {
  }

  lemma StillKnown(c: Conn, active: Option<ContextGucs>, fault: Fault)
    requires Healthy(c) && Holds(c, active) && c.tracker == Look(c.tracker, c.session.value)
    ensures var sent := c.(session := Some(Worked(Opened(c))));
            && Holds(sent, active)
            && var applied := ApplyIfStale(sent, active, false, fault);
            !applied.raised && applied.conn.session == sent.session && applied.conn.tracker.values == Known(active)
  {
  }

  lemma ForgottenNeedsSettling(c: Conn)
    requires Healthy(c)
    ensures var suspected := SuspectOne(c, false);
            && Healthy(suspected) && suspected.tracker.values == Unknown
            && suspected.session == c.session && suspected.autocommit == c.autocommit
            && (!c.tracker.wroteLocal ==> !suspected.tracker.wroteLocal)
  {
    SuspectOneKeeps(c, false);
  }

  /** In session mode one alias holds the enclosing context right after a no-context call. */
  lemma SuspectThenSettleOne(c: Conn, active: Option<ContextGucs>)
    requires Healthy(c)
    ensures var r := SettleOne(SuspectOne(c, false), true, true, active, false, Fine);
            !r.interrupted && Holds(r.conn, active) && Healthy(r.conn)
            && (!c.tracker.wroteLocal ==> !r.conn.tracker.wroteLocal)
  {
    ForgottenNeedsSettling(c);
    var suspected := SuspectOne(c, false);
    var looked := suspected.(tracker := Look(suspected.tracker, suspected.session.value));
    LookKeeps(suspected.tracker, suspected.session.value);
    AppliedIsKnown(looked, active, false);
  }

  /** In local mode too, where a transaction is open or no context is active. */
  lemma LocalSuspectThenSettleOne(c: Conn, active: Option<ContextGucs>)
    requires Healthy(c) && (active.Some? ==> c.session.value.status == InTransaction)
    ensures var r := SettleOne(SuspectOne(c, true), true, true, active, true, Fine);
            !r.interrupted && Holds(r.conn, active) && Healthy(r.conn)
  {
    SuspectOneKeeps(c, true);
    var suspected := SuspectOne(c, true);
    LookKeeps(suspected.tracker, suspected.session.value);
    var looked := suspected.(tracker := Look(suspected.tracker, suspected.session.value));
    AppliedIsKnown(looked, active, true);
    AppliedIsKnown(suspected, active, true);
  }

  /** After a no-context call in session mode every healthy alias on which the write goes through
      holds the enclosing context, whatever fails on the others. */
  lemma SuspectThenSettle(conns: seq<Conn>, active: Option<ContextGucs>, faults: seq<Fault>, k: nat)
    requires k < |conns| == |faults| && Healthy(conns[k]) && faults[k] == Fine
    requires !SettleAfterNoContext(conns, active, false, faults).1
    ensures var c := SettleAfterNoContext(conns, active, false, faults).0[k];
            Holds(c, active) && Healthy(c) && (!conns[k].tracker.wroteLocal ==> !c.tracker.wroteLocal)
  {
    EachAliasIsSettled(SuspectAll(conns, false), 0, None, true, active, false, faults, k);
    SuspectThenSettleOne(conns[k], active);
  }

  // ---- Until the enclosing block exits ----

  /** `e` writes nothing transaction-locally, and does not take what it suspects for such a write. */
  predicate OfSessionMode(e: Event) {
    !(e.LibraryWrite? && e.isLocal) && !(e.Suspect? && e.underLocalValues)
  }

  lemma LooksAtNothingLocal(t: Tracker, s: Session)
    requires !t.wroteLocal
    ensures !Look(t, s).wroteLocal && !Forget(t).wroteLocal
  {
  }

  lemma AppliesNothingLocally(c: Conn, active: Option<ContextGucs>, fault: Fault)
    requires c.session.Some? && !c.tracker.wroteLocal
    ensures !ApplyIfStale(c, active, false, fault).conn.tracker.wroteLocal
  {
  }

  lemma FollowsNothingLocally(t: Tracker, q: Guard.Statement, before: Status, s: Session)
    requires !t.wroteLocal
    ensures !Follow(t, q, before, s).wroteLocal
  {
  }

  lemma NotesNothingLocally(t: Tracker, s: Option<Session>, raised: bool, q: Guard.Statement, before: Status)
    requires !t.wroteLocal
    ensures !Noted(t, s, raised, q, before, false).wroteLocal
  {
    if s.Some? {
      FollowsNothingLocally(t, q, before, s.value);
    }
  }

  lemma GuardWritesNothingLocally(c: Conn, active: Option<ContextGucs>, q: Guard.Statement, f: Faults)
    requires c.session.Some? && !c.tracker.wroteLocal
    ensures !GuardStep(c, active, false, q, f).conn.tracker.wroteLocal
  {
    AppliesNothingLocally(c, active, f.write);
    LooksAtNothingLocal(c.tracker, c.session.value);
    var prepared := Prepare(c, active, false, q, f.write).conn;
    NotesNothingLocally(prepared.tracker, Some(Execute(prepared, q, f.statement).session),
                        Execute(prepared, q, f.statement).raised,
                        q, c.session.value.status);
  }

  lemma LibraryWritesNothingLocally(c: Conn, values: Option<ContextGucs>, fault: Fault)
    requires c.session.Some? && !c.tracker.wroteLocal
    ensures !WriteGucs(c, values, false, fault).conn.tracker.wroteLocal
  {
  }

  lemma EndsNothingLocally(c: Conn, commit: bool, fault: Fault)
    requires c.session.Some? && !c.tracker.wroteLocal
    ensures !TransactionEnd(c, commit, fault).conn.tracker.wroteLocal
  {
  }

  lemma OpenStepWritesNothingLocally(c: Conn, e: Event)
    requires c.session.Some? && !c.tracker.wroteLocal && OfSessionMode(e)
    ensures !OpenStep(c, e, false).conn.tracker.wroteLocal
  {
    match e
    case Statement(active, q, f) => GuardWritesNothingLocally(c, active, q, f);
    case Apply(active, fault) => AppliesNothingLocally(c, active, fault);
    case LibraryWrite(values, _, fault) => LibraryWritesNothingLocally(c, values, fault);
    case DjangoEnds(commit, fault) => EndsNothingLocally(c, commit, fault);
    case _ => LooksAtNothingLocal(c.tracker, c.session.value);
  }

  lemma StepWritesNothingLocally(c: Conn, e: Event)
    requires !c.tracker.wroteLocal && OfSessionMode(e)
    ensures !Step(c, e, false).conn.tracker.wroteLocal
  {
    if c.session.Some? {
      OpenStepWritesNothingLocally(c, e);
    }
  }

  /** In session mode no tracker ever records a transaction-local write. */
  lemma {:induction false} NothingIsLocalInSessionMode(c: Conn, events: seq<Event>)
    requires !c.tracker.wroteLocal && forall n :: 0 <= n < |events| ==> OfSessionMode(events[n])
    ensures !Run(c, events, false).tracker.wroteLocal
    decreases |events|
  {
    if events != [] {
      NothingIsLocalInSessionMode(c, events[..|events| - 1]);
      StepWritesNothingLocally(Run(c, events[..|events| - 1], false), events[|events| - 1]);
    }
  }

  /** In session mode what the settle wrote is still held, and known, after a commit. */
  lemma HeldAfterCommit(c: Conn, active: Option<ContextGucs>)
    requires Healthy(c) && Holds(c, active) && !c.tracker.wroteLocal && c.tracker == Look(c.tracker, c.session.value)
    requires c.session.value.status == InTransaction ==>
               c.session.value.kept == c.session.value.shown && c.tracker.wroteSession
    ensures var ended := TransactionEnd(c, true, Fine);
            !ended.raised && Holds(ended.conn, active) && Healthy(ended.conn)
  {
    TransactionEndKeeps(c, true, Fine);
  }

  /** After a rollback the tracker is back at what it knew when the transaction began. */
  lemma BaseAfterRollback(c: Conn)
    requires Healthy(c) && c.tracker == Look(c.tracker, c.session.value)
    ensures var ended := TransactionEnd(c, false, Fine);
            && !ended.raised && Healthy(ended.conn)
            && (c.session.value.status == InTransaction ==>
                  ended.conn.tracker.values == c.tracker.base
                  && ended.conn.session.value.shown == c.session.value.start)
  {
    TransactionEndKeeps(c, false, Fine);
  }

  /** The exit of a block takes the values the tracker knows of off an alias. */
  lemma ExitSettles(c: Conn, active: Option<ContextGucs>, outer: Option<ContextGucs>)
    requires Healthy(c) && Holds(c, active)
    ensures var r := SettleOne(c, false, false, outer, false, Fine);
            !r.interrupted && (active.Some? || outer.None? ==> Holds(r.conn, outer))
  {
    AppliedIsKnown(c, outer, false);
  }

  /** Once the settle has run, the session's own value is the one statements see. */
  lemma SettledIsKept(c: Conn, active: Option<ContextGucs>)
    requires Healthy(c)
    ensures var r := SettleOne(SuspectOne(c, false), true, true, active, false, Fine).conn;
            r.session.Some? && r.session.value.kept == r.session.value.shown
            && r.tracker == Look(r.tracker, r.session.value)
            && (r.session.value.status == InTransaction ==> r.tracker.wroteSession)
  {
    ForgottenNeedsSettling(c);
  }

  /** The enclosing block's exit takes its values off every alias: a no-context call in it has
      left them there known, and a commit in between, or none, keeps them known. */
  lemma EnclosingExitTakesThemOff(c: Conn, active: Option<ContextGucs>, outer: Option<ContextGucs>, commits: bool)
    requires Healthy(c) && !c.tracker.wroteLocal && (active.Some? || outer.None?)
    ensures var called := SettleOne(SuspectOne(c, false), true, true, active, false, Fine).conn;
            var ended := if commits then TransactionEnd(called, true, Fine).conn else called;
            Holds(SettleOne(ended, false, false, outer, false, Fine).conn, outer)
  {
    SuspectThenSettleOne(c, active);
    SettledIsKept(c, active);
    var called := SettleOne(SuspectOne(c, false), true, true, active, false, Fine).conn;
    if commits {
      HeldAfterCommit(called, active);
      ExitSettles(TransactionEnd(called, true, Fine).conn, active, outer);
    } else {
      ExitSettles(called, active, outer);
    }
  }

  /** After any events in between: the enclosing block's exit leaves the context around it on a healthy
      alias if and only if the record still knows a context there, or the session shows that already. */
  lemma ExitTakesOffIff(c: Conn, outer: Option<ContextGucs>)
    requires Healthy(c)
    ensures var r := SettleOne(c, false, false, outer, false, Fine).conn;
            && r.session.Some?
            && (r.session.value.shown == OnSession(outer) <==>
                  (c.tracker.values.Known? && c.tracker.values.gucs.Some?) || c.session.value.shown == OnSession(outer))
  {
    AppliedIsKnown(c, outer, false);
  }

  lemma CallKeepsTheStart(c: Conn, active: Option<ContextGucs>)
    requires Healthy(c) && c.session.value.status == InTransaction
    ensures var called := SettleOne(SuspectOne(c, false), true, true, active, false, Fine).conn;
            && called.session.Some? && called.session.value.status == InTransaction
            && called.session.value.start == c.session.value.start
            && called.tracker.base == Look(c.tracker, c.session.value).base
  {
    ForgottenNeedsSettling(c);
  }

  /** A call without a context in a transaction that is rolled back: the enclosing block's exit leaves the
      context around it if and only if a context was known when the transaction began, or the session
      already showed that one then. */
  lemma ExitAfterRollbackIff(c: Conn, active: Option<ContextGucs>, outer: Option<ContextGucs>)
    requires Healthy(c) && c.session.value.status == InTransaction
    ensures var called := SettleOne(SuspectOne(c, false), true, true, active, false, Fine).conn;
            && called.session.Some?
            && var exited := SettleOne(TransactionEnd(called, false, Fine).conn, false, false, outer, false, Fine).conn;
            var base := Look(c.tracker, c.session.value).base;
            && exited.session.Some?
            && (exited.session.value.shown == OnSession(outer) <==>
                  (base.Known? && base.gucs.Some?) || c.session.value.start == OnSession(outer))
  {
    CallKeepsTheStart(c, active);
    SuspectThenSettleOne(c, active);
    SettledIsKept(c, active);
    var called := SettleOne(SuspectOne(c, false), true, true, active, false, Fine).conn;
    BaseAfterRollback(called);
    ExitTakesOffIff(TransactionEnd(called, false, Fine).conn, outer);
  }
}
