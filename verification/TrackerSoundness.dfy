/** The invariant that ties a tracker to the session it describes, and what keeps it. */
module TrackerSoundness {
  import opened Gucs
  import opened Sessions
  import opened Trackers

  /** `belief` agrees with a state of the session's open transaction: now, or at a savepoint. */
  ghost predicate Agrees(t: Tracker, belief: Tracked, shown: ContextGucs, kept: ContextGucs, start: ContextGucs) {
    && Sound(belief, shown)
    && (belief.Known? && !t.wroteLocal ==> shown == kept)
    && (t.base.Known? && !t.wroteSession ==> kept == start)
    && (!t.changed ==> belief == t.base)
  }

  /** What the tracker may still believe at a savepoint it did not see. */
  ghost function BeliefAtUnseen(t: Tracker): Tracked {
    if t.changed then Unknown else t.base
  }

  /** A tracked savepoint is called `name`. */
  ghost predicate Follows(e: seq<Entry>, name: string) {
    exists k :: 0 <= k < |e| && e[k].name == name
  }

  ghost predicate HasSavepoint(p: seq<Savepoint>, name: string) {
    exists k :: 0 <= k < |p| && p[k].name == name
  }

  /** The tracked savepoints `e` say of each name what the session's savepoints `p` say, now and after any
      of them is ended. A newest tracked one belongs to the newest of `p`, or is a leftover whose name no
      savepoint has; else the newest of `p` is one the guard did not see, of a name it does not follow. */
  ghost predicate InStep(t: Tracker, e: seq<Entry>, p: seq<Savepoint>, start: ContextGucs)
    decreases |e| + |p|
  {
    if p == [] then true
    else
      var last, older := p[|p| - 1], p[..|p| - 1];
      if e != [] && e[|e| - 1].name == last.name then
        Agrees(t, e[|e| - 1].values, last.shown, last.kept, start) && InStep(t, e[..|e| - 1], older, start)
      else if e != [] && !HasSavepoint(p, e[|e| - 1].name) then
        InStep(t, e[..|e| - 1], p, start)
      else
        && !Follows(e, last.name)
        && Agrees(t, BeliefAtUnseen(t), last.shown, last.kept, start)
        && InStep(t, e, older, start)
  }

  /** The invariant once the guard has looked at the session. */
  ghost predicate Good(t: Tracker, s: Session) {
    match s.status
    case Idle => !t.inTransaction && Sound(t.values, s.shown)
    case Bad => true
    case _ =>
      && t.inTransaction
      && Sound(t.base, s.start)
      && (!t.changed ==> t.values == t.base)
      && InStep(t, t.savepoints, s.savepoints, s.start)
      && (s.status == InTransaction ==> Agrees(t, t.values, s.shown, s.kept, s.start))
  }

  /** What `_observe` makes of the tracker: a session it does not know has unknown values. */
  function Look(t: Tracker, s: Session): Tracker {
    SyncTransaction(if t.raw == Some(s.id) then t else Attach(t, s.id, Unknown), s.status)
  }

  /** The invariant of every run: the next look finds a sound record. */
  ghost predicate Inv(t: Tracker, s: Session) {
    Valid(s) && Good(Look(t, s), s)
  }

  /** Looking is idempotent, and keeps the invariant. */
  lemma LookKeeps(t: Tracker, s: Session)
    requires Inv(t, s)
    ensures Look(Look(t, s), s) == Look(t, s)
    ensures Inv(Look(t, s), s)
  {
  }

  // ---- Savepoints ----

  /** Flags only go up in a transaction; the savepoints stay in step. */
  lemma {:induction false} FlagsRise(t: Tracker, t': Tracker, e: seq<Entry>, p: seq<Savepoint>, start: ContextGucs)
    requires InStep(t, e, p, start)
    requires t'.base == t.base
    requires t.changed ==> t'.changed
    requires t.wroteLocal ==> t'.wroteLocal
    requires t.wroteSession ==> t'.wroteSession
    ensures InStep(t', e, p, start)
    decreases |e| + |p|
  {
    if p != [] {
      var older := p[..|p| - 1];
      if e != [] && e[|e| - 1].name == p[|p| - 1].name {
        FlagsRise(t, t', e[..|e| - 1], older, start);
      } else if e != [] && !HasSavepoint(p, e[|e| - 1].name) {
        FlagsRise(t, t', e[..|e| - 1], p, start);
      } else {
        FlagsRise(t, t', e, older, start);
      }
    }
  }

  /** Positions `i` of the session's savepoints and `j` of the tracked ones are of one savepoint. */
  ghost predicate SameSavepoint(t: Tracker, e: seq<Entry>, j: nat, p: seq<Savepoint>, i: nat, start: ContextGucs)
    requires i < |p| && j < |e|
  {
    && Agrees(t, e[j].values, p[i].shown, p[i].kept, start)
    && InStep(t, e[..j], p[..i], start)
    && InStep(t, e[..j + 1], p[..i + 1], start)
  }

  lemma SameInPrefix(t: Tracker, e: seq<Entry>, m: nat, j: nat, p: seq<Savepoint>, n: nat, i: nat, start: ContextGucs)
    requires i < n <= |p| && j < m <= |e|
    requires SameSavepoint(t, e[..m], j, p[..n], i, start)
    ensures SameSavepoint(t, e, j, p, i, start)
  {
    assert p[..n][..i] == p[..i] && p[..n][..i + 1] == p[..i + 1];
    assert e[..m][..j] == e[..j] && e[..m][..j + 1] == e[..j + 1];
  }

  lemma LastIsSame(t: Tracker, e: seq<Entry>, p: seq<Savepoint>, start: ContextGucs)
    requires InStep(t, e, p, start) && e != [] && p != [] && e[|e| - 1].name == p[|p| - 1].name
    ensures SameSavepoint(t, e, |e| - 1, p, |p| - 1, start)
  {
    assert e[..|e| - 1 + 1] == e && p[..|p| - 1 + 1] == p;
  }

  /** A tracked savepoint of a name the session has is the session's newest of that name. */
  lemma {:induction false} NewestAgrees(t: Tracker, e: seq<Entry>, p: seq<Savepoint>, start: ContextGucs, name: string)
    requires InStep(t, e, p, start)
    ensures var i, j := NewestSavepoint(p, name), SavepointIndex(e, name);
            i.Some? && j.Some? ==> SameSavepoint(t, e, j.value, p, i.value, start)
    decreases |e| + |p|
  {
    var i, j := NewestSavepoint(p, name), SavepointIndex(e, name);
    if i.Some? && j.Some? {
      var m, n := |e| - 1, |p| - 1;
      if e[m].name == p[n].name {
        if e[m].name == name {
          LastIsSame(t, e, p, start);
        } else {
          NewestAgrees(t, e[..m], p[..n], start, name);
          SameInPrefix(t, e, m, j.value, p, n, i.value, start);
        }
      } else if !HasSavepoint(p, e[m].name) {
        assert e[m].name != name;
        assert p[..n + 1] == p;
        NewestAgrees(t, e[..m], p, start, name);
        SameInPrefix(t, e, m, j.value, p, n + 1, i.value, start);
      } else {
        assert p[n].name != name;
        assert e[..m + 1] == e;
        NewestAgrees(t, e, p[..n], start, name);
        SameInPrefix(t, e, m + 1, j.value, p, n, i.value, start);
      }
    }
  }

  /** The savepoints from `cut` on go without the tracker noticing: none of a name it follows leaves an
      older one of that name behind. */
  ghost predicate LeavesNoNamesake(e: seq<Entry>, p: seq<Savepoint>, cut: nat) {
    forall i, k :: 0 <= i < cut <= k < |p| && p[i].name == p[k].name ==> !Follows(e, p[k].name)
  }

  lemma {:induction false} UnnoticedMayGo(t: Tracker, e: seq<Entry>, p: seq<Savepoint>, start: ContextGucs, cut: nat)
    requires InStep(t, e, p, start) && cut <= |p| && LeavesNoNamesake(e, p, cut)
    ensures InStep(t, e, p[..cut], start)
    decreases |e| + |p|
  {
    if cut == |p| {
      assert p[..cut] == p;
    } else {
      var m, n := |e| - 1, |p| - 1;
      assert p[..n][..cut] == p[..cut];
      if e != [] && e[m].name == p[n].name {
        UnnoticedMayGo(t, e[..m], p[..n], start, cut);
        assert Follows(e, p[n].name);
        assert !HasSavepoint(p[..cut], e[m].name);
      } else if e != [] && !HasSavepoint(p, e[m].name) {
        UnnoticedMayGo(t, e[..m], p, start, cut);
        assert !HasSavepoint(p[..cut], e[m].name);
      } else {
        UnnoticedMayGo(t, e, p[..n], start, cut);
      }
    }
  }

  /** Whatever the tracker may believe at a savepoint it did not see is true at every one. */
  lemma {:induction false} AgreesAtEach(t: Tracker, e: seq<Entry>, p: seq<Savepoint>, start: ContextGucs, i: nat)
    requires InStep(t, e, p, start) && i < |p|
    ensures Agrees(t, BeliefAtUnseen(t), p[i].shown, p[i].kept, start)
    decreases |e| + |p|
  {
    var m, n := |e| - 1, |p| - 1;
    if e != [] && e[m].name == p[n].name {
      if i < n {
        AgreesAtEach(t, e[..m], p[..n], start, i);
      }
    } else if e != [] && !HasSavepoint(p, e[m].name) {
      AgreesAtEach(t, e[..m], p, start, i);
    } else if i < n {
      AgreesAtEach(t, e, p[..n], start, i);
    }
  }

  // ---- What keeps the invariant ----

  /** An end of the transaction the tracker is told about, also one it had not seen start. */
  lemma EndKeeps(t: Tracker, s: Session, committed: bool)
    requires Inv(t, s) && t.raw == Some(s.id) && s.status in {InTransaction, InError}
    ensures Inv(EndTransaction(t, Some(committed && s.status != InError)), End(s, committed))
  {
  }

  /** An end it is not told about, or told without the outcome; next looked at while idle. */
  lemma UnseenEndKeeps(t: Tracker, s: Session, committed: bool)
    requires Inv(t, s) && s.status in {InTransaction, InError}
    ensures Inv(t, End(s, committed))
    ensures Inv(EndTransaction(t, None), End(s, committed))
  {
  }

  /** Forgetting is always sound, whatever the tracker has noticed of the transaction. */
  lemma ForgetKeeps(t: Tracker, s: Session)
    requires Inv(t, s)
    ensures Inv(Forget(t), s)
  {
    if t.raw == Some(s.id) && t.inTransaction && s.status in {InTransaction, InError} {
      FlagsRise(t, Forget(t), t.savepoints, s.savepoints, s.start);
    } else if t.raw == Some(s.id) && !t.inTransaction && s.status in {InTransaction, InError} {
      UnknownBaseInStep(Look(Forget(t), s), s.savepoints, s.start, Look(t, s));
    }
  }

  /** Savepoints none of which the guard saw are in step with a tracker that believes nothing. */
  lemma {:induction false} UnknownBaseInStep(t: Tracker, p: seq<Savepoint>, start: ContextGucs, before: Tracker)
    requires InStep(before, [], p, start)
    requires t.base == Unknown
    ensures InStep(t, [], p, start)
    decreases |p|
  {
    if p != [] {
      UnknownBaseInStep(t, p[..|p| - 1], start, before);
    }
  }

  lemma WriteInTransactionKeeps(t: Tracker, s: Session, belief: Tracked, v: ContextGucs, isLocal: bool)
    requires Inv(t, s) && t == Look(t, s) && s.status == InTransaction
    requires Sound(belief, v)
    ensures Inv(SetValues(t, belief, isLocal), Write(s, v, isLocal))
  {
    var t', s' := SetValues(t, belief, isLocal), Write(s, v, isLocal);
    FlagsRise(t, t', t.savepoints, s.savepoints, s.start);
    assert Look(t', s') == t';
  }

  /** A recorded write: the tracker has looked at the session before the write and after it. */
  lemma WriteKeeps(t: Tracker, s: Session, values: Option<ContextGucs>, isLocal: bool, recorded: bool)
    requires Inv(t, s) && t == Look(t, s)
    requires s.status == InTransaction || (s.status == Idle && !isLocal)
    ensures var s' := Write(s, OnSession(values), isLocal);
            Inv(SetValues(t, if recorded then Known(values) else Unknown, isLocal), s')
  {
    if s.status == InTransaction {
      WriteInTransactionKeeps(t, s, if recorded then Known(values) else Unknown, OnSession(values), isLocal);
    }
  }

  /** A write that took effect and still raised: the tracker only knows that it knows nothing. */
  lemma UnrecordedWriteKeeps(t: Tracker, s: Session, v: ContextGucs, isLocal: bool)
    requires Inv(t, s) && t == Look(t, s)
    requires s.status in {Idle, InTransaction}
    ensures Inv(Forget(t), Write(s, v, isLocal))
  {
    if s.status == InTransaction {
      FlagsRise(t, Forget(t), t.savepoints, s.savepoints, s.start);
    }
  }

  lemma SuspectKeeps(t: Tracker, s: Session, underLocalValues: bool)
    requires Inv(t, s)
    ensures Inv(SuspectSession(t, underLocalValues), s)
  {
    if t.inTransaction && underLocalValues {
      if t.raw == Some(s.id) && s.status in {InTransaction, InError} {
        FlagsRise(t, SuspectSession(t, underLocalValues), t.savepoints, s.savepoints, s.start);
      }
    } else {
      ForgetKeeps(t, s);
    }
  }

  // ---- Savepoint statements ----

  /** A savepoint the guard saw set. */
  lemma SavepointKeeps(t: Tracker, s: Session, name: string)
    requires Inv(t, s) && t == Look(t, s) && s.status == InTransaction
    ensures Inv(t.(savepoints := t.savepoints + [Entry(name, t.values)]), SetSavepoint(s, name))
  {
    var t' := t.(savepoints := t.savepoints + [Entry(name, t.values)]);
    var s' := SetSavepoint(s, name);
    FlagsRise(t, t', t.savepoints, s.savepoints, s.start);
    assert s'.savepoints[..|s.savepoints|] == s.savepoints;
    assert t'.savepoints[..|t.savepoints|] == t.savepoints;
  }

  lemma {:induction false} UnseenOneMore(t: Tracker, e: seq<Entry>, p: seq<Savepoint>, start: ContextGucs,
                                         last: Savepoint)
    requires InStep(t, e, p, start) && !Follows(e, last.name)
    requires Agrees(t, BeliefAtUnseen(t), last.shown, last.kept, start)
    ensures InStep(t, e, p + [last], start)
    decreases |e|
  {
    var p', m := p + [last], |e| - 1;
    assert p'[..|p|] == p;
    if e != [] {
      assert e[m].name != last.name;
      if !HasSavepoint(p', e[m].name) {
        assert forall k :: 0 <= k < |p| ==> p[k] == p'[k];
        assert !HasSavepoint(p, e[m].name);
        assert p != [] ==> e[m].name != p[|p| - 1].name;
        UnseenOneMore(t, e[..m], p, start, last);
      }
    }
  }

  /** A savepoint it did not see set, under a name it does not follow. */
  lemma UnseenSavepointKeeps(t: Tracker, s: Session, name: string)
    requires Inv(t, s) && s.status == InTransaction && !Follows(Look(t, s).savepoints, name)
    ensures Inv(t, SetSavepoint(s, name))
  {
    var t' := Look(t, s);
    UnseenOneMore(t', t'.savepoints, s.savepoints, s.start, Savepoint(name, s.shown, s.kept, s.work));
  }

  /** What a statement that ends the savepoint at `i` does to the session. */
  function EndSavepoint(s: Session, i: nat, rolledBack: bool): Session
    requires i < |s.savepoints|
  {
    if rolledBack then RollbackToSavepoint(s, i) else ReleaseSavepoint(s, i)
  }

  /** Those above the savepoint at `i`, and itself for a release, may go without the tracker noticing. */
  ghost predicate MayDrop(e: seq<Entry>, s: Session, i: nat, rolledBack: bool) {
    LeavesNoNamesake(e, s.savepoints, if rolledBack then i + 1 else i)
  }

  /** `RELEASE` or `ROLLBACK TO`, through the guard, of a name it follows. */
  lemma TrackedSavepointEndKeeps(t: Tracker, s: Session, name: string, rolledBack: bool)
    requires Inv(t, s) && t == Look(t, s)
    requires s.status == InTransaction || (rolledBack && s.status == InError)
    requires NewestSavepoint(s.savepoints, name).Some? && Follows(t.savepoints, name)
    ensures var s' := EndSavepoint(s, NewestSavepoint(s.savepoints, name).value, rolledBack);
            Inv(FollowSavepointEnd(t, Some(name), rolledBack), s')
  {
    NewestAgrees(t, t.savepoints, s.savepoints, s.start, name);
    var i, j := NewestSavepoint(s.savepoints, name).value, SavepointIndex(t.savepoints, name).value;
    var cut := if rolledBack then 1 else 0;
    FlagsRise(t, FollowSavepointEnd(t, Some(name), rolledBack),
              t.savepoints[..j + cut], s.savepoints[..i + cut], s.start);
  }

  /** The same of a name it does not follow, or cannot read. */
  lemma UnreadSavepointEndKeeps(t: Tracker, s: Session, name: string, clear: bool, rolledBack: bool)
    requires Inv(t, s) && t == Look(t, s)
    requires s.status == InTransaction || (rolledBack && s.status == InError)
    requires NewestSavepoint(s.savepoints, name).Some?
    requires clear ==> !Follows(t.savepoints, name)
    requires MayDrop(t.savepoints, s, NewestSavepoint(s.savepoints, name).value, rolledBack)
    ensures var s' := EndSavepoint(s, NewestSavepoint(s.savepoints, name).value, rolledBack);
            Inv(FollowSavepointEnd(t, if clear then Some(name) else None, rolledBack), s')
  {
    var i := NewestSavepoint(s.savepoints, name).value;
    var t' := FollowSavepointEnd(t, if clear then Some(name) else None, rolledBack);
    assert t' == if clear && !t.changed then t else Forget(t);
    UnreadEndKeeps(t, t', s, i, rolledBack);
  }

  lemma UnreadEndKeeps(t: Tracker, t': Tracker, s: Session, i: nat, rolledBack: bool)
    requires Inv(t, s) && t == Look(t, s)
    requires s.status == InTransaction || (rolledBack && s.status == InError)
    requires i < |s.savepoints| && MayDrop(t.savepoints, s, i, rolledBack)
    requires t' == Forget(t) || (t' == t && (rolledBack ==> !t.changed))
    ensures Inv(t', EndSavepoint(s, i, rolledBack))
  {
    var p, cut := s.savepoints, if rolledBack then i + 1 else i;
    UnnoticedMayGo(t, t.savepoints, p, s.start, cut);
    FlagsRise(t, t', t.savepoints, p[..cut], s.start);
    if rolledBack {
      AgreesAtEach(t, t.savepoints, p, s.start, i);
      assert Agrees(t', t'.values, p[i].shown, p[i].kept, s.start);
    }
  }

  // ---- Past the cursor ----

  lemma UnseenReleaseKeeps(t: Tracker, s: Session, i: nat)
    requires Inv(t, s) && s.status == InTransaction
    requires i < |s.savepoints| && MayDrop(Look(t, s).savepoints, s, i, false)
    ensures Inv(t, ReleaseSavepoint(s, i))
  {
    var t' := Look(t, s);
    UnnoticedMayGo(t', t'.savepoints, s.savepoints, s.start, i);
  }

  /** Nothing the tracker believes now was written since the transaction started. */
  ghost predicate UnchangedOrUnknown(t: Tracker) {
    t.values == Unknown || !t.changed
  }

  lemma UnseenRollbackToKeeps(t: Tracker, s: Session, i: nat)
    requires Inv(t, s) && s.status in {InTransaction, InError}
    requires i < |s.savepoints| && MayDrop(Look(t, s).savepoints, s, i, true)
    requires UnchangedOrUnknown(Look(t, s))
    ensures Inv(t, RollbackToSavepoint(s, i))
  {
    var t' := Look(t, s);
    UnnoticedMayGo(t', t'.savepoints, s.savepoints, s.start, i + 1);
    AgreesAtEach(t', t'.savepoints, s.savepoints, s.start, i);
  }

  /** Going back past the cursor, to any savepoint, is harmless as long as it drops no namesake. */
  ghost predicate MayGoBackUnseen(t: Tracker, s: Session) {
    forall i :: 0 <= i < |s.savepoints| && MayDrop(t.savepoints, s, i, true) ==> Inv(t, RollbackToSavepoint(s, i))
  }

  ghost function WithSavepoints(s: Session, p: seq<Savepoint>): Session {
    s.(savepoints := p)
  }

  /** The exact condition: whatever savepoints the session may hold, going back to one of them unseen
      keeps the tracker sound if and only if it believes nothing written during the transaction. */
  lemma MayGoBackUnseenIff(t: Tracker, s: Session)
    requires Inv(t, s) && t == Look(t, s) && s.status == InTransaction
    ensures (forall p :: Inv(t, WithSavepoints(s, p)) ==> MayGoBackUnseen(t, WithSavepoints(s, p)))
            <==> UnchangedOrUnknown(t)
  {
    if UnchangedOrUnknown(t) {
      forall p: seq<Savepoint>, i: nat | Inv(t, WithSavepoints(s, p)) && i < |p|
                                         && MayDrop(t.savepoints, WithSavepoints(s, p), i, true)
        ensures Inv(t, RollbackToSavepoint(WithSavepoints(s, p), i))
      {
        UnseenRollbackToKeeps(t, WithSavepoints(s, p), i);
      }
    } else {
      var other := if s.shown == CLEARED then ADMIN_GUCS else CLEARED;
      var last := Savepoint(FreshName(t.savepoints), other, s.kept, 0);
      var p := s.savepoints + [last];
      UnseenOneMore(t, t.savepoints, s.savepoints, s.start, last);
      var s2 := WithSavepoints(s, p);
      assert Inv(t, s2);
      assert MayDrop(t.savepoints, s2, |s.savepoints|, true);
      assert !Inv(t, RollbackToSavepoint(s2, |s.savepoints|));
      assert !MayGoBackUnseen(t, s2);
    }
  }

  /** A name longer than every tracked one. */
  ghost function FreshName(e: seq<Entry>): (name: string)
    ensures !Follows(e, name)
    ensures forall k :: 0 <= k < |e| ==> |e[k].name| < |name|
  {
    if e == [] then ""
    else
      var n := |e| - 1;
      assert forall k :: 0 <= k < n ==> e[..n][k] == e[k];
      FreshName(e[..n]) + e[n].name + "s"
  }
}
