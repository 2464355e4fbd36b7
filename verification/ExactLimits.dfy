/** The guard's limits on savepoints and on interrupted ends of transactions are exact: past them, some run
    within the limits shows a statement what it must not see. */
module ExactLimits {
  import opened Gucs
  import opened Sessions
  import opened Trackers
  import opened TrackerSoundness
  import opened Guard
  import opened GuardSoundness
  import opened Runs

  const FIRST := ForTenant("1")
  const SECOND := ForTenant("2")
  const QUIET := Faults(Fine, Fine, Fine, Fine, Fine)

  /** The statement is shown its context, or nothing. */
  predicate ShowsItsContext(c: Conn, active: Option<ContextGucs>, localMode: bool, q: Statement, f: Faults)
    requires c.session.Some?
  {
    !IsControl(q) && !RunsAsItIs(c, active, localMode, q) ==>
      var showed := GuardStep(c, active, localMode, q, f).showed;
      showed.Some? ==> showed.value == OnSession(active)
  }

  /** Each data statement of any task would be shown its own context. */
  ghost predicate ShowsContexts(c: Conn, localMode: bool) {
    c.session.Some? ==> forall active, q, f :: ShowsItsContext(c, active, localMode, q, f)
  }

  /** Whatever runs within the limits from here on, each statement is shown its own context. */
  ghost predicate SafeFrom(c: Conn, localMode: bool) {
    forall events :: LegalRun(c, events, localMode) ==> ShowsContexts(Run(c, events, localMode), localMode)
  }

  lemma SoundIsSafe(c: Conn, localMode: bool)
    requires ConnInv(c) && c.guarded
    ensures SafeFrom(c, localMode)
  {
    forall events | LegalRun(c, events, localMode)
      ensures ShowsContexts(Run(c, events, localMode), localMode)
    {
      RunKeeps(c, events, localMode);
      SoundShowsContexts(Run(c, events, localMode), localMode);
    }
  }

  lemma SoundShowsContexts(c: Conn, localMode: bool)
    requires ConnInv(c) && c.guarded
    ensures ShowsContexts(c, localMode)
  {
    if c.session.Some? {
      forall active: Option<ContextGucs>, q: Statement, f: Faults ensures ShowsItsContext(c, active, localMode, q, f) {
        SoundShowsItsContext(c, active, localMode, q, f);
      }
    }
  }

  lemma SoundShowsItsContext(c: Conn, active: Option<ContextGucs>, localMode: bool, q: Statement, f: Faults)
    requires c.session.Some? && ConnInv(c) && c.guarded
    ensures ShowsItsContext(c, active, localMode, q, f)
  {
    if !IsControl(q) && !RunsAsItIs(c, active, localMode, q) {
      GuardShowsActiveContext(c, active, localMode, q, f);
    }
  }

  /** One event within the limits, and a statement that is shown something else. */
  lemma MisledIsNotSafe(c: Conn, e: Event, active: Option<ContextGucs>, localMode: bool)
    requires Legal(c, e) && Step(c, e, localMode).conn.session.Some?
    requires !ShowsItsContext(Step(c, e, localMode).conn, active, localMode, Data(false), QUIET)
    ensures !SafeFrom(c, localMode)
  {
    var events := [e];
    assert events[..0] == [];
    assert Run(c, events, localMode) == Step(c, e, localMode).conn;
    assert LegalRun(c, events, localMode);
    assert !ShowsContexts(Run(c, events, localMode), localMode);
  }

  // ---- Chained ends ----

  predicate EndsTransaction(q: Statement) {
    q.CommitTransaction? || q.RollbackTransaction? || q.PrepareTransaction?
  }

  /** A transaction that was begun anew, and a tracker that takes another value for its start. */
  lemma WrongStartIsNotSafe(c: Conn, localMode: bool)
    requires c.session.Some? && c.session.value.status == InTransaction && !c.needsRollback
    requires c.tracker == Look(c.tracker, c.session.value) && !Sound(c.tracker.base, c.session.value.start)
    ensures !SafeFrom(c, localMode)
  {
    var e := Event.Statement(None, RollbackTransaction(true), QUIET);
    var s := Begin(Rollback(c.session.value));
    var t := Look(EndTransaction(c.tracker, Some(false)), s);
    assert Step(c, e, localMode).conn == c.(session := Some(s), tracker := t);
    assert t.values == c.tracker.base && s.shown == c.session.value.start;
    assert Look(t, s) == t;
    MisledIsNotSafe(c, e, c.tracker.base.gucs, localMode);
  }

  /** The exact condition: an end of the transaction, chained or not, done, failed or interrupted, is
      harmless in every run that follows, if and only if it is no interrupted `COMMIT AND CHAIN` that keeps
      something else than the tracker takes for the start of the transaction. */
  lemma EndIsSafeIff(c: Conn, active: Option<ContextGucs>, q: Statement, f: Faults, localMode: bool)
    requires c.session.Some? && ConnInv(c) && c.guarded && EndsTransaction(q)
    ensures SafeFrom(GuardStep(c, active, localMode, q, f).conn, localMode) <==>
              !(q == CommitTransaction(true) && f.statement == Interrupted && TakesEffect(c, q, Interrupted)
                && !StartsAsItIsKept(c))
  {
    if StatementAllowed(c, q, f.statement) {
      GuardKeeps(c, active, localMode, q, f);
      SoundIsSafe(GuardStep(c, active, localMode, q, f).conn, localMode);
    } else {
      var s, t := c.session.value, Look(c.tracker, c.session.value);
      var c' := GuardStep(c, active, localMode, q, f).conn;
      assert c' == c.(session := Some(Begin(Commit(s))), tracker := Forget(t));
      WrongStartIsNotSafe(c', localMode);
    }
  }

  // ---- Savepoints ----

  predicate OfSavepoints(q: Statement) {
    q.SetSavepointNamed? || q.ReleaseNamed? || q.RollbackToNamed?
  }

  /** The same savepoints by name, on a connection in the same state. */
  ghost predicate SameNames(c: Conn, c': Conn)
    requires c.session.Some?
  {
    && SameSetup(c, c') && c'.session.Some? && c'.session.value.status == c.session.value.status
    && var s, s' := c.session.value, c'.session.value;
    && var e, e' := Look(c.tracker, s).savepoints, Look(c'.tracker, s').savepoints;
    && |s'.savepoints| == |s.savepoints| && |e'| == |e|
    && (forall i :: 0 <= i < |s.savepoints| ==> s'.savepoints[i].name == s.savepoints[i].name)
    && (forall j :: 0 <= j < |e| ==> e'[j].name == e[j].name)
  }

  lemma {:induction false} NewestByName(p: seq<Savepoint>, p': seq<Savepoint>, name: string)
    requires |p'| == |p| && forall i :: 0 <= i < |p| ==> p'[i].name == p[i].name
    ensures NewestSavepoint(p', name) == NewestSavepoint(p, name)
  {
    if p != [] {
      NewestByName(p[..|p| - 1], p'[..|p| - 1], name);
    }
  }

  lemma FollowsByName(e: seq<Entry>, e': seq<Entry>, name: string)
    requires |e'| == |e| && forall j :: 0 <= j < |e| ==> e'[j].name == e[j].name
    ensures Follows(e', name) <==> Follows(e, name)
  {
    if k :| 0 <= k < |e| && e[k].name == name {
      assert e'[k].name == name;
    }
    if k :| 0 <= k < |e'| && e'[k].name == name {
      assert e[k].name == name;
    }
  }

  lemma NamesakesByName(e: seq<Entry>, e': seq<Entry>, p: seq<Savepoint>, p': seq<Savepoint>, cut: nat)
    requires |e'| == |e| && forall j :: 0 <= j < |e| ==> e'[j].name == e[j].name
    requires |p'| == |p| && forall i :: 0 <= i < |p| ==> p'[i].name == p[i].name
    requires LeavesNoNamesake(e, p, cut)
    ensures LeavesNoNamesake(e', p', cut)
  {
    forall i, k | 0 <= i < cut <= k < |p'| && p'[i].name == p'[k].name ensures !Follows(e', p'[k].name) {
      FollowsByName(e, e', p[k].name);
      assert p[i].name == p[k].name;
    }
  }

  lemma EffectByName(s: Session, s': Session, q: Statement)
    requires OfSavepoints(q) && s'.status == s.status
    requires NewestSavepoint(s'.savepoints, q.name) == NewestSavepoint(s.savepoints, q.name)
    ensures Effect(s', q).Some? <==> Effect(s, q).Some?
  {
  }

  lemma TakesEffectByName(c: Conn, c': Conn, q: Statement, fault: Fault)
    requires c.session.Some? && SameNames(c, c') && OfSavepoints(q)
    ensures TakesEffect(c', q, fault) == TakesEffect(c, q, fault)
  {
    NewestByName(c.session.value.savepoints, c'.session.value.savepoints, q.name);
    EffectByName(Opened(c), Opened(c'), q);
  }

  /** What the limits allow of savepoints depends on names only. */
  lemma AllowedByName(c: Conn, c': Conn, q: Statement, fault: Fault)
    requires c.session.Some? && SameNames(c, c') && OfSavepoints(q) && StatementAllowed(c, q, fault)
    ensures StatementAllowed(c', q, fault)
  {
    TakesEffectByName(c, c', q, fault);
    if TakesEffect(c, q, fault) {
      var p, p' := c.session.value.savepoints, c'.session.value.savepoints;
      var e, e' := Look(c.tracker, c.session.value).savepoints, Look(c'.tracker, c'.session.value).savepoints;
      FollowsByName(e, e', q.name);
      NewestByName(p, p', q.name);
      var i := NewestSavepoint(p, q.name);
      if i.Some? {
        var cut := if q.RollbackToNamed? then i.value + 1 else i.value;
        if LeavesNoNamesake(e, p, cut) {
          NamesakesByName(e, e', p, p', cut);
        }
      }
    }
  }

  // ---- Other values under the same names ----

  /** The same savepoints; the one at `i` holds one tenant, the others another. */
  function Relabelled(p: seq<Savepoint>, i: nat): (p': seq<Savepoint>)
    ensures |p'| == |p| && forall k :: 0 <= k < |p| ==> p'[k].name == p[k].name
  {
    seq(|p|, k requires 0 <= k < |p| =>
      if k == i then Savepoint(p[k].name, FIRST, FIRST, 0) else Savepoint(p[k].name, SECOND, SECOND, 0))
  }

  /** The same tracked ones; only of the one at `j` anything is believed. */
  function Believing(e: seq<Entry>, j: nat): (e': seq<Entry>)
    ensures |e'| == |e| && forall k :: 0 <= k < |e| ==> e'[k].name == e[k].name
  {
    seq(|e|, k requires 0 <= k < |e| => Entry(e[k].name, if k == j then Known(Some(SECOND)) else Unknown))
  }

  function Written(id: nat, e: seq<Entry>): Tracker {
    Tracker(Some(id), Unknown, true, Known(None), true, false, true, e)
  }

  lemma HasByName(p: seq<Savepoint>, p': seq<Savepoint>, name: string)
    requires |p'| == |p| && forall k :: 0 <= k < |p| ==> p'[k].name == p[k].name
    ensures HasSavepoint(p', name) <==> HasSavepoint(p, name)
  {
    if k :| 0 <= k < |p| && p[k].name == name {
      assert p'[k].name == name;
    }
    if k :| 0 <= k < |p'| && p'[k].name == name {
      assert p[k].name == name;
    }
  }

  /** `j` is the newest tracked one of its name, and the session has a newer one of that name than `i`. */
  ghost predicate IsMisled(e: seq<Entry>, j: nat, p: seq<Savepoint>, i: nat) {
    && j < |e| && (forall k :: j < k < |e| ==> e[k].name != e[j].name)
    && (i < |p| ==> exists k :: i < k < |p| && p[k].name == e[j].name)
  }

  lemma MatchedOneMore(t: Tracker, e: seq<Entry>, top: Entry, p: seq<Savepoint>, last: Savepoint, start: ContextGucs)
    requires InStep(t, e, p, start) && top.name == last.name && Agrees(t, top.values, last.shown, last.kept, start)
    ensures InStep(t, e + [top], p + [last], start)
  {
    assert (e + [top])[..|e|] == e && (p + [last])[..|p|] == p;
  }

  lemma LeftOverOneMore(t: Tracker, e: seq<Entry>, top: Entry, p: seq<Savepoint>, start: ContextGucs)
    requires InStep(t, e, p, start) && !HasSavepoint(p, top.name)
    ensures InStep(t, e + [top], p, start)
  {
    assert (e + [top])[..|e|] == e;
    assert p != [] ==> p[|p| - 1].name != top.name;
  }

  /** Nothing is believed of the one at `i`. */
  lemma BelievesAnother(t: Tracker, e: seq<Entry>, j: nat, p: seq<Savepoint>, i: nat, m: nat, n: nat)
    requires IsMisled(e, j, p, i) && m < |e| && n < |p| && e[m].name == p[n].name
    requires j <= m ==> NoneFrom(p, n + 1, e[j].name)
    requires t.changed && t.wroteSession && !t.wroteLocal
    ensures Agrees(t, Believing(e, j)[m].values, Relabelled(p, i)[n].shown, Relabelled(p, i)[n].kept, CLEARED)
  {
    assert m == j ==> n != i;
  }

  lemma RelabelledMatch(t: Tracker, e: seq<Entry>, j: nat, p: seq<Savepoint>, i: nat, m: nat, n: nat)
    requires IsMisled(e, j, p, i) && m < |e| && n < |p| && e[m].name == p[n].name
    requires j <= m ==> NoneFrom(p, n + 1, e[j].name)
    requires t.changed && t.wroteSession && !t.wroteLocal
    requires InStep(t, Believing(e, j)[..m], Relabelled(p, i)[..n], CLEARED)
    ensures InStep(t, Believing(e, j)[..m + 1], Relabelled(p, i)[..n + 1], CLEARED)
  {
    var e', p' := Believing(e, j), Relabelled(p, i);
    BelievesAnother(t, e, j, p, i, m, n);
    assert e'[..m + 1] == e'[..m] + [e'[m]] && p'[..n + 1] == p'[..n] + [p'[n]];
    MatchedOneMore(t, e'[..m], e'[m], p'[..n], p'[n], CLEARED);
  }

  lemma RelabelledLeftOver(t: Tracker, e: seq<Entry>, j: nat, p: seq<Savepoint>, i: nat, m: nat, n: nat)
    requires m < |e| && n <= |p| && !HasSavepoint(p[..n], e[m].name)
    requires InStep(t, Believing(e, j)[..m], Relabelled(p, i)[..n], CLEARED)
    ensures InStep(t, Believing(e, j)[..m + 1], Relabelled(p, i)[..n], CLEARED)
  {
    var e', p' := Believing(e, j), Relabelled(p, i);
    assert e'[..m + 1] == e'[..m] + [e'[m]];
    HasByName(p[..n], p'[..n], e[m].name);
    LeftOverOneMore(t, e'[..m], e'[m], p'[..n], CLEARED);
  }

  lemma RelabelledUnseen(t: Tracker, e: seq<Entry>, j: nat, p: seq<Savepoint>, i: nat, m: nat, n: nat)
    requires m <= |e| && n < |p| && !Follows(e[..m], p[n].name)
    requires t.changed && t.wroteSession
    requires InStep(t, Believing(e, j)[..m], Relabelled(p, i)[..n], CLEARED)
    ensures InStep(t, Believing(e, j)[..m], Relabelled(p, i)[..n + 1], CLEARED)
  {
    var e', p' := Believing(e, j), Relabelled(p, i);
    assert p'[..n + 1] == p'[..n] + [p'[n]];
    FollowsByName(e[..m], e'[..m], p[n].name);
    UnseenOneMore(t, e'[..m], p'[..n], CLEARED, p'[n]);
  }

  /** What being in step means for the last of `n + 1` savepoints. */
  lemma LastInStep(t: Tracker, e: seq<Entry>, m: nat, p: seq<Savepoint>, n: nat, start: ContextGucs)
    requires m <= |e| && n < |p| && InStep(t, e[..m], p[..n + 1], start)
    ensures if m > 0 && e[m - 1].name == p[n].name then InStep(t, e[..m - 1], p[..n], start)
            else if m > 0 && !HasSavepoint(p[..n + 1], e[m - 1].name) then InStep(t, e[..m - 1], p[..n + 1], start)
            else !Follows(e[..m], p[n].name) && InStep(t, e[..m], p[..n], start)
  {
    assert p[..n + 1][..n] == p[..n];
    assert m > 0 ==> e[..m][..m - 1] == e[..m - 1];
  }

  ghost predicate NoneFrom(p: seq<Savepoint>, n: nat, name: string) {
    forall k :: n <= k < |p| ==> p[k].name != name
  }

  lemma NoneFromBefore(e: seq<Entry>, j: nat, p: seq<Savepoint>, i: nat, m: nat, n: nat)
    requires IsMisled(e, j, p, i) && m <= |e| && n < |p| && j < m && NoneFrom(p, n + 1, e[j].name)
    ensures j < m - 1 && e[m - 1].name == p[n].name ==> NoneFrom(p, n, e[j].name)
    ensures !Follows(e[..m], p[n].name) ==> NoneFrom(p, n, e[j].name)
  {
    assert e[..m][j].name == e[j].name;
  }

  lemma {:induction false} RelabelledInStep(t: Tracker, e: seq<Entry>, j: nat, p: seq<Savepoint>, i: nat,
                                            start: ContextGucs, m: nat, n: nat, t': Tracker)
    requires IsMisled(e, j, p, i) && m <= |e| && n <= |p| && InStep(t, e[..m], p[..n], start)
    requires j < m ==> NoneFrom(p, n, e[j].name)
    requires t'.changed && t'.wroteSession && !t'.wroteLocal
    ensures InStep(t', Believing(e, j)[..m], Relabelled(p, i)[..n], CLEARED)
    decreases m + n
  {
    if n > 0 {
      LastInStep(t, e, m, p, n - 1, start);
      if j < m {
        NoneFromBefore(e, j, p, i, m, n - 1);
      }
      if m > 0 && e[m - 1].name == p[n - 1].name {
        RelabelledInStep(t, e, j, p, i, start, m - 1, n - 1, t');
        RelabelledMatch(t', e, j, p, i, m - 1, n - 1);
      } else if m > 0 && !HasSavepoint(p[..n], e[m - 1].name) {
        RelabelledInStep(t, e, j, p, i, start, m - 1, n, t');
        RelabelledLeftOver(t', e, j, p, i, m - 1, n);
      } else {
        RelabelledInStep(t, e, j, p, i, start, m, n - 1, t');
        RelabelledUnseen(t', e, j, p, i, m, n - 1);
      }
    }
  }

  /** `c` with these values. */
  function Misleading(c: Conn, j: nat, i: nat): Conn
    requires c.session.Some?
  {
    var s := c.session.value;
    c.(session := Some(Session(s.id, s.status, FIRST, FIRST, CLEARED, Relabelled(s.savepoints, i), 0, 0)),
       tracker := Written(s.id, Believing(Look(c.tracker, s).savepoints, j)))
  }

  lemma MisleadingIsSound(c: Conn, j: nat, i: nat)
    requires c.session.Some? && ConnInv(c) && c.session.value.status in {InTransaction, InError}
    requires IsMisled(Look(c.tracker, c.session.value).savepoints, j, c.session.value.savepoints, i)
    ensures ConnInv(Misleading(c, j, i)) && SameNames(c, Misleading(c, j, i))
    ensures Look(Misleading(c, j, i).tracker, Misleading(c, j, i).session.value) == Misleading(c, j, i).tracker
  {
    var s, t := c.session.value, Look(c.tracker, c.session.value);
    var c' := Misleading(c, j, i);
    var e, p, e', p' := t.savepoints, s.savepoints, c'.tracker.savepoints, c'.session.value.savepoints;
    assert e[..|e|] == e && p[..|p|] == p && e'[..|e|] == e' && p'[..|p|] == p';
    RelabelledInStep(t, e, j, p, i, s.start, |e|, |p|, c'.tracker);
  }

  /** The tracker believes something else at the newest tracked savepoint of a name than the session's
      newest one holds. */
  lemma MisledByNameIsNotSafe(c: Conn, name: string, localMode: bool)
    requires c.session.Some? && c.session.value.status == InTransaction && !c.needsRollback
    requires c.tracker == Look(c.tracker, c.session.value) && !c.tracker.wroteLocal
    requires Follows(c.tracker.savepoints, name) && NewestSavepoint(c.session.value.savepoints, name).Some?
    requires c.tracker.savepoints[SavepointIndex(c.tracker.savepoints, name).value].values == Known(Some(SECOND))
    requires c.session.value.savepoints[NewestSavepoint(c.session.value.savepoints, name).value].shown == FIRST
    ensures !SafeFrom(c, localMode)
  {
    var e := Event.Statement(None, RollbackToNamed(name, true), QUIET);
    var s := RollbackToSavepoint(c.session.value, NewestSavepoint(c.session.value.savepoints, name).value);
    var t := FollowSavepointEnd(c.tracker, Some(name), true);
    assert Look(c.tracker, s) == c.tracker && Look(t, s) == t;
    assert Step(c, e, localMode).conn == c.(session := Some(s), tracker := t);
    assert "1"[0] != "2"[0];
    MisledIsNotSafe(c, e, Some(SECOND), localMode);
  }

  // ---- The limit on savepoints ----

  /** Whatever values the savepoints may hold, and whatever runs within the limits after `q`. */
  ghost predicate HarmlessByName(c: Conn, active: Option<ContextGucs>, q: Statement, f: Faults, localMode: bool)
    requires c.session.Some?
  {
    forall c' :: SameNames(c, c') && ConnInv(c') ==> SafeFrom(GuardStep(c', active, localMode, q, f).conn, localMode)
  }

  /** A savepoint set unnoticed, over a tracked one of its name. */
  lemma SetOverTracked(c: Conn, active: Option<ContextGucs>, q: Statement, f: Faults, localMode: bool)
    requires c.session.Some? && ConnInv(c) && c.guarded && q.SetSavepointNamed? && !StatementAllowed(c, q, f.statement)
    ensures !HarmlessByName(c, active, q, f, localMode)
  {
    var s, e := c.session.value, Look(c.tracker, c.session.value).savepoints;
    var j, i := SavepointIndex(e, q.name).value, |s.savepoints|;
    MisleadingIsSound(c, j, i);
    var c' := Misleading(c, j, i);
    var c1 := GuardStep(c', active, localMode, q, f).conn;
    var s1 := SetSavepoint(c'.session.value, q.name);
    assert c1 == c'.(session := Some(s1));
    assert s1.savepoints[..i] == c'.session.value.savepoints;
    SameIndex(e, c'.tracker.savepoints, q.name);
    MisledByNameIsNotSafe(c1, q.name, localMode);
  }

  lemma {:induction false} SameIndex(e: seq<Entry>, e': seq<Entry>, name: string)
    requires |e'| == |e| && forall k :: 0 <= k < |e| ==> e'[k].name == e[k].name
    ensures SavepointIndex(e', name) == SavepointIndex(e, name)
  {
    if e != [] {
      SameIndex(e[..|e| - 1], e'[..|e| - 1], name);
    }
  }

  /** A tracked savepoint dropped unnoticed, over an older one of its name. */
  lemma DroppedNamesake(c: Conn, active: Option<ContextGucs>, q: Statement, f: Faults, localMode: bool)
    requires c.session.Some? && ConnInv(c) && c.guarded && (q.ReleaseNamed? || q.RollbackToNamed?)
    requires !StatementAllowed(c, q, f.statement)
    ensures !HarmlessByName(c, active, q, f, localMode)
  {
    var p, e := c.session.value.savepoints, Look(c.tracker, c.session.value).savepoints;
    EndedSavepoint(c, q, f.statement);
    var at := NewestSavepoint(p, q.name).value;
    var cut := if q.RollbackToNamed? then at + 1 else at;
    assert !LeavesNoNamesake(e, p, cut);
    var low, high :| 0 <= low < cut <= high < |p| && p[low].name == p[high].name && Follows(e, p[high].name);
    var name := p[high].name;
    assert p[..cut][low].name == name;
    DroppedAbove(c, active, q, f, localMode, name, cut, high);
  }

  lemma DroppedAbove(c: Conn, active: Option<ContextGucs>, q: Statement, f: Faults, localMode: bool, name: string,
                     cut: nat, high: nat)
    requires c.session.Some? && ConnInv(c) && c.guarded && (q.ReleaseNamed? || q.RollbackToNamed?)
    requires TakesEffect(c, q, f.statement) && c.session.value.status in {InTransaction, InError}
    requires var p, e := c.session.value.savepoints, Look(c.tracker, c.session.value).savepoints;
             && (q.clear && f.statement == Fine ==> !Follows(e, q.name))
             && NewestSavepoint(p, q.name).Some?
             && cut == NewestSavepoint(p, q.name).value + (if q.RollbackToNamed? then 1 else 0)
             && cut <= high < |p| && p[high].name == name && Follows(e, name) && NewestSavepoint(p[..cut], name).Some?
    ensures !HarmlessByName(c, active, q, f, localMode)
  {
    var p, e := c.session.value.savepoints, Look(c.tracker, c.session.value).savepoints;
    var j, i := SavepointIndex(e, name).value, NewestSavepoint(p[..cut], name).value;
    MisleadingIsSound(c, j, i);
    var c' := Misleading(c, j, i);
    var p' := c'.session.value.savepoints;
    NamesAreSame(c, c', q, f.statement, name, cut);
    DropsTo(c', active, q, f, localMode);
    var c1 := GuardStep(c', active, localMode, q, f).conn;
    assert c1.session.value.savepoints == p'[..cut];
    assert Follows(c'.tracker.savepoints, name);
    DroppedIsMisled(c', c1, cut, name, localMode);
  }

  lemma NamesAreSame(c: Conn, c': Conn, q: Statement, fault: Fault, name: string, cut: nat)
    requires c.session.Some? && SameNames(c, c') && OfSavepoints(q) && cut <= |c.session.value.savepoints|
    requires c'.tracker == Look(c'.tracker, c'.session.value)
    ensures var p, e := c.session.value.savepoints, Look(c.tracker, c.session.value).savepoints;
            var p', e' := c'.session.value.savepoints, c'.tracker.savepoints;
            && TakesEffect(c', q, fault) == TakesEffect(c, q, fault)
            && (Follows(e', q.name) <==> Follows(e, q.name)) && (Follows(e', name) <==> Follows(e, name))
            && NewestSavepoint(p', q.name) == NewestSavepoint(p, q.name)
            && NewestSavepoint(p'[..cut], name) == NewestSavepoint(p[..cut], name)
            && SavepointIndex(e', name) == SavepointIndex(e, name)
  {
    var p, e := c.session.value.savepoints, Look(c.tracker, c.session.value).savepoints;
    var p', e' := c'.session.value.savepoints, c'.tracker.savepoints;
    TakesEffectByName(c, c', q, fault);
    FollowsByName(e, e', q.name);
    FollowsByName(e, e', name);
    NewestByName(p, p', q.name);
    NewestByName(p[..cut], p'[..cut], name);
    SameIndex(e, e', name);
  }

  /** The tracker follows nothing of an end it cannot follow. */
  lemma NotedEnd(t: Tracker, s: Session, raised: bool, q: Statement, before: Status)
    requires (q.ReleaseNamed? || q.RollbackToNamed?) && t == Look(t, s) && s.status == InTransaction && !t.wroteLocal
    requires q.clear && !raised ==> !Follows(t.savepoints, q.name)
    ensures Noted(t, Some(s), raised, q, before, false) in {t, Forget(t)}
  {
  }

  /** What such a statement leaves: the older savepoints, and every tracked one. */
  lemma DropsTo(c: Conn, active: Option<ContextGucs>, q: Statement, f: Faults, localMode: bool)
    requires c.session.Some? && Valid(c.session.value) && (q.ReleaseNamed? || q.RollbackToNamed?)
    requires TakesEffect(c, q, f.statement) && c.tracker == Look(c.tracker, c.session.value)
    requires c.session.value.status in {InTransaction, InError} && !c.tracker.wroteLocal
    requires q.clear && f.statement == Fine ==> !Follows(c.tracker.savepoints, q.name)
    ensures var s := c.session.value;
            var i := NewestSavepoint(s.savepoints, q.name);
            var c1 := GuardStep(c, active, localMode, q, f).conn;
            && i.Some? && c1.session == Some(EndSavepoint(s, i.value, q.RollbackToNamed?))
            && SameSetup(c, c1) && !c.needsRollback && c1.session.value.status == InTransaction
            && c1.tracker in {c.tracker, Forget(c.tracker)}
  {
    EndedSavepoint(c, q, f.statement);
    ControlStep(c, active, localMode, q, f);
    var sent := Execute(c, q, f.statement);
    assert Look(c.tracker, sent.session) == c.tracker;
    NotedEnd(c.tracker, sent.session, sent.raised, q, c.session.value.status);
  }

  /** The older savepoints and every tracked one are left. */
  lemma DroppedIsMisled(c: Conn, c1: Conn, cut: nat, name: string, localMode: bool)
    requires c.session.Some? && c1.session.Some? && cut <= |c.session.value.savepoints|
    requires c1.session.value.id == c.session.value.id && c1.session.value.status == InTransaction && !c1.needsRollback
    requires c1.session.value.savepoints == c.session.value.savepoints[..cut]
    requires c.tracker.raw == Some(c.session.value.id) && c.tracker.inTransaction && !c.tracker.wroteLocal
    requires c1.tracker in {c.tracker, Forget(c.tracker)}
    requires Follows(c.tracker.savepoints, name) && NewestSavepoint(c.session.value.savepoints[..cut], name).Some?
    requires c.tracker.savepoints[SavepointIndex(c.tracker.savepoints, name).value].values == Known(Some(SECOND))
    requires c.session.value.savepoints[NewestSavepoint(c.session.value.savepoints[..cut], name).value].shown == FIRST
    ensures !SafeFrom(c1, localMode)
  {
    assert Look(c1.tracker, c1.session.value) == c1.tracker;
    MisledByNameIsNotSafe(c1, name, localMode);
  }

  /** The exact limit: a statement on savepoints, done, failed or interrupted, is harmless whatever values
      they hold and whatever run within the limits follows, if and only if it can be followed, takes no
      effect, or leaves and sets no unnoticed namesake of a tracked savepoint. */
  lemma SavepointLimitIsExact(c: Conn, active: Option<ContextGucs>, q: Statement, f: Faults, localMode: bool)
    requires c.session.Some? && ConnInv(c) && c.guarded && OfSavepoints(q)
    ensures HarmlessByName(c, active, q, f, localMode) <==> StatementAllowed(c, q, f.statement)
  {
    if StatementAllowed(c, q, f.statement) {
      forall c' | SameNames(c, c') && ConnInv(c')
        ensures SafeFrom(GuardStep(c', active, localMode, q, f).conn, localMode)
      {
        AllowedByName(c, c', q, f.statement);
        GuardKeeps(c', active, localMode, q, f);
        SoundIsSafe(GuardStep(c', active, localMode, q, f).conn, localMode);
      }
    } else if q.SetSavepointNamed? {
      SetOverTracked(c, active, q, f, localMode);
    } else {
      DroppedNamesake(c, active, q, f, localMode);
    }
  }
}
