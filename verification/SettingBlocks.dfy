/** Blocks over any settings: `rls_context()`, `bypass_flag()` and the async entry. */
module SettingBlocks {
  import opened Gucs

  /** One entry of a mapping of names to values; names are distinct. */
  datatype Variable = Variable(name: string, value: string)

  predicate Distinct(vars: seq<Variable>) {
    forall i, j :: 0 <= i < j < |vars| ==> vars[i].name != vars[j].name
  }

  /** What statements see of the settings, and what a commit keeps. */
  datatype Values = Values(shown: map<string, string>, kept: map<string, string>)

  /** Equal settings, an unset one being as good as an empty one. */
  ghost predicate Same(m1: map<string, string>, m2: map<string, string>) {
    forall name :: ValueIn(m1, name) == ValueIn(m2, name)
  }

  function Set(v: Values, x: Variable, isLocal: bool): Values {
    Values(v.shown[x.name := x.value], if isLocal then v.kept else v.kept[x.name := x.value])
  }

  // ---- The connection, with what can fail ----

  /** What comes of one write: done; a database error, which may abort the transaction; any other
      exception, before or after the write took effect. */
  datatype WriteFault = Done | Refused(aborts: bool) | Broken(applied: bool)

  datatype Outcome = Written | DatabaseFailure | OtherFailure

  /** `accepts`: PostgreSQL runs statements; `marked`: Django refuses them until a rollback. */
  datatype Link = Link(values: Values, accepts: bool, inAtomic: bool, marked: bool)

  /** `set_guc` */
  function SetGuc(l: Link, x: Variable, isLocal: bool, fault: WriteFault): (Link, Outcome) {
    if isLocal && !l.inAtomic then (l, OtherFailure)
    else if l.marked || !l.accepts then (l, DatabaseFailure)
    else match fault
      case Done => (l.(values := Set(l.values, x, isLocal)), Written)
      case Refused(aborts) => (l.(accepts := !aborts), DatabaseFailure)
      case Broken(applied) => (if applied then l.(values := Set(l.values, x, isLocal)) else l, OtherFailure)
  }

  /** The values `get_guc` reads before a block, as `restore_guc` writes them back. */
  function Previous(vars: seq<Variable>, v: Values): (r: seq<Variable>)
    ensures |r| == |vars| && forall i :: 0 <= i < |r| ==>
              r[i] == Variable(vars[i].name, RestoredGuc(ReadGuc(ValueIn(v.shown, vars[i].name))))
  {
    seq(|vars|,
        i requires 0 <= i < |vars| => Variable(vars[i].name, RestoredGuc(ReadGuc(ValueIn(v.shown, vars[i].name)))))
  }

  datatype Progress = Progress(link: Link, restored: bool, raised: bool)

  /** The first `n` turns of the loop of `restore_gucs`. */
  function RestoreFirst(l: Link, previous: seq<Variable>, n: nat, isLocal: bool, excPending: bool,
                        faults: seq<WriteFault>): Progress
    requires n <= |previous| == |faults|
  {
    if n == 0 then Progress(l, true, false)
    else
      var before := RestoreFirst(l, previous, n - 1, isLocal, excPending, faults);
      if before.raised then before
      else
        var (link, outcome) := SetGuc(before.link, previous[n - 1], isLocal, faults[n - 1]);
        if outcome == Written then Progress(link, before.restored, false)
        else Progress(link, false, !(excPending && outcome == DatabaseFailure))
  }

  /** `restore_gucs` */
  function RestoreGucs(l: Link, previous: seq<Variable>, isLocal: bool, excPending: bool,
                       faults: seq<WriteFault>): Progress
    requires |previous| == |faults|
  {
    var r := RestoreFirst(l.(marked := false), previous, |previous|, isLocal, excPending, faults);
    r.(link := r.link.(marked := l.marked))
  }

  /** The first `n` writes of an entry, up to one that fails; `k`: how many were done. */
  datatype Writing = Writing(link: Link, k: nat, failed: bool)

  function WriteFirst(l: Link, vars: seq<Variable>, n: nat, isLocal: bool, faults: seq<WriteFault>): (r: Writing)
    requires n <= |vars| == |faults|
    ensures r.k <= n && (!r.failed ==> r.k == n) && (r.failed ==> r.k < n)
  {
    if n == 0 then Writing(l, 0, false)
    else
      var before := WriteFirst(l, vars, n - 1, isLocal, faults);
      if before.failed then before
      else
        var (link, outcome) := SetGuc(before.link, vars[n - 1], isLocal, faults[n - 1]);
        if outcome == Written then Writing(link, n, false) else Writing(link, n - 1, true)
  }

  /** `_enter_gucs`: the snapshot, or `None` when it raised. */
  function EnterGucs(l: Link, vars: seq<Variable>, isLocal: bool, faults: seq<WriteFault>, undo: seq<WriteFault>)
    : (Link, Option<seq<Variable>>)
    requires |vars| == |faults| == |undo|
  {
    if vars != [] && (l.marked || !l.accepts) then (l, None)
    else
      var previous := Previous(vars, l.values);
      var w := WriteFirst(l, vars, |vars|, isLocal, faults);
      if !w.failed then (w.link, Some(previous))
      else (RestoreGucs(w.link, previous[..w.k], isLocal, true, undo[..w.k]).link, None)
  }

  /** The entry of `rls_context()`: a failure restores every setting, written or not. */
  function EnterRlsContext(l: Link, vars: seq<Variable>, isLocal: bool, faults: seq<WriteFault>, undo: seq<WriteFault>)
    : (Link, Option<seq<Variable>>)
    requires |vars| == |faults| == |undo|
  {
    if vars != [] && (l.marked || !l.accepts) then (l, None)
    else
      var previous := Previous(vars, l.values);
      var w := WriteFirst(l, vars, |vars|, isLocal, faults);
      if !w.failed then (w.link, Some(previous))
      else (RestoreGucs(w.link, previous, isLocal, true, undo).link, None)
  }

  /** The entry of `bypass_flag()`: the write is not undone when it raises. */
  function EnterBypassFlag(l: Link, flag: string, isLocal: bool, fault: WriteFault): (Link, Option<seq<Variable>>) {
    if l.marked || !l.accepts then (l, None)
    else
      var (link, outcome) := SetGuc(l, Variable(flag, "true"), isLocal, fault);
      (link, if outcome == Written then Some(Previous([Variable(flag, "true")], l.values)) else None)
  }

  /** The connection as an object, whose settings the library writes one by one. */
  class SettingsConnection {
    var values: Values
    var accepts: bool
    var inAtomic: bool
    var marked: bool

    ghost function State(): Link
      reads this
    {
      Link(values, accepts, inAtomic, marked)
    }

    constructor (values: Values, inAtomic: bool)
      ensures State() == Link(values, true, inAtomic, false)
    {
      this.values, this.inAtomic := values, inAtomic;
      accepts, marked := true, false;
    }

    method SetOne(x: Variable, isLocal: bool, fault: WriteFault) returns (outcome: Outcome)
      modifies this
      ensures (State(), outcome) == SetGuc(old(State()), x, isLocal, fault)
    {
      if isLocal && !inAtomic {
        return OtherFailure;
      }
      if marked || !accepts {
        return DatabaseFailure;
      }
      match fault
      case Done =>
        values := Set(values, x, isLocal);
        return Written;
      case Refused(aborts) =>
        accepts := !aborts;
        return DatabaseFailure;
      case Broken(applied) =>
        if applied {
          values := Set(values, x, isLocal);
        }
        return OtherFailure;
    }

    /** Puts `marked` back on every path. */
    method Restore(previous: seq<Variable>, isLocal: bool, excPending: bool, faults: seq<WriteFault>)
      returns (restored: bool, raised: bool)
      requires |previous| == |faults|
      modifies this
      ensures Progress(State(), restored, raised) == RestoreGucs(old(State()), previous, isLocal, excPending, faults)
    {
      var wasMarked := marked;
      marked := false;
      restored, raised := true, false;
      var i := 0;
      while i < |previous| && !raised
        invariant 0 <= i <= |previous|
        invariant Progress(State(), restored, raised) ==
                    RestoreFirst(old(State()).(marked := false), previous, i, isLocal, excPending, faults)
        decreases |previous| - i, !raised
      {
        var outcome := SetOne(previous[i], isLocal, faults[i]);
        if outcome != Written {
          restored := false;
          raised := !(excPending && outcome == DatabaseFailure);
        }
        i := i + 1;
      }
      RaisedStays(old(State()).(marked := false), previous, i, |previous|, isLocal, excPending, faults);
      marked := wasMarked;
    }

    /** Writes the settings one by one until one fails; `done` holds what to restore of those changed. */
    method WriteEach(vars: seq<Variable>, snapshot: seq<Variable>, isLocal: bool, faults: seq<WriteFault>)
      returns (done: seq<Variable>, failed: bool)
      requires |vars| == |faults| == |snapshot|
      modifies this
      ensures |done| <= |vars| && done == snapshot[..|done|]
      ensures Writing(State(), |done|, failed) == WriteFirst(old(State()), vars, |vars|, isLocal, faults)
    {
      done, failed := [], false;
      while |done| < |vars| && !failed
        invariant |done| <= |vars| && done == snapshot[..|done|]
        invariant failed ==> |done| < |vars|
        invariant Writing(State(), |done|, failed) ==
                    WriteFirst(old(State()), vars, if failed then |done| + 1 else |done|, isLocal, faults)
        decreases |vars| - |done|, !failed
      {
        var outcome := SetOne(vars[|done|], isLocal, faults[|done|]);
        if outcome == Written {
          done := done + [snapshot[|done|]];
        } else {
          failed := true;
        }
      }
      if failed {
        FailedStays(old(State()), vars, |done| + 1, |vars|, isLocal, faults);
      }
    }

    /** `_enter_gucs` */
    method Enter(vars: seq<Variable>, isLocal: bool, faults: seq<WriteFault>, undo: seq<WriteFault>)
      returns (previous: Option<seq<Variable>>)
      requires |vars| == |faults| == |undo|
      modifies this
      ensures (State(), previous) == EnterGucs(old(State()), vars, isLocal, faults, undo)
    {
      if vars != [] && (marked || !accepts) {
        return None;
      }
      var snapshot := Previous(vars, values);
      var done, failed := WriteEach(vars, snapshot, isLocal, faults);
      if failed {
        var _, _ := Restore(done, isLocal, true, undo[..|done|]);
        return None;
      }
      return Some(snapshot);
    }

    /** The entry of `rls_context()`. */
    method EnterContext(vars: seq<Variable>, isLocal: bool, faults: seq<WriteFault>, undo: seq<WriteFault>)
      returns (previous: Option<seq<Variable>>)
      requires |vars| == |faults| == |undo|
      modifies this
      ensures (State(), previous) == EnterRlsContext(old(State()), vars, isLocal, faults, undo)
    {
      if vars != [] && (marked || !accepts) {
        return None;
      }
      var snapshot := Previous(vars, values);
      var _, failed := WriteEach(vars, snapshot, isLocal, faults);
      if failed {
        var _, _ := Restore(snapshot, isLocal, true, undo);
        return None;
      }
      return Some(snapshot);
    }

    /** The entry of `bypass_flag()`. */
    method EnterFlag(flag: string, isLocal: bool, fault: WriteFault) returns (previous: Option<seq<Variable>>)
      modifies this
      ensures (State(), previous) == EnterBypassFlag(old(State()), flag, isLocal, fault)
    {
      if marked || !accepts {
        return None;
      }
      var snapshot := Previous([Variable(flag, "true")], values);
      var outcome := SetOne(Variable(flag, "true"), isLocal, fault);
      previous := if outcome == Written then Some(snapshot) else None;
    }
  }

  lemma {:induction false} RaisedStays(l: Link, previous: seq<Variable>, i: nat, n: nat, isLocal: bool,
                                       excPending: bool, faults: seq<WriteFault>)
    requires i <= n <= |previous| == |faults|
    requires i < n ==> RestoreFirst(l, previous, i, isLocal, excPending, faults).raised
    ensures RestoreFirst(l, previous, n, isLocal, excPending, faults) ==
              RestoreFirst(l, previous, i, isLocal, excPending, faults)
  {
    if i < n {
      RaisedStays(l, previous, i, n - 1, isLocal, excPending, faults);
    }
  }

  lemma {:induction false} FailedStays(l: Link, vars: seq<Variable>, i: nat, n: nat, isLocal: bool,
                                       faults: seq<WriteFault>)
    requires i <= n <= |vars| == |faults|
    requires WriteFirst(l, vars, i, isLocal, faults).failed
    ensures WriteFirst(l, vars, n, isLocal, faults) == WriteFirst(l, vars, i, isLocal, faults)
  {
    if i < n {
      FailedStays(l, vars, i, n - 1, isLocal, faults);
    }
  }

  // ---- What a restore promises ----

  /** The settings named in the first `n` of `vars` have those values, the others those of `v`. */
  ghost predicate Holds(m: map<string, string>, vars: seq<Variable>, n: nat, before: map<string, string>)
    requires n <= |vars|
  {
    && (forall i :: 0 <= i < n ==> ValueIn(m, vars[i].name) == vars[i].value)
    && (forall name :: (forall i :: 0 <= i < n ==> vars[i].name != name) ==> ValueIn(m, name) == ValueIn(before, name))
  }

  function SetAll(v: Values, vars: seq<Variable>, isLocal: bool): Values {
    if vars == [] then v else Set(SetAll(v, vars[..|vars| - 1], isLocal), vars[|vars| - 1], isLocal)
  }

  lemma OneMoreHolds(m: map<string, string>, vars: seq<Variable>, n: nat, before: map<string, string>)
    requires n < |vars| && Distinct(vars) && Holds(m, vars, n, before)
    ensures Holds(m[vars[n].name := vars[n].value], vars, n + 1, before)
  {
  }

  lemma LongerHolds(m: map<string, string>, vars: seq<Variable>, n: nat, before: map<string, string>)
    requires n <= |vars| && Holds(m, vars[..n], n, before)
    ensures Holds(m, vars, n, before)
  {
    assert forall i :: 0 <= i < n ==> vars[..n][i] == vars[i];
  }

  lemma {:induction false} SetAllHolds(v: Values, vars: seq<Variable>, isLocal: bool)
    requires Distinct(vars)
    ensures var v' := SetAll(v, vars, isLocal);
            && Holds(v'.shown, vars, |vars|, v.shown)
            && (if isLocal then v'.kept == v.kept else Holds(v'.kept, vars, |vars|, v.kept))
  {
    if vars != [] {
      var n := |vars| - 1;
      SetAllHolds(v, vars[..n], isLocal);
      var before := SetAll(v, vars[..n], isLocal);
      LongerHolds(before.shown, vars, n, v.shown);
      OneMoreHolds(before.shown, vars, n, v.shown);
      if !isLocal {
        LongerHolds(before.kept, vars, n, v.kept);
        OneMoreHolds(before.kept, vars, n, v.kept);
      }
    }
  }

  lemma {:induction false} RestoreLeavesTheRest(l: Link, previous: seq<Variable>, n: nat, isLocal: bool,
                                                excPending: bool, faults: seq<WriteFault>)
    requires n <= |previous| == |faults|
    ensures var r := RestoreFirst(l, previous, n, isLocal, excPending, faults);
            && r.link.marked == l.marked && r.link.inAtomic == l.inAtomic
            && (isLocal ==> r.link.values.kept == l.values.kept)
            && (r.restored ==> !r.raised && r.link.accepts == l.accepts && forall i :: 0 <= i < n ==> faults[i] == Done)
            && (r.restored && n > 0 ==> l.accepts && !l.marked && (isLocal ==> l.inAtomic))
            && (!r.restored && !r.raised ==> excPending)
  {
    if n > 0 {
      RestoreLeavesTheRest(l, previous, n - 1, isLocal, excPending, faults);
    }
  }

  /** A restore that reports success has written every setting. */
  lemma {:induction false} RestoredIsSetAll(l: Link, previous: seq<Variable>, n: nat, isLocal: bool, excPending: bool,
                                            faults: seq<WriteFault>)
    requires n <= |previous| == |faults|
    requires RestoreFirst(l, previous, n, isLocal, excPending, faults).restored
    ensures RestoreFirst(l, previous, n, isLocal, excPending, faults).link.values ==
              SetAll(l.values, previous[..n], isLocal)
  {
    if n > 0 {
      RestoreLeavesTheRest(l, previous, n - 1, isLocal, excPending, faults);
      RestoredIsSetAll(l, previous, n - 1, isLocal, excPending, faults);
      assert previous[..n][..n - 1] == previous[..n - 1];
    }
  }

  /** Where the session accepts statements and no write fails, a restore is complete. */
  lemma {:induction false} HealthyRestore(l: Link, previous: seq<Variable>, n: nat, isLocal: bool, excPending: bool,
                                          faults: seq<WriteFault>)
    requires n <= |previous| == |faults|
    requires l.accepts && !l.marked && (isLocal ==> l.inAtomic) && forall i :: 0 <= i < n ==> faults[i] == Done
    ensures var r := RestoreFirst(l, previous, n, isLocal, excPending, faults);
            r.restored && r.link.accepts && !r.link.marked && r.link.inAtomic == l.inAtomic
  {
    if n > 0 {
      HealthyRestore(l, previous, n - 1, isLocal, excPending, faults);
    }
  }

  /** `True` exactly when the session accepted every write; whatever happens, the rollback mark is
      as it was, and it stops no write. */
  lemma RestoreReportsTheTruth(l: Link, previous: seq<Variable>, isLocal: bool, excPending: bool,
                               faults: seq<WriteFault>)
    requires |previous| == |faults| && Distinct(previous) && previous != []
    ensures var r := RestoreGucs(l, previous, isLocal, excPending, faults);
            && r.link.marked == l.marked
            && (r.restored <==>
                  l.accepts && (isLocal ==> l.inAtomic) && forall i :: 0 <= i < |previous| ==> faults[i] == Done)
            && (r.restored ==> Holds(r.link.values.shown, previous, |previous|, l.values.shown))
            && (!r.restored && !r.raised ==> excPending)
  {
    var lifted := l.(marked := false);
    RestoreLeavesTheRest(lifted, previous, |previous|, isLocal, excPending, faults);
    if RestoreFirst(lifted, previous, |previous|, isLocal, excPending, faults).restored {
      RestoredIsSetAll(lifted, previous, |previous|, isLocal, excPending, faults);
      assert previous[..|previous|] == previous;
      SetAllHolds(l.values, previous, isLocal);
    }
    if l.accepts && (isLocal ==> l.inAtomic) && forall i :: 0 <= i < |previous| ==> faults[i] == Done {
      HealthyRestore(lifted, previous, |previous|, isLocal, excPending, faults);
    }
  }

  // ---- A failed entry ----

  /** The write was sent, and took effect, before it raised. */
  predicate TookEffect(l: Link, isLocal: bool, fault: WriteFault) {
    fault == Broken(true) && !l.marked && l.accepts && (isLocal ==> l.inAtomic)
  }

  /** The writes done before the one that failed, and that one if it took effect, have changed settings. */
  lemma {:induction false} WrittenFirst(l: Link, vars: seq<Variable>, n: nat, isLocal: bool, faults: seq<WriteFault>)
    requires n <= |vars| == |faults|
    ensures var w := WriteFirst(l, vars, n, isLocal, faults);
            var written := SetAll(l.values, vars[..w.k], isLocal);
            && w.link.marked == l.marked && w.link.inAtomic == l.inAtomic
            && (w.k > 0 ==> !l.marked && l.accepts && (isLocal ==> l.inAtomic))
            && w.link.values ==
                (if w.failed && TookEffect(l, isLocal, faults[w.k]) then Set(written, vars[w.k], isLocal) else written)
            && (!w.failed ==> w.link.accepts == l.accepts)
  {
    if n > 0 {
      WrittenFirst(l, vars, n - 1, isLocal, faults);
      assert vars[..n][..n - 1] == vars[..n - 1];
    }
  }

  /** The write that failed has left another value behind. */
  predicate LeavesAValue(l: Link, vars: seq<Variable>, isLocal: bool, faults: seq<WriteFault>)
    requires |vars| == |faults|
  {
    var w := WriteFirst(l, vars, |vars|, isLocal, faults);
    w.failed && TookEffect(l, isLocal, faults[w.k]) && ValueIn(l.values.shown, vars[w.k].name) != vars[w.k].value
  }

  lemma RestoredHolds(l: Link, previous: seq<Variable>, isLocal: bool, excPending: bool, faults: seq<WriteFault>)
    requires |previous| == |faults| && Distinct(previous)
    requires RestoreGucs(l, previous, isLocal, excPending, faults).restored
    ensures var v := RestoreGucs(l, previous, isLocal, excPending, faults).link.values;
            v == SetAll(l.values, previous, isLocal) && Holds(v.shown, previous, |previous|, l.values.shown)
  {
    var lifted := l.(marked := false);
    RestoredIsSetAll(lifted, previous, |previous|, isLocal, excPending, faults);
    assert previous[..|previous|] == previous;
    SetAllHolds(l.values, previous, isLocal);
  }

  /** A setting among the first `k`, or none of `vars`, once those are put back. */
  lemma OtherIsBack(vars: seq<Variable>, k: nat, before: map<string, string>, written: map<string, string>,
                    inside: map<string, string>, left: map<string, string>, done: seq<Variable>, name: string)
    requires Distinct(vars) && k < |vars| && |done| == k && name != vars[k].name
    requires forall i :: 0 <= i < k ==> done[i] == Variable(vars[i].name, ValueIn(before, vars[i].name))
    requires Holds(written, vars, k, before) && Holds(left, done, k, inside)
    requires ValueIn(inside, name) == ValueIn(written, name)
    ensures ValueIn(left, name) == ValueIn(before, name)
  {
    if i :| 0 <= i < k && vars[i].name == name {
      assert done[i].name == name;
    } else {
      assert forall i :: 0 <= i < k ==> done[i].name != name;
    }
  }

  lemma FailedIsBack(vars: seq<Variable>, k: nat, before: map<string, string>, written: map<string, string>,
                     inside: map<string, string>, left: map<string, string>, done: seq<Variable>)
    requires Distinct(vars) && k < |vars| && |done| == k
    requires forall i :: 0 <= i < k ==> done[i] == Variable(vars[i].name, ValueIn(before, vars[i].name))
    requires Holds(written, vars, k, before) && Holds(left, done, k, inside)
    ensures ValueIn(left, vars[k].name) == ValueIn(inside, vars[k].name)
    ensures ValueIn(written, vars[k].name) == ValueIn(before, vars[k].name)
  {
    assert forall i :: 0 <= i < k ==> done[i].name != vars[k].name;
  }

  /** The undo of the first `k` settings reported success: they have their values back, whatever the
      write after them did; the others are as they were, but for the one that write was of. */
  lemma UndoneFirst(l: Link, vars: seq<Variable>, isLocal: bool, faults: seq<WriteFault>, undo: seq<WriteFault>)
    requires |vars| == |faults| == |undo| && Distinct(vars) && WriteFirst(l, vars, |vars|, isLocal, faults).failed
    requires var w := WriteFirst(l, vars, |vars|, isLocal, faults);
             RestoreGucs(w.link, Previous(vars, l.values)[..w.k], isLocal, true, undo[..w.k]).restored
    ensures var w := WriteFirst(l, vars, |vars|, isLocal, faults);
            var v := RestoreGucs(w.link, Previous(vars, l.values)[..w.k], isLocal, true, undo[..w.k]).link.values;
            && (forall name :: name != vars[w.k].name ==> ValueIn(v.shown, name) == ValueIn(l.values.shown, name))
            && ValueIn(v.shown, vars[w.k].name) ==
                 if TookEffect(l, isLocal, faults[w.k]) then vars[w.k].value
                 else ValueIn(l.values.shown, vars[w.k].name)
  {
    var w := WriteFirst(l, vars, |vars|, isLocal, faults);
    var done := Previous(vars, l.values)[..w.k];
    var written, inside := SetAll(l.values, vars[..w.k], isLocal).shown, w.link.values.shown;
    var left := RestoreGucs(w.link, done, isLocal, true, undo[..w.k]).link.values.shown;
    UndoneHolds(l, vars, isLocal, faults, undo);
    FailedIsBack(vars, w.k, l.values.shown, written, inside, left, done);
    forall name | name != vars[w.k].name ensures ValueIn(left, name) == ValueIn(l.values.shown, name) {
      OtherIsBack(vars, w.k, l.values.shown, written, inside, left, done, name);
    }
  }

  lemma UndoneHolds(l: Link, vars: seq<Variable>, isLocal: bool, faults: seq<WriteFault>, undo: seq<WriteFault>)
    requires |vars| == |faults| == |undo| && Distinct(vars) && WriteFirst(l, vars, |vars|, isLocal, faults).failed
    requires var w := WriteFirst(l, vars, |vars|, isLocal, faults);
             RestoreGucs(w.link, Previous(vars, l.values)[..w.k], isLocal, true, undo[..w.k]).restored
    ensures var w := WriteFirst(l, vars, |vars|, isLocal, faults);
            var done := Previous(vars, l.values)[..w.k];
            var written, inside := SetAll(l.values, vars[..w.k], isLocal).shown, w.link.values.shown;
            && Holds(written, vars, w.k, l.values.shown)
            && Holds(RestoreGucs(w.link, done, isLocal, true, undo[..w.k]).link.values.shown, done, w.k, inside)
            && inside == if TookEffect(l, isLocal, faults[w.k]) then written[vars[w.k].name := vars[w.k].value]
            else written
  {
    var w := WriteFirst(l, vars, |vars|, isLocal, faults);
    WrittenFirst(l, vars, |vars|, isLocal, faults);
    SetAllHolds(l.values, vars[..w.k], isLocal);
    LongerHolds(SetAll(l.values, vars[..w.k], isLocal).shown, vars, w.k, l.values.shown);
    RestoredHolds(w.link, Previous(vars, l.values)[..w.k], isLocal, true, undo[..w.k]);
  }

  /** When the `k`th write of an entry fails where the session still accepts statements, the first
      `k - 1` settings are restored in every case; and every setting is what it was if and only if the
      failed write did not take effect, or wrote the value there was. */
  lemma FailedEntryUndoesIff(l: Link, vars: seq<Variable>, isLocal: bool, faults: seq<WriteFault>,
                             undo: seq<WriteFault>)
    requires |vars| == |faults| == |undo| && Distinct(vars) && !l.marked && l.accepts
    requires forall i :: 0 <= i < |undo| ==> undo[i] == Done
    requires WriteFirst(l, vars, |vars|, isLocal, faults).failed
    requires WriteFirst(l, vars, |vars|, isLocal, faults).link.accepts
    ensures var (l', previous) := EnterGucs(l, vars, isLocal, faults, undo);
            && previous.None? && l'.marked == l.marked
            && (forall i :: 0 <= i < WriteFirst(l, vars, |vars|, isLocal, faults).k ==>
                  ValueIn(l'.values.shown, vars[i].name) == ValueIn(l.values.shown, vars[i].name))
            && (Same(l'.values.shown, l.values.shown) <==> !LeavesAValue(l, vars, isLocal, faults))
  {
    var w := WriteFirst(l, vars, |vars|, isLocal, faults);
    var done := Previous(vars, l.values)[..w.k];
    WrittenFirst(l, vars, |vars|, isLocal, faults);
    if w.k > 0 {
      HealthyRestore(w.link.(marked := false), done, w.k, isLocal, true, undo[..w.k]);
    }
    UndoneFirst(l, vars, isLocal, faults, undo);
  }

  /** The settings not in `vars` are untouched, whatever fails. */
  lemma {:induction false} OthersUntouched(l: Link, vars: seq<Variable>, n: nat, isLocal: bool, faults: seq<WriteFault>,
                                           name: string)
    requires n <= |vars| == |faults| && forall i :: 0 <= i < n ==> vars[i].name != name
    ensures ValueIn(WriteFirst(l, vars, n, isLocal, faults).link.values.shown, name) == ValueIn(l.values.shown, name)
  {
    if n > 0 {
      OthersUntouched(l, vars, n - 1, isLocal, faults, name);
    }
  }

  /** A restore of all settings that reported success undoes whatever the writes did. */
  lemma UndoneAll(l: Link, vars: seq<Variable>, isLocal: bool, faults: seq<WriteFault>, undo: seq<WriteFault>)
    requires |vars| == |faults| == |undo| && Distinct(vars)
    requires RestoreGucs(WriteFirst(l, vars, |vars|, isLocal, faults).link, Previous(vars, l.values), isLocal, true,
                         undo).restored
    ensures Same(RestoreGucs(WriteFirst(l, vars, |vars|, isLocal, faults).link, Previous(vars, l.values), isLocal, true,
                             undo).link.values.shown,
                 l.values.shown)
  {
    var w, previous := WriteFirst(l, vars, |vars|, isLocal, faults), Previous(vars, l.values);
    RestoredHolds(w.link, previous, isLocal, true, undo);
    var v := RestoreGucs(w.link, previous, isLocal, true, undo).link.values;
    forall name ensures ValueIn(v.shown, name) == ValueIn(l.values.shown, name) {
      if i :| 0 <= i < |vars| && vars[i].name == name {
        assert previous[i].name == name;
      } else {
        assert forall i :: 0 <= i < |previous| ==> previous[i].name != name;
        OthersUntouched(l, vars, |vars|, isLocal, faults, name);
      }
    }
  }

  /** A failed entry of `rls_context()` is undone also where the write that raised took effect. */
  lemma FailedRlsContextUndoes(l: Link, vars: seq<Variable>, isLocal: bool, faults: seq<WriteFault>,
                               undo: seq<WriteFault>)
    requires |vars| == |faults| == |undo| && Distinct(vars) && (isLocal ==> l.inAtomic)
    requires forall i :: 0 <= i < |undo| ==> undo[i] == Done
    requires WriteFirst(l, vars, |vars|, isLocal, faults).link.accepts
    ensures var (l', previous) := EnterRlsContext(l, vars, isLocal, faults, undo);
            previous.None? ==> Same(l'.values.shown, l.values.shown) && l'.marked == l.marked
  {
    var w := WriteFirst(l, vars, |vars|, isLocal, faults);
    WrittenFirst(l, vars, |vars|, isLocal, faults);
    if EnterRlsContext(l, vars, isLocal, faults, undo).1.None?
       && EnterRlsContext(l, vars, isLocal, faults, undo).0 != l {
      HealthyRestore(w.link.(marked := false), Previous(vars, l.values), |vars|, isLocal, true, undo);
      UndoneAll(l, vars, isLocal, faults, undo);
    }
  }

  /** An entry of `bypass_flag()` that raises leaves the settings as they were, unless it was
      interrupted once the flag was set: the flag then stays, without a block to take it off. */
  lemma FailedBypassFlagIff(l: Link, flag: string, isLocal: bool, fault: WriteFault)
    requires EnterBypassFlag(l, flag, isLocal, fault).1.None?
    ensures Same(EnterBypassFlag(l, flag, isLocal, fault).0.values.shown, l.values.shown) <==>
              !TookEffect(l, isLocal, fault) || ValueIn(l.values.shown, flag) == "true"
  {
    var l' := EnterBypassFlag(l, flag, isLocal, fault).0;
    assert TookEffect(l, isLocal, fault) ==> ValueIn(l'.values.shown, flag) == "true";
  }

  // ---- Nested blocks ----

  /** `rls_context()`; the entry of the asynchronous blocks; `bypass_flag()`. */
  datatype Kind = Context | Hop | Flag

  /** What the body of a block does: Django marks the transaction for a rollback, or takes the mark off;
      the code raises; another block runs, whose exception the code may catch. */
  datatype Item =
    | Mark(on: bool)
    | Raise
    | Inner(block: Block, caught: bool)

  /** A block, with what comes of each of its writes, undos and restores. */
  datatype Block = Block(
    kind: Kind,
    vars: seq<Variable>,
    isLocal: bool,
    writes: seq<WriteFault>,
    undo: seq<WriteFault>,
    body: seq<Item>,
    restores: seq<WriteFault>)

  predicate WellFormed(b: Block)
    decreases b
  {
    && |b.vars| == |b.writes| == |b.undo| == |b.restores| && Distinct(b.vars)
    && (b.kind.Flag? ==> |b.vars| == 1 && b.vars[0].value == "true")
    && BodyWellFormed(b.body)
  }

  predicate BodyWellFormed(items: seq<Item>)
    decreases items
  {
    forall i :: 0 <= i < |items| ==> ItemWellFormed(items[i])
  }

  predicate ItemWellFormed(item: Item)
    decreases item
  {
    item.Inner? ==> WellFormed(item.block)
  }

  function EnterBlock(l: Link, b: Block): (r: (Link, Option<seq<Variable>>))
    requires WellFormed(b)
    ensures r.1.Some? ==> |r.1.value| == |b.vars|
  {
    match b.kind
    case Context => EnterRlsContext(l, b.vars, b.isLocal, b.writes, b.undo)
    case Hop => EnterGucs(l, b.vars, b.isLocal, b.writes, b.undo)
    case Flag => EnterBypassFlag(l, b.vars[0].name, b.isLocal, b.writes[0])
  }

  /** The entry did not get to a write: its reads were refused. */
  predicate ReadsRefused(l: Link, b: Block) {
    (b.vars != [] || b.kind.Flag?) && (l.marked || !l.accepts)
  }

  /** A failed entry undid all it did: its restore reported success, and no write it does not restore left
      another value. */
  predicate EntryUndone(l: Link, b: Block)
    requires WellFormed(b)
  {
    ReadsRefused(l, b) ||
    var w := WriteFirst(l, b.vars, |b.vars|, b.isLocal, b.writes);
    var previous := Previous(b.vars, l.values);
    match b.kind
    case Context => RestoreGucs(w.link, previous, b.isLocal, true, b.undo).restored
    case Hop => RestoreGucs(w.link, previous[..w.k], b.isLocal, true, b.undo[..w.k]).restored
    && !LeavesAValue(l, b.vars, b.isLocal, b.writes)
    case Flag => !LeavesAValue(l, b.vars, b.isLocal, b.writes)
  }

  /** What came of it; `restored`: every restore and undo there was reported success. */
  datatype Ran = Ran(link: Link, raised: bool, restored: bool)

  /** The block, exited by `restore_gucs` with the body's exception pending, if any. */
  function RunBlock(l: Link, b: Block): Ran
    requires WellFormed(b)
    decreases b, 1
  {
    var (entered, previous) := EnterBlock(l, b);
    if previous.None? then Ran(entered, true, EntryUndone(l, b))
    else
      var body := RunBody(entered, b.body);
      var left := RestoreGucs(body.link, previous.value, b.isLocal, body.raised, b.restores);
      Ran(left.link, body.raised || left.raised, body.restored && left.restored)
  }

  /** The body, up to an exception that is not caught. */
  function RunBody(l: Link, items: seq<Item>): Ran
    requires BodyWellFormed(items)
    decreases items
  {
    if items == [] then Ran(l, false, true)
    else
      var before := RunBody(l, items[..|items| - 1]);
      if before.raised then before
      else
        var ran := RunItem(before.link, items[|items| - 1]);
        ran.(restored := before.restored && ran.restored)
  }

  function RunItem(l: Link, item: Item): Ran
    requires ItemWellFormed(item)
    decreases item
  {
    match item
    case Mark(on) => Ran(l.(marked := on), false, true)
    case Raise => Ran(l, true, true)
    case Inner(b, caught) =>
      var ran := RunBlock(l, b);
      ran.(raised := ran.raised && !caught)
  }

  /** A block that was entered has written all its settings, and keeps what they were. */
  lemma EnteredIsSetAll(l: Link, b: Block)
    requires WellFormed(b) && EnterBlock(l, b).1.Some?
    ensures EnterBlock(l, b).1.value == Previous(b.vars, l.values)
    ensures EnterBlock(l, b).0.values == SetAll(l.values, b.vars, b.isLocal)
  {
    WrittenFirst(l, b.vars, |b.vars|, b.isLocal, b.writes);
    assert b.vars[..|b.vars|] == b.vars;
    if b.kind.Flag? {
      FlagIsOneWrite(l, b);
    }
  }

  lemma FlagIsOneWrite(l: Link, b: Block)
    requires WellFormed(b) && b.kind.Flag?
    ensures b.vars == [Variable(b.vars[0].name, "true")]
    ensures WriteFirst(l, b.vars, 1, b.isLocal, b.writes).link == SetGuc(l, b.vars[0], b.isLocal, b.writes[0]).0
    ensures WriteFirst(l, b.vars, 1, b.isLocal, b.writes).failed <==>
              SetGuc(l, b.vars[0], b.isLocal, b.writes[0]).1 != Written
  {
    assert WriteFirst(l, b.vars, 0, b.isLocal, b.writes) == Writing(l, 0, false);
  }

  /** An entry that failed and undid all it did. */
  lemma FailedEntryIsSame(l: Link, b: Block)
    requires WellFormed(b) && EnterBlock(l, b).1.None? && EntryUndone(l, b)
    ensures Same(EnterBlock(l, b).0.values.shown, l.values.shown)
  {
    if !ReadsRefused(l, b) {
      match b.kind
      case Context => UndoneAll(l, b.vars, b.isLocal, b.writes, b.undo);
      case Hop => UndoneFirst(l, b.vars, b.isLocal, b.writes, b.undo);
      case Flag =>
        FlagIsOneWrite(l, b);
        FailedBypassFlagIff(l, b.vars[0].name, b.isLocal, b.writes[0]);
    }
  }

  lemma PutBackIsSame(before: map<string, string>, entered: map<string, string>, inside: map<string, string>,
                      left: map<string, string>, vars: seq<Variable>, previous: seq<Variable>)
    requires |previous| == |vars|
    requires forall i :: 0 <= i < |vars| ==> previous[i] == Variable(vars[i].name, ValueIn(before, vars[i].name))
    requires Holds(entered, vars, |vars|, before) && Same(inside, entered) && Holds(left, previous, |vars|, inside)
    ensures Same(left, before)
  {
    forall name ensures ValueIn(left, name) == ValueIn(before, name) {
      if i :| 0 <= i < |vars| && vars[i].name == name {
        assert previous[i].name == name;
      } else {
        assert forall i :: 0 <= i < |previous| ==> previous[i].name != name;
        assert ValueIn(inside, name) == ValueIn(entered, name);
      }
    }
  }

  /** A block, entered and restored or failed and undone, leaves every setting as it was. */
  lemma {:induction false} BlockUndoes(l: Link, b: Block)
    requires WellFormed(b) && RunBlock(l, b).restored
    ensures Same(RunBlock(l, b).link.values.shown, l.values.shown)
    decreases b, 1
  {
    var (entered, previous) := EnterBlock(l, b);
    if previous.None? {
      FailedEntryIsSame(l, b);
    } else {
      EnteredIsSetAll(l, b);
      var body := RunBody(entered, b.body);
      NestedBlocksUndo(entered, b.body);
      SetAllHolds(l.values, b.vars, b.isLocal);
      RestoredHolds(body.link, previous.value, b.isLocal, body.raised, b.restores);
      PutBackIsSame(l.values.shown, entered.values.shown, body.link.values.shown, RunBlock(l, b).link.values.shown,
                    b.vars, previous.value);
    }
  }

  /** Blocks of every kind, nested to any depth, in either mode or both, with entries that fail, bodies
      that raise and exceptions caught or pending at any level: where every restore there was reported
      success, every setting is what it was. */
  lemma {:induction false} NestedBlocksUndo(l: Link, items: seq<Item>)
    requires BodyWellFormed(items) && RunBody(l, items).restored
    ensures Same(RunBody(l, items).link.values.shown, l.values.shown)
    decreases items
  {
    if items != [] {
      var init, last := items[..|items| - 1], items[|items| - 1];
      NestedBlocksUndo(l, init);
      if !RunBody(l, init).raised {
        ItemUndoes(RunBody(l, init).link, last);
      }
    }
  }

  lemma {:induction false} ItemUndoes(l: Link, item: Item)
    requires ItemWellFormed(item) && RunItem(l, item).restored
    ensures Same(RunItem(l, item).link.values.shown, l.values.shown)
    decreases item
  {
    if item.Inner? {
      BlockUndoes(l, item.block);
    }
  }

  predicate AllLocal(items: seq<Item>)
    decreases items
  {
    forall i :: 0 <= i < |items| ==> LocalItem(items[i])
  }

  predicate LocalItem(item: Item)
    decreases item
  {
    item.Inner? ==> item.block.isLocal && AllLocal(item.block.body)
  }

  lemma {:induction false} LocalWritesKeep(l: Link, vars: seq<Variable>, n: nat, faults: seq<WriteFault>)
    requires n <= |vars| == |faults|
    ensures WriteFirst(l, vars, n, true, faults).link.values.kept == l.values.kept
  {
    if n > 0 {
      LocalWritesKeep(l, vars, n - 1, faults);
    }
  }

  lemma LocalRestoreKeeps(l: Link, previous: seq<Variable>, excPending: bool, faults: seq<WriteFault>)
    requires |previous| == |faults|
    ensures RestoreGucs(l, previous, true, excPending, faults).link.values.kept == l.values.kept
  {
    RestoreLeavesTheRest(l.(marked := false), previous, |previous|, true, excPending, faults);
  }

  lemma LocalEntryKeeps(l: Link, b: Block)
    requires WellFormed(b) && b.isLocal
    ensures EnterBlock(l, b).0.values.kept == l.values.kept
  {
    var w := WriteFirst(l, b.vars, |b.vars|, true, b.writes);
    LocalWritesKeep(l, b.vars, |b.vars|, b.writes);
    LocalRestoreKeeps(w.link, Previous(b.vars, l.values), true, b.undo);
    LocalRestoreKeeps(w.link, Previous(b.vars, l.values)[..w.k], true, b.undo[..w.k]);
  }

  /** What a commit keeps is untouched by blocks that are local throughout, whatever fails. */
  lemma {:induction false} LocalBlocksKeepNothing(l: Link, items: seq<Item>)
    requires BodyWellFormed(items) && AllLocal(items)
    ensures RunBody(l, items).link.values.kept == l.values.kept
    decreases items
  {
    if items != [] {
      var init, last := items[..|items| - 1], items[|items| - 1];
      LocalBlocksKeepNothing(l, init);
      if !RunBody(l, init).raised {
        LocalItemKeeps(RunBody(l, init).link, last);
      }
    }
  }

  lemma {:induction false} LocalItemKeeps(l: Link, item: Item)
    requires ItemWellFormed(item) && LocalItem(item)
    ensures RunItem(l, item).link.values.kept == l.values.kept
    decreases item
  {
    if item.Inner? {
      var b := item.block;
      LocalEntryKeeps(l, b);
      var (entered, previous) := EnterBlock(l, b);
      if previous.Some? {
        EnteredIsSetAll(l, b);
        LocalBlocksKeepNothing(entered, b.body);
        LocalRestoreKeeps(RunBody(entered, b.body).link, previous.value, RunBody(entered, b.body).raised, b.restores);
      }
    }
  }

  /** A block that writes for the session, and is restored, puts back what was shown. What is kept is as
      before exactly when the two were the same: inside a local block of the same setting, the local
      value is kept. */
  lemma SessionBlockKeepsIff(l: Link, b: Block)
    requires WellFormed(b) && !b.isLocal && b.body == [] && EnterBlock(l, b).1.Some? && RunBlock(l, b).restored
    ensures Same(RunBlock(l, b).link.values.kept, l.values.kept) <==>
              forall i :: 0 <= i < |b.vars| ==>
                  ValueIn(l.values.kept, b.vars[i].name) == ValueIn(l.values.shown, b.vars[i].name)
  {
    var vars, previous := b.vars, Previous(b.vars, l.values);
    var (entered, snapshot) := EnterBlock(l, b);
    EnteredIsSetAll(l, b);
    RestoredHolds(entered, previous, false, false, b.restores);
    SetAllHolds(l.values, vars, false);
    SetAllHolds(entered.values, previous, false);
    var left := RunBlock(l, b).link.values;
    forall i | 0 <= i < |vars| ensures ValueIn(left.kept, vars[i].name) == ValueIn(l.values.shown, vars[i].name) {
      assert previous[i].name == vars[i].name && ValueIn(left.kept, previous[i].name) == previous[i].value;
    }
    forall name | forall i :: 0 <= i < |vars| ==> vars[i].name != name
      ensures ValueIn(left.kept, name) == ValueIn(l.values.kept, name)
    {
      assert forall i :: 0 <= i < |previous| ==> previous[i].name != name;
    }
  }

  // ---- Entries that go through ----

  /** The session takes writes of this scope. */
  predicate Takes(l: Link, isLocal: bool) {
    l.accepts && !l.marked && (isLocal ==> l.inAtomic)
  }

  lemma {:induction false} WritesGoThroughIff(l: Link, vars: seq<Variable>, n: nat, isLocal: bool,
                                              faults: seq<WriteFault>)
    requires n <= |vars| == |faults|
    ensures var w := WriteFirst(l, vars, n, isLocal, faults);
            && (!w.failed <==> n == 0 || (Takes(l, isLocal) && forall i :: 0 <= i < n ==> faults[i] == Done))
            && (!w.failed ==> w.link == l.(values := w.link.values))
  {
    if n > 0 {
      WritesGoThroughIff(l, vars, n - 1, isLocal, faults);
    }
  }

  /** An entry of any kind returns its snapshot if and only if it has nothing to write, or the session takes
      its reads and writes and each write is done. */
  lemma EntryGoesThroughIff(l: Link, b: Block)
    requires WellFormed(b)
    ensures EnterBlock(l, b).1.Some? <==>
              b.vars == [] || (Takes(l, b.isLocal) && forall i :: 0 <= i < |b.writes| ==> b.writes[i] == Done)
  {
    WritesGoThroughIff(l, b.vars, |b.vars|, b.isLocal, b.writes);
    if b.kind.Flag? {
      FlagIsOneWrite(l, b);
    }
  }

  /** Then each of its settings has its value, for statements and, outside local mode, for a commit; every
      other one is as before; and the snapshot holds what each of them was. */
  lemma EntryShowsItsValues(l: Link, b: Block)
    requires WellFormed(b) && EnterBlock(l, b).1.Some?
    ensures var (l', previous) := EnterBlock(l, b);
            && l' == l.(values := l'.values)
            && Holds(l'.values.shown, b.vars, |b.vars|, l.values.shown)
            && (if b.isLocal then l'.values.kept == l.values.kept
                else Holds(l'.values.kept, b.vars, |b.vars|, l.values.kept))
            && |previous.value| == |b.vars|
            && forall i :: 0 <= i < |b.vars| ==>
                 previous.value[i] == Variable(b.vars[i].name, ValueIn(l.values.shown, b.vars[i].name))
  {
    EnteredIsSetAll(l, b);
    SetAllHolds(l.values, b.vars, b.isLocal);
    WritesGoThroughIff(l, b.vars, |b.vars|, b.isLocal, b.writes);
    if b.kind.Flag? {
      FlagIsOneWrite(l, b);
    }
    if b.isLocal {
      LocalEntryKeeps(l, b);
    }
  }

  /** Blocks in which nothing fails and nobody raises; a local one needs a transaction. */
  predicate Faultless(items: seq<Item>, inAtomic: bool)
    decreases items
  {
    forall i :: 0 <= i < |items| ==> FaultlessItem(items[i], inAtomic)
  }

  predicate FaultlessItem(item: Item, inAtomic: bool)
    decreases item
  {
    item.Inner? && (item.block.isLocal ==> inAtomic)
    && (forall i :: 0 <= i < |item.block.writes| ==> item.block.writes[i] == Done)
    && (forall i :: 0 <= i < |item.block.restores| ==> item.block.restores[i] == Done)
    && Faultless(item.block.body, inAtomic)
  }

  /** They go through, nested to any depth, on a session that takes writes. */
  lemma {:induction false} FaultlessBlocksRun(l: Link, items: seq<Item>)
    requires BodyWellFormed(items) && Faultless(items, l.inAtomic) && l.accepts && !l.marked
    ensures var r := RunBody(l, items);
            !r.raised && r.restored && r.link == l.(values := r.link.values)
            && Same(r.link.values.shown, l.values.shown)
    decreases items
  {
    if items != [] {
      var init, last := items[..|items| - 1], items[|items| - 1];
      FaultlessBlocksRun(l, init);
      FaultlessItemRuns(RunBody(l, init).link, last);
      NestedBlocksUndo(l, items);
    }
  }

  lemma {:induction false} FaultlessItemRuns(l: Link, item: Item)
    requires ItemWellFormed(item) && FaultlessItem(item, l.inAtomic) && l.accepts && !l.marked
    ensures var r := RunItem(l, item);
            !r.raised && r.restored && r.link == l.(values := r.link.values)
    decreases item
  {
    var b := item.block;
    EntryGoesThroughIff(l, b);
    EntryShowsItsValues(l, b);
    var (entered, previous) := EnterBlock(l, b);
    FaultlessBlocksRun(entered, b.body);
    var body := RunBody(entered, b.body);
    RestoreLeavesTheRest(body.link.(marked := false), previous.value, |b.vars|, b.isLocal, body.raised, b.restores);
    HealthyRestore(body.link.(marked := false), previous.value, |b.vars|, b.isLocal, body.raised, b.restores);
  }
}
