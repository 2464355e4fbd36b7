/** The record the library keeps of one session's settings, and the class that updates it in place. */
module Trackers {
  import opened Gucs
  import opened Sessions

  datatype Entry = Entry(name: string, values: Tracked)

  /** The state of a `SessionGucs` object. */
  datatype Tracker = Tracker(
    raw: Option<nat>,
    values: Tracked,
    inTransaction: bool,
    base: Tracked,
    changed: bool,
    wroteLocal: bool,
    wroteSession: bool,
    savepoints: seq<Entry>)

  const NEW_TRACKER := Tracker(None, Unknown, false, Unknown, false, false, false, [])

  function Attach(t: Tracker, raw: nat, values: Tracked): Tracker {
    Tracker(Some(raw), values, false, values, false, false, false, [])
  }

  /** What the end of the transaction leaves; `committed` is `None` when it is not known. */
  function EndTransaction(t: Tracker, committed: Option<bool>): Tracker {
    if !t.inTransaction then t.(savepoints := [])
    else
      var left :=
        if committed == Some(false) || !t.wroteSession then t.base
        else if t.wroteLocal || (committed.None? && t.values != t.base) then Unknown
        else t.values;
      t.(values := left, inTransaction := false, savepoints := [])
  }

  function SyncTransaction(t: Tracker, status: Status): Tracker {
    if status == Idle then
      if t.inTransaction then EndTransaction(t, None) else t
    else if !t.inTransaction then
      t.(inTransaction := true, base := t.values, changed := false,
         wroteLocal := false, wroteSession := false, savepoints := [])
    else t
  }

  function SetValues(t: Tracker, values: Tracked, isLocal: bool): Tracker {
    var marked :=
      if !t.inTransaction then t
      else if isLocal then t.(wroteLocal := true)
      else t.(wroteSession := true);
    if values == t.values then marked
    else marked.(values := values, changed := t.changed || t.inTransaction)
  }

  function Forget(t: Tracker): Tracker {
    SetValues(t, Unknown, false)
  }

  function SuspectSession(t: Tracker, underLocalValues: bool): Tracker {
    if t.inTransaction && underLocalValues then t.(wroteSession := true, wroteLocal := true)
    else Forget(t)
  }

  /** The newest tracked savepoint called `name`. */
  function SavepointIndex(t: seq<Entry>, name: string): (i: Option<nat>)
    ensures i.Some? ==> i.value < |t| && t[i.value].name == name
    ensures i.Some? ==> forall j :: i.value < j < |t| ==> t[j].name != name
    ensures i.None? ==> forall j :: 0 <= j < |t| ==> t[j].name != name
  {
    if t == [] then None
    else if t[|t| - 1].name == name then Some(|t| - 1)
    else SavepointIndex(t[..|t| - 1], name)
  }

  /** `RELEASE` or `ROLLBACK TO` of `name`; `None` when the statement does not say which clearly. */
  function FollowSavepointEnd(t: Tracker, name: Option<string>, rolledBack: bool): Tracker {
    if name.None? then Forget(t)
    else
      var index := SavepointIndex(t.savepoints, name.value);
      if index.None? then
        if t.changed then Forget(t) else t
      else if rolledBack then
        t.(values := t.savepoints[index.value].values, savepoints := t.savepoints[..index.value + 1])
      else t.(savepoints := t.savepoints[..index.value])
  }

  /** `_SessionGUCs`. The driver's status reader is the `status` argument of `SyncTransaction`. */
  class SessionGucs {
    var raw: Option<nat>
    var values: Tracked
    var inTransaction: bool
    var base: Tracked
    var changed: bool
    var wroteLocal: bool
    var wroteSession: bool
    var savepoints: seq<Entry>

    ghost function State(): Tracker
      reads this
    {
      Tracker(raw, values, inTransaction, base, changed, wroteLocal, wroteSession, savepoints)
    }

    constructor ()
      ensures State() == NEW_TRACKER
    {
      raw, values, inTransaction, base := None, Unknown, false, Unknown;
      changed, wroteLocal, wroteSession, savepoints := false, false, false, [];
    }

    method AttachTo(session: nat, held: Tracked)
      modifies this
      ensures State() == Attach(old(State()), session, held)
    {
      raw := Some(session);
      values := held;
      inTransaction := false;
      base := held;
      changed, wroteLocal, wroteSession := false, false, false;
      savepoints := [];
    }

    method Sync(status: Status)
      modifies this
      ensures State() == SyncTransaction(old(State()), status)
    {
      if status == Idle {
        if inTransaction {
          End(None);
        }
      } else if !inTransaction {
        inTransaction := true;
        base := values;
        changed, wroteLocal, wroteSession := false, false, false;
        savepoints := [];
      }
    }

    method Set(held: Tracked, isLocal: bool)
      modifies this
      ensures State() == SetValues(old(State()), held, isLocal)
    {
      if inTransaction {
        if isLocal {
          wroteLocal := true;
        } else {
          wroteSession := true;
        }
      }
      if held != values {
        values := held;
        if inTransaction {
          changed := true;
        }
      }
    }

    method ForgetValues()
      modifies this
      ensures State() == Forget(old(State()))
    {
      Set(Unknown, false);
    }

    method Suspect(underLocalValues: bool)
      modifies this
      ensures State() == SuspectSession(old(State()), underLocalValues)
    {
      if inTransaction && underLocalValues {
        wroteSession, wroteLocal := true, true;
      } else {
        ForgetValues();
      }
    }

    method End(committed: Option<bool>)
      modifies this
      ensures State() == EndTransaction(old(State()), committed)
    {
      if inTransaction {
        if committed == Some(false) || !wroteSession {
          values := base;
        } else if wroteLocal || (committed.None? && values != base) {
          values := Unknown;
        }
        inTransaction := false;
      }
      savepoints := [];
    }

    /** Scans from the newest savepoint down. */
    method IndexOf(name: string) returns (index: Option<nat>)
      ensures index == SavepointIndex(savepoints, name)
    {
      var i := |savepoints|;
      while i > 0
        invariant 0 <= i <= |savepoints|
        invariant SavepointIndex(savepoints, name) == SavepointIndex(savepoints[..i], name)
      {
        if savepoints[i - 1].name == name {
          return Some(i - 1);
        }
        assert savepoints[..i][..i - 1] == savepoints[..i - 1];
        i := i - 1;
      }
      return None;
    }

    method FollowEndOfSavepoint(name: Option<string>, rolledBack: bool)
      modifies this
      ensures State() == FollowSavepointEnd(old(State()), name, rolledBack)
    {
      if name.None? {
        ForgetValues();
        return;
      }
      var index := IndexOf(name.value);
      if index.None? {
        if changed {
          ForgetValues();
        }
      } else if rolledBack {
        values := savepoints[index.value].values;
        savepoints := savepoints[..index.value + 1];
      } else {
        savepoints := savepoints[..index.value];
      }
    }
  }
}
