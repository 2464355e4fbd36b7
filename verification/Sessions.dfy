/** A PostgreSQL session as far as its transactional settings go. */
module Sessions {
  import opened Gucs

  /** libpq's transaction status. */
  datatype Status = Idle | InTransaction | InError | Bad

  datatype Savepoint = Savepoint(name: string, shown: ContextGucs, kept: ContextGucs, work: nat)

  /** `shown` is what statements see, `kept` what a commit leaves, `start` what a rollback leaves. `work`
      counts the data statements whose effect is in force, `workStart` those a rollback leaves. */
  datatype Session = Session(
    id: nat,
    status: Status,
    shown: ContextGucs,
    kept: ContextGucs,
    start: ContextGucs,
    savepoints: seq<Savepoint>,
    work: nat,
    workStart: nat)

  ghost predicate Valid(s: Session) {
    s.status == Idle ==> s.shown == s.kept && s.savepoints == []
  }

  function Begin(s: Session): Session {
    if s.status == Idle then s.(status := InTransaction, start := s.kept, savepoints := [], workStart := s.work) else s
  }

  /** Ends the transaction and takes its values back. */
  function Rollback(s: Session): Session {
    if s.status in {InTransaction, InError}
    then s.(status := Idle, shown := s.start, kept := s.start, savepoints := [], work := s.workStart)
    else s
  }

  /** A commit keeps what was written for the session; in a failed transaction it is a rollback. */
  function Commit(s: Session): Session {
    if s.status == InTransaction then s.(status := Idle, shown := s.kept, savepoints := [])
    else Rollback(s)
  }

  function End(s: Session, committed: bool): Session {
    if committed then Commit(s) else Rollback(s)
  }

  /** `set_config(..., false)`. */
  function WriteSession(s: Session, v: ContextGucs): Session {
    s.(shown := v, kept := v)
  }

  /** `set_config(..., true)`; outside a transaction block it is gone when its statement ends. */
  function WriteLocal(s: Session, v: ContextGucs): Session {
    if s.status == InTransaction then s.(shown := v) else s
  }

  function Write(s: Session, v: ContextGucs, isLocal: bool): Session {
    if isLocal then WriteLocal(s, v) else WriteSession(s, v)
  }

  /** A data statement has run. */
  function Worked(s: Session): Session {
    s.(work := s.work + 1)
  }

  /** An error: an open transaction is aborted. */
  function Fail(s: Session): Session {
    if s.status == InTransaction then s.(status := InError) else s
  }

  /** The newest savepoint called `name`. */
  function NewestSavepoint(p: seq<Savepoint>, name: string): (i: Option<nat>)
    ensures i.Some? ==> i.value < |p| && p[i.value].name == name
    ensures i.Some? ==> forall j :: i.value < j < |p| ==> p[j].name != name
    ensures i.None? ==> forall j :: 0 <= j < |p| ==> p[j].name != name
  {
    if p == [] then None
    else if p[|p| - 1].name == name then Some(|p| - 1)
    else NewestSavepoint(p[..|p| - 1], name)
  }

  function SetSavepoint(s: Session, name: string): Session {
    s.(savepoints := s.savepoints + [Savepoint(name, s.shown, s.kept, s.work)])
  }

  /** Goes back to the savepoint at `i`, which stays; also leaves a failed transaction. */
  function RollbackToSavepoint(s: Session, i: nat): Session
    requires i < |s.savepoints|
  {
    s.(status := InTransaction,
       shown := s.savepoints[i].shown,
       kept := s.savepoints[i].kept,
       work := s.savepoints[i].work,
       savepoints := s.savepoints[..i + 1])
  }

  /** Drops the savepoint at `i` and those above it; the values stay. */
  function ReleaseSavepoint(s: Session, i: nat): Session
    requires i < |s.savepoints|
  {
    s.(savepoints := s.savepoints[..i])
  }
}
