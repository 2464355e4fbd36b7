/** The affinity guard: what it does to a connection around each statement run on it. */
module Guard {
  import opened Gucs
  import opened Sessions
  import opened Trackers
  import opened TrackerSoundness

  // ---- Statements and what PostgreSQL does with them ----

  /** What became of a call to the driver: done; raised before anything was sent; refused by
      PostgreSQL; the connection was lost; done, and then something raised. */
  datatype Fault = Fine | NotSent | Rejected | Lost | Interrupted

  /** What raises does not come from the database: `except DatabaseError` does not catch it. */
  predicate NotOfDatabase(fault: Fault) {
    fault in {NotSent, Interrupted}
  }

  /** What a statement the guard cannot follow does: nothing to the transaction or its settings;
      changes of the settings, and savepoints; the same after opening a transaction; ends one. */
  datatype OpaqueEffect =
    | Keeps
    | Changes(shown: ContextGucs, kept: ContextGucs, savepoints: seq<string>)
    | Opens(start: ContextGucs, shown: ContextGucs, kept: ContextGucs)
    | Ends(left: ContextGucs)

  function SetSavepoints(s: Session, names: seq<string>): Session
    decreases |names|
  {
    if names == [] then s else SetSavepoints(SetSavepoint(s, names[0]), names[1..])
  }

  function ApplyOpaque(s: Session, e: OpaqueEffect): Session {
    match e
    case Keeps => s
    case Changes(shown, kept, names) =>
      if s.status == Idle then WriteSession(s, kept)
      else if s.status == InTransaction then SetSavepoints(WriteLocal(WriteSession(s, kept), shown), names)
      else s
    case Opens(start, shown, kept) =>
      if s.status == Idle then WriteLocal(WriteSession(Begin(WriteSession(s, start)), kept), shown)
      else if s.status == InTransaction then WriteLocal(WriteSession(s, kept), shown)
      else s
    case Ends(left) => WriteSession(Rollback(s), left)
  }

  /** A statement as `_parse()` reads it. `ForeignWrite`: other code writes the settings for the
      session. `refused`: PostgreSQL may refuse it in a transaction block. `clear`: the savepoint's
      name can be read. A compound or unreadable statement carries what it does, and whether it
      has ended the transaction when it fails. */
  datatype Statement =
    | Data(refused: bool)
    | ForeignWrite(value: ContextGucs)
    | Reset(refused: bool, ours: bool, left: ContextGucs)
    | Compound(followed: bool, refused: bool, does: OpaqueEffect, endsOnError: Option<bool>)
    | Unreadable(does: OpaqueEffect, endsOnError: Option<bool>)
    | BeginTransaction
    | CommitTransaction(chain: bool)
    | RollbackTransaction(chain: bool)
    | PrepareTransaction
    | EndPrepared
    | PrepareStatement
    | SetTransaction
    | SetSavepointNamed(name: string, clear: bool)
    | ReleaseNamed(name: string, clear: bool)
    | RollbackToNamed(name: string, clear: bool)

  predicate IsOpaque(q: Statement) {
    q.Compound? || q.Unreadable?
  }

  /** `_controls_the_transaction` */
  predicate IsControl(q: Statement) {
    !q.Data? && !q.ForeignWrite? && !q.Reset? && !IsOpaque(q)
  }

  /** The command is in `_FOLLOWED`. */
  predicate IsFollowed(q: Statement) {
    match q
    case Compound(followed, _, _, _) => followed
    case Data(_) => false
    case ForeignWrite(_) => false
    case Unreadable(_, _) => false
    case SetTransaction => false
    case _ => true
  }

  /** `_refused_in_a_transaction` */
  predicate MayBeRefused(q: Statement) {
    match q
    case Data(refused) => refused
    case Reset(refused, _, _) => refused
    case Compound(_, refused, _, _) => refused
    case _ => false
  }

  /** PostgreSQL runs `q` in a failed transaction. */
  predicate RunsInError(q: Statement) {
    q.CommitTransaction? || q.RollbackTransaction? || q.PrepareTransaction? || q.RollbackToNamed? || IsOpaque(q)
  }

  /** PostgreSQL runs `q` in a transaction only. */
  predicate NeedsTransaction(q: Statement) {
    match q
    case CommitTransaction(chain) => chain
    case RollbackTransaction(chain) => chain
    case PrepareTransaction => true
    case SetSavepointNamed(_, _) => true
    case ReleaseNamed(_, _) => true
    case RollbackToNamed(_, _) => true
    case _ => false
  }

  /** The session after PostgreSQL accepted `q`, or `None` when it answers with an error. */
  function Effect(s: Session, q: Statement): Option<Session> {
    if s.status == Bad || (s.status == InError && !RunsInError(q)) || (s.status == Idle && NeedsTransaction(q))
    then None
    else match q
      case CommitTransaction(chain) => Some(if chain then Begin(Commit(s)) else Commit(s))
      case RollbackTransaction(chain) => Some(if chain then Begin(Rollback(s)) else Rollback(s))
      case PrepareTransaction => Some(Commit(s))
      case RollbackToNamed(name, _) =>
        var i := NewestSavepoint(s.savepoints, name);
        if i.None? then None else Some(RollbackToSavepoint(s, i.value))
      case ReleaseNamed(name, _) =>
        var i := NewestSavepoint(s.savepoints, name);
        if i.None? then None else Some(ReleaseSavepoint(s, i.value))
      case SetSavepointNamed(name, _) => Some(SetSavepoint(s, name))
      case Data(_) => Some(Worked(s))
      case BeginTransaction => Some(Begin(s))
      case EndPrepared => if s.status == Idle then Some(s) else None
      case Reset(_, ours, left) => Some(if ours then WriteSession(s, left) else s)
      case ForeignWrite(v) => Some(WriteSession(s, v))
      case Compound(_, _, does, _) => Some(ApplyOpaque(s, does))
      case Unreadable(does, _) => Some(ApplyOpaque(s, does))
      case _ => Some(s)
  }

  /** The session after PostgreSQL refused `q`. A refused commit has rolled back. */
  function Refusal(s: Session, q: Statement): Session {
    match q
    case CommitTransaction(_) => Rollback(s)
    case PrepareTransaction => Rollback(s)
    case Compound(_, _, _, ends) => if ends.Some? then End(s, ends.value) else Fail(s)
    case Unreadable(_, ends) => if ends.Some? then End(s, ends.value) else Fail(s)
    case _ => Fail(s)
  }

  /** Outcome of a driver call. */
  datatype Sent = Sent(session: Session, raised: bool, showed: Option<ContextGucs>)

  /** Sends `q` on `s`; `showed` is what the session showed it, if it ran at all. */
  function Send(s: Session, q: Statement, fault: Fault): Sent {
    if s.status == Bad || fault == NotSent then Sent(s, true, None)
    else
      var showed := if s.status == InError then None else Some(s.shown);
      var done := Effect(s, q);
      if done.None? then Sent(Fail(s), true, showed)
      else match fault
        case Fine => Sent(done.value, false, showed)
        case Interrupted => Sent(done.value, true, showed)
        case Lost => Sent(s.(status := Bad), true, showed)
        case _ => Sent(Refusal(s, q), true, showed)
  }

  // ---- Connections ----

  /** A connection with the guard installed. `guarded`: its alias is configured. */
  datatype Conn = Conn(
    session: Option<Session>,
    tracker: Tracker,
    autocommit: bool,
    needsRollback: bool,
    guarded: bool)

  /** Only the session and what is known of it may differ. */
  predicate SameSetup(c: Conn, c': Conn) {
    c'.guarded == c.guarded && c'.autocommit == c.autocommit && c'.needsRollback == c.needsRollback
  }

  ghost predicate ConnInv(c: Conn) {
    c.session.Some? ==> Inv(c.tracker, c.session.value)
  }

  predicate WillRunInTransaction(c: Conn, status: Status) {
    status != Idle || !c.autocommit
  }

  /** With autocommit off the driver opens a transaction for the statement. */
  function OpenedFor(s: Session, autocommit: bool): Session {
    if autocommit then s else Begin(s)
  }

  /** Sends `q` through Django's cursor, which refuses it in a transaction marked for rollback. */
  function SendThroughCursor(s: Session, autocommit: bool, needsRollback: bool, q: Statement, fault: Fault): Sent {
    if needsRollback || s.status == Bad || fault == NotSent then Sent(s, true, None)
    else Send(OpenedFor(s, autocommit), q, fault)
  }

  /** The same for the library's own `set_config()` statement. */
  function SendWriteThroughCursor(s: Session, autocommit: bool, needsRollback: bool, v: ContextGucs, isLocal: bool,
                                  fault: Fault): Sent {
    if needsRollback || s.status == Bad || fault == NotSent then Sent(s, true, None)
    else
      var s1 := OpenedFor(s, autocommit);
      if s1.status == InError then Sent(s1, true, None)
      else match fault
        case Fine => Sent(Write(s1, v, isLocal), false, None)
        case Interrupted => Sent(Write(s1, v, isLocal), true, None)
        case Lost => Sent(s1.(status := Bad), true, None)
        case _ => Sent(Fail(s1), true, None)
  }

  function Opened(c: Conn): Session
    requires c.session.Some?
  {
    OpenedFor(c.session.value, c.autocommit)
  }

  function Execute(c: Conn, q: Statement, fault: Fault): Sent
    requires c.session.Some?
  {
    SendThroughCursor(c.session.value, c.autocommit, c.needsRollback, q, fault)
  }

  function SendWrite(c: Conn, v: ContextGucs, isLocal: bool, fault: Fault): Sent
    requires c.session.Some?
  {
    SendWriteThroughCursor(c.session.value, c.autocommit, c.needsRollback, v, isLocal, fault)
  }

  /** What came of a step on a connection; `showed` as in `Sent`, for the caller's statement. */
  datatype Ran = Ran(conn: Conn, raised: bool, showed: Option<ContextGucs>)

  /** `_record` */
  function Record(t: Tracker, s: Session, values: Option<ContextGucs>, guarded: bool, isLocal: bool): Tracker {
    SetValues(Look(t, s), if guarded then Known(values) else Unknown, isLocal)
  }

  /** `write_gucs`: the write inside `writing()`, recorded or forgotten. */
  function WriteGucs(c: Conn, values: Option<ContextGucs>, isLocal: bool, fault: Fault): (r: Ran)
    requires c.session.Some?
    ensures r.conn.session.Some? && SameSetup(c, r.conn)
  {
    var s := c.session.value;
    if isLocal && !WillRunInTransaction(c, s.status) then Ran(c, true, None)
    else
      var looked := Look(c.tracker, s);
      var sent := SendWrite(c, OnSession(values), isLocal, fault);
      var tracker :=
        if sent.raised then Forget(looked)
        else Record(looked, sent.session, values, c.guarded, isLocal);
      Ran(c.(session := Some(sent.session), tracker := tracker), sent.raised, None)
  }

  /** `_apply_if_stale`; the status it returns is the session's before any statement ran. */
  function ApplyIfStale(c: Conn, active: Option<ContextGucs>, localMode: bool, fault: Fault): (r: Ran)
    requires c.session.Some?
    ensures r.conn.session.Some? && SameSetup(c, r.conn)
  {
    var s := c.session.value;
    var looked := c.(tracker := Look(c.tracker, s));
    var isLocal := active.Some? && localMode;
    if looked.tracker.values == Known(active) then Ran(looked, false, None)
    else if s.status in {InError, Bad} || c.needsRollback then Ran(looked, false, None)
    else if !c.guarded then Ran(looked, false, None)
    else if isLocal && !WillRunInTransaction(c, s.status) then Ran(looked, false, None)
    else WriteGucs(looked, active, isLocal, fault)
  }

  // ---- A transaction of its own ----

  /** `_needs_own_transaction` */
  predicate NeedsOwnTransaction(c: Conn, status: Status, active: Option<ContextGucs>, localMode: bool, q: Statement) {
    status == Idle && localMode && c.autocommit && active.Some? && c.guarded && !MayBeRefused(q)
  }

  /** What may go wrong at each step. */
  datatype Faults = Faults(begin: Fault, write: Fault, statement: Fault, commit: Fault, rollback: Fault)

  /** `_abandon_own_transaction` */
  function AbandonOwnTransaction(c: Conn, fault: Fault): (c': Conn)
    requires c.session.Some?
    ensures SameSetup(c, c')
  {
    var s := c.session.value;
    var sent := if s.status == Idle then Sent(s, false, None)
                else Send(s, RollbackTransaction(false), fault);
    if !sent.raised && sent.session.status == Idle then
      c.(session := Some(sent.session), tracker := EndTransaction(c.tracker, Some(false)))
    else c.(session := None, tracker := Forget(c.tracker))
  }

  /** The first half of `_run_in_own_transaction`: `BEGIN`, and the context's values. */
  function EnterOwnTransaction(c: Conn, active: Option<ContextGucs>, f: Faults): (r: Ran)
    requires c.session.Some?
    ensures r.conn.session.Some? && SameSetup(c, r.conn)
  {
    var begun := Send(c.session.value, BeginTransaction, f.begin);
    var c1 := c.(session := Some(begun.session));
    if begun.raised then Ran(c1, true, None)
    else WriteGucs(c1.(tracker := Look(c1.tracker, begun.session)), active, true, f.write)
  }

  /** The end of the second half: `COMMIT`. */
  function CommitOwnTransaction(c: Conn, showed: Option<ContextGucs>, f: Faults): (r: Ran)
    requires c.session.Some?
    ensures SameSetup(c, r.conn)
  {
    var ended := Send(c.session.value, CommitTransaction(false), f.commit);
    var c1 := c.(session := Some(ended.session));
    if ended.raised then Ran(AbandonOwnTransaction(c1, f.rollback), true, showed)
    else Ran(c1.(tracker := EndTransaction(c1.tracker, Some(true))), false, showed)
  }

  /** The second half: the statement, and `COMMIT`. */
  function FinishOwnTransaction(c: Conn, q: Statement, f: Faults): (r: Ran)
    requires c.session.Some?
    ensures SameSetup(c, r.conn)
  {
    var ran := Execute(c, q, f.statement);
    var c1 := c.(session := Some(ran.session));
    if ran.raised then Ran(AbandonOwnTransaction(c1, f.rollback), true, ran.showed)
    else CommitOwnTransaction(c1, ran.showed, f)
  }

  /** `_run_in_own_transaction` */
  function RunInOwnTransaction(c: Conn, active: Option<ContextGucs>, q: Statement, f: Faults): (r: Ran)
    requires c.session.Some?
    ensures SameSetup(c, r.conn)
  {
    var entered := EnterOwnTransaction(c, active, f);
    if entered.raised then Ran(AbandonOwnTransaction(entered.conn, f.rollback), true, None)
    else FinishOwnTransaction(entered.conn, q, f)
  }

  // ---- Following ----

  /** `_follow`, after a statement in `_FOLLOWED` has run. */
  function Follow(t: Tracker, q: Statement, before: Status, s: Session): Tracker {
    match q
    case Reset(_, ours, _) => if ours then Forget(t) else t
    case EndPrepared => t
    case RollbackTransaction(_) => Look(EndTransaction(t, Some(false)), s)
    case CommitTransaction(_) => Look(EndTransaction(t, Some(before != InError)), s)
    case PrepareTransaction => Look(Forget(EndTransaction(t, Some(false))), s)
    case SetSavepointNamed(name, clear) =>
      var looked := Look(t, s);
      if clear then looked.(savepoints := looked.savepoints + [Entry(name, looked.values)])
      else Forget(looked)
    case ReleaseNamed(name, clear) =>
      FollowSavepointEnd(Look(t, s), if clear then Some(name) else None, false)
    case RollbackToNamed(name, clear) =>
      FollowSavepointEnd(Look(t, s), if clear then Some(name) else None, true)
    case _ => Look(t, s)
  }

  /** What the guard notes of a statement that has run or raised. */
  function Noted(t: Tracker, s: Option<Session>, raised: bool, q: Statement, before: Status, own: bool): Tracker {
    if raised then
      if q.Unreadable? || IsFollowed(q) then Forget(t) else t
    else
      var followed :=
        if IsOpaque(q) then Forget(t)
        else if IsFollowed(q) && s.Some? then Follow(t, q, before, s.value)
        else t;
      if own || (followed.wroteLocal && followed.inTransaction) then SuspectSession(followed, true)
      else followed
  }

  function AfterStatement(ran: Ran, q: Statement, before: Status, own: bool): Ran {
    Ran(ran.conn.(tracker := Noted(ran.conn.tracker, ran.conn.session, ran.raised, q, before, own)), ran.raised,
        ran.showed)
  }

  /** The statement itself, in a transaction of its own or not. */
  function RunStatement(c: Conn, active: Option<ContextGucs>, q: Statement, own: bool, f: Faults): (r: Ran)
    requires c.session.Some?
    ensures SameSetup(c, r.conn)
  {
    if own then RunInOwnTransaction(c, active, q, f)
    else
      var sent := Execute(c, q, f.statement);
      Ran(c.(session := Some(sent.session)), sent.raised, sent.showed)
  }

  /** What the guard does before the statement: nothing but look, for transaction control. */
  function Prepare(c: Conn, active: Option<ContextGucs>, localMode: bool, q: Statement, fault: Fault): (r: Ran)
    requires c.session.Some?
    ensures r.conn.session.Some? && SameSetup(c, r.conn)
  {
    if IsControl(q) then Ran(c.(tracker := Look(c.tracker, c.session.value)), false, None)
    else ApplyIfStale(c, active, localMode, fault)
  }

  /** The statement, and what the guard notes of it. */
  function RunPrepared(c: Conn, active: Option<ContextGucs>, q: Statement, before: Status, own: bool, f: Faults)
    : (r: Ran)
    requires c.session.Some?
    ensures SameSetup(c, r.conn)
  {
    AfterStatement(RunStatement(c, active, q, own, f), q, before, own)
  }

  /** `_guard`, for a statement that is not one of the library's own writes. */
  function GuardStep(c: Conn, active: Option<ContextGucs>, localMode: bool, q: Statement, f: Faults): (r: Ran)
    requires c.session.Some?
    ensures SameSetup(c, r.conn)
  {
    var before := c.session.value.status;
    var own := !IsControl(q) && NeedsOwnTransaction(c, before, active, localMode, q);
    var prepared := Prepare(c, active, localMode, q, f.write);
    if prepared.raised then prepared else RunPrepared(prepared.conn, active, q, before, own, f)
  }

  // ---- Django's own commit and rollback ----

  /** `_transaction_end`: the wrapped `_commit` or `_rollback` of a connection. */
  function TransactionEnd(c: Conn, commit: bool, fault: Fault): (r: Ran)
    requires c.session.Some?
    ensures SameSetup(c, r.conn)
  {
    var s := c.session.value;
    var sent :=
      if s.status == Idle then Sent(s, fault != Fine, None)
      else Send(s, if commit then CommitTransaction(false) else RollbackTransaction(false), fault);
    var outcome :=
      if !sent.raised then Some(commit)
      else if fault in {NotSent, Interrupted} && commit then None
      else Some(false);
    var t := if c.tracker.raw == Some(s.id) then FollowEnd(c.tracker, s.status, sent.session.status, outcome)
             else c.tracker;
    Ran(c.(session := Some(sent.session), tracker := t), sent.raised, None)
  }

  /** `_follow_end` */
  function FollowEnd(t: Tracker, before: Status, after: Status, committed: Option<bool>): Tracker {
    if before != Idle && after == Idle then
      EndTransaction(t, if before == InError then Some(false) else committed)
    else if before != after then Forget(t)
    else t
  }
}
