/** Context blocks of any number of tasks on one connection: `tenant_context()`, `admin_context()` and
    their asynchronous forms, entered and exited in any order, in either mode. */
module Blocks {
  import opened Gucs
  import opened Sessions
  import opened Trackers
  import opened TrackerSoundness
  import opened Guard
  import opened GuardSoundness
  import opened Snapshots
  import opened Aliases
  import Runs
  import Holders
  import HolderProperties

  /** An asynchronous block is first entered on the connection, then in its `Context`; it is first left in
      a `Context`, then on the connection. A synchronous one is `Open` or `Left`. */
  datatype Stage = Entering | Open | Leaving(raised: bool) | Left

  /** What a block keeps for its exit; `previous` is `None` for a block that wrote nothing. */
  datatype Block = Block(
    values: ContextGucs,
    token: nat,
    previous: Option<Saved>,
    enclosing: Option<nat>,
    session: Option<nat>,
    stage: Stage)

  /** The `Context`s of all tasks, the connection they share, and the blocks entered so far. */
  datatype System = System(world: Holders.World, conn: Conn, blocks: seq<Block>)

  datatype BlockFaults = BlockFaults(
    apply: Fault, readAdmin: Faults, readTenant: Faults, writeAdmin: Fault, writeTenant: Fault,
    restoreAdmin: Fault, restoreTenant: Fault, settle: Fault)

  predicate HasContext(sys: System, c: nat) {
    c < |sys.world.slots|
  }

  // ---- Entering ----

  /** One `get_guc`, which the guard brings to the active context first. */
  function ReadSettings(c: Conn, active: Option<ContextGucs>, f: Faults): (r: (Conn, Option<ContextGucs>))
    requires c.session.Some?
    ensures SameSetup(c, r.0)
  {
    var ran := GuardStep(c, active, false, Data(false), f);
    (ran.conn, if ran.raised || ran.conn.session.None? then None else ran.showed)
  }

  /** `_snapshot_gucs` */
  function Snapshot(c: Conn, active: Option<ContextGucs>, f: BlockFaults): (r: (Conn, Option<Saved>))
    requires c.session.Some?
    ensures SameSetup(c, r.0)
  {
    var first := ReadSettings(c, active, f.readAdmin);
    if first.1.None? || first.0.session.None? then (first.0, None)
    else
      var second := ReadSettings(first.0, active, f.readTenant);
      if second.1.None? || second.0.session.None? then (second.0, None)
      else (second.0, Some(Saved(ReadGuc(first.1.value.isAdmin), ReadGuc(second.1.value.currentTenant))))
  }

  /** `_session_of` */
  function SessionOf(c: Conn): Option<nat> {
    if c.session.None? then None else Some(c.session.value.id)
  }

  /** `_rls_state` is entered: the context has a holder, and the block is noted. */
  function PushBlock(sys: System, c: nat, values: ContextGucs, previous: Option<Saved>): System
    requires Holders.WellFormed(sys.world) && HasContext(sys, c)
  {
    System(Holders.Enter(sys.world, c, Some(values), true),
           sys.conn,
           sys.blocks + [Block(values, |sys.world.tokens|, previous, Holders.Current(sys.world, c), SessionOf(sys.conn),
                               Open)])
  }

  /** The connection after the block's own write, and whether it raised. */
  function WriteOnEntry(c: Conn, values: ContextGucs, f: BlockFaults): (r: (Conn, bool))
    requires c.session.Some?
    ensures SameSetup(c, r.0) && r.0.session.Some?
  {
    var wrote := WriteBoth(c, values, f.writeAdmin, f.writeTenant);
    if wrote.raised then (wrote.conn.(tracker := Forget(wrote.conn.tracker)), true)
    else (wrote.conn.(tracker := Record(wrote.conn.tracker, wrote.conn.session.value, Some(values), c.guarded, false)),
          false)
  }

  function EnterBlock(sys: System, c: nat, values: ContextGucs, localMode: bool, f: BlockFaults): System
    requires Holders.WellFormed(sys.world) && HasContext(sys, c)
  {
    if localMode then PushBlock(sys, c, values, None)
    else if sys.conn.session.None? then sys
    else
      var (conn, saved) := Snapshot(sys.conn, Holders.Visible(sys.world, c), f);
      if saved.None? || conn.session.None? then sys.(conn := conn)
      else EnterWith(sys.(conn := conn), c, values, saved.value, f)
  }

  /** The rest of an entry, once the snapshot is taken; a write that raises exits the block. */
  function EnterWith(sys: System, c: nat, values: ContextGucs, saved: Saved, f: BlockFaults): System
    requires Holders.WellFormed(sys.world) && HasContext(sys, c) && sys.conn.session.Some?
  {
    var pushed := PushBlock(sys, c, values, Some(saved));
    var (written, raised) := WriteOnEntry(sys.conn, values, f);
    if raised then ExitBlock(pushed.(conn := written), |sys.blocks|, c, true, f)
    else pushed.(conn := written)
  }

  // ---- Entering in a hop ----

  /** One `get_guc` inside `writing()`: the guard only looks. */
  function ReadAsItIs(c: Conn, fault: Fault): (r: (Conn, Option<ContextGucs>))
    requires c.session.Some?
    ensures SameSetup(c, r.0) && r.0.session.Some?
  {
    var looked := c.(tracker := Look(c.tracker, c.session.value));
    var sent := Execute(looked, Data(false), fault);
    (looked.(session := Some(sent.session)), if sent.raised then None else sent.showed)
  }

  /** The snapshot of `_enter_gucs`, in a connection that holds the active context. */
  function SnapshotAsItIs(c: Conn, f: BlockFaults): (r: (Conn, Option<Saved>))
    requires c.session.Some?
    ensures SameSetup(c, r.0) && r.0.session.Some?
  {
    var first := ReadAsItIs(c, f.readAdmin.statement);
    if first.1.None? then (first.0, None)
    else
      var second := ReadAsItIs(first.0, f.readTenant.statement);
      if second.1.None? then (second.0, None)
      else (second.0, Some(Saved(ReadGuc(first.1.value.isAdmin), ReadGuc(second.1.value.currentTenant))))
  }

  /** The writes of `_enter_gucs`, and its undo of the first one when the second raises. */
  function WriteOrUndo(c: Conn, values: ContextGucs, saved: Saved, f: BlockFaults): (r: Ran)
    requires c.session.Some?
    ensures SameSetup(c, r.conn) && r.conn.session.Some?
  {
    var first := WriteSetting(c, IsAdmin, values.isAdmin, f.writeAdmin);
    if first.raised then first
    else
      var second := WriteSetting(first.conn, CurrentTenant, values.currentTenant, f.writeTenant);
      if !second.raised then second
      else
        var undone :=
            WriteSetting(second.conn.(needsRollback := false), IsAdmin, RestoredGuc(saved.isAdmin), f.restoreAdmin);
        Ran(undone.conn.(needsRollback := c.needsRollback), true, None)
  }

  /** `_enter_tenant_gucs` with session GUCs; without a snapshot it has raised, and undone what it did. */
  function EnterOnConnection(c: Conn, active: Option<ContextGucs>, values: ContextGucs, f: BlockFaults)
    : (r: (Conn, Option<Saved>))
    requires c.session.Some?
    ensures SameSetup(c, r.0) && r.0.session.Some?
  {
    var applied := ApplyIfStale(c, active, false, f.apply);
    if applied.raised then (applied.conn, None)
    else
      var (read, saved) := SnapshotAsItIs(applied.conn, f);
      if saved.None? then (read.(tracker := Forget(read.tracker)), None)
      else
        var wrote := WriteOrUndo(read, values, saved.value, f);
        if wrote.raised then (wrote.conn.(tracker := Forget(wrote.conn.tracker)), None)
        else (wrote.conn.(tracker :=
                          Record(wrote.conn.tracker, wrote.conn.session.value, Some(values), c.guarded, false)), saved)
  }

  /** The hop of an asynchronous entry, in `Context` `h`, a copy of the coroutine's. */
  function EnterInHop(sys: System, h: nat, values: ContextGucs, localMode: bool, f: BlockFaults): System
    requires Holders.WellFormed(sys.world) && HasContext(sys, h)
  {
    var enclosing := Holders.Current(sys.world, h);
    if localMode then sys.(blocks := sys.blocks + [Block(values, 0, None, enclosing, None, Entering)])
    else if sys.conn.session.None? then sys
    else
      var (conn, saved) := EnterOnConnection(sys.conn, Holders.Visible(sys.world, h), values, f);
      if saved.None? then sys.(conn := conn)
      else System(sys.world, conn, sys.blocks + [Block(values, 0, saved, enclosing, SessionOf(conn), Entering)])
  }

  /** The coroutine goes on, in its own `Context`. */
  function PushAfterHop(sys: System, b: nat, c: nat): System
    requires HasContext(sys, c) && b < |sys.blocks|
  {
    var block := sys.blocks[b];
    System(Holders.Enter(sys.world, c, Some(block.values), true), sys.conn,
           sys.blocks[b := block.(token := |sys.world.tokens|, stage := Open)])
  }

  // ---- Exiting ----

  /** What the exit writes back: nothing of an enclosing context that has ended meanwhile. */
  function WrittenBack(w: Holders.World, enclosing: Option<nat>, previous: Saved): Saved
    requires enclosing.Some? ==> enclosing.value < |w.lives|
  {
    if enclosing.Some? && !w.lives[enclosing.value].alive then NOTHING_SAVED else previous
  }

  /** The record of a restore made in the block's own `Context`. */
  function RecordRestore(c: Conn, outcome: RestoreOutcome, active: Option<ContextGucs>): Tracker
    requires c.session.Some?
  {
    var recorded := Record(c.tracker, c.session.value, active, c.guarded, false);
    match outcome
    case Raised => Forget(c.tracker)
    case SomeSkipped => Forget(recorded)
    case AllRestored => recorded
  }

  /** The record of a restore made in another `Context`. */
  function RecordUnknown(c: Conn, outcome: RestoreOutcome): Tracker
    requires c.session.Some?
  {
    if outcome == Raised then Forget(c.tracker) else SetValues(Look(c.tracker, c.session.value), Unknown, false)
  }

  /** `_restore_snapshot`; `current` and `active` are the `Context`'s once the block is reset. */
  function RestoreSnapshot(c: Conn, saved: Saved, block: Block, current: Option<nat>, active: Option<ContextGucs>,
                           excPending: bool, f: BlockFaults): (c': Conn)
    ensures SameSetup(c, c')
  {
    if c.session.None? then c.(tracker := Forget(c.tracker))
    else if current != block.enclosing && SessionOf(c) != block.session then c.(tracker := Forget(c.tracker))
    else
      var (r, outcome) := RestoreGucs(c, saved, excPending, f.restoreAdmin, f.restoreTenant);
      r.(tracker := if current == block.enclosing then RecordRestore(r, outcome, active) else RecordUnknown(r, outcome))
  }

  /** The exit of a block that wrote nothing: settle, then suspect. */
  function SettleAndSuspect(c: Conn, active: Option<ContextGucs>, fault: Fault): Conn {
    SuspectOne(SettleOne(c, true, false, active, true, fault).conn, true)
  }

  /** What the exit does to the connection; `w` is the state of the holders once the block is reset. */
  function LeaveConnection(conn: Conn, block: Block, w: Holders.World, c: nat, raised: bool, f: BlockFaults)
    : (conn': Conn)
    requires Holders.WellFormed(w) && c < |w.slots|
    requires block.enclosing.Some? ==> block.enclosing.value < |w.lives|
  {
    var active := Holders.Visible(w, c);
    if block.previous.None? then SettleAndSuspect(conn, active, f.settle)
    else RestoreSnapshot(conn, WrittenBack(w, block.enclosing, block.previous.value), block,
                         Holders.Current(w, c), active, raised, f)
  }

  /** The block can be reset: its holder was entered. */
  predicate CanReset(sys: System, b: nat) {
    && b < |sys.blocks| && sys.blocks[b].token < |sys.world.tokens|
    && (sys.blocks[b].enclosing.Some? ==> sys.blocks[b].enclosing.value < |sys.world.lives|)
  }

  /** `_rls_state` is left, in whatever `Context` the block's generator is closed. */
  function ResetBlock(sys: System, b: nat, c: nat, excPending: bool): System
    requires Holders.WellFormed(sys.world) && HasContext(sys, c) && CanReset(sys, b)
  {
    var block := sys.blocks[b];
    var raised := excPending || Holders.ResetOutcomeOf(sys.world, c, block.token) != Holders.Done;
    System(Holders.Exit(sys.world, c, block.token), sys.conn, sys.blocks[b := block.(stage := Leaving(raised))])
  }

  /** `_restore_tenant_gucs`, in `Context` `h`. */
  function RestoreBlock(sys: System, b: nat, h: nat, raised: bool, f: BlockFaults): System
    requires Holders.WellFormed(sys.world) && HasContext(sys, h) && b < |sys.blocks|
    requires sys.blocks[b].enclosing.Some? ==> sys.blocks[b].enclosing.value < |sys.world.lives|
  {
    var block := sys.blocks[b];
    System(sys.world, LeaveConnection(sys.conn, block, sys.world, h, raised, f), sys.blocks[b := block.(stage := Left)])
  }

  /** The exit of a synchronous block does both at once. */
  function ExitBlock(sys: System, b: nat, c: nat, excPending: bool, f: BlockFaults): System
    requires Holders.WellFormed(sys.world) && HasContext(sys, c) && CanReset(sys, b)
  {
    var reset := ResetBlock(sys, b, c, excPending);
    RestoreBlock(reset, b, c, reset.blocks[b].stage.raised, f)
  }

  /** The second hop of an entry that was cancelled during the first: it does not know the session. */
  function UndoInHop(sys: System, b: nat, h: nat, f: BlockFaults): System
    requires Holders.WellFormed(sys.world) && HasContext(sys, h) && b < |sys.blocks|
    requires sys.blocks[b].enclosing.Some? ==> sys.blocks[b].enclosing.value < |sys.world.lives|
  {
    RestoreBlock(sys.(blocks := sys.blocks[b := sys.blocks[b].(session := None)]), b, h, true, f)
  }

  // ---- Runs ----

  /** `Contexts`: anything done to the holders; `Connection`: anything done to the connection but a
      statement; `SettleFor`: the exit, in `context`, of a block that wrote on another alias. `Enter` and
      `Exit` are synchronous; the last five are the halves of an asynchronous entry and exit, and the
      undo of a cancelled entry. */
  datatype Event =
    | Contexts(holders: Holders.Event)
    | Connection(event: Runs.Event)
    | RunIn(context: nat, q: Guard.Statement, run: Faults)
    | Enter(context: nat, values: ContextGucs, faults: BlockFaults)
    | Exit(block: nat, context: nat, excPending: bool, faults: BlockFaults)
    | SettleFor(context: nat, all: bool, cleared: bool, fault: Fault)
    | HopIn(context: nat, values: ContextGucs, faults: BlockFaults)
    | Push(block: nat, context: nat)
    | Reset(block: nat, context: nat, excPending: bool)
    | HopOut(block: nat, context: nat, faults: BlockFaults)
    | HopBack(block: nat, context: nat, faults: BlockFaults)

  /** The `Context` of `e` exists, and its block is at the right stage. */
  predicate Possible(sys: System, e: Event) {
    match e
    case Contexts(_) => true
    case Connection(_) => true
    case Exit(b, c, _, _) => HasContext(sys, c) && b < |sys.blocks| && sys.blocks[b].stage.Open?
    case Push(b, c) => HasContext(sys, c) && b < |sys.blocks| && sys.blocks[b].stage.Entering?
    case Reset(b, c, _) => HasContext(sys, c) && b < |sys.blocks| && sys.blocks[b].stage.Open?
    case HopOut(b, c, _) => HasContext(sys, c) && b < |sys.blocks| && sys.blocks[b].stage.Leaving?
    case HopBack(b, c, _) => HasContext(sys, c) && b < |sys.blocks| && sys.blocks[b].stage.Entering?
    case _ => HasContext(sys, e.context)
  }

  /** The run of `q` in `c`: what the guard makes of it under that `Context`'s values. */
  function RunStatementIn(sys: System, c: nat, localMode: bool, q: Guard.Statement, f: Faults): Ran
    requires Holders.WellFormed(sys.world) && HasContext(sys, c)
  {
    if sys.conn.session.None? then Ran(sys.conn, true, None)
    else GuardStep(sys.conn, Holders.Visible(sys.world, c), localMode, q, f)
  }

  function Step(sys: System, e: Event, localMode: bool): System
    requires SystemInv(sys)
  {
    if !Possible(sys, e) then sys
    else match e
      case Contexts(h) => sys.(world := Holders.Step(sys.world, h))
      case Connection(r) => sys.(conn := Runs.Step(sys.conn, r, localMode).conn)
      case RunIn(c, q, f) => sys.(conn := RunStatementIn(sys, c, localMode, q, f).conn)
      case Enter(c, values, f) => EnterBlock(sys, c, values, localMode, f)
      case Exit(b, c, excPending, f) => ExitBlock(sys, b, c, excPending, f)
      case SettleFor(c, all, cleared, fault) =>
        sys.(conn := SettleOne(sys.conn, all, cleared, Holders.Visible(sys.world, c), localMode, fault).conn)
      case HopIn(h, values, f) => EnterInHop(sys, h, values, localMode, f)
      case Push(b, c) => PushAfterHop(sys, b, c)
      case Reset(b, c, excPending) => ResetBlock(sys, b, c, excPending)
      case HopOut(b, h, f) => RestoreBlock(sys, b, h, sys.blocks[b].stage.raised, f)
      case HopBack(b, h, f) => UndoInHop(sys, b, h, f)
  }

  /** The limits the guard works within; a statement is `RunIn` a `Context`. */
  ghost predicate Legal(sys: System, e: Event) {
    match e
    case Connection(r) => !r.Statement? && !r.Apply? && Runs.Legal(sys.conn, r)
    case RunIn(_, q, f) => sys.conn.session.Some? ==> StepAllowed(sys.conn, q, f)
    case _ => true
  }

  // ---- The invariant ----

  /** The block's snapshot is what its enclosing context shows, as long as that lives. */
  ghost predicate BlockInv(w: Holders.World, b: Block) {
    && (b.stage.Open? ==> b.token < |w.tokens| && !w.tokens[b.token].hold)
    && (b.enclosing.Some? ==> b.enclosing.value < |w.lives|)
    && (b.previous.Some? && b.enclosing.None? ==> Restored(b.previous.value) == CLEARED)
    && (b.previous.Some? && b.enclosing.Some? && w.lives[b.enclosing.value].alive ==>
          Restored(b.previous.value) == OnSession(w.lives[b.enclosing.value].values))
  }

  ghost predicate SystemInv(sys: System) {
    && Holders.WellFormed(sys.world) && ConnInv(sys.conn) && sys.conn.guarded
    && forall b :: 0 <= b < |sys.blocks| ==> BlockInv(sys.world, sys.blocks[b])
  }

  lemma LaterKeepsBlocks(w: Holders.World, w': Holders.World, blocks: seq<Block>)
    requires HolderProperties.Later(w, w')
    requires forall b :: 0 <= b < |blocks| ==> BlockInv(w, blocks[b])
    ensures forall b :: 0 <= b < |blocks| ==> BlockInv(w', blocks[b])
  {
  }

  lemma ReadSettingsReads(c: Conn, active: Option<ContextGucs>, f: Faults)
    requires c.session.Some? && ConnInv(c) && c.guarded
    ensures var (c', read) := ReadSettings(c, active, f);
            ConnInv(c') && (read.Some? ==> read.value == OnSession(active))
  {
    GuardKeeps(c, active, false, Data(false), f);
    GuardShowsActiveContext(c, active, false, Data(false), f);
  }

  /** The snapshot a block takes is what the context around it shows. */
  lemma SnapshotIsTheEnclosingContext(c: Conn, active: Option<ContextGucs>, f: BlockFaults)
    requires c.session.Some? && ConnInv(c) && c.guarded
    ensures var (c', saved) := Snapshot(c, active, f);
            ConnInv(c') && (saved.Some? ==> Restored(saved.value) == OnSession(active))
  {
    ReadSettingsReads(c, active, f.readAdmin);
    var (first, read) := ReadSettings(c, active, f.readAdmin);
    if read.Some? && first.session.Some? {
      ReadSettingsReads(first, active, f.readTenant);
    }
  }

  lemma ReadsAsItIs(c: Conn, fault: Fault, v: ContextGucs)
    requires c.session.Some? && ConnInv(c)
    requires c.session.value.shown == v || c.session.value.status in {InError, Bad} || c.needsRollback
    ensures var (c', read) := ReadAsItIs(c, fault);
            && ConnInv(c') && (read.Some? ==> read.value == v)
            && (c'.session.value.shown == v || c'.session.value.status in {InError, Bad} || c'.needsRollback)
  {
    var looked := c.(tracker := Look(c.tracker, c.session.value));
    LookKeeps(c.tracker, c.session.value);
    UntouchedKeeps(looked, Data(false), fault);
    ExecuteShows(looked, Data(false), fault);
  }

  /** The snapshot a hop takes is what its `Context` shows, too. */
  lemma HopReadsTheEnclosingContext(c: Conn, active: Option<ContextGucs>, f: BlockFaults)
    requires c.session.Some? && ConnInv(c) && c.guarded
    ensures var applied := ApplyIfStale(c, active, false, f.apply);
            && ConnInv(applied.conn)
            && (!applied.raised ==>
                  var (read, saved) := SnapshotAsItIs(applied.conn, f);
                  ConnInv(read) && (saved.Some? ==> Restored(saved.value) == OnSession(active)))
  {
    ApplyIfStaleKeeps(c, active, false, f.apply);
    AppliedShows(c, active, false, f.apply);
    var applied := ApplyIfStale(c, active, false, f.apply);
    if !applied.raised {
      ReadsAsItIs(applied.conn, f.readAdmin.statement, OnSession(active));
      var first := ReadAsItIs(applied.conn, f.readAdmin.statement);
      ReadsAsItIs(first.0, f.readTenant.statement, OnSession(active));
    }
  }

  /** An undone entry leaves half a write, at most. */
  lemma UndoneIsHalf(c: Conn, values: ContextGucs, saved: Saved, f: BlockFaults)
    requires Half(c)
    ensures Half(WriteOrUndo(c, values, saved, f).conn)
  {
    var first := WriteSetting(c, IsAdmin, values.isAdmin, f.writeAdmin);
    WriteSettingIsHalf(c, IsAdmin, values.isAdmin, f.writeAdmin);
    WriteSettingIsHalf(first.conn, CurrentTenant, values.currentTenant, f.writeTenant);
    var second := WriteSetting(first.conn, CurrentTenant, values.currentTenant, f.writeTenant);
    WriteSettingIsHalf(second.conn.(needsRollback := false), IsAdmin, RestoredGuc(saved.isAdmin), f.restoreAdmin);
  }

  lemma HopKeeps(c: Conn, active: Option<ContextGucs>, values: ContextGucs, f: BlockFaults)
    requires c.session.Some? && ConnInv(c) && c.guarded
    ensures var (c', saved) := EnterOnConnection(c, active, values, f);
            ConnInv(c') && (saved.Some? ==> Restored(saved.value) == OnSession(active))
  {
    HopReadsTheEnclosingContext(c, active, f);
    var applied := ApplyIfStale(c, active, false, f.apply);
    if !applied.raised {
      var (read, saved) := SnapshotAsItIs(applied.conn, f);
      ForgetKeeps(read.tracker, read.session.value);
      if saved.Some? {
        WholeIsHalf(read);
        UndoneIsHalf(read, values, saved.value, f);
        var wrote := WriteOrUndo(read, values, saved.value, f);
        if !wrote.raised {
          assert wrote == WriteBoth(read, values, f.writeAdmin, f.writeTenant);
          RecordedBothKeeps(read, Some(values), f.writeAdmin, f.writeTenant);
        }
      }
    }
  }

  lemma WriteOnEntryKeeps(c: Conn, values: ContextGucs, f: BlockFaults)
    requires c.session.Some? && ConnInv(c)
    ensures ConnInv(WriteOnEntry(c, values, f).0)
  {
    WholeIsHalf(c);
    WriteBothIsHalf(c, values, f.writeAdmin, f.writeTenant);
    if !WriteBoth(c, values, f.writeAdmin, f.writeTenant).raised {
      RecordedBothKeeps(c, Some(values), f.writeAdmin, f.writeTenant);
    }
  }

  /** What an exit writes back is what the context active again shows. */
  lemma WrittenBackIsTheEnclosingContext(w: Holders.World, c: nat, b: Block)
    requires Holders.WellFormed(w) && c < |w.slots| && BlockInv(w, b) && b.previous.Some?
    requires Holders.Current(w, c) == b.enclosing
    ensures Restored(WrittenBack(w, b.enclosing, b.previous.value)) == OnSession(Holders.Visible(w, c))
  {
  }

  /** A restore made in the block's own `Context`, or another one, is recorded soundly. */
  lemma RecordedRestoreKeeps(c: Conn, v: ContextGucs, active: Option<ContextGucs>, excPending: bool, f1: Fault,
                             f2: Fault)
    requires c.session.Some? && ConnInv(c)
    ensures var (r, outcome) := RestoreLifted(c, v, excPending, f1, f2);
            && Inv(RecordUnknown(r, outcome), r.session.value)
            && (v == OnSession(active) ==> Inv(RecordRestore(r, outcome, active), r.session.value))
  {
    WholeIsHalf(c);
    RestoreIsHalf(c, v, excPending, f1, f2);
    var (r, outcome) := RestoreLifted(c, v, excPending, f1, f2);
    if outcome == AllRestored {
      AllRestoredWritesBoth(c, v, excPending, f1, f2);
      if v == OnSession(active) {
        RecordedBothKeeps(c, active, f1, f2);
      }
    } else if c.guarded {
      ForgottenRecordKeeps(r.tracker, r.session.value, active);
    } else {
      ForgetKeeps(Forget(Look(r.tracker, r.session.value)), r.session.value);
    }
  }

  lemma RestoreKeeps(c: Conn, saved: Saved, block: Block, current: Option<nat>, active: Option<ContextGucs>,
                     excPending: bool, f: BlockFaults)
    requires ConnInv(c)
    requires current == block.enclosing ==> Restored(saved) == OnSession(active)
    ensures ConnInv(RestoreSnapshot(c, saved, block, current, active, excPending, f))
  {
    if c.session.Some? {
      ForgetKeeps(c.tracker, c.session.value);
      RecordedRestoreKeeps(c.(needsRollback := false), Restored(saved), active, excPending, f.restoreAdmin,
                           f.restoreTenant);
    }
  }

  /** A block that is exited where it was entered, and restored, leaves the session at the context
      that is active again, and the tracker knowing so. */
  lemma RestoredHolds(c: Conn, saved: Saved, block: Block, current: Option<nat>, active: Option<ContextGucs>,
                      excPending: bool, f: BlockFaults)
    requires c.session.Some? && ConnInv(c) && c.guarded && current == block.enclosing
    requires Restored(saved) == OnSession(active)
    requires RestoreGucs(c, saved, excPending, f.restoreAdmin, f.restoreTenant).1 == AllRestored
    ensures var c' := RestoreSnapshot(c, saved, block, current, active, excPending, f);
            Holds(c', active) && c'.session.value.kept == OnSession(active)
  {
    var lifted := c.(needsRollback := false);
    AllRestoredWritesBoth(lifted, Restored(saved), excPending, f.restoreAdmin, f.restoreTenant);
    WrittenBoth(lifted, OnSession(active), f.restoreAdmin, f.restoreTenant);
  }

  lemma ResetKeeps(sys: System, b: nat, c: nat, excPending: bool)
    requires SystemInv(sys) && HasContext(sys, c) && b < |sys.blocks| && sys.blocks[b].stage.Open?
    ensures CanReset(sys, b) && SystemInv(ResetBlock(sys, b, c, excPending))
    ensures HasContext(ResetBlock(sys, b, c, excPending), c)
  {
    assert BlockInv(sys.world, sys.blocks[b]);
    var w := Holders.Exit(sys.world, c, sys.blocks[b].token);
    ExitIsLater(sys.world, c, sys.blocks[b].token);
    LaterKeepsBlocks(sys.world, w, sys.blocks);
  }

  lemma RestoreBlockKeeps(sys: System, b: nat, h: nat, raised: bool, f: BlockFaults)
    requires SystemInv(sys) && HasContext(sys, h) && b < |sys.blocks|
    ensures sys.blocks[b].enclosing.Some? ==> sys.blocks[b].enclosing.value < |sys.world.lives|
    ensures SystemInv(RestoreBlock(sys, b, h, raised, f))
  {
    assert BlockInv(sys.world, sys.blocks[b]);
    LeaveKeeps(sys.conn, sys.blocks[b], sys.world, h, raised, f);
  }

  lemma ExitKeeps(sys: System, b: nat, c: nat, excPending: bool, f: BlockFaults)
    requires SystemInv(sys) && HasContext(sys, c) && b < |sys.blocks| && sys.blocks[b].stage.Open?
    ensures CanReset(sys, b) && SystemInv(ExitBlock(sys, b, c, excPending, f))
  {
    ResetKeeps(sys, b, c, excPending);
    var reset := ResetBlock(sys, b, c, excPending);
    RestoreBlockKeeps(reset, b, c, reset.blocks[b].stage.raised, f);
  }

  lemma UndoKeeps(sys: System, b: nat, h: nat, f: BlockFaults)
    requires SystemInv(sys) && HasContext(sys, h) && b < |sys.blocks|
    ensures sys.blocks[b].enclosing.Some? ==> sys.blocks[b].enclosing.value < |sys.world.lives|
    ensures SystemInv(UndoInHop(sys, b, h, f))
  {
    assert BlockInv(sys.world, sys.blocks[b]);
    RestoreBlockKeeps(sys.(blocks := sys.blocks[b := sys.blocks[b].(session := None)]), b, h, true, f);
  }

  lemma EnterInHopKeeps(sys: System, h: nat, values: ContextGucs, localMode: bool, f: BlockFaults)
    requires SystemInv(sys) && HasContext(sys, h)
    ensures SystemInv(EnterInHop(sys, h, values, localMode, f))
  {
    if !localMode && sys.conn.session.Some? {
      HopKeeps(sys.conn, Holders.Visible(sys.world, h), values, f);
    }
  }

  lemma PushAfterHopKeeps(sys: System, b: nat, c: nat)
    requires SystemInv(sys) && HasContext(sys, c) && b < |sys.blocks|
    ensures SystemInv(PushAfterHop(sys, b, c))
  {
    var entered := Holders.Entered(c, Some(sys.blocks[b].values), true);
    HolderProperties.StepIsLater(sys.world, entered);
    LaterKeepsBlocks(sys.world, Holders.Step(sys.world, entered), sys.blocks);
  }

  lemma LeaveKeeps(conn: Conn, block: Block, w: Holders.World, c: nat, raised: bool, f: BlockFaults)
    requires Holders.WellFormed(w) && c < |w.slots| && BlockInv(w, block) && ConnInv(conn) && conn.guarded
    ensures var conn' := LeaveConnection(conn, block, w, c, raised, f);
            ConnInv(conn') && conn'.guarded
  {
    var active := Holders.Visible(w, c);
    if block.previous.None? {
      SettleOneKeeps(conn, true, false, active, true, f.settle);
      SuspectOneKeeps(SettleOne(conn, true, false, active, true, f.settle).conn, true);
    } else {
      if Holders.Current(w, c) == block.enclosing {
        WrittenBackIsTheEnclosingContext(w, c, block);
      }
      RestoreKeeps(conn, WrittenBack(w, block.enclosing, block.previous.value), block, Holders.Current(w, c), active,
                   raised, f);
    }
  }

  lemma ExitIsLater(w: Holders.World, c: nat, k: nat)
    requires Holders.WellFormed(w) && c < |w.slots| && k < |w.tokens|
    ensures Holders.WellFormed(Holders.Exit(w, c, k)) && HolderProperties.Later(w, Holders.Exit(w, c, k))
  {
  }

  lemma PushKeeps(sys: System, c: nat, values: ContextGucs, previous: Option<Saved>)
    requires SystemInv(sys) && HasContext(sys, c)
    requires previous.Some? ==> Restored(previous.value) == OnSession(Holders.Visible(sys.world, c))
    ensures SystemInv(PushBlock(sys, c, values, previous)) && HasContext(PushBlock(sys, c, values, previous), c)
  {
    var w := Holders.Enter(sys.world, c, Some(values), true);
    HolderProperties.StepIsLater(sys.world, Holders.Entered(c, Some(values), true));
    LaterKeepsBlocks(sys.world, w, sys.blocks);
  }

  lemma EnterWithKeeps(sys: System, c: nat, values: ContextGucs, saved: Saved, f: BlockFaults)
    requires SystemInv(sys) && HasContext(sys, c) && sys.conn.session.Some?
    requires Restored(saved) == OnSession(Holders.Visible(sys.world, c))
    ensures SystemInv(EnterWith(sys, c, values, saved, f))
  {
    PushKeeps(sys, c, values, Some(saved));
    WriteOnEntryKeeps(sys.conn, values, f);
    var pushed := PushBlock(sys, c, values, Some(saved)).(conn := WriteOnEntry(sys.conn, values, f).0);
    assert SystemInv(pushed);
    if WriteOnEntry(sys.conn, values, f).1 {
      ExitKeeps(pushed, |sys.blocks|, c, true, f);
    }
  }

  lemma EnterKeeps(sys: System, c: nat, values: ContextGucs, localMode: bool, f: BlockFaults)
    requires SystemInv(sys) && HasContext(sys, c)
    ensures SystemInv(EnterBlock(sys, c, values, localMode, f))
  {
    if localMode {
      PushKeeps(sys, c, values, None);
    } else if sys.conn.session.Some? {
      var active := Holders.Visible(sys.world, c);
      SnapshotIsTheEnclosingContext(sys.conn, active, f);
      var (conn, saved) := Snapshot(sys.conn, active, f);
      if saved.Some? && conn.session.Some? {
        EnterWithKeeps(sys.(conn := conn), c, values, saved.value, f);
      }
    }
  }

  lemma StepKeeps(sys: System, e: Event, localMode: bool)
    requires SystemInv(sys) && Legal(sys, e)
    ensures SystemInv(Step(sys, e, localMode))
  {
    if Possible(sys, e) {
      match e
      case Contexts(h) =>
        HolderProperties.StepIsLater(sys.world, h);
        LaterKeepsBlocks(sys.world, Holders.Step(sys.world, h), sys.blocks);
      case Connection(r) =>
        Runs.StepKeeps(sys.conn, r, localMode);
        Runs.StepKeepsGuarded(sys.conn, r, localMode);
      case RunIn(c, q, f) =>
        if sys.conn.session.Some? {
          GuardKeeps(sys.conn, Holders.Visible(sys.world, c), localMode, q, f);
        }
      case Enter(c, values, f) => EnterKeeps(sys, c, values, localMode, f);
      case Exit(b, c, excPending, f) => ExitKeeps(sys, b, c, excPending, f);
      case SettleFor(c, all, cleared, fault) =>
        SettleOneKeeps(sys.conn, all, cleared, Holders.Visible(sys.world, c), localMode, fault);
      case HopIn(h, values, f) => EnterInHopKeeps(sys, h, values, localMode, f);
      case Push(b, c) => PushAfterHopKeeps(sys, b, c);
      case Reset(b, c, excPending) => ResetKeeps(sys, b, c, excPending);
      case HopOut(b, h, f) => RestoreBlockKeeps(sys, b, h, sys.blocks[b].stage.raised, f);
      case HopBack(b, h, f) => UndoKeeps(sys, b, h, f);
    }
  }

  function Run(sys: System, events: seq<Event>, localMode: bool): (sys': System)
    requires SystemInv(sys) && LegalRun(sys, events, localMode)
    ensures SystemInv(sys')
    decreases |events|
  {
    if events == [] then sys
    else
      StepKeeps(sys, events[0], localMode);
      Run(Step(sys, events[0], localMode), events[1..], localMode)
  }

  ghost predicate LegalRun(sys: System, events: seq<Event>, localMode: bool)
    requires SystemInv(sys)
    decreases |events|
  {
    events == [] ||
    (Legal(sys, events[0]) &&
     (StepKeeps(sys, events[0], localMode); LegalRun(Step(sys, events[0], localMode), events[1..], localMode)))
  }

  // ---- What a run does to the holders ----

  /** What an event does to the holders, as events of theirs. */
  function HolderEvents(sys: System, e: Event, localMode: bool): seq<Holders.Event>
    requires SystemInv(sys)
  {
    if !Possible(sys, e) then []
    else match e
      case Contexts(h) => [h]
      case Exit(b, c, _, _) => [Holders.Exited(c, sys.blocks[b].token)]
      case Enter(c, values, f) => EntryEvents(sys, c, values, localMode, f)
      case Push(b, c) => [Holders.Entered(c, Some(sys.blocks[b].values), true)]
      case Reset(b, c, _) => [Holders.Exited(c, sys.blocks[b].token)]
      case _ => []
  }

  function EntryEvents(sys: System, c: nat, values: ContextGucs, localMode: bool, f: BlockFaults): seq<Holders.Event>
    requires Holders.WellFormed(sys.world) && HasContext(sys, c)
  {
    var entered := Holders.Entered(c, Some(values), true);
    if localMode then [entered]
    else if sys.conn.session.None? then []
    else
      var (conn, saved) := Snapshot(sys.conn, Holders.Visible(sys.world, c), f);
      if saved.None? || conn.session.None? then []
      else if WriteOnEntry(conn, values, f).1 then [entered, Holders.Exited(c, |sys.world.tokens|)]
      else [entered]
  }

  function Trace(sys: System, events: seq<Event>, localMode: bool): seq<Holders.Event>
    requires SystemInv(sys) && LegalRun(sys, events, localMode)
    decreases |events|
  {
    if events == [] then []
    else
      StepKeeps(sys, events[0], localMode);
      HolderEvents(sys, events[0], localMode) + Trace(Step(sys, events[0], localMode), events[1..], localMode)
  }

  lemma OneHolderEvent(w: Holders.World, e: Holders.Event)
    requires Holders.WellFormed(w)
    ensures Holders.Run(w, [e]) == Holders.Step(w, e)
  {
    HolderProperties.RunOneMore(w, [], e);
    assert [] + [e] == [e];
  }

  lemma EntryMovesHolders(sys: System, c: nat, values: ContextGucs, localMode: bool, f: BlockFaults)
    requires SystemInv(sys) && HasContext(sys, c)
    ensures Holders.Run(sys.world, EntryEvents(sys, c, values, localMode, f)) ==
              EnterBlock(sys, c, values, localMode, f).world
  {
    var entered := Holders.Entered(c, Some(values), true);
    var exited := Holders.Exited(c, |sys.world.tokens|);
    OneHolderEvent(sys.world, entered);
    HolderProperties.RunOneMore(sys.world, [entered], exited);
    assert [entered] + [exited] == [entered, exited];
    var w := Holders.Enter(sys.world, c, Some(values), true);
    assert Holders.Step(sys.world, entered) == w;
    assert Holders.Possible(w, exited);
    assert Holders.Step(w, exited) == Holders.Exit(w, c, |sys.world.tokens|);
  }

  lemma StepMovesHolders(sys: System, e: Event, localMode: bool)
    requires SystemInv(sys)
    ensures Holders.Run(sys.world, HolderEvents(sys, e, localMode)) == Step(sys, e, localMode).world
  {
    if Possible(sys, e) {
      match e
      case Contexts(h) => OneHolderEvent(sys.world, h);
      case Exit(b, c, _, _) => OneHolderEvent(sys.world, Holders.Exited(c, sys.blocks[b].token));
      case Reset(b, c, _) => OneHolderEvent(sys.world, Holders.Exited(c, sys.blocks[b].token));
      case Push(b, c) => OneHolderEvent(sys.world, Holders.Entered(c, Some(sys.blocks[b].values), true));
      case Enter(c, values, f) => EntryMovesHolders(sys, c, values, localMode, f);
      case _ =>
    }
  }

  /** The holders after a run are those after its events of theirs. */
  lemma {:induction false} TraceMovesHolders(sys: System, events: seq<Event>, localMode: bool)
    requires SystemInv(sys) && LegalRun(sys, events, localMode)
    ensures Holders.Run(sys.world, Trace(sys, events, localMode)) == Run(sys, events, localMode).world
    decreases |events|
  {
    if events != [] {
      StepKeeps(sys, events[0], localMode);
      StepMovesHolders(sys, events[0], localMode);
      TraceMovesHolders(Step(sys, events[0], localMode), events[1..], localMode);
      HolderProperties.RunSplits(sys.world, HolderEvents(sys, events[0], localMode),
                                 Trace(Step(sys, events[0], localMode), events[1..], localMode));
    }
  }

  // ---- Every run ----

  /** After any run, in either mode: a data statement any task runs sees the values of the innermost
      live context of that task, and nothing of its siblings'. */
  lemma EveryTaskSeesItsOwnContext(sys: System, events: seq<Event>, localMode: bool, c: nat, q: Guard.Statement,
                                   f: Faults)
    requires SystemInv(sys) && LegalRun(sys, events, localMode)
    requires var sys' := Run(sys, events, localMode);
             && HasContext(sys', c) && !IsControl(q)
             && (sys'.conn.session.Some? ==>
                   !RunsAsItIs(sys'.conn, Holders.Visible(sys'.world, c), localMode, q))
    ensures var sys' := Run(sys, events, localMode);
            var ran := RunStatementIn(sys', c, localMode, q, f);
            ran.showed.Some? ==> ran.showed.value == OnSession(Holders.Visible(sys'.world, c))
  {
    var sys' := Run(sys, events, localMode);
    if sys'.conn.session.Some? {
      GuardShowsActiveContext(sys'.conn, Holders.Visible(sys'.world, c), localMode, q, f);
    }
  }

  /** The values of a holder while it lives. */
  function ValuesOf(w: Holders.World, live: Option<nat>): Option<ContextGucs>
    requires live.Some? ==> live.value < |w.lives|
  {
    if live.Some? && w.lives[live.value].alive then w.lives[live.value].values else None
  }

  /** A synchronous exit, the second half of an asynchronous one, or the undo of a cancelled entry. */
  predicate IsRestore(e: Event) {
    e.Exit? || e.HopOut? || e.HopBack?
  }

  /** The holders when it restores. */
  function WorldAtRestore(sys: System, e: Event): (w: Holders.World)
    requires SystemInv(sys) && IsRestore(e) && Possible(sys, e)
    ensures Holders.WellFormed(w) && |w.lives| == |sys.world.lives| && |w.slots| == |sys.world.slots|
  {
    if e.Exit? then Holders.Exit(sys.world, e.context, sys.blocks[e.block].token) else sys.world
  }

  function RaisedAtRestore(sys: System, e: Event): bool
    requires SystemInv(sys) && IsRestore(e) && Possible(sys, e)
  {
    match e
    case Exit(b, c, excPending, _) =>
      excPending || Holders.ResetOutcomeOf(sys.world, c, sys.blocks[b].token) != Holders.Done
    case HopOut(b, _, _) => sys.blocks[b].stage.raised
    case _ => true
  }

  /** The exit of a block that wrote the settings puts every setting back. */
  predicate RestoresAll(sys: System, e: Event)
    requires SystemInv(sys)
  {
    && IsRestore(e) && Possible(sys, e) && sys.conn.session.Some?
    && var block := sys.blocks[e.block];
    && block.previous.Some?
    && var w := WorldAtRestore(sys, e);
    && Holders.Current(w, e.context) == block.enclosing
    && RestoreGucs(sys.conn, WrittenBack(w, block.enclosing, block.previous.value), RaisedAtRestore(sys, e),
                   e.faults.restoreAdmin, e.faults.restoreTenant).1 == AllRestored
  }

  /** Blocks of sibling tasks, synchronous and asynchronous, may exit in any order, with anything between
      the halves of an entry or exit: after any run, what restores a block leaves the session at the
      context that encloses that block, or cleared if that has ended, and the tracker knows. */
  lemma EveryExitLeavesTheEnclosingContext(sys: System, events: seq<Event>, e: Event)
    requires SystemInv(sys) && LegalRun(sys, events, false)
    requires RestoresAll(Run(sys, events, false), e)
    ensures var before := Run(sys, events, false);
            var after := Step(before, e, false);
            var enclosing := before.blocks[e.block].enclosing;
            && enclosing == Holders.Current(after.world, e.context)
            && Holds(after.conn, ValuesOf(after.world, enclosing))
            && after.conn.session.value.kept == OnSession(ValuesOf(after.world, enclosing))
  {
    RestoreLeavesTheEnclosingContext(Run(sys, events, false), e);
  }

  lemma RestoreLeavesTheEnclosingContext(sys: System, e: Event)
    requires SystemInv(sys) && RestoresAll(sys, e)
    ensures var after, enclosing := Step(sys, e, false), sys.blocks[e.block].enclosing;
            && after.world == WorldAtRestore(sys, e) && enclosing == Holders.Current(after.world, e.context)
            && Holds(after.conn, ValuesOf(after.world, enclosing))
            && after.conn.session.value.kept == OnSession(ValuesOf(after.world, enclosing))
  {
    var block, w := sys.blocks[e.block], WorldAtRestore(sys, e);
    assert BlockInv(sys.world, block);
    if e.Exit? {
      ExitIsLater(sys.world, e.context, block.token);
      LaterKeepsBlocks(sys.world, w, sys.blocks);
    }
    assert BlockInv(w, block);
    RestoredBlockHolds(sys.conn, block, w, e.context, RaisedAtRestore(sys, e), e.faults);
    RestoreIsLeave(sys, e);
  }

  lemma RestoreIsLeave(sys: System, e: Event)
    requires SystemInv(sys) && IsRestore(e) && Possible(sys, e)
    ensures var w, block := WorldAtRestore(sys, e), sys.blocks[e.block];
            && (block.enclosing.Some? ==> block.enclosing.value < |w.lives|)
            && Step(sys, e, false).world == w
            && (var left := LeaveConnection(sys.conn, block, w, e.context, RaisedAtRestore(sys, e), e.faults);
                var undone :=
                    LeaveConnection(sys.conn, block.(session := None), w, e.context, RaisedAtRestore(sys, e), e.faults);
                Step(sys, e, false).conn == if e.HopBack? then undone else left)
  {
    assert BlockInv(sys.world, sys.blocks[e.block]);
  }

  lemma RestoredBlockHolds(conn: Conn, block: Block, w: Holders.World, c: nat, raised: bool, f: BlockFaults)
    requires Holders.WellFormed(w) && c < |w.slots| && BlockInv(w, block) && block.previous.Some?
    requires conn.session.Some? && ConnInv(conn) && conn.guarded && Holders.Current(w, c) == block.enclosing
    requires RestoreGucs(conn, WrittenBack(w, block.enclosing, block.previous.value), raised, f.restoreAdmin,
                         f.restoreTenant).1
             == AllRestored
    ensures var left := LeaveConnection(conn, block, w, c, raised, f);
            Holds(left, ValuesOf(w, block.enclosing))
            && left.session.value.kept == OnSession(ValuesOf(w, block.enclosing))
    ensures LeaveConnection(conn, block.(session := None), w, c, raised, f) ==
              LeaveConnection(conn, block, w, c, raised, f)
  {
    WrittenBackIsTheEnclosingContext(w, c, block);
    RestoredHolds(conn, WrittenBack(w, block.enclosing, block.previous.value), block, Holders.Current(w, c),
                  Holders.Visible(w, c), raised, f);
  }
}
