/** The context blocks as the library runs them, on a connection and the holders, in place. */
module ContextBlocks {
  import opened Gucs
  import opened Sessions
  import opened Trackers
  import opened TrackerSoundness
  import opened Guard
  import opened GuardedConnections
  import opened Aliases
  import opened AliasLoops
  import opened Snapshots
  import opened HolderObjects
  import Holders
  import Blocks

  /** `set_guc` inside `writing()`. */
  method SetGuc(c: GuardedConnection, setting: Setting, v: string, fault: Fault) returns (raised: bool)
    requires c.session.Some?
    modifies c`session, c.tracker
    ensures var r := WriteSetting(old(c.State()), setting, v, fault);
            c.State() == r.conn && raised == r.raised
  {
    var _ := c.Observe();
    var s := c.session.value;
    if c.needsRollback || s.status == Bad || fault == NotSent {
      return true;
    }
    s := OpenedFor(s, c.autocommit);
    raised := true;
    if s.status != InError {
      match fault
      case Fine => s, raised := PutSession(s, setting, v), false;
      case Interrupted => s := PutSession(s, setting, v);
      case Lost => s := s.(status := Bad);
      case _ => s := Fail(s);
    }
    c.session := Some(s);
  }

  /** The restores of `restore_gucs`, with the rollback mark lifted. */
  method RestoreEach(c: GuardedConnection, v: ContextGucs, excPending: bool, f1: Fault, f2: Fault)
    returns (outcome: RestoreOutcome)
    requires c.session.Some?
    modifies c`session, c.tracker
    ensures (c.State(), outcome) == RestoreLifted(old(c.State()), v, excPending, f1, f2)
  {
    var raised1 := SetGuc(c, IsAdmin, v.isAdmin, f1);
    if raised1 && !(excPending && !NotOfDatabase(f1)) {
      return Raised;
    }
    var raised2 := SetGuc(c, CurrentTenant, v.currentTenant, f2);
    if raised2 && !(excPending && !NotOfDatabase(f2)) {
      return Raised;
    }
    return if raised1 || raised2 then SomeSkipped else AllRestored;
  }

  /** `restore_gucs`: lifts the rollback mark, and puts it back on every path. */
  method RestoreSaved(c: GuardedConnection, saved: Saved, excPending: bool, f1: Fault, f2: Fault)
    returns (outcome: RestoreOutcome)
    requires c.session.Some?
    modifies c`session, c`needsRollback, c.tracker
    ensures (c.State(), outcome) == RestoreGucs(old(c.State()), saved, excPending, f1, f2)
  {
    var marked := c.needsRollback;
    c.needsRollback := false;
    outcome := RestoreEach(c, Restored(saved), excPending, f1, f2);
    c.needsRollback := marked;
  }

  /** The block's own write of the settings, inside `writing()`. */
  method WriteContext(c: GuardedConnection, values: ContextGucs, f: Blocks.BlockFaults) returns (raised: bool)
    requires c.session.Some?
    modifies c`session, c.tracker
    ensures (c.State(), raised) == Blocks.WriteOnEntry(old(c.State()), values, f)
  {
    raised := SetGuc(c, IsAdmin, values.isAdmin, f.writeAdmin);
    if !raised {
      raised := SetGuc(c, CurrentTenant, values.currentTenant, f.writeTenant);
    }
    if raised {
      c.tracker.ForgetValues();
    } else {
      c.RecordWrite(Some(values), false);
    }
  }

  /** One `get_guc` pair of `_snapshot_gucs`. */
  method TakeSnapshot(c: GuardedConnection, active: Option<ContextGucs>, f: Blocks.BlockFaults)
    returns (saved: Option<Saved>)
    requires c.session.Some?
    modifies c`session, c.tracker
    ensures (c.State(), saved) == Blocks.Snapshot(old(c.State()), active, f)
  {
    var raised, read := c.RunGuarded(active, false, Data(false), f.readAdmin);
    if raised || c.session.None? || read.None? {
      return None;
    }
    var admin := ReadGuc(read.value.isAdmin);
    raised, read := c.RunGuarded(active, false, Data(false), f.readTenant);
    if raised || c.session.None? || read.None? {
      return None;
    }
    return Some(Saved(admin, ReadGuc(read.value.currentTenant)));
  }

  /** What the end of `writing()` records of a restore. */
  method NoteRestore(c: GuardedConnection, outcome: RestoreOutcome, sameContext: bool, active: Option<ContextGucs>)
    requires c.session.Some?
    modifies c.tracker
    ensures c.tracker.State() == if sameContext then Blocks.RecordRestore(old(c.State()), outcome, active)
                                 else Blocks.RecordUnknown(old(c.State()), outcome)
  {
    if outcome == Raised {
      c.tracker.ForgetValues();
    } else if !sameContext {
      var _ := c.Observe();
      c.tracker.Set(Unknown, false);
    } else {
      c.RecordWrite(active, false);
      if outcome == SomeSkipped {
        c.tracker.ForgetValues();
      }
    }
  }

  /** `_restore_snapshot`, without the other aliases. */
  method RestoreBlock(c: GuardedConnection, saved: Saved, ghost block: Blocks.Block, sameContext: bool,
                      session: Option<nat>,
                      ghost current: Option<nat>, active: Option<ContextGucs>, excPending: bool, f: Blocks.BlockFaults)
    requires sameContext == (current == block.enclosing) && session == block.session
    modifies c`session, c`needsRollback, c.tracker
    ensures c.State() == Blocks.RestoreSnapshot(old(c.State()), saved, block, current, active, excPending, f)
  {
    if c.session.None? || (!sameContext && Some(c.session.value.id) != session) {
      c.tracker.ForgetValues();
      return;
    }
    var outcome := RestoreSaved(c, saved, excPending, f.restoreAdmin, f.restoreTenant);
    NoteRestore(c, outcome, sameContext, active);
  }

  /** The exit of a block that wrote nothing. */
  method LeaveUnwritten(c: GuardedConnection, active: Option<ContextGucs>, fault: Fault)
    modifies c`session, c.tracker
    ensures c.State() == Blocks.SettleAndSuspect(old(c.State()), active, fault)
  {
    var _ := SettleAlias(c, true, false, active, true, fault);
    if c.session.Some? {
      var _ := c.Observe();
      c.tracker.Suspect(true);
    }
  }

  // ---- The hop of an asynchronous entry ----

  /** `get_guc` inside `writing()`. */
  method ReadGucAsItIs(c: GuardedConnection, fault: Fault) returns (read: Option<ContextGucs>)
    requires c.session.Some?
    modifies c`session, c.tracker
    ensures c.session.Some? && (c.State(), read) == Blocks.ReadAsItIs(old(c.State()), fault)
  {
    var _ := c.Observe();
    var sent := SendThroughCursor(c.session.value, c.autocommit, c.needsRollback, Data(false), fault);
    c.session := Some(sent.session);
    read := if sent.raised then None else sent.showed;
  }

  method TakeSnapshotAsItIs(c: GuardedConnection, f: Blocks.BlockFaults) returns (saved: Option<Saved>)
    requires c.session.Some?
    modifies c`session, c.tracker
    ensures c.session.Some? && (c.State(), saved) == Blocks.SnapshotAsItIs(old(c.State()), f)
  {
    var read := ReadGucAsItIs(c, f.readAdmin.statement);
    if read.None? {
      return None;
    }
    var admin := ReadGuc(read.value.isAdmin);
    read := ReadGucAsItIs(c, f.readTenant.statement);
    if read.None? {
      return None;
    }
    return Some(Saved(admin, ReadGuc(read.value.currentTenant)));
  }

  /** The loop of `_enter_gucs` over the two settings. */
  method WriteOrUndo(c: GuardedConnection, values: ContextGucs, saved: Saved, f: Blocks.BlockFaults)
    returns (raised: bool)
    requires c.session.Some?
    modifies c`session, c`needsRollback, c.tracker
    ensures var r := Blocks.WriteOrUndo(old(c.State()), values, saved, f);
            c.session.Some? && c.State() == r.conn && raised == r.raised
  {
    raised := SetGuc(c, IsAdmin, values.isAdmin, f.writeAdmin);
    if !raised {
      raised := SetGuc(c, CurrentTenant, values.currentTenant, f.writeTenant);
      if raised {
        var marked := c.needsRollback;
        c.needsRollback := false;
        var _ := SetGuc(c, IsAdmin, RestoredGuc(saved.isAdmin), f.restoreAdmin);
        c.needsRollback := marked;
      }
    }
  }

  /** `_enter_tenant_gucs` with session GUCs */
  method EnterOnConnection(c: GuardedConnection, active: Option<ContextGucs>, values: ContextGucs,
                           f: Blocks.BlockFaults)
    returns (saved: Option<Saved>)
    requires c.session.Some?
    modifies c`session, c`needsRollback, c.tracker
    ensures c.session.Some? && (c.State(), saved) == Blocks.EnterOnConnection(old(c.State()), active, values, f)
  {
    var _, raised := c.Apply(active, false, f.apply);
    if raised {
      return None;
    }
    saved := TakeSnapshotAsItIs(c, f);
    if saved.None? {
      c.tracker.ForgetValues();
      return;
    }
    raised := WriteOrUndo(c, values, saved.value, f);
    if raised {
      c.tracker.ForgetValues();
      return None;
    }
    c.RecordWrite(Some(values), false);
  }

  /** What the generator of a block keeps. */
  datatype OpenBlock = OpenBlock(
    values: ContextGucs,
    token: nat,
    previous: Option<Saved>,
    enclosing: Option<Holder>,
    session: Option<nat>,
    stage: Blocks.Stage)

  class ContextManager {
    const connection: GuardedConnection
    const contexts: ContextGucsVariable
    var blocks: seq<OpenBlock>

    constructor (connection: GuardedConnection, contexts: ContextGucsVariable)
      ensures this.connection == connection && this.contexts == contexts && blocks == []
    {
      this.connection, this.contexts, blocks := connection, contexts, [];
    }

    static function SerialOf(h: Option<Holder>): Option<nat> {
      if h.None? then None else Some(h.value.serial)
    }

    static function BlockValue(b: OpenBlock): Blocks.Block {
      Blocks.Block(b.values, b.token, b.previous, SerialOf(b.enclosing), b.session, b.stage)
    }

    ghost predicate BlockMade(b: OpenBlock)
      reads contexts
    {
      (b.stage.Open? ==> b.token < |contexts.tokens|) && contexts.Made(b.enclosing)
    }

    ghost predicate Valid()
      reads this, contexts
    {
      contexts.Valid() && forall b :: 0 <= b < |blocks| ==> BlockMade(blocks[b])
    }

    ghost function State(): (sys: Blocks.System)
      reads this, contexts, contexts.made, connection, connection.tracker
      requires Valid()
      ensures Holders.WellFormed(sys.world)
    {
      Blocks.System(contexts.State(), connection.State(),
                    seq(|blocks|, b requires 0 <= b < |blocks| reads this => BlockValue(blocks[b])))
    }

    /** `_current_live() is enclosing` */
    method IsCurrent(c: nat, enclosing: Option<Holder>) returns (same: bool)
      requires Valid() && c < |contexts.slots| && contexts.Made(enclosing)
      ensures same == (Holders.Current(contexts.State(), c) == SerialOf(enclosing))
    {
      var current := contexts.Get(c);
      same := current == enclosing;
    }

    /** `_session_of` */
    method Session() returns (id: Option<nat>)
      ensures id == Blocks.SessionOf(connection.State())
    {
      id := if connection.session.None? then None else Some(connection.session.value.id);
    }

    method Push(c: nat, values: ContextGucs, previous: Option<Saved>)
      requires Valid() && c < |contexts.slots|
      modifies this`blocks, contexts
      ensures Valid() && State() == Blocks.PushBlock(old(State()), c, values, previous)
      ensures |blocks| == |old(blocks)| + 1 && c < |contexts.slots| && blocks[|blocks| - 1].stage.Open?
      ensures forall h <- contexts.made :: h in old(contexts.made) || fresh(h)
    {
      var session := Session();
      var enclosing := contexts.Get(c);
      var token := contexts.SetContextGucs(c, Some(values), true);
      blocks := blocks + [OpenBlock(values, token, previous, enclosing, session, Blocks.Open)];
    }

    /** The rest of an entry, once the snapshot is taken. */
    method EnterWith(c: nat, values: ContextGucs, saved: Saved, f: Blocks.BlockFaults)
      requires Valid() && c < |contexts.slots| && connection.session.Some?
      modifies this`blocks, contexts, contexts.made, connection`session, connection`needsRollback, connection.tracker
      ensures Valid() && State() == Blocks.EnterWith(old(State()), c, values, saved, f)
    {
      Push(c, values, Some(saved));
      assert forall i :: 0 <= i < |contexts.made| ==>
               contexts.made[i] in old(contexts.made) || fresh(contexts.made[i]);
      WriteOrExit(|blocks| - 1, c, values, f);
    }

    /** The write of the newest block, or its exit. */
    method WriteOrExit(b: nat, c: nat, values: ContextGucs, f: Blocks.BlockFaults)
      requires Valid() && c < |contexts.slots| && b < |blocks| && blocks[b].stage.Open? && connection.session.Some?
      modifies this`blocks, contexts`slots, contexts`tokens, contexts.made
      modifies connection`session, connection`needsRollback, connection.tracker
      ensures Valid()
      ensures var (written, raised) := Blocks.WriteOnEntry(old(connection.State()), values, f);
              var sys := old(State()).(conn := written);
              State() == if raised then Blocks.ExitBlock(sys, b, c, true, f) else sys
    {
      var raised := WriteContext(connection, values, f);
      assert State() == old(State()).(conn := connection.State());
      if raised {
        Exit(b, c, true, f);
      }
    }

    /** Entry to `tenant_context()` or `admin_context()`. */
    method Enter(c: nat, values: ContextGucs, localMode: bool, f: Blocks.BlockFaults)
      requires Valid() && c < |contexts.slots|
      modifies this`blocks, contexts, contexts.made, connection`session, connection`needsRollback, connection.tracker
      ensures Valid() && State() == Blocks.EnterBlock(old(State()), c, values, localMode, f)
    {
      if localMode {
        Push(c, values, None);
      } else if connection.session.Some? {
        var saved := SnapshotIn(c, f);
        if saved.Some? && connection.session.Some? {
          EnterWith(c, values, saved.value, f);
        }
      }
    }

    method SnapshotIn(c: nat, f: Blocks.BlockFaults) returns (saved: Option<Saved>)
      requires Valid() && c < |contexts.slots| && connection.session.Some?
      modifies connection`session, connection.tracker
      ensures Valid()
      ensures var (conn, taken) :=
              Blocks.Snapshot(old(connection.State()), Holders.Visible(old(contexts.State()), c), f);
              State() == old(State()).(conn := conn) && saved == taken
    {
      var active := contexts.GetContextGucs(c);
      saved := TakeSnapshot(connection, active, f);
      assert contexts.State() == old(contexts.State());
    }

    /** What an exit does to the connection, once the block is reset. */
    method Leave(block: OpenBlock, c: nat, raised: bool, f: Blocks.BlockFaults)
      requires Valid() && c < |contexts.slots| && BlockMade(block)
      modifies connection`session, connection`needsRollback, connection.tracker
      ensures connection.State() ==
                Blocks.LeaveConnection(old(connection.State()), BlockValue(block), contexts.State(), c, raised, f)
    {
      var active := contexts.GetContextGucs(c);
      if block.previous.None? {
        LeaveUnwritten(connection, active, f.settle);
      } else {
        var dead := block.enclosing.Some? && !block.enclosing.value.alive;
        var same := IsCurrent(c, block.enclosing);
        var saved := if dead then NOTHING_SAVED else block.previous.value;
        RestoreBlock(connection, saved, BlockValue(block), same, block.session,
                     Holders.Current(contexts.State(), c), active, raised, f);
      }
    }

    /** `_rls_state` is left, in whatever `Context` the generator is closed. */
    method ResetHolder(b: nat, c: nat, excPending: bool)
      requires Valid() && c < |contexts.slots| && b < |blocks| && blocks[b].stage.Open?
      modifies this`blocks, contexts`slots, contexts`tokens, contexts.made
      ensures Valid() && State() == Blocks.ResetBlock(old(State()), b, c, excPending)
      ensures |blocks| == |old(blocks)| && |contexts.slots| == |old(contexts.slots)|
      ensures blocks[b].stage == State().blocks[b].stage
      ensures contexts.made == old(contexts.made)
    {
      var block := blocks[b];
      var outcome := contexts.ResetContextGucs(c, block.token);
      blocks := blocks[b := block.(stage := Blocks.Leaving(excPending || outcome != Holders.Done))];
    }

    /** `_restore_tenant_gucs` */
    method Restore(b: nat, h: nat, raised: bool, f: Blocks.BlockFaults)
      requires Valid() && h < |contexts.slots| && b < |blocks|
      modifies this`blocks, connection`session, connection`needsRollback, connection.tracker
      ensures Valid() && State() == Blocks.RestoreBlock(old(State()), b, h, raised, f)
    {
      var block := blocks[b];
      Leave(block, h, raised, f);
      blocks := blocks[b := block.(stage := Blocks.Left)];
    }

    /** Exit from a synchronous block. */
    method Exit(b: nat, c: nat, excPending: bool, f: Blocks.BlockFaults)
      requires Valid() && c < |contexts.slots| && b < |blocks| && blocks[b].stage.Open?
      modifies this`blocks, contexts`slots, contexts`tokens, contexts.made
      modifies connection`session, connection`needsRollback, connection.tracker
      ensures Valid() && State() == Blocks.ExitBlock(old(State()), b, c, excPending, f)
    {
      ResetHolder(b, c, excPending);
      Restore(b, c, blocks[b].stage.raised, f);
    }

    /** The hop of `async_tenant_context()` or `async_admin_context()`. */
    method EnterInHop(h: nat, values: ContextGucs, localMode: bool, f: Blocks.BlockFaults)
      requires Valid() && h < |contexts.slots|
      modifies this`blocks, connection`session, connection`needsRollback, connection.tracker
      ensures Valid() && State() == Blocks.EnterInHop(old(State()), h, values, localMode, f)
    {
      var enclosing := contexts.Get(h);
      if localMode {
        Begin(values, None, enclosing, None);
      } else if connection.session.Some? {
        var active := contexts.GetContextGucs(h);
        var saved := EnterOnConnection(connection, active, values, f);
        assert State() == old(State()).(conn := connection.State());
        if saved.Some? {
          var session := Session();
          Begin(values, saved, enclosing, session);
        }
      }
    }

    method Begin(values: ContextGucs, saved: Option<Saved>, enclosing: Option<Holder>, session: Option<nat>)
      requires Valid() && contexts.Made(enclosing)
      modifies this`blocks
      ensures Valid()
      ensures var block := Blocks.Block(values, 0, saved, SerialOf(enclosing), session, Blocks.Entering);
              State() == old(State()).(blocks := old(State()).blocks + [block])
    {
      blocks := blocks + [OpenBlock(values, 0, saved, enclosing, session, Blocks.Entering)];
    }

    /** The coroutine goes on after the hop. */
    method PushAfterHop(b: nat, c: nat)
      requires Valid() && c < |contexts.slots| && b < |blocks|
      modifies this`blocks, contexts
      ensures Valid() && State() == Blocks.PushAfterHop(old(State()), b, c)
    {
      var block := blocks[b];
      var token := contexts.SetContextGucs(c, Some(block.values), true);
      blocks := blocks[b := block.(token := token, stage := Blocks.Open)];
    }

    /** The second hop of a cancelled entry. */
    method UndoInHop(b: nat, h: nat, f: Blocks.BlockFaults)
      requires Valid() && h < |contexts.slots| && b < |blocks|
      modifies this`blocks, connection`session, connection`needsRollback, connection.tracker
      ensures Valid() && State() == Blocks.UndoInHop(old(State()), b, h, f)
    {
      ghost var before := State();
      blocks := blocks[b := blocks[b].(session := None)];
      assert State() == before.(blocks := before.blocks[b := before.blocks[b].(session := None)]);
      Restore(b, h, true, f);
    }
  }
}
