/** What an entry into a block does when it goes through, and its exit: nothing of either is left to chance
    as long as nothing fails. */
module BlockEntries {
  import opened Gucs
  import opened Sessions
  import opened Trackers
  import opened TrackerSoundness
  import opened Guard
  import opened GuardSoundness
  import opened Snapshots
  import opened Aliases
  import opened Blocks
  import Holders
  import Precision

  /** The session holds `values`, for statements and for a commit, and the record knows it. */
  ghost predicate HoldsForGood(c: Conn, values: ContextGucs) {
    Holds(c, Some(values)) && c.session.value.kept == values
  }

  predicate AllFine(f: Faults) {
    f.begin == f.write == f.statement == f.commit == f.rollback == Fine
  }

  predicate NoFault(f: BlockFaults) {
    && f.apply == Fine && AllFine(f.readAdmin) && AllFine(f.readTenant) && f.writeAdmin == f.writeTenant == Fine
    && f.restoreAdmin == f.restoreTenant == f.settle == Fine
  }

  // ---- On the connection ----

  /** Two writes that went through and are recorded. */
  lemma RecordedHolds(c: Conn, values: ContextGucs, f1: Fault, f2: Fault)
    requires c.session.Some? && ConnInv(c) && c.guarded && !WriteBoth(c, values, f1, f2).raised
    ensures var r := WriteBoth(c, values, f1, f2).conn;
            && HoldsForGood(r.(tracker := Record(r.tracker, r.session.value, Some(values), c.guarded, false)), values)
            && r.session.value.status in {Idle, InTransaction}
  {
    WrittenBoth(c, values, f1, f2);
  }

  lemma HealthyWrites(c: Conn, values: ContextGucs)
    requires Healthy(c)
    ensures !WriteBoth(c, values, Fine, Fine).raised
  {
  }

  /** The block's own write holds its values, if it does not raise; and it does not, where nothing fails. */
  lemma EntryHolds(c: Conn, values: ContextGucs, f: BlockFaults)
    requires c.session.Some? && ConnInv(c) && c.guarded
    ensures var (c', raised) := WriteOnEntry(c, values, f);
            && (!raised ==> HoldsForGood(c', values) && c'.session.value.status in {Idle, InTransaction})
            && (Healthy(c) && NoFault(f) ==> !raised)
  {
    if !WriteOnEntry(c, values, f).1 {
      RecordedHolds(c, values, f.writeAdmin, f.writeTenant);
    }
    if Healthy(c) {
      HealthyWrites(c, values);
    }
  }

  /** A read of the settings goes through where nothing fails, in session mode. */
  lemma HealthyReads(c: Conn, active: Option<ContextGucs>, f: Faults)
    requires Healthy(c) && AllFine(f)
    ensures var (c', read) := ReadSettings(c, active, f);
            read == Some(OnSession(active)) && Healthy(c')
  {
    AppliedIsKnown(c, active, false);
    GuardKeeps(c, active, false, Data(false), f);
    var p := ApplyIfStale(c, active, false, Fine).conn;
    assert GuardStep(c, active, false, Data(false), f) ==
             RunPrepared(p, active, Data(false), c.session.value.status, false, f);
    assert Execute(p, Data(false), Fine) == Sent(Worked(Opened(p)), false, Some(p.session.value.shown));
  }

  lemma HealthySnapshot(c: Conn, active: Option<ContextGucs>, f: BlockFaults)
    requires Healthy(c) && NoFault(f)
    ensures var (c', saved) := Snapshot(c, active, f);
            saved.Some? && Healthy(c')
  {
    HealthyReads(c, active, f.readAdmin);
    HealthyReads(ReadSettings(c, active, f.readAdmin).0, active, f.readTenant);
  }

  /** The hop of an asynchronous entry holds the block's values whenever it returns a snapshot; and it
      returns one, where nothing fails. */
  lemma HopHolds(c: Conn, active: Option<ContextGucs>, values: ContextGucs, f: BlockFaults)
    requires c.session.Some? && ConnInv(c) && c.guarded
    ensures var (c', saved) := EnterOnConnection(c, active, values, f);
            && (saved.Some? ==> HoldsForGood(c', values) && Restored(saved.value) == OnSession(active))
            && (Healthy(c) && NoFault(f) ==> saved.Some?)
  {
    HopKeeps(c, active, values, f);
    HopReadsTheEnclosingContext(c, active, f);
    var applied := ApplyIfStale(c, active, false, f.apply);
    if !applied.raised {
      var (read, saved) := SnapshotAsItIs(applied.conn, f);
      if saved.Some? && !WriteOrUndo(read, values, saved.value, f).raised {
        assert WriteOrUndo(read, values, saved.value, f) == WriteBoth(read, values, f.writeAdmin, f.writeTenant);
        RecordedHolds(read, values, f.writeAdmin, f.writeTenant);
      }
    }
    if Healthy(c) && NoFault(f) {
      HealthyHop(c, active, values, f);
    }
  }

  lemma HealthyReadAsItIs(c: Conn, v: ContextGucs)
    requires Healthy(c) && c.session.value.shown == v
    ensures var (c', read) := ReadAsItIs(c, Fine);
            read == Some(v) && Healthy(c') && c'.session.value.shown == v
  {
    ReadsAsItIs(c, Fine, v);
  }

  lemma HealthyHop(c: Conn, active: Option<ContextGucs>, values: ContextGucs, f: BlockFaults)
    requires Healthy(c) && NoFault(f)
    ensures EnterOnConnection(c, active, values, f).1.Some?
  {
    AppliedIsKnown(c, active, false);
    var applied := ApplyIfStale(c, active, false, Fine).conn;
    HealthyReadAsItIs(applied, OnSession(active));
    var first := ReadAsItIs(applied, Fine).0;
    HealthyReadAsItIs(first, OnSession(active));
    HealthyWrites(ReadAsItIs(first, Fine).0, values);
  }

  /** What the hop's writes leave when one of them fails: the first is undone, but one that raised once
      it was done is not. */
  lemma FailedWriteLeaves(c: Conn, values: ContextGucs, saved: Saved, f: BlockFaults)
    requires Healthy(c) && c.session.value.status == Idle && c.autocommit && Restored(saved) == c.session.value.shown
    requires f.writeAdmin != Lost && f.writeTenant != Lost && f.restoreAdmin == Fine
    requires !(f.writeAdmin == f.writeTenant == Fine)
    ensures var r, v := WriteOrUndo(c, values, saved, f), c.session.value.shown;
            && r.raised && r.conn.session.value.status == Idle
            && r.conn.session.value.shown == r.conn.session.value.kept == LeftByFailure(v, values, f)
  {
  }

  /** The settings after a failed entry in a hop. */
  function LeftByFailure(v: ContextGucs, values: ContextGucs, f: BlockFaults): ContextGucs {
    if f.writeAdmin == Interrupted then v.(isAdmin := values.isAdmin)
    else if f.writeAdmin == Fine && f.writeTenant == Interrupted then v.(currentTenant := values.currentTenant)
    else v
  }

  /** An entry in a hop that failed leaves the enclosing context on the session if and only if no write that
      was done before it raised wrote another value; in any case nothing is believed of the session. */
  lemma FailedHopIsUndoneIff(c: Conn, active: Option<ContextGucs>, values: ContextGucs, f: BlockFaults)
    requires Healthy(c) && c.session.value.status == Idle && c.autocommit
    requires f.apply == f.readAdmin.statement == f.readTenant.statement == Fine && f.restoreAdmin == Fine
    requires f.writeAdmin != Lost && f.writeTenant != Lost && !(f.writeAdmin == f.writeTenant == Fine)
    ensures var (c', saved) := EnterOnConnection(c, active, values, f);
            && saved.None? && c'.tracker.values == Unknown
            && c'.session.value.shown == c'.session.value.kept
            && (c'.session.value.shown == OnSession(active) <==>
                  && (f.writeAdmin == Interrupted ==> values.isAdmin == OnSession(active).isAdmin)
                  && (f.writeAdmin == Fine && f.writeTenant == Interrupted ==>
                        values.currentTenant == OnSession(active).currentTenant))
  {
    HopReadsTheEnclosingContext(c, active, f);
    AppliedIsKnown(c, active, false);
    var applied := ApplyIfStale(c, active, false, Fine).conn;
    HealthyReadAsItIs(applied, OnSession(active));
    var first := ReadAsItIs(applied, Fine).0;
    HealthyReadAsItIs(first, OnSession(active));
    var read := ReadAsItIs(first, Fine).0;
    var saved := SnapshotAsItIs(applied, f).1;
    FailedWriteLeaves(read, values, saved.value, f);
  }

  // ---- Entries ----

  /** A block of `values` was entered in `c`: its holder is new and visible there, and it keeps what was. */
  ghost predicate EnteredIn(w: Holders.World, w': Holders.World, c: nat, values: ContextGucs)
    requires Holders.WellFormed(w) && c < |w.slots|
  {
    && Holders.WellFormed(w') && |w'.slots| == |w.slots|
    && |w'.lives| == |w.lives| + 1
    && Holders.Current(w', c) == Some(|w.lives|) && Holders.Visible(w', c) == Some(values)
    && (forall i :: 0 <= i < |w.lives| ==> w'.lives[i] == w.lives[i])
    && (forall d :: 0 <= d < |w.slots| && d != c ==> w'.slots[d] == w.slots[d])
  }

  /** What the newest block keeps. */
  ghost predicate Keeps(sys: System, sys': System, c: nat, values: ContextGucs)
    requires Holders.WellFormed(sys.world) && HasContext(sys, c)
  {
    && |sys'.blocks| == |sys.blocks| + 1
    && var b := sys'.blocks[|sys.blocks|];
    && b.stage.Open? && b.values == values && b.enclosing == Holders.Current(sys.world, c)
    && b.token == |sys.world.tokens| < |sys'.world.tokens|
    && sys'.world.tokens[b.token] == Holders.Token(c, sys.world.slots[c], |sys.world.lives|, false, false)
  }

  lemma SnapshotTaken(c: Conn, active: Option<ContextGucs>, f: BlockFaults)
    requires c.session.Some? && ConnInv(c) && c.guarded
    ensures var (c', saved) := Snapshot(c, active, f);
            && ConnInv(c') && (saved.Some? ==> Restored(saved.value) == OnSession(active))
            && (Healthy(c) && NoFault(f) ==> saved.Some? && Healthy(c'))
  {
    SnapshotIsTheEnclosingContext(c, active, f);
    if Healthy(c) && NoFault(f) {
      HealthySnapshot(c, active, f);
    }
  }

  lemma SessionEntry(sys: System, c: nat, values: ContextGucs, f: BlockFaults)
    requires SystemInv(sys) && HasContext(sys, c)
    ensures var sys' := EnterBlock(sys, c, values, false, f);
            && (Healthy(sys.conn) && NoFault(f) ==> Keeps(sys, sys', c, values))
            && (Keeps(sys, sys', c, values) ==>
                  && EnteredIn(sys.world, sys'.world, c, values)
                  && var b := sys'.blocks[|sys.blocks|];
                  && HoldsForGood(sys'.conn, values) && sys'.conn.session.value.status in {Idle, InTransaction}
                  && b.previous.Some? && b.session == SessionOf(sys'.conn)
                  && Restored(b.previous.value) == OnSession(Holders.Visible(sys.world, c)))
  {
    if sys.conn.session.Some? {
      var active := Holders.Visible(sys.world, c);
      SnapshotTaken(sys.conn, active, f);
      var (conn, saved) := Snapshot(sys.conn, active, f);
      if saved.Some? && conn.session.Some? {
        EntryWith(sys.(conn := conn), c, values, saved.value, f);
      }
    }
  }

  /** Entry to a synchronous block. In local mode it always goes through, and leaves the connection alone; in
      session mode, where nothing fails. Where it went through, the task's context is the block's, and in
      session mode its values are on the session, and the enclosing context's in the snapshot. */
  lemma SynchronousEntry(sys: System, c: nat, values: ContextGucs, f: BlockFaults, localMode: bool)
    requires SystemInv(sys) && HasContext(sys, c)
    ensures var sys' := Step(sys, Enter(c, values, f), localMode);
            && (localMode || (Healthy(sys.conn) && NoFault(f)) ==> Keeps(sys, sys', c, values))
            && (Keeps(sys, sys', c, values) ==>
                  && EnteredIn(sys.world, sys'.world, c, values)
                  && var b := sys'.blocks[|sys.blocks|];
                  if localMode then sys'.conn == sys.conn && b.previous.None?
                  else
                    && HoldsForGood(sys'.conn, values) && sys'.conn.session.value.status in {Idle, InTransaction}
                    && b.previous.Some? && b.session == SessionOf(sys'.conn)
                    && Restored(b.previous.value) == OnSession(Holders.Visible(sys.world, c)))
  {
    if localMode {
      LocalEntry(sys, c, values, f);
    } else {
      SessionEntry(sys, c, values, f);
    }
  }

  lemma LocalEntry(sys: System, c: nat, values: ContextGucs, f: BlockFaults)
    requires SystemInv(sys) && HasContext(sys, c)
    ensures var sys' := EnterBlock(sys, c, values, true, f);
            && Keeps(sys, sys', c, values) && EnteredIn(sys.world, sys'.world, c, values)
            && sys'.conn == sys.conn && sys'.blocks[|sys.blocks|].previous.None?
  {
  }

  lemma EntryWith(sys: System, c: nat, values: ContextGucs, saved: Saved, f: BlockFaults)
    requires SystemInv(sys) && HasContext(sys, c) && sys.conn.session.Some?
    ensures var sys' := EnterWith(sys, c, values, saved, f);
            && (Healthy(sys.conn) && NoFault(f) ==> Keeps(sys, sys', c, values))
            && (Keeps(sys, sys', c, values) ==>
                  && EnteredIn(sys.world, sys'.world, c, values) && HoldsForGood(sys'.conn, values)
                  && sys'.conn.session.value.status in {Idle, InTransaction}
                  && sys'.blocks[|sys.blocks|].previous == Some(saved)
                  && sys'.blocks[|sys.blocks|].session == SessionOf(sys'.conn))
  {
    EntryHolds(sys.conn, values, f);
  }

  /** The first half of an asynchronous entry; the second is `PushedEntry`. */
  lemma AsynchronousEntry(sys: System, h: nat, values: ContextGucs, f: BlockFaults, localMode: bool)
    requires SystemInv(sys) && HasContext(sys, h)
    ensures var sys' := Step(sys, HopIn(h, values, f), localMode);
            && sys'.world == sys.world
            && (localMode || (Healthy(sys.conn) && NoFault(f)) ==> |sys'.blocks| == |sys.blocks| + 1)
            && (|sys'.blocks| > |sys.blocks| ==>
                  var b := sys'.blocks[|sys.blocks|];
                  && b.stage.Entering? && b.values == values && b.enclosing == Holders.Current(sys.world, h)
                  && if localMode then sys'.conn == sys.conn && b.previous.None?
                     else
                       && HoldsForGood(sys'.conn, values) && b.previous.Some? && b.session == SessionOf(sys'.conn)
                       && Restored(b.previous.value) == OnSession(Holders.Visible(sys.world, h)))
  {
    if !localMode && sys.conn.session.Some? {
      HopHolds(sys.conn, Holders.Visible(sys.world, h), values, f);
    }
  }

  lemma PushedEntry(sys: System, b: nat, c: nat, localMode: bool)
    requires SystemInv(sys) && Possible(sys, Push(b, c))
    ensures var sys' := Step(sys, Push(b, c), localMode);
            && EnteredIn(sys.world, sys'.world, c, sys.blocks[b].values) && sys'.conn == sys.conn
            && |sys'.blocks| == |sys.blocks|
            && sys'.blocks[b] == sys.blocks[b].(token := |sys.world.tokens|, stage := Open)
            && |sys.world.tokens| < |sys'.world.tokens|
            && sys'.world.tokens[|sys.world.tokens|] ==
                Holders.Token(c, sys.world.slots[c], |sys.world.lives|, false, false)
  {
  }

  // ---- Exits ----

  /** A restore on a session that accepts statements goes through where nothing fails, also in a
      transaction marked for a rollback. */
  lemma FaultlessRestore(c: Conn, saved: Saved, excPending: bool)
    requires c.session.Some? && c.session.value.status in {Idle, InTransaction}
    ensures RestoreGucs(c, saved, excPending, Fine, Fine).1 == AllRestored
  {
  }

  /** Where nothing fails, what restores a block in its own `Context` leaves the enclosing context. */
  lemma FaultlessExit(sys: System, e: Event)
    requires SystemInv(sys) && IsRestore(e) && Possible(sys, e) && sys.blocks[e.block].previous.Some?
    requires sys.conn.session.Some? && sys.conn.session.value.status in {Idle, InTransaction}
    requires e.faults.restoreAdmin == e.faults.restoreTenant == Fine
    requires Holders.Current(WorldAtRestore(sys, e), e.context) == sys.blocks[e.block].enclosing
    ensures var after, enclosing := Step(sys, e, false), sys.blocks[e.block].enclosing;
            && RestoresAll(sys, e)
            && Holds(after.conn, ValuesOf(after.world, enclosing))
            && after.conn.session.value.kept == OnSession(ValuesOf(after.world, enclosing))
  {
    var block := sys.blocks[e.block];
    FaultlessRestore(sys.conn, WrittenBack(WorldAtRestore(sys, e), block.enclosing, block.previous.value),
                     RaisedAtRestore(sys, e));
    RestoreLeavesTheEnclosingContext(sys, e);
  }

  lemma RestoredSession(c: Conn, saved: Saved, excPending: bool)
    requires c.session.Some? && Sessions.Valid(c.session.value) && c.session.value.status in {Idle, InTransaction}
    ensures var (r, outcome) := RestoreGucs(c, saved, excPending, Fine, Fine);
            outcome == AllRestored && r.session.value.shown == r.session.value.kept == Restored(saved)
  {
    FaultlessRestore(c, saved, excPending);
    var lifted := c.(needsRollback := false);
    AllRestoredWritesBoth(lifted, Restored(saved), excPending, Fine, Fine);
    WrittenBoth(lifted, Restored(saved), Fine, Fine);
  }

  lemma RestoredElsewhere(c: Conn, saved: Saved, block: Block, current: Option<nat>, active: Option<ContextGucs>,
                          excPending: bool, f: BlockFaults)
    requires c.session.Some? && Sessions.Valid(c.session.value) && c.session.value.status in {Idle, InTransaction}
    requires current != block.enclosing && f.restoreAdmin == f.restoreTenant == Fine
    ensures var left := RestoreSnapshot(c, saved, block, current, active, excPending, f);
            && left.session.Some? && left.tracker.values == Unknown
            && (if SessionOf(c) != block.session then left.session == c.session
                else left.session.value.shown == left.session.value.kept == Restored(saved))
  {
    RestoredSession(c, saved, excPending);
  }

  /** A block that wrote on another alias: its exit leaves the task's context on this one, where a context is
      known, in session mode or in a transaction. */
  lemma SettledHoldsTheTasksContext(sys: System, c: nat, all: bool, cleared: bool, localMode: bool)
    requires SystemInv(sys) && HasContext(sys, c) && Healthy(sys.conn)
    requires sys.conn.tracker.values.Known? && sys.conn.tracker.values.gucs.Some?
    requires localMode ==> sys.conn.session.value.status == InTransaction
    ensures var sys' := Step(sys, SettleFor(c, all, cleared, Fine), localMode);
            && sys' == sys.(conn := sys'.conn)
            && Healthy(sys'.conn) && Holds(sys'.conn, Holders.Visible(sys.world, c))
  {
    AppliedIsKnown(sys.conn, Holders.Visible(sys.world, c), localMode);
  }

  /** Left in another `Context`, whose context is another one: the block's own session gets its snapshot
      back, another session is left alone, and nothing is believed of either. */
  lemma ExitElsewhere(conn: Conn, block: Block, w: Holders.World, c: nat, raised: bool, f: BlockFaults)
    requires Holders.WellFormed(w) && c < |w.slots| && BlockInv(w, block) && block.previous.Some?
    requires conn.session.Some? && ConnInv(conn) && Holders.Current(w, c) != block.enclosing
    requires conn.session.value.status in {Idle, InTransaction} && f.restoreAdmin == f.restoreTenant == Fine
    ensures var left := LeaveConnection(conn, block, w, c, raised, f);
            && left.session.Some? && left.tracker.values == Unknown
            && (if SessionOf(conn) != block.session then left.session == conn.session
                else
                  var saved := Restored(WrittenBack(w, block.enclosing, block.previous.value));
                  left.session.value.shown == left.session.value.kept == saved)
  {
    RestoredElsewhere(conn, WrittenBack(w, block.enclosing, block.previous.value), block, Holders.Current(w, c),
                      Holders.Visible(w, c), raised, f);
  }

  /** What the holders are after a block is left where it was entered. */
  lemma LeftHolders(sys: System, b: nat, c: nat)
    requires SystemInv(sys) && HasContext(sys, c) && b < |sys.blocks| && sys.blocks[b].stage.Open?
    requires var t := sys.world.tokens[sys.blocks[b].token];
             !t.used && t.context == c
    ensures var w, t := Holders.Exit(sys.world, c, sys.blocks[b].token), sys.world.tokens[sys.blocks[b].token];
            && |w.slots| == |sys.world.slots| && w.slots[c] == t.before && !w.lives[t.live].alive
            && (forall i :: 0 <= i < t.live ==> w.lives[i] == sys.world.lives[i])
  {
    assert BlockInv(sys.world, sys.blocks[b]);
  }

  /** Out of a synchronous block that is left where it was entered. */
  lemma Out(sys: System, b: nat, c: nat, excPending: bool, f: BlockFaults)
    requires SystemInv(sys) && Possible(sys, Exit(b, c, excPending, f)) && sys.blocks[b].previous.Some?
    requires sys.conn.session.Some? && sys.conn.session.value.status in {Idle, InTransaction}
    requires f.restoreAdmin == f.restoreTenant == Fine && sys.blocks[b].token < |sys.world.tokens|
    requires var t := sys.world.tokens[sys.blocks[b].token];
             !t.used && t.context == c && sys.blocks[b].enclosing == SlotHolder(t.before)
    ensures var left, enclosing := Step(sys, Exit(b, c, excPending, f), false), sys.blocks[b].enclosing;
            && left.world == Holders.Exit(sys.world, c, sys.blocks[b].token)
            && Holds(left.conn, ValuesOf(left.world, enclosing))
            && left.conn.session.value.kept == OnSession(ValuesOf(left.world, enclosing))
  {
    LeftHolders(sys, b, c);
    FaultlessExit(sys, Exit(b, c, excPending, f));
  }

  function SlotHolder(slot: Holders.Slot): Option<nat> {
    if slot.Unset? then None else slot.holder
  }

  /** The holders, once the newest one is left where it was entered. */
  lemma WorldInAndOut(w: Holders.World, w': Holders.World, c: nat, values: ContextGucs, k: nat)
    requires Holders.WellFormed(w) && c < |w.slots| && EnteredIn(w, w', c, values) && k < |w'.tokens|
    requires w'.tokens[k] == Holders.Token(c, w.slots[c], |w.lives|, false, false)
    ensures var left := Holders.Exit(w', c, k);
            && Holders.WellFormed(left) && |left.slots| == |w.slots| && left.slots[c] == w.slots[c]
            && Holders.Visible(left, c) == Holders.Visible(w, c)
            && |left.lives| == |w'.lives| && ValuesOf(left, Holders.Current(w, c)) == Holders.Visible(w, c)
  {
  }

  /** Into a synchronous block and out again, in session mode and where nothing fails: the task's context is
      what it was, and the session holds it. */
  lemma InAndOut(sys: System, c: nat, values: ContextGucs, f: BlockFaults, excPending: bool, g: BlockFaults)
    requires SystemInv(sys) && HasContext(sys, c) && Healthy(sys.conn) && NoFault(f)
    requires g.restoreAdmin == g.restoreTenant == Fine
    ensures var entered := Step(sys, Enter(c, values, f), false);
            && SystemInv(entered) && |entered.blocks| == |sys.blocks| + 1
            && var left := Step(entered, Exit(|sys.blocks|, c, excPending, g), false);
            && Holders.WellFormed(left.world) && HasContext(left, c)
            && left.world.slots[c] == sys.world.slots[c]
            && Holders.Visible(left.world, c) == Holders.Visible(sys.world, c)
            && Holds(left.conn, Holders.Visible(sys.world, c))
            && left.conn.session.value.kept == OnSession(Holders.Visible(sys.world, c))
  {
    SynchronousEntry(sys, c, values, f, false);
    StepKeeps(sys, Enter(c, values, f), false);
    var entered, b := Step(sys, Enter(c, values, f), false), |sys.blocks|;
    WorldInAndOut(sys.world, entered.world, c, values, entered.blocks[b].token);
    Out(entered, b, c, excPending, g);
  }

  // ---- Local mode ----

  /** The exit of a block that wrote nothing, in an open transaction: where its context was applied, or may
      have been, the enclosing one is in force and known; where none was, there is none. Either way what
      is kept for the session counts as unknown from then on. */
  lemma LocalExitInTransaction(c: Conn, active: Option<ContextGucs>)
    requires Healthy(c) && c.session.value.status == InTransaction && c.tracker == Look(c.tracker, c.session.value)
    ensures var left := SettleAndSuspect(c, active, Fine);
            && left.session.Some? && ConnInv(left) && left.session.value.status == InTransaction
            && (if c.tracker.values == Known(None) then left.session == c.session && c.session.value.shown == CLEARED
                else Holds(left, active))
            && left.tracker.wroteSession && left.tracker.wroteLocal
  {
    SettleOneKeeps(c, true, false, active, true, Fine);
    SuspectOneKeeps(SettleOne(c, true, false, active, true, Fine).conn, true);
    if c.tracker.values != Known(None) {
      AppliedIsKnown(c, active, true);
      Precision.WrittenStaysOpen(c, active, true);
    }
  }

  /** On an idle session nothing is believed afterwards; a context's values it held are taken off outside
      any context. */
  lemma LocalExitWhileIdle(c: Conn, active: Option<ContextGucs>)
    requires Healthy(c) && c.session.value.status == Idle && c.autocommit
    requires c.tracker == Look(c.tracker, c.session.value)
    ensures var left := SettleAndSuspect(c, active, Fine);
            && left.session.Some? && left.tracker.values == Unknown
            && (active.None? && c.tracker.values.Known? ==>
                  left.session.value.shown == left.session.value.kept == CLEARED)
            && (active.Some? ==> left.session == c.session)
  {
    if active.Some? {
      AppliesNothing(c, active, true, Fine);
    } else if c.tracker.values.Known? && c.tracker.values.gucs.Some? {
      AppliedIsKnown(c, active, true);
    }
  }

  /** Into a block in an open transaction, a data statement, and out again, in local mode and where nothing
      fails: the statement is shown the block's values, and then the transaction holds the context there
      was before. */
  lemma LocalInAndOut(sys: System, c: nat, values: ContextGucs, f: BlockFaults, g: BlockFaults)
    requires SystemInv(sys) && HasContext(sys, c) && Healthy(sys.conn) && sys.conn.session.value.status == InTransaction
    requires g.settle == Fine
    ensures var entered := Step(sys, Enter(c, values, f), true);
            && SystemInv(entered) && |entered.blocks| == |sys.blocks| + 1 && HasContext(entered, c)
            && var ran := RunStatementIn(entered, c, true, Data(false), Precision.NO_FAULTS);
            && !ran.raised && ran.showed == Some(values)
            && var left := ExitBlock(entered.(conn := ran.conn), |sys.blocks|, c, false, g);
            && Holders.WellFormed(left.world) && HasContext(left, c)
            && left.world.slots[c] == sys.world.slots[c]
            && Holds(left.conn, Holders.Visible(sys.world, c))
  {
    SynchronousEntry(sys, c, values, f, true);
    StepKeeps(sys, Enter(c, values, f), true);
    var entered, b := Step(sys, Enter(c, values, f), true), |sys.blocks|;
    Precision.DataHolds(sys.conn, Some(values), false, true);
    WorldInAndOut(sys.world, entered.world, c, values, entered.blocks[b].token);
    var ran := RunStatementIn(entered, c, true, Data(false), Precision.NO_FAULTS).conn;
    LocalExitInTransaction(ran, Holders.Visible(sys.world, c));
  }
}
