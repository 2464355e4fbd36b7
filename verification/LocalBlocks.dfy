/** Context blocks with `USE_LOCAL_SET=True`: no run of theirs leaves a context's values with a session. */
module LocalBlocks {
  import opened Gucs
  import opened Sessions
  import opened Trackers
  import opened TrackerSoundness
  import opened Guard
  import opened GuardSoundness
  import opened Aliases
  import opened LocalMode
  import opened Blocks
  import Runs
  import Holders

  /** Nothing but the library's own code writes a context's values. That code writes them in blocks
      and in the guard; what else it writes, for new connections and after requests, clears them. */
  ghost predicate NoForeignStep(e: Event, initial: ContextGucs) {
    match e
    case Connection(r) => if r.LibraryWrite? then r.values.None? else NoForeignEvent(r, initial)
    case RunIn(_, q, _) => NoForeignWrite(q, initial)
    case _ => true
  }

  /** No block in progress wrote for the session, and the session keeps no context. */
  ghost predicate KeepsNone(sys: System, initial: ContextGucs) {
    && ConnKeepsNoContext(sys.conn, initial)
    && forall b :: 0 <= b < |sys.blocks| ==> sys.blocks[b].previous.None?
  }

  lemma SettleKeepsNoContext(c: Conn, all: bool, cleared: bool, active: Option<ContextGucs>, fault: Fault,
                             initial: ContextGucs)
    requires ConnKeepsNoContext(c, initial)
    ensures ConnKeepsNoContext(SettleOne(c, all, cleared, active, true, fault).conn, initial)
  {
    if c.session.Some? {
      var looked := if all && c.tracker.values == Unknown then c.(tracker := Look(c.tracker, c.session.value)) else c;
      ApplyKeepsNoContext(looked, active, fault, initial);
    }
  }

  lemma ApplyKeepsNoContext(c: Conn, active: Option<ContextGucs>, fault: Fault, initial: ContextGucs)
    requires c.session.Some? && ConnKeepsNoContext(c, initial)
    ensures ConnKeepsNoContext(ApplyIfStale(c, active, true, fault).conn, initial)
  {
    WriteKeepsNoContext(c.(tracker := Look(c.tracker, c.session.value)), active, active.Some?, fault, initial);
  }

  lemma StepKeepsNone(sys: System, e: Event, initial: ContextGucs)
    requires SystemInv(sys) && KeepsNone(sys, initial) && NoForeignStep(e, initial)
    ensures KeepsNone(Step(sys, e, true), initial)
  {
    if Possible(sys, e) {
      match e
      case Connection(r) => StepKeepsNoContext(sys.conn, r, initial);
      case RunIn(c, q, f) =>
        if sys.conn.session.Some? {
          GuardKeepsNoContext(sys.conn, Holders.Visible(sys.world, c), q, f, initial);
        }
      case Exit(b, c, _, f) =>
        var w := Holders.Exit(sys.world, c, sys.blocks[b].token);
        SettleKeepsNoContext(sys.conn, true, false, Holders.Visible(w, c), f.settle, initial);
      case HopOut(_, h, f) =>
        SettleKeepsNoContext(sys.conn, true, false, Holders.Visible(sys.world, h), f.settle, initial);
      case HopBack(_, h, f) =>
        SettleKeepsNoContext(sys.conn, true, false, Holders.Visible(sys.world, h), f.settle, initial);
      case SettleFor(c, all, cleared, fault) =>
        SettleKeepsNoContext(sys.conn, all, cleared, Holders.Visible(sys.world, c), fault, initial);
      case _ =>
    }
  }

  /** In local mode, any number of tasks may enter and exit blocks in any order, with any fault, and
      run statements that commit or not: what the session would keep at every point of the run, or go
      back to, is its initial settings or none. */
  lemma {:induction false} BlocksKeepNoContext(sys: System, events: seq<Event>, initial: ContextGucs)
    requires SystemInv(sys) && LegalRun(sys, events, true) && KeepsNone(sys, initial)
    requires forall n :: 0 <= n < |events| ==> NoForeignStep(events[n], initial)
    ensures KeepsNone(Run(sys, events, true), initial)
    decreases |events|
  {
    if events != [] {
      StepKeeps(sys, events[0], true);
      StepKeepsNone(sys, events[0], initial);
      BlocksKeepNoContext(Step(sys, events[0], true), events[1..], initial);
    }
  }

  /** One task, outside any context, and a session that is known to hold none. */
  const FRESH := System(Holders.World([], [Holders.Unset], []),
                        Conn(Some(Runs.NewSession(1, CLEARED)), Attach(NEW_TRACKER, 1, Known(None)), true, false,
                             true), [])

  const ALL_FINE := Faults(Fine, Fine, Fine, Fine, Fine)

  const NO_FAULTS := BlockFaults(Fine, ALL_FINE, ALL_FINE, Fine, Fine, Fine, Fine, Fine)

  /** In session mode the same is false: one block keeps its values until it is exited. */
  lemma SessionBlockKeepsItsContext(values: ContextGucs)
    requires values != CLEARED
    ensures SystemInv(FRESH) && KeepsNone(FRESH, CLEARED)
    ensures var entered := EnterBlock(FRESH, 0, values, false, NO_FAULTS);
            && entered.conn.session.Some? && entered.conn.session.value.kept == values
            && !KeepsNone(entered, CLEARED)
  {
    var s := FRESH.conn.session.value;
    var c := FRESH.conn.(tracker := Look(FRESH.conn.tracker, s));
    var c1, c2 := c.(session := Some(Worked(s))), c.(session := Some(Worked(Worked(s))));
    assert ReadSettings(FRESH.conn, None, NO_FAULTS.readAdmin) == (c1, Some(CLEARED));
    assert ReadSettings(c1, None, NO_FAULTS.readTenant) == (c2, Some(CLEARED));
    assert Snapshot(FRESH.conn, None, NO_FAULTS).0 == c2;
    var written := WriteOnEntry(c2, values, NO_FAULTS);
    assert !written.1 && written.0.session.value.kept == values;
  }
}
