/** The loops over the configured aliases, on the connections of one thread. */
module AliasLoops {
  import opened Gucs
  import opened Sessions
  import opened Trackers
  import opened TrackerSoundness
  import opened Guard
  import opened GuardedConnections
  import opened Aliases

  ghost predicate Separate(conns: seq<GuardedConnection>) {
    forall i, j :: 0 <= i < j < |conns| ==> conns[i] != conns[j] && conns[i].tracker != conns[j].tracker
  }

  ghost function TrackersOf(conns: seq<GuardedConnection>): set<SessionGucs> {
    set c <- conns :: c.tracker
  }

  ghost function States(conns: seq<GuardedConnection>): (s: seq<Conn>)
    reads conns, TrackersOf(conns)
    ensures |s| == |conns|
  {
    seq(|conns|, i requires 0 <= i < |conns| reads conns, TrackersOf(conns) => conns[i].State())
  }

  /** One turn of the loop of `settle_other_aliases`. */
  method SettleAlias(c: GuardedConnection, all: bool, cleared: bool, active: Option<ContextGucs>, localMode: bool,
                     fault: Fault)
    returns (interrupted: bool)
    modifies c`session, c.tracker
    ensures var one := SettleOne(old(c.State()), all, cleared, active, localMode, fault);
            c.State() == one.conn && interrupted == one.interrupted
  {
    interrupted := false;
    if c.session.None? {
      return;
    }
    var held := c.tracker.values;
    var unknownInTransaction := false;
    if all && held == Unknown {
      var status := c.Observe();
      unknownInTransaction := status != Idle;
    }
    var clearedByTheBlock := cleared && (held == Known(None) || held == Unknown);
    if !(held.Known? && held.gucs.Some?) && !unknownInTransaction && !clearedByTheBlock {
      return;
    }
    interrupted := ApplyTo(c, active, localMode, fault);
  }

  method ApplyTo(c: GuardedConnection, active: Option<ContextGucs>, localMode: bool, fault: Fault)
    returns (interrupted: bool)
    requires c.session.Some?
    modifies c`session, c.tracker
    ensures var one := ApplyOrForget(old(c.State()), active, localMode, fault);
            c.State() == one.conn && interrupted == one.interrupted
  {
    var _, raised := c.Apply(active, localMode, fault);
    interrupted := raised && NotOfDatabase(fault);
    if raised && !interrupted {
      c.tracker.ForgetValues();
    }
  }

  /** `settle_other_aliases` */
  method SettleOtherAliases(conns: seq<GuardedConnection>, using: Option<nat>, cleared: bool,
                            active: Option<ContextGucs>, localMode: bool, faults: seq<Fault>)
    returns (interrupted: bool)
    requires Separate(conns) && |faults| == |conns|
    modifies conns, TrackersOf(conns)
    ensures (States(conns), interrupted) == SettleFrom(old(States(conns)), 0, using, cleared, active, localMode, faults)
  {
    var i := 0;
    while i < |conns|
      invariant 0 <= i <= |conns|
      invariant SettleFrom(States(conns), i, using, cleared, active, localMode, faults)
             == SettleFrom(old(States(conns)), 0, using, cleared, active, localMode, faults)
    {
      if Some(i) != using {
        ghost var before := States(conns);
        var stopped := SettleAlias(conns[i], using.None?, cleared, active, localMode, faults[i]);
        assert States(conns) == before[i := conns[i].State()];
        if stopped {
          return true;
        }
      }
      i := i + 1;
    }
    return false;
  }

  /** `suspect_sessions` */
  method SuspectSessions(conns: seq<GuardedConnection>, underLocalValues: bool)
    requires Separate(conns)
    modifies TrackersOf(conns)
    ensures States(conns) == SuspectAll(old(States(conns)), underLocalValues)
  {
    var i := 0;
    while i < |conns|
      invariant 0 <= i <= |conns|
      invariant forall k :: 0 <= k < |conns| ==>
        States(conns)[k] == if k < i then SuspectAll(old(States(conns)), underLocalValues)[k] else old(States(conns))[k]
    {
      var c := conns[i];
      ghost var before := States(conns);
      if c.session.Some? {
        var _ := c.Observe();
        c.tracker.Suspect(underLocalValues);
      }
      assert States(conns) == before[i := c.State()];
      i := i + 1;
    }
  }

  /** `_settle_after_no_context` */
  method SettleAfterACallWithoutContext(conns: seq<GuardedConnection>, active: Option<ContextGucs>, localMode: bool,
                                        faults: seq<Fault>)
    returns (interrupted: bool)
    requires Separate(conns) && |faults| == |conns|
    modifies conns, TrackersOf(conns)
    ensures (States(conns), interrupted) == SettleAfterNoContext(old(States(conns)), active, localMode, faults)
  {
    SuspectSessions(conns, localMode);
    interrupted := SettleOtherAliases(conns, None, true, active, localMode, faults);
  }
}
