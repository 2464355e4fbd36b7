/** The handler of a new connection, on the connection and its session's settings, in place. */
module PoolConnections {
  import opened Gucs
  import opened Sessions
  import opened Trackers
  import opened TrackerSoundness
  import opened Guard
  import opened GuardedConnections
  import opened Pool
  import Runs

  /** A connection of the pool's alias; `settings`: what its session keeps of every setting if it commits,
      `undone`: if it rolls back. */
  class PooledConnection {
    const connection: GuardedConnection
    var settings: Settings
    var undone: Settings

    constructor (connection: GuardedConnection)
      ensures this.connection == connection && settings == undone == map[]
    {
      this.connection, settings, undone := connection, map[], map[];
    }

    ghost function State(raised: bool): Lent
      reads this, connection, connection.tracker
    {
      Lent(connection.State(), settings, undone, raised)
    }

    /** What the server makes of the settings. */
    method NoteClear(names: seq<string>, f: CheckoutFaults)
      modifies this`settings, this`undone
      ensures (settings, undone) == AfterClear(old(State(false)), names, f)
    {
      var cleared := ClearNames(settings, names);
      if Done(f.clear) {
        if connection.autocommit || (f.clear == Fine && Done(f.commit)) {
          settings, undone := cleared, cleared;
        } else if f.clear == Fine && f.commit == Rejected {
          settings := undone;
        } else {
          settings := cleared;
        }
      }
    }

    /** `_clear_policy_gucs` inside `writing()`. */
    method Clear(names: seq<string>, f: CheckoutFaults) returns (raised: bool)
      requires connection.session.Some?
      modifies this`settings, this`undone, connection`session, connection.tracker
      ensures State(raised) == ClearPolicyGucs(old(State(false)), names, f)
    {
      var _ := connection.Observe();
      NoteClear(names, f);
      var sent :=
          SendWriteThroughCursor(connection.session.value, connection.autocommit, connection.needsRollback, CLEARED,
                                 false, f.clear);
      connection.session := Some(sent.session);
      raised := sent.raised;
      if !raised && !connection.autocommit {
        sent := Send(sent.session, CommitTransaction(false), f.commit);
        connection.session := Some(sent.session);
        raised := sent.raised;
      }
      if raised {
        connection.tracker.ForgetValues();
      } else {
        connection.RecordWrite(None, false);
      }
    }

    /** `_clear_new_connection_gucs` */
    method ClearNew(names: seq<string>, pooled: bool, f: CheckoutFaults) returns (raised: bool)
      requires connection.session.Some?
      modifies this`settings, this`undone, connection`session, connection.tracker
      ensures State(raised) == ClearNewConnection(old(State(false)), names, pooled, f)
    {
      raised := Clear(names, f);
      if raised && !ClearPasses(connection.autocommit, f) {
        if pooled {
          connection.session := None;
        } else {
          raised := false;
        }
      }
    }

    /** `_apply_request_gucs` */
    method ApplyRequest(active: Option<ContextGucs>, f: CheckoutFaults) returns (raised: bool)
      requires connection.session.Some?
      modifies this`settings, this`undone, connection`session, connection.tracker
      ensures State(raised) == ApplyRequestGucs(old(State(false)), active, f)
    {
      raised := false;
      if active.Some? {
        raised := connection.Write(active, false, f.apply);
        raised := raised && PassesHandlers(f.apply, f);
        settings := WithHeld(settings, connection.session.value.kept);
        if connection.session.value.status == Idle {
          undone := settings;
        }
      }
    }

    /** `install`, for a session that has just opened. */
    method Install(id: nat, values: Tracked)
      modifies connection.tracker
      ensures connection.tracker.State() == Runs.Install(old(connection.tracker.State()), id, values)
    {
      if values == Unknown || connection.tracker.raw != Some(id) {
        connection.tracker.AttachTo(id, values);
      }
    }

    /** `_prepare_new_connection`, for a session just opened or checked out. */
    method PrepareNew(id: nat, found: Settings, facts: Facts, names: seq<string>, f: CheckoutFaults)
      returns (raised: bool)
      modifies this`settings, this`undone, connection`session, connection.tracker
      ensures State(raised) == Pool.Prepare(old(connection.State()), id, found, facts, names, f)
    {
      raised := false;
      connection.session := Some(Runs.NewSession(id, Held(found)));
      settings, undone := found, found;
      Install(id, if facts.pooled then Unknown else Known(None));
      if !facts.configured {
        return;
      }
      if facts.gucsSet && !facts.onRequestThread {
        raised := ClearNew(names, facts.pooled, f);
        return;
      }
      if facts.pooled {
        raised := ClearNew(names, true, f);
      }
      if !raised && connection.session.Some? && facts.onRequestThread && !facts.localMode {
        raised := ApplyRequest(facts.active, f);
      }
    }
  }
}
