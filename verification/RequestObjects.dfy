/** The middleware's hooks, on the request's markers and the thread's connections, in place. */
module RequestObjects {
  import opened Gucs
  import opened Sessions
  import opened Trackers
  import opened TrackerSoundness
  import opened Guard
  import opened GuardedConnections
  import opened Aliases
  import opened AliasLoops
  import opened HolderObjects
  import opened Requests
  import Holders

  /** `_clear_alias_gucs` */
  method ClearOne(c: GuardedConnection, fault: Fault) returns (raised: bool)
    modifies c`session, c.tracker
    ensures (c.State(), raised) == ClearAlias(old(c.State()), fault)
  {
    raised := false;
    if c.session.Some? {
      raised := c.Write(None, false, fault);
    }
  }

  /** `_clear_request_gucs` with session GUCs */
  method ClearAliases(conns: seq<GuardedConnection>, faults: seq<Fault>) returns (raised: bool)
    requires Separate(conns) && |faults| == |conns|
    modifies conns, TrackersOf(conns)
    ensures (States(conns), raised) == ClearFrom(old(States(conns)), 0, faults)
  {
    var i := 0;
    while i < |conns|
      invariant 0 <= i <= |conns|
      invariant ClearFrom(States(conns), i, faults) == ClearFrom(old(States(conns)), 0, faults)
    {
      ghost var before := States(conns);
      raised := ClearOne(conns[i], faults[i]);
      assert States(conns) == before[i := conns[i].State()];
      if raised {
        return;
      }
      i := i + 1;
    }
    return false;
  }

  method ClearOnAll(conns: seq<GuardedConnection>, localMode: bool, faults: seq<Fault>) returns (raised: bool)
    requires Separate(conns) && |faults| == |conns|
    modifies conns, TrackersOf(conns)
    ensures (States(conns), raised) == ClearRequestGucs(old(States(conns)), localMode, faults)
  {
    if localMode {
      SuspectSessions(conns, true);
      raised := false;
    } else {
      raised := ClearAliases(conns, faults);
    }
  }

  /** The open session of `c` lets the interruption `f` pass. */
  function PassesOn(c: GuardedConnection, f: AliasFault): (r: bool)
    reads c, c.tracker
    ensures r == Passes(c.State(), f)
  {
    f.past && NotOfDatabase(f.fault) && c.session.Some? && c.session.value.status != Bad
  }

  /** Best-effort clears of the first `n` aliases. */
  method ClearFirst(conns: seq<GuardedConnection>, n: nat, faults: seq<AliasFault>) returns (passed: bool)
    requires Separate(conns) && n <= |conns| == |faults|
    modifies conns, TrackersOf(conns)
    ensures (States(conns), passed) == ClearQuietly(old(States(conns)), 0, n, faults)
  {
    var i := 0;
    while i < n
      invariant 0 <= i <= n
      invariant ClearQuietly(States(conns), i, n, faults) == ClearQuietly(old(States(conns)), 0, n, faults)
    {
      ghost var before := States(conns);
      var passes := PassesOn(conns[i], faults[i]);
      var raised := ClearOne(conns[i], faults[i].fault);
      assert States(conns) == before[i := conns[i].State()];
      if raised && passes {
        return true;
      }
      i := i + 1;
    }
    return false;
  }

  /** The write on one alias, and whether what it raised passes the handlers. */
  method SetOne(c: GuardedConnection, values: ContextGucs, f: AliasFault) returns (raised: bool, passes: bool)
    modifies c`session, c.tracker
    ensures (c.State(), raised) == SetAlias(old(c.State()), values, f.fault)
    ensures passes == Passes(old(c.State()), f)
  {
    raised, passes := true, PassesOn(c, f);
    if c.session.Some? {
      raised := c.Write(Some(values), false, f.fault);
    }
  }

  /** The same on alias `i`: the others are untouched. */
  method SetAt(conns: seq<GuardedConnection>, i: nat, values: ContextGucs, f: AliasFault)
    returns (raised: bool, passes: bool)
    requires Separate(conns) && i < |conns|
    modifies conns, TrackersOf(conns)
    ensures var (c, failed) := SetAlias(old(States(conns))[i], values, f.fault);
            States(conns) == old(States(conns))[i := c] && raised == failed
    ensures passes == Passes(old(States(conns))[i], f)
  {
    ghost var before := States(conns);
    raised, passes := SetOne(conns[i], values, f);
    assert States(conns) == before[i := conns[i].State()];
  }

  /** The handler of the write that raised on alias `i`. */
  method UndoFirst(conns: seq<GuardedConnection>, i: nat, passes: bool, undo: seq<AliasFault>)
    returns (outcome: Outcome)
    requires Separate(conns) && i <= |conns| == |undo|
    modifies conns, TrackersOf(conns)
    ensures (States(conns), outcome) == UndoSet(old(States(conns)), i, passes, undo)
  {
    outcome := Passed;
    if !passes {
      var passed := ClearFirst(conns, i, undo);
      outcome := if passed then Passed else Caught;
    }
  }

  /** `_set_gucs_on_all_databases` with session GUCs */
  method SetAliases(conns: seq<GuardedConnection>, values: ContextGucs, faults: seq<AliasFault>, undo: seq<AliasFault>)
    returns (outcome: Outcome)
    requires Separate(conns) && |faults| == |undo| == |conns|
    modifies conns, TrackersOf(conns)
    ensures (States(conns), outcome) == SetFrom(old(States(conns)), 0, values, faults, undo)
  {
    var i := 0;
    while i < |conns|
      invariant 0 <= i <= |conns|
      invariant SetFrom(States(conns), i, values, faults, undo) == SetFrom(old(States(conns)), 0, values, faults, undo)
    {
      ghost var before := States(conns);
      SetFromStep(before, i, values, faults, undo);
      var raised, passes := SetAt(conns, i, values, faults[i]);
      if raised {
        outcome := UndoFirst(conns, i, passes, undo);
        return;
      }
      i := i + 1;
    }
    outcome := Succeeded;
  }

  lemma SetFromStep(conns: seq<Conn>, i: nat, values: ContextGucs, faults: seq<AliasFault>, undo: seq<AliasFault>)
    requires i < |conns| == |faults| == |undo|
    ensures var (c, raised) := SetAlias(conns[i], values, faults[i].fault);
            SetFrom(conns, i, values, faults, undo) ==
              if raised then UndoSet(conns[i := c], i, Passes(conns[i], faults[i]), undo)
              else SetFrom(conns[i := c], i + 1, values, faults, undo)
  {
  }

  method SetOnAllDatabases(conns: seq<GuardedConnection>, values: ContextGucs, localMode: bool,
                           faults: seq<AliasFault>, undo: seq<AliasFault>) returns (outcome: Outcome)
    requires Separate(conns) && |faults| == |undo| == |conns|
    modifies conns, TrackersOf(conns)
    ensures (States(conns), outcome) == SetOnAll(old(States(conns)), values, localMode, faults, undo)
  {
    outcome := Succeeded;
    if !localMode {
      outcome := SetAliases(conns, values, faults, undo);
    }
  }

  /** A request, with the connections of its thread. */
  class TenantRequest {
    const contexts: ContextGucsVariable
    const context: nat
    const found: Holder
    const conns: seq<GuardedConnection>
    var tenant: Variable<Option<int>>
    var active: Variable<bool>
    var contextToken: Option<nat>
    var tenantToken: Option<nat>
    var activeToken: Option<nat>
    var stateReset: bool
    var gucsSet: bool
    var audited: bool
    var log: seq<Log>

    constructor (contexts: ContextGucsVariable, context: nat, found: Holder, conns: seq<GuardedConnection>,
                 tenant: Option<int>, active: bool)
      ensures this.contexts == contexts && this.context == context && this.found == found && this.conns == conns
      ensures contextToken.None? && tenantToken.None? && activeToken.None? && !stateReset && !gucsSet && !audited
      ensures log == []
    {
      this.contexts, this.context, this.found, this.conns := contexts, context, found, conns;
      this.tenant, this.active := Variable(tenant, []), Variable(active, []);
      contextToken, tenantToken, activeToken := None, None, None;
      stateReset, gucsSet, audited, log := false, false, false, [];
    }

    ghost predicate Ready()
      reads this, contexts
    {
      && contexts.Valid() && Separate(conns)
      && context < |contexts.slots| && contexts.Made(Some(found))
      && (contextToken.Some? ==> contextToken.value < |contexts.tokens|)
      && (tenantToken.Some? ==> tenantToken.value < |tenant.tokens|)
      && (activeToken.Some? ==> activeToken.value < |active.tokens|)
    }

    ghost function State(): (r: Request)
      reads this, contexts, contexts.made, conns, TrackersOf(conns)
      requires Ready()
      ensures Requests.Valid(r)
    {
      Request(contexts.State(), context, found.serial, tenant, active, contextToken, tenantToken, activeToken,
              stateReset, gucsSet, audited, States(conns), log)
    }

    /** `_end_context_gucs` */
    method EndOwnContext() returns (raised: bool)
      requires Ready()
      modifies contexts`slots, contexts`tokens, contexts.made
      ensures Ready() && (contexts.State(), raised) == EndContext(old(contexts.State()), context, contextToken)
    {
      raised := false;
      if contextToken.Some? {
        var outcome := contexts.ResetContextGucs(context, contextToken.value);
        raised := outcome == Holders.AlreadyUsed;
      }
    }

    /** The other two variables. */
    method ResetOthers() returns (raised: bool)
      requires Ready()
      modifies this`tenant, this`active
      ensures Ready() && (tenant, active, raised) == ResetVariables(old(tenant), tenantToken, old(active), activeToken)
    {
      var (tenant', raised1) := ResetOrClear(tenant, tenantToken, None);
      tenant, raised := tenant', raised1;
      if !raised {
        var (active', raised2) := ResetOrClear(active, activeToken, false);
        active, raised := active', raised2;
      }
    }

    /** The `ContextVar` part of `_cleanup_rls_state`. */
    method ResetContextState() returns (raised: bool)
      requires Ready() && !stateReset
      modifies this`tenant, this`active, this`stateReset, contexts`slots, contexts`tokens, contexts.made
      ensures Ready() && States(conns) == old(States(conns))
      ensures var (r, failed) := ResetState(old(State()));
              && contexts.State() == r.world && tenant == r.tenant && active == r.active && stateReset == r.stateReset
              && raised == failed
    {
      raised := false;
      assert contexts.State().lives[found.serial] == Holders.Live(found.values, found.block, found.alive);
      var setAny := contextToken.Some? || tenantToken.Some? || activeToken.Some?;
      if setAny || contexts.ValuesOf(Some(found)).None? {
        raised := EndOwnContext();
        if !raised {
          raised := ResetOthers();
        }
      }
      stateReset := !raised;
    }

    /** The part that clears the settings, if they were set. */
    method ClearIfSet(localMode: bool, faults: seq<Fault>) returns (failed: bool)
      requires Separate(conns) && |faults| == |conns|
      modifies this`gucsSet, conns, TrackersOf(conns)
      ensures (States(conns), failed) ==
                if old(gucsSet) then ClearRequestGucs(old(States(conns)), localMode, faults)
                else (old(States(conns)), false)
      ensures gucsSet == (old(gucsSet) && failed)
    {
      failed := false;
      if gucsSet {
        failed := ClearOnAll(conns, localMode, faults);
        gucsSet := failed;
      }
    }

    /** `_audit_request_exited` */
    method LogExit()
      modifies this`audited, this`log
      ensures !audited && log == old(log) + if old(audited) then [Exited] else []
    {
      if audited {
        log := log + [Exited];
      }
      audited := false;
    }

    method ClearAndLog(localMode: bool, faults: seq<Fault>) returns (failed: bool)
      requires Ready() && |faults| == |conns|
      modifies this`gucsSet, this`audited, this`log, conns, TrackersOf(conns)
      ensures Ready()
      ensures var r := old(State());
              var (cleared, raised) := if r.gucsSet then ClearRequestGucs(r.conns, localMode, faults)
              else (r.conns, false);
              && failed == raised
              && State() == r.(conns := cleared, gucsSet := r.gucsSet && raised, audited := false,
                               log := r.log + if r.audited then [Exited] else [])
    {
      failed := ClearIfSet(localMode, faults);
      LogExit();
      assert contexts.State() == old(contexts.State());
    }

    method ResetOnce() returns (raised: bool)
      requires Ready()
      modifies this`tenant, this`active, this`stateReset, contexts`slots, contexts`tokens, contexts.made
      ensures Ready() && (State(), raised) == if old(stateReset) then (old(State()), false)
              else ResetState(old(State()))
    {
      raised := false;
      if !stateReset {
        ResetStateIsValid(State());
        raised := ResetContextState();
      }
    }

    /** `_cleanup_rls_state`; each part runs even if the one before raised. */
    method CleanUp(localMode: bool, faults: seq<Fault>) returns (raised: bool)
      requires Ready() && |faults| == |conns|
      modifies this`tenant, this`active, this`stateReset, this`gucsSet, this`audited, this`log
      modifies contexts`slots, contexts`tokens, contexts.made, conns, TrackersOf(conns)
      ensures Ready() && (State(), raised) == Cleanup(old(State()), localMode, faults)
    {
      raised := ResetOnce();
      var failed := ClearAndLog(localMode, faults);
      raised := raised || failed;
    }

    /** `_end_blocks_left_open` */
    method EndLeftOpen()
      requires Ready()
      modifies contexts.made
      ensures Ready() && State() == EndBlocksLeftOpen(old(State()))
    {
      var current := contexts.Get(context);
      if contextToken.None? || current != Some(contexts.tokens[contextToken.value].live) {
        contexts.EndIfNewerThan(current, found);
      }
      assert States(conns) == old(States(conns));
    }

    /** `process_exception` */
    method ProcessException(ownsTransaction: bool, localMode: bool, faults: seq<Fault>)
      returns (rollsBack: bool, raised: bool)
      requires Ready() && |faults| == |conns|
      modifies this`tenant, this`active, this`stateReset, this`gucsSet, this`audited, this`log
      modifies contexts`slots, contexts`tokens, contexts.made, conns, TrackersOf(conns)
      ensures Ready() && State() == RunHook(old(State()), localMode, Failed(ownsTransaction, faults))
      ensures rollsBack == ownsTransaction
      ensures raised == (!ownsTransaction && Cleanup(old(State()), localMode, faults).1)
    {
      rollsBack, raised := ownsTransaction, false;
      if !ownsTransaction {
        raised := CleanUp(localMode, faults);
      }
      EndLeftOpen();
    }

    method PushContext(values: ContextGucs)
      requires Ready()
      modifies this`contextToken, contexts
      ensures Ready()
      ensures State() == old(State()).(world := Holders.Enter(old(State()).world, context, Some(values), false),
                                       contextToken := Some(|old(State()).world.tokens|))
    {
      var k := contexts.SetContextGucs(context, Some(values), false);
      contextToken := Some(k);
      assert States(conns) == old(States(conns));
    }

    method SetVariables(tenantId: Option<int>)
      requires Ready()
      modifies this`tenant, this`active, this`tenantToken, this`activeToken
      ensures Ready()
      ensures State() ==
                old(State()).(tenant := SetVariable(old(tenant), tenantId), tenantToken := Some(|old(tenant).tokens|),
                              active := SetVariable(old(active), true), activeToken := Some(|old(active).tokens|))
    {
      tenantToken := Some(|tenant.tokens|);
      tenant := SetVariable(tenant, tenantId);
      activeToken := Some(|active.tokens|);
      active := SetVariable(active, true);
    }

    /** The entry, once the settings are written. */
    method EnterContext(values: ContextGucs, tenantId: Option<int>)
      requires Ready()
      modifies this`tenant, this`active, this`tenantToken, this`activeToken, this`contextToken, contexts
      modifies this`gucsSet, this`audited, this`log
      ensures Ready() && State() == EnterRequest(old(State()), values, tenantId)
    {
      SetVariables(tenantId);
      PushContext(values);
      gucsSet, audited, log := true, true, log + [Log.Entered];
    }

    /** What a failed write leaves: no context, and the aliases cleared as far as possible. */
    method HandleFailure(clear: seq<AliasFault>) returns (outcome: Outcome)
      requires Ready() && |clear| == |conns|
      modifies this`tenant, this`active, this`stateReset, conns, TrackersOf(conns)
      ensures Ready() && (State(), outcome) == FailEntry(old(State()), clear)
    {
      LeaveNoContext();
      var passed := ClearEverywhere(clear);
      outcome := if passed then Passed else Caught;
    }

    method LeaveNoContext()
      requires Ready()
      modifies this`tenant, this`active, this`stateReset
      ensures Ready()
      ensures State() == old(State()).(stateReset := true, tenant := SetVariable(old(tenant), None),
                                       active := SetVariable(old(active), false))
    {
      tenant, active, stateReset := SetVariable(tenant, None), SetVariable(active, false), true;
    }

    method ClearEverywhere(clear: seq<AliasFault>) returns (passed: bool)
      requires Ready() && |clear| == |conns|
      modifies conns, TrackersOf(conns)
      ensures Ready()
      ensures var (cleared, past) := ClearQuietly(old(State()).conns, 0, |conns|, clear);
              State() == old(State()).(conns := cleared) && passed == past
    {
      passed := ClearFirst(conns, |conns|, clear);
      assert contexts.State() == old(contexts.State());
    }

    method SetEverywhere(values: ContextGucs, localMode: bool, faults: seq<AliasFault>, undo: seq<AliasFault>)
      returns (outcome: Outcome)
      requires Ready() && |faults| == |undo| == |conns|
      modifies conns, TrackersOf(conns)
      ensures Ready()
      ensures var (set', end) := SetOnAll(old(State()).conns, values, localMode, faults, undo);
              State() == old(State()).(conns := set') && outcome == end
    {
      outcome := SetOnAllDatabases(conns, values, localMode, faults, undo);
      assert contexts.State() == old(contexts.State());
    }

    /** `process_request` for a user with a context. */
    method Process(values: ContextGucs, tenantId: Option<int>, localMode: bool,
                   faults: seq<AliasFault>, undo: seq<AliasFault>, clear: seq<AliasFault>) returns (outcome: Outcome)
      requires Ready() && |faults| == |undo| == |clear| == |conns|
      modifies this`tenant, this`active, this`tenantToken, this`activeToken, this`contextToken, contexts
      modifies this`gucsSet, this`audited, this`log, this`stateReset, conns, TrackersOf(conns)
      ensures Ready()
      ensures (State(), outcome) == ProcessRequest(old(State()), values, tenantId, localMode, faults, undo, clear)
    {
      outcome := SetEverywhere(values, localMode, faults, undo);
      if outcome == Caught {
        outcome := HandleFailure(clear);
      } else if outcome == Succeeded {
        EnterContext(values, tenantId);
      }
    }
  }
}
