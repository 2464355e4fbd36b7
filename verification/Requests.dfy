/** A request on the synchronous path: its context, and the cleanup that may run more than once. */
module Requests {
  import opened Gucs
  import opened Sessions
  import opened Trackers
  import opened TrackerSoundness
  import opened Guard
  import opened GuardSoundness
  import opened Aliases
  import Holders
  import HolderProperties

  // ---- The other two context variables, in the request's own `Context` ----

  datatype VarToken<T> = VarToken(before: T, used: bool)

  datatype Variable<T> = Variable(value: T, tokens: seq<VarToken<T>>)

  function SetVariable<T>(v: Variable<T>, value: T): Variable<T> {
    Variable(value, v.tokens + [VarToken(v.value, false)])
  }

  /** `reset()`; a used token raises `RuntimeError`. */
  function ResetVariable<T>(v: Variable<T>, k: nat): (r: (Variable<T>, bool))
    requires k < |v.tokens|
  {
    if v.tokens[k].used then (v, true)
    else (Variable(v.tokens[k].before, v.tokens[k := v.tokens[k].(used := true)]), false)
  }

  /** `_reset_or_clear` */
  function ResetOrClear<T>(v: Variable<T>, token: Option<nat>, default: T): (r: (Variable<T>, bool))
    requires token.Some? ==> token.value < |v.tokens|
    ensures |r.0.tokens| >= |v.tokens|
  {
    if token.Some? then ResetVariable(v, token.value) else (SetVariable(v, default), false)
  }

  // ---- The request ----

  datatype Log = Entered | Exited

  /** The state a request's hooks share: the `Context` it runs in, its markers, and the thread's
      connections of the configured aliases. `found`: the holder current when it started. */
  datatype Request = Request(
    world: Holders.World,
    context: nat,
    found: nat,
    tenant: Variable<Option<int>>,
    active: Variable<bool>,
    contextToken: Option<nat>,
    tenantToken: Option<nat>,
    activeToken: Option<nat>,
    stateReset: bool,
    gucsSet: bool,
    audited: bool,
    conns: seq<Conn>,
    log: seq<Log>)

  ghost predicate Valid(r: Request) {
    && Holders.WellFormed(r.world) && r.context < |r.world.slots| && r.found < |r.world.lives|
    && (r.contextToken.Some? ==> r.contextToken.value < |r.world.tokens|)
    && (r.tenantToken.Some? ==> r.tenantToken.value < |r.tenant.tokens|)
    && (r.activeToken.Some? ==> r.activeToken.value < |r.active.tokens|)
  }

  /** `_clear_alias_gucs`, on a connection that is open. */
  function ClearAlias(c: Conn, fault: Fault): (Conn, bool) {
    if c.session.None? then (c, false)
    else
      var ran := WriteGucs(c, None, false, fault);
      (ran.conn, ran.raised)
  }

  /** `_clear_request_gucs` from alias `i` on, with session GUCs; a failure ends it. */
  function ClearFrom(conns: seq<Conn>, i: nat, faults: seq<Fault>): (r: (seq<Conn>, bool))
    requires i <= |conns| == |faults|
    ensures |r.0| == |conns|
    decreases |conns| - i
  {
    if i == |conns| then (conns, false)
    else
      var (c, raised) := ClearAlias(conns[i], faults[i]);
      if raised then (conns[i := c], true) else ClearFrom(conns[i := c], i + 1, faults)
  }

  /** `_clear_request_gucs` */
  function ClearRequestGucs(conns: seq<Conn>, localMode: bool, faults: seq<Fault>): (r: (seq<Conn>, bool))
    requires |conns| == |faults|
    ensures |r.0| == |conns|
  {
    if localMode then (SuspectAll(conns, true), false) else ClearFrom(conns, 0, faults)
  }

  /** `_end_context_gucs` */
  function EndContext(w: Holders.World, c: nat, token: Option<nat>): (end: (Holders.World, bool))
    requires Holders.WellFormed(w) && c < |w.slots| && (token.Some? ==> token.value < |w.tokens|)
    ensures Holders.WellFormed(end.0) && |end.0.slots| == |w.slots|
    ensures |end.0.tokens| == |w.tokens| && |end.0.lives| == |w.lives|
  {
    if token.None? then (w, false) else (Holders.Exit(w, c, token.value), w.tokens[token.value].used)
  }

  /** The tenant, then the flag; a raise skips what follows. */
  function ResetVariables(tenant: Variable<Option<int>>, tenantToken: Option<nat>, active: Variable<bool>,
                          activeToken: Option<nat>)
    : (end: (Variable<Option<int>>, Variable<bool>, bool))
    requires tenantToken.Some? ==> tenantToken.value < |tenant.tokens|
    requires activeToken.Some? ==> activeToken.value < |active.tokens|
    ensures |end.0.tokens| >= |tenant.tokens| && |end.1.tokens| >= |active.tokens|
  {
    var (tenant', raised1) := ResetOrClear(tenant, tenantToken, None);
    if raised1 then (tenant', active, true)
    else
      var (active', raised2) := ResetOrClear(active, activeToken, false);
      (tenant', active', raised2)
  }

  /** The `ContextVar` part of the cleanup, for a request whose state is not reset yet. A request that
      set nothing leaves the live context it is served in alone. */
  function ResetState(r: Request): (Request, bool)
    requires Valid(r)
  {
    var setAny := r.contextToken.Some? || r.tenantToken.Some? || r.activeToken.Some?;
    var inside := r.world.lives[r.found].alive && r.world.lives[r.found].values.Some?;
    if !setAny && inside then (r.(stateReset := true), false)
    else
      var (world, raised1) := EndContext(r.world, r.context, r.contextToken);
      if raised1 then (r.(world := world), true)
      else
        var (tenant, active, raised2) := ResetVariables(r.tenant, r.tenantToken, r.active, r.activeToken);
        (r.(world := world, tenant := tenant, active := active, stateReset := !raised2), raised2)
  }

  /** `_cleanup_rls_state`; each part runs even if the one before raised. */
  function Cleanup(r: Request, localMode: bool, faults: seq<Fault>): (Request, bool)
    requires Valid(r) && |faults| == |r.conns|
  {
    var (reset, raised1) := if r.stateReset then (r, false) else ResetState(r);
    var (conns, raised2) := if r.gucsSet then ClearRequestGucs(r.conns, localMode, faults) else (r.conns, false);
    (reset.(conns := conns,
            gucsSet := r.gucsSet && raised2,
            audited := false,
            log := r.log + if r.audited then [Exited] else []),
     raised1 || raised2)
  }

  /** The entry `process_request` makes once the GUCs are set, in both modes. */
  function EnterRequest(r: Request, values: ContextGucs, tenantId: Option<int>): Request
    requires Valid(r)
  {
    r.(tenant := SetVariable(r.tenant, tenantId), tenantToken := Some(|r.tenant.tokens|),
       active := SetVariable(r.active, true), activeToken := Some(|r.active.tokens|),
       world := Holders.Enter(r.world, r.context, Some(values), false), contextToken := Some(|r.world.tokens|),
       gucsSet := true, audited := true, log := r.log + [Log.Entered])
  }

  /** What comes of a driver call; `past`: an exception that `except Exception` does not catch. */
  datatype AliasFault = AliasFault(fault: Fault, past: bool)

  /** How far the exception of an entry gets: there is none, the handlers catch it, or it passes them. */
  datatype Outcome = Succeeded | Caught | Passed

  /** The call is interrupted, before it is sent or once it is done; a dead session raises the driver's error. */
  predicate Passes(c: Conn, f: AliasFault) {
    f.past && NotOfDatabase(f.fault) && c.session.Some? && c.session.value.status != Bad
  }

  /** `write_gucs` on one alias; a closed connection that cannot be opened raises. */
  function SetAlias(c: Conn, values: ContextGucs, fault: Fault): (Conn, bool) {
    if c.session.None? then (c, true)
    else
      var ran := WriteGucs(c, Some(values), false, fault);
      (ran.conn, ran.raised)
  }

  /** Best-effort clears of the aliases from `i` up to `n`, and whether an interruption ended them. */
  function ClearQuietly(conns: seq<Conn>, i: nat, n: nat, faults: seq<AliasFault>): (r: (seq<Conn>, bool))
    requires i <= n <= |conns| == |faults|
    ensures |r.0| == |conns|
    decreases n - i
  {
    if i == n then (conns, false)
    else
      var (c, raised) := ClearAlias(conns[i], faults[i].fault);
      if raised && Passes(conns[i], faults[i]) then (conns[i := c], true)
      else ClearQuietly(conns[i := c], i + 1, n, faults)
  }

  /** The handler of the write that raised on alias `i`: it clears those already set. */
  function UndoSet(conns: seq<Conn>, i: nat, passes: bool, undo: seq<AliasFault>): (r: (seq<Conn>, Outcome))
    requires i <= |conns| == |undo|
    ensures |r.0| == |conns| && r.1 != Succeeded
  {
    if passes then (conns, Passed)
    else
      var (cleared, passed) := ClearQuietly(conns, 0, i, undo);
      (cleared, if passed then Passed else Caught)
  }

  /** `_set_gucs_on_all_databases` from alias `i` on. */
  function SetFrom(conns: seq<Conn>, i: nat, values: ContextGucs, faults: seq<AliasFault>, undo: seq<AliasFault>)
    : (r: (seq<Conn>, Outcome))
    requires i <= |conns| == |faults| == |undo|
    ensures |r.0| == |conns|
    decreases |conns| - i
  {
    if i == |conns| then (conns, Succeeded)
    else
      var (c, raised) := SetAlias(conns[i], values, faults[i].fault);
      if raised then UndoSet(conns[i := c], i, Passes(conns[i], faults[i]), undo)
      else SetFrom(conns[i := c], i + 1, values, faults, undo)
  }

  function SetOnAll(conns: seq<Conn>, values: ContextGucs, localMode: bool, faults: seq<AliasFault>,
                    undo: seq<AliasFault>)
    : (r: (seq<Conn>, Outcome))
    requires |conns| == |faults| == |undo|
    ensures |r.0| == |conns|
  {
    if localMode then (conns, Succeeded) else SetFrom(conns, 0, values, faults, undo)
  }

  /** The handler of an entry that raised: no context is left, and every alias is cleared as far as
      possible. */
  function FailEntry(r: Request, clear: seq<AliasFault>): (end: (Request, Outcome))
    requires Valid(r) && |clear| == |r.conns|
    ensures |end.0.conns| == |r.conns|
  {
    var (cleared, passed) := ClearQuietly(r.conns, 0, |r.conns|, clear);
    (r.(conns := cleared, tenant := SetVariable(r.tenant, None), active := SetVariable(r.active, false),
        stateReset := true),
     if passed then Passed else Caught)
  }

  /** `process_request` for a user with a context, and how far what it raised gets. An exception that
      passes the handlers leaves the aliases as they are. */
  function ProcessRequest(r: Request, values: ContextGucs, tenantId: Option<int>, localMode: bool,
                          faults: seq<AliasFault>, undo: seq<AliasFault>, clear: seq<AliasFault>)
    : (end: (Request, Outcome))
    requires Valid(r) && |r.conns| == |faults| == |undo| == |clear|
    ensures |end.0.conns| == |r.conns|
  {
    var (conns, outcome) := SetOnAll(r.conns, values, localMode, faults, undo);
    match outcome
    case Succeeded => (EnterRequest(r.(conns := conns), values, tenantId), Succeeded)
    case Passed => (r.(conns := conns), Passed)
    case Caught => FailEntry(r.(conns := conns), clear)
  }

  // ---- One cleanup ----

  lemma ResetStateIsValid(r: Request)
    requires Valid(r)
    ensures Valid(ResetState(r).0)
    ensures var r' := ResetState(r).0;
            r' == r.(world := r'.world, tenant := r'.tenant, active := r'.active, stateReset := r'.stateReset)
    ensures !ResetState(r).1 ==> ResetState(r).0.stateReset
  {
    var r' := ResetState(r).0;
    assert Holders.WellFormed(r'.world) && |r'.world.slots| == |r.world.slots| && |r'.world.lives| == |r.world.lives|;
    assert |r'.world.tokens| == |r.world.tokens| && |r'.tenant.tokens| >= |r.tenant.tokens|
           && |r'.active.tokens| >= |r.active.tokens|;
  }

  lemma CleanupIsValid(r: Request, localMode: bool, faults: seq<Fault>)
    requires Valid(r) && |faults| == |r.conns|
    ensures Valid(Cleanup(r, localMode, faults).0) && |Cleanup(r, localMode, faults).0.conns| == |r.conns|
  {
    if !r.stateReset {
      ResetStateIsValid(r);
    }
  }

  /** A cleanup that did not raise leaves nothing to do: another one changes nothing. */
  lemma CleanupIsIdempotent(r: Request, localMode: bool, faults: seq<Fault>, again: seq<Fault>)
    requires Valid(r) && |faults| == |again| == |r.conns|
    requires !Cleanup(r, localMode, faults).1
    ensures var r' := Cleanup(r, localMode, faults).0;
            Valid(r') && |r'.conns| == |r.conns| && Cleanup(r', localMode, again) == (r', false)
  {
    CleanupIsValid(r, localMode, faults);
    if !r.stateReset {
      ResetStateIsValid(r);
    }
    var r' := Cleanup(r, localMode, faults).0;
    assert r'.log + [] == r'.log;
  }

  // ---- A request, from entry to release ----

  /** The request's three tokens are its own, unused, and would bring back what it found. */
  ghost predicate InRequest(r: Request, slot: Holders.Slot, tenant: Option<int>, active: bool) {
    && Valid(r) && !r.stateReset
    && r.contextToken.Some? && r.tenantToken.Some? && r.activeToken.Some?
    && var t := r.world.tokens[r.contextToken.value];
    && !t.used && !t.hold && t.context == r.context && t.before == slot
    && r.tenant.tokens[r.tenantToken.value] == VarToken(tenant, false)
    && r.active.tokens[r.activeToken.value] == VarToken(active, false)
  }

  lemma EnteredRequest(r: Request, values: ContextGucs, tenantId: Option<int>)
    requires Valid(r) && !r.stateReset
    ensures InRequest(EnterRequest(r, values, tenantId), r.world.slots[r.context], r.tenant.value, r.active.value)
  {
  }

  predicate Uses(e: Holders.Event, k: nat) {
    (e.Exited? || e.Released?) && e.token == k
  }

  /** What the view and the middleware around it may do: anything but use the request's tokens. */
  ghost predicate AfterView(r: Request, r': Request, events: seq<Holders.Event>) {
    && Holders.WellFormed(r.world) && r'.world == Holders.Run(r.world, events)
    && (r.contextToken.Some? ==>
          forall n :: 0 <= n < |events| ==> !Uses(events[n], r.contextToken.value))
    && |r.tenant.tokens| <= |r'.tenant.tokens| && |r.active.tokens| <= |r'.active.tokens|
    && (r.tenantToken.Some? && r.tenantToken.value < |r.tenant.tokens| ==>
          r'.tenant.tokens[r.tenantToken.value] == r.tenant.tokens[r.tenantToken.value])
    && (r.activeToken.Some? && r.activeToken.value < |r.active.tokens| ==>
          r'.active.tokens[r.activeToken.value] == r.active.tokens[r.activeToken.value])
    && r' == r.(world := r'.world, tenant := r'.tenant, active := r'.active, conns := r'.conns)
  }

  lemma {:induction false} TokenStaysUnused(w: Holders.World, events: seq<Holders.Event>, k: nat)
    requires Holders.WellFormed(w) && k < |w.tokens| && forall n :: 0 <= n < |events| ==> !Uses(events[n], k)
    ensures k < |Holders.Run(w, events).tokens| && Holders.Run(w, events).tokens[k] == w.tokens[k]
    decreases |events|
  {
    if events != [] {
      var n := |events| - 1;
      TokenStaysUnused(w, events[..n], k);
      StepLeavesToken(Holders.Run(w, events[..n]), events[n], k);
    }
  }

  lemma StepLeavesToken(w: Holders.World, e: Holders.Event, k: nat)
    requires Holders.WellFormed(w) && k < |w.tokens| && !Uses(e, k)
    ensures k < |Holders.Step(w, e).tokens| && Holders.Step(w, e).tokens[k] == w.tokens[k]
  {
  }

  lemma ViewKeepsTheRequest(r: Request, r': Request, events: seq<Holders.Event>, slot: Holders.Slot,
                            tenant: Option<int>, active: bool)
    requires InRequest(r, slot, tenant, active) && AfterView(r, r', events)
    ensures InRequest(r', slot, tenant, active)
  {
    HolderProperties.EndedStaysEnded(r.world, events);
    TokenStaysUnused(r.world, events, r.contextToken.value);
  }

  /** What the first cleanup leaves, whatever fails on the connections. */
  ghost predicate ContextRestored(r: Request, r': Request, slot: Holders.Slot, tenant: Option<int>, active: bool)
    requires Valid(r) && r.contextToken.Some?
  {
    && Valid(r') && r'.context == r.context
    && r'.stateReset && r'.world.slots[r.context] == slot && r'.tenant.value == tenant && r'.active.value == active
    && var own := r.world.tokens[r.contextToken.value].live;
    && own < |r'.world.lives| && !r'.world.lives[own].alive
    && r'.world.tokens == r.world.tokens[r.contextToken.value := r.world.tokens[r.contextToken.value].(used := true)]
    && forall i :: 0 <= i < own ==> r'.world.lives[i] == r.world.lives[i]
  }

  /** The first cleanup restores the holder, tenant and flag the request found, ends the request's own
      context for every copy, and ends no older one. */
  lemma CleanupRestores(r: Request, localMode: bool, faults: seq<Fault>, slot: Holders.Slot, tenant: Option<int>,
                        active: bool)
    requires InRequest(r, slot, tenant, active) && |faults| == |r.conns|
    ensures ContextRestored(r, Cleanup(r, localMode, faults).0, slot, tenant, active)
  {
    ResetStateIsValid(r);
    CleanupIsValid(r, localMode, faults);
    var k := r.contextToken.value;
    var w := Holders.Exit(r.world, r.context, k);
    assert ResetState(r).0.world == w;
  }

  // ---- Any number of cleanups ----

  /** `process_exception`, `process_response`, and what catches a `BaseException`: one after another. */
  function Cleanups(r: Request, localMode: bool, faults: seq<seq<Fault>>): (end: (Request, bool))
    requires Valid(r) && forall n :: 0 <= n < |faults| ==> |faults[n]| == |r.conns|
    ensures Valid(end.0) && |end.0.conns| == |r.conns|
    decreases |faults|
  {
    if faults == [] then (r, false)
    else
      CleanupIsValid(r, localMode, faults[0]);
      var (r1, raised1) := Cleanup(r, localMode, faults[0]);
      var (r2, raised2) := Cleanups(r1, localMode, faults[1..]);
      (r2, raised1 || raised2)
  }

  /** Any non-empty sequence of cleanups that do not raise leaves the same state as one. */
  lemma {:induction false} CleanupsAreOne(r: Request, localMode: bool, faults: seq<seq<Fault>>)
    requires Valid(r) && faults != [] && forall n :: 0 <= n < |faults| ==> |faults[n]| == |r.conns|
    requires !Cleanup(r, localMode, faults[0]).1
    ensures Cleanups(r, localMode, faults) == Cleanup(r, localMode, faults[0])
    decreases |faults|
  {
    CleanupIsValid(r, localMode, faults[0]);
    if |faults| > 1 {
      var r1 := Cleanup(r, localMode, faults[0]).0;
      CleanupIsIdempotent(r, localMode, faults[0], faults[1]);
      CleanupsAreOne(r1, localMode, faults[1..]);
    }
  }

  /** What a cleanup leaves alone once the state is reset: only the connections are tried again. */
  lemma ResetOnce(r: Request, localMode: bool, faults: seq<Fault>)
    requires Valid(r) && r.stateReset && |faults| == |r.conns|
    ensures var r' := Cleanup(r, localMode, faults).0;
            r' == r.(conns := r'.conns, gucsSet := r'.gucsSet, audited := false, log := r'.log)
  {
  }

  /** Also with clears that fail, the context is restored by the first cleanup and stays so. */
  lemma {:induction false} CleanupsRestore(r: Request, localMode: bool, faults: seq<seq<Fault>>, slot: Holders.Slot,
                                           tenant: Option<int>, active: bool)
    requires InRequest(r, slot, tenant, active) && faults != []
    requires forall n :: 0 <= n < |faults| ==> |faults[n]| == |r.conns|
    ensures ContextRestored(r, Cleanups(r, localMode, faults).0, slot, tenant, active)
  {
    CleanupRestores(r, localMode, faults[0], slot, tenant, active);
    CleanupIsValid(r, localMode, faults[0]);
    ResetCleanups(Cleanup(r, localMode, faults[0]).0, localMode, faults[1..]);
  }

  lemma {:induction false} ResetCleanups(r: Request, localMode: bool, faults: seq<seq<Fault>>)
    requires Valid(r) && r.stateReset && forall n :: 0 <= n < |faults| ==> |faults[n]| == |r.conns|
    ensures var r' := Cleanups(r, localMode, faults).0;
            r' == r.(conns := r'.conns, gucsSet := r'.gucsSet, audited := r'.audited, log := r'.log)
    decreases |faults|
  {
    if faults != [] {
      ResetOnce(r, localMode, faults[0]);
      CleanupIsValid(r, localMode, faults[0]);
      ResetCleanups(Cleanup(r, localMode, faults[0]).0, localMode, faults[1..]);
    }
  }

  /** Cleanups after one that did not raise change nothing, whatever the ones before it did. */
  lemma {:induction false} CleanupsEndWithASuccess(r: Request, localMode: bool, faults: seq<seq<Fault>>, k: nat)
    requires Valid(r) && k < |faults| && forall n :: 0 <= n < |faults| ==> |faults[n]| == |r.conns|
    requires !Cleanup(Cleanups(r, localMode, faults[..k]).0, localMode, faults[k]).1
    ensures Cleanups(r, localMode, faults).0 == Cleanups(r, localMode, faults[..k + 1]).0
    decreases |faults|
  {
    if k == 0 {
      CleanupsAreOne(r, localMode, faults);
      CleanupsAreOne(r, localMode, faults[..1]);
    } else {
      CleanupIsValid(r, localMode, faults[0]);
      assert faults[..k][1..] == faults[1..][..k - 1] && faults[..k + 1][1..] == faults[1..][..k];
      CleanupsEndWithASuccess(Cleanup(r, localMode, faults[0]).0, localMode, faults[1..], k - 1);
    }
  }

  // ---- The hooks that meet an error ----

  /** `_end_blocks_left_open`: a current holder newer than the one found, and not the request's own. */
  function EndBlocksLeftOpen(r: Request): (r': Request)
    requires Valid(r)
    ensures Valid(r') && r' == r.(world := r'.world)
    ensures r'.world.slots == r.world.slots && r'.world.tokens == r.world.tokens
  {
    var current := Holders.Current(r.world, r.context);
    if r.contextToken.Some? && current == Some(r.world.tokens[r.contextToken.value].live) then r
    else r.(world := Holders.EndIfNewer(r.world, current, r.found))
  }

  /** `Response`: also `__call__`'s own cleanups. `Failed`: `process_exception`; with a transaction of
      its own the middleware leaves the context on for the error handlers. `ServerError`: the signal
      Django sends before it builds the response to an error no hook met. */
  datatype Hook =
    | Response(faults: seq<Fault>)
    | Failed(ownsTransaction: bool, faults: seq<Fault>)
    | ServerError

  predicate CleansUp(h: Hook) {
    h.Response? || (h.Failed? && !h.ownsTransaction)
  }

  predicate Fits(h: Hook, conns: nat) {
    CleansUp(h) ==> |h.faults| == conns
  }

  predicate AllFit(hooks: seq<Hook>, conns: nat) {
    forall n :: 0 <= n < |hooks| ==> Fits(hooks[n], conns)
  }

  function RunHook(r: Request, localMode: bool, h: Hook): (end: Request)
    requires Valid(r) && Fits(h, |r.conns|)
    ensures Valid(end) && |end.conns| == |r.conns|
  {
    match h
    case Response(faults) => CleanupIsValid(r, localMode, faults); Cleanup(r, localMode, faults).0
    case Failed(false, faults) => CleanupIsValid(r, localMode,
                                                 faults); EndBlocksLeftOpen(Cleanup(r, localMode, faults).0)
    case _ => EndBlocksLeftOpen(r)
  }

  function RunHooks(r: Request, localMode: bool, hooks: seq<Hook>): (end: Request)
    requires Valid(r) && AllFit(hooks, |r.conns|)
    decreases |hooks|
  {
    if hooks == [] then r else RunHooks(RunHook(r, localMode, hooks[0]), localMode, hooks[1..])
  }

  /** The cleanups among the hooks. */
  function CleanupsOf(hooks: seq<Hook>): seq<seq<Fault>> {
    if hooks == [] then []
    else (if CleansUp(hooks[0]) then [hooks[0].faults] else []) + CleanupsOf(hooks[1..])
  }

  lemma {:induction false} CleanupsOfFit(r: Request, hooks: seq<Hook>)
    requires AllFit(hooks, |r.conns|)
    ensures forall n :: 0 <= n < |CleanupsOf(hooks)| ==> |CleanupsOf(hooks)[n]| == |r.conns|
  {
    if hooks != [] {
      assert Fits(hooks[0], |r.conns|);
      CleanupsOfFit(r, hooks[1..]);
    }
  }

  /** What an error response is built in, whatever the request set and whatever a view left open: the
      request's own context, one at least as old as the request, or none. Nothing else is ended. */
  lemma ErrorsSeeNoBlockLeftOpen(r: Request)
    requires Valid(r)
    ensures var r' := EndBlocksLeftOpen(r);
            var current := Holders.Current(r'.world, r'.context);
            && (Holders.Visible(r'.world, r'.context).Some? ==>
                  || current.value <= r.found
                  || (r.contextToken.Some? && current.value == r.world.tokens[r.contextToken.value].live))
            && forall i :: 0 <= i < |r.world.lives| && Some(i) != current ==> r'.world.lives[i] == r.world.lives[i]
  {
  }

  /** The request's holder is current again, or will be once its tokens are used. */
  ghost predicate Serving(r: Request, tenant: Option<int>, active: bool) {
    var held := Holders.Holding(Some(r.found));
    InRequest(r, held, tenant, active) || (Valid(r) && r.stateReset && r.world.slots[r.context] == held)
  }

  lemma CleanupServes(r: Request, localMode: bool, faults: seq<Fault>, tenant: Option<int>, active: bool)
    requires Serving(r, tenant, active) && |faults| == |r.conns|
    ensures var r' := Cleanup(r, localMode, faults).0;
            && Valid(r') && r'.context == r.context && r'.found == r.found
            && r'.stateReset && r'.world.slots[r.context] == Holders.Holding(Some(r.found))
  {
    CleanupIsValid(r, localMode, faults);
    if r.stateReset {
      ResetOnce(r, localMode, faults);
    } else {
      ResetStateIsValid(r);
      CleanupRestores(r, localMode, faults, Holders.Holding(Some(r.found)), tenant, active);
    }
  }

  lemma HookServes(r: Request, localMode: bool, h: Hook, tenant: Option<int>, active: bool)
    requires Serving(r, tenant, active) && Fits(h, |r.conns|)
    ensures Serving(RunHook(r, localMode, h), tenant, active)
    ensures CleansUp(h) ==> RunHook(r, localMode, h) == Cleanup(r, localMode, h.faults).0
    ensures !CleansUp(h) ==> RunHook(r, localMode, h) == EndBlocksLeftOpen(r)
    ensures EndBlocksLeftOpen(RunHook(r, localMode, h)) == RunHook(r, localMode, h)
  {
    if CleansUp(h) {
      CleanupServes(r, localMode, h.faults, tenant, active);
    }
  }

  lemma FirstOfCleanups(r: Request, localMode: bool, faults: seq<seq<Fault>>, first: seq<Fault>, rest: seq<seq<Fault>>)
    requires Valid(r) && |first| == |r.conns| && forall n :: 0 <= n < |rest| ==> |rest[n]| == |r.conns|
    requires faults == [first] + rest
    ensures forall n :: 0 <= n < |faults| ==> |faults[n]| == |r.conns|
    ensures var r1 := Cleanup(r, localMode, first).0;
            && Valid(r1) && |r1.conns| == |r.conns|
            && Cleanups(r, localMode, faults).0 == Cleanups(r1, localMode, rest).0
  {
    CleanupIsValid(r, localMode, first);
    assert faults[0] == first && faults[1..] == rest;
  }

  /** However the hooks follow each other, they are the cleanups among them, in a request in which at
      most a block left open was ended before the first one. So what is proved of cleanups is true of
      the hooks, and the order in which Django calls them does not matter. */
  lemma {:induction false} HooksAreCleanups(r: Request, localMode: bool, hooks: seq<Hook>, tenant: Option<int>,
                                            active: bool)
    requires Serving(r, tenant, active) && AllFit(hooks, |r.conns|)
    ensures forall n :: 0 <= n < |CleanupsOf(hooks)| ==> |CleanupsOf(hooks)[n]| == |r.conns|
    ensures var from := if hooks != [] && !CleansUp(hooks[0]) then EndBlocksLeftOpen(r) else r;
            RunHooks(r, localMode, hooks) == Cleanups(from, localMode, CleanupsOf(hooks)).0
    decreases |hooks|
  {
    CleanupsOfFit(r, hooks);
    if hooks != [] {
      var r1 := RunHook(r, localMode, hooks[0]);
      HookServes(r, localMode, hooks[0], tenant, active);
      HooksAreCleanups(r1, localMode, hooks[1..], tenant, active);
      assert RunHooks(r, localMode, hooks) == Cleanups(r1, localMode, CleanupsOf(hooks[1..])).0;
      if CleansUp(hooks[0]) {
        FirstOfCleanups(r, localMode, CleanupsOf(hooks), hooks[0].faults, CleanupsOf(hooks[1..]));
      } else {
        assert CleanupsOf(hooks) == CleanupsOf(hooks[1..]);
      }
    }
  }

  /** One hook that cleans up, anywhere among them, restores what the request found, and each
      `context.entered` gets its one `context.exited`. */
  lemma HooksRestore(r: Request, localMode: bool, hooks: seq<Hook>, tenant: Option<int>, active: bool)
    requires InRequest(r, Holders.Holding(Some(r.found)), tenant, active) && Balanced(r)
    requires AllFit(hooks, |r.conns|) && CleanupsOf(hooks) != []
    ensures var from := if !CleansUp(hooks[0]) then EndBlocksLeftOpen(r) else r;
            ContextRestored(from, RunHooks(r, localMode, hooks), Holders.Holding(Some(r.found)), tenant, active)
    ensures Balanced(RunHooks(r, localMode, hooks)) && !RunHooks(r, localMode, hooks).audited
  {
    var from := if !CleansUp(hooks[0]) then EndBlocksLeftOpen(r) else r;
    HooksAreCleanups(r, localMode, hooks, tenant, active);
    CleanupsRestore(from, localMode, CleanupsOf(hooks), Holders.Holding(Some(r.found)), tenant, active);
    CleanupsBalance(from, localMode, CleanupsOf(hooks));
  }

  // ---- The settings ----

  /** A clear that goes through leaves the session cleared, for statements and for a commit. */
  lemma ClearAliasClears(c: Conn, fault: Fault)
    requires ConnInv(c) && c.guarded
    ensures ConnInv(ClearAlias(c, fault).0)
    ensures c.session.Some? && !ClearAlias(c, fault).1 ==>
              Holds(ClearAlias(c, fault).0, None) && ClearAlias(c, fault).0.session.value.kept == CLEARED
  {
    if c.session.Some? {
      WriteGucsKeeps(c, None, false, fault);
    }
  }

  lemma {:induction false} ClearFromClears(conns: seq<Conn>, i: nat, faults: seq<Fault>, k: nat)
    requires i <= |conns| == |faults| && k < |conns| && ConnInv(conns[k]) && conns[k].guarded
    ensures var (conns', raised) := ClearFrom(conns, i, faults);
            && ConnInv(conns'[k])
            && (!raised && k >= i && conns[k].session.Some? ==>
                  Holds(conns'[k], None) && conns'[k].session.value.kept == CLEARED)
            && (k < i ==> conns'[k] == conns[k])
    decreases |conns| - i
  {
    if i < |conns| {
      var (c, raised) := ClearAlias(conns[i], faults[i]);
      if k == i {
        ClearAliasClears(c := conns[i], fault := faults[i]);
      }
      if !raised {
        ClearFromClears(conns[i := c], i + 1, faults, k);
      }
    }
  }

  /** In session mode, a cleanup that does not raise has cleared every alias of a request that set the
      settings. */
  lemma CleanupClearsEveryAlias(r: Request, faults: seq<Fault>, k: nat)
    requires Valid(r) && |faults| == |r.conns| && k < |r.conns| && ConnInv(r.conns[k]) && r.conns[k].guarded
    requires r.gucsSet && !Cleanup(r, false, faults).1
    ensures var c := Cleanup(r, false, faults).0.conns[k];
            && ConnInv(c)
            && (r.conns[k].session.Some? ==> Holds(c, None) && c.session.value.kept == CLEARED)
  {
    ClearFromClears(r.conns, 0, faults, k);
  }

  // ---- The audit log ----

  function Count(log: seq<Log>, entry: Log): nat {
    if log == [] then 0 else Count(log[..|log| - 1], entry) + if log[|log| - 1] == entry then 1 else 0
  }

  /** Every entry is logged once more than its exit while the request's context is on, else as often. */
  ghost predicate Balanced(r: Request) {
    Count(r.log, Log.Entered) == Count(r.log, Exited) + if r.audited then 1 else 0
  }

  /** However often it runs and whatever raises, each `context.entered` gets exactly one `context.exited`. */
  lemma {:induction false} CleanupsBalance(r: Request, localMode: bool, faults: seq<seq<Fault>>)
    requires Valid(r) && Balanced(r) && forall n :: 0 <= n < |faults| ==> |faults[n]| == |r.conns|
    ensures Balanced(Cleanups(r, localMode, faults).0)
    ensures faults != [] ==> !Cleanups(r, localMode, faults).0.audited
    decreases |faults|
  {
    if faults != [] {
      var log := r.log + [Exited];
      assert log[..|log| - 1] == r.log;
      CleanupIsValid(r, localMode, faults[0]);
      var r1 := Cleanup(r, localMode, faults[0]).0;
      assert !r1.audited && r1.log == (if r.audited then log else r.log);
      CleanupsBalance(r1, localMode, faults[1..]);
    }
  }

  // ---- A failed entry ----

  lemma {:induction false} ClearQuietlyClears(conns: seq<Conn>, i: nat, n: nat, faults: seq<AliasFault>, k: nat)
    requires i <= n <= |conns| == |faults| && k < |conns| && ConnInv(conns[k]) && conns[k].guarded
    ensures var (cleared, passed) := ClearQuietly(conns, i, n, faults);
            && ConnInv(cleared[k]) && SameSetup(conns[k], cleared[k])
            && (!passed ==> cleared[k] == if i <= k < n then ClearAlias(conns[k], faults[k].fault).0 else conns[k])
            && (k < i ==> cleared[k] == conns[k])
    decreases n - i
  {
    if i < n {
      ClearAliasClears(conns[k], faults[k].fault);
      var (c, raised) := ClearAlias(conns[i], faults[i].fault);
      if !(raised && Passes(conns[i], faults[i])) {
        ClearQuietlyClears(conns[i := c], i + 1, n, faults, k);
      }
    }
  }

  lemma {:induction false} SetFromKeeps(conns: seq<Conn>, i: nat, values: ContextGucs, faults: seq<AliasFault>,
                                        undo: seq<AliasFault>, k: nat)
    requires i <= |conns| == |faults| == |undo| && k < |conns| && ConnInv(conns[k]) && conns[k].guarded
    ensures var (conns', outcome) := SetFrom(conns, i, values, faults, undo);
            && ConnInv(conns'[k]) && SameSetup(conns[k], conns'[k])
            && (outcome == Succeeded && k >= i ==> Holds(conns'[k], Some(values)))
            && (outcome == Succeeded && k < i ==> conns'[k] == conns[k])
    decreases |conns| - i
  {
    if i < |conns| {
      var (c, raised) := SetAlias(conns[i], values, faults[i].fault);
      if k == i && conns[i].session.Some? {
        WriteGucsKeeps(conns[i], Some(values), false, faults[i].fault);
      }
      if !raised {
        SetFromKeeps(conns[i := c], i + 1, values, faults, undo, k);
      } else if !Passes(conns[i], faults[i]) {
        ClearQuietlyClears(conns[i := c], 0, i, undo, k);
      }
    }
  }

  /** In session mode a request is entered on every alias; or it raised, and where the exception did not
      pass the handlers, an alias that still takes a write is cleared. */
  lemma EntryIsOnAllOrNone(r: Request, values: ContextGucs, tenantId: Option<int>, faults: seq<AliasFault>,
                           undo: seq<AliasFault>, clear: seq<AliasFault>, k: nat)
    requires Valid(r) && |r.conns| == |faults| == |undo| == |clear|
    requires k < |r.conns| && ConnInv(r.conns[k]) && r.conns[k].guarded
    ensures var (r', outcome) := ProcessRequest(r, values, tenantId, false, faults, undo, clear);
            var set' := SetOnAll(r.conns, values, false, faults, undo).0[k];
            && ConnInv(r'.conns[k])
            && (outcome == Succeeded ==> Holds(r'.conns[k], Some(values)))
            && (outcome == Caught && set'.session.Some? && !ClearAlias(set', clear[k].fault).1 ==>
                  Holds(r'.conns[k], None))
  {
    SetFromKeeps(r.conns, 0, values, faults, undo, k);
    var (conns, outcome) := SetOnAll(r.conns, values, false, faults, undo);
    if outcome == Caught {
      ClearQuietlyClears(conns, 0, |conns|, clear, k);
      ClearAliasClears(conns[k], clear[k].fault);
    }
  }

  /** The session takes a write, and the record knows that it holds nothing. */
  ghost predicate Tidy(c: Conn) {
    c.session.Some? && c.session.value.status in {Idle, InTransaction} && !c.needsRollback ==> Holds(c, None)
  }

  ghost predicate AllTidy(conns: seq<Conn>) {
    forall k :: 0 <= k < |conns| ==> Tidy(conns[k])
  }

  /** A guarded connection in autocommit, with a sound record, whose session may be lost but not closed. */
  ghost predicate Ready(c: Conn) {
    && c.session.Some? && c.session.value.status in {Idle, Bad} && c.autocommit && !c.needsRollback && c.guarded
    && ConnInv(c)
  }

  ghost predicate AllReady(conns: seq<Conn>) {
    forall k :: 0 <= k < |conns| ==> Ready(conns[k])
  }

  lemma WriteStaysReady(c: Conn, values: Option<ContextGucs>, fault: Fault)
    requires Ready(c)
    ensures var ran := WriteGucs(c, values, false, fault);
            && Ready(ran.conn)
            && (c.session.value.status == Idle && fault == Fine ==> !ran.raised && Holds(ran.conn, values))
            && (c.session.value.status == Idle && NotOfDatabase(fault) ==> ran.raised && !Tidy(ran.conn))
            && (c.session.value.status == Bad ==> ran.raised && Tidy(ran.conn))
  {
    WriteGucsKeeps(c, values, false, fault);
  }

  /** A clear works, or is interrupted. */
  predicate WorksOrPasses(f: AliasFault) {
    f.fault == Fine || (f.past && NotOfDatabase(f.fault))
  }

  lemma {:induction false} ClearedAreReady(conns: seq<Conn>, i: nat, n: nat, faults: seq<AliasFault>)
    requires i <= n <= |conns| == |faults| && AllReady(conns)
    ensures AllReady(ClearQuietly(conns, i, n, faults).0)
    ensures ClearQuietly(conns, i, n, faults).1 ==> !AllTidy(ClearQuietly(conns, i, n, faults).0)
    decreases n - i
  {
    if i < n {
      WriteStaysReady(conns[i], None, faults[i].fault);
      var (c, raised) := ClearAlias(conns[i], faults[i].fault);
      assert AllReady(conns[i := c]);
      if raised && Passes(conns[i], faults[i]) {
        assert !Tidy(conns[i := c][i]);
      } else {
        ClearedAreReady(conns[i := c], i + 1, n, faults);
      }
    }
  }

  lemma {:induction false} ClearedAreTidy(conns: seq<Conn>, i: nat, faults: seq<AliasFault>)
    requires i <= |conns| == |faults| && AllReady(conns) && forall k :: 0 <= k < |faults| ==> WorksOrPasses(faults[k])
    requires forall k :: 0 <= k < i ==> Tidy(conns[k])
    requires !ClearQuietly(conns, i, |conns|, faults).1
    ensures AllTidy(ClearQuietly(conns, i, |conns|, faults).0)
    decreases |conns| - i
  {
    if i < |conns| {
      WriteStaysReady(conns[i], None, faults[i].fault);
      var (c, raised) := ClearAlias(conns[i], faults[i].fault);
      assert Tidy(c);
      ClearedAreTidy(conns[i := c], i + 1, faults);
    }
  }

  lemma {:induction false} FailedSetIsReady(conns: seq<Conn>, i: nat, values: ContextGucs, faults: seq<AliasFault>,
                                            undo: seq<AliasFault>)
    requires i <= |conns| == |faults| == |undo| && AllReady(conns)
    ensures var (conns', outcome) := SetFrom(conns, i, values, faults, undo);
            AllReady(conns') && (outcome == Passed ==> !AllTidy(conns'))
    decreases |conns| - i
  {
    if i < |conns| {
      WriteStaysReady(conns[i], Some(values), faults[i].fault);
      var (c, raised) := SetAlias(conns[i], values, faults[i].fault);
      var next := conns[i := c];
      assert AllReady(next);
      if !raised {
        FailedSetIsReady(next, i + 1, values, faults, undo);
      } else if Passes(conns[i], faults[i]) {
        assert !Tidy(next[i]);
      } else {
        ClearedAreReady(next, 0, i, undo);
      }
    }
  }

  /** The exact condition: on connections in autocommit, whatever fails in the writes and their undo, and
      where each clear works or is interrupted: an entry that raised leaves every alias that takes a
      write cleared, and known to be, if and only if what it raised did not pass the handlers. The
      cleanup that follows does not make up for it. */
  lemma FailedEntryIsTidyIff(r: Request, values: ContextGucs, tenantId: Option<int>, faults: seq<AliasFault>,
                             undo: seq<AliasFault>, clear: seq<AliasFault>, cleanup: seq<Fault>)
    requires Valid(r) && |r.conns| == |faults| == |undo| == |clear| == |cleanup| && !r.gucsSet && AllReady(r.conns)
    requires forall k :: 0 <= k < |clear| ==> WorksOrPasses(clear[k])
    requires ProcessRequest(r, values, tenantId, false, faults, undo, clear).1 != Succeeded
    ensures var (r', outcome) := ProcessRequest(r, values, tenantId, false, faults, undo, clear);
            && Valid(r') && Cleanup(r', false, cleanup).0.conns == r'.conns
            && (AllTidy(r'.conns) <==> outcome == Caught)
  {
    FailedSetIsReady(r.conns, 0, values, faults, undo);
    var (conns, outcome) := SetOnAll(r.conns, values, false, faults, undo);
    if outcome == Caught {
      ClearedAreReady(conns, 0, |conns|, clear);
      if !ClearQuietly(conns, 0, |conns|, clear).1 {
        ClearedAreTidy(conns, 0, clear);
      }
    }
  }

  lemma {:induction false} SetBeforeInterruption(conns: seq<Conn>, i: nat, values: ContextGucs, faults: seq<AliasFault>,
                                                 undo: seq<AliasFault>, w: nat, k: nat)
    requires i <= w < |conns| == |faults| == |undo| && AllReady(conns) && k < w
    requires forall n :: i <= n <= w ==> conns[n].session.value.status == Idle
    requires forall n :: i <= n < w ==> faults[n].fault == Fine
    requires faults[w].past && NotOfDatabase(faults[w].fault)
    ensures var (conns', outcome) := SetFrom(conns, i, values, faults, undo);
            && outcome == Passed
            && (k < i ==> conns'[k] == conns[k])
            && (k >= i ==> Holds(conns'[k], Some(values)) && conns'[k].session.value.kept == OnSession(Some(values)))
    decreases w - i
  {
    WriteStaysReady(conns[i], Some(values), faults[i].fault);
    if i < w {
      SetBeforeInterruption(conns[i := SetAlias(conns[i], values, faults[i].fault).0], i + 1, values, faults, undo, w,
                            k);
    }
  }

  /** The run that leaves them: an interruption of the write on alias `w`. The request has raised, its
      cleanup has run, and every alias before `w` keeps the tenant's values, for the thread's next user. */
  lemma InterruptedEntryLeavesTheTenant(r: Request, values: ContextGucs, tenantId: Option<int>, faults: seq<AliasFault>,
                                        undo: seq<AliasFault>, clear: seq<AliasFault>, cleanup: seq<Fault>,
                                        w: nat, k: nat)
    requires Valid(r) && |r.conns| == |faults| == |undo| == |clear| == |cleanup| && !r.gucsSet && AllReady(r.conns)
    requires k < w < |r.conns| && forall n :: 0 <= n <= w ==> r.conns[n].session.value.status == Idle
    requires forall n :: 0 <= n < w ==> faults[n].fault == Fine
    requires faults[w].past && NotOfDatabase(faults[w].fault)
    ensures var (r', outcome) := ProcessRequest(r, values, tenantId, false, faults, undo, clear);
            && outcome == Passed && Valid(r')
            && var c := Cleanup(r', false, cleanup).0.conns[k];
            Holds(c, Some(values)) && c.session.value.kept == OnSession(Some(values))
  {
    SetBeforeInterruption(r.conns, 0, values, faults, undo, w, k);
    var r' := ProcessRequest(r, values, tenantId, false, faults, undo, clear).0;
    assert Cleanup(r', false, cleanup).0.conns == r'.conns;
  }

  // ---- A whole request ----

  /** The request as `_holder_for_the_request` starts it in `context`. */
  function Started(w: Holders.World, context: nat, tenant: Variable<Option<int>>, active: Variable<bool>,
                   conns: seq<Conn>, log: seq<Log>): (r: Request)
    requires Holders.WellFormed(w) && context < |w.slots|
    ensures Valid(r) && |w.tokens| < |r.world.tokens| && |w.lives| <= |r.world.lives|
    ensures r.world.tokens[|w.tokens|] == Holders.Token(context, w.slots[context], r.found, false, true)
    ensures r.world.slots[context] == Holders.Holding(Some(r.found))
  {
    var held := Holders.Hold(w, context);
    Request(held, context, Holders.Current(held, context).value, tenant, active, None, None, None, false, false, false,
            conns, log)
  }

  /** The holder's release, once the chain has returned. */
  function Finished(r: Request, hold: nat): Request
    requires Valid(r) && hold < |r.world.tokens|
  {
    r.(world := Holders.Release(r.world, r.context, hold))
  }

  /** The hold of a request is as it was after its view and its cleanups. */
  lemma HoldIsKept(r: Request, r': Request, values: ContextGucs, tenantId: Option<int>, events: seq<Holders.Event>,
                   hold: nat)
    requires Valid(r) && !r.stateReset && hold < |r.world.tokens|
    requires AfterView(EnterRequest(r, values, tenantId), r', events)
    requires forall n :: 0 <= n < |events| ==> !Uses(events[n], hold)
    ensures hold < |r'.world.tokens| && r'.world.tokens[hold] == r.world.tokens[hold]
    ensures InRequest(r', r.world.slots[r.context], r.tenant.value, r.active.value)
    ensures r'.contextToken == Some(|r.world.tokens|) && r'.context == r.context && |r.world.tokens| < |r'.world.tokens|
    ensures r'.world.tokens[|r.world.tokens|].live == |r.world.lives|
  {
    var entered := EnterRequest(r, values, tenantId);
    EnteredRequest(r, values, tenantId);
    ViewKeepsTheRequest(entered, r', events, r.world.slots[r.context], r.tenant.value, r.active.value);
    assert entered.world.tokens[hold] == r.world.tokens[hold];
    TokenStaysUnused(entered.world, events, hold);
    TokenStaysUnused(entered.world, events, |r.world.tokens|);
  }

  /** From the start of a request to its end, with any view, and any cleanups that run at least once:
      the holder, tenant and flag of the `Context` are those the request found, and of the holders
      there were before, the request's end has ended none. */
  lemma RequestLeavesWhatItFound(w: Holders.World, r: Request, r': Request, values: ContextGucs, tenantId: Option<int>,
                                 events: seq<Holders.Event>, localMode: bool, faults: seq<seq<Fault>>)
    requires Holders.WellFormed(w) && r.context < |w.slots|
    requires r == Started(w, r.context, r.tenant, r.active, r.conns, r.log)
    requires AfterView(EnterRequest(r, values, tenantId), r', events)
    requires forall n :: 0 <= n < |events| ==> !Uses(events[n], |w.tokens|)
    requires Valid(r') && faults != [] && forall n :: 0 <= n < |faults| ==> |faults[n]| == |r'.conns|
    ensures var cleaned := Cleanups(r', localMode, faults).0;
            && Valid(cleaned) && |w.tokens| < |cleaned.world.tokens|
            && var end := Finished(cleaned, |w.tokens|);
            && end.context == r.context && r.context < |end.world.slots|
            && end.world.slots[r.context] == w.slots[r.context]
            && end.tenant.value == r.tenant.value && end.active.value == r.active.value
            && |w.lives| <= |end.world.lives| && |w.lives| <= |r'.world.lives|
            && forall i :: 0 <= i < |w.lives| ==> end.world.lives[i] == r'.world.lives[i]
  {
    var hold := |w.tokens|;
    HoldIsKept(r, r', values, tenantId, events, hold);
    CleanupsRestore(r', localMode, faults, r.world.slots[r.context], r.tenant.value, r.active.value);
    var cleaned := Cleanups(r', localMode, faults).0;
    assert cleaned.world.tokens[hold] == r.world.tokens[hold];
    assert Holders.Current(cleaned.world, r.context) == Some(r.found);
  }
}
