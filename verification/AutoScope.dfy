/** The tenant the managers filter for: a second context variable, set and reset with the holders, but
    copied between `Context`s by plain inequality. */
module AutoScope {
  import opened Gucs
  import opened Keys
  import opened Holders
  import HolderProperties

  /** The variable in one `Context`; where it is not set it reads as no tenant. */
  datatype TenantSlot = NoTenantSet | TenantIs(tenant: Option<int>)

  datatype TenantToken = TenantToken(context: nat, before: TenantSlot, used: bool)

  /** The holders, and the tenants beside them. The `k`th token is made with the holders' `k`th one; a
      hold sets no tenant, and its token only notes the one found. */
  datatype Scope = Scope(world: World, slots: seq<TenantSlot>, tokens: seq<TenantToken>)

  /** `get_current_tenant_id()` */
  function TenantIn(s: Scope, c: nat): Option<int>
    requires c < |s.slots|
  {
    if s.slots[c].NoTenantSet? then None else s.slots[c].tenant
  }

  function TenantBefore(t: TenantToken): Option<int> {
    if t.before.NoTenantSet? then None else t.before.tenant
  }

  /** The tenant set together with these values: none by an admin context or without a context. */
  function TenantFor(values: Option<ContextGucs>): Option<int> {
    if values.Some? && values.value.isAdmin == "false" then Some(Parse(values.value.currentTenant)) else None
  }

  predicate SameShape(s: Scope) {
    |s.slots| == |s.world.slots| && |s.tokens| == |s.world.tokens|
  }

  /** asgiref copies the tenant: it is set in `source`, and differs. */
  predicate CopiesTenant(s: Scope, dst: nat, source: nat)
    requires dst < |s.slots| && source < |s.slots|
  {
    s.slots[source].TenantIs? && TenantIn(s, dst) != s.slots[source].tenant
  }

  /** asgiref copies the holder. */
  predicate TakesHolder(w: World, dst: nat, source: nat)
    requires WellFormed(w) && dst < |w.slots| && source < |w.slots|
  {
    w.slots[source].Holding? && Differs(w, Current(w, dst), Current(w, source))
  }

  /** `reset_current_tenant_id`, refused for a used token and in another `Context`. */
  function ResetTenant(s: Scope, c: nat, k: nat): Scope
    requires c < |s.slots| && k < |s.tokens|
  {
    if s.tokens[k].used || s.tokens[k].context != c then s
    else s.(slots := s.slots[c := s.tokens[k].before], tokens := s.tokens[k := s.tokens[k].(used := true)])
  }

  function NoteTenant(s: Scope, c: nat, slot: TenantSlot): Scope
    requires c < |s.slots|
  {
    s.(slots := s.slots[c := slot], tokens := s.tokens + [TenantToken(c, s.slots[c], false)])
  }

  function Step(s: Scope, e: Event): (s': Scope)
    requires WellFormed(s.world) && SameShape(s)
    ensures s'.world == Holders.Step(s.world, e) && SameShape(s')
  {
    var s1 := s.(world := Holders.Step(s.world, e));
    if !Possible(s.world, e) then s1
    else match e
      case NewContext => s1.(slots := s.slots + [NoTenantSet])
      case CopyContext(c) => s1.(slots := s.slots + [s.slots[c]])
      case CopiedIn(c, source) => if CopiesTenant(s, c, source) then s1.(slots := s.slots[c := s.slots[source]]) else s1
      case Entered(c, values, _) => NoteTenant(s1, c, TenantIs(TenantFor(values)))
      case Exited(c, k) => ResetTenant(s1, c, k)
      case Held(c) => NoteTenant(s1, c, s.slots[c])
      case Cleared(c) => s1.(slots := s.slots[c := TenantIs(None)])
      case _ => s1
  }

  function Run(s: Scope, events: seq<Event>): (s': Scope)
    requires WellFormed(s.world) && SameShape(s)
    ensures s'.world == Holders.Run(s.world, events) && SameShape(s')
    decreases |events|
  {
    if events == [] then s else Step(Run(s, events[..|events| - 1]), events[|events| - 1])
  }

  // ---- Tenant and holder agree ----

  /** The managers filter for the tenant of the visible context, if one is visible. */
  ghost predicate Agrees(s: Scope, c: nat)
    requires WellFormed(s.world) && SameShape(s) && c < |s.slots|
  {
    Visible(s.world, c).Some? ==> TenantIn(s, c) == TenantFor(Visible(s.world, c))
  }

  ghost predicate AllAgree(s: Scope)
    requires WellFormed(s.world) && SameShape(s)
  {
    forall c :: 0 <= c < |s.slots| ==> Agrees(s, c)
  }

  /** What a token brings back agrees too. */
  ghost predicate TokenAgrees(s: Scope, k: nat)
    requires WellFormed(s.world) && SameShape(s) && k < |s.tokens|
  {
    var t, u := s.world.tokens[k], s.tokens[k];
    && u.context == t.context && (!t.hold ==> u.used == t.used)
    && (t.before.Holding? && t.before.holder.Some? ==>
          var live := s.world.lives[t.before.holder.value];
          live.alive && live.values.Some? ==> TenantBefore(u) == TenantFor(live.values))
  }

  ghost predicate ScopeInv(s: Scope) {
    && WellFormed(s.world) && SameShape(s) && AllAgree(s)
    && forall k :: 0 <= k < |s.tokens| ==> TokenAgrees(s, k)
  }

  /** The holder a token brings back is live and has values. */
  predicate BringsBackAContext(w: World, k: nat)
    requires WellFormed(w) && k < |w.tokens|
  {
    var slot := w.tokens[k].before;
    slot.Holding? && slot.holder.Some? && w.lives[slot.holder.value].alive && w.lives[slot.holder.value].values.Some?
  }

  /** A copy that brings no tenant into a visible context without that tenant's holder, or a visible
      holder without its tenant; a release that finds the tenant of the hold. Anything else is harmless. */
  predicate Harmless(s: Scope, e: Event)
    requires WellFormed(s.world) && SameShape(s)
  {
    Possible(s.world, e) ==>
      match e
      case CopiedIn(c, source) =>
        if TakesHolder(s.world, c, source)
        then Visible(s.world, source).None? || s.slots[source].TenantIs? || TenantIn(s, c) == TenantIn(s, source)
        else Visible(s.world, c).None? || !CopiesTenant(s, c, source)
      case Released(c, k) =>
        ResetOutcomeOf(s.world, c, k) == Done && BringsBackAContext(s.world, k) ==>
            TenantIn(s, c) == TenantBefore(s.tokens[k])
      case _ => true
  }

  lemma CopyAgreesIff(s: Scope, c: nat, source: nat)
    requires ScopeInv(s) && c < |s.slots| && source < |s.slots|
    ensures Agrees(Step(s, CopiedIn(c, source)), c) <==> Harmless(s, CopiedIn(c, source))
  {
    assert Agrees(s, c) && Agrees(s, source);
  }

  lemma ReleaseAgreesIff(s: Scope, c: nat, k: nat)
    requires ScopeInv(s) && c < |s.slots| && k < |s.tokens| && s.world.tokens[k].hold
    ensures Agrees(Step(s, Released(c, k)), c) <==> Harmless(s, Released(c, k))
  {
    assert Agrees(s, c) && TokenAgrees(s, k);
  }

  /** A `Context` the event does not act on still agrees: holders only end. */
  lemma OthersAgree(s: Scope, e: Event, c: nat)
    requires ScopeInv(s) && Possible(s.world, e) && c < |s.slots| && (e.NewContext? || e.CopyContext? || e.context != c)
    ensures c < |Step(s, e).slots| && Agrees(Step(s, e), c)
  {
    assert Agrees(s, c);
    HolderProperties.StepIsLater(s.world, e);
  }

  lemma ExitAgrees(s: Scope, c: nat, k: nat)
    requires ScopeInv(s) && c < |s.slots| && k < |s.tokens| && !s.world.tokens[k].hold
    ensures Agrees(Step(s, Exited(c, k)), c)
  {
    assert Agrees(s, c) && TokenAgrees(s, k);
    HolderProperties.StepIsLater(s.world, Exited(c, k));
  }

  lemma EntryAgrees(s: Scope, e: Event)
    requires ScopeInv(s) && Possible(s.world, e) && (e.Entered? || e.Held? || e.Cleared?)
    ensures Agrees(Step(s, e), e.context)
  {
    assert Agrees(s, e.context);
  }

  lemma NewContextAgrees(s: Scope, e: Event)
    requires ScopeInv(s) && Possible(s.world, e) && (e.NewContext? || e.CopyContext?)
    ensures |Step(s, e).slots| == |s.slots| + 1 && Agrees(Step(s, e), |s.slots|)
  {
    if e.CopyContext? {
      assert Agrees(s, e.context);
    }
  }

  /** What the tokens bring back agrees after every event. */
  lemma OldTokenAgrees(s: Scope, e: Event, k: nat)
    requires ScopeInv(s) && k < |s.tokens|
    ensures k < |Step(s, e).tokens| && TokenAgrees(Step(s, e), k)
  {
    assert TokenAgrees(s, k);
    HolderProperties.StepIsLater(s.world, e);
  }

  lemma NewTokenAgrees(s: Scope, e: Event)
    requires ScopeInv(s) && Possible(s.world, e) && (e.Entered? || e.Held?)
    ensures |Step(s, e).tokens| == |s.tokens| + 1 && TokenAgrees(Step(s, e), |s.tokens|)
  {
    assert Agrees(s, e.context);
  }

  lemma TokensAgree(s: Scope, e: Event)
    requires ScopeInv(s)
    ensures forall k :: 0 <= k < |Step(s, e).tokens| ==> TokenAgrees(Step(s, e), k)
  {
    forall k | 0 <= k < |Step(s, e).tokens| ensures TokenAgrees(Step(s, e), k) {
      if k < |s.tokens| {
        OldTokenAgrees(s, e, k);
      } else {
        NewTokenAgrees(s, e);
      }
    }
  }

  /** The exact condition, event by event: from tenants that agree, all tenants agree after it, and go on
      doing so after later exits, if and only if it is harmless. */
  lemma StepAgreesIff(s: Scope, e: Event)
    requires ScopeInv(s)
    ensures AllAgree(Step(s, e)) <==> Harmless(s, e)
    ensures Harmless(s, e) ==> ScopeInv(Step(s, e))
  {
    var s' := Step(s, e);
    TokensAgree(s, e);
    if Possible(s.world, e) {
      forall c | 0 <= c < |s.slots| && (e.NewContext? || e.CopyContext? || e.context != c) ensures Agrees(s', c) {
        OthersAgree(s, e, c);
      }
      ActedOnAgreesIff(s, e);
    } else {
      forall c | 0 <= c < |s.slots| ensures Agrees(s', c) {
        assert Agrees(s, c);
      }
    }
  }

  lemma ActedOnAgreesIff(s: Scope, e: Event)
    requires ScopeInv(s) && Possible(s.world, e)
    ensures var c := if e.NewContext? || e.CopyContext? then |s.slots| else e.context;
            && c < |Step(s, e).slots| && |Step(s, e).slots| == |s.slots| + (if c == |s.slots| then 1 else 0)
            && (Agrees(Step(s, e), c) <==> Harmless(s, e))
  {
    match e
    case CopiedIn(c, source) => CopyAgreesIff(s, c, source);
    case Released(c, k) => ReleaseAgreesIff(s, c, k);
    case Exited(c, k) => ExitAgrees(s, c, k);
    case NewContext => NewContextAgrees(s, e);
    case CopyContext(_) => NewContextAgrees(s, e);
    case _ => EntryAgrees(s, e);
  }

  /** An entry filters for its context's tenant, and its exit for the one before; a clear for none. */
  lemma EntryAndExitRestoreTheTenant(s: Scope, c: nat, values: Option<ContextGucs>, block: bool)
    requires ScopeInv(s) && c < |s.slots|
    ensures var entered := Step(s, Entered(c, values, block));
            var left, cleared := Step(entered, Exited(c, |s.tokens|)), Step(s, Cleared(c));
            && |entered.slots| == |left.slots| == |cleared.slots| == |s.slots|
            && TenantIn(entered, c) == TenantFor(values)
            && TenantIn(left, c) == TenantIn(s, c)
            && TenantIn(cleared, c) == None
  {
  }

  /** Every event of the run is harmless where it happens. */
  ghost predicate AlwaysHarmless(s: Scope, events: seq<Event>)
    requires WellFormed(s.world) && SameShape(s)
    decreases |events|
  {
    events == [] ||
    (AlwaysHarmless(s, events[..|events| - 1]) && Harmless(Run(s, events[..|events| - 1]), events[|events| - 1]))
  }

  /** All tenants agree at every moment of the run. */
  ghost predicate AlwaysAgrees(s: Scope, events: seq<Event>)
    requires WellFormed(s.world) && SameShape(s)
    decreases |events|
  {
    AllAgree(Run(s, events)) && (events == [] || AlwaysAgrees(s, events[..|events| - 1]))
  }

  /** Without a harmful copy or release, every `Context` filters for its visible context, whatever exits
      follow. */
  lemma {:induction false} HarmlessRunAgrees(s: Scope, events: seq<Event>)
    requires ScopeInv(s) && AlwaysHarmless(s, events)
    ensures ScopeInv(Run(s, events))
    decreases |events|
  {
    if events != [] {
      HarmlessRunAgrees(s, events[..|events| - 1]);
      StepAgreesIff(Run(s, events[..|events| - 1]), events[|events| - 1]);
    }
  }

  /** The exact condition, over runs: the tenant filtered for is that of the visible context in every
      `Context` and at every moment, if and only if the run holds no harmful copy or release. */
  lemma {:induction false} AlwaysAgreesIff(s: Scope, events: seq<Event>)
    requires ScopeInv(s)
    ensures AlwaysAgrees(s, events) <==> AlwaysHarmless(s, events)
    decreases |events|
  {
    if events != [] {
      var init := events[..|events| - 1];
      AlwaysAgreesIff(s, init);
      if AlwaysHarmless(s, init) {
        HarmlessRunAgrees(s, init);
        StepAgreesIff(Run(s, init), events[|events| - 1]);
      }
    }
  }

  // ---- A cancelled call ----

  const NOTHING := Scope(EMPTY, [], [])

  /** A task inside tenant 1 makes a call in a copy of its `Context`; the call enters tenant 2, is
      cancelled there, and its variables are copied back. */
  const CANCELLED_CALL := [
    NewContext,
    Entered(0, Some(ForTenant(Render(1))), true),
    CopyContext(0),
    Entered(1, Some(ForTenant(Render(2))), true),
    CopiedIn(0, 1)]

  lemma OneMore(s: Scope, events: seq<Event>, e: Event)
    requires WellFormed(s.world) && SameShape(s)
    ensures Run(s, events + [e]) == Step(Run(s, events), e)
  {
    assert (events + [e])[..|events|] == events;
  }

  /** The task keeps its holder, and filters for the other tenant. */
  lemma CancelledCallBringsItsTenant()
    ensures var s := Run(NOTHING, CANCELLED_CALL);
            && |s.slots| == |s.world.slots| == 2
            && Visible(s.world, 0) == Some(ForTenant(Render(1))) && TenantIn(s, 0) == Some(2)
    ensures !AlwaysHarmless(NOTHING, CANCELLED_CALL)
  {
    var v1, v2 := Some(ForTenant(Render(1))), Some(ForTenant(Render(2)));
    var e := CANCELLED_CALL;
    assert e[..0] == [] && e[..1] == [] + [e[0]] && e[..2] == e[..1] + [e[1]] && e[..3] == e[..2] + [e[2]];
    assert e[..4] == e[..3] + [e[3]] && e == e[..4] + [e[4]];
    OneMore(NOTHING, [], e[0]);
    OneMore(NOTHING, e[..1], e[1]);
    OneMore(NOTHING, e[..2], e[2]);
    OneMore(NOTHING, e[..3], e[3]);
    OneMore(NOTHING, e[..4], e[4]);
    CastReadsTheKey(1);
    CastReadsTheKey(2);
    CalledSteps(v1, v2);
    assert !Harmless(Run(NOTHING, e[..4]), e[4]);
  }

  /** The four events before the copy. */
  lemma CalledSteps(v1: Option<ContextGucs>, v2: Option<ContextGucs>)
    requires v1.Some? && v2.Some? && TenantFor(v1) != TenantFor(v2)
    ensures var s :=
            Step(Step(Step(Step(NOTHING, NewContext), Entered(0, v1, true)), CopyContext(0)), Entered(1, v2, true));
            var s' := Step(s, CopiedIn(0, 1));
            && |s.slots| == |s'.slots| == |s'.world.slots| == 2
            && Visible(s'.world, 0) == v1 && TenantIn(s', 0) == TenantFor(v2)
            && !Harmless(s, CopiedIn(0, 1))
  {
    var w1 := World([], [Unset], []);
    assert Step(NOTHING, NewContext) == Scope(w1, [NoTenantSet], []);
    var w2 := World([Live(v1, true, true)], [Holding(Some(0))], [Token(0, Unset, 0, false, false)]);
    var t2 := [TenantToken(0, NoTenantSet, false)];
    assert Step(Scope(w1, [NoTenantSet], []), Entered(0, v1, true)) == Scope(w2, [TenantIs(TenantFor(v1))], t2);
    var w3 := w2.(slots := [Holding(Some(0)), Holding(Some(0))]);
    var p3 := [TenantIs(TenantFor(v1)), TenantIs(TenantFor(v1))];
    assert Step(Scope(w2, [TenantIs(TenantFor(v1))], t2), CopyContext(0)) == Scope(w3, p3, t2);
    var w4 := World(w3.lives + [Live(v2, true, true)], [Holding(Some(0)), Holding(Some(1))],
                    w3.tokens + [Token(1, Holding(Some(0)), 1, false, false)]);
    assert Step(Scope(w3, p3, t2), Entered(1, v2, true)).world == w4;
  }
}
