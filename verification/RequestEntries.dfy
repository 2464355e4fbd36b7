/** What a request is served with once its entry has gone through, and what its end leaves. */
module RequestEntries {
  import opened Gucs
  import opened Sessions
  import opened Trackers
  import opened TrackerSoundness
  import opened Guard
  import opened GuardSoundness
  import opened Aliases
  import opened Requests
  import Holders

  // ---- Entered ----

  /** The request is served in a new holder of `values`, which is no block's, with its tenant and the flag;
      its tokens bring back what it found; and its entry is logged once. */
  ghost predicate ServedWith(r: Request, r': Request, values: ContextGucs, tenantId: Option<int>)
    requires Requests.Valid(r)
  {
    && Requests.Valid(r') && r'.context == r.context
    && |r'.world.lives| == |r.world.lives| + 1
    && Holders.Current(r'.world, r.context) == Some(|r.world.lives|)
    && r'.world.lives[|r.world.lives|] == Holders.Live(Some(values), false, true)
    && Holders.Visible(r'.world, r.context) == Some(values)
    && r'.tenant.value == tenantId && r'.active.value
    && InRequest(r', r.world.slots[r.context], r.tenant.value, r.active.value)
    && r'.gucsSet && r'.audited && r'.log == r.log + [Log.Entered]
  }

  lemma EnteredIsServed(r: Request, values: ContextGucs, tenantId: Option<int>)
    requires Requests.Valid(r) && !r.stateReset
    ensures ServedWith(r, EnterRequest(r, values, tenantId), values, tenantId)
  {
    EnteredRequest(r, values, tenantId);
  }

  /** An entry that went through, in both modes: the request is served with its own values and tenant; in
      session mode every alias holds the values, in local mode none was touched. */
  lemma EntryServesTheTenant(r: Request, values: ContextGucs, tenantId: Option<int>, localMode: bool,
                             faults: seq<AliasFault>, undo: seq<AliasFault>, clear: seq<AliasFault>)
    requires Requests.Valid(r) && !r.stateReset && |r.conns| == |faults| == |undo| == |clear|
    requires ProcessRequest(r, values, tenantId, localMode, faults, undo, clear).1 == Succeeded
    ensures var r' := ProcessRequest(r, values, tenantId, localMode, faults, undo, clear).0;
            && ServedWith(r, r', values, tenantId)
            && (localMode ==> r'.conns == r.conns)
            && (forall k :: 0 <= k < |r.conns| && ConnInv(r.conns[k]) && r.conns[k].guarded ==>
                  && ConnInv(r'.conns[k]) && r'.conns[k].guarded
                  && (!localMode ==> Holds(r'.conns[k], Some(values))))
  {
    var conns := SetOnAll(r.conns, values, localMode, faults, undo).0;
    EnteredIsServed(r.(conns := conns), values, tenantId);
    if !localMode {
      forall k | 0 <= k < |r.conns| && ConnInv(r.conns[k]) && r.conns[k].guarded
        ensures ConnInv(conns[k]) && conns[k].guarded && Holds(conns[k], Some(values))
      {
        SetFromKeeps(r.conns, 0, values, faults, undo, k);
      }
    }
  }

  lemma {:induction false} FaultlessSets(conns: seq<Conn>, i: nat, values: ContextGucs, faults: seq<AliasFault>,
                                         undo: seq<AliasFault>)
    requires i <= |conns| == |faults| == |undo| && AllReady(conns)
    requires forall k :: i <= k < |conns| ==> conns[k].session.value.status == Idle && faults[k].fault == Fine
    ensures SetFrom(conns, i, values, faults, undo).1 == Succeeded
    decreases |conns| - i
  {
    if i < |conns| {
      WriteStaysReady(conns[i], Some(values), Fine);
      FaultlessSets(conns[i := SetAlias(conns[i], values, Fine).0], i + 1, values, faults, undo);
    }
  }

  /** It goes through: always in local mode, and in session mode where no write fails. */
  lemma EntryGoesThrough(r: Request, values: ContextGucs, tenantId: Option<int>, localMode: bool,
                         faults: seq<AliasFault>, undo: seq<AliasFault>, clear: seq<AliasFault>)
    requires Requests.Valid(r) && |r.conns| == |faults| == |undo| == |clear|
    requires localMode || (AllReady(r.conns) && forall k :: 0 <= k < |r.conns| ==>
                             r.conns[k].session.value.status == Idle && faults[k].fault == Fine)
    ensures ProcessRequest(r, values, tenantId, localMode, faults, undo, clear).1 == Succeeded
  {
    if !localMode {
      FaultlessSets(r.conns, 0, values, faults, undo);
    }
  }

  /** One that raised leaves the holders and the log alone; one whose exception was caught leaves no
      tenant and no flag, for good. */
  lemma FailedEntryServesNothing(r: Request, values: ContextGucs, tenantId: Option<int>, localMode: bool,
                                 faults: seq<AliasFault>, undo: seq<AliasFault>, clear: seq<AliasFault>)
    requires Requests.Valid(r) && |r.conns| == |faults| == |undo| == |clear|
    requires ProcessRequest(r, values, tenantId, localMode, faults, undo, clear).1 != Succeeded
    ensures var r' := ProcessRequest(r, values, tenantId, localMode, faults, undo, clear).0;
            && r'.world == r.world && r'.log == r.log && r'.gucsSet == r.gucsSet
            && (SetOnAll(r.conns, values, localMode, faults, undo).1 == Caught ==>
                  r'.tenant.value.None? && !r'.active.value && r'.stateReset)
  {
  }

  /** The writes up to alias `w`, the first that raises. */
  ghost predicate FirstToRaise(conns: seq<Conn>, i: nat, values: ContextGucs, faults: seq<AliasFault>, w: nat)
    requires i <= w < |conns| == |faults|
  {
    && (forall n :: i <= n < w ==> !SetAlias(conns[n], values, faults[n].fault).1)
    && SetAlias(conns[w], values, faults[w].fault).1
  }

  lemma {:induction false} SetUpTo(conns: seq<Conn>, i: nat, values: ContextGucs, faults: seq<AliasFault>,
                                   undo: seq<AliasFault>, w: nat, k: nat)
    requires i <= w < |conns| == |faults| == |undo| && FirstToRaise(conns, i, values, faults, w)
    requires k < |conns| && ConnInv(conns[k]) && conns[k].guarded && !Passes(conns[w], faults[w])
    ensures var (conns', outcome) := SetFrom(conns, i, values, faults, undo);
            && outcome != Succeeded
            && var c := if i <= k <= w then SetAlias(conns[k], values, faults[k].fault).0 else conns[k];
            outcome == Caught ==> conns'[k] == if k < w then ClearAlias(c, undo[k].fault).0 else c
    decreases w - i
  {
    var c := SetAlias(conns[i], values, faults[i].fault).0;
    if k == i && conns[i].session.Some? {
      WriteGucsKeeps(conns[i], Some(values), false, faults[i].fault);
    }
    if i < w {
      SetUpToNext(conns, i, values, faults, w);
      SetUpTo(conns[i := c], i + 1, values, faults, undo, w, k);
    } else {
      ClearQuietlyClears(conns[i := c], 0, i, undo, k);
    }
  }

  lemma SetUpToNext(conns: seq<Conn>, i: nat, values: ContextGucs, faults: seq<AliasFault>, w: nat)
    requires i < w < |conns| == |faults| && FirstToRaise(conns, i, values, faults, w)
    ensures FirstToRaise(conns[i := SetAlias(conns[i], values, faults[i].fault).0], i + 1, values, faults, w)
  {
  }

  /** A write that raised on alias `w`, and was caught: the aliases written before it are cleared again,
      each whose clear works for good, and those after it were not touched. */
  lemma FailedSetClearsThoseWritten(conns: seq<Conn>, values: ContextGucs, faults: seq<AliasFault>,
                                    undo: seq<AliasFault>, w: nat, k: nat)
    requires w < |conns| == |faults| == |undo| && FirstToRaise(conns, 0, values, faults, w)
    requires k < |conns| && ConnInv(conns[k]) && conns[k].guarded && !Passes(conns[w], faults[w])
    requires SetOnAll(conns, values, false, faults, undo).1 == Caught
    ensures var c' := SetOnAll(conns, values, false, faults, undo).0[k];
            && (k < w && undo[k].fault == Fine && conns[k].session.value.status == Idle && conns[k].autocommit ==>
                  Holds(c', None) && c'.session.value.kept == CLEARED)
            && (k > w ==> c' == conns[k])
  {
    SetUpTo(conns, 0, values, faults, undo, w, k);
    if k < w && conns[k].session.value.status == Idle && conns[k].autocommit && undo[k].fault == Fine {
      WrittenThenCleared(conns[k], values, faults[k].fault);
    }
  }

  lemma WrittenThenCleared(c: Conn, values: ContextGucs, fault: Fault)
    requires ConnInv(c) && c.guarded && !SetAlias(c, values, fault).1 && c.session.Some?
    requires c.session.value.status == Idle && c.autocommit
    ensures var c' := ClearAlias(SetAlias(c, values, fault).0, Fine).0;
            Holds(c', None) && c'.session.value.kept == CLEARED
  {
    WriteGucsKeeps(c, Some(values), false, fault);
    var set' := SetAlias(c, values, fault).0;
    WriteGucsKeeps(set', None, false, Fine);
  }

  /** From the entry on, in both modes: a data statement of the view, on any configured alias and whatever
      fails, is shown the request's values, or nothing. */
  lemma ViewIsShownTheTenant(r: Request, values: ContextGucs, tenantId: Option<int>, localMode: bool,
                             faults: seq<AliasFault>, undo: seq<AliasFault>, clear: seq<AliasFault>,
                             k: nat, q: Statement, f: Faults)
    requires Requests.Valid(r) && !r.stateReset && |r.conns| == |faults| == |undo| == |clear|
    requires ProcessRequest(r, values, tenantId, localMode, faults, undo, clear).1 == Succeeded
    requires k < |r.conns| && ConnInv(r.conns[k]) && r.conns[k].guarded && !IsControl(q)
    requires var c := ProcessRequest(r, values, tenantId, localMode, faults, undo, clear).0.conns[k];
             c.session.Some? && !RunsAsItIs(c, Some(values), localMode, q)
    ensures var r' := ProcessRequest(r, values, tenantId, localMode, faults, undo, clear).0;
            && Requests.Valid(r') && r'.context < |r'.world.slots|
            && var ran := GuardStep(r'.conns[k], Holders.Visible(r'.world, r'.context), localMode, q, f);
            ran.showed.Some? ==> ran.showed.value == values
  {
    EntryServesTheTenant(r, values, tenantId, localMode, faults, undo, clear);
    var c := ProcessRequest(r, values, tenantId, localMode, faults, undo, clear).0.conns[k];
    IsShown(c, values, localMode, q, f);
  }

  lemma IsShown(c: Conn, values: ContextGucs, localMode: bool, q: Statement, f: Faults)
    requires c.session.Some? && ConnInv(c) && c.guarded && !IsControl(q) && !RunsAsItIs(c, Some(values), localMode, q)
    ensures var ran := GuardStep(c, Some(values), localMode, q, f);
            ran.showed.Some? ==> ran.showed.value == values
  {
    GuardShowsActiveContext(c, Some(values), localMode, q, f);
  }

  // ---- Cleaned up ----

  /** In local mode a cleanup runs no statement: every open session is suspected, so what it keeps counts as
      unknown, now if it is idle, or else after a commit. */
  lemma LocalCleanupSuspects(r: Request, faults: seq<Fault>, k: nat)
    requires Requests.Valid(r) && |faults| == |r.conns| && k < |r.conns| && r.gucsSet
    ensures var c, c' := r.conns[k], Cleanup(r, true, faults).0.conns[k];
            && c'.session == c.session
            && (c.session.Some? && c.session.value.status == Idle ==> c'.tracker.values == Unknown)
            && (c.session.Some? && c.session.value.status in {InTransaction, InError} ==>
                  c'.tracker.wroteSession && c'.tracker.wroteLocal)
    ensures !Cleanup(r, true, faults).0.gucsSet
  {
  }

  lemma {:induction false} FaultlessClears(conns: seq<Conn>, i: nat, faults: seq<Fault>)
    requires i <= |conns| == |faults| && AllReady(conns)
    requires forall k :: i <= k < |conns| ==> conns[k].session.value.status == Idle && faults[k] == Fine
    ensures !ClearFrom(conns, i, faults).1
    decreases |conns| - i
  {
    if i < |conns| {
      WriteStaysReady(conns[i], None, Fine);
      FaultlessClears(conns[i := ClearAlias(conns[i], Fine).0], i + 1, faults);
    }
  }

  /** A request that entered, and whose tokens are unused, is cleaned up without an exception where nothing
      fails: its context is over, what it found is back, and every alias is cleared and known to be. */
  lemma FaultlessCleanup(r: Request, faults: seq<Fault>, slot: Holders.Slot, tenant: Option<int>, active: bool)
    requires InRequest(r, slot, tenant, active) && r.gucsSet && |faults| == |r.conns| && AllReady(r.conns)
    requires forall k :: 0 <= k < |r.conns| ==> r.conns[k].session.value.status == Idle && faults[k] == Fine
    ensures var (r', raised) := Cleanup(r, false, faults);
            && !raised && ContextRestored(r, r', slot, tenant, active) && !r'.gucsSet && !r'.audited
            && forall k :: 0 <= k < |r.conns| ==>
                 Holds(r'.conns[k], None) && r'.conns[k].session.value.kept == CLEARED
  {
    CleanupRestores(r, false, faults, slot, tenant, active);
    FaultlessClears(r.conns, 0, faults);
    forall k | 0 <= k < |r.conns|
      ensures var c := Cleanup(r, false, faults).0.conns[k];
              Holds(c, None) && c.session.value.kept == CLEARED
    {
      CleanupClearsEveryAlias(r, faults, k);
    }
  }

  /** A request that set nothing: inside a live context it leaves all three variables alone; else it clears
      tenant and flag, which a view may have left. */
  lemma CleanupOfNothing(r: Request, localMode: bool, faults: seq<Fault>)
    requires Requests.Valid(r) && |faults| == |r.conns| && !r.stateReset && !r.gucsSet
    requires r.contextToken.None? && r.tenantToken.None? && r.activeToken.None?
    ensures var (r', raised) := Cleanup(r, localMode, faults);
            var inside := r.world.lives[r.found].alive && r.world.lives[r.found].values.Some?;
            && !raised && r'.world == r.world && r'.conns == r.conns && r'.stateReset
            && (if inside then r'.tenant == r.tenant && r'.active == r.active
                else r'.tenant.value.None? && !r'.active.value)
  {
  }

  /** What the reset of a request that entered gives back, exactly: it raises if and only if one of its tokens
      was used, in which case what follows is left as it is. */
  lemma UsedTokenStopsTheReset(r: Request)
    requires Requests.Valid(r) && r.contextToken.Some? && r.tenantToken.Some? && r.activeToken.Some?
    ensures var (r', raised) := ResetState(r);
            var ended, tenant, active := r.world.tokens[r.contextToken.value].used,
                r.tenant.tokens[r.tenantToken.value], r.active.tokens[r.activeToken.value];
            && raised == (ended || tenant.used || active.used)
            && (!r.stateReset ==> r'.stateReset == !raised)
            && r'.tenant.value == (if ended || tenant.used then r.tenant.value else tenant.before)
            && r'.active.value == (if raised then r.active.value else active.before)
  {
  }

  lemma EnteredIsReady(r: Request, values: ContextGucs, tenantId: Option<int>, faults: seq<AliasFault>,
                       undo: seq<AliasFault>, clear: seq<AliasFault>)
    requires Requests.Valid(r) && !r.stateReset && |r.conns| == |faults| == |undo| == |clear| && AllReady(r.conns)
    requires forall k :: 0 <= k < |r.conns| ==> r.conns[k].session.value.status == Idle && faults[k].fault == Fine
    ensures var (r', outcome) := ProcessRequest(r, values, tenantId, false, faults, undo, clear);
            && outcome == Succeeded && ServedWith(r, r', values, tenantId) && |r'.conns| == |r.conns|
            && AllReady(r'.conns)
            && forall k :: 0 <= k < |r.conns| ==>
                 Holds(r'.conns[k], Some(values)) && r'.conns[k].session.value.status == Idle
  {
    EntryGoesThrough(r, values, tenantId, false, faults, undo, clear);
    EntryServesTheTenant(r, values, tenantId, false, faults, undo, clear);
    FailedSetIsReady(r.conns, 0, values, faults, undo);
    forall k | 0 <= k < |r.conns|
      ensures var c := SetFrom(r.conns, 0, values, faults, undo).0[k];
              c.session.Some? && c.session.value.status == Idle
    {
      StaysIdle(r.conns, 0, values, faults, undo, k);
    }
  }

  /** A whole request in session mode, where nothing fails: served with its own values on every alias, and
      after it every alias is cleared, and the `Context` as it was found. */
  lemma RequestInAndOut(r: Request, values: ContextGucs, tenantId: Option<int>, faults: seq<AliasFault>,
                        undo: seq<AliasFault>, clear: seq<AliasFault>, cleanup: seq<Fault>)
    requires Requests.Valid(r) && !r.stateReset && |r.conns| == |faults| == |undo| == |clear| == |cleanup|
    requires AllReady(r.conns)
    requires forall k :: 0 <= k < |r.conns| ==>
               r.conns[k].session.value.status == Idle && faults[k].fault == Fine && cleanup[k] == Fine
    ensures var (r', outcome) := ProcessRequest(r, values, tenantId, false, faults, undo, clear);
            && outcome == Succeeded && ServedWith(r, r', values, tenantId)
            && (forall k :: 0 <= k < |r.conns| ==> Holds(r'.conns[k], Some(values)))
            && var (end, raised) := Cleanup(r', false, cleanup);
            && !raised && ContextRestored(r', end, r.world.slots[r.context], r.tenant.value, r.active.value)
            && forall k :: 0 <= k < |r.conns| ==>
                 Holds(end.conns[k], None) && end.conns[k].session.value.kept == CLEARED
  {
    EnteredIsReady(r, values, tenantId, faults, undo, clear);
    var r' := ProcessRequest(r, values, tenantId, false, faults, undo, clear).0;
    FaultlessCleanup(r', cleanup, r.world.slots[r.context], r.tenant.value, r.active.value);
  }

  lemma {:induction false} StaysIdle(conns: seq<Conn>, i: nat, values: ContextGucs, faults: seq<AliasFault>,
                                     undo: seq<AliasFault>, k: nat)
    requires i <= |conns| == |faults| == |undo| && AllReady(conns) && k < |conns|
    requires forall n :: 0 <= n < |conns| ==> conns[n].session.value.status == Idle && faults[n].fault == Fine
    ensures SetFrom(conns, i, values, faults, undo).0[k].session.Some?
    ensures SetFrom(conns, i, values, faults, undo).0[k].session.value.status == Idle
    decreases |conns| - i
  {
    if i < |conns| {
      WriteStaysReady(conns[i], Some(values), Fine);
      StaysIdle(conns[i := SetAlias(conns[i], values, Fine).0], i + 1, values, faults, undo, k);
    }
  }
}
