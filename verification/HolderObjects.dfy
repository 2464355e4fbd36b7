/** The holders as shared objects whose `alive` flag is cleared in place. */
module HolderObjects {
  import opened Gucs
  import opened Holders

  /** `_Live` */
  class Holder {
    const values: Option<ContextGucs>
    const block: bool
    const serial: nat
    var alive: bool

    constructor (values: Option<ContextGucs>, block: bool, serial: nat)
      ensures this.values == values && this.block == block && this.serial == serial && alive
    {
      this.values, this.block, this.serial := values, block, serial;
      alive := true;
    }

    /** `__ne__`, with another holder or with `None` */
    predicate DiffersFrom(other: Option<Holder>) {
      if other.None? then true
      else if other.value == this then false
      else !other.value.block
    }
  }

  datatype HolderSlot = NoValue | Value(holder: Option<Holder>)

  datatype HolderToken = HolderToken(context: nat, before: HolderSlot, live: Holder, used: bool, hold: bool)

  /** The `ContextVar`, its value in every `Context`, and the serial counter. */
  class ContextGucsVariable {
    var slots: seq<HolderSlot>
    var tokens: seq<HolderToken>
    var serials: nat
    ghost var made: seq<Holder>

    ghost predicate Made(h: Option<Holder>)
      reads this
    {
      h.Some? ==> h.value.serial < |made| && made[h.value.serial] == h.value
    }

    ghost predicate SlotMade(s: HolderSlot)
      reads this
    {
      s.Value? ==> Made(s.holder)
    }

    ghost predicate Valid()
      reads this
    {
      && serials == |made|
      && (forall i: nat :: i < |made| ==> made[i].serial == i)
      && (forall c: nat :: c < |slots| ==> SlotMade(slots[c]))
      && (forall k: nat :: k < |tokens| ==>
            tokens[k].context < |slots| && SlotMade(tokens[k].before) && Made(Some(tokens[k].live)))
    }

    static function SlotValue(s: HolderSlot): Slot {
      if s.NoValue? then Unset else Holding(if s.holder.None? then None else Some(s.holder.value.serial))
    }

    static function TokenValue(t: HolderToken): Token {
      Token(t.context, SlotValue(t.before), t.live.serial, t.used, t.hold)
    }

    ghost function State(): (w: World)
      reads this, made
      requires Valid()
      ensures WellFormed(w)
    {
      World(seq(|made|, i requires 0 <= i < |made| reads this,
                made => Live(made[i].values, made[i].block, made[i].alive)),
            seq(|slots|, c requires 0 <= c < |slots| reads this => SlotValue(slots[c])),
            seq(|tokens|, k requires 0 <= k < |tokens| reads this => TokenValue(tokens[k])))
    }

    constructor ()
      ensures Valid() && made == [] && State() == EMPTY
    {
      slots, tokens, serials, made := [], [], 0, [];
    }

    /** `get()` */
    function Get(c: nat): (h: Option<Holder>)
      reads this
      requires Valid() && c < |slots|
      ensures Made(h)
    {
      if slots[c].NoValue? then None else slots[c].holder
    }

    /** `_values_of` */
    function ValuesOf(h: Option<Holder>): Option<ContextGucs>
      reads if h.Some? then {h.value} else {}
    {
      if h.Some? && h.value.alive then h.value.values else None
    }

    /** `_get_context_gucs` */
    method GetContextGucs(c: nat) returns (values: Option<ContextGucs>)
      requires Valid() && c < |slots|
      ensures values == Visible(State(), c)
    {
      values := ValuesOf(Get(c));
    }

    method New(values: Option<ContextGucs>, block: bool) returns (h: Holder)
      requires Valid()
      modifies this`serials, this`made
      ensures Valid() && fresh(h) && Made(Some(h)) && made == old(made) + [h]
      ensures h.values == values && h.block == block && h.serial == old(serials) && h.alive
      ensures State() == old(State()).(lives := old(State()).lives + [Live(values, block, true)])
    {
      h := new Holder(values, block, serials);
      serials := serials + 1;
      made := made + [h];
    }

    /** `set()`; `hold` and `live` are what the token is for. */
    method Assign(c: nat, h: Holder, hold: bool)
      requires Valid() && c < |slots| && Made(Some(h))
      modifies this`slots, this`tokens
      ensures Valid()
      ensures State() == SetSlot(old(State()), c, Holding(Some(h.serial)), h.serial, hold)
    {
      tokens := tokens + [HolderToken(c, slots[c], h, false, hold)];
      slots := slots[c := Value(Some(h))];
    }

    method End(h: Holder)
      requires Valid() && Made(Some(h))
      modifies h
      ensures Valid() && State() == Kill(old(State()), h.serial)
    {
      h.alive := false;
      assert State().lives[h.serial] == old(State()).lives[h.serial].(alive := false);
    }

    /** `_end_if_newer` */
    method EndIfNewerThan(h: Option<Holder>, than: Holder)
      requires Valid() && Made(h) && Made(Some(than))
      modifies if h.Some? then {h.value} else {}
      ensures Valid()
      ensures State() == EndIfNewer(old(State()), if h.None? then None else Some(h.value.serial), than.serial)
    {
      if h.Some? && h.value != than && h.value.serial > than.serial {
        End(h.value);
      }
    }

    /** `_end_live_context` */
    method EndLiveContext(c: nat)
      requires Valid() && c < |slots|
      modifies made
      ensures Valid() && State() == KillCurrent(old(State()), Current(old(State()), c))
    {
      var h := Get(c);
      if h.Some? {
        End(h.value);
      }
    }

    /** `reset()` */
    method ResetTo(c: nat, k: nat) returns (outcome: ResetOutcome)
      requires Valid() && c < |slots| && k < |tokens|
      modifies this`slots, this`tokens
      ensures Valid() && outcome == ResetOutcomeOf(old(State()), c, k)
      ensures State() == ResetSlot(old(State()), c, k)
      ensures |tokens| == |old(tokens)| && |slots| == |old(slots)|
    {
      if tokens[k].used {
        return AlreadyUsed;
      }
      if tokens[k].context != c {
        return OtherContext;
      }
      slots := slots[c := tokens[k].before];
      tokens := tokens[k := tokens[k].(used := true)];
      return Done;
    }

    /** `_set_context_gucs`: a fresh holder becomes current. */
    method SetContextGucs(c: nat, values: Option<ContextGucs>, block: bool) returns (k: nat)
      requires Valid() && c < |slots|
      modifies this
      ensures Valid() && State() == Enter(old(State()), c, values, block)
      ensures |made| == |old(made)| + 1 && made[..|old(made)|] == old(made) && fresh(made[|old(made)|])
      ensures k == |old(tokens)| == |tokens| - 1 && |slots| == |old(slots)|
    {
      var h := New(values, block);
      k := |tokens|;
      Assign(c, h, false);
    }

    /** `_reset_context_gucs` */
    method ResetContextGucs(c: nat, k: nat) returns (outcome: ResetOutcome)
      requires Valid() && c < |slots| && k < |tokens|
      modifies this`slots, this`tokens, made
      ensures Valid() && State() == Exit(old(State()), c, k)
      ensures outcome == ResetOutcomeOf(old(State()), c, k)
      ensures |tokens| == |old(tokens)| && |slots| == |old(slots)|
    {
      var live := tokens[k].live;
      End(live);
      var current := Get(c);
      outcome := ResetTo(c, k);
      if outcome == AlreadyUsed {
        EndLiveContext(c);
      } else if outcome == Done {
        EndIfNewerThan(current, live);
      }
    }

    /** `_hold_context_gucs` */
    method HoldContextGucs(c: nat) returns (k: nat)
      requires Valid() && c < |slots|
      modifies this
      ensures Valid() && State() == Hold(old(State()), c)
      ensures old(made) <= made && forall i :: |old(made)| <= i < |made| ==> fresh(made[i])
      ensures k == |old(tokens)|
    {
      k := |tokens|;
      var current := Get(c);
      if current.Some? {
        Assign(c, current.value, true);
      } else {
        var h := New(None, true);
        Assign(c, h, true);
      }
    }

    /** `_release_context_gucs` */
    method ReleaseContextGucs(c: nat, k: nat) returns (outcome: ResetOutcome)
      requires Valid() && c < |slots| && k < |tokens|
      modifies this`slots, this`tokens, made
      ensures Valid() && State() == Release(old(State()), c, k)
      ensures outcome == ResetOutcomeOf(old(State()), c, k)
    {
      var live := tokens[k].live;
      var current := Get(c);
      outcome := ResetTo(c, k);
      if outcome == Done {
        EndIfNewerThan(current, live);
      }
    }

    /** `_clear_context_gucs` */
    method ClearContextGucs(c: nat)
      requires Valid() && c < |slots|
      modifies this`slots, made
      ensures Valid() && State() == Clear(old(State()), c)
    {
      EndLiveContext(c);
      slots := slots[c := Value(None)];
    }

    /** asgiref's copy of `src`'s value into `dst`, where the two differ. */
    method CopyInto(dst: nat, src: nat)
      requires Valid() && dst < |slots| && src < |slots|
      modifies this`slots
      ensures Valid() && State() == CopyIn(old(State()), dst, src)
    {
      if slots[src].Value? {
        var mine, other := Get(dst), slots[src].holder;
        var differs := if mine.Some? then mine.value.DiffersFrom(other) else other.Some?;
        if differs {
          slots := slots[dst := slots[src]];
        }
      }
    }
  }
}
