/** The holders of contexts' values, shared by every copy of a Python `Context`. */
module Holders {
  import opened Gucs

  /** A holder; its serial is its place in `World.lives`. */
  datatype Live = Live(values: Option<ContextGucs>, block: bool, alive: bool)

  /** The `ContextVar` in one `Context`: not set there, or set to a holder or `None`. */
  datatype Slot = Unset | Holding(holder: Option<nat>)

  /** `_ContextGucsToken`; `hold`: `_hold_context_gucs()` made it. */
  datatype Token = Token(context: nat, before: Slot, live: nat, used: bool, hold: bool)

  /** Every holder, `Context` and token there is. */
  datatype World = World(lives: seq<Live>, slots: seq<Slot>, tokens: seq<Token>)

  const EMPTY := World([], [], [])

  predicate SlotExists(w: World, slot: Slot) {
    slot.Holding? && slot.holder.Some? ==> slot.holder.value < |w.lives|
  }

  ghost predicate WellFormed(w: World) {
    && (forall c :: 0 <= c < |w.slots| ==> SlotExists(w, w.slots[c]))
    && (forall k :: 0 <= k < |w.tokens| ==>
          w.tokens[k].context < |w.slots| && w.tokens[k].live < |w.lives| && SlotExists(w, w.tokens[k].before))
  }

  /** `_context_gucs.get()` */
  function Current(w: World, c: nat): (r: Option<nat>)
    requires c < |w.slots|
  {
    if w.slots[c].Unset? then None else w.slots[c].holder
  }

  /** `_get_context_gucs()`: what the guard applies. */
  function Visible(w: World, c: nat): Option<ContextGucs>
    requires WellFormed(w) && c < |w.slots|
  {
    var live := Current(w, c);
    if live.Some? && w.lives[live.value].alive then w.lives[live.value].values else None
  }

  function Kill(w: World, i: nat): (w': World)
    requires i < |w.lives|
    ensures |w'.lives| == |w.lives| && w'.slots == w.slots && w'.tokens == w.tokens
  {
    w.(lives := w.lives[i := w.lives[i].(alive := false)])
  }

  function KillCurrent(w: World, live: Option<nat>): (w': World)
    requires live.Some? ==> live.value < |w.lives|
    ensures |w'.lives| == |w.lives| && w'.slots == w.slots && w'.tokens == w.tokens
  {
    if live.None? then w else Kill(w, live.value)
  }

  /** `_end_if_newer` with a holder to compare with. */
  function EndIfNewer(w: World, live: Option<nat>, than: nat): (w': World)
    requires live.Some? ==> live.value < |w.lives|
    ensures |w'.lives| == |w.lives| && w'.slots == w.slots && w'.tokens == w.tokens
  {
    if live.Some? && live.value > than then Kill(w, live.value) else w
  }

  /** `ContextVar.set` */
  function SetSlot(w: World, c: nat, slot: Slot, live: nat, hold: bool): World
    requires c < |w.slots|
  {
    w.(slots := w.slots[c := slot], tokens := w.tokens + [Token(c, w.slots[c], live, false, hold)])
  }

  /** `_set_context_gucs` */
  function Enter(w: World, c: nat, values: Option<ContextGucs>, block: bool): World
    requires c < |w.slots|
  {
    var w1 := w.(lives := w.lives + [Live(values, block, true)]);
    SetSlot(w1, c, Holding(Some(|w.lives|)), |w.lives|, false)
  }

  /** `ContextVar.reset` refuses a used token (`RuntimeError`), then one of another `Context`
      (`ValueError`). */
  datatype ResetOutcome = Done | AlreadyUsed | OtherContext

  function ResetOutcomeOf(w: World, c: nat, k: nat): ResetOutcome
    requires k < |w.tokens|
  {
    if w.tokens[k].used then AlreadyUsed
    else if w.tokens[k].context != c then OtherContext
    else Done
  }

  function ResetSlot(w: World, c: nat, k: nat): World
    requires c < |w.slots| && k < |w.tokens|
  {
    if ResetOutcomeOf(w, c, k) != Done then w
    else w.(slots := w.slots[c := w.tokens[k].before], tokens := w.tokens[k := w.tokens[k].(used := true)])
  }

  /** `_reset_context_gucs` */
  function Exit(w: World, c: nat, k: nat): World
    requires WellFormed(w) && c < |w.slots| && k < |w.tokens|
  {
    var live := w.tokens[k].live;
    var ended := Kill(w, live);
    match ResetOutcomeOf(w, c, k)
    case AlreadyUsed => KillCurrent(ended, Current(w, c))
    case OtherContext => ended
    case Done => EndIfNewer(ResetSlot(ended, c, k), Current(w, c), live)
  }

  /** `_hold_context_gucs` */
  function Hold(w: World, c: nat): World
    requires c < |w.slots|
  {
    var current := Current(w, c);
    if current.Some? then SetSlot(w, c, Holding(current), current.value, true)
    else
      var w1 := w.(lives := w.lives + [Live(None, true, true)]);
      SetSlot(w1, c, Holding(Some(|w.lives|)), |w.lives|, true)
  }

  /** `_release_context_gucs` */
  function Release(w: World, c: nat, k: nat): World
    requires WellFormed(w) && c < |w.slots| && k < |w.tokens|
  {
    if ResetOutcomeOf(w, c, k) != Done then w
    else EndIfNewer(ResetSlot(w, c, k), Current(w, c), w.tokens[k].live)
  }

  /** `_clear_context_gucs`; the token of its `set(None)` is thrown away. */
  function Clear(w: World, c: nat): World
    requires WellFormed(w) && c < |w.slots|
  {
    var ended := KillCurrent(w, Current(w, c));
    ended.(slots := ended.slots[c := Holding(None)])
  }

  /** `copy_context()` */
  function Copy(w: World, c: nat): World
    requires c < |w.slots|
  {
    w.(slots := w.slots + [w.slots[c]])
  }

  /** `_Live.__ne__`, and `!=` of `None` and a holder. */
  predicate Differs(w: World, mine: Option<nat>, other: Option<nat>)
    requires other.Some? ==> other.value < |w.lives|
  {
    if mine.Some? && other.Some? then mine != other && !w.lives[other.value].block
    else mine != other
  }

  /** asgiref's copy of the variable into `dst`, where it differs. */
  function CopyIn(w: World, dst: nat, src: nat): World
    requires WellFormed(w) && dst < |w.slots| && src < |w.slots|
  {
    if w.slots[src].Holding? && Differs(w, Current(w, dst), Current(w, src))
    then w.(slots := w.slots[dst := w.slots[src]])
    else w
  }

  // ---- Runs ----

  datatype Event =
    | NewContext
    | CopyContext(context: nat)
    | CopiedIn(context: nat, source: nat)
    | Entered(context: nat, values: Option<ContextGucs>, block: bool)
    | Exited(context: nat, token: nat)
    | Held(context: nat)
    | Released(context: nat, token: nat)
    | Cleared(context: nat)

  /** The `Context`s and the token of `e` exist, and the token is of the right kind. */
  predicate Possible(w: World, e: Event) {
    && (!e.NewContext? ==> e.context < |w.slots|)
    && (e.CopiedIn? ==> e.source < |w.slots|)
    && (e.Exited? ==> e.token < |w.tokens| && !w.tokens[e.token].hold)
    && (e.Released? ==> e.token < |w.tokens| && w.tokens[e.token].hold)
  }

  function Step(w: World, e: Event): (w': World)
    requires WellFormed(w)
    ensures WellFormed(w')
  {
    if !Possible(w, e) then w
    else match e
      case NewContext => w.(slots := w.slots + [Unset])
      case CopyContext(c) => Copy(w, c)
      case CopiedIn(c, source) => CopyIn(w, c, source)
      case Entered(c, values, block) => Enter(w, c, values, block)
      case Exited(c, k) => Exit(w, c, k)
      case Held(c) => Hold(w, c)
      case Released(c, k) => Release(w, c, k)
      case Cleared(c) => Clear(w, c)
  }

  function Run(w: World, events: seq<Event>): (w': World)
    requires WellFormed(w)
    ensures WellFormed(w')
    decreases |events|
  {
    if events == [] then w else Step(Run(w, events[..|events| - 1]), events[|events| - 1])
  }
}
