/** Where every `Context` exits its own blocks newest first, the holders are as good as one plain
    stack of values for each `Context`, over what it inherited when it was copied. */
module PlainStacks {
  import opened Gucs
  import opened Holders
  import opened HolderProperties

  /** Blocks are numbered in the order they are entered; `open`: not exited yet. */
  datatype Plain = Plain(
    values: seq<Option<ContextGucs>>,
    open: set<nat>,
    stacks: seq<seq<nat>>,
    inherited: seq<Option<nat>>)

  const NO_BLOCKS := Plain([], {}, [], [])

  function Top(stack: seq<nat>, below: Option<nat>): Option<nat> {
    if stack == [] then below else Some(stack[|stack| - 1])
  }

  function Innermost(p: Plain, c: nat): Option<nat>
    requires c < |p.stacks| == |p.inherited|
  {
    Top(p.stacks[c], p.inherited[c])
  }

  function Shows(p: Plain, c: nat): Option<ContextGucs>
    requires c < |p.stacks| == |p.inherited|
  {
    var i := Innermost(p, c);
    if i.Some? && i.value in p.open && i.value < |p.values| then p.values[i.value] else None
  }

  /** `e` enters a block, exits the newest of its own `Context`, or copies. */
  predicate Orderly(p: Plain, e: Event)
    requires |p.stacks| == |p.inherited|
  {
    match e
    case NewContext => true
    case CopyContext(c) => c < |p.stacks|
    case CopiedIn(c, source) => c < |p.stacks| && source < |p.stacks|
    case Entered(c, _, block) => c < |p.stacks| && block
    case Exited(c, k) => c < |p.stacks| && p.stacks[c] != [] && p.stacks[c][|p.stacks[c]| - 1] == k
    case _ => false
  }

  function PlainStep(p: Plain, e: Event): (p': Plain)
    requires |p.stacks| == |p.inherited| && Orderly(p, e)
    ensures |p'.stacks| == |p'.inherited|
  {
    match e
    case NewContext => p.(stacks := p.stacks + [[]], inherited := p.inherited + [None])
    case CopyContext(c) => p.(stacks := p.stacks + [[]], inherited := p.inherited + [Innermost(p, c)])
    case CopiedIn(c, source) =>
      if Innermost(p, c).None? then p.(inherited := p.inherited[c := Innermost(p, source)]) else p
    case Entered(c, v, _) =>
      p.(values := p.values + [v], open := p.open + {|p.values|},
         stacks := p.stacks[c := p.stacks[c] + [|p.values|]])
    case Exited(c, k) =>
      p.(open := p.open - {k}, stacks := p.stacks[c := p.stacks[c][..|p.stacks[c]| - 1]])
  }

  ghost predicate OrderlyRun(p: Plain, events: seq<Event>)
    requires |p.stacks| == |p.inherited|
    decreases |events|
  {
    events == [] || (Orderly(p, events[0]) && OrderlyRun(PlainStep(p, events[0]), events[1..]))
  }

  function PlainRun(p: Plain, events: seq<Event>): (p': Plain)
    requires |p.stacks| == |p.inherited| && OrderlyRun(p, events)
    ensures |p'.stacks| == |p'.inherited|
    decreases |events|
  {
    if events == [] then p else PlainRun(PlainStep(p, events[0]), events[1..])
  }

  // ---- The holders refine the stacks ----

  function SlotOf(i: Option<nat>): Slot {
    if i.None? then Unset else Holding(i)
  }

  /** The block's token is unused and brings back what lies under the block. */
  ghost predicate OnStack(w: World, c: nat, block: nat, under: Option<nat>) {
    && block < |w.tokens| && w.tokens[block] == Token(c, SlotOf(under), block, false, false)
    && (under.Some? ==> under.value < block)
  }

  ghost predicate StackAgrees(w: World, c: nat, stack: seq<nat>, inherited: Option<nat>) {
    && (forall j :: 0 <= j < |stack| ==> OnStack(w, c, stack[j], Top(stack[..j], inherited)))
    && c < |w.slots| && w.slots[c] == SlotOf(Top(stack, inherited))
  }

  ghost predicate HoldersAgree(lives: seq<Live>, values: seq<Option<ContextGucs>>, open: set<nat>) {
    |lives| == |values| && forall i: nat :: i < |lives| ==> lives[i] == Live(values[i], true, i in open)
  }

  ghost predicate StacksAgree(w: World, stacks: seq<seq<nat>>, inherited: seq<Option<nat>>) {
    && |w.slots| == |stacks| == |inherited|
    && forall c: nat :: c < |stacks| ==> StackAgrees(w, c, stacks[c], inherited[c])
  }

  ghost predicate Refines(w: World, p: Plain) {
    && WellFormed(w)
    && |w.lives| == |w.tokens|
    && HoldersAgree(w.lives, p.values, p.open)
    && StacksAgree(w, p.stacks, p.inherited)
  }

  lemma CopyRefines(w: World, p: Plain, e: Event)
    requires Refines(w, p) && Orderly(p, e) && (e.NewContext? || e.CopyContext? || e.CopiedIn?)
    ensures Refines(Step(w, e), PlainStep(p, e))
  {
    var w', p' := Step(w, e), PlainStep(p, e);
    forall c | 0 <= c < |p'.stacks| ensures StackAgrees(w', c, p'.stacks[c], p'.inherited[c]) {
      if c < |p.stacks| {
        assert StackAgrees(w, c, p.stacks[c], p.inherited[c]);
        if e.CopiedIn? {
          assert StackAgrees(w, e.source, p.stacks[e.source], p.inherited[e.source]);
        }
      } else if e.CopyContext? {
        assert StackAgrees(w, e.context, p.stacks[e.context], p.inherited[e.context]);
      }
    }
  }

  /** A stack still agrees when tokens are added and another `Context` changes its holder. */
  lemma OtherStackAgrees(w: World, w': World, d: nat, stack: seq<nat>, inherited: Option<nat>)
    requires StackAgrees(w, d, stack, inherited) && w.tokens <= w'.tokens
    requires d < |w'.slots| && w'.slots[d] == w.slots[d]
    ensures StackAgrees(w', d, stack, inherited)
  {
    forall j | 0 <= j < |stack| ensures OnStack(w', d, stack[j], Top(stack[..j], inherited)) {
      assert OnStack(w, d, stack[j], Top(stack[..j], inherited));
    }
  }

  lemma LongerStackAgrees(w: World, w': World, c: nat, stack: seq<nat>, inherited: Option<nat>)
    requires StackAgrees(w, c, stack, inherited) && w.tokens <= w'.tokens && c < |w'.slots|
    requires OnStack(w', c, |w.tokens|, Top(stack, inherited)) && w'.slots[c] == Holding(Some(|w.tokens|))
    ensures StackAgrees(w', c, stack + [|w.tokens|], inherited)
  {
    var longer := stack + [|w.tokens|];
    forall j | 0 <= j < |longer| ensures OnStack(w', c, longer[j], Top(longer[..j], inherited)) {
      assert longer[..j] == stack[..j];
      if j < |stack| {
        assert OnStack(w, c, stack[j], Top(stack[..j], inherited));
      } else {
        assert stack[..j] == stack;
      }
    }
  }

  lemma EnterIs(w: World, c: nat, v: Option<ContextGucs>)
    requires WellFormed(w) && c < |w.slots|
    ensures Step(w, Entered(c, v, true)) ==
              World(w.lives + [Live(v, true, true)], w.slots[c := Holding(Some(|w.lives|))],
                    w.tokens + [Token(c, w.slots[c], |w.lives|, false, false)])
  {
  }

  lemma EnterKeepsHolders(lives: seq<Live>, values: seq<Option<ContextGucs>>, open: set<nat>, v: Option<ContextGucs>)
    requires HoldersAgree(lives, values, open)
    ensures HoldersAgree(lives + [Live(v, true, true)], values + [v], open + {|values|})
  {
  }

  lemma EnterKeepsStacks(w: World, w': World, c: nat, stacks: seq<seq<nat>>, inherited: seq<Option<nat>>)
    requires StacksAgree(w, stacks, inherited) && c < |w.slots|
    requires w'.slots == w.slots[c := Holding(Some(|w.tokens|))]
    requires w'.tokens == w.tokens + [Token(c, w.slots[c], |w.tokens|, false, false)]
    requires Top(stacks[c], inherited[c]).Some? ==> Top(stacks[c], inherited[c]).value < |w.tokens|
    ensures StacksAgree(w', stacks[c := stacks[c] + [|w.tokens|]], inherited)
  {
    assert StackAgrees(w, c, stacks[c], inherited[c]);
    LongerStackAgrees(w, w', c, stacks[c], inherited[c]);
    forall d: nat | d < |stacks| && d != c ensures StackAgrees(w', d, stacks[d], inherited[d]) {
      OtherStackAgrees(w, w', d, stacks[d], inherited[d]);
    }
  }

  lemma EnterRefines(w: World, p: Plain, c: nat, v: Option<ContextGucs>)
    requires Refines(w, p) && c < |p.stacks|
    ensures Refines(Step(w, Entered(c, v, true)), PlainStep(p, Entered(c, v, true)))
  {
    EnterIs(w, c, v);
    EnterKeepsHolders(w.lives, p.values, p.open, v);
    assert StackAgrees(w, c, p.stacks[c], p.inherited[c]);
    EnterKeepsStacks(w, Step(w, Entered(c, v, true)), c, p.stacks, p.inherited);
  }

  /** The exit of the newest block ends that block and nothing else. */
  lemma NewestExitIs(w: World, p: Plain, c: nat)
    requires Refines(w, p) && c < |p.stacks| && p.stacks[c] != []
    ensures var n := |p.stacks[c]| - 1;
            var k := p.stacks[c][n];
            Step(w, Exited(c, k)) ==
              World(w.lives[k := w.lives[k].(alive := false)],
                    w.slots[c := SlotOf(Top(p.stacks[c][..n], p.inherited[c]))],
                    w.tokens[k := w.tokens[k].(used := true)])
  {
    var n := |p.stacks[c]| - 1;
    assert StackAgrees(w, c, p.stacks[c], p.inherited[c]);
    assert OnStack(w, c, p.stacks[c][n], Top(p.stacks[c][..n], p.inherited[c]));
  }

  /** A stack lists its blocks from the oldest to the newest. */
  lemma {:induction false} StackAscends(w: World, c: nat, stack: seq<nat>, inherited: Option<nat>, i: nat, j: nat)
    requires StackAgrees(w, c, stack, inherited) && i < j < |stack|
    ensures stack[i] < stack[j]
    decreases j
  {
    assert OnStack(w, c, stack[j], Top(stack[..j], inherited));
    if i < j - 1 {
      StackAscends(w, c, stack, inherited, i, j - 1);
    }
  }

  lemma ExitRefines(w: World, p: Plain, c: nat)
    requires Refines(w, p) && c < |p.stacks| && p.stacks[c] != []
    ensures var e := Exited(c, p.stacks[c][|p.stacks[c]| - 1]);
            Refines(Step(w, e), PlainStep(p, e))
  {
    var n := |p.stacks[c]| - 1;
    var k := p.stacks[c][n];
    var w', p' := Step(w, Exited(c, k)), PlainStep(p, Exited(c, k));
    NewestExitIs(w, p, c);
    assert StackAgrees(w, c, p.stacks[c], p.inherited[c]);
    assert OnStack(w, c, k, Top(p.stacks[c][..n], p.inherited[c]));
    forall d | 0 <= d < |p'.stacks| ensures StackAgrees(w', d, p'.stacks[d], p'.inherited[d]) {
      assert StackAgrees(w, d, p.stacks[d], p.inherited[d]);
      forall j | 0 <= j < |p'.stacks[d]|
        ensures OnStack(w', d, p'.stacks[d][j], Top(p'.stacks[d][..j], p'.inherited[d]))
      {
        assert OnStack(w, d, p.stacks[d][j], Top(p.stacks[d][..j], p.inherited[d]));
        assert p'.stacks[d][..j] == p.stacks[d][..j];
        if d == c {
          StackAscends(w, c, p.stacks[c], p.inherited[c], j, n);
        }
      }
    }
  }

  lemma {:induction false} RunRefines(w: World, p: Plain, events: seq<Event>)
    requires Refines(w, p) && OrderlyRun(p, events)
    ensures Refines(Run(w, events), PlainRun(p, events))
    decreases |events|
  {
    if events != [] {
      var e := events[0];
      match e {
        case Entered(c, v, _) => EnterRefines(w, p, c, v);
        case Exited(c, _) => ExitRefines(w, p, c);
        case _ => CopyRefines(w, p, e);
      }
      RunRefines(Step(w, e), PlainStep(p, e), events[1..]);
      RunFromFirst(w, events);
    }
  }

  lemma {:induction false} RunFromFirst(w: World, events: seq<Event>)
    requires WellFormed(w) && events != []
    ensures Run(w, events) == Run(Step(w, events[0]), events[1..])
    decreases |events|
  {
    var n := |events| - 1;
    if n > 0 {
      RunFromFirst(w, events[..n]);
      assert events[..n][1..] == events[1..][..n - 1];
    } else {
      assert events[..n] == [] && events[1..] == [];
    }
  }

  /** With exits newest first in every `Context`, and any copies between them, every `Context` sees the
      top of its own stack; when that is empty, what it inherited, while that block is open. */
  lemma OrderlyExitsAreAStack(events: seq<Event>, c: nat)
    requires OrderlyRun(NO_BLOCKS, events) && c < |PlainRun(NO_BLOCKS, events).stacks|
    ensures c < |Run(EMPTY, events).slots|
    ensures Visible(Run(EMPTY, events), c) == Shows(PlainRun(NO_BLOCKS, events), c)
  {
    RunRefines(EMPTY, NO_BLOCKS, events);
    var w, p := Run(EMPTY, events), PlainRun(NO_BLOCKS, events);
    assert StackAgrees(w, c, p.stacks[c], p.inherited[c]);
  }
}
