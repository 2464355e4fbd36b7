/** What holds of the holders over every run. */
module HolderProperties {
  import opened Gucs
  import opened Holders

  // ---- What no step undoes ----

  /** A holder keeps its values and is never live again; a token keeps its holder, kind and `Context`. */
  ghost predicate Later(w: World, w': World) {
    && |w.lives| <= |w'.lives| && |w.slots| <= |w'.slots| && |w.tokens| <= |w'.tokens|
    && (forall i :: 0 <= i < |w.lives| ==>
          && w'.lives[i].values == w.lives[i].values && w'.lives[i].block == w.lives[i].block
          && (w'.lives[i].alive ==> w.lives[i].alive))
    && (forall k :: 0 <= k < |w.tokens| ==>
          && w'.tokens[k].(used := false) == w.tokens[k].(used := false)
          && (w.tokens[k].used ==> w'.tokens[k].used))
  }

  lemma StepIsLater(w: World, e: Event)
    requires WellFormed(w)
    ensures Later(w, Step(w, e))
  {
  }

  /** Nothing brings an ended context back, in whatever `Context` and order the events happen. */
  lemma {:induction false} EndedStaysEnded(w: World, events: seq<Event>)
    requires WellFormed(w)
    ensures Later(w, Run(w, events))
    decreases |events|
  {
    if events != [] {
      var init := events[..|events| - 1];
      EndedStaysEnded(w, init);
      StepIsLater(Run(w, init), events[|events| - 1]);
    }
  }

  lemma {:induction false} RunSplits(w: World, first: seq<Event>, rest: seq<Event>)
    requires WellFormed(w)
    ensures Run(w, first + rest) == Run(Run(w, first), rest)
    decreases |rest|
  {
    if rest == [] {
      assert first + rest == first;
    } else {
      var n := |rest| - 1;
      RunSplits(w, first, rest[..n]);
      assert (first + rest)[..|first + rest| - 1] == first + rest[..n];
    }
  }

  // ---- Fail-closed for every copy ----

  /** The `n`th event enters a block with `values`, and the run holds no exit of it. */
  ghost predicate EnteredAndNotExited(events: seq<Event>, n: nat, values: ContextGucs) {
    && n < |events| && events[n].Entered? && events[n].values == Some(values)
    && events[n].context < |Run(EMPTY, events[..n]).slots|
    && forall m :: n < m < |events| ==>
         !(events[m].Exited? && events[m].token == |Run(EMPTY, events[..n]).tokens|
           && events[m].context < |Run(EMPTY, events[..m]).slots|)
  }

  /** The newest token is of holder `i`, and entering a block made it. */
  ghost predicate JustEntered(w: World, e: Event, i: nat)
    requires WellFormed(w)
  {
    var w' := Step(w, e);
    && e.Entered? && e.context < |w.slots| && |w'.tokens| == |w.tokens| + 1
    && w'.tokens[|w.tokens|].live == i && !w'.tokens[|w.tokens|].hold
    && i < |w'.lives| && w'.lives[i].values == e.values
  }

  lemma NewHolderIsOfItsBlock(w: World, e: Event, i: nat)
    requires WellFormed(w) && |w.lives| <= i < |Step(w, e).lives| && Step(w, e).lives[i].values.Some?
    ensures JustEntered(w, e, i)
  {
  }

  lemma ExitEndsItsHolder(w: World, c: nat, k: nat)
    requires WellFormed(w) && c < |w.slots| && k < |w.tokens| && !w.tokens[k].hold
    ensures !Step(w, Exited(c, k)).lives[w.tokens[k].live].alive
  {
  }

  /** Holder `i` is of the `n`th event's block. */
  ghost predicate OfBlock(events: seq<Event>, n: nat, i: nat) {
    n < |events| &&
    var w, k := Run(EMPTY, events), |Run(EMPTY, events[..n]).tokens|;
    k < |w.tokens| && w.tokens[k].live == i && !w.tokens[k].hold
  }

  lemma OneMoreEvent(events: seq<Event>, n: nat, i: nat)
    requires |events| > 0 && i < |Run(EMPTY, events[..|events| - 1]).lives|
    requires var before := Run(EMPTY, events[..|events| - 1]);
             && before.lives[i].values.Some? && OfBlock(events[..|events| - 1], n, i)
             && EnteredAndNotExited(events[..|events| - 1], n, before.lives[i].values.value)
             && i < |Run(EMPTY, events).lives| && Run(EMPTY, events).lives[i].alive
    ensures OfBlock(events, n, i)
    ensures EnteredAndNotExited(events, n, Run(EMPTY, events[..|events| - 1]).lives[i].values.value)
  {
    var last := |events| - 1;
    var init, e := events[..last], events[last];
    var before, k := Run(EMPTY, init), |Run(EMPTY, init[..n]).tokens|;
    assert init[..n] == events[..n];
    StepIsLater(before, e);
    forall m | n < m < |events|
      ensures !(events[m].Exited? && events[m].token == k && events[m].context < |Run(EMPTY, events[..m]).slots|)
    {
      if m < last {
        assert init[..m] == events[..m] && events[m] == init[m];
      } else if e.Exited? && e.token == k && e.context < |before.slots| {
        ExitEndsItsHolder(before, e.context, k);
      }
    }
  }

  /** A live holder with values belongs to a block entered and not exited. */
  lemma {:induction false} LiveHolderIsOfAnOpenBlock(events: seq<Event>, i: nat) returns (n: nat)
    requires i < |Run(EMPTY, events).lives|
    requires Run(EMPTY, events).lives[i].alive && Run(EMPTY, events).lives[i].values.Some?
    ensures EnteredAndNotExited(events, n, Run(EMPTY, events).lives[i].values.value) && OfBlock(events, n, i)
    decreases |events|
  {
    var last := |events| - 1;
    var before := Run(EMPTY, events[..last]);
    StepIsLater(before, events[last]);
    if i >= |before.lives| {
      n := last;
      NewHolderIsOfItsBlock(before, events[last], i);
    } else {
      n := LiveHolderIsOfAnOpenBlock(events[..last], i);
      OneMoreEvent(events, n, i);
    }
  }

  /** The values visible in any `Context` belong to a block entered and not yet exited. */
  lemma VisibleValuesAreOfAnOpenBlock(events: seq<Event>, c: nat)
    requires c < |Run(EMPTY, events).slots| && Visible(Run(EMPTY, events), c).Some?
    ensures exists n :: EnteredAndNotExited(events, n, Visible(Run(EMPTY, events), c).value)
  {
    var n := LiveHolderIsOfAnOpenBlock(events, Current(Run(EMPTY, events), c).value);
  }

  /** Once a block has exited, in whatever `Context`, no `Context` ever shows its values through its
      holder again: not those that copied it before, and not those that copy it later. */
  lemma ExitEndsEveryCopy(w: World, c: nat, k: nat, later: seq<Event>, d: nat)
    requires WellFormed(w) && c < |w.slots| && k < |w.tokens| && !w.tokens[k].hold
    ensures var w' := Run(Step(w, Exited(c, k)), later);
            d < |w'.slots| && Current(w', d) == Some(w.tokens[k].live) ==> Visible(w', d) == None
  {
    EndedStaysEnded(Step(w, Exited(c, k)), later);
  }

  // ---- Which holders an exit ends ----

  /** Exactly the block's own holder, a newer one left current in its place, and, when the token was
      used before, the current one. */
  lemma ExitEndsExactly(w: World, c: nat, k: nat, i: nat)
    requires WellFormed(w) && c < |w.slots| && k < |w.tokens| && i < |w.lives|
    ensures var live := w.tokens[k].live;
            Exit(w, c, k).lives[i].alive <==>
              && w.lives[i].alive && i != live
              && !(Current(w, c) == Some(i) && (w.tokens[k].used || (w.tokens[k].context == c && i > live)))
  {
  }

  /** No holder older than the block's is ended, so no enclosing block is. */
  ghost predicate SparesOlder(w: World, c: nat, k: nat)
    requires WellFormed(w) && c < |w.slots| && k < |w.tokens|
  {
    forall i :: 0 <= i < w.tokens[k].live ==> (Exit(w, c, k).lives[i].alive <==> w.lives[i].alive)
  }

  /** An exit spares every older block, unless its token was used before and the current block is older. */
  lemma SparesOlderIff(w: World, c: nat, k: nat)
    requires WellFormed(w) && c < |w.slots| && k < |w.tokens|
    ensures SparesOlder(w, c, k) <==>
              !(&& w.tokens[k].used && Current(w, c).Some? && Current(w, c).value < w.tokens[k].live
                && w.lives[Current(w, c).value].alive)
  {
    forall i | 0 <= i < w.tokens[k].live
      ensures Exit(w, c, k).lives[i].alive <==>
                w.lives[i].alive && !(Current(w, c) == Some(i) && w.tokens[k].used)
    {
      ExitEndsExactly(w, c, k, i);
    }
    if w.tokens[k].used && Current(w, c).Some? && Current(w, c).value < w.tokens[k].live
       && w.lives[Current(w, c).value].alive {
      ExitEndsExactly(w, c, k, Current(w, c).value);
      assert Exit(w, c, k).lives[Current(w, c).value].alive != w.lives[Current(w, c).value].alive;
    }
  }

  const TWICE_EXITED := [NewContext, Entered(0, Some(ADMIN_GUCS), true), Entered(0, None, true), Exited(0, 1)]

  const OUTER_BLOCK_LEFT := World(
    [Live(Some(ADMIN_GUCS), true, true), Live(None, true, false)],
    [Holding(Some(0))],
    [Token(0, Unset, 0, false, false), Token(0, Holding(Some(0)), 1, true, false)])

  lemma RunOneMore(w: World, events: seq<Event>, e: Event)
    requires WellFormed(w)
    ensures Run(w, events + [e]) == Step(Run(w, events), e)
  {
    assert (events + [e])[..|events|] == events;
  }

  lemma OuterBlockIsLeft()
    ensures Run(EMPTY, TWICE_EXITED) == OUTER_BLOCK_LEFT
  {
    RunOneMore(EMPTY, [], TWICE_EXITED[0]);
    RunOneMore(EMPTY, TWICE_EXITED[..1], TWICE_EXITED[1]);
    RunOneMore(EMPTY, TWICE_EXITED[..2], TWICE_EXITED[2]);
    RunOneMore(EMPTY, TWICE_EXITED[..3], TWICE_EXITED[3]);
    assert [] + [TWICE_EXITED[0]] == TWICE_EXITED[..1] && TWICE_EXITED[..1] + [TWICE_EXITED[1]] == TWICE_EXITED[..2];
    assert TWICE_EXITED[..2] + [TWICE_EXITED[2]] == TWICE_EXITED[..3];
    assert TWICE_EXITED[..3] + [TWICE_EXITED[3]] == TWICE_EXITED;
    var w1 := World([], [Unset], []);
    assert Step(EMPTY, NewContext) == w1;
    var w2 := World([Live(Some(ADMIN_GUCS), true, true)], [Holding(Some(0))], [Token(0, Unset, 0, false, false)]);
    assert Step(w1, Entered(0, Some(ADMIN_GUCS), true)) == w2;
    var w3 := World([w2.lives[0], Live(None, true, true)], [Holding(Some(1))],
                    [w2.tokens[0], Token(0, Holding(Some(0)), 1, false, false)]);
    assert Step(w2, Entered(0, None, true)) == w3;
    assert Step(w3, Exited(0, 1)) == OUTER_BLOCK_LEFT;
  }

  /** A used token can end an enclosing block: two blocks, and the inner one's exit run again. */
  lemma UsedTokenEndsAnEnclosingBlock()
    ensures var w := Run(EMPTY, TWICE_EXITED);
            && |w.slots| == 1 && |w.tokens| == 2 && Visible(w, 0) == Some(ADMIN_GUCS)
            && !SparesOlder(w, 0, 1)
  {
    OuterBlockIsLeft();
    SparesOlderIff(OUTER_BLOCK_LEFT, 0, 1);
  }

  // ---- Holding ----

  /** `e` acts on `c` only by copying a block's holder into it, or nothing. */
  predicate OnlyCopiesBlocksInto(w: World, c: nat, e: Event)
    requires WellFormed(w)
  {
    Possible(w, e) && !e.NewContext? && !e.CopyContext? && e.context == c ==>
      && e.CopiedIn?
      && (w.slots[e.source].Unset?
          || (w.slots[e.source].holder.Some? && w.lives[w.slots[e.source].holder.value].block))
  }

  lemma HolderIsNotReplacedInAStep(w: World, c: nat, e: Event)
    requires WellFormed(w) && c < |w.slots| && w.slots[c].Holding? && w.slots[c].holder.Some?
    requires OnlyCopiesBlocksInto(w, c, e)
    ensures c < |Step(w, e).slots| && Step(w, e).slots[c] == w.slots[c]
  {
  }

  lemma {:induction false} HolderIsNotReplaced(w: World, c: nat, events: seq<Event>)
    requires WellFormed(w) && c < |w.slots| && w.slots[c].Holding? && w.slots[c].holder.Some?
    requires forall n :: 0 <= n < |events| ==> OnlyCopiesBlocksInto(Run(w, events[..n]), c, events[n])
    ensures c < |Run(w, events).slots| && Run(w, events).slots[c] == w.slots[c]
    decreases |events|
  {
    if events != [] {
      var last := |events| - 1;
      var init := events[..last];
      forall n | 0 <= n < last ensures OnlyCopiesBlocksInto(Run(w, init[..n]), c, init[n]) {
        assert init[..n] == events[..n];
      }
      HolderIsNotReplaced(w, c, init);
      HolderIsNotReplacedInAStep(Run(w, init), c, events[last]);
    }
  }

  /** A request that holds a holder is not invaded: blocks of calls it cancelled, copied in, change
      neither its holder nor what it sees, until the holder's own block ends. */
  lemma HeldContextIsNotInvaded(w: World, c: nat, events: seq<Event>)
    requires WellFormed(w) && c < |w.slots|
    requires var held := Step(w, Held(c));
             forall n :: 0 <= n < |events| ==> OnlyCopiesBlocksInto(Run(held, events[..n]), c, events[n])
    ensures var held := Step(w, Held(c));
            var w' := Run(held, events);
            && c < |held.slots| && c < |w'.slots|
            && Current(w', c) == Current(held, c) && Current(held, c).Some?
            && (Current(w, c).Some? ==> Current(held, c) == Current(w, c))
            && (Visible(w', c).Some? ==> Visible(w', c) == Visible(w, c))
  {
    var held := Step(w, Held(c));
    HolderIsNotReplaced(held, c, events);
    EndedStaysEnded(held, events);
  }

  /** Whatever happened in between, with the hold's token not used yet the release puts back the
      holder found at the hold, ends a newer holder left current, and ends nothing else. */
  lemma ReleaseRestoresWhatWasHeld(w: World, c: nat, events: seq<Event>, i: nat)
    requires WellFormed(w) && c < |w.slots|
    requires |w.tokens| < |Run(Step(w, Held(c)), events).tokens|
    requires !Run(Step(w, Held(c)), events).tokens[|w.tokens|].used
    requires i < |Run(Step(w, Held(c)), events).lives|
    ensures var w' := Run(Step(w, Held(c)), events);
            var released := Step(w', Released(c, |w.tokens|));
            var held := Current(Step(w, Held(c)), c).value;
            && c < |w'.slots| && c < |released.slots| && released.slots[c] == w.slots[c]
            && (released.lives[i].alive <==> w'.lives[i].alive && !(Current(w', c) == Some(i) && i > held))
  {
    EndedStaysEnded(Step(w, Held(c)), events);
  }

  // ---- What one event does, exactly ----

  /** An entry is visible in its own `Context`, and in no other that was there. */
  lemma EntryIsVisible(w: World, c: nat, values: Option<ContextGucs>, block: bool, d: nat)
    requires WellFormed(w) && c < |w.slots| && d < |w.slots|
    ensures var w' := Step(w, Entered(c, values, block));
            && d < |w'.slots| && Visible(w', d) == (if d == c then values else Visible(w, d))
            && |w'.lives| == |w.lives| + 1 && w'.lives[|w.lives|].block == block
  {
  }

  /** A hold changes nothing that is visible, and leaves some holder current. */
  lemma HoldIsInvisible(w: World, c: nat, d: nat)
    requires WellFormed(w) && c < |w.slots| && d < |w.slots|
    ensures var w' := Step(w, Held(c));
            d < |w'.slots| && Visible(w', d) == Visible(w, d) && (d == c ==> Current(w', d).Some?)
  {
  }

  /** What asgiref copies: a value that is set, over none or over another one, but never a block's holder
      over a holder. So a request's own holder comes back from a hop, and a cancelled call's block does not. */
  lemma CopiesExactly(w: World, dst: nat, src: nat, d: nat)
    requires WellFormed(w) && dst < |w.slots| && src < |w.slots| && d < |w.slots|
    ensures var w', mine, other := Step(w, CopiedIn(dst, src)), Current(w, dst), Current(w, src);
            && w'.lives == w.lives && w'.tokens == w.tokens && |w'.slots| == |w.slots|
            && (d != dst ==> w'.slots[d] == w.slots[d])
            && Current(w', dst) ==
                 if w.slots[src].Unset? || (mine.Some? && other.Some? && w.lives[other.value].block) then mine
                 else other
  {
  }

  /** The end of a request's last resort: the holder that is current is over, in every copy, and no other. */
  lemma ClearEndsExactly(w: World, c: nat, d: nat)
    requires WellFormed(w) && c < |w.slots| && d < |w.slots|
    ensures var w', ended := Step(w, Cleared(c)), Current(w, c);
            && d < |w'.slots| && Visible(w', c).None?
            && (d != c ==> Visible(w', d) == if ended.Some? && Current(w, d) == ended then None else Visible(w, d))
  {
  }
}
