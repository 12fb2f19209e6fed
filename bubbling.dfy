/**
 * The handler chain on its own terms: a list of holders in pop order, a
 * cancel flag, the transformer's quit flag and what the handlers have
 * recorded.  Bubble is the reference for TransformContext.callStack, with
 * callNext and cancelNext, for handlers whose bodies only record, cancel
 * and call the next handler; it knows nothing of the shared stack table,
 * the fuel bound or the rest of the engine.  The lemmas below show that
 * the engine's chain computes exactly what Bubble computes.
 */
module Bubbling {
  import opened Wrappers
  import opened Nodes
  import opened Handlers
  import opened ContextStates
  import opened Dispatch

  /** The chain's state: the holders still to pop (first pops first), the flags and the record. */
  datatype Chain = Chain(rest: seq<Holder>, cancelled: bool, quit: bool, marks: seq<nat>)

  /** The actions the reference knows: record, cancelNext, callNext. */
  predicate BubblingActions(actions: seq<Action>)
  {
    forall k :: 0 <= k < |actions| ==> actions[k].Mark? || actions[k].CancelNext? || actions[k].CallNext?
  }

  /** Every holder's script, at the given applying level, is made of those actions. */
  predicate BubblingOnly(l: seq<Holder>, level: int)
  {
    forall i :: 0 <= i < |l| ==> BubblingActions(ScriptFor(l[i], level).actions)
  }

  /**
   * The loop of callStack: while not cancelled, not quit and not empty, pop
   * the next holder, run its body, take its state into the result, and
   * quit once the result is QUIT.  When it stops, one of the three
   * conditions holds.
   */
  function Bubble(c: Chain, level: int, result: ContinueState): (r: (Chain, ContinueState))
    requires BubblingOnly(c.rest, level)
    ensures |r.0.rest| <= |c.rest| && BubblingOnly(r.0.rest, level)
    ensures r.0.cancelled || r.0.quit || |r.0.rest| == 0
    ensures c.marks <= r.0.marks
    ensures c.quit ==> r == (c, result)
    decreases |c.rest|, 0, 0
  {
    if c.cancelled || c.quit || |c.rest| == 0 then (c, result)
    else
      var script := ScriptFor(c.rest[0], level);
      var c1 := BubbleActions(c.(rest := c.rest[1..]), level, script.actions);
      var result' := Merge(result, script.result);
      Bubble(c1.(quit := c1.quit || result' == Quit), level, result')
  }

  /** A handler body, action by action. */
  function BubbleActions(c: Chain, level: int, actions: seq<Action>): (r: Chain)
    requires BubblingOnly(c.rest, level) && BubblingActions(actions)
    ensures |r.rest| <= |c.rest| && BubblingOnly(r.rest, level)
    ensures c.marks <= r.marks
    ensures c.quit ==> r.quit
    decreases |c.rest|, 2, |actions|
  {
    if |actions| == 0 then c
    else
      assert BubblingActions(actions[1..]) by {
        assert forall k :: 0 <= k < |actions[1..]| ==> actions[1..][k] == actions[k + 1];
      }
      BubbleActions(BubbleAction(c, level, actions[0]), level, actions[1..])
  }

  /** One action: record, cancel, or (callNext) run the rest of the chain afresh and then cancel it. */
  function BubbleAction(c: Chain, level: int, a: Action): (r: Chain)
    requires BubblingOnly(c.rest, level) && (a.Mark? || a.CancelNext? || a.CallNext?)
    ensures |r.rest| <= |c.rest| && BubblingOnly(r.rest, level)
    ensures c.marks <= r.marks
    ensures c.quit ==> r.quit
    ensures a.Mark? ==> r == c.(marks := c.marks + [a.tag])
    ensures a.CancelNext? ==> r == c.(cancelled := true)
    decreases |c.rest|, 1, 0
  {
    match a
    case Mark(tag) => c.(marks := c.marks + [tag])
    case CancelNext => c.(cancelled := true)
    case CallNext => Bubble(c.(cancelled := false), level, Continue).0.(cancelled := true)
  }

  /** One round of the loop, when it goes on. */
  lemma BubbleRound(c: Chain, level: int, result: ContinueState)
    requires BubblingOnly(c.rest, level) && !c.cancelled && !c.quit && |c.rest| > 0
    ensures BubblingOnly(c.rest[1..], level) && BubblingActions(ScriptFor(c.rest[0], level).actions)
    ensures var script := ScriptFor(c.rest[0], level);
            var c1 := BubbleActions(c.(rest := c.rest[1..]), level, script.actions);
            var result' := Merge(result, script.result);
            Bubble(c, level, result) == Bubble(c1.(quit := c1.quit || result' == Quit), level, result')
  {
    BubblingTail(c.rest, level);
  }

  // ---------------------------------------------------------------------
  // The engine computes the reference

  /** The engine's view of a chain: its stack, the cancel flag, quit and the cargo. */
  ghost predicate Mirrors(e: Engine, id: nat, c: Chain)
  {
    id < |e.stacks| && e.ctx.callStack == Some(id) && e.stacks[id] == Reversed(c.rest) &&
    e.ctx.cancelBubble == c.cancelled && e.quit == c.quit && e.cargo == c.marks
  }

  /** The engine e with the chain c in place of its stack, flags and cargo. */
  function Mirror(e: Engine, id: nat, c: Chain): (r: Engine)
    requires id < |e.stacks|
    ensures e.ctx.callStack == Some(id) ==> Mirrors(r, id, c)
  {
    e.(stacks := e.stacks[id := Reversed(c.rest)], ctx := e.ctx.(cancelBubble := c.cancelled), quit := c.quit, cargo := c.marks)
  }

  lemma MirrorTwice(e: Engine, id: nat, c: Chain, c': Chain)
    requires id < |e.stacks|
    ensures Mirror(Mirror(e, id, c), id, c') == Mirror(e, id, c')
  {
    assert e.stacks[id := Reversed(c.rest)][id := Reversed(c'.rest)] == e.stacks[id := Reversed(c'.rest)];
  }

  lemma ReversedPop(l: seq<Holder>)
    requires |l| > 0
    ensures Reversed(l)[..|l| - 1] == Reversed(l[1..])
    ensures Reversed(l)[|l| - 1] == l[0]
  {
  }

  lemma BubblingTail(l: seq<Holder>, level: int)
    requires |l| > 0 && BubblingOnly(l, level)
    ensures BubblingOnly(l[1..], level) && BubblingActions(ScriptFor(l[0], level).actions)
  {
    assert forall i :: 0 <= i < |l[1..]| ==> l[1..][i] == l[i + 1];
  }

  /** The loop of callStack, on a stack that mirrors the chain, ends as Bubble does. */
  lemma {:induction false} CallLoopBubbles(cfg: Config, e: Engine, id: nat, c: Chain, result: ContinueState, fuel: nat)
    requires Sound(e) && Mirrors(e, id, c) && BubblingOnly(c.rest, e.applyingLevel)
    requires fuel > 2 * |c.rest|
    ensures id < |e.stacks| &&
            var b := Bubble(c, e.applyingLevel, result);
            CallLoop(cfg, e, id, result, fuel) == Success((Mirror(e, id, b.0), b.1))
    decreases |c.rest|, 0, 1
  {
    if c.cancelled || c.quit || |c.rest| == 0 {
      StopBubbles(cfg, e, id, c, result, fuel);
    } else {
      var c2, result' := RoundBubbles(cfg, e, id, c, result, fuel);
      RestBubbles(cfg, e, id, c2, result', fuel - 1);
    }
  }

  /** A chain that is cancelled, quit or empty: the loop and Bubble both stop where they are. */
  lemma StopBubbles(cfg: Config, e: Engine, id: nat, c: Chain, result: ContinueState, fuel: nat)
    requires Sound(e) && Mirrors(e, id, c) && BubblingOnly(c.rest, e.applyingLevel)
    requires c.cancelled || c.quit || |c.rest| == 0
    ensures Bubble(c, e.applyingLevel, result) == (c, result)
    ensures CallLoop(cfg, e, id, result, fuel) == Success((Mirror(e, id, c), result))
  {
    MirrorSame(e, id, c);
    LoopStops(cfg, e, id, result, fuel);
  }

  /** The rest of the loop, on the engine mirroring the chain after one round, ends on the engine mirroring where Bubble ends. */
  lemma {:induction false} RestBubbles(cfg: Config, e: Engine, id: nat, c2: Chain, result': ContinueState, fuel: nat)
    requires Sound(e) && id < |e.stacks| && e.ctx.callStack == Some(id) && BubblingOnly(c2.rest, e.applyingLevel)
    requires fuel > 2 * |c2.rest|
    ensures var b := Bubble(c2, e.applyingLevel, result');
            CallLoop(cfg, Mirror(e, id, c2), id, result', fuel) == Success((Mirror(e, id, b.0), b.1))
    decreases |c2.rest|, 0, 2
  {
    MirrorSound(e, id, c2);
    CallLoopBubbles(cfg, Mirror(e, id, c2), id, c2, result', fuel);
    MirrorTwice(e, id, c2, Bubble(c2, e.applyingLevel, result').0);
  }

  /** A cancelled chain, a quit transform or an empty stack ends the loop at once. */
  lemma LoopStops(cfg: Config, e: Engine, id: nat, result: ContinueState, fuel: nat)
    requires Sound(e) && id < |e.stacks|
    requires e.ctx.cancelBubble || e.quit || |e.stacks[id]| == 0
    ensures CallLoop(cfg, e, id, result, fuel) == Success((e, result))
  {
  }

  /**
   * One round of the loop on a mirroring stack: the engine and the
   * reference go on from the same chain and the same result.
   */
  lemma RoundBubbles(cfg: Config, e: Engine, id: nat, c: Chain, result: ContinueState, fuel: nat)
    returns (c2: Chain, result': ContinueState)
    requires Sound(e) && Mirrors(e, id, c) && BubblingOnly(c.rest, e.applyingLevel)
    requires !c.cancelled && !c.quit && |c.rest| > 0
    requires fuel > 2 * |c.rest|
    ensures |c2.rest| < |c.rest| && BubblingOnly(c2.rest, e.applyingLevel)
    ensures Bubble(c, e.applyingLevel, result) == Bubble(c2, e.applyingLevel, result')
    ensures CallLoop(cfg, e, id, result, fuel) == CallLoop(cfg, Mirror(e, id, c2), id, result', fuel - 1)
    decreases |c.rest|, 0, 0
  {
    var level := e.applyingLevel;
    var h := c.rest[0];
    var script := ScriptFor(h, level);
    var c0 := c.(rest := c.rest[1..]);
    var e1 := Mirror(e, id, c0);
    PopMirrors(cfg, e, id, c);
    BubblingTail(c.rest, level);
    var c1 := BubbleActions(c0, level, script.actions);
    HolderBubbles(cfg, e1, id, c0, h, fuel - 1);
    result' := Merge(result, script.result);
    c2 := c1.(quit := c1.quit || result' == Quit);
    MirrorQuit(e, id, c0, c1, result' == Quit);
    LoopStep(cfg, e, id, result, fuel, e1, h, Mirror(e1, id, c1), script.result);
    BubbleRound(c, level, result);
  }

  lemma MirrorSame(e: Engine, id: nat, c: Chain)
    requires Mirrors(e, id, c)
    ensures Mirror(e, id, c) == e
  {
    assert e.stacks[id := Reversed(c.rest)] == e.stacks;
  }

  lemma MirrorSound(e: Engine, id: nat, c: Chain)
    requires Sound(e) && id < |e.stacks|
    ensures Sound(Mirror(e, id, c)) && Mirror(e, id, c).applyingLevel == e.applyingLevel
  {
  }

  lemma PopMirrors(cfg: Config, e: Engine, id: nat, c: Chain)
    requires Sound(e) && Mirrors(e, id, c) && |c.rest| > 0
    ensures Pop(cfg, e, id) == Success((Mirror(e, id, c.(rest := c.rest[1..])), c.rest[0]))
  {
    ReversedPop(c.rest);
  }

  lemma MirrorQuit(e: Engine, id: nat, c0: Chain, c1: Chain, quits: bool)
    requires id < |e.stacks|
    ensures var e2 := Mirror(Mirror(e, id, c0), id, c1);
            e2.(quit := e2.quit || quits) == Mirror(e, id, c1.(quit := c1.quit || quits))
  {
    MirrorTwice(e, id, c0, c1);
  }

  /** One round of the loop: pop, call, merge, and on to the next round. */
  lemma LoopStep(cfg: Config, e: Engine, id: nat, result: ContinueState, fuel: nat,
                 e1: Engine, h: Holder, e2: Engine, state: Option<ContinueState>)
    requires Sound(e) && id < |e.stacks| && fuel > 0
    requires !(e.ctx.cancelBubble || e.quit || |e.stacks[id]| == 0)
    requires Pop(cfg, e, id) == Success((e1, h))
    requires CallHolder(cfg, e1, h, fuel - 1) == Success((e2, state))
    ensures Sound(e2) && id < |e2.stacks|
    ensures var result' := Merge(result, state);
            CallLoop(cfg, e, id, result, fuel) == CallLoop(cfg, e2.(quit := e2.quit || result' == Quit), id, result', fuel - 1)
  {
  }

  /** One holder's call runs its body as BubbleActions does. */
  lemma HolderBubbles(cfg: Config, e: Engine, id: nat, c: Chain, h: Holder, fuel: nat)
    requires Sound(e) && Mirrors(e, id, c) && BubblingOnly(c.rest, e.applyingLevel)
    requires BubblingActions(ScriptFor(h, e.applyingLevel).actions)
    requires fuel >= 2 * |c.rest| + 2
    ensures var script := ScriptFor(h, e.applyingLevel);
            CallHolder(cfg, e, h, fuel) == Success((Mirror(e, id, BubbleActions(c, e.applyingLevel, script.actions)), script.result))
    decreases |c.rest|, 2, 0
  {
    RunActionsBubbles(cfg, e, id, c, ScriptFor(h, e.applyingLevel).actions, None, fuel);
  }

  /** A handler body run by the engine ends as BubbleActions does. */
  lemma {:induction false} RunActionsBubbles(cfg: Config, e: Engine, id: nat, c: Chain, actions: seq<Action>,
                                             element: Option<Node>, fuel: nat)
    requires Sound(e) && Mirrors(e, id, c) && BubblingOnly(c.rest, e.applyingLevel) && BubblingActions(actions)
    requires fuel >= 2 * |c.rest| + 2
    ensures id < |e.stacks| &&
            RunActions(cfg, e, actions, element, fuel) == Success(Mirror(e, id, BubbleActions(c, e.applyingLevel, actions)))
    decreases |c.rest|, 1, |actions|
  {
    var level := e.applyingLevel;
    if |actions| == 0 {
      MirrorSame(e, id, c);
    } else {
      assert BubblingActions(actions[1..]) by {
        assert forall k :: 0 <= k < |actions[1..]| ==> actions[1..][k] == actions[k + 1];
      }
      var c1 := BubbleAction(c, level, actions[0]);
      var e1 := Mirror(e, id, c1);
      ActionBubbles(cfg, e, id, c, actions[0], element, fuel);
      MirrorSound(e, id, c1);
      assert RunActions(cfg, e, actions, element, fuel) == RunActions(cfg, e1, actions[1..], element, fuel);
      RunActionsBubbles(cfg, e1, id, c1, actions[1..], element, fuel);
      MirrorTwice(e, id, c1, BubbleActions(c1, level, actions[1..]));
    }
  }

  /** One action run by the engine ends as BubbleAction does. */
  lemma {:induction false} ActionBubbles(cfg: Config, e: Engine, id: nat, c: Chain, a: Action, element: Option<Node>, fuel: nat)
    requires Sound(e) && Mirrors(e, id, c) && BubblingOnly(c.rest, e.applyingLevel)
    requires a.Mark? || a.CancelNext? || a.CallNext?
    requires fuel >= 2 * |c.rest| + 2
    ensures id < |e.stacks| &&
            RunAction(cfg, e, a, element, fuel) == Success((Mirror(e, id, BubbleAction(c, e.applyingLevel, a)), element))
    decreases |c.rest|, 0, 4
  {
    if a.CallNext? {
      CallNextBubbles(cfg, e, id, c, element, fuel);
      assert RunAction(cfg, e, a, element, fuel) == CallNextAction(cfg, e, element, fuel);
    } else {
      MirrorSame(e, id, c);
      assert e.stacks[id := Reversed(c.rest)] == e.stacks;
    }
  }

  /** callNext runs the rest of the chain on the same stack and then cancels it. */
  lemma {:induction false} CallNextBubbles(cfg: Config, e: Engine, id: nat, c: Chain, element: Option<Node>, fuel: nat)
    requires Sound(e) && Mirrors(e, id, c) && BubblingOnly(c.rest, e.applyingLevel)
    requires fuel >= 2 * |c.rest| + 2
    ensures id < |e.stacks| &&
            CallNextAction(cfg, e, element, fuel) == Success((Mirror(e, id, BubbleAction(c, e.applyingLevel, CallNext)), element))
    decreases |c.rest|, 0, 3
  {
    StackBubbles(cfg, e, id, c, fuel - 1);
    MirrorCancel(e, id, Bubble(c.(cancelled := false), e.applyingLevel, Continue).0);
  }

  /** callStack on the chain's own stack runs the chain, no longer cancelled, as Bubble does. */
  lemma {:induction false} StackBubbles(cfg: Config, e: Engine, id: nat, c: Chain, fuel: nat)
    requires Sound(e) && Mirrors(e, id, c) && BubblingOnly(c.rest, e.applyingLevel)
    requires fuel > 2 * |c.rest|
    ensures var b := Bubble(c.(cancelled := false), e.applyingLevel, Continue);
            CallStack(cfg, e, id, fuel) == Success((Mirror(e, id, b.0), b.1))
    decreases |c.rest|, 0, 2
  {
    var c0 := c.(cancelled := false);
    var e0 := e.(ctx := e.ctx.(callStack := Some(id), cancelBubble := false));
    assert e0 == Mirror(e, id, c0) by {
      assert e.stacks[id := Reversed(c.rest)] == e.stacks;
    }
    MirrorSound(e, id, c0);
    CallLoopBubbles(cfg, e0, id, c0, Continue, fuel);
    MirrorTwice(e, id, c0, Bubble(c0, e.applyingLevel, Continue).0);
  }

  lemma MirrorCancel(e: Engine, id: nat, c: Chain)
    requires id < |e.stacks|
    ensures var m := Mirror(e, id, c);
            m.(ctx := m.ctx.(cancelBubble := true)) == Mirror(e, id, c.(cancelled := true))
  {
  }

  lemma SortedBubbling(holders: seq<Holder>, level: int)
    requires BubblingOnly(holders, level)
    ensures BubblingOnly(PrioritySorted(holders), level) && |PrioritySorted(holders)| == |holders|
  {
    PrioritySortedFacts(holders, 0);
    var sorted := PrioritySorted(holders);
    forall i | 0 <= i < |sorted| ensures BubblingActions(ScriptFor(sorted[i], level).actions) {
      assert sorted[i] in multiset(sorted);
      assert sorted[i] in multiset(holders);
      var j :| 0 <= j < |holders| && holders[j] == sorted[i];
    }
  }

  /**
   * callAll on holders whose bodies only record, cancel and call next:
   * a new stack is made and the context's field refers to it, the holders
   * come off it in priority order as Bubble runs them, and nothing else in
   * the engine changes.
   */
  lemma CallAllBubbles(cfg: Config, e: Engine, holders: seq<Holder>, fuel: nat)
    requires Sound(e) && BubblingOnly(holders, e.applyingLevel)
    requires fuel > 2 * |holders|
    ensures BubblingOnly(PrioritySorted(holders), e.applyingLevel)
    ensures var b := Bubble(Chain(PrioritySorted(holders), false, e.quit, e.cargo), e.applyingLevel, Continue);
            var id := |e.stacks|;
            CallAll(cfg, e, holders, fuel) ==
              Success((e.(stacks := e.stacks + [Reversed(b.0.rest)],
                          ctx := e.ctx.(callStack := Some(id), cancelBubble := b.0.cancelled),
                          quit := b.0.quit, cargo := b.0.marks), b.1))
  {
    SortedBubbling(holders, e.applyingLevel);
    var sorted := PrioritySorted(holders);
    var id := |e.stacks|;
    var e1 := e.(stacks := e.stacks + [Reversed(sorted)]);
    var e2 := e1.(ctx := e1.ctx.(callStack := Some(id), cancelBubble := false));
    var c := Chain(sorted, false, e.quit, e.cargo);
    assert Mirrors(e2, id, c);
    CallLoopBubbles(cfg, e2, id, c, Continue, fuel);
    var b := Bubble(c, e.applyingLevel, Continue);
    assert e2.stacks[id := Reversed(b.0.rest)] == e.stacks + [Reversed(b.0.rest)];
  }
}
