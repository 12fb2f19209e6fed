/**
 * Concrete runs of the dispatch: the three call-order scenarios of the
 * start-document handlers at priorities 30, 20 and 10
 * (TransformerBubblingTests), each worked out on the chain reference and
 * carried over to the engine by Bubbling.CallAllBubbles.
 */
module Scenarios {
  import opened Wrappers
  import opened Nodes
  import opened Events
  import opened SimpleWriters
  import opened Handlers
  import opened ContextStates
  import opened Dispatch
  import opened Bubbling

  /** A lambda handler: the same body whether reading or applying, returning null. */
  function Lambda(actions: seq<Action>): Handler
  {
    Handler(Script(actions, None), Script(actions, None))
  }

  /** Three start-document handlers at priorities 30, 20 and 10, registered in that order. */
  function ThreeHandlers(first: seq<Action>, second: seq<Action>, third: seq<Action>): seq<Holder>
  {
    [Holder(1, 30, "", Lambda(first)), Holder(2, 20, "", Lambda(second)), Holder(3, 10, "", Lambda(third))]
  }

  /** testOptimusCancelBubble: [1], then [2] and cancelNext, then [3] and callNext. */
  const CancelBubble := ThreeHandlers([Mark(1)], [Mark(2), CancelNext], [Mark(3), CallNext])

  /** testOptimusCallNext: [1], then [3] and callNext, then [2] and cancelNext. */
  const CallNextMiddle := ThreeHandlers([Mark(1)], [Mark(3), CallNext], [Mark(2), CancelNext])

  /** testOptimusCallNext2: [3] and callNext, then [2] and cancelNext, then [1]. */
  const CallNextFirst := ThreeHandlers([Mark(3), CallNext], [Mark(2), CancelNext], [Mark(1)])

  lemma ThreeSorted(first: seq<Action>, second: seq<Action>, third: seq<Action>)
    ensures PrioritySorted(ThreeHandlers(first, second, third)) == ThreeHandlers(first, second, third)
  {
    PrioritySortedIdempotent(ThreeHandlers(first, second, third));
  }

  /** The chain at the start of the document: nothing recorded, nothing cancelled, not quitting. */
  function Fresh(l: seq<Holder>): Chain
  {
    Chain(l, false, false, [])
  }

  lemma OneAction(c: Chain, a: Action)
    requires BubblingOnly(c.rest, 0) && (a.Mark? || a.CancelNext? || a.CallNext?)
    ensures BubbleActions(c, 0, [a]) == BubbleAction(c, 0, a)
  {
    assert [a][1..] == [];
  }

  lemma TwoActions(c: Chain, a: Action, b: Action)
    requires BubblingOnly(c.rest, 0) && (a.Mark? || a.CancelNext? || a.CallNext?) && (b.Mark? || b.CancelNext? || b.CallNext?)
    ensures BubbleActions(c, 0, [a, b]) == BubbleActions(BubbleAction(c, 0, a), 0, [b])
  {
    assert [a, b][1..] == [b];
  }

  lemma Tails(l: seq<Holder>)
    requires |l| == 3
    ensures l[1..][1..] == l[2..] && l[2..][1..] == [] && l[1..][0] == l[1] && l[2..][0] == l[2]
  {
  }

  /** Three lambdas made of recording, cancelNext and callNext run only those actions. */
  lemma ThreeBubbling(first: seq<Action>, second: seq<Action>, third: seq<Action>)
    requires BubblingActions(first) && BubblingActions(second) && BubblingActions(third)
    ensures BubblingOnly(ThreeHandlers(first, second, third), 0)
  {
    var l := ThreeHandlers(first, second, third);
    assert ScriptFor(l[0], 0) == Script(first, None);
    assert ScriptFor(l[1], 0) == Script(second, None);
    assert ScriptFor(l[2], 0) == Script(third, None);
  }

  /** A round whose handler records tag and returns null: the chain goes on with tag recorded. */
  lemma MarkRound(c: Chain, tag: nat)
    requires BubblingOnly(c.rest, 0) && !c.cancelled && !c.quit && |c.rest| > 0
    requires ScriptFor(c.rest[0], 0) == Script([Mark(tag)], None)
    ensures BubblingOnly(c.rest[1..], 0)
    ensures Bubble(c, 0, Continue) == Bubble(Chain(c.rest[1..], false, false, c.marks + [tag]), 0, Continue)
  {
    BubbleRound(c, 0, Continue);
    OneAction(c.(rest := c.rest[1..]), Mark(tag));
  }

  /** A round whose handler records tag and calls cancelNext: the chain stops after it. */
  lemma MarkCancelRound(c: Chain, tag: nat)
    requires BubblingOnly(c.rest, 0) && !c.cancelled && !c.quit && |c.rest| > 0
    requires ScriptFor(c.rest[0], 0) == Script([Mark(tag), CancelNext], None)
    ensures Bubble(c, 0, Continue) == (Chain(c.rest[1..], true, false, c.marks + [tag]), Continue)
  {
    BubbleRound(c, 0, Continue);
    var c0 := c.(rest := c.rest[1..]);
    TwoActions(c0, Mark(tag), CancelNext);
    OneAction(c0.(marks := c.marks + [tag]), CancelNext);
  }

  /**
   * A round whose handler records tag and calls callNext: the rest of the
   * chain runs inside it, and the chain is cancelled when it returns.
   */
  lemma MarkCallNextRound(c: Chain, tag: nat)
    requires BubblingOnly(c.rest, 0) && !c.cancelled && !c.quit && |c.rest| > 0
    requires ScriptFor(c.rest[0], 0) == Script([Mark(tag), CallNext], None)
    ensures BubblingOnly(c.rest[1..], 0)
    ensures Bubble(c, 0, Continue) ==
            (Bubble(Chain(c.rest[1..], false, false, c.marks + [tag]), 0, Continue).0.(cancelled := true), Continue)
  {
    BubbleRound(c, 0, Continue);
    var c0 := c.(rest := c.rest[1..]);
    TwoActions(c0, Mark(tag), CallNext);
    var marked := c0.(marks := c.marks + [tag]);
    OneAction(marked, CallNext);
    assert marked.(cancelled := false) == Chain(c.rest[1..], false, false, c.marks + [tag]);
  }

  lemma CancelBubbleChain()
    ensures BubblingOnly(CancelBubble, 0)
    ensures Bubble(Fresh(CancelBubble), 0, Continue).0.marks == [1, 2]
  {
    var l := CancelBubble;
    ThreeBubbling([Mark(1)], [Mark(2), CancelNext], [Mark(3), CallNext]);
    Tails(l);
    assert ScriptFor(l[0], 0) == Script([Mark(1)], None);
    assert ScriptFor(l[1], 0) == Script([Mark(2), CancelNext], None);
    // [1] from the handler at 30, then [2] and cancelNext from the one at 20
    assert [] + [1] == [1] && [1] + [2] == [1, 2];
    MarkRound(Fresh(l), 1);
    assert Bubble(Fresh(l), 0, Continue) == Bubble(Chain(l[1..], false, false, [1]), 0, Continue);
    MarkCancelRound(Chain(l[1..], false, false, [1]), 2);
    assert Bubble(Chain(l[1..], false, false, [1]), 0, Continue).0.marks == [1, 2];
  }

  lemma CallNextMiddleChain()
    ensures BubblingOnly(CallNextMiddle, 0)
    ensures Bubble(Fresh(CallNextMiddle), 0, Continue).0.marks == [1, 3, 2]
  {
    var l := CallNextMiddle;
    ThreeBubbling([Mark(1)], [Mark(3), CallNext], [Mark(2), CancelNext]);
    Tails(l);
    assert ScriptFor(l[0], 0) == Script([Mark(1)], None);
    assert ScriptFor(l[1], 0) == Script([Mark(3), CallNext], None);
    assert ScriptFor(l[2], 0) == Script([Mark(2), CancelNext], None);
    assert [] + [1] == [1] && [1] + [3] == [1, 3] && [1, 3] + [2] == [1, 3, 2];
    MarkRound(Fresh(l), 1);
    assert Bubble(Fresh(l), 0, Continue) == Bubble(Chain(l[1..], false, false, [1]), 0, Continue);
    // the handler at 20 records [3] and calls the one at 10, which records [2] and cancels
    MarkCallNextRound(Chain(l[1..], false, false, [1]), 3);
    assert Bubble(Chain(l[1..], false, false, [1]), 0, Continue).0.marks ==
           Bubble(Chain(l[2..], false, false, [1, 3]), 0, Continue).0.marks;
    MarkCancelRound(Chain(l[2..], false, false, [1, 3]), 2);
  }

  lemma CallNextFirstChain()
    ensures BubblingOnly(CallNextFirst, 0)
    ensures Bubble(Fresh(CallNextFirst), 0, Continue).0.marks == [3, 2]
  {
    var l := CallNextFirst;
    ThreeBubbling([Mark(3), CallNext], [Mark(2), CancelNext], [Mark(1)]);
    Tails(l);
    assert ScriptFor(l[0], 0) == Script([Mark(3), CallNext], None);
    assert ScriptFor(l[1], 0) == Script([Mark(2), CancelNext], None);
    // the handler at 30 records [3] and calls the one at 20, which records [2] and cancels
    assert [] + [3] == [3] && [3] + [2] == [3, 2];
    MarkCallNextRound(Fresh(l), 3);
    assert Bubble(Fresh(l), 0, Continue).0.marks == Bubble(Chain(l[1..], false, false, [3]), 0, Continue).0.marks;
    MarkCancelRound(Chain(l[1..], false, false, [3]), 2);
  }

  /**
   * handleStartDocument with the given handlers: the cargo is what the
   * chain reference records, and the start-document call-out is the only
   * chain that ran.
   */
  lemma StartDocumentCargo(cfg: Config, events: seq<Event>, writer: WriterState, fuel: nat)
    requires BubblingOnly(cfg.registry.startDocument, 0)
    requires fuel > 2 * |cfg.registry.startDocument|
    ensures BubblingOnly(PrioritySorted(cfg.registry.startDocument), 0)
    ensures HandleStartDocument(cfg, Start(cfg, events, writer), fuel).Success?
    ensures HandleStartDocument(cfg, Start(cfg, events, writer), fuel).value.cargo ==
            Bubble(Fresh(PrioritySorted(cfg.registry.startDocument)), 0, Continue).0.marks
  {
    var h := cfg.registry.startDocument;
    var e0 := Start(cfg, events, writer);
    var e := StartInitialized(cfg, events, writer);
    CallAllBubbles(cfg, e, h, fuel);
    var called := CallAll(cfg, e, h, fuel).value;
    StartDocumentKeepsCargo(cfg, e0, e, called, fuel);
  }

  /** Initialising the context for the start of the document succeeds, with nothing recorded yet. */
  lemma StartInitialized(cfg: Config, events: seq<Event>, writer: WriterState) returns (e: Engine)
    ensures Initialize(cfg, Start(cfg, events, writer), StartDocument, -1) == Success(e)
    ensures Sound(e) && !e.quit && e.cargo == [] && e.applyingLevel == 0
  {
    var e1 := Initialize(cfg, Start(cfg, events, writer), StartDocument, -1);
    assert e1.Success?;
    e := e1.value;
  }

  /** After the start-document chain, handleStartDocument only writes: the cargo is the chain's. */
  lemma StartDocumentKeepsCargo(cfg: Config, e: Engine, e1: Engine, called: (Engine, ContinueState), fuel: nat)
    requires Sound(e) && Initialize(cfg, e, StartDocument, -1) == Success(e1)
    requires CallAll(cfg, e1, cfg.registry.startDocument, fuel) == Success(called)
    ensures HandleStartDocument(cfg, e, fuel).Success?
    ensures HandleStartDocument(cfg, e, fuel).value.cargo == called.0.cargo
  {
  }

  /** testOptimusCancelBubble: [1][2]. */
  lemma CancelBubbleScenario(cfg: Config, events: seq<Event>, writer: WriterState, fuel: nat)
    requires cfg.registry.startDocument == CancelBubble && fuel > 6
    ensures HandleStartDocument(cfg, Start(cfg, events, writer), fuel).Success?
    ensures HandleStartDocument(cfg, Start(cfg, events, writer), fuel).value.cargo == [1, 2]
  {
    CancelBubbleChain();
    ThreeSorted([Mark(1)], [Mark(2), CancelNext], [Mark(3), CallNext]);
    StartDocumentCargo(cfg, events, writer, fuel);
  }

  /** testOptimusCallNext: [1][3][2]. */
  lemma CallNextMiddleScenario(cfg: Config, events: seq<Event>, writer: WriterState, fuel: nat)
    requires cfg.registry.startDocument == CallNextMiddle && fuel > 6
    ensures HandleStartDocument(cfg, Start(cfg, events, writer), fuel).Success?
    ensures HandleStartDocument(cfg, Start(cfg, events, writer), fuel).value.cargo == [1, 3, 2]
  {
    CallNextMiddleChain();
    ThreeSorted([Mark(1)], [Mark(3), CallNext], [Mark(2), CancelNext]);
    StartDocumentCargo(cfg, events, writer, fuel);
  }

  /** testOptimusCallNext2: [3][2]. */
  lemma CallNextFirstScenario(cfg: Config, events: seq<Event>, writer: WriterState, fuel: nat)
    requires cfg.registry.startDocument == CallNextFirst && fuel > 6
    ensures HandleStartDocument(cfg, Start(cfg, events, writer), fuel).Success?
    ensures HandleStartDocument(cfg, Start(cfg, events, writer), fuel).value.cargo == [3, 2]
  {
    CallNextFirstChain();
    ThreeSorted([Mark(3), CallNext], [Mark(2), CancelNext], [Mark(1)]);
    StartDocumentCargo(cfg, events, writer, fuel);
  }
}
