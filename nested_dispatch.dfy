/**
 * A handler that applies nodes runs a nested dispatch, and every handler
 * chain of that dispatch goes through callAll, which makes a new stack and
 * points the context's callStack field at it.  When the handler returns,
 * the field still points at the nested stack, and the loop of callStack
 * that called the handler pops the field's stack while it tests its own.
 *
 * The case worked out here: two start-document handlers, at priorities
 * 20 and 10.  The first applies a single comment; no comment handler is
 * registered, so the nested dispatch makes one empty stack.  As written,
 * the outer loop then pops that empty stack and the transform fails with
 * an EmptyStackException; popping the stack it was given, it calls the
 * second handler.
 */
module NestedDispatch {
  import opened Wrappers
  import opened QNames
  import opened Nodes
  import opened Events
  import opened WriterCalls
  import opened SimpleWriters
  import opened Handlers
  import opened PathMaps
  import ApplyReaders
  import opened Readers
  import opened ContextStates
  import opened Dispatch
  import opened Bubbling

  function Applied(t: string): Node
  {
    CommentNode(t)
  }

  /** The handler at 20 applies the comment and returns null; the one at 10 records [2]. */
  function ApplyThenMark(t: string): seq<Holder>
  {
    [Holder(1, 20, "", Handler(Script([Apply(Literal([Applied(t)]))], None), Script([Apply(Literal([Applied(t)]))], None))),
     Holder(2, 10, "", Handler(Script([Mark(2)], None), Script([Mark(2)], None)))]
  }

  /** What the nested dispatch changes: one more stack, empty, and the field pointing at it. */
  ghost predicate NestedStack(e: Engine, e': Engine)
  {
    Sound(e') && e'.stacks == e.stacks + [[]] && e'.ctx.callStack == Some(|e.stacks|) && !e'.ctx.cancelBubble &&
    e'.quit == e.quit && e'.cargo == e.cargo && e'.readerStack == e.readerStack && e'.applyingLevel == e.applyingLevel
  }

  /** The engine after the nested dispatch, back on the reader it started from. */
  ghost predicate AfterNested(e: Engine, e': Engine)
  {
    NestedStack(e, e') && e'.reader == e.reader
  }

  lemma LookupNothing(w: string, path: seq<QName>)
    requires |path| > 0
    ensures Lookup(map[], w, path) == []
  {
    var m: map<NameKey, Trie> := map[];
    var i := |path| - 1;
    var q := path[i];
    assert GatherAt(m, q.Key(), path, i, []) == [];
    if i > 0 {
      assert GatherAt(m, NameKey(q.namespaceURI, w), path, i, []) == [];
      assert GatherAt(m, NameKey("", w), path, i, []) == [];
    }
    assert Gather(m, w, path, i, []) == [];
  }

  /** The replay reader over the one comment: one event, then nothing. */
  lemma ReplayOneComment(t: string)
    ensures ApplyReaders.Open([Applied(t)]).Success?
    ensures var c := ApplyReaders.Open([Applied(t)]).value;
            Readers.Valid(Replay(c)) && HasNext(Replay(c)) && Next(Replay(c)).Success? &&
            var r := Next(Replay(c)).value;
            Readers.Valid(r) && Current(r) == Some(CommentEvent(t)) && !HasNext(r)
  {
    var st := ApplyReaders.FlatState([Applied(t)], 0, false, []);
    assert [] + [Applied(t)] == [Applied(t)];
    assert ApplyReaders.FlattenNode(ApplyReaders.NoNodes, Applied(t)) == Success(st);
    assert [Applied(t)][1..] == [];
    assert ApplyReaders.FlattenNodes(st, []) == Success(st);
    assert ApplyReaders.FlattenNodes(ApplyReaders.NoNodes, [Applied(t)]) == Success(st);
    var flat: ApplyReaders.FlatNodes := [Applied(t)];
    assert ApplyReaders.Flatten([Applied(t)]) == Success(flat);
    var c := ApplyReaders.NewCursor(flat);
    assert ApplyReaders.Open([Applied(t)]) == Success(c);
    assert ApplyReaders.Advance(c) == Success(c.(position := 0, current := Some(CommentEvent(t))));
  }

  /** initializeForEventHandler at a comment: a !comment() entry on the path, the comment as the text override. */
  lemma CommentInitialized(t: string, cfg: Config, e: Engine)
    requires Sound(e) && Current(e.reader) == Some(CommentEvent(t))
    ensures Initialize(cfg, e, Comment, -1).Success?
    ensures var e1 := Initialize(cfg, e, Comment, -1).value;
            e1 == e.(ctx := e1.ctx) && |e1.ctx.path| > 0 && |e1.ctx.indexers| > 0 &&
            (e1.ctx.trackPathAttributes ==> |e1.ctx.pathAttributes| > 0) &&
            e1.ctx.overrides.text == Some(t) && e1.ctx.callStack == e.ctx.callStack
  {
    var base := e.ctx.(eventType := Some(Comment), index := -1, overrides := NoOverrides);
    assert Events.GetText(Some(CommentEvent(t))) == Success(Some(t));
    assert ReaderTextPushed(base, Some(CommentEvent(t)), "!comment()").Success?;
    var init := InitializeForEvent(e.ctx, Comment, -1, e.reader, cfg.resolver);
    assert init == ReaderTextPushed(base, Some(CommentEvent(t)), "!comment()");
    var pushed := PathPushed(base, Local("!comment()"), []);
    assert init.value.0 == pushed.(overrides := NoOverrides.(text := Some(t)));
    assert init.value.1.None?;
    assert Initialize(cfg, e, Comment, -1) == Success(e.(ctx := init.value.0));
  }

  /** callAll with no handlers: a new, empty stack that the field now refers to, and CONTINUE. */
  lemma EmptyChain(cfg: Config, e: Engine, fuel: nat)
    requires Sound(e)
    ensures CallAll(cfg, e, [], fuel) ==
            Success((e.(stacks := e.stacks + [[]], ctx := e.ctx.(callStack := Some(|e.stacks|), cancelBubble := false)), Continue))
  {
    PrioritySortedIdempotent([]);
    assert Reversed(PrioritySorted([])) == [];
    var e2 := e.(stacks := e.stacks + [[]]);
    var e3 := e2.(ctx := e2.ctx.(callStack := Some(|e.stacks|), cancelBubble := false));
    assert CallLoop(cfg, e3, |e.stacks|, Continue, fuel) == Success((e3, Continue));
    assert CallStack(cfg, e2, |e.stacks|, fuel) == Success((e3, Continue));
  }

  /** handleComment with no comment handlers: the chain is a new, empty stack. */
  lemma CommentWithoutHandlers(t: string, cfg: Config, e: Engine, fuel: nat)
    requires Sound(e) && cfg.registry.comment == map[]
    requires Current(e.reader) == Some(CommentEvent(t))
    ensures HandleComment(cfg, e, fuel).Success?
    ensures AfterNested(e, HandleComment(cfg, e, fuel).value)
  {
    CommentInitialized(t, cfg, e);
    var e1 := Initialize(cfg, e, Comment, -1).value;
    LookupNothing(SettingsFor(CommentType).wildcard, e1.ctx.path);
    assert HoldersAt(e1, map[], CommentType) == [];
    EmptyChain(cfg, e1, fuel);
    var e3 := e1.(stacks := e1.stacks + [[]], ctx := e1.ctx.(callStack := Some(|e.stacks|), cancelBubble := false));
    var e4 := ContentWrite(e3, Continue, Some(t), s => WriteComment(s));
    assert e4.Success? && e4.value.(writer := e3.writer) == e3;
    var e5 := PopPath(e4.value);
    assert e5.Success?;
    assert HandleComment(cfg, e, fuel) == e5;
  }

  /** The switch at a comment goes to handleComment, which makes the one empty stack. */
  lemma CommentDispatched(t: string, cfg: Config, e: Engine, fuel: nat)
    requires Sound(e) && cfg.registry.comment == map[] && Current(e.reader) == Some(CommentEvent(t))
    ensures HandleEvent(cfg, e, fuel).Success? && AfterNested(e, HandleEvent(cfg, e, fuel).value)
  {
    assert HandleEvent(cfg, e, fuel) == HandleComment(cfg, e, fuel);
    CommentWithoutHandlers(t, cfg, e, fuel);
  }

  /** The loop over the replay reader: one event, handled, and the reader has nothing more. */
  lemma LoopOnce(cfg: Config, e: Engine, fuel: nat, r: Reader, e': Engine)
    requires Sound(e) && !e.quit && HasNext(e.reader) && fuel >= 1
    requires Next(e.reader) == Success(r) && Current(r).Some?
    requires HandleEvent(cfg, e.(reader := r), fuel - 1) == Success(e') && !HasNext(e'.reader)
    ensures Loop(cfg, e, fuel) == Success(e')
  {
    assert Loop(cfg, e', fuel - 1) == Success(e');
  }

  /** A reader with one comment still to come: the loop handles it and stops. */
  lemma NestedLoop(t: string, cfg: Config, e: Engine, fuel: nat)
    requires Sound(e) && cfg.registry.comment == map[] && !e.quit && fuel >= 1
    requires HasNext(e.reader) && Next(e.reader).Success? && Current(Next(e.reader).value) == Some(CommentEvent(t))
    requires !HasNext(Next(e.reader).value)
    ensures Loop(cfg, e, fuel).Success? && NestedStack(e, Loop(cfg, e, fuel).value)
  {
    var r := Next(e.reader).value;
    var e2 := e.(reader := r);
    CommentDispatched(t, cfg, e2, fuel - 1);
    var e' := HandleEvent(cfg, e2, fuel - 1).value;
    LoopOnce(cfg, e, fuel, r, e');
    AfterNestedOnReader(e, r, e');
  }

  /** What the nested dispatch leaves on an engine moved to another reader, it leaves on the engine itself. */
  lemma AfterNestedOnReader(e: Engine, r: Reader, e': Engine)
    requires AfterNested(e.(reader := r), e')
    ensures NestedStack(e, e')
  {
  }

  /** apply(comment) from a handler: the nested dispatch leaves the field on its own, empty stack. */
  lemma ApplyComment(t: string, cfg: Config, e: Engine, nodes: seq<Node>, fuel: nat)
    requires Sound(e) && cfg.registry.comment == map[] && !e.quit && fuel >= 1 && nodes == [Applied(t)]
    ensures ApplyNodes(cfg, e, nodes, fuel).Success?
    ensures AfterNested(e, ApplyNodes(cfg, e, nodes, fuel).value)
  {
    ReplayOneComment(t);
    NestedLoop(t, cfg, Entered(e, ApplyReaders.Open(nodes).value), fuel);
  }

  /** apply(nodes) of literal nodes: the nested dispatch, and the element is unchanged. */
  lemma ApplyActionStep(cfg: Config, e: Engine, nodes: seq<Node>, f: nat, e2: Engine)
    requires Sound(e) && ApplyNodes(cfg, e, nodes, f) == Success(e2)
    ensures ApplyAction(cfg, e, Literal(nodes), None, f + 1) == Success((e2, None))
  {
  }

  /** The apply action of a handler body is ApplyAction. */
  lemma ApplyDispatched(cfg: Config, e: Engine, nodes: seq<Node>, fuel: nat, r: Result<(Engine, Option<Node>)>)
    requires Sound(e) && ApplyAction(cfg, e, Literal(nodes), None, fuel) == r
    ensures RunAction(cfg, e, Apply(Literal(nodes)), None, fuel) == r
  {
  }

  /** A handler body of one action. */
  lemma SingleAction(cfg: Config, e: Engine, a: Action, fuel: nat, done: (Engine, Option<Node>))
    requires Sound(e) && RunAction(cfg, e, a, None, fuel) == Success(done)
    ensures RunActions(cfg, e, [a], None, fuel) == Success(done.0)
  {
    assert [a][1..] == [];
  }

  /** The handler at 20: its one action is the apply, and it returns null. */
  lemma ApplyingHandler(t: string, cfg: Config, e: Engine, f: nat) returns (e2: Engine)
    requires Sound(e) && cfg.registry.comment == map[] && !e.quit && f >= 1
    ensures CallHolder(cfg, e, ApplyThenMark(t)[0], f + 1) == Success((e2, None)) && AfterNested(e, e2)
  {
    ApplyComment(t, cfg, e, [Applied(t)], f);
    e2 := ApplyNodes(cfg, e, [Applied(t)], f).value;
    ApplyingHandlerRuns(t, cfg, e, f, e2);
  }

  /** The applying handler's call is the nested dispatch of its one node, returning null. */
  lemma ApplyingHandlerRuns(t: string, cfg: Config, e: Engine, f: nat, e2: Engine)
    requires Sound(e) && ApplyNodes(cfg, e, [Applied(t)], f) == Success(e2)
    ensures CallHolder(cfg, e, ApplyThenMark(t)[0], f + 1) == Success((e2, None))
  {
    var nodes := [Applied(t)];
    assert ScriptFor(ApplyThenMark(t)[0], e.applyingLevel) == Script([Apply(Literal(nodes))], None);
    ApplyBody(cfg, e, nodes, f, e2);
    HolderRuns(cfg, e, ApplyThenMark(t)[0], f + 1, e2);
  }

  /** A handler body that is one apply of literal nodes ends where the nested dispatch ends. */
  lemma ApplyBody(cfg: Config, e: Engine, nodes: seq<Node>, f: nat, e2: Engine)
    requires Sound(e) && ApplyNodes(cfg, e, nodes, f) == Success(e2)
    ensures RunActions(cfg, e, [Apply(Literal(nodes))], None, f + 1) == Success(e2)
  {
    ApplyActionStep(cfg, e, nodes, f, e2);
    ApplyDispatched(cfg, e, nodes, f + 1, Success((e2, None)));
    SingleAction(cfg, e, Apply(Literal(nodes)), f + 1, (e2, None));
  }

  /** A holder's call is its body for the current level, and then the body's return value. */
  lemma HolderRuns(cfg: Config, e: Engine, h: Holder, fuel: nat, e2: Engine)
    requires Sound(e) && RunActions(cfg, e, ScriptFor(h, e.applyingLevel).actions, None, fuel) == Success(e2)
    ensures CallHolder(cfg, e, h, fuel) == Success((e2, ScriptFor(h, e.applyingLevel).result))
  {
  }

  /** callAll on the two handlers: their stack, with the one at 20 on top, and the field pointing at it. */
  lemma ChainOpened(t: string, cfg: Config, e: Engine, fuel: nat)
    requires Sound(e)
    ensures var k := |e.stacks|;
            CallAll(cfg, e, ApplyThenMark(t), fuel) ==
            CallLoop(cfg, e.(stacks := e.stacks + [[ApplyThenMark(t)[1], ApplyThenMark(t)[0]]],
                             ctx := e.ctx.(callStack := Some(k), cancelBubble := false)), k, Continue, fuel)
  {
    PrioritySortedIdempotent(ApplyThenMark(t));
    assert Reversed(ApplyThenMark(t)) == [ApplyThenMark(t)[1], ApplyThenMark(t)[0]];
  }

  /**
   * The first round of the start-document chain: the handler at 20 is
   * popped and runs its apply; the loop goes on from the engine the nested
   * dispatch left, with the handler at 10 still on the chain's own stack.
   */
  lemma FirstRound(t: string, cfg: Config, e: Engine, fuel: nat)
    requires Sound(e) && cfg.registry.comment == map[] && !e.quit && fuel >= 3
    ensures var k := |e.stacks|;
            var e1 := e.(stacks := e.stacks + [[ApplyThenMark(t)[1]]], ctx := e.ctx.(callStack := Some(k), cancelBubble := false));
            CallHolder(cfg, e1, ApplyThenMark(t)[0], fuel - 1).Success? &&
            var after := CallHolder(cfg, e1, ApplyThenMark(t)[0], fuel - 1).value.0;
            AfterNested(e1, after) &&
            CallAll(cfg, e, ApplyThenMark(t), fuel) == CallLoop(cfg, after, k, Continue, fuel - 1)
  {
    var k := |e.stacks|;
    var e0 := e.(stacks := e.stacks + [[ApplyThenMark(t)[1], ApplyThenMark(t)[0]]], ctx := e.ctx.(callStack := Some(k), cancelBubble := false));
    var e1 := e.(stacks := e.stacks + [[ApplyThenMark(t)[1]]], ctx := e.ctx.(callStack := Some(k), cancelBubble := false));
    ChainOpened(t, cfg, e, fuel);
    assert e0.stacks[k][..1] == [ApplyThenMark(t)[1]];
    assert e0.stacks[k := [ApplyThenMark(t)[1]]] == e1.stacks;
    assert Pop(cfg, e0, k) == Success((e1, ApplyThenMark(t)[0]));
    var e2 := ApplyingHandler(t, cfg, e1, fuel - 2);
    var called := CallHolder(cfg, e1, ApplyThenMark(t)[0], fuel - 1);
    LoopStep(cfg, e0, k, Continue, fuel, e1, ApplyThenMark(t)[0], called.value.0, None);
    assert called.value.0.(quit := called.value.0.quit || Merge(Continue, None) == Quit) == called.value.0;
  }

  /**
   * As written: once the handler at 20 has applied the comment, callStack
   * pops the nested stack the field now refers to, which is empty, and the
   * chain fails with EmptyStack although the handler at 10 is still on its
   * own stack.
   */
  lemma FieldPopFails(t: string, cfg: Config, e: Engine, fuel: nat)
    requires Sound(e) && cfg.popsField && cfg.registry.comment == map[] && !e.quit && fuel >= 3
    ensures CallAll(cfg, e, ApplyThenMark(t), fuel) == Failure(EmptyStack)
  {
    FirstRound(t, cfg, e, fuel);
  }

  /** Popping the stack it was given, the chain goes on to the handler at 10, which records [2]. */
  lemma OwnStackPopContinues(t: string, cfg: Config, e: Engine, fuel: nat)
    requires Sound(e) && !cfg.popsField && cfg.registry.comment == map[] && !e.quit && fuel >= 3
    ensures CallAll(cfg, e, ApplyThenMark(t), fuel).Success?
    ensures CallAll(cfg, e, ApplyThenMark(t), fuel).value.0.cargo == e.cargo + [2]
    ensures CallAll(cfg, e, ApplyThenMark(t), fuel).value.1 == Continue
  {
    FirstRound(t, cfg, e, fuel);
    var k := |e.stacks|;
    var e1 := e.(stacks := e.stacks + [[ApplyThenMark(t)[1]]], ctx := e.ctx.(callStack := Some(k), cancelBubble := false));
    var e2 := CallHolder(cfg, e1, ApplyThenMark(t)[0], fuel - 1).value.0;
    var e3 := e2.(stacks := e2.stacks[k := []]);
    assert Pop(cfg, e2, k) == Success((e3, ApplyThenMark(t)[1]));
    var e4 := e3.(cargo := e3.cargo + [2]);
    assert ScriptFor(ApplyThenMark(t)[1], e3.applyingLevel) == Script([Mark(2)], None);
    assert [Mark(2)][1..] == [];
    assert RunActions(cfg, e3, [Mark(2)], None, fuel - 2) == Success(e4);
    assert CallHolder(cfg, e3, ApplyThenMark(t)[1], fuel - 2) == Success((e4, None));
    LoopStep(cfg, e2, k, Continue, fuel - 1, e3, ApplyThenMark(t)[1], e4, None);
    assert CallLoop(cfg, e4, k, Continue, fuel - 2) == Success((e4, Continue));
  }
}
