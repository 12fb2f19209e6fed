/**
 * The Transformer's dispatch: doTransform's event loop, one handle* function
 * per event kind, apply(), and the handler chain (callAll, callStack,
 * callNext) through which every handler runs.
 *
 * The transformer, its context, its writer and its readers are one value,
 * Engine, and each step is a function from one Engine to the next (or to
 * the exception that ends the transform).  Handlers may re-enter the
 * dispatch (callNext, apply), so the functions are mutually recursive; a
 * fuel argument bounds the depth of that recursion and the number of loop
 * rounds, and running out of it is the OutOfFuel failure.
 *
 * Java's Stack objects are shared between callStack's parameter and the
 * context's callStack field.  The model keeps every stack callAll creates in
 * a table, Engine.stacks, and both the parameter and the field are indices
 * into it, so a pop through either is seen through both.
 */
module Dispatch {
  import opened Wrappers
  import opened QNames
  import opened Nodes
  import opened Events
  import opened WriterCalls
  import opened SimpleWriters
  import opened Handlers
  import opened PathMaps
  import ApplyReaders
  import opened Readers
  import opened ContextStates

  /** The handlers the transformer was given: a trie per path map, a list per EventHandlerList. */
  datatype Registry = Registry(
    startElement: map<NameKey, Trie>,
    endElement: map<NameKey, Trie>,
    attribute: map<NameKey, Trie>,
    beforeAttributes: map<NameKey, Trie>,
    afterAttributes: map<NameKey, Trie>,
    beforeNamespaces: map<NameKey, Trie>,
    afterNamespaces: map<NameKey, Trie>,
    afterStartElement: map<NameKey, Trie>,
    processingInstruction: map<NameKey, Trie>,
    comment: map<NameKey, Trie>,
    characters: map<NameKey, Trie>,
    cData: map<NameKey, Trie>,
    whitespace: map<NameKey, Trie>,
    startDocument: seq<Holder>,
    endDocument: seq<Holder>,
    entityReference: seq<Holder>,
    namespace: seq<Holder>)

  /** A registry with no handlers at all. */
  const NoHandlers := Registry(map[], map[], map[], map[], map[], map[], map[], map[], map[], map[], map[], map[], map[],
                               [], [], [], [])

  /**
   * The transformer's options.  popsField chooses how callStack pops: true
   * pops the stack the context's callStack field refers to, as the source
   * does; false pops the stack callStack was given.
   */
  datatype Config = Config(
    registry: Registry,
    nested: bool,
    omitXmlDeclaration: bool,
    suppressWhitespace: bool,
    forceNonSelfClosing: bool,
    allowSelfClosing: set<NameKey>,
    resolver: Option<map<string, string>>,
    trackAttributes: bool,
    popsField: bool)

  /** The transformer's state while it runs. */
  datatype Engine = Engine(
    ctx: ContextState,
    writer: WriterState,
    reader: Reader,                   // xmlReader
    readerStack: seq<Reader>,         // applyReadersStack
    applyingLevel: int,
    quit: bool,
    stacks: seq<seq<Holder>>,         // every Stack callAll has made; the top is the end
    cargo: seq<nat>)                  // what the handlers' Mark actions recorded

  /**
   * What holds between steps: the reader can be advanced, the sibling
   * counters agree with the path, and the callStack field names a stack.
   */
  ghost predicate Sound(e: Engine)
  {
    Readers.Valid(e.reader) && Indexed(e.ctx) &&
    (e.ctx.callStack.Some? ==> e.ctx.callStack.value < |e.stacks|)
  }

  /** What every step keeps: soundness, every stack made so far, the saved readers and the applying level. */
  ghost predicate Steps(e: Engine, e': Engine)
  {
    Sound(e') && |e.stacks| <= |e'.stacks| && e'.readerStack == e.readerStack && e'.applyingLevel == e.applyingLevel &&
    (e.quit ==> e'.quit)
  }

  // ---------------------------------------------------------------------
  // Small steps

  function WriteCall(e: Engine, c: XmlCall): (r: Engine)
    ensures r.writer == Perform(e.writer, c) && r.(writer := e.writer) == e
  {
    e.(writer := Perform(e.writer, c))
  }

  /** context.initializeForEventHandler, with the writer call it makes when a start tag declares a default namespace. */
  function Initialize(cfg: Config, e: Engine, t: EventType, index: int): (r: Result<Engine>)
    requires Sound(e)
    ensures r.Success? <==> InitializeForEvent(e.ctx, t, index, e.reader, cfg.resolver).Success?
    ensures r.Success? ==> Steps(e, r.value) && r.value.reader == e.reader && r.value.quit == e.quit
    ensures r.Success? ==> r.value.ctx == InitializeForEvent(e.ctx, t, index, e.reader, cfg.resolver).value.0
    ensures r.Success? ==> r.value.cargo == e.cargo && r.value.stacks == e.stacks
  {
    var init :- InitializeForEvent(e.ctx, t, index, e.reader, cfg.resolver);
    var e1 := e.(ctx := init.0);
    if init.1.Some? then Success(WriteCall(e1, SetDefaultNamespace(init.1.value))) else Success(e1)
  }

  /** context.popPath() */
  function PopPath(e: Engine): (r: Result<Engine>)
    requires Sound(e)
    ensures r.Success? <==> PathPopped(e.ctx).Success?
    ensures r.Success? ==> Steps(e, r.value) && r.value == e.(ctx := PathPopped(e.ctx).value)
  {
    var popped :- PathPopped(e.ctx);
    Success(e.(ctx := popped))
  }

  /** context.popPathElement(), which hands the popped default namespace to the writer. */
  function PopElement(e: Engine): (r: Result<Engine>)
    requires Sound(e)
    ensures r.Success? <==> ElementPopped(e.ctx).Success?
    ensures r.Success? ==> Steps(e, r.value) && r.value.quit == e.quit && r.value.cargo == e.cargo
    ensures r.Success? ==> r.value.ctx == ElementPopped(e.ctx).value.0 &&
                           r.value.writer == Perform(e.writer, SetDefaultNamespace(ElementPopped(e.ctx).value.1))
  {
    var popped :- ElementPopped(e.ctx);
    Success(WriteCall(e.(ctx := popped.0), SetDefaultNamespace(popped.1)))
  }

  /** The holders a path map finds for the context's path; an empty path has no last entry. */
  function HoldersAt(e: Engine, trie: map<NameKey, Trie>, t: NodeType): seq<Holder>
    requires |e.ctx.path| > 0
  {
    Lookup(trie, SettingsFor(t).wildcard, e.ctx.path)
  }

  /** A null override where the writer needs a value. */
  function Required<T>(o: Option<T>): (r: Result<T>)
    ensures r.Success? <==> o.Some?
    ensures r.Success? ==> r.value == o.value
    ensures r.Failure? ==> r.error == NullPointer
  {
    if o.Some? then Success(o.value) else Failure(NullPointer)
  }

  /** How a chain's result so far takes in one handler's: null and CONTINUE leave it as it was. */
  function Merge(result: ContinueState, newState: Option<ContinueState>): (r: ContinueState)
    ensures newState.None? || newState == Some(Continue) ==> r == result
    ensures newState.Some? && newState != Some(Continue) ==> r == newState.value
  {
    if newState.None? || newState.value == Continue then result else newState.value
  }

  /** The script a holder runs: context.isApplying() tells the handler which. */
  function ScriptFor(h: Holder, applyingLevel: int): Script
  {
    if applyingLevel > 0 then h.handler.whenApplying else h.handler.whenReading
  }

  /** The nodes an apply action hands over. */
  function SourceNodes(source: ApplySource, element: Option<Node>): (r: Result<seq<Node>>)
    ensures source.Literal? ==> r == Success(source.nodes)
    ensures !source.Literal? && element.None? ==> r == Failure(NullPointer)
  {
    match source
    case Literal(nodes) => Success(nodes)
    case TheReadElement =>
      if element.None? then Failure(NullPointer) else Success([element.value])
    case ReadElementChildren =>
      if element.None? then Failure(NullPointer)
      else if element.value.ElementNode? then Success(element.value.childNodes) else Success([])
    case ReadElementTextChildren =>
      if element.None? then Failure(NullPointer)
      else if element.value.ElementNode? then Success(TextChildren(element.value.childNodes)) else Success([])
  }

  /** The TEXT nodes among nodes, in their order. */
  function TextChildren(nodes: seq<Node>): (r: seq<Node>)
    ensures forall i :: 0 <= i < |r| ==> r[i].TextNode?
    ensures forall n :: n in r ==> n in nodes
    ensures forall n :: n in nodes && n.TextNode? ==> n in r
    ensures |r| <= |nodes|
  {
    if |nodes| == 0 then []
    else (if nodes[0].TextNode? then [nodes[0]] else []) + TextChildren(nodes[1..])
  }

  // ---------------------------------------------------------------------
  // The handler chain

  /**
   * callAll: the holders sorted by priority become a new stack whose top
   * is the highest priority, and callStack runs it.
   */
  function CallAll(cfg: Config, e: Engine, holders: seq<Holder>, fuel: nat): (r: Result<(Engine, ContinueState)>)
    requires Sound(e)
    ensures r.Success? ==> Steps(e, r.value.0)
    decreases fuel, 2, 0
  {
    CallStack(cfg, e.(stacks := e.stacks + [Reversed(PrioritySorted(holders))]), |e.stacks|, fuel)
  }

  /** callStack(stack): the field now refers to the stack, the chain is not cancelled, and the loop runs. */
  function CallStack(cfg: Config, e: Engine, id: nat, fuel: nat): (r: Result<(Engine, ContinueState)>)
    requires Sound(e) && id < |e.stacks|
    ensures r.Success? ==> Steps(e, r.value.0)
    decreases fuel, 1, 0
  {
    CallLoop(cfg, e.(ctx := e.ctx.(callStack := Some(id), cancelBubble := false)), id, Continue, fuel)
  }

  /**
   * The loop of callStack: it goes on while the chain is not cancelled,
   * the transform has not quit and the stack it was given is not empty.
   * Each round pops a holder, runs it, merges its state into the result and
   * quits the transform once the result is QUIT.
   */
  function CallLoop(cfg: Config, e: Engine, id: nat, result: ContinueState, fuel: nat): (r: Result<(Engine, ContinueState)>)
    requires Sound(e) && id < |e.stacks|
    ensures r.Success? ==> Steps(e, r.value.0)
    ensures r.Success? && (e.ctx.cancelBubble || e.quit || |e.stacks[id]| == 0) ==> r.value == (e, result)
    decreases fuel, 0, 0
  {
    if e.ctx.cancelBubble || e.quit || |e.stacks[id]| == 0 then Success((e, result))
    else if fuel == 0 then Failure(OutOfFuel)
    else
      var popped :- Pop(cfg, e, id);
      var called :- CallHolder(cfg, popped.0, popped.1, fuel - 1);
      var result' := Merge(result, called.1);
      var e' := called.0.(quit := called.0.quit || result' == Quit);
      CallLoop(cfg, e', id, result', fuel - 1)
  }

  /** The pop of callStack's loop, as written or as corrected. */
  function Pop(cfg: Config, e: Engine, id: nat): (r: Result<(Engine, Holder)>)
    requires Sound(e) && id < |e.stacks|
    ensures r.Success? ==> Steps(e, r.value.0)
    ensures e.ctx.callStack == Some(id) ==> r == PopHolder(e, id)
  {
    if cfg.popsField then PopHolderAsWritten(e) else PopHolder(e, id)
  }

  /** callStack.pop() as written: the stack the context's field refers to, whichever that is now. */
  function PopHolderAsWritten(e: Engine): (r: Result<(Engine, Holder)>)
    requires Sound(e)
    ensures e.ctx.callStack.None? ==> r == Failure(NullPointer)
    ensures e.ctx.callStack.Some? ==> (r.Success? <==> |e.stacks[e.ctx.callStack.value]| > 0)
    ensures r.Failure? && e.ctx.callStack.Some? ==> r.error == EmptyStack
    ensures r.Success? ==> Steps(e, r.value.0) && r.value.0 == e.(stacks := r.value.0.stacks) &&
                           var f := e.ctx.callStack.value;
                           r.value.0.stacks == e.stacks[f := e.stacks[f][..|e.stacks[f]| - 1]] &&
                           r.value.1 == e.stacks[f][|e.stacks[f]| - 1]
  {
    if e.ctx.callStack.None? then Failure(NullPointer)
    else
      var f := e.ctx.callStack.value;
      if |e.stacks[f]| == 0 then Failure(EmptyStack)
      else Success((e.(stacks := e.stacks[f := e.stacks[f][..|e.stacks[f]| - 1]]), e.stacks[f][|e.stacks[f]| - 1]))
  }

  /** stack.pop(): the stack the loop was given and tests. */
  function PopHolder(e: Engine, id: nat): (r: Result<(Engine, Holder)>)
    requires Sound(e) && id < |e.stacks|
    ensures r.Success? <==> |e.stacks[id]| > 0
    ensures r.Success? ==> Steps(e, r.value.0) && r.value.0 == e.(stacks := r.value.0.stacks) &&
                           r.value.0.stacks == e.stacks[id := e.stacks[id][..|e.stacks[id]| - 1]] &&
                           r.value.1 == e.stacks[id][|e.stacks[id]| - 1]
  {
    if |e.stacks[id]| == 0 then Failure(EmptyStack)
    else Success((e.(stacks := e.stacks[id := e.stacks[id][..|e.stacks[id]| - 1]]), e.stacks[id][|e.stacks[id]| - 1]))
  }

  /** EventHandlerHolder.call: the handler's script runs, and its state is returned. */
  function CallHolder(cfg: Config, e: Engine, h: Holder, fuel: nat): (r: Result<(Engine, Option<ContinueState>)>)
    requires Sound(e)
    ensures r.Success? ==> Steps(e, r.value.0) && r.value.1 == ScriptFor(h, e.applyingLevel).result
    decreases fuel, 7, 0
  {
    var script := ScriptFor(h, e.applyingLevel);
    var e' :- RunActions(cfg, e, script.actions, None, fuel);
    Success((e', script.result))
  }

  /** A handler body, action by action; element is the handler's local Element variable. */
  function RunActions(cfg: Config, e: Engine, actions: seq<Action>, element: Option<Node>, fuel: nat): (r: Result<Engine>)
    requires Sound(e)
    ensures r.Success? ==> Steps(e, r.value)
    decreases fuel, 6, |actions|
  {
    if |actions| == 0 then Success(e)
    else
      var done :- RunAction(cfg, e, actions[0], element, fuel);
      RunActions(cfg, done.0, actions[1..], done.1, fuel)
  }

  /**
   * One action of a handler body.  callNext runs the rest of the current
   * stack and then cancels it; readElement and apply move the reader.
   */
  function RunAction(cfg: Config, e: Engine, a: Action, element: Option<Node>, fuel: nat): (r: Result<(Engine, Option<Node>)>)
    requires Sound(e)
    ensures r.Success? ==> Steps(e, r.value.0)
    ensures !(a.CallNext? || a.ReadElement? || a.Apply? || a.WriteAttributeValueAs?) ==> r == Success((Effect(e, a), element))
    decreases fuel, 5, 0
  {
    match a
    case CallNext => CallNextAction(cfg, e, element, fuel)
    case WriteAttributeValueAs(name) => WriteAttributeValueAction(e, name, element)
    case ReadElement => ReadElementAction(cfg, e)
    case Apply(source) => ApplyAction(cfg, e, source, element, fuel)
    case _ => Success((Effect(e, a), element))
  }

  /** context.callNext(): the rest of the current stack runs, then the chain is cancelled. */
  function CallNextAction(cfg: Config, e: Engine, element: Option<Node>, fuel: nat): (r: Result<(Engine, Option<Node>)>)
    requires Sound(e)
    ensures r.Success? ==> Steps(e, r.value.0)
    ensures e.ctx.callStack.None? ==> r == Failure(NullPointer)
    decreases fuel, 4, 0
  {
    if e.ctx.callStack.None? then Failure(NullPointer)
    else if fuel == 0 then Failure(OutOfFuel)
    else
      var called :- CallStack(cfg, e, e.ctx.callStack.value, fuel - 1);
      Success((called.0.(ctx := called.0.ctx.(cancelBubble := true)), element))
  }

  /** writer.writeAttribute(name, context.getAttributeValue()): the attribute's value under another name; only at an attribute. */
  function WriteAttributeValueAction(e: Engine, name: QName, element: Option<Node>): (r: Result<(Engine, Option<Node>)>)
    requires Sound(e)
    ensures r.Success? <==> AttributeValueAt(e.ctx, e.reader).Success?
    ensures r.Success? ==> r.value == (WriteCall(e, WriteAttribute(name, AttributeValueAt(e.ctx, e.reader).value)), element)
  {
    var value :- AttributeValueAt(e.ctx, e.reader);
    Success((WriteCall(e, WriteAttribute(name, value)), element))
  }

  /** readElement(): the element is read from the reader, which moves past it. */
  function ReadElementAction(cfg: Config, e: Engine): (r: Result<(Engine, Option<Node>)>)
    requires Sound(e)
    ensures r.Success? ==> Steps(e, r.value.0)
    ensures r.Success? <==> ReadElementAt(e.ctx, e.reader, e.applyingLevel, cfg.resolver).Success?
    ensures r.Success? ==> var read := ReadElementAt(e.ctx, e.reader, e.applyingLevel, cfg.resolver).value;
                           r.value == (e.(ctx := read.0, reader := read.2), Some(read.1))
  {
    var read :- ReadElementAt(e.ctx, e.reader, e.applyingLevel, cfg.resolver);
    Success((e.(ctx := read.0, reader := read.2), Some(read.1)))
  }

  /** apply(...): the nodes the handler names are dispatched; the element is unchanged. */
  function ApplyAction(cfg: Config, e: Engine, source: ApplySource, element: Option<Node>, fuel: nat): (r: Result<(Engine, Option<Node>)>)
    requires Sound(e)
    ensures r.Success? ==> Steps(e, r.value.0) && r.value.1 == element
    decreases fuel, 4, 0
  {
    var nodes :- SourceNodes(source, element);
    if fuel == 0 then Failure(OutOfFuel)
    else
      var applied :- ApplyNodes(cfg, e, nodes, fuel - 1);
      Success((applied, element))
  }

  /** The actions that only record, cancel, write or set an override. */
  function Effect(e: Engine, a: Action): (r: Engine)
    requires Sound(e)
    ensures Steps(e, r) && r.reader == e.reader && r.stacks == e.stacks && r.quit == e.quit
    ensures r.ctx.path == e.ctx.path && r.ctx.callStack == e.ctx.callStack
    ensures a.Mark? ==> r == e.(cargo := e.cargo + [a.tag])
    ensures !a.Mark? ==> r.cargo == e.cargo
    ensures a.CancelNext? ==> r == e.(ctx := e.ctx.(cancelBubble := true))
    ensures !a.CancelNext? ==> r.ctx.cancelBubble == e.ctx.cancelBubble
  {
    match a
    case Mark(tag) => e.(cargo := e.cargo + [tag])
    case CancelNext => e.(ctx := e.ctx.(cancelBubble := true))
    case Write(call) => WriteCall(e, call)
    case WriteNodes(nodes) => e.(writer := PerformAll(e.writer, NodesCalls(nodes)))
    case _ => SetOverrides(e, Overridden(e.ctx.overrides, a))
  }

  /** The context's override setters. */
  function Overridden(o: Overrides, a: Action): Overrides
  {
    match a
    case SetOverrideName(name) => o.(name := Some(name))
    case SetOverrideAttributeValue(value) => o.(attributeValue := Some(value))
    case SetOverrideText(text) => o.(text := Some(text))
    case SetOverridePITarget(target) => o.(piTarget := Some(target))
    case SetOverridePIData(data) => o.(piData := Some(data))
    case SetOverrideNamespacePrefix(prefix) => o.(namespacePrefix := Some(prefix))
    case SetOverrideNamespaceURI(uri) => o.(namespaceURI := Some(uri))
    case _ => o
  }

  function SetOverrides(e: Engine, o: Overrides): (r: Engine)
    requires Sound(e)
    ensures Steps(e, r) && r.ctx.overrides == o && r.(ctx := e.ctx) == e && r.ctx.(overrides := e.ctx.overrides) == e.ctx
  {
    e.(ctx := e.ctx.(overrides := o))
  }

  // ---------------------------------------------------------------------
  // apply and the event loop

  /**
   * apply(nodes): one level deeper, the current reader saved and an
   * ApplyReader over the nodes in its place; the same loop runs over it;
   * then the level and the reader are restored.
   */
  function ApplyNodes(cfg: Config, e: Engine, nodes: seq<Node>, fuel: nat): (r: Result<Engine>)
    requires Sound(e)
    ensures r.Success? ==> Steps(e, r.value) && r.value.reader == e.reader
    ensures ApplyReaders.Open(nodes).Failure? ==> r == Failure(ApplyReaders.Open(nodes).error)
    ensures ApplyReaders.Open(nodes).Success? ==>
      var inner := Loop(cfg, Entered(e, ApplyReaders.Open(nodes).value), fuel);
      (r.Success? <==> inner.Success?) &&
      (r.Success? ==> r.value == inner.value.(applyingLevel := e.applyingLevel, reader := e.reader, readerStack := e.readerStack))
    decreases fuel, 10, 0
  {
    var cursor :- ApplyReaders.Open(nodes);
    var e1 := Entered(e, cursor);
    var e2 :- Loop(cfg, e1, fuel);
    assert Steps(e1, e2);
    assert e2.readerStack == e.readerStack + [e.reader];
    Success(e2.(applyingLevel := e2.applyingLevel - 1, reader := e2.readerStack[|e2.readerStack| - 1],
                readerStack := e2.readerStack[..|e2.readerStack| - 1]))
  }

  /** The engine inside apply(): one level deeper, the current reader saved, the replay reader in its place. */
  function Entered(e: Engine, cursor: ApplyReaders.Cursor): (r: Engine)
    requires Sound(e) && -1 <= cursor.position < |cursor.nodes|
    ensures Sound(r)
    ensures r.readerStack == e.readerStack + [e.reader] && r.reader == Replay(cursor)
    ensures r.(applyingLevel := e.applyingLevel, reader := e.reader, readerStack := e.readerStack) == e
  {
    e.(applyingLevel := e.applyingLevel + 1, readerStack := e.readerStack + [e.reader], reader := Replay(cursor))
  }

  /** while (!quit && xmlReader.hasNext()) { next(); handle the event } */
  function Loop(cfg: Config, e: Engine, fuel: nat): (r: Result<Engine>)
    requires Sound(e)
    ensures r.Success? ==> Steps(e, r.value)
    ensures r.Success? ==> r.value.quit || !HasNext(r.value.reader)
    ensures e.quit || !HasNext(e.reader) ==> r == Success(e)
    decreases fuel, 9, 0
  {
    if e.quit || !HasNext(e.reader) then Success(e)
    else if fuel == 0 then Failure(OutOfFuel)
    else
      var next :- Next(e.reader);
      var e' :- HandleEvent(cfg, e.(reader := next), fuel - 1);
      Loop(cfg, e', fuel - 1)
  }

  /** The switch on the event the reader has just moved to. */
  function HandleEvent(cfg: Config, e: Engine, fuel: nat): (r: Result<Engine>)
    requires Sound(e) && Current(e.reader).Some?
    ensures r.Success? ==> Steps(e, r.value)
    decreases fuel, 8, 0
  {
    match Current(e.reader).value
    case StartElementEvent(_, _, _) => HandleStartElement(cfg, e, fuel)
    case EndElementEvent(_) => HandleEndElement(cfg, e, fuel)
    case CharactersEvent(_) => HandleCharacters(cfg, e, fuel)
    case CDataEvent(_) => HandleCData(cfg, e, fuel)
    case SpaceEvent(_) => HandleWhitespace(cfg, e, fuel)
    case CommentEvent(_) => HandleComment(cfg, e, fuel)
    case PIEvent(_, _) => HandleProcessingInstruction(cfg, e, fuel)
    case EntityReferenceEvent(_, _) => HandleEntityReference(cfg, e, fuel)
    case EndDocumentEvent => HandleEndDocument(cfg, e, fuel)
  }

  // ---------------------------------------------------------------------
  // The handle* methods

  /** handleStartDocument: the declaration is written only for a CONTINUE, outside a nested transform, when not omitted. */
  function HandleStartDocument(cfg: Config, e: Engine, fuel: nat): (r: Result<Engine>)
    requires Sound(e)
    ensures r.Success? ==> Steps(e, r.value)
    decreases fuel, 4, 0
  {
    var e1 :- Initialize(cfg, e, StartDocument, -1);
    var called :- CallAll(cfg, e1, cfg.registry.startDocument, fuel);
    if called.1 == Continue && !cfg.nested && !cfg.omitXmlDeclaration then
      Success(WriteCall(called.0, WriteStartDocument(None, None)))
    else Success(called.0)
  }

  /** handleEndDocument */
  function HandleEndDocument(cfg: Config, e: Engine, fuel: nat): (r: Result<Engine>)
    requires Sound(e)
    ensures r.Success? ==> Steps(e, r.value)
    decreases fuel, 4, 0
  {
    var e1 :- Initialize(cfg, e, EndDocument, -1);
    var called :- CallAll(cfg, e1, cfg.registry.endDocument, fuel);
    var e2 := if called.1 == Continue && !cfg.nested then WriteCall(called.0, WriteEndDocument) else called.0;
    var popped :- DocumentPopped(e2.ctx, cfg.nested);
    Success(e2.(ctx := popped))
  }

  /**
   * handleStartElement: the start-element handlers run; an element they
   * have read is finished with; otherwise the state they return decides
   * the start tag, and unless the transform quit or is skipping the
   * attribute and namespace phases follow.
   */
  function HandleStartElement(cfg: Config, e: Engine, fuel: nat): (r: Result<Engine>)
    requires Sound(e)
    ensures r.Success? ==> Steps(e, r.value)
    decreases fuel, 7, 0
  {
    var e1 :- Initialize(cfg, e, StartElement, -1);
    if |e1.ctx.path| == 0 then Failure(IndexOutOfBounds) else
    var holders := HoldersAt(e1, cfg.registry.startElement, ElementType);
    var called :- CallAll(cfg, e1, holders, fuel);
    var e2 := called.0;
    if e2.ctx.elementHasBeenRead && e2.applyingLevel == 0 then
      PopElement(e2.(ctx := e2.ctx.(elementHasBeenRead := false)))
    else
      var e3 :- StartTagDecision(e2, called.1);
      if e3.quit || e3.ctx.currentlySkipping then Success(e3)
      else StartElementPhases(cfg, e3, fuel)
  }

  /**
   * The switch on the start-element handlers' state: SKIP_THIS marks the
   * element skipped, SKIP_THIS_AND_DESCENDANTS starts skipping, CONTINUE
   * writes the start tag with the override name unless already skipping,
   * and anything else writes nothing.
   */
  function StartTagDecision(e: Engine, state: ContinueState): (r: Result<Engine>)
    requires Sound(e)
    ensures r.Success? ==> Steps(e, r.value) && r.value.quit == e.quit && r.value.reader == e.reader
    ensures state == SkipThis ==> r == (var s :- ElementSkipped(e.ctx); Success(e.(ctx := s)))
    ensures state == SkipThisAndDescendants ==> r == Success(e.(ctx := e.ctx.(currentlySkipping := true)))
    ensures state == Continue && e.ctx.currentlySkipping ==> r == Success(e)
    ensures state == Continue && !e.ctx.currentlySkipping ==>
      r == (if e.ctx.overrides.name.Some? then Success(WriteCall(e, StartElementOf(e.ctx.overrides.name.value)))
            else Failure(NullPointer))
    ensures state == Handled || state == Quit ==> r == Success(e)
  {
    match state
    case SkipThis =>
      var s :- ElementSkipped(e.ctx);
      Success(e.(ctx := s))
    case SkipThisAndDescendants => Success(e.(ctx := e.ctx.(currentlySkipping := true)))
    case Continue =>
      if e.ctx.currentlySkipping then Success(e)
      else
        var name :- Required(e.ctx.overrides.name);
        Success(WriteCall(e, StartElementOf(name)))
    case _ => Success(e)
  }

  /**
   * The phases after the start tag, in order: before-attributes, each
   * attribute, after-attributes, before-namespaces, each namespace,
   * after-namespaces, after-start-element; each stops the sequence when
   * the transform has quit.
   */
  function StartElementPhases(cfg: Config, e: Engine, fuel: nat): (r: Result<Engine>)
    requires Sound(e)
    ensures r.Success? ==> Steps(e, r.value)
    ensures e.quit ==> r.Success? ==> r.value.quit
    decreases fuel, 6, 0
  {
    var e1 :- HandlePhase(cfg, e, BeforeAttributes, cfg.registry.beforeAttributes, fuel);
    if e1.quit then Success(e1)
    else
      var amax :- GetAttributeCount(Current(e1.reader));
      var e2 :- HandleAttributes(cfg, e1, 0, amax, fuel);
      if e2.quit then Success(e2)
      else
        var e3 :- HandlePhase(cfg, e2, AfterAttributes, cfg.registry.afterAttributes, fuel);
        if e3.quit then Success(e3)
        else
          var e4 :- HandlePhase(cfg, e3, BeforeNamespaces, cfg.registry.beforeNamespaces, fuel);
          if e4.quit then Success(e4)
          else
            var nmax :- GetNamespaceCount(Current(e4.reader));
            var e5 :- HandleNamespaces(cfg, e4, 0, nmax, fuel);
            if e5.quit then Success(e5)
            else
              var e6 :- HandlePhase(cfg, e5, AfterNamespaces, cfg.registry.afterNamespaces, fuel);
              if e6.quit then Success(e6)
              else HandlePhase(cfg, e6, AfterStartElement, cfg.registry.afterStartElement, fuel)
  }

  /** handleBeforeAttributes and its kind: initialize, then call the path map's handlers; their state is unused. */
  function HandlePhase(cfg: Config, e: Engine, t: EventType, trie: map<NameKey, Trie>, fuel: nat): (r: Result<Engine>)
    requires Sound(e)
    ensures r.Success? ==> Steps(e, r.value)
    ensures e.quit ==> r.Success? ==> r.value.quit
    decreases fuel, 4, 0
  {
    var e1 :- Initialize(cfg, e, t, -1);
    if |e1.ctx.path| == 0 then Failure(IndexOutOfBounds) else
    var holders := HoldersAt(e1, trie, ElementType);
    var called :- CallAll(cfg, e1, holders, fuel);
    Success(called.0)
  }

  /** The loop over the attributes, a from 0 to amax, stopping once the transform quits. */
  function HandleAttributes(cfg: Config, e: Engine, a: int, amax: int, fuel: nat): (r: Result<Engine>)
    requires Sound(e)
    ensures r.Success? ==> Steps(e, r.value)
    decreases fuel, 5, amax - a
  {
    if a >= amax then Success(e)
    else
      var e1 :- HandleAttribute(cfg, e, a, fuel);
      if e1.quit then Success(e1) else HandleAttributes(cfg, e1, a + 1, amax, fuel)
  }

  /**
   * handleAttribute(index): the attribute is written, with the override
   * name and value, only for a CONTINUE while neither skip flag is set; its
   * path entry is always popped.
   */
  function HandleAttribute(cfg: Config, e: Engine, index: int, fuel: nat): (r: Result<Engine>)
    requires Sound(e)
    ensures r.Success? ==> Steps(e, r.value)
    decreases fuel, 4, 0
  {
    var e1 :- Initialize(cfg, e, Attribute, index);
    if |e1.ctx.path| == 0 then Failure(IndexOutOfBounds) else
    var holders := HoldersAt(e1, cfg.registry.attribute, AttributeType);
    var called :- CallAll(cfg, e1, holders, fuel);
    var e2 :- AttributeWrite(called.0, called.1);
    PopPath(e2)
  }

  /** The write of handleAttribute; isSkippingThisElement is asked only after the first two tests pass. */
  function AttributeWrite(e: Engine, state: ContinueState): (r: Result<Engine>)
    requires Sound(e)
    ensures r.Success? ==> Steps(e, r.value) && r.value.ctx == e.ctx
    ensures state != Continue || e.ctx.currentlySkipping ==> r == Success(e)
    ensures r.Success? && r.value != e ==>
      state == Continue && !e.ctx.currentlySkipping && SkippingThisElement(e.ctx) == Success(false) &&
      e.ctx.overrides.name.Some? && e.ctx.overrides.attributeValue.Some? &&
      r.value == WriteCall(e, WriteAttribute(e.ctx.overrides.name.value, e.ctx.overrides.attributeValue.value))
  {
    if state == Continue && !e.ctx.currentlySkipping then
      var skippedThis :- SkippingThisElement(e.ctx);
      if skippedThis then Success(e)
      else
        var name :- Required(e.ctx.overrides.name);
        var value :- Required(e.ctx.overrides.attributeValue);
        Success(WriteCall(e, WriteAttribute(name, value)))
    else Success(e)
  }

  /** The loop over the namespace declarations, n from 0 to nmax, stopping once the transform quits. */
  function HandleNamespaces(cfg: Config, e: Engine, n: int, nmax: int, fuel: nat): (r: Result<Engine>)
    requires Sound(e)
    ensures r.Success? ==> Steps(e, r.value)
    decreases fuel, 5, nmax - n
  {
    if n >= nmax then Success(e)
    else
      var e1 :- HandleNamespace(cfg, e, n, fuel);
      if e1.quit then Success(e1) else HandleNamespaces(cfg, e1, n + 1, nmax, fuel)
  }

  /** handleNamespace(index): the namespace handlers are a plain list, not a path map. */
  function HandleNamespace(cfg: Config, e: Engine, index: int, fuel: nat): (r: Result<Engine>)
    requires Sound(e)
    ensures r.Success? ==> Steps(e, r.value)
    decreases fuel, 4, 0
  {
    var e1 :- Initialize(cfg, e, Namespace, index);
    var called :- CallAll(cfg, e1, cfg.registry.namespace, fuel);
    var e2 :- NamespaceWrite(called.0, called.1);
    PopPath(e2)
  }

  /**
   * The write of handleNamespace: a CONTINUE while neither skip flag is set
   * writes the declaration, as the default namespace when the override
   * prefix is null or empty.
   */
  function NamespaceWrite(e: Engine, state: ContinueState): (r: Result<Engine>)
    requires Sound(e)
    ensures r.Success? ==> Steps(e, r.value) && r.value.ctx == e.ctx
    ensures state != Continue || e.ctx.currentlySkipping ==> r == Success(e)
    ensures r.Success? && r.value != e ==>
      state == Continue && !e.ctx.currentlySkipping && SkippingThisElement(e.ctx) == Success(false) &&
      e.ctx.overrides.namespaceURI.Some? &&
      var p := e.ctx.overrides.namespacePrefix;
      r.value == WriteCall(e, if p.Some? && p.value != "" then WriteNamespace(p, e.ctx.overrides.namespaceURI.value)
                              else WriteDefaultNamespace(e.ctx.overrides.namespaceURI.value))
  {
    if state == Continue && !e.ctx.currentlySkipping then
      var skippedThis :- SkippingThisElement(e.ctx);
      if skippedThis then Success(e)
      else
        var uri :- Required(e.ctx.overrides.namespaceURI);
        var p := e.ctx.overrides.namespacePrefix;
        if p.Some? && p.value != "" then Success(WriteCall(e, WriteNamespace(p, uri)))
        else Success(WriteCall(e, WriteDefaultNamespace(uri)))
    else Success(e)
  }

  /**
   * handleEndElement: whether the element was marked skipped is read
   * before the handlers run; the end tag is written only for a CONTINUE
   * while not skipping and not marked skipped; the element scope is always
   * popped.
   */
  function HandleEndElement(cfg: Config, e: Engine, fuel: nat): (r: Result<Engine>)
    requires Sound(e)
    ensures r.Success? ==> Steps(e, r.value)
    decreases fuel, 4, 0
  {
    var e1 :- Initialize(cfg, e, EndElement, -1);
    var skippedThisElement :- SkippingThisElement(e1.ctx);
    if |e1.ctx.path| == 0 then Failure(IndexOutOfBounds) else
    var holders := HoldersAt(e1, cfg.registry.endElement, ElementType);
    var called :- CallAll(cfg, e1, holders, fuel);
    var e2 :- EndTagWrite(cfg, called.0, called.1, skippedThisElement);
    PopElement(e2)
  }

  /**
   * The end tag of handleEndElement.  With forceNonSelfClosing an empty
   * text run goes first, unless the element's name is one allowed to
   * self-close.
   */
  function EndTagWrite(cfg: Config, e: Engine, state: ContinueState, skippedThisElement: bool): (r: Result<Engine>)
    requires Sound(e)
    ensures r.Success? ==> Steps(e, r.value) && r.value.ctx == e.ctx
    ensures state != Continue || e.ctx.currentlySkipping || skippedThisElement ==> r == Success(e)
    ensures state == Continue && !e.ctx.currentlySkipping && !skippedThisElement && !cfg.forceNonSelfClosing ==>
      r == Success(WriteCall(e, WriteEndElement))
    ensures r.Success? && cfg.forceNonSelfClosing && state == Continue && !e.ctx.currentlySkipping && !skippedThisElement ==>
      NameAt(e.ctx, e.reader).Success? &&
      r.value.writer == (if NameAt(e.ctx, e.reader).value.Key() in cfg.allowSelfClosing then Perform(e.writer, WriteEndElement)
                         else Perform(Perform(e.writer, WriteCharacters(Some(""))), WriteEndElement))
  {
    if state == Continue && !e.ctx.currentlySkipping && !skippedThisElement then
      if cfg.forceNonSelfClosing then
        var elementQname :- NameAt(e.ctx, e.reader);
        var e' := if elementQname.Key() !in cfg.allowSelfClosing then WriteCall(e, WriteCharacters(Some(""))) else e;
        Success(WriteCall(e', WriteEndElement))
      else Success(WriteCall(e, WriteEndElement))
    else Success(e)
  }

  /** handleCharacters: white space the reader reports as such is handled as white space. */
  function HandleCharacters(cfg: Config, e: Engine, fuel: nat): (r: Result<Engine>)
    requires Sound(e)
    ensures r.Success? ==> Steps(e, r.value)
    ensures IsWhiteSpace(e.reader) ==> r == HandleWhitespace(cfg, e, fuel)
    decreases fuel, 5, 0
  {
    if IsWhiteSpace(e.reader) then HandleWhitespace(cfg, e, fuel)
    else
      var e1 :- Initialize(cfg, e, Characters, -1);
      if |e1.ctx.path| == 0 then Failure(IndexOutOfBounds) else
      var holders := HoldersAt(e1, cfg.registry.characters, TextType);
      var called :- CallAll(cfg, e1, holders, fuel);
      PopPath(TextWrite(called.0, called.1))
  }

  /** handleCData */
  function HandleCData(cfg: Config, e: Engine, fuel: nat): (r: Result<Engine>)
    requires Sound(e)
    ensures r.Success? ==> Steps(e, r.value)
    decreases fuel, 4, 0
  {
    var e1 :- Initialize(cfg, e, CData, -1);
    if |e1.ctx.path| == 0 then Failure(IndexOutOfBounds) else
    var holders := HoldersAt(e1, cfg.registry.cData, TextType);
    var called :- CallAll(cfg, e1, holders, fuel);
    var e2 :- ContentWrite(called.0, called.1, called.0.ctx.overrides.text, t => WriteCData(t));
    PopPath(e2)
  }

  /** handleComment */
  function HandleComment(cfg: Config, e: Engine, fuel: nat): (r: Result<Engine>)
    requires Sound(e)
    ensures r.Success? ==> Steps(e, r.value)
    decreases fuel, 4, 0
  {
    var e1 :- Initialize(cfg, e, Comment, -1);
    if |e1.ctx.path| == 0 then Failure(IndexOutOfBounds) else
    var holders := HoldersAt(e1, cfg.registry.comment, CommentType);
    var called :- CallAll(cfg, e1, holders, fuel);
    var e2 :- ContentWrite(called.0, called.1, called.0.ctx.overrides.text, t => WriteComment(t));
    PopPath(e2)
  }

  /** handleProcessingInstruction */
  function HandleProcessingInstruction(cfg: Config, e: Engine, fuel: nat): (r: Result<Engine>)
    requires Sound(e)
    ensures r.Success? ==> Steps(e, r.value)
    decreases fuel, 4, 0
  {
    var e1 :- Initialize(cfg, e, ProcessingInstruction, -1);
    if |e1.ctx.path| == 0 then Failure(IndexOutOfBounds) else
    var holders := HoldersAt(e1, cfg.registry.processingInstruction, ProcessingInstructionType);
    var called :- CallAll(cfg, e1, holders, fuel);
    var data := called.0.ctx.overrides.piData;
    var e2 :- ContentWrite(called.0, called.1, called.0.ctx.overrides.piTarget, t => WriteProcessingInstruction(t, data));
    PopPath(e2)
  }

  /** The write shared by the CDATA, comment and PI handlers: only a CONTINUE while not skipping writes. */
  function ContentWrite(e: Engine, state: ContinueState, value: Option<string>, call: string -> XmlCall): (r: Result<Engine>)
    requires Sound(e)
    ensures r.Success? ==> Steps(e, r.value) && r.value.ctx == e.ctx
    ensures state != Continue || e.ctx.currentlySkipping ==> r == Success(e)
    ensures state == Continue && !e.ctx.currentlySkipping ==>
      r == (if value.Some? then Success(WriteCall(e, call(value.value))) else Failure(NullPointer))
  {
    if state == Continue && !e.ctx.currentlySkipping then
      var v :- Required(value);
      Success(WriteCall(e, call(v)))
    else Success(e)
  }

  /**
   * handleWhitespace: handlers matching the path are called and decide;
   * with none, the reader's text is written unless skipping or white space
   * is suppressed.
   */
  function HandleWhitespace(cfg: Config, e: Engine, fuel: nat): (r: Result<Engine>)
    requires Sound(e)
    ensures r.Success? ==> Steps(e, r.value)
    decreases fuel, 4, 0
  {
    var e1 :- Initialize(cfg, e, WhiteSpace, -1);
    if |e1.ctx.path| == 0 then Failure(IndexOutOfBounds) else
    var holders := HoldersAt(e1, cfg.registry.whitespace, TextType);
    var e2 :- (if |holders| > 0 then
                 var called :- CallAll(cfg, e1, holders, fuel);
                 Success(TextWrite(called.0, called.1))
               else UnhandledWhitespace(cfg, e1));
    PopPath(e2)
  }

  /** The white space nobody handles: written from the reader unless skipping or suppressed. */
  function UnhandledWhitespace(cfg: Config, e: Engine): (r: Result<Engine>)
    requires Sound(e)
    ensures r.Success? ==> Steps(e, r.value) && r.value.ctx == e.ctx
    ensures e.ctx.currentlySkipping || cfg.suppressWhitespace ==> r == Success(e)
    ensures !e.ctx.currentlySkipping && !cfg.suppressWhitespace ==>
      r == (var text :- Events.GetText(Current(e.reader)); Success(WriteCall(e, WriteCharacters(text))))
  {
    if !e.ctx.currentlySkipping && !cfg.suppressWhitespace then
      var text :- Events.GetText(Current(e.reader));
      Success(WriteCall(e, WriteCharacters(text)))
    else Success(e)
  }

  /**
   * handleEntityReference: the entity handlers when there are any; else
   * the characters handlers matching the path; else, unless skipping, the
   * resolver's text or the reference itself.
   */
  function HandleEntityReference(cfg: Config, e: Engine, fuel: nat): (r: Result<Engine>)
    requires Sound(e)
    ensures r.Success? ==> Steps(e, r.value)
    decreases fuel, 4, 0
  {
    var e1 :- Initialize(cfg, e, EntityReference, -1);
    var e2 :- (if |cfg.registry.entityReference| > 0 then
                 var called :- CallAll(cfg, e1, cfg.registry.entityReference, fuel);
                 Success(TextWrite(called.0, called.1))
               else
                 if |e1.ctx.path| == 0 then Failure(IndexOutOfBounds) else
                 var holders := HoldersAt(e1, cfg.registry.characters, TextType);
                 if |holders| > 0 then
                   var called :- CallAll(cfg, e1, holders, fuel);
                   Success(TextWrite(called.0, called.1))
                 else UnhandledEntity(cfg, e1));
    PopPath(e2)
  }

  /** writeCharacters(overrideText) for a CONTINUE while not skipping. */
  function TextWrite(e: Engine, state: ContinueState): (r: Engine)
    ensures state == Continue && !e.ctx.currentlySkipping ==> r == WriteCall(e, WriteCharacters(e.ctx.overrides.text))
    ensures state != Continue || e.ctx.currentlySkipping ==> r == e
  {
    if state == Continue && !e.ctx.currentlySkipping then WriteCall(e, WriteCharacters(e.ctx.overrides.text)) else e
  }

  /** The entity reference nobody handles: the resolver's text when there is a resolver, the reference otherwise. */
  function UnhandledEntity(cfg: Config, e: Engine): (r: Result<Engine>)
    requires Sound(e)
    ensures r.Success? ==> Steps(e, r.value) && r.value.ctx == e.ctx
    ensures e.ctx.currentlySkipping ==> r == Success(e)
    ensures !e.ctx.currentlySkipping && GetLocalName(e.reader).Success? ==>
      r == Success(WriteCall(e, if cfg.resolver.Some? then WriteCharacters(Resolve(cfg.resolver.value, GetLocalName(e.reader).value))
                                else WriteEntityRef(GetLocalName(e.reader).value)))
  {
    if e.ctx.currentlySkipping then Success(e)
    else
      var name :- GetLocalName(e.reader);
      if cfg.resolver.Some? then Success(WriteCall(e, WriteCharacters(Resolve(cfg.resolver.value, name))))
      else Success(WriteCall(e, WriteEntityRef(name)))
  }

  // ---------------------------------------------------------------------
  // doTransform

  /** The state doTransform starts from: a new context, the writer, the parser before its first event. */
  function Start(cfg: Config, events: seq<Event>, writer: WriterState): (e: Engine)
    ensures Sound(e)
  {
    Engine(Initial(cfg.trackAttributes), writer, Parser(events), [], 0, false, [], [])
  }

  /**
   * doTransform: the start-document handlers, then quit is reset and the
   * loop reads the input to its end or until the transform quits.
   */
  function Transform(cfg: Config, events: seq<Event>, writer: WriterState, fuel: nat): (r: Result<Engine>)
    ensures r.Success? ==> Sound(r.value) && r.value.readerStack == [] && r.value.applyingLevel == 0
    ensures r.Success? ==> r.value.quit || !HasNext(r.value.reader)
  {
    var e0 := Start(cfg, events, writer);
    var e1 :- HandleStartDocument(cfg, e0, fuel);
    Loop(cfg, e1.(quit := false), fuel)
  }
}
