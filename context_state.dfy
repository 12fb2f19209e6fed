/**
 * TransformContext: the state the transformer keeps per event and hands to
 * the handlers.  Six stacks are pushed and popped together as the input is
 * walked (the path, its per-parent sibling counters, the attribute snapshots
 * of the ancestors, and the skipping and default-namespace stacks), and the
 * override fields are reset for every event.
 *
 * The pure functions on ContextState say what each operation does; the
 * class TransformContext is the mutable object, proved against them.
 */
module ContextStates {
  import opened Wrappers
  import opened QNames
  import opened Nodes
  import opened Events
  import opened Readers

  datatype EventType =
    | StartElement | EndElement | ProcessingInstruction | Characters | CData | EntityReference
    | Comment | WhiteSpace | StartDocument | EndDocument | Attribute | Namespace
    | BeforeAttributes | AfterAttributes | BeforeNamespaces | AfterNamespaces | AfterStartElement

  /** The seven override fields a handler may set to change what is written; null is None. */
  datatype Overrides = Overrides(
    name: Option<QName>,
    attributeValue: Option<string>,
    text: Option<string>,
    piTarget: Option<string>,
    piData: Option<string>,
    namespacePrefix: Option<string>,
    namespaceURI: Option<string>)

  const NoOverrides: Overrides := Overrides(None, None, None, None, None, None, None)

  /** Stacks are sequences whose last element is the top. */
  datatype ContextState = ContextState(
    eventType: Option<EventType>,
    index: int,
    path: seq<QName>,
    pathAttributes: seq<seq<Attr>>,
    wasSkipping: seq<bool>,
    skipped: seq<bool>,
    defaultNs: seq<string>,
    indexers: seq<map<NameKey, nat>>,
    currentlySkipping: bool,
    overrides: Overrides,
    cancelBubble: bool,
    trackPathAttributes: bool,
    callStack: Option<nat>,          // which handler stack the callStack field refers to
    elementHasBeenRead: bool)

  // ---------------------------------------------------------------------
  // Invariants

  /** The stacks that are pushed and popped together have matching depths. */
  predicate Paired(s: ContextState)
  {
    |s.indexers| == |s.path| &&
    (if s.trackPathAttributes then |s.pathAttributes| == |s.path| + 1 else s.pathAttributes == []) &&
    |s.wasSkipping| == |s.skipped| == |s.defaultNs| >= 1
  }

  /** Every name on the path below the first has been counted in its parent's indexer. */
  predicate Indexed(s: ContextState)
  {
    |s.indexers| == |s.path| &&
    forall d :: 1 <= d < |s.path| ==> s.path[d].Key() in s.indexers[d - 1] && s.indexers[d - 1][s.path[d].Key()] >= 1
  }

  /** new TransformContext(transformer): empty path, one false per skip stack, "" as default namespace. */
  function Initial(track: bool): (s: ContextState)
    ensures Paired(s) && Indexed(s)
    ensures s.path == [] && s.wasSkipping == [false] && s.skipped == [false] && s.defaultNs == [""]
    ensures s.pathAttributes == (if track then [[]] else [])
    ensures !s.currentlySkipping && !s.cancelBubble && !s.elementHasBeenRead
  {
    ContextState(None, 0, [], if track then [[]] else [], [false], [false], [""], [], false,
                 NoOverrides, false, track, None, false)
  }

  // ---------------------------------------------------------------------
  // Path push and pop

  /** One more occurrence of key in a parent's indexer, the first being 1. */
  function Counted(indexer: map<NameKey, nat>, key: NameKey): map<NameKey, nat>
  {
    indexer[key := if key in indexer then indexer[key] + 1 else 1]
  }

  /** pushPath(qname, attributes) */
  function PathPushed(s: ContextState, q: QName, attrs: seq<Attr>): (r: ContextState)
    ensures r.path == s.path + [q] && |r.indexers| == |s.indexers| + 1
    ensures r.trackPathAttributes == s.trackPathAttributes && r.cancelBubble == s.cancelBubble
    ensures s.trackPathAttributes ==> r.pathAttributes == s.pathAttributes + [attrs]
    ensures r.callStack == s.callStack
    ensures Paired(s) ==> Paired(r)
    ensures Indexed(s) ==> Indexed(r)
  {
    var n := |s.indexers|;
    var counted := if n > 0 then s.indexers[..n - 1] + [Counted(s.indexers[n - 1], q.Key())] else s.indexers;
    var r := s.(path := s.path + [q], indexers := counted + [map[]],
                pathAttributes := if s.trackPathAttributes then s.pathAttributes + [attrs] else s.pathAttributes);
    assert Indexed(s) ==> Indexed(r) by {
      if Indexed(s) {
        forall d | 1 <= d < |r.path|
          ensures r.path[d].Key() in r.indexers[d - 1] && r.indexers[d - 1][r.path[d].Key()] >= 1
        {
          if d < |s.path| {
            assert r.path[d] == s.path[d];
            if d - 1 < n - 1 {
              assert r.indexers[d - 1] == s.indexers[d - 1];
            }
          }
        }
      }
    }
    r
  }

  /** popPath(): popping an empty stack throws. */
  function PathPopped(s: ContextState): (r: Result<ContextState>)
    ensures r.Success? <==> |s.path| > 0 && |s.indexers| > 0 && (s.trackPathAttributes ==> |s.pathAttributes| > 0)
    ensures r.Failure? ==> r.error == EmptyStack
    ensures r.Success? ==> r.value.path == s.path[..|s.path| - 1]
    ensures r.Success? && Paired(s) ==> Paired(r.value)
    ensures r.Success? && Indexed(s) ==> Indexed(r.value)
    ensures r.Success? ==> r.value.callStack == s.callStack && r.value.cancelBubble == s.cancelBubble
  {
    if |s.path| == 0 || |s.indexers| == 0 || (s.trackPathAttributes && |s.pathAttributes| == 0) then Failure(EmptyStack)
    else
      var r := s.(path := s.path[..|s.path| - 1], indexers := s.indexers[..|s.indexers| - 1],
                  pathAttributes := if s.trackPathAttributes then s.pathAttributes[..|s.pathAttributes| - 1] else s.pathAttributes);
      assert Indexed(s) ==> Indexed(r) by {
        if Indexed(s) {
          forall d | 1 <= d < |r.path|
            ensures r.path[d].Key() in r.indexers[d - 1] && r.indexers[d - 1][r.path[d].Key()] >= 1
          {
            assert r.path[d] == s.path[d] && r.indexers[d - 1] == s.indexers[d - 1];
          }
        }
      }
      Success(r)
  }

  /** The URI of the first declaration without a prefix: the element's own default namespace. */
  function FirstDefault(decls: seq<NsDecl>): (r: Option<string>)
    ensures r.Some? ==> exists i :: 0 <= i < |decls| && decls[i].prefix.None? && decls[i].uri == r.value &&
                                    forall j :: 0 <= j < i ==> decls[j].prefix.Some?
    ensures r.None? <==> forall i :: 0 <= i < |decls| ==> decls[i].prefix.Some?
    decreases |decls|
  {
    if |decls| == 0 then None
    else if decls[0].prefix.None? then Some(decls[0].uri)
    else
      var r := FirstDefault(decls[1..]);
      assert forall i :: 1 <= i < |decls| ==> decls[i] == decls[1..][i - 1];
      r
  }

  /**
   * pushPathElement(): the element's name goes on the path (with its
   * attributes when they are tracked), the current skipping state is saved,
   * the element starts unskipped, and the default namespace is the one the
   * element declares or else the inherited one.  The second component is the
   * URI handed to the writer's setDefaultNamespace, when the element declares one.
   */
  function ElementPushed(s: ContextState, name: QName, attrs: seq<Attr>, decls: seq<NsDecl>): (r: Result<(ContextState, Option<string>)>)
    ensures r.Success? <==> |s.defaultNs| > 0
    ensures r.Success? ==> r.value.1 == FirstDefault(decls)
    ensures r.Success? ==> var t := r.value.0;
      t.path == s.path + [name] &&
      t.wasSkipping == s.wasSkipping + [s.currentlySkipping] &&
      t.skipped == s.skipped + [false] &&
      t.defaultNs == s.defaultNs + [FirstDefault(decls).GetOr(s.defaultNs[|s.defaultNs| - 1])] &&
      t.currentlySkipping == s.currentlySkipping
    ensures r.Success? && Paired(s) ==> Paired(r.value.0)
    ensures r.Success? && Indexed(s) ==> Indexed(r.value.0)
    ensures r.Success? ==> r.value.0.callStack == s.callStack
  {
    if |s.defaultNs| == 0 then Failure(EmptyStack)
    else
      var snapshot := if s.trackPathAttributes then PutAll(attrs, []) else [];
      var p := PathPushed(s, name, snapshot);
      var found := FirstDefault(decls);
      var inherited := s.defaultNs[|s.defaultNs| - 1];
      Success((p.(wasSkipping := p.wasSkipping + [s.currentlySkipping],
                  skipped := p.skipped + [false],
                  defaultNs := p.defaultNs + [if found.Some? then found.value else inherited]), found))
  }

  /**
   * popPathElement(): pops the path and restores the skipping state saved
   * when the element was pushed.  The second component is the popped
   * default namespace, which is what the writer's setDefaultNamespace receives.
   */
  function ElementPopped(s: ContextState): (r: Result<(ContextState, string)>)
    ensures r.Success? <==> PathPopped(s).Success? && |s.wasSkipping| > 0 && |s.skipped| > 0 && |s.defaultNs| > 0
    ensures r.Failure? ==> r.error == EmptyStack
    ensures r.Success? ==> var t := r.value.0;
      t.path == s.path[..|s.path| - 1] &&
      t.currentlySkipping == s.wasSkipping[|s.wasSkipping| - 1] &&
      t.wasSkipping == s.wasSkipping[..|s.wasSkipping| - 1] &&
      t.skipped == s.skipped[..|s.skipped| - 1] &&
      t.defaultNs == s.defaultNs[..|s.defaultNs| - 1] &&
      r.value.1 == s.defaultNs[|s.defaultNs| - 1]
    ensures r.Success? && Indexed(s) ==> Indexed(r.value.0)
    ensures r.Success? ==> r.value.0.callStack == s.callStack
  {
    var p :- PathPopped(s);
    if |s.wasSkipping| == 0 || |s.skipped| == 0 || |s.defaultNs| == 0 then Failure(EmptyStack)
    else
      Success((p.(currentlySkipping := s.wasSkipping[|s.wasSkipping| - 1],
                  wasSkipping := s.wasSkipping[..|s.wasSkipping| - 1],
                  skipped := s.skipped[..|s.skipped| - 1],
                  defaultNs := s.defaultNs[..|s.defaultNs| - 1]), s.defaultNs[|s.defaultNs| - 1]))
  }

  /** popPathDocument(nested): a nested transform keeps the document entry. */
  function DocumentPopped(s: ContextState, nested: bool): (r: Result<ContextState>)
    ensures nested ==> r == Success(s)
    ensures !nested ==> r == PathPopped(s)
  {
    if nested then Success(s) else PathPopped(s)
  }

  // ---------------------------------------------------------------------
  // Skipping

  /** skipThisElement(): the top of the skipped stack becomes true; nothing else changes. */
  function ElementSkipped(s: ContextState): (r: Result<ContextState>)
    ensures r.Success? <==> |s.skipped| > 0
    ensures r.Failure? ==> r.error == EmptyStack
    ensures r.Success? ==>
      |r.value.skipped| == |s.skipped| && r.value.skipped[|s.skipped| - 1] &&
      r.value.skipped[..|s.skipped| - 1] == s.skipped[..|s.skipped| - 1] &&
      r.value.(skipped := s.skipped) == s
  {
    if |s.skipped| == 0 then Failure(EmptyStack)
    else Success(s.(skipped := s.skipped[..|s.skipped| - 1] + [true]))
  }

  /** isSkippingThisElement(): the top of the skipped stack. */
  function SkippingThisElement(s: ContextState): (r: Result<bool>)
    ensures r.Success? <==> |s.skipped| > 0
    ensures r.Success? ==> r.value == s.skipped[|s.skipped| - 1]
  {
    if |s.skipped| == 0 then Failure(EmptyStack) else Success(s.skipped[|s.skipped| - 1])
  }

  // ---------------------------------------------------------------------
  // Path queries

  /** getPathDepth(): the document entry does not count. */
  function PathDepth(s: ContextState): int
  {
    |s.path| - 1
  }

  /**
   * getAncestorIndex(level): the 1-based index of the ancestor among its
   * parent's children of the same name, read from the parent's indexer.
   */
  function AncestorIndexOf(s: ContextState, level: int): (r: Result<nat>)
    ensures Indexed(s) ==> (r.Success? <==> 0 <= level <= |s.path| - 2)
    ensures r.Success? ==> r.value >= 1 || !Indexed(s)
    ensures r.Success? ==> var d := |s.path| - 1 - level;
      1 <= d < |s.path| && d - 1 < |s.indexers| && s.path[d].Key() in s.indexers[d - 1] && r.value == s.indexers[d - 1][s.path[d].Key()]
  {
    var depthLevel := |s.path| - 1 - level;
    if !(0 <= depthLevel < |s.path|) || !(0 <= depthLevel - 1 < |s.indexers|) then Failure(IndexOutOfBounds)
    else
      var key := s.path[depthLevel].Key();
      if key in s.indexers[depthLevel - 1] then Success(s.indexers[depthLevel - 1][key])
      else Failure(NullPointer)    // unboxing the missing Integer
  }

  /** getAncestorName(level): level 0 is the current node. */
  function AncestorNameOf(s: ContextState, level: int): (r: Result<QName>)
    ensures r.Success? <==> 0 <= level < |s.path|
    ensures r.Success? ==> r.value == s.path[|s.path| - 1 - level]
    ensures r.Failure? ==> r.error == IndexOutOfBounds
  {
    var depthLevel := |s.path| - 1 - level;
    if 0 <= depthLevel < |s.path| then Success(s.path[depthLevel]) else Failure(IndexOutOfBounds)
  }

  /** hasAncestor(name): some entry of the path equals the name (QName equality). */
  predicate HasAncestorIn(s: ContextState, name: QName)
  {
    exists i :: 0 <= i < |s.path| && s.path[i].SameName(name)
  }

  /**
   * getAncestorAttributeValue(level, name): the value the ancestor's
   * snapshot holds for the name.  Only a context that tracks attributes can
   * answer.  The source's separate branch for a null namespace cannot be
   * taken, as a QName never holds a null namespace.
   */
  function AncestorAttributeValueOf(s: ContextState, level: int, name: QName): (r: Result<Option<string>>)
    ensures !s.trackPathAttributes ==> r == Failure(IllegalState)
    ensures s.trackPathAttributes ==> (r.Success? <==> 0 <= level < |s.pathAttributes|)
    ensures r.Success? && r.value.Some? ==>
      exists a :: a in s.pathAttributes[|s.pathAttributes| - 1 - level] && a.name.Key() == name.Key() && a.value == r.value.value
    ensures r.Success? && r.value.None? ==>
      forall a :: a in s.pathAttributes[|s.pathAttributes| - 1 - level] ==> a.name.Key() != name.Key()
  {
    if !s.trackPathAttributes then Failure(IllegalState)
    else
      var depthLevel := |s.pathAttributes| - 1 - level;
      if !(0 <= depthLevel < |s.pathAttributes|) then Failure(IndexOutOfBounds)
      else
        var found := FindAttribute(s.pathAttributes[depthLevel], name.Key());
        if found.Some? then Success(Some(found.value.value)) else Success(None)
  }

  // ---------------------------------------------------------------------
  // Per-event initialisation

  /** The path entry of an attribute: its name with the attribute sigil on the local part. */
  function AttributePathName(a: Attr): QName
  {
    QName(a.name.namespaceURI, "@" + a.name.localPart, a.name.prefix)
  }

  /** The path entry of a namespace declaration, in the XML namespace. */
  function NamespacePathName(d: NsDecl): QName
  {
    if d.prefix.Some? then QName(XML_NS_URI, "@" + d.prefix.value, d.prefix.value) else QName(XML_NS_URI, "@", "")
  }

  /**
   * initializeForEventHandler(eventType, index, nested): record the event,
   * clear every override, push the event's path entry and preset the
   * overrides from the reader.  The second component is the default
   * namespace handed to the writer, when a start tag declares one.
   */
  function InitializeForEvent(s: ContextState, t: EventType, index: int, reader: Reader,
                              resolver: Option<map<string, string>>): (r: Result<(ContextState, Option<string>)>)
    ensures r.Success? ==> r.value.0.eventType == Some(t) && r.value.0.index == index
    ensures r.Success? && Paired(s) ==> Paired(r.value.0)
    ensures r.Success? && Indexed(s) ==> Indexed(r.value.0)
    ensures r.Success? && !t.StartElement? ==> r.value.1.None?
    ensures r.Success? ==> r.value.0.callStack == s.callStack
  {
    EventPushed(s.(eventType := Some(t), index := index, overrides := NoOverrides), t, reader, resolver)
  }

  /** The switch of initializeForEventHandler, once the event is recorded and the overrides cleared. */
  function EventPushed(base: ContextState, t: EventType, reader: Reader, resolver: Option<map<string, string>>)
    : (r: Result<(ContextState, Option<string>)>)
    ensures r.Success? ==> Follows(base, r.value.0)
    ensures r.Success? && !t.StartElement? ==> r.value.1.None?
  {
    var current := Current(reader);
    match t
    case StartDocument => Success((PathPushed(base, Local("/"), []), None))
    case StartElement => StartTagPushed(base, current)
    case Attribute => AttributePushed(base, current, base.index)
    case Namespace => NamespacePushed(base, current, base.index)
    case ProcessingInstruction => InstructionPushed(base, current)
    case Comment => ReaderTextPushed(base, current, "!comment()")
    case Characters => ReaderTextPushed(base, current, "#text()")
    case WhiteSpace => ReaderTextPushed(base, current, "#text()")
    case CData => ReaderTextPushed(base, current, "#text()")
    case EntityReference => EntityPushed(base, reader, resolver)
    case _ => Success((base, None))
  }

  /** What every per-event step keeps: the event it records, and the stack invariants. */
  predicate Follows(base: ContextState, after: ContextState)
  {
    after.eventType == base.eventType && after.index == base.index && after.callStack == base.callStack &&
    (Paired(base) ==> Paired(after)) && (Indexed(base) ==> Indexed(after))
  }

  /** A start tag: the element is pushed and its name is the override name. */
  function StartTagPushed(base: ContextState, current: Option<Event>): (r: Result<(ContextState, Option<string>)>)
    ensures r.Success? ==> (current.Some? && current.value.StartElementEvent? &&
      ElementPushed(base, current.value.name, current.value.attributes, current.value.namespaces).Success? &&
      var pushed := ElementPushed(base, current.value.name, current.value.attributes, current.value.namespaces).value;
      r.value == (pushed.0.(overrides := NoOverrides.(name := Some(current.value.name))), pushed.1))
    ensures r.Success? ==> Follows(base, r.value.0)
  {
    if !(current.Some? && current.value.StartElementEvent?) then Failure(IllegalState)
    else
      var name := current.value.name;
      var pushed :- ElementPushed(base, name, current.value.attributes, current.value.namespaces);
      Success((pushed.0.(overrides := NoOverrides.(name := Some(name))), pushed.1))
  }

  /** An attribute: its sigil name is pushed; its name and value are the overrides. */
  function AttributePushed(base: ContextState, current: Option<Event>, index: int): (r: Result<(ContextState, Option<string>)>)
    ensures r.Success? ==> (Events.GetAttribute(current, index).Success? &&
      var a := Events.GetAttribute(current, index).value;
      r.value == (PathPushed(base, AttributePathName(a), []).(overrides := NoOverrides.(name := Some(a.name), attributeValue := Some(a.value))), None))
    ensures r.Success? ==> Follows(base, r.value.0)
  {
    var a :- Events.GetAttribute(current, index);
    Success((PathPushed(base, AttributePathName(a), []).(overrides := NoOverrides.(name := Some(a.name), attributeValue := Some(a.value))), None))
  }

  /** A namespace declaration: its path name is pushed; its prefix and URI are the overrides. */
  function NamespacePushed(base: ContextState, current: Option<Event>, index: int): (r: Result<(ContextState, Option<string>)>)
    ensures r.Success? ==> (GetNamespace(current, index).Success? &&
      var d := GetNamespace(current, index).value;
      r.value == (PathPushed(base, NamespacePathName(d), []).(overrides := NoOverrides.(namespacePrefix := d.prefix, namespaceURI := Some(d.uri))), None))
    ensures r.Success? ==> Follows(base, r.value.0)
  {
    var d :- GetNamespace(current, index);
    Success((PathPushed(base, NamespacePathName(d), []).(overrides := NoOverrides.(namespacePrefix := d.prefix, namespaceURI := Some(d.uri))), None))
  }

  /** A processing instruction: "?target" is pushed; target and data are the overrides. */
  function InstructionPushed(base: ContextState, current: Option<Event>): (r: Result<(ContextState, Option<string>)>)
    ensures r.Success? <==> current.Some? && current.value.PIEvent?
    ensures r.Success? ==> r.value == (PathPushed(base, Local("?" + current.value.target), []).(
      overrides := NoOverrides.(piTarget := Some(current.value.target), piData := current.value.data)), None)
    ensures r.Success? ==> Follows(base, r.value.0)
  {
    if !(current.Some? && current.value.PIEvent?) then Failure(IllegalState)
    else
      var pi := current.value;
      Success((PathPushed(base, Local("?" + pi.target), []).(overrides := NoOverrides.(piTarget := Some(pi.target), piData := pi.data)), None))
  }

  /**
   * The comment and text events: the entry ("!comment()" or "#text()") is
   * pushed and the reader's text becomes the override text.
   */
  function ReaderTextPushed(base: ContextState, current: Option<Event>, entry: string): (r: Result<(ContextState, Option<string>)>)
    ensures r.Success? <==> Events.GetText(current).Success?
    ensures r.Success? ==>
      r.value == (PathPushed(base, Local(entry), []).(overrides := NoOverrides.(text := Events.GetText(current).value)), None)
    ensures r.Success? ==> Follows(base, r.value.0)
  {
    var text :- Events.GetText(current);
    Success((PathPushed(base, Local(entry), []).(overrides := NoOverrides.(text := text)), None))
  }

  /**
   * An entity reference: a #text() path entry; the override text is the
   * resolver's text for the entity, or the reference itself written out.
   */
  function EntityPushed(base: ContextState, reader: Reader, resolver: Option<map<string, string>>): (r: Result<(ContextState, Option<string>)>)
    ensures r.Success? <==> GetLocalName(reader).Success?
    ensures r.Success? ==> r.value.0.path == base.path + [Local("#text()")] && r.value.1.None?
    ensures r.Success? && resolver.Some? ==> r.value.0.overrides == NoOverrides.(text := Resolve(resolver.value, GetLocalName(reader).value))
    ensures r.Success? && resolver.None? ==> r.value.0.overrides == NoOverrides.(text := Some("&" + GetLocalName(reader).value + ";"))
    ensures r.Success? ==> Follows(base, r.value.0)
  {
    var name :- GetLocalName(reader);
    var text := if resolver.Some? then Resolve(resolver.value, name) else Some("&" + name + ";");
    Success((PathPushed(base, Local("#text()"), []).(overrides := NoOverrides.(text := text)), None))
  }

  /** context.getName(): the attribute's name at an attribute event, the reader's name otherwise. */
  function NameAt(s: ContextState, reader: Reader): (r: Result<QName>)
    ensures s.eventType == Some(Attribute) ==> r == (var a :- Events.GetAttribute(Current(reader), s.index); Success(a.name))
    ensures s.eventType != Some(Attribute) ==> r == GetName(Current(reader))
  {
    if s.eventType == Some(Attribute) then
      var a :- Events.GetAttribute(Current(reader), s.index);
      Success(a.name)
    else GetName(Current(reader))
  }

  /** context.getAttributeValue(): only at an attribute event. */
  function AttributeValueAt(s: ContextState, reader: Reader): (r: Result<string>)
    ensures s.eventType != Some(Attribute) ==> r == Failure(IllegalState)
    ensures r.Success? ==> Events.GetAttribute(Current(reader), s.index).Success? &&
                           r.value == Events.GetAttribute(Current(reader), s.index).value.value
  {
    if s.eventType != Some(Attribute) then Failure(IllegalState)
    else
      var a :- Events.GetAttribute(Current(reader), s.index);
      Success(a.value)
  }

  /** readElement(): only at a start tag and only while reading the input (applying level 0). */
  function ReadElementAt(s: ContextState, reader: Reader, applyingLevel: int,
                         resolver: Option<map<string, string>>): (r: Result<(ContextState, Node, Reader)>)
    requires Readers.Valid(reader)
    ensures s.eventType != Some(StartElement) || applyingLevel > 0 ==> r == Failure(IllegalState)
    ensures r.Success? ==> r.value.0 == s.(elementHasBeenRead := true)
    ensures r.Success? ==> Readers.ReadElement(reader, resolver) == Success((r.value.1, r.value.2))
  {
    if s.eventType != Some(StartElement) then Failure(IllegalState)
    else if applyingLevel > 0 then Failure(IllegalState)
    else
      var read :- Readers.ReadElement(reader, resolver);
      Success((s.(elementHasBeenRead := true), read.0, read.1))
  }

  // ---------------------------------------------------------------------
  // Properties

  /** pushPath then popPath: the path and the attribute snapshots are as before; the parent has counted the name. */
  lemma PushPopRestores(s: ContextState, q: QName, attrs: seq<Attr>)
    requires Paired(s)
    ensures PathPopped(PathPushed(s, q, attrs)).Success?
    ensures var t := PathPopped(PathPushed(s, q, attrs)).value;
      t.path == s.path && t.pathAttributes == s.pathAttributes && |t.indexers| == |s.indexers| &&
      t.(indexers := s.indexers) == s &&
      (|s.indexers| > 0 ==> t.indexers == s.indexers[..|s.indexers| - 1] + [Counted(s.indexers[|s.indexers| - 1], q.Key())])
  {
    var p := PathPushed(s, q, attrs);
    assert p.path[..|p.path| - 1] == s.path;
    if s.trackPathAttributes {
      assert p.pathAttributes[..|p.pathAttributes| - 1] == s.pathAttributes;
    }
  }

  /**
   * pushPathElement then popPathElement: whatever the handlers did to the
   * skipping state in between, the skipping state, both skip stacks, the
   * default-namespace stack and the path are restored, and the writer is
   * handed the element's own default namespace.
   */
  lemma ElementPushPopRestores(s: ContextState, name: QName, attrs: seq<Attr>, decls: seq<NsDecl>, skipping: bool, skippedTop: bool)
    requires Paired(s)
    ensures ElementPushed(s, name, attrs, decls).Success?
    ensures var t := ElementPushed(s, name, attrs, decls).value.0;
      var t' := t.(currentlySkipping := skipping, skipped := t.skipped[..|t.skipped| - 1] + [skippedTop]);
      ElementPopped(t').Success? &&
      var u := ElementPopped(t').value;
      u.0.path == s.path && u.0.currentlySkipping == s.currentlySkipping &&
      u.0.wasSkipping == s.wasSkipping && u.0.skipped == s.skipped && u.0.defaultNs == s.defaultNs &&
      u.1 == FirstDefault(decls).GetOr(s.defaultNs[|s.defaultNs| - 1])
  {
    var t := ElementPushed(s, name, attrs, decls).value.0;
    var t' := t.(currentlySkipping := skipping, skipped := t.skipped[..|t.skipped| - 1] + [skippedTop]);
    assert Paired(t');
    assert t'.path[..|t'.path| - 1] == s.path;
    assert t'.wasSkipping[..|t'.wasSkipping| - 1] == s.wasSkipping;
    assert t'.skipped[..|t'.skipped| - 1] == s.skipped;
    assert t'.defaultNs[..|t'.defaultNs| - 1] == s.defaultNs;
  }

  /** A map read as Java reads an Integer counter that may be missing. */
  function CountOf(indexer: map<NameKey, nat>, key: NameKey): nat
  {
    if key in indexer then indexer[key] else 0
  }

  /** How many of the names equal key. */
  function Occurrences(names: seq<QName>, key: NameKey): nat
  {
    if |names| == 0 then 0
    else Occurrences(names[..|names| - 1], key) + (if names[|names| - 1].Key() == key then 1 else 0)
  }

  /** The context after each name in turn has been pushed and popped as a child of the current node. */
  function Siblings(s: ContextState, names: seq<QName>): (r: ContextState)
    requires Paired(s)
    ensures Paired(r) && r.path == s.path && |r.indexers| == |s.indexers|
    ensures |s.indexers| > 0 ==> r.indexers[..|s.indexers| - 1] == s.indexers[..|s.indexers| - 1]
    decreases |names|
  {
    if |names| == 0 then s
    else
      var before := Siblings(s, names[..|names| - 1]);
      PushPopRestores(before, names[|names| - 1], []);
      PathPopped(PathPushed(before, names[|names| - 1], [])).value
  }

  /**
   * Sibling indices: after some siblings have been visited, the next child
   * named q has index one more than the number of earlier children with
   * q's name (plus any counted before), as getIndex() reports it.
   */
  lemma {:induction false} SiblingIndex(s: ContextState, names: seq<QName>, q: QName)
    requires Paired(s) && |s.path| >= 1
    ensures AncestorIndexOf(PathPushed(Siblings(s, names), q, []), 0) ==
      Success(CountOf(s.indexers[|s.indexers| - 1], q.Key()) + Occurrences(names, q.Key()) + 1)
  {
    var t := Siblings(s, names);
    TopCount(s, names, q.Key());
    assert CountOf(t.indexers[|t.indexers| - 1], q.Key()) ==
           CountOf(s.indexers[|s.indexers| - 1], q.Key()) + Occurrences(names, q.Key());
    PushedTopIndex(t, q);
  }

  /** The child pushed under the current node has index one more than its name's count there. */
  lemma PushedTopIndex(t: ContextState, q: QName)
    requires Paired(t) && |t.path| >= 1
    ensures AncestorIndexOf(PathPushed(t, q, []), 0) == Success(CountOf(t.indexers[|t.indexers| - 1], q.Key()) + 1)
  {
    var p := PathPushed(t, q, []);
    var n := |t.indexers|;
    assert p.indexers[n - 1] == Counted(t.indexers[n - 1], q.Key());
    assert p.path[|p.path| - 1] == q;
  }

  lemma {:induction false} TopCount(s: ContextState, names: seq<QName>, key: NameKey)
    requires Paired(s) && |s.path| >= 1
    ensures var t := Siblings(s, names);
      CountOf(t.indexers[|t.indexers| - 1], key) == CountOf(s.indexers[|s.indexers| - 1], key) + Occurrences(names, key)
    decreases |names|
  {
    if |names| > 0 {
      var before := Siblings(s, names[..|names| - 1]);
      TopCount(s, names[..|names| - 1], key);
      PushPopRestores(before, names[|names| - 1], []);
    }
  }

  // ---------------------------------------------------------------------
  // The object

  class TransformContext {
    var eventType: Option<EventType>
    var index: int
    var path: seq<QName>
    var pathAttributes: seq<seq<Attr>>
    var wasSkippingStack: seq<bool>
    var skippedStack: seq<bool>
    var defaultNamespaceStack: seq<string>
    var indexPredicateStack: seq<map<NameKey, nat>>
    var currentlySkipping: bool
    var overrides: Overrides          // overrideName, overrideAttributeValue, ... overrideNamespaceURI
    var cancelBubble: bool
    var trackPathAttributes: bool
    var callStack: Option<nat>
    var elementHasBeenRead: bool

    /** The fields as a value. */
    function State(): ContextState
      reads this
    {
      ContextState(eventType, index, path, pathAttributes, wasSkippingStack, skippedStack, defaultNamespaceStack,
                   indexPredicateStack, currentlySkipping, overrides, cancelBubble, trackPathAttributes,
                   callStack, elementHasBeenRead)
    }

    /** new TransformContext(transformer) */
    constructor (trackAttributes: bool)
      ensures State() == Initial(trackAttributes)
    {
      eventType, index := None, 0;
      path := [];
      trackPathAttributes := trackAttributes;
      pathAttributes := if trackAttributes then [[]] else [];
      currentlySkipping := false;
      wasSkippingStack := [false];
      skippedStack := [false];
      defaultNamespaceStack := [""];
      indexPredicateStack := [];
      overrides := NoOverrides;
      cancelBubble, callStack, elementHasBeenRead := false, None, false;
    }

    /** pushPath(qname, attributes) */
    method PushPath(q: QName, attrs: seq<Attr>)
      modifies this
      ensures State() == PathPushed(old(State()), q, attrs)
    {
      path := path + [q];
      if |indexPredicateStack| > 0 {
        var n := |indexPredicateStack|;
        indexPredicateStack := indexPredicateStack[..n - 1] + [Counted(indexPredicateStack[n - 1], q.Key())];
      }
      indexPredicateStack := indexPredicateStack + [map[]];
      if trackPathAttributes {
        pathAttributes := pathAttributes + [attrs];
      }
    }

    /** popPath() */
    method PopPath() returns (r: Result<()>)
      modifies this
      ensures r.Success? <==> PathPopped(old(State())).Success?
      ensures r.Success? ==> State() == PathPopped(old(State())).value
    {
      if |path| == 0 || |indexPredicateStack| == 0 || (trackPathAttributes && |pathAttributes| == 0) {
        return Failure(EmptyStack);
      }
      path := path[..|path| - 1];
      indexPredicateStack := indexPredicateStack[..|indexPredicateStack| - 1];
      if trackPathAttributes {
        pathAttributes := pathAttributes[..|pathAttributes| - 1];
      }
      r := Success(());
    }

    /** pushPathDocument() */
    method PushPathDocument()
      modifies this
      ensures State() == PathPushed(old(State()), Local("/"), [])
    {
      PushPath(Local("/"), []);
    }

    /** pushPathAttribute(): the attribute's name with "@" before its local part. */
    method PushPathAttribute(a: Attr)
      modifies this
      ensures State() == PathPushed(old(State()), AttributePathName(a), [])
    {
      PushPath(QName(a.name.namespaceURI, "@" + a.name.localPart, a.name.prefix), []);
    }

    /** pushPathNamespace(): "@prefix" in the XML namespace, or "@" for the default declaration. */
    method PushPathNamespace(d: NsDecl)
      modifies this
      ensures State() == PathPushed(old(State()), NamespacePathName(d), [])
    {
      if d.prefix.Some? {
        PushPath(QName(XML_NS_URI, "@" + d.prefix.value, d.prefix.value), []);
      } else {
        PushPath(QName(XML_NS_URI, "@", ""), []);
      }
    }

    /** pushPathText() */
    method PushPathText()
      modifies this
      ensures State() == PathPushed(old(State()), Local("#text()"), [])
    {
      PushPath(Local("#text()"), []);
    }

    /** pushPathComment() */
    method PushPathComment()
      modifies this
      ensures State() == PathPushed(old(State()), Local("!comment()"), [])
    {
      PushPath(Local("!comment()"), []);
    }

    /** pushPathProcessingInstruction() */
    method PushPathProcessingInstruction(target: string)
      modifies this
      ensures State() == PathPushed(old(State()), Local("?" + target), [])
    {
      PushPath(Local("?" + target), []);
    }

    /**
     * pushPathElement(): returns the default namespace to hand to the
     * writer, found by the loop over the start tag's declarations.
     */
    method PushPathElement(name: QName, attrs: seq<Attr>, decls: seq<NsDecl>) returns (r: Result<Option<string>>)
      modifies this
      ensures var expected := ElementPushed(old(State()), name, attrs, decls);
        r.Success? == expected.Success? && (r.Success? ==> State() == expected.value.0 && r.value == expected.value.1)
    {
      var attMap: seq<Attr> := [];
      if trackPathAttributes {
        attMap := AttributeMap(attrs);
      }
      var defaultNamespaceURI := DefaultDeclaration(decls);
      if |defaultNamespaceStack| == 0 {
        return Failure(EmptyStack);
      }
      ghost var s0 := State();
      var wasSkipping := currentlySkipping;
      PushPath(name, attMap);
      ghost var p := State();
      assert p == PathPushed(s0, name, if s0.trackPathAttributes then PutAll(attrs, []) else []);
      var currentDefaultNamespace := defaultNamespaceStack[|defaultNamespaceStack| - 1];
      var pushedNamespace := currentDefaultNamespace;
      if defaultNamespaceURI.Some? {
        pushedNamespace := defaultNamespaceURI.value;
      }
      PushElementStacks(wasSkipping, pushedNamespace);
      r := Success(defaultNamespaceURI);
    }

    /** The three pushes of pushPathElement: the skipping flag, a fresh skipped flag and the default namespace. */
    method PushElementStacks(wasSkipping: bool, ns: string)
      modifies this
      ensures State() == old(State()).(wasSkipping := old(wasSkippingStack) + [wasSkipping],
                                       skipped := old(skippedStack) + [false],
                                       defaultNs := old(defaultNamespaceStack) + [ns])
    {
      wasSkippingStack := wasSkippingStack + [wasSkipping];
      skippedStack := skippedStack + [false];
      defaultNamespaceStack := defaultNamespaceStack + [ns];
    }

    /** The attribute loop of pushPathElement: each attribute put into a fresh map in reader order. */
    static method AttributeMap(attrs: seq<Attr>) returns (attMap: seq<Attr>)
      ensures attMap == PutAll(attrs, [])
    {
      attMap := [];
      for a := 0 to |attrs|
        invariant PutAll(attrs, []) == PutAll(attrs[a..], attMap)
      {
        assert attrs[a..][1..] == attrs[a + 1..];
        attMap := PutAttribute(attMap, attrs[a]);
      }
      assert attrs[|attrs|..] == [];
    }

    /** The declaration loop of pushPathElement: stops at the first declaration without a prefix. */
    static method DefaultDeclaration(decls: seq<NsDecl>) returns (defaultNamespaceURI: Option<string>)
      ensures defaultNamespaceURI == FirstDefault(decls)
    {
      defaultNamespaceURI := None;
      var i := 0;
      while i < |decls|
        invariant 0 <= i <= |decls|
        invariant defaultNamespaceURI.None? ==> FirstDefault(decls) == FirstDefault(decls[i..])
        invariant defaultNamespaceURI.Some? ==> FirstDefault(decls) == defaultNamespaceURI
        decreases |decls| - i, defaultNamespaceURI.None?
      {
        if decls[i].prefix.None? {
          defaultNamespaceURI := Some(decls[i].uri);
          break;
        }
        assert decls[i..][1..] == decls[i + 1..];
        i := i + 1;
      }
      if defaultNamespaceURI.None? {
        assert decls[i..] == [];
      }
    }

    /** popPathElement(): returns the popped default namespace, which the writer is handed. */
    method PopPathElement() returns (r: Result<string>)
      modifies this
      ensures var expected := ElementPopped(old(State()));
        r.Success? == expected.Success? && (r.Success? ==> State() == expected.value.0 && r.value == expected.value.1)
    {
      ghost var s0 := State();
      var popped := PopPath();
      if popped.Failure? {
        return Failure(popped.error);
      }
      ghost var p := State();
      assert PathPopped(s0) == Success(p);
      if |wasSkippingStack| == 0 || |skippedStack| == 0 || |defaultNamespaceStack| == 0 {
        return Failure(EmptyStack);
      }
      currentlySkipping := wasSkippingStack[|wasSkippingStack| - 1];
      wasSkippingStack := wasSkippingStack[..|wasSkippingStack| - 1];
      skippedStack := skippedStack[..|skippedStack| - 1];
      var currentDefaultNamespace := defaultNamespaceStack[|defaultNamespaceStack| - 1];
      defaultNamespaceStack := defaultNamespaceStack[..|defaultNamespaceStack| - 1];
      assert State() == p.(currentlySkipping := s0.wasSkipping[|s0.wasSkipping| - 1],
                           wasSkipping := s0.wasSkipping[..|s0.wasSkipping| - 1],
                           skipped := s0.skipped[..|s0.skipped| - 1],
                           defaultNs := s0.defaultNs[..|s0.defaultNs| - 1]);
      assert ElementPopped(s0) == Success((State(), currentDefaultNamespace));
      r := Success(currentDefaultNamespace);
    }

    /** popPathDocument(nested) */
    method PopPathDocument(nested: bool) returns (r: Result<()>)
      modifies this
      ensures var expected := DocumentPopped(old(State()), nested);
        r.Success? == expected.Success? && (r.Success? ==> State() == expected.value)
    {
      r := Success(());
      if !nested {
        r := PopPath();
      }
    }

    /** skipThisElement() */
    method SkipThisElement() returns (r: Result<()>)
      modifies this
      ensures var expected := ElementSkipped(old(State()));
        r.Success? == expected.Success? && (r.Success? ==> State() == expected.value)
    {
      if |skippedStack| == 0 {
        return Failure(EmptyStack);
      }
      skippedStack := skippedStack[..|skippedStack| - 1];
      skippedStack := skippedStack + [true];
      r := Success(());
    }

    /** isSkippingThisElement() */
    method IsSkippingThisElement() returns (r: Result<bool>)
      ensures r == SkippingThisElement(State())
    {
      if |skippedStack| == 0 {
        return Failure(EmptyStack);
      }
      r := Success(skippedStack[|skippedStack| - 1]);
    }

    /** cancelNext(): the chain being called stops after the current handler. */
    method CancelNext()
      modifies this
      ensures State() == old(State()).(cancelBubble := true)
    {
      cancelBubble := true;
    }

    /** getAncestorIndex(level) */
    method GetAncestorIndex(level: int) returns (r: Result<nat>)
      ensures r == AncestorIndexOf(State(), level)
    {
      var depthLevel := |path| - 1 - level;
      if !(0 <= depthLevel < |path|) || !(0 <= depthLevel - 1 < |indexPredicateStack|) {
        return Failure(IndexOutOfBounds);
      }
      var lookupName := path[depthLevel];
      var parentIndexer := indexPredicateStack[depthLevel - 1];
      if lookupName.Key() !in parentIndexer {
        return Failure(NullPointer);
      }
      r := Success(parentIndexer[lookupName.Key()]);
    }

    /** getAncestorName(level) */
    method GetAncestorName(level: int) returns (r: Result<QName>)
      ensures r == AncestorNameOf(State(), level)
    {
      var depthLevel := |path| - 1 - level;
      if !(0 <= depthLevel < |path|) {
        return Failure(IndexOutOfBounds);
      }
      r := Success(path[depthLevel]);
    }

    /** hasAncestor(name): scans the path from the root and stops at the first equal name. */
    method HasAncestor(ancestorName: QName) returns (result: bool)
      ensures result == HasAncestorIn(State(), ancestorName)
    {
      result := false;
      var i := 0;
      while i < |path|
        invariant 0 <= i <= |path|
        invariant !result ==> forall j :: 0 <= j < i ==> !path[j].SameName(ancestorName)
        invariant result ==> HasAncestorIn(State(), ancestorName)
        decreases |path| - i, !result
      {
        if path[i].SameName(ancestorName) {
          result := true;
          break;
        }
        i := i + 1;
      }
    }

    /** getAncestorAttributeValue(level, name) */
    method GetAncestorAttributeValue(level: int, attributeName: QName) returns (r: Result<Option<string>>)
      ensures r == AncestorAttributeValueOf(State(), level, attributeName)
    {
      if !trackPathAttributes {
        return Failure(IllegalState);
      }
      var depthLevel := |pathAttributes| - 1 - level;
      if !(0 <= depthLevel < |pathAttributes|) {
        return Failure(IndexOutOfBounds);
      }
      var found := FindAttribute(pathAttributes[depthLevel], attributeName.Key());
      r := if found.Some? then Success(Some(found.value.value)) else Success(None);
    }

    /**
     * initializeForEventHandler(eventType, index, nested); the result is the
     * default namespace a start tag hands to the writer.  Each case of the
     * switch is one of the methods below.
     */
    method InitializeForEventHandler(t: EventType, index': int, reader: Reader, resolver: Option<map<string, string>>)
      returns (r: Result<Option<string>>)
      modifies this
      ensures var expected := InitializeForEvent(old(State()), t, index', reader, resolver);
        r.Success? == expected.Success? && (r.Success? ==> State() == expected.value.0 && r.value == expected.value.1)
    {
      eventType, index, overrides := Some(t), index', NoOverrides;
      assert State() == old(State()).(eventType := Some(t), index := index', overrides := NoOverrides);
      r := PushForEvent(t, reader, resolver);
    }

    /** The switch of initializeForEventHandler, once the event is recorded and the overrides cleared. */
    method PushForEvent(t: EventType, reader: Reader, resolver: Option<map<string, string>>) returns (r: Result<Option<string>>)
      requires overrides == NoOverrides
      modifies this
      ensures var expected := EventPushed(old(State()), t, reader, resolver);
        r.Success? == expected.Success? && (r.Success? ==> State() == expected.value.0 && r.value == expected.value.1)
    {
      var current := Current(reader);
      r := Success(None);
      match t {
        case StartDocument => PushPathDocument();
        case StartElement => r := InitializeStartElement(current);
        case Attribute => r := InitializeAttribute(current);
        case Namespace => r := InitializeNamespace(current);
        case ProcessingInstruction => r := InitializeInstruction(current);
        case Comment => r := InitializeComment(current);
        case Characters | WhiteSpace | CData => r := InitializeText(current);
        case EntityReference => r := InitializeEntityReference(reader, resolver);
        case _ =>
      }
    }

    method InitializeStartElement(current: Option<Event>) returns (r: Result<Option<string>>)
      requires overrides == NoOverrides  // cleared by the caller
      modifies this
      ensures var expected := StartTagPushed(old(State()), current);
        r.Success? == expected.Success? && (r.Success? ==> State() == expected.value.0 && r.value == expected.value.1)
    {
      if !(current.Some? && current.value.StartElementEvent?) {
        return Failure(IllegalState);
      }
      r := PushPathElement(current.value.name, current.value.attributes, current.value.namespaces);
      if r.Success? {
        overrides := overrides.(name := Some(current.value.name));
      }
    }

    method InitializeAttribute(current: Option<Event>) returns (r: Result<Option<string>>)
      requires overrides == NoOverrides  // cleared by the caller
      modifies this
      ensures var expected := AttributePushed(old(State()), current, old(index));
        r.Success? == expected.Success? && (r.Success? ==> State() == expected.value.0 && r.value == expected.value.1)
    {
      var a := Events.GetAttribute(current, index);
      if a.Failure? {
        return Failure(a.error);
      }
      PushPathAttribute(a.value);
      overrides := overrides.(name := Some(a.value.name), attributeValue := Some(a.value.value));
      r := Success(None);
    }

    method InitializeNamespace(current: Option<Event>) returns (r: Result<Option<string>>)
      requires overrides == NoOverrides  // cleared by the caller
      modifies this
      ensures var expected := NamespacePushed(old(State()), current, old(index));
        r.Success? == expected.Success? && (r.Success? ==> State() == expected.value.0 && r.value == expected.value.1)
    {
      var d := GetNamespace(current, index);
      if d.Failure? {
        return Failure(d.error);
      }
      PushPathNamespace(d.value);
      overrides := overrides.(namespacePrefix := d.value.prefix, namespaceURI := Some(d.value.uri));
      r := Success(None);
    }

    method InitializeInstruction(current: Option<Event>) returns (r: Result<Option<string>>)
      requires overrides == NoOverrides  // cleared by the caller
      modifies this
      ensures var expected := InstructionPushed(old(State()), current);
        r.Success? == expected.Success? && (r.Success? ==> State() == expected.value.0 && r.value == expected.value.1)
    {
      if !(current.Some? && current.value.PIEvent?) {
        return Failure(IllegalState);
      }
      PushPathProcessingInstruction(current.value.target);
      overrides := overrides.(piTarget := Some(current.value.target), piData := current.value.data);
      r := Success(None);
    }

    method InitializeComment(current: Option<Event>) returns (r: Result<Option<string>>)
      requires overrides == NoOverrides  // cleared by the caller
      modifies this
      ensures var expected := ReaderTextPushed(old(State()), current, "!comment()");
        r.Success? == expected.Success? && (r.Success? ==> State() == expected.value.0 && r.value == expected.value.1)
    {
      var text := Events.GetText(current);
      if text.Failure? {
        return Failure(text.error);
      }
      PushPathComment();
      overrides := overrides.(text := text.value);
      r := Success(None);
    }

    method InitializeText(current: Option<Event>) returns (r: Result<Option<string>>)
      requires overrides == NoOverrides  // cleared by the caller
      modifies this
      ensures var expected := ReaderTextPushed(old(State()), current, "#text()");
        r.Success? == expected.Success? && (r.Success? ==> State() == expected.value.0 && r.value == expected.value.1)
    {
      var text := Events.GetText(current);
      if text.Failure? {
        return Failure(text.error);
      }
      PushPathText();
      overrides := overrides.(text := text.value);
      r := Success(None);
    }

    method InitializeEntityReference(reader: Reader, resolver: Option<map<string, string>>) returns (r: Result<Option<string>>)
      requires overrides == NoOverrides  // cleared by the caller
      modifies this
      ensures var expected := EntityPushed(old(State()), reader, resolver);
        r.Success? == expected.Success? && (r.Success? ==> State() == expected.value.0 && r.value == expected.value.1)
    {
      var name := GetLocalName(reader);
      if name.Failure? {
        return Failure(name.error);
      }
      PushPathText();
      overrides := overrides.(text := if resolver.Some? then Resolve(resolver.value, name.value) else Some("&" + name.value + ";"));
      r := Success(None);
    }

    /** readElement(): only at a start tag and only while the input itself is being read. */
    method ReadElement(reader: Reader, applyingLevel: int, resolver: Option<map<string, string>>) returns (r: Result<(Node, Reader)>)
      requires Readers.Valid(reader)
      modifies this
      ensures var expected := ReadElementAt(old(State()), reader, applyingLevel, resolver);
        r.Success? == expected.Success? && (r.Success? ==> State() == expected.value.0 && r.value == (expected.value.1, expected.value.2))
    {
      if eventType != Some(StartElement) || applyingLevel > 0 {
        return Failure(IllegalState);
      }
      elementHasBeenRead := true;
      r := ReadElementAndChildren(reader, resolver);
    }

    /**
     * readElementAndChildren(): the element the reader is on, then its
     * children up to the matching end tag, reading nested elements recursively.
     */
    static method ReadElementAndChildren(reader: Reader, resolver: Option<map<string, string>>) returns (res: Result<(Node, Reader)>)
      requires Readers.Valid(reader)
      ensures res == Readers.ReadElement(reader, resolver)
      decreases Remaining(reader), 1
    {
      var start := Current(reader);
      if start.None? || !start.value.StartElementEvent? {
        return Failure(IllegalState);
      }
      var startTag := start.value;
      var attributes := AttributeMap(startTag.attributes);
      var namespaces: seq<Node> := [];
      for n := 0 to |startTag.namespaces|
        invariant namespaces == NamespacesRead(startTag.namespaces[..n])
      {
        namespaces := namespaces + [NamespaceOf(startTag.namespaces[n])];
      }
      assert startTag.namespaces[..|startTag.namespaces|] == startTag.namespaces;
      var children := ReadChildNodes(reader, resolver);
      if children.Failure? {
        return Failure(children.error);
      }
      res := Success((ElementNode(startTag.name, attributes, namespaces, children.value.0), children.value.1));
    }

    /** The child loop of readElementAndChildren. */
    static method ReadChildNodes(reader: Reader, resolver: Option<map<string, string>>) returns (res: Result<(seq<Node>, Reader)>)
      requires Readers.Valid(reader)
      ensures res == ReadChildren(reader, resolver, [])
      decreases Remaining(reader), 0
    {
      var childNodes: seq<Node> := [];
      var r := reader;
      while HasNext(r)
        invariant Readers.Valid(r) && Remaining(r) <= Remaining(reader)
        invariant ReadChildren(reader, resolver, []) == ReadChildren(r, resolver, childNodes)
        decreases Remaining(r)
      {
        var next := Next(r);
        if next.Failure? {
          return Failure(next.error);
        }
        var r1 := next.value;
        var event := Current(r1).value;
        if event.EndElementEvent? || event.EndDocumentEvent? {
          return Success((childNodes, r1));
        } else if event.StartElementEvent? {
          var child := ReadElementAndChildren(r1, resolver);
          if child.Failure? {
            return Failure(child.error);
          }
          childNodes := childNodes + [child.value.0];
          r := child.value.1;
        } else if event.EntityReferenceEvent? {
          var name := event.entityName;
          childNodes := childNodes + [if resolver.Some? then TextNode(Resolve(resolver.value, name)) else EntityRefNode(name)];
          r := r1;
        } else {
          childNodes := childNodes + [ChildNode(event)];
          r := r1;
        }
      }
      res := Success((childNodes, r));
    }
  }

  /** The node a character, white space, CDATA, comment or PI event is read into. */
  function ChildNode(e: Event): Node
  {
    match e
    case CharactersEvent(t) => TextNode(t)
    case SpaceEvent(t) => TextNode(Some(t))
    case CDataEvent(t) => CDataNode(t)
    case CommentEvent(t) => CommentNode(t)
    case PIEvent(target, data) => PINode(target, data)
    case _ => TextNode(None)
  }
}
