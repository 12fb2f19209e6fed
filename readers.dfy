/**
 * The transformer's current XMLStreamReader: either the live parser over
 * the input document, or an ApplyReader replaying nodes.  The live parser
 * is a foreign library; it is modelled by the sequence of events it
 * reports after the start of the document, and a position in it.
 *
 * Also here: readElement's reading of a whole element from the reader
 * (TransformContext.readElementAndChildren).
 */
module Readers {
  import opened Wrappers
  import opened QNames
  import opened Nodes
  import opened Events
  import opened ApplyReaders

  datatype Reader =
    | Live(events: seq<Event>, pos: int)
    | Replay(cursor: Cursor)

  /** The live parser before its first event. */
  function Parser(events: seq<Event>): Reader
  {
    Live(events, -1)
  }

  /** The cursor stands before the first event, on an event, and never past the last one. */
  predicate Valid(r: Reader)
  {
    match r
    case Live(events, pos) => -1 <= pos < |events|
    case Replay(c) => -1 <= c.position < |c.nodes|
  }

  /** Events still to come. */
  function Remaining(r: Reader): int
  {
    match r
    case Live(events, pos) => |events| - pos - 1
    case Replay(c) => |c.nodes| - c.position - 1
  }

  /** The event the reader is on (none before the first). */
  function Current(r: Reader): Option<Event>
  {
    match r
    case Live(events, pos) => if 0 <= pos < |events| then Some(events[pos]) else None
    case Replay(c) => c.current
  }

  /** hasNext() */
  predicate HasNext(r: Reader)
  {
    match r
    case Live(events, pos) => pos + 1 < |events|
    case Replay(c) => HasMore(c)
  }

  /** next() */
  function Next(r: Reader): (r': Result<Reader>)
    requires Valid(r)
    ensures !HasNext(r) <==> r' == Failure(NoSuchElement)
    ensures r'.Success? ==> Valid(r'.value) && 0 <= Remaining(r'.value) < Remaining(r) && Current(r'.value).Some?
    ensures r'.Success? ==> r'.value.Live? == r.Live?
  {
    match r
    case Live(events, pos) =>
      if pos + 1 < |events| then Success(Live(events, pos + 1)) else Failure(NoSuchElement)
    case Replay(c) =>
      var c' :- Advance(c);
      Success(Replay(c'))
  }

  /** isWhiteSpace(): the live parser tests XML white space; the replay reader Java white space. */
  predicate IsWhiteSpace(r: Reader)
  {
    match r
    case Live(_, _) =>
      (match Current(r)
       case Some(CharactersEvent(t)) => t.None? || XmlWhiteSpace(t.value)
       case Some(SpaceEvent(t)) => XmlWhiteSpace(t)
       case _ => false)
    case Replay(c) => ApplyReaders.IsWhiteSpace(c)
  }

  /**
   * getLocalName(): the element's local name at a start or end tag, the
   * entity's name at an entity reference.
   */
  function GetLocalName(r: Reader): (n: Result<string>)
    ensures n.Success? <==> HasName(Current(r)) || (Current(r).Some? && Current(r).value.EntityReferenceEvent?)
    ensures HasName(Current(r)) ==> n == Success(GetName(Current(r)).value.localPart)
    ensures Current(r).Some? && Current(r).value.EntityReferenceEvent? ==> n == Success(Current(r).value.entityName)
  {
    match r
    case Live(_, _) =>
      var cur := Current(r);
      if cur.Some? && cur.value.EntityReferenceEvent? then Success(cur.value.entityName)
      else if HasName(cur) then Success(GetName(cur).value.localPart)
      else Failure(IllegalState)
    case Replay(c) => ApplyReaders.GetLocalName(c)
  }

  // ---------------------------------------------------------------------
  // Reading a whole element (readElementAndChildren)

  /** EntityReferenceResolver.resolveEntityReference: a partial table; an unknown name gives null. */
  function Resolve(table: map<string, string>, name: string): Option<string>
  {
    if name in table then Some(table[name]) else None
  }

  /** The attributes of the start tag put into the element's attribute map, one by one. */
  function PutAll(attrs: seq<Attr>, into: seq<Attr>): (r: seq<Attr>)
    decreases |attrs|
  {
    if |attrs| == 0 then into else PutAll(attrs[1..], PutAttribute(into, attrs[0]))
  }

  /** A declaration read into a Namespace node: an empty or missing prefix makes a default declaration. */
  function NamespaceOf(d: NsDecl): (n: Node)
    ensures n.NamespaceNode? && n.namespaceURI == d.uri
    ensures n.prefix.None? <==> (d.prefix.None? || d.prefix == Some(""))
  {
    if d.prefix.Some? && d.prefix.value != "" then NamespaceNode(d.prefix, d.uri) else NamespaceNode(None, d.uri)
  }

  function NamespacesRead(decls: seq<NsDecl>): (r: seq<Node>)
    ensures |r| == |decls|
    ensures forall i :: 0 <= i < |decls| ==> r[i] == NamespaceOf(decls[i])
  {
    seq(|decls|, i requires 0 <= i < |decls| => NamespaceOf(decls[i]))
  }

  /**
   * readElementAndChildren(): the element the reader is on, with its
   * attributes, namespaces and everything up to the matching end tag, and
   * the reader left on that end tag (or on the end of the document, or on
   * the last event when the input ends first).
   */
  function ReadElement(r: Reader, resolver: Option<map<string, string>>): (res: Result<(Node, Reader)>)
    requires Valid(r)
    ensures res.Success? ==> Valid(res.value.1) && 0 <= Remaining(res.value.1) <= Remaining(r)
    ensures res.Success? ==> res.value.0.ElementNode? && HasName(Current(r)) && res.value.0.name == GetName(Current(r)).value
    ensures res.Success? ==> res.value.1.Live? == r.Live?
    ensures !(Current(r).Some? && Current(r).value.StartElementEvent?) ==> res == Failure(IllegalState)
    decreases Remaining(r), 1
  {
    var start := Current(r);
    if start.None? || !start.value.StartElementEvent? then Failure(IllegalState)
    else
      var body :- ReadChildren(r, resolver, []);
      Success((ElementNode(start.value.name, PutAll(start.value.attributes, []), NamespacesRead(start.value.namespaces), body.0), body.1))
  }

  /** The loop of readElementAndChildren over the child events, collecting into acc. */
  function ReadChildren(r: Reader, resolver: Option<map<string, string>>, acc: seq<Node>): (res: Result<(seq<Node>, Reader)>)
    requires Valid(r)
    ensures res.Success? ==> Valid(res.value.1) && 0 <= Remaining(res.value.1) <= Remaining(r)
    ensures res.Success? ==> acc <= res.value.0
    ensures res.Success? ==> res.value.1.Live? == r.Live?
    decreases Remaining(r), 0
  {
    if !HasNext(r) then Success((acc, r))
    else
      var r1 :- Next(r);
      match Current(r1).value
      case EndElementEvent(_) => Success((acc, r1))
      case EndDocumentEvent => Success((acc, r1))
      case StartElementEvent(_, _, _) =>
        var child :- ReadElement(r1, resolver);
        ReadChildren(child.1, resolver, acc + [child.0])
      case CharactersEvent(t) => ReadChildren(r1, resolver, acc + [TextNode(t)])
      case SpaceEvent(t) => ReadChildren(r1, resolver, acc + [TextNode(Some(t))])
      case CDataEvent(t) => ReadChildren(r1, resolver, acc + [CDataNode(t)])
      case CommentEvent(t) => ReadChildren(r1, resolver, acc + [CommentNode(t)])
      case PIEvent(target, data) => ReadChildren(r1, resolver, acc + [PINode(target, data)])
      case EntityReferenceEvent(_, _) =>
        var name :- GetLocalName(r1);
        var node := if resolver.Some? then TextNode(Resolve(resolver.value, name)) else EntityRefNode(name);
        ReadChildren(r1, resolver, acc + [node])
  }
}
