/**
 * ApplyReader: the XMLStreamReader that replays a collection of nodes.
 *
 * Construction flattens the collection into start markers, attribute and
 * namespace entries, content nodes and end markers, checking on the way
 * that attributes and namespaces sit inside a start tag and that every end
 * marker has a start to close.  The cursor then walks the flat list; on a
 * start marker it looks ahead to gather the attribute and namespace entries
 * that follow it and moves past them.
 *
 * The namespace contexts the reader keeps are values here: each context
 * object of the source is written only while its start marker is being
 * read, before anything else can see it, so values hold the same
 * information.
 */
module ApplyReaders {
  import opened Wrappers
  import opened QNames
  import opened NamespaceContexts
  import opened Nodes
  import opened Events

  // ---------------------------------------------------------------------
  // Flattening (addNodes)

  /** The node kinds a flattened collection is made of; end markers carry a name. */
  predicate FlatNode(n: Node)
  {
    match n
    case StartElementNode(_) => true
    case EndElementNode(name) => name.Some?
    case AttributeNode(_) => true
    case NamespaceNode(_, _) => true
    case TextNode(_) => true
    case CDataNode(_) => true
    case CommentNode(_) => true
    case PINode(_, _) => true
    case EntityRefNode(_) => true
    case StartDocumentNode(_, _) | EndDocumentNode | CollectionNode(_) | ElementNode(_, _, _, _) | AttributeMapNode(_) => false
  }

  predicate AllFlat(nodes: seq<Node>)
  {
    forall i :: 0 <= i < |nodes| ==> FlatNode(nodes[i])
  }

  type FlatNodes = s: seq<Node> | AllFlat(s) witness []

  /**
   * What addNodes tracks: the flattened nodes so far, the element depth,
   * whether attributes may still follow, and the names of the start
   * markers not yet closed.
   */
  datatype FlatState = FlatState(out: seq<Node>, depth: int, inStartTag: bool, names: seq<QName>)

  function AttrNodes(attrs: seq<Attr>): (r: seq<Node>)
    ensures |r| == |attrs|
    ensures forall i :: 0 <= i < |attrs| ==> r[i] == AttributeNode(attrs[i])
  {
    seq(|attrs|, i requires 0 <= i < |attrs| => AttributeNode(attrs[i]))
  }

  /** One node of addNodes. */
  function FlattenNode(st: FlatState, n: Node): (r: Result<FlatState>)
    ensures (n.AttributeNode? || n.NamespaceNode? || n.AttributeMapNode?) ==> (r.Failure? <==> !st.inStartTag)
    ensures n.EndElementNode? ==> (r.Failure? <==> |st.names| == 0)
    ensures r.Failure? ==> r.error == XmlStream
    decreases n
  {
    match n
    case StartElementNode(q) =>
      Success(FlatState(st.out + [n], st.depth + 1, true, st.names + [q]))
    case EndElementNode(_) =>
      if |st.names| == 0 then Failure(XmlStream)
      else
        var startName := st.names[|st.names| - 1];
        Success(FlatState(st.out + [EndElementNode(Some(startName))], st.depth - 1, false, st.names[..|st.names| - 1]))
    case StartDocumentNode(_, _) => Success(st)
    case EndDocumentNode => Success(st)
    case AttributeNode(_) =>
      if !st.inStartTag then Failure(XmlStream) else Success(st.(out := st.out + [n]))
    case NamespaceNode(_, _) =>
      if !st.inStartTag then Failure(XmlStream) else Success(st.(out := st.out + [n]))
    case TextNode(_) => Success(st.(out := st.out + [n], inStartTag := false))
    case CDataNode(_) => Success(st.(out := st.out + [n], inStartTag := false))
    case CommentNode(_) => Success(st.(out := st.out + [n], inStartTag := false))
    case PINode(_, _) => Success(st.(out := st.out + [n], inStartTag := false))
    case EntityRefNode(_) => Success(st.(out := st.out + [n], inStartTag := false))
    case CollectionNode(nodes) => FlattenNodes(st, nodes)
    case ElementNode(q, attrs, namespaces, children) =>
      // The expansion pushes no name and leaves the start-tag flag as its children left it.
      var withNamespaces :- FlattenNodes(OpenElement(st, q, attrs), namespaces);
      var withChildren :- FlattenNodes(withNamespaces, children);
      Success(CloseElement(withChildren, q))
    case AttributeMapNode(attrs) =>
      if !st.inStartTag then Failure(XmlStream) else Success(st.(out := st.out + AttrNodes(attrs)))
  }

  /** addNodes: every node of the collection in turn; the first failure ends it. */
  function FlattenNodes(st: FlatState, nodes: seq<Node>): (r: Result<FlatState>)
    ensures r.Failure? ==> r.error == XmlStream
    decreases nodes
  {
    if |nodes| == 0 then Success(st)
    else
      var st1 :- FlattenNode(st, nodes[0]);
      FlattenNodes(st1, nodes[1..])
  }

  const NoNodes: FlatState := FlatState([], 0, false, [])

  /** The constructor's flattening: addNodes, then the depth must be back at zero. */
  function Flatten(nodes: seq<Node>): (r: Result<FlatNodes>)
  {
    var st :- FlattenNodes(NoNodes, nodes);
    if st.depth != 0 then Failure(XmlStream)
    else
      FlattenFacts(nodes);
      var flat: FlatNodes := st.out;
      Success(flat)
  }

  /** What the constructor does with the outcome of addNodes. */
  lemma OpenOutcomes(readNodes: seq<Node>, f: Result<FlatState>)
    requires f == FlattenNodes(NoNodes, readNodes)
    ensures f.Failure? ==> Open(readNodes) == Failure(f.error)
    ensures f.Success? && f.value.depth != 0 ==> Open(readNodes) == Failure(XmlStream)
    ensures f.Success? && f.value.depth == 0 ==> AllFlat(f.value.out) && Open(readNodes) == Success(NewCursor(f.value.out))
  {
    FlattenFacts(readNodes);
  }

  // ---------------------------------------------------------------------
  // Balance of the flattened nodes

  /** +1 for a start marker, -1 for an end marker, 0 for anything else. */
  function Delta(n: Node): int
  {
    if n.StartElementNode? then 1 else if n.EndElementNode? then -1 else 0
  }

  /** Start markers minus end markers. */
  function Balance(nodes: seq<Node>): int
  {
    if |nodes| == 0 then 0 else Balance(nodes[..|nodes| - 1]) + Delta(nodes[|nodes| - 1])
  }

  /** No prefix closes more elements than it opened. */
  ghost predicate NeverNegative(nodes: seq<Node>)
  {
    forall k :: 0 <= k <= |nodes| ==> Balance(Prefix(nodes, k)) >= 0
  }

  /** The first k nodes. */
  function Prefix(nodes: seq<Node>, k: nat): (p: seq<Node>)
    requires k <= |nodes|
    ensures |p| == k
  {
    nodes[..k]
  }

  /**
   * What addNodes keeps: the depth is the balance of what was emitted, no
   * prefix of it closes more than it opened, all of it is flat, and at
   * least one element is open per pending start name.
   */
  ghost predicate FlatInvariant(st: FlatState)
  {
    Balance(st.out) == st.depth && NeverNegative(st.out) && AllFlat(st.out) && st.depth >= |st.names|
  }

  /** Open elements not on the name stack: those expanded from whole Element nodes. */
  function Level(st: FlatState): int
  {
    st.depth - |st.names|
  }

  lemma {:induction false} BalanceAppend(a: seq<Node>, b: seq<Node>)
    ensures Balance(a + b) == Balance(a) + Balance(b)
    decreases |b|
  {
    if |b| == 0 {
      assert a + b == a;
    } else {
      assert (a + b)[..|a + b| - 1] == a + b[..|b| - 1];
      BalanceAppend(a, b[..|b| - 1]);
    }
  }

  lemma {:induction false} AttrNodesBalance(attrs: seq<Attr>)
    ensures Balance(AttrNodes(attrs)) == 0
    decreases |attrs|
  {
    if |attrs| > 0 {
      assert AttrNodes(attrs)[..|attrs| - 1] == AttrNodes(attrs[..|attrs| - 1]);
      AttrNodesBalance(attrs[..|attrs| - 1]);
    }
  }

  /** Appending nodes that change the balance by nothing on any prefix keeps the invariant's prefix part. */
  lemma NeverNegativeAppendOne(s: seq<Node>, x: Node)
    requires NeverNegative(s)
    requires Balance(s) + Delta(x) >= 0
    ensures NeverNegative(s + [x])
  {
    forall k | 0 <= k <= |s + [x]| ensures Balance(Prefix(s + [x], k)) >= 0 {
      if k <= |s| {
        assert (s + [x])[..k] == Prefix(s, k);
      } else {
        assert (s + [x])[..k] == s + [x];
        assert (s + [x])[..|s + [x]| - 1] == s;
      }
    }
  }

  lemma {:induction false} NeverNegativeAppendAttrs(s: seq<Node>, attrs: seq<Attr>)
    requires NeverNegative(s) && Balance(s) >= 0
    ensures NeverNegative(s + AttrNodes(attrs))
    ensures Balance(s + AttrNodes(attrs)) == Balance(s)
    decreases |attrs|
  {
    BalanceAppend(s, AttrNodes(attrs));
    AttrNodesBalance(attrs);
    if |attrs| > 0 {
      var init := attrs[..|attrs| - 1];
      var x := AttributeNode(attrs[|attrs| - 1]);
      var t := s + AttrNodes(init);
      NeverNegativeAppendAttrs(s, init);
      AttrNodesSnoc(s, attrs);
      NeverNegativeAppendOne(t, x);
    } else {
      assert s + AttrNodes(attrs) == s;
    }
  }

  /** The attribute nodes of a non-empty run: those of all but the last, then the last. */
  lemma AttrNodesSnoc(s: seq<Node>, attrs: seq<Attr>)
    requires |attrs| > 0
    ensures s + AttrNodes(attrs) == (s + AttrNodes(attrs[..|attrs| - 1])) + [AttributeNode(attrs[|attrs| - 1])]
  {
    assert AttrNodes(attrs) == AttrNodes(attrs[..|attrs| - 1]) + [AttributeNode(attrs[|attrs| - 1])];
  }

  lemma AllFlatAppend(a: seq<Node>, b: seq<Node>)
    requires AllFlat(a) && AllFlat(b)
    ensures AllFlat(a + b)
  {
    forall i | 0 <= i < |a + b| ensures FlatNode((a + b)[i]) {
      if i >= |a| {
        assert (a + b)[i] == b[i - |a|];
      }
    }
  }

  /** Appending one node: the balance moves by its delta. */
  lemma BalanceAppendOne(s: seq<Node>, x: Node)
    ensures Balance(s + [x]) == Balance(s) + Delta(x)
  {
    assert (s + [x])[..|s + [x]| - 1] == s;
  }

  /** Appending one flat node that does not close more than is open keeps the invariant's sequence part. */
  lemma AppendFlat(s: seq<Node>, x: Node)
    requires NeverNegative(s) && AllFlat(s) && FlatNode(x)
    requires Balance(s) + Delta(x) >= 0
    ensures Balance(s + [x]) == Balance(s) + Delta(x)
    ensures NeverNegative(s + [x]) && AllFlat(s + [x])
  {
    BalanceAppendOne(s, x);
    NeverNegativeAppendOne(s, x);
    AllFlatAppend(s, [x]);
  }

  /** The whole-Element case of FlattenNodeFacts. */
  lemma {:induction false} FlattenElementFacts(st: FlatState, n: Node)
    requires n.ElementNode?
    requires FlatInvariant(st)
    requires FlattenNode(st, n).Success?
    ensures FlatInvariant(FlattenNode(st, n).value)
    ensures Level(FlattenNode(st, n).value) == Level(st)
    ensures st.out <= FlattenNode(st, n).value.out
    decreases n, 1
  {
    var openTag := OpenElement(st, n.name, n.attributes);
    OpenElementFacts(st, n.name, n.attributes);
    FlattenNodesFacts(openTag, n.namespaces);
    var withNamespaces := FlattenNodes(openTag, n.namespaces).value;
    FlattenNodesFacts(withNamespaces, n.childNodes);
    var withChildren := FlattenNodes(withNamespaces, n.childNodes).value;
    assert FlattenNode(st, n).value == CloseElement(withChildren, n.name);
    CloseElementFacts(withChildren, n.name);
  }

  /** The state after the start marker and the attributes of a whole Element node. */
  function OpenElement(st: FlatState, q: QName, attrs: seq<Attr>): FlatState
  {
    FlatState(st.out + [StartElementNode(q)] + AttrNodes(attrs), st.depth + 1, true, st.names)
  }

  /** The state after the end marker of a whole Element node. */
  function CloseElement(st: FlatState, q: QName): FlatState
  {
    st.(out := st.out + [EndElementNode(Some(q))], depth := st.depth - 1)
  }

  lemma OpenElementFacts(st: FlatState, q: QName, attrs: seq<Attr>)
    requires FlatInvariant(st)
    ensures FlatInvariant(OpenElement(st, q, attrs))
    ensures Level(OpenElement(st, q, attrs)) == Level(st) + 1
    ensures st.out <= OpenElement(st, q, attrs).out
  {
    var start := StartElementNode(q);
    AppendFlat(st.out, start);
    NeverNegativeAppendAttrs(st.out + [start], attrs);
    AllFlatAppend(st.out + [start], AttrNodes(attrs));
  }

  lemma CloseElementFacts(st: FlatState, q: QName)
    requires FlatInvariant(st) && Level(st) >= 1
    ensures FlatInvariant(CloseElement(st, q))
    ensures Level(CloseElement(st, q)) == Level(st) - 1
    ensures st.out <= CloseElement(st, q).out
  {
    AppendFlat(st.out, EndElementNode(Some(q)));
  }

  /**
   * One node of addNodes keeps the invariant, extends what was emitted and
   * leaves the number of open whole-Element expansions as it was.
   */
  lemma {:induction false} FlattenNodeFacts(st: FlatState, n: Node)
    requires FlatInvariant(st)
    requires FlattenNode(st, n).Success?
    ensures FlatInvariant(FlattenNode(st, n).value)
    ensures Level(FlattenNode(st, n).value) == Level(st)
    ensures st.out <= FlattenNode(st, n).value.out
    decreases n, 2
  {
    match n
    case CollectionNode(nodes) => FlattenNodesFacts(st, nodes);
    case ElementNode(_, _, _, _) => FlattenElementFacts(st, n);
    case AttributeMapNode(attrs) => AttributeMapFacts(st, attrs);
    case StartElementNode(_) => StartMarkerFacts(st, n);
    case EndElementNode(_) => EndMarkerFacts(st, n);
    case _ => LeafFacts(st, n);
  }

  /** A start marker: one more open element, and its name pushed. */
  lemma StartMarkerFacts(st: FlatState, n: Node)
    requires n.StartElementNode? && FlatInvariant(st)
    ensures FlattenNode(st, n).Success?
    ensures FlatInvariant(FlattenNode(st, n).value)
    ensures Level(FlattenNode(st, n).value) == Level(st)
    ensures st.out <= FlattenNode(st, n).value.out
  {
    var r := FlatState(st.out + [n], st.depth + 1, true, st.names + [n.startName]);
    assert FlattenNode(st, n) == Success(r);
    AppendFlat(st.out, n);
  }

  /** An end marker with a name to pop: one element fewer, under the popped name. */
  lemma EndMarkerFacts(st: FlatState, n: Node)
    requires n.EndElementNode? && FlatInvariant(st) && |st.names| > 0
    ensures FlattenNode(st, n).Success?
    ensures FlatInvariant(FlattenNode(st, n).value)
    ensures Level(FlattenNode(st, n).value) == Level(st)
    ensures st.out <= FlattenNode(st, n).value.out
  {
    var x := EndElementNode(Some(st.names[|st.names| - 1]));
    var r := FlatState(st.out + [x], st.depth - 1, false, st.names[..|st.names| - 1]);
    assert FlattenNode(st, n) == Success(r);
    AppendFlat(st.out, x);
  }

  /** A node that is neither a marker nor a container: at most itself is emitted, and it changes no balance. */
  lemma LeafFacts(st: FlatState, n: Node)
    requires !(n.CollectionNode? || n.ElementNode? || n.AttributeMapNode? || n.StartElementNode? || n.EndElementNode?)
    requires FlatInvariant(st)
    requires FlattenNode(st, n).Success?
    ensures FlatInvariant(FlattenNode(st, n).value)
    ensures Level(FlattenNode(st, n).value) == Level(st)
    ensures st.out <= FlattenNode(st, n).value.out
  {
    if !(n.StartDocumentNode? || n.EndDocumentNode?) {
      AppendFlat(st.out, n);
    }
  }

  /** An attribute map: its attributes are emitted in turn, none of them a marker. */
  lemma AttributeMapFacts(st: FlatState, attrs: seq<Attr>)
    requires FlatInvariant(st)
    requires FlattenNode(st, AttributeMapNode(attrs)).Success?
    ensures FlatInvariant(FlattenNode(st, AttributeMapNode(attrs)).value)
    ensures Level(FlattenNode(st, AttributeMapNode(attrs)).value) == Level(st)
    ensures st.out <= FlattenNode(st, AttributeMapNode(attrs)).value.out
  {
    var r := st.(out := st.out + AttrNodes(attrs));
    assert FlattenNode(st, AttributeMapNode(attrs)) == Success(r);
    NeverNegativeAppendAttrs(st.out, attrs);
    AllFlatAppend(st.out, AttrNodes(attrs));
    assert FlatInvariant(r);
  }

  lemma {:induction false} FlattenNodesFacts(st: FlatState, nodes: seq<Node>)
    requires FlatInvariant(st)
    requires FlattenNodes(st, nodes).Success?
    ensures FlatInvariant(FlattenNodes(st, nodes).value)
    ensures Level(FlattenNodes(st, nodes).value) == Level(st)
    ensures st.out <= FlattenNodes(st, nodes).value.out
    decreases nodes, 3
  {
    if |nodes| > 0 {
      FlattenNodeFacts(st, nodes[0]);
      FlattenNodesFacts(FlattenNode(st, nodes[0]).value, nodes[1..]);
    }
  }

  /**
   * A successful flattening is flat, balanced, and never closes an element
   * it has not opened, whatever mix of collections, whole elements and
   * loose markers it started from.
   */
  lemma FlattenFacts(nodes: seq<Node>)
    ensures FlattenNodes(NoNodes, nodes).Success? ==>
      var st := FlattenNodes(NoNodes, nodes).value;
      AllFlat(st.out) && NeverNegative(st.out) && Balance(st.out) == st.depth &&
      (st.depth == 0 <==> st.names == [])
  {
    assert NoNodes.out[..0] == [];
    assert FlatInvariant(NoNodes);
    if FlattenNodes(NoNodes, nodes).Success? {
      FlattenNodesFacts(NoNodes, nodes);
    }
  }

  // ---------------------------------------------------------------------
  // The cursor (hasNext / next)

  /**
   * The reader's position over the flattened nodes: the current event,
   * the namespace context in scope, the context the last start tag set up
   * (what an end tag reports), and the contexts saved by open start tags.
   */
  datatype Cursor = Cursor(
    nodes: FlatNodes,
    position: int,
    current: Option<Event>,
    ctx: NsContext,
    endCtx: Option<NsContext>,
    ctxStack: seq<NsContext>)

  /** The constructor's state: before the first node, one context saved. */
  function NewCursor(nodes: FlatNodes): Cursor
  {
    Cursor(nodes, -1, None, Initialized(), None, [Initialized()])
  }

  /** The reader over a node collection, or the exception the constructor throws. */
  function Open(readNodes: seq<Node>): (r: Result<Cursor>)
    ensures r.Success? ==> r.value.position == -1 && r.value.current.None?
    ensures r.Success? ==> NeverNegative(r.value.nodes) && Balance(r.value.nodes) == 0
  {
    var flat :- Flatten(readNodes);
    FlattenFacts(readNodes);
    Success(NewCursor(flat))
  }

  predicate HasMore(c: Cursor)
  {
    c.position + 1 < |c.nodes|
  }

  /** What the lookahead after a start marker collects. */
  datatype Group = Group(attributes: seq<Attr>, namespaces: seq<NsDecl>, ctx: NsContext, count: nat)

  /**
   * The namespace update of the lookahead, as the reader performs it: a
   * declaration with a non-empty prefix sets the default namespace, and one
   * without a prefix is bound as a prefix.
   */
  function DeclareNamespace(c: NsContext, prefix: Option<string>, uri: string): NsContext
  {
    if prefix.Some? && prefix.value != "" then WithDefault(c, Some(uri))
    else Add(c, prefix, uri)
  }

  /** The lookahead from index k: attribute and namespace entries until anything else. */
  function Lookahead(nodes: seq<Node>, k: int, g: Group): Group
    requires 0 <= k
    decreases |nodes| - k
  {
    if k >= |nodes| then g
    else
      match nodes[k]
      case AttributeNode(a) =>
        Lookahead(nodes, k + 1, g.(attributes := g.attributes + [a], count := g.count + 1))
      case NamespaceNode(p, u) =>
        Lookahead(nodes, k + 1, g.(namespaces := g.namespaces + [NsDecl(p, u)], ctx := DeclareNamespace(g.ctx, p, u), count := g.count + 1))
      case _ => g
  }

  /** The group a start marker at index p gathers, starting from a copy of the context in scope. */
  function GroupAt(nodes: seq<Node>, p: nat, ctx: NsContext): Group
  {
    Lookahead(nodes, p + 1, Group([], [], Copy(ctx), 0))
  }

  /** next() */
  function Advance(c: Cursor): (r: Result<Cursor>)
    requires -1 <= c.position
    ensures !HasMore(c) <==> r == Failure(NoSuchElement)
    ensures r.Success? ==> r.value.nodes == c.nodes && c.position < r.value.position < |c.nodes| && r.value.current.Some?
  {
    if !HasMore(c) then Failure(NoSuchElement)
    else
      var p := c.position + 1;
      match c.nodes[p]
      case StartElementNode(q) =>
        var g := GroupAt(c.nodes, p, c.ctx);
        LookaheadCount(c.nodes, p + 1, Group([], [], Copy(c.ctx), 0));
        Success(Cursor(c.nodes, p + g.count, Some(StartElementEvent(q, g.attributes, g.namespaces)),
          g.ctx, Some(g.ctx), c.ctxStack + [c.ctx]))
      case EndElementNode(name) =>
        if |c.ctxStack| == 0 then Failure(EmptyStack)
        else
          Success(c.(position := p, current := Some(EndElementEvent(name.value)),
            ctx := c.ctxStack[|c.ctxStack| - 1], ctxStack := c.ctxStack[..|c.ctxStack| - 1]))
      case TextNode(t) => Success(c.(position := p, current := Some(CharactersEvent(t))))
      case CDataNode(t) => Success(c.(position := p, current := Some(CDataEvent(t))))
      case CommentNode(t) => Success(c.(position := p, current := Some(CommentEvent(t))))
      case PINode(target, data) => Success(c.(position := p, current := Some(PIEvent(target, data))))
      case EntityRefNode(n) => Success(c.(position := p, current := Some(EntityReferenceEvent(n, Some(n)))))
      case AttributeNode(_) => Failure(XmlStream)
      case NamespaceNode(_, _) => Failure(XmlStream)
      case StartDocumentNode(_, _) => Failure(XmlStream)
      case EndDocumentNode => Failure(XmlStream)
      case CollectionNode(_) => Failure(XmlStream)
      case ElementNode(_, _, _, _) => Failure(XmlStream)
      case AttributeMapNode(_) => Failure(XmlStream)
  }

  // ---------------------------------------------------------------------
  // Accessors that depend on the replayed nodes

  /** getNamespaceURI(prefix): at an end tag, from the context the last start tag set up. */
  function GetNamespaceURIFor(c: Cursor, prefix: Option<string>): (r: Result<string>)
    ensures prefix.None? ==> r.Failure?
    ensures !(c.current.Some? && c.current.value.EndElementEvent?) ==> r == GetNamespaceURI(c.ctx, prefix)
  {
    if c.current.Some? && c.current.value.EndElementEvent? then
      if c.endCtx.None? then Failure(NullPointer) else GetNamespaceURI(c.endCtx.value, prefix)
    else GetNamespaceURI(c.ctx, prefix)
  }

  /** isWhiteSpace(): text, CDATA and comments made of Java white space only. */
  predicate IsWhiteSpace(c: Cursor)
  {
    match c.current
    case Some(CharactersEvent(t)) => TextWhitespace(t)
    case Some(CDataEvent(t)) => TextWhitespace(Some(t))
    case Some(CommentEvent(t)) => TextWhitespace(Some(t))
    case _ => false
  }

  /** getLocalName() as written: only start and end tags have one. */
  function GetLocalNameAsWritten(c: Cursor): (r: Result<string>)
    ensures r.Success? <==> HasName(c.current)
    ensures r.Success? ==> r.value == GetName(c.current).value.localPart
  {
    var q :- GetName(c.current);
    Success(q.localPart)
  }

  /**
   * getLocalName() as the XMLStreamReader contract has it, and as the
   * transformer relies on at entity references: the entity name there.
   */
  function GetLocalName(c: Cursor): (r: Result<string>)
    ensures r.Success? <==> HasName(c.current) || (c.current.Some? && c.current.value.EntityReferenceEvent?)
    ensures HasName(c.current) ==> r == GetLocalNameAsWritten(c)
    ensures c.current.Some? && c.current.value.EntityReferenceEvent? ==> r == Success(c.current.value.entityName)
  {
    if c.current.Some? && c.current.value.EntityReferenceEvent? then Success(c.current.value.entityName)
    else GetLocalNameAsWritten(c)
  }

  /**
   * A reader over one entity reference node, moved onto it: getLocalName as
   * written throws there, the corrected one gives the entity's name.
   */
  /** A document of one entity reference flattens to that node alone. */
  lemma OpenOneEntity(w: string)
    ensures AllFlat([EntityRefNode(w)])
    ensures Open([EntityRefNode(w)]) == Success(NewCursor([EntityRefNode(w)]))
  {
    var n := EntityRefNode(w);
    assert FlatNode(n);
    var st := FlatState([n], 0, false, []);
    assert [] + [n] == [n];
    assert FlattenNode(NoNodes, n) == Success(st);
    assert [n][1..] == [];
    assert FlattenNodes(st, []) == Success(st);
    assert FlattenNodes(NoNodes, [n]) == Success(st);
    var flat: FlatNodes := [n];
    assert Flatten([n]) == Success(flat);
  }

  lemma EntityNameCounterexample(w: string)
    ensures Open([EntityRefNode(w)]).Success?
    ensures var c := Open([EntityRefNode(w)]).value;
            Advance(c).Success? &&
            GetLocalNameAsWritten(Advance(c).value).Failure? &&
            GetLocalName(Advance(c).value) == Success(w)
  {
    OpenOneEntity(w);
    var c := NewCursor([EntityRefNode(w)]);
    assert Advance(c) == Success(c.(position := 0, current := Some(EntityReferenceEvent(w, Some(w)))));
  }

  // ---------------------------------------------------------------------
  // What the lookahead gathers

  predicate StartTagEntry(n: Node)
  {
    n.AttributeNode? || n.NamespaceNode?
  }

  /** The attributes among some nodes, in order. */
  function AttributesOf(nodes: seq<Node>): seq<Attr>
  {
    if |nodes| == 0 then []
    else (if nodes[0].AttributeNode? then [nodes[0].attr] else []) + AttributesOf(nodes[1..])
  }

  /** The namespace declarations among some nodes, in order. */
  function NamespacesOf(nodes: seq<Node>): seq<NsDecl>
  {
    if |nodes| == 0 then []
    else (if nodes[0].NamespaceNode? then [NsDecl(nodes[0].prefix, nodes[0].namespaceURI)] else []) + NamespacesOf(nodes[1..])
  }

  /** The group after one attribute or namespace entry. */
  function TakeEntry(g: Group, n: Node): Group
    requires StartTagEntry(n)
  {
    if n.AttributeNode? then g.(attributes := g.attributes + [n.attr], count := g.count + 1)
    else g.(namespaces := g.namespaces + [NsDecl(n.prefix, n.namespaceURI)], ctx := DeclareNamespace(g.ctx, n.prefix, n.namespaceURI), count := g.count + 1)
  }

  lemma LookaheadStep(nodes: seq<Node>, k: nat, g: Group)
    requires k < |nodes| && StartTagEntry(nodes[k])
    ensures Lookahead(nodes, k, g) == Lookahead(nodes, k + 1, TakeEntry(g, nodes[k]))
  {
  }

  lemma LookaheadStop(nodes: seq<Node>, k: nat, g: Group)
    requires k >= |nodes| || !StartTagEntry(nodes[k])
    ensures Lookahead(nodes, k, g) == g
  {
  }

  /** The end of the longest run of attribute and namespace entries starting at k. */
  function RunEnd(nodes: seq<Node>, k: nat): (e: nat)
    requires k <= |nodes|
    ensures k <= e <= |nodes|
    ensures forall i :: k <= i < e ==> StartTagEntry(nodes[i])
    ensures e < |nodes| ==> !StartTagEntry(nodes[e])
    decreases |nodes| - k
  {
    if k < |nodes| && StartTagEntry(nodes[k]) then RunEnd(nodes, k + 1) else k
  }

  /**
   * The lookahead from k stops at the end of the longest run of attribute
   * and namespace entries starting at k; it collects the attributes and the
   * declarations of that run, in order, and counts every entry of it.
   */
  lemma LookaheadRun(nodes: seq<Node>, k: nat, g: Group)
    requires k <= |nodes|
    ensures Lookahead(nodes, k, g).count == g.count + (RunEnd(nodes, k) - k)
    ensures Lookahead(nodes, k, g).attributes == g.attributes + AttributesOf(nodes[k..RunEnd(nodes, k)])
    ensures Lookahead(nodes, k, g).namespaces == g.namespaces + NamespacesOf(nodes[k..RunEnd(nodes, k)])
  {
    LookaheadCount(nodes, k, g);
    LookaheadAttributes(nodes, k, g);
    LookaheadNamespaces(nodes, k, g);
  }

  lemma {:induction false} LookaheadCount(nodes: seq<Node>, k: nat, g: Group)
    requires k <= |nodes|
    ensures Lookahead(nodes, k, g).count == g.count + (RunEnd(nodes, k) - k)
    decreases |nodes| - k
  {
    if k < |nodes| && StartTagEntry(nodes[k]) {
      LookaheadStep(nodes, k, g);
      LookaheadCount(nodes, k + 1, TakeEntry(g, nodes[k]));
    } else {
      LookaheadStop(nodes, k, g);
    }
  }

  lemma {:induction false} LookaheadAttributes(nodes: seq<Node>, k: nat, g: Group)
    requires k <= |nodes|
    ensures Lookahead(nodes, k, g).attributes == g.attributes + AttributesOf(nodes[k..RunEnd(nodes, k)])
    decreases |nodes| - k
  {
    if k < |nodes| && StartTagEntry(nodes[k]) {
      LookaheadStep(nodes, k, g);
      LookaheadAttributes(nodes, k + 1, TakeEntry(g, nodes[k]));
      AttributesStep(nodes, k, g);
    } else {
      LookaheadStop(nodes, k, g);
      assert nodes[k..k] == [];
    }
  }

  /** Taking one entry of a run moves its attributes from the run to the group. */
  lemma AttributesStep(nodes: seq<Node>, k: nat, g: Group)
    requires k < |nodes| && StartTagEntry(nodes[k])
    ensures TakeEntry(g, nodes[k]).attributes + AttributesOf(nodes[k + 1..RunEnd(nodes, k + 1)]) == g.attributes + AttributesOf(nodes[k..RunEnd(nodes, k)])
  {
    var e := RunEnd(nodes, k);
    assert e == RunEnd(nodes, k + 1);
    var head := if nodes[k].AttributeNode? then [nodes[k].attr] else [];
    assert TakeEntry(g, nodes[k]).attributes == g.attributes + head;
    AttributesOfRun(nodes, k, e);
    assert g.attributes + head + AttributesOf(nodes[k + 1..e]) == g.attributes + (head + AttributesOf(nodes[k + 1..e]));
  }

  /** The attributes of a run are its first entry's, then the rest's. */
  lemma AttributesOfRun(nodes: seq<Node>, k: nat, e: nat)
    requires k < e <= |nodes|
    ensures AttributesOf(nodes[k..e]) == (if nodes[k].AttributeNode? then [nodes[k].attr] else []) + AttributesOf(nodes[k + 1..e])
  {
    assert nodes[k..e][1..] == nodes[k + 1..e];
  }

  lemma {:induction false} LookaheadNamespaces(nodes: seq<Node>, k: nat, g: Group)
    requires k <= |nodes|
    ensures Lookahead(nodes, k, g).namespaces == g.namespaces + NamespacesOf(nodes[k..RunEnd(nodes, k)])
    decreases |nodes| - k
  {
    if k < |nodes| && StartTagEntry(nodes[k]) {
      LookaheadStep(nodes, k, g);
      LookaheadNamespaces(nodes, k + 1, TakeEntry(g, nodes[k]));
      NamespacesStep(nodes, k, g);
    } else {
      LookaheadStop(nodes, k, g);
      assert nodes[k..k] == [];
    }
  }

  /** Taking one entry of a run moves its namespaces from the run to the group. */
  lemma NamespacesStep(nodes: seq<Node>, k: nat, g: Group)
    requires k < |nodes| && StartTagEntry(nodes[k])
    ensures TakeEntry(g, nodes[k]).namespaces + NamespacesOf(nodes[k + 1..RunEnd(nodes, k + 1)]) == g.namespaces + NamespacesOf(nodes[k..RunEnd(nodes, k)])
  {
    var e := RunEnd(nodes, k);
    assert e == RunEnd(nodes, k + 1);
    var head := if nodes[k].NamespaceNode? then [NsDecl(nodes[k].prefix, nodes[k].namespaceURI)] else [];
    assert TakeEntry(g, nodes[k]).namespaces == g.namespaces + head;
    NamespacesOfRun(nodes, k, e);
    assert g.namespaces + head + NamespacesOf(nodes[k + 1..e]) == g.namespaces + (head + NamespacesOf(nodes[k + 1..e]));
  }

  /** The declarations of a run are its first entry's, then the rest's. */
  lemma NamespacesOfRun(nodes: seq<Node>, k: nat, e: nat)
    requires k < e <= |nodes|
    ensures NamespacesOf(nodes[k..e]) ==
            (if nodes[k].NamespaceNode? then [NsDecl(nodes[k].prefix, nodes[k].namespaceURI)] else []) + NamespacesOf(nodes[k + 1..e])
  {
    assert nodes[k..e][1..] == nodes[k + 1..e];
  }

  /**
   * At a start marker, next() reports the start tag with exactly the
   * attributes and declarations of the run that follows it, moves the
   * cursor to the last entry of that run, and saves the context in scope.
   * The attribute count is the number of attribute entries skipped.
   */
  lemma NextAtStart(c: Cursor)
    requires -1 <= c.position && HasMore(c)
    requires c.nodes[c.position + 1].StartElementNode?
    ensures Advance(c).Success?
    ensures var p := c.position + 1;
      var d := Advance(c).value;
      && d.position + 1 == RunEnd(c.nodes, p + 1)
      && d.current == Some(StartElementEvent(c.nodes[p].startName, AttributesOf(c.nodes[p + 1..d.position + 1]), NamespacesOf(c.nodes[p + 1..d.position + 1])))
      && GetAttributeCount(d.current) == Success(|AttributesOf(c.nodes[p + 1..d.position + 1])|)
      && d.ctxStack == c.ctxStack + [c.ctx]
      && d.endCtx == Some(d.ctx)
  {
    var p := c.position + 1;
    var g0 := Group([], [], Copy(c.ctx), 0);
    var g := GroupAt(c.nodes, p, c.ctx);
    assert Advance(c) == Success(Cursor(c.nodes, p + g.count, Some(StartElementEvent(c.nodes[p].startName, g.attributes, g.namespaces)),
      g.ctx, Some(g.ctx), c.ctxStack + [c.ctx]));
    LookaheadRun(c.nodes, p + 1, g0);
    assert g0.attributes + AttributesOf(c.nodes[p + 1..RunEnd(c.nodes, p + 1)]) == AttributesOf(c.nodes[p + 1..RunEnd(c.nodes, p + 1)]);
    assert g0.namespaces + NamespacesOf(c.nodes[p + 1..RunEnd(c.nodes, p + 1)]) == NamespacesOf(c.nodes[p + 1..RunEnd(c.nodes, p + 1)]);
  }

  /** A declaration with a non-empty prefix binds no prefix: it replaces the default namespace. */
  lemma PrefixedDeclarationSetsDefault(c: NsContext, p: string, u: string, q: Option<string>)
    requires p != ""
    ensures DeclareNamespace(c, Some(p), u).defaultUri == Some(u)
    ensures GetNamespaceURI(DeclareNamespace(c, Some(p), u), q) == GetNamespaceURI(c, q)
  {
  }

  /** A declaration without a prefix (or with the empty one) is bound as that prefix; the default is kept. */
  lemma UnprefixedDeclarationBindsPrefix(c: NsContext, p: Option<string>, u: string)
    requires p.None? || p == Some("")
    ensures DeclareNamespace(c, p, u).defaultUri == c.defaultUri
    ensures p in DeclareNamespace(c, p, u).prefixes && DeclareNamespace(c, p, u).prefixes[p] == u
  {
  }

  // ---------------------------------------------------------------------
  // The cursor over a balanced flattening never runs out of saved contexts

  /** The saved contexts match the elements open at the cursor. */
  ghost predicate CursorInvariant(c: Cursor)
  {
    && -1 <= c.position < |c.nodes|
    && NeverNegative(c.nodes)
    && |c.ctxStack| == 1 + Balance(c.nodes[..c.position + 1])
  }

  lemma OpenSatisfiesInvariant(readNodes: seq<Node>)
    requires Open(readNodes).Success?
    ensures CursorInvariant(Open(readNodes).value)
  {
    assert Open(readNodes).value.nodes[..0] == [];
  }

  lemma {:induction false} BalanceOfEntries(nodes: seq<Node>, k: nat, e: nat)
    requires k <= e <= |nodes|
    requires forall i :: k <= i < e ==> StartTagEntry(nodes[i])
    ensures Balance(nodes[..e]) == Balance(nodes[..k])
    decreases e - k
  {
    if k < e {
      BalanceOfEntries(nodes, k, e - 1);
      assert nodes[..e] == nodes[..e - 1] + [nodes[e - 1]];
      BalanceAppendOne(nodes[..e - 1], nodes[e - 1]);
    }
  }

  /**
   * next() on a cursor over a balanced flattening never pops an empty
   * context stack and keeps the stack in step with the open elements.
   */
  lemma NextKeepsInvariant(c: Cursor)
    requires CursorInvariant(c)
    ensures Advance(c) != Failure(EmptyStack)
    ensures Advance(c).Success? ==> CursorInvariant(Advance(c).value)
  {
    if HasMore(c) {
      var p := c.position + 1;
      PrefixStep(c.nodes, p);
      if c.nodes[p].StartElementNode? {
        StartKeepsInvariant(c);
      } else if c.nodes[p].EndElementNode? {
        EndKeepsInvariant(c);
      } else {
        OtherKeepsInvariant(c);
      }
    }
  }

  /** One more node of a prefix: the balance moves by its delta. */
  lemma PrefixStep(nodes: seq<Node>, p: nat)
    requires p < |nodes|
    ensures Balance(nodes[..p + 1]) == Balance(nodes[..p]) + Delta(nodes[p])
  {
    assert nodes[..p + 1] == nodes[..p] + [nodes[p]];
    BalanceAppendOne(nodes[..p], nodes[p]);
  }

  /** At a start marker: one context saved, one element opened, and the entries after it open nothing. */
  lemma StartKeepsInvariant(c: Cursor)
    requires CursorInvariant(c) && HasMore(c) && c.nodes[c.position + 1].StartElementNode?
    requires Balance(c.nodes[..c.position + 2]) == Balance(c.nodes[..c.position + 1]) + 1
    ensures Advance(c).Success? && CursorInvariant(Advance(c).value)
  {
    var p := c.position + 1;
    NextAtStart(c);
    var d := Advance(c).value;
    BalanceOfEntries(c.nodes, p + 1, d.position + 1);
  }

  /** At an end marker: a context is saved for every open element, so one can be restored. */
  lemma EndKeepsInvariant(c: Cursor)
    requires CursorInvariant(c) && HasMore(c) && c.nodes[c.position + 1].EndElementNode?
    requires Balance(c.nodes[..c.position + 2]) == Balance(c.nodes[..c.position + 1]) - 1
    ensures Advance(c).Success? && CursorInvariant(Advance(c).value)
  {
    var p := c.position + 1;
    assert Balance(Prefix(c.nodes, p)) >= 0 && Balance(Prefix(c.nodes, p + 1)) >= 0;
    var d := c.(position := p, current := Some(EndElementEvent(c.nodes[p].endName.value)),
                ctx := c.ctxStack[|c.ctxStack| - 1], ctxStack := c.ctxStack[..|c.ctxStack| - 1]);
    assert Advance(c) == Success(d);
  }

  /** At any other node: the stack and the balance stay as they were, or next() fails without popping. */
  lemma OtherKeepsInvariant(c: Cursor)
    requires CursorInvariant(c) && HasMore(c)
    requires !c.nodes[c.position + 1].StartElementNode? && !c.nodes[c.position + 1].EndElementNode?
    requires Balance(c.nodes[..c.position + 2]) == Balance(c.nodes[..c.position + 1])
    ensures Advance(c) != Failure(EmptyStack)
    ensures Advance(c).Success? ==> CursorInvariant(Advance(c).value)
  {
  }

  // ---------------------------------------------------------------------
  // The class

  /** ApplyReader, with the flattened nodes and the cursor state as fields. */
  class ApplyReader {
    var nodes: FlatNodes
    var position: int
    var currentEvent: Option<Event>
    var currentNamespaceContext: NsContext
    var currentEndElementNamespaceContext: Option<NsContext>
    var namespaceContextStack: seq<NsContext>
    // used while the collection is flattened
    var flatNodes: seq<Node>
    var depth: int
    var inElementStartTag: bool
    var elementNameStack: seq<QName>

    /** The cursor the fields hold. */
    function State(): Cursor
      reads this
    {
      Cursor(nodes, position, currentEvent, currentNamespaceContext, currentEndElementNamespaceContext, namespaceContextStack)
    }

    /** The flattening state the fields hold. */
    function Flattening(): FlatState
      reads this
    {
      FlatState(flatNodes, depth, inElementStartTag, elementNameStack)
    }

    constructor Empty()
      ensures Flattening() == NoNodes
    {
      nodes, position, currentEvent := [], -1, None;
      currentNamespaceContext, currentEndElementNamespaceContext := Initialized(), None;
      namespaceContextStack := [Initialized()];
      flatNodes, depth, inElementStartTag, elementNameStack := [], 0, false, [];
    }

    /** new ApplyReader(readNodes): flatten, check the depth, then stand before the first node. */
    static method New(readNodes: seq<Node>) returns (r: Result<ApplyReader>)
      ensures r.Success? <==> Open(readNodes).Success?
      ensures r.Success? ==> fresh(r.value) && r.value.State() == Open(readNodes).value
      ensures r.Failure? ==> r.error == Open(readNodes).error
    {
      var reader := new ApplyReader.Empty();
      ghost var flattened := FlattenNodes(NoNodes, readNodes);
      var added := reader.AddNodes(readNodes);
      OpenOutcomes(readNodes, flattened);
      if added.Failure? {
        return Failure(added.error);
      }
      if reader.depth != 0 {
        return Failure(XmlStream);
      }
      reader.StandBeforeFirst();
      r := Success(reader);
    }

    /** The end of the constructor: the flattened nodes become the cursor's, with nothing read yet. */
    method StandBeforeFirst()
      requires AllFlat(flatNodes)
      modifies this
      ensures State() == NewCursor(old(flatNodes)) && flatNodes == old(flatNodes)
    {
      var start := NewCursor(flatNodes);
      nodes, position, currentEvent, currentNamespaceContext, currentEndElementNamespaceContext, namespaceContextStack :=
        start.nodes, start.position, start.current, start.ctx, start.endCtx, start.ctxStack;
    }

    /** addNodes(readNodes) */
    method AddNodes(readNodes: seq<Node>) returns (r: Result<()>)
      modifies this
      ensures r.Success? <==> FlattenNodes(old(Flattening()), readNodes).Success?
      ensures r.Success? ==> Flattening() == FlattenNodes(old(Flattening()), readNodes).value
      ensures r.Failure? ==> r.error == FlattenNodes(old(Flattening()), readNodes).error
      decreases readNodes, 1
    {
      var i := 0;
      while i < |readNodes|
        invariant 0 <= i <= |readNodes|
        invariant FlattenNodes(old(Flattening()), readNodes) == FlattenNodes(Flattening(), readNodes[i..])
      {
        assert readNodes[i..][0] == readNodes[i];
        assert readNodes[i..][1..] == readNodes[i + 1..];
        var added := AddNode(readNodes[i]);
        if added.Failure? {
          return added;
        }
        i := i + 1;
      }
      return Success(());
    }

    /** The body of addNodes' loop for one node. */
    method AddNode(node: Node) returns (r: Result<()>)
      modifies this
      ensures r.Success? <==> FlattenNode(old(Flattening()), node).Success?
      ensures r.Success? ==> Flattening() == FlattenNode(old(Flattening()), node).value
      ensures r.Failure? ==> r.error == FlattenNode(old(Flattening()), node).error
      decreases node, 1
    {
      match node {
        case StartElementNode(q) =>
          flatNodes := flatNodes + [node];
          depth := depth + 1;
          inElementStartTag := true;
          elementNameStack := elementNameStack + [q];
        case EndElementNode(_) =>
          if |elementNameStack| == 0 {
            return Failure(XmlStream);
          }
          var startName := elementNameStack[|elementNameStack| - 1];
          elementNameStack := elementNameStack[..|elementNameStack| - 1];
          flatNodes := flatNodes + [EndElementNode(Some(startName))];
          depth := depth - 1;
          inElementStartTag := false;
        case StartDocumentNode(_, _) =>
        case EndDocumentNode =>
        case AttributeNode(_) =>
          if !inElementStartTag {
            return Failure(XmlStream);
          }
          flatNodes := flatNodes + [node];
        case NamespaceNode(_, _) =>
          if !inElementStartTag {
            return Failure(XmlStream);
          }
          flatNodes := flatNodes + [node];
        case TextNode(_) =>
          flatNodes := flatNodes + [node];
          inElementStartTag := false;
        case CDataNode(_) =>
          flatNodes := flatNodes + [node];
          inElementStartTag := false;
        case CommentNode(_) =>
          flatNodes := flatNodes + [node];
          inElementStartTag := false;
        case PINode(_, _) =>
          flatNodes := flatNodes + [node];
          inElementStartTag := false;
        case EntityRefNode(_) =>
          flatNodes := flatNodes + [node];
          inElementStartTag := false;
        case CollectionNode(children) =>
          r := AddNodes(children);
          return r;
        case ElementNode(_, _, _, _) =>
          r := AddElement(node);
          return r;
        case AttributeMapNode(attrs) =>
          if !inElementStartTag {
            return Failure(XmlStream);
          }
          AddAttributes(attrs);
      }
      return Success(());
    }

    /** A whole element: a start marker, its attributes, namespaces and children, then an end marker. */
    method AddElement(node: Node) returns (r: Result<()>)
      requires node.ElementNode?
      modifies this
      ensures r.Success? <==> FlattenNode(old(Flattening()), node).Success?
      ensures r.Success? ==> Flattening() == FlattenNode(old(Flattening()), node).value
      ensures r.Failure? ==> r.error == FlattenNode(old(Flattening()), node).error
      decreases node, 0
    {
      var q := node.name;
      flatNodes := flatNodes + [StartElementNode(q)];
      depth := depth + 1;
      inElementStartTag := true;
      AddAttributes(node.attributes);
      assert Flattening() == OpenElement(old(Flattening()), q, node.attributes);
      r := AddNodes(node.namespaces);
      if r.Failure? {
        return r;
      }
      r := AddNodes(node.childNodes);
      if r.Failure? {
        return r;
      }
      flatNodes := flatNodes + [EndElementNode(Some(q))];
      depth := depth - 1;
    }

    /** One attribute node per attribute, in order, after what was emitted. */
    method AddAttributes(attrs: seq<Attr>)
      modifies this
      ensures Flattening() == old(Flattening()).(out := old(flatNodes) + AttrNodes(attrs))
    {
      var k := 0;
      while k < |attrs|
        invariant 0 <= k <= |attrs|
        invariant Flattening() == old(Flattening()).(out := old(flatNodes) + AttrNodes(attrs[..k]))
      {
        assert AttrNodes(attrs[..k + 1]) == AttrNodes(attrs[..k]) + [AttributeNode(attrs[k])];
        flatNodes := flatNodes + [AttributeNode(attrs[k])];
        k := k + 1;
      }
      assert attrs[..k] == attrs;
    }

    /** hasNext() */
    method HasNext() returns (b: bool)
      ensures b == HasMore(State())
    {
      b := position + 1 < |nodes|;
    }

    /** next(): the event it moves to, or the exception it throws. */
    method Next() returns (r: Result<Event>)
      requires -1 <= position
      modifies this
      ensures r.Success? <==> Advance(old(State())).Success?
      ensures r.Success? ==> State() == Advance(old(State())).value && r == Success(currentEvent.value)
      ensures r.Failure? ==> r.error == Advance(old(State())).error
    {
      if !(position + 1 < |nodes|) {
        return Failure(NoSuchElement);
      }
      position := position + 1;
      var currentNode := nodes[position];
      match currentNode {
        case StartElementNode(q) =>
          ReadStartTag(q);
        case EndElementNode(name) =>
          if |namespaceContextStack| == 0 {
            return Failure(EmptyStack);
          }
          currentEvent := Some(EndElementEvent(name.value));
          currentNamespaceContext := namespaceContextStack[|namespaceContextStack| - 1];
          namespaceContextStack := namespaceContextStack[..|namespaceContextStack| - 1];
        case TextNode(t) =>
          currentEvent := Some(CharactersEvent(t));
        case CDataNode(t) =>
          currentEvent := Some(CDataEvent(t));
        case CommentNode(t) =>
          currentEvent := Some(CommentEvent(t));
        case PINode(target, data) =>
          currentEvent := Some(PIEvent(target, data));
        case EntityRefNode(n) =>
          currentEvent := Some(EntityReferenceEvent(n, Some(n)));
        case AttributeNode(_) =>
          return Failure(XmlStream);
        case NamespaceNode(_, _) =>
          return Failure(XmlStream);
        case StartDocumentNode(_, _) =>
          return Failure(XmlStream);
        case EndDocumentNode =>
          return Failure(XmlStream);
        case CollectionNode(_) =>
          return Failure(XmlStream);
        case ElementNode(_, _, _, _) =>
          return Failure(XmlStream);
        case AttributeMapNode(_) =>
          return Failure(XmlStream);
      }
      return Success(currentEvent.value);
    }

    /** The start-marker case of next(): save the context, copy it, and look ahead over the start tag's entries. */
    method ReadStartTag(q: QName)
      requires 0 <= position < |nodes| && nodes[position] == StartElementNode(q)
      modifies this
      ensures var g := GroupAt(old(nodes), old(position), old(currentNamespaceContext));
        && nodes == old(nodes)
        && position == old(position) + g.count
        && currentEvent == Some(StartElementEvent(q, g.attributes, g.namespaces))
        && currentNamespaceContext == g.ctx
        && currentEndElementNamespaceContext == Some(g.ctx)
        && namespaceContextStack == old(namespaceContextStack) + [old(currentNamespaceContext)]
    {
      var entries := nodes;
      var start := position + 1;
      var ctx := Copy(currentNamespaceContext);
      ghost var g0 := Group([], [], ctx, 0);
      namespaceContextStack := namespaceContextStack + [currentNamespaceContext];
      var attributes: seq<Attr> := [];
      var namespaces: seq<NsDecl> := [];
      var aheadCount := 0;
      var aheadStop := false;
      var ahead := start;
      while !aheadStop && ahead < |entries|
        modifies {}
        invariant start <= ahead
        invariant ahead - start == aheadCount
        invariant !aheadStop ==> Lookahead(entries, start, g0) == Lookahead(entries, ahead, Group(attributes, namespaces, ctx, aheadCount))
        invariant aheadStop ==> Lookahead(entries, start, g0) == Group(attributes, namespaces, ctx, aheadCount)
        decreases |entries| - ahead, !aheadStop
      {
        var aheadNode := entries[ahead];
        ghost var g := Group(attributes, namespaces, ctx, aheadCount);
        if aheadNode.AttributeNode? {
          LookaheadStep(entries, ahead, g);
          aheadCount := aheadCount + 1;
          attributes := attributes + [aheadNode.attr];
        } else if aheadNode.NamespaceNode? {
          LookaheadStep(entries, ahead, g);
          namespaces := namespaces + [NsDecl(aheadNode.prefix, aheadNode.namespaceURI)];
          ctx := DeclareNamespace(ctx, aheadNode.prefix, aheadNode.namespaceURI);
          aheadCount := aheadCount + 1;
        } else {
          LookaheadStop(entries, ahead, g);
          aheadStop := true;
        }
        if !aheadStop {
          ahead := ahead + 1;
        }
      }
      if !aheadStop {
        LookaheadStop(entries, ahead, Group(attributes, namespaces, ctx, aheadCount));
      }
      currentNamespaceContext := ctx;
      currentEndElementNamespaceContext := Some(ctx);
      position := position + aheadCount;
      currentEvent := Some(StartElementEvent(q, attributes, namespaces));
    }
  }
}
