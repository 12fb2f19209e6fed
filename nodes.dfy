/**
 * The writer nodes (package nodes): one datatype for the thin value classes,
 * the Element queries getAttribute, getText and getAllText, and the writer
 * calls that each node's write method makes.
 */
module Nodes {
  import opened Wrappers
  import opened QNames
  import opened WriterCalls

  /** An Attribute node: its QName and its value. */
  datatype Attr = Attr(name: QName, value: string)

  datatype Node =
    | StartElementNode(startName: QName)
    | EndElementNode(endName: Option<QName>)
    | StartDocumentNode(encoding: Option<string>, version: Option<string>)
    | EndDocumentNode
    | AttributeNode(attr: Attr)
    | NamespaceNode(prefix: Option<string>, namespaceURI: string)
    | TextNode(text: Option<string>)
    | CDataNode(cdata: string)
    | CommentNode(comment: string)
    | PINode(target: string, data: Option<string>)
    | CollectionNode(nodes: seq<Node>)
    | ElementNode(name: QName, attributes: seq<Attr>, namespaces: seq<Node>, childNodes: seq<Node>)
    | AttributeMapNode(attrs: seq<Attr>)
    | EntityRefNode(entityName: string)

  /**
   * An AttributeMap: a HashMap keyed by QName.  Its iteration order is not
   * known; the model fixes it as the order of first insertion, and keys are
   * compared as QName.equals compares them.
   */
  ghost predicate DistinctKeys(attrs: seq<Attr>)
  {
    forall i, j :: 0 <= i < j < |attrs| ==> attrs[i].name.Key() != attrs[j].name.Key()
  }

  /** The position of the attribute whose QName equals key, or |attrs| if there is none. */
  function KeyIndex(attrs: seq<Attr>, key: NameKey): (k: nat)
    ensures k <= |attrs|
    ensures k < |attrs| ==> attrs[k].name.Key() == key
    ensures forall i :: 0 <= i < k ==> attrs[i].name.Key() != key
    decreases |attrs|
  {
    if |attrs| == 0 then 0
    else if attrs[0].name.Key() == key then 0
    else 1 + KeyIndex(attrs[1..], key)
  }

  /** AttributeMap.put(name, attr): a known key keeps its place and takes the new attribute. */
  function PutAttribute(attrs: seq<Attr>, a: Attr): (r: seq<Attr>)
    ensures a in r
    ensures KeyIndex(attrs, a.name.Key()) < |attrs| ==> r == attrs[KeyIndex(attrs, a.name.Key()) := a]
    ensures KeyIndex(attrs, a.name.Key()) == |attrs| ==> r == attrs + [a]
  {
    var k := KeyIndex(attrs, a.name.Key());
    if k < |attrs| then
      assert attrs[k := a][k] == a;
      attrs[k := a]
    else
      assert (attrs + [a])[|attrs|] == a;
      attrs + [a]
  }

  lemma PutAttributeKeepsKeysDistinct(attrs: seq<Attr>, a: Attr)
    requires DistinctKeys(attrs)
    ensures DistinctKeys(PutAttribute(attrs, a))
  {
  }

  /** AttributeMap.get(name): the attribute whose QName equals the given one, or null. */
  function FindAttribute(attrs: seq<Attr>, key: NameKey): (r: Option<Attr>)
    ensures r.Some? ==> exists i :: 0 <= i < |attrs| && attrs[i] == r.value && r.value.name.Key() == key
    ensures r.None? <==> forall i :: 0 <= i < |attrs| ==> attrs[i].name.Key() != key
    decreases |attrs|
  {
    if |attrs| == 0 then None
    else if attrs[0].name.Key() == key then Some(attrs[0])
    else
      var r := FindAttribute(attrs[1..], key);
      assert forall i :: 1 <= i < |attrs| ==> attrs[i] == attrs[1..][i - 1];
      r
  }

  /** Element.getAttribute(QName) */
  function GetAttribute(e: Node, name: QName): (r: Option<Attr>)
    requires e.ElementNode?
    ensures r.Some? ==> r.value in e.attributes && r.value.name.SameName(name)
    ensures r.None? <==> forall a :: a in e.attributes ==> !a.name.SameName(name)
  {
    FindAttribute(e.attributes, name.Key())
  }

  /** Element.getAttribute(localName): the name without a namespace. */
  function GetAttributeByLocalName(e: Node, localName: string): (r: Option<Attr>)
    requires e.ElementNode?
    ensures r.Some? ==> r.value in e.attributes && r.value.name.namespaceURI == "" && r.value.name.localPart == localName
    ensures r.None? <==> forall a :: a in e.attributes ==> a.name.Key() != NameKey("", localName)
  {
    GetAttribute(e, Local(localName))
  }

  /** Element.getAttribute(namespaceURI, localName) */
  function GetAttributeByName(e: Node, ns: string, localName: string): (r: Option<Attr>)
    requires e.ElementNode?
    ensures r.Some? ==> r.value in e.attributes && r.value.name.namespaceURI == ns && r.value.name.localPart == localName
    ensures r.None? <==> forall a :: a in e.attributes ==> a.name.Key() != NameKey(ns, localName)
  {
    GetAttribute(e, Qualified(ns, localName))
  }

  // ---------------------------------------------------------------------
  // Text extraction

  /** What StringBuilder.append contributes for a Text or CDATA child. */
  function TextPiece(n: Node): Option<string>
  {
    match n
    case TextNode(t) => Some(if t.None? then "null" else t.value)
    case CDataNode(c) => Some(c)
    case _ => None
  }

  function Concat(pieces: seq<string>): string
  {
    if |pieces| == 0 then "" else pieces[0] + Concat(pieces[1..])
  }

  /** The immediate text pieces of a node list, in order: the reference for getText. */
  function ImmediateTexts(nodes: seq<Node>): seq<string>
  {
    if |nodes| == 0 then []
    else (if TextPiece(nodes[0]).Some? then [TextPiece(nodes[0]).value] else []) + ImmediateTexts(nodes[1..])
  }

  /** Every text piece below a node list, depth first: the reference for getAllText. */
  function AllTexts(nodes: seq<Node>): seq<string>
    decreases nodes
  {
    if |nodes| == 0 then []
    else
      var here := match nodes[0]
        case ElementNode(_, _, _, children) => AllTexts(children)
        case _ => if TextPiece(nodes[0]).Some? then [TextPiece(nodes[0]).value] else [];
      here + AllTexts(nodes[1..])
  }

  /** The loop of Element.getText: the builder and the textEncountered flag. */
  function CollectText(nodes: seq<Node>, builder: string, encountered: bool): (string, bool)
  {
    if |nodes| == 0 then (builder, encountered)
    else match TextPiece(nodes[0])
      case Some(t) => CollectText(nodes[1..], builder + t, true)
      case None => CollectText(nodes[1..], builder, encountered)
  }

  /** Element.getText(): the immediate Text and CDATA children, or null without any. */
  function GetText(e: Node): Option<string>
    requires e.ElementNode?
  {
    var (s, encountered) := CollectText(e.childNodes, "", false);
    if encountered then Some(s) else None
  }

  /** Element.getAllText(), and the loop that serves it. */
  function GetAllText(e: Node): Option<string>
    requires e.ElementNode?
    decreases e
  {
    var (s, encountered) := CollectAllText(e.childNodes, "", false);
    if encountered then Some(s) else None
  }

  function CollectAllText(nodes: seq<Node>, builder: string, encountered: bool): (string, bool)
    decreases nodes
  {
    if |nodes| == 0 then (builder, encountered)
    else
      var n := nodes[0];
      if n.ElementNode? then
        var sub := GetAllText(n);
        if sub.Some? then CollectAllText(nodes[1..], builder + sub.value, true)
        else CollectAllText(nodes[1..], builder, encountered)
      else match TextPiece(n)
        case Some(t) => CollectAllText(nodes[1..], builder + t, true)
        case None => CollectAllText(nodes[1..], builder, encountered)
  }

  lemma {:induction false} ConcatAppend(a: seq<string>, b: seq<string>)
    ensures Concat(a + b) == Concat(a) + Concat(b)
    decreases |a|
  {
    if |a| > 0 {
      assert (a + b)[1..] == a[1..] + b;
      ConcatAppend(a[1..], b);
    } else {
      assert a + b == b;
    }
  }

  lemma {:induction false} CollectTextMeaning(nodes: seq<Node>, builder: string, encountered: bool)
    ensures CollectText(nodes, builder, encountered) ==
      (builder + Concat(ImmediateTexts(nodes)), encountered || |ImmediateTexts(nodes)| > 0)
    decreases |nodes|
  {
    if |nodes| > 0 {
      var rest := ImmediateTexts(nodes[1..]);
      match TextPiece(nodes[0])
      case Some(t) =>
        CollectTextMeaning(nodes[1..], builder + t, true);
        assert ImmediateTexts(nodes) == [t] + rest;
        assert Concat([t] + rest) == t + Concat(rest) by { assert ([t] + rest)[1..] == rest; }
        assert builder + t + Concat(rest) == builder + (t + Concat(rest));
      case None =>
        CollectTextMeaning(nodes[1..], builder, encountered);
        assert ImmediateTexts(nodes) == rest;
    } else {
      assert builder + "" == builder;
    }
  }

  /**
   * getText concatenates the element's immediate Text and CDATA children in
   * order, and is null exactly when there are none.
   */
  lemma GetTextMeaning(e: Node)
    requires e.ElementNode?
    ensures GetText(e).None? <==> |ImmediateTexts(e.childNodes)| == 0
    ensures GetText(e).Some? ==> GetText(e).value == Concat(ImmediateTexts(e.childNodes))
  {
    CollectTextMeaning(e.childNodes, "", false);
    assert "" + Concat(ImmediateTexts(e.childNodes)) == Concat(ImmediateTexts(e.childNodes));
  }

  lemma {:induction false} GetAllTextMeaningRec(e: Node)
    requires e.ElementNode?
    ensures GetAllText(e) ==
      (if |AllTexts(e.childNodes)| == 0 then None else Some(Concat(AllTexts(e.childNodes))))
    decreases e
  {
    CollectAllTextMeaning(e.childNodes, "", false);
    assert "" + Concat(AllTexts(e.childNodes)) == Concat(AllTexts(e.childNodes));
  }

  lemma {:induction false} CollectAllTextMeaning(nodes: seq<Node>, builder: string, encountered: bool)
    ensures CollectAllText(nodes, builder, encountered) ==
      (builder + Concat(AllTexts(nodes)), encountered || |AllTexts(nodes)| > 0)
    decreases nodes
  {
    if |nodes| > 0 {
      var n := nodes[0];
      var rest := AllTexts(nodes[1..]);
      if n.ElementNode? {
        GetAllTextMeaningRec(n);
        var here := AllTexts(n.childNodes);
        assert AllTexts(nodes) == here + rest;
        ConcatAppend(here, rest);
        if |here| > 0 {
          CollectAllTextMeaning(nodes[1..], builder + Concat(here), true);
          assert builder + Concat(here) + Concat(rest) == builder + (Concat(here) + Concat(rest));
        } else {
          CollectAllTextMeaning(nodes[1..], builder, encountered);
          assert here + rest == rest;
        }
      } else {
        match TextPiece(n)
        case Some(t) =>
          CollectAllTextMeaning(nodes[1..], builder + t, true);
          assert AllTexts(nodes) == [t] + rest;
          assert Concat([t] + rest) == t + Concat(rest) by { assert ([t] + rest)[1..] == rest; }
          assert builder + t + Concat(rest) == builder + (t + Concat(rest));
        case None =>
          CollectAllTextMeaning(nodes[1..], builder, encountered);
          assert AllTexts(nodes) == rest;
      }
    } else {
      assert builder + "" == builder;
    }
  }

  /**
   * getAllText concatenates every Text and CDATA piece below the element,
   * depth first, and is null exactly when there is none anywhere below.
   */
  lemma GetAllTextMeaning(e: Node)
    requires e.ElementNode?
    ensures GetAllText(e).None? <==> |AllTexts(e.childNodes)| == 0
    ensures GetAllText(e).Some? ==> GetAllText(e).value == Concat(AllTexts(e.childNodes))
  {
    GetAllTextMeaningRec(e);
  }

  predicate NoElementChildren(nodes: seq<Node>)
  {
    forall i :: 0 <= i < |nodes| ==> !nodes[i].ElementNode?
  }

  lemma {:induction false} AllTextsFlat(nodes: seq<Node>)
    requires NoElementChildren(nodes)
    ensures AllTexts(nodes) == ImmediateTexts(nodes)
    decreases |nodes|
  {
    if |nodes| > 0 {
      assert NoElementChildren(nodes[1..]) by {
        forall i | 0 <= i < |nodes[1..]| ensures !nodes[1..][i].ElementNode? {
          assert nodes[1..][i] == nodes[i + 1];
        }
      }
      AllTextsFlat(nodes[1..]);
    }
  }

  /** Without element children, getAllText and getText agree. */
  lemma GetAllTextOfFlatElement(e: Node)
    requires e.ElementNode? && NoElementChildren(e.childNodes)
    ensures GetAllText(e) == GetText(e)
  {
    GetTextMeaning(e);
    GetAllTextMeaning(e);
    AllTextsFlat(e.childNodes);
  }

  // ---------------------------------------------------------------------
  // Writing

  /** The writer calls that node.write(writer) makes, nested nodes through writer.write. */
  function NodeCalls(n: Node): seq<XmlCall>
    decreases n
  {
    match n
    case StartElementNode(q) => [StartElementOf(q)]
    case EndElementNode(_) => [WriteEndElement]
    case StartDocumentNode(encoding, version) =>
      if version.Some? && encoding.Some? then [WriteStartDocument(encoding, version)]
      else if version.Some? then [WriteStartDocument(None, version)]
      else [WriteStartDocument(None, None)]
    case EndDocumentNode => [WriteEndDocument]
    case AttributeNode(a) => [WriteAttribute(a.name, a.value)]
    case NamespaceNode(prefix, uri) =>
      if prefix.Some? then [WriteNamespace(prefix, uri)] else [WriteDefaultNamespace(uri)]
    case TextNode(t) => [WriteCharacters(Some(if t.None? then "" else t.value))]
    case CDataNode(c) => [WriteCData(c)]
    case CommentNode(c) => [WriteComment(c)]
    case PINode(target, data) => [WriteProcessingInstruction(target, data)]
    case CollectionNode(nodes) => ListCalls(nodes)
    case ElementNode(q, attrs, namespaces, children) =>
      [StartElementOf(q)] + AttrCalls(attrs) + ListCalls(namespaces) + ListCalls(children) + [WriteEndElement]
    case AttributeMapNode(attrs) => AttrCalls(attrs)
    case EntityRefNode(name) => [WriteEntityRef(name)]
  }

  function ListCalls(nodes: seq<Node>): seq<XmlCall>
    decreases nodes
  {
    if |nodes| == 0 then [] else NodeCalls(nodes[0]) + ListCalls(nodes[1..])
  }

  function AttrCalls(attrs: seq<Attr>): (r: seq<XmlCall>)
    ensures |r| == |attrs|
    ensures forall i :: 0 <= i < |attrs| ==> r[i] == WriteAttribute(attrs[i].name, attrs[i].value)
  {
    seq(|attrs|, i requires 0 <= i < |attrs| => WriteAttribute(attrs[i].name, attrs[i].value))
  }

  /** A node tree built from whole elements only: no loose start or end markers. */
  predicate PlainTree(n: Node)
    decreases n
  {
    match n
    case StartElementNode(_) => false
    case EndElementNode(_) => false
    case CollectionNode(nodes) => PlainList(nodes)
    case ElementNode(_, _, namespaces, children) => PlainList(namespaces) && PlainList(children)
    case _ => true
  }

  predicate PlainList(nodes: seq<Node>)
    decreases nodes
  {
    |nodes| == 0 || (PlainTree(nodes[0]) && PlainList(nodes[1..]))
  }

  lemma {:induction false} AttrCallsNoTags(attrs: seq<Attr>)
    ensures Starts(AttrCalls(attrs)) == 0 && Ends(AttrCalls(attrs)) == 0
    decreases |attrs|
  {
    if |attrs| > 0 {
      var n := |attrs| - 1;
      assert AttrCalls(attrs) == AttrCalls(attrs[..n]) + [AttrCalls(attrs)[n]];
      StartsEndsAppend(AttrCalls(attrs[..n]), [AttrCalls(attrs)[n]]);
      AttrCallsNoTags(attrs[..n]);
      assert Starts([AttrCalls(attrs)[n]]) == Starts([]) + 0;
      assert Ends([AttrCalls(attrs)[n]]) == Ends([]) + 0;
    }
  }

  /**
   * Element.write emits as many end tags as start tags: the start tag first,
   * then attributes, namespaces and children, then the end tag.  For a tree
   * of whole elements the whole run of calls is balanced.
   */
  lemma {:induction false} PlainTreeWriteBalanced(n: Node)
    requires PlainTree(n)
    ensures Starts(NodeCalls(n)) == Ends(NodeCalls(n))
    decreases n
  {
    match n
    case CollectionNode(nodes) => PlainListWriteBalanced(nodes);
    case ElementNode(q, attrs, namespaces, children) =>
      PlainListWriteBalanced(namespaces);
      PlainListWriteBalanced(children);
      AttrCallsNoTags(attrs);
      var a, b, c := AttrCalls(attrs), ListCalls(namespaces), ListCalls(children);
      StartsEndsAppend([StartElementOf(q)], a);
      StartsEndsAppend([StartElementOf(q)] + a, b);
      StartsEndsAppend([StartElementOf(q)] + a + b, c);
      StartsEndsAppend([StartElementOf(q)] + a + b + c, [WriteEndElement]);
      assert Starts([StartElementOf(q)]) == Starts([]) + 1;
      assert Ends([StartElementOf(q)]) == Ends([]) + 0;
      assert Starts([WriteEndElement]) == Starts([]) + 0;
      assert Ends([WriteEndElement]) == Ends([]) + 1;
    case AttributeMapNode(attrs) => AttrCallsNoTags(attrs);
    case StartDocumentNode(_, _) => SingleCallNoTags(NodeCalls(n));
    case EndDocumentNode => SingleCallNoTags(NodeCalls(n));
    case AttributeNode(_) => SingleCallNoTags(NodeCalls(n));
    case NamespaceNode(_, _) => SingleCallNoTags(NodeCalls(n));
    case TextNode(_) => SingleCallNoTags(NodeCalls(n));
    case CDataNode(_) => SingleCallNoTags(NodeCalls(n));
    case CommentNode(_) => SingleCallNoTags(NodeCalls(n));
    case PINode(_, _) => SingleCallNoTags(NodeCalls(n));
    case EntityRefNode(_) => SingleCallNoTags(NodeCalls(n));
  }

  lemma SingleCallNoTags(calls: seq<XmlCall>)
    requires |calls| == 1 && !calls[0].WriteStartElement? && !calls[0].WriteEndElement?
    ensures Starts(calls) == 0 && Ends(calls) == 0
  {
    assert calls[..0] == [];
  }

  lemma {:induction false} PlainListWriteBalanced(nodes: seq<Node>)
    requires PlainList(nodes)
    ensures Starts(ListCalls(nodes)) == Ends(ListCalls(nodes))
    decreases nodes
  {
    if |nodes| > 0 {
      PlainTreeWriteBalanced(nodes[0]);
      PlainListWriteBalanced(nodes[1..]);
      StartsEndsAppend(NodeCalls(nodes[0]), ListCalls(nodes[1..]));
    }
  }
}
