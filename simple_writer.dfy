/**
 * TransformSimpleWriter: buffers attribute writes in an insertion-ordered map
 * in which the last write of a name wins, emits the buffer before any other
 * content, counts open elements so that it can close them, and writes the
 * root namespace declarations on the first start tag.  The javax
 * XMLStreamWriter it wraps is modelled as the log of the calls it receives.
 */
module SimpleWriters {
  import opened Wrappers
  import opened QNames
  import opened NamespaceContexts
  import opened WriterCalls
  import opened Nodes

  datatype WriterState = WriterState(
    log: seq<XmlCall>,                 // what the underlying XMLStreamWriter received
    buffered: seq<(QName, string)>,    // bufferedAttributes (a LinkedHashMap), in insertion order
    open: int,                         // openXmlElements
    namespaces: NsContext,             // namespaceContext
    stringWriting: bool)

  /** new TransformSimpleWriter(...): string-writing or not, with the given namespace context. */
  function NewWriter(namespaces: NsContext, stringWriting: bool): WriterState
  {
    WriterState([], [], 0, namespaces, stringWriting)
  }

  // ---------------------------------------------------------------------
  // The attribute buffer

  /** The position of the buffered entry whose QName equals key, or |buf| when none does. */
  function BufferIndex(buf: seq<(QName, string)>, key: NameKey): (k: nat)
    ensures k <= |buf|
    ensures k < |buf| ==> buf[k].0.Key() == key
    ensures forall i :: 0 <= i < k ==> buf[i].0.Key() != key
    decreases |buf|
  {
    if |buf| == 0 then 0
    else if buf[0].0.Key() == key then 0
    else 1 + BufferIndex(buf[1..], key)
  }

  /**
   * bufferedAttributes.put(name, value): a LinkedHashMap keeps an equal key
   * (and its prefix) where it was and replaces only the value.
   */
  function BufferPut(buf: seq<(QName, string)>, name: QName, value: string): seq<(QName, string)>
  {
    var k := BufferIndex(buf, name.Key());
    if k < |buf| then buf[k := (buf[k].0, value)] else buf + [(name, value)]
  }

  /** The value buffered for a name, if any. */
  function BufferValue(buf: seq<(QName, string)>, key: NameKey): Option<string>
  {
    var k := BufferIndex(buf, key);
    if k < |buf| then Some(buf[k].1) else None
  }

  ghost predicate DistinctBufferKeys(buf: seq<(QName, string)>)
  {
    forall i, j :: 0 <= i < j < |buf| ==> buf[i].0.Key() != buf[j].0.Key()
  }

  /**
   * The last write of a name wins, its first write fixes its position, and
   * every other buffered name keeps its value and position; the buffer never
   * holds two equal names.
   */
  lemma BufferPutLastWriteWins(buf: seq<(QName, string)>, name: QName, value: string, other: NameKey)
    requires DistinctBufferKeys(buf)
    ensures DistinctBufferKeys(BufferPut(buf, name, value))
    ensures BufferValue(BufferPut(buf, name, value), name.Key()) == Some(value)
    ensures other != name.Key() ==> BufferValue(BufferPut(buf, name, value), other) == BufferValue(buf, other)
    ensures forall i :: 0 <= i < |buf| ==> BufferPut(buf, name, value)[i].0 == buf[i].0
    ensures |BufferPut(buf, name, value)| == |buf| + (if BufferValue(buf, name.Key()).Some? then 0 else 1)
  {
    var r := BufferPut(buf, name, value);
    var k := BufferIndex(buf, name.Key());
    if k < |buf| {
      assert forall i :: 0 <= i < |buf| ==> r[i].0 == buf[i].0;
      BufferIndexUnique(buf, r, name.Key());
      if other != name.Key() {
        BufferIndexUnique(buf, r, other);
      }
    } else {
      BufferIndexAppend(buf, name, value, name.Key());
      if other != name.Key() {
        BufferIndexAppend(buf, name, value, other);
      }
    }
  }

  lemma {:induction false} BufferIndexUnique(a: seq<(QName, string)>, b: seq<(QName, string)>, key: NameKey)
    requires |a| == |b|
    requires forall i :: 0 <= i < |a| ==> a[i].0 == b[i].0
    ensures BufferIndex(a, key) == BufferIndex(b, key)
    decreases |a|
  {
    if |a| > 0 && a[0].0.Key() != key {
      BufferIndexUnique(a[1..], b[1..], key);
    }
  }

  lemma {:induction false} BufferIndexAppend(buf: seq<(QName, string)>, name: QName, value: string, key: NameKey)
    requires BufferIndex(buf, name.Key()) == |buf|
    ensures BufferIndex(buf + [(name, value)], key) ==
      (if BufferIndex(buf, key) < |buf| then BufferIndex(buf, key) else if key == name.Key() then |buf| else |buf| + 1)
    decreases |buf|
  {
    if |buf| > 0 {
      assert (buf + [(name, value)])[1..] == buf[1..] + [(name, value)];
      if buf[0].0.Key() != key {
        BufferIndexAppend(buf[1..], name, value, key);
      }
    }
  }

  /** The calls that writeBufferedAttributes makes, one per entry, in order. */
  function AttributeCalls(buf: seq<(QName, string)>): (r: seq<XmlCall>)
    ensures |r| == |buf|
    ensures forall i :: 0 <= i < |buf| ==> r[i] == WriteAttribute(buf[i].0, buf[i].1)
  {
    seq(|buf|, i requires 0 <= i < |buf| => WriteAttribute(buf[i].0, buf[i].1))
  }

  /** writeBufferedAttributes(): emit the buffer, then clear it. */
  function FlushAttributes(w: WriterState): WriterState
  {
    w.(log := w.log + AttributeCalls(w.buffered), buffered := [])
  }

  // ---------------------------------------------------------------------
  // Root namespaces and end tags

  predicate Reserved(uri: string)
  {
    uri == XML_NS_URI || uri == XMLNS_ATTRIBUTE_NS_URI
  }

  /** The prefix declarations of writeRootNamespaces, over the prefixes in iteration order. */
  function PrefixDeclarations(order: seq<Prefix>, prefixes: map<Prefix, string>): seq<XmlCall>
    decreases |order|
  {
    if |order| == 0 then []
    else
      var p := order[0];
      var rest := PrefixDeclarations(order[1..], prefixes);
      if p in prefixes && !Reserved(prefixes[p]) then [WriteNamespace(p, prefixes[p])] + rest else rest
  }

  /**
   * The prefix declarations are exactly the bindings whose URI is neither
   * the xml nor the xmlns namespace.
   */
  lemma {:induction false} PrefixDeclarationsExact(order: seq<Prefix>, prefixes: map<Prefix, string>)
    ensures forall c :: c in PrefixDeclarations(order, prefixes) ==>
      (c.WriteNamespace? && c.nsPrefix in order && c.nsPrefix in prefixes &&
       prefixes[c.nsPrefix] == c.uri && !Reserved(c.uri))
    ensures forall p :: p in order && p in prefixes && !Reserved(prefixes[p]) ==>
      WriteNamespace(p, prefixes[p]) in PrefixDeclarations(order, prefixes)
    decreases |order|
  {
    if |order| > 0 {
      PrefixDeclarationsExact(order[1..], prefixes);
      assert forall q :: q in order[1..] ==> q in order;
      assert forall q :: q in order ==> q == order[0] || q in order[1..];
    }
  }

  /**
   * writeRootNamespaces() at the first start tag: the default namespace when
   * there is one, then every bound prefix except xml and xmlns.
   */
  /** The declarations from position i on: the one at i, if any, then the rest. */
  lemma PrefixDeclarationsStep(order: seq<Prefix>, i: nat, prefixes: map<Prefix, string>)
    requires i < |order|
    ensures PrefixDeclarations(order[i..], prefixes) ==
            (if order[i] in prefixes && !Reserved(prefixes[order[i]]) then [WriteNamespace(order[i], prefixes[order[i]])] else [])
            + PrefixDeclarations(order[i + 1..], prefixes)
  {
    assert order[i..][1..] == order[i + 1..];
  }

  function RootNamespaces(ns: NsContext): seq<XmlCall>
  {
    (if ns.defaultUri.Some? then [WriteDefaultNamespace(ns.defaultUri.value)] else [])
    + PrefixDeclarations(ns.prefixOrder, ns.prefixes)
  }

  /** The loop `for (i = 0; i < openXmlElements; i++) writeEndElement()`. */
  function EndTags(n: int): (r: seq<XmlCall>)
    ensures |r| == if n > 0 then n else 0
    ensures forall c :: c in r ==> c == WriteEndElement
    decreases n
  {
    if n <= 0 then [] else EndTags(n - 1) + [WriteEndElement]
  }

  // ---------------------------------------------------------------------
  // One call

  /** The effect of one TransformXMLStreamWriter call on the writer. */
  function Perform(w: WriterState, c: XmlCall): WriterState
  {
    match c
    case WriteStartElement(_, _, _) =>
      var f := FlushAttributes(w);
      f.(log := f.log + [c] + (if w.open == 0 then RootNamespaces(w.namespaces) else []), open := w.open + 1)
    case WriteEndElement =>
      var f := FlushAttributes(w);
      f.(log := f.log + [c], open := w.open - 1)
    case WriteEndDocument =>
      var f := FlushAttributes(w);
      f.(log := f.log + EndTags(w.open) + [WriteEndDocument])
    case Close =>
      var f := FlushAttributes(w);
      f.(log := f.log + EndTags(w.open) + [Flush, Close], open := 0)
    case Flush =>
      var f := FlushAttributes(w);
      f.(log := f.log + [Flush])
    case WriteAttribute(name, value) =>
      w.(buffered := BufferPut(w.buffered, name, value))
    case _ =>
      if FlushesAttributes(c) then
        var f := FlushAttributes(w);
        f.(log := f.log + [c])
      else
        w.(log := w.log + [c])
  }

  function PerformAll(w: WriterState, calls: seq<XmlCall>): WriterState
    decreases |calls|
  {
    if |calls| == 0 then w else Perform(PerformAll(w, calls[..|calls| - 1]), calls[|calls| - 1])
  }

  /** The calls that write(nodes...) makes: each non-null node writes itself, nulls are skipped. */
  function NodesCalls(nodes: seq<Option<Node>>): (r: seq<XmlCall>)
    ensures |nodes| > 0 && nodes[0].None? ==> r == NodesCalls(nodes[1..])
    ensures |nodes| > 0 && nodes[0].Some? ==> r == NodeCalls(nodes[0].value) + NodesCalls(nodes[1..])
  {
    if |nodes| == 0 then []
    else (if nodes[0].Some? then NodeCalls(nodes[0].value) else []) + NodesCalls(nodes[1..])
  }

  /** getXmlString(): close every open element and hand back the output; only a string writer can. */
  function XmlString(w: WriterState): (r: Result<(WriterState, seq<XmlCall>)>)
    ensures r.Failure? <==> !w.stringWriting
    ensures r.Failure? ==> r.error == XmlStream
    ensures r.Success? ==> r.value.0.open == 0 && r.value.1 == r.value.0.log
    ensures r.Success? ==> r.value.0.log == w.log + EndTags(w.open) + [Flush, Close]
  {
    if !w.stringWriting then Failure(XmlStream)
    else
      var w' := w.(log := w.log + EndTags(w.open) + [Flush, Close], open := 0);
      Success((w', w'.log))
  }

  // ---------------------------------------------------------------------
  // Properties

  /** Every call except the attribute, namespace, DTD and start-document calls empties the buffer first. */
  lemma FlushBeforeContent(w: WriterState, c: XmlCall)
    ensures FlushesAttributes(c) ==>
      Perform(w, c).buffered == [] &&
      Perform(w, c).log[..|w.log| + |w.buffered|] == w.log + AttributeCalls(w.buffered)
    ensures !FlushesAttributes(c) ==>
      Perform(w, c).log[..|w.log|] == w.log &&
      Perform(w, c).buffered == (if c.WriteAttribute? then BufferPut(w.buffered, c.name, c.value) else w.buffered)
  {
  }

  /** The counter of open elements: +1 per start tag, -1 per end tag, unchanged otherwise until close. */
  lemma {:induction false} OpenCounter(w: WriterState, calls: seq<XmlCall>)
    requires forall c :: c in calls ==> !c.Close?
    ensures PerformAll(w, calls).open == w.open + Starts(calls) - Ends(calls)
    decreases |calls|
  {
    if |calls| > 0 {
      var n := |calls| - 1;
      assert forall c :: c in calls[..n] ==> c in calls;
      OpenCounter(w, calls[..n]);
      PerformOpen(PerformAll(w, calls[..n]), calls[n]);
      StartsEndsAppend(calls[..n], [calls[n]]);
      assert calls[..n] + [calls[n]] == calls;
      assert Starts([calls[n]]) == Starts([]) + (if calls[n].WriteStartElement? then 1 else 0);
      assert Ends([calls[n]]) == Ends([]) + (if calls[n].WriteEndElement? then 1 else 0);
    }
  }

  /** One call moves the counter by its start or end tag; only close resets it. */
  lemma PerformOpen(w: WriterState, c: XmlCall)
    requires !c.Close?
    ensures Perform(w, c).open == w.open + (if c.WriteStartElement? then 1 else 0) - (if c.WriteEndElement? then 1 else 0)
  {
  }

  /** Writing one whole element tree leaves the open-element counter where it was. */
  lemma WritePlainNodeKeepsOpenCount(w: WriterState, n: Node)
    requires PlainTree(n)
    requires forall c :: c in NodeCalls(n) ==> !c.Close?
    ensures PerformAll(w, NodeCalls(n)).open == w.open
  {
    PlainTreeWriteBalanced(n);
    OpenCounter(w, NodeCalls(n));
  }

  lemma {:induction false} EndTagsCount(n: int)
    ensures Starts(EndTags(n)) == 0 && Ends(EndTags(n)) == (if n > 0 then n else 0)
    decreases n
  {
    if n > 0 {
      EndTagsCount(n - 1);
      StartsEndsAppend(EndTags(n - 1), [WriteEndElement]);
      assert Starts([WriteEndElement]) == Starts([]) + 0;
      assert Ends([WriteEndElement]) == Ends([]) + 1;
    }
  }

  lemma {:induction false} NoTags(calls: seq<XmlCall>)
    requires forall c :: c in calls ==> !c.WriteStartElement? && !c.WriteEndElement?
    ensures Starts(calls) == 0 && Ends(calls) == 0
    decreases |calls|
  {
    if |calls| > 0 {
      assert forall c :: c in calls[..|calls| - 1] ==> c in calls;
      NoTags(calls[..|calls| - 1]);
    }
  }

  /** openXmlElements counts the start tags of the log that have no end tag yet. */
  ghost predicate OpenMatchesLog(w: WriterState)
  {
    w.open == Starts(w.log) - Ends(w.log)
  }

  lemma FlushedLogCounts(w: WriterState)
    ensures Starts(FlushAttributes(w).log) == Starts(w.log)
    ensures Ends(FlushAttributes(w).log) == Ends(w.log)
  {
    NoTags(AttributeCalls(w.buffered));
    StartsEndsAppend(w.log, AttributeCalls(w.buffered));
  }

  /**
   * writeEndDocument ends every open element, so a log whose counter was
   * right ends balanced; the counter itself is left as it was.
   */
  lemma EndDocumentBalances(w: WriterState)
    requires OpenMatchesLog(w) && w.open >= 0
    ensures Starts(Perform(w, WriteEndDocument).log) == Ends(Perform(w, WriteEndDocument).log)
    ensures Perform(w, WriteEndDocument).open == w.open
  {
    var f := FlushAttributes(w);
    assert Perform(w, WriteEndDocument) == f.(log := f.log + EndTags(w.open) + [WriteEndDocument]);
    FlushedLogCounts(w);
    EndTagsBalance(f.log, w.open, [WriteEndDocument]);
  }

  /** close() ends every open element and resets the counter, so the log ends balanced. */
  lemma CloseBalances(w: WriterState)
    requires OpenMatchesLog(w) && w.open >= 0
    ensures Starts(Perform(w, Close).log) == Ends(Perform(w, Close).log)
    ensures Perform(w, Close).open == 0 && OpenMatchesLog(Perform(w, Close))
  {
    var f := FlushAttributes(w);
    assert Perform(w, Close) == f.(log := f.log + EndTags(w.open) + [Flush, Close], open := 0);
    FlushedLogCounts(w);
    EndTagsBalance(f.log, w.open, [Flush, Close]);
  }

  /** As many end tags as the log has unmatched start tags, then untagged calls, leave it balanced. */
  lemma EndTagsBalance(log: seq<XmlCall>, open: int, tail: seq<XmlCall>)
    requires open >= 0 && open == Starts(log) - Ends(log)
    requires forall c :: c in tail ==> !c.WriteStartElement? && !c.WriteEndElement?
    ensures Starts(log + EndTags(open) + tail) == Ends(log + EndTags(open) + tail)
  {
    EndTagsCount(open);
    StartsEndsAppend(log, EndTags(open));
    NoTags(tail);
    StartsEndsAppend(log + EndTags(open), tail);
  }

  /** Every call other than writeEndDocument and close keeps the counter in step with the log. */
  lemma PerformKeepsOpenMatchesLog(w: WriterState, c: XmlCall)
    requires OpenMatchesLog(w)
    requires !c.WriteEndDocument? && !c.Close?
    ensures OpenMatchesLog(Perform(w, c))
  {
    if c.WriteStartElement? {
      StartKeepsOpenMatchesLog(w, c);
    } else if c.WriteEndElement? {
      EndKeepsOpenMatchesLog(w);
    } else if !c.WriteAttribute? {
      UntaggedKeepsOpenMatchesLog(w, c);
    }
  }

  lemma StartKeepsOpenMatchesLog(w: WriterState, c: XmlCall)
    requires OpenMatchesLog(w) && c.WriteStartElement?
    ensures OpenMatchesLog(Perform(w, c))
  {
    var f := FlushAttributes(w);
    FlushedLogCounts(w);
    var roots := if w.open == 0 then RootNamespaces(w.namespaces) else [];
    assert Perform(w, c) == f.(log := f.log + [c] + roots, open := w.open + 1);
    PrefixDeclarationsExact(w.namespaces.prefixOrder, w.namespaces.prefixes);
    NoTags(roots);
    StartsEndsAppend(f.log, [c]);
    StartsEndsAppend(f.log + [c], roots);
    assert Starts([c]) == Starts([]) + 1;
    assert Ends([c]) == Ends([]) + 0;
  }

  lemma EndKeepsOpenMatchesLog(w: WriterState)
    requires OpenMatchesLog(w)
    ensures OpenMatchesLog(Perform(w, WriteEndElement))
  {
    var f := FlushAttributes(w);
    FlushedLogCounts(w);
    assert Perform(w, WriteEndElement) == f.(log := f.log + [WriteEndElement], open := w.open - 1);
    StartsEndsAppend(f.log, [WriteEndElement]);
    assert Ends([WriteEndElement]) == Ends([]) + 1;
    assert Starts([WriteEndElement]) == Starts([]) + 0;
  }

  lemma UntaggedKeepsOpenMatchesLog(w: WriterState, c: XmlCall)
    requires OpenMatchesLog(w)
    requires !c.WriteStartElement? && !c.WriteEndElement? && !c.WriteEndDocument? && !c.Close? && !c.WriteAttribute?
    ensures OpenMatchesLog(Perform(w, c))
  {
    var f := FlushAttributes(w);
    FlushedLogCounts(w);
    assert Perform(w, c) == f.(log := f.log + [c]) || Perform(w, c) == w.(log := w.log + [c]);
    NoTags([c]);
    StartsEndsAppend(f.log, [c]);
    StartsEndsAppend(w.log, [c]);
  }

  /** Root namespace declarations come only with the first start tag. */
  lemma RootNamespacesOnlyAtFirstStart(w: WriterState, prefix: Option<string>, local: string, ns: Option<string>)
    ensures var s := Perform(w, WriteStartElement(prefix, local, ns));
      s.open == w.open + 1 &&
      s.log == w.log + AttributeCalls(w.buffered) + [WriteStartElement(prefix, local, ns)]
        + (if w.open == 0 then RootNamespaces(w.namespaces) else [])
  {
  }

  lemma {:induction false} PerformAllAppend(w: WriterState, a: seq<XmlCall>, b: seq<XmlCall>)
    ensures PerformAll(w, a + b) == PerformAll(PerformAll(w, a), b)
    decreases |b|
  {
    if |b| == 0 {
      assert a + b == a;
    } else {
      assert (a + b)[..|a + b| - 1] == a + b[..|b| - 1];
      PerformAllAppend(w, a, b[..|b| - 1]);
    }
  }

  // ---------------------------------------------------------------------
  // The class

  class TransformSimpleWriter {
    var xmlWriter: seq<XmlCall>                  // the underlying XMLStreamWriter, as its call log
    var bufferedAttributes: seq<(QName, string)>
    var openXmlElements: int
    var namespaceContext: NsContext
    var stringWriting: bool

    ghost function Abs(): WriterState
      reads this
    {
      WriterState(xmlWriter, bufferedAttributes, openXmlElements, namespaceContext, stringWriting)
    }

    /** new TransformSimpleWriter() / (namespaceContext): writes to a string. */
    constructor ForString(namespaces: NsContext)
      ensures Abs() == NewWriter(namespaces, true)
    {
      xmlWriter, bufferedAttributes, openXmlElements := [], [], 0;
      namespaceContext, stringWriting := namespaces, true;
    }

    /** new TransformSimpleWriter(writer or stream[, namespaceContext]): not a string writer. */
    constructor ForOutput(namespaces: NsContext)
      ensures Abs() == NewWriter(namespaces, false)
    {
      xmlWriter, bufferedAttributes, openXmlElements := [], [], 0;
      namespaceContext, stringWriting := namespaces, false;
    }

    /** writeBufferedAttributes() */
    method WriteBufferedAttributes()
      modifies this
      ensures Abs() == FlushAttributes(old(Abs()))
    {
      var i := 0;
      while i < |bufferedAttributes|
        invariant 0 <= i <= |bufferedAttributes|
        invariant bufferedAttributes == old(bufferedAttributes)
        invariant xmlWriter == old(xmlWriter) + AttributeCalls(bufferedAttributes)[..i]
        invariant openXmlElements == old(openXmlElements) && namespaceContext == old(namespaceContext)
        invariant stringWriting == old(stringWriting)
      {
        var entry := bufferedAttributes[i];
        xmlWriter := xmlWriter + [XmlCall.WriteAttribute(entry.0, entry.1)];
        assert AttributeCalls(bufferedAttributes)[..i + 1] == AttributeCalls(bufferedAttributes)[..i] + [XmlCall.WriteAttribute(entry.0, entry.1)];
        i := i + 1;
      }
      assert AttributeCalls(bufferedAttributes)[..i] == AttributeCalls(bufferedAttributes);
      bufferedAttributes := [];
    }

    /** writeRootNamespaces() */
    method WriteRootNamespaces()
      modifies this
      ensures Abs() == old(Abs()).(log := old(xmlWriter) + (if old(openXmlElements) == 0 then RootNamespaces(namespaceContext) else []))
    {
      if openXmlElements == 0 {
        var defaultNsUri := namespaceContext.defaultUri;
        if defaultNsUri.Some? {
          xmlWriter := xmlWriter + [WriteDefaultNamespace(defaultNsUri.value)];
        }
        ghost var target := old(xmlWriter) + RootNamespaces(namespaceContext);
        var order := namespaceContext.prefixOrder;
        var prefixes := namespaceContext.prefixes;
        var i := 0;
        while i < |order|
          invariant 0 <= i <= |order|
          invariant xmlWriter + PrefixDeclarations(order[i..], prefixes) == target
          invariant bufferedAttributes == old(bufferedAttributes) && openXmlElements == old(openXmlElements)
          invariant namespaceContext == old(namespaceContext) && stringWriting == old(stringWriting)
        {
          var p := order[i];
          PrefixDeclarationsStep(order, i, prefixes);
          if p in prefixes && !Reserved(prefixes[p]) {
            xmlWriter := xmlWriter + [WriteNamespace(p, prefixes[p])];
          }
          i := i + 1;
        }
        assert xmlWriter == target;
      }
    }

    /** The end-tag loop of writeEndDocument, close and getXmlString. */
    method WriteOpenEndTags()
      modifies this
      ensures Abs() == old(Abs()).(log := old(xmlWriter) + EndTags(old(openXmlElements)))
    {
      var i := 0;
      while i < openXmlElements
        invariant 0 <= i <= (if openXmlElements > 0 then openXmlElements else 0)
        invariant xmlWriter == old(xmlWriter) + EndTags(i)
        invariant bufferedAttributes == old(bufferedAttributes) && openXmlElements == old(openXmlElements)
        invariant namespaceContext == old(namespaceContext) && stringWriting == old(stringWriting)
      {
        xmlWriter := xmlWriter + [XmlCall.WriteEndElement];
        i := i + 1;
      }
    }

    /** writeStartElement(...), every overload */
    method WriteStartElement(prefix: Option<string>, localName: string, namespaceURI: Option<string>)
      modifies this
      ensures Abs() == Perform(old(Abs()), XmlCall.WriteStartElement(prefix, localName, namespaceURI))
    {
      WriteBufferedAttributes();
      xmlWriter := xmlWriter + [XmlCall.WriteStartElement(prefix, localName, namespaceURI)];
      WriteRootNamespaces();
      openXmlElements := openXmlElements + 1;
    }

    /** writeEndElement() */
    method WriteEndElement()
      modifies this
      ensures Abs() == Perform(old(Abs()), XmlCall.WriteEndElement)
    {
      WriteBufferedAttributes();
      xmlWriter := xmlWriter + [XmlCall.WriteEndElement];
      openXmlElements := openXmlElements - 1;
    }

    /** writeEndDocument(): ends the open elements but leaves the counter alone. */
    method WriteEndDocument()
      modifies this
      ensures Abs() == Perform(old(Abs()), XmlCall.WriteEndDocument)
    {
      WriteBufferedAttributes();
      WriteOpenEndTags();
      xmlWriter := xmlWriter + [XmlCall.WriteEndDocument];
    }

    /** close() */
    method Close()
      modifies this
      ensures Abs() == Perform(old(Abs()), XmlCall.Close)
    {
      WriteBufferedAttributes();
      WriteOpenEndTags();
      openXmlElements := 0;
      xmlWriter := xmlWriter + [XmlCall.Flush, XmlCall.Close];
    }

    /** writeAttribute(...), every overload: only buffered. */
    method WriteAttribute(name: QName, value: string)
      modifies this
      ensures Abs() == Perform(old(Abs()), XmlCall.WriteAttribute(name, value))
    {
      var k := 0;
      while k < |bufferedAttributes| && bufferedAttributes[k].0.Key() != name.Key()
        invariant 0 <= k <= |bufferedAttributes|
        invariant forall i :: 0 <= i < k ==> bufferedAttributes[i].0.Key() != name.Key()
      {
        k := k + 1;
      }
      BufferIndexIs(bufferedAttributes, name.Key(), k);
      if k < |bufferedAttributes| {
        bufferedAttributes := bufferedAttributes[k := (bufferedAttributes[k].0, value)];
      } else {
        bufferedAttributes := bufferedAttributes + [(name, value)];
      }
    }

    /**
     * Any other TransformXMLStreamWriter call: the namespace, DTD,
     * start-document and setter calls pass straight through, the others
     * first emit the buffered attributes.
     */
    method Call(c: XmlCall)
      modifies this
      ensures Abs() == Perform(old(Abs()), c)
    {
      match c
      case WriteStartElement(prefix, localName, ns) => WriteStartElement(prefix, localName, ns);
      case WriteEndElement => WriteEndElement();
      case WriteEndDocument => WriteEndDocument();
      case Close => Close();
      case WriteAttribute(name, value) => WriteAttribute(name, value);
      case Flush =>
        WriteBufferedAttributes();
        xmlWriter := xmlWriter + [Flush];
      case WriteEmptyElement(_, _, _) | WriteComment(_) | WriteProcessingInstruction(_, _) | WriteCData(_)
        | WriteEntityRef(_) | WriteCharacters(_) =>
        WriteBufferedAttributes();
        xmlWriter := xmlWriter + [c];
      case WriteNamespace(_, _) | WriteDefaultNamespace(_) | WriteDtd(_) | WriteStartDocument(_, _)
        | SetPrefix(_, _) | SetDefaultNamespace(_) =>
        xmlWriter := xmlWriter + [c];
    }

    /** node.write(this) */
    method WriteNode(n: Node)
      modifies this
      ensures Abs() == PerformAll(old(Abs()), NodeCalls(n))
      decreases n
    {
      match n
      case CollectionNode(nodes) =>
        WriteList(nodes);
      case ElementNode(q, attrs, namespaces, children) =>
        ghost var w0 := Abs();
        Call(StartElementOf(q));
        assert Abs() == PerformAll(w0, [StartElementOf(q)]);
        WriteAttributes(attrs);
        PerformAllAppend(w0, [StartElementOf(q)], AttrCalls(attrs));
        WriteList(namespaces);
        PerformAllAppend(w0, [StartElementOf(q)] + AttrCalls(attrs), ListCalls(namespaces));
        WriteList(children);
        PerformAllAppend(w0, [StartElementOf(q)] + AttrCalls(attrs) + ListCalls(namespaces), ListCalls(children));
        Call(XmlCall.WriteEndElement);
        PerformAllAppend(w0, [StartElementOf(q)] + AttrCalls(attrs) + ListCalls(namespaces) + ListCalls(children), [XmlCall.WriteEndElement]);
      case AttributeMapNode(attrs) =>
        WriteAttributes(attrs);
      case _ =>
        ghost var w0 := Abs();
        Call(NodeCalls(n)[0]);
        assert NodeCalls(n) == [NodeCalls(n)[0]];
        assert PerformAll(w0, NodeCalls(n)) == Perform(PerformAll(w0, []), NodeCalls(n)[0]);
    }

    /** NodeCollection.write / the loop of write(nodes...) over non-null nodes */
    method WriteList(nodes: seq<Node>)
      modifies this
      ensures Abs() == PerformAll(old(Abs()), ListCalls(nodes))
      decreases nodes
    {
      if |nodes| > 0 {
        ghost var w0 := Abs();
        WriteNode(nodes[0]);
        WriteList(nodes[1..]);
        PerformAllAppend(w0, NodeCalls(nodes[0]), ListCalls(nodes[1..]));
      } else {
        assert ListCalls(nodes) == [];
      }
    }

    /** AttributeMap.write: each attribute in iteration order. */
    method WriteAttributes(attrs: seq<Attr>)
      modifies this
      ensures Abs() == PerformAll(old(Abs()), AttrCalls(attrs))
    {
      var i := 0;
      while i < |attrs|
        invariant 0 <= i <= |attrs|
        invariant Abs() == PerformAll(old(Abs()), AttrCalls(attrs)[..i])
      {
        assert AttrCalls(attrs)[..i + 1] == AttrCalls(attrs)[..i] + [XmlCall.WriteAttribute(attrs[i].name, attrs[i].value)];
        PerformAllAppend(old(Abs()), AttrCalls(attrs)[..i], [XmlCall.WriteAttribute(attrs[i].name, attrs[i].value)]);
        assert PerformAll(PerformAll(old(Abs()), AttrCalls(attrs)[..i]), [XmlCall.WriteAttribute(attrs[i].name, attrs[i].value)])
          == Perform(PerformAll(PerformAll(old(Abs()), AttrCalls(attrs)[..i]), []), XmlCall.WriteAttribute(attrs[i].name, attrs[i].value));
        WriteAttribute(attrs[i].name, attrs[i].value);
        i := i + 1;
      }
      assert AttrCalls(attrs)[..i] == AttrCalls(attrs);
    }

    /** write(nodes...): each non-null node writes itself, in order; nulls are skipped. */
    method Write(nodes: seq<Option<Node>>)
      modifies this
      ensures Abs() == PerformAll(old(Abs()), NodesCalls(nodes))
    {
      var i := 0;
      while i < |nodes|
        invariant 0 <= i <= |nodes|
        invariant PerformAll(Abs(), NodesCalls(nodes[i..])) == PerformAll(old(Abs()), NodesCalls(nodes))
      {
        assert nodes[i..][1..] == nodes[i + 1..];
        if nodes[i].Some? {
          ghost var w0 := Abs();
          WriteNode(nodes[i].value);
          PerformAllAppend(w0, NodeCalls(nodes[i].value), NodesCalls(nodes[i + 1..]));
        }
        i := i + 1;
      }
    }

    /** getXmlString() */
    method GetXmlString() returns (r: Result<seq<XmlCall>>)
      modifies this
      ensures XmlString(old(Abs())).Failure? ==> r == Failure(XmlStream) && Abs() == old(Abs())
      ensures XmlString(old(Abs())).Success? ==>
        r == Success(XmlString(old(Abs())).value.1) && Abs() == XmlString(old(Abs())).value.0
    {
      if !stringWriting {
        return Failure(XmlStream);
      }
      WriteOpenEndTags();
      openXmlElements := 0;
      xmlWriter := xmlWriter + [XmlCall.Flush, XmlCall.Close];
      r := Success(xmlWriter);
    }
  }

  lemma {:induction false} BufferIndexIs(buf: seq<(QName, string)>, key: NameKey, k: nat)
    requires k <= |buf|
    requires k < |buf| ==> buf[k].0.Key() == key
    requires forall i :: 0 <= i < k ==> buf[i].0.Key() != key
    ensures BufferIndex(buf, key) == k
    decreases k
  {
    if k > 0 {
      BufferIndexIs(buf[1..], key, k - 1);
    }
  }
}
