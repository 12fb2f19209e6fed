/**
 * The pull-parser side of the engine: the events an XMLStreamReader reports
 * and the two whitespace tests the engine relies on.  The StAX parser itself
 * is a foreign library, so the live input is modelled as the sequence of
 * events it would report after START_DOCUMENT; each event carries what the
 * reader's accessors return while the cursor is on it.
 */
module Events {
  import opened Wrappers
  import opened QNames
  import opened Nodes

  /** One namespace declaration on a start tag; the default namespace has no prefix. */
  datatype NsDecl = NsDecl(prefix: Option<string>, uri: string)

  /**
   * The events the transformer dispatches on.  A start element carries its
   * attributes and namespace declarations in reader order.  Text from the
   * live parser is never null; text replayed from a Text node may be.  An
   * entity reference carries its name and the text getText() reports for it.
   */
  datatype Event =
    | StartElementEvent(name: QName, attributes: seq<Attr>, namespaces: seq<NsDecl>)
    | EndElementEvent(name: QName)
    | CharactersEvent(chars: Option<string>)
    | CDataEvent(cdata: string)
    | SpaceEvent(space: string)
    | CommentEvent(comment: string)
    | PIEvent(target: string, data: Option<string>)
    | EntityReferenceEvent(entityName: string, replacement: Option<string>)
    | EndDocumentEvent

  /** The white space characters of XML 1.0 (the S production, section 2.3). */
  predicate XmlSpaceChar(c: char)
  {
    c == ' ' || c == '\t' || c == '\r' || c == '\n'
  }

  /**
   * What the live parser's isWhiteSpace() reports for character data: the
   * text consists of XML white space only.
   */
  predicate XmlWhiteSpace(s: string)
  {
    forall i :: 0 <= i < |s| ==> XmlSpaceChar(s[i])
  }

  /**
   * java.lang.Character.isWhitespace: the space, line and paragraph
   * separators of Unicode except the three non-breaking spaces, and the
   * control characters U+0009 to U+000D and U+001C to U+001F.
   */
  predicate JavaWhitespaceChar(c: char)
  {
    ('\U{0009}' <= c <= '\U{000D}') || ('\U{001C}' <= c <= '\U{001F}') ||
    c == ' ' || c == '\U{1680}' ||
    ('\U{2000}' <= c <= '\U{2006}') || ('\U{2008}' <= c <= '\U{200A}') ||
    c == '\U{2028}' || c == '\U{2029}' || c == '\U{205F}' || c == '\U{3000}'
  }

  /**
   * ApplyReader.isTextWhitespace: null and empty text count as white
   * space; otherwise every character must be Java white space.
   */
  predicate TextWhitespace(text: Option<string>)
  {
    text.None? || forall i :: 0 <= i < |text.value| ==> JavaWhitespaceChar(text.value[i])
  }

  // ---------------------------------------------------------------------
  // Accessors every reader answers the same way from its current event

  /** The event kinds that carry a name (hasName). */
  predicate HasName(current: Option<Event>)
  {
    current.Some? && (current.value.StartElementEvent? || current.value.EndElementEvent?)
  }

  /** getName(): the element name at a start or end tag. */
  function GetName(current: Option<Event>): (r: Result<QName>)
    ensures r.Success? <==> HasName(current)
    ensures r.Failure? ==> r.error == IllegalState
  {
    match current
    case Some(StartElementEvent(q, _, _)) => Success(q)
    case Some(EndElementEvent(q)) => Success(q)
    case _ => Failure(IllegalState)
  }

  /** The attributes of the start tag the reader is on; anything else throws. */
  function GetAttributes(current: Option<Event>): (r: Result<seq<Attr>>)
    ensures r.Success? <==> current.Some? && current.value.StartElementEvent?
    ensures r.Success? ==> r.value == current.value.attributes
    ensures r.Failure? ==> r.error == IllegalState
  {
    if current.Some? && current.value.StartElementEvent? then Success(current.value.attributes)
    else Failure(IllegalState)
  }

  /** getAttributeCount() */
  function GetAttributeCount(current: Option<Event>): (r: Result<nat>)
    ensures r.Success? <==> GetAttributes(current).Success?
    ensures r.Success? ==> r.value == |GetAttributes(current).value|
  {
    var attrs :- GetAttributes(current);
    Success(|attrs|)
  }

  /** getAttributeName(index) with getAttributeValue(index): the index-th attribute. */
  function GetAttribute(current: Option<Event>, index: int): (r: Result<Attr>)
    ensures GetAttributes(current).Failure? ==> r == Failure(IllegalState)
    ensures GetAttributes(current).Success? ==>
      (r.Success? <==> 0 <= index < |GetAttributes(current).value|)
    ensures r.Success? ==> r.value == GetAttributes(current).value[index]
    ensures r.Failure? && GetAttributes(current).Success? ==> r.error == IndexOutOfBounds
  {
    var attrs :- GetAttributes(current);
    if 0 <= index < |attrs| then Success(attrs[index]) else Failure(IndexOutOfBounds)
  }

  /**
   * getAttributeValue(namespaceURI, localName).  The reader files each
   * attribute under its full name and under its local name, a later
   * attribute replacing an earlier one; a null namespace looks up the
   * local name alone.
   */
  function GetAttributeValue(current: Option<Event>, namespaceURI: Option<string>, localName: string): (r: Result<Option<string>>)
    ensures r.Success? <==> GetAttributes(current).Success?
    ensures r.Success? && r.value.Some? ==>
      exists i :: 0 <= i < |current.value.attributes| &&
        AttrMatches(current.value.attributes[i], namespaceURI, localName) &&
        current.value.attributes[i].value == r.value.value &&
        forall j :: i < j < |current.value.attributes| ==> !AttrMatches(current.value.attributes[j], namespaceURI, localName)
    ensures r.Success? && r.value.None? ==>
      forall i :: 0 <= i < |current.value.attributes| ==> !AttrMatches(current.value.attributes[i], namespaceURI, localName)
  {
    var attrs :- GetAttributes(current);
    Success(LastMatch(attrs, namespaceURI, localName))
  }

  /** The key an attribute is looked up by: its local name alone when no namespace is given. */
  predicate AttrMatches(a: Attr, namespaceURI: Option<string>, localName: string)
  {
    a.name.localPart == localName && (namespaceURI.None? || a.name.namespaceURI == namespaceURI.value)
  }

  /** The value of the last matching attribute: the one a map put last. */
  function LastMatch(attrs: seq<Attr>, namespaceURI: Option<string>, localName: string): (r: Option<string>)
    ensures r.Some? ==>
      exists i :: 0 <= i < |attrs| && AttrMatches(attrs[i], namespaceURI, localName) && attrs[i].value == r.value &&
        forall j :: i < j < |attrs| ==> !AttrMatches(attrs[j], namespaceURI, localName)
    ensures r.None? ==> forall i :: 0 <= i < |attrs| ==> !AttrMatches(attrs[i], namespaceURI, localName)
    decreases |attrs|
  {
    if |attrs| == 0 then None
    else
      var last := attrs[|attrs| - 1];
      if AttrMatches(last, namespaceURI, localName) then Some(last.value)
      else LastMatch(attrs[..|attrs| - 1], namespaceURI, localName)
  }

  /** The namespace declarations of the start tag the reader is on; anything else throws. */
  function GetNamespaces(current: Option<Event>): (r: Result<seq<NsDecl>>)
    ensures r.Success? <==> current.Some? && current.value.StartElementEvent?
    ensures r.Success? ==> r.value == current.value.namespaces
    ensures r.Failure? ==> r.error == IllegalState
  {
    if current.Some? && current.value.StartElementEvent? then Success(current.value.namespaces)
    else Failure(IllegalState)
  }

  /** getNamespaceCount() */
  function GetNamespaceCount(current: Option<Event>): (r: Result<nat>)
    ensures r.Success? <==> GetNamespaces(current).Success?
    ensures r.Success? ==> r.value == |GetNamespaces(current).value|
  {
    var nss :- GetNamespaces(current);
    Success(|nss|)
  }

  /** getNamespacePrefix(index) with getNamespaceURI(index): the index-th declaration. */
  function GetNamespace(current: Option<Event>, index: int): (r: Result<NsDecl>)
    ensures GetNamespaces(current).Failure? ==> r == Failure(IllegalState)
    ensures GetNamespaces(current).Success? ==>
      (r.Success? <==> 0 <= index < |GetNamespaces(current).value|)
    ensures r.Success? ==> r.value == GetNamespaces(current).value[index]
  {
    var nss :- GetNamespaces(current);
    if 0 <= index < |nss| then Success(nss[index]) else Failure(IndexOutOfBounds)
  }

  /** getPITarget() */
  function GetPITarget(current: Option<Event>): (r: Result<string>)
    ensures r.Success? <==> current.Some? && current.value.PIEvent?
    ensures r.Success? ==> r.value == current.value.target
  {
    if current.Some? && current.value.PIEvent? then Success(current.value.target) else Failure(IllegalState)
  }

  /** getPIData() */
  function GetPIData(current: Option<Event>): (r: Result<Option<string>>)
    ensures r.Success? <==> current.Some? && current.value.PIEvent?
    ensures r.Success? ==> r.value == current.value.data
  {
    if current.Some? && current.value.PIEvent? then Success(current.value.data) else Failure(IllegalState)
  }

  /** getText(): the text of character data, white space, CDATA and comments, and an entity's reported text. */
  function GetText(current: Option<Event>): (r: Result<Option<string>>)
    ensures r.Success? <==> (current.Some? &&
      (current.value.CharactersEvent? || current.value.SpaceEvent? || current.value.CDataEvent? ||
       current.value.CommentEvent? || current.value.EntityReferenceEvent?))
    ensures r.Failure? ==> r.error == IllegalState
  {
    match current
    case Some(CharactersEvent(t)) => Success(t)
    case Some(SpaceEvent(t)) => Success(Some(t))
    case Some(CDataEvent(t)) => Success(Some(t))
    case Some(CommentEvent(t)) => Success(Some(t))
    case Some(EntityReferenceEvent(_, t)) => Success(t)
    case _ => Failure(IllegalState)
  }
}
