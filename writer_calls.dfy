/**
 * The calls a TransformXMLStreamWriter receives, and the calls that the
 * underlying javax XMLStreamWriter receives in turn.  The underlying writer
 * is a foreign library, so its output is modelled as the log of these calls
 * rather than as serialised text.  Java overloads that differ only in which
 * optional parts they pass are one constructor with Option fields (a missing
 * part is None); the attribute overloads are one constructor taking the QName
 * that each overload builds.
 */
module WriterCalls {
  import opened Wrappers
  import opened QNames

  datatype XmlCall =
    | WriteStartElement(prefix: Option<string>, localName: string, namespaceURI: Option<string>)
    | WriteEmptyElement(prefix: Option<string>, localName: string, namespaceURI: Option<string>)
    | WriteEndElement
    | WriteEndDocument
    | WriteAttribute(name: QName, value: string)
    | WriteNamespace(nsPrefix: Option<string>, uri: string)
    | WriteDefaultNamespace(uri: string)
    | WriteComment(data: string)
    | WriteProcessingInstruction(target: string, piData: Option<string>)
    | WriteCData(cdata: string)
    | WriteDtd(dtd: string)
    | WriteEntityRef(entityName: string)
    | WriteStartDocument(encoding: Option<string>, version: Option<string>)
    | WriteCharacters(text: Option<string>)
    | SetPrefix(setPrefix: string, setUri: string)
    | SetDefaultNamespace(defaultUri: string)
    | Flush
    | Close

  /** writeStartElement(QName): prefix, local part and namespace URI are passed on. */
  function StartElementOf(name: QName): XmlCall
  {
    WriteStartElement(Some(name.prefix), name.localPart, Some(name.namespaceURI))
  }

  /**
   * The TransformSimpleWriter calls that first emit the buffered attributes:
   * every call except the attribute, namespace, DTD, start-document and
   * setter calls.
   */
  predicate FlushesAttributes(c: XmlCall)
  {
    !(c.WriteAttribute? || c.WriteNamespace? || c.WriteDefaultNamespace? || c.WriteDtd? ||
      c.WriteStartDocument? || c.SetPrefix? || c.SetDefaultNamespace?)
  }

  /** How many start tags and end tags a run of calls opens and closes. */
  function Starts(calls: seq<XmlCall>): nat
  {
    if |calls| == 0 then 0
    else Starts(calls[..|calls| - 1]) + (if calls[|calls| - 1].WriteStartElement? then 1 else 0)
  }

  function Ends(calls: seq<XmlCall>): nat
  {
    if |calls| == 0 then 0
    else Ends(calls[..|calls| - 1]) + (if calls[|calls| - 1].WriteEndElement? then 1 else 0)
  }

  lemma {:induction false} StartsEndsAppend(a: seq<XmlCall>, b: seq<XmlCall>)
    ensures Starts(a + b) == Starts(a) + Starts(b)
    ensures Ends(a + b) == Ends(a) + Ends(b)
    decreases |b|
  {
    if |b| > 0 {
      assert (a + b)[..|a + b| - 1] == a + b[..|b| - 1];
      StartsEndsAppend(a, b[..|b| - 1]);
    } else {
      assert a + b == a;
    }
  }
}
