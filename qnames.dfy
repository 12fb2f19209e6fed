/**
 * javax.xml.namespace.QName as the engine uses it.  A null namespace URI is
 * stored as "" and a missing prefix as "", exactly as QName's constructors
 * do; equality of names compares the namespace URI and the local part only,
 * so every comparison in the model goes through Key.
 */
module QNames {

  datatype QName = QName(namespaceURI: string, localPart: string, prefix: string)
  {
    /** The part of the name that QName.equals and QName.hashCode look at. */
    function Key(): NameKey
    {
      NameKey(namespaceURI, localPart)
    }

    /** QName.equals. */
    predicate SameName(other: QName)
    {
      Key() == other.Key()
    }
  }

  datatype NameKey = NameKey(ns: string, local: string)

  /** new QName(localPart) */
  function Local(localPart: string): QName
  {
    QName("", localPart, "")
  }

  /** new QName(namespaceURI, localPart), a null URI becoming "" */
  function Qualified(ns: string, localPart: string): QName
  {
    QName(ns, localPart, "")
  }

  const XML_NS_URI: string := "http://www.w3.org/XML/1998/namespace"
  const XMLNS_ATTRIBUTE_NS_URI: string := "http://www.w3.org/2000/xmlns/"
}
