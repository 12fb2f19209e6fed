/**
 * TransformNamespaceContext: a prefix -> URI map, a URI -> prefixes map and
 * a default namespace URI.  The value NsContext and the functions over it
 * specify the class TransformNamespaceContext below, which keeps the same
 * data in fields and updates them in place.
 *
 * A Java HashMap iterates in an order the model cannot know; the model fixes
 * it as the order in which keys were first put (prefixOrder).  Prefixes may
 * be null (None), as HashMap allows; namespace URIs are never null here.
 */
module NamespaceContexts {
  import opened Wrappers
  import opened QNames

  type Prefix = Option<string>

  datatype NsContext = NsContext(
    prefixOrder: seq<Prefix>,             // iteration order of namespacePrefixes
    prefixes: map<Prefix, string>,        // namespacePrefixes
    uris: map<string, seq<Prefix>>,       // namespaceURIs
    defaultUri: Option<string>)           // defaultNamespaceURI

  /** The shape every context keeps: the order lists each bound prefix once. */
  ghost predicate WellFormed(c: NsContext)
  {
    && (forall i, j :: 0 <= i < j < |c.prefixOrder| ==> c.prefixOrder[i] != c.prefixOrder[j])
    && (forall p :: p in c.prefixes <==> p in c.prefixOrder)
    && (forall u :: u in c.uris ==> |c.uris[u]| > 0)
  }

  function Empty(): NsContext
  {
    NsContext([], map[], map[], None)
  }

  /** addNamespace(prefix, uri): rebind the prefix, append it to the URI's list. */
  function Add(c: NsContext, prefix: Prefix, uri: string): (r: NsContext)
    ensures WellFormed(c) ==> WellFormed(r)
    ensures r.defaultUri == c.defaultUri
  {
    var order := if prefix in c.prefixes then c.prefixOrder else c.prefixOrder + [prefix];
    var list := if uri in c.uris then c.uris[uri] else [];
    NsContext(order, c.prefixes[prefix := uri], c.uris[uri := list + [prefix]], c.defaultUri)
  }

  /** addNamespace for each entry of a map, in the map's iteration order. */
  function AddAll(c: NsContext, entries: seq<(Prefix, string)>): (r: NsContext)
    ensures WellFormed(c) ==> WellFormed(r)
    ensures r.defaultUri == c.defaultUri
    decreases |entries|
  {
    if |entries| == 0 then c
    else
      var last := entries[|entries| - 1];
      Add(AddAll(c, entries[..|entries| - 1]), last.0, last.1)
  }

  /** initializeNamespaces: bind the reserved xml and xmlns prefixes. */
  function Initialized(): NsContext
  {
    Add(Add(Empty(), Some("xml"), XML_NS_URI), Some("xmlns"), XMLNS_ATTRIBUTE_NS_URI)
  }

  function WithDefault(c: NsContext, defaultUri: Option<string>): NsContext
  {
    c.(defaultUri := defaultUri)
  }

  /** The prefix bindings in iteration order, as the copy constructor visits them. */
  function Entries(c: NsContext): (r: seq<(Prefix, string)>)
    ensures |r| == |c.prefixOrder|
    ensures forall i :: 0 <= i < |r| ==> r[i].0 == c.prefixOrder[i]
  {
    seq(|c.prefixOrder|, i requires 0 <= i < |c.prefixOrder| =>
      var p := c.prefixOrder[i];
      (p, if p in c.prefixes then c.prefixes[p] else ""))
  }

  /** new TransformNamespaceContext(inherit): the default, then every binding re-added. */
  function Copy(c: NsContext): NsContext
  {
    AddAll(WithDefault(Empty(), c.defaultUri), Entries(c))
  }

  /** getNamespaceURI(prefix) */
  function GetNamespaceURI(c: NsContext, prefix: Prefix): (r: Result<string>)
    ensures prefix.None? <==> r.Failure?
    ensures r.Failure? ==> r.error == IllegalArgument
    ensures r.Success? && prefix in c.prefixes ==> r.value == c.prefixes[prefix]
    ensures r.Success? && prefix !in c.prefixes ==> r.value == ""
  {
    if prefix.None? then Failure(IllegalArgument)
    else if prefix in c.prefixes then Success(c.prefixes[prefix])
    else Success("")
  }

  /** getPrefix(uri): the first prefix ever added for the URI, or null. */
  function GetPrefix(c: NsContext, uri: Option<string>): (r: Result<Prefix>)
    requires WellFormed(c)
    ensures uri.None? <==> r.Failure?
    ensures r.Failure? ==> r.error == IllegalArgument
    ensures uri.Some? && uri.value !in c.uris ==> r == Success(None)
    ensures uri.Some? && uri.value in c.uris ==> r == Success(c.uris[uri.value][0])
  {
    if uri.None? then Failure(IllegalArgument)
    else if uri.value in c.uris then Success(c.uris[uri.value][0])
    else Success(None)
  }

  /** getPrefixes(uri): every prefix added for the URI (an iterator over them), or null. */
  function GetPrefixes(c: NsContext, uri: Option<string>): (r: Result<Option<seq<Prefix>>>)
    ensures uri.None? <==> r.Failure?
    ensures r.Success? ==> (r.value.Some? <==> uri.value in c.uris)
    ensures r.Success? && r.value.Some? ==> r.value.value == c.uris[uri.value]
  {
    if uri.None? then Failure(IllegalArgument)
    else if uri.value in c.uris then Success(Some(c.uris[uri.value]))
    else Success(None)
  }

  // ---------------------------------------------------------------------
  // Properties

  /** A fresh context binds xml and xmlns and nothing else, with no default. */
  lemma InitializedBindsReservedPrefixes()
    ensures WellFormed(Initialized())
    ensures GetNamespaceURI(Initialized(), Some("xml")) == Success(XML_NS_URI)
    ensures GetNamespaceURI(Initialized(), Some("xmlns")) == Success(XMLNS_ATTRIBUTE_NS_URI)
    ensures GetPrefix(Initialized(), Some(XML_NS_URI)) == Success(Some("xml"))
    ensures forall p :: p != Some("xml") && p != Some("xmlns") ==> p !in Initialized().prefixes
    ensures Initialized().defaultUri.None?
  {
    assert WellFormed(Empty());
    assert |XML_NS_URI| != |XMLNS_ATTRIBUTE_NS_URI|;
    assert Some("xml") != Some("xmlns") by { assert |"xml"| != |"xmlns"|; }
    var c1 := Add(Empty(), Some("xml"), XML_NS_URI);
    assert c1.prefixes == map[][Some("xml") := XML_NS_URI] && c1.uris == map[][XML_NS_URI := [] + [Some("xml")]];
    var c2 := Add(c1, Some("xmlns"), XMLNS_ATTRIBUTE_NS_URI);
    assert c2 == Initialized();
    assert c2.prefixes == c1.prefixes[Some("xmlns") := XMLNS_ATTRIBUTE_NS_URI];
    assert c2.uris[XML_NS_URI] == [Some("xml")];
  }

  /** After addNamespace(p, u), getNamespaceURI(p) is u and every other prefix is unaffected. */
  lemma AddThenGet(c: NsContext, p: string, u: string, q: Prefix)
    ensures GetNamespaceURI(Add(c, Some(p), u), Some(p)) == Success(u)
    ensures q != Some(p) ==> GetNamespaceURI(Add(c, Some(p), u), q) == GetNamespaceURI(c, q)
  {
  }

  /** The first prefix that a run of additions gives a URI, if any. */
  function FirstPrefixFor(entries: seq<(Prefix, string)>, uri: string): (r: Option<Prefix>)
    ensures r.Some? <==> exists i :: 0 <= i < |entries| && entries[i].1 == uri
    ensures r.Some? ==> exists i :: 0 <= i < |entries| && entries[i].1 == uri && entries[i].0 == r.value
  {
    if |entries| == 0 then None
    else if entries[0].1 == uri then Some(entries[0].0)
    else
      var r := FirstPrefixFor(entries[1..], uri);
      assert forall i :: 0 < i < |entries| ==> entries[i] == entries[1..][i - 1];
      assert r.Some? ==> exists i :: 0 <= i < |entries[1..]| && entries[1..][i].1 == uri;
      r
  }

  lemma {:induction false} FirstPrefixForPrefix(entries: seq<(Prefix, string)>, uri: string, n: nat)
    requires n < |entries|
    ensures FirstPrefixFor(entries[..n + 1], uri) ==
      (if FirstPrefixFor(entries[..n], uri).Some? then FirstPrefixFor(entries[..n], uri)
       else if entries[n].1 == uri then Some(entries[n].0) else None)
  {
    if n > 0 {
      assert entries[..n + 1][1..] == entries[1..][..n];
      assert entries[..n][1..] == entries[1..][..n - 1];
      FirstPrefixForPrefix(entries[1..], uri, n - 1);
    }
  }

  /**
   * getPrefix(u) after a run of addNamespace calls on a context that did not
   * know u returns the prefix of the FIRST call that used u, and null when
   * none did: later additions append to the URI's list, never in front.
   */
  lemma {:induction false} GetPrefixReturnsFirstAdded(c: NsContext, entries: seq<(Prefix, string)>, u: string)
    requires WellFormed(c)
    requires u !in c.uris
    ensures GetPrefix(AddAll(c, entries), Some(u)) ==
      (var first := FirstPrefixFor(entries, u); if first.Some? then Success(first.value) else Success(None))
  {
    FirstAddedIsHead(c, entries, u);
  }

  lemma {:induction false} FirstAddedIsHead(c: NsContext, entries: seq<(Prefix, string)>, u: string)
    requires u !in c.uris
    ensures u in AddAll(c, entries).uris <==> FirstPrefixFor(entries, u).Some?
    ensures u in AddAll(c, entries).uris ==>
      |AddAll(c, entries).uris[u]| > 0 && AddAll(c, entries).uris[u][0] == FirstPrefixFor(entries, u).value
    decreases |entries|
  {
    if |entries| > 0 {
      var n := |entries| - 1;
      FirstAddedIsHead(c, entries[..n], u);
      FirstPrefixForPrefix(entries, u, n);
      assert entries[..n + 1] == entries;
    }
  }

  /** addNamespace(p, u) appends p to u's prefix list and leaves every other URI's list alone. */
  lemma AddAppendsPrefix(c: NsContext, p: Prefix, u: string, v: string)
    ensures var before := GetPrefixes(c, Some(u)).value;
      GetPrefixes(Add(c, p, u), Some(u)) == Success(Some((if before.Some? then before.value else []) + [p]))
    ensures v != u ==> GetPrefixes(Add(c, p, u), Some(v)) == GetPrefixes(c, Some(v))
  {
  }

  /** The prefixes of the entries that name the URI, in order. */
  function PrefixesFor(entries: seq<(Prefix, string)>, uri: string): (r: seq<Prefix>)
    ensures |r| <= |entries|
    decreases |entries|
  {
    if |entries| == 0 then []
    else
      var last := entries[|entries| - 1];
      PrefixesFor(entries[..|entries| - 1], uri) + (if last.1 == uri then [last.0] else [])
  }

  /**
   * getPrefixes(u) after a run of addNamespace calls on a context that did
   * not know u lists the prefix of every call that used u, in call order,
   * and is null when none did.
   */
  lemma {:induction false} AddAllPrefixes(c: NsContext, entries: seq<(Prefix, string)>, u: string)
    requires u !in c.uris
    ensures GetPrefixes(AddAll(c, entries), Some(u)) ==
      Success(if PrefixesFor(entries, u) == [] then None else Some(PrefixesFor(entries, u)))
    decreases |entries|
  {
    if |entries| > 0 {
      var n := |entries| - 1;
      var last := entries[n];
      AddAllPrefixes(c, entries[..n], u);
      var before := AddAll(c, entries[..n]);
      AddAppendsPrefix(before, last.0, last.1, u);
      assert AddAll(c, entries) == Add(before, last.0, last.1);
      var earlier := PrefixesFor(entries[..n], u);
      assert PrefixesFor(entries, u) == earlier + (if last.1 == u then [last.0] else []);
      if last.1 == u {
        assert GetPrefixes(before, Some(u)).value == (if earlier == [] then None else Some(earlier));
        assert (if earlier == [] then [] else earlier) + [last.0] == earlier + [last.0];
      } else {
        assert earlier + [] == earlier;
      }
    }
  }

  /** The value bound to p by the last entry that names p. */
  function LastBinding(entries: seq<(Prefix, string)>, p: Prefix): Option<string>
    decreases |entries|
  {
    if |entries| == 0 then None
    else if entries[|entries| - 1].0 == p then Some(entries[|entries| - 1].1)
    else LastBinding(entries[..|entries| - 1], p)
  }

  lemma {:induction false} AddAllBinding(c: NsContext, entries: seq<(Prefix, string)>, p: Prefix)
    ensures LastBinding(entries, p).Some? ==>
      p in AddAll(c, entries).prefixes && AddAll(c, entries).prefixes[p] == LastBinding(entries, p).value
    ensures LastBinding(entries, p).None? ==>
      (p in AddAll(c, entries).prefixes <==> p in c.prefixes) &&
      (p in c.prefixes ==> AddAll(c, entries).prefixes[p] == c.prefixes[p])
    decreases |entries|
  {
    if |entries| > 0 {
      AddAllBinding(c, entries[..|entries| - 1], p);
    }
  }

  lemma {:induction false} EntriesLastBinding(c: NsContext, n: nat, p: Prefix)
    requires forall i :: 0 <= i < |c.prefixOrder| ==> c.prefixOrder[i] in c.prefixes
    requires n <= |c.prefixOrder|
    ensures p in c.prefixOrder[..n] ==> LastBinding(Entries(c)[..n], p) == Some(c.prefixes[p])
    ensures p !in c.prefixOrder[..n] ==> LastBinding(Entries(c)[..n], p) == None
  {
    if n > 0 {
      EntriesLastBinding(c, n - 1, p);
      var es := Entries(c)[..n];
      var q := c.prefixOrder[n - 1];
      assert es[..n - 1] == Entries(c)[..n - 1];
      assert es[n - 1] == (q, c.prefixes[q]);
      TakeOneMore(c.prefixOrder, n - 1);
      assert p in c.prefixOrder[..n] <==> p == q || p in c.prefixOrder[..n - 1];
      if q == p {
        assert LastBinding(es, p) == Some(c.prefixes[p]);
      } else {
        assert LastBinding(es, p) == LastBinding(Entries(c)[..n - 1], p);
      }
    }
  }

  /**
   * The copy constructor keeps the default URI and every prefix binding:
   * getNamespaceURI answers the same for every prefix.
   */
  lemma CopyPreservesBindings(c: NsContext, p: Prefix)
    requires WellFormed(c)
    ensures WellFormed(Copy(c))
    ensures Copy(c).defaultUri == c.defaultUri
    ensures (p in Copy(c).prefixes <==> p in c.prefixes)
    ensures GetNamespaceURI(Copy(c), p) == GetNamespaceURI(c, p)
  {
    var base := WithDefault(Empty(), c.defaultUri);
    assert WellFormed(base);
    AddAllBinding(base, Entries(c), p);
    EntriesLastBinding(c, |c.prefixOrder|, p);
    assert Entries(c)[..|c.prefixOrder|] == Entries(c);
    assert c.prefixOrder[..|c.prefixOrder|] == c.prefixOrder;
  }

  lemma TakeOneMore<T>(s: seq<T>, i: nat)
    requires i < |s|
    ensures s[..i + 1] == s[..i] + [s[i]]
  {
  }

  // ---------------------------------------------------------------------
  // The class, with the maps as fields that its methods reassign

  class TransformNamespaceContext {
    var prefixOrder: seq<Prefix>
    var namespacePrefixes: map<Prefix, string>
    var namespaceURIs: map<string, seq<Prefix>>
    var defaultNamespaceURI: Option<string>

    ghost function Abs(): NsContext
      reads this
    {
      NsContext(prefixOrder, namespacePrefixes, namespaceURIs, defaultNamespaceURI)
    }

    ghost predicate Valid()
      reads this
    {
      WellFormed(Abs())
    }

    /** new TransformNamespaceContext() */
    constructor ()
      ensures Valid() && Abs() == Initialized()
    {
      prefixOrder, namespacePrefixes, namespaceURIs, defaultNamespaceURI := [], map[], map[], None;
      new;
      InitializeNamespaces();
    }

    /** new TransformNamespaceContext(prefix, uri) */
    constructor WithNamespace(prefix: Prefix, uri: string)
      ensures Valid() && Abs() == Add(Initialized(), prefix, uri)
    {
      prefixOrder, namespacePrefixes, namespaceURIs, defaultNamespaceURI := [], map[], map[], None;
      new;
      InitializeNamespaces();
      AddNamespace(prefix, uri);
    }

    /** new TransformNamespaceContext(defaultNamespaceURI) */
    constructor WithDefaultNamespace(defaultUri: Option<string>)
      ensures Valid() && Abs() == WithDefault(Initialized(), defaultUri)
    {
      prefixOrder, namespacePrefixes, namespaceURIs, defaultNamespaceURI := [], map[], map[], None;
      new;
      InitializeNamespaces();
      defaultNamespaceURI := defaultUri;
    }

    /** new TransformNamespaceContext(namespaces), the map given by its entries in iteration order. */
    constructor WithNamespaces(namespaces: seq<(Prefix, string)>)
      ensures Valid() && Abs() == AddAll(Initialized(), namespaces)
    {
      prefixOrder, namespacePrefixes, namespaceURIs, defaultNamespaceURI := [], map[], map[], None;
      new;
      InitializeNamespaces();
      AddEach(namespaces);
    }

    /**
     * new TransformNamespaceContext(defaultNamespaceURI, namespaces): the
     * default URI argument is never stored, so the context has none.
     */
    constructor WithDefaultAndNamespaces(defaultUri: Option<string>, namespaces: seq<(Prefix, string)>)
      ensures Valid() && Abs() == AddAll(Initialized(), namespaces)
      ensures defaultNamespaceURI == None
    {
      prefixOrder, namespacePrefixes, namespaceURIs, defaultNamespaceURI := [], map[], map[], None;
      new;
      InitializeNamespaces();
      AddEach(namespaces);
    }

    /** new TransformNamespaceContext(inherit): no reserved prefixes are added first. */
    constructor CopyOf(inherit: TransformNamespaceContext)
      requires inherit.Valid()
      ensures Valid() && Abs() == Copy(inherit.Abs())
    {
      prefixOrder, namespacePrefixes, namespaceURIs := [], map[], map[];
      defaultNamespaceURI := inherit.defaultNamespaceURI;
      new;
      ghost var base := Abs();
      var order := inherit.prefixOrder;
      var i := 0;
      while i < |order|
        invariant 0 <= i <= |order|
        invariant Valid() && Abs() == AddAll(base, Entries(inherit.Abs())[..i])
      {
        var p := order[i];
        assert p in inherit.namespacePrefixes;
        ghost var es := Entries(inherit.Abs());
        assert es[i] == (p, inherit.namespacePrefixes[p]);
        TakeOneMore(es, i);
        AddNamespace(p, inherit.namespacePrefixes[p]);
        i := i + 1;
      }
      assert Entries(inherit.Abs())[..i] == Entries(inherit.Abs());
    }

    /** The loop over a map's entries shared by the constructors. */
    method AddEach(entries: seq<(Prefix, string)>)
      requires Valid()
      modifies this
      ensures Valid() && Abs() == AddAll(old(Abs()), entries)
    {
      var i := 0;
      while i < |entries|
        invariant 0 <= i <= |entries|
        invariant Valid() && Abs() == AddAll(old(Abs()), entries[..i])
      {
        assert entries[..i + 1][..i] == entries[..i];
        AddNamespace(entries[i].0, entries[i].1);
        i := i + 1;
      }
      assert entries[..i] == entries;
    }

    /** initializeNamespaces() */
    method InitializeNamespaces()
      requires Valid()
      modifies this
      ensures Valid()
      ensures Abs() == Add(Add(old(Abs()), Some("xml"), XML_NS_URI), Some("xmlns"), XMLNS_ATTRIBUTE_NS_URI)
    {
      AddNamespace(Some("xml"), XML_NS_URI);
      AddNamespace(Some("xmlns"), XMLNS_ATTRIBUTE_NS_URI);
    }

    /** addNamespace(prefix, uri) */
    method AddNamespace(prefix: Prefix, uri: string)
      requires Valid()
      modifies this
      ensures Valid() && Abs() == Add(old(Abs()), prefix, uri)
    {
      if prefix !in namespacePrefixes {
        prefixOrder := prefixOrder + [prefix];
      }
      namespacePrefixes := namespacePrefixes[prefix := uri];
      var prefixesForUri: seq<Prefix>;
      if uri in namespaceURIs {
        prefixesForUri := namespaceURIs[uri];
      } else {
        prefixesForUri := [];
      }
      namespaceURIs := namespaceURIs[uri := prefixesForUri + [prefix]];
    }

    /** setDefaultNamespaceURI(uri) */
    method SetDefaultNamespaceURI(uri: Option<string>)
      requires Valid()
      modifies this
      ensures Valid() && Abs() == WithDefault(old(Abs()), uri)
    {
      defaultNamespaceURI := uri;
    }

    /** getDefaultNamespaceURI() */
    method GetDefaultNamespaceURI() returns (r: Option<string>)
      ensures r == Abs().defaultUri
    {
      r := defaultNamespaceURI;
    }

    /**
     * getNamespacePrefixes(): a new map holding the same bindings.  The
     * result is a value, so changing it later cannot reach the context.
     */
    method GetNamespacePrefixes() returns (r: map<Prefix, string>)
      requires Valid()
      ensures forall p :: p in r <==> p in prefixOrder
      ensures forall p :: p in r ==> r[p] == namespacePrefixes[p]
    {
      r := namespacePrefixes;
    }

    /** getNamespaceURI(prefix) */
    method GetNamespaceURIFor(prefix: Prefix) returns (r: Result<string>)
      ensures r == GetNamespaceURI(Abs(), prefix)
    {
      if prefix.None? {
        return Failure(IllegalArgument);
      }
      var result := "";
      if prefix in namespacePrefixes {
        result := namespacePrefixes[prefix];
      }
      r := Success(result);
    }

    /** getPrefix(uri) */
    method GetPrefixFor(uri: Option<string>) returns (r: Result<Prefix>)
      requires Valid()
      ensures r == GetPrefix(Abs(), uri)
    {
      if uri.None? {
        return Failure(IllegalArgument);
      }
      var result: Prefix := None;
      if uri.value in namespaceURIs {
        result := namespaceURIs[uri.value][0];
      }
      r := Success(result);
    }
  }
}
