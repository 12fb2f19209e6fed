/**
 * The basic path-matching scenario of the path map's tests, worked through
 * the model: an element map under a context whose default namespace is also
 * bound to "def", four wildcard handlers "bar:*", "foo:*", "def:*" and "*"
 * at priorities 1, 5, 10 and 15, and three live paths of growing depth.
 */
module PathMapScenarios {
  import opened Wrappers
  import opened QNames
  import opened NamespaceContexts
  import opened Handlers
  import opened PathMaps

  const DefaultUri: string := "urn:my-default-namespace"
  const FooUri: string := "http://www.foo.com"
  const BarUri: string := "http://www.bar.com"

  /** A handler whose body does not matter here. */
  const Body: Handler := Handler(Script([], None), Script([], None))

  const Handler1: Holder := Holder(1, 1, "bar:*", Body)
  const Handler2: Holder := Holder(2, 5, "foo:*", Body)
  const Handler3: Holder := Holder(3, 10, "def:*", Body)
  const Handler4: Holder := Holder(4, 15, "*", Body)

  /** new context; setDefaultNamespaceURI(default); add foo, bar and def. */
  function TestContext(): (c: NsContext)
    ensures c.defaultUri == Some(DefaultUri)
    ensures GetNamespaceURI(c, Some("foo")) == Success(FooUri)
    ensures GetNamespaceURI(c, Some("bar")) == Success(BarUri)
    ensures GetNamespaceURI(c, Some("def")) == Success(DefaultUri)
  {
    Add(Add(Add(WithDefault(Initialized(), Some(DefaultUri)), Some("foo"), FooUri), Some("bar"), BarUri), Some("def"), DefaultUri)
  }

  lemma {:induction false} PiecesWithout(s: string, sep: char)
    requires sep !in s
    ensures Pieces(s, sep) == [s]
    decreases |s|
  {
    if |s| > 0 {
      PiecesWithout(s[1..], sep);
      assert [s[0]] + s[1..] == s;
    }
  }

  lemma {:induction false} PiecesAfter(p: string, q: string, sep: char)
    requires sep !in p
    ensures Pieces(p + [sep] + q, sep) == [p] + Pieces(q, sep)
    decreases |p|
  {
    var s := p + [sep] + q;
    if |p| == 0 {
      assert s[0] == sep && s[1..] == q;
    } else {
      assert s[0] == p[0] && s[1..] == p[1..] + [sep] + q;
      PiecesAfter(p[1..], q, sep);
      assert [p[0]] + p[1..] == p;
    }
  }

  lemma {:induction false} NoSpaces(s: string)
    requires ' ' !in s
    ensures RemoveSpaces(s) == s
    decreases |s|
  {
    if |s| > 0 {
      NoSpaces(s[1..]);
      assert [s[0]] + s[1..] == s;
    }
  }

  /** An alternative of one segment resolves to that segment's name alone. */
  lemma ResolveOne(st: Settings, ctx: NsContext, part: string, q: QName)
    requires ResolveSegment(st, ctx, part, 0, 0) == Success(q)
    ensures ResolveDown(st, ctx, [part], 1) == Success([q])
  {
    var parts := [part];
    assert parts[0] == part;
    assert ResolveDown(st, ctx, parts, 0) == Success([]);
    assert [q] + [] == [q];
  }

  /**
   * "p:*" in an element map: the segment splits on ':' into the prefix and
   * "*", and takes the namespace URI bound to the prefix.
   */
  lemma PrefixedWildcardResolves(st: Settings, ctx: NsContext, p: string, uri: string)
    requires st == SettingsFor(ElementType)
    requires p != "" && ':' !in p && '/' !in p && ' ' !in p
    requires GetNamespaceURI(ctx, Some(p)) == Success(uri)
    ensures ResolveAlternative(st, ctx, p + ":*") == Success([QName(uri, "*", p)])
  {
    var e := p + ":*";
    assert e == p + [':'] + "*";
    NoSpaces(e);
    assert Segments(e) == [e];
    PiecesAfter(p, "*", ':');
    PiecesWithout("*", ':');
    assert JavaSplit(e, ':') == [p, "*"];
    assert ':' in e && st.nodeTypePrefix.None?;
    assert ResolveSegment(st, ctx, e, 0, 0) == Success(QName(uri, "*", p));
    ResolveOne(st, ctx, e, QName(uri, "*", p));
  }

  /** A bare "*" in the last position is the element wildcard, without a namespace. */
  lemma BareWildcardResolves(st: Settings, ctx: NsContext)
    requires st == SettingsFor(ElementType)
    ensures ResolveAlternative(st, ctx, "*") == Success([Local("*")])
  {
    NoSpaces("*");
    assert Segments("*") == ["*"];
    assert ':' !in "*" && !st.isSpecial && st.wildcard == "*";
    assert ResolveSegment(st, ctx, "*", 0, 0) == Success(Local("*"));
    ResolveOne(st, ctx, "*", Local("*"));
  }

  /**
   * add(holder) for an expression without '|' that resolves to a single
   * name not yet in the trie: one new top-level level holding the holder.
   */
  lemma RegisterLeaf(m: map<NameKey, Trie>, st: Settings, ctx: NsContext, h: Holder, q: QName)
    requires '|' !in h.matchPath
    requires ResolveAlternative(st, ctx, h.matchPath) == Success([q])
    requires q.Key() !in m
    ensures Register(m, st, ctx, h) == Success(m[q.Key() := Trie(map[], One(h))])
  {
    assert JavaSplit(h.matchPath, '|') == [h.matchPath];
    var m1 := m[q.Key() := Trie(map[], One(h))];
    assert Insert(m, [q], h) == Success(m1);
    assert RegisterAlternatives(m1, st, ctx, [h.matchPath][1..], h) == Success(m1);
  }

  /**
   * An expression whose two alternatives resolve to the same fresh name, as
   * "a|a" does: the second insert throws BadMatchPathException, and the
   * first alternative stays mapped to the holder.
   */
  lemma RepeatedAlternativeKeepsFirst(m: map<NameKey, Trie>, st: Settings, ctx: NsContext, h: Holder,
                                      alternative: string, q: QName)
    requires JavaSplit(h.matchPath, '|') == [alternative, alternative]
    requires ResolveAlternative(st, ctx, alternative) == Success([q])
    requires q.Key() !in m
    ensures Register(m, st, ctx, h) == Failure(BadMatchPath)
    ensures RegisterPartial(m, st, ctx, JavaSplit(h.matchPath, '|'), h) == m[q.Key() := Trie(map[], One(h))]
  {
    var m1 := m[q.Key() := Trie(map[], One(h))];
    assert Insert(m, [q], h) == Success(m1);
    assert Insert(m1, [q], h) == Failure(BadMatchPath);
    assert [alternative, alternative][1..] == [alternative];
    assert [alternative][1..] == [];
    assert RegisterAlternatives(m1, st, ctx, [alternative], h) == Failure(BadMatchPath);
    assert RegisterAlternatives(m, st, ctx, [alternative, alternative], h) == RegisterAlternatives(m1, st, ctx, [alternative], h);
    assert RegisterPartial(m1, st, ctx, [alternative], h) == m1;
  }

  /** The trie after the four registrations: four top-level keys, one holder each. */
  function Registered(): map<NameKey, Trie>
  {
    map[NameKey(BarUri, "*") := Trie(map[], One(Handler1)),
        NameKey(FooUri, "*") := Trie(map[], One(Handler2)),
        NameKey(DefaultUri, "*") := Trie(map[], One(Handler3)),
        NameKey("", "*") := Trie(map[], One(Handler4))]
  }

  lemma UrisDistinct()
    ensures FooUri != BarUri && DefaultUri != FooUri && DefaultUri != BarUri
    ensures FooUri != "" && BarUri != "" && DefaultUri != ""
  {
    assert FooUri[11] != BarUri[11];
    assert DefaultUri[0] != FooUri[0] && DefaultUri[0] != BarUri[0];
  }

  /** The trie after the first one, two and three registrations. */
  function AfterBar(): map<NameKey, Trie>
  {
    map[NameKey(BarUri, "*") := Trie(map[], One(Handler1))]
  }

  function AfterFoo(): map<NameKey, Trie>
  {
    AfterBar()[NameKey(FooUri, "*") := Trie(map[], One(Handler2))]
  }

  function AfterDef(): map<NameKey, Trie>
  {
    AfterFoo()[NameKey(DefaultUri, "*") := Trie(map[], One(Handler3))]
  }

  lemma RegisterBar(st: Settings, ctx: NsContext)
    requires st == SettingsFor(ElementType)
    requires GetNamespaceURI(ctx, Some("bar")) == Success(BarUri)
    ensures Register(map[], st, ctx, Handler1) == Success(AfterBar())
  {
    HolderResolves(st, ctx, Handler1, "bar", BarUri);
    RegisterLeaf(map[], st, ctx, Handler1, QName(BarUri, "*", "bar"));
  }

  /** Handler h's expression is "p:*" for a prefix bound to uri: it resolves to {uri}*. */
  lemma HolderResolves(st: Settings, ctx: NsContext, h: Holder, p: string, uri: string)
    requires st == SettingsFor(ElementType)
    requires h.matchPath == p + ":*"
    requires p != "" && ':' !in p && '/' !in p && ' ' !in p && '|' !in p
    requires GetNamespaceURI(ctx, Some(p)) == Success(uri)
    ensures '|' !in h.matchPath
    ensures ResolveAlternative(st, ctx, h.matchPath) == Success([QName(uri, "*", p)])
  {
    PrefixedWildcardResolves(st, ctx, p, uri);
  }

  lemma RegisterFoo(st: Settings, ctx: NsContext)
    requires st == SettingsFor(ElementType)
    requires GetNamespaceURI(ctx, Some("foo")) == Success(FooUri)
    ensures Register(AfterBar(), st, ctx, Handler2) == Success(AfterFoo())
  {
    HolderResolves(st, ctx, Handler2, "foo", FooUri);
    UrisDistinct();
    assert NameKey(FooUri, "*") !in AfterBar();
    RegisterLeaf(AfterBar(), st, ctx, Handler2, QName(FooUri, "*", "foo"));
  }

  lemma RegisterDef(st: Settings, ctx: NsContext)
    requires st == SettingsFor(ElementType)
    requires GetNamespaceURI(ctx, Some("def")) == Success(DefaultUri)
    ensures Register(AfterFoo(), st, ctx, Handler3) == Success(AfterDef())
  {
    HolderResolves(st, ctx, Handler3, "def", DefaultUri);
    UrisDistinct();
    assert NameKey(DefaultUri, "*") !in AfterFoo();
    RegisterLeaf(AfterFoo(), st, ctx, Handler3, QName(DefaultUri, "*", "def"));
  }

  lemma RegisterAny(st: Settings, ctx: NsContext)
    requires st == SettingsFor(ElementType)
    ensures Register(AfterDef(), st, ctx, Handler4) == Success(Registered())
  {
    BareWildcardResolves(st, ctx);
    UrisDistinct();
    RegisterLeaf(AfterDef(), st, ctx, Handler4, Local("*"));
    assert AfterDef()[NameKey("", "*") := Trie(map[], One(Handler4))] == Registered();
  }

  /** Registering the four handlers in the test's order succeeds and builds Registered(). */
  lemma RegisterFour(st: Settings, ctx: NsContext)
    requires st == SettingsFor(ElementType) && ctx == TestContext()
    ensures Register(map[], st, ctx, Handler1) == Success(AfterBar())
    ensures Register(AfterBar(), st, ctx, Handler2) == Success(AfterFoo())
    ensures Register(AfterFoo(), st, ctx, Handler3) == Success(AfterDef())
    ensures Register(AfterDef(), st, ctx, Handler4) == Success(Registered())
  {
    RegisterBar(st, ctx);
    RegisterFoo(st, ctx);
    RegisterDef(st, ctx);
    RegisterAny(st, ctx);
  }

  lemma {:induction false} GatherNothing(w: string, path: seq<QName>, index: nat, acc: seq<Holder>)
    requires index < |path|
    ensures Gather(map[], w, path, index, acc) == acc
  {
  }

  /** A level holding one holder and nothing below it adds that holder. */
  lemma GatherLeaf(m: map<NameKey, Trie>, key: NameKey, path: seq<QName>, index: nat, acc: seq<Holder>, h: Holder)
    requires 0 < index < |path|
    requires key in m && m[key] == Trie(map[], One(h)) && h !in acc
    ensures GatherAt(m, key, path, index, acc) == acc + [h]
  {
    assert AddNew(acc, [h]) == acc + [h];
    GatherNothing(AncestorWildcard, path, index - 1, acc + [h]);
  }

  /**
   * A live path whose last name is not a key, but whose namespace wildcard
   * holds a and whose plain wildcard holds b: getHolders yields b then a
   * when b has the higher priority.
   */
  lemma TwoWildcardLookup(m: map<NameKey, Trie>, path: seq<QName>, a: Holder, b: Holder)
    requires |path| >= 2
    requires var q := path[|path| - 1];
      q.namespaceURI != "" && q.Key() !in m &&
      NameKey(q.namespaceURI, "*") in m && m[NameKey(q.namespaceURI, "*")] == Trie(map[], One(a)) &&
      NameKey("", "*") in m && m[NameKey("", "*")] == Trie(map[], One(b))
    requires a != b && a.priority < b.priority
    ensures Lookup(m, "*", path) == [b, a]
  {
    var index := |path| - 1;
    var q := path[index];
    var a0 := GatherAt(m, q.Key(), path, index, []);
    assert a0 == [];
    GatherLeaf(m, NameKey(q.namespaceURI, "*"), path, index, [], a);
    var a1 := GatherAt(m, NameKey(q.namespaceURI, "*"), path, index, a0);
    assert a1 == [a];
    GatherLeaf(m, NameKey("", "*"), path, index, [a], b);
    var a2 := GatherAt(m, NameKey("", "*"), path, index, a1);
    assert a2 == [a, b];
    assert Gather(m, "*", path, index, []) == a2;
    assert [a, b][..1] == [a];
    assert PrioritySorted([a]) == [a];
  }

  const Path1: seq<QName> := [Root, QName(DefaultUri, "root", "")]
  const Path2: seq<QName> := Path1 + [QName(FooUri, "item", "")]
  const Path3: seq<QName> := Path2 + [QName(BarUri, "item", "")]

  /** [/, root]: "def:*" and "*" match; 15 comes before 10. */
  lemma RootLookup()
    ensures Lookup(Registered(), "*", Path1) == [Handler4, Handler3]
  {
    TwoWildcardLookup(Registered(), Path1, Handler3, Handler4);
  }

  /** [/, root, foo:item]: "foo:*" and "*" match; 15 comes before 5. */
  lemma FooItemLookup()
    ensures Lookup(Registered(), "*", Path2) == [Handler4, Handler2]
  {
    TwoWildcardLookup(Registered(), Path2, Handler2, Handler4);
  }

  /** [/, root, foo:item, bar:item]: "bar:*" and "*" match; 15 comes before 1. */
  lemma BarItemLookup()
    ensures Lookup(Registered(), "*", Path3) == [Handler4, Handler1]
  {
    TwoWildcardLookup(Registered(), Path3, Handler1, Handler4);
  }
}
