/**
 * EventHandlerPathMap: the trie that maps match expressions such as
 * "root/foo:item/@*" to handler holders, and the lookup that finds every
 * holder whose expression matches the current path.
 *
 * An expression is split on '|' into alternatives; each alternative is
 * split on '/' and its segments are resolved to qualified names from the
 * last to the first, so the trie is keyed by the path read backwards:
 * leaf name first, then parent, then grandparent.  Lookup walks the live
 * path from its deepest entry the same way, trying at each level the exact
 * name and, below the root of the path, the two wildcard names.
 *
 * Trie levels are values here (datatype Trie): in the source every level is
 * an object reachable from exactly one key of its parent, so nothing is
 * shared and a value tree holds the same information.
 */
module PathMaps {
  import opened Wrappers
  import opened QNames
  import opened NamespaceContexts
  import opened Handlers

  // ---------------------------------------------------------------------
  // String.split with a one-character separator

  /** The pieces of s between occurrences of sep, empty pieces included. */
  function Pieces(s: string, sep: char): (r: seq<string>)
    ensures |r| >= 1
    decreases |s|
  {
    if |s| == 0 then [""]
    else
      var rest := Pieces(s[1..], sep);
      if s[0] == sep then [""] + rest
      else [[s[0]] + rest[0]] + rest[1..]
  }

  /** The inverse of Pieces: the pieces glued back together with sep. */
  function Join(ps: seq<string>, sep: char): string
    decreases |ps|
  {
    if |ps| == 0 then ""
    else if |ps| == 1 then ps[0]
    else ps[0] + [sep] + Join(ps[1..], sep)
  }

  lemma {:induction false} PiecesJoin(s: string, sep: char)
    ensures Join(Pieces(s, sep), sep) == s
    ensures forall k :: 0 <= k < |Pieces(s, sep)| ==> sep !in Pieces(s, sep)[k]
    ensures forall k, c :: 0 <= k < |Pieces(s, sep)| && c in Pieces(s, sep)[k] ==> c in s
    decreases |s|
  {
    if |s| > 0 {
      var rest := Pieces(s[1..], sep);
      PiecesJoin(s[1..], sep);
      assert s == [s[0]] + s[1..];
      if s[0] == sep {
        assert Pieces(s, sep)[1..] == rest;
      } else {
        var r := Pieces(s, sep);
        assert r[1..] == rest[1..];
        if |rest| > 1 {
          assert rest == [rest[0]] + rest[1..];
          assert Join(rest, sep) == rest[0] + [sep] + Join(rest[1..], sep);
          assert Join(r, sep) == [s[0]] + rest[0] + [sep] + Join(rest[1..], sep);
        }
        forall k | 0 <= k < |r| ensures sep !in r[k] && forall c :: c in r[k] ==> c in s {
          if k > 0 {
            assert r[k] == rest[k];
          }
        }
      }
    }
  }

  /** A sequence without the empty strings at its end. */
  function DropTrailingEmpty(ps: seq<string>): (r: seq<string>)
    ensures |r| <= |ps| && r == ps[..|r|]
    ensures |r| > 0 ==> r[|r| - 1] != ""
    ensures forall k :: |r| <= k < |ps| ==> ps[k] == ""
    decreases |ps|
  {
    if |ps| == 0 then []
    else if ps[|ps| - 1] == "" then DropTrailingEmpty(ps[..|ps| - 1])
    else ps
  }

  /**
   * s.split(sep) for a separator of one character: the string itself when
   * the separator does not occur, otherwise the pieces without trailing
   * empty strings (so "a/" gives ["a"], "/" gives [] and "" gives [""]).
   */
  function JavaSplit(s: string, sep: char): (r: seq<string>)
    ensures forall k :: 0 <= k < |r| ==> sep !in r[k]
    ensures forall k, c :: 0 <= k < |r| && c in r[k] ==> c in s
    ensures sep !in s ==> r == [s]
  {
    PiecesJoin(s, sep);
    if sep !in s then [s] else DropTrailingEmpty(Pieces(s, sep))
  }

  /** s.replaceAll(" ", "") */
  function RemoveSpaces(s: string): (r: string)
    ensures ' ' !in r
    ensures forall c :: c in r <==> c in s && c != ' '
    decreases |s|
  {
    if |s| == 0 then ""
    else (if s[0] == ' ' then "" else [s[0]]) + RemoveSpaces(s[1..])
  }

  /** s.startsWith(sigil) for a one-character sigil. */
  predicate StartsWith(s: string, sigil: char)
  {
    |s| > 0 && s[0] == sigil
  }

  // ---------------------------------------------------------------------
  // Node types and their wildcard names

  datatype NodeType = ElementType | AttributeType | TextType | CommentType | ProcessingInstructionType

  /**
   * The per-map settings chosen in the constructor: the sigil that starts
   * names of this node type, the wildcard name, and for text and comment
   * maps the special name a bare "*" stands for.
   */
  datatype Settings = Settings(nodeTypePrefix: Option<char>, wildcard: string, isSpecial: bool, specialWildcard: string)

  function SettingsFor(t: NodeType): (s: Settings)
    ensures s.nodeTypePrefix.None? <==> t == ElementType
    ensures s.nodeTypePrefix.Some? ==> s.wildcard == [s.nodeTypePrefix.value] + "*"
    ensures s.nodeTypePrefix.None? ==> s.wildcard == "*"
    ensures s.isSpecial <==> t == TextType || t == CommentType
    ensures SlashFree(s)
  {
    match t
    case ElementType => Settings(None, "*", false, "")
    case AttributeType => Settings(Some('@'), "@*", false, "")
    case TextType => Settings(Some('#'), "#*", true, "#text()")
    case ProcessingInstructionType => Settings(Some('?'), "?*", false, "")
    case CommentType => Settings(Some('!'), "!*", true, "!comment()")
  }

  /** No name a map makes up contains the path separator. */
  predicate SlashFree(st: Settings)
  {
    '/' !in st.wildcard && '/' !in st.specialWildcard && st.nodeTypePrefix != Some('/')
  }

  /** The settings of the inner levels of the trie: always those of elements. */
  const AncestorWildcard: string := "*"

  /** new QName("/"): the name of the document root in a path. */
  const Root: QName := QName("", "/", "")

  // ---------------------------------------------------------------------
  // Resolving a match expression

  /**
   * One segment of an alternative, at position i of the segments 0..imax:
   * "p:name" takes p's namespace URI (a sigil at the head of p moves onto
   * the local name), a bare "*" in the last position becomes the wildcard
   * of the node type, any other name takes the default namespace unless it
   * is the wildcard or starts with the sigil, an empty first segment is the
   * root, and an empty segment elsewhere is an error.  A segment whose
   * split on ':' leaves fewer than two parts ("a:", ":") fails as the array
   * access does.
   */
  function ResolveSegment(st: Settings, ctx: NsContext, part: string, i: nat, imax: nat): (r: Result<QName>)
    ensures part == "" && i == 0 ==> r == Success(Root)
    ensures part == "" && i != 0 ==> r == Failure(BadMatchPath)
    ensures r.Success? && part != "" && SlashFree(st) && '/' !in part ==> '/' !in r.value.localPart
    ensures r.Success? && part != "" && ':' !in part && !(i == imax && part == "*") ==> r.value.localPart == part
  {
    if part != "" then
      if ':' in part then
        var qNameParts := JavaSplit(part, ':');
        if |qNameParts| < 2 then Failure(IndexOutOfBounds)
        else
          var (prefix, localName) :=
            if st.nodeTypePrefix.Some? && StartsWith(qNameParts[0], st.nodeTypePrefix.value)
            then (qNameParts[0][1..], [st.nodeTypePrefix.value] + qNameParts[1])
            else (qNameParts[0], qNameParts[1]);
          var uri := GetNamespaceURI(ctx, Some(prefix));
          Success(QName(uri.value, localName, prefix))
      else if i == imax && part == "*" then
        Success(Local(if st.isSpecial then st.specialWildcard else st.wildcard))
      else if ctx.defaultUri.Some? && part != st.wildcard
              && !(st.nodeTypePrefix.Some? && StartsWith(part, st.nodeTypePrefix.value)) then
        Success(QName(ctx.defaultUri.value, part, ""))
      else
        Success(Local(part))
    else if i == 0 then Success(Root)
    else Failure(BadMatchPath)
  }

  /** Segments n-1 down to 0 of an alternative, resolved in that order. */
  function ResolveDown(st: Settings, ctx: NsContext, parts: seq<string>, n: nat): (r: Result<seq<QName>>)
    requires n <= |parts|
    decreases n
  {
    if n == 0 then Success([])
    else
      var q :- SegmentAt(st, ctx, parts, n - 1);
      var rest :- ResolveDown(st, ctx, parts, n - 1);
      Success([q] + rest)
  }

  /** The segments of one alternative, spaces removed, resolved last to first. */
  function Segments(alternative: string): seq<string>
  {
    JavaSplit(RemoveSpaces(alternative), '/')
  }

  function ResolveAlternative(st: Settings, ctx: NsContext, alternative: string): Result<seq<QName>>
  {
    var parts := Segments(alternative);
    ResolveDown(st, ctx, parts, |parts|)
  }

  /**
   * The resolved path is the written path reversed: segment i resolves to
   * its entry n-1-i.
   */
  lemma {:induction false} ResolveDownReverses(st: Settings, ctx: NsContext, parts: seq<string>, n: nat)
    requires n <= |parts|
    requires ResolveDown(st, ctx, parts, n).Success?
    ensures |ResolveDown(st, ctx, parts, n).value| == n
    ensures forall i :: 0 <= i < n ==> SegmentAt(st, ctx, parts, i) == Success(ResolveDown(st, ctx, parts, n).value[n - 1 - i])
    decreases n
  {
    if n > 0 {
      ResolveDownHead(st, ctx, parts, n);
      ResolveDownReverses(st, ctx, parts, n - 1);
      var rp := ResolveDown(st, ctx, parts, n).value;
      var rest := ResolveDown(st, ctx, parts, n - 1).value;
      forall i | 0 <= i < n
        ensures SegmentAt(st, ctx, parts, i) == Success(rp[n - 1 - i])
      {
        if i < n - 1 {
          assert rp[n - 1 - i] == rest[n - 1 - 1 - i];
        }
      }
    }
  }

  /** Segment i of an alternative, resolved as the loop resolves it. */
  function SegmentAt(st: Settings, ctx: NsContext, parts: seq<string>, i: nat): Result<QName>
    requires i < |parts|
  {
    ResolveSegment(st, ctx, parts[i], i, |parts| - 1)
  }

  /** A resolution of n segments: the last segment's name, then the resolution of the others. */
  lemma ResolveDownHead(st: Settings, ctx: NsContext, parts: seq<string>, n: nat)
    requires 0 < n <= |parts|
    requires ResolveDown(st, ctx, parts, n).Success?
    ensures SegmentAt(st, ctx, parts, n - 1).Success?
    ensures ResolveDown(st, ctx, parts, n - 1).Success?
    ensures ResolveDown(st, ctx, parts, n).value == [SegmentAt(st, ctx, parts, n - 1).value] + ResolveDown(st, ctx, parts, n - 1).value
  {
  }

  /**
   * A resolved alternative ends at the root name exactly when the written
   * one starts with "/": no other segment can resolve to the name "/".
   */
  lemma RootAnchorIff(st: Settings, ctx: NsContext, alternative: string)
    requires SlashFree(st)
    requires ResolveAlternative(st, ctx, alternative).Success?
    requires |Segments(alternative)| > 0
    ensures var rp := ResolveAlternative(st, ctx, alternative).value;
            |rp| == |Segments(alternative)| &&
            (Segments(alternative)[0] == "" <==> rp[|rp| - 1] == Root)
  {
    var parts := Segments(alternative);
    ResolveDownReverses(st, ctx, parts, |parts|);
    var rp := ResolveAlternative(st, ctx, alternative).value;
    assert SegmentAt(st, ctx, parts, 0) == Success(rp[|rp| - 1]);
    assert '/' !in parts[0];
  }

  /** An empty segment after the first is rejected. */
  lemma EmptyInnerSegmentFails(st: Settings, ctx: NsContext, alternative: string, k: nat)
    requires 0 < k < |Segments(alternative)| && Segments(alternative)[k] == ""
    ensures ResolveAlternative(st, ctx, alternative).Failure?
  {
    var parts := Segments(alternative);
    if ResolveAlternative(st, ctx, alternative).Success? {
      InnerSegmentsNonEmpty(st, ctx, parts);
    }
  }

  /** A successful resolution has no empty segment after the first. */
  lemma InnerSegmentsNonEmpty(st: Settings, ctx: NsContext, parts: seq<string>)
    requires ResolveDown(st, ctx, parts, |parts|).Success?
    ensures forall k :: 0 < k < |parts| ==> parts[k] != ""
  {
    ResolveDownReverses(st, ctx, parts, |parts|);
    forall k | 0 < k < |parts|
      ensures parts[k] != ""
    {
      assert SegmentAt(st, ctx, parts, k).Success?;
    }
  }

  // ---------------------------------------------------------------------
  // The trie

  /** mappedHere: nothing yet, one holder, or a list of holders. */
  datatype Mapped = Nothing | One(holder: Holder) | Many(list: seq<Holder>)

  datatype Trie = Trie(children: map<NameKey, Trie>, mapped: Mapped)

  const EmptyTrie: Trie := Trie(map[], Nothing)

  /**
   * mapHandler: walk (and create) the levels keyed by the resolved path and
   * put the holder at the last one.  The check meant to turn a single
   * holder into a list tests for the wrong class, so a second holder at the
   * same resolved path always fails, and a level never holds a list.
   */
  function Insert(m: map<NameKey, Trie>, rp: seq<QName>, h: Holder): (r: Result<map<NameKey, Trie>>)
    decreases |rp|
  {
    if |rp| == 0 then Failure(IndexOutOfBounds)
    else
      var key := rp[0].Key();
      var level := if key in m then m[key] else EmptyTrie;
      if |rp| == 1 then
        match level.mapped
        case Nothing => Success(m[key := level.(mapped := One(h))])
        case One(_) => Failure(BadMatchPath)
        case Many(list) => Success(m[key := level.(mapped := Many(list + [h]))])
      else
        var sub :- Insert(level.children, rp[1..], h);
        Success(m[key := level.(children := sub)])
  }

  /** Every alternative of the holder's expression, resolved and inserted in turn. */
  function RegisterAlternatives(m: map<NameKey, Trie>, st: Settings, ctx: NsContext, alternatives: seq<string>, h: Holder)
    : Result<map<NameKey, Trie>>
    decreases |alternatives|
  {
    if |alternatives| == 0 then Success(m)
    else
      var rp :- ResolveAlternative(st, ctx, alternatives[0]);
      var m1 :- Insert(m, rp, h);
      RegisterAlternatives(m1, st, ctx, alternatives[1..], h)
  }

  /**
   * The trie add(holder) leaves behind: the alternatives before the first
   * one that fails stay mapped, since the exception undoes nothing.
   */
  function RegisterPartial(m: map<NameKey, Trie>, st: Settings, ctx: NsContext, alternatives: seq<string>, h: Holder)
    : (r: map<NameKey, Trie>)
    ensures RegisterAlternatives(m, st, ctx, alternatives, h).Success? ==>
      r == RegisterAlternatives(m, st, ctx, alternatives, h).value
    decreases |alternatives|
  {
    if |alternatives| == 0 then m
    else
      match ResolveAlternative(st, ctx, alternatives[0])
      case Failure(_) => m
      case Success(rp) =>
        match Insert(m, rp, h)
        case Failure(_) => m
        case Success(m1) => RegisterPartial(m1, st, ctx, alternatives[1..], h)
  }

  /** add(holder) */
  function Register(m: map<NameKey, Trie>, st: Settings, ctx: NsContext, h: Holder): Result<map<NameKey, Trie>>
  {
    RegisterAlternatives(m, st, ctx, JavaSplit(h.matchPath, '|'), h)
  }

  /** No level of the trie holds a list. */
  ghost predicate NoLists(m: map<NameKey, Trie>)
  {
    forall k :: k in m ==> NoListsBelow(m[k])
  }

  ghost predicate NoListsBelow(t: Trie)
    decreases t
  {
    !t.mapped.Many? && forall k :: k in t.children ==> NoListsBelow(t.children[k])
  }

  /**
   * Inserting into a trie without lists keeps it so, and a second holder at
   * a resolved path that already holds one is rejected.
   */
  lemma {:induction false} InsertNoLists(m: map<NameKey, Trie>, rp: seq<QName>, h: Holder)
    requires NoLists(m)
    ensures Insert(m, rp, h).Success? ==> NoLists(Insert(m, rp, h).value)
    ensures Holds(m, rp) ==> Insert(m, rp, h) == Failure(BadMatchPath)
    decreases |rp|
  {
    if |rp| > 1 {
      var key := rp[0].Key();
      var level := if key in m then m[key] else EmptyTrie;
      InsertNoLists(level.children, rp[1..], h);
    }
  }

  /** Some holder sits at the level the resolved path leads to. */
  ghost predicate Holds(m: map<NameKey, Trie>, rp: seq<QName>)
    decreases |rp|
  {
    |rp| > 0 && rp[0].Key() in m &&
    (if |rp| == 1 then !m[rp[0].Key()].mapped.Nothing? else Holds(m[rp[0].Key()].children, rp[1..]))
  }

  // ---------------------------------------------------------------------
  // Lookup

  function Payload(t: Trie): set<Holder>
  {
    match t.mapped
    case Nothing => {}
    case One(h) => {h}
    case Many(list) => set h | h in list
  }

  /**
   * getHandlersForPathItem: the holders found from path entry index
   * downwards, with w the wildcard of this level.  The exact name is tried
   * first; below the root of the path the same-namespace wildcard and the
   * plain wildcard are tried as well.  Every key found contributes its
   * holders and, below the root, the holders of its level at index - 1.
   */
  function Match(m: map<NameKey, Trie>, w: string, path: seq<QName>, index: nat): set<Holder>
    requires index < |path|
    decreases index, 1
  {
    var q := path[index];
    Visit(m, q.Key(), path, index) +
    (if index > 0 then Visit(m, NameKey(q.namespaceURI, w), path, index) + Visit(m, NameKey("", w), path, index) else {})
  }

  function Visit(m: map<NameKey, Trie>, key: NameKey, path: seq<QName>, index: nat): set<Holder>
    requires index < |path|
    decreases index, 0
  {
    if key in m then
      Payload(m[key]) + (if index > 0 then Match(m[key].children, AncestorWildcard, path, index - 1) else {})
    else {}
  }

  /** The name key at a level matches path entry index: exactly, or by a wildcard below the root. */
  predicate StepMatches(key: NameKey, q: QName, w: string, index: nat)
  {
    key == q.Key() || (index > 0 && (key == NameKey(q.namespaceURI, w) || key == NameKey("", w)))
  }

  /**
   * A resolved path matches the live path read backwards from index: its
   * first key matches entry index, and, unless it is the last key, the rest
   * matches from index - 1 with the element wildcard.
   */
  predicate PathMatches(rp: seq<QName>, path: seq<QName>, index: nat, w: string)
    requires index < |path|
    decreases |rp|
  {
    |rp| > 0 && StepMatches(rp[0].Key(), path[index], w, index) &&
    (|rp| == 1 || (index > 0 && PathMatches(rp[1..], path, index - 1, AncestorWildcard)))
  }

  lemma {:induction false} MatchEmpty(w: string, path: seq<QName>, index: nat)
    requires index < |path|
    ensures Match(map[], w, path, index) == {}
  {
  }

  /**
   * Inserting a holder at a resolved path adds that holder to the lookup of
   * exactly the paths the resolved path matches, and changes nothing else.
   */
  lemma {:induction false} InsertThenMatch(m: map<NameKey, Trie>, rp: seq<QName>, h: Holder, w: string, path: seq<QName>, index: nat)
    requires index < |path|
    requires Insert(m, rp, h).Success?
    ensures Match(Insert(m, rp, h).value, w, path, index) ==
            Match(m, w, path, index) + (if PathMatches(rp, path, index, w) then {h} else {})
    decreases |rp|, 1
  {
    var key := rp[0].Key();
    var level' := Insert(m, rp, h).value[key];
    assert Insert(m, rp, h).value == m[key := level'];
    var added := VisitInserted(m, rp, h, path, index);
    MatchUpdate(m, key, level', w, path, index, added);
  }

  /**
   * The level at the inserted key finds what it found before, plus the
   * holder where the rest of the resolved path matches below it (or at once
   * when the resolved path ends there).
   */
  lemma {:induction false} VisitInserted(m: map<NameKey, Trie>, rp: seq<QName>, h: Holder, path: seq<QName>, index: nat)
    returns (added: set<Holder>)
    requires index < |path|
    requires Insert(m, rp, h).Success?
    ensures |rp| > 0
    ensures added == if |rp| == 1 || (index > 0 && PathMatches(rp[1..], path, index - 1, AncestorWildcard)) then {h} else {}
    ensures Visit(Insert(m, rp, h).value, rp[0].Key(), path, index) == Visit(m, rp[0].Key(), path, index) + added
    decreases |rp|, 0
  {
    var key := rp[0].Key();
    var level := if key in m then m[key] else EmptyTrie;
    var level' := Insert(m, rp, h).value[key];
    added := if |rp| == 1 || (index > 0 && PathMatches(rp[1..], path, index - 1, AncestorWildcard)) then {h} else {};
    if |rp| == 1 {
      assert Payload(level') == Payload(level) + {h};
      assert level'.children == level.children;
    } else {
      assert Payload(level') == Payload(level);
      if index > 0 {
        InsertThenMatch(level.children, rp[1..], h, AncestorWildcard, path, index - 1);
      }
    }
    if key !in m && index > 0 {
      MatchEmpty(AncestorWildcard, path, index - 1);
    }
  }

  /**
   * Replacing the level at one key changes the lookup by what that level
   * adds, where the key matches the path entry.
   */
  lemma MatchUpdate(m: map<NameKey, Trie>, key: NameKey, level': Trie, w: string, path: seq<QName>, index: nat, added: set<Holder>)
    requires index < |path|
    requires Visit(m[key := level'], key, path, index) == Visit(m, key, path, index) + added
    ensures Match(m[key := level'], w, path, index) ==
            Match(m, w, path, index) + (if StepMatches(key, path[index], w, index) then added else {})
  {
    forall k: NameKey | k != key ensures Visit(m[key := level'], k, path, index) == Visit(m, k, path, index) { }
  }

  /** Some alternative of an expression resolves to a path that matches. */
  ghost predicate SomeAlternativeMatches(st: Settings, ctx: NsContext, alternatives: seq<string>, w: string, path: seq<QName>, index: nat)
    requires index < |path|
  {
    exists k :: 0 <= k < |alternatives| && ResolveAlternative(st, ctx, alternatives[k]).Success? &&
                PathMatches(ResolveAlternative(st, ctx, alternatives[k]).value, path, index, w)
  }

  /**
   * After a successful add, lookup finds the new holder at exactly the paths
   * one of its alternatives matches, and everything it found before.
   */
  lemma {:induction false} RegisterThenMatch(m: map<NameKey, Trie>, st: Settings, ctx: NsContext, alternatives: seq<string>,
                                             h: Holder, w: string, path: seq<QName>, index: nat)
    requires index < |path|
    requires RegisterAlternatives(m, st, ctx, alternatives, h).Success?
    ensures Match(RegisterAlternatives(m, st, ctx, alternatives, h).value, w, path, index) ==
            Match(m, w, path, index) + (if SomeAlternativeMatches(st, ctx, alternatives, w, path, index) then {h} else {})
    decreases |alternatives|
  {
    if |alternatives| > 0 {
      var rp := ResolveAlternative(st, ctx, alternatives[0]).value;
      var m1 := Insert(m, rp, h).value;
      InsertThenMatch(m, rp, h, w, path, index);
      RegisterThenMatch(m1, st, ctx, alternatives[1..], h, w, path, index);
      SomeAlternativeSplit(st, ctx, alternatives, w, path, index);
    }
  }

  /** Some alternative matches exactly when the first does or one of the others does. */
  lemma SomeAlternativeSplit(st: Settings, ctx: NsContext, alternatives: seq<string>, w: string, path: seq<QName>, index: nat)
    requires index < |path| && |alternatives| > 0
    ensures SomeAlternativeMatches(st, ctx, alternatives, w, path, index) <==>
            (ResolveAlternative(st, ctx, alternatives[0]).Success? &&
             PathMatches(ResolveAlternative(st, ctx, alternatives[0]).value, path, index, w)) ||
            SomeAlternativeMatches(st, ctx, alternatives[1..], w, path, index)
  {
    if SomeAlternativeMatches(st, ctx, alternatives, w, path, index) {
      var k :| 0 <= k < |alternatives| && ResolveAlternative(st, ctx, alternatives[k]).Success? &&
               PathMatches(ResolveAlternative(st, ctx, alternatives[k]).value, path, index, w);
      if k > 0 {
        assert alternatives[1..][k - 1] == alternatives[k];
      }
    }
    if SomeAlternativeMatches(st, ctx, alternatives[1..], w, path, index) {
      var k :| 0 <= k < |alternatives[1..]| && ResolveAlternative(st, ctx, alternatives[1..][k]).Success? &&
               PathMatches(ResolveAlternative(st, ctx, alternatives[1..][k]).value, path, index, w);
      assert alternatives[1..][k] == alternatives[k + 1];
    }
  }

  /**
   * An expression anchored at the root ("/a/b") matches only at the depth it
   * spells out, because the root name is found only at the top of a path
   * and no wildcard stands for it.
   */
  lemma {:induction false} AnchoredMatchesExactLength(rp: seq<QName>, path: seq<QName>, index: nat, w: string)
    requires index < |path|
    requires |rp| > 0 && rp[|rp| - 1].Key() == Root.Key()
    requires w != "/"
    requires forall j :: 0 < j < |path| ==> path[j].Key() != Root.Key()
    requires PathMatches(rp, path, index, w)
    ensures index == |rp| - 1
    decreases |rp|
  {
    if |rp| > 1 {
      assert rp[1..][|rp[1..]| - 1] == rp[|rp| - 1];
      AnchoredMatchesExactLength(rp[1..], path, index - 1, AncestorWildcard);
    }
  }

  /**
   * A match survives more ancestors above the path: an expression without
   * the root anchor matches at any depth where its own segments fit.
   */
  lemma {:induction false} MatchSurvivesAncestors(rp: seq<QName>, above: seq<QName>, path: seq<QName>, index: nat, w: string)
    requires index < |path|
    requires PathMatches(rp, path, index, w)
    ensures PathMatches(rp, above + path, |above| + index, w)
    decreases |rp|
  {
    assert (above + path)[|above| + index] == path[index];
    if |rp| > 1 {
      MatchSurvivesAncestors(rp[1..], above, path, index - 1, AncestorWildcard);
    }
  }

  // ---------------------------------------------------------------------
  // Lookup in discovery order

  predicate Distinct(s: seq<Holder>)
  {
    forall i, j :: 0 <= i < j < |s| ==> s[i] != s[j]
  }

  /** The holders of a level in the order the level keeps them. */
  function PayloadSeq(t: Trie): (r: seq<Holder>)
    ensures forall h :: h in r <==> h in Payload(t)
  {
    match t.mapped
    case Nothing => []
    case One(h) => [h]
    case Many(list) => list
  }

  /**
   * Adding to the HashSet of found holders, with the set's iteration order
   * fixed as the order of first discovery: each holder not yet found is
   * appended.
   */
  function AddNew(acc: seq<Holder>, hs: seq<Holder>): (r: seq<Holder>)
    ensures forall h :: h in r <==> h in acc || h in hs
    ensures Distinct(acc) ==> Distinct(r)
    ensures |acc| <= |r| && r[..|acc|] == acc
    decreases |hs|
  {
    if |hs| == 0 then acc
    else
      var acc' := if hs[0] in acc then acc else acc + [hs[0]];
      assert acc'[..|acc|] == acc;
      AddNew(acc', hs[1..])
  }

  /** getHandlersForPathItem with the found holders in discovery order. */
  function Gather(m: map<NameKey, Trie>, w: string, path: seq<QName>, index: nat, acc: seq<Holder>): seq<Holder>
    requires index < |path|
    decreases index, 1
  {
    var q := path[index];
    var a := GatherAt(m, q.Key(), path, index, acc);
    if index > 0 then GatherAt(m, NameKey("", w), path, index, GatherAt(m, NameKey(q.namespaceURI, w), path, index, a))
    else a
  }

  function GatherAt(m: map<NameKey, Trie>, key: NameKey, path: seq<QName>, index: nat, acc: seq<Holder>): seq<Holder>
    requires index < |path|
    decreases index, 0
  {
    if key in m then
      var a := AddNew(acc, PayloadSeq(m[key]));
      if index > 0 then Gather(m[key].children, AncestorWildcard, path, index - 1, a) else a
    else acc
  }

  /**
   * The discovery-order walk finds exactly the holders of Match, each once,
   * after the ones it started with.
   */
  lemma {:induction false} GatherIsMatch(m: map<NameKey, Trie>, w: string, path: seq<QName>, index: nat, acc: seq<Holder>)
    requires index < |path|
    ensures forall h :: h in Gather(m, w, path, index, acc) <==> h in acc || h in Match(m, w, path, index)
    ensures Distinct(acc) ==> Distinct(Gather(m, w, path, index, acc))
    decreases index, 1
  {
    var q := path[index];
    var a := GatherAt(m, q.Key(), path, index, acc);
    GatherAtIsVisit(m, q.Key(), path, index, acc);
    if index > 0 {
      var b := GatherAt(m, NameKey(q.namespaceURI, w), path, index, a);
      GatherAtIsVisit(m, NameKey(q.namespaceURI, w), path, index, a);
      GatherAtIsVisit(m, NameKey("", w), path, index, b);
    }
  }

  lemma {:induction false} GatherAtIsVisit(m: map<NameKey, Trie>, key: NameKey, path: seq<QName>, index: nat, acc: seq<Holder>)
    requires index < |path|
    ensures forall h :: h in GatherAt(m, key, path, index, acc) <==> h in acc || h in Visit(m, key, path, index)
    ensures Distinct(acc) ==> Distinct(GatherAt(m, key, path, index, acc))
    decreases index, 0
  {
    if key in m {
      var a := AddNew(acc, PayloadSeq(m[key]));
      if index > 0 {
        GatherIsMatch(m[key].children, AncestorWildcard, path, index - 1, a);
      }
    }
  }

  /**
   * getHolders: the holders found for the deepest entry of the path, each
   * once, stably sorted by descending priority.
   */
  function Lookup(m: map<NameKey, Trie>, w: string, path: seq<QName>): (r: seq<Holder>)
    requires |path| > 0
  {
    PrioritySorted(Gather(m, w, path, |path| - 1, []))
  }

  /**
   * What getHolders promises: every matching holder exactly once, highest
   * priority first.
   */
  lemma LookupFacts(m: map<NameKey, Trie>, w: string, path: seq<QName>)
    requires |path| > 0
    ensures Descending(Lookup(m, w, path))
    ensures Distinct(Lookup(m, w, path))
    ensures forall h :: h in Lookup(m, w, path) <==> h in Match(m, w, path, |path| - 1)
  {
    var found := Gather(m, w, path, |path| - 1, []);
    GatherIsMatch(m, w, path, |path| - 1, []);
    PrioritySortedFacts(found, 0);
    DistinctPermutation(found, Lookup(m, w, path));
  }

  // ---------------------------------------------------------------------
  // The class

  class EventHandlerPathMap {
    const nodeType: NodeType
    const settings: Settings
    /** The transformer's namespace context, shared with it. */
    const namespaceContext: TransformNamespaceContext
    var pathMap: map<NameKey, Trie>

    /** new EventHandlerPathMap(transformer, namespaceContext, nodeType) */
    constructor (namespaceContext: TransformNamespaceContext, nodeType: NodeType)
      ensures this.nodeType == nodeType && this.namespaceContext == namespaceContext
      ensures settings == SettingsFor(nodeType) && pathMap == map[]
    {
      this.nodeType := nodeType;
      this.settings := SettingsFor(nodeType);
      this.namespaceContext := namespaceContext;
      this.pathMap := map[];
    }

    /** The namespace context's current contents, read from its fields. */
    function Context(): (c: NsContext)
      reads namespaceContext
      ensures c == namespaceContext.Abs()
    {
      NsContext(namespaceContext.prefixOrder, namespaceContext.namespacePrefixes,
                namespaceContext.namespaceURIs, namespaceContext.defaultNamespaceURI)
    }

    /**
     * add(holder): split the expression into alternatives and map each one.
     * An exception ends registration and leaves the alternatives already
     * mapped in the trie.
     */
    method Add(h: Holder) returns (r: Result<()>)
      modifies this
      ensures Context() == old(Context())
      ensures r.Success? <==> Register(old(pathMap), settings, Context(), h).Success?
      ensures r.Success? ==> pathMap == Register(old(pathMap), settings, Context(), h).value
      ensures r.Failure? ==> r.error == Register(old(pathMap), settings, Context(), h).error
      ensures pathMap == RegisterPartial(old(pathMap), settings, Context(), JavaSplit(h.matchPath, '|'), h)
    {
      var ctx := Context();
      var alternatives := JavaSplit(h.matchPath, '|');
      var k := 0;
      while k < |alternatives|
        invariant 0 <= k <= |alternatives|
        invariant RegisterAlternatives(old(pathMap), settings, ctx, alternatives, h)
               == RegisterAlternatives(pathMap, settings, ctx, alternatives[k..], h)
        invariant RegisterPartial(old(pathMap), settings, ctx, alternatives, h)
               == RegisterPartial(pathMap, settings, ctx, alternatives[k..], h)
      {
        assert alternatives[k..][1..] == alternatives[k + 1..];
        var resolved := ResolveAlternativeLoop(settings, ctx, alternatives[k]);
        if resolved.Failure? {
          return Failure(resolved.error);
        }
        var inserted := Insert(pathMap, resolved.value, h);
        if inserted.Failure? {
          return Failure(inserted.error);
        }
        pathMap := inserted.value;
        k := k + 1;
      }
      r := Success(());
    }

    /**
     * getHolders(path) without the cache: the holders collected from the
     * deepest entry of the path, in a new list sorted by priority.
     */
    method GetHolders(path: seq<QName>) returns (list: EventHandlerList)
      requires |path| > 0
      ensures fresh(list) && list.Valid() && list.sorted
      ensures list.items == Lookup(pathMap, settings.wildcard, path)
    {
      var holders := CollectHolders(pathMap, settings.wildcard, path, |path| - 1, []);
      list := new EventHandlerList.FromCollection(holders);
      list.EnsurePrioritySorted();
    }
  }

  /** The segment loop of add: resolve from the last segment to the first. */
  method ResolveAlternativeLoop(st: Settings, ctx: NsContext, alternative: string) returns (r: Result<seq<QName>>)
    ensures r == ResolveAlternative(st, ctx, alternative)
  {
    var pathParts := Segments(alternative);
    var resolvedPath: seq<QName> := [];
    var i := |pathParts| - 1;
    PrependNothing(ResolveDown(st, ctx, pathParts, |pathParts|));
    while i >= 0
      invariant -1 <= i < |pathParts|
      invariant ResolveDown(st, ctx, pathParts, |pathParts|) == Prepend(resolvedPath, ResolveDown(st, ctx, pathParts, i + 1))
    {
      var qname := ResolveSegment(st, ctx, pathParts[i], i, |pathParts| - 1);
      ResolveDownStep(st, ctx, pathParts, i, resolvedPath);
      if qname.Failure? {
        return Failure(qname.error);
      }
      resolvedPath := resolvedPath + [qname.value];
      i := i - 1;
    }
    assert resolvedPath + [] == resolvedPath;
    r := Success(resolvedPath);
  }

  function Prepend(pre: seq<QName>, r: Result<seq<QName>>): Result<seq<QName>>
  {
    if r.Success? then Success(pre + r.value) else r
  }

  lemma PrependNothing(r: Result<seq<QName>>)
    ensures Prepend([], r) == r
  {
    if r.Success? {
      assert [] + r.value == r.value;
    }
  }

  /** One segment of the loop: it fails the whole resolution, or it moves from the rest to the path. */
  lemma ResolveDownStep(st: Settings, ctx: NsContext, parts: seq<string>, i: nat, pre: seq<QName>)
    requires i < |parts|
    ensures var q := ResolveSegment(st, ctx, parts[i], i, |parts| - 1);
            (q.Failure? ==> Prepend(pre, ResolveDown(st, ctx, parts, i + 1)) == Failure(q.error)) &&
            (q.Success? ==> Prepend(pre, ResolveDown(st, ctx, parts, i + 1)) == Prepend(pre + [q.value], ResolveDown(st, ctx, parts, i)))
  {
    var q := ResolveSegment(st, ctx, parts[i], i, |parts| - 1);
    var rest := ResolveDown(st, ctx, parts, i);
    if q.Success? && rest.Success? {
      assert pre + ([q.value] + rest.value) == (pre + [q.value]) + rest.value;
    }
  }

  /** getHandlersForPathItem, adding what it finds to holders. */
  method CollectHolders(m: map<NameKey, Trie>, w: string, path: seq<QName>, index: nat, holders: seq<Holder>)
    returns (r: seq<Holder>)
    requires index < |path|
    ensures r == Gather(m, w, path, index, holders)
    decreases index, 1
  {
    var currentPart := path[index];
    r := CollectAt(m, currentPart.Key(), path, index, holders);
    if index > 0 {
      r := CollectAt(m, NameKey(currentPart.namespaceURI, w), path, index, r);
      r := CollectAt(m, NameKey("", w), path, index, r);
    }
  }

  /** One key of getHandlersForPathItem: its holders, then its level below. */
  method CollectAt(m: map<NameKey, Trie>, key: NameKey, path: seq<QName>, index: nat, holders: seq<Holder>)
    returns (r: seq<Holder>)
    requires index < |path|
    ensures r == GatherAt(m, key, path, index, holders)
    decreases index, 0
  {
    r := holders;
    if key in m {
      var currentMap := m[key];
      var found := PayloadSeq(currentMap);
      var k := 0;
      while k < |found|
        invariant 0 <= k <= |found|
        invariant AddNew(holders, found) == AddNew(r, found[k..])
      {
        assert found[k..][1..] == found[k + 1..];
        if found[k] !in r {
          r := r + [found[k]];
        }
        k := k + 1;
      }
      if index > 0 {
        r := CollectHolders(currentMap.children, AncestorWildcard, path, index - 1, r);
      }
    }
  }

  /** A permutation of a sequence without repeats has none either. */
  lemma DistinctPermutation(a: seq<Holder>, b: seq<Holder>)
    requires multiset(a) == multiset(b)
    requires Distinct(a)
    ensures Distinct(b)
    ensures forall h :: h in a <==> h in b
  {
    forall h | h in multiset(a) ensures multiset(a)[h] == 1 {
      DistinctCount(a, h);
    }
    forall i, j | 0 <= i < j < |b| ensures b[i] != b[j] {
      assert b[i] in multiset(a);
      if b[i] == b[j] {
        TwoOccurrences(b, i, j);
      }
    }
    forall h ensures h in a <==> h in b {
      assert h in a <==> h in multiset(a);
      assert h in b <==> h in multiset(b);
    }
  }

  lemma {:induction false} DistinctCount(a: seq<Holder>, h: Holder)
    requires forall i, j :: 0 <= i < j < |a| ==> a[i] != a[j]
    requires h in a
    ensures multiset(a)[h] == 1
    decreases |a|
  {
    assert a == [a[0]] + a[1..];
    if a[0] == h {
      assert h !in a[1..];
    } else {
      DistinctCount(a[1..], h);
    }
  }

  lemma {:induction false} TwoOccurrences(b: seq<Holder>, i: nat, j: nat)
    requires i < j < |b| && b[i] == b[j]
    ensures multiset(b)[b[i]] >= 2
  {
    assert b == b[..i] + [b[i]] + b[i + 1..j] + [b[j]] + b[j + 1..];
  }
}
