/**
 * Event handlers and EventHandlerList: holders carry a priority and a
 * handler; a list sorts them by priority, highest first, and turns itself
 * into a stack whose pops come out in that order.
 *
 * A handler is user code.  The model gives it as a script: one run of
 * actions when the context is reading the input and another when it is
 * applying nodes (what context.isApplying() lets a handler choose between),
 * each ending with the ContinueState it returns (None for null).
 */
module Handlers {
  import opened Wrappers
  import opened QNames
  import opened WriterCalls
  import opened Nodes

  datatype ContinueState = Continue | SkipThis | SkipThisAndDescendants | Handled | Quit

  /** What context.apply(...) is given. */
  datatype ApplySource =
    | TheReadElement            // new NodeCollection(element), element from readElement()
    | ReadElementChildren       // element.getChildNodes()
    | ReadElementTextChildren   // the TEXT children of element.getChildNodes()
    | Literal(nodes: seq<Node>) // a NodeCollection built by the handler

  datatype Action =
    | Mark(tag: nat)                           // records in the cargo that the handler ran
    | CancelNext                               // context.cancelNext()
    | CallNext                                 // context.callNext(), its result unused
    | Write(call: XmlCall)                     // a call on the writer
    | WriteNodes(nodes: seq<Option<Node>>)     // writer.write(nodes...)
    | WriteAttributeValueAs(name: QName)       // writer.writeAttribute(name, context.getAttributeValue())
    | SetOverrideName(name: QName)
    | SetOverrideAttributeValue(value: string)
    | SetOverrideText(text: string)
    | SetOverridePITarget(target: string)
    | SetOverridePIData(data: string)
    | SetOverrideNamespacePrefix(prefix: string)
    | SetOverrideNamespaceURI(uri: string)
    | ReadElement                              // element = context.readElement()
    | Apply(source: ApplySource)               // context.apply(...)

  datatype Script = Script(actions: seq<Action>, result: Option<ContinueState>)

  datatype Handler = Handler(whenReading: Script, whenApplying: Script)

  /**
   * An EventHandlerHolder.  Holders are compared by identity in Java; id
   * stands for that identity, so two registrations are distinct holders
   * even with equal fields.
   */
  datatype Holder = Holder(id: nat, priority: int, matchPath: string, handler: Handler)

  // ---------------------------------------------------------------------
  // Priority order

  /** Highest priority first: the order of the list's comparator. */
  ghost predicate Descending(l: seq<Holder>)
  {
    forall i, j :: 0 <= i < j < |l| ==> l[i].priority >= l[j].priority
  }

  /** Insert h after every holder of equal or higher priority. */
  function InsertByPriority(s: seq<Holder>, h: Holder): seq<Holder>
    decreases |s|
  {
    if |s| == 0 then [h]
    else if s[0].priority >= h.priority then [s[0]] + InsertByPriority(s[1..], h)
    else [h] + s
  }

  /**
   * ArrayList.sort with the priority comparator.  The JDK sort is stable,
   * so holders of equal priority keep their relative order.
   */
  function PrioritySorted(l: seq<Holder>): seq<Holder>
    decreases |l|
  {
    if |l| == 0 then [] else InsertByPriority(PrioritySorted(l[..|l| - 1]), l[|l| - 1])
  }

  /** The holders of one priority, in order. */
  function WithPriority(l: seq<Holder>, p: int): seq<Holder>
    decreases |l|
  {
    if |l| == 0 then []
    else (if l[0].priority == p then [l[0]] else []) + WithPriority(l[1..], p)
  }

  lemma {:induction false} WithPriorityAppend(a: seq<Holder>, b: seq<Holder>, p: int)
    ensures WithPriority(a + b, p) == WithPriority(a, p) + WithPriority(b, p)
    decreases |a|
  {
    if |a| > 0 {
      assert (a + b)[1..] == a[1..] + b;
      WithPriorityAppend(a[1..], b, p);
    } else {
      assert a + b == b;
    }
  }

  lemma {:induction false} InsertByPriorityKeeps(s: seq<Holder>, h: Holder)
    ensures multiset(InsertByPriority(s, h)) == multiset(s) + multiset{h}
    decreases |s|
  {
    if |s| > 0 && s[0].priority >= h.priority {
      InsertByPriorityKeeps(s[1..], h);
      assert s == [s[0]] + s[1..];
    }
  }

  lemma {:induction false} InsertByPriorityDescending(s: seq<Holder>, h: Holder)
    requires Descending(s)
    ensures Descending(InsertByPriority(s, h))
    decreases |s|
  {
    if |s| > 0 && s[0].priority >= h.priority {
      var tail := InsertByPriority(s[1..], h);
      InsertByPriorityDescending(s[1..], h);
      InsertByPriorityKeeps(s[1..], h);
      forall k | 0 <= k < |tail| ensures s[0].priority >= tail[k].priority {
        assert tail[k] in multiset(tail);
        if tail[k] != h {
          assert tail[k] in multiset(s[1..]);
          var m :| 0 <= m < |s[1..]| && s[1..][m] == tail[k];
          assert s[1..][m] == s[m + 1];
        }
      }
      assert InsertByPriority(s, h) == [s[0]] + tail;
    }
  }

  lemma {:induction false} InsertByPriorityStable(s: seq<Holder>, h: Holder, p: int)
    requires Descending(s)
    ensures WithPriority(InsertByPriority(s, h), p) == WithPriority(s, p) + WithPriority([h], p)
    decreases |s|
  {
    if |s| == 0 {
    } else if s[0].priority >= h.priority {
      var tail := InsertByPriority(s[1..], h);
      InsertByPriorityStable(s[1..], h, p);
      assert s == [s[0]] + s[1..];
      WithPriorityAppend([s[0]], tail, p);
      WithPriorityAppend([s[0]], s[1..], p);
    } else {
      WithPriorityAppend([h], s, p);
      if h.priority == p {
        WithPriorityNone(s, p);
      }
    }
  }

  lemma {:induction false} WithPriorityNone(s: seq<Holder>, p: int)
    requires forall k :: 0 <= k < |s| ==> s[k].priority != p
    ensures WithPriority(s, p) == []
    decreases |s|
  {
    if |s| > 0 {
      WithPriorityNone(s[1..], p);
    }
  }

  /**
   * After sorting, the list is ordered by priority, highest first; it holds
   * the same holders; and holders of each priority keep their order.
   */
  lemma {:induction false} PrioritySortedFacts(l: seq<Holder>, p: int)
    ensures Descending(PrioritySorted(l))
    ensures multiset(PrioritySorted(l)) == multiset(l)
    ensures |PrioritySorted(l)| == |l|
    ensures WithPriority(PrioritySorted(l), p) == WithPriority(l, p)
    decreases |l|
  {
    if |l| > 0 {
      var n := |l| - 1;
      PrioritySortedFacts(l[..n], p);
      InsertByPriorityKeeps(PrioritySorted(l[..n]), l[n]);
      InsertByPriorityDescending(PrioritySorted(l[..n]), l[n]);
      InsertByPriorityStable(PrioritySorted(l[..n]), l[n], p);
      assert l == l[..n] + [l[n]];
      WithPriorityAppend(l[..n], [l[n]], p);
      assert |PrioritySorted(l)| == |multiset(PrioritySorted(l))|;
    }
  }

  lemma {:induction false} InsertAtEnd(s: seq<Holder>, h: Holder)
    requires forall k :: 0 <= k < |s| ==> s[k].priority >= h.priority
    ensures InsertByPriority(s, h) == s + [h]
    decreases |s|
  {
    if |s| > 0 {
      InsertAtEnd(s[1..], h);
      assert s == [s[0]] + s[1..];
    }
  }

  /** Sorting a list that is already in priority order leaves it as it is. */
  lemma {:induction false} PrioritySortedIdempotent(l: seq<Holder>)
    requires Descending(l)
    ensures PrioritySorted(l) == l
    decreases |l|
  {
    if |l| > 0 {
      var n := |l| - 1;
      PrioritySortedIdempotent(l[..n]);
      InsertAtEnd(l[..n], l[n]);
      assert l == l[..n] + [l[n]];
    }
  }

  // ---------------------------------------------------------------------
  // Stacks

  /** A java.util.Stack as a sequence whose last element is the top. */
  function Reversed(l: seq<Holder>): (r: seq<Holder>)
    ensures |r| == |l|
    ensures forall k :: 0 <= k < |l| ==> r[k] == l[|l| - 1 - k]
  {
    seq(|l|, k requires 0 <= k < |l| => l[|l| - 1 - k])
  }

  // ---------------------------------------------------------------------
  // The list

  class EventHandlerList {
    var items: seq<Holder>
    var sorted: bool

    /** The flag is only ever set right after a sort. */
    ghost predicate Valid()
      reads this
    {
      sorted ==> Descending(items)
    }

    /** new EventHandlerList() */
    constructor ()
      ensures Valid() && items == [] && !sorted
    {
      items, sorted := [], false;
    }

    /** new EventHandlerList(collection) */
    constructor FromCollection(c: seq<Holder>)
      ensures Valid() && items == c && !sorted
    {
      items, sorted := c, false;
    }

    /** ensurePrioritySorted(): sort once; a list already sorted is left alone. */
    method EnsurePrioritySorted()
      requires Valid()
      modifies this
      ensures Valid() && sorted
      ensures items == PrioritySorted(old(items))
      ensures Descending(items) && multiset(items) == multiset(old(items))
    {
      PrioritySortedFacts(items, 0);
      if !sorted {
        Sort();
        sorted := true;
      } else {
        PrioritySortedIdempotent(items);
      }
    }

    /**
     * toStack(): a new stack holding the sorted list, pushed from the last
     * holder to the first, so that the first pop yields the highest priority.
     */
    method ToStack() returns (stack: seq<Holder>)
      requires Valid()
      modifies this
      ensures Valid() && sorted
      ensures items == PrioritySorted(old(items))
      ensures stack == Reversed(items)
    {
      EnsurePrioritySorted();
      stack := [];
      var i := |items| - 1;
      while i >= 0
        invariant -1 <= i < |items|
        invariant |stack| == |items| - 1 - i
        invariant forall k :: 0 <= k < |stack| ==> stack[k] == items[|items| - 1 - k]
      {
        stack := stack + [items[i]];
        i := i - 1;
      }
      assert stack == Reversed(items);
    }

    /** add(holder) */
    method Add(h: Holder) returns (changed: bool)
      modifies this
      ensures Valid() && !sorted && items == old(items) + [h] && changed
    {
      sorted := false;
      items := items + [h];
      changed := true;
    }

    /** add(index, holder): an index outside 0..size throws. */
    method AddAt(index: int, h: Holder) returns (r: Result<()>)
      modifies this
      ensures Valid() && !sorted
      ensures 0 <= index <= |old(items)| ==> r.Success? && items == old(items)[..index] + [h] + old(items)[index..]
      ensures !(0 <= index <= |old(items)|) ==> r == Failure(IndexOutOfBounds) && items == old(items)
    {
      sorted := false;
      if 0 <= index <= |items| {
        items := items[..index] + [h] + items[index..];
        r := Success(());
      } else {
        r := Failure(IndexOutOfBounds);
      }
    }

    /** addAll(collection) */
    method AddAll(c: seq<Holder>) returns (changed: bool)
      modifies this
      ensures Valid() && !sorted && items == old(items) + c && changed == (|c| > 0)
    {
      sorted := false;
      items := items + c;
      changed := |c| > 0;
    }

    /** addAll(index, collection): an index outside 0..size throws. */
    method AddAllAt(index: int, c: seq<Holder>) returns (r: Result<bool>)
      modifies this
      ensures Valid() && !sorted
      ensures 0 <= index <= |old(items)| ==> r == Success(|c| > 0) && items == old(items)[..index] + c + old(items)[index..]
      ensures !(0 <= index <= |old(items)|) ==> r == Failure(IndexOutOfBounds) && items == old(items)
    {
      sorted := false;
      if 0 <= index <= |items| {
        items := items[..index] + c + items[index..];
        r := Success(|c| > 0);
      } else {
        r := Failure(IndexOutOfBounds);
      }
    }

    /** remove(holder): the first occurrence, if any. */
    method Remove(h: Holder) returns (found: bool)
      modifies this
      ensures Valid() && !sorted
      ensures found <==> h in old(items)
      ensures found ==> (exists k :: 0 <= k < |old(items)| && old(items)[k] == h && h !in old(items)[..k] &&
                                     items == old(items)[..k] + old(items)[k + 1..])
      ensures !found ==> items == old(items)
    {
      sorted := false;
      var k := 0;
      while k < |items| && items[k] != h
        invariant 0 <= k <= |items|
        invariant h !in items[..k]
      {
        k := k + 1;
      }
      found := k < |items|;
      if found {
        items := items[..k] + items[k + 1..];
      } else {
        assert items[..k] == items;
      }
    }

    /** removeAll(collection): drop every holder the collection contains. */
    method RemoveAll(c: seq<Holder>) returns (changed: bool)
      modifies this
      ensures Valid() && !sorted
      ensures items == Filter(old(items), c, false)
      ensures changed <==> |items| != |old(items)|
    {
      sorted := false;
      var before := |items|;
      items := Filter(items, c, false);
      changed := |items| != before;
    }

    /** retainAll(collection): keep only the holders the collection contains. */
    method RetainAll(c: seq<Holder>) returns (changed: bool)
      modifies this
      ensures Valid() && !sorted
      ensures items == Filter(old(items), c, true)
      ensures changed <==> |items| != |old(items)|
    {
      sorted := false;
      var before := |items|;
      items := Filter(items, c, true);
      changed := |items| != before;
    }

    /** sort(comparator): whatever comparator is passed, the priority comparator is used. */
    method Sort()
      modifies this
      ensures Valid() && !sorted
      ensures items == PrioritySorted(old(items))
    {
      sorted := false;
      items := PrioritySorted(items);
    }

    /** set(index, holder): returns the holder it replaced; an index outside the list throws. */
    method Set(index: int, h: Holder) returns (r: Result<Holder>)
      modifies this
      ensures Valid() && !sorted
      ensures 0 <= index < |old(items)| ==> r == Success(old(items)[index]) && items == old(items)[index := h]
      ensures !(0 <= index < |old(items)|) ==> r == Failure(IndexOutOfBounds) && items == old(items)
    {
      sorted := false;
      if 0 <= index < |items| {
        r := Success(items[index]);
        items := items[index := h];
      } else {
        r := Failure(IndexOutOfBounds);
      }
    }
  }

  /** The holders of l that are (keep) or are not (!keep) in c, in order. */
  function Filter(l: seq<Holder>, c: seq<Holder>, keep: bool): (r: seq<Holder>)
    ensures forall h :: h in r <==> h in l && ((h in c) == keep)
    ensures |r| <= |l|
    decreases |l|
  {
    if |l| == 0 then []
    else (if (l[0] in c) == keep then [l[0]] else []) + Filter(l[1..], c, keep)
  }
}
