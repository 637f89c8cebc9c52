/** The byte-budgeted LRU cache of lru.go as a value: recency lists, most recent first. */
module LruSpec {
  type Byte = bv8

  datatype ByteView = ByteView(b: seq<Byte>) {
    function Len(): nat { |b| }
  }

  datatype Entry = Entry(key: string, value: ByteView) {
    function Size(): nat { |key| + value.Len() }
  }

  function ButLast(es: seq<Entry>): seq<Entry>
    requires es != []
  {
    es[..|es| - 1]
  }

  function Last(es: seq<Entry>): Entry
    requires es != []
  {
    es[|es| - 1]
  }

  function Bytes(es: seq<Entry>): nat {
    if es == [] then 0 else Bytes(es[..|es| - 1]) + es[|es| - 1].Size()
  }

  /** All keys, one after the other. */
  function KeysLaid(es: seq<Entry>): string {
    if es == [] then "" else es[0].key + KeysLaid(es[1..])
  }

  /** All data, one after the other. */
  function DataLaid(es: seq<Entry>): seq<Byte> {
    if es == [] then [] else es[0].value.b + DataLaid(es[1..])
  }

  ghost predicate HasKey(es: seq<Entry>, key: string) {
    exists i :: 0 <= i < |es| && es[i].key == key
  }

  ghost predicate DistinctKeys(es: seq<Entry>) {
    forall i, j :: 0 <= i < j < |es| ==> es[i].key != es[j].key
  }

  function Without(es: seq<Entry>, key: string): seq<Entry> {
    if es == [] then []
    else if es[0].key == key then Without(es[1..], key)
    else [es[0]] + Without(es[1..], key)
  }

  /** The guard of the eviction loop: a non-zero budget is exceeded. */
  ghost predicate Over(es: seq<Entry>, maxBytes: int) {
    maxBytes != 0 && maxBytes < Bytes(es)
  }

  /** The eviction loop: drop the oldest entry while the guard holds. */
  ghost function Trim(es: seq<Entry>, maxBytes: nat): seq<Entry> {
    if Over(es, maxBytes) then Trim(es[..|es| - 1], maxBytes) else es
  }

  /** The list with `e` at the front and no older entry for its key. */
  function Replaced(es: seq<Entry>, e: Entry): seq<Entry> {
    [e] + Without(es, e.key)
  }

  function Cut<T>(s: seq<T>, j: nat): (r: seq<T>)
    requires j < |s|
    ensures |r| == |s| - 1
    ensures forall i {:trigger r[i]} :: 0 <= i < |r| ==> r[i] == if i < j then s[i] else s[i + 1]
  {
    s[..j] + s[j + 1..]
  }

  function MovedUp<T>(s: seq<T>, j: nat): seq<T>
    requires j < |s|
  {
    [s[j]] + Cut(s, j)
  }

  /** A lookup: a hit moves its entry to the front, a miss changes nothing. */
  ghost function Touched(es: seq<Entry>, key: string): seq<Entry> {
    if HasKey(es, key) then Replaced(es, Lookup(es, key)) else es
  }

  ghost function Lookup(es: seq<Entry>, key: string): (e: Entry)
    requires HasKey(es, key)
    ensures e in es && e.key == key
  {
    if es[0].key == key then es[0]
    else
      assert exists i :: 0 <= i < |es[1..]| && es[1..][i].key == key by {
        var i :| 0 <= i < |es| && es[i].key == key;
        assert es[1..][i - 1].key == key;
      }
      Lookup(es[1..], key)
  }

  function Reversed(es: seq<Entry>): (r: seq<Entry>)
    ensures |r| == |es| && forall i :: 0 <= i < |r| ==> r[i] == es[|es| - 1 - i]
  {
    if es == [] then [] else [es[|es| - 1]] + Reversed(es[..|es| - 1])
  }

  // ----- facts about lists -----

  lemma CutLast<T>(s: seq<T>)
    requires s != []
    ensures Cut(s, |s| - 1) == s[..|s| - 1]
  {
  }

  lemma FrontStays<T>(s: seq<T>)
    requires s != []
    ensures MovedUp(s, 0) == s
  {
  }

  lemma {:induction false} BytesConcat(a: seq<Entry>, b: seq<Entry>)
    ensures Bytes(a + b) == Bytes(a) + Bytes(b)
  {
    if b == [] {
      assert a + b == a;
    } else {
      assert (a + b)[..|a + b| - 1] == a + b[..|b| - 1];
      BytesConcat(a, b[..|b| - 1]);
    }
  }

  /** The byte count is the length of all keys and all data laid end to end. */
  lemma {:induction false} BytesAreLaid(es: seq<Entry>)
    ensures Bytes(es) == |KeysLaid(es)| + |DataLaid(es)|
  {
    if es != [] {
      BytesAreLaid(es[1..]);
      assert es == es[..1] + es[1..];
      BytesConcat(es[..1], es[1..]);
      assert Bytes(es[..1]) == |es[0].key| + |es[0].value.b|;
    }
  }

  lemma {:induction false} WithoutAbsent(es: seq<Entry>, key: string)
    requires !HasKey(es, key)
    ensures Without(es, key) == es
  {
    if es != [] {
      assert forall i :: 0 <= i < |es| - 1 ==> es[1..][i] == es[i + 1];
      WithoutAbsent(es[1..], key);
    }
  }

  lemma {:induction false} WithoutAt(es: seq<Entry>, j: nat)
    requires DistinctKeys(es) && j < |es|
    ensures Without(es, es[j].key) == Cut(es, j)
  {
    var key := es[j].key;
    if j == 0 {
      WithoutAbsent(es[1..], key);
    } else {
      assert es[1..][j - 1] == es[j];
      WithoutAt(es[1..], j - 1);
      assert es[..j] == [es[0]] + es[1..][..j - 1];
      assert es[1..][j - 1 + 1..] == es[j + 1..];
    }
  }

  lemma {:induction false} LookupAt(es: seq<Entry>, j: nat)
    requires DistinctKeys(es) && j < |es|
    ensures HasKey(es, es[j].key) && Lookup(es, es[j].key) == es[j]
  {
    if j > 0 {
      assert es[1..][j - 1] == es[j];
      LookupAt(es[1..], j - 1);
    }
  }

  lemma BytesOfOne(e: Entry)
    ensures Bytes([e]) == e.Size()
  {
    assert Bytes([e][..0]) == 0;
  }

  lemma BytesAround(a: seq<Entry>, x: Entry, b: seq<Entry>, e: Entry)
    ensures Bytes((a + [x]) + b) == Bytes(a) + x.Size() + Bytes(b)
    ensures Bytes([e] + (a + b)) == Bytes(a) + e.Size() + Bytes(b)
  {
    BytesConcat(a + [x], b);
    BytesConcat(a, [x]);
    BytesOfOne(x);
    BytesConcat([e], a + b);
    BytesConcat(a, b);
    BytesOfOne(e);
  }

  lemma BytesReplaced(es: seq<Entry>, j: nat, e: Entry)
    requires j < |es|
    ensures Bytes([e] + Cut(es, j)) == Bytes(es) - es[j].Size() + e.Size()
  {
    SplitAt(es, j);
    BytesAround(es[..j], es[j], es[j + 1..], e);
  }

  lemma SplitAt(es: seq<Entry>, j: nat)
    requires j < |es|
    ensures (es[..j] + [es[j]]) + es[j + 1..] == es
  {
  }

  lemma BytesSet(es: seq<Entry>, e: Entry)
    requires es != []
    ensures Bytes(es[0 := e]) == Bytes(es) - es[0].Size() + e.Size()
  {
    var rest := es[1..];
    assert es == [es[0]] + rest && es[0 := e] == [e] + rest;
    BytesConcat([es[0]], rest);
    BytesConcat([e], rest);
    BytesOfOne(es[0]);
    BytesOfOne(e);
  }

  lemma {:induction false} ReversedPush(es: seq<Entry>, m: nat)
    requires 0 < m <= |es|
    ensures Reversed(es[m - 1..]) == Reversed(es[m..]) + [es[m - 1]]
    decreases |es|
  {
    if m == |es| {
      assert es[m - 1..] == [es[m - 1]];
      assert es[m..] == [];
      assert Reversed([es[m - 1]]) == [es[m - 1]] + Reversed([]);
    } else {
      var last := es[|es| - 1];
      var front := es[..|es| - 1];
      ReversedPush(front, m);
      assert es[m - 1..][..|es[m - 1..]| - 1] == front[m - 1..];
      assert es[m..][..|es[m..]| - 1] == front[m..];
    }
  }

  // ----- what the eviction loop keeps -----

  /** Eviction keeps exactly the longest prefix that fits a non-zero budget, and everything when the
      budget is 0. */
  lemma {:induction false} TrimIsLongestFittingPrefix(es: seq<Entry>, maxBytes: nat)
    ensures Trim(es, maxBytes) <= es
    ensures !Over(Trim(es, maxBytes), maxBytes)
    ensures forall n :: |Trim(es, maxBytes)| < n <= |es| ==> Over(es[..n], maxBytes)
    ensures maxBytes == 0 ==> Trim(es, maxBytes) == es
    ensures maxBytes != 0 ==> Bytes(Trim(es, maxBytes)) <= maxBytes
    ensures maxBytes != 0 ==> forall n :: |Trim(es, maxBytes)| < n <= |es| ==> maxBytes < Bytes(es[..n])
    decreases |es|
  {
    if Over(es, maxBytes) {
      var front := es[..|es| - 1];
      TrimIsLongestFittingPrefix(front, maxBytes);
      forall n | |Trim(es, maxBytes)| < n <= |es| ensures Over(es[..n], maxBytes) {
        assert n == |es| ==> es[..n] == es;
        assert n < |es| ==> es[..n] == front[..n];
      }
    }
  }

  /** And it is the only such prefix. */
  lemma {:induction false} TrimUnique(es: seq<Entry>, maxBytes: nat, kept: seq<Entry>)
    requires kept <= es
    requires maxBytes == 0 ==> kept == es
    requires maxBytes != 0 ==>
      Bytes(kept) <= maxBytes && forall n :: |kept| < n <= |es| ==> maxBytes < Bytes(es[..n])
    ensures kept == Trim(es, maxBytes)
  {
    TrimIsLongestFittingPrefix(es, maxBytes);
    var t := Trim(es, maxBytes);
    assert kept == es[..|kept|] && t == es[..|t|];
  }

  /** With a negative budget the loop guard holds for every list, the empty one included: `Add` would
      never return, so a negative budget is outside the contract of `Add`. For any other budget the
      empty list stops the loop. */
  lemma LoopCanStopIffBudgetNonNegative(maxBytes: int)
    ensures maxBytes >= 0 <==> exists es: seq<Entry> :: !Over(es, maxBytes)
  {
    if maxBytes >= 0 {
      var none: seq<Entry> := [];
      assert !Over(none, maxBytes);
    }
  }
}

/** lru.go with the list of container/list as real, doubly linked nodes around a sentinel. */
module Lru {
  import opened LruSpec

  class Element {
    var key: string
    var value: ByteView
    var next: Element?
    var prev: Element?

    constructor (key: string, value: ByteView)
      ensures this.key == key && this.value == value
    {
      this.key, this.value := key, value;
      next, prev := null, null;
    }
  }

  /** A doubly linked list around a sentinel. `items` are its nodes from front to back and `entries`
      what they carry. */
  class LinkedList {
    const root: Element
    ghost var items: seq<Element>
    ghost var entries: seq<Entry>
    ghost var nodes: set<Element>

    /** The node at a position of the ring that `s` and the sentinel form. */
    ghost function Node(s: seq<Element>, i: int): Element {
      if 0 <= i < |s| then s[i] else root
    }

    ghost function At(i: int): Element
      reads this`items
    {
      Node(items, i)
    }

    lemma NodeOfCut(s: seq<Element>, j: nat, i: int)
      requires j < |s| && -1 <= i
      ensures Node(Cut(s, j), i) == Node(s, if i < j then i else i + 1)
    {
    }

    ghost predicate Valid()
      reads this, nodes
    {
      && root in nodes && root !in items && (forall i :: 0 <= i < |items| ==> items[i] in nodes)
      && (forall i, j :: 0 <= i < j < |items| ==> items[i] != items[j])
      && (forall i {:trigger items[i].next} :: 0 <= i < |items| ==> items[i].next == At(i + 1))
      && (forall i {:trigger items[i].prev} :: 0 <= i < |items| ==> items[i].prev == At(i - 1))
      && root.next == At(0) && root.prev == At(|items| - 1)
      && |entries| == |items|
      && (forall i {:trigger items[i]} :: 0 <= i < |items| ==>
            items[i].key == entries[i].key && items[i].value == entries[i].value)
    }

    constructor ()
      ensures Valid() && items == [] && entries == [] && nodes == {root} && fresh(root)
    {
      var r := new Element("", ByteView([]));
      root := r;
      items, entries, nodes := [], [], {r};
      new;
      root.next, root.prev := root, root;
    }

    /** The last element, or null when the list is empty. */
    method Back() returns (e: Element?)
      requires Valid()
      ensures items == [] ==> e == null
      ensures items != [] ==> e == items[|items| - 1]
    {
      if root.prev == root {
        return null;
      }
      return root.prev;
    }

    /** Put `e` between the sentinel and the first element. */
    method Link(e: Element)
      requires Valid() && e !in items && e != root
      modifies nodes`next, nodes`prev, e`next, e`prev
      ensures e.prev == root && e.next == At(0) && root.next == e
      ensures root.prev == if items == [] then e else At(|items| - 1)
      ensures forall i {:trigger items[i].next} :: 0 <= i < |items| ==> items[i].next == At(i + 1)
      ensures forall i {:trigger items[i].prev} :: 0 <= i < |items| ==> items[i].prev == if i == 0 then e else At(i - 1)
    {
      e.prev := root;
      e.next := root.next;
      e.next.prev := e;
      root.next := e;
    }

    method PushFront(e: Element)
      requires Valid() && e !in items && e != root
      modifies this, nodes`next, nodes`prev, e`next, e`prev
      ensures Valid() && nodes == old(nodes) + {e}
      ensures items == [e] + old(items) && entries == [Entry(e.key, e.value)] + old(entries)
    {
      Link(e);
      ghost var was := items;
      items, nodes := [e] + items, nodes + {e};
      entries := [Entry(e.key, e.value)] + entries;
      assert forall i :: 0 < i < |items| ==> items[i] == was[i - 1];
    }

    /** Join the neighbours of the `j`-th element. */
    method Unlink(e: Element, ghost j: nat)
      requires Valid() && j < |items| && items[j] == e
      modifies nodes`next, nodes`prev
      ensures root.next == At(if j == 0 then 1 else 0)
      ensures root.prev == At(if j == |items| - 1 then j - 1 else |items| - 1)
      ensures forall i {:trigger items[i].next} :: 0 <= i < |items| && i != j ==>
        items[i].next == At(if i == j - 1 then j + 1 else i + 1)
      ensures forall i {:trigger items[i].prev} :: 0 <= i < |items| && i != j ==>
        items[i].prev == At(if i == j + 1 then j - 1 else i - 1)
    {
      e.prev.next := e.next;
      e.next.prev := e.prev;
      e.next, e.prev := null, null;
    }

    method Remove(e: Element, ghost j: nat)
      requires Valid() && j < |items| && items[j] == e
      modifies this, nodes`next, nodes`prev
      ensures Valid() && nodes == old(nodes)
      ensures items == Cut(old(items), j) && entries == Cut(old(entries), j)
    {
      hide Cut, Node;
      Unlink(e, j);
      ghost var was := items;
      items, entries := Cut(items, j), Cut(entries, j);
      CutLinks(was, j);
    }

    /** What Unlink leaves is linked once the element is gone. */
    lemma CutLinks(was: seq<Element>, j: nat)
      requires j < |was| && items == Cut(was, j)
      requires root.next == Node(was, if j == 0 then 1 else 0)
      requires root.prev == Node(was, if j == |was| - 1 then j - 1 else |was| - 1)
      requires forall i {:trigger was[i].next} :: 0 <= i < |was| && i != j ==>
        was[i].next == Node(was, if i == j - 1 then j + 1 else i + 1)
      requires forall i {:trigger was[i].prev} :: 0 <= i < |was| && i != j ==>
        was[i].prev == Node(was, if i == j + 1 then j - 1 else i - 1)
      ensures forall i {:trigger items[i].next} :: 0 <= i < |items| ==> items[i].next == At(i + 1)
      ensures forall i {:trigger items[i].prev} :: 0 <= i < |items| ==> items[i].prev == At(i - 1)
      ensures root.next == At(0) && root.prev == At(|items| - 1)
    {
      hide Node;
      NodeOfCut(was, j, 0);
      NodeOfCut(was, j, |items| - 1);
      forall i | 0 <= i < |items| ensures items[i].next == At(i + 1) && items[i].prev == At(i - 1) {
        assert items[i] == was[if i < j then i else i + 1];
        NodeOfCut(was, j, i + 1);
        NodeOfCut(was, j, i - 1);
      }
    }

    method MoveToFront(e: Element, ghost j: nat)
      requires Valid() && j < |items| && items[j] == e
      modifies this, nodes`next, nodes`prev
      ensures Valid() && nodes == old(nodes)
      ensures items == MovedUp(old(items), j) && entries == MovedUp(old(entries), j)
    {
      if root.next == e {
        FrontStays(items);
        FrontStays(entries);
        return;
      }
      Remove(e, j);
      PushFront(e);
    }

    /** Overwrite the value of the front element. */
    method SetFront(e: Element, value: ByteView)
      requires Valid() && items != [] && items[0] == e
      modifies this`entries, e`value
      ensures Valid() && entries == old(entries)[0 := Entry(e.key, value)]
    {
      e.value := value;
      entries := entries[0 := Entry(e.key, value)];
    }

    method Len() returns (n: nat)
      requires Valid()
      ensures n == |items|
    {
      n := 0;
      var e := root.next;
      while e != root
        invariant n <= |items| && e == At(n)
        decreases |items| - n
      {
        e := e.next;
        n := n + 1;
      }
    }
  }

  /** The map and the list hold the same elements, once per key. */
  ghost predicate Indexed(cache: map<string, Element>, items: seq<Element>, es: seq<Entry>)
  {
    && |items| == |es|
    && (forall i :: 0 <= i < |es| ==> es[i].key in cache && cache[es[i].key] == items[i])
    && (forall k :: k in cache ==> HasKey(es, k))
  }

  lemma IndexedMove(cache: map<string, Element>, items: seq<Element>, es: seq<Entry>, j: nat, value: ByteView)
    requires Indexed(cache, items, es) && j < |es|
    ensures Indexed(cache, [items[j]] + Cut(items, j),
                    [Entry(es[j].key, value)] + Cut(es, j))
  {
    var es' := [Entry(es[j].key, value)] + Cut(es, j);
    forall k | k in cache ensures HasKey(es', k) {
      var i :| 0 <= i < |es| && es[i].key == k;
      assert es'[if i < j then i + 1 else if i == j then 0 else i].key == k;
    }
  }

  lemma IndexedSet(cache: map<string, Element>, items: seq<Element>, es: seq<Entry>, e: Entry)
    requires Indexed(cache, items, es) && es != [] && es[0].key == e.key
    ensures Indexed(cache, items, es[0 := e])
  {
    forall k | k in cache ensures HasKey(es[0 := e], k) {
      var i :| 0 <= i < |es| && es[i].key == k;
      assert es[0 := e][i].key == k;
    }
  }

  lemma IndexedPush(cache: map<string, Element>, items: seq<Element>, es: seq<Entry>, ele: Element, e: Entry)
    requires Indexed(cache, items, es) && e.key !in cache
    ensures Indexed(cache[e.key := ele], [ele] + items, [e] + es)
  {
    forall k | k in cache[e.key := ele] ensures HasKey([e] + es, k) {
      if k == e.key {
        assert ([e] + es)[0].key == k;
      } else {
        var i :| 0 <= i < |es| && es[i].key == k;
        assert ([e] + es)[i + 1].key == k;
      }
    }
  }

  lemma IndexedPop(cache: map<string, Element>, items: seq<Element>, es: seq<Entry>)
    requires Indexed(cache, items, es) && es != []
    requires forall i, j :: 0 <= i < j < |items| ==> items[i] != items[j]
    ensures Indexed(cache - {es[|es| - 1].key}, items[..|es| - 1], es[..|es| - 1])
  {
    var n := |es| - 1;
    forall k | k in cache - {es[n].key} ensures HasKey(es[..n], k) {
      var i :| 0 <= i < |es| && es[i].key == k;
      assert es[..n][i].key == k;
    }
    forall i | 0 <= i < n ensures es[i].key != es[n].key {
      assert items[i] != items[n];
    }
  }

  class Cache {
    const maxBytes: int
    const onEvicted: bool           // whether a callback was given
    var nbytes: int
    const ll: LinkedList
    var cache: map<string, Element>
    var evictions: seq<Entry>       // the callback's calls, in order

    /** The entries, most recent first. */
    ghost function Contents(): seq<Entry>
      reads ll
    {
      ll.entries
    }

    ghost predicate Valid()
      reads this, ll, ll.nodes
    {
      && ll.Valid() && Indexed(cache, ll.items, ll.entries) && nbytes == Bytes(ll.entries)
    }

    constructor (maxBytes: int, onEvicted: bool)
      ensures Valid() && Contents() == [] && evictions == []
      ensures this.maxBytes == maxBytes && this.onEvicted == onEvicted
      ensures fresh(ll) && fresh(ll.nodes)
    {
      this.maxBytes, this.onEvicted := maxBytes, onEvicted;
      var l := new LinkedList();
      nbytes, cache, evictions, ll := 0, map[], [], l;
    }

    /** Where the list holds the element the map names for `k`. */
    lemma Locate(k: string) returns (j: nat)
      requires Valid() && k in cache
      ensures j < |ll.items| && ll.items[j] == cache[k] && Contents()[j].key == k == cache[k].key
      ensures Contents()[j].value == cache[k].value
      ensures Without(Contents(), k) == Cut(Contents(), j)
      ensures HasKey(Contents(), k) && Lookup(Contents(), k) == Contents()[j]
    {
      var es := Contents();
      j :| 0 <= j < |es| && es[j].key == k;
      forall a, b | 0 <= a < b < |es| ensures es[a].key != es[b].key {
        assert ll.items[a] != ll.items[b];
      }
      LookupAt(es, j);
      WithoutAt(es, j);
    }

    /** A hit: the element moves to the front of the list. */
    method Touch(key: string, ele: Element)
      requires Valid() && key in cache && cache[key] == ele
      modifies this, ll, ll.nodes
      ensures Valid() && ll.nodes == old(ll.nodes) && evictions == old(evictions)
      ensures old(HasKey(Contents(), key)) && Contents() == Touched(old(Contents()), key) && Contents() != []
      ensures ele == ll.items[0] && cache == old(cache)
      ensures Contents()[0] == old(Lookup(Contents(), key)) == Entry(key, ele.value) && ele.key == key
    {
      ghost var j := Locate(key);
      BytesReplaced(Contents(), j, Contents()[j]);
      IndexedMove(cache, ll.items, Contents(), j, ele.value);
      ll.MoveToFront(ele, j);
    }

    method Get(key: string) returns (value: ByteView, ok: bool)
      requires Valid()
      modifies this, ll, ll.nodes
      ensures Valid() && ll.nodes == old(ll.nodes)
      ensures ok == HasKey(old(Contents()), key)
      ensures ok ==> value == Lookup(old(Contents()), key).value
      ensures ok ==> Contents() != [] && Contents()[0] == Entry(key, value)
      ensures Contents() == Touched(old(Contents()), key)
      ensures evictions == old(evictions)
    {
      if key in cache {
        var ele := cache[key];
        Touch(key, ele);
        return ele.value, true;
      }
      return ByteView([]), false;
    }

    function Logged(log: seq<Entry>, e: Entry): seq<Entry> {
      if onEvicted then log + [e] else log
    }

    lemma AboutLast(n: nat)
      requires Valid() && |Contents()| == n + 1
      ensures |ll.items| == n + 1 && ll.items[n] in ll.nodes
      ensures Entry(ll.items[n].key, ll.items[n].value) == Contents()[n]
      ensures Indexed(cache - {Contents()[n].key}, ll.items[..n], ButLast(Contents()))
      ensures Bytes(ButLast(Contents())) == nbytes - Contents()[n].Size()
      ensures Cut(ll.items, n) == ll.items[..n] && Cut(Contents(), n) == ButLast(Contents())
      ensures Last(Contents()) == Contents()[n]
    {
      CutLast(ll.items);
      CutLast(Contents());
      IndexedPop(cache, ll.items, Contents());
    }

    lemma SameSize()
      requires Valid()
      ensures |ll.items| == |Contents()|
    {
    }

    method RemoveOldest()
      requires Valid()
      modifies this, ll, ll.nodes
      ensures Valid() && ll.nodes == old(ll.nodes)
      ensures old(Contents()) == [] ==> Contents() == [] && evictions == old(evictions)
      ensures old(Contents()) != [] ==> Contents() == ButLast(old(Contents()))
      ensures old(Contents()) != [] ==> evictions == Logged(old(evictions), Last(old(Contents())))
      ensures old(Contents()) != [] && onEvicted ==> evictions == old(evictions) + [Last(old(Contents()))]
      ensures !onEvicted ==> evictions == old(evictions)
    {
      hide LinkedList.Valid, Indexed, Bytes, Cut, ButLast, Last;
      SameSize();
      var ele := ll.Back();
      if ele != null {
        ghost var n := |Contents()| - 1;
        AboutLast(n);
        var kv := Entry(ele.key, ele.value);
        ll.Remove(ele, n);
        cache, nbytes := cache - {kv.key}, nbytes - (|kv.key| + kv.value.Len());
        evictions := Logged(evictions, kv);
      }
    }

    lemma AboutFront(e: Entry)
      requires Valid() && Contents() != [] && ll.items[0].key == e.key
      ensures ll.items != [] && ll.items[0] in ll.nodes && Entry(ll.items[0].key, ll.items[0].value) == Contents()[0]
      ensures Indexed(cache, ll.items, Contents()[0 := e])
      ensures Bytes(Contents()[0 := e]) == nbytes - Contents()[0].Size() + e.Size()
    {
      IndexedSet(cache, ll.items, Contents(), e);
      BytesSet(Contents(), e);
    }

    /** Replace the value of the front element and adjust the byte count. */
    method Overwrite(ele: Element, value: ByteView)
      requires Valid() && Contents() != [] && ll.items[0] == ele
      modifies this, ll, ll.nodes
      ensures Valid() && ll.nodes == old(ll.nodes) && evictions == old(evictions)
      ensures Contents() == old(Contents())[0 := Entry(old(Contents())[0].key, value)]
    {
      hide LinkedList.Valid, Indexed, Bytes;
      AboutFront(Entry(ele.key, value));
      nbytes := nbytes - (|ele.key| + ele.value.Len()) + (|ele.key| + value.Len());
      ll.SetFront(ele, value);
    }

    lemma AboutNew(e: Entry, ele: Element)
      requires Valid() && e.key !in cache && ele !in ll.nodes
      ensures ele !in ll.items && ele != ll.root
      ensures Indexed(cache[e.key := ele], [ele] + ll.items, [e] + Contents())
      ensures [e] + Contents() == Replaced(Contents(), e)
      ensures Bytes([e] + Contents()) == nbytes + e.Size()
    {
      WithoutAbsent(Contents(), e.key);
      BytesConcat([e], Contents());
      BytesOfOne(e);
      IndexedPush(cache, ll.items, Contents(), ele, e);
    }

    method Create(key: string, value: ByteView)
      requires Valid() && key !in cache
      modifies this, ll, ll.nodes
      ensures Valid() && fresh(ll.nodes - old(ll.nodes)) && evictions == old(evictions)
      ensures Contents() == Replaced(old(Contents()), Entry(key, value))
    {
      hide LinkedList.Valid, Indexed, Bytes, Cut, Replaced;
      var ele := new Element(key, value);
      AboutNew(Entry(key, value), ele);
      ll.PushFront(ele);
      cache, nbytes := cache[key := ele], nbytes + (|ele.key| + ele.value.Len());
    }

    /** The new entry goes to the front; an older value for the same key is replaced in place. */
    method Insert(key: string, value: ByteView)
      requires Valid()
      modifies this, ll, ll.nodes
      ensures Valid() && fresh(ll.nodes - old(ll.nodes)) && evictions == old(evictions)
      ensures Contents() == Replaced(old(Contents()), Entry(key, value))
    {
      hide LinkedList.Valid, Indexed, Bytes, HasKey, Lookup, Without, Contents;
      if key in cache {
        var ele := cache[key];
        Touch(key, ele);
        Overwrite(ele, value);
        assert Contents() == Replaced(old(Contents()), Entry(key, value));
      } else {
        Create(key, value);
      }
    }

    /** The callback log once `mid` has been cut down to its first `kept` entries. */
    function EvictionLog(log: seq<Entry>, mid: seq<Entry>, kept: nat): seq<Entry>
      requires kept <= |mid|
    {
      log + if onEvicted then Reversed(mid[kept..]) else []
    }

    lemma EvictionStep(log: seq<Entry>, mid: seq<Entry>, kept: nat)
      requires 0 < kept <= |mid|
      ensures mid[..kept] != [] && ButLast(mid[..kept]) == mid[..kept - 1]
      ensures EvictionLog(log, mid, kept - 1) == Logged(EvictionLog(log, mid, kept), Last(mid[..kept]))
    {
      ReversedPush(mid, kept);
      assert ButLast(mid[..kept]) == mid[..kept - 1];
    }

    /** `Add` leaves the longest fitting prefix of the new entry followed by the old list without its
        key, and reports each dropped entry once, oldest first. */
    method Add(key: string, value: ByteView)
      requires Valid() && maxBytes >= 0
      modifies this, ll, ll.nodes
      ensures Valid() && fresh(ll.nodes - old(ll.nodes))
      ensures Contents() == Trim(Replaced(old(Contents()), Entry(key, value)), maxBytes)
      ensures Contents() <= Replaced(old(Contents()), Entry(key, value))
      ensures maxBytes == 0 ==> Contents() == Replaced(old(Contents()), Entry(key, value))
      ensures maxBytes != 0 ==> Bytes(Contents()) <= maxBytes
      ensures maxBytes != 0 ==>
        var all := Replaced(old(Contents()), Entry(key, value));
        forall n :: |Contents()| < n <= |all| ==> maxBytes < Bytes(all[..n])
      ensures evictions == EvictionLog(old(evictions), Replaced(old(Contents()), Entry(key, value)), |Contents()|)
      ensures !onEvicted ==> evictions == old(evictions)
      ensures onEvicted ==>
        var all, was := Replaced(old(Contents()), Entry(key, value)), old(evictions);
        && |evictions| == |was| + |all| - |Contents()| && was <= evictions
        && forall i :: |was| <= i < |evictions| ==> evictions[i] == all[|all| - 1 - (i - |was|)]
    {
      Insert(key, value);
      ghost var all := Contents();
      EvictAll(all);
      TrimIsLongestFittingPrefix(all, maxBytes);
      LogIs(old(evictions), all, |Contents()|);
      hide EvictionLog, LinkedList.Valid, Indexed, Bytes, Trim, Replaced;
    }

    lemma LogIs(was: seq<Entry>, all: seq<Entry>, kept: nat)
      requires kept <= |all|
      ensures !onEvicted ==> EvictionLog(was, all, kept) == was
      ensures onEvicted ==>
        var log := EvictionLog(was, all, kept);
        && |log| == |was| + |all| - kept && was <= log
        && forall i :: |was| <= i < |log| ==> log[i] == all[|all| - 1 - (i - |was|)]
    {
    }

    method EvictAll(ghost mid: seq<Entry>)
      requires Valid() && maxBytes >= 0 && Contents() == mid
      modifies this, ll, ll.nodes
      ensures Valid() && ll.nodes == old(ll.nodes)
      ensures Contents() == Trim(mid, maxBytes) && Contents() <= mid
      ensures evictions == EvictionLog(old(evictions), mid, |Contents()|)
    {
      ghost var kept: nat, log := |mid|, evictions;
      assert EvictionLog(log, mid, kept) == log;
      hide LinkedList.Valid, Indexed, ButLast, Last, EvictionLog, Logged;
      while maxBytes != 0 && maxBytes < nbytes
        invariant Valid() && ll.nodes == old(ll.nodes)
        invariant kept <= |mid| && Contents() == mid[..kept]
        invariant Trim(mid[..kept], maxBytes) == Trim(mid, maxBytes)
        invariant evictions == EvictionLog(log, mid, kept)
        decreases kept
      {
        EvictionStep(log, mid, kept);
        RemoveOldest();
        kept := kept - 1;
      }
    }

    method TotalElem() returns (n: nat)
      requires Valid()
      ensures n == |Contents()|
    {
      n := ll.Len();
    }
  }
}
