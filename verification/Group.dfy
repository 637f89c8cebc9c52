/** The read-through group of gebcache.go over the recency lists of `LruSpec`. */
module GroupSpec {
  import opened LruSpec
  import opened Options

  datatype Fetch = Fetched(data: seq<Byte>) | Failed(error: string)

  /** Where a group loads from: the getter it was built with and, if set, its peers. */
  datatype Source = Source(getter: string -> Fetch, peers: Option<string -> Fetch>) {
    /** Whether the peers leave `key` to this node: they are unset, fail, or return nothing. */
    predicate LoadsLocally(key: string) {
      match peers
      case None => true
      case Some(get) =>
        match get(key)
        case Failed(_) => true
        case Fetched(data) => data == []
    }

    function Load(key: string): Fetch {
      if LoadsLocally(key) then getter(key) else peers.value(key)
    }

    /** What an uncached group answers. */
    function Direct(key: string): Fetch {
      if key == "" then Failed("key is required") else Load(key)
    }

    predicate Caches(key: string) {
      key != "" && LoadsLocally(key) && getter(key).Fetched?
    }

    function EntryFor(key: string): Entry
      requires Caches(key)
    {
      Entry(key, ByteView(getter(key).data))
    }

    /** Every cached entry is what the getter returns for its key, and was loaded here. */
    ghost predicate Coherent(es: seq<Entry>) {
      forall i :: 0 <= i < |es| ==> Caches(es[i].key) && es[i] == EntryFor(es[i].key)
    }

    /** The recency list after `Get(key)`. */
    ghost function Access(es: seq<Entry>, key: string, maxBytes: nat): seq<Entry> {
      if key == "" then es
      else if HasKey(es, key) then Touched(es, key)
      else if Caches(key) then Trim(Replaced(es, EntryFor(key)), maxBytes)
      else es
    }

    /** The recency list after a whole trace of `Get` calls on a new group. */
    ghost function Recency(keys: seq<string>, maxBytes: nat): seq<Entry> {
      if keys == [] then []
      else Access(Recency(keys[..|keys| - 1], maxBytes), keys[|keys| - 1], maxBytes)
    }
  }

  /** Budget `b` allows at least what budget `a` allows; 0 stands for no limit. */
  predicate AtLeast(a: nat, b: nat) {
    b == 0 || (a != 0 && a <= b)
  }

  // ----- what one access keeps -----

  lemma {:induction false} InWithout(es: seq<Entry>, key: string)
    ensures forall e :: e in Without(es, key) ==> e in es && e.key != key
    ensures DistinctKeys(es) ==> DistinctKeys(Without(es, key))
  {
    if es != [] {
      InWithout(es[1..], key);
      assert forall i :: 0 <= i < |es[1..]| ==> es[1..][i] == es[i + 1];
      var w := Without(es[1..], key);
      if DistinctKeys(es) && es[0].key != key {
        forall j | 0 <= j < |w| ensures w[j].key != es[0].key {
          assert w[j] in es[1..];
        }
      }
    }
  }

  lemma ReplacedKeeps(src: Source, es: seq<Entry>, e: Entry)
    requires src.Coherent(es) && DistinctKeys(es)
    requires src.Caches(e.key) && e == src.EntryFor(e.key)
    ensures src.Coherent(Replaced(es, e)) && DistinctKeys(Replaced(es, e))
  {
    InWithout(es, e.key);
    var w := Without(es, e.key);
    forall i | 0 <= i < |w| ensures src.Caches(w[i].key) && w[i] == src.EntryFor(w[i].key) && w[i].key != e.key {
      assert w[i] in es;
    }
  }

  lemma PrefixKeeps(src: Source, es: seq<Entry>, n: nat)
    requires n <= |es| && src.Coherent(es) && DistinctKeys(es)
    ensures src.Coherent(es[..n]) && DistinctKeys(es[..n])
  {
  }

  lemma AccessKeeps(src: Source, es: seq<Entry>, key: string, maxBytes: nat)
    requires src.Coherent(es) && DistinctKeys(es)
    ensures src.Coherent(src.Access(es, key, maxBytes)) && DistinctKeys(src.Access(es, key, maxBytes))
  {
    if key == "" {
    } else if HasKey(es, key) {
      ReplacedKeeps(src, es, Lookup(es, key));
    } else if src.Caches(key) {
      var long := Replaced(es, src.EntryFor(key));
      ReplacedKeeps(src, es, src.EntryFor(key));
      TrimIsLongestFittingPrefix(long, maxBytes);
      PrefixKeeps(src, long, |Trim(long, maxBytes)|);
    }
  }

  /** The peers leave the key to this node: there are none, they fail, or they return nothing. */
  predicate PeersLeave(src: Source, key: string) {
    src.peers.None? || src.peers.value(key).Failed? || src.peers.value(key) == Fetched([])
  }

  /** What an access leaves cached: the key was there, or it was loaded from the getter without an error
      and its entry fits the budget on its own. An empty key, an error, an oversized entry and data that a
      peer returned are not cached. */
  lemma CachedExactly(src: Source, es: seq<Entry>, key: string, maxBytes: nat)
    requires src.Coherent(es)
    ensures HasKey(src.Access(es, key, maxBytes), key) <==>
      key != "" &&
      (|| HasKey(es, key)
       || (PeersLeave(src, key) && src.getter(key).Fetched?
           && (maxBytes == 0 || |key| + |src.getter(key).data| <= maxBytes)))
  {
    if key == "" {
    } else if HasKey(es, key) {
      assert src.Access(es, key, maxBytes)[0].key == key;
    } else if src.Caches(key) {
      InsertedStaysIffFits(es, src.EntryFor(key), maxBytes);
    }
  }

  lemma InsertedStaysIffFits(es: seq<Entry>, e: Entry, maxBytes: nat)
    ensures HasKey(Trim(Replaced(es, e), maxBytes), e.key) <==> maxBytes == 0 || e.Size() <= maxBytes
  {
    var all := Replaced(es, e);
    var kept := Trim(all, maxBytes);
    TrimIsLongestFittingPrefix(all, maxBytes);
    BytesOfOne(e);
    assert all[..1] == [e];
    if kept != [] {
      assert kept == [e] + kept[1..] && kept[0].key == e.key;
      BytesConcat([e], kept[1..]);
    }
  }

  // ----- the stack property -----

  lemma {:induction false} WithoutPrefix(small: seq<Entry>, large: seq<Entry>, key: string)
    requires small <= large
    ensures Without(small, key) <= Without(large, key)
  {
    if small != [] {
      assert small[1..] <= large[1..];
      WithoutPrefix(small[1..], large[1..], key);
    }
  }

  lemma HasKeyPrefix(small: seq<Entry>, large: seq<Entry>, key: string)
    requires small <= large && HasKey(small, key)
    ensures HasKey(large, key)
  {
    var i :| 0 <= i < |small| && small[i].key == key;
    assert large[i].key == key;
  }

  lemma TrimPrefix(small: seq<Entry>, large: seq<Entry>, a: nat, b: nat)
    requires small <= large && AtLeast(a, b)
    ensures Trim(small, a) <= Trim(large, b)
  {
    TrimIsLongestFittingPrefix(small, a);
    TrimIsLongestFittingPrefix(large, b);
    var m, n := |Trim(small, a)|, |Trim(large, b)|;
    assert Trim(small, a) == small[..m] == large[..m] && Trim(large, b) == large[..n];
    assert !Over(large[..m], b);
  }

  lemma AccessPrefix(src: Source, small: seq<Entry>, large: seq<Entry>, key: string, a: nat, b: nat)
    requires small <= large && AtLeast(a, b)
    requires src.Coherent(large) && DistinctKeys(large)
    ensures src.Access(small, key, a) <= src.Access(large, key, b)
  {
    PrefixKeeps(src, large, |small|);
    assert small == large[..|small|];
    WithoutPrefix(small, large, key);
    if key == "" {
    } else if HasKey(small, key) {
      HasKeyPrefix(small, large, key);
    } else if HasKey(large, key) {
      WithoutAbsent(small, key);
      var kept := Replaced(small, src.EntryFor(key));
      TrimIsLongestFittingPrefix(kept, a);
      assert kept <= Replaced(large, src.EntryFor(key));
      assert Lookup(large, key) in large;
    } else if src.Caches(key) {
      TrimPrefix(Replaced(small, src.EntryFor(key)), Replaced(large, src.EntryFor(key)), a, b);
    }
  }

  lemma {:induction false} RecencyKeeps(src: Source, keys: seq<string>, maxBytes: nat)
    ensures src.Coherent(src.Recency(keys, maxBytes)) && DistinctKeys(src.Recency(keys, maxBytes))
  {
    if keys != [] {
      RecencyKeeps(src, keys[..|keys| - 1], maxBytes);
      AccessKeeps(src, src.Recency(keys[..|keys| - 1], maxBytes), keys[|keys| - 1], maxBytes);
    }
  }

  /** The LRU stack property: after any trace, the recency list of a smaller budget is a prefix of the
      recency list of a larger (or unlimited) one. */
  lemma {:induction false} StackProperty(src: Source, keys: seq<string>, a: nat, b: nat)
    requires AtLeast(a, b)
    ensures src.Recency(keys, a) <= src.Recency(keys, b)
  {
    if keys != [] {
      var before := keys[..|keys| - 1];
      StackProperty(src, before, a, b);
      RecencyKeeps(src, before, b);
      AccessPrefix(src, src.Recency(before, a), src.Recency(before, b), keys[|keys| - 1], a, b);
    }
  }

  /** A bigger cache never turns a hit into a miss. */
  lemma BiggerCacheKeepsHits(src: Source, keys: seq<string>, key: string, a: nat, b: nat)
    requires AtLeast(a, b) && HasKey(src.Recency(keys, a), key)
    ensures HasKey(src.Recency(keys, b), key)
  {
    StackProperty(src, keys, a, b);
    HasKeyPrefix(src.Recency(keys, a), src.Recency(keys, b), key);
  }

  /** After any trace the list fits its budget. */
  lemma {:induction false} RecencyFits(src: Source, keys: seq<string>, maxBytes: nat)
    ensures maxBytes != 0 ==> Bytes(src.Recency(keys, maxBytes)) <= maxBytes
  {
    if keys != [] {
      var before, key := keys[..|keys| - 1], keys[|keys| - 1];
      var es := src.Recency(before, maxBytes);
      RecencyFits(src, before, maxBytes);
      if key == "" {
      } else if HasKey(es, key) {
        RecencyKeeps(src, before, maxBytes);
        var j :| 0 <= j < |es| && es[j].key == key;
        LookupAt(es, j);
        WithoutAt(es, j);
        BytesReplaced(es, j, es[j]);
      } else if src.Caches(key) {
        TrimIsLongestFittingPrefix(Replaced(es, src.EntryFor(key)), maxBytes);
      }
    }
  }
}

/** cache.go and gebcache.go: the lazily created LRU and the group on top of it. */
module Groups {
  import opened GroupSpec
  import opened LruSpec
  import opened Options
  import Lru

  /** cache.go */
  class MainCache {
    var lru: Lru.Cache?
    const cacheBytes: nat

    ghost predicate Valid()
      reads this, lru, if lru == null then {} else {lru.ll} + lru.ll.nodes
    {
      lru != null ==> lru.Valid() && lru.maxBytes == cacheBytes && !lru.onEvicted
    }

    ghost function Contents(): seq<Entry>
      reads this, lru, if lru == null then {} else {lru.ll}
    {
      if lru == null then [] else lru.Contents()
    }

    constructor (cacheBytes: nat)
      ensures Valid() && lru == null && this.cacheBytes == cacheBytes
    {
      this.cacheBytes := cacheBytes;
      lru := null;
    }

    method Add(key: string, value: ByteView)
      requires Valid()
      modifies this, lru, if lru == null then {} else {lru.ll} + lru.ll.nodes
      ensures Valid() && lru != null
      ensures old(lru) != null ==> lru == old(lru) && fresh(lru.ll.nodes - old(lru.ll.nodes))
      ensures old(lru) == null ==> fresh(lru) && fresh(lru.ll) && fresh(lru.ll.nodes)
      ensures Contents() == Trim(Replaced(old(Contents()), Entry(key, value)), cacheBytes)
    {
      if lru == null {
        lru := new Lru.Cache(cacheBytes, false);
      }
      lru.Add(key, value);
    }

    method Get(key: string) returns (value: ByteView, ok: bool)
      requires Valid()
      modifies lru, if lru == null then {} else {lru.ll} + lru.ll.nodes
      ensures Valid() && lru == old(lru)
      ensures lru != null ==> lru.ll.nodes == old(lru.ll.nodes)
      ensures ok == HasKey(old(Contents()), key)
      ensures ok ==> value == Lookup(old(Contents()), key).value
      ensures Contents() == Touched(old(Contents()), key)
    {
      if lru == null {
        return ByteView([]), false;
      }
      value, ok := lru.Get(key);
    }
  }

  /** gebcache.go, one caller at a time. */
  class Group {
    const src: Source
    const mainCache: MainCache

    ghost predicate Valid()
      reads this, mainCache, mainCache.lru
      reads if mainCache.lru == null then {} else {mainCache.lru.ll} + mainCache.lru.ll.nodes
    {
      && mainCache.Valid()
      && src.Coherent(mainCache.Contents()) && DistinctKeys(mainCache.Contents())
    }

    ghost function Contents(): seq<Entry>
      reads this, mainCache, mainCache.lru, if mainCache.lru == null then {} else {mainCache.lru.ll}
    {
      mainCache.Contents()
    }

    constructor (cacheBytes: nat, src: Source)
      ensures Valid() && Contents() == [] && this.src == src && mainCache.cacheBytes == cacheBytes
    {
      this.src := src;
      mainCache := new MainCache(cacheBytes);
    }

    /** The cache is transparent: `Get` answers what an uncached group would, and updates the recency
        list exactly as `Access` says. */
    method Get(key: string) returns (r: Fetch)
      requires Valid()
      modifies mainCache, mainCache.lru
      modifies if mainCache.lru == null then {} else {mainCache.lru.ll} + mainCache.lru.ll.nodes
      ensures Valid()
      ensures r == src.Direct(key)
      ensures key == "" ==> r == Failed("key is required")
      ensures key != "" && PeersLeave(src, key) ==> r == src.getter(key)
      ensures key != "" && !PeersLeave(src, key) ==> r == src.peers.value(key)
      ensures Contents() == src.Access(old(Contents()), key, mainCache.cacheBytes)
    {
      ghost var was := Contents();
      AccessKeeps(src, was, key, mainCache.cacheBytes);
      if key == "" {
        return Failed("key is required");
      }
      var v, ok := mainCache.Get(key);
      if ok {
        assert Lookup(was, key) in was;
        return Fetched(v.b);
      }
      r := Load(key);
    }

    method Load(key: string) returns (r: Fetch)
      requires mainCache.Valid() && key != ""
      modifies mainCache, mainCache.lru
      modifies if mainCache.lru == null then {} else {mainCache.lru.ll} + mainCache.lru.ll.nodes
      ensures mainCache.Valid()
      ensures r == src.Load(key)
      ensures r == if PeersLeave(src, key) then src.getter(key) else src.peers.value(key)
      ensures Contents() == if src.Caches(key)
        then Trim(Replaced(old(Contents()), src.EntryFor(key)), mainCache.cacheBytes) else old(Contents())
    {
      if src.peers.Some? {
        var reply := src.peers.value(key);
        if reply.Fetched? && |reply.data| != 0 {
          return reply;
        }
      }
      r := GetLocally(key);
    }

    method GetLocally(key: string) returns (r: Fetch)
      requires mainCache.Valid()
      modifies mainCache, mainCache.lru
      modifies if mainCache.lru == null then {} else {mainCache.lru.ll} + mainCache.lru.ll.nodes
      ensures mainCache.Valid()
      ensures r == src.getter(key)
      ensures Contents() == if r.Fetched?
        then Trim(Replaced(old(Contents()), Entry(key, ByteView(r.data))), mainCache.cacheBytes)
        else old(Contents())
    {
      r := src.getter(key);
      if r.Fetched? {
        mainCache.Add(key, ByteView(r.data));
      }
    }
  }
}
