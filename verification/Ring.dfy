/** pickers.go: a consistent-hash ring. */
module RingSpec {
  /** Decimal rendering of a non-negative replica number. */
  function Itoa(i: nat): string {
    if i < 10 then [('0' as int + i) as char] else Itoa(i / 10) + [('0' as int + i % 10) as char]
  }

  function Digit(c: char): int {
    c as int - '0' as int
  }

  /** The number that a string of digits stands for. */
  function Decoded(s: string): int {
    if s == "" then 0 else 10 * Decoded(s[..|s| - 1]) + Digit(s[|s| - 1])
  }

  lemma {:induction false} ItoaDecodes(i: nat)
    ensures Decoded(Itoa(i)) == i
    ensures Itoa(i) != "" && forall k :: 0 <= k < |Itoa(i)| ==> 0 <= Digit(Itoa(i)[k]) <= 9
  {
    if i < 10 {
      assert Itoa(i)[..0] == "";
    } else {
      var init, c := Itoa(i / 10), ('0' as int + i % 10) as char;
      ItoaDecodes(i / 10);
      assert Itoa(i) == init + [c] && (init + [c])[..|init|] == init;
    }
  }

  /** Different replica numbers are written differently. */
  lemma ItoaInjective(i: nat, j: nat)
    requires Itoa(i) == Itoa(j)
    ensures i == j
  {
    ItoaDecodes(i);
    ItoaDecodes(j);
  }

  type Hash = string -> nat

  function Point(hash: Hash, i: nat, node: string): nat {
    hash(Itoa(i) + node)
  }

  /** The ring points of a node: the hash of every replica number, 0 to `replicas` included, followed
      by the node's name. */
  ghost predicate HasPoint(hash: Hash, replicas: int, node: string, p: int) {
    exists i: nat :: i <= replicas && p == Point(hash, i, node)
  }

  /** The owners after adding the first `n` points of `node`: a later writer takes a point over. */
  function Written(hash: Hash, owners: map<int, string>, node: string, n: nat): map<int, string> {
    if n == 0 then owners else Written(hash, owners, node, n - 1)[Point(hash, n - 1, node) := node]
  }

  function Count(replicas: int): nat {
    if replicas < 0 then 0 else replicas + 1
  }

  function Owners(hash: Hash, replicas: int, owners: map<int, string>, nodes: seq<string>): map<int, string> {
    if nodes == [] then owners
    else Written(hash, Owners(hash, replicas, owners, nodes[..|nodes| - 1]), nodes[|nodes| - 1], Count(replicas))
  }

  /** `p` is the first point at or after `h`, going round past the largest point to the smallest. */
  ghost predicate IsSuccessor(points: set<int>, h: int, p: int) {
    && p in points
    && if h <= p then forall q :: q in points && h <= q ==> p <= q
       else forall q :: q in points ==> q < h && p <= q
  }

  /** What a ring answers for the hash value `h`: the owner of the circular successor. */
  ghost predicate Answers(owners: map<int, string>, h: int, node: string) {
    if owners == map[] then node == ""
    else exists p :: IsSuccessor(owners.Keys, h, p) && node == owners[p]
  }

  lemma SuccessorUnique(points: set<int>, h: int, p: int, q: int)
    requires IsSuccessor(points, h, p) && IsSuccessor(points, h, q)
    ensures p == q
  {
  }

  lemma LeastOf(points: set<int>) returns (p: int)
    requires points != {}
    ensures p in points && forall q :: q in points ==> p <= q
  {
    assert (forall q :: q !in points) ==> points == {};
    p :| p in points;
    var rest := points - {p};
    if rest == {} {
      assert forall x :: x in points ==> x == p || x in rest;
    } else {
      var q := LeastOf(rest);
      assert forall x :: x in points ==> x == p || x in rest;
      if q < p {
        p := q;
      }
    }
  }

  lemma SuccessorExists(points: set<int>, h: int) returns (p: int)
    requires points != {}
    ensures IsSuccessor(points, h, p)
  {
    var after := set q | q in points && h <= q;
    p := LeastOf(if after == {} then points else after);
    forall q | q in points ensures if h <= p then h <= q ==> p <= q else q < h && p <= q {
      assert h <= q <==> q in after;
    }
  }

  /** The answer is a function of the owners and the hash value. */
  lemma AnswerDefined(owners: map<int, string>, h: int) returns (node: string)
    ensures Answers(owners, h, node)
    ensures forall other :: Answers(owners, h, other) ==> other == node
  {
    if owners == map[] {
      node := "";
    } else {
      assert owners.Keys == {} ==> owners == map[];
      var p := SuccessorExists(owners.Keys, h);
      node := owners[p];
      forall q | IsSuccessor(owners.Keys, h, q) ensures q == p {
        SuccessorUnique(owners.Keys, h, p, q);
      }
    }
  }

  // ----- what adding nodes writes -----

  lemma {:induction false} WrittenIs(hash: Hash, owners: map<int, string>, node: string, n: nat)
    ensures var w := Written(hash, owners, node, n);
      && (forall p :: p in w <==> p in owners || p in PointSet(hash, node, n))
      && (forall p :: p in w ==> w[p] == if p in PointSet(hash, node, n) then node else owners[p])
  {
    if n > 0 {
      WrittenIs(hash, owners, node, n - 1);
      assert PointSet(hash, node, n) == PointSet(hash, node, n - 1) + {Point(hash, n - 1, node)};
    }
  }

  ghost function PointSet(hash: Hash, node: string, n: nat): set<int> {
    set i | 0 <= i < n :: Point(hash, i, node)
  }

  lemma PointSetIs(hash: Hash, replicas: int, node: string, p: int)
    ensures p in PointSet(hash, node, Count(replicas)) <==> HasPoint(hash, replicas, node, p)
  {
    if p in PointSet(hash, node, Count(replicas)) {
      var i: nat :| i < Count(replicas) && p == Point(hash, i, node);
      assert i <= replicas;
    }
  }

  lemma {:induction false} OwnersIs(hash: Hash, replicas: int, owners: map<int, string>, nodes: seq<string>)
    ensures var w := Owners(hash, replicas, owners, nodes);
      && (forall p :: p in owners ==> p in w)
      && (forall p :: p in w ==>
            (p in owners && w[p] == owners[p]) || (w[p] in nodes && HasPoint(hash, replicas, w[p], p)))
      && (forall p, node :: node in nodes && HasPoint(hash, replicas, node, p) ==> p in w && w[p] in nodes)
  {
    if nodes != [] {
      var before, node := nodes[..|nodes| - 1], nodes[|nodes| - 1];
      var mid := Owners(hash, replicas, owners, before);
      OwnersIs(hash, replicas, owners, before);
      WrittenIs(hash, mid, node, Count(replicas));
      forall p ensures p in PointSet(hash, node, Count(replicas)) <==> HasPoint(hash, replicas, node, p) {
        PointSetIs(hash, replicas, node, p);
      }
      assert nodes == before + [node];
    }
  }

  /** Minimal disruption: adding nodes moves a hash value only to one of the added nodes. */
  lemma MinimalDisruption(hash: Hash, replicas: int, owners: map<int, string>, added: seq<string>, h: int,
                          was: string, now: string)
    requires Answers(owners, h, was)
    requires Answers(Owners(hash, replicas, owners, added), h, now)
    ensures now == was || now in added
  {
    var w := Owners(hash, replicas, owners, added);
    OwnersIs(hash, replicas, owners, added);
    if w != map[] {
      var p :| IsSuccessor(w.Keys, h, p) && now == w[p];
      if p in owners {
        assert IsSuccessor(owners.Keys, h, p);
        assert forall q :: IsSuccessor(owners.Keys, h, q) ==> q == p;
      }
    } else {
      assert forall p :: p in owners ==> p in w;
      assert owners == map[];
    }
  }

  ghost predicate SharePoint(hash: Hash, replicas: int, a: string, b: string) {
    a != b && exists p :: HasPoint(hash, replicas, a, p) && HasPoint(hash, replicas, b, p)
  }

  lemma SameOwners(hash: Hash, replicas: int, xs: seq<string>, ys: seq<string>)
    requires forall n :: n in xs <==> n in ys
    requires forall a, b :: a in xs && b in xs ==> !SharePoint(hash, replicas, a, b)
    ensures Owners(hash, replicas, map[], xs) == Owners(hash, replicas, map[], ys)
  {
    var v, w := Owners(hash, replicas, map[], xs), Owners(hash, replicas, map[], ys);
    OwnersIs(hash, replicas, map[], xs);
    OwnersIs(hash, replicas, map[], ys);
    forall p | p in v ensures p in w && v[p] == w[p] {
      assert HasPoint(hash, replicas, v[p], p);
      assert !SharePoint(hash, replicas, v[p], w[p]);
    }
    forall p | p in w ensures p in v {
      assert HasPoint(hash, replicas, w[p], p);
    }
  }

  ghost predicate SameNodes(xs: seq<string>, ys: seq<string>) {
    forall x :: x in xs <==> x in ys
  }

  ghost predicate PointsApart(hash: Hash, replicas: int, xs: seq<string>) {
    forall x, y :: x in xs && y in xs ==> !SharePoint(hash, replicas, x, y)
  }

  /** Two rings answer alike for every hash value. */
  ghost predicate Agree(v: map<int, string>, w: map<int, string>) {
    forall h, m, n :: Answers(v, h, m) && Answers(w, h, n) ==> m == n
  }

  /** Every listing of the same nodes, in any order and with any repetition, gives the same answers exactly
      when no two of the nodes share a ring point. */
  lemma OrderMattersIffPointShared(hash: Hash, replicas: int, xs: seq<string>)
    ensures PointsApart(hash, replicas, xs) <==>
      forall ys :: SameNodes(xs, ys) ==> Agree(Owners(hash, replicas, map[], xs), Owners(hash, replicas, map[], ys))
  {
    var v := Owners(hash, replicas, map[], xs);
    if PointsApart(hash, replicas, xs) {
      forall ys | SameNodes(xs, ys) ensures Agree(v, Owners(hash, replicas, map[], ys)) {
        SameOwners(hash, replicas, xs, ys);
        OneAnswer(v);
      }
    } else {
      var ys := Relisted(hash, replicas, xs);
      assert SameNodes(xs, ys);
    }
  }

  lemma OneAnswer(v: map<int, string>)
    ensures Agree(v, v)
  {
    forall h, m, n | Answers(v, h, m) && Answers(v, h, n) ensures m == n {
      var node := AnswerDefined(v, h);
    }
  }

  /** When two of the nodes share a point, listing the one that does not own it once more at the end makes
      a ring that answers differently there. */
  lemma Relisted(hash: Hash, replicas: int, xs: seq<string>) returns (ys: seq<string>)
    requires !PointsApart(hash, replicas, xs)
    ensures SameNodes(xs, ys) && !Agree(Owners(hash, replicas, map[], xs), Owners(hash, replicas, map[], ys))
  {
    var x, y :| x in xs && y in xs && SharePoint(hash, replicas, x, y);
    var p :| HasPoint(hash, replicas, x, p) && HasPoint(hash, replicas, y, p);
    var v := Owners(hash, replicas, map[], xs);
    OwnersIs(hash, replicas, map[], xs);
    var other := if v[p] == x then y else x;
    ys := xs + [other];
    LastWriterOwns(hash, replicas, map[], ys, |xs|, p);
    var w := Owners(hash, replicas, map[], ys);
    assert IsSuccessor(v.Keys, p, p) && IsSuccessor(w.Keys, p, p);
    assert Answers(v, p, v[p]) && Answers(w, p, other);
  }

  /** Adding nodes in several calls is adding them all in one. */
  lemma {:induction false} AddInBatches(hash: Hash, replicas: int, owners: map<int, string>,
                                        xs: seq<string>, ys: seq<string>)
    ensures Owners(hash, replicas, Owners(hash, replicas, owners, xs), ys) == Owners(hash, replicas, owners, xs + ys)
  {
    if ys == [] {
      assert xs + ys == xs;
    } else {
      var before := ys[..|ys| - 1];
      AddInBatches(hash, replicas, owners, xs, before);
      assert (xs + ys)[..|xs + ys| - 1] == xs + before;
    }
  }

  /** Peers that were given the same nodes, in any order and with any repetition, send every hash value
      to the same node when no two of these nodes share a ring point. */
  lemma PeersAgree(hash: Hash, replicas: int, xs: seq<string>, ys: seq<string>, h: int, m: string, n: string)
    requires SameNodes(xs, ys) && PointsApart(hash, replicas, xs)
    requires Answers(Owners(hash, replicas, map[], xs), h, m)
    requires Answers(Owners(hash, replicas, map[], ys), h, n)
    ensures m == n
  {
    SameOwners(hash, replicas, xs, ys);
    var node := AnswerDefined(Owners(hash, replicas, map[], xs), h);
  }

  /** A point belongs to the node that was added last among those that have it. */
  lemma {:induction false} LastWriterOwns(hash: Hash, replicas: int, owners: map<int, string>, nodes: seq<string>,
                                          i: nat, p: int)
    requires i < |nodes| && HasPoint(hash, replicas, nodes[i], p)
    requires forall j :: i < j < |nodes| ==> !HasPoint(hash, replicas, nodes[j], p)
    ensures var w := Owners(hash, replicas, owners, nodes); p in w && w[p] == nodes[i]
    decreases |nodes|
  {
    var before, node := nodes[..|nodes| - 1], nodes[|nodes| - 1];
    PointSetIs(hash, replicas, node, p);
    WrittenIs(hash, Owners(hash, replicas, owners, before), node, Count(replicas));
    if i < |nodes| - 1 {
      LastWriterOwns(hash, replicas, owners, before, i, p);
    }
  }
}

module Ring {
  import opened RingSpec

  const DEFAULT_REPLICAS := 10

  ghost predicate Sorted(s: seq<int>) {
    forall i, j :: 0 <= i < j < |s| ==> s[i] <= s[j]
  }

  lemma SameElements(s: seq<int>, r: seq<int>)
    requires multiset(s) == multiset(r)
    ensures |s| == |r| && forall p :: p in r <==> p in s
  {
    assert |multiset(s)| == |multiset(r)|;
    forall p ensures p in r <==> p in s {
      assert p in r <==> p in multiset(r);
      assert p in s <==> p in multiset(s);
    }
  }

  lemma MulStep(k: nat, c: nat)
    ensures (k + 1) * c == k * c + c
  {
  }

  lemma AllPointsOwned(hash: Hash, replicas: int, owners: map<int, string>, nodes: seq<string>)
    ensures var w := Owners(hash, replicas, owners, nodes);
      && (forall k, i :: 0 <= k < |nodes| && 0 <= i <= replicas ==>
            hash(Itoa(i) + nodes[k]) in w && w[hash(Itoa(i) + nodes[k])] in nodes)
      && (forall p :: p in owners ==> p in w && (w[p] == owners[p] || w[p] in nodes))
  {
    OwnersIs(hash, replicas, owners, nodes);
    forall k, i | 0 <= k < |nodes| && 0 <= i <= replicas
      ensures HasPoint(hash, replicas, nodes[k], hash(Itoa(i) + nodes[k])) && nodes[k] in nodes
    {
      assert hash(Itoa(i) + nodes[k]) == Point(hash, i, nodes[k]);
    }
  }

  class ConsistentHashPicker {
    const hash: Hash
    const replicas: int
    var keys: seq<int>
    var hashMap: map<int, string>

    /** The ring points are sorted, and they are exactly the points some node owns. */
    ghost predicate Valid()
      reads this
    {
      Sorted(keys) && (forall p :: p in keys <==> p in hashMap)
    }

    constructor (replicas: int, hash: Hash)
      ensures Valid() && hashMap == map[] && this.hash == hash
      ensures this.replicas == if replicas == 0 then DEFAULT_REPLICAS else replicas
    {
      this.replicas := if replicas == 0 then DEFAULT_REPLICAS else replicas;
      this.hash := hash;
      keys, hashMap := [], map[];
    }

    method Add(nodes: seq<string>)
      requires Valid()
      modifies this
      ensures Valid()
      ensures hashMap == Owners(hash, replicas, old(hashMap), nodes)
      ensures |keys| == |old(keys)| + |nodes| * Count(replicas)
      ensures forall k, i :: 0 <= k < |nodes| && 0 <= i <= replicas ==>
        hash(Itoa(i) + nodes[k]) in hashMap && hashMap[hash(Itoa(i) + nodes[k])] in nodes
      ensures forall p :: p in old(hashMap) ==> p in hashMap && (hashMap[p] == old(hashMap)[p] || hashMap[p] in nodes)
    {
      for k := 0 to |nodes|
        invariant forall p :: p in keys <==> p in hashMap
        invariant hashMap == Owners(hash, replicas, old(hashMap), nodes[..k])
        invariant |keys| == |old(keys)| + k * Count(replicas)
      {
        var i := 0;
        ghost var before := hashMap;
        assert nodes[..k + 1][..k] == nodes[..k];
        while i <= replicas
          invariant 0 <= i <= Count(replicas)
          invariant forall p :: p in keys <==> p in hashMap
          invariant hashMap == Written(hash, before, nodes[k], i)
          invariant |keys| == |old(keys)| + k * Count(replicas) + i
        {
          var h := hash(Itoa(i) + nodes[k]);
          keys := keys + [h];
          hashMap := hashMap[h := nodes[k]];
          i := i + 1;
        }
        MulStep(k, Count(replicas));
      }
      assert nodes[..|nodes|] == nodes;
      var sorted := SortInts(keys);
      SameElements(keys, sorted);
      keys := sorted;
      AllPointsOwned(hash, replicas, old(hashMap), nodes);
    }

    /** The first index whose point is at or after `h`, or the length if there is none. */
    method Search(h: int) returns (idx: nat)
      requires Sorted(keys)
      ensures idx <= |keys|
      ensures forall i :: 0 <= i < idx ==> keys[i] < h
      ensures forall i :: idx <= i < |keys| ==> h <= keys[i]
    {
      var lo, hi := 0, |keys|;
      while lo < hi
        invariant 0 <= lo <= hi <= |keys|
        invariant forall i :: 0 <= i < lo ==> keys[i] < h
        invariant forall i :: hi <= i < |keys| ==> h <= keys[i]
      {
        var mid := (lo + hi) / 2;
        if keys[mid] >= h {
          hi := mid;
        } else {
          lo := mid + 1;
        }
      }
      return lo;
    }

    lemma FoundIsSuccessor(h: int, idx: nat)
      requires Valid() && 0 < |keys| && idx <= |keys|
      requires forall i :: 0 <= i < idx ==> keys[i] < h
      requires forall i :: idx <= i < |keys| ==> h <= keys[i]
      ensures IsSuccessor(hashMap.Keys, h, keys[idx % |keys|])
    {
      var p := keys[idx % |keys|];
      assert p in keys;
      assert idx % |keys| == if idx < |keys| then idx else 0;
      forall q | q in hashMap.Keys ensures if h <= p then h <= q ==> p <= q else q < h && p <= q {
        assert q in keys;
        var i :| 0 <= i < |keys| && keys[i] == q;
      }
    }

    method Pick(key: string) returns (node: string)
      requires Valid()
      ensures Answers(hashMap, hash(key), node)
      ensures hashMap == map[] ==> node == ""
      ensures hash(key) in hashMap ==> node == hashMap[hash(key)]
    {
      if |keys| == 0 {
        assert forall p :: p in hashMap ==> p in keys;
        return "";
      }
      var h := hash(key);
      var idx := Search(h);
      FoundIsSuccessor(h, idx);
      return hashMap[keys[idx % |keys|]];
    }
  }

  function InsertedAt(r: seq<int>, j: nat, x: int): seq<int>
    requires j <= |r|
  {
    r[..j] + [x] + r[j..]
  }

  lemma InsertedAtSorted(r: seq<int>, j: nat, x: int)
    requires Sorted(r) && j <= |r|
    requires j > 0 ==> r[j - 1] <= x
    requires forall i :: j <= i < |r| ==> x <= r[i]
    ensures Sorted(InsertedAt(r, j, x))
  {
    var r' := InsertedAt(r, j, x);
    assert forall i :: 0 <= i < |r'| ==> r'[i] == if i < j then r[i] else if i == j then x else r[i - 1];
  }

  lemma InsertedAtElements(r: seq<int>, j: nat, x: int)
    requires j <= |r|
    ensures multiset(InsertedAt(r, j, x)) == multiset(r) + multiset{x}
  {
    assert r == r[..j] + r[j..];
  }

  method InsertSorted(r: seq<int>, x: int) returns (r': seq<int>)
    requires Sorted(r)
    ensures Sorted(r') && multiset(r') == multiset(r) + multiset{x}
  {
    var j := |r|;
    while j > 0 && r[j - 1] > x
      invariant 0 <= j <= |r|
      invariant forall k :: j <= k < |r| ==> x <= r[k]
    {
      j := j - 1;
    }
    InsertedAtSorted(r, j, x);
    InsertedAtElements(r, j, x);
    hide InsertedAt, Sorted;
    r' := InsertedAt(r, j, x);
  }

  /** sort.Ints: the same integers in ascending order. */
  method SortInts(s: seq<int>) returns (r: seq<int>)
    ensures Sorted(r) && multiset(r) == multiset(s)
  {
    r := [];
    for i := 0 to |s|
      invariant Sorted(r) && multiset(r) == multiset(s[..i])
    {
      assert s[..i + 1] == s[..i] + [s[i]];
      r := InsertSorted(r, s[i]);
    }
    assert s[..|s|] == s;
  }
}
