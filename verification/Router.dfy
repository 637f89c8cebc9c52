/** router.go: the trie of heap nodes behind `Routes`. */
module Router {
  import opened Options
  import opened Patterns
  import opened Routes

  datatype RouteError = BadMethod | BadPattern | BadPath

  class Node {
    const part: string
    var midwirs: seq<Handler>
    var handlers: seq<Option<Handler>>
    var children: seq<Node>

    constructor (part: string)
      ensures this.part == part && midwirs == [] && handlers == [] && children == []
    {
      this.part, midwirs, handlers, children := part, [], [], [];
    }

    function HandlerFor(m: int): Option<Handler>
      reads this`handlers
    {
      if 0 <= m < |handlers| then handlers[m] else None
    }

    /** The node carries exactly what the flat table says for `q`. */
    ghost predicate Shows(r: Routes, q: seq<string>)
      reads this`midwirs, this`handlers
    {
      midwirs == r.MidsAt(q) && forall m :: HandlerFor(m) == r.HandlerAt(q, m)
    }

    /** Make room for method `m`, then set its handler. */
    method SetHandler(m: nat, handler: Option<Handler>, ghost r: Routes, ghost q: seq<string>)
      requires Shows(r, q)
      modifies this`handlers
      ensures Shows(r.(table := r.table[(q, m) := handler]), q)
    {
      if m > |handlers| - 1 {
        var ha := seq(m + 1, _ => None);
        for i := 0 to |handlers|
          invariant |ha| == m + 1
          invariant forall j :: 0 <= j < |ha| ==> ha[j] == if j < i then handlers[j] else None
        {
          ha := ha[i := handlers[i]];
        }
        handlers := ha;
      }
      handlers := handlers[m := handler];
      ghost var r' := r.(table := r.table[(q, m) := handler]);
      forall k ensures HandlerFor(k) == r'.HandlerAt(q, k) {
        assert old(HandlerFor(k)) == r.HandlerAt(q, k);
      }
    }

    method AddMids(hs: seq<Handler>, ghost r: Routes, ghost q: seq<string>)
      requires Shows(r, q)
      modifies this`midwirs
      ensures Shows(r.(mids := r.mids[q := r.MidsAt(q) + hs]), q)
    {
      midwirs := midwirs + hs;
    }
  }

  // ----- the shape of the trie: its nodes and their children, by the segments that lead to them -----

  type Nodes = map<seq<string>, Node>
  type Kids = map<seq<string>, seq<Node>>

  /** A node stands below its parent and carries the last segment. */
  ghost predicate PathOk(nodes: Nodes, kids: Kids, q: seq<string>)
    requires q in nodes
  {
    && q != [] && q[0] == "/" && GoodPrefix(q) && nodes[q].part == q[|q| - 1]
    && (|q| > 1 ==> q[..|q| - 1] in nodes && q[..|q| - 1] in kids && nodes[q] in kids[q[..|q| - 1]])
  }

  /** The children of a node are the nodes one segment further down, with distinct parts. */
  ghost predicate ChildrenOk(nodes: Nodes, kids: Kids, q: seq<string>)
    requires q in kids
  {
    && (forall i :: 0 <= i < |kids[q]| ==>
          q + [kids[q][i].part] in nodes && nodes[q + [kids[q][i].part]] == kids[q][i])
    && (forall i, j :: 0 <= i < j < |kids[q]| ==> kids[q][i].part != kids[q][j].part)
  }

  ghost predicate Shape(nodes: Nodes, kids: Kids) {
    && (forall q :: q in nodes <==> q in kids)
    && (forall q, q' :: q in nodes && q' in nodes && nodes[q] == nodes[q'] ==> q == q')
    && (forall q :: q in nodes ==> PathOk(nodes, kids, q))
    && (forall q :: q in kids ==> ChildrenOk(nodes, kids, q))
  }

  ghost function Grown(kids: Kids, q: seq<string>, p: string, c: Node): Kids
    requires q in kids
  {
    kids[q := kids[q] + [c]][q + [p] := []]
  }

  lemma GrowKeepsPaths(nodes: Nodes, kids: Kids, q: seq<string>, p: string, c: Node, x: seq<string>)
    requires (forall y :: y in nodes <==> y in kids) && q in nodes && q + [p] !in nodes
    requires GoodPrefix(q + [p]) && c.part == p
    requires PathOk(nodes, kids, q) && (x in nodes ==> PathOk(nodes, kids, x)) && (x in nodes || x == q + [p])
    ensures PathOk(nodes[q + [p] := c], Grown(kids, q, p, c), x)
  {
    if x == q + [p] {
      assert x[..|x| - 1] == q && c == Grown(kids, q, p, c)[q][|kids[q]|];
    }
  }

  lemma GrowKeepsChildren(nodes: Nodes, kids: Kids, q: seq<string>, p: string, c: Node, x: seq<string>)
    requires (forall y :: y in nodes <==> y in kids) && q in nodes && q + [p] !in nodes && c.part == p
    requires (x in kids ==> ChildrenOk(nodes, kids, x)) && (x in kids || x == q + [p])
    ensures ChildrenOk(nodes[q + [p] := c], Grown(kids, q, p, c), x)
  {
  }

  lemma GrowKeepsShape(nodes: Nodes, kids: Kids, q: seq<string>, p: string, c: Node)
    requires Shape(nodes, kids) && q in nodes && q + [p] !in nodes && GoodPrefix(q + [p])
    requires c.part == p && forall x :: x in nodes ==> nodes[x] != c
    ensures Shape(nodes[q + [p] := c], Grown(kids, q, p, c))
  {
    hide PathOk, ChildrenOk, GoodPrefix;
    var nodes', kids' := nodes[q + [p] := c], Grown(kids, q, p, c);
    forall x | x in nodes' ensures PathOk(nodes', kids', x) && ChildrenOk(nodes', kids', x) {
      GrowKeepsPaths(nodes, kids, q, p, c, x);
      GrowKeepsChildren(nodes, kids, q, p, c, x);
    }
  }

  lemma ParentIsNode(nodes: Nodes, kids: Kids, x: seq<string>)
    requires Shape(nodes, kids) && x in nodes && |x| > 1
    ensures x[..|x| - 1] in nodes
  {
    assert PathOk(nodes, kids, x);
  }

  lemma {:induction false} PrefixesAreNodes(nodes: Nodes, kids: Kids, x: seq<string>, n: nat)
    requires Shape(nodes, kids) && 0 < n <= |x|
    ensures x in nodes ==> x[..n] in nodes
    decreases |x|
  {
    hide Shape;
    assert x[..|x|] == x;
    if x in nodes && n < |x| {
      ParentIsNode(nodes, kids, x);
      PrefixesAreNodes(nodes, kids, x[..|x| - 1], n);
      assert x[..|x| - 1][..n] == x[..n];
    }
  }

  lemma OneNodePerPath(nodes: Nodes, kids: Kids, q: seq<string>)
    requires Shape(nodes, kids) && q in nodes
    ensures q in kids && forall x :: x in nodes && x != q ==> nodes[x] != nodes[q]
  {
  }

  lemma PlantKeepsShape(c: Node)
    requires c.part == "/"
    ensures Shape(map[["/"] := c], map[["/"] := []])
  {
    assert PathOk(map[["/"] := c], map[["/"] := []], ["/"]);
  }

  lemma ChildListed(nodes: Nodes, kids: Kids, q: seq<string>, p: string)
    requires Shape(nodes, kids) && q in nodes
    ensures ChildrenOk(nodes, kids, q)
    ensures q + [p] in nodes ==> nodes[q + [p]] in kids[q] && nodes[q + [p]].part == p
  {
    if q + [p] in nodes {
      assert PathOk(nodes, kids, q + [p]) && (q + [p])[..|q|] == q;
    }
  }

  class DefaultRouter {
    var root: Node?
    ghost var nodes: Nodes
    ghost var kids: Kids
    ghost var repr: set<Node>
    ghost var routes: Routes

    ghost predicate Linked()
      reads this, repr
    {
      && (root == null ==> nodes == map[])
      && (root != null ==> ["/"] in nodes && nodes[["/"]] == root)
      && Shape(nodes, kids)
      && (forall q :: q in nodes ==> nodes[q] in repr && nodes[q].children == kids[q])
    }

    /** The nodes carry exactly what the flat table says. */
    ghost predicate Carries()
      reads this, repr
    {
      && Sound(routes)
      && (forall q :: q in nodes ==> nodes[q] in repr && nodes[q].Shows(routes, q))
      && (forall q, m :: (q, m) in routes.table ==> q in nodes)
      && (forall q :: q in routes.mids ==> q in nodes)
    }

    ghost predicate Valid()
      reads this, repr
    {
      Linked() && Carries()
    }

    constructor ()
      ensures Valid() && routes == Empty && fresh(repr)
    {
      root, nodes, kids, repr, routes := null, map[], map[], {}, Empty;
    }

    /** The child of `n` with the given part, if there is one. */
    method FindChild(n: Node, p: string, ghost q: seq<string>) returns (c: Node?)
      requires Linked() && q in nodes && nodes[q] == n
      ensures c == null <==> q + [p] !in nodes
      ensures c != null ==> c == nodes[q + [p]]
    {
      ChildListed(nodes, kids, q, p);
      var i := 0;
      while i < |n.children|
        invariant 0 <= i <= |n.children|
        invariant forall j :: 0 <= j < i ==> n.children[j].part != p
      {
        if n.children[i].part == p {
          return n.children[i];
        }
        i := i + 1;
      }
      return null;
    }

    /** Append a new, empty node below `n`. */
    method AddChild(n: Node, p: string, ghost q: seq<string>) returns (c: Node)
      requires Linked() && q in nodes && nodes[q] == n
      requires q + [p] !in nodes && GoodPrefix(q + [p])
      modifies this, n`children
      ensures Linked() && repr == old(repr) + {c} && fresh(c)
      ensures routes == old(routes)
      ensures nodes == old(nodes)[q + [p] := c]
      ensures c.midwirs == [] && c.handlers == []
    {
      hide Shape;
      c := new Node(p);
      OneNodePerPath(nodes, kids, q);
      GrowKeepsShape(nodes, kids, q, p, c);
      n.children := n.children + [c];
      nodes, kids, repr := nodes[q + [p] := c], Grown(kids, q, p, c), repr + {c};
    }

    /** Appending an empty node keeps what the nodes carry. */
    method Append(n: Node, p: string, ghost q: seq<string>) returns (c: Node)
      requires Valid() && q in nodes && nodes[q] == n
      requires q + [p] !in nodes && GoodPrefix(q + [p])
      modifies this, n`children
      ensures Valid() && repr == old(repr) + {c} && fresh(c)
      ensures routes == old(routes)
      ensures nodes == old(nodes)[q + [p] := c]
    {
      hide Shape, Sound, Node.Shows;
      NothingAt(q + [p]);
      c := AddChild(n, p, q);
      EmptyShows(c, q + [p]);
    }

    lemma NothingAt(q: seq<string>)
      requires Carries() && q !in nodes
      ensures routes.MidsAt(q) == [] && forall m :: routes.HandlerAt(q, m) == None
    {
    }

    lemma EmptyShows(c: Node, q: seq<string>)
      requires routes.MidsAt(q) == [] && forall m :: routes.HandlerAt(q, m) == None
      requires c.midwirs == [] && c.handlers == []
      ensures c.Shows(routes, q)
    {
    }

    /** The node for `ps`, created with every missing node on the way. */
    method UpdateTree(ps: seq<string>) returns (n: Node)
      requires Valid() && ps != [] && ps[0] == "/" && GoodPrefix(ps)
      modifies this, repr
      ensures Valid() && fresh(repr - old(repr)) && routes == old(routes)
      ensures ps in nodes && n == nodes[ps]
    {
      hide Shape, Sound, Node.Shows, GoodPrefix;
      if root == null {
        Plant();
      }
      n := root;
      assert ps[..1] == ["/"];
      for k := 1 to |ps|
        invariant Valid() && fresh(repr - old(repr)) && routes == old(routes)
        invariant ps[..k] in nodes && nodes[ps[..k]] == n
      {
        assert ps[..k + 1] == ps[..k] + [ps[k]];
        var c := FindChild(n, ps[k], ps[..k]);
        if c == null {
          PrefixIsGood(ps, k + 1);
          c := Append(n, ps[k], ps[..k]);
        }
        n := c;
      }
      assert ps[..|ps|] == ps;
    }

    method Plant()
      requires Valid() && root == null
      modifies this
      ensures Valid() && fresh(repr - old(repr)) && routes == old(routes)
      ensures root != null
    {
      hide Shape, Sound, Node.Shows;
      NothingAt(["/"]);
      root := new Node("/");
      PlantKeepsShape(root);
      EmptyShows(root, ["/"]);
      nodes, kids, repr := map[["/"] := root], map[["/"] := []], {root};
    }

    /** What a registration answers: an error, or None. */
    static function Refusal(op: Op): Option<RouteError> {
      if Accepted(op) then None
      else match op
        case AddHandler(method_, _, _) => Some(if MethodToInt(method_) < 0 then BadMethod else BadPattern)
        case AddMiddlewire(_, _) => Some(BadPath)
    }

    method AddHandler(method_: string, patten: string, handler: Option<Handler>) returns (err: Option<RouteError>)
      requires Valid()
      modifies this, repr
      ensures Valid() && fresh(repr - old(repr))
      ensures routes == ApplyOp(old(routes), Op.AddHandler(method_, patten, handler))
      ensures err == Refusal(Op.AddHandler(method_, patten, handler))
    {
      hide Shape, Sound, Node.Shows, GoodPattern, GoodPrefix, IsValidPatten, SplitP, Split, IndexOf;
      var m := MethodToInt(method_);
      if m < 0 {
        return Some(BadMethod);
      }
      if !IsValidPatten(patten) {
        return Some(BadPattern);
      }
      var ps := SplitP(patten);
      ValidPattenIsGood(patten);
      GoodIsRooted(ps);
      var n := UpdateTree(ps);
      SetHandler(n, ps, m, handler);
      return None;
    }

    lemma OthersShow(r: Routes, q: seq<string>)
      requires Valid() && q in nodes
      requires forall x :: x != q ==> r.MidsAt(x) == routes.MidsAt(x)
      requires forall x, m :: x != q ==> r.HandlerAt(x, m) == routes.HandlerAt(x, m)
      ensures forall x :: x in nodes && x != q ==> nodes[x] != nodes[q] && nodes[x].Shows(r, x)
    {
      OneNodePerPath(nodes, kids, q);
      hide Shape;
      assert forall x :: x in nodes ==> nodes[x].Shows(routes, x);
    }

    lemma ShowsHere(q: seq<string>)
      requires Valid() && q in nodes
      ensures nodes[q] in repr && nodes[q].Shows(routes, q)
    {
    }

    method SetHandler(n: Node, ghost ps: seq<string>, m: int, handler: Option<Handler>)
      requires Valid() && ps in nodes && nodes[ps] == n && GoodPattern(ps) && 0 <= m <= 1
      modifies this`routes, n`handlers
      ensures Valid() && routes == old(routes).(table := old(routes).table[(ps, m) := handler])
    {
      hide Shape, Sound, GoodPattern, Node.Shows;
      ghost var r := routes.(table := routes.table[(ps, m) := handler]);
      OthersShow(r, ps);
      ShowsHere(ps);
      SoundWithHandler(routes, ps, m, handler);
      n.SetHandler(m, handler, routes, ps);
      routes := r;
    }

    method AddMiddlewire(path: string, handlers: seq<Handler>) returns (err: Option<RouteError>)
      requires Valid()
      modifies this, repr
      ensures Valid() && fresh(repr - old(repr))
      ensures routes == ApplyOp(old(routes), Op.AddMiddlewire(path, handlers))
      ensures err == Refusal(Op.AddMiddlewire(path, handlers))
    {
      hide Shape, Sound, Node.Shows, GoodPrefix, SplitP, Split, IndexOf, PlainPath;
      AcceptedPath(path, handlers);
      var ps := SplitP(path);
      if |path| > 0 && path[0] != '/' {
        return Some(BadPath);
      }
      if |ps| == 0 || IndexOf(path, '.') >= 0 || IndexOf(path, '*') >= 0 {
        return Some(BadPath);
      }
      SoundWithMids(Empty, ps, handlers);
      var n := UpdateTree(ps);
      AddMids(n, ps, handlers);
      return None;
    }

    /** The checks of AddMiddlewire accept exactly the plain paths. */
    lemma AcceptedPath(path: string, handlers: seq<Handler>)
      ensures Accepted(Op.AddMiddlewire(path, handlers)) <==>
        !(|path| > 0 && path[0] != '/') && SplitP(path) != [] && IndexOf(path, '.') < 0 && IndexOf(path, '*') < 0
      ensures Accepted(Op.AddMiddlewire(path, handlers)) ==> PlainPath(SplitP(path)) && SplitP(path)[0] == "/"
    {
      SplitStep(path);
      if Accepted(Op.AddMiddlewire(path, handlers)) {
        PlainPathIsPlain(path);
      }
    }

    method AddMids(n: Node, ghost ps: seq<string>, handlers: seq<Handler>)
      requires Valid() && ps in nodes && nodes[ps] == n && PlainPath(ps)
      modifies this`routes, n`midwirs
      ensures Valid() && routes == old(routes).(mids := old(routes).mids[ps := old(routes).MidsAt(ps) + handlers])
    {
      hide Shape, Sound, PlainPath, Node.Shows;
      ghost var r := routes.(mids := routes.mids[ps := routes.MidsAt(ps) + handlers]);
      OthersShow(r, ps);
      ShowsHere(ps);
      SoundWithMids(routes, ps, handlers);
      n.AddMids(handlers, routes, ps);
      routes := r;
    }

    /** What doGetHandlers answers for node `q` when `ps` are the segments of `path` from that node on. */
    ghost function Answered(path: seq<string>, q: seq<string>, m: int): Answer
      requires q != []
      reads this
    {
      if |q| > |path| || (!Special(q[|q| - 1]) && q[|q| - 1] != path[|q| - 1]) then Nothing
      else Search(routes, path, q, m)
    }

    lemma AbsentHasNothing(q: seq<string>)
      requires Valid() && q != []
      ensures q !in nodes ==> NoneBelow(routes, q)
    {
      hide Shape, Node.Shows;
      if q !in nodes {
        forall x | q <= x ensures routes.MidsAt(x) == [] && forall m :: routes.HandlerAt(x, m) == None {
          PrefixesAreNodes(nodes, kids, x, |q|);
          assert x[..|q|] == q;
          NothingAt(x);
        }
      }
    }

    /** The children of `q` answer for every pattern segment: one that has no child has no routes. */
    lemma ChildOrNothing(path: seq<string>, q: seq<string>, x: string, m: int)
      requires Valid() && q in nodes && 0 < |q| < |path|
      ensures nodes[q] in repr && nodes[q].children == kids[q]
      ensures q + [x] !in nodes ==> Search(routes, path, q + [x], m) == Nothing
      ensures q + [x] in nodes ==> exists j :: 0 <= j < |nodes[q].children| && nodes[q].children[j].part == x
    {
      ChildListed(nodes, kids, q, x);
      AbsentHasNothing(q + [x]);
      if q + [x] !in nodes {
        SearchNothing(routes, path, q + [x], m);
      }
    }

    lemma AboutChild(q: seq<string>, i: nat)
      requires Linked() && q in nodes && i < |nodes[q].children|
      ensures var c := nodes[q].children[i];
        q + [c.part] in nodes && nodes[q + [c.part]] == c && GoodPrefix(q + [c.part])
      ensures forall j :: 0 <= j < |nodes[q].children| && j != i ==>
        nodes[q].children[j].part != nodes[q].children[i].part
    {
      ChildListed(nodes, kids, q, nodes[q].children[i].part);
      assert PathOk(nodes, kids, q + [nodes[q].children[i].part]);
    }

    lemma AboutNode(q: seq<string>)
      requires Linked() && q in nodes
      ensures q != [] && q[0] == "/" && nodes[q].part == q[|q| - 1] && nodes[q] in repr
    {
      assert PathOk(nodes, kids, q);
    }

    /** A `*` node has no children, a `.` node carries nothing, and siblings differ in their parts. */
    lemma TrieShape(q: seq<string>)
      requires Valid() && q in nodes
      ensures nodes[q] in repr
      ensures nodes[q].part == "*" ==> nodes[q].children == []
      ensures nodes[q].part == "." ==> nodes[q].midwirs == [] && forall m :: nodes[q].HandlerFor(m) == None
      ensures forall i, j :: 0 <= i < j < |nodes[q].children| ==> nodes[q].children[i].part != nodes[q].children[j].part
    {
      AboutNode(q);
      var n := nodes[q];
      forall i, j | 0 <= i < j < |n.children| ensures n.children[i].part != n.children[j].part {
        AboutChild(q, i);
      }
      if n.children != [] {
        AboutChild(q, 0);
        assert (q + [n.children[0].part])[|q| - 1] == n.part;
      }
      if n.part == "." {
        ShowsHere(q);
        CarriesNothing(q);
      }
    }

    lemma CarriesNothing(q: seq<string>)
      requires Valid() && q != [] && q[|q| - 1] == "."
      ensures routes.MidsAt(q) == [] && forall m :: routes.HandlerAt(q, m) == None
    {
      forall m ensures routes.HandlerAt(q, m) == None {
        assert (q, m) in routes.table ==> GoodPattern(q);
      }
      assert q in routes.mids ==> PlainPath(q);
    }

    /** Below a `.` node the first child that answers wins. */
    method SearchDot(n: Node, ps: seq<string>, m: nat, ghost path: seq<string>, ghost q: seq<string>)
      returns (hs: seq<Handler>, has: bool)
      requires Valid() && q in nodes && nodes[q] == n && n.part == "."
      requires 0 < |q| <= |path| && ps == path[|q| - 1..]
      ensures Answer(hs, has) == Search(routes, path, q, m)
      decreases |ps|, 0
    {
      hide Shape, Carries, Search;
      AboutNode(q);
      SearchDotStep(routes, path, q, m);
      if |q| < |path| {
        ChildOrNothing(path, q, path[|q|], m);
      }
      var i := 0;
      while i < |n.children|
        invariant 0 <= i <= |n.children|
        invariant forall j :: 0 <= j < i ==> !Answered(path, q + [n.children[j].part], m).has
      {
        AboutChild(q, i);
        assert (q + [n.children[i].part])[|q| - 1] == ".";
        hs, has := DoGetHandlers(n.children[i], ps[1..], m, path, q + [n.children[i].part]);
        if has {
          return;
        }
        i := i + 1;
      }
      return [], false;
    }

    /** The answers of the `*`, `.` and literal children of a literal node. */
    method SearchChildren(n: Node, ps: seq<string>, m: nat, ghost path: seq<string>, ghost q: seq<string>)
      returns (h1: seq<Handler>, has1: bool, h2: seq<Handler>, has2: bool, h3: seq<Handler>, has3: bool)
      requires Valid() && q in nodes && nodes[q] == n && |ps| > 1
      requires 0 < |q| < |path| && ps == path[|q| - 1..]
      ensures Answer(h1, has1) == Search(routes, path, q + ["*"], m)
      ensures Answer(h2, has2) == Search(routes, path, q + ["."], m)
      ensures Answer(h3, has3) == if Special(ps[1]) then Nothing else Search(routes, path, q + [ps[1]], m)
      decreases |ps|, 0
    {
      hide Shape, Carries, Search;
      ChildOrNothing(path, q, "*", m);
      ChildOrNothing(path, q, ".", m);
      ChildOrNothing(path, q, ps[1], m);
      h1, has1, h2, has2, h3, has3 := [], false, [], false, [], false;
      var i := 0;
      while i < |n.children|
        invariant 0 <= i <= |n.children|
        invariant Answer(h1, has1) == SoFar(path, q, "*", m, i)
        invariant Answer(h2, has2) == SoFar(path, q, ".", m, i)
        invariant Answer(h3, has3) == if Special(ps[1]) then Nothing else SoFar(path, q, ps[1], m, i)
      {
        AboutChild(q, i);
        var nn := n.children[i];
        if nn.part == "*" {
          h1, has1 := DoGetHandlers(nn, ps[1..], m, path, q + [nn.part]);
        } else if nn.part == "." {
          h2, has2 := DoGetHandlers(nn, ps[1..], m, path, q + [nn.part]);
        } else if nn.part == ps[1] {
          h3, has3 := DoGetHandlers(nn, ps[1..], m, path, q + [nn.part]);
        }
        i := i + 1;
      }
    }

    /** The answer for segment `x` once the first `i` children have been asked. */
    ghost function SoFar(path: seq<string>, q: seq<string>, x: string, m: int, i: nat): Answer
      requires q in nodes && nodes[q] in repr && i <= |nodes[q].children| && 0 < |q| < |path|
      reads this, repr
    {
      if exists j :: 0 <= j < i && nodes[q].children[j].part == x then Search(routes, path, q + [x], m) else Nothing
    }

    method DoGetHandlers(n: Node?, ps: seq<string>, m: nat, ghost path: seq<string>, ghost q: seq<string>)
      returns (hs: seq<Handler>, has: bool)
      requires Valid()
      requires n != null ==> q in nodes && nodes[q] == n && 0 < |q| <= |path| + 1 && ps == path[|q| - 1..]
      ensures Answer(hs, has) == if n == null then Nothing else Answered(path, q, m)
      decreases |ps|, 1
    {
      if n == null || |ps| == 0 {
        return [], false;
      }
      AboutNode(q);
      ShowsHere(q);
      hide Shape, Carries;
      if n.part == "." {
        hs, has := SearchDot(n, ps, m, path, q);
        return;
      }
      if n.part == "*" {
        if m < |n.handlers| && n.handlers[m] != None {
          return [n.handlers[m].value], true;
        }
        return [], false;
      }
      if n.part == ps[0] {
        var handlers := n.midwirs;
        if |ps| == 1 {
          if m >= |n.handlers| || n.handlers[m] == None {
            return handlers, false;
          }
          return handlers + [n.handlers[m].value], true;
        }
        SearchStep(routes, path, q, m);
        var h1, has1, h2, has2, h3, has3 := SearchChildren(n, ps, m, path, q);
        if has3 {
          return handlers + h3, true;
        } else if has2 {
          return handlers + h2, true;
        } else if has1 {
          handlers := handlers + h3;
          handlers := handlers + h1;
          return handlers, true;
        } else {
          return h3, false;
        }
      }
      return [], false;
    }

    /** `Handlers` answers exactly what the flat table says. */
    method Handlers(method_: string, path: string) returns (hs: seq<Handler>)
      requires Valid()
      ensures hs == Lookup(routes, method_, path)
    {
      hide Shape, Carries;
      var ps := SplitP(path);
      AbsentHasNothing(["/"]);
      if root == null {
        if ps != [] {
          SearchNothing(routes, ps, ["/"], MethodToInt(method_));
        }
        return [];
      }
      var m := MethodToInt(method_);
      if m < 0 {
        return [];
      }
      if |ps| == 0 {
        return [];
      }
      var has;
      hs, has := DoGetHandlers(root, ps, m, ps, ["/"]);
      if !has {
        return [];
      }
    }
  }

  lemma SoundWithHandler(r: Routes, ps: seq<string>, m: int, handler: Option<Handler>)
    requires Sound(r) && GoodPattern(ps) && 0 <= m <= 1
    ensures Sound(r.(table := r.table[(ps, m) := handler]))
  {
  }

  lemma SoundWithMids(r: Routes, ps: seq<string>, handlers: seq<Handler>)
    requires Sound(r) && PlainPath(ps)
    ensures Sound(r.(mids := r.mids[ps := r.MidsAt(ps) + handlers])) && GoodPrefix(ps)
  {
  }

  lemma GoodIsRooted(ps: seq<string>)
    requires GoodPattern(ps)
    ensures ps != [] && ps[0] == "/" && GoodPrefix(ps)
  {
  }

  lemma PrefixIsGood(ps: seq<string>, k: nat)
    requires GoodPrefix(ps) && k <= |ps|
    ensures GoodPrefix(ps[..k])
  {
  }
}
