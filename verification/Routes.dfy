/** router.go on a flat table: what was registered, and which entry a request path gets. */
module Routes {
  import opened Options
  import opened Patterns

  /** A handler function, named by a number. */
  type Handler = nat

  const GET := 0
  const POST := 1

  function MethodToInt(method_: string): int {
    if method_ == "GET" then GET else if method_ == "POST" then POST else -1
  }

  /** The handlers and middlewares registered so far, by pattern segments. */
  datatype Routes = Routes(table: map<(seq<string>, int), Option<Handler>>, mids: map<seq<string>, seq<Handler>>) {
    function HandlerAt(pat: seq<string>, m: int): Option<Handler> {
      if (pat, m) in table then table[(pat, m)] else None
    }

    function MidsAt(path: seq<string>): seq<Handler> {
      if path in mids then mids[path] else []
    }
  }

  datatype Op =
    | AddHandler(method_: string, patten: string, handler: Option<Handler>)
    | AddMiddlewire(path: string, handlers: seq<Handler>)

  /** Whether a registration call succeeds. */
  predicate Accepted(op: Op) {
    match op
    case AddHandler(method_, patten, _) => MethodToInt(method_) >= 0 && IsValidPatten(patten)
    case AddMiddlewire(path, _) => path != "" && path[0] == '/' && '.' !in path && '*' !in path
  }

  function ApplyOp(r: Routes, op: Op): Routes {
    if !Accepted(op) then r
    else match op
      case AddHandler(method_, patten, h) => r.(table := r.table[(SplitP(patten), MethodToInt(method_)) := h])
      case AddMiddlewire(path, hs) => r.(mids := r.mids[SplitP(path) := r.MidsAt(SplitP(path)) + hs])
  }

  const Empty := Routes(map[], map[])

  function AfterOps(ops: seq<Op>): Routes {
    if ops == [] then Empty else ApplyOp(AfterOps(ops[..|ops| - 1]), ops[|ops| - 1])
  }

  /** Only good patterns have handlers, and only plain paths have middlewares. */
  ghost predicate Sound(r: Routes) {
    && (forall pat, m :: (pat, m) in r.table ==> GoodPattern(pat) && 0 <= m <= 1)
    && (forall path :: path in r.mids ==> PlainPath(path))
  }

  ghost predicate PlainPath(path: seq<string>) {
    path != [] && path[0] == "/" && forall i :: 0 <= i < |path| ==> !Special(path[i])
  }

  // ----- matching -----

  /** A pattern segment `.` stands for one segment, a final `*` for one or more. */
  ghost predicate Fits(pat: seq<string>, path: seq<string>) {
    |pat| <= |path| && forall i :: 0 <= i < |pat| ==> Special(pat[i]) || pat[i] == path[i]
  }

  ghost predicate Matches(pat: seq<string>, path: seq<string>) {
    pat != [] && Fits(pat, path) && (|pat| == |path| || pat[|pat| - 1] == "*")
  }

  /** Literal segments bind tightest, then `.`, then `*`. */
  function Rank(segment: string): nat {
    if segment == "*" then 2 else if segment == "." then 1 else 0
  }

  ghost predicate Better(p: seq<string>, q: seq<string>) {
    exists i :: 0 <= i < |p| && i < |q| && p[..i] == q[..i] && Rank(p[i]) < Rank(q[i])
  }

  ghost predicate Candidate(r: Routes, q: seq<string>, pat: seq<string>, path: seq<string>, m: int) {
    r.HandlerAt(pat, m).Some? && q <= pat && Matches(pat, path)
  }

  /** `win` is the best of the registered patterns below `q` that match `path`, if there is any. */
  ghost predicate IsBest(r: Routes, q: seq<string>, path: seq<string>, m: int, win: Option<seq<string>>) {
    match win
    case None => forall pat :: !Candidate(r, q, pat, path, m)
    case Some(p) =>
      && Candidate(r, q, p, path, m)
      && forall pat :: Candidate(r, q, pat, path, m) ==> pat == p || Better(p, pat)
  }

  // ----- the search of doGetHandlers -----

  /** What doGetHandlers returns: on failure too it may carry middlewares. */
  datatype Answer = Answer(hs: seq<Handler>, has: bool)

  const Nothing := Answer([], false)

  /** The search below node `q`, which stands at segment `|q| - 1` of `path`. */
  function Search(r: Routes, path: seq<string>, q: seq<string>, m: int): Answer
    requires 0 < |q| <= |path|
    decreases |path| - |q|
  {
    var part := q[|q| - 1];
    if part == "." then
      if |q| == |path| || Special(path[|q|]) then Nothing
      else
        var a := Search(r, path, q + [path[|q|]], m);
        if a.has then a else Nothing
    else if part == "*" then
      match r.HandlerAt(q, m)
      case Some(h) => Answer([h], true)
      case None => Nothing
    else if |q| == |path| then
      match r.HandlerAt(q, m)
      case Some(h) => Answer(r.MidsAt(q) + [h], true)
      case None => Answer(r.MidsAt(q), false)
    else
      var literal := if Special(path[|q|]) then Nothing else Search(r, path, q + [path[|q|]], m);
      var dot := Search(r, path, q + ["."], m);
      var star := Search(r, path, q + ["*"], m);
      Choose(r.MidsAt(q), literal, dot, star)
  }

  function Choose(mids: seq<Handler>, literal: Answer, dot: Answer, star: Answer): Answer {
    if literal.has then Answer(mids + literal.hs, true)
    else if dot.has then Answer(mids + dot.hs, true)
    else if star.has then Answer(mids + literal.hs + star.hs, true)
    else Answer(literal.hs, false)
  }

  /** The pattern behind the answer. */
  function Winner(r: Routes, path: seq<string>, q: seq<string>, m: int): Option<seq<string>>
    requires 0 < |q| <= |path|
    decreases |path| - |q|
  {
    var part := q[|q| - 1];
    if part == "." then
      if |q| == |path| || Special(path[|q|]) then None else Winner(r, path, q + [path[|q|]], m)
    else if part == "*" || |q| == |path| then
      if r.HandlerAt(q, m).Some? then Some(q) else None
    else
      var literal := if Special(path[|q|]) then None else Winner(r, path, q + [path[|q|]], m);
      if literal.Some? then literal
      else
        var dot := Winner(r, path, q + ["."], m);
        if dot.Some? then dot else Winner(r, path, q + ["*"], m)
  }

  /** Below `q` nothing is registered. */
  ghost predicate NoneBelow(r: Routes, q: seq<string>) {
    forall x :: q <= x ==> r.MidsAt(x) == [] && forall m :: r.HandlerAt(x, m) == None
  }

  lemma NoneFurtherBelow(r: Routes, q: seq<string>, x: string)
    requires NoneBelow(r, q)
    ensures NoneBelow(r, q + [x]) && r.MidsAt(q) == [] && forall m :: r.HandlerAt(q, m) == None
  {
    assert q <= q;
    forall y | q + [x] <= y ensures r.MidsAt(y) == [] && forall m :: r.HandlerAt(y, m) == None {
      assert y[..|q|] == (q + [x])[..|q|] == q;
      assert q <= y;
    }
  }

  lemma {:induction false} SearchNothing(r: Routes, path: seq<string>, q: seq<string>, m: int)
    requires NoneBelow(r, q) && 0 < |q| <= |path|
    ensures Search(r, path, q, m) == Nothing
    decreases |path| - |q|
  {
    NoneFurtherBelow(r, q, ".");
    NoneFurtherBelow(r, q, "*");
    if |q| < |path| {
      NoneFurtherBelow(r, q, path[|q|]);
      SearchNothing(r, path, q + [path[|q|]], m);
      SearchNothing(r, path, q + ["."], m);
      SearchNothing(r, path, q + ["*"], m);
    }
  }

  lemma {:induction false} SearchFindsWinner(r: Routes, path: seq<string>, q: seq<string>, m: int)
    requires 0 < |q| <= |path|
    ensures Search(r, path, q, m).has <==> Winner(r, path, q, m).Some?
    decreases |path| - |q|
  {
    if |q| < |path| {
      SearchFindsWinner(r, path, q + [path[|q|]], m);
      SearchFindsWinner(r, path, q + ["."], m);
      SearchFindsWinner(r, path, q + ["*"], m);
    }
  }

  // ----- the search finds the best match -----

  /** How a matching pattern below `q` goes on: it is `q` itself, or its next segment is `*`, `.` or the
      path's own, and none of these two after a `.`. */
  lemma CandidateGoesOn(r: Routes, q: seq<string>, pat: seq<string>, path: seq<string>, m: int)
    requires Sound(r) && 0 < |q| <= |path| && Candidate(r, q, pat, path, m)
    ensures if q[|q| - 1] == "." then |q| < |pat|
      else if q[|q| - 1] == "*" || |q| == |path| then pat == q else |q| < |pat|
    ensures |q| < |pat| ==> q + [pat[|q|]] <= pat
    ensures |q| < |pat| ==> pat[|q|] == path[|q|] || pat[|q|] == "." || pat[|q|] == "*"
    ensures |q| < |pat| && q[|q| - 1] == "." ==> pat[|q|] == path[|q|] && !Special(path[|q|])
  {
    assert (pat, m) in r.table;
    assert pat[|q| - 1] == q[|q| - 1];
    if |q| == |pat| {
      assert pat == q;
    } else {
      assert q + [pat[|q|]] == pat[..|q| + 1];
    }
  }

  lemma BetterHere(q: seq<string>, p: seq<string>, pat: seq<string>)
    requires |q| < |p| && |q| < |pat| && q <= p && q <= pat
    requires Rank(p[|q|]) < Rank(pat[|q|])
    ensures Better(p, pat)
  {
    assert p[..|q|] == pat[..|q|];
  }

  lemma BestOfOne(r: Routes, q: seq<string>, path: seq<string>, m: int)
    requires Sound(r) && 0 < |q| <= |path| && Fits(q, path)
    requires q[|q| - 1] != "." && (q[|q| - 1] == "*" || |q| == |path|)
    ensures IsBest(r, q, path, m, Winner(r, path, q, m))
  {
    forall pat | Candidate(r, q, pat, path, m) ensures pat == q {
      CandidateGoesOn(r, q, pat, path, m);
    }
    if r.HandlerAt(q, m).Some? {
      assert Candidate(r, q, q, path, m);
    } else {
      forall pat ensures !Candidate(r, q, pat, path, m) {
        assert Candidate(r, q, pat, path, m) ==> pat == q;
      }
    }
  }

  lemma BestBelowDot(r: Routes, q: seq<string>, path: seq<string>, m: int)
    requires Sound(r) && 0 < |q| <= |path| && q[|q| - 1] == "."
    requires |q| < |path| && !Special(path[|q|]) ==>
      IsBest(r, q + [path[|q|]], path, m, Winner(r, path, q + [path[|q|]], m))
    ensures IsBest(r, q, path, m, Winner(r, path, q, m))
  {
    forall pat | Candidate(r, q, pat, path, m)
      ensures |q| < |path| && !Special(path[|q|]) && Candidate(r, q + [path[|q|]], pat, path, m)
    {
      CandidateGoesOn(r, q, pat, path, m);
    }
    if |q| < |path| && !Special(path[|q|]) {
      BelowIsHere(r, q, path[|q|], path, m);
    }
  }

  lemma BelowIsHere(r: Routes, q: seq<string>, x: string, path: seq<string>, m: int)
    ensures forall pat :: Candidate(r, q + [x], pat, path, m) ==>
      Candidate(r, q, pat, path, m) && |q| < |pat| && pat[|q|] == x
  {
    forall pat | Candidate(r, q + [x], pat, path, m)
      ensures Candidate(r, q, pat, path, m) && |q| < |pat| && pat[|q|] == x
    {
      assert (q + [x])[|q|] == x && q == (q + [x])[..|q|];
    }
  }

  lemma BestOfThree(r: Routes, q: seq<string>, path: seq<string>, m: int)
    requires Sound(r) && 0 < |q| < |path| && !Special(q[|q| - 1])
    requires !Special(path[|q|]) ==> IsBest(r, q + [path[|q|]], path, m, Winner(r, path, q + [path[|q|]], m))
    requires IsBest(r, q + ["."], path, m, Winner(r, path, q + ["."], m))
    requires IsBest(r, q + ["*"], path, m, Winner(r, path, q + ["*"], m))
    ensures IsBest(r, q, path, m, Winner(r, path, q, m))
  {
    BelowIsHere(r, q, path[|q|], path, m);
    BelowIsHere(r, q, ".", path, m);
    BelowIsHere(r, q, "*", path, m);
    var win := Winner(r, path, q, m);
    forall pat | Candidate(r, q, pat, path, m)
      ensures win.Some? && (pat == win.value || Better(win.value, pat))
    {
      CandidateGoesOn(r, q, pat, path, m);
      assert Candidate(r, q + [pat[|q|]], pat, path, m);
      if Rank(win.value[|q|]) < Rank(pat[|q|]) {
        BetterHere(q, win.value, pat);
      }
    }
  }

  lemma {:induction false} WinnerIsBest(r: Routes, path: seq<string>, q: seq<string>, m: int)
    requires Sound(r) && 0 < |q| <= |path| && Fits(q, path)
    ensures IsBest(r, q, path, m, Winner(r, path, q, m))
    decreases |path| - |q|
  {
    if q[|q| - 1] == "." {
      if |q| < |path| {
        WinnerIsBest(r, path, q + [path[|q|]], m);
      }
      BestBelowDot(r, q, path, m);
    } else if q[|q| - 1] == "*" || |q| == |path| {
      BestOfOne(r, q, path, m);
    } else {
      WinnerIsBest(r, path, q + [path[|q|]], m);
      WinnerIsBest(r, path, q + ["."], m);
      WinnerIsBest(r, path, q + ["*"], m);
      BestOfThree(r, q, path, m);
    }
  }

  lemma BetterIsAsymmetric(p: seq<string>, q: seq<string>)
    requires Better(p, q)
    ensures !Better(q, p)
  {
    var i :| 0 <= i < |p| && i < |q| && p[..i] == q[..i] && Rank(p[i]) < Rank(q[i]);
    forall j | 0 <= j < |p| && j < |q| ensures p[..j] == q[..j] ==> Rank(q[j]) >= Rank(p[j]) {
      assert j < i ==> p[j] == p[..i][j] == q[..i][j];
      assert i < j ==> p[..j][i] != q[..j][i];
    }
  }

  /** The best match is unique. */
  lemma BestIsUnique(r: Routes, q: seq<string>, path: seq<string>, m: int,
                     a: Option<seq<string>>, b: Option<seq<string>>)
    requires IsBest(r, q, path, m, a) && IsBest(r, q, path, m, b)
    ensures a == b
  {
    if a.Some? && b.Some? && Better(a.value, b.value) {
      BetterIsAsymmetric(a.value, b.value);
    }
  }

  // ----- the middlewares of the answer -----

  /** The middlewares along `q`, outermost first, leaving out the first `from` nodes. */
  function MidsAlong(r: Routes, q: seq<string>, from: nat): seq<Handler>
    requires from <= |q|
    decreases |q| - from
  {
    if from == |q| then [] else r.MidsAt(q[..from + 1]) + MidsAlong(r, q, from + 1)
  }

  /** The full list for winning pattern `p`: the middlewares along it, for a `*` pattern those of the
      node at the exact request path, and the handler. */
  function Listing(r: Routes, path: seq<string>, p: seq<string>, m: int, from: nat): seq<Handler>
    requires 0 < |p| && r.HandlerAt(p, m).Some?
  {
    var h := [r.HandlerAt(p, m).value];
    if p[|p| - 1] != "*" then (if from <= |p| then MidsAlong(r, p, from) else []) + h
    else (if from < |p| - 1 then MidsAlong(r, p[..|p| - 1], from) + r.MidsAt(path) else []) + h
  }

  /** On failure the search still returns the middlewares at the exact path below `q`. */
  lemma {:induction false} FailureMids(r: Routes, path: seq<string>, q: seq<string>, m: int)
    requires Sound(r) && 0 < |q| <= |path| && !Special(q[|q| - 1])
    requires !Search(r, path, q, m).has
    ensures Search(r, path, q, m).hs == r.MidsAt(q + path[|q|..])
    decreases |path| - |q|
  {
    var whole := q + path[|q|..];
    if |q| == |path| {
      assert whole == q;
    } else if Special(path[|q|]) {
      assert whole[|q|] == path[|q|];
    } else {
      assert whole == (q + [path[|q|]]) + path[|q| + 1..];
      FailureMids(r, path, q + [path[|q|]], m);
    }
  }

  lemma MidsThroughSpecial(r: Routes, q: seq<string>)
    requires Sound(r) && exists i :: 0 <= i < |q| && Special(q[i])
    ensures r.MidsAt(q) == []
  {
  }

  lemma MidsFirst(r: Routes, q: seq<string>, p: seq<string>)
    requires 0 < |q| <= |p| && q <= p
    ensures MidsAlong(r, p, |q| - 1) == r.MidsAt(q) + MidsAlong(r, p, |q|)
  {
    assert p[..|q|] == q;
  }

  lemma ListingStep(r: Routes, path: seq<string>, q: seq<string>, p: seq<string>, m: int)
    requires r.HandlerAt(p, m).Some? && 0 < |q| < |p| && q <= p
    requires p[|p| - 1] == "*" ==> |q| < |p| - 1
    ensures Listing(r, path, p, m, |q| - 1) == r.MidsAt(q) + Listing(r, path, p, m, |q|)
  {
    if p[|p| - 1] == "*" {
      MidsFirst(r, q, p[..|p| - 1]);
    } else {
      MidsFirst(r, q, p);
    }
  }

  lemma StarParentIsLiteral(r: Routes, path: seq<string>, q: seq<string>, m: int)
    requires Sound(r) && 0 < |q| < |path| && Fits(q, path) && r.HandlerAt(q + ["*"], m).Some?
    ensures q == path[..|q|] && (q + ["*"])[..|q|] == q
  {
    var p := q + ["*"];
    assert (p, m) in r.table && p[|q|] == "*";
    forall i | 0 <= i < |q| ensures q[i] == path[i] {
      assert p[i] == q[i];
    }
  }

  lemma StarListing(r: Routes, path: seq<string>, q: seq<string>, m: int)
    requires q != [] && r.HandlerAt(q + ["*"], m).Some?
    ensures Listing(r, path, q + ["*"], m, |q| - 1) ==
      r.MidsAt(q) + r.MidsAt(path) + [r.HandlerAt(q + ["*"], m).value]
  {
    assert (q + ["*"])[..|q|] == q;
    MidsFirst(r, q, q);
  }

  /** The `*` route of node `q` wins: its parent `q` is literal, and the failed literal search still
      brings the middlewares of the exact path. */
  lemma StarLists(r: Routes, path: seq<string>, q: seq<string>, m: int)
    requires Sound(r) && 0 < |q| < |path| && Fits(q, path)
    requires r.HandlerAt(q + ["*"], m).Some?
    requires !Special(path[|q|]) ==> !Search(r, path, q + [path[|q|]], m).has
    ensures var literal := if Special(path[|q|]) then Nothing else Search(r, path, q + [path[|q|]], m);
      r.MidsAt(q) + literal.hs + [r.HandlerAt(q + ["*"], m).value] == Listing(r, path, q + ["*"], m, |q| - 1)
  {
    hide Search, Listing, MidsAlong, Sound, Fits;
    StarParentIsLiteral(r, path, q, m);
    StarListing(r, path, q, m);
    if Special(path[|q|]) {
      MidsThroughSpecial(r, path);
    } else {
      FailureMids(r, path, q + [path[|q|]], m);
      assert (q + [path[|q|]]) + path[|q| + 1..] == path;
    }
  }

  /** Every step of the search prepends the middlewares of its node. */
  lemma {:induction false} SearchLists(r: Routes, path: seq<string>, q: seq<string>, m: int)
    requires Sound(r) && 0 < |q| <= |path| && Fits(q, path)
    requires Search(r, path, q, m).has
    ensures Winner(r, path, q, m).Some? && q <= Winner(r, path, q, m).value
    ensures r.HandlerAt(Winner(r, path, q, m).value, m).Some?
    ensures Search(r, path, q, m).hs == Listing(r, path, Winner(r, path, q, m).value, m, |q| - 1)
    decreases |path| - |q|
  {
    SearchFindsWinner(r, path, q, m);
    WinnerIsBest(r, path, q, m);
    var p := Winner(r, path, q, m).value;
    assert (p, m) in r.table;
    if q[|q| - 1] == "." {
      var next := q + [path[|q|]];
      SearchFindsWinner(r, path, next, m);
      SearchLists(r, path, next, m);
      assert next[|q| - 1] == "." && next <= p && p[|q| - 1] == ".";
      MidsThroughSpecial(r, q);
      ListingStep(r, path, q, p, m);
    } else if q[|q| - 1] == "*" || |q| == |path| {
      assert p == q;
      MidsFirst(r, q, q);
    } else {
      SearchListsBelow(r, path, q, m);
    }
  }

  lemma {:induction false} SearchListsBelow(r: Routes, path: seq<string>, q: seq<string>, m: int)
    requires Sound(r) && 0 < |q| < |path| && Fits(q, path) && !Special(q[|q| - 1])
    requires Search(r, path, q, m).has && Winner(r, path, q, m).Some?
    requires r.HandlerAt(Winner(r, path, q, m).value, m).Some?
    ensures Search(r, path, q, m).hs == Listing(r, path, Winner(r, path, q, m).value, m, |q| - 1)
    decreases |path| - |q|, 0
  {
    var x := path[|q|];
    SearchFindsWinner(r, path, q + [x], m);
    SearchFindsWinner(r, path, q + ["."], m);
    SearchFindsWinner(r, path, q + ["*"], m);
    SearchStep(r, path, q, m);
    hide Search, Winner, Listing, Fits, Special;
    if !Special(x) && Search(r, path, q + [x], m).has {
      ChildLists(r, path, q, x, m);
    } else if Search(r, path, q + ["."], m).has {
      ChildLists(r, path, q, ".", m);
    } else {
      StarLists(r, path, q, m);
    }
  }

  lemma {:induction false} ChildLists(r: Routes, path: seq<string>, q: seq<string>, x: string, m: int)
    requires Sound(r) && 0 < |q| < |path| && Fits(q, path) && (x == path[|q|] || Special(x)) && x != "*"
    requires Search(r, path, q + [x], m).has && Winner(r, path, q + [x], m).Some?
    requires r.HandlerAt(Winner(r, path, q + [x], m).value, m).Some?
    ensures r.MidsAt(q) + Search(r, path, q + [x], m).hs ==
      Listing(r, path, Winner(r, path, q + [x], m).value, m, |q| - 1)
    decreases |path| - |q|, -1
  {
    FitsFurther(q, x, path);
    SearchLists(r, path, q + [x], m);
    Prepended(r, path, q, x, Winner(r, path, q + [x], m).value, m);
  }

  lemma FitsFurther(q: seq<string>, x: string, path: seq<string>)
    requires Fits(q, path) && |q| < |path| && (x == path[|q|] || Special(x))
    ensures Fits(q + [x], path)
  {
  }

  lemma Prepended(r: Routes, path: seq<string>, q: seq<string>, x: string, p: seq<string>, m: int)
    requires q != [] && q + [x] <= p && r.HandlerAt(p, m).Some? && x != "*"
    ensures Listing(r, path, p, m, |q| - 1) == r.MidsAt(q) + Listing(r, path, p, m, |q|)
  {
    assert q == (q + [x])[..|q|] && p[|q|] == (q + [x])[|q|];
    ListingStep(r, path, q, p, m);
  }

  lemma SearchDotStep(r: Routes, path: seq<string>, q: seq<string>, m: int)
    requires 0 < |q| <= |path| && q[|q| - 1] == "."
    ensures Search(r, path, q, m) ==
      if |q| < |path| && !Special(path[|q|]) && Search(r, path, q + [path[|q|]], m).has
      then Search(r, path, q + [path[|q|]], m) else Nothing
  {
  }

  lemma SearchStep(r: Routes, path: seq<string>, q: seq<string>, m: int)
    requires 0 < |q| < |path| && !Special(q[|q| - 1])
    ensures var x := path[|q|];
      var literal := if Special(x) then Nothing else Search(r, path, q + [x], m);
      && Search(r, path, q, m) ==
        Choose(r.MidsAt(q), literal, Search(r, path, q + ["."], m), Search(r, path, q + ["*"], m))
      && Winner(r, path, q, m) ==
        (if !Special(x) && Winner(r, path, q + [x], m).Some? then Winner(r, path, q + [x], m)
         else if Winner(r, path, q + ["."], m).Some? then Winner(r, path, q + ["."], m)
         else Winner(r, path, q + ["*"], m))
    ensures var star := q + ["*"];
      r.HandlerAt(star, m).Some? ==>
        Search(r, path, star, m).hs == [r.HandlerAt(star, m).value] && Winner(r, path, star, m) == Some(star)
    ensures Search(r, path, q + ["*"], m).has ==> r.HandlerAt(q + ["*"], m).Some?
  {
  }

  // ----- the promises -----

  lemma {:induction false} OpsAreSound(ops: seq<Op>)
    ensures Sound(AfterOps(ops))
  {
    if ops != [] {
      OpsAreSound(ops[..|ops| - 1]);
      match ops[|ops| - 1]
      case AddHandler(method_, patten, _) =>
        if IsValidPatten(patten) {
          ValidPattenIsGood(patten);
        }
      case AddMiddlewire(path, _) =>
        if Accepted(ops[|ops| - 1]) {
          PlainPathIsPlain(path);
          SplitPIsRooted(path);
        }
    }
  }

  lemma SplitPIsRooted(path: string)
    requires path != "" && path[0] == '/'
    ensures SplitP(path) != []
  {
    SplitStep(path);
  }

  ghost predicate Registers(op: Op, pat: seq<string>, m: int) {
    op.AddHandler? && Accepted(op) && SplitP(op.patten) == pat && MethodToInt(op.method_) == m
  }

  /** The last accepted registration for a pattern and method decides; later calls for other patterns,
      and rejected calls, change nothing. */
  lemma {:induction false} LastRegistrationDecides(ops: seq<Op>, i: nat, pat: seq<string>, m: int)
    requires i < |ops| && Registers(ops[i], pat, m)
    requires forall j :: i < j < |ops| ==> !Registers(ops[j], pat, m)
    ensures AfterOps(ops).HandlerAt(pat, m) == ops[i].handler
    decreases |ops|
  {
    if i < |ops| - 1 {
      LastRegistrationDecides(ops[..|ops| - 1], i, pat, m);
    }
  }

  lemma {:induction false} UnregisteredHasNone(ops: seq<Op>, pat: seq<string>, m: int)
    requires forall j :: 0 <= j < |ops| ==> !Registers(ops[j], pat, m)
    ensures AfterOps(ops).HandlerAt(pat, m) == None
  {
    if ops != [] {
      UnregisteredHasNone(ops[..|ops| - 1], pat, m);
    }
  }

  /** `Handlers` on the flat table. */
  function Lookup(r: Routes, method_: string, path: string): seq<Handler> {
    var m, ps := MethodToInt(method_), SplitP(path);
    if m < 0 || ps == [] then []
    else
      var a := Search(r, ps, ["/"], m);
      if a.has then a.hs else []
  }

  /** The best registered pattern for a request, if any pattern matches. */
  ghost predicate BestMatch(r: Routes, path: seq<string>, m: int, win: Option<seq<string>>) {
    match win
    case None => forall pat :: r.HandlerAt(pat, m).Some? ==> !Matches(pat, path)
    case Some(p) =>
      && r.HandlerAt(p, m).Some? && Matches(p, path)
      && forall pat :: r.HandlerAt(pat, m).Some? && Matches(pat, path) ==> pat == p || Better(p, pat)
  }

  /** After any registrations, a request gets the listing of its best matching pattern, and nothing
      exactly when no registered pattern matches. */
  lemma RouterFindsBestMatch(ops: seq<Op>, method_: string, path: string) returns (win: Option<seq<string>>)
    requires MethodToInt(method_) >= 0 && SplitP(path) != []
    ensures var r, ps, m := AfterOps(ops), SplitP(path), MethodToInt(method_);
      && BestMatch(r, ps, m, win)
      && Lookup(r, method_, path) == (match win case None => [] case Some(p) => Listing(r, ps, p, m, 0))
      && (Lookup(r, method_, path) == [] <==> win.None?)
  {
    var r, ps, m := AfterOps(ops), SplitP(path), MethodToInt(method_);
    OpsAreSound(ops);
    win := Winner(r, ps, ["/"], m);
    SearchFindsWinner(r, ps, ["/"], m);
    WinnerIsBest(r, ps, ["/"], m);
    forall pat | r.HandlerAt(pat, m).Some? && Matches(pat, ps) ensures Candidate(r, ["/"], pat, ps, m) {
      assert (pat, m) in r.table;
    }
    if win.Some? {
      SearchLists(r, ps, ["/"], m);
    }
  }

  /** The comment before the router type promises that a `*` pattern also matches the path before the
      star. It does not: a router with that one route answers exactly the strictly longer paths that fit
      what stands before the star. */
  lemma StarNeedsASegment(method_: string, patten: string, h: Handler, path: string)
    requires Accepted(Op.AddHandler(method_, patten, Some(h))) && SplitP(path) != []
    requires SplitP(patten) != [] && SplitP(patten)[|SplitP(patten)| - 1] == "*"
    ensures var r, ps := AfterOps([Op.AddHandler(method_, patten, Some(h))]), SplitP(path);
      var parent := SplitP(patten)[..|SplitP(patten)| - 1];
      && Lookup(r, method_, path) == (if |parent| < |ps| && Fits(parent, ps) then [h] else [])
      && (ps == parent ==> Lookup(r, method_, path) == [])
  {
    hide SplitP, IsValidPatten, Lookup, Matches, Fits, BestMatch, Listing, AfterOps, Accepted;
    var op, pat, ps, m := Op.AddHandler(method_, patten, Some(h)), SplitP(patten), SplitP(path), MethodToInt(method_);
    OneRoute(method_, patten, h);
    var win := RouterFindsBestMatch([op], method_, path);
    StarMatches(pat, ps);
    OnlyWinner(AfterOps([op]), ps, m, pat, h, win);
    if win.Some? {
      StarListingAlone(AfterOps([op]), ps, pat, m);
    }
  }

  lemma OneRoute(method_: string, patten: string, h: Handler)
    requires Accepted(Op.AddHandler(method_, patten, Some(h)))
    ensures AfterOps([Op.AddHandler(method_, patten, Some(h))]) ==
      Routes(map[(SplitP(patten), MethodToInt(method_)) := Some(h)], map[])
    ensures MethodToInt(method_) >= 0
  {
    var op := Op.AddHandler(method_, patten, Some(h));
    assert [op][..0] == [] && AfterOps([]) == Empty;
  }

  lemma OnlyWinner(r: Routes, path: seq<string>, m: int, pat: seq<string>, h: Handler, win: Option<seq<string>>)
    requires r == Routes(map[(pat, m) := Some(h)], map[]) && BestMatch(r, path, m, win)
    ensures win == if Matches(pat, path) then Some(pat) else None
  {
    assert r.HandlerAt(pat, m) == Some(h);
  }

  lemma StarListingAlone(r: Routes, path: seq<string>, pat: seq<string>, m: int)
    requires r.mids == map[] && pat != [] && pat[|pat| - 1] == "*" && r.HandlerAt(pat, m).Some?
    ensures Listing(r, path, pat, m, 0) == [r.HandlerAt(pat, m).value]
  {
    NoMids(r, pat[..|pat| - 1], 0);
  }

  lemma StarMatches(pat: seq<string>, path: seq<string>)
    requires pat != [] && pat[|pat| - 1] == "*"
    ensures Matches(pat, path) <==> |pat| - 1 < |path| && Fits(pat[..|pat| - 1], path)
  {
    assert forall i :: 0 <= i < |pat| - 1 ==> pat[..|pat| - 1][i] == pat[i];
  }

  lemma {:induction false} NoMids(r: Routes, q: seq<string>, from: nat)
    requires r.mids == map[] && from <= |q|
    ensures MidsAlong(r, q, from) == []
    decreases |q| - from
  {
    if from < |q| {
      NoMids(r, q, from + 1);
    }
  }

  // ----- what the star fallback drops -----

  lemma {:induction false} MidsAlongSplit(r: Routes, path: seq<string>, k: nat, from: nat)
    requires from <= k <= |path|
    ensures MidsAlong(r, path, from) == MidsAlong(r, path[..k], from) + MidsAlong(r, path, k)
    decreases k - from
  {
    if from < k {
      MidsAlongSplit(r, path, k, from + 1);
      assert path[..k][..from + 1] == path[..from + 1];
    }
  }

  lemma {:induction false} MidsAlongEmpty(r: Routes, path: seq<string>, from: nat)
    requires from <= |path|
    ensures MidsAlong(r, path, from) == [] <==> forall i :: from < i <= |path| ==> r.MidsAt(path[..i]) == []
    decreases |path| - from
  {
    if from < |path| {
      MidsAlongEmpty(r, path, from + 1);
    }
  }

  /** The middlewares along a path: down to its first `k` segments, strictly between, and at the path. */
  lemma ThreePieces(r: Routes, path: seq<string>, k: nat)
    requires k < |path|
    ensures MidsAlong(r, path, 0) ==
      MidsAlong(r, path[..k], 0) + MidsAlong(r, path[..|path| - 1], k) + r.MidsAt(path)
  {
    var n := |path|;
    assert path[..n] == path && MidsAlong(r, path, n) == [] && MidsAlong(r, path, n - 1) == r.MidsAt(path);
    MidsAlongSplit(r, path, n - 1, 0);
    MidsAlongSplit(r, path[..n - 1], k, 0);
    assert path[..n - 1][..k] == path[..k];
    hide MidsAlong;
  }

  lemma NoneBetween(r: Routes, path: seq<string>, k: nat)
    requires k < |path|
    ensures MidsAlong(r, path[..|path| - 1], k) == [] <==> forall i :: k < i < |path| ==> r.MidsAt(path[..i]) == []
  {
    hide MidsAlong;
    var init := path[..|path| - 1];
    MidsAlongEmpty(r, init, k);
    forall i | k < i < |path| ensures init[..i] == path[..i] {
    }
    if forall i :: k < i <= |init| ==> r.MidsAt(init[..i]) == [] {
      forall i | k < i < |path| ensures r.MidsAt(path[..i]) == [] {
        assert init[..i] == path[..i];
      }
    }
  }

  lemma StarDropsBetween(r: Routes, path: seq<string>, p: seq<string>, m: int)
    requires 1 < |p| <= |path| && p[|p| - 1] == "*" && r.HandlerAt(p, m).Some? && p[..|p| - 1] == path[..|p| - 1]
    ensures Listing(r, path, p, m, 0) == MidsAlong(r, path, 0) + [r.HandlerAt(p, m).value] <==>
      forall i :: |p| <= i < |path| ==> r.MidsAt(path[..i]) == []
  {
    hide MidsAlong;
    var k, n := |p| - 1, |path|;
    ThreePieces(r, path, k);
    NoneBetween(r, path, k);
    var h := [r.HandlerAt(p, m).value];
    DropsMiddle(MidsAlong(r, path[..k], 0), MidsAlong(r, path[..n - 1], k), r.MidsAt(path), h);
  }

  lemma DropsMiddle<T>(a: seq<T>, b: seq<T>, c: seq<T>, d: seq<T>)
    ensures a + c + d == a + b + c + d <==> b == []
  {
    if b == [] {
      assert a + b == a;
    } else {
      assert |a + c + d| != |a + b + c + d|;
    }
  }

  lemma BestMatchIsUnique(r: Routes, path: seq<string>, m: int, p: seq<string>, q: seq<string>)
    requires BestMatch(r, path, m, Some(p)) && BestMatch(r, path, m, Some(q))
    ensures p == q
  {
    if p != q {
      BetterIsAsymmetric(p, q);
    }
  }

  /** A request that falls back to a `*` route gets all the middlewares along its path exactly when none sit
      strictly between the star's parent and the path itself; those are the ones that are dropped. */
  lemma FallbackIsCompleteIffNoneBetween(ops: seq<Op>, method_: string, path: string, p: seq<string>)
    requires MethodToInt(method_) >= 0 && SplitP(path) != [] && p != [] && p[|p| - 1] == "*"
    requires BestMatch(AfterOps(ops), SplitP(path), MethodToInt(method_), Some(p))
    ensures var r, ps, m := AfterOps(ops), SplitP(path), MethodToInt(method_);
      Lookup(r, method_, path) == MidsAlong(r, ps, 0) + [r.HandlerAt(p, m).value] <==>
        forall i :: |p| <= i < |ps| ==> r.MidsAt(ps[..i]) == []
  {
    var r, ps, m := AfterOps(ops), SplitP(path), MethodToInt(method_);
    OpsAreSound(ops);
    var win := RouterFindsBestMatch(ops, method_, path);
    assert win.Some?;
    BestMatchIsUnique(r, ps, m, p, win.value);
    assert (p, m) in r.table;
    StarMatches(p, ps);
    var q := p[..|p| - 1];
    assert p == q + ["*"];
    StarParentIsLiteral(r, ps, q, m);
    StarDropsBetween(r, ps, p, m);
  }

  // ----- what the registrations add up to -----

  /** The handlers of the accepted AddMiddlewire calls for these segments, in call order. */
  function MiddlewaresOf(ops: seq<Op>, q: seq<string>): seq<Handler> {
    if ops == [] then []
    else
      var op := ops[|ops| - 1];
      MiddlewaresOf(ops[..|ops| - 1], q) +
      if op.AddMiddlewire? && Accepted(op) && SplitP(op.path) == q then op.handlers else []
  }

  /** The middlewares of a node are exactly those, whatever else was registered. */
  lemma {:induction false} MiddlewaresAddUp(ops: seq<Op>, q: seq<string>)
    ensures AfterOps(ops).MidsAt(q) == MiddlewaresOf(ops, q)
  {
    if ops != [] {
      hide Accepted, SplitP;
      MiddlewaresAddUp(ops[..|ops| - 1], q);
    }
  }

  /** Which calls succeed: GET and POST with a pattern of the grammar, and middlewares for a path that starts
      with a slash and has neither mark. */
  lemma AcceptedExactly(op: Op)
    ensures Accepted(op) <==>
      match op
      case AddHandler(method_, patten, _) =>
        method_ in {"GET", "POST"} && patten != "" && patten[0] == '/' && GoodChars(Trimmed(patten))
      case AddMiddlewire(path, _) =>
        path != "" && path[0] == '/' && forall i :: 0 <= i < |path| ==> path[i] != '.' && path[i] != '*'
  {
    if op.AddHandler? {
      AcceptsExactly(op.patten);
      hide IsValidPatten, GoodChars, Trimmed;
    }
  }

  lemma {:induction false} SearchFrame(r: Routes, r': Routes, path: seq<string>, q: seq<string>, m: int)
    requires 0 < |q| <= |path|
    requires forall x :: r.HandlerAt(x, m) == r'.HandlerAt(x, m) && r.MidsAt(x) == r'.MidsAt(x)
    ensures Search(r, path, q, m) == Search(r', path, q, m)
    decreases |path| - |q|
  {
    if |q| < |path| {
      SearchFrame(r, r', path, q + [path[|q|]], m);
      SearchFrame(r, r', path, q + ["."], m);
      SearchFrame(r, r', path, q + ["*"], m);
    }
  }

  /** A registration for one method changes no answer for another. */
  lemma MethodsAreApart(ops: seq<Op>, op: Op, method_: string, path: string)
    requires op.AddHandler? && op.method_ != method_
    ensures Lookup(AfterOps(ops + [op]), method_, path) == Lookup(AfterOps(ops), method_, path)
  {
    var r, r', ps, m := AfterOps(ops), AfterOps(ops + [op]), SplitP(path), MethodToInt(method_);
    assert (ops + [op])[..|ops|] == ops;
    if m >= 0 && ps != [] {
      hide SplitP, IsValidPatten;
      SearchFrame(r', r, ps, ["/"], m);
      hide Search;
    }
  }

  /** A request with any other method is answered with nothing. */
  lemma OtherMethodsGetNothing(ops: seq<Op>, method_: string, path: string)
    requires method_ != "GET" && method_ != "POST"
    ensures Lookup(AfterOps(ops), method_, path) == []
  {
  }

  /** Only a GET registration answers a GET, only a POST registration a POST. */
  lemma {:induction false} AnswersOwnMethodOnly(ops: seq<Op>, method_: string, path: string)
    requires forall i :: 0 <= i < |ops| && ops[i].AddHandler? ==> ops[i].method_ != method_
    ensures Lookup(AfterOps(ops), method_, path) == []
  {
    var r, ps, m := AfterOps(ops), SplitP(path), MethodToInt(method_);
    if m >= 0 && ps != [] {
      forall x ensures r.HandlerAt(x, m) == None {
        UnregisteredHasNone(ops, x, m);
      }
      var win := RouterFindsBestMatch(ops, method_, path);
    }
  }
}
