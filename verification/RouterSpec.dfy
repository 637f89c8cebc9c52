/** The string level of router.go: which patterns are valid, and how paths split into segments. */
module Patterns {
  /** strings.Index for one character. */
  function IndexOf(s: string, c: char): (r: int)
    ensures -1 <= r < |s|
    ensures r >= 0 ==> s[r] == c && forall k :: 0 <= k < r ==> s[k] != c
    ensures r < 0 ==> forall k :: 0 <= k < |s| ==> s[k] != c
  {
    if s == [] then -1
    else if s[0] == c then 0
    else
      var r := IndexOf(s[1..], c);
      assert forall k :: 0 < k < |s| ==> s[k] == s[1..][k - 1];
      if r < 0 then -1 else r + 1
  }

  /** strings.Split at '/'. */
  function Split(s: string): (ps: seq<string>)
    ensures |ps| >= 1
  {
    var i := IndexOf(s, '/');
    if i < 0 then [s] else [s[..i]] + Split(s[i + 1..])
  }

  function Trimmed(p: string): string {
    if |p| > 1 && p[|p| - 1] == '/' then p[..|p| - 1] else p
  }

  /** The check of the positions of `*` and `.`. */
  predicate MarksFit(p: string) {
    var star, dot, l := IndexOf(p, '*'), IndexOf(p, '.'), |p|;
    if (star != -1 && star != l - 1) || dot == l - 1 || (star >= 0 && dot >= 0) then false
    else dot == -1 || IndexOf(p[dot + 1..], '.') == -1
  }

  predicate IsValidPatten(patten: string) {
    if patten == [] || patten[0] != '/' then false else MarksFit(Trimmed(patten))
  }

  function SplitP(p: string): (ps: seq<string>)
    ensures ps != [] ==> ps[0] == "/"
  {
    var ps := Split(p);
    var l := |ps|;
    if l < 2 then []
    else
      var kept := if ps[l - 1] == "" then l - 1 else l;
      (["/"] + ps[1..])[..kept]
  }

  predicate Special(segment: string) {
    segment == "." || segment == "*"
  }

  /** What the grammar promises of a registered pattern: it starts at the root, a `*` segment is last, a
      `.` segment occurs at most once, is not last, and never meets a `*`. */
  ghost predicate GoodPattern(ps: seq<string>) {
    && ps != [] && ps[0] == "/"
    && GoodPrefix(ps)
    && ps[|ps| - 1] != "."
  }

  /** What is left of that for a prefix of a pattern, that is for a node of the trie. */
  ghost predicate GoodPrefix(ps: seq<string>) {
    && (forall i :: 0 <= i < |ps| && ps[i] == "*" ==> i == |ps| - 1)
    && (forall i, j :: 0 <= i < j < |ps| && ps[i] == "." ==> !Special(ps[j]))
  }

  // ----- the segments of a string -----

  lemma SplitStep(s: string)
    ensures var k := IndexOf(s, '/'); Split(s) == if k < 0 then [s] else [s[..k]] + Split(s[k + 1..])
  {
  }

  lemma {:induction false} CharsOfParts(s: string, i: nat, c: char)
    requires i < |Split(s)| && c in Split(s)[i]
    ensures c in s
    decreases |s|
  {
    SplitStep(s);
    hide Split, IndexOf;
    var k := IndexOf(s, '/');
    if k >= 0 && i > 0 {
      CharsOfParts(s[k + 1..], i - 1, c);
    }
  }

  lemma {:induction false} CharOnlyLast(s: string, c: char)
    requires c != '/' && forall k :: 0 <= k < |s| && s[k] == c ==> k == |s| - 1
    ensures forall i :: 0 <= i < |Split(s)| && c in Split(s)[i] ==> i == |Split(s)| - 1
    decreases |s|
  {
    SplitStep(s);
    hide Split, IndexOf;
    var k := IndexOf(s, '/');
    if k >= 0 {
      var rest := s[k + 1..];
      assert forall n :: 0 <= n < |rest| ==> rest[n] == s[k + 1 + n];
      CharOnlyLast(rest, c);
    }
  }

  lemma {:induction false} CharAtMostOnce(s: string, c: char)
    requires forall j, k :: 0 <= j < k < |s| && s[j] == c ==> s[k] != c
    ensures forall i, j :: 0 <= i < j < |Split(s)| && c in Split(s)[i] ==> c !in Split(s)[j]
    decreases |s|
  {
    SplitStep(s);
    hide Split, IndexOf;
    var k := IndexOf(s, '/');
    if k >= 0 {
      var rest := s[k + 1..];
      assert forall n :: 0 <= n < |rest| ==> rest[n] == s[k + 1 + n];
      CharAtMostOnce(rest, c);
      if c in s[..k] {
        forall j | 0 <= j < |Split(rest)| ensures c !in Split(rest)[j] {
          if c in Split(rest)[j] {
            CharsOfParts(rest, j, c);
          }
        }
      }
    }
  }

  lemma {:induction false} LastPartEnds(s: string)
    ensures var last := Split(s)[|Split(s)| - 1];
      if last == "" then s == "" || s[|s| - 1] == '/' else s != "" && s[|s| - 1] == last[|last| - 1] != '/'
    decreases |s|
  {
    SplitStep(s);
    hide Split, IndexOf;
    var k := IndexOf(s, '/');
    if k >= 0 {
      LastPartEnds(s[k + 1..]);
      assert Split(s)[|Split(s)| - 1] == Split(s[k + 1..])[|Split(s[k + 1..])| - 1];
    }
  }

  lemma {:induction false} SplitTrailingSlash(s: string)
    ensures Split(s + "/") == Split(s) + [""]
    decreases |s|
  {
    var t, k := s + "/", IndexOf(s, '/');
    IndexBeforeSlash(s);
    SplitStep(s);
    SplitStep(t);
    SplitStep("");
    hide Split, IndexOf;
    if k < 0 {
      assert t[..|s|] == s && t[|s| + 1..] == "";
    } else {
      assert t[..k] == s[..k] && t[k + 1..] == s[k + 1..] + "/";
      SplitTrailingSlash(s[k + 1..]);
    }
  }

  lemma IndexBeforeSlash(s: string)
    ensures IndexOf(s + "/", '/') == if IndexOf(s, '/') < 0 then |s| else IndexOf(s, '/')
  {
    var t, k := s + "/", IndexOf(s, '/');
    var n := IndexOf(t, '/');
    var want := if k < 0 then |s| else k;
    assert t[want] == '/' && forall i :: 0 <= i < want ==> t[i] == s[i] != '/';
  }

  /** A trailing slash does not count: the segments are those of the trimmed string. */
  lemma SplitPIsTrimmed(p: string)
    requires p != [] && p[0] == '/' && p != "/"
    ensures var ts := Split(Trimmed(p)); |ts| >= 2 && SplitP(p) == ["/"] + ts[1..]
  {
    var t := Trimmed(p);
    SplitStep(t);
    hide Split, IndexOf;
    assert IndexOf(t, '/') == 0;
    if p[|p| - 1] == '/' {
      assert p == t + "/";
      SplitTrailingSlash(t);
    } else {
      LastPartEnds(p);
    }
  }

  lemma RootSegments()
    ensures SplitP("/") == ["/"] && GoodPattern(["/"])
  {
    assert Split("/") == [""] + Split("") && Split("") == [""];
  }

  /** The string-level check yields exactly the promised grammar on segments. */
  lemma ValidPattenIsGood(p: string)
    requires IsValidPatten(p)
    ensures GoodPattern(SplitP(p))
  {
    hide Split, SplitP, IndexOf, Trimmed, GoodPrefix;
    ValidMeans(p);
    RootSegments();
    if p != "/" {
      SplitPIsTrimmed(p);
      TrimmedSegments(Trimmed(p));
      GoodFromTrimmed(Split(Trimmed(p)));
    }
  }

  /** What the check says of the trimmed string. */
  ghost predicate MarksOk(t: string) {
    && |t| > 0
    && (IndexOf(t, '*') == -1 || IndexOf(t, '*') == |t| - 1)
    && (IndexOf(t, '.') == -1 || (IndexOf(t, '*') == -1 && IndexOf(t, '.') != |t| - 1))
    && (IndexOf(t, '.') == -1 || IndexOf(t[IndexOf(t, '.') + 1..], '.') == -1)
  }

  lemma ValidMeans(p: string)
    requires IsValidPatten(p)
    ensures p != [] && p[0] == '/' && MarksOk(Trimmed(p))
  {
  }

  lemma GoodFromTrimmed(ts: seq<string>)
    requires |ts| >= 2 && GoodPrefix(ts) && ts[|ts| - 1] != "."
    ensures GoodPattern(["/"] + ts[1..])
  {
    var ps := ["/"] + ts[1..];
    assert forall i :: 1 <= i < |ps| ==> ps[i] == ts[i];
  }

  lemma SegmentChars(t: string, c: char, i: nat)
    requires i < |Split(t)| && Split(t)[i] == [c]
    ensures c in Split(t)[i] && IndexOf(t, c) >= 0
  {
    hide Split, IndexOf;
    CharsOfParts(t, i, c);
  }

  lemma SingleDot(t: string)
    requires IndexOf(t, '.') == -1 || IndexOf(t[IndexOf(t, '.') + 1..], '.') == -1
    ensures forall k :: 0 <= k < |t| && t[k] == '.' ==> k == IndexOf(t, '.')
  {
    hide IndexOf;
    var dot := IndexOf(t, '.');
    assert forall k :: dot < k < |t| ==> t[k] == t[dot + 1..][k - dot - 1];
  }

  /** Where the segments carry the mark `c`. */
  lemma MarkedSegments(t: string, c: char)
    ensures forall i :: 0 <= i < |Split(t)| && Split(t)[i] == [c] ==> c in Split(t)[i] && IndexOf(t, c) >= 0
  {
    hide Split, IndexOf;
    forall i | 0 <= i < |Split(t)| && Split(t)[i] == [c] ensures c in Split(t)[i] && IndexOf(t, c) >= 0 {
      SegmentChars(t, c, i);
    }
  }

  lemma StarOnlyLast(t: string)
    requires MarksOk(t)
    ensures forall i :: 0 <= i < |Split(t)| && '*' in Split(t)[i] ==> i == |Split(t)| - 1
  {
    hide Split, IndexOf;
    CharOnlyLast(t, '*');
  }

  lemma DotAtMostOnce(t: string)
    requires MarksOk(t)
    ensures forall i, j :: 0 <= i < j < |Split(t)| && '.' in Split(t)[i] ==> '.' !in Split(t)[j]
  {
    hide Split, IndexOf;
    SingleDot(t);
    CharAtMostOnce(t, '.');
  }

  lemma TrimmedSegments(t: string)
    requires MarksOk(t)
    ensures GoodPrefix(Split(t)) && Split(t)[|Split(t)| - 1] != "."
  {
    hide Split, IndexOf, GoodPrefix;
    MarkedSegments(t, '*');
    MarkedSegments(t, '.');
    StarOnlyLast(t);
    DotAtMostOnce(t);
    LastIsNotDot(t);
    GoodFromChars(Split(t), IndexOf(t, '*') >= 0, IndexOf(t, '.') >= 0);
  }

  lemma LastIsNotDot(t: string)
    requires |t| > 0 && (IndexOf(t, '.') == -1 || IndexOf(t, '.') != |t| - 1)
    requires IndexOf(t, '.') == -1 || IndexOf(t[IndexOf(t, '.') + 1..], '.') == -1
    ensures Split(t)[|Split(t)| - 1] != "."
  {
    hide Split, IndexOf;
    SingleDot(t);
    LastPartEnds(t);
  }

  lemma GoodFromChars(ts: seq<string>, star: bool, dot: bool)
    requires !(star && dot)
    requires forall i :: 0 <= i < |ts| && ts[i] == "*" ==> '*' in ts[i] && star
    requires forall i :: 0 <= i < |ts| && ts[i] == "." ==> '.' in ts[i] && dot
    requires forall i :: 0 <= i < |ts| && '*' in ts[i] ==> i == |ts| - 1
    requires forall i, j :: 0 <= i < j < |ts| && '.' in ts[i] ==> '.' !in ts[j]
    ensures GoodPrefix(ts)
  {
  }

  /** A path without `.` and `*` has no special segment. */
  lemma PlainPathIsPlain(p: string)
    requires '.' !in p && '*' !in p
    ensures forall i :: 0 <= i < |SplitP(p)| ==> !Special(SplitP(p)[i])
  {
    forall i | 0 <= i < |SplitP(p)| ensures !Special(SplitP(p)[i]) {
      if i > 0 {
        assert SplitP(p)[i] == Split(p)[i];
        if Special(Split(p)[i]) {
          CharsOfParts(p, i, Split(p)[i][0]);
        }
      }
    }
  }

  // ----- what is accepted, and what splitting loses -----

  ghost predicate StarsLast(t: string) {
    forall i :: 0 <= i < |t| && t[i] == '*' ==> i == |t| - 1
  }

  ghost predicate DotsInside(t: string) {
    forall i :: 0 <= i < |t| && t[i] == '.' ==> i < |t| - 1
  }

  ghost predicate OneDot(t: string) {
    forall i, j :: 0 <= i < j < |t| && t[i] == '.' ==> t[j] != '.'
  }

  /** A `*` is the last character, a `.` is not, there is at most one `.`, and there are not both. */
  ghost predicate GoodChars(t: string) {
    StarsLast(t) && DotsInside(t) && OneDot(t) && !('*' in t && '.' in t)
  }

  /** The check accepts exactly the patterns that start with a slash and whose characters, up to one slash at
      the end, are as the grammar says. */
  lemma AcceptsExactly(p: string)
    ensures IsValidPatten(p) <==> p != "" && p[0] == '/' && GoodChars(Trimmed(p))
  {
    if p != "" && p[0] == '/' {
      assert Trimmed(p) != "";
      hide Trimmed, GoodChars, MarksFit;
      CharsDecide(Trimmed(p));
    }
  }

  lemma FoundIffIn(t: string, c: char)
    ensures IndexOf(t, c) >= 0 <==> c in t
  {
    hide IndexOf;
  }

  lemma StarDecides(t: string)
    ensures StarsLast(t) <==> IndexOf(t, '*') == -1 || IndexOf(t, '*') == |t| - 1
  {
    hide IndexOf;
  }

  lemma OneDotDecides(t: string)
    ensures OneDot(t) <==> IndexOf(t, '.') == -1 || IndexOf(t[IndexOf(t, '.') + 1..], '.') == -1
  {
    hide IndexOf;
    var dot := IndexOf(t, '.');
    if dot >= 0 {
      var rest := t[dot + 1..];
      var next := IndexOf(rest, '.');
      if next >= 0 {
        assert t[dot + 1 + next] == rest[next] == '.';
      } else {
        forall k | dot < k < |t| ensures t[k] != '.' {
          assert t[k] == rest[k - dot - 1];
        }
      }
    }
  }

  lemma DotInsideDecides(t: string)
    requires OneDot(t)
    ensures DotsInside(t) <==> IndexOf(t, '.') == -1 || IndexOf(t, '.') != |t| - 1
  {
    hide IndexOf;
  }

  lemma MarksFitIs(t: string)
    requires t != ""
    ensures MarksFit(t) <==>
      && (IndexOf(t, '*') == -1 || IndexOf(t, '*') == |t| - 1)
      && (IndexOf(t, '.') == -1 || IndexOf(t, '.') != |t| - 1)
      && !(IndexOf(t, '*') >= 0 && IndexOf(t, '.') >= 0)
      && (IndexOf(t, '.') == -1 || IndexOf(t[IndexOf(t, '.') + 1..], '.') == -1)
  {
    hide IndexOf;
  }

  lemma CharsDecide(t: string)
    requires t != ""
    ensures MarksFit(t) <==> GoodChars(t)
  {
    hide IndexOf, StarsLast, DotsInside, OneDot, MarksFit;
    MarksFitIs(t);
    StarDecides(t);
    OneDotDecides(t);
    FoundIffIn(t, '*');
    FoundIffIn(t, '.');
    if OneDot(t) {
      DotInsideDecides(t);
    }
  }

  function Join(ps: seq<string>): string
    requires ps != []
  {
    if |ps| == 1 then ps[0] else ps[0] + "/" + Join(ps[1..])
  }

  /** Splitting loses nothing: the parts are the stretches between the slashes. */
  lemma {:induction false} SplitJoins(s: string)
    ensures Join(Split(s)) == s
    ensures forall i :: 0 <= i < |Split(s)| ==> '/' !in Split(s)[i]
    decreases |s|
  {
    SplitStep(s);
    hide Split, IndexOf;
    var k := IndexOf(s, '/');
    if k >= 0 {
      SplitJoins(s[k + 1..]);
      assert Split(s)[1..] == Split(s[k + 1..]);
      assert s == s[..k] + "/" + s[k + 1..];
    }
  }

  /** The segments of a path are its trimmed text cut at the slashes, with "/" for the empty start. */
  lemma SegmentsJoin(p: string)
    requires p != [] && p[0] == '/'
    ensures SplitP(p) != [] && Join([""] + SplitP(p)[1..]) == if p == "/" then "" else Trimmed(p)
    ensures forall i :: 1 <= i < |SplitP(p)| ==> '/' !in SplitP(p)[i]
  {
    RootSegments();
    if p != "/" {
      var t := Trimmed(p);
      SplitPIsTrimmed(p);
      SplitJoins(t);
      SplitStep(t);
      hide Split, IndexOf, SplitP;
      assert IndexOf(t, '/') == 0 && t[..0] == "";
      assert [""] + SplitP(p)[1..] == Split(t);
    }
  }
}
