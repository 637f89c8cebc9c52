/** context.go: the handler chain of one request. A handler is the finite list of what it does. */
module ChainSpec {
  datatype Action = Emit(x: int) | Next | Fail(code: int)

  type Script = seq<Action>

  /** What an observer sees; every event names the handler it belongs to. */
  datatype Event = Start(i: nat) | Emitted(i: nat, x: int) | Failed(i: nat, code: int) | End(i: nat)

  /** The intended meaning, without any index that moves: handler `j` wraps the handlers after it. The
      first `Next` runs them all in its place, a `Fail` before that drops them, and if the handler does
      neither they follow it. */
  function Onion(hs: seq<Script>, j: nat): seq<Event>
    decreases |hs| - j, 1, 0
  {
    if j >= |hs| then []
    else [Start(j)] + Body(hs, j, hs[j], true) + [End(j)] + if InControl(hs[j]) then [] else Onion(hs, j + 1)
  }

  /** The rest of handler `j`; `live` while it has neither called Next nor Fail. */
  function Body(hs: seq<Script>, j: nat, acts: Script, live: bool): seq<Event>
    requires j < |hs|
    decreases |hs| - j, 0, |acts|
  {
    if acts == [] then []
    else match acts[0]
      case Emit(x) => [Emitted(j, x)] + Body(hs, j, acts[1..], live)
      case Next => (if live then Onion(hs, j + 1) else []) + Body(hs, j, acts[1..], false)
      case Fail(code) => [Failed(j, code)] + Body(hs, j, acts[1..], false)
  }

  /** Whether a handler calls Next or Fail at all. */
  predicate InControl(acts: Script) {
    acts != [] && (!acts[0].Emit? || InControl(acts[1..]))
  }

  /** Whether the first of these calls is Fail. */
  predicate FailsFirst(acts: Script) {
    acts != [] && (acts[0].Fail? || (acts[0].Emit? && FailsFirst(acts[1..])))
  }

  /** One past the last handler that starts. */
  function Stop(hs: seq<Script>, j: nat): (k: nat)
    requires j <= |hs|
    ensures j <= k <= |hs|
    decreases |hs| - j
  {
    if j == |hs| then j else if FailsFirst(hs[j]) then j + 1 else Stop(hs, j + 1)
  }

  function Starts(es: seq<Event>): seq<nat> {
    if es == [] then []
    else (if es[0].Start? then [es[0].i] else []) + Starts(es[1..])
  }

  function Interval(j: nat, k: nat): seq<nat>
    requires j <= k
    decreases k - j
  {
    if j == k then [] else [j] + Interval(j + 1, k)
  }

  /** Replays events against the stack of running handlers: a handler acts only while it is innermost,
      and it ends only when everything it started has ended. */
  datatype Replay = Stuck | At(running: seq<nat>)

  function Nest(es: seq<Event>, running: seq<nat>): Replay {
    if es == [] then At(running)
    else match es[0]
      case Start(i) => Nest(es[1..], [i] + running)
      case Emitted(i, _) => if running != [] && running[0] == i then Nest(es[1..], running) else Stuck
      case Failed(i, _) => if running != [] && running[0] == i then Nest(es[1..], running) else Stuck
      case End(i) => if running != [] && running[0] == i then Nest(es[1..], running[1..]) else Stuck
  }

  lemma PastTheEnd(hs: seq<Script>, j: nat)
    ensures j >= |hs| ==> Onion(hs, j) == []
  {
  }

  lemma Regroup(a: seq<Event>, b: seq<Event>, c: seq<Event>, d: seq<Event>, e: seq<Event>)
    ensures (a + b + c + d) + e == a + (b + c + d + e)
  {
  }

  lemma OnionUnfolds(log: seq<Event>, hs: seq<Script>, j: nat)
    requires j < |hs|
    ensures (log + [Start(j)] + Body(hs, j, hs[j], true) + [End(j)]) +
      (if InControl(hs[j]) then [] else Onion(hs, j + 1)) == log + Onion(hs, j)
  {
    hide Body;
    Regroup(log, [Start(j)], Body(hs, j, hs[j], true), [End(j)], if InControl(hs[j]) then [] else Onion(hs, j + 1));
  }

  // ----- which handlers start -----

  lemma {:induction false} StartsConcat(a: seq<Event>, b: seq<Event>)
    ensures Starts(a + b) == Starts(a) + Starts(b)
  {
    if a == [] {
      assert a + b == b;
    } else {
      assert (a + b)[1..] == a[1..] + b;
      StartsConcat(a[1..], b);
    }
  }

  lemma {:induction false} BodyStarts(hs: seq<Script>, j: nat, acts: Script, live: bool)
    requires j < |hs|
    ensures Starts(Body(hs, j, acts, live)) ==
      if live && InControl(acts) && !FailsFirst(acts) then Interval(j + 1, Stop(hs, j + 1)) else []
    decreases |hs| - j, 0, |acts|
  {
    if acts != [] {
      match acts[0]
      case Emit(x) =>
        BodyStarts(hs, j, acts[1..], live);
        StartsConcat([Emitted(j, x)], Body(hs, j, acts[1..], live));
      case Next =>
        BodyStarts(hs, j, acts[1..], false);
        StartsConcat(if live then Onion(hs, j + 1) else [], Body(hs, j, acts[1..], false));
        if live {
          StartsAreConsecutive(hs, j + 1);
        }
      case Fail(code) =>
        BodyStarts(hs, j, acts[1..], false);
        StartsConcat([Failed(j, code)], Body(hs, j, acts[1..], false));
    }
  }

  /** From `j` on, handlers start one after the other, each once, without a gap, up to and including
      the first whose first control call is Fail. */
  lemma {:induction false} StartsAreConsecutive(hs: seq<Script>, j: nat)
    requires j <= |hs|
    ensures Starts(Onion(hs, j)) == Interval(j, Stop(hs, j))
    decreases |hs| - j, 1, 0
  {
    if j < |hs| {
      var body, rest := Body(hs, j, hs[j], true), if InControl(hs[j]) then [] else Onion(hs, j + 1);
      BodyStarts(hs, j, hs[j], true);
      StartsConcat([Start(j)] + body + [End(j)], rest);
      StartsConcat([Start(j)] + body, [End(j)]);
      StartsConcat([Start(j)], body);
      if InControl(hs[j]) {
      } else {
        NoControlNoFail(hs[j]);
        StartsAreConsecutive(hs, j + 1);
      }
    }
  }

  lemma {:induction false} NoControlNoFail(acts: Script)
    ensures FailsFirst(acts) ==> InControl(acts)
  {
    if acts != [] {
      NoControlNoFail(acts[1..]);
    }
  }

  /** Every handler runs exactly when none of them fails before calling Next. */
  lemma {:induction false} AllRunIffNoneFailsFirst(hs: seq<Script>, j: nat)
    requires j <= |hs|
    ensures Starts(Onion(hs, j)) == Interval(j, |hs|) <==> forall k :: j <= k < |hs| - 1 ==> !FailsFirst(hs[k])
    decreases |hs| - j
  {
    StartsAreConsecutive(hs, j);
    StopIsEnd(hs, j);
    IntervalLength(j, Stop(hs, j));
    IntervalLength(j, |hs|);
  }

  lemma {:induction false} StopIsEnd(hs: seq<Script>, j: nat)
    requires j <= |hs|
    ensures Stop(hs, j) == |hs| <==> forall k :: j <= k < |hs| - 1 ==> !FailsFirst(hs[k])
    decreases |hs| - j
  {
    if j < |hs| {
      StopIsEnd(hs, j + 1);
    }
  }

  lemma {:induction false} IntervalLength(j: nat, k: nat)
    requires j <= k
    ensures |Interval(j, k)| == k - j
    decreases k - j
  {
    if j < k {
      IntervalLength(j + 1, k);
    }
  }

  // ----- nothing starts after a failure -----

  ghost predicate NoStart(es: seq<Event>) {
    forall p :: 0 <= p < |es| ==> !es[p].Start?
  }

  ghost predicate NoFailure(es: seq<Event>) {
    forall p :: 0 <= p < |es| ==> !es[p].Failed?
  }

  ghost predicate NoStartAfterFailure(es: seq<Event>) {
    forall p, q :: 0 <= p < q < |es| && es[p].Failed? ==> !es[q].Start?
  }

  lemma {:induction false} SpentBody(hs: seq<Script>, j: nat, acts: Script)
    requires j < |hs|
    ensures NoStart(Body(hs, j, acts, false))
    decreases |acts|
  {
    if acts != [] {
      SpentBody(hs, j, acts[1..]);
    }
  }

  lemma {:induction false} LiveBody(hs: seq<Script>, j: nat, acts: Script)
    requires j < |hs|
    ensures NoStartAfterFailure(Body(hs, j, acts, true))
    ensures !InControl(acts) ==> NoFailure(Body(hs, j, acts, true))
    decreases |hs| - j, 0, |acts|
  {
    if acts != [] {
      match acts[0]
      case Emit(x) => LiveBody(hs, j, acts[1..]);
      case Next => NothingStartsAfterFailure(hs, j + 1); SpentBody(hs, j, acts[1..]);
      case Fail(_) => SpentBody(hs, j, acts[1..]);
    }
  }

  lemma {:induction false} NothingStartsAfterFailure(hs: seq<Script>, j: nat)
    ensures NoStartAfterFailure(Onion(hs, j))
    decreases |hs| - j, 1, 0
  {
    if j < |hs| {
      LiveBody(hs, j, hs[j]);
      if !InControl(hs[j]) {
        NothingStartsAfterFailure(hs, j + 1);
      }
    }
  }

  // ----- code after Next runs in reverse nesting order -----

  lemma {:induction false} NestConcat(a: seq<Event>, b: seq<Event>, running: seq<nat>)
    ensures Nest(a + b, running) == match Nest(a, running) case Stuck => Stuck case At(r) => Nest(b, r)
    decreases |a|
  {
    if a == [] {
      assert a + b == b;
    } else {
      assert (a + b)[1..] == a[1..] + b;
      match a[0]
      case Start(i) => NestConcat(a[1..], b, [i] + running);
      case End(i) => if running != [] { NestConcat(a[1..], b, running[1..]); }
      case _ => NestConcat(a[1..], b, running);
    }
  }

  lemma {:induction false} BodyNests(hs: seq<Script>, j: nat, acts: Script, live: bool, running: seq<nat>)
    requires j < |hs| && running != [] && running[0] == j
    ensures Nest(Body(hs, j, acts, live), running) == At(running)
    decreases |hs| - j, 0, |acts|
  {
    if acts != [] {
      match acts[0]
      case Emit(x) =>
        BodyNests(hs, j, acts[1..], live, running);
        NestConcat([Emitted(j, x)], Body(hs, j, acts[1..], live), running);
      case Next =>
        BodyNests(hs, j, acts[1..], false, running);
        NestConcat(if live then Onion(hs, j + 1) else [], Body(hs, j, acts[1..], false), running);
        if live {
          HandlersNest(hs, j + 1, running);
        }
      case Fail(code) =>
        BodyNests(hs, j, acts[1..], false, running);
        NestConcat([Failed(j, code)], Body(hs, j, acts[1..], false), running);
    }
  }

  /** A run is properly nested: what a handler does after Next comes after the end of every handler it
      let run, so the tails run in reverse order. */
  lemma {:induction false} HandlersNest(hs: seq<Script>, j: nat, running: seq<nat>)
    ensures Nest(Onion(hs, j), running) == At(running)
    decreases |hs| - j, 1, 0
  {
    if j < |hs| {
      var body, rest := Body(hs, j, hs[j], true), if InControl(hs[j]) then [] else Onion(hs, j + 1);
      var inner := [j] + running;
      BodyNests(hs, j, hs[j], true, inner);
      NestConcat([Start(j)] + body + [End(j)], rest, running);
      NestConcat([Start(j)] + body, [End(j)], running);
      NestConcat([Start(j)], body, running);
      assert inner[1..] == running;
      if !InControl(hs[j]) {
        HandlersNest(hs, j + 1, running);
      }
    }
  }

  // ----- every handler runs all of its own code, and where -----

  /** The events of a handler's own actions, whatever Next does. */
  function Own(j: nat, acts: Script): seq<Event> {
    if acts == [] then [] else OwnEvent(j, acts[0]) + Own(j, acts[1..])
  }

  function OwnEvent(j: nat, act: Action): seq<Event> {
    match act
    case Emit(x) => [Emitted(j, x)]
    case Next => []
    case Fail(code) => [Failed(j, code)]
  }

  /** The events that belong to handler `j`. */
  function Only(j: nat, es: seq<Event>): seq<Event> {
    if es == [] then []
    else (if es[0].i == j then [es[0]] else []) + Only(j, es[1..])
  }

  lemma {:induction false} OwnConcat(j: nat, a: Script, b: Script)
    ensures Own(j, a + b) == Own(j, a) + Own(j, b)
  {
    if a == [] {
      assert a + b == b;
    } else {
      assert (a + b)[1..] == a[1..] + b;
      OwnConcat(j, a[1..], b);
    }
  }

  lemma {:induction false} OnlyConcat(j: nat, a: seq<Event>, b: seq<Event>)
    ensures Only(j, a + b) == Only(j, a) + Only(j, b)
  {
    if a == [] {
      assert a + b == b;
    } else {
      assert (a + b)[1..] == a[1..] + b;
      OnlyConcat(j, a[1..], b);
    }
  }

  lemma OnlyOwnEvent(j: nat, k: nat, act: Action)
    ensures Only(k, OwnEvent(j, act)) == if k == j then OwnEvent(j, act) else []
  {
    var es := OwnEvent(j, act);
    if es != [] {
      assert es[1..] == [];
    }
  }

  lemma {:induction false} OnlyOwn(j: nat, k: nat, acts: Script)
    ensures Only(k, Own(j, acts)) == if k == j then Own(j, acts) else []
  {
    if acts != [] {
      OnlyOwn(j, k, acts[1..]);
      OnlyOwnEvent(j, k, acts[0]);
      OnlyConcat(k, OwnEvent(j, acts[0]), Own(j, acts[1..]));
    }
  }

  lemma OwnStep(j: nat, acts: Script)
    requires acts != []
    ensures Own(j, acts) == OwnEvent(j, acts[0]) + Own(j, acts[1..])
  {
  }

  /** How a handler takes control first. */
  datatype Control = Neither | NextAt(n: nat) | FailAt(n: nat)

  function FirstControl(acts: Script): (c: Control)
    ensures match c
      case Neither => forall i :: 0 <= i < |acts| ==> acts[i].Emit?
      case NextAt(n) => n < |acts| && acts[n] == Next && forall i :: 0 <= i < n ==> acts[i].Emit?
      case FailAt(n) => n < |acts| && acts[n].Fail? && forall i :: 0 <= i < n ==> acts[i].Emit?
  {
    if acts == [] then Neither
    else match acts[0]
      case Next => NextAt(0)
      case Fail(_) => FailAt(0)
      case Emit(_) =>
        match FirstControl(acts[1..])
        case Neither => Neither
        case NextAt(n) => NextAt(n + 1)
        case FailAt(n) => FailAt(n + 1)
  }

  lemma {:induction false} SpentBodyIsOwn(hs: seq<Script>, j: nat, acts: Script)
    requires j < |hs|
    ensures Body(hs, j, acts, false) == Own(j, acts)
    decreases |acts|
  {
    if acts != [] {
      SpentBodyIsOwn(hs, j, acts[1..]);
    }
  }

  lemma {:induction false} LiveBodyIs(hs: seq<Script>, j: nat, acts: Script)
    requires j < |hs|
    ensures Body(hs, j, acts, true) ==
      InPlace(j, acts, FirstControl(acts), Onion(hs, j + 1))
    decreases |acts|
  {
    if acts != [] {
      LiveBodyIs(hs, j, acts[1..]);
      SpentBodyIsOwn(hs, j, acts[1..]);
      hide Onion, InPlace, Own;
      OwnStep(j, acts);
      match acts[0] {
        case Emit(x) =>
          EmitGoesFirst(j, acts, x, FirstControl(acts[1..]), Onion(hs, j + 1));
        case Next =>
          NextGoesFirst(j, acts, Onion(hs, j + 1));
        case Fail(_) =>
          assert InPlace(j, acts, FailAt(0), Onion(hs, j + 1)) == Own(j, acts) by {
            NotNext(j, acts, FailAt(0), Onion(hs, j + 1));
          }
      }
    } else {
      NotNext(j, acts, Neither, Onion(hs, j + 1));
    }
  }

  lemma NextGoesFirst(j: nat, acts: Script, rest: seq<Event>)
    requires acts != [] && acts[0] == Next
    ensures InPlace(j, acts, NextAt(0), rest) == rest + Own(j, acts[1..])
  {
    assert acts[..0] == [] && Own(j, []) == [];
  }

  lemma NotNext(j: nat, acts: Script, control: Control, rest: seq<Event>)
    requires !control.NextAt?
    ensures InPlace(j, acts, control, rest) == Own(j, acts) && Own(j, []) == []
  {
  }

  lemma {:induction false} ControlAgrees(acts: Script)
    ensures InControl(acts) <==> FirstControl(acts) != Neither
    ensures FailsFirst(acts) <==> FirstControl(acts).FailAt?
  {
    if acts != [] {
      ControlAgrees(acts[1..]);
    }
  }

  /** The live part of a handler with this first control, when `rest` is what Next runs. */
  function InPlace(j: nat, acts: Script, control: Control, rest: seq<Event>): seq<Event>
    requires control.NextAt? ==> control.n < |acts|
  {
    match control
    case NextAt(n) => Own(j, acts[..n]) + rest + Own(j, acts[n + 1..])
    case _ => Own(j, acts)
  }

  lemma EmitGoesFirst(j: nat, acts: Script, x: int, control: Control, rest: seq<Event>)
    requires acts != [] && acts[0] == Emit(x) && (control.NextAt? ==> control.n < |acts| - 1)
    ensures [Emitted(j, x)] + InPlace(j, acts[1..], control, rest) ==
      InPlace(j, acts, if control.NextAt? then NextAt(control.n + 1) else control, rest)
  {
    if control.NextAt? {
      var n := control.n;
      assert acts[..n + 1][1..] == acts[1..][..n] && acts[n + 2..] == acts[1..][n + 1..];
      assert Own(j, acts[..n + 1]) == [Emitted(j, x)] + Own(j, acts[1..][..n]);
      hide Own;
    }
  }

  /** What running from handler `j` on produces, in terms of the handlers' own code alone. Code before the
      first Next comes before everything the later handlers do, code after it comes after; a handler that
      fails first keeps them from running; a handler that does neither is followed by them. */
  lemma RunsInPlace(hs: seq<Script>, j: nat)
    requires j < |hs|
    ensures Onion(hs, j) ==
      match FirstControl(hs[j])
      case Neither => [Start(j)] + Own(j, hs[j]) + [End(j)] + Onion(hs, j + 1)
      case NextAt(n) =>
        [Start(j)] + Own(j, hs[j][..n]) + Onion(hs, j + 1) + Own(j, hs[j][n + 1..]) + [End(j)]
      case FailAt(_) => [Start(j)] + Own(j, hs[j]) + [End(j)]
  {
    LiveBodyIs(hs, j, hs[j]);
    ControlAgrees(hs[j]);
    hide Body, Own, FirstControl;
  }

  lemma {:induction false} EarlierHandlersAreSilent(hs: seq<Script>, j: nat, k: nat)
    requires k < j
    ensures Only(k, Onion(hs, j)) == []
    decreases |hs| - j
  {
    if j < |hs| {
      EarlierHandlersAreSilent(hs, j + 1, k);
      OnlyOfRun(hs, j, k);
    }
  }

  /** The events of handler `k` in a run from `j` on, piece by piece. */
  lemma OnlyOfRun(hs: seq<Script>, j: nat, k: nat)
    requires j < |hs|
    requires k == j ==> Only(k, Onion(hs, j + 1)) == []
    ensures Only(k, Onion(hs, j)) ==
      (if k == j then [Start(j)] + Own(j, hs[j]) + [End(j)] else []) +
      (if FirstControl(hs[j]).FailAt? then [] else Only(k, Onion(hs, j + 1)))
  {
    RunsInPlace(hs, j);
    hide Onion, FirstControl, Only, Own;
    var rest := Onion(hs, j + 1);
    match FirstControl(hs[j]) {
      case NextAt(n) =>
        OnlyWithNext(j, k, hs[j], n, rest);
      case Neither =>
        OnlyAlone(j, k, hs[j]);
        OnlyConcat(k, [Start(j)] + Own(j, hs[j]) + [End(j)], rest);
      case FailAt(_) =>
        OnlyAlone(j, k, hs[j]);
    }
  }

  lemma OnlyWithNext(j: nat, k: nat, acts: Script, n: nat, rest: seq<Event>)
    requires n < |acts| && acts[n] == Next && (k == j ==> Only(k, rest) == [])
    ensures Only(k, [Start(j)] + Own(j, acts[..n]) + rest + Own(j, acts[n + 1..]) + [End(j)]) ==
      (if k == j then [Start(j)] + Own(j, acts) + [End(j)] else []) + Only(k, rest)
  {
    hide Only, Own;
    SplitAtNext(j, acts, n);
    OnlyAround(j, k, acts[..n], rest, acts[n + 1..]);
    if k == j {
      assert [Start(j)] + Own(j, acts[..n]) + [] == [Start(j)] + Own(j, acts[..n]);
    }
  }

  lemma OnlyAlone(j: nat, k: nat, acts: Script)
    ensures Only(k, [Start(j)] + Own(j, acts) + [End(j)]) == if k == j then [Start(j)] + Own(j, acts) + [End(j)] else []
  {
    OnlyAround(j, k, acts, [], []);
    hide Only, Own;
    assert [Start(j)] + Own(j, acts) + [] + [] + [End(j)] == [Start(j)] + Own(j, acts) + [End(j)];
  }

  lemma SplitAtNext(j: nat, acts: Script, n: nat)
    requires n < |acts| && acts[n] == Next
    ensures Own(j, acts) == Own(j, acts[..n]) + Own(j, acts[n + 1..])
  {
    hide Own;
    assert acts == acts[..n] + acts[n..];
    OwnConcat(j, acts[..n], acts[n..]);
    OwnStep(j, acts[n..]);
    assert acts[n..][1..] == acts[n + 1..];
  }

  lemma OnlyAround(j: nat, k: nat, a: Script, rest: seq<Event>, b: Script)
    ensures Own(j, []) == []
    ensures Only(k, [Start(j)] + Own(j, a) + rest + Own(j, b) + [End(j)]) ==
      if k == j then [Start(j)] + Own(j, a) + Only(k, rest) + Own(j, b) + [End(j)] else Only(k, rest)
    ensures Only(k, []) == []
  {
    assert Only(k, [Start(j)]) == if k == j then [Start(j)] else [];
    assert Only(k, [End(j)]) == if k == j then [End(j)] else [];
    OnlyOwn(j, k, a);
    OnlyOwn(j, k, b);
    hide Only, Own;
    OnlyConcat(k, [Start(j)], Own(j, a));
    OnlyConcat(k, [Start(j)] + Own(j, a), rest);
    OnlyConcat(k, [Start(j)] + Own(j, a) + rest, Own(j, b));
    OnlyConcat(k, [Start(j)] + Own(j, a) + rest + Own(j, b), [End(j)]);
  }

  /** Every handler that starts runs all of its code: its events are exactly its start, one event for each
      Emit and each Fail in its script, in order and also after Next and after Fail, and its end. A handler
      that does not start leaves no event. */
  lemma {:induction false} StartedHandlersRunInFull(hs: seq<Script>, j: nat, k: nat)
    requires j <= k < |hs|
    ensures Only(k, Onion(hs, j)) ==
      if k < Stop(hs, j) then [Start(k)] + Own(k, hs[k]) + [End(k)] else []
    decreases |hs| - j
  {
    ControlAgrees(hs[j]);
    if k == j {
      EarlierHandlersAreSilent(hs, j + 1, k);
    } else if !FailsFirst(hs[j]) {
      StartedHandlersRunInFull(hs, j + 1, k);
    }
    OnlyOfRun(hs, j, k);
    hide Only, Onion, Own;
  }
}

module Chain {
  import opened ChainSpec

  /** context.go: `i` is the index of the running handler; Next and Fail move it. */
  class Context {
    const handlers: seq<Script>
    var i: nat
    var log: seq<Event>

    constructor (handlers: seq<Script>)
      ensures this.handlers == handlers && i == 0 && log == []
    {
      this.handlers, i, log := handlers, 0, [];
    }

    ghost function Left(n: nat): nat {
      if n < |handlers| then |handlers| - n else 0
    }

    /** Running from index `i` produces exactly the onion of the handlers from `i` on, and terminates
        whatever the handlers do. */
    method Run()
      modifies this
      ensures log == old(log) + Onion(handlers, old(i))
      ensures i >= |handlers| && i >= old(i)
      decreases Left(i), if i < |handlers| then 2 else 0, 0
    {
      hide Onion, Body;
      while i < |handlers|
        invariant i >= old(i)
        invariant log + Onion(handlers, i) == old(log) + Onion(handlers, old(i))
        decreases Left(i)
      {
        var k := i;
        OnionUnfolds(log, handlers, k);
        log := log + [Start(k)];
        Exec(handlers[k], k);
        log := log + [End(k)];
        PastTheEnd(handlers, i + 1);
        i := i + 1;
      }
      PastTheEnd(handlers, i);
    }

    /** `Next`, called by handler `j`. */
    method Next(j: nat)
      requires j < |handlers| && (i == j || i >= |handlers|)
      modifies this
      ensures log == old(log) + if old(i) == j then Onion(handlers, j + 1) else []
      ensures i >= |handlers|
      decreases Left(i + 1), if i + 1 < |handlers| then 3 else 0, 1
    {
      i := i + 1;
      Run();
    }

    /** `Fail`, called by handler `j`. */
    method Fail(j: nat, code: int)
      modifies this
      ensures log == old(log) + [Failed(j, code)] && i == |handlers|
    {
      log := log + [Failed(j, code)];
      i := |handlers|;
    }

    /** The rest of handler `j`. */
    method Exec(acts: Script, j: nat)
      requires j < |handlers| && (i == j || i >= |handlers|)
      modifies this
      ensures log == old(log) + Body(handlers, j, acts, old(i) == j)
      ensures if old(i) == j && !InControl(acts) then i == j else i >= |handlers|
      decreases Left(i), 1, |acts|
    {
      if acts == [] {
        return;
      }
      match acts[0] {
        case Emit(x) => log := log + [Emitted(j, x)];
        case Next => Next(j);
        case Fail(code) => Fail(j, code);
      }
      Exec(acts[1..], j);
    }
  }
}
