/** singleflight.go as a transition system: any number of concurrent `Do` calls, one step per critical
    section. `Do` calls and call records are named by their position in `dos` and `calls`. */
module Singleflight {
  import opened Options

  /** What `f` returned. */
  datatype Outcome = Outcome(val: string, err: string)

  datatype Call = Call(key: string, leader: nat, outcome: Option<Outcome>, done: bool)

  datatype Pc =
    | Inside(c: nat)      // the leader is in f
    | Ran(c: nat)         // c.val and c.err are set
    | Signalled(c: nat)   // after wg.Done
    | Deleted(c: nat)     // the map entry is gone
    | Waiting(c: nat)     // a follower in wg.Wait
    | Returned(c: nat)

  /** One `Do`: `entered` and `returned` are the times of its first and last step, `ran` what its own
      `f` returned and `result` what the `Do` returned. */
  datatype Do = Do(
    key: string, pc: Pc, entered: nat, returned: Option<nat>, ran: Option<Outcome>, result: Option<Outcome>)

  datatype State = State(m: map<string, nat>, calls: seq<Call>, dos: seq<Do>, time: nat)

  datatype Event =
    | Enter(key: string)
    | FReturns(t: nat, outcome: Outcome)
    | Signal(t: nat)
    | Delete(t: nat)
    | Return(t: nat)

  const Init := State(map[], [], [], 0)

  predicate Known(s: State, t: nat) {
    t < |s.dos| && s.dos[t].pc.c < |s.calls|
  }

  predicate Enabled(s: State, e: Event) {
    match e
    case Enter(_) => true
    case FReturns(t, _) => Known(s, t) && s.dos[t].pc.Inside?
    case Signal(t) => Known(s, t) && s.dos[t].pc.Ran?
    case Delete(t) => Known(s, t) && s.dos[t].pc.Signalled?
    case Return(t) => Known(s, t) && (s.dos[t].pc.Deleted? || (s.dos[t].pc.Waiting? && s.calls[s.dos[t].pc.c].done))
  }

  function Apply(s: State, e: Event): State
    requires Enabled(s, e)
  {
    var next := s.(time := s.time + 1);
    match e
    case Enter(key) =>
      if key in s.m then
        next.(dos := s.dos + [Do(key, Waiting(s.m[key]), s.time, None, None, None)])
      else
        next.(m := s.m[key := |s.calls|],
              calls := s.calls + [Call(key, |s.dos|, None, false)],
              dos := s.dos + [Do(key, Inside(|s.calls|), s.time, None, None, None)])
    case FReturns(t, outcome) =>
      var c := s.dos[t].pc.c;
      next.(calls := s.calls[c := s.calls[c].(outcome := Some(outcome))],
            dos := s.dos[t := s.dos[t].(pc := Ran(c), ran := Some(outcome))])
    case Signal(t) =>
      var c := s.dos[t].pc.c;
      next.(calls := s.calls[c := s.calls[c].(done := true)],
            dos := s.dos[t := s.dos[t].(pc := Signalled(c))])
    case Delete(t) =>
      next.(m := s.m - {s.dos[t].key},
            dos := s.dos[t := s.dos[t].(pc := Deleted(s.dos[t].pc.c))])
    case Return(t) =>
      var c := s.dos[t].pc.c;
      next.(dos := s.dos[t := s.dos[t].(pc := Returned(c), returned := Some(s.time), result := s.calls[c].outcome)])
  }

  /** The state after a schedule, or None if the schedule takes a step that is not enabled. */
  function After(es: seq<Event>): Option<State> {
    if es == [] then Some(Init)
    else match After(es[..|es| - 1])
      case None => None
      case Some(s) => if Enabled(s, es[|es| - 1]) then Some(Apply(s, es[|es| - 1])) else None
  }

  // ----- invariant -----

  ghost predicate Leads(s: State, t: nat)
    requires t < |s.dos|
  {
    s.dos[t].pc.Inside? || s.dos[t].pc.Ran? || s.dos[t].pc.Signalled?
  }

  /** Every `Do` belongs to a call for its key, and what it has returned is that call's outcome. */
  ghost predicate DoOk(s: State, t: nat)
    requires t < |s.dos|
  {
    var d := s.dos[t];
    && d.pc.c < |s.calls| && s.calls[d.pc.c].key == d.key
    && d.entered < s.time
    && (d.returned.Some? ==> d.returned.value < s.time)
    && (d.returned.Some? <==> d.pc.Returned?)
    && (d.pc.Returned? ==> d.result.Some? && d.result == s.calls[d.pc.c].outcome)
    && (Leads(s, t) || d.pc.Deleted? ==> s.calls[d.pc.c].leader == t)
    && (Leads(s, t) ==> d.key in s.m && s.m[d.key] == d.pc.c)
    && (d.pc.Inside? ==> d.ran.None?)
  }

  /** The `Do` entered before its call's leader returned. */
  ghost predicate Overlaps(s: State, t: nat)
    requires t < |s.dos|
  {
    && Known(s, t)
    && var l := s.calls[s.dos[t].pc.c].leader;
       l < |s.dos| && (s.dos[l].returned.Some? ==> s.dos[t].entered < s.dos[l].returned.value)
  }

  ghost predicate CallOk(s: State, c: nat)
    requires c < |s.calls|
  {
    var call := s.calls[c];
    && call.leader < |s.dos|
    && var d := s.dos[call.leader];
       && d.pc.c == c && d.key == call.key && !d.pc.Waiting? && call.outcome == d.ran
       && (call.outcome.Some? <==> !d.pc.Inside?)
       && (call.done <==> !d.pc.Inside? && !d.pc.Ran?)
  }

  /** A map entry belongs to a leader that has not deleted it yet. */
  ghost predicate EntryOk(s: State, key: string)
    requires key in s.m
  {
    && s.m[key] < |s.calls| && s.calls[s.m[key]].key == key
    && s.calls[s.m[key]].leader < |s.dos| && Leads(s, s.calls[s.m[key]].leader)
  }

  ghost predicate Inv(s: State) {
    && (forall t :: 0 <= t < |s.dos| ==> DoOk(s, t))
    && (forall t :: 0 <= t < |s.dos| ==> Overlaps(s, t))
    && (forall c :: 0 <= c < |s.calls| ==> CallOk(s, c))
    && (forall key :: key in s.m ==> EntryOk(s, key))
  }

  lemma StepKeepsDo(s: State, e: Event, t: nat)
    requires Inv(s) && Enabled(s, e) && t < |s.dos|
    ensures t < |Apply(s, e).dos| && DoOk(Apply(s, e), t)
  {
    assert DoOk(s, t) && CallOk(s, s.dos[t].pc.c);
    if !e.Enter? {
      assert DoOk(s, e.t) && CallOk(s, s.dos[e.t].pc.c);
    }
    hide Inv, EntryOk;
  }

  lemma StepKeepsDos(s: State, e: Event)
    requires Inv(s) && Enabled(s, e)
    ensures forall t :: 0 <= t < |Apply(s, e).dos| ==> DoOk(Apply(s, e), t)
  {
    var s' := Apply(s, e);
    forall t | 0 <= t < |s'.dos| ensures DoOk(s', t) {
      if t < |s.dos| {
        StepKeepsDo(s, e, t);
      } else if e.key in s.m {
        assert EntryOk(s, e.key);
      }
    }
  }

  lemma StepKeepsOverlaps(s: State, e: Event)
    requires Inv(s) && Enabled(s, e)
    ensures forall t :: 0 <= t < |Apply(s, e).dos| ==> Overlaps(Apply(s, e), t)
  {
    var s' := Apply(s, e);
    forall t | 0 <= t < |s'.dos| ensures Overlaps(s', t) {
      if t < |s.dos| {
        assert DoOk(s, t) && Overlaps(s, t);
      } else if e.key in s.m {
        assert EntryOk(s, e.key);
        assert DoOk(s, s.calls[s.m[e.key]].leader);
      }
    }
  }

  lemma StepKeepsCalls(s: State, e: Event)
    requires Inv(s) && Enabled(s, e)
    ensures forall c :: 0 <= c < |Apply(s, e).calls| ==> CallOk(Apply(s, e), c)
  {
    var s' := Apply(s, e);
    forall c | 0 <= c < |s'.calls| ensures CallOk(s', c) {
      if c < |s.calls| {
        assert CallOk(s, c);
        if e.FReturns? || e.Signal? || e.Delete? || e.Return? {
          assert DoOk(s, e.t) && CallOk(s, s.dos[e.t].pc.c);
        }
      }
    }
  }

  lemma StepKeepsEntries(s: State, e: Event)
    requires Inv(s) && Enabled(s, e)
    ensures forall key :: key in Apply(s, e).m ==> EntryOk(Apply(s, e), key)
  {
    var s' := Apply(s, e);
    forall key | key in s'.m ensures EntryOk(s', key) {
      if key in s.m {
        assert EntryOk(s, key) && CallOk(s, s.m[key]) && DoOk(s, s.calls[s.m[key]].leader);
        if e.FReturns? || e.Signal? || e.Delete? || e.Return? {
          assert DoOk(s, e.t) && CallOk(s, s.dos[e.t].pc.c);
        }
      }
    }
  }

  lemma {:induction false} RunKeepsInv(es: seq<Event>, s: State)
    requires After(es) == Some(s)
    ensures Inv(s)
  {
    if es != [] {
      var last, before := es[|es| - 1], After(es[..|es| - 1]).value;
      RunKeepsInv(es[..|es| - 1], before);
      StepKeepsDos(before, last);
      StepKeepsOverlaps(before, last);
      StepKeepsCalls(before, last);
      StepKeepsEntries(before, last);
    }
  }

  // ----- times and outcomes are those of the schedule -----

  /** The `Do` entered with its Enter step, returned with its Return step, and what its own `f` returned is
      what an FReturns step said. */
  ghost predicate Recorded(es: seq<Event>, s: State, t: nat)
    requires t < |s.dos|
  {
    var d := s.dos[t];
    && d.entered < |es| && es[d.entered] == Enter(d.key)
    && (d.returned.Some? ==> d.returned.value < |es| && es[d.returned.value] == Return(t))
    && (d.ran.Some? ==> FReturns(t, d.ran.value) in es)
  }

  lemma StepRecords(es: seq<Event>, s: State, e: Event)
    requires Enabled(s, e) && s.time == |es| && forall t :: 0 <= t < |s.dos| ==> Recorded(es, s, t)
    ensures Apply(s, e).time == |es + [e]|
    ensures forall t :: 0 <= t < |Apply(s, e).dos| ==> Recorded(es + [e], Apply(s, e), t)
  {
    var s' := Apply(s, e);
    forall t | 0 <= t < |s'.dos| ensures Recorded(es + [e], s', t) {
      assert t < |s.dos| ==> Recorded(es, s, t);
      assert (es + [e])[|es|] == e;
    }
  }

  /** Every Enter step starts one `Do`, for its key. */
  function Entered(es: seq<Event>): seq<string> {
    if es == [] then []
    else Entered(es[..|es| - 1]) + if es[|es| - 1].Enter? then [es[|es| - 1].key] else []
  }

  lemma {:induction false} RunRecords(es: seq<Event>, s: State)
    requires After(es) == Some(s)
    ensures s.time == |es| && forall t :: 0 <= t < |s.dos| ==> Recorded(es, s, t)
    ensures |s.dos| == |Entered(es)| && forall t :: 0 <= t < |s.dos| ==> s.dos[t].key == Entered(es)[t]
  {
    if es != [] {
      var init, e := es[..|es| - 1], es[|es| - 1];
      RunRecords(init, After(init).value);
      StepRecords(init, After(init).value, e);
      assert init + [e] == es;
      hide Recorded;
    }
  }

  // ----- the promises -----

  /** In every reachable state at most one `Do` per key is inside `f`. */
  lemma OneInsidePerKey(es: seq<Event>, s: State, t: nat, u: nat)
    requires After(es) == Some(s)
    requires t < |s.dos| && u < |s.dos| && s.dos[t].pc.Inside? && s.dos[u].pc.Inside?
    requires s.dos[t].key == s.dos[u].key
    ensures t == u
  {
    RunKeepsInv(es, s);
    assert DoOk(s, t) && DoOk(s, u);
  }

  /** The final delete removes the leader's own entry, and nothing else. */
  lemma DeleteRemovesOwnEntry(es: seq<Event>, s: State, t: nat)
    requires After(es) == Some(s) && Enabled(s, Delete(t))
    ensures Known(s, t) && s.dos[t].key in s.m && s.m[s.dos[t].key] == s.dos[t].pc.c
    ensures s.calls[s.dos[t].pc.c].leader == t
    ensures Apply(s, Delete(t)).m.Keys == s.m.Keys - {s.dos[t].key}
  {
    RunKeepsInv(es, s);
    assert DoOk(s, t);
  }

  /** Every `Do` that returned gives exactly the value and error that `f` returned, by an FReturns step, in a
      `Do` for the same key that had not taken its Return step when this one took its Enter step. */
  lemma ReturnsAnOverlappingRun(es: seq<Event>, s: State, t: nat) returns (l: nat, outcome: Outcome)
    requires After(es) == Some(s) && t < |s.dos| && s.dos[t].pc.Returned?
    ensures l < |s.dos| && s.dos[l].key == s.dos[t].key
    ensures s.dos[t].result == Some(outcome) == s.dos[l].ran && FReturns(l, outcome) in es
    ensures s.dos[t].entered < |es| && es[s.dos[t].entered] == Enter(s.dos[t].key)
    ensures s.dos[l].returned.Some? ==>
      s.dos[t].entered < s.dos[l].returned.value < |es| && es[s.dos[l].returned.value] == Return(l)
  {
    RunKeepsInv(es, s);
    RunRecords(es, s);
    assert DoOk(s, t) && Overlaps(s, t) && CallOk(s, s.dos[t].pc.c);
    l := s.calls[s.dos[t].pc.c].leader;
    outcome := s.dos[t].result.value;
    assert Recorded(es, s, t) && Recorded(es, s, l);
  }

  /** A waiting follower is never stranded: it can return, or its leader is in `f` or about to signal. */
  lemma WaitersAreReleased(es: seq<Event>, s: State, t: nat)
    requires After(es) == Some(s) && t < |s.dos| && s.dos[t].pc.Waiting?
    ensures s.dos[t].pc.c < |s.calls| && s.calls[s.dos[t].pc.c].leader < |s.dos|
    ensures var l := s.calls[s.dos[t].pc.c].leader;
      Enabled(s, Return(t)) || Enabled(s, Signal(l)) || (forall outcome :: Enabled(s, FReturns(l, outcome)))
  {
    RunKeepsInv(es, s);
    assert DoOk(s, t) && CallOk(s, s.dos[t].pc.c);
  }

  /** The map only holds keys whose leader is still in flight, so a quiet group holds nothing. */
  lemma EntriesAreInFlight(es: seq<Event>, s: State, key: string) returns (l: nat)
    requires After(es) == Some(s) && key in s.m
    ensures l < |s.dos| && s.dos[l].key == key && s.dos[l].pc.c == s.m[key] && s.dos[l].returned.None?
  {
    RunKeepsInv(es, s);
    assert EntryOk(s, key) && CallOk(s, s.m[key]);
    l := s.calls[s.m[key]].leader;
    assert DoOk(s, l);
  }
}
