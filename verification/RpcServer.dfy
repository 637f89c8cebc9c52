/** server.go, one connection, as a transition system: the reading loop, one goroutine per request, the
    bounded result channel, the goroutine that writes the results, and the heartbeat listener. Nothing
    is assumed about the requests that come in. */
module RpcServer {
  import opened Options
  import opened RpcMessages

  /** serveCodec until the read loop ends, then the steps that wind the connection up: wg.Wait, closing
      the result channel, and ServeConn closing the heartbeat channel. */
  datatype ReaderPc = Reading | Draining | ClosingResults | ClosingTick | Ended

  /** The goroutine for one request: handleRequest, the send on resultCh, wg.Done. */
  datatype Worker = Running(req: Request) | ToSend(resp: Response) | Sent | Gone

  /** sendResponse and, after a write error or the end of the channel, drain. */
  datatype SenderPc = Idle | Writing(resp: Response) | Emptying | SenderEnded

  datatype ListenerPc = Listening | GaveUp | ListenerEnded

  /** `results` is the channel of capacity 10. The multisets count Seqs: of the requests that got a
      goroutine, of the responses on the wire, and of those thrown away after a write error. */
  datatype State = State(
    reader: ReaderPc, workers: seq<Worker>, results: seq<Response>, resultsClosed: bool, sender: SenderPc,
    beats: nat, tickClosed: bool, listener: ListenerPc,
    accepted: multiset<nat>, written: multiset<nat>, dropped: multiset<nat>, panicked: bool)

  datatype Event =
    | Take(req: Request)                 // readRequest returns a request
    | StopReading                        // a read or a write failed
    | Compute(i: nat, payload: Payload)  // handleRequest returns
    | Put(i: nat)                        // resultCh <- resp
    | Done(i: nat)                       // wg.Done
    | Wind                               // wg.Wait returns, close(resultCh), close(ch)
    | Fetch                              // sendResponse receives from the channel
    | Write(delivered: bool, ok: bool)
    | Discard                            // drain receives from the channel
    | Listen                             // heartListen receives a beat or the close
    | Expire                             // heartListen times out

  const Capacity := 10

  const Init := State(Reading, [], [], false, Idle, 0, false, Listening, multiset{}, multiset{}, multiset{}, false)

  predicate AllGone(s: State) {
    forall i :: 0 <= i < |s.workers| ==> s.workers[i] == Gone
  }

  predicate Enabled(s: State, e: Event) {
    match e
    case Take(_) => s.reader == Reading
    case StopReading => s.reader == Reading
    case Compute(i, _) => i < |s.workers| && s.workers[i].Running?
    case Put(i) => i < |s.workers| && s.workers[i].ToSend? && (|s.results| < Capacity || s.resultsClosed)
    case Done(i) => i < |s.workers| && s.workers[i] == Sent
    case Wind => (s.reader == Draining && AllGone(s)) || s.reader == ClosingResults || s.reader == ClosingTick
    case Fetch => s.sender == Idle && (s.results != [] || s.resultsClosed)
    case Write(delivered, ok) => s.sender.Writing? && (ok ==> delivered)
    case Discard => s.sender == Emptying && (s.results != [] || s.resultsClosed)
    case Listen => s.listener == Listening && (s.beats > 0 || s.tickClosed)
    case Expire => s.listener == Listening
  }

  function Apply(s: State, e: Event): State
    requires Enabled(s, e)
  {
    match e
    case Take(req) =>
      if req.target == "" then
        if s.tickClosed then s.(panicked := true)
        else if s.beats < 1 then s.(beats := s.beats + 1)
        else s
      else s.(workers := s.workers + [Running(req)], accepted := s.accepted + multiset{req.num})
    case StopReading => s.(reader := Draining)
    case Compute(i, payload) => s.(workers := s.workers[i := ToSend(Response(s.workers[i].req.num, payload))])
    case Put(i) =>
      if s.resultsClosed then s.(panicked := true)
      else s.(results := s.results + [s.workers[i].resp], workers := s.workers[i := Sent])
    case Done(i) => s.(workers := s.workers[i := Gone])
    case Wind =>
      if s.reader == Draining then s.(reader := ClosingResults)
      else if s.reader == ClosingResults then
        s.(reader := ClosingTick, resultsClosed := true, panicked := s.panicked || s.resultsClosed)
      else s.(reader := Ended, tickClosed := true, panicked := s.panicked || s.tickClosed)
    case Fetch =>
      if s.results != [] then s.(sender := Writing(s.results[0]), results := s.results[1..])
      else s.(sender := Emptying)
    case Write(delivered, ok) =>
      var next := s.(sender := if ok then Idle else Emptying);
      if delivered then next.(written := s.written + multiset{s.sender.resp.num})
      else next.(dropped := s.dropped + multiset{s.sender.resp.num})
    case Discard =>
      if s.results != [] then s.(results := s.results[1..], dropped := s.dropped + multiset{s.results[0].num})
      else s.(sender := SenderEnded)
    case Listen => if s.beats > 0 then s.(beats := s.beats - 1) else s.(listener := ListenerEnded)
    case Expire => s.(listener := GaveUp)
  }

  /** The response that a step puts on the wire. */
  function Emits(s: State, e: Event): Option<Response>
    requires Enabled(s, e)
  {
    match e
    case Write(true, _) => Some(s.sender.resp)
    case _ => None
  }

  /** The state after some steps from `s`, or None if one of them is not enabled. */
  function Run(s: State, es: seq<Event>): Option<State> {
    if es == [] then Some(s)
    else match Run(s, es[..|es| - 1])
      case None => None
      case Some(t) => if Enabled(t, es[|es| - 1]) then Some(Apply(t, es[|es| - 1])) else None
  }

  /** The state after a schedule. */
  function After(es: seq<Event>): Option<State> {
    Run(Init, es)
  }

  // ----- conservation -----

  function CountOf(n: nat, num: nat): nat {
    if n == num then 1 else 0
  }

  /** How many goroutines are still working on Seq `n`. */
  function InWorkers(workers: seq<Worker>, n: nat): nat {
    if workers == [] then 0 else Busy(workers[0], n) + InWorkers(workers[1..], n)
  }

  function Busy(w: Worker, n: nat): nat {
    match w
    case Running(req) => CountOf(n, req.num)
    case ToSend(resp) => CountOf(n, resp.num)
    case _ => 0
  }

  function InChannel(results: seq<Response>, n: nat): nat {
    if results == [] then 0 else CountOf(n, results[0].num) + InChannel(results[1..], n)
  }

  function InSender(pc: SenderPc, n: nat): nat {
    if pc.Writing? then CountOf(n, pc.resp.num) else 0
  }

  lemma {:induction false} OneWorkerChanges(workers: seq<Worker>, i: nat, w: Worker, n: nat)
    requires i < |workers|
    ensures InWorkers(workers[i := w], n) + Busy(workers[i], n) == InWorkers(workers, n) + Busy(w, n)
  {
    if i == 0 {
      assert workers[0 := w][1..] == workers[1..];
    } else {
      assert workers[i := w][1..] == workers[1..][i - 1 := w];
      OneWorkerChanges(workers[1..], i - 1, w, n);
    }
  }

  lemma {:induction false} OneWorkerMore(workers: seq<Worker>, w: Worker, n: nat)
    ensures InWorkers(workers + [w], n) == InWorkers(workers, n) + Busy(w, n)
  {
    if workers == [] {
      assert workers + [w] == [w];
    } else {
      assert (workers + [w])[1..] == workers[1..] + [w];
      OneWorkerMore(workers[1..], w, n);
    }
  }

  lemma {:induction false} OneResultMore(results: seq<Response>, resp: Response, n: nat)
    ensures InChannel(results + [resp], n) == InChannel(results, n) + CountOf(n, resp.num)
  {
    if results == [] {
      assert results + [resp] == [resp];
    } else {
      assert (results + [resp])[1..] == results[1..] + [resp];
      OneResultMore(results[1..], resp, n);
    }
  }

  ghost predicate Conserved(s: State, n: nat) {
    s.accepted[n] ==
      InWorkers(s.workers, n) + InChannel(s.results, n) + InSender(s.sender, n) + s.written[n] + s.dropped[n]
  }

  lemma TakeConserves(s: State, req: Request, n: nat)
    requires Conserved(s, n) && Enabled(s, Take(req))
    ensures Conserved(Apply(s, Take(req)), n)
  {
    OneWorkerMore(s.workers, Running(req), n);
  }

  lemma ComputeConserves(s: State, i: nat, payload: Payload, n: nat)
    requires Conserved(s, n) && Enabled(s, Compute(i, payload))
    ensures Conserved(Apply(s, Compute(i, payload)), n)
  {
    OneWorkerChanges(s.workers, i, ToSend(Response(s.workers[i].req.num, payload)), n);
  }

  lemma PutConserves(s: State, i: nat, n: nat)
    requires Conserved(s, n) && Enabled(s, Put(i))
    ensures Conserved(Apply(s, Put(i)), n)
  {
    OneWorkerChanges(s.workers, i, Sent, n);
    OneResultMore(s.results, s.workers[i].resp, n);
  }

  lemma StepConserves(s: State, e: Event, n: nat)
    requires Conserved(s, n) && Enabled(s, e)
    ensures Conserved(Apply(s, e), n)
  {
    match e
    case Take(req) => TakeConserves(s, req, n);
    case Compute(i, payload) => ComputeConserves(s, i, payload, n);
    case Put(i) => PutConserves(s, i, n);
    case Done(i) => OneWorkerChanges(s.workers, i, Gone, n);
    case _ =>
  }

  // ----- channel lifetimes -----

  /** When the loop has stopped reading, when every goroutine is through, and when each channel closes. */
  ghost predicate LifetimesOk(s: State) {
    && !s.panicked && |s.results| <= Capacity && s.beats <= 1
    && (s.resultsClosed <==> s.reader == ClosingTick || s.reader == Ended)
    && (s.tickClosed <==> s.reader == Ended)
    && (s.reader in {ClosingResults, ClosingTick, Ended} ==> AllGone(s))
    && (s.sender == SenderEnded ==> s.resultsClosed && s.results == [])
    && (s.listener == ListenerEnded ==> s.tickClosed)
  }

  lemma StepKeepsLifetimes(s: State, e: Event)
    requires LifetimesOk(s) && Enabled(s, e)
    ensures LifetimesOk(Apply(s, e))
  {
  }

  lemma {:induction false} RunKeepsInv(es: seq<Event>, s: State)
    requires After(es) == Some(s)
    ensures LifetimesOk(s) && forall n :: Conserved(s, n)
  {
    if es != [] {
      var before, e := After(es[..|es| - 1]).value, es[|es| - 1];
      RunKeepsInv(es[..|es| - 1], before);
      hide Apply, Enabled, Conserved, LifetimesOk;
      StepKeepsLifetimes(before, e);
      forall n ensures Conserved(s, n) {
        StepConserves(before, e, n);
      }
    }
  }

  // ----- the promises -----

  /** At any time, and for every Seq, the accepted requests are exactly those in goroutines, in the
      channel, with the sender, on the wire, or thrown away; when all is over, only the last two are left. */
  lemma Conservation(es: seq<Event>, s: State, n: nat)
    requires After(es) == Some(s)
    ensures s.accepted[n] ==
      InWorkers(s.workers, n) + InChannel(s.results, n) + InSender(s.sender, n) + s.written[n] + s.dropped[n]
    ensures s.reader == Ended && s.sender == SenderEnded ==> s.accepted[n] == s.written[n] + s.dropped[n]
  {
    RunKeepsInv(es, s);
    assert Conserved(s, n);
    if s.reader == Ended && s.sender == SenderEnded {
      NobodyWorks(s.workers, n);
    }
  }

  lemma {:induction false} NobodyWorks(workers: seq<Worker>, n: nat)
    requires forall i :: 0 <= i < |workers| ==> workers[i] == Gone
    ensures InWorkers(workers, n) == 0
  {
    if workers != [] {
      NobodyWorks(workers[1..], n);
    }
  }

  /** Nothing is ever sent on a closed channel and no channel is closed twice. */
  lemma ChannelsAreSafe(es: seq<Event>, s: State, e: Event)
    requires After(es) == Some(s) && Enabled(s, e)
    ensures !s.panicked && !Apply(s, e).panicked
    ensures e.Put? ==> !s.resultsClosed
    ensures e.Take? ==> !s.tickClosed
    ensures |s.results| <= 10 && forall i :: 0 <= i < |s.workers| && s.workers[i].ToSend? ==>
      (Enabled(s, Put(i)) <==> |s.results| < 10)
  {
    RunKeepsInv(es, s);
    StepKeepsLifetimes(s, e);
  }

  lemma RoomMakesReady(s: State, i: nat)
    requires i < |s.workers| && s.workers[i].ToSend? && |s.results| == Capacity && !s.resultsClosed
    ensures s.sender == Idle ==> Enabled(s, Fetch) && Enabled(Apply(s, Fetch), Put(i))
    ensures s.sender == Emptying ==> Enabled(s, Discard) && Enabled(Apply(s, Discard), Put(i))
  {
  }

  /** A goroutine that is blocked on the full channel can always be let through: the sender or drain takes
      a result in one step, or in two when a write is under way, whichever way that write ends. */
  lemma BlockedWorkerIsReleased(es: seq<Event>, s: State, i: nat)
    requires After(es) == Some(s) && i < |s.workers| && s.workers[i].ToSend? && !Enabled(s, Put(i))
    ensures match s.sender
      case Idle => Enabled(s, Fetch) && Enabled(Apply(s, Fetch), Put(i))
      case Emptying => Enabled(s, Discard) && Enabled(Apply(s, Discard), Put(i))
      case Writing(_) =>
        ReleasedAfter(s, Write(true, true), i) && forall delivered :: ReleasedAfter(s, Write(delivered, false), i)
      case SenderEnded => false
  {
    RunKeepsInv(es, s);
    if s.sender == Idle || s.sender == Emptying {
      RoomMakesReady(s, i);
    } else if s.sender.Writing? {
      RoomMakesReady(Apply(s, Write(true, true)), i);
      forall delivered ensures ReleasedAfter(s, Write(delivered, false), i) {
        RoomMakesReady(Apply(s, Write(delivered, false)), i);
      }
    }
  }

  /** After the step, one more step of the sender or of drain lets the goroutine send. */
  ghost predicate ReleasedAfter(s: State, e: Event, i: nat) {
    && Enabled(s, e)
    && var t := Apply(s, e);
       || (Enabled(t, Fetch) && Enabled(Apply(t, Fetch), Put(i)))
       || (Enabled(t, Discard) && Enabled(Apply(t, Discard), Put(i)))
  }

  // ----- winding up -----

  /** The steps of the goroutines, of the sender and of the end of serveCodec. */
  predicate Winds(e: Event) {
    e.Compute? || e.Put? || e.Done? || e.Wind? || e.Fetch? || e.Write? || e.Discard?
  }

  function WorkLeft(w: Worker): nat {
    match w
    case Running(_) => 5
    case ToSend(_) => 4
    case Sent => 1
    case Gone => 0
  }

  function AllWorkLeft(workers: seq<Worker>): nat {
    if workers == [] then 0 else WorkLeft(workers[0]) + AllWorkLeft(workers[1..])
  }

  function SendingLeft(pc: SenderPc): nat {
    match pc
    case Writing(_) => 3
    case Idle => 2
    case Emptying => 1
    case SenderEnded => 0
  }

  function ClosingLeft(pc: ReaderPc): nat {
    match pc
    case Reading => 4
    case Draining => 3
    case ClosingResults => 2
    case ClosingTick => 1
    case Ended => 0
  }

  /** An upper bound for the steps that are left. */
  function StepsLeft(s: State): nat {
    AllWorkLeft(s.workers) + 2 * |s.results| + SendingLeft(s.sender) + ClosingLeft(s.reader)
  }

  lemma {:induction false} LessWork(workers: seq<Worker>, i: nat, w: Worker)
    requires i < |workers|
    ensures AllWorkLeft(workers[i := w]) + WorkLeft(workers[i]) == AllWorkLeft(workers) + WorkLeft(w)
  {
    if i == 0 {
      assert workers[0 := w][1..] == workers[1..];
    } else {
      assert workers[i := w][1..] == workers[1..][i - 1 := w];
      LessWork(workers[1..], i - 1, w);
    }
  }

  /** Each such step brings the end closer. */
  lemma StepGetsCloser(s: State, e: Event)
    requires LifetimesOk(s) && Enabled(s, e) && Winds(e)
    ensures StepsLeft(Apply(s, e)) < StepsLeft(s)
  {
    if e.Compute? || e.Put? || e.Done? {
      LessWork(s.workers, e.i, Apply(s, e).workers[e.i]);
    }
  }

  /** Until the end there is always such a step. */
  lemma SomeStepIsLeft(s: State) returns (e: Event)
    requires LifetimesOk(s) && s.reader != Reading && !(s.reader == Ended && s.sender == SenderEnded)
    ensures Enabled(s, e) && Winds(e)
  {
    var toSender := if s.sender == Idle then Fetch else if s.sender.Writing? then Write(true, true) else Discard;
    if Enabled(s, Wind) {
      e := Wind;
    } else if s.reader == Ended {
      e := toSender;
    } else {
      var i :| 0 <= i < |s.workers| && s.workers[i] != Gone;
      match s.workers[i]
      case Running(_) => e := Compute(i, TimedOut);
      case ToSend(_) => e := if Enabled(s, Put(i)) then Put(i) else toSender;
      case Sent => e := Done(i);
    }
  }

  lemma RunOneMore(s: State, es: seq<Event>, t: State, e: Event)
    requires Run(s, es) == Some(t) && Enabled(t, e)
    ensures Run(s, es + [e]) == Some(Apply(t, e))
  {
    hide Apply, Enabled;
    assert (es + [e])[..|es|] == es;
  }

  lemma WindUp(s: State, es: seq<Event>, t: State) returns (es': seq<Event>, t': State)
    requires Run(s, es) == Some(t) && LifetimesOk(t) && t.reader != Reading
    requires forall i :: 0 <= i < |es| ==> Winds(es[i])
    ensures Run(s, es') == Some(t') && t'.reader == Ended && t'.sender == SenderEnded
    ensures forall i :: 0 <= i < |es'| ==> Winds(es'[i])
    decreases StepsLeft(t)
  {
    if t.reader == Ended && t.sender == SenderEnded {
      es', t' := es, t;
    } else {
      var e := SomeStepIsLeft(t);
      StepGetsCloser(t, e);
      StepKeepsLifetimes(t, e);
      RunOneMore(s, es, t, e);
      assert Apply(t, e).reader != Reading;
      hide Apply, Enabled, LifetimesOk;
      es', t' := WindUp(s, es + [e], Apply(t, e));
    }
  }

  /** Once reading has stopped the connection can always be wound up: some steps lead to the end of the
      loop and of the sender. */
  lemma WindingUpEnds(es: seq<Event>, s: State) returns (more: seq<Event>, t: State)
    requires After(es) == Some(s) && s.reader != Reading
    ensures Run(s, more) == Some(t) && t.reader == Ended && t.sender == SenderEnded
    ensures forall i :: 0 <= i < |more| ==> Winds(more[i])
  {
    RunKeepsInv(es, s);
    more, t := WindUp(s, [], s);
  }

  /** And every way of winding up ends: no more such steps can follow than `StepsLeft` allows. */
  lemma {:induction false} WindingUpIsBounded(s: State, more: seq<Event>, t: State)
    requires LifetimesOk(s) && Run(s, more) == Some(t) && forall i :: 0 <= i < |more| ==> Winds(more[i])
    ensures LifetimesOk(t) && StepsLeft(t) + |more| <= StepsLeft(s)
    decreases |more|
  {
    if more != [] {
      var init, e := more[..|more| - 1], more[|more| - 1];
      var before := Run(s, init).value;
      WindingUpIsBounded(s, init, before);
      hide Apply, Enabled, LifetimesOk, StepsLeft;
      StepGetsCloser(before, e);
      StepKeepsLifetimes(before, e);
    }
  }

  // ----- what went in and what came out -----

  /** How many requests with Seq `n`, heartbeats aside, have been read. */
  function Requested(es: seq<Event>, n: nat): nat {
    if es == [] then 0
    else
      var e := es[|es| - 1];
      Requested(es[..|es| - 1], n) + if e.Take? && e.req.target != "" && e.req.num == n then 1 else 0
  }

  lemma ReadingStep(s: State, e: Event, n: nat)
    requires Enabled(s, e)
    ensures Apply(s, e).accepted[n] ==
      s.accepted[n] + if e.Take? && e.req.target != "" && e.req.num == n then 1 else 0
    ensures Apply(s, e).reader == Reading <==> s.reader == Reading && e != StopReading
  {
  }

  /** Exactly the requests with a method get a goroutine. */
  lemma {:induction false} AcceptedAreTheRequests(es: seq<Event>, s: State, n: nat)
    requires After(es) == Some(s)
    ensures s.accepted[n] == Requested(es, n)
  {
    if es != [] {
      var before := After(es[..|es| - 1]).value;
      AcceptedAreTheRequests(es[..|es| - 1], before, n);
      hide Apply, Enabled;
      ReadingStep(before, es[|es| - 1], n);
    }
  }

  /** The loop reads until the first failure and never again. */
  lemma {:induction false} ReadsUntilFailure(es: seq<Event>, s: State)
    requires After(es) == Some(s)
    ensures s.reader == Reading <==> forall i :: 0 <= i < |es| ==> es[i] != StopReading
  {
    if es != [] {
      var init, e := es[..|es| - 1], es[|es| - 1];
      ReadsUntilFailure(init, After(init).value);
      ReadingStep(After(init).value, e, 0);
      hide Apply, Enabled;
      assert forall i :: 0 <= i < |init| ==> init[i] == es[i];
    }
  }

  /** The response that a step puts into the channel. */
  function PutBy(s: State, e: Event): seq<Response> {
    if e.Put? && e.i < |s.workers| && s.workers[e.i].ToSend? then [s.workers[e.i].resp] else []
  }

  /** The response that a step receives from it, into the hands of the sender or to be thrown away. */
  function TakenBy(s: State, e: Event): seq<Response>
    requires Enabled(s, e)
  {
    if e.Fetch? && Apply(s, e).sender.Writing? then [Apply(s, e).sender.resp]
    else if e.Discard? && s.results != [] then [s.results[0]]
    else []
  }

  function PutIn(es: seq<Event>): seq<Response> {
    if es == [] then []
    else match After(es[..|es| - 1])
      case None => []
      case Some(s) => PutIn(es[..|es| - 1]) + PutBy(s, es[|es| - 1])
  }

  function TakenOut(es: seq<Event>): seq<Response> {
    if es == [] then []
    else match After(es[..|es| - 1])
      case None => []
      case Some(s) =>
        TakenOut(es[..|es| - 1]) + if Enabled(s, es[|es| - 1]) then TakenBy(s, es[|es| - 1]) else []
  }

  lemma ChannelStep(s: State, e: Event)
    requires Enabled(s, e) && LifetimesOk(s)
    ensures s.results + PutBy(s, e) == TakenBy(s, e) + Apply(s, e).results
  {
    if e.Put? {
      PutStep(s, e);
    } else if s.results != [] {
      assert s.results == [s.results[0]] + s.results[1..];
    }
  }

  lemma PutStep(s: State, e: Event)
    requires Enabled(s, e) && LifetimesOk(s) && e.Put?
    ensures s.results + PutBy(s, e) == Apply(s, e).results && TakenBy(s, e) == []
  {
  }

  lemma Shifted<T>(put: seq<T>, taken: seq<T>, was: seq<T>, p: seq<T>, t: seq<T>, now: seq<T>)
    requires put == taken + was && was + p == t + now
    ensures put + p == taken + t + now
  {
    assert taken + was + p == taken + (was + p);
  }

  /** The channel keeps its order: what was received and what is still inside is what was put in. */
  lemma {:induction false} ChannelIsFifo(es: seq<Event>, s: State)
    requires After(es) == Some(s)
    ensures PutIn(es) == TakenOut(es) + s.results
  {
    if es != [] {
      var init, e := es[..|es| - 1], es[|es| - 1];
      var before := After(init).value;
      ChannelIsFifo(init, before);
      RunKeepsInv(init, before);
      hide Apply, Enabled, PutBy, TakenBy, Conserved, LifetimesOk;
      ChannelStep(before, e);
      Shifted(PutIn(init), TakenOut(init), before.results, PutBy(before, e), TakenBy(before, e), s.results);
    }
  }

  // ----- write errors -----

  predicate IsWriteError(e: Event) {
    e.Write? && !e.ok
  }

  ghost predicate WriteFailed(es: seq<Event>) {
    exists i :: 0 <= i < |es| && IsWriteError(es[i])
  }

  lemma WriteFailedMore(es: seq<Event>)
    requires es != []
    ensures WriteFailed(es) <==> WriteFailed(es[..|es| - 1]) || IsWriteError(es[|es| - 1])
  {
    var init, e := es[..|es| - 1], es[|es| - 1];
    assert forall i :: 0 <= i < |init| ==> init[i] == es[i];
    if IsWriteError(e) {
      assert WriteFailed(es);
    }
    if WriteFailed(init) {
      var i :| 0 <= i < |init| && IsWriteError(init[i]);
      assert IsWriteError(es[i]);
    }
  }

  lemma SenderStep(s: State, e: Event)
    requires Enabled(s, e)
    ensures var p, p' := s.sender, Apply(s, e).sender;
      && (IsWriteError(e) ==> p' == Emptying)
      && (p == Emptying || p == SenderEnded ==> p' == Emptying || p' == SenderEnded)
      && ((p.Idle? || p.Writing?) && !IsWriteError(e) ==>
            p'.Idle? || p'.Writing? || (s.resultsClosed && s.results == []))
    ensures Apply(s, e).dropped != s.dropped ==> IsWriteError(e) || (s.sender == Emptying && s.results != [])
    ensures s.resultsClosed && s.results == [] && e.Put? ==> Apply(s, e).panicked
    ensures s.resultsClosed ==> Apply(s, e).resultsClosed
  {
  }

  /** After a write error the sender writes nothing more; as long as there was none it throws nothing away,
      and it stops only when the channel is closed and empty. */
  lemma {:induction false} DropsOnlyAfterWriteError(es: seq<Event>, s: State)
    requires After(es) == Some(s)
    ensures WriteFailed(es) ==>
      (s.sender == Emptying || s.sender == SenderEnded) && forall delivered, ok :: !Enabled(s, Write(delivered, ok))
    ensures !WriteFailed(es) ==> s.dropped == multiset{}
    ensures !WriteFailed(es) && (s.sender == Emptying || s.sender == SenderEnded) ==> s.resultsClosed && s.results == []
  {
    if es != [] {
      var init, e := es[..|es| - 1], es[|es| - 1];
      var before := After(init).value;
      DropsOnlyAfterWriteError(init, before);
      RunKeepsInv(init, before);
      RunKeepsInv(es, s);
      hide Conserved, LifetimesOk, WriteFailed;
      SenderStep(before, e);
      if before.resultsClosed && before.results == [] {
        ClosedStaysEmpty(before, e);
      }
      WriteFailedMore(es);
      hide Apply;
    }
  }

  lemma ClosedStaysEmpty(s: State, e: Event)
    requires Enabled(s, e) && s.resultsClosed && s.results == []
    ensures Apply(s, e).results == [] && Apply(s, e).resultsClosed
  {
  }

  // ----- the heartbeat listener -----

  /** A heartbeat starts no goroutine; it leaves a beat that the listener can receive. */
  lemma HeartBeatReachesListener(es: seq<Event>, s: State, req: Request)
    requires After(es) == Some(s) && Enabled(s, Take(req)) && req.target == ""
    ensures var t := Apply(s, Take(req));
      && t.workers == s.workers && t.accepted == s.accepted && t.beats == 1
      && (t.listener == Listening ==> Enabled(t, Listen) && Apply(t, Listen).beats == 0
                                       && Apply(t, Listen).listener == Listening)
  {
    RunKeepsInv(es, s);
  }

  /** When the channel is closed, the listener takes the beat that may be left and then ends. */
  lemma ListenerEnds(es: seq<Event>, s: State)
    requires After(es) == Some(s) && s.tickClosed && s.listener == Listening
    ensures Enabled(s, Listen)
    ensures var t := Apply(s, Listen);
      t.listener == ListenerEnded || (Enabled(t, Listen) && Apply(t, Listen).listener == ListenerEnded)
  {
    RunKeepsInv(es, s);
  }
}
