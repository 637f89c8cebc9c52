/** Client, two FIFO wires and server as one system. The service is an arbitrary relation between a
    method with its arguments and a payload. */
module Rpc {
  import opened Options
  import opened RpcMessages
  import C = RpcClient
  import S = RpcServer

  datatype State = State(client: C.State, toServer: seq<Request>, server: S.State, toClient: seq<Response>)

  datatype Event = Client(c: C.Event) | Server(s: S.Event)

  const Init := State(C.Init, [], S.Init, [])

  predicate Enabled(serve: Service, s: State, e: Event) {
    match e
    case Client(c) =>
      C.Enabled(s.client, c) && (c.Read? ==> s.toClient != [] && s.toClient[0] == c.resp)
    case Server(v) =>
      && S.Enabled(s.server, v)
      && (v.Take? ==> s.toServer != [] && s.toServer[0] == v.req)
      && (v.Compute? ==>
            var req := s.server.workers[v.i].req;
            Answers(serve, req.target, req.args, v.payload))
  }

  function Sent<T>(wire: seq<T>, message: Option<T>): seq<T> {
    if message.Some? then wire + [message.value] else wire
  }

  function Apply(serve: Service, s: State, e: Event): State
    requires Enabled(serve, s, e)
  {
    match e
    case Client(c) =>
      s.(client := C.Apply(s.client, c), toServer := Sent(s.toServer, C.Emits(s.client, c)),
         toClient := if c.Read? then s.toClient[1..] else s.toClient)
    case Server(v) =>
      s.(server := S.Apply(s.server, v), toClient := Sent(s.toClient, S.Emits(s.server, v)),
         toServer := if v.Take? then s.toServer[1..] else s.toServer)
  }

  /** The state after a schedule, or None if the schedule takes a step that is not enabled. */
  function After(serve: Service, es: seq<Event>): Option<State> {
    if es == [] then Some(Init)
    else match After(serve, es[..|es| - 1])
      case None => None
      case Some(s) => if Enabled(serve, s, es[|es| - 1]) then Some(Apply(serve, s, es[|es| - 1])) else None
  }

  // ----- a run of the system is a run of the client and a run of the server -----

  function ClientPart(es: seq<Event>): seq<C.Event> {
    if es == [] then []
    else ClientPart(es[..|es| - 1]) + match es[|es| - 1] { case Client(c) => [c] case Server(_) => [] }
  }

  function ServerPart(es: seq<Event>): seq<S.Event> {
    if es == [] then []
    else ServerPart(es[..|es| - 1]) + match es[|es| - 1] { case Client(_) => [] case Server(v) => [v] }
  }

  lemma {:induction false} Projects(serve: Service, es: seq<Event>, s: State)
    requires After(serve, es) == Some(s)
    ensures C.After(ClientPart(es)) == Some(s.client) && S.After(ServerPart(es)) == Some(s.server)
  {
    if es != [] {
      hide C.Apply, C.Enabled, S.Apply, S.Enabled;
      var init, e := es[..|es| - 1], es[|es| - 1];
      var before := After(serve, init).value;
      Projects(serve, init, before);
      match e
      case Client(c) =>
        OneMoreClient(ClientPart(init), before.client, c);
        assert ServerPart(es) == ServerPart(init);
      case Server(v) =>
        OneMoreServer(ServerPart(init), before.server, v);
        assert ClientPart(es) == ClientPart(init);
    }
  }

  lemma OneMoreClient(es: seq<C.Event>, s: C.State, e: C.Event)
    requires C.After(es) == Some(s) && C.Enabled(s, e)
    ensures C.After(es + [e]) == Some(C.Apply(s, e))
  {
    hide C.Apply, C.Enabled;
    assert (es + [e])[..|es|] == es;
  }

  lemma OneMoreServer(es: seq<S.Event>, s: S.State, e: S.Event)
    requires S.After(es) == Some(s) && S.Enabled(s, e)
    ensures S.After(es + [e]) == Some(S.Apply(s, e))
  {
    hide S.Apply, S.Enabled;
    assert (es + [e])[..|es|] == es;
  }

  // ----- what is in flight -----

  /** Seq `n` belongs to a call for this method and these arguments whose sender has got to the write. */
  ghost predicate Asked(c: C.State, n: nat) {
    n < |c.numbered| && c.numbered[n] < |c.calls|
    && var call := c.calls[c.numbered[n]];
       call.num == n && call.pc != C.Start && call.status != C.New
  }

  ghost predicate RequestOk(c: C.State, req: Request) {
    req.target == "" ||
    (Asked(c, req.num) && c.calls[c.numbered[req.num]].target == req.target
     && c.calls[c.numbered[req.num]].args == req.args)
  }

  ghost predicate ResponseOk(serve: Service, c: C.State, resp: Response) {
    && Asked(c, resp.num)
    && var call := c.calls[c.numbered[resp.num]];
       call.target != "" && Answers(serve, call.target, call.args, resp.payload)
  }

  ghost predicate WorkerOk(serve: Service, c: C.State, w: S.Worker) {
    match w
    case Running(req) => req.target != "" && RequestOk(c, req)
    case ToSend(resp) => ResponseOk(serve, c, resp)
    case _ => true
  }

  ghost predicate WiresOk(serve: Service, s: State) {
    && (forall i :: 0 <= i < |s.toServer| ==> RequestOk(s.client, s.toServer[i]))
    && (forall i :: 0 <= i < |s.toClient| ==> ResponseOk(serve, s.client, s.toClient[i]))
  }

  ghost predicate ServerOk(serve: Service, c: C.State, s: S.State) {
    && (forall i :: 0 <= i < |s.workers| ==> WorkerOk(serve, c, s.workers[i]))
    && (forall i :: 0 <= i < |s.results| ==> ResponseOk(serve, c, s.results[i]))
    && (s.sender.Writing? ==> ResponseOk(serve, c, s.sender.resp))
  }

  ghost predicate HeldOk(serve: Service, c: C.State, task: C.Task) {
    task.ToFinish? && task.verdict.Answer? ==> ResponseOk(serve, c, task.verdict.resp)
  }

  ghost predicate ResultOk(serve: Service, c: C.State, k: nat)
    requires k < |c.calls|
  {
    c.calls[k].answer.Some? ==>
      c.calls[k].target != "" && Answers(serve, c.calls[k].target, c.calls[k].args, c.calls[k].answer.value.payload)
  }

  ghost predicate ClientOk(serve: Service, c: C.State) {
    && (c.reader.Got? ==> ResponseOk(serve, c, c.reader.resp))
    && (forall t :: t in c.holds ==> HeldOk(serve, c, c.holds[t]))
    && (forall k :: 0 <= k < |c.calls| ==> ResultOk(serve, c, k))
    && c.fault != C.LogicError
  }

  // ----- client steps -----

  lemma AskedStays(c: C.State, c': C.State, n: nat)
    requires C.Onward(c, c') && Asked(c, n)
    ensures Asked(c', n)
    ensures c'.calls[c'.numbered[n]].target == c.calls[c.numbered[n]].target
    ensures c'.calls[c'.numbered[n]].args == c.calls[c.numbered[n]].args
  {
    assert C.CallOnward(c.calls[c.numbered[n]], c'.calls[c.numbered[n]]);
  }

  lemma RequestStays(c: C.State, c': C.State, req: Request)
    requires C.Onward(c, c') && RequestOk(c, req)
    ensures RequestOk(c', req)
  {
    if req.target != "" {
      AskedStays(c, c', req.num);
    }
  }

  lemma ResponseStays(serve: Service, c: C.State, c': C.State, resp: Response)
    requires C.Onward(c, c') && ResponseOk(serve, c, resp)
    ensures ResponseOk(serve, c', resp)
  {
    AskedStays(c, c', resp.num);
  }

  lemma ServerStays(serve: Service, c: C.State, c': C.State, s: S.State)
    requires C.Onward(c, c') && ServerOk(serve, c, s)
    ensures ServerOk(serve, c', s)
  {
    hide C.Onward, ResponseOk, RequestOk;
    forall i | 0 <= i < |s.workers| ensures WorkerOk(serve, c', s.workers[i]) {
      assert WorkerOk(serve, c, s.workers[i]);
      match s.workers[i]
      case Running(req) => RequestStays(c, c', req);
      case ToSend(resp) => ResponseStays(serve, c, c', resp);
      case _ =>
    }
    forall i | 0 <= i < |s.results| ensures ResponseOk(serve, c', s.results[i]) {
      ResponseStays(serve, c, c', s.results[i]);
    }
    if s.sender.Writing? {
      ResponseStays(serve, c, c', s.sender.resp);
    }
  }

  /** A request goes out only for a call that is RECEIVING, under its own Seq. */
  lemma EmitsOk(c: C.State, e: C.Event)
    requires C.Inv(c) && C.Enabled(c, e) && C.Emits(c, e).Some?
    ensures RequestOk(c, C.Emits(c, e).value)
  {
    if e.Write? {
      assert C.CallOk(c, e.k);
    }
  }

  lemma WiresStay(serve: Service, s: State, e: C.Event)
    requires C.Inv(s.client) && Enabled(serve, s, Client(e)) && WiresOk(serve, s)
    requires C.Onward(s.client, C.Apply(s.client, e))
    ensures WiresOk(serve, Apply(serve, s, Client(e)))
  {
    hide C.Apply, C.Enabled, C.Emits, C.Inv, C.Onward, RequestOk, ResponseOk;
    var s' := Apply(serve, s, Client(e));
    forall i | 0 <= i < |s'.toServer| ensures RequestOk(s'.client, s'.toServer[i]) {
      if i < |s.toServer| {
        RequestStays(s.client, s'.client, s.toServer[i]);
      } else {
        EmitsOk(s.client, e);
        RequestStays(s.client, s'.client, s'.toServer[i]);
      }
    }
    forall i | 0 <= i < |s'.toClient| ensures ResponseOk(serve, s'.client, s'.toClient[i]) {
      ResponseStays(serve, s.client, s'.client, if e.Read? then s.toClient[i + 1] else s.toClient[i]);
    }
  }

  /** A new hold of the receiver, and nothing else, carries the response it has read. */
  lemma NewHoldsCarry(c: C.State, e: C.Event, t: C.Tid)
    requires C.Enabled(c, e) && t in C.Apply(c, e).holds
    ensures var task := C.Apply(c, e).holds[t];
      task.ToFinish? && task.verdict.Answer? ==>
        (t in c.holds && c.holds[t] == task) || (c.reader.Got? && c.reader.resp == task.verdict.resp)
  {
  }

  /** Only the finishing of a held answer sets a call's answer. */
  lemma NewAnswersComeFromHolds(c: C.State, e: C.Event, k: nat)
    requires C.Enabled(c, e) && k < |C.Apply(c, e).calls|
    ensures var a := C.Apply(c, e).calls[k].answer;
      a.Some? ==>
        || (k < |c.calls| && c.calls[k].answer == a)
        || (e.Finish? && c.holds[e.t].k == k && c.holds[e.t].verdict == C.Answer(a.value))
  {
  }

  lemma ReaderCarries(c: C.State, e: C.Event)
    requires C.Enabled(c, e) && C.Apply(c, e).reader.Got?
    ensures C.Apply(c, e).reader == c.reader || (e.Read? && C.Apply(c, e).reader.resp == e.resp)
  {
  }

  /** The status check in `receive` needs a NEW call to fail, and a response for a NEW call does not exist. */
  lemma NoLogicError(serve: Service, c: C.State, e: C.Event)
    requires C.Inv(c) && C.Enabled(c, e) && ClientOk(serve, c)
    ensures C.Apply(c, e).fault != C.LogicError
  {
    if e.Finish? {
      assert C.HoldOk(c, e.t) && C.CallOk(c, c.holds[e.t].k);
      assert HeldOk(serve, c, c.holds[e.t]);
      hide C.Inv;
    }
  }

  lemma AnswersStay(serve: Service, c: C.State, e: C.Event, k: nat)
    requires C.Inv(c) && C.Enabled(c, e) && ClientOk(serve, c) && k < |C.Apply(c, e).calls|
    requires C.Onward(c, C.Apply(c, e))
    ensures ResultOk(serve, C.Apply(c, e), k)
  {
    NewAnswersComeFromHolds(c, e, k);
    hide C.Apply, C.Enabled;
    var c' := C.Apply(c, e);
    if c'.calls[k].answer.Some? {
      if k < |c.calls| && c.calls[k].answer == c'.calls[k].answer {
        assert ResultOk(serve, c, k) && C.CallOnward(c.calls[k], c'.calls[k]);
      } else {
        FinishedByHolder(serve, c, e.t);
        assert C.CallOnward(c.calls[k], c'.calls[k]);
      }
    }
  }

  lemma FinishedByHolder(serve: Service, c: C.State, t: C.Tid)
    requires C.Inv(c) && ClientOk(serve, c) && t in c.holds && c.holds[t].ToFinish? && c.holds[t].verdict.Answer?
    ensures var k, resp := c.holds[t].k, c.holds[t].verdict.resp;
      k < |c.calls| && c.calls[k].target != "" && Answers(serve, c.calls[k].target, c.calls[k].args, resp.payload)
  {
    assert C.HoldOk(c, t) && HeldOk(serve, c, c.holds[t]);
  }

  lemma ClientStays(serve: Service, s: State, e: C.Event)
    requires C.Inv(s.client) && Enabled(serve, s, Client(e)) && WiresOk(serve, s) && ClientOk(serve, s.client)
    requires C.Onward(s.client, C.Apply(s.client, e))
    ensures ClientOk(serve, C.Apply(s.client, e))
  {
    hide C.Apply, C.Enabled, C.Inv, C.Onward, ResponseOk, ResultOk;
    var c, c' := s.client, C.Apply(s.client, e);
    if c'.reader.Got? {
      ReaderCarries(c, e);
      ResponseStays(serve, c, c', c'.reader.resp);
    }
    forall t | t in c'.holds ensures HeldOk(serve, c', c'.holds[t]) {
      var task := c'.holds[t];
      if task.ToFinish? && task.verdict.Answer? {
        NewHoldsCarry(c, e, t);
        assert t in c.holds ==> HeldOk(serve, c, c.holds[t]);
        ResponseStays(serve, c, c', task.verdict.resp);
      }
    }
    forall k | 0 <= k < |c'.calls| ensures ResultOk(serve, c', k) {
      AnswersStay(serve, c, e, k);
    }
    NoLogicError(serve, c, e);
  }

  // ----- server steps -----

  lemma ServerStepWorkers(serve: Service, s: State, e: S.Event)
    requires Enabled(serve, s, Server(e)) && WiresOk(serve, s) && ServerOk(serve, s.client, s.server)
    ensures forall i :: 0 <= i < |S.Apply(s.server, e).workers| ==>
      WorkerOk(serve, s.client, S.Apply(s.server, e).workers[i])
  {
    hide Asked, Answers;
  }

  lemma ServerStepOk(serve: Service, s: State, e: S.Event)
    requires Enabled(serve, s, Server(e)) && WiresOk(serve, s) && ServerOk(serve, s.client, s.server)
    ensures ServerOk(serve, s.client, S.Apply(s.server, e))
  {
    ServerStepWorkers(serve, s, e);
    assert e.Put? ==> WorkerOk(serve, s.client, s.server.workers[e.i]);
    hide WorkerOk, ResponseOk;
  }

  lemma ServerStepWires(serve: Service, s: State, e: S.Event)
    requires Enabled(serve, s, Server(e)) && WiresOk(serve, s) && ServerOk(serve, s.client, s.server)
    ensures WiresOk(serve, Apply(serve, s, Server(e)))
  {
    hide S.Apply, RequestOk, ResponseOk, WorkerOk;
  }

  lemma {:induction false} RunKeepsInv(serve: Service, es: seq<Event>, s: State)
    requires After(serve, es) == Some(s)
    ensures C.Inv(s.client) && WiresOk(serve, s) && ServerOk(serve, s.client, s.server) && ClientOk(serve, s.client)
  {
    Projects(serve, es, s);
    C.RunKeepsInv(ClientPart(es), s.client);
    if es != [] {
      var before, e := After(serve, es[..|es| - 1]).value, es[|es| - 1];
      RunKeepsInv(serve, es[..|es| - 1], before);
      hide C.Apply, C.Enabled, S.Apply, S.Enabled, C.Inv, WiresOk, ServerOk, ClientOk, C.Onward;
      match e
      case Client(c) =>
        C.StepOnward(before.client, c);
        WiresStay(serve, before, c);
        ServerStays(serve, before.client, s.client, before.server);
        ClientStays(serve, before, c);
      case Server(v) =>
        ServerStepOk(serve, before, v);
        ServerStepWires(serve, before, v);
    }
  }

  // ----- each request goes out once -----

  /** How many requests with Seq `n`, heartbeats aside, are on the wire. */
  function OnWire(wire: seq<Request>, n: nat): nat {
    if wire == [] then 0
    else (if wire[0].target != "" && wire[0].num == n then 1 else 0) + OnWire(wire[1..], n)
  }

  ghost predicate WentOut(c: C.State, n: nat) {
    n < |c.numbered| && c.numbered[n] < |c.calls| && C.PastWrite(c.calls[c.numbered[n]].pc)
  }

  ghost predicate OutOnce(s: State, n: nat) {
    OnWire(s.toServer, n) + s.server.accepted[n] <= if WentOut(s.client, n) then 1 else 0
  }

  lemma {:induction false} OneRequestMore(wire: seq<Request>, req: Request, n: nat)
    ensures OnWire(wire + [req], n) == OnWire(wire, n) + (if req.target != "" && req.num == n then 1 else 0)
  {
    if wire == [] {
      assert wire + [req] == [req];
    } else {
      assert (wire + [req])[1..] == wire[1..] + [req];
      OneRequestMore(wire[1..], req, n);
    }
  }

  lemma WriteGoesOut(c: C.State, e: C.Event)
    requires C.Inv(c) && C.Enabled(c, e) && C.Emits(c, e).Some? && C.Emits(c, e).value.target != ""
    ensures !WentOut(c, C.Emits(c, e).value.num) && WentOut(C.Apply(c, e), C.Emits(c, e).value.num)
  {
    assert C.CallOk(c, e.k);
  }

  lemma WentOutStays(c: C.State, c': C.State, n: nat)
    requires C.Onward(c, c') && WentOut(c, n)
    ensures WentOut(c', n)
  {
    assert C.CallOnward(c.calls[c.numbered[n]], c'.calls[c.numbered[n]]);
  }

  lemma ClientStepOutOnce(serve: Service, s: State, e: C.Event, n: nat)
    requires C.Inv(s.client) && Enabled(serve, s, Client(e)) && OutOnce(s, n)
    requires C.Onward(s.client, C.Apply(s.client, e))
    ensures OutOnce(Apply(serve, s, Client(e)), n)
  {
    hide C.Apply, C.Enabled, C.Emits, C.Inv, C.Onward, WentOut;
    var m := C.Emits(s.client, e);
    if m.Some? {
      OneRequestMore(s.toServer, m.value, n);
      if m.value.target != "" {
        WriteGoesOut(s.client, e);
      }
    }
    if WentOut(s.client, n) {
      WentOutStays(s.client, C.Apply(s.client, e), n);
    }
  }

  lemma ServerStepOutOnce(serve: Service, s: State, e: S.Event, n: nat)
    requires Enabled(serve, s, Server(e)) && OutOnce(s, n)
    ensures OutOnce(Apply(serve, s, Server(e)), n)
  {
  }

  lemma {:induction false} RunOutOnce(serve: Service, es: seq<Event>, s: State, n: nat)
    requires After(serve, es) == Some(s)
    ensures OutOnce(s, n)
  {
    if es != [] {
      var before, e := After(serve, es[..|es| - 1]).value, es[|es| - 1];
      RunOutOnce(serve, es[..|es| - 1], before, n);
      RunKeepsInv(serve, es[..|es| - 1], before);
      hide C.Apply, C.Enabled, S.Apply, S.Enabled, C.Inv, WiresOk, ServerOk, ClientOk, C.Onward, OutOnce;
      match e
      case Client(c) =>
        C.StepOnward(before.client, c);
        ClientStepOutOnce(serve, before, c, n);
      case Server(v) =>
        ServerStepOutOnce(serve, before, v, n);
    }
  }

  // ----- the promises -----

  /** Reply correlation. Whatever order the server's goroutines finish in, and however Go, WaitFor, Close
      and the heartbeats interleave, a call that `receive` finished carries a payload the service computed
      from that call's own method and arguments, or the server's time-out in its place, and a result if
      the call has a Reply. A call with an empty method, which the server takes for a heartbeat, is never
      answered. */
  lemma ReplyCorrelation(serve: Service, es: seq<Event>, s: State, k: nat)
    requires After(serve, es) == Some(s) && k < |s.client.calls| && s.client.calls[k].answer.Some?
    ensures var c := s.client.calls[k];
      var payload := c.answer.value.payload;
      && c.status == C.Finished && c.answer.value.num == c.num && c.target != ""
      && (serve(c.target, c.args, payload) || payload == Payload(None, "service time out"))
      && (c.wantsReply ==> payload.replyv.Some?)
      && c.error == (if payload.err != "" then Some(payload.err) else None)
      && c.reply == (if c.wantsReply then payload.replyv else None)
  {
    RunKeepsInv(serve, es, s);
    assert ResultOk(serve, s.client, k) && C.CallOk(s.client, k);
  }

  /** The status check in `receive` never fails, and the server never sends on a closed channel or closes
      one twice. */
  lemma NoLogicErrors(serve: Service, es: seq<Event>, s: State)
    requires After(serve, es) == Some(s)
    ensures s.client.fault != C.LogicError && !s.server.panicked
  {
    RunKeepsInv(serve, es, s);
    Projects(serve, es, s);
    S.RunKeepsInv(ServerPart(es), s.server);
  }

  /** The panic that is left: a client step panics exactly when it finishes, with a response that has no
      result, a call that has a Reply. */
  lemma PanicsExactly(serve: Service, es: seq<Event>, s: State, e: C.Event)
    requires After(serve, es) == Some(s) && Enabled(serve, s, Client(e))
    ensures C.Apply(s.client, e).fault != C.Fine <==>
      && e.Finish? && s.client.holds[e.t].verdict.Answer? && s.client.calls[s.client.holds[e.t].k].wantsReply
      && s.client.holds[e.t].verdict.resp.payload.replyv.None?
  {
    RunKeepsInv(serve, es, s);
    NoLogicError(serve, s.client, e);
    hide C.Inv, ClientOk;
  }

  lemma {:induction false} ClientPartFrom(es: seq<Event>)
    ensures forall i :: 0 <= i < |ClientPart(es)| ==> Client(ClientPart(es)[i]) in es
  {
    if es != [] {
      var init := es[..|es| - 1];
      ClientPartFrom(init);
      assert es == init + [es[|es| - 1]];
    }
  }

  /** A run in which no call asks for a Reply never panics. */
  lemma NoReplyNoPanic(serve: Service, es: seq<Event>, s: State)
    requires After(serve, es) == Some(s)
    requires forall e :: e in es && e.Client? && e.c.Go? ==> !e.c.wantsReply
    ensures s.client.fault == C.Fine
  {
    NoLogicErrors(serve, es, s);
    Projects(serve, es, s);
    ClientPartFrom(es);
    C.RunWantsNone(ClientPart(es), s.client);
  }

  /** Every response on its way belongs to a call that is RECEIVING or FINISHED and has a method: a
      heartbeat produces none, so it can never complete the call with Seq 0. */
  lemma ResponsesBelong(serve: Service, es: seq<Event>, s: State, i: nat)
    requires After(serve, es) == Some(s) && i < |s.toClient|
    ensures var n := s.toClient[i].num;
      && n < |s.client.numbered| && s.client.numbered[n] < |s.client.calls|
      && var c := s.client.calls[s.client.numbered[n]];
         c.num == n && c.status != C.New && c.target != "" && Answers(serve, c.target, c.args, s.toClient[i].payload)
  {
    RunKeepsInv(serve, es, s);
    assert ResponseOk(serve, s.client, s.toClient[i]);
  }

  /** At most once: the server starts at most one goroutine for a Seq, none before the call's sender is
      past the write, and at most one response for it is ever written or thrown away. */
  lemma AtMostOnce(serve: Service, es: seq<Event>, s: State, n: nat)
    requires After(serve, es) == Some(s)
    ensures s.server.accepted[n] <= (if WentOut(s.client, n) then 1 else 0)
    ensures s.server.written[n] + s.server.dropped[n] <= s.server.accepted[n]
  {
    RunOutOnce(serve, es, s, n);
    Projects(serve, es, s);
    S.Conservation(ServerPart(es), s.server, n);
  }

  // ----- what can come back, and what it does -----

  /** A client with one call. */
  function Lone(call: C.Call, numbered: seq<nat>, pending: map<nat, nat>, sending: Option<nat>,
                holds: map<C.Tid, C.Task>, reader: C.ReaderPc, fault: C.Fault): C.State {
    C.State([call], numbered, pending, false, None, sending, holds, [], reader, C.Ticking, fault)
  }

  /** What a caller asks for. */
  datatype Ask = Ask(target: string, args: seq<Value>, wantsReply: bool)

  function Asking(a: Ask, status: C.Status, pc: C.SendPc): C.Call {
    var owner := if pc == C.Start then C.Fresh else C.Pending;
    C.Call(a.target, a.args, a.wantsReply, 0, status, None, None, 0, pc, owner, None)
  }

  /** A server that is reading, with at most one goroutine. */
  function Serving(workers: seq<S.Worker>, results: seq<Response>, sender: S.SenderPc,
                   accepted: multiset<nat>, written: multiset<nat>): S.State {
    S.State(S.Reading, workers, results, false, sender, 0, false, S.Listening, accepted, written, multiset{}, false)
  }

  lemma OneStep(serve: Service, es: seq<Event>, s: State, e: Event) returns (es': seq<Event>, s': State)
    requires After(serve, es) == Some(s) && Enabled(serve, s, e)
    ensures After(serve, es') == Some(s') && s' == Apply(serve, s, e)
  {
    hide C.Apply, C.Enabled, C.Emits, S.Apply, S.Enabled, S.Emits;
    es', s' := es + [e], Apply(serve, s, e);
    assert es'[..|es|] == es;
  }

  ghost predicate ClientGoes(c: C.State, e: C.Event, d: C.State) {
    C.Enabled(c, e) && C.Apply(c, e) == d && C.Emits(c, e) == None && !e.Read?
  }

  ghost predicate ServerGoes(v: S.State, e: S.Event, w: S.State) {
    S.Enabled(v, e) && S.Apply(v, e) == w && S.Emits(v, e) == None && !e.Take? && !e.Compute?
  }

  lemma ClientMoves(serve: Service, es: seq<Event>, s: State, e: C.Event, d: C.State)
    returns (es': seq<Event>, s': State)
    requires After(serve, es) == Some(s) && ClientGoes(s.client, e, d)
    ensures After(serve, es') == Some(s') && s' == s.(client := d)
  {
    hide C.Apply, C.Enabled, C.Emits, S.Apply, S.Enabled, S.Emits;
    es', s' := OneStep(serve, es, s, Client(e));
  }

  lemma ServerMoves(serve: Service, es: seq<Event>, s: State, e: S.Event, w: S.State)
    returns (es': seq<Event>, s': State)
    requires After(serve, es) == Some(s) && ServerGoes(s.server, e, w)
    ensures After(serve, es') == Some(s') && s' == s.(server := w)
  {
    hide C.Apply, C.Enabled, C.Emits, S.Apply, S.Enabled, S.Emits;
    es', s' := OneStep(serve, es, s, Server(e));
  }

  function Fresh(a: Ask): C.State {
    Lone(Asking(a, C.New, C.Start), [], map[], None, map[], C.Reading, C.Fine)
  }

  function Going(a: Ask, status: C.Status, pc: C.SendPc, reader: C.ReaderPc): C.State {
    var sending := if pc == C.Queued then None else Some(0);
    Lone(Asking(a, status, pc), [0], map[0 := 0], sending, map[], reader, C.Fine)
  }

  function Answered(call: C.Call, holds: map<C.Tid, C.Task>, fault: C.Fault): C.State {
    Lone(call, [0], map[], Some(0), holds, C.Reading, fault)
  }

  lemma RegisterMoves(a: Ask)
    ensures ClientGoes(C.Init, C.Go(a.target, a.args, a.wantsReply), Fresh(a))
    ensures ClientGoes(Fresh(a), C.Register(0), Going(a, C.New, C.Queued, C.Reading))
  {
  }

  lemma LockMoves(a: Ask)
    ensures ClientGoes(Going(a, C.New, C.Queued, C.Reading), C.Lock(0), Going(a, C.New, C.Sending, C.Reading))
    ensures ClientGoes(Going(a, C.New, C.Sending, C.Reading), C.Check(0), Going(a, C.Receiving, C.Writing, C.Reading))
  {
  }

  lemma WriteMoves(a: Ask)
    ensures var c, e := Going(a, C.Receiving, C.Writing, C.Reading), C.Write(0, true, true);
      && C.Enabled(c, e) && C.Emits(c, e) == Some(Request(a.target, a.args, 0))
      && C.Apply(c, e) == Going(a, C.Receiving, C.Leaving, C.Reading)
  {
  }

  lemma CanSend(serve: Service, a: Ask) returns (es: seq<Event>, s: State)
    ensures After(serve, es) == Some(s)
    ensures s == State(Going(a, C.Receiving, C.Leaving, C.Reading), [Request(a.target, a.args, 0)], S.Init, [])
  {
    hide C.Apply, C.Enabled, C.Emits, S.Apply, S.Enabled, S.Emits, Going, Fresh, ClientGoes;
    RegisterMoves(a);
    LockMoves(a);
    WriteMoves(a);
    es, s := ClientMoves(serve, [], Init, C.Go(a.target, a.args, a.wantsReply), Fresh(a));
    es, s := ClientMoves(serve, es, s, C.Register(0), Going(a, C.New, C.Queued, C.Reading));
    es, s := ClientMoves(serve, es, s, C.Lock(0), Going(a, C.New, C.Sending, C.Reading));
    es, s := ClientMoves(serve, es, s, C.Check(0), Going(a, C.Receiving, C.Writing, C.Reading));
    es, s := OneStep(serve, es, s, Client(C.Write(0, true, true)));
  }

  lemma ServingMoves(req: Request, payload: Payload)
    requires req.target != ""
    ensures var one, resp := multiset{req.num}, Response(req.num, payload);
      var running := Serving([S.Running(req)], [], S.Idle, one, multiset{});
      var ready := Serving([S.ToSend(resp)], [], S.Idle, one, multiset{});
      var queued := Serving([S.Sent], [resp], S.Idle, one, multiset{});
      var writing := Serving([S.Sent], [], S.Writing(resp), one, multiset{});
      && S.Enabled(S.Init, S.Take(req)) && S.Apply(S.Init, S.Take(req)) == running
      && S.Emits(S.Init, S.Take(req)) == None
      && S.Enabled(running, S.Compute(0, payload)) && S.Apply(running, S.Compute(0, payload)) == ready
      && S.Emits(running, S.Compute(0, payload)) == None
      && ServerGoes(ready, S.Put(0), queued) && ServerGoes(queued, S.Fetch, writing)
      && S.Enabled(writing, S.Write(true, true)) && S.Emits(writing, S.Write(true, true)) == Some(resp)
  {
    assert multiset{} + multiset{req.num} == multiset{req.num};
  }

  lemma CanServe(serve: Service, before: seq<Event>, t: State, req: Request, payload: Payload)
    returns (es: seq<Event>, s: State)
    requires After(serve, before) == Some(t) && t.server == S.Init && t.toServer == [req] && t.toClient == []
    requires req.target != "" && Answers(serve, req.target, req.args, payload)
    ensures After(serve, es) == Some(s) && s.client == t.client && s.toClient == [Response(req.num, payload)]
  {
    hide C.Apply, C.Enabled, C.Emits, S.Apply, S.Enabled, S.Emits, Answers;
    ServingMoves(req, payload);
    var one, resp := multiset{req.num}, Response(req.num, payload);
    es, s := OneStep(serve, before, t, Server(S.Take(req)));
    es, s := OneStep(serve, es, s, Server(S.Compute(0, payload)));
    es, s := ServerMoves(serve, es, s, S.Put(0), Serving([S.Sent], [resp], S.Idle, one, multiset{}));
    es, s := ServerMoves(serve, es, s, S.Fetch, Serving([S.Sent], [], S.Writing(resp), one, multiset{}));
    es, s := OneStep(serve, es, s, Server(S.Write(true, true)));
  }

  /** The receiver has matched the response to the call. */
  function Held(a: Ask, payload: Payload, fault: C.Fault): C.State {
    var call := Asking(a, C.Receiving, C.Leaving).(owner := C.By(C.Receiver));
    Answered(call, map[C.Receiver := C.ToFinish(0, C.Answer(Response(0, payload)))], fault)
  }

  lemma ReadMoves(a: Ask, payload: Payload)
    ensures var resp, going := Response(0, payload), Going(a, C.Receiving, C.Leaving, C.Reading);
      && C.Enabled(going, C.Read(resp)) && C.Emits(going, C.Read(resp)) == None
      && C.Apply(going, C.Read(resp)) == Going(a, C.Receiving, C.Leaving, C.Got(resp))
  {
  }

  lemma MatchMoves(a: Ask, payload: Payload)
    ensures ClientGoes(Going(a, C.Receiving, C.Leaving, C.Got(Response(0, payload))), C.Match, Held(a, payload, C.Fine))
  {
    assert map[0 := 0] - {0} == map[];
  }

  /** Every payload that the service may compute for a call, and the time-out, can get to its receiver. */
  lemma CanReceive(serve: Service, a: Ask, payload: Payload) returns (es: seq<Event>, s: State)
    requires a.target != "" && Answers(serve, a.target, a.args, payload)
    ensures After(serve, es) == Some(s) && s.client == Held(a, payload, C.Fine)
  {
    hide C.Apply, C.Enabled, C.Emits, S.Apply, S.Enabled, S.Emits, Answers, Going, Held, ClientGoes;
    var resp := Response(0, payload);
    es, s := CanSend(serve, a);
    es, s := CanServe(serve, es, s, Request(a.target, a.args, 0), payload);
    ReadMoves(a, payload);
    MatchMoves(a, payload);
    es, s := OneStep(serve, es, s, Client(C.Read(resp)));
    es, s := ClientMoves(serve, es, s, C.Match, Held(a, payload, C.Fine));
  }

  /** The call ends, or the process does. */
  lemma FinishingMoves(a: Ask, payload: Payload)
    ensures a.wantsReply && payload.replyv.None? ==>
      ClientGoes(Held(a, payload, C.Fine), C.Finish(C.Receiver), Held(a, payload, C.NoResult))
    ensures !(a.wantsReply && payload.replyv.None?) ==>
      var done := C.Finishing(Held(a, payload, C.Fine).calls[0], C.Answer(Response(0, payload)));
      ClientGoes(Held(a, payload, C.Fine), C.Finish(C.Receiver),
                 Answered(done, map[C.Receiver := C.ToSignal(0)], C.Fine))
  {
  }

  lemma SignalMoves(call: C.Call)
    requires call.closes == 0
    ensures ClientGoes(Answered(call, map[C.Receiver := C.ToSignal(0)], C.Fine), C.Signal(C.Receiver),
                       Answered(call.(closes := 1, owner := C.Settled), map[], C.Fine))
  {
    assert map[C.Receiver := C.ToSignal(0)] - {C.Receiver} == map[];
  }

  /** Call `k` asked for `a`, was completed with `payload`, and `Done` is closed. */
  ghost predicate Completed(serve: Service, es: seq<Event>, s: State, k: nat, a: Ask, payload: Payload) {
    && After(serve, es) == Some(s) && k < |s.client.calls|
    && var c := s.client.calls[k];
       && c.target == a.target && c.args == a.args && c.wantsReply == a.wantsReply
       && c.closes == 1 && c.answer.Some? && c.answer.value.payload == payload
  }

  /** The client panicked while it finished a call that asked for `a` with `payload`. */
  ghost predicate Panicked(serve: Service, es: seq<Event>, s: State, t: C.Tid, a: Ask, payload: Payload) {
    && After(serve, es) == Some(s) && s.client.fault != C.Fine
    && t in s.client.holds && s.client.holds[t].ToFinish? && s.client.holds[t].k < |s.client.calls|
    && s.client.holds[t].verdict.Answer? && s.client.holds[t].verdict.resp.payload == payload
    && var c := s.client.calls[s.client.holds[t].k];
       c.target == a.target && c.args == a.args && c.wantsReply == a.wantsReply
  }

  lemma CanComplete(serve: Service, a: Ask, payload: Payload) returns (es: seq<Event>, s: State)
    requires a.target != "" && Answers(serve, a.target, a.args, payload) && (a.wantsReply ==> payload.replyv.Some?)
    ensures Completed(serve, es, s, 0, a, payload)
  {
    hide C.Apply, C.Enabled, C.Emits, S.Apply, S.Enabled, S.Emits, Answers, ClientGoes;
    es, s := CanReceive(serve, a, payload);
    FinishingMoves(a, payload);
    var done := C.Finishing(s.client.calls[0], C.Answer(Response(0, payload)));
    es, s := ClientMoves(serve, es, s, C.Finish(C.Receiver), Answered(done, map[C.Receiver := C.ToSignal(0)], C.Fine));
    SignalMoves(done);
    es, s := ClientMoves(serve, es, s, C.Signal(C.Receiver),
                         Answered(done.(closes := 1, owner := C.Settled), map[], C.Fine));
  }

  lemma CanPanic(serve: Service, a: Ask, payload: Payload) returns (es: seq<Event>, s: State)
    requires a.target != "" && Answers(serve, a.target, a.args, payload) && a.wantsReply && payload.replyv.None?
    ensures Panicked(serve, es, s, C.Receiver, a, payload)
  {
    hide C.Apply, C.Enabled, C.Emits, S.Apply, S.Enabled, S.Emits, Answers, ClientGoes;
    es, s := CanReceive(serve, a, payload);
    FinishingMoves(a, payload);
    es, s := ClientMoves(serve, es, s, C.Finish(C.Receiver), Held(a, payload, C.NoResult));
  }

  /** Correlation in both directions: some run completes a call with a payload exactly when the call has a
      method, the service may compute the payload for it (or it is the time-out), and there is a result
      if the call has a Reply. */
  lemma CompletesExactly(serve: Service, a: Ask, payload: Payload)
    ensures (exists es, s, k :: Completed(serve, es, s, k, a, payload)) <==>
      a.target != "" && Answers(serve, a.target, a.args, payload) && (a.wantsReply ==> payload.replyv.Some?)
  {
    if es, s, k :| Completed(serve, es, s, k, a, payload) {
      ReplyCorrelation(serve, es, s, k);
    } else if a.target != "" && Answers(serve, a.target, a.args, payload) && (a.wantsReply ==> payload.replyv.Some?) {
      var es, s := CanComplete(serve, a, payload);
    }
  }

  lemma PanicMeans(serve: Service, es: seq<Event>, s: State, t: C.Tid)
    requires After(serve, es) == Some(s) && s.client.fault != C.Fine
    requires t in s.client.holds && s.client.holds[t].ToFinish? && s.client.holds[t].verdict.Answer?
    ensures var k, payload := s.client.holds[t].k, s.client.holds[t].verdict.resp.payload;
      && k < |s.client.calls|
      && var c := s.client.calls[k];
         c.target != "" && Answers(serve, c.target, c.args, payload) && c.wantsReply && payload.replyv.None?
  {
    RunKeepsInv(serve, es, s);
    NoLogicErrors(serve, es, s);
    Projects(serve, es, s);
    var u := C.NoResultMeans(ClientPart(es), s.client);
    assert C.HoldOk(s.client, t) && C.HoldOk(s.client, u);
    FinishedByHolder(serve, s.client, t);
  }

  /** Some run panics on a payload exactly when the payload can come, has no result, and the call has a
      Reply. */
  lemma CanPanicExactly(serve: Service, a: Ask, payload: Payload)
    ensures (exists es, s, t :: Panicked(serve, es, s, t, a, payload)) <==>
      a.target != "" && Answers(serve, a.target, a.args, payload) && a.wantsReply && payload.replyv.None?
  {
    if es, s, t :| Panicked(serve, es, s, t, a, payload) {
      PanicMeans(serve, es, s, t);
    } else if a.target != "" && Answers(serve, a.target, a.args, payload) && a.wantsReply && payload.replyv.None? {
      var es, s := CanPanic(serve, a, payload);
    }
  }

  /** So every call with a method and a Reply can bring the client down: the time-out is always possible. */
  lemma TimeOutCanPanic(serve: Service, a: Ask)
    requires a.target != "" && a.wantsReply
    ensures exists es, s, t :: Panicked(serve, es, s, t, a, TimedOut)
  {
    CanPanicExactly(serve, a, TimedOut);
  }

  // ----- the wires carry what was written, in order -----

  /** The request that a step writes: a call's own method, arguments and Seq, or a heartbeat. */
  function RequestBy(s: State, e: Event): seq<Request> {
    match e
    case Client(Write(k, true, _)) =>
      if k < |s.client.calls| then
        [Request(s.client.calls[k].target, s.client.calls[k].args, s.client.calls[k].num)]
      else []
    case Client(Tick(true, _)) => [Request("", [], 0)]
    case _ => []
  }

  function ResponseBy(s: State, e: Event): seq<Response> {
    match e
    case Server(Write(true, _)) => if s.server.sender.Writing? then [s.server.sender.resp] else []
    case _ => []
  }

  function RequestRead(e: Event): seq<Request> {
    match e
    case Server(Take(req)) => [req]
    case _ => []
  }

  function ResponseRead(e: Event): seq<Response> {
    match e
    case Client(Read(resp)) => [resp]
    case _ => []
  }

  function RequestsWritten(serve: Service, es: seq<Event>): seq<Request> {
    if es == [] then []
    else match After(serve, es[..|es| - 1])
      case None => []
      case Some(s) => RequestsWritten(serve, es[..|es| - 1]) + RequestBy(s, es[|es| - 1])
  }

  function ResponsesWritten(serve: Service, es: seq<Event>): seq<Response> {
    if es == [] then []
    else match After(serve, es[..|es| - 1])
      case None => []
      case Some(s) => ResponsesWritten(serve, es[..|es| - 1]) + ResponseBy(s, es[|es| - 1])
  }

  function RequestsRead(es: seq<Event>): seq<Request> {
    if es == [] then [] else RequestsRead(es[..|es| - 1]) + RequestRead(es[|es| - 1])
  }

  function ResponsesRead(es: seq<Event>): seq<Response> {
    if es == [] then [] else ResponsesRead(es[..|es| - 1]) + ResponseRead(es[|es| - 1])
  }

  lemma ToServerStep(serve: Service, s: State, e: Event)
    requires Enabled(serve, s, e)
    ensures s.toServer + RequestBy(s, e) == RequestRead(e) + Apply(serve, s, e).toServer
  {
    hide C.Apply, S.Apply;
    assert s.toServer != [] ==> s.toServer == [s.toServer[0]] + s.toServer[1..];
  }

  lemma ToClientStep(serve: Service, s: State, e: Event)
    requires Enabled(serve, s, e)
    ensures s.toClient + ResponseBy(s, e) == ResponseRead(e) + Apply(serve, s, e).toClient
  {
    hide C.Apply, S.Apply;
    assert s.toClient != [] ==> s.toClient == [s.toClient[0]] + s.toClient[1..];
  }

  /** Both wires are first in, first out and lose nothing: what has been written is what has been read,
      followed by what is still on the way. */
  lemma {:induction false} WiresAreFifo(serve: Service, es: seq<Event>, s: State)
    requires After(serve, es) == Some(s)
    ensures RequestsWritten(serve, es) == RequestsRead(es) + s.toServer
    ensures ResponsesWritten(serve, es) == ResponsesRead(es) + s.toClient
  {
    if es != [] {
      var init, e := es[..|es| - 1], es[|es| - 1];
      var before := After(serve, init).value;
      WiresAreFifo(serve, init, before);
      hide Apply, Enabled, RequestBy, ResponseBy, RequestRead, ResponseRead;
      ToServerStep(serve, before, e);
      ToClientStep(serve, before, e);
      S.Shifted(RequestsWritten(serve, init), RequestsRead(init), before.toServer,
                RequestBy(before, e), RequestRead(e), s.toServer);
      S.Shifted(ResponsesWritten(serve, init), ResponsesRead(init), before.toClient,
                ResponseBy(before, e), ResponseRead(e), s.toClient);
    }
  }
}
