/** The critical sections of client.go on the heap, each proved to be one step of `RpcClient`, and
    `Close`, proved to be a run of it. */
module DefaultClient {
  import opened Options
  import opened RpcMessages
  import C = RpcClient

  class Call {
    const target: string
    const args: seq<Value>
    const wantsReply: bool
    var num: nat
    var status: C.Status
    var error: Option<string>
    var reply: Option<Value>
    var closes: nat

    constructor (target: string, args: seq<Value>, wantsReply: bool)
      ensures Is(C.Call(target, args, wantsReply, 0, C.New, None, None, 0, C.Start, C.Fresh, None))
    {
      this.target, this.args, this.wantsReply := target, args, wantsReply;
      num, status, error, reply, closes := 0, C.New, None, None, 0;
    }

    /** The object is what the model records for this call. */
    ghost predicate Is(c: C.Call)
      reads this
    {
      && target == c.target && args == c.args && wantsReply == c.wantsReply && num == c.num
      && status == c.status && error == c.error && reply == c.reply && closes == c.closes
    }

    /** The section under call.mu of whoever gives up on a call: WaitFor, terminateCalls and send. */
    method Fail(e: string, ghost c: C.Call)
      requires Is(c)
      modifies this`error, this`status
      ensures Is(C.Finishing(c, C.Fail(e)))
    {
      error := Some(e);
      status := C.Finished;
    }

    /** The section under call.mu in `receive`. It panics where the model says, and by then it may have
        stored the error. */
    method Deliver(resp: Response, ghost c: C.Call) returns (fault: C.Fault)
      requires Is(c)
      modifies this`error, this`reply, this`status
      ensures fault == C.FaultOf(c, C.Answer(resp))
      ensures match fault
        case Fine => Is(C.Finishing(c, C.Answer(resp)))
        case LogicError => Is(c)
        case NoResult => Is(WithError(c, resp))
    {
      if status != C.Receiving {
        return C.LogicError;
      }
      if resp.payload.err != "" {
        error := Some(resp.payload.err);
      }
      if wantsReply {
        if resp.payload.replyv == None {
          return C.NoResult;
        }
        reply := resp.payload.replyv;
      }
      status := C.Finished;
      fault := C.Fine;
    }

    method Done(ghost c: C.Call)
      requires Is(c)
      modifies this`closes
      ensures Is(c.(closes := c.closes + 1))
    {
      closes := closes + 1;
    }
  }

  function WithError(c: C.Call, resp: Response): C.Call {
    if resp.payload.err != "" then c.(error := Some(resp.payload.err)) else c
  }

  /** The state after thread `t` has finished its call and closed `Done`. */
  function Completed(g: C.State, t: C.Tid): C.State
    requires C.Enabled(g, C.Finish(t)) && C.FaultOf(g.calls[g.holds[t].k], g.holds[t].verdict) == C.Fine
  {
    var g' := C.Apply(g, C.Finish(t));
    C.Apply(g', C.Signal(t))
  }

  lemma CompletedIs(g: C.State, t: C.Tid)
    requires C.Enabled(g, C.Finish(t)) && C.FaultOf(g.calls[g.holds[t].k], g.holds[t].verdict) == C.Fine
    ensures var k := g.holds[t].k;
      var done := C.Finishing(g.calls[k], g.holds[t].verdict);
      var calls := g.calls[k := done.(closes := done.closes + 1, owner := C.Settled)];
      Completed(g, t) == g.(calls := calls, holds := Completed(g, t).holds)
  {
  }

  lemma FailsFine(c: C.Call, e: string)
    ensures C.FaultOf(c, C.Fail(e)) == C.Fine
    ensures C.Finishing(c, C.Fail(e)) == c.(error := Some(e), status := C.Finished)
  {
  }

  lemma FinishIs(g: C.State, t: C.Tid)
    requires C.Enabled(g, C.Finish(t))
    ensures C.Apply(g, C.Finish(t)).fault == C.FaultOf(g.calls[g.holds[t].k], g.holds[t].verdict)
  {
  }

  /** What `terminateCalls` does with the call of one Seq. */
  function Terminated(g: C.State, n: nat): C.State
    requires C.Enabled(g, C.Terminate(n))
  {
    var g' := C.Apply(g, C.Terminate(n));
    C.Apply(g', C.Signal(C.Closer))
  }

  function GivenUp(c: C.Call): C.Call {
    c.(error := Some(C.Canceled), status := C.Finished, closes := c.closes + 1, owner := C.Settled)
  }

  /** Every call that was pending, apart from those in `todo`, is given up, and no other call is touched. */
  ghost predicate GaveUp(g: C.State, after: C.State, todo: set<nat>) {
    && |after.calls| == |g.calls|
    && forall k :: 0 <= k < |g.calls| ==>
         var n := g.calls[k].num;
         after.calls[k] == if n in g.pending && g.pending[n] == k && n !in todo then GivenUp(g.calls[k]) else g.calls[k]
  }

  lemma OneMoreGivenUp(g: C.State, after: C.State, todo: set<nat>, n: nat)
    requires C.Inv(after) && GaveUp(g, after, todo) && after.pending == g.pending
    requires after.closing == Some(todo) && n in todo && C.Enabled(after, C.Terminate(n))
    ensures GaveUp(g, Terminated(after, n), todo - {n})
  {
    TerminatedIs(after, n);
    hide Terminated;
    assert C.PendingOk(after, n);
    hide C.Inv, C.Enabled;
    assert g.calls[g.pending[n]].num == n;
  }

  lemma NoneGivenUp(g: C.State, after: C.State)
    requires after.calls == g.calls
    ensures GaveUp(g, after, g.pending.Keys)
  {
  }

  lemma OnlyCallsCount(g: C.State, s: C.State, t: C.State)
    requires GaveUp(g, s, {}) && t.calls == s.calls
    ensures GaveUp(g, t, {})
  {
  }

  lemma TerminatedIs(g: C.State, n: nat)
    requires C.Enabled(g, C.Terminate(n))
    ensures var k := g.pending[n];
      Terminated(g, n) == g.(closing := Some(g.closing.value - {n}), calls := g.calls[k := GivenUp(g.calls[k])])
  {
    assert C.Apply(g, C.Terminate(n)).holds - {C.Closer} == g.holds;
  }

  lemma TerminatedOk(g: C.State, n: nat)
    requires C.Enabled(g, C.Terminate(n)) && C.Inv(g)
    ensures C.Inv(Terminated(g, n))
  {
    hide C.Inv;
    C.StepKeepsInv(g, C.Terminate(n));
    C.StepKeepsInv(C.Apply(g, C.Terminate(n)), C.Signal(C.Closer));
  }

  lemma TerminatedRuns(g: C.State, es: seq<C.Event>, s: C.State, n: nat)
    requires C.Run(g, es) == Some(s) && C.Enabled(s, C.Terminate(n))
    ensures C.Run(g, es + [C.Terminate(n)] + [C.Signal(C.Closer)]) == Some(Terminated(s, n))
  {
    OneMore(g, es, s, C.Terminate(n));
    var s' := C.Apply(s, C.Terminate(n));
    assert C.Enabled(s', C.Signal(C.Closer)) && Terminated(s, n) == C.Apply(s', C.Signal(C.Closer));
    hide C.Apply, C.Enabled;
    OneMore(g, es + [C.Terminate(n)], s', C.Signal(C.Closer));
  }

  lemma OneMore(g: C.State, es: seq<C.Event>, s: C.State, e: C.Event)
    requires C.Run(g, es) == Some(s) && C.Enabled(s, e)
    ensures C.Run(g, es + [e]) == Some(C.Apply(s, e))
  {
    hide C.Apply, C.Enabled;
    assert (es + [e])[..|es|] == es;
  }

  lemma CloseCanBegin(g: C.State)
    requires C.Inv(g) && g.fault == C.Fine && C.MuFree(g) && !g.closed
    ensures C.Enabled(g, C.CloseBegin) && C.Apply(g, C.CloseBegin) == g.(closing := Some(g.pending.Keys))
    ensures C.Inv(C.Apply(g, C.CloseBegin)) && C.Run(g, [C.CloseBegin]) == Some(C.Apply(g, C.CloseBegin))
    ensures C.Closer !in g.holds
  {
    C.StepKeepsInv(g, C.CloseBegin);
    assert C.Closer in g.holds ==> C.HoldOk(g, C.Closer);
    hide C.Inv;
    assert [] + [C.CloseBegin] == [C.CloseBegin];
    OneMore(g, [], g, C.CloseBegin);
  }

  lemma TodoIsPending(g: C.State, n: nat)
    requires C.Inv(g) && g.fault == C.Fine && g.closing.Some? && n in g.closing.value && C.Closer !in g.holds
    ensures n in g.pending && g.pending[n] < |g.calls| && C.Enabled(g, C.Terminate(n))
  {
    assert C.GateOk(g);
    assert n in g.pending ==> C.PendingOk(g, n);
  }

  /** `pending` is None where the source has a nil map. `calls` are the objects of the model's calls. */
  class Client {
    var pending: Option<map<nat, Call>>
    var counter: nat
    var closed: bool
    ghost var calls: seq<Call>

    ghost predicate ShowsCalls(g: C.State)
      reads this`calls, calls
    {
      && |calls| == |g.calls|
      && (forall k :: 0 <= k < |calls| ==> calls[k].Is(g.calls[k]))
      && (forall j, k :: 0 <= j < k < |calls| ==> calls[j] != calls[k])
    }

    ghost predicate ShowsPending(g: C.State)
      reads this`pending, this`calls
    {
      match pending
      case None => g.pending == map[]
      case Some(m) =>
        && (forall n :: n in m <==> n in g.pending)
        && (forall n :: n in m ==> g.pending[n] < |calls| && m[n] == calls[g.pending[n]])
    }

    /** The heap shows the model state `g`. */
    ghost predicate Shows(g: C.State)
      reads this, calls
    {
      && ShowsCalls(g) && ShowsPending(g) && counter == |g.numbered| && closed == g.closed
      && (pending.None? <==> closed)
    }

    constructor ()
      ensures Shows(C.Init) && calls == []
    {
      pending, counter, closed, calls := Some(map[]), 0, false, [];
    }

    /** registerCall; `err` says that the client is shut down. */
    method RegisterCall(call: Call, ghost g: C.State, ghost k: nat) returns (num: nat, err: bool)
      requires Shows(g) && C.Enabled(g, C.Register(k)) && calls[k] == call
      modifies this`pending, this`counter, call`num
      ensures Shows(C.Apply(g, C.Register(k)))
      ensures err == old(closed) && (!err ==> num == call.num == |g.numbered|)
    {
      if closed {
        return 0, true;
      }
      call.num := counter;
      pending := Some(pending.value[counter := call]);
      counter := counter + 1;
      return call.num, false;
    }

    /** removeCall */
    method RemoveCall(num: nat, ghost g: C.State, ghost t: C.Tid, ghost verdict: C.Verdict) returns (call: Call?)
      requires Shows(g)
      modifies this`pending
      ensures Shows(C.RemoveCall(g, num, t, verdict))
      ensures call == if num in g.pending then calls[g.pending[num]] else null
      ensures call != null ==>
        var holds := C.RemoveCall(g, num, t, verdict).holds;
        t in holds && holds[t].ToFinish? && calls[holds[t].k] == call && holds[t].verdict == verdict
    {
      if pending == None {
        return null;
      }
      if num in pending.value {
        call := pending.value[num];
        pending := Some(pending.value - {num});
      } else {
        call := null;
      }
    }

    /** Replacing one call's record is enough when only its object changed. */
    lemma OneCallShows(g: C.State, k: nat, d: C.Call, g': C.State)
      requires |calls| == |g.calls| && (forall i, j :: 0 <= i < j < |calls| ==> calls[i] != calls[j])
      requires ShowsPending(g) && counter == |g.numbered| && closed == g.closed && (pending.None? <==> closed)
      requires k < |calls| && calls[k].Is(d) && forall j :: 0 <= j < |calls| && j != k ==> calls[j].Is(g.calls[j])
      requires g' == g.(calls := g'.calls, holds := g'.holds, closing := g'.closing, fault := g'.fault)
      requires |g'.calls| == |g.calls| && g'.calls == g.calls[k := d.(owner := g'.calls[k].owner)]
      ensures Shows(g')
    {
    }

    /** A thread that removed a call finishes it and closes `Done`. Where it panics instead, at most the
        error of that call has changed. */
    method FinishCall(call: Call, ghost g: C.State, ghost t: C.Tid, verdict: C.Verdict) returns (fault: C.Fault)
      requires Shows(g) && C.Enabled(g, C.Finish(t)) && calls[g.holds[t].k] == call && g.holds[t].verdict == verdict
      modifies call
      ensures fault == C.Apply(g, C.Finish(t)).fault
      ensures match fault
        case Fine => Shows(Completed(g, t))
        case LogicError => Shows(g)
        case NoResult =>
          verdict.Answer? && Shows(g.(calls := g.calls[g.holds[t].k := WithError(g.calls[g.holds[t].k], verdict.resp)]))
    {
      hide C.Apply, Completed, C.Finishing, C.FaultOf, WithError;
      ghost var k := g.holds[t].k;
      ghost var c := g.calls[k];
      FinishIs(g, t);
      assert call.Is(c);
      match verdict {
        case Fail(e) =>
          FailsFine(c, e);
          call.Fail(e, c);
        case Answer(resp) =>
          fault := call.Deliver(resp, c);
          if fault != C.Fine {
            OneCallShows(g, k, if fault == C.LogicError then c else WithError(c, resp), g.(calls := g.calls[k :=
              if fault == C.LogicError then c else WithError(c, resp)]));
            assert fault == C.LogicError ==> g.calls[k := c] == g.calls;
            return;
          }
      }
      fault := C.Fine;
      ghost var done := C.Finishing(c, verdict);
      call.Done(done);
      CompletedIs(g, t);
      OneCallShows(g, k, done.(closes := done.closes + 1), Completed(g, t));
    }

    /** One round of the loop in terminateCalls. */
    method Terminate(call: Call, n: nat, ghost g: C.State)
      requires Shows(g) && C.Enabled(g, C.Terminate(n)) && call == calls[g.pending[n]]
      modifies call
      ensures Shows(Terminated(g, n))
    {
      hide C.Apply, Terminated, C.Finishing;
      ghost var c := g.calls[g.pending[n]];
      assert call.Is(c);
      FailsFine(c, C.Canceled);
      call.Fail(C.Canceled, c);
      call.Done(C.Finishing(c, C.Fail(C.Canceled)));
      TerminatedIs(g, n);
      OneCallShows(g, g.pending[n], GivenUp(c), Terminated(g, n));
    }

    lemma AboutPending(g: C.State)
      requires Shows(g)
      ensures closed == g.closed && (pending.None? <==> closed)
      ensures pending.Some? ==> pending.value.Keys == g.pending.Keys
      ensures pending.Some? ==> forall n :: n in pending.value ==>
        g.pending[n] < |calls| && pending.value[n] == calls[g.pending[n]] && pending.value[n] in calls
    {
    }

    lemma OnlyClosingChanges(g: C.State, g': C.State)
      requires Shows(g) && g' == g.(closing := g'.closing)
      ensures Shows(g')
    {
    }

    /** The end of Close. */
    method Empty(ghost g: C.State)
      requires Shows(g)
      modifies this`pending, this`closed
      ensures Shows(g.(pending := map[], closed := true, closing := None))
      ensures closed
    {
      pending := None;
      closed := true;
    }

    /** Close, with terminateCalls: a run of closing steps, after which the client is closed. */
    method Close(ghost g: C.State) returns (ghost es: seq<C.Event>, ghost after: C.State)
      requires Shows(g) && C.Inv(g) && g.fault == C.Fine && C.MuFree(g)
      modifies this`pending, this`closed, calls
      ensures C.Run(g, es) == Some(after) && (forall i :: 0 <= i < |es| ==> C.IsClosing(es[i]))
      ensures Shows(after) && closed && after.numbered == g.numbered
      ensures if old(closed) then after == g else GaveUp(g, after, {})
    {
      hide C.Apply, C.Enabled, C.Inv, Terminated, Shows, GaveUp;
      es, after := [], g;
      AboutPending(g);
      if closed {
        return;
      }
      CloseCanBegin(g);
      es, after := [C.CloseBegin], C.Apply(g, C.CloseBegin);
      OnlyClosingChanges(g, after);
      var todo := pending.value.Keys;
      NoneGivenUp(g, after);
      while todo != {}
        invariant Shows(after) && C.Inv(after) && after.closing == Some(todo) && C.Closer !in after.holds
        invariant GaveUp(g, after, todo)
        invariant after.fault == C.Fine && after.pending == g.pending && after.numbered == g.numbered
        invariant C.Run(g, es) == Some(after) && forall i :: 0 <= i < |es| ==> C.IsClosing(es[i])
        invariant pending == old(pending) && !closed && calls == old(calls)
        invariant pending.Some? && todo <= pending.value.Keys
        decreases |todo|
      {
        var n :| n in todo;
        AboutPending(after);
        TodoIsPending(after, n);
        Terminate(pending.value[n], n, after);
        OneMoreGivenUp(g, after, todo, n);
        TerminatedIs(after, n);
        TerminatedOk(after, n);
        TerminatedRuns(g, es, after, n);
        es, after := es + [C.Terminate(n)] + [C.Signal(C.Closer)], Terminated(after, n);
        todo := todo - {n};
      }
      Empty(after);
      CloseCanEnd(g, es, after);
      OnlyCallsCount(g, after, C.Apply(after, C.CloseEnd));
      es, after := es + [C.CloseEnd], C.Apply(after, C.CloseEnd);
    }
  }

  lemma CloseCanEnd(g: C.State, es: seq<C.Event>, s: C.State)
    requires C.Run(g, es) == Some(s) && s.closing == Some({}) && s.fault == C.Fine && C.Closer !in s.holds
    ensures C.Enabled(s, C.CloseEnd) && C.Apply(s, C.CloseEnd) == s.(pending := map[], closed := true, closing := None)
    ensures C.Run(g, es + [C.CloseEnd]) == Some(C.Apply(s, C.CloseEnd))
  {
    OneMore(g, es, s, C.CloseEnd);
  }
}
