/** client.go as a transition system: senders, waiters, the receiver, the ticker and `Close` race for
    the calls of one client. One step per critical section; a call is named by its position in `calls`.
    Responses may come in at any time and in any order: nothing is assumed about the other side. */
module RpcClient {
  import opened Options
  import opened RpcMessages

  datatype Status = New | Receiving | Finished

  /** Where the goroutine that runs `send` for a call is. */
  datatype SendPc =
    | Start       // before registerCall
    | Rejected    // registerCall found the client closed
    | Queued      // registered, waiting for the sending lock
    | Sending     // holds the sending lock
    | Writing     // has marked the call RECEIVING
    | Failed      // the write failed, removeCall comes next
    | Broken      // closes the client
    | Leaving     // about to release the sending lock
    | Returned

  /** The threads that may finish a call. */
  datatype Tid = Sender(k: nat) | Waiter(w: nat) | Receiver | Closer

  /** Whose turn it is to finish a call: nobody's, whoever takes it out of `pending`, one thread's, or
      it has been finished. Only the proofs look at it. */
  datatype Owner = Fresh | Pending | By(t: Tid) | Settled

  /** `closes` counts how often `Done` was closed, `answer` is the response that `receive` used. */
  datatype Call = Call(
    target: string, args: seq<Value>, wantsReply: bool, num: nat, status: Status,
    error: Option<string>, reply: Option<Value>, closes: nat, pc: SendPc, owner: Owner, answer: Option<Response>)

  datatype Verdict = Fail(error: string) | Answer(resp: Response)

  /** What a thread that took a call out of `pending` still has to do with it. */
  datatype Task = ToFinish(k: nat, verdict: Verdict) | ToSignal(k: nat)

  datatype WaitPc = Waiting | Expired | Back

  datatype Wait = Wait(k: nat, pc: WaitPc)

  datatype ReaderPc = Reading | Got(resp: Response) | ReadBroken | ReaderEnded

  /** Why the process died, if it did: the check in `receive` that a matched call is RECEIVING, or the
      assignment of a missing result to a Reply. */
  datatype Fault = Fine | LogicError | NoResult

  datatype TickerPc = Ticking | TickBroken | TickerEnded

  /** `numbered[n]` is the call that got Seq n, so `|numbered|` is the client's `seq` counter. `closing`
      is set while `Close` holds the client's lock: the Seqs `terminateCalls` has yet to visit. */
  datatype State = State(
    calls: seq<Call>, numbered: seq<nat>, pending: map<nat, nat>, closed: bool, closing: Option<set<nat>>,
    sending: Option<nat>, holds: map<Tid, Task>, waits: seq<Wait>, reader: ReaderPc, ticker: TickerPc, fault: Fault)

  datatype Event =
    | Go(target: string, args: seq<Value>, wantsReply: bool)
    | Register(k: nat)
    | Lock(k: nat)
    | Check(k: nat)
    | Write(k: nat, delivered: bool, ok: bool)
    | GiveUp(k: nat)
    | Leave(k: nat)
    | Finish(t: Tid)                      // the section under call.mu
    | Signal(t: Tid)                      // done()
    | StartWait(k: nat)
    | TimeOut(w: nat)
    | EndWait(w: nat)
    | Read(resp: Response)
    | Match
    | ReadFails
    | ReaderEnds
    | Tick(delivered: bool, ok: bool)
    | TickerEnds
    | CloseBegin
    | Terminate(n: nat)
    | CloseEnd

  const Shutdown := "connection is shut down and call didn't send"
  const Canceled := "call canceled while sending or waiting-for-receiving"

  const Init := State([], [], map[], false, None, None, map[], [], Reading, Ticking, Fine)

  predicate MuFree(s: State) {
    s.closing.None?
  }

  /** A panic ends the process, so nothing happens after a fault. */
  predicate Enabled(s: State, e: Event) {
    s.fault == Fine && CanStep(s, e)
  }

  predicate CanStep(s: State, e: Event) {
    match e
    case Go(_, _, _) => true
    case Register(k) => k < |s.calls| && s.calls[k].pc == Start && MuFree(s)
    case Lock(k) => k < |s.calls| && s.calls[k].pc == Queued && s.sending.None?
    case Check(k) => k < |s.calls| && s.calls[k].pc == Sending
    case Write(k, delivered, ok) => k < |s.calls| && s.calls[k].pc == Writing && (ok ==> delivered)
    case GiveUp(k) => k < |s.calls| && s.calls[k].pc == Failed && MuFree(s)
    case Leave(k) =>
      && k < |s.calls|
      && (|| s.calls[k].pc == Leaving
          || (s.calls[k].pc == Broken && Sender(k) !in s.holds && s.closed)
          || (s.calls[k].pc == Rejected && Sender(k) !in s.holds))
    case Finish(t) => t in s.holds && s.holds[t].ToFinish? && s.holds[t].k < |s.calls|
    case Signal(t) => t in s.holds && s.holds[t].ToSignal? && s.holds[t].k < |s.calls|
    case StartWait(k) => k < |s.calls| && s.calls[k].pc == Returned
    case TimeOut(w) => w < |s.waits| && s.waits[w].pc == Waiting && s.waits[w].k < |s.calls| && MuFree(s)
    case EndWait(w) =>
      && w < |s.waits| && s.waits[w].k < |s.calls|
      && (|| (s.waits[w].pc == Waiting && s.calls[s.waits[w].k].closes > 0)
          || (s.waits[w].pc == Expired && Waiter(w) !in s.holds))
    case Read(_) => s.reader == Reading && Receiver !in s.holds
    case Match => s.reader.Got? && MuFree(s)
    case ReadFails => s.reader == Reading && Receiver !in s.holds
    case ReaderEnds => s.reader == ReadBroken && s.closed
    case Tick(delivered, ok) => s.ticker == Ticking && s.sending.None? && (ok ==> delivered)
    case TickerEnds => s.ticker == TickBroken && s.closed
    case CloseBegin => MuFree(s)
    case Terminate(n) =>
      s.closing.Some? && n in s.closing.value && n in s.pending && s.pending[n] < |s.calls| && Closer !in s.holds
    case CloseEnd => s.closing == Some({}) && Closer !in s.holds
  }

  /** `removeCall` by thread `t`, which will finish the call it gets with `verdict`. */
  function RemoveCall(s: State, num: nat, t: Tid, verdict: Verdict): State {
    if num !in s.pending || s.pending[num] >= |s.calls| then s
    else
      var k := s.pending[num];
      s.(pending := s.pending - {num}, holds := s.holds[t := ToFinish(k, verdict)],
         calls := s.calls[k := s.calls[k].(owner := By(t))])
  }

  /** Where the section under call.mu panics: in `receive`, when the call is not RECEIVING, and when the
      response has no result for a call that has a Reply. */
  function FaultOf(c: Call, verdict: Verdict): Fault {
    match verdict
    case Fail(_) => Fine
    case Answer(resp) =>
      if c.status != Receiving then LogicError
      else if c.wantsReply && resp.payload.replyv.None? then NoResult
      else Fine
  }

  /** What a finisher writes into the call where it does not panic. */
  function Finishing(c: Call, verdict: Verdict): Call {
    match verdict
    case Fail(error) => c.(error := Some(error), status := Finished)
    case Answer(resp) =>
      c.(error := if resp.payload.err != "" then Some(resp.payload.err) else c.error,
         reply := if c.wantsReply then resp.payload.replyv else c.reply,
         status := Finished, answer := Some(resp))
  }

  function Apply(s: State, e: Event): State
    requires Enabled(s, e)
  {
    match e
    case Go(target, args, wantsReply) =>
      s.(calls := s.calls + [Call(target, args, wantsReply, 0, New, None, None, 0, Start, Fresh, None)])
    case Register(k) =>
      if s.closed then
        s.(calls := s.calls[k := s.calls[k].(pc := Rejected, owner := By(Sender(k)))],
           holds := s.holds[Sender(k) := ToFinish(k, Fail(Shutdown))])
      else
        s.(calls := s.calls[k := s.calls[k].(pc := Queued, owner := Pending, num := |s.numbered|)],
           pending := s.pending[|s.numbered| := k], numbered := s.numbered + [k])
    case Lock(k) =>
      s.(calls := s.calls[k := s.calls[k].(pc := Sending)], sending := Some(k))
    case Check(k) =>
      if s.calls[k].status == Finished then s.(calls := s.calls[k := s.calls[k].(pc := Leaving)])
      else s.(calls := s.calls[k := s.calls[k].(pc := Writing, status := Receiving)])
    case Write(k, _, ok) =>
      s.(calls := s.calls[k := s.calls[k].(pc := if ok then Leaving else Failed)])
    case GiveUp(k) =>
      RemoveCall(s.(calls := s.calls[k := s.calls[k].(pc := Broken)]), s.calls[k].num, Sender(k), Fail(Shutdown))
    case Leave(k) =>
      s.(calls := s.calls[k := s.calls[k].(pc := Returned)],
         sending := if s.calls[k].pc == Rejected then s.sending else None)
    case Finish(t) =>
      var k := s.holds[t].k;
      var fault := FaultOf(s.calls[k], s.holds[t].verdict);
      if fault != Fine then s.(fault := fault)
      else s.(calls := s.calls[k := Finishing(s.calls[k], s.holds[t].verdict)], holds := s.holds[t := ToSignal(k)])
    case Signal(t) =>
      var k := s.holds[t].k;
      s.(calls := s.calls[k := s.calls[k].(closes := s.calls[k].closes + 1, owner := Settled)], holds := s.holds - {t})
    case StartWait(k) => s.(waits := s.waits + [Wait(k, Waiting)])
    case TimeOut(w) =>
      var k := s.waits[w].k;
      var found := s.calls[k].num in s.pending;
      var next := s.(waits := s.waits[w := Wait(k, if found then Expired else Back)]);
      RemoveCall(next, s.calls[k].num, Waiter(w), Fail(Canceled))
    case EndWait(w) => s.(waits := s.waits[w := Wait(s.waits[w].k, Back)])
    case Read(resp) => s.(reader := Got(resp))
    case Match => RemoveCall(s.(reader := Reading), s.reader.resp.num, Receiver, Answer(s.reader.resp))
    case ReadFails => s.(reader := ReadBroken)
    case ReaderEnds => s.(reader := ReaderEnded)
    case Tick(_, ok) => if ok then s else s.(ticker := TickBroken)
    case TickerEnds => s.(ticker := TickerEnded)
    case CloseBegin => if s.closed then s else s.(closing := Some(s.pending.Keys))
    case Terminate(n) =>
      var k := s.pending[n];
      s.(calls := s.calls[k := s.calls[k].(error := Some(Canceled), status := Finished, owner := By(Closer))],
         holds := s.holds[Closer := ToSignal(k)], closing := Some(s.closing.value - {n}))
    case CloseEnd => s.(pending := map[], closed := true, closing := None)
  }

  /** The request that a step puts on the wire. */
  function Emits(s: State, e: Event): Option<Request>
    requires Enabled(s, e)
  {
    match e
    case Write(k, true, _) => Some(Request(s.calls[k].target, s.calls[k].args, s.calls[k].num))
    case Tick(true, _) => Some(HeartBeat)
    case _ => None
  }

  /** The state after some steps from `s`, or None if one of them is not enabled. */
  function Run(s: State, es: seq<Event>): Option<State> {
    if es == [] then Some(s)
    else match Run(s, es[..|es| - 1])
      case None => None
      case Some(t) => if Enabled(t, es[|es| - 1]) then Some(Apply(t, es[|es| - 1])) else None
  }

  /** The state after a schedule. */
  function After(es: seq<Event>): Option<State> {
    Run(Init, es)
  }

  // ----- invariant -----

  ghost predicate Numbered(s: State, k: nat)
    requires k < |s.calls|
  {
    s.calls[k].num < |s.numbered| && s.numbered[s.calls[k].num] == k
  }

  /** The Seqs whose calls nobody has claimed. */
  function Live(s: State): set<nat> {
    if s.closing.Some? then s.closing.value else s.pending.Keys
  }

  predicate HasLock(pc: SendPc) {
    pc.Sending? || pc.Writing? || pc.Failed? || pc.Broken? || pc.Leaving?
  }

  ghost predicate OwnerOk(s: State, k: nat)
    requires k < |s.calls|
  {
    var c := s.calls[k];
    match c.owner
    case Fresh => c.status == New && c.closes == 0
    case Pending => Numbered(s, k) && c.num in Live(s) && c.status != Finished && c.closes == 0
    case By(t) => t in s.holds && s.holds[t].k == k && c.closes == 0 && (s.holds[t].ToSignal? <==> c.status == Finished)
    case Settled => c.status == Finished && c.closes == 1
  }

  ghost predicate PcOk(s: State, k: nat)
    requires k < |s.calls|
  {
    var c := s.calls[k];
    && (c.pc == Start <==> c.owner == Fresh)
    && (c.pc != Start ==> Numbered(s, k) || s.closed)
    && (c.pc == Rejected ==> c.owner == By(Sender(k)) || c.owner == Settled)
    && (c.pc == Queued || HasLock(c.pc) ==> Numbered(s, k))
    && (c.pc == Queued || c.pc == Sending ==> c.status != Receiving)
    && (c.pc == Broken ==> c.owner != Pending)
    && (c.pc in {Writing, Failed, Broken, Leaving, Returned} ==> c.status != New)
    && (HasLock(c.pc) ==> s.sending == Some(k))
  }

  /** What the caller finds in a finished call. */
  ghost predicate ResultOk(c: Call) {
    if c.answer.Some? then
      && c.status == Finished && c.answer.value.num == c.num
      && (c.wantsReply ==> c.answer.value.payload.replyv.Some?)
      && c.error == (if c.answer.value.payload.err != "" then Some(c.answer.value.payload.err) else None)
      && c.reply == (if c.wantsReply then c.answer.value.payload.replyv else None)
    else
      && c.reply == None
      && (if c.status == Finished then c.error == Some(Shutdown) || c.error == Some(Canceled) else c.error == None)
  }

  ghost predicate CallOk(s: State, k: nat)
    requires k < |s.calls|
  {
    OwnerOk(s, k) && PcOk(s, k) && ResultOk(s.calls[k])
  }

  /** A thread that holds a call is its only owner, and a sender or a waiter only ever holds its own. */
  ghost predicate HoldOk(s: State, t: Tid)
    requires t in s.holds
  {
    var task := s.holds[t];
    && task.k < |s.calls| && s.calls[task.k].owner == By(t)
    && match t
      case Sender(k) => k == task.k && (task.ToFinish? ==> task.verdict == Fail(Shutdown))
      case Waiter(w) =>
        w < |s.waits| && s.waits[w] == Wait(task.k, Expired) && (task.ToFinish? ==> task.verdict == Fail(Canceled))
      case Receiver =>
        s.reader == Reading && (task.ToFinish? ==>
          Numbered(s, task.k) && task.verdict.Answer? && task.verdict.resp.num == s.calls[task.k].num)
      case Closer => s.closing.Some? && task.ToSignal?
  }

  ghost predicate NumberOk(s: State, n: nat)
    requires n < |s.numbered|
  {
    s.numbered[n] < |s.calls| && s.calls[s.numbered[n]].num == n && s.calls[s.numbered[n]].pc != Start
  }

  ghost predicate PendingOk(s: State, n: nat)
    requires n in s.pending
  {
    && n < |s.numbered| && s.pending[n] == s.numbered[n]
    && (n in Live(s) ==> NumberOk(s, n) && s.calls[s.pending[n]].owner == Pending)
  }

  ghost predicate WaitOk(s: State, w: nat)
    requires w < |s.waits|
  {
    var k := s.waits[w].k;
    && k < |s.calls| && s.calls[k].pc == Returned
    && (s.waits[w].pc != Waiting ==> s.calls[k].owner.By? || s.calls[k].owner.Settled?)
  }

  ghost predicate PendingGate(s: State) {
    && (s.closing.Some? ==> !s.closed && s.closing.value <= s.pending.Keys)
    && (s.closed ==> s.pending == map[])
  }

  ghost predicate SendingGate(s: State) {
    s.sending.Some? ==> s.sending.value < |s.calls| && HasLock(s.calls[s.sending.value].pc)
  }

  ghost predicate GateOk(s: State) {
    PendingGate(s) && SendingGate(s)
  }

  ghost predicate Inv(s: State) {
    && GateOk(s)
    && (forall k :: 0 <= k < |s.calls| ==> CallOk(s, k))
    && (forall t :: t in s.holds ==> HoldOk(s, t))
    && (forall n :: 0 <= n < |s.numbered| ==> NumberOk(s, n))
    && (forall n :: n in s.pending ==> PendingOk(s, n))
    && (forall w :: 0 <= w < |s.waits| ==> WaitOk(s, w))
  }

  lemma StepKeepsPendingGate(s: State, e: Event)
    requires PendingGate(s) && Enabled(s, e)
    ensures PendingGate(Apply(s, e))
  {
  }

  lemma StepKeepsSendingGate(s: State, e: Event)
    requires SendingGate(s) && Enabled(s, e)
    ensures SendingGate(Apply(s, e))
  {
  }

  lemma StepKeepsGate(s: State, e: Event)
    requires Inv(s) && Enabled(s, e)
    ensures GateOk(Apply(s, e))
  {
    assert GateOk(s);
    hide Inv, Apply, Enabled;
    StepKeepsPendingGate(s, e);
    StepKeepsSendingGate(s, e);
  }

  /** The one call whose record a step may change. */
  function Touched(s: State, e: Event): Option<nat>
    requires Enabled(s, e)
  {
    match e
    case Register(k) => Some(k)
    case Lock(k) => Some(k)
    case Check(k) => Some(k)
    case Write(k, _, _) => Some(k)
    case GiveUp(k) => Some(k)
    case Leave(k) => Some(k)
    case Finish(t) => Some(s.holds[t].k)
    case Signal(t) => Some(s.holds[t].k)
    case TimeOut(w) => Some(s.waits[w].k)
    case Match => if s.reader.resp.num in s.pending then Some(s.pending[s.reader.resp.num]) else None
    case Terminate(n) => Some(s.pending[n])
    case _ => None
  }

  /** Whoever removes a Seq gets an unclaimed call, and a sender or waiter gets its own. */
  ghost predicate RemovesOwn(s: State, e: Event)
    requires Enabled(s, e)
  {
    match e
    case GiveUp(k) => s.calls[k].num in s.pending ==> s.pending[s.calls[k].num] == k && s.calls[k].owner == Pending
    case TimeOut(w) =>
      var k := s.waits[w].k;
      s.calls[k].num in s.pending ==> s.pending[s.calls[k].num] == k && s.calls[k].owner == Pending
    case Match =>
      var n := s.reader.resp.num;
      n in s.pending ==> Unclaimed(s, n) && Numbered(s, s.pending[n])
    case Terminate(n) => Unclaimed(s, n)
    case _ => true
  }

  ghost predicate Unclaimed(s: State, n: nat)
    requires n in s.pending
  {
    s.pending[n] < |s.calls| && s.calls[s.pending[n]].owner == Pending && s.calls[s.pending[n]].num == n
  }

  lemma StepRemovesOwn(s: State, e: Event)
    requires Inv(s) && Enabled(s, e)
    ensures RemovesOwn(s, e)
  {
    if e.GiveUp? {
      assert CallOk(s, e.k);
      assert s.calls[e.k].num in s.pending ==> PendingOk(s, s.calls[e.k].num);
    } else if e.TimeOut? {
      assert WaitOk(s, e.w) && CallOk(s, s.waits[e.w].k);
      assert s.calls[s.waits[e.w].k].num in s.pending ==> PendingOk(s, s.calls[s.waits[e.w].k].num);
    } else if e.Match? {
      assert s.reader.resp.num in s.pending ==> PendingOk(s, s.reader.resp.num);
    } else if e.Terminate? {
      assert PendingOk(s, e.n);
    }
  }

  lemma OthersUntouched(s: State, e: Event, k: nat)
    requires Inv(s) && Enabled(s, e) && k < |s.calls| && Touched(s, e) != Some(k)
    ensures k < |Apply(s, e).calls| && Apply(s, e).calls[k] == s.calls[k]
  {
    StepRemovesOwn(s, e);
    hide Inv;
  }

  /** A thread that holds an untouched call goes on holding it. */
  lemma OthersHeld(s: State, e: Event, t: Tid)
    requires Inv(s) && Enabled(s, e) && t in s.holds && Touched(s, e) != Some(s.holds[t].k)
    ensures t in Apply(s, e).holds && Apply(s, e).holds[t] == s.holds[t]
  {
    StepRemovesOwn(s, e);
    assert HoldOk(s, t);
    hide Inv, HoldOk;
  }

  lemma NumbersStay(s: State, e: Event)
    requires Enabled(s, e)
    ensures s.numbered <= Apply(s, e).numbered
  {
  }

  /** A Seq stays unclaimed unless its call is touched. */
  lemma OthersLive(s: State, e: Event, k: nat)
    requires Enabled(s, e) && k < |s.calls| && Touched(s, e) != Some(k) && RemovesOwn(s, e)
    requires s.calls[k].owner == Pending && s.calls[k].num in Live(s)
    requires PendingGate(s) && s.calls[k].num in s.pending && s.pending[s.calls[k].num] == k
    ensures s.calls[k].num in Live(Apply(s, e))
  {
  }

  lemma OthersNumbered(s: State, e: Event, k: nat)
    requires Inv(s) && Enabled(s, e) && k < |s.calls| && Touched(s, e) != Some(k)
    ensures k < |Apply(s, e).calls| && (Numbered(s, k) ==> Numbered(Apply(s, e), k))
    ensures s.calls[k].owner == Pending && Numbered(s, k) && s.calls[k].num in Live(s) ==>
      s.calls[k].num in Live(Apply(s, e))
  {
    hide Apply, Enabled, Touched, CallOk, HoldOk, WaitOk;
    OthersUntouched(s, e, k);
    StepRemovesOwn(s, e);
    NumbersStay(s, e);
    assert GateOk(s);
    if s.calls[k].owner == Pending && Numbered(s, k) && s.calls[k].num in Live(s) {
      assert PendingOk(s, s.calls[k].num);
      OthersLive(s, e, k);
    }
  }

  // ----- calls only move forward -----

  function Rank(status: Status): nat {
    match status
    case New => 0
    case Receiving => 1
    case Finished => 2
  }

  predicate PastWrite(pc: SendPc) {
    pc.Failed? || pc.Broken? || pc.Leaving? || pc.Returned?
  }

  /** What may become of a call: it keeps what was asked, its status only moves forward, and once it is
      finished its result stays. */
  ghost predicate CallOnward(c: Call, d: Call) {
    && d.target == c.target && d.args == c.args && d.wantsReply == c.wantsReply
    && (c.pc != Start ==> d.pc != Start && d.num == c.num)
    && (PastWrite(c.pc) ==> PastWrite(d.pc))
    && Rank(c.status) <= Rank(d.status) && c.closes <= d.closes
    && (c.status == Finished ==> d.error == c.error && d.reply == c.reply && d.answer == c.answer)
  }

  ghost predicate Onward(s: State, s': State) {
    && s.numbered <= s'.numbered && |s.calls| <= |s'.calls|
    && (s.closed ==> s'.closed && s'.numbered == s.numbered)
    && forall k :: 0 <= k < |s.calls| ==> CallOnward(s.calls[k], s'.calls[k])
  }

  predicate IsRemoval(e: Event) {
    e.GiveUp? || e.TimeOut? || e.Match?
  }

  predicate IsFinishing(e: Event) {
    e.Finish? || e.Signal? || e.Terminate?
  }

  /** What the three lemmas below need to know about the touched call. */
  ghost predicate Facts(s: State, e: Event, k: nat) 
    requires Enabled(s, e)
  {
    && k < |s.calls| && Touched(s, e) == Some(k) && CallOk(s, k) && RemovesOwn(s, e)
    && (e.Finish? || e.Signal? ==> HoldOk(s, e.t))
    && (MuFree(s) ==> Live(s) == s.pending.Keys)
  }

  lemma TouchedFacts(s: State, e: Event, k: nat)
    requires Inv(s) && Enabled(s, e) && Touched(s, e) == Some(k)
    ensures Facts(s, e, k)
  {
    StepRemovesOwn(s, e);
    if e.Finish? || e.Signal? {
      assert HoldOk(s, e.t);
    } else if e.TimeOut? {
      assert WaitOk(s, e.w);
    }
  }

  lemma RemovalKeepsOwner(s: State, e: Event, k: nat)
    requires Enabled(s, e) && Facts(s, e, k) && IsRemoval(e)
    ensures k < |Apply(s, e).calls| && OwnerOk(Apply(s, e), k)
  {
    hide HoldOk, Live, PcOk, ResultOk;
  }

  lemma RemovalKeepsPc(s: State, e: Event, k: nat)
    requires Enabled(s, e) && Facts(s, e, k) && IsRemoval(e)
    ensures k < |Apply(s, e).calls| && PcOk(Apply(s, e), k)
  {
    hide HoldOk, Live, ResultOk;
  }

  lemma RemovalKeepsResult(s: State, e: Event, k: nat)
    requires Enabled(s, e) && Facts(s, e, k) && IsRemoval(e)
    ensures k < |Apply(s, e).calls| && ResultOk(Apply(s, e).calls[k])
    ensures CallOnward(s.calls[k], Apply(s, e).calls[k])
  {
    hide HoldOk, Live, Live;
  }

  lemma RemovalKeepsCall(s: State, e: Event, k: nat)
    requires Enabled(s, e) && Facts(s, e, k) && IsRemoval(e)
    ensures k < |Apply(s, e).calls| && CallOk(Apply(s, e), k)
    ensures CallOnward(s.calls[k], Apply(s, e).calls[k])
  {
    hide Apply, Facts, OwnerOk, PcOk, ResultOk, CallOnward;
    RemovalKeepsOwner(s, e, k);
    RemovalKeepsPc(s, e, k);
    RemovalKeepsResult(s, e, k);
  }

  lemma FinishingKeepsOwner(s: State, e: Event, k: nat)
    requires Enabled(s, e) && Facts(s, e, k) && IsFinishing(e)
    ensures k < |Apply(s, e).calls| && OwnerOk(Apply(s, e), k)
  {
    hide RemoveCall, PcOk, ResultOk;
  }

  lemma FinishingKeepsPc(s: State, e: Event, k: nat)
    requires Enabled(s, e) && Facts(s, e, k) && IsFinishing(e)
    ensures k < |Apply(s, e).calls| && PcOk(Apply(s, e), k)
  {
    hide RemoveCall, ResultOk;
  }

  lemma FinishingKeepsResult(s: State, e: Event, k: nat)
    requires Enabled(s, e) && Facts(s, e, k) && IsFinishing(e)
    ensures k < |Apply(s, e).calls| && ResultOk(Apply(s, e).calls[k])
    ensures CallOnward(s.calls[k], Apply(s, e).calls[k])
  {
    hide RemoveCall;
  }

  lemma FinishingKeepsCall(s: State, e: Event, k: nat)
    requires Enabled(s, e) && Facts(s, e, k) && IsFinishing(e)
    ensures k < |Apply(s, e).calls| && CallOk(Apply(s, e), k)
    ensures CallOnward(s.calls[k], Apply(s, e).calls[k])
  {
    hide Apply, Facts, OwnerOk, PcOk, ResultOk, CallOnward;
    FinishingKeepsOwner(s, e, k);
    FinishingKeepsPc(s, e, k);
    FinishingKeepsResult(s, e, k);
  }

  lemma SendingKeepsOwner(s: State, e: Event, k: nat)
    requires Enabled(s, e) && Facts(s, e, k) && !IsRemoval(e) && !IsFinishing(e)
    ensures k < |Apply(s, e).calls| && OwnerOk(Apply(s, e), k)
  {
    hide HoldOk, RemoveCall, RemovesOwn, ResultOk;
  }

  lemma SendingKeepsPc(s: State, e: Event, k: nat)
    requires Enabled(s, e) && Facts(s, e, k) && !IsRemoval(e) && !IsFinishing(e)
    ensures k < |Apply(s, e).calls| && PcOk(Apply(s, e), k)
  {
    hide HoldOk, RemoveCall, RemovesOwn, ResultOk;
  }

  lemma SendingKeepsResult(s: State, e: Event, k: nat)
    requires Enabled(s, e) && Facts(s, e, k) && !IsRemoval(e) && !IsFinishing(e)
    ensures k < |Apply(s, e).calls| && ResultOk(Apply(s, e).calls[k])
    ensures CallOnward(s.calls[k], Apply(s, e).calls[k])
  {
    hide HoldOk, RemoveCall, RemovesOwn, Live;
  }

  lemma SendingKeepsCall(s: State, e: Event, k: nat)
    requires Enabled(s, e) && Facts(s, e, k) && !IsRemoval(e) && !IsFinishing(e)
    ensures k < |Apply(s, e).calls| && CallOk(Apply(s, e), k)
    ensures CallOnward(s.calls[k], Apply(s, e).calls[k])
  {
    hide Apply, Facts, OwnerOk, PcOk, ResultOk, CallOnward;
    SendingKeepsOwner(s, e, k);
    SendingKeepsPc(s, e, k);
    SendingKeepsResult(s, e, k);
  }

  lemma OtherOwner(s: State, e: Event, k: nat)
    requires Inv(s) && Enabled(s, e) && k < |s.calls| && Touched(s, e) != Some(k) && CallOk(s, k)
    ensures k < |Apply(s, e).calls| && OwnerOk(Apply(s, e), k)
  {
    hide Apply, Inv, Touched, Enabled, Live, Numbered, HoldOk, PcOk, ResultOk;
    OthersUntouched(s, e, k);
    OthersNumbered(s, e, k);
    if s.calls[k].owner.By? {
      OthersHeld(s, e, s.calls[k].owner.t);
    }
  }

  lemma OthersKeepLock(s: State, e: Event, k: nat)
    requires Inv(s) && Enabled(s, e) && k < |s.calls| && Touched(s, e) != Some(k)
    ensures HasLock(s.calls[k].pc) && s.sending == Some(k) ==> Apply(s, e).sending == Some(k)
    ensures s.closed ==> Apply(s, e).closed
  {
    if e.Leave? {
      assert CallOk(s, e.k);
    }
    hide Inv, CallOk;
  }

  lemma TouchedKeepsCall(s: State, e: Event, k: nat)
    requires Inv(s) && Enabled(s, e) && Touched(s, e) == Some(k)
    ensures k < |s.calls| && k < |Apply(s, e).calls| && CallOk(Apply(s, e), k)
    ensures CallOnward(s.calls[k], Apply(s, e).calls[k])
  {
    hide Apply, Touched, Enabled, CallOk, Inv, CallOnward;
    TouchedFacts(s, e, k);
    assert Facts(s, e, k);
    if IsRemoval(e) {
      RemovalKeepsCall(s, e, k);
    } else if IsFinishing(e) {
      FinishingKeepsCall(s, e, k);
    } else {
      SendingKeepsCall(s, e, k);
    }
  }

  lemma StepKeepsCall(s: State, e: Event, k: nat)
    requires Inv(s) && Enabled(s, e) && k < |s.calls|
    ensures k < |Apply(s, e).calls| && CallOk(Apply(s, e), k) && CallOnward(s.calls[k], Apply(s, e).calls[k])
  {
    hide Apply, Touched, Enabled, Live, Numbered, OwnerOk, HoldOk, WaitOk, PendingOk, NumberOk, GateOk, ResultOk;
    if Touched(s, e) == Some(k) {
      TouchedKeepsCall(s, e, k);
    } else {
      assert CallOk(s, k);
      OtherOwner(s, e, k);
      OthersUntouched(s, e, k);
      OthersNumbered(s, e, k);
      OthersKeepLock(s, e, k);
    }
  }

  lemma StepKeepsCalls(s: State, e: Event)
    requires Inv(s) && Enabled(s, e)
    ensures forall k :: 0 <= k < |Apply(s, e).calls| ==> CallOk(Apply(s, e), k)
  {
    forall k | 0 <= k < |Apply(s, e).calls| ensures CallOk(Apply(s, e), k) {
      if k < |s.calls| {
        StepKeepsCall(s, e, k);
      }
    }
  }

  lemma GrowsOnward(s: State, e: Event)
    requires Enabled(s, e)
    ensures s.numbered <= Apply(s, e).numbered && |s.calls| <= |Apply(s, e).calls|
    ensures s.closed ==> Apply(s, e).closed && Apply(s, e).numbered == s.numbered
  {
  }

  lemma StepOnward(s: State, e: Event)
    requires Inv(s) && Enabled(s, e)
    ensures Onward(s, Apply(s, e))
  {
    hide Apply, Enabled, Inv, CallOk, CallOnward;
    GrowsOnward(s, e);
    forall k | 0 <= k < |s.calls| ensures CallOnward(s.calls[k], Apply(s, e).calls[k]) {
      StepKeepsCall(s, e, k);
    }
  }

  lemma StepKeepsNumbers(s: State, e: Event)
    requires Inv(s) && Enabled(s, e)
    ensures forall n :: 0 <= n < |Apply(s, e).numbered| ==> NumberOk(Apply(s, e), n)
  {
    forall n | 0 <= n < |Apply(s, e).numbered| ensures NumberOk(Apply(s, e), n) {
      if n < |s.numbered| {
        StepKeepsNumber(s, e, n);
      }
    }
  }

  lemma StepKeepsNumber(s: State, e: Event, n: nat)
    requires Inv(s) && Enabled(s, e) && n < |s.numbered|
    ensures n < |Apply(s, e).numbered| && NumberOk(Apply(s, e), n)
  {
    hide Apply, Enabled, CallOk, HoldOk, PendingOk, WaitOk, GateOk;
    assert NumberOk(s, n);
    StepOnward(s, e);
    assert CallOnward(s.calls[s.numbered[n]], Apply(s, e).calls[s.numbered[n]]);
  }

  /** What a hold says about its thread survives every step that is not that thread's own. */
  lemma ThreadsStay(s: State, e: Event, t: Tid)
    requires Enabled(s, e) && t in s.holds && HoldOk(s, t) && RemovesOwn(s, e) && Touched(s, e) != Some(s.holds[t].k)
    ensures t.Waiter? ==> t.w < |Apply(s, e).waits| && Apply(s, e).waits[t.w] == s.waits[t.w]
    ensures t.Receiver? ==> Apply(s, e).reader == s.reader
    ensures t.Closer? ==> Apply(s, e).closing.Some?
  {
  }

  lemma OtherHold(s: State, e: Event, t: Tid)
    requires Inv(s) && Enabled(s, e) && t in s.holds && HoldOk(s, t) && Touched(s, e) != Some(s.holds[t].k)
    ensures t in Apply(s, e).holds && HoldOk(Apply(s, e), t)
  {
    hide Apply, Enabled, Inv, CallOk, RemovesOwn, Numbered, Touched;
    OthersHeld(s, e, t);
    OthersUntouched(s, e, s.holds[t].k);
    OthersNumbered(s, e, s.holds[t].k);
    StepRemovesOwn(s, e);
    ThreadsStay(s, e, t);
  }

  lemma TouchedHold(s: State, e: Event, t: Tid)
    requires Enabled(s, e) && t in s.holds && HoldOk(s, t) && Facts(s, e, s.holds[t].k) && t in Apply(s, e).holds
    ensures HoldOk(Apply(s, e), t)
  {
    hide ResultOk, Live;
  }

  lemma NewHold(s: State, e: Event, t: Tid)
    requires Enabled(s, e) && t !in s.holds && t in Apply(s, e).holds
    requires Touched(s, e).Some? && Facts(s, e, Touched(s, e).value)
    ensures HoldOk(Apply(s, e), t)
  {
    hide ResultOk, OwnerOk, Live;
  }

  lemma NewHoldTouches(s: State, e: Event, t: Tid)
    requires Enabled(s, e) && t !in s.holds && t in Apply(s, e).holds
    ensures Touched(s, e).Some?
  {
  }

  lemma StepKeepsHold(s: State, e: Event, t: Tid)
    requires Inv(s) && Enabled(s, e) && t in Apply(s, e).holds
    ensures HoldOk(Apply(s, e), t)
  {
    hide Apply, Touched, Enabled, HoldOk, CallOk, WaitOk, PendingOk, NumberOk, GateOk, Facts;
    if t in s.holds {
      assert HoldOk(s, t);
      if Touched(s, e) == Some(s.holds[t].k) {
        TouchedFacts(s, e, s.holds[t].k);
        TouchedHold(s, e, t);
      } else {
        OtherHold(s, e, t);
      }
    } else {
      NewHoldTouches(s, e, t);
      TouchedFacts(s, e, Touched(s, e).value);
      NewHold(s, e, t);
    }
  }

  lemma StepKeepsHolds(s: State, e: Event)
    requires Inv(s) && Enabled(s, e)
    ensures forall t :: t in Apply(s, e).holds ==> HoldOk(Apply(s, e), t)
  {
    forall t | t in Apply(s, e).holds ensures HoldOk(Apply(s, e), t) {
      StepKeepsHold(s, e, t);
    }
  }

  /** No step brings a claimed Seq back. */
  lemma LiveOnlyShrinks(s: State, e: Event, n: nat)
    requires Enabled(s, e) && n in s.pending && n in Live(Apply(s, e)) && GateOk(Apply(s, e))
    requires s.closing.Some? ==> s.closing.value <= s.pending.Keys
    ensures n in Live(s)
  {
  }

  lemma PendingStays(s: State, e: Event, n: nat)
    requires Enabled(s, e) && n in s.pending && n in Apply(s, e).pending && n != |s.numbered|
    ensures Apply(s, e).pending[n] == s.pending[n] && s.numbered <= Apply(s, e).numbered
  {
  }

  lemma TouchedPending(s: State, e: Event, n: nat)
    requires Enabled(s, e) && n in s.pending && Unclaimed(s, n) && Facts(s, e, s.pending[n])
    requires n in Apply(s, e).pending && n in Live(Apply(s, e))
    ensures s.pending[n] < |Apply(s, e).calls|
    ensures var c := Apply(s, e).calls[s.pending[n]]; c.owner == Pending && c.num == n && c.pc != Start
  {
    hide ResultOk;
  }

  lemma StepKeepsOnePending(s: State, e: Event, n: nat)
    requires Inv(s) && Enabled(s, e) && n in s.pending && n in Apply(s, e).pending
    ensures PendingOk(Apply(s, e), n)
  {
    hide Apply, Touched, Enabled, HoldOk, CallOk, WaitOk, GateOk, Facts, Live;
    var s' := Apply(s, e);
    assert PendingOk(s, n);
    PendingStays(s, e, n);
    if n in Live(s') {
      StepKeepsGate(s, e);
      assert s.closing.Some? ==> s.closing.value <= s.pending.Keys by { GateGives(s); }
      LiveOnlyShrinks(s, e, n);
      var k := s.pending[n];
      assert NumberOk(s, n);
      if Touched(s, e) == Some(k) {
        TouchedFacts(s, e, k);
        TouchedPending(s, e, n);
      } else {
        OthersUntouched(s, e, k);
      }
    }
  }

  lemma GateGives(s: State)
    requires Inv(s)
    ensures s.closing.Some? ==> s.closing.value <= s.pending.Keys
  {
    assert GateOk(s);
  }

  lemma StepKeepsPending(s: State, e: Event)
    requires Inv(s) && Enabled(s, e)
    ensures forall n :: n in Apply(s, e).pending ==> PendingOk(Apply(s, e), n)
  {
    var s' := Apply(s, e);
    forall n | n in s'.pending ensures PendingOk(s', n) {
      if n in s.pending {
        StepKeepsOnePending(s, e, n);
      }
    }
  }

  lemma TouchedWait(s: State, e: Event, k: nat)
    requires Enabled(s, e) && Facts(s, e, k) && s.calls[k].pc == Returned
    ensures k < |Apply(s, e).calls| && Apply(s, e).calls[k].pc == Returned
    ensures s.calls[k].owner.By? || s.calls[k].owner.Settled? ==>
      Apply(s, e).calls[k].owner.By? || Apply(s, e).calls[k].owner.Settled?
  {
    hide ResultOk, Live;
  }

  lemma StepKeepsReturned(s: State, e: Event, k: nat)
    requires Inv(s) && Enabled(s, e) && k < |s.calls| && s.calls[k].pc == Returned
    ensures k < |Apply(s, e).calls| && Apply(s, e).calls[k].pc == Returned
    ensures s.calls[k].owner.By? || s.calls[k].owner.Settled? ==>
      Apply(s, e).calls[k].owner.By? || Apply(s, e).calls[k].owner.Settled?
  {
    hide Apply, Touched, Enabled, Inv, Facts;
    if Touched(s, e) == Some(k) {
      TouchedFacts(s, e, k);
      assert Facts(s, e, k);
      TouchedWait(s, e, k);
    } else {
      OthersUntouched(s, e, k);
    }
  }

  /** A waiter stops waiting only when the call is claimed or finished. */
  lemma WaitStep(s: State, e: Event, w: nat)
    requires Enabled(s, e) && w < |s.waits| && s.waits[w].k < |s.calls| && CallOk(s, s.waits[w].k)
    requires s.calls[s.waits[w].k].pc == Returned && RemovesOwn(s, e) && (s.closed ==> s.pending == map[])
    requires MuFree(s) ==> Live(s) == s.pending.Keys
    requires Apply(s, e).waits[w].pc != Waiting && s.waits[w].pc == Waiting
    ensures Apply(s, e).waits[w].k == s.waits[w].k
    ensures var o := Apply(s, e).calls[s.waits[w].k].owner; o.By? || o.Settled?
  {
    hide ResultOk;
  }

  lemma WaitsStay(s: State, e: Event, w: nat)
    requires Enabled(s, e) && w < |s.waits|
    ensures w < |Apply(s, e).waits| && Apply(s, e).waits[w].k == s.waits[w].k
    ensures s.waits[w].pc != Waiting ==> Apply(s, e).waits[w].pc != Waiting
  {
  }

  lemma StepKeepsWait(s: State, e: Event, w: nat)
    requires Inv(s) && Enabled(s, e) && w < |s.waits|
    ensures WaitOk(Apply(s, e), w)
  {
    hide Apply, Touched, Enabled, HoldOk, CallOk, PendingOk, NumberOk, RemovesOwn, Live;
    assert WaitOk(s, w);
    var k := s.waits[w].k;
    StepKeepsReturned(s, e, k);
    WaitsStay(s, e, w);
    if s.waits[w].pc == Waiting && Apply(s, e).waits[w].pc != Waiting {
      assert CallOk(s, k);
      StepRemovesOwn(s, e);
      LiveIs(s);
      WaitStep(s, e, w);
    }
  }

  lemma LiveIs(s: State)
    requires Inv(s)
    ensures (MuFree(s) ==> Live(s) == s.pending.Keys) && (s.closed ==> s.pending == map[])
  {
  }

  lemma StepKeepsWaits(s: State, e: Event)
    requires Inv(s) && Enabled(s, e)
    ensures forall w :: 0 <= w < |Apply(s, e).waits| ==> WaitOk(Apply(s, e), w)
  {
    var s' := Apply(s, e);
    forall w | 0 <= w < |s'.waits| ensures WaitOk(s', w) {
      if w < |s.waits| {
        StepKeepsWait(s, e, w);
      }
    }
  }

  lemma {:induction false} RunKeepsInv(es: seq<Event>, s: State)
    requires After(es) == Some(s)
    ensures Inv(s)
  {
    hide Apply, Enabled, HoldOk, CallOk, PendingOk, NumberOk, WaitOk, GateOk;
    if es == [] {
      InitOk();
    } else {
      var before, e := After(es[..|es| - 1]).value, es[|es| - 1];
      RunKeepsInv(es[..|es| - 1], before);
      StepKeepsInv(before, e);
    }
  }

  lemma InitOk()
    ensures Inv(Init)
  {
  }

  lemma StepKeepsInv(s: State, e: Event)
    requires Inv(s) && Enabled(s, e)
    ensures Inv(Apply(s, e))
  {
    hide Apply, Enabled, HoldOk, CallOk, PendingOk, NumberOk, WaitOk, GateOk;
    StepKeepsGate(s, e);
    StepKeepsCalls(s, e);
    StepKeepsHolds(s, e);
    StepKeepsNumbers(s, e);
    StepKeepsPending(s, e);
    StepKeepsWaits(s, e);
  }

  /** Whatever happens after `es`, every call keeps its request and its Seq, its status never goes back,
      and the Error and Reply of a finished call never change again. */
  lemma {:induction false} RunOnward(es: seq<Event>, s: State, more: seq<Event>, s': State)
    requires After(es) == Some(s) && After(es + more) == Some(s')
    ensures Onward(s, s')
    decreases |more|
  {
    if more == [] {
      assert es + more == es;
    } else {
      hide Apply, Enabled, Inv, CallOnward;
      var all, init := es + more, more[..|more| - 1];
      assert all[..|all| - 1] == es + init;
      var before := After(es + init).value;
      RunOnward(es, s, init, before);
      RunKeepsInv(es + init, before);
      StepOnward(before, all[|all| - 1]);
      forall k | 0 <= k < |s.calls| ensures CallOnward(s.calls[k], s'.calls[k]) {
        OnwardTwice(s.calls[k], before.calls[k], s'.calls[k]);
      }
    }
  }

  lemma OnwardTwice(a: Call, b: Call, c: Call)
    requires CallOnward(a, b) && CallOnward(b, c)
    ensures CallOnward(a, c)
  {
  }

  // ----- the promises -----

  /** The threads that are busy finishing call `k`. */
  function Holders(s: State, k: nat): set<Tid> {
    set t | t in s.holds && s.holds[t].k == k
  }

  /** Call `k` waits in `pending`, and `Close` has not come past it. */
  predicate Unfinished(s: State, k: nat)
    requires k < |s.calls|
  {
    var n := s.calls[k].num;
    n in Live(s) && n in s.pending && s.pending[n] == k
  }

  /** Exactly-once completion. From the moment `send` has dealt with it, a call is either pending, or
      held by exactly one finishing thread, or `Done` was closed, exactly once, and it is FINISHED. */
  lemma ExactlyOnce(es: seq<Event>, s: State, k: nat)
    requires After(es) == Some(s) && k < |s.calls| && s.calls[k].pc != Start
    ensures |Holders(s, k)| + s.calls[k].closes + (if Unfinished(s, k) then 1 else 0) == 1
    ensures s.calls[k].closes == 1 ==> s.calls[k].status == Finished
    ensures Unfinished(s, k) ==> s.calls[k].status != Finished
  {
    RunKeepsInv(es, s);
    assert CallOk(s, k);
    forall t | t in Holders(s, k) ensures s.calls[k].owner == By(t) {
      assert HoldOk(s, t);
    }
    var c := s.calls[k];
    if Unfinished(s, k) {
      assert PendingOk(s, c.num);
    }
    if c.owner.By? {
      assert Holders(s, k) == {c.owner.t};
    } else {
      assert Holders(s, k) == {};
      if c.owner == Pending {
        assert c.num in s.pending by {
          assert GateOk(s);
        }
        assert PendingOk(s, c.num);
      }
    }
  }

  /** Every Seq handed out belongs to one call, and to that call for good. */
  lemma SeqsAreUnique(es: seq<Event>, s: State, n: nat, more: seq<Event>, s': State)
    requires After(es) == Some(s) && n < |s.numbered| && After(es + more) == Some(s')
    ensures s.numbered[n] < |s.calls| && s.calls[s.numbered[n]].num == n
    ensures forall m :: 0 <= m < |s.numbered| && s.numbered[m] == s.numbered[n] ==> m == n
    ensures n < |s'.numbered| && s'.numbered[n] == s.numbered[n]
    ensures s.numbered[n] < |s'.calls| && s'.calls[s.numbered[n]].num == n
  {
    RunKeepsInv(es, s);
    RunOnward(es, s, more, s');
    assert NumberOk(s, n);
    assert CallOnward(s.calls[s.numbered[n]], s'.calls[s.numbered[n]]);
    forall m | 0 <= m < |s.numbered| && s.numbered[m] == s.numbered[n] ensures m == n {
      assert NumberOk(s, m);
    }
  }

  /** Outside `Close`, a pending call is NEW or RECEIVING, never FINISHED, and sits under its own Seq. It
      is NEW only while its sender has not got to the write. */
  lemma PendingIsUnfinished(es: seq<Event>, s: State, n: nat)
    requires After(es) == Some(s) && MuFree(s) && n in s.pending
    ensures s.pending[n] < |s.calls|
    ensures var c := s.calls[s.pending[n]];
      c.num == n && c.status != Finished && (c.status == New <==> c.pc == Queued || c.pc == Sending)
  {
    RunKeepsInv(es, s);
    assert PendingOk(s, n) && CallOk(s, s.pending[n]);
  }

  /** So a pending call need not be RECEIVING: right after registerCall it is NEW. */
  lemma PendingMayBeNew(target: string, args: seq<Value>) returns (es: seq<Event>, s: State)
    ensures After(es) == Some(s) && MuFree(s) && s.pending == map[0 := 0] && |s.calls| == 1 && s.calls[0].status == New
  {
    var go := Go(target, args, true);
    es, s := [go, Register(0)], Apply(Apply(Init, go), Register(0));
    assert es[..1] == [go] && [go][..0] == [];
    assert Run(Init, []) == Some(Init) && Run(Init, [go]) == Some(Apply(Init, go));
  }

  /** Once closed, nothing is pending, and nothing ever is again. */
  lemma ClosedIsEmpty(es: seq<Event>, s: State, more: seq<Event>, s': State)
    requires After(es) == Some(s) && s.closed && After(es + more) == Some(s')
    ensures s'.closed && s'.pending == map[] && s'.numbered == s.numbered
  {
    RunOnward(es, s, more, s');
    RunKeepsInv(es + more, s');
    assert GateOk(s');
  }

  /** A time-out or a failed write takes no call but its own, even when that call never got a Seq and
      still carries Seq 0. */
  lemma TakesOnlyItsOwn(es: seq<Event>, s: State, e: Event, own: nat, k: nat)
    requires After(es) == Some(s) && Enabled(s, e) && k < |s.calls| && k != own
    requires e.GiveUp? || e.TimeOut?
    requires own == if e.GiveUp? then e.k else s.waits[e.w].k
    ensures Apply(s, e).calls[k] == s.calls[k] && Holders(Apply(s, e), k) == Holders(s, k)
    ensures forall n :: n in s.pending && s.pending[n] == k ==> n in Apply(s, e).pending && Apply(s, e).pending[n] == k
  {
    RunKeepsInv(es, s);
    StepRemovesOwn(s, e);
    var s' := Apply(s, e);
    OthersUntouched(s, e, k);
    forall t | t in s.holds && s.holds[t].k == k ensures t in s'.holds && s'.holds[t].k == k {
      OthersHeld(s, e, t);
    }
    hide Inv;
  }

  /** When WaitFor has returned, the call is FINISHED with `Done` closed, or exactly one thread is
      finishing it. */
  lemma AfterWaitFor(es: seq<Event>, s: State, w: nat)
    requires After(es) == Some(s) && w < |s.waits| && s.waits[w].pc == Back
    ensures s.waits[w].k < |s.calls|
    ensures var c := s.calls[s.waits[w].k];
      |Holders(s, s.waits[w].k)| + c.closes == 1 && (c.closes == 1 ==> c.status == Finished)
  {
    RunKeepsInv(es, s);
    assert WaitOk(s, w);
    var k := s.waits[w].k;
    assert CallOk(s, k);
    ExactlyOnce(es, s, k);
    assert s.calls[k].num in s.pending ==> PendingOk(s, s.calls[k].num);
  }

  /** A closed client strands nobody: every call whose `Go` has returned is finished, or a thread that
      holds it can take its next step towards closing `Done`. */
  lemma ClosedStrandsNobody(es: seq<Event>, s: State, k: nat)
    requires After(es) == Some(s) && s.fault == Fine && s.closed && k < |s.calls| && s.calls[k].pc != Start
    ensures s.calls[k].closes == 1 || exists t :: t in Holders(s, k) && (Enabled(s, Finish(t)) || Enabled(s, Signal(t)))
  {
    RunKeepsInv(es, s);
    assert CallOk(s, k) && GateOk(s);
    if s.calls[k].owner.By? {
      assert s.calls[k].owner.t in Holders(s, k);
    }
  }

  /** Requests are written one at a time. */
  lemma OneWriter(es: seq<Event>, s: State, j: nat, k: nat)
    requires After(es) == Some(s) && j < |s.calls| && k < |s.calls|
    requires s.calls[j].pc == Writing && s.calls[k].pc == Writing
    ensures j == k && !Enabled(s, Tick(true, true))
  {
    RunKeepsInv(es, s);
    assert CallOk(s, j) && CallOk(s, k);
  }

  /** How a call can end: with the response that `receive` matched to its Seq, or with one of the two
      errors of the client. */
  lemma ResultIs(es: seq<Event>, s: State, k: nat)
    requires After(es) == Some(s) && k < |s.calls| && s.calls[k].status == Finished
    ensures var c := s.calls[k];
      match c.answer
      case Some(r) =>
        && r.num == c.num && (c.wantsReply ==> c.reply.Some?)
        && c.error == (if r.payload.err != "" then Some(r.payload.err) else None)
        && c.reply == (if c.wantsReply then r.payload.replyv else None)
      case None => c.reply == None && c.error in {Some(Shutdown), Some(Canceled)}
  {
    RunKeepsInv(es, s);
    assert CallOk(s, k);
  }

  /** What a fault for want of a result leaves behind: a thread with a response without a result in its
      hands, for a call that has a Reply. */
  lemma NoResultMeans(es: seq<Event>, s: State) returns (t: Tid)
    requires After(es) == Some(s) && s.fault == NoResult
    ensures t in s.holds && s.holds[t].ToFinish? && s.holds[t].verdict.Answer? && s.holds[t].k < |s.calls|
    ensures s.calls[s.holds[t].k].wantsReply && s.holds[t].verdict.resp.payload.replyv.None?
  {
    t := es[|es| - 1].t;
  }

  /** Without a Reply in any `Go` there is no such fault. */
  lemma {:induction false} RunWantsNone(es: seq<Event>, s: State)
    requires After(es) == Some(s) && forall i :: 0 <= i < |es| ==> !(es[i].Go? && es[i].wantsReply)
    ensures s.fault != NoResult && forall k :: 0 <= k < |s.calls| ==> !s.calls[k].wantsReply
  {
    if es != [] {
      var init, e := es[..|es| - 1], es[|es| - 1];
      var before := After(init).value;
      RunWantsNone(init, before);
      RunKeepsInv(init, before);
      StepOnward(before, e);
      hide Inv;
      forall k | 0 <= k < |s.calls| ensures !s.calls[k].wantsReply {
        assert k < |before.calls| ==> CallOnward(before.calls[k], s.calls[k]);
        OnlyGoAddsCalls(before, e, k);
      }
      if s.fault == NoResult {
        var t := NoResultMeans(es, s);
      }
    }
  }

  lemma OnlyGoAddsCalls(s: State, e: Event, k: nat)
    requires Enabled(s, e) && k < |Apply(s, e).calls|
    ensures k >= |s.calls| ==> e.Go? && Apply(s, e).calls[k].wantsReply == e.wantsReply
  {
  }

  // ----- the locks are always released -----

  predicate IsClosing(e: Event) {
    e.CloseBegin? || e.Terminate? || e == Signal(Closer) || e.CloseEnd?
  }

  /** The steps of the thread that sends call `k`. */
  predicate IsSending(e: Event, k: nat) {
    || e == Check(k) || (e.Write? && e.k == k) || e == GiveUp(k) || e == Leave(k)
    || e == Finish(Sender(k)) || e == Signal(Sender(k))
  }

  /** While `Close` holds the client's lock it can go on. */
  lemma CloseGoesOn(es: seq<Event>, s: State) returns (e: Event)
    requires After(es) == Some(s) && s.fault == Fine && s.closing.Some?
    ensures Enabled(s, e) && IsClosing(e) && !e.CloseBegin?
  {
    RunKeepsInv(es, s);
    assert GateOk(s);
    var todo := s.closing.value;
    if Closer in s.holds {
      assert HoldOk(s, Closer);
      e := Signal(Closer);
    } else if todo == {} {
      e := CloseEnd;
    } else {
      var n :| n in todo;
      assert PendingOk(s, n);
      e := Terminate(n);
    }
  }

  /** Whoever holds the sending lock can go on, or waits only for a `Close` that can. */
  lemma SenderGoesOn(es: seq<Event>, s: State) returns (e: Event)
    requires After(es) == Some(s) && s.fault == Fine && s.sending.Some?
    ensures Enabled(s, e) && (IsSending(e, s.sending.value) || IsClosing(e))
    ensures e.Finish? ==> Apply(s, e).fault == Fine
  {
    RunKeepsInv(es, s);
    assert GateOk(s);
    var k := s.sending.value;
    assert Sender(k) in s.holds ==> HoldOk(s, Sender(k));
    var pc := s.calls[k].pc;
    if pc == Broken && Sender(k) in s.holds {
      e := if s.holds[Sender(k)].ToFinish? then Finish(Sender(k)) else Signal(Sender(k));
    } else if pc == Failed || (pc == Broken && !s.closed) {
      if s.closing.Some? {
        e := CloseGoesOn(es, s);
      } else {
        e := if pc == Failed then GiveUp(k) else CloseBegin;
      }
    } else {
      e := if pc == Sending then Check(k) else if pc == Writing then Write(k, true, true) else Leave(k);
    }
  }

  // ----- what a failed write, read or heartbeat leads to -----

  /** How the sender of call `k` moves. */
  ghost predicate SenderMoves(s: State, e: Event, k: nat, pc: SendPc)
    requires k < |s.calls|
  {
    match s.calls[k].pc
    case Start => pc == Start || e == Register(k)
    case Rejected => pc == Rejected || (e == Leave(k) && pc == Returned && Sender(k) !in s.holds)
    case Queued => pc == Queued || pc == Sending
    case Sending => pc == Sending || (e == Check(k) && pc == if s.calls[k].status == Finished then Leaving else Writing)
    case Writing => pc == Writing || (e.Write? && e.k == k && pc == if e.ok then Leaving else Failed)
    case Failed => pc == Failed || (e == GiveUp(k) && pc == Broken)
    case Broken => pc == Broken || (e == Leave(k) && pc == Returned && s.closed)
    case Leaving => pc == Leaving || pc == Returned
    case Returned => pc == Returned
  }

  /** The steps that are the sender's own moves. */
  predicate MovesSender(e: Event, k: nat) {
    e == Register(k) || e == Lock(k) || e == Check(k) || (e.Write? && e.k == k) || e == GiveUp(k) || e == Leave(k)
  }

  lemma OthersKeepSender(s: State, e: Event, k: nat)
    requires Enabled(s, e) && k < |s.calls| && !MovesSender(e, k)
    ensures k < |Apply(s, e).calls| && Apply(s, e).calls[k].pc == s.calls[k].pc
  {
  }

  lemma EarlySenderStep(s: State, e: Event, k: nat)
    requires Enabled(s, e) && k < |s.calls| && e in {Register(k), Lock(k), Check(k)}
    ensures k < |Apply(s, e).calls| && SenderMoves(s, e, k, Apply(s, e).calls[k].pc)
    ensures s.calls[k].pc == Start ==> Apply(s, e).calls[k].pc in {Rejected, Queued}
  {
  }

  lemma LateSenderStep(s: State, e: Event, k: nat)
    requires Enabled(s, e) && k < |s.calls| && ((e.Write? && e.k == k) || e == GiveUp(k) || e == Leave(k))
    ensures k < |Apply(s, e).calls| && SenderMoves(s, e, k, Apply(s, e).calls[k].pc) && s.calls[k].pc != Start
    ensures e.Write? ==> s.calls[k].pc == Writing && Apply(s, e).calls[k].pc == if e.ok then Leaving else Failed
  {
  }

  lemma SenderStep(s: State, e: Event, k: nat)
    requires Enabled(s, e) && k < |s.calls|
    ensures k < |Apply(s, e).calls| && SenderMoves(s, e, k, Apply(s, e).calls[k].pc)
    ensures s.calls[k].pc == Start ==> Apply(s, e).calls[k].pc in {Start, Rejected, Queued}
    ensures e.Write? && e.k == k ==>
      s.calls[k].pc == Writing && Apply(s, e).calls[k].pc == if e.ok then Leaving else Failed
  {
    hide Apply, Enabled;
    if e in {Register(k), Lock(k), Check(k)} {
      EarlySenderStep(s, e, k);
    } else if MovesSender(e, k) {
      LateSenderStep(s, e, k);
    } else {
      OthersKeepSender(s, e, k);
    }
  }

  lemma NewCallsStart(s: State, e: Event, k: nat)
    requires Enabled(s, e) && |s.calls| <= k < |Apply(s, e).calls|
    ensures Apply(s, e).calls[k].pc == Start && !(e.Write? && e.k == k)
  {
  }

  predicate IsWrite(e: Event, k: nat, ok: bool) {
    e.Write? && e.k == k && e.ok == ok
  }

  /** Some write of call `k` in the schedule went well, or badly. */
  ghost predicate Wrote(es: seq<Event>, k: nat, ok: bool) {
    exists i :: 0 <= i < |es| && IsWrite(es[i], k, ok)
  }

  lemma WroteMore(es: seq<Event>, k: nat, ok: bool)
    requires es != []
    ensures Wrote(es, k, ok) <==> Wrote(es[..|es| - 1], k, ok) || IsWrite(es[|es| - 1], k, ok)
  {
    var init := es[..|es| - 1];
    assert forall i :: 0 <= i < |init| ==> init[i] == es[i];
    if IsWrite(es[|es| - 1], k, ok) {
      assert Wrote(es, k, ok);
    }
    if Wrote(init, k, ok) {
      var i :| 0 <= i < |init| && IsWrite(init[i], k, ok);
      assert IsWrite(es[i], k, ok);
    }
  }

  /** Where the sender of a call is, given how its write went. */
  ghost predicate WriteOk(es: seq<Event>, s: State, k: nat)
    requires k < |s.calls|
  {
    var c := s.calls[k];
    && !(Wrote(es, k, true) && Wrote(es, k, false))
    && (Wrote(es, k, true) ==> c.pc == Leaving || c.pc == Returned)
    && (Wrote(es, k, false) ==> c.pc == Failed || c.pc == Broken || c.pc == Returned)
    && (Wrote(es, k, false) && c.pc == Returned ==> s.closed)
    && (c.pc == Leaving ==> Wrote(es, k, true) || c.status == Finished)
    && (c.pc == Returned ==> Wrote(es, k, true) || c.status == Finished || s.closed)
  }

  lemma StepKeepsWriteOk(es: seq<Event>, s: State, e: Event, k: nat)
    requires Inv(s) && Enabled(s, e) && k < |s.calls| && WriteOk(es, s, k)
    ensures k < |Apply(s, e).calls| && WriteOk(es + [e], Apply(s, e), k)
  {
    hide Apply, Enabled, Inv, Wrote, IsWrite;
    SenderStep(s, e, k);
    WroteMore(es + [e], k, true);
    WroteMore(es + [e], k, false);
    IsWriteMeans(e, k);
    assert (es + [e])[..|es|] == es;
    StepOnward(s, e);
    assert CallOnward(s.calls[k], Apply(s, e).calls[k]);
    RejectedIsFinished(s, k);
  }

  lemma IsWriteMeans(e: Event, k: nat)
    ensures e.Write? && e.k == k <==> IsWrite(e, k, true) || IsWrite(e, k, false)
    ensures !(IsWrite(e, k, true) && IsWrite(e, k, false))
    ensures e.Write? && e.k == k ==> (IsWrite(e, k, true) <==> e.ok)
  {
  }

  lemma RejectedIsFinished(s: State, k: nat)
    requires Inv(s) && k < |s.calls|
    ensures s.calls[k].pc == Rejected && Sender(k) !in s.holds ==> s.calls[k].status == Finished
  {
    assert CallOk(s, k);
  }

  lemma {:induction false} RunWrites(es: seq<Event>, s: State, k: nat)
    requires After(es) == Some(s) && k < |s.calls|
    ensures WriteOk(es, s, k)
  {
    if es != [] {
      var init, e := es[..|es| - 1], es[|es| - 1];
      var before := After(init).value;
      RunKeepsInv(init, before);
      if k < |before.calls| {
        RunWrites(init, before, k);
        StepKeepsWriteOk(init, before, e, k);
        assert init + [e] == es;
      } else {
        NewCallsStart(before, e, k);
        hide Apply, Enabled;
        NotWrittenYet(init, before, k);
        WroteMore(es, k, true);
        WroteMore(es, k, false);
      }
    }
  }

  /** Only calls that exist are written. */
  lemma {:induction false} NotWrittenYet(es: seq<Event>, s: State, k: nat)
    requires After(es) == Some(s) && |s.calls| <= k
    ensures !Wrote(es, k, true) && !Wrote(es, k, false)
  {
    if es != [] {
      var init, e := es[..|es| - 1], es[|es| - 1];
      var before := After(init).value;
      GrowsOnward(before, e);
      NotWrittenYet(init, before, k);
      assert !(e.Write? && e.k == k);
      hide Apply, Enabled, Wrote;
      WroteMore(es, k, true);
      WroteMore(es, k, false);
    }
  }

  /** A failed write has consequences: once the sender has gone past removeCall the call is not left
      pending, and `send` returns only when the client is closed and the call is FINISHED with `Done`
      closed, or held by the one thread that will finish it. */
  lemma AfterFailedWrite(es: seq<Event>, s: State, k: nat)
    requires After(es) == Some(s) && k < |s.calls| && Wrote(es, k, false)
    ensures s.calls[k].pc in {Failed, Broken, Returned} && !Wrote(es, k, true)
    ensures s.calls[k].pc != Failed ==> !Unfinished(s, k) && |Holders(s, k)| + s.calls[k].closes == 1
    ensures s.calls[k].pc == Returned ==> s.closed
  {
    RunWrites(es, s, k);
    ExactlyOnce(es, s, k);
    RunKeepsInv(es, s);
    hide Wrote, Inv;
    if s.calls[k].pc != Failed {
      NotLeftPending(s, k);
    }
  }

  lemma NotLeftPending(s: State, k: nat)
    requires Inv(s) && k < |s.calls| && (s.calls[k].pc == Broken || s.closed || s.calls[k].status == Finished)
    ensures !Unfinished(s, k)
  {
    assert CallOk(s, k) && GateOk(s);
    var n := s.calls[k].num;
    assert n in s.pending ==> PendingOk(s, n);
  }

  /** When `send` has returned, the call was written, or it is held or finished. */
  lemma AfterSend(es: seq<Event>, s: State, k: nat)
    requires After(es) == Some(s) && k < |s.calls| && s.calls[k].pc == Returned && !Wrote(es, k, true)
    ensures !Unfinished(s, k) && |Holders(s, k)| + s.calls[k].closes == 1
  {
    RunWrites(es, s, k);
    ExactlyOnce(es, s, k);
    RunKeepsInv(es, s);
    NotLeftPending(s, k);
    hide Wrote, Inv;
  }

  /** A call that is finished when its sender looks at it is never written. */
  lemma {:induction false} FinishedIsNotWritten(es: seq<Event>, s: State, k: nat, more: seq<Event>, t: State)
    requires After(es) == Some(s) && Enabled(s, Check(k)) && s.calls[k].status == Finished
    requires Run(Apply(s, Check(k)), more) == Some(t)
    ensures k < |t.calls| && (t.calls[k].pc == Leaving || t.calls[k].pc == Returned)
    ensures forall i :: 0 <= i < |more| ==> !(more[i].Write? && more[i].k == k)
    decreases |more|
  {
    if more != [] {
      var init, e := more[..|more| - 1], more[|more| - 1];
      var before := Run(Apply(s, Check(k)), init).value;
      FinishedIsNotWritten(es, s, k, init, before);
      SenderStep(before, e, k);
      hide Apply, Enabled;
      forall i | 0 <= i < |more| ensures !(more[i].Write? && more[i].k == k) {
        assert i < |init| ==> more[i] == init[i];
      }
    }
  }

  // ----- the reader and the ticker -----

  predicate IsReadFailure(e: Event) {
    e.ReadFails?
  }

  predicate IsTickFailure(e: Event) {
    e.Tick? && !e.ok
  }

  ghost predicate ReadFailed(es: seq<Event>) {
    exists i :: 0 <= i < |es| && IsReadFailure(es[i])
  }

  ghost predicate TickFailed(es: seq<Event>) {
    exists i :: 0 <= i < |es| && IsTickFailure(es[i])
  }

  lemma FailedMore(es: seq<Event>)
    requires es != []
    ensures ReadFailed(es) <==> ReadFailed(es[..|es| - 1]) || IsReadFailure(es[|es| - 1])
    ensures TickFailed(es) <==> TickFailed(es[..|es| - 1]) || IsTickFailure(es[|es| - 1])
  {
    var init, e := es[..|es| - 1], es[|es| - 1];
    assert forall i :: 0 <= i < |init| ==> init[i] == es[i];
    if IsReadFailure(e) {
      assert ReadFailed(es);
    }
    if IsTickFailure(e) {
      assert TickFailed(es);
    }
    if ReadFailed(init) {
      var i :| 0 <= i < |init| && IsReadFailure(init[i]);
      assert IsReadFailure(es[i]);
    }
    if TickFailed(init) {
      var i :| 0 <= i < |init| && IsTickFailure(init[i]);
      assert IsTickFailure(es[i]);
    }
  }

  lemma ReaderStep(s: State, e: Event)
    requires Enabled(s, e)
    ensures var r, r' := s.reader, Apply(s, e).reader;
      && (r' == ReadBroken || r' == ReaderEnded <==> r == ReadBroken || r == ReaderEnded || IsReadFailure(e))
      && (r' == ReaderEnded ==> r == ReaderEnded || s.closed)
    ensures e.Read? ==> s.reader == Reading
    ensures s.closed ==> Apply(s, e).closed
  {
  }

  lemma TickerStep(s: State, e: Event)
    requires Enabled(s, e)
    ensures var t, t' := s.ticker, Apply(s, e).ticker;
      && (t' != Ticking <==> t != Ticking || IsTickFailure(e))
      && (t' == TickerEnded ==> t == TickerEnded || s.closed)
    ensures e.Tick? ==> s.ticker == Ticking
    ensures s.closed ==> Apply(s, e).closed
  {
  }

  /** The receiver stops reading exactly after a failed read, and it has ended only if the client is closed. */
  lemma {:induction false} AfterFailedRead(es: seq<Event>, s: State)
    requires After(es) == Some(s)
    ensures ReadFailed(es) <==> s.reader == ReadBroken || s.reader == ReaderEnded
    ensures s.reader == ReaderEnded ==> s.closed
    ensures ReadFailed(es) ==> forall resp :: !Enabled(s, Read(resp))
  {
    if es != [] {
      var before := After(es[..|es| - 1]).value;
      AfterFailedRead(es[..|es| - 1], before);
      ReaderStep(before, es[|es| - 1]);
      FailedMore(es);
      hide Apply, ReadFailed;
    }
  }

  /** The same for the ticker and a failed heartbeat. */
  lemma {:induction false} AfterFailedTick(es: seq<Event>, s: State)
    requires After(es) == Some(s)
    ensures TickFailed(es) <==> s.ticker == TickBroken || s.ticker == TickerEnded
    ensures s.ticker == TickerEnded ==> s.closed
    ensures TickFailed(es) ==> forall delivered, ok :: !Enabled(s, Tick(delivered, ok))
  {
    if es != [] {
      var before := After(es[..|es| - 1]).value;
      AfterFailedTick(es[..|es| - 1], before);
      TickerStep(before, es[|es| - 1]);
      FailedMore(es);
      hide Apply, TickFailed;
    }
  }

  // ----- who finishes a call, and how -----

  /** A call that ends without a response tells who gave up on it: its own sender, which leaves the shutdown
      error, or a waiter or Close, which leave the other one. */
  lemma ErrorTellsWho(es: seq<Event>, s: State, e: Event, k: nat)
    requires After(es) == Some(s) && Enabled(s, e) && k < |s.calls| && s.calls[k].status != Finished
    requires k < |Apply(s, e).calls| && Apply(s, e).calls[k].status == Finished && Apply(s, e).calls[k].answer.None?
    ensures e.Finish? || e.Terminate?
    ensures Apply(s, e).calls[k].error == Some(
      if e == Finish(Sender(k)) then "connection is shut down and call didn't send"
      else "call canceled while sending or waiting-for-receiving")
  {
    hide Apply, Enabled;
    EndsWithout(s, e, k);
    RunKeepsInv(es, s);
    if e.Finish? {
      assert HoldOk(s, e.t);
    }
  }

  lemma EndsWithout(s: State, e: Event, k: nat)
    requires Enabled(s, e) && k < |s.calls| && s.calls[k].status != Finished
    requires k < |Apply(s, e).calls| && Apply(s, e).calls[k].status == Finished && Apply(s, e).calls[k].answer.None?
    ensures
      || (e.Terminate? && Apply(s, e).calls[k].error == Some(Canceled))
      || (e.Finish? && e.t in s.holds && s.holds[e.t].ToFinish? && s.holds[e.t].k == k && s.holds[e.t].verdict.Fail?
          && Apply(s, e).calls[k].error == Some(s.holds[e.t].verdict.error))
  {
  }

  /** The receiver takes the pending call under the Seq of its response, to finish it with that response; a
      response for any other Seq is dropped without a trace. */
  lemma ResponseFindsItsCall(es: seq<Event>, s: State)
    requires After(es) == Some(s) && Enabled(s, Match)
    ensures var resp, t := s.reader.resp, Apply(s, Match);
      && (resp.num !in s.pending ==> t == s.(reader := Reading))
      && (resp.num in s.pending ==>
            var k := s.pending[resp.num];
            && k < |s.calls| && s.calls[k].num == resp.num && Unfinished(s, k) && !Unfinished(t, k)
            && Receiver in t.holds && t.holds[Receiver] == ToFinish(k, Answer(resp)))
  {
    RunKeepsInv(es, s);
    var n := s.reader.resp.num;
    assert n in s.pending ==> PendingOk(s, n);
    hide Inv;
  }

  // ----- no thread is stuck -----

  /** A waiter can time out, see that `Done` is closed, or finish what it took, unless Close is at work. */
  lemma WaiterGoesOn(es: seq<Event>, s: State, w: nat) returns (e: Event)
    requires After(es) == Some(s) && s.fault == Fine && w < |s.waits| && s.waits[w].pc != Back
    ensures Enabled(s, e)
    ensures e in {TimeOut(w), EndWait(w), Finish(Waiter(w)), Signal(Waiter(w))} || (s.closing.Some? && IsClosing(e))
  {
    RunKeepsInv(es, s);
    assert WaitOk(s, w);
    assert Waiter(w) in s.holds ==> HoldOk(s, Waiter(w));
    if s.waits[w].pc == Waiting {
      if s.closing.Some? {
        e := CloseGoesOn(es, s);
      } else {
        e := TimeOut(w);
      }
    } else if Waiter(w) in s.holds {
      e := if s.holds[Waiter(w)].ToFinish? then Finish(Waiter(w)) else Signal(Waiter(w));
    } else {
      e := EndWait(w);
    }
  }

  /** A receiver that is not reading can match, finish, signal, close or end, unless Close is at work. */
  lemma ReceiverGoesOn(es: seq<Event>, s: State) returns (e: Event)
    requires After(es) == Some(s) && s.fault == Fine && s.reader != ReaderEnded
    requires s.reader == Reading ==> Receiver in s.holds
    ensures Enabled(s, e)
    ensures e in {Match, Finish(Receiver), Signal(Receiver), ReaderEnds} || IsClosing(e)
  {
    RunKeepsInv(es, s);
    assert Receiver in s.holds ==> HoldOk(s, Receiver);
    if s.reader == Reading {
      e := if s.holds[Receiver].ToFinish? then Finish(Receiver) else Signal(Receiver);
    } else if s.reader == ReadBroken && s.closed {
      e := ReaderEnds;
    } else if s.closing.Some? {
      e := CloseGoesOn(es, s);
    } else {
      e := if s.reader.Got? then Match else CloseBegin;
    }
  }

  lemma TimeOutTakes(s: State, k: nat)
    requires s.fault == Fine && MuFree(s) && Enabled(s, StartWait(k)) && k < |s.calls| && s.calls[k].closes == 0
    requires s.calls[k].num in s.pending && s.pending[s.calls[k].num] == k
    ensures var w, a := |s.waits|, Apply(s, StartWait(k));
      && Enabled(a, TimeOut(w))
      && var b := Apply(a, TimeOut(w));
         && b.fault == Fine && MuFree(b) && b.pending == s.pending - {s.calls[k].num}
         && k < |b.calls| && b.calls[k].num == s.calls[k].num && b.calls[k].closes == 0
         && w < |b.waits| && b.waits[w] == Wait(k, Expired)
         && Waiter(w) in b.holds && b.holds[Waiter(w)] == ToFinish(k, Fail(Canceled))
  {
  }

  lemma HolderFinishes(s: State, t: Tid, k: nat, error: string)
    requires s.fault == Fine && t in s.holds && s.holds[t] == ToFinish(k, Fail(error))
    requires k < |s.calls| && s.calls[k].closes == 0
    ensures Enabled(s, Finish(t))
    ensures var c := Apply(s, Finish(t));
      && Enabled(c, Signal(t))
      && var d := Apply(c, Signal(t));
         && k < |d.calls| && d.calls[k].status == Finished && d.calls[k].error == Some(error) && d.calls[k].closes == 1
         && t !in d.holds && d.waits == s.waits && |d.calls| == |s.calls| && d.fault == Fine
  {
  }

  /** A time-out that finds its call pending ends it: the call is taken from `pending`, finished with the
      cancel error, and `Done` is closed, in steps that the waiter can always take. */
  lemma TimeOutEndsPendingCall(es: seq<Event>, s: State, k: nat)
    requires After(es) == Some(s) && s.fault == Fine && MuFree(s)
    requires Enabled(s, StartWait(k)) && k < |s.calls| && Unfinished(s, k)
    ensures var w, a := |s.waits|, Apply(s, StartWait(k));
      && Enabled(a, TimeOut(w))
      && var b := Apply(a, TimeOut(w));
         && k < |b.calls| && !Unfinished(b, k) && Enabled(b, Finish(Waiter(w)))
         && var c := Apply(b, Finish(Waiter(w)));
            && Enabled(c, Signal(Waiter(w)))
            && var d := Apply(c, Signal(Waiter(w)));
               && k < |d.calls| && d.calls[k].status == Finished && d.calls[k].error == Some(Canceled)
               && d.calls[k].closes == 1 && Enabled(d, EndWait(w))
  {
    hide Apply, Enabled, Inv;
    assert s.calls[k].closes == 0 by {
      RunKeepsInv(es, s);
      PendingIsOpen(s, k);
    }
    TimeOutTakes(s, k);
    var w := |s.waits|;
    var b := Apply(Apply(s, StartWait(k)), TimeOut(w));
    HolderFinishes(b, Waiter(w), k, Canceled);
    CanEndWait(Apply(Apply(b, Finish(Waiter(w))), Signal(Waiter(w))), w, k);
  }

  lemma PendingIsOpen(s: State, k: nat)
    requires Inv(s) && k < |s.calls| && Unfinished(s, k)
    ensures s.calls[k].closes == 0
  {
    assert CallOk(s, k) && PendingOk(s, s.calls[k].num);
  }

  lemma CanEndWait(s: State, w: nat, k: nat)
    requires s.fault == Fine && w < |s.waits| && s.waits[w] == Wait(k, Expired)
    requires k < |s.calls| && Waiter(w) !in s.holds
    ensures Enabled(s, EndWait(w))
  {
  }
}
