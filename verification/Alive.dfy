/** The heartbeat channel of one registered service: registryServer.go, `Service.Close`,
    `HandleHeartBeat` and the watcher that `issueAliveCheck` starts. Any number of heartbeats and
    resigns may hold the service at the same time; each takes its lock for one step. */
module Alive {
  /** A buffered channel of capacity 1; `closes` counts the calls of close. */
  datatype Chan = Chan(buffered: nat, closes: nat)

  datatype Watcher = Watching | Expired | Ended

  /** `panicked` records a send on a closed channel or a second close. */
  datatype State = State(closed: bool, ch: Chan, watcher: Watcher, panicked: bool)

  const Init := State(false, Chan(0, 0), Watching, false)

  /** A heartbeat: refused when the service is closed, otherwise a send that drops the signal rather
      than wait. */
  function Beat(s: State): State {
    if s.closed then s
    else if s.ch.closes > 0 then s.(panicked := true)
    else if s.ch.buffered < 1 then s.(ch := s.ch.(buffered := s.ch.buffered + 1))
    else s
  }

  /** `Service.Close`, the last step of every resign. */
  function Close(s: State): State {
    if s.closed then s
    else
      s.(closed := true, ch := s.ch.(closes := s.ch.closes + 1), panicked := s.panicked || s.ch.closes > 0)
  }

  datatype Event = HeartBeat | CloseService | Receive | Timeout

  predicate Enabled(s: State, e: Event) {
    match e
    case HeartBeat => true
    case CloseService => true
    case Receive => s.watcher == Watching && (s.ch.buffered > 0 || s.ch.closes > 0)
    case Timeout => s.watcher == Watching
  }

  function Apply(s: State, e: Event): State
    requires Enabled(s, e)
  {
    match e
    case HeartBeat => Beat(s)
    case CloseService => Close(s)
    case Receive =>
      if s.ch.buffered > 0 then s.(ch := s.ch.(buffered := s.ch.buffered - 1)) else s.(watcher := Ended)
    case Timeout => s.(watcher := Expired)
  }

  function Run(s: State, es: seq<Event>): State
    decreases |es|
  {
    if es == [] || !Enabled(s, es[0]) then s else Run(Apply(s, es[0]), es[1..])
  }

  ghost predicate Inv(s: State) {
    !s.panicked && s.ch.buffered <= 1 && s.ch.closes == if s.closed then 1 else 0
  }

  lemma {:induction false} RunKeepsInv(s: State, es: seq<Event>)
    requires Inv(s)
    ensures Inv(Run(s, es))
    ensures s.closed ==> Run(s, es).closed && Run(s, es).ch.buffered <= s.ch.buffered
    ensures s.watcher == Ended ==> Run(s, es).watcher == Ended
    decreases |es|
  {
    if es != [] && Enabled(s, es[0]) {
      RunKeepsInv(Apply(s, es[0]), es[1..]);
    }
  }

  /** Over every interleaving the channel is closed at most once, exactly when the service is, and nothing
      is sent on it afterwards; a heartbeat to an open service leaves a signal that the watcher can take. */
  lemma ChannelSafety(es: seq<Event>)
    ensures var s := Run(Init, es);
      && !s.panicked && s.ch.closes <= 1 && (s.ch.closes == 1 <==> s.closed)
      && !Apply(s, HeartBeat).panicked && !Apply(s, CloseService).panicked
      && (!s.closed ==> Apply(s, HeartBeat).ch.buffered == 1)
      && (!s.closed && s.watcher == Watching ==> Enabled(Apply(s, HeartBeat), Receive))
  {
    RunKeepsInv(Init, es);
  }

  /** All the steps are enabled, so all of them are taken. */
  predicate Takes(s: State, es: seq<Event>)
    decreases |es|
  {
    es == [] || (Enabled(s, es[0]) && Takes(Apply(s, es[0]), es[1..]))
  }

  function Receives(es: seq<Event>): nat {
    if es == [] then 0 else (if es[0] == Receive then 1 else 0) + Receives(es[1..])
  }

  lemma {:induction false} ClosedBy(s: State, es: seq<Event>)
    requires Inv(s) && Takes(s, es)
    ensures Run(s, es).closed <==> s.closed || CloseService in es
    decreases |es|
  {
    if es != [] {
      ClosedBy(Apply(s, es[0]), es[1..]);
      assert CloseService in es <==> es[0] == CloseService || CloseService in es[1..];
    }
  }

  /** The service is closed exactly when a close was among the steps; then the channel is closed, once, and
      from then on a heartbeat is refused: it changes nothing. */
  lemma CloseCloses(es: seq<Event>)
    requires Takes(Init, es)
    ensures var s := Run(Init, es);
      && (s.closed <==> CloseService in es)
      && s.ch.closes == (if CloseService in es then 1 else 0)
      && (CloseService in es ==> Apply(s, HeartBeat) == s)
  {
    RunKeepsInv(Init, es);
    ClosedBy(Init, es);
  }

  lemma {:induction false} ReceivesLeft(s: State, es: seq<Event>)
    requires Inv(s) && s.closed && Takes(s, es)
    ensures Receives(es) <= if s.watcher == Watching then s.ch.buffered + 1 else 0
    decreases |es|
  {
    if es != [] {
      ReceivesLeft(Apply(s, es[0]), es[1..]);
    }
  }

  /** Once a close was among the steps a watching watcher is never blocked, and it is gone after at most two
      receives, whatever else happens in between. */
  lemma WatcherEnds(es: seq<Event>, later: seq<Event>)
    requires Takes(Init, es) && CloseService in es && Takes(Run(Init, es), later)
    ensures var s := Run(Init, es);
      && Receives(later) <= 2
      && (s.watcher == Watching ==> Enabled(s, Receive) && Run(s, [Receive, Receive]).watcher == Ended)
  {
    var s := Run(Init, es);
    CloseCloses(es);
    RunKeepsInv(Init, es);
    ReceivesLeft(s, later);
    if s.watcher == Watching {
      var t := Apply(s, Receive);
      assert [Receive, Receive][1..] == [Receive] && [Receive][1..] == [];
      assert Run(s, [Receive, Receive]) == Run(t, [Receive]);
      assert t.watcher == Watching ==> Run(t, [Receive]) == Run(Apply(t, Receive), []);
    }
  }
}
