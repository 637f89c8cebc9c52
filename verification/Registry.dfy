/** registryServer.go as a transition system: register, resign, query and change notification, one step
    per critical section. A service object is named by its id. */
module Registry {
  import opened Options

  datatype Info = Info(name: string, addr: string, listens: bool)

  /** How far `register` is: the indexes are written, the client list is written, or the change is
      announced and the id returned. */
  datatype RegPc = Indexed | Listed | Returned

  datatype Obj = Obj(info: Info, reg: RegPc, interest: set<string>)

  datatype InformPc =
    | Waiting                                       // started, clients not scanned yet
    | Scanning(todo: set<nat>, chosen: set<nat>)    // holds the client lock
    | Chosen(chosen: set<nat>)                      // the address snapshot is still to be taken
    | Done

  datatype Inform = Inform(name: string, pc: InformPc)

  datatype ResignPc = Removed | Unlisted | Informing(t: nat) | Closed(t: nat)

  datatype Resign = Resign(id: nat, pc: ResignPc)

  /** `services` and `ids` are the two indexes under the service lock, `clients` the listening services
      under the client lock, `latest` the last address list computed for a service and a name. */
  datatype State = State(
    objs: map<nat, Obj>, counter: nat, services: map<string, seq<nat>>, ids: set<nat>,
    clients: set<nat>, scanner: Option<nat>, informs: seq<Inform>, resigns: seq<Resign>,
    latest: map<(nat, string), seq<string>>)

  datatype Event =
    | Index(info: Info)             // register, service lock held
    | List(id: nat)                 // register, client lock held
    | Announce(id: nat)             // register starts informChanges and returns
    | Remove(id: nat)               // resign, service lock held
    | Unlist(r: nat)                // resign, client lock held
    | AnnounceGone(r: nat)          // resign enters informChanges
    | Finish(r: nat)                // resign closes the service
    | Query(id: nat, name: string)  // getServiceAddr
    | StartScan(t: nat)             // informChanges takes the client lock
    | Visit(t: nat, id: nat)        // informChanges looks at one client
    | EndScan(t: nat)               // informChanges releases the client lock
    | Snapshot(t: nat)              // informChanges reads the addresses, service lock held

  const Init := State(map[], 0, map[], {}, {}, None, [], [], map[])

  function ListFor(s: State, name: string): seq<nat> {
    if name in s.services then s.services[name] else []
  }

  function Addrs(objs: map<nat, Obj>, list: seq<nat>): seq<string> {
    if list == [] then []
    else (if list[0] in objs then [objs[list[0]].info.addr] else []) + Addrs(objs, list[1..])
  }

  function CurrentAddrs(s: State, name: string): seq<string> {
    Addrs(s.objs, ListFor(s, name))
  }

  function Without(list: seq<nat>, id: nat): seq<nat> {
    if list == [] then []
    else if list[0] == id then Without(list[1..], id)
    else [list[0]] + Without(list[1..], id)
  }

  function Dropped(services: map<string, seq<nat>>, name: string, id: nat): map<string, seq<nat>> {
    var rest := Without(if name in services then services[name] else [], id);
    if rest == [] then services - {name} else services[name := rest]
  }

  predicate Informer(s: State, t: nat) {
    t < |s.informs|
  }

  predicate Enabled(s: State, e: Event) {
    match e
    case Index(_) => true
    case List(id) => id in s.objs && s.objs[id].reg == Indexed && s.scanner.None?
    case Announce(id) => id in s.objs && s.objs[id].reg == Listed
    case Remove(_) => true
    case Unlist(r) => r < |s.resigns| && s.resigns[r].pc == Removed && s.scanner.None?
    case AnnounceGone(r) => r < |s.resigns| && s.resigns[r].pc == Unlisted && s.resigns[r].id in s.objs
    case Finish(r) => r < |s.resigns| && s.resigns[r].pc.Informing? && s.resigns[r].pc.t < |s.informs|
                      && s.informs[s.resigns[r].pc.t].pc == Done
    case Query(_, _) => true
    case StartScan(t) => Informer(s, t) && s.informs[t].pc == Waiting && s.scanner.None?
    case Visit(t, id) => Informer(s, t) && s.informs[t].pc.Scanning? && id in s.informs[t].pc.todo && id in s.objs
    case EndScan(t) => Informer(s, t) && s.informs[t].pc.Scanning? && s.informs[t].pc.todo == {}
    case Snapshot(t) => Informer(s, t) && s.informs[t].pc.Chosen?
  }

  function Apply(s: State, e: Event): State
    requires Enabled(s, e)
  {
    match e
    case Index(info) =>
      var id := s.counter + 1;
      s.(counter := id, objs := s.objs[id := Obj(info, Indexed, {})], ids := s.ids + {id},
         services := s.services[info.name := ListFor(s, info.name) + [id]])
    case List(id) =>
      s.(objs := s.objs[id := s.objs[id].(reg := Listed)],
         clients := if s.objs[id].info.listens then s.clients + {id} else s.clients)
    case Announce(id) =>
      s.(objs := s.objs[id := s.objs[id].(reg := Returned)],
         informs := s.informs + [Inform(s.objs[id].info.name, Waiting)])
    case Remove(id) =>
      if id !in s.ids || id !in s.objs then s
      else s.(ids := s.ids - {id}, services := Dropped(s.services, s.objs[id].info.name, id),
              resigns := s.resigns + [Resign(id, Removed)])
    case Unlist(r) =>
      var id := s.resigns[r].id;
      s.(clients := if id in s.objs && s.objs[id].info.listens then s.clients - {id} else s.clients,
         resigns := s.resigns[r := Resign(id, Unlisted)])
    case AnnounceGone(r) =>
      var id := s.resigns[r].id;
      s.(informs := s.informs + [Inform(s.objs[id].info.name, Waiting)],
         resigns := s.resigns[r := Resign(id, Informing(|s.informs|))])
    case Finish(r) =>
      s.(resigns := s.resigns[r := Resign(s.resigns[r].id, Closed(s.resigns[r].pc.t))])
    case Query(id, name) =>
      if id !in s.ids || id !in s.objs then s
      else s.(objs := s.objs[id := s.objs[id].(interest := s.objs[id].interest + {name})],
              latest := s.latest[(id, name) := CurrentAddrs(s, name)])
    case StartScan(t) =>
      s.(scanner := Some(t), informs := s.informs[t := s.informs[t].(pc := Scanning(s.clients, {}))])
    case Visit(t, id) =>
      var pc := s.informs[t].pc;
      var chosen := if s.informs[t].name in s.objs[id].interest then pc.chosen + {id} else pc.chosen;
      s.(informs := s.informs[t := s.informs[t].(pc := Scanning(pc.todo - {id}, chosen))])
    case EndScan(t) =>
      var chosen := s.informs[t].pc.chosen;
      s.(scanner := None, informs := s.informs[t := s.informs[t].(pc := if chosen == {} then Done else Chosen(chosen))])
    case Snapshot(t) =>
      var name, chosen := s.informs[t].name, s.informs[t].pc.chosen;
      s.(informs := s.informs[t := s.informs[t].(pc := Done)],
         latest := s.latest + map v | v in chosen :: (v, name) := CurrentAddrs(s, name))
  }

  /** The state after some steps from `s`, or None if one of them is not enabled. */
  function Run(s: State, es: seq<Event>): Option<State> {
    if es == [] then Some(s)
    else match Run(s, es[..|es| - 1])
      case None => None
      case Some(t) => if Enabled(t, es[|es| - 1]) then Some(Apply(t, es[|es| - 1])) else None
  }

  /** The state after a schedule. */
  function After(es: seq<Event>): Option<State> {
    Run(Init, es)
  }

  /** A query is unsafe when its service is registered and will be a client, is not on the client list
      yet, and asks for another name than its own: its own announcement will not cover that name. */
  predicate Safe(s: State, e: Event) {
    e.Query? && e.id in s.ids && e.id in s.objs && s.objs[e.id].reg == Indexed && s.objs[e.id].info.listens ==>
      e.name == s.objs[e.id].info.name
  }

  /** From position `from` on, the schedule takes enabled steps only, and its queries are safe. */
  predicate SafeRun(es: seq<Event>, from: nat) {
    |es| <= from || (SafeRun(es[..|es| - 1], from) &&
      match After(es[..|es| - 1])
      case None => false
      case Some(s) => Enabled(s, es[|es| - 1]) && Safe(s, es[|es| - 1]))
  }

  // ----- the two indexes agree -----

  ghost predicate Increasing(list: seq<nat>) {
    forall i, j :: 0 <= i < j < |list| ==> list[i] < list[j]
  }

  /** The list for `name` is not empty, and holds ids of registered services with that name in order. */
  ghost predicate ListOk(s: State, name: string)
    requires name in s.services
  {
    && s.services[name] != [] && Increasing(s.services[name])
    && forall i :: 0 <= i < |s.services[name]| ==>
         s.services[name][i] in s.ids && s.services[name][i] in s.objs && s.objs[s.services[name][i]].info.name == name
  }

  ghost predicate IdOk(s: State, id: nat) {
    id in s.objs && s.objs[id].info.name in s.services && id in s.services[s.objs[id].info.name]
  }

  ghost predicate IndexesAgree(s: State) {
    && (forall id :: id in s.objs ==> 1 <= id <= s.counter)
    && (forall id :: id in s.ids ==> IdOk(s, id))
    && (forall name :: name in s.services ==> ListOk(s, name))
  }

  lemma IncreasingTail(list: seq<nat>)
    requires Increasing(list) && list != []
    ensures Increasing(list[1..]) && list == [list[0]] + list[1..]
    ensures forall x :: x in list[1..] ==> list[0] < x
  {
  }

  lemma IncreasingCons(x: nat, list: seq<nat>)
    requires Increasing(list) && forall y :: y in list ==> x < y
    ensures Increasing([x] + list)
  {
    assert forall i :: 0 < i < |list| + 1 ==> ([x] + list)[i] == list[i - 1] && list[i - 1] in list;
  }

  lemma {:induction false} WithoutIs(list: seq<nat>, id: nat)
    requires Increasing(list)
    ensures Increasing(Without(list, id))
    ensures forall x :: x in Without(list, id) <==> x in list && x != id
    ensures |Without(list, id)| == if id in list then |list| - 1 else |list|
  {
    if list != [] {
      IncreasingTail(list);
      WithoutIs(list[1..], id);
      hide Increasing;
      assert forall x :: x in list <==> x == list[0] || x in list[1..];
      if list[0] != id {
        IncreasingCons(list[0], Without(list[1..], id));
      }
    }
  }

  lemma IndexKeepsAgreement(s: State, info: Info)
    requires IndexesAgree(s)
    ensures IndexesAgree(Apply(s, Index(info)))
  {
    var s', new_ := Apply(s, Index(info)), s.counter + 1;
    forall id | id in s'.ids ensures IdOk(s', id) {
      if id != new_ {
        assert IdOk(s, id);
      }
    }
    forall name | name in s'.services ensures ListOk(s', name) {
      if name in s.services {
        assert ListOk(s, name);
      }
    }
  }

  lemma RemoveKeepsAgreement(s: State, gone: nat)
    requires IndexesAgree(s)
    ensures IndexesAgree(Apply(s, Remove(gone)))
  {
    if gone in s.ids && gone in s.objs {
      var s', here := Apply(s, Remove(gone)), s.objs[gone].info.name;
      assert IdOk(s, gone) && ListOk(s, here);
      WithoutIs(s.services[here], gone);
      forall id | id in s'.ids ensures IdOk(s', id) {
        assert IdOk(s, id);
      }
      forall name | name in s'.services ensures ListOk(s', name) {
        assert ListOk(s, name);
        if name == here {
          var w := Without(s.services[here], gone);
          assert forall i :: 0 <= i < |w| ==> w[i] in s.services[here] && w[i] != gone;
        }
      }
    }
  }

  /** Steps that leave the indexes and the objects' names alone. */
  lemma OtherKeepsAgreement(s: State, e: Event)
    requires IndexesAgree(s) && Enabled(s, e) && !e.Index? && !e.Remove?
    ensures IndexesAgree(Apply(s, e))
  {
    var s' := Apply(s, e);
    forall id | id in s'.ids ensures IdOk(s', id) {
      assert IdOk(s, id);
    }
    forall name | name in s'.services ensures ListOk(s', name) {
      assert ListOk(s, name);
    }
  }

  lemma {:induction false} RunAgrees(es: seq<Event>, s: State)
    requires After(es) == Some(s)
    ensures IndexesAgree(s)
  {
    if es != [] {
      var before, e := After(es[..|es| - 1]).value, es[|es| - 1];
      RunAgrees(es[..|es| - 1], before);
      match e
      case Index(info) => IndexKeepsAgreement(before, info);
      case Remove(id) => RemoveKeepsAgreement(before, id);
      case _ => OtherKeepsAgreement(before, e);
    }
  }

  /** Each name's list holds exactly the registered services of that name, once each, in id order, and no
      list is empty. */
  lemma IndexAgreement(es: seq<Event>, s: State, name: string)
    requires After(es) == Some(s)
    ensures Increasing(ListFor(s, name)) && (name in s.services <==> ListFor(s, name) != [])
    ensures forall id :: id in ListFor(s, name) <==> id in s.ids && id in s.objs && s.objs[id].info.name == name
  {
    RunAgrees(es, s);
    if name in s.services {
      assert ListOk(s, name);
    }
    forall id | id in s.ids && id in s.objs && s.objs[id].info.name == name ensures id in ListFor(s, name) {
      assert IdOk(s, id);
    }
  }

  /** The capacity `len(ses) - 1` that resign allocates is never negative, and it is exactly filled. */
  lemma ResignCapacity(es: seq<Event>, s: State, id: nat)
    requires After(es) == Some(s) && id in s.ids
    ensures id in s.objs && var ses := ListFor(s, s.objs[id].info.name);
      |ses| - 1 >= 0 && |Without(ses, id)| == |ses| - 1
  {
    RunAgrees(es, s);
    assert IdOk(s, id) && ListOk(s, s.objs[id].info.name);
    WithoutIs(s.services[s.objs[id].info.name], id);
  }

  /** A new id was never used before. */
  lemma IdsNeverRepeat(es: seq<Event>, s: State, info: Info)
    requires After(es) == Some(s)
    ensures var id := s.counter + 1;
      id !in s.objs && id !in s.ids && Apply(s, Index(info)).objs.Keys == s.objs.Keys + {id}
  {
    RunAgrees(es, s);
    var id := s.counter + 1;
    assert IdOk(s, id) ==> id in s.objs;
  }

  // ----- racing resigns -----

  ghost predicate ResignsOnce(s: State) {
    && (forall r :: 0 <= r < |s.resigns| ==> s.resigns[r].id in s.objs && s.resigns[r].id !in s.ids)
    && (forall q, r :: 0 <= q < r < |s.resigns| ==> s.resigns[q].id != s.resigns[r].id)
  }

  lemma StepResignsOnce(s: State, e: Event)
    requires IndexesAgree(s) && ResignsOnce(s) && Enabled(s, e)
    ensures ResignsOnce(Apply(s, e))
  {
    var s' := Apply(s, e);
    hide IdOk, ListOk;
    assert forall r :: 0 <= r < |s.resigns| ==> s'.resigns[r].id == s.resigns[r].id;
    forall r | 0 <= r < |s'.resigns| ensures s'.resigns[r].id in s'.objs && s'.resigns[r].id !in s'.ids {
      if r < |s.resigns| {
        assert s.resigns[r].id in s.objs && s.resigns[r].id !in s.ids;
      }
    }
  }

  lemma {:induction false} RunResignsOnce(es: seq<Event>, s: State)
    requires After(es) == Some(s)
    ensures ResignsOnce(s)
  {
    if es != [] {
      var before := After(es[..|es| - 1]).value;
      RunResignsOnce(es[..|es| - 1], before);
      RunAgrees(es[..|es| - 1], before);
      StepResignsOnce(before, es[|es| - 1]);
    }
  }

  /** The step announces that `id` is gone. */
  predicate AnnouncesGone(s: State, e: Event, id: nat) {
    e.AnnounceGone? && e.r < |s.resigns| && s.resigns[e.r].id == id
  }

  /** How many steps of the schedule announce that `id` is gone. */
  function Announcements(es: seq<Event>, id: nat): nat {
    if es == [] then 0
    else
      var before := After(es[..|es| - 1]);
      Announcements(es[..|es| - 1], id) +
      if before.Some? && AnnouncesGone(before.value, es[|es| - 1], id) then 1 else 0
  }

  ghost predicate Announced(s: State, r: nat, id: nat) {
    r < |s.resigns| && s.resigns[r].id == id && (s.resigns[r].pc.Informing? || s.resigns[r].pc.Closed?)
  }

  lemma StepAnnounces(s: State, e: Event, id: nat)
    requires ResignsOnce(s) && Enabled(s, e)
    ensures (exists r :: Announced(Apply(s, e), r, id)) <==>
      (exists r :: Announced(s, r, id)) || AnnouncesGone(s, e, id)
    ensures AnnouncesGone(s, e, id) ==> !exists r :: Announced(s, r, id)
  {
    var s' := Apply(s, e);
    assert forall r :: Announced(s, r, id) ==> Announced(s', r, id);
    if AnnouncesGone(s, e, id) {
      assert Announced(s', e.r, id);
    } else {
      assert forall r :: Announced(s', r, id) ==> Announced(s, r, id);
    }
  }

  lemma {:induction false} AnnouncedOnce(es: seq<Event>, s: State, id: nat)
    requires After(es) == Some(s)
    ensures Announcements(es, id) == if exists r :: Announced(s, r, id) then 1 else 0
  {
    if es != [] {
      hide ResignsOnce, Announced, AnnouncesGone, Apply, Enabled;
      var before, e := After(es[..|es| - 1]).value, es[|es| - 1];
      AnnouncedOnce(es[..|es| - 1], before, id);
      RunResignsOnce(es[..|es| - 1], before);
      StepAnnounces(before, e, id);
    } else {
      assert forall r :: !Announced(Init, r, id);
    }
  }

  /** However many resigns race for one id, one of them removes it and the others find nothing. It stays
      removed, and over the whole run its going is announced at most once: exactly once by the time the
      winner informs the clients and closes the service. */
  lemma RacingResigns(es: seq<Event>, s: State, r: nat, id: nat)
    requires After(es) == Some(s) && r < |s.resigns| && s.resigns[r].id == id
    ensures id !in s.ids && Apply(s, Remove(id)) == s
    ensures forall q :: 0 <= q < |s.resigns| && s.resigns[q].id == id ==> q == r
    ensures Announcements(es, id) == if s.resigns[r].pc.Informing? || s.resigns[r].pc.Closed? then 1 else 0
  {
    RunResignsOnce(es, s);
    AnnouncedOnce(es, s, id);
    assert Announced(s, r, id) <==> s.resigns[r].pc.Informing? || s.resigns[r].pc.Closed?;
  }

  /** An id that nobody resigned is never announced as gone. */
  lemma OnlyResignedIsAnnounced(es: seq<Event>, s: State, id: nat)
    requires After(es) == Some(s) && forall r :: 0 <= r < |s.resigns| ==> s.resigns[r].id != id
    ensures Announcements(es, id) == 0
  {
    AnnouncedOnce(es, s, id);
  }

  /** The announcement that a resign started is for its own name, and it is over when the service is closed. */
  ghost predicate AnnouncementOk(s: State, r: nat)
    requires r < |s.resigns|
  {
    var id, pc := s.resigns[r].id, s.resigns[r].pc;
    pc.Informing? || pc.Closed? ==>
      && pc.t < |s.informs| && id in s.objs && s.informs[pc.t].name == s.objs[id].info.name
      && (pc.Closed? ==> s.informs[pc.t].pc == Done)
  }

  lemma StepKeepsAnnouncements(s: State, e: Event)
    requires IndexesAgree(s) && Enabled(s, e) && forall r :: 0 <= r < |s.resigns| ==> AnnouncementOk(s, r)
    ensures forall r :: 0 <= r < |Apply(s, e).resigns| ==> AnnouncementOk(Apply(s, e), r)
  {
    var s' := Apply(s, e);
    assert e.Index? ==> s.counter + 1 !in s.objs;
    hide IndexesAgree;
    forall r | 0 <= r < |s'.resigns| ensures AnnouncementOk(s', r) {
      assert r < |s.resigns| ==> AnnouncementOk(s, r);
    }
  }

  /** A resigned service is closed only after the announcement that it is gone has been made in full. */
  lemma {:induction false} ClosedAfterAnnouncing(es: seq<Event>, s: State)
    requires After(es) == Some(s)
    ensures forall r :: 0 <= r < |s.resigns| ==> AnnouncementOk(s, r)
  {
    if es != [] {
      var before := After(es[..|es| - 1]).value;
      ClosedAfterAnnouncing(es[..|es| - 1], before);
      RunAgrees(es[..|es| - 1], before);
      StepKeepsAnnouncements(before, es[|es| - 1]);
    }
  }

  // ----- what the registry holds, from the schedule alone -----

  /** What was registered, in order; the first registration gets id 1. */
  function Infos(es: seq<Event>): seq<Info> {
    if es == [] then []
    else Infos(es[..|es| - 1]) + if es[|es| - 1].Index? then [es[|es| - 1].info] else []
  }

  /** The ids that were given out and not removed since. */
  function LiveIds(es: seq<Event>): set<nat> {
    if es == [] then {}
    else
      var before := LiveIds(es[..|es| - 1]);
      match es[|es| - 1]
      case Index(_) => before + {|Infos(es)|}
      case Remove(id) => before - {id}
      case _ => before
  }

  /** The ids that some resign found and removed, in order. */
  function ResignedIds(es: seq<Event>): seq<nat> {
    if es == [] then []
    else
      var e := es[|es| - 1];
      ResignedIds(es[..|es| - 1]) + if e.Remove? && e.id in LiveIds(es[..|es| - 1]) then [e.id] else []
  }

  /** The listening services that register put on the client list and no resign took off it since. */
  function ListedIds(es: seq<Event>): set<nat> {
    if es == [] then {}
    else
      var before, infos, resigned := ListedIds(es[..|es| - 1]), Infos(es), ResignedIds(es);
      match es[|es| - 1]
      case List(id) => if 1 <= id <= |infos| && infos[id - 1].listens then before + {id} else before
      case Unlist(r) => if r < |resigned| then before - {resigned[r]} else before
      case _ => before
  }

  ghost predicate HoldsObjs(s: State, infos: seq<Info>) {
    && s.counter == |infos|
    && (forall id :: id in s.objs <==> 1 <= id <= |infos|)
    && forall id :: id in s.objs ==> s.objs[id].info == infos[id - 1]
  }

  lemma StepHoldsObjs(s: State, e: Event, infos: seq<Info>)
    requires Enabled(s, e) && HoldsObjs(s, infos)
    ensures HoldsObjs(Apply(s, e), infos + if e.Index? then [e.info] else [])
  {
  }

  lemma StepHoldsIds(s: State, e: Event, infos: seq<Info>)
    requires Enabled(s, e) && HoldsObjs(s, infos) && s.ids <= s.objs.Keys
    ensures Apply(s, e).ids ==
      if e.Index? then s.ids + {|infos| + 1} else if e.Remove? then s.ids - {e.id} else s.ids
    ensures |Apply(s, e).resigns| == |s.resigns| + if e.Remove? && e.id in s.ids then 1 else 0
    ensures e.Remove? && e.id in s.ids ==> Apply(s, e).resigns[|s.resigns|].id == e.id
    ensures forall r :: 0 <= r < |s.resigns| ==> Apply(s, e).resigns[r].id == s.resigns[r].id
  {
  }

  ghost predicate ListensIn(infos: seq<Info>, id: nat) {
    1 <= id <= |infos| && infos[id - 1].listens
  }

  lemma StepHoldsClients(s: State, e: Event, infos: seq<Info>)
    requires Enabled(s, e) && HoldsObjs(s, infos) && forall id :: id in s.clients ==> ListensIn(infos, id)
    ensures Apply(s, e).clients ==
      if e.List? && ListensIn(infos, e.id) then s.clients + {e.id}
      else if e.Unlist? then s.clients - {s.resigns[e.r].id}
      else s.clients
  {
  }

  lemma {:induction false} RunHoldsObjs(es: seq<Event>, s: State)
    requires After(es) == Some(s)
    ensures HoldsObjs(s, Infos(es))
  {
    if es != [] {
      var before := After(es[..|es| - 1]).value;
      RunHoldsObjs(es[..|es| - 1], before);
      StepHoldsObjs(before, es[|es| - 1], Infos(es[..|es| - 1]));
    }
  }

  lemma {:induction false} RunHoldsIds(es: seq<Event>, s: State)
    requires After(es) == Some(s)
    ensures s.ids == LiveIds(es) && |s.resigns| == |ResignedIds(es)|
    ensures forall r :: 0 <= r < |s.resigns| ==> s.resigns[r].id == ResignedIds(es)[r]
  {
    if es != [] {
      var init, e := es[..|es| - 1], es[|es| - 1];
      var before := After(init).value;
      RunHoldsIds(init, before);
      RunHoldsObjs(init, before);
      IdsAreObjs(init, before);
      StepHoldsIds(before, e, Infos(init));
      assert e.Index? ==> |Infos(es)| == |Infos(init)| + 1;
      hide Apply, Enabled, HoldsObjs;
    }
  }

  lemma IdsAreObjs(es: seq<Event>, s: State)
    requires After(es) == Some(s)
    ensures s.ids <= s.objs.Keys
  {
    RunAgrees(es, s);
    assert forall id :: id in s.ids ==> IdOk(s, id);
  }

  lemma {:induction false} RunHoldsClients(es: seq<Event>, s: State)
    requires After(es) == Some(s)
    ensures s.clients == ListedIds(es) && forall id :: id in s.clients ==> ListensIn(Infos(es), id)
  {
    if es != [] {
      var init, e := es[..|es| - 1], es[|es| - 1];
      var before := After(init).value;
      RunHoldsClients(init, before);
      RunHoldsObjs(init, before);
      RunHoldsIds(init, before);
      StepHoldsClients(before, e, Infos(init));
      if e.Unlist? {
        UnlistIsOfAResign(before, e);
      }
      hide Apply, Enabled, HoldsObjs;
      assert forall id :: ListensIn(Infos(init), id) ==> ListensIn(Infos(es), id);
    }
  }

  /** What the registry holds is what the schedule says: ids and their services, who is registered, who has
      resigned, and who is on the client list. */
  lemma HoldsWhatWasDone(es: seq<Event>, s: State)
    requires After(es) == Some(s)
    ensures s.counter == |Infos(es)| && forall id :: id in s.objs <==> 1 <= id <= |Infos(es)|
    ensures forall id :: id in s.objs ==> s.objs[id].info == Infos(es)[id - 1]
    ensures s.ids == LiveIds(es) && s.clients == ListedIds(es)
    ensures |s.resigns| == |ResignedIds(es)|
    ensures forall r :: 0 <= r < |s.resigns| ==> s.resigns[r].id == ResignedIds(es)[r]
  {
    RunHoldsObjs(es, s);
    RunHoldsIds(es, s);
    RunHoldsClients(es, s);
  }

  lemma UnlistIsOfAResign(s: State, e: Event)
    requires Enabled(s, e) && e.Unlist?
    ensures e.r < |s.resigns|
  {
  }

  /** When a resign has passed the client list, its service is not on it. */
  lemma UnlistTakesOff(es: seq<Event>, s: State, r: nat)
    requires After(es) == Some(s) && Enabled(s, Unlist(r))
    ensures s.resigns[r].id !in Apply(s, Unlist(r)).clients
    ensures forall v :: v in s.clients && v != s.resigns[r].id ==> v in Apply(s, Unlist(r)).clients
  {
    RunHoldsObjs(es, s);
    RunHoldsClients(es, s);
  }

  /** Service `id` asked for `name` while it was registered. */
  predicate AskedFor(es: seq<Event>, id: nat, name: string) {
    es != [] &&
    (AskedFor(es[..|es| - 1], id, name) || (es[|es| - 1] == Query(id, name) && id in LiveIds(es[..|es| - 1])))
  }

  ghost predicate InterestedIn(s: State, id: nat, name: string) {
    id in s.objs && name in s.objs[id].interest
  }

  lemma StepInterest(s: State, e: Event, id: nat, name: string)
    requires IndexesAgree(s) && Enabled(s, e)
    ensures InterestedIn(Apply(s, e), id, name) <==>
      InterestedIn(s, id, name) || (e == Query(id, name) && id in s.ids)
  {
    assert e.Query? && e.id in s.ids ==> IdOk(s, e.id);
    assert e.Index? ==> s.counter + 1 !in s.objs;
    hide IndexesAgree;
  }

  /** A service is interested in exactly the names it asked for, and stays so. */
  lemma {:induction false} InterestIsWhatWasAsked(es: seq<Event>, s: State, id: nat, name: string)
    requires After(es) == Some(s)
    ensures InterestedIn(s, id, name) <==> AskedFor(es, id, name)
  {
    if es != [] {
      var before := After(es[..|es| - 1]).value;
      InterestIsWhatWasAsked(es[..|es| - 1], before, id, name);
      RunAgrees(es[..|es| - 1], before);
      RunHoldsIds(es[..|es| - 1], before);
      StepInterest(before, es[|es| - 1], id, name);
      hide Apply, Enabled, InterestedIn, IndexesAgree;
    }
  }

  function ChosenBy(pc: InformPc): set<nat> {
    if pc.Scanning? || pc.Chosen? then pc.chosen else {}
  }

  /** Whoever is chosen or informed is interested. */
  ghost predicate InformedOk(s: State) {
    && (forall t, v :: 0 <= t < |s.informs| && v in ChosenBy(s.informs[t].pc) ==> InterestedIn(s, v, s.informs[t].name))
    && (forall v, name :: (v, name) in s.latest ==> InterestedIn(s, v, name))
  }

  lemma StepInformsInterested(s: State, e: Event)
    requires IndexesAgree(s) && Enabled(s, e) && InformedOk(s)
    ensures InformedOk(Apply(s, e))
  {
    var s' := Apply(s, e);
    forall v, name | InterestedIn(s, v, name) ensures InterestedIn(s', v, name) {
      StepInterest(s, e, v, name);
    }
    assert e.Query? && e.id in s.ids ==> IdOk(s, e.id);
    hide IndexesAgree;
  }

  /** Nobody is chosen for, or sent, the addresses of a name it never asked for. */
  lemma {:induction false} OnlyInterestedAreInformed(es: seq<Event>, s: State)
    requires After(es) == Some(s)
    ensures InformedOk(s)
    ensures forall v, name :: (v, name) in s.latest ==> AskedFor(es, v, name)
  {
    if es != [] {
      var before := After(es[..|es| - 1]).value;
      OnlyInterestedAreInformed(es[..|es| - 1], before);
      RunAgrees(es[..|es| - 1], before);
      StepInformsInterested(before, es[|es| - 1]);
    }
    forall v, name | (v, name) in s.latest ensures AskedFor(es, v, name) {
      InterestIsWhatWasAsked(es, s, v, name);
    }
  }

  lemma {:induction false} AddrsAre(objs: map<nat, Obj>, list: seq<nat>)
    requires forall i :: 0 <= i < |list| ==> list[i] in objs
    ensures |Addrs(objs, list)| == |list|
    ensures forall i :: 0 <= i < |list| ==> Addrs(objs, list)[i] == objs[list[i]].info.addr
  {
    if list != [] {
      AddrsAre(objs, list[1..]);
    }
  }

  /** The addresses of a name are those of its registered services, one each, in id order. */
  lemma AddressesAreOfTheServices(es: seq<Event>, s: State, name: string)
    requires After(es) == Some(s)
    ensures var list, addrs := ListFor(s, name), CurrentAddrs(s, name);
      && |addrs| == |list|
      && forall i :: 0 <= i < |list| ==> list[i] in s.objs && addrs[i] == s.objs[list[i]].info.addr
  {
    IndexAgreement(es, s, name);
    forall i | 0 <= i < |ListFor(s, name)| ensures ListFor(s, name)[i] in s.objs {
      assert ListFor(s, name)[i] in ListFor(s, name);
    }
    AddrsAre(s.objs, ListFor(s, name));
  }

  // ----- no lost notification -----

  ghost predicate Covers(pc: InformPc, v: nat) {
    match pc
    case Waiting => true
    case Scanning(todo, chosen) => v in todo || v in chosen
    case Chosen(chosen) => v in chosen
    case Done => false
  }

  /** An informChanges for `name` that has yet to look at client `v`, or has chosen it. */
  ghost predicate InformOwes(s: State, t: nat, v: nat, name: string) {
    t < |s.informs| && s.informs[t].name == name && Covers(s.informs[t].pc, v)
  }

  /** A register that has changed the list for `name` and has yet to start its informChanges. */
  ghost predicate RegisterOwes(s: State, o: nat, name: string) {
    o in s.objs && s.objs[o].reg != Returned && s.objs[o].info.name == name
  }

  ghost predicate ResignOwes(s: State, r: nat, name: string) {
    && r < |s.resigns| && (s.resigns[r].pc == Removed || s.resigns[r].pc == Unlisted)
    && s.resigns[r].id in s.objs && s.objs[s.resigns[r].id].info.name == name
  }

  ghost predicate Owed(s: State, v: nat, name: string) {
    || (exists t :: InformOwes(s, t, v, name))
    || (exists o :: RegisterOwes(s, o, name))
    || (exists r :: ResignOwes(s, r, name))
  }

  ghost predicate Current(s: State, v: nat, name: string) {
    (v, name) in s.latest && s.latest[(v, name)] == CurrentAddrs(s, name)
  }

  ghost predicate Interested(s: State, v: nat, name: string) {
    v in s.clients && v in s.objs && name in s.objs[v].interest
  }

  ghost predicate NothingLost(s: State) {
    forall v, name :: Interested(s, v, name) ==> Current(s, v, name) || Owed(s, v, name)
  }

  /** An informChanges has not come across service `v`. */
  ghost predicate NotMet(pc: InformPc, v: nat) {
    match pc
    case Scanning(todo, chosen) => v !in todo && v !in chosen
    case Chosen(chosen) => v !in chosen
    case _ => true
  }

  ghost predicate InformOk(s: State, t: nat)
    requires t < |s.informs|
  {
    && (s.informs[t].pc.Scanning? ==> s.scanner == Some(t) && s.informs[t].pc.todo <= s.clients)
    && forall v: nat :: v !in s.objs || s.objs[v].reg == Indexed ==> NotMet(s.informs[t].pc, v)
  }

  /** What the argument needs besides: the scanner is who it says, scans cover the clients that were there
      when they began, and a service that is not on the client list yet has not been come across. */
  ghost predicate ThreadsOk(s: State) {
    && (forall t :: 0 <= t < |s.informs| ==> InformOk(s, t))
    && (s.scanner.Some? ==> s.scanner.value < |s.informs| && s.informs[s.scanner.value].pc.Scanning?)
    && (forall v :: v in s.clients ==> v in s.objs && s.objs[v].reg != Indexed)
  }

  lemma StepKeepsThreads(s: State, e: Event)
    requires IndexesAgree(s) && ThreadsOk(s) && Enabled(s, e)
    ensures ThreadsOk(Apply(s, e))
  {
    hide IdOk, ListOk;
    var s' := Apply(s, e);
    forall t | 0 <= t < |s'.informs| ensures InformOk(s', t) {
      if t < |s.informs| {
        assert InformOk(s, t);
        assert e.EndScan? ==> InformOk(s, e.t);
      }
    }
  }

  lemma {:induction false} RunThreads(es: seq<Event>, s: State)
    requires After(es) == Some(s)
    ensures IndexesAgree(s) && ResignsOnce(s) && ThreadsOk(s)
  {
    RunAgrees(es, s);
    RunResignsOnce(es, s);
    if es != [] {
      var before := After(es[..|es| - 1]).value;
      RunThreads(es[..|es| - 1], before);
      StepKeepsThreads(before, es[|es| - 1]);
    }
  }

  /** With safe queries, a service that will be a client and is not listed yet can only have asked for its
      own name. */
  ghost predicate InterestOk(s: State) {
    forall v :: v in s.objs && s.objs[v].reg == Indexed && s.objs[v].info.listens ==>
      s.objs[v].interest <= {s.objs[v].info.name}
  }

  lemma StepKeepsInterest(s: State, e: Event)
    requires IndexesAgree(s) && InterestOk(s) && Enabled(s, e) && Safe(s, e)
    ensures InterestOk(Apply(s, e))
  {
    hide IdOk, ListOk;
  }

  lemma {:induction false} AddrsFrame(objs: map<nat, Obj>, objs': map<nat, Obj>, list: seq<nat>)
    requires forall id :: id in list ==> id in objs && id in objs' && objs[id].info == objs'[id].info
    ensures Addrs(objs, list) == Addrs(objs', list)
  {
    if list != [] {
      AddrsFrame(objs, objs', list[1..]);
    }
  }

  lemma AddrsStep(objs: map<nat, Obj>, list: seq<nat>)
    ensures Addrs(objs, list) ==
      if list == [] then []
      else (if list[0] in objs then [objs[list[0]].info.addr] else []) + Addrs(objs, list[1..])
  {
  }

  lemma {:induction false} AddrsAppend(objs: map<nat, Obj>, list: seq<nat>, k: nat)
    requires k in objs
    ensures Addrs(objs, list + [k]) == Addrs(objs, list) + [objs[k].info.addr]
  {
    hide Addrs;
    AddrsStep(objs, list);
    AddrsStep(objs, list + [k]);
    if list == [] {
      assert list + [k] == [k] && [k][1..] == [];
      AddrsStep(objs, []);
    } else {
      assert (list + [k])[1..] == list[1..] + [k];
      AddrsAppend(objs, list[1..], k);
    }
  }

  /** A step that leaves the list for `name` alone leaves its addresses alone. */
  lemma SameAddrs(s: State, e: Event, name: string)
    requires IndexesAgree(s) && Enabled(s, e) && ListFor(Apply(s, e), name) == ListFor(s, name)
    ensures CurrentAddrs(Apply(s, e), name) == CurrentAddrs(s, name)
  {
    var list := ListFor(s, name);
    if name in s.services {
      assert ListOk(s, name);
    }
    forall id | id in list
      ensures id in s.objs && id in Apply(s, e).objs && s.objs[id].info == Apply(s, e).objs[id].info
    {
      assert 1 <= id <= s.counter;
    }
    AddrsFrame(s.objs, Apply(s, e).objs, list);
  }

  /** The step that changes the list for `name` owes an announcement for `name`. */
  lemma ChangeIsOwed(s: State, e: Event, v: nat, name: string)
    requires IndexesAgree(s) && Enabled(s, e) && ListFor(Apply(s, e), name) != ListFor(s, name)
    ensures Owed(Apply(s, e), v, name)
  {
    var s' := Apply(s, e);
    if e.Index? {
      assert RegisterOwes(s', s.counter + 1, name);
    } else {
      assert e.Remove?;
      assert ResignOwes(s', |s.resigns|, name);
    }
  }

  /** What was owed to a client stays owed, except that a snapshot settles it. */
  lemma OwedStays(s: State, e: Event, v: nat, name: string)
    requires IndexesAgree(s) && ResignsOnce(s) && ThreadsOk(s) && Enabled(s, e)
    requires Owed(s, v, name) && Interested(s, v, name)
    ensures Owed(Apply(s, e), v, name) || Current(Apply(s, e), v, name)
  {
    var s' := Apply(s, e);
    if t :| InformOwes(s, t, v, name) {
      InformStays(s, e, t, v, name);
    } else if o :| RegisterOwes(s, o, name) {
      if e == Announce(o) {
        assert InformOwes(s', |s.informs|, v, name);
      } else {
        assert RegisterOwes(s', o, name);
      }
    } else {
      var r :| ResignOwes(s, r, name);
      if e == AnnounceGone(r) {
        assert InformOwes(s', |s.informs|, v, name);
      } else {
        assert ResignOwes(s', r, name);
      }
    }
  }

  lemma InformStays(s: State, e: Event, t: nat, v: nat, name: string)
    requires IndexesAgree(s) && ThreadsOk(s) && Enabled(s, e)
    requires InformOwes(s, t, v, name) && Interested(s, v, name)
    ensures Owed(Apply(s, e), v, name) || Current(Apply(s, e), v, name)
  {
    var s' := Apply(s, e);
    if e == Snapshot(t) {
      SameAddrs(s, e, name);
      assert Current(s', v, name);
    } else {
      assert InformOwes(s', t, v, name);
    }
  }

  lemma StepLosesNothing(s: State, e: Event)
    requires IndexesAgree(s) && ResignsOnce(s) && ThreadsOk(s) && InterestOk(s) && NothingLost(s)
    requires Enabled(s, e) && Safe(s, e)
    ensures NothingLost(Apply(s, e))
  {
    var s' := Apply(s, e);
    forall v, name | Interested(s', v, name) ensures Current(s', v, name) || Owed(s', v, name) {
      if ListFor(s', name) != ListFor(s, name) {
        ChangeIsOwed(s, e, v, name);
      } else {
        SameAddrs(s, e, name);
        StaysInformed(s, e, v, name);
      }
    }
  }

  /** A step that leaves the list for `name` alone. */
  lemma StaysInformed(s: State, e: Event, v: nat, name: string)
    requires IndexesAgree(s) && ResignsOnce(s) && ThreadsOk(s) && InterestOk(s) && NothingLost(s)
    requires Enabled(s, e) && Safe(s, e) && Interested(Apply(s, e), v, name)
    requires CurrentAddrs(Apply(s, e), name) == CurrentAddrs(s, name)
    ensures Current(Apply(s, e), v, name) || Owed(Apply(s, e), v, name)
  {
    NewInterest(s, e, v, name);
    hide IndexesAgree, ResignsOnce, ThreadsOk, InterestOk, Safe, Apply, Enabled;
    if e == List(v) && RegisterOwes(Apply(s, e), v, name) {
    } else if e == Query(v, name) && Current(Apply(s, e), v, name) {
    } else if Owed(s, v, name) {
      OwedStays(s, e, v, name);
    } else {
      CurrentStays(s, e, v, name);
    }
  }

  /** Only a query adds interest, and whoever becomes a client asked at most for the name that its own
      announcement covers. */
  lemma NewInterest(s: State, e: Event, v: nat, name: string)
    requires IndexesAgree(s) && ThreadsOk(s) && InterestOk(s) && Enabled(s, e) && Interested(Apply(s, e), v, name)
    requires CurrentAddrs(Apply(s, e), name) == CurrentAddrs(s, name)
    ensures Interested(s, v, name)
      || (e == List(v) && RegisterOwes(Apply(s, e), v, name))
      || (e == Query(v, name) && Current(Apply(s, e), v, name))
  {
  }

  lemma CurrentStays(s: State, e: Event, v: nat, name: string)
    requires Enabled(s, e) && Current(s, v, name)
    requires CurrentAddrs(Apply(s, e), name) == CurrentAddrs(s, name)
    ensures Current(Apply(s, e), v, name)
  {
  }

  lemma {:induction false} RunLosesNothing(es: seq<Event>, s: State)
    requires After(es) == Some(s) && SafeRun(es, 0)
    ensures InterestOk(s) && NothingLost(s)
  {
    if es != [] {
      var before, e := After(es[..|es| - 1]).value, es[|es| - 1];
      RunLosesNothing(es[..|es| - 1], before);
      RunThreads(es[..|es| - 1], before);
      StepKeepsInterest(before, e);
      StepLosesNothing(before, e);
    }
  }

  /** In every state a run with safe queries reaches, and for each listening client interested in a name,
      either the last address list computed for it is the current one, or an unfinished announcement for
      that name has yet to look at this client, or has chosen it and has yet to read the addresses. */
  lemma NoLostNotification(es: seq<Event>, s: State, v: nat, name: string)
    requires After(es) == Some(s) && SafeRun(es, 0) && Interested(s, v, name)
    ensures Current(s, v, name) || Owed(s, v, name)
  {
    RunLosesNothing(es, s);
  }

  /** Once every announcement is done, each listening client's last list for each name it asked about
      is current. */
  lemma QuietIsCurrent(es: seq<Event>, s: State, v: nat, name: string)
    requires After(es) == Some(s) && SafeRun(es, 0) && Interested(s, v, name)
    requires forall t :: 0 <= t < |s.informs| ==> s.informs[t].pc == Done
    requires forall o :: o in s.objs ==> s.objs[o].reg == Returned
    requires forall r :: 0 <= r < |s.resigns| ==> s.resigns[r].pc.Informing? || s.resigns[r].pc.Closed?
    ensures Current(s, v, name)
  {
    RunLosesNothing(es, s);
  }
}
