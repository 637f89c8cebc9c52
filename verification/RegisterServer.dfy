/** The critical sections of registryServer.go on the heap, each proved to be one step of `Registry`. */
module RegisterServer {
  import opened Options
  import opened Registry
  import Alive

  /** A channel of capacity 1. Its preconditions are where Go would panic. */
  class Channel {
    var buffered: nat
    var closed: bool

    constructor ()
      ensures buffered == 0 && !closed
    {
      buffered, closed := 0, false;
    }

    /** A send in a select with a default case: it takes place if there is room. */
    method TrySend() returns (sent: bool)
      requires !closed
      modifies this`buffered
      ensures sent == (old(buffered) < 1) && buffered == old(buffered) + if sent then 1 else 0
    {
      sent := buffered < 1;
      if sent {
        buffered := buffered + 1;
      }
    }

    method Close()
      requires !closed
      modifies this`closed
      ensures closed
    {
      closed := true;
    }
  }

  class Service {
    const name: string
    const addr: string
    const lAddr: string
    const aliveCh: Channel?
    var id: nat
    var interest: set<string>
    var closed: bool

    constructor (name: string, addr: string, lAddr: string)
      ensures this.name == name && this.addr == addr && this.lAddr == lAddr && id == 0 && interest == {}
      ensures fresh(aliveCh) && AliveOk() && View(Alive.Watching) == Alive.Init
    {
      this.name, this.addr, this.lAddr := name, addr, lAddr;
      id, interest, closed := 0, {}, false;
      aliveCh := new Channel();
    }

    /** The object is what the model records for this id. */
    ghost predicate Is(k: nat, o: Obj)
      reads this`id, this`interest
    {
      id == k && interest == o.interest && o.info == Info(name, addr, |lAddr| != 0)
    }

    /** The channel is closed exactly when the service is. */
    ghost predicate AliveOk()
      reads this`closed, aliveCh
    {
      aliveCh != null && aliveCh.closed == closed && aliveCh.buffered <= 1
    }

    /** The state of the channel model that the fields stand for, with a given state of the watcher. */
    ghost function View(watcher: Alive.Watcher): (s: Alive.State)
      requires AliveOk()
      reads this`closed, aliveCh
      ensures Alive.Inv(s)
    {
      Alive.State(closed, Alive.Chan(aliveCh.buffered, if aliveCh.closed then 1 else 0), watcher, false)
    }

    /** Close never closes the channel twice. */
    method Close()
      requires AliveOk()
      modifies this`closed, aliveCh
      ensures AliveOk() && closed && aliveCh.closed && aliveCh.buffered == old(aliveCh.buffered)
      ensures forall watcher :: View(watcher) == Alive.Close(old(View(watcher)))
    {
      if closed {
        return;
      }
      closed := true;
      if aliveCh != null {
        aliveCh.Close();
      }
    }

    /** The section of HandleHeartBeat that holds the service's lock; `ok` is the status it answers. It never
        sends on a closed channel, and an accepted heartbeat leaves a signal for the watcher. */
    method Beat() returns (ok: bool)
      requires AliveOk()
      modifies aliveCh
      ensures AliveOk() && ok == !closed && closed == old(closed)
      ensures aliveCh.buffered == if ok then 1 else old(aliveCh.buffered)
      ensures forall watcher :: View(watcher) == Alive.Beat(old(View(watcher)))
    {
      if closed {
        return false;
      }
      var sent := aliveCh.TrySend();
      ok := true;
    }
  }

  /** The map sends exactly these ids to their objects. */
  ghost predicate IdsAre(objs: map<nat, Service>, m: map<nat, Service>, ids: set<nat>) {
    (forall k :: k in m <==> k in ids) && forall k :: k in m ==> k in objs && m[k] == objs[k]
  }

  ghost predicate ListIs(objs: map<nat, Service>, list: seq<Service>, ids: seq<nat>) {
    |list| == |ids| && forall i :: 0 <= i < |list| ==> ids[i] in objs && list[i] == objs[ids[i]]
  }

  ghost predicate ListsAre(objs: map<nat, Service>, lists: map<string, seq<Service>>, ids: map<string, seq<nat>>) {
    && (forall name :: name in lists <==> name in ids)
    && forall name :: name in lists ==> ListIs(objs, lists[name], ids[name])
  }

  /** Every service has its own channel, and it is open as long as the service is. */
  ghost predicate ChannelsAre(objs: map<nat, Service>)
    reads objs.Values, set k | k in objs :: objs[k].aliveCh
  {
    && (forall k :: k in objs ==> objs[k].AliveOk())
    && forall j, k :: j in objs && k in objs && j != k ==> objs[j].aliveCh != objs[k].aliveCh
  }

  lemma OneChannelMore(objs: map<nat, Service>, k: nat, se: Service)
    requires ChannelsAre(objs) && se.AliveOk() && forall j :: j in objs ==> objs[j].aliveCh != se.aliveCh
    ensures ChannelsAre(objs[k := se])
  {
  }

  lemma NewId(g: State, info: Info)
    requires IndexesAgree(g)
    ensures var k := g.counter + 1;
      k !in g.objs && Apply(g, Event.Index(info)) == g.(counter := k, objs := g.objs[k := Obj(info, Indexed, {})],
        ids := g.ids + {k}, services := g.services[info.name := ListFor(g, info.name) + [k]])
  {
  }

  lemma IdsWithNew(objs: map<nat, Service>, m: map<nat, Service>, ids: set<nat>, k: nat, se: Service)
    requires IdsAre(objs, m, ids) && k !in objs
    ensures IdsAre(objs[k := se], m, ids) && IdsAre(objs[k := se], m[k := se], ids + {k})
  {
  }

  lemma ListsWithNew(objs: map<nat, Service>, lists: map<string, seq<Service>>, g: State, name: string,
                     k: nat, se: Service)
    requires ListsAre(objs, lists, g.services) && k !in objs
    ensures var list := (if name in lists then lists[name] else []) + [se];
      ListsAre(objs[k := se], lists[name := list], g.services[name := ListFor(g, name) + [k]])
  {
    var list := (if name in lists then lists[name] else []) + [se];
    var lists', ids' := lists[name := list], g.services[name := ListFor(g, name) + [k]];
    forall other | other in lists' ensures ListIs(objs[k := se], lists'[other], ids'[other]) {
      if other in lists {
        assert ListIs(objs, lists[other], g.services[other]);
      }
    }
  }

  /** `objs` holds the object of every id ever given out. */
  class Server {
    var services: map<string, seq<Service>>
    var idToService: map<nat, Service>
    var id: nat
    var clients: map<nat, Service>
    ghost var objs: map<nat, Service>

    ghost predicate ObjsAre(model: map<nat, Obj>)
      reads this`objs, objs.Values
    {
      (forall k :: k in objs <==> k in model) && forall k :: k in objs ==> objs[k].Is(k, model[k])
    }

    /** The heap shows the model state `g`. */
    ghost predicate Shows(g: State)
      reads this, objs.Values
    {
      && ObjsAre(g.objs) && id == g.counter && IdsAre(objs, idToService, g.ids)
      && ListsAre(objs, services, g.services) && IdsAre(objs, clients, g.clients)
    }

    ghost predicate ChannelsOk()
      reads this`objs, objs.Values, set k | k in objs :: objs[k].aliveCh
    {
      ChannelsAre(objs)
    }

    constructor ()
      ensures Shows(Init) && ChannelsOk() && objs == map[]
    {
      services, idToService, id, clients, objs := map[], map[], 0, map[], map[];
    }

    /** A new service object with the next id. */
    method Make(name: string, addr: string, lAddr: string, ghost model: map<nat, Obj>) returns (se: Service)
      requires ObjsAre(model) && id + 1 !in model
      modifies this`id, this`objs
      ensures se.AliveOk() && fresh(se.aliveCh)
      ensures id == old(id) + 1 && id !in old(objs) && fresh(se) && se.id == id && objs == old(objs)[id := se]
      ensures ObjsAre(model[id := Obj(Info(name, addr, |lAddr| != 0), Indexed, {})])
    {
      se := new Service(name, addr, lAddr);
      id := id + 1;
      se.id := id;
      objs := objs[id := se];
    }

    /** register, service lock held. */
    method Index(name: string, addr: string, lAddr: string, ghost g: State) returns (se: Service)
      requires Shows(g) && ChannelsOk() && IndexesAgree(g)
      modifies this`services, this`idToService, this`id, this`objs
      ensures ChannelsOk()
      ensures Shows(Apply(g, Event.Index(Info(name, addr, |lAddr| != 0))))
      ensures fresh(se) && se.id == g.counter + 1 && objs == old(objs)[g.counter + 1 := se]
    {
      hide Apply, IdsAre, ListsAre, ListIs, IndexesAgree, ListFor, ObjsAre, ChannelsAre;
      NewId(g, Info(name, addr, |lAddr| != 0));
      se := Make(name, addr, lAddr, g.objs);
      OneChannelMore(old(objs), id, se);
      IdsWithNew(old(objs), idToService, g.ids, id, se);
      IdsWithNew(old(objs), clients, g.clients, id, se);
      ListsWithNew(old(objs), services, g, name, id, se);
      services := services[name := (if name in services then services[name] else []) + [se]];
      idToService := idToService[id := se];
    }

    /** register, client lock held. */
    method List(se: Service, ghost g: State)
      requires Shows(g) && se.id in objs && objs[se.id] == se && Enabled(g, Event.List(se.id))
      modifies this`clients
      ensures Shows(Apply(g, Event.List(se.id)))
    {
      if |se.lAddr| != 0 {
        clients := clients[se.id := se];
      }
    }

    /** resign, client lock held. */
    method Unlist(s: Service, ghost g: State, ghost r: nat)
      requires Shows(g) && Enabled(g, Event.Unlist(r)) && g.resigns[r].id in objs && objs[g.resigns[r].id] == s
      modifies this`clients
      ensures Shows(Apply(g, Event.Unlist(r)))
    {
      if |s.lAddr| != 0 {
        clients := clients - {s.id};
      }
    }

    lemma AboutId(g: State, k: nat)
      requires Shows(g)
      ensures k in idToService <==> k in g.ids
      ensures k in idToService ==>
        k in objs && idToService[k] == objs[k] && k in g.objs && idToService[k].Is(k, g.objs[k])
    {
    }

    lemma AboutList(g: State, name: string)
      requires Shows(g) && IndexesAgree(g)
      ensures ListIs(objs, if name in services then services[name] else [], ListFor(g, name))
      ensures var ses, ids := if name in services then services[name] else [], ListFor(g, name);
        forall i :: 0 <= i < |ses| ==> ids[i] in g.objs && ses[i].Is(ids[i], g.objs[ids[i]])
    {
      hide IndexesAgree;
      if name in services {
        assert ListIs(objs, services[name], g.services[name]);
      }
    }

    /** The loops of getServiceAddr and informChanges that collect the addresses for a name. */
    method Addresses(name: string, ghost g: State) returns (addrs: seq<string>)
      requires Shows(g) && IndexesAgree(g)
      ensures addrs == CurrentAddrs(g, name)
    {
      hide Shows, IndexesAgree, ListIs, Addrs;
      var ses := if name in services then services[name] else [];
      ghost var ids := ListFor(g, name);
      AboutList(g, name);
      SameLength(objs, ses, ids);
      addrs := [];
      NoAddrs(g.objs);
      for i := 0 to |ses|
        invariant |ses| == |ids| && addrs == Addrs(g.objs, ids[..i])
      {
        OneAddrMore(g.objs, ids, i);
        addrs := addrs + [ses[i].addr];
      }
      assert ids[..|ses|] == ids;
    }

    /** getServiceAddr; None is the nil of an unknown id. */
    method GetServiceAddr(k: nat, name: string, ghost g: State) returns (addrs: Option<seq<string>>)
      requires Shows(g) && IndexesAgree(g)
      modifies objs.Values`interest
      ensures Shows(Apply(g, Event.Query(k, name)))
      ensures addrs == if k in g.ids then Some(CurrentAddrs(g, name)) else None
    {
      hide Apply, Enabled, IndexesAgree, ListsAre, ListFor, CurrentAddrs;
      AboutId(g, k);
      QueryIs(g, k, name);
      if k !in idToService {
        return None;
      }
      var s := idToService[k];
      s.interest := s.interest + {name};
      assert forall j :: j in objs && j != k ==> objs[j] != s && objs[j].Is(j, g.objs[j]);
      var found := Addresses(name, Apply(g, Event.Query(k, name)));
      addrs := Some(found);
    }

    /** The loop of resign that copies the list without the service. */
    method Others(ses: seq<Service>, k: nat, ghost g: State, ghost ids: seq<nat>) returns (rest: seq<Service>)
      requires ObjsAre(g.objs) && ListIs(objs, ses, ids) && forall i :: 0 <= i < |ids| ==> ids[i] in g.objs
      ensures ListIs(objs, rest, Without(ids, k))
    {
      rest := [];
      for i := 0 to |ses|
        invariant ListIs(objs, rest, Without(ids[..i], k))
      {
        assert ses[i] == objs[ids[i]] && ses[i].Is(ids[i], g.objs[ids[i]]);
        OneMoreKept(ids, i, k);
        if ses[i].id == k {
          continue;
        }
        rest := rest + [ses[i]];
      }
      assert ids[..|ses|] == ids;
    }

    /** resign, service lock held. The result is the service, or null for an id that is gone. The source
        allocates one place less than the list has. */
    method Remove(k: nat, ghost g: State) returns (s: Service?)
      requires Shows(g) && IndexesAgree(g)
      modifies this`services, this`idToService
      ensures Shows(Apply(g, Event.Remove(k)))
      ensures s == if k in g.ids && k in objs then objs[k] else null
    {
      hide Apply, IndexesAgree, ListsAre, ListIs, ListFor, Increasing, ObjsAre, Dropped;
      AboutId(g, k);
      RemoveIs(g, k);
      if k !in idToService {
        return null;
      }
      s := idToService[k];
      var name := s.name;
      AboutList(g, name);
      var ses := if name in services then services[name] else [];
      idToService := idToService - {s.id};
      SameLength(objs, ses, ListFor(g, name));
      assert |ses| - 1 >= 0;
      var rest := Others(ses, k, g, ListFor(g, name));
      ListsDropped(objs, services, g.services, name, k, rest);
      if |rest| == 0 {
        services := services - {name};
      } else {
        services := services[name := rest];
      }
    }

    /** HandleHeartBeat for an id: it reaches the channel of that service and of no other. */
    method HeartBeat(k: nat, ghost g: State) returns (ok: bool)
      requires Shows(g) && ChannelsOk()
      modifies if k in idToService then {idToService[k].aliveCh} else {}
      ensures Shows(g) && ChannelsOk()
      ensures ok <==> k in g.ids && k in objs && !objs[k].closed
      ensures forall j, watcher :: j in objs ==>
        objs[j].View(watcher) ==
          if j == k && k in g.ids then Alive.Beat(old(objs[j].View(watcher))) else old(objs[j].View(watcher))
    {
      AboutId(g, k);
      if k !in idToService {
        return false;
      }
      ok := idToService[k].Beat();
    }

    /** The body of the first loop of informChanges, in whatever state the interest of `v` is read. */
    method Visit(v: nat, name: string, chosen: set<nat>, ghost g: State, ghost t: nat) returns (chosen': set<nat>)
      requires Shows(g) && Enabled(g, Event.Visit(t, v)) && v in clients
      requires g.informs[t].name == name && g.informs[t].pc.chosen == chosen
      ensures chosen' == Apply(g, Event.Visit(t, v)).informs[t].pc.chosen && Shows(Apply(g, Event.Visit(t, v)))
    {
      AboutClient(g, v);
      VisitIs(g, t, v);
      hide Apply;
      chosen' := if name in clients[v].interest then chosen + {v} else chosen;
    }

    lemma AboutClient(g: State, v: nat)
      requires Shows(g) && v in clients
      ensures v in g.objs && clients[v].Is(v, g.objs[v])
    {
    }

    /** The first loop of informChanges, client lock held and no query in between: a run of Visit steps that
        chooses exactly the clients interested in the name. */
    method ScanClients(name: string, ghost g: State, ghost t: nat)
      returns (chosen: set<nat>, ghost es: seq<Event>, ghost after: State)
      requires Shows(g) && t < |g.informs| && g.informs[t] == Inform(name, Scanning(g.clients, {}))
      ensures Run(g, es) == Some(after) && forall i :: 0 <= i < |es| ==> es[i].Visit?
      ensures Shows(after) && after == g.(informs := g.informs[t := Inform(name, Scanning({}, chosen))])
      ensures chosen == set v | v in g.clients && v in g.objs && name in g.objs[v].interest
    {
      hide Shows, Apply, Enabled;
      chosen, es, after := {}, [], g;
      AboutClients(g);
      assert g.informs == g.informs[t := Inform(name, Scanning(g.clients, {}))];
      var todo := clients.Keys;
      while todo != {}
        invariant Shows(after) && Run(g, es) == Some(after) && forall i :: 0 <= i < |es| ==> es[i].Visit?
        invariant after == g.(informs := g.informs[t := Inform(name, Scanning(todo, chosen))])
        invariant todo <= clients.Keys
        invariant forall v :: v in chosen <==> v in clients && v !in todo && name in g.objs[v].interest
      {
        var v :| v in todo;
        VisitEnabled(after, t, v);
        VisitIs(after, t, v);
        chosen := Visit(v, name, chosen, after, t);
        OneMoreStep(g, es, after, Event.Visit(t, v));
        es, after := es + [Event.Visit(t, v)], Apply(after, Event.Visit(t, v));
        todo := todo - {v};
      }
    }

    lemma AboutClients(g: State)
      requires Shows(g)
      ensures clients.Keys == g.clients && g.clients <= g.objs.Keys
    {
    }
  }

  lemma VisitEnabled(g: State, t: nat, v: nat)
    requires t < |g.informs| && g.informs[t].pc.Scanning? && v in g.informs[t].pc.todo && v in g.objs
    ensures Enabled(g, Event.Visit(t, v))
  {
  }

  lemma VisitIs(g: State, t: nat, v: nat)
    requires Enabled(g, Event.Visit(t, v))
    ensures var i := g.informs[t];
      var chosen := if i.name in g.objs[v].interest then i.pc.chosen + {v} else i.pc.chosen;
      Apply(g, Event.Visit(t, v)) == g.(informs := g.informs[t := Inform(i.name, Scanning(i.pc.todo - {v}, chosen))])
  {
  }

  lemma OneMoreStep(g: State, es: seq<Event>, s: State, e: Event)
    requires Run(g, es) == Some(s) && Enabled(s, e)
    ensures Run(g, es + [e]) == Some(Apply(s, e))
  {
    hide Apply, Enabled;
    assert (es + [e])[..|es|] == es;
  }

  lemma RemoveIs(g: State, k: nat)
    requires IndexesAgree(g)
    ensures k !in g.ids ==> Apply(g, Event.Remove(k)) == g
    ensures k in g.ids ==>
      && k in g.objs
      && var name, g' := g.objs[k].info.name, Apply(g, Event.Remove(k));
         && g' == g.(ids := g.ids - {k}, services := Dropped(g.services, name, k), resigns := g'.resigns)
         && ListFor(g, name) != [] && ListFor(g, name) == (if name in g.services then g.services[name] else [])
  {
    if k in g.ids {
      assert IdOk(g, k);
    }
  }

  lemma {:induction false} WithoutAppend(list: seq<nat>, x: nat, k: nat)
    ensures Without(list + [x], k) == Without(list, k) + if x == k then [] else [x]
  {
    if list == [] {
      assert list + [x] == [x];
    } else {
      assert (list + [x])[1..] == list[1..] + [x];
      WithoutAppend(list[1..], x, k);
    }
  }

  lemma OneMoreKept(ids: seq<nat>, i: nat, k: nat)
    requires i < |ids|
    ensures Without(ids[..i + 1], k) == Without(ids[..i], k) + if ids[i] == k then [] else [ids[i]]
  {
    assert ids[..i + 1] == ids[..i] + [ids[i]];
    WithoutAppend(ids[..i], ids[i], k);
  }

  lemma ListsDropped(objs: map<nat, Service>, lists: map<string, seq<Service>>, ids: map<string, seq<nat>>,
                     name: string, k: nat, rest: seq<Service>)
    requires ListsAre(objs, lists, ids) && ListIs(objs, rest, Without(if name in ids then ids[name] else [], k))
    ensures ListsAre(objs, if |rest| == 0 then lists - {name} else lists[name := rest], Dropped(ids, name, k))
  {
  }

  lemma QueryIs(g: State, k: nat, name: string)
    requires IndexesAgree(g) && (k in g.ids ==> k in g.objs)
    ensures Enabled(g, Event.Query(k, name)) && IndexesAgree(Apply(g, Event.Query(k, name)))
    ensures CurrentAddrs(Apply(g, Event.Query(k, name)), name) == CurrentAddrs(g, name)
    ensures k !in g.ids ==> Apply(g, Event.Query(k, name)) == g
    ensures k in g.ids ==>
      var g' := Apply(g, Event.Query(k, name));
      g' == g.(objs := g.objs[k := g.objs[k].(interest := g.objs[k].interest + {name})], latest := g'.latest)
  {
    OtherKeepsAgreement(g, Event.Query(k, name));
    SameAddrs(g, Event.Query(k, name), name);
  }

  lemma SameLength(objs: map<nat, Service>, ses: seq<Service>, ids: seq<nat>)
    requires ListIs(objs, ses, ids)
    ensures |ses| == |ids|
  {
  }

  lemma NoAddrs(objs: map<nat, Obj>)
    ensures Addrs(objs, []) == []
  {
  }

  lemma OneAddrMore(objs: map<nat, Obj>, ids: seq<nat>, i: nat)
    requires i < |ids| && ids[i] in objs
    ensures Addrs(objs, ids[..i + 1]) == Addrs(objs, ids[..i]) + [objs[ids[i]].info.addr]
  {
    assert ids[..i + 1] == ids[..i] + [ids[i]];
    AddrsAppend(objs, ids[..i], ids[i]);
  }
}
