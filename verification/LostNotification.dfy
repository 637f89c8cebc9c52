/** The converse of `Registry.NoLostNotification`: from every reachable state, an unsafe query has a
    continuation that loses a change. */
module LostNotification {
  import opened Options
  import opened Registry

  ghost predicate Sound(s: State) {
    IndexesAgree(s) && ResignsOnce(s) && ThreadsOk(s)
  }

  // ----- steps that only finish what was begun -----

  /** Steps that change no list and start no query, and leave service `id` where it is in `register`. */
  predicate Finishes(e: Event, id: nat) {
    !e.Index? && !e.Remove? && !e.Query? && e != List(id) && e != Announce(id)
  }

  /** What such steps leave alone. */
  ghost predicate Kept(s: State, t: State, id: nat) {
    && t.services == s.services && t.ids == s.ids && t.counter == s.counter && t.objs.Keys == s.objs.Keys
    && (forall o :: o in s.objs ==> t.objs[o].info == s.objs[o].info)
    && id in s.objs && t.objs[id] == s.objs[id] && s.objs[id].reg == Indexed
    && forall name :: ((id, name) in t.latest <==> (id, name) in s.latest)
         && ((id, name) in s.latest ==> t.latest[(id, name)] == s.latest[(id, name)])
  }

  ghost predicate Leads(s: State, es: seq<Event>, t: State, id: nat) {
    && Run(s, es) == Some(t) && Sound(t) && Kept(s, t, id)
    && forall i :: 0 <= i < |es| ==> Finishes(es[i], id)
  }

  lemma Stay(s: State, id: nat)
    requires Sound(s) && id in s.objs && s.objs[id].reg == Indexed
    ensures Leads(s, [], s, id)
  {
  }

  lemma StepKept(s: State, e: Event, id: nat)
    requires Sound(s) && Enabled(s, e) && Finishes(e, id) && id in s.objs && s.objs[id].reg == Indexed
    ensures Kept(s, Apply(s, e), id) && Sound(Apply(s, e))
  {
    OtherKeepsAgreement(s, e);
    StepResignsOnce(s, e);
    StepKeepsThreads(s, e);
    assert e.Snapshot? ==> InformOk(s, e.t);
    hide IndexesAgree, ResignsOnce, ThreadsOk;
  }

  lemma OneMore(s: State, es: seq<Event>, t: State, e: Event, id: nat)
    requires Leads(s, es, t, id) && Enabled(t, e) && Finishes(e, id)
    ensures Leads(s, es + [e], Apply(t, e), id)
  {
    hide Apply, Enabled, Sound, Finishes;
    StepKept(t, e, id);
    KeptTwice(s, t, Apply(t, e), id);
    hide Kept;
    assert (es + [e])[..|es|] == es;
  }

  lemma KeptTwice(s: State, t: State, u: State, id: nat)
    requires Kept(s, t, id) && Kept(t, u, id)
    ensures Kept(s, u, id)
  {
  }

  // ----- finishing a scan -----

  lemma AboutScanner(s: State, es: seq<Event>, t: State, id: nat)
    requires Leads(s, es, t, id) && t.scanner.Some?
    ensures t.scanner.value < |t.informs| && t.informs[t.scanner.value].pc.Scanning?
    ensures forall v :: v in t.informs[t.scanner.value].pc.todo ==> v in t.objs
  {
    assert InformOk(t, t.scanner.value);
  }

  /** The scan that holds the client lock runs to its end. */
  lemma EndScanning(s: State, es: seq<Event>, t: State, id: nat) returns (es': seq<Event>, t': State)
    requires Leads(s, es, t, id) && t.scanner.Some? && t.scanner.value < |t.informs|
    requires t.informs[t.scanner.value].pc.Scanning?
    ensures Leads(s, es', t', id) && t'.scanner.None? && t'.objs == t.objs && t'.resigns == t.resigns
    ensures |t'.informs| == |t.informs| && !t'.informs[t.scanner.value].pc.Waiting?
    ensures !t'.informs[t.scanner.value].pc.Scanning?
    ensures forall u :: 0 <= u < |t.informs| && u != t.scanner.value ==> t'.informs[u] == t.informs[u]
    decreases |t.informs[t.scanner.value].pc.todo|
  {
    hide Leads;
    var u := t.scanner.value;
    AboutScanner(s, es, t, id);
    var todo := t.informs[u].pc.todo;
    if todo == {} {
      OneMore(s, es, t, EndScan(u), id);
      es', t' := es + [EndScan(u)], Apply(t, EndScan(u));
    } else {
      var v :| v in todo;
      OneMore(s, es, t, Visit(u, v), id);
      es', t' := EndScanning(s, es + [Visit(u, v)], Apply(t, Visit(u, v)), id);
    }
  }

  /** Nobody holds the client lock. */
  lemma FreeLock(s: State, es: seq<Event>, t: State, id: nat) returns (es': seq<Event>, t': State)
    requires Leads(s, es, t, id)
    ensures Leads(s, es', t', id) && t'.scanner.None?
  {
    if t.scanner.Some? {
      AboutScanner(s, es, t, id);
      es', t' := EndScanning(s, es, t, id);
    } else {
      es', t' := es, t;
    }
  }

  // ----- finishing registrations, resigns and announcements -----

  ghost function Registering(s: State, id: nat): set<nat> {
    set o | o in s.objs && o != id && s.objs[o].reg != Returned
  }

  lemma FinishOneRegister(s: State, es: seq<Event>, t: State, id: nat, o: nat) returns (es': seq<Event>, t': State)
    requires Leads(s, es, t, id) && t.scanner.None? && o in Registering(t, id)
    ensures Leads(s, es', t', id) && t'.scanner.None? && Registering(t', id) == Registering(t, id) - {o}
  {
    es', t' := es, t;
    if t'.objs[o].reg == Indexed {
      OneMore(s, es', t', List(o), id);
      es', t' := es' + [List(o)], Apply(t', List(o));
    }
    OneMore(s, es', t', Announce(o), id);
    es', t' := es' + [Announce(o)], Apply(t', Announce(o));
  }

  lemma FinishRegisters(s: State, es: seq<Event>, t: State, id: nat) returns (es': seq<Event>, t': State)
    requires Leads(s, es, t, id) && t.scanner.None?
    ensures Leads(s, es', t', id) && t'.scanner.None? && Registering(t', id) == {}
    decreases |Registering(t, id)|
  {
    es', t' := es, t;
    if Registering(t, id) != {} {
      var o :| o in Registering(t, id);
      es', t' := FinishOneRegister(s, es, t, id, o);
      es', t' := FinishRegisters(s, es', t', id);
    }
  }

  ghost predicate AnnouncedTo(s: State, n: nat) {
    n <= |s.resigns| && forall r :: 0 <= r < n ==> s.resigns[r].pc.Informing? || s.resigns[r].pc.Closed?
  }

  lemma FinishResigns(s: State, es: seq<Event>, t: State, id: nat, n: nat) returns (es': seq<Event>, t': State)
    requires Leads(s, es, t, id) && t.scanner.None? && Registering(t, id) == {} && AnnouncedTo(t, n)
    ensures Leads(s, es', t', id) && t'.scanner.None? && Registering(t', id) == {} && AnnouncedTo(t', |t'.resigns|)
    decreases |t.resigns| - n
  {
    es', t' := es, t;
    if n < |t.resigns| {
      assert t.resigns[n].id in t.objs;
      if t'.resigns[n].pc == Removed {
        OneMore(s, es', t', Unlist(n), id);
        es', t' := es' + [Unlist(n)], Apply(t', Unlist(n));
      }
      if t'.resigns[n].pc == Unlisted {
        OneMore(s, es', t', AnnounceGone(n), id);
        es', t' := es' + [AnnounceGone(n)], Apply(t', AnnounceGone(n));
      }
      es', t' := FinishResigns(s, es', t', id, n + 1);
    }
  }

  ghost predicate DoneTo(s: State, n: nat) {
    n <= |s.informs| && forall t :: 0 <= t < n ==> s.informs[t].pc == Done
  }

  lemma Scan(s: State, es: seq<Event>, t: State, id: nat, n: nat) returns (es': seq<Event>, t': State)
    requires Leads(s, es, t, id) && t.scanner.None? && n < |t.informs|
    ensures Leads(s, es', t', id) && t'.scanner.None? && |t'.informs| == |t.informs|
    ensures t'.objs == t.objs && t'.resigns == t.resigns
    ensures t'.informs[n].pc.Chosen? || t'.informs[n].pc == Done
    ensures forall u :: 0 <= u < |t.informs| && u != n ==> t'.informs[u] == t.informs[u]
  {
    es', t' := es, t;
    assert InformOk(t, n);
    if t.informs[n].pc == Waiting {
      OneMore(s, es, t, StartScan(n), id);
      hide Leads;
      es', t' := EndScanning(s, es + [StartScan(n)], Apply(t, StartScan(n)), id);
    }
  }

  lemma FinishOneInform(s: State, es: seq<Event>, t: State, id: nat, n: nat) returns (es': seq<Event>, t': State)
    requires Leads(s, es, t, id) && t.scanner.None? && DoneTo(t, n) && n < |t.informs|
    ensures Leads(s, es', t', id) && t'.scanner.None? && DoneTo(t', n + 1)
    ensures t'.objs == t.objs && t'.resigns == t.resigns && |t'.informs| == |t.informs|
  {
    hide Leads;
    es', t' := Scan(s, es, t, id, n);
    if t'.informs[n].pc.Chosen? {
      OneMore(s, es', t', Snapshot(n), id);
      es', t' := es' + [Snapshot(n)], Apply(t', Snapshot(n));
    }
  }

  lemma FinishInforms(s: State, es: seq<Event>, t: State, id: nat, n: nat) returns (es': seq<Event>, t': State)
    requires Leads(s, es, t, id) && t.scanner.None? && DoneTo(t, n)
    ensures Leads(s, es', t', id) && t'.scanner.None? && DoneTo(t', |t'.informs|)
    ensures t'.objs == t.objs && t'.resigns == t.resigns
    decreases |t.informs| - n
  {
    es', t' := es, t;
    if n < |t.informs| {
      es', t' := FinishOneInform(s, es, t, id, n);
      es', t' := FinishInforms(s, es', t', id, n + 1);
    }
  }

  /** Only service `id` has anything left to do. */
  ghost predicate Quiet(s: State, id: nat) {
    s.scanner.None? && Registering(s, id) == {} && AnnouncedTo(s, |s.resigns|) && DoneTo(s, |s.informs|)
  }

  lemma CalmDown(s: State, id: nat) returns (es: seq<Event>, t: State)
    requires Sound(s) && id in s.objs && s.objs[id].reg == Indexed
    ensures Leads(s, es, t, id) && Quiet(t, id)
  {
    Stay(s, id);
    es, t := FreeLock(s, [], s, id);
    es, t := FinishRegisters(s, es, t, id);
    es, t := FinishResigns(s, es, t, id, 0);
    es, t := FinishInforms(s, es, t, id, 0);
  }

  // ----- the lost change -----

  /** A new service under `name` changes the addresses for `name`. */
  lemma NewAddress(s: State, info: Info)
    requires Sound(s)
    ensures CurrentAddrs(Apply(s, Index(info)), info.name) == CurrentAddrs(s, info.name) + [info.addr]
  {
    var t, list := Apply(s, Index(info)), ListFor(s, info.name);
    AddrsAppend(t.objs, list, s.counter + 1);
    assert info.name in s.services ==> ListOk(s, info.name);
    AddrsFrame(s.objs, t.objs, list);
  }

  /** Finishing what was begun leaves the addresses alone. */
  lemma KeptAddrs(s: State, t: State, id: nat, name: string)
    requires Sound(s) && Kept(s, t, id)
    ensures CurrentAddrs(t, name) == CurrentAddrs(s, name)
  {
    assert name in s.services ==> ListOk(s, name);
    AddrsFrame(s.objs, t.objs, ListFor(s, name));
  }

  lemma StepSound(s: State, e: Event)
    requires Sound(s) && Enabled(s, e)
    ensures Sound(Apply(s, e))
  {
    match e {
      case Index(info) => IndexKeepsAgreement(s, info);
      case Remove(id) => RemoveKeepsAgreement(s, id);
      case _ => OtherKeepsAgreement(s, e);
    }
    StepResignsOnce(s, e);
    StepKeepsThreads(s, e);
  }

  /** A service that is about to become a client has an old list for another name, and nothing else is
      left to do: once it is listed, the change is lost. */
  lemma ListedTooLate(s: State, id: nat, name: string)
    requires Sound(s) && Quiet(s, id) && id in s.objs && s.objs[id].reg == Indexed && s.objs[id].info.listens
    requires name in s.objs[id].interest && name != s.objs[id].info.name && !Current(s, id, name)
    ensures Enabled(s, List(id)) && !NothingLost(Apply(s, List(id)))
  {
    var t := Apply(s, List(id));
    SameAddrs(s, List(id), name);
    assert Interested(t, id, name) && !Current(t, id, name);
    forall n: nat ensures !InformOwes(t, n, id, name) {
      assert n < |t.informs| ==> t.informs[n].pc == Done;
    }
    forall o: nat ensures !RegisterOwes(t, o, name) {
      assert o in s.objs && o != id && s.objs[o].reg != Returned ==> o in Registering(s, id);
    }
    assert forall r :: !ResignOwes(t, r, name);
  }

  /** The steps of `more` are enabled from `s` on and none of them is a query. */
  predicate NoQueries(more: seq<Event>) {
    forall i :: 0 <= i < |more| ==> !more[i].Query?
  }

  lemma {:induction false} RunOn(s: State, es: seq<Event>, t: State, more: seq<Event>, u: State)
    requires Run(s, es) == Some(t) && Run(t, more) == Some(u)
    ensures Run(s, es + more) == Some(u)
    decreases |more|
  {
    hide Apply, Enabled;
    if more == [] {
      assert es + more == es;
    } else {
      assert (es + more)[..|es + more| - 1] == es + more[..|more| - 1];
      RunOn(s, es, t, more[..|more| - 1], Run(t, more[..|more| - 1]).value);
    }
  }

  lemma RunOne(s: State, e: Event)
    requires Enabled(s, e)
    ensures Run(s, [e]) == Some(Apply(s, e))
  {
    hide Apply, Enabled;
    assert [e][..0] == [] && Run(s, []) == Some(s);
  }

  function Asked(s: State, id: nat, name: string): State {
    Apply(s, Query(id, name))
  }

  /** A service under the name has come up after the query. */
  function Grown(s: State, id: nat, name: string): State {
    Apply(Asked(s, id, name), Index(Info(name, "", false)))
  }

  lemma AskedIs(s: State, id: nat, name: string)
    requires Sound(s) && !Safe(s, Query(id, name))
    ensures Sound(Asked(s, id, name)) && Current(Asked(s, id, name), id, name)
    ensures id in s.objs && s.objs[id].reg == Indexed && s.objs[id].info.listens && name != s.objs[id].info.name
    ensures id in Asked(s, id, name).objs
    ensures Asked(s, id, name).objs[id] == s.objs[id].(interest := s.objs[id].interest + {name})
  {
    StepSound(s, Query(id, name));
    SameAddrs(s, Query(id, name), name);
    hide Sound;
  }

  lemma GrownIs(s: State, id: nat, name: string)
    requires Sound(s) && !Safe(s, Query(id, name))
    ensures var t := Grown(s, id, name);
      && Sound(t) && id in t.objs && t.objs[id].reg == Indexed && t.objs[id].info.listens
      && name in t.objs[id].interest && name != t.objs[id].info.name && !Current(t, id, name)
  {
    hide Sound, CurrentAddrs, Asked, Safe;
    AskedIs(s, id, name);
    var asked, info := Asked(s, id, name), Info(name, "", false);
    StepSound(asked, Index(info));
    NewAddress(asked, info);
    NewIdIsNew(asked, id);
  }

  lemma NewIdIsNew(s: State, id: nat)
    requires Sound(s) && id in s.objs
    ensures id != s.counter + 1
  {
  }

  /** After an unsafe query: a service comes up under the name, everything else is finished, and only then
      does the client get on the list. */
  lemma LosesAfter(s: State, id: nat, name: string) returns (more: seq<Event>, u: State)
    requires Sound(s) && !Safe(s, Query(id, name))
    ensures Run(Apply(s, Query(id, name)), more) == Some(u) && NoQueries(more) && !NothingLost(u)
  {
    hide Sound, Apply, Current, CurrentAddrs, NothingLost, Quiet, Safe;
    var up, asked, grown := Index(Info(name, "", false)), Asked(s, id, name), Grown(s, id, name);
    GrownIs(s, id, name);
    var es, t := CalmDown(grown, id);
    StillNotCurrent(grown, t, id, name);
    ListedTooLate(t, id, name);
    u := Apply(t, List(id));
    RunOne(asked, up);
    RunOn(asked, [up], grown, es, t);
    RunOne(t, List(id));
    RunOn(asked, [up] + es, t, [List(id)], u);
    more := [up] + es + [List(id)];
  }

  lemma StillNotCurrent(s: State, t: State, id: nat, name: string)
    requires Sound(s) && Kept(s, t, id)
    ensures Current(t, id, name) <==> Current(s, id, name)
  {
    KeptAddrs(s, t, id, name);
  }

  // ----- exactly the unsafe queries can lose a change -----

  lemma {:induction false} NoQueriesIsSafe(es: seq<Event>, more: seq<Event>)
    requires After(es + more).Some? && NoQueries(more)
    ensures SafeRun(es + more, |es|)
    decreases |more|
  {
    hide Apply, Enabled;
    if more != [] {
      assert (es + more)[..|es + more| - 1] == es + more[..|more| - 1];
      NoQueriesIsSafe(es, more[..|more| - 1]);
    }
  }

  lemma {:induction false} SafeTogether(es: seq<Event>, more: seq<Event>)
    requires SafeRun(es, 0) && SafeRun(es + more, |es|)
    ensures SafeRun(es + more, 0)
    decreases |more|
  {
    hide Apply, Enabled, Safe;
    if more == [] {
      assert es + more == es;
    } else {
      assert (es + more)[..|es + more| - 1] == es + more[..|more| - 1];
      SafeTogether(es, more[..|more| - 1]);
    }
  }

  /** The continuation of `es` by `more` ends in `t`, and its queries are safe. */
  ghost predicate Continues(es: seq<Event>, more: seq<Event>, t: State) {
    After(es + more) == Some(t) && SafeRun(es + more, |es|)
  }

  /** From any reachable state an unsafe query has a continuation, without further queries, that loses a
      change. */
  lemma UnsafeQueryLosesANotification(es: seq<Event>, s: State, e: Event) returns (more: seq<Event>, t: State)
    requires After(es) == Some(s) && !Safe(s, e)
    ensures Continues(es + [e], more, t) && NoQueries(more) && !NothingLost(t)
  {
    RunThreads(es, s);
    more, t := LosesAfter(s, e.id, e.name);
    assert Enabled(s, e);
    hide Apply, Enabled;
    RunOne(s, e);
    RunOn(Init, es, s, [e], Apply(s, e));
    RunOn(Init, es + [e], Apply(s, e), more, t);
    NoQueriesIsSafe(es + [e], more);
  }

  /** After a safe run, a step is safe exactly when no continuation with safe queries loses a change. */
  lemma SafeExactlyWhenNothingGetsLost(es: seq<Event>, s: State, e: Event)
    requires After(es) == Some(s) && SafeRun(es, 0) && Enabled(s, e)
    ensures Safe(s, e) <==> forall more, t :: Continues(es + [e], more, t) ==> NothingLost(t)
  {
    hide Apply, Enabled;
    if Safe(s, e) {
      assert (es + [e])[..|es|] == es;
      forall more, t | Continues(es + [e], more, t) ensures NothingLost(t) {
        SafeTogether(es + [e], more);
        RunLosesNothing(es + [e] + more, t);
      }
    } else {
      var more, t := UnsafeQueryLosesANotification(es, s, e);
    }
  }
}
