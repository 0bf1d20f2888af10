// What the broker must do, read off the history of ENet events alone, and the
// proof that the broker's state and every connection's stream agree with it.

module History {
  import opened Wrappers
  import opened Protocol
  import opened Messages
  import opened Topics
  import opened ServerSpec

  // ---------- reading a history ----------

  // Connections are numbered 1, 2, ... in the order the server accepts them.
  function Connects(evs: seq<Event>): nat
  {
    if evs == [] then 0
    else Connects(Before(evs)) + if Last(evs).Connect? then 1 else 0
  }

  // The connection on a slot after these events; 0 when the slot is free.
  function Owner(evs: seq<Event>, slot: nat): nat
  {
    if evs == [] then 0
    else if Last(evs) == Connect(slot) then Connects(evs)
    else if Last(evs) == Disconnect(slot) then 0
    else Owner(Before(evs), slot)
  }

  // The event, after history evs, delivers packet r from connection c.
  predicate Delivers(evs: seq<Event>, ev: Event, c: nat, r: Request)
  {
    ev.Receive? && Owner(evs, ev.slot) == c && ev.request == r
  }

  // The latest subscribe or unsubscribe of c for k since c connected is a subscribe.
  predicate Subscribed(evs: seq<Event>, c: nat, k: Key)
  {
    if evs == [] then false
    else
      var earlier, ev := Before(evs), Last(evs);
      if ev.Connect? && Connects(evs) == c then false
      else if ev.Disconnect? && Owner(earlier, ev.slot) == c then false
      else if Delivers(earlier, ev, c, Subscribe(k)) then true
      else if Delivers(earlier, ev, c, Unsubscribe(k)) then false
      else Subscribed(earlier, c, k)
  }

  // The topic names asked for, each once, in the order they were first asked for.
  function Asked(evs: seq<Event>): seq<Bytes>
  {
    if evs == [] then []
    else
      var ev := Last(evs);
      if ev.Receive? && ev.request.Ask? then NamesAfter(Asked(Before(evs)), ev.request.name)
      else Asked(Before(evs))
  }

  // ENet's promise in terms of the history: each slot alternates between
  // Connect, any number of Receives, and Disconnect.
  predicate Alternates(evs: seq<Event>)
  {
    evs == [] ||
    (Alternates(Before(evs)) && Last(evs).slot < MAX_PEERS
     && (Last(evs).Connect? <==> Owner(Before(evs), Last(evs).slot) == 0))
  }

  // ---------- the state is the history ----------

  ghost predicate OwnersAgree(s: Server, evs: seq<Event>)
  {
    && s.nextId == Connects(evs) + 1
    && (forall slot :: slot in s.peer <==> Owner(evs, slot) != 0)
    && (forall slot :: slot in s.peer ==> s.peer[slot] == Owner(evs, slot))
  }

  predicate HasTopic(s: Server, c: nat, k: Key) { c in s.subs && k in s.subs[c] }

  ghost predicate Records(s: Server, evs: seq<Event>)
  {
    && OwnersAgree(s, evs)
    && (forall c, k: Key :: HasTopic(s, c, k) <==> Subscribed(evs, c, k))
    && Lists(s.topics, Asked(evs))
  }

  lemma {:induction false} StateIsHistory(evs: seq<Event>)
    requires Trace(evs)
    ensures Records(Run(evs), evs)
  {
    if evs != [] {
      StateIsHistory(Before(evs));
      var s, s' := Run(Before(evs)), Run(evs);
      StepOwners(s, evs);
      StepAsked(s, evs);
      forall c, k: Key ensures HasTopic(s', c, k) <==> Subscribed(evs, c, k) {
        assert HasTopic(s, c, k) <==> Subscribed(Before(evs), c, k);
        StepSubscription(s, evs, c, k);
      }
    }
  }

  lemma StepOwners(s: Server, evs: seq<Event>)
    requires evs != [] && CanStep(s, Last(evs)) && OwnersAgree(s, Before(evs))
    ensures OwnersAgree(Step(s, Last(evs)), evs)
  {
    forall slot
      ensures slot in Step(s, Last(evs)).peer <==> Owner(evs, slot) != 0
      ensures slot in Step(s, Last(evs)).peer ==> Step(s, Last(evs)).peer[slot] == Owner(evs, slot)
    {
      StepOwner(s, evs, slot);
    }
  }

  lemma StepOwner(s: Server, evs: seq<Event>, slot: nat)
    requires evs != [] && CanStep(s, Last(evs)) && s.nextId == Connects(Before(evs)) + 1
    requires Owner(Before(evs), slot) == if slot in s.peer then s.peer[slot] else 0
    requires slot in s.peer ==> s.peer[slot] != 0
    ensures var peer := Step(s, Last(evs)).peer;
            && Owner(evs, slot) == (if slot in peer then peer[slot] else 0)
            && (slot in peer ==> peer[slot] != 0)
  {
  }

  lemma StepAsked(s: Server, evs: seq<Event>)
    requires evs != [] && CanStep(s, Last(evs)) && Lists(s.topics, Asked(Before(evs)))
    ensures Lists(Step(s, Last(evs)).topics, Asked(evs))
  {
    var ev := Last(evs);
    if ev.Receive? && ev.request.Ask? {
      ResolveLists(s.topics, Asked(Before(evs)), ev.request.name);
    }
  }

  lemma StepSubscription(s: Server, evs: seq<Event>, c: nat, k: Key)
    requires evs != [] && CanStep(s, Last(evs)) && s.nextId == Connects(Before(evs)) + 1
    requires s.nextId !in s.subs
    requires Last(evs).slot in s.peer ==> s.peer[Last(evs).slot] == Owner(Before(evs), Last(evs).slot)
    requires HasTopic(s, c, k) <==> Subscribed(Before(evs), c, k)
    ensures HasTopic(Step(s, Last(evs)), c, k) <==> Subscribed(evs, c, k)
  {
  }

  // The event sequences a server can be given are exactly the alternating ones.
  lemma {:induction false} TraceIsAlternation(evs: seq<Event>)
    ensures Trace(evs) <==> Alternates(evs)
  {
    if evs != [] {
      TraceIsAlternation(Before(evs));
      if Trace(Before(evs)) { StateIsHistory(Before(evs)); }
    }
  }

  // A client's subscribed_topics is exactly what its own messages since its own
  // connect say, and only connected clients have one.
  lemma SubscriptionsAreHistory(evs: seq<Event>, c: nat)
    requires Trace(evs)
    ensures c in Run(evs).subs <==> c > 0 && exists slot :: Owner(evs, slot) == c
    ensures c in Run(evs).subs ==> forall k: Key :: k in Run(evs).subs[c] <==> Subscribed(evs, c, k)
  {
    StateIsHistory(evs);
    var s := Run(evs);
    if c in s.subs {
      var slot :| slot in s.peer && s.peer[slot] == c;
      assert Owner(evs, slot) == c;
    }
  }

  // ---------- the requests of one connection ----------

  // What connection c has sent, in order.
  function RequestsOf(evs: seq<Event>, c: nat): seq<Request>
  {
    if evs == [] then []
    else
      var earlier, ev := Before(evs), Last(evs);
      RequestsOf(earlier, c) + if ev.Receive? && Owner(earlier, ev.slot) == c then [ev.request] else []
  }

  lemma {:induction false} OwnerBound(evs: seq<Event>, slot: nat)
    ensures Owner(evs, slot) <= Connects(evs)
  {
    if evs != [] { OwnerBound(Before(evs), slot); }
  }

  lemma {:induction false} NoRequestsYet(evs: seq<Event>, c: nat)
    requires c > Connects(evs)
    ensures RequestsOf(evs, c) == []
  {
    if evs != [] {
      NoRequestsYet(Before(evs), c);
      OwnerBound(Before(evs), Last(evs).slot);
    }
  }

  lemma {:induction false} RequestsGrow(evs: seq<Event>, c: nat, n: nat)
    requires n <= |evs|
    ensures RequestsOf(evs[..n], c) <= RequestsOf(evs, c)
  {
    if n < |evs| {
      RequestsGrow(Before(evs), c, n);
      assert Before(evs)[..n] == evs[..n];
    } else {
      assert evs[..n] == evs;
    }
  }

  // The request of an event stands behind those its connection sent before.
  lemma RequestAt(evs: seq<Event>, n: nat)
    requires n < |evs| && evs[n].Receive?
    ensures var c := Owner(evs[..n], evs[n].slot);
            var i := |RequestsOf(evs[..n], c)|;
            i < |RequestsOf(evs[..n + 1], c)| <= |RequestsOf(evs, c)| && RequestsOf(evs, c)[i] == evs[n].request
  {
    var c := Owner(evs[..n], evs[n].slot);
    assert Before(evs[..n + 1]) == evs[..n];
    RequestsGrow(evs, c, n + 1);
    assert RequestsOf(evs[..n + 1], c) == RequestsOf(evs[..n], c) + [evs[n].request];
  }

  // The keys subscribed to after these requests, starting from none.
  function KeysAfter(requests: seq<Request>): set<Key>
  {
    if requests == [] then {}
    else TopicsOf(KeysAfter(requests[..|requests| - 1]), requests[|requests| - 1])
  }

  // A live connection's subscriptions follow from its own requests, and from
  // nothing that happened on its slot before or elsewhere.
  lemma {:induction false} OwnRequestsDecide(evs: seq<Event>, c: nat)
    requires Trace(evs) && c in Run(evs).subs
    ensures Run(evs).subs[c] == KeysAfter(RequestsOf(evs, c))
  {
    hide Records, Step;
    if evs != [] {
      var earlier, ev := Before(evs), Last(evs);
      var s := Run(earlier);
      RequestsOfLast(evs, c);
      OneMoreRequest(s, ev, c);
      if c in s.subs {
        OwnRequestsDecide(earlier, c);
      } else {
        FreshConnection(earlier, c);
      }
      KeysAfterMore(RequestsOf(earlier, c), ev);
      if !From(s, ev, c) {
        assert RequestsOf(evs, c) == RequestsOf(earlier, c);
      }
    }
  }

  // The connections of the state are those of the history.
  lemma RequestsOfLast(evs: seq<Event>, c: nat)
    requires evs != [] && Trace(evs) && c != 0
    ensures RequestsOf(evs, c)
         == RequestsOf(Before(evs), c) + if From(Run(Before(evs)), Last(evs), c) then [Last(evs).request] else []
  {
    hide Run, Lists, Asked, Subscribed;
    StateIsHistory(Before(evs));
  }

  // The event brings a request of connection c.
  predicate From(s: Server, ev: Event, c: nat)
  {
    ev.Receive? && ev.slot in s.peer && s.peer[ev.slot] == c
  }

  lemma FreshConnection(evs: seq<Event>, c: nat)
    requires Trace(evs) && c >= Run(evs).nextId
    ensures RequestsOf(evs, c) == []
  {
    hide Run, Lists, Asked, Subscribed, RequestsOf;
    StateIsHistory(evs);
    NoRequestsYet(evs, c);
  }

  lemma KeysAfterMore(requests: seq<Request>, ev: Event)
    ensures KeysAfter([]) == {}
    ensures ev.Receive? ==> KeysAfter(requests + [ev.request]) == TopicsOf(KeysAfter(requests), ev.request)
  {
    if ev.Receive? {
      assert (requests + [ev.request])[..|requests|] == requests;
    }
  }

  lemma OneMoreRequest(s: Server, ev: Event, c: nat)
    requires CanStep(s, ev) && Consistent(s) && c in Step(s, ev).subs
    ensures c != 0 && (c !in s.subs ==> c == s.nextId && !From(s, ev, c) && Step(s, ev).subs[c] == {})
    ensures c in s.subs ==>
      Step(s, ev).subs[c] == if From(s, ev, c) then TopicsOf(s.subs[c], ev.request) else s.subs[c]
  {
  }

  // Two connections that sent the same requests, in whatever histories and on
  // whatever slots, have the same subscriptions.
  lemma NothingInherited(evs: seq<Event>, c: nat, evs': seq<Event>, c': nat)
    requires Trace(evs) && c in Run(evs).subs
    requires Trace(evs') && c' in Run(evs').subs
    requires RequestsOf(evs, c) == RequestsOf(evs', c')
    ensures Run(evs).subs[c] == Run(evs').subs[c']
  {
    hide Run, Trace;
    OwnRequestsDecide(evs, c);
    OwnRequestsDecide(evs', c');
  }

  // ---------- what each event must make the server send ----------

  // The packet that event ev, after history evs, must put on connection d.
  function Due(evs: seq<Event>, ev: Event, d: nat): Option<Reply>
  {
    if !ev.Receive? then None
    else match ev.request
      case Ask(name) =>
        if Owner(evs, ev.slot) == d
        then Some(Answer(KeyFor(NamesAfter(Asked(evs), name), name), name))
        else None
      case Publish(key, payload) =>
        if Owner(evs, ev.slot) != d && Subscribed(evs, d, key)
        then Some(Fanout(key, payload))
        else None
      case _ => None
  }

  // The key of a name given the names in order of creation.
  function KeyFor(names: seq<Bytes>, name: Bytes): Key
  {
    if names == [] then 0
    else if names[|names| - 1] == name then NthKey(|names| - 1)
    else KeyFor(names[..|names| - 1], name)
  }

  lemma {:induction false} KeyForListed(names: seq<Bytes>, i: nat)
    requires Distinct(names) && i < |names|
    ensures KeyFor(names, names[i]) == NthKey(i)
  {
    var front := names[..|names| - 1];
    if i < |front| {
      assert front[i] == names[i];
      KeyForListed(front, i);
    }
  }

  lemma AnswerIsDue(t: Table, asked: seq<Bytes>, name: Bytes)
    requires Lists(t, asked)
    ensures Resolve(t, name).1 == KeyFor(NamesAfter(asked, name), name)
  {
    var names := NamesAfter(asked, name);
    ResolveLists(t, asked, name);
    var i :| 0 <= i < |names| && names[i] == name;
    KeyForListed(names, i);
    assert Resolve(t, name).1 == Resolve(t, name).0.keys[names[i]];
  }

  lemma SendsAreDue(evs: seq<Event>, ev: Event, d: nat)
    requires Trace(evs) && Possible(Run(evs), ev)
    ensures Sends(Run(evs), ev, d) == Due(evs, ev, d)
  {
    hide Run, Trace, Asked, Subscribed, Owner, Lists, Resolve, KeyFor, NamesAfter;
    StateIsHistory(evs);
    if ev.Receive? && ev.request.Ask? {
      AnswerIsDue(Run(evs).topics, Asked(evs), ev.request.name);
    }
  }

  // ---------- streams ----------

  ghost predicate CausesIncrease(outs: seq<Out>, bound: nat)
  {
    && (forall i, j :: 0 <= i < j < |outs| ==> outs[i].cause < outs[j].cause)
    && (forall i :: 0 <= i < |outs| ==> outs[i].cause < bound)
  }

  // The stream of a connection holds, in order of their events, exactly the
  // packets that are due on it.
  lemma StreamIsExact(evs: seq<Event>, d: nat)
    requires Trace(evs)
    ensures CausesIncrease(Stream(evs, d), |evs|)
    ensures forall i, r :: 0 <= i < |evs| ==>
      (Out(r, i) in Stream(evs, d) <==> Due(evs[..i], evs[i], d) == Some(r))
  {
    StreamIncreases(evs, d);
    forall i, r | 0 <= i < |evs|
      ensures Out(r, i) in Stream(evs, d) <==> Due(evs[..i], evs[i], d) == Some(r)
    {
      StreamHoldsDue(evs, d, i, r);
    }
  }

  lemma {:induction false} StreamIncreases(evs: seq<Event>, d: nat)
    requires Trace(evs)
    ensures CausesIncrease(Stream(evs, d), |evs|)
  {
    if evs != [] {
      StreamIncreases(Before(evs), d);
    }
  }

  lemma {:induction false} StreamHoldsDue(evs: seq<Event>, d: nat, i: nat, r: Reply)
    requires Trace(evs) && i < |evs|
    ensures Out(r, i) in Stream(evs, d) <==> Due(evs[..i], evs[i], d) == Some(r)
  {
    var earlier, n := Before(evs), |evs| - 1;
    if i < n {
      assert evs[..i] == earlier[..i] && evs[i] == earlier[i];
      StreamHoldsDue(earlier, d, i, r);
    } else {
      assert evs[..i] == earlier;
      StreamIncreases(earlier, d);
      SendsAreDue(earlier, evs[i], d);
      assert Out(r, i) !in Stream(earlier, d);
    }
  }

  // Any two connections see their common publishes in the same relative order,
  // and neither sees one twice.
  lemma SameRelativeOrder(evs: seq<Event>, c: nat, d: nat, i: nat, j: nat, a: nat, b: nat)
    requires Trace(evs)
    requires i < |Stream(evs, c)| && j < |Stream(evs, c)|
    requires a < |Stream(evs, d)| && b < |Stream(evs, d)|
    requires Stream(evs, c)[i].cause == Stream(evs, d)[a].cause
    requires Stream(evs, c)[j].cause == Stream(evs, d)[b].cause
    ensures i < j <==> a < b
    ensures i == j <==> a == b
  {
    StreamIsExact(evs, c);
    StreamIsExact(evs, d);
  }

  // ---------- the publish log ----------

  // A publish packet the server handled.
  datatype Publication = Publication(cause: nat, sender: nat, key: Key, payload: Bytes)

  function PublishLog(evs: seq<Event>): seq<Publication>
  {
    if evs == [] then []
    else
      var ev := Last(evs);
      PublishLog(Before(evs)) +
      if ev.Receive? && ev.request.Publish?
      then [Publication(|evs| - 1, Owner(Before(evs), ev.slot), ev.request.key, ev.request.payload)]
      else []
  }

  // The log entries d must get: those it was subscribed to and did not send, as fanout packets.
  function Filtered(evs: seq<Event>, log: seq<Publication>, d: nat): seq<Out>
    requires forall p :: p in log ==> p.cause <= |evs|
  {
    if log == [] then []
    else
      var p := log[|log| - 1];
      Filtered(evs, log[..|log| - 1], d) +
      if p.sender != d && Subscribed(evs[..p.cause], d, p.key)
      then [Out(Fanout(p.key, p.payload), p.cause)]
      else []
  }

  function FanoutsOf(outs: seq<Out>): seq<Out>
  {
    if outs == [] then []
    else
      var o := outs[|outs| - 1];
      FanoutsOf(outs[..|outs| - 1]) +
      if o.reply.Fanout? then [o] else []
  }

  lemma {:induction false} LogCauses(evs: seq<Event>)
    ensures forall p :: p in PublishLog(evs) ==> p.cause < |evs|
  {
    if evs != [] { LogCauses(Before(evs)); }
  }

  // Later events do not change what earlier log entries lead to.
  lemma {:induction false} FilteredStable(evs: seq<Event>, more: seq<Event>, log: seq<Publication>, d: nat)
    requires forall p :: p in log ==> p.cause <= |evs|
    ensures Filtered(evs + more, log, d) == Filtered(evs, log, d)
  {
    if log != [] {
      var p := log[|log| - 1];
      FilteredStable(evs, more, log[..|log| - 1], d);
      assert p in log;
      assert (evs + more)[..p.cause] == evs[..p.cause];
    }
  }

  // The fanouts put on a connection are the global publish log, filtered.
  lemma {:induction false} FanoutsAreFilteredLog(evs: seq<Event>, d: nat)
    requires Trace(evs)
    ensures forall p :: p in PublishLog(evs) ==> p.cause < |evs|
    ensures FanoutsOf(Stream(evs, d)) == Filtered(evs, PublishLog(evs), d)
  {
    LogCauses(evs);
    if evs != [] {
      var earlier, ev := Before(evs), Last(evs);
      assert evs == earlier + [ev];
      var due := Outs(DueFanout(earlier, ev, d), |earlier|);
      LogCauses(earlier);
      calc {
        FanoutsOf(Stream(evs, d));
        { FanoutsOfAppended(earlier, ev, d); }
        FanoutsOf(Stream(earlier, d)) + due;
        { FanoutsAreFilteredLog(earlier, d); }
        Filtered(earlier, PublishLog(earlier), d) + due;
        { FilteredStable(earlier, [ev], PublishLog(earlier), d); }
        Filtered(evs, PublishLog(earlier), d) + due;
        { FilteredAppended(evs, d); }
        Filtered(evs, PublishLog(evs), d);
      }
    }
  }

  // The fanout, if any, that an event must put on d.
  function DueFanout(evs: seq<Event>, ev: Event, d: nat): Option<Reply>
  {
    if ev.Receive? && ev.request.Publish? then Due(evs, ev, d) else None
  }

  lemma FanoutsOfOuts(outs: seq<Out>, r: Option<Reply>, cause: nat)
    ensures FanoutsOf(outs + Outs(r, cause))
         == FanoutsOf(outs) + if r.Some? && r.value.Fanout? then Outs(r, cause) else []
  {
    if r.Some? {
      assert (outs + Outs(r, cause))[..|outs|] == outs;
    } else {
      assert outs + Outs(r, cause) == outs;
    }
  }

  lemma FanoutDue(evs: seq<Event>, ev: Event, d: nat)
    ensures var due := Due(evs, ev, d);
            DueFanout(evs, ev, d) == if due.Some? && due.value.Fanout? then due else None
  {
    hide Owner, Subscribed, Asked, KeyFor, NamesAfter;
  }

  lemma FanoutsOfAppended(evs: seq<Event>, ev: Event, d: nat)
    requires Trace(evs) && Possible(Run(evs), ev)
    ensures Trace(evs + [ev])
    ensures FanoutsOf(Stream(evs + [ev], d))
         == FanoutsOf(Stream(evs, d)) + Outs(DueFanout(evs, ev, d), |evs|)
  {
    hide Run, Trace, Stream, Sends, Possible, Due, DueFanout, FanoutsOf;
    RunExtended(evs, ev, d);
    SendsAreDue(evs, ev, d);
    FanoutsOfOuts(Stream(evs, d), Sends(Run(evs), ev, d), |evs|);
    FanoutDue(evs, ev, d);
  }

  lemma FilteredMore(evs: seq<Event>, log: seq<Publication>, p: Publication, d: nat)
    requires p.cause <= |evs| && forall q :: q in log ==> q.cause <= |evs|
    ensures forall q :: q in log + [p] ==> q.cause <= |evs|
    ensures Filtered(evs, log + [p], d) == Filtered(evs, log, d) +
              if p.sender != d && Subscribed(evs[..p.cause], d, p.key)
              then [Out(Fanout(p.key, p.payload), p.cause)] else []
  {
    hide Subscribed;
    assert (log + [p])[..|log|] == log;
  }

  lemma DueOfPublish(evs: seq<Event>, ev: Event, d: nat)
    requires ev.Receive? && ev.request.Publish?
    ensures DueFanout(evs, ev, d)
         == if Owner(evs, ev.slot) != d && Subscribed(evs, d, ev.request.key)
            then Some(Fanout(ev.request.key, ev.request.payload)) else None
  {
    hide Subscribed, Owner;
  }

  lemma LastPublication(evs: seq<Event>)
    requires evs != []
    ensures var ev, earlier := Last(evs), PublishLog(Before(evs));
            PublishLog(evs) == if ev.Receive? && ev.request.Publish?
                               then earlier + [Publication(|evs| - 1, Owner(Before(evs), ev.slot),
                                                           ev.request.key, ev.request.payload)]
                               else earlier
  {
    hide Owner;
  }

  lemma FilteredAppended(evs: seq<Event>, d: nat)
    requires evs != []
    requires forall p :: p in PublishLog(evs) ==> p.cause < |evs|
    requires forall p :: p in PublishLog(Before(evs)) ==> p.cause < |evs|
    ensures Filtered(evs, PublishLog(evs), d)
         == Filtered(evs, PublishLog(Before(evs)), d)
            + Outs(DueFanout(Before(evs), Last(evs), d), |evs| - 1)
  {
    hide Subscribed, Owner, PublishLog, Filtered, Due;
    LastPublication(evs);
    var ev, earlier := Last(evs), PublishLog(Before(evs));
    if ev.Receive? && ev.request.Publish? {
      var p := Publication(|evs| - 1, Owner(Before(evs), ev.slot), ev.request.key, ev.request.payload);
      FilteredMore(evs, earlier, p, d);
      DueOfPublish(Before(evs), ev, d);
    } else {
      assert Filtered(evs, earlier, d) + [] == Filtered(evs, earlier, d);
    }
  }

  // ---------- one packet ----------

  // A packet is handled whatever it holds: it changes no other client's
  // subscriptions and no topic binding, and adds at most the name it asks for.
  lemma NonInterference(s: Server, c: nat, r: Request)
    requires Consistent(s) && c in s.subs
    ensures var s' := OnMessage(s, c, r);
            && s'.subs.Keys == s.subs.Keys && s'.peer == s.peer && s'.nextId == s.nextId
            && (forall d :: d in s.subs && d != c ==> s'.subs[d] == s.subs[d])
            && (forall n :: n in s.topics.keys ==> n in s'.topics.keys && s'.topics.keys[n] == s.topics.keys[n])
            && s'.topics.keys.Keys <= s.topics.keys.Keys + if r.Ask? then {r.name} else {}
  {
  }

  // The state a packet leaves and what it sends are those of no packet at all.
  ghost predicate NoEffect(s: Server, c: nat, r: Request)
    requires c in s.subs
  {
    OnMessage(s, c, r) == s && forall d :: ReplyTo(s, c, r, d).None?
  }

  // A request that is not ignored has an effect on some state.
  lemma HasEffect(r: Request) returns (s: Server, c: nat)
    requires !r.Ignored?
    ensures Consistent(s) && c in s.subs && !NoEffect(s, c, r)
  {
    // a client with and one without the key tell the four handled kinds apart
    var k := if r.Ask? then 0 else r.key;
    s := Server(NO_TOPICS, 3, map[0 := 1, 1 := 2], map[1 := {}, 2 := {k}]);
    assert s.peer[0] == 1 && s.peer[1] == 2;
    assert ServerSpec.Seated(s.peer, 1) && ServerSpec.Seated(s.peer, 2);
    c := if r.Unsubscribe? then 2 else 1;
    assert !NoEffect(s, c, r) by {
      match r
      case Ask(_) => assert ReplyTo(s, 1, r, 1).Some?;
      case Publish(_, _) => assert ReplyTo(s, 1, r, 2).Some?;
      case Subscribe(_) => assert k !in s.subs[1] && k in OnMessage(s, 1, r).subs[1];
      case Unsubscribe(_) => assert k in s.subs[2] && k !in OnMessage(s, 2, r).subs[2];
    }
  }

  // A byte string leaves every state and every outgoing channel alone exactly when
  // it is shorter than a header or its type byte is none of the four requests.
  lemma WithoutEffectExactly(m: Bytes)
    ensures |m| < HEADER_SIZE || m[7] !in {TOPIC_REQUEST, PUBLISH, SUBSCRIBE, UNSUBSCRIBE} <==>
            forall s: Server, c | Consistent(s) && c in s.subs :: NoEffect(s, c, ReadRequest(m))
  {
    hide KeyOf, Consistent;
    if !ReadRequest(m).Ignored? {
      var s, c := HasEffect(ReadRequest(m));
    }
  }
}
