// What holds of every run of the system.

module EndToEnd {
  import opened Wrappers
  import opened Protocol
  import opened Messages
  import opened Topics
  import opened ServerSpec
  import opened ClientSpec
  import opened System
  import opened Invariants
  import opened Naming
  import opened ClientSteps
  import opened ServerSteps
  import opened History

  // ---------- every reachable state ----------

  lemma {:induction false} BaseAlways(e: Endian, states: seq<Sys>, acts: seq<Action>, n: nat)
    requires Behaviour(e, states, acts) && n < |states|
    ensures Base(states[n])
  {
    hide Base, Next, Enabled;
    if n == 0 {
      InitialBase(e);
    } else {
      BaseAlways(e, states, acts, n - 1);
      assert Moves(states[n - 1], acts[n - 1], states[n]);
      BaseKept(states[n - 1], acts[n - 1]);
    }
  }

  // Topics are only added, with permanent keys.
  lemma StepTopics(s: Sys, a: Action)
    requires Base(s) && Enabled(s, a)
    ensures TableGrows(s.server.topics, Next(s, a).server.topics)
    ensures s.server.topics.keys.Keys <= Next(s, a).server.topics.keys.Keys
  {
    hide Base, Next, Enabled;
    if IsServerStep(a) {
      ServerTopics(s, a);
    } else {
      BaseBounded(s);
      ClientStepShape(s, a);
    }
  }

  lemma ServerTopics(s: Sys, a: Action)
    requires Enabled(s, a) && IsServerStep(a)
    ensures TableGrows(s.server.topics, Next(s, a).server.topics)
    ensures s.server.topics.keys.Keys <= Next(s, a).server.topics.keys.Keys
  {
    hide ReadRequest, Wire;
  }

  lemma FewBefore(s: Sys, a: Action)
    requires Base(s) && Enabled(s, a) && Few(Next(s, a))
    ensures Few(s)
  {
    hide Base, Next, Enabled;
    StepTopics(s, a);
    var m, n := s.server.topics.keys, Next(s, a).server.topics.keys;
    Smaller(m.Keys, n.Keys);
  }

  lemma {:induction false} Smaller<T>(a: set<T>, b: set<T>)
    requires a <= b
    ensures |a| <= |b|
  {
    if a != {} {
      var x :| x in a;
      Smaller(a - {x}, b - {x});
    }
  }

  lemma FewInjective(s: Sys)
    requires Base(s) && Few(s)
    ensures Injective(s.server.topics) && Nonzero(s.server.topics)
  {
    hide ChannelOk, NumbersOk, Injective, Nonzero, Lists;
    StateIsHistory(s.trace);
    InjectiveNonzeroExactly(s.server.topics, Asked(s.trace));
  }

  lemma {:induction false} NamesAlways(e: Endian, states: seq<Sys>, acts: seq<Action>, n: nat)
    requires Behaviour(e, states, acts) && n < |states| && Few(states[n])
    ensures Names(states[n])
  {
    hide Base, Names, Next, Enabled, Injective, Few;
    if n == 0 {
      InitialNames(e);
    } else {
      var s, a := states[n - 1], acts[n - 1];
      assert Moves(s, a, states[n]);
      BaseAlways(e, states, acts, n - 1);
      FewBefore(s, a);
      NamesAlways(e, states, acts, n - 1);
      FewInjective(s);
      NamesKept(s, a);
    }
  }

  lemma InitialNames(e: Endian)
    ensures Names(Initial(e))
  {
  }

  // ---------- streams ----------

  // Each end of a connection has read a prefix of what was put on it: downwards
  // exactly the packets that the server's event history makes due, upwards the
  // packets whose requests that history has from the connection, in order.
  lemma ChannelsAreExact(e: Endian, states: seq<Sys>, acts: seq<Action>, n: nat, l: nat)
    requires Behaviour(e, states, acts) && n < |states| && l < |states[n].links|
    ensures var s := states[n];
            var k := s.links[l];
            && Trace(s.trace) && k.polled <= |k.down| && k.taken <= |k.up|
            && k.down == (if k.conn == 0 then [] else OnWire(e, Stream(s.trace, k.conn)))
            && (if k.conn == 0 then k.taken == 0 else RequestsOf(s.trace, k.conn) == ReadAll(k.up[..k.taken]))
  {
    hide Behaviour, OnWire, Stream, NumbersOk, Next, RequestsOf;
    BaseAlways(e, states, acts, n);
    EndianKept(e, states, acts, n);
  }

  lemma {:induction false} EndianKept(e: Endian, states: seq<Sys>, acts: seq<Action>, n: nat)
    requires Behaviour(e, states, acts) && n < |states|
    ensures states[n].endian == e
  {
    hide Base, Wire, WriteRequest, ReadRequest, Answered, Delivered, Finishing;
    if n > 0 {
      EndianKept(e, states, acts, n - 1);
      assert Moves(states[n - 1], acts[n - 1], states[n]);
    }
  }

  lemma {:induction false} OnWireAt(e: Endian, outs: seq<Out>, j: nat)
    requires j < |outs|
    ensures OnWire(e, outs)[j] == WriteReply(e, outs[j].reply)
  {
    hide WriteReply;
    if j < |outs| - 1 { OnWireAt(e, outs[..|outs| - 1], j); }
  }

  lemma {:induction false} AllFanouts(outs: seq<Out>)
    requires forall o :: o in outs ==> o.reply.Fanout?
    ensures FanoutsOf(outs) == outs
  {
    if outs != [] {
      AllFanouts(outs[..|outs| - 1]);
      assert outs == outs[..|outs| - 1] + [outs[|outs| - 1]];
    }
  }

  // ---------- channel discipline ----------

  // A main connection only ever carries fanouts down, and a temporary one at most
  // one packet, the answer for the name asked with the server's key.
  lemma ChannelDiscipline(e: Endian, states: seq<Sys>, acts: seq<Action>, n: nat, l: nat)
    requires Behaviour(e, states, acts) && n < |states| && Few(states[n]) && l < |states[n].links|
    ensures var s := states[n];
            var k := s.links[l];
            && (k.owner.Main? ==> forall i :: 0 <= i < |k.down| ==>
                  ReadReply(k.down[i]).Got? && ReadReply(k.down[i]).reply.Fanout?)
            && (k.owner.Temp? ==> |k.down| <= 1 && forall i :: 0 <= i < |k.down| ==>
                  AnswerFor(k.down[i], k.owner.name, s.server.topics))
  {
    hide Behaviour, ReadReply, ReadRequest, ClientsOk, SubsWanted, Wanted, MainUp, CallsOk, MainsOk, Few;
    NamesAlways(e, states, acts, n);
    var s := states[n];
    var k := s.links[l];
    assert LinkOk(k, s.clients, s.server.topics, s.server.subs);
    if k.owner.Main? {
      forall i | 0 <= i < |k.down| ensures ReadReply(k.down[i]).Got? && ReadReply(k.down[i]).reply.Fanout? {
        assert MainDown(k.down[i], s.clients[k.owner.h]);
      }
    }
  }

  // A packet waiting on the main connection is never swallowed by poll.
  lemma PollReturnsMessage(e: Endian, states: seq<Sys>, acts: seq<Action>, n: nat, h: nat)
    requires Behaviour(e, states, acts) && n < |states| && Few(states[n]) && Enabled(states[n], Poll(h))
    ensures var s := states[n];
            var c := s.clients[h];
            var r := Delivered(c.cache, s.links[c.main].down[s.links[c.main].polled]);
            && r.Returned? && r.value.Some? && r.value.value.topic in c.subscribed
            && Next(s, Poll(h)).clients[h].got == c.got + [r.value.value]
  {
    hide Behaviour, ReadReply, ReadRequest, Delivered, SubsWanted, Wanted, MainUp, CallsOk, MainsOk, Few,
      GotOk, Known, Inverse, MainDown;
    NamesAlways(e, states, acts, n);
    var s := states[n];
    var c := s.clients[h];
    assert ClientOk(h, c, s.links, s.server.topics);
    assert LinkOk(s.links[c.main], s.clients, s.server.topics, s.server.subs);
    PollRead(c, s.links[c.main].down[s.links[c.main].polled], s.server.topics);
  }

  // ---------- caches ----------

  lemma {:induction false} TopicsPermanent(e: Endian, states: seq<Sys>, acts: seq<Action>, m: nat, n: nat)
    requires Behaviour(e, states, acts) && m <= n < |states|
    ensures TableGrows(states[m].server.topics, states[n].server.topics)
    ensures states[m].server.topics.keys.Keys <= states[n].server.topics.keys.Keys
  {
    hide Base, Next, Enabled;
    if m < n {
      TopicsPermanent(e, states, acts, m, n - 1);
      BaseAlways(e, states, acts, n - 1);
      assert Moves(states[n - 1], acts[n - 1], states[n]);
      StepTopics(states[n - 1], acts[n - 1]);
    }
  }

  // A cached key is what a fresh lookup at the server would answer, now and at any
  // later time, and asking would change nothing at the server.
  lemma CachedIsFresh(e: Endian, states: seq<Sys>, acts: seq<Action>, m: nat, n: nat, h: nat, name: Bytes)
    requires Behaviour(e, states, acts) && m <= n < |states| && Few(states[n])
    requires h < |states[m].clients| && name in states[m].clients[h].cache.keys
    ensures Resolve(states[n].server.topics, name) == (states[n].server.topics, states[m].clients[h].cache.keys[name])
  {
    hide Base, Next, Enabled, GotOk, LinksOk, CallsOk, Inverse, Behaviour, MainsOk;
    TopicsPermanent(e, states, acts, m, n);
    var s := states[m];
    Smaller(s.server.topics.keys.Keys, states[n].server.topics.keys.Keys);
    NamesAlways(e, states, acts, m);
    assert ClientOk(h, s.clients[h], s.links, s.server.topics);
  }

  // What a client without a cache does with the answer to its request: the end
  // of HearAnswer, whether or not the name was cached when it asked.
  function AnsweredBegin(s: Sys, h: nat, name: Bytes, purpose: Purpose, answer: Bytes): Sys
    requires Idle(s, h) && s.clients[h].main < |s.links|
  {
    var c := Started(s.clients[h], name, purpose);
    var r := Answered(c.cache, Some(answer));
    var c' := c.(cache := CacheAfter(c.cache, r));
    var p := if r.Returned? then Finishing(c.endian, r.value.1, purpose) else None;
    s.(clients := s.clients[h := if r.Returned? then Ended(c', name, purpose) else c'],
       links := s.links[c.main := PutMaybe(s.links[c.main], p)])
  }

  // A call that finds its name cached ends in the very state in which it would
  // end had the client asked the server, whatever the time of the answer: the
  // server would send this answer, and asking would leave its topics alone.
  lemma CachedLikeAsked(e: Endian, states: seq<Sys>, acts: seq<Action>, m: nat, n: nat, h: nat,
                        name: Bytes, purpose: Purpose, c: nat)
    requires Behaviour(e, states, acts) && m <= n < |states| && Few(states[n])
    requires Enabled(states[m], Begin(h, name, purpose)) && name in states[m].clients[h].cache.keys
    requires c in states[n].server.subs
    ensures var s, t := states[m], states[n].server;
            && ReplyTo(t, c, Ask(name), c).Some? && OnMessage(t, c, Ask(name)) == t
            && Next(s, Begin(h, name, purpose))
               == AnsweredBegin(s, h, name, purpose, WriteReply(e, ReplyTo(t, c, Ask(name), c).value))
  {
    hide Behaviour, WriteReply, ReadReply, Finishing, Few, Resolve, CacheOk, Names, Base;
    CachedIsFresh(e, states, acts, m, n, h, name);
    FewEarlier(e, states, acts, m, n);
    CachesCoherent(e, states, acts, m, h);
    var s := states[m];
    var key := s.clients[h].cache.keys[name];
    ReplyRoundTrip(e, Answer(key, name));
    LearnAgain(s.clients[h].cache, s.server.topics, name);
  }

  lemma LearnAgain(c: Cache, t: Table, name: Bytes)
    requires CacheOk(c, t) && name in c.keys
    ensures Learn(c, name, c.keys[name]) == c
  {
    var c' := Learn(c, name, c.keys[name]);
    assert c'.keys == c.keys && c'.names == c.names;
  }

  // The two caches of every client are exact inverses and part of the server's map.
  lemma CachesCoherent(e: Endian, states: seq<Sys>, acts: seq<Action>, n: nat, h: nat)
    requires Behaviour(e, states, acts) && n < |states| && Few(states[n]) && h < |states[n].clients|
    ensures CacheOk(states[n].clients[h].cache, states[n].server.topics)
  {
    hide Behaviour, CacheOk, LinksOk, GotOk, Few, CallsOk, MainsOk;
    NamesAlways(e, states, acts, n);
    var s := states[n];
    assert ClientOk(h, s.clients[h], s.links, s.server.topics);
  }

  // An answered lookup returns what the server's map holds for the name asked, never
  // throws, and leaves the name and its key in both caches.
  lemma LookupReturnsServerKey(e: Endian, states: seq<Sys>, acts: seq<Action>, n: nat, h: nat)
    requires Behaviour(e, states, acts) && n < |states| && Few(states[n]) && Enabled(states[n], HearAnswer(h))
    ensures var s := states[n];
            var c := s.clients[h];
            var k, name := s.links[c.wait.value.link], c.wait.value.name;
            var r := Answered(c.cache, Some(k.down[k.polled]));
            && r.Returned? && Resolve(s.server.topics, name) == (s.server.topics, r.value.1)
            && var c' := Next(s, HearAnswer(h)).clients[h];
               && c'.wait.None? && c'.cache.keys == c.cache.keys[name := r.value.1]
               && c'.cache.names == c.cache.names[r.value.1 := name]
  {
    hide Behaviour, ReadReply, Names, Few, Base, Injective, Finishing;
    NamesAlways(e, states, acts, n);
    BaseAlways(e, states, acts, n);
    var s := states[n];
    FewInjective(s);
    LearnedOk(s, h);
    var w := s.clients[h].wait.value;
    AnswerRead(s.clients[h].cache, s.links[w.link].down[0], w.name, s.server.topics);
  }

  // While a client waits for an answer nothing of it changes, and nothing is sent
  // on its main connection.
  lemma WaitingStays(s: Sys, a: Action, h: nat)
    requires Names(s) && Enabled(s, a) && h < |s.clients| && s.clients[h].wait.Some?
    requires a != HearAnswer(h) && a != GiveUp(h)
    ensures h < |Next(s, a).clients| && Next(s, a).clients[h] == s.clients[h]
    ensures s.clients[h].main < |s.links| <= |Next(s, a).links|
    ensures Next(s, a).links[s.clients[h].main].up == s.links[s.clients[h].main].up
  {
    hide ReadRequest, WriteRequest, Wire, Answered, Delivered, Finishing, CanStep, Step,
      LinksOk, CacheOk, GotOk, CallsOk;
    assert ClientOk(h, s.clients[h], s.links, s.server.topics);
    if a.Begin? || a.HearAnswer? || a.PublishKey? || a.Poll? {
      assert ClientOk(a.h, s.clients[a.h], s.links, s.server.topics);
    }
  }

  // The client h in the middle of a lookup, its main connection as it was.
  predicate InLookup(s: Sys, h: nat, c: Hl, w: Wait, up: seq<Bytes>)
  {
    h < |s.clients| && s.clients[h] == c.(wait := Some(w)) && c.main < |s.links| && s.links[c.main].up == up
  }

  lemma {:induction false} WaitsUntil(e: Endian, states: seq<Sys>, acts: seq<Action>, m: nat, n: nat, h: nat,
                                      c: Hl, w: Wait, up: seq<Bytes>)
    requires Behaviour(e, states, acts) && m <= n < |acts| && Few(states[n])
    requires InLookup(states[m], h, c, w, up)
    requires forall k :: m <= k < n ==> acts[k] != HearAnswer(h) && acts[k] != GiveUp(h)
    ensures InLookup(states[n], h, c, w, up)
  {
    hide Next, Enabled, Names, Base;
    if m < n {
      FewEarlier(e, states, acts, n - 1, n);
      WaitsUntil(e, states, acts, m, n - 1, h, c, w, up);
      assert Moves(states[n - 1], acts[n - 1], states[n]);
      NamesAlways(e, states, acts, n - 1);
      WaitingStays(states[n - 1], acts[n - 1], h);
    }
  }

  lemma FewEarlier(e: Endian, states: seq<Sys>, acts: seq<Action>, m: nat, n: nat)
    requires Behaviour(e, states, acts) && m <= n < |states| && Few(states[n])
    ensures Few(states[m])
  {
    hide Next, Enabled, Behaviour;
    TopicsPermanent(e, states, acts, m, n);
    Smaller(states[m].server.topics.keys.Keys, states[n].server.topics.keys.Keys);
  }

  // A lookup that ends without an answer: from the call to its failure both
  // caches stay as they were, no publish call is recorded and nothing is sent on
  // the main connection.
  lemma FailedLookup(e: Endian, states: seq<Sys>, acts: seq<Action>, m: nat, n: nat, h: nat,
                     name: Bytes, purpose: Purpose)
    requires Behaviour(e, states, acts) && m < n < |acts| && Few(states[n])
    requires acts[m] == Begin(h, name, purpose) && acts[n] == GiveUp(h)
    requires h < |states[m].clients| && name !in states[m].clients[h].cache.keys
    requires forall k :: m < k < n ==> acts[k] != HearAnswer(h) && acts[k] != GiveUp(h)
    ensures h < |states[n + 1].clients|
    ensures var c := states[m].clients[h];
            && states[n + 1].clients[h] == Started(c, name, purpose)
            && c.main < |states[m].links| && c.main < |states[n + 1].links|
            && states[n + 1].links[c.main].up == states[m].links[c.main].up
  {
    hide Next, Enabled, Names, Base, Few;
    assert Moves(states[m], acts[m], states[m + 1]);
    assert Moves(states[n], acts[n], states[n + 1]);
    LookupBegun(states[m], h, name, purpose);
    var c, w := Started(states[m].clients[h], name, purpose), Wait(|states[m].links|, name, purpose);
    WaitsUntil(e, states, acts, m + 1, n, h, c, w, states[m].links[c.main].up);
    GaveUp(states[n], h);
  }

  lemma LookupBegun(s: Sys, h: nat, name: Bytes, purpose: Purpose)
    requires Enabled(s, Begin(h, name, purpose)) && name !in s.clients[h].cache.keys
    ensures h < |s.clients| && s.clients[h].main < |s.links|
    ensures s.clients[h].wait.None?
    ensures InLookup(Next(s, Begin(h, name, purpose)), h, Started(s.clients[h], name, purpose),
                     Wait(|s.links|, name, purpose), s.links[s.clients[h].main].up)
  {
    hide WriteRequest;
  }

  lemma GaveUp(s: Sys, h: nat)
    requires Enabled(s, GiveUp(h))
    ensures h < |s.clients| && s.clients[h].wait.Some?
    ensures Next(s, GiveUp(h)) == s.(clients := s.clients[h := s.clients[h].(wait := None)])
  {
  }

  // ---------- the calls behind a run ----------

  // The latest call by name of client h: what it is looking up, if anything.
  ghost function Asking(acts: seq<Action>, h: nat): Option<(Bytes, Purpose)>
  {
    if acts == [] then None
    else
      var a := acts[|acts| - 1];
      if a.Begin? && a.h == h then Some((a.name, a.purpose)) else Asking(acts[..|acts| - 1], h)
  }

  function CallFor(name: Bytes, purpose: Purpose): seq<Call>
  {
    match purpose
    case JustKey => []
    case ThenPublish(payload) => [ByName(name, payload)]
    case ThenSubscribe => [Subscribing(name)]
  }

  // The call of publish or subscribe of client h that returns in this step, if
  // any: a call by name returns at once when the name is cached, and else with
  // its answer.
  function Returning(cached: bool, a: Action, h: nat, asking: Option<(Bytes, Purpose)>): seq<Call>
  {
    match a
    case PublishKey(g, key, payload) => if g == h then [ByKey(key, payload)] else []
    case Begin(g, name, purpose) => if g == h && cached then CallFor(name, purpose) else []
    case HearAnswer(g) =>
      if g == h && asking.Some? then CallFor(asking.value.0, asking.value.1) else []
    case _ => []
  }

  // The name of this step's call is cached.
  predicate Cached(s: Sys, a: Action)
  {
    a.Begin? && a.h < |s.clients| && a.name in s.clients[a.h].cache.keys
  }

  // Client h's calls of publish and subscribe that have returned by the n-th state, in order.
  ghost function CallsOf(states: seq<Sys>, acts: seq<Action>, n: nat, h: nat): seq<Call>
    requires n < |states| == |acts| + 1
  {
    if n == 0 then []
    else
      CallsOf(states, acts, n - 1, h)
      + Returning(Cached(states[n - 1], acts[n - 1]), acts[n - 1], h, Asking(acts[..n - 1], h))
  }

  function SubscribedBy(a: Action, h: nat): set<Bytes>
  {
    if a.Begin? && a.h == h && a.purpose.ThenSubscribe? then {a.name} else {}
  }

  // The names client h has passed to subscribe.
  ghost function SubscribedNames(acts: seq<Action>, h: nat): set<Bytes>
  {
    if acts == [] then {}
    else SubscribedNames(acts[..|acts| - 1], h) + SubscribedBy(acts[|acts| - 1], h)
  }

  // The histories in the state of client h are these.
  ghost predicate Recorded(s: Sys, h: nat, calls: seq<Call>, names: set<Bytes>, asking: Option<(Bytes, Purpose)>)
  {
    if h < |s.clients| then
      var c := s.clients[h];
      && c.calls == calls && c.subscribed == names
      && (c.wait.Some? ==> asking == Some((c.wait.value.name, c.wait.value.purpose)))
    else
      calls == [] && names == {}
  }

  // The histories a client carries are read off the run's calls alone.
  lemma {:induction false} HistoriesAreCalls(e: Endian, states: seq<Sys>, acts: seq<Action>, n: nat, h: nat)
    requires Behaviour(e, states, acts) && n < |states| && Few(states[n])
    ensures Recorded(states[n], h, CallsOf(states, acts, n, h), SubscribedNames(acts[..n], h), Asking(acts[..n], h))
  {
    hide Next, Enabled, Names, Base, Few, Recorded, Returning, SubscribedBy, Cached;
    if n == 0 {
      InitialRecorded(e, h);
      assert acts[..0] == [];
    } else {
      var s, a, asking := states[n - 1], acts[n - 1], Asking(acts[..n - 1], h);
      FewEarlier(e, states, acts, n - 1, n);
      HistoriesAreCalls(e, states, acts, n - 1, h);
      assert Moves(s, a, states[n]);
      assert acts[..n][..n - 1] == acts[..n - 1];
      NamesAlways(e, states, acts, n - 1);
      BaseAlways(e, states, acts, n - 1);
      OneMoreStep(s, a, h, CallsOf(states, acts, n - 1, h), SubscribedNames(acts[..n - 1], h), asking);
    }
  }

  lemma InitialRecorded(e: Endian, h: nat)
    ensures Recorded(Initial(e), h, [], {}, None)
  {
  }

  lemma OneMoreStep(s: Sys, a: Action, h: nat, calls: seq<Call>, names: set<Bytes>, asking: Option<(Bytes, Purpose)>)
    requires Enabled(s, a) && Names(s) && Base(s) && Few(s) && Recorded(s, h, calls, names, asking)
    ensures Recorded(Next(s, a), h, calls + Returning(Cached(s, a), a, h, asking), names + SubscribedBy(a, h),
                     if a.Begin? && a.h == h then Some((a.name, a.purpose)) else asking)
  {
    hide ReadRequest, WriteRequest, Wire, Answered, Delivered, Finishing, CanStep, Step, Names, Base, Few, Learn;
    if a.HearAnswer? {
      FewInjective(s);
      LearnedOk(s, a.h);
      var w := s.clients[a.h].wait.value;
      AnswerRead(s.clients[a.h].cache, s.links[w.link].down[0], w.name, s.server.topics);
    }
  }

  // What a client has put on its main connection is, in order, one packet for each
  // of its calls of publish and subscribe that have returned: with the payload and
  // key passed, and for a name with the server's key for it.
  lemma SentAreCalls(e: Endian, states: seq<Sys>, acts: seq<Action>, n: nat, h: nat)
    requires Behaviour(e, states, acts) && n < |states| && Few(states[n]) && h < |states[n].clients|
    ensures var s := states[n];
            var calls := CallsOf(states, acts, n, h);
            && s.clients[h].main < |s.links|
            && var sent := ReadAll(s.links[s.clients[h].main].up);
               && |sent| == |calls|
               && forall j :: 0 <= j < |calls| ==> Carried(calls[j], sent[j], s.server.topics)
  {
    hide Behaviour, Few, Base, LinksOk, MainsOk, CacheOk, GotOk, ReadRequest, CallsOf, Carried;
    HistoriesAreCalls(e, states, acts, n, h);
    NamesAlways(e, states, acts, n);
    var s := states[n];
    assert ClientOk(h, s.clients[h], s.links, s.server.topics);
  }

  // ---------- end to end ----------

  // The connection that sent the packet of event n, and the packet's number on it.
  ghost function Sender(trace: seq<Event>, n: nat): nat
    requires n < |trace|
  {
    History.Owner(trace[..n], trace[n].slot)
  }

  ghost function PacketNumber(trace: seq<Event>, n: nat): nat
    requires n < |trace|
  {
    |RequestsOf(trace[..n], Sender(trace, n))|
  }

  // The message is what this call of publish passed.
  predicate Passed(call: Call, g: FanoutMessage)
  {
    match call
    case ByName(name, payload) => g.topic == name && g.payload == payload
    case ByKey(key, payload) => g.topicKey == key && g.payload == payload
    case Subscribing(_) => false
  }

  // Event n of the server is the arrival of a packet that was put on link l as a
  // publish of g; if l belongs to a high-level client, by that client's call.
  ghost predicate CameFrom(s: Sys, l: nat, g: FanoutMessage, n: nat)
  {
    && l < |s.links| && n < |s.trace| && s.links[l].conn != 0 && s.links[l].conn == Sender(s.trace, n)
    && var k, i := s.links[l], PacketNumber(s.trace, n);
       && i < k.taken <= |k.up| && ReadRequest(k.up[i]) == Publish(g.topicKey, g.payload)
       && match k.owner
          case Raw => true
          case Main(h) =>
            h < |s.clients| && i < |s.clients[h].calls| && Passed(s.clients[h].calls[i], g)
          case Temp(_, _) => false
  }

  // Message g is publish o of the server's log, put on a connection as such,
  // under a name the client passed to subscribe, which is the publisher's own
  // name if it published by name.
  ghost predicate Sound(s: Sys, c: Hl, g: FanoutMessage, o: Out)
  {
    && o.reply == Fanout(g.topicKey, g.payload)
    && g.topic in c.subscribed && Known(s.server.topics, g.topic, g.topicKey)
    && exists l :: CameFrom(s, l, g, o.cause)
  }

  // The messages poll has returned to a client are, in order, a prefix of the
  // global publish log filtered by the client's subscriptions, each sound.
  lemma PolledIsFilteredLog(e: Endian, states: seq<Sys>, acts: seq<Action>, n: nat, h: nat)
    requires Behaviour(e, states, acts) && n < |states| && Few(states[n]) && h < |states[n].clients|
    ensures var s := states[n];
            var c := s.clients[h];
            && c.main < |s.links|
            && (forall p :: p in PublishLog(s.trace) ==> p.cause <= |s.trace|)
            && var due := Filtered(s.trace, PublishLog(s.trace), s.links[c.main].conn);
               && (s.links[c.main].conn == 0 ==> c.got == [])
               && (s.links[c.main].conn != 0 ==>
                     |c.got| <= |due| && (forall j :: 0 <= j < |c.got| ==> Sound(s, c, c.got[j], due[j])))
  {
    hide Behaviour, ReadReply, ReadRequest, WriteReply, Stream, Filtered, PublishLog, Few, Base, Names, Sound, OnWire;
    BaseAlways(e, states, acts, n);
    NamesAlways(e, states, acts, n);
    EndianKept(e, states, acts, n);
    var s := states[n];
    var c := s.clients[h];
    MainStream(s, h);
    LogCauses(s.trace);
    var d := s.links[c.main].conn;
    if d != 0 {
      FanoutsAreFilteredLog(s.trace, d);
      var due := Stream(s.trace, d);
      forall j | 0 <= j < |c.got| ensures Sound(s, c, c.got[j], due[j]) {
        GotSound(s, h, j);
      }
    }
  }

  // Of two messages a client has polled from one connection, the one polled first
  // was put on it first; on a high-level client's connection the number of a
  // packet is that of its call, so order is kept and no call is received twice.
  lemma PublisherOrder(e: Endian, states: seq<Sys>, acts: seq<Action>, n: nat, h: nat, a: nat, b: nat, l: nat)
    requires Behaviour(e, states, acts) && n < |states| && Few(states[n]) && h < |states[n].clients|
    requires a < b < |states[n].clients[h].got|
    ensures var s := states[n];
            var c := s.clients[h];
            && c.main < |s.links| && Trace(s.trace)
            && var due := Stream(s.trace, s.links[c.main].conn);
               && |c.got| <= |due|
               && (CameFrom(s, l, c.got[a], due[a].cause) && CameFrom(s, l, c.got[b], due[b].cause) ==>
                     PacketNumber(s.trace, due[a].cause) < PacketNumber(s.trace, due[b].cause))
  {
    hide Behaviour, ReadReply, ReadRequest, WriteReply, Stream, Few, Base, Names, OnWire,
      RequestsOf, History.Owner;
    BaseAlways(e, states, acts, n);
    NamesAlways(e, states, acts, n);
    var s := states[n];
    MainStream(s, h);
    var c := s.clients[h];
    var due := Stream(s.trace, s.links[c.main].conn);
    StreamIncreases(s.trace, s.links[c.main].conn);
    var x, y := due[a].cause, due[b].cause;
    if CameFrom(s, l, c.got[a], x) && CameFrom(s, l, c.got[b], y) {
      CauseIsRequest(s.trace, s.links[c.main].conn, a);
      LaterPacket(s.trace, x, y);
    }
  }

  // Everything a stream holds answers a received packet.
  lemma CauseIsRequest(evs: seq<Event>, d: nat, j: nat)
    requires Trace(evs) && j < |Stream(evs, d)|
    ensures Stream(evs, d)[j].cause < |evs| && evs[Stream(evs, d)[j].cause].Receive?
  {
    hide Stream;
    StreamIsExact(evs, d);
    var o := Stream(evs, d)[j];
    assert Out(o.reply, o.cause) in Stream(evs, d);
  }

  lemma LaterPacket(evs: seq<Event>, x: nat, y: nat)
    requires x < y < |evs| && evs[x].Receive? && Sender(evs, x) == Sender(evs, y)
    ensures PacketNumber(evs, x) < PacketNumber(evs, y)
  {
    hide RequestsOf, History.Owner;
    RequestAt(evs, x);
    RequestsGrow(evs[..y], Sender(evs, x), x + 1);
    assert evs[..y][..x + 1] == evs[..x + 1];
  }

  // A main connection's stream is all fanouts, and the client has read a prefix of it.
  lemma MainStream(s: Sys, h: nat)
    requires Base(s) && Names(s) && h < |s.clients|
    ensures var c := s.clients[h];
            && c.main < |s.links| && Trace(s.trace)
            && var k := s.links[c.main];
               && |c.got| <= |k.down| && (k.conn == 0 ==> k.down == [])
               && (k.conn != 0 ==> k.down == OnWire(s.endian, Stream(s.trace, k.conn)))
               && (k.conn != 0 ==> FanoutsOf(Stream(s.trace, k.conn)) == Stream(s.trace, k.conn))
  {
    hide ReadReply, ReadRequest, WriteReply, Stream, Wanted, MainUp, SubsWanted, Inverse, OnWire,
      RequestsOf, CallsOk, MainsOk;
    var c := s.clients[h];
    assert ClientOk(h, c, s.links, s.server.topics);
    var k := s.links[c.main];
    assert ChannelOk(s.endian, s.trace, k);
    assert LinkOk(k, s.clients, s.server.topics, s.server.subs);
    if k.conn != 0 {
      var outs := Stream(s.trace, k.conn);
      forall o | o in outs ensures o.reply.Fanout? {
        var j :| 0 <= j < |outs| && outs[j] == o;
        OnWireAt(s.endian, outs, j);
        ReplyRoundTrip(s.endian, o.reply);
        assert MainDown(k.down[j], c);
      }
      AllFanouts(outs);
    }
  }

  // The packet behind a publish event, on the link it came from.
  lemma CameFromLink(s: Sys, g: FanoutMessage, n: nat) returns (l: nat)
    requires Base(s) && Names(s) && Few(s) && n < |s.trace|
    requires s.trace[n] == Receive(s.trace[n].slot, Publish(g.topicKey, g.payload))
    requires Known(s.server.topics, g.topic, g.topicKey)
    ensures CameFrom(s, l, g, n)
  {
    hide ReadRequest, ReadReply, Stream, OnWire, Run, RequestsOf, Few, Injective,
      Nonzero, CacheOk, GotOk, MainOk;
    var c, i := Sender(s.trace, n), PacketNumber(s.trace, n);
    SenderNumber(s.trace, n);
    assert HasLink(s.links, c);
    l :| 0 <= l < |s.links| && s.links[l].conn == c;
    var k := s.links[l];
    assert ChannelOk(s.endian, s.trace, k);
    RequestAt(s.trace, n);
    assert ReadAll(k.up[..k.taken])[i] == ReadRequest(k.up[i]);
    assert LinkOk(k, s.clients, s.server.topics, s.server.subs);
    match k.owner
    case Raw =>
    case Temp(_, _) =>
    case Main(h) =>
      assert ClientOk(h, s.clients[h], s.links, s.server.topics);
      FewInjective(s);
      CallBehind(k, i, s.clients[h].calls, g, s.server.topics);
  }

  // The sender of a handled packet is one of the connections made so far.
  lemma SenderNumber(evs: seq<Event>, n: nat)
    requires Trace(evs) && n < |evs| && evs[n].Receive?
    ensures 0 < Sender(evs, n) < Run(evs).nextId
  {
    hide Run, RequestsOf, Asked, Subscribed;
    TracePrefix(evs, n + 1);
    assert Before(evs[..n + 1]) == evs[..n] && Last(evs[..n + 1]) == evs[n];
    StateIsHistory(evs[..n]);
    StateIsHistory(evs);
    OwnerBound(evs[..n], evs[n].slot);
    ConnectsGrow(evs, n);
  }

  lemma {:induction false} ConnectsGrow(evs: seq<Event>, n: nat)
    requires n <= |evs|
    ensures Connects(evs[..n]) <= Connects(evs)
  {
    if n < |evs| {
      ConnectsGrow(Before(evs), n);
      assert Before(evs)[..n] == evs[..n];
    } else {
      assert evs[..n] == evs;
    }
  }

  // A publish packet of a main connection is that of the call of the same number.
  lemma CallBehind(k: Link, i: nat, calls: seq<Call>, g: FanoutMessage, t: Table)
    requires i < |k.up| && CallsOk(calls, k.up, t) && ReadRequest(k.up[i]) == Publish(g.topicKey, g.payload)
    requires Known(t, g.topic, g.topicKey) && Injective(t)
    ensures i < |calls| && Passed(calls[i], g)
  {
    hide ReadRequest;
    assert Carried(calls[i], ReadRequest(k.up[i]), t);
  }

  lemma GotSound(s: Sys, h: nat, j: nat)
    requires Base(s) && Names(s) && Few(s) && h < |s.clients| && j < |s.clients[h].got|
    requires s.clients[h].main < |s.links| && s.links[s.clients[h].main].conn != 0
    ensures Trace(s.trace)
    ensures j < |Stream(s.trace, s.links[s.clients[h].main].conn)|
    ensures Sound(s, s.clients[h], s.clients[h].got[j], Stream(s.trace, s.links[s.clients[h].main].conn)[j])
  {
    hide ReadReply, ReadRequest, WriteReply, Stream, OnWire, LinksOk, Inverse, Base, Few, CallsOk, MainsOk, CameFrom;
    MainStream(s, h);
    var c, t := s.clients[h], s.server.topics;
    assert ClientOk(h, c, s.links, t);
    var k := s.links[c.main];
    var o, g := Stream(s.trace, k.conn)[j], c.got[j];
    OnWireAt(s.endian, Stream(s.trace, k.conn), j);
    ReplyRoundTrip(s.endian, o.reply);
    assert GotOne(g, k.down[j], c, t);
    StreamCause(s.trace, k.conn, j);
    var l := CameFromLink(s, g, o.cause);
  }

  // The event behind a fanout of a stream is the publish of its key and payload.
  lemma StreamCause(evs: seq<Event>, d: nat, j: nat)
    requires Trace(evs) && j < |Stream(evs, d)| && Stream(evs, d)[j].reply.Fanout?
    ensures var o := Stream(evs, d)[j];
            o.cause < |evs| && evs[o.cause].Receive? && evs[o.cause].request == Publish(o.reply.key, o.reply.payload)
  {
    hide Stream;
    StreamIsExact(evs, d);
    var o := Stream(evs, d)[j];
    assert Out(o.reply, o.cause) in Stream(evs, d);
  }
}
