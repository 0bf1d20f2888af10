// The naming invariant across the steps of clients and raw peers.

module ClientSteps {
  import opened Wrappers
  import opened Protocol
  import opened Messages
  import opened Topics
  import opened ServerSpec
  import opened ClientSpec
  import opened System
  import opened Invariants
  import opened Naming

  // The packet a client sends once it knows the key is one a main connection may
  // carry, and the one its call has to send.
  lemma FinishingOk(e: Endian, name: Bytes, key: Key, purpose: Purpose, c: Hl)
    requires key in c.cache.names && c.cache.names[key] == name
    requires purpose.ThenSubscribe? ==> name in c.subscribed
    ensures var p := Finishing(e, key, purpose);
            && (p.Some? ==> MainUp(p.value, c)) && (p.None? <==> purpose.JustKey?)
            && (purpose.ThenPublish? ==> ReadRequest(p.value) == Publish(key, purpose.payload))
            && (purpose.ThenSubscribe? ==> ReadRequest(p.value) == Subscribe(key))
  {
    hide WriteRequest, ReadRequest;
    match purpose
    case JustKey =>
    case ThenPublish(payload) => RequestRoundTrip(e, Publish(key, payload));
    case ThenSubscribe => RequestRoundTrip(e, Subscribe(key));
  }

  lemma PutMainOk(k: Link, p: Option<Bytes>, h: nat, clients: seq<Hl>, t: Table, subs: map<nat, set<Key>>)
    requires LinkOk(k, clients, t, subs) && k.owner == Main(h)
    requires p.Some? ==> MainUp(p.value, clients[h])
    ensures LinkOk(PutMaybe(k, p), clients, t, subs)
  {
    hide MainUp, MainDown, Wanted;
    var k' := PutMaybe(k, p);
    forall i | 0 <= i < |k'.up| ensures MainUp(k'.up[i], clients[h]) {
      if i < |k.up| { assert MainUp(k.up[i], clients[h]); }
    }
  }

  lemma CallMade(calls: seq<Call>, up: seq<Bytes>, m: Bytes, call: Call, t: Table)
    requires CallsOk(calls, up, t) && Carried(call, ReadRequest(m), t)
    ensures CallsOk(calls + [call], up + [m], t)
  {
    hide ReadRequest, Carried;
  }

  lemma CallEnded(c: Hl, k: Link, name: Bytes, key: Key, purpose: Purpose, t: Table)
    requires CallsOk(c.calls, k.up, t) && Known(t, name, key)
    requires key in c.cache.names && c.cache.names[key] == name && (purpose.ThenSubscribe? ==> name in c.subscribed)
    ensures CallsOk(Ended(c, name, purpose).calls, PutMaybe(k, Finishing(c.endian, key, purpose)).up, t)
  {
    hide ReadRequest, WriteRequest, CallsOk, MainUp, Finishing;
    FinishingOk(c.endian, name, key, purpose, c);
    var p := Finishing(c.endian, key, purpose);
    match purpose
    case JustKey =>
    case ThenPublish(payload) => CallMade(c.calls, k.up, p.value, ByName(name, payload), t);
    case ThenSubscribe => CallMade(c.calls, k.up, p.value, Subscribing(name), t);
  }

  // A client stays in order when its calls and its main connection grow together.
  lemma ClientCalled(h: nat, c: Hl, c': Hl, links: seq<Link>, k': Link, t: Table)
    requires ClientOk(h, c, links, t) && c' == c.(calls := c'.calls)
    requires k' == links[c.main].(up := k'.up) && CallsOk(c'.calls, k'.up, t)
    ensures ClientOk(h, c', links[c.main := k'], t)
  {
    hide ReadReply, Inverse, CallsOk, Known;
    var k := links[c.main];
    forall j | 0 <= j < |c.got| ensures GotOne(c.got[j], k'.down[j], c', t) {
      assert GotOne(c.got[j], k.down[j], c, t);
    }
  }

  // A client that knows a name's key finishes its call on its main connection.
  lemma Finish(s: Sys, h: nat, c: Hl, name: Bytes, key: Key, purpose: Purpose)
    requires Names(s) && h < |s.clients| && c.main == s.clients[h].main && Grows(s.clients[h], c)
    requires ClientOk(h, c, s.links, s.server.topics)
    requires name in c.cache.keys && c.cache.keys[name] == key
    requires purpose.ThenSubscribe? ==> name in c.subscribed
    ensures var p := Finishing(c.endian, key, purpose);
            Names(s.(links := s.links[c.main := PutMaybe(s.links[c.main], p)],
                     clients := s.clients[h := Ended(c, name, purpose)]))
  {
    hide LinkOk, MainUp, Finishing, Wanted, Known, Grows, GotOk, CallsOk, MainsOk;
    var p, c' := Finishing(c.endian, key, purpose), Ended(c, name, purpose);
    var k, clients', t := s.links[c.main], s.clients[h := c'], s.server.topics;
    KnownByCache(c.cache, t, name);
    FinishingOk(c.endian, name, key, purpose, c);
    CallEnded(c, k, name, key, purpose, t);
    EndedGrows(s.clients[h], c, name, purpose, p);
    assert ClientsGrow(s.clients, clients') by { GrowsSelf(s.clients); }
    TableGrowsSelf(t);
    LinkGrows(k, s.clients, clients', t, t, s.server.subs);
    PutMainOk(k, p, h, clients', t, s.server.subs);
    ClientCalled(h, c, c', s.links, PutMaybe(k, p), t);
    Touch(s, c.main, PutMaybe(k, p), h, c');
  }

  lemma EndedGrows(before: Hl, c: Hl, name: Bytes, purpose: Purpose, p: Option<Bytes>)
    requires Grows(before, c) && (p.Some? ==> MainUp(p.value, c))
    ensures Grows(before, Ended(c, name, purpose)) && (p.Some? ==> MainUp(p.value, Ended(c, name, purpose)))
  {
    hide ReadRequest;
    assert forall key :: Wanted(c, key) <==> Wanted(Ended(c, name, purpose), key);
  }

  lemma TableGrowsSelf(t: Table)
    ensures TableGrows(t, t)
  {
  }

  lemma KnownByCache(c: Cache, t: Table, name: Bytes)
    requires CacheOk(c, t) && name in c.keys
    ensures Known(t, name, c.keys[name]) && c.keys[name] in c.names && c.names[c.keys[name]] == name
  {
  }

  // A client whose subscribed names or finished call change, and nothing else.
  lemma StartedOk(s: Sys, h: nat, name: Bytes, purpose: Purpose)
    requires Names(s) && Idle(s, h)
    ensures var c := Started(s.clients[h], name, purpose);
            Grows(s.clients[h], c) && ClientOk(h, c, s.links, s.server.topics)
  {
    hide ReadReply, Inverse, Known, CallsOk;
    var c, c' := s.clients[h], Started(s.clients[h], name, purpose);
    var k := s.links[c.main];
    assert ClientOk(h, c, s.links, s.server.topics);
    forall j | 0 <= j < |c.got| ensures GotOne(c.got[j], k.down[j], c', s.server.topics) {
      assert GotOne(c.got[j], k.down[j], c, s.server.topics);
    }
  }

  lemma BeginKnown(s: Sys, h: nat, name: Bytes, purpose: Purpose)
    requires Names(s) && Enabled(s, Begin(h, name, purpose)) && name in s.clients[h].cache.keys
    ensures Names(Next(s, Begin(h, name, purpose)))
  {
    hide Names, ClientOk, Finishing, Grows, Ended;
    var c := Started(s.clients[h], name, purpose);
    StartedOk(s, h, name, purpose);
    Finish(s, h, c, name, c.cache.keys[name], purpose);
  }

  lemma BeginLookup(s: Sys, h: nat, name: Bytes, purpose: Purpose)
    requires Names(s) && Enabled(s, Begin(h, name, purpose)) && name !in s.clients[h].cache.keys
    requires 0 !in s.server.subs
    ensures Names(Next(s, Begin(h, name, purpose)))
  {
    hide WriteRequest, ReadRequest, CacheOk, Names, Known, AnswerFor, ReadReply;
    var c := Started(s.clients[h], name, purpose);
    var c' := c.(wait := Some(Wait(|s.links|, name, purpose)));
    var k := TemporaryLink(h, c.endian, name);
    StartedOk(s, h, name, purpose);
    RequestRoundTrip(c.endian, Ask(name));
    var clients' := s.clients[h := c'];
    assert ClientsGrow(s.clients, clients') by { GrowsSelf(s.clients); }
    ClientKept(h, c, s.links, s.links + [k], s.server.topics, s.server.topics) by { TableGrowsSelf(s.server.topics); }
    Added(s, k, clients', h);
  }

  lemma OpenOk(s: Sys, e: Endian)
    requires Names(s) && 0 !in s.server.subs
    ensures Names(Next(s, Open(e)))
  {
    hide Names, Known;
    var k, c := Link(Main(|s.clients|), [], 0, 0, [], 0), Hl(e, |s.links|, EMPTY, None, {}, [], []);
    var clients' := s.clients + [c];
    assert ClientsGrow(s.clients, clients') by { GrowsSelf(s.clients); }
    assert (s.links + [k])[|s.links|] == k;
    Added(s, k, clients', |s.clients|);
  }

  // Learning the server's key for a new name keeps the caches coherent and takes no name away.
  lemma LearnOk(c: Cache, t: Table, name: Bytes)
    requires CacheOk(c, t) && Injective(t) && name in t.keys && name !in c.keys
    ensures CacheOk(Learn(c, name, t.keys[name]), t)
    ensures forall k :: k in c.names ==>
      k in Learn(c, name, t.keys[name]).names && Learn(c, name, t.keys[name]).names[k] == c.names[k]
  {
    var key := t.keys[name];
    forall k | k in c.names ensures k != key { assert Known(t, c.names[k], k); }
    LearnInverse(c, name, key);
  }

  // The packet on a temporary connection is the answer, so get_topic_key returns
  // the server's key: the unexpected-type branch is not taken.
  lemma AnswerRead(c: Cache, m: Bytes, name: Bytes, t: Table)
    requires AnswerFor(m, name, t)
    ensures Answered(c, Some(m)) == Returned((Learn(c, name, t.keys[name]), t.keys[name]))
  {
    hide ReadReply, Learn;
  }

  // The client after its answer, before it goes on.
  function Learned(c: Hl, name: Bytes, key: Key): Hl
  {
    c.(wait := None, cache := Learn(c.cache, name, key))
  }

  // The state after the answer has been read.
  function Heard(s: Sys, h: nat, key: Key): Sys
    requires Waiting(s, h)
  {
    var w := s.clients[h].wait.value;
    s.(links := s.links[w.link := s.links[w.link].(polled := s.links[w.link].polled + 1)],
       clients := s.clients[h := Learned(s.clients[h], w.name, key)])
  }

  lemma LearnedOk(s: Sys, h: nat)
    requires Names(s) && Injective(s.server.topics) && Enabled(s, HearAnswer(h))
    ensures var c, t := s.clients[h], s.server.topics;
            var name := c.wait.value.name;
            && s.links[c.wait.value.link].owner == Temp(h, name)
            && s.links[c.wait.value.link].polled == 0 && AnswerFor(s.links[c.wait.value.link].down[0], name, t)
            && Grows(c, Learned(c, name, t.keys[name])) && Names(Heard(s, h, t.keys[name]))
  {
    hide ReadReply, ReadRequest, CacheOk, Learn, CallsOk, MainsOk;
    var c, t, subs := s.clients[h], s.server.topics, s.server.subs;
    var w := c.wait.value;
    assert ClientOk(h, c, s.links, t);
    assert LinkOk(s.links[w.link], s.clients, t, subs);
    assert AnswerFor(s.links[w.link].down[0], w.name, t);
    var c' := Learned(c, w.name, t.keys[w.name]);
    LearnOk(c.cache, t, w.name);
    var k := s.links[w.link].(polled := 1);
    var m := s.links[c.main];
    forall j | 0 <= j < |c.got| ensures GotOne(c.got[j], m.down[j], c', t) {
      assert GotOne(c.got[j], m.down[j], c, t);
    }
    Touch(s, w.link, k, h, c');
  }

  lemma HearAnswerOk(s: Sys, h: nat)
    requires Names(s) && Injective(s.server.topics) && Enabled(s, HearAnswer(h))
    ensures Names(Next(s, HearAnswer(h)))
  {
    hide Names, ReadReply, LinkOk, Finishing, Grows, CacheOk, GotOk, Known, Ended;
    var c, t := s.clients[h], s.server.topics;
    var w := c.wait.value;
    LearnedOk(s, h);
    var key := t.keys[w.name];
    AnswerRead(c.cache, s.links[w.link].down[0], w.name, t);
    var s1, c1 := Heard(s, h, key), Learned(c, w.name, key);
    HeardClient(s, h);
    SelfGrows(c1);
    Finish(s1, h, c1, w.name, key, w.purpose);
    var c2 := Ended(c1, w.name, w.purpose);
    assert s1.clients[h := c2] == s.clients[h := c2];
  }

  lemma SelfGrows(c: Hl)
    ensures Grows(c, c)
  {
  }

  lemma HeardClient(s: Sys, h: nat)
    requires Names(s) && Enabled(s, HearAnswer(h))
    requires s.clients[h].wait.value.name in s.server.topics.keys
    requires Names(Heard(s, h, s.server.topics.keys[s.clients[h].wait.value.name]))
    ensures var w := s.clients[h].wait.value;
            var s1 := Heard(s, h, s.server.topics.keys[w.name]);
            ClientOk(h, s1.clients[h], s1.links, s.server.topics)
            && (w.purpose.ThenSubscribe? ==> w.name in s1.clients[h].subscribed)
  {
    hide LinkOk, CacheOk, GotOk;
    assert ClientOk(h, s.clients[h], s.links, s.server.topics);
  }

  lemma GiveUpOk(s: Sys, h: nat)
    requires Names(s) && Enabled(s, GiveUp(h))
    ensures Names(Next(s, GiveUp(h)))
  {
    hide ReadReply, ReadRequest, LinkOk, Inverse, CallsOk, MainsOk;
    var c, t := s.clients[h], s.server.topics;
    var c' := c.(wait := None);
    assert ClientOk(h, c, s.links, t);
    var k := s.links[c.main];
    forall j | 0 <= j < |c.got| ensures GotOne(c.got[j], k.down[j], c', t) {
      assert GotOne(c.got[j], k.down[j], c, t);
    }
    assert LinkOk(k, s.clients, t, s.server.subs);
    assert ClientsGrow(s.clients, s.clients[h := c']) by { GrowsSelf(s.clients); }
    TableGrowsSelf(t);
    LinkGrows(k, s.clients, s.clients[h := c'], t, t, s.server.subs);
    assert s.links[c.main := k] == s.links;
    Touch(s, c.main, k, h, c');
  }

  lemma PublishKeyOk(s: Sys, h: nat, key: Key, payload: Bytes)
    requires Names(s) && Enabled(s, PublishKey(h, key, payload))
    ensures Names(Next(s, PublishKey(h, key, payload)))
  {
    hide ReadRequest, WriteRequest, LinkOk, CacheOk, GotOk, CallsOk, MainsOk;
    var c, t := s.clients[h], s.server.topics;
    var m, call := WriteRequest(c.endian, Publish(key, payload)), ByKey(key, payload);
    var k, c' := s.links[c.main], c.(calls := c.calls + [call]);
    RequestRoundTrip(c.endian, Publish(key, payload));
    assert ClientOk(h, c, s.links, t);
    CallMade(c.calls, k.up, m, call, t);
    GotGrows(c, c');
    TableGrowsSelf(t);
    assert ClientsGrow(s.clients, s.clients[h := c']) by { GrowsSelf(s.clients); }
    LinkGrows(k, s.clients, s.clients[h := c'], t, t, s.server.subs);
    PutMainOk(k, Some(m), h, s.clients[h := c'], t, s.server.subs);
    ClientCalled(h, c, c', s.links, Put(k, m), t);
    Touch(s, c.main, Put(k, m), h, c');
  }

  // What poll makes of a packet on a main connection: always a message.
  lemma PollRead(c: Hl, m: Bytes, t: Table)
    requires MainDown(m, c) && CacheOk(c.cache, t)
    ensures var r := Delivered(c.cache, m);
            r.Returned? && r.value.Some? && GotOne(r.value.value, m, c, t)
  {
    hide ReadReply;
  }

  lemma PollOk(s: Sys, h: nat)
    requires Names(s) && Enabled(s, Poll(h))
    ensures Names(Next(s, Poll(h)))
  {
    hide ReadReply, ReadRequest, Delivered, Inverse, MainUp, Wanted, Known, CallsOk, MainsOk;
    var c, t, subs := s.clients[h], s.server.topics, s.server.subs;
    var k := s.links[c.main];
    assert ClientOk(h, c, s.links, t);
    assert LinkOk(k, s.clients, t, subs);
    PollRead(c, k.down[k.polled], t);
    var msg := Delivered(c.cache, k.down[k.polled]).value.value;
    var c', k' := c.(got := c.got + [msg]), k.(polled := k.polled + 1);
    GotMore(c, k, t, msg);
    GotGrows(c, c');
    var clients' := s.clients[h := c'];
    MainGrows(k', c, c', subs);
    Touch(s, c.main, k', h, c');
  }

  lemma GotGrows(c: Hl, c': Hl)
    requires c'.cache == c.cache && c'.subscribed == c.subscribed
    ensures Grows(c, c')
  {
  }

  lemma GotMore(c: Hl, k: Link, t: Table, msg: FanoutMessage)
    requires GotOk(c, k, t) && Readable(k) && GotOne(msg, k.down[k.polled], c, t)
    ensures GotOk(c.(got := c.got + [msg]), k.(polled := k.polled + 1), t)
  {
    hide ReadReply, Known;
    var c' := c.(got := c.got + [msg]);
    forall j | 0 <= j < |c'.got| ensures GotOne(c'.got[j], k.down[j], c', t) {
      if j < |c.got| { assert GotOne(c.got[j], k.down[j], c, t); }
    }
  }

  lemma RawOk(s: Sys, a: Action)
    requires Names(s) && Enabled(s, a) && (a.RawOpen? || a.RawSend? || a.RawRead?)
    ensures Names(Next(s, a))
  {
    hide ReadRequest, MainOk, TempOk, CacheOk, GotOk, CallsOk;
    match a
    case RawOpen =>
      assert ClientsGrow(s.clients, s.clients) by { GrowsSelf(s.clients); }
      Added(s, Link(Raw, [], 0, 0, [], 0), s.clients, |s.clients|);
    case RawSend(l, bytes) =>
      TouchRaw(s, l, Put(s.links[l], bytes));
    case RawRead(l) =>
      assert LinkOk(s.links[l], s.clients, s.server.topics, s.server.subs);
      TouchRaw(s, l, s.links[l].(polled := s.links[l].polled + 1));
  }
}
