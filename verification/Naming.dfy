// Names, caches and channel discipline: what holds in every reachable state
// with fewer than 2^64 topics, whatever the raw peers send.

module Naming {
  import opened Wrappers
  import opened Protocol
  import opened Messages
  import opened Topics
  import opened ServerSpec
  import opened ClientSpec
  import opened System
  import opened Invariants
  import History

  // ---------- the invariant ----------

  predicate Known(t: Table, name: Bytes, key: Key) { name in t.keys && t.keys[name] == key }

  // The client asked to receive this key's topic and can name it.
  predicate Wanted(c: Hl, key: Key) { key in c.cache.names && c.cache.names[key] in c.subscribed }

  // The caches are inverse to each other and agree with the server.
  ghost predicate CacheOk(c: Cache, t: Table)
  {
    Inverse(c) && forall n :: n in c.keys ==> Known(t, n, c.keys[n])
  }

  // The packet is the one this call has to send.
  predicate Carried(call: Call, r: Request, t: Table)
  {
    match call
    case ByName(name, payload) => r.Publish? && Known(t, name, r.key) && r.payload == payload
    case ByKey(key, payload) => r == Publish(key, payload)
    case Subscribing(name) => r.Subscribe? && Known(t, name, r.key)
  }

  // The packets put on a connection are exactly those of the client's calls, in order.
  ghost predicate CallsOk(calls: seq<Call>, up: seq<Bytes>, t: Table)
  {
    && |up| == |calls|
    && forall j :: 0 <= j < |calls| ==> Carried(calls[j], ReadRequest(up[j]), t)
  }

  // A main connection carries up only publishes, and subscribes to wanted keys;
  // down it carries only fanouts of wanted keys.
  predicate MainUp(m: Bytes, c: Hl)
  {
    var r := ReadRequest(m);
    r.Publish? || (r.Subscribe? && Wanted(c, r.key))
  }

  predicate MainDown(m: Bytes, c: Hl)
  {
    var r := ReadReply(m);
    r.Got? && r.reply.Fanout? && Wanted(c, r.reply.key)
  }

  ghost predicate SubsWanted(k: Link, c: Hl, subs: map<nat, set<Key>>)
  {
    k.conn in subs ==> forall key :: key in subs[k.conn] ==> Wanted(c, key)
  }

  ghost predicate MainOk(k: Link, c: Hl, subs: map<nat, set<Key>>)
  {
    && (forall i :: 0 <= i < |k.up| ==> MainUp(k.up[i], c))
    && (forall i :: 0 <= i < |k.down| ==> MainDown(k.down[i], c))
    && SubsWanted(k, c, subs)
  }

  // A temporary connection carries up one topic request, and down at most one
  // packet: the answer to it, with the server's key. It never subscribes.
  predicate AnswerFor(m: Bytes, name: Bytes, t: Table)
  {
    name in t.keys && ReadReply(m) == Got(Answer(t.keys[name], name))
  }

  ghost predicate TempOk(k: Link, name: Bytes, t: Table, subs: map<nat, set<Key>>)
  {
    && |k.up| == 1 && ReadRequest(k.up[0]) == Ask(name)
    && |k.down| <= k.taken <= 1
    && (forall i :: 0 <= i < |k.down| ==> AnswerFor(k.down[i], name, t))
    && (k.conn in subs ==> subs[k.conn] == {})
  }

  ghost predicate LinkOk(k: Link, clients: seq<Hl>, t: Table, subs: map<nat, set<Key>>)
  {
    match k.owner
    case Raw => true
    case Main(h) => h < |clients| && MainOk(k, clients[h], subs)
    case Temp(_, name) => TempOk(k, name, t, subs)
  }

  // A message the client returned is the packet that was on its connection, under
  // a name it subscribed to, which is the server's name for the key.
  predicate GotOne(g: FanoutMessage, m: Bytes, c: Hl, t: Table)
  {
    && ReadReply(m) == Got(Fanout(g.topicKey, g.payload))
    && g.topic in c.subscribed && Known(t, g.topic, g.topicKey)
  }

  ghost predicate GotOk(c: Hl, k: Link, t: Table)
  {
    && |c.got| == k.polled <= |k.down|
    && forall j :: 0 <= j < |c.got| ==> GotOne(c.got[j], k.down[j], c, t)
  }

  predicate WaitOk(h: nat, c: Hl, w: Wait, links: seq<Link>)
  {
    && w.link < |links| && links[w.link].owner == Temp(h, w.name) && links[w.link].polled == 0
    && w.name !in c.cache.keys && (w.purpose.ThenSubscribe? ==> w.name in c.subscribed)
  }

  ghost predicate ClientOk(h: nat, c: Hl, links: seq<Link>, t: Table)
  {
    && c.main < |links| && links[c.main].owner == Main(h)
    && CacheOk(c.cache, t) && GotOk(c, links[c.main], t) && CallsOk(c.calls, links[c.main].up, t)
    && (c.wait.Some? ==> WaitOk(h, c, c.wait.value, links))
  }

  ghost predicate LinksOk(links: seq<Link>, clients: seq<Hl>, t: Table, subs: map<nat, set<Key>>)
  {
    forall l :: 0 <= l < |links| ==> LinkOk(links[l], clients, t, subs)
  }

  ghost predicate ClientsOk(clients: seq<Hl>, links: seq<Link>, t: Table)
  {
    forall h :: 0 <= h < |clients| ==> ClientOk(h, clients[h], links, t)
  }

  // A client has one main connection.
  predicate MainsOk(links: seq<Link>, clients: seq<Hl>)
  {
    forall l :: 0 <= l < |links| && links[l].owner.Main? ==>
      links[l].owner.h < |clients| && clients[links[l].owner.h].main == l
  }

  ghost predicate Names(s: Sys)
  {
    && LinksOk(s.links, s.clients, s.server.topics, s.server.subs)
    && ClientsOk(s.clients, s.links, s.server.topics)
    && MainsOk(s.links, s.clients)
  }

  predicate Few(s: Sys) { |s.server.topics.keys| < TWO64 }

  // ---------- growth ----------

  ghost predicate TableGrows(t: Table, t': Table)
  {
    forall n :: n in t.keys ==> Known(t', n, t.keys[n])
  }

  ghost predicate Grows(c: Hl, c': Hl)
  {
    forall key :: Wanted(c, key) ==> Wanted(c', key)
  }

  ghost predicate ClientsGrow(clients: seq<Hl>, clients': seq<Hl>)
  {
    |clients| <= |clients'| && forall h :: 0 <= h < |clients| ==> Grows(clients[h], clients'[h])
  }

  lemma MainGrows(k: Link, c: Hl, c': Hl, subs: map<nat, set<Key>>)
    requires MainOk(k, c, subs) && Grows(c, c')
    ensures MainOk(k, c', subs)
  {
    hide ReadRequest, ReadReply, Wanted;
    assert SubsWanted(k, c', subs) by {
      if k.conn in subs {
        forall key | key in subs[k.conn] ensures Wanted(c', key) { assert Wanted(c, key); }
      }
    }
    forall i | 0 <= i < |k.up| ensures MainUp(k.up[i], c') { assert MainUp(k.up[i], c); }
    forall i | 0 <= i < |k.down| ensures MainDown(k.down[i], c') { assert MainDown(k.down[i], c); }
  }

  lemma LinkGrows(k: Link, clients: seq<Hl>, clients': seq<Hl>, t: Table, t': Table, subs: map<nat, set<Key>>)
    requires LinkOk(k, clients, t, subs) && ClientsGrow(clients, clients') && TableGrows(t, t')
    ensures LinkOk(k, clients', t', subs)
  {
    hide ReadRequest, ReadReply, MainOk, Grows;
    match k.owner
    case Raw =>
    case Main(h) => MainGrows(k, clients[h], clients'[h], subs);
    case Temp(_, name) =>
      forall i | 0 <= i < |k.down| ensures AnswerFor(k.down[i], name, t') { assert AnswerFor(k.down[i], name, t); }
  }

  // ---------- frames ----------

  // Nothing a client relies on changes on a link: packets may be added.
  predicate Quiet(k: Link, k': Link)
  {
    k'.owner == k.owner && k'.polled == k.polled && k.down <= k'.down && k'.up == k.up
  }

  lemma CallsKept(calls: seq<Call>, up: seq<Bytes>, t: Table, t': Table)
    requires CallsOk(calls, up, t) && TableGrows(t, t')
    ensures CallsOk(calls, up, t')
  {
    hide ReadRequest;
    forall j | 0 <= j < |calls| ensures Carried(calls[j], ReadRequest(up[j]), t') {
      assert Carried(calls[j], ReadRequest(up[j]), t);
    }
  }

  lemma ClientKept(h: nat, c: Hl, links: seq<Link>, links': seq<Link>, t: Table, t': Table)
    requires ClientOk(h, c, links, t) && TableGrows(t, t') && |links| <= |links'|
    requires Quiet(links[c.main], links'[c.main])
    requires c.wait.Some? ==> Quiet(links[c.wait.value.link], links'[c.wait.value.link])
    ensures ClientOk(h, c, links', t')
  {
    hide ReadReply, Inverse, CallsOk;
    var k, k' := links[c.main], links'[c.main];
    CallsKept(c.calls, k.up, t, t');
    forall j | 0 <= j < |c.got| ensures GotOne(c.got[j], k'.down[j], c, t') {
      assert GotOne(c.got[j], k.down[j], c, t);
    }
  }

  predicate Belongs(k: Link, h: nat) { k.owner == Main(h) || (k.owner.Temp? && k.owner.h == h) }

  // One client changes, together with one of its links.
  lemma Touch(s: Sys, l: nat, k: Link, h: nat, c: Hl)
    requires Names(s) && l < |s.links| && h < |s.clients|
    requires Belongs(s.links[l], h) && k.owner == s.links[l].owner && Grows(s.clients[h], c)
    requires c.main == s.clients[h].main
    requires LinkOk(k, s.clients[h := c], s.server.topics, s.server.subs)
    requires ClientOk(h, c, s.links[l := k], s.server.topics)
    ensures Names(s.(links := s.links[l := k], clients := s.clients[h := c]))
  {
    hide LinkOk, CacheOk, GotOk, Wanted, CallsOk;
    var t, links', clients' := s.server.topics, s.links[l := k], s.clients[h := c];
    GrowsSelf(s.clients);
    forall m | 0 <= m < |links'| ensures LinkOk(links'[m], clients', t, s.server.subs) {
      if m != l {
        LinkGrows(s.links[m], s.clients, clients', t, t, s.server.subs);
      }
    }
    forall g | 0 <= g < |clients'| ensures ClientOk(g, clients'[g], links', t) {
      if g != h {
        assert ClientOk(g, s.clients[g], s.links, t);
        ClientKept(g, s.clients[g], s.links, links', t, t);
      }
    }
  }

  lemma GrowsSelf(clients: seq<Hl>)
    ensures forall h :: 0 <= h < |clients| ==> Grows(clients[h], clients[h])
  {
  }

  // A raw peer's link changes.
  lemma TouchRaw(s: Sys, l: nat, k: Link)
    requires Names(s) && l < |s.links| && s.links[l].owner.Raw? && k.owner.Raw?
    requires LinkOk(k, s.clients, s.server.topics, s.server.subs)
    ensures Names(s.(links := s.links[l := k]))
  {
    hide LinkOk, CacheOk, GotOk, Wanted, CallsOk;
    var t, links' := s.server.topics, s.links[l := k];
    forall g | 0 <= g < |s.clients| ensures ClientOk(g, s.clients[g], links', t) {
      assert ClientOk(g, s.clients[g], s.links, t);
      ClientKept(g, s.clients[g], s.links, links', t, t);
    }
  }

  // A link is added, and one client may change or be added.
  lemma Added(s: Sys, k: Link, clients: seq<Hl>, h: nat)
    requires Names(s) && |s.clients| <= |clients| <= |s.clients| + 1 && ClientsGrow(s.clients, clients)
    requires forall g :: 0 <= g < |s.clients| && g != h ==> clients[g] == s.clients[g]
    requires |clients| == |s.clients| + 1 ==> h == |s.clients|
    requires h < |s.clients| ==> clients[h].main == s.clients[h].main
    requires k.owner.Main? ==> k.owner.h < |clients| && clients[k.owner.h].main == |s.links|
    requires LinkOk(k, clients, s.server.topics, s.server.subs)
    requires h < |clients| ==> ClientOk(h, clients[h], s.links + [k], s.server.topics)
    ensures Names(s.(links := s.links + [k], clients := clients))
  {
    hide LinkOk, CacheOk, GotOk, Wanted, Grows, CallsOk;
    var t, links' := s.server.topics, s.links + [k];
    forall m | 0 <= m < |links'| ensures LinkOk(links'[m], clients, t, s.server.subs) {
      if m < |s.links| {
        LinkGrows(s.links[m], s.clients, clients, t, t, s.server.subs);
      }
    }
    forall g | 0 <= g < |clients| ensures ClientOk(g, clients[g], links', t) {
      if g != h {
        assert ClientOk(g, s.clients[g], s.links, t);
        ClientKept(g, s.clients[g], s.links, links', t, t);
      }
    }
  }
}
