// The naming invariant across the steps of the server.

module ServerSteps {
  import opened Wrappers
  import opened Protocol
  import opened Messages
  import opened Topics
  import opened ServerSpec
  import opened ClientSpec
  import opened System
  import opened Invariants
  import opened Naming
  import opened ClientSteps

  // What a handled packet adds to a link of its sender or of another connection.
  function AfterPacket(e: Endian, server: Server, c: nat, r: Request, k: Link, mine: bool): Link
  {
    var k1 := if mine then k.(taken := k.taken + 1) else k;
    if k.conn == 0 then k1 else k1.(down := k1.down + Wire(e, ReplyTo(server, c, r, k.conn)))
  }

  // The packet is the next one on the sender's own link, and every other link is another connection's.
  predicate Sends1(k: Link, c: nat, r: Request, mine: bool)
  {
    if mine then k.conn == c && k.taken < |k.up| && NextRequest(k) == r else k.conn != c
  }

  lemma TableAfter(server: Server, c: nat, r: Request)
    requires c in server.subs
    ensures TableGrows(server.topics, OnMessage(server, c, r).topics)
  {
  }

  lemma RawAfter(e: Endian, server: Server, c: nat, r: Request, k: Link, mine: bool, clients: seq<Hl>)
    requires c in server.subs && k.owner.Raw? && LinkOk(k, clients, server.topics, server.subs)
    ensures LinkOk(AfterPacket(e, server, c, r, k, mine), clients,
                   OnMessage(server, c, r).topics, OnMessage(server, c, r).subs)
  {
    hide ReadRequest, Wire, Resolve;
  }

  // A main connection gets nothing but a fanout of a wanted key, and its own
  // subscribes add only wanted keys.
  lemma MainAfter(e: Endian, server: Server, c: nat, r: Request, k: Link, mine: bool, hl: Hl)
    requires c in server.subs && c > 0 && MainOk(k, hl, server.subs) && Sends1(k, c, r, mine)
    ensures MainOk(AfterPacket(e, server, c, r, k, mine), hl, OnMessage(server, c, r).subs)
  {
    hide ReadRequest, ReadReply, WriteReply, Resolve;
    var k' := AfterPacket(e, server, c, r, k, mine);
    if mine { assert MainUp(k.up[k.taken], hl); }
    assert SubsWanted(k', hl, OnMessage(server, c, r).subs);
    var reply := ReplyTo(server, c, r, k.conn);
    if k.conn != 0 && reply.Some? {
      ReplyRoundTrip(e, reply.value);
      assert MainDown(WriteReply(e, reply.value), hl);
    }
    forall i | 0 <= i < |k'.down| ensures MainDown(k'.down[i], hl) {
      if i < |k.down| { assert MainDown(k.down[i], hl); }
    }
  }

  // A temporary connection gets nothing but the answer to its one request.
  lemma TempAfter(e: Endian, server: Server, c: nat, r: Request, k: Link, mine: bool, name: Bytes)
    requires c in server.subs && c > 0 && TempOk(k, name, server.topics, server.subs) && Sends1(k, c, r, mine)
    ensures TempOk(AfterPacket(e, server, c, r, k, mine), name,
                   OnMessage(server, c, r).topics, OnMessage(server, c, r).subs)
  {
    hide ReadRequest, ReadReply, WriteReply;
    var k', t' := AfterPacket(e, server, c, r, k, mine), OnMessage(server, c, r).topics;
    TableAfter(server, c, r);
    var reply := ReplyTo(server, c, r, k.conn);
    if mine {
      ReplyRoundTrip(e, Answer(t'.keys[name], name));
    }
    forall i | 0 <= i < |k'.down| ensures AnswerFor(k'.down[i], name, t') {
      if i < |k.down| { assert AnswerFor(k.down[i], name, server.topics); }
    }
  }

  lemma LinkAfter(e: Endian, server: Server, c: nat, r: Request, k: Link, mine: bool, clients: seq<Hl>)
    requires c in server.subs && c > 0 && LinkOk(k, clients, server.topics, server.subs) && Sends1(k, c, r, mine)
    ensures LinkOk(AfterPacket(e, server, c, r, k, mine), clients,
                   OnMessage(server, c, r).topics, OnMessage(server, c, r).subs)
  {
    hide ReadRequest, Wire, MainOk, TempOk, Resolve, NextRequest;
    match k.owner
    case Raw => RawAfter(e, server, c, r, k, mine, clients);
    case Main(h) => MainAfter(e, server, c, r, k, mine, clients[h]);
    case Temp(_, name) => TempAfter(e, server, c, r, k, mine, name);
  }

  // ---------- the three server steps ----------

  ghost predicate AllQuiet(links: seq<Link>, links': seq<Link>)
  {
    |links| <= |links'| && forall m :: 0 <= m < |links| ==> Quiet(links[m], links'[m])
  }

  lemma ClientsKept(clients: seq<Hl>, links: seq<Link>, links': seq<Link>, t: Table, t': Table)
    requires ClientsOk(clients, links, t) && TableGrows(t, t') && AllQuiet(links, links')
    ensures ClientsOk(clients, links', t')
  {
    hide CacheOk, GotOk, TableGrows;
    forall h | 0 <= h < |clients| ensures ClientOk(h, clients[h], links', t') {
      assert ClientOk(h, clients[h], links, t);
      ClientKept(h, clients[h], links, links', t, t');
    }
  }

  // The server has read the next packet of this slot's connection.
  ghost predicate Took(s: Sys, s': Sys, l: nat)
    requires l < |s.links| && s.links[l].taken < |s.links[l].up|
  {
    var c, r := s.links[l].conn, NextRequest(s.links[l]);
    && c > 0 && c in s.server.subs
    && s'.server == OnMessage(s.server, c, r) && |s'.links| == |s.links|
    && forall m :: 0 <= m < |s.links| ==>
         s'.links[m] == AfterPacket(s.endian, s.server, c, r, s.links[m], m == l)
         && Sends1(s.links[m], c, r, m == l)
  }

  lemma TakeShape(s: Sys, slot: nat)
    requires Base(s) && Enabled(s, Take(slot))
    ensures Took(s, Next(s, Take(slot)), s.slots[slot])
  {
    hide ReadRequest, Wire, Run, Trace, Stream, OnWire, OnMessage, ReplyTo;
    SlotAccepted(s, slot);
  }

  lemma TakeLinks(s: Sys, slot: nat)
    requires Base(s) && Names(s) && Enabled(s, Take(slot))
    ensures var s' := Next(s, Take(slot));
            LinksOk(s'.links, s'.clients, s'.server.topics, s'.server.subs) && AllQuiet(s.links, s'.links)
  {
    hide ReadRequest, Wire, Base, Next, LinkOk, OnMessage, ReplyTo, NextRequest, Sends1;
    TakeShape(s, slot);
    var l, s' := s.slots[slot], Next(s, Take(slot));
    var c, r := s.links[l].conn, NextRequest(s.links[l]);
    SameClients(s, slot);
    forall m | 0 <= m < |s.links|
      ensures LinkOk(s'.links[m], s'.clients, s'.server.topics, s'.server.subs)
    {
      LinkAfter(s.endian, s.server, c, r, s.links[m], m == l, s.clients);
    }
  }

  lemma SameClients(s: Sys, slot: nat)
    requires Enabled(s, Take(slot))
    ensures var s' := Next(s, Take(slot));
            var k := s.links[s.slots[slot]];
            && s'.clients == s.clients && s'.trace == s.trace + [Receive(slot, NextRequest(k))]
  {
    hide ReadRequest, Wire;
  }

  lemma TakeOk(s: Sys, slot: nat)
    requires Base(s) && Names(s) && Enabled(s, Take(slot))
    ensures Names(Next(s, Take(slot)))
  {
    hide ReadRequest, Wire, Base, Next, OnMessage, ReplyTo, Sends1, ClientsOk, LinksOk, MainOk, TempOk,
      TableGrows, Known;
    TakeShape(s, slot);
    TakeLinks(s, slot);
    SameClients(s, slot);
    var l, s' := s.slots[slot], Next(s, Take(slot));
    var k := s.links[l];
    var t, t' := s.server.topics, s'.server.topics;
    TableAfter(s.server, k.conn, NextRequest(k));
    ClientsKept(s.clients, s.links, s'.links, t, t');
  }

  // A connection with no subscriptions, or whose subscriptions are unchanged or gone, keeps its link in order.
  lemma SubsChanged(k: Link, k': Link, clients: seq<Hl>, t: Table, subs: map<nat, set<Key>>, subs': map<nat, set<Key>>)
    requires LinkOk(k, clients, t, subs)
    requires k' == k.(conn := k'.conn)
    requires k'.conn in subs' ==>
      subs'[k'.conn] == {} || (k'.conn == k.conn && k.conn in subs && subs'[k.conn] == subs[k.conn])
    ensures LinkOk(k', clients, t, subs')
  {
    hide ReadRequest, ReadReply, MainUp, MainDown, Wanted, AnswerFor;
  }

  lemma AcceptOk(s: Sys, slot: nat, l: nat)
    requires Base(s) && Names(s) && Enabled(s, Accept(slot, l))
    ensures Names(Next(s, Accept(slot, l)))
  {
    hide LinkOk, ClientsOk, Run, Trace, ChannelOk, ServerOk, TableGrows;
    var s', t := Next(s, Accept(slot, l)), s.server.topics;
    TableGrowsSelf(t);
    forall m | 0 <= m < |s.links| ensures LinkOk(s'.links[m], s'.clients, t, s'.server.subs) {
      SubsChanged(s.links[m], s'.links[m], s.clients, t, s.server.subs, s'.server.subs);
    }
    ClientsKept(s.clients, s.links, s'.links, t, t);
  }

  lemma DropOk(s: Sys, slot: nat)
    requires Names(s) && Enabled(s, Drop(slot))
    ensures Names(Next(s, Drop(slot)))
  {
    hide LinkOk, ClientsOk, TableGrows;
    var s', t := Next(s, Drop(slot)), s.server.topics;
    TableGrowsSelf(t);
    forall m | 0 <= m < |s.links| ensures LinkOk(s'.links[m], s'.clients, t, s'.server.subs) {
      SubsChanged(s.links[m], s.links[m], s.clients, t, s.server.subs, s'.server.subs);
    }
  }

  // ---------- every step ----------

  lemma NamesKept(s: Sys, a: Action)
    requires Base(s) && Names(s) && Injective(s.server.topics) && Enabled(s, a)
    ensures Names(Next(s, a))
  {
    hide Names, Next, Base, Injective;
    ZeroUnused(s);
    match a
    case Accept(slot, l) => AcceptOk(s, slot, l);
    case Take(slot) => TakeOk(s, slot);
    case Drop(slot) => DropOk(s, slot);
    case Open(e) => OpenOk(s, e);
    case Begin(h, name, purpose) =>
      if name in s.clients[h].cache.keys {
        BeginKnown(s, h, name, purpose);
      } else {
        BeginLookup(s, h, name, purpose);
      }
    case HearAnswer(h) => HearAnswerOk(s, h);
    case GiveUp(h) => GiveUpOk(s, h);
    case PublishKey(h, key, payload) => PublishKeyOk(s, h, key, payload);
    case Poll(h) => PollOk(s, h);
    case _ => RawOk(s, a);
  }

  lemma ZeroUnused(s: Sys)
    requires Base(s)
    ensures 0 !in s.server.subs
  {
    hide ChannelOk, NumbersOk, Trace;
    assert Consistent(s.server);
  }
}
