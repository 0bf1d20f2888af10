// What every reachable state of the system satisfies, step by step.

module Invariants {
  import opened Wrappers
  import opened Protocol
  import opened Messages
  import opened Topics
  import opened ServerSpec
  import opened ClientSpec
  import opened System
  import History

  // ---------- the server and the connections ----------

  // The server is in the state its trace leads to, and ENet's slots and the
  // server's peers name the same connections.
  ghost predicate ServerOk(s: Sys)
  {
    && Trace(s.trace) && s.server == Run(s.trace)
    && SlotsAgree(s.slots, s.server.peer, s.links)
  }

  ghost predicate SlotsAgree(slots: map<nat, nat>, peer: map<nat, nat>, links: seq<Link>)
  {
    && slots.Keys == peer.Keys
    && (forall slot :: slot in slots ==> slots[slot] < |links| && links[slots[slot]].conn == peer[slot])
  }

  // Connection numbers are given once, and each to a link.
  ghost predicate NumbersOk(s: Sys) { Numbered(s.links, s.server.nextId) }

  ghost predicate Numbered(links: seq<Link>, nextId: nat)
  {
    && (forall l :: 0 <= l < |links| ==> links[l].conn < nextId)
    && (forall l, m :: 0 <= l < m < |links| && links[l].conn == links[m].conn ==> links[l].conn == 0)
    && (forall c :: 0 < c < nextId ==> HasLink(links, c))
  }

  predicate HasLink(links: seq<Link>, c: nat)
  {
    exists l :: 0 <= l < |links| && links[l].conn == c
  }

  predicate SameConns(links: seq<Link>, links': seq<Link>)
  {
    |links'| == |links| && forall m :: 0 <= m < |links| ==> links'[m].conn == links[m].conn
  }

  lemma ConnsKept(slots: map<nat, nat>, peer: map<nat, nat>, links: seq<Link>, links': seq<Link>, nextId: nat)
    requires SlotsAgree(slots, peer, links) && Numbered(links, nextId) && SameConns(links, links')
    ensures SlotsAgree(slots, peer, links') && Numbered(links', nextId)
  {
    LinksKept(links, links', nextId);
  }

  lemma SlotDropped(slots: map<nat, nat>, peer: map<nat, nat>, links: seq<Link>, slot: nat)
    requires SlotsAgree(slots, peer, links)
    ensures SlotsAgree(slots - {slot}, peer - {slot}, links)
  {
  }

  function ReadAll(packets: seq<Bytes>): (r: seq<Request>)
    ensures |r| == |packets| && forall i :: 0 <= i < |packets| ==> r[i] == ReadRequest(packets[i])
  {
    seq(|packets|, i requires 0 <= i < |packets| => ReadRequest(packets[i]))
  }

  // A connection carries down exactly the packets the server's history makes due
  // on it; each end has read a prefix of what was put on, and what the server has
  // read is what its history has from this connection.
  ghost predicate ChannelOk(e: Endian, trace: seq<Event>, k: Link)
    requires Trace(trace)
  {
    && k.taken <= |k.up| && k.polled <= |k.down|
    && k.down == (if k.conn == 0 then [] else OnWire(e, Stream(trace, k.conn)))
    && (k.conn == 0 ==> k.taken == 0)
    && (k.conn != 0 ==> History.RequestsOf(trace, k.conn) == ReadAll(k.up[..k.taken]))
  }

  ghost predicate Base(s: Sys)
  {
    && ServerOk(s) && NumbersOk(s)
    && (forall l :: 0 <= l < |s.links| ==> ChannelOk(s.endian, s.trace, s.links[l]))
  }

  lemma InitialBase(e: Endian)
    ensures Base(Initial(e))
  {
  }

  // A link keeps its number and its downward channel.
  predicate SameDown(k: Link, k': Link)
  {
    && k'.conn == k.conn && k'.down == k.down && k'.taken == k.taken && k.up <= k'.up
    && k.polled <= k'.polled <= |k.down|
  }

  // Steps of clients and raw peers: the server is not involved, present links
  // keep what the server did on them, and new links are not yet accepted.
  predicate ClientStep(s: Sys, s': Sys)
  {
    && s'.endian == s.endian && s'.server == s.server && s'.slots == s.slots
    && s'.trace == s.trace
    && |s.links| <= |s'.links| && |s.clients| <= |s'.clients|
    && (forall l :: 0 <= l < |s.links| ==> SameDown(s.links[l], s'.links[l]))
    && (forall l :: |s.links| <= l < |s'.links| ==> NewLink(s'.links[l]))
  }

  predicate NewLink(k: Link)
  {
    k.conn == 0 && k.taken == 0 && k.polled == 0 && k.down == []
  }

  predicate IsServerStep(a: Action) { a.Accept? || a.Take? || a.Drop? }

  // Both ends have read no more than there is.
  predicate Bounded(links: seq<Link>)
  {
    forall l :: 0 <= l < |links| ==> links[l].polled <= |links[l].down|
  }

  lemma ReplaceLink(s: Sys, l: nat, k: Link, clients: seq<Hl>)
    requires Bounded(s.links) && l < |s.links| && SameDown(s.links[l], k) && |s.clients| <= |clients|
    ensures ClientStep(s, s.(links := s.links[l := k], clients := clients))
  {
  }

  lemma AddLink(s: Sys, k: Link, clients: seq<Hl>)
    requires Bounded(s.links) && NewLink(k) && |s.clients| <= |clients|
    ensures ClientStep(s, s.(links := s.links + [k], clients := clients))
  {
  }

  lemma ClientStepShape(s: Sys, a: Action)
    requires Bounded(s.links) && Enabled(s, a) && !IsServerStep(a)
    ensures ClientStep(s, Next(s, a))
  {
    hide Answered, Delivered, Finishing, WriteRequest, ClientStep;
    var s' := Next(s, a);
    match a
    case RawOpen => AddLink(s, s'.links[|s.links|], s.clients);
    case RawSend(l, _) => ReplaceLink(s, l, s'.links[l], s.clients);
    case RawRead(l) => ReplaceLink(s, l, s'.links[l], s.clients);
    case Open(_) => AddLink(s, s'.links[|s.links|], s'.clients);
    case Begin(h, name, _) =>
      if name in s.clients[h].cache.keys {
        ReplaceLink(s, s.clients[h].main, s'.links[s.clients[h].main], s'.clients);
      } else {
        AddLink(s, s'.links[|s.links|], s'.clients);
      }
    case HearAnswer(h) => HearAnswerShape(s, h);
    case GiveUp(h) => SameLinks(s, s'.clients);
    case PublishKey(h, _, _) => ReplaceLink(s, s.clients[h].main, s'.links[s.clients[h].main], s'.clients);
    case Poll(h) => ReplaceLink(s, s.clients[h].main, s'.links[s.clients[h].main], s'.clients);
  }

  lemma SameLinks(s: Sys, clients: seq<Hl>)
    requires Bounded(s.links) && |s.clients| <= |clients|
    ensures ClientStep(s, s.(clients := clients))
  {
  }

  lemma HearAnswerShape(s: Sys, h: nat)
    requires Bounded(s.links) && Enabled(s, HearAnswer(h))
    ensures ClientStep(s, Next(s, HearAnswer(h)))
  {
    hide Answered, Finishing, WriteRequest;
    var s' := Next(s, HearAnswer(h));
    forall l | 0 <= l < |s.links| ensures SameDown(s.links[l], s'.links[l]) {
    }
  }

  lemma LinksKept(links: seq<Link>, links': seq<Link>, nextId: nat)
    requires |links| <= |links'| && forall l :: 0 <= l < |links| ==> links'[l].conn == links[l].conn
    requires forall c :: 0 < c < nextId ==> HasLink(links, c)
    ensures forall c :: 0 < c < nextId ==> HasLink(links', c)
  {
    forall c | 0 < c < nextId ensures HasLink(links', c) {
      assert HasLink(links, c);
      var l :| 0 <= l < |links| && links[l].conn == c;
      assert links'[l].conn == c;
    }
  }

  lemma ClientStepBase(s: Sys, s': Sys)
    requires Base(s) && ClientStep(s, s')
    ensures Base(s')
  {
    hide OnWire, Stream, Run, Trace, ReadAll, HasLink, History.RequestsOf;
    assert s.server.nextId > 0;
    LinksKept(s.links, s'.links, s.server.nextId);
    forall l | 0 <= l < |s'.links| ensures ChannelOk(s'.endian, s'.trace, s'.links[l]) {
      if l < |s.links| {
        assert SameDown(s.links[l], s'.links[l]);
        assert s'.links[l].up[..s.links[l].taken] == s.links[l].up[..s.links[l].taken];
      } else {
        assert NewLink(s'.links[l]);
      }
    }
  }

  // Both ends of a link see what the server sends on this event and no more.
  predicate Carries(e: Endian, server: Server, ev: Event, k: Link, k': Link)
    requires Possible(server, ev)
  {
    && k'.conn == k.conn && k'.polled == k.polled && k'.up == k.up && k'.taken <= |k.up|
    && k'.down == k.down + (if k.conn == 0 then [] else Wire(e, Sends(server, ev, k.conn)))
    && (if k.conn != 0 && ev.Receive? && server.peer[ev.slot] == k.conn
        then k'.taken == k.taken + 1 && ev.request == ReadRequest(k.up[k.taken])
        else k'.taken == k.taken)
  }

  lemma RequestRead(trace: seq<Event>, ev: Event, c: nat)
    requires Trace(trace) && Possible(Run(trace), ev) && c != 0
    ensures History.RequestsOf(trace + [ev], c) == History.RequestsOf(trace, c) +
              if ev.Receive? && Run(trace).peer[ev.slot] == c then [ev.request] else []
  {
    hide Run, Trace;
    History.StateIsHistory(trace);
    assert Before(trace + [ev]) == trace;
  }

  lemma ReadOneMore(up: seq<Bytes>, n: nat)
    requires n < |up|
    ensures ReadAll(up[..n + 1]) == ReadAll(up[..n]) + [ReadRequest(up[n])]
  {
    hide ReadRequest;
  }

  // One event keeps a channel exact when it puts on the link what the server sends.
  lemma ChannelAfter(e: Endian, trace: seq<Event>, ev: Event, k: Link, k': Link)
    requires Trace(trace) && Possible(Run(trace), ev) && ChannelOk(e, trace, k)
    requires Carries(e, Run(trace), ev, k, k')
    ensures Trace(trace + [ev]) && ChannelOk(e, trace + [ev], k')
  {
    hide OnWire, Wire, Stream, Run, Trace, ReadRequest, History.RequestsOf, ReadAll;
    RunExtended(trace, ev, k.conn);
    OnWireExtended(e, Stream(trace, k.conn), Sends(Run(trace), ev, k.conn), |trace|);
    if k.conn != 0 {
      RequestRead(trace, ev, k.conn);
      if k'.taken == k.taken + 1 {
        ReadOneMore(k.up, k.taken);
      }
    }
  }

  // The server's side of an event.
  ghost predicate Handles(s: Sys, s': Sys, ev: Event)
  {
    && CanStep(s.server, ev) && s'.server == Step(s.server, ev) && s'.trace == s.trace + [ev]
    && |s'.links| == |s.links| && s'.endian == s.endian
  }

  lemma ServerAfter(s: Sys, s': Sys, ev: Event)
    requires ServerOk(s) && Handles(s, s', ev)
    ensures Trace(s'.trace) && s'.server == Run(s'.trace)
    ensures Consistent(s.server)
  {
    hide Stream, Step, Wire;
    RunExtended(s.trace, ev, 0);
  }

  lemma ChannelsAfter(s: Sys, s': Sys, ev: Event)
    requires Base(s) && Handles(s, s', ev)
    requires forall m :: 0 <= m < |s.links| ==> Carries(s.endian, s.server, ev, s.links[m], s'.links[m])
    ensures Trace(s'.trace)
    ensures forall m :: 0 <= m < |s'.links| ==> ChannelOk(s'.endian, s'.trace, s'.links[m])
  {
    hide OnWire, Wire, Stream, Run, Trace, Carries, ChannelOk, Step, NumbersOk;
    ServerAfter(s, s', ev);
    forall m | 0 <= m < |s'.links| ensures ChannelOk(s'.endian, s'.trace, s'.links[m]) {
      ChannelAfter(s.endian, s.trace, ev, s.links[m], s'.links[m]);
    }
  }

  lemma AcceptBase(s: Sys, slot: nat, l: nat)
    requires Base(s) && Enabled(s, Accept(slot, l))
    ensures Base(Next(s, Accept(slot, l)))
  {
    hide OnWire, Stream, Run, Trace, ChannelOk, Next, Enabled;
    AcceptServer(s, slot, l);
    AcceptChannels(s, slot, l);
  }

  lemma AcceptServer(s: Sys, slot: nat, l: nat)
    requires ServerOk(s) && NumbersOk(s) && Enabled(s, Accept(slot, l))
    ensures ServerOk(Next(s, Accept(slot, l))) && NumbersOk(Next(s, Accept(slot, l)))
  {
    hide Run, Trace, Stream, Wire, SlotsAgree, Numbered;
    var s' := Next(s, Accept(slot, l));
    ServerAfter(s, s', Connect(slot));
    ConnAdded(s.slots, s.server.peer, s.links, slot, l, s.server.nextId);
  }

  lemma ConnAdded(slots: map<nat, nat>, peer: map<nat, nat>, links: seq<Link>, slot: nat, l: nat, nextId: nat)
    requires SlotsAgree(slots, peer, links) && Numbered(links, nextId)
    requires l < |links| && links[l].conn == 0 && slot !in slots && nextId > 0
    requires forall k :: k in peer ==> peer[k] > 0
    ensures SlotsAgree(slots[slot := l], peer[slot := nextId], links[l := links[l].(conn := nextId)])
    ensures Numbered(links[l := links[l].(conn := nextId)], nextId + 1)
  {
    var slots', links' := slots[slot := l], links[l := links[l].(conn := nextId)];
    forall k | k in slots' ensures slots'[k] < |links'| && links'[slots'[k]].conn == peer[slot := nextId][k] {
      if k != slot {
        assert slots[k] != l;
      }
    }
    forall c | 0 < c < nextId + 1 ensures HasLink(links', c) {
      if c == nextId {
        assert links'[l].conn == c;
      } else {
        assert HasLink(links, c);
        var m :| 0 <= m < |links| && links[m].conn == c;
        assert links'[m].conn == c;
      }
    }
  }

  lemma AcceptChannels(s: Sys, slot: nat, l: nat)
    requires Base(s) && Enabled(s, Accept(slot, l))
    ensures var s' := Next(s, Accept(slot, l));
            Trace(s'.trace) && forall m :: 0 <= m < |s'.links| ==> ChannelOk(s'.endian, s'.trace, s'.links[m])
  {
    hide OnWire, Wire, Stream, Run, Trace, NumbersOk;
    var ev, s' := Connect(slot), Next(s, Accept(slot, l));
    ServerAfter(s, s', ev);
    forall m | 0 <= m < |s'.links| ensures ChannelOk(s'.endian, s'.trace, s'.links[m]) {
      if m == l {
        NewChannel(s.endian, s.trace, ev);
      } else {
        Untouched(s.endian, s.server, ev, s.links[m]);
        ChannelAfter(s.endian, s.trace, ev, s.links[m], s'.links[m]);
      }
    }
  }

  // Connects and disconnects put nothing on a link.
  lemma Untouched(e: Endian, server: Server, ev: Event, k: Link)
    requires Possible(server, ev) && !ev.Receive? && k.taken <= |k.up|
    ensures Carries(e, server, ev, k, k)
  {
    NothingSent(e, server, ev, k.conn);
    assert k.down + [] == k.down;
  }

  lemma NothingSent(e: Endian, server: Server, ev: Event, d: nat)
    requires Possible(server, ev) && !ev.Receive?
    ensures Wire(e, Sends(server, ev, d)) == []
  {
    hide WriteReply;
  }

  lemma NewChannel(e: Endian, trace: seq<Event>, ev: Event)
    requires Trace(trace) && Possible(Run(trace), ev) && ev.Connect?
    ensures Trace(trace + [ev]) && OnWire(e, Stream(trace + [ev], Run(trace).nextId)) == []
    ensures History.RequestsOf(trace + [ev], Run(trace).nextId) == []
  {
    hide WriteReply;
    History.StateIsHistory(trace);
    History.NoRequestsYet(trace, Run(trace).nextId);
    assert Before(trace + [ev]) == trace;
    StreamEmpty(trace, Run(trace).nextId);
    RunExtended(trace, ev, Run(trace).nextId);
  }

  lemma TakeBase(s: Sys, slot: nat)
    requires Base(s) && Enabled(s, Take(slot))
    ensures Base(Next(s, Take(slot)))
  {
    hide OnWire, Wire, Stream, Run, Trace, ChannelOk, Next, Enabled, NextRequest;
    TakeServer(s, slot);
    TakeCarries(s, slot);
    ChannelsAfter(s, Next(s, Take(slot)), Receive(slot, NextRequest(s.links[s.slots[slot]])));
  }

  lemma TakeServer(s: Sys, slot: nat)
    requires ServerOk(s) && NumbersOk(s) && Enabled(s, Take(slot))
    ensures ServerOk(Next(s, Take(slot))) && NumbersOk(Next(s, Take(slot)))
  {
    hide Run, Trace, Wire, ReadRequest, SlotsAgree, Numbered, Step;
    var ev, s' := Receive(slot, NextRequest(s.links[s.slots[slot]])), Next(s, Take(slot));
    ServerAfter(s, s', ev);
    ReceiveKeepsPeers(s.server, ev);
    ConnsKept(s.slots, s.server.peer, s.links, s'.links, s.server.nextId);
  }

  lemma ReceiveKeepsPeers(server: Server, ev: Event)
    requires CanStep(server, ev) && ev.Receive?
    ensures Step(server, ev).peer == server.peer && Step(server, ev).nextId == server.nextId
  {
  }

  lemma TakeCarries(s: Sys, slot: nat)
    requires Base(s) && Enabled(s, Take(slot))
    ensures slot in s.slots && s.slots[slot] < |s.links| && s.links[s.slots[slot]].taken < |s.links[s.slots[slot]].up|
    ensures var ev, s' := Receive(slot, NextRequest(s.links[s.slots[slot]])), Next(s, Take(slot));
            && Handles(s, s', ev)
            && forall m :: 0 <= m < |s.links| ==> Carries(s.endian, s.server, ev, s.links[m], s'.links[m])
  {
    hide OnWire, Wire, Stream, Run, Trace, ReadRequest, Step, HasLink, Carries;
    var l := s.slots[slot];
    var ev, s' := Receive(slot, NextRequest(s.links[l])), Next(s, Take(slot));
    SlotAccepted(s, slot);
    forall m | 0 <= m < |s.links| ensures Carries(s.endian, s.server, ev, s.links[m], s'.links[m]) {
      var k := if m == l then s.links[l].(taken := s.links[l].taken + 1) else s.links[m];
      assert s'.links[m] == Sending(s.endian, s.server, ev, k);
      assert ChannelOk(s.endian, s.trace, s.links[m]);
      assert s.links[m].conn == s.links[l].conn <==> m == l;
      OneCarried(s.endian, s.server, ev, s.links[m], m == l);
    }
  }

  // A received packet is the next on its own link; other links are only sent to.
  lemma OneCarried(e: Endian, server: Server, ev: Event, k: Link, mine: bool)
    requires Possible(server, ev) && ev.Receive? && k.taken <= |k.up| && (mine <==> k.conn == server.peer[ev.slot])
    requires mine ==> k.conn != 0 && k.taken < |k.up| && ev.request == ReadRequest(k.up[k.taken])
    ensures Carries(e, server, ev, k, Sending(e, server, ev, if mine then k.(taken := k.taken + 1) else k))
  {
    hide ReadRequest, Wire, Sends;
    assert k.down + [] == k.down;
  }

  lemma SlotAccepted(s: Sys, slot: nat)
    requires ServerOk(s) && slot in s.slots
    ensures s.links[s.slots[slot]].conn != 0
    ensures s.links[s.slots[slot]].conn == s.server.peer[slot] && s.server.peer[slot] in s.server.subs
  {
    hide Run, Trace;
    assert Consistent(s.server);
  }

  lemma DropBase(s: Sys, slot: nat)
    requires Base(s) && Enabled(s, Drop(slot))
    ensures Base(Next(s, Drop(slot)))
  {
    hide OnWire, Wire, Stream, Run, Trace, ChannelOk, Next, Enabled;
    DropServer(s, slot);
    DropCarries(s, slot);
    ChannelsAfter(s, Next(s, Drop(slot)), Disconnect(slot));
  }

  lemma DropServer(s: Sys, slot: nat)
    requires ServerOk(s) && NumbersOk(s) && Enabled(s, Drop(slot))
    ensures ServerOk(Next(s, Drop(slot))) && NumbersOk(Next(s, Drop(slot)))
  {
    hide Run, Trace, SlotsAgree, Numbered;
    ServerAfter(s, Next(s, Drop(slot)), Disconnect(slot));
    SlotDropped(s.slots, s.server.peer, s.links, slot);
  }

  lemma DropCarries(s: Sys, slot: nat)
    requires Base(s) && Enabled(s, Drop(slot))
    ensures var ev, s' := Disconnect(slot), Next(s, Drop(slot));
            && Handles(s, s', ev)
            && forall m :: 0 <= m < |s.links| ==> Carries(s.endian, s.server, ev, s.links[m], s'.links[m])
  {
    hide OnWire, Wire, Stream, Run, Trace, NumbersOk, Step, Carries;
    forall m | 0 <= m < |s.links| ensures Carries(s.endian, s.server, Disconnect(slot), s.links[m], s.links[m]) {
      Untouched(s.endian, s.server, Disconnect(slot), s.links[m]);
    }
  }

  lemma BaseKept(s: Sys, a: Action)
    requires Base(s) && Enabled(s, a)
    ensures Base(Next(s, a))
  {
    hide Next, Enabled;
    match a
    case Accept(slot, l) => AcceptBase(s, slot, l);
    case Take(slot) => TakeBase(s, slot);
    case Drop(slot) => DropBase(s, slot);
    case _ =>
      BaseBounded(s);
      ClientStepShape(s, a);
      ClientStepBase(s, Next(s, a));
  }

  lemma BaseBounded(s: Sys)
    requires Base(s)
    ensures Bounded(s.links)
  {
    hide OnWire, Stream;
  }
}
