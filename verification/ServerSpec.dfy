// The broker as a function of the events ENet reports to it
// (src/spraybus/server/server.cpp, include/spraybus/networking/server/server.hpp).

module ServerSpec {
  import opened Wrappers
  import opened Protocol
  import opened Messages
  import opened Topics

  // An ENet event at one of the host's peer slots.
  datatype Event =
    | Connect(slot: nat)
    | Receive(slot: nat, request: Request)
    | Disconnect(slot: nat)

  // enet_host_create(&m_address, 8, ...)
  const MAX_PEERS: nat := 8

  // peer maps each connected slot to the id of its client record; subs holds
  // the subscribed topic keys of each live record.
  datatype Server = Server(topics: Table, nextId: nat, peer: map<nat, nat>, subs: map<nat, set<Key>>)

  const START: Server := Server(NO_TOPICS, 1, map[], map[])

  // What a packet from client c does to the state.
  function OnMessage(s: Server, c: nat, r: Request): Server
    requires c in s.subs
  {
    match r
    case Ask(name) => s.(topics := Resolve(s.topics, name).0)
    case Subscribe(key) => s.(subs := s.subs[c := s.subs[c] + {key}])
    case Unsubscribe(key) => s.(subs := s.subs[c := s.subs[c] - {key}])
    case Publish(_, _) => s
    case Ignored => s
  }

  // What a packet does to its sender's subscriptions.
  function TopicsOf(topics: set<Key>, r: Request): set<Key>
  {
    match r
    case Subscribe(key) => topics + {key}
    case Unsubscribe(key) => topics - {key}
    case _ => topics
  }

  // What a packet from client c makes the server send to client d, if anything.
  function ReplyTo(s: Server, c: nat, r: Request, d: nat): Option<Reply>
  {
    match r
    case Ask(name) => if d == c then Some(Answer(Resolve(s.topics, name).1, name)) else None
    case Publish(key, payload) =>
      if d != c && d in s.subs && key in s.subs[d] then Some(Fanout(key, payload)) else None
    case _ => None
  }

  // ENet's promise about the next event: a slot connects when it is free, and
  // receives or disconnects only while connected.
  predicate Possible(s: Server, ev: Event)
  {
    ev.slot < MAX_PEERS && (ev.Connect? <==> ev.slot !in s.peer)
  }

  // The event can be handled: it is possible and its slot has a live record.
  predicate CanStep(s: Server, ev: Event)
  {
    Possible(s, ev) && (ev.slot in s.peer ==> s.peer[ev.slot] in s.subs)
  }

  ghost predicate Consistent(s: Server)
  {
    && s.nextId > 0
    && (forall slot :: slot in s.peer ==> slot < MAX_PEERS && s.peer[slot] in s.subs)
    && (forall c :: c in s.subs ==> 0 < c < s.nextId && Seated(s.peer, c))
    && (forall a, b :: a in s.peer && b in s.peer && s.peer[a] == s.peer[b] ==> a == b)
  }

  function Step(s: Server, ev: Event): Server
    requires CanStep(s, ev)
  {
    match ev
    case Connect(slot) =>
      s.(nextId := s.nextId + 1, peer := s.peer[slot := s.nextId], subs := s.subs[s.nextId := {}])
    case Receive(slot, r) => OnMessage(s, s.peer[slot], r)
    case Disconnect(slot) => s.(peer := s.peer - {slot}, subs := s.subs - {s.peer[slot]})
  }

  // What the event makes the server send to client d.
  function Sends(s: Server, ev: Event, d: nat): Option<Reply>
    requires Possible(s, ev)
  {
    if ev.Receive? then ReplyTo(s, s.peer[ev.slot], ev.request, d) else None
  }

  lemma StepConsistent(s: Server, ev: Event)
    requires Possible(s, ev) && Consistent(s)
    ensures Consistent(Step(s, ev))
  {
    hide Consistent, Step;
    match ev
    case Connect(slot) => ConnectConsistent(s, slot);
    case Receive(slot, r) => ReceiveConsistent(s, slot, r);
    case Disconnect(slot) => DisconnectConsistent(s, slot);
  }

  predicate Seated(peer: map<nat, nat>, c: nat)
  {
    exists slot :: slot in peer && peer[slot] == c
  }

  lemma ConnectConsistent(s: Server, slot: nat)
    requires Possible(s, Connect(slot)) && Consistent(s)
    ensures Consistent(Step(s, Connect(slot)))
  {
    var s' := Step(s, Connect(slot));
    forall c | c in s'.subs ensures 0 < c < s'.nextId && Seated(s'.peer, c) {
      if c == s.nextId {
        assert slot in s'.peer && s'.peer[slot] == c;
      } else {
        assert Seated(s.peer, c);
        var t :| t in s.peer && s.peer[t] == c;
        assert t in s'.peer && s'.peer[t] == c;
      }
    }
  }

  lemma ReceiveConsistent(s: Server, slot: nat, r: Request)
    requires Possible(s, Receive(slot, r)) && Consistent(s)
    ensures Consistent(Step(s, Receive(slot, r)))
  {
    hide Resolve;
  }

  lemma DisconnectConsistent(s: Server, slot: nat)
    requires Possible(s, Disconnect(slot)) && Consistent(s)
    ensures Consistent(Step(s, Disconnect(slot)))
  {
    var s' := Step(s, Disconnect(slot));
    forall c | c in s'.subs ensures 0 < c < s'.nextId && Seated(s'.peer, c) {
      assert Seated(s.peer, c);
      var t :| t in s.peer && s.peer[t] == c;
      assert t in s'.peer && s'.peer[t] == c;
    }
  }

  // ---------- runs ----------

  // Every event is possible when it happens.
  ghost predicate Trace(evs: seq<Event>)
    decreases |evs|, 0
  {
    evs == [] || (Trace(Before(evs)) && Possible(Run(Before(evs)), Last(evs)))
  }

  function Before(evs: seq<Event>): seq<Event>
    requires evs != []
  {
    evs[..|evs| - 1]
  }

  function Last(evs: seq<Event>): Event
    requires evs != []
  {
    evs[|evs| - 1]
  }

  // The state of a server that started empty and handled these events.
  ghost function Run(evs: seq<Event>): (s: Server)
    requires Trace(evs)
    ensures Consistent(s)
    decreases |evs|, 1
  {
    if evs == [] then START
    else
      StepConsistent(Run(Before(evs)), Last(evs));
      Step(Run(Before(evs)), Last(evs))
  }

  // A packet put on a connection, with the number of the event that caused it.
  datatype Out = Out(reply: Reply, cause: nat)

  function Outs(r: Option<Reply>, cause: nat): seq<Out>
  {
    if r.Some? then [Out(r.value, cause)] else []
  }

  // Everything the server has sent to client d, in order.
  ghost function Stream(evs: seq<Event>, d: nat): seq<Out>
    requires Trace(evs)
  {
    if evs == [] then []
    else Stream(Before(evs), d) + Outs(Sends(Run(Before(evs)), Last(evs), d), |evs| - 1)
  }

  lemma NothingToLater(s: Server, ev: Event, d: nat)
    requires Consistent(s) && Possible(s, ev) && d >= Step(s, ev).nextId
    ensures d >= s.nextId && Sends(s, ev, d).None?
  {
    assert d !in s.subs;
  }

  // Nothing has been sent to a connection that does not exist yet.
  lemma {:induction false} StreamEmpty(evs: seq<Event>, d: nat)
    requires Trace(evs) && d >= Run(evs).nextId
    ensures Stream(evs, d) == []
  {
    if evs != [] {
      NothingToLater(Run(Before(evs)), Last(evs), d);
      StreamEmpty(Before(evs), d);
    }
  }

  lemma {:induction false} TracePrefix(evs: seq<Event>, n: nat)
    requires Trace(evs) && n <= |evs|
    ensures Trace(evs[..n])
  {
    if n < |evs| {
      TracePrefix(Before(evs), n);
      assert Before(evs)[..n] == evs[..n];
    } else {
      assert evs[..n] == evs;
    }
  }

  // One more event extends a run and its streams.
  lemma RunExtended(evs: seq<Event>, ev: Event, d: nat)
    requires Trace(evs) && Possible(Run(evs), ev)
    ensures Trace(evs + [ev]) && Run(evs + [ev]) == Step(Run(evs), ev)
    ensures Stream(evs + [ev], d) == Stream(evs, d) + Outs(Sends(Run(evs), ev, d), |evs|)
  {
    assert Before(evs + [ev]) == evs && Last(evs + [ev]) == ev;
  }

  // ---------- bytes ----------

  // The packets a reply amounts to on the wire.
  function Wire(e: Endian, r: Option<Reply>): seq<Bytes>
  {
    if r.Some? then [WriteReply(e, r.value)] else []
  }

  // A stream's packets on the wire.
  function OnWire(e: Endian, outs: seq<Out>): (packets: seq<Bytes>)
    ensures |packets| == |outs|
  {
    if outs == [] then []
    else OnWire(e, outs[..|outs| - 1]) + [WriteReply(e, outs[|outs| - 1].reply)]
  }

  lemma OnWireExtended(e: Endian, outs: seq<Out>, r: Option<Reply>, cause: nat)
    ensures OnWire(e, outs + Outs(r, cause)) == OnWire(e, outs) + Wire(e, r)
  {
    if r.Some? {
      assert (outs + Outs(r, cause))[..|outs|] == outs;
    } else {
      assert outs + Outs(r, cause) == outs;
      assert OnWire(e, outs) + [] == OnWire(e, outs);
    }
  }
}
