// The whole system as one state machine: the server, its connections, any
// number of high-level clients, and raw peers that may send any bytes.

module System {
  import opened Wrappers
  import opened Protocol
  import opened Messages
  import opened Topics
  import opened ServerSpec
  import opened ClientSpec

  // ---------- state ----------

  datatype Owner = Raw | Main(h: nat) | Temp(h: nat, name: Bytes)

  // A connection: two FIFO channels, each given as everything ever put on it and
  // how much of that the other end has read. conn is the server's number for the
  // connection, 0 until the server accepts it. What is never read is what a
  // disconnect may lose.
  datatype Link = Link(owner: Owner, up: seq<Bytes>, taken: nat, conn: nat, down: seq<Bytes>, polled: nat)

  // What a client does with the key it is looking up.
  datatype Purpose = JustKey | ThenPublish(payload: Bytes) | ThenSubscribe

  // A client blocked in get_topic_key on its temporary connection.
  datatype Wait = Wait(link: nat, name: Bytes, purpose: Purpose)

  // A call of publish, by name or by key, or of subscribe that has returned.
  datatype Call =
    | ByName(name: Bytes, payload: Bytes)
    | ByKey(key: Key, payload: Bytes)
    | Subscribing(name: Bytes)

  // A high-level client. The last three fields are histories: the names passed
  // to subscribe, the publish and subscribe calls that have returned, the messages
  // returned by poll.
  datatype Hl = Hl(endian: Endian, main: nat, cache: Cache, wait: Option<Wait>,
                   subscribed: set<Bytes>, calls: seq<Call>, got: seq<FanoutMessage>)

  // slots is ENet's assignment of connections to the server's peer slots; trace
  // holds the events the server has handled.
  datatype Sys = Sys(endian: Endian, server: Server, slots: map<nat, nat>, links: seq<Link>, clients: seq<Hl>,
                     trace: seq<Event>)

  function Initial(e: Endian): Sys
  {
    Sys(e, START, map[], [], [], [])
  }

  // ---------- steps ----------

  datatype Action =
    | RawOpen
    | RawSend(l: nat, bytes: Bytes)
    | RawRead(l: nat)
    | Accept(slot: nat, l: nat)
    | Take(slot: nat)
    | Drop(slot: nat)
    | Open(endian: Endian)
    | Begin(h: nat, name: Bytes, purpose: Purpose)
    | HearAnswer(h: nat)
    | GiveUp(h: nat)
    | PublishKey(h: nat, key: Key, payload: Bytes)
    | Poll(h: nat)

  predicate Readable(k: Link) { k.polled < |k.down| }

  // The client is not blocked in a call.
  predicate Idle(s: Sys, h: nat) { h < |s.clients| && s.clients[h].wait.None? }

  predicate Waiting(s: Sys, h: nat)
  {
    h < |s.clients| && s.clients[h].wait.Some? && s.clients[h].wait.value.link < |s.links|
  }

  predicate Enabled(s: Sys, a: Action)
  {
    match a
    case RawOpen => true
    case RawSend(l, _) => l < |s.links| && s.links[l].owner.Raw?
    case RawRead(l) => l < |s.links| && s.links[l].owner.Raw? && Readable(s.links[l])
    case Accept(slot, l) =>
      l < |s.links| && s.links[l].conn == 0 && slot !in s.slots && CanStep(s.server, Connect(slot))
    case Take(slot) =>
      && slot in s.slots && s.slots[slot] < |s.links|
      && s.links[s.slots[slot]].taken < |s.links[s.slots[slot]].up|
      && CanStep(s.server, Receive(slot, NextRequest(s.links[s.slots[slot]])))
    case Drop(slot) => slot in s.slots && CanStep(s.server, Disconnect(slot))
    case Open(_) => true
    case Begin(h, _, _) => Idle(s, h) && s.clients[h].main < |s.links|
    case HearAnswer(h) =>
      Waiting(s, h) && s.clients[h].main < |s.links| && Readable(s.links[s.clients[h].wait.value.link])
    case GiveUp(h) => Waiting(s, h)
    case PublishKey(h, _, _) => Idle(s, h) && s.clients[h].main < |s.links|
    case Poll(h) => Idle(s, h) && s.clients[h].main < |s.links| && Readable(s.links[s.clients[h].main])
  }

  function NextRequest(k: Link): Request
    requires k.taken < |k.up|
  {
    ReadRequest(k.up[k.taken])
  }

  function Put(k: Link, m: Bytes): Link { k.(up := k.up + [m]) }

  // The server's packet, if any, for this connection.
  function Sending(e: Endian, server: Server, ev: Event, k: Link): Link
    requires Possible(server, ev)
  {
    if k.conn == 0 then k else k.(down := k.down + Wire(e, Sends(server, ev, k.conn)))
  }

  function Broadcast(e: Endian, server: Server, ev: Event, links: seq<Link>): (r: seq<Link>)
    requires Possible(server, ev)
    ensures |r| == |links|
    ensures forall i :: 0 <= i < |links| ==> r[i] == Sending(e, server, ev, links[i])
  {
    seq(|links|, i requires 0 <= i < |links| => Sending(e, server, ev, links[i]))
  }

  // The server handles an event.
  function Handle(s: Sys, ev: Event): Sys
    requires CanStep(s.server, ev)
  {
    s.(server := Step(s.server, ev), trace := s.trace + [ev])
  }

  // The packet a client sends once it knows the key.
  function Finishing(e: Endian, key: Key, purpose: Purpose): Option<Bytes>
  {
    match purpose
    case JustKey => None
    case ThenPublish(payload) => Some(WriteRequest(e, Publish(key, payload)))
    case ThenSubscribe => Some(WriteRequest(e, Subscribe(key)))
  }

  function PutMaybe(k: Link, p: Option<Bytes>): Link
  {
    if p.Some? then Put(k, p.value) else k
  }

  // A call of publish, subscribe or get_topic_key by name starts.
  function Started(c: Hl, name: Bytes, purpose: Purpose): Hl
  {
    if purpose.ThenSubscribe? then c.(subscribed := c.subscribed + {name}) else c
  }

  // The call returns.
  function Ended(c: Hl, name: Bytes, purpose: Purpose): Hl
  {
    match purpose
    case JustKey => c
    case ThenPublish(payload) => c.(calls := c.calls + [ByName(name, payload)])
    case ThenSubscribe => c.(calls := c.calls + [Subscribing(name)])
  }

  function TemporaryLink(h: nat, e: Endian, name: Bytes): Link
  {
    Link(Temp(h, name), [WriteRequest(e, Ask(name))], 0, 0, [], 0)
  }

  function Next(s: Sys, a: Action): Sys
    requires Enabled(s, a)
  {
    match a
    case RawOpen => s.(links := s.links + [Link(Raw, [], 0, 0, [], 0)])
    case RawSend(l, bytes) => s.(links := s.links[l := Put(s.links[l], bytes)])
    case RawRead(l) => s.(links := s.links[l := s.links[l].(polled := s.links[l].polled + 1)])
    case Accept(slot, l) =>
      Handle(s, Connect(slot))
        .(links := s.links[l := s.links[l].(conn := s.server.nextId)], slots := s.slots[slot := l])
    case Take(slot) =>
      var l := s.slots[slot];
      var k := s.links[l];
      var ev := Receive(slot, NextRequest(k));
      Handle(s, ev)
        .(links := Broadcast(s.endian, s.server, ev, s.links[l := k.(taken := k.taken + 1)]))
    case Drop(slot) => Handle(s, Disconnect(slot)).(slots := s.slots - {slot})
    case Open(e) =>
      var h, l := |s.clients|, |s.links|;
      s.(links := s.links + [Link(Main(h), [], 0, 0, [], 0)],
         clients := s.clients + [Hl(e, l, EMPTY, None, {}, [], [])])
    case Begin(h, name, purpose) =>
      var c := Started(s.clients[h], name, purpose);
      if name in c.cache.keys then
        var p := Finishing(c.endian, c.cache.keys[name], purpose);
        s.(clients := s.clients[h := Ended(c, name, purpose)], links := s.links[c.main := PutMaybe(s.links[c.main], p)])
      else
        s.(clients := s.clients[h := c.(wait := Some(Wait(|s.links|, name, purpose)))],
           links := s.links + [TemporaryLink(h, c.endian, name)])
    case HearAnswer(h) =>
      var c := s.clients[h];
      var w := c.wait.value;
      var k := s.links[w.link];
      var links := s.links[w.link := k.(polled := k.polled + 1)];
      var r := Answered(c.cache, Some(k.down[k.polled]));
      var c' := c.(wait := None, cache := CacheAfter(c.cache, r));
      var p := if r.Returned? then Finishing(c.endian, r.value.1, w.purpose) else None;
      var c'' := if r.Returned? then Ended(c', w.name, w.purpose) else c';
      s.(clients := s.clients[h := c''], links := links[c.main := PutMaybe(links[c.main], p)])
    case GiveUp(h) => s.(clients := s.clients[h := s.clients[h].(wait := None)])
    case PublishKey(h, key, payload) =>
      var c := s.clients[h];
      var m := WriteRequest(c.endian, Publish(key, payload));
      s.(links := s.links[c.main := Put(s.links[c.main], m)],
         clients := s.clients[h := c.(calls := c.calls + [ByKey(key, payload)])])
    case Poll(h) =>
      var c := s.clients[h];
      var k := s.links[c.main];
      var r := Delivered(c.cache, k.down[k.polled]);
      var got := if r.Returned? && r.value.Some? then c.got + [r.value.value] else c.got;
      s.(links := s.links[c.main := k.(polled := k.polled + 1)], clients := s.clients[h := c.(got := got)])
  }

  // ---------- runs ----------

  ghost predicate Moves(s: Sys, a: Action, t: Sys) { Enabled(s, a) && t == Next(s, a) }

  // A run of the system: the states it goes through and the steps between them.
  ghost predicate Behaviour(e: Endian, states: seq<Sys>, acts: seq<Action>)
  {
    && |states| == |acts| + 1 && states[0] == Initial(e)
    && forall k {:trigger acts[k]} :: 0 <= k < |acts| ==> Moves(states[k], acts[k], states[k + 1])
  }
}
