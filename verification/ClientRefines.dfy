// The client's methods take the steps of the whole-system machine: each changes
// caches and outgoing packets exactly as the step of its client and main
// connection does (src/spraybus/client/client.cpp:8-73).

module ClientRefines {
  import opened Wrappers
  import opened Protocol
  import opened Messages
  import opened Buffers
  import opened ServerSpec
  import opened ClientSpec
  import opened System
  import Client
  import NetworkClient

  // The object is client h of the system.
  ghost predicate Represents(client: Client.Client, s: Sys, h: nat)
    reads client, client.m_client, client.m_protocol_constructor
  {
    && h < |s.clients| && s.clients[h].main < |s.links|
    && client.View() == s.clients[h].cache
    && client.m_client.outbox == s.links[s.clients[h].main].up
    && client.m_protocol_constructor.endian == s.clients[h].endian
  }

  // The step in which a call by name ends in state s, given what its temporary
  // connection brings: at once, with the answer, or without one.
  predicate Ends(s: Sys, h: nat, name: Bytes, purpose: Purpose, packet: Option<Bytes>, a: Action)
  {
    && h < |s.clients|
    && var c := s.clients[h];
       if name in c.cache.keys then
         a == Begin(h, name, purpose)
       else
         && c.wait.Some? && c.wait.value.name == name && c.wait.value.purpose == purpose
         && c.wait.value.link < |s.links| && c.wait.value.link != c.main
         && var k := s.links[c.wait.value.link];
            if packet.None? then a == GiveUp(h)
            else a == HearAnswer(h) && Readable(k) && k.down[k.polled] == packet.value
  }

  // What such a step does to the client and its main connection, by the outcome of
  // the lookup.
  lemma EndMeans(s: Sys, h: nat, name: Bytes, purpose: Purpose, packet: Option<Bytes>, a: Action)
    requires Enabled(s, a) && Ends(s, h, name, purpose, packet, a) && s.clients[h].main < |s.links|
    ensures var c, t := s.clients[h], Next(s, a);
            var result := Lookup(c.cache, name, packet);
            && h < |t.clients| && t.clients[h].main == c.main && c.main < |t.links|
            && t.clients[h].cache == CacheAfter(c.cache, result) && t.clients[h].endian == c.endian
            && t.links[c.main].up == s.links[c.main].up +
                 match purpose
                 case JustKey => []
                 case ThenPublish(payload) =>
                   if result.Returned? then [WriteRequest(c.endian, Publish(result.value.1, payload))] else []
                 case ThenSubscribe =>
                   if result.Returned? then [WriteRequest(c.endian, Subscribe(result.value.1))] else []
  {
    hide WriteRequest, ReadReply, Learn, CanStep, Wire;
    var up := s.links[s.clients[h].main].up;
    assert up + [] == up;
  }

  method GetTopicKey(client: Client.Client, name: Bytes, connects: bool, replies: seq<NetworkClient.Report>,
                     ghost s: Sys, ghost h: nat, ghost a: Action)
    returns (r: Result<Key>)
    requires Client.Fresh(replies, client.m_protocol_constructor.buffer) && Represents(client, s, h)
    requires Enabled(s, a)
    requires Ends(s, h, name, JustKey, if connects then Client.FirstPacket(replies) else None, a)
    modifies client, client.m_protocol_constructor.buffer, NetworkClient.PacketSet(replies)
    ensures Represents(client, Next(s, a), h)
  {
    hide Enabled, Next, Ends, Lookup, ReadReply, Learn;
    ghost var packet := if connects then Client.FirstPacket(replies) else None;
    EndMeans(s, h, name, JustKey, packet, a);
    var sent;
    r, sent := client.GetTopicKey(name, connects, replies);
    assert client.m_client.outbox + [] == client.m_client.outbox;
  }

  method PublishTo(client: Client.Client, name: Bytes, payload: Span, connects: bool,
                   replies: seq<NetworkClient.Report>, ghost s: Sys, ghost h: nat, ghost a: Action)
    returns (done: bool)
    requires Client.Fresh(replies, client.m_protocol_constructor.buffer) && Represents(client, s, h)
    requires payload.Valid() && payload.Avoids(client.m_protocol_constructor.buffer)
    requires Enabled(s, a)
    requires Ends(s, h, name, ThenPublish(payload.Bytes()), if connects then Client.FirstPacket(replies) else None, a)
    modifies client, client.m_client, client.m_protocol_constructor.buffer, NetworkClient.PacketSet(replies)
    ensures Represents(client, Next(s, a), h)
  {
    hide Enabled, Next, Ends, Lookup, ReadReply, Learn, WriteRequest;
    ghost var packet := if connects then Client.FirstPacket(replies) else None;
    EndMeans(s, h, name, ThenPublish(payload.Bytes()), packet, a);
    var sent;
    done, sent := client.PublishTo(name, payload, connects, replies);
  }

  method SubscribeTo(client: Client.Client, name: Bytes, connects: bool, replies: seq<NetworkClient.Report>,
                     ghost s: Sys, ghost h: nat, ghost a: Action)
    returns (done: bool)
    requires Client.Fresh(replies, client.m_protocol_constructor.buffer) && Represents(client, s, h)
    requires Enabled(s, a)
    requires Ends(s, h, name, ThenSubscribe, if connects then Client.FirstPacket(replies) else None, a)
    modifies client, client.m_client, client.m_protocol_constructor.buffer, NetworkClient.PacketSet(replies)
    ensures Represents(client, Next(s, a), h)
  {
    hide Enabled, Next, Ends, Lookup, ReadReply, Learn, WriteRequest;
    ghost var packet := if connects then Client.FirstPacket(replies) else None;
    EndMeans(s, h, name, ThenSubscribe, packet, a);
    var sent;
    done, sent := client.SubscribeTo(name, connects, replies);
  }

  method PublishKey(client: Client.Client, key: Key, payload: Span, ghost s: Sys, ghost h: nat)
    requires payload.Valid() && payload.Avoids(client.m_protocol_constructor.buffer)
    requires Represents(client, s, h) && Enabled(s, Action.PublishKey(h, key, payload.Bytes()))
    modifies client.m_client, client.m_protocol_constructor.buffer
    ensures Represents(client, Next(s, Action.PublishKey(h, key, old(payload.Bytes()))), h)
  {
    hide WriteRequest;
    client.PublishKey(key, payload);
  }

  // The packet that comes next on the main connection becomes the message that the
  // step of the system records.
  method Poll(client: Client.Client, ghost s: Sys, ghost h: nat) returns (r: Result<Option<FanoutMessage>>)
    requires client.m_client.Valid() && Represents(client, s, h) && Enabled(s, Action.Poll(h))
    requires client.m_client.inbox != [] && client.m_client.inbox[0].Received?
    requires var k := s.links[s.clients[h].main];
             client.m_client.inbox[0].packet.memory.bytes == k.down[k.polled]
    modifies client.m_client, client.m_client.inbox[0].packet
    ensures Represents(client, Next(s, Action.Poll(h)), h)
    ensures Next(s, Action.Poll(h)).clients[h].got
         == s.clients[h].got + if r.Returned? && r.value.Some? then [r.value.value] else []
  {
    hide ReadReply, Delivered;
    r := client.Poll();
    assert s.clients[h].got + [] == s.clients[h].got;
  }
}
