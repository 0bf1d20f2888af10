// The high-level client (src/spraybus/client/client.cpp,
// include/spraybus/client/client.hpp).

module Client {
  import opened Wrappers
  import opened Protocol
  import opened Messages
  import opened Buffers
  import opened Enet
  import opened ClientSpec
  import NetworkClient

  // The first packet a connection's reports bring, if the first report is a packet.
  function FirstPacket(reports: seq<NetworkClient.Report>): Option<Bytes>
    reads if reports != [] && reports[0].Received? then {reports[0].packet.memory} else {}
  {
    if reports != [] && reports[0].Received? then Some(reports[0].packet.memory.bytes) else None
  }

  // Reports as ENet makes them: packets of their own memory, each reported once.
  ghost predicate Fresh(reports: seq<NetworkClient.Report>, buffer: Memory)
    reads NetworkClient.Packets(reports)
  {
    && AllDifferent(NetworkClient.Packets(reports))
    && (forall p :: p in NetworkClient.Packets(reports) ==> p.destroyed == 0 && p.memory != buffer)
  }

  lemma CachedOrAnswered(c: Cache, topic: Bytes, packet: Option<Bytes>)
    ensures topic !in c.keys ==> Lookup(c, topic, packet) == Answered(c, packet)
  {
    hide Learn, ReadReply;
  }

  class Client {
    const m_client: NetworkClient.Client
    const m_protocol_constructor: Constructor
    var m_topic_map: map<Bytes, Key>
    var m_inverse_topic_map: map<Key, Bytes>

    ghost function View(): Cache
      reads this
    {
      Cache(m_topic_map, m_inverse_topic_map)
    }

    constructor (e: Endian, reports: seq<NetworkClient.Report>)
      ensures View() == EMPTY && m_protocol_constructor.endian == e
      ensures fresh(m_client) && m_client.inbox == reports && m_client.outbox == []
      ensures fresh(m_protocol_constructor.buffer)
    {
      m_client := new NetworkClient.Client(reports);
      m_protocol_constructor := new Constructor(e);
      m_topic_map, m_inverse_topic_map := map[], map[];
    }

    // get_topic_key. connects tells whether the temporary connection is made,
    // and replies what it reports; sent is what goes out on it.
    method GetTopicKey(topic: Bytes, connects: bool, replies: seq<NetworkClient.Report>)
      returns (r: Result<Key>, sent: seq<Bytes>)
      requires Fresh(replies, m_protocol_constructor.buffer)
      modifies this`m_topic_map, this`m_inverse_topic_map, m_protocol_constructor.buffer
      modifies NetworkClient.PacketSet(replies)
      ensures var packet := if connects then old(FirstPacket(replies)) else None;
              var result := Lookup(old(View()), topic, packet);
              && View() == CacheAfter(old(View()), result)
              && r == (if result.Returned? then Returned(result.value.1) else Thrown)
      ensures sent == if topic in old(m_topic_map) || !connects then []
                      else [WriteRequest(m_protocol_constructor.endian, Ask(topic))]
      ensures topic !in old(m_topic_map) && connects ==>
        forall p :: p in NetworkClient.Pending(replies) ==> p.destroyed == 1
      ensures topic in old(m_topic_map) || !connects ==>
        forall p :: p in NetworkClient.Packets(replies) ==> p.destroyed == old(p.destroyed)
      ensures topic in old(m_topic_map) ==> r == Returned(old(m_topic_map)[topic])
      ensures topic in old(m_topic_map) || r.Thrown? ==> View() == old(View())
      ensures topic !in old(m_topic_map) && (!connects || old(FirstPacket(replies)).None?) ==> r.Thrown?
      ensures forall e: Endian, k: Key :: Replied(replies, topic, connects, e, k) ==>
        r == Returned(k) && m_topic_map == old(m_topic_map)[topic := k]
        && m_inverse_topic_map == old(m_inverse_topic_map)[k := topic]
    {
      hide Learn, ReadReply, NetworkClient.Pending, PacketOf, Lookup, WriteReply;
      LookupMeans(View(), topic, if connects then FirstPacket(replies) else None);
      CachedOrAnswered(View(), topic, if connects then FirstPacket(replies) else None);
      sent := [];
      if topic in m_topic_map {
        r := Returned(m_topic_map[topic]);
        return;
      }
      var msg := m_protocol_constructor.TopicRequest(topic);
      if !connects {
        r := Thrown;
        return;
      }
      r, sent := AskServer(msg, replies);
    }

    // The name was not cached, and the server's answer with key k came first.
    twostate predicate Replied(replies: seq<NetworkClient.Report>, topic: Bytes, connects: bool, e: Endian, k: Key)
      reads this
    {
      && topic !in old(m_topic_map) && connects
      && old(FirstPacket(replies)) == Some(WriteReply(e, Answer(k, topic)))
    }

    // The life of the temporary connection.
    method AskServer(msg: Span, replies: seq<NetworkClient.Report>) returns (r: Result<Key>, sent: seq<Bytes>)
      requires msg.Valid() && Fresh(replies, m_protocol_constructor.buffer)
      modifies this`m_topic_map, this`m_inverse_topic_map, NetworkClient.PacketSet(replies)
      ensures var result := Answered(old(View()), old(FirstPacket(replies)));
              && View() == CacheAfter(old(View()), result)
              && r == (if result.Returned? then Returned(result.value.1) else Thrown)
      ensures sent == [msg.Bytes()]
      ensures forall p :: p in NetworkClient.Pending(replies) ==> p.destroyed == 1
    {
      hide Learn, ReadReply, NetworkClient.Pending, NetworkClient.AfterDrain;
      if replies != [] { NetworkClient.ReadOne(replies); }
      NetworkClient.PendingFirst(replies);
      var temporaryClient := new NetworkClient.Client(replies);
      temporaryClient.Send(msg);
      sent := temporaryClient.outbox;
      var packet := temporaryClient.Recv();
      if packet.Returned? {
        r := TakeAnswer(packet.value.m_packet.memory.bytes);
        assert packet.value.m_packet == replies[0].packet;
        packet.value.Release();
      } else {
        r := Thrown;
      }
      assert temporaryClient.inbox == if replies == [] then [] else replies[1..];
      assert NetworkClient.PacketSet(temporaryClient.inbox) <= NetworkClient.PacketSet(replies);
      temporaryClient.Close();
    }

    // The switch of get_topic_key on the response.
    method TakeAnswer(data: Bytes) returns (r: Result<Key>)
      modifies this`m_topic_map, this`m_inverse_topic_map
      ensures var result := Answered(old(View()), Some(data));
              && View() == CacheAfter(old(View()), result)
              && r == (if result.Returned? then Returned(result.value.1) else Thrown)
    {
      hide KeyOf, TopicKey, ParseHeader;
      var e := m_protocol_constructor.endian;
      if !HasHeader(data) {
        return Thrown;
      }
      KeyReadsBigEndian(e, data);
      if ParseHeader(e, data).kind != TOPIC_RESPONSE {
        return Thrown;
      }
      var topicName, topicKey := PayloadOf(data), TopicKey(e, ParseHeader(e, data));
      m_topic_map := m_topic_map[topicName := topicKey];
      m_inverse_topic_map := m_inverse_topic_map[topicKey := topicName];
      return Returned(topicKey);
    }

    // publish by name: the payload span must not look into the packet buffer.
    method PublishTo(topic: Bytes, payload: Span, connects: bool, replies: seq<NetworkClient.Report>)
      returns (done: bool, sent: seq<Bytes>)
      requires Fresh(replies, m_protocol_constructor.buffer)
      requires payload.Valid() && payload.Avoids(m_protocol_constructor.buffer)
      modifies this`m_topic_map, this`m_inverse_topic_map, m_client`outbox, m_protocol_constructor.buffer
      modifies NetworkClient.PacketSet(replies)
      ensures var packet := if connects then old(FirstPacket(replies)) else None;
              var result := Lookup(old(View()), topic, packet);
              && View() == CacheAfter(old(View()), result) && done == result.Returned?
              && m_client.outbox == old(m_client.outbox) +
                   if done
                   then [WriteRequest(m_protocol_constructor.endian, Publish(result.value.1, old(payload.Bytes())))]
                   else []
      ensures topic in old(m_topic_map) ==>
        m_client.outbox == old(m_client.outbox)
          + [WriteRequest(m_protocol_constructor.endian, Publish(old(m_topic_map)[topic], old(payload.Bytes())))]
      ensures forall e: Endian, k: Key :: Replied(replies, topic, connects, e, k) ==>
        m_client.outbox == old(m_client.outbox)
          + [WriteRequest(m_protocol_constructor.endian, Publish(k, old(payload.Bytes())))]
    {
      hide Learn, ReadReply, NetworkClient.Pending, WriteRequest, Lookup, WriteReply;
      var topicKey;
      topicKey, sent := GetTopicKey(topic, connects, replies);
      done := topicKey.Returned?;
      if done {
        PublishKey(topicKey.value, payload);
      } else {
        assert m_client.outbox + [] == m_client.outbox;
      }
    }

    // publish by key
    method PublishKey(topicKey: Key, payload: Span)
      requires payload.Valid() && payload.Avoids(m_protocol_constructor.buffer)
      modifies m_client`outbox, m_protocol_constructor.buffer
      ensures m_client.outbox == old(m_client.outbox)
        + [WriteRequest(m_protocol_constructor.endian, Publish(topicKey, old(payload.Bytes())))]
    {
      var msg := m_protocol_constructor.Publish(topicKey, payload);
      m_client.Send(msg);
    }

    method SubscribeTo(topic: Bytes, connects: bool, replies: seq<NetworkClient.Report>)
      returns (done: bool, sent: seq<Bytes>)
      requires Fresh(replies, m_protocol_constructor.buffer)
      modifies this`m_topic_map, this`m_inverse_topic_map, m_client`outbox, m_protocol_constructor.buffer
      modifies NetworkClient.PacketSet(replies)
      ensures var packet := if connects then old(FirstPacket(replies)) else None;
              var result := Lookup(old(View()), topic, packet);
              && View() == CacheAfter(old(View()), result) && done == result.Returned?
              && m_client.outbox == old(m_client.outbox) +
                   if done then [WriteRequest(m_protocol_constructor.endian, Subscribe(result.value.1))] else []
      ensures topic in old(m_topic_map) ==>
        m_client.outbox == old(m_client.outbox)
          + [WriteRequest(m_protocol_constructor.endian, Subscribe(old(m_topic_map)[topic]))]
      ensures forall e: Endian, k: Key :: Replied(replies, topic, connects, e, k) ==>
        m_client.outbox == old(m_client.outbox) + [WriteRequest(m_protocol_constructor.endian, Subscribe(k))]
    {
      hide Learn, ReadReply, NetworkClient.Pending, PacketOf, Lookup, WriteReply;
      var topicKey;
      topicKey, sent := GetTopicKey(topic, connects, replies);
      done := topicKey.Returned?;
      if done {
        var msg := m_protocol_constructor.Subscribe(topicKey.value);
        m_client.Send(msg);
      } else {
        assert m_client.outbox + [] == m_client.outbox;
      }
    }

    // poll: a packet, once read, is destroyed by the time the call ends.
    method Poll() returns (r: Result<Option<FanoutMessage>>)
      requires m_client.Valid()
      modifies m_client`inbox
      modifies if m_client.inbox != [] && m_client.inbox[0].Received? then {m_client.inbox[0].packet} else {}
      ensures m_client.Valid()
      ensures m_client.inbox == if old(m_client.inbox) == [] then [] else old(m_client.inbox)[1..]
      ensures r == if old(m_client.inbox) == [] then Returned(None)
                   else
                     match old(m_client.inbox)[0]
                     case Received(p) => Delivered(View(), old(p.memory.bytes))
                     case Disconnected => Thrown
                     case Other => Returned(None)
      ensures old(m_client.inbox) != [] && old(m_client.inbox)[0].Received? ==>
        old(m_client.inbox)[0].packet.destroyed == 1
    {
      hide ReadReply;
      if m_client.inbox != [] { NetworkClient.ReadOne(m_client.inbox); }
      var packet := new NetworkClient.Packet(null);
      var got := m_client.Process(packet);
      if got.Thrown? {
        return Thrown;
      }
      if !got.value {
        return Returned(None);
      }
      r := Read(packet.m_packet.memory.bytes);
      packet.Release();
    }

    // The switch of process() on a packet, with poll's callback.
    method Read(data: Bytes) returns (r: Result<Option<FanoutMessage>>)
      ensures r == Delivered(View(), data)
    {
      hide KeyOf, TopicKey, ParseHeader;
      var e := m_protocol_constructor.endian;
      if !HasHeader(data) {
        return Thrown;
      }
      KeyReadsBigEndian(e, data);
      var topicKey := TopicKey(e, ParseHeader(e, data));
      if ParseHeader(e, data).kind != FANOUT {
        return Returned(None);
      }
      var topicName := UNKNOWN;
      if topicKey in m_inverse_topic_map {
        topicName := m_inverse_topic_map[topicKey];
      }
      return Returned(Some(FanoutMessage(topicKey, topicName, PayloadOf(data))));
    }

    // The destructor, which is that of the connection.
    method Close()
      requires m_client.Valid()
      modifies m_client`inbox, NetworkClient.PacketSet(m_client.inbox)
      ensures m_client.inbox == NetworkClient.AfterDrain(old(m_client.inbox))
      ensures forall p :: p in NetworkClient.Pending(old(m_client.inbox)) ==> p.destroyed == 1
    {
      m_client.Close();
    }
  }
}
