// What the two ends read in a packet: the server's switch on the message type
// (src/spraybus/server/server.cpp:19-74) and the client's two
// (src/spraybus/client/client.cpp:18-31, include/spraybus/client/client.hpp:139-157).

module Messages {
  import opened Protocol

  // A packet as the server acts on it.
  datatype Request =
    | Ask(name: Bytes)
    | Publish(key: Key, payload: Bytes)
    | Subscribe(key: Key)
    | Unsubscribe(key: Key)
    | Ignored

  function ReadRequest(m: Bytes): Request
  {
    if !HasHeader(m) then Ignored
    else if KindOf(m) == TOPIC_REQUEST then Ask(PayloadOf(m))
    else if KindOf(m) == SUBSCRIBE then Subscribe(KeyOf(m))
    else if KindOf(m) == UNSUBSCRIBE then Unsubscribe(KeyOf(m))
    else if KindOf(m) == PUBLISH then Publish(KeyOf(m), PayloadOf(m))
    else Ignored
  }

  // The packet a client builds for a request.
  function WriteRequest(e: Endian, r: Request): Bytes
    requires !r.Ignored?
  {
    match r
    case Ask(name) => PacketOf(e, FROM_CLIENT, TOPIC_REQUEST, 0, name)
    case Publish(key, payload) => PacketOf(e, FROM_CLIENT, PUBLISH, key, payload)
    case Subscribe(key) => PacketOf(e, FROM_CLIENT, SUBSCRIBE, key, [])
    case Unsubscribe(key) => PacketOf(e, FROM_CLIENT, UNSUBSCRIBE, key, [])
  }

  // A packet the server sends.
  datatype Reply =
    | Answer(key: Key, name: Bytes)
    | Fanout(key: Key, payload: Bytes)

  function WriteReply(e: Endian, r: Reply): Bytes
  {
    match r
    case Answer(key, name) => PacketOf(e, FROM_SERVER, TOPIC_RESPONSE, key, name)
    case Fanout(key, payload) => PacketOf(e, FROM_SERVER, FANOUT, key, payload)
  }

  // A packet as the client acts on it.
  datatype Incoming = Got(reply: Reply) | TooShort | Unexpected

  function ReadReply(m: Bytes): Incoming
  {
    if !HasHeader(m) then TooShort
    else if KindOf(m) == TOPIC_RESPONSE then Got(Answer(KeyOf(m), PayloadOf(m)))
    else if KindOf(m) == FANOUT then Got(Fanout(KeyOf(m), PayloadOf(m)))
    else Unexpected
  }

  // The two ends understand each other, whatever the byte order of either host.
  lemma RequestRoundTrip(e: Endian, r: Request)
    requires !r.Ignored?
    ensures ReadRequest(WriteRequest(e, r)) == r
  {
    match r
    case Ask(name) => PacketFields(e, FROM_CLIENT, TOPIC_REQUEST, 0, name);
    case Publish(key, payload) => PacketFields(e, FROM_CLIENT, PUBLISH, key, payload);
    case Subscribe(key) => PacketFields(e, FROM_CLIENT, SUBSCRIBE, key, []);
    case Unsubscribe(key) => PacketFields(e, FROM_CLIENT, UNSUBSCRIBE, key, []);
  }

  lemma ReplyRoundTrip(e: Endian, r: Reply)
    ensures ReadReply(WriteReply(e, r)) == Got(r)
  {
    match r
    case Answer(key, name) => PacketFields(e, FROM_SERVER, TOPIC_RESPONSE, key, name);
    case Fanout(key, payload) => PacketFields(e, FROM_SERVER, FANOUT, key, payload);
  }

  // What is on the wire: origin 1 and types 1, 3, 4 and 5 from a client, origin 2
  // and types 2 and 6 from the server, with the version in the sender's byte order.
  function OnTheWire(e: Endian, origin: Byte, kind: Byte, key: Key, payload: Bytes): Bytes
  {
    [0, 0, 0, 0] + (if e.Big? then [0, 1] else [1, 0]) + [origin, kind] + BigBytes(8, key) + payload
  }

  lemma RequestLayout(e: Endian, r: Request)
    requires !r.Ignored?
    ensures WriteRequest(e, r) == match r
                                  case Ask(name) => OnTheWire(e, 1, 1, 0, name)
                                  case Publish(key, payload) => OnTheWire(e, 1, 3, key, payload)
                                  case Subscribe(key) => OnTheWire(e, 1, 4, key, [])
                                  case Unsubscribe(key) => OnTheWire(e, 1, 5, key, [])
  {
    hide PacketOf;
    match r
    case Ask(name) => PacketLayout(e, FROM_CLIENT, TOPIC_REQUEST, 0, name);
    case Publish(key, payload) => PacketLayout(e, FROM_CLIENT, PUBLISH, key, payload);
    case Subscribe(key) => PacketLayout(e, FROM_CLIENT, SUBSCRIBE, key, []);
    case Unsubscribe(key) => PacketLayout(e, FROM_CLIENT, UNSUBSCRIBE, key, []);
  }

  lemma ReplyLayout(e: Endian, r: Reply)
    ensures WriteReply(e, r) == match r
                                case Answer(key, name) => OnTheWire(e, 2, 2, key, name)
                                case Fanout(key, payload) => OnTheWire(e, 2, 6, key, payload)
  {
    hide PacketOf;
    match r
    case Answer(key, name) => PacketLayout(e, FROM_SERVER, TOPIC_RESPONSE, key, name);
    case Fanout(key, payload) => PacketLayout(e, FROM_SERVER, FANOUT, key, payload);
  }
}
