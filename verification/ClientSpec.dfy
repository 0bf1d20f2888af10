// The high-level client's caches and answers as values
// (src/spraybus/client/client.cpp, include/spraybus/client/client.hpp).

module ClientSpec {
  import opened Wrappers
  import opened Protocol
  import opened Messages

  // m_topic_map and m_inverse_topic_map
  datatype Cache = Cache(keys: map<Bytes, Key>, names: map<Key, Bytes>)

  const EMPTY: Cache := Cache(map[], map[])

  // "unknown"
  const UNKNOWN: Bytes := [0x75, 0x6e, 0x6b, 0x6e, 0x6f, 0x77, 0x6e]

  datatype FanoutMessage = FanoutMessage(topicKey: Key, topic: Bytes, payload: Bytes)

  function Learn(c: Cache, name: Bytes, key: Key): Cache
  {
    Cache(c.keys[name := key], c.names[key := name])
  }

  // What get_topic_key makes of the packet on the temporary connection; None is
  // no packet: a timeout, a disconnect or a failed connection.
  function Answered(c: Cache, packet: Option<Bytes>): Result<(Cache, Key)>
  {
    if packet.None? then Thrown
    else match ReadReply(packet.value)
      case Got(Answer(key, name)) => Returned((Learn(c, name, key), key))
      case _ => Thrown
  }

  // get_topic_key, given what a lookup would bring.
  function Lookup(c: Cache, topic: Bytes, packet: Option<Bytes>): Result<(Cache, Key)>
  {
    if topic in c.keys then Returned((c, c.keys[topic])) else Answered(c, packet)
  }

  // The cache after get_topic_key: a call that throws leaves it as it was.
  function CacheAfter(c: Cache, r: Result<(Cache, Key)>): Cache
  {
    if r.Returned? then r.value.0 else c
  }

  // A cached name gives its key and changes nothing; otherwise the server's answer
  // gives its key, which both maps remember; without a packet, or with one that is
  // too short or of another type, the call throws.
  lemma LookupMeans(c: Cache, topic: Bytes, packet: Option<Bytes>)
    ensures var result := Lookup(c, topic, packet);
            && (topic in c.keys ==> result == Returned((c, c.keys[topic])))
            && (topic !in c.keys && (packet.None? || |packet.value| < 16 || packet.value[7] != 2) ==> result.Thrown?)
            && forall e: Endian, k: Key ::
                 topic !in c.keys && packet == Some(WriteReply(e, Answer(k, topic))) ==>
                   result == Returned((Cache(c.keys[topic := k], c.names[k := topic]), k))
  {
    hide WriteReply;
    forall e: Endian, k: Key | topic !in c.keys && packet == Some(WriteReply(e, Answer(k, topic)))
      ensures Lookup(c, topic, packet) == Returned((Cache(c.keys[topic := k], c.names[k := topic]), k))
    {
      ReplyRoundTrip(e, Answer(k, topic));
    }
  }

  // poll, given the packet read from the main connection.
  function Delivered(c: Cache, m: Bytes): Result<Option<FanoutMessage>>
  {
    match ReadReply(m)
    case TooShort => Thrown
    case Got(Fanout(key, payload)) =>
      Returned(Some(FanoutMessage(key, if key in c.names then c.names[key] else UNKNOWN, payload)))
    case _ => Returned(None)
  }

  // A packet shorter than a header throws, one of type 6 is the message with the
  // key and payload it carries and the cached name of the key, or "unknown", and
  // any other is none.
  lemma DeliveredMeans(c: Cache, m: Bytes)
    ensures |m| < 16 ==> Delivered(c, m) == Thrown
    ensures |m| >= 16 && m[7] != 6 ==> Delivered(c, m) == Returned(None)
    ensures |m| >= 16 && m[7] == 6 ==>
      && Delivered(c, m).Returned? && Delivered(c, m).value.Some?
      && var g := Delivered(c, m).value.value;
         && g.topicKey == BigValue(m[8..16]) && g.payload == m[16..]
         && (g.topicKey in c.names ==> g.topic == c.names[g.topicKey])
         && (g.topicKey !in c.names ==> |g.topic| == 7 && forall i :: 0 <= i < 7 ==> g.topic[i] as char == "unknown"[i])
  {
    assert forall i :: 0 <= i < 7 ==> UNKNOWN[i] as char == "unknown"[i];
  }

  // Each map is the inverse of the other.
  ghost predicate Inverse(c: Cache)
  {
    && (forall n :: n in c.keys ==> c.keys[n] in c.names && c.names[c.keys[n]] == n)
    && (forall k :: k in c.names ==> c.names[k] in c.keys && c.keys[c.names[k]] == k)
  }

  // Learning a new pair keeps the maps inverse exactly when its key is new or already means that name.
  lemma LearnInverse(c: Cache, name: Bytes, key: Key)
    requires Inverse(c) && name !in c.keys
    ensures Inverse(Learn(c, name, key)) <==> key !in c.names
  {
    var c' := Learn(c, name, key);
    if key in c.names {
      var other := c.names[key];
      assert other in c'.keys && c'.keys[other] == key && c'.names[key] == name;
    }
  }
}
