// Non-owning byte views and the packet builder whose one buffer every
// construction overwrites (include/spraybus/networking/protocol.hpp:282-401).

module Buffers {
  import opened Protocol

  // A block of memory that a span can point into.
  class Memory {
    var bytes: Bytes

    constructor (bytes: Bytes)
      ensures this.bytes == bytes
    {
      this.bytes := bytes;
    }
  }

  // std::span<std::byte>: a view, read at the moment it is used.
  datatype Span = Empty | View(mem: Memory, start: nat, len: nat) {
    ghost predicate Valid()
      reads if this.View? then {mem} else {}
    {
      this.View? ==> start + len <= |mem.bytes|
    }

    function Bytes(): (s: Protocol.Bytes)
      requires Valid()
      reads if this.View? then {mem} else {}
    {
      if this.Empty? then [] else mem.bytes[start..start + len]
    }

    // The view does not look into the given block.
    ghost predicate Avoids(other: Memory) { this.View? ==> mem != other }
  }

  // The whole of a block.
  function Whole(mem: Memory): Span
    reads mem
  {
    View(mem, 0, |mem.bytes|)
  }

  class Constructor {
    const endian: Endian
    const buffer: Memory

    constructor (e: Endian)
      ensures endian == e && fresh(buffer)
    {
      endian := e;
      buffer := new Memory([]);
    }

    // The payload must not look into the buffer: clearing it would lose the payload.
    method Construct(header: Header, payload: Span) returns (packet: Span)
      requires payload.Valid() && payload.Avoids(buffer)
      modifies buffer
      ensures packet == Whole(buffer) && packet.Valid()
      ensures packet.Bytes() == Protocol.Construct(endian, header, old(payload.Bytes()))
    {
      buffer.bytes := [];
      buffer.bytes := buffer.bytes + HeaderBytes(endian, header);
      buffer.bytes := buffer.bytes + payload.Bytes();
      packet := Whole(buffer);
    }

    method TopicRequest(name: Bytes) returns (packet: Span)
      modifies buffer
      ensures packet == Whole(buffer) && packet.Valid()
      ensures packet.Bytes() == PacketOf(endian, FROM_CLIENT, TOPIC_REQUEST, 0, name)
    {
      var text := new Memory(name);
      packet := Construct(MakeHeader(endian, FROM_CLIENT, TOPIC_REQUEST, 0), Whole(text));
    }

    method TopicResponse(key: Key, name: Bytes) returns (packet: Span)
      modifies buffer
      ensures packet == Whole(buffer) && packet.Valid()
      ensures packet.Bytes() == PacketOf(endian, FROM_SERVER, TOPIC_RESPONSE, key, name)
    {
      var text := new Memory(name);
      packet := Construct(MakeHeader(endian, FROM_SERVER, TOPIC_RESPONSE, key), Whole(text));
    }

    method Publish(key: Key, payload: Span) returns (packet: Span)
      requires payload.Valid() && payload.Avoids(buffer)
      modifies buffer
      ensures packet == Whole(buffer) && packet.Valid()
      ensures packet.Bytes() == PacketOf(endian, FROM_CLIENT, PUBLISH, key, old(payload.Bytes()))
    {
      packet := Construct(MakeHeader(endian, FROM_CLIENT, PUBLISH, key), payload);
    }

    method Subscribe(key: Key) returns (packet: Span)
      modifies buffer
      ensures packet == Whole(buffer) && packet.Valid()
      ensures packet.Bytes() == PacketOf(endian, FROM_CLIENT, SUBSCRIBE, key, [])
    {
      packet := Construct(MakeHeader(endian, FROM_CLIENT, SUBSCRIBE, key), Empty);
    }

    method Unsubscribe(key: Key) returns (packet: Span)
      modifies buffer
      ensures packet == Whole(buffer) && packet.Valid()
      ensures packet.Bytes() == PacketOf(endian, FROM_CLIENT, UNSUBSCRIBE, key, [])
    {
      packet := Construct(MakeHeader(endian, FROM_CLIENT, UNSUBSCRIBE, key), Empty);
    }

    method Fanout(key: Key, payload: Span) returns (packet: Span)
      requires payload.Valid() && payload.Avoids(buffer)
      modifies buffer
      ensures packet == Whole(buffer) && packet.Valid()
      ensures packet.Bytes() == PacketOf(endian, FROM_SERVER, FANOUT, key, old(payload.Bytes()))
    {
      packet := Construct(MakeHeader(endian, FROM_SERVER, FANOUT, key), payload);
    }
  }
}
