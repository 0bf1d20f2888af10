// The part of ENet the project relies on: packets with one owner, and the
// events a host reports.

module Enet {
  import opened Protocol
  import opened Buffers

  // ENetPacket; destroyed counts the calls of enet_packet_destroy on it.
  class EnetPacket {
    const memory: Memory
    var destroyed: nat

    constructor (data: Bytes)
      ensures destroyed == 0 && fresh(memory) && memory.bytes == data
    {
      memory := new Memory(data);
      destroyed := 0;
    }

    // enet_packet_destroy: a packet must not be destroyed twice.
    method Destroy()
      requires destroyed == 0
      modifies this
      ensures destroyed == 1
    {
      destroyed := destroyed + 1;
    }
  }

  ghost predicate AllDifferent(packets: seq<EnetPacket>)
  {
    forall i, j :: 0 <= i < j < |packets| ==> packets[i] != packets[j]
  }
}
