// One ENet connection seen from the client's end, and the wrapper that owns a
// received packet (include/spraybus/networking/client/client.hpp).

module NetworkClient {
  import opened Wrappers
  import opened Protocol
  import opened Buffers
  import opened Enet

  // networking::client::Packet. A wrapper owns the packet it points to.
  class Packet {
    var m_packet: EnetPacket?

    ghost predicate Valid()
      reads this, m_packet
    {
      m_packet != null ==> m_packet.destroyed == 0
    }

    constructor (packet: EnetPacket?)
      ensures m_packet == packet
    {
      m_packet := packet;
    }

    // Move construction: the new wrapper owns the packet, the old one nothing.
    constructor MoveFrom(other: Packet)
      modifies other
      ensures m_packet == old(other.m_packet) && other.m_packet == null
    {
      m_packet := other.m_packet;
      new;
      other.m_packet := null;
    }

    // Move assignment; assigning a wrapper to itself does nothing.
    method Assign(other: Packet)
      requires Valid() && other.Valid()
      requires this != other && m_packet != null ==> m_packet != other.m_packet
      modifies this, other, m_packet
      ensures Valid()
      ensures this == other ==> m_packet == old(m_packet) && (m_packet != null ==> m_packet.destroyed == 0)
      ensures this != other ==> m_packet == old(other.m_packet) && other.m_packet == null
      ensures this != other && old(m_packet) != null ==> old(m_packet).destroyed == 1
    {
      if this != other {
        if m_packet != null {
          m_packet.Destroy();
        }
        m_packet := other.m_packet;
        other.m_packet := null;
      }
    }

    // The destructor.
    method Release()
      requires Valid()
      modifies this, m_packet
      ensures m_packet == null
      ensures old(m_packet) != null ==> old(m_packet).destroyed == 1
    {
      if m_packet != null {
        m_packet.Destroy();
      }
      m_packet := null;
    }
  }

  // What enet_host_service reports to a client.
  datatype Report = Received(packet: EnetPacket) | Disconnected | Other

  // The packets of the reports up to the first disconnect.
  function Pending(reports: seq<Report>): (packets: seq<EnetPacket>)
    ensures forall i :: 0 <= i < |packets| ==> Received(packets[i]) in reports
  {
    if reports == [] || reports[0].Disconnected? then []
    else if reports[0].Received? then [reports[0].packet] + Pending(reports[1..])
    else Pending(reports[1..])
  }

  lemma PendingFirst(reports: seq<Report>)
    ensures Pending(reports) ==
            if reports == [] || reports[0].Disconnected? then []
            else (if reports[0].Received? then [reports[0].packet] else []) + Pending(reports[1..])
  {
  }

  // The packets of all reports.
  function Packets(reports: seq<Report>): (packets: seq<EnetPacket>)
    ensures forall i :: 0 <= i < |packets| ==> Received(packets[i]) in reports
  {
    if reports == [] then []
    else if reports[0].Received? then [reports[0].packet] + Packets(reports[1..])
    else Packets(reports[1..])
  }

  ghost function PacketSet(reports: seq<Report>): set<EnetPacket>
  {
    set p | p in Packets(reports)
  }

  // The reports left once the destructor has stopped reading them.
  function AfterDrain(reports: seq<Report>): seq<Report>
  {
    if reports == [] then []
    else if reports[0].Disconnected? then reports[1..]
    else AfterDrain(reports[1..])
  }

  lemma {:induction false} PacketsSplit(reports: seq<Report>)
    ensures Packets(reports) == Pending(reports) + Packets(AfterDrain(reports))
  {
    if reports != [] && !reports[0].Disconnected? { PacketsSplit(reports[1..]); }
  }

  // ENet reports nothing after a disconnect.
  predicate DisconnectLast(reports: seq<Report>)
  {
    forall i :: 0 <= i < |reports| - 1 ==> !reports[i].Disconnected?
  }

  // Then the drain reads every packet.
  lemma {:induction false} DrainReadsAll(reports: seq<Report>)
    requires DisconnectLast(reports)
    ensures AfterDrain(reports) == [] && Pending(reports) == Packets(reports)
  {
    if reports != [] && !reports[0].Disconnected? { DrainReadsAll(reports[1..]); }
  }

  lemma HeadSplit(head: EnetPacket, rest: seq<EnetPacket>)
    requires AllDifferent([head] + rest)
    ensures AllDifferent(rest) && head !in rest
  {
    var all := [head] + rest;
    forall i | 0 <= i < |rest| ensures rest[i] != head {
      assert all[i + 1] == rest[i] && all[0] == head;
    }
    forall i, j | 0 <= i < j < |rest| ensures rest[i] != rest[j] {
      assert all[i + 1] == rest[i] && all[j + 1] == rest[j];
    }
  }

  // Reading one report takes its packet, and no other, out of the unread ones.
  lemma ReadOne(reports: seq<Report>)
    requires reports != [] && AllDifferent(Packets(reports))
    ensures AllDifferent(Packets(reports[1..]))
    ensures Packets(reports) == (if reports[0].Received? then [reports[0].packet] else []) + Packets(reports[1..])
    ensures forall p :: p in Packets(reports[1..]) ==> p in Packets(reports)
    ensures reports[0].Received? ==>
      reports[0].packet in Packets(reports) && reports[0].packet !in Packets(reports[1..])
  {
    if reports[0].Received? {
      HeadSplit(reports[0].packet, Packets(reports[1..]));
    }
  }

  class Client {
    var inbox: seq<Report>   // reports not yet read
    var outbox: seq<Bytes>   // packets handed to enet_peer_send

    // Unread packets are undestroyed, and none is reported twice.
    ghost predicate Valid()
      reads this, Packets(inbox)
    {
      AllDifferent(Packets(inbox)) && forall p :: p in Packets(inbox) ==> p.destroyed == 0
    }

    // A connection that has been established, with the reports it will make.
    constructor (reports: seq<Report>)
      ensures inbox == reports && outbox == []
    {
      inbox, outbox := reports, [];
    }

    method Send(data: Span)
      requires data.Valid()
      modifies this`outbox
      ensures outbox == old(outbox) + [data.Bytes()]
    {
      outbox := outbox + [data.Bytes()];
    }

    // Poll once. The packet read, if any, belongs to the wrapper from now on.
    method Process(packet: Packet) returns (r: Result<bool>)
      requires Valid() && packet.Valid() && packet.m_packet !in Packets(inbox)
      modifies this`inbox, packet, packet.m_packet
      ensures Valid() && packet.Valid()
      ensures r == (if old(inbox) == [] then Returned(false)
                    else if old(inbox)[0].Disconnected? then Thrown
                    else Returned(old(inbox)[0].Received?))
      ensures inbox == if old(inbox) == [] then [] else old(inbox)[1..]
      ensures r == Returned(true) ==>
        && packet.m_packet == old(inbox)[0].packet && packet.m_packet !in Packets(inbox)
        && (old(packet.m_packet) != null ==> old(packet.m_packet).destroyed == 1)
      ensures r != Returned(true) ==>
        packet.m_packet == old(packet.m_packet) && (packet.m_packet != null ==> packet.m_packet.destroyed == 0)
    {
      if inbox == [] {
        return Returned(false);
      }
      var event := inbox[0];
      ReadOne(inbox);
      inbox := inbox[1..];
      match event
      case Received(p) =>
        var taken := new Packet(p);
        packet.Assign(taken);
        return Returned(true);
      case Disconnected => return Thrown;
      case Other => return Returned(false);
    }

    // Wait for a packet; no report within the time limit is an empty inbox.
    method Recv() returns (r: Result<Packet>)
      requires Valid()
      modifies this`inbox
      ensures Valid()
      ensures inbox == if old(inbox) == [] then [] else old(inbox)[1..]
      ensures r.Returned? <==> old(inbox) != [] && old(inbox)[0].Received?
      ensures r.Returned? ==>
        && fresh(r.value) && r.value.m_packet == old(inbox)[0].packet
        && r.value.Valid() && r.value.m_packet !in Packets(inbox)
    {
      if inbox == [] {
        return Thrown;
      }
      var event := inbox[0];
      ReadOne(inbox);
      inbox := inbox[1..];
      match event
      case Received(p) =>
        var taken := new Packet(p);
        return Returned(taken);
      case _ => return Thrown;
    }

    // The destructor: read and destroy packets until the disconnect is reported.
    method Close()
      requires Valid()
      modifies this`inbox, PacketSet(inbox)
      ensures Valid() && inbox == AfterDrain(old(inbox))
      ensures forall p :: p in Pending(old(inbox)) ==> p.destroyed == 1
    {
      var more := true;
      while more && inbox != []
        invariant Valid()
        invariant AfterDrain(old(inbox)) == if more then AfterDrain(inbox) else inbox
        invariant forall p :: p in Packets(inbox) ==> p in old(Packets(inbox))
        invariant forall p :: p in Pending(old(inbox)) ==> p.destroyed == 1 || (more && p in Pending(inbox))
        decreases more, |inbox|
      {
        var event := inbox[0];
        ReadOne(inbox);
        inbox := inbox[1..];
        match event
        case Disconnected => more := false;
        case Received(p) => p.Destroy();
        case Other =>
      }
    }
  }
}
