// Programs that use a connection and pass its packets about: over any sequence
// of polls, receives, moves, assignments and drops each packet has one owner and
// is destroyed once (include/spraybus/networking/client/client.hpp:25-191).

module PacketOwners {
  import opened Wrappers
  import opened Enet
  import opened NetworkClient

  // Each reported packet is unread, held in exactly one variable, or destroyed.
  ghost predicate Partition(unread: seq<EnetPacket>, held: map<nat, EnetPacket>, gone: set<EnetPacket>,
                            reported: set<EnetPacket>)
  {
    && (forall p :: p in unread ==> p in reported && p !in gone)
    && (forall a :: a in held ==> held[a] in reported && held[a] !in unread && held[a] !in gone)
    && (forall a, b :: a in held && b in held && held[a] == held[b] ==> a == b)
    && (forall p :: p in reported ==> p in unread || p in gone || p in held.Values)
  }

  lemma Apart(unread: seq<EnetPacket>, held: map<nat, EnetPacket>, gone: set<EnetPacket>, reported: set<EnetPacket>)
    requires Partition(unread, held, gone, reported)
    ensures forall p :: p in unread ==> p in reported && p !in gone
    ensures forall a :: a in held ==> held[a] in reported && held[a] !in unread && held[a] !in gone
    ensures forall a, b :: a in held && b in held && held[a] == held[b] ==> a == b
  {
  }

  // Without variable a.
  function Dropped(held: map<nat, EnetPacket>, a: nat): (r: map<nat, EnetPacket>)
    ensures forall b :: b in r <==> b in held && b != a
    ensures forall b :: b in r ==> r[b] == held[b]
  {
    map b | b in held && b != a :: held[b]
  }

  function Only(held: map<nat, EnetPacket>, a: nat): set<EnetPacket>
  {
    if a in held then {held[a]} else {}
  }

  lemma PartitionDropped(unread: seq<EnetPacket>, held: map<nat, EnetPacket>, gone: set<EnetPacket>,
                         reported: set<EnetPacket>, a: nat)
    requires Partition(unread, held, gone, reported)
    ensures Partition(unread, Dropped(held, a), gone + Only(held, a), reported)
  {
    var held' := Dropped(held, a);
    forall p | p in reported ensures p in unread || p in gone + Only(held, a) || p in held'.Values {
      if p in held.Values {
        var b :| b in held && held[b] == p;
        if b != a { assert b in held' && held'[b] == p; }
      }
    }
  }

  // Variable a is assigned to variable b.
  function Assigned(held: map<nat, EnetPacket>, a: nat, b: nat): (r: map<nat, EnetPacket>)
    ensures forall c :: c in r <==> (c in held && c != a && c != b) || (c == b && a in held)
    ensures forall c :: c in r ==> r[c] == if c == b && a in held then held[a] else if c in held then held[c] else r[c]
  {
    if a in held then Dropped(Dropped(held, b), a)[b := held[a]] else Dropped(held, b)
  }

  lemma PartitionRead(p: EnetPacket, unread: seq<EnetPacket>, held: map<nat, EnetPacket>, gone: set<EnetPacket>,
                      reported: set<EnetPacket>, a: nat)
    requires Partition([p] + unread, held, gone, reported) && p !in unread && a !in held
    ensures Partition(unread, held[a := p], gone, reported)
  {
    var held' := held[a := p];
    assert p in [p] + unread;
    forall q | q in unread ensures q in reported && q !in gone { assert q in [p] + unread; }
    forall b | b in held' ensures held'[b] in reported && held'[b] !in unread && held'[b] !in gone {
      if b != a { assert held[b] !in [p] + unread; }
    }
    forall q | q in reported ensures q in unread || q in gone || q in held'.Values {
      if q in held.Values {
        var b :| b in held && held[b] == q;
        assert b in held' && held'[b] == q;
      } else if q == p {
        assert a in held' && held'[a] == q;
      }
    }
  }

  lemma PartitionMoved(unread: seq<EnetPacket>, held: map<nat, EnetPacket>, gone: set<EnetPacket>,
                       reported: set<EnetPacket>, a: nat, b: nat)
    requires Partition(unread, held, gone, reported) && a in held && b !in held
    ensures Partition(unread, Dropped(held, a)[b := held[a]], gone, reported)
  {
    var held' := Dropped(held, a)[b := held[a]];
    forall p | p in reported ensures p in unread || p in gone || p in held'.Values {
      if p in held.Values {
        var c :| c in held && held[c] == p;
        assert (if c == a then b else c) in held' && held'[if c == a then b else c] == p;
      }
    }
  }

  lemma PartitionAssigned(unread: seq<EnetPacket>, held: map<nat, EnetPacket>, gone: set<EnetPacket>,
                          reported: set<EnetPacket>, a: nat, b: nat)
    requires Partition(unread, held, gone, reported) && a != b
    ensures Partition(unread, Assigned(held, a, b), gone + Only(held, b), reported)
    ensures b !in held ==> gone + Only(held, b) == gone
  {
    hide Partition;
    PartitionDropped(unread, held, gone, reported, b);
    if a in held {
      PartitionMoved(unread, Dropped(held, b), gone + Only(held, b), reported, a, b);
    }
  }

  // What a program does with its wrappers, which it keeps in numbered variables.
  datatype Operation =
    | Declare(into: nat)
    | PollInto(into: nat)
    | ReceiveAs(into: nat)
    | MoveTo(from: nat, into: nat)
    | AssignTo(from: nat, into: nat)
    | Leave(from: nat)

  class Program {
    const connection: Client
    var wrappers: map<nat, Packet>
    ghost var held: map<nat, EnetPacket>
    ghost var gone: set<EnetPacket>
    ghost var reported: set<EnetPacket>

    // Different variables are different wrappers.
    ghost predicate Separate()
      reads this
    {
      && (forall a, b :: a in wrappers && b in wrappers && wrappers[a] == wrappers[b] ==> a == b)
      && (forall a :: a in held ==> a in wrappers)
    }

    // The wrappers hold these packets; a packet is destroyed, once, when it is gone.
    ghost predicate Holds()
      reads this, wrappers.Values, reported
    {
      && (forall a :: a in wrappers ==> wrappers[a].m_packet == if a in held then held[a] else null)
      && (forall p :: p in reported ==> p.destroyed == if p in gone then 1 else 0)
    }

    ghost predicate Valid()
      reads this, connection, wrappers.Values, Packets(connection.inbox), reported
    {
      && Separate() && connection.Valid() && Holds()
      && Partition(Packets(connection.inbox), held, gone, reported)
    }

    constructor (reports: seq<Report>)
      requires AllDifferent(Packets(reports)) && forall p :: p in Packets(reports) ==> p.destroyed == 0
      ensures Valid() && connection.inbox == reports && reported == PacketSet(reports)
      ensures fresh(connection) && wrappers == map[]
    {
      connection := new Client(reports);
      wrappers, held, gone, reported := map[], map[], {}, PacketSet(reports);
    }

    // A wrapper is declared: it owns nothing.
    method Declare(a: nat)
      requires Valid() && a !in wrappers
      modifies this`wrappers
      ensures Valid() && a in wrappers && wrappers == old(wrappers)[a := wrappers[a]] && fresh(wrappers[a])
      ensures connection.inbox == old(connection.inbox)
    {
      var packet := new Packet(null);
      wrappers := wrappers[a := packet];
    }

    // What is known of a variable.
    lemma Known(a: nat)
      requires Valid() && a in wrappers
      ensures connection.Valid() && wrappers[a].m_packet == (if a in held then held[a] else null)
      ensures a in held ==> held[a] in reported && held[a] !in Packets(connection.inbox) && held[a].destroyed == 0
      ensures forall b :: b in wrappers && wrappers[b] == wrappers[a] ==> b == a
      ensures forall b :: b in held && a in held && held[b] == held[a] ==> b == a
    {
    }

    // Variables but these, and packets but these, are as they were.
    twostate predicate Others(new vars: set<nat>, new packets: set<EnetPacket>)
      reads this, wrappers.Values, reported
    {
      && reported == old(reported)
      && (forall c :: c in wrappers && c !in vars ==>
            c in old(wrappers) && wrappers[c] == old(wrappers)[c] && wrappers[c].m_packet == old(wrappers[c].m_packet))
      && (forall p :: p in reported && p !in packets ==> p.destroyed == old(p.destroyed))
    }

    // process() into a wrapper that may own a packet already.
    method PollInto(a: nat) returns (r: Result<bool>)
      requires Valid() && a in wrappers
      modifies this`held, this`gone, connection`inbox, wrappers[a], reported
      ensures Valid() && wrappers == old(wrappers) && reported == old(reported)
      ensures connection.inbox == if old(connection.inbox) == [] then [] else old(connection.inbox)[1..]
      ensures old(connection.inbox) != [] && old(connection.inbox)[0].Received? ==>
        wrappers[a].m_packet == old(connection.inbox)[0].packet
    {
      hide Valid, Dropped, Packets;
      Known(a);
      r := connection.Process(wrappers[a]);
      if r == Returned(true) {
        gone := gone + Only(held, a);
        held := Dropped(held, a)[a := old(connection.inbox)[0].packet];
        PollKeeps(a);
      } else {
        NoPollKeeps(a);
      }
    }

    twostate lemma PollKeeps(new a: nat)
      requires old(Valid()) && a in old(wrappers) && wrappers == old(wrappers) && Others({a}, Only(old(held), a))
      requires old(connection.inbox) != [] && old(connection.inbox)[0].Received?
      requires connection.inbox == old(connection.inbox)[1..] && connection.Valid()
      requires wrappers[a].m_packet == old(connection.inbox)[0].packet
      requires a in old(held) ==> old(held)[a].destroyed == 1
      requires gone == old(gone) + Only(old(held), a)
      requires held == Dropped(old(held), a)[a := old(connection.inbox)[0].packet]
      ensures Valid()
    {
      hide Partition, Dropped, Packets;
      var unread, p := old(connection.inbox), old(connection.inbox)[0].packet;
      ReadOne(unread);
      PartitionDropped(Packets(unread), old(held), old(gone), reported, a);
      PartitionRead(p, Packets(connection.inbox), Dropped(old(held), a), gone, reported, a);
    }

    twostate lemma NoPollKeeps(new a: nat)
      requires old(Valid()) && a in old(wrappers) && wrappers == old(wrappers) && Others({}, {})
      requires old(connection.inbox) != [] ==> !old(connection.inbox)[0].Received?
      requires connection.inbox == if old(connection.inbox) == [] then [] else old(connection.inbox)[1..]
      requires connection.Valid() && gone == old(gone) && held == old(held)
      ensures Valid()
    {
      hide Partition, Packets;
      if old(connection.inbox) != [] {
        ReadOne(old(connection.inbox));
        assert Packets(old(connection.inbox)) == Packets(connection.inbox);
      }
      Apart(Packets(connection.inbox), old(held), old(gone), reported);
    }

    // recv() into a new wrapper.
    method ReceiveAs(a: nat) returns (r: Result<bool>)
      requires Valid() && a !in wrappers
      modifies this`held, this`wrappers, connection`inbox
      ensures Valid() && reported == old(reported)
      ensures a in wrappers ==> fresh(wrappers[a]) && wrappers == old(wrappers)[a := wrappers[a]]
      ensures a !in wrappers ==> wrappers == old(wrappers)
      ensures connection.inbox == if old(connection.inbox) == [] then [] else old(connection.inbox)[1..]
      ensures a in wrappers <==> old(connection.inbox) != [] && old(connection.inbox)[0].Received?
      ensures a in wrappers ==> wrappers[a].m_packet == old(connection.inbox)[0].packet
    {
      hide Partition;
      ghost var unread := connection.inbox;
      if unread != [] { ReadOne(unread); }
      var packet := connection.Recv();
      if packet.Thrown? {
        return Thrown;
      }
      PartitionRead(unread[0].packet, Packets(connection.inbox), held, gone, reported, a);
      wrappers, held := wrappers[a := packet.value], held[a := unread[0].packet];
      r := Returned(true);
    }

    // Move construction of a new wrapper.
    method MoveTo(a: nat, b: nat)
      requires Valid() && a in wrappers && b !in wrappers
      modifies this`held, this`wrappers, wrappers[a]
      ensures Valid() && reported == old(reported) && connection.inbox == old(connection.inbox)
      ensures b in wrappers && fresh(wrappers[b]) && wrappers == old(wrappers)[b := wrappers[b]]
      ensures Moved(a, b)
    {
      hide Valid, Assigned;
      Known(a);
      var packet := new Packet.MoveFrom(wrappers[a]);
      wrappers := wrappers[b := packet];
      held := Assigned(held, a, b);
      MoveKeeps(a, b);
    }

    twostate lemma MoveKeeps(new a: nat, new b: nat)
      requires old(Valid()) && a in old(wrappers) && b !in old(wrappers)
      requires b in wrappers && fresh(wrappers[b]) && wrappers == old(wrappers)[b := wrappers[b]]
      requires Others({a, b}, {}) && connection.inbox == old(connection.inbox)
      requires wrappers[a].m_packet == null && wrappers[b].m_packet == old(wrappers[a].m_packet)
      requires gone == old(gone) && held == Assigned(old(held), a, b)
      ensures Valid()
    {
      hide Partition, Dropped, Assigned, Packets;
      Apart(Packets(connection.inbox), old(held), old(gone), reported);
      PartitionAssigned(Packets(connection.inbox), old(held), gone, reported, a, b);
    }

    // Move assignment, also of a wrapper to itself.
    method AssignTo(a: nat, b: nat)
      requires Valid() && a in wrappers && b in wrappers
      modifies this`held, this`gone, wrappers[a], wrappers[b], reported
      ensures Valid() && reported == old(reported) && connection.inbox == old(connection.inbox)
      ensures wrappers == old(wrappers) && (a != b ==> Moved(a, b))
    {
      hide Valid, Assigned;
      Known(a);
      Known(b);
      wrappers[b].Assign(wrappers[a]);
      if a == b {
        NothingKeeps();
      } else {
        gone, held := gone + Only(held, b), Assigned(held, a, b);
        AssignKeeps(a, b);
      }
    }

    twostate lemma AssignKeeps(new a: nat, new b: nat)
      requires old(Valid()) && a in old(wrappers) && b in old(wrappers) && a != b && wrappers == old(wrappers)
      requires Others({a, b}, Only(old(held), b)) && connection.inbox == old(connection.inbox)
      requires b in old(held) ==> old(held)[b].destroyed == 1
      requires wrappers[a].m_packet == null && wrappers[b].m_packet == old(wrappers[a].m_packet)
      requires gone == old(gone) + Only(old(held), b) && held == Assigned(old(held), a, b)
      ensures Valid()
    {
      hide Partition, Dropped, Assigned, Packets;
      Apart(Packets(connection.inbox), old(held), old(gone), reported);
      PartitionAssigned(Packets(connection.inbox), old(held), old(gone), reported, a, b);
    }

    twostate lemma NothingKeeps()
      requires old(Valid()) && wrappers == old(wrappers) && Others({}, {})
      requires connection.inbox == old(connection.inbox) && gone == old(gone) && held == old(held)
      ensures Valid()
    {
      hide Partition, Packets;
      Apart(Packets(connection.inbox), old(held), old(gone), reported);
    }

    // A wrapper goes out of scope.
    method Leave(a: nat)
      requires Valid() && a in wrappers
      modifies this`held, this`gone, this`wrappers, wrappers[a], reported
      ensures Valid() && reported == old(reported) && connection.inbox == old(connection.inbox)
      ensures wrappers == old(wrappers) - {a}
    {
      hide Valid, Dropped;
      Known(a);
      wrappers[a].Release();
      gone, held := gone + Only(held, a), Dropped(held, a);
      wrappers := wrappers - {a};
      LeaveKeeps(a);
    }

    twostate lemma LeaveKeeps(new a: nat)
      requires old(Valid()) && a in old(wrappers) && wrappers == old(wrappers) - {a}
      requires Others({}, Only(old(held), a)) && connection.inbox == old(connection.inbox)
      requires a in old(held) ==> old(held)[a].destroyed == 1
      requires gone == old(gone) + Only(old(held), a) && held == Dropped(old(held), a)
      ensures Valid()
    {
      hide Partition, Dropped, Packets;
      Apart(Packets(connection.inbox), old(held), old(gone), reported);
      PartitionDropped(Packets(connection.inbox), old(held), old(gone), reported, a);
    }

    // Variable b owns what a owned, and a owns nothing.
    twostate predicate Moved(a: nat, b: nat)
      requires a in old(wrappers) && a in wrappers && b in wrappers
      reads this, wrappers.Values
    {
      wrappers[b].m_packet == old(wrappers[a].m_packet) && wrappers[a].m_packet == null
    }

    // What an operation does to the variables and to the reports still unread.
    twostate predicate Done(op: Operation)
      reads this, connection, wrappers.Values
    {
      var unread := old(connection.inbox);
      var rest := if unread == [] then [] else unread[1..];
      match op
      case Declare(a) => a in wrappers && connection.inbox == unread
      case PollInto(a) =>
        && wrappers == old(wrappers) && connection.inbox == (if a in wrappers then rest else unread)
        && (a in wrappers && unread != [] && unread[0].Received? ==> wrappers[a].m_packet == unread[0].packet)
      case ReceiveAs(a) =>
        if a in old(wrappers) then connection.inbox == unread
        else connection.inbox == rest && (a in wrappers <==> unread != [] && unread[0].Received?)
      case MoveTo(a, b) =>
        && connection.inbox == unread
        && (a in old(wrappers) && b !in old(wrappers) ==> a in wrappers && b in wrappers && Moved(a, b))
      case AssignTo(a, b) =>
        && connection.inbox == unread && wrappers == old(wrappers)
        && (a in wrappers && b in wrappers && a != b ==> Moved(a, b))
      case Leave(a) => wrappers == old(wrappers) - {a} && connection.inbox == unread
    }

    // One operation; one that the variables do not allow is not in the program.
    method Perform(op: Operation)
      requires Valid()
      modifies this, connection, wrappers.Values, reported
      ensures Valid() && reported == old(reported)
      ensures forall a :: a in wrappers ==> fresh(wrappers[a]) || wrappers[a] in old(wrappers.Values)
      ensures exists n :: 0 <= n <= |old(connection.inbox)| && connection.inbox == old(connection.inbox)[n..]
      ensures Done(op)
    {
      hide Valid, Packets;
      ghost var unread := connection.inbox;
      assert unread[0..] == unread && (unread != [] ==> unread[1..] == unread[1..]);
      match op
      case Declare(a) => if a !in wrappers { Declare(a); }
      case PollInto(a) => if a in wrappers { var _ := PollInto(a); }
      case ReceiveAs(a) => if a !in wrappers { var _ := ReceiveAs(a); }
      case MoveTo(a, b) => if a in wrappers && b !in wrappers { MoveTo(a, b); }
      case AssignTo(a, b) => if a in wrappers && b in wrappers { AssignTo(a, b); }
      case Leave(a) => if a in wrappers { Leave(a); }
    }

    // All wrappers go out of scope, and then the connection is destroyed.
    method End()
      requires Valid()
      modifies this, connection, wrappers.Values, reported
      ensures reported == old(reported) && connection.inbox == AfterDrain(old(connection.inbox))
      ensures forall p :: p in reported ==> p.destroyed == if p in Packets(connection.inbox) then 0 else 1
    {
      hide Packets, Valid;
      while wrappers != map[]
        invariant Valid() && reported == old(reported) && connection.inbox == old(connection.inbox)
        invariant forall a :: a in wrappers ==> wrappers[a] in old(wrappers.Values)
        decreases |wrappers|
      {
        var a :| a in wrappers;
        assert |wrappers - {a}| == |wrappers| - 1;
        Leave(a);
      }
      label left:
      Left();
      PacketsSplit(connection.inbox);
      connection.Close();
      forall p | p in reported ensures p.destroyed == if p in Packets(connection.inbox) then 0 else 1 {
        assert p in old@left(Packets(connection.inbox)) || old@left(p.destroyed) == 1;
      }
    }

    // With no wrapper left, every reported packet is unread or destroyed.
    lemma Left()
      requires Valid() && wrappers == map[]
      ensures connection.Valid() && PacketSet(connection.inbox) <= reported
      ensures forall p :: p in reported ==>
        (p in Packets(connection.inbox) && p.destroyed == 0) || (p !in Packets(connection.inbox) && p.destroyed == 1)
    {
      hide Packets;
      assert held.Values == {};
    }
  }

  lemma Reported(reports: seq<Report>)
    ensures forall p :: p in PacketSet(reports) <==> p in Packets(reports)
  {
  }

  lemma ReadFurther(reports: seq<Report>, n: nat, inbox: seq<Report>) returns (n': nat)
    requires n <= |reports| && exists k :: 0 <= k <= |reports[n..]| && inbox == reports[n..][k..]
    ensures n' <= |reports| && inbox == reports[n'..]
  {
    var k :| 0 <= k <= |reports[n..]| && inbox == reports[n..][k..];
    n' := n + k;
  }

  // A connection's whole life: whatever a program does with what it reports,
  // each packet reported by the end is destroyed exactly once, and if nothing is
  // reported after a disconnect that is every packet.
  method Live(reports: seq<Report>, ops: seq<Operation>) returns (unread: seq<Report>)
    requires AllDifferent(Packets(reports)) && forall p :: p in Packets(reports) ==> p.destroyed == 0
    modifies PacketSet(reports)
    ensures exists n :: 0 <= n <= |reports| && unread == AfterDrain(reports[n..])
    ensures forall p :: p in Packets(reports) ==> p.destroyed == if p in Packets(unread) then 0 else 1
    ensures DisconnectLast(reports) ==> unread == []
  {
    hide Program.Valid, Program.Done, Packets, PacketSet, AfterDrain;
    Reported(reports);
    var program := new Program(reports);
    var i := 0;
    ghost var n := 0;
    assert reports[0..] == reports;
    while i < |ops|
      invariant 0 <= i <= |ops| && program.Valid() && program.reported == PacketSet(reports)
      invariant 0 <= n <= |reports| && program.connection.inbox == reports[n..]
      invariant fresh(program) && fresh(program.connection) && fresh(program.wrappers.Values)
    {
      program.Perform(ops[i]);
      n := ReadFurther(reports, n, program.connection.inbox);
      i := i + 1;
    }
    program.End();
    unread := program.connection.inbox;
    if DisconnectLast(reports) { DrainReadsAll(reports[n..]); }
  }
}
