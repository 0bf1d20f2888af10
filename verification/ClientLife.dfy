// The whole life of a high-level client: any polls and lookups on any reports,
// and then the destructor (src/spraybus/client/client.cpp:8-73).

module ClientLife {
  import opened Wrappers
  import opened Protocol
  import opened Buffers
  import opened Enet
  import opened NetworkClient
  import opened ClientSpec
  import Client

  // A lookup comes with what its temporary connection would report.
  datatype Use = Poll | LookUp(topic: Bytes, connects: bool, replies: seq<Report>)

  ghost function Replies(use: Use): seq<Report>
  {
    if use.LookUp? then use.replies else []
  }

  ghost function AllReplies(uses: seq<Use>): set<EnetPacket>
  {
    set i, p | 0 <= i < |uses| && p in PacketSet(Replies(uses[i])) :: p
  }

  // Reports as ENet makes them: every packet is reported once, undestroyed, and
  // nothing is reported after a disconnect.
  ghost predicate FromEnet(reports: seq<Report>)
    reads PacketSet(reports)
  {
    && AllDifferent(Packets(reports)) && DisconnectLast(reports)
    && forall p :: p in PacketSet(reports) ==> p.destroyed == 0
  }

  // No packet is reported on two connections.
  ghost predicate Apart(reports: seq<Report>, uses: seq<Use>)
  {
    && (forall i :: 0 <= i < |uses| ==> PacketSet(reports) !! PacketSet(Replies(uses[i])))
    && (forall i, j :: 0 <= i < j < |uses| ==> PacketSet(Replies(uses[i])) !! PacketSet(Replies(uses[j])))
  }

  // How often each packet of a use has been destroyed.
  ghost predicate Destroyed(use: Use, times: nat)
    reads PacketSet(Replies(use))
  {
    forall p :: p in PacketSet(Replies(use)) ==> p.destroyed == times
  }

  // The main connection: what is left unread of its reports, all else destroyed once.
  ghost predicate MainOk(reports: seq<Report>, inbox: seq<Report>)
    reads PacketSet(reports)
  {
    && (exists n :: 0 <= n <= |reports| && inbox == reports[n..])
    && (forall p :: p in PacketSet(reports) ==> p.destroyed == if p in PacketSet(inbox) then 0 else 1)
  }

  // What a use comes to: whether a temporary connection was made and the key, or
  // what poll returns.
  datatype Result1 = Looked(asked: bool, key: Result<Key>) | Polled(message: Result<Option<FanoutMessage>>)

  function Asked(r: Result1): bool { r.Looked? && r.asked }

  // What poll makes of the k-th report on the main connection.
  function PollOf(c: Cache, reports: seq<Report>, k: nat): Result<Option<FanoutMessage>>
    reads if k < |reports| && reports[k].Received? then {reports[k].packet.memory} else {}
  {
    if k >= |reports| then Returned(None)
    else
      match reports[k]
      case Received(p) => Delivered(c, p.memory.bytes)
      case Disconnected => Thrown
      case Other => Returned(None)
  }

  function FirstReply(use: Use): Option<Bytes>
    requires use.LookUp?
    reads if use.replies != [] && use.replies[0].Received? then {use.replies[0].packet.memory} else {}
  {
    if use.connects then Client.FirstPacket(use.replies) else None
  }

  function PollsIn(uses: seq<Use>): nat
  {
    if uses == [] then 0 else PollsIn(uses[..|uses| - 1]) + if uses[|uses| - 1].Poll? then 1 else 0
  }

  // The reports from the k-th on.
  function From(reports: seq<Report>, k: nat): seq<Report>
  {
    if k <= |reports| then reports[k..] else []
  }

  ghost function Memories(reports: seq<Report>): set<Memory>
  {
    set i | 0 <= i < |reports| && reports[i].Received? :: reports[i].packet.memory
  }

  // A use takes the caches from c to c' and comes to r, after k polls.
  ghost predicate ComesTo(use: Use, reports: seq<Report>, k: nat, c: Cache, c': Cache, r: Result1)
    reads Memories(reports), Memories(Replies(use))
  {
    match use
    case Poll => c' == c && r == Polled(PollOf(c, reports, k))
    case LookUp(topic, connects, replies) =>
      var result := Lookup(c, topic, FirstReply(use));
      && c' == CacheAfter(c, result)
      && r == Looked(connects && topic !in c.keys, if result.Returned? then Returned(result.value.1) else Thrown)
  }

  // Whatever is polled, looked up and left unread, each use comes to what the
  // caches and the reports say, and in the end every packet of the main connection
  // and of each temporary connection that was made has been destroyed exactly once.
  // caches are those before each use, and after the last one.
  method Live(e: Endian, reports: seq<Report>, uses: seq<Use>)
    returns (results: seq<Result1>, ghost caches: seq<Cache>)
    requires FromEnet(reports) && Apart(reports, uses)
    requires forall i :: 0 <= i < |uses| ==> FromEnet(Replies(uses[i]))
    modifies PacketSet(reports), AllReplies(uses)
    ensures forall p :: p in PacketSet(reports) ==> p.destroyed == 1
    ensures |results| == |uses| && |caches| == |uses| + 1 && caches[0] == EMPTY
    ensures forall i :: 0 <= i < |uses| ==>
      old(ComesTo(uses[i], reports, PollsIn(uses[..i]), caches[i], caches[i + 1], results[i]))
    ensures forall i :: 0 <= i < |uses| ==> Destroyed(uses[i], if Asked(results[i]) then 1 else 0)
  {
    hide MainOk, FromEnet, Destroyed, Packets, ComesTo, PollsIn, From, Progress, DisconnectLast, Apart, AllDifferent;
    NothingDone(reports, uses);
    Begins(reports);
    AllIn(uses);
    var client := new Client.Client(e, reports);
    results, caches := [], [EMPTY];
    var i := 0;
    while i < |uses|
      invariant 0 <= i <= |uses| && |results| == i && |caches| == i + 1 && caches[0] == EMPTY
      invariant MainOk(reports, client.m_client.inbox) && client.m_client.inbox == From(reports, PollsIn(uses[..i]))
      invariant fresh(client) && fresh(client.m_client) && fresh(client.m_protocol_constructor.buffer)
      invariant client.View() == caches[i]
      invariant forall j :: 0 <= j < i ==>
        old(ComesTo(uses[j], reports, PollsIn(uses[..j]), caches[j], caches[j + 1], results[j]))
      invariant Progress(uses, results)
    {
      var result := NextUse(client, reports, uses, results);
      var cache := client.View();
      assert old(ComesTo(uses[i], reports, PollsIn(uses[..i]), caches[i], cache, result));
      ghost var results', caches' := results + [result], caches + [cache];
      forall j | 0 <= j <= i
        ensures old(ComesTo(uses[j], reports, PollsIn(uses[..j]), caches'[j], caches'[j + 1], results'[j]))
      {
        assert j < i ==>
            caches'[j] == caches[j] && caches'[j + 1] == caches[j + 1] && results'[j] == results[j];
      }
      results, caches, i := results + [result], caches', i + 1;
    }
    AllOver(reports, uses, results);
    Finish(client, reports);
  }

  // The next use, seen from all of them.
  method NextUse(client: Client.Client, reports: seq<Report>, uses: seq<Use>, results: seq<Result1>)
    returns (result: Result1)
    requires |results| < |uses| && Progress(uses, results) && Apart(reports, uses)
    requires MainOk(reports, client.m_client.inbox) && AllDifferent(Packets(reports))
    requires client.m_client.inbox == From(reports, PollsIn(uses[..|results|]))
    requires forall p :: p in PacketSet(Replies(uses[|results|])) ==> p.memory != client.m_protocol_constructor.buffer
    requires client.m_protocol_constructor.buffer !in Memories(reports) + Memories(Replies(uses[|results|]))
    modifies client`m_topic_map, client`m_inverse_topic_map, client.m_protocol_constructor.buffer
    modifies client.m_client`inbox, PacketSet(reports), AllReplies(uses)
    ensures MainOk(reports, client.m_client.inbox)
    ensures client.m_client.inbox == From(reports, PollsIn(uses[..|results| + 1]))
    ensures Progress(uses, results + [result])
    ensures ComesTo(uses[|results|], reports, PollsIn(uses[..|results|]), old(client.View()), client.View(), result)
  {
    hide MainOk, FromEnet, Destroyed, Packets, ComesTo, PollsIn, From, Progress, DisconnectLast, Apart;
    label before:
    AboutNext(reports, uses, results);
    OneMore(uses, |results|);
    result := UseOnce(client, reports, uses[|results|], PollsIn(uses[..|results|]));
    OneUsed@before(reports, uses, results, result);
  }

  // The uses so far are over, and the others have not begun.
  ghost predicate Progress(uses: seq<Use>, results: seq<Result1>)
    reads AllReplies(uses)
  {
    && |results| <= |uses|
    && (forall j :: 0 <= j < |results| ==> Destroyed(uses[j], if Asked(results[j]) then 1 else 0))
    && (forall j :: |results| <= j < |uses| ==> FromEnet(Replies(uses[j])))
  }

  lemma AboutNext(reports: seq<Report>, uses: seq<Use>, results: seq<Result1>)
    requires Progress(uses, results) && |results| < |uses| && Apart(reports, uses)
    ensures FromEnet(Replies(uses[|results|]))
    ensures PacketSet(reports) !! PacketSet(Replies(uses[|results|]))
    ensures PacketSet(Replies(uses[|results|])) <= AllReplies(uses)
  {
  }

  twostate lemma OneUsed(new reports: seq<Report>, uses: seq<Use>, new results: seq<Result1>, new result: Result1)
    requires old(Progress(uses, results)) && |results| < |uses| && Apart(reports, uses)
    requires Destroyed(uses[|results|], if Asked(result) then 1 else 0)
    requires forall p :: p in AllReplies(uses) - PacketSet(reports) - PacketSet(Replies(uses[|results|])) ==>
      p.destroyed == old(p.destroyed)
    ensures Progress(uses, results + [result])
  {
    hide Packets, PacketSet, AllReplies;
    AllIn(uses);
  }

  lemma OneMore(uses: seq<Use>, i: nat)
    requires i < |uses|
    ensures PollsIn(uses[..i + 1]) == if uses[i].Poll? then PollsIn(uses[..i]) + 1 else PollsIn(uses[..i])
  {
    assert uses[..i + 1][..i] == uses[..i];
  }

  lemma AllOver(reports: seq<Report>, uses: seq<Use>, results: seq<Result1>)
    requires Progress(uses, results) && |results| == |uses| && Apart(reports, uses)
    ensures forall i :: 0 <= i < |uses| ==> Destroyed(uses[i], if Asked(results[i]) then 1 else 0)
    ensures forall i :: 0 <= i < |uses| ==> PacketSet(reports) !! PacketSet(Replies(uses[i]))
  {
  }

  lemma NothingDone(reports: seq<Report>, uses: seq<Use>)
    requires forall i :: 0 <= i < |uses| ==> FromEnet(Replies(uses[i]))
    ensures Progress(uses, [])
    ensures PollsIn(uses[..0]) == 0 && From(reports, 0) == reports
  {
  }

  // One use, seen from the main connection and from its own temporary one.
  method UseOnce(client: Client.Client, reports: seq<Report>, use: Use, ghost k: nat) returns (result: Result1)
    requires MainOk(reports, client.m_client.inbox) && AllDifferent(Packets(reports))
    requires client.m_client.inbox == From(reports, k)
    requires FromEnet(Replies(use)) && PacketSet(reports) !! PacketSet(Replies(use))
    requires forall p :: p in PacketSet(Replies(use)) ==> p.memory != client.m_protocol_constructor.buffer
    requires client.m_protocol_constructor.buffer !in Memories(reports) + Memories(Replies(use))
    modifies client`m_topic_map, client`m_inverse_topic_map, client.m_protocol_constructor.buffer
    modifies client.m_client`inbox, PacketSet(reports), PacketSet(Replies(use))
    ensures MainOk(reports, client.m_client.inbox)
    ensures client.m_client.inbox == From(reports, if use.Poll? then k + 1 else k)
    ensures Destroyed(use, if Asked(result) then 1 else 0)
    ensures ComesTo(use, reports, k, old(client.View()), client.View(), result)
  {
    hide MainOk, FromEnet, Destroyed, Packets, Lookup, Delivered, CacheAfter;
    if use.LookUp? {
      result := LookUpOnce(client, use);
    } else {
      var message := PollOnce(client, reports, k);
      result := Polled(message);
      Unasked(use);
    }
  }

  lemma Begins(reports: seq<Report>)
    requires FromEnet(reports)
    ensures MainOk(reports, reports) && AllDifferent(Packets(reports)) && DisconnectLast(reports)
  {
    assert reports[0..] == reports;
  }

  lemma AllIn(uses: seq<Use>)
    ensures forall i :: 0 <= i < |uses| ==> PacketSet(Replies(uses[i])) <= AllReplies(uses)
  {
  }

  lemma Unasked(use: Use)
    requires use.Poll?
    ensures Destroyed(use, 0)
  {
  }

  // The rest of a sequence of reports brings packets of it, each once.
  lemma {:induction false} Suffix(reports: seq<Report>, n: nat)
    requires n <= |reports| && AllDifferent(Packets(reports))
    ensures PacketSet(reports[n..]) <= PacketSet(reports) && AllDifferent(Packets(reports[n..]))
  {
    if n > 0 {
      ReadOne(reports);
      assert reports[1..][n - 1..] == reports[n..];
      Suffix(reports[1..], n - 1);
      assert PacketSet(reports[1..]) <= PacketSet(reports);
    } else {
      assert reports[0..] == reports;
    }
  }

  lemma Unread(reports: seq<Report>, inbox: seq<Report>) returns (n: nat)
    requires MainOk(reports, inbox) && AllDifferent(Packets(reports))
    ensures n <= |reports| && inbox == reports[n..] && PacketSet(inbox) <= PacketSet(reports)
    ensures AllDifferent(Packets(inbox)) && (DisconnectLast(reports) ==> DisconnectLast(inbox))
    ensures forall p :: p in PacketSet(inbox) ==> p.destroyed == 0
  {
    n :| 0 <= n <= |reports| && inbox == reports[n..];
    Suffix(reports, n);
  }

  // Reading one report and destroying its packet, if it brings one.
  twostate lemma OneRead(reports: seq<Report>, new n: nat)
    requires n < |reports| && AllDifferent(Packets(reports)) && old(MainOk(reports, reports[n..]))
    requires reports[n].Received? ==> reports[n].packet.destroyed == 1
    requires forall p :: p in PacketSet(reports) && (reports[n].Received? ==> p != reports[n].packet) ==>
      p.destroyed == old(p.destroyed)
    ensures MainOk(reports, reports[n + 1..])
  {
    hide Packets, PacketSet;
    NextUnread(reports, n);
  }

  lemma NextUnread(reports: seq<Report>, n: nat)
    requires n < |reports| && AllDifferent(Packets(reports))
    ensures var read := if reports[n].Received? then {reports[n].packet} else {};
            && PacketSet(reports[n..]) == read + PacketSet(reports[n + 1..]) && read !! PacketSet(reports[n + 1..])
            && PacketSet(reports[n..]) <= PacketSet(reports)
  {
    hide Packets;
    Suffix(reports, n);
    ReadOne(reports[n..]);
    assert reports[n..][1..] == reports[n + 1..];
  }

  method PollOnce(client: Client.Client, reports: seq<Report>, ghost k: nat)
    returns (r: Result<Option<FanoutMessage>>)
    requires MainOk(reports, client.m_client.inbox) && AllDifferent(Packets(reports))
    requires client.m_client.inbox == From(reports, k)
    modifies client.m_client`inbox, PacketSet(reports)
    ensures MainOk(reports, client.m_client.inbox) && client.m_client.inbox == From(reports, k + 1)
    ensures r == old(PollOf(client.View(), reports, k))
  {
    hide MainOk, Delivered;
    ghost var inbox := client.m_client.inbox;
    ghost var n := Unread(reports, inbox);
    if inbox != [] {
      ReadOne(inbox);
      assert |inbox| == |reports| - k && n == k;
    }
    r := client.Poll();
    if inbox != [] {
      assert inbox[1..] == reports[n + 1..];
      OneRead(reports, n);
    }
  }

  method LookUpOnce(client: Client.Client, use: Use) returns (result: Result1)
    requires use.LookUp? && FromEnet(use.replies)
    requires forall p :: p in PacketSet(use.replies) ==> p.memory != client.m_protocol_constructor.buffer
    modifies client`m_topic_map, client`m_inverse_topic_map, client.m_protocol_constructor.buffer
    modifies PacketSet(use.replies)
    ensures Destroyed(use, if Asked(result) then 1 else 0)
    ensures var looked := Lookup(old(client.View()), use.topic, old(FirstReply(use)));
            && client.View() == CacheAfter(old(client.View()), looked)
            && result == Looked(use.connects && use.topic !in old(client.View()).keys,
                                if looked.Returned? then Returned(looked.value.1) else Thrown)
  {
    hide Lookup, CacheAfter;
    var made := use.connects && use.topic !in client.m_topic_map;
    DrainReadsAll(use.replies);
    var key, _ := client.GetTopicKey(use.topic, use.connects, use.replies);
    result := Looked(made, key);
  }

  // The destructor reads and destroys what is left.
  method Finish(client: Client.Client, reports: seq<Report>)
    requires MainOk(reports, client.m_client.inbox) && AllDifferent(Packets(reports)) && DisconnectLast(reports)
    modifies client.m_client`inbox, PacketSet(reports)
    ensures forall p :: p in PacketSet(reports) ==> p.destroyed == 1
  {
    ghost var n := Unread(reports, client.m_client.inbox);
    DrainReadsAll(client.m_client.inbox);
    client.Close();
  }
}
