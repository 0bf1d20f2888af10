// The server's objects: peers, client records, the two client registries and
// the message handler (include/spraybus/networking/server/server.hpp,
// src/spraybus/server/server.cpp).

module Broker {
  import opened Wrappers
  import opened Protocol
  import opened Messages
  import opened Buffers
  import opened Enet
  import opened Topics
  import opened ServerSpec

  // ENetHost: the packets given to enet_peer_send on the present connection of each slot.
  class Host {
    var sent: seq<seq<Bytes>>

    constructor ()
      ensures sent == seq(MAX_PEERS, _ => [])
    {
      sent := seq(MAX_PEERS, _ => []);
    }
  }

  // ENetPeer: one of the host's slots. ENet keeps connected; data is the
  // application's pointer, which a disconnect leaves dangling.
  class Peer {
    const slot: nat
    var connected: bool
    var data: ClientRecord?

    constructor (slot: nat)
      ensures this.slot == slot && !connected
    {
      this.slot, connected, data := slot, false, null;
    }
  }

  // networking::server::Client<ClientData>
  class ClientRecord {
    const id: Key
    const peer: Peer
    const server: Host
    var subscribed_topics: set<Key>

    constructor (id: Key, peer: Peer, server: Host)
      ensures this.id == id && this.peer == peer && this.server == server && subscribed_topics == {}
    {
      this.id, this.peer, this.server, subscribed_topics := id, peer, server, {};
    }

    // The bytes are copied when the span is read, at the time of the call.
    method Send(message: Span)
      requires message.Valid() && peer.slot < |server.sent|
      modifies server
      ensures server.sent == SentTo(old(server.sent), peer.slot, message.Bytes())
    {
      server.sent := server.sent[peer.slot := server.sent[peer.slot] + [message.Bytes()]];
    }
  }

  function SentTo(sent: seq<seq<Bytes>>, slot: nat, packet: Bytes): (r: seq<seq<Bytes>>)
    requires slot < |sent|
    ensures |r| == |sent|
  {
    sent[slot := sent[slot] + [packet]]
  }

  function Without<K, V>(m: map<K, V>, key: K): map<K, V>
  {
    m - {key}
  }

  // std::erase on the list of clients
  function Erase(clients: seq<ClientRecord>, client: ClientRecord): seq<ClientRecord>
  {
    if clients == [] then []
    else if clients[0] == client then Erase(clients[1..], client)
    else [clients[0]] + Erase(clients[1..], client)
  }

  ghost predicate IdsIncrease(clients: seq<ClientRecord>)
  {
    forall i, j :: 0 <= i < j < |clients| ==> clients[i].id < clients[j].id
  }

  lemma {:induction false} EraseMember(clients: seq<ClientRecord>, client: ClientRecord, x: ClientRecord)
    ensures x in Erase(clients, client) <==> x in clients && x != client
  {
    if clients != [] { EraseMember(clients[1..], client, x); }
  }

  lemma {:induction false} EraseKeepsOrder(clients: seq<ClientRecord>, client: ClientRecord)
    requires IdsIncrease(clients)
    ensures IdsIncrease(Erase(clients, client))
  {
    if clients != [] {
      var rest := Erase(clients[1..], client);
      EraseKeepsOrder(clients[1..], client);
      forall x | x in rest ensures clients[0].id < x.id {
        EraseMember(clients[1..], client, x);
      }
    }
  }

  ghost predicate Live(table: map<Key, ClientRecord>, r: ClientRecord)
  {
    r.id in table && table[r.id] == r
  }

  // The map and the list hold the same records, each once and by increasing id,
  // and these are in bijection with the records seated at the connected slots.
  ghost predicate Agree(table: map<Key, ClientRecord>, list: seq<ClientRecord>, seats: map<nat, ClientRecord>)
  {
    && (forall id :: id in table ==> table[id].id == id && table[id] in list)
    && (forall i :: 0 <= i < |list| ==> Live(table, list[i]))
    && IdsIncrease(list)
    && (forall id :: id in table ==> table[id].peer.slot in seats && seats[table[id].peer.slot] == table[id])
    && (forall slot :: slot in seats ==> Live(table, seats[slot]) && seats[slot].peer.slot == slot)
  }

  lemma AgreeIds(table: map<Key, ClientRecord>, list: seq<ClientRecord>, seats: map<nat, ClientRecord>)
    requires Agree(table, list, seats)
    ensures forall id :: id in table ==> table[id].id == id
  {
  }

  lemma AgreeAdded(table: map<Key, ClientRecord>, list: seq<ClientRecord>, seats: map<nat, ClientRecord>,
                   r: ClientRecord)
    requires Agree(table, list, seats)
    requires r.peer.slot !in seats
    requires forall id :: id in table ==> id < r.id
    ensures Agree(table[r.id := r], list + [r], seats[r.peer.slot := r])
  {
  }

  lemma AgreeRemoved(table: map<Key, ClientRecord>, list: seq<ClientRecord>, seats: map<nat, ClientRecord>,
                     r: ClientRecord)
    requires Agree(table, list, seats) && Live(table, r)
    ensures r.peer.slot in seats && seats[r.peer.slot] == r
    ensures Agree(Without(table, r.id), Erase(list, r), Without(seats, r.peer.slot))
  {
    var list' := Erase(list, r);
    EraseKeepsOrder(list, r);
    forall i | 0 <= i < |list'| ensures Live(table - {r.id}, list'[i]) {
      EraseMember(list, r, list'[i]);
    }
    forall id | id in table && id != r.id ensures table[id] in list' {
      EraseMember(list, r, table[id]);
    }
  }

  // Different numbers below n are at most n.
  lemma {:induction false} DistinctBelow(slots: seq<nat>, n: nat)
    requires forall i :: 0 <= i < |slots| ==> slots[i] < n
    requires forall i, j :: 0 <= i < j < |slots| ==> slots[i] != slots[j]
    ensures |slots| <= n
    decreases n
  {
    if slots != [] {
      assert slots[0] < n;
      if k :| 0 <= k < |slots| && slots[k] == n - 1 {
        DistinctBelow(slots[..k] + slots[k + 1..], n - 1);
      } else {
        DistinctBelow(slots, n - 1);
      }
    }
  }

  lemma AgreeBound(table: map<Key, ClientRecord>, list: seq<ClientRecord>, seats: map<nat, ClientRecord>, n: nat)
    requires Agree(table, list, seats) && forall slot :: slot in seats ==> slot < n
    ensures |list| <= n
  {
    var slots: seq<nat> := seq(|list|, i requires 0 <= i < |list| => list[i].peer.slot);
    forall i | 0 <= i < |list| ensures slots[i] in seats && seats[slots[i]] == list[i] {
      assert Live(table, list[i]);
    }
    forall i, j | 0 <= i < j < |list| ensures slots[i] != slots[j] {
      assert list[i].id < list[j].id;
    }
    DistinctBelow(slots, n);
  }

  // The publish loop forwards to this record.
  predicate Wants(subs: map<nat, set<Key>>, r: ClientRecord, sender: nat, key: Key)
  {
    r.id != sender && r.id in subs && key in subs[r.id]
  }

  // The outgoing packets after walking a list of records.
  function Forward(sent: seq<seq<Bytes>>, list: seq<ClientRecord>, subs: map<nat, set<Key>>,
                   sender: nat, key: Key, packet: Bytes): (r: seq<seq<Bytes>>)
    ensures |r| == |sent|
  {
    if list == [] then sent
    else
      var n := |list| - 1;
      var earlier := Forward(sent, list[..n], subs, sender, key, packet);
      if Wants(subs, list[n], sender, key) && list[n].peer.slot < |sent|
      then SentTo(earlier, list[n].peer.slot, packet)
      else earlier
  }

  lemma ForwardNone(sent: seq<seq<Bytes>>, list: seq<ClientRecord>, subs: map<nat, set<Key>>,
                    sender: nat, key: Key, packet: Bytes)
    ensures Forward(sent, list[..0], subs, sender, key, packet) == sent
  {
  }

  // One more record on the list.
  lemma ForwardNext(sent: seq<seq<Bytes>>, list: seq<ClientRecord>, j: nat, subs: map<nat, set<Key>>,
                    sender: nat, key: Key, packet: Bytes)
    requires j < |list| && list[j].peer.slot < |sent|
    ensures var earlier := Forward(sent, list[..j], subs, sender, key, packet);
            Forward(sent, list[..j + 1], subs, sender, key, packet)
            == if Wants(subs, list[j], sender, key) then SentTo(earlier, list[j].peer.slot, packet) else earlier
  {
    assert list[..j + 1][..j] == list[..j];
  }

  ghost predicate ListFits(list: seq<ClientRecord>, seats: map<nat, ClientRecord>)
  {
    && IdsIncrease(list)
    && (forall i :: 0 <= i < |list| ==> list[i].peer.slot in seats && seats[list[i].peer.slot] == list[i])
    && (forall slot :: slot in seats ==> seats[slot].peer.slot == slot)
  }

  // Each slot whose record is on the list and wants the packet gets it once, at the end.
  lemma {:induction false} ForwardOnce(sent: seq<seq<Bytes>>, list: seq<ClientRecord>, seats: map<nat, ClientRecord>,
                                       subs: map<nat, set<Key>>, sender: nat, key: Key, packet: Bytes, i: nat)
    requires ListFits(list, seats) && i < |sent|
    ensures Forward(sent, list, subs, sender, key, packet)[i]
      == sent[i] + if i in seats && seats[i] in list && Wants(subs, seats[i], sender, key) then [packet] else []
  {
    if list == [] {
      assert sent[i] + [] == sent[i];
    } else {
      var n := |list| - 1;
      var front, r := list[..n], list[n];
      ForwardOnce(sent, front, seats, subs, sender, key, packet, i);
      assert list == front + [r];
      assert r !in front;
      assert sent[i] + [] == sent[i];
      if r.peer.slot == i {
        assert seats[i] == r;
      } else {
        assert i in seats ==> (seats[i] in list <==> seats[i] in front);
      }
    }
  }

  // The effects of a packet from a client, by request.
  function TopicsAfter(t: Table, r: Request): Table
  {
    if r.Ask? then Resolve(t, r.name).0 else t
  }

  function SentAfter(e: Endian, s: ServerSpec.Server, sent: seq<seq<Bytes>>, list: seq<ClientRecord>,
                     client: ClientRecord, r: Request): seq<seq<Bytes>>
    requires client.peer.slot < |sent|
  {
    match r
    case Ask(name) => SentTo(sent, client.peer.slot, WriteReply(e, Answer(Resolve(s.topics, name).1, name)))
    case Publish(key, payload) => Forward(sent, list, s.subs, client.id, key, WriteReply(e, Fanout(key, payload)))
    case _ => sent
  }

  // Slot i's outgoing packets grow by exactly what the abstract server sends to its connection.
  lemma SentMeans(e: Endian, s: ServerSpec.Server, sent: seq<seq<Bytes>>, table: map<Key, ClientRecord>,
                  list: seq<ClientRecord>, seats: map<nat, ClientRecord>, client: ClientRecord, r: Request, i: nat)
    requires Agree(table, list, seats) && Live(table, client)
    requires client.peer.slot < |sent| && i < |sent|
    ensures SentAfter(e, s, sent, list, client, r)[i]
      == sent[i] + if i in seats then Wire(e, ReplyTo(s, client.id, r, seats[i].id)) else []
  {
    hide WriteReply;
    assert sent[i] + [] == sent[i];
    match r
    case Ask(name) =>
      assert i in seats && seats[i].id == client.id ==> i == client.peer.slot;
    case Publish(key, payload) =>
      ForwardOnce(sent, list, seats, s.subs, client.id, key, WriteReply(e, Fanout(key, payload)), i);
    case _ =>
  }

  lemma CanStepPossible(s: ServerSpec.Server, ev: Event)
    requires CanStep(s, ev)
    ensures Possible(s, ev)
  {
  }

  lemma NothingOnDisconnect(e: Endian, s: ServerSpec.Server, slot: nat, d: nat)
    requires Possible(s, Disconnect(slot))
    ensures Wire(e, Sends(s, Disconnect(slot), d)) == []
  {
  }

  // What enet_host_service reports to the server.
  datatype HostEvent =
    | Connected(peer: Peer)
    | Received(peer: Peer, packet: EnetPacket)
    | Disconnected(peer: Peer)

  // The event as the abstract server sees it.
  function Seen(ev: HostEvent): Event
    reads if ev.Received? then {ev.packet.memory} else {}
  {
    match ev
    case Connected(peer) => Connect(peer.slot)
    case Received(peer, packet) => Receive(peer.slot, ReadRequest(packet.memory.bytes))
    case Disconnected(peer) => Disconnect(peer.slot)
  }

  class Server {
    const endian: Endian
    const peers: seq<Peer>
    const m_server: Host
    const m_topic_map: TopicMap
    const m_protocol_constructor: Constructor
    var m_client_map: map<Key, ClientRecord>
    var m_clients: seq<ClientRecord>
    var m_next_client_id: Key
    ghost var connections: nat
    ghost var seats: map<nat, ClientRecord>
    ghost var state: ServerSpec.Server
    ghost var handled: seq<Event>

    // The host's slots.
    ghost predicate Slots()
    {
      && |peers| == MAX_PEERS
      && (forall i :: 0 <= i < MAX_PEERS ==> peers[i].slot == i)
      && m_protocol_constructor.endian == endian
    }

    ghost predicate Hosts(peer: Peer)
    {
      Slots() && peer.slot < MAX_PEERS && peers[peer.slot] == peer
    }

    // Each connected peer's data is the record seated at its slot, and that record points back.
    ghost predicate Seated()
      requires Slots()
      reads this, peers
    {
      && (forall i :: 0 <= i < MAX_PEERS ==> (peers[i].connected <==> i in seats))
      && (forall slot :: slot in seats ==>
            slot < MAX_PEERS && seats[slot].peer == peers[slot] && peers[slot].data == seats[slot]
            && seats[slot].server == m_server)
    }

    // Ids count connections from 1; the counter wraps after 2^64 - 1 of them.
    ghost predicate Numbering()
      reads this
    {
      && connections < TWO64
      && m_next_client_id == (connections + 1) % TWO64
      && (forall id :: id in m_client_map ==> 0 < id <= connections)
    }

    // The records hold the subscriptions of the abstract state.
    ghost predicate Subscriptions()
      reads this, m_client_map.Values
    {
      && (forall id :: id in state.subs <==> id in m_client_map)
      && (forall id :: id in m_client_map ==> state.subs[id] == m_client_map[id].subscribed_topics)
    }

    // The rest of the abstract state.
    ghost predicate Holds()
      reads this, m_topic_map
    {
      && state.topics == m_topic_map.View()
      && state.nextId == connections + 1
      && state.peer.Keys == seats.Keys
      && (forall slot :: slot in seats ==> state.peer[slot] == seats[slot].id)
    }

    ghost predicate Valid()
      reads this, peers, m_topic_map, m_server, m_client_map.Values
    {
      && Slots() && |m_server.sent| == MAX_PEERS && Seated() && Numbering() && m_topic_map.Valid()
      && Agree(m_client_map, m_clients, seats)
      && Holds() && Subscriptions()
    }

    constructor (e: Endian)
      ensures fresh(peers) && fresh(m_server) && fresh(m_topic_map) && fresh(m_protocol_constructor.buffer)
      ensures Ready() && endian == e && state == START && handled == [] && connections == 0
    {
      endian := e;
      var slots: seq<Peer> := [];
      while |slots| < MAX_PEERS
        invariant |slots| <= MAX_PEERS
        invariant forall i :: 0 <= i < |slots| ==> slots[i].slot == i && !slots[i].connected && fresh(slots[i])
      {
        var peer := new Peer(|slots|);
        slots := slots + [peer];
      }
      peers := slots;
      m_server := new Host();
      m_topic_map := new TopicMap();
      m_protocol_constructor := new Constructor(e);
      m_client_map, m_clients, m_next_client_id := map[], [], 1;
      connections, seats, state, handled := 0, map[], START, [];
    }

    // ---------- how the parts of Valid follow a change ----------

    // The facts about a connected peer.
    lemma SeatOf(peer: Peer)
      requires Hosts(peer) && Seated() && peer.connected
      requires Agree(m_client_map, m_clients, seats) && Holds() && Subscriptions()
      ensures CanStep(state, Disconnect(peer.slot)) && state.peer[peer.slot] == peer.data.id
      ensures peer.slot in seats && peer.data == seats[peer.slot]
      ensures Live(m_client_map, peer.data) && peer.data.peer == peer
    {
    }

    lemma NoSeat(peer: Peer)
      requires Hosts(peer) && Seated() && !peer.connected && Holds()
      ensures peer.slot !in seats && CanStep(state, Connect(peer.slot))
    {
    }

    twostate lemma SeatsKept()
      requires Slots() && old(Seated()) && seats == old(seats)
      requires forall i :: 0 <= i < |peers| ==> unchanged(peers[i])
      ensures Seated()
    {
    }

    twostate lemma SeatTaken(peer: Peer, new r: ClientRecord)
      requires Hosts(peer) && old(Seated()) && seats == old(seats)[peer.slot := r]
      requires peer.connected && peer.data == r && r.peer == peer && r.server == m_server
      requires forall i :: 0 <= i < |peers| ==> peers[i] == peer || unchanged(peers[i])
      ensures Seated()
    {
    }

    twostate lemma SeatFreed(peer: Peer)
      requires Hosts(peer) && old(Seated()) && seats == Without(old(seats), peer.slot)
      requires !peer.connected
      requires forall i :: 0 <= i < |peers| ==> peers[i] == peer || unchanged(peers[i])
      ensures Seated()
    {
    }

    lemma FreshId()
      requires Numbering()
      ensures m_next_client_id !in m_client_map
    {
    }

    twostate lemma NumberingNext(new r: ClientRecord)
      requires old(Numbering()) && connections == old(connections) + 1 && connections < TWO64
      requires m_next_client_id == Inc(old(m_next_client_id)) && r.id == old(m_next_client_id)
      requires m_client_map == old(m_client_map)[r.id := r]
      ensures Numbering() && r.id == connections
      ensures forall id :: id in old(m_client_map) ==> id < r.id
    {
    }

    twostate lemma HoldsConnected(slot: nat, new r: ClientRecord)
      requires old(Holds()) && old(connections) + 1 == connections == r.id
      requires unchanged(m_topic_map) && |m_server.sent| == |old(m_server.sent)|
      requires Possible(old(state), Connect(slot)) && state == Step(old(state), Connect(slot))
      requires seats == old(seats)[slot := r]
      ensures Holds() && r.id == old(state).nextId
      ensures state.subs == old(state.subs)[r.id as nat := {}]
    {
    }

    twostate lemma HoldsDisconnected(slot: nat)
      requires old(Holds()) && old(connections) == connections
      requires unchanged(m_topic_map) && |m_server.sent| == |old(m_server.sent)|
      requires CanStep(old(state), Disconnect(slot)) && state == Step(old(state), Disconnect(slot))
      requires seats == Without(old(seats), slot)
      ensures Holds()
      ensures slot in old(seats) && state.subs == old(state.subs) - {old(seats[slot]).id as nat}
    {
    }

    twostate lemma SubscriptionsAdded(new r: ClientRecord)
      requires old(Subscriptions()) && r.subscribed_topics == {}
      requires m_client_map == old(m_client_map)[r.id := r] && state.subs == old(state.subs)[r.id as nat := {}]
      requires unchanged(old(m_client_map).Values)
      ensures Subscriptions()
    {
    }

    twostate lemma SubscriptionsDropped(id: Key)
      requires old(Subscriptions())
      requires m_client_map == Without(old(m_client_map), id) && state.subs == old(state.subs) - {id as nat}
      requires unchanged(old(m_client_map).Values)
      ensures Subscriptions()
    {
    }

    twostate lemma SubscriptionsChanged(new client: ClientRecord, new r: Request)
      requires old(Subscriptions()) && Live(old(m_client_map), client) && m_client_map == old(m_client_map)
      requires forall id :: id in m_client_map ==> m_client_map[id].id == id
      requires client.subscribed_topics == TopicsOf(old(client.subscribed_topics), r)
      requires forall id :: id in m_client_map && m_client_map[id] != client ==> unchanged(m_client_map[id])
      requires client.id in old(state).subs && state == ServerSpec.OnMessage(old(state), client.id, r)
      ensures Subscriptions()
    {
    }

    // What the CONNECT code leaves behind when it put record r on the peer.
    twostate predicate Accepted(peer: Peer, new r: ClientRecord)
      requires peer.slot < old(|m_server.sent|)
      reads this, peers, peer, m_topic_map, m_server, r
    {
      && peer.connected && peer.data == r && r.peer == peer && r.server == m_server && r.subscribed_topics == {}
      && (forall i :: 0 <= i < |peers| ==> peers[i] == peer || unchanged(peers[i]))
      && connections == old(connections) + 1 && m_next_client_id == Inc(old(m_next_client_id))
      && r.id == old(m_next_client_id)
      && m_client_map == old(m_client_map)[r.id := r] && m_clients == old(m_clients) + [r]
      && unchanged(m_topic_map) && m_server.sent == old(m_server.sent)[peer.slot := []]
    }

    twostate lemma ConnectKeepsValid(peer: Peer, new r: ClientRecord)
      requires old(Valid()) && Hosts(peer) && peer.slot !in old(seats) && connections < TWO64
      requires Accepted(peer, r) && seats == old(seats)[peer.slot := r]
      requires unchanged(old(m_client_map).Values)
      requires CanStep(old(state), Connect(peer.slot)) && state == Step(old(state), Connect(peer.slot))
      ensures Valid() && r.id == old(state).nextId
    {
      hide Agree, Seated, Subscriptions, Holds, Lists, Step, Numbering;
      NumberingNext(r);
      AgreeAdded(old(m_client_map), old(m_clients), old(seats), r);
      SeatTaken(peer, r);
      HoldsConnected(peer.slot, r);
      SubscriptionsAdded(r);
    }

    // What the DISCONNECT code leaves behind when record r was on the peer.
    twostate predicate Dropped(peer: Peer, new r: ClientRecord)
      reads this, peers, peer, m_topic_map, m_server
    {
      && !peer.connected
      && (forall i :: 0 <= i < |peers| ==> peers[i] == peer || unchanged(peers[i]))
      && connections == old(connections) && m_next_client_id == old(m_next_client_id)
      && m_client_map == Without(old(m_client_map), r.id) && m_clients == Erase(old(m_clients), r)
      && unchanged(m_topic_map) && unchanged(m_server)
    }

    twostate lemma DisconnectKeepsValid(peer: Peer, new r: ClientRecord)
      requires old(Valid()) && Hosts(peer) && Dropped(peer, r) && seats == Without(old(seats), peer.slot)
      requires unchanged(old(m_client_map).Values)
      requires Live(old(m_client_map), r) && r.peer == peer
      requires CanStep(old(state), Disconnect(peer.slot)) && state == Step(old(state), Disconnect(peer.slot))
      ensures Valid()
    {
      hide Agree, Seated, Subscriptions, Holds, Lists, Step;
      AgreeRemoved(old(m_client_map), old(m_clients), old(seats), r);
      SeatFreed(peer);
      HoldsDisconnected(peer.slot);
      SubscriptionsDropped(r.id);
    }

    // create_client; the throw is the answer to an id that is already taken.
    method CreateClient(peer: Peer) returns (client: Result<ClientRecord>)
      modifies this`m_client_map, this`m_clients, this`m_next_client_id, this`connections
      ensures client.Thrown? <==> old(m_next_client_id) in old(m_client_map)
      ensures m_next_client_id == Inc(old(m_next_client_id)) && connections == old(connections) + 1
      ensures client.Thrown? ==> m_client_map == old(m_client_map) && m_clients == old(m_clients)
      ensures client.Returned? ==>
        var r := client.value;
        && fresh(r) && r.id == old(m_next_client_id)
        && r.peer == peer && r.server == m_server && r.subscribed_topics == {}
        && m_client_map == old(m_client_map)[r.id := r] && m_clients == old(m_clients) + [r]
    {
      var clientId := m_next_client_id;
      m_next_client_id := Inc(m_next_client_id);
      connections := connections + 1;
      if clientId in m_client_map {
        return Thrown;
      }
      var record := new ClientRecord(clientId, peer, m_server);
      m_client_map := m_client_map[clientId := record];
      m_clients := m_clients + [record];
      return Returned(record);
    }

    method DestroyClient(client: ClientRecord)
      modifies this`m_client_map, this`m_clients
      ensures m_client_map == Without(old(m_client_map), client.id)
      ensures m_clients == Erase(old(m_clients), client)
    {
      m_client_map := m_client_map - {client.id};
      m_clients := Erase(m_clients, client);
    }

    // The CONNECT case of process(). ENet has taken a free slot for the new connection.
    method OnConnect(peer: Peer) returns (threw: bool)
      requires peer.slot < |m_server.sent|
      modifies this`m_client_map, this`m_clients, this`m_next_client_id, this`connections, peer, m_server
      ensures threw <==> old(m_next_client_id) in old(m_client_map)
      ensures !threw ==> peer.data != null && fresh(peer.data) && Accepted(peer, peer.data)
    {
      peer.connected, m_server.sent := true, m_server.sent[peer.slot := []];
      var client := CreateClient(peer);
      if client.Thrown? {
        return true;
      }
      peer.data := client.value;
      threw := false;
    }

    // The DISCONNECT case of process(). ENet has freed the slot; data is left as it was.
    method OnDisconnect(peer: Peer)
      requires peer.data != null
      modifies this`m_client_map, this`m_clients, peer`connected
      ensures Dropped(peer, peer.data)
    {
      peer.connected := false;
      DestroyClient(peer.data);
    }

    // ---------- packets ----------

    // Each listed record is at a slot of this host and holds the abstract subscriptions.
    ghost predicate Listed()
      reads this, m_clients, m_server
    {
      && |m_server.sent| == MAX_PEERS
      && forall i :: 0 <= i < |m_clients| ==>
        var r := m_clients[i];
        && r.peer.slot < MAX_PEERS && r.server == m_server
        && r.id in state.subs && state.subs[r.id] == r.subscribed_topics
    }

    lemma ListIsSeated()
      requires Valid()
      ensures ListFits(m_clients, seats) && Listed()
    {
    }

    // The loop of the publish case: the packet goes to each subscriber but the sender.
    method ForwardToSubscribers(client: ClientRecord, topicKey: Key, fanoutPayload: Span)
      requires Listed() && fanoutPayload.Valid()
      modifies m_server
      ensures |m_server.sent| == MAX_PEERS
      ensures m_server.sent
        == Forward(old(m_server.sent), m_clients, state.subs, client.id, topicKey, fanoutPayload.Bytes())
    {
      hide Forward;
      ForwardNone(m_server.sent, m_clients, state.subs, client.id, topicKey, fanoutPayload.Bytes());
      var j := 0;
      while j < |m_clients|
        invariant j <= |m_clients|
        invariant |m_server.sent| == MAX_PEERS
        invariant m_server.sent
          == Forward(old(m_server.sent), m_clients[..j], state.subs, client.id, topicKey, fanoutPayload.Bytes())
      {
        var otherClient := m_clients[j];
        ForwardNext(old(m_server.sent), m_clients, j, state.subs, client.id, topicKey, fanoutPayload.Bytes());
        if otherClient.id != client.id && topicKey in otherClient.subscribed_topics {
          otherClient.Send(fanoutPayload);
        }
        j := j + 1;
      }
      assert m_clients[..|m_clients|] == m_clients;
    }

    // Parsing a packet that is long enough for a header.
    method Parse(message: Span) returns (kind: Byte, topicKey: Key, payload: Span)
      requires message.Valid() && HasHeader(message.Bytes())
      ensures kind == KindOf(message.Bytes()) && topicKey == KeyOf(message.Bytes())
      ensures payload.Valid() && payload.Bytes() == PayloadOf(message.Bytes())
      ensures payload.View? && payload.mem == message.mem
    {
      var header := ParseHeader(endian, message.Bytes());
      kind := header.kind;
      topicKey := TopicKey(endian, header);
      payload := View(message.mem, message.start + HEADER_SIZE, message.len - HEADER_SIZE);
      KeyReadsBigEndian(endian, message.Bytes());
    }

    // The topic_request case.
    method AnswerLookup(client: ClientRecord, topicName: Bytes)
      requires m_topic_map.Valid() && client.server == m_server && client.peer.slot < |m_server.sent|
      requires m_protocol_constructor.endian == endian
      modifies m_topic_map, m_protocol_constructor.buffer, m_server
      ensures m_topic_map.Valid() && m_topic_map.View() == Resolve(old(m_topic_map.View()), topicName).0
      ensures m_server.sent == SentTo(old(m_server.sent), client.peer.slot,
        WriteReply(endian, Answer(Resolve(old(m_topic_map.View()), topicName).1, topicName)))
    {
      var topicKey := m_topic_map.GetOrCreate(topicName);
      var responsePayload := m_protocol_constructor.TopicResponse(topicKey, topicName);
      client.Send(responsePayload);
    }

    // The publish case.
    method ForwardPublish(client: ClientRecord, topicKey: Key, payload: Span)
      requires payload.Valid() && payload.Avoids(m_protocol_constructor.buffer)
      requires Listed() && m_protocol_constructor.endian == endian
      modifies m_protocol_constructor.buffer, m_server
      ensures |m_server.sent| == MAX_PEERS
      ensures m_server.sent == Forward(old(m_server.sent), m_clients, state.subs, client.id, topicKey,
                                       WriteReply(endian, Fanout(topicKey, old(payload.Bytes()))))
    {
      var fanoutPayload := m_protocol_constructor.Fanout(topicKey, payload);
      ForwardToSubscribers(client, topicKey, fanoutPayload);
    }

    // on_message, by its effects on the objects.
    method HandlePacket(client: ClientRecord, message: Span)
      requires message.Valid() && message.Avoids(m_protocol_constructor.buffer)
      requires m_topic_map.Valid() && state.topics == m_topic_map.View()
      requires Listed() && client.server == m_server && client.peer.slot < MAX_PEERS
      requires m_protocol_constructor.endian == endian
      modifies m_topic_map, m_protocol_constructor.buffer, m_server, client`subscribed_topics
      ensures m_topic_map.Valid()
      ensures var r := ReadRequest(old(message.Bytes()));
              && m_topic_map.View() == TopicsAfter(state.topics, r)
              && client.subscribed_topics == TopicsOf(old(client.subscribed_topics), r)
              && m_server.sent == SentAfter(endian, state, old(m_server.sent), m_clients, client, r)
    {
      hide WriteReply, KindOf, KeyOf, PayloadOf, TopicMap.Valid;
      if |message.Bytes()| < HEADER_SIZE {
        return;
      }
      var kind, topicKey, payload := Parse(message);
      if kind == TOPIC_REQUEST {
        AnswerLookup(client, payload.Bytes());
      } else if kind == SUBSCRIBE {
        client.subscribed_topics := client.subscribed_topics + {topicKey};
      } else if kind == UNSUBSCRIBE {
        client.subscribed_topics := client.subscribed_topics - {topicKey};
      } else if kind == PUBLISH {
        ForwardPublish(client, topicKey, payload);
      }
    }

    // ---------- the event loop ----------

    twostate lemma MessageKeepsValid(new client: ClientRecord, new r: Request)
      requires old(Valid()) && Live(old(m_client_map), client)
      requires m_client_map == old(m_client_map) && m_clients == old(m_clients) && seats == old(seats)
      requires connections == old(connections) && m_next_client_id == old(m_next_client_id)
      requires (forall i :: 0 <= i < |peers| ==> unchanged(peers[i])) && |m_server.sent| == MAX_PEERS
      requires m_topic_map.Valid() && m_topic_map.View() == TopicsAfter(old(state).topics, r)
      requires client.subscribed_topics == TopicsOf(old(client.subscribed_topics), r)
      requires forall id :: id in m_client_map && m_client_map[id] != client ==> unchanged(m_client_map[id])
      requires client.id in old(state).subs && state == ServerSpec.OnMessage(old(state), client.id, r)
      ensures Valid()
    {
      hide Agree, Seated, Lists, Subscriptions;
      AgreeIds(m_client_map, m_clients, seats);
      SeatsKept();
      SubscriptionsChanged(client, r);
    }

    // Every record's outgoing packets are the stream its connection is due, and
    // the state is that of a server that handled the events so far.
    ghost predicate Faithful()
      requires SentFits()
      reads this, m_server
    {
      && Trace(handled) && state == Run(handled)
      && (forall slot :: slot in seats ==> m_server.sent[slot] == OnWire(endian, Stream(handled, seats[slot].id)))
    }

    twostate lemma FaithfulAfter(slot: nat, new ev: Event)
      requires old(SentFits()) && SentFits() && old(Faithful())
      requires CanStep(old(state), ev) && state == Step(old(state), ev) && handled == old(handled) + [ev]
      requires slot in seats && slot in old(seats) && seats[slot].id == old(seats)[slot].id
      requires m_server.sent[slot] == old(m_server.sent[slot]) + Wire(endian, Sends(old(state), ev, seats[slot].id))
      ensures Trace(handled) && state == Run(handled)
      ensures m_server.sent[slot] == OnWire(endian, Stream(handled, seats[slot].id))
    {
      hide WriteReply;
      var c := seats[slot].id;
      RunExtended(old(handled), ev, c);
      OnWireExtended(endian, Stream(old(handled), c), Sends(old(state), ev, c), |old(handled)|);
    }

    ghost predicate SentFits()
      reads this, m_server
    {
      |m_server.sent| == MAX_PEERS && (forall slot :: slot in seats ==> slot < MAX_PEERS)
    }

    twostate lemma FaithfulConnect(slot: nat, new r: ClientRecord)
      requires old(SentFits()) && SentFits() && old(Faithful())
      requires CanStep(old(state), Connect(slot)) && state == Step(old(state), Connect(slot))
      requires handled == old(handled) + [Connect(slot)]
      requires slot !in old(seats) && seats == old(seats)[slot := r] && r.id == old(state).nextId
      requires m_server.sent == old(m_server.sent)[slot := []]
      ensures Faithful()
    {
      forall i | i in seats
        ensures Trace(handled) && state == Run(handled)
        ensures m_server.sent[i] == OnWire(endian, Stream(handled, seats[i].id))
      {
        if i == slot {
          RunExtended(old(handled), Connect(slot), r.id);
          StreamEmpty(old(handled), r.id);
        } else {
          assert m_server.sent[i] == old(m_server.sent[i]) + [];
          FaithfulAfter(i, Connect(slot));
        }
      }
      assert slot in seats;
    }

    twostate lemma FaithfulDisconnect(slot: nat)
      requires old(SentFits()) && SentFits() && old(Faithful())
      requires CanStep(old(state), Disconnect(slot)) && state == Step(old(state), Disconnect(slot))
      requires handled == old(handled) + [Disconnect(slot)]
      requires seats == Without(old(seats), slot) && m_server.sent == old(m_server.sent)
      ensures Faithful()
    {
      hide Step, Stream, OnWire, Run, Trace, CanStep, Sends, Wire;
      CanStepPossible(old(state), Disconnect(slot));
      RunExtended(old(handled), Disconnect(slot), 0);
      forall i | i in seats
        ensures m_server.sent[i] == OnWire(endian, Stream(handled, seats[i].id))
      {
        NothingOnDisconnect(endian, old(state), slot, seats[i].id);
        assert m_server.sent[i] == old(m_server.sent[i]) + [];
        FaithfulAfter(i, Disconnect(slot));
      }
    }

    twostate lemma FaithfulReceive(new client: ClientRecord, new r: Request)
      requires old(SentFits()) && SentFits() && old(Faithful())
      requires Agree(m_client_map, m_clients, seats) && Live(m_client_map, client) && seats == old(seats)
      requires CanStep(old(state), Receive(client.peer.slot, r)) && old(state).peer[client.peer.slot] == client.id
      requires state == Step(old(state), Receive(client.peer.slot, r))
      requires handled == old(handled) + [Receive(client.peer.slot, r)] && client.peer.slot < MAX_PEERS
      requires m_server.sent == SentAfter(endian, old(state), old(m_server.sent), m_clients, client, r)
      ensures Faithful()
    {
      hide WriteReply;
      RunExtended(old(handled), Receive(client.peer.slot, r), 0);
      forall i | i in seats
        ensures m_server.sent[i] == OnWire(endian, Stream(handled, seats[i].id))
      {
        SentMeans(endian, old(state), old(m_server.sent), m_client_map, m_clients, seats, client, r, i);
        FaithfulAfter(i, Receive(client.peer.slot, r));
      }
    }

    // The registries agree: the list has each live record once, by increasing
    // id, the map has the same ones, each is the data of the connected peer it
    // points to and of no other, and there are never more than the host's slots.
    lemma RegistriesAgree()
      requires Valid()
      ensures |m_clients| <= 8 && IdsIncrease(m_clients)
      ensures forall r: ClientRecord :: r in m_clients <==> r.id in m_client_map && m_client_map[r.id] == r
      ensures forall r: ClientRecord :: r in m_clients ==>
                r.peer in peers && r.peer.connected && r.peer.data == r
      ensures forall p: Peer :: p in peers && p.connected ==> p.data != null && p.data in m_clients && p.data.peer == p
    {
      hide Subscriptions, Holds, Numbering, Lists;
      AgreeBound(m_client_map, m_clients, seats, MAX_PEERS);
    }

    // ---------- process() ----------

    ghost predicate Ready()
      reads this, peers, m_topic_map, m_client_map.Values, m_server
    {
      Valid() && SentFits() && Faithful()
    }

    lemma BeforeConnect(peer: Peer)
      requires Ready() && Hosts(peer) && !peer.connected
      ensures peer.slot !in seats && peer.slot < |m_server.sent|
      ensures CanStep(state, Connect(peer.slot)) && m_next_client_id !in m_client_map
    {
      hide Agree, Seated, Subscriptions, Holds, Lists, Faithful, Numbering;
      FreshId();
      NoSeat(peer);
    }

    twostate lemma ConnectKeepsReady(peer: Peer, new r: ClientRecord)
      requires old(Ready()) && Hosts(peer) && peer.slot !in old(seats) && connections < TWO64
      requires Accepted(peer, r) && seats == old(seats)[peer.slot := r]
      requires unchanged(old(m_client_map).Values)
      requires CanStep(old(state), Connect(peer.slot)) && state == Step(old(state), Connect(peer.slot))
      requires handled == old(handled) + [Connect(peer.slot)]
      ensures Ready()
    {
      hide Faithful, Valid, Step;
      ConnectKeepsValid(peer, r);
      FaithfulConnect(peer.slot, r);
    }

    method AcceptConnection(peer: Peer) returns (threw: bool)
      requires Ready() && Hosts(peer) && !peer.connected
      modifies this, peer, m_server
      ensures !threw && connections == old(connections) + 1
      ensures connections < TWO64 ==> Ready() && handled == old(handled) + [Connect(peer.slot)]
      ensures forall id :: id in m_client_map ==>
        fresh(m_client_map[id]) || (id in old(m_client_map) && m_client_map[id] == old(m_client_map)[id])
    {
      hide Ready, Step;
      BeforeConnect(peer);
      threw := OnConnect(peer);
      seats := seats[peer.slot := peer.data];
      state := Step(state, Connect(peer.slot));
      handled := handled + [Connect(peer.slot)];
      if connections < TWO64 {
        ConnectKeepsReady(peer, peer.data);
      }
    }

    lemma BeforeReceive(peer: Peer, r: Request)
      requires Ready() && Hosts(peer) && peer.connected
      ensures var client := peer.data;
              && client != null && Live(m_client_map, client) && client in m_client_map.Values
              && client.peer == peer && client.server == m_server
              && state.peer[peer.slot] == client.id && client.id in state.subs
      ensures CanStep(state, Receive(peer.slot, r)) && CanStep(state, Disconnect(peer.slot))
    {
      SeatOf(peer);
      var client := peer.data;
      assert client.id in m_client_map && m_client_map[client.id] == client;
    }

    twostate lemma DisconnectKeepsReady(peer: Peer, new r: ClientRecord)
      requires old(Ready()) && Hosts(peer) && Dropped(peer, r) && seats == Without(old(seats), peer.slot)
      requires unchanged(old(m_client_map).Values)
      requires Live(old(m_client_map), r) && r.peer == peer
      requires CanStep(old(state), Disconnect(peer.slot)) && state == Step(old(state), Disconnect(peer.slot))
      requires handled == old(handled) + [Disconnect(peer.slot)]
      ensures Ready()
    {
      hide Faithful, Valid, Step;
      DisconnectKeepsValid(peer, r);
      FaithfulDisconnect(peer.slot);
    }

    method DropConnection(peer: Peer)
      requires Ready() && Hosts(peer) && peer.connected && peer.data != null
      modifies this`seats, this`state, this`handled, this`m_client_map, this`m_clients, peer`connected
      ensures Ready() && handled == old(handled) + [Disconnect(peer.slot)]
      ensures m_client_map == Without(old(m_client_map), old(peer.data.id))
    {
      hide Ready, Step, CanStep, Erase, Without;
      BeforeReceive(peer, Ignored);
      var client := peer.data;
      seats, state := Without(seats, peer.slot), Step(state, Disconnect(peer.slot));
      handled := handled + [Disconnect(peer.slot)];
      OnDisconnect(peer);
      DisconnectKeepsReady(peer, client);
    }

    lemma HandlerNeeds()
      requires Ready()
      ensures m_topic_map.Valid() && state.topics == m_topic_map.View() && Listed()
      ensures |peers| == |m_server.sent| == MAX_PEERS && m_protocol_constructor.endian == endian
      ensures seats.Keys == state.peer.Keys && Agree(m_client_map, m_clients, seats)
    {
      hide Agree, Lists, Subscriptions, Seated;
      ListIsSeated();
    }

    twostate lemma ReceiveKeepsReady(new client: ClientRecord, new r: Request)
      requires old(Ready()) && Live(old(m_client_map), client)
      requires m_client_map == old(m_client_map) && m_clients == old(m_clients) && seats == old(seats)
      requires connections == old(connections) && m_next_client_id == old(m_next_client_id)
      requires forall i :: 0 <= i < |peers| ==> unchanged(peers[i])
      requires m_topic_map.Valid() && m_topic_map.View() == TopicsAfter(old(state).topics, r)
      requires client.subscribed_topics == TopicsOf(old(client.subscribed_topics), r)
      requires forall id :: id in m_client_map && m_client_map[id] != client ==> unchanged(m_client_map[id])
      requires client.peer.slot < |old(m_server.sent)|
      requires m_server.sent == SentAfter(endian, old(state), old(m_server.sent), m_clients, client, r)
      requires CanStep(old(state), Receive(client.peer.slot, r)) && old(state).peer[client.peer.slot] == client.id
      requires state == Step(old(state), Receive(client.peer.slot, r))
      requires handled == old(handled) + [Receive(client.peer.slot, r)]
      ensures Ready()
    {
      hide Faithful, Agree, Seated, Subscriptions, Holds, Lists, Numbering, WriteReply;
      MessageKeepsValid(client, r);
      FaithfulReceive(client, r);
    }

    // The RECEIVE case of process(). The guard destroys the packet when the handler is done.
    method ReceivePacket(peer: Peer, packet: EnetPacket)
      requires Ready() && Hosts(peer) && peer.connected && peer.data != null
      requires packet.destroyed == 0 && packet.memory != m_protocol_constructor.buffer
      modifies this`state, this`handled, m_topic_map, m_protocol_constructor.buffer, m_server
      modifies peer.data`subscribed_topics, packet
      ensures Ready() && packet.destroyed == 1
      ensures handled == old(handled) + [Receive(peer.slot, ReadRequest(old(packet.memory.bytes)))]
    {
      hide Ready, Step, ReadRequest, TopicsAfter, TopicsOf, SentAfter, Agree, Lists, TopicMap.Valid, Listed;
      ghost var request := ReadRequest(packet.memory.bytes);
      BeforeReceive(peer, request);
      HandlerNeeds();
      var client := peer.data;
      assert Whole(packet.memory).Bytes() == packet.memory.bytes;
      HandlePacket(client, Whole(packet.memory));
      state := Step(state, Receive(peer.slot, request));
      handled := handled + [Receive(peer.slot, request)];
      ReceiveKeepsReady(client, request);
      packet.Destroy();
    }

    // ENet's view of a peer and the abstract state agree on who is connected.
    lemma PeerStatus(peer: Peer, ev: Event)
      requires Ready() && Hosts(peer) && Possible(Run(handled), ev) && ev.slot == peer.slot
      ensures peer.connected <==> !ev.Connect?
      ensures peer.connected ==> peer.data != null && peer.data in m_client_map.Values
    {
      if peer.connected {
        BeforeReceive(peer, Ignored);
      } else {
        BeforeConnect(peer);
      }
    }

    // The events a call of process() may be given, and the same events as the
    // abstract server sees them: peers of this host, and packets not yet destroyed.
    // The events before the given one have been dealt with.
    ghost predicate Reports(events: seq<HostEvent>, evs: seq<Event>, from: nat)
      reads set ev | ev in events && ev.Received? :: ev.packet
      reads set ev | ev in events && ev.Received? :: ev.packet.memory
    {
      && |events| == |evs|
      && (forall i :: from <= i < |events| ==> Hosts(events[i].peer) && Seen(events[i]) == evs[i])
      && (forall i :: from <= i < |events| && events[i].Received? ==> events[i].packet.destroyed == 0)
      && (forall i :: 0 <= i < |events| && events[i].Received? ==>
            events[i].packet.memory != m_protocol_constructor.buffer)
      && (forall i, j :: 0 <= i < j < |events| && events[i].Received? && events[j].Received? ==>
            events[i].packet != events[j].packet)
      && (forall i :: 0 <= i < from && i < |events| && events[i].Received? ==> events[i].packet.destroyed == 1)
    }

    twostate lemma ReportsNext(events: seq<HostEvent>, new evs: seq<Event>, new j: nat)
      requires old(Reports(events, evs, j)) && j < |events|
      requires forall i :: 0 <= i < |events| && events[i].Received? ==> unchanged(events[i].packet.memory)
      requires forall i :: 0 <= i < |events| && events[i].Received? && i != j ==> unchanged(events[i].packet)
      requires events[j].Received? ==> events[j].packet.destroyed == 1
      ensures Reports(events, evs, j + 1)
    {
      hide ReadRequest;
    }

    lemma FirstReport(events: seq<HostEvent>, evs: seq<Event>, j: nat)
      requires Reports(events, evs, j)
      ensures |events| == |evs|
      ensures forall i :: 0 <= i < |events| && events[i].Received? && j < |events| && events[j].Received? && i != j ==>
        events[i].packet != events[j].packet
      ensures forall i :: j <= i < |events| ==> Hosts(events[i].peer) && events[i].peer in peers
      ensures j < |events| ==> Seen(events[j]) == evs[j]
      ensures j < |events| && events[j].Received? ==> events[j].packet.destroyed == 0
      ensures forall i :: 0 <= i < |events| && events[i].Received? ==>
        events[i].packet.memory != m_protocol_constructor.buffer
    {
    }

    lemma LastReport(events: seq<HostEvent>, evs: seq<Event>)
      requires Reports(events, evs, |events|)
      ensures forall i :: 0 <= i < |events| && events[i].Received? ==> events[i].packet.destroyed == 1
    {
    }

    // The records present are new or were present before.
    twostate predicate OldOrFresh()
      reads this
    {
      forall id :: id in m_client_map ==> fresh(m_client_map[id]) || m_client_map[id] in old(m_client_map.Values)
    }

    // One event.
    method Dispatch(event: HostEvent, ghost ev: Event) returns (threw: bool)
      requires Ready() && Hosts(event.peer) && Seen(event) == ev
      requires Possible(Run(handled), ev) && connections + 1 < TWO64
      requires event.Received? ==>
        event.packet.destroyed == 0 && event.packet.memory != m_protocol_constructor.buffer
      modifies this, event.peer, m_topic_map, m_protocol_constructor.buffer, m_server, m_client_map.Values
      modifies if event.Received? then {event.packet} else {}
      ensures !threw && Ready()
      ensures handled == old(handled) + [ev] && connections <= old(connections) + 1
      ensures OldOrFresh()
      ensures event.Received? ==> event.packet.destroyed == 1
    {
      hide Ready, Run, Possible, Without, ReadRequest;
      PeerStatus(event.peer, ev);
      threw := false;
      match event
      case Connected(peer) => threw := AcceptConnection(peer);
      case Received(peer, packet) => ReceivePacket(peer, packet);
      case Disconnected(peer) =>
        DropConnection(peer);
        WithoutValues(old(m_client_map), old(peer.data.id));
    }

    // process(): every pending event is dispatched, in order, and every received packet is destroyed once.
    method Process(events: seq<HostEvent>, ghost evs: seq<Event>)
      requires Ready() && Reports(events, evs, 0)
      requires Trace(handled + evs) && connections + |events| < TWO64
      modifies this, peers, m_topic_map, m_protocol_constructor.buffer, m_server, m_client_map.Values
      modifies set ev | ev in events && ev.Received? :: ev.packet
      ensures Ready() && handled == old(handled) + evs
      ensures forall i :: 0 <= i < |events| && events[i].Received? ==> events[i].packet.destroyed == 1
    {
      hide Ready, Run, Possible, ReadRequest, Reports, Hosts, Seen, Trace;
      FirstReport(events, evs, 0);
      var j := 0;
      while j < |events|
        invariant 0 <= j <= |events| && Ready() && Reports(events, evs, j)
        invariant handled == old(handled) + evs[..j]
        invariant connections <= old(connections) + j
        invariant OldOrFresh()
      {
        NextPossible(old(handled), evs, j);
        FirstReport(events, evs, j);
        label before:
        var threw := Dispatch(events[j], evs[j]);
        ReportsNext@before(events, evs, j);
        j := j + 1;
      }
      LastReport(events, evs);
      assert evs[..|evs|] == evs;
    }
  }

  lemma WithoutValues(m: map<Key, ClientRecord>, key: Key)
    ensures forall k :: k in Without(m, key) ==> Without(m, key)[k] in m.Values
  {
  }

  lemma SplitAt(earlier: seq<Event>, evs: seq<Event>, j: nat)
    requires j < |evs|
    ensures earlier + evs[..j] + [evs[j]] == earlier + evs[..j + 1]
    ensures (earlier + evs)[..|earlier| + j + 1] == earlier + evs[..j + 1]
  {
  }

  // ENet's promise about a whole history covers each of its events.
  lemma NextPossible(earlier: seq<Event>, evs: seq<Event>, j: nat)
    requires Trace(earlier + evs) && j < |evs|
    ensures Trace(earlier + evs[..j]) && Possible(Run(earlier + evs[..j]), evs[j])
    ensures earlier + evs[..j] + [evs[j]] == earlier + evs[..j + 1]
  {
    hide Run, Possible;
    SplitAt(earlier, evs, j);
    TracePrefix(earlier + evs, |earlier| + j + 1);
    var next := earlier + evs[..j + 1];
    assert Before(next) == earlier + evs[..j] && Last(next) == evs[j];
  }
}
