// What can always happen in the system, and a run in which a message arrives.

module SystemRuns {
  import opened Wrappers
  import opened Protocol
  import opened Messages
  import opened Topics
  import opened ServerSpec
  import opened ClientSpec
  import opened System
  import opened Invariants
  import opened Naming
  import opened EndToEnd

  // ---------- nothing is stuck ----------

  // The server can handle whatever ENet reports: any free slot may connect, any
  // packet put on an accepted connection may be taken, any connection may drop.
  lemma ServerAlwaysPossible(e: Endian, states: seq<Sys>, acts: seq<Action>, n: nat)
    requires Behaviour(e, states, acts) && n < |states|
    ensures var s := states[n];
            && (forall slot :: slot in s.slots ==> s.slots[slot] < |s.links|)
            && (forall slot: nat, l: nat :: Enabled(s, Accept(slot, l)) <==>
                  slot < 8 && slot !in s.slots && l < |s.links| && s.links[l].conn == 0)
            && (forall slot: nat :: Enabled(s, Take(slot)) <==>
                  slot in s.slots && s.links[s.slots[slot]].taken < |s.links[s.slots[slot]].up|)
            && (forall slot: nat :: Enabled(s, Drop(slot)) <==> slot in s.slots)
  {
    hide Behaviour, Run, Trace, ChannelOk, NumbersOk, ReadRequest;
    BaseAlways(e, states, acts, n);
    var s := states[n];
    assert Consistent(s.server);
    assert s.slots.Keys == s.server.peer.Keys;
    assert forall slot :: slot in s.slots <==> slot in s.slots.Keys;
  }

  // A client may call whenever it is not in a call, hear an answer that is there,
  // give up a lookup, and poll a packet that is there.
  lemma ClientAlwaysPossible(e: Endian, states: seq<Sys>, acts: seq<Action>, n: nat, h: nat)
    requires Behaviour(e, states, acts) && n < |states| && Few(states[n]) && h < |states[n].clients|
    ensures var s := states[n];
            var c := s.clients[h];
            && c.main < |s.links| && (c.wait.Some? ==> c.wait.value.link < |s.links|)
            && (forall name, purpose :: Enabled(s, Begin(h, name, purpose)) <==> c.wait.None?)
            && (forall key, payload :: Enabled(s, PublishKey(h, key, payload)) <==> c.wait.None?)
            && (Enabled(s, GiveUp(h)) <==> c.wait.Some?)
            && (Enabled(s, HearAnswer(h)) <==> c.wait.Some? && Readable(s.links[c.wait.value.link]))
            && (Enabled(s, Poll(h)) <==> c.wait.None? && Readable(s.links[c.main]))
  {
    hide Behaviour, Few, LinksOk, MainsOk, CacheOk, GotOk, CallsOk;
    NamesAlways(e, states, acts, n);
    assert ClientOk(h, states[n].clients[h], states[n].links, states[n].server.topics);
  }

  // ---------- connections, by the actions of a run ----------

  // The connection this step opens, if any: a raw one, a new client's main one, or
  // the temporary one of a lookup.
  function OpenedBy(s: Sys, a: Action): seq<Owner>
  {
    match a
    case RawOpen => [Raw]
    case Open(_) => [Main(|s.clients|)]
    case Begin(h, name, _) => if Cached(s, a) then [] else [Temp(h, name)]
    case _ => []
  }

  ghost function OwnersOf(states: seq<Sys>, acts: seq<Action>, n: nat): seq<Owner>
    requires n < |states| == |acts| + 1
  {
    if n == 0 then [] else OwnersOf(states, acts, n - 1) + OpenedBy(states[n - 1], acts[n - 1])
  }

  // What raw peer l has sent, and how much it has read.
  function RawSent(acts: seq<Action>, l: nat): seq<Bytes>
  {
    if acts == [] then []
    else
      var a := acts[|acts| - 1];
      RawSent(acts[..|acts| - 1], l) + if a.RawSend? && a.l == l then [a.bytes] else []
  }

  function RawReads(acts: seq<Action>, l: nat): nat
  {
    if acts == [] then 0
    else RawReads(acts[..|acts| - 1], l) + if acts[|acts| - 1] == RawRead(l) then 1 else 0
  }

  lemma OwnersStep(s: Sys, a: Action)
    requires Enabled(s, a)
    ensures |Next(s, a).links| == |s.links| + |OpenedBy(s, a)|
    ensures forall l :: 0 <= l < |s.links| ==> Next(s, a).links[l].owner == s.links[l].owner
    ensures OpenedBy(s, a) != [] ==> Next(s, a).links[|s.links|].owner == OpenedBy(s, a)[0]
  {
    hide ReadRequest, WriteRequest, Wire, Answered, Delivered, Finishing, CanStep, Step;
  }

  // The connections are those opened in the run, in order.
  lemma {:induction false} OwnersExactly(e: Endian, states: seq<Sys>, acts: seq<Action>, n: nat)
    requires Behaviour(e, states, acts) && n < |states|
    ensures var owners := OwnersOf(states, acts, n);
            |states[n].links| == |owners| && forall l :: 0 <= l < |owners| ==> states[n].links[l].owner == owners[l]
  {
    hide Next, Enabled, OpenedBy;
    if n > 0 {
      OwnersExactly(e, states, acts, n - 1);
      assert Moves(states[n - 1], acts[n - 1], states[n]);
      OwnersStep(states[n - 1], acts[n - 1]);
      OpenedOne(states[n - 1], acts[n - 1]);
    }
  }

  lemma OpenedOne(s: Sys, a: Action)
    ensures |OpenedBy(s, a)| <= 1
  {
  }

  lemma RawStep(s: Sys, a: Action, l: nat)
    requires Enabled(s, a) && MainLinksOnly(s) && l < |Next(s, a).links| && Next(s, a).links[l].owner.Raw?
    ensures l < |s.links| && s.links[l].owner.Raw? ==>
      Next(s, a).links[l].up == s.links[l].up + (if a.RawSend? && a.l == l then [a.bytes] else [])
      && Next(s, a).links[l].polled == s.links[l].polled + if a == RawRead(l) then 1 else 0
    ensures l >= |s.links| ==>
      Next(s, a).links[l].up == [] && Next(s, a).links[l].polled == 0 && !(a.RawSend? && a.l == l) && a != RawRead(l)
    ensures l < |s.links| ==> s.links[l].owner.Raw?
  {
    hide ReadRequest, WriteRequest, Wire, Answered, Delivered, Finishing, CanStep, Step;
    if l < |s.links| {
      assert s.links[l].up + [] == s.links[l].up;
    }
  }

  // Clients put packets on their own connections only.
  ghost predicate MainLinksOnly(s: Sys)
  {
    && (forall h :: 0 <= h < |s.clients| && s.clients[h].main < |s.links| ==>
          s.links[s.clients[h].main].owner == Main(h))
    && (forall h :: 0 <= h < |s.clients| && s.clients[h].wait.Some? && s.clients[h].wait.value.link < |s.links| ==>
          s.links[s.clients[h].wait.value.link].owner.Temp?)
  }

  lemma NamesMains(s: Sys)
    requires Names(s)
    ensures MainLinksOnly(s)
  {
    hide LinksOk, MainsOk, CacheOk, GotOk, CallsOk;
    forall h | 0 <= h < |s.clients| ensures ClientOk(h, s.clients[h], s.links, s.server.topics) {
    }
  }

  // A raw peer's connection carries exactly the byte strings it was made to send,
  // in order, and it has read as often as it was made to.
  lemma {:induction false} RawExactly(e: Endian, states: seq<Sys>, acts: seq<Action>, n: nat, l: nat)
    requires Behaviour(e, states, acts) && n < |states| && Few(states[n])
    requires l < |states[n].links| && states[n].links[l].owner.Raw?
    ensures states[n].links[l].up == RawSent(acts[..n], l) && states[n].links[l].polled == RawReads(acts[..n], l)
  {
    hide Next, Enabled, Names, Few, MainLinksOnly;
    if n > 0 {
      assert Moves(states[n - 1], acts[n - 1], states[n]);
      assert acts[..n][..n - 1] == acts[..n - 1];
      FewEarlier(e, states, acts, n - 1, n);
      NamesAlways(e, states, acts, n - 1);
      NamesMains(states[n - 1]);
      RawStep(states[n - 1], acts[n - 1], l);
      if l < |states[n - 1].links| {
        RawExactly(e, states, acts, n - 1, l);
      } else {
        NothingYet(e, states, acts, n - 1, l);
      }
    }
  }

  lemma {:induction false} NothingYet(e: Endian, states: seq<Sys>, acts: seq<Action>, n: nat, l: nat)
    requires Behaviour(e, states, acts) && n < |states| && l >= |states[n].links|
    ensures RawSent(acts[..n], l) == [] && RawReads(acts[..n], l) == 0
  {
    hide Next;
    if n > 0 {
      assert Moves(states[n - 1], acts[n - 1], states[n]);
      assert acts[..n][..n - 1] == acts[..n - 1];
      OwnersStep(states[n - 1], acts[n - 1]);
      NothingYet(e, states, acts, n - 1, l);
    }
  }

  // ---------- a message arrives ----------

  // A client on a big-endian host subscribes to a name it has to look up, and one
  // on a little-endian host publishes under the key.
  function Deed(name: Bytes, payload: Bytes, k: nat): Action
    requires k < 12
  {
    [Open(Big), Accept(0, 0), Begin(0, name, ThenSubscribe), Accept(1, 1), Take(1), HearAnswer(0), Take(0),
     Open(Little), Accept(2, 2), PublishKey(1, 1, payload), Take(2), Poll(0)][k]
  }

  // The connections accepted before step k.
  function Conns(k: nat): nat { if k < 2 then 0 else if k < 4 then 1 else if k < 9 then 2 else 3 }

  function ServerAt(name: Bytes, k: nat): Server
  {
    var topics := if k < 5 then NO_TOPICS else Table(map[name := 1], 2);
    var keys := if k < 7 then {} else {1};
    match Conns(k)
    case 0 => START
    case 1 => Server(topics, 2, map[0 := 1], map[1 := keys])
    case 2 => Server(topics, 3, map[0 := 1, 1 := 2], map[1 := keys, 2 := {}])
    case _ => Server(topics, 4, map[0 := 1, 1 := 2, 2 := 3], map[1 := keys, 2 := {}, 3 := {}])
  }

  function SlotsAt(k: nat): map<nat, nat>
  {
    match Conns(k)
    case 0 => map[]
    case 1 => map[0 := 0]
    case 2 => map[0 := 0, 1 := 1]
    case _ => map[0 := 0, 1 := 1, 2 := 2]
  }

  function EventsAt(name: Bytes, payload: Bytes, k: nat): seq<Event>
  {
    if k < 2 then []
    else if k < 4 then [Connect(0)]
    else if k < 5 then [Connect(0), Connect(1)]
    else if k < 7 then [Connect(0), Connect(1), Receive(1, Ask(name))]
    else if k < 9 then [Connect(0), Connect(1), Receive(1, Ask(name)), Receive(0, Subscribe(1))]
    else if k < 11 then [Connect(0), Connect(1), Receive(1, Ask(name)), Receive(0, Subscribe(1)), Connect(2)]
    else [Connect(0), Connect(1), Receive(1, Ask(name)), Receive(0, Subscribe(1)), Connect(2),
          Receive(2, Publish(1, payload))]
  }

  // The subscriber's main and temporary connections, and the publisher's.
  function LinksAt(name: Bytes, payload: Bytes, k: nat): seq<Link>
  {
    var main := Link(Main(0), if k < 6 then [] else [WriteRequest(Big, Subscribe(1))], if k < 7 then 0 else 1,
                     if k < 2 then 0 else 1, if k < 11 then [] else [WriteReply(Big, Fanout(1, payload))],
                     if k < 12 then 0 else 1);
    var temporary := Link(Temp(0, name), [WriteRequest(Big, Ask(name))], if k < 5 then 0 else 1,
                          if k < 4 then 0 else 2, if k < 5 then [] else [WriteReply(Big, Answer(1, name))],
                          if k < 6 then 0 else 1);
    var publisher := Link(Main(1), if k < 10 then [] else [WriteRequest(Little, Publish(1, payload))],
                          if k < 11 then 0 else 1, if k < 9 then 0 else 3, [], 0);
    if k < 1 then [] else if k < 3 then [main] else if k < 8 then [main, temporary]
    else [main, temporary, publisher]
  }

  function ClientsAt(name: Bytes, payload: Bytes, k: nat): seq<Hl>
  {
    var subscriber :=
      if k < 3 then Hl(Big, 0, EMPTY, None, {}, [], [])
      else if k < 6 then Hl(Big, 0, EMPTY, Some(Wait(1, name, ThenSubscribe)), {name}, [], [])
      else Hl(Big, 0, Cache(map[name := 1], map[1 := name]), None, {name}, [Subscribing(name)],
              if k < 12 then [] else [FanoutMessage(1, name, payload)]);
    var publisher := Hl(Little, 2, EMPTY, None, {}, if k < 10 then [] else [ByKey(1, payload)], []);
    if k < 1 then [] else if k < 8 then [subscriber] else [subscriber, publisher]
  }

  function StateAt(name: Bytes, payload: Bytes, k: nat): Sys
  {
    Sys(Big, ServerAt(name, k), SlotsAt(k), LinksAt(name, payload, k), ClientsAt(name, payload, k),
        EventsAt(name, payload, k))
  }

  lemma Step0(name: Bytes, payload: Bytes)
    ensures Moves(StateAt(name, payload, 0), Deed(name, payload, 0), StateAt(name, payload, 1))
  {
    hide WriteRequest, WriteReply, ReadRequest, ReadReply;
    var s, t := StateAt(name, payload, 0), StateAt(name, payload, 1);
    assert Next(s, Deed(name, payload, 0)).links == t.links;
    assert Next(s, Deed(name, payload, 0)).server == t.server;
    assert Next(s, Deed(name, payload, 0)).clients == t.clients;
    assert Next(s, Deed(name, payload, 0)).trace == t.trace;
  }

  lemma Step1(name: Bytes, payload: Bytes)
    ensures Moves(StateAt(name, payload, 1), Deed(name, payload, 1), StateAt(name, payload, 2))
  {
    hide WriteRequest, WriteReply, ReadRequest, ReadReply;
    var s, t := StateAt(name, payload, 1), StateAt(name, payload, 2);
    assert Next(s, Deed(name, payload, 1)).links == t.links;
    assert Next(s, Deed(name, payload, 1)).server == t.server;
    assert Next(s, Deed(name, payload, 1)).clients == t.clients;
    assert Next(s, Deed(name, payload, 1)).trace == t.trace;
  }

  lemma Step2(name: Bytes, payload: Bytes)
    ensures Moves(StateAt(name, payload, 2), Deed(name, payload, 2), StateAt(name, payload, 3))
  {
    hide WriteRequest, WriteReply, ReadRequest, ReadReply;
    var none: set<Bytes> := {};
    assert none + {name} == {name};
    var s, t := StateAt(name, payload, 2), StateAt(name, payload, 3);
    assert Next(s, Deed(name, payload, 2)).links == t.links;
    assert Next(s, Deed(name, payload, 2)).server == t.server;
    assert Next(s, Deed(name, payload, 2)).clients == t.clients;
    assert Next(s, Deed(name, payload, 2)).trace == t.trace;
  }

  lemma Step3(name: Bytes, payload: Bytes)
    ensures Moves(StateAt(name, payload, 3), Deed(name, payload, 3), StateAt(name, payload, 4))
  {
    hide WriteRequest, WriteReply, ReadRequest, ReadReply;
    var s, t := StateAt(name, payload, 3), StateAt(name, payload, 4);
    assert Next(s, Deed(name, payload, 3)).links == t.links;
    assert Next(s, Deed(name, payload, 3)).server == t.server;
    assert Next(s, Deed(name, payload, 3)).clients == t.clients;
    assert Next(s, Deed(name, payload, 3)).trace == t.trace;
  }

  lemma Step4(name: Bytes, payload: Bytes)
    ensures Moves(StateAt(name, payload, 4), Deed(name, payload, 4), StateAt(name, payload, 5))
  {
    hide WriteRequest, WriteReply, ReadRequest, ReadReply;
    RequestRoundTrip(Big, Ask(name));
    var none: seq<Bytes> := [];
    assert none + [WriteReply(Big, Answer(1, name))] == [WriteReply(Big, Answer(1, name))] && none + none == none;
    var s, t := StateAt(name, payload, 4), StateAt(name, payload, 5);
    assert Next(s, Deed(name, payload, 4)).links == t.links;
    assert Next(s, Deed(name, payload, 4)).server == t.server;
    assert Next(s, Deed(name, payload, 4)).clients == t.clients;
    assert Next(s, Deed(name, payload, 4)).trace == t.trace;
  }

  lemma Step5(name: Bytes, payload: Bytes)
    ensures Moves(StateAt(name, payload, 5), Deed(name, payload, 5), StateAt(name, payload, 6))
  {
    hide WriteRequest, WriteReply, ReadRequest, ReadReply;
    ReplyRoundTrip(Big, Answer(1, name));
    assert [] + [WriteRequest(Big, Subscribe(1))] == [WriteRequest(Big, Subscribe(1))];
    assert [] + [Subscribing(name)] == [Subscribing(name)];
    assert EMPTY.keys[name := 1] == map[name := 1] && EMPTY.names[1 := name] == map[1 := name];
    var s, t := StateAt(name, payload, 5), StateAt(name, payload, 6);
    assert Next(s, Deed(name, payload, 5)).links == t.links;
    assert Next(s, Deed(name, payload, 5)).server == t.server;
    assert Next(s, Deed(name, payload, 5)).clients == t.clients;
    assert Next(s, Deed(name, payload, 5)).trace == t.trace;
  }

  lemma Step6(name: Bytes, payload: Bytes)
    ensures Moves(StateAt(name, payload, 6), Deed(name, payload, 6), StateAt(name, payload, 7))
  {
    hide WriteRequest, WriteReply, ReadRequest, ReadReply;
    RequestRoundTrip(Big, Subscribe(1));
    var none: set<Key> := {};
    assert none + {1} == {1};
    var empty: seq<Bytes> := [];
    assert empty + empty == empty;
    assert [WriteReply(Big, Answer(1, name))] + [] == [WriteReply(Big, Answer(1, name))];
    var s, t := StateAt(name, payload, 6), StateAt(name, payload, 7);
    assert Next(s, Deed(name, payload, 6)).links == t.links;
    assert Next(s, Deed(name, payload, 6)).server == t.server;
    assert Next(s, Deed(name, payload, 6)).clients == t.clients;
    assert Next(s, Deed(name, payload, 6)).trace == t.trace;
  }

  lemma Step7(name: Bytes, payload: Bytes)
    ensures Moves(StateAt(name, payload, 7), Deed(name, payload, 7), StateAt(name, payload, 8))
  {
    hide WriteRequest, WriteReply, ReadRequest, ReadReply;
    var s, t := StateAt(name, payload, 7), StateAt(name, payload, 8);
    assert Next(s, Deed(name, payload, 7)).links == t.links;
    assert Next(s, Deed(name, payload, 7)).server == t.server;
    assert Next(s, Deed(name, payload, 7)).clients == t.clients;
    assert Next(s, Deed(name, payload, 7)).trace == t.trace;
  }

  lemma Step8(name: Bytes, payload: Bytes)
    ensures Moves(StateAt(name, payload, 8), Deed(name, payload, 8), StateAt(name, payload, 9))
  {
    hide WriteRequest, WriteReply, ReadRequest, ReadReply;
    var s, t := StateAt(name, payload, 8), StateAt(name, payload, 9);
    assert Next(s, Deed(name, payload, 8)).links == t.links;
    assert Next(s, Deed(name, payload, 8)).server == t.server;
    assert Next(s, Deed(name, payload, 8)).clients == t.clients;
    assert Next(s, Deed(name, payload, 8)).trace == t.trace;
  }

  lemma Step9(name: Bytes, payload: Bytes)
    ensures Moves(StateAt(name, payload, 9), Deed(name, payload, 9), StateAt(name, payload, 10))
  {
    hide WriteRequest, WriteReply, ReadRequest, ReadReply;
    assert [] + [WriteRequest(Little, Publish(1, payload))] == [WriteRequest(Little, Publish(1, payload))];
    assert [] + [ByKey(1, payload)] == [ByKey(1, payload)];
    var s, t := StateAt(name, payload, 9), StateAt(name, payload, 10);
    assert Next(s, Deed(name, payload, 9)).links == t.links;
    assert Next(s, Deed(name, payload, 9)).server == t.server;
    assert Next(s, Deed(name, payload, 9)).clients == t.clients;
    assert Next(s, Deed(name, payload, 9)).trace == t.trace;
  }

  lemma Step10(name: Bytes, payload: Bytes)
    ensures Moves(StateAt(name, payload, 10), Deed(name, payload, 10), StateAt(name, payload, 11))
  {
    hide WriteRequest, WriteReply, ReadRequest, ReadReply;
    RequestRoundTrip(Little, Publish(1, payload));
    assert [] + [WriteReply(Big, Fanout(1, payload))] == [WriteReply(Big, Fanout(1, payload))];
    assert [WriteReply(Big, Answer(1, name))] + [] == [WriteReply(Big, Answer(1, name))];
    var empty: seq<Bytes> := [];
    assert empty + empty == empty;
    var s, t := StateAt(name, payload, 10), StateAt(name, payload, 11);
    assert Next(s, Deed(name, payload, 10)).links == t.links;
    assert Next(s, Deed(name, payload, 10)).server == t.server;
    assert Next(s, Deed(name, payload, 10)).clients == t.clients;
    assert Next(s, Deed(name, payload, 10)).trace == t.trace;
  }

  lemma Step11(name: Bytes, payload: Bytes)
    ensures Moves(StateAt(name, payload, 11), Deed(name, payload, 11), StateAt(name, payload, 12))
  {
    hide WriteRequest, WriteReply, ReadRequest, ReadReply;
    ReplyRoundTrip(Big, Fanout(1, payload));
    assert [] + [FanoutMessage(1, name, payload)] == [FanoutMessage(1, name, payload)];
    var s, t := StateAt(name, payload, 11), StateAt(name, payload, 12);
    assert Next(s, Deed(name, payload, 11)).links == t.links;
    assert Next(s, Deed(name, payload, 11)).server == t.server;
    assert Next(s, Deed(name, payload, 11)).clients == t.clients;
    assert Next(s, Deed(name, payload, 11)).trace == t.trace;
  }

  // The run exists: for every name and payload, a client that subscribed to the
  // name polls the payload the other one published.
  lemma MessageArrives(name: Bytes, payload: Bytes) returns (states: seq<Sys>, acts: seq<Action>)
    ensures Behaviour(Big, states, acts) && |states| == 13 && |states[12].clients| == 2
    ensures states[12].clients[0].calls == [Subscribing(name)] && states[12].clients[1].calls == [ByKey(1, payload)]
    ensures states[12].clients[0].got == [FanoutMessage(1, name, payload)]
  {
    hide Enabled, Next, Moves, Initial;
    states := seq(13, k requires 0 <= k < 13 => StateAt(name, payload, k));
    acts := seq(12, k requires 0 <= k < 12 => Deed(name, payload, k));
    Starts(name, payload);
    Step0(name, payload);
    Step1(name, payload);
    Step2(name, payload);
    Step3(name, payload);
    Step4(name, payload);
    Step5(name, payload);
    Step6(name, payload);
    Step7(name, payload);
    Step8(name, payload);
    Step9(name, payload);
    Step10(name, payload);
    Step11(name, payload);
    forall k | 0 <= k < 12 ensures Moves(states[k], acts[k], states[k + 1]) {
      OneOf(k);
    }
  }

  lemma Starts(name: Bytes, payload: Bytes)
    ensures StateAt(name, payload, 0) == Initial(Big)
  {
  }

  lemma OneOf(k: nat)
    requires k < 12
    ensures k in {0, 1, 2, 3, 4, 5, 6, 7, 8, 9, 10, 11}
  {
  }
}
