# Spraybus: a model and its proofs

Spraybus is a publish/subscribe broker over ENet. A server gives each topic name
a numeric key, remembers which connection subscribed to which key, and forwards
every published payload to the other subscribers. Clients cache the keys they
have looked up, and a Python class wraps a client for asyncio.

The model has three parts.

1. **The broker system.** The server's objects (topic map, client records, the
   two client registries, packet buffer, event loop) and the client's objects
   (packet wrapper, ENet connection, the two topic caches) are imperative classes
   with the source's fields. Their methods are proved against an abstract server
   and abstract caches. `System` puts the abstract server, its connections, any
   number of high-level clients and any number of raw peers, which may send any
   bytes, into one state machine; the end-to-end theorems hold in every state it
   can reach. `SystemRuns` says what can happen there and gives a run in which a
   message arrives, and `ClientRefines` shows that the client's methods take the
   machine's steps. What the server must do is also defined a second time, in
   `History`, from the sequence of ENet events alone (who owns a slot, whose
   latest request for a key is a subscribe, which names were asked for and in
   which order), and the two definitions are proved to agree.
2. **The asyncio wrapper.** `AsyncClient` is an interleaving transition system of
   the event loop, its tasks and the worker thread, and its theorems hold under
   every interleaving. `AsyncWorker` is the wrapper as an object, with its
   attributes, the methods tasks call, the closures the event loop runs and the
   worker's loops; before each step of the worker the event loop may do anything.
   Every life of the object is shown to be a run of that system. `AsyncCalls`
   reads what the system's states hold off the steps of the run alone.
3. **The wire codec and the reused packet buffer.** Headers are laid out in the
   byte order of the host; hosts of both byte orders are modelled, and server and
   clients need not share one.

## Assumptions

- ENet channel 0 is reliable and keeps order; a disconnect may lose what has not
  been read yet. A connection is therefore two growing sequences of which each
  end has read a prefix.
- On each of the server's 8 peer slots events alternate between connect, any
  number of receives, and disconnect (`History.TraceIsAlternation`).
- One server process that is never restarted, as README.md:393 of the repository
  says of keys.
- Fewer than 2^64 connections. Fewer than 2^64 topics, where names must be told
  apart: `Topics.InjectiveNonzeroExactly` shows that this is exactly the condition
  under which they are, because the key counter wraps and the 2^64-th topic gets
  key 0.
- `enet_packet_create` copies its input.
- `asyncio.Queue` hands out items in order to some waiting `get`, and
  `call_soon_threadsafe` runs callbacks in order.

The fields that only serve the proofs are ghost fields of the classes and, in the
two state machines, the histories named there (`trace`, `subscribed`,
`calls` of publish and subscribe, `got`; `retired`, `outcomes`, `drained`, `failure`, `failedFrom`, `drainedAt`,
`polled`, `taken`).

## What does not hold

- The repository's README.md:391-392 says that peers must have compatible
  byte order. The code is better than that: only the reserved and version fields
  are in host order, and nothing but the log reads them, so hosts of different
  byte order understand each other (`Messages.RequestRoundTrip`, `Messages.ReplyRoundTrip`).
- A command of the asyncio wrapper need not be completed. `HandledExactly` gives
  the exact condition once the worker is gone, `LostAfterClose` and
  `LostAfterFailure` give both ways to miss it. A second `close()` that queues its
  command while the thread still lives is one of them: this worker never completes
  it. (One that starts after the thread has ended returns at once, and a later
  `connect()` would start another worker on what is left in the queue.)
- After the worker's error is published `recv()` raises even when messages are
  still queued (`RefusedWithMessageQueued`). Everything polled can still be
  received exactly when at least as many calls are blocked as messages are queued
  (`AllReceivableExactly`).

## Model

| member | source | states |
|---|---|---|
| `Protocol.NetworkOrderInMemory` | include/spraybus/networking/protocol.hpp:27-39 | the converted key, as the host stores it, is the big-endian key, on either host |
| `Protocol.ByteOrderRoundTrip` | include/spraybus/networking/protocol.hpp:27-49 | converting a key to network order and back returns it |
| `Protocol.SwapTwice` | include/spraybus/networking/protocol.hpp:33-34 | swapping the bytes of a number twice returns it |
| `Protocol.SwapStoresBig` | include/spraybus/networking/protocol.hpp:33-34 | a swapped number stored little end first is the number stored big end first |
| `Protocol.ParseConstructed` | include/spraybus/networking/protocol.hpp:305-314 | parsing a constructed packet returns every header and payload |
| `Protocol.ConstructParsed` | include/spraybus/networking/protocol.hpp:415-431 | rebuilding a parsed packet of 16 or more bytes returns the same bytes |
| `Protocol.KeyReadsBigEndian` | include/spraybus/networking/protocol.hpp:257-259 | the key read is the big-endian value of bytes 8 to 15, on either host |
| `Protocol.PacketFields` | include/spraybus/networking/protocol.hpp:152-280 | every packet carries its type in byte 7, its key big end first in bytes 8 to 15 and then its payload |
| `Protocol.PacketLayout` | include/spraybus/networking/protocol.hpp:152-280 | every byte of a packet: four of zero, version 1 in the byte order of the host, origin, type, the key big end first, the payload |
| `Messages.RequestRoundTrip` | src/spraybus/server/server.cpp:29-73 | the server acts on exactly the request a client built, whatever the two byte orders |
| `Messages.ReplyRoundTrip` | include/spraybus/client/client.hpp:141-156 | a client reads exactly the reply the server built, whatever the two byte orders |
| `Messages.RequestLayout` | include/spraybus/networking/protocol.hpp:56-117 | what goes over the wire for each request: origin 1 and types 1, 3, 4 and 5 |
| `Messages.ReplyLayout` | include/spraybus/networking/protocol.hpp:56-117 | what goes over the wire for each reply: origin 2 and types 2 and 6 |
| `Buffers.Constructor.Construct` | include/spraybus/networking/protocol.hpp:305-314 | the one buffer is overwritten and the returned span is the whole new packet, for a payload that does not alias the buffer |
| `Topics.TopicMap.GetOrCreate` | include/spraybus/server/topic_map.hpp:35-44 | returns and records what the abstract lookup gives; each topic keeps the key of its rank of creation |
| `Topics.TopicMap.Get` | include/spraybus/server/topic_map.hpp:52-59 | finds a key exactly for the topics a lookup would not create, and the same key |
| `Topics.ResolvePermanent` | include/spraybus/server/topic_map.hpp:35-44 | a lookup changes and removes no binding, adds at most one, and asking again gives the same key and changes nothing |
| `Topics.KeysDense` | include/spraybus/server/topic_map.hpp:23-44 | below 2^64 topics the keys are exactly 1 to the number of topics |
| `Topics.InjectiveNonzeroExactly` | include/spraybus/server/topic_map.hpp:25-26 | names map injectively to nonzero keys if and only if there are fewer than 2^64 |
| `Broker.ClientRecord.constructor` | include/spraybus/networking/server/server.hpp:43-44 | a new record has no subscriptions |
| `Broker.ClientRecord.Send` | include/spraybus/networking/server/server.hpp:66-71 | exactly the bytes of the span go out, to this record's peer only |
| `Broker.Server.CreateClient` | include/spraybus/networking/server/server.hpp:106-117 | throws exactly when the id is taken; otherwise both registries gain the same new record |
| `Broker.Server.AcceptConnection` | include/spraybus/networking/server/server.hpp:164-167 | never throws; the peer, the registries and the abstract server gain the same connection |
| `Broker.Server.ReceivePacket` | include/spraybus/networking/server/server.hpp:168-183 | the packet is handled as the abstract server does and destroyed once |
| `Broker.Server.DropConnection` | include/spraybus/networking/server/server.hpp:184-188 | the connection's record leaves both registries although the peer's pointer stays |
| `Broker.Server.Dispatch` | include/spraybus/networking/server/server.hpp:163-191 | one event never throws and keeps the objects a refinement of the abstract server |
| `Broker.Server.Process` | include/spraybus/networking/server/server.hpp:159-193 | after any batch of events the objects refine the abstract server after those events, each live connection has been sent exactly its stream, and each received packet is destroyed exactly once |
| `Broker.Server.RegistriesAgree` | include/spraybus/networking/server/server.hpp:99-101 | the list has each live record once by increasing id, connected peers and records are in bijection, and there are at most 8 |
| `Broker.Server.constructor` | src/spraybus/server/server.cpp:5-7 | a new server is ready for its first event, having handled none |
| `Broker.AgreeRemoved` | include/spraybus/networking/server/server.hpp:119-122 | removing a record from both registries keeps them in agreement |
| `Broker.Server.HandlePacket` | src/spraybus/server/server.cpp:19-74 | for every byte string the handler completes, changes only the sender's subscriptions and the topic map as the request says, and sends what the request says |
| `Broker.Server.ForwardToSubscribers` | src/spraybus/server/server.cpp:58-67 | the loop sends the same packet to each subscriber but the sender |
| `Broker.ForwardOnce` | src/spraybus/server/server.cpp:58-67 | every slot gets the packet once if its record wants it and not at all otherwise |
| `Broker.SentMeans` | src/spraybus/server/server.cpp:32-73 | what each slot is sent for a packet is what the abstract server sends to its connection |
| `ServerSpec.StepConsistent` | src/spraybus/server/server.cpp:19-74 | every event keeps connections, subscriptions and numbers of the abstract server consistent |
| `History.TraceIsAlternation` | include/spraybus/networking/server/server.hpp:162-191 | the histories the server can meet are exactly those whose slots alternate |
| `History.StateIsHistory` | src/spraybus/server/server.cpp:32-53 | owners of slots, subscriptions and topics are what the event history alone says |
| `History.SubscriptionsAreHistory` | src/spraybus/server/server.cpp:42-53 | a connection's subscriptions are exactly the keys whose latest request since its own connect is a subscribe |
| `History.OwnRequestsDecide` | src/spraybus/server/server.cpp:42-53 | a live connection's subscriptions are what its own requests, in order, make of the empty set |
| `History.NothingInherited` | include/spraybus/networking/server/server.hpp:164-167 | connections that sent the same requests have the same subscriptions in the server, whatever happened on their slots before |
| `History.SendsAreDue` | src/spraybus/server/server.cpp:33-68 | an event makes the server send exactly what the history makes due |
| `History.StreamIsExact` | src/spraybus/server/server.cpp:33-68 | a connection's stream has, in event order, each due packet once and no other |
| `History.FanoutsAreFilteredLog` | src/spraybus/server/server.cpp:54-68 | the fanouts of a connection are the global publish log filtered to what it was subscribed to and did not send |
| `History.SameRelativeOrder` | src/spraybus/server/server.cpp:54-68 | two connections see the publishes they share in the same order |
| `History.NonInterference` | src/spraybus/server/server.cpp:19-74 | a packet changes no other client's data and no binding, and adds at most the topic asked for |
| `History.WithoutEffectExactly` | src/spraybus/server/server.cpp:20-32 | a byte string never changes the state nor sends anything if and only if it is shorter than a header or its type byte is none of the four requests |
| `NetworkClient.Packet.MoveFrom` | include/spraybus/networking/client/client.hpp:55-57 | moving hands over the packet |
| `NetworkClient.Packet.Assign` | include/spraybus/networking/client/client.hpp:62-70 | assigning destroys the old packet once and takes the other's; self-assignment does nothing |
| `NetworkClient.Packet.Release` | include/spraybus/networking/client/client.hpp:75-78 | an owned packet is destroyed once |
| `NetworkClient.Client.Process` | include/spraybus/networking/client/client.hpp:157-170 | takes one report; a received packet goes to the wrapper and to no one else, its old packet is destroyed |
| `NetworkClient.Client.Recv` | include/spraybus/networking/client/client.hpp:179-191 | returns a packet exactly when the first report is one |
| `NetworkClient.Client.Close` | include/spraybus/networking/client/client.hpp:138-148 | every packet reported before the disconnect is destroyed exactly once |
| `NetworkClient.DrainReadsAll` | include/spraybus/networking/client/client.hpp:138-148 | as nothing follows a disconnect, the drain leaves no packet unread |
| `PacketOwners.Program.Perform` | include/spraybus/networking/client/client.hpp:25-191 | whatever operation on wrappers and connection comes next has its effect, and each reported packet stays unread, or owned by exactly one wrapper, or destroyed once |
| `PacketOwners.Program.End` | include/spraybus/networking/client/client.hpp:75-148 | when all wrappers and the connection are gone every packet reported so far has been destroyed exactly once |
| `PacketOwners.Live` | include/spraybus/networking/client/client.hpp:25-191 | over any sequence of polls, receives, moves, assignments and drops, and then the destructors, every packet is destroyed exactly once |
| `Client.Client.GetTopicKey` | src/spraybus/client/client.cpp:8-32 | a cached name returns its key and changes nothing; otherwise the request goes out and the key of the server's answer is returned and remembered in both caches; a call that throws leaves them; every packet of the temporary connection is destroyed once |
| `Client.Client.AskServer` | src/spraybus/client/client.cpp:16-32 | the life of the temporary connection, down to the destruction of what arrives late |
| `Client.Client.PublishTo` | src/spraybus/client/client.cpp:34-39 | a publish with the caller's payload and the cached or answered key goes out if and only if the lookup returned |
| `Client.Client.PublishKey` | src/spraybus/client/client.cpp:41-44 | exactly one publish packet goes out |
| `Client.Client.SubscribeTo` | src/spraybus/client/client.cpp:56-60 | a subscribe with the cached or answered key goes out if and only if the lookup returned |
| `Client.Client.Poll` | src/spraybus/client/client.cpp:62-73 | the message, the absence of one or the exception that the first report means, and its packet destroyed once |
| `Client.Client.Read` | include/spraybus/client/client.hpp:142-155 | a fanout is named by the inverse cache, a short packet throws, any other gives nothing |
| `Client.Client.Close` | include/spraybus/networking/client/client.hpp:138-148 | destroying a client destroys what its connection still reports |
| `ClientLife.Live` | src/spraybus/client/client.cpp:8-73 | over any polls and lookups on any reports, and then the destructor, each use comes to what the caches so far and its report say, and every packet of the main connection and of each temporary connection that was made is destroyed exactly once |
| `ClientSpec.LookupMeans` | src/spraybus/client/client.cpp:8-32 | a lookup gives the cached key, or the key of the server's answer and remembers it both ways, or throws when nothing arrives or the packet is short or of another type |
| `ClientSpec.DeliveredMeans` | include/spraybus/client/client.hpp:138-157 | a packet read by poll throws when it is shorter than a header, is a message with its key, payload and cached name or "unknown" when of type 6, and is nothing otherwise |
| `ClientRefines.EndMeans` | src/spraybus/client/client.cpp:8-60 | the step in which a call by name ends changes caches and main connection by the outcome of the lookup |
| `ClientRefines.GetTopicKey` | src/spraybus/client/client.cpp:8-32 | the method takes the step of the whole-system machine in which its lookup ends |
| `ClientRefines.PublishTo` | src/spraybus/client/client.cpp:34-39 | so does publishing by name |
| `ClientRefines.SubscribeTo` | src/spraybus/client/client.cpp:56-60 | so does subscribing |
| `ClientRefines.PublishKey` | src/spraybus/client/client.cpp:41-44 | publishing by key takes its step of the machine |
| `ClientRefines.Poll` | src/spraybus/client/client.cpp:62-73 | polling takes its step, and returns the message the machine records |
| `ClientSpec.LearnInverse` | src/spraybus/client/client.cpp:22-26 | recording an answer keeps the two caches inverse if and only if its key is not cached under another name |
| `EndToEnd.ChannelDiscipline` | include/spraybus/client/client.hpp:139-157 | a main connection carries only fanouts, a temporary one at most the answer for its name |
| `EndToEnd.ChannelsAreExact` | src/spraybus/server/server.cpp:29-73 | in every run the client's end has read a prefix of exactly the packets due on the connection, and the requests in the server's history are those of the packets read from it, in order |
| `EndToEnd.PollReturnsMessage` | src/spraybus/client/client.cpp:62-73 | poll turns every packet that is there into a message under a subscribed name |
| `EndToEnd.TopicsPermanent` | include/spraybus/server/topic_map.hpp:35-44 | along every run bindings are only added |
| `EndToEnd.CachesCoherent` | src/spraybus/client/client.cpp:22-26 | in every run both caches of every client are inverse and part of the server's map |
| `EndToEnd.CachedIsFresh` | src/spraybus/client/client.cpp:9-12 | a cached key is, at every later time, what asking the server would return, and asking would change nothing |
| `EndToEnd.CachedLikeAsked` | src/spraybus/client/client.cpp:8-39 | a call whose name is cached ends in the state in which it would end had the client asked, whenever the answer came |
| `EndToEnd.LookupReturnsServerKey` | src/spraybus/client/client.cpp:18-31 | an answered lookup never meets an unexpected type, returns the server's key for the name asked, and leaves name and key in both caches |
| `EndToEnd.FailedLookup` | src/spraybus/client/client.cpp:14-19 | from the call to its failure a lookup without answer leaves both caches alone and sends nothing on the main connection |
| `EndToEnd.HistoriesAreCalls` | src/spraybus/client/client.cpp:34-60 | the calls of publish and subscribe and the subscribed names recorded for a client are those that have returned, and those asked for, in the run |
| `EndToEnd.SentAreCalls` | src/spraybus/client/client.cpp:34-60 | in every run what a client has put on its main connection is, in order, one publish or subscribe packet for each of its calls that have returned, with the key and payload passed or the server's key for the name |
| `EndToEnd.PolledIsFilteredLog` | src/spraybus/client/client.cpp:34-73 | in every run the polled messages are a prefix of the filtered publish log, each under a name the client subscribed to, and each came as a publish packet put on some connection; from a high-level client, by its own call with this payload and this name or key |
| `EndToEnd.PublisherOrder` | src/spraybus/client/client.cpp:34-73 | two messages polled from one publisher come from different calls of its, in the order of the calls |
| `SystemRuns.MessageArrives` | src/spraybus/client/client.cpp:34-73 | a run in which a client subscribes, another publishes and the first polls the message |
| `SystemRuns.ServerAlwaysPossible` | include/spraybus/networking/server/server.hpp:159-193 | in every run the server can handle exactly what ENet can report next |
| `SystemRuns.ClientAlwaysPossible` | src/spraybus/client/client.cpp:8-73 | in every run a client can begin, publish, poll, hear an answer and give up exactly when it is not in a call, or in one, and the packet is there |
| `SystemRuns.OwnersExactly` | src/spraybus/client/client.cpp:16-16 | the connections are, in order, those opened by the steps of the run: for a lookup exactly when its name is not cached |
| `SystemRuns.RawExactly` | include/spraybus/networking/server/server.hpp:168-183 | a raw peer's connection carries the bytes it was made to send, in order, and has been read as often as it was made to read |
| `AsyncTheorems.OnePlace` | python/src/spraybus/async_client.py:125-249 | every command is in exactly one of queue, worker's hand, scheduled callbacks and retired, and these hold the commands in the order issued |
| `AsyncTheorems.ResolvedOnce` | python/src/spraybus/async_client.py:241-247 | a settled future stays as it is |
| `AsyncTheorems.FutureOutcome` | python/src/spraybus/async_client.py:229-249 | a future that is done has its own command's outcome, and one whose callback has run is settled |
| `AsyncTheorems.CleanShutdown` | python/src/spraybus/async_client.py:138-147 | once a close command has its result everything before it is settled in order and exactly what came after it is queued |
| `AsyncTheorems.CloseReturnsClean` | python/src/spraybus/async_client.py:84-98 | when close() can return the thread has ended without error and the queue is empty if and only if nothing followed its command |
| `AsyncTheorems.HandledExactly` | python/src/spraybus/async_client.py:138-153 | with the worker gone, a command has an outcome if and only if no close came before it or, after an error, it was issued before the drain ended |
| `AsyncTheorems.LeftForever` | python/src/spraybus/async_client.py:155-159 | a command this worker leaves in the queue is never completed in any continuation of its run |
| `AsyncTheorems.PendingAllFailed` | python/src/spraybus/async_client.py:216-222 | every command issued before the drain ended is dealt with, the pending ones with the error |
| `AsyncTheorems.RefusedAfterFailure` | python/src/spraybus/async_client.py:148-151 | whoever is resumed by a drained command is refused by every later call |
| `AsyncTheorems.OneToken` | python/src/spraybus/async_client.py:112-119 | after the error is published one token exists, last in the queue or in one consumer's hand, and nothing can come behind it |
| `AsyncTheorems.RecvBounded` | python/src/spraybus/async_client.py:112-119 | after the error the moves of blocked recv() calls are bounded by a measure that falls with each |
| `AsyncTheorems.BlockedCanMove` | python/src/spraybus/async_client.py:112-119 | while recv() is blocked after the error it can take a message or the error, or a put-back is due; `BlockedExactly` says which calls are blocked |
| `AsyncTheorems.ReceivedIsPrefixOfPolled` | python/src/spraybus/async_client.py:181-227 | received messages are a prefix of those polled, and the rest is queued or scheduled, in order |
| `AsyncCalls.PolledExactly` | python/src/spraybus/async_client.py:181-192 | the polled messages of a state are those the native client has returned in the run |
| `AsyncCalls.MessageReceived` | python/src/spraybus/async_client.py:112-119 | a run in which a polled message is received |
| `AsyncCalls.BlockedExactly` | python/src/spraybus/async_client.py:112-119 | a call of recv() is blocked from when it begins until it gets an item or is given up, and can get one exactly when the queue is not empty |
| `AsyncCalls.BlockedCounted` | python/src/spraybus/async_client.py:112-119 | the number of blocked calls is that of calls begun less those that got an item or were given up |
| `AsyncCalls.IssuedExactly` | python/src/spraybus/async_client.py:84-130 | the commands of a state are those issued by the calls of the run, in order |
| `AsyncCalls.DecidedInOrder` | python/src/spraybus/async_client.py:132-179 | the i-th decision of the worker is the outcome of command i, a drained one getting the error that ended the loop |
| `AsyncCalls.CancelledExactly` | python/src/spraybus/async_client.py:125-130 | the cancelled futures are those cancelled in the run |
| `AsyncCalls.AcceptedExactly` | python/src/spraybus/async_client.py:251-257 | calls are accepted if and only if no close() has returned and no error has been published |
| `AsyncCalls.ClosedForGood` | python/src/spraybus/async_client.py:84-98 | once close() has returned every later call is refused |
| `AsyncCalls.CloseExactly` | python/src/spraybus/async_client.py:84-98 | close() queues a command if and only if none has returned and the thread lives, and returns at once otherwise |
| `AsyncCalls.ConnectExactly` | python/src/spraybus/async_client.py:66-82 | connect() returns only if the native client was constructed, else raises the error of its construction, and unless cancelled is settled by the first callback |
| `AsyncCalls.ConnectCancelledExactly` | python/src/spraybus/async_client.py:66-82 | the future of connect() is cancelled exactly if it was cancelled in the run |
| `AsyncRecv.RefusedWithMessageQueued` | python/src/spraybus/async_client.py:112-119 | a run in which a polled message is queued and recv() is refused |
| `AsyncRecv.TakenBounded` | python/src/spraybus/async_client.py:112-119 | after the error is published no continuation receives more messages than there are blocked calls |
| `AsyncRecv.AllReceivableExactly` | python/src/spraybus/async_client.py:112-119 | after the error is published a continuation that receives everything polled exists if and only if there are at least as many blocked calls as queued messages |
| `AsyncContainment.OutcomeIsContained` | python/src/spraybus/async_client.py:161-179 | had a command come out otherwise, the same run is possible and ends in the same state but for that command's outcome |
| `AsyncContainment.LostAfterClose` | python/src/spraybus/async_client.py:140-142 | a run in which a second close, or another command, is never completed |
| `AsyncContainment.LostAfterFailure` | python/src/spraybus/async_client.py:216-222 | a run in which a command issued between drain and error callback is never completed |
| `AsyncInvariants.ConservedKept` | python/src/spraybus/async_client.py:125-249 | every step keeps the commands in order and in one place |
| `AsyncErrors.ErrorKept` | python/src/spraybus/async_client.py:204-222 | every step keeps the error callback single, in front of all drained commands and behind all else |
| `AsyncWorker.Wrapper.constructor` | python/src/spraybus/async_client.py:66-81 | a connected wrapper is in the first state of the transition system |
| `AsyncWorker.Wrapper.Call` | python/src/spraybus/async_client.py:125-130 | a command is queued exactly when the client is running |
| `AsyncWorker.Wrapper.EnsureRunning` | python/src/spraybus/async_client.py:251-257 | raises exactly when closed, failed or not connected |
| `AsyncWorker.Wrapper.CloseBegin` | python/src/spraybus/async_client.py:84-94 | a close command is queued exactly when there is a live thread |
| `AsyncWorker.Wrapper.RecvGet` | python/src/spraybus/async_client.py:112-119 | a blocked call takes the oldest item, and holds it if it is the error |
| `AsyncWorker.Wrapper.RunNext` | python/src/spraybus/async_client.py:204-249 | the event loop runs the oldest callback, which settles its future unless settled, posts its message or publishes the error |
| `AsyncWorker.Wrapper.LoopStep` | python/src/spraybus/async_client.py:66-130 | each step on the event loop is taken exactly when the transition system allows it, with its effect; the methods it calls give the effects in the attributes |
| `AsyncWorker.EveryTurn` | python/src/spraybus/async_client.py:66-130 | whatever the event loop does between two steps of the worker in a run is what some turn given to `Yield` does |
| `AsyncWorker.Wrapper.NextCommand` | python/src/spraybus/async_client.py:155-159 | the worker gets the oldest command or none, whatever the event loop does before |
| `AsyncWorker.Wrapper.PollMessages` | python/src/spraybus/async_client.py:181-192 | between any steps of the event loop the worker posts each polled message once, in order: what has been polled grows by exactly the batch |
| `AsyncWorker.Wrapper.FailPending` | python/src/spraybus/async_client.py:216-222 | between any steps of the event loop, which may queue more, the worker takes and fails commands one by one until the queue is empty |
| `AsyncWorker.Wrapper.RunOnce` | python/src/spraybus/async_client.py:138-151 | the worker's steps in one turn, between any steps of the event loop, given what it meets |
| `AsyncWorker.Wrapper.Run` | python/src/spraybus/async_client.py:132-153 | the worker's steps over any number of turns, between any steps of the event loop |
| `AsyncWorker.Life` | python/src/spraybus/async_client.py:66-153 | connecting and running the worker under any schedule is a run of the transition system from its first state; what it has polled are the batches of its turns, what recv() got is a prefix of them, each command met comes out as its turn says, and the error is that of the last turn |

## Left out

- ENet internals: retransmission, timeouts, allocation of hosts and peers; they appear only as the assumptions above.
- Ownership of packets that are sent: it depends on how `enet_peer_send` ends, which the code ignores.
- `process()` of server and client, and the drain of the destructor, are given the reports of ENet as a sequence; time is left out.
- The temporary connection of a lookup is a parameter (whether it connects and what it reports); in the state machine it is a connection like any other.
- The derived and base server classes are one class, and the event's type is a datatype; report types other than connect, receive and disconnect do nothing and are left out on the server.
- `broadcast`, the read-only `clients()`, `on_process`, and the port check of the server's constructor.
- Logging, `to_string`, environment lookup, signals, command lines, launchers, bindings and build files.
- String overloads of publish, which only reinterpret the bytes.
- Server restart; reconnecting an asyncio client; closed event loops; running out of memory.
- AsyncTheorems.LeftForever: a run is that of one worker; a `connect()` after a clean close, which would start another worker on the same queue, is not a step of the model.
- The event loop gets its turns before the worker's steps, as steps that are possible at that time; the loop's own scheduling is left out.
- Commands of the asyncio wrapper are numbers with a close flag and outcomes are numbers; what a publish, subscribe or lookup does at the native client is the first part of the model.
- A main connection that the server drops: the state machine only stops it; the exception of `poll` is in `Client.Client.Poll`.
- Progress of the asyncio wrapper: nothing says that the worker or the event loop is ever scheduled.
