// The asyncio wrapper as an interleaving of the event loop, its tasks and the
// worker thread (python/src/spraybus/async_client.py), from the moment connect()
// has started the thread.

module AsyncClient {
  import opened Wrappers
  import opened ClientSpec

  // ---------- state ----------

  // The result or exception of a command.
  datatype Outcome = Value(value: nat) | Error(error: nat)

  datatype Future = Pending | Done(outcome: Outcome) | Cancelled

  // What the worker hands to call_soon_threadsafe.
  datatype Callback =
    | Resolve(id: nat, outcome: Outcome)
    | ResolveStarted(outcome: Outcome)
    | Post(message: FanoutMessage)
    | PublishError(error: nat)

  // An entry of the asyncio message queue.
  datatype Item = Msg(message: FanoutMessage) | WorkerError(error: nat)

  // Where the worker thread is in _run.
  datatype Worker =
    | Constructing
    | Idle
    | Holding(id: nat)
    | Polling
    | Failing(error: nat)
    | Publishing(error: nat)
    | Draining(error: nat)
    | DrainHolding(error: nat, id: nat)
    | Finishing
    | Dead

  // Commands are numbered in the order they are put on the queue; closes[i]
  // tells whether command i is a close command, futures[i] is its future.
  // The fields after threadSet are histories: retired are the commands whose
  // callback has run, outcomes what the worker decided for each command,
  // drained those failed by _fail_pending, failure the error that ended the
  // loop, failedFrom and drainedAt the numbers of commands dealt with when it
  // did and issued when _fail_pending saw an empty queue, polled and taken the
  // messages got from the native client and by recv.
  datatype State = State(
    closes: seq<bool>, futures: seq<Future>, commands: seq<nat>,
    callbacks: seq<Callback>, messages: seq<Item>, waiters: set<nat>, holder: Option<nat>,
    worker: Worker, workerError: Option<nat>, closed: bool, threadSet: bool,
    started: Future,
    retired: seq<nat>, outcomes: map<nat, Outcome>, drained: set<nat>,
    failure: Option<nat>, failedFrom: nat, drainedAt: nat,
    polled: seq<FanoutMessage>, taken: seq<FanoutMessage>)

  const START: State :=
    State([], [], [], [], [], {}, None, Constructing, None, false, true, Pending,
          [], map[], {}, None, 0, 0, [], [])

  // ---------- steps ----------

  datatype Action =
    // tasks on the event loop
    | Call
    | CloseCall
    | CloseReturn(id: nat)
    | CloseDead
    | Cancel(id: nat)
    | CancelStarted
    | RecvCall(r: nat)
    | RecvTake(r: nat)
    | RecvPutBack
    | RecvCancel(r: nat)
    // the event loop
    | RunCallback
    // the worker
    | ConstructOk
    | ConstructFail(error: nat)
    | GetCommand
    | GetTimeout
    | CompleteClose
    | CompleteCommand(outcome: Outcome)
    | PollOne(message: FanoutMessage)
    | PollNone
    | LoopFail(error: nat)
    | FailStarted
    | ScheduleError
    | DrainGet
    | DrainFail
    | DrainEmpty
    | Exit

  // _ensure_running raises nothing
  predicate Running(s: State)
  {
    !s.closed && s.workerError.None? && s.threadSet
  }

  predicate Enabled(s: State, a: Action)
  {
    match a
    case Call => Running(s)
    case CloseCall => s.threadSet && !s.worker.Dead?
    case CloseReturn(id) =>
      id < |s.closes| && id < |s.futures| && s.closes[id] && s.futures[id].Done? && s.futures[id].outcome.Value?
      && s.worker.Dead?
    case CloseDead => !s.threadSet || s.worker.Dead?
    case Cancel(id) => id < |s.futures| && s.futures[id].Pending?
    case CancelStarted => s.started.Pending?
    case RecvCall(r) => Running(s) && r !in s.waiters
    case RecvTake(r) => r in s.waiters && s.messages != []
    case RecvPutBack => s.holder.Some?
    case RecvCancel(r) => r in s.waiters
    case RunCallback => s.callbacks != []
    case ConstructOk => s.worker.Constructing?
    case ConstructFail(_) => s.worker.Constructing?
    case GetCommand => s.worker.Idle? && s.commands != []
    case GetTimeout => s.worker.Idle? && s.commands == []
    case CompleteClose => s.worker.Holding? && s.worker.id < |s.closes| && s.closes[s.worker.id]
    case CompleteCommand(_) => s.worker.Holding? && s.worker.id < |s.closes| && !s.closes[s.worker.id]
    case PollOne(_) => s.worker.Polling?
    case PollNone => s.worker.Polling?
    case LoopFail(_) => s.worker.Idle? || s.worker.Polling?
    case FailStarted => s.worker.Failing?
    case ScheduleError => s.worker.Publishing?
    case DrainGet => s.worker.Draining? && s.commands != []
    case DrainFail => s.worker.DrainHolding?
    case DrainEmpty => s.worker.Draining? && s.commands == []
    case Exit => s.worker.Finishing?
  }

  // The number of commands the worker has decided on so far.
  function Dealt(s: State): nat { |s.retired| + |Ids(s.callbacks)| }

  // A command is put on the queue with a new future.
  function Enqueue(s: State, close: bool): State
  {
    s.(closes := s.closes + [close], futures := s.futures + [Pending], commands := s.commands + [|s.closes|])
  }

  function Schedule(s: State, c: Callback): State { s.(callbacks := s.callbacks + [c]) }

  // _complete for a command's future
  function Complete(s: State, id: nat, outcome: Outcome): State
  {
    Schedule(s, Resolve(id, outcome)).(outcomes := s.outcomes[id := outcome])
  }

  // A future that is already cancelled or done is left alone.
  function Settle(f: Future, outcome: Outcome): Future
  {
    if f.Pending? then Done(outcome) else f
  }

  function Run(s: State, c: Callback): State
  {
    match c
    case Resolve(id, outcome) =>
      var s1 := s.(retired := s.retired + [id]);
      if id < |s.futures| then s1.(futures := s.futures[id := Settle(s.futures[id], outcome)]) else s1
    case ResolveStarted(outcome) => s.(started := Settle(s.started, outcome))
    case Post(m) => s.(messages := s.messages + [Msg(m)])
    case PublishError(e) => s.(workerError := Some(e), messages := s.messages + [WorkerError(e)])
  }

  function Fail(s: State, e: nat): State
  {
    s.(worker := Failing(e), failure := Some(e), failedFrom := Dealt(s))
  }

  // The steps of the worker thread; all others are taken on the event loop.
  predicate WorkerStep(a: Action)
  {
    a.ConstructOk? || a.ConstructFail? || a.GetCommand? || a.GetTimeout? || a.CompleteClose? || a.CompleteCommand?
    || a.PollOne? || a.PollNone? || a.LoopFail? || a.FailStarted? || a.ScheduleError? || a.DrainGet? || a.DrainFail?
    || a.DrainEmpty? || a.Exit?
  }

  function LoopNext(s: State, a: Action): State
    requires Enabled(s, a) && !WorkerStep(a)
  {
    match a
    case Call => Enqueue(s, false)
    case CloseCall => Enqueue(s, true)
    case CloseReturn(_) => s.(threadSet := false, closed := true)
    case CloseDead => s.(threadSet := false, closed := true)
    case Cancel(id) => s.(futures := s.futures[id := Cancelled])
    case CancelStarted => s.(started := Cancelled)
    case RecvCall(r) => s.(waiters := s.waiters + {r})
    case RecvTake(r) =>
      var s1 := s.(waiters := s.waiters - {r}, messages := s.messages[1..]);
      if s.messages[0].Msg?
      then s1.(taken := s.taken + [s.messages[0].message])
      else s1.(holder := Some(s.messages[0].error))
    case RecvPutBack => s.(holder := None, messages := s.messages + [WorkerError(s.holder.value)])
    case RecvCancel(r) => s.(waiters := s.waiters - {r})
    case RunCallback => Run(s.(callbacks := s.callbacks[1..]), s.callbacks[0])
  }

  function WorkerNext(s: State, a: Action): State
    requires Enabled(s, a) && WorkerStep(a)
  {
    match a
    case ConstructOk => Schedule(s, ResolveStarted(Value(0))).(worker := Idle)
    case ConstructFail(e) => Fail(s, e)
    case GetCommand => s.(commands := s.commands[1..], worker := Holding(s.commands[0]))
    case GetTimeout => s.(worker := Polling)
    case CompleteClose => Complete(s, s.worker.id, Value(0)).(worker := Finishing)
    case CompleteCommand(outcome) => Complete(s, s.worker.id, outcome).(worker := Polling)
    case PollOne(m) => Schedule(s, Post(m)).(polled := s.polled + [m])
    case PollNone => s.(worker := Idle)
    case LoopFail(e) => Fail(s, e)
    case FailStarted => Schedule(s, ResolveStarted(Error(s.worker.error))).(worker := Publishing(s.worker.error))
    case ScheduleError => Schedule(s, PublishError(s.worker.error)).(worker := Draining(s.worker.error))
    case DrainGet => s.(commands := s.commands[1..], worker := DrainHolding(s.worker.error, s.commands[0]))
    case DrainFail =>
      Complete(s, s.worker.id, Error(s.worker.error))
        .(drained := s.drained + {s.worker.id}, worker := Draining(s.worker.error))
    case DrainEmpty => s.(worker := Finishing, drainedAt := |s.closes|)
    case Exit => s.(worker := Dead)
  }

  function Next(s: State, a: Action): State
    requires Enabled(s, a)
  {
    if WorkerStep(a) then WorkerNext(s, a) else LoopNext(s, a)
  }

  // ---------- runs ----------

  ghost predicate Moves(s: State, a: Action, t: State) { Enabled(s, a) && t == Next(s, a) }

  // A run of the wrapper: the states it goes through and the steps between them.
  ghost predicate Behaviour(states: seq<State>, acts: seq<Action>)
  {
    && |states| == |acts| + 1 && states[0] == START
    && forall k {:trigger acts[k]} :: 0 <= k < |acts| ==> Moves(states[k], acts[k], states[k + 1])
  }

  lemma Extend(states: seq<State>, acts: seq<Action>, a: Action) returns (states': seq<State>, acts': seq<Action>)
    requires Behaviour(states, acts) && Enabled(states[|acts|], a)
    ensures states' == states + [Next(states[|acts|], a)] && acts' == acts + [a] && Behaviour(states', acts')
  {
    hide Next, Enabled;
    states', acts' := states + [Next(states[|acts|], a)], acts + [a];
    forall k | 0 <= k < |acts'| ensures Moves(states'[k], acts'[k], states'[k + 1]) {
      if k < |acts| {
        assert Moves(states[k], acts[k], states[k + 1]);
      }
    }
  }

  // ---------- the commands, in the order they move along ----------

  function Ids(callbacks: seq<Callback>): seq<nat>
  {
    if callbacks == [] then []
    else (if callbacks[0].Resolve? then [callbacks[0].id] else []) + Ids(callbacks[1..])
  }

  function InHand(w: Worker): seq<nat>
  {
    if w.Holding? || w.DrainHolding? then [w.id] else []
  }

  // Retired, scheduled, in the worker's hand, queued.
  function Line(s: State): seq<nat>
  {
    s.retired + Ids(s.callbacks) + InHand(s.worker) + s.commands
  }

  function UpTo(n: nat): (r: seq<nat>)
    ensures |r| == n && forall i :: 0 <= i < n ==> r[i] == i
  {
    seq(n, i => i)
  }

  function Fanouts(items: seq<Item>): seq<FanoutMessage>
  {
    if items == [] then []
    else (if items[0].Msg? then [items[0].message] else []) + Fanouts(items[1..])
  }

  function Posts(callbacks: seq<Callback>): seq<FanoutMessage>
  {
    if callbacks == [] then []
    else (if callbacks[0].Post? then [callbacks[0].message] else []) + Posts(callbacks[1..])
  }

  lemma {:induction false} IdsAppend(callbacks: seq<Callback>, c: Callback)
    ensures Ids(callbacks + [c]) == Ids(callbacks) + (if c.Resolve? then [c.id] else [])
  {
    if callbacks == [] {
      assert [c][1..] == [];
    } else {
      IdsAppend(callbacks[1..], c);
      assert (callbacks + [c])[1..] == callbacks[1..] + [c];
    }
  }

  lemma {:induction false} PostsAppend(callbacks: seq<Callback>, c: Callback)
    ensures Posts(callbacks + [c]) == Posts(callbacks) + (if c.Post? then [c.message] else [])
  {
    if callbacks == [] {
      assert [c][1..] == [];
    } else {
      PostsAppend(callbacks[1..], c);
      assert (callbacks + [c])[1..] == callbacks[1..] + [c];
    }
  }

  lemma {:induction false} FanoutsAppend(items: seq<Item>, x: Item)
    ensures Fanouts(items + [x]) == Fanouts(items) + (if x.Msg? then [x.message] else [])
  {
    if items == [] {
      assert [x][1..] == [];
    } else {
      FanoutsAppend(items[1..], x);
      assert (items + [x])[1..] == items[1..] + [x];
    }
  }
}
