// The asyncio wrapper as the object it is: its attributes, the methods that
// tasks call, the closures the event loop runs and the worker's loops. Every
// method takes only steps of the transition system, and before each step of the
// worker the event loop may do whatever the schedule lets it do
// (python/src/spraybus/async_client.py).

module AsyncWorker {
  import opened Wrappers
  import opened ClientSpec
  import opened AsyncClient
  import opened AsyncInvariants
  import opened AsyncTheorems
  import opened AsyncCalls

  // ---------- the worker's own steps ----------

  // The steps of the worker among these.
  function Own(acts: seq<Action>): seq<Action>
  {
    if acts == [] then []
    else Own(acts[..|acts| - 1]) + if WorkerStep(acts[|acts| - 1]) then [acts[|acts| - 1]] else []
  }

  lemma OwnMore(acts: seq<Action>, a: Action)
    ensures Own(acts + [a]) == Own(acts) + if WorkerStep(a) then [a] else []
  {
    assert (acts + [a])[..|acts|] == acts;
  }

  // The state after the event loop has tried these steps: those that are possible
  // when their time comes are taken.
  function Turned(s: State, turn: seq<Action>): State
  {
    if turn == [] then s
    else
      var t, a := Turned(s, turn[..|turn| - 1]), turn[|turn| - 1];
      if !WorkerStep(a) && Enabled(t, a) then Next(t, a) else t
  }

  // Whatever the event loop does in a run between two steps of the worker is what
  // some turn of it does.
  lemma {:induction false} EveryTurn(states: seq<State>, acts: seq<Action>, j: nat, k: nat)
    requires Behaviour(states, acts) && j <= k < |states|
    requires forall i :: j <= i < k ==> !WorkerStep(acts[i])
    ensures Turned(states[j], acts[j..k]) == states[k]
  {
    hide Next, Enabled;
    if j < k {
      EveryTurn(states, acts, j, k - 1);
      assert Moves(states[k - 1], acts[k - 1], states[k]);
      assert acts[j..k][..k - 1 - j] == acts[j..k - 1];
    }
  }

  lemma TurnedNone(s: State)
    ensures Turned(s, []) == s
  {
  }

  lemma OneTried(s: State, turn: seq<Action>, i: nat)
    requires i < |turn|
    ensures var t, a := Turned(s, turn[..i]), turn[i];
            Turned(s, turn[..i + 1]) == if !WorkerStep(a) && Enabled(t, a) then Next(t, a) else t
  {
    hide Next, Enabled;
    assert turn[..i + 1][..i] == turn[..i];
  }

  // _poll_messages: one step for each message, and one for the end.
  function Polls(batch: seq<FanoutMessage>, failure: Option<nat>): seq<Action>
  {
    PollSteps(batch) + [if failure.Some? then LoopFail(failure.value) else PollNone]
  }

  function PollSteps(batch: seq<FanoutMessage>): (r: seq<Action>)
    ensures |r| == |batch| && forall i :: 0 <= i < |batch| ==> r[i] == PollOne(batch[i])
  {
    seq(|batch|, i requires 0 <= i < |batch| => PollOne(batch[i]))
  }

  // _fail_pending: n commands are taken and failed, and then there is none.
  function Drains(n: nat): seq<Action> { Pairs(n) + [DrainEmpty] }

  function Pairs(n: nat): seq<Action>
  {
    if n == 0 then [] else Pairs(n - 1) + [DrainGet, DrainFail]
  }

  // The except clause of _run.
  function Excepts(n: nat): seq<Action>
  {
    [FailStarted, ScheduleError] + Drains(n)
  }

  // What the native client does in one turn of the worker's loop: how the
  // command comes out, what is polled, and the error, if any, that ends it.
  datatype Turn = Turn(outcome: Outcome, batch: seq<FanoutMessage>, failure: Option<nat>)

  // What the worker meets in a turn: no command, a close command or another one,
  // and how many commands it fails if the turn ends in an error.
  datatype Meeting = Nothing | CloseCommand(id: nat) | OtherCommand(id: nat)

  datatype Met = Met(command: Meeting, failed: nat)

  predicate Over(turn: Turn, met: Met) { met.command.CloseCommand? || turn.failure.Some? }

  function TurnSteps(turn: Turn, met: Met): seq<Action>
  {
    var poll := Polls(turn.batch, turn.failure) + if turn.failure.Some? then Excepts(met.failed) else [];
    match met.command
    case Nothing => [GetTimeout] + poll
    case CloseCommand(_) => [GetCommand, CompleteClose]
    case OtherCommand(_) => [GetCommand, CompleteCommand(turn.outcome)] + poll
  }

  // The messages polled in these turns: none in one that ends with a close command.
  function Batches(turns: seq<Turn>, mets: seq<Met>): seq<FanoutMessage>
    requires |mets| <= |turns|
  {
    if mets == [] then []
    else
      var n := |mets| - 1;
      Batches(turns, mets[..n]) + if mets[n].command.CloseCommand? then [] else turns[n].batch
  }

  // The command met in a turn has come out as the turn says.
  predicate CameOut(outcomes: map<nat, Outcome>, turn: Turn, met: Met)
  {
    match met.command
    case Nothing => true
    case CloseCommand(id) => id in outcomes && outcomes[id] == Value(0)
    case OtherCommand(id) => id in outcomes && outcomes[id] == turn.outcome
  }

  // The loop was left by the error of its last turn, unless by a close command.
  predicate LeftBy(failure: Option<nat>, turns: seq<Turn>, mets: seq<Met>, over: bool)
    requires |mets| <= |turns|
  {
    over && mets != [] && !mets[|mets| - 1].command.CloseCommand? ==> failure == turns[|mets| - 1].failure
  }

  function LoopSteps(turns: seq<Turn>, mets: seq<Met>): seq<Action>
    requires |mets| <= |turns|
  {
    if mets == [] then []
    else
      var n := |mets| - 1;
      LoopSteps(turns, mets[..n]) + TurnSteps(turns[n], mets[n])
  }

  lemma OneMoreTurn(turns: seq<Turn>, mets: seq<Met>, met: Met)
    requires |mets| < |turns|
    ensures LoopSteps(turns, mets + [met]) == LoopSteps(turns, mets) + TurnSteps(turns[|mets|], met)
    ensures Batches(turns, mets + [met])
         == Batches(turns, mets) + if met.command.CloseCommand? then [] else turns[|mets|].batch
  {
    assert (mets + [met])[..|mets|] == mets;
  }

  lemma NoTurns(turns: seq<Turn>)
    ensures LoopSteps(turns, []) == [] && Batches(turns, []) == []
  {
  }

  // The loop is followed to its end or for all turns, and ends in its last turn only.
  predicate Follows(turns: seq<Turn>, mets: seq<Met>, over: bool)
  {
    && |mets| <= |turns| && (!over ==> |mets| == |turns|) && (over ==> mets != [])
    && forall i :: 0 <= i < |mets| ==> (Over(turns[i], mets[i]) <==> over && i == |mets| - 1)
  }

  class Wrapper {
    var commands: seq<nat>
    var isClose: seq<bool>
    var futures: seq<Future>
    var callbacks: seq<Callback>
    var messages: seq<Item>
    var waiters: set<nat>
    var holder: Option<nat>
    var started: Future
    var closed: bool
    var workerError: Option<nat>
    var threadSet: bool
    var alive: bool
    // what the event loop does before each of the worker's next steps
    var schedule: seq<seq<Action>>
    ghost var model: State
    ghost var states: seq<State>
    ghost var acts: seq<Action>

    // The object's life so far is a run of the transition system that ends in model.
    ghost predicate Recorded()
      reads this`model, this`states, this`acts
    {
      Behaviour(states, acts) && |states| == |acts| + 1 && states[|acts|] == model
    }

    // The attributes are those of the model.
    ghost predicate Shown()
      reads this`model, this`commands, this`isClose, this`futures, this`callbacks, this`messages, this`waiters
      reads this`holder, this`started, this`closed, this`workerError, this`threadSet, this`alive
    {
      && commands == model.commands && isClose == model.closes && futures == model.futures
      && callbacks == model.callbacks && messages == model.messages && waiters == model.waiters
      && holder == model.holder && started == model.started && closed == model.closed
      && workerError == model.workerError && threadSet == model.threadSet && alive == !model.worker.Dead?
    }

    ghost predicate Valid()
      reads this`model, this`states, this`acts
      reads this`commands, this`isClose, this`futures, this`callbacks, this`messages, this`waiters
      reads this`holder, this`started, this`closed, this`workerError, this`threadSet, this`alive
    {
      Recorded() && Shown()
    }

    // connect(), up to the await
    constructor (schedule: seq<seq<Action>>)
      ensures Valid() && model == START && acts == [] && this.schedule == schedule
      ensures commands == [] && callbacks == [] && alive && threadSet && !closed
    {
      commands, isClose, futures, callbacks, messages := [], [], [], [], [];
      waiters, holder, started := {}, None, Pending;
      closed, workerError, threadSet, alive := false, None, true, true;
      this.schedule, model, states, acts := schedule, START, [START], [];
    }

    ghost method Take(a: Action)
      requires Recorded() && Enabled(model, a)
      modifies this`model, this`states, this`acts
      ensures Recorded() && model == Next(old(model), a) && acts == old(acts) + [a]
      ensures Own(acts) == Own(old(acts)) + if WorkerStep(a) then [a] else []
    {
      hide Next, Enabled, Behaviour, Own;
      OwnMore(acts, a);
      states, acts := Extend(states, acts, a);
      model := Next(model, a);
    }

    // ---------- tasks ----------

    method EnsureRunning() returns (ok: bool)
      ensures ok <==> !closed && workerError.None? && threadSet
    {
      if closed { return false; }
      if workerError.Some? { return false; }
      return threadSet;
    }

    // The step was possible and has been taken, or was not and nothing has changed.
    twostate predicate Did(a: Action, done: bool)
      reads this
    {
      && Valid() && done == Enabled(old(model), a)
      && model == (if done then Next(old(model), a) else old(model))
      && acts == if done then old(acts) + [a] else old(acts)
    }

    // _call, up to the await: nothing is queued when the client is not running.
    method Call() returns (done: bool)
      requires Valid()
      modifies this`commands, this`isClose, this`futures, this`model, this`states, this`acts
      ensures Did(Action.Call, done) && (done <==> !closed && workerError.None? && threadSet)
      ensures commands == if done then old(commands) + [|old(isClose)|] else old(commands)
      ensures isClose == if done then old(isClose) + [false] else old(isClose)
    {
      hide Behaviour, WorkerNext, Own;
      done := EnsureRunning();
      if done {
        Put(false);
        Take(Action.Call);
      }
    }

    // A command and its future are created and queued.
    method Put(close: bool)
      modifies this`commands, this`isClose, this`futures
      ensures commands == old(commands) + [|old(isClose)|]
      ensures isClose == old(isClose) + [close] && futures == old(futures) + [Pending]
    {
      commands, isClose, futures := commands + [|isClose|], isClose + [close], futures + [Pending];
    }

    // close(), up to the await, when the thread is alive
    method CloseBegin() returns (done: bool)
      requires Valid()
      modifies this`commands, this`isClose, this`futures, this`model, this`states, this`acts
      ensures Did(CloseCall, done) && (done <==> threadSet && alive)
      ensures commands == if done then old(commands) + [|old(isClose)|] else old(commands)
      ensures isClose == if done then old(isClose) + [true] else old(isClose)
    {
      hide Behaviour, WorkerNext, Own;
      done := threadSet && alive;
      if done {
        Put(true);
        Take(CloseCall);
      }
    }

    // close(), after the await and the join
    method CloseEnd(id: nat) returns (done: bool)
      requires Valid()
      modifies this`threadSet, this`closed, this`model, this`states, this`acts
      ensures Did(CloseReturn(id), done)
      ensures done <==> id < |isClose| && id < |futures| && isClose[id]
                        && futures[id].Done? && futures[id].outcome.Value? && !alive
      ensures if done then closed && !threadSet else closed == old(closed) && threadSet == old(threadSet)
    {
      hide Behaviour, WorkerNext, Own;
      done := id < |isClose| && id < |futures| && isClose[id]
              && futures[id].Done? && futures[id].outcome.Value? && !alive;
      if done {
        threadSet, closed := false, true;
        Take(CloseReturn(id));
      }
    }

    // close() when there is no thread, or it has ended
    method CloseAtOnce() returns (done: bool)
      requires Valid()
      modifies this`threadSet, this`closed, this`model, this`states, this`acts
      ensures Did(CloseDead, done) && (done <==> !old(threadSet) || !alive)
      ensures if done then closed && !threadSet else closed == old(closed) && threadSet == old(threadSet)
    {
      hide Behaviour, WorkerNext, Own;
      done := !threadSet || !alive;
      if done {
        threadSet, closed := false, true;
        Take(CloseDead);
      }
    }

    // A task that awaits a command is cancelled.
    method CancelCommand(id: nat) returns (done: bool)
      requires Valid()
      modifies this`futures, this`model, this`states, this`acts
      ensures Did(Cancel(id), done) && (done <==> id < |old(futures)| && old(futures)[id].Pending?)
      ensures futures == if done then old(futures)[id := Cancelled] else old(futures)
    {
      hide Behaviour, WorkerNext, Own;
      done := id < |futures| && futures[id].Pending?;
      if done {
        futures := futures[id := Cancelled];
        Take(Cancel(id));
      }
    }

    method CancelConnect() returns (done: bool)
      requires Valid()
      modifies this`started, this`model, this`states, this`acts
      ensures Did(CancelStarted, done) && (done <==> old(started).Pending?)
      ensures started == if done then Cancelled else old(started)
    {
      hide Behaviour, WorkerNext, Own;
      done := started.Pending?;
      if done {
        started := Cancelled;
        Take(CancelStarted);
      }
    }

    // recv(), up to the await
    method RecvBegin(r: nat) returns (done: bool)
      requires Valid()
      modifies this`waiters, this`model, this`states, this`acts
      ensures Did(RecvCall(r), done)
      ensures done <==> !closed && workerError.None? && threadSet && r !in old(waiters)
      ensures waiters == if done then old(waiters) + {r} else old(waiters)
    {
      hide Behaviour, WorkerNext, Own;
      var ok := EnsureRunning();
      done := ok && r !in waiters;
      if done {
        waiters := waiters + {r};
        Take(RecvCall(r));
      }
    }

    // recv() gets an item; an error it has to put back.
    method RecvGet(r: nat) returns (done: bool)
      requires Valid()
      modifies this`waiters, this`messages, this`holder, this`model, this`states, this`acts
      ensures Did(RecvTake(r), done) && (done <==> r in old(waiters) && old(messages) != [])
      ensures done ==> waiters == old(waiters) - {r} && messages == old(messages)[1..]
      ensures done && old(messages)[0].WorkerError? ==> holder == Some(old(messages)[0].error)
      ensures done && old(messages)[0].Msg? ==>
        holder == old(holder) && model.taken == old(model.taken) + [old(messages)[0].message]
      ensures !done ==> waiters == old(waiters) && messages == old(messages) && holder == old(holder)
    {
      hide Behaviour, Next, Own;
      done := r in waiters && messages != [];
      if done {
        TakeEffect(model, r);
        var item := messages[0];
        waiters, messages := waiters - {r}, messages[1..];
        if item.WorkerError? {
          holder := Some(item.error);
        }
        Take(RecvTake(r));
      }
    }

    method RecvRaise() returns (done: bool)
      requires Valid()
      modifies this`messages, this`holder, this`model, this`states, this`acts
      ensures Did(RecvPutBack, done) && (done <==> old(holder).Some?) && holder.None?
      ensures messages == if done then old(messages) + [WorkerError(old(holder).value)] else old(messages)
    {
      hide Behaviour, WorkerNext, Own;
      done := holder.Some?;
      if done {
        messages, holder := messages + [WorkerError(holder.value)], None;
        Take(RecvPutBack);
      }
    }

    method RecvGiveUp(r: nat) returns (done: bool)
      requires Valid()
      modifies this`waiters, this`model, this`states, this`acts
      ensures Did(RecvCancel(r), done) && (done <==> r in old(waiters))
      ensures waiters == old(waiters) - {r}
    {
      hide Behaviour, WorkerNext, Own;
      done := r in waiters;
      if done {
        waiters := waiters - {r};
        Take(RecvCancel(r));
      }
    }

    // The event loop runs the oldest callback: complete() or publish(), or
    // put_nowait on the message queue.
    method RunNext() returns (done: bool)
      requires Valid()
      modifies this`callbacks, this`futures, this`started, this`messages, this`workerError
      modifies this`model, this`states, this`acts
      ensures Did(RunCallback, done) && (done <==> old(callbacks) != [])
      ensures done ==> callbacks == old(callbacks)[1..] && Ran(old(callbacks)[0])
    {
      hide Behaviour, Next, Own;
      done := callbacks != [];
      if done {
        RunEffect(model);
        var callback := callbacks[0];
        callbacks := callbacks[1..];
        RunClosure(callback);
        Take(RunCallback);
      }
    }

    // What a callback does: a future that is not pending is left alone.
    twostate predicate Ran(callback: Callback)
      reads this
    {
      && (callback.Resolve? && callback.id < |old(futures)| ==>
            futures == old(futures)[callback.id := Settle(old(futures)[callback.id], callback.outcome)])
      && (!callback.Resolve? || callback.id >= |old(futures)| ==> futures == old(futures))
      && started == (if callback.ResolveStarted? then Settle(old(started), callback.outcome) else old(started))
      && messages == (match callback
                      case Post(message) => old(messages) + [Msg(message)]
                      case PublishError(error) => old(messages) + [WorkerError(error)]
                      case _ => old(messages))
      && workerError == if callback.PublishError? then Some(callback.error) else old(workerError)
    }

    // The body of a callback.
    method RunClosure(callback: Callback)
      modifies this`futures, this`started, this`messages, this`workerError
      ensures Ran(callback)
    {
      match callback {
        case Resolve(id, outcome) =>
          if id < |futures| && futures[id].Pending? {
            futures := futures[id := Done(outcome)];
          }
        case ResolveStarted(outcome) =>
          if started.Pending? {
            started := Done(outcome);
          }
        case Post(message) => messages := messages + [Msg(message)];
        case PublishError(error) => workerError, messages := Some(error), messages + [WorkerError(error)];
      }
    }

    // One step on the event loop, if it is possible.
    method LoopStep(a: Action) returns (done: bool)
      requires Valid() && !WorkerStep(a)
      modifies this
      ensures schedule == old(schedule) && alive == old(alive) && Did(a, done)
    {
      hide Recorded, Shown, Enabled, Next;
      match a {
        case Call => done := Call();
        case CloseCall => done := CloseBegin();
        case CloseReturn(id) => done := CloseEnd(id);
        case CloseDead => done := CloseAtOnce();
        case Cancel(id) => done := CancelCommand(id);
        case CancelStarted => done := CancelConnect();
        case RecvCall(r) => done := RecvBegin(r);
        case RecvTake(r) => done := RecvGet(r);
        case RecvPutBack => done := RecvRaise();
        case RecvCancel(r) => done := RecvGiveUp(r);
        case RunCallback => done := RunNext();
      }
    }

    // What the worker has recorded is as it was; commands may have been issued.
    twostate predicate SameRecord()
      reads this`model
    {
      && model.failure == old(model.failure) && model.polled == old(model.polled)
      && model.outcomes == old(model.outcomes) && old(model.closes) <= model.closes
    }

    // Before the worker's next step the event loop takes its turn.
    method Yield()
      requires Valid()
      modifies this
      ensures Valid() && model.worker == old(model.worker) && Own(acts) == Own(old(acts)) && old(acts) <= acts
      ensures schedule == if old(schedule) == [] then [] else old(schedule)[1..]
      ensures SameRecord() && model == if old(schedule) == [] then old(model) else Turned(old(model), old(schedule)[0])
      ensures old(schedule) == [] ==> commands == old(commands) && isClose == old(isClose)
    {
      hide Recorded, Shown, Next, Enabled, Own, Turned;
      TurnedNone(model);
      if schedule == [] {
        return;
      }
      var turn := schedule[0];
      schedule := schedule[1..];
      var i := 0;
      while i < |turn|
        invariant 0 <= i <= |turn|
        invariant Valid() && model.worker == old(model.worker) && Own(acts) == Own(old(acts)) && old(acts) <= acts
        invariant schedule == old(schedule)[1..]
        invariant SameRecord() && model == Turned(old(model), turn[..i])
      {
        OneTried(old(model), turn, i);
        if !WorkerStep(turn[i]) {
          ghost var s, taken := model, acts;
          var done := LoopStep(turn[i]);
          if done {
            SideStep(s, turn[i], taken);
          }
        }
        i := i + 1;
      }
      assert turn[..i] == turn;
    }

    // ---------- the worker ----------

    // The worker has taken these steps of its own, whatever the event loop did in
    // between, and has polled these messages; what it had decided stands.
    twostate predicate Worked(own: seq<Action>, batch: seq<FanoutMessage>)
      reads this
    {
      && Valid() && old(acts) <= acts && old(model.closes) <= model.closes
      && Own(acts) == Own(old(acts)) + own
      && model.polled == old(model.polled) + batch
      && (forall i :: i in old(model.outcomes) ==> i in model.outcomes && model.outcomes[i] == old(model.outcomes)[i])
    }

    // _complete, up to the callback
    method Complete(id: nat, outcome: Outcome)
      modifies this`callbacks
      ensures callbacks == old(callbacks) + [Resolve(id, outcome)]
    {
      callbacks := callbacks + [Resolve(id, outcome)];
    }

    // get() when there is a command
    method PopCommand() returns (command: nat)
      requires Valid() && model.worker.Idle? && commands != []
      modifies this`commands, this`model, this`states, this`acts
      ensures Worked([GetCommand], []) && model.worker == Holding(command)
      ensures command == old(commands)[0] && commands == old(commands)[1..]
    {
      hide Behaviour, LoopNext, Own;
      command := commands[0];
      commands := commands[1..];
      Take(GetCommand);
    }

    // get_nowait() when there is a command
    method PopPending(error: nat) returns (command: nat)
      requires Valid() && model.worker == Draining(error) && commands != []
      modifies this`commands, this`model, this`states, this`acts
      ensures Worked([DrainGet], []) && model.worker == DrainHolding(error, command)
      ensures model.failure == old(model.failure)
      ensures command == old(commands)[0] && commands == old(commands)[1..]
    {
      hide Behaviour, LoopNext, Own;
      command := commands[0];
      commands := commands[1..];
      Take(DrainGet);
    }

    method FinishClose(id: nat)
      requires Valid() && model.worker == Holding(id) && id < |isClose| && isClose[id] && id !in model.outcomes
      modifies this`callbacks, this`model, this`states, this`acts
      ensures Worked([CompleteClose], []) && model.worker == Finishing
      ensures callbacks == old(callbacks) + [Resolve(id, Value(0))]
      ensures id in model.outcomes && model.outcomes[id] == Value(0)
    {
      hide Behaviour, LoopNext, Own;
      Complete(id, Value(0));
      Take(CompleteClose);
    }

    method FinishCommand(id: nat, outcome: Outcome)
      requires Valid() && model.worker == Holding(id) && id < |isClose| && !isClose[id] && id !in model.outcomes
      modifies this`callbacks, this`model, this`states, this`acts
      ensures Worked([CompleteCommand(outcome)], []) && model.worker == Polling
      ensures callbacks == old(callbacks) + [Resolve(id, outcome)]
      ensures id in model.outcomes && model.outcomes[id] == outcome
    {
      hide Behaviour, LoopNext, Own;
      Complete(id, outcome);
      Take(CompleteCommand(outcome));
    }

    method FinishPending(error: nat, id: nat)
      requires Valid() && model.worker == DrainHolding(error, id) && id !in model.outcomes
      modifies this`callbacks, this`model, this`states, this`acts
      ensures Worked([DrainFail], []) && model.worker == Draining(error)
      ensures callbacks == old(callbacks) + [Resolve(id, Error(error))]
      ensures id in model.outcomes && model.outcomes[id] == Error(error) && model.failure == old(model.failure)
    {
      hide Behaviour, LoopNext, Own;
      Complete(id, Error(error));
      Take(DrainFail);
    }

    // _next_command: the oldest command, or none if the queue stays empty.
    method NextCommand() returns (command: Option<nat>)
      requires Valid() && model.worker.Idle?
      modifies this
      ensures Worked([if command.None? then GetTimeout else GetCommand], [])
      ensures model.worker == if command.None? then Polling else Holding(command.value)
    {
      hide Behaviour, LoopNext, Own, Turned;
      Yield();
      if commands == [] {
        Take(GetTimeout);
        return None;
      }
      var id := PopCommand();
      command := Some(id);
    }

    // The worker handles the command it has taken; over tells whether it was close.
    method HandleCommand(id: nat, outcome: Outcome) returns (over: bool)
      requires Valid() && model.worker == Holding(id)
      modifies this
      ensures Worked([if over then CompleteClose else CompleteCommand(outcome)], [])
      ensures id < |isClose| && over == isClose[id] && model.worker == if over then Finishing else Polling
      ensures id in model.outcomes && model.outcomes[id] == if over then Value(0) else outcome
    {
      hide Behaviour, Next, Own, Turned;
      Yield();
      HeldIsOpen(states, acts, |acts|);
      over := isClose[id];
      if over {
        FinishClose(id);
      } else {
        FinishCommand(id, outcome);
      }
    }

    // The callback is scheduled.
    method CallSoon(callback: Callback)
      modifies this`callbacks
      ensures callbacks == old(callbacks) + [callback]
    {
      callbacks := callbacks + [callback];
    }

    // _post_message
    method PostMessage(message: FanoutMessage)
      requires Valid() && model.worker.Polling?
      modifies this
      ensures Worked([PollOne(message)], [message]) && model.worker.Polling?
    {
      hide Behaviour, LoopNext, Own, Turned;
      Yield();
      CallSoon(Post(message));
      Take(PollOne(message));
    }

    // _poll_messages: every message is posted, in order, until none is left or
    // the client throws.
    method PollMessages(batch: seq<FanoutMessage>, failure: Option<nat>)
      requires Valid() && model.worker.Polling?
      modifies this
      ensures Worked(Polls(batch, failure), batch)
      ensures model.worker == if failure.Some? then Failing(failure.value) else Idle
      ensures failure.Some? ==> model.failure == failure
    {
      hide Recorded, Shown, Next, Enabled, Own;
      var i := 0;
      while i < |batch|
        invariant 0 <= i <= |batch| && Worked(PollSteps(batch[..i]), batch[..i]) && model.worker.Polling?
      {
        PostMessage(batch[i]);
        assert PollSteps(batch[..i + 1]) == PollSteps(batch[..i]) + [PollOne(batch[i])];
        assert batch[..i + 1] == batch[..i] + [batch[i]];
        i := i + 1;
      }
      assert batch[..i] == batch;
      StopPolling(failure);
    }

    method StopPolling(failure: Option<nat>)
      requires Valid() && model.worker.Polling?
      modifies this
      ensures Worked([if failure.Some? then LoopFail(failure.value) else PollNone], [])
      ensures model.worker == if failure.Some? then Failing(failure.value) else Idle
      ensures failure.Some? ==> model.failure == failure
    {
      hide Behaviour, LoopNext, Own, Turned;
      Yield();
      if failure.Some? {
        Take(LoopFail(failure.value));
      } else {
        Take(PollNone);
      }
    }

    // _fail_started
    method FailStartedFuture(error: nat)
      requires Valid() && model.worker == Failing(error)
      modifies this
      ensures Worked([FailStarted], []) && model.worker == Publishing(error) && model.failure == old(model.failure)
    {
      hide Behaviour, LoopNext, Own, Turned;
      Yield();
      CallSoon(ResolveStarted(Error(error)));
      Take(FailStarted);
    }

    // _publish_worker_error
    method PublishWorkerError(error: nat)
      requires Valid() && model.worker == Publishing(error)
      modifies this
      ensures Worked([ScheduleError], []) && model.worker == Draining(error) && model.failure == old(model.failure)
    {
      hide Behaviour, LoopNext, Own, Turned;
      Yield();
      CallSoon(PublishError(error));
      Take(ScheduleError);
    }

    // get_nowait in _fail_pending
    method TakePending(error: nat) returns (command: Option<nat>)
      requires Valid() && model.worker == Draining(error)
      modifies this
      ensures Worked([if command.None? then DrainEmpty else DrainGet], []) && model.failure == old(model.failure)
      ensures model.worker == if command.None? then Finishing else DrainHolding(error, command.value)
      ensures old(schedule) == [] ==> schedule == []
      ensures old(schedule) == [] && command.Some? ==> |commands| < |old(commands)|
      ensures old(schedule) != [] ==> |schedule| < |old(schedule)|
      ensures command.None? ==> commands == []
    {
      hide Behaviour, LoopNext, Own, Turned;
      Yield();
      if commands == [] {
        Take(DrainEmpty);
        return None;
      }
      var id := PopPending(error);
      command := Some(id);
    }

    // _complete in _fail_pending
    method FailCommand(error: nat, command: nat)
      requires Valid() && model.worker == DrainHolding(error, command)
      modifies this
      ensures Worked([DrainFail], []) && model.worker == Draining(error) && model.failure == old(model.failure)
      ensures command in model.outcomes && model.outcomes[command] == Error(error)
      ensures old(schedule) == [] ==> schedule == [] && commands == old(commands)
      ensures old(schedule) != [] ==> |schedule| < |old(schedule)|
    {
      hide Behaviour, Next, Own, Turned;
      Yield();
      HeldIsOpen(states, acts, |acts|);
      FinishPending(error, command);
    }

    // _fail_pending: queued commands, also those issued meanwhile, are taken and
    // failed one after the other until the queue is found empty.
    method FailPending(error: nat) returns (failed: nat)
      requires Valid() && model.worker == Draining(error)
      modifies this
      ensures Worked(Drains(failed), []) && model.worker == Finishing && model.failure == old(model.failure)
      ensures commands == []
    {
      hide Recorded, Shown, Next, Enabled, Own;
      failed := 0;
      var command := TakePending(error);
      while command.Some?
        invariant Worked(Pairs(failed) + [if command.None? then DrainEmpty else DrainGet], [])
        invariant model.worker == if command.None? then Finishing else DrainHolding(error, command.value)
        invariant model.failure == old(model.failure) && (command.None? ==> commands == [])
        decreases |schedule|, |commands|, command.Some?
      {
        FailCommand(error, command.value);
        failed := failed + 1;
        command := TakePending(error);
      }
    }

    // The except clause of _run.
    method Except(error: nat) returns (failed: nat)
      requires Valid() && model.worker == Failing(error)
      modifies this
      ensures Worked(Excepts(failed), []) && model.worker == Finishing && model.failure == old(model.failure)
      ensures commands == []
    {
      hide Recorded, Shown, Next, Enabled, Own, Drains;
      FailStartedFuture(error);
      PublishWorkerError(error);
      failed := FailPending(error);
    }

    // One turn of the loop of _run.
    method RunOnce(turn: Turn) returns (met: Met)
      requires Valid() && model.worker.Idle?
      modifies this
      ensures Worked(TurnSteps(turn, met), if met.command.CloseCommand? then [] else turn.batch)
      ensures model.worker == if Over(turn, met) then Finishing else Idle
      ensures CameOut(model.outcomes, turn, met)
      ensures Over(turn, met) && !met.command.CloseCommand? ==> model.failure == turn.failure && commands == []
    {
      hide Recorded, Shown, Next, Enabled, Own, Polls, Excepts;
      var command := NextCommand();
      met := Met(Nothing, 0);
      if command.Some? {
        var over := HandleCommand(command.value, turn.outcome);
        met := Met(if over then CloseCommand(command.value) else OtherCommand(command.value), 0);
        if over {
          return;
        }
      }
      PollMessages(turn.batch, turn.failure);
      if turn.failure.Some? {
        var failed := Except(turn.failure.value);
        met := met.(failed := failed);
      }
    }

    // The loop of _run, for as many turns as it is followed.
    method Loop(turns: seq<Turn>) returns (mets: seq<Met>, over: bool)
      requires Valid() && model.worker.Idle?
      modifies this
      ensures Follows(turns, mets, over) && Worked(LoopSteps(turns, mets), Batches(turns, mets))
      ensures model.worker == if over then Finishing else Idle
      ensures forall i :: 0 <= i < |mets| ==> CameOut(model.outcomes, turns[i], mets[i])
      ensures LeftBy(model.failure, turns, mets, over)
    {
      hide Recorded, Shown, Next, Enabled, Own, TurnSteps, LoopSteps, Batches, Behaviour;
      mets, over := [], false;
      NoTurns(turns);
      while |mets| < |turns| && !over
        invariant |mets| <= |turns| && Worked(LoopSteps(turns, mets), Batches(turns, mets))
        invariant over ==> mets != []
        invariant forall i :: 0 <= i < |mets| ==> (Over(turns[i], mets[i]) <==> over && i == |mets| - 1)
        invariant forall i :: 0 <= i < |mets| ==> CameOut(model.outcomes, turns[i], mets[i])
        invariant model.worker == if over then Finishing else Idle
        invariant LeftBy(model.failure, turns, mets, over)
        decreases |turns| - |mets|, !over
      {
        var met := RunOnce(turns[|mets|]);
        OneMoreTurn(turns, mets, met);
        over := Over(turns[|mets|], met);
        mets := mets + [met];
      }
    }

    // _run, given what the native client does: how its construction ends and what
    // each turn of the loop meets.
    method Run(refused: Option<nat>, turns: seq<Turn>) returns (mets: seq<Met>, over: bool, failed: nat)
      requires Valid() && model.worker.Constructing?
      modifies this
      ensures refused.None? ==>
        Follows(turns, mets, over)
        && Worked([ConstructOk] + LoopSteps(turns, mets) + (if over then [Exit] else []), Batches(turns, mets))
        && model.worker == (if over then Dead else Idle)
        && LeftBy(model.failure, turns, mets, over)
        && forall i :: 0 <= i < |mets| ==> CameOut(model.outcomes, turns[i], mets[i])
      ensures refused.Some? ==>
        Worked([ConstructFail(refused.value)] + Excepts(failed) + [Exit], [])
        && model.worker == Dead && model.failure == refused
    {
      hide Recorded, Shown, Next, Enabled, Own, LoopSteps, Excepts, Follows, Batches;
      mets, over, failed := [], true, 0;
      if refused.Some? {
        Refuse(refused.value);
        failed := Except(refused.value);
      } else {
        Connect();
        mets, over := Loop(turns);
      }
      if over {
        Leave();
      }
    }

    // The native client is constructed: _complete_started
    method Connect()
      requires Valid() && model.worker.Constructing?
      modifies this
      ensures Worked([ConstructOk], []) && model.worker.Idle?
    {
      hide Behaviour, LoopNext, Own, Turned;
      Yield();
      CallSoon(ResolveStarted(Value(0)));
      Take(ConstructOk);
    }

    method Refuse(error: nat)
      requires Valid() && model.worker.Constructing?
      modifies this
      ensures Worked([ConstructFail(error)], []) && model.worker == Failing(error) && model.failure == Some(error)
    {
      hide Behaviour, LoopNext, Own, Turned;
      Yield();
      Take(ConstructFail(error));
    }

    // The thread ends.
    method Leave()
      requires Valid() && model.worker.Finishing?
      modifies this
      ensures Worked([Exit], []) && model.worker.Dead? && !alive && model.failure == old(model.failure)
    {
      hide Behaviour, LoopNext, Own, Turned;
      Yield();
      alive := false;
      Take(Exit);
    }
  }

  // A new wrapper whose worker is run with some schedule of the event loop: what
  // happens is a run of the transition system from its first state, so every
  // theorem about those holds of the object, and in it the worker has done this.
  method Life(schedule: seq<seq<Action>>, refused: Option<nat>, turns: seq<Turn>)
    returns (w: Wrapper, mets: seq<Met>, over: bool, failed: nat)
    ensures fresh(w) && w.Valid() && Behaviour(w.states, w.acts) && |w.states| == |w.acts| + 1
    ensures w.states[|w.acts|] == w.model && AllOk(w.model)
    ensures refused.None? ==>
      Follows(turns, mets, over) && w.model.polled == Batches(turns, mets)
      && LeftBy(w.model.failure, turns, mets, over)
      && Own(w.acts) == [ConstructOk] + LoopSteps(turns, mets) + if over then [Exit] else []
    ensures refused.None? ==>
      forall i :: 0 <= i < |mets| && i < |turns| ==> CameOut(w.model.outcomes, turns[i], mets[i])
    ensures refused.Some? ==>
      w.model.polled == [] && w.model.failure == refused
      && Own(w.acts) == [ConstructFail(refused.value)] + Excepts(failed) + [Exit]
    ensures w.model.taken <= w.model.polled
  {
    hide Behaviour, AllOk, Wrapper.Shown, LoopSteps, Excepts, Follows, Batches;
    w := new Wrapper(schedule);
    assert Own([]) == [];
    mets, over, failed := w.Run(refused, turns);
    Always(w.states, w.acts, |w.acts|);
    ReceivedIsPrefixOfPolled(w.states, w.acts, |w.acts|);
  }

  // A command in the worker's hand has been issued and not been decided on.
  lemma HeldIsOpen(states: seq<State>, acts: seq<Action>, n: nat)
    requires Behaviour(states, acts) && n < |states|
    requires states[n].worker.Holding? || states[n].worker.DrainHolding?
    ensures states[n].worker.id < |states[n].closes| && states[n].worker.id !in states[n].outcomes
  {
    hide Behaviour, Ids, LoopOk, FailOk;
    AlwaysFail(states, acts, n);
    Places(states[n]);
  }

  // The attributes no step of recv() or of a callback touches.
  ghost predicate SameRest(s: State, t: State)
  {
    && t.commands == s.commands && t.closes == s.closes && t.closed == s.closed && t.threadSet == s.threadSet
    && t.worker == s.worker
  }

  lemma RunEffect(s: State)
    requires Enabled(s, RunCallback)
    ensures var t, c := Next(s, RunCallback), s.callbacks[0];
            && SameRest(s, t) && t.callbacks == s.callbacks[1..] && t.waiters == s.waiters && t.holder == s.holder
            && (c.Resolve? && c.id < |s.futures| ==>
                  t.futures == s.futures[c.id := Settle(s.futures[c.id], c.outcome)])
            && (!c.Resolve? || c.id >= |s.futures| ==> t.futures == s.futures)
            && t.started == (if c.ResolveStarted? then Settle(s.started, c.outcome) else s.started)
            && t.messages == (match c
                              case Post(message) => s.messages + [Msg(message)]
                              case PublishError(error) => s.messages + [WorkerError(error)]
                              case _ => s.messages)
            && t.workerError == if c.PublishError? then Some(c.error) else s.workerError
  {
    hide LoopNext, WorkerNext;
    RunOnly(s);
  }

  lemma TakeEffect(s: State, r: nat)
    requires Enabled(s, RecvTake(r))
    ensures var t, item := Next(s, RecvTake(r)), s.messages[0];
            && SameRest(s, t) && t.callbacks == s.callbacks && t.futures == s.futures && t.started == s.started
            && t.workerError == s.workerError && t.waiters == s.waiters - {r} && t.messages == s.messages[1..]
            && t.taken == (if item.Msg? then s.taken + [item.message] else s.taken)
            && t.holder == if item.WorkerError? then Some(item.error) else s.holder
  {
    hide LoopNext, WorkerNext;
    TakenOnly(s, r);
  }

  // A step on the event loop leaves the worker's part alone.
  lemma SideStep(s: State, a: Action, acts: seq<Action>)
    requires Enabled(s, a) && !WorkerStep(a)
    ensures Next(s, a).worker == s.worker && Next(s, a).failure == s.failure && s.closes <= Next(s, a).closes
    ensures Next(s, a).polled == s.polled && Next(s, a).outcomes == s.outcomes
    ensures Own(acts + [a]) == Own(acts)
  {
    hide Next, Enabled;
    LoopSideShape(s, a);
    PolledStep(s, a);
    OwnMore(acts, a);
  }
}
