// The state of the asyncio wrapper read off the actions of a run: what has been
// issued, decided, polled and cancelled, who is blocked in recv(), and when calls
// are accepted.

module AsyncCalls {
  import opened Wrappers
  import opened ClientSpec
  import opened AsyncClient
  import opened AsyncInvariants
  import opened AsyncErrors
  import opened AsyncTheorems
  import opened AsyncContainment

  // ---------- commands ----------

  // The commands issued, in order: true for a close command.
  function Issued(acts: seq<Action>): seq<bool>
  {
    if acts == [] then []
    else
      var a := acts[|acts| - 1];
      Issued(acts[..|acts| - 1]) + (if a.Call? then [false] else if a.CloseCall? then [true] else [])
  }

  // What the worker decides, in order; a drained command gets the error that
  // ended the loop.
  function Decisions(acts: seq<Action>): seq<Outcome>
  {
    if acts == [] then []
    else
      var earlier, a := acts[..|acts| - 1], acts[|acts| - 1];
      Decisions(earlier) +
      match a
      case CompleteClose => [Value(0)]
      case CompleteCommand(outcome) => [outcome]
      case DrainFail => [Error(Ending(earlier))]
      case _ => []
  }

  // The latest error that ended the loop.
  function Ending(acts: seq<Action>): nat
  {
    if acts == [] then 0
    else
      match acts[|acts| - 1]
      case ConstructFail(error) => error
      case LoopFail(error) => error
      case _ => Ending(acts[..|acts| - 1])
  }

  lemma FailureStep(s: State, a: Action)
    requires Enabled(s, a) && FailOk(s)
    ensures Next(s, a).failure == match a
                                  case ConstructFail(error) => Some(error)
                                  case LoopFail(error) => Some(error)
                                  case _ => s.failure
    ensures a.DrainFail? && LoopOk(s) ==> s.failure == Some(s.worker.error)
  {
    hide Ids, Dealt, LoopNext;
    if !WorkerStep(a) {
      LoopSideShape(s, a);
    }
  }

  lemma {:induction false} FailureExactly(states: seq<State>, acts: seq<Action>, n: nat)
    requires Behaviour(states, acts) && n < |states|
    ensures states[n].failure.Some? ==> states[n].failure.value == Ending(acts[..n])
  {
    hide Next, Enabled, AllOk, Conserved, Decided, LoopOk, FailOk, CloseOk, ErrorOk, TokenOk, StreamOk;
    if n > 0 {
      FailureExactly(states, acts, n - 1);
      assert Moves(states[n - 1], acts[n - 1], states[n]);
      assert acts[..n][..n - 1] == acts[..n - 1];
      AlwaysFail(states, acts, n - 1);
      FailureStep(states[n - 1], acts[n - 1]);
    }
  }

  lemma AlwaysFail(states: seq<State>, acts: seq<Action>, n: nat)
    requires Behaviour(states, acts) && n < |states|
    ensures Conserved(states[n]) && Decided(states[n]) && FailOk(states[n]) && LoopOk(states[n])
  {
    hide Behaviour, Conserved, Decided, LoopOk, FailOk, CloseOk, ErrorOk, TokenOk, StreamOk;
    Always(states, acts, n);
  }

  lemma IssuedStep(s: State, a: Action)
    requires Enabled(s, a)
    ensures Next(s, a).closes == s.closes + if a.Call? then [false] else if a.CloseCall? then [true] else []
  {
    hide Ids, Enabled, LoopNext, WorkerNext;
    if WorkerStep(a) {
      IssuedWorker(s, a);
    } else {
      IssuedLoop(s, a);
    }
  }

  lemma IssuedWorker(s: State, a: Action)
    requires Enabled(s, a) && WorkerStep(a)
    ensures WorkerNext(s, a).closes == s.closes
  {
    hide Ids;
  }

  lemma IssuedLoop(s: State, a: Action)
    requires Enabled(s, a) && !WorkerStep(a)
    ensures LoopNext(s, a).closes == s.closes + if a.Call? then [false] else if a.CloseCall? then [true] else []
  {
    hide Ids;
  }

  // The commands of a state are those issued by the calls of the run.
  lemma {:induction false} IssuedExactly(states: seq<State>, acts: seq<Action>, n: nat)
    requires Behaviour(states, acts) && n < |states|
    ensures states[n].closes == Issued(acts[..n])
  {
    hide Next, Enabled;
    if n > 0 {
      IssuedExactly(states, acts, n - 1);
      assert Moves(states[n - 1], acts[n - 1], states[n]);
      assert acts[..n][..n - 1] == acts[..n - 1];
      IssuedStep(states[n - 1], acts[n - 1]);
    }
  }

  // The worker decides on the commands in the order they were issued: the i-th
  // decision of the run is the outcome of command i.
  lemma {:induction false} DecidedInOrder(states: seq<State>, acts: seq<Action>, n: nat)
    requires Behaviour(states, acts) && n < |states|
    ensures var s, decisions := states[n], Decisions(acts[..n]);
            && Dealt(s) == |decisions|
            && forall i: nat :: i in s.outcomes <==> i < |decisions|
    ensures forall i :: i in states[n].outcomes ==>
              i < |Decisions(acts[..n])| && states[n].outcomes[i] == Decisions(acts[..n])[i]
  {
    hide Next, Enabled, Conserved, Decided, LoopOk, FailOk, Ids, Dealt;
    if n == 0 {
      NothingDealt();
    } else {
      DecidedInOrder(states, acts, n - 1);
      var s, a := states[n - 1], acts[n - 1];
      assert Moves(s, a, states[n]);
      assert acts[..n][..n - 1] == acts[..n - 1];
      AlwaysFail(states, acts, n - 1);
      FailureExactly(states, acts, n - 1);
      DecidedStep(s, a);
    }
  }

  lemma NothingDealt()
    ensures Dealt(START) == 0
  {
  }

  lemma DecidedStep(s: State, a: Action)
    requires Enabled(s, a) && Conserved(s) && FailOk(s) && LoopOk(s)
    ensures Decides(a) ==>
      && Dealt(Next(s, a)) == Dealt(s) + 1
      && Next(s, a).outcomes == s.outcomes[Dealt(s) := match a
                                                        case CompleteClose => Value(0)
                                                        case CompleteCommand(outcome) => outcome
                                                        case DrainFail => Error(s.failure.value)]
    ensures Decides(a) && a.DrainFail? ==> s.failure.Some?
    ensures !Decides(a) ==> Dealt(Next(s, a)) == Dealt(s) && Next(s, a).outcomes == s.outcomes
  {
    hide Next, Enabled, Ids, Conserved, LoopOk, Dealt;
    if Decides(a) {
      DecideShape(s, a);
      DecideWorker(s, a);
      FailureStep(s, a);
    } else if WorkerStep(a) {
      WorkerKeepsDealt(s, a);
    } else {
      LoopSideShape(s, a);
    }
  }

  lemma CancelledStep(s: State, a: Action, i: nat)
    requires Enabled(s, a) && i < |Next(s, a).futures|
    ensures Next(s, a).futures[i].Cancelled? <==> (i < |s.futures| && s.futures[i].Cancelled?) || a == Cancel(i)
    ensures a == Cancel(i) ==> i < |s.futures| && s.futures[i].Pending?
  {
    hide Ids, Enabled, LoopNext, WorkerNext, Decision;
    if Enqueues(a) {
      EnqueueShape(s, a);
    } else if Announces(a) {
      AnnounceShape(s, a);
    } else if Decides(a) {
      DecideShape(s, a);
    } else if Gets(a) {
      GetShape(s, a);
    } else if a.RunCallback? {
      assert a == RunCallback;
      RunCancels(s, i);
    } else {
      QuietShape(s, a);
    }
  }

  lemma RunCancels(s: State, i: nat)
    requires Enabled(s, RunCallback) && i < |Next(s, RunCallback).futures|
    ensures i < |s.futures| && (Next(s, RunCallback).futures[i].Cancelled? <==> s.futures[i].Cancelled?)
  {
    hide Ids, WorkerNext;
  }

  lemma FuturesGrow(s: State, a: Action)
    requires Enabled(s, a) && Conserved(s)
    ensures |s.futures| <= |Next(s, a).futures|
    ensures |s.futures| == |s.closes| && |Next(s, a).futures| == |Next(s, a).closes|
  {
    hide Next, Enabled, Line, UpTo;
    ConservedKept(s, a);
    IssuedStep(s, a);
  }

  // The futures cancelled are those of the calls cancelled in the run.
  lemma {:induction false} CancelledExactly(states: seq<State>, acts: seq<Action>, n: nat, i: nat)
    requires Behaviour(states, acts) && n < |states| && i < |states[n].futures|
    ensures states[n].futures[i].Cancelled? <==> Cancel(i) in acts[..n]
  {
    hide Next, Enabled, Conserved, Decided, FailOk, LoopOk;
    if n > 0 {
      var s, a := states[n - 1], acts[n - 1];
      assert Moves(s, a, states[n]);
      assert acts[..n] == acts[..n - 1] + [a];
      AlwaysFail(states, acts, n - 1);
      FuturesGrow(s, a);
      CancelledStep(s, a, i);
      if i < |s.futures| {
        CancelledExactly(states, acts, n - 1, i);
      } else {
        NotCancelledYet(states, acts, n - 1, i);
      }
    }
  }

  lemma {:induction false} NotCancelledYet(states: seq<State>, acts: seq<Action>, n: nat, i: nat)
    requires Behaviour(states, acts) && n < |states| && i >= |states[n].futures|
    ensures Cancel(i) !in acts[..n]
  {
    hide Next, Conserved, Decided, FailOk, LoopOk;
    if n > 0 {
      var s, a := states[n - 1], acts[n - 1];
      assert Moves(s, a, states[n]);
      assert acts[..n] == acts[..n - 1] + [a];
      AlwaysFail(states, acts, n - 1);
      FuturesGrow(s, a);
      NotCancelledYet(states, acts, n - 1, i);
    }
  }

  // ---------- polled messages ----------

  function PolledBy(acts: seq<Action>): seq<FanoutMessage>
  {
    if acts == [] then []
    else
      var a := acts[|acts| - 1];
      PolledBy(acts[..|acts| - 1]) + if a.PollOne? then [a.message] else []
  }

  lemma PolledStep(s: State, a: Action)
    requires Enabled(s, a)
    ensures Next(s, a).polled == s.polled + if a.PollOne? then [a.message] else []
  {
    hide Ids, LoopNext, WorkerNext, Enabled;
    if WorkerStep(a) {
      Appended(s, a);
    } else {
      PolledLoop(s, a);
    }
  }

  lemma PolledLoop(s: State, a: Action)
    requires Enabled(s, a) && !WorkerStep(a)
    ensures LoopNext(s, a).polled == s.polled
  {
    hide Ids;
  }

  // What a state calls polled is what the native client has returned to poll.
  lemma {:induction false} PolledExactly(states: seq<State>, acts: seq<Action>, n: nat)
    requires Behaviour(states, acts) && n < |states|
    ensures states[n].polled == PolledBy(acts[..n])
  {
    hide Next, Enabled;
    if n > 0 {
      PolledExactly(states, acts, n - 1);
      assert Moves(states[n - 1], acts[n - 1], states[n]);
      assert acts[..n][..n - 1] == acts[..n - 1];
      PolledStep(states[n - 1], acts[n - 1]);
    }
  }

  // ---------- recv ----------

  predicate Leaves(a: Action, r: nat) { a == RecvTake(r) || a == RecvCancel(r) }

  // Call r of recv() has begun and has neither got an item nor been given up.
  predicate Blocked(acts: seq<Action>, r: nat)
  {
    acts != []
    && var a := acts[|acts| - 1];
       a == RecvCall(r) || (!Leaves(a, r) && Blocked(acts[..|acts| - 1], r))
  }

  // The calls of recv() begun, less those that have got an item or been given up.
  function BlockedCalls(acts: seq<Action>): int
  {
    if acts == [] then 0
    else
      var a := acts[|acts| - 1];
      BlockedCalls(acts[..|acts| - 1])
      + if a.RecvCall? then 1 else if a.RecvTake? || a.RecvCancel? then -1 else 0
  }

  lemma WaitersStep(s: State, a: Action)
    requires Enabled(s, a)
    ensures a.RecvCall? ==> a.r !in s.waiters && Next(s, a).waiters == s.waiters + {a.r}
    ensures a.RecvTake? || a.RecvCancel? ==> a.r in s.waiters && Next(s, a).waiters == s.waiters - {a.r}
    ensures !a.RecvCall? && !a.RecvTake? && !a.RecvCancel? ==> Next(s, a).waiters == s.waiters
  {
    hide Ids, LoopNext, WorkerNext;
    if WorkerStep(a) {
      WorkerKeepsToken(s, a);
    } else {
      WaitersLoop(s, a);
    }
  }

  lemma WaitersLoop(s: State, a: Action)
    requires Enabled(s, a) && !WorkerStep(a)
    ensures LoopNext(s, a).waiters == if a.RecvCall? then s.waiters + {a.r}
                                      else if a.RecvTake? || a.RecvCancel? then s.waiters - {a.r}
                                      else s.waiters
  {
    hide Ids;
  }

  // A call of recv() is blocked from when it begins until it gets an item or is
  // given up; meanwhile it can get one exactly when the queue is not empty.
  lemma {:induction false} BlockedExactly(states: seq<State>, acts: seq<Action>, n: nat, r: nat)
    requires Behaviour(states, acts) && n < |states|
    ensures r in states[n].waiters <==> Blocked(acts[..n], r)
    ensures Enabled(states[n], RecvTake(r)) <==> Blocked(acts[..n], r) && states[n].messages != []
    ensures Enabled(states[n], RecvCancel(r)) <==> Blocked(acts[..n], r)
  {
    hide Next;
    if n > 0 {
      BlockedExactly(states, acts, n - 1, r);
      assert Moves(states[n - 1], acts[n - 1], states[n]);
      assert acts[..n][..n - 1] == acts[..n - 1];
      WaitersStep(states[n - 1], acts[n - 1]);
    }
  }

  lemma {:induction false} BlockedCounted(states: seq<State>, acts: seq<Action>, n: nat)
    requires Behaviour(states, acts) && n < |states|
    ensures |states[n].waiters| == BlockedCalls(acts[..n])
  {
    hide Next, Enabled;
    if n > 0 {
      var s, a := states[n - 1], acts[n - 1];
      BlockedCounted(states, acts, n - 1);
      assert Moves(s, a, states[n]);
      assert acts[..n][..n - 1] == acts[..n - 1];
      WaitersStep(s, a);
      if a.RecvTake? || a.RecvCancel? {
        assert |s.waiters - {a.r}| == |s.waiters| - 1;
      }
    }
  }

  // ---------- when calls are accepted ----------

  predicate Closes(a: Action) { a.CloseReturn? || a.CloseDead? }

  // Step j runs the callback that publishes the worker's error.
  ghost predicate Publishes(states: seq<State>, acts: seq<Action>, j: nat)
    requires j < |acts| && j < |states|
  {
    acts[j].RunCallback? && states[j].callbacks != [] && states[j].callbacks[0].PublishError?
  }

  lemma GateStep(s: State, a: Action)
    requires Enabled(s, a)
    ensures Next(s, a).closed == (s.closed || Closes(a))
    ensures Next(s, a).threadSet == (s.threadSet && !Closes(a))
    ensures Next(s, a).workerError.Some? <==>
            s.workerError.Some? || (a.RunCallback? && s.callbacks != [] && s.callbacks[0].PublishError?)
  {
    hide Ids, LoopNext, WorkerNext;
    if WorkerStep(a) {
      GateWorker(s, a);
    } else {
      GateLoop(s, a);
    }
  }

  lemma GateWorker(s: State, a: Action)
    requires Enabled(s, a) && WorkerStep(a)
    ensures var t := WorkerNext(s, a);
            t.closed == s.closed && t.threadSet == s.threadSet && t.workerError == s.workerError
  {
    hide Ids;
  }

  lemma GateLoop(s: State, a: Action)
    requires Enabled(s, a) && !WorkerStep(a)
    ensures var t := LoopNext(s, a);
            && t.closed == (s.closed || Closes(a)) && t.threadSet == (s.threadSet && !Closes(a))
            && (t.workerError.Some? <==>
                  s.workerError.Some? || (a.RunCallback? && s.callbacks != [] && s.callbacks[0].PublishError?))
  {
    hide Ids;
  }

  // Calls are accepted exactly until close() has returned or the worker's error
  // has been published; and so is recv(), by a call that is not blocked already.
  lemma {:induction false} AcceptedExactly(states: seq<State>, acts: seq<Action>, n: nat, r: nat)
    requires Behaviour(states, acts) && n < |states|
    ensures Enabled(states[n], Call) <==>
            forall j :: 0 <= j < n ==> !Closes(acts[j]) && !Publishes(states, acts, j)
    ensures Enabled(states[n], RecvCall(r)) <==> Enabled(states[n], Call) && !Blocked(acts[..n], r)
  {
    hide Next;
    BlockedExactly(states, acts, n, r);
    Gates(states, acts, n);
  }

  lemma {:induction false} Gates(states: seq<State>, acts: seq<Action>, n: nat)
    requires Behaviour(states, acts) && n < |states|
    ensures !states[n].closed <==> forall j :: 0 <= j < n ==> !Closes(acts[j])
    ensures states[n].threadSet == !states[n].closed
    ensures states[n].workerError.None? <==> forall j :: 0 <= j < n ==> !Publishes(states, acts, j)
  {
    hide Next, Enabled;
    if n > 0 {
      Gates(states, acts, n - 1);
      assert Moves(states[n - 1], acts[n - 1], states[n]);
      GateStep(states[n - 1], acts[n - 1]);
      assert Publishes(states, acts, n - 1) <==>
             acts[n - 1].RunCallback? && states[n - 1].callbacks != [] && states[n - 1].callbacks[0].PublishError?;
      assert (forall j :: 0 <= j < n ==> !Publishes(states, acts, j)) <==>
             (forall j :: 0 <= j < n - 1 ==> !Publishes(states, acts, j)) && !Publishes(states, acts, n - 1);
    }
  }

  // Once close() has returned every call of publish, subscribe, get_topic_key and
  // recv is refused.
  lemma ClosedForGood(states: seq<State>, acts: seq<Action>, j: nat, k: nat, r: nat)
    requires Behaviour(states, acts) && j < k < |states| && Closes(acts[j])
    ensures !Enabled(states[k], Call) && !Enabled(states[k], RecvCall(r))
  {
    hide Behaviour, Enabled;
    Sizes(states, acts);
    AcceptedExactly(states, acts, k, r);
  }

  lemma DeadStep(s: State, a: Action)
    requires Enabled(s, a)
    ensures Next(s, a).worker.Dead? <==> s.worker.Dead? || a.Exit?
  {
    hide LoopNext, WorkerNext;
    if WorkerStep(a) {
      DeadWorker(s, a);
    } else {
      DeadLoop(s, a);
    }
  }

  lemma DeadWorker(s: State, a: Action)
    requires Enabled(s, a) && WorkerStep(a)
    ensures WorkerNext(s, a).worker.Dead? <==> a.Exit?
    ensures !s.worker.Dead?
  {
    hide Ids;
  }

  lemma DeadLoop(s: State, a: Action)
    requires Enabled(s, a) && !WorkerStep(a)
    ensures LoopNext(s, a).worker == s.worker
  {
  }

  lemma {:induction false} DeadExactly(states: seq<State>, acts: seq<Action>, n: nat)
    requires Behaviour(states, acts) && n < |states|
    ensures states[n].worker.Dead? <==> Exit in acts[..n]
  {
    hide Next, Enabled;
    if n > 0 {
      DeadExactly(states, acts, n - 1);
      assert Moves(states[n - 1], acts[n - 1], states[n]);
      assert acts[..n] == acts[..n - 1] + [acts[n - 1]];
      DeadStep(states[n - 1], acts[n - 1]);
    }
  }

  // close() queues a command exactly while no close() has returned and the thread
  // lives; else, and only then, it returns at once.
  lemma CloseExactly(states: seq<State>, acts: seq<Action>, n: nat)
    requires Behaviour(states, acts) && n < |states|
    ensures Enabled(states[n], CloseCall) <==> (forall j :: 0 <= j < n ==> !Closes(acts[j])) && Exit !in acts[..n]
    ensures Enabled(states[n], CloseDead) <==> !Enabled(states[n], CloseCall)
  {
    hide Behaviour;
    Sizes(states, acts);
    Gates(states, acts, n);
    DeadExactly(states, acts, n);
  }

  lemma Sizes(states: seq<State>, acts: seq<Action>)
    requires Behaviour(states, acts)
    ensures |states| == |acts| + 1
  {
  }

  // ---------- connect ----------

  // How the construction of the native client ended.
  function Constructed(acts: seq<Action>): Option<Outcome>
  {
    if acts == [] then None
    else
      match acts[|acts| - 1]
      case ConstructOk => Some(Value(0))
      case ConstructFail(error) => Some(Error(error))
      case _ => Constructed(acts[..|acts| - 1])
  }

  // The future of connect() has that outcome, or is about to get it, or was cancelled.
  ghost predicate StartedOk(s: State, result: Option<Outcome>)
  {
    match result
    case None => s.worker.Constructing? && s.callbacks == [] && !s.started.Done?
    case Some(o) =>
      && !s.worker.Constructing? && (s.started.Done? ==> s.started.outcome == o)
      && (s.started.Pending? ==>
            (s.callbacks != [] && s.callbacks[0] == ResolveStarted(o))
            || (s.callbacks == [] && s.worker.Failing? && o == Error(s.worker.error)))
  }

  lemma StartedStep(s: State, a: Action, result: Option<Outcome>)
    requires Enabled(s, a) && StartedOk(s, result)
    ensures StartedOk(Next(s, a), match a
                                  case ConstructOk => Some(Value(0))
                                  case ConstructFail(error) => Some(Error(error))
                                  case _ => result)
  {
    hide Ids, Dealt, LoopNext, WorkerNext;
    if WorkerStep(a) {
      StartedWorker(s, a, result);
    } else {
      StartedLoop(s, a, result);
    }
  }

  lemma StartedWorker(s: State, a: Action, result: Option<Outcome>)
    requires Enabled(s, a) && WorkerStep(a) && StartedOk(s, result)
    ensures StartedOk(WorkerNext(s, a), match a
                                        case ConstructOk => Some(Value(0))
                                        case ConstructFail(error) => Some(Error(error))
                                        case _ => result)
  {
    hide Ids, Dealt, WorkerNext, StartedOk;
    if a.ConstructOk? || a.ConstructFail? || a.FailStarted? {
      StartedFirst(s, a, result);
    } else {
      StartedLater(s, a, result);
    }
  }

  lemma StartedFirst(s: State, a: Action, result: Option<Outcome>)
    requires Enabled(s, a) && StartedOk(s, result) && (a.ConstructOk? || a.ConstructFail? || a.FailStarted?)
    ensures StartedOk(WorkerNext(s, a), match a
                                        case ConstructOk => Some(Value(0))
                                        case ConstructFail(error) => Some(Error(error))
                                        case _ => result)
  {
    hide Ids, Dealt;
  }

  lemma StartedLater(s: State, a: Action, result: Option<Outcome>)
    requires Enabled(s, a) && WorkerStep(a) && StartedOk(s, result)
    requires !a.ConstructOk? && !a.ConstructFail? && !a.FailStarted?
    ensures StartedOk(WorkerNext(s, a), result)
  {
    hide Ids, Dealt, WorkerNext;
    WorkerAppends(s, a);
  }

  lemma WorkerAppends(s: State, a: Action)
    requires Enabled(s, a) && WorkerStep(a) && !a.ConstructOk? && !a.ConstructFail? && !a.FailStarted?
    ensures WorkerNext(s, a).started == s.started && s.callbacks <= WorkerNext(s, a).callbacks
    ensures !s.worker.Constructing? && !s.worker.Failing? && !WorkerNext(s, a).worker.Constructing?
  {
    hide Ids, Dealt;
  }

  lemma StartedLoop(s: State, a: Action, result: Option<Outcome>)
    requires Enabled(s, a) && !WorkerStep(a) && StartedOk(s, result)
    ensures StartedOk(LoopNext(s, a), result)
  {
    hide Ids, Dealt;
  }

  lemma {:induction false} StartedAlways(states: seq<State>, acts: seq<Action>, n: nat)
    requires Behaviour(states, acts) && n < |states|
    ensures StartedOk(states[n], Constructed(acts[..n]))
  {
    hide Next, Enabled, StartedOk;
    if n == 0 {
      NotStarted();
    } else {
      StartedAlways(states, acts, n - 1);
      assert Moves(states[n - 1], acts[n - 1], states[n]);
      assert acts[..n][..n - 1] == acts[..n - 1];
      StartedStep(states[n - 1], acts[n - 1], Constructed(acts[..n - 1]));
    }
  }

  lemma NotStarted()
    ensures StartedOk(START, None)
  {
  }

  lemma StartedCancelled(s: State, a: Action)
    requires Enabled(s, a)
    ensures Next(s, a).started.Cancelled? <==> s.started.Cancelled? || a.CancelStarted?
  {
    hide LoopNext, WorkerNext;
    if WorkerStep(a) {
      StartedWaits(s, a);
    } else {
      StartedMoves(s, a);
    }
  }

  lemma StartedWaits(s: State, a: Action)
    requires Enabled(s, a) && WorkerStep(a)
    ensures WorkerNext(s, a).started == s.started
  {
    hide Ids;
  }

  lemma StartedMoves(s: State, a: Action)
    requires Enabled(s, a) && !WorkerStep(a)
    ensures LoopNext(s, a).started.Cancelled? <==> s.started.Cancelled? || a.CancelStarted?
  {
  }

  // connect() is cancelled exactly if it was cancelled in the run.
  lemma {:induction false} ConnectCancelledExactly(states: seq<State>, acts: seq<Action>, n: nat)
    requires Behaviour(states, acts) && n < |states|
    ensures states[n].started.Cancelled? <==> CancelStarted in acts[..n]
  {
    hide Next, Enabled;
    if n > 0 {
      ConnectCancelledExactly(states, acts, n - 1);
      assert Moves(states[n - 1], acts[n - 1], states[n]);
      assert acts[..n] == acts[..n - 1] + [acts[n - 1]];
      StartedCancelled(states[n - 1], acts[n - 1]);
    }
  }

  // connect() returns only if the native client was constructed, and raises the
  // error of its construction otherwise; unless cancelled, its future is settled
  // by the first callback of all.
  lemma ConnectExactly(states: seq<State>, acts: seq<Action>, n: nat)
    requires Behaviour(states, acts) && n < |states|
    ensures var s, result := states[n], Constructed(acts[..n]);
            && (s.started.Done? ==> result == Some(s.started.outcome))
            && (s.started.Pending? && result.Some? && s.callbacks != [] ==>
                  s.callbacks[0] == ResolveStarted(result.value))
            && (s.started.Pending? && result.Some? && s.callbacks == [] ==> s.worker.Failing?)
  {
    hide Behaviour;
    StartedAlways(states, acts, n);
  }

  // ---------- a message is received ----------

  // A message polled while recv() is blocked is what recv() returns.
  lemma MessageReceived(m: FanoutMessage, r: nat) returns (states: seq<State>, acts: seq<Action>, s: State)
    ensures Behaviour(states, acts) && s == states[|acts|] && s.polled == [m] && s.taken == [m]
    ensures s.workerError.None? && s.waiters == {}
  {
    hide Behaviour, WorkerNext;
    states, acts := Delivered(m, r);
    states, acts := Then(states, acts, RecvTake(r));
    s := states[|acts|];
  }

  lemma Delivered(m: FanoutMessage, r: nat) returns (states: seq<State>, acts: seq<Action>)
    ensures Behaviour(states, acts) && |states| == |acts| + 1
    ensures var s := states[|acts|];
            s.messages == [Msg(m)] && s.polled == [m] && s.taken == [] && s.waiters == {r} && s.workerError.None?
  {
    hide Behaviour, WorkerNext;
    states, acts := Posted(m, r);
    states, acts := Then(states, acts, RunCallback);
    states, acts := Then(states, acts, RunCallback);
  }

  lemma Posted(m: FanoutMessage, r: nat) returns (states: seq<State>, acts: seq<Action>)
    ensures Behaviour(states, acts) && |states| == |acts| + 1
    ensures var s := states[|acts|];
            && s.callbacks == [ResolveStarted(Value(0)), Post(m)] && s.messages == [] && s.polled == [m]
            && s.taken == [] && s.waiters == {r} && s.workerError.None?
  {
    hide Behaviour;
    states, acts := Begin();
    states, acts := Then(states, acts, ConstructOk);
    states, acts := Then(states, acts, GetTimeout);
    states, acts := Then(states, acts, PollOne(m));
    states, acts := Then(states, acts, RecvCall(r));
  }
}
