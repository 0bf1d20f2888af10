// Which messages recv() still returns once the worker's error is published
// (python/src/spraybus/async_client.py:112-119, 204-214).

module AsyncRecv {
  import opened Wrappers
  import opened ClientSpec
  import opened AsyncClient
  import opened AsyncInvariants
  import opened AsyncErrors
  import opened AsyncTheorems
  import opened AsyncContainment

  // ---------- a message nobody can receive any more ----------

  // The worker polls a message and then fails before anybody calls recv(): the
  // message stays in front of the error, and recv() is refused.
  lemma RefusedWithMessageQueued(m: FanoutMessage, error: nat, r: nat)
    returns (states: seq<State>, acts: seq<Action>, s: State)
    ensures Behaviour(states, acts) && s == states[|acts|] && s.workerError == Some(error)
    ensures s.messages == [Msg(m), WorkerError(error)] && s.polled == [m] && s.taken == []
    ensures s.waiters == {} && s.drained == {} && !Enabled(s, RecvCall(r))
  {
    hide Behaviour, WorkerNext;
    states, acts := MessagePosted(m, error);
    states, acts := Then(states, acts, RunCallback);
    states, acts := Then(states, acts, RunCallback);
    s := states[|acts|];
  }

  lemma MessagePosted(m: FanoutMessage, error: nat) returns (states: seq<State>, acts: seq<Action>)
    ensures Behaviour(states, acts) && |states| == |acts| + 1
    ensures var s := states[|acts|];
            && s.callbacks == [ResolveStarted(Error(error)), PublishError(error)] && s.messages == [Msg(m)]
            && s.polled == [m] && s.taken == [] && s.waiters == {} && s.drained == {}
  {
    hide Behaviour, WorkerNext;
    states, acts := ErrorScheduled(m, error);
    states, acts := Then(states, acts, RunCallback);
    states, acts := Then(states, acts, RunCallback);
  }

  lemma ErrorScheduled(m: FanoutMessage, error: nat) returns (states: seq<State>, acts: seq<Action>)
    ensures Behaviour(states, acts) && |states| == |acts| + 1
    ensures var s := states[|acts|];
            && s.callbacks == [ResolveStarted(Value(0)), Post(m), ResolveStarted(Error(error)), PublishError(error)]
            && s.messages == [] && s.polled == [m] && s.taken == [] && s.waiters == {} && s.drained == {}
  {
    hide Behaviour;
    states, acts := Begin();
    states, acts := Then(states, acts, ConstructOk);
    states, acts := Then(states, acts, GetTimeout);
    states, acts := Then(states, acts, PollOne(m));
    states, acts := Then(states, acts, LoopFail(error));
    states, acts := Then(states, acts, FailStarted);
    states, acts := Then(states, acts, ScheduleError);
  }

  // ---------- how many can still be received ----------

  lemma TakenStep(s: State, a: Action)
    requires Enabled(s, a) && ErrorOk(s) && s.workerError.Some?
    ensures Next(s, a).polled == s.polled && s.taken <= Next(s, a).taken
    ensures |Next(s, a).taken| + |Next(s, a).waiters| <= |s.taken| + |s.waiters|
  {
    hide Ids, LoopNext, WorkerNext, Enabled, ErrorOk;
    if WorkerStep(a) {
      WorkerStepTakes(s, a);
    } else {
      LoopStepTakes(s, a);
    }
  }

  lemma WorkerStepTakes(s: State, a: Action)
    requires Enabled(s, a) && WorkerStep(a) && ErrorOk(s) && s.workerError.Some?
    ensures var t := WorkerNext(s, a);
            t.polled == s.polled && t.taken == s.taken && t.waiters == s.waiters
  {
    hide Ids, Dealt, FailuresLast, WorkerNext;
    WorkerKeepsToken(s, a);
    NotPolling(s, a);
  }

  lemma NotPolling(s: State, a: Action)
    requires Enabled(s, a) && WorkerStep(a) && !s.worker.Polling?
    ensures WorkerNext(s, a).polled == s.polled
  {
    hide Ids;
  }

  lemma LoopStepTakes(s: State, a: Action)
    requires Enabled(s, a) && !WorkerStep(a) && s.workerError.Some?
    ensures var t := LoopNext(s, a);
            t.polled == s.polled && s.taken <= t.taken && |t.taken| + |t.waiters| <= |s.taken| + |s.waiters|
  {
    hide Ids;
    if a.RecvTake? || a.RecvCancel? {
      assert |s.waiters - {a.r}| == |s.waiters| - 1;
    }
  }

  // However the run goes on, at most as many messages are still taken as there
  // are blocked recv() calls, and none is polled any more.
  lemma {:induction false} TakenBounded(states: seq<State>, acts: seq<Action>, j: nat, k: nat)
    requires Behaviour(states, acts) && j <= k < |states| && states[j].workerError.Some?
    ensures states[k].polled == states[j].polled && states[j].taken <= states[k].taken
    ensures |states[k].taken| - |states[j].taken| <= |states[j].waiters|
    ensures |states[k].taken| + |states[k].waiters| <= |states[j].taken| + |states[j].waiters|
  {
    hide Next, Enabled, Conserved, Decided, LoopOk, FailOk, CloseOk, ErrorOk, TokenOk, StreamOk;
    if j < k {
      TakenBounded(states, acts, j, k - 1);
      ErrorSticks(states, acts, j, k - 1);
      Always(states, acts, k - 1);
      assert Moves(states[k - 1], acts[k - 1], states[k]);
      TakenStep(states[k - 1], acts[k - 1]);
    }
  }

  // The run can go on to a state in which every polled message has been received.
  ghost predicate CanReceiveAll(states: seq<State>, acts: seq<Action>)
  {
    exists states', acts' :: Behaviour(states', acts') && Continues(states, acts, states', acts')
  }

  ghost predicate Continues(states: seq<State>, acts: seq<Action>, states': seq<State>, acts': seq<Action>)
  {
    && states <= states' && acts <= acts' && |states'| == |acts'| + 1
    && states'[|acts'|].taken == states'[|acts'|].polled
  }

  lemma {:induction false} NoPostsLeft(callbacks: seq<Callback>)
    requires NoPosts(callbacks)
    ensures Posts(callbacks) == []
  {
    if callbacks != [] {
      assert forall k :: 0 <= k < |callbacks[1..]| ==> callbacks[1..][k] == callbacks[k + 1];
      NoPostsLeft(callbacks[1..]);
    }
  }

  // With the error published, every polled message is taken or queued.
  lemma QueuedIsUntaken(states: seq<State>, acts: seq<Action>, n: nat)
    requires Behaviour(states, acts) && n < |states| && states[n].workerError.Some?
    ensures states[n].polled == states[n].taken + Fanouts(states[n].messages)
  {
    hide Behaviour, Fanouts, Posts, NoPosts, AllMessages;
    OneToken(states, acts, n);
    ReceivedIsPrefixOfPolled(states, acts, n);
    NoPostsLeft(states[n].callbacks);
    var s := states[n];
    assert s.polled == s.taken + s.polled[|s.taken|..];
  }

  lemma {:induction false} TakeAll(states: seq<State>, acts: seq<Action>)
    requires Behaviour(states, acts) && states[|acts|].workerError.Some?
    requires |Fanouts(states[|acts|].messages)| <= |states[|acts|].waiters|
    ensures CanReceiveAll(states, acts)
    decreases |Fanouts(states[|acts|].messages)|
  {
    hide Behaviour, LoopNext, WorkerNext;
    Sizes(states, acts);
    var s := states[|acts|];
    QueuedIsUntaken(states, acts, |acts|);
    if Fanouts(s.messages) == [] {
      assert Continues(states, acts, states, acts);
    } else {
      FirstIsMessage(states, acts);
      var r :| r in s.waiters;
      var states', acts' := Extend(states, acts, RecvTake(r));
      TakenOnly(s, r);
      assert |s.waiters - {r}| == |s.waiters| - 1;
      assert states'[|acts'|] == Next(s, RecvTake(r));
      TakeAll(states', acts');
      var statesEnd, actsEnd :|
        Behaviour(statesEnd, actsEnd) && Continues(states', acts', statesEnd, actsEnd);
      assert Continues(states, acts, statesEnd, actsEnd);
    }
  }

  lemma FirstIsMessage(states: seq<State>, acts: seq<Action>)
    requires Behaviour(states, acts) && states[|acts|].workerError.Some?
    requires Fanouts(states[|acts|].messages) != []
    ensures states[|acts|].messages != [] && states[|acts|].messages[0].Msg?
  {
    hide Behaviour, NoPosts;
    Sizes(states, acts);
    OneToken(states, acts, |acts|);
    var messages := states[|acts|].messages;
    if |messages| > 1 {
      assert messages[..|messages| - 1][0] == messages[0];
    }
  }

  // Once the error is published, everything polled can still be received exactly
  // when there are as many blocked recv() calls as queued messages.
  lemma AllReceivableExactly(states: seq<State>, acts: seq<Action>)
    requires Behaviour(states, acts) && states[|acts|].workerError.Some?
    ensures CanReceiveAll(states, acts) <==> |Fanouts(states[|acts|].messages)| <= |states[|acts|].waiters|
  {
    hide Behaviour, Fanouts, Next;
    Sizes(states, acts);
    if CanReceiveAll(states, acts) {
      var states', acts' :| Behaviour(states', acts') && Continues(states, acts, states', acts');
      assert states'[|acts|] == states[|acts|];
      TakenBounded(states', acts', |acts|, |acts'|);
      QueuedIsUntaken(states, acts, |acts|);
    } else if |Fanouts(states[|acts|].messages)| <= |states[|acts|].waiters| {
      TakeAll(states, acts);
    }
  }

  lemma Sizes(states: seq<State>, acts: seq<Action>)
    requires Behaviour(states, acts)
    ensures |states| == |acts| + 1
  {
  }
}
