// What holds of every run of the asyncio wrapper, under every interleaving of
// the event loop, its tasks and the worker thread.

module AsyncTheorems {
  import opened Wrappers
  import opened ClientSpec
  import opened AsyncClient
  import opened AsyncInvariants
  import opened AsyncErrors

  ghost predicate AllOk(s: State)
  {
    Conserved(s) && Decided(s) && LoopOk(s) && FailOk(s) && CloseOk(s) && ErrorOk(s) && TokenOk(s) && StreamOk(s)
  }

  lemma AllKept(s: State, a: Action)
    requires Enabled(s, a) && AllOk(s)
    ensures AllOk(Next(s, a))
  {
    hide Next, Enabled, Conserved, Decided, LoopOk, FailOk, CloseOk, ErrorOk, TokenOk, StreamOk;
    ConservedKept(s, a);
    DecidedKept(s, a);
    WorkerKept(s, a);
    ErrorKept(s, a);
    TokenKept(s, a);
    StreamKept(s, a);
  }

  lemma {:induction false} Always(states: seq<State>, acts: seq<Action>, k: nat)
    requires Behaviour(states, acts) && k < |states|
    ensures AllOk(states[k])
  {
    hide Next, Enabled, AllOk;
    if k == 0 {
      StartOk();
    } else {
      Always(states, acts, k - 1);
      assert Moves(states[k - 1], acts[k - 1], states[k]);
      AllKept(states[k - 1], acts[k - 1]);
    }
  }

  lemma StartOk()
    ensures AllOk(START)
  {
    assert Line(START) == UpTo(0);
  }

  // ---------- commands ----------

  // Every command is at one position of one of the four places, and the places
  // hold the commands in the order they were issued.
  lemma OnePlace(states: seq<State>, acts: seq<Action>, n: nat, i: nat)
    requires Behaviour(states, acts) && n < |states| && i < |states[n].closes|
    ensures var s := states[n];
            multiset(s.retired)[i] + multiset(Ids(s.callbacks))[i] + multiset(InHand(s.worker))[i]
            + multiset(s.commands)[i] == 1
    ensures Line(states[n]) == UpTo(|states[n].closes|)
  {
    hide Behaviour, Ids, InHand, Decided, LoopOk, FailOk, CloseOk, ErrorOk, TokenOk, StreamOk;
    Always(states, acts, n);
    var s := states[n];
    OnceInUpTo(|s.closes|, i);
    assert multiset(Line(s)) ==
           multiset(s.retired) + multiset(Ids(s.callbacks)) + multiset(InHand(s.worker)) + multiset(s.commands);
  }

  lemma {:induction false} OnceInUpTo(n: nat, i: nat)
    ensures multiset(UpTo(n))[i] == if i < n then 1 else 0
  {
    if n > 0 {
      OnceInUpTo(n - 1, i);
      assert UpTo(n) == UpTo(n - 1) + [n - 1];
    } else {
      assert UpTo(0) == [];
    }
  }

  // A future that is settled stays as it is.
  lemma SettledStays(s: State, a: Action, i: nat)
    requires Enabled(s, a) && i < |s.futures| && !s.futures[i].Pending?
    ensures i < |Next(s, a).futures| && Next(s, a).futures[i] == s.futures[i]
  {
    hide Ids, Next, Enabled, Decision;
    if Enqueues(a) {
      EnqueueShape(s, a);
    } else if Announces(a) {
      AnnounceShape(s, a);
    } else if Decides(a) {
      DecideShape(s, a);
    } else if Gets(a) {
      GetShape(s, a);
    } else if a.RunCallback? {
      assert a == RunCallback;
      RunSettles(s, i);
    } else {
      QuietShape(s, a);
    }
  }

  lemma RunSettles(s: State, i: nat)
    requires Enabled(s, RunCallback) && i < |s.futures| && !s.futures[i].Pending?
    ensures i < |Next(s, RunCallback).futures| && Next(s, RunCallback).futures[i] == s.futures[i]
  {
    hide Ids, WorkerNext;
  }

  lemma {:induction false} ResolvedOnce(states: seq<State>, acts: seq<Action>, j: nat, k: nat, i: nat)
    requires Behaviour(states, acts) && j <= k < |states|
    requires i < |states[j].futures| && !states[j].futures[i].Pending?
    ensures i < |states[k].futures| && states[k].futures[i] == states[j].futures[i]
  {
    hide Next, Enabled;
    if j < k {
      ResolvedOnce(states, acts, j, k - 1, i);
      assert Moves(states[k - 1], acts[k - 1], states[k]);
      SettledStays(states[k - 1], acts[k - 1], i);
    }
  }

  // A future that is done carries what the worker decided for its own command,
  // and its callback has run; once it has, the future is settled.
  lemma FutureOutcome(states: seq<State>, acts: seq<Action>, n: nat, i: nat)
    requires Behaviour(states, acts) && n < |states| && i < |states[n].futures|
    ensures var s := states[n];
            && (s.futures[i].Done? ==> i in s.retired && i in s.outcomes && s.outcomes[i] == s.futures[i].outcome)
            && (i in s.retired ==> !s.futures[i].Pending?)
  {
    hide Behaviour, Ids, InHand, LoopOk, FailOk, CloseOk, ErrorOk, TokenOk, StreamOk, Conserved;
    Always(states, acts, n);
    var s := states[n];
    Places(s);
    if s.futures[i].Done? {
      assert s.retired[i] == i;
    }
  }

  // ---------- closing ----------

  // When the future of a close command has its result, no error has ended the
  // loop, it is the first close command, everything issued before it has been
  // settled in order, and exactly what was issued after it is still queued.
  lemma CleanShutdown(states: seq<State>, acts: seq<Action>, n: nat, c: nat)
    requires Behaviour(states, acts) && n < |states|
    requires c < |states[n].closes| && states[n].closes[c]
    requires c < |states[n].futures| && states[n].futures[c] == Done(Value(0))
    ensures var s := states[n];
            && s.failure.None? && Stopped(s)
            && (forall j :: 0 <= j < c ==> !s.closes[j] && j in s.outcomes && !s.futures[j].Pending?)
            && s.retired == UpTo(c + 1) && Ids(s.callbacks) == []
            && |s.commands| == |s.closes| - c - 1
            && (forall k :: 0 <= k < |s.commands| ==> s.commands[k] == c + 1 + k)
  {
    hide Behaviour, Ids, ErrorOk, TokenOk, StreamOk, Conserved;
    Always(states, acts, n);
    var s := states[n];
    Places(s);
    assert c in s.outcomes && c !in s.drained;
    assert s.retired == UpTo(c + 1);
  }

  // When close() returns, all of that holds; if nothing was issued after its
  // command the queue is empty.
  lemma CloseReturnsClean(states: seq<State>, acts: seq<Action>, n: nat, c: nat)
    requires Behaviour(states, acts) && n < |states| && Enabled(states[n], CloseReturn(c))
    ensures var s := states[n];
            && s.worker.Dead? && s.failure.None? && s.retired == UpTo(c + 1)
            && (c + 1 == |s.closes| <==> s.commands == [])
  {
    hide Behaviour, Ids, ErrorOk, TokenOk, StreamOk, Conserved, LoopOk;
    Always(states, acts, n);
    CloseValue(states[n], c);
    CleanShutdown(states, acts, n, c);
  }

  lemma CloseValue(s: State, c: nat)
    requires AllOk(s) && c < |s.closes| && c < |s.futures|
    requires s.closes[c] && s.futures[c].Done? && s.futures[c].outcome.Value?
    ensures s.futures[c] == Done(Value(0))
  {
    hide Ids, ErrorOk, TokenOk, StreamOk, Conserved;
    Places(s);
  }

  // The commands before this one are the ones the worker ever deals with.
  ghost predicate Handled(s: State, i: nat)
  {
    if s.failure.Some? then i < s.drainedAt
    else forall j :: 0 <= j < i && j < |s.closes| ==> !s.closes[j]
  }

  // Once the worker is gone a command has an outcome exactly when no close
  // command was issued before it, or, if an error ended the loop, when it was
  // issued before _fail_pending saw the queue empty. The others stay queued.
  lemma HandledExactly(states: seq<State>, acts: seq<Action>, n: nat, i: nat)
    requires Behaviour(states, acts) && n < |states| && states[n].worker.Dead? && i < |states[n].closes|
    ensures var s := states[n];
            (i in s.outcomes <==> Handled(s, i)) && (i in s.commands <==> !Handled(s, i))
  {
    hide Behaviour, Ids, ErrorOk, TokenOk, StreamOk, Conserved;
    Always(states, acts, n);
    var s := states[n];
    Places(s);
    if i >= Dealt(s) {
      assert s.commands[i - Dealt(s)] == i;
    }
    if s.failure.None? {
      assert s.closes[Dealt(s) - 1];
      forall j | 0 <= j < i && i < Dealt(s) ensures !s.closes[j] {
        assert j !in s.drained;
      }
    }
  }

  lemma DeadStays(s: State, a: Action)
    requires Enabled(s, a) && s.worker.Dead?
    ensures Next(s, a).worker.Dead? && Next(s, a).outcomes == s.outcomes && s.closes <= Next(s, a).closes
    ensures Next(s, a).failure == s.failure && Next(s, a).drainedAt == s.drainedAt
  {
    hide Next, Ids;
    LoopSideShape(s, a);
  }

  // A command left in the queue by the worker is never settled with an outcome
  // in this run; a run is that of one worker, which connect() starts.
  lemma LeftForever(states: seq<State>, acts: seq<Action>, j: nat, k: nat, i: nat)
    requires Behaviour(states, acts) && j <= k < |states|
    requires states[j].worker.Dead? && i in states[j].commands
    ensures i !in states[k].outcomes && i < |states[k].futures| && !states[k].futures[i].Done?
  {
    hide Behaviour, AllOk;
    Always(states, acts, j);
    QueuedIsOpen(states[j], i);
    OutcomesFixed(states, acts, j, k);
    Always(states, acts, k);
    OpenIsNotDone(states[k], i);
  }

  lemma {:induction false} OutcomesFixed(states: seq<State>, acts: seq<Action>, j: nat, k: nat)
    requires Behaviour(states, acts) && j <= k < |states| && states[j].worker.Dead?
    ensures states[k].outcomes == states[j].outcomes && states[j].closes <= states[k].closes
    ensures states[k].worker.Dead?
  {
    hide Next, Enabled;
    if j < k {
      OutcomesFixed(states, acts, j, k - 1);
      assert Moves(states[k - 1], acts[k - 1], states[k]);
      DeadStays(states[k - 1], acts[k - 1]);
    }
  }

  lemma QueuedIsOpen(s: State, i: nat)
    requires AllOk(s) && i in s.commands
    ensures i < |s.closes| && i !in s.outcomes
  {
    hide Ids, ErrorOk, TokenOk, StreamOk, Conserved, LoopOk, FailOk, CloseOk;
    Places(s);
  }

  lemma OpenIsNotDone(s: State, i: nat)
    requires AllOk(s) && i < |s.closes| && i !in s.outcomes
    ensures i < |s.futures| && !s.futures[i].Done?
  {
    hide Ids, ErrorOk, TokenOk, StreamOk, LoopOk, FailOk, CloseOk, Line, UpTo;
  }

  // ---------- failing ----------

  // Every command issued before _fail_pending saw the queue empty has been
  // dealt with, those that were pending with the error itself.
  lemma PendingAllFailed(states: seq<State>, acts: seq<Action>, n: nat, i: nat)
    requires Behaviour(states, acts) && n < |states|
    requires states[n].failure.Some? && Stopped(states[n]) && i < states[n].drainedAt
    ensures var s := states[n];
            && i in s.outcomes && i !in s.commands
            && (i in s.drained <==> s.failedFrom <= i)
            && (s.failedFrom <= i ==> s.outcomes[i] == Error(s.failure.value))
  {
    hide Behaviour, Ids, ErrorOk, TokenOk, StreamOk, Conserved, CloseOk, LoopOk;
    Always(states, acts, n);
    Places(states[n]);
  }

  // Whoever sees a pending command failed by the worker finds the error set:
  // new calls are refused, then and for ever.
  lemma RefusedAfterFailure(states: seq<State>, acts: seq<Action>, j: nat, k: nat, i: nat, r: nat)
    requires Behaviour(states, acts) && j <= k < |states|
    requires i in states[j].drained && i in states[j].retired
    ensures states[k].workerError == states[j].failure && states[k].workerError.Some?
    ensures !Enabled(states[k], Call) && !Enabled(states[k], RecvCall(r))
  {
    hide Next, AllOk, Behaviour;
    Always(states, acts, j);
    DrainedSeesError(states[j], i);
    ErrorSticks(states, acts, j, k);
  }

  lemma DrainedSeesError(s: State, i: nat)
    requires AllOk(s) && i in s.drained && i in s.retired
    ensures s.workerError.Some? && s.workerError == s.failure
  {
    hide Ids, TokenOk, StreamOk, Conserved, CloseOk;
    Places(s);
  }

  lemma ErrorStaysSet(s: State, a: Action)
    requires Enabled(s, a) && ErrorOk(s) && s.workerError.Some?
    ensures Next(s, a).workerError == s.workerError
  {
    hide Ids, Next, Enabled, ErrorOk;
    if a.RunCallback? {
      assert a == RunCallback;
      RunKeepsSet(s);
    } else if a.RecvTake? || a.RecvPutBack? {
      RecvKeepsSet(s, a);
    } else {
      OtherKeepsToken(s, a);
    }
  }

  lemma RunKeepsSet(s: State)
    requires Enabled(s, RunCallback) && ErrorOk(s) && s.workerError.Some?
    ensures Next(s, RunCallback).workerError == s.workerError
  {
    hide Ids, Dealt, WorkerNext;
  }

  lemma RecvKeepsSet(s: State, a: Action)
    requires Enabled(s, a) && (a.RecvTake? || a.RecvPutBack?)
    ensures Next(s, a).workerError == s.workerError
  {
    hide WorkerNext;
  }

  lemma {:induction false} ErrorSticks(states: seq<State>, acts: seq<Action>, j: nat, k: nat)
    requires Behaviour(states, acts) && j <= k < |states| && states[j].workerError.Some?
    ensures states[k].workerError == states[j].workerError
  {
    hide Next, Enabled, Conserved, Decided, LoopOk, FailOk, CloseOk, ErrorOk, TokenOk, StreamOk;
    if j < k {
      ErrorSticks(states, acts, j, k - 1);
      Always(states, acts, k - 1);
      assert Moves(states[k - 1], acts[k - 1], states[k]);
      ErrorStaysSet(states[k - 1], acts[k - 1]);
    }
  }

  // ---------- receiving ----------

  // After the error has been published there is exactly one token, nothing but
  // messages in front of it, nothing behind it and nothing on its way.
  lemma OneToken(states: seq<State>, acts: seq<Action>, n: nat)
    requires Behaviour(states, acts) && n < |states| && states[n].workerError.Some?
    ensures var s := states[n];
            && s.workerError == s.failure
            && NoPosts(s.callbacks)
            && (s.holder.Some? ==> s.holder == s.failure && s.messages == [])
            && (s.holder.None? ==> |s.messages| > 0
                                   && s.messages[|s.messages| - 1] == WorkerError(s.failure.value)
                                   && AllMessages(s.messages[..|s.messages| - 1]))
  {
    hide Behaviour, Ids, StreamOk, Conserved, CloseOk, Decided, LoopOk;
    Always(states, acts, n);
  }

  ghost predicate NoPosts(callbacks: seq<Callback>)
  {
    forall k :: 0 <= k < |callbacks| ==> !callbacks[k].Post? && !callbacks[k].PublishError?
  }

  // Twice the blocked recv() calls, the messages in front of the token and the
  // put-back that is due.
  function Ahead(s: State): nat
  {
    2 * |s.waiters| + |Fanouts(s.messages)| + (if s.holder.Some? then 1 else 0)
  }

  predicate Receives(a: Action) { a.RecvTake? || a.RecvPutBack? || a.RecvCancel? }

  lemma AheadFalls(s: State, a: Action)
    requires Enabled(s, a) && ErrorOk(s) && TokenOk(s) && s.workerError.Some?
    ensures Receives(a) ==> Ahead(Next(s, a)) < Ahead(s)
    ensures !Receives(a) ==> Ahead(Next(s, a)) == Ahead(s)
  {
    hide Ids, Next, Enabled, Fanouts;
    if a.RecvTake? || a.RecvPutBack? {
      TakeFalls(s, a);
    } else if a.RunCallback? {
      RunSame(s);
    } else {
      OtherAhead(s, a);
    }
  }

  lemma TakeFalls(s: State, a: Action)
    requires Enabled(s, a) && (a.RecvTake? || a.RecvPutBack?) && TokenOk(s)
    ensures Ahead(Next(s, a)) < Ahead(s)
  {
    hide Ids, Dealt, WorkerNext;
    if a.RecvPutBack? {
      FanoutsAppend(s.messages, WorkerError(s.holder.value));
    } else {
      assert |s.waiters - {a.r}| == |s.waiters| - 1;
    }
  }

  lemma RunSame(s: State)
    requires Enabled(s, RunCallback) && ErrorOk(s) && s.workerError.Some?
    ensures Ahead(Next(s, RunCallback)) == Ahead(s)
  {
    hide Ids, Dealt, Fanouts, WorkerNext;
  }

  lemma OtherAhead(s: State, a: Action)
    requires Enabled(s, a) && !a.RecvTake? && !a.RecvPutBack? && !a.RunCallback? && s.workerError.Some?
    ensures if Receives(a) then Ahead(Next(s, a)) < Ahead(s) else Ahead(Next(s, a)) == Ahead(s)
  {
    hide Ids, Fanouts, Next;
    OtherKeepsToken(s, a);
    if a.RecvCancel? {
      GaveUp(s, a.r);
    }
  }

  lemma GaveUp(s: State, r: nat)
    requires Enabled(s, RecvCancel(r))
    ensures |Next(s, RecvCancel(r)).waiters| == |s.waiters| - 1
  {
    hide WorkerNext;
  }

  // How often recv() calls take, put back or give up along a run.
  function Received(acts: seq<Action>): nat
  {
    if acts == [] then 0
    else Received(acts[..|acts| - 1]) + (if Receives(acts[|acts| - 1]) then 1 else 0)
  }

  // However the run goes on after the error is published, recv() calls move at
  // most Ahead(s) more times, and as long as one is blocked one can move.
  lemma {:induction false} RecvBounded(states: seq<State>, acts: seq<Action>, j: nat, k: nat)
    requires Behaviour(states, acts) && j <= k < |states| && states[j].workerError.Some?
    ensures Received(acts[j..k]) + Ahead(states[k]) <= Ahead(states[j])
  {
    hide Next, Enabled, Ahead, Conserved, Decided, LoopOk, FailOk, CloseOk, ErrorOk, TokenOk, StreamOk;
    if j < k {
      RecvBounded(states, acts, j, k - 1);
      ErrorSticks(states, acts, j, k - 1);
      Always(states, acts, k - 1);
      assert Moves(states[k - 1], acts[k - 1], states[k]);
      AheadFalls(states[k - 1], acts[k - 1]);
      assert acts[j..k][..k - 1 - j] == acts[j..k - 1];
    } else {
      assert acts[j..k] == [];
    }
  }

  // Once the error is published no recv() call is stuck: if no put-back is due
  // each blocked call can take an item, and the item is a message or the error.
  lemma BlockedCanMove(states: seq<State>, acts: seq<Action>, n: nat, r: nat)
    requires Behaviour(states, acts) && n < |states| && states[n].workerError.Some? && r in states[n].waiters
    ensures var s := states[n];
            || Enabled(s, RecvPutBack)
            || (Enabled(s, RecvTake(r))
                && (s.messages[0].Msg? || s.messages[0] == WorkerError(s.workerError.value)))
  {
    hide Behaviour, Ids, Dealt;
    OneToken(states, acts, n);
    var s := states[n];
    if |s.messages| > 1 {
      assert s.messages[..|s.messages| - 1][0] == s.messages[0];
    }
  }

  // In the order they are received, the messages are what the native client
  // polled: none lost, repeated or reordered.
  lemma ReceivedIsPrefixOfPolled(states: seq<State>, acts: seq<Action>, n: nat)
    requires Behaviour(states, acts) && n < |states|
    ensures var s := states[n];
            s.taken <= s.polled && s.polled[|s.taken|..] == Fanouts(s.messages) + Posts(s.callbacks)
  {
    hide Behaviour, Ids, Conserved, CloseOk, Decided, LoopOk, FailOk, ErrorOk, TokenOk;
    Always(states, acts, n);
    var s := states[n];
    assert s.polled == s.taken + (Fanouts(s.messages) + Posts(s.callbacks));
  }
}
