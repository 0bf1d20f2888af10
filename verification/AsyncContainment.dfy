// A command that fails disturbs no other; and the two kinds of command that
// are never completed do occur.

module AsyncContainment {
  import opened Wrappers
  import opened AsyncClient
  import opened AsyncInvariants
  import opened AsyncErrors
  import opened AsyncTheorems

  // ---------- containment ----------

  function MaskCallback(c: Callback, i: nat, o: Outcome): Callback
  {
    if c.Resolve? && c.id == i then Resolve(i, o) else c
  }

  function MaskCallbacks(callbacks: seq<Callback>, i: nat, o: Outcome): (r: seq<Callback>)
    ensures |r| == |callbacks|
    ensures forall k :: 0 <= k < |callbacks| ==> r[k] == MaskCallback(callbacks[k], i, o)
  {
    seq(|callbacks|, k requires 0 <= k < |callbacks| => MaskCallback(callbacks[k], i, o))
  }

  function MaskFutures(futures: seq<Future>, i: nat, o: Outcome): seq<Future>
  {
    if i < |futures| && futures[i].Done? then futures[i := Done(o)] else futures
  }

  function MaskOutcomes(outcomes: map<nat, Outcome>, i: nat, o: Outcome): map<nat, Outcome>
  {
    if i in outcomes then outcomes[i := o] else outcomes
  }

  // The same state, had command i come out as o.
  function Mask(s: State, i: nat, o: Outcome): State
  {
    s.(futures := MaskFutures(s.futures, i, o), callbacks := MaskCallbacks(s.callbacks, i, o),
       outcomes := MaskOutcomes(s.outcomes, i, o))
  }

  lemma {:induction false} MaskIds(callbacks: seq<Callback>, i: nat, o: Outcome)
    ensures Ids(MaskCallbacks(callbacks, i, o)) == Ids(callbacks)
  {
    if callbacks != [] {
      MaskIds(callbacks[1..], i, o);
      assert MaskCallbacks(callbacks, i, o)[1..] == MaskCallbacks(callbacks[1..], i, o);
    }
  }

  lemma MaskMore(callbacks: seq<Callback>, c: Callback, i: nat, o: Outcome)
    ensures MaskCallbacks(callbacks + [c], i, o) == MaskCallbacks(callbacks, i, o) + [MaskCallback(c, i, o)]
  {
  }

  lemma MaskRest(callbacks: seq<Callback>, i: nat, o: Outcome)
    requires callbacks != []
    ensures MaskCallbacks(callbacks, i, o)[1..] == MaskCallbacks(callbacks[1..], i, o)
  {
  }

  // A command the worker has decided on and that is not a close command.
  ghost predicate Plain(s: State, i: nat)
  {
    i in s.outcomes && i < |s.closes| && !s.closes[i] && |s.futures| == |s.closes|
  }

  lemma MaskEnabled(s: State, a: Action, i: nat, o: Outcome)
    requires Enabled(s, a) && Plain(s, i)
    ensures Enabled(Mask(s, i, o), a)
  {
    hide Ids;
  }

  lemma MaskGrow(futures: seq<Future>, i: nat, o: Outcome)
    requires i < |futures|
    ensures MaskFutures(futures + [Pending], i, o) == MaskFutures(futures, i, o) + [Pending]
  {
  }

  lemma MaskCancel(futures: seq<Future>, id: nat, i: nat, o: Outcome)
    requires i < |futures| && id < |futures| && futures[id].Pending?
    ensures MaskFutures(futures[id := Cancelled], i, o) == MaskFutures(futures, i, o)[id := Cancelled]
  {
  }

  lemma MaskSettle(futures: seq<Future>, id: nat, outcome: Outcome, i: nat, o: Outcome)
    requires i < |futures| && id < |futures|
    ensures var m := MaskFutures(futures, i, o);
            MaskFutures(futures[id := Settle(futures[id], outcome)], i, o)
            == m[id := Settle(m[id], if id == i then o else outcome)]
  {
  }

  lemma MaskEnqueue(s: State, a: Action, i: nat, o: Outcome)
    requires Enabled(s, a) && Plain(s, i) && Enqueues(a) && Enabled(Mask(s, i, o), a)
    ensures Next(Mask(s, i, o), a) == Mask(Next(s, a), i, o)
  {
    hide Ids, MaskCallbacks, MaskOutcomes, MaskFutures, Enabled, WorkerNext;
    MaskGrow(s.futures, i, o);
  }

  lemma MaskCancelled(s: State, id: nat, i: nat, o: Outcome)
    requires Enabled(s, Cancel(id)) && Plain(s, i) && Enabled(Mask(s, i, o), Cancel(id))
    ensures Next(Mask(s, i, o), Cancel(id)) == Mask(Next(s, Cancel(id)), i, o)
  {
    hide Ids, MaskCallbacks, MaskOutcomes, MaskFutures, WorkerNext;
    MaskCancel(s.futures, id, i, o);
  }

  lemma MaskRecv(s: State, a: Action, i: nat, o: Outcome)
    requires Enabled(s, a) && (a.RecvCall? || a.RecvPutBack? || a.RecvCancel?)
    requires Enabled(Mask(s, i, o), a)
    ensures LoopNext(Mask(s, i, o), a) == Mask(LoopNext(s, a), i, o)
  {
    hide Ids, MaskCallbacks, MaskOutcomes, MaskFutures;
  }

  lemma MaskTake(s: State, r: nat, i: nat, o: Outcome)
    requires Enabled(s, RecvTake(r)) && Enabled(Mask(s, i, o), RecvTake(r))
    ensures LoopNext(Mask(s, i, o), RecvTake(r)) == Mask(LoopNext(s, RecvTake(r)), i, o)
  {
    hide Ids, Mask;
    MaskUnfolds(s, i, o);
    var t := LoopNext(s, RecvTake(r));
    MaskUnfolds(t, i, o);
    TakenOnly(s, r);
    TakenOnly(Mask(s, i, o), r);
  }

  lemma MaskClose(s: State, a: Action, i: nat, o: Outcome)
    requires Enabled(s, a) && (a.CloseReturn? || a.CloseDead? || a.CancelStarted?)
    requires Enabled(Mask(s, i, o), a)
    ensures LoopNext(Mask(s, i, o), a) == Mask(LoopNext(s, a), i, o)
  {
    hide Ids, MaskCallbacks, MaskOutcomes, MaskFutures;
  }

  lemma MaskTask(s: State, a: Action, i: nat, o: Outcome)
    requires Enabled(s, a) && Plain(s, i) && !WorkerStep(a) && !a.RunCallback? && Enabled(Mask(s, i, o), a)
    ensures Next(Mask(s, i, o), a) == Mask(Next(s, a), i, o)
  {
    hide Ids, LoopNext, WorkerNext, Enabled, Mask, Plain;
    if Enqueues(a) {
      MaskEnqueue(s, a, i, o);
    } else if a.Cancel? {
      MaskCancelled(s, a.id, i, o);
    } else if a.CloseReturn? || a.CloseDead? || a.CancelStarted? {
      MaskClose(s, a, i, o);
    } else if a.RecvTake? {
      MaskTake(s, a.r, i, o);
    } else {
      MaskRecv(s, a, i, o);
    }
  }

  lemma MaskRun(s: State, i: nat, o: Outcome)
    requires Enabled(s, RunCallback) && Plain(s, i)
    ensures Enabled(Mask(s, i, o), RunCallback)
    ensures Next(Mask(s, i, o), RunCallback) == Mask(Next(s, RunCallback), i, o)
  {
    hide Ids, Run, MaskCallback, WorkerNext;
    var s1 := s.(callbacks := s.callbacks[1..]);
    MaskRest(s.callbacks, i, o);
    assert Mask(s, i, o).(callbacks := Mask(s, i, o).callbacks[1..]) == Mask(s1, i, o);
    MaskRunOne(s1, s.callbacks[0], i, o);
  }

  lemma MaskRunOne(s: State, c: Callback, i: nat, o: Outcome)
    requires Plain(s, i)
    ensures Run(Mask(s, i, o), MaskCallback(c, i, o)) == Mask(Run(s, c), i, o)
  {
    hide Ids, MaskOutcomes, MaskCallbacks, MaskFutures, Settle;
    if c.Resolve? && c.id < |s.futures| {
      MaskSettle(s.futures, c.id, c.outcome, i, o);
      MaskLength(s.futures, i, o);
    } else if c.Resolve? {
      MaskLength(s.futures, i, o);
    }
  }

  lemma MaskLength(futures: seq<Future>, i: nat, o: Outcome)
    ensures |MaskFutures(futures, i, o)| == |futures|
  {
  }

  lemma MaskDecide(s: State, a: Action, i: nat, o: Outcome)
    requires Enabled(s, a) && Plain(s, i) && Decides(a) && Enabled(Mask(s, i, o), a)
    requires s.worker.id !in s.outcomes
    ensures Next(Mask(s, i, o), a) == Mask(Next(s, a), i, o)
  {
    hide Ids, MaskFutures, LoopNext;
    MaskMore(s.callbacks, Resolve(s.worker.id, Decision(s, a)), i, o);
    assert MaskOutcomes(s.outcomes[s.worker.id := Decision(s, a)], i, o)
        == MaskOutcomes(s.outcomes, i, o)[s.worker.id := Decision(s, a)];
  }

  lemma MaskWorker(s: State, a: Action, i: nat, o: Outcome)
    requires Enabled(s, a) && Plain(s, i) && WorkerStep(a) && !Decides(a) && Enabled(Mask(s, i, o), a)
    ensures Next(Mask(s, i, o), a) == Mask(Next(s, a), i, o)
  {
    hide Ids, Next, Enabled, Mask;
    if Announces(a) {
      MaskAnnounce(s, a, i, o);
    } else {
      MaskQuietWorker(s, a, i, o);
    }
  }

  lemma MaskAnnounce(s: State, a: Action, i: nat, o: Outcome)
    requires Enabled(s, a) && Announces(a) && Enabled(Mask(s, i, o), a)
    ensures Next(Mask(s, i, o), a) == Mask(Next(s, a), i, o)
  {
    hide Ids, MaskFutures, MaskOutcomes, MaskCallbacks, LoopNext;
    var t := Next(s, a);
    var c := t.callbacks[|s.callbacks|];
    assert t.callbacks == s.callbacks + [c];
    MaskMore(s.callbacks, c, i, o);
  }

  lemma MaskQuietWorker(s: State, a: Action, i: nat, o: Outcome)
    requires Enabled(s, a) && WorkerStep(a) && !Decides(a) && !Announces(a) && Enabled(Mask(s, i, o), a)
    ensures Next(Mask(s, i, o), a) == Mask(Next(s, a), i, o)
  {
    hide Ids, MaskFutures, MaskOutcomes, MaskCallbacks, LoopNext;
    MaskIds(s.callbacks, i, o);
  }

  lemma MaskStep(s: State, a: Action, i: nat, o: Outcome)
    requires Enabled(s, a) && Plain(s, i) && Conserved(s) && Decided(s)
    ensures Enabled(Mask(s, i, o), a) && Next(Mask(s, i, o), a) == Mask(Next(s, a), i, o)
    ensures Plain(Next(s, a), i)
  {
    hide Next, Enabled, Ids, Mask, Conserved;
    MaskEnabled(s, a, i, o);
    PlainStays(s, a, i);
    if a.RunCallback? {
      MaskRun(s, i, o);
    } else if !WorkerStep(a) {
      MaskTask(s, a, i, o);
    } else if Decides(a) {
      DecideShape(s, a);
      Places(s);
      MaskDecide(s, a, i, o);
    } else {
      MaskWorker(s, a, i, o);
    }
  }

  lemma PlainStays(s: State, a: Action, i: nat)
    requires Enabled(s, a) && Plain(s, i) && Conserved(s)
    ensures Plain(Next(s, a), i)
  {
    hide Next, Enabled, Ids, Line, UpTo;
    ConservedKept(s, a);
    if !WorkerStep(a) {
      LoopSideShape(s, a);
    } else if Decides(a) {
      DecideShape(s, a);
    } else {
      WorkerKeepsDealt(s, a);
    }
  }

  // Deciding on the other outcome gives the masked state.
  lemma MaskFirst(s: State, before: Outcome, o: Outcome)
    requires Enabled(s, CompleteCommand(before)) && Conserved(s) && Decided(s)
    ensures Enabled(s, CompleteCommand(o)) && Plain(Next(s, CompleteCommand(before)), s.worker.id)
    ensures Next(s, CompleteCommand(o)) == Mask(Next(s, CompleteCommand(before)), s.worker.id, o)
  {
    hide Ids, Line, UpTo, Mask, LoopNext;
    var i := s.worker.id;
    Places(s);
    assert i !in s.outcomes;
    assert MaskCallbacks(s.callbacks, i, o) == s.callbacks;
    MaskMore(s.callbacks, Resolve(i, before), i, o);
    MaskUnfolds(Next(s, CompleteCommand(before)), i, o);
  }

  lemma MaskUnfolds(s: State, i: nat, o: Outcome)
    ensures Mask(s, i, o) ==
            s.(futures := MaskFutures(s.futures, i, o), callbacks := MaskCallbacks(s.callbacks, i, o),
               outcomes := MaskOutcomes(s.outcomes, i, o))
  {
  }

  // The states of a run, had step k, which completes command i, come out as o.
  ghost function Masked(states: seq<State>, k: nat, i: nat, o: Outcome): (r: seq<State>)
    ensures |r| == |states|
    ensures forall j :: 0 <= j < |states| ==> r[j] == if j <= k then states[j] else Mask(states[j], i, o)
  {
    seq(|states|, j requires 0 <= j < |states| => if j <= k then states[j] else Mask(states[j], i, o))
  }

  lemma {:induction false} PlainFrom(states: seq<State>, acts: seq<Action>, k: nat, i: nat, j: nat)
    requires Behaviour(states, acts) && k < j < |states|
    requires acts[k].CompleteCommand? && states[k].worker == Holding(i)
    ensures Plain(states[j], i)
  {
    hide Next, Enabled, Mask, Plain, Conserved, Decided, LoopOk, FailOk, CloseOk, ErrorOk, TokenOk, StreamOk;
    Always(states, acts, j - 1);
    assert Moves(states[j - 1], acts[j - 1], states[j]);
    if k + 1 == j {
      MaskFirst(states[k], acts[k].outcome, acts[k].outcome);
    } else {
      PlainFrom(states, acts, k, i, j - 1);
      PlainStays(states[j - 1], acts[j - 1], i);
    }
  }

  // Had step k, where the worker completes a command, come out otherwise (an
  // error for a value, say), every other step could have been the same, and the
  // states would differ in that command's own outcome only.
  lemma OutcomeIsContained(states: seq<State>, acts: seq<Action>, k: nat, i: nat, o: Outcome)
    requires Behaviour(states, acts) && k < |acts|
    requires acts[k].CompleteCommand? && states[k].worker == Holding(i)
    ensures Behaviour(Masked(states, k, i, o), acts[k := CompleteCommand(o)])
  {
    hide Next, Enabled, Mask, Plain, Conserved, Decided, LoopOk, FailOk, CloseOk, ErrorOk, TokenOk, StreamOk;
    var states', acts' := Masked(states, k, i, o), acts[k := CompleteCommand(o)];
    forall j | 0 <= j < |acts| ensures Moves(states'[j], acts'[j], states'[j + 1]) {
      assert Moves(states[j], acts[j], states[j + 1]);
      Always(states, acts, j);
      if j == k {
        MaskFirst(states[k], acts[k].outcome, o);
      } else if k < j {
        PlainFrom(states, acts, k, i, j);
        MaskStep(states[j], acts[j], i, o);
      }
    }
  }

  // ---------- commands that are never completed ----------

  lemma CloseInHand() returns (states: seq<State>, acts: seq<Action>)
    ensures Behaviour(states, acts) && |states| == |acts| + 1
    ensures var s := states[|acts|];
            && s.worker == Holding(0) && s.threadSet && !s.closed && s.workerError.None? && s.failure.None?
            && s.closes == [true] && s.futures == [Pending] && s.commands == []
  {
    hide Behaviour, Ids, Line;
    states, acts := Begin();
    states, acts := Then(states, acts, ConstructOk);
    states, acts := Then(states, acts, CloseCall);
    states, acts := Then(states, acts, GetCommand);
  }

  // A second close command, or any other command, issued while the first is
  // being handled stays in the queue: this worker never completes it.
  lemma LostAfterClose(close: bool) returns (states: seq<State>, acts: seq<Action>, s: State)
    ensures Behaviour(states, acts) && s == states[|acts|] && s.worker.Dead? && s.failure.None?
    ensures s.commands == [1] && s.futures == [Pending, Pending] && s.closes == [true, close]
  {
    hide Behaviour, Ids, Line;
    states, acts := CloseInHand();
    states, acts := Then(states, acts, if close then CloseCall else Call);
    states, acts := Then(states, acts, CompleteClose);
    states, acts := Then(states, acts, Exit);
    s := states[|acts|];
  }

  // So does a command issued after _fail_pending has seen the queue empty and
  // before the error callback has run.
  lemma LostAfterFailure(error: nat) returns (states: seq<State>, acts: seq<Action>, s: State)
    ensures Behaviour(states, acts) && s == states[|acts|] && s.worker.Dead? && s.failure == Some(error)
    ensures s.commands == [0] && s.futures == [Pending] && s.closes == [false]
  {
    hide Behaviour, Line;
    states, acts := Begin();
    states, acts := Then(states, acts, ConstructFail(error));
    states, acts := Then(states, acts, FailStarted);
    states, acts := Then(states, acts, ScheduleError);
    states, acts := Then(states, acts, DrainEmpty);
    states, acts := Then(states, acts, Call);
    states, acts := Then(states, acts, Exit);
    s := states[|acts|];
  }

  lemma Begin() returns (states: seq<State>, acts: seq<Action>)
    ensures Behaviour(states, acts) && acts == [] && states == [START]
  {
    states, acts := [START], [];
  }

  // One more step, by its end alone.
  lemma Then(states: seq<State>, acts: seq<Action>, a: Action) returns (states': seq<State>, acts': seq<Action>)
    requires Behaviour(states, acts) && |states| == |acts| + 1 && Enabled(states[|acts|], a)
    ensures Behaviour(states', acts') && |states'| == |acts'| + 1 && |acts'| == |acts| + 1
    ensures states'[|acts'|] == Next(states[|acts|], a)
  {
    states', acts' := Extend(states, acts, a);
  }
}
