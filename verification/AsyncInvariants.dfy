// What every step of the asyncio wrapper keeps.

module AsyncInvariants {
  import opened Wrappers
  import opened ClientSpec
  import opened AsyncClient

  // ---------- the six kinds of step ----------

  predicate Enqueues(a: Action) { a.Call? || a.CloseCall? }

  predicate Announces(a: Action) { a.ConstructOk? || a.FailStarted? || a.ScheduleError? || a.PollOne? }

  predicate Decides(a: Action) { a.CompleteClose? || a.CompleteCommand? || a.DrainFail? }

  predicate Gets(a: Action) { a.GetCommand? || a.DrainGet? }

  predicate Quiet(a: Action)
  {
    !Enqueues(a) && !Announces(a) && !Decides(a) && !Gets(a) && !a.RunCallback?
  }

  function Decision(s: State, a: Action): Outcome
    requires Enabled(s, a) && Decides(a)
  {
    match a
    case CompleteClose => Value(0)
    case CompleteCommand(outcome) => outcome
    case DrainFail => Error(s.worker.error)
  }

  // The part of the state that commands move through.
  ghost predicate SameCommands(s: State, t: State)
  {
    t.closes == s.closes && t.commands == s.commands && t.retired == s.retired && t.outcomes == s.outcomes
    && InHand(t.worker) == InHand(s.worker)
  }

  lemma EnqueueShape(s: State, a: Action)
    requires Enabled(s, a) && Enqueues(a)
    ensures Next(s, a).futures == s.futures + [Pending]
  {
    hide WorkerNext;
  }

  lemma QuietShape(s: State, a: Action)
    requires Enabled(s, a) && Quiet(a)
    ensures SameCommands(s, Next(s, a)) && Next(s, a).callbacks == s.callbacks
    ensures a.Cancel? ==> a.id < |s.futures| && s.futures[a.id].Pending?
    ensures Next(s, a).futures ==
            if a.Cancel? then s.futures[a.id := Cancelled] else s.futures
  {
    hide Enabled, WorkerNext, LoopNext;
    if WorkerStep(a) {
      QuietWorkerShape(s, a);
    } else {
      QuietTaskShape(s, a);
    }
  }

  lemma QuietWorkerShape(s: State, a: Action)
    requires Enabled(s, a) && Quiet(a) && WorkerStep(a)
    ensures SameCommands(s, WorkerNext(s, a)) && WorkerNext(s, a).callbacks == s.callbacks
    ensures WorkerNext(s, a).futures == s.futures
  {
  }

  lemma QuietTaskShape(s: State, a: Action)
    requires Enabled(s, a) && Quiet(a) && !WorkerStep(a)
    ensures SameCommands(s, LoopNext(s, a)) && LoopNext(s, a).callbacks == s.callbacks
    ensures a.Cancel? ==> a.id < |s.futures| && s.futures[a.id].Pending?
    ensures LoopNext(s, a).futures == if a.Cancel? then s.futures[a.id := Cancelled] else s.futures
  {
  }

  lemma AnnounceShape(s: State, a: Action)
    requires Enabled(s, a) && Announces(a)
    ensures SameCommands(s, Next(s, a)) && Next(s, a).futures == s.futures
    ensures |Next(s, a).callbacks| == |s.callbacks| + 1
    ensures Next(s, a).callbacks[..|s.callbacks|] == s.callbacks
    ensures !Next(s, a).callbacks[|s.callbacks|].Resolve?
    ensures Ids(Next(s, a).callbacks) == Ids(s.callbacks)
  {
    hide LoopNext;
    var t := Next(s, a);
    var c := t.callbacks[|s.callbacks|];
    assert t.callbacks == s.callbacks + [c];
    IdsAppend(s.callbacks, c);
  }

  lemma DecideShape(s: State, a: Action)
    requires Enabled(s, a) && Decides(a)
    ensures InHand(s.worker) == [s.worker.id] && InHand(Next(s, a).worker) == []
    ensures Next(s, a).callbacks == s.callbacks + [Resolve(s.worker.id, Decision(s, a))]
    ensures Ids(Next(s, a).callbacks) == Ids(s.callbacks) + [s.worker.id]
    ensures Next(s, a).outcomes == s.outcomes[s.worker.id := Decision(s, a)]
    ensures Next(s, a).retired == s.retired && Next(s, a).closes == s.closes && Next(s, a).futures == s.futures
    ensures Next(s, a).commands == s.commands
  {
    hide LoopNext;
    IdsAppend(s.callbacks, Resolve(s.worker.id, Decision(s, a)));
  }

  lemma GetShape(s: State, a: Action)
    requires Enabled(s, a) && Gets(a)
    ensures InHand(s.worker) == [] && InHand(Next(s, a).worker) == [s.commands[0]]
    ensures s.commands == [s.commands[0]] + Next(s, a).commands
    ensures Next(s, a).callbacks == s.callbacks && Next(s, a).outcomes == s.outcomes
    ensures Next(s, a).retired == s.retired && Next(s, a).closes == s.closes && Next(s, a).futures == s.futures
  {
    hide LoopNext;
  }

  lemma RunShape(s: State)
    requires Enabled(s, RunCallback)
    ensures Next(s, RunCallback).callbacks == s.callbacks[1..]
    ensures Next(s, RunCallback).retired ==
            s.retired + (if s.callbacks[0].Resolve? then [s.callbacks[0].id] else [])
    ensures Next(s, RunCallback).closes == s.closes && Next(s, RunCallback).commands == s.commands
    ensures Next(s, RunCallback).outcomes == s.outcomes && Next(s, RunCallback).worker == s.worker
    ensures Next(s, RunCallback).futures ==
            if s.callbacks[0].Resolve? && s.callbacks[0].id < |s.futures|
            then s.futures[s.callbacks[0].id := Settle(s.futures[s.callbacks[0].id], s.callbacks[0].outcome)]
            else s.futures
  {
    hide Ids, WorkerNext;
  }

  lemma IdsFirst(callbacks: seq<Callback>)
    requires callbacks != []
    ensures Ids(callbacks) == (if callbacks[0].Resolve? then [callbacks[0].id] else []) + Ids(callbacks[1..])
  {
  }

  lemma TakenOnly(s: State, r: nat)
    requires Enabled(s, RecvTake(r))
    ensures LoopNext(s, RecvTake(r)) ==
            s.(waiters := s.waiters - {r}, messages := s.messages[1..],
               taken := if s.messages[0].Msg? then s.taken + [s.messages[0].message] else s.taken,
               holder := if s.messages[0].Msg? then s.holder else Some(s.messages[0].error))
  {
  }

  lemma RunOnly(s: State)
    requires Enabled(s, RunCallback)
    ensures LoopNext(s, RunCallback) == Run(s.(callbacks := s.callbacks[1..]), s.callbacks[0])
  {
  }

  // ---------- conservation ----------

  // Laid end to end, the retired, scheduled, held and queued commands are
  // 0, 1, 2, ... in the order they were issued.
  ghost predicate Conserved(s: State)
  {
    && |s.futures| == |s.closes|
    && Line(s) == UpTo(|s.closes|)
  }

  lemma Places(s: State)
    requires Conserved(s)
    ensures Dealt(s) + |InHand(s.worker)| + |s.commands| == |s.closes|
    ensures forall i :: 0 <= i < |s.retired| ==> s.retired[i] == i
    ensures forall i :: 0 <= i < |Ids(s.callbacks)| ==> Ids(s.callbacks)[i] == |s.retired| + i
    ensures InHand(s.worker) != [] ==> s.worker.id == Dealt(s)
    ensures forall i :: 0 <= i < |s.commands| ==> s.commands[i] == Dealt(s) + |InHand(s.worker)| + i
  {
    hide Ids;
    var r, c, h := |s.retired|, |Ids(s.callbacks)|, |InHand(s.worker)|;
    forall i | 0 <= i < r ensures s.retired[i] == i {
      assert Line(s)[i] == s.retired[i];
    }
    forall i | 0 <= i < c ensures Ids(s.callbacks)[i] == r + i {
      assert Line(s)[r + i] == Ids(s.callbacks)[i];
    }
    if h > 0 {
      assert Line(s)[r + c] == InHand(s.worker)[0];
    }
    forall i | 0 <= i < |s.commands| ensures s.commands[i] == r + c + h + i {
      assert Line(s)[r + c + h + i] == s.commands[i];
    }
  }

  lemma ConservedKept(s: State, a: Action)
    requires Enabled(s, a) && Conserved(s)
    ensures Conserved(Next(s, a))
  {
    hide Next, Enabled, Ids, InHand;
    var t := Next(s, a);
    if Enqueues(a) {
      EnqueueKeepsLine(s, a);
    } else if Announces(a) {
      AnnounceShape(s, a);
    } else if Decides(a) {
      DecideShape(s, a);
      assert Line(t) == Line(s);
    } else if Gets(a) {
      GetShape(s, a);
      assert Line(t) == Line(s);
    } else if a.RunCallback? {
      RunKeepsLine(s);
    } else {
      QuietShape(s, a);
    }
  }

  lemma RunKeepsLine(s: State)
    requires Enabled(s, RunCallback) && Conserved(s)
    ensures Conserved(Next(s, RunCallback))
  {
    hide Next, Ids, InHand;
    RunShape(s);
    IdsFirst(s.callbacks);
    assert Line(Next(s, RunCallback)) == Line(s);
  }

  lemma EnqueueKeepsLine(s: State, a: Action)
    requires Enabled(s, a) && Enqueues(a) && Conserved(s)
    ensures Conserved(Next(s, a))
  {
    hide Ids, WorkerNext;
    assert Line(Next(s, a)) == Line(s) + [|s.closes|];
  }

  // ---------- outcomes and futures ----------

  // The commands dealt with are exactly those with an outcome; a future holds
  // the outcome of its own command and is settled once its callback has run.
  ghost predicate Decided(s: State)
  {
    && (forall i: nat :: i in s.outcomes <==> i < Dealt(s))
    && (forall k :: 0 <= k < |s.callbacks| && s.callbacks[k].Resolve? ==>
          s.callbacks[k].id in s.outcomes && s.outcomes[s.callbacks[k].id] == s.callbacks[k].outcome)
    && (forall i :: 0 <= i < |s.futures| && s.futures[i].Done? ==>
          i < |s.retired| && i in s.outcomes && s.outcomes[i] == s.futures[i].outcome)
    && (forall i :: 0 <= i < |s.futures| && i < |s.retired| ==> !s.futures[i].Pending?)
  }

  lemma DecidedKept(s: State, a: Action)
    requires Enabled(s, a) && Conserved(s) && Decided(s)
    ensures Decided(Next(s, a))
  {
    hide Next, Enabled, Ids, InHand, Decision, Decided, Conserved;
    if Enqueues(a) {
      EnqueueKeepsDecided(s, a);
    } else if Announces(a) {
      AnnounceKeepsDecided(s, a);
    } else if Decides(a) {
      DecideKeepsDecided(s, a);
    } else if Gets(a) {
      GetKeepsDecided(s, a);
    } else if a.RunCallback? {
      RunKeepsDecided(s);
    } else {
      QuietKeepsDecided(s, a);
    }
  }

  lemma AnnounceKeepsDecided(s: State, a: Action)
    requires Enabled(s, a) && Announces(a) && Decided(s)
    ensures Decided(Next(s, a))
  {
    hide Next, Enabled, Ids, InHand;
    var t := Next(s, a);
    AnnounceShape(s, a);
    assert forall k :: 0 <= k < |s.callbacks| ==> t.callbacks[k] == t.callbacks[..|s.callbacks|][k];
  }

  lemma GetKeepsDecided(s: State, a: Action)
    requires Enabled(s, a) && Gets(a) && Decided(s)
    ensures Decided(Next(s, a))
  {
    hide Next, Enabled, Ids, InHand;
    GetShape(s, a);
  }

  lemma QuietKeepsDecided(s: State, a: Action)
    requires Enabled(s, a) && Quiet(a) && Decided(s)
    ensures Decided(Next(s, a))
  {
    hide Next, Enabled, Ids, InHand;
    QuietShape(s, a);
  }

  lemma DecideKeepsDecided(s: State, a: Action)
    requires Enabled(s, a) && Decides(a) && Conserved(s) && Decided(s)
    ensures Decided(Next(s, a))
  {
    hide Next, Enabled, Ids, InHand, Decision;
    Places(s);
    DecideShape(s, a);
  }

  lemma EnqueueKeepsDecided(s: State, a: Action)
    requires Enabled(s, a) && Enqueues(a) && Conserved(s) && Decided(s)
    ensures Decided(Next(s, a))
  {
    hide Ids, WorkerNext;
    Places(s);
  }

  lemma RunKeepsDecided(s: State)
    requires Enabled(s, RunCallback) && Conserved(s) && Decided(s)
    ensures Decided(Next(s, RunCallback))
  {
    hide Next, Ids, InHand;
    var t := Next(s, RunCallback);
    Places(s);
    RunShape(s);
    IdsFirst(s.callbacks);
    assert forall k :: 0 <= k < |t.callbacks| ==> t.callbacks[k] == s.callbacks[k + 1];
    if s.callbacks[0].Resolve? {
      assert Ids(s.callbacks)[0] == s.callbacks[0].id;
    }
  }

  // ---------- the worker's own record ----------

  predicate Stopped(s: State) { s.worker.Finishing? || s.worker.Dead? }

  // While no error has ended the loop, the worker is in it or has left it by
  // handling a close command, the last one it dealt with.
  ghost predicate LoopOk(s: State)
  {
    s.failure.None? ==> (
        && s.drained == {}
        && (s.worker.Constructing? || s.worker.Idle? || s.worker.Holding? || s.worker.Polling? || Stopped(s))
        && (Stopped(s) ==> 0 < Dealt(s) <= |s.closes| && s.closes[Dealt(s) - 1]))
  }

  // After an error, the commands dealt with since are exactly those
  // _fail_pending took, each with that error; it stops at an empty queue.
  ghost predicate FailOk(s: State)
  {
    s.failure.Some? ==> (
        && s.failedFrom <= Dealt(s)
        && (forall i: nat :: i in s.drained <==> s.failedFrom <= i < Dealt(s))
        && (forall i :: i in s.drained ==> i in s.outcomes && s.outcomes[i] == Error(s.failure.value))
        && match s.worker
           case Failing(e) => e == s.failure.value && s.failedFrom == Dealt(s)
           case Publishing(e) => e == s.failure.value && s.failedFrom == Dealt(s)
           case Draining(e) => e == s.failure.value
           case DrainHolding(e, _) => e == s.failure.value
           case Finishing => Dealt(s) == s.drainedAt
           case Dead => Dealt(s) == s.drainedAt
           case _ => false)
  }

  // A close command dealt with otherwise is the last command dealt with.
  ghost predicate CloseOk(s: State)
  {
    && Dealt(s) <= |s.closes|
    && (forall i :: 0 <= i < Dealt(s) && s.closes[i] && i !in s.drained ==>
          i + 1 == Dealt(s) && s.failure.None? && Stopped(s) && i in s.outcomes && s.outcomes[i] == Value(0))
  }

  ghost predicate SameWorker(s: State, t: State)
  {
    t.worker == s.worker && t.failure == s.failure && t.drained == s.drained && t.failedFrom == s.failedFrom
    && t.drainedAt == s.drainedAt && t.outcomes == s.outcomes
  }

  // Nothing outside the worker touches what it has recorded.
  lemma LoopSideShape(s: State, a: Action)
    requires Enabled(s, a) && !WorkerStep(a)
    ensures SameWorker(s, Next(s, a)) && Dealt(Next(s, a)) == Dealt(s) && s.closes <= Next(s, a).closes
  {
    hide Next, Enabled, Ids;
    if a.RunCallback? {
      RunSideShape(s);
    } else {
      TaskShape(s, a);
    }
  }

  lemma RunSideShape(s: State)
    requires Enabled(s, RunCallback)
    ensures SameWorker(s, Next(s, RunCallback)) && Dealt(Next(s, RunCallback)) == Dealt(s)
    ensures Next(s, RunCallback).closes == s.closes
  {
    hide Ids, WorkerNext;
    IdsFirst(s.callbacks);
  }

  lemma TaskShape(s: State, a: Action)
    requires Enabled(s, a) && !WorkerStep(a) && !a.RunCallback?
    ensures SameWorker(s, Next(s, a)) && s.closes <= Next(s, a).closes
    ensures Next(s, a).callbacks == s.callbacks && Next(s, a).retired == s.retired
    ensures Next(s, a).workerError == s.workerError
  {
    hide Ids, WorkerNext;
  }

  lemma LoopSideKeepsWorker(s: State, a: Action)
    requires Enabled(s, a) && !WorkerStep(a) && LoopOk(s) && FailOk(s) && CloseOk(s)
    ensures LoopOk(Next(s, a)) && FailOk(Next(s, a)) && CloseOk(Next(s, a))
  {
    hide Next, Enabled, Ids, Dealt;
    LoopSideShape(s, a);
  }

  // Deciding on a command: which one, how, and what becomes of the worker.
  lemma DecideWorker(s: State, a: Action)
    requires Enabled(s, a) && Decides(a) && Conserved(s)
    ensures Dealt(Next(s, a)) == Dealt(s) + 1 && s.worker.id == Dealt(s) < |s.closes|
    ensures Next(s, a).failure == s.failure && Next(s, a).failedFrom == s.failedFrom
    ensures Next(s, a).drained == s.drained + if a.DrainFail? then {s.worker.id} else {}
    ensures a.DrainFail? <==> s.worker.DrainHolding?
    ensures a.DrainFail? ==> Next(s, a).worker == Draining(s.worker.error)
    ensures !a.DrainFail? ==> s.worker.Holding? && (a.CompleteClose? <==> s.closes[s.worker.id])
    ensures !a.DrainFail? ==> Next(s, a).worker == if a.CompleteClose? then Finishing else Polling
  {
    hide Ids, Conserved, LoopNext;
    Places(s);
    DecideShape(s, a);
  }

  lemma DecideKeepsWorker(s: State, a: Action)
    requires Enabled(s, a) && Decides(a) && Conserved(s) && LoopOk(s) && FailOk(s) && CloseOk(s)
    ensures LoopOk(Next(s, a)) && FailOk(Next(s, a)) && CloseOk(Next(s, a))
  {
    hide Ids, Conserved, Next, Enabled, Dealt;
    DecideWorker(s, a);
    DecideShape(s, a);
  }

  lemma WorkerKeepsDealt(s: State, a: Action)
    requires Enabled(s, a) && WorkerStep(a) && !Decides(a)
    ensures Dealt(Next(s, a)) == Dealt(s) && Next(s, a).closes == s.closes && Next(s, a).outcomes == s.outcomes
    ensures Next(s, a).drained == s.drained
  {
    hide Ids, LoopNext;
    if Announces(a) {
      AnnounceShape(s, a);
    }
  }

  lemma WorkerStepKeepsLoop(s: State, a: Action)
    requires Enabled(s, a) && WorkerStep(a) && !Decides(a) && Conserved(s) && LoopOk(s)
    ensures LoopOk(Next(s, a))
  {
    hide Ids, Conserved, Dealt, LoopNext;
    WorkerKeepsDealt(s, a);
  }

  lemma WorkerStepKeepsFail(s: State, a: Action)
    requires Enabled(s, a) && WorkerStep(a) && !Decides(a) && Conserved(s) && LoopOk(s) && FailOk(s)
    ensures FailOk(Next(s, a))
  {
    hide Ids, Conserved, Dealt, LoopNext;
    WorkerKeepsDealt(s, a);
    Places(s);
  }

  lemma WorkerStepKeepsClose(s: State, a: Action)
    requires Enabled(s, a) && WorkerStep(a) && !Decides(a) && CloseOk(s)
    ensures CloseOk(Next(s, a))
  {
    hide Ids, Dealt, LoopNext;
    WorkerKeepsDealt(s, a);
  }

  lemma WorkerKept(s: State, a: Action)
    requires Enabled(s, a) && Conserved(s) && LoopOk(s) && FailOk(s) && CloseOk(s)
    ensures LoopOk(Next(s, a)) && FailOk(Next(s, a)) && CloseOk(Next(s, a))
  {
    hide Next, Enabled, Conserved, LoopOk, FailOk, CloseOk;
    if !WorkerStep(a) {
      LoopSideKeepsWorker(s, a);
    } else if Decides(a) {
      DecideKeepsWorker(s, a);
    } else {
      WorkerStepKeepsLoop(s, a);
      WorkerStepKeepsFail(s, a);
      WorkerStepKeepsClose(s, a);
    }
  }
}
