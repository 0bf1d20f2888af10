// The error callback, the error token and the message queue of the asyncio
// wrapper.

module AsyncErrors {
  import opened Wrappers
  import opened ClientSpec
  import opened AsyncClient
  import opened AsyncInvariants

  // ---------- the error callback ----------

  predicate Published(s: State)
  {
    s.failure.Some? && (s.worker.Draining? || s.worker.DrainHolding? || Stopped(s))
  }

  // The last n scheduled callbacks fail, with this error, the last n commands
  // dealt with.
  ghost predicate FailuresLast(callbacks: seq<Callback>, n: nat, dealt: nat, error: nat)
  {
    forall j :: 0 <= j < |callbacks| && |callbacks| - n <= j ==>
      callbacks[j].Resolve? && callbacks[j].outcome == Error(error)
      && callbacks[j].id == dealt - (|callbacks| - j)
  }

  ghost predicate NoError(callbacks: seq<Callback>)
  {
    forall j :: 0 <= j < |callbacks| ==> !callbacks[j].PublishError?
  }

  // The error callback is scheduled once, in front of every failure of a
  // pending command and behind everything else; until it runs no such failure
  // has run, and nothing but such failures is left after it has.
  ghost predicate ErrorOk(s: State)
  {
    if !Published(s) then
      s.workerError.None? && NoError(s.callbacks)
    else
      && s.failedFrom <= Dealt(s)
      && FailuresLast(s.callbacks, Dealt(s) - s.failedFrom, Dealt(s), s.failure.value)
      && (s.workerError.Some? ==> s.workerError == s.failure && |s.callbacks| <= Dealt(s) - s.failedFrom)
      && (s.workerError.None? ==> ErrorPending(s))
  }

  ghost predicate ErrorPending(s: State)
    requires s.failure.Some? && s.failedFrom <= Dealt(s)
  {
    var p := |s.callbacks| - 1 - (Dealt(s) - s.failedFrom);
    0 <= p < |s.callbacks| && s.callbacks[p] == PublishError(s.failure.value)
    && NoError(s.callbacks[..p]) && |s.retired| <= s.failedFrom
  }

  lemma TaskKeepsError(s: State, a: Action)
    requires Enabled(s, a) && !WorkerStep(a) && !a.RunCallback? && ErrorOk(s)
    ensures ErrorOk(Next(s, a))
  {
    hide Next, Enabled, Ids, FailuresLast, NoError;
    TaskShape(s, a);
  }

  lemma RunKeepsError(s: State)
    requires Enabled(s, RunCallback) && Conserved(s) && ErrorOk(s)
    ensures ErrorOk(Next(s, RunCallback))
  {
    hide Ids, Dealt, Conserved, WorkerNext;
    var t := Next(s, RunCallback);
    RunSideShape(s);
    RunShape(s);
    assert forall j :: 0 <= j < |t.callbacks| ==> t.callbacks[j] == s.callbacks[j + 1];
    if Published(s) && s.workerError.None? {
      var p := |s.callbacks| - 1 - (Dealt(s) - s.failedFrom);
      if p > 0 {
        assert s.callbacks[..p][0] == s.callbacks[0];
        assert t.callbacks[..p - 1] == s.callbacks[..p][1..];
        if s.callbacks[0].Resolve? {
          RetiredBeforeError(s);
        }
      }
    }
  }

  // With p callbacks in front of the error callback, the first being a
  // command's, that command came before the failures.
  lemma RetiredBeforeError(s: State)
    requires s.callbacks != [] && Conserved(s) && Published(s) && ErrorOk(s) && s.workerError.None?
    requires s.callbacks[0].Resolve?
    ensures |s.retired| < s.failedFrom
  {
    hide Conserved;
    Places(s);
    var n := Dealt(s) - s.failedFrom;
    var p := |s.callbacks| - 1 - n;
    ManyIds(s.callbacks, n, Dealt(s), s.failure.value);
    if p > 0 {
      MoreIds(s.callbacks, n, Dealt(s), s.failure.value);
    }
  }

  lemma {:induction false} ManyIds(callbacks: seq<Callback>, n: nat, dealt: nat, error: nat)
    requires n <= |callbacks| && FailuresLast(callbacks, n, dealt, error)
    ensures n <= |Ids(callbacks)|
  {
    if |callbacks| > n {
      assert forall j :: 0 <= j < |callbacks[1..]| ==> callbacks[1..][j] == callbacks[j + 1];
      ManyIds(callbacks[1..], n, dealt, error);
    } else if n > 0 {
      assert callbacks[0].Resolve?;
      assert forall j :: 0 <= j < |callbacks[1..]| ==> callbacks[1..][j] == callbacks[j + 1];
      ManyIds(callbacks[1..], n - 1, dealt, error);
    }
  }

  lemma MoreIds(callbacks: seq<Callback>, n: nat, dealt: nat, error: nat)
    requires n < |callbacks| && FailuresLast(callbacks, n, dealt, error) && callbacks[0].Resolve?
    ensures n < |Ids(callbacks)|
  {
    assert forall j :: 0 <= j < |callbacks[1..]| ==> callbacks[1..][j] == callbacks[j + 1];
    ManyIds(callbacks[1..], n, dealt, error);
  }

  lemma DecideKeepsError(s: State, a: Action)
    requires Enabled(s, a) && Decides(a) && Conserved(s) && FailOk(s) && LoopOk(s) && ErrorOk(s)
    ensures ErrorOk(Next(s, a))
  {
    hide Ids, Conserved, LoopNext;
    Places(s);
    DecideShape(s, a);
    if a.DrainFail? && s.workerError.None? {
      var p := |s.callbacks| - 1 - (Dealt(s) - s.failedFrom);
      assert Next(s, a).callbacks[..p] == s.callbacks[..p];
    }
  }

  lemma ScheduleErrorKeepsError(s: State)
    requires Enabled(s, ScheduleError) && Conserved(s) && FailOk(s) && LoopOk(s) && ErrorOk(s)
    ensures ErrorOk(Next(s, ScheduleError))
  {
    hide Ids, Conserved, LoopNext;
    Places(s);
    WorkerKeepsDealt(s, ScheduleError);
    assert Next(s, ScheduleError).callbacks[..|s.callbacks|] == s.callbacks;
  }

  // Steps of the worker that neither decide nor publish the error.
  lemma SamePublished(s: State, a: Action)
    requires Enabled(s, a) && WorkerStep(a) && !Decides(a) && !a.ScheduleError? && FailOk(s) && LoopOk(s)
    ensures var t := WorkerNext(s, a);
            && Published(t) == Published(s)
            && (Published(s) ==> t.failure == s.failure && t.failedFrom == s.failedFrom && t.callbacks == s.callbacks)
            && (forall j :: 0 <= j < |t.callbacks| && t.callbacks[j].PublishError? ==>
                  j < |s.callbacks| && t.callbacks[j] == s.callbacks[j])
  {
    hide Ids, Dealt;
  }

  lemma WorkerKeepsError(s: State, a: Action)
    requires Enabled(s, a) && WorkerStep(a) && !Decides(a) && !a.ScheduleError?
    requires FailOk(s) && LoopOk(s) && ErrorOk(s)
    ensures ErrorOk(Next(s, a))
  {
    hide Ids, Dealt, FailuresLast, LoopNext, WorkerNext, Enabled, FailOk, LoopOk;
    WorkerKeepsDealt(s, a);
    WorkerKeepsToken(s, a);
    SamePublished(s, a);
    SameRetired(s, a);
  }

  lemma SameRetired(s: State, a: Action)
    requires Enabled(s, a) && WorkerStep(a)
    ensures WorkerNext(s, a).retired == s.retired
  {
    hide Ids;
  }

  lemma ErrorKept(s: State, a: Action)
    requires Enabled(s, a) && Conserved(s) && FailOk(s) && LoopOk(s) && ErrorOk(s)
    ensures ErrorOk(Next(s, a))
  {
    hide Next, Enabled, Conserved, FailOk, LoopOk, ErrorOk;
    if a.RunCallback? {
      RunKeepsError(s);
    } else if !WorkerStep(a) {
      TaskKeepsError(s, a);
    } else if Decides(a) {
      DecideKeepsError(s, a);
    } else if a.ScheduleError? {
      ScheduleErrorKeepsError(s);
    } else {
      WorkerKeepsError(s, a);
    }
  }

  // ---------- the error token ----------

  // Before the error is published the message queue holds messages only; after
  // it there is one token, last in the queue or in the hand of a recv() that
  // found it alone.
  ghost predicate TokenOk(s: State)
  {
    if s.workerError.None? then
      s.holder.None? && AllMessages(s.messages)
    else if s.holder.Some? then
      s.holder == s.workerError && s.messages == []
    else
      && s.messages != []
      && s.messages[|s.messages| - 1] == WorkerError(s.workerError.value)
      && AllMessages(s.messages[..|s.messages| - 1])
  }

  ghost predicate AllMessages(items: seq<Item>)
  {
    forall k :: 0 <= k < |items| ==> items[k].Msg?
  }

  lemma TakeKeepsToken(s: State, r: nat)
    requires Enabled(s, RecvTake(r)) && TokenOk(s)
    ensures TokenOk(Next(s, RecvTake(r)))
  {
    hide Ids, Dealt, WorkerNext;
    var t := Next(s, RecvTake(r));
    if s.workerError.Some? && |s.messages| > 1 {
      assert s.messages[0] == s.messages[..|s.messages| - 1][0];
      assert t.messages[..|t.messages| - 1] == s.messages[..|s.messages| - 1][1..];
    }
  }

  lemma PutBackKeepsToken(s: State)
    requires Enabled(s, RecvPutBack) && TokenOk(s)
    ensures TokenOk(Next(s, RecvPutBack))
  {
    hide Ids, Dealt, WorkerNext;
  }

  lemma RunKeepsToken(s: State)
    requires Enabled(s, RunCallback) && ErrorOk(s) && TokenOk(s)
    ensures TokenOk(Next(s, RunCallback))
  {
    hide Ids, Dealt, WorkerNext;
    var t := Next(s, RunCallback);
    if s.callbacks[0].PublishError? {
      assert t.messages[..|t.messages| - 1] == s.messages;
    }
  }

  lemma OtherKeepsToken(s: State, a: Action)
    requires Enabled(s, a) && !a.RunCallback? && !a.RecvTake? && !a.RecvPutBack?
    ensures Next(s, a).workerError == s.workerError && Next(s, a).holder == s.holder
    ensures Next(s, a).messages == s.messages && Next(s, a).taken == s.taken
    ensures !a.RecvCall? && !a.RecvCancel? ==> Next(s, a).waiters == s.waiters
  {
    hide Ids, Enabled, WorkerNext, LoopNext;
    if WorkerStep(a) {
      WorkerKeepsToken(s, a);
    } else {
      TaskKeepsToken(s, a);
    }
  }

  lemma WorkerKeepsToken(s: State, a: Action)
    requires Enabled(s, a) && WorkerStep(a)
    ensures var t := WorkerNext(s, a);
            && t.workerError == s.workerError && t.holder == s.holder && t.messages == s.messages
            && t.taken == s.taken && t.waiters == s.waiters
  {
    hide Ids;
  }

  lemma TaskKeepsToken(s: State, a: Action)
    requires Enabled(s, a) && !WorkerStep(a) && !a.RunCallback? && !a.RecvTake? && !a.RecvPutBack?
    ensures var t := LoopNext(s, a);
            && t.workerError == s.workerError && t.holder == s.holder && t.messages == s.messages
            && t.taken == s.taken && (!a.RecvCall? && !a.RecvCancel? ==> t.waiters == s.waiters)
  {
    hide Ids;
  }

  lemma TokenKept(s: State, a: Action)
    requires Enabled(s, a) && ErrorOk(s) && TokenOk(s)
    ensures TokenOk(Next(s, a))
  {
    hide Next, Enabled, ErrorOk;
    if a.RunCallback? {
      RunKeepsToken(s);
    } else if a.RecvTake? {
      TakeKeepsToken(s, a.r);
    } else if a.RecvPutBack? {
      PutBackKeepsToken(s);
    } else {
      OtherKeepsToken(s, a);
    }
  }

  // ---------- the message stream ----------

  // What recv has taken, what waits in the message queue and what is scheduled
  // for it are together what the worker polled, in order.
  ghost predicate StreamOk(s: State)
  {
    s.taken + Fanouts(s.messages) + Posts(s.callbacks) == s.polled
  }

  lemma TakeKeepsStream(s: State, r: nat)
    requires Enabled(s, RecvTake(r)) && StreamOk(s)
    ensures StreamOk(Next(s, RecvTake(r)))
  {
    hide Posts, Ids, WorkerNext, LoopNext;
    TakenOnly(s, r);
  }

  lemma PutBackKeepsStream(s: State)
    requires Enabled(s, RecvPutBack) && StreamOk(s)
    ensures StreamOk(Next(s, RecvPutBack))
  {
    hide Posts, Ids, WorkerNext, Fanouts;
    FanoutsAppend(s.messages, WorkerError(s.holder.value));
  }

  lemma RunKeepsStream(s: State)
    requires Enabled(s, RunCallback) && StreamOk(s)
    ensures StreamOk(Next(s, RunCallback))
  {
    hide Fanouts, Ids, WorkerNext;
    match s.callbacks[0]
    case Post(m) => FanoutsAppend(s.messages, Msg(m));
    case PublishError(e) => FanoutsAppend(s.messages, WorkerError(e));
    case _ =>
  }

  lemma WorkerKeepsStream(s: State, a: Action)
    requires Enabled(s, a) && WorkerStep(a) && StreamOk(s)
    ensures StreamOk(Next(s, a))
  {
    hide Fanouts, Posts, Ids, WorkerNext, LoopNext, Enabled;
    WorkerKeepsToken(s, a);
    Appended(s, a);
    var t := Next(s, a);
    if t.callbacks != s.callbacks {
      PostsAppend(s.callbacks, t.callbacks[|s.callbacks|]);
    }
  }

  // What a step of the worker schedules, if anything: a polled message as a post,
  // and nothing else as one.
  lemma Appended(s: State, a: Action)
    requires Enabled(s, a) && WorkerStep(a)
    ensures var t := WorkerNext(s, a);
            if a.PollOne? then
              t.callbacks == s.callbacks + [Post(a.message)] && t.polled == s.polled + [a.message]
            else
              t.polled == s.polled
              && (t.callbacks == s.callbacks
                  || (|t.callbacks| == |s.callbacks| + 1 && !t.callbacks[|s.callbacks|].Post?
                      && t.callbacks == s.callbacks + [t.callbacks[|s.callbacks|]]))
  {
    hide Ids;
  }

  lemma OtherKeepsStream(s: State, a: Action)
    requires Enabled(s, a) && !WorkerStep(a) && !a.RunCallback? && !a.RecvTake? && !a.RecvPutBack?
    ensures Next(s, a).messages == s.messages && Next(s, a).taken == s.taken && Next(s, a).polled == s.polled
    ensures Next(s, a).callbacks == s.callbacks
  {
    hide Ids, WorkerNext;
  }

  lemma StreamKept(s: State, a: Action)
    requires Enabled(s, a) && StreamOk(s)
    ensures StreamOk(Next(s, a))
  {
    hide Next, Enabled, Fanouts, Posts;
    if a.RunCallback? {
      RunKeepsStream(s);
    } else if a.RecvTake? {
      TakeKeepsStream(s, a.r);
    } else if a.RecvPutBack? {
      PutBackKeepsStream(s);
    } else if WorkerStep(a) {
      WorkerKeepsStream(s, a);
    } else {
      OtherKeepsStream(s, a);
    }
  }
}
