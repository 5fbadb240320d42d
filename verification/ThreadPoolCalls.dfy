/** What becomes of the jobs and the calls: things a user would expect of the pool, each with the exact condition
    under which it holds in every run. */
module ThreadPoolCalls {
  import opened Sums
  import opened Runs
  import opened ThreadPool

  // Whole calls, undisturbed.

  /** The lock is free, nobody sleeps, nobody has stopped the pool. */
  predicate Calm(s: State) {
    s.lock == 1 && !s.q.term && NoWorkerAsleep(s) && NoCallerAsleep(s)
  }

  /** Caller `t` queues `job` and returns. */
  lemma PushRun(s0: State, s: State, t: nat, job: int) returns (s': State)
    requires Reaches(Next, s0, s) && Calm(s) && t < |s.callers| && s.callers[t].Idle? && |s.q.queue| < s.q.max
    ensures Reaches(Next, s0, s') && Calm(s')
    ensures s' == s.(q := s.q.(queue := s.q.queue + [job], log := s.q.log + [job]),
                     callers := s.callers[t := Idle(true)])
  {
    hide Reaches;
    var c := StepCaller(t, 0);
    s' := Go(Next, s0, s, Submit(t, job));
    s' := Go(Next, s0, s', c);
    s' := Go(Next, s0, s', c);
    assert s' == GotoC(s.(lock := 0), t, SCheck(job));
    s' := PushFrom(s0, s, s', t, job);
  }

  lemma PushFrom(s0: State, start: State, s: State, t: nat, job: int) returns (s': State)
    requires Reaches(Next, s0, s) && Calm(start) && t < |start.callers| && |start.q.queue| < start.q.max
    requires s == GotoC(start.(lock := 0), t, SCheck(job))
    ensures Reaches(Next, s0, s') && Calm(s')
    ensures s' == start.(q := start.q.(queue := start.q.queue + [job], log := start.q.log + [job]),
                         callers := start.callers[t := Idle(true)])
  {
    hide Reaches;
    var c := StepCaller(t, 0);
    s' := Go(Next, s0, s, c);
    s' := Go(Next, s0, s', c);
    assert s' == GotoC(start.(lock := 0), t, SPush(job));
    s' := Go(Next, s0, s', c);
    s' := Go(Next, s0, s', c);
    assert s' == GotoC(start.(q := start.q.(queue := start.q.queue + [job], log := start.q.log + [job])), t, SNotify);
    assert NoWorkerAsleep(s');
    s' := Go(Next, s0, s', c);
  }

  /** Worker `w` takes the oldest job and is about to call it. */
  lemma TakeRun(s0: State, s: State, w: nat) returns (s': State)
    requires Reaches(Next, s0, s) && Calm(s) && w < |s.workers| && s.workers[w].WLock? && s.q.queue != []
    ensures Reaches(Next, s0, s') && Calm(s')
    ensures s' == s.(q := s.q.(queue := s.q.queue[1..], taken := s.q.taken + 1),
                     workers := s.workers[w := WRun(s.q.queue[0], s.q.taken)])
  {
    hide Reaches;
    var c := StepWorker(w, 0);
    s' := Go(Next, s0, s, c);
    s' := Go(Next, s0, s', c);
    s' := Go(Next, s0, s', c);
    assert s' == GotoW(s.(lock := 0), w, WTake);
    s' := Go(Next, s0, s', c);
    assert NoCallerAsleep(s');
    s' := Go(Next, s0, s', c);
    assert s' == GotoW(s.(lock := 0, q := s.q.(queue := s.q.queue[1..], taken := s.q.taken + 1)), w,
                       WUnlock(s.q.queue[0], s.q.taken));
    s' := Go(Next, s0, s', c);
  }

  lemma StartRun(max: nat, block: bool, workers: nat, callers: nat) returns (s: State)
    ensures Reachable(max, block, workers, callers, s) && Calm(s) && s == Init(max, block, workers, callers)
  {
    s := Init(max, block, workers, callers);
    ReachesSelf(Next, s);
  }

  // Jobs are called in the order they were pushed.

  /** The i-th call is of the i-th job. */
  predicate InPushOrder(s: State) {
    forall i :: 0 <= i < |s.q.called| ==> s.q.called[i] == i
  }

  /** Nothing can ever be queued. */
  predicate NoJobs(max: nat, callers: nat) { max == 0 || callers == 0 }

  /** One worker calls each job before it takes the next. */
  ghost predicate OneWorkerInOrder(s: State) {
    && InPushOrder(s)
    && (|s.workers| == 0 ==> s.q.called == [] && s.q.taken == 0)
    && (|s.workers| == 1 ==>
          && |s.q.called| == s.q.taken - (if Carries(s.workers[0]) then 1 else 0)
          && (Carries(s.workers[0]) ==> s.workers[0].k == s.q.taken - 1))
  }

  lemma WorkerKeepsOrder(s: State, t: nat, target: nat)
    requires |s.workers| <= 1 && OneWorkerInOrder(s) && Order(s.q) && t < |s.workers|
    ensures OneWorkerInOrder(WorkerStep(s, t, target)) && |WorkerStep(s, t, target).workers| == |s.workers|
  {
    WorkerCarries(s, t, target);
    NotifyNeedsJob(s, t, target);
    hide WorkerStep;
  }

  /** A worker stops carrying its job only by calling it. */
  lemma NotifyNeedsJob(s: State, t: nat, target: nat)
    requires t < |s.workers|
    ensures var s' := WorkerStep(s, t, target);
            |s'.workers| == |s.workers| && (Carries(s.workers[t]) && !Carries(s'.workers[t]) ==> s.workers[t].WRun?)
  {
  }

  lemma NextKeepsOrder(s: State, c: Choice)
    requires |s.workers| <= 1 && OneWorkerInOrder(s) && Order(s.q)
    ensures OneWorkerInOrder(Next(s, c)) && |Next(s, c).workers| == |s.workers|
  {
    hide WorkerStep, CallerStep, Order;
    if c.StepWorker? && c.t < |s.workers| {
      WorkerKeepsOrder(s, c.t, c.target);
    } else if c.StepCaller? && c.t < |s.callers| {
      CallerCarries(s, c.t, c.target);
    }
  }

  /** Where nothing can be queued nothing is logged. */
  lemma NothingLogged(max: nat, block: bool, workers: nat, callers: nat, s: State)
    requires NoJobs(max, callers) && Reachable(max, block, workers, callers, s)
    ensures s.q.log == [] && s.q.taken == 0 && s.q.called == []
    ensures forall t :: 0 <= t < |s.workers| ==> !Carries(s.workers[t])
  {
    var inv := (s: State) => Inv(s) && NoJobs(s.q.max, |s.callers|) && s.q.log == [];
    InitGood(max, block, workers, callers);
    hide Inv, NoJobs;
    assert NoJobs(Init(max, block, workers, callers).q.max, |Init(max, block, workers, callers).callers|);
    forall s: State, c: Choice | inv(s) ensures inv(Next(s, c)) {
      NextKeepsInv(s, c);
      NextLogsNothing(s, c);
      NextKeepsShape(s, c);
    }
    hide Next;
    ReachesKeeps(Next, inv, Init(max, block, workers, callers), s);
    ReachableGood(max, block, workers, callers, s);
    if s.q.called != [] { SomeNumberBelow(s.q.called, s.q.taken); }
  }

  lemma SomeNumberBelow(numbers: seq<nat>, n: nat)
    requires numbers != [] && forall k :: k in numbers ==> k < n
    ensures n > 0
  {
    assert numbers[0] in numbers;
  }

  lemma NextLogsNothing(s: State, c: Choice)
    requires Inv(s) && NoJobs(s.q.max, |s.callers|) && s.q.log == []
    ensures Next(s, c).q.log == []
  {
    if c.StepWorker? && c.t < |s.workers| {
      WorkerCarries(s, c.t, c.target);
      hide Inv, WorkerStep;
    } else if c.StepCaller? && c.t < |s.callers| {
      assert CLocal(s.q, s.callers[c.t]);
      hide Inv, WorkerStep;
    }
  }

  /** Every run calls the jobs in push order exactly if there are not two workers, or never a job. */
  lemma PushOrderIff(max: nat, block: bool, workers: nat, callers: nat)
    ensures (forall s :: Reachable(max, block, workers, callers, s) ==> InPushOrder(s))
            <==> workers <= 1 || NoJobs(max, callers)
  {
    if NoJobs(max, callers) {
      forall s | Reachable(max, block, workers, callers, s) ensures InPushOrder(s) {
        NothingLogged(max, block, workers, callers, s);
      }
    } else if workers <= 1 {
      forall s | Reachable(max, block, workers, callers, s) ensures InPushOrder(s) {
        OneWorkerOrder(max, block, workers, callers, s);
      }
    } else {
      var s := OvertakenRun(max, block, workers, callers);
    }
  }

  lemma OneWorkerOrder(max: nat, block: bool, workers: nat, callers: nat, s: State)
    requires workers <= 1 && Reachable(max, block, workers, callers, s)
    ensures InPushOrder(s)
  {
    InitGood(max, block, workers, callers);
    hide Inv, Next;
    var inv := (s: State) => Inv(s) && |s.workers| <= 1 && OneWorkerInOrder(s);
    forall s: State, c: Choice | inv(s) ensures inv(Next(s, c)) {
      NextKeepsInv(s, c);
      assert Order(s.q) by { OrderOf(s); }
      NextKeepsOrder(s, c);
    }
    ReachesKeeps(Next, inv, Init(max, block, workers, callers), s);
  }

  lemma OrderOf(s: State)
    requires Inv(s)
    ensures Order(s.q)
  {
  }

  /** Two workers take a job each, and the second calls its job first. */
  lemma OvertakenRun(max: nat, block: bool, workers: nat, callers: nat) returns (s: State)
    requires workers >= 2 && !NoJobs(max, callers)
    ensures Reachable(max, block, workers, callers, s) && s.q.called == [1, 0] && !InPushOrder(s)
  {
    var s0 := StartRun(max, block, workers, callers);
    hide Reaches, Next;
    s := PushRun(s0, s0, 0, 7);
    s := TakeRun(s0, s, 0);
    assert s == s0.(q := s0.q.(log := [7], taken := 1), workers := s0.workers[0 := WRun(7, 0)],
                    callers := s0.callers[0 := Idle(true)]);
    s := PushRun(s0, s, 0, 8);
    s := TakeRun(s0, s, 1);
    s := CallRun(s0, s, 1);
    s := CallRun(s0, s, 0);
    assert s.q.called[0] == 1;
  }

  lemma CallRun(s0: State, s: State, w: nat) returns (s': State)
    requires Reaches(Next, s0, s) && w < |s.workers| && s.workers[w].WRun?
    ensures Reaches(Next, s0, s')
    ensures s' == s.(q := s.q.(called := s.q.called + [s.workers[w].k]), workers := s.workers[w := WLock])
  {
    hide Reaches;
    s' := Go(Next, s0, s, StepWorker(w, 0));
  }

  // Calls after termination.

  /** Worker `t` calls job number `k`. */
  function CallsJob(t: nat, k: nat): (State, Choice) -> bool {
    (s: State, c: Choice) => c.StepWorker? && c.t == t && t < |s.workers| && s.workers[t].WRun? && s.workers[t].k == k
  }

  function CarriesJob(t: nat, k: nat): State -> int {
    (s: State) => if t < |s.workers| && Carries(s.workers[t]) && s.workers[t].k == k then 1 else 0
  }

  lemma CarriedIsSpent(s: State, c: Choice, t: nat, k: nat)
    requires Inv(s) && s.q.term && t < |s.workers|
    ensures |Next(s, c).workers| == |s.workers|
    ensures CarriesJob(t, k)(Next(s, c)) + (if CallsJob(t, k)(s, c) then 1 else 0) <= CarriesJob(t, k)(s)
  {
    if c.StepWorker? && c.t < |s.workers| {
      WorkerCarries(s, c.t, c.target);
      assert WLocal(s.q, s.workers[c.t]);
      hide Inv, WorkerStep;
    } else if c.StepCaller? && c.t < |s.callers| {
      CallerCarries(s, c.t, c.target);
      hide Inv, CallerStep;
    }
  }

  /** Once the pool terminates a worker calls no job but the one it has in hand, and that once at most, in every run. */
  lemma OnlyCarriedJobsAreCalled(s: State, sched: seq<Choice>, t: nat, k: nat)
    requires Inv(s) && s.q.term && t < |s.workers|
    ensures Count(Next, CallsJob(t, k), s, sched) <= if Carries(s.workers[t]) && s.workers[t].k == k then 1 else 0
  {
    var inv := (s: State) => Inv(s) && s.q.term && t < |s.workers|;
    var always := (s: State) => true;
    AlwaysTrue(s, sched);
    assert CarriesJob(t, k)(s) == if Carries(s.workers[t]) && s.workers[t].k == k then 1 else 0;
    hide Inv;
    forall s: State, c: Choice | inv(s)
      ensures inv(Next(s, c))
      ensures CarriesJob(t, k)(Next(s, c)) + (if CallsJob(t, k)(s, c) then 1 else 0) <= CarriesJob(t, k)(s)
    {
      NextKeepsInv(s, c);
      NothingAfterTerminate(s, c);
      CarriedIsSpent(s, c, t, k);
    }
    assert forall s: State :: CarriesJob(t, k)(s) >= 0;
    hide Next, CallsJob, CarriesJob;
    EventsBounded(Next, inv, always, CallsJob(t, k), CarriesJob(t, k), s, sched);
  }

  /** No step of any run calls a job once the pool is told to terminate. */
  ghost predicate NoLateCalls(max: nat, block: bool, workers: nat, callers: nat) {
    forall s, c :: Reachable(max, block, workers, callers, s) && s.q.term ==> Next(s, c).q.called == s.q.called
  }

  /** That holds exactly if there is nobody to call a job, or never a job. */
  lemma NoLateCallsIff(max: nat, block: bool, workers: nat, callers: nat)
    ensures NoLateCalls(max, block, workers, callers) <==> workers == 0 || NoJobs(max, callers)
  {
    if workers == 0 || NoJobs(max, callers) {
      forall s, c | Reachable(max, block, workers, callers, s) && s.q.term ensures Next(s, c).q.called == s.q.called {
        ReachableGood(max, block, workers, callers, s);
        if workers > 0 { NothingLogged(max, block, workers, callers, s); }
        hide Reaches, Inv, OneRunEach;
        CallNeedsCarrier(s, c);
      }
    } else {
      var s := LateCallRun(max, block, workers, callers);
      assert Next(s, StepWorker(0, 0)).q.called != s.q.called;
    }
  }

  lemma CallNeedsCarrier(s: State, c: Choice)
    requires forall t :: 0 <= t < |s.workers| ==> !Carries(s.workers[t])
    ensures Next(s, c).q.called == s.q.called
  {
    if c.StepCaller? && c.t < |s.callers| {
      CallerCarries(s, c.t, c.target);
    }
  }

  /** A worker has taken a job, the pool is stopped, and the job is called. */
  lemma LateCallRun(max: nat, block: bool, workers: nat, callers: nat) returns (s: State)
    requires workers > 0 && !NoJobs(max, callers)
    ensures Reachable(max, block, workers, callers, s) && s.q.term && 0 < |s.workers|
    ensures s.q.called == [] && Next(s, StepWorker(0, 0)).q.called == [0]
  {
    var s0 := StartRun(max, block, workers, callers);
    hide Reaches;
    s := PushRun(s0, s0, 0, 7);
    s := TakeRun(s0, s, 0);
    assert s.workers == s0.workers[0 := WRun(7, 0)] && s.callers == s0.callers[0 := Idle(true)] && s.q.called == [];
    s := StopRun(s0, s, 0);
    assert Next(s, StepWorker(0, 0)).q.called == [0];
  }

  lemma StopRun(s0: State, s: State, t: nat) returns (s': State)
    requires Reaches(Next, s0, s) && Calm(s) && t < |s.callers| && s.callers[t].Idle?
    ensures Reaches(Next, s0, s') && s' == s.(q := s.q.(term := true), callers := s.callers[t := XNotEmpty])
  {
    hide Reaches;
    var c := StepCaller(t, 0);
    s' := Go(Next, s0, s, Stop(t));
    s' := Go(Next, s0, s', c);
    s' := Go(Next, s0, s', c);
    s' := Go(Next, s0, s', c);
  }

  // What a result of true says.

  /** Caller `t` pushes its job. */
  function Pushes(t: nat): (State, Choice) -> bool {
    (s: State, c: Choice) => c.StepCaller? && c.t == t && t < |s.callers| && s.callers[t].SPush?
  }

  /** A call of QueueJob by `t` returns true. */
  function ReturnsTrue(t: nat): (State, Choice) -> bool {
    (s: State, c: Choice) =>
      && t < |s.callers| == |Next(s, c).callers|
      && !s.callers[t].Idle? && Next(s, c).callers[t] == Idle(true)
  }

  /** Has pushed and not returned yet. */
  function Unreturned(t: nat): State -> int {
    (s: State) => if t < |s.callers| then COwes(s.callers[t]) else 0
  }

  lemma OthersReturnNothing(s: State, c: Choice, t: nat)
    requires t < |s.callers| && !(c.StepCaller? && c.t == t)
    ensures |Next(s, c).callers| == |s.callers|
    ensures var p, p' := s.callers[t], Next(s, c).callers[t];
            p' == p || p' == Woken(p) || (p.Idle? && (p'.SLock? || p'.XLock?))
  {
    hide WorkerStep, SubmitStep;
    if c.StepWorker? && c.t < |s.workers| {
      WorkerMoves(s, c.t, c.target);
    } else if c.StepCaller? && c.t < |s.callers| {
      SubmitMoves(s, c.t, c.target);
    }
  }

  lemma OwnReturn(s: State, t: nat, target: nat)
    requires t < |s.callers| && CLocal(s.q, s.callers[t]) && !s.q.block
    ensures var s' := CallerStep(s, t, target);
            && |s'.callers| == |s.callers|
            && COwes(s'.callers[t]) == COwes(s.callers[t]) + (if s.callers[t].SPush? then 1 else 0)
                 - if !s.callers[t].Idle? && s'.callers[t] == Idle(true) then 1 else 0
  {
    if AtStop(s.callers[t]) { hide SubmitStep, AllExited; } else { hide StopStep, NotifyWorker, CanNotifyWorker; }
    NotifyWorkerKeepsCallers(s, target);
  }

  lemma NotifyWorkerKeepsCallers(s: State, target: nat)
    ensures NotifyWorker(s, target).callers == s.callers
  {
  }

  lemma PushesBalance(s: State, c: Choice, t: nat)
    requires Inv(s) && !s.q.block && t < |s.callers|
    ensures Unreturned(t)(Next(s, c)) == Unreturned(t)(s) + (if Pushes(t)(s, c) then 1 else 0)
                                         - if ReturnsTrue(t)(s, c) then 1 else 0
  {
    if c.StepCaller? && c.t == t {
      assert CLocal(s.q, s.callers[t]);
      OwnReturn(s, t, c.target);
      hide Inv, CallerStep;
    } else {
      OthersReturnNothing(s, c, t);
      hide Inv, Next;
    }
  }

  /** In every run, of every caller whose calls have all returned, as many returned true as jobs it pushed. */
  ghost predicate TrueMeansQueued(max: nat, block: bool, workers: nat, callers: nat) {
    forall sched: seq<Choice>, t: nat :: t < callers && IdleAfter(max, block, workers, callers, sched, t) ==>
      Count(Next, ReturnsTrue(t), Init(max, block, workers, callers), sched) ==
      Count(Next, Pushes(t), Init(max, block, workers, callers), sched)
  }

  predicate IdleAfter(max: nat, block: bool, workers: nat, callers: nat, sched: seq<Choice>, t: nat) {
    var s := Exec(Next, Init(max, block, workers, callers), sched);
    t < |s.callers| && s.callers[t].Idle?
  }

  /** That holds exactly without m_block_when_full, or without callers. */
  lemma TrueMeansQueuedIff(max: nat, block: bool, workers: nat, callers: nat)
    ensures TrueMeansQueued(max, block, workers, callers) <==> !block || callers == 0
  {
    if !block || callers == 0 {
      forall sched: seq<Choice>, t: nat | t < callers && IdleAfter(max, block, workers, callers, sched, t)
        ensures Count(Next, ReturnsTrue(t), Init(max, block, workers, callers), sched) ==
                Count(Next, Pushes(t), Init(max, block, workers, callers), sched)
      {
        TrueCountsPushes(max, workers, callers, sched, t);
      }
    } else {
      var s := FullRun(max, workers, callers, max);
      FullCallDisagrees(max, workers, callers, s);
    }
  }

  lemma TrueCountsPushes(max: nat, workers: nat, callers: nat, sched: seq<Choice>, t: nat)
    requires t < callers && IdleAfter(max, false, workers, callers, sched, t)
    ensures Count(Next, ReturnsTrue(t), Init(max, false, workers, callers), sched) ==
            Count(Next, Pushes(t), Init(max, false, workers, callers), sched)
  {
    var s0 := Init(max, false, workers, callers);
    InitGood(max, false, workers, callers);
    assert Unreturned(t)(s0) == 0 && Unreturned(t)(Exec(Next, s0, sched)) == 0;
    hide Inv;
    var inv := (s: State) => Inv(s) && !s.q.block && t < |s.callers|;
    forall s: State, c: Choice | inv(s)
      ensures inv(Next(s, c))
      ensures Unreturned(t)(Next(s, c)) == Unreturned(t)(s) + (if Pushes(t)(s, c) then 1 else 0)
                                           - if ReturnsTrue(t)(s, c) then 1 else 0
    {
      NextKeepsInv(s, c);
      NextKeepsShape(s, c);
      PushesBalance(s, c, t);
    }
    hide Next, Pushes, ReturnsTrue, Unreturned;
    EventsBalanced(Next, inv, Pushes(t), ReturnsTrue(t), Unreturned(t), s0, sched);
  }

  // Every call of QueueJob settles its own job, and its result tells how.

  datatype Outcome =
    | Pushed(job: int)
    | DroppedFull(job: int)     // the queue was full and m_block_when_full set
    | DroppedStopped(job: int)  // the pool was told to terminate

  function JobOf(o: Outcome): int { o.job }

  function ResultOf(o: Outcome): bool { !o.DroppedStopped? }

  /** The job of the call that has not been settled, if any. */
  function UnsettledAt(p: Caller): Option<int> {
    if p.SLock? || p.SFull? || p.SCheck? || p.SSleep? || p.SAsleep? || p.SRelock? || p.STerm? || p.SPush?
    then Some(p.job) else None
  }

  /** The result of the call that has been settled and has not returned, if any. */
  function DueAt(p: Caller): Option<bool> {
    if p.SUnlockFull? || p.SUnlock? || p.SNotify? then Some(true)
    else if p.SUnlockFalse? then Some(false)
    else None
  }

  /** The jobs that caller `t` submits. */
  function Submitted(t: nat): (State, Choice) -> Option<int> {
    (s: State, c: Choice) =>
      if c.Submit? && c.t == t && t < |s.callers| && s.callers[t].Idle? then Some(c.job) else None
  }

  /** What caller `t` does with its job: it pushes it, or gives it up for a reason that holds at that step. */
  function Settles(t: nat): (State, Choice) -> Option<Outcome> {
    (s: State, c: Choice) =>
      var s' := Next(s, c);
      if !c.StepCaller? || c.t != t || t >= |s.callers| || t >= |s'.callers| then None
      else if |s.q.log| < |s'.q.log| then Some(Pushed(s'.q.log[|s.q.log|]))
      else if UnsettledAt(s.callers[t]).None? || UnsettledAt(s'.callers[t]).Some? then None
      else if s.callers[t].SFull? && s.q.block && |s.q.queue| == s.q.max then Some(DroppedFull(s.callers[t].job))
      else if s.q.term then Some(DroppedStopped(UnsettledAt(s.callers[t]).value))
      else None
  }

  /** What the calls of caller `t` return. */
  function Results(t: nat): (State, Choice) -> Option<bool> {
    (s: State, c: Choice) =>
      var s' := Next(s, c);
      if t < |s.callers| && t < |s'.callers| && !s.callers[t].Idle? && s'.callers[t].Idle?
      then Some(s'.callers[t].result) else None
  }

  function Unsettled(t: nat): State -> Option<int> {
    (s: State) => if t < |s.callers| then UnsettledAt(s.callers[t]) else None
  }

  function Due(t: nat): State -> Option<bool> {
    (s: State) => if t < |s.callers| then DueAt(s.callers[t]) else None
  }

  lemma OwnSettles(s: State, t: nat, target: nat)
    requires t < |s.callers|
    ensures var s', c := CallerStep(s, t, target), StepCaller(t, target);
            && |s'.callers| == |s.callers|
            && Passes(UnsettledAt(s.callers[t]), None, MapOption(JobOf, Settles(t)(s, c)), UnsettledAt(s'.callers[t]))
  {
    if AtStop(s.callers[t]) { hide SubmitStep, AllExited; } else { hide StopStep, NotifyWorker, CanNotifyWorker; }
    NotifyWorkerKeepsCallers(s, target);
    NotifyKeepsJobs(s, target);
  }

  lemma OwnResults(s: State, t: nat, target: nat)
    requires t < |s.callers|
    ensures var s', c := CallerStep(s, t, target), StepCaller(t, target);
            && |s'.callers| == |s.callers|
            && Passes(DueAt(s.callers[t]), MapOption(ResultOf, Settles(t)(s, c)), Results(t)(s, c),
                      DueAt(s'.callers[t]))
  {
    if AtStop(s.callers[t]) { hide SubmitStep, AllExited; } else { hide StopStep, NotifyWorker, CanNotifyWorker; }
    NotifyWorkerKeepsCallers(s, target);
    NotifyKeepsJobs(s, target);
  }

  lemma NotifyKeepsJobs(s: State, target: nat)
    ensures NotifyWorker(s, target).q == s.q
  {
  }

  lemma NextSettles(s: State, c: Choice, t: nat)
    ensures Passes(Unsettled(t)(s), Submitted(t)(s, c), MapOption(JobOf, Settles(t)(s, c)), Unsettled(t)(Next(s, c)))
    ensures Passes(Due(t)(s), MapOption(ResultOf, Settles(t)(s, c)), Results(t)(s, c), Due(t)(Next(s, c)))
  {
    if t < |s.callers| {
      if c.StepCaller? && c.t == t {
        OwnSettles(s, t, c.target);
        OwnResults(s, t, c.target);
        hide CallerStep, Settles, Results, UnsettledAt, DueAt;
      } else if c.Submit? && c.t == t {
      } else {
        OthersReturnNothing(s, c, t);
        assert !c.Submit? || c.t != t;
        hide Next;
      }
    }
  }

  /** In every run each caller's jobs are settled one by one in the order submitted, each once: pushed as they were
      submitted, or dropped because the queue is full and m_block_when_full set, or because the pool is stopped.  The
      results tell that in the same order: true for the first two, false for the third. */
  lemma JobsAreSettled(max: nat, block: bool, workers: nat, callers: nat, sched: seq<Choice>, t: nat)
    ensures var s0 := Init(max, block, workers, callers);
            var s, done := Exec(Next, s0, sched), Collect(Next, Settles(t), s0, sched);
            && Collect(Next, Submitted(t), s0, sched) == Map(JobOf, done) + Listed(Unsettled(t)(s))
            && Map(ResultOf, done) == Collect(Next, Results(t), s0, sched) + Listed(Due(t)(s))
  {
    var s0, all := Init(max, block, workers, callers), (s: State) => true;
    forall s: State, c: Choice
      ensures Passes(Unsettled(t)(s), Submitted(t)(s, c), MapOption(JobOf, Settles(t)(s, c)),
                     Unsettled(t)(Next(s, c)))
      ensures Passes(Due(t)(s), MapOption(ResultOf, Settles(t)(s, c)), Results(t)(s, c), Due(t)(Next(s, c)))
    {
      NextSettles(s, c, t);
    }
    hide Next;
    CallsTakeEffect(Next, all, Submitted(t), Settles(t), Results(t), JobOf, ResultOf, Unsettled(t), Due(t), s0, sched);
  }

  // What Stop promises when it returns.

  ghost predicate StoppedMeansExited(s: State) {
    forall t :: 0 <= t < |s.callers| && s.callers[t].XDone? ==> AllExited(s)
  }

  lemma SubmitTakesNothing(s: State, t: nat, target: nat)
    requires t < |s.callers| && !AtStop(s.callers[t])
    ensures var s' := SubmitStep(s, t, target);
            && s'.q.called == s.q.called && s'.q.taken == s.q.taken
            && |s'.callers| == |s.callers| && !s'.callers[t].XDone?
  {
  }

  lemma NextKeepsExited(s: State, c: Choice)
    requires StoppedMeansExited(s)
    ensures StoppedMeansExited(Next(s, c))
  {
    hide SubmitStep;
    if c.StepCaller? && c.t < |s.callers| && !AtStop(s.callers[c.t]) {
      SubmitMoves(s, c.t, c.target);
      SubmitTakesNothing(s, c.t, c.target);
    }
  }

  /** Once Stop has returned every worker has left, and in no run is a job taken or called any more. */
  lemma NothingAfterStop(max: nat, block: bool, workers: nat, callers: nat, s: State, t: nat, sched: seq<Choice>)
    requires Reachable(max, block, workers, callers, s) && t < |s.callers| && s.callers[t].XDone?
    ensures AllExited(s)
    ensures var s' := Exec(Next, s, sched); AllExited(s') && s'.q.called == s.q.called && s'.q.taken == s.q.taken
  {
    var s0 := Init(max, block, workers, callers);
    forall s: State, c: Choice | StoppedMeansExited(s) ensures StoppedMeansExited(Next(s, c)) {
      NextKeepsExited(s, c);
    }
    ReachesKeeps(Next, StoppedMeansExited, s0, s);
    var inv := (s': State) => AllExited(s') && s'.q.called == s.q.called && s'.q.taken == s.q.taken;
    forall s': State, c: Choice | inv(s') ensures inv(Next(s', c)) {
      ExitedStay(s', c);
    }
    ExecKeeps(Next, inv, s, sched);
  }

  lemma ExitedStay(s: State, c: Choice)
    requires AllExited(s)
    ensures var s' := Next(s, c); AllExited(s') && s'.q.called == s.q.called && s'.q.taken == s.q.taken
  {
    hide SubmitStep;
    if c.StepCaller? && c.t < |s.callers| && !AtStop(s.callers[c.t]) {
      SubmitMoves(s, c.t, c.target);
      SubmitTakesNothing(s, c.t, c.target);
    }
  }

  /** Caller 0 can fill the queue of a pool whose workers do nothing. */
  lemma {:induction false} FullRun(max: nat, workers: nat, callers: nat, k: nat) returns (s: State)
    requires callers > 0 && k <= max
    ensures Reachable(max, true, workers, callers, s) && Calm(s) && |s.callers| == callers && s.callers[0].Idle?
    ensures |s.q.queue| == k && s.q.max == max && s.q.block
  {
    if k == 0 {
      s := StartRun(max, true, workers, callers);
    } else {
      s := FullRun(max, workers, callers, k - 1);
      s := PushRun(Init(max, true, workers, callers), s, 0, 7);
    }
  }

  function FullCall(): seq<Choice> {
    [Submit(0, 7), StepCaller(0, 0), StepCaller(0, 0), StepCaller(0, 0)]
  }

  /** With m_block_when_full a call that finds the queue full returns true and pushes nothing. */
  lemma FullQueueSaysTrue(s: State)
    requires Calm(s) && s.q.block && |s.q.queue| == s.q.max && |s.callers| > 0 && s.callers[0].Idle?
    ensures Exec(Next, s, FullCall()) == s.(callers := s.callers[0 := Idle(true)])
    ensures Count(Next, ReturnsTrue(0), s, FullCall()) == 1 && Count(Next, Pushes(0), s, FullCall()) == 0
  {
    var c := StepCaller(0, 0);
    var s1 := QuietStep(s, Submit(0, 7));
    assert s1 == GotoC(s, 0, SLock(7));
    var s2 := QuietStep(s1, c);
    assert s2 == GotoC(s.(lock := 0), 0, SFull(7));
    var s3 := QuietStep(s2, c);
    assert s3 == GotoC(s.(lock := 0), 0, SUnlockFull);
    var s4 := s.(callers := s.callers[0 := Idle(true)]);
    assert Next(s3, c) == s4;
    assert FullCall()[1..] == [c, c, c] && [c, c, c][1..] == [c, c] && [c, c][1..] == [c] && [c][1..] == [];
    hide Next, Calm, Pushes, ReturnsTrue;
    LastStep(s3, s4, c);
    assert Exec(Next, s2, [c, c]) == s4 && Count(Next, Pushes(0), s2, [c, c]) == 0;
    assert Count(Next, ReturnsTrue(0), s2, [c, c]) == 1;
    assert Exec(Next, s1, [c, c, c]) == s4 && Count(Next, Pushes(0), s1, [c, c, c]) == 0;
    assert Count(Next, ReturnsTrue(0), s1, [c, c, c]) == 1;
  }

  /** A step of caller 0 on its way. */
  lemma QuietStep(s: State, c: Choice) returns (s': State)
    requires |s.callers| > 0 && (s.callers[0].Idle? || s.callers[0].SLock? || s.callers[0].SFull?)
    requires c == Submit(0, 7) || c == StepCaller(0, 0)
    ensures s' == Next(s, c) && !ReturnsTrue(0)(s, c) && !Pushes(0)(s, c)
  {
    s' := Next(s, c);
  }

  lemma LastStep(s: State, s': State, c: Choice)
    requires Next(s, c) == s' && |s.callers| == |s'.callers| > 0 && s.callers[0].SUnlockFull?
               && s'.callers[0] == Idle(true)
    ensures Exec(Next, s, [c]) == s'
    ensures Count(Next, ReturnsTrue(0), s, [c]) == 1 && Count(Next, Pushes(0), s, [c]) == 0
  {
    assert [c][1..] == [];
    assert Exec(Next, s', []) == s';
  }

  lemma FullCallDisagrees(max: nat, workers: nat, callers: nat, s: State)
    requires callers > 0 && Reachable(max, true, workers, callers, s) && Calm(s) && s.q.block && |s.q.queue| == s.q.max
    requires |s.callers| == callers && s.callers[0].Idle?
    ensures !TrueMeansQueued(max, true, workers, callers)
  {
    var s0 := Init(max, true, workers, callers);
    var sched :| Exec(Next, s0, sched) == s;
    FullQueueSaysTrue(s);
    hide Next, Calm;
    RunsAppend(Next, (s: State) => true, ReturnsTrue(0), s0, sched, FullCall());
    RunsAppend(Next, (s: State) => true, Pushes(0), s0, sched, FullCall());
    hide FullCall, Count, Exec;
    assert IdleAfter(max, true, workers, callers, sched, 0);
    assert IdleAfter(max, true, workers, callers, sched + FullCall(), 0);
  }

  // Whether a job that was accepted is called.

  predicate Carried(s: State, k: nat) {
    exists t :: 0 <= t < |s.workers| && Carries(s.workers[t]) && s.workers[t].k == k
  }

  /** Every job taken has been called or is carried by a worker. */
  ghost predicate TakenAccounted(s: State) {
    forall k: nat :: k < s.q.taken ==> k in s.q.called || Carried(s, k)
  }

  lemma WorkerAccounts(s: State, t: nat, target: nat, k: nat)
    requires t < |s.workers| && Order(s.q) && k < WorkerStep(s, t, target).q.taken
    requires k < s.q.taken ==> k in s.q.called || Carried(s, k)
    ensures k in WorkerStep(s, t, target).q.called || Carried(WorkerStep(s, t, target), k)
  {
    var s' := WorkerStep(s, t, target);
    WorkerCarries(s, t, target);
    NotifyNeedsJob(s, t, target);
    hide WorkerStep;
    if k == s.q.taken {
      assert Carries(s'.workers[t]) && s'.workers[t].k == k;
    } else if k !in s.q.called {
      var u :| 0 <= u < |s.workers| && Carries(s.workers[u]) && s.workers[u].k == k;
      if u == t && s.workers[t].WRun? {
        assert s'.q.called[|s.q.called|] == k;
      } else {
        assert Carries(s'.workers[u]) && s'.workers[u].k == k;
      }
    }
  }

  lemma NextAccounts(s: State, c: Choice)
    requires Order(s.q) && TakenAccounted(s)
    ensures TakenAccounted(Next(s, c))
  {
    hide WorkerStep, CallerStep, Order;
    var s' := Next(s, c);
    if c.StepWorker? && c.t < |s.workers| {
      forall k: nat | k < s'.q.taken ensures k in s'.q.called || Carried(s', k) {
        WorkerAccounts(s, c.t, c.target, k);
      }
    } else {
      CarriersStay(s, c);
      hide Next;
      forall k: nat | k < s'.q.taken ensures k in s'.q.called || Carried(s', k) {
        if k !in s.q.called {
          var u :| 0 <= u < |s.workers| && Carries(s.workers[u]) && s.workers[u].k == k;
          assert Carries(s'.workers[u]) && s'.workers[u].k == k;
        }
      }
    }
  }

  lemma CarriersStay(s: State, c: Choice)
    requires !c.StepWorker? || c.t >= |s.workers|
    ensures var s' := Next(s, c);
            && s'.q.taken == s.q.taken && s'.q.called == s.q.called && |s'.workers| == |s.workers|
            && forall u :: 0 <= u < |s.workers| && Carries(s.workers[u]) ==> s'.workers[u] == s.workers[u]
  {
    hide CallerStep;
    if c.StepCaller? && c.t < |s.callers| {
      CallerCarries(s, c.t, c.target);
    }
  }

  lemma ReachableAccounts(max: nat, block: bool, workers: nat, callers: nat, s: State)
    requires Reachable(max, block, workers, callers, s)
    ensures TakenAccounted(s)
  {
    InitGood(max, block, workers, callers);
    assert TakenAccounted(Init(max, block, workers, callers));
    hide Inv, Next, TakenAccounted;
    var inv := (s: State) => Inv(s) && TakenAccounted(s);
    forall s: State, c: Choice | inv(s) ensures inv(Next(s, c)) {
      NextKeepsInv(s, c);
      OrderOf(s);
      NextAccounts(s, c);
    }
    ReachesKeeps(Next, inv, Init(max, block, workers, callers), s);
  }

  /** Every job that was accepted has been called. */
  ghost predicate AllCalled(s: State) {
    forall k: nat :: k < |s.q.log| ==> k in s.q.called
  }

  /** When nothing is under way, all accepted jobs have been called exactly if none is left in the queue. */
  lemma AllCalledIff(max: nat, block: bool, workers: nat, callers: nat, s: State)
    requires Reachable(max, block, workers, callers, s) && Resting(s)
    ensures AllCalled(s) <==> s.q.queue == []
  {
    ReachableGood(max, block, workers, callers, s);
    ReachableAccounts(max, block, workers, callers, s);
    OrderOf(s);
    assert |s.q.queue| == |s.q.log| - s.q.taken;
    hide Inv;
    if s.q.queue != [] && AllCalled(s) {
      NotCalledYet(s, s.q.taken);
    }
  }

  lemma NotCalledYet(s: State, k: nat)
    requires OneRunEach(s) && s.q.taken <= k
    ensures k !in s.q.called
  {
  }

  /** In every run that comes to rest, and is not stopped unless `stops`, all accepted jobs have been called. */
  ghost predicate AcceptedAreCalled(max: nat, block: bool, workers: nat, callers: nat, stops: bool) {
    forall s :: Reachable(max, block, workers, callers, s) && Resting(s) && (s.q.term ==> stops) ==> AllCalled(s)
  }

  /** That holds exactly of pools that nobody stops and that have a worker, and of pools that never have a job:
      what is queued when the pool stops is dropped, though QueueJob returned true. */
  lemma AcceptedAreCalledIff(max: nat, block: bool, workers: nat, callers: nat, stops: bool)
    ensures AcceptedAreCalled(max, block, workers, callers, stops)
            <==> NoJobs(max, callers) || (workers > 0 && !stops)
  {
    if NoJobs(max, callers) {
      forall s | Reachable(max, block, workers, callers, s) && Resting(s) ensures AllCalled(s) {
        NothingLogged(max, block, workers, callers, s);
      }
    } else if workers > 0 && !stops {
      forall s | Reachable(max, block, workers, callers, s) && Resting(s) && !s.q.term ensures AllCalled(s) {
        ReachableGood(max, block, workers, callers, s);
        assert WLocal(s.q, s.workers[0]);
        SleepersAreDue(max, block, workers, callers, s);
        AllCalledIff(max, block, workers, callers, s);
      }
    } else if workers == 0 {
      var s := UnservedRun(max, block, callers);
    } else {
      var s := DroppedRun(max, block, workers, callers);
    }
  }

  /** Without workers a job stays in the queue. */
  lemma UnservedRun(max: nat, block: bool, callers: nat) returns (s: State)
    requires !NoJobs(max, callers)
    ensures Reachable(max, block, 0, callers, s) && Resting(s) && !s.q.term && !AllCalled(s)
  {
    var s0 := StartRun(max, block, 0, callers);
    hide Reaches, Next;
    s := PushRun(s0, s0, 0, 7);
    assert 0 < |s.q.log| && 0 !in s.q.called;
  }

  /** A job is queued, the call returns true, the pool is stopped, the workers leave, and Stop joins them. */
  lemma DroppedRun(max: nat, block: bool, workers: nat, callers: nat) returns (s: State)
    requires !NoJobs(max, callers)
    ensures Reachable(max, block, workers, callers, s) && Resting(s) && s.q.term && !AllCalled(s)
  {
    var s0 := StartRun(max, block, workers, callers);
    hide Reaches;
    s := PushRun(s0, s0, 0, 7);
    s := StopRun(s0, s, 0);
    s := TellRun(s0, s, 0);
    s := LeaveRun(s0, s, workers);
    s := Go(Next, s0, s, StepCaller(0, 0));
    assert s.callers == s0.callers[0 := XDone];
    assert 0 < |s.q.log| && 0 !in s.q.called;
  }

  /** The two notifications, with nobody asleep. */
  lemma TellRun(s0: State, s: State, t: nat) returns (s': State)
    requires Reaches(Next, s0, s) && NoWorkerAsleep(s) && NoCallerAsleep(s) && t < |s.callers|
               && s.callers[t].XNotEmpty?
    ensures Reaches(Next, s0, s')
    ensures s' == s.(q := s.q.(toldWorkers := true, toldCallers := true), callers := s.callers[t := XJoin])
  {
    hide Reaches;
    s' := Go(Next, s0, s, StepCaller(t, 0));
    assert s'.workers == s.workers;
    assert s'.callers == s.callers[t := XNotFull];
    s' := Go(Next, s0, s', StepCaller(t, 0));
    assert s'.callers == s.callers[t := XJoin];
  }

  /** The first `k` workers see that the pool terminates, and leave. */
  lemma {:induction false} LeaveRun(s0: State, s: State, k: nat) returns (s': State)
    requires Reaches(Next, s0, s) && s.lock == 1 && s.q.term && k <= |s.workers|
    requires forall t :: 0 <= t < |s.workers| ==> s.workers[t].WLock?
    ensures Reaches(Next, s0, s') && s' == s.(workers := s'.workers) && |s'.workers| == |s.workers|
    ensures forall t :: 0 <= t < |s.workers| ==> s'.workers[t] == if t < k then WExit else WLock
  {
    hide Reaches;
    if k == 0 {
      s' := s;
    } else {
      s' := LeaveRun(s0, s, k - 1);
      var w := s'.workers;
      var c := StepWorker(k - 1, 0);
      s' := Go(Next, s0, s', c);
      s' := Go(Next, s0, s', c);
      assert s' == s.(lock := 0, workers := w[k - 1 := WTerm]);
      s' := Go(Next, s0, s', c);
      s' := Go(Next, s0, s', c);
      assert s' == s.(workers := w[k - 1 := WExit]);
    }
  }
}
