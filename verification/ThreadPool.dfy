/** The pool: worker threads that take jobs from a bounded queue, and callers that submit jobs or stop the pool.
    `notify_one` wakes any one sleeper; sleepers may also wake for no reason. */
module ThreadPool {
  import opened Sums
  import opened Runs

  /** A thread in ThreadLoop.  `k` numbers the jobs taken from the queue. */
  datatype Worker =
    | WLock                       // next: lock
    | WCheck                      // next: the wait's predicate
    | WSleep                      // next: unlock and sleep in one step
    | WAsleep
    | WRelock                     // woken; next: take the lock again
    | WTerm                       // next: if m_should_terminate return
    | WTake                       // next: front and pop
    | WNotify(job: int, k: nat)   // next: m_queue_not_full.notify_one
    | WUnlock(job: int, k: nat)   // next: unlock
    | WRun(job: int, k: nat)      // next: job()
    | WUnlockExit                 // next: unlock, return
    | WExit

  /** A thread in QueueJob or Stop, or in neither. */
  datatype Caller =
    | Idle(result: bool)          // what the last call of QueueJob returned
    | SLock(job: int)             // QueueJob; next: lock
    | SFull(job: int)             // next: the test for a full queue with m_block_when_full
    | SUnlockFull                 // next: unlock, return -1, which is true
    | SCheck(job: int)            // next: the wait's predicate
    | SSleep(job: int)            // next: unlock and sleep in one step
    | SAsleep(job: int)
    | SRelock(job: int)           // woken; next: take the lock again
    | STerm(job: int)             // next: if m_should_terminate return false
    | SUnlockFalse                // next: unlock, return false
    | SPush(job: int)             // next: push
    | SUnlock                     // next: unlock
    | SNotify                     // next: m_queue_not_empty.notify_one, return true
    | XLock                       // Stop; next: lock
    | XSet                        // next: m_should_terminate = true
    | XUnlock                     // next: unlock
    | XNotEmpty                   // next: m_queue_not_empty.notify_all
    | XNotFull                    // next: m_queue_not_full.notify_all
    | XJoin                       // next: join all workers
    | XDone

  /** `log` lists the jobs pushed so far, `taken` counts those popped, `called` lists the numbers of those called;
      `toldWorkers` and `toldCallers` record the notify_all calls. */
  datatype Jobs = Jobs(
    max: nat, block: bool, queue: seq<int>, term: bool,
    log: seq<int>, taken: nat, called: seq<nat>, toldWorkers: bool, toldCallers: bool)

  datatype State = State(q: Jobs, lock: nat, workers: seq<Worker>, callers: seq<Caller>)

  /** `target` is the sleeper that a notify_one wakes. */
  datatype Choice =
    | Submit(t: nat, job: int)
    | Stop(t: nat)
    | StepWorker(t: nat, target: nat)
    | StepCaller(t: nat, target: nat)
    | WakeWorker(t: nat)
    | WakeCaller(t: nat)

  function Init(max: nat, block: bool, workers: nat, callers: nat): State {
    State(Jobs(max, block, [], false, [], 0, [], false, false), 1,
          seq(workers, _ => WLock), seq(callers, _ => Idle(false)))
  }

  function GotoW(s: State, t: nat, p: Worker): State
    requires t < |s.workers|
  {
    s.(workers := s.workers[t := p])
  }

  function GotoC(s: State, t: nat, p: Caller): State
    requires t < |s.callers|
  {
    s.(callers := s.callers[t := p])
  }

  function Next(s: State, c: Choice): State {
    match c
    case Submit(t, job) => if t < |s.callers| && s.callers[t].Idle? then GotoC(s, t, SLock(job)) else s
    case Stop(t) => if t < |s.callers| && s.callers[t].Idle? then GotoC(s, t, XLock) else s
    case StepWorker(t, target) => if t < |s.workers| then WorkerStep(s, t, target) else s
    case StepCaller(t, target) => if t < |s.callers| then CallerStep(s, t, target) else s
    case WakeWorker(t) => if t < |s.workers| && s.workers[t].WAsleep? then GotoW(s, t, WRelock) else s
    case WakeCaller(t) => if t < |s.callers| && s.callers[t].SAsleep? then GotoC(s, t, Woken(s.callers[t])) else s
  }

  function Woken(p: Caller): Caller {
    if p.SAsleep? then SRelock(p.job) else p
  }

  predicate NoWorkerAsleep(s: State) { forall u :: 0 <= u < |s.workers| ==> !s.workers[u].WAsleep? }

  predicate NoCallerAsleep(s: State) { forall u :: 0 <= u < |s.callers| ==> !s.callers[u].SAsleep? }

  /** One sleeping submitter wakes, if there is any; `target` says which. */
  predicate CanNotifyCaller(s: State, target: nat) {
    NoCallerAsleep(s) || (target < |s.callers| && s.callers[target].SAsleep?)
  }

  function NotifyCaller(s: State, target: nat): State {
    if target < |s.callers| && s.callers[target].SAsleep? then GotoC(s, target, Woken(s.callers[target])) else s
  }

  predicate CanNotifyWorker(s: State, target: nat) {
    NoWorkerAsleep(s) || (target < |s.workers| && s.workers[target].WAsleep?)
  }

  function NotifyWorker(s: State, target: nat): State {
    if target < |s.workers| && s.workers[target].WAsleep? then GotoW(s, target, WRelock) else s
  }

  function WorkerStep(s: State, t: nat, target: nat): State
    requires t < |s.workers|
  {
    match s.workers[t]
    case WLock => if s.lock == 0 then s else GotoW(s.(lock := s.lock - 1), t, WCheck)
    case WCheck => GotoW(s, t, if s.q.queue != [] || s.q.term then WTerm else WSleep)
    case WSleep => GotoW(s.(lock := s.lock + 1), t, WAsleep)
    case WAsleep => s
    case WRelock => if s.lock == 0 then s else GotoW(s.(lock := s.lock - 1), t, WCheck)
    case WTerm => GotoW(s, t, if s.q.term then WUnlockExit else WTake)
    case WTake =>
      if s.q.queue == [] then s
      else GotoW(s.(q := s.q.(queue := s.q.queue[1..], taken := s.q.taken + 1)), t, WNotify(s.q.queue[0], s.q.taken))
    case WNotify(job, k) => if CanNotifyCaller(s, target) then GotoW(NotifyCaller(s, target), t, WUnlock(job, k)) else s
    case WUnlock(job, k) => GotoW(s.(lock := s.lock + 1), t, WRun(job, k))
    case WRun(job, k) => GotoW(s.(q := s.q.(called := s.q.called + [k])), t, WLock)
    case WUnlockExit => GotoW(s.(lock := s.lock + 1), t, WExit)
    case WExit => s
  }

  function CallerStep(s: State, t: nat, target: nat): State
    requires t < |s.callers|
  {
    if AtStop(s.callers[t]) then StopStep(s, t) else SubmitStep(s, t, target)
  }

  predicate AtStop(p: Caller) {
    p.XLock? || p.XSet? || p.XUnlock? || p.XNotEmpty? || p.XNotFull? || p.XJoin? || p.XDone?
  }

  function SubmitStep(s: State, t: nat, target: nat): State
    requires t < |s.callers|
  {
    match s.callers[t]
    case SLock(job) => if s.lock == 0 then s else GotoC(s.(lock := s.lock - 1), t, SFull(job))
    case SFull(job) => GotoC(s, t, if |s.q.queue| == s.q.max && s.q.block then SUnlockFull else SCheck(job))
    case SUnlockFull => GotoC(s.(lock := s.lock + 1), t, Idle(true))
    case SCheck(job) => GotoC(s, t, if |s.q.queue| < s.q.max || s.q.term then STerm(job) else SSleep(job))
    case SSleep(job) => GotoC(s.(lock := s.lock + 1), t, SAsleep(job))
    case SRelock(job) => if s.lock == 0 then s else GotoC(s.(lock := s.lock - 1), t, SCheck(job))
    case STerm(job) => GotoC(s, t, if s.q.term then SUnlockFalse else SPush(job))
    case SUnlockFalse => GotoC(s.(lock := s.lock + 1), t, Idle(false))
    case SPush(job) => GotoC(s.(q := s.q.(queue := s.q.queue + [job], log := s.q.log + [job])), t, SUnlock)
    case SUnlock => GotoC(s.(lock := s.lock + 1), t, SNotify)
    case SNotify => if CanNotifyWorker(s, target) then GotoC(NotifyWorker(s, target), t, Idle(true)) else s
    case _ => s
  }

  function WakeWorkers(s: State): State {
    s.(workers := seq(|s.workers|, u requires 0 <= u < |s.workers| =>
                    if s.workers[u].WAsleep? then WRelock else s.workers[u]),
      q := s.q.(toldWorkers := true))
  }

  function WakeCallers(s: State): State {
    s.(callers := seq(|s.callers|, u requires 0 <= u < |s.callers| => Woken(s.callers[u])),
      q := s.q.(toldCallers := true))
  }

  predicate AllExited(s: State) {
    forall u :: 0 <= u < |s.workers| ==> s.workers[u].WExit?
  }

  function StopStep(s: State, t: nat): State
    requires t < |s.callers|
  {
    match s.callers[t]
    case XLock => if s.lock == 0 then s else GotoC(s.(lock := s.lock - 1), t, XSet)
    case XSet => GotoC(s.(q := s.q.(term := true)), t, XUnlock)
    case XUnlock => GotoC(s.(lock := s.lock + 1), t, XNotEmpty)
    case XNotEmpty => GotoC(WakeWorkers(s), t, XNotFull)
    case XNotFull => GotoC(WakeCallers(s), t, XJoin)
    case XJoin => if AllExited(s) then GotoC(s, t, XDone) else s
    case _ => s
  }

  // Regions.

  function WHolds(p: Worker): int {
    if p.WCheck? || p.WSleep? || p.WTerm? || p.WTake? || p.WNotify? || p.WUnlock? || p.WUnlockExit? then 1 else 0
  }

  function CHolds(p: Caller): int {
    if p.SFull? || p.SUnlockFull? || p.SCheck? || p.SSleep? || p.STerm? || p.SUnlockFalse? || p.SPush? || p.SUnlock?
       || p.XSet? || p.XUnlock? then 1 else 0
  }

  function WSleeps(p: Worker): int { if p.WAsleep? then 1 else 0 }

  /** Sure to look at the queue, or to take from it. */
  function WReady(p: Worker): int { if p.WRelock? || p.WCheck? || p.WTerm? || p.WTake? then 1 else 0 }

  /** Has popped and is still to notify a submitter. */
  function WOwes(p: Worker): int { if p.WNotify? then 1 else 0 }

  function CSleeps(p: Caller): int { if p.SAsleep? then 1 else 0 }

  /** Sure to look for room in the queue, or to push. */
  function CReady(p: Caller): int { if p.SRelock? || p.SCheck? || p.STerm? || p.SPush? then 1 else 0 }

  /** Has pushed and is still to notify a worker. */
  function COwes(p: Caller): int { if p.SUnlock? || p.SNotify? then 1 else 0 }

  function Locked(s: State): int {
    s.lock + Sum(s.workers, WHolds) + Sum(s.callers, CHolds)
  }

  /** The bounded queue holds the jobs pushed and not yet taken. */
  ghost predicate Order(q: Jobs) {
    && |q.queue| <= q.max
    && q.taken <= |q.log| && q.queue == q.log[q.taken..]
  }

  ghost predicate Wakeups(s: State) {
    && (!s.q.term && Sum(s.workers, WSleeps) > 0 ==> |s.q.queue| <= Sum(s.workers, WReady) + Sum(s.callers, COwes))
    && (!s.q.term && Sum(s.callers, CSleeps) > 0 ==>
        s.q.max - |s.q.queue| <= Sum(s.callers, CReady) + Sum(s.workers, WOwes))
    && (s.q.toldWorkers ==> s.q.term && Sum(s.workers, WSleeps) == 0)
    && (s.q.toldCallers ==> s.q.term && Sum(s.callers, CSleeps) == 0)
  }

  ghost predicate WLocal(q: Jobs, p: Worker) {
    match p
    case WSleep => !q.term && q.queue == []
    case WTerm => q.queue != [] || q.term
    case WTake => q.queue != [] && !q.term
    case WUnlockExit => q.term
    case WExit => q.term
    case _ => true
  }

  ghost predicate CLocal(q: Jobs, p: Caller) {
    match p
    case SUnlockFull => q.block
    case SCheck(_) => q.block ==> |q.queue| < q.max
    case SSleep(_) => !q.term && |q.queue| == q.max && !q.block
    case SAsleep(_) => !q.block
    case SRelock(_) => !q.block
    case STerm(_) => |q.queue| < q.max || q.term
    case SPush(_) => |q.queue| < q.max && !q.term
    case XUnlock => q.term
    case XNotEmpty => q.term
    case XNotFull => q.term && q.toldWorkers
    case XJoin => q.term && q.toldWorkers && q.toldCallers
    case XDone => q.term && q.toldWorkers && q.toldCallers
    case _ => true
  }

  ghost predicate Locals(s: State) {
    && (forall t :: 0 <= t < |s.workers| ==> WLocal(s.q, s.workers[t]))
    && (forall t :: 0 <= t < |s.callers| ==> CLocal(s.q, s.callers[t]))
  }

  ghost predicate Inv(s: State) {
    Locked(s) == 1 && Order(s.q) && Wakeups(s) && Locals(s)
  }

  lemma WorkerAlone(s: State, t: nat)
    requires Locked(s) == 1 && t < |s.workers| && WHolds(s.workers[t]) == 1
    ensures forall u :: 0 <= u < |s.workers| && u != t ==> WHolds(s.workers[u]) == 0
    ensures forall u :: 0 <= u < |s.callers| ==> CHolds(s.callers[u]) == 0
  {
    SumBounds(s.callers, CHolds, 0, 1);
    SumMember(s.workers, WHolds, t);
    SumZero(s.callers, CHolds);
    forall u | 0 <= u < |s.workers| && u != t ensures WHolds(s.workers[u]) == 0 {
      SumPair(s.workers, WHolds, t, u);
    }
  }

  lemma CallerAlone(s: State, t: nat)
    requires Locked(s) == 1 && t < |s.callers| && CHolds(s.callers[t]) == 1
    ensures forall u :: 0 <= u < |s.callers| && u != t ==> CHolds(s.callers[u]) == 0
    ensures forall u :: 0 <= u < |s.workers| ==> WHolds(s.workers[u]) == 0
  {
    SumBounds(s.workers, WHolds, 0, 1);
    SumMember(s.callers, CHolds, t);
    SumZero(s.workers, WHolds);
    forall u | 0 <= u < |s.callers| && u != t ensures CHolds(s.callers[u]) == 0 {
      SumPair(s.callers, CHolds, t, u);
    }
  }

  lemma SumsAre(s: State)
    ensures Sum(s.workers, WSleeps) >= 0 && Sum(s.workers, WReady) >= 0 && Sum(s.workers, WOwes) >= 0
    ensures Sum(s.callers, CSleeps) >= 0 && Sum(s.callers, CReady) >= 0 && Sum(s.callers, COwes) >= 0
    ensures NoWorkerAsleep(s) <==> Sum(s.workers, WSleeps) == 0
    ensures NoCallerAsleep(s) <==> Sum(s.callers, CSleeps) == 0
  {
    SumBounds(s.workers, WSleeps, 0, 1);
    SumBounds(s.workers, WReady, 0, 1);
    SumBounds(s.workers, WOwes, 0, 1);
    SumBounds(s.callers, CSleeps, 0, 1);
    SumBounds(s.callers, CReady, 0, 1);
    SumBounds(s.callers, COwes, 0, 1);
    if Sum(s.workers, WSleeps) == 0 { SumZero(s.workers, WSleeps); }
    if NoWorkerAsleep(s) { SumBounds(s.workers, WSleeps, 0, 0); }
    if Sum(s.callers, CSleeps) == 0 { SumZero(s.callers, CSleeps); }
    if NoCallerAsleep(s) { SumBounds(s.callers, CSleeps, 0, 0); }
  }

  /** What a step may change of what others rely on: all of it with the lock, only towards the end without. */
  predicate Frame(q: Jobs, q': Jobs, holder: bool) {
    && q'.max == q.max && q'.block == q.block
    && (q.term ==> q'.term) && (q.toldWorkers ==> q'.toldWorkers) && (q.toldCallers ==> q'.toldCallers)
    && (holder || (q'.queue == q.queue && q'.term == q.term))
  }

  lemma FrameWorker(q: Jobs, q': Jobs, p: Worker, holder: bool)
    requires WLocal(q, p) && Frame(q, q', holder) && (holder ==> WHolds(p) == 0)
    ensures WLocal(q', p)
  {
  }

  lemma FrameCaller(q: Jobs, q': Jobs, p: Caller, holder: bool)
    requires CLocal(q, p) && Frame(q, q', holder) && (holder ==> CHolds(p) == 0)
    ensures CLocal(q', p) && CLocal(q', Woken(p))
  {
  }

  // A worker's step.

  /** Worker `t` moves, and perhaps wakes the caller `target`. */
  predicate WorkerMoved(s: State, s': State, t: nat, target: nat) {
    && t < |s.workers| == |s'.workers| && s'.workers == s.workers[t := s'.workers[t]]
    && (s'.callers == s.callers ||
        (target < |s.callers| && s.workers[t].WNotify? && s'.callers == s.callers[target := Woken(s.callers[target])]))
  }

  lemma WorkerMoves(s: State, t: nat, target: nat)
    requires t < |s.workers|
    ensures var s' := WorkerStep(s, t, target);
            && WorkerMoved(s, s', t, target) && Frame(s.q, s'.q, WHolds(s.workers[t]) == 1)
            && s'.q.toldWorkers == s.q.toldWorkers && s'.q.toldCallers == s.q.toldCallers && s'.q.term == s.q.term
            && s'.lock + WHolds(s'.workers[t]) == s.lock + WHolds(s.workers[t])
  {
  }

  lemma WorkerOrder(s: State, t: nat, target: nat)
    requires t < |s.workers| && Order(s.q) && WLocal(s.q, s.workers[t])
    ensures var s' := WorkerStep(s, t, target);
            Order(s'.q) && |s'.workers| == |s.workers| && WLocal(s'.q, s'.workers[t])
  {
  }

  lemma WorkerSums(s: State, s': State, t: nat, target: nat)
    requires WorkerMoved(s, s', t, target)
    ensures forall w: Worker -> int :: Sum(s'.workers, w) == Sum(s.workers, w) - w(s.workers[t]) + w(s'.workers[t])
    ensures s'.callers != s.callers ==> s.callers[target] != Woken(s.callers[target])
    ensures forall w: Caller -> int :: Sum(s'.callers, w) == Sum(s.callers, w) +
              if s'.callers == s.callers then 0 else w(Woken(s.callers[target])) - w(s.callers[target])
  {
    forall w: Worker -> int
      ensures Sum(s'.workers, w) == Sum(s.workers, w) - w(s.workers[t]) + w(s'.workers[t])
    {
      SumUpdate(s.workers, t, s'.workers[t], w);
    }
    if s'.callers != s.callers {
      forall w: Caller -> int
        ensures Sum(s'.callers, w) == Sum(s.callers, w) - w(s.callers[target]) + w(Woken(s.callers[target]))
      {
        SumUpdate(s.callers, target, Woken(s.callers[target]), w);
      }
    }
  }

  /** What a worker's step does to the numbers the wakeups depend on; notifying wakes a sleeper if there is one. */
  predicate WorkerCounts(s: State, s': State, t: nat)
    requires t < |s.workers| == |s'.workers|
  {
    var p, p' := s.workers[t], s'.workers[t];
    var takes, notifies := if p.WTake? && p'.WNotify? then 1 else 0, if p.WNotify? && p' != p then 1 else 0;
    && s'.q.max == s.q.max && s'.q.term == s.q.term
    && s'.q.toldWorkers == s.q.toldWorkers && s'.q.toldCallers == s.q.toldCallers
    && |s'.q.queue| == |s.q.queue| - takes
    && (WReady(p') >= WReady(p) - takes || s.q.queue == [] || s.q.term)
    && (p.WSleep? || WSleeps(p') <= WSleeps(p))
    && WOwes(p') == WOwes(p) + takes - notifies
    && (s'.callers == s.callers ==> notifies == 0 || NoCallerAsleep(s))
  }

  lemma WorkerCountsRight(s: State, t: nat, target: nat)
    requires t < |s.workers|
    ensures var s' := WorkerStep(s, t, target); |s'.workers| == |s.workers| && WorkerCounts(s, s', t)
  {
  }

  lemma WorkerKeepsWakeups(s: State, s': State, t: nat, target: nat)
    requires Inv(s) && WorkerMoved(s, s', t, target) && WorkerCounts(s, s', t)
    ensures Wakeups(s')
  {
    WorkerSums(s, s', t, target);
    SumsAre(s);
    SumsAre(s');
    assert WLocal(s.q, s.workers[t]);
    hide Prefix, Order;
  }

  lemma WorkerKeepsInv(s: State, t: nat, target: nat)
    requires Inv(s) && t < |s.workers|
    ensures Inv(WorkerStep(s, t, target))
  {
    var s' := WorkerStep(s, t, target);
    WorkerMoves(s, t, target);
    WorkerOrder(s, t, target);
    WorkerCountsRight(s, t, target);
    WorkerSums(s, s', t, target);
    WorkerKeepsLocals(s, s', t, target);
    WorkerKeepsWakeups(s, s', t, target);
    hide WorkerStep, Wakeups, Locals, Order;
  }

  lemma WorkerKeepsLocals(s: State, s': State, t: nat, target: nat)
    requires Inv(s) && WorkerMoved(s, s', t, target) && Frame(s.q, s'.q, WHolds(s.workers[t]) == 1)
    requires WLocal(s'.q, s'.workers[t])
    ensures Locals(s')
  {
    var holder := WHolds(s.workers[t]) == 1;
    if holder { WorkerAlone(s, t); }
    forall u | 0 <= u < |s'.workers| ensures WLocal(s'.q, s'.workers[u]) {
      if u != t { FrameWorker(s.q, s'.q, s.workers[u], holder); }
    }
    forall u | 0 <= u < |s'.callers| ensures CLocal(s'.q, s'.callers[u]) {
      FrameCaller(s.q, s'.q, s.callers[u], holder);
    }
  }

  // A submitter's step.

  /** Caller `t` moves, and perhaps wakes the worker `target`. */
  predicate CallerMoved(s: State, s': State, t: nat, target: nat) {
    && t < |s.callers| == |s'.callers| && s'.callers == s.callers[t := s'.callers[t]]
    && (s'.workers == s.workers ||
        (target < |s.workers| && s.callers[t].SNotify? && s.workers[target].WAsleep?
         && s'.workers == s.workers[target := WRelock]))
  }

  lemma SubmitMoves(s: State, t: nat, target: nat)
    requires t < |s.callers|
    ensures var s' := SubmitStep(s, t, target);
            && CallerMoved(s, s', t, target) && Frame(s.q, s'.q, CHolds(s.callers[t]) == 1)
            && s'.lock + CHolds(s'.callers[t]) == s.lock + CHolds(s.callers[t])
  {
  }

  lemma SubmitOrder(s: State, t: nat, target: nat)
    requires t < |s.callers| && Order(s.q) && CLocal(s.q, s.callers[t])
    ensures var s' := SubmitStep(s, t, target);
            Order(s'.q) && |s'.callers| == |s.callers| && CLocal(s'.q, s'.callers[t])
  {
  }

  lemma CallerSums(s: State, s': State, t: nat, target: nat)
    requires CallerMoved(s, s', t, target)
    ensures forall w: Caller -> int :: Sum(s'.callers, w) == Sum(s.callers, w) - w(s.callers[t]) + w(s'.callers[t])
    ensures forall w: Worker -> int :: Sum(s'.workers, w) == Sum(s.workers, w) +
              if s'.workers == s.workers then 0 else w(WRelock) - w(WAsleep)
  {
    forall w: Caller -> int
      ensures Sum(s'.callers, w) == Sum(s.callers, w) - w(s.callers[t]) + w(s'.callers[t])
    {
      SumUpdate(s.callers, t, s'.callers[t], w);
    }
    if s'.workers != s.workers {
      forall w: Worker -> int
        ensures Sum(s'.workers, w) == Sum(s.workers, w) - w(WAsleep) + w(WRelock)
      {
        SumUpdate(s.workers, target, WRelock, w);
      }
    }
  }

  /** What a caller's step does to the numbers the wakeups depend on; notifying wakes a sleeper if there is one. */
  predicate CallerCounts(s: State, s': State, t: nat)
    requires t < |s.callers| == |s'.callers|
  {
    var p, p' := s.callers[t], s'.callers[t];
    var pushes, notifies := if p.SPush? then 1 else 0, if p.SNotify? && p' != p then 1 else 0;
    && s'.q.max == s.q.max && (s.q.term ==> s'.q.term)
    && s'.q.toldWorkers == s.q.toldWorkers && s'.q.toldCallers == s.q.toldCallers
    && |s'.q.queue| == |s.q.queue| + pushes
    && (CReady(p') >= CReady(p) - pushes || |s.q.queue| >= s.q.max || s.q.term)
    && (p.SSleep? || CSleeps(p') <= CSleeps(p))
    && COwes(p') == COwes(p) + pushes - notifies
    && (s'.workers == s.workers ==> notifies == 0 || NoWorkerAsleep(s))
  }

  lemma SubmitCountsRight(s: State, t: nat, target: nat)
    requires t < |s.callers|
    ensures var s' := SubmitStep(s, t, target); |s'.callers| == |s.callers| && CallerCounts(s, s', t)
  {
  }

  lemma CallerKeepsWakeups(s: State, s': State, t: nat, target: nat)
    requires Inv(s) && CallerMoved(s, s', t, target) && CallerCounts(s, s', t)
    ensures Wakeups(s')
  {
    CallerSums(s, s', t, target);
    SumsAre(s);
    SumsAre(s');
    assert CLocal(s.q, s.callers[t]);
    hide Prefix, Order;
  }

  lemma CallerKeepsLocals(s: State, s': State, t: nat, target: nat)
    requires Inv(s) && CallerMoved(s, s', t, target) && Frame(s.q, s'.q, CHolds(s.callers[t]) == 1)
    requires CLocal(s'.q, s'.callers[t])
    ensures Locals(s')
  {
    var holder := CHolds(s.callers[t]) == 1;
    if holder { CallerAlone(s, t); }
    forall u | 0 <= u < |s'.callers| ensures CLocal(s'.q, s'.callers[u]) {
      if u != t { FrameCaller(s.q, s'.q, s.callers[u], holder); }
    }
    forall u | 0 <= u < |s'.workers| ensures WLocal(s'.q, s'.workers[u]) {
      FrameWorker(s.q, s'.q, s.workers[u], holder);
    }
  }

  lemma SubmitKeepsInv(s: State, t: nat, target: nat)
    requires Inv(s) && t < |s.callers|
    ensures Inv(SubmitStep(s, t, target))
  {
    var s' := SubmitStep(s, t, target);
    SubmitMoves(s, t, target);
    SubmitOrder(s, t, target);
    SubmitCountsRight(s, t, target);
    CallerSums(s, s', t, target);
    CallerKeepsLocals(s, s', t, target);
    CallerKeepsWakeups(s, s', t, target);
    hide SubmitStep, Wakeups, Locals, Order;
  }

  // A step of Stop.

  lemma StopMoves(s: State, t: nat)
    requires t < |s.callers| && AtStop(s.callers[t]) && !s.callers[t].XNotEmpty? && !s.callers[t].XNotFull?
    ensures var s' := StopStep(s, t);
            && CallerMoved(s, s', t, 0) && Frame(s.q, s'.q, CHolds(s.callers[t]) == 1)
            && s'.lock + CHolds(s'.callers[t]) == s.lock + CHolds(s.callers[t])
            && s'.workers == s.workers && (s'.q == s.q || s'.q == s.q.(term := true))
            && CallerCounts(s, s', t)
            && (CLocal(s.q, s.callers[t]) ==> CLocal(s'.q, s'.callers[t]))
  {
    hide AllExited;
  }

  lemma StopKeepsInv(s: State, t: nat)
    requires Inv(s) && t < |s.callers| && AtStop(s.callers[t]) && !s.callers[t].XNotEmpty? && !s.callers[t].XNotFull?
    ensures Inv(StopStep(s, t))
  {
    var s' := StopStep(s, t);
    StopMoves(s, t);
    CallerSums(s, s', t, 0);
    CallerKeepsLocals(s, s', t, 0);
    CallerKeepsWakeups(s, s', t, 0);
    hide StopStep, Wakeups, Locals;
  }

  lemma NotifyAllKeepsInv(s: State, t: nat)
    requires Inv(s) && t < |s.callers| && (s.callers[t].XNotEmpty? || s.callers[t].XNotFull?)
    ensures Inv(StopStep(s, t))
  {
    var s' := StopStep(s, t);
    var woken := if s.callers[t].XNotEmpty? then WakeWorkers(s) else WakeCallers(s);
    assert CLocal(s.q, s.callers[t]);
    WokenSums(s);
    SumUpdate(woken.callers, t, s'.callers[t], CHolds);
    SumUpdate(woken.callers, t, s'.callers[t], CSleeps);
    NotifyAllKeepsLocals(s, t);
    hide Locals, Order, Prefix;
  }

  lemma NotifyAllKeepsLocals(s: State, t: nat)
    requires Inv(s) && t < |s.callers| && (s.callers[t].XNotEmpty? || s.callers[t].XNotFull?)
    ensures Locals(StopStep(s, t))
  {
    var s' := StopStep(s, t);
    assert CLocal(s.q, s.callers[t]);
    forall u | 0 <= u < |s'.callers| ensures CLocal(s'.q, s'.callers[u]) {
      FrameCaller(s.q, s'.q, s.callers[u], false);
    }
    forall u | 0 <= u < |s'.workers| ensures WLocal(s'.q, s'.workers[u]) {
      FrameWorker(s.q, s'.q, s.workers[u], false);
    }
  }

  /** After notify_all nobody sleeps; the lock is where it was. */
  lemma WokenSums(s: State)
    ensures Sum(WakeWorkers(s).workers, WSleeps) == 0 && Sum(WakeWorkers(s).workers, WHolds) == Sum(s.workers, WHolds)
    ensures Sum(WakeCallers(s).callers, CSleeps) == 0 && Sum(WakeCallers(s).callers, CHolds) == Sum(s.callers, CHolds)
  {
    SumBounds(WakeWorkers(s).workers, WSleeps, 0, 0);
    SumBounds(WakeCallers(s).callers, CSleeps, 0, 0);
    SumSame(WakeWorkers(s).workers, s.workers, WHolds);
    SumSame(WakeCallers(s).callers, s.callers, CHolds);
  }

  // Every step.

  lemma WakeWorkerKeepsInv(s: State, t: nat)
    requires Inv(s) && t < |s.workers| && s.workers[t].WAsleep?
    ensures Inv(GotoW(s, t, WRelock))
  {
    var s' := GotoW(s, t, WRelock);
    WorkerSums(s, s', t, 0);
    WorkerKeepsLocals(s, s', t, 0);
    WorkerKeepsWakeups(s, s', t, 0);
    hide Wakeups, Locals;
  }

  /** A call begins, or a submitter wakes for no reason. */
  lemma CallerGoesKeepsInv(s: State, t: nat, p: Caller)
    requires Inv(s) && t < |s.callers|
    requires (s.callers[t].Idle? && (p.SLock? || p.XLock?)) || (s.callers[t].SAsleep? && p == Woken(s.callers[t]))
    ensures Inv(GotoC(s, t, p))
  {
    var s' := GotoC(s, t, p);
    assert CLocal(s.q, s.callers[t]);
    CallerSums(s, s', t, 0);
    CallerKeepsLocals(s, s', t, 0);
    CallerKeepsWakeups(s, s', t, 0);
    hide Wakeups, Locals;
  }

  lemma NextKeepsInv(s: State, c: Choice)
    requires Inv(s)
    ensures Inv(Next(s, c))
  {
    hide Inv, WorkerStep, SubmitStep, StopStep;
    if c.StepWorker? {
      if c.t < |s.workers| { WorkerKeepsInv(s, c.t, c.target); }
    } else if c.StepCaller? {
      if c.t < |s.callers| {
        if !AtStop(s.callers[c.t]) {
          SubmitKeepsInv(s, c.t, c.target);
        } else if s.callers[c.t].XNotEmpty? || s.callers[c.t].XNotFull? {
          NotifyAllKeepsInv(s, c.t);
        } else {
          StopKeepsInv(s, c.t);
        }
      }
    } else if c.WakeWorker? {
      if Next(s, c) != s { WakeWorkerKeepsInv(s, c.t); }
    } else if Next(s, c) != s {
      CallerGoesKeepsInv(s, c.t, Next(s, c).callers[c.t]);
    }
  }

  // Jobs are run at most once.

  predicate Carries(p: Worker) { p.WNotify? || p.WUnlock? || p.WRun? }

  /** The jobs the workers carry are jobs taken, each by one worker, and not run before. */
  ghost predicate OneRunEach(s: State) {
    && s.q.taken <= |s.q.log|
    && (forall k :: k in s.q.called ==> k < s.q.taken)
    && (forall i, j :: 0 <= i < j < |s.q.called| ==> s.q.called[i] != s.q.called[j])
    && (forall t :: 0 <= t < |s.workers| && Carries(s.workers[t]) ==>
          var p := s.workers[t]; p.k < s.q.taken && p.job == s.q.log[p.k] && p.k !in s.q.called)
    && (forall t, u :: 0 <= t < |s.workers| && 0 <= u < |s.workers| && t != u ==>
          !Carries(s.workers[t]) || !Carries(s.workers[u]) || s.workers[t].k != s.workers[u].k)
  }

  /** What a worker's step does to the job it carries. */
  lemma WorkerCarries(s: State, t: nat, target: nat)
    requires t < |s.workers| && Order(s.q)
    ensures var s', p := WorkerStep(s, t, target), s.workers[t];
            && WorkerMoved(s, s', t, target) && s'.q.log == s.q.log
            && s'.q.called == (if p.WRun? then s.q.called + [p.k] else s.q.called)
            && (p.WRun? ==> !Carries(s'.workers[t]))
            && if p.WTake? && s.q.queue != [] then
                 s'.q.taken == s.q.taken + 1 <= |s.q.log| && s'.workers[t] == WNotify(s.q.log[s.q.taken], s.q.taken)
               else
                 && s'.q.taken == s.q.taken
                 && (Carries(s'.workers[t]) ==>
                       Carries(p) && s'.workers[t].k == p.k && s'.workers[t].job == p.job)
  {
    WorkerMoves(s, t, target);
  }

  lemma WorkerKeepsRuns(s: State, t: nat, target: nat)
    requires OneRunEach(s) && Order(s.q) && t < |s.workers|
    ensures OneRunEach(WorkerStep(s, t, target))
  {
    WorkerCarries(s, t, target);
    hide WorkerStep;
  }

  lemma CallerCarries(s: State, t: nat, target: nat)
    requires t < |s.callers|
    ensures var s' := CallerStep(s, t, target);
            && s'.q.taken == s.q.taken && s'.q.called == s.q.called && s.q.log <= s'.q.log
            && |s'.workers| == |s.workers|
            && forall u :: 0 <= u < |s.workers| ==>
                 s'.workers[u] == s.workers[u] || (s.workers[u].WAsleep? && s'.workers[u].WRelock?)
  {
    if AtStop(s.callers[t]) {
      hide SubmitStep;
    } else {
      SubmitMoves(s, t, target);
      hide StopStep;
    }
  }

  lemma NextKeepsRuns(s: State, c: Choice)
    requires OneRunEach(s) && Order(s.q)
    ensures OneRunEach(Next(s, c))
  {
    hide WorkerStep, CallerStep, Order;
    if c.StepWorker? && c.t < |s.workers| {
      WorkerKeepsRuns(s, c.t, c.target);
    } else if c.StepCaller? && c.t < |s.callers| {
      CallerCarries(s, c.t, c.target);
    }
  }

  // Every run.

  ghost predicate Good(s: State) {
    Inv(s) && OneRunEach(s)
  }

  lemma InitGood(max: nat, block: bool, workers: nat, callers: nat)
    ensures Good(Init(max, block, workers, callers))
  {
    var s := Init(max, block, workers, callers);
    SumBounds(s.workers, WHolds, 0, 0);
    SumBounds(s.callers, CHolds, 0, 0);
    SumBounds(s.workers, WSleeps, 0, 0);
    SumBounds(s.callers, CSleeps, 0, 0);
  }

  ghost predicate Reachable(max: nat, block: bool, workers: nat, callers: nat, s: State) {
    Reaches(Next, Init(max, block, workers, callers), s)
  }

  predicate Shape(s: State, max: nat, block: bool, workers: nat, callers: nat) {
    s.q.max == max && s.q.block == block && |s.workers| == workers && |s.callers| == callers
  }

  lemma NextKeepsShape(s: State, c: Choice)
    ensures Shape(Next(s, c), s.q.max, s.q.block, |s.workers|, |s.callers|)
  {
    hide WorkerStep, SubmitStep;
    if c.StepWorker? && c.t < |s.workers| {
      WorkerMoves(s, c.t, c.target);
    } else if c.StepCaller? && c.t < |s.callers| {
      SubmitMoves(s, c.t, c.target);
    }
  }

  lemma ReachableGood(max: nat, block: bool, workers: nat, callers: nat, s: State)
    requires Reachable(max, block, workers, callers, s)
    ensures Good(s) && Shape(s, max, block, workers, callers)
  {
    InitGood(max, block, workers, callers);
    hide Next, OneRunEach, Wakeups, Locals, Order, Locked;
    var inv := (s: State) => Good(s) && Shape(s, max, block, workers, callers);
    forall s: State, c: Choice | inv(s) ensures inv(Next(s, c)) {
      NextKeepsInv(s, c);
      NextKeepsRuns(s, c);
      NextKeepsShape(s, c);
    }
    assert Shape(Init(max, block, workers, callers), max, block, workers, callers);
    ReachesKeeps(Next, inv, Init(max, block, workers, callers), s);
  }

  /** The queue is bounded and holds, in order, the jobs pushed and not yet taken; a job about to be called is the
      k-th one pushed, was taken before, and has not been called before. */
  lemma JobsInOrderOnce(max: nat, block: bool, workers: nat, callers: nat, s: State)
    requires Reachable(max, block, workers, callers, s)
    ensures |s.q.queue| <= max && s.q.taken <= |s.q.log| && s.q.queue == s.q.log[s.q.taken..]
    ensures forall t :: 0 <= t < |s.workers| && s.workers[t].WRun? ==>
              && s.workers[t].k < s.q.taken && s.workers[t].job == s.q.log[s.workers[t].k]
              && s.workers[t].k !in s.q.called
              && forall u :: 0 <= u < |s.workers| && u != t && Carries(s.workers[u]) ==>
                  s.workers[u].k != s.workers[t].k
  {
    ReachableGood(max, block, workers, callers, s);
  }

  /** A job leaves the queue exactly when a worker takes it: the oldest one, and only before termination. */
  lemma TakesOldest(s: State, c: Choice)
    requires Inv(s)
    ensures var s' := Next(s, c);
            || s'.q.taken == s.q.taken
            || (!s.q.term && c.StepWorker? && c.t < |s.workers| && s.q.queue != [] && s'.q.taken == s.q.taken + 1
                && |s'.workers| == |s.workers| && s'.workers[c.t] == WNotify(s.q.queue[0], s.q.taken)
                && s'.q.queue == s.q.queue[1..])
  {
    if c.StepWorker? && c.t < |s.workers| {
      assert WLocal(s.q, s.workers[c.t]);
      hide Inv, CallerStep;
    } else if c.StepCaller? && c.t < |s.callers| {
      CallerCarries(s, c.t, c.target);
      hide Inv, WorkerStep, CallerStep;
    }
  }

  /** Once the pool is told to terminate no job is taken and none is pushed. */
  lemma NothingAfterTerminate(s: State, c: Choice)
    requires Inv(s) && s.q.term
    ensures var s' := Next(s, c); s'.q.term && s'.q.taken == s.q.taken && s'.q.log == s.q.log && s'.q.queue == s.q.queue
  {
    if c.StepWorker? && c.t < |s.workers| {
      assert WLocal(s.q, s.workers[c.t]);
      hide Inv, CallerStep;
    } else if c.StepCaller? && c.t < |s.callers| {
      assert CLocal(s.q, s.callers[c.t]);
      hide Inv, WorkerStep;
    }
  }

  /** In no run after that does a worker take a job or a submitter push one, whatever calls are made. */
  lemma NothingInRunAfterTerminate(s: State, sched: seq<Choice>)
    requires Inv(s) && s.q.term
    ensures var s' := Exec(Next, s, sched);
            s'.q.term && s'.q.taken == s.q.taken && s'.q.log == s.q.log && s'.q.queue == s.q.queue
  {
    hide Inv, Next;
    var inv := (u: State) =>
      Inv(u) && u.q.term && u.q.taken == s.q.taken && u.q.log == s.q.log && u.q.queue == s.q.queue;
    forall u: State, c: Choice | inv(u) ensures inv(Next(u, c)) {
      NextKeepsInv(u, c);
      NothingAfterTerminate(u, c);
    }
    ExecKeeps(Next, inv, s, sched);
  }

  /** The steps a worker has left once the pool terminates. */
  function StepsLeft(p: Worker): int {
    match p
    case WTake => 9
    case WNotify(_, _) => 8
    case WUnlock(_, _) => 7
    case WRun(_, _) => 6
    case WSleep => 6
    case WLock => 5
    case WAsleep => 5
    case WRelock => 4
    case WCheck => 3
    case WTerm => 2
    case WUnlockExit => 1
    case WExit => 0
  }

  function WorkerChanges(t: nat): (State, Choice) -> bool {
    (s: State, c: Choice) => t < |s.workers| == |Next(s, c).workers| && Next(s, c).workers[t] != s.workers[t]
  }

  lemma StepsLeftFall(s: State, c: Choice, t: nat)
    requires Inv(s) && s.q.term && t < |s.workers|
    ensures |Next(s, c).workers| == |s.workers|
    ensures Next(s, c).workers[t] != s.workers[t] ==> StepsLeft(Next(s, c).workers[t]) < StepsLeft(s.workers[t])
  {
    assert WLocal(s.q, s.workers[t]);
    hide Inv, Sum;
    if c.StepCaller? && c.t < |s.callers| {
      CallerCarries(s, c.t, c.target);
      hide CallerStep;
    } else if c.StepWorker? && c.t < |s.workers| {
      WorkerMoves(s, c.t, c.target);
    }
  }

  /** Once the pool terminates every worker has only a few steps left, in every run, whatever wakes it. */
  lemma WorkersLeaveSoon(s: State, sched: seq<Choice>, t: nat)
    requires Inv(s) && s.q.term && t < |s.workers|
    ensures Count(Next, WorkerChanges(t), s, sched) <= StepsLeft(s.workers[t]) <= 9
  {
    var inv := (s: State) => Inv(s) && s.q.term && t < |s.workers|;
    var always := (s: State) => true;
    var left := (s: State) => if t < |s.workers| then StepsLeft(s.workers[t]) else 0;
    AlwaysTrue(s, sched);
    hide Inv;
    forall s: State, c: Choice | inv(s)
      ensures inv(Next(s, c)) && left(Next(s, c)) + (if WorkerChanges(t)(s, c) then 1 else 0) <= left(s)
    {
      NextKeepsInv(s, c);
      NothingAfterTerminate(s, c);
      StepsLeftFall(s, c, t);
    }
    hide Next, WorkerChanges;
    EventsBounded(Next, inv, always, WorkerChanges(t), left, s, sched);
  }

  lemma {:induction false} AlwaysTrue(s: State, sched: seq<Choice>)
    ensures Always(Next, (s: State) => true, s, sched)
    decreases |sched|
  {
    if sched != [] {
      AlwaysTrue(Next(s, sched[0]), sched[1..]);
    }
  }

  /** No job is stranded: while a worker sleeps, every job in the queue has a worker on its way to the queue or a
      submitter on its way to notify one. */
  lemma NoJobStranded(max: nat, block: bool, workers: nat, callers: nat, s: State, t: nat)
    requires Reachable(max, block, workers, callers, s) && !s.q.term && t < |s.workers| && s.workers[t].WAsleep?
    ensures |s.q.queue| <= Sum(s.workers, WReady) + Sum(s.callers, COwes)
  {
    ReachableGood(max, block, workers, callers, s);
    SumMember(s.workers, WSleeps, t);
  }

  /** Nor is a submitter: while one sleeps, every free place has a submitter on its way to it or a worker on its way
      to notify one. */
  lemma NoSubmitterStranded(max: nat, block: bool, workers: nat, callers: nat, s: State, t: nat)
    requires Reachable(max, block, workers, callers, s) && !s.q.term && t < |s.callers| && s.callers[t].SAsleep?
    ensures max - |s.q.queue| <= Sum(s.callers, CReady) + Sum(s.workers, WOwes)
    ensures !block
  {
    ReachableGood(max, block, workers, callers, s);
    SumMember(s.callers, CSleeps, t);
    assert CLocal(s.q, s.callers[t]);
  }

  predicate Resting(s: State) {
    && (forall t :: 0 <= t < |s.workers| ==> s.workers[t].WAsleep? || s.workers[t].WExit?)
    && (forall t :: 0 <= t < |s.callers| ==> s.callers[t].Idle? || s.callers[t].SAsleep? || s.callers[t].XDone?)
  }

  /** When nothing is under way, a sleeping worker means an empty queue and a sleeping submitter a full one. */
  lemma SleepersAreDue(max: nat, block: bool, workers: nat, callers: nat, s: State)
    requires Reachable(max, block, workers, callers, s) && Resting(s) && !s.q.term
    ensures (exists t :: 0 <= t < |s.workers| && s.workers[t].WAsleep?) ==> s.q.queue == []
    ensures (exists t :: 0 <= t < |s.callers| && s.callers[t].SAsleep?) ==> |s.q.queue| == max
  {
    ReachableGood(max, block, workers, callers, s);
    SumBounds(s.workers, WReady, 0, 0);
    SumBounds(s.workers, WOwes, 0, 0);
    SumBounds(s.callers, CReady, 0, 0);
    SumBounds(s.callers, COwes, 0, 0);
    if t :| 0 <= t < |s.workers| && s.workers[t].WAsleep? {
      NoJobStranded(max, block, workers, callers, s, t);
    }
    if t :| 0 <= t < |s.callers| && s.callers[t].SAsleep? {
      NoSubmitterStranded(max, block, workers, callers, s, t);
    }
  }

  /** From the moment Stop joins, nobody sleeps. */
  lemma NobodySleepsAfterStop(max: nat, block: bool, workers: nat, callers: nat, s: State, t: nat)
    requires Reachable(max, block, workers, callers, s) && t < |s.callers|
               && (s.callers[t].XJoin? || s.callers[t].XDone?)
    ensures s.q.term && NoWorkerAsleep(s) && NoCallerAsleep(s)
  {
    ReachableGood(max, block, workers, callers, s);
    assert CLocal(s.q, s.callers[t]);
    SumsAre(s);
  }

  // No state is stuck.

  predicate WorkerCanMove(s: State, t: nat, target: nat) {
    t < |s.workers| && WorkerStep(s, t, target) != s
  }

  predicate CallerCanMove(s: State, t: nat, target: nat) {
    t < |s.callers| && CallerStep(s, t, target) != s
  }

  /** A worker that neither sleeps nor has left, and does not wait for the lock, can move. */
  lemma WorkerGoes(s: State, t: nat) returns (target: nat)
    requires Inv(s) && t < |s.workers| && !s.workers[t].WAsleep? && !s.workers[t].WExit?
    requires s.workers[t].WLock? || s.workers[t].WRelock? ==> s.lock > 0
    ensures WorkerCanMove(s, t, target)
  {
    assert WLocal(s.q, s.workers[t]);
    hide Inv;
    target := 0;
    if s.workers[t].WNotify? && !NoCallerAsleep(s) {
      target :| 0 <= target < |s.callers| && s.callers[target].SAsleep?;
    }
    assert WorkerStep(s, t, target).workers[t] != s.workers[t];
  }

  lemma CallerGoes(s: State, t: nat) returns (target: nat)
    requires Inv(s) && t < |s.callers|
    requires !s.callers[t].Idle? && !s.callers[t].SAsleep? && !s.callers[t].XDone? && !s.callers[t].XJoin?
    requires s.callers[t].SLock? || s.callers[t].SRelock? || s.callers[t].XLock? ==> s.lock > 0
    ensures CallerCanMove(s, t, target)
  {
    hide Inv;
    target := 0;
    if s.callers[t].SNotify? && !NoWorkerAsleep(s) {
      target :| 0 <= target < |s.workers| && s.workers[target].WAsleep?;
    }
    assert CallerStep(s, t, target).callers[t] != s.callers[t];
  }

  lemma HolderGoes(s: State) returns (t: nat, target: nat)
    requires Inv(s) && s.lock == 0
    ensures WorkerCanMove(s, t, target) || CallerCanMove(s, t, target)
  {
    if Sum(s.workers, WHolds) > 0 {
      t := SumWitness(s.workers, WHolds);
      target := WorkerGoes(s, t);
    } else {
      t := SumWitness(s.callers, CHolds);
      target := CallerGoes(s, t);
    }
  }

  /** While any thread is awake inside the pool, or is joining it, some thread can move; in particular Stop always
      joins every worker in the end, unless some job never returns. */
  lemma NeverStuck(max: nat, block: bool, workers: nat, callers: nat, s: State)
    requires Reachable(max, block, workers, callers, s) && !Resting(s)
    ensures exists t, target :: WorkerCanMove(s, t, target) || CallerCanMove(s, t, target)
  {
    ReachableGood(max, block, workers, callers, s);
    var t, target := 0, 0;
    if s.lock == 0 {
      t, target := HolderGoes(s);
    } else if u :| 0 <= u < |s.workers| && !s.workers[u].WAsleep? && !s.workers[u].WExit? {
      target := WorkerGoes(s, u);
      t := u;
    } else {
      t :| 0 <= t < |s.callers| && !s.callers[t].Idle? && !s.callers[t].SAsleep? && !s.callers[t].XDone?;
      if s.callers[t].XJoin? {
        NobodySleepsAfterStop(max, block, workers, callers, s, t);
        assert CallerStep(s, t, 0).callers[t] == XDone;
      } else {
        target := CallerGoes(s, t);
      }
    }
    assert WorkerCanMove(s, t, target) || CallerCanMove(s, t, target);
  }

  lemma NextKeepsGood(s: State, c: Choice)
    requires Good(s)
    ensures Good(Next(s, c))
  {
    NextKeepsInv(s, c);
    NextKeepsRuns(s, c);
  }

  lemma TakerHasJob(s: State, t: nat)
    requires Good(s) && t < |s.workers| && s.workers[t].WTake?
    ensures s.q.queue != []
  {
    assert WLocal(s.q, s.workers[t]);
  }

  // The pool as it is updated in place.

  predicate ForWork(p: Worker) { p.WLock? || p.WCheck? || p.WSleep? || p.WAsleep? || p.WRelock? || p.WTerm? }

  predicate ForRoom(p: Caller) { p.SLock? || p.SFull? || p.SCheck? || p.SSleep? || p.SRelock? }

  lemma OnlyNotifyUsesTarget(s: State, t: nat, target: nat)
    requires t < |s.workers| && !s.workers[t].WNotify?
    ensures WorkerStep(s, t, target) == WorkerStep(s, t, 0)
  {
  }

  lemma RoomUsesNoTarget(s: State, t: nat, target: nat)
    requires t < |s.callers| && ForRoom(s.callers[t])
    ensures SubmitStep(s, t, target) == SubmitStep(s, t, 0)
  {
  }

  class Pool {
    const max: nat
    const block: bool
    var queue: seq<int>
    var term: bool
    var lock: nat
    var workers: seq<Worker>
    var callers: seq<Caller>
    var taken: nat
    ghost var log: seq<int>
    ghost var called: seq<nat>
    ghost var toldWorkers: bool
    ghost var toldCallers: bool

    ghost function View(): State
      reads this
    {
      State(Jobs(max, block, queue, term, log, taken, called, toldWorkers, toldCallers), lock, workers, callers)
    }

    ghost predicate Valid()
      reads this
    {
      Good(View())
    }

    constructor (workerCount: nat, max: nat, block: bool, callerCount: nat)
      ensures View() == Init(max, block, workerCount, callerCount) && Valid()
    {
      this.max, this.block := max, block;
      queue, term, lock := [], false, 1;
      workers, callers := seq(workerCount, _ => WLock), seq(callerCount, _ => Idle(false));
      taken, log, called, toldWorkers, toldCallers := 0, [], [], false, false;
      new;
      InitGood(max, block, workerCount, callerCount);
    }

    /** The next statement of worker `t` on its way to the queue. */
    method StepLoopWait(t: nat)
      requires Valid() && t < |workers| && ForWork(workers[t])
      modifies this
      ensures View() == WorkerStep(old(View()), t, 0) && Valid()
    {
      ghost var before := View();
      hide Good;
      NextKeepsGood(before, StepWorker(t, 0));
      var p := workers[t];
      match p {
        case WLock => if lock > 0 { lock, p := lock - 1, WCheck; }
        case WCheck => p := if queue != [] || term then WTerm else WSleep;
        case WSleep => lock, p := lock + 1, WAsleep;
        case WAsleep =>
        case WRelock => if lock > 0 { lock, p := lock - 1, WCheck; }
        case WTerm => p := if term then WUnlockExit else WTake;
      }
      workers := workers[t := p];
      assert View() == WorkerStep(before, t, 0);
    }

    /** The next statement of worker `t` around taking a job; the queue it takes from is not empty. */
    method StepLoopTake(t: nat, target: nat)
      requires Valid() && t < |workers| && (workers[t].WTake? || workers[t].WNotify?)
      modifies this
      ensures View() == WorkerStep(old(View()), t, target) && Valid()
    {
      ghost var before := View();
      hide Good;
      NextKeepsGood(before, StepWorker(t, target));
      if workers[t].WTake? {
        TakerHasJob(before, t);
        workers := workers[t := WNotify(queue[0], taken)];
        queue, taken := queue[1..], taken + 1;
      } else {
        var p := WUnlock(workers[t].job, workers[t].k);
        if target < |callers| && callers[target].SAsleep? {
          callers := callers[target := SRelock(callers[target].job)];
          workers := workers[t := p];
        } else if forall u :: 0 <= u < |callers| ==> !callers[u].SAsleep? {
          workers := workers[t := p];
        }
      }
      assert View() == WorkerStep(before, t, target);
    }

    /** The next statement of worker `t` from then on. */
    method StepLoopRun(t: nat)
      requires Valid() && t < |workers|
                 && (workers[t].WUnlock? || workers[t].WRun? || workers[t].WUnlockExit? || workers[t].WExit?)
      modifies this
      ensures View() == WorkerStep(old(View()), t, 0) && Valid()
    {
      ghost var before := View();
      hide Good;
      NextKeepsGood(before, StepWorker(t, 0));
      match workers[t] {
        case WUnlock(job, k) => lock, workers := lock + 1, workers[t := WRun(job, k)];
        case WRun(job, k) => called, workers := called + [k], workers[t := WLock];
        case WUnlockExit => lock, workers := lock + 1, workers[t := WExit];
        case WExit =>
      }
      assert View() == WorkerStep(before, t, 0);
    }

    /** The next statement of caller `t` inside QueueJob on its way to the queue. */
    method StepQueueWait(t: nat)
      requires Valid() && t < |callers| && ForRoom(callers[t])
      modifies this
      ensures View() == SubmitStep(old(View()), t, 0) && Valid()
    {
      ghost var before := View();
      hide Good;
      NextKeepsGood(before, StepCaller(t, 0));
      var p := callers[t];
      match p {
        case SLock(job) => if lock > 0 { lock, p := lock - 1, SFull(job); }
        case SFull(job) => p := if |queue| == max && block then SUnlockFull else SCheck(job);
        case SCheck(job) => p := if |queue| < max || term then STerm(job) else SSleep(job);
        case SSleep(job) => lock, p := lock + 1, SAsleep(job);
        case SRelock(job) => if lock > 0 { lock, p := lock - 1, SCheck(job); }
      }
      callers := callers[t := p];
      assert View() == SubmitStep(before, t, 0);
    }

    /** The next statement of caller `t` inside QueueJob from then on. */
    method StepQueuePush(t: nat, target: nat)
      requires Valid() && t < |callers| && !AtStop(callers[t]) && !ForRoom(callers[t])
      modifies this
      ensures View() == SubmitStep(old(View()), t, target) && Valid()
    {
      ghost var before := View();
      hide Good;
      NextKeepsGood(before, StepCaller(t, target));
      match callers[t] {
        case SUnlockFull => lock, callers := lock + 1, callers[t := Idle(true)];
        case STerm(job) => callers := callers[t := if term then SUnlockFalse else SPush(job)];
        case SUnlockFalse => lock, callers := lock + 1, callers[t := Idle(false)];
        case SPush(job) => queue, log, callers := queue + [job], log + [job], callers[t := SUnlock];
        case SUnlock => lock, callers := lock + 1, callers[t := SNotify];
        case SNotify =>
          if target < |workers| && workers[target].WAsleep? {
            workers := workers[target := WRelock];
            callers := callers[t := Idle(true)];
          } else if forall u :: 0 <= u < |workers| ==> !workers[u].WAsleep? {
            callers := callers[t := Idle(true)];
          }
        case _ =>
      }
      assert View() == SubmitStep(before, t, target);
    }

    /** The next statement of caller `t` inside Stop, other than the notifications. */
    method StepStop(t: nat)
      requires Valid() && t < |callers| && AtStop(callers[t]) && !callers[t].XNotEmpty? && !callers[t].XNotFull?
      modifies this
      ensures View() == StopStep(old(View()), t) && Valid()
    {
      ghost var before := View();
      hide Good;
      NextKeepsGood(before, StepCaller(t, 0));
      match callers[t] {
        case XLock => if lock > 0 { lock, callers := lock - 1, callers[t := XSet]; }
        case XSet => term, callers := true, callers[t := XUnlock];
        case XUnlock => lock, callers := lock + 1, callers[t := XNotEmpty];
        case XJoin =>
          if forall u :: 0 <= u < |workers| ==> workers[u].WExit? { callers := callers[t := XDone]; }
        case XDone =>
      }
      assert View() == StopStep(before, t);
    }

    /** The two notify_all calls of Stop. */
    method NotifyAll(t: nat)
      requires Valid() && t < |callers| && (callers[t].XNotEmpty? || callers[t].XNotFull?)
      modifies this
      ensures View() == StopStep(old(View()), t) && Valid()
    {
      ghost var before := View();
      hide Good;
      NextKeepsGood(before, StepCaller(t, 0));
      if callers[t].XNotEmpty? {
        var was := workers;
        workers := seq(|was|, u requires 0 <= u < |was| => if was[u].WAsleep? then WRelock else was[u]);
        toldWorkers, callers := true, callers[t := XNotFull];
      } else {
        var was := callers;
        callers := seq(|was|, u requires 0 <= u < |was| => Woken(was[u]));
        toldCallers, callers := true, callers[t := XJoin];
      }
      assert View() == StopStep(before, t);
    }

    /** A call begins, or a sleeper wakes for no reason. */
    method Other(c: Choice)
      requires Valid() && !c.StepWorker? && !c.StepCaller?
      modifies this
      ensures View() == Next(old(View()), c) && Valid()
    {
      hide Good;
      NextKeepsGood(View(), c);
      match c {
        case Submit(t, job) => if t < |callers| && callers[t].Idle? { callers := callers[t := SLock(job)]; }
        case Stop(t) => if t < |callers| && callers[t].Idle? { callers := callers[t := XLock]; }
        case WakeWorker(t) => if t < |workers| && workers[t].WAsleep? { workers := workers[t := WRelock]; }
        case WakeCaller(t) => if t < |callers| && callers[t].SAsleep? { callers := callers[t := Woken(callers[t])]; }
      }
    }

    method Step(c: Choice)
      requires Valid() && (c.StepWorker? || c.StepCaller?)
      modifies this
      ensures View() == Next(old(View()), c) && Valid()
    {
      hide Good, WorkerStep, SubmitStep, StopStep;
      if c.StepWorker? {
        if c.t < |workers| {
          if ForWork(workers[c.t]) {
            OnlyNotifyUsesTarget(View(), c.t, c.target);
            StepLoopWait(c.t);
          } else if workers[c.t].WTake? || workers[c.t].WNotify? {
            StepLoopTake(c.t, c.target);
          } else {
            OnlyNotifyUsesTarget(View(), c.t, c.target);
            StepLoopRun(c.t);
          }
        }
      } else if c.t < |callers| {
        if callers[c.t].XNotEmpty? || callers[c.t].XNotFull? {
          NotifyAll(c.t);
        } else if AtStop(callers[c.t]) {
          StepStop(c.t);
        } else if ForRoom(callers[c.t]) {
          RoomUsesNoTarget(View(), c.t, c.target);
          StepQueueWait(c.t);
        } else {
          StepQueuePush(c.t, c.target);
        }
      }
    }

    /** Any scheduler, with any spurious wakeups. */
    method Run(sched: seq<Choice>)
      requires Valid()
      modifies this
      ensures View() == Exec(Next, old(View()), sched) && Valid()
    {
      hide Good, Next;
      for k := 0 to |sched|
        invariant View() == Exec(Next, old(View()), sched[..k]) && Valid()
      {
        ExecSnoc(Next, old(View()), sched[..k], sched[k]);
        assert sched[..k + 1] == sched[..k] + [sched[k]];
        if sched[k].StepWorker? || sched[k].StepCaller? { Step(sched[k]); } else { Other(sched[k]); }
      }
      assert sched[..|sched|] == sched;
    }
  }
}
