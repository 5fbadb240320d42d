/** The counting semaphore made of a value, a mutex and a condition variable.  Any number of threads, each of
    which may wait and post any number of times; a signal wakes any one sleeper; sleepers may also wake for
    no reason. */
module Zemaphore {
  import opened Sums
  import opened Runs

  datatype Pc =
    | Idle
    | WLock     // Zem_wait; next: lock
    | WTest     // next: while (value <= 0)
    | WSleep    // next: Cond_wait, which unlocks and sleeps in one step
    | WAsleep   // asleep
    | WRelock   // woken; next: take the lock again
    | WTake     // next: value--
    | WUnlock   // next: unlock
    | PLock     // Zem_post; next: lock
    | PAdd      // next: value++
    | PSignal   // next: Cond_signal
    | PUnlock   // next: unlock

  /** `posts` and `takes` count the increments and the decrements so far. */
  datatype State = State(value: int, lock: nat, pc: seq<Pc>, posts: nat, takes: nat)

  /** `target` is the sleeper that a signal wakes; a step with no such sleeper is not enabled while there are
      others. */
  datatype Choice = Wait(t: nat) | Post(t: nat) | Step(t: nat, target: nat) | Wake(t: nat)

  function Init(value: int, threads: nat): State {
    State(value, 1, seq(threads, _ => Idle), 0, 0)
  }

  function Goto(s: State, t: nat, p: Pc): State
    requires t < |s.pc|
  {
    s.(pc := s.pc[t := p])
  }

  predicate NoSleeper(pc: seq<Pc>) {
    forall t :: 0 <= t < |pc| ==> !pc[t].WAsleep?
  }

  function Next(s: State, c: Choice): State {
    if c.t >= |s.pc| then s else
    match c
    case Wait(t) => if s.pc[t].Idle? then Goto(s, t, WLock) else s
    case Post(t) => if s.pc[t].Idle? then Goto(s, t, PLock) else s
    case Step(t, target) => ThreadStep(s, t, target)
    case Wake(t) => if s.pc[t].WAsleep? then Goto(s, t, WRelock) else s
  }

  function ThreadStep(s: State, t: nat, target: nat): State
    requires t < |s.pc|
  {
    match s.pc[t]
    case Idle => s
    case WLock => if s.lock == 0 then s else Goto(s.(lock := s.lock - 1), t, WTest)
    case WTest => Goto(s, t, if s.value <= 0 then WSleep else WTake)
    case WSleep => Goto(s.(lock := s.lock + 1), t, WAsleep)
    case WAsleep => s
    case WRelock => if s.lock == 0 then s else Goto(s.(lock := s.lock - 1), t, WTest)
    case WTake => Goto(s.(value := s.value - 1, takes := s.takes + 1), t, WUnlock)
    case WUnlock => Goto(s.(lock := s.lock + 1), t, Idle)
    case PLock => if s.lock == 0 then s else Goto(s.(lock := s.lock - 1), t, PAdd)
    case PAdd => Goto(s.(value := s.value + 1, posts := s.posts + 1), t, PSignal)
    case PSignal =>
      if target < |s.pc| && s.pc[target].WAsleep? then Goto(Goto(s, target, WRelock), t, PUnlock)
      else if NoSleeper(s.pc) then Goto(s, t, PUnlock) else s
    case PUnlock => Goto(s.(lock := s.lock + 1), t, Idle)
  }

  // Regions.

  function Holds(p: Pc): int {
    match p case WTest | WSleep | WTake | WUnlock | PAdd | PSignal | PUnlock => 1 case _ => 0
  }

  function Asleep(p: Pc): int { if p.WAsleep? then 1 else 0 }

  /** Awake inside Zem_wait and sure to look at the value, or to take from it. */
  function Ready(p: Pc): int { if p.WRelock? || p.WTest? || p.WTake? then 1 else 0 }

  function OwesSignal(p: Pc): int { if p.PSignal? then 1 else 0 }

  /** `start` is the initial value. */
  ghost predicate Inv(start: int, s: State) {
    && s.lock + Sum(s.pc, Holds) == 1
    && s.value == start + s.posts - s.takes
    && (start >= 0 ==> s.value >= 0) && (s.value < 0 ==> s.takes == 0)
    && (Sum(s.pc, Asleep) > 0 ==> s.value <= Sum(s.pc, Ready) + Sum(s.pc, OwesSignal))
    && (forall t :: 0 <= t < |s.pc| ==> (s.pc[t].WTake? ==> s.value > 0) && (s.pc[t].WSleep? ==> s.value <= 0))
  }

  lemma SumsAre(s: State)
    ensures Sum(s.pc, Asleep) >= 0 && Sum(s.pc, Ready) >= 0 && Sum(s.pc, OwesSignal) >= 0
    ensures forall t :: 0 <= t < |s.pc| ==> Sum(s.pc, Asleep) >= Asleep(s.pc[t])
    ensures NoSleeper(s.pc) ==> Sum(s.pc, Asleep) == 0
  {
    SumBounds(s.pc, Asleep, 0, 1);
    SumBounds(s.pc, Ready, 0, 1);
    SumBounds(s.pc, OwesSignal, 0, 1);
    forall t | 0 <= t < |s.pc| ensures Sum(s.pc, Asleep) >= Asleep(s.pc[t]) {
      SumMember(s.pc, Asleep, t);
    }
    if NoSleeper(s.pc) {
      SumBounds(s.pc, Asleep, 0, 0);
    }
  }

  lemma HolderAlone(start: int, s: State, t: nat)
    requires Inv(start, s) && t < |s.pc|
    ensures Holds(s.pc[t]) == 1 ==> forall u :: 0 <= u < |s.pc| && u != t ==> Holds(s.pc[u]) == 0
  {
    forall u | 0 <= u < |s.pc| && u != t ensures Holds(s.pc[t]) + Holds(s.pc[u]) <= 1 {
      SumPair(s.pc, Holds, t, u);
    }
  }

  predicate Signals(s: State, c: Choice) {
    c.Step? && c.t < |s.pc| && s.pc[c.t].PSignal? && c.target < |s.pc| && s.pc[c.target].WAsleep?
  }

  lemma NextMovesOne(s: State, c: Choice, w: Pc -> int)
    requires c.t < |s.pc| && !Signals(s, c)
    ensures |Next(s, c).pc| == |s.pc|
    ensures Sum(Next(s, c).pc, w) == Sum(s.pc, w) - w(s.pc[c.t]) + w(Next(s, c).pc[c.t])
  {
    assert Next(s, c).pc == s.pc[c.t := Next(s, c).pc[c.t]];
    SumUpdate(s.pc, c.t, Next(s, c).pc[c.t], w);
  }

  lemma SignalMovesTwo(s: State, c: Choice, w: Pc -> int)
    requires Signals(s, c)
    ensures Sum(Next(s, c).pc, w) == Sum(s.pc, w) - w(PSignal) + w(PUnlock) - w(WAsleep) + w(WRelock)
  {
    SumUpdate(s.pc, c.target, WRelock, w);
    SumUpdate(s.pc[c.target := WRelock], c.t, PUnlock, w);
  }

  lemma SignalKeepsInv(start: int, s: State, c: Choice)
    requires Inv(start, s) && Signals(s, c)
    ensures Inv(start, Next(s, c)) && |Next(s, c).pc| == |s.pc|
  {
    hide Prefix;
    SignalMovesTwo(s, c, Holds);
    SignalMovesTwo(s, c, Asleep);
    SignalMovesTwo(s, c, Ready);
    SignalMovesTwo(s, c, OwesSignal);
  }

  lemma NextKeepsInv(start: int, s: State, c: Choice)
    requires Inv(start, s)
    ensures Inv(start, Next(s, c)) && |Next(s, c).pc| == |s.pc|
  {
    hide Prefix;
    if Signals(s, c) {
      SignalKeepsInv(start, s, c);
    } else if c.t < |s.pc| {
      NextMovesOne(s, c, Holds);
      NextMovesOne(s, c, Asleep);
      NextMovesOne(s, c, Ready);
      NextMovesOne(s, c, OwesSignal);
      SumsAre(s);
      SumsAre(Next(s, c));
      HolderAlone(start, s, c.t);
    }
  }

  lemma InitInv(value: int, threads: nat)
    ensures Inv(value, Init(value, threads))
  {
    var pc := Init(value, threads).pc;
    SumBounds(pc, Holds, 0, 0);
    SumBounds(pc, Asleep, 0, 0);
  }

  ghost predicate Reachable(start: int, threads: nat, s: State) {
    Reaches(Next, Init(start, threads), s)
  }

  lemma ReachableInv(start: int, threads: nat, s: State)
    requires Reachable(start, threads, s)
    ensures Inv(start, s) && |s.pc| == threads
  {
    hide Inv;
    InitInv(start, threads);
    var inv := (s: State) => Inv(start, s) && |s.pc| == threads;
    forall s: State, c: Choice | inv(s) ensures inv(Next(s, c)) {
      NextKeepsInv(start, s, c);
    }
    ReachesKeeps(Next, inv, Init(start, threads), s);
  }

  /** The value is what a counting semaphore's would be, whatever it started from, and from a start that is not
      negative it never becomes so. */
  lemma Counts(start: int, threads: nat, s: State)
    requires Reachable(start, threads, s)
    ensures s.value == start + s.posts - s.takes
    ensures s.takes == 0 || s.takes <= start + s.posts
    ensures start >= 0 ==> s.value >= 0
  {
    ReachableInv(start, threads, s);
  }

  /** A wait completes by taking one from a positive value, a post adds one, and nothing else changes it. */
  lemma NextRefinesSemaphore(start: int, threads: nat, s: State, c: Choice)
    requires Reachable(start, threads, s)
    ensures var s' := Next(s, c);
            || (s'.value == s.value && s'.takes == s.takes && s'.posts == s.posts)
            || (c.t < |s.pc| && s.pc[c.t].WTake? && s.value > 0 && s'.value == s.value - 1 && s'.takes == s.takes + 1)
            || (c.t < |s.pc| && s.pc[c.t].PAdd? && s'.value == s.value + 1 && s'.posts == s.posts + 1)
  {
    ReachableInv(start, threads, s);
  }

  /** No lost wakeup: while anybody sleeps, the value is no more than the woken waiters still to look at it and
      the signals still to be given. */
  lemma NoLostWakeup(start: int, threads: nat, s: State, t: nat)
    requires Reachable(start, threads, s) && t < |s.pc| && s.pc[t].WAsleep?
    ensures s.value <= Sum(s.pc, Ready) + Sum(s.pc, OwesSignal)
  {
    ReachableInv(start, threads, s);
    SumMember(s.pc, Asleep, t);
  }

  /** When nobody is awake inside, a sleeper means that every post and all of the start have been taken. */
  lemma QuietSleepersAreDue(start: int, threads: nat, s: State, t: nat)
    requires Reachable(start, threads, s) && t < |s.pc| && s.pc[t].WAsleep?
    requires forall u :: 0 <= u < |s.pc| ==> s.pc[u].Idle? || s.pc[u].WAsleep?
    ensures s.value <= 0 && (start >= 0 ==> s.takes == start + s.posts)
  {
    NoLostWakeup(start, threads, s, t);
    ReachableInv(start, threads, s);
    SumBounds(s.pc, Ready, 0, 0);
    SumBounds(s.pc, OwesSignal, 0, 0);
  }

  /** If a thread is awake inside, some such thread can move, without a spurious wakeup. */
  lemma NeverStuck(start: int, threads: nat, s: State, t: nat) returns (u: nat, target: nat)
    requires Reachable(start, threads, s) && t < |s.pc| && !s.pc[t].Idle? && !s.pc[t].WAsleep?
    ensures u < |s.pc| && !s.pc[u].Idle? && Next(s, Step(u, target)) != s
  {
    ReachableInv(start, threads, s);
    u, target := t, 0;
    if s.lock == 0 {
      u := SumWitness(s.pc, Holds);
    }
    if s.pc[u].PSignal? && !NoSleeper(s.pc) {
      target :| 0 <= target < |s.pc| && s.pc[target].WAsleep?;
    }
    assert Next(s, Step(u, target)).pc[u] != s.pc[u];
  }

  // A wait that returns has taken one, and a post that returns has added one.

  predicate InPost(p: Pc) { p.PLock? || p.PAdd? || p.PSignal? || p.PUnlock? }

  predicate InWait(p: Pc) { !p.Idle? && !InPost(p) }

  predicate Ends(s: State, c: Choice) {
    var s' := Next(s, c);
    c.t < |s.pc| && c.t < |s'.pc| && !s.pc[c.t].Idle? && s'.pc[c.t].Idle?
  }

  predicate WaitReturns(s: State, c: Choice) { Ends(s, c) && InWait(s.pc[c.t]) }

  predicate PostReturns(s: State, c: Choice) { Ends(s, c) && InPost(s.pc[c.t]) }

  /** Has taken and is still to return. */
  function HasTaken(p: Pc): int { if p.WUnlock? then 1 else 0 }

  /** Has added and is still to return. */
  function HasPosted(p: Pc): int { if p.PSignal? || p.PUnlock? then 1 else 0 }

  lemma NextReturns(s: State, c: Choice)
    ensures var s' := Next(s, c);
            && s'.takes - Sum(s'.pc, HasTaken) ==
               s.takes - Sum(s.pc, HasTaken) + (if WaitReturns(s, c) then 1 else 0)
            && s'.posts - Sum(s'.pc, HasPosted) ==
               s.posts - Sum(s.pc, HasPosted) + (if PostReturns(s, c) then 1 else 0)
  {
    hide Prefix;
    if Signals(s, c) {
      SignalMovesTwo(s, c, HasTaken);
      SignalMovesTwo(s, c, HasPosted);
    } else if c.t < |s.pc| {
      NextMovesOne(s, c, HasTaken);
      NextMovesOne(s, c, HasPosted);
    }
  }

  /** In every run the waits that have returned and those about to are the units taken, the posts that have
      returned and those about to are the units added; so no more waits return than the start and the posts allow. */
  lemma ReturnsAreTakes(start: int, threads: nat, sched: seq<Choice>)
    ensures var s0, s := Init(start, threads), Exec(Next, Init(start, threads), sched);
            var waits, posts := Count(Next, WaitReturns, s0, sched), Count(Next, PostReturns, s0, sched);
            && waits + Sum(s.pc, HasTaken) == s.takes && posts + Sum(s.pc, HasPosted) == s.posts
            && (waits > 0 ==> waits <= start + posts + Sum(s.pc, HasPosted))
  {
    var s0, s := Init(start, threads), Exec(Next, Init(start, threads), sched);
    var all := (s: State) => true;
    var taken := (s: State) => s.takes - Sum(s.pc, HasTaken);
    var posted := (s: State) => s.posts - Sum(s.pc, HasPosted);
    forall s: State, c: Choice
      ensures taken(Next(s, c)) == taken(s) + if WaitReturns(s, c) then 1 else 0
      ensures posted(Next(s, c)) == posted(s) + if PostReturns(s, c) then 1 else 0
    {
      NextReturns(s, c);
    }
    hide Next, WaitReturns, PostReturns;
    EventsCounted(Next, all, WaitReturns, taken, s0, sched);
    EventsCounted(Next, all, PostReturns, posted, s0, sched);
    SumBounds(s0.pc, HasTaken, 0, 0);
    SumBounds(s0.pc, HasPosted, 0, 0);
    SumBounds(s.pc, HasTaken, 0, 1);
    Counts(start, threads, s);
  }

  datatype Op = Taking | Posting

  /** The calls that thread `t` begins. */
  function Calls(t: nat): (State, Choice) -> Option<Op> {
    (s: State, c: Choice) =>
      if c.t != t || t >= |s.pc| || !s.pc[t].Idle? then None
      else match c case Wait(_) => Some(Taking) case Post(_) => Some(Posting) case _ => None
  }

  /** What the steps of thread `t` do to the value. */
  function Effects(t: nat): (State, Choice) -> Option<Op> {
    (s: State, c: Choice) =>
      if c.t != t then None
      else if Next(s, c).takes > s.takes then Some(Taking)
      else if Next(s, c).posts > s.posts then Some(Posting)
      else None
  }

  function Replies(t: nat): (State, Choice) -> Option<Op> {
    (s: State, c: Choice) =>
      if c.t != t then None
      else if WaitReturns(s, c) then Some(Taking)
      else if PostReturns(s, c) then Some(Posting)
      else None
  }

  function AskedAt(p: Pc): Option<Op> {
    if p.PLock? || p.PAdd? then Some(Posting)
    else if InWait(p) && !p.WUnlock? then Some(Taking)
    else None
  }

  function DueAt(p: Pc): Option<Op> {
    if p.WUnlock? then Some(Taking) else if p.PSignal? || p.PUnlock? then Some(Posting) else None
  }

  function Asked(t: nat): State -> Option<Op> {
    (s: State) => if t < |s.pc| then AskedAt(s.pc[t]) else None
  }

  function Due(t: nat): State -> Option<Op> {
    (s: State) => if t < |s.pc| then DueAt(s.pc[t]) else None
  }

  lemma NextServes(s: State, c: Choice, t: nat)
    ensures Passes(Asked(t)(s), Calls(t)(s, c), Effects(t)(s, c), Asked(t)(Next(s, c)))
    ensures Passes(Due(t)(s), Effects(t)(s, c), Replies(t)(s, c), Due(t)(Next(s, c)))
  {
  }

  /** In every run each thread's waits and posts take effect on the value one by one in the order they were called,
      each once, and return in that order; no call returns without its effect. */
  lemma CallsAreServed(start: int, threads: nat, sched: seq<Choice>, t: nat)
    ensures var s0 := Init(start, threads);
            var s, done := Exec(Next, s0, sched), Collect(Next, Effects(t), s0, sched);
            && Collect(Next, Calls(t), s0, sched) == done + Listed(Asked(t)(s))
            && done == Collect(Next, Replies(t), s0, sched) + Listed(Due(t)(s))
  {
    var s0, all := Init(start, threads), (s: State) => true;
    forall s: State, c: Choice
      ensures Passes(Asked(t)(s), Calls(t)(s, c), Effects(t)(s, c), Asked(t)(Next(s, c)))
      ensures Passes(Due(t)(s), Effects(t)(s, c), Replies(t)(s, c), Due(t)(Next(s, c)))
    {
      NextServes(s, c, t);
    }
    hide Next;
    CallsAreAnswered(Next, all, Calls(t), Effects(t), Replies(t), Asked(t), Due(t), s0, sched);
  }

  // The semaphore as it is updated in place.

  class Zem {
    var value: int
    var lock: nat
    var pc: seq<Pc>
    ghost var posts: nat
    ghost var takes: nat
    ghost const start: int

    ghost function View(): State
      reads this
    {
      State(value, lock, pc, posts, takes)
    }

    ghost predicate Valid()
      reads this
    {
      Inv(start, View())
    }

    constructor (value: int, threads: nat)
      ensures View() == Init(value, threads) && start == value && Valid()
    {
      this.value, lock := value, 1;
      pc := seq(threads, _ => Idle);
      start, posts, takes := value, 0, 0;
      new;
      InitInv(value, threads);
    }

    /** The next statement of thread `t` inside Zem_wait. */
    method StepWait(t: nat)
      requires Valid() && t < |pc| && (pc[t].WLock? || pc[t].WRelock? || Holds(pc[t]) == 1)
      requires !pc[t].PAdd? && !pc[t].PSignal? && !pc[t].PUnlock?
      modifies this
      ensures View() == ThreadStep(old(View()), t, 0) && Valid()
    {
      ghost var before := View();
      NextKeepsInv(start, before, Step(t, 0));
      hide Inv;
      var p := pc[t];
      match p {
        case WLock => if lock > 0 { lock, p := lock - 1, WTest; }
        case WTest => p := if value <= 0 then WSleep else WTake;
        case WSleep => lock, p := lock + 1, WAsleep;
        case WRelock => if lock > 0 { lock, p := lock - 1, WTest; }
        case WTake => value, takes, p := value - 1, takes + 1, WUnlock;
        case WUnlock => lock, p := lock + 1, Idle;
      }
      pc := pc[t := p];
      assert View() == ThreadStep(before, t, 0);
    }

    /** The next statement of thread `t` inside Zem_post; a signal wakes `target` if that sleeps. */
    method StepPost(t: nat, target: nat)
      requires Valid() && t < |pc| && (pc[t].PLock? || pc[t].PAdd? || pc[t].PSignal? || pc[t].PUnlock?)
      modifies this
      ensures View() == ThreadStep(old(View()), t, target) && Valid()
    {
      ghost var before := View();
      NextKeepsInv(start, before, Step(t, target));
      hide Inv;
      match pc[t] {
        case PLock => if lock > 0 { lock, pc := lock - 1, pc[t := PAdd]; }
        case PAdd => value, posts, pc := value + 1, posts + 1, pc[t := PSignal];
        case PSignal =>
          if target < |pc| && pc[target].WAsleep? {
            pc := pc[target := WRelock][t := PUnlock];
          } else if NoSleeper(pc) {
            pc := pc[t := PUnlock];
          }
        case PUnlock => lock, pc := lock + 1, pc[t := Idle];
      }
      assert View() == ThreadStep(before, t, target);
    }

    /** Any scheduler, with any spurious wakeups. */
    method Run(sched: seq<Choice>)
      requires Valid()
      modifies this
      ensures View() == Exec(Next, old(View()), sched) && Valid()
    {
      hide Inv;
      for k := 0 to |sched|
        invariant View() == Exec(Next, old(View()), sched[..k]) && Valid()
      {
        ExecSnoc(Next, old(View()), sched[..k], sched[k]);
        assert sched[..k + 1] == sched[..k] + [sched[k]];
        var c := sched[k];
        NextKeepsInv(start, View(), c);
        if c.t < |pc| {
          match c {
            case Wait(t) => if pc[t].Idle? { pc := pc[t := WLock]; }
            case Post(t) => if pc[t].Idle? { pc := pc[t := PLock]; }
            case Wake(t) => if pc[t].WAsleep? { pc := pc[t := WRelock]; }
            case Step(t, target) =>
              if pc[t].PLock? || pc[t].PAdd? || pc[t].PSignal? || pc[t].PUnlock? {
                StepPost(t, target);
              } else if !pc[t].Idle? && !pc[t].WAsleep? {
                StepWait(t);
              }
          }
        }
      }
      assert sched[..|sched|] == sched;
    }
  }
}
