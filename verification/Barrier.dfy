/** The one-shot barrier: sem1 guards the counters, sem2 is a baton that passes from each leaving thread to
    the next. */
module Barrier {
  import opened Sums
  import opened Runs

  datatype Pc =
    | Wait1       // next: wait(sem1)
    | Increment   // next: count++
    | TestFirst   // next: if count < thread_count
    | Post1       // next: post(sem1)
    | Wait2       // next: wait(sem2)
    | Again       // next: wait(sem1) a second time
    | TestSecond  // next: if thread_count == count
    | DropThread  // next: thread_count--
    | DropCount   // next: count--
    | Leave1      // next: post(sem1)
    | Leave2      // next: post(sem2)
    | Done

  datatype State = State(sem1: nat, sem2: nat, count: int, threadCount: int, pc: seq<Pc>)

  function Init(n: nat): State {
    State(1, 0, 0, n, seq(n, _ => Wait1))
  }

  function Goto(s: State, t: nat, p: Pc): State
    requires t < |s.pc|
  {
    s.(pc := s.pc[t := p])
  }

  /** Thread `t` takes its next step. */
  function Next(s: State, t: nat): State {
    if t >= |s.pc| then s else
    match s.pc[t]
    case Wait1 => if s.sem1 == 0 then s else Goto(s.(sem1 := s.sem1 - 1), t, Increment)
    case Increment => Goto(s.(count := s.count + 1), t, TestFirst)
    case TestFirst => Goto(s, t, if s.count < s.threadCount then Post1 else TestSecond)
    case Post1 => Goto(s.(sem1 := s.sem1 + 1), t, Wait2)
    case Wait2 => if s.sem2 == 0 then s else Goto(s.(sem2 := s.sem2 - 1), t, Again)
    case Again => if s.sem1 == 0 then s else Goto(s.(sem1 := s.sem1 - 1), t, TestSecond)
    case TestSecond => Goto(s, t, if s.threadCount == s.count then DropThread else Done)
    case DropThread => Goto(s.(threadCount := s.threadCount - 1), t, DropCount)
    case DropCount => Goto(s.(count := s.count - 1), t, Leave1)
    case Leave1 => Goto(s.(sem1 := s.sem1 + 1), t, Leave2)
    case Leave2 => Goto(s.(sem2 := s.sem2 + 1), t, Done)
    case Done => s
  }

  // Regions.

  function Holds(p: Pc): int {
    match p case Increment | TestFirst | Post1 | TestSecond | DropThread | DropCount | Leave1 => 1 case _ => 0
  }

  function Arrived(p: Pc): int { if p.Wait1? || p.Increment? then 0 else 1 }

  /** Has done both decrements. */
  function Left(p: Pc): int { if p.Leave1? || p.Leave2? || p.Done? then 1 else 0 }

  function Leaving(p: Pc): int { if p.DropCount? then 1 else 0 }

  /** Must hand sem2 on; TestFirst does so for the last thread to arrive. */
  function Baton(p: Pc): int {
    match p case TestFirst | Again | TestSecond | DropThread | DropCount | Leave1 | Leave2 => 1 case _ => 0
  }

  predicate Waiting(p: Pc) { p.Wait1? || p.Increment? || p.TestFirst? || p.Post1? || p.Wait2? }

  predicate Counting(p: Pc) { p.Increment? || p.TestFirst? || p.Post1? }

  ghost predicate Inv(s: State) {
    var a := Sum(s.pc, Arrived);
    && s.sem1 + Sum(s.pc, Holds) == 1
    && s.count == a - Sum(s.pc, Left)
    && s.threadCount == |s.pc| - Sum(s.pc, Left) - Sum(s.pc, Leaving)
    && (a < |s.pc| ==> s.sem2 == 0 && forall t :: 0 <= t < |s.pc| ==> Waiting(s.pc[t]))
    && (a == |s.pc| > 0 ==> s.sem2 + Sum(s.pc, Baton) == 1)
    && (forall t :: 0 <= t < |s.pc| && Counting(s.pc[t]) ==> Sum(s.pc, Left) == 0)
    && (forall t :: 0 <= t < |s.pc| && s.pc[t].Post1? ==> a < |s.pc|)
  }

  lemma SumsAre(s: State)
    ensures 0 <= Sum(s.pc, Arrived) <= |s.pc| && 0 <= Sum(s.pc, Left) <= |s.pc|
    ensures Sum(s.pc, Holds) >= 0 && Sum(s.pc, Leaving) >= 0 && Sum(s.pc, Baton) >= 0
    ensures Sum(s.pc, Arrived) == |s.pc| <==> forall t :: 0 <= t < |s.pc| ==> Arrived(s.pc[t]) == 1
  {
    SumBounds(s.pc, Arrived, 0, 1);
    SumBounds(s.pc, Left, 0, 1);
    SumBounds(s.pc, Holds, 0, 1);
    SumBounds(s.pc, Leaving, 0, 1);
    SumBounds(s.pc, Baton, 0, 1);
    SumLe(s.pc, Arrived, One);
    SumBounds(s.pc, One, 1, 1);
    if forall t :: 0 <= t < |s.pc| ==> Arrived(s.pc[t]) == 1 {
      SumBounds(s.pc, Arrived, 1, 1);
    }
  }

  function One(p: Pc): int { 1 }

  /** Whoever holds sem1 is alone with it, and is among those it is counted with. */
  lemma Alone(s: State, t: nat)
    requires Inv(s) && t < |s.pc|
    ensures Holds(s.pc[t]) == 1 ==> s.sem1 == 0 && forall u :: 0 <= u < |s.pc| && u != t ==> Holds(s.pc[u]) == 0
    ensures Holds(s.pc[t]) == 1 ==> Sum(s.pc, Leaving) == Leaving(s.pc[t])
    ensures Sum(s.pc, Arrived) == |s.pc| ==> Sum(s.pc, Baton) >= Baton(s.pc[t])
    ensures Sum(s.pc, Left) >= Left(s.pc[t])
  {
    SumMember(s.pc, Holds, t);
    SumMember(s.pc, Baton, t);
    SumMember(s.pc, Left, t);
    SumMember(s.pc, Leaving, t);
    if Holds(s.pc[t]) == 1 {
      forall u | 0 <= u < |s.pc| && u != t ensures Holds(s.pc[u]) == 0 {
        SumPair(s.pc, Holds, t, u);
      }
      var rest := s.pc[t := Done];
      SumUpdate(s.pc, t, Done, Leaving);
      SumBounds(rest, Leaving, 0, 0);
    }
  }

  lemma NextMovesOne(s: State, t: nat, w: Pc -> int)
    requires t < |s.pc|
    ensures |Next(s, t).pc| == |s.pc|
    ensures Sum(Next(s, t).pc, w) == Sum(s.pc, w) - w(s.pc[t]) + w(Next(s, t).pc[t])
  {
    assert Next(s, t).pc == s.pc[t := Next(s, t).pc[t]];
    SumUpdate(s.pc, t, Next(s, t).pc[t], w);
  }

  /** All threads have arrived once a thread is past its wait on sem2 or is the last to test. */
  lemma BatonMeansAll(s: State, t: nat)
    requires Inv(s) && t < |s.pc| && !Waiting(s.pc[t])
    ensures Sum(s.pc, Arrived) == |s.pc|
  {
    SumsAre(s);
  }

  /** The two tests: the first sends on exactly the last thread to arrive, the second always succeeds. */
  lemma Tests(s: State, t: nat)
    requires Inv(s) && t < |s.pc|
    ensures s.pc[t].TestFirst? ==> (s.count < s.threadCount <==> Sum(s.pc, Arrived) < |s.pc|)
    ensures s.pc[t].TestSecond? ==> s.threadCount == s.count
  {
    SumsAre(s);
    Alone(s, t);
  }

  /** While a thread counts itself nobody has left, and the baton is not out. */
  lemma BeforeAll(s: State, t: nat)
    requires Inv(s) && t < |s.pc| && Arrived(s.pc[t]) == 0
    ensures Sum(s.pc, Arrived) < |s.pc| && Sum(s.pc, Left) == 0 && Sum(s.pc, Leaving) == 0
    ensures s.pc[t].Increment? ==> Sum(s.pc, Baton) == 0
  {
    SumsAre(s);
    Alone(s, t);
    SumBounds(s.pc, Left, 0, 0);
    SumBounds(s.pc, Leaving, 0, 0);
    if s.pc[t].Increment? {
      SumBounds(s.pc, Baton, 0, 0);
    }
  }

  lemma NextKeepsInv(s: State, t: nat)
    requires Inv(s)
    ensures Inv(Next(s, t)) && |Next(s, t).pc| == |s.pc|
  {
    hide Prefix;
    if t < |s.pc| {
      NextMovesOne(s, t, Arrived);
      NextMovesOne(s, t, Holds);
      NextMovesOne(s, t, Left);
      NextMovesOne(s, t, Leaving);
      NextMovesOne(s, t, Baton);
      SumsAre(s);
      Alone(s, t);
      Tests(s, t);
      if Arrived(s.pc[t]) == 0 { BeforeAll(s, t); }
    }
  }

  lemma InitInv(n: nat)
    ensures Inv(Init(n))
  {
    var s := Init(n);
    SumBounds(s.pc, Arrived, 0, 0);
    SumBounds(s.pc, Holds, 0, 0);
    SumBounds(s.pc, Left, 0, 0);
    SumBounds(s.pc, Leaving, 0, 0);
    SumBounds(s.pc, Baton, 0, 0);
  }

  ghost predicate Reachable(n: nat, s: State) {
    Reaches(Next, Init(n), s)
  }

  lemma ReachableInv(n: nat, s: State)
    requires Reachable(n, s)
    ensures Inv(s) && |s.pc| == n
  {
    InitInv(n);
    hide Inv;
    var inv := (s: State) => Inv(s) && |s.pc| == n;
    forall s: State, t: nat | inv(s) ensures inv(Next(s, t)) {
      NextKeepsInv(s, t);
    }
    ReachesKeeps(Next, inv, Init(n), s);
  }

  /** No thread is past the barrier, or even past its wait on sem2, before all have counted themselves. */
  lemma NobodyLeavesEarly(n: nat, s: State, t: nat, u: nat)
    requires Reachable(n, s) && t < |s.pc| && u < |s.pc| && !Waiting(s.pc[t])
    ensures Arrived(s.pc[u]) == 1
  {
    ReachableInv(n, s);
    BatonMeansAll(s, t);
    SumsAre(s);
  }

  /** The second test never fails, so no thread leaves with sem1. */
  lemma SecondTestSucceeds(n: nat, s: State, t: nat)
    requires Reachable(n, s) && t < |s.pc| && s.pc[t].TestSecond?
    ensures s.threadCount == s.count && Next(s, t).pc[t].DropThread?
  {
    ReachableInv(n, s);
    Tests(s, t);
  }

  // Every run ends, with everybody through.

  function Weight(p: Pc): int {
    match p
    case Wait1 => 11
    case Increment => 10
    case TestFirst => 9
    case Post1 => 8
    case Wait2 => 7
    case Again => 6
    case TestSecond => 5
    case DropThread => 4
    case DropCount => 3
    case Leave1 => 2
    case Leave2 => 1
    case Done => 0
  }

  function Measure(s: State): int { Sum(s.pc, Weight) }

  /** However the threads are scheduled, the state changes at most eleven times per thread. */
  lemma RunsAreBounded(n: nat, sched: seq<nat>)
    ensures Moves(Next, Init(n), sched) <= 11 * n
  {
    var always := (s: State) => true;
    forall s: State ensures Measure(s) >= 0 {
      SumBounds(s.pc, Weight, 0, 11);
    }
    forall s: State, t: nat | Next(s, t) != s ensures Measure(Next(s, t)) < Measure(s) {
      NextMovesOne(s, t, Weight);
    }
    MovesBounded(Next, always, Measure, Init(n), sched);
    SumBounds(Init(n).pc, Weight, 11, 11);
  }

  lemma StuckWhere(s: State, t: nat)
    requires Inv(s) && Stuck(Next, s) && t < |s.pc|
    ensures s.pc[t].Done? || (s.pc[t].Wait2? && s.sem2 == 0) || (s.sem1 == 0 && (s.pc[t].Wait1? || s.pc[t].Again?))
  {
    assert Next(s, t) == s;
    assert Next(s, t).pc[t] == s.pc[t];
  }

  lemma StuckIsThrough(s: State)
    requires Inv(s) && Stuck(Next, s) && |s.pc| >= 1
    ensures forall t :: 0 <= t < |s.pc| ==> s.pc[t].Done?
    ensures s.count == 0 && s.threadCount == 0 && s.sem1 == 1 && s.sem2 == 1
  {
    SumsAre(s);
    forall t | 0 <= t < |s.pc|
      ensures s.pc[t].Done? || (s.pc[t].Wait2? && s.sem2 == 0) || (s.sem1 == 0 && (s.pc[t].Wait1? || s.pc[t].Again?))
    {
      StuckWhere(s, t);
    }
    SumBounds(s.pc, Holds, 0, 0);
    assert s.sem1 == 1;
    SumBounds(s.pc, Arrived, 1, 1);
    SumBounds(s.pc, Baton, 0, 0);
    assert s.sem2 == 1;
    SumBounds(s.pc, Left, 1, 1);
    SumBounds(s.pc, Leaving, 0, 0);
  }

  /** A run that can go no further has every thread through the barrier and the semaphores free. */
  lemma RunsFinish(n: nat, s: State)
    requires n >= 1 && Reachable(n, s) && Stuck(Next, s)
    ensures forall t :: 0 <= t < |s.pc| ==> s.pc[t].Done?
    ensures s.count == 0 && s.threadCount == 0 && s.sem1 == 1 && s.sem2 == 1
  {
    ReachableInv(n, s);
    StuckIsThrough(s);
  }

  // The barrier serves once.

  /** The state a run leaves behind, with `m` threads about to use the barrier again. */
  function UsedAgain(s: State, m: nat): State {
    s.(pc := seq(m, _ => Wait1))
  }

  predicate PassesThrough(p: Pc) { p.Increment? || p.TestFirst? || p.TestSecond? || p.Done? }

  /** All wait, or one has taken sem1 for good and the others wait. */
  ghost predicate SecondUse(s: State) {
    && s.threadCount == 0
    && ((s.sem1 == 1 && s.count == 0 && forall t :: 0 <= t < |s.pc| ==> s.pc[t].Wait1?) ||
        (s.sem1 == 0 && exists t :: 0 <= t < |s.pc| && OnlyPasses(s, t)))
  }

  ghost predicate OnlyPasses(s: State, t: nat)
    requires t < |s.pc|
  {
    && PassesThrough(s.pc[t]) && s.count == (if s.pc[t].Increment? then 0 else 1)
    && forall u :: 0 <= u < |s.pc| && u != t ==> s.pc[u].Wait1?
  }

  lemma NextKeepsSecondUse(s: State, t: nat)
    requires SecondUse(s)
    ensures SecondUse(Next(s, t)) && |Next(s, t).pc| == |s.pc|
  {
    if t < |s.pc| {
      if s.sem1 == 1 {
        assert OnlyPasses(Next(s, t), t);
      } else {
        var u: nat :| u < |s.pc| && OnlyPasses(s, u);
        assert OnlyPasses(Next(s, t), u);
      }
    }
  }

  /** In every run of a second use at most one thread gets past its first wait, and keeps sem1; when nobody can
      move, it alone is through and all the others wait for ever. */
  lemma SecondUseBlocks(n: nat, s: State, m: nat, sched: seq<nat>)
    requires n >= 1 && Reachable(n, s) && Stuck(Next, s)
    ensures var s' := Exec(Next, UsedAgain(s, m), sched);
            && |s'.pc| == m
            && (forall t, u :: 0 <= t < m && 0 <= u < m && t != u ==> s'.pc[t].Wait1? || s'.pc[u].Wait1?)
            && (forall t :: 0 <= t < m && !s'.pc[t].Wait1? ==> s'.sem1 == 0)
            && (Stuck(Next, s') && m > 0 ==> exists t :: 0 <= t < m && s'.pc[t].Done?)
  {
    RunsFinish(n, s);
    var again := UsedAgain(s, m);
    var inv := (s: State) => SecondUse(s) && |s.pc| == m;
    forall s: State, t: nat | inv(s) ensures inv(Next(s, t)) {
      NextKeepsSecondUse(s, t);
    }
    ExecKeeps(Next, inv, again, sched);
    var s' := Exec(Next, again, sched);
    if Stuck(Next, s') && m > 0 {
      var t: nat := 0;
      if s'.sem1 == 0 { t :| t < m && OnlyPasses(s', t); }
      assert Next(s', t) == s' && Next(s', t).pc[t] == s'.pc[t];
    }
  }

  // The barrier as it is updated in place.

  class BarrierT {
    var sem1: nat
    var sem2: nat
    var count: int
    var threadCount: int
    var pc: seq<Pc>

    ghost function View(): State
      reads this
    {
      State(sem1, sem2, count, threadCount, pc)
    }

    ghost predicate Valid()
      reads this
    {
      Inv(View())
    }

    constructor (n: nat)
      ensures View() == Init(n) && Valid()
    {
      threadCount, count, sem1, sem2 := n, 0, 1, 0;
      pc := seq(n, _ => Wait1);
      new;
      InitInv(n);
    }

    /** The next statement of thread `t`; its second test succeeds. */
    method Advance(t: nat)
      requires Valid() && t < |pc|
      modifies this
      ensures View() == Next(old(View()), t) && Valid()
    {
      ghost var before := View();
      NextKeepsInv(before, t);
      Tests(before, t);
      hide Inv;
      var p := pc[t];
      match p {
        case Wait1 => if sem1 > 0 { sem1, p := sem1 - 1, Increment; }
        case Increment => count, p := count + 1, TestFirst;
        case TestFirst => p := if count < threadCount then Post1 else TestSecond;
        case Post1 => sem1, p := sem1 + 1, Wait2;
        case Wait2 => if sem2 > 0 { sem2, p := sem2 - 1, Again; }
        case Again => if sem1 > 0 { sem1, p := sem1 - 1, TestSecond; }
        case TestSecond => p := if threadCount == count then DropThread else Done;
        case DropThread => threadCount, p := threadCount - 1, DropCount;
        case DropCount => count, p := count - 1, Leave1;
        case Leave1 => sem1, p := sem1 + 1, Leave2;
        case Leave2 => sem2, p := sem2 + 1, Done;
        case Done =>
      }
      pc := pc[t := p];
      assert View() == Next(before, t);
    }

    /** Any scheduler. */
    method Run(sched: seq<nat>)
      requires Valid()
      modifies this
      ensures View() == Exec(Next, old(View()), sched) && Valid()
    {
      hide Inv;
      for k := 0 to |sched|
        invariant View() == Exec(Next, old(View()), sched[..k]) && Valid()
      {
        ExecSnoc(Next, old(View()), sched[..k], sched[k]);
        assert sched[..k + 1] == sched[..k] + [sched[k]];
        if sched[k] < |pc| { Advance(sched[k]); }
      }
      assert sched[..|sched|] == sched;
    }
  }
}
