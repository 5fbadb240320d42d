/** The dining philosophers around a ring of any size from two on; with `reversed` the last of them takes the
    right fork first, without it everybody takes the left. */
module Philosophers {
  import opened Sums
  import opened Runs

  /** `i` is the round. */
  datatype Pc =
    | Think(i: nat)     // at the head of the loop; next: wait for the first fork
    | Second(i: nat)    // next: wait for the second fork
    | Eat(i: nat)       // holds both; next: eat and put the left fork
    | PutRight(i: nat)  // next: put the right fork
    | Done

  /** `meals[p]` counts the meals of p. */
  datatype State = State(reversed: bool, loops: nat, forks: seq<nat>, pc: seq<Pc>, meals: seq<nat>)

  function Init(reversed: bool, n: nat, loops: nat): State {
    State(reversed, loops, seq(n, _ => 1), seq(n, _ => Think(0)), seq(n, _ => 0))
  }

  function Left(p: nat): nat { p }

  function Right(n: nat, p: nat): nat
    requires p < n
  {
    (p + 1) % n
  }

  predicate RightFirst(s: State, p: nat) { s.reversed && p + 1 == |s.pc| }

  function FirstFork(s: State, p: nat): nat
    requires p < |s.pc|
  {
    if RightFirst(s, p) then Right(|s.pc|, p) else Left(p)
  }

  function SecondFork(s: State, p: nat): nat
    requires p < |s.pc|
  {
    if RightFirst(s, p) then Left(p) else Right(|s.pc|, p)
  }

  /** A semaphore per fork. */
  function Wait(s: State, f: nat, p: nat, next: Pc): State
    requires f < |s.forks| && p < |s.pc|
  {
    if s.forks[f] == 0 then s else s.(forks := s.forks[f := s.forks[f] - 1], pc := s.pc[p := next])
  }

  function Post(s: State, f: nat, p: nat, next: Pc): State
    requires f < |s.forks| && p < |s.pc|
  {
    s.(forks := s.forks[f := s.forks[f] + 1], pc := s.pc[p := next])
  }

  predicate Shape(s: State) { |s.forks| == |s.pc| == |s.meals| && |s.pc| >= 2 }

  /** Philosopher `p` takes its next step. */
  function Next(s: State, p: nat): State {
    if p >= |s.pc| || !Shape(s) then s else
    match s.pc[p]
    case Think(i) => if i == s.loops then s.(pc := s.pc[p := Done]) else Wait(s, FirstFork(s, p), p, Second(i))
    case Second(i) => Wait(s, SecondFork(s, p), p, Eat(i))
    case Eat(i) => Post(s.(meals := s.meals[p := s.meals[p] + 1]), Left(p), p, PutRight(i))
    case PutRight(i) => Post(s, Right(|s.pc|, p), p, Think(i + 1))
    case Done => s
  }

  // The invariant.

  function HoldsLeft(s: State, p: nat): nat
    requires p < |s.pc|
  {
    if s.pc[p].Eat? || (s.pc[p].Second? && !RightFirst(s, p)) then 1 else 0
  }

  function HoldsRight(s: State, p: nat): nat
    requires p < |s.pc|
  {
    if s.pc[p].Eat? || s.pc[p].PutRight? || (s.pc[p].Second? && RightFirst(s, p)) then 1 else 0
  }

  /** The neighbour whose right fork is `f`. */
  function Before(n: nat, f: nat): nat
    requires f < n
  {
    if f == 0 then n - 1 else f - 1
  }

  lemma RightBefore(n: nat, p: nat)
    requires p < n && n >= 2
    ensures Right(n, p) < n && Right(n, p) == if p + 1 == n then 0 else p + 1
    ensures Before(n, Right(n, p)) == p && Right(n, p) != p
    ensures Right(n, Before(n, p)) == p
  {
  }

  /** Every fork is on the table or in one hand. */
  ghost predicate Forks(s: State)
    requires Shape(s)
  {
    forall f :: 0 <= f < |s.forks| ==> s.forks[f] + HoldsLeft(s, f) + HoldsRight(s, Before(|s.pc|, f)) == 1
  }

  predicate Round(s: State, p: nat)
    requires Shape(s) && p < |s.pc|
  {
    match s.pc[p]
    case Think(i) => s.meals[p] == i <= s.loops
    case Second(i) => s.meals[p] == i < s.loops
    case Eat(i) => s.meals[p] == i < s.loops
    case PutRight(i) => s.meals[p] == i + 1 <= s.loops
    case Done => s.meals[p] == s.loops
  }

  ghost predicate Inv(s: State) {
    Shape(s) && Forks(s) && forall p :: 0 <= p < |s.pc| ==> Round(s, p)
  }

  /** Whether fork `f` is in a hand of `p`. */
  function InHandOf(s: State, p: nat, f: nat): int
    requires p < |s.pc|
  {
    (if f == p then HoldsLeft(s, p) else 0) + if f == Right(|s.pc|, p) then HoldsRight(s, p) else 0
  }

  /** A step changes one fork, with the hand of the one who takes it or puts it. */
  lemma OneFork(s: State, p: nat, f: nat)
    requires Shape(s) && p < |s.pc| && f < |s.pc| && Round(s, p)
    requires s.forks[p] + HoldsLeft(s, p) <= 1 && s.forks[Right(|s.pc|, p)] + HoldsRight(s, p) <= 1
    ensures var s' := Next(s, p);
            && Shape(s') && |s'.pc| == |s.pc| && Round(s', p)
            && s'.forks[f] + InHandOf(s', p, f) == s.forks[f] + InHandOf(s, p, f)
  {
    RightBefore(|s.pc|, p);
    hide Right;
  }

  lemma OthersStay(s: State, p: nat, q: nat)
    requires Shape(s) && p < |s.pc| && q < |s.pc| && p != q
    ensures var s' := Next(s, p);
            && Shape(s') && |s'.pc| == |s.pc|
            && HoldsLeft(s', q) == HoldsLeft(s, q) && HoldsRight(s', q) == HoldsRight(s, q)
            && (Round(s, q) ==> Round(s', q))
  {
  }

  lemma NextKeepsInv(s: State, p: nat)
    requires Inv(s)
    ensures Inv(Next(s, p))
  {
    if p < |s.pc| {
      var n, s' := |s.pc|, Next(s, p);
      RightBefore(n, p);
      assert Round(s, p);
      assert s.forks[p] + HoldsLeft(s, p) + HoldsRight(s, Before(n, p)) == 1;
      assert s.forks[Right(n, p)] + HoldsLeft(s, Right(n, p)) + HoldsRight(s, p) == 1;
      OneFork(s, p, p);
      hide Next, HoldsLeft, HoldsRight, Round, Right;
      forall f | 0 <= f < n
        ensures s'.forks[f] + HoldsLeft(s', f) + HoldsRight(s', Before(n, f)) == 1
      {
        assert s.forks[f] + HoldsLeft(s, f) + HoldsRight(s, Before(n, f)) == 1;
        RightBefore(n, f);
        OneFork(s, p, f);
        if f != p { OthersStay(s, p, f); }
        if Before(n, f) != p { OthersStay(s, p, Before(n, f)); }
      }
      forall q | 0 <= q < n ensures Round(s', q) {
        assert Round(s, q);
        if q != p { OthersStay(s, p, q); }
      }
    }
  }

  lemma NextKeepsShape(s: State, p: nat)
    ensures var s' := Next(s, p); s'.reversed == s.reversed && s'.loops == s.loops && |s'.pc| == |s.pc|
  {
  }

  ghost predicate Reachable(reversed: bool, n: nat, loops: nat, s: State) {
    Reaches(Next, Init(reversed, n, loops), s)
  }

  predicate Same(reversed: bool, n: nat, loops: nat, s: State) {
    s.reversed == reversed && s.loops == loops && |s.pc| == n
  }

  lemma ReachableInv(reversed: bool, n: nat, loops: nat, s: State)
    requires n >= 2 && Reachable(reversed, n, loops, s)
    ensures Inv(s) && Same(reversed, n, loops, s)
  {
    var s0 := Init(reversed, n, loops);
    assert Inv(s0) && Same(reversed, n, loops, s0);
    hide Inv, Next;
    var inv := (s: State) => Inv(s) && Same(reversed, n, loops, s);
    forall s: State, p: nat | inv(s) ensures inv(Next(s, p)) {
      NextKeepsInv(s, p);
      NextKeepsShape(s, p);
    }
    ReachesKeeps(Next, inv, s0, s);
  }

  /** Neighbours never eat at the same time, in either order of taking the forks. */
  lemma NeighboursExclude(reversed: bool, n: nat, loops: nat, s: State, p: nat)
    requires n >= 2 && Reachable(reversed, n, loops, s) && p < |s.pc| && s.pc[p].Eat?
    ensures !s.pc[Right(|s.pc|, p)].Eat?
  {
    ReachableInv(reversed, n, loops, s);
    RightBefore(n, p);
    assert s.forks[Right(n, p)] + HoldsLeft(s, Right(n, p)) + HoldsRight(s, p) == 1;
  }

  // Every run is bounded.

  function Weight(loops: nat): Pc -> int {
    (p: Pc) =>
      match p
      case Think(i) => 4 * (loops - i) + 1
      case Second(i) => 4 * (loops - i)
      case Eat(i) => 4 * (loops - i) - 1
      case PutRight(i) => 4 * (loops - i) - 2
      case Done => 0
  }

  function Measure(s: State): int { Sum(s.pc, Weight(s.loops)) }

  lemma NextDecreases(s: State, p: nat)
    requires Inv(s)
    ensures Measure(s) >= 0
    ensures Next(s, p) != s ==> Measure(Next(s, p)) < Measure(s)
  {
    forall q | 0 <= q < |s.pc| ensures 0 <= Weight(s.loops)(s.pc[q]) <= 4 * s.loops + 1 {
      assert Round(s, q);
    }
    SumBounds(s.pc, Weight(s.loops), 0, 4 * s.loops + 1);
    NextKeepsShape(s, p);
    if Next(s, p) != s {
      assert Round(s, p);
      assert Next(s, p).pc == s.pc[p := Next(s, p).pc[p]];
      SumUpdate(s.pc, p, Next(s, p).pc[p], Weight(s.loops));
    }
  }

  /** However the philosophers are scheduled, the state changes at most 4 * loops + 1 times for each. */
  lemma RunsAreBounded(reversed: bool, n: nat, loops: nat, sched: seq<nat>)
    requires n >= 2
    ensures Moves(Next, Init(reversed, n, loops), sched) <= (4 * loops + 1) * n
  {
    var s0 := Init(reversed, n, loops);
    assert Inv(s0);
    hide Inv, Next;
    forall s: State, p: nat | Inv(s)
      ensures Inv(Next(s, p)) && Measure(s) >= 0 && (Next(s, p) != s ==> Measure(Next(s, p)) < Measure(s))
    {
      NextKeepsInv(s, p);
      NextDecreases(s, p);
    }
    forall s: State | Inv(s) ensures Measure(s) >= 0 {
      NextDecreases(s, 0);
    }
    MovesBounded(Next, Inv, Measure, s0, sched);
    ExecKeeps(Next, Inv, s0, sched);
    SumBounds(s0.pc, Weight(loops), 4 * loops + 1, 4 * loops + 1);
  }

  // Where a run can end.

  predicate AllDone(s: State) {
    forall p :: 0 <= p < |s.pc| ==> s.pc[p].Done?
  }

  /** Everybody holds the left fork and waits for the right. */
  predicate Circle(s: State) {
    !s.reversed && forall p :: 0 <= p < |s.pc| ==> s.pc[p].Second?
  }

  lemma StuckAt(s: State, p: nat)
    requires Inv(s) && Stuck(Next, s) && p < |s.pc|
    ensures s.pc[p].Done? || (s.pc[p].Second? && s.forks[SecondFork(s, p)] == 0) ||
            (s.pc[p].Think? && s.forks[FirstFork(s, p)] == 0)
  {
    RightBefore(|s.pc|, p);
    assert Next(s, p) == s;
    assert Next(s, p).pc[p] == s.pc[p];
  }

  /** In a stuck state whoever waits for the right fork waits for a neighbour that does the same. */
  lemma WaitsOn(s: State, p: nat)
    requires Inv(s) && Stuck(Next, s) && p < |s.pc| && s.pc[p].Second? && !RightFirst(s, p)
    ensures var q := Right(|s.pc|, p); q < |s.pc| && s.pc[q].Second? && !RightFirst(s, q)
  {
    RightBefore(|s.pc|, p);
    var q := Right(|s.pc|, p);
    StuckAt(s, p);
    StuckAt(s, q);
    assert s.forks[q] + HoldsLeft(s, q) + HoldsRight(s, Before(|s.pc|, q)) == 1;
  }

  lemma {:induction false} WaitsUpTo(s: State, p: nat, q: nat)
    requires Inv(s) && Stuck(Next, s) && p <= q < |s.pc| && s.pc[p].Second? && !RightFirst(s, p)
    ensures s.pc[q].Second? && !RightFirst(s, q)
    decreases q - p
  {
    if p < q {
      WaitsOn(s, p);
      RightBefore(|s.pc|, p);
      WaitsUpTo(s, p + 1, q);
    }
  }

  /** One such wait goes all around the ring. */
  lemma WaitsAround(s: State, p: nat)
    requires Inv(s) && Stuck(Next, s) && p < |s.pc| && s.pc[p].Second? && !RightFirst(s, p)
    ensures Circle(s)
  {
    var last := |s.pc| - 1;
    WaitsUpTo(s, p, last);
    WaitsOn(s, last);
    RightBefore(|s.pc|, last);
    forall q | 0 <= q < |s.pc| ensures s.pc[q].Second? {
      WaitsUpTo(s, 0, q);
    }
  }

  lemma OneHand(s: State, f: nat)
    requires Inv(s) && f < |s.pc|
    ensures s.forks[f] + HoldsLeft(s, f) + HoldsRight(s, Before(|s.pc|, f)) == 1
  {
  }

  /** The one who takes the right fork first never waits for the left one for ever. */
  lemma LastDoesNotWait(s: State, p: nat)
    requires Inv(s) && Stuck(Next, s) && p < |s.pc| && RightFirst(s, p)
    ensures !s.pc[p].Second?
  {
    StuckAt(s, p);
    OneHand(s, p);
    StuckAt(s, Before(|s.pc|, p));
  }

  /** With no fork in hand, whoever has not finished can take one. */
  lemma StuckWithoutForks(s: State)
    requires Inv(s) && Stuck(Next, s) && forall p :: 0 <= p < |s.pc| ==> !s.pc[p].Second?
    ensures AllDone(s)
  {
    forall p | 0 <= p < |s.pc| ensures s.pc[p].Done? {
      StuckAt(s, p);
      RightBefore(|s.pc|, p);
      var f := FirstFork(s, p);
      assert s.forks[f] + HoldsLeft(s, f) + HoldsRight(s, Before(|s.pc|, f)) == 1;
      StuckAt(s, f);
      StuckAt(s, Before(|s.pc|, f));
    }
  }

  lemma CircleIsStuck(s: State)
    requires Inv(s) && Circle(s)
    ensures Stuck(Next, s) && !AllDone(s)
  {
    assert s.pc[0].Second?;
    forall p: nat ensures Next(s, p) == s {
      if p < |s.pc| {
        RightBefore(|s.pc|, p);
        var f := Right(|s.pc|, p);
        assert s.forks[f] + HoldsLeft(s, f) + HoldsRight(s, Before(|s.pc|, f)) == 1;
      }
    }
  }

  lemma CircleHasMeals(s: State)
    requires Inv(s) && Circle(s)
    ensures !s.reversed && s.loops >= 1
  {
    assert Round(s, 0);
  }

  /** A reachable state is stuck before the end exactly when everybody holds the left fork and waits for the right. */
  lemma DeadlockIsTheCircle(reversed: bool, n: nat, loops: nat, s: State)
    requires n >= 2 && Reachable(reversed, n, loops, s)
    ensures Stuck(Next, s) && !AllDone(s) <==> Circle(s)
  {
    ReachableInv(reversed, n, loops, s);
    if Circle(s) {
      CircleIsStuck(s);
    } else if Stuck(Next, s) {
      forall p | 0 <= p < |s.pc| ensures !s.pc[p].Second? {
        if s.pc[p].Second? {
          if RightFirst(s, p) { LastDoesNotWait(s, p); } else { WaitsAround(s, p); }
        }
      }
      StuckWithoutForks(s);
    }
  }

  /** With the last one reversed every run that can go no further has ended, after `loops` meals each. */
  lemma ReversedFinishes(n: nat, loops: nat, s: State)
    requires n >= 2 && Reachable(true, n, loops, s) && Stuck(Next, s)
    ensures AllDone(s) && s.meals == seq(n, _ => loops) && s.forks == seq(n, _ => 1)
  {
    DeadlockIsTheCircle(true, n, loops, s);
    ReachableInv(true, n, loops, s);
    forall p | 0 <= p < n ensures s.meals[p] == loops && s.forks[p] == 1 {
      assert Round(s, p);
      assert s.forks[p] + HoldsLeft(s, p) + HoldsRight(s, Before(n, p)) == 1;
    }
  }

  /** The state after the first `k` philosophers have each taken the left fork. */
  function Seated(n: nat, loops: nat, k: nat): State {
    State(false, loops, seq(n, f => if f < k then 0 else 1), seq(n, p => if p < k then Second(0) else Think(0)),
          seq(n, _ => 0))
  }

  lemma {:induction false} SeatedReachable(n: nat, loops: nat, k: nat)
    requires n >= 2 && loops >= 1 && k <= n
    ensures Reachable(false, n, loops, Seated(n, loops, k))
  {
    if k == 0 {
      ReachesSelf(Next, Init(false, n, loops));
      assert Seated(n, loops, 0) == Init(false, n, loops);
    } else {
      SeatedReachable(n, loops, k - 1);
      var s := Seated(n, loops, k - 1);
      var p: nat := k - 1;
      ReachesStep(Next, Init(false, n, loops), s, p);
      var s' := Next(s, k - 1);
      assert s'.forks == Seated(n, loops, k).forks && s'.pc == Seated(n, loops, k).pc;
    }
  }

  ghost predicate Deadlocks(reversed: bool, n: nat, loops: nat) {
    exists s :: Reachable(reversed, n, loops, s) && Stuck(Next, s) && !AllDone(s)
  }

  /** Some run deadlocks exactly if nobody is reversed and there is a meal to be eaten. */
  lemma DeadlockIff(reversed: bool, n: nat, loops: nat)
    requires n >= 2
    ensures Deadlocks(reversed, n, loops) <==> !reversed && loops >= 1
  {
    if !reversed && loops >= 1 {
      var s := Seated(n, loops, n);
      SeatedReachable(n, loops, n);
      DeadlockIsTheCircle(false, n, loops, s);
    } else if Deadlocks(reversed, n, loops) {
      var s :| Reachable(reversed, n, loops, s) && Stuck(Next, s) && !AllDone(s);
      DeadlockIsTheCircle(reversed, n, loops, s);
      ReachableInv(reversed, n, loops, s);
      CircleHasMeals(s);
    }
  }

  /** The table of the two programs, with five. */
  lemma FiveAtTable(loops: nat)
    ensures !Deadlocks(true, 5, loops) && (Deadlocks(false, 5, loops) <==> loops >= 1)
  {
    DeadlockIff(true, 5, loops);
    DeadlockIff(false, 5, loops);
  }

  // The table as it is updated in place.

  class Table {
    const reversed: bool
    const loops: nat
    const forks: array<nat>
    var pc: seq<Pc>
    ghost var meals: seq<nat>

    ghost function View(): State
      reads this, forks
    {
      State(reversed, loops, forks[..], pc, meals)
    }

    ghost predicate Valid()
      reads this, forks
    {
      Inv(View())
    }

    constructor (reversed: bool, n: nat, loops: nat)
      requires n >= 2
      ensures fresh(forks) && View() == Init(reversed, n, loops) && Valid()
    {
      this.reversed, this.loops := reversed, loops;
      forks := new nat[n](_ => 1);
      pc := seq(n, _ => Think(0));
      meals := seq(n, _ => 0);
      new;
      assert forks[..] == seq(n, _ => 1);
    }

    method SemWait(f: nat) returns (ok: bool)
      requires f < forks.Length
      modifies forks
      ensures ok == (old(forks[f]) > 0)
      ensures forks[..] == if ok then old(forks[..])[f := old(forks[f]) - 1] else old(forks[..])
    {
      ok := forks[f] > 0;
      if ok {
        forks[f] := forks[f] - 1;
      }
    }

    /** The next statement of philosopher `p` in get_forks. */
    method GetForks(p: nat)
      requires Valid() && p < |pc| && (pc[p].Think? || pc[p].Second?)
      modifies this`pc, forks
      ensures View() == Next(old(View()), p) && Valid()
    {
      ghost var before := View();
      NextKeepsInv(before, p);
      RightBefore(|pc|, p);
      hide Inv, Right;
      var first := pc[p].Think?;
      var f := if first == (reversed && p + 1 == |pc|) then Right(|pc|, p) else Left(p);
      assert f == if first then FirstFork(before, p) else SecondFork(before, p);
      hide Left, FirstFork, SecondFork;
      if first && pc[p].i == loops {
        pc := pc[p := Done];
      } else {
        var ok := SemWait(f);
        if ok { pc := pc[p := if first then Second(pc[p].i) else Eat(pc[p].i)]; }
      }
      assert View() == Next(before, p);
    }

    /** The next statement of philosopher `p` in put_forks. */
    method PutForks(p: nat)
      requires Valid() && p < |pc| && (pc[p].Eat? || pc[p].PutRight?)
      modifies this`pc, this`meals, forks
      ensures View() == Next(old(View()), p) && Valid()
    {
      ghost var before := View();
      NextKeepsInv(before, p);
      RightBefore(|pc|, p);
      hide Inv, Right;
      if pc[p].Eat? {
        meals := meals[p := meals[p] + 1];
        forks[Left(p)] := forks[Left(p)] + 1;
        pc := pc[p := PutRight(pc[p].i)];
      } else {
        var right := Right(|pc|, p);
        forks[right] := forks[right] + 1;
        pc := pc[p := Think(pc[p].i + 1)];
      }
      assert View() == Next(before, p);
    }

    /** Any scheduler. */
    method Run(sched: seq<nat>)
      requires Valid()
      modifies this`pc, this`meals, forks
      ensures View() == Exec(Next, old(View()), sched) && Valid()
    {
      hide Inv, Next;
      for k := 0 to |sched|
        invariant View() == Exec(Next, old(View()), sched[..k]) && Valid()
      {
        ExecSnoc(Next, old(View()), sched[..k], sched[k]);
        assert sched[..k + 1] == sched[..k] + [sched[k]];
        NobodyMoves(View(), sched[k]);
        if sched[k] < |pc| {
          if pc[sched[k]].Think? || pc[sched[k]].Second? {
            GetForks(sched[k]);
          } else if !pc[sched[k]].Done? {
            PutForks(sched[k]);
          }
        }
      }
      assert sched[..|sched|] == sched;
    }
  }

  lemma NobodyMoves(s: State, p: nat)
    ensures p >= |s.pc| || s.pc[p].Done? ==> Next(s, p) == s
  {
  }
}
