/** The barrier when threads that are through call it again, any number of times, while others are still in
    their first use. */
module BarrierReuse {
  import opened Sums
  import opened Runs
  import B = Barrier

  /** `again` holds the threads that have called the barrier more than once. */
  datatype State = State(b: B.State, again: set<nat>)

  datatype Choice = Step(t: nat) | CallAgain(t: nat)

  function Init(n: nat): State {
    State(B.Init(n), {})
  }

  function Next(s: State, c: Choice): State {
    match c
    case Step(t) => s.(b := B.Next(s.b, t))
    case CallAgain(t) =>
      if t < |s.b.pc| && s.b.pc[t].Done? then State(B.Goto(s.b, t, B.Wait1), s.again + {t}) else s
  }

  /** A repeated call gets past its first wait. */
  predicate EntersAgain(s: State, c: Choice) {
    c.Step? && c.t < |s.b.pc| && c.t in s.again && s.b.pc[c.t].Wait1? && s.b.sem1 > 0
  }

  /** The first use, in which a thread that has called again is through. */
  function FirstUse(s: State): B.State {
    s.b.(pc := seq(|s.b.pc|, t requires 0 <= t < |s.b.pc| => if t in s.again then B.Done else s.b.pc[t]))
  }

  /** Repeated calls wait at their first wait, and the first use goes on as if there were none. */
  ghost predicate Before(s: State) {
    && (forall t <- s.again :: t < |s.b.pc| && s.b.pc[t].Wait1?)
    && B.Inv(FirstUse(s))
  }

  predicate WithoutSem1(p: B.Pc) { p.Wait1? || p.Wait2? || p.Again? || p.Leave2? || p.Done? }

  /** Thread `r` has taken sem1 in a repeated call, and does not give it back. */
  predicate KeptBy(s: State, r: nat)
    requires r < |s.b.pc|
  {
    && r in s.again
    && (match s.b.pc[r]
        case Increment => s.b.count == s.b.threadCount
        case TestFirst | TestSecond => s.b.count == s.b.threadCount + 1
        case p => WithoutSem1(p))
    && forall u :: 0 <= u < |s.b.pc| && u != r ==> WithoutSem1(s.b.pc[u])
  }

  ghost predicate After(s: State) {
    s.b.sem1 == 0 && exists r: nat :: r < |s.b.pc| && KeptBy(s, r)
  }

  lemma NotBoth(s: State)
    requires Before(s)
    ensures !After(s)
  {
    if s.b.sem1 == 0 {
      var h := SumWitness(FirstUse(s).pc, B.Holds);
      assert h !in s.again && B.Holds(s.b.pc[h]) == 1;
    }
  }

  lemma NextOfAfter(s: State, c: Choice)
    requires After(s)
    ensures After(Next(s, c)) && !EntersAgain(s, c) && |Next(s, c).b.pc| == |s.b.pc|
  {
    var r: nat :| r < |s.b.pc| && KeptBy(s, r);
    assert KeptBy(Next(s, c), r);
  }

  lemma FirstUseMoves(s: State, t: nat)
    requires Before(s) && t !in s.again
    ensures Before(Next(s, Step(t))) && FirstUse(Next(s, Step(t))) == B.Next(FirstUse(s), t)
  {
    hide B.Inv;
    var f, s' := FirstUse(s), Next(s, Step(t));
    B.NextKeepsInv(f, t);
    assert FirstUse(s').pc == B.Next(f, t).pc;
    assert FirstUse(s') == B.Next(f, t);
  }

  /** Until a repeated call takes sem1 its thread counts as through. */
  lemma NextOfBefore(s: State, c: Choice)
    requires Before(s)
    ensures if EntersAgain(s, c) then After(Next(s, c)) else Before(Next(s, c))
    ensures |Next(s, c).b.pc| == |s.b.pc|
  {
    hide B.Inv;
    if EntersAgain(s, c) {
      TakesSem1(s, c.t);
    } else if c.Step? && c.t !in s.again {
      FirstUseMoves(s, c.t);
    } else {
      assert FirstUse(Next(s, c)).pc == FirstUse(s).pc;
    }
  }

  lemma TakesSem1(s: State, r: nat)
    requires Before(s) && r in s.again && s.b.sem1 > 0
    ensures After(Next(s, Step(r)))
  {
    var f := FirstUse(s);
    assert f.pc[r].Done?;
    B.BatonMeansAll(f, r);
    B.SumsAre(f);
    SumZero(f.pc, B.Holds);
    SumBounds(f.pc, B.Leaving, 0, 0);
    forall u | 0 <= u < |s.b.pc| && u != r ensures WithoutSem1(s.b.pc[u]) {
      if u !in s.again { assert f.pc[u] == s.b.pc[u]; }
    }
    assert KeptBy(Next(s, Step(r)), r);
  }

  ghost predicate Inv(s: State) { Before(s) || After(s) }

  lemma NextKeepsInv(s: State, c: Choice)
    requires Inv(s)
    ensures Inv(Next(s, c)) && |Next(s, c).b.pc| == |s.b.pc|
    ensures EntersAgain(s, c) <==> !After(s) && After(Next(s, c))
  {
    hide Before, After, EntersAgain, Next;
    if After(s) {
      NextOfAfter(s, c);
    } else {
      NextOfBefore(s, c);
      if !EntersAgain(s, c) { NotBoth(Next(s, c)); }
    }
  }

  lemma InitBefore(n: nat)
    ensures Before(Init(n))
  {
    B.InitInv(n);
    assert FirstUse(Init(n)).pc == B.Init(n).pc;
    assert FirstUse(Init(n)) == B.Init(n);
  }

  /** In every run at most one repeated call gets past its first wait, and from then on nobody takes sem1. */
  lemma EntersAgainOnce(n: nat, sched: seq<Choice>)
    ensures var s := Exec(Next, Init(n), sched);
            var entries := Count(Next, EntersAgain, Init(n), sched);
            && Inv(s) && |s.b.pc| == n
            && entries <= 1 && (entries == 1 <==> After(s))
  {
    InitBefore(n);
    NotBoth(Init(n));
    hide After, Before;
    var inv := (s: State) => Inv(s) && |s.b.pc| == n;
    var level := (s: State) => if After(s) then 1 else 0;
    forall s: State, c: Choice | inv(s)
      ensures inv(Next(s, c)) && level(Next(s, c)) == level(s) + if EntersAgain(s, c) then 1 else 0
    {
      NextKeepsInv(s, c);
      if After(s) { NextOfAfter(s, c); }
    }
    EventsCounted(Next, inv, EntersAgain, level, Init(n), sched);
    ExecKeeps(Next, inv, Init(n), sched);
  }

  // Who still gets through.

  /** Some continuation takes thread `t` through the call it is in. */
  ghost predicate CanLeave(s: State, t: nat) {
    exists s' :: Reaches(Next, s, s') && t < |s'.b.pc| && s'.b.pc[t].Done?
  }

  predicate BehindSem1(p: B.Pc) { p.Wait1? || p.Wait2? || p.Again? }

  lemma ShutOut(s: State, t: nat, s': State)
    requires After(s) && Reaches(Next, s, s') && t !in s.again && t < |s.b.pc| && BehindSem1(s.b.pc[t])
    ensures t < |s'.b.pc| && BehindSem1(s'.b.pc[t])
  {
    hide After;
    var inv := (s: State) => After(s) && t !in s.again && t < |s.b.pc| && BehindSem1(s.b.pc[t]);
    forall s: State, c: Choice | inv(s) ensures inv(Next(s, c)) {
      NextOfAfter(s, c);
      assert s.b.sem1 == 0 by { SemIsShut(s); }
    }
    ReachesKeeps(Next, inv, s, s');
  }

  lemma SemIsShut(s: State)
    requires After(s)
    ensures s.b.sem1 == 0
  {}

  /** While no repeated call has taken sem1, everybody in the first use can get through. */
  lemma {:induction false} FirstUseGoesOn(s0: State, s: State, t: nat)
    requires Before(s) && Reaches(Next, s0, s) && t < |s.b.pc| && t !in s.again
    ensures CanLeave(s0, t)
    decreases B.Measure(FirstUse(s)) + 1
  {
    hide B.Inv, B.Measure;
    var f := FirstUse(s);
    if !s.b.pc[t].Done? {
      var u := SomebodyMoves(f, t);
      FirstUseMoves(s, u);
      var s' := Go(Next, s0, s, Step(u));
      FirstUseGoesOn(s0, s', t);
    }
  }

  lemma SomebodyMoves(f: B.State, t: nat) returns (u: nat)
    requires B.Inv(f) && t < |f.pc| && !f.pc[t].Done?
    ensures u < |f.pc| && !f.pc[u].Done? && 0 <= B.Measure(B.Next(f, u)) < B.Measure(f)
  {
    if Stuck(B.Next, f) { B.StuckIsThrough(f); }
    u :| B.Next(f, u) != f;
    B.NextMovesOne(f, u, B.Weight);
    SumBounds(B.Next(f, u).pc, B.Weight, 0, 11);
  }

  /** A thread in its first use can still get through unless a repeated call has got past its first wait before
      this thread has given sem1 back. */
  lemma CanLeaveIff(n: nat, sched: seq<Choice>, t: nat)
    requires t < n && t !in Exec(Next, Init(n), sched).again
    ensures var s := Exec(Next, Init(n), sched);
            && |s.b.pc| == n
            && (CanLeave(s, t) <==>
                Count(Next, EntersAgain, Init(n), sched) == 0 || s.b.pc[t].Leave2? || s.b.pc[t].Done?)
  {
    var s := Exec(Next, Init(n), sched);
    EntersAgainOnce(n, sched);
    CanLeaveFrom(s, t);
    assert After(s) <==> Count(Next, EntersAgain, Init(n), sched) == 1;
  }

  lemma CanLeaveFrom(s: State, t: nat)
    requires Inv(s) && t < |s.b.pc| && t !in s.again
    ensures CanLeave(s, t) <==> !After(s) || s.b.pc[t].Leave2? || s.b.pc[t].Done?
  {
    ReachesSelf<State, Choice>(Next, s);
    if !After(s) {
      FirstUseGoesOn(s, s, t);
    } else if s.b.pc[t].Leave2? || s.b.pc[t].Done? {
      var s' := Go(Next, s, s, Step(t));
      assert s'.b.pc[t].Done?;
    } else {
      assert BehindSem1(s.b.pc[t]);
      forall s' | Reaches(Next, s, s') && t < |s'.b.pc| ensures !s'.b.pc[t].Done? {
        ShutOut(s, t, s');
      }
    }
  }

  // Whether anybody is left behind.

  /** A run that goes on until the first thread is about to leave. */
  lemma {:induction false} FirstLeaver(s0: State, s: State) returns (s': State, r: nat)
    requires B.Inv(s.b) && s.again == {} && |s.b.pc| > 0 && Reaches(Next, s0, s)
    requires forall t :: 0 <= t < |s.b.pc| ==> !s.b.pc[t].Done?
    ensures Reaches(Next, s0, s') && s'.again == {} && r < |s'.b.pc| == |s.b.pc| && B.Inv(s'.b)
    ensures s'.b.pc[r].Leave2? && forall t :: 0 <= t < |s'.b.pc| ==> !s'.b.pc[t].Done?
    decreases B.Measure(s.b) + 1
  {
    var u := SomebodyMoves(s.b, 0);
    if s.b.pc[u].Leave2? {
      s', r := s, u;
    } else {
      B.NextKeepsInv(s.b, u);
      B.Tests(s.b, u);
      hide B.Inv, B.Measure;
      var next := Go(Next, s0, s, Step(u));
      s', r := FirstLeaver(s0, next);
    }
  }

  /** While the first thread leaves, the others are at their wait on sem2 and sem1 is free. */
  lemma OthersWait(s: B.State, r: nat, u: nat)
    requires B.Inv(s) && r < |s.pc| && s.pc[r].Leave2? && u < |s.pc| && u != r && !s.pc[u].Done?
    ensures s.pc[u].Wait2?
  {
    B.BatonMeansAll(s, r);
    B.SumsAre(s);
    SumPair(s.pc, B.Baton, r, u);
  }

  /** The first to leave calls again and takes sem1. */
  lemma CallsAgain(s0: State, s: State, r: nat) returns (s': State)
    requires B.Inv(s.b) && s.again == {} && Reaches(Next, s0, s)
    requires r < |s.b.pc| && s.b.pc[r].Done? && s.b.sem1 > 0
    ensures Reaches(Next, s0, s') && s'.again == {r} && After(s')
    ensures s'.b.pc == s.b.pc[r := B.Increment] && s'.b.sem2 == s.b.sem2
  {
    assert FirstUse(s).pc == s.b.pc;
    assert FirstUse(s) == s.b;
    hide B.Inv, After;
    NextOfBefore(s, CallAgain(r));
    s' := Go(Next, s0, s, CallAgain(r));
    TakesSem1(s', r);
    s' := Go(Next, s0, s', Step(r));
  }

  /** With two threads or more, a call of the first to leave keeps out one that is at its wait on sem2. */
  lemma LeftBehindRun(n: nat) returns (s: State, t: nat)
    requires n >= 2
    ensures Reaches(Next, Init(n), s) && t < |s.b.pc| == n && t !in s.again && s.b.pc[t].Wait2? && s.b.sem2 == 1
    ensures After(s)
  {
    B.InitInv(n);
    ReachesSelf<State, Choice>(Next, Init(n));
    var r: nat;
    s, r := FirstLeaver(Init(n), Init(n));
    t := if r == 0 then 1 else 0;
    OthersWait(s.b, r, t);
    LeaverAlone(s.b, r);
    B.NextKeepsInv(s.b, r);
    hide B.Inv, After;
    s := Go(Next, Init(n), s, Step(r));
    s := CallsAgain(Init(n), s, r);
  }

  lemma LeaverAlone(s: B.State, r: nat)
    requires B.Inv(s) && r < |s.pc| && s.pc[r].Leave2? && forall u :: 0 <= u < |s.pc| ==> !s.pc[u].Done?
    ensures s.sem2 == 0 && s.sem1 == 1
  {
    B.BatonMeansAll(s, r);
    B.SumsAre(s);
    SumMember(s.pc, B.Baton, r);
    forall u | 0 <= u < |s.pc| ensures B.Holds(s.pc[u]) == 0 {
      if u != r { OthersWait(s, r, u); }
    }
    SumBounds(s.pc, B.Holds, 0, 0);
  }

  /** Repeated calls can leave a thread of the first use waiting for ever exactly if there are two threads. */
  lemma LeftBehindIff(n: nat)
    ensures (exists s, t: nat ::
               Reaches(Next, Init(n), s) && t < |s.b.pc| && t !in s.again && !CanLeave(s, t)) <==> n >= 2
  {
    if n >= 2 {
      var s, t := LeftBehindRun(n);
      CanLeaveFrom(s, t);
    }
    forall s, t: nat | Reaches(Next, Init(n), s) && t < |s.b.pc| && t !in s.again && !CanLeave(s, t)
      ensures n >= 2
    {
      var sched :| Exec(Next, Init(n), sched) == s;
      EntersAgainOnce(n, sched);
      CanLeaveFrom(s, t);
      var r: nat :| r < |s.b.pc| && KeptBy(s, r);
      assert r != t;
    }
  }
}
