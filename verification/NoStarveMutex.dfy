/** The two-turnstile mutex: any number of threads, any schedule, any choice of the waiter a post releases.
    A program counter names what a thread executes next.  A change of room2, which only the turnstiles protect,
    is a load and a store; a change of room1, which the mutex protects, is one step, with the test that follows. */
module NoStarveMutex {
  import opened Sums
  import opened Runs

  datatype Pc =
    | Idle        // outside; next: wait(mutex)
    | AddRoom1    // next: room1 += 1
    | UnlockAdded // next: post(mutex)
    | WaitT1      // next: wait(t1)
    | AddRoom2    // room2 += 1; next: load room2
    | AddedRoom2(sum: int)  // next: store it
    | LockAgain   // next: wait(mutex)
    | LeaveRoom1  // next: room1 -= 1 and the test of room1
    | UnlockOpen  // room1 was 0; next: post(mutex)
    | OpenT2      // next: post(t2)
    | UnlockPass  // room1 was not 0; next: post(mutex)
    | PassT1      // next: post(t1)
    | WaitT2      // next: wait(t2)
    | LeaveRoom2  // room2 -= 1; next: load room2
    | LeftRoom2(rest: int)  // next: store it
    | Critical    // in the critical section; next: release's test of room2
    | GiveT1      // next: post(t1)
    | GiveT2      // next: post(t2)

  datatype State = State(room1: int, room2: int, mutex: nat, t1: nat, t2: nat, pc: seq<Pc>)

  /** `n` threads; `t2` is the initial value given to the second turnstile. */
  function Init(n: nat, t2: nat): State {
    State(0, 0, 1, 1, t2, seq(n, _ => Idle))
  }

  /** One atomic step of thread `t`; a wait on a closed semaphore changes nothing. */
  function Next(s: State, t: nat): State {
    if t >= |s.pc| then s else
    match s.pc[t]
    case Idle => if s.mutex == 0 then s else s.(mutex := s.mutex - 1, pc := s.pc[t := AddRoom1])
    case AddRoom1 => s.(room1 := s.room1 + 1, pc := s.pc[t := UnlockAdded])
    case UnlockAdded => s.(mutex := s.mutex + 1, pc := s.pc[t := WaitT1])
    case WaitT1 => if s.t1 == 0 then s else s.(t1 := s.t1 - 1, pc := s.pc[t := AddRoom2])
    case AddRoom2 => s.(pc := s.pc[t := AddedRoom2(s.room2 + 1)])
    case AddedRoom2(sum) => s.(room2 := sum, pc := s.pc[t := LockAgain])
    case LockAgain => if s.mutex == 0 then s else s.(mutex := s.mutex - 1, pc := s.pc[t := LeaveRoom1])
    case LeaveRoom1 =>
      s.(room1 := s.room1 - 1, pc := s.pc[t := if s.room1 - 1 == 0 then UnlockOpen else UnlockPass])
    case UnlockOpen => s.(mutex := s.mutex + 1, pc := s.pc[t := OpenT2])
    case OpenT2 => s.(t2 := s.t2 + 1, pc := s.pc[t := WaitT2])
    case UnlockPass => s.(mutex := s.mutex + 1, pc := s.pc[t := PassT1])
    case PassT1 => s.(t1 := s.t1 + 1, pc := s.pc[t := WaitT2])
    case WaitT2 => if s.t2 == 0 then s else s.(t2 := s.t2 - 1, pc := s.pc[t := LeaveRoom2])
    case LeaveRoom2 => s.(pc := s.pc[t := LeftRoom2(s.room2 - 1)])
    case LeftRoom2(rest) => s.(room2 := rest, pc := s.pc[t := Critical])
    case Critical => s.(pc := s.pc[t := if s.room2 == 0 then GiveT1 else GiveT2])
    case GiveT1 => s.(t1 := s.t1 + 1, pc := s.pc[t := Idle])
    case GiveT2 => s.(t2 := s.t2 + 1, pc := s.pc[t := Idle])
  }

  // Regions of the program.

  function HoldsMutex(p: Pc): int {
    match p case AddRoom1 | UnlockAdded | LeaveRoom1 | UnlockOpen | UnlockPass => 1 case _ => 0
  }

  /** Between a wait on either turnstile and the next post of either. */
  function HoldsTurn(p: Pc): int {
    match p
    case AddRoom2 | LockAgain | LeaveRoom1 | UnlockOpen | OpenT2 | UnlockPass | PassT1 => 1
    case LeaveRoom2 | Critical | GiveT1 | GiveT2 => 1
    case AddedRoom2(_) => 1
    case LeftRoom2(_) => 1
    case _ => 0
  }

  function InRoom1(p: Pc): int {
    match p
    case UnlockAdded | WaitT1 | AddRoom2 | LockAgain | LeaveRoom1 => 1
    case AddedRoom2(_) => 1
    case _ => 0
  }

  function InRoom2(p: Pc): int {
    match p
    case LockAgain | LeaveRoom1 | UnlockOpen | OpenT2 | UnlockPass | PassT1 | WaitT2 | LeaveRoom2 => 1
    case LeftRoom2(_) => 1
    case _ => 0
  }

  /** The next statement reads or writes room2. */
  predicate TouchesRoom2(p: Pc) { p.AddRoom2? || p.AddedRoom2? || p.LeaveRoom2? || p.LeftRoom2? || p.Critical? }

  /** The next statement reads or writes room1. */
  predicate TouchesRoom1(p: Pc) { p.AddRoom1? || p.LeaveRoom1? }

  /** Conservation, whatever the turnstiles started with: tokens never appear or vanish. */
  ghost predicate Conserved(s: State, tokens: nat) {
    && s.mutex + Sum(s.pc, HoldsMutex) == 1
    && s.t1 + s.t2 + Sum(s.pc, HoldsTurn) == tokens
    && s.room1 == Sum(s.pc, InRoom1)
  }

  /** room2 counts its occupants, and what a thread has loaded of it is still true. */
  ghost predicate Room2Counts(s: State) {
    && s.room2 == Sum(s.pc, InRoom2)
    && forall i :: 0 <= i < |s.pc| ==> Loaded(s, s.pc[i])
  }

  predicate Loaded(s: State, p: Pc) {
    (p.AddedRoom2? ==> p.sum == s.room2 + 1) && (p.LeftRoom2? ==> p.rest == s.room2 - 1)
  }

  /** What the single token of the intended initial state carries with it. */
  ghost predicate Inv(s: State) {
    && Conserved(s, 1)
    && Room2Counts(s)
    && (forall i :: 0 <= i < |s.pc| && (s.pc[i].UnlockPass? || s.pc[i].PassT1?) ==> s.room1 > 0)
    && (forall i :: 0 <= i < |s.pc| && s.pc[i].GiveT1? ==> s.room2 == 0)
    && (forall i :: 0 <= i < |s.pc| && s.pc[i].GiveT2? ==> s.room2 > 0)
    && (s.t1 > 0 ==> s.room2 == 0 || s.room1 > 0)
    && (s.t2 > 0 ==> s.room2 > 0)
  }

  /** A step moves one thread, so a sum over the threads changes by that thread's weights alone. */
  lemma NextMovesOne(s: State, t: nat, w: Pc -> int)
    requires t < |s.pc|
    ensures |Next(s, t).pc| == |s.pc|
    ensures Sum(Next(s, t).pc, w) == Sum(s.pc, w) - w(s.pc[t]) + w(Next(s, t).pc[t])
  {
    assert Next(s, t).pc == s.pc[t := Next(s, t).pc[t]];
    SumUpdate(s.pc, t, Next(s, t).pc[t], w);
  }

  lemma NextConserves(s: State, t: nat, tokens: nat)
    requires Conserved(s, tokens)
    ensures Conserved(Next(s, t), tokens)
  {
    if t < |s.pc| {
      NextMovesOne(s, t, HoldsMutex);
      NextMovesOne(s, t, HoldsTurn);
      NextMovesOne(s, t, InRoom1);
    }
  }

  /** One token, or one thread: whoever holds a token is alone with room2. */
  predicate OneAtRoom2(s: State, tokens: nat) { tokens <= 1 || |s.pc| <= 1 }

  lemma NextKeepsRoom2(s: State, t: nat, tokens: nat)
    requires Conserved(s, tokens) && OneAtRoom2(s, tokens) && Room2Counts(s)
    ensures Room2Counts(Next(s, t))
  {
    if t < |s.pc| {
      NextMovesOne(s, t, InRoom2);
      HolderIsAlone(s, t, tokens);
      hide Conserved, Sum;
    }
  }

  lemma HolderIsAlone(s: State, t: nat, tokens: nat)
    requires Conserved(s, tokens) && OneAtRoom2(s, tokens) && t < |s.pc|
    ensures HoldsTurn(s.pc[t]) == 1 ==> forall i :: 0 <= i < |s.pc| && i != t ==> HoldsTurn(s.pc[i]) == 0
  {
    forall i | 0 <= i < |s.pc| && i != t ensures HoldsTurn(s.pc[t]) + HoldsTurn(s.pc[i]) <= 1 {
      SumPair(s.pc, HoldsTurn, t, i);
    }
  }

  /** Only one thread holds the token, and it is in the lobby of room 2 if it holds it there. */
  lemma HolderFacts(s: State, t: nat)
    requires Conserved(s, 1) && Room2Counts(s) && t < |s.pc|
    ensures HoldsTurn(s.pc[t]) == 1 ==> s.t1 == 0 && s.t2 == 0
    ensures HoldsTurn(s.pc[t]) == 1 ==> forall i :: 0 <= i < |s.pc| && i != t ==> HoldsTurn(s.pc[i]) == 0
    ensures HoldsMutex(s.pc[t]) == 1 ==> forall i :: 0 <= i < |s.pc| && i != t ==> HoldsMutex(s.pc[i]) == 0
    ensures s.room1 >= InRoom1(s.pc[t]) && s.room2 >= InRoom2(s.pc[t])
  {
    SumMember(s.pc, HoldsTurn, t);
    SumMember(s.pc, InRoom1, t);
    SumMember(s.pc, InRoom2, t);
    forall i | 0 <= i < |s.pc| && i != t
      ensures HoldsTurn(s.pc[t]) + HoldsTurn(s.pc[i]) <= 1 && HoldsMutex(s.pc[t]) + HoldsMutex(s.pc[i]) <= 1
    {
      SumPair(s.pc, HoldsTurn, t, i);
      SumPair(s.pc, HoldsMutex, t, i);
    }
  }

  lemma NextKeepsInv(s: State, t: nat)
    requires Inv(s)
    ensures Inv(Next(s, t))
  {
    NextConserves(s, t, 1);
    NextKeepsRoom2(s, t, 1);
    if t < |s.pc| {
      HolderFacts(s, t);
      HolderFacts(Next(s, t), t);
      hide Sum, Loaded;
    }
  }

  lemma InvInductive()
    ensures Inductive(Next, Inv)
  {
    forall s: State, t: nat | Inv(s) ensures Inv(Next(s, t)) {
      NextKeepsInv(s, t);
    }
  }

  lemma InitConserved(n: nat, t2: nat)
    ensures Conserved(Init(n, t2), 1 + t2)
  {
    SumBounds(Init(n, t2).pc, HoldsMutex, 0, 0);
    SumBounds(Init(n, t2).pc, HoldsTurn, 0, 0);
    SumBounds(Init(n, t2).pc, InRoom1, 0, 0);
  }

  lemma InitRoom2(n: nat, t2: nat)
    ensures Room2Counts(Init(n, t2))
  {
    SumBounds(Init(n, t2).pc, InRoom2, 0, 0);
  }

  // Whole runs.

  ghost predicate Reachable(n: nat, t2: nat, s: State) {
    Reaches(Next, Init(n, t2), s)
  }

  /** Conservation in every reachable state, for every initial value of the second turnstile. */
  lemma ReachableConserved(n: nat, t2: nat, s: State)
    requires Reachable(n, t2, s)
    ensures Conserved(s, 1 + t2) && |s.pc| == n
  {
    InitConserved(n, t2);
    var inv := (s: State) => Conserved(s, 1 + t2) && |s.pc| == n;
    forall s: State, t: nat | inv(s) ensures inv(Next(s, t)) {
      NextConserves(s, t, 1 + t2);
    }
    ReachesKeeps(Next, inv, Init(n, t2), s);
  }

  lemma ReachableInv(n: nat, s: State)
    requires Reachable(n, 0, s)
    ensures Inv(s)
  {
    InitConserved(n, 0);
    InitRoom2(n, 0);
    InvInductive();
    ReachesKeeps(Next, Inv, Init(n, 0), s);
  }

  /** At most one thread in the critical section; a statement that uses room2 has no rival at one that
      uses room2, nor one that uses room1 at one that uses room1. */
  ghost predicate Exclusive(s: State) {
    forall i, j :: 0 <= i < |s.pc| && 0 <= j < |s.pc| && i != j ==>
      && !(s.pc[i].Critical? && s.pc[j].Critical?)
      && !(TouchesRoom1(s.pc[i]) && TouchesRoom1(s.pc[j]))
      && !(TouchesRoom2(s.pc[i]) && TouchesRoom2(s.pc[j]))
  }

  lemma InvExclusive(s: State)
    requires Inv(s)
    ensures Exclusive(s)
  {
    forall i: nat, j: nat | i < |s.pc| && j < |s.pc| && i != j
      ensures HoldsTurn(s.pc[i]) + HoldsTurn(s.pc[j]) <= 1 && HoldsMutex(s.pc[i]) + HoldsMutex(s.pc[j]) <= 1
    {
      HolderFacts(s, i);
    }
  }

  /** Two or more threads exclude one another in every run exactly when the second turnstile starts closed. */
  lemma ExclusiveIffClosed(n: nat, t2: nat)
    requires n >= 2
    ensures (forall s :: Reachable(n, t2, s) ==> Exclusive(s)) <==> t2 == 0
  {
    if t2 == 0 {
      forall s | Reachable(n, t2, s) ensures Exclusive(s) {
        ReachableInv(n, s);
        InvExclusive(s);
      }
    } else {
      var s := OpenTurnstileRun(n, t2);
    }
  }

  /** With the second turnstile open at the start, as the initialiser has it, two threads get inside. */
  lemma OpenTurnstileRun(n: nat, t2: nat) returns (s: State)
    requires n >= 2 && t2 > 0
    ensures Reachable(n, t2, s) && |s.pc| == n
    ensures s.pc[0].Critical? && s.pc[1].Critical? && !Exclusive(s)
  {
    s := Init(n, t2);
    ReachesSelf(Next, s);
    s := ArriveRun(n, t2, s, 0);
    s := ArriveRun(n, t2, s, 1);
    s := PassRun(n, t2, s, 0);
    s := EnterRun(n, t2, s, 0);
    s := PassRun(n, t2, s, 1);
    s := EnterRun(n, t2, s, 1);
  }

  /** Thread `t` alone adds itself to room1. */
  lemma ArriveRun(n: nat, t2: nat, s: State, t: nat) returns (s': State)
    requires Reachable(n, t2, s) && t < |s.pc| && s.pc[t].Idle? && s.mutex > 0
    ensures Reachable(n, t2, s') && s' == s.(room1 := s.room1 + 1, pc := s.pc[t := WaitT1])
  {
    s' := TwoSteps(n, t2, s, t);
    ReachesStep(Next, Init(n, t2), s', t);
    s' := Next(s', t);
  }

  /** Thread `t` alone goes through the first turnstile and opens the one that room1 tells it to. */
  lemma PassRun(n: nat, t2: nat, s: State, t: nat) returns (s': State)
    requires Reachable(n, t2, s) && t < |s.pc| && s.pc[t].WaitT1? && s.t1 > 0 && s.mutex > 0
    ensures Reachable(n, t2, s')
    ensures s' == s.(room1 := s.room1 - 1, room2 := s.room2 + 1, pc := s.pc[t := WaitT2],
                     t1 := if s.room1 == 1 then s.t1 - 1 else s.t1, t2 := if s.room1 == 1 then s.t2 + 1 else s.t2)
  {
    hide Reachable;
    s' := TwoSteps(n, t2, s, t);
    s' := OneStep(n, t2, s', t);
    assert s' == s.(room2 := s.room2 + 1, t1 := s.t1 - 1, pc := s.pc[t := LockAgain]);
    s' := LeaveRoom1Run(n, t2, s', t);
    s' := TwoSteps(n, t2, s', t);
    assert s'.pc == s.pc[t := WaitT2];
  }

  /** Thread `t` alone leaves room 1. */
  lemma LeaveRoom1Run(n: nat, t2: nat, s: State, t: nat) returns (s': State)
    requires Reachable(n, t2, s) && t < |s.pc| && s.pc[t].LockAgain? && s.mutex > 0
    ensures Reachable(n, t2, s')
    ensures s' == s.(room1 := s.room1 - 1, mutex := s.mutex - 1,
                     pc := s.pc[t := if s.room1 == 1 then UnlockOpen else UnlockPass])
  {
    hide Reachable;
    s' := TwoSteps(n, t2, s, t);
    assert s'.pc == s.pc[t := if s.room1 == 1 then UnlockOpen else UnlockPass];
  }

  /** Thread `t` alone goes through the second turnstile into the critical section. */
  lemma EnterRun(n: nat, t2: nat, s: State, t: nat) returns (s': State)
    requires Reachable(n, t2, s) && t < |s.pc| && s.pc[t].WaitT2? && s.t2 > 0
    ensures Reachable(n, t2, s')
    ensures s' == s.(room2 := s.room2 - 1, t2 := s.t2 - 1, pc := s.pc[t := Critical])
  {
    hide Reachable;
    s' := TwoSteps(n, t2, s, t);
    s' := OneStep(n, t2, s', t);
    assert s'.pc == s.pc[t := Critical];
  }

  lemma OneStep(n: nat, t2: nat, s: State, t: nat) returns (s': State)
    requires Reachable(n, t2, s)
    ensures Reachable(n, t2, s') && s' == Next(s, t)
  {
    s' := Next(s, t);
    ReachesStep(Next, Init(n, t2), s, t);
  }

  lemma TwoSteps(n: nat, t2: nat, s: State, t: nat) returns (s': State)
    requires Reachable(n, t2, s)
    ensures Reachable(n, t2, s') && s' == Next(Next(s, t), t)
  {
    s' := OneStep(n, t2, s, t);
    s' := OneStep(n, t2, s', t);
  }

  // When some state is stuck.

  /** Is bound to open the second turnstile while room 2 is not empty. */
  function OwesT2(p: Pc): int {
    match p
    case UnlockOpen | OpenT2 | LeaveRoom2 | Critical | GiveT2 => 1
    case LeftRoom2(_) => 1
    case _ => 0
  }

  /** Is bound to fill room 2 or to open the first turnstile. */
  function OwesT1(p: Pc): int {
    match p
    case AddRoom2 | Critical | GiveT1 => 1
    case AddedRoom2(_) => 1
    case _ => 0
  }

  /** A filled room 2 has its turnstile open or somebody bound to open it; so has an empty one the first. */
  ghost predicate Owed(s: State) {
    && (s.room2 > 0 && s.room1 == 0 ==> s.t2 + Sum(s.pc, OwesT2) > 0)
    && (s.room2 == 0 ==> s.t1 + Sum(s.pc, OwesT1) > 0)
  }

  lemma NextKeepsOwed(s: State, t: nat, tokens: nat)
    requires Conserved(s, tokens) && Room2Counts(s) && Room2Counts(Next(s, t)) && Owed(s)
    ensures Owed(Next(s, t))
  {
    hide Prefix;
    if t < |s.pc| {
      NextMovesOne(s, t, OwesT1);
      NextMovesOne(s, t, OwesT2);
      SumMember(s.pc, OwesT1, t);
      SumMember(s.pc, OwesT2, t);
      SumMember(s.pc, InRoom1, t);
      SumMember(s.pc, InRoom2, t);
      SumBounds(Next(s, t).pc, OwesT1, 0, 1);
      SumBounds(Next(s, t).pc, OwesT2, 0, 1);
      SumBounds(Next(s, t).pc, InRoom2, 0, 1);
    }
  }

  ghost predicate Ordered(s: State, tokens: nat) {
    Conserved(s, tokens) && OneAtRoom2(s, tokens) && Room2Counts(s) && Owed(s)
  }

  lemma ReachableOrdered(n: nat, t2: nat, s: State)
    requires (t2 == 0 || n <= 1) && Reachable(n, t2, s)
    ensures Ordered(s, 1 + t2)
  {
    InitConserved(n, t2);
    InitRoom2(n, t2);
    SumBounds(Init(n, t2).pc, OwesT1, 0, 0);
    assert Ordered(Init(n, t2), 1 + t2);
    var inv := (s: State) => Ordered(s, 1 + t2);
    forall s: State, t: nat | inv(s) ensures inv(Next(s, t)) {
      NextConserves(s, t, 1 + t2);
      NextKeepsRoom2(s, t, 1 + t2);
      NextKeepsOwed(s, t, 1 + t2);
      if t < |s.pc| { NextMovesOne(s, t, InRoom1); }
      hide Conserved, Room2Counts, Owed, Next;
    }
    ReachesKeeps(Next, inv, Init(n, t2), s);
  }

  /** Somebody inside the protocol can move, if anybody is inside. */
  ghost predicate NotStuck(s: State) {
    (exists inside :: 0 <= inside < |s.pc| && !s.pc[inside].Idle?) ==>
      exists t :: 0 <= t < |s.pc| && !s.pc[t].Idle? && Next(s, t) != s
  }

  lemma OrderedMoves(s: State, tokens: nat)
    requires Ordered(s, tokens) && tokens > 0
    ensures NotStuck(s)
  {
    if inside :| 0 <= inside < |s.pc| && !s.pc[inside].Idle? {
      SumMember(s.pc, HoldsMutex, inside);
      if s.mutex == 0 {
        var t := SumWitness(s.pc, HoldsMutex);
        assert Next(s, t).pc[t] != s.pc[t];
      } else if Sum(s.pc, HoldsTurn) > 0 {
        var t := SumWitness(s.pc, HoldsTurn);
        assert Next(s, t).pc[t] != s.pc[t];
      } else {
        WaiterMoves(s, inside, tokens);
      }
    }
  }

  /** With all tokens in the turnstiles, one of those who wait at them can take one. */
  lemma WaiterMoves(s: State, inside: nat, tokens: nat)
    requires Ordered(s, tokens) && tokens > 0 && s.mutex > 0 && Sum(s.pc, HoldsTurn) <= 0
    requires inside < |s.pc| && !s.pc[inside].Idle?
    ensures exists t :: 0 <= t < |s.pc| && !s.pc[t].Idle? && Next(s, t) != s
  {
    SumZero(s.pc, HoldsTurn);
    SumBounds(s.pc, HoldsTurn, 0, 1);
    SumZero(s.pc, HoldsMutex);
    SumBounds(s.pc, OwesT1, 0, 0);
    SumBounds(s.pc, OwesT2, 0, 0);
    SumMember(s.pc, InRoom1, inside);
    SumMember(s.pc, InRoom2, inside);
    SumBounds(s.pc, InRoom1, 0, 1);
    SumBounds(s.pc, InRoom2, 0, 1);
    var t := inside;
    if s.room2 > 0 {
      if s.t2 > 0 { t := SumWitness(s.pc, InRoom2); } else { t := SumWitness(s.pc, InRoom1); }
    }
    assert Next(s, t).pc[t] != s.pc[t];
  }

  /** No run gets stuck exactly if the second turnstile starts closed, or there is at most one thread. */
  lemma NeverStuckIff(n: nat, t2: nat)
    ensures (forall s :: Reachable(n, t2, s) ==> NotStuck(s)) <==> t2 == 0 || n <= 1
  {
    if t2 == 0 || n <= 1 {
      forall s | Reachable(n, t2, s) ensures NotStuck(s) {
        ReachableOrdered(n, t2, s);
        OrderedMoves(s, 1 + t2);
      }
    } else {
      var s := DeadRun(n, t2);
      DeadIsStuck(s);
    }
  }

  /** All tokens are in the second turnstile and nobody is past the first. */
  predicate Dead(s: State) {
    s.t1 == 0 && forall i :: 0 <= i < |s.pc| ==> InLobby(s.pc[i])
  }

  predicate InLobby(p: Pc) { p.Idle? || p.AddRoom1? || p.UnlockAdded? || p.WaitT1? }

  lemma DeadIsStuck(s: State)
    requires Dead(s) && |s.pc| > 0 && s.pc[0].WaitT1? && forall i :: 0 < i < |s.pc| ==> s.pc[i].Idle?
    ensures !NotStuck(s)
  {
    assert !s.pc[0].Idle?;
    forall t | 0 <= t < |s.pc| && !s.pc[t].Idle? ensures Next(s, t) == s {
      assert t == 0;
    }
  }

  /** From such a state no thread ever gets in, in any run, newcomers included. */
  lemma DeadForEver(s: State, sched: seq<nat>)
    requires Dead(s)
    ensures Dead(Exec(Next, s, sched))
  {
    forall s: State, t: nat | Dead(s) ensures Dead(Next(s, t)) {
      if t < |s.pc| { assert InLobby(s.pc[t]); }
    }
    ExecKeeps(Next, Dead, s, sched);
  }

  // With an extra token two threads load room2 at the same time.

  /** Thread 0 is about to store what it loaded before leaving room 2, thread 1 what it loaded before entering. */
  lemma BothLoadRun(n: nat, t2: nat) returns (s: State)
    requires n >= 2 && t2 >= 1
    ensures Reachable(n, t2, s)
    ensures s == State(1, 1, 1, 0, t2 - 1, Init(n, t2).pc[0 := LeftRoom2(0)][1 := AddedRoom2(2)])
  {
    var s0 := Init(n, t2);
    ReachesSelf(Next, s0);
    hide Reachable;
    s := ArriveRun(n, t2, s0, 0);
    s := ArriveRun(n, t2, s, 1);
    s := PassRun(n, t2, s, 0);
    assert s == State(1, 1, 1, 1, t2, s0.pc[0 := WaitT2][1 := WaitT1]);
    s := TwoSteps(n, t2, s, 0);
    assert s == State(1, 1, 1, 1, t2 - 1, s0.pc[0 := LeftRoom2(0)][1 := WaitT1]);
    s := TwoSteps(n, t2, s, 1);
  }

  /** The store of thread 0 is lost: it sees room 2 occupied for ever, and opens the wrong turnstile. */
  lemma DeadRun(n: nat, t2: nat) returns (s: State)
    requires n >= 2 && t2 >= 1
    ensures Reachable(n, t2, s) && Dead(s) && s.pc == Init(n, t2).pc[0 := WaitT1] && |s.pc| == n
  {
    var s0 := Init(n, t2);
    s := BothLoadRun(n, t2);
    hide Reachable;
    s := OneStep(n, t2, s, 0);
    s := OneStep(n, t2, s, 1);
    assert s == State(1, 2, 1, 0, t2 - 1, s0.pc[0 := Critical][1 := LockAgain]);
    s := TwoSteps(n, t2, s, 0);
    assert s == State(1, 2, 1, 0, t2, s0.pc[1 := LockAgain]);
    s := LeaveRoom1Run(n, t2, s, 1);
    s := TwoSteps(n, t2, s, 1);
    assert s == State(0, 2, 1, 0, t2 + 1, s0.pc[1 := WaitT2]);
    s := EnterRun(n, t2, s, 1);
    s := TwoSteps(n, t2, s, 1);
    assert s == State(0, 1, 1, 0, t2 + 1, s0.pc);
    s := ArriveRun(n, t2, s, 0);
  }

  // Bounded overtaking.

  /** Room 2 is being emptied: the token is in t2, about to go there, or with a thread leaving through it. */
  ghost predicate Draining(s: State) {
    s.t2 > 0 || exists i :: 0 <= i < |s.pc| && Drains(s.pc[i])
  }

  predicate Drains(p: Pc) {
    p.UnlockOpen? || p.OpenT2? || p.LeaveRoom2? || p.LeftRoom2? || p.Critical? || p.GiveT1? || p.GiveT2?
  }

  /** `v` has added itself to room1 and has not reached the critical section. */
  function Waits(v: nat): State -> bool {
    (s: State) => v < |s.pc| && (InRoom1(s.pc[v]) == 1 || InRoom2(s.pc[v]) == 1)
  }

  /** The step takes thread `u` into the critical section. */
  function Enters(u: nat): (State, nat) -> bool {
    (s: State, t: nat) => t == u && t < |s.pc| && s.pc[t].LeftRoom2?
  }

  /** How often `u` can still enter before the waiting `v` does. */
  ghost function Budget(v: nat, u: nat): State -> int {
    (s: State) =>
      if v >= |s.pc| || u >= |s.pc| then 0
      else if Draining(s) then InRoom1(s.pc[v]) + InRoom2(s.pc[u])
      else 1
  }

  lemma DrainingExcludesFilling(s: State)
    requires Inv(s) && Draining(s)
    ensures s.t1 == 0
    ensures forall i :: 0 <= i < |s.pc| && HoldsTurn(s.pc[i]) == 1 ==> Drains(s.pc[i])
  {
    forall i: nat | i < |s.pc| ensures HoldsTurn(s.pc[i]) == 1 ==> Drains(s.pc[i]) && s.t1 == 0 {
      HolderFacts(s, i);
    }
    SumBounds(s.pc, HoldsTurn, 0, 1);
  }

  /** A step of another thread keeps the phase, except at the two statements that end one. */
  lemma PhaseChange(s: State, t: nat)
    requires Inv(s) && t < |s.pc|
    ensures Draining(s) == Draining(Next(s, t)) ||
            (if Draining(s) then s.pc[t].GiveT1? else s.pc[t].LeaveRoom1? && s.room1 == 1)
    ensures s.pc[t].GiveT1? ==> Draining(s) && !Draining(Next(s, t))
  {
    hide Inv;
    var s' := Next(s, t);
    NextKeepsInv(s, t);
    assert Drains(s.pc[t]) ==> Draining(s);
    assert Drains(s'.pc[t]) ==> Draining(s');
    assert forall i :: 0 <= i < |s.pc| && i != t ==> s'.pc[i] == s.pc[i];
    if Draining(s) { DrainingExcludesFilling(s); }
    if Draining(s') { DrainingExcludesFilling(s'); }
  }

  /** What a step does to one thread's place in the rooms: nothing, unless the thread takes it. */
  lemma PlaceChange(s: State, t: nat, i: nat)
    requires i < |s.pc|
    ensures |Next(s, t).pc| == |s.pc|
    ensures InRoom1(Next(s, t).pc[i]) == InRoom1(s.pc[i]) || (t == i && (s.pc[i].AddRoom1? || s.pc[i].LeaveRoom1?))
    ensures InRoom2(Next(s, t).pc[i]) == InRoom2(s.pc[i]) || (t == i && (s.pc[i].AddedRoom2? || s.pc[i].LeftRoom2?))
    ensures t == i && s.pc[i].LeftRoom2? ==> InRoom2(Next(s, t).pc[i]) == 0
  {
  }

  lemma NextSpendsBudget(s: State, t: nat, v: nat, u: nat)
    requires Inv(s) && Waits(v)(s) && Waits(v)(Next(s, t)) && u != v
    ensures Budget(v, u)(Next(s, t)) + (if Enters(u)(s, t) then 1 else 0) <= Budget(v, u)(s)
  {
    if u < |s.pc| && t < |s.pc| {
      PhaseChange(s, t);
      PlaceChange(s, t, v);
      PlaceChange(s, t, u);
      HolderFacts(s, v);
      HolderFacts(s, u);
      assert Drains(s.pc[t]) ==> Draining(s);
      if Draining(s) {
        DrainingExcludesFilling(s);
      } else if Draining(Next(s, t)) {
        NextKeepsInv(s, t);
        HolderFacts(Next(s, t), v);
      }
    }
  }

  /** From the moment `v` has added itself to room1 until it enters, any other thread enters at most twice. */
  lemma BoundedOvertaking(n: nat, s: State, sched: seq<nat>, v: nat, u: nat)
    requires Reachable(n, 0, s) && u != v
    requires Always(Next, Waits(v), s, sched)
    ensures Count(Next, Enters(u), s, sched) <= 2
  {
    ReachableInv(n, s);
    InvInductive();
    forall s: State, t: nat | Inv(s) && Waits(v)(s) && Waits(v)(Next(s, t))
      ensures Budget(v, u)(Next(s, t)) + (if Enters(u)(s, t) then 1 else 0) <= Budget(v, u)(s)
    {
      NextSpendsBudget(s, t, v, u);
    }
    EventsBounded(Next, Inv, Waits(v), Enters(u), Budget(v, u), s, sched);
  }

  // Runs that are counted.

  ghost predicate Counted(v: nat, u: nat, s0: State, s: State, k: nat) {
    ReachesCounting(Next, Waits(v), Enters(u), s0, s, k)
  }

  lemma CountedStep(v: nat, u: nat, s0: State, s: State, k: nat, t: nat, s': State)
    requires Counted(v, u, s0, s, k) && s' == Next(s, t) && Waits(v)(s')
    ensures Counted(v, u, s0, s', k + if Enters(u)(s, t) then 1 else 0)
  {
    CountingStep(Next, Waits(v), Enters(u), s0, s, k, t);
  }

  /** While `v` waits, another thread adds itself to room1. */
  lemma ArriveCounted(v: nat, u: nat, s0: State, s: State, k: nat, t: nat) returns (s': State)
    requires Counted(v, u, s0, s, k) && Waits(v)(s) && t < |s.pc| && t != v && s.pc[t].Idle? && s.mutex == 1
    ensures s' == s.(room1 := s.room1 + 1, pc := s.pc[t := WaitT1]) && Counted(v, u, s0, s', k)
  {
    hide Counted;
    var s1 := s.(mutex := 0, pc := s.pc[t := AddRoom1]);
    CountedStep(v, u, s0, s, k, t, s1);
    var s2 := s.(mutex := 0, room1 := s.room1 + 1, pc := s.pc[t := UnlockAdded]);
    CountedStep(v, u, s0, s1, k, t, s2);
    s' := s.(room1 := s.room1 + 1, pc := s.pc[t := WaitT1]);
    CountedStep(v, u, s0, s2, k, t, s');
  }

  /** While `v` waits, a thread, which may be `v`, goes through the first turnstile. */
  lemma PassCounted(v: nat, u: nat, s0: State, s: State, k: nat, t: nat) returns (s': State)
    requires Counted(v, u, s0, s, k) && Waits(v)(s) && t < |s.pc| && s.pc[t].WaitT1? && s.mutex == 1 && s.t1 >= 1
    ensures s' == s.(room1 := s.room1 - 1, room2 := s.room2 + 1, pc := s.pc[t := WaitT2],
                     t1 := if s.room1 == 1 then s.t1 - 1 else s.t1, t2 := if s.room1 == 1 then s.t2 + 1 else s.t2)
    ensures Counted(v, u, s0, s', k)
  {
    hide Counted;
    var s1 := s.(t1 := s.t1 - 1, pc := s.pc[t := AddRoom2]);
    CountedStep(v, u, s0, s, k, t, s1);
    var s2 := s1.(pc := s.pc[t := AddedRoom2(s.room2 + 1)]);
    CountedStep(v, u, s0, s1, k, t, s2);
    var s3 := s1.(room2 := s.room2 + 1, pc := s.pc[t := LockAgain]);
    CountedStep(v, u, s0, s2, k, t, s3);
    s' := LeaveRoom1Counted(v, u, s0, s3, k, t);
    assert s'.pc == s.pc[t := WaitT2];
  }

  lemma LeaveRoom1Counted(v: nat, u: nat, s0: State, s: State, k: nat, t: nat) returns (s': State)
    requires Counted(v, u, s0, s, k) && Waits(v)(s) && t < |s.pc| && s.pc[t].LockAgain? && s.mutex == 1
    ensures s' == s.(room1 := s.room1 - 1, pc := s.pc[t := WaitT2],
                     t1 := if s.room1 == 1 then s.t1 else s.t1 + 1, t2 := if s.room1 == 1 then s.t2 + 1 else s.t2)
    ensures Counted(v, u, s0, s', k)
  {
    hide Counted;
    var open := s.room1 == 1;
    var s1 := s.(mutex := 0, pc := s.pc[t := LeaveRoom1]);
    CountedStep(v, u, s0, s, k, t, s1);
    var s2 := s.(mutex := 0, room1 := s.room1 - 1, pc := s.pc[t := if open then UnlockOpen else UnlockPass]);
    CountedStep(v, u, s0, s1, k, t, s2);
    var s3 := s.(room1 := s.room1 - 1, pc := s.pc[t := if open then OpenT2 else PassT1]);
    CountedStep(v, u, s0, s2, k, t, s3);
    s' := Next(s3, t);
    CountedStep(v, u, s0, s3, k, t, s');
    assert s'.pc == s.pc[t := WaitT2];
  }

  /** While `v` waits, `u` enters. */
  lemma EnterCounted(v: nat, u: nat, s0: State, s: State, k: nat) returns (s': State)
    requires Counted(v, u, s0, s, k) && Waits(v)(s) && u < |s.pc| && u != v && s.pc[u].WaitT2? && s.t2 >= 1
    ensures s' == s.(room2 := s.room2 - 1, t2 := s.t2 - 1, pc := s.pc[u := Critical]) && Counted(v, u, s0, s', k + 1)
  {
    hide Counted;
    var s1 := s.(t2 := s.t2 - 1, pc := s.pc[u := LeaveRoom2]);
    CountedStep(v, u, s0, s, k, u, s1);
    var s2 := s1.(pc := s.pc[u := LeftRoom2(s.room2 - 1)]);
    CountedStep(v, u, s0, s1, k, u, s2);
    s' := s1.(room2 := s.room2 - 1, pc := s.pc[u := Critical]);
    CountedStep(v, u, s0, s2, k, u, s');
  }

  /** While `v` waits, `u` releases the mutex with room 2 empty. */
  lemma ReleaseCounted(v: nat, u: nat, s0: State, s: State, k: nat) returns (s': State)
    requires Counted(v, u, s0, s, k) && Waits(v)(s) && u < |s.pc| && u != v && s.pc[u].Critical? && s.room2 == 0
    ensures s' == s.(t1 := s.t1 + 1, pc := s.pc[u := Idle]) && Counted(v, u, s0, s', k)
  {
    hide Counted;
    var s1 := s.(pc := s.pc[u := GiveT1]);
    CountedStep(v, u, s0, s, k, u, s1);
    s' := s.(t1 := s.t1 + 1, pc := s.pc[u := Idle]);
    CountedStep(v, u, s0, s1, k, u, s');
  }

  /** Twice is attained: thread 0 enters two times while thread 1 waits in the rooms. */
  lemma TwiceAttained(n: nat)
    requires n >= 2
    ensures exists s, sched :: Reachable(n, 0, s) && Always(Next, Waits(1), s, sched)
              && Count(Next, Enters(0), s, sched) == 2
  {
    var s := Init(n, 0);
    ReachesSelf(Next, s);
    s := ArriveRun(n, 0, s, 0);
    s := PassRun(n, 0, s, 0);
    s := ArriveRun(n, 0, s, 1);
    CountingSelf(Next, Waits(1), Enters(0), s);
    var s' := TwoEntries(s);
  }

  /** Thread 0 enters, leaves room 2 empty behind it, adds itself to room1 again, and goes through both turnstiles
      before thread 1. */
  lemma TwoEntries(s: State) returns (s': State)
    requires |s.pc| >= 2 && s.pc[0] == WaitT2 && s.pc[1] == WaitT1 && Counted(1, 0, s, s, 0)
    requires s.room1 == 1 && s.room2 == 1 && s.mutex == 1 && s.t1 == 0 && s.t2 == 1
    ensures Counted(1, 0, s, s', 2)
  {
    hide Counted;
    s' := EnterCounted(1, 0, s, s, 0);
    s' := ReleaseCounted(1, 0, s, s', 1);
    s' := ArriveCounted(1, 0, s, s', 1, 0);
    assert s' == State(2, 0, 1, 1, 0, s.pc[0 := WaitT1]);
    s' := PassCounted(1, 0, s, s', 1, 0);
    s' := PassCounted(1, 0, s, s', 1, 1);
    s' := EnterCounted(1, 0, s, s', 1);
  }

  // When overtaking is bounded.

  /** Overtaking is bounded exactly if the second turnstile starts closed, or there is nobody to overtake. */
  lemma OvertakingBoundedIff(n: nat, t2: nat)
    ensures OvertakingBounded(Next, Init(n, t2), n, Waits, Enters) <==> t2 == 0 || n <= 1
  {
    var s0 := Init(n, t2);
    if t2 == 0 {
      forall s, sched, v: nat, u: nat | Reaches(Next, s0, s) && u != v && v < n && Always(Next, Waits(v), s, sched)
        ensures Count(Next, Enters(u), s, sched) <= 2
      {
        BoundedOvertaking(n, s, sched, v, u);
      }
      assert BoundedBy(Next, s0, n, Waits, Enters, 2);
    } else if n <= 1 {
      forall s, sched, v: nat, u: nat | Reaches(Next, s0, s) && u != v && v < n && Always(Next, Waits(v), s, sched)
        ensures Count(Next, Enters(u), s, sched) <= 0
      {
        ReachableConserved(n, t2, s);
        NobodyEnters(s, sched, v, u);
      }
      assert BoundedBy(Next, s0, n, Waits, Enters, 0);
    } else {
      var s := LostRun(n, t2);
      SoloLoop(s);
      LoopUnbounded(Next, s0, n, Waits, Enters, s, 1, 0);
    }
  }

  lemma NobodyEnters(s: State, sched: seq<nat>, v: nat, u: nat)
    requires u >= |s.pc| && Always(Next, Waits(v), s, sched)
    ensures Count(Next, Enters(u), s, sched) == 0
  {
    var inv := (s: State) => u >= |s.pc|;
    forall s: State, t: nat | inv(s) ensures inv(Next(s, t)) && !Enters(u)(s, t) {
      if t < |s.pc| { NextMovesOne(s, t, InRoom1); }
    }
    EventsBounded(Next, inv, Waits(v), Enters(u), (s: State) => 0, s, sched);
  }

  /** With the second turnstile open at the start a thread can enter any number of times while another waits. */
  lemma OvertakenForever(n: nat, t2: nat, k: nat)
    requires n >= 2 && t2 >= 1
    ensures exists s, sched ::
              Reachable(n, t2, s) && Always(Next, Waits(1), s, sched) && Count(Next, Enters(0), s, sched) == k
  {
    var s := LostRun(n, t2);
    SoloLoop(s);
    LoopsCount(Next, Waits(1), Enters(0), s, k);
    var sched :| Exec(Next, s, sched) == s && Always(Next, Waits(1), s, sched) && Count(Next, Enters(0), s, sched) == k;
  }

  /** Thread 1 is about to open the second turnstile; room2 does not count it, and the first turnstile is open. */
  predicate Lost(s: State) {
    && |s.pc| >= 2 && s.pc[0].Idle? && s.pc[1].OpenT2?
    && s.room1 == 0 && s.room2 == 0 && s.mutex == 1 && s.t1 >= 1
  }

  /** The store of thread 1 is lost. */
  lemma LostRun(n: nat, t2: nat) returns (s: State)
    requires n >= 2 && t2 >= 1
    ensures Reachable(n, t2, s) && Lost(s)
  {
    var s0 := Init(n, t2);
    s := BothLoadRun(n, t2);
    hide Reachable;
    s := OneStep(n, t2, s, 1);
    s := OneStep(n, t2, s, 0);
    assert s == State(1, 0, 1, 0, t2 - 1, s0.pc[0 := Critical][1 := LockAgain]);
    s := TwoSteps(n, t2, s, 0);
    assert s == State(1, 0, 1, 1, t2 - 1, s0.pc[1 := LockAgain]);
    s := LeaveRoom1Run(n, t2, s, 1);
    s := OneStep(n, t2, s, 1);
  }

  /** Thread 0 alone acquires and releases, and leaves everything as it was. */
  lemma SoloLoop(s: State)
    requires Lost(s)
    ensures ReachesCounting(Next, Waits(1), Enters(0), s, s, 1)
  {
    CountingSelf(Next, Waits(1), Enters(0), s);
    assert Counted(1, 0, s, s, 0);
    var s' := SoloRun(s);
    assert Counted(1, 0, s, s, 1);
  }

  lemma SoloRun(s: State) returns (s': State)
    requires Lost(s) && Counted(1, 0, s, s, 0)
    ensures s' == s && Counted(1, 0, s, s', 1)
  {
    hide Counted;
    s' := ArriveCounted(1, 0, s, s, 0, 0);
    s' := PassCounted(1, 0, s, s', 0, 0);
    s' := EnterCounted(1, 0, s, s', 0);
    s' := ReleaseCounted(1, 0, s, s', 1);
    assert s'.pc == s.pc;
  }

  // Every acquire gets in once, and every release ends.

  predicate Inside(p: Pc) { p.Critical? || p.GiveT1? || p.GiveT2? }

  /** Thread `t` begins to acquire. */
  function Begins(t: nat): (State, nat) -> bool {
    (s: State, u: nat) => u == t && t < |s.pc| == |Next(s, u).pc| && s.pc[t].Idle? && !Next(s, u).pc[t].Idle?
  }

  /** Acquire returns to thread `t`. */
  function GetsIn(t: nat): (State, nat) -> bool {
    (s: State, u: nat) =>
      u == t && t < |s.pc| == |Next(s, u).pc| && !s.pc[t].Critical? && Next(s, u).pc[t].Critical?
  }

  /** Thread `t` is outside again. */
  function Leaves(t: nat): (State, nat) -> bool {
    (s: State, u: nat) => u == t && t < |s.pc| == |Next(s, u).pc| && !s.pc[t].Idle? && Next(s, u).pc[t].Idle?
  }

  function Acquiring(t: nat): State -> int {
    (s: State) => if t < |s.pc| && !s.pc[t].Idle? && !Inside(s.pc[t]) then 1 else 0
  }

  function Holding(t: nat): State -> int {
    (s: State) => if t < |s.pc| && Inside(s.pc[t]) then 1 else 0
  }

  /** From outside into acquire, from there into the critical section, and from there back outside. */
  lemma Proceeds(s: State, t: nat)
    requires t < |s.pc|
    ensures |Next(s, t).pc| == |s.pc|
    ensures var p, p' := s.pc[t], Next(s, t).pc[t];
            && (p.Idle? ==> !Inside(p'))
            && (!p.Idle? && !Inside(p) ==> !p'.Idle? && (Inside(p') ==> p'.Critical?))
            && (Inside(p) ==> p'.Idle? || (Inside(p') && (p'.Critical? ==> p.Critical?)))
  {
  }

  lemma StaysPut(s: State, u: nat, t: nat)
    requires u != t && t < |s.pc|
    ensures |Next(s, u).pc| == |s.pc| && Next(s, u).pc[t] == s.pc[t]
  {
    PlaceChange(s, u, t);
    if u < |s.pc| { assert Next(s, u).pc == s.pc[u := Next(s, u).pc[u]]; }
  }

  lemma NextServes(s: State, u: nat, t: nat)
    ensures Acquiring(t)(Next(s, u)) ==
            Acquiring(t)(s) + (if Begins(t)(s, u) then 1 else 0) - if GetsIn(t)(s, u) then 1 else 0
    ensures Holding(t)(Next(s, u)) ==
            Holding(t)(s) + (if GetsIn(t)(s, u) then 1 else 0) - if Leaves(t)(s, u) then 1 else 0
  {
    if t < |s.pc| {
      if u == t { Proceeds(s, t); } else { StaysPut(s, u, t); }
      hide Next;
    } else if u < |s.pc| {
      Proceeds(s, u);
      hide Next;
    }
  }

  /** In every run, whatever t2 starts with, a thread gets in once for each time it begins to acquire, but for the time
      it is still at, and leaves once for each time it got in: no acquire gives up. */
  lemma AcquiresAreServed(n: nat, t2: nat, sched: seq<nat>, t: nat)
    ensures var s0, s := Init(n, t2), Exec(Next, Init(n, t2), sched);
            && Count(Next, Begins(t), s0, sched) == Count(Next, GetsIn(t), s0, sched) + Acquiring(t)(s)
            && Count(Next, GetsIn(t), s0, sched) == Count(Next, Leaves(t), s0, sched) + Holding(t)(s)
  {
    var s0, all := Init(n, t2), (s: State) => true;
    forall s: State, u: nat
      ensures Acquiring(t)(Next(s, u)) ==
              Acquiring(t)(s) + (if Begins(t)(s, u) then 1 else 0) - if GetsIn(t)(s, u) then 1 else 0
      ensures Holding(t)(Next(s, u)) ==
              Holding(t)(s) + (if GetsIn(t)(s, u) then 1 else 0) - if Leaves(t)(s, u) then 1 else 0
    {
      NextServes(s, u, t);
    }
    hide Next, Begins, GetsIn, Leaves;
    EventsBalanced(Next, all, Begins(t), GetsIn(t), Acquiring(t), s0, sched);
    EventsBalanced(Next, all, GetsIn(t), Leaves(t), Holding(t), s0, sched);
  }

  /** With t2 closed at the start, the mutex is as it was at the start whenever all threads are outside. */
  lemma QuietIsInitial(n: nat, s: State)
    requires Reachable(n, 0, s) && forall t :: 0 <= t < |s.pc| ==> s.pc[t].Idle?
    ensures s == Init(n, 0)
  {
    ReachableInv(n, s);
    ReachableConserved(n, 0, s);
    SumBounds(s.pc, HoldsMutex, 0, 0);
    SumBounds(s.pc, HoldsTurn, 0, 0);
    SumBounds(s.pc, InRoom1, 0, 0);
    SumBounds(s.pc, InRoom2, 0, 0);
    assert s.pc == Init(n, 0).pc;
  }

  // The mutex as it is updated in place.

  class Mutex {
    var room1: int
    var room2: int
    var mutex: nat
    var t1: nat
    var t2: nat
    var pc: seq<Pc>

    ghost function View(): State
      reads this
    {
      State(room1, room2, mutex, t1, t2, pc)
    }

    ghost predicate Valid()
      reads this
    {
      Inv(View())
    }

    constructor (threads: nat, initialT2: nat)
      ensures View() == Init(threads, initialT2)
      ensures initialT2 == 0 ==> Valid()
    {
      room1, room2 := 0, 0;
      mutex, t1, t2 := 1, 1, initialT2;
      pc := seq(threads, _ => Idle);
      new;
      InitConserved(threads, initialT2);
      InitRoom2(threads, initialT2);
    }

    /** The next statement of thread `t` inside the acquiring function. */
    method AcquireStep(t: nat)
      requires t < |pc| && !pc[t].Critical? && !pc[t].GiveT1? && !pc[t].GiveT2?
      modifies this
      ensures View() == Next(old(View()), t)
      ensures old(Valid()) ==> Valid()
    {
      ghost var before := View();
      if Inv(before) { NextKeepsInv(before, t); }
      hide Inv;
      var p := pc[t];
      match p {
        case Idle => if mutex > 0 { mutex := mutex - 1; p := AddRoom1; }
        case AddRoom1 => room1 := room1 + 1; p := UnlockAdded;
        case UnlockAdded => mutex := mutex + 1; p := WaitT1;
        case WaitT1 => if t1 > 0 { t1 := t1 - 1; p := AddRoom2; }
        case AddRoom2 => p := AddedRoom2(room2 + 1);
        case AddedRoom2(sum) => room2 := sum; p := LockAgain;
        case LockAgain => if mutex > 0 { mutex := mutex - 1; p := LeaveRoom1; }
        case LeaveRoom1 =>
          room1 := room1 - 1;
          if room1 == 0 { p := UnlockOpen; } else { p := UnlockPass; }
        case UnlockOpen => mutex := mutex + 1; p := OpenT2;
        case OpenT2 => t2 := t2 + 1; p := WaitT2;
        case UnlockPass => mutex := mutex + 1; p := PassT1;
        case PassT1 => t1 := t1 + 1; p := WaitT2;
        case WaitT2 => if t2 > 0 { t2 := t2 - 1; p := LeaveRoom2; }
        case LeaveRoom2 => p := LeftRoom2(room2 - 1);
        case LeftRoom2(rest) => room2 := rest; p := Critical;
      }
      pc := pc[t := p];
      assert View() == Next(before, t);
    }

    /** The next statement of thread `t` inside the releasing function. */
    method ReleaseStep(t: nat)
      requires t < |pc| && (pc[t].Critical? || pc[t].GiveT1? || pc[t].GiveT2?)
      modifies this
      ensures View() == Next(old(View()), t)
      ensures old(Valid()) ==> Valid()
    {
      ghost var before := View();
      var p := pc[t];
      if p == Critical {
        if room2 == 0 { p := GiveT1; } else { p := GiveT2; }
      } else {
        if p == GiveT1 { t1 := t1 + 1; } else { t2 := t2 + 1; }
        p := Idle;
      }
      pc := pc[t := p];
      assert View() == Next(before, t);
      if Inv(before) { NextKeepsInv(before, t); }
    }

    /** Any scheduler: the threads take their steps in the order `sched` says. */
    method Run(sched: seq<nat>)
      modifies this
      ensures View() == Exec(Next, old(View()), sched)
      ensures old(Valid()) ==> Valid()
    {
      for k := 0 to |sched|
        invariant View() == Exec(Next, old(View()), sched[..k])
        invariant old(Valid()) ==> Valid()
      {
        ExecSnoc(Next, old(View()), sched[..k], sched[k]);
        assert sched[..k + 1] == sched[..k] + [sched[k]];
        var t := sched[k];
        if t < |pc| {
          if pc[t].Critical? || pc[t].GiveT1? || pc[t].GiveT2? { ReleaseStep(t); } else { AcquireStep(t); }
        }
      }
      assert sched[..|sched|] == sched;
    }
  }
}
