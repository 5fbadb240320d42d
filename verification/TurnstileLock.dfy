/** The reader/writer locks built on one light switch: with `turnstile`, the one in which a waiting writer is
    next among writers; without, the one in which writers starve.  Any number of threads, each of which may
    read or write any number of times.  The light switch's counter is changed and tested in one step, under
    the switch's own mutex. */
module TurnstileLock {
  import opened Sums
  import opened Runs

  datatype Pc =
    | Idle
    | RWaitTurn      // next: wait(turnstile)
    | RPostTurn      // next: post(turnstile)
    | RLockSwitch    // next: wait(mutex)
    | RCount         // next: counter++ and its test
    | RWaitEmpty     // first reader; next: wait(roomEmpty)
    | RUnlockSwitch  // next: post(mutex)
    | Reading        // has the lock; next, to release: wait(mutex)
    | RUncount       // next: counter-- and its test
    | RPostEmpty     // last reader; next: post(roomEmpty)
    | RUnlockLast    // next: post(mutex)
    | WWaitTurn      // next: wait(turnstile)
    | WWaitEmpty     // next: wait(roomEmpty)
    | Writing        // has the lock; next, to release: post(turnstile)
    | WPostEmpty     // next: post(roomEmpty)

  datatype State = State(turnstile: bool, turn: nat, roomEmpty: nat, counter: int, mutex: nat, pc: seq<Pc>)

  datatype Choice = Read(t: nat) | Write(t: nat) | Step(t: nat)

  function Init(turnstile: bool, threads: nat): State {
    State(turnstile, 1, 1, 0, 1, seq(threads, _ => Idle))
  }

  function Goto(s: State, t: nat, p: Pc): State
    requires t < |s.pc|
  {
    s.(pc := s.pc[t := p])
  }

  function Next(s: State, c: Choice): State {
    if c.t >= |s.pc| then s else
    match c
    case Read(t) => if s.pc[t].Idle? then Goto(s, t, if s.turnstile then RWaitTurn else RLockSwitch) else s
    case Write(t) => if s.pc[t].Idle? then Goto(s, t, if s.turnstile then WWaitTurn else WWaitEmpty) else s
    case Step(t) => ThreadStep(s, t)
  }

  function ThreadStep(s: State, t: nat): State
    requires t < |s.pc|
  {
    match s.pc[t]
    case Idle => s
    case RWaitTurn => if s.turn == 0 then s else Goto(s.(turn := s.turn - 1), t, RPostTurn)
    case RPostTurn => Goto(s.(turn := s.turn + 1), t, RLockSwitch)
    case RLockSwitch => if s.mutex == 0 then s else Goto(s.(mutex := s.mutex - 1), t, RCount)
    case RCount => Goto(s.(counter := s.counter + 1), t, if s.counter + 1 == 1 then RWaitEmpty else RUnlockSwitch)
    case RWaitEmpty => if s.roomEmpty == 0 then s else Goto(s.(roomEmpty := s.roomEmpty - 1), t, RUnlockSwitch)
    case RUnlockSwitch => Goto(s.(mutex := s.mutex + 1), t, Reading)
    case Reading => if s.mutex == 0 then s else Goto(s.(mutex := s.mutex - 1), t, RUncount)
    case RUncount => Goto(s.(counter := s.counter - 1), t, if s.counter - 1 == 0 then RPostEmpty else RUnlockLast)
    case RPostEmpty => Goto(s.(roomEmpty := s.roomEmpty + 1), t, RUnlockLast)
    case RUnlockLast => Goto(s.(mutex := s.mutex + 1), t, Idle)
    case WWaitTurn => if s.turn == 0 then s else Goto(s.(turn := s.turn - 1), t, WWaitEmpty)
    case WWaitEmpty => if s.roomEmpty == 0 then s else Goto(s.(roomEmpty := s.roomEmpty - 1), t, Writing)
    case Writing => Goto(if s.turnstile then s.(turn := s.turn + 1) else s, t, WPostEmpty)
    case WPostEmpty => Goto(s.(roomEmpty := s.roomEmpty + 1), t, Idle)
  }

  // Regions.

  function HoldsSwitch(p: Pc): int {
    match p case RCount | RWaitEmpty | RUnlockSwitch | RUncount | RPostEmpty | RUnlockLast => 1 case _ => 0
  }

  /** Counted by the switch. */
  function InR(p: Pc): int {
    match p case RWaitEmpty | RUnlockSwitch | Reading | RUncount => 1 case _ => 0
  }

  /** Holds roomEmpty itself, rather than for the readers. */
  function HasEmpty(p: Pc): int {
    match p case Writing | WPostEmpty | RPostEmpty => 1 case _ => 0
  }

  /** Is counted as a reader but has yet to take roomEmpty for the readers. */
  function LacksEmpty(p: Pc): int { if p.RWaitEmpty? then 1 else 0 }

  function HasTurn(p: Pc): int {
    match p case RPostTurn | WWaitEmpty | Writing => 1 case _ => 0
  }

  /** Is past the turnstile on its way to reading. */
  function PastTurnstile(p: Pc): int {
    match p case RLockSwitch | RCount | RWaitEmpty | RUnlockSwitch => 1 case _ => 0
  }

  function Pos(n: int): int { if n > 0 then 1 else 0 }

  ghost predicate Inv(s: State) {
    && s.mutex + Sum(s.pc, HoldsSwitch) == 1
    && s.counter == Sum(s.pc, InR)
    && s.roomEmpty + Sum(s.pc, HasEmpty) + Pos(s.counter) - Sum(s.pc, LacksEmpty) == 1
    && (s.turnstile ==> s.turn + Sum(s.pc, HasTurn) == 1)
    && (forall t :: 0 <= t < |s.pc| ==> Local(s, s.pc[t]))
  }

  predicate Local(s: State, p: Pc) {
    && (p.RWaitEmpty? ==> s.counter == 1)
    && (p.RPostEmpty? ==> s.counter == 0)
    && (!s.turnstile ==> !p.RWaitTurn? && !p.RPostTurn? && !p.WWaitTurn?)
  }

  lemma NextMovesOne(s: State, c: Choice, w: Pc -> int)
    requires c.t < |s.pc|
    ensures |Next(s, c).pc| == |s.pc|
    ensures Sum(Next(s, c).pc, w) == Sum(s.pc, w) - w(s.pc[c.t]) + w(Next(s, c).pc[c.t])
  {
    assert Next(s, c).pc == s.pc[c.t := Next(s, c).pc[c.t]];
    SumUpdate(s.pc, c.t, Next(s, c).pc[c.t], w);
  }

  lemma SwitchHolders(s: State, t: nat)
    requires Inv(s) && t < |s.pc|
    ensures HoldsSwitch(s.pc[t]) == 1 ==> forall u :: 0 <= u < |s.pc| && u != t ==> HoldsSwitch(s.pc[u]) == 0
    ensures s.counter >= InR(s.pc[t])
  {
    SumMember(s.pc, InR, t);
    forall u | 0 <= u < |s.pc| && u != t ensures HoldsSwitch(s.pc[t]) + HoldsSwitch(s.pc[u]) <= 1 {
      SumPair(s.pc, HoldsSwitch, t, u);
    }
  }

  lemma NextKeepsSwitch(s: State, c: Choice)
    requires Inv(s)
    ensures var s' := Next(s, c);
            && s'.mutex + Sum(s'.pc, HoldsSwitch) == 1
            && s'.counter == Sum(s'.pc, InR)
            && s'.turnstile == s.turnstile && (s.turnstile ==> s'.turn + Sum(s'.pc, HasTurn) == 1)
  {
    hide Prefix;
    if c.t < |s.pc| {
      NextMovesOne(s, c, HoldsSwitch);
      NextMovesOne(s, c, InR);
      NextMovesOne(s, c, HasTurn);
    }
  }

  lemma NextKeepsEmpty(s: State, c: Choice)
    requires Inv(s)
    ensures var s' := Next(s, c);
            && s'.roomEmpty + Sum(s'.pc, HasEmpty) + Pos(s'.counter) - Sum(s'.pc, LacksEmpty) == 1
            && forall t :: 0 <= t < |s'.pc| ==> Local(s', s'.pc[t])
  {
    hide Prefix;
    if c.t < |s.pc| {
      NextMovesOne(s, c, HasEmpty);
      NextMovesOne(s, c, LacksEmpty);
      SwitchHolders(s, c.t);
    }
  }

  lemma NextKeepsInv(s: State, c: Choice)
    requires Inv(s)
    ensures Inv(Next(s, c)) && |Next(s, c).pc| == |s.pc| && Next(s, c).turnstile == s.turnstile
  {
    NextKeepsSwitch(s, c);
    NextKeepsEmpty(s, c);
  }

  ghost predicate Reachable(turnstile: bool, threads: nat, s: State) {
    Reaches(Next, Init(turnstile, threads), s)
  }

  lemma InitInv(turnstile: bool, threads: nat)
    ensures Inv(Init(turnstile, threads))
  {
    var pc := Init(turnstile, threads).pc;
    SumBounds(pc, HoldsSwitch, 0, 0);
    SumBounds(pc, InR, 0, 0);
    SumBounds(pc, HasEmpty, 0, 0);
    SumBounds(pc, LacksEmpty, 0, 0);
    SumBounds(pc, HasTurn, 0, 0);
  }

  lemma ReachableInv(turnstile: bool, threads: nat, s: State)
    requires Reachable(turnstile, threads, s)
    ensures Inv(s) && s.turnstile == turnstile && |s.pc| == threads
  {
    hide Inv;
    InitInv(turnstile, threads);
    var inv := (s: State) => Inv(s) && s.turnstile == turnstile && |s.pc| == threads;
    forall s: State, c: Choice | inv(s) ensures inv(Next(s, c)) {
      NextKeepsInv(s, c);
    }
    ReachesKeeps(Next, inv, Init(turnstile, threads), s);
  }

  // Exclusion.

  lemma SumsAreCounts(s: State)
    requires Inv(s)
    ensures Sum(s.pc, HasEmpty) >= 0 && s.counter >= 0 && 0 <= Sum(s.pc, LacksEmpty) <= 1
    ensures Sum(s.pc, HasTurn) >= 0
    ensures Sum(s.pc, LacksEmpty) > 0 ==> s.counter == 1
  {
    SumBounds(s.pc, HasEmpty, 0, 1);
    SumBounds(s.pc, InR, 0, 1);
    SumBounds(s.pc, LacksEmpty, 0, 1);
    SumBounds(s.pc, HasTurn, 0, 1);
    SumLe(s.pc, LacksEmpty, HoldsSwitch);
    if Sum(s.pc, LacksEmpty) > 0 {
      var t := SumWitness(s.pc, LacksEmpty);
    }
  }

  /** The first reader, waiting for roomEmpty, is the only thread the switch counts. */
  lemma FirstIsAlone(s: State, t: nat)
    requires Inv(s) && t < |s.pc| && InR(s.pc[t]) == 1 && !s.pc[t].RWaitEmpty?
    ensures Sum(s.pc, LacksEmpty) == 0 && s.counter >= 1
  {
    SumsAreCounts(s);
    SumMember(s.pc, InR, t);
    if Sum(s.pc, LacksEmpty) > 0 {
      var u := SumWitness(s.pc, LacksEmpty);
      SumPair(s.pc, InR, t, u);
    }
  }

  /** Readers exclude writers, and writers each other, with or without the turnstile. */
  lemma Exclusion(turnstile: bool, threads: nat, s: State, t: nat, u: nat)
    requires Reachable(turnstile, threads, s) && t < |s.pc| && u < |s.pc| && t != u && s.pc[t].Writing?
    ensures !s.pc[u].Writing? && !s.pc[u].Reading?
  {
    ReachableInv(turnstile, threads, s);
    SumsAreCounts(s);
    SumPair(s.pc, HasEmpty, t, u);
    if s.pc[u].Reading? {
      FirstIsAlone(s, u);
    }
  }

  // No state is stuck.

  /** A thread inside the protocol that can move. */
  predicate CanMove(s: State, t: nat) {
    t < |s.pc| && !s.pc[t].Idle? && Next(s, Step(t)) != s
  }

  lemma UnblockedMoves(s: State, t: nat)
    requires t < |s.pc| && !s.pc[t].Idle?
    requires s.pc[t].RWaitTurn? || s.pc[t].WWaitTurn? ==> s.turn > 0
    requires s.pc[t].RWaitEmpty? || s.pc[t].WWaitEmpty? ==> s.roomEmpty > 0
    requires s.pc[t].RLockSwitch? || s.pc[t].Reading? ==> s.mutex > 0
    ensures CanMove(s, t)
  {
    assert Next(s, Step(t)).pc[t] != s.pc[t];
  }

  /** While roomEmpty is taken, somebody can move: a writer inside, or the readers' switch and its readers. */
  lemma RoomMoves(s: State) returns (t: nat)
    requires Inv(s) && s.roomEmpty == 0
    ensures CanMove(s, t)
  {
    SumsAreCounts(s);
    if Sum(s.pc, HasEmpty) > 0 {
      t := SumWitness(s.pc, HasEmpty);
    } else if s.mutex == 0 {
      t := SumWitness(s.pc, HoldsSwitch);
      SumMember(s.pc, LacksEmpty, t);
    } else {
      t := SumWitness(s.pc, InR);
      SumMember(s.pc, LacksEmpty, t);
    }
    UnblockedMoves(s, t);
  }

  /** In every reachable state with a thread inside the protocol, such a thread can move. */
  lemma NeverStuck(turnstile: bool, threads: nat, s: State, inside: nat) returns (t: nat)
    requires Reachable(turnstile, threads, s) && inside < |s.pc| && !s.pc[inside].Idle?
    ensures CanMove(s, t)
  {
    ReachableInv(turnstile, threads, s);
    assert Local(s, s.pc[inside]);
    if s.roomEmpty == 0 {
      t := RoomMoves(s);
    } else {
      if s.mutex == 0 {
        t := SumWitness(s.pc, HoldsSwitch);
      } else if (s.pc[inside].RWaitTurn? || s.pc[inside].WWaitTurn?) && s.turn == 0 {
        t := SumWitness(s.pc, HasTurn);
      } else {
        t := inside;
      }
      UnblockedMoves(s, t);
    }
  }

  // With the turnstile: the next writer in.

  function At(v: nat, p: Pc): State -> bool {
    (s: State) => v < |s.pc| && s.pc[v] == p
  }

  /** `v` has passed the turnstile, if there is one, as a writer and is not in yet. */
  function WriterWaits(v: nat): State -> bool { At(v, WWaitEmpty) }

  function WriterEnters(u: nat): (State, Choice) -> bool {
    (s: State, c: Choice) => c == Step(u) && u < |s.pc| && s.pc[u].WWaitEmpty? && s.roomEmpty > 0
  }

  function Enters(u: nat): (State, Choice) -> bool {
    (s: State, c: Choice) =>
      c == Step(u) && u < |s.pc| && (s.pc[u].RUnlockSwitch? || (s.pc[u].WWaitEmpty? && s.roomEmpty > 0))
  }

  lemma TurnTaken(s: State, v: nat, u: nat)
    requires Inv(s) && s.turnstile && WriterWaits(v)(s) && u < |s.pc| && u != v
    ensures s.turn == 0 && HasTurn(s.pc[u]) == 0
  {
    SumsAreCounts(s);
    SumMember(s.pc, HasTurn, v);
    SumPair(s.pc, HasTurn, v, u);
  }

  function ReaderBudget(u: nat): State -> int {
    (s: State) => if u < |s.pc| then PastTurnstile(s.pc[u]) else 0
  }

  lemma ReaderSpends(s: State, c: Choice, v: nat, u: nat)
    requires Inv(s) && s.turnstile && WriterWaits(v)(s) && u < |s.pc| && u != v
    ensures Inv(Next(s, c)) && Next(s, c).turnstile && u < |Next(s, c).pc|
    ensures ReaderBudget(u)(Next(s, c)) + (if Enters(u)(s, c) then 1 else 0) <= ReaderBudget(u)(s)
    ensures !WriterEnters(u)(s, c)
  {
    NextKeepsInv(s, c);
    TurnTaken(s, v, u);
    hide Inv;
    if c.t != u {
      StaysPut(s, c, u);
      hide Next;
    }
  }

  lemma StaysPut(s: State, c: Choice, u: nat)
    requires u < |s.pc| && c.t != u
    ensures |Next(s, c).pc| == |s.pc| && Next(s, c).pc[u] == s.pc[u]
  {
    if c.t < |s.pc| {
      assert Next(s, c).pc == s.pc[c.t := Next(s, c).pc[c.t]];
    }
  }

  /** Until `v` is in, another thread enters at most once, and only as a reader that was past the turnstile when `v`
      passed it. */
  lemma ReadersOvertakeOnce(threads: nat, s: State, sched: seq<Choice>, v: nat, u: nat)
    requires Reachable(true, threads, s) && u < |s.pc| && u != v
    requires Always(Next, WriterWaits(v), s, sched)
    ensures Count(Next, Enters(u), s, sched) <= PastTurnstile(s.pc[u])
  {
    ReachableInv(true, threads, s);
    hide Inv;
    var inv := (s: State) => Inv(s) && s.turnstile && u < |s.pc|;
    forall s: State, c: Choice | inv(s) && WriterWaits(v)(s) && WriterWaits(v)(Next(s, c))
      ensures inv(Next(s, c))
      ensures ReaderBudget(u)(Next(s, c)) + (if Enters(u)(s, c) then 1 else 0) <= ReaderBudget(u)(s)
    {
      ReaderSpends(s, c, v, u);
    }
    assert forall s: State :: ReaderBudget(u)(s) >= 0;
    hide ReaderBudget, Enters, WriterWaits, Next;
    EventsBounded(Next, inv, WriterWaits(v), Enters(u), ReaderBudget(u), s, sched);
  }

  /** Until `v` is in, no other writer enters. */
  lemma NextWriterIn(threads: nat, s: State, sched: seq<Choice>, v: nat, u: nat)
    requires Reachable(true, threads, s) && u < |s.pc| && u != v
    requires Always(Next, WriterWaits(v), s, sched)
    ensures Count(Next, WriterEnters(u), s, sched) == 0
  {
    ReachableInv(true, threads, s);
    hide Inv;
    var inv := (s: State) => Inv(s) && s.turnstile && u < |s.pc|;
    forall s: State, c: Choice | inv(s) && WriterWaits(v)(s) && WriterWaits(v)(Next(s, c))
      ensures inv(Next(s, c)) && !WriterEnters(u)(s, c)
    {
      ReaderSpends(s, c, v, u);
    }
    hide WriterEnters, WriterWaits, Next;
    EventsBounded(Next, inv, WriterWaits(v), WriterEnters(u), (s: State) => 0, s, sched);
  }

  // When a waiting writer can be overtaken without bound.

  lemma NobodyEnters(s: State, sched: seq<Choice>, p: State -> bool, u: nat)
    requires u >= |s.pc| && Always(Next, p, s, sched)
    ensures Count(Next, Enters(u), s, sched) == 0
  {
    var inv := (s: State) => u >= |s.pc|;
    forall s: State, c: Choice | inv(s) ensures inv(Next(s, c)) && !Enters(u)(s, c) {
      if c.t < |s.pc| { NextMovesOne(s, c, InR); }
    }
    EventsBounded(Next, inv, p, Enters(u), (s: State) => 0, s, sched);
  }

  /** A writer past the turnstile, or without one, is overtaken a bounded number of times exactly if there is a
      turnstile, or nobody else. */
  lemma WriterOvertakingIff(turnstile: bool, threads: nat)
    ensures OvertakingBounded(Next, Init(turnstile, threads), threads, WriterWaits, Enters) <==>
              turnstile || threads <= 1
  {
    if turnstile || threads <= 1 {
      forall s, sched, v: nat, u: nat | Reaches(Next, Init(turnstile, threads), s) && u != v && v < threads
                                        && Always(Next, WriterWaits(v), s, sched)
        ensures Count(Next, Enters(u), s, sched) <= 1
      {
        ReachableInv(turnstile, threads, s);
        if u >= threads {
          NobodyEnters(s, sched, WriterWaits(v), u);
        } else {
          ReadersOvertakeOnce(threads, s, sched, v, u);
        }
      }
      assert BoundedBy(Next, Init(turnstile, threads), threads, WriterWaits, Enters, 1);
    } else {
      var s := WriteRun(turnstile, threads);
      SoloLoop(s, WWaitEmpty);
      LoopUnbounded(Next, Init(turnstile, threads), threads, WriterWaits, Enters, s, 1, 0);
    }
  }

  /** `v` is a writer that has not passed the turnstile. */
  function WriterOutside(v: nat): State -> bool { At(v, WWaitTurn) }

  /** Before the turnstile a writer can be overtaken without bound as soon as there is another thread. */
  lemma OutsideOvertakingIff(threads: nat)
    ensures OvertakingBounded(Next, Init(true, threads), threads, WriterOutside, Enters) <==> threads <= 1
  {
    if threads <= 1 {
      forall s, sched, v: nat, u: nat | Reaches(Next, Init(true, threads), s) && u != v && v < threads
                                        && Always(Next, WriterOutside(v), s, sched)
        ensures Count(Next, Enters(u), s, sched) <= 0
      {
        ReachableInv(true, threads, s);
        NobodyEnters(s, sched, WriterOutside(v), u);
      }
      assert BoundedBy(Next, Init(true, threads), threads, WriterOutside, Enters, 0);
    } else {
      var s := WriteRun(true, threads);
      SoloLoop(s, WWaitTurn);
      LoopUnbounded(Next, Init(true, threads), threads, WriterOutside, Enters, s, 1, 0);
    }
  }

  /** Thread 1 begins to write. */
  lemma WriteRun(turnstile: bool, threads: nat) returns (s: State)
    requires threads >= 2
    ensures Reachable(turnstile, threads, s)
    ensures s == Goto(Init(turnstile, threads), 1, if turnstile then WWaitTurn else WWaitEmpty)
  {
    ReachesSelf(Next, Init(turnstile, threads));
    s := Go(Next, Init(turnstile, threads), Init(turnstile, threads), Write(1));
  }

  /** The lock is free and thread 0 outside; thread 1 is at `w`. */
  predicate Free(s: State, w: Pc) {
    && |s.pc| >= 2 && s.pc[0].Idle? && s.pc[1] == w
    && s.mutex == 1 && s.counter == 0 && s.roomEmpty == 1 && s.turn == 1
  }

  /** Thread 0 alone reads once, and leaves everything as it was. */
  lemma SoloLoop(s: State, w: Pc)
    requires Free(s, w)
    ensures ReachesCounting(Next, At(1, w), Enters(0), s, s, 1)
  {
    CountingSelf(Next, At(1, w), Enters(0), s);
    hide ReachesCounting;
    var s1 := Goto(s, 0, if s.turnstile then RWaitTurn else RLockSwitch);
    SoloStep(s, s, s1, Read(0), w, 0);
    if s.turnstile {
      var s2 := Goto(s.(turn := 0), 0, RPostTurn);
      SoloStep(s, s1, s2, Step(0), w, 0);
      SoloStep(s, s2, Goto(s, 0, RLockSwitch), Step(0), w, 0);
    }
    SoloCounts(s, Goto(s, 0, RLockSwitch), w);
  }

  lemma SoloCounts(s0: State, s: State, w: Pc)
    requires Free(s0, w) && s == Goto(s0, 0, RLockSwitch)
    requires ReachesCounting(Next, At(1, w), Enters(0), s0, s, 0)
    ensures ReachesCounting(Next, At(1, w), Enters(0), s0, s0, 1)
  {
    hide ReachesCounting;
    var s1 := Goto(s0.(mutex := 0), 0, RCount);
    SoloStep(s0, s, s1, Step(0), w, 0);
    var s2 := Goto(s0.(mutex := 0, counter := 1), 0, RWaitEmpty);
    SoloStep(s0, s1, s2, Step(0), w, 0);
    var s3 := Goto(s0.(mutex := 0, counter := 1, roomEmpty := 0), 0, RUnlockSwitch);
    SoloStep(s0, s2, s3, Step(0), w, 0);
    SoloReads(s0, s3, w);
  }

  lemma SoloReads(s0: State, s: State, w: Pc)
    requires Free(s0, w) && s == Goto(s0.(mutex := 0, counter := 1, roomEmpty := 0), 0, RUnlockSwitch)
    requires ReachesCounting(Next, At(1, w), Enters(0), s0, s, 0)
    ensures ReachesCounting(Next, At(1, w), Enters(0), s0, s0, 1)
  {
    hide ReachesCounting;
    var s1 := Goto(s0.(counter := 1, roomEmpty := 0), 0, Reading);
    SoloStep(s0, s, s1, Step(0), w, 0);
    var s2 := Goto(s0.(mutex := 0, counter := 1, roomEmpty := 0), 0, RUncount);
    SoloStep(s0, s1, s2, Step(0), w, 1);
    var s3 := Goto(s0.(mutex := 0, roomEmpty := 0), 0, RPostEmpty);
    SoloStep(s0, s2, s3, Step(0), w, 1);
    var s4 := Goto(s0.(mutex := 0), 0, RUnlockLast);
    SoloStep(s0, s3, s4, Step(0), w, 1);
    assert s0.pc[0 := Idle] == s0.pc;
    SoloStep(s0, s4, s0, Step(0), w, 1);
  }

  lemma SoloStep(s0: State, s: State, s': State, c: Choice, w: Pc, k: nat)
    requires ReachesCounting(Next, At(1, w), Enters(0), s0, s, k)
    requires s' == Next(s, c) && At(1, w)(s')
    ensures ReachesCounting(Next, At(1, w), Enters(0), s0, s', k + if Enters(0)(s, c) then 1 else 0)
  {
    CountingStep(Next, At(1, w), Enters(0), s0, s, k, c);
  }

  // Without the turnstile: writers starve though they could never have moved.

  /** `v` waits to write and finds roomEmpty taken. */
  function WriterBlocked(v: nat): State -> bool {
    (s: State) => v < |s.pc| && s.pc[v].WWaitEmpty? && s.roomEmpty == 0
  }

  /** A writer that is blocked all the time is overtaken without bound exactly if there is no turnstile and there
      are two readers to take turns. */
  lemma BlockedOvertakingIff(turnstile: bool, threads: nat)
    ensures OvertakingBounded(Next, Init(turnstile, threads), threads, WriterBlocked, Enters) <==>
              turnstile || threads <= 2
  {
    if turnstile || threads <= 2 {
      forall s, sched, v: nat, u: nat | Reaches(Next, Init(turnstile, threads), s) && u != v && v < threads
                                        && Always(Next, WriterBlocked(v), s, sched)
        ensures Count(Next, Enters(u), s, sched) <= 1
      {
        ReachableInv(turnstile, threads, s);
        if u >= threads {
          NobodyEnters(s, sched, WriterBlocked(v), u);
        } else if turnstile {
          BlockedWaits(s, sched, v);
          ReadersOvertakeOnce(threads, s, sched, v, u);
        } else {
          OneReaderOvertakesOnce(s, sched, v, u);
        }
      }
      assert BoundedBy(Next, Init(turnstile, threads), threads, WriterBlocked, Enters, 1);
    } else {
      var s := ReadThenWrite(threads);
      TwoHandovers(s);
      LoopUnbounded(Next, Init(false, threads), threads, WriterBlocked, Enters, s, 2, 0);
    }
  }

  lemma {:induction false} BlockedWaits(s: State, sched: seq<Choice>, v: nat)
    requires Always(Next, WriterBlocked(v), s, sched)
    ensures Always(Next, WriterWaits(v), s, sched)
    decreases |sched|
  {
    if sched != [] {
      BlockedWaits(Next(s, sched[0]), sched[1..], v);
    }
  }

  /** With one other thread, that thread has roomEmpty: it may enter, but to enter again it would have to post. */
  lemma OneReaderSpends(s: State, c: Choice, v: nat, u: nat)
    requires Inv(s) && |s.pc| == 2 && v < 2 && u < 2 && u != v && WriterBlocked(v)(s) && WriterBlocked(v)(Next(s, c))
    ensures (if At(u, RUnlockSwitch)(Next(s, c)) then 1 else 0) + (if Enters(u)(s, c) then 1 else 0)
            <= if At(u, RUnlockSwitch)(s) then 1 else 0
  {
    assert Prefix(s.pc, InR, 2) == Prefix(s.pc, InR, 1) + InR(s.pc[1]);
    assert Prefix(s.pc, InR, 1) == Prefix(s.pc, InR, 0) + InR(s.pc[0]);
    assert s.counter == InR(s.pc[v]) + InR(s.pc[u]);
    hide Inv;
    if c.t != u {
      StaysPut(s, c, u);
      hide Next;
    }
  }

  lemma OneReaderOvertakesOnce(s: State, sched: seq<Choice>, v: nat, u: nat)
    requires Inv(s) && |s.pc| == 2 && v < 2 && u < 2 && u != v && Always(Next, WriterBlocked(v), s, sched)
    ensures Count(Next, Enters(u), s, sched) <= 1
  {
    hide Inv;
    var inv := (s: State) => Inv(s) && |s.pc| == 2;
    var budget := (s: State) => if At(u, RUnlockSwitch)(s) then 1 else 0;
    forall s: State, c: Choice | inv(s) && WriterBlocked(v)(s) && WriterBlocked(v)(Next(s, c))
      ensures inv(Next(s, c)) && budget(Next(s, c)) + (if Enters(u)(s, c) then 1 else 0) <= budget(s)
    {
      NextKeepsInv(s, c);
      OneReaderSpends(s, c, v, u);
    }
    hide Next, WriterBlocked, Enters, At;
    EventsBounded(Next, inv, WriterBlocked(v), Enters(u), budget, s, sched);
  }

  /** Thread 2 waits to write while one of threads 0 and 1 reads and the other is outside. */
  predicate Starving(s: State, reader: nat) {
    && |s.pc| >= 3 && reader < 2 && s.pc[reader].Reading? && s.pc[1 - reader].Idle? && s.pc[2].WWaitEmpty?
    && !s.turnstile && s.mutex == 1 && s.counter == 1 && s.roomEmpty == 0
  }

  ghost predicate Starved(s0: State, s: State, k: nat) {
    ReachesCounting(Next, WriterBlocked(2), Enters(0), s0, s, k)
  }

  lemma StarvedStep(s0: State, s: State, s': State, k: nat, c: Choice)
    requires Starved(s0, s, k) && s' == Next(s, c) && WriterBlocked(2)(s')
    ensures Starved(s0, s', k + if Enters(0)(s, c) then 1 else 0)
  {
    CountingStep(Next, WriterBlocked(2), Enters(0), s0, s, k, c);
  }

  /** The other reader enters before the one inside leaves. */
  lemma Handover(s0: State, s: State, k: nat, reader: nat) returns (s': State)
    requires Starved(s0, s, k) && Starving(s, reader)
    ensures s' == s.(pc := s.pc[1 - reader := Reading][reader := Idle])
    ensures Starved(s0, s', k + if reader == 1 then 1 else 0)
  {
    hide Starved;
    var next := 1 - reader;
    var s1 := Goto(s, next, RLockSwitch);
    StarvedStep(s0, s, s1, k, Read(next));
    var s2 := Goto(s.(mutex := 0), next, RCount);
    StarvedStep(s0, s1, s2, k, Step(next));
    var s3 := Goto(s.(mutex := 0, counter := 2), next, RUnlockSwitch);
    StarvedStep(s0, s2, s3, k, Step(next));
    var s4 := Goto(s.(counter := 2), next, Reading);
    StarvedStep(s0, s3, s4, k, Step(next));
    s' := LeaveTo(s0, s4, k + if reader == 1 then 1 else 0, reader);
    assert s'.pc == s.pc[next := Reading][reader := Idle];
  }

  lemma LeaveTo(s0: State, s: State, k: nat, reader: nat) returns (s': State)
    requires Starved(s0, s, k) && |s.pc| >= 3 && reader < 2 && s.pc[reader].Reading? && s.pc[2].WWaitEmpty?
    requires s.mutex == 1 && s.counter == 2 && s.roomEmpty == 0
    ensures s' == s.(counter := 1, pc := s.pc[reader := Idle]) && Starved(s0, s', k)
  {
    hide Starved;
    var s1 := Goto(s.(mutex := 0), reader, RUncount);
    StarvedStep(s0, s, s1, k, Step(reader));
    var s2 := Goto(s.(mutex := 0, counter := 1), reader, RUnlockLast);
    StarvedStep(s0, s1, s2, k, Step(reader));
    s' := Goto(s.(counter := 1), reader, Idle);
    StarvedStep(s0, s2, s', k, Step(reader));
  }

  lemma TwoHandovers(s: State)
    requires Starving(s, 0)
    ensures ReachesCounting(Next, WriterBlocked(2), Enters(0), s, s, 1)
  {
    CountingSelf(Next, WriterBlocked(2), Enters(0), s);
    var s1 := Handover(s, s, 0, 0);
    var s2 := Handover(s, s1, 0, 1);
    assert s2.pc == s.pc;
  }

  lemma ReadThenWrite(threads: nat) returns (s: State)
    requires threads >= 3
    ensures Reachable(false, threads, s) && Starving(s, 0)
  {
    var s0 := Init(false, threads);
    ReachesSelf(Next, s0);
    hide Reaches;
    s := Go(Next, s0, s0, Read(0));
    s := Go(Next, s0, s, Step(0));
    s := Go(Next, s0, s, Step(0));
    assert s == s0.(mutex := 0, counter := 1, pc := s0.pc[0 := RWaitEmpty]);
    s := Go(Next, s0, s, Step(0));
    s := Go(Next, s0, s, Step(0));
    assert s == s0.(roomEmpty := 0, counter := 1, pc := s0.pc[0 := Reading]);
    s := Go(Next, s0, s, Write(2));
  }

  // Every call gets the lock once, as what it asked for, and gives it back.

  datatype Role = Reader | Writer

  predicate IsReader(p: Pc) { !p.Idle? && !p.WWaitTurn? && !p.WWaitEmpty? && !p.Writing? && !p.WPostEmpty? }

  /** The calls that thread `t` begins. */
  function Calls(t: nat): (State, Choice) -> Option<Role> {
    (s: State, c: Choice) =>
      if c.t != t || t >= |s.pc| || !s.pc[t].Idle? then None
      else match c case Read(_) => Some(Reader) case Write(_) => Some(Writer) case _ => None
  }

  /** Thread `t` gets the lock. */
  function Entries(t: nat): (State, Choice) -> Option<Role> {
    (s: State, c: Choice) =>
      var s' := Next(s, c);
      if c.t != t || t >= |s.pc| || t >= |s'.pc| then None
      else if s'.pc[t].Reading? && !s.pc[t].Reading? then Some(Reader)
      else if s'.pc[t].Writing? && !s.pc[t].Writing? then Some(Writer)
      else None
  }

  /** A call of thread `t` and its release are over. */
  function Releases(t: nat): (State, Choice) -> Option<Role> {
    (s: State, c: Choice) =>
      var s' := Next(s, c);
      if c.t != t || t >= |s.pc| || t >= |s'.pc| || s.pc[t].Idle? || !s'.pc[t].Idle? then None
      else Some(if IsReader(s.pc[t]) then Reader else Writer)
  }

  predicate Releasing(p: Pc) {
    p.Reading? || p.RUncount? || p.RPostEmpty? || p.RUnlockLast? || p.Writing? || p.WPostEmpty?
  }

  /** The call of thread `t` that has not got the lock, if any. */
  function Asked(t: nat): State -> Option<Role> {
    (s: State) =>
      if t >= |s.pc| || s.pc[t].Idle? || Releasing(s.pc[t]) then None
      else Some(if IsReader(s.pc[t]) then Reader else Writer)
  }

  /** The role in which thread `t` has got the lock and has not finished giving it back, if any. */
  function Inside(t: nat): State -> Option<Role> {
    (s: State) =>
      if t >= |s.pc| || !Releasing(s.pc[t]) then None else Some(if IsReader(s.pc[t]) then Reader else Writer)
  }

  lemma NextEnters(s: State, c: Choice, t: nat)
    ensures Passes(Asked(t)(s), Calls(t)(s, c), Entries(t)(s, c), Asked(t)(Next(s, c)))
  {
    if c.t != t && t < |s.pc| {
      StaysPut(s, c, t);
      hide Next;
    }
  }

  lemma NextReleases(s: State, c: Choice, t: nat)
    ensures Passes(Inside(t)(s), Entries(t)(s, c), Releases(t)(s, c), Inside(t)(Next(s, c)))
  {
    if c.t != t && t < |s.pc| {
      StaysPut(s, c, t);
      hide Next;
    }
  }

  /** In every run each thread gets the lock once for each of its calls, in the order of the calls and as reader or
      writer as it asked, and releases it once for each time it got it; no call gives up. */
  lemma CallsAreServed(turnstile: bool, threads: nat, sched: seq<Choice>, t: nat)
    ensures var s0 := Init(turnstile, threads);
            var s, done := Exec(Next, s0, sched), Collect(Next, Entries(t), s0, sched);
            && Collect(Next, Calls(t), s0, sched) == done + Listed(Asked(t)(s))
            && done == Collect(Next, Releases(t), s0, sched) + Listed(Inside(t)(s))
  {
    var s0, all := Init(turnstile, threads), (s: State) => true;
    forall s: State, c: Choice
      ensures Passes(Asked(t)(s), Calls(t)(s, c), Entries(t)(s, c), Asked(t)(Next(s, c)))
      ensures Passes(Inside(t)(s), Entries(t)(s, c), Releases(t)(s, c), Inside(t)(Next(s, c)))
    {
      NextEnters(s, c, t);
      NextReleases(s, c, t);
    }
    hide Next, IsReader;
    CallsAreAnswered(Next, all, Calls(t), Entries(t), Releases(t), Asked(t), Inside(t), s0, sched);
  }

  lemma TurnUnused(turnstile: bool, threads: nat, s: State)
    requires Reachable(turnstile, threads, s)
    ensures !turnstile ==> s.turn == 1
  {
    InitInv(turnstile, threads);
    var inv := (s: State) => Inv(s) && s.turnstile == turnstile && (!turnstile ==> s.turn == 1);
    forall s: State, c: Choice | inv(s) ensures inv(Next(s, c)) {
      NextKeepsInv(s, c);
      if c.t < |s.pc| { assert Local(s, s.pc[c.t]); }
      hide Inv;
    }
    ReachesKeeps(Next, inv, Init(turnstile, threads), s);
  }

  /** When all threads are outside, the lock is as it was at the start. */
  lemma QuietIsInitial(turnstile: bool, threads: nat, s: State)
    requires Reachable(turnstile, threads, s) && forall t :: 0 <= t < |s.pc| ==> s.pc[t].Idle?
    ensures s == Init(turnstile, threads)
  {
    ReachableInv(turnstile, threads, s);
    SumBounds(s.pc, HoldsSwitch, 0, 0);
    SumBounds(s.pc, InR, 0, 0);
    SumBounds(s.pc, HasEmpty, 0, 0);
    SumBounds(s.pc, LacksEmpty, 0, 0);
    SumBounds(s.pc, HasTurn, 0, 0);
    TurnUnused(turnstile, threads, s);
    assert s.pc == Init(turnstile, threads).pc;
  }

  /** Readers share: all threads can read at the same time. */
  lemma {:induction false} AllReadRun(turnstile: bool, threads: nat, k: nat) returns (s: State)
    requires k <= threads
    ensures Reachable(turnstile, threads, s)
    ensures s == SomeRead(turnstile, threads, k)
  {
    if k == 0 {
      s := Init(turnstile, threads);
      ReachesSelf<State, Choice>(Next, s);
      assert s.pc == SomeRead(turnstile, threads, 0).pc;
    } else {
      s := AllReadRun(turnstile, threads, k - 1);
      s := ReadRun(turnstile, threads, s, k - 1);
      assert s.pc == SomeRead(turnstile, threads, k).pc;
    }
  }

  /** The first `k` threads read, the others are outside. */
  function SomeRead(turnstile: bool, threads: nat, k: nat): State {
    State(turnstile, 1, if k == 0 then 1 else 0, k, 1, seq(threads, t => if t < k then Reading else Idle))
  }

  lemma ReadRun(turnstile: bool, threads: nat, s: State, t: nat) returns (s': State)
    requires Reachable(turnstile, threads, s) && t < threads && s == SomeRead(turnstile, threads, t)
    ensures Reachable(turnstile, threads, s') && s'.pc == s.pc[t := Reading]
    ensures s' == SomeRead(turnstile, threads, t + 1).(pc := s'.pc)
  {
    hide Reaches;
    var s0 := Init(turnstile, threads);
    s' := Go(Next, s0, s, Read(t));
    if turnstile {
      s' := Go(Next, s0, s', Step(t));
      s' := Go(Next, s0, s', Step(t));
    }
    assert s' == s.(pc := s.pc[t := RLockSwitch]);
    s' := Go(Next, s0, s', Step(t));
    s' := Go(Next, s0, s', Step(t));
    if t == 0 { s' := Go(Next, s0, s', Step(t)); }
    assert s' == s.(roomEmpty := 0, counter := t + 1, mutex := 0, pc := s.pc[t := RUnlockSwitch]);
    s' := Go(Next, s0, s', Step(t));
    assert s'.pc == s.pc[t := Reading];
  }

  // The lock as it is updated in place.

  class Lock {
    const turnstile: bool
    var turn: nat
    var roomEmpty: nat
    var counter: int
    var mutex: nat
    var pc: seq<Pc>

    ghost function View(): State
      reads this
    {
      State(turnstile, turn, roomEmpty, counter, mutex, pc)
    }

    ghost predicate Valid()
      reads this
    {
      Inv(View())
    }

    constructor (turnstile: bool, threads: nat)
      ensures View() == Init(turnstile, threads) && Valid()
    {
      this.turnstile := turnstile;
      turn, roomEmpty, counter, mutex := 1, 1, 0, 1;
      pc := seq(threads, _ => Idle);
      new;
      InitInv(turnstile, threads);
    }

    /** The next statement of thread `t`. */
    method Advance(t: nat)
      requires Valid() && t < |pc|
      modifies this
      ensures View() == ThreadStep(old(View()), t) && Valid()
    {
      hide Inv;
      ghost var before := View();
      NextKeepsInv(before, Step(t));
      var p := pc[t];
      match p {
        case Idle =>
        case RWaitTurn => if turn > 0 { turn, p := turn - 1, RPostTurn; }
        case RPostTurn => turn, p := turn + 1, RLockSwitch;
        case RLockSwitch => if mutex > 0 { mutex, p := mutex - 1, RCount; }
        case RCount =>
          counter := counter + 1;
          p := if counter == 1 then RWaitEmpty else RUnlockSwitch;
        case RWaitEmpty => if roomEmpty > 0 { roomEmpty, p := roomEmpty - 1, RUnlockSwitch; }
        case RUnlockSwitch => mutex, p := mutex + 1, Reading;
        case Reading => if mutex > 0 { mutex, p := mutex - 1, RUncount; }
        case RUncount =>
          counter := counter - 1;
          p := if counter == 0 then RPostEmpty else RUnlockLast;
        case RPostEmpty => roomEmpty, p := roomEmpty + 1, RUnlockLast;
        case RUnlockLast => mutex, p := mutex + 1, Idle;
        case WWaitTurn => if turn > 0 { turn, p := turn - 1, WWaitEmpty; }
        case WWaitEmpty => if roomEmpty > 0 { roomEmpty, p := roomEmpty - 1, Writing; }
        case Writing =>
          if turnstile { turn := turn + 1; }
          p := WPostEmpty;
        case WPostEmpty => roomEmpty, p := roomEmpty + 1, Idle;
      }
      pc := pc[t := p];
      assert View() == ThreadStep(before, t);
    }

    /** Any scheduler: calls begin and threads take their steps in the order `sched` says. */
    method Run(sched: seq<Choice>)
      requires Valid()
      modifies this
      ensures View() == Exec(Next, old(View()), sched) && Valid()
    {
      hide Inv;
      for k := 0 to |sched|
        invariant View() == Exec(Next, old(View()), sched[..k]) && Valid()
      {
        ExecSnoc(Next, old(View()), sched[..k], sched[k]);
        assert sched[..k + 1] == sched[..k] + [sched[k]];
        var c := sched[k];
        if c.t < |pc| {
          NextKeepsInv(View(), c);
          if c.Step? {
            Advance(c.t);
          } else if pc[c.t].Idle? {
            pc := pc[c.t := if c.Read? then (if turnstile then RWaitTurn else RLockSwitch)
                            else if turnstile then WWaitTurn else WWaitEmpty];
          }
        }
      }
      assert sched[..|sched|] == sched;
    }
  }
}
