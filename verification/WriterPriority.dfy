/** The reader/writer lock with writer priority: two light switches over two semaphores, any number of
    threads, each of which may read or write any number of times.  A light switch's counter is changed and
    tested in one step, under the switch's own mutex. */
module WriterPriority {
  import opened Sums
  import opened Runs

  datatype Pc =
    | Idle
    | RWaitNoReaders   // next: wait(noReaders)
    | RLockSwitch      // next: wait(reader_switch.mutex)
    | RCount           // next: counter++ and its test
    | RWaitNoWriters   // first reader; next: wait(noWriters)
    | RUnlockSwitch    // next: post(reader_switch.mutex)
    | RPostNoReaders   // next: post(noReaders)
    | Reading          // has the lock; next, to release: wait(reader_switch.mutex)
    | RUncount         // next: counter-- and its test
    | RPostNoWriters   // last reader; next: post(noWriters)
    | RUnlockLast      // next: post(reader_switch.mutex)
    | WLockSwitch      // next: wait(writer_switch.mutex)
    | WCount           // next: counter++ and its test
    | WWaitNoReaders   // first writer; next: wait(noReaders)
    | WUnlockSwitch    // next: post(writer_switch.mutex)
    | WWaitNoWriters   // next: wait(noWriters)
    | Writing          // has the lock; next, to release: post(noWriters)
    | WLockLast        // next: wait(writer_switch.mutex)
    | WUncount         // next: counter-- and its test
    | WPostNoReaders   // last writer; next: post(noReaders)
    | WUnlockLast      // next: post(writer_switch.mutex)

  datatype Switch = Switch(counter: int, mutex: nat)

  datatype State = State(noReaders: nat, noWriters: nat, readers: Switch, writers: Switch, pc: seq<Pc>)

  datatype Choice = Read(t: nat) | Write(t: nat) | Step(t: nat)

  function Init(threads: nat): State {
    State(1, 1, Switch(0, 1), Switch(0, 1), seq(threads, _ => Idle))
  }

  function Goto(s: State, t: nat, p: Pc): State
    requires t < |s.pc|
  {
    s.(pc := s.pc[t := p])
  }

  function Next(s: State, c: Choice): State {
    if c.t >= |s.pc| then s else
    match c
    case Read(t) => if s.pc[t].Idle? then Goto(s, t, RWaitNoReaders) else s
    case Write(t) => if s.pc[t].Idle? then Goto(s, t, WLockSwitch) else s
    case Step(t) => if IsReader(s.pc[t]) then ReaderStep(s, t) else WriterStep(s, t)
  }

  predicate IsReader(p: Pc) {
    p.RWaitNoReaders? || p.RLockSwitch? || p.RCount? || p.RWaitNoWriters? || p.RUnlockSwitch? || p.RPostNoReaders?
    || p.Reading? || p.RUncount? || p.RPostNoWriters? || p.RUnlockLast?
  }

  function ReaderStep(s: State, t: nat): State
    requires t < |s.pc|
  {
    var sw := s.readers;
    match s.pc[t]
    case RWaitNoReaders =>
      if s.noReaders == 0 then s else Goto(s.(noReaders := s.noReaders - 1), t, RLockSwitch)
    case RLockSwitch => if sw.mutex == 0 then s else Goto(s.(readers := sw.(mutex := sw.mutex - 1)), t, RCount)
    case RCount =>
      Goto(s.(readers := sw.(counter := sw.counter + 1)), t,
           if sw.counter + 1 == 1 then RWaitNoWriters else RUnlockSwitch)
    case RWaitNoWriters =>
      if s.noWriters == 0 then s else Goto(s.(noWriters := s.noWriters - 1), t, RUnlockSwitch)
    case RUnlockSwitch => Goto(s.(readers := sw.(mutex := sw.mutex + 1)), t, RPostNoReaders)
    case RPostNoReaders => Goto(s.(noReaders := s.noReaders + 1), t, Reading)
    case Reading => if sw.mutex == 0 then s else Goto(s.(readers := sw.(mutex := sw.mutex - 1)), t, RUncount)
    case RUncount =>
      Goto(s.(readers := sw.(counter := sw.counter - 1)), t,
           if sw.counter - 1 == 0 then RPostNoWriters else RUnlockLast)
    case RPostNoWriters => Goto(s.(noWriters := s.noWriters + 1), t, RUnlockLast)
    case RUnlockLast => Goto(s.(readers := sw.(mutex := sw.mutex + 1)), t, Idle)
    case _ => s
  }

  function WriterStep(s: State, t: nat): State
    requires t < |s.pc|
  {
    var sw := s.writers;
    match s.pc[t]
    case WLockSwitch => if sw.mutex == 0 then s else Goto(s.(writers := sw.(mutex := sw.mutex - 1)), t, WCount)
    case WCount =>
      Goto(s.(writers := sw.(counter := sw.counter + 1)), t,
           if sw.counter + 1 == 1 then WWaitNoReaders else WUnlockSwitch)
    case WWaitNoReaders =>
      if s.noReaders == 0 then s else Goto(s.(noReaders := s.noReaders - 1), t, WUnlockSwitch)
    case WUnlockSwitch => Goto(s.(writers := sw.(mutex := sw.mutex + 1)), t, WWaitNoWriters)
    case WWaitNoWriters => if s.noWriters == 0 then s else Goto(s.(noWriters := s.noWriters - 1), t, Writing)
    case Writing => Goto(s.(noWriters := s.noWriters + 1), t, WLockLast)
    case WLockLast => if sw.mutex == 0 then s else Goto(s.(writers := sw.(mutex := sw.mutex - 1)), t, WUncount)
    case WUncount =>
      Goto(s.(writers := sw.(counter := sw.counter - 1)), t,
           if sw.counter - 1 == 0 then WPostNoReaders else WUnlockLast)
    case WPostNoReaders => Goto(s.(noReaders := s.noReaders + 1), t, WUnlockLast)
    case WUnlockLast => Goto(s.(writers := sw.(mutex := sw.mutex + 1)), t, Idle)
    case _ => s
  }

  // Regions.

  function HoldsRSwitch(p: Pc): int {
    match p case RCount | RWaitNoWriters | RUnlockSwitch | RUncount | RPostNoWriters | RUnlockLast => 1 case _ => 0
  }

  function HoldsWSwitch(p: Pc): int {
    match p case WCount | WWaitNoReaders | WUnlockSwitch | WUncount | WPostNoReaders | WUnlockLast => 1 case _ => 0
  }

  /** Counted by the reader switch. */
  function InR(p: Pc): int {
    match p case RWaitNoWriters | RUnlockSwitch | RPostNoReaders | Reading | RUncount => 1 case _ => 0
  }

  /** Counted by the writer switch. */
  function InW(p: Pc): int {
    match p case WWaitNoReaders | WUnlockSwitch | WWaitNoWriters | Writing | WLockLast | WUncount => 1 case _ => 0
  }

  /** Holds noReaders itself, rather than for its group. */
  function HasNoReaders(p: Pc): int {
    match p
    case RLockSwitch | RCount | RWaitNoWriters | RUnlockSwitch | RPostNoReaders | WPostNoReaders => 1
    case _ => 0
  }

  /** Is counted as a writer but has yet to take noReaders for the group. */
  function LacksNoReaders(p: Pc): int { if p.WWaitNoReaders? then 1 else 0 }

  function HasNoWriters(p: Pc): int { if p.Writing? || p.RPostNoWriters? then 1 else 0 }

  function LacksNoWriters(p: Pc): int { if p.RWaitNoWriters? then 1 else 0 }

  function Pos(n: int): int { if n > 0 then 1 else 0 }

  ghost predicate Inv(s: State) {
    && s.readers.mutex + Sum(s.pc, HoldsRSwitch) == 1
    && s.writers.mutex + Sum(s.pc, HoldsWSwitch) == 1
    && s.readers.counter == Sum(s.pc, InR)
    && s.writers.counter == Sum(s.pc, InW)
    && s.noReaders + Sum(s.pc, HasNoReaders) + Pos(s.writers.counter) - Sum(s.pc, LacksNoReaders) == 1
    && s.noWriters + Sum(s.pc, HasNoWriters) + Pos(s.readers.counter) - Sum(s.pc, LacksNoWriters) == 1
    && Locals(s)
  }

  predicate Local(s: State, p: Pc) {
    && (p.RWaitNoWriters? ==> s.readers.counter == 1)
    && (p.RPostNoWriters? ==> s.readers.counter == 0)
    && (p.WWaitNoReaders? ==> s.writers.counter == 1)
    && (p.WPostNoReaders? ==> s.writers.counter == 0)
  }

  lemma NextMovesOne(s: State, c: Choice, w: Pc -> int)
    requires c.t < |s.pc|
    ensures |Next(s, c).pc| == |s.pc|
    ensures Sum(Next(s, c).pc, w) == Sum(s.pc, w) - w(s.pc[c.t]) + w(Next(s, c).pc[c.t])
  {
    assert Next(s, c).pc == s.pc[c.t := Next(s, c).pc[c.t]];
    SumUpdate(s.pc, c.t, Next(s, c).pc[c.t], w);
  }

  lemma SwitchHolders(s: State, t: nat)
    requires Inv(s) && t < |s.pc|
    ensures HoldsRSwitch(s.pc[t]) == 1 ==> forall u :: 0 <= u < |s.pc| && u != t ==> HoldsRSwitch(s.pc[u]) == 0
    ensures HoldsWSwitch(s.pc[t]) == 1 ==> forall u :: 0 <= u < |s.pc| && u != t ==> HoldsWSwitch(s.pc[u]) == 0
    ensures s.readers.counter >= InR(s.pc[t]) && s.writers.counter >= InW(s.pc[t])
  {
    SumMember(s.pc, InR, t);
    SumMember(s.pc, InW, t);
    forall u | 0 <= u < |s.pc| && u != t
      ensures HoldsRSwitch(s.pc[t]) + HoldsRSwitch(s.pc[u]) <= 1 && HoldsWSwitch(s.pc[t]) + HoldsWSwitch(s.pc[u]) <= 1
    {
      SumPair(s.pc, HoldsRSwitch, t, u);
      SumPair(s.pc, HoldsWSwitch, t, u);
    }
  }

  ghost predicate Locals(s: State) {
    forall t :: 0 <= t < |s.pc| ==> Local(s, s.pc[t])
  }

  lemma ReaderKeepsLocals(s: State, t: nat)
    requires Inv(s) && t < |s.pc| && IsReader(s.pc[t])
    ensures Locals(ReaderStep(s, t)) && |ReaderStep(s, t).pc| == |s.pc|
  {
    SwitchHolders(s, t);
    assert Locals(s);
    hide Inv;
  }

  lemma WriterKeepsLocals(s: State, t: nat)
    requires Inv(s) && t < |s.pc| && !IsReader(s.pc[t])
    ensures Locals(WriterStep(s, t)) && |WriterStep(s, t).pc| == |s.pc|
  {
    SwitchHolders(s, t);
    assert Locals(s);
    hide Inv;
  }

  lemma NextKeepsLocal(s: State, c: Choice)
    requires Inv(s)
    ensures Locals(Next(s, c)) && |Next(s, c).pc| == |s.pc|
  {
    assert Locals(s);
    hide Inv, ReaderStep, WriterStep;
    if c.Step? && c.t < |s.pc| {
      if IsReader(s.pc[c.t]) { ReaderKeepsLocals(s, c.t); } else { WriterKeepsLocals(s, c.t); }
    }
  }

  lemma NextKeepsSwitches(s: State, c: Choice)
    requires Inv(s)
    ensures var s' := Next(s, c);
            && s'.readers.mutex + Sum(s'.pc, HoldsRSwitch) == 1 && s'.writers.mutex + Sum(s'.pc, HoldsWSwitch) == 1
            && s'.readers.counter == Sum(s'.pc, InR) && s'.writers.counter == Sum(s'.pc, InW)
  {
    if c.t < |s.pc| {
      NextMovesOne(s, c, HoldsRSwitch);
      NextMovesOne(s, c, HoldsWSwitch);
      NextMovesOne(s, c, InR);
      NextMovesOne(s, c, InW);
    }
  }

  lemma NextKeepsNoReaders(s: State, c: Choice)
    requires Inv(s)
    ensures var s' := Next(s, c);
            s'.noReaders + Sum(s'.pc, HasNoReaders) + Pos(s'.writers.counter) - Sum(s'.pc, LacksNoReaders) == 1
  {
    hide Prefix;
    if c.t < |s.pc| {
      NextMovesOne(s, c, HasNoReaders);
      NextMovesOne(s, c, LacksNoReaders);
      SwitchHolders(s, c.t);
      if IsReader(s.pc[c.t]) {
        hide WriterStep;
      } else {
        hide ReaderStep;
      }
    }
  }

  lemma NextKeepsNoWriters(s: State, c: Choice)
    requires Inv(s)
    ensures var s' := Next(s, c);
            s'.noWriters + Sum(s'.pc, HasNoWriters) + Pos(s'.readers.counter) - Sum(s'.pc, LacksNoWriters) == 1
  {
    hide Prefix;
    if c.t < |s.pc| {
      NextMovesOne(s, c, HasNoWriters);
      NextMovesOne(s, c, LacksNoWriters);
      SwitchHolders(s, c.t);
      if IsReader(s.pc[c.t]) {
        hide WriterStep;
      } else {
        hide ReaderStep;
      }
    }
  }

  lemma NextKeepsInv(s: State, c: Choice)
    requires Inv(s)
    ensures Inv(Next(s, c)) && |Next(s, c).pc| == |s.pc|
  {
    NextKeepsLocal(s, c);
    NextKeepsSwitches(s, c);
    NextKeepsNoReaders(s, c);
    NextKeepsNoWriters(s, c);
    hide Next, Sum, Locals;
  }

  ghost predicate Reachable(threads: nat, s: State) {
    Reaches(Next, Init(threads), s)
  }

  lemma InitInv(threads: nat)
    ensures Inv(Init(threads))
  {
    var pc := Init(threads).pc;
    SumBounds(pc, HoldsRSwitch, 0, 0);
    SumBounds(pc, HoldsWSwitch, 0, 0);
    SumBounds(pc, InR, 0, 0);
    SumBounds(pc, InW, 0, 0);
    SumBounds(pc, HasNoReaders, 0, 0);
    SumBounds(pc, LacksNoReaders, 0, 0);
    SumBounds(pc, HasNoWriters, 0, 0);
    SumBounds(pc, LacksNoWriters, 0, 0);
  }

  lemma ReachableInv(threads: nat, s: State)
    requires Reachable(threads, s)
    ensures Inv(s)
  {
    hide Inv;
    InitInv(threads);
    forall s: State, c: Choice | Inv(s) ensures Inv(Next(s, c)) {
      NextKeepsInv(s, c);
    }
    ReachesKeeps(Next, Inv, Init(threads), s);
  }

  // What the invariant gives.

  lemma SumsAreCounts(s: State)
    requires Inv(s)
    ensures Sum(s.pc, HasNoReaders) >= 0 && Sum(s.pc, HasNoWriters) >= 0
    ensures s.readers.counter >= 0 && s.writers.counter >= 0
    ensures 0 <= Sum(s.pc, LacksNoReaders) <= 1 && 0 <= Sum(s.pc, LacksNoWriters) <= 1
  {
    SumBounds(s.pc, HasNoReaders, 0, 1);
    SumBounds(s.pc, HasNoWriters, 0, 1);
    SumBounds(s.pc, InR, 0, 1);
    SumBounds(s.pc, InW, 0, 1);
    SumBounds(s.pc, LacksNoReaders, 0, 1);
    SumBounds(s.pc, LacksNoWriters, 0, 1);
    SumLe(s.pc, LacksNoReaders, HoldsWSwitch);
    SumLe(s.pc, LacksNoWriters, HoldsRSwitch);
  }

  /** The first writer, waiting for noReaders, is the only thread its switch counts; the same for readers. */
  lemma FirstIsAlone(s: State, t: nat)
    requires Inv(s) && t < |s.pc| && (InR(s.pc[t]) == 1 || InW(s.pc[t]) == 1)
    ensures InW(s.pc[t]) == 1 && !s.pc[t].WWaitNoReaders? ==> Sum(s.pc, LacksNoReaders) == 0 && s.writers.counter >= 1
    ensures InR(s.pc[t]) == 1 && !s.pc[t].RWaitNoWriters? ==> Sum(s.pc, LacksNoWriters) == 0 && s.readers.counter >= 1
  {
    SumsAreCounts(s);
    SumMember(s.pc, InW, t);
    SumMember(s.pc, InR, t);
    if Sum(s.pc, LacksNoReaders) > 0 {
      var u := SumWitness(s.pc, LacksNoReaders);
      if u != t { SumPair(s.pc, InW, t, u); }
    }
    if Sum(s.pc, LacksNoWriters) > 0 {
      var u := SumWitness(s.pc, LacksNoWriters);
      if u != t { SumPair(s.pc, InR, t, u); }
    }
  }

  /** While a reader holds noReaders, no writer does: the writers' switch is off, or its first writer waits. */
  lemma ReaderInsideTurnstile(s: State, t: nat)
    requires Inv(s) && t < |s.pc| && IsReader(s.pc[t]) && HasNoReaders(s.pc[t]) == 1
    ensures forall u :: 0 <= u < |s.pc| && InW(s.pc[u]) == 1 ==> s.pc[u].WWaitNoReaders?
  {
    SumsAreCounts(s);
    SumMember(s.pc, HasNoReaders, t);
    forall u | 0 <= u < |s.pc| && InW(s.pc[u]) == 1 ensures s.pc[u].WWaitNoReaders? {
      FirstIsAlone(s, u);
    }
  }

  /** A reader's wait on noWriters inside the light switch never blocks. */
  lemma WaitInsideSwitchNeverBlocks(threads: nat, s: State, t: nat)
    requires Reachable(threads, s) && t < |s.pc| && s.pc[t].RWaitNoWriters?
    ensures s.noWriters > 0 && Next(s, Step(t)).pc[t] == RUnlockSwitch
  {
    ReachableInv(threads, s);
    FirstReaderGoesOn(s, t);
  }

  lemma FirstReaderGoesOn(s: State, t: nat)
    requires Inv(s) && t < |s.pc| && s.pc[t].RWaitNoWriters?
    ensures s.noWriters > 0
  {
    SumsAreCounts(s);
    ReaderInsideTurnstile(s, t);
    SwitchHolders(s, t);
    SumBounds(s.pc, HasNoWriters, 0, 0);
    SumMember(s.pc, LacksNoWriters, t);
  }

  /** Readers exclude writers, and writers each other. */
  lemma Exclusion(threads: nat, s: State, t: nat, u: nat)
    requires Reachable(threads, s) && t < |s.pc| && u < |s.pc| && t != u && s.pc[t].Writing?
    ensures !s.pc[u].Writing? && !s.pc[u].Reading?
  {
    ReachableInv(threads, s);
    SumsAreCounts(s);
    SumPair(s.pc, HasNoWriters, t, u);
    if Sum(s.pc, LacksNoWriters) > 0 {
      var v := SumWitness(s.pc, LacksNoWriters);
      FirstReaderGoesOn(s, v);
    }
    if s.pc[u].Reading? {
      FirstIsAlone(s, u);
    }
  }

  // Writer priority.

  /** The writer switch is on and its first writer has taken noReaders. */
  ghost predicate WritersHold(s: State) {
    s.writers.counter > 0 && Sum(s.pc, LacksNoReaders) == 0
  }

  function WritersCounted(): State -> bool {
    (s: State) => s.writers.counter > 0
  }

  /** The step gives a reader the lock. */
  function ReaderAcquires(): (State, Choice) -> bool {
    (s: State, c: Choice) => c.Step? && c.t < |s.pc| && s.pc[c.t].RPostNoReaders?
  }

  lemma NoReaderEnters(s: State, c: Choice)
    requires Inv(s) && WritersHold(s)
    ensures !ReaderAcquires()(s, c)
    ensures Next(s, c).writers.counter > 0 ==> WritersHold(Next(s, c))
  {
    SumsAreCounts(s);
    if c.t < |s.pc| {
      SumMember(s.pc, HasNoReaders, c.t);
      NextMovesOne(s, c, LacksNoReaders);
    }
  }

  /** From the moment the writer switch takes noReaders until its counter is 0 again, no reader gets the lock. */
  lemma WritersKeepReadersOut(threads: nat, s: State, sched: seq<Choice>)
    requires Reachable(threads, s) && WritersHold(s)
    requires Always(Next, WritersCounted(), s, sched)
    ensures Count(Next, ReaderAcquires(), s, sched) == 0
  {
    ReachableInv(threads, s);
    hide Inv;
    var inv := (s: State) => Inv(s) && WritersHold(s);
    forall s: State, c: Choice | inv(s) && WritersCounted()(s) && WritersCounted()(Next(s, c))
      ensures inv(Next(s, c)) && !ReaderAcquires()(s, c)
    {
      NextKeepsInv(s, c);
      NoReaderEnters(s, c);
    }
    EventsBounded(Next, inv, WritersCounted(), ReaderAcquires(), (s: State) => 0, s, sched);
  }

  // What priority leaves open: a writer that does not hold noReaders yet, and writers among themselves.

  function At(v: nat, p: Pc): State -> bool {
    (s: State) => v < |s.pc| && s.pc[v] == p
  }

  /** `v` is the first writer and waits for noReaders. */
  function WaitsForNoReaders(v: nat): State -> bool { At(v, WWaitNoReaders) }

  /** `v` is a writer that waits for noWriters. */
  function WaitsForNoWriters(v: nat): State -> bool { At(v, WWaitNoWriters) }

  /** `u` gets the lock, as a reader or as a writer. */
  function Acquires(u: nat): (State, Choice) -> bool {
    (s: State, c: Choice) =>
      c == Step(u) && u < |s.pc| && (s.pc[u].RPostNoReaders? || (s.pc[u].WWaitNoWriters? && s.noWriters > 0))
  }

  lemma NobodyAcquires(s: State, sched: seq<Choice>, p: State -> bool, u: nat)
    requires u >= |s.pc| && Always(Next, p, s, sched)
    ensures Count(Next, Acquires(u), s, sched) == 0
  {
    var inv := (s: State) => u >= |s.pc|;
    forall s: State, c: Choice | inv(s) ensures inv(Next(s, c)) && !Acquires(u)(s, c) {
      if c.t < |s.pc| { NextMovesOne(s, c, InR); }
    }
    EventsBounded(Next, inv, p, Acquires(u), (s: State) => 0, s, sched);
  }

  lemma AloneBounded(threads: nat, p: nat -> State -> bool)
    requires threads <= 1
    ensures OvertakingBounded(Next, Init(threads), threads, p, Acquires)
  {
    forall s, sched, v: nat, u: nat | Reaches(Next, Init(threads), s) && u != v && v < threads
                                      && Always(Next, p(v), s, sched)
      ensures Count(Next, Acquires(u), s, sched) <= 0
    {
      ReachableSize(threads, s);
      NobodyAcquires(s, sched, p(v), u);
    }
    assert BoundedBy(Next, Init(threads), threads, p, Acquires, 0);
  }

  lemma ReachableSize(threads: nat, s: State)
    requires Reachable(threads, s)
    ensures |s.pc| == threads
  {
    var inv := (s: State) => |s.pc| == threads;
    forall s: State, c: Choice | inv(s) ensures inv(Next(s, c)) {
      if c.t < |s.pc| { NextMovesOne(s, c, InR); }
    }
    ReachesKeeps(Next, inv, Init(threads), s);
  }

  /** The first writer competes with the readers for noReaders, and can be overtaken without bound as soon as
      there is another thread. */
  lemma FirstWriterOvertakingIff(threads: nat)
    ensures OvertakingBounded(Next, Init(threads), threads, WaitsForNoReaders, Acquires) <==> threads <= 1
  {
    if threads <= 1 {
      AloneBounded(threads, WaitsForNoReaders);
    } else {
      var s := FirstWriterRun(threads);
      hide Next, Reaches;
      CountingSelf(Next, WaitsForNoReaders(1), Acquires(0), s);
      ReadLoop(s);
      LoopUnbounded(Next, Init(threads), threads, WaitsForNoReaders, Acquires, s, 1, 0);
    }
  }

  /** Writers that wait for noWriters are not served in turn: each can be overtaken by another without bound. */
  lemma WritersOvertakingIff(threads: nat)
    ensures OvertakingBounded(Next, Init(threads), threads, WaitsForNoWriters, Acquires) <==> threads <= 1
  {
    if threads <= 1 {
      AloneBounded(threads, WaitsForNoWriters);
    } else {
      var s := WaitingWriterRun(threads);
      hide Next, Reaches;
      CountingSelf(Next, WaitsForNoWriters(1), Acquires(0), s);
      WriteLoop(s);
      LoopUnbounded(Next, Init(threads), threads, WaitsForNoWriters, Acquires, s, 1, 0);
    }
  }

  /** Thread 1 begins to write and is the first writer. */
  lemma FirstWriterRun(threads: nat) returns (s: State)
    requires threads >= 2
    ensures Reachable(threads, s)
    ensures s == State(1, 1, Switch(0, 1), Switch(1, 0), Init(threads).pc[1 := WWaitNoReaders])
  {
    var s0 := Init(threads);
    ReachesSelf(Next, s0);
    hide Reaches;
    s := Go(Next, s0, s0, Write(1));
    s := Go(Next, s0, s, Step(1));
    s := Go(Next, s0, s, Step(1));
    assert s.pc == s0.pc[1 := WWaitNoReaders];
  }

  /** The first writer goes on to wait for noWriters. */
  lemma WaitingWriterRun(threads: nat) returns (s: State)
    requires threads >= 2
    ensures Reachable(threads, s)
    ensures s == State(0, 1, Switch(0, 1), Switch(1, 1), Init(threads).pc[1 := WWaitNoWriters])
  {
    s := FirstWriterRun(threads);
    hide Reaches;
    s := Go(Next, Init(threads), s, Step(1));
    s := Go(Next, Init(threads), s, Step(1));
    assert s.pc == Init(threads).pc[1 := WWaitNoWriters];
  }

  ghost predicate Counted(p: Pc, s0: State, s: State, k: nat) {
    ReachesCounting(Next, At(1, p), Acquires(0), s0, s, k)
  }

  lemma CountedStep(p: Pc, s0: State, s: State, k: nat, c: Choice, s': State)
    requires Counted(p, s0, s, k) && s' == Next(s, c) && At(1, p)(s')
    ensures Counted(p, s0, s', k + if Acquires(0)(s, c) then 1 else 0)
  {
    CountingStep(Next, At(1, p), Acquires(0), s0, s, k, c);
  }

  /** Thread 0 alone reads once, and leaves everything as it was. */
  lemma ReadLoop(s: State)
    requires |s.pc| >= 2 && s.pc[0].Idle? && s.pc[1].WWaitNoReaders? && Counted(WWaitNoReaders, s, s, 0)
    requires s.noReaders == 1 && s.noWriters == 1 && s.readers == Switch(0, 1)
    ensures Counted(WWaitNoReaders, s, s, 1)
  {
    hide Counted;
    var p := WWaitNoReaders;
    var s1 := Goto(s, 0, RWaitNoReaders);
    CountedStep(p, s, s, 0, Read(0), s1);
    var s2 := Goto(s.(noReaders := 0), 0, RLockSwitch);
    CountedStep(p, s, s1, 0, Step(0), s2);
    var s3 := Goto(s.(noReaders := 0, readers := Switch(0, 0)), 0, RCount);
    CountedStep(p, s, s2, 0, Step(0), s3);
    var s4 := Goto(s.(noReaders := 0, readers := Switch(1, 0)), 0, RWaitNoWriters);
    CountedStep(p, s, s3, 0, Step(0), s4);
    var s5 := Goto(s.(noReaders := 0, noWriters := 0, readers := Switch(1, 0)), 0, RUnlockSwitch);
    CountedStep(p, s, s4, 0, Step(0), s5);
    ReadLoopEnd(s, s5);
  }

  lemma ReadLoopEnd(s0: State, s: State)
    requires |s0.pc| >= 2 && s0.pc[0].Idle? && s0.pc[1].WWaitNoReaders? && Counted(WWaitNoReaders, s0, s, 0)
    requires s0.noReaders == 1 && s0.noWriters == 1 && s0.readers == Switch(0, 1)
    requires s == Goto(s0.(noReaders := 0, noWriters := 0, readers := Switch(1, 0)), 0, RUnlockSwitch)
    ensures Counted(WWaitNoReaders, s0, s0, 1)
  {
    hide Counted;
    var p := WWaitNoReaders;
    var s1 := Goto(s0.(noReaders := 0, noWriters := 0, readers := Switch(1, 1)), 0, RPostNoReaders);
    CountedStep(p, s0, s, 0, Step(0), s1);
    var s2 := Goto(s0.(noWriters := 0, readers := Switch(1, 1)), 0, Reading);
    CountedStep(p, s0, s1, 0, Step(0), s2);
    ReadLoopLeave(s0, s2);
  }

  lemma ReadLoopLeave(s0: State, s: State)
    requires |s0.pc| >= 2 && s0.pc[0].Idle? && s0.pc[1].WWaitNoReaders? && Counted(WWaitNoReaders, s0, s, 1)
    requires s0.noWriters == 1 && s0.readers == Switch(0, 1)
    requires s == Goto(s0.(noWriters := 0, readers := Switch(1, 1)), 0, Reading)
    ensures Counted(WWaitNoReaders, s0, s0, 1)
  {
    hide Counted;
    var p := WWaitNoReaders;
    var s1 := Goto(s0.(noWriters := 0, readers := Switch(1, 0)), 0, RUncount);
    CountedStep(p, s0, s, 1, Step(0), s1);
    var s2 := Goto(s0.(noWriters := 0, readers := Switch(0, 0)), 0, RPostNoWriters);
    CountedStep(p, s0, s1, 1, Step(0), s2);
    var s3 := Goto(s0.(readers := Switch(0, 0)), 0, RUnlockLast);
    CountedStep(p, s0, s2, 1, Step(0), s3);
    assert s0.pc[0 := Idle] == s0.pc;
    CountedStep(p, s0, s3, 1, Step(0), s0);
  }

  /** Thread 0 alone writes once past thread 1, and leaves everything as it was. */
  lemma WriteLoop(s: State)
    requires |s.pc| >= 2 && s.pc[0].Idle? && s.pc[1].WWaitNoWriters? && Counted(WWaitNoWriters, s, s, 0)
    requires s.noWriters == 1 && s.writers == Switch(1, 1)
    ensures Counted(WWaitNoWriters, s, s, 1)
  {
    hide Counted;
    var p := WWaitNoWriters;
    var s1 := Goto(s, 0, WLockSwitch);
    CountedStep(p, s, s, 0, Write(0), s1);
    var s2 := Goto(s.(writers := Switch(1, 0)), 0, WCount);
    CountedStep(p, s, s1, 0, Step(0), s2);
    var s3 := Goto(s.(writers := Switch(2, 0)), 0, WUnlockSwitch);
    CountedStep(p, s, s2, 0, Step(0), s3);
    var s4 := Goto(s.(writers := Switch(2, 1)), 0, WWaitNoWriters);
    CountedStep(p, s, s3, 0, Step(0), s4);
    WriteLoopEnd(s, s4);
  }

  lemma WriteLoopEnd(s0: State, s: State)
    requires |s0.pc| >= 2 && s0.pc[0].Idle? && s0.pc[1].WWaitNoWriters? && Counted(WWaitNoWriters, s0, s, 0)
    requires s0.noWriters == 1 && s0.writers == Switch(1, 1)
    requires s == Goto(s0.(writers := Switch(2, 1)), 0, WWaitNoWriters)
    ensures Counted(WWaitNoWriters, s0, s0, 1)
  {
    hide Counted;
    var p := WWaitNoWriters;
    var s1 := Goto(s0.(noWriters := 0, writers := Switch(2, 1)), 0, Writing);
    CountedStep(p, s0, s, 0, Step(0), s1);
    var s2 := Goto(s0.(writers := Switch(2, 1)), 0, WLockLast);
    CountedStep(p, s0, s1, 1, Step(0), s2);
    var s3 := Goto(s0.(writers := Switch(2, 0)), 0, WUncount);
    CountedStep(p, s0, s2, 1, Step(0), s3);
    var s4 := Goto(s0.(writers := Switch(1, 0)), 0, WUnlockLast);
    CountedStep(p, s0, s3, 1, Step(0), s4);
    assert s0.pc[0 := Idle] == s0.pc;
    CountedStep(p, s0, s4, 1, Step(0), s0);
  }

  // Every call gets the lock once, as what it asked for, and gives it back.

  datatype Role = Reader | Writer

  /** The calls that thread `t` begins. */
  function Calls(t: nat): (State, Choice) -> Option<Role> {
    (s: State, c: Choice) =>
      if c.t != t || t >= |s.pc| || !s.pc[t].Idle? then None
      else match c case Read(_) => Some(Reader) case Write(_) => Some(Writer) case _ => None
  }

  /** Thread `t` gets the lock. */
  function Entries(t: nat): (State, Choice) -> Option<Role> {
    (s: State, c: Choice) =>
      var s' := Next(s, c);
      if c.t != t || t >= |s.pc| || t >= |s'.pc| then None
      else if s'.pc[t].Reading? && !s.pc[t].Reading? then Some(Reader)
      else if s'.pc[t].Writing? && !s.pc[t].Writing? then Some(Writer)
      else None
  }

  /** A call of thread `t` and its release are over. */
  function Releases(t: nat): (State, Choice) -> Option<Role> {
    (s: State, c: Choice) =>
      var s' := Next(s, c);
      if c.t != t || t >= |s.pc| || t >= |s'.pc| || s.pc[t].Idle? || !s'.pc[t].Idle? then None
      else Some(if IsReader(s.pc[t]) then Reader else Writer)
  }

  predicate Releasing(p: Pc) {
    p.Reading? || p.RUncount? || p.RPostNoWriters? || p.RUnlockLast?
    || p.Writing? || p.WLockLast? || p.WUncount? || p.WPostNoReaders? || p.WUnlockLast?
  }

  /** The call of thread `t` that has not got the lock, if any. */
  function Asked(t: nat): State -> Option<Role> {
    (s: State) =>
      if t >= |s.pc| || s.pc[t].Idle? || Releasing(s.pc[t]) then None
      else Some(if IsReader(s.pc[t]) then Reader else Writer)
  }

  /** The role in which thread `t` has got the lock and has not finished giving it back, if any. */
  function Inside(t: nat): State -> Option<Role> {
    (s: State) =>
      if t >= |s.pc| || !Releasing(s.pc[t]) then None else Some(if IsReader(s.pc[t]) then Reader else Writer)
  }

  lemma StaysPut(s: State, c: Choice, t: nat)
    requires c.t != t && t < |s.pc|
    ensures |Next(s, c).pc| == |s.pc| && Next(s, c).pc[t] == s.pc[t]
  {
  }

  lemma NextEnters(s: State, c: Choice, t: nat)
    ensures Passes(Asked(t)(s), Calls(t)(s, c), Entries(t)(s, c), Asked(t)(Next(s, c)))
  {
    if c.t != t && t < |s.pc| {
      StaysPut(s, c, t);
      hide Next;
    }
  }

  lemma NextReleases(s: State, c: Choice, t: nat)
    ensures Passes(Inside(t)(s), Entries(t)(s, c), Releases(t)(s, c), Inside(t)(Next(s, c)))
  {
    if c.t != t && t < |s.pc| {
      StaysPut(s, c, t);
      hide Next;
    }
  }

  /** In every run each thread gets the lock once for each of its calls, in the order of the calls and as reader or
      writer as it asked, and releases it once for each time it got it; no call gives up. */
  lemma CallsAreServed(threads: nat, sched: seq<Choice>, t: nat)
    ensures var s0 := Init(threads);
            var s, done := Exec(Next, s0, sched), Collect(Next, Entries(t), s0, sched);
            && Collect(Next, Calls(t), s0, sched) == done + Listed(Asked(t)(s))
            && done == Collect(Next, Releases(t), s0, sched) + Listed(Inside(t)(s))
  {
    var s0, all := Init(threads), (s: State) => true;
    forall s: State, c: Choice
      ensures Passes(Asked(t)(s), Calls(t)(s, c), Entries(t)(s, c), Asked(t)(Next(s, c)))
      ensures Passes(Inside(t)(s), Entries(t)(s, c), Releases(t)(s, c), Inside(t)(Next(s, c)))
    {
      NextEnters(s, c, t);
      NextReleases(s, c, t);
    }
    hide Next, IsReader;
    CallsAreAnswered(Next, all, Calls(t), Entries(t), Releases(t), Asked(t), Inside(t), s0, sched);
  }

  /** When all threads are outside, the lock is as it was at the start. */
  lemma QuietIsInitial(threads: nat, s: State)
    requires Reachable(threads, s) && forall t :: 0 <= t < |s.pc| ==> s.pc[t].Idle?
    ensures s == Init(threads)
  {
    ReachableInv(threads, s);
    ReachableSize(threads, s);
    SumBounds(s.pc, HoldsRSwitch, 0, 0);
    SumBounds(s.pc, HoldsWSwitch, 0, 0);
    SumBounds(s.pc, InR, 0, 0);
    SumBounds(s.pc, InW, 0, 0);
    SumBounds(s.pc, HasNoReaders, 0, 0);
    SumBounds(s.pc, LacksNoReaders, 0, 0);
    SumBounds(s.pc, HasNoWriters, 0, 0);
    SumBounds(s.pc, LacksNoWriters, 0, 0);
    assert s.pc == Init(threads).pc;
  }

  /** Readers share: all threads can read at the same time. */
  lemma {:induction false} AllReadRun(threads: nat, k: nat) returns (s: State)
    requires k <= threads
    ensures Reachable(threads, s)
    ensures s == SomeRead(threads, k)
  {
    if k == 0 {
      s := Init(threads);
      ReachesSelf<State, Choice>(Next, s);
      assert s.pc == SomeRead(threads, 0).pc;
    } else {
      s := AllReadRun(threads, k - 1);
      s := ReadRun(threads, s, k - 1);
      assert s.pc == SomeRead(threads, k).pc;
    }
  }

  /** The first `k` threads read, the others are outside. */
  function SomeRead(threads: nat, k: nat): State {
    State(1, if k == 0 then 1 else 0, Switch(k, 1), Switch(0, 1), seq(threads, t => if t < k then Reading else Idle))
  }

  lemma ReadRun(threads: nat, s: State, t: nat) returns (s': State)
    requires Reachable(threads, s) && t < threads && s == SomeRead(threads, t)
    ensures Reachable(threads, s') && s'.pc == s.pc[t := Reading]
    ensures s' == SomeRead(threads, t + 1).(pc := s'.pc)
  {
    hide Reaches;
    var s0 := Init(threads);
    s' := Go(Next, s0, s, Read(t));
    s' := Go(Next, s0, s', Step(t));
    s' := Go(Next, s0, s', Step(t));
    assert s' == s.(noReaders := 0, readers := Switch(t, 0), pc := s.pc[t := RCount]);
    s' := Go(Next, s0, s', Step(t));
    if t == 0 { s' := Go(Next, s0, s', Step(t)); }
    assert s' == s.(noReaders := 0, noWriters := 0, readers := Switch(t + 1, 0), pc := s.pc[t := RUnlockSwitch]);
    s' := Go(Next, s0, s', Step(t));
    s' := Go(Next, s0, s', Step(t));
    assert s'.pc == s.pc[t := Reading];
  }

  // No state is stuck.

  /** A thread inside the protocol that can move. */
  predicate CanMove(s: State, t: nat) {
    t < |s.pc| && !s.pc[t].Idle? && Next(s, Step(t)) != s
  }

  lemma UnblockedMoves(s: State, t: nat)
    requires Inv(s) && t < |s.pc| && !s.pc[t].Idle?
    requires s.pc[t].RWaitNoReaders? || s.pc[t].WWaitNoReaders? ==> s.noReaders > 0
    requires s.pc[t].WWaitNoWriters? ==> s.noWriters > 0
    requires s.pc[t].RLockSwitch? || s.pc[t].Reading? ==> s.readers.mutex > 0
    requires s.pc[t].WLockSwitch? || s.pc[t].WLockLast? ==> s.writers.mutex > 0
    ensures CanMove(s, t)
  {
    if s.pc[t].RWaitNoWriters? { FirstReaderGoesOn(s, t); }
    assert Next(s, Step(t)).pc[t] != s.pc[t];
  }

  /** The holder of the readers' switch can move. */
  lemma ReaderSwitchMoves(s: State) returns (t: nat)
    requires Inv(s) && s.readers.mutex == 0
    ensures CanMove(s, t)
  {
    t := SumWitness(s.pc, HoldsRSwitch);
    UnblockedMoves(s, t);
  }

  /** With the readers' switch free, whoever holds noReaders lets it go in the end. */
  lemma NoReadersMoves(s: State) returns (t: nat)
    requires Inv(s) && s.readers.mutex > 0 && s.noReaders == 0 && s.writers.counter == Sum(s.pc, LacksNoReaders)
    ensures CanMove(s, t)
  {
    SumsAreCounts(s);
    t := SumWitness(s.pc, HasNoReaders);
    UnblockedMoves(s, t);
  }

  /** With the readers' switch free, whoever holds noWriters lets it go in the end. */
  lemma NoWritersMoves(s: State) returns (t: nat)
    requires Inv(s) && s.readers.mutex > 0 && s.noWriters == 0
    ensures CanMove(s, t)
  {
    SumsAreCounts(s);
    if Sum(s.pc, HasNoWriters) > 0 {
      t := SumWitness(s.pc, HasNoWriters);
    } else {
      t := SumWitness(s.pc, InR);
    }
    UnblockedMoves(s, t);
  }

  /** In every reachable state with a thread inside the protocol, such a thread can move. */
  lemma NeverStuck(threads: nat, s: State, inside: nat) returns (t: nat)
    requires Reachable(threads, s) && inside < |s.pc| && !s.pc[inside].Idle?
    ensures CanMove(s, t)
  {
    ReachableInv(threads, s);
    SumsAreCounts(s);
    var p := s.pc[inside];
    if s.readers.mutex == 0 {
      t := ReaderSwitchMoves(s);
    } else if s.noWriters == 0 {
      t := NoWritersMoves(s);
    } else if s.writers.mutex == 0 {
      t := SumWitness(s.pc, HoldsWSwitch);
      if s.pc[t].WWaitNoReaders? && s.noReaders == 0 {
        SumMember(s.pc, LacksNoReaders, t);
        t := NoReadersMoves(s);
      } else {
        UnblockedMoves(s, t);
      }
    } else if s.noReaders == 0 {
      if s.writers.counter > 0 {
        t := SumWitness(s.pc, InW);
        SumMember(s.pc, HoldsWSwitch, t);
        UnblockedMoves(s, t);
      } else {
        NobodyLacks(s);
        t := NoReadersMoves(s);
      }
    } else {
      t := inside;
      UnblockedMoves(s, t);
    }
  }

  lemma NobodyLacks(s: State)
    requires Inv(s) && s.writers.counter == 0
    ensures Sum(s.pc, LacksNoReaders) == 0
  {
    SumsAreCounts(s);
    SumLe(s.pc, LacksNoReaders, InW);
  }

  // The lock as it is updated in place.

  class Lock {
    var noReaders: nat
    var noWriters: nat
    var readers: Switch
    var writers: Switch
    var pc: seq<Pc>

    ghost function View(): State
      reads this
    {
      State(noReaders, noWriters, readers, writers, pc)
    }

    ghost predicate Valid()
      reads this
    {
      Inv(View())
    }

    constructor (threads: nat)
      ensures View() == Init(threads) && Valid()
    {
      noReaders, noWriters := 1, 1;
      readers, writers := Switch(0, 1), Switch(0, 1);
      pc := seq(threads, _ => Idle);
      new;
      InitInv(threads);
    }

    /** The next statement of thread `t` inside the read lock's acquire or release. */
    method StepReader(t: nat)
      requires Valid() && t < |pc| && IsReader(pc[t])
      modifies this`noReaders, this`noWriters, this`readers, this`pc
      ensures View() == ReaderStep(old(View()), t) && Valid()
    {
      hide Inv;
      ghost var before := View();
      NextKeepsInv(before, Step(t));
      var p := pc[t];
      match p {
        case RWaitNoReaders => if noReaders > 0 { noReaders, p := noReaders - 1, RLockSwitch; }
        case RLockSwitch => if readers.mutex > 0 { readers, p := readers.(mutex := readers.mutex - 1), RCount; }
        case RCount =>
          readers := readers.(counter := readers.counter + 1);
          p := if readers.counter == 1 then RWaitNoWriters else RUnlockSwitch;
        case RWaitNoWriters => if noWriters > 0 { noWriters, p := noWriters - 1, RUnlockSwitch; }
        case RUnlockSwitch => readers, p := readers.(mutex := readers.mutex + 1), RPostNoReaders;
        case RPostNoReaders => noReaders, p := noReaders + 1, Reading;
        case Reading => if readers.mutex > 0 { readers, p := readers.(mutex := readers.mutex - 1), RUncount; }
        case RUncount =>
          readers := readers.(counter := readers.counter - 1);
          p := if readers.counter == 0 then RPostNoWriters else RUnlockLast;
        case RPostNoWriters => noWriters, p := noWriters + 1, RUnlockLast;
        case RUnlockLast => readers, p := readers.(mutex := readers.mutex + 1), Idle;
      }
      pc := pc[t := p];
      assert View() == ReaderStep(before, t);
    }

    /** The next statement of thread `t` inside the write lock's acquire or release. */
    method StepWriter(t: nat)
      requires Valid() && t < |pc| && !IsReader(pc[t])
      modifies this`noReaders, this`noWriters, this`writers, this`pc
      ensures View() == WriterStep(old(View()), t) && Valid()
    {
      hide Inv;
      ghost var before := View();
      NextKeepsInv(before, Step(t));
      var p := pc[t];
      match p {
        case WLockSwitch => if writers.mutex > 0 { writers, p := writers.(mutex := writers.mutex - 1), WCount; }
        case WCount =>
          writers := writers.(counter := writers.counter + 1);
          p := if writers.counter == 1 then WWaitNoReaders else WUnlockSwitch;
        case WWaitNoReaders => if noReaders > 0 { noReaders, p := noReaders - 1, WUnlockSwitch; }
        case WUnlockSwitch => writers, p := writers.(mutex := writers.mutex + 1), WWaitNoWriters;
        case WWaitNoWriters => if noWriters > 0 { noWriters, p := noWriters - 1, Writing; }
        case Writing => noWriters, p := noWriters + 1, WLockLast;
        case WLockLast => if writers.mutex > 0 { writers, p := writers.(mutex := writers.mutex - 1), WUncount; }
        case WUncount =>
          writers := writers.(counter := writers.counter - 1);
          p := if writers.counter == 0 then WPostNoReaders else WUnlockLast;
        case WPostNoReaders => noReaders, p := noReaders + 1, WUnlockLast;
        case WUnlockLast => writers, p := writers.(mutex := writers.mutex + 1), Idle;
        case _ =>
      }
      pc := pc[t := p];
      assert View() == WriterStep(before, t);
    }

    /** Any scheduler: calls begin and threads take their steps in the order `sched` says. */
    method Run(sched: seq<Choice>)
      requires Valid()
      modifies this
      ensures View() == Exec(Next, old(View()), sched) && Valid()
    {
      hide Inv;
      for k := 0 to |sched|
        invariant View() == Exec(Next, old(View()), sched[..k]) && Valid()
      {
        ExecSnoc(Next, old(View()), sched[..k], sched[k]);
        assert sched[..k + 1] == sched[..k] + [sched[k]];
        var c := sched[k];
        if c.t < |pc| {
          NextKeepsInv(View(), c);
          if c.Step? {
            if IsReader(pc[c.t]) { StepReader(c.t); } else { StepWriter(c.t); }
          } else if pc[c.t].Idle? {
            pc := pc[c.t := if c.Read? then RWaitNoReaders else WLockSwitch];
          }
        }
      }
      assert sched[..|sched|] == sched;
    }
  }
}
