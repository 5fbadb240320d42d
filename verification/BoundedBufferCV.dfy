/** One producer and any number of consumers around a circular buffer guarded by a mutex, with two condition
    variables or, as `oneCv`, with a single one.  A signal removes an arbitrary sleeper from the wait set, if
    there is one, and a woken thread has to take the mutex again before it looks at the buffer. */
module BoundedBufferCV {
  import opened CircularBuffer
  import opened Sums
  import opened Runs

  /** `i` numbers the items the producer puts, over both of its loops. */
  datatype Producer =
    | PLock(i: nat)    // at the head of the loop; next: lock
    | PTest(i: nat)    // next: test num_full == max; sleeping releases the mutex
    | PSleep(i: nat)   // in the wait set
    | PRelock(i: nat)  // woken; next: lock
    | PFill(i: nat)    // next: do_fill
    | PSignal(i: nat)  // next: signal
    | PUnlock(i: nat)  // next: unlock
    | PDone

  datatype Consumer =
    | CLock             // next: lock
    | CTest             // next: test num_full == 0; sleeping releases the mutex
    | CSleep            // in the wait set
    | CRelock           // woken; next: lock
    | CGet              // next: do_get
    | CSignal(tmp: int) // next: signal
    | CUnlock(tmp: int) // next: unlock, then leave the loop if tmp is -1
    | CDone

  datatype State = State(
    oneCv: bool, buffer: Buffer, numFull: int, locked: bool, producer: Producer, consumers: seq<Consumer>)

  /** A thread takes a step; `w` is the sleeper a signal wakes: a consumer, or |consumers| for the producer. */
  datatype Choice = StepProducer(w: nat) | StepConsumer(c: nat, w: nat) | Spurious(w: nat)

  function Init(oneCv: bool, max: nat, loops: nat, consumers: nat): State {
    State(oneCv, Empty(max, loops), 0, false, PLock(0), seq(consumers, _ => CLock))
  }

  function Total(s: State): nat {
    s.buffer.loops + |s.consumers|
  }

  predicate SomeConsumerSleeps(s: State) {
    exists c :: 0 <= c < |s.consumers| && s.consumers[c].CSleep?
  }

  /** A sleeper that a signal meant for `toProducer` and `toConsumers` may wake, or nobody if there is none. */
  predicate MayWake(s: State, w: nat, toProducer: bool, toConsumers: bool) {
    if toConsumers && w < |s.consumers| && s.consumers[w].CSleep? then true
    else if toProducer && w == |s.consumers| && s.producer.PSleep? then true
    else !(toConsumers && SomeConsumerSleeps(s)) && !(toProducer && s.producer.PSleep?)
  }

  function Wake(s: State, w: nat, toProducer: bool, toConsumers: bool): State {
    if toConsumers && w < |s.consumers| && s.consumers[w].CSleep? then s.(consumers := s.consumers[w := CRelock])
    else if toProducer && w == |s.consumers| && s.producer.PSleep? then s.(producer := PRelock(s.producer.i))
    else s
  }

  function ProducerStep(s: State, w: nat): State {
    match s.producer
    case PLock(i) =>
      if i == Total(s) then s.(producer := PDone)
      else if s.locked then s else s.(locked := true, producer := PTest(i))
    case PTest(i) =>
      if s.numFull == s.buffer.max then s.(locked := false, producer := PSleep(i)) else s.(producer := PFill(i))
    case PSleep(i) => s
    case PRelock(i) => if s.locked then s else s.(locked := true, producer := PTest(i))
    case PFill(i) =>
      if s.buffer.fill < |s.buffer.slots| && s.buffer.max > 0
      then s.(buffer := DoFill(s.buffer, Item(s.buffer.loops, i)), numFull := s.numFull + 1, producer := PSignal(i))
      else s
    case PSignal(i) => if MayWake(s, w, false, true) then Wake(s, w, false, true).(producer := PUnlock(i)) else s
    case PUnlock(i) => s.(locked := false, producer := PLock(i + 1))
    case PDone => s
  }

  function Goto(s: State, c: nat, p: Consumer): State
    requires c < |s.consumers|
  {
    s.(consumers := s.consumers[c := p])
  }

  function ConsumerStep(s: State, c: nat, w: nat): State
    requires c < |s.consumers|
  {
    match s.consumers[c]
    case CLock => if s.locked then s else Goto(s.(locked := true), c, CTest)
    case CTest => if s.numFull == 0 then Goto(s.(locked := false), c, CSleep) else Goto(s, c, CGet)
    case CSleep => s
    case CRelock => if s.locked then s else Goto(s.(locked := true), c, CTest)
    case CGet =>
      if s.buffer.use < |s.buffer.slots| && s.buffer.max > 0
      then Goto(s.(buffer := DoGet(s.buffer), numFull := s.numFull - 1), c, CSignal(s.buffer.slots[s.buffer.use]))
      else s
    case CSignal(tmp) => if MayWake(s, w, true, s.oneCv) then Goto(Wake(s, w, true, s.oneCv), c, CUnlock(tmp)) else s
    case CUnlock(tmp) => Goto(s.(locked := false), c, if tmp == -1 then CDone else CLock)
    case CDone => s
  }

  /** Every step there is, wake-ups for no reason included. */
  function Next(s: State, ch: Choice): State {
    match ch
    case StepProducer(w) => ProducerStep(s, w)
    case StepConsumer(c, w) => if c < |s.consumers| then ConsumerStep(s, c, w) else s
    case Spurious(w) => Wake(s, w, true, true)
  }

  /** The steps of a run in which nobody wakes for no reason. */
  function Calm(s: State, ch: Choice): State {
    if ch.Spurious? then s else Next(s, ch)
  }

  // Regions.

  function CHolds(p: Consumer): int { if p.CTest? || p.CGet? || p.CSignal? || p.CUnlock? then 1 else 0 }
  function PHolds(p: Producer): int { if p.PTest? || p.PFill? || p.PSignal? || p.PUnlock? then 1 else 0 }
  function CAsleep(p: Consumer): int { if p.CSleep? then 1 else 0 }

  /** Awake and on the way to its next get, past the loop's lock or woken from its sleep. */
  function CReady(p: Consumer): int { if p.CRelock? || p.CTest? || p.CGet? then 1 else 0 }
  function COwes(p: Consumer): int { if p.CSignal? then 1 else 0 }
  function POwes(p: Producer): int { if p.PSignal? then 1 else 0 }

  /** Has taken an end marker. */
  function TookEnd(p: Consumer): int {
    if (p.CSignal? && p.tmp == -1) || (p.CUnlock? && p.tmp == -1) || p.CDone? then 1 else 0
  }

  // Invariants.

  /** The mutex, the counters and the end markers. */
  ghost predicate Basic(s: State) {
    && (if s.locked then 1 else 0) == PHolds(s.producer) + Sum(s.consumers, CHolds)
    && s.buffer.max > 0 && 0 <= s.numFull <= s.buffer.max && s.numFull == s.buffer.puts - s.buffer.gets
    && s.buffer.puts <= Total(s)
    && (match s.producer
        case PLock(i) => s.buffer.puts == i
        case PTest(i) => s.buffer.puts == i < Total(s)
        case PSleep(i) => s.buffer.puts == i < Total(s)
        case PRelock(i) => s.buffer.puts == i < Total(s)
        case PFill(i) => s.buffer.puts == i < Total(s) && s.numFull < s.buffer.max
        case PSignal(i) => s.buffer.puts == i + 1
        case PUnlock(i) => s.buffer.puts == i + 1
        case PDone => s.buffer.puts == Total(s))
    && (forall c :: 0 <= c < |s.consumers| && s.consumers[c].CGet? ==> s.numFull > 0)
    && Sum(s.consumers, TookEnd) == if s.buffer.gets <= s.buffer.loops then 0 else s.buffer.gets - s.buffer.loops
  }

  /** Consumers asleep leave no item that is not someone's to take. */
  ghost predicate ConsumersCovered(s: State) {
    Sum(s.consumers, CAsleep) > 0 ==> s.numFull <= Sum(s.consumers, CReady) + POwes(s.producer)
  }

  /** A producer asleep is owed a signal that must reach it. */
  ghost predicate ProducerCovered(s: State) {
    s.producer.PSleep? ==>
      if s.oneCv then Sum(s.consumers, CAsleep) < s.numFull + Sum(s.consumers, COwes)
      else s.buffer.max - s.numFull <= Sum(s.consumers, COwes)
  }

  /** One condition variable is enough only for fewer consumers than twice the buffer. */
  predicate EnoughCvs(s: State) {
    s.oneCv ==> |s.consumers| < 2 * s.buffer.max
  }

  ghost predicate Inv(s: State) {
    Window(s.buffer) && Basic(s) && ConsumersCovered(s)
  }

  /** All the sums after consumer `c` goes to `p`. */
  lemma GotoSums(s: State, c: nat, p: Consumer)
    requires c < |s.consumers|
    ensures var t := s.consumers[c := p];
            && Sum(t, CHolds) == Sum(s.consumers, CHolds) - CHolds(s.consumers[c]) + CHolds(p)
            && Sum(t, TookEnd) == Sum(s.consumers, TookEnd) - TookEnd(s.consumers[c]) + TookEnd(p)
            && Sum(t, CAsleep) == Sum(s.consumers, CAsleep) - CAsleep(s.consumers[c]) + CAsleep(p)
            && Sum(t, CReady) == Sum(s.consumers, CReady) - CReady(s.consumers[c]) + CReady(p)
            && Sum(t, COwes) == Sum(s.consumers, COwes) - COwes(s.consumers[c]) + COwes(p)
  {
    SumUpdate(s.consumers, c, p, CHolds);
    SumUpdate(s.consumers, c, p, TookEnd);
    SumUpdate(s.consumers, c, p, CAsleep);
    SumUpdate(s.consumers, c, p, CReady);
    SumUpdate(s.consumers, c, p, COwes);
  }

  /** Sums are not negative, and the mutex has one holder. */
  lemma SumFacts(s: State)
    requires Basic(s)
    ensures 0 <= Sum(s.consumers, CAsleep) && 0 <= Sum(s.consumers, CReady)
    ensures 0 <= Sum(s.consumers, COwes) <= Sum(s.consumers, CHolds) <= 1
    ensures Sum(s.consumers, CAsleep) + Sum(s.consumers, CReady) <= |s.consumers|
    ensures PHolds(s.producer) == 1 ==> Sum(s.consumers, CHolds) == 0
    ensures forall c :: 0 <= c < |s.consumers| && CHolds(s.consumers[c]) == 1 ==> s.locked && PHolds(s.producer) == 0
    ensures forall c, d :: 0 <= c < |s.consumers| && 0 <= d < |s.consumers| && c != d && CHolds(s.consumers[c]) == 1
              ==> CHolds(s.consumers[d]) == 0
    ensures forall c :: 0 <= c < |s.consumers| && (s.consumers[c].CTest? || s.consumers[c].CGet?) ==>
              Sum(s.consumers, COwes) == 0
    ensures (Sum(s.consumers, CAsleep) == 0) <==> !SomeConsumerSleeps(s)
  {
    SumBounds(s.consumers, CAsleep, 0, 1);
    SumBounds(s.consumers, CReady, 0, 1);
    SumBounds(s.consumers, COwes, 0, 1);
    SumBounds(s.consumers, CHolds, 0, 1);
    SumLe(s.consumers, COwes, CHolds);
    SleepersAndReady(s.consumers, |s.consumers|);
    forall c | 0 <= c < |s.consumers| ensures CHolds(s.consumers[c]) <= Sum(s.consumers, CHolds) {
      SumMember(s.consumers, CHolds, c);
    }
    forall c, d | 0 <= c < |s.consumers| && 0 <= d < |s.consumers| && c != d
      ensures CHolds(s.consumers[c]) + CHolds(s.consumers[d]) <= 1
    {
      SumPair(s.consumers, CHolds, c, d);
    }
    if Sum(s.consumers, COwes) > 0 {
      var d := SumWitness(s.consumers, COwes);
    }
    if Sum(s.consumers, CAsleep) > 0 {
      var c := SumWitness(s.consumers, CAsleep);
    } else {
      SumZero(s.consumers, CAsleep);
    }
  }

  lemma {:induction false} SleepersAndReady(cs: seq<Consumer>, n: nat)
    requires n <= |cs|
    ensures Prefix(cs, CAsleep, n) + Prefix(cs, CReady, n) <= n
  {
    if n > 0 {
      SleepersAndReady(cs, n - 1);
    }
  }

  /** Waking a sleeper breaks nothing, signalled or not. */
  lemma WakeKeepsInv(s: State, w: nat, toProducer: bool, toConsumers: bool)
    requires Inv(s)
    ensures Inv(Wake(s, w, toProducer, toConsumers))
    ensures ProducerCovered(s) ==> ProducerCovered(Wake(s, w, toProducer, toConsumers))
  {
    hide Window;
    if w < |s.consumers| && s.consumers[w].CSleep? {
      GotoSums(s, w, CRelock);
    }
  }

  lemma PSignalKeepsInv(s: State, w: nat)
    requires Inv(s) && s.producer.PSignal?
    ensures Inv(ProducerStep(s, w))
  {
    hide Window;
    SumFacts(s);
    if w < |s.consumers| && s.consumers[w].CSleep? {
      GotoSums(s, w, CRelock);
    }
  }

  lemma ProducerKeepsInv(s: State, w: nat)
    requires Inv(s)
    ensures Inv(ProducerStep(s, w))
  {
    hide Window;
    SumFacts(s);
    match s.producer {
      case PFill(i) => FillKeepsWindow(s.buffer);
      case PSignal(i) => PSignalKeepsInv(s, w);
      case _ =>
    }
  }

  lemma ProducerKeepsCover(s: State, w: nat)
    requires Inv(s) && ProducerCovered(s) && EnoughCvs(s)
    ensures ProducerCovered(ProducerStep(s, w))
  {
    hide Window;
    SumFacts(s);
  }

  /** What a consumer's step does, signals apart. */
  lemma ConsumerKeepsInv(s: State, c: nat, w: nat)
    requires Inv(s) && c < |s.consumers|
    ensures Inv(ConsumerStep(s, c, w))
  {
    hide Window;
    SumFacts(s);
    match s.consumers[c] {
      case CTest => TestKeepsInv(s, c, w);
      case CGet => GetKeepsInv(s, c, w);
      case CSignal(tmp) => SignalKeepsInv(s, c, w);
      case CLock => GotoSums(s, c, CTest);
      case CRelock => GotoSums(s, c, CTest);
      case CUnlock(tmp) => GotoSums(s, c, if tmp == -1 then CDone else CLock);
      case _ =>
    }
  }

  lemma TestKeepsInv(s: State, c: nat, w: nat)
    requires Inv(s) && c < |s.consumers| && s.consumers[c].CTest?
    ensures Inv(ConsumerStep(s, c, w))
  {
    hide Window;
    SumFacts(s);
    SumMember(s.consumers, CReady, c);
    GotoSums(s, c, if s.numFull == 0 then CSleep else CGet);
  }

  lemma GetKeepsInv(s: State, c: nat, w: nat)
    requires Inv(s) && c < |s.consumers| && s.consumers[c].CGet?
    ensures Inv(ConsumerStep(s, c, w))
  {
    hide Window;
    SumFacts(s);
    GetKeepsWindow(s.buffer);
    GotoSums(s, c, CSignal(Item(s.buffer.loops, s.buffer.gets)));
  }

  lemma SignalKeepsInv(s: State, c: nat, w: nat)
    requires Inv(s) && c < |s.consumers| && s.consumers[c].CSignal?
    ensures Inv(ConsumerStep(s, c, w))
  {
    hide Inv;
    if MayWake(s, w, true, s.oneCv) {
      WakeKeepsInv(s, w, true, s.oneCv);
      SignalledKeepsInv(Wake(s, w, true, s.oneCv), c);
    }
  }

  lemma SignalledKeepsInv(s: State, c: nat)
    requires Inv(s) && c < |s.consumers| && s.consumers[c].CSignal?
    ensures Inv(Goto(s, c, CUnlock(s.consumers[c].tmp)))
  {
    hide Window;
    GotoSums(s, c, CUnlock(s.consumers[c].tmp));
  }

  lemma SignalKeepsCover(s: State, c: nat, w: nat)
    requires Inv(s) && ProducerCovered(s) && c < |s.consumers| && s.consumers[c].CSignal?
    ensures ProducerCovered(ConsumerStep(s, c, w))
  {
    hide Window;
    SumFacts(s);
    if MayWake(s, w, true, s.oneCv) {
      if w < |s.consumers| && s.consumers[w].CSleep? {
        GotoSums(s, w, CRelock);
      }
      GotoSums(Wake(s, w, true, s.oneCv), c, CUnlock(s.consumers[c].tmp));
    }
  }

  lemma ConsumerKeepsCover(s: State, c: nat, w: nat)
    requires Inv(s) && ProducerCovered(s) && c < |s.consumers|
    ensures ProducerCovered(ConsumerStep(s, c, w))
  {
    hide Window;
    SumFacts(s);
    match s.consumers[c] {
      case CLock => GotoSums(s, c, CTest);
      case CTest => if s.numFull == 0 { GotoSums(s, c, CSleep); } else { GotoSums(s, c, CGet); }
      case CRelock => GotoSums(s, c, CTest);
      case CGet =>
        GetKeepsWindow(s.buffer);
        GotoSums(s, c, CSignal(s.buffer.slots[s.buffer.use]));
      case CSignal(tmp) => SignalKeepsCover(s, c, w);
      case CUnlock(tmp) => GotoSums(s, c, if tmp == -1 then CDone else CLock);
      case _ =>
    }
  }

  lemma NextKeepsInv(s: State, ch: Choice)
    requires Inv(s)
    ensures Inv(Next(s, ch)) && |Next(s, ch).consumers| == |s.consumers|
    ensures Next(s, ch).oneCv == s.oneCv && Next(s, ch).buffer.max == s.buffer.max
              && Next(s, ch).buffer.loops == s.buffer.loops
    ensures ProducerCovered(s) && EnoughCvs(s) ==> ProducerCovered(Next(s, ch))
  {
    hide Inv, ProducerCovered;
    match ch {
      case StepProducer(w) =>
        ProducerKeepsInv(s, w);
        if ProducerCovered(s) && EnoughCvs(s) { ProducerKeepsCover(s, w); }
      case StepConsumer(c, w) =>
        if c < |s.consumers| {
          ConsumerKeepsInv(s, c, w);
          if ProducerCovered(s) { ConsumerKeepsCover(s, c, w); }
        }
      case Spurious(w) => WakeKeepsInv(s, w, true, true);
    }
  }

  // Reachable states.

  ghost predicate Shape(s: State, oneCv: bool, max: nat, loops: nat, consumers: nat) {
    s.oneCv == oneCv && s.buffer.max == max && s.buffer.loops == loops && |s.consumers| == consumers
  }

  ghost predicate Good(s: State) { Inv(s) && (EnoughCvs(s) ==> ProducerCovered(s)) }

  lemma InitGood(oneCv: bool, max: nat, loops: nat, consumers: nat)
    requires max >= 1
    ensures Good(Init(oneCv, max, loops, consumers))
  {
    var s := Init(oneCv, max, loops, consumers);
    EmptyWindow(max, loops);
    SumBounds(s.consumers, CHolds, 0, 0);
    SumBounds(s.consumers, TookEnd, 0, 0);
    SumBounds(s.consumers, CAsleep, 0, 0);
  }

  lemma ReachableGood(oneCv: bool, max: nat, loops: nat, consumers: nat, s: State)
    requires max >= 1 && Reaches(Next, Init(oneCv, max, loops, consumers), s)
    ensures Good(s) && Shape(s, oneCv, max, loops, consumers)
  {
    hide Inv, ProducerCovered;
    InitGood(oneCv, max, loops, consumers);
    var inv := (s: State) => Good(s) && Shape(s, oneCv, max, loops, consumers);
    forall s: State, ch: Choice | inv(s) ensures inv(Next(s, ch)) {
      NextKeepsInv(s, ch);
    }
    ReachesKeeps(Next, inv, Init(oneCv, max, loops, consumers), s);
  }

  /** A run without spurious wake-ups is a run. */
  lemma CalmReachableGood(oneCv: bool, max: nat, loops: nat, consumers: nat, s: State)
    requires max >= 1 && Reaches(Calm, Init(oneCv, max, loops, consumers), s)
    ensures Good(s) && Shape(s, oneCv, max, loops, consumers)
  {
    hide Inv, ProducerCovered;
    InitGood(oneCv, max, loops, consumers);
    var inv := (s: State) => Good(s) && Shape(s, oneCv, max, loops, consumers);
    forall s: State, ch: Choice | inv(s) ensures inv(Calm(s, ch)) {
      NextKeepsInv(s, ch);
    }
    ReachesKeeps(Calm, inv, Init(oneCv, max, loops, consumers), s);
  }

  // Deadlock.

  predicate AllDone(s: State) {
    s.producer.PDone? && forall c :: 0 <= c < |s.consumers| ==> s.consumers[c].CDone?
  }

  /** Somebody is not finished and everybody who is not finished is asleep. */
  predicate Deadlocked(s: State) {
    && (s.producer.PSleep? || s.producer.PDone?)
    && (forall c :: 0 <= c < |s.consumers| ==> s.consumers[c].CSleep? || s.consumers[c].CDone?)
    && !AllDone(s)
  }

  lemma TookEndBound(s: State)
    ensures 0 <= Sum(s.consumers, TookEnd) <= |s.consumers|
    ensures Sum(s.consumers, TookEnd) == |s.consumers| ==> forall c :: 0 <= c < |s.consumers| ==>
              TookEnd(s.consumers[c]) == 1
    ensures (forall c :: 0 <= c < |s.consumers| ==> TookEnd(s.consumers[c]) == 1) ==>
              Sum(s.consumers, TookEnd) == |s.consumers|
  {
    SumBounds(s.consumers, TookEnd, 0, 1);
    if forall c :: 0 <= c < |s.consumers| ==> TookEnd(s.consumers[c]) == 1 {
      SumBounds(s.consumers, TookEnd, 1, 1);
    }
    SumLe(s.consumers, TookEnd, One);
    SumBounds(s.consumers, One, 1, 1);
  }

  function One(p: Consumer): int { 1 }

  /** When each consumer counts for one end marker, all the items have been put and got, and conversely. */
  lemma EndMarkers(s: State)
    requires Inv(s)
    ensures (forall c :: 0 <= c < |s.consumers| ==> TookEnd(s.consumers[c]) == 1) && |s.consumers| > 0 ==>
              s.buffer.gets == Total(s)
    ensures s.buffer.gets == Total(s) ==> forall c :: 0 <= c < |s.consumers| ==> TookEnd(s.consumers[c]) == 1
  {
    TookEndBound(s);
  }

  lemma CoveredNeverDeadlocks(s: State)
    requires Inv(s) && ProducerCovered(s) && |s.consumers| >= 1
    requires s.producer.PSleep? || s.producer.PDone?
    requires forall c :: 0 <= c < |s.consumers| ==> s.consumers[c].CSleep? || s.consumers[c].CDone?
    ensures AllDone(s)
  {
    hide Window;
    SumFacts(s);
    SumBounds(s.consumers, CReady, 0, 0);
    SumBounds(s.consumers, COwes, 0, 0);
    EndMarkers(s);
    if !SomeConsumerSleeps(s) {
      assert forall c :: 0 <= c < |s.consumers| ==> TookEnd(s.consumers[c]) == 1;
    }
  }

  /** Which configurations can end with every unfinished thread asleep, in runs with or without spurious
      wake-ups: exactly one condition variable with at least twice as many consumers as buffer slots. */
  lemma DeadlockIff(oneCv: bool, max: nat, loops: nat, consumers: nat)
    requires max >= 1 && consumers >= 1
    ensures (exists s :: Reaches(Calm, Init(oneCv, max, loops, consumers), s) && Deadlocked(s))
            <==> (oneCv && consumers >= 2 * max)
    ensures (exists s :: Reaches(Next, Init(oneCv, max, loops, consumers), s) && Deadlocked(s))
            ==> (oneCv && consumers >= 2 * max)
  {
    var s0 := Init(oneCv, max, loops, consumers);
    if oneCv && consumers >= 2 * max {
      var s := DeadlockRun(max, loops, consumers);
    } else {
      forall s | Reaches(Calm, s0, s) ensures !Deadlocked(s) {
        CalmReachableGood(oneCv, max, loops, consumers, s);
        GoodNotDeadlocked(s);
      }
      forall s | Reaches(Next, s0, s) ensures !Deadlocked(s) {
        ReachableGood(oneCv, max, loops, consumers, s);
        GoodNotDeadlocked(s);
      }
    }
  }

  lemma GoodNotDeadlocked(s: State)
    requires Good(s) && EnoughCvs(s) && |s.consumers| >= 1
    ensures !Deadlocked(s)
  {
    if Deadlocked(s) {
      CoveredNeverDeadlocks(s);
    }
  }

  // The run that deadlocks: all consumers sleep, the producer fills the buffer and wakes the first `max` of
  // them, those wake the next `max` instead of the producer, and all find the buffer empty.

  ghost predicate Quiet(s0: State, s: State) {
    && Reaches(Calm, s0, s) && s.oneCv && s.buffer.max >= 1 && |s.consumers| >= 2 * s.buffer.max
    && |s.buffer.slots| == s.buffer.max && s.buffer.fill < s.buffer.max && s.buffer.use < s.buffer.max
    && !s.locked
  }

  lemma Step(s0: State, s: State, ch: Choice) returns (s': State)
    requires Reaches(Calm, s0, s) && !ch.Spurious?
    ensures Reaches(Calm, s0, s') && s' == Next(s, ch)
  {
    ReachesStep(Calm, s0, s, ch);
    s' := Next(s, ch);
  }

  /** Consumer `c`, awake and without the mutex, finds the buffer empty and goes to sleep. */
  lemma FallAsleep(s0: State, s: State, c: nat) returns (s': State)
    requires Quiet(s0, s) && c < |s.consumers| && (s.consumers[c].CLock? || s.consumers[c].CRelock?) && s.numFull == 0
    ensures Quiet(s0, s') && s' == s.(consumers := s.consumers[c := CSleep])
  {
    hide Reaches;
    s' := Step(s0, s, StepConsumer(c, 0));
    s' := Step(s0, s', StepConsumer(c, 0));
    assert s'.consumers == s.consumers[c := CSleep];
  }

  /** Not between a lock and its unlock. */
  predicate Outside(p: Consumer) { p.CLock? || p.CRelock? || p.CSleep? || p.CDone? }

  /** All consumers from `c` on that are awake fall asleep. */
  lemma {:induction false} AllFallAsleep(s0: State, s: State, c: nat) returns (s': State)
    requires Quiet(s0, s) && c <= |s.consumers| && s.numFull == 0
    requires forall k :: c <= k < |s.consumers| ==> Outside(s.consumers[k])
    ensures Quiet(s0, s') && s'.producer == s.producer && s'.buffer == s.buffer && s'.numFull == 0
    ensures |s'.consumers| == |s.consumers|
    ensures forall k :: 0 <= k < |s.consumers| ==>
              s'.consumers[k] == if k >= c && !s.consumers[k].CDone? then CSleep else s.consumers[k]
    decreases |s.consumers| - c
  {
    hide Reaches;
    s' := s;
    if c < |s.consumers| {
      if s.consumers[c].CLock? || s.consumers[c].CRelock? {
        s' := FallAsleep(s0, s, c);
      }
      s' := AllFallAsleep(s0, s', c + 1);
    }
  }

  /** The producer puts item `i` and wakes consumer `i`. */
  lemma PutAndWake(s0: State, s: State, i: nat) returns (s': State)
    requires Quiet(s0, s) && s.producer == PLock(i) && i < s.buffer.max && s.numFull == i && s.consumers[i].CSleep?
    ensures Quiet(s0, s') && s'.producer == PLock(i + 1) && s'.numFull == i + 1
    ensures s'.consumers == s.consumers[i := CRelock] && s'.buffer.max == s.buffer.max
              && s'.buffer.loops == s.buffer.loops
  {
    hide Reaches;
    var ch := StepProducer(i);
    s' := Step(s0, s, ch);
    s' := Step(s0, s', ch);
    assert s' == s.(locked := true, producer := PFill(i));
    s' := Step(s0, s', ch);
    s' := Step(s0, s', ch);
    assert s'.producer == PUnlock(i) && s'.consumers == s.consumers[i := CRelock];
    s' := Step(s0, s', ch);
  }

  /** The producer fills the buffer, finds it full and goes to sleep. */
  lemma {:induction false} FillAndSleep(s0: State, s: State, i: nat) returns (s': State)
    requires Quiet(s0, s) && s.producer == PLock(i) && i <= s.buffer.max && s.numFull == i
    requires forall k :: 0 <= k < |s.consumers| ==> s.consumers[k] == if k < i then CRelock else CSleep
    ensures Quiet(s0, s') && s'.producer == PSleep(s.buffer.max) && s'.numFull == s.buffer.max
    ensures s'.buffer.max == s.buffer.max && |s'.consumers| == |s.consumers|
    ensures forall k :: 0 <= k < |s.consumers| ==> s'.consumers[k] == if k < s.buffer.max then CRelock else CSleep
    decreases s.buffer.max - i
  {
    hide Reaches;
    if i < s.buffer.max {
      s' := PutAndWake(s0, s, i);
      s' := FillAndSleep(s0, s', i + 1);
    } else {
      s' := Step(s0, s, StepProducer(0));
      s' := Step(s0, s', StepProducer(0));
    }
  }

  /** Consumer `c` gets an item and wakes consumer `max + c`. */
  lemma GetAndWake(s0: State, s: State, c: nat) returns (s': State)
    requires Quiet(s0, s) && c < s.buffer.max && s.numFull > 0
    requires s.consumers[c].CRelock? && s.consumers[s.buffer.max + c].CSleep?
    ensures Quiet(s0, s') && s'.producer == s.producer && s'.numFull == s.numFull - 1 && s'.buffer.max == s.buffer.max
    ensures s'.consumers == s.consumers[s.buffer.max + c := CRelock][c := s'.consumers[c]]
    ensures s'.consumers[c].CLock? || s'.consumers[c].CDone?
  {
    hide Reaches;
    var w := s.buffer.max + c;
    var ch := StepConsumer(c, w);
    s' := Step(s0, s, ch);
    s' := Step(s0, s', ch);
    assert s' == s.(locked := true, consumers := s.consumers[c := CGet]);
    s' := Step(s0, s', ch);
    var tmp := s.buffer.slots[s.buffer.use];
    assert s'.consumers == s.consumers[c := CSignal(tmp)] && s'.numFull == s.numFull - 1 && s'.producer == s.producer;
    s' := Step(s0, s', ch);
    assert s'.consumers == s.consumers[w := CRelock][c := CUnlock(tmp)];
    s' := Step(s0, s', ch);
    assert s'.consumers == s.consumers[w := CRelock][c := s'.consumers[c]];
  }

  /** The first `max` consumers empty the buffer and wake the next `max`. */
  lemma {:induction false} DrainAndWake(s0: State, s: State, c: nat) returns (s': State)
    requires Quiet(s0, s) && s.producer.PSleep? && c <= s.buffer.max && s.numFull == s.buffer.max - c
    requires forall k :: 0 <= k < |s.consumers| ==> DrainedAt(s, k, c)
    ensures Quiet(s0, s') && s'.producer == s.producer && s'.numFull == 0 && |s'.consumers| == |s.consumers|
    ensures forall k :: 0 <= k < |s.consumers| ==> Outside(s'.consumers[k])
    decreases s.buffer.max - c
  {
    hide Reaches;
    s' := s;
    if c < s.buffer.max {
      assert DrainedAt(s, c, c) && DrainedAt(s, s.buffer.max + c, c);
      s' := GetAndWake(s0, s, c);
      var d := c + 1;
      forall k | 0 <= k < |s.consumers| ensures DrainedAt(s', k, d) {
        assert DrainedAt(s, k, c);
      }
      s' := DrainAndWake(s0, s', c + 1);
    } else {
      forall k | 0 <= k < |s.consumers| ensures Outside(s'.consumers[k]) {
        assert DrainedAt(s, k, c);
      }
    }
  }

  /** Where consumer `k` is once the first `c` have got an item. */
  predicate DrainedAt(s: State, k: nat, c: nat)
    requires k < |s.consumers|
  {
    if k < c then s.consumers[k].CLock? || s.consumers[k].CDone?
    else if k < s.buffer.max then s.consumers[k].CRelock?
    else if k < s.buffer.max + c then s.consumers[k].CRelock?
    else s.consumers[k].CSleep?
  }

  lemma DeadlockRun(max: nat, loops: nat, consumers: nat) returns (s: State)
    requires max >= 1 && consumers >= 2 * max
    ensures Reaches(Calm, Init(true, max, loops, consumers), s) && Deadlocked(s)
  {
    var s0 := Init(true, max, loops, consumers);
    ReachesSelf(Calm, s0);
    hide Reaches;
    s := AllFallAsleep(s0, s0, 0);
    s := FillAndSleep(s0, s, 0);
    s := DrainAndWake(s0, s, 0);
    s := AllFallAsleep(s0, s, 0);
  }

  // Termination without spurious wake-ups.

  function PWeight(p: Producer): int {
    match p
    case PLock(_) => 3
    case PTest(_) => 2
    case PSleep(_) => 1
    case PRelock(_) => 3
    case PFill(_) => 1
    case PSignal(_) => 7
    case PUnlock(_) => 4
    case PDone => 0
  }

  function CWeight(p: Consumer): int {
    match p
    case CLock => 3
    case CTest => 2
    case CSleep => 1
    case CRelock => 3
    case CGet => 1
    case CSignal(_) => 7
    case CUnlock(_) => 4
    case CDone => 0
  }

  function Measure(s: State): int {
    8 * (Total(s) - s.buffer.puts) + 8 * (Total(s) - s.buffer.gets) + PWeight(s.producer) + Sum(s.consumers, CWeight)
  }

  lemma CalmDecreases(s: State, ch: Choice)
    requires Inv(s)
    ensures Calm(s, ch) != s ==> Measure(Calm(s, ch)) < Measure(s)
  {
    hide Window;
    match ch {
      case StepProducer(w) =>
        if w < |s.consumers| && s.consumers[w].CSleep? {
          SumUpdate(s.consumers, w, CRelock, CWeight);
        }
      case StepConsumer(c, w) =>
        if c < |s.consumers| {
          ConsumerDecreases(s, c, w);
        }
      case _ =>
    }
  }

  lemma ConsumerDecreases(s: State, c: nat, w: nat)
    requires Inv(s) && c < |s.consumers|
    ensures ConsumerStep(s, c, w) != s ==> Measure(ConsumerStep(s, c, w)) < Measure(s)
  {
    hide Window, Inv;
    var s' := ConsumerStep(s, c, w);
    var woken := if s.consumers[c].CSignal? && MayWake(s, w, true, s.oneCv) then Wake(s, w, true, s.oneCv) else s;
    if w < |s.consumers| && s.consumers[w].CSleep? {
      SumUpdate(s.consumers, w, CRelock, CWeight);
    }
    if s' != s {
      assert s'.consumers == woken.consumers[c := s'.consumers[c]];
      SumUpdate(woken.consumers, c, s'.consumers[c], CWeight);
    }
    hide Sum, SomeConsumerSleeps;
  }

  /** However the threads are scheduled, the state changes a bounded number of times. */
  lemma CalmRunsAreBounded(oneCv: bool, max: nat, loops: nat, consumers: nat, sched: seq<Choice>)
    requires max >= 1
    ensures Moves(Calm, Init(oneCv, max, loops, consumers), sched) <= 16 * (loops + consumers) + 3 * consumers + 3
  {
    hide Inv;
    var s0 := Init(oneCv, max, loops, consumers);
    InitGood(oneCv, max, loops, consumers);
    forall s: State, ch: Choice | Inv(s) ensures Inv(Calm(s, ch)) {
      NextKeepsInv(s, ch);
    }
    forall s: State | Inv(s) ensures Measure(s) >= 0 {
      MeasureNat(s);
    }
    forall s: State, ch: Choice | Inv(s) && Calm(s, ch) != s ensures Measure(Calm(s, ch)) < Measure(s) {
      CalmDecreases(s, ch);
    }
    MovesBounded(Calm, Inv, Measure, s0, sched);
    ExecKeeps(Calm, Inv, s0, sched);
    SumBounds(s0.consumers, CWeight, 3, 3);
  }

  lemma MeasureNat(s: State)
    requires Inv(s)
    ensures Measure(s) >= 0
  {
    SumBounds(s.consumers, CWeight, 0, 7);
    TookEndBound(s);
  }

  /** A run that can go no further, spurious wake-ups apart, has every thread finished and all items got. */
  lemma CalmRunsFinish(oneCv: bool, max: nat, loops: nat, consumers: nat, s: State)
    requires max >= 1 && consumers >= 1 && (oneCv ==> consumers < 2 * max)
    requires Reaches(Calm, Init(oneCv, max, loops, consumers), s) && Stuck(Calm, s)
    ensures AllDone(s) && s.buffer.puts == s.buffer.gets == loops + consumers
  {
    CalmReachableGood(oneCv, max, loops, consumers, s);
    if !Deadlocked(s) {
      StuckIsAsleep(s);
    }
    GoodNotDeadlocked(s);
    EndMarkers(s);
    TookEndBound(s);
  }

  /** The k-th get, over all consumers, is of the k-th item: 0 to loops - 1 and then the end markers. */
  lemma GetsInOrder(s: State, ch: Choice)
    requires Inv(s)
    ensures var s' := Next(s, ch);
            if ch.StepConsumer? && ch.c < |s.consumers| && s.consumers[ch.c].CGet? then
              && s'.buffer.gets == s.buffer.gets + 1 && |s'.consumers| == |s.consumers|
              && s'.consumers[ch.c] == CSignal(Item(s.buffer.loops, s.buffer.gets))
            else s'.buffer.gets == s.buffer.gets
  {
    hide Window;
    if ch.StepConsumer? && ch.c < |s.consumers| && s.consumers[ch.c].CGet? {
      GetKeepsWindow(s.buffer);
    }
  }

  /** The step in which consumer `c` gets an end marker. */
  function GetsEnd(c: nat): (State, Choice) -> bool {
    (s: State, ch: Choice) =>
      && ch.StepConsumer? && ch.c == c && c < |s.consumers| && s.consumers[c].CGet?
      && s.buffer.use < |s.buffer.slots| && s.buffer.max > 0 && s.buffer.slots[s.buffer.use] == -1
  }

  function EndsOf(c: nat): State -> int {
    (s: State) => if c < |s.consumers| then TookEnd(s.consumers[c]) else 0
  }

  lemma OwnStepCounted(s: State, c: nat, w: nat)
    requires c < |s.consumers|
    ensures EndsOf(c)(ConsumerStep(s, c, w)) == EndsOf(c)(s) + if GetsEnd(c)(s, StepConsumer(c, w)) then 1 else 0
  {
    hide MayWake;
  }

  lemma OthersKeepEnds(s: State, d: nat, w: nat, c: nat)
    requires c < |s.consumers| && d < |s.consumers| && d != c
    ensures EndsOf(c)(ConsumerStep(s, d, w)) == EndsOf(c)(s)
  {
    hide MayWake;
  }

  lemma ProducerKeepsEnds(s: State, w: nat, c: nat)
    requires c < |s.consumers|
    ensures EndsOf(c)(ProducerStep(s, w)) == EndsOf(c)(s)
  {
    hide MayWake;
  }

  lemma EndCounted(s: State, ch: Choice, c: nat)
    requires c < |s.consumers|
    ensures EndsOf(c)(Calm(s, ch)) == EndsOf(c)(s) + if GetsEnd(c)(s, ch) then 1 else 0
  {
    hide ConsumerStep, ProducerStep;
    if ch.StepProducer? {
      ProducerKeepsEnds(s, ch.w, c);
    } else if ch.StepConsumer? && ch.c < |s.consumers| {
      if ch.c == c { OwnStepCounted(s, c, ch.w); } else { OthersKeepEnds(s, ch.c, ch.w, c); }
    }
  }

  /** In every run that goes as far as it can each consumer gets exactly one end marker. */
  lemma OneEndEach(oneCv: bool, max: nat, loops: nat, consumers: nat, sched: seq<Choice>, c: nat)
    requires max >= 1 && c < consumers && (oneCv ==> consumers < 2 * max)
    requires Stuck(Calm, Exec(Calm, Init(oneCv, max, loops, consumers), sched))
    ensures Count(Calm, GetsEnd(c), Init(oneCv, max, loops, consumers), sched) == 1
  {
    var s0 := Init(oneCv, max, loops, consumers);
    var s := Exec(Calm, s0, sched);
    CalmRunsFinish(oneCv, max, loops, consumers, s);
    CalmReachableGood(oneCv, max, loops, consumers, s);
    InitGood(oneCv, max, loops, consumers);
    hide Inv, Calm, GetsEnd;
    var inv := (u: State) => Inv(u) && c < |u.consumers|;
    forall u: State, ch: Choice | inv(u)
      ensures inv(Calm(u, ch)) && EndsOf(c)(Calm(u, ch)) == EndsOf(c)(u) + if GetsEnd(c)(u, ch) then 1 else 0
    {
      CalmKeepsInv(u, ch);
      EndCounted(u, ch, c);
    }
    EventsCounted(Calm, inv, GetsEnd(c), EndsOf(c), s0, sched);
  }

  lemma CalmKeepsInv(s: State, ch: Choice)
    requires Inv(s)
    ensures Inv(Calm(s, ch)) && |Calm(s, ch).consumers| == |s.consumers|
  {
    NextKeepsInv(s, ch);
  }

  lemma SomebodyToWake(s: State, toProducer: bool, toConsumers: bool) returns (w: nat)
    ensures MayWake(s, w, toProducer, toConsumers)
  {
    if toConsumers && SomeConsumerSleeps(s) {
      w :| w < |s.consumers| && s.consumers[w].CSleep?;
    } else {
      w := |s.consumers|;
    }
  }

  /** The thread that holds the mutex can always move. */
  lemma HolderMoves(s: State) returns (ch: Choice)
    requires Inv(s) && s.locked
    ensures Calm(s, ch) != s
  {
    hide Window;
    if PHolds(s.producer) == 1 {
      var w := SomebodyToWake(s, false, true);
      ch := StepProducer(w);
      if s.producer.PFill? { FillKeepsWindow(s.buffer); }
      assert Next(s, ch).producer != s.producer;
    } else {
      var c := SumWitness(s.consumers, CHolds);
      var w := SomebodyToWake(s, true, s.oneCv);
      ch := StepConsumer(c, w);
      if s.consumers[c].CGet? { GetKeepsWindow(s.buffer); }
      assert Next(s, ch).consumers[c] != s.consumers[c];
    }
  }

  lemma StuckIsAsleep(s: State)
    requires Inv(s) && Stuck(Calm, s)
    ensures AllDone(s) || Deadlocked(s)
  {
    hide Window;
    SumFacts(s);
    if s.locked {
      var ch := HolderMoves(s);
    }
    assert Calm(s, StepProducer(0)) == s;
    forall c: nat | c < |s.consumers| ensures s.consumers[c].CSleep? || s.consumers[c].CDone? {
      assert Calm(s, StepConsumer(c, 0)) == s;
      assert Goto(s, c, CTest).consumers[c] == CTest;
    }
  }

  // The program as it updates its globals in place.

  class Program {
    const oneCv: bool
    const max: nat
    const loops: nat
    const slots: array<int>
    var fillPtr: nat
    var usePtr: nat
    var numFull: int
    var locked: bool
    var producer: Producer
    var consumers: seq<Consumer>
    ghost var puts: nat
    ghost var gets: nat

    ghost function View(): State
      reads this, slots
    {
      State(oneCv, Buffer(max, loops, slots[..], fillPtr, usePtr, puts, gets), numFull, locked, producer, consumers)
    }

    ghost predicate Valid()
      reads this, slots
    {
      Inv(View())
    }

    constructor (oneCv: bool, max: nat, loops: nat, consumerCount: nat)
      requires max >= 1
      ensures fresh(slots) && View() == Init(oneCv, max, loops, consumerCount) && Valid()
    {
      this.oneCv, this.max, this.loops := oneCv, max, loops;
      slots := new int[max](_ => 0);
      fillPtr, usePtr, numFull, locked := 0, 0, 0, false;
      producer, consumers := PLock(0), seq(consumerCount, _ => CLock);
      puts, gets := 0, 0;
      new;
      assert slots[..] == seq(max, _ => 0);
      InitGood(oneCv, max, loops, consumerCount);
    }

    method Fill(value: int)
      requires fillPtr < slots.Length && max > 0
      modifies this`fillPtr, this`numFull, this`puts, slots
      ensures View() == old(View()).(buffer := DoFill(old(View()).buffer, value), numFull := old(numFull) + 1)
    {
      slots[fillPtr] := value;
      fillPtr := (fillPtr + 1) % max;
      numFull := numFull + 1;
      puts := puts + 1;
    }

    method Get() returns (tmp: int)
      requires usePtr < slots.Length && max > 0
      modifies this`usePtr, this`numFull, this`gets
      ensures View() == old(View()).(buffer := DoGet(old(View()).buffer), numFull := old(numFull) - 1)
      ensures tmp == old(slots[usePtr])
    {
      tmp := slots[usePtr];
      usePtr := (usePtr + 1) % max;
      numFull := numFull - 1;
      gets := gets + 1;
    }

    /** Removes sleeper `w` from the wait sets that the signal is meant for; says whether the signal is given. */
    method Signal(w: nat, toProducer: bool, toConsumers: bool) returns (given: bool)
      modifies this`producer, this`consumers
      ensures given == MayWake(old(View()), w, toProducer, toConsumers)
      ensures View() == if given then Wake(old(View()), w, toProducer, toConsumers) else old(View())
    {
      if toConsumers && w < |consumers| && consumers[w].CSleep? {
        consumers := consumers[w := CRelock];
        given := true;
      } else if toProducer && w == |consumers| && producer.PSleep? {
        producer := PRelock(producer.i);
        given := true;
      } else {
        given := !(toConsumers && exists c :: 0 <= c < |consumers| && consumers[c].CSleep?)
                 && !(toProducer && producer.PSleep?);
      }
    }

    /** The next statement of the producer; a signal wakes sleeper `w`. */
    method ProducerNext(w: nat)
      requires Valid()
      modifies this, slots
      ensures View() == ProducerStep(old(View()), w) && Valid()
    {
      hide Inv, Window;
      ghost var before := View();
      InRange(before);
      ProducerKeepsInv(before, w);
      match producer {
        case PLock(i) =>
          if i == loops + |consumers| {
            producer := PDone;
          } else if !locked {
            locked, producer := true, PTest(i);
          }
        case PTest(i) =>
          if numFull == max { locked, producer := false, PSleep(i); } else { producer := PFill(i); }
        case PRelock(i) =>
          if !locked { locked, producer := true, PTest(i); }
        case PFill(i) =>
          Fill(Item(loops, i));
          producer := PSignal(i);
        case PSignal(i) =>
          var given := Signal(w, false, true);
          if given { producer := PUnlock(i); }
        case PUnlock(i) =>
          locked, producer := false, PLock(i + 1);
        case _ =>
      }
      assert View() == ProducerStep(before, w);
    }

    /** The next statement of consumer `c`; a signal wakes sleeper `w`. */
    method ConsumerNext(c: nat, w: nat)
      requires Valid() && c < |consumers|
      modifies this, slots
      ensures View() == ConsumerStep(old(View()), c, w) && Valid()
    {
      hide Inv, Window;
      ghost var before := View();
      InRange(before);
      ConsumerKeepsInv(before, c, w);
      match consumers[c] {
        case CLock =>
          if !locked { locked, consumers := true, consumers[c := CTest]; }
        case CTest =>
          if numFull == 0 {
            locked, consumers := false, consumers[c := CSleep];
          } else {
            consumers := consumers[c := CGet];
          }
        case CRelock =>
          if !locked { locked, consumers := true, consumers[c := CTest]; }
        case CGet =>
          var tmp := Get();
          consumers := consumers[c := CSignal(tmp)];
        case CSignal(tmp) =>
          var given := Signal(w, true, oneCv);
          if given { consumers := consumers[c := CUnlock(tmp)]; }
        case CUnlock(tmp) =>
          locked, consumers := false, consumers[c := if tmp == -1 then CDone else CLock];
        case _ =>
      }
      assert View() == ConsumerStep(before, c, w);
    }

    /** Any scheduler, with or without spurious wake-ups. */
    method Run(sched: seq<Choice>)
      requires Valid()
      modifies this, slots
      ensures View() == Exec(Next, old(View()), sched) && Valid()
    {
      hide Inv;
      for k := 0 to |sched|
        invariant View() == Exec(Next, old(View()), sched[..k]) && Valid()
      {
        ExecSnoc(Next, old(View()), sched[..k], sched[k]);
        assert sched[..k + 1] == sched[..k] + [sched[k]];
        match sched[k] {
          case StepProducer(w) => ProducerNext(w);
          case StepConsumer(c, w) => if c < |consumers| { ConsumerNext(c, w); }
          case Spurious(w) =>
            WakeKeepsInv(View(), w, true, true);
            ghost var before := View();
            if w < |consumers| && consumers[w].CSleep? {
              consumers := consumers[w := CRelock];
            } else if w == |consumers| && producer.PSleep? {
              producer := PRelock(producer.i);
            }
            assert View() == Wake(before, w, true, true);
        }
      }
      assert sched[..|sched|] == sched;
    }
  }

  lemma InRange(s: State)
    requires Inv(s)
    ensures s.buffer.max > 0 && s.buffer.fill < |s.buffer.slots| && s.buffer.use < |s.buffer.slots|
  {
  }
}
