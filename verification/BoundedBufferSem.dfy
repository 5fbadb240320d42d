/** One producer and any number of consumers around a circular buffer guarded by three semaphores. */
module BoundedBufferSem {
  import opened CircularBuffer
  import opened Sums
  import opened Runs

  /** `i` numbers the items the producer puts, over both of its loops. */
  datatype Producer =
    | PWaitEmpty(i: nat)  // at the head of the loop; next: wait(empty)
    | PWaitMutex(i: nat)  // next: wait(mutex)
    | PFill(i: nat)       // next: do_fill
    | PPostMutex(i: nat)  // next: post(mutex)
    | PPostFull(i: nat)   // next: post(full)
    | PDone

  datatype Consumer =
    | CWaitFull             // next: wait(full)
    | CWaitMutex            // next: wait(mutex)
    | CGet                  // next: do_get
    | CPostMutex(tmp: int)  // next: post(mutex)
    | CPostEmpty(tmp: int)  // next: post(empty), then leave the loop if tmp is -1
    | CDone

  /** `got` lists the values of all do_get calls in their order. */
  datatype State = State(
    buffer: Buffer, empty: nat, full: nat, mutex: nat, producer: Producer, consumers: seq<Consumer>, got: seq<int>)

  datatype Choice = StepProducer | StepConsumer(c: nat)

  function Init(max: nat, loops: nat, consumers: nat): State {
    State(Empty(max, loops), max, 0, 1, PWaitEmpty(0), seq(consumers, _ => CWaitFull), [])
  }

  function Total(s: State): nat {
    s.buffer.loops + |s.consumers|
  }

  function ProducerStep(s: State): State {
    match s.producer
    case PWaitEmpty(i) =>
      if i == Total(s) then s.(producer := PDone)
      else if s.empty == 0 then s else s.(empty := s.empty - 1, producer := PWaitMutex(i))
    case PWaitMutex(i) => if s.mutex == 0 then s else s.(mutex := s.mutex - 1, producer := PFill(i))
    case PFill(i) =>
      if s.buffer.fill < |s.buffer.slots| && s.buffer.max > 0
      then s.(buffer := DoFill(s.buffer, Item(s.buffer.loops, i)), producer := PPostMutex(i)) else s
    case PPostMutex(i) => s.(mutex := s.mutex + 1, producer := PPostFull(i))
    case PPostFull(i) => s.(full := s.full + 1, producer := PWaitEmpty(i + 1))
    case PDone => s
  }

  function Goto(s: State, c: nat, p: Consumer): State
    requires c < |s.consumers|
  {
    s.(consumers := s.consumers[c := p])
  }

  function ConsumerStep(s: State, c: nat): State
    requires c < |s.consumers|
  {
    match s.consumers[c]
    case CWaitFull => if s.full == 0 then s else Goto(s.(full := s.full - 1), c, CWaitMutex)
    case CWaitMutex => if s.mutex == 0 then s else Goto(s.(mutex := s.mutex - 1), c, CGet)
    case CGet =>
      if s.buffer.use < |s.buffer.slots| && s.buffer.max > 0 then
        var tmp := s.buffer.slots[s.buffer.use];
        Goto(s.(buffer := DoGet(s.buffer), got := s.got + [tmp]), c, CPostMutex(tmp))
      else s
    case CPostMutex(tmp) => Goto(s.(mutex := s.mutex + 1), c, CPostEmpty(tmp))
    case CPostEmpty(tmp) => Goto(s.(empty := s.empty + 1), c, if tmp == -1 then CDone else CWaitFull)
    case CDone => s
  }

  function Next(s: State, ch: Choice): State {
    match ch
    case StepProducer => ProducerStep(s)
    case StepConsumer(c) => if c < |s.consumers| then ConsumerStep(s, c) else s
  }

  // Regions.

  function PHolds(p: Producer): int { if p.PFill? || p.PPostMutex? then 1 else 0 }
  function CHolds(p: Consumer): int { if p.CGet? || p.CPostMutex? then 1 else 0 }

  /** Between a wait and the change of the buffer it is for. */
  function PTookEmpty(p: Producer): int { if p.PWaitMutex? || p.PFill? then 1 else 0 }
  function CTookFull(p: Consumer): int { if p.CWaitMutex? || p.CGet? then 1 else 0 }

  /** Between the change of the buffer and the post that announces it. */
  function POwesFull(p: Producer): int { if p.PPostMutex? || p.PPostFull? then 1 else 0 }
  function COwesEmpty(p: Consumer): int { if p.CPostMutex? || p.CPostEmpty? then 1 else 0 }

  /** Has taken an end marker. */
  function TookEnd(p: Consumer): int {
    if (p.CPostMutex? && p.tmp == -1) || (p.CPostEmpty? && p.tmp == -1) || p.CDone? then 1 else 0
  }

  ghost predicate Tokens(s: State) {
    && s.mutex + PHolds(s.producer) + Sum(s.consumers, CHolds) == 1
    && s.full + POwesFull(s.producer) + Sum(s.consumers, CTookFull) == s.buffer.puts - s.buffer.gets
    && s.empty + PTookEmpty(s.producer) + Sum(s.consumers, COwesEmpty) == s.buffer.max - (s.buffer.puts - s.buffer.gets)
  }

  ghost predicate Progress(s: State) {
    && s.buffer.max > 0 && s.buffer.puts <= Total(s)
    && (match s.producer
        case PWaitEmpty(i) => s.buffer.puts == i
        case PWaitMutex(i) => s.buffer.puts == i < Total(s)
        case PFill(i) => s.buffer.puts == i < Total(s)
        case PPostMutex(i) => s.buffer.puts == i + 1
        case PPostFull(i) => s.buffer.puts == i + 1
        case PDone => s.buffer.puts == Total(s))
    && Sum(s.consumers, TookEnd) == (if s.buffer.gets <= s.buffer.loops then 0 else s.buffer.gets - s.buffer.loops)
    && |s.got| == s.buffer.gets
    && forall i :: 0 <= i < |s.got| ==> s.got[i] == Item(s.buffer.loops, i)
  }

  ghost predicate Inv(s: State) {
    Window(s.buffer) && Tokens(s) && Progress(s)
  }

  lemma GotoSums(s: State, c: nat, p: Consumer)
    requires c < |s.consumers|
    ensures var t := s.consumers[c := p];
            && Sum(t, CHolds) == Sum(s.consumers, CHolds) - CHolds(s.consumers[c]) + CHolds(p)
            && Sum(t, CTookFull) == Sum(s.consumers, CTookFull) - CTookFull(s.consumers[c]) + CTookFull(p)
            && Sum(t, COwesEmpty) == Sum(s.consumers, COwesEmpty) - COwesEmpty(s.consumers[c]) + COwesEmpty(p)
            && Sum(t, TookEnd) == Sum(s.consumers, TookEnd) - TookEnd(s.consumers[c]) + TookEnd(p)
  {
    SumUpdate(s.consumers, c, p, CHolds);
    SumUpdate(s.consumers, c, p, CTookFull);
    SumUpdate(s.consumers, c, p, COwesEmpty);
    SumUpdate(s.consumers, c, p, TookEnd);
  }

  lemma SumsNat(s: State)
    ensures Sum(s.consumers, CHolds) >= 0 && Sum(s.consumers, CTookFull) >= 0 && Sum(s.consumers, COwesEmpty) >= 0
    ensures 0 <= Sum(s.consumers, TookEnd) <= |s.consumers|
    ensures forall c :: 0 <= c < |s.consumers| ==> Sum(s.consumers, CTookFull) >= CTookFull(s.consumers[c])
  {
    SumBounds(s.consumers, CHolds, 0, 1);
    SumBounds(s.consumers, CTookFull, 0, 1);
    SumBounds(s.consumers, COwesEmpty, 0, 1);
    SumBounds(s.consumers, TookEnd, 0, 1);
    forall c | 0 <= c < |s.consumers| ensures Sum(s.consumers, CTookFull) >= CTookFull(s.consumers[c]) {
      SumMember(s.consumers, CTookFull, c);
    }
  }

  lemma ProducerKeepsInv(s: State)
    requires Inv(s)
    ensures Inv(ProducerStep(s))
  {
    hide Window;
    SumsNat(s);
    if s.producer.PFill? { FillKeepsWindow(s.buffer); }
  }

  lemma ConsumerKeepsInv(s: State, c: nat)
    requires Inv(s) && c < |s.consumers|
    ensures Inv(ConsumerStep(s, c))
  {
    hide Window;
    SumsNat(s);
    match s.consumers[c] {
      case CWaitFull => GotoSums(s, c, CWaitMutex);
      case CWaitMutex => GotoSums(s, c, CGet);
      case CGet =>
        GetKeepsWindow(s.buffer);
        GotoSums(s, c, CPostMutex(Item(s.buffer.loops, s.buffer.gets)));
      case CPostMutex(tmp) => GotoSums(s, c, CPostEmpty(tmp));
      case CPostEmpty(tmp) => GotoSums(s, c, if tmp == -1 then CDone else CWaitFull);
      case _ =>
    }
  }

  lemma NextKeepsInv(s: State, ch: Choice)
    requires Inv(s)
    ensures Inv(Next(s, ch)) && |Next(s, ch).consumers| == |s.consumers|
    ensures Next(s, ch).buffer.max == s.buffer.max && Next(s, ch).buffer.loops == s.buffer.loops
  {
    hide Inv;
    match ch {
      case StepProducer => ProducerKeepsInv(s);
      case StepConsumer(c) => if c < |s.consumers| { ConsumerKeepsInv(s, c); }
    }
  }

  lemma InitInv(max: nat, loops: nat, consumers: nat)
    requires max >= 1
    ensures Inv(Init(max, loops, consumers))
  {
    var s := Init(max, loops, consumers);
    EmptyWindow(max, loops);
    SumBounds(s.consumers, CHolds, 0, 0);
    SumBounds(s.consumers, CTookFull, 0, 0);
    SumBounds(s.consumers, COwesEmpty, 0, 0);
    SumBounds(s.consumers, TookEnd, 0, 0);
  }

  ghost predicate Shape(s: State, max: nat, loops: nat, consumers: nat) {
    s.buffer.max == max && s.buffer.loops == loops && |s.consumers| == consumers
  }

  ghost predicate Reachable(max: nat, loops: nat, consumers: nat, s: State) {
    Reaches(Next, Init(max, loops, consumers), s)
  }

  lemma ReachableInv(max: nat, loops: nat, consumers: nat, s: State)
    requires max >= 1 && Reachable(max, loops, consumers, s)
    ensures Inv(s) && Shape(s, max, loops, consumers)
  {
    hide Inv;
    InitInv(max, loops, consumers);
    var inv := (s: State) => Inv(s) && Shape(s, max, loops, consumers);
    forall s: State, ch: Choice | inv(s) ensures inv(Next(s, ch)) {
      NextKeepsInv(s, ch);
    }
    ReachesKeeps(Next, inv, Init(max, loops, consumers), s);
  }

  /** Threads between their wait for a slot or an item and the post that hands it on. */
  function PBetween(p: Producer): int { PTookEmpty(p) + POwesFull(p) }
  function CBetween(p: Consumer): int { CTookFull(p) + COwesEmpty(p) }

  /** In every reachable state the slots are conserved, the buffer is the window of items put and not yet got,
      and the values got so far are the first items in order. */
  lemma SlotsAndOrder(max: nat, loops: nat, consumers: nat, s: State)
    requires max >= 1 && Reachable(max, loops, consumers, s)
    ensures s.empty + s.full + PBetween(s.producer) + Sum(s.consumers, CBetween) == max
    ensures Window(s.buffer)
    ensures forall i :: 0 <= i < |s.got| ==> s.got[i] == Item(loops, i)
  {
    ReachableInv(max, loops, consumers, s);
    SumBetween(s.consumers, |s.consumers|);
  }

  lemma {:induction false} SumBetween(cs: seq<Consumer>, n: nat)
    requires n <= |cs|
    ensures Prefix(cs, CBetween, n) == Prefix(cs, CTookFull, n) + Prefix(cs, COwesEmpty, n)
  {
    if n > 0 {
      SumBetween(cs, n - 1);
    }
  }

  // Every run ends, with everything done.

  predicate AllDone(s: State) {
    s.producer.PDone? && forall c :: 0 <= c < |s.consumers| ==> s.consumers[c].CDone?
  }

  function PWeight(p: Producer): int {
    match p
    case PWaitEmpty(_) => 3
    case PWaitMutex(_) => 2
    case PFill(_) => 1
    case PPostMutex(_) => 5
    case PPostFull(_) => 4
    case PDone => 0
  }

  function CWeight(p: Consumer): int {
    match p
    case CWaitFull => 3
    case CWaitMutex => 2
    case CGet => 1
    case CPostMutex(_) => 5
    case CPostEmpty(_) => 4
    case CDone => 0
  }

  function Measure(s: State): int {
    6 * (Total(s) - s.buffer.puts) + 6 * (Total(s) - s.buffer.gets) + PWeight(s.producer) + Sum(s.consumers, CWeight)
  }

  lemma NextDecreases(s: State, ch: Choice)
    requires Inv(s)
    ensures Measure(s) >= 0
    ensures Next(s, ch) != s ==> Measure(Next(s, ch)) < Measure(s)
  {
    hide Window;
    SumsNat(s);
    SumBounds(s.consumers, CWeight, 0, 5);
    if ch.StepConsumer? && ch.c < |s.consumers| {
      var p := Next(s, ch).consumers[ch.c];
      assert Next(s, ch).consumers == s.consumers[ch.c := p];
      SumUpdate(s.consumers, ch.c, p, CWeight);
    }
  }

  /** However the threads are scheduled, the state changes a bounded number of times. */
  lemma RunsAreBounded(max: nat, loops: nat, consumers: nat, sched: seq<Choice>)
    requires max >= 1
    ensures Moves(Next, Init(max, loops, consumers), sched) <= 12 * (loops + consumers) + 3 * consumers + 3
  {
    hide Inv;
    var s0 := Init(max, loops, consumers);
    InitInv(max, loops, consumers);
    forall s: State, ch: Choice | Inv(s)
      ensures Inv(Next(s, ch)) && Measure(s) >= 0 && (Next(s, ch) != s ==> Measure(Next(s, ch)) < Measure(s))
    {
      NextKeepsInv(s, ch);
      NextDecreases(s, ch);
    }
    forall s: State | Inv(s) ensures Measure(s) >= 0 {
      NextDecreases(s, StepProducer);
    }
    MovesBounded(Next, Inv, Measure, s0, sched);
    ExecKeeps(Next, Inv, s0, sched);
    SumBounds(s0.consumers, CWeight, 3, 3);
  }

  /** The thread inside the mutex can always move. */
  lemma HolderMoves(s: State) returns (ch: Choice)
    requires Inv(s) && s.mutex == 0
    ensures Next(s, ch) != s
  {
    hide Window;
    SumsNat(s);
    if PHolds(s.producer) == 1 {
      ch := StepProducer;
      if s.producer.PFill? { FillKeepsWindow(s.buffer); }
      assert Next(s, ch).producer != s.producer;
    } else {
      var c := SumWitness(s.consumers, CHolds);
      ch := StepConsumer(c);
      if s.consumers[c].CGet? { GetKeepsWindow(s.buffer); }
      assert Next(s, ch).consumers[c] != s.consumers[c];
    }
  }

  lemma StuckMutexFree(s: State)
    requires Inv(s) && Stuck(Next, s)
    ensures s.mutex == 1
  {
    SumsNat(s);
    if s.mutex == 0 {
      var ch := HolderMoves(s);
    }
  }

  lemma StuckConsumers(s: State)
    requires Inv(s) && Stuck(Next, s)
    ensures Sum(s.consumers, CTookFull) == 0 && Sum(s.consumers, COwesEmpty) == 0
    ensures s.full > 0 ==> forall c :: 0 <= c < |s.consumers| ==> s.consumers[c].CDone?
    ensures forall c :: 0 <= c < |s.consumers| ==> s.consumers[c].CDone? || s.consumers[c].CWaitFull?
  {
    hide Window, Progress;
    StuckMutexFree(s);
    SumsNat(s);
    SumZero(s.consumers, CHolds);
    forall c: nat | c < |s.consumers|
      ensures s.consumers[c].CDone? || (s.consumers[c].CWaitFull? && s.full == 0)
    {
      assert Next(s, StepConsumer(c)) == s;
      assert Next(s, StepConsumer(c)).consumers[c] == s.consumers[c];
    }
    SumBounds(s.consumers, CTookFull, 0, 0);
    SumBounds(s.consumers, COwesEmpty, 0, 0);
  }

  function One(p: Consumer): int { 1 }

  lemma EndMarkers(s: State)
    requires Inv(s)
    ensures (forall c :: 0 <= c < |s.consumers| ==> s.consumers[c].CDone?) && |s.consumers| > 0 ==>
              s.buffer.gets == Total(s)
    ensures s.buffer.gets == Total(s) ==> forall c :: 0 <= c < |s.consumers| ==> TookEnd(s.consumers[c]) == 1
  {
    SumBounds(s.consumers, TookEnd, 0, 1);
    if forall c :: 0 <= c < |s.consumers| ==> s.consumers[c].CDone? {
      SumBounds(s.consumers, TookEnd, 1, 1);
    }
    SumLe(s.consumers, TookEnd, One);
    SumBounds(s.consumers, One, 1, 1);
  }

  /** A run that can go no further has every thread finished, and all the items were got in order: 0 to
      loops - 1, then one -1 for each consumer. */
  lemma RunsFinish(max: nat, loops: nat, consumers: nat, s: State)
    requires max >= 1 && consumers >= 1 && Reachable(max, loops, consumers, s) && Stuck(Next, s)
    ensures AllDone(s) && s.got == seq(loops + consumers, i requires 0 <= i => Item(loops, i))
    ensures s.empty == max && s.full == 0 && s.mutex == 1
  {
    ReachableInv(max, loops, consumers, s);
    hide Window;
    StuckMutexFree(s);
    StuckConsumers(s);
    EndMarkers(s);
    assert Next(s, StepProducer) == s;
  }

  // The program as it updates its globals in place.

  class Program {
    const max: nat
    const loops: nat
    const slots: array<int>
    var use: nat
    var fill: nat
    var empty: nat
    var full: nat
    var mutex: nat
    var producer: Producer
    var consumers: seq<Consumer>
    ghost var puts: nat
    ghost var gets: nat
    ghost var got: seq<int>

    ghost function View(): State
      reads this, slots
    {
      State(Buffer(max, loops, slots[..], fill, use, puts, gets), empty, full, mutex, producer, consumers, got)
    }

    ghost predicate Valid()
      reads this, slots
    {
      Inv(View())
    }

    constructor (max: nat, loops: nat, consumerCount: nat)
      requires max >= 1
      ensures fresh(slots) && View() == Init(max, loops, consumerCount) && Valid()
    {
      this.max, this.loops := max, loops;
      slots := new int[max](_ => 0);
      use, fill, empty, full, mutex := 0, 0, max, 0, 1;
      producer, consumers := PWaitEmpty(0), seq(consumerCount, _ => CWaitFull);
      puts, gets, got := 0, 0, [];
      new;
      assert slots[..] == seq(max, _ => 0);
      InitInv(max, loops, consumerCount);
    }

    method PutItem(value: int)
      requires Window(View().buffer)
      modifies this`fill, this`puts, slots
      ensures View() == old(View()).(buffer := DoFill(old(View()).buffer, value))
    {
      NextSlot(puts, max);
      slots[fill] := value;
      fill := fill + 1;
      if fill == max {
        fill := 0;
      }
      puts := puts + 1;
    }

    method GetItem() returns (tmp: int)
      requires Window(View().buffer)
      modifies this`use, this`gets, this`got
      ensures tmp == old(slots[use])
      ensures View() == old(View()).(buffer := DoGet(old(View()).buffer), got := old(got) + [tmp])
    {
      NextSlot(gets, max);
      tmp := slots[use];
      use := use + 1;
      if use == max {
        use := 0;
      }
      gets, got := gets + 1, got + [tmp];
    }

    /** The next statement of the producer. */
    method ProducerNext()
      requires Valid()
      modifies this, slots
      ensures View() == ProducerStep(old(View())) && Valid()
    {
      ghost var before := View();
      ProducerKeepsInv(before);
      hide Window;
      InRange(before);
      match producer {
        case PWaitEmpty(i) =>
          if i == loops + |consumers| {
            producer := PDone;
          } else if empty > 0 {
            empty, producer := empty - 1, PWaitMutex(i);
          }
        case PWaitMutex(i) =>
          if mutex > 0 { mutex, producer := mutex - 1, PFill(i); }
        case PFill(i) =>
          PutItem(Item(loops, i));
          producer := PPostMutex(i);
        case PPostMutex(i) => mutex, producer := mutex + 1, PPostFull(i);
        case PPostFull(i) => full, producer := full + 1, PWaitEmpty(i + 1);
        case PDone =>
      }
      assert View() == ProducerStep(before);
    }

    /** The next statement of consumer `c`. */
    method ConsumerNext(c: nat)
      requires Valid() && c < |consumers|
      modifies this, slots
      ensures View() == ConsumerStep(old(View()), c) && Valid()
    {
      ghost var before := View();
      ConsumerKeepsInv(before, c);
      hide Window;
      InRange(before);
      match consumers[c] {
        case CWaitFull =>
          if full > 0 { full, consumers := full - 1, consumers[c := CWaitMutex]; }
        case CWaitMutex =>
          if mutex > 0 { mutex, consumers := mutex - 1, consumers[c := CGet]; }
        case CGet =>
          var tmp := GetItem();
          consumers := consumers[c := CPostMutex(tmp)];
        case CPostMutex(tmp) => mutex, consumers := mutex + 1, consumers[c := CPostEmpty(tmp)];
        case CPostEmpty(tmp) => empty, consumers := empty + 1, consumers[c := if tmp == -1 then CDone else CWaitFull];
        case CDone =>
      }
      assert View() == ConsumerStep(before, c);
    }

    /** Any scheduler. */
    method Run(sched: seq<Choice>)
      requires Valid()
      modifies this, slots
      ensures View() == Exec(Next, old(View()), sched) && Valid()
    {
      hide Inv;
      for k := 0 to |sched|
        invariant View() == Exec(Next, old(View()), sched[..k]) && Valid()
      {
        ExecSnoc(Next, old(View()), sched[..k], sched[k]);
        assert sched[..k + 1] == sched[..k] + [sched[k]];
        match sched[k] {
          case StepProducer => ProducerNext();
          case StepConsumer(c) => if c < |consumers| { ConsumerNext(c); }
        }
      }
      assert sched[..|sched|] == sched;
    }
  }

  lemma InRange(s: State)
    requires Inv(s)
    ensures s.buffer.max > 0 && s.buffer.fill < |s.buffer.slots| && s.buffer.use < |s.buffer.slots|
  {
  }
}
