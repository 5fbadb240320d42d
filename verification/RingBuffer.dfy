/** The bounded ring of numbered slots shared by any number of producers and consumers.  Every shared access
    (a load, a compare-and-exchange, a store to a slot) is one step; steps interleave sequentially
    consistently, tickets are unbounded and a weak compare-and-exchange may fail for no reason. */
module RingBuffer {
  import opened Bits
  import opened Division
  import opened Runs

  datatype Slot = Slot(data: int, num: nat)

  datatype Pc =
    | Idle
    | EnqLoadHead(value: int)               // next: load _head_seq
    | EnqLoadSeq(value: int, ticket: nat)   // next: load the slot's seq and look at dif
    | EnqCas(value: int, ticket: nat)       // dif was 0; next: compare-exchange on _head_seq
    | EnqReload(value: int)                 // it failed; next: load _head_seq again
    | EnqWrite(value: int, ticket: nat)     // the ticket is claimed; next: store the data
    | EnqPublish(value: int, ticket: nat)   // next: store the slot's seq
    | DeqLoadTail                           // next: load _tail_seq
    | DeqLoadSeq(ticket: nat)               // next: load the slot's seq and look at dif
    | DeqCas(ticket: nat)                   // dif was 0; next: compare-exchange on _tail_seq
    | DeqReload                             // dif was positive; next: load _tail_seq again
    | DeqRead(ticket: nat)                  // the ticket is claimed; next: read the data
    | DeqRelease(value: int, ticket: nat)   // next: store the slot's seq

  /** `log[i]` is the value enqueued under ticket `i`, `received[i]` the one a consumer returned for it. */
  datatype State = State(head: nat, tail: nat, slots: seq<Slot>, pc: seq<Pc>, log: seq<int>, received: map<nat, int>)

  datatype Choice = Enqueue(t: nat, value: int) | Dequeue(t: nat) | Step(t: nat, spurious: bool)

  function Init(size: nat, threads: nat): State {
    State(0, 0, seq(size, i requires 0 <= i => Slot(0, i)), seq(threads, _ => Idle), [], map[])
  }

  function Goto(s: State, t: nat, p: Pc): State
    requires t < |s.pc|
  {
    s.(pc := s.pc[t := p])
  }

  function SlotOf(s: State, ticket: nat): Slot
    requires s.slots != []
  {
    s.slots[Mask(ticket, |s.slots|)]
  }

  function SetSlot(s: State, ticket: nat, slot: Slot): State
    requires s.slots != []
  {
    s.(slots := s.slots[Mask(ticket, |s.slots|) := slot])
  }

  function Next(s: State, c: Choice): State {
    if c.t >= |s.pc| || s.slots == [] then s else
    match c
    case Enqueue(t, value) => if s.pc[t].Idle? then Goto(s, t, EnqLoadHead(value)) else s
    case Dequeue(t) => if s.pc[t].Idle? then Goto(s, t, DeqLoadTail) else s
    case Step(t, spurious) => if s.pc[t].EnqLoadHead? || s.pc[t].EnqLoadSeq? || s.pc[t].EnqCas? || s.pc[t].EnqReload?
        || s.pc[t].EnqWrite? || s.pc[t].EnqPublish? then EnqueueStep(s, t, spurious) else DequeueStep(s, t, spurious)
  }

  function EnqueueStep(s: State, t: nat, spurious: bool): State
    requires t < |s.pc| && s.slots != []
  {
    match s.pc[t]
    case EnqLoadHead(v) => Goto(s, t, EnqLoadSeq(v, s.head))
    case EnqLoadSeq(v, h) => if SlotOf(s, h).num == h then Goto(s, t, EnqCas(v, h)) else s
    case EnqCas(v, h) =>
      if s.head == h && !spurious
      then Goto(s.(head := h + 1, log := s.log + [v]), t, EnqWrite(v, h))
      else Goto(s, t, EnqReload(v))
    case EnqReload(v) => Goto(s, t, EnqLoadSeq(v, s.head))
    case EnqWrite(v, h) => Goto(SetSlot(s, h, SlotOf(s, h).(data := v)), t, EnqPublish(v, h))
    case EnqPublish(v, h) => Goto(SetSlot(s, h, SlotOf(s, h).(num := h + 1)), t, Idle)
    case _ => s
  }

  function DequeueStep(s: State, t: nat, spurious: bool): State
    requires t < |s.pc| && s.slots != []
  {
    match s.pc[t]
    case DeqLoadTail => Goto(s, t, DeqLoadSeq(s.tail))
    case DeqLoadSeq(h) =>
      var num := SlotOf(s, h).num;
      Goto(s, t, if num == h + 1 then DeqCas(h) else if num < h + 1 then Idle else DeqReload)
    case DeqCas(h) =>
      if s.tail == h && !spurious
      then Goto(s.(tail := h + 1), t, DeqRead(h))
      else Goto(s, t, DeqLoadSeq(s.tail))
    case DeqReload => Goto(s, t, DeqLoadSeq(s.tail))
    case DeqRead(h) => Goto(s, t, DeqRelease(SlotOf(s, h).data, h))
    case DeqRelease(v, h) =>
      Goto(SetSlot(s, h, SlotOf(s, h).(num := h + |s.slots|)), t, Idle).(received := s.received[h := v])
    case _ => s
  }

  // The invariant.

  /** Holds a claimed ticket of a slot it has yet to publish. */
  predicate Fills(p: Pc, ticket: nat) { (p.EnqWrite? || p.EnqPublish?) && p.ticket == ticket }

  /** Holds a claimed ticket of a slot it has yet to release. */
  predicate Drains(p: Pc, ticket: nat) { (p.DeqRead? || p.DeqRelease?) && p.ticket == ticket }

  /** The slot of ticket `i`, for the `size` tickets from the tail on: claimed tickets are published or being
      filled, unclaimed ones are free or still being drained of the ticket one round before. */
  ghost predicate TicketOk(s: State, i: nat)
    requires s.slots != []
  {
    var slot := SlotOf(s, i);
    if i < s.head then
      || (slot.num == i + 1 && i < |s.log| && slot.data == s.log[i])
      || slot.num == i
    else
      || slot.num == i
      || slot.num + |s.slots| == i + 1
  }

  /** What a thread at `p` may rely on. */
  ghost predicate Local(s: State, p: Pc)
    requires s.slots != []
  {
    match p
    case EnqLoadSeq(_, h) => h <= s.head
    case EnqCas(_, h) => h <= s.head && (h == s.head ==> SlotOf(s, h).num == h)
    case EnqWrite(v, h) => s.tail <= h < s.head <= |s.log| && SlotOf(s, h).num == h && s.log[h] == v
    case EnqPublish(v, h) =>
      s.tail <= h < s.head <= |s.log| && SlotOf(s, h).num == h && s.log[h] == v && SlotOf(s, h).data == v
    case DeqLoadSeq(h) => h <= s.tail
    case DeqCas(h) => h <= s.tail && (h == s.tail ==> SlotOf(s, h).num == h + 1)
    case DeqRead(h) =>
      h < s.tail && s.head <= h + |s.slots| && h < |s.log| && h !in s.received
      && SlotOf(s, h) == Slot(s.log[h], h + 1)
    case DeqRelease(v, h) =>
      h < s.tail && s.head <= h + |s.slots| && h < |s.log| && h !in s.received
      && SlotOf(s, h).num == h + 1 && v == s.log[h]
    case _ => true
  }

  /** Both fill, or both drain, the same ticket. */
  predicate Clash(p: Pc, q: Pc) {
    || ((p.EnqWrite? || p.EnqPublish?) && Fills(q, p.ticket))
    || ((p.DeqRead? || p.DeqRelease?) && Drains(q, p.ticket))
  }

  ghost predicate OneHolder(s: State) {
    forall t, u :: 0 <= t < |s.pc| && 0 <= u < |s.pc| && t != u ==> !Clash(s.pc[t], s.pc[u])
  }

  ghost predicate Inv(s: State) {
    && |s.slots| >= 2 && IsPow2(|s.slots|)
    && s.tail <= s.head <= s.tail + |s.slots|
    && |s.log| == s.head
    && (forall i :: s.tail <= i < s.tail + |s.slots| ==> TicketOk(s, i))
    && (forall t :: 0 <= t < |s.pc| ==> Local(s, s.pc[t]))
    && OneHolder(s)
    && (forall i :: i in s.received ==> i < s.tail && s.received[i] == s.log[i])
  }

  lemma Apart(i: nat, j: nat, size: nat)
    requires IsPow2(size) && (i < j < i + size || j < i < j + size)
    ensures Mask(i, size) != Mask(j, size)
  {
    MaskIsMod(i, size);
    MaskIsMod(j, size);
    RemainderWindow(i, j, size);
    RemainderWindow(j, i, size);
  }

  lemma SameSlot(i: nat, size: nat)
    requires IsPow2(size)
    ensures Mask(i + size, size) == Mask(i, size)
  {
    MaskIsMod(i, size);
    MaskIsMod(i + size, size);
    RemainderWindow(i, i, size);
  }

  lemma InitInv(size: nat, threads: nat)
    requires size >= 2 && IsPow2(size)
    ensures Inv(Init(size, threads))
  {
    var s := Init(size, threads);
    forall i | s.tail <= i < s.tail + size ensures TicketOk(s, i) {
      MaskIsMod(i, size);
      SmallMod(i, size);
    }
  }

  /** When the slot of the next ticket carries its number, the ring is not full. */
  lemma NotFull(s: State)
    requires Inv(s) && SlotOf(s, s.head).num == s.head
    ensures s.head < s.tail + |s.slots|
  {
    if s.head == s.tail + |s.slots| {
      assert TicketOk(s, s.tail);
      SameSlot(s.tail, |s.slots|);
    }
  }

  /** When the slot of the next ticket to take is published, the ring is not empty. */
  lemma NotEmpty(s: State)
    requires Inv(s) && SlotOf(s, s.tail).num == s.tail + 1
    ensures s.tail < s.head
  {
    assert TicketOk(s, s.tail);
  }

  lemma ClaimHeadKeepsInv(s: State, t: nat)
    requires Inv(s) && t < |s.pc| && s.pc[t].EnqCas? && s.pc[t].ticket == s.head
    ensures Inv(EnqueueStep(s, t, false))
  {
    var n, h := |s.slots|, s.head;
    var s' := EnqueueStep(s, t, false);
    NotFull(s);
    forall i | s'.tail <= i < s'.tail + n ensures TicketOk(s', i) {
      assert TicketOk(s, i);
    }
    forall u | 0 <= u < |s'.pc| ensures Local(s', s'.pc[u]) {
      assert Local(s, s.pc[u]);
      if u != t && (s.pc[u].DeqRead? || s.pc[u].DeqRelease?) {
        SameSlot(s.pc[u].ticket, n);
      }
    }
  }

  lemma WriteKeepsInv(s: State, t: nat)
    requires Inv(s) && t < |s.pc| && s.pc[t].EnqWrite?
    ensures Inv(EnqueueStep(s, t, false))
  {
    var n, h := |s.slots|, s.pc[t].ticket;
    var s' := EnqueueStep(s, t, false);
    forall i | s'.tail <= i < s'.tail + n ensures TicketOk(s', i) {
      assert TicketOk(s, i);
      if i != h { Apart(i, h, n); }
    }
    forall u | 0 <= u < |s'.pc| ensures Local(s', s'.pc[u]) {
      assert Local(s, s.pc[u]);
      if u != t && s.pc[u].EnqPublish? {
        assert !Clash(s.pc[u], s.pc[t]);
        Apart(s.pc[u].ticket, h, n);
      } else if u != t && s.pc[u].DeqRead? {
        Apart(s.pc[u].ticket, h, n);
      }
    }
  }

  lemma PublishKeepsInv(s: State, t: nat)
    requires Inv(s) && t < |s.pc| && s.pc[t].EnqPublish?
    ensures Inv(EnqueueStep(s, t, false))
  {
    var n, h := |s.slots|, s.pc[t].ticket;
    var s' := EnqueueStep(s, t, false);
    forall i | s'.tail <= i < s'.tail + n ensures TicketOk(s', i) {
      assert TicketOk(s, i);
      if i != h { Apart(i, h, n); }
    }
    forall u | 0 <= u < |s'.pc| ensures Local(s', s'.pc[u]) {
      assert Local(s, s.pc[u]);
      if u != t {
        assert !Clash(s.pc[u], s.pc[t]);
        OtherSlot(s, h, s.pc[u]);
      }
    }
  }

  /** The tickets other threads rely on are not in the slot that is being filled under ticket `h`. */
  lemma OtherSlot(s: State, h: nat, p: Pc)
    requires Inv(s) && s.tail <= h < s.head && SlotOf(s, h).num == h && Local(s, p) && !Fills(p, h)
    ensures p.EnqWrite? || p.EnqPublish? || p.DeqRead? || p.DeqRelease? ==>
              Mask(p.ticket, |s.slots|) != Mask(h, |s.slots|)
    ensures p.EnqCas? && p.ticket == s.head ==> Mask(p.ticket, |s.slots|) != Mask(h, |s.slots|)
    ensures p.DeqCas? && p.ticket == s.tail ==> Mask(p.ticket, |s.slots|) != Mask(h, |s.slots|)
  {
    var n := |s.slots|;
    if p.EnqWrite? || p.EnqPublish? || p.DeqRead? || p.DeqRelease? {
      Apart(p.ticket, h, n);
    } else if p.EnqCas? && p.ticket == s.head {
      NotFull(s);
      Apart(s.head, h, n);
    } else if p.DeqCas? && p.ticket == s.tail && s.tail != h {
      Apart(s.tail, h, n);
    }
  }

  lemma ClaimTailKeepsInv(s: State, t: nat)
    requires Inv(s) && t < |s.pc| && s.pc[t].DeqCas? && s.pc[t].ticket == s.tail
    ensures Inv(DequeueStep(s, t, false))
  {
    var n, h := |s.slots|, s.tail;
    var s' := DequeueStep(s, t, false);
    NotEmpty(s);
    assert TicketOk(s, h);
    SameSlot(h, n);
    forall i | s'.tail <= i < s'.tail + n ensures TicketOk(s', i) {
      if i < s.tail + n { assert TicketOk(s, i); }
    }
    forall u | 0 <= u < |s'.pc| ensures Local(s', s'.pc[u]) {
      assert Local(s, s.pc[u]);
    }
  }

  lemma ReadKeepsInv(s: State, t: nat)
    requires Inv(s) && t < |s.pc| && s.pc[t].DeqRead?
    ensures Inv(DequeueStep(s, t, false))
  {
    var s' := DequeueStep(s, t, false);
    forall i | s'.tail <= i < s'.tail + |s.slots| ensures TicketOk(s', i) {
      assert TicketOk(s, i);
    }
  }

  lemma ReleaseKeepsInv(s: State, t: nat)
    requires Inv(s) && t < |s.pc| && s.pc[t].DeqRelease?
    ensures Inv(DequeueStep(s, t, false))
  {
    var n, h := |s.slots|, s.pc[t].ticket;
    var s' := DequeueStep(s, t, false);
    SameSlot(h, n);
    forall i | s'.tail <= i < s'.tail + n ensures TicketOk(s', i) {
      assert TicketOk(s, i);
      if i != h + n { Apart(i, h + n, n); }
    }
    forall u | 0 <= u < |s'.pc| ensures Local(s', s'.pc[u]) {
      assert Local(s, s.pc[u]);
      if u != t {
        assert !Clash(s.pc[u], s.pc[t]);
        OtherSlotDrained(s, h, s.pc[u]);
      }
    }
  }

  /** The tickets other threads rely on are not in the slot that is being drained of ticket `h`. */
  lemma OtherSlotDrained(s: State, h: nat, p: Pc)
    requires Inv(s) && h < s.tail && s.head <= h + |s.slots| && SlotOf(s, h).num == h + 1 && Local(s, p)
               && !Drains(p, h)
    ensures p.EnqWrite? || p.EnqPublish? || p.DeqRead? || p.DeqRelease? ==>
              Mask(p.ticket, |s.slots|) != Mask(h, |s.slots|)
    ensures p.EnqCas? && p.ticket == s.head ==> Mask(p.ticket, |s.slots|) != Mask(h, |s.slots|)
    ensures p.DeqCas? && p.ticket == s.tail ==> Mask(p.ticket, |s.slots|) != Mask(h, |s.slots|)
  {
    var n := |s.slots|;
    SameSlot(h, n);
    if p.EnqWrite? || p.EnqPublish? || p.DeqRead? || p.DeqRelease? {
      Apart(p.ticket, h, n);
    } else if p.EnqCas? && p.ticket == s.head && s.head != h + n {
      Apart(s.head, h, n);
    } else if p.DeqCas? && p.ticket == s.tail && s.tail != h + n {
      Apart(s.tail, h, n);
    }
  }

  /** A step that changes no more than one thread's local variables and holds no ticket before or after. */
  lemma LocalKeepsInv(s: State, t: nat, p: Pc)
    requires Inv(s) && t < |s.pc| && Local(s, p)
    requires !(p.EnqWrite? || p.EnqPublish? || p.DeqRead? || p.DeqRelease?)
    ensures Inv(Goto(s, t, p))
  {
    var s' := Goto(s, t, p);
    forall i | s'.tail <= i < s'.tail + |s.slots| ensures TicketOk(s', i) {
      assert TicketOk(s, i);
    }
    forall u | 0 <= u < |s'.pc| ensures Local(s', s'.pc[u]) {
      assert Local(s, s.pc[u]);
    }
  }

  lemma EnqueueKeepsInv(s: State, t: nat, spurious: bool)
    requires Inv(s) && t < |s.pc|
    ensures Inv(EnqueueStep(s, t, spurious))
  {
    assert Local(s, s.pc[t]);
    match s.pc[t] {
      case EnqWrite(_, _) => WriteKeepsInv(s, t);
      case EnqPublish(_, _) => PublishKeepsInv(s, t);
      case EnqCas(_, h) =>
        if s.head == h && !spurious { ClaimHeadKeepsInv(s, t); } else { LocalKeepsInv(s, t, EnqReload(s.pc[t].value)); }
      case EnqLoadHead(v) => LocalKeepsInv(s, t, EnqLoadSeq(v, s.head));
      case EnqReload(v) => LocalKeepsInv(s, t, EnqLoadSeq(v, s.head));
      case EnqLoadSeq(v, h) => if SlotOf(s, h).num == h { LocalKeepsInv(s, t, EnqCas(v, h)); }
      case _ =>
    }
  }

  lemma DequeueKeepsInv(s: State, t: nat, spurious: bool)
    requires Inv(s) && t < |s.pc|
    ensures Inv(DequeueStep(s, t, spurious))
  {
    assert Local(s, s.pc[t]);
    match s.pc[t] {
      case DeqRead(_) => ReadKeepsInv(s, t);
      case DeqRelease(_, _) => ReleaseKeepsInv(s, t);
      case DeqCas(h) =>
        if s.tail == h && !spurious { ClaimTailKeepsInv(s, t); } else { LocalKeepsInv(s, t, DeqLoadSeq(s.tail)); }
      case DeqLoadTail => LocalKeepsInv(s, t, DeqLoadSeq(s.tail));
      case DeqReload => LocalKeepsInv(s, t, DeqLoadSeq(s.tail));
      case DeqLoadSeq(h) => LocalKeepsInv(s, t, DequeueStep(s, t, spurious).pc[t]);
      case _ =>
    }
  }

  lemma NextKeepsInv(s: State, c: Choice)
    requires Inv(s)
    ensures Inv(Next(s, c))
  {
    if c.t < |s.pc| {
      match c {
        case Enqueue(t, v) => if s.pc[t].Idle? { LocalKeepsInv(s, t, EnqLoadHead(v)); }
        case Dequeue(t) => if s.pc[t].Idle? { LocalKeepsInv(s, t, DeqLoadTail); }
        case Step(t, spurious) =>
          EnqueueKeepsInv(s, t, spurious);
          DequeueKeepsInv(s, t, spurious);
      }
    }
  }

  // What the numbers of the slots do.

  /** A slot's number moves only from a ticket to the next number, when that ticket is published, and from
      there to the ticket one round on, when it is released. */
  lemma SlotNumberMoves(s: State, c: Choice, j: nat)
    requires Inv(s) && j < |s.slots|
    ensures |Next(s, c).slots| == |s.slots|
    ensures var num, num' := s.slots[j].num, Next(s, c).slots[j].num;
            || num' == num
            || (c.Step? && c.t < |s.pc| && s.pc[c.t].EnqPublish? && s.pc[c.t].ticket == num && num' == num + 1)
            || (c.Step? && c.t < |s.pc| && s.pc[c.t].DeqRelease? && s.pc[c.t].ticket == num - 1
                && num' == num - 1 + |s.slots|)
  {
    if c.t < |s.pc| {
      assert Local(s, s.pc[c.t]);
    }
  }

  /** Every claimed ticket that is neither published nor released has a thread that is about to do so. */
  ghost predicate Held(s: State)
    requires s.slots != []
  {
    && (forall i :: s.tail <= i < s.head && SlotOf(s, i).num == i ==> HasFiller(s, i))
    && (forall i :: s.head <= i < s.tail + |s.slots| && SlotOf(s, i).num + |s.slots| == i + 1 ==> HasDrainer(s, i))
  }

  ghost predicate HasFiller(s: State, i: nat) {
    exists t :: 0 <= t < |s.pc| && Fills(s.pc[t], i)
  }

  ghost predicate HasDrainer(s: State, i: nat) {
    exists t :: 0 <= t < |s.pc| && (s.pc[t].DeqRead? || s.pc[t].DeqRelease?) && s.pc[t].ticket + |s.slots| == i
  }

  lemma FillerStays(s: State, c: Choice, i: nat)
    requires s.slots != [] && HasFiller(s, i) && SlotOf(Next(s, c), i).num == i
    ensures HasFiller(Next(s, c), i)
  {
    var t :| 0 <= t < |s.pc| && Fills(s.pc[t], i);
    assert Fills(Next(s, c).pc[t], i);
  }

  lemma ReleaseFreesNextRound(s: State, t: nat, spurious: bool)
    requires IsPow2(|s.slots|) && t < |s.pc| && s.pc[t].DeqRelease?
    ensures var i := s.pc[t].ticket + |s.slots|; SlotOf(Next(s, Step(t, spurious)), i).num == i
  {
    SameSlot(s.pc[t].ticket, |s.slots|);
  }

  lemma DrainerStays(s: State, c: Choice, i: nat)
    requires IsPow2(|s.slots|) && HasDrainer(s, i) && SlotOf(Next(s, c), i).num != i
    ensures HasDrainer(Next(s, c), i)
  {
    var t :| 0 <= t < |s.pc| && (s.pc[t].DeqRead? || s.pc[t].DeqRelease?) && s.pc[t].ticket + |s.slots| == i;
    if c.t == t && c.Step? && s.pc[t].DeqRelease? {
      ReleaseFreesNextRound(s, t, c.spurious);
    } else {
      var p := Next(s, c).pc[t];
      assert (p.DeqRead? || p.DeqRelease?) && p.ticket == s.pc[t].ticket;
    }
  }

  /** How the tickets move: head or tail goes up by one at a successful compare-and-exchange. */
  lemma TicketMoves(s: State, c: Choice)
    requires Inv(s)
    ensures var s' := Next(s, c);
            || (s'.head == s.head && s'.tail == s.tail)
            || (s'.head == s.head + 1 && s'.tail == s.tail && c.t < |s'.pc| && Fills(s'.pc[c.t], s.head)
                && s'.slots == s.slots)
            || (s'.head == s.head && s'.tail == s.tail + 1 && c.t < |s'.pc| && s'.pc[c.t] == DeqRead(s.tail)
                && s'.slots == s.slots && s.tail < s.head && SlotOf(s, s.tail).num == s.tail + 1)
  {
    if c.t < |s.pc| {
      assert Local(s, s.pc[c.t]);
      if s.pc[c.t].DeqCas? && s.pc[c.t].ticket == s.tail {
        NotEmpty(s);
      }
    }
  }

  lemma NextKeepsFillers(s: State, c: Choice, i: nat)
    requires Inv(s) && Held(s)
    requires Next(s, c).slots != []
    requires Next(s, c).tail <= i < Next(s, c).head && SlotOf(Next(s, c), i).num == i
    ensures HasFiller(Next(s, c), i)
  {
    TicketMoves(s, c);
    if i < s.head {
      assert TicketOk(s, i);
      SlotNumberMoves(s, c, Mask(i, |s.slots|));
      FillerStays(s, c, i);
    }
  }

  lemma NextKeepsDrainers(s: State, c: Choice, i: nat)
    requires Inv(s) && Held(s)
    requires Next(s, c).slots != []
    requires Next(s, c).head <= i < Next(s, c).tail + |s.slots| && SlotOf(Next(s, c), i).num + |s.slots| == i + 1
    ensures HasDrainer(Next(s, c), i)
  {
    TicketMoves(s, c);
    if i < s.tail + |s.slots| {
      assert TicketOk(s, i);
      SlotNumberMoves(s, c, Mask(i, |s.slots|));
      DrainerStays(s, c, i);
    }
  }

  lemma NextKeepsHeld(s: State, c: Choice)
    requires Inv(s) && Held(s)
    ensures Next(s, c).slots != [] && Held(Next(s, c))
  {
    NextKeepsInv(s, c);
    SlotNumberMoves(s, c, 0);
    var s' := Next(s, c);
    forall i: nat | s'.tail <= i < s'.head && SlotOf(s', i).num == i ensures HasFiller(s', i) {
      NextKeepsFillers(s, c, i);
    }
    forall i: nat | s'.head <= i < s'.tail + |s'.slots| && SlotOf(s', i).num + |s'.slots| == i + 1
      ensures HasDrainer(s', i)
    {
      NextKeepsDrainers(s, c, i);
    }
  }

  /** The slot of a ticket that has been taken never shows a number up to that ticket again. */
  ghost predicate Passed(s: State)
    requires s.slots != []
  {
    forall i: nat :: i < s.tail ==> SlotOf(s, i).num > i
  }

  lemma NextKeepsPassed(s: State, c: Choice)
    requires Inv(s) && Passed(s)
    ensures Next(s, c).slots != [] && Passed(Next(s, c))
  {
    var s' := Next(s, c);
    NextKeepsInv(s, c);
    forall i: nat | i < s'.tail ensures SlotOf(s', i).num > i {
      TicketMoves(s, c);
      SlotNumberMoves(s, c, Mask(i, |s.slots|));
      assert i < s.tail ==> SlotOf(s, i).num > i;
    }
  }

  // Reachable states.

  ghost predicate Reachable(size: nat, threads: nat, s: State) {
    Reaches(Next, Init(size, threads), s)
  }

  ghost predicate Good(s: State) { Inv(s) && Held(s) && Passed(s) }

  lemma GoodInductive()
    ensures Inductive(Next, Good)
  {
    forall s: State, c: Choice | Good(s) ensures Good(Next(s, c)) {
      NextKeepsInv(s, c);
      NextKeepsHeld(s, c);
      NextKeepsPassed(s, c);
    }
  }

  lemma ReachableGood(size: nat, threads: nat, s: State)
    requires size >= 2 && IsPow2(size) && Reachable(size, threads, s)
    ensures Good(s)
  {
    InitInv(size, threads);
    forall i: nat | i < size ensures SlotOf(Init(size, threads), i).num == i {
      MaskIsMod(i, size);
      SmallMod(i, size);
    }
    GoodInductive();
    ReachesKeeps(Next, Good, Init(size, threads), s);
  }

  // The ring is a FIFO of tickets.

  /** The abstract queue: the values of the tickets given out to producers and not yet to consumers. */
  function Queue(s: State): seq<int>
    requires s.tail <= |s.log|
  {
    s.log[s.tail..]
  }

  /** Each step is an enqueue, a dequeue or nothing to the abstract queue; the first two are the successful
      compare-and-exchanges, and the queue is never over its size. */
  lemma NextRefinesFifo(s: State, c: Choice)
    requires Inv(s)
    ensures Inv(Next(s, c)) && |Queue(s)| <= |s.slots| == |Next(s, c).slots|
    ensures var s' := Next(s, c);
            || (Queue(s') == Queue(s) && s'.head == s.head && s'.tail == s.tail)
            || (c.Step? && s.pc[c.t].EnqCas? && |Queue(s)| < |s.slots|
                && Queue(s') == Queue(s) + [s.pc[c.t].value] && s'.pc[c.t] == EnqWrite(s.pc[c.t].value, s.head))
            || (c.Step? && s.pc[c.t].DeqCas? && Queue(s) != []
                && Queue(s') == Queue(s)[1..] && s'.pc[c.t] == DeqRead(s.tail) && s.log[s.tail] == Queue(s)[0])
    ensures s.log <= Next(s, c).log
  {
    NextKeepsInv(s, c);
    if c.t < |s.pc| && c.Step? {
      EnqueueRefines(s, c.t, c.spurious);
      DequeueRefines(s, c.t, c.spurious);
      hide EnqueueStep, DequeueStep;
    }
    hide Inv, Mask;
  }

  lemma EnqueueRefines(s: State, t: nat, spurious: bool)
    requires Inv(s) && t < |s.pc|
    ensures var s' := EnqueueStep(s, t, spurious);
            && s'.tail == s.tail && |s'.slots| == |s.slots| && |s'.pc| == |s.pc|
            && ((s'.log == s.log && s'.head == s.head)
                || (s.pc[t].EnqCas? && |Queue(s)| < |s.slots| && s'.log == s.log + [s.pc[t].value]
                    && s'.pc[t] == EnqWrite(s.pc[t].value, s.head)))
  {
    assert Local(s, s.pc[t]);
    if s.pc[t].EnqCas? && s.pc[t].ticket == s.head { NotFull(s); }
    hide Inv, Mask;
  }

  lemma DequeueRefines(s: State, t: nat, spurious: bool)
    requires Inv(s) && t < |s.pc|
    ensures var s' := DequeueStep(s, t, spurious);
            && s'.head == s.head && s'.log == s.log && |s'.slots| == |s.slots| && |s'.pc| == |s.pc|
            && (s'.tail == s.tail
                || (s.pc[t].DeqCas? && s.tail < s.head && s'.tail == s.tail + 1 && s'.pc[t] == DeqRead(s.tail)))
  {
    assert Local(s, s.pc[t]);
    if s.pc[t].DeqCas? && s.pc[t].ticket == s.tail { NotEmpty(s); }
    hide Inv, Mask;
  }

  /** A consumer returns, once for each ticket it took, the value enqueued under that ticket. */
  lemma ReturnsWhatWasEnqueued(s: State, c: Choice)
    requires Inv(s)
    ensures var s' := Next(s, c);
            || s'.received == s.received
            || (exists i :: i !in s.received && i < s.tail && s.pc[c.t].DeqRelease? && s.pc[c.t].ticket == i
                            && s.pc[c.t].value == s.log[i] && s'.received == s.received[i := s.log[i]])
    ensures forall i :: i in s.received ==> s.received[i] == s.log[i]
  {
    if c.t < |s.pc| {
      assert Local(s, s.pc[c.t]);
    }
  }

  /** No slot's data is touched by two threads at once. */
  lemma NoDataConflict(s: State, t: nat, u: nat)
    requires Inv(s) && t < |s.pc| && u < |s.pc| && t != u
    requires (s.pc[t].EnqWrite? || s.pc[t].DeqRead?) && (s.pc[u].EnqWrite? || s.pc[u].DeqRead?)
    ensures Mask(s.pc[t].ticket, |s.slots|) != Mask(s.pc[u].ticket, |s.slots|)
  {
    assert Local(s, s.pc[t]) && Local(s, s.pc[u]) && !Clash(s.pc[t], s.pc[u]);
    Apart(s.pc[t].ticket, s.pc[u].ticket, |s.slots|);
  }

  predicate InEnqueue(p: Pc) {
    p.EnqLoadHead? || p.EnqLoadSeq? || p.EnqCas? || p.EnqReload? || p.EnqWrite? || p.EnqPublish?
  }

  predicate InDequeue(p: Pc) { !p.Idle? && !InEnqueue(p) }

  /** The next ticket to take is not published. */
  predicate Unpublished(s: State) {
    s.slots != [] && SlotOf(s, s.tail).num != s.tail + 1
  }

  /** What thread `t` may rely on in a good state. */
  lemma GoodAt(s: State, t: nat)
    requires Good(s) && t < |s.pc|
    ensures s.slots != [] && s.tail <= |s.log| == s.head && Local(s, s.pc[t])
    ensures s.pc[t].DeqLoadSeq? && s.pc[t].ticket < s.tail ==> SlotOf(s, s.pc[t].ticket).num > s.pc[t].ticket
    ensures Unpublished(s) ==> (Queue(s) == [] || HasFiller(s, s.tail)) && SlotOf(s, s.tail).num <= s.tail
    ensures s.pc[t].DeqCas? && s.pc[t].ticket == s.tail ==> s.tail < s.head
  {
    assert TicketOk(s, s.tail);
    if s.pc[t].DeqCas? && s.pc[t].ticket == s.tail { NotEmpty(s); }
  }

  /** A step of a dequeue makes it return false exactly when it looks at the ticket that is still the next one to
      take and finds it unpublished: the queue is empty, or the thread that claimed its first ticket has not finished
      writing. */
  lemma DequeueFailsIffUnpublished(s: State, t: nat, spurious: bool)
    requires Good(s) && t < |s.pc| && InDequeue(s.pc[t])
    ensures var s' := Next(s, Step(t, spurious));
            var fails := |s'.pc| == |s.pc| && s'.pc[t].Idle? && s'.received == s.received;
            && (fails <==> s.pc[t].DeqLoadSeq? && s.pc[t].ticket == s.tail && Unpublished(s))
            && (fails ==> Queue(s) == [] || HasFiller(s, s.tail))
  {
    GoodAt(s, t);
    hide Good, Mask, Queue;
  }

  /** One more ticket is returned, with the value enqueued under it. */
  ghost predicate Delivers(s: State, s': State) {
    exists h: nat :: h !in s.received && h < s.tail <= |s.log| && s'.received == s.received[h := s.log[h]]
  }

  /** A dequeue ends in two ways: it returns the value enqueued under a ticket that has not been returned before, or
      the next ticket to take is unpublished at that very step. */
  lemma LeavesDequeue(s: State, c: Choice)
    requires Good(s) && c.t < |s.pc| && InDequeue(s.pc[c.t])
    ensures var s' := Next(s, c);
            |s'.pc| == |s.pc| && (s'.pc[c.t].Idle? ==>
              || Delivers(s, s')
              || (s'.received == s.received && Unpublished(s) && (Queue(s) == [] || HasFiller(s, s.tail))))
  {
    GoodAt(s, c.t);
    hide Good, Mask;
  }

  /** An enqueue ends in one way: with its own value published under a ticket that it has claimed. */
  lemma LeavesEnqueue(s: State, c: Choice)
    requires Good(s) && c.t < |s.pc| && InEnqueue(s.pc[c.t])
    ensures var s' := Next(s, c);
            |s'.pc| == |s.pc| && (s'.pc[c.t].Idle? ==>
              && s.pc[c.t].EnqPublish? && s.pc[c.t].ticket < s'.head <= |s'.log| && s'.slots != []
              && s'.log[s.pc[c.t].ticket] == s.pc[c.t].value
              && SlotOf(s', s.pc[c.t].ticket) == Slot(s.pc[c.t].value, s.pc[c.t].ticket + 1))
  {
    GoodAt(s, c.t);
    hide Good, Mask;
  }

  // Every call takes effect once, with its own value, and returns what it did.

  datatype Call = Put(value: int) | Get

  datatype Effect = Appended(value: int) | Took(value: int) | FoundNone

  datatype Reply = Done | Got(value: int) | Nothing

  function Asks(e: Effect): Call {
    if e.Appended? then Put(e.value) else Get
  }

  function Answers(e: Effect): Reply {
    match e case Appended(_) => Done case Took(v) => Got(v) case FoundNone => Nothing
  }

  /** The calls that thread `t` begins. */
  function Calls(t: nat): (State, Choice) -> Option<Call> {
    (s: State, c: Choice) =>
      if c.t != t || t >= |s.pc| || s.slots == [] || !s.pc[t].Idle? then None
      else match c case Enqueue(_, v) => Some(Put(v)) case Dequeue(_) => Some(Get) case _ => None
  }

  predicate Ends(s: State, c: Choice) {
    var s' := Next(s, c);
    c.t < |s.pc| && c.t < |s'.pc| && !s.pc[c.t].Idle? && s'.pc[c.t].Idle?
  }

  /** What a step does to the abstract queue, or learns of it: a dequeue that ends without a value saw the next
      ticket unpublished. */
  function EffectOf(s: State, c: Choice): Option<Effect> {
    var s' := Next(s, c);
    if |s.log| < |s'.log| then Some(Appended(s'.log[|s.log|]))
    else if s.tail < s'.tail && s.tail < |s.log| then Some(Took(s.log[s.tail]))
    else if Ends(s, c) && InDequeue(s.pc[c.t]) && s'.received == s.received && Unpublished(s) then Some(FoundNone)
    else None
  }

  /** What a step that ends a call returns. */
  function ReplyOf(s: State, c: Choice): Option<Reply> {
    var s' := Next(s, c);
    if !Ends(s, c) then None
    else if InEnqueue(s.pc[c.t]) then Some(Done)
    else if s.pc[c.t].DeqRelease? && s.pc[c.t].ticket in s'.received then Some(Got(s'.received[s.pc[c.t].ticket]))
    else Some(Nothing)
  }

  function Effects(t: nat): (State, Choice) -> Option<Effect> {
    (s: State, c: Choice) => if c.t == t then EffectOf(s, c) else None
  }

  function Replies(t: nat): (State, Choice) -> Option<Reply> {
    (s: State, c: Choice) => if c.t == t then ReplyOf(s, c) else None
  }

  function AskedAt(p: Pc): Option<Call> {
    if p.EnqLoadHead? || p.EnqLoadSeq? || p.EnqCas? || p.EnqReload? then Some(Put(p.value))
    else if p.DeqLoadTail? || p.DeqLoadSeq? || p.DeqCas? || p.DeqReload? then Some(Get)
    else None
  }

  function DueAt(log: seq<int>, p: Pc): Option<Reply> {
    if p.EnqWrite? || p.EnqPublish? then Some(Done)
    else if (p.DeqRead? || p.DeqRelease?) && p.ticket < |log| then Some(Got(log[p.ticket]))
    else None
  }

  /** The call of thread `t` that has not taken effect, if any. */
  function Asked(t: nat): State -> Option<Call> {
    (s: State) => if t < |s.pc| then AskedAt(s.pc[t]) else None
  }

  /** The reply that thread `t` has still to give, if any. */
  function Due(t: nat): State -> Option<Reply> {
    (s: State) => if t < |s.pc| then DueAt(s.log, s.pc[t]) else None
  }

  /** The effect is one of a FIFO, or of a dequeue that a producer keeps waiting. */
  predicate Fifo(queue: seq<int>, queue': seq<int>, done: Option<Effect>) {
    match done
    case None => queue' == queue
    case Some(Appended(v)) => queue' == queue + [v]
    case Some(Took(v)) => queue != [] && v == queue[0] && queue' == queue[1..]
    case Some(FoundNone) => queue' == queue
  }

  /** The step of thread `c.t` passes its call on to the effect. */
  predicate Asking(s: State, c: Choice)
    requires c.t < |s.pc|
  {
    var s' := Next(s, c);
    && |s'.pc| == |s.pc|
    && Passes(AskedAt(s.pc[c.t]), Calls(c.t)(s, c), MapOption(Asks, EffectOf(s, c)), AskedAt(s'.pc[c.t]))
  }

  /** It passes the effect on to the reply. */
  predicate Answering(s: State, c: Choice)
    requires c.t < |s.pc|
  {
    var s' := Next(s, c);
    && |s'.pc| == |s.pc|
    && Passes(DueAt(s.log, s.pc[c.t]), MapOption(Answers, EffectOf(s, c)), ReplyOf(s, c), DueAt(s'.log, s'.pc[c.t]))
  }

  lemma EnqueueAsks(s: State, c: Choice)
    requires Good(s) && c.t < |s.pc| && c.Step? && InEnqueue(s.pc[c.t])
    ensures Asking(s, c)
  {
    GoodAt(s, c.t);
    hide Good, Mask;
  }

  lemma EnqueueAnswers(s: State, c: Choice)
    requires Good(s) && c.t < |s.pc| && c.Step? && InEnqueue(s.pc[c.t])
    ensures Answering(s, c)
  {
    GoodAt(s, c.t);
    hide Good, Mask;
  }

  lemma DequeueAsks(s: State, c: Choice)
    requires Good(s) && c.t < |s.pc| && c.Step? && !InEnqueue(s.pc[c.t])
    ensures Asking(s, c)
  {
    GoodAt(s, c.t);
    hide Good, Mask;
  }

  lemma DequeueAnswers(s: State, c: Choice)
    requires Good(s) && c.t < |s.pc| && c.Step? && !InEnqueue(s.pc[c.t])
    ensures Answering(s, c)
  {
    GoodAt(s, c.t);
    hide Good, Mask;
  }

  lemma BeginServes(s: State, c: Choice)
    requires Good(s) && c.t < |s.pc| && !c.Step?
    ensures Asking(s, c) && Answering(s, c)
  {
    GoodAt(s, c.t);
    hide Good, Mask;
  }

  lemma StepServes(s: State, c: Choice)
    requires Good(s) && c.t < |s.pc|
    ensures Asking(s, c) && Answering(s, c)
  {
    hide Asking, Answering, Good, Next;
    if !c.Step? {
      BeginServes(s, c);
    } else if InEnqueue(s.pc[c.t]) {
      EnqueueAsks(s, c);
      EnqueueAnswers(s, c);
    } else {
      DequeueAsks(s, c);
      DequeueAnswers(s, c);
    }
  }

  lemma OthersStay(s: State, c: Choice, t: nat)
    requires Good(s) && c.t != t && t < |s.pc|
    ensures t < |Next(s, c).pc| && Next(s, c).pc[t] == s.pc[t]
    ensures DueAt(Next(s, c).log, s.pc[t]) == DueAt(s.log, s.pc[t])
  {
    GoodAt(s, t);
    NextRefinesFifo(s, c);
    hide Good, Mask, Queue;
    if c.t < |s.pc| && c.Step? {
      EnqueueMovesOne(s, c.t, c.spurious);
      DequeueMovesOne(s, c.t, c.spurious);
      hide EnqueueStep, DequeueStep;
    }
  }

  lemma NextServes(s: State, c: Choice, t: nat)
    requires Good(s)
    ensures Passes(Asked(t)(s), Calls(t)(s, c), MapOption(Asks, Effects(t)(s, c)), Asked(t)(Next(s, c)))
    ensures Passes(Due(t)(s), MapOption(Answers, Effects(t)(s, c)), Replies(t)(s, c), Due(t)(Next(s, c)))
  {
    if c.t < |s.pc| {
      StepServes(s, c);
      if c.t != t && t < |s.pc| { OthersStay(s, c, t); }
      hide Next;
    }
    hide Good, EffectOf, ReplyOf, AskedAt, DueAt;
  }

  /** In every run the calls of each thread take effect one by one in the order they were made, each once, an
      enqueue with the value it was called with; the replies tell those effects in that order; and at each moment
      at most one call waits for its effect, and at most one effect for its reply. */
  lemma CallsAreServed(size: nat, threads: nat, sched: seq<Choice>, t: nat)
    requires size >= 2 && IsPow2(size)
    ensures var s0 := Init(size, threads);
            var s, done := Exec(Next, s0, sched), Collect(Next, Effects(t), s0, sched);
            && Collect(Next, Calls(t), s0, sched) == Map(Asks, done) + Listed(Asked(t)(s))
            && Map(Answers, done) == Collect(Next, Replies(t), s0, sched) + Listed(Due(t)(s))
  {
    var s0 := Init(size, threads);
    ReachesSelf<State, Choice>(Next, s0);
    ReachableGood(size, threads, s0);
    GoodInductive();
    hide Good, Next;
    forall s: State, c: Choice | Good(s)
      ensures Passes(Asked(t)(s), Calls(t)(s, c), MapOption(Asks, Effects(t)(s, c)), Asked(t)(Next(s, c)))
      ensures Passes(Due(t)(s), MapOption(Answers, Effects(t)(s, c)), Replies(t)(s, c), Due(t)(Next(s, c)))
    {
      NextServes(s, c, t);
    }
    CallsTakeEffect(Next, Good, Calls(t), Effects(t), Replies(t), Asks, Answers, Asked(t), Due(t), s0, sched);
  }

  /** And the effects are those of a FIFO, step by step. */
  lemma EffectIsFifo(s: State, c: Choice)
    requires Inv(s)
    ensures Inv(Next(s, c)) && Fifo(Queue(s), Queue(Next(s, c)), EffectOf(s, c))
  {
    NextRefinesFifo(s, c);
    if c.t < |s.pc| { assert Local(s, s.pc[c.t]); }
    hide Inv, Next, Mask;
  }

  /** Dequeue can fail while a later ticket is published: thread 0 has claimed ticket 0 and not written it yet. */
  lemma FailsThoughPublished(size: nat, threads: nat) returns (s: State)
    requires size >= 2 && IsPow2(size) && threads >= 2
    ensures Reachable(size, threads, s) && |s.pc| == threads && s.slots != [] && s.tail == 0 && |s.log| == 2
    ensures s.pc[1] == DeqLoadSeq(0) && Next(s, Step(1, false)).pc[1].Idle? && SlotOf(s, 1).num == 2
  {
    var s0 := Init(size, threads);
    MaskIsMod(0, size);
    MaskIsMod(1, size);
    SmallMod(0, size);
    SmallMod(1, size);
    ReachesSelf(Next, s0);
    hide Reaches;
    s := Go(Next, s0, s0, Enqueue(0, 7));
    s := Go(Next, s0, s, Step(0, false));
    s := Go(Next, s0, s, Step(0, false));
    s := Go(Next, s0, s, Step(0, false));
    assert s == s0.(head := 1, log := [7], pc := s0.pc[0 := EnqWrite(7, 0)]);
    s := EnqueueRun(s0, s, 1, 8);
    s := Go(Next, s0, s, Dequeue(1));
    s := Go(Next, s0, s, Step(1, false));
  }

  // The enqueue loop as it is bracketed.

  /** A producer looking for ticket `h` after `h` has been published. */
  function Stale(t: nat, value: int, h: nat): State -> bool {
    (s: State) =>
      t < |s.pc| && s.pc[t] == EnqLoadSeq(value, h) && s.slots != [] && SlotOf(s, h).num > h
  }

  lemma StaleStays(s: State, c: Choice, t: nat, value: int, h: nat)
    requires Inv(s) && Stale(t, value, h)(s)
    ensures Inv(Next(s, c)) && Stale(t, value, h)(Next(s, c))
  {
    NextKeepsInv(s, c);
    SlotNumberRises(s, c, Mask(h, |s.slots|));
    StaleLoops(s, c, t, value, h);
    hide Inv, Next;
  }

  lemma SlotNumberRises(s: State, c: Choice, j: nat)
    requires Inv(s) && j < |s.slots|
    ensures |Next(s, c).slots| == |s.slots| && Next(s, c).slots[j].num >= s.slots[j].num
  {
    SlotNumberMoves(s, c, j);
    hide Inv, Next;
  }

  lemma StaleLoops(s: State, c: Choice, t: nat, value: int, h: nat)
    requires Stale(t, value, h)(s)
    ensures t < |Next(s, c).pc| && Next(s, c).pc[t] == EnqLoadSeq(value, h)
  {
    hide Mask;
    if c.t == t {
      assert Next(s, c) == s;
    } else if c.t < |s.pc| && c.Step? {
      EnqueueMovesOne(s, c.t, c.spurious);
      DequeueMovesOne(s, c.t, c.spurious);
      hide EnqueueStep, DequeueStep;
    }
  }

  lemma EnqueueMovesOne(s: State, t: nat, spurious: bool)
    requires t < |s.pc| && s.slots != []
    ensures var s' := EnqueueStep(s, t, spurious);
            |s'.pc| == |s.pc| && forall u :: 0 <= u < |s.pc| && u != t ==> s'.pc[u] == s.pc[u]
  {
    hide Mask;
  }

  lemma DequeueMovesOne(s: State, t: nat, spurious: bool)
    requires t < |s.pc| && s.slots != []
    ensures var s' := DequeueStep(s, t, spurious);
            |s'.pc| == |s.pc| && forall u :: 0 <= u < |s.pc| && u != t ==> s'.pc[u] == s.pc[u]
  {
    hide Mask;
  }

  /** Such a producer loops for ever: in no run does it reach its compare-and-exchange again. */
  lemma StaleProducerSpins(s: State, t: nat, value: int, h: nat, sched: seq<Choice>)
    requires Inv(s) && Stale(t, value, h)(s)
    ensures Stale(t, value, h)(Exec(Next, s, sched))
  {
    hide Inv, Stale, Next;
    var inv := (s: State) => Inv(s) && Stale(t, value, h)(s);
    forall s: State, c: Choice | inv(s) ensures inv(Next(s, c)) {
      StaleStays(s, c, t, value, h);
    }
    ExecKeeps(Next, inv, s, sched);
  }

  /** A producer that looks for the current ticket goes round the loop without effect exactly while the ring is
      full or a consumer has yet to release the slot; it never reports that the ring is full. */
  lemma WaitsIffOccupied(s: State, t: nat, spurious: bool)
    requires Good(s) && t < |s.pc| && s.pc[t].EnqLoadSeq? && s.pc[t].ticket == s.head
    ensures Next(s, Step(t, spurious)) == s <==> s.head == s.tail + |s.slots| || HasDrainer(s, s.head)
  {
    OccupiedIff(s);
    hide Inv, Held, Passed;
    assert SlotOf(s, s.head).num == s.head ==> Next(s, Step(t, spurious)).pc[t].EnqCas?;
  }

  lemma OccupiedIff(s: State)
    requires Good(s)
    ensures SlotOf(s, s.head).num != s.head <==> s.head == s.tail + |s.slots| || HasDrainer(s, s.head)
  {
    if s.head == s.tail + |s.slots| {
      assert TicketOk(s, s.tail);
      SameSlot(s.tail, |s.slots|);
    } else {
      assert TicketOk(s, s.head);
      if t: nat :| t < |s.pc| && (s.pc[t].DeqRead? || s.pc[t].DeqRelease?) && s.pc[t].ticket + |s.slots| == s.head {
        assert Local(s, s.pc[t]);
        SameSlot(s.pc[t].ticket, |s.slots|);
      }
    }
  }

  /** Losing one race is enough: with two threads and an almost empty ring a producer can be left spinning. */
  lemma StaleProducerReachable(size: nat, threads: nat) returns (s: State)
    requires size >= 2 && IsPow2(size) && threads >= 2
    ensures Reachable(size, threads, s) && Stale(0, 7, 0)(s) && s.tail <= |s.log| && |Queue(s)| == 1
  {
    var s0 := Init(size, threads);
    MaskIsMod(0, size);
    SmallMod(0, size);
    ReachesSelf(Next, s0);
    s := Go(Next, s0, s0, Enqueue(0, 7));
    s := Go(Next, s0, s, Step(0, false));
    s := EnqueueRun(s0, s, 1, 8);
  }

  /** Thread `t` alone enqueues `value` under the next ticket, whose slot is free. */
  lemma EnqueueRun(s0: State, s: State, t: nat, value: int) returns (s': State)
    requires Reaches(Next, s0, s) && t < |s.pc| && s.pc[t].Idle?
    requires s.slots != [] && SlotOf(s, s.head).num == s.head
    ensures Reaches(Next, s0, s')
    ensures s' == s.(head := s.head + 1, log := s.log + [value], slots := s'.slots)
    ensures s'.slots == s.slots[Mask(s.head, |s.slots|) := Slot(value, s.head + 1)]
  {
    s' := Go(Next, s0, s, Enqueue(t, value));
    s' := Go(Next, s0, s', Step(t, false));
    s' := Go(Next, s0, s', Step(t, false));
    assert s' == s.(pc := s.pc[t := EnqCas(value, s.head)]);
    s' := Go(Next, s0, s', Step(t, false));
    s' := Go(Next, s0, s', Step(t, false));
    s' := Go(Next, s0, s', Step(t, false));
    assert s'.pc == s.pc;
  }

  /** Thread `t` alone dequeues the value under the next ticket, which is published. */
  lemma DequeueRun(s0: State, s: State, t: nat) returns (s': State)
    requires Reaches(Next, s0, s) && t < |s.pc| && s.pc[t].Idle?
    requires s.slots != [] && SlotOf(s, s.tail).num == s.tail + 1
    ensures Reaches(Next, s0, s') && s'.tail == s.tail + 1 && s'.head == s.head && s'.pc == s.pc
    ensures s'.slots == s.slots[Mask(s.tail, |s.slots|) := SlotOf(s, s.tail).(num := s.tail + |s.slots|)]
  {
    hide Reaches;
    s' := Go(Next, s0, s, Dequeue(t));
    s' := Go(Next, s0, s', Step(t, false));
    s' := Go(Next, s0, s', Step(t, false));
    assert s' == s.(pc := s.pc[t := DeqCas(s.tail)]);
    s' := Go(Next, s0, s', Step(t, false));
    s' := Go(Next, s0, s', Step(t, false));
    assert s' == s.(tail := s.tail + 1, pc := s.pc[t := DeqRelease(SlotOf(s, s.tail).data, s.tail)]);
    s' := Go(Next, s0, s', Step(t, false));
    assert s'.pc == s.pc;
  }

  // When a producer can still get its ticket.

  /** Some run takes producer `t` on to its compare-and-exchange under the ticket it looks for. */
  ghost predicate CanStillClaim(s: State, t: nat, value: int, h: nat) {
    exists s' :: Reaches(Next, s, s') && t < |s'.pc| && s'.pc[t] == EnqCas(value, h)
  }

  /** Looks for a ticket to enqueue under. */
  predicate Looks(p: Pc) { p.EnqLoadHead? || p.EnqLoadSeq? || p.EnqCas? || p.EnqReload? }

  /** A producer can still get its ticket exactly if the slot carries it, or carries a lower number and some other
      thread is not itself looking for a ticket.  If the number is higher it loops for ever; if it is lower, one
      other thread and those under way are enough to free the slot, and without one all are stuck at a full ring. */
  lemma CanStillClaimIff(s: State, t: nat)
    requires Good(s) && t < |s.pc| && s.pc[t].EnqLoadSeq?
    ensures var h := s.pc[t].ticket;
            CanStillClaim(s, t, s.pc[t].value, h) <==>
              || SlotOf(s, h).num == h
              || (SlotOf(s, h).num < h && exists u :: 0 <= u < |s.pc| && u != t && !Looks(s.pc[u]))
  {
    var v, h := s.pc[t].value, s.pc[t].ticket;
    if SlotOf(s, h).num > h {
      if s' :| Reaches(Next, s, s') && t < |s'.pc| && s'.pc[t] == EnqCas(v, h) {
        var sched :| Exec(Next, s, sched) == s';
        StaleProducerSpins(s, t, v, h, sched);
      }
    } else if SlotOf(s, h).num == h {
      ReachesSelf(Next, s);
      ClaimNow(s, s, t);
    } else if u: nat :| u < |s.pc| && u != t && !Looks(s.pc[u]) {
      LowNumberIsHead(s, t);
      var s' := FreeHeadSlot(s, t, u);
      ClaimNow(s, s', t);
    } else {
      LowNumberIsHead(s, t);
      AllLookForEver(s, t);
    }
  }

  lemma ClaimNow(s0: State, s: State, t: nat)
    requires Reaches(Next, s0, s) && t < |s.pc| && s.pc[t].EnqLoadSeq? && s.slots != []
    requires SlotOf(s, s.pc[t].ticket).num == s.pc[t].ticket
    ensures CanStillClaim(s0, t, s.pc[t].value, s.pc[t].ticket)
  {
    hide Reaches;
    var s' := Go(Next, s0, s, Step(t, false));
    assert Reaches(Next, s0, s') && s'.pc[t] == EnqCas(s.pc[t].value, s.pc[t].ticket);
  }

  /** Every thread looks for a ticket, and the slot of the next one is occupied. */
  ghost predicate AllLook(s: State, t: nat, value: int) {
    && Inv(s) && SlotOf(s, s.head).num < s.head && t < |s.pc| && s.pc[t] == EnqLoadSeq(value, s.head)
    && forall u :: 0 <= u < |s.pc| ==> Looks(s.pc[u])
  }

  lemma NextKeepsAllLook(s: State, c: Choice, t: nat, value: int)
    requires AllLook(s, t, value)
    ensures AllLook(Next(s, c), t, value) && Next(s, c).head == s.head
  {
    NextKeepsInv(s, c);
    if c.t < |s.pc| {
      assert Looks(s.pc[c.t]) && Local(s, s.pc[c.t]);
      hide Inv, DequeueStep;
      if c.Step? { EnqueueMovesOne(s, c.t, c.spurious); }
    }
  }

  lemma AllLookForEver(s: State, t: nat)
    requires Good(s) && t < |s.pc| && s.pc[t].EnqLoadSeq? && s.pc[t].ticket == s.head
    requires SlotOf(s, s.head).num < s.head && forall u :: 0 <= u < |s.pc| && u != t ==> Looks(s.pc[u])
    ensures !CanStillClaim(s, t, s.pc[t].value, s.head)
  {
    var v, h := s.pc[t].value, s.head;
    var inv := (s: State) => AllLook(s, t, v) && s.head == h;
    hide AllLook, Next;
    assert inv(s) by { AllLookNow(s, t); }
    forall s: State, c: Choice | inv(s) ensures inv(Next(s, c)) {
      NextKeepsAllLook(s, c, t, v);
    }
    forall s' | Reaches(Next, s, s') ensures t < |s'.pc| && s'.pc[t] == EnqLoadSeq(v, h) {
      ReachesKeeps(Next, inv, s, s');
      AllLookAt(s', t, v);
    }
  }

  lemma AllLookNow(s: State, t: nat)
    requires Inv(s) && t < |s.pc| && s.pc[t].EnqLoadSeq? && s.pc[t].ticket == s.head
    requires SlotOf(s, s.head).num < s.head && forall u :: 0 <= u < |s.pc| && u != t ==> Looks(s.pc[u])
    ensures AllLook(s, t, s.pc[t].value)
  {
  }

  lemma AllLookAt(s: State, t: nat, value: int)
    requires AllLook(s, t, value)
    ensures t < |s.pc| && s.pc[t] == EnqLoadSeq(value, s.head)
  {
  }

  lemma LowNumberIsHead(s: State, t: nat)
    requires Good(s) && t < |s.pc| && s.pc[t].EnqLoadSeq? && SlotOf(s, s.pc[t].ticket).num < s.pc[t].ticket
    ensures s.pc[t].ticket == s.head
  {
    assert Local(s, s.pc[t]);
    ClaimedNumbers(s);
  }

  lemma ClaimedNumbers(s: State)
    requires Good(s)
    ensures forall i: nat :: i < s.head ==> SlotOf(s, i).num >= i
  {
    forall i: nat | s.tail <= i < s.head ensures SlotOf(s, i).num >= i {
      assert TicketOk(s, i);
    }
  }

  /** In a full ring, whoever fills the oldest ticket publishes it. */
  lemma PublishTail(s: State, t: nat, u: nat) returns (s': State)
    requires Good(s) && t < |s.pc| && u < |s.pc| && t != u && s.pc[t].EnqLoadSeq? && !Looks(s.pc[u])
    requires s.head == s.tail + |s.slots|
    ensures Reaches(Next, s, s') && |s'.slots| == |s.slots| && |s'.pc| == |s.pc| && s'.pc[t] == s.pc[t]
    ensures s'.tail == s.tail && s'.head == s.head && !Looks(s'.pc[u]) && SlotOf(s', s.tail).num == s.tail + 1
  {
    assert TicketOk(s, s.tail);
    s' := s;
    var tail := s.tail;
    ReachesSelf(Next, s);
    hide Reaches;
    if SlotOf(s, tail).num == tail {
      assert HasFiller(s, tail);
      hide Inv, Held, Passed;
      var w: nat :| w < |s.pc| && Fills(s.pc[w], tail);
      s' := PublishRun(s, s, w);
    }
  }

  /** A full ring has nobody between a claim and a release. */
  lemma NoDrainerWhenFull(s: State)
    requires Inv(s) && s.head == s.tail + |s.slots|
    ensures forall u :: 0 <= u < |s.pc| ==> !s.pc[u].DeqRead? && !s.pc[u].DeqRelease?
  {
    forall u | 0 <= u < |s.pc| ensures !s.pc[u].DeqRead? && !s.pc[u].DeqRelease? {
      assert Local(s, s.pc[u]);
    }
  }

  /** A thread that is not looking for a ticket comes to look at the tail. */
  lemma LookAtTail(s0: State, s: State, u: nat) returns (s': State)
    requires Reaches(Next, s0, s) && Good(s) && u < |s.pc| && s.head == s.tail + |s.slots|
    requires s.pc[u].Idle? || s.pc[u].DeqLoadTail? || s.pc[u].DeqReload? || s.pc[u].DeqCas? || s.pc[u].DeqLoadSeq?
    ensures Reaches(Next, s0, s') && s' == s.(pc := s.pc[u := DeqLoadSeq(s.tail)])
  {
    assert Local(s, s.pc[u]);
    assert s.pc[u].DeqLoadSeq? && s.pc[u].ticket < s.tail ==> SlotOf(s, s.pc[u].ticket).num > s.pc[u].ticket;
    hide Inv, Held, Passed, Reaches;
    s' := s;
    if s.pc[u].Idle? { s' := Go(Next, s0, s, Dequeue(u)); }
    if s.pc[u].DeqLoadSeq? {
      if s.pc[u].ticket < s.tail {
        s' := Go(Next, s0, s, Step(u, true));
        s' := Go(Next, s0, s', Step(u, true));
      }
    } else {
      s' := Go(Next, s0, s', Step(u, true));
    }
    assert s'.pc == s.pc[u := DeqLoadSeq(s.tail)];
  }

  /** It takes the published ticket there and releases the slot. */
  lemma TakeTail(s0: State, s: State, u: nat) returns (s': State)
    requires Reaches(Next, s0, s) && u < |s.pc| && s.pc[u] == DeqLoadSeq(s.tail)
    requires s.slots != [] && SlotOf(s, s.tail).num == s.tail + 1
    ensures Reaches(Next, s0, s') && s'.pc == s.pc[u := Idle] && |s'.slots| == |s.slots|
    ensures SlotOf(s', s.tail).num == s.tail + |s.slots|
  {
    hide Reaches;
    s' := Go(Next, s0, s, Step(u, false));
    s' := Go(Next, s0, s', Step(u, false));
    assert s' == s.(tail := s.tail + 1, pc := s.pc[u := DeqRead(s.tail)]);
    s' := Go(Next, s0, s', Step(u, false));
    s' := Go(Next, s0, s', Step(u, false));
    assert s'.pc == s.pc[u := Idle];
  }

  lemma GoodLasts(s: State, s': State)
    requires Good(s) && Reaches(Next, s, s')
    ensures Good(s')
  {
    GoodInductive();
    ReachesKeeps(Next, Good, s, s');
  }

  /** In a full ring, the other thread finishes what it does and takes the oldest ticket, once that is published. */
  lemma FreeFullRing(s: State, t: nat, u: nat) returns (s': State)
    requires Good(s) && t < |s.pc| && u < |s.pc| && t != u && s.pc[t].EnqLoadSeq? && !Looks(s.pc[u])
    requires s.head == s.tail + |s.slots|
    ensures Reaches(Next, s, s') && |s'.slots| == |s.slots| && |s'.pc| == |s.pc| && s'.pc[t] == s.pc[t]
    ensures SlotOf(s', s.head).num == s.head
  {
    var tail := s.tail;
    SameSlot(tail, |s.slots|);
    s' := PublishTail(s, t, u);
    GoodLasts(s, s');
    if s'.pc[u].EnqWrite? || s'.pc[u].EnqPublish? {
      assert Local(s', s'.pc[u]);
      OwnTicket(s', s'.pc[u].ticket);
      var s1 := s';
      s' := PublishRun(s, s1, u);
      GoodLasts(s, s');
    }
    NoDrainerWhenFull(s');
    hide Good;
    s' := LookAtTail(s, s', u);
    s' := TakeTail(s, s', u);
  }

  /** Of the tickets in a full ring only the tail's is in the tail's slot. */
  lemma OwnTicket(s: State, h: nat)
    requires Inv(s) && s.tail <= h < s.head
    ensures h != s.tail ==> Mask(h, |s.slots|) != Mask(s.tail, |s.slots|)
  {
    if h != s.tail { Apart(s.tail, h, |s.slots|); }
  }

  /** The slot of the next ticket is freed by its drainer, or in a full ring by the other thread. */
  lemma FreeHeadSlot(s: State, t: nat, u: nat) returns (s': State)
    requires Good(s) && t < |s.pc| && u < |s.pc| && t != u && s.pc[t].EnqLoadSeq? && !Looks(s.pc[u])
    requires SlotOf(s, s.head).num < s.head
    ensures Reaches(Next, s, s') && |s'.slots| == |s.slots| && |s'.pc| == |s.pc| && s'.pc[t] == s.pc[t]
    ensures SlotOf(s', s.head).num == s.head
  {
    OccupiedIff(s);
    hide Good, Reaches, Mask;
    if s.head == s.tail + |s.slots| {
      s' := FreeFullRing(s, t, u);
    } else {
      s' := DrainHeadSlot(s, t);
    }
  }

  lemma DrainHeadSlot(s: State, t: nat) returns (s': State)
    requires Good(s) && t < |s.pc| && s.pc[t].EnqLoadSeq? && HasDrainer(s, s.head)
    ensures Reaches(Next, s, s') && |s'.slots| == |s.slots| && |s'.pc| == |s.pc| && s'.pc[t] == s.pc[t]
    ensures SlotOf(s', s.head).num == s.head
  {
    var w: nat :| w < |s.pc| && (s.pc[w].DeqRead? || s.pc[w].DeqRelease?) && s.pc[w].ticket + |s.slots| == s.head;
    SameSlot(s.pc[w].ticket, |s.slots|);
    hide Good, Mask;
    ReachesSelf(Next, s);
    hide Reaches;
    s' := ReleaseRun(s, s, w);
  }

  lemma ReleaseRun(s0: State, s: State, w: nat) returns (s': State)
    requires Reaches(Next, s0, s) && w < |s.pc| && (s.pc[w].DeqRead? || s.pc[w].DeqRelease?) && s.slots != []
    ensures Reaches(Next, s0, s') && |s'.slots| == |s.slots| && s'.pc == s.pc[w := Idle]
    ensures SlotOf(s', s.pc[w].ticket).num == s.pc[w].ticket + |s.slots|
  {
    hide Reaches;
    s' := s;
    if s.pc[w].DeqRead? {
      s' := Go(Next, s0, s, Step(w, false));
    }
    s' := Go(Next, s0, s', Step(w, false));
    assert s'.pc == s.pc[w := Idle];
  }

  lemma PublishRun(s0: State, s: State, w: nat) returns (s': State)
    requires Reaches(Next, s0, s) && w < |s.pc| && (s.pc[w].EnqWrite? || s.pc[w].EnqPublish?) && s.slots != []
    ensures Reaches(Next, s0, s') && |s'.slots| == |s.slots| && s'.pc == s.pc[w := Idle]
    ensures s'.tail == s.tail && s'.head == s.head
    ensures SlotOf(s', s.pc[w].ticket).num == s.pc[w].ticket + 1
    ensures forall j :: 0 <= j < |s.slots| && j != Mask(s.pc[w].ticket, |s.slots|) ==> s'.slots[j] == s.slots[j]
  {
    hide Reaches;
    s' := s;
    if s.pc[w].EnqWrite? {
      s' := Go(Next, s0, s, Step(w, false));
    }
    s' := Go(Next, s0, s', Step(w, false));
    assert s'.pc == s.pc[w := Idle];
  }

  // Accepted sizes that are no powers of two.

  /** Ticket `m` goes to slot 0, whose number never becomes `m`, and no thread claims it. */
  predicate Jammed(s: State, size: nat, m: nat) {
    && |s.slots| == size > m >= 2 && Mask(m, size) == 0
    && s.head <= m && s.slots[0].num != m
    && forall t :: 0 <= t < |s.pc| ==> JamLocal(s.pc[t], m)
  }

  predicate JamLocal(p: Pc, m: nat) {
    match p
    case EnqLoadSeq(_, h) => h <= m
    case EnqCas(_, h) => h < m
    case EnqWrite(_, h) => h < m
    case EnqPublish(_, h) => h < m
    case _ => true
  }

  lemma NextKeepsJam(s: State, c: Choice, size: nat, m: nat)
    requires Jammed(s, size, m) && forall h: nat :: h < m ==> Mask(h, size) == h
    ensures Jammed(Next(s, c), size, m)
  {
    if c.t < |s.pc| && c.Step? {
      EnqueueKeepsJam(s, c.t, c.spurious, size, m);
      DequeueKeepsJam(s, c.t, c.spurious, size, m);
      hide EnqueueStep, DequeueStep;
    }
  }

  lemma EnqueueKeepsJam(s: State, t: nat, spurious: bool, size: nat, m: nat)
    requires Jammed(s, size, m) && t < |s.pc| && forall h: nat :: h < m ==> Mask(h, size) == h
    ensures Jammed(EnqueueStep(s, t, spurious), size, m)
  {
    assert JamLocal(s.pc[t], m);
    EnqueueMovesOne(s, t, spurious);
    hide Mask;
  }

  lemma DequeueKeepsJam(s: State, t: nat, spurious: bool, size: nat, m: nat)
    requires Jammed(s, size, m) && t < |s.pc|
    ensures Jammed(DequeueStep(s, t, spurious), size, m)
  {
    assert JamLocal(s.pc[t], m);
    DequeueMovesOne(s, t, spurious);
    hide Mask;
  }

  /** In every run of such a ring no more enqueues succeed than there are tickets before the first lost one. */
  lemma JamsAfter(size: nat, threads: nat, m: nat, s: State)
    requires 2 <= m < size && Mask(m, size) == 0 && forall h: nat :: h < m ==> Mask(h, size) == h
    requires Reachable(size, threads, s)
    ensures s.head <= m
  {
    var inv := (s: State) => Jammed(s, size, m);
    forall s: State, c: Choice | inv(s) ensures inv(Next(s, c)) {
      NextKeepsJam(s, c, size, m);
    }
    ReachesKeeps(Next, inv, Init(size, threads), s);
  }

  /** A ring of six takes two values in its whole life. */
  lemma SixJams(threads: nat, s: State)
    requires Reachable(6, threads, s)
    ensures s.head <= 2
  {
    assert And(2, 5) == 2 * And(1, 2) && And(1, 2) == 2 * And(0, 1) && And(0, 5) == 0 && And(1, 5) == 2 * And(0, 2) + 1;
    JamsAfter(6, threads, 2, s);
  }

  /** That many do succeed. */
  lemma {:induction false} FilledRun(size: nat, threads: nat, m: nat, k: nat) returns (s: State)
    requires threads >= 1 && k <= m < size && forall h: nat :: h < m ==> Mask(h, size) == h
    ensures Reachable(size, threads, s) && s.head == k && |s.pc| == threads && s.pc[0].Idle?
    ensures |s.slots| == size && forall j :: k <= j < size ==> s.slots[j].num == j
  {
    if k == 0 {
      s := Init(size, threads);
      ReachesSelf(Next, s);
    } else {
      s := FilledRun(size, threads, m, k - 1);
      assert Mask(k - 1, size) == k - 1;
      s := EnqueueRun(Init(size, threads), s, 0, 7);
    }
  }

  /** For a power of two there is no such limit: `k` values can go through one after the other. */
  lemma {:induction false} PassedRun(size: nat, threads: nat, k: nat) returns (s: State)
    requires size >= 2 && IsPow2(size) && threads >= 1
    ensures Reachable(size, threads, s) && s.head == s.tail == k && s.pc == Init(size, threads).pc
  {
    if k == 0 {
      s := Init(size, threads);
      ReachesSelf(Next, s);
    } else {
      s := PassedRun(size, threads, k - 1);
      ReachableGood(size, threads, s);
      assert TicketOk(s, k - 1);
      hide Inv, Passed;
      s := EnqueueRun(Init(size, threads), s, 0, 7);
      s := DequeueRun(Init(size, threads), s, 0);
    }
  }

  ghost predicate EnqueuesBoundedBy(size: nat, threads: nat, m: nat) {
    forall s :: Reachable(size, threads, s) ==> s.head <= m
  }

  /** Of the sizes the constructor accepts, exactly those that are no powers of two jam: there is a number of
      enqueues, less than the size, that no run exceeds, however many are dequeued. */
  lemma JamsIff(size: nat, threads: nat)
    requires size != 0 && And(size, size + 1) == size && threads >= 1
    ensures (exists m: nat :: EnqueuesBoundedBy(size, threads, m)) <==> !IsPow2(size)
    ensures !IsPow2(size) ==> exists m: nat {:trigger EnqueuesBoundedBy(size, threads, m)} ::
              m < size && EnqueuesBoundedBy(size, threads, m) && exists s :: Reachable(size, threads, s) && s.head == m
  {
    SizeCheckAcceptsEven(size);
    if IsPow2(size) {
      forall m: nat ensures !EnqueuesBoundedBy(size, threads, m) {
        var s := PassedRun(size, threads, m + 1);
      }
    } else {
      var m := FirstLostTicket(size);
      forall s | Reachable(size, threads, s) ensures s.head <= m {
        JamsAfter(size, threads, m, s);
      }
      assert EnqueuesBoundedBy(size, threads, m);
      var s := FilledRun(size, threads, m, m);
    }
  }

  // The ring as it is updated in place.

  class Ring {
    var headSeq: nat
    var tailSeq: nat
    const buffer: array<Slot>
    var pc: seq<Pc>
    ghost var log: seq<int>
    ghost var received: map<nat, int>

    ghost function View(): State
      reads this, buffer
    {
      State(headSeq, tailSeq, buffer[..], pc, log, received)
    }

    ghost predicate Valid()
      reads this, buffer
    {
      Inv(View())
    }

    /** The size passes the constructor's assertion; only powers of two give a usable ring. */
    constructor (size: nat, threads: nat)
      requires size != 0 && And(size, size + 1) == size
      ensures fresh(buffer) && View() == Init(size, threads)
      ensures IsPow2(size) ==> Valid()
    {
      headSeq, tailSeq := 0, 0;
      buffer := new Slot[size](_ => Slot(0, 0));
      pc := seq(threads, _ => Idle);
      log, received := [], map[];
      new;
      for i := 0 to size
        invariant headSeq == 0 && tailSeq == 0 && pc == seq(threads, _ => Idle) && log == [] && received == map[]
        invariant forall j :: 0 <= j < i ==> buffer[j] == Slot(0, j)
        invariant forall j :: i <= j < size ==> buffer[j].data == 0
        modifies buffer
      {
        buffer[i] := buffer[i].(num := i);
      }
      SizeCheckAcceptsEven(size);
      if IsPow2(size) {
        InitInv(size, threads);
      }
    }

    /** Thread `t` calls enqueue or dequeue. */
    method Begin(c: Choice)
      requires (c.Enqueue? || c.Dequeue?) && c.t < |pc| && pc[c.t].Idle? && buffer.Length > 0
      modifies this
      ensures View() == Next(old(View()), c) && (old(Valid()) ==> Valid())
    {
      ghost var before := View();
      pc := pc[c.t := if c.Enqueue? then EnqLoadHead(c.value) else DeqLoadTail];
      if Inv(before) { NextKeepsInv(before, c); }
    }

    /** The next shared access of thread `t` inside enqueue. */
    method StepEnqueue(t: nat, spurious: bool)
      requires t < |pc| && buffer.Length > 0
      modifies this, buffer
      ensures View() == EnqueueStep(old(View()), t, spurious) && (old(Valid()) ==> Valid())
    {
      ghost var before := View();
      var p := pc[t];
      match p {
        case EnqLoadHead(value) =>
          p := EnqLoadSeq(value, headSeq);
        case EnqLoadSeq(value, ticket) =>
          if buffer[Mask(ticket, buffer.Length)].num == ticket { p := EnqCas(value, ticket); }
        case EnqCas(value, ticket) =>
          if headSeq == ticket && !spurious {
            headSeq, log := ticket + 1, log + [value];
            p := EnqWrite(value, ticket);
          } else {
            p := EnqReload(value);
          }
        case EnqReload(value) =>
          p := EnqLoadSeq(value, headSeq);
        case EnqWrite(value, ticket) =>
          var i := Mask(ticket, buffer.Length);
          buffer[i] := buffer[i].(data := value);
          p := EnqPublish(value, ticket);
        case EnqPublish(_, ticket) =>
          var i := Mask(ticket, buffer.Length);
          buffer[i] := buffer[i].(num := ticket + 1);
          p := Idle;
        case _ =>
      }
      pc := pc[t := p];
      assert View() == EnqueueStep(before, t, spurious);
      if Inv(before) { EnqueueKeepsInv(before, t, spurious); }
    }

    /** The next shared access of thread `t` inside dequeue. */
    method StepDequeue(t: nat, spurious: bool)
      requires t < |pc| && buffer.Length > 0
      modifies this, buffer
      ensures View() == DequeueStep(old(View()), t, spurious) && (old(Valid()) ==> Valid())
    {
      ghost var before := View();
      var p := pc[t];
      match p {
        case DeqLoadTail =>
          p := DeqLoadSeq(tailSeq);
        case DeqLoadSeq(ticket) =>
          var num := buffer[Mask(ticket, buffer.Length)].num;
          if num == ticket + 1 { p := DeqCas(ticket); } else if num < ticket + 1 { p := Idle; } else { p := DeqReload; }
        case DeqCas(ticket) =>
          if tailSeq == ticket && !spurious {
            tailSeq := ticket + 1;
            p := DeqRead(ticket);
          } else {
            p := DeqLoadSeq(tailSeq);
          }
        case DeqReload =>
          p := DeqLoadSeq(tailSeq);
        case DeqRead(ticket) =>
          p := DeqRelease(buffer[Mask(ticket, buffer.Length)].data, ticket);
        case DeqRelease(value, ticket) =>
          var i := Mask(ticket, buffer.Length);
          buffer[i] := buffer[i].(num := ticket + buffer.Length);
          received := received[ticket := value];
          p := Idle;
        case _ =>
      }
      pc := pc[t := p];
      assert View() == DequeueStep(before, t, spurious);
      if Inv(before) { DequeueKeepsInv(before, t, spurious); }
    }

    /** Any scheduler: calls begin and threads take their steps in the order `sched` says. */
    method Run(sched: seq<Choice>)
      modifies this, buffer
      ensures View() == Exec(Next, old(View()), sched) && (old(Valid()) ==> Valid())
    {
      for k := 0 to |sched|
        invariant View() == Exec(Next, old(View()), sched[..k]) && (old(Valid()) ==> Valid())
      {
        ExecSnoc(Next, old(View()), sched[..k], sched[k]);
        assert sched[..k + 1] == sched[..k] + [sched[k]];
        var c := sched[k];
        if c.t < |pc| && buffer.Length > 0 {
          var p := pc[c.t];
          if !c.Step? {
            if p.Idle? { Begin(c); }
          } else if p.EnqLoadHead? || p.EnqLoadSeq? || p.EnqCas? || p.EnqReload? || p.EnqWrite? || p.EnqPublish? {
            StepEnqueue(c.t, c.spurious);
          } else {
            StepDequeue(c.t, c.spurious);
          }
        }
      }
      assert sched[..|sched|] == sched;
    }
  }
}
