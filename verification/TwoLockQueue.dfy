/** The two-lock linked queue with a dummy node and explicit free.  Memory is a map from live addresses to
    nodes; malloc may return any address that is not live, freed ones included, with any contents; following
    or freeing an address that is not live sets `fault`. */
module TwoLockQueue {
  import opened Runs

  datatype Node = Node(value: int, next: nat)  // 0 is NULL

  datatype Lock = Free | Held(owner: nat)

  /** `k` numbers the successful dequeues from 0. */
  datatype Pc =
    | Idle
    | EnqAlloc(value: int)                                      // next: malloc
    | EnqSetValue(value: int, node: nat)                        // next: tmp->value = value
    | EnqSetNext(value: int, node: nat)                         // next: tmp->next = NULL
    | EnqLock(value: int, node: nat)                            // next: lock tail_lock
    | EnqLink(value: int, node: nat)                            // next: q->tail->next = tmp
    | EnqSwing(value: int, node: nat)                           // next: q->tail = tmp
    | EnqUnlock                                                 // next: unlock tail_lock
    | DeqLock                                                   // next: lock head_lock
    | DeqReadHead                                               // next: tmp = q->head
    | DeqReadNext(dummy: nat)                                    // next: new_head = tmp->next and its test
    | DeqUnlockEmpty                                            // next: unlock head_lock, return -1
    | DeqReadValue(dummy: nat, first: nat, k: nat)                // next: *value = new_head->value
    | DeqSetHead(dummy: nat, first: nat, value: int, k: nat)      // next: q->head = new_head
    | DeqUnlock(dummy: nat, value: int, k: nat)                  // next: unlock head_lock
    | DeqFree(dummy: nat, value: int, k: nat)                    // next: free(tmp), return 0

  /** `chain` lists the nodes from head on, `log` the values in the order they were linked, `taken` counts
      the dequeues that found a node, `received[k]` is what the k-th of them returned. */
  datatype State = State(
    heap: map<nat, Node>, head: nat, tail: nat, headLock: Lock, tailLock: Lock, pc: seq<Pc>, fault: bool,
    chain: seq<nat>, log: seq<int>, taken: nat, received: map<nat, int>)

  datatype Choice = Enqueue(t: nat, value: int) | Dequeue(t: nat) | Step(t: nat, address: nat, junk: Node)

  /** Queue_Init, with the dummy node at `dummy`. */
  function Init(dummy: nat, junk: int, threads: nat): State {
    State(map[dummy := Node(junk, 0)], dummy, dummy, Free, Free, seq(threads, _ => Idle), false,
          [dummy], [], 0, map[])
  }

  function Goto(s: State, t: nat, p: Pc): State
    requires t < |s.pc|
  {
    s.(pc := s.pc[t := p])
  }

  function Next(s: State, c: Choice): State {
    if c.t >= |s.pc| || s.fault then s else
    match c
    case Enqueue(t, value) => if s.pc[t].Idle? then Goto(s, t, EnqAlloc(value)) else s
    case Dequeue(t) => if s.pc[t].Idle? then Goto(s, t, DeqLock) else s
    case Step(t, address, junk) =>
      if IsEnqueue(s.pc[t]) then EnqueueStep(s, t, address, junk) else DequeueStep(s, t)
  }

  predicate IsEnqueue(p: Pc) {
    p.EnqAlloc? || p.EnqSetValue? || p.EnqSetNext? || p.EnqLock? || p.EnqLink? || p.EnqSwing? || p.EnqUnlock?
  }

  function EnqueueStep(s: State, t: nat, address: nat, junk: Node): State
    requires t < |s.pc|
  {
    match s.pc[t]
    case EnqAlloc(v) =>
      if address == 0 || address in s.heap then s
      else Goto(s.(heap := s.heap[address := junk]), t, EnqSetValue(v, address))
    case EnqSetValue(v, a) =>
      if a !in s.heap then s.(fault := true)
      else Goto(s.(heap := s.heap[a := s.heap[a].(value := v)]), t, EnqSetNext(v, a))
    case EnqSetNext(v, a) =>
      if a !in s.heap then s.(fault := true)
      else Goto(s.(heap := s.heap[a := s.heap[a].(next := 0)]), t, EnqLock(v, a))
    case EnqLock(v, a) => if s.tailLock.Free? then Goto(s.(tailLock := Held(t)), t, EnqLink(v, a)) else s
    case EnqLink(v, a) =>
      if s.tail !in s.heap then s.(fault := true)
      else Goto(s.(heap := s.heap[s.tail := s.heap[s.tail].(next := a)], chain := s.chain + [a], log := s.log + [v]),
                t, EnqSwing(v, a))
    case EnqSwing(v, a) => Goto(s.(tail := a), t, EnqUnlock)
    case EnqUnlock => Goto(s.(tailLock := Free), t, Idle)
    case _ => s
  }

  function DequeueStep(s: State, t: nat): State
    requires t < |s.pc|
  {
    match s.pc[t]
    case DeqLock => if s.headLock.Free? then Goto(s.(headLock := Held(t)), t, DeqReadHead) else s
    case DeqReadHead => Goto(s, t, DeqReadNext(s.head))
    case DeqReadNext(o) =>
      if o !in s.heap then s.(fault := true)
      else if s.heap[o].next == 0 then Goto(s, t, DeqUnlockEmpty)
      else Goto(s.(taken := s.taken + 1), t, DeqReadValue(o, s.heap[o].next, s.taken))
    case DeqUnlockEmpty => Goto(s.(headLock := Free), t, Idle)
    case DeqReadValue(o, n, k) =>
      if n !in s.heap then s.(fault := true) else Goto(s, t, DeqSetHead(o, n, s.heap[n].value, k))
    case DeqSetHead(o, n, v, k) =>
      Goto(s.(head := n, chain := if s.chain == [] then [] else s.chain[1..]), t, DeqUnlock(o, v, k))
    case DeqUnlock(o, v, k) => Goto(s.(headLock := Free), t, DeqFree(o, v, k))
    case DeqFree(o, v, k) =>
      if o !in s.heap then s.(fault := true)
      else Goto(s.(heap := s.heap - {o}, received := s.received[k := v]), t, Idle)
    case _ => s
  }

  // The invariant.

  predicate HoldsTail(p: Pc) { p.EnqLink? || p.EnqSwing? || p.EnqUnlock? }

  predicate HoldsHead(p: Pc) {
    p.DeqReadHead? || p.DeqReadNext? || p.DeqUnlockEmpty? || p.DeqReadValue? || p.DeqSetHead? || p.DeqUnlock?
  }

  /** A dequeue past its read of `next` that has not moved head yet. */
  predicate Committed(p: Pc) { p.DeqReadValue? || p.DeqSetHead? }

  /** The node outside the list that a thread at `p` owns, or 0. */
  function Owned(p: Pc): nat {
    match p
    case EnqSetValue(_, a) => a
    case EnqSetNext(_, a) => a
    case EnqLock(_, a) => a
    case EnqLink(_, a) => a
    case DeqUnlock(o, _, _) => o
    case DeqFree(o, _, _) => o
    case _ => 0
  }

  predicate Distinct(chain: seq<nat>) {
    chain == [] || (chain[0] !in chain[1..] && Distinct(chain[1..]))
  }

  lemma {:induction false} DistinctSnoc(chain: seq<nat>, a: nat)
    requires Distinct(chain) && a !in chain
    ensures Distinct(chain + [a])
  {
    if chain != [] {
      assert (chain + [a])[1..] == chain[1..] + [a];
      DistinctSnoc(chain[1..], a);
    } else {
      assert [a][1..] == [];
    }
  }

  lemma {:induction false} DistinctLast(chain: seq<nat>)
    requires chain != [] && Distinct(chain)
    ensures forall i :: 0 <= i < |chain| - 1 ==> chain[i] != chain[|chain| - 1]
  {
    if |chain| > 1 {
      DistinctLast(chain[1..]);
      forall i | 0 <= i < |chain| - 1 ensures chain[i] != chain[|chain| - 1] {
        if i == 0 {
          assert chain[|chain| - 1] == chain[1..][|chain| - 2];
        } else {
          assert chain[i] == chain[1..][i - 1];
        }
      }
    }
  }

  /** The linked list: from head to a last node without successor, holding the values not yet unlinked. */
  ghost predicate ListOk(heap: map<nat, Node>, head: nat, chain: seq<nat>, log: seq<int>) {
    && chain != [] && Distinct(chain) && chain[0] == head
    && |chain| - 1 <= |log|
    && (forall i :: 0 <= i < |chain| ==> chain[i] in heap)
    && (forall i {:trigger heap[chain[i]]} :: 0 <= i < |chain| ==>
          heap[chain[i]].next == if i + 1 < |chain| then chain[i + 1] else 0)
    && (forall i {:trigger heap[chain[i]]} :: 0 < i < |chain| ==> heap[chain[i]].value == log[|log| - |chain| + i])
  }

  ghost predicate List(s: State) {
    ListOk(s.heap, s.head, s.chain, s.log)
  }

  /** What thread `t` may rely on. */
  ghost predicate Local(s: State, t: nat)
    requires t < |s.pc| && s.chain != []
  {
    var p := s.pc[t];
    && (HoldsTail(p) <==> s.tailLock == Held(t))
    && (HoldsHead(p) <==> s.headLock == Held(t))
    && (Owned(p) != 0 ==> Owned(p) in s.heap && Owned(p) !in s.chain)
    && match p
       case EnqSetValue(_, a) => a != 0
       case EnqSetNext(v, a) => a != 0 && s.heap[a].value == v
       case EnqLock(v, a) => a != 0 && s.heap[a] == Node(v, 0)
       case EnqLink(v, a) => a != 0 && s.heap[a] == Node(v, 0)
       case EnqSwing(v, a) => a == s.chain[|s.chain| - 1]
       case DeqReadNext(d) => d == s.head
       case DeqReadValue(d, n, k) => d == s.head && |s.chain| >= 2 && n == s.chain[1] && k + 1 == s.taken
       case DeqSetHead(d, n, v, k) =>
         d == s.head && |s.chain| >= 2 && n == s.chain[1] && k + 1 == s.taken && k < |s.log| && v == s.log[k]
       case DeqUnlock(d, v, k) => d != 0 && k < s.taken <= |s.log| && v == s.log[k]
       case DeqFree(d, v, k) => d != 0 && k < s.taken <= |s.log| && v == s.log[k]
       case _ => true
  }

  ghost predicate OneOwner(pc: seq<Pc>) {
    forall t, u :: 0 <= t < |pc| && 0 <= u < |pc| && t != u && Owned(pc[t]) != 0 ==> Owned(pc[t]) != Owned(pc[u])
  }

  ghost predicate Inv(s: State) {
    && !s.fault
    && 0 !in s.heap
    && s.chain != [] && List(s)
    && (forall t :: 0 <= t < |s.pc| ==> Local(s, t))
    && OneOwner(s.pc)
    && s.taken <= |s.log|
    && (s.tailLock.Held? ==> s.tailLock.owner < |s.pc|)
    && (s.headLock.Held? ==> s.headLock.owner < |s.pc|)
    && ((s.tailLock.Held? && s.pc[s.tailLock.owner].EnqSwing?) || s.tail == s.chain[|s.chain| - 1])
    && |s.log| - s.taken == |s.chain| - 1 -
         (if s.headLock.Held? && Committed(s.pc[s.headLock.owner]) then 1 else 0)
    && (forall k :: k in s.received ==> k < s.taken <= |s.log| && s.received[k] == s.log[k])
  }

  lemma InitInv(dummy: nat, junk: int, threads: nat)
    requires dummy != 0
    ensures Inv(Init(dummy, junk, threads))
  {
  }

  lemma ListFacts(heap: map<nat, Node>, head: nat, chain: seq<nat>, log: seq<int>)
    requires ListOk(heap, head, chain, log)
    ensures chain != [] && head == chain[0] && |chain| - 1 <= |log|
    ensures forall a :: a in chain ==> a in heap
    ensures heap[head].next == if |chain| >= 2 then chain[1] else 0
    ensures |chain| >= 2 ==> chain[1] in heap && heap[chain[1]].value == log[|log| - |chain| + 1]
  {
  }

  /** The list does not depend on nodes outside it. */
  lemma ListFrame(heap: map<nat, Node>, heap': map<nat, Node>, head: nat, chain: seq<nat>, log: seq<int>)
    requires ListOk(heap, head, chain, log)
    requires forall a :: a in chain && a in heap ==> a in heap' && heap'[a] == heap[a]
    ensures ListOk(heap', head, chain, log)
  {
  }

  lemma ListLink(heap: map<nat, Node>, head: nat, chain: seq<nat>, log: seq<int>, a: nat, v: int)
    requires ListOk(heap, head, chain, log) && a in heap && a !in chain && heap[a] == Node(v, 0)
    ensures var last := chain[|chain| - 1];
            ListOk(heap[last := heap[last].(next := a)], head, chain + [a], log + [v])
  {
    var last := chain[|chain| - 1];
    var heap' := heap[last := heap[last].(next := a)];
    var chain', log' := chain + [a], log + [v];
    DistinctSnoc(chain, a);
    DistinctLast(chain);
    forall i | 0 <= i < |chain'|
      ensures chain'[i] in heap' && heap'[chain'[i]].next == if i + 1 < |chain'| then chain'[i + 1] else 0
      ensures i > 0 ==> heap'[chain'[i]].value == log'[|log'| - |chain'| + i]
    {
      if i < |chain| {
        assert heap[chain[i]].next == if i + 1 < |chain| then chain[i + 1] else 0;
        assert i > 0 ==> heap[chain[i]].value == log[|log| - |chain| + i];
      }
    }
  }

  lemma ListUnlink(heap: map<nat, Node>, head: nat, chain: seq<nat>, log: seq<int>)
    requires ListOk(heap, head, chain, log) && |chain| >= 2
    ensures ListOk(heap, chain[1], chain[1..], log) && head !in chain[1..]
  {
    var chain' := chain[1..];
    assert forall i :: 0 <= i < |chain'| ==> chain'[i] == chain[i + 1];
    forall i | 0 <= i < |chain'|
      ensures heap[chain'[i]].next == if i + 1 < |chain'| then chain'[i + 1] else 0
      ensures i > 0 ==> heap[chain'[i]].value == log[|log| - |chain'| + i]
    {
      assert heap[chain[i + 1]].next == if i + 2 < |chain| then chain[i + 2] else 0;
    }
  }

  /** What another thread relies on survives a step that leaves its locks, its node, and, if it holds a
      lock, that end of the list alone. */
  lemma LocalFrame(s: State, s': State, u: nat)
    requires u < |s.pc| == |s'.pc| && s'.pc[u] == s.pc[u]
    requires s.chain != [] && s'.chain != [] && Local(s, u)
    requires (s'.tailLock == Held(u) <==> s.tailLock == Held(u)) && (s'.headLock == Held(u) <==> s.headLock == Held(u))
    requires var a := Owned(s.pc[u]); a != 0 ==> a in s'.heap && s'.heap[a] == s.heap[a] && a !in s'.chain
    requires HoldsTail(s.pc[u]) ==> s'.chain[|s'.chain| - 1] == s.chain[|s.chain| - 1]
    requires HoldsHead(s.pc[u]) ==> s'.head == s.head && s'.taken == s.taken && s.chain <= s'.chain
    requires s.log <= s'.log && s.taken <= s'.taken <= |s'.log|
    ensures Local(s', u)
  {
  }

  lemma OwnedOutside(s: State)
    requires Inv(s)
    ensures forall u :: 0 <= u < |s.pc| && Owned(s.pc[u]) != 0 ==>
              Owned(s.pc[u]) in s.heap && Owned(s.pc[u]) !in s.chain
  {
    forall u | 0 <= u < |s.pc| && Owned(s.pc[u]) != 0
      ensures Owned(s.pc[u]) in s.heap && Owned(s.pc[u]) !in s.chain
    {
      assert Local(s, u);
    }
  }

  lemma AllocKeepsInv(s: State, t: nat, address: nat, junk: Node)
    requires Inv(s) && t < |s.pc| && s.pc[t].EnqAlloc?
    ensures Inv(EnqueueStep(s, t, address, junk))
  {
    hide ListOk;
    ListFacts(s.heap, s.head, s.chain, s.log);
    var s' := EnqueueStep(s, t, address, junk);
    OwnedOutside(s);
    ListFrame(s.heap, s'.heap, s.head, s.chain, s.log);
    forall u | 0 <= u < |s'.pc| ensures Local(s', u) {
      assert Local(s, u);
      if u != t { LocalFrame(s, s', u); }
    }
  }

  /** The two writes to the node not yet linked. */
  lemma PrivateKeepsInv(s: State, t: nat, address: nat, junk: Node)
    requires Inv(s) && t < |s.pc| && (s.pc[t].EnqSetValue? || s.pc[t].EnqSetNext?)
    ensures Inv(EnqueueStep(s, t, address, junk))
  {
    hide ListOk;
    ListFacts(s.heap, s.head, s.chain, s.log);
    var s' := EnqueueStep(s, t, address, junk);
    assert Local(s, t);
    OwnedOutside(s);
    ListFrame(s.heap, s'.heap, s.head, s.chain, s.log);
    forall u | 0 <= u < |s'.pc| ensures Local(s', u) {
      assert Local(s, u);
      if u != t {
        assert Owned(s.pc[u]) != 0 ==> Owned(s.pc[u]) != Owned(s.pc[t]);
        LocalFrame(s, s', u);
      }
    }
  }

  lemma LinkKeepsInv(s: State, t: nat, address: nat, junk: Node)
    requires Inv(s) && t < |s.pc| && s.pc[t].EnqLink?
    ensures Inv(EnqueueStep(s, t, address, junk))
  {
    hide ListOk;
    ListFacts(s.heap, s.head, s.chain, s.log);
    var s' := EnqueueStep(s, t, address, junk);
    assert Local(s, t);
    OwnedOutside(s);
    ListLink(s.heap, s.head, s.chain, s.log, s.pc[t].node, s.pc[t].value);
    forall u | 0 <= u < |s'.pc| ensures Local(s', u) {
      assert Local(s, u);
      if u != t {
        assert Owned(s.pc[u]) != 0 ==> Owned(s.pc[u]) != Owned(s.pc[t]);
        LocalFrame(s, s', u);
      }
    }
  }

  lemma TailLockKeepsInv(s: State, t: nat, address: nat, junk: Node)
    requires Inv(s) && t < |s.pc| && (s.pc[t].EnqLock? || s.pc[t].EnqSwing? || s.pc[t].EnqUnlock?)
    ensures Inv(EnqueueStep(s, t, address, junk))
  {
    hide ListOk;
    ListFacts(s.heap, s.head, s.chain, s.log);
    var s' := EnqueueStep(s, t, address, junk);
    assert Local(s, t);
    OwnedOutside(s);
    forall u | 0 <= u < |s'.pc| ensures Local(s', u) {
      assert Local(s, u);
      if u != t { LocalFrame(s, s', u); }
    }
  }

  lemma EnqueueKeepsInv(s: State, t: nat, address: nat, junk: Node)
    requires Inv(s) && t < |s.pc|
    ensures Inv(EnqueueStep(s, t, address, junk))
  {
    match s.pc[t] {
      case EnqLink(_, _) => LinkKeepsInv(s, t, address, junk);
      case EnqLock(_, _) => TailLockKeepsInv(s, t, address, junk);
      case EnqSwing(_, _) => TailLockKeepsInv(s, t, address, junk);
      case EnqUnlock => TailLockKeepsInv(s, t, address, junk);
      case EnqAlloc(_) => AllocKeepsInv(s, t, address, junk);
      case EnqSetValue(_, _) => PrivateKeepsInv(s, t, address, junk);
      case EnqSetNext(_, _) => PrivateKeepsInv(s, t, address, junk);
      case _ =>
    }
  }

  lemma HeadLockKeepsInv(s: State, t: nat)
    requires Inv(s) && t < |s.pc| && (s.pc[t].DeqLock? || s.pc[t].DeqUnlockEmpty? || s.pc[t].DeqUnlock?)
    ensures Inv(DequeueStep(s, t))
  {
    hide ListOk;
    ListFacts(s.heap, s.head, s.chain, s.log);
    var s' := DequeueStep(s, t);
    assert Local(s, t);
    OwnedOutside(s);
    forall u | 0 <= u < |s'.pc| ensures Local(s', u) {
      assert Local(s, u);
      if u != t { LocalFrame(s, s', u); }
    }
  }

  /** The reads of the dequeuer change nothing another thread relies on. */
  lemma HeadReadKeepsInv(s: State, t: nat)
    requires Inv(s) && t < |s.pc| && (s.pc[t].DeqReadHead? || s.pc[t].DeqReadNext? || s.pc[t].DeqReadValue?)
    ensures Inv(DequeueStep(s, t))
  {
    hide ListOk;
    ListFacts(s.heap, s.head, s.chain, s.log);
    var s' := DequeueStep(s, t);
    assert Local(s, t);
    OwnedOutside(s);
    forall u | 0 <= u < |s'.pc| ensures Local(s', u) {
      assert Local(s, u);
      if u != t { LocalFrame(s, s', u); }
    }
  }

  lemma SetHeadKeepsInv(s: State, t: nat)
    requires Inv(s) && t < |s.pc| && s.pc[t].DeqSetHead?
    ensures Inv(DequeueStep(s, t))
  {
    hide ListOk;
    ListFacts(s.heap, s.head, s.chain, s.log);
    var s' := DequeueStep(s, t);
    assert Local(s, t);
    OwnedOutside(s);
    ListUnlink(s.heap, s.head, s.chain, s.log);
    forall u | 0 <= u < |s'.pc| ensures Local(s', u) {
      assert Local(s, u);
      if u != t { LocalFrame(s, s', u); }
    }
  }

  lemma FreeKeepsInv(s: State, t: nat)
    requires Inv(s) && t < |s.pc| && s.pc[t].DeqFree?
    ensures Inv(DequeueStep(s, t))
  {
    hide ListOk;
    ListFacts(s.heap, s.head, s.chain, s.log);
    var s' := DequeueStep(s, t);
    assert Local(s, t);
    OwnedOutside(s);
    ListFrame(s.heap, s'.heap, s.head, s.chain, s.log);
    forall u | 0 <= u < |s'.pc| ensures Local(s', u) {
      assert Local(s, u);
      if u != t {
        assert Owned(s.pc[u]) != 0 ==> Owned(s.pc[u]) != Owned(s.pc[t]);
        LocalFrame(s, s', u);
      }
    }
  }

  lemma DequeueKeepsInv(s: State, t: nat)
    requires Inv(s) && t < |s.pc|
    ensures Inv(DequeueStep(s, t))
  {
    match s.pc[t] {
      case DeqSetHead(_, _, _, _) => SetHeadKeepsInv(s, t);
      case DeqFree(_, _, _) => FreeKeepsInv(s, t);
      case DeqLock => HeadLockKeepsInv(s, t);
      case DeqUnlockEmpty => HeadLockKeepsInv(s, t);
      case DeqUnlock(_, _, _) => HeadLockKeepsInv(s, t);
      case DeqReadHead => HeadReadKeepsInv(s, t);
      case DeqReadNext(_) => HeadReadKeepsInv(s, t);
      case DeqReadValue(_, _, _) => HeadReadKeepsInv(s, t);
      case _ =>
    }
  }

  /** The invariant as thread `t` sees it. */
  lemma InvAt(s: State, t: nat)
    requires Inv(s) && t < |s.pc|
    ensures !s.fault && s.chain != [] && s.head == s.chain[0] && s.taken <= |s.log| && 0 !in s.heap && Local(s, t)
    ensures s.chain[|s.chain| - 1] in s.heap && s.head in s.heap && (|s.chain| >= 2 ==> s.chain[1] in s.heap)
    ensures s.pc[t].EnqLink? ==> s.tail == s.chain[|s.chain| - 1]
    ensures s.pc[t].DeqSetHead? ==> s.pc[t].dummy == s.chain[0]
    ensures s.headLock == Held(t) && !Committed(s.pc[t]) ==>
              (s.heap[s.head].next == 0 <==> s.taken == |s.log|)
  {
    hide ListOk;
    ListFacts(s.heap, s.head, s.chain, s.log);
  }

  lemma NextKeepsInv(s: State, c: Choice)
    requires Inv(s)
    ensures Inv(Next(s, c))
  {
    if c.t < |s.pc| {
      if c.Step? {
        EnqueueKeepsInv(s, c.t, c.address, c.junk);
        DequeueKeepsInv(s, c.t);
      } else if s.pc[c.t].Idle? {
        BeginKeepsInv(s, c);
      }
    }
  }

  lemma BeginKeepsInv(s: State, c: Choice)
    requires Inv(s) && !c.Step? && c.t < |s.pc| && s.pc[c.t].Idle?
    ensures Inv(Next(s, c))
  {
    hide ListOk;
    var s' := Next(s, c);
    assert Local(s, c.t);
    forall u | 0 <= u < |s'.pc| ensures Local(s', u) {
      assert Local(s, u);
    }
  }

  // Memory.

  /** Every live address is in the list or owned by a thread. */
  ghost predicate Accounted(s: State) {
    forall a :: a in s.heap ==> a in s.chain || HasOwner(s.pc, a)
  }

  ghost predicate HasOwner(pc: seq<Pc>, a: nat) {
    exists t :: 0 <= t < |pc| && Owned(pc[t]) == a
  }

  lemma OwnerStays(pc: seq<Pc>, pc': seq<Pc>, t: nat, a: nat)
    requires |pc| == |pc'| && t < |pc| && HasOwner(pc, a)
    requires forall u :: 0 <= u < |pc| && u != t ==> pc'[u] == pc[u]
    requires Owned(pc[t]) == a ==> Owned(pc'[t]) == a
    ensures HasOwner(pc', a)
  {
    var u :| 0 <= u < |pc| && Owned(pc[u]) == a;
    assert Owned(pc'[u]) == a;
  }

  /** A new address is its thread's. */
  lemma AddressNew(s: State, c: Choice, a: nat)
    requires Inv(s) && a in Next(s, c).heap && c.t < |s.pc|
    ensures |Next(s, c).pc| == |s.pc|
    ensures a in s.heap || Owned(Next(s, c).pc[c.t]) == a
  {
    hide ListOk, Inv;
    InvAt(s, c.t);
  }

  /** An address of the list stays there or becomes its thread's. */
  lemma AddressOfList(s: State, c: Choice, a: nat)
    requires Inv(s) && c.t < |s.pc| == |Next(s, c).pc| && a in s.chain
    ensures a in Next(s, c).chain || Owned(Next(s, c).pc[c.t]) == a
  {
    hide ListOk, Inv, Local;
    InvAt(s, c.t);
    var i :| 0 <= i < |s.chain| && s.chain[i] == a;
    if c.Step? && s.pc[c.t].DeqSetHead? {
      assert i > 0 ==> s.chain[1..][i - 1] == a;
    }
  }

  /** An address of a thread stays that or joins the list, unless it is freed. */
  lemma OwnedMoves(s: State, c: Choice)
    requires c.t < |s.pc| == |Next(s, c).pc|
    ensures forall u :: 0 <= u < |s.pc| && u != c.t ==> Next(s, c).pc[u] == s.pc[u]
    ensures var a := Owned(s.pc[c.t]);
            a != 0 && a in Next(s, c).heap ==> Owned(Next(s, c).pc[c.t]) == a || a in Next(s, c).chain
  {
  }

  lemma NextKeepsAccounted(s: State, c: Choice)
    requires Inv(s) && Accounted(s)
    ensures Accounted(Next(s, c))
  {
    hide ListOk;
    var s' := Next(s, c);
    if c.t < |s.pc| {
      forall a | a in s'.heap ensures a in s'.chain || HasOwner(s'.pc, a) {
        AddressNew(s, c, a);
        if a in s.chain { AddressOfList(s, c, a); }
        OwnedMoves(s, c);
        NextKeepsInv(s, c);
        if a !in s'.chain && Owned(s'.pc[c.t]) != a {
          OwnerStays(s.pc, s'.pc, c.t, a);
        }
      }
    }
  }

  ghost predicate Good(s: State) { Inv(s) && Accounted(s) }

  ghost predicate Reachable(dummy: nat, junk: int, threads: nat, s: State) {
    Reaches(Next, Init(dummy, junk, threads), s)
  }

  /** In every run no thread follows or frees an address that is not live, and no node is lost. */
  lemma ReachableGood(dummy: nat, junk: int, threads: nat, s: State)
    requires dummy != 0 && Reachable(dummy, junk, threads, s)
    ensures Good(s) && !s.fault
  {
    InitInv(dummy, junk, threads);
    forall s: State, c: Choice | Good(s) ensures Good(Next(s, c)) {
      NextKeepsInv(s, c);
      NextKeepsAccounted(s, c);
    }
    ReachesKeeps(Next, Good, Init(dummy, junk, threads), s);
  }

  /** With no operation under way the live nodes are exactly those of the list. */
  lemma QuietMemoryIsTheList(s: State)
    requires Good(s) && forall t :: 0 <= t < |s.pc| ==> s.pc[t].Idle?
    ensures forall a :: a in s.heap <==> a in s.chain
    ensures s.tail == s.chain[|s.chain| - 1] && s.headLock == Free && s.tailLock == Free
  {
    ListFacts(s.heap, s.head, s.chain, s.log);
    if s.tailLock.Held? { InvAt(s, s.tailLock.owner); }
    if s.headLock.Held? { InvAt(s, s.headLock.owner); }
  }

  // The queue is a FIFO.

  /** The abstract queue: values linked and not yet taken. */
  function Queue(s: State): seq<int> {
    if s.taken <= |s.log| then s.log[s.taken..] else []
  }

  /** Linearisation points: an enqueue is its write of `next`, a dequeue its read of `next`, where it fails
      exactly if the queue is empty; no other step changes the queue. */
  lemma NextRefinesFifo(s: State, c: Choice)
    requires Inv(s)
    ensures Inv(Next(s, c))
    ensures var s' := Next(s, c);
            if c.Step? && c.t < |s.pc| && s.pc[c.t].EnqLink? then Queue(s') == Queue(s) + [s.pc[c.t].value]
            else if c.Step? && c.t < |s.pc| && s.pc[c.t].DeqReadNext? then |s'.pc| == |s.pc| && Takes(s, s', s'.pc[c.t])
            else Queue(s') == Queue(s) && s'.taken == s.taken
    ensures s.log <= Next(s, c).log
  {
    NextKeepsInv(s, c);
    if c.t < |s.pc| && c.Step? {
      if IsEnqueue(s.pc[c.t]) {
        EnqueueRefines(s, c.t, c.address, c.junk);
      } else {
        DequeueRefines(s, c.t);
      }
    }
    hide ListOk, Inv, EnqueueStep, DequeueStep, Takes;
  }

  /** A dequeue, now at `p`, took the oldest value, or found the queue empty. */
  predicate Takes(s: State, s': State, p: Pc) {
    && Queue(s') == (if Queue(s) == [] then [] else Queue(s)[1..])
    && (p.DeqUnlockEmpty? <==> Queue(s) == [])
    && (Queue(s) != [] ==> p.DeqReadValue? && p.k == s.taken && s'.taken == s.taken + 1)
  }

  lemma EnqueueRefines(s: State, t: nat, address: nat, junk: Node)
    requires Inv(s) && t < |s.pc| && IsEnqueue(s.pc[t])
    ensures var s' := EnqueueStep(s, t, address, junk);
            && s.log <= s'.log && s'.taken == s.taken
            && Queue(s') == if s.pc[t].EnqLink? then Queue(s) + [s.pc[t].value] else Queue(s)
  {
    hide ListOk, Inv;
    InvAt(s, t);
  }

  lemma DequeueRefines(s: State, t: nat)
    requires Inv(s) && t < |s.pc| && !IsEnqueue(s.pc[t])
    ensures var s' := DequeueStep(s, t);
            && s.log <= s'.log && |s'.pc| == |s.pc|
            && if s.pc[t].DeqReadNext? then Takes(s, s', s'.pc[t]) else Queue(s') == Queue(s) && s'.taken == s.taken
  {
    hide ListOk, Inv;
    InvAt(s, t);
  }

  lemma ReceivedMoves(s: State, c: Choice)
    ensures var s' := Next(s, c);
            || s'.received == s.received
            || (c.t < |s.pc| && s.pc[c.t].DeqFree? && s'.received == s.received[s.pc[c.t].k := s.pc[c.t].value])
  {
  }

  /** The k-th successful dequeue returns the k-th value enqueued. */
  lemma ReturnsInOrder(s: State, c: Choice)
    requires Inv(s)
    ensures var s' := Next(s, c);
            || s'.received == s.received
            || (c.t < |s.pc| && s.pc[c.t].DeqFree? && s.pc[c.t].k < |s.log| && s.pc[c.t].value == s.log[s.pc[c.t].k]
                && s'.received == s.received[s.pc[c.t].k := s.log[s.pc[c.t].k]])
    ensures forall k :: k in s.received ==> k < |s.log| && s.received[k] == s.log[k]
  {
    ReceivedMoves(s, c);
    if c.t < |s.pc| {
      InvAt(s, c.t);
    }
    hide ListOk, Next;
  }

  // Every call takes effect once, with its own value, and returns what it did.

  datatype Call = Put(value: int) | Get

  datatype Effect = Appended(value: int) | Took(value: int) | FoundEmpty

  datatype Reply = Done | Got(value: int) | Empty

  function Asks(e: Effect): Call {
    if e.Appended? then Put(e.value) else Get
  }

  function Answers(e: Effect): Reply {
    match e case Appended(_) => Done case Took(v) => Got(v) case FoundEmpty => Empty
  }

  /** The calls that thread `t` begins. */
  function Calls(t: nat): (State, Choice) -> Option<Call> {
    (s: State, c: Choice) =>
      if c.t != t || t >= |s.pc| || !s.pc[t].Idle? then None
      else match c case Enqueue(_, v) => Some(Put(v)) case Dequeue(_) => Some(Get) case _ => None
  }

  /** What a step does to the abstract queue, or learns of it. */
  function EffectOf(s: State, c: Choice): Option<Effect> {
    var s' := Next(s, c);
    if |s.log| < |s'.log| then Some(Appended(s'.log[|s.log|]))
    else if s.taken < s'.taken && s.taken < |s.log| then Some(Took(s.log[s.taken]))
    else if c.Step? && c.t < |s.pc| && s.pc[c.t].DeqReadNext? && Queue(s) == [] then Some(FoundEmpty)
    else None
  }

  /** What a step that ends a call returns. */
  function ReplyOf(s: State, c: Choice): Option<Reply> {
    var s' := Next(s, c);
    if c.t >= |s.pc| || c.t >= |s'.pc| || s.pc[c.t].Idle? || !s'.pc[c.t].Idle? then None
    else if IsEnqueue(s.pc[c.t]) then Some(Done)
    else if s.pc[c.t].DeqFree? && s.pc[c.t].k in s'.received then Some(Got(s'.received[s.pc[c.t].k]))
    else Some(Empty)
  }

  function Effects(t: nat): (State, Choice) -> Option<Effect> {
    (s: State, c: Choice) => if c.t == t then EffectOf(s, c) else None
  }

  function Replies(t: nat): (State, Choice) -> Option<Reply> {
    (s: State, c: Choice) => if c.t == t then ReplyOf(s, c) else None
  }

  function AskedAt(p: Pc): Option<Call> {
    if p.EnqAlloc? || p.EnqSetValue? || p.EnqSetNext? || p.EnqLock? || p.EnqLink? then Some(Put(p.value))
    else if p.DeqLock? || p.DeqReadHead? || p.DeqReadNext? then Some(Get)
    else None
  }

  function DueAt(log: seq<int>, p: Pc): Option<Reply> {
    if p.EnqSwing? || p.EnqUnlock? then Some(Done)
    else if p.DeqUnlockEmpty? then Some(Empty)
    else if (p.DeqReadValue? || p.DeqSetHead? || p.DeqUnlock? || p.DeqFree?) && p.k < |log| then Some(Got(log[p.k]))
    else None
  }

  /** The call of thread `t` that has not taken effect, if any. */
  function Asked(t: nat): State -> Option<Call> {
    (s: State) => if t < |s.pc| then AskedAt(s.pc[t]) else None
  }

  /** The reply that thread `t` has still to give, if any. */
  function Due(t: nat): State -> Option<Reply> {
    (s: State) => if t < |s.pc| then DueAt(s.log, s.pc[t]) else None
  }

  /** The effect is one of a FIFO. */
  predicate Fifo(queue: seq<int>, queue': seq<int>, done: Option<Effect>) {
    match done
    case None => queue' == queue
    case Some(Appended(v)) => queue' == queue + [v]
    case Some(Took(v)) => queue != [] && v == queue[0] && queue' == queue[1..]
    case Some(FoundEmpty) => queue == [] && queue' == []
  }

  /** The step of thread `c.t` passes its call on to the effect. */
  predicate Asking(s: State, c: Choice)
    requires c.t < |s.pc|
  {
    var s' := Next(s, c);
    && |s'.pc| == |s.pc|
    && Passes(AskedAt(s.pc[c.t]), Calls(c.t)(s, c), MapOption(Asks, EffectOf(s, c)), AskedAt(s'.pc[c.t]))
  }

  /** It passes the effect on to the reply. */
  predicate Answering(s: State, c: Choice)
    requires c.t < |s.pc|
  {
    var s' := Next(s, c);
    && |s'.pc| == |s.pc|
    && Passes(DueAt(s.log, s.pc[c.t]), MapOption(Answers, EffectOf(s, c)), ReplyOf(s, c), DueAt(s'.log, s'.pc[c.t]))
  }

  lemma EnqueueAsks(s: State, c: Choice)
    requires Inv(s) && c.t < |s.pc| && c.Step? && IsEnqueue(s.pc[c.t])
    ensures Asking(s, c)
  {
    InvAt(s, c.t);
    hide ListOk, Inv, Local;
  }

  lemma EnqueueAnswers(s: State, c: Choice)
    requires Inv(s) && c.t < |s.pc| && c.Step? && IsEnqueue(s.pc[c.t])
    ensures Answering(s, c)
  {
    InvAt(s, c.t);
    hide ListOk, Inv, Local;
  }

  lemma DequeueAsks(s: State, c: Choice)
    requires Inv(s) && c.t < |s.pc| && c.Step? && !IsEnqueue(s.pc[c.t])
    ensures Asking(s, c)
  {
    InvAt(s, c.t);
    hide ListOk, Inv;
  }

  lemma DequeueAnswers(s: State, c: Choice)
    requires Inv(s) && c.t < |s.pc| && c.Step? && !IsEnqueue(s.pc[c.t])
    ensures Answering(s, c)
  {
    InvAt(s, c.t);
    hide ListOk, Inv;
  }

  lemma StepServes(s: State, c: Choice)
    requires Inv(s) && c.t < |s.pc|
    ensures Asking(s, c) && Answering(s, c)
  {
    if c.Step? {
      hide Asking, Answering, Inv, Next;
      if IsEnqueue(s.pc[c.t]) {
        EnqueueAsks(s, c);
        EnqueueAnswers(s, c);
      } else {
        DequeueAsks(s, c);
        DequeueAnswers(s, c);
      }
    } else {
      InvAt(s, c.t);
      hide Inv, ListOk, EnqueueStep, DequeueStep;
    }
  }

  lemma DueStays(s: State, t: nat, log: seq<int>)
    requires Inv(s) && t < |s.pc| && s.log <= log
    ensures DueAt(log, s.pc[t]) == DueAt(s.log, s.pc[t])
  {
    InvAt(s, t);
    hide ListOk, Inv, Owned;
  }

  lemma OthersStay(s: State, c: Choice, t: nat)
    requires Inv(s) && c.t != t && t < |s.pc|
    ensures |Next(s, c).pc| == |s.pc| && Next(s, c).pc[t] == s.pc[t]
  {
    if c.t < |s.pc| {
      StepServes(s, c);
      hide Inv, Next;
      OwnedMoves(s, c);
    }
  }

  lemma NextServes(s: State, c: Choice, t: nat)
    requires Inv(s)
    ensures Passes(Asked(t)(s), Calls(t)(s, c), MapOption(Asks, Effects(t)(s, c)), Asked(t)(Next(s, c)))
    ensures Passes(Due(t)(s), MapOption(Answers, Effects(t)(s, c)), Replies(t)(s, c), Due(t)(Next(s, c)))
    ensures |Next(s, c).pc| == |s.pc|
  {
    if c.t >= |s.pc| {
      hide Inv;
    } else if c.t == t {
      StepServes(s, c);
      hide Inv, Next, EffectOf, ReplyOf, AskedAt, DueAt;
    } else {
      StepServes(s, c);
      NextRefinesFifo(s, c);
      if t < |s.pc| {
        OthersStay(s, c, t);
        DueStays(s, t, Next(s, c).log);
      }
      hide Inv, Next, EffectOf, ReplyOf, AskedAt, DueAt;
    }
  }

  /** In every run the calls of each thread take effect one by one in the order they were made, each once, a put
      with the value it was called with; the replies tell those effects in that order; and at each moment at most
      one call waits for its effect, and at most one effect for its reply. */
  lemma CallsAreServed(dummy: nat, junk: int, threads: nat, sched: seq<Choice>, t: nat)
    requires dummy != 0
    ensures var s0 := Init(dummy, junk, threads);
            var s, done := Exec(Next, s0, sched), Collect(Next, Effects(t), s0, sched);
            && Collect(Next, Calls(t), s0, sched) == Map(Asks, done) + Listed(Asked(t)(s))
            && Map(Answers, done) == Collect(Next, Replies(t), s0, sched) + Listed(Due(t)(s))
  {
    var s0 := Init(dummy, junk, threads);
    InitInv(dummy, junk, threads);
    hide Inv, Next;
    forall s: State, c: Choice | Inv(s)
      ensures Inv(Next(s, c))
      ensures Passes(Asked(t)(s), Calls(t)(s, c), MapOption(Asks, Effects(t)(s, c)), Asked(t)(Next(s, c)))
      ensures Passes(Due(t)(s), MapOption(Answers, Effects(t)(s, c)), Replies(t)(s, c), Due(t)(Next(s, c)))
    {
      NextKeepsInv(s, c);
      NextServes(s, c, t);
    }
    CallsTakeEffect(Next, Inv, Calls(t), Effects(t), Replies(t), Asks, Answers, Asked(t), Due(t), s0, sched);
  }

  lemma EnqueueFifo(s: State, c: Choice)
    requires Inv(s) && c.t < |s.pc| && c.Step? && IsEnqueue(s.pc[c.t])
    ensures Fifo(Queue(s), Queue(Next(s, c)), EffectOf(s, c))
  {
    InvAt(s, c.t);
    hide ListOk, Inv, Local;
  }

  lemma DequeueFifo(s: State, c: Choice)
    requires Inv(s) && c.t < |s.pc| && c.Step? && !IsEnqueue(s.pc[c.t])
    ensures Fifo(Queue(s), Queue(Next(s, c)), EffectOf(s, c))
  {
    DequeueRefines(s, c.t);
    assert !s.fault;
    hide ListOk, Inv, Local;
  }

  /** And the effects are those of a FIFO, step by step. */
  lemma EffectIsFifo(s: State, c: Choice)
    requires Inv(s)
    ensures Fifo(Queue(s), Queue(Next(s, c)), EffectOf(s, c))
  {
    if c.t < |s.pc| && c.Step? {
      hide Inv, Next, Fifo, EffectOf;
      if IsEnqueue(s.pc[c.t]) { EnqueueFifo(s, c); } else { DequeueFifo(s, c); }
    }
  }

  predicate WaitsForLock(s: State, t: nat)
    requires t < |s.pc|
  {
    (s.pc[t].EnqLock? && s.tailLock.Held?) || (s.pc[t].DeqLock? && s.headLock.Held?)
  }

  lemma UnlessWaitingMoves(s: State, t: nat, a: nat)
    requires Inv(s) && t < |s.pc| && !s.pc[t].Idle? && !WaitsForLock(s, t) && a != 0 && a !in s.heap
    ensures Next(s, Step(t, a, Node(0, 0))) != s
  {
    hide ListOk, Inv;
    InvAt(s, t);
    assert Next(s, Step(t, a, Node(0, 0))).pc[t] != s.pc[t];
  }

  /** A thread inside an operation can move, or waits for a lock whose owner can. */
  lemma NeverStuck(s: State, t: nat)
    requires Inv(s) && t < |s.pc| && !s.pc[t].Idle?
    ensures exists c: Choice :: c.t < |s.pc| && !s.pc[c.t].Idle? && Next(s, c) != s
  {
    var u := if !WaitsForLock(s, t) then t else if s.pc[t].EnqLock? then s.tailLock.owner else s.headLock.owner;
    var a := Unused(s.heap);
    assert Local(s, u);
    UnlessWaitingMoves(s, u, a);
  }

  lemma Unused(heap: map<nat, Node>) returns (a: nat)
    ensures a != 0 && a !in heap
  {
    a := 1 + Largest(heap.Keys);
    LargestBounds(heap.Keys);
  }

  ghost function Largest(keys: set<nat>): nat {
    if keys == {} then 0 else
    var x :| x in keys;
    var m := Largest(keys - {x});
    if x > m then x else m
  }

  lemma LargestBounds(keys: set<nat>)
    ensures forall x :: x in keys ==> x <= Largest(keys)
  {
    if keys != {} {
      var x :| x in keys && Largest(keys) == (if x > Largest(keys - {x}) then x else Largest(keys - {x}));
      LargestBounds(keys - {x});
      forall y | y in keys ensures y <= Largest(keys) {
        assert y == x || y in keys - {x};
      }
    }
  }

  /** The tail pointer may name a freed node: the dequeuer has overtaken an enqueuer between its two writes. */
  lemma TailMayDangle(dummy: nat, junk: int, threads: nat) returns (s: State)
    requires dummy != 0 && threads >= 2
    ensures Reachable(dummy, junk, threads, s) && s.tail !in s.heap && !s.fault
  {
    var s0 := Init(dummy, junk, threads);
    var a := dummy + 1;
    hide Reaches;
    ReachesSelf(Next, s0);
    var c := Step(0, a, Node(0, 0));
    s := Go(Next, s0, s0, Enqueue(0, 7));
    s := Go(Next, s0, s, c);
    assert s == s0.(heap := s0.heap[a := Node(0, 0)], pc := s0.pc[0 := EnqSetValue(7, a)]);
    s := Go(Next, s0, s, c);
    s := Go(Next, s0, s, c);
    assert s == s0.(heap := s0.heap[a := Node(7, 0)], pc := s0.pc[0 := EnqLock(7, a)]);
    s := Go(Next, s0, s, c);
    s := Go(Next, s0, s, c);
    assert s.pc == s0.pc[0 := EnqSwing(7, a)] && s.heap[dummy].next == a;
    s := TakeAndFree(s0, s, dummy, a);
  }

  lemma TakeAndFree(s0: State, s: State, dummy: nat, a: nat) returns (s': State)
    requires Reaches(Next, s0, s) && |s.pc| >= 2 && s.pc[1].Idle? && s.headLock.Free? && s.head == dummy == s.tail
               && !s.fault
    requires a != 0 && a != dummy && dummy in s.heap && a in s.heap && s.heap[dummy].next == a
    ensures Reaches(Next, s0, s') && s'.tail !in s'.heap && !s'.fault
  {
    hide Reaches;
    var c := Step(1, 0, Node(0, 0));
    s' := Go(Next, s0, s, Dequeue(1));
    s' := Go(Next, s0, s', c);
    assert s' == s.(headLock := Held(1), pc := s.pc[1 := DeqReadHead]);
    s' := Go(Next, s0, s', c);
    s' := Go(Next, s0, s', c);
    assert s' == s.(headLock := Held(1), taken := s.taken + 1, pc := s.pc[1 := DeqReadValue(dummy, a, s.taken)]);
    s' := UnlinkAndFree(s0, s', dummy, a, s.taken);
  }

  lemma UnlinkAndFree(s0: State, s: State, dummy: nat, a: nat, k: nat) returns (s': State)
    requires Reaches(Next, s0, s) && |s.pc| >= 2 && s.pc[1] == DeqReadValue(dummy, a, k) && s.tail == dummy && !s.fault
    requires dummy in s.heap && a in s.heap
    ensures Reaches(Next, s0, s') && s'.tail !in s'.heap && !s'.fault
  {
    hide Reaches;
    var c := Step(1, 0, Node(0, 0));
    s' := Go(Next, s0, s, c);
    var v := s.heap[a].value;
    assert s'.pc == s.pc[1 := DeqSetHead(dummy, a, v, k)] && s'.heap == s.heap && s'.tail == dummy && !s'.fault;
    s' := Go(Next, s0, s', c);
    assert s'.pc == s.pc[1 := DeqUnlock(dummy, v, k)] && s'.heap == s.heap && s'.tail == dummy && !s'.fault;
    s' := Go(Next, s0, s', c);
    s' := Go(Next, s0, s', c);
  }

  /** The tail pointer names live memory. */
  predicate TailLive(s: State) { s.tail in s.heap }

  /** A dead tail is about to be swung: the thread that holds the tail lock is between its two writes. */
  lemma DeadTailIsBeingSwung(dummy: nat, junk: int, threads: nat, s: State)
    requires dummy != 0 && Reachable(dummy, junk, threads, s) && !TailLive(s)
    ensures s.tailLock.Held? && s.tailLock.owner < |s.pc| && s.pc[s.tailLock.owner].EnqSwing?
    ensures s.pc[s.tailLock.owner].node in s.heap
  {
    ReachableGood(dummy, junk, threads, s);
    ListFacts(s.heap, s.head, s.chain, s.log);
    if s.tailLock.Held? { assert Local(s, s.tailLock.owner); }
  }

  /** A thread that is alone frees no node while the tail lags behind. */
  lemma AloneKeepsTail(s: State, c: Choice)
    requires Inv(s) && |s.pc| <= 1 && TailLive(s)
    ensures TailLive(Next(s, c)) && |Next(s, c).pc| == |s.pc|
  {
    ListFacts(s.heap, s.head, s.chain, s.log);
    if c.t < |s.pc| {
      assert Local(s, c.t);
      hide ListOk, Inv, OneOwner;
      if c.Step? && s.pc[c.t].DeqFree? { TailInChain(s, c.t); }
    }
  }

  lemma TailInChain(s: State, t: nat)
    requires Inv(s) && t < |s.pc| <= 1 && s.pc[t].DeqFree?
    ensures s.tail in s.chain && s.pc[t].dummy !in s.chain
  {
    assert Local(s, t);
  }

  /** The tail names live memory in every run exactly if there is no second thread to overtake it. */
  lemma TailLiveIff(dummy: nat, junk: int, threads: nat)
    requires dummy != 0
    ensures (forall s :: Reachable(dummy, junk, threads, s) ==> TailLive(s)) <==> threads <= 1
  {
    if threads <= 1 {
      var s0 := Init(dummy, junk, threads);
      InitInv(dummy, junk, threads);
      hide Inv, Next;
      var inv := (s: State) => Inv(s) && |s.pc| <= 1 && TailLive(s);
      forall s: State, c: Choice | inv(s) ensures inv(Next(s, c)) {
        NextKeepsInv(s, c);
        AloneKeepsTail(s, c);
      }
      forall s | Reachable(dummy, junk, threads, s) ensures TailLive(s) {
        ReachesKeeps(Next, inv, s0, s);
      }
    } else {
      var s := TailMayDangle(dummy, junk, threads);
    }
  }

  // The queue as it is updated in place.

  predicate Reads(p: Pc) { p.DeqLock? || p.DeqReadHead? || p.DeqReadNext? || p.DeqReadValue? }

  class LinkedQueue {
    var heap: map<nat, Node>
    var head: nat
    var tail: nat
    var headLock: Lock
    var tailLock: Lock
    var pc: seq<Pc>
    var fault: bool
    ghost var chain: seq<nat>
    ghost var log: seq<int>
    var taken: nat
    ghost var received: map<nat, int>

    ghost function View(): State
      reads this
    {
      State(heap, head, tail, headLock, tailLock, pc, fault, chain, log, taken, received)
    }

    ghost predicate Valid()
      reads this
    {
      Inv(View())
    }

    constructor (dummy: nat, junk: int, threads: nat)
      requires dummy != 0
      ensures View() == Init(dummy, junk, threads) && Valid()
    {
      heap, head, tail := map[dummy := Node(junk, 0)], dummy, dummy;
      headLock, tailLock, fault := Free, Free, false;
      pc := seq(threads, _ => Idle);
      chain, log, taken, received := [dummy], [], 0, map[];
      new;
      InitInv(dummy, junk, threads);
    }

    /** Thread `t` calls enqueue or dequeue. */
    method Begin(c: Choice)
      requires Valid() && !c.Step? && c.t < |pc| && pc[c.t].Idle?
      modifies this
      ensures View() == Next(old(View()), c) && Valid()
    {
      NextKeepsInv(View(), c);
      pc := pc[c.t := if c.Enqueue? then EnqAlloc(c.value) else DeqLock];
    }

    /** The next statement of thread `t` inside the enqueuing function; the memory it follows is live. */
    method StepEnqueue(t: nat, address: nat, junk: Node)
      requires Valid() && t < |pc| && IsEnqueue(pc[t])
      modifies this
      ensures View() == EnqueueStep(old(View()), t, address, junk) && Valid()
    {
      hide ListOk, Inv;
      ghost var before := View();
      EnqueueKeepsInv(View(), t, address, junk);
      InvAt(View(), t);
      var p := pc[t];
      match p {
        case EnqAlloc(v) =>
          if address != 0 && address !in heap {
            heap := heap[address := junk];
            p := EnqSetValue(v, address);
          }
        case EnqSetValue(v, a) =>
          heap := heap[a := heap[a].(value := v)];
          p := EnqSetNext(v, a);
        case EnqSetNext(v, a) =>
          heap := heap[a := heap[a].(next := 0)];
          p := EnqLock(v, a);
        case EnqLock(v, a) =>
          if tailLock.Free? {
            tailLock := Held(t);
            p := EnqLink(v, a);
          }
        case EnqLink(v, a) =>
          heap := heap[tail := heap[tail].(next := a)];
          chain, log := chain + [a], log + [v];
          p := EnqSwing(v, a);
        case EnqSwing(_, a) =>
          tail := a;
          p := EnqUnlock;
        case EnqUnlock =>
          tailLock := Free;
          p := Idle;
      }
      pc := pc[t := p];
      assert View() == EnqueueStep(before, t, address, junk);
    }

    /** The next statement of thread `t` in the first half of the dequeuing function, which takes the lock and
        reads; the memory it follows is live. */
    method StepDequeueRead(t: nat)
      requires Valid() && t < |pc| && Reads(pc[t])
      modifies this
      ensures View() == DequeueStep(old(View()), t) && Valid()
    {
      hide ListOk, Inv;
      ghost var before := View();
      DequeueKeepsInv(View(), t);
      InvAt(View(), t);
      var p := pc[t];
      match p {
        case DeqLock =>
          if headLock.Free? {
            headLock := Held(t);
            p := DeqReadHead;
          }
        case DeqReadHead =>
          p := DeqReadNext(head);
        case DeqReadNext(dummy) =>
          if heap[dummy].next == 0 {
            p := DeqUnlockEmpty;
          } else {
            p := DeqReadValue(dummy, heap[dummy].next, taken);
            taken := taken + 1;
          }
        case DeqReadValue(dummy, first, k) =>
          p := DeqSetHead(dummy, first, heap[first].value, k);
      }
      pc := pc[t := p];
      assert View() == DequeueStep(before, t);
    }

    /** The next statement of thread `t` in the second half, which moves head, unlocks and frees. */
    method StepDequeueUnlink(t: nat)
      requires Valid() && t < |pc| && !Reads(pc[t])
      modifies this
      ensures View() == DequeueStep(old(View()), t) && Valid()
    {
      hide ListOk, Inv;
      ghost var before := View();
      DequeueKeepsInv(View(), t);
      InvAt(View(), t);
      var p := pc[t];
      match p {
        case DeqUnlockEmpty =>
          headLock := Free;
          p := Idle;
        case DeqSetHead(dummy, first, v, k) =>
          head := first;
          chain := chain[1..];
          p := DeqUnlock(dummy, v, k);
        case DeqUnlock(dummy, v, k) =>
          headLock := Free;
          p := DeqFree(dummy, v, k);
        case DeqFree(dummy, v, k) =>
          heap := heap - {dummy};
          received := received[k := v];
          p := Idle;
        case _ =>
      }
      pc := pc[t := p];
      assert View() == DequeueStep(before, t);
    }

    /** Any scheduler and any allocator: calls begin and threads take their steps as `sched` says. */
    method Run(sched: seq<Choice>)
      requires Valid()
      modifies this
      ensures View() == Exec(Next, old(View()), sched) && Valid()
    {
      for k := 0 to |sched|
        invariant View() == Exec(Next, old(View()), sched[..k]) && Valid()
      {
        ExecSnoc(Next, old(View()), sched[..k], sched[k]);
        assert sched[..k + 1] == sched[..k] + [sched[k]];
        var c := sched[k];
        if c.t < |pc| {
          if !c.Step? {
            if pc[c.t].Idle? { Begin(c); }
          } else if IsEnqueue(pc[c.t]) {
            StepEnqueue(c.t, c.address, c.junk);
          } else if Reads(pc[c.t]) {
            StepDequeueRead(c.t);
          } else {
            StepDequeueUnlink(c.t);
          }
        }
      }
      assert sched[..|sched|] == sched;
    }
  }
}
