/** The stack on one compare-and-exchange, whose pop deletes its node.  Memory is a map from live addresses to
    nodes; new may return any address that is not live and, if `safe`, that no unfinished pop still holds in
    `got`; following `got` after its node was deleted reads an arbitrary pointer; reading the data of, writing
    or deleting an address that is not live sets `fault`; a weak compare-and-exchange may fail for no reason. */
module CasStack {
  import opened Runs

  datatype Node = Node(data: int, next: nat)  // 0 is nullptr

  /** `k` is the place of the operation in the history. */
  datatype Pc =
    | Idle
    | PushNew(val: int)                     // next: new node
    | PushLoad(val: int, node: nat)         // next: new_node->next = head
    | PushCas(val: int, node: nat)          // next: compare_exchange_weak(new_node->next, new_node)
    | PopLoad                               // next: got = head
    | PopTest(got: nat)                     // next: the test of got, which returns false if it is null
    | PopNext(got: nat)                     // next: nextn = got->next
    | PopCas(got: nat, nextn: nat)          // next: compare_exchange_weak(got, nextn)
    | PopData(got: nat, k: nat)             // next: m = got->data
    | PopDelete(got: nat, m: int, k: nat)   // next: delete got, return m

  datatype Op = Push(value: int) | Pop(value: int) | PopEmpty

  /** `chain` lists the nodes from head on.  `history` lists the operations in the order in which they took
      effect, a pop with the data its node has at that moment; `returned[k]` is what operation k returned. */
  datatype State = State(
    safe: bool, heap: map<nat, Node>, head: nat, pc: seq<Pc>, fault: bool,
    chain: seq<nat>, history: seq<Op>, returned: map<nat, int>)

  datatype Choice =
    | StartPush(t: nat, val: int)
    | StartPop(t: nat)
    | Step(t: nat, address: nat, junk: nat, spurious: bool)

  function Init(safe: bool, threads: nat): State {
    State(safe, map[], 0, seq(threads, _ => Idle), false, [], [], map[])
  }

  function Goto(s: State, t: nat, p: Pc): State
    requires t < |s.pc|
  {
    s.(pc := s.pc[t := p])
  }

  /** The node an unfinished pop still names in `got` without owning it, or 0. */
  function HeldIn(p: Pc): nat {
    match p
    case PopTest(got) => got
    case PopNext(got) => got
    case PopCas(got, _) => got
    case _ => 0
  }

  predicate Holds(pc: seq<Pc>, a: nat) {
    exists t :: 0 <= t < |pc| && HeldIn(pc[t]) == a
  }

  function Next(s: State, c: Choice): State {
    if c.t >= |s.pc| || s.fault then s else
    match c
    case StartPush(t, val) => if s.pc[t].Idle? then Goto(s, t, PushNew(val)) else s
    case StartPop(t) => if s.pc[t].Idle? then Goto(s, t, PopLoad) else s
    case Step(t, address, junk, spurious) =>
      if IsPush(s.pc[t]) then PushStep(s, t, address, spurious) else PopStep(s, t, junk, spurious)
  }

  predicate IsPush(p: Pc) { p.PushNew? || p.PushLoad? || p.PushCas? }

  function PushStep(s: State, t: nat, address: nat, spurious: bool): State
    requires t < |s.pc|
  {
    match s.pc[t]
    case PushNew(v) =>
      if address == 0 || address in s.heap || (s.safe && Holds(s.pc, address)) then s
      else Goto(s.(heap := s.heap[address := Node(v, 0)]), t, PushLoad(v, address))
    case PushLoad(v, a) =>
      if a !in s.heap then s.(fault := true)
      else Goto(s.(heap := s.heap[a := s.heap[a].(next := s.head)]), t, PushCas(v, a))
    case PushCas(v, a) =>
      if a !in s.heap then s.(fault := true)
      else if s.head == s.heap[a].next && !spurious then
        Goto(s.(head := a, chain := [a] + s.chain, history := s.history + [Push(v)]), t, Idle)
      else s.(heap := s.heap[a := s.heap[a].(next := s.head)])
    case _ => s
  }

  /** A load of head that finds null decides that the pop returns false. */
  function LoadHead(s: State, t: nat): State
    requires t < |s.pc|
  {
    Goto(if s.head == 0 then s.(history := s.history + [PopEmpty]) else s, t, PopTest(s.head))
  }

  function PopStep(s: State, t: nat, junk: nat, spurious: bool): State
    requires t < |s.pc|
  {
    match s.pc[t]
    case PopLoad => LoadHead(s, t)
    case PopTest(got) => Goto(s, t, if got == 0 then Idle else PopNext(got))
    case PopNext(got) => Goto(s, t, PopCas(got, if got in s.heap then s.heap[got].next else junk))
    case PopCas(got, nextn) =>
      if s.head == got && !spurious then
        Goto(s.(head := nextn, chain := if s.chain == [] then [] else s.chain[1..],
                history := s.history + [Pop(if got in s.heap then s.heap[got].data else 0)]),
             t, PopData(got, |s.history|))
      else LoadHead(s, t)
    case PopData(got, k) =>
      if got !in s.heap then s.(fault := true) else Goto(s, t, PopDelete(got, s.heap[got].data, k))
    case PopDelete(got, m, k) =>
      if got !in s.heap then s.(fault := true)
      else Goto(s.(heap := s.heap - {got}, returned := s.returned[k := m]), t, Idle)
    case _ => s
  }

  // The abstract stack.

  /** What an operation does to the stack. */
  function Apply(stack: seq<int>, op: Op): seq<int> {
    match op
    case Push(v) => [v] + stack
    case Pop(_) => if stack == [] then [] else stack[1..]
    case PopEmpty => stack
  }

  /** What a sequential stack allows. */
  predicate Allowed(stack: seq<int>, op: Op) {
    match op
    case Push(_) => true
    case Pop(v) => stack != [] && stack[0] == v
    case PopEmpty => stack == []
  }

  /** The stack, top first, after the operations of `h`. */
  function After(h: seq<Op>): seq<int> {
    if h == [] then [] else Apply(After(h[..|h| - 1]), h[|h| - 1])
  }

  /** Every pop of `h` took the top, or found the stack empty. */
  predicate Lifo(h: seq<Op>) {
    h == [] || (Lifo(h[..|h| - 1]) && Allowed(After(h[..|h| - 1]), h[|h| - 1]))
  }

  lemma Append(h: seq<Op>, op: Op)
    ensures After(h + [op]) == Apply(After(h), op)
    ensures Lifo(h + [op]) <==> Lifo(h) && Allowed(After(h), op)
  {
    assert (h + [op])[..|h|] == h;
  }

  // The invariant.

  /** From `head` on, memory holds the list of the nodes `chain` with the values `stack`. */
  predicate Linked(heap: map<nat, Node>, head: nat, chain: seq<nat>, stack: seq<int>)
    decreases |chain|
  {
    if chain == [] then head == 0 && stack == []
    else
      && head != 0 && head == chain[0] && head in heap && head !in chain[1..]
      && stack != [] && heap[head].data == stack[0]
      && Linked(heap, heap[head].next, chain[1..], stack[1..])
  }

  lemma {:induction false} LinkedLive(heap: map<nat, Node>, head: nat, chain: seq<nat>, stack: seq<int>)
    requires Linked(heap, head, chain, stack)
    ensures forall a :: a in chain ==> a in heap
    ensures head == 0 <==> stack == []
    ensures head != 0 ==> head in chain
    decreases |chain|
  {
    if chain != [] {
      LinkedLive(heap, heap[head].next, chain[1..], stack[1..]);
    }
  }

  /** The list does not depend on memory outside it. */
  lemma {:induction false} LinkedFrame(
      heap: map<nat, Node>, heap': map<nat, Node>, head: nat, chain: seq<nat>, stack: seq<int>)
    requires Linked(heap, head, chain, stack)
    requires forall a :: a in chain && a in heap ==> a in heap' && heap'[a] == heap[a]
    ensures Linked(heap', head, chain, stack)
    decreases |chain|
  {
    if chain != [] {
      LinkedFrame(heap, heap', heap[head].next, chain[1..], stack[1..]);
    }
  }

  /** The node a push has made and not linked yet, or 0. */
  function Pushing(p: Pc): nat {
    match p
    case PushLoad(_, a) => a
    case PushCas(_, a) => a
    case _ => 0
  }

  /** The node outside the list that a thread owns, or 0. */
  function Owned(p: Pc): nat {
    match p
    case PopData(got, _) => got
    case PopDelete(got, _, _) => got
    case _ => Pushing(p)
  }

  ghost predicate Local(s: State, p: Pc) {
    && (Owned(p) != 0 ==> Owned(p) in s.heap && Owned(p) !in s.chain)
    && match p
       case PushLoad(v, a) => a != 0 && s.heap[a].data == v
       case PushCas(v, a) => a != 0 && s.heap[a].data == v
       case PopNext(got) => got != 0
       case PopCas(got, nextn) => got != 0 && (got in s.chain && got in s.heap ==> s.heap[got].next == nextn)
       case PopData(got, k) => got != 0 && k < |s.history| && s.history[k] == Pop(s.heap[got].data)
       case PopDelete(got, m, k) => got != 0 && k < |s.history| && s.history[k] == Pop(m)
       case _ => true
  }

  /** No two threads own the same node, and no pop holds a node that a push has made since. */
  ghost predicate Apart(pc: seq<Pc>) {
    forall t, u :: 0 <= t < |pc| && 0 <= u < |pc| && t != u ==>
      && (Owned(pc[t]) != 0 ==> Owned(pc[t]) != Owned(pc[u]))
      && (Pushing(pc[t]) != 0 ==> Pushing(pc[t]) != HeldIn(pc[u]))
  }

  ghost predicate Inv(s: State) {
    && !s.fault && 0 !in s.heap
    && Lifo(s.history)
    && Linked(s.heap, s.head, s.chain, After(s.history))
    && (forall t :: 0 <= t < |s.pc| ==> Local(s, s.pc[t]))
    && Apart(s.pc)
    && (forall k :: k in s.returned ==> k < |s.history| && s.history[k] == Pop(s.returned[k]))
  }

  predicate HasOwner(pc: seq<Pc>, a: nat) {
    exists t :: 0 <= t < |pc| && Owned(pc[t]) == a
  }

  /** Every live node is in the list or owned. */
  ghost predicate Accounted(s: State) {
    forall a :: a in s.heap ==> a in s.chain || HasOwner(s.pc, a)
  }

  /** A pop in progress is safe from the allocator; with one thread it is in any case. */
  predicate Disciplined(s: State) {
    s.safe || |s.pc| <= 1
  }

  /** What another thread relies on survives a step that leaves its node and the links of the list alone. */
  lemma LocalFrame(s: State, s': State, p: Pc)
    requires Local(s, p) && s.history <= s'.history
    requires var a := Owned(p); a != 0 && a in s.heap ==> a in s'.heap && s'.heap[a] == s.heap[a] && a !in s'.chain
    requires var a := HeldIn(p);
             a != 0 && a in s'.chain && a in s'.heap ==> a in s.chain && a in s.heap && s'.heap[a] == s.heap[a]
    ensures Local(s', p)
  {
  }

  lemma InitInv(safe: bool, threads: nat)
    ensures Inv(Init(safe, threads)) && Accounted(Init(safe, threads))
  {
  }

  predicate OnlyMoves(s: State, s': State, t: nat) {
    && |s'.pc| == |s.pc| && s'.safe == s.safe
    && forall u :: 0 <= u < |s.pc| && u != t ==> s'.pc[u] == s.pc[u]
  }

  lemma PushMovesOne(s: State, t: nat, address: nat, spurious: bool)
    requires t < |s.pc| && IsPush(s.pc[t])
    ensures OnlyMoves(s, PushStep(s, t, address, spurious), t)
  {
  }

  lemma PopMovesOne(s: State, t: nat, junk: nat, spurious: bool)
    requires t < |s.pc| && !IsPush(s.pc[t])
    ensures OnlyMoves(s, PopStep(s, t, junk, spurious), t)
  {
  }

  /** Only the scheduled thread changes place. */
  lemma OthersStay(s: State, c: Choice)
    ensures OnlyMoves(s, Next(s, c), c.t)
  {
    hide PushStep, PopStep;
    if c.Step? && c.t < |s.pc| {
      if IsPush(s.pc[c.t]) {
        PushMovesOne(s, c.t, c.address, c.spurious);
      } else {
        PopMovesOne(s, c.t, c.junk, c.spurious);
      }
    }
  }

  lemma LocalsAt(s: State, t: nat)
    requires Inv(s) && t < |s.pc|
    ensures Local(s, s.pc[t])
    ensures forall u :: 0 <= u < |s.pc| ==> Local(s, s.pc[u])
    ensures forall u :: 0 <= u < |s.pc| && u != t ==>
              && (Owned(s.pc[t]) != 0 ==> Owned(s.pc[t]) != Owned(s.pc[u]))
              && (Pushing(s.pc[t]) != 0 ==> Pushing(s.pc[t]) != HeldIn(s.pc[u]))
    ensures !s.fault && 0 !in s.heap && Linked(s.heap, s.head, s.chain, After(s.history))
    ensures forall a :: a in s.chain ==> a in s.heap
  {
    LinkedLive(s.heap, s.head, s.chain, After(s.history));
  }

  lemma NewKeepsInv(s: State, t: nat, address: nat, spurious: bool)
    requires Inv(s) && Disciplined(s) && t < |s.pc| && s.pc[t].PushNew?
    ensures Inv(PushStep(s, t, address, spurious))
  {
    hide Linked, Lifo, After;
    LocalsAt(s, t);
    var s' := PushStep(s, t, address, spurious);
    LinkedFrame(s.heap, s'.heap, s.head, s.chain, After(s.history));
    forall u | 0 <= u < |s'.pc| ensures Local(s', s'.pc[u]) {
      if u != t { LocalFrame(s, s', s.pc[u]); }
    }
  }

  /** The writes of a push to its own node: the load of head, and the compare-and-exchange that fails. */
  lemma WriteKeepsInv(s: State, t: nat, address: nat, spurious: bool)
    requires Inv(s) && t < |s.pc| && (s.pc[t].PushLoad? || s.pc[t].PushCas?)
    requires PushStep(s, t, address, spurious).history == s.history
    ensures Inv(PushStep(s, t, address, spurious))
  {
    hide Linked, Lifo, After;
    LocalsAt(s, t);
    var s' := PushStep(s, t, address, spurious);
    LinkedFrame(s.heap, s'.heap, s.head, s.chain, After(s.history));
    forall u | 0 <= u < |s'.pc| ensures Local(s', s'.pc[u]) {
      if u != t { LocalFrame(s, s', s.pc[u]); }
    }
  }

  /** The push takes effect. */
  lemma LinkKeepsInv(s: State, t: nat, address: nat)
    requires Inv(s) && t < |s.pc| && s.pc[t].PushCas?
    requires PushStep(s, t, address, false).history != s.history
    ensures Inv(PushStep(s, t, address, false))
  {
    hide Lifo, After;
    LocalsAt(s, t);
    var s' := PushStep(s, t, address, false);
    Append(s.history, Push(s.pc[t].val));
    assert s'.chain[1..] == s.chain && After(s'.history)[1..] == After(s.history);
    hide Linked;
    forall u | 0 <= u < |s'.pc| ensures Local(s', s'.pc[u]) {
      if u != t { LocalFrame(s, s', s.pc[u]); }
    }
  }

  lemma PushKeepsInv(s: State, t: nat, address: nat, spurious: bool)
    requires Inv(s) && Disciplined(s) && t < |s.pc| && IsPush(s.pc[t])
    ensures Inv(PushStep(s, t, address, spurious))
  {
    hide Inv;
    if s.pc[t].PushNew? {
      NewKeepsInv(s, t, address, spurious);
    } else if PushStep(s, t, address, spurious).history == s.history {
      WriteKeepsInv(s, t, address, spurious);
    } else {
      LinkKeepsInv(s, t, address);
    }
  }

  lemma LoadKeepsInv(s: State, t: nat)
    requires Inv(s) && t < |s.pc| && (s.pc[t].PopLoad? || s.pc[t].PopCas?)
    ensures Inv(LoadHead(s, t))
  {
    hide Linked, Lifo, After;
    LocalsAt(s, t);
    LinkedLive(s.heap, s.head, s.chain, After(s.history));
    Append(s.history, PopEmpty);
    var s' := LoadHead(s, t);
    forall u | 0 <= u < |s'.pc| ensures Local(s', s'.pc[u]) {
      if u != t { LocalFrame(s, s', s.pc[u]); }
    }
  }

  /** The pop takes effect: its node is the top, and what it read of the node's link is still true. */
  lemma TakeKeepsInv(s: State, t: nat, junk: nat)
    requires Inv(s) && t < |s.pc| && s.pc[t].PopCas? && s.head == s.pc[t].got
    ensures Inv(PopStep(s, t, junk, false))
  {
    hide Lifo, After;
    LocalsAt(s, t);
    var s' := PopStep(s, t, junk, false);
    assert s.chain != [];
    Append(s.history, Pop(s.heap[s.head].data));
    hide Linked;
    forall u | 0 <= u < |s'.pc| ensures Local(s', s'.pc[u]) {
      if u != t { LocalFrame(s, s', s.pc[u]); }
    }
  }

  /** The test of `got` and the read of its link, which may find anything. */
  lemma ReadKeepsInv(s: State, t: nat, junk: nat, spurious: bool)
    requires Inv(s) && t < |s.pc| && (s.pc[t].PopTest? || s.pc[t].PopNext? || s.pc[t].PopData? || s.pc[t].Idle?)
    ensures Inv(PopStep(s, t, junk, spurious))
  {
    hide Linked, Lifo, After;
    LocalsAt(s, t);
    var s' := PopStep(s, t, junk, spurious);
    forall u | 0 <= u < |s'.pc| ensures Local(s', s'.pc[u]) {
      if u != t { LocalFrame(s, s', s.pc[u]); }
    }
  }

  lemma DeleteKeepsInv(s: State, t: nat, junk: nat, spurious: bool)
    requires Inv(s) && t < |s.pc| && s.pc[t].PopDelete?
    ensures Inv(PopStep(s, t, junk, spurious))
  {
    hide Linked, Lifo, After;
    LocalsAt(s, t);
    var s' := PopStep(s, t, junk, spurious);
    LinkedFrame(s.heap, s'.heap, s.head, s.chain, After(s.history));
    forall u | 0 <= u < |s'.pc| ensures Local(s', s'.pc[u]) {
      if u != t { LocalFrame(s, s', s.pc[u]); }
    }
  }

  lemma PopKeepsInv(s: State, t: nat, junk: nat, spurious: bool)
    requires Inv(s) && t < |s.pc| && !IsPush(s.pc[t])
    ensures Inv(PopStep(s, t, junk, spurious))
  {
    hide Inv;
    if s.pc[t].PopCas? && s.head == s.pc[t].got && !spurious {
      TakeKeepsInv(s, t, junk);
    } else if s.pc[t].PopLoad? || s.pc[t].PopCas? {
      LoadKeepsInv(s, t);
    } else if s.pc[t].PopDelete? {
      DeleteKeepsInv(s, t, junk, spurious);
    } else {
      ReadKeepsInv(s, t, junk, spurious);
    }
  }

  lemma StartKeepsInv(s: State, c: Choice)
    requires Inv(s) && !c.Step?
    ensures Inv(Next(s, c))
  {
    hide Linked, Lifo, After;
    var s' := Next(s, c);
    forall u | 0 <= u < |s'.pc| ensures Local(s', s'.pc[u]) {
      assert Local(s, s.pc[u]);
    }
  }

  lemma NextKeepsInv(s: State, c: Choice)
    requires Inv(s) && Disciplined(s)
    ensures Inv(Next(s, c)) && Disciplined(Next(s, c)) && !Next(s, c).fault
  {
    OthersStay(s, c);
    hide PushStep, PopStep, Linked, Local, Lifo;
    if !c.Step? {
      StartKeepsInv(s, c);
    } else if c.t < |s.pc| {
      if IsPush(s.pc[c.t]) {
        PushKeepsInv(s, c.t, c.address, c.spurious);
      } else {
        PopKeepsInv(s, c.t, c.junk, c.spurious);
      }
    }
  }

  // No node is lost, and every pop that took effect returns once.

  lemma OwnerStays(pc: seq<Pc>, pc': seq<Pc>, t: nat, a: nat)
    requires t < |pc| == |pc'| && HasOwner(pc, a)
    requires forall u :: 0 <= u < |pc| && u != t ==> pc'[u] == pc[u]
    requires Owned(pc[t]) == a ==> Owned(pc'[t]) == a
    ensures HasOwner(pc', a)
  {
    var u :| 0 <= u < |pc| && Owned(pc[u]) == a;
    assert Owned(pc'[u]) == a;
  }

  lemma PushMoves(s: State, t: nat, address: nat, spurious: bool, a: nat)
    requires Inv(s) && t < |s.pc| && IsPush(s.pc[t]) && a != 0
    ensures var s' := PushStep(s, t, address, spurious);
            && (a in s.chain ==> a in s'.chain)
            && (a in s'.heap && a !in s.heap ==> Owned(s'.pc[t]) == a)
            && (Owned(s.pc[t]) == a ==> Owned(s'.pc[t]) == a || a in s'.chain)
  {
    LocalsAt(s, t);
    hide Inv, Linked, Lifo, After, Holds;
  }

  lemma PopMoves(s: State, t: nat, junk: nat, spurious: bool, a: nat)
    requires Inv(s) && t < |s.pc| && !IsPush(s.pc[t]) && a != 0
    ensures var s' := PopStep(s, t, junk, spurious);
            && (a in s.chain ==> a in s'.chain || Owned(s'.pc[t]) == a)
            && (a in s'.heap ==> a in s.heap)
            && (Owned(s.pc[t]) == a && a in s'.heap ==> Owned(s'.pc[t]) == a)
  {
    LocalsAt(s, t);
    assert s.chain != [] ==> s.chain[0] == s.head;
    assert forall i :: 0 < i < |s.chain| ==> s.chain[1..][i - 1] == s.chain[i];
    hide Inv, Linked, Lifo, After;
  }

  lemma NextKeepsAccounted(s: State, c: Choice)
    requires Inv(s) && Disciplined(s) && Accounted(s)
    ensures Accounted(Next(s, c))
  {
    var s' := Next(s, c);
    OthersStay(s, c);
    NextKeepsInv(s, c);
    forall a | a in s'.heap ensures a in s'.chain || HasOwner(s'.pc, a) {
      assert a != 0;
      assert a in s.heap ==> a in s.chain || HasOwner(s.pc, a);
      if c.t < |s.pc| {
        if c.Step? && IsPush(s.pc[c.t]) {
          PushMoves(s, c.t, c.address, c.spurious, a);
        } else if c.Step? {
          PopMoves(s, c.t, c.junk, c.spurious, a);
        }
        hide Inv, PushStep, PopStep;
        if a !in s'.chain && Owned(s'.pc[c.t]) != a {
          OwnerStays(s.pc, s'.pc, c.t, a);
        }
      }
    }
  }

  predicate Returning(p: Pc) { p.PopData? || p.PopDelete? }

  /** The pops that took effect and have not returned are distinct and have not returned before. */
  ghost predicate OneReturnEach(s: State) {
    && (forall t :: 0 <= t < |s.pc| && Returning(s.pc[t]) ==> s.pc[t].k !in s.returned)
    && (forall t, u :: 0 <= t < |s.pc| && 0 <= u < |s.pc| && t != u && Returning(s.pc[t]) && Returning(s.pc[u]) ==>
          s.pc[t].k != s.pc[u].k)
  }

  lemma NextKeepsReturns(s: State, c: Choice)
    requires Inv(s) && !Next(s, c).fault && OneReturnEach(s)
    ensures OneReturnEach(Next(s, c))
  {
    var s' := Next(s, c);
    OthersStay(s, c);
    forall u | 0 <= u < |s.pc| && Returning(s.pc[u]) ensures s.pc[u].k < |s.history| {
      assert Local(s, s.pc[u]);
    }
    hide Inv, PushStep, PopStep;
    if c.Step? && c.t < |s.pc| {
      if IsPush(s.pc[c.t]) {
        PushReturnsNothing(s, c.t, c.address, c.spurious);
      } else if s.pc[c.t].PopDelete? {
        DeleteReturns(s, c.t, c.junk, c.spurious);
      } else {
        PopTakesNumber(s, c.t, c.junk, c.spurious);
      }
    }
  }

  lemma LoadReturnsNothing(s: State, t: nat)
    requires t < |s.pc|
    ensures var s' := LoadHead(s, t); |s'.pc| == |s.pc| && s'.returned == s.returned && !Returning(s'.pc[t])
  {
  }

  lemma PopTakesNumber(s: State, t: nat, junk: nat, spurious: bool)
    requires t < |s.pc| && !IsPush(s.pc[t]) && !s.pc[t].PopDelete?
    ensures var s' := PopStep(s, t, junk, spurious);
            && |s'.pc| == |s.pc| && s'.returned == s.returned
            && (Returning(s'.pc[t]) ==> s'.pc[t].k == |s.history| || (Returning(s.pc[t]) && s'.pc[t].k == s.pc[t].k))
  {
    LoadReturnsNothing(s, t);
    hide LoadHead;
  }

  lemma DeleteReturns(s: State, t: nat, junk: nat, spurious: bool)
    requires t < |s.pc| && s.pc[t].PopDelete? && !PopStep(s, t, junk, spurious).fault
    ensures var s' := PopStep(s, t, junk, spurious);
            && |s'.pc| == |s.pc| && s'.pc[t].Idle? && s'.returned == s.returned[s.pc[t].k := s.pc[t].m]
  {
  }

  lemma PushReturnsNothing(s: State, t: nat, address: nat, spurious: bool)
    requires t < |s.pc| && IsPush(s.pc[t])
    ensures var s' := PushStep(s, t, address, spurious);
            s'.returned == s.returned && |s'.pc| == |s.pc| && !Returning(s'.pc[t])
  {
  }

  // Every run.

  ghost predicate Good(s: State) {
    Inv(s) && Accounted(s) && OneReturnEach(s)
  }

  ghost predicate Reachable(safe: bool, threads: nat, s: State) {
    Reaches(Next, Init(safe, threads), s)
  }

  lemma ReachableGood(safe: bool, threads: nat, s: State)
    requires (safe || threads <= 1) && Reachable(safe, threads, s)
    ensures Good(s) && Disciplined(s) && |s.pc| == threads && s.safe == safe
  {
    InitInv(safe, threads);
    hide Inv, Accounted, OneReturnEach;
    var inv := (s: State) => Good(s) && |s.pc| == threads && s.safe == safe;
    forall s: State, c: Choice | inv(s) ensures inv(Next(s, c)) {
      NextKeepsInv(s, c);
      NextKeepsAccounted(s, c);
      NextKeepsReturns(s, c);
      OthersStay(s, c);
    }
    assert OneReturnEach(Init(safe, threads)) by { InitReturns(safe, threads); }
    ReachesKeeps(Next, inv, Init(safe, threads), s);
  }

  lemma InitReturns(safe: bool, threads: nat)
    ensures OneReturnEach(Init(safe, threads))
  {
  }

  /** The operations took effect as on a sequential stack, memory holds exactly that stack, no thread touched a
      deleted node's data or deleted a node twice, and every pop that returned returned what it took. */
  lemma Linearisable(safe: bool, threads: nat, s: State)
    requires (safe || threads <= 1) && Reachable(safe, threads, s)
    ensures !s.fault && Lifo(s.history) && Linked(s.heap, s.head, s.chain, After(s.history))
    ensures forall k :: k in s.returned ==> k < |s.history| && s.history[k] == Pop(s.returned[k])
  {
    ReachableGood(safe, threads, s);
  }

  /** With no operation under way the live nodes are exactly those of the stack: every node taken was deleted. */
  lemma QuietMemoryIsTheStack(safe: bool, threads: nat, s: State)
    requires (safe || threads <= 1) && Reachable(safe, threads, s)
    requires forall t :: 0 <= t < |s.pc| ==> s.pc[t].Idle?
    ensures forall a :: a in s.heap <==> a in s.chain
  {
    ReachableGood(safe, threads, s);
    LinkedLive(s.heap, s.head, s.chain, After(s.history));
    forall a | a in s.heap ensures a in s.chain {
      assert a in s.chain || HasOwner(s.pc, a);
    }
  }

  predicate Effect(s: State, s': State, p: Pc, p': Pc) {
    if p.PushCas? && p'.Idle? then s'.history == s.history + [Push(p.val)]
    else if p.PopCas? && p'.PopData? then
      After(s.history) != [] && s'.history == s.history + [Pop(After(s.history)[0])] && p'.k == |s.history|
    else if !p.PopTest? && p' == PopTest(0) then
      After(s.history) == [] && s'.history == s.history + [PopEmpty]
    else s'.history == s.history
  }

  lemma PushEffect(s: State, t: nat, address: nat, spurious: bool)
    requires Inv(s) && t < |s.pc| && IsPush(s.pc[t])
    ensures var s' := PushStep(s, t, address, spurious);
            |s'.pc| == |s.pc| && s.history <= s'.history && Effect(s, s', s.pc[t], s'.pc[t])
  {
    LocalsAt(s, t);
    hide Inv, Lifo, After, Linked, Holds;
  }

  lemma LoadEffect(s: State, t: nat)
    requires Inv(s) && t < |s.pc| && (s.pc[t].PopLoad? || s.pc[t].PopCas?)
    ensures var s' := LoadHead(s, t);
            |s'.pc| == |s.pc| && s.history <= s'.history && Effect(s, s', s.pc[t], s'.pc[t])
  {
    LinkedLive(s.heap, s.head, s.chain, After(s.history));
    hide Inv, Lifo, After, Linked;
  }

  lemma PopEffect(s: State, t: nat, junk: nat, spurious: bool)
    requires Inv(s) && t < |s.pc| && !IsPush(s.pc[t])
    ensures var s' := PopStep(s, t, junk, spurious);
            |s'.pc| == |s.pc| && s.history <= s'.history && Effect(s, s', s.pc[t], s'.pc[t])
  {
    LocalsAt(s, t);
    if s.pc[t].PopLoad? || s.pc[t].PopCas? { LoadEffect(s, t); }
    hide Inv, Lifo, After, LoadHead;
  }

  /** Where an operation takes effect: a push at its successful compare-and-exchange, a pop at its own or at the
      load that finds null; each takes effect once, and no other step does. */
  lemma TakesEffectOnce(s: State, c: Choice)
    requires Inv(s) && Disciplined(s)
    ensures s.history <= Next(s, c).history && |Next(s, c).pc| == |s.pc|
    ensures c.t >= |s.pc| ==> Next(s, c) == s
    ensures c.t < |s.pc| ==> Effect(s, Next(s, c), s.pc[c.t], Next(s, c).pc[c.t])
  {
    NextKeepsInv(s, c);
    hide Inv, PushStep, PopStep, After, Lifo, Linked;
    if c.Step? && c.t < |s.pc| {
      if IsPush(s.pc[c.t]) {
        PushEffect(s, c.t, c.address, c.spurious);
      } else {
        PopEffect(s, c.t, c.junk, c.spurious);
      }
    }
  }

  /** What was read through a `got` that has left the list does not matter: the compare-and-exchange fails. */
  lemma StaleExchangeFails(s: State, t: nat, junk: nat, spurious: bool)
    requires Inv(s) && t < |s.pc| && s.pc[t].PopCas? && s.pc[t].got !in s.chain
    ensures PopStep(s, t, junk, spurious) == LoadHead(s, t)
  {
    LocalsAt(s, t);
    LinkedLive(s.heap, s.head, s.chain, After(s.history));
  }

  // Every call takes effect once, with its own value, and returns what it did.

  datatype Call = PushCall(value: int) | PopCall

  datatype Reply = Done | Got(value: int) | Failed

  function Asks(op: Op): Call {
    if op.Push? then PushCall(op.value) else PopCall
  }

  function Answers(op: Op): Reply {
    match op case Push(_) => Done case Pop(v) => Got(v) case PopEmpty => Failed
  }

  /** The calls that thread `t` begins. */
  function Calls(t: nat): (State, Choice) -> Option<Call> {
    (s: State, c: Choice) =>
      if c.t != t || t >= |s.pc| || !s.pc[t].Idle? then None
      else match c case StartPush(_, v) => Some(PushCall(v)) case StartPop(_) => Some(PopCall) case _ => None
  }

  /** What a step adds to the history. */
  function OpOf(s: State, c: Choice): Option<Op> {
    var s' := Next(s, c);
    if |s.history| < |s'.history| then Some(s'.history[|s.history|]) else None
  }

  /** What a step that ends a call returns. */
  function ReplyOf(s: State, c: Choice): Option<Reply> {
    var s' := Next(s, c);
    if c.t >= |s.pc| || c.t >= |s'.pc| || s.pc[c.t].Idle? || !s'.pc[c.t].Idle? then None
    else if IsPush(s.pc[c.t]) then Some(Done)
    else if s.pc[c.t].PopDelete? && s.pc[c.t].k in s'.returned then Some(Got(s'.returned[s.pc[c.t].k]))
    else Some(Failed)
  }

  function Ops(t: nat): (State, Choice) -> Option<Op> {
    (s: State, c: Choice) => if c.t == t then OpOf(s, c) else None
  }

  function Replies(t: nat): (State, Choice) -> Option<Reply> {
    (s: State, c: Choice) => if c.t == t then ReplyOf(s, c) else None
  }

  function AskedAt(p: Pc): Option<Call> {
    if IsPush(p) then Some(PushCall(p.val))
    else if p.PopLoad? || (p.PopTest? && p.got != 0) || p.PopNext? || p.PopCas? then Some(PopCall)
    else None
  }

  function DueAt(history: seq<Op>, p: Pc): Option<Reply> {
    if p.PopTest? && p.got == 0 then Some(Failed)
    else if Returning(p) && p.k < |history| && history[p.k].Pop? then Some(Got(history[p.k].value))
    else None
  }

  /** The call of thread `t` that has not taken effect, if any. */
  function Asked(t: nat): State -> Option<Call> {
    (s: State) => if t < |s.pc| then AskedAt(s.pc[t]) else None
  }

  /** The reply that thread `t` has still to give, if any. */
  function Due(t: nat): State -> Option<Reply> {
    (s: State) => if t < |s.pc| then DueAt(s.history, s.pc[t]) else None
  }

  /** The step of thread `c.t` passes its call on to the history. */
  predicate Asking(s: State, c: Choice)
    requires c.t < |s.pc|
  {
    var s' := Next(s, c);
    && |s'.pc| == |s.pc|
    && Passes(AskedAt(s.pc[c.t]), Calls(c.t)(s, c), MapOption(Asks, OpOf(s, c)), AskedAt(s'.pc[c.t]))
  }

  /** It passes the operation on to the reply. */
  predicate Answering(s: State, c: Choice)
    requires c.t < |s.pc|
  {
    var s' := Next(s, c);
    && |s'.pc| == |s.pc|
    && Passes(DueAt(s.history, s.pc[c.t]), MapOption(Answers, OpOf(s, c)), ReplyOf(s, c),
              DueAt(s'.history, s'.pc[c.t]))
  }

  lemma PushServes(s: State, c: Choice)
    requires Inv(s) && c.t < |s.pc| && c.Step? && IsPush(s.pc[c.t])
    ensures Asking(s, c) && Answering(s, c)
  {
    LocalsAt(s, c.t);
    hide Inv, Lifo, After, Linked, Holds;
  }

  lemma PopAsks(s: State, c: Choice)
    requires Inv(s) && c.t < |s.pc| && c.Step? && !IsPush(s.pc[c.t])
    ensures Asking(s, c)
  {
    LocalsAt(s, c.t);
    hide Inv, Lifo, After, Linked;
  }

  lemma PopAnswers(s: State, c: Choice)
    requires Inv(s) && c.t < |s.pc| && c.Step? && !IsPush(s.pc[c.t])
    ensures Answering(s, c)
  {
    LocalsAt(s, c.t);
    assert s.chain != [] ==> s.chain[0] == s.head;
    hide Inv, Lifo, After, Linked;
  }

  lemma StepServes(s: State, c: Choice)
    requires Inv(s) && c.t < |s.pc|
    ensures Asking(s, c) && Answering(s, c)
  {
    if !c.Step? {
      LocalsAt(s, c.t);
      hide Inv, Lifo, After, Linked, PushStep, PopStep;
    } else {
      hide Asking, Answering, Inv, Next;
      if IsPush(s.pc[c.t]) {
        PushServes(s, c);
      } else {
        PopAsks(s, c);
        PopAnswers(s, c);
      }
    }
  }

  lemma DueStays(s: State, t: nat, history: seq<Op>)
    requires Inv(s) && t < |s.pc| && s.history <= history
    ensures DueAt(history, s.pc[t]) == DueAt(s.history, s.pc[t])
  {
    LocalsAt(s, t);
    hide Inv, Lifo, After, Linked;
  }

  lemma NextServes(s: State, c: Choice, t: nat)
    requires Inv(s) && Disciplined(s)
    ensures Passes(Asked(t)(s), Calls(t)(s, c), MapOption(Asks, Ops(t)(s, c)), Asked(t)(Next(s, c)))
    ensures Passes(Due(t)(s), MapOption(Answers, Ops(t)(s, c)), Replies(t)(s, c), Due(t)(Next(s, c)))
  {
    TakesEffectOnce(s, c);
    OthersStay(s, c);
    if c.t < |s.pc| {
      StepServes(s, c);
    }
    if t < |s.pc| {
      DueStays(s, t, Next(s, c).history);
    }
    hide Inv, Next, OpOf, ReplyOf, AskedAt, DueAt, Effect;
  }

  /** In every run the calls of each thread take effect one by one in the order they were made, each once, a push
      with the value it was called with, however often its exchange fails; the replies tell what the operations did
      in that order; and at each moment at most one call waits for its effect, and at most one for its reply. */
  lemma CallsAreServed(safe: bool, threads: nat, sched: seq<Choice>, t: nat)
    requires safe || threads <= 1
    ensures var s0 := Init(safe, threads);
            var s, done := Exec(Next, s0, sched), Collect(Next, Ops(t), s0, sched);
            && Collect(Next, Calls(t), s0, sched) == Map(Asks, done) + Listed(Asked(t)(s))
            && Map(Answers, done) == Collect(Next, Replies(t), s0, sched) + Listed(Due(t)(s))
  {
    var s0 := Init(safe, threads);
    InitInv(safe, threads);
    hide Inv, Next;
    var inv := (s: State) => Inv(s) && Disciplined(s);
    forall s: State, c: Choice | inv(s)
      ensures inv(Next(s, c))
      ensures Passes(Asked(t)(s), Calls(t)(s, c), MapOption(Asks, Ops(t)(s, c)), Asked(t)(Next(s, c)))
      ensures Passes(Due(t)(s), MapOption(Answers, Ops(t)(s, c)), Replies(t)(s, c), Due(t)(Next(s, c)))
    {
      NextKeepsInv(s, c);
      NextServes(s, c, t);
    }
    CallsTakeEffect(Next, inv, Calls(t), Ops(t), Replies(t), Asks, Answers, Asked(t), Due(t), s0, sched);
  }

  // An allocator that reuses addresses at once.

  predicate HeadLive(s: State) {
    s.head == 0 || s.head in s.heap
  }

  /** A whole push by one thread, undisturbed. */
  lemma WholePush(s0: State, s: State, t: nat, v: int, a: nat) returns (s': State)
    requires Reaches(Next, s0, s) && t < |s.pc| && s.pc[t].Idle? && !s.fault && !s.safe && a != 0 && a !in s.heap
    ensures Reaches(Next, s0, s') && s'.pc == s.pc && !s'.fault && !s'.safe
    ensures s'.heap == s.heap[a := Node(v, s.head)] && s'.head == a
  {
    hide Reaches, Holds;
    var c := Step(t, a, 0, false);
    s' := Go(Next, s0, s, StartPush(t, v));
    s' := Go(Next, s0, s', c);
    assert s' == s.(heap := s.heap[a := Node(v, 0)], pc := s.pc[t := PushLoad(v, a)]);
    s' := Go(Next, s0, s', c);
    assert s' == s.(heap := s.heap[a := Node(v, s.head)], pc := s.pc[t := PushCas(v, a)]);
    s' := Go(Next, s0, s', c);
    assert s'.pc == s.pc;
  }

  /** A pop up to its compare-and-exchange. */
  lemma HalfPop(s0: State, s: State, t: nat) returns (s': State)
    requires Reaches(Next, s0, s) && t < |s.pc| && s.pc[t].Idle? && !s.fault && s.head != 0 && s.head in s.heap
    ensures Reaches(Next, s0, s') && s' == s.(pc := s.pc[t := PopCas(s.head, s.heap[s.head].next)])
  {
    hide Reaches;
    var c := Step(t, 0, 0, false);
    s' := Go(Next, s0, s, StartPop(t));
    s' := Go(Next, s0, s', c);
    assert s' == s.(pc := s.pc[t := PopTest(s.head)]);
    s' := Go(Next, s0, s', c);
    s' := Go(Next, s0, s', c);
    assert s'.pc == s.pc[t := PopCas(s.head, s.heap[s.head].next)];
  }

  lemma WholePop(s0: State, s: State, t: nat) returns (s': State)
    requires Reaches(Next, s0, s) && t < |s.pc| && s.pc[t].Idle? && !s.fault && !s.safe && s.head != 0
               && s.head in s.heap
    ensures Reaches(Next, s0, s') && s'.pc == s.pc && !s'.fault && !s'.safe
    ensures s'.heap == s.heap - {s.head} && s'.head == s.heap[s.head].next
  {
    hide Reaches;
    var c, k := Step(t, 0, 0, false), |s.history|;
    s' := HalfPop(s0, s, t);
    s' := Go(Next, s0, s', c);
    assert s'.pc == s.pc[t := PopData(s.head, k)] && s'.heap == s.heap;
    s' := Go(Next, s0, s', c);
    assert s'.pc == s.pc[t := PopDelete(s.head, s.heap[s.head].data, k)] && s'.heap == s.heap;
    s' := Go(Next, s0, s', c);
    assert s'.pc == s.pc;
  }

  /** While one thread is about to exchange head for its second node, another pops both nodes and pushes at the
      first node's address: the exchange succeeds, and head names a deleted node. */
  lemma ReuseDangles(threads: nat) returns (s: State)
    requires threads >= 2
    ensures Reachable(false, threads, s) && !HeadLive(s)
  {
    var s0 := Init(false, threads);
    ReachesSelf(Next, s0);
    hide Reaches;
    s := WholePush(s0, s0, 0, 10, 1);
    s := WholePush(s0, s, 0, 20, 2);
    s := HalfPop(s0, s, 0);
    s := WholePop(s0, s, 1);
    s := WholePop(s0, s, 1);
    s := WholePush(s0, s, 1, 30, 2);
    s := Go(Next, s0, s, Step(0, 0, 0, false));
  }

  /** The head never names a deleted node, in any run, exactly if new never returns an address that an unfinished
      pop holds, or nobody runs concurrently. */
  lemma SafeIff(safe: bool, threads: nat)
    ensures (forall s :: Reachable(safe, threads, s) ==> HeadLive(s)) <==> (safe || threads <= 1)
  {
    if safe || threads <= 1 {
      forall s | Reachable(safe, threads, s) ensures HeadLive(s) {
        ReachableGood(safe, threads, s);
        LinkedLive(s.heap, s.head, s.chain, After(s.history));
      }
    } else {
      var s := ReuseDangles(threads);
    }
  }

  // The stack as it is updated in place.

  lemma ReturnIgnoresChoice(s: State, t: nat, junk: nat, spurious: bool)
    requires t < |s.pc| && (s.pc[t].PopData? || s.pc[t].PopDelete? || s.pc[t].Idle?)
    ensures PopStep(s, t, junk, spurious) == PopStep(s, t, 0, false)
    ensures s.pc[t].Idle? ==> PopStep(s, t, junk, spurious) == s
  {
  }

  class Stack {
    const safe: bool
    var heap: map<nat, Node>
    var head: nat
    var pc: seq<Pc>
    var fault: bool
    ghost var chain: seq<nat>
    ghost var history: seq<Op>
    ghost var returned: map<nat, int>
    var operations: nat

    ghost function View(): State
      reads this
    {
      State(safe, heap, head, pc, fault, chain, history, returned)
    }

    ghost predicate Valid()
      reads this
    {
      Inv(View()) && Disciplined(View()) && operations == |history|
    }

    constructor (safe: bool, threads: nat)
      requires safe || threads <= 1
      ensures View() == Init(safe, threads) && Valid()
    {
      this.safe := safe;
      heap, head, fault, operations := map[], 0, false, 0;
      pc := seq(threads, _ => Idle);
      chain, history, returned := [], [], map[];
      new;
      InitInv(safe, threads);
    }

    /** The next statement of thread `t` inside push; the memory it follows is live. */
    method StepPush(t: nat, address: nat, spurious: bool)
      requires Valid() && t < |pc| && IsPush(pc[t])
      modifies this
      ensures View() == PushStep(old(View()), t, address, spurious) && Valid()
    {
      ghost var before := View();
      NextKeepsInv(before, Step(t, address, 0, spurious));
      LocalsAt(before, t);
      hide Inv, Linked, Lifo, After;
      match pc[t] {
        case PushNew(v) =>
          if address != 0 && address !in heap && (!safe || !Holds(pc, address)) {
            hide Holds;
            heap, pc := heap[address := Node(v, 0)], pc[t := PushLoad(v, address)];
          }
        case PushLoad(v, a) =>
          heap, pc := heap[a := heap[a].(next := head)], pc[t := PushCas(v, a)];
        case PushCas(v, a) =>
          if head == heap[a].next && !spurious {
            head, pc := a, pc[t := Idle];
            chain, history, operations := [a] + chain, history + [Push(v)], operations + 1;
          } else {
            heap := heap[a := heap[a].(next := head)];
          }
      }
      assert View() == PushStep(before, t, address, spurious);
    }

    /** `got` is loaded from head. */
    method Load(t: nat)
      requires t < |pc| && operations == |history|
      modifies this
      ensures View() == LoadHead(old(View()), t) && operations == |history|
    {
      if head == 0 {
        history, operations := history + [PopEmpty], operations + 1;
      }
      pc := pc[t := PopTest(head)];
    }

    /** The next statement of thread `t` inside pop up to its compare-and-exchange. */
    method StepPop(t: nat, junk: nat, spurious: bool)
      requires Valid() && t < |pc| && (pc[t].PopLoad? || pc[t].PopTest? || pc[t].PopNext? || pc[t].PopCas?)
      modifies this
      ensures View() == PopStep(old(View()), t, junk, spurious) && Valid()
    {
      ghost var before := View();
      NextKeepsInv(before, Step(t, 0, junk, spurious));
      hide Inv, Linked, Lifo, After, LoadHead;
      match pc[t] {
        case PopLoad => Load(t);
        case PopTest(got) => pc := pc[t := if got == 0 then Idle else PopNext(got)];
        case PopNext(got) => pc := pc[t := PopCas(got, if got in heap then heap[got].next else junk)];
        case PopCas(got, nextn) =>
          if head == got && !spurious {
            head := nextn;
            pc := pc[t := PopData(got, operations)];
            chain := if chain == [] then [] else chain[1..];
            history, operations := history + [Pop(if got in heap then heap[got].data else 0)], operations + 1;
          } else {
            Load(t);
          }
      }
      assert View() == PopStep(before, t, junk, spurious);
    }

    /** The next statement of thread `t` from then on; the node whose data it reads or which it deletes is live. */
    method StepReturn(t: nat)
      requires Valid() && t < |pc| && (pc[t].PopData? || pc[t].PopDelete?)
      modifies this
      ensures View() == PopStep(old(View()), t, 0, false) && Valid()
    {
      ghost var before := View();
      NextKeepsInv(before, Step(t, 0, 0, false));
      LocalsAt(before, t);
      hide Inv, Linked, Lifo, After;
      match pc[t] {
        case PopData(got, k) => pc := pc[t := PopDelete(got, heap[got].data, k)];
        case PopDelete(got, m, k) =>
          heap := heap - {got};
          returned := returned[k := m];
          pc := pc[t := Idle];
      }
      assert View() == PopStep(before, t, 0, false);
    }

    /** Any scheduler, any allocator that keeps to `safe`, and any spurious failures. */
    method Run(sched: seq<Choice>)
      requires Valid()
      modifies this
      ensures View() == Exec(Next, old(View()), sched) && Valid()
    {
      hide Inv, PushStep, PopStep, Disciplined;
      for k := 0 to |sched|
        invariant View() == Exec(Next, old(View()), sched[..k]) && Valid()
      {
        ExecSnoc(Next, old(View()), sched[..k], sched[k]);
        assert sched[..k + 1] == sched[..k] + [sched[k]];
        var c := sched[k];
        NextKeepsInv(View(), c);
        if c.t < |pc| {
          if !c.Step? {
            if pc[c.t].Idle? { pc := pc[c.t := if c.StartPush? then PushNew(c.val) else PopLoad]; }
          } else if IsPush(pc[c.t]) {
            StepPush(c.t, c.address, c.spurious);
          } else if pc[c.t].PopData? || pc[c.t].PopDelete? {
            ReturnIgnoresChoice(View(), c.t, c.junk, c.spurious);
            StepReturn(c.t);
          } else if !pc[c.t].Idle? {
            StepPop(c.t, c.junk, c.spurious);
          } else {
            ReturnIgnoresChoice(View(), c.t, c.junk, c.spurious);
          }
        }
      }
      assert sched[..|sched|] == sched;
    }
  }
}
