/** Runs of a step machine.  `next` is total: a choice that is not enabled leaves the state as it is,
    so every sequence of choices is a schedule and a blocked thread that is scheduled stays blocked. */
module Runs {

  function Exec<S, C>(next: (S, C) -> S, s: S, sched: seq<C>): S {
    if sched == [] then s else Exec(next, next(s, sched[0]), sched[1..])
  }

  /** How many steps of the run satisfy `event`, which sees the state before the step and the choice. */
  function Count<S, C>(next: (S, C) -> S, event: (S, C) -> bool, s: S, sched: seq<C>): nat {
    if sched == [] then 0
    else (if event(s, sched[0]) then 1 else 0) + Count(next, event, next(s, sched[0]), sched[1..])
  }

  /** `p` holds in the first state of the run and in every later one. */
  predicate Always<S, C>(next: (S, C) -> S, p: S -> bool, s: S, sched: seq<C>) {
    p(s) && (sched == [] || Always(next, p, next(s, sched[0]), sched[1..]))
  }

  /** How many steps of the run change the state. */
  function Moves<S(==), C>(next: (S, C) -> S, s: S, sched: seq<C>): nat {
    if sched == [] then 0
    else (if next(s, sched[0]) == s then 0 else 1) + Moves(next, next(s, sched[0]), sched[1..])
  }

  ghost predicate Inductive<S(!new), C(!new)>(next: (S, C) -> S, inv: S -> bool) {
    forall s: S, c: C :: inv(s) ==> inv(next(s, c))
  }

  /** Nothing can move any more. */
  ghost predicate Stuck<S, C(!new)>(next: (S, C) -> S, s: S) {
    forall c: C :: next(s, c) == s
  }

  lemma {:induction false} ExecKeeps<S(!new), C(!new)>(next: (S, C) -> S, inv: S -> bool, s: S, sched: seq<C>)
    requires inv(s) && Inductive(next, inv)
    ensures inv(Exec(next, s, sched))
  {
    if sched != [] {
      ExecKeeps(next, inv, next(s, sched[0]), sched[1..]);
    }
  }

  lemma {:induction false} ExecSnoc<S, C>(next: (S, C) -> S, s: S, sched: seq<C>, c: C)
    ensures Exec(next, s, sched + [c]) == next(Exec(next, s, sched), c)
  {
    if sched == [] {
      assert [c][1..] == [];
      assert Exec(next, next(s, c), []) == next(s, c);
    } else {
      assert (sched + [c])[1..] == sched[1..] + [c];
      ExecSnoc(next, next(s, sched[0]), sched[1..], c);
    }
  }

  /** Some schedule leads from `s` to `s'`. */
  ghost predicate Reaches<S, C(!new)>(next: (S, C) -> S, s: S, s': S) {
    exists sched: seq<C> :: Exec(next, s, sched) == s'
  }

  lemma ReachesSelf<S, C(!new)>(next: (S, C) -> S, s: S)
    ensures Reaches(next, s, s)
  {
    var sched: seq<C> := [];
    assert Exec(next, s, sched) == s;
  }

  lemma ReachesStep<S, C(!new)>(next: (S, C) -> S, s0: S, s: S, c: C)
    requires Reaches(next, s0, s)
    ensures Reaches(next, s0, next(s, c))
  {
    var sched :| Exec(next, s0, sched) == s;
    ExecSnoc(next, s0, sched, c);
  }

  /** One more step of a run that is being built. */
  lemma Go<S, C(!new)>(next: (S, C) -> S, s0: S, s: S, c: C) returns (s': S)
    requires Reaches(next, s0, s)
    ensures Reaches(next, s0, s') && s' == next(s, c)
  {
    ReachesStep(next, s0, s, c);
    s' := next(s, c);
  }

  lemma ReachesKeeps<S(!new), C(!new)>(next: (S, C) -> S, inv: S -> bool, s: S, s': S)
    requires inv(s) && Inductive(next, inv) && Reaches(next, s, s')
    ensures inv(s')
  {
    var sched :| Exec(next, s, sched) == s';
    ExecKeeps(next, inv, s, sched);
  }

  /** Some schedule leads from `s` to `s'` through states satisfying `p`, with exactly `k` events. */
  ghost predicate ReachesCounting<S, C(!new)>(
      next: (S, C) -> S, p: S -> bool, event: (S, C) -> bool, s: S, s': S, k: nat)
  {
    exists sched: seq<C> ::
      Exec(next, s, sched) == s' && Always(next, p, s, sched) && Count(next, event, s, sched) == k
  }

  lemma CountingSelf<S, C(!new)>(next: (S, C) -> S, p: S -> bool, event: (S, C) -> bool, s: S)
    requires p(s)
    ensures ReachesCounting(next, p, event, s, s, 0)
  {
    var sched: seq<C> := [];
    assert Exec(next, s, sched) == s && Always(next, p, s, sched) && Count(next, event, s, sched) == 0;
  }

  lemma CountingStep<S, C(!new)>(
      next: (S, C) -> S, p: S -> bool, event: (S, C) -> bool, s0: S, s: S, k: nat, c: C)
    requires ReachesCounting(next, p, event, s0, s, k) && p(next(s, c))
    ensures ReachesCounting(next, p, event, s0, next(s, c), k + if event(s, c) then 1 else 0)
  {
    var sched :| Exec(next, s0, sched) == s && Always(next, p, s0, sched) && Count(next, event, s0, sched) == k;
    ExecSnoc(next, s0, sched, c);
    CountSnoc(next, p, event, s0, sched, c);
  }

  lemma {:induction false} CountSnoc<S, C>(
      next: (S, C) -> S, p: S -> bool, event: (S, C) -> bool, s: S, sched: seq<C>, c: C)
    requires Always(next, p, s, sched) && p(next(Exec(next, s, sched), c))
    ensures Always(next, p, s, sched + [c])
    ensures Count(next, event, s, sched + [c]) ==
            Count(next, event, s, sched) + if event(Exec(next, s, sched), c) then 1 else 0
  {
    if sched == [] {
      assert [c][1..] == [];
      assert Always(next, p, next(s, c), []) && Count(next, event, next(s, c), []) == 0;
    } else {
      assert (sched + [c])[1..] == sched[1..] + [c];
      CountSnoc(next, p, event, next(s, sched[0]), sched[1..], c);
    }
  }

  /** A measure that falls with every state change bounds how often the state changes. */
  lemma {:induction false} MovesBounded<S(!new), C(!new)>(
      next: (S, C) -> S, inv: S -> bool, m: S -> int, s: S, sched: seq<C>)
    requires inv(s) && Inductive(next, inv)
    requires forall s: S :: inv(s) ==> m(s) >= 0
    requires forall s: S, c: C :: inv(s) && next(s, c) != s ==> m(next(s, c)) < m(s)
    ensures Moves(next, s, sched) + m(Exec(next, s, sched)) <= m(s)
  {
    if sched != [] {
      MovesBounded(next, inv, m, next(s, sched[0]), sched[1..]);
    }
  }

  /** A budget that every event spends and no step refills, while `p` lasts, bounds the events. */
  lemma {:induction false} EventsBounded<S(!new), C(!new)>(
      next: (S, C) -> S, inv: S -> bool, p: S -> bool, event: (S, C) -> bool, budget: S -> int, s: S, sched: seq<C>)
    requires inv(s) && Always(next, p, s, sched)
    requires forall s: S :: inv(s) && p(s) ==> budget(s) >= 0
    requires forall s: S, c: C :: inv(s) && p(s) && p(next(s, c)) ==> inv(next(s, c))
    requires forall s: S, c: C :: inv(s) && p(s) && p(next(s, c)) ==>
               budget(next(s, c)) + (if event(s, c) then 1 else 0) <= budget(s)
    ensures Count(next, event, s, sched) <= budget(s)
  {
    if sched != [] {
      EventsBounded(next, inv, p, event, budget, next(s, sched[0]), sched[1..]);
    }
  }

  /** A level that every event raises by one and no other step changes counts the events exactly. */
  lemma {:induction false} EventsCounted<S(!new), C(!new)>(
      next: (S, C) -> S, inv: S -> bool, event: (S, C) -> bool, level: S -> int, s: S, sched: seq<C>)
    requires inv(s) && Inductive(next, inv)
    requires forall s: S, c: C :: inv(s) ==> level(next(s, c)) == level(s) + if event(s, c) then 1 else 0
    ensures Count(next, event, s, sched) == level(Exec(next, s, sched)) - level(s)
  {
    if sched != [] {
      EventsCounted(next, inv, event, level, next(s, sched[0]), sched[1..]);
    }
  }

  /** Levels that one event raises and another lowers by one count the difference of the two exactly. */
  lemma {:induction false} EventsBalanced<S(!new), C(!new)>(
      next: (S, C) -> S, inv: S -> bool, up: (S, C) -> bool, down: (S, C) -> bool, level: S -> int, s: S, sched: seq<C>)
    requires inv(s) && Inductive(next, inv)
    requires forall s: S, c: C :: inv(s) ==>
               level(next(s, c)) == level(s) + (if up(s, c) then 1 else 0) - if down(s, c) then 1 else 0
    ensures Count(next, up, s, sched) - Count(next, down, s, sched) == level(Exec(next, s, sched)) - level(s)
  {
    if sched != [] {
      EventsBalanced(next, inv, up, down, level, next(s, sched[0]), sched[1..]);
    }
  }

  datatype Option<V> = None | Some(value: V)

  function MapOption<V, W>(f: V -> W, o: Option<V>): Option<W> {
    if o.None? then None else Some(f(o.value))
  }

  function Listed<V>(o: Option<V>): seq<V> {
    if o.None? then [] else [o.value]
  }

  function Map<V, W>(f: V -> W, vs: seq<V>): seq<W> {
    seq(|vs|, i requires 0 <= i < |vs| => f(vs[i]))
  }

  /** What the steps of a run bring forth, in order. */
  function Collect<S, C, V>(next: (S, C) -> S, emit: (S, C) -> Option<V>, s: S, sched: seq<C>): seq<V> {
    if sched == [] then [] else Listed(emit(s, sched[0])) + Collect(next, emit, next(s, sched[0]), sched[1..])
  }

  /** What comes in goes out, waits inside until then, and nothing overtakes it. */
  predicate Passes<V(==)>(inside: Option<V>, into: Option<V>, out: Option<V>, inside': Option<V>) {
    || (into.None? && out.None? && inside' == inside)
    || (into.Some? && out.None? && inside.None? && inside' == into)
    || (into.None? && out.Some? && inside == out && inside'.None?)
    || (into.Some? && out == into && inside.None? && inside'.None?)
  }

  lemma PassesListed<V>(inside: Option<V>, into: Option<V>, out: Option<V>, inside': Option<V>)
    requires Passes(inside, into, out, inside')
    ensures Listed(inside) + Listed(into) == Listed(out) + Listed(inside')
  {
  }

  lemma ExecTail<S, C>(next: (S, C) -> S, s: S, sched: seq<C>)
    requires sched != []
    ensures Exec(next, s, sched) == Exec(next, next(s, sched[0]), sched[1..])
  {
  }

  lemma {:induction false} InIsOut<S(!new), C(!new), V>(
      next: (S, C) -> S, inv: S -> bool, ins: (S, C) -> Option<V>, outs: (S, C) -> Option<V>, inside: S -> Option<V>,
      s: S, sched: seq<C>)
    requires inv(s) && Inductive(next, inv)
    requires forall s: S, c: C :: inv(s) ==> Passes(inside(s), ins(s, c), outs(s, c), inside(next(s, c)))
    ensures Listed(inside(s)) + Collect(next, ins, s, sched) ==
            Collect(next, outs, s, sched) + Listed(inside(Exec(next, s, sched)))
  {
    if sched != [] {
      var s', c, rest := next(s, sched[0]), sched[0], sched[1..];
      InIsOut(next, inv, ins, outs, inside, s', rest);
      PassesListed(inside(s), ins(s, c), outs(s, c), inside(s'));
      hide Passes, Listed, Exec;
      calc {
        Listed(inside(s)) + (Listed(ins(s, c)) + Collect(next, ins, s', rest));
        (Listed(inside(s)) + Listed(ins(s, c))) + Collect(next, ins, s', rest);
        Listed(outs(s, c)) + (Listed(inside(s')) + Collect(next, ins, s', rest));
        (Listed(outs(s, c)) + Collect(next, outs, s', rest)) + Listed(inside(Exec(next, s', rest)));
      }
      assert Exec(next, s, sched) == Exec(next, s', rest) by { ExecTail(next, s, sched); }
    }
  }

  function Via<S, C, E, V>(f: E -> V, emit: (S, C) -> Option<E>): (S, C) -> Option<V> {
    (s: S, c: C) => MapOption(f, emit(s, c))
  }

  lemma {:induction false} CollectVia<S, C, E, V>(
      next: (S, C) -> S, f: E -> V, emit: (S, C) -> Option<E>, s: S, sched: seq<C>)
    ensures Collect(next, Via(f, emit), s, sched) == Map(f, Collect(next, emit, s, sched))
  {
    if sched != [] {
      CollectVia(next, f, emit, next(s, sched[0]), sched[1..]);
    }
  }

  /** A thread's calls take effect in order, and its replies tell the effects in order: `asked` is the call that
      has not taken effect, `due` the reply that has not been given. */
  lemma CallsTakeEffect<S(!new), C(!new), Call, Effect, Reply>(
      next: (S, C) -> S, inv: S -> bool,
      calls: (S, C) -> Option<Call>, effects: (S, C) -> Option<Effect>, replies: (S, C) -> Option<Reply>,
      asks: Effect -> Call, answers: Effect -> Reply, asked: S -> Option<Call>, due: S -> Option<Reply>,
      s: S, sched: seq<C>)
    requires inv(s) && Inductive(next, inv) && asked(s).None? && due(s).None?
    requires forall s: S, c: C :: inv(s) ==>
               Passes(asked(s), calls(s, c), MapOption(asks, effects(s, c)), asked(next(s, c)))
    requires forall s: S, c: C :: inv(s) ==>
               Passes(due(s), MapOption(answers, effects(s, c)), replies(s, c), due(next(s, c)))
    ensures var s', done := Exec(next, s, sched), Collect(next, effects, s, sched);
            && Collect(next, calls, s, sched) == Map(asks, done) + Listed(asked(s'))
            && Map(answers, done) == Collect(next, replies, s, sched) + Listed(due(s'))
  {
    InIsOut(next, inv, calls, Via(asks, effects), asked, s, sched);
    InIsOut(next, inv, Via(answers, effects), replies, due, s, sched);
    CollectVia(next, asks, effects, s, sched);
    CollectVia(next, answers, effects, s, sched);
    assert [] + Collect(next, calls, s, sched) == Collect(next, calls, s, sched);
    assert [] + Map(answers, Collect(next, effects, s, sched)) == Map(answers, Collect(next, effects, s, sched));
  }

  /** The same where calls, effects and replies are told in the same words. */
  lemma CallsAreAnswered<S(!new), C(!new), V>(
      next: (S, C) -> S, inv: S -> bool,
      calls: (S, C) -> Option<V>, effects: (S, C) -> Option<V>, replies: (S, C) -> Option<V>,
      asked: S -> Option<V>, due: S -> Option<V>, s: S, sched: seq<C>)
    requires inv(s) && Inductive(next, inv) && asked(s).None? && due(s).None?
    requires forall s: S, c: C :: inv(s) ==> Passes(asked(s), calls(s, c), effects(s, c), asked(next(s, c)))
    requires forall s: S, c: C :: inv(s) ==> Passes(due(s), effects(s, c), replies(s, c), due(next(s, c)))
    ensures var s', done := Exec(next, s, sched), Collect(next, effects, s, sched);
            && Collect(next, calls, s, sched) == done + Listed(asked(s'))
            && done == Collect(next, replies, s, sched) + Listed(due(s'))
  {
    InIsOut(next, inv, calls, effects, asked, s, sched);
    InIsOut(next, inv, effects, replies, due, s, sched);
    assert [] + Collect(next, calls, s, sched) == Collect(next, calls, s, sched);
    assert [] + Collect(next, effects, s, sched) == Collect(next, effects, s, sched);
  }

  /** One run after another. */
  lemma {:induction false} RunsAppend<S, C>(
      next: (S, C) -> S, p: S -> bool, event: (S, C) -> bool, s: S, a: seq<C>, b: seq<C>)
    ensures Exec(next, s, a + b) == Exec(next, Exec(next, s, a), b)
    ensures Count(next, event, s, a + b) == Count(next, event, s, a) + Count(next, event, Exec(next, s, a), b)
    ensures Always(next, p, s, a) && Always(next, p, Exec(next, s, a), b) ==> Always(next, p, s, a + b)
    decreases |a|
  {
    if a == [] {
      assert a + b == b;
    } else {
      assert (a + b)[1..] == a[1..] + b;
      RunsAppend(next, p, event, next(s, a[0]), a[1..], b);
    }
  }

  /** A run that comes back to where it started can be repeated, events and all. */
  lemma {:induction false} LoopsCount<S, C(!new)>(
      next: (S, C) -> S, p: S -> bool, event: (S, C) -> bool, s: S, k: nat)
    requires p(s) && ReachesCounting(next, p, event, s, s, 1)
    ensures ReachesCounting(next, p, event, s, s, k)
  {
    if k == 0 {
      CountingSelf(next, p, event, s);
    } else {
      LoopsCount(next, p, event, s, k - 1);
      var a :| Exec(next, s, a) == s && Always(next, p, s, a) && Count(next, event, s, a) == k - 1;
      var b :| Exec(next, s, b) == s && Always(next, p, s, b) && Count(next, event, s, b) == 1;
      RunsAppend(next, p, event, s, a, b);
      assert Exec(next, s, a + b) == s;
    }
  }

  /** Some number bounds how often, in any run from `s0` on, one thread has its event while `p` holds of another. */
  ghost predicate OvertakingBounded<S(!new), C(!new)>(
      next: (S, C) -> S, s0: S, threads: nat, p: nat -> S -> bool, event: nat -> (S, C) -> bool)
  {
    exists bound: nat :: BoundedBy(next, s0, threads, p, event, bound)
  }

  ghost predicate BoundedBy<S(!new), C(!new)>(
      next: (S, C) -> S, s0: S, threads: nat, p: nat -> S -> bool, event: nat -> (S, C) -> bool, bound: nat)
  {
    forall s, sched, v: nat, u: nat ::
      Reaches(next, s0, s) && u != v && v < threads && Always(next, p(v), s, sched) ==>
        Count(next, event(u), s, sched) <= bound
  }

  /** A run from `s` back to `s` with one event of `u` while `p(v)` lasts rules out every bound. */
  lemma LoopUnbounded<S(!new), C(!new)>(
      next: (S, C) -> S, s0: S, threads: nat, p: nat -> S -> bool, event: nat -> (S, C) -> bool, s: S, v: nat, u: nat)
    requires Reaches(next, s0, s) && u != v && v < threads && p(v)(s)
    requires ReachesCounting(next, p(v), event(u), s, s, 1)
    ensures !OvertakingBounded(next, s0, threads, p, event)
  {
    forall bound: nat ensures !BoundedBy(next, s0, threads, p, event, bound) {
      LoopsCount(next, p(v), event(u), s, bound + 1);
      var sched :| Exec(next, s, sched) == s && Always(next, p(v), s, sched)
                   && Count(next, event(u), s, sched) == bound + 1;
    }
  }
}
