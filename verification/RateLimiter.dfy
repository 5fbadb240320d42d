/** The token-bucket rate limiter, in the machine arithmetic of its fields: 32-bit unsigned token counts and
    64-bit unsigned milliseconds.  The clock reading is an argument. */
module RateLimiter {
  import opened Division

  const WORD32: nat := 0x1_0000_0000
  const WORD64: nat := 0x1_0000_0000_0000_0000

  datatype Bucket = Bucket(capacity: nat, interval: nat, perPeriod: nat, available: nat, last: nat)

  /** The field widths; a zero interval would divide by zero in the first call. */
  ghost predicate Valid(b: Bucket) {
    && b.available <= b.capacity < WORD32
    && 0 < b.interval < WORD32
    && b.perPeriod < WORD32
    && b.last < WORD64
  }

  function New(capacity: nat, interval: nat, perPeriod: nat, now: nat): Bucket {
    Bucket(capacity, interval, perPeriod, capacity, now)
  }

  /** Whole periods since the last update, with the subtraction wrapping at 64 bits. */
  function Periods(b: Bucket, now: nat): nat
    requires b.interval > 0
  {
    Whole((now - b.last) % WORD64, b.interval)
  }

  /** Whole intervals of length `d` in a stretch of length `x`. */
  function Whole(x: nat, d: nat): nat
    requires d > 0
  {
    x / d
  }

  /** The tokens of `k` periods. */
  function Tokens(perPeriod: nat, k: nat): nat {
    perPeriod * k
  }

  /** The product is formed in 64 bits and then cut down to 32. */
  function TokensToAdd(b: Bucket, now: nat): nat
    requires b.interval > 0
  {
    Tokens(b.perPeriod, Periods(b, now)) % WORD64 % WORD32
  }

  function Refill(b: Bucket, now: nat): Bucket
    requires b.interval > 0
  {
    var add := TokensToAdd(b, now);
    if add == 0 then b
    else
      var sum := (b.available + add) % WORD32;
      b.(available := if b.capacity < sum then b.capacity else sum, last := now)
  }

  /** One call: the bucket afterwards and whether the request got a token. */
  function Call(b: Bucket, now: nat): (Bucket, bool)
    requires b.interval > 0
  {
    var r := Refill(b, now);
    if r.available > 0 then (r.(available := r.available - 1), true) else (r, false)
  }

  lemma CallValid(b: Bucket, now: nat)
    requires Valid(b) && now < WORD64
    ensures Valid(Call(b, now).0)
    ensures Call(b, now).0 == b.(available := Call(b, now).0.available, last := Call(b, now).0.last)
  {
  }

  // Sequences of calls.

  /** Clock readings that never go back, from `from` up to `to`. */
  ghost predicate Clock(times: seq<nat>, from: nat, to: nat) {
    && from <= to < WORD64
    && (times != [] ==> from <= times[0] <= to && Clock(times[1..], times[0], to))
  }

  function After(b: Bucket, times: seq<nat>): (b': Bucket)
    requires b.interval > 0
    ensures b'.interval == b.interval
    decreases |times|
  {
    if times == [] then b else After(Call(b, times[0]).0, times[1..])
  }

  function Grants(b: Bucket, times: seq<nat>): nat
    requires b.interval > 0
    decreases |times|
  {
    if times == [] then 0
    else (if Call(b, times[0]).1 then 1 else 0) + Grants(Call(b, times[0]).0, times[1..])
  }

  // Arithmetic.

  /** Splitting a stretch of time loses at most one whole period. */
  lemma WholeSplit(x: nat, y: nat, d: nat)
    requires d > 0
    ensures Whole(x, d) + Whole(y, d) <= Whole(x + y, d) <= Whole(x, d) + Whole(y, d) + 1
  {
    DivMod(x, d);
    DivMod(y, d);
    DivMod(x + y, d);
    var q := x / d + y / d;
    var r := x % d + y % d;
    assert d * (x / d) + d * (y / d) == d * q;
    if r < d {
      QuotientIs(d, (x + y) / d, (x + y) % d, q, r);
    } else {
      assert d * (q + 1) == d * q + d;
      QuotientIs(d, (x + y) / d, (x + y) % d, q + 1, r - d);
    }
  }

  lemma WholeZero(d: nat)
    requires d > 0
    ensures Whole(0, d) == 0
  {
  }

  lemma TokensDiff(p: nat, k: nat, k': nat)
    requires k <= k'
    ensures Tokens(p, k') == Tokens(p, k) + Tokens(p, k' - k)
    ensures Tokens(p, k) <= Tokens(p, k')
    ensures k == 0 ==> Tokens(p, k) == 0
  {
    Factor(p, k', k);
  }

  lemma CutTwice(x: nat)
    ensures x % WORD64 % WORD32 == x % WORD32
  {
  }

  // Bounds.

  /** The bucket as a call at time `u` leaves it: updated at `u`, or the tokens of its periods were cut to 0. */
  ghost predicate Settled(b: Bucket, u: nat) {
    Valid(b) && b.last <= u < WORD64 && Tokens(b.perPeriod, Whole(u - b.last, b.interval)) % WORD32 == 0
  }

  lemma NewSettled(capacity: nat, interval: nat, perPeriod: nat, now: nat)
    requires Valid(New(capacity, interval, perPeriod, now))
    ensures Settled(New(capacity, interval, perPeriod, now), now)
    ensures Whole(now - now, interval) == 0
  {
    WholeZero(interval);
    TokensDiff(perPeriod, 0, 0);
  }

  lemma AddIs(b: Bucket, now: nat)
    requires Valid(b) && b.last <= now < WORD64
    ensures TokensToAdd(b, now) == Tokens(b.perPeriod, Whole(now - b.last, b.interval)) % WORD32
  {
    hide Tokens, Whole;
    CutTwice(Tokens(b.perPeriod, Whole(now - b.last, b.interval)));
  }

  lemma CallSettles(b: Bucket, u: nat, now: nat)
    requires Settled(b, u) && u <= now < WORD64
    ensures Settled(Call(b, now).0, now)
    ensures Call(b, now).0 == b.(available := Call(b, now).0.available, last := Call(b, now).0.last)
  {
    hide Tokens, Whole;
    AddIs(b, now);
    WholeZero(b.interval);
    TokensDiff(b.perPeriod, 0, 0);
  }

  lemma {:induction false} AfterSettled(b: Bucket, times: seq<nat>, u: nat, to: nat)
    requires Settled(b, u) && Clock(times, u, to)
    ensures Settled(After(b, times), if times == [] then u else times[|times| - 1])
    ensures After(b, times) == b.(available := After(b, times).available, last := After(b, times).last)
    ensures u <= (if times == [] then u else times[|times| - 1]) <= to
    decreases |times|
  {
    hide Tokens, Whole, Call;
    if times != [] {
      CallSettles(b, u, times[0]);
      AfterSettled(Call(b, times[0]).0, times[1..], times[0], to);
    }
  }

  /** What is left for the stretch from `u` to `to`. */
  ghost function Left(b: Bucket, u: nat, to: nat): int
    requires Valid(b) && b.last <= u <= to
  {
    b.available + Tokens(b.perPeriod, Whole(to - b.last, b.interval))
      - Tokens(b.perPeriod, Whole(u - b.last, b.interval))
  }

  /** A refill that changes nothing is paid for by nothing. */
  lemma StillPays(b: Bucket, u: nat, now: nat, to: nat)
    requires Settled(b, u) && u <= now <= to < WORD64 && TokensToAdd(b, now) == 0
    ensures (if Call(b, now).1 then 1 else 0) + Left(Call(b, now).0, now, to) <= Left(b, u, to)
  {
    hide Tokens, Whole;
    var i, p := b.interval, b.perPeriod;
    WholeSplit(u - b.last, now - u, i);
    WholeSplit(now - b.last, to - now, i);
    TokensDiff(p, Whole(u - b.last, i), Whole(now - b.last, i));
    CallSettles(b, u, now);
  }

  /** A refill is paid for by the whole periods since the last one. */
  lemma RefillPays(b: Bucket, u: nat, now: nat, to: nat)
    requires Settled(b, u) && u <= now <= to < WORD64 && TokensToAdd(b, now) != 0
    ensures (if Call(b, now).1 then 1 else 0) + Left(Call(b, now).0, now, to) <= Left(b, u, to)
  {
    hide Tokens, Whole;
    var i, p := b.interval, b.perPeriod;
    var before, e, all := Whole(u - b.last, i), Whole(now - b.last, i), Whole(to - b.last, i);
    RefillSettles(b, u, now);
    WholeSplit(now - b.last, to - now, i);
    TokensDiff(p, Whole(to - now, i), all - e);
    TokensDiff(p, e, all);
    AddedAtMost(b, u, now);
  }

  lemma RefillSettles(b: Bucket, u: nat, now: nat)
    requires Settled(b, u) && u <= now < WORD64 && TokensToAdd(b, now) != 0
    ensures var c := Call(b, now);
            && Valid(c.0) && c.0.last == now && c.0.interval == b.interval && c.0.perPeriod == b.perPeriod
            && c.0.available + (if c.1 then 1 else 0) <= b.available + TokensToAdd(b, now)
            && Tokens(b.perPeriod, Whole(now - now, b.interval)) == 0
  {
    hide Tokens, Whole;
    CallSettles(b, u, now);
    WholeZero(b.interval);
    TokensDiff(b.perPeriod, 0, 0);
  }

  /** What is added is no more than the periods since the call before have brought. */
  lemma AddedAtMost(b: Bucket, u: nat, now: nat)
    requires Settled(b, u) && u <= now < WORD64
    ensures TokensToAdd(b, now) <= Tokens(b.perPeriod, Whole(now - b.last, b.interval))
                                   - Tokens(b.perPeriod, Whole(u - b.last, b.interval))
  {
    hide Tokens, Whole;
    AddIs(b, now);
    WholeSplit(u - b.last, now - u, b.interval);
    TokensDiff(b.perPeriod, Whole(u - b.last, b.interval), Whole(now - b.last, b.interval));
  }

  /** What a call adds and grants is paid for by the periods that have passed since the call before. */
  lemma CallPays(b: Bucket, u: nat, now: nat, to: nat)
    requires Settled(b, u) && u <= now <= to < WORD64
    ensures Settled(Call(b, now).0, now)
    ensures (if Call(b, now).1 then 1 else 0) + Left(Call(b, now).0, now, to) <= Left(b, u, to)
  {
    hide Tokens, Whole;
    CallSettles(b, u, now);
    hide Call, Settled, TokensToAdd, Left;
    if TokensToAdd(b, now) == 0 { StillPays(b, u, now, to); } else { RefillPays(b, u, now, to); }
  }

  lemma {:induction false} GrantsBound(b: Bucket, u: nat, times: seq<nat>, to: nat)
    requires Settled(b, u) && Clock(times, u, to)
    ensures Grants(b, times) <= Left(b, u, to)
    decreases |times|
  {
    hide Tokens, Whole, Call;
    if times == [] {
      WholeSplit(u - b.last, to - u, b.interval);
      TokensDiff(b.perPeriod, Whole(u - b.last, b.interval), Whole(to - b.last, b.interval));
    } else {
      CallPays(b, u, times[0], to);
      GrantsBound(Call(b, times[0]).0, times[0], times[1..], to);
    }
  }

  /** From construction at `t0`, the grants up to `t` never exceed the capacity and the periods' tokens,
      even where the product or the sum of tokens wraps around. */
  lemma GrantsSinceStart(capacity: nat, interval: nat, perPeriod: nat, t0: nat, times: seq<nat>, t: nat)
    requires Valid(New(capacity, interval, perPeriod, t0)) && Clock(times, t0, t)
    ensures Grants(New(capacity, interval, perPeriod, t0), times) <= capacity + perPeriod * ((t - t0) / interval)
  {
    NewSettled(capacity, interval, perPeriod, t0);
    GrantsBound(New(capacity, interval, perPeriod, t0), t0, times, t);
  }

  /** After a call at `s`, the last of `earlier`, the grants up to `t` are bounded over that window alone. */
  lemma GrantsInWindow(capacity: nat, interval: nat, perPeriod: nat, t0: nat,
                       earlier: seq<nat>, s: nat, later: seq<nat>, t: nat)
    requires Valid(New(capacity, interval, perPeriod, t0))
    requires earlier != [] && s == earlier[|earlier| - 1]
    requires Clock(earlier, t0, s) && Clock(later, s, t)
    ensures Grants(After(New(capacity, interval, perPeriod, t0), earlier), later)
            <= capacity + perPeriod * ((t - s) / interval + 1)
  {
    var b0 := New(capacity, interval, perPeriod, t0);
    NewSettled(capacity, interval, perPeriod, t0);
    AfterSettled(b0, earlier, t0, s);
    WindowBound(After(b0, earlier), s, later, t);
  }

  lemma WindowBound(b: Bucket, s: nat, later: seq<nat>, t: nat)
    requires Settled(b, s) && Clock(later, s, t)
    ensures Grants(b, later) <= b.capacity + Tokens(b.perPeriod, Whole(t - s, b.interval) + 1)
  {
    hide Tokens, Whole, Call;
    var i, p := b.interval, b.perPeriod;
    GrantsBound(b, s, later, t);
    WholeSplit(s - b.last, t - s, i);
    var k := Whole(t - b.last, i) - Whole(s - b.last, i);
    TokensDiff(p, Whole(s - b.last, i), Whole(t - b.last, i));
    TokensDiff(p, k, Whole(t - s, i) + 1);
  }

  /** A call is refused exactly when the tokens at hand and the tokens to add come to a multiple of 2^32: to
      none at all, or to a sum that wraps around to none. */
  lemma RefusedIff(b: Bucket, now: nat)
    requires Valid(b) && b.capacity > 0 && now < WORD64
    ensures !Call(b, now).1 <==> (b.available + TokensToAdd(b, now)) % WORD32 == 0
    ensures b.available > 0 ==> (!Call(b, now).1 <==> b.available + TokensToAdd(b, now) == WORD32)
  {
    hide Tokens, Whole;
  }

  /** Of an empty bucket: refused exactly when the periods' tokens are a multiple of 2^32. */
  lemma EmptyBucketGrants(b: Bucket, now: nat)
    requires Valid(b) && b.available == 0 && b.capacity > 0 && b.last <= now < WORD64
    ensures Call(b, now).1 <==> Tokens(b.perPeriod, Whole(now - b.last, b.interval)) % WORD32 != 0
  {
    hide Tokens, Whole;
    AddIs(b, now);
  }

  /** A refill loses tokens that are at hand exactly when the sum wraps around. */
  lemma RefillLosesIff(b: Bucket, now: nat)
    requires Valid(b) && now < WORD64
    ensures Refill(b, now).available < b.available <==> b.available + TokensToAdd(b, now) >= WORD32
  {
    hide Tokens, Whole;
  }

  /** A caller with a token is refused: one token at hand, and one period owing 2^32 - 1. */
  lemma HolderRefused()
    ensures var b := New(1, 1000, 0xFFFF_FFFF, 0);
            Valid(b) && b.available == 1 && TokensToAdd(b, 1000) == 0xFFFF_FFFF && !Call(b, 1000).1
  {
    assert Periods(New(1, 1000, 0xFFFF_FFFF, 0), 1000) == 1;
  }

  /** At no call of the sequence do the tokens at hand and those to add come to a multiple of 2^32. */
  ghost predicate NeverToZero(b: Bucket, times: seq<nat>)
    requires b.interval > 0
    decreases |times|
  {
    times == [] ||
    ((b.available + TokensToAdd(b, times[0])) % WORD32 != 0 && NeverToZero(Call(b, times[0]).0, times[1..]))
  }

  lemma {:induction false} GrantsAtMostAll(b: Bucket, times: seq<nat>)
    requires b.interval > 0
    ensures Grants(b, times) <= |times|
    decreases |times|
  {
    if times != [] {
      GrantsAtMostAll(Call(b, times[0]).0, times[1..]);
    }
  }

  /** Every call of a sequence is granted exactly if at none of them the sum of the tokens comes to nothing. */
  lemma {:induction false} AllGrantedIff(b: Bucket, times: seq<nat>)
    requires Valid(b) && b.capacity > 0 && forall i :: 0 <= i < |times| ==> times[i] < WORD64
    ensures Grants(b, times) == |times| <==> NeverToZero(b, times)
    decreases |times|
  {
    hide Tokens, Whole, TokensToAdd;
    if times != [] {
      RefusedIff(b, times[0]);
      CallValid(b, times[0]);
      GrantsAtMostAll(Call(b, times[0]).0, times[1..]);
      AllGrantedIff(Call(b, times[0]).0, times[1..]);
    }
  }

  /** No refill of the sequence loses tokens. */
  ghost predicate NeverLoses(b: Bucket, times: seq<nat>)
    requires b.interval > 0
    decreases |times|
  {
    times == [] ||
    (Refill(b, times[0]).available >= b.available && NeverLoses(Call(b, times[0]).0, times[1..]))
  }

  /** While no refill loses any, as many calls as there are tokens at hand are all granted. */
  lemma {:induction false} HeldTokensAreGranted(b: Bucket, times: seq<nat>)
    requires Valid(b) && |times| <= b.available && NeverLoses(b, times)
    requires forall i :: 0 <= i < |times| ==> times[i] < WORD64
    ensures Grants(b, times) == |times|
    decreases |times|
  {
    hide Tokens, Whole;
    if times != [] {
      CallValid(b, times[0]);
      HeldTokensAreGranted(Call(b, times[0]).0, times[1..]);
    }
  }

  // What a burst of calls gets.

  function Min(a: int, b: int): int { if a < b then a else b }

  /** `k` calls at the same time. */
  function Burst(now: nat, k: nat): seq<nat> {
    seq(k, _ => now)
  }

  /** The tokens of the whole periods up to `now`. */
  function Earned(b: Bucket, now: nat): nat
    requires b.interval > 0
  {
    Tokens(b.perPeriod, Periods(b, now))
  }

  /** A bucket that a call at `now` has left earns nothing more at `now`, or nothing that is added. */
  lemma NothingMoreNow(b: Bucket, now: nat)
    requires Valid(b) && now < WORD64
    ensures TokensToAdd(Call(b, now).0, now) == 0
  {
    if TokensToAdd(b, now) != 0 {
      WholeZero(b.interval);
      TokensDiff(b.perPeriod, 0, 0);
      assert Periods(Call(b, now).0, now) == Whole(0, b.interval);
    }
  }

  lemma {:induction false} BurstOfHeld(b: Bucket, now: nat, k: nat)
    requires Valid(b) && now < WORD64 && TokensToAdd(b, now) == 0
    ensures Grants(b, Burst(now, k)) == Min(k, b.available)
    decreases k
  {
    if k > 0 {
      assert Burst(now, k)[1..] == Burst(now, k - 1);
      NothingMoreNow(b, now);
      CallValid(b, now);
      hide Tokens, TokensToAdd;
      BurstOfHeld(Call(b, now).0, now, k - 1);
    }
  }

  lemma CutSum(a: nat, x: nat)
    ensures (a + x % WORD32) % WORD32 == (a + x) % WORD32
  {
    DivMod(x, WORD32);
  }

  /** What the bucket holds after a refill. */
  lemma RefillHolds(b: Bucket, now: nat)
    requires Valid(b) && now < WORD64
    ensures Refill(b, now).available == Min(b.capacity, (b.available + Earned(b, now)) % WORD32)
  {
    CutTwice(Earned(b, now));
    assert TokensToAdd(b, now) == Earned(b, now) % WORD32;
    CutSum(b.available, Earned(b, now));
    hide TokensToAdd, Earned;
  }

  lemma BurstOfRefilled(b: Bucket, now: nat, k: nat)
    requires Valid(b) && now < WORD64
    ensures Grants(b, Burst(now, k)) == Min(k, Refill(b, now).available)
  {
    if k > 0 {
      assert Burst(now, k)[1..] == Burst(now, k - 1);
      NothingMoreNow(b, now);
      CallValid(b, now);
      hide TokensToAdd, Refill;
      BurstOfHeld(Call(b, now).0, now, k - 1);
    }
  }

  lemma BurstOf(b: Bucket, now: nat, k: nat, earned: nat)
    requires Valid(b) && now < WORD64 && earned == Earned(b, now)
    ensures Grants(b, Burst(now, k)) == Min(k, Min(b.capacity, (b.available + earned) % WORD32))
  {
    hide Grants, Burst, Refill, Earned, Min;
    RefillHolds(b, now);
    BurstOfRefilled(b, now, k);
  }

  /** Of `k` calls at one time exactly so many are granted as the bucket holds after its refill: what was left and
      what the whole periods since the last update have earned, in 32 bits, and no more than the capacity. */
  lemma BurstGrants(b: Bucket, now: nat, k: nat)
    requires Valid(b) && now < WORD64
    ensures Grants(b, Burst(now, k)) ==
            Min(k, Min(b.capacity, (b.available + b.perPeriod * ((now - b.last) % WORD64 / b.interval)) % WORD32))
  {
    var earned := b.perPeriod * ((now - b.last) % WORD64 / b.interval);
    assert earned == Earned(b, now);
    hide *;
    BurstOf(b, now, k, earned);
  }

  // What a caller is sure to get, where nothing wraps around.

  /** Up to `t` neither the tokens of the periods since the last update nor their sum with a full bucket wrap. */
  ghost predicate Fits(b: Bucket, t: nat) {
    && Valid(b) && b.capacity > 0 && b.perPeriod > 0 && b.last <= t < WORD64
    && Tokens(b.perPeriod, Whole(t - b.last, b.interval)) + b.capacity < WORD32
  }

  lemma WholeMonotone(x: nat, y: nat, d: nat)
    requires x <= y && d > 0
    ensures Whole(x, d) <= Whole(y, d)
  {
    WholeSplit(x, y - x, d);
  }

  lemma WholePositive(x: nat, d: nat)
    requires d > 0
    ensures Whole(x, d) > 0 <==> x >= d
  {
    DivMod(x, d);
    assert x / d == 0 ==> d * (x / d) == 0;
  }

  /** The tokens added are exactly those of the whole periods: some, if a whole period has passed. */
  lemma AddExact(b: Bucket, now: nat, t: nat)
    requires Fits(b, t) && b.last <= now <= t
    ensures TokensToAdd(b, now) == Tokens(b.perPeriod, Whole(now - b.last, b.interval))
    ensures b.available + TokensToAdd(b, now) < WORD32
    ensures TokensToAdd(b, now) > 0 <==> now - b.last >= b.interval
  {
    var k := Whole(now - b.last, b.interval);
    AddIs(b, now);
    WholeMonotone(now - b.last, t - b.last, b.interval);
    TokensDiff(b.perPeriod, k, Whole(t - b.last, b.interval));
    WholePositive(now - b.last, b.interval);
    TokensPositive(b.perPeriod, k);
    hide Tokens, Whole, TokensToAdd, Valid;
    SmallCut(Tokens(b.perPeriod, k));
  }

  lemma SmallCut(x: nat)
    requires x < WORD32
    ensures x % WORD32 == x
  {
  }

  lemma TokensPositive(p: nat, k: nat)
    requires p > 0
    ensures Tokens(p, k) > 0 <==> k > 0
  {
    if k > 0 { AtLeast(p, k); }
  }

  /** A call a whole interval after the last update is granted, and of an empty bucket no earlier one. */
  lemma GrantedAfterInterval(b: Bucket, now: nat)
    requires Fits(b, now)
    ensures Call(b, now).1 <==> b.available > 0 || now - b.last >= b.interval
  {
    AddExact(b, now, now);
    hide Tokens, Whole, TokensToAdd;
  }

  lemma EarnedIs(b: Bucket, now: nat)
    requires Valid(b) && b.last <= now < WORD64
    ensures Earned(b, now) == Tokens(b.perPeriod, Whole(now - b.last, b.interval))
  {
    hide Tokens, Whole;
  }

  lemma TokensAre(p: nat, x: nat, d: nat)
    requires d > 0
    ensures Tokens(p, Whole(x, d)) == p * (x / d)
  {
  }

  lemma BurstOfFitting(b: Bucket, now: nat, k: nat)
    requires Fits(b, now)
    ensures Grants(b, Burst(now, k)) ==
            Min(k, Min(b.capacity, b.available + Tokens(b.perPeriod, Whole(now - b.last, b.interval))))
  {
    var earned := Tokens(b.perPeriod, Whole(now - b.last, b.interval));
    EarnedIs(b, now);
    hide Whole, Earned, Tokens, Grants, Burst, Min;
    BurstOf(b, now, k, earned);
    SmallCut(b.available + earned);
  }

  /** Where nothing wraps, `k` calls at one time get all that was left and all that the whole periods have earned, up
      to the capacity. */
  lemma BurstGrantsAll(b: Bucket, now: nat, k: nat)
    requires Fits(b, now)
    ensures Grants(b, Burst(now, k)) ==
            Min(k, Min(b.capacity, b.available + b.perPeriod * ((now - b.last) / b.interval)))
  {
    BurstOfFitting(b, now, k);
    TokensAre(b.perPeriod, now - b.last, b.interval);
    hide *;
  }

  lemma {:induction false} GrantsAppend(b: Bucket, a: seq<nat>, c: seq<nat>)
    requires b.interval > 0
    ensures Grants(b, a + c) == Grants(b, a) + Grants(After(b, a), c)
    decreases |a|
  {
    if a == [] {
      assert a + c == c;
    } else {
      assert (a + c)[1..] == a[1..] + c;
      GrantsAppend(Call(b, a[0]).0, a[1..], c);
    }
  }

  /** What fits still fits after a call, which updates the bucket if a whole interval has passed. */
  lemma CallFits(b: Bucket, now: nat, to: nat)
    requires Fits(b, to) && b.last <= now <= to
    ensures b.interval > 0
    ensures var (b', granted) := Call(b, now);
            && Fits(b', to) && b' == b.(available := b'.available, last := b'.last)
            && b'.last == (if now - b.last >= b.interval then now else b.last)
            && (granted <==> b.available > 0 || now - b.last >= b.interval)
  {
    CallGoes(b, now, to);
    hide Call;
    FitsLater(b, Call(b, now).0, to);
    hide Fits;
  }

  lemma CallGoes(b: Bucket, now: nat, to: nat)
    requires Fits(b, to) && b.last <= now <= to
    ensures var (b', granted) := Call(b, now);
            && Valid(b') && b' == b.(available := b'.available, last := b'.last)
            && b'.last == (if now - b.last >= b.interval then now else b.last)
            && (granted <==> b.available > 0 || now - b.last >= b.interval)
  {
    AddExact(b, now, to);
    CallValid(b, now);
    var add := TokensToAdd(b, now);
    hide Tokens, Whole, TokensToAdd;
    SmallCut(b.available + add);
  }

  lemma FitsLater(b: Bucket, b': Bucket, to: nat)
    requires Fits(b, to) && Valid(b') && b' == b.(available := b'.available, last := b'.last) && b.last <= b'.last <= to
    ensures Fits(b', to)
  {
    WholeMonotone(to - b'.last, to - b.last, b.interval);
    TokensDiff(b.perPeriod, Whole(to - b'.last, b.interval), Whole(to - b.last, b.interval));
    hide Tokens, Whole;
  }

  /** And after a burst. */
  lemma {:induction false} BurstFits(b: Bucket, now: nat, k: nat, to: nat)
    requires Fits(b, to) && b.last <= now <= to
    ensures b.interval > 0
    ensures var b' := After(b, Burst(now, k));
            Fits(b', to) && b'.last <= now && b' == b.(available := b'.available, last := b'.last)
    decreases k
  {
    CallFits(b, now, to);
    if k > 0 {
      assert Burst(now, k)[1..] == Burst(now, k - 1);
      hide Fits, Call;
      BurstFits(Call(b, now).0, now, k - 1, to);
    }
  }

  /** A client that makes `k` calls at the time `at`. */
  datatype Visit = Visit(at: nat, k: nat)

  predicate InOrder(visits: seq<Visit>, from: nat, to: nat) {
    from <= to && (visits != [] ==> from <= visits[0].at <= to && InOrder(visits[1..], visits[0].at, to))
  }

  function Times(visits: seq<Visit>): seq<nat> {
    if visits == [] then [] else Burst(visits[0].at, visits[0].k) + Times(visits[1..])
  }

  /** Each visit is good for the tokens of the whole periods since the visit before, up to the capacity. */
  function SureGrants(capacity: nat, interval: nat, perPeriod: nat, visits: seq<Visit>, from: nat, to: nat): nat
    requires interval > 0 && InOrder(visits, from, to)
  {
    if visits == [] then 0
    else
      Min(visits[0].k, Min(capacity, perPeriod * ((visits[0].at - from) / interval)))
      + SureGrants(capacity, interval, perPeriod, visits[1..], visits[0].at, to)
  }

  lemma VisitAtLeast(b: Bucket, from: nat, v: Visit)
    requires Fits(b, v.at) && b.last <= from <= v.at
    ensures Grants(b, Burst(v.at, v.k)) >= Min(v.k, Min(b.capacity, b.perPeriod * ((v.at - from) / b.interval)))
  {
    BurstGrantsAll(b, v.at, v.k);
    WholeMonotone(v.at - from, v.at - b.last, b.interval);
    TokensDiff(b.perPeriod, Whole(v.at - from, b.interval), Whole(v.at - b.last, b.interval));
  }

  /** However many calls each visit makes and however the visits are spaced, together they get at least that. */
  lemma {:induction false} VisitsAtLeast(b: Bucket, visits: seq<Visit>, from: nat, to: nat)
    requires Fits(b, to) && b.last <= from && InOrder(visits, from, to)
    ensures Grants(b, Times(visits)) >= SureGrants(b.capacity, b.interval, b.perPeriod, visits, from, to)
    decreases |visits|
  {
    if visits != [] {
      var v, rest := visits[0], visits[1..];
      GrantsAppend(b, Burst(v.at, v.k), Times(rest));
      BurstFits(b, v.at, v.k, to);
      FitsEarlier(b, v.at, to);
      VisitAtLeast(b, from, v);
      VisitsAtLeast(After(b, Burst(v.at, v.k)), rest, v.at, to);
    }
  }

  /** Visits a whole interval or more apart, of no more calls than the capacity and the tokens of one period. */
  predicate Modest(capacity: nat, interval: nat, perPeriod: nat, visits: seq<Visit>, from: nat) {
    visits == [] ||
    (from + interval <= visits[0].at && visits[0].k <= Min(capacity, perPeriod)
     && Modest(capacity, interval, perPeriod, visits[1..], visits[0].at))
  }

  lemma {:induction false} ModestIsSure(
      capacity: nat, interval: nat, perPeriod: nat, visits: seq<Visit>, from: nat, to: nat)
    requires interval > 0 && InOrder(visits, from, to) && Modest(capacity, interval, perPeriod, visits, from)
    ensures SureGrants(capacity, interval, perPeriod, visits, from, to) == |Times(visits)|
    decreases |visits|
  {
    if visits != [] {
      WholePositive(visits[0].at - from, interval);
      AtLeast(perPeriod, (visits[0].at - from) / interval);
      ModestIsSure(capacity, interval, perPeriod, visits[1..], visits[0].at, to);
    }
  }

  /** A client that comes no more than once an interval and asks for no more than a period's tokens, or the capacity,
      is never refused. */
  lemma ModestIsNeverRefused(capacity: nat, interval: nat, perPeriod: nat, t0: nat, visits: seq<Visit>, to: nat)
    requires Fits(New(capacity, interval, perPeriod, t0), to)
    requires InOrder(visits, t0, to) && Modest(capacity, interval, perPeriod, visits, t0)
    ensures Grants(New(capacity, interval, perPeriod, t0), Times(visits)) == |Times(visits)|
  {
    var b := New(capacity, interval, perPeriod, t0);
    VisitsAtLeast(b, visits, t0, to);
    ModestIsSure(capacity, interval, perPeriod, visits, t0, to);
    GrantsAtMostAll(b, Times(visits));
  }

  lemma FitsEarlier(b: Bucket, now: nat, to: nat)
    requires Fits(b, to) && b.last <= now <= to
    ensures Fits(b, now)
  {
    WholeMonotone(now - b.last, to - b.last, b.interval);
    TokensDiff(b.perPeriod, Whole(now - b.last, b.interval), Whole(to - b.last, b.interval));
  }

  /** Calls with no more than `gap` between one and the next, from `from` to `to`. */
  ghost predicate Frequent(times: seq<nat>, from: nat, to: nat, gap: nat) {
    && from <= to < WORD64
    && if times == [] then to - from <= gap
       else from <= times[0] <= to && times[0] - from <= gap && Frequent(times[1..], times[0], to, gap)
  }

  function Stretches(k: nat, d: nat): nat { (k + 1) * d }

  /** Each stretch of an interval and a gap brings one grant at least, since the update before the call at `u`. */
  lemma {:induction false} GrantsAtLeastFrom(b: Bucket, u: nat, times: seq<nat>, to: nat, gap: nat)
    requires Fits(b, to) && b.last <= u && u - b.last < b.interval && Frequent(times, u, to, gap) && gap > 0
    ensures to - b.last <= Stretches(Grants(b, times), b.interval + gap - 1)
    decreases |times|
  {
    var d := b.interval + gap - 1;
    hide Fits, Call, Stretches;
    Steps(0, Grants(b, times), d);
    if times != [] {
      var now, rest := times[0], times[1..];
      CallFits(b, now, to);
      GrantsAtLeastFrom(Call(b, now).0, now, rest, to, gap);
      Steps(Grants(Call(b, now).0, rest), Grants(b, times), d);
    }
  }

  lemma Steps(k: nat, k': nat, d: nat)
    requires k <= k'
    ensures Stretches(k, d) <= Stretches(k', d) && Stretches(0, d) == d
    ensures k' == k + 1 ==> Stretches(k', d) == Stretches(k, d) + d
  {
    assert (k' + 1) * d == (k + 1) * d + (k' - k) * d;
  }

  /** The guaranteed minimum: however the calls are spaced, with gaps of at most `gap`, the grants from the start
      up to `t` are one for each stretch of an interval and a gap, less one. */
  lemma GrantsAtLeast(capacity: nat, interval: nat, perPeriod: nat, t0: nat, times: seq<nat>, t: nat, gap: nat)
    requires Fits(New(capacity, interval, perPeriod, t0), t) && Frequent(times, t0, t, gap) && gap > 0
    ensures t - t0 <= (Grants(New(capacity, interval, perPeriod, t0), times) + 1) * (interval + gap - 1)
  {
    GrantsAtLeastFrom(New(capacity, interval, perPeriod, t0), t0, times, t, gap);
  }

  /** The part of a period that a refill at `now` drops by setting the time of the last update to `now`. */
  function Dropped(b: Bucket, now: nat): nat
    requires Valid(b) && b.last <= now
  {
    (now - b.last) % b.interval
  }

  /** The bucket as a refill that kept the part would have left it. */
  function Keeping(b: Bucket, part: nat): Bucket
    requires part <= b.last
  {
    b.(last := b.last - part)
  }

  /** The dropped part costs the periods up to `t` one, exactly if it makes the remainder up to `t` whole. */
  lemma DroppedPeriods(x: nat, part: nat, d: nat)
    requires part < d
    ensures Whole(x + part, d) == Whole(x, d) + if x % d + part >= d then 1 else 0
  {
    DivMod(x, d);
    var q, r := x / d, x % d;
    if r + part >= d {
      assert d * (q + 1) == d * q + d;
      RemainderIs(x + part, d, q + 1, r + part - d);
    } else {
      RemainderIs(x + part, d, q, r + part);
    }
  }

  /** After a call that refilled at `now`, the dropped part costs the caller the token of a call at `t` exactly if
      the bucket was left empty, no whole interval has passed since, and one has with the part. */
  lemma DroppedPartCostsIff(b: Bucket, now: nat, t: nat)
    requires Valid(b) && b.last <= now <= t < WORD64 && TokensToAdd(b, now) != 0
    requires var part := Dropped(b, now); part <= now && Fits(Keeping(b.(last := now), part), t)
    ensures var after, part := Call(b, now).0, Dropped(b, now);
            && after.last == now && part < b.interval
            && (Call(Keeping(after, part), t).1 && !Call(after, t).1 <==>
                  after.available == 0 && t - now < b.interval <= t - now + part)
  {
    var after, part := Call(b, now).0, Dropped(b, now);
    CallValid(b, now);
    DivMod(now - b.last, b.interval);
    DroppedPeriods(t - now, part, b.interval);
    TokensDiff(b.perPeriod, Whole(t - now, b.interval), Whole(t - now + part, b.interval));
    hide Tokens, Whole, TokensToAdd;
    GrantedAfterInterval(after, t);
    GrantedAfterInterval(Keeping(after, part), t);
  }

  // The limiter as it is updated in place.

  class Limiter {
    const capacity: nat
    const intervalMs: nat
    const tokensPerPeriod: nat
    var availableTokens: nat
    var lastUpdatedTime: nat

    ghost function View(): Bucket
      reads this
    {
      Bucket(capacity, intervalMs, tokensPerPeriod, availableTokens, lastUpdatedTime)
    }

    constructor (capacity: nat, intervalMs: nat, tokensPerPeriod: nat, now: nat)
      ensures View() == New(capacity, intervalMs, tokensPerPeriod, now)
    {
      this.capacity, this.intervalMs, this.tokensPerPeriod := capacity, intervalMs, tokensPerPeriod;
      availableTokens, lastUpdatedTime := capacity, now;
    }

    method RefillTokens(now: nat)
      requires Valid(View()) && now < WORD64
      modifies this
      ensures Valid(View()) && View() == Refill(old(View()), now)
    {
      var elapsedPeriods := ((now - lastUpdatedTime) % WORD64) / intervalMs;
      var tokensToAdd := tokensPerPeriod * elapsedPeriods % WORD64 % WORD32;
      if tokensToAdd == 0 {
        return;
      }
      var sum := (availableTokens + tokensToAdd) % WORD32;
      availableTokens := if sum < capacity then sum else capacity;
      lastUpdatedTime := now;
    }

    method RateLimit(now: nat) returns (granted: bool)
      requires Valid(View()) && now < WORD64
      modifies this
      ensures Valid(View()) && (View(), granted) == Call(old(View()), now)
    {
      RefillTokens(now);
      if availableTokens > 0 {
        availableTokens := availableTokens - 1;
        return true;
      }
      return false;
    }
  }

  /** A client that asks at each of the given times counts exactly the grants bounded above. */
  method CountGrants(limiter: Limiter, times: seq<nat>) returns (granted: nat)
    requires Valid(limiter.View()) && forall i :: 0 <= i < |times| ==> times[i] < WORD64
    modifies limiter
    ensures granted == Grants(old(limiter.View()), times)
    ensures limiter.View() == After(old(limiter.View()), times)
  {
    granted := 0;
    for k := 0 to |times|
      invariant Valid(limiter.View())
      invariant granted + Grants(limiter.View(), times[k..]) == Grants(old(limiter.View()), times)
      invariant After(limiter.View(), times[k..]) == After(old(limiter.View()), times)
    {
      assert times[k..][1..] == times[k + 1..];
      var ok := limiter.RateLimit(times[k]);
      if ok {
        granted := granted + 1;
      }
    }
  }
}
