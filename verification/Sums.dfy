/** Sums of a weight over the threads of a machine.  With 0/1 weights this counts the threads in a
    region of the program; with other weights it is a token balance or a termination measure. */
module Sums {

  function Sum<T>(s: seq<T>, w: T -> int): int {
    Prefix(s, w, |s|)
  }

  /** The sum of the first `n` weights. */
  function Prefix<T>(s: seq<T>, w: T -> int, n: nat): int
    requires n <= |s|
  {
    if n == 0 then 0 else Prefix(s, w, n - 1) + w(s[n - 1])
  }

  /** One thread moves: the sum changes by the difference of its two weights. */
  lemma SumUpdate<T>(s: seq<T>, i: nat, x: T, w: T -> int)
    requires i < |s|
    ensures Sum(s[i := x], w) == Sum(s, w) - w(s[i]) + w(x)
  {
    PrefixUpdate(s, i, x, w, |s|);
  }

  lemma {:induction false} PrefixUpdate<T>(s: seq<T>, i: nat, x: T, w: T -> int, n: nat)
    requires i < |s| && n <= |s|
    ensures Prefix(s[i := x], w, n) == Prefix(s, w, n) + if i < n then w(x) - w(s[i]) else 0
  {
    if n > 0 {
      PrefixUpdate(s, i, x, w, n - 1);
    }
  }

  /** Bounding every weight bounds the sum. */
  lemma SumBounds<T>(s: seq<T>, w: T -> int, lo: int, hi: int)
    requires forall i :: 0 <= i < |s| ==> lo <= w(s[i]) <= hi
    ensures lo * |s| <= Sum(s, w) <= hi * |s|
  {
    PrefixBounds(s, w, lo, hi, |s|);
  }

  lemma {:induction false} PrefixBounds<T>(s: seq<T>, w: T -> int, lo: int, hi: int, n: nat)
    requires n <= |s|
    requires forall i :: 0 <= i < n ==> lo <= w(s[i]) <= hi
    ensures lo * n <= Prefix(s, w, n) <= hi * n
  {
    if n > 0 {
      PrefixBounds(s, w, lo, hi, n - 1);
      assert lo * n == lo * (n - 1) + lo && hi * n == hi * (n - 1) + hi;
    }
  }

  /** A non-negative weight: any single thread is a lower bound of the sum. */
  lemma SumMember<T>(s: seq<T>, w: T -> int, i: nat)
    requires i < |s|
    requires forall k :: 0 <= k < |s| ==> w(s[k]) >= 0
    ensures Sum(s, w) >= w(s[i])
  {
    PrefixMember(s, w, i, i, |s|);
  }

  /** A non-negative weight: any two distinct threads are a lower bound of the sum. */
  lemma SumPair<T>(s: seq<T>, w: T -> int, i: nat, j: nat)
    requires i < |s| && j < |s| && i != j
    requires forall k :: 0 <= k < |s| ==> w(s[k]) >= 0
    ensures Sum(s, w) >= w(s[i]) + w(s[j])
  {
    PrefixMember(s, w, i, j, |s|);
  }

  lemma {:induction false} PrefixMember<T>(s: seq<T>, w: T -> int, i: nat, j: nat, n: nat)
    requires i < |s| && j < |s| && n <= |s|
    requires forall k :: 0 <= k < |s| ==> w(s[k]) >= 0
    ensures Prefix(s, w, n) >= (if i < n then w(s[i]) else 0) + (if j < n && j != i then w(s[j]) else 0)
  {
    if n > 0 {
      PrefixMember(s, w, i, j, n - 1);
    }
  }

  /** A positive sum has a thread of positive weight. */
  lemma SumWitness<T>(s: seq<T>, w: T -> int) returns (i: nat)
    requires Sum(s, w) > 0
    ensures i < |s| && w(s[i]) > 0
  {
    i := PrefixWitness(s, w, |s|);
  }

  lemma {:induction false} PrefixWitness<T>(s: seq<T>, w: T -> int, n: nat) returns (i: nat)
    requires n <= |s| && Prefix(s, w, n) > 0
    ensures i < n && w(s[i]) > 0
  {
    if w(s[n - 1]) > 0 {
      i := n - 1;
    } else {
      i := PrefixWitness(s, w, n - 1);
    }
  }

  /** A sum of non-negative weights that is zero leaves every weight zero. */
  lemma SumZero<T>(s: seq<T>, w: T -> int)
    requires forall k :: 0 <= k < |s| ==> w(s[k]) >= 0
    requires Sum(s, w) <= 0
    ensures forall k :: 0 <= k < |s| ==> w(s[k]) == 0
  {
    forall k | 0 <= k < |s| ensures w(s[k]) == 0 {
      SumMember(s, w, k);
    }
  }

  /** Weight by weight smaller, so smaller in sum; strictly so if one thread is strictly smaller. */
  lemma SumLe<T>(s: seq<T>, v: T -> int, w: T -> int)
    requires forall i :: 0 <= i < |s| ==> v(s[i]) <= w(s[i])
    ensures Sum(s, v) <= Sum(s, w)
    ensures forall i :: 0 <= i < |s| && v(s[i]) < w(s[i]) ==> Sum(s, v) < Sum(s, w)
  {
    PrefixLe(s, v, w, |s|);
  }

  lemma {:induction false} PrefixLe<T>(s: seq<T>, v: T -> int, w: T -> int, n: nat)
    requires n <= |s|
    requires forall i :: 0 <= i < |s| ==> v(s[i]) <= w(s[i])
    ensures Prefix(s, v, n) <= Prefix(s, w, n)
    ensures forall i :: 0 <= i < n && v(s[i]) < w(s[i]) ==> Prefix(s, v, n) < Prefix(s, w, n)
  {
    if n > 0 {
      PrefixLe(s, v, w, n - 1);
    }
  }

  /** Threads that move between places of equal weight leave the sum as it is. */
  lemma SumSame<T>(s: seq<T>, s': seq<T>, w: T -> int)
    requires |s| == |s'| && forall i :: 0 <= i < |s| ==> w(s[i]) == w(s'[i])
    ensures Sum(s, w) == Sum(s', w)
  {
    PrefixSame(s, s', w, |s|);
  }

  lemma {:induction false} PrefixSame<T>(s: seq<T>, s': seq<T>, w: T -> int, n: nat)
    requires n <= |s| == |s'| && forall i :: 0 <= i < |s| ==> w(s[i]) == w(s'[i])
    ensures Prefix(s, w, n) == Prefix(s', w, n)
  {
    if n > 0 {
      PrefixSame(s, s', w, n - 1);
    }
  }
}
