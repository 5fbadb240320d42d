/** Facts about quotients and remainders by a divisor that is not a constant. */
module Division {

  lemma DivMod(n: nat, d: nat)
    requires d > 0
    ensures n == d * (n / d) + n % d && 0 <= n % d < d
  {
  }

  lemma Factor(d: nat, a: int, b: int)
    ensures d * a - d * b == d * (a - b)
  {
  }

  lemma AtLeast(d: nat, k: int)
    requires k >= 1
    ensures d * k >= d
  {
  }

  lemma QuotientIs(d: nat, q: int, r: nat, q': int, r': nat)
    requires r < d && r' < d && d * q + r == d * q' + r'
    ensures q == q'
  {
    if q > q' {
      Factor(d, q, q');
      AtLeast(d, q - q');
    } else if q < q' {
      Factor(d, q', q);
      AtLeast(d, q' - q);
    }
  }

  lemma RemainderIs(n: nat, d: nat, q: int, r: nat)
    requires r < d && n == d * q + r
    ensures n % d == r && n / d == q
  {
    DivMod(n, d);
    QuotientIs(d, n / d, n % d, q, r);
  }

  /** Numbers less than `d` apart have different remainders; adding `d` changes none. */
  lemma RemainderWindow(i: nat, j: nat, d: nat)
    requires d > 0
    ensures i < j < i + d ==> i % d != j % d
    ensures (i + d) % d == i % d
  {
    DivMod(i, d);
    DivMod(j, d);
    assert d * (i / d + 1) == d * (i / d) + d;
    RemainderIs(i + d, d, i / d + 1, i % d);
    if i < j < i + d && i % d == j % d {
      Factor(d, j / d, i / d);
      if j / d - i / d >= 1 {
        AtLeast(d, j / d - i / d);
      } else {
        AtMostZero(d, j / d - i / d);
      }
    }
  }

  lemma AtMostZero(d: nat, k: int)
    requires k <= 0
    ensures d * k <= 0
  {
  }
}
