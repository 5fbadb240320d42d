/** Bitwise "and" on unbounded non-negative integers, and what a mask of `size - 1` computes. */
module Bits {
  import opened Division

  function And(a: nat, b: nat): (r: nat)
    ensures r <= b
  {
    if a == 0 || b == 0 then 0
    else 2 * And(a / 2, b / 2) + if a % 2 == 1 && b % 2 == 1 then 1 else 0
  }

  function Pow2(k: nat): (p: nat)
    ensures p > 0
  {
    if k == 0 then 1 else 2 * Pow2(k - 1)
  }

  predicate IsPow2(n: nat) {
    n == 1 || (n > 0 && n % 2 == 0 && IsPow2(n / 2))
  }

  lemma {:induction false} IsPow2Iff(n: nat)
    ensures IsPow2(n) <==> exists k: nat :: n == Pow2(k)
  {
    if n == 1 {
      assert n == Pow2(0);
    } else if n > 0 && n % 2 == 0 {
      IsPow2Iff(n / 2);
      if k: nat :| n / 2 == Pow2(k) {
        assert n == Pow2(k + 1);
      }
      if k: nat :| n == Pow2(k) {
        assert n / 2 == Pow2(k - 1);
      }
    }
  }

  lemma HalfMod(h: nat, m: nat)
    requires m > 0
    ensures h % (2 * m) == 2 * (h / 2 % m) + h % 2
  {
    var q, r := h / 2 / m, h / 2 % m;
    DivMod(h / 2, m);
    assert 2 * (m * q) == 2 * m * q;
    RemainderIs(h, 2 * m, q, 2 * r + h % 2);
  }

  /** The slot index of a ticket. */
  function Mask(h: nat, size: nat): (i: nat)
    requires size > 0
    ensures i < size
  {
    And(h, size - 1)
  }

  /** For a power of two the mask is the remainder. */
  lemma {:induction false} MaskIsMod(h: nat, size: nat)
    requires IsPow2(size)
    ensures Mask(h, size) == h % size
    decreases size
  {
    if size > 1 {
      MaskIsMod(h / 2, size / 2);
      HalfMod(h, size / 2);
      assert (size - 1) / 2 == size / 2 - 1;
    }
  }

  lemma OddMaskLosesOne(size: nat)
    requires size > 1 && size % 2 == 1
    ensures Mask(1, size) == 0
  {
    assert (size - 1) % 2 == 0 && And(0, (size - 1) / 2) == 0;
  }

  /** The mask leaves every number below the size alone only for a power of two. */
  lemma {:induction false} MaskKeepsOnlyPow2(size: nat)
    requires size > 0 && forall h: nat :: h < size ==> Mask(h, size) == h
    ensures IsPow2(size)
    decreases size
  {
    if size > 1 {
      if size % 2 == 1 {
        OddMaskLosesOne(size);
      } else {
        forall h: nat | h < size / 2 ensures Mask(h, size / 2) == h {
          assert Mask(2 * h, size) == 2 * h;
          assert (size - 1) / 2 == size / 2 - 1;
        }
        MaskKeepsOnlyPow2(size / 2);
      }
    }
  }

  lemma SmallMod(h: nat, size: nat)
    requires h < size
    ensures h % size == h
  {
  }

  /** Masking a ticket gives its remainder, for all tickets, exactly when the size is a power of two. */
  lemma MaskIsModIffPow2(size: nat)
    requires size > 0
    ensures (forall h: nat :: Mask(h, size) == h % size) <==> IsPow2(size)
  {
    if IsPow2(size) {
      forall h: nat ensures Mask(h, size) == h % size {
        MaskIsMod(h, size);
      }
    } else if forall h: nat :: Mask(h, size) == h % size {
      forall h: nat | h < size ensures Mask(h, size) == h {
        SmallMod(h, size);
      }
      MaskKeepsOnlyPow2(size);
    }
  }

  lemma {:induction false} AndSelf(n: nat)
    ensures And(n, n) == n
  {
    if n > 0 {
      AndSelf(n / 2);
    }
  }

  /** The constructor's assertion accepts a size exactly when it is even and not zero. */
  lemma {:induction false} SizeCheckAcceptsEven(size: nat)
    ensures (size != 0 && And(size, size + 1) == size) <==> (size != 0 && size % 2 == 0)
  {
    if size % 2 == 0 {
      assert (size + 1) / 2 == size / 2;
      AndSelf(size / 2);
    } else {
      assert (size + 1) % 2 == 0;
    }
  }

  /** For an accepted size that is no power of two, the first ticket that the mask takes away from its own slot:
      it goes to slot 0, and all tickets before it keep theirs. */
  lemma {:induction false} FirstLostTicket(size: nat) returns (m: nat)
    requires size > 0 && size % 2 == 0 && !IsPow2(size)
    ensures 2 <= m < size && Mask(m, size) == 0
    ensures forall h: nat :: h < m ==> Mask(h, size) == h
    decreases size
  {
    var half := size / 2;
    var k: nat := 1;
    assert (size - 1) / 2 == half - 1 && (size - 1) % 2 == 1;
    if half % 2 == 0 {
      k := FirstLostTicket(half);
    } else {
      OddMaskLosesOne(half);
    }
    m := 2 * k;
    assert Mask(m, size) == 2 * Mask(k, half);
    forall h: nat | h < m ensures Mask(h, size) == h {
      if h > 0 {
        assert Mask(h / 2, half) == h / 2;
      }
    }
  }
}
