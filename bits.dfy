/**
 * Python's bitwise operators on non-negative integers (`&`, `|`, `& ~`, `<<`,
 * `>>`), written out on unbounded naturals so that no width is assumed.
 * Every fact about them is derived from `Bit`, the k-th binary digit, and the
 * extensionality lemma `BitsEqual`.
 */
module Bits {

  /** Bit k (weight 2^k) of a. */
  predicate Bit(a: nat, k: nat)
    decreases k
  {
    if k == 0 then a % 2 == 1 else Bit(a / 2, k - 1)
  }

  function Pow2(n: nat): (r: nat)
    ensures r >= 1
  {
    if n == 0 then 1 else 2 * Pow2(n - 1)
  }

  /** a & b */
  function And(a: nat, b: nat): nat
    decreases a
  {
    if a == 0 || b == 0 then 0
    else 2 * And(a / 2, b / 2) + (if a % 2 == 1 && b % 2 == 1 then 1 else 0)
  }

  /** a | b */
  function Or(a: nat, b: nat): nat
    decreases a + b
  {
    if a == 0 then b
    else if b == 0 then a
    else 2 * Or(a / 2, b / 2) + (if a % 2 == 1 || b % 2 == 1 then 1 else 0)
  }

  /** a & ~b: Python's `~b` is negative, but on a non-negative a the result
      is a with the bits of b cleared. */
  function AndNot(a: nat, b: nat): nat
    decreases a
  {
    if a == 0 then 0
    else if b == 0 then a
    else 2 * AndNot(a / 2, b / 2) + (if a % 2 == 1 && b % 2 == 0 then 1 else 0)
  }

  /** a << n */
  function Shl(a: nat, n: nat): nat
  {
    if n == 0 then a else 2 * Shl(a, n - 1)
  }

  /** a >> n */
  function Shr(a: nat, n: nat): nat
  {
    if n == 0 then a else Shr(a, n - 1) / 2
  }

  // ---------------------------------------------------------------------
  // Bits of the operators

  lemma {:induction false} BitOfZero(k: nat)
    ensures !Bit(0, k)
  {
    if k > 0 { BitOfZero(k - 1); }
  }

  lemma {:induction false} BitAnd(a: nat, b: nat, k: nat)
    ensures Bit(And(a, b), k) == (Bit(a, k) && Bit(b, k))
    decreases a
  {
    if a == 0 || b == 0 {
      BitOfZero(k);
    } else if k > 0 {
      BitAnd(a / 2, b / 2, k - 1);
    }
  }

  lemma {:induction false} BitOr(a: nat, b: nat, k: nat)
    ensures Bit(Or(a, b), k) == (Bit(a, k) || Bit(b, k))
    decreases a + b
  {
    if a == 0 {
      BitOfZero(k);
    } else if b == 0 {
      BitOfZero(k);
    } else if k > 0 {
      BitOr(a / 2, b / 2, k - 1);
    }
  }

  lemma {:induction false} BitAndNot(a: nat, b: nat, k: nat)
    ensures Bit(AndNot(a, b), k) == (Bit(a, k) && !Bit(b, k))
    decreases a
  {
    if a == 0 {
      BitOfZero(k);
    } else if b == 0 {
      BitOfZero(k);
    } else if k > 0 {
      BitAndNot(a / 2, b / 2, k - 1);
    }
  }

  lemma {:induction false} BitShl(a: nat, n: nat, k: nat)
    ensures Bit(Shl(a, n), k) == (n <= k && Bit(a, k - n))
  {
    if n > 0 && k > 0 {
      BitShl(a, n - 1, k - 1);
    }
  }

  lemma {:induction false} BitShr(a: nat, n: nat, k: nat)
    ensures Bit(Shr(a, n), k) == Bit(a, k + n)
  {
    if n > 0 {
      BitShr(a, n - 1, k + 1);
    }
  }

  /** 2^n has exactly bit n set. */
  lemma {:induction false} BitPow2(n: nat, k: nat)
    ensures Bit(Pow2(n), k) == (k == n)
  {
    if n == 0 {
      if k > 0 { BitOfZero(k - 1); }
    } else if k > 0 {
      BitPow2(n - 1, k - 1);
    }
  }

  /** 2^n - 1 has exactly the bits 0 .. n-1 set. */
  lemma {:induction false} BitLowMask(n: nat, k: nat)
    ensures Bit(Pow2(n) - 1, k) == (k < n)
  {
    if n == 0 {
      BitOfZero(k);
    } else if k > 0 {
      assert (Pow2(n) - 1) / 2 == Pow2(n - 1) - 1;
      BitLowMask(n - 1, k - 1);
    }
  }

  // ---------------------------------------------------------------------
  // From bits back to numbers

  /** Two numbers with the same bits are equal. */
  lemma {:induction false} BitsEqual(a: nat, b: nat)
    requires forall k: nat :: Bit(a, k) == Bit(b, k)
    ensures a == b
    decreases a + b
  {
    assert Bit(a, 0) == Bit(b, 0);
    if a != 0 || b != 0 {
      forall k: nat
        ensures Bit(a / 2, k) == Bit(b / 2, k)
      {
        assert Bit(a, k + 1) == Bit(b, k + 1);
      }
      BitsEqual(a / 2, b / 2);
    }
  }

  /** A number with no bit at or above n is below 2^n. */
  lemma {:induction false} BitsBound(a: nat, n: nat)
    requires forall k: nat :: n <= k ==> !Bit(a, k)
    ensures a < Pow2(n)
  {
    if n == 0 {
      forall k: nat
        ensures Bit(a, k) == Bit(0, k)
      {
        BitOfZero(k);
      }
      BitsEqual(a, 0);
    } else {
      forall k: nat | n - 1 <= k
        ensures !Bit(a / 2, k)
      {
        assert !Bit(a, k + 1);
      }
      BitsBound(a / 2, n - 1);
    }
  }

  /** A number below 2^n has no bit at or above n. */
  lemma {:induction false} BitsAbove(a: nat, n: nat, k: nat)
    requires a < Pow2(n) && n <= k
    ensures !Bit(a, k)
  {
    if n == 0 {
      BitOfZero(k);
    } else {
      BitsAbove(a / 2, n - 1, k - 1);
    }
  }

  /** Adding 2^n to a number below 2^n sets bit n and keeps the others. */
  lemma {:induction false} BitAddPow2(n: nat, r: nat, k: nat)
    requires r < Pow2(n)
    ensures Bit(Pow2(n) + r, k) == (k == n || Bit(r, k))
  {
    if n == 0 {
      assert r == 0;
      BitPow2(0, k);
      BitOfZero(k);
    } else if k == 0 {
    } else {
      assert (Pow2(n) + r) / 2 == Pow2(n - 1) + r / 2;
      BitAddPow2(n - 1, r / 2, k - 1);
    }
  }
}
