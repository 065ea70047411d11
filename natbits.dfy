/**
 * Python's non-negative integers as bit strings: `&`, `|`, `^`, `<<` and `>>`
 * on unbounded naturals, and the bits of a natural number.
 */
module NatBits {

  function Pow2(n: nat): (p: nat)
    ensures p > 0
  {
    if n == 0 then 1 else 2 * Pow2(n - 1)
  }

  /** Bit `i` of `a`. */
  predicate NBit(a: nat, i: nat) {
    if i == 0 then a % 2 == 1 else NBit(a / 2, i - 1)
  }

  /** Python's `a & b`. */
  function And(a: nat, b: nat): nat
    decreases a
  {
    if a == 0 || b == 0 then 0
    else 2 * And(a / 2, b / 2) + (if a % 2 == 1 && b % 2 == 1 then 1 else 0)
  }

  /** Python's `a | b`. */
  function Or(a: nat, b: nat): nat
    decreases a
  {
    if a == 0 then b else if b == 0 then a
    else 2 * Or(a / 2, b / 2) + (if a % 2 == 1 || b % 2 == 1 then 1 else 0)
  }

  /** Python's `a ^ b`. */
  function Xor(a: nat, b: nat): nat
    decreases a
  {
    if a == 0 then b else if b == 0 then a
    else 2 * Xor(a / 2, b / 2) + (if a % 2 != b % 2 then 1 else 0)
  }

  /** Python's `a << k`. */
  function LeftShift(a: nat, k: nat): nat {
    a * Pow2(k)
  }

  /** Python's `a >> k`, the floor of a / 2^k: `a` halved `k` times. */
  function RightShift(a: nat, k: nat): nat {
    if k == 0 then a else RightShift(a / 2, k - 1)
  }

  lemma {:induction false} NBitAnd(a: nat, b: nat, i: nat)
    ensures NBit(And(a, b), i) == (NBit(a, i) && NBit(b, i))
    decreases i
  {
    if i > 0 && a != 0 && b != 0 {
      NBitAnd(a / 2, b / 2, i - 1);
    } else if i > 0 {
      NBitZero(i - 1);
    }
  }

  lemma {:induction false} NBitOr(a: nat, b: nat, i: nat)
    ensures NBit(Or(a, b), i) == (NBit(a, i) || NBit(b, i))
    decreases i
  {
    if i > 0 && a != 0 && b != 0 {
      NBitOr(a / 2, b / 2, i - 1);
    } else if i > 0 {
      NBitZero(i - 1);
    }
  }

  lemma {:induction false} NBitXor(a: nat, b: nat, i: nat)
    ensures NBit(Xor(a, b), i) == (NBit(a, i) != NBit(b, i))
    decreases i
  {
    if i > 0 && a != 0 && b != 0 {
      NBitXor(a / 2, b / 2, i - 1);
    } else if i > 0 {
      NBitZero(i - 1);
    }
  }

  lemma {:induction false} NBitZero(i: nat)
    ensures !NBit(0, i)
  {
    if i > 0 {
      NBitZero(i - 1);
    }
  }

  lemma {:induction false} NBitRightShift(a: nat, k: nat, i: nat)
    ensures NBit(RightShift(a, k), i) == NBit(a, i + k)
    decreases k
  {
    if k > 0 {
      NBitRightShift(a / 2, k - 1, i);
    }
  }

  lemma {:induction false} NBitLeftShift(a: nat, k: nat, i: nat)
    ensures NBit(LeftShift(a, k), i) == (k <= i && NBit(a, i - k))
    decreases k
  {
    if k > 0 {
      assert LeftShift(a, k) == 2 * LeftShift(a, k - 1);
      if i > 0 {
        assert (2 * LeftShift(a, k - 1)) / 2 == LeftShift(a, k - 1);
        NBitLeftShift(a, k - 1, i - 1);
      }
    }
  }

  /** Two naturals with the same bits are equal. */
  lemma {:induction false} BitsEqual(a: nat, b: nat)
    requires forall i: nat :: NBit(a, i) == NBit(b, i)
    ensures a == b
    decreases a + b
  {
    if a + b > 0 {
      assert NBit(a, 0) == NBit(b, 0);
      forall i: nat
        ensures NBit(a / 2, i) == NBit(b / 2, i)
      {
        assert NBit(a, i + 1) == NBit(b, i + 1);
      }
      BitsEqual(a / 2, b / 2);
    }
  }

  /** A natural below 2^n has no bit at or above n. */
  lemma {:induction false} HighBitsClear(a: nat, n: nat, i: nat)
    requires a < Pow2(n) && n <= i
    ensures !NBit(a, i)
    decreases n
  {
    if n == 0 {
      NBitZero(i);
    } else {
      HighBitsClear(a / 2, n - 1, i - 1);
    }
  }

  /** A nonzero natural has a set bit. */
  lemma {:induction false} SomeNBit(a: nat) returns (i: nat)
    requires a != 0
    ensures NBit(a, i)
    decreases a
  {
    if a % 2 == 1 {
      i := 0;
    } else {
      var j := SomeNBit(a / 2);
      i := j + 1;
    }
  }

  /** A natural with a set bit is nonzero. */
  lemma NBitNonzero(a: nat, i: nat)
    requires NBit(a, i)
    ensures a != 0
  {
    if a == 0 {
      NBitZero(i);
    }
  }

  /** Bit `i` of 2^k is set exactly when i == k. */
  lemma {:induction false} NBitPow2(k: nat, i: nat)
    ensures NBit(Pow2(k), i) == (i == k)
    decreases k
  {
    if k == 0 {
      if i > 0 {
        NBitZero(i - 1);
      }
    } else if i > 0 {
      NBitPow2(k - 1, i - 1);
    } else {
      assert Pow2(k) == 2 * Pow2(k - 1);
    }
  }

  /** Masking with 2^k tests bit k. */
  lemma AndPow2(a: nat, k: nat)
    ensures And(a, Pow2(k)) == 0 <==> !NBit(a, k)
  {
    NBitAnd(a, Pow2(k), k);
    NBitPow2(k, k);
    if And(a, Pow2(k)) == 0 {
      NBitZero(k);
    } else {
      var i := SomeNBit(And(a, Pow2(k)));
      NBitAnd(a, Pow2(k), i);
      NBitPow2(k, i);
    }
  }

  /** The bits of 2^n - 1 are bits 0 to n - 1. */
  lemma {:induction false} LowOnes(n: nat, i: nat)
    ensures NBit(Pow2(n) - 1, i) == (i < n)
    decreases n
  {
    if n == 0 {
      NBitZero(i);
    } else if i > 0 {
      assert (Pow2(n) - 1) / 2 == Pow2(n - 1) - 1;
      LowOnes(n - 1, i - 1);
    }
  }

  /** A natural with no bit at or above n is below 2^n. */
  lemma {:induction false} BitsBelow(a: nat, n: nat)
    requires forall j: nat :: n <= j ==> !NBit(a, j)
    ensures a < Pow2(n)
    decreases n
  {
    if n == 0 {
      forall i: nat
        ensures NBit(a, i) == NBit(0, i)
      {
        NBitZero(i);
      }
      BitsEqual(a, 0);
    } else {
      forall j: nat | n - 1 <= j
        ensures !NBit(a / 2, j)
      {
        assert !NBit(a, j + 1);
      }
      BitsBelow(a / 2, n - 1);
    }
  }

  lemma {:induction false} Pow2Mono(m: nat, n: nat)
    requires m <= n
    ensures Pow2(m) <= Pow2(n)
    decreases n
  {
    if m < n {
      Pow2Mono(m, n - 1);
    }
  }

  /** Bit n of 2^n + 1 is set, for n >= 1. */
  lemma NBitPow2Succ(n: nat)
    requires 1 <= n
    ensures NBit(Pow2(n) + 1, n)
  {
    assert (Pow2(n) + 1) / 2 == Pow2(n - 1);
    NBitPow2(n - 1, n - 1);
  }
}
