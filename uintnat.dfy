/**
 * The value of a Go uint64 as a Python integer, and how Go's fixed-width
 * operators on uint64 relate to Python's operators on the values.
 */
module UintNat {
  import opened GoInt
  import opened NatBits

  /** The value of the low `n` bits of `x`. */
  function NatOf(x: uint64, n: nat): nat
    requires n <= 64
  {
    if n == 0 then 0 else (if x & 1 == 1 then 1 else 0) + 2 * NatOf(x >> 1, n - 1)
  }

  /** The value of `x` as an unbounded natural. */
  function ToNat(x: uint64): nat {
    NatOf(x, 64)
  }

  lemma {:induction false} NatOfBound(x: uint64, n: nat)
    requires n <= 64
    ensures NatOf(x, n) < Pow2(n)
  {
    if n > 0 {
      NatOfBound(x >> 1, n - 1);
    }
  }

  lemma BitHalf(x: uint64, i: uint8)
    requires 0 < i < 64
    ensures Bit(x >> 1, i - 1) == Bit(x, i)
  {
  }

  lemma Pred(i: uint8)
    requires 0 < i
    ensures (i - 1) as nat == i as nat - 1
  {
  }

  lemma {:induction false} NatOfBit(x: uint64, n: nat, i: uint8)
    requires n <= 64 && i < 64
    ensures NBit(NatOf(x, n), i as nat) == (i as nat < n && Bit(x, i))
    decreases n
  {
    if n == 0 {
      NBitZero(i as nat);
    } else if i > 0 {
      NatOfBit(x >> 1, n - 1, i - 1);
      Pred(i);
      BitHalf(x, i);
    }
  }

  /** Bit i of the value is bit i of the word. */
  lemma ToNatBit(x: uint64, i: uint8)
    requires i < 64
    ensures NBit(ToNat(x), i as nat) == Bit(x, i)
  {
    NatOfBit(x, 64, i);
  }

  /** The value has no bit from 64 up. */
  lemma ToNatHigh(x: uint64, j: nat)
    requires 64 <= j
    ensures !NBit(ToNat(x), j)
  {
    NatOfBound(x, 64);
    HighBitsClear(ToNat(x), 64, j);
  }

  /** A natural with the bits of `g` below 64 and none above is the value of `g`. */
  lemma ToNatByBits(g: uint64, a: nat)
    requires forall i: uint8 :: i < 64 ==> NBit(a, i as nat) == Bit(g, i)
    requires forall j: nat :: 64 <= j ==> !NBit(a, j)
    ensures ToNat(g) == a
  {
    forall j: nat
      ensures NBit(ToNat(g), j) == NBit(a, j)
    {
      if j < 64 {
        Round(j);
        ToNatBit(g, j as uint8);
      } else {
        ToNatHigh(g, j);
      }
    }
    BitsEqual(ToNat(g), a);
  }

  lemma BitAnd(x: uint64, y: uint64, i: uint8)
    requires i < 64
    ensures Bit(x & y, i) == (Bit(x, i) && Bit(y, i))
  {
  }

  lemma BitOr(x: uint64, y: uint64, i: uint8)
    requires i < 64
    ensures Bit(x | y, i) == (Bit(x, i) || Bit(y, i))
  {
  }

  lemma BitXor(x: uint64, y: uint64, i: uint8)
    requires i < 64
    ensures Bit(x ^ y, i) == (Bit(x, i) != Bit(y, i))
  {
  }

  lemma AndBitAt(x: uint64, y: uint64, i: uint8)
    requires i < 64
    ensures NBit(And(ToNat(x), ToNat(y)), i as nat) == Bit(x & y, i)
  {
    NBitAnd(ToNat(x), ToNat(y), i as nat);
    ToNatBit(x, i);
    ToNatBit(y, i);
    BitAnd(x, y, i);
  }

  /** Go's `&` on uint64 is Python's `&` on the values. */
  lemma ToNatAnd(x: uint64, y: uint64)
    ensures ToNat(x & y) == And(ToNat(x), ToNat(y))
  {
    var a, g := And(ToNat(x), ToNat(y)), x & y;
    forall i: uint8 | i < 64
      ensures NBit(a, i as nat) == Bit(g, i)
    {
      AndBitAt(x, y, i);
    }
    forall j: nat | 64 <= j
      ensures !NBit(a, j)
    {
      NBitAnd(ToNat(x), ToNat(y), j);
      ToNatHigh(x, j);
    }
    ToNatByBits(g, a);
  }

  lemma OrBitAt(x: uint64, y: uint64, i: uint8)
    requires i < 64
    ensures NBit(Or(ToNat(x), ToNat(y)), i as nat) == Bit(x | y, i)
  {
    NBitOr(ToNat(x), ToNat(y), i as nat);
    ToNatBit(x, i);
    ToNatBit(y, i);
    BitOr(x, y, i);
  }

  /** Go's `|` on uint64 is Python's `|` on the values. */
  lemma ToNatOr(x: uint64, y: uint64)
    ensures ToNat(x | y) == Or(ToNat(x), ToNat(y))
  {
    var a, g := Or(ToNat(x), ToNat(y)), x | y;
    forall i: uint8 | i < 64
      ensures NBit(a, i as nat) == Bit(g, i)
    {
      OrBitAt(x, y, i);
    }
    forall j: nat | 64 <= j
      ensures !NBit(a, j)
    {
      NBitOr(ToNat(x), ToNat(y), j);
      ToNatHigh(x, j);
      ToNatHigh(y, j);
    }
    ToNatByBits(g, a);
  }

  lemma XorBitAt(x: uint64, y: uint64, i: uint8)
    requires i < 64
    ensures NBit(Xor(ToNat(x), ToNat(y)), i as nat) == Bit(x ^ y, i)
  {
    NBitXor(ToNat(x), ToNat(y), i as nat);
    ToNatBit(x, i);
    ToNatBit(y, i);
    BitXor(x, y, i);
  }

  /** Go's `^` on uint64 is Python's `^` on the values. */
  lemma ToNatXor(x: uint64, y: uint64)
    ensures ToNat(x ^ y) == Xor(ToNat(x), ToNat(y))
  {
    var a, g := Xor(ToNat(x), ToNat(y)), x ^ y;
    forall i: uint8 | i < 64
      ensures NBit(a, i as nat) == Bit(g, i)
    {
      XorBitAt(x, y, i);
    }
    forall j: nat | 64 <= j
      ensures !NBit(a, j)
    {
      NBitXor(ToNat(x), ToNat(y), j);
      ToNatHigh(x, j);
      ToNatHigh(y, j);
    }
    ToNatByBits(g, a);
  }
  // ---------------------------------------------------------------------------
  // Shifts by the amounts the engine uses
  // ---------------------------------------------------------------------------

  /** The right-shift counts the engine applies to a uint64: CheckAlignment's and the column offsets 7 * col. */
  predicate ShiftCount(k: uint8) {
    || k == 1 || k == 2 || k == 3 || k == 6 || k == 8 || k == 12 || k == 16 || k == 18 || k == 24
    || (k % 7 == 0 && k <= 42)
  }

  lemma SumPos(i: uint8, k: uint8)
    requires i < 64 && k < 64
    ensures (i + k) as nat == i as nat + k as nat
  {
  }

  lemma LePos(i: uint8, k: uint8)
    ensures k <= i <==> k as nat <= i as nat
  {
  }

  lemma DiffPos(i: uint8, k: uint8)
    requires k <= i < 64
    ensures (i - k) as nat == i as nat - k as nat
  {
    SumPos(i - k, k);
    assert i - k + k == i;
  }

  lemma BitShr0(x: uint64, k: uint8, i: uint8)
    requires k == 0 && i < 64
    ensures Bit(x >> k, i) == (i < 64 - k && Bit(x, i + k))
  {
    assert x >> k == x && i + k == i;
  }

  lemma BitShr1(x: uint64, k: uint8, i: uint8)
    requires k == 1 && i < 64
    ensures Bit(x >> k, i) == (i < 64 - k && Bit(x, i + k))
  {
  }

  lemma BitShr2(x: uint64, k: uint8, i: uint8)
    requires k == 2 && i < 64
    ensures Bit(x >> k, i) == (i < 64 - k && Bit(x, i + k))
  {
  }

  lemma BitShr3(x: uint64, k: uint8, i: uint8)
    requires k == 3 && i < 64
    ensures Bit(x >> k, i) == (i < 64 - k && Bit(x, i + k))
  {
  }

  lemma BitShr6(x: uint64, k: uint8, i: uint8)
    requires k == 6 && i < 64
    ensures Bit(x >> k, i) == (i < 64 - k && Bit(x, i + k))
  {
  }

  lemma BitShr7(x: uint64, k: uint8, i: uint8)
    requires k == 7 && i < 64
    ensures Bit(x >> k, i) == (i < 64 - k && Bit(x, i + k))
  {
  }

  lemma BitShr8(x: uint64, k: uint8, i: uint8)
    requires k == 8 && i < 64
    ensures Bit(x >> k, i) == (i < 64 - k && Bit(x, i + k))
  {
  }

  lemma BitShr12(x: uint64, k: uint8, i: uint8)
    requires k == 12 && i < 64
    ensures Bit(x >> k, i) == (i < 64 - k && Bit(x, i + k))
  {
  }

  lemma BitShr14(x: uint64, k: uint8, i: uint8)
    requires k == 14 && i < 64
    ensures Bit(x >> k, i) == (i < 64 - k && Bit(x, i + k))
  {
  }

  lemma BitShr16(x: uint64, k: uint8, i: uint8)
    requires k == 16 && i < 64
    ensures Bit(x >> k, i) == (i < 64 - k && Bit(x, i + k))
  {
  }

  lemma BitShr18(x: uint64, k: uint8, i: uint8)
    requires k == 18 && i < 64
    ensures Bit(x >> k, i) == (i < 64 - k && Bit(x, i + k))
  {
  }

  lemma BitShr21(x: uint64, k: uint8, i: uint8)
    requires k == 21 && i < 64
    ensures Bit(x >> k, i) == (i < 64 - k && Bit(x, i + k))
  {
  }

  lemma BitShr24(x: uint64, k: uint8, i: uint8)
    requires k == 24 && i < 64
    ensures Bit(x >> k, i) == (i < 64 - k && Bit(x, i + k))
  {
  }

  lemma BitShr28(x: uint64, k: uint8, i: uint8)
    requires k == 28 && i < 64
    ensures Bit(x >> k, i) == (i < 64 - k && Bit(x, i + k))
  {
  }

  lemma BitShr35(x: uint64, k: uint8, i: uint8)
    requires k == 35 && i < 64
    ensures Bit(x >> k, i) == (i < 64 - k && Bit(x, i + k))
  {
  }

  lemma BitShr42(x: uint64, k: uint8, i: uint8)
    requires k == 42 && i < 64
    ensures Bit(x >> k, i) == (i < 64 - k && Bit(x, i + k))
  {
  }

  /** Bit i of `x >> k` is bit i + k of `x`, or clear past the top. */
  lemma BitShr(x: uint64, k: uint8, i: uint8)
    requires ShiftCount(k) && i < 64
    ensures Bit(x >> k, i) == (i < 64 - k && Bit(x, i + k))
  {
    if k == 0 {
      BitShr0(x, k, i);
    } else if k == 1 {
      BitShr1(x, k, i);
    } else if k == 2 {
      BitShr2(x, k, i);
    } else if k == 3 {
      BitShr3(x, k, i);
    } else if k == 6 {
      BitShr6(x, k, i);
    } else if k == 7 {
      BitShr7(x, k, i);
    } else if k == 8 {
      BitShr8(x, k, i);
    } else if k == 12 {
      BitShr12(x, k, i);
    } else if k == 14 {
      BitShr14(x, k, i);
    } else if k == 16 {
      BitShr16(x, k, i);
    } else if k == 18 {
      BitShr18(x, k, i);
    } else if k == 21 {
      BitShr21(x, k, i);
    } else if k == 24 {
      BitShr24(x, k, i);
    } else if k == 28 {
      BitShr28(x, k, i);
    } else if k == 35 {
      BitShr35(x, k, i);
    } else {
      BitShr42(x, k, i);
    }
  }

  lemma BitShl0(x: uint64, k: uint8, i: uint8)
    requires k == 0 && i < 64
    ensures Bit(x << k, i) == (k <= i && Bit(x, i - k))
  {
    assert x << k == x && i - k == i;
  }

  lemma BitShl7(x: uint64, k: uint8, i: uint8)
    requires k == 7 && i < 64
    ensures Bit(x << k, i) == (k <= i && Bit(x, i - k))
  {
  }

  lemma BitShl14(x: uint64, k: uint8, i: uint8)
    requires k == 14 && i < 64
    ensures Bit(x << k, i) == (k <= i && Bit(x, i - k))
  {
  }

  lemma BitShl21(x: uint64, k: uint8, i: uint8)
    requires k == 21 && i < 64
    ensures Bit(x << k, i) == (k <= i && Bit(x, i - k))
  {
  }

  lemma BitShl28(x: uint64, k: uint8, i: uint8)
    requires k == 28 && i < 64
    ensures Bit(x << k, i) == (k <= i && Bit(x, i - k))
  {
  }

  lemma BitShl35(x: uint64, k: uint8, i: uint8)
    requires k == 35 && i < 64
    ensures Bit(x << k, i) == (k <= i && Bit(x, i - k))
  {
  }

  lemma BitShl42(x: uint64, k: uint8, i: uint8)
    requires k == 42 && i < 64
    ensures Bit(x << k, i) == (k <= i && Bit(x, i - k))
  {
  }

  /** Bit i of `x << k` is bit i - k of `x`, or clear below k. */
  lemma BitShl(x: uint64, k: uint8, i: uint8)
    requires k % 7 == 0 && k <= 42 && i < 64
    ensures Bit(x << k, i) == (k <= i && Bit(x, i - k))
  {
    if k == 0 {
      BitShl0(x, k, i);
    } else if k == 7 {
      BitShl7(x, k, i);
    } else if k == 14 {
      BitShl14(x, k, i);
    } else if k == 21 {
      BitShl21(x, k, i);
    } else if k == 28 {
      BitShl28(x, k, i);
    } else if k == 35 {
      BitShl35(x, k, i);
    } else {
      BitShl42(x, k, i);
    }
  }

  lemma ShrBitAt(x: uint64, k: uint8, i: uint8)
    requires ShiftCount(k) && i < 64
    ensures NBit(RightShift(ToNat(x), k as nat), i as nat) == Bit(x >> k, i)
  {
    NBitRightShift(ToNat(x), k as nat, i as nat);
    BitShr(x, k, i);
    if i < 64 - k {
      SumPos(i, k);
      ToNatBit(x, i + k);
    } else {
      ToNatHigh(x, i as nat + k as nat);
    }
  }

  /** Go's `x >> k` is Python's `x >> k` on the value. */
  lemma ToNatShr(x: uint64, k: uint8)
    requires ShiftCount(k)
    ensures ToNat(x >> k) == RightShift(ToNat(x), k as nat)
  {
    var a, g := RightShift(ToNat(x), k as nat), x >> k;
    forall i: uint8 | i < 64
      ensures NBit(a, i as nat) == Bit(g, i)
    {
      ShrBitAt(x, k, i);
    }
    forall j: nat | 64 <= j
      ensures !NBit(a, j)
    {
      NBitRightShift(ToNat(x), k as nat, j);
      ToNatHigh(x, j + k as nat);
    }
    ToNatByBits(g, a);
  }

  lemma ShlBitAt(x: uint64, k: uint8, i: uint8)
    requires k % 7 == 0 && k <= 42 && i < 64
    ensures NBit(LeftShift(ToNat(x), k as nat), i as nat) == Bit(x << k, i)
  {
    LePos(i, k);
    if k <= i {
      ShlBitAtLow(x, k, i, i - k);
    } else {
      NBitLeftShift(ToNat(x), k as nat, i as nat);
      BitShl(x, k, i);
    }
  }

  lemma ShlBitAtLow(x: uint64, k: uint8, i: uint8, m: uint8)
    requires k % 7 == 0 && k <= 42 && k <= i < 64 && m == i - k
    ensures NBit(LeftShift(ToNat(x), k as nat), i as nat) == Bit(x << k, i)
  {
    NBitLeftShift(ToNat(x), k as nat, i as nat);
    BitShl(x, k, i);
    DiffPos(i, k);
    ToNatBit(x, m);
    assert NBit(ToNat(x), i as nat - k as nat) == Bit(x, m);
  }

  lemma ShlHighAt(x: uint64, k: uint8, j: nat)
    requires k <= 42 && ToNat(x) < Pow2(64 - k as nat) && 64 <= j
    ensures !NBit(LeftShift(ToNat(x), k as nat), j)
  {
    NBitLeftShift(ToNat(x), k as nat, j);
    HighBitsClear(ToNat(x), 64 - k as nat, j - k as nat);
  }

  /** Go's `x << k` is Python's `x << k` on the value when nothing is shifted out of the word. */
  lemma ToNatShl(x: uint64, k: uint8)
    requires k % 7 == 0 && k <= 42 && ToNat(x) < Pow2(64 - k as nat)
    ensures ToNat(x << k) == LeftShift(ToNat(x), k as nat)
  {
    var a, g := LeftShift(ToNat(x), k as nat), x << k;
    forall i: uint8 | i < 64
      ensures NBit(a, i as nat) == Bit(g, i)
    {
      ShlBitAt(x, k, i);
    }
    forall j: nat | 64 <= j
      ensures !NBit(a, j)
    {
      ShlHighAt(x, k, j);
    }
    ToNatByBits(g, a);
  }

  // ---------------------------------------------------------------------------
  // Adding one, and constants
  // ---------------------------------------------------------------------------

  lemma IncEven(x: uint64)
    requires x & 1 == 0
    ensures (x + 1) & 1 == 1 && (x + 1) >> 1 == x >> 1
  {
  }

  lemma IncOdd(x: uint64)
    requires x & 1 == 1 && x < 0x8000_0000_0000_0000
    ensures (x + 1) & 1 == 0 && (x + 1) >> 1 == (x >> 1) + 1
  {
  }

  lemma {:induction false} NatOfInc(x: uint64, n: nat)
    requires n <= 64 && x < 0x8000_0000_0000_0000 && NatOf(x, n) + 1 < Pow2(n)
    ensures NatOf(x + 1, n) == NatOf(x, n) + 1
    decreases n
  {
    if x & 1 == 0 {
      IncEven(x);
    } else {
      IncOdd(x);
      NatOfInc(x >> 1, n - 1);
      NatOfOddStep(x, n);
    }
  }

  lemma NatOfOddStep(x: uint64, n: nat)
    requires 0 < n <= 64 && x & 1 == 1 && (x + 1) & 1 == 0 && (x + 1) >> 1 == (x >> 1) + 1
    requires NatOf((x >> 1) + 1, n - 1) == NatOf(x >> 1, n - 1) + 1
    ensures NatOf(x + 1, n) == NatOf(x, n) + 1
  {
  }

  lemma TopBitClear(x: uint64)
    requires !Bit(x, 63)
    ensures x < 0x8000_0000_0000_0000
  {
  }

  /** Go's `x + 1` is Python's when the value is below 2^63, so that nothing wraps around. */
  lemma ToNatInc(x: uint64)
    requires ToNat(x) < Pow2(63)
    ensures ToNat(x + 1) == ToNat(x) + 1
  {
    ToNatBit(x, 63);
    HighBitsClear(ToNat(x), 63, 63);
    TopBitClear(x);
    assert Pow2(64) == 2 * Pow2(63);
    NatOfInc(x, 64);
  }

  lemma Bit63(i: uint8)
    requires i < 64
    ensures Bit(63, i) == (i < 6)
  {
  }

  lemma Bit1(i: uint8)
    requires i < 64
    ensures Bit(1, i) == (i == 0)
  {
  }

  lemma ToNatConstants()
    ensures ToNat(0) == 0 && ToNat(1) == 1 && ToNat(63) == 63
  {
    forall i: uint8 | i < 64
      ensures NBit(63, i as nat) == Bit(63, i) && NBit(1, i as nat) == Bit(1, i) && NBit(0, i as nat) == Bit(0, i)
    {
      Bit63(i);
      Bit1(i);
      LowOnes(6, i as nat);
      NBitPow2(0, i as nat);
      NBitZero(i as nat);
    }
    forall j: nat | 64 <= j
      ensures !NBit(63, j) && !NBit(1, j) && !NBit(0, j)
    {
      LowOnes(6, j);
      NBitPow2(0, j);
      NBitZero(j);
    }
    ToNatByBits(63, 63);
    ToNatByBits(1, 1);
    ToNatByBits(0, 0);
  }
}
