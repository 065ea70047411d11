/**
 * What CheckAlignment of voda/board/board.go decides: four set bits spaced by
 * 1, 6, 7 or 8 and, on a board with no stray bits, four stones in a line of
 * the 6x7 grid.
 */
module Alignment {
  import opened GoInt
  import opened Board

  // ---------------------------------------------------------------------------
  // Specifications
  // ---------------------------------------------------------------------------

  /** Bits p, p+d, p+2d and p+3d of `x` are all set (and all inside the word). */
  predicate Spaced(x: uint64, p: uint8, d: uint8)
    requires p < 64 && d <= 8
  {
    p + 3 * d < 64 && Bit(x, p) && Bit(x, p + d) && Bit(x, p + 2 * d) && Bit(x, p + 3 * d)
  }

  /** Some four set bits of `x` are evenly spaced by one of CheckAlignment's four shifts. */
  ghost predicate FourSpaced(x: uint64) {
    exists p: uint8, d: uint8 :: p < 64 && (d == 1 || d == 6 || d == 7 || d == 8) && Spaced(x, p, d)
  }

  /** Rows r..r+3 of column c. */
  predicate VerticalFour(x: uint64, c: uint8, r: uint8)
    requires c < 7 && r < 3
  {
    Cell(x, c, r) && Cell(x, c, r + 1) && Cell(x, c, r + 2) && Cell(x, c, r + 3)
  }

  /** Columns c..c+3 of row r. */
  predicate HorizontalFour(x: uint64, c: uint8, r: uint8)
    requires c < 4 && r < 6
  {
    Cell(x, c, r) && Cell(x, c + 1, r) && Cell(x, c + 2, r) && Cell(x, c + 3, r)
  }

  /** The diagonal rising to the right from (c, r). */
  predicate RisingFour(x: uint64, c: uint8, r: uint8)
    requires c < 4 && r < 3
  {
    Cell(x, c, r) && Cell(x, c + 1, r + 1) && Cell(x, c + 2, r + 2) && Cell(x, c + 3, r + 3)
  }

  /** The diagonal falling to the right from (c, r). */
  predicate FallingFour(x: uint64, c: uint8, r: uint8)
    requires c < 4 && 3 <= r < 6
  {
    Cell(x, c, r) && Cell(x, c + 1, r - 1) && Cell(x, c + 2, r - 2) && Cell(x, c + 3, r - 3)
  }

  /** Four stones in a line of the 6x7 grid: vertically, horizontally or on either diagonal. */
  ghost predicate FourInLine(x: uint64) {
    exists c: uint8, r: uint8 ::
      || (c < 7 && r < 3 && VerticalFour(x, c, r))
      || (c < 4 && r < 6 && HorizontalFour(x, c, r))
      || (c < 4 && r < 3 && RisingFour(x, c, r))
      || (c < 4 && 3 <= r < 6 && FallingFour(x, c, r))
  }

  // ---------------------------------------------------------------------------
  // The main results
  // ---------------------------------------------------------------------------

  /** CheckAlignment holds exactly when four set bits are spaced by 1, 6, 7 or 8. */
  lemma CheckAlignmentIffFourSpaced(x: uint64)
    ensures CheckAlignment(x) <==> FourSpaced(x)
  {
    if CheckAlignment(x) {
      AlignedToSpaced(x);
    }
    if FourSpaced(x) {
      SpacedToAligned(x);
    }
  }

  /**
   * On a board with no stray bits (zero sentinels, nothing from bit 49 up)
   * CheckAlignment is exactly "four stones in a line on the grid". Spacings
   * that would wrap from the top of one column into the next pass through a
   * sentinel, which is zero.
   */
  lemma CheckAlignmentIffFourInLine(x: uint64)
    requires NoStray(x)
    ensures CheckAlignment(x) <==> FourInLine(x)
  {
    CheckAlignmentIffFourSpaced(x);
    if FourSpaced(x) {
      SpacedToLine(x);
    }
    if FourInLine(x) {
      LineToSpaced(x);
    }
  }

  // ---------------------------------------------------------------------------
  // Words and their bits
  // ---------------------------------------------------------------------------

  /** A word none of whose 64 bits is set is zero. */
  lemma ZeroIfNoBit(q: uint64)
    requires forall p: uint8 :: p < 64 ==> !Bit(q, p)
    ensures q == 0
  {
    assert !Bit(q, 0) && !Bit(q, 1) && !Bit(q, 2) && !Bit(q, 3) && !Bit(q, 4) && !Bit(q, 5) && !Bit(q, 6) && !Bit(q, 7);
    assert !Bit(q, 8) && !Bit(q, 9) && !Bit(q, 10) && !Bit(q, 11) && !Bit(q, 12) && !Bit(q, 13) && !Bit(q, 14) && !Bit(q, 15);
    assert !Bit(q, 16) && !Bit(q, 17) && !Bit(q, 18) && !Bit(q, 19) && !Bit(q, 20) && !Bit(q, 21) && !Bit(q, 22) && !Bit(q, 23);
    assert !Bit(q, 24) && !Bit(q, 25) && !Bit(q, 26) && !Bit(q, 27) && !Bit(q, 28) && !Bit(q, 29) && !Bit(q, 30) && !Bit(q, 31);
    assert !Bit(q, 32) && !Bit(q, 33) && !Bit(q, 34) && !Bit(q, 35) && !Bit(q, 36) && !Bit(q, 37) && !Bit(q, 38) && !Bit(q, 39);
    assert !Bit(q, 40) && !Bit(q, 41) && !Bit(q, 42) && !Bit(q, 43) && !Bit(q, 44) && !Bit(q, 45) && !Bit(q, 46) && !Bit(q, 47);
    assert !Bit(q, 48) && !Bit(q, 49) && !Bit(q, 50) && !Bit(q, 51) && !Bit(q, 52) && !Bit(q, 53) && !Bit(q, 54) && !Bit(q, 55);
    assert !Bit(q, 56) && !Bit(q, 57) && !Bit(q, 58) && !Bit(q, 59) && !Bit(q, 60) && !Bit(q, 61) && !Bit(q, 62) && !Bit(q, 63);
  }

  /** A nonzero word has a set bit. */
  lemma SomeBit(q: uint64) returns (p: uint8)
    requires q != 0
    ensures p < 64 && Bit(q, p)
  {
    if forall i: uint8 :: i < 64 ==> !Bit(q, i) {
      ZeroIfNoBit(q);
      assert false;
    }
    p :| p < 64 && Bit(q, p);
  }

  lemma BitNonzero(q: uint64, p: uint8)
    requires p < 64 && Bit(q, p)
    ensures q != 0
  {
  }

  // ---------------------------------------------------------------------------
  // CheckAlignment's shift tests and spaced bits, one spacing at a time
  // ---------------------------------------------------------------------------

  lemma SpacedOne(x: uint64, p: uint8)
    requires p < 64
    ensures Spaced(x, p, 1) <==> p < 61 && Bit(x, p) && Bit(x, p + 1) && Bit(x, p + 2) && Bit(x, p + 3)
  {
  }

  /** Below bit 61, bit p of the shift test for 1 is set iff bits p, p+1, p+2, p+3 of `x` are. */
  lemma TestOneBit(x: uint64, p: uint8)
    requires p < 61
    ensures Bit(x & (x >> 1) & (x >> 2) & (x >> 3), p) <==> (Bit(x, p) && Bit(x, p + 1) && Bit(x, p + 2) && Bit(x, p + 3))
  {
  }

  /** The shift test for 1 has nothing at or above bit 61. */
  lemma TestOneHigh(x: uint64, p: uint8)
    requires 61 <= p < 64
    ensures !Bit(x & (x >> 1) & (x >> 2) & (x >> 3), p)
  {
  }

  lemma TestOneToSpaced(x: uint64)
    requires x & (x >> 1) & (x >> 2) & (x >> 3) != 0
    ensures FourSpaced(x)
  {
    var p := SomeBit(x & (x >> 1) & (x >> 2) & (x >> 3));
    if p >= 61 {
      TestOneHigh(x, p);
      assert false;
    }
    TestOneBit(x, p);
    SpacedOne(x, p);
    assert p < 64 && Spaced(x, p, 1);
  }

  lemma SpacedToTestOne(x: uint64, p: uint8)
    requires p < 64 && Spaced(x, p, 1)
    ensures x & (x >> 1) & (x >> 2) & (x >> 3) != 0
  {
    SpacedOne(x, p);
    TestOneBit(x, p);
    BitNonzero(x & (x >> 1) & (x >> 2) & (x >> 3), p);
  }

  lemma SpacedSix(x: uint64, p: uint8)
    requires p < 64
    ensures Spaced(x, p, 6) <==> p < 46 && Bit(x, p) && Bit(x, p + 6) && Bit(x, p + 12) && Bit(x, p + 18)
  {
  }

  /** Below bit 46, bit p of the shift test for 6 is set iff bits p, p+6, p+12, p+18 of `x` are. */
  lemma TestSixBit(x: uint64, p: uint8)
    requires p < 46
    ensures Bit(x & (x >> 6) & (x >> 12) & (x >> 18), p) <==> (Bit(x, p) && Bit(x, p + 6) && Bit(x, p + 12) && Bit(x, p + 18))
  {
  }

  /** The shift test for 6 has nothing at or above bit 46. */
  lemma TestSixHigh(x: uint64, p: uint8)
    requires 46 <= p < 64
    ensures !Bit(x & (x >> 6) & (x >> 12) & (x >> 18), p)
  {
  }

  lemma TestSixToSpaced(x: uint64)
    requires x & (x >> 6) & (x >> 12) & (x >> 18) != 0
    ensures FourSpaced(x)
  {
    var p := SomeBit(x & (x >> 6) & (x >> 12) & (x >> 18));
    if p >= 46 {
      TestSixHigh(x, p);
      assert false;
    }
    TestSixBit(x, p);
    SpacedSix(x, p);
    assert p < 64 && Spaced(x, p, 6);
  }

  lemma SpacedToTestSix(x: uint64, p: uint8)
    requires p < 64 && Spaced(x, p, 6)
    ensures x & (x >> 6) & (x >> 12) & (x >> 18) != 0
  {
    SpacedSix(x, p);
    TestSixBit(x, p);
    BitNonzero(x & (x >> 6) & (x >> 12) & (x >> 18), p);
  }

  lemma SpacedSeven(x: uint64, p: uint8)
    requires p < 64
    ensures Spaced(x, p, 7) <==> p < 43 && Bit(x, p) && Bit(x, p + 7) && Bit(x, p + 14) && Bit(x, p + 21)
  {
  }

  /** Below bit 43, bit p of the shift test for 7 is set iff bits p, p+7, p+14, p+21 of `x` are. */
  lemma TestSevenBit(x: uint64, p: uint8)
    requires p < 43
    ensures Bit(x & (x >> 7) & (x >> 14) & (x >> 21), p) <==> (Bit(x, p) && Bit(x, p + 7) && Bit(x, p + 14) && Bit(x, p + 21))
  {
  }

  /** The shift test for 7 has nothing at or above bit 43. */
  lemma TestSevenHigh(x: uint64, p: uint8)
    requires 43 <= p < 64
    ensures !Bit(x & (x >> 7) & (x >> 14) & (x >> 21), p)
  {
  }

  lemma TestSevenToSpaced(x: uint64)
    requires x & (x >> 7) & (x >> 14) & (x >> 21) != 0
    ensures FourSpaced(x)
  {
    var p := SomeBit(x & (x >> 7) & (x >> 14) & (x >> 21));
    if p >= 43 {
      TestSevenHigh(x, p);
      assert false;
    }
    TestSevenBit(x, p);
    SpacedSeven(x, p);
    assert p < 64 && Spaced(x, p, 7);
  }

  lemma SpacedToTestSeven(x: uint64, p: uint8)
    requires p < 64 && Spaced(x, p, 7)
    ensures x & (x >> 7) & (x >> 14) & (x >> 21) != 0
  {
    SpacedSeven(x, p);
    TestSevenBit(x, p);
    BitNonzero(x & (x >> 7) & (x >> 14) & (x >> 21), p);
  }

  lemma SpacedEight(x: uint64, p: uint8)
    requires p < 64
    ensures Spaced(x, p, 8) <==> p < 40 && Bit(x, p) && Bit(x, p + 8) && Bit(x, p + 16) && Bit(x, p + 24)
  {
  }

  /** Below bit 40, bit p of the shift test for 8 is set iff bits p, p+8, p+16, p+24 of `x` are. */
  lemma TestEightBit(x: uint64, p: uint8)
    requires p < 40
    ensures Bit(x & (x >> 8) & (x >> 16) & (x >> 24), p) <==> (Bit(x, p) && Bit(x, p + 8) && Bit(x, p + 16) && Bit(x, p + 24))
  {
  }

  /** The shift test for 8 has nothing at or above bit 40. */
  lemma TestEightHigh(x: uint64, p: uint8)
    requires 40 <= p < 64
    ensures !Bit(x & (x >> 8) & (x >> 16) & (x >> 24), p)
  {
  }

  lemma TestEightToSpaced(x: uint64)
    requires x & (x >> 8) & (x >> 16) & (x >> 24) != 0
    ensures FourSpaced(x)
  {
    var p := SomeBit(x & (x >> 8) & (x >> 16) & (x >> 24));
    if p >= 40 {
      TestEightHigh(x, p);
      assert false;
    }
    TestEightBit(x, p);
    SpacedEight(x, p);
    assert p < 64 && Spaced(x, p, 8);
  }

  lemma SpacedToTestEight(x: uint64, p: uint8)
    requires p < 64 && Spaced(x, p, 8)
    ensures x & (x >> 8) & (x >> 16) & (x >> 24) != 0
  {
    SpacedEight(x, p);
    TestEightBit(x, p);
    BitNonzero(x & (x >> 8) & (x >> 16) & (x >> 24), p);
  }

  lemma AlignedToSpaced(x: uint64)
    requires CheckAlignment(x)
    ensures FourSpaced(x)
  {
    if x & (x >> 6) & (x >> 12) & (x >> 18) != 0 {
      TestSixToSpaced(x);
    } else if x & (x >> 8) & (x >> 16) & (x >> 24) != 0 {
      TestEightToSpaced(x);
    } else if x & (x >> 7) & (x >> 14) & (x >> 21) != 0 {
      TestSevenToSpaced(x);
    } else {
      TestOneToSpaced(x);
    }
  }

  lemma SpacedToAligned(x: uint64)
    requires FourSpaced(x)
    ensures CheckAlignment(x)
  {
    var p: uint8, d: uint8 :| p < 64 && (d == 1 || d == 6 || d == 7 || d == 8) && Spaced(x, p, d);
    SpacedAlongTest(x, p, d);
  }

  lemma SpacedAlongTest(x: uint64, p: uint8, d: uint8)
    requires p < 64 && (d == 1 || d == 6 || d == 7 || d == 8) && Spaced(x, p, d)
    ensures CheckAlignment(x)
  {
    if d == 1 {
      SpacedToTestOne(x, p);
    } else if d == 6 {
      SpacedToTestSix(x, p);
    } else if d == 7 {
      SpacedToTestSeven(x, p);
    } else {
      SpacedToTestEight(x, p);
    }
  }

  // ---------------------------------------------------------------------------
  // Spaced bits and lines on the grid
  // ---------------------------------------------------------------------------

  /** A set bit of a board with no stray bits is a cell: below bit 49 and not a sentinel. */
  lemma InGrid(x: uint64, p: uint8)
    requires NoStray(x) && p < 64 && Bit(x, p)
    ensures p < 49 && p % 7 != 6
  {
  }

  /** Bit p below 49 is the bit of cell (p / 7, p % 7). */
  lemma CellOf(p: uint8) returns (c: uint8, r: uint8)
    requires p < 49
    ensures c < 7 && r < 7 && CellIndex(c, r) == p
  {
    c, r := p / 7, p % 7;
  }

  lemma VerticalAt(x: uint64, p: uint8, c: uint8, r: uint8)
    requires NoStray(x) && c < 7 && r < 7 && p == CellIndex(c, r)
    requires p < 61 && Bit(x, p) && Bit(x, p + 1) && Bit(x, p + 2) && Bit(x, p + 3)
    ensures r < 3 && VerticalFour(x, c, r)
  {
  }

  lemma HorizontalAt(x: uint64, p: uint8, c: uint8, r: uint8)
    requires NoStray(x) && c < 7 && r < 7 && p == CellIndex(c, r)
    requires p < 43 && Bit(x, p) && Bit(x, p + 7) && Bit(x, p + 14) && Bit(x, p + 21)
    ensures c < 4 && r < 6 && HorizontalFour(x, c, r)
  {
  }

  lemma RisingAt(x: uint64, p: uint8, c: uint8, r: uint8)
    requires NoStray(x) && c < 7 && r < 7 && p == CellIndex(c, r)
    requires p < 40 && Bit(x, p) && Bit(x, p + 8) && Bit(x, p + 16) && Bit(x, p + 24)
    ensures c < 4 && r < 3 && RisingFour(x, c, r)
  {
  }

  lemma FallingAt(x: uint64, p: uint8, c: uint8, r: uint8)
    requires NoStray(x) && c < 7 && r < 7 && p == CellIndex(c, r)
    requires p < 46 && Bit(x, p) && Bit(x, p + 6) && Bit(x, p + 12) && Bit(x, p + 18)
    ensures c < 4 && 3 <= r < 6 && FallingFour(x, c, r)
  {
  }

  lemma SpacedOneToLine(x: uint64, p: uint8)
    requires NoStray(x) && p < 64 && Spaced(x, p, 1)
    ensures FourInLine(x)
  {
    SpacedOne(x, p);
    InGrid(x, p);
    var c, r := CellOf(p);
    VerticalAt(x, p, c, r);
    assert c < 7 && r < 3 && VerticalFour(x, c, r);
  }

  lemma SpacedSevenToLine(x: uint64, p: uint8)
    requires NoStray(x) && p < 64 && Spaced(x, p, 7)
    ensures FourInLine(x)
  {
    SpacedSeven(x, p);
    InGrid(x, p);
    var c, r := CellOf(p);
    HorizontalAt(x, p, c, r);
    assert c < 4 && r < 6 && HorizontalFour(x, c, r);
  }

  lemma SpacedEightToLine(x: uint64, p: uint8)
    requires NoStray(x) && p < 64 && Spaced(x, p, 8)
    ensures FourInLine(x)
  {
    SpacedEight(x, p);
    InGrid(x, p);
    var c, r := CellOf(p);
    RisingAt(x, p, c, r);
    assert c < 4 && r < 3 && RisingFour(x, c, r);
  }

  lemma SpacedSixToLine(x: uint64, p: uint8)
    requires NoStray(x) && p < 64 && Spaced(x, p, 6)
    ensures FourInLine(x)
  {
    SpacedSix(x, p);
    InGrid(x, p);
    var c, r := CellOf(p);
    FallingAt(x, p, c, r);
    assert c < 4 && 3 <= r < 6 && FallingFour(x, c, r);
  }

  lemma SpacedToLine(x: uint64)
    requires NoStray(x) && FourSpaced(x)
    ensures FourInLine(x)
  {
    var p: uint8, d: uint8 :| p < 64 && (d == 1 || d == 6 || d == 7 || d == 8) && Spaced(x, p, d);
    SpacedInDirection(x, p, d);
  }

  lemma SpacedInDirection(x: uint64, p: uint8, d: uint8)
    requires NoStray(x) && p < 64 && (d == 1 || d == 6 || d == 7 || d == 8) && Spaced(x, p, d)
    ensures FourInLine(x)
  {
    if d == 1 {
      SpacedOneToLine(x, p);
    } else if d == 7 {
      SpacedSevenToLine(x, p);
    } else if d == 8 {
      SpacedEightToLine(x, p);
    } else {
      SpacedSixToLine(x, p);
    }
  }

  lemma VerticalSpaced(x: uint64, c: uint8, r: uint8)
    requires c < 7 && r < 3 && VerticalFour(x, c, r)
    ensures FourSpaced(x)
  {
    assert Spaced(x, CellIndex(c, r), 1);
  }

  lemma HorizontalSpaced(x: uint64, c: uint8, r: uint8)
    requires c < 4 && r < 6 && HorizontalFour(x, c, r)
    ensures FourSpaced(x)
  {
    assert Spaced(x, CellIndex(c, r), 7);
  }

  lemma RisingSpaced(x: uint64, c: uint8, r: uint8)
    requires c < 4 && r < 3 && RisingFour(x, c, r)
    ensures FourSpaced(x)
  {
    assert Spaced(x, CellIndex(c, r), 8);
  }

  lemma FallingSpaced(x: uint64, c: uint8, r: uint8)
    requires c < 4 && 3 <= r < 6 && FallingFour(x, c, r)
    ensures FourSpaced(x)
  {
    assert Spaced(x, CellIndex(c, r), 6);
  }

  lemma LineToSpaced(x: uint64)
    requires FourInLine(x)
    ensures FourSpaced(x)
  {
    var c: uint8, r: uint8 :|
      || (c < 7 && r < 3 && VerticalFour(x, c, r))
      || (c < 4 && r < 6 && HorizontalFour(x, c, r))
      || (c < 4 && r < 3 && RisingFour(x, c, r))
      || (c < 4 && 3 <= r < 6 && FallingFour(x, c, r));
    if c < 7 && r < 3 && VerticalFour(x, c, r) {
      VerticalSpaced(x, c, r);
    } else if c < 4 && r < 6 && HorizontalFour(x, c, r) {
      HorizontalSpaced(x, c, r);
    } else if c < 4 && r < 3 && RisingFour(x, c, r) {
      RisingSpaced(x, c, r);
    } else {
      FallingSpaced(x, c, r);
    }
  }
}
