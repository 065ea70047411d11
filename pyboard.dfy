/**
 * The Python port of the bitboard engine, player/player_py/board.py.
 *
 * The formulas are those of voda/board/board.go, but Python's integers are
 * unbounded: nothing is truncated to 64 bits and a shift never drops bits.
 * Stones are naturals here (the engine never builds a negative board), and so
 * are column numbers (a negative shift count raises in Python).
 */
module PyBoard {
  import opened GoInt
  import opened NatBits
  import opened UintNat
  import Board
  import Alignment

  // ---------------------------------------------------------------------------
  // The engine, as written in Python
  // ---------------------------------------------------------------------------

  /** The same top-row constant as the Go engine: bits 5, 12, 19, 26, 33, 40 and 47. */
  const TopRowMask: nat := 141845657554976

  function CanMove(blackStones: nat, whiteStones: nat, col: nat): bool {
    var board := Or(blackStones, whiteStones);
    var topMask := LeftShift(1, col * 7 + 5);
    And(board, topMask) == 0
  }

  function MakeMove(stones: nat, oppStones: nat, col: nat): nat {
    var board := Or(stones, oppStones);
    var colMask := LeftShift(63, col * 7);
    Xor(stones, LeftShift(RightShift(And(board, colMask), col * 7) + 1, col * 7))
  }

  function RemoveStone(stones: nat, oppStones: nat, col: nat): nat {
    var board := Or(stones, oppStones);
    var colMask := LeftShift(63, col * 7);
    Xor(stones, RightShift(LeftShift(And(board, colMask) + 1, col * 7), 1))
  }

  method GenValidMoves(blackStones: nat, whiteStones: nat) returns (moves: seq<nat>)
    ensures moves == ValidColumns(blackStones, whiteStones, 7)
  {
    var board := Or(blackStones, whiteStones);
    var topStones := And(board, TopRowMask);
    moves := [];
    for i := 0 to 7
      invariant moves == ValidColumns(blackStones, whiteStones, i)
    {
      TopRowTest(blackStones, whiteStones, i);
      if And(topStones, LeftShift(1, i * 7 + 5)) == 0 {
        moves := moves + [i];
      }
    }
  }

  function CheckAlignment(stones: nat): bool {
    if And(And(And(stones, RightShift(stones, 6)), RightShift(stones, 12)), RightShift(stones, 18)) != 0 then true
    else if And(And(And(stones, RightShift(stones, 8)), RightShift(stones, 16)), RightShift(stones, 24)) != 0 then true
    else if And(And(And(stones, RightShift(stones, 7)), RightShift(stones, 14)), RightShift(stones, 21)) != 0 then true
    else if And(And(And(stones, RightShift(stones, 1)), RightShift(stones, 2)), RightShift(stones, 3)) != 0 then true
    else false
  }

  // ---------------------------------------------------------------------------
  // Specifications
  // ---------------------------------------------------------------------------

  /** The columns among 0..n-1 where CanMove holds, ascending. */
  function ValidColumns(blackStones: nat, whiteStones: nat, n: nat): seq<nat>
    requires n <= 7
  {
    if n == 0 then []
    else ValidColumns(blackStones, whiteStones, n - 1)
         + (if CanMove(blackStones, whiteStones, n - 1) then [n - 1] else [])
  }

  /** Bits p, p+d, p+2d and p+3d of `a` are all set. */
  predicate SpacedBits(a: nat, p: nat, d: nat) {
    NBit(a, p) && NBit(a, p + d) && NBit(a, p + 2 * d) && NBit(a, p + 3 * d)
  }

  /** Some four set bits of `a` are evenly spaced by 1, 6, 7 or 8. */
  ghost predicate FourSpacedBits(a: nat) {
    exists p: nat, d: nat :: (d == 1 || d == 6 || d == 7 || d == 8) && SpacedBits(a, p, d)
  }

  /** A Go word's bit list widened to Python integers. */
  function Widen(xs: seq<uint8>): (ys: seq<nat>)
    ensures |ys| == |xs| && forall i :: 0 <= i < |xs| ==> ys[i] == xs[i] as nat
  {
    if xs == [] then [] else [xs[0] as nat] + Widen(xs[1..])
  }

  // ---------------------------------------------------------------------------
  // Lemmas on unbounded integers
  // ---------------------------------------------------------------------------

  /** can_move tests exactly bit col*7+5 of the combined board, for every column number. */
  lemma CanMoveIffTopFree(blackStones: nat, whiteStones: nat, col: nat)
    ensures CanMove(blackStones, whiteStones, col) <==> !NBit(Or(blackStones, whiteStones), col * 7 + 5)
  {
    AndPow2(Or(blackStones, whiteStones), col * 7 + 5);
  }

  /** Past the grid every column looks playable on a board below 2^49, since bit col*7+5 is 54 or more. */
  lemma CanMoveBeyondGrid(blackStones: nat, whiteStones: nat, col: nat)
    requires blackStones < Pow2(49) && whiteStones < Pow2(49) && 7 <= col
    ensures CanMove(blackStones, whiteStones, col)
  {
    CanMoveIffTopFree(blackStones, whiteStones, col);
    NBitOr(blackStones, whiteStones, col * 7 + 5);
    HighBitsClear(blackStones, 49, col * 7 + 5);
    HighBitsClear(whiteStones, 49, col * 7 + 5);
  }

  lemma TopRowMaskBits()
    ensures NBit(TopRowMask, 5) && NBit(TopRowMask, 12) && NBit(TopRowMask, 19) && NBit(TopRowMask, 26)
    ensures NBit(TopRowMask, 33) && NBit(TopRowMask, 40) && NBit(TopRowMask, 47)
  {
    var a1 := RightShift(TopRowMask, 12);
    assert a1 == 34630287489;
    var a2 := RightShift(a1, 12);
    assert a2 == 8454660;
    var a3 := RightShift(a2, 12);
    assert a3 == 2064;
    assert NBit(a1, 0);
    assert NBit(a1, 7);
    assert NBit(a2, 2);
    assert NBit(a2, 9);
    assert NBit(a3, 4);
    assert NBit(a3, 11);
    NBitRightShift(TopRowMask, 12, 0);
    NBitRightShift(TopRowMask, 12, 7);
    NBitRightShift(a1, 12, 2);
    NBitRightShift(a1, 12, 9);
    NBitRightShift(TopRowMask, 12, 14);
    NBitRightShift(TopRowMask, 12, 21);
    NBitRightShift(a2, 12, 4);
    NBitRightShift(a2, 12, 11);
    NBitRightShift(a1, 12, 16);
    NBitRightShift(a1, 12, 23);
    NBitRightShift(TopRowMask, 12, 28);
    NBitRightShift(TopRowMask, 12, 35);
  }

  /** The mask test of gen_valid_moves agrees with can_move. */
  lemma TopRowTest(blackStones: nat, whiteStones: nat, i: nat)
    requires i < 7
    ensures (And(And(Or(blackStones, whiteStones), TopRowMask), LeftShift(1, i * 7 + 5)) == 0)
            == CanMove(blackStones, whiteStones, i)
  {
    var board := Or(blackStones, whiteStones);
    TopRowMaskBits();
    assert NBit(TopRowMask, i * 7 + 5) by {
      if i == 0 {
      } else if i == 1 {
      } else if i == 2 {
      } else if i == 3 {
      } else if i == 4 {
      } else if i == 5 {
      } else {
      }
    }
    AndPow2(And(board, TopRowMask), i * 7 + 5);
    NBitAnd(board, TopRowMask, i * 7 + 5);
    CanMoveIffTopFree(blackStones, whiteStones, i);
  }

  /**
   * gen_valid_moves lists a column iff can_move accepts it. The induction is
   * the one Board.ValidColumnsMembers makes, but over Python's unbounded
   * boards and every column number: ValidColumnsAgree only relates the two
   * engines on 64-bit boards, so the Go lemma cannot be reused here.
   */
  lemma {:induction false} ValidColumnsMembers(blackStones: nat, whiteStones: nat, n: nat, c: nat)
    requires n <= 7
    ensures c in ValidColumns(blackStones, whiteStones, n) <==> c < n && CanMove(blackStones, whiteStones, c)
  {
    if n > 0 {
      ValidColumnsMembers(blackStones, whiteStones, n - 1, c);
    }
  }

  /** The listed columns are below the bound and strictly ascending, on unbounded boards as well. */
  lemma {:induction false} ValidColumnsAscending(blackStones: nat, whiteStones: nat, n: nat)
    requires n <= 7
    ensures forall i :: 0 <= i < |ValidColumns(blackStones, whiteStones, n)| ==> ValidColumns(blackStones, whiteStones, n)[i] < n
    ensures forall i, j :: 0 <= i < j < |ValidColumns(blackStones, whiteStones, n)|
              ==> ValidColumns(blackStones, whiteStones, n)[i] < ValidColumns(blackStones, whiteStones, n)[j]
  {
    if n > 0 {
      ValidColumnsAscending(blackStones, whiteStones, n - 1);
    }
  }

  /** make_move never touches a bit below the column it drops into. */
  lemma MakeMoveKeepsLowBits(stones: nat, oppStones: nat, col: nat, j: nat)
    requires j < col * 7
    ensures NBit(MakeMove(stones, oppStones, col), j) == NBit(stones, j)
  {
    var k := col * 7;
    var v := RightShift(And(Or(stones, oppStones), LeftShift(63, k)), k);
    var w := LeftShift(v + 1, k);
    assert MakeMove(stones, oppStones, col) == Xor(stones, w);
    NBitLeftShift(v + 1, k, j);
    assert !NBit(w, j);
    NBitXor(stones, w, j);
  }

  /**
   * remove_stone does not undo make_move in any column but 0: the +1 lands on
   * bit 0 of the unshifted column, and after the shifts it toggles bit
   * col*7-1, the sentinel of the column to the left. This holds for every
   * pair of boards, well-formed or not.
   */
  lemma RemoveStoneTogglesLeftSentinel(stones: nat, oppStones: nat, col: nat)
    requires 1 <= col
    ensures NBit(RemoveStone(MakeMove(stones, oppStones, col), oppStones, col), col * 7 - 1) != NBit(stones, col * 7 - 1)
    ensures RemoveStone(MakeMove(stones, oppStones, col), oppStones, col) != stones
  {
    var m := MakeMove(stones, oppStones, col);
    RemoveStoneToggles(m, oppStones, col);
    MakeMoveKeepsLowBits(stones, oppStones, col, col * 7 - 1);
  }

  /** remove_stone toggles bit col*7-1 of any board, from column 1 on. */
  lemma RemoveStoneToggles(stones: nat, oppStones: nat, col: nat)
    requires 1 <= col
    ensures NBit(RemoveStone(stones, oppStones, col), col * 7 - 1) != NBit(stones, col * 7 - 1)
  {
    var k := col * 7;
    var a := And(Or(stones, oppStones), LeftShift(63, k));
    NBitAnd(Or(stones, oppStones), LeftShift(63, k), 0);
    NBitLeftShift(63, k, 0);
    assert a % 2 == 0;
    assert NBit(a + 1, 0);
    NBitLeftShift(a + 1, k, k);
    NBitRightShift(LeftShift(a + 1, k), 1, k - 1);
    NBitXor(stones, RightShift(LeftShift(a + 1, k), 1), k - 1);
  }

  lemma TestIffSpaced(a: nat, d: nat)
    ensures (And(And(And(a, RightShift(a, d)), RightShift(a, 2 * d)), RightShift(a, 3 * d)) != 0)
            <==> exists p: nat :: SpacedBits(a, p, d)
  {
    var t := And(And(And(a, RightShift(a, d)), RightShift(a, 2 * d)), RightShift(a, 3 * d));
    if t != 0 {
      var p := SomeNBit(t);
      TestBit(a, d, p);
      assert SpacedBits(a, p, d);
    }
    if p: nat :| SpacedBits(a, p, d) {
      TestBit(a, d, p);
      NBitNonzero(t, p);
    }
  }

  lemma TestBit(a: nat, d: nat, p: nat)
    ensures NBit(And(And(And(a, RightShift(a, d)), RightShift(a, 2 * d)), RightShift(a, 3 * d)), p) == SpacedBits(a, p, d)
  {
    NBitAnd(And(And(a, RightShift(a, d)), RightShift(a, 2 * d)), RightShift(a, 3 * d), p);
    NBitAnd(And(a, RightShift(a, d)), RightShift(a, 2 * d), p);
    NBitAnd(a, RightShift(a, d), p);
    NBitRightShift(a, d, p);
    NBitRightShift(a, 2 * d, p);
    NBitRightShift(a, 3 * d, p);
  }

  /** check_alignment holds iff four set bits are evenly spaced by 1, 6, 7 or 8, on every natural. */
  lemma CheckAlignmentIffFourSpaced(stones: nat)
    ensures CheckAlignment(stones) <==> FourSpacedBits(stones)
  {
    TestIffSpaced(stones, 6);
    TestIffSpaced(stones, 8);
    TestIffSpaced(stones, 7);
    TestIffSpaced(stones, 1);
    if FourSpacedBits(stones) {
      var p: nat, d: nat :| (d == 1 || d == 6 || d == 7 || d == 8) && SpacedBits(stones, p, d);
    }
  }

  // ---------------------------------------------------------------------------
  // Agreement with the Go engine on 64-bit boards
  // ---------------------------------------------------------------------------

  /** A Go column number below 7 gives the same shift count in both languages. */
  lemma ColumnOffset(c: uint8)
    requires c < 7
    ensures c * 7 <= 42 && (c * 7) % 7 == 0 && ShiftCount(c * 7)
    ensures (c * 7) as nat == c as nat * 7 && (c * 7 + 5) as nat == c as nat * 7 + 5
  {
  }

  /** A word is zero iff its value is. */
  lemma ToNatZero(y: uint64)
    ensures ToNat(y) == 0 <==> y == 0
  {
    ToNatConstants();
    if y != 0 {
      var p := Alignment.SomeBit(y);
      ToNatBit(y, p);
      NBitNonzero(ToNat(y), p as nat);
    }
  }

  lemma CanMoveOnWords(blackStones: uint64, whiteStones: uint64, c: uint8)
    requires c < 7
    ensures CanMove(ToNat(blackStones), ToNat(whiteStones), c as nat) == !NBit(ToNat(blackStones | whiteStones), c as nat * 7 + 5)
  {
    ToNatOr(blackStones, whiteStones);
    CanMoveIffTopFree(ToNat(blackStones), ToNat(whiteStones), c as nat);
  }

  lemma TopBitOnWord(x: uint64, c: uint8)
    requires c < 7
    ensures NBit(ToNat(x), c as nat * 7 + 5) == Bit(x, c * 7 + 5)
  {
    ColumnOffset(c);
    ToNatBit(x, c * 7 + 5);
  }

  /** For the seven columns, can_move and Go's CanMove give the same answer on every pair of 64-bit boards. */
  lemma CanMoveAgrees(blackStones: uint64, whiteStones: uint64, c: uint8)
    requires c < 7
    ensures CanMove(ToNat(blackStones), ToNat(whiteStones), c as nat) == Board.CanMove(blackStones, whiteStones, c)
  {
    CanMoveOnWords(blackStones, whiteStones, c);
    TopBitOnWord(blackStones | whiteStones, c);
    Board.CanMoveIffBit(blackStones, whiteStones, c);
  }

  /** The six cell bits of the column at offset k. */
  lemma ColumnBit(b: nat, k: nat, j: nat)
    ensures NBit(And(b, LeftShift(63, k)), j) == (k <= j < k + 6 && NBit(b, j))
  {
    NBitAnd(b, LeftShift(63, k), j);
    NBitLeftShift(63, k, j);
    if k <= j {
      assert Pow2(6) - 1 == 63;
      LowOnes(6, j - k);
    }
  }

  /** The masked column lies below bit k + 6. */
  lemma ColumnBelow(b: nat, k: nat)
    ensures And(b, LeftShift(63, k)) < Pow2(k + 6)
  {
    forall j: nat | k + 6 <= j
      ensures !NBit(And(b, LeftShift(63, k)), j)
    {
      ColumnBit(b, k, j);
    }
    BitsBelow(And(b, LeftShift(63, k)), k + 6);
  }

  /** The masked column shifted down to bit 0 is at most 63. */
  lemma ColumnValueBelow(b: nat, k: nat)
    ensures RightShift(And(b, LeftShift(63, k)), k) < 64
  {
    var v := RightShift(And(b, LeftShift(63, k)), k);
    forall j: nat | 6 <= j
      ensures !NBit(v, j)
    {
      NBitRightShift(And(b, LeftShift(63, k)), k, j);
      ColumnBit(b, k, j + k);
    }
    BitsBelow(v, 6);
    assert Pow2(6) == 64;
  }

  lemma ColMaskAgrees(c: uint8, k: uint8)
    requires c < 7 && k == c * 7
    ensures ToNat(63 << k) == LeftShift(63, c as nat * 7)
  {
    ColumnOffset(c);
    ToNatConstants();
    Pow2Mono(6, 64 - k as nat);
    assert Pow2(6) == 64;
    ToNatShl(63, k);
  }

  /** The masked column has the same value in both languages. */
  lemma ColumnAgrees(board: uint64, c: uint8, k: uint8)
    requires c < 7 && k == c * 7
    ensures ToNat(board & (63 << k)) == And(ToNat(board), LeftShift(63, c as nat * 7))
  {
    ColMaskAgrees(c, k);
    ToNatAnd(board, 63 << k);
  }

  /** The column of the combined board, shifted down, has the same value in both languages. */
  lemma ColumnValueAgrees(board: uint64, c: uint8, k: uint8)
    requires c < 7 && k == c * 7
    ensures ToNat((board & (63 << k)) >> k) == RightShift(And(ToNat(board), LeftShift(63, c as nat * 7)), c as nat * 7)
  {
    ColumnOffset(c);
    ColumnAgrees(board, c, k);
    ToNatShr(board & (63 << k), k);
  }

  /** Adding one to a column value cannot wrap around. */
  lemma ColumnValueInc(v: uint64)
    requires ToNat(v) < 64
    ensures ToNat(v + 1) == ToNat(v) + 1
  {
    Pow2Mono(6, 63);
    assert Pow2(6) == 64;
    ToNatInc(v);
  }

  /** Shifting a value of at most 64 up to a column inside the grid loses nothing. */
  lemma ColumnShiftAgrees(w: uint64, c: uint8, k: uint8)
    requires c < 7 && k == c * 7 && ToNat(w) <= 64
    ensures ToNat(w << k) == LeftShift(ToNat(w), c as nat * 7)
  {
    ColumnOffset(c);
    Pow2Mono(7, 64 - k as nat);
    assert Pow2(7) == 128;
    ToNatShl(w, k);
  }

  lemma MakeMoveOnWords(stones: uint64, oppStones: uint64, c: uint8, k: uint8, v: uint64)
    requires c < 7 && k == c * 7 && v == ((stones | oppStones) & (63 << k)) >> k
    ensures ToNat(v) == RightShift(And(Or(ToNat(stones), ToNat(oppStones)), LeftShift(63, c as nat * 7)), c as nat * 7)
    ensures ToNat(v) < 64
  {
    ToNatOr(stones, oppStones);
    ColumnValueAgrees(stones | oppStones, c, k);
    ColumnValueBelow(Or(ToNat(stones), ToNat(oppStones)), c as nat * 7);
  }

  /** The one-bit board Go's MakeMove toggles in a column at offset k inside the grid. */
  function GoDropBit(board: uint64, k: uint8): uint64
    requires k <= 42
  {
    (((board & (63 << k)) >> k) + 1) << k
  }

  lemma DropBitUnfold(board: uint64, k: uint8)
    requires k <= 42
    ensures GoDropBit(board, k) == (((board & (63 << k)) >> k) + 1) << k
  {
  }

  /** Inside the grid no shift count reaches 64, so Go's MakeMove toggles GoDropBit. */
  lemma MakeMoveInGrid(stones: uint64, oppStones: uint64, c: uint8, k: uint8)
    requires c < 7 && k == c * 7
    ensures Board.MakeMove(stones, oppStones, c) == stones ^ GoDropBit(stones | oppStones, k)
  {
    ColumnOffset(c);
    var board := stones | oppStones;
    GoShiftsInRange(63, k);
    GoShiftsInRange(board & (63 << k), k);
    GoShiftsInRange(((board & (63 << k)) >> k) + 1, k);
    DropBitUnfold(board, k);
  }

  lemma GoShiftsInRange(x: uint64, k: uint8)
    requires k < 64
    ensures Shl(x, k) == x << k && Shr(x, k) == x >> k
  {
  }

  /** The bit MakeMove toggles has the same value in both languages. */
  lemma DropMaskAgrees(stones: uint64, oppStones: uint64, c: uint8, k: uint8)
    requires c < 7 && k == c * 7
    ensures ToNat((((((stones | oppStones) & (63 << k)) >> k) + 1) << k))
            == LeftShift(RightShift(And(Or(ToNat(stones), ToNat(oppStones)), LeftShift(63, c as nat * 7)), c as nat * 7) + 1, c as nat * 7)
  {
    var v := ((stones | oppStones) & (63 << k)) >> k;
    MakeMoveOnWords(stones, oppStones, c, k, v);
    ColumnValueInc(v);
    ColumnShiftAgrees(v + 1, c, k);
  }

  lemma DropBitAgrees(stones: uint64, oppStones: uint64, c: uint8, k: uint8)
    requires c < 7 && k == c * 7
    ensures ToNat(GoDropBit(stones | oppStones, k))
            == LeftShift(RightShift(And(Or(ToNat(stones), ToNat(oppStones)), LeftShift(63, c as nat * 7)), c as nat * 7) + 1, c as nat * 7)
  {
    ColumnOffset(c);
    DropBitUnfold(stones | oppStones, k);
    DropMaskAgrees(stones, oppStones, c, k);
  }

  lemma XorDropBit(stones: uint64, oppStones: uint64, c: uint8, w: uint64)
    requires c < 7
    requires Board.MakeMove(stones, oppStones, c) == stones ^ w
    requires ToNat(w) == LeftShift(RightShift(And(Or(ToNat(stones), ToNat(oppStones)), LeftShift(63, c as nat * 7)), c as nat * 7) + 1, c as nat * 7)
    ensures MakeMove(ToNat(stones), ToNat(oppStones), c as nat) == ToNat(Board.MakeMove(stones, oppStones, c))
  {
    ToNatXor(stones, w);
  }

  /** For the seven columns, make_move and Go's MakeMove give the same board on every pair of 64-bit boards. */
  lemma MakeMoveAgrees(stones: uint64, oppStones: uint64, c: uint8)
    requires c < 7
    ensures MakeMove(ToNat(stones), ToNat(oppStones), c as nat) == ToNat(Board.MakeMove(stones, oppStones, c))
  {
    var k := c * 7;
    MakeMoveInGrid(stones, oppStones, c, k);
    DropBitAgrees(stones, oppStones, c, k);
    XorDropBit(stones, oppStones, c, GoDropBit(stones | oppStones, k));
  }

  /** The one-bit board Go's RemoveStone toggles in a column at offset k inside the grid. */
  function GoLiftBit(board: uint64, k: uint8): uint64
    requires k <= 42
  {
    (((board & (63 << k)) + 1) << k) >> (1 as uint8)
  }

  lemma LiftBitUnfold(board: uint64, k: uint8)
    requires k <= 42
    ensures GoLiftBit(board, k) == (((board & (63 << k)) + 1) << k) >> (1 as uint8)
  {
  }

  lemma RemoveStoneInGrid(stones: uint64, oppStones: uint64, c: uint8, k: uint8)
    requires c < 7 && k == c * 7
    ensures Board.RemoveStone(stones, oppStones, c) == stones ^ GoLiftBit(stones | oppStones, k)
  {
    ColumnOffset(c);
    var board := stones | oppStones;
    GoShiftsInRange(63, k);
    GoShiftsInRange((board & (63 << k)) + 1, k);
    GoShiftsInRange(((board & (63 << k)) + 1) << k, 1);
    LiftBitUnfold(board, k);
  }

  lemma ColumnOnWords(stones: uint64, oppStones: uint64, c: uint8, k: uint8, u: uint64)
    requires c < 7 && k == c * 7 && u == (stones | oppStones) & (63 << k)
    ensures ToNat(u) == And(Or(ToNat(stones), ToNat(oppStones)), LeftShift(63, c as nat * 7))
    ensures ToNat(u) < Pow2(c as nat * 7 + 6)
  {
    ToNatOr(stones, oppStones);
    ColumnAgrees(stones | oppStones, c, k);
    ColumnBelow(Or(ToNat(stones), ToNat(oppStones)), c as nat * 7);
  }

  lemma ColumnInc(u: uint64, n: nat)
    requires ToNat(u) < Pow2(n) && n <= 63
    ensures ToNat(u + 1) == ToNat(u) + 1 && ToNat(u + 1) <= Pow2(n)
  {
    Pow2Mono(n, 63);
    ToNatInc(u);
  }

  /** Shifting the unshifted column plus one up again stays inside the word only up to column 4. */
  lemma LiftShiftAgrees(w: uint64, c: uint8, k: uint8)
    requires c < 5 && k == c * 7 && ToNat(w) <= Pow2(c as nat * 7 + 6)
    ensures ToNat(w << k) == LeftShift(ToNat(w), c as nat * 7)
  {
    ColumnOffset(c);
    assert Pow2(c as nat * 7 + 7) == 2 * Pow2(c as nat * 7 + 6);
    Pow2Mono(c as nat * 7 + 7, 64 - k as nat);
    ToNatShl(w, k);
  }

  lemma LiftMaskAgrees(stones: uint64, oppStones: uint64, c: uint8, k: uint8)
    requires c < 5 && k == c * 7
    ensures ToNat((((((stones | oppStones) & (63 << k)) + 1) << k) >> (1 as uint8)))
            == RightShift(LeftShift(And(Or(ToNat(stones), ToNat(oppStones)), LeftShift(63, c as nat * 7)) + 1, c as nat * 7), 1)
  {
    ColumnOffset(c);
    var u := (stones | oppStones) & (63 << k);
    ColumnOnWords(stones, oppStones, c, k, u);
    ColumnInc(u, c as nat * 7 + 6);
    LiftShiftAgrees(u + 1, c, k);
    ToNatShr((u + 1) << k, 1);
  }

  lemma LiftBitAgrees(stones: uint64, oppStones: uint64, c: uint8, k: uint8)
    requires c < 5 && k == c * 7
    ensures ToNat(GoLiftBit(stones | oppStones, k))
            == RightShift(LeftShift(And(Or(ToNat(stones), ToNat(oppStones)), LeftShift(63, c as nat * 7)) + 1, c as nat * 7), 1)
  {
    ColumnOffset(c);
    LiftBitUnfold(stones | oppStones, k);
    LiftMaskAgrees(stones, oppStones, c, k);
  }

  lemma XorLiftBit(stones: uint64, oppStones: uint64, c: uint8, w: uint64)
    requires c < 7
    requires Board.RemoveStone(stones, oppStones, c) == stones ^ w
    requires ToNat(w) == RightShift(LeftShift(And(Or(ToNat(stones), ToNat(oppStones)), LeftShift(63, c as nat * 7)) + 1, c as nat * 7), 1)
    ensures RemoveStone(ToNat(stones), ToNat(oppStones), c as nat) == ToNat(Board.RemoveStone(stones, oppStones, c))
  {
    ToNatXor(stones, w);
  }

  /**
   * For columns 0 to 4, remove_stone and Go's RemoveStone give the same board
   * on every pair of 64-bit boards. Further right Go's shift can push bits
   * out of the word, which Python keeps (RemoveStoneDivergesInColumnFive).
   */
  lemma RemoveStoneAgrees(stones: uint64, oppStones: uint64, c: uint8)
    requires c < 5
    ensures RemoveStone(ToNat(stones), ToNat(oppStones), c as nat) == ToNat(Board.RemoveStone(stones, oppStones, c))
  {
    var k := c * 7;
    RemoveStoneInGrid(stones, oppStones, c, k);
    LiftBitAgrees(stones, oppStones, c, k);
    XorLiftBit(stones, oppStones, c, GoLiftBit(stones | oppStones, k));
  }

  // ---------------------------------------------------------------------------
  // What follows for Python from the Go engine's properties
  // ---------------------------------------------------------------------------

  lemma CanMoveInGo(stones: uint64, oppStones: uint64, c: uint8)
    requires c < 7 && CanMove(ToNat(stones), ToNat(oppStones), c as nat)
    ensures Board.CanMove(stones, oppStones, c)
  {
    CanMoveAgrees(stones, oppStones, c);
  }

  /**
   * On a well-formed pair with can_move true, make_move adds exactly the
   * lowest free cell of the column, at row h, the column's height.
   */
  lemma MakeMoveAddsLowestCell(stones: uint64, oppStones: uint64, c: uint8, h: uint8)
    requires Board.WellFormed(stones, oppStones) && c < 7 && CanMove(ToNat(stones), ToNat(oppStones), c as nat)
    requires h == Board.Height(stones | oppStones, c)
    ensures h < 6 && !Board.Cell(stones | oppStones, c, h)
    ensures MakeMove(ToNat(stones), ToNat(oppStones), c as nat) == ToNat(stones | Board.CellMask(c, h))
  {
    CanMoveInGo(stones, oppStones, c);
    Board.MakeMoveAddsLowestCell(stones, oppStones, c, h);
    MakeMoveAgrees(stones, oppStones, c);
  }

  lemma UndoInColumnZero(stones: uint64, oppStones: uint64, m: uint64)
    requires Board.WellFormed(stones, oppStones) && Board.CanMove(stones, oppStones, 0)
    requires m == Board.MakeMove(stones, oppStones, 0)
    ensures RemoveStone(ToNat(m), ToNat(oppStones), 0) == ToNat(stones)
  {
    RemoveStoneAgrees(m, oppStones, 0);
    Board.RemoveStoneUndoesMakeMoveInColumnZero(stones, oppStones);
  }

  /** In column 0, remove_stone takes back what make_move dropped on a well-formed pair. */
  lemma RemoveStoneUndoesMakeMoveInColumnZero(stones: uint64, oppStones: uint64)
    requires Board.WellFormed(stones, oppStones) && CanMove(ToNat(stones), ToNat(oppStones), 0)
    ensures RemoveStone(MakeMove(ToNat(stones), ToNat(oppStones), 0), ToNat(oppStones), 0) == ToNat(stones)
  {
    CanMoveInGo(stones, oppStones, 0);
    MakeMoveAgrees(stones, oppStones, 0);
    UndoInColumnZero(stones, oppStones, Board.MakeMove(stones, oppStones, 0));
  }

  /** For 64-bit boards, can_move holds in every column from 9 on: bit col*7+5 is past the word. */
  lemma CanMoveBeyondWord(blackStones: uint64, whiteStones: uint64, col: nat)
    requires 9 <= col
    ensures CanMove(ToNat(blackStones), ToNat(whiteStones), col)
  {
    CanMoveIffTopFree(ToNat(blackStones), ToNat(whiteStones), col);
    NBitOr(ToNat(blackStones), ToNat(whiteStones), col * 7 + 5);
    ToNatHigh(blackStones, col * 7 + 5);
    ToNatHigh(whiteStones, col * 7 + 5);
  }

  /**
   * Column 36 tells the two engines apart: Go computes 36*7+5 in uint8 and
   * tests bit 1 of column 0, Python tests bit 257.
   */
  lemma CanMoveDivergesAt36(blackStones: uint64, whiteStones: uint64)
    requires Board.Cell(blackStones | whiteStones, 0, 1)
    ensures CanMove(ToNat(blackStones), ToNat(whiteStones), 36)
    ensures !Board.CanMove(blackStones, whiteStones, 36)
  {
    CanMoveBeyondWord(blackStones, whiteStones, 36);
    Board.CanMoveWraps(blackStones, whiteStones);
  }

  /**
   * In columns 10 to 35 Go's shift count lies between 64 and 255, so MakeMove
   * returns its stones unchanged, while make_move sets bit col*7, past the
   * 64-bit word. From column 37 on the uint8 product col*7 wraps back below 64.
   */
  lemma MakeMoveDivergesBeyondGrid(stones: uint64, oppStones: uint64, c: uint8)
    requires 10 <= c <= 35
    ensures Board.MakeMove(stones, oppStones, c) == stones
    ensures NBit(MakeMove(ToNat(stones), ToNat(oppStones), c as nat), c as nat * 7)
    ensures MakeMove(ToNat(stones), ToNat(oppStones), c as nat) != ToNat(Board.MakeMove(stones, oppStones, c))
  {
    Board.MakeMoveFarBeyondGrid(stones, oppStones, c);
    var col := c as nat;
    assert 70 <= col * 7;
    var s, o := ToNat(stones), ToNat(oppStones);
    var a := And(Or(s, o), LeftShift(63, col * 7));
    var v := RightShift(a, col * 7);
    NBitRightShift(a, col * 7, 0);
    NBitAnd(Or(s, o), LeftShift(63, col * 7), col * 7);
    NBitOr(s, o, col * 7);
    ToNatHigh(stones, col * 7);
    ToNatHigh(oppStones, col * 7);
    assert v % 2 == 0;
    assert NBit(v + 1, 0);
    NBitLeftShift(v + 1, col * 7, col * 7);
    NBitXor(s, LeftShift(v + 1, col * 7), col * 7);
  }

  /** From one stone at the foot of a column col >= 1, remove_stone sets bit col*14-1. */
  lemma RemoveFromColumnFoot(col: nat)
    requires 1 <= col
    ensures NBit(RemoveStone(Pow2(col * 7), 0, col), col * 14 - 1)
  {
    var k := col * 7;
    var p := Pow2(k);
    var a := And(Or(p, 0), LeftShift(63, k));
    forall j: nat
      ensures NBit(a, j) == NBit(p, j)
    {
      ColumnBit(p, k, j);
      NBitPow2(k, j);
    }
    BitsEqual(a, p);
    NBitPow2Succ(k);
    NBitLeftShift(a + 1, k, 2 * k);
    NBitRightShift(LeftShift(a + 1, k), 1, 2 * k - 1);
    NBitXor(p, RightShift(LeftShift(a + 1, k), 1), 2 * k - 1);
    NBitPow2(k, 2 * k - 1);
  }

  /**
   * In column 5 Go's RemoveStone shifts bits out of the word and Python keeps
   * them: on a legal board with one stone at the foot of column 5, the two
   * disagree.
   */
  lemma RemoveStoneDivergesInColumnFive()
    ensures Board.WellFormed(0x8_0000_0000, 0)
    ensures NBit(RemoveStone(ToNat(0x8_0000_0000), ToNat(0), 5), 69)
    ensures RemoveStone(ToNat(0x8_0000_0000), ToNat(0), 5) != ToNat(Board.RemoveStone(0x8_0000_0000, 0, 5))
  {
    OneStoneInColumnFive();
    RemoveFromColumnFoot(5);
    ToNatHigh(Board.RemoveStone(0x8_0000_0000, 0, 5), 69);
  }

  lemma OneStoneInColumnFive()
    ensures ToNat(0x8_0000_0000) == Pow2(35) && ToNat(0) == 0
  {
    ToNatConstants();
    Pow2Mono(1, 29);
    assert Pow2(1) == 2;
    ToNatShl(1, 35);
    assert (1 as uint64) << (35 as uint8) == 0x8_0000_0000;
  }

  lemma {:induction false} WidenAppend(xs: seq<uint8>, ys: seq<uint8>)
    ensures Widen(xs + ys) == Widen(xs) + Widen(ys)
  {
  }

  /** gen_valid_moves and Go's GenValidMoves list the same columns on every pair of 64-bit boards. */
  lemma {:induction false} ValidColumnsAgree(blackStones: uint64, whiteStones: uint64, n: uint8)
    requires n <= 7
    ensures ValidColumns(ToNat(blackStones), ToNat(whiteStones), n as nat) == Widen(Board.ValidColumns(blackStones, whiteStones, n))
  {
    if n > 0 {
      var m := n - 1;
      var last: seq<uint8> := if Board.CanMove(blackStones, whiteStones, m) then [m] else [];
      assert Board.ValidColumns(blackStones, whiteStones, n) == Board.ValidColumns(blackStones, whiteStones, m) + last;
      ValidColumnsAgreeStep(blackStones, whiteStones, m);
      ValidColumnsAgree(blackStones, whiteStones, m);
      WidenAppend(Board.ValidColumns(blackStones, whiteStones, m), last);
    }
  }

  /** Column m is listed by both engines or by neither. */
  lemma ValidColumnsAgreeStep(blackStones: uint64, whiteStones: uint64, m: uint8)
    requires m < 7
    ensures ValidColumns(ToNat(blackStones), ToNat(whiteStones), m as nat + 1)
            == ValidColumns(ToNat(blackStones), ToNat(whiteStones), m as nat)
               + Widen(if Board.CanMove(blackStones, whiteStones, m) then [m] else [])
  {
    CanMoveAgrees(blackStones, whiteStones, m);
  }

  /** One conjunct of CheckAlignment's tests in Go: `a & (x >> d)`. */
  function AndShr(a: uint64, x: uint64, d: uint8): uint64
    requires d < 64
  {
    a & (x >> d)
  }

  lemma AndShrAgrees(a: uint64, x: uint64, d: uint8)
    requires ShiftCount(d)
    ensures ToNat(AndShr(a, x, d)) == And(ToNat(a), RightShift(ToNat(x), d as nat))
  {
    ToNatShr(x, d);
    ToNatAnd(a, x >> d);
  }

  /** One of CheckAlignment's four tests has the same value in both languages. */
  lemma AlignTestAgrees(x: uint64, d: uint8, d2: uint8, d3: uint8)
    requires ShiftCount(d) && ShiftCount(d2) && ShiftCount(d3)
    ensures ToNat(AndShr(AndShr(AndShr(x, x, d), x, d2), x, d3))
            == And(And(And(ToNat(x), RightShift(ToNat(x), d as nat)), RightShift(ToNat(x), d2 as nat)), RightShift(ToNat(x), d3 as nat))
  {
    AndShrAgrees(x, x, d);
    AndShrAgrees(AndShr(x, x, d), x, d2);
    AndShrAgrees(AndShr(AndShr(x, x, d), x, d2), x, d3);
  }

  lemma AlignTestNonzero(x: uint64, d: uint8, d2: uint8, d3: uint8)
    requires ShiftCount(d) && ShiftCount(d2) && ShiftCount(d3)
    ensures (AndShr(AndShr(AndShr(x, x, d), x, d2), x, d3) != 0)
            == (And(And(And(ToNat(x), RightShift(ToNat(x), d as nat)), RightShift(ToNat(x), d2 as nat)), RightShift(ToNat(x), d3 as nat)) != 0)
  {
    AlignTestAgrees(x, d, d2, d3);
    ToNatZero(AndShr(AndShr(AndShr(x, x, d), x, d2), x, d3));
  }

  lemma FallingUnfold(x: uint64)
    ensures AndShr(AndShr(AndShr(x, x, 6), x, 12), x, 18) == x & (x >> 6) & (x >> 12) & (x >> 18)
  {
  }

  lemma FallingTestAgrees(x: uint64)
    ensures (x & (x >> 6) & (x >> 12) & (x >> 18) != 0)
            == (And(And(And(ToNat(x), RightShift(ToNat(x), 6)), RightShift(ToNat(x), 12)), RightShift(ToNat(x), 18)) != 0)
  {
    FallingUnfold(x);
    AlignTestNonzero(x, 6, 12, 18);
  }

  lemma RisingUnfold(x: uint64)
    ensures AndShr(AndShr(AndShr(x, x, 8), x, 16), x, 24) == x & (x >> 8) & (x >> 16) & (x >> 24)
  {
  }

  lemma RisingTestAgrees(x: uint64)
    ensures (x & (x >> 8) & (x >> 16) & (x >> 24) != 0)
            == (And(And(And(ToNat(x), RightShift(ToNat(x), 8)), RightShift(ToNat(x), 16)), RightShift(ToNat(x), 24)) != 0)
  {
    RisingUnfold(x);
    AlignTestNonzero(x, 8, 16, 24);
  }

  lemma RowUnfold(x: uint64)
    ensures AndShr(AndShr(AndShr(x, x, 7), x, 14), x, 21) == x & (x >> 7) & (x >> 14) & (x >> 21)
  {
  }

  lemma RowTestAgrees(x: uint64)
    ensures (x & (x >> 7) & (x >> 14) & (x >> 21) != 0)
            == (And(And(And(ToNat(x), RightShift(ToNat(x), 7)), RightShift(ToNat(x), 14)), RightShift(ToNat(x), 21)) != 0)
  {
    RowUnfold(x);
    AlignTestNonzero(x, 7, 14, 21);
  }

  lemma ColumnUnfold(x: uint64)
    ensures AndShr(AndShr(AndShr(x, x, 1), x, 2), x, 3) == x & (x >> 1) & (x >> 2) & (x >> 3)
  {
  }

  lemma ColumnTestAgrees(x: uint64)
    ensures (x & (x >> 1) & (x >> 2) & (x >> 3) != 0)
            == (And(And(And(ToNat(x), RightShift(ToNat(x), 1)), RightShift(ToNat(x), 2)), RightShift(ToNat(x), 3)) != 0)
  {
    ColumnUnfold(x);
    AlignTestNonzero(x, 1, 2, 3);
  }

  /** check_alignment and Go's CheckAlignment give the same answer on every 64-bit board. */
  lemma CheckAlignmentAgrees(stones: uint64)
    ensures CheckAlignment(ToNat(stones)) == Board.CheckAlignment(stones)
  {
    FallingTestAgrees(stones);
    RisingTestAgrees(stones);
    RowTestAgrees(stones);
    ColumnTestAgrees(stones);
  }

  /** On a board with no stray bits, check_alignment finds exactly four stones in a line of the grid. */
  lemma CheckAlignmentIffFourInLine(stones: uint64)
    requires Board.NoStray(stones)
    ensures CheckAlignment(ToNat(stones)) <==> Alignment.FourInLine(stones)
  {
    CheckAlignmentAgrees(stones);
    Alignment.CheckAlignmentIffFourInLine(stones);
  }
}
