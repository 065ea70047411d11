/**
 * The bitboard engine of voda/board/board.go.
 *
 * Each side's stones are one uint64. Column `c` (0..6) owns bits `7*c` to
 * `7*c+6`: bits `7*c+r` for rows r = 0..5 (bottom to top) are cells, and bit
 * `7*c+6` is a sentinel that stays zero on a legal board, as do bits 49..63.
 */
module Board {
  import opened GoInt

  // ---------------------------------------------------------------------------
  // The engine, as written in Go
  // ---------------------------------------------------------------------------

  /** OR of the top-row bits 5, 12, 19, 26, 33, 40 and 47. */
  const TopRowMask: uint64 := 141845657554976

  /** True iff the top cell of `col` is free in the combined board. `col` is not range-checked. */
  function CanMove(blackStones: uint64, whiteStones: uint64, col: uint8): (r: bool)
    ensures col < 7 ==> (r <==> !Cell(blackStones | whiteStones, col, 5))
  {
    var board := blackStones | whiteStones;
    var topMask := Shl(1, col * 7 + 5);
    board & topMask == 0
  }

  /**
   * Drops a stone of `stones` into `col`: the column's six cell bits of the
   * combined board, plus one, is the lowest free cell when the column is filled
   * from the bottom. Neither legality nor the board's shape is checked.
   */
  function MakeMove(stones: uint64, oppStones: uint64, col: uint8): uint64 {
    var board := stones | oppStones;
    var colMask := Shl(63, col * 7);
    stones ^ Shl(Shr(board & colMask, col * 7) + 1, col * 7)
  }

  /** Meant to take back the top stone of `col`; it adds 1 to the column without shifting it down to bit 0 first. */
  function RemoveStone(stones: uint64, oppStones: uint64, col: uint8): (r: uint64)
    ensures 1 <= col < 7 ==> Bit(r ^ stones, 7 * col - 1)
  {
    var board := stones | oppStones;
    var colMask := Shl(63, col * 7);
    stones ^ Shr(Shl((board & colMask) + 1, col * 7), 1)
  }

  /**
   * RemoveStone as evidently intended: the column is shifted down to bits 0..5
   * before the +1, as in MakeMove, so the carry stays inside the column.
   */
  function RemoveTopStone(stones: uint64, oppStones: uint64, col: uint8): uint64 {
    var board := stones | oppStones;
    var colMask := Shl(63, col * 7);
    stones ^ Shr(Shl(Shr(board & colMask, col * 7) + 1, col * 7), 1)
  }

  /** True iff four stones lie on a line: shifts 6, 8, 7 and 1 are the two diagonals, rows and columns. */
  function CheckAlignment(stones: uint64): bool {
    if stones & (stones >> 6) & (stones >> 12) & (stones >> 18) != 0 then true
    else if stones & (stones >> 8) & (stones >> 16) & (stones >> 24) != 0 then true
    else if stones & (stones >> 7) & (stones >> 14) & (stones >> 21) != 0 then true
    else if stones & (stones >> 1) & (stones >> 2) & (stones >> 3) != 0 then true
    else false
  }

  /** The columns in 0..6 whose top cell is free, in ascending order. */
  method GenValidMoves(blackStones: uint64, whiteStones: uint64) returns (moves: seq<uint8>)
    ensures moves == ValidColumns(blackStones, whiteStones, 7)
  {
    moves := [];
    var board := blackStones | whiteStones;
    var topStones := board & TopRowMask;
    var i: uint8 := 0;
    while i < 7
      invariant i <= 7
      invariant moves == ValidColumns(blackStones, whiteStones, i)
    {
      ValidColumnsStep(blackStones, whiteStones, i);
      if topStones & (1 << (i * 7 + 5)) == 0 {
        moves := moves + [i];
      }
      i := i + 1;
    }
  }

  // ---------------------------------------------------------------------------
  // The board layout
  // ---------------------------------------------------------------------------

  /** The bit of cell (column c, row r); row 6 is the column's sentinel. */
  function CellIndex(c: uint8, r: uint8): uint8
    requires c < 7 && r < 7
  {
    7 * c + r
  }

  predicate Cell(x: uint64, c: uint8, r: uint8)
    requires c < 7 && r < 7
  {
    Bit(x, CellIndex(c, r))
  }

  /** The one-bit board holding cell (c, r). */
  function CellMask(c: uint8, r: uint8): uint64
    requires c < 7 && r < 7
  {
    1 << CellIndex(c, r)
  }

  /** The seven bits of column `c` (six cells and the sentinel), shifted down to bits 0..6. */
  function Column(x: uint64, c: uint8): uint64
    requires c < 7
  {
    (x >> (7 * c)) & 127
  }

  predicate InColumn(v: uint64, r: uint8)
    requires r < 7
  {
    (v >> r) & 1 == 1
  }

  /** The row of the lowest free cell of column `c` (6 if the column is full). */
  function Height(x: uint64, c: uint8): (h: uint8)
    requires c < 7
    ensures h <= 6
  {
    var v := Column(x, c);
    if !InColumn(v, 0) then 0 else if !InColumn(v, 1) then 1
    else if !InColumn(v, 2) then 2 else if !InColumn(v, 3) then 3
    else if !InColumn(v, 4) then 4 else if !InColumn(v, 5) then 5 else 6
  }

  /** The column value of a column holding exactly its lowest `h` cells. */
  function LowCells(h: uint8): uint64
    requires h <= 6
  {
    (1 << h) - 1
  }

  /** The 42 cell bits: rows 0..5 of columns 0..6. */
  const Playable: uint64 := 0xFDFB_F7EF_DFBF

  /** No stone outside the grid: every sentinel and every bit from 49 up is zero. */
  predicate NoStray(x: uint64) {
    x & !Playable == 0
  }

  /** Every stone above row 0 rests on a stone: columns fill contiguously from row 0. */
  predicate Gravity(x: uint64) {
    (x >> 1) & !x & Playable == 0
  }

  /** A reachable position: the sides are disjoint and the combined board lies in the grid under gravity. */
  predicate WellFormed(stones: uint64, oppStones: uint64) {
    && stones & oppStones == 0
    && NoStray(stones | oppStones)
    && Gravity(stones | oppStones)
  }

  /** The columns among 0..n-1 where CanMove holds, ascending. */
  function ValidColumns(blackStones: uint64, whiteStones: uint64, n: uint8): seq<uint8>
    requires n <= 7
  {
    if n == 0 then []
    else ValidColumns(blackStones, whiteStones, n - 1)
         + (if CanMove(blackStones, whiteStones, n - 1) then [n - 1] else [])
  }

  // ---------------------------------------------------------------------------
  // Lemmas: GenValidMoves and CanMove
  // ---------------------------------------------------------------------------

  /** The mask test of GenValidMoves agrees with CanMove. */
  lemma TopRowBit(board: uint64, i: uint8)
    requires i < 7
    ensures (board & TopRowMask) & (1 << (i * 7 + 5)) == board & Shl(1, i * 7 + 5)
  {
    if i == 0 {} else if i == 1 {} else if i == 2 {} else if i == 3 {} else if i == 4 {} else if i == 5 {} else {}
  }

  /** One step of GenValidMoves: column i is appended iff its top-row mask bit is free. */
  lemma ValidColumnsStep(blackStones: uint64, whiteStones: uint64, i: uint8)
    requires i < 7
    ensures ValidColumns(blackStones, whiteStones, i + 1)
         == ValidColumns(blackStones, whiteStones, i)
            + (if (blackStones | whiteStones) & TopRowMask & (1 << (i * 7 + 5)) == 0 then [i] else [])
  {
    TopRowBit(blackStones | whiteStones, i);
  }

  /** TopRowMask is the union of the top cells (row 5) of the seven columns. */
  lemma TopRowMaskIsTopCells()
    ensures TopRowMask == CellMask(0, 5) | CellMask(1, 5) | CellMask(2, 5) | CellMask(3, 5)
                          | CellMask(4, 5) | CellMask(5, 5) | CellMask(6, 5)
  {
  }

  /** A column is listed exactly when it is among the first n and CanMove holds for it. */
  lemma {:induction false} ValidColumnsMembers(blackStones: uint64, whiteStones: uint64, n: uint8, c: uint8)
    requires n <= 7
    ensures c in ValidColumns(blackStones, whiteStones, n) <==> c < n && CanMove(blackStones, whiteStones, c)
  {
    if n > 0 {
      ValidColumnsMembers(blackStones, whiteStones, n - 1, c);
    }
  }

  /** The listed columns are strictly ascending and all below n. */
  lemma {:induction false} ValidColumnsAscending(blackStones: uint64, whiteStones: uint64, n: uint8)
    requires n <= 7
    ensures forall i :: 0 <= i < |ValidColumns(blackStones, whiteStones, n)| ==> ValidColumns(blackStones, whiteStones, n)[i] < n
    ensures forall i, j :: 0 <= i < j < |ValidColumns(blackStones, whiteStones, n)|
              ==> ValidColumns(blackStones, whiteStones, n)[i] < ValidColumns(blackStones, whiteStones, n)[j]
  {
    if n > 0 {
      ValidColumnsAscending(blackStones, whiteStones, n - 1);
    }
  }

  /** For the seven columns, CanMove tests exactly the column's top cell. */
  lemma CanMoveIffTopFree(blackStones: uint64, whiteStones: uint64, col: uint8)
    requires col < 7
    ensures CanMove(blackStones, whiteStones, col) <==> !Cell(blackStones | whiteStones, col, 5)
  {
  }

  /** CanMove tests bit col*7+5 of the combined board. */
  lemma CanMoveIffBit(blackStones: uint64, whiteStones: uint64, col: uint8)
    requires col < 7
    ensures CanMove(blackStones, whiteStones, col) == !Bit(blackStones | whiteStones, col * 7 + 5)
  {
  }

  /**
   * CanMove does not range-check `col`: on a board with no stray bits every
   * column from 7 to 35 is reported free, since its mask falls on a sentinel
   * or above bit 48 (or is shifted out entirely).
   */
  lemma CanMoveBeyondGrid(blackStones: uint64, whiteStones: uint64, col: uint8)
    requires NoStray(blackStones | whiteStones) && 7 <= col <= 35
    ensures CanMove(blackStones, whiteStones, col)
  {
  }

  /** The mask position col*7+5 is computed in uint8 and wraps: column 36 tests cell (0, 1). */
  lemma CanMoveWraps(blackStones: uint64, whiteStones: uint64)
    ensures CanMove(blackStones, whiteStones, 36) <==> !Cell(blackStones | whiteStones, 0, 1)
  {
  }

  // ---------------------------------------------------------------------------
  // Lemmas: column shape
  // ---------------------------------------------------------------------------

  /** A cell bit is the matching bit of its column value. */
  lemma CellInColumn(x: uint64, c: uint8, r: uint8)
    requires c < 7 && r < 7
    ensures Cell(x, c, r) == InColumn(Column(x, c), r)
  {
  }

  /** Every cell below a column's Height is occupied. */
  lemma CellsBelowHeightOccupied(x: uint64, c: uint8)
    requires c < 7
    ensures forall r: uint8 :: r < Height(x, c) ==> Cell(x, c, r)
  {
    forall r: uint8 | r < Height(x, c)
      ensures Cell(x, c, r)
    {
      CellInColumn(x, c, r);
    }
  }

  /** The cell at a column's Height is free, unless the column is full. */
  lemma CellAtHeightFree(x: uint64, c: uint8)
    requires c < 7
    ensures Height(x, c) < 6 ==> !Cell(x, c, Height(x, c))
  {
    if Height(x, c) < 6 {
      CellInColumn(x, c, Height(x, c));
    }
  }

  /** Under gravity and with no stray bits, each column holds exactly its lowest Height cells. */
  lemma ColumnShape(x: uint64, c: uint8)
    requires c < 7 && NoStray(x) && Gravity(x)
    ensures Column(x, c) == LowCells(Height(x, c))
  {
  }

  /** A column whose top cell is free holds fewer than six stones. */
  lemma RoomInColumn(x: uint64, c: uint8)
    requires c < 7 && NoStray(x) && Gravity(x) && !Cell(x, c, 5)
    ensures Height(x, c) < 6 && Column(x, c) == LowCells(Height(x, c))
  {
    CellInColumn(x, c, 5);
    ColumnShape(x, c);
  }

  // ---------------------------------------------------------------------------
  // Lemmas: MakeMove
  // ---------------------------------------------------------------------------

  lemma AddAt0(s: uint64, o: uint64, col: uint8, h: uint8)
    requires col < 7 && h == 0 && Column(s | o, col) == LowCells(h)
    ensures MakeMove(s, o, col) == s | CellMask(col, h)
  {
  }

  lemma AddAt1(s: uint64, o: uint64, col: uint8, h: uint8)
    requires col < 7 && h == 1 && Column(s | o, col) == LowCells(h)
    ensures MakeMove(s, o, col) == s | CellMask(col, h)
  {
  }

  lemma AddAt2(s: uint64, o: uint64, col: uint8, h: uint8)
    requires col < 7 && h == 2 && Column(s | o, col) == LowCells(h)
    ensures MakeMove(s, o, col) == s | CellMask(col, h)
  {
  }

  lemma AddAt3(s: uint64, o: uint64, col: uint8, h: uint8)
    requires col < 7 && h == 3 && Column(s | o, col) == LowCells(h)
    ensures MakeMove(s, o, col) == s | CellMask(col, h)
  {
  }

  lemma AddAt4(s: uint64, o: uint64, col: uint8, h: uint8)
    requires col < 7 && h == 4 && Column(s | o, col) == LowCells(h)
    ensures MakeMove(s, o, col) == s | CellMask(col, h)
  {
  }

  lemma AddAt5(s: uint64, o: uint64, col: uint8, h: uint8)
    requires col < 7 && h == 5 && Column(s | o, col) == LowCells(h)
    ensures MakeMove(s, o, col) == s | CellMask(col, h)
  {
  }

  /** In a column holding exactly its lowest `h` cells, MakeMove adds cell `h`. */
  lemma AddAtHeight(s: uint64, o: uint64, col: uint8, h: uint8)
    requires col < 7 && h < 6 && Column(s | o, col) == LowCells(h)
    ensures MakeMove(s, o, col) == s | CellMask(col, h)
  {
    if h == 0 {
      AddAt0(s, o, col, h);
    } else if h == 1 {
      AddAt1(s, o, col, h);
    } else if h == 2 {
      AddAt2(s, o, col, h);
    } else if h == 3 {
      AddAt3(s, o, col, h);
    } else if h == 4 {
      AddAt4(s, o, col, h);
    } else {
      AddAt5(s, o, col, h);
    }
  }

  /**
   * On a well-formed board with room in `col`, MakeMove adds exactly one stone,
   * in the lowest free cell `h` of the column, and changes no other bit.
   */
  lemma MakeMoveAddsLowestCell(s: uint64, o: uint64, col: uint8, h: uint8)
    requires WellFormed(s, o) && col < 7 && CanMove(s, o, col) && h == Height(s | o, col)
    ensures h < 6 && !Cell(s | o, col, h)
    ensures MakeMove(s, o, col) == s | CellMask(col, h)
  {
    CanMoveIffTopFree(s, o, col);
    RoomInColumn(s | o, col);
    CellAtHeightFree(s | o, col);
    AddAtHeight(s, o, col, h);
  }

  lemma AddOnTopKeepsWellFormed(s: uint64, o: uint64, col: uint8, h: uint8)
    requires WellFormed(s, o) && col < 7 && h < 6 && Column(s | o, col) == LowCells(h)
    ensures WellFormed(s | CellMask(col, h), o)
  {
  }

  /** MakeMove on a legal column keeps the position well formed: disjoint sides, no stray bits, gravity. */
  lemma MakeMoveKeepsWellFormed(s: uint64, o: uint64, col: uint8)
    requires WellFormed(s, o) && col < 7 && CanMove(s, o, col)
    ensures WellFormed(MakeMove(s, o, col), o)
  {
    var h := Height(s | o, col);
    MakeMoveAddsLowestCell(s, o, col, h);
    RoomInColumn(s | o, col);
    AddOnTopKeepsWellFormed(s, o, col, h);
  }

  /** On a full column MakeMove is not a legal move, and it sets the column's sentinel bit. */
  lemma MakeMoveOnFullColumn(s: uint64, o: uint64, col: uint8)
    requires col < 7 && Column(s | o, col) == LowCells(6)
    ensures !CanMove(s, o, col)
    ensures MakeMove(s, o, col) == s | CellMask(col, 6)
  {
    CanMoveIffTopFree(s, o, col);
    CellInColumn(s | o, col, 5);
  }

  lemma MakeMoveSetsBit49(s: uint64, o: uint64)
    requires NoStray(s | o)
    ensures MakeMove(s, o, 7) == s ^ (1 << 49)
  {
  }

  lemma MakeMoveSetsBit56(s: uint64, o: uint64)
    requires NoStray(s | o)
    ensures MakeMove(s, o, 8) == s ^ (1 << 56)
  {
  }

  lemma MakeMoveSetsBit63(s: uint64, o: uint64)
    requires NoStray(s | o)
    ensures MakeMove(s, o, 9) == s ^ (1 << 63)
  {
  }

  /**
   * MakeMove does not range-check `col` either: on a board with no stray bits,
   * columns 7, 8 and 9 each set one bit outside the grid ...
   */
  lemma MakeMoveBeyondGrid(s: uint64, o: uint64)
    requires NoStray(s | o)
    ensures MakeMove(s, o, 7) == s ^ (1 << 49)
    ensures MakeMove(s, o, 8) == s ^ (1 << 56)
    ensures MakeMove(s, o, 9) == s ^ (1 << 63)
  {
    MakeMoveSetsBit49(s, o);
    MakeMoveSetsBit56(s, o);
    MakeMoveSetsBit63(s, o);
  }

  /** ... and columns 10 to 35 shift everything out, leaving the stones unchanged. */
  lemma MakeMoveFarBeyondGrid(s: uint64, o: uint64, col: uint8)
    requires 10 <= col <= 35
    ensures MakeMove(s, o, col) == s
  {
  }

  /** On a board with no stray bits every sentinel cell is empty. */
  lemma SentinelFree(x: uint64, c: uint8)
    requires NoStray(x) && c < 7
    ensures !Cell(x, c, 6)
  {
  }

  // ---------------------------------------------------------------------------
  // Lemmas: RemoveStone as written, and as intended
  // ---------------------------------------------------------------------------

  lemma RemoveAtHeightColumnZero(s: uint64, o: uint64, h: uint8)
    requires h < 6 && Column(s | o, 0) == LowCells(h)
    ensures RemoveStone(s | CellMask(0, h), o, 0) == s
  {
  }

  lemma RemoveAtHeightSetsSentinel(s: uint64, o: uint64, col: uint8, h: uint8, m: uint64)
    requires 1 <= col < 7 && h < 6 && Column(s | o, col) == LowCells(h) && NoStray(s | o)
    requires m == s | CellMask(col, h)
    ensures Cell(RemoveStone(m, o, col), col - 1, 6) && !Cell(s, col - 1, 6)
  {
  }

  lemma RemoveTopAt0(s: uint64, o: uint64, col: uint8, h: uint8)
    requires col < 7 && h == 0 && Column(s | o, col) == LowCells(h)
    ensures RemoveTopStone(s | CellMask(col, h), o, col) == s
  {
  }

  lemma RemoveTopAt1(s: uint64, o: uint64, col: uint8, h: uint8)
    requires col < 7 && h == 1 && Column(s | o, col) == LowCells(h)
    ensures RemoveTopStone(s | CellMask(col, h), o, col) == s
  {
  }

  lemma RemoveTopAt2(s: uint64, o: uint64, col: uint8, h: uint8)
    requires col < 7 && h == 2 && Column(s | o, col) == LowCells(h)
    ensures RemoveTopStone(s | CellMask(col, h), o, col) == s
  {
  }

  lemma RemoveTopAt3(s: uint64, o: uint64, col: uint8, h: uint8)
    requires col < 7 && h == 3 && Column(s | o, col) == LowCells(h)
    ensures RemoveTopStone(s | CellMask(col, h), o, col) == s
  {
  }

  lemma RemoveTopAt4(s: uint64, o: uint64, col: uint8, h: uint8)
    requires col < 7 && h == 4 && Column(s | o, col) == LowCells(h)
    ensures RemoveTopStone(s | CellMask(col, h), o, col) == s
  {
  }

  lemma RemoveTopAt5(s: uint64, o: uint64, col: uint8, h: uint8)
    requires col < 7 && h == 5 && Column(s | o, col) == LowCells(h)
    ensures RemoveTopStone(s | CellMask(col, h), o, col) == s
  {
  }

  /** In a column holding exactly its lowest `h` cells plus cell `h`, RemoveTopStone takes cell `h` back. */
  lemma RemoveTopAtHeight(s: uint64, o: uint64, col: uint8, h: uint8)
    requires col < 7 && h < 6 && Column(s | o, col) == LowCells(h)
    ensures RemoveTopStone(s | CellMask(col, h), o, col) == s
  {
    if h == 0 {
      RemoveTopAt0(s, o, col, h);
    } else if h == 1 {
      RemoveTopAt1(s, o, col, h);
    } else if h == 2 {
      RemoveTopAt2(s, o, col, h);
    } else if h == 3 {
      RemoveTopAt3(s, o, col, h);
    } else if h == 4 {
      RemoveTopAt4(s, o, col, h);
    } else {
      RemoveTopAt5(s, o, col, h);
    }
  }

  /** In column 0, where the column already sits at bit 0, RemoveStone takes back the stone MakeMove dropped. */
  lemma RemoveStoneUndoesMakeMoveInColumnZero(s: uint64, o: uint64)
    requires WellFormed(s, o) && CanMove(s, o, 0)
    ensures RemoveStone(MakeMove(s, o, 0), o, 0) == s
  {
    var h := Height(s | o, 0);
    MakeMoveAddsLowestCell(s, o, 0, h);
    RoomInColumn(s | o, 0);
    RemoveAtHeightColumnZero(s, o, h);
  }

  /**
   * In every other column RemoveStone does not undo MakeMove: the +1 lands on
   * bit 0 of the unshifted board, and after the shifts it flips the sentinel of
   * the column to the left, so the result is never the original stones.
   */
  lemma RemoveStoneSetsSentinel(s: uint64, o: uint64, col: uint8)
    requires WellFormed(s, o) && 1 <= col < 7 && CanMove(s, o, col)
    ensures Cell(RemoveStone(MakeMove(s, o, col), o, col), col - 1, 6)
    ensures RemoveStone(MakeMove(s, o, col), o, col) != s
  {
    var h := Height(s | o, col);
    MakeMoveAddsLowestCell(s, o, col, h);
    RoomInColumn(s | o, col);
    RemoveAtHeightSetsSentinel(s, o, col, h, MakeMove(s, o, col));
  }

  /** A concrete instance: one stone at (1, 0), a second dropped on it and taken back. */
  lemma RemoveStoneCounterexample()
    ensures WellFormed(0x80, 0) && CanMove(0x80, 0, 1)
    ensures MakeMove(0x80, 0, 1) == 0x180
    ensures RemoveStone(0x180, 0, 1) == 0x61C0
  {
  }

  /** The corrected RemoveTopStone undoes MakeMove in every column. */
  lemma RemoveTopStoneUndoesMakeMove(s: uint64, o: uint64, col: uint8)
    requires WellFormed(s, o) && col < 7 && CanMove(s, o, col)
    ensures RemoveTopStone(MakeMove(s, o, col), o, col) == s
  {
    var h := Height(s | o, col);
    MakeMoveAddsLowestCell(s, o, col, h);
    RoomInColumn(s | o, col);
    RemoveTopAtHeight(s, o, col, h);
  }
}
