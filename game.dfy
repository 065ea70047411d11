/**
 * The match orchestrator of voda/game/game.go: a Game holds the board record,
 * the two players' ports and names, and drives a match through `name`,
 * `start`, `go`, `end` and `quit` requests.
 *
 * The players and the channels to them are replaced by an oracle: `replies`
 * is the sequence of replies the players will give, consumed one per request
 * that waits for an answer, and `log` records every request sent, with the
 * side it went to.
 */
module Match {
  import opened GoInt
  import opened GameData
  import Board
  import ServerConnector

  datatype Side = Black | White

  /** A request as sent: the side it went to and its parameters. */
  datatype Request = Request(side: Side, param: PlayerParam)

  /** The reply to the next request; an exhausted oracle gives Go's zero reply. */
  function NextReply(rs: seq<PlayerRet>): PlayerRet {
    if rs == [] then Ret([]) else rs[0]
  }

  /** The replies left once the next one is consumed. */
  function Rest(rs: seq<PlayerRet>): seq<PlayerRet> {
    if rs == [] then [] else rs[1..]
  }

  /** The requests sent to the sides whose port is set, black first. */
  function ToPresent(blackPort: nat, whitePort: nat, blackParam: PlayerParam, whiteParam: PlayerParam): seq<Request> {
    (if blackPort != 0 then [Request(Black, blackParam)] else [])
    + (if whitePort != 0 then [Request(White, whiteParam)] else [])
  }

  /** The replies left once every side whose port is set has answered. */
  function AfterPresent(rs: seq<PlayerRet>, blackPort: nat, whitePort: nat): seq<PlayerRet> {
    var afterBlack := if blackPort != 0 then Rest(rs) else rs;
    if whitePort != 0 then Rest(afterBlack) else afterBlack
  }

  // ---------------------------------------------------------------------------
  // One move
  // ---------------------------------------------------------------------------

  /** The side to move: black when the counter is even. */
  function Mover(b: BoardData): Side {
    if b.counter % 2 == 0 then Black else White
  }

  function StonesOf(b: BoardData, side: Side): uint64 {
    if side == Black then b.blackStones else b.whiteStones
  }

  function Opponent(side: Side): Side {
    if side == Black then White else Black
  }

  /**
   * The `go` request of inquireNextMove: the mover's stones, the opponent's
   * stones, the history, and the valid columns of GenValidMoves.
   */
  function GoRequest(b: BoardData): (p: PlayerParam)
    ensures p.command == "go" && p.moves == b.moves
    ensures p.stones == StonesOf(b, Mover(b)) && p.oppStones == StonesOf(b, Opponent(Mover(b)))
  {
    var stones := StonesOf(b, Mover(b));
    var oppStones := StonesOf(b, Opponent(Mover(b)));
    Param("go").(stones := stones, oppStones := oppStones, moves := b.moves,
                 validMoves := Board.ValidColumns(stones, oppStones, 7))
  }

  /**
   * dropStone: the counter advances (wrapping at 256) and the move joins the
   * history whatever the move is; only a move CanMove accepts changes a
   * bitboard, and then only the mover's.
   */
  function Drop(b: BoardData, move: uint8): (r: (bool, BoardData))
    ensures r.1.counter == b.counter + 1 && r.1.moves == b.moves + [move]
    ensures r.0 <==> Board.CanMove(b.blackStones, b.whiteStones, move)
  {
    var next := b.(counter := b.counter + 1, moves := b.moves + [move]);
    if !Board.CanMove(next.blackStones, next.whiteStones, move) then (false, next)
    else if b.counter % 2 == 0 then
      (true, next.(blackStones := Board.MakeMove(next.blackStones, next.whiteStones, move)))
    else
      (true, next.(whiteStones := Board.MakeMove(next.whiteStones, next.blackStones, move)))
  }

  /** Drop, case by case, on the record's fields. */
  lemma DropCases(b: BoardData, move: uint8)
    ensures var next := BoardData(b.blackStones, b.whiteStones, b.moves + [move], b.counter + 1);
      Drop(b, move)
      == if !Board.CanMove(b.blackStones, b.whiteStones, move) then (false, next)
         else if b.counter % 2 == 0 then (true, next.(blackStones := Board.MakeMove(b.blackStones, b.whiteStones, move)))
         else (true, next.(whiteStones := Board.MakeMove(b.whiteStones, b.blackStones, move)))
  {
  }

  /** A rejected move leaves both bitboards; an accepted one replaces only the mover's, by MakeMove. */
  lemma DropStones(b: BoardData, move: uint8)
    ensures var r := Drop(b, move); var side := Mover(b);
      && StonesOf(r.1, Opponent(side)) == StonesOf(b, Opponent(side))
      && StonesOf(r.1, side)
         == if r.0 then Board.MakeMove(StonesOf(b, side), StonesOf(b, Opponent(side)), move) else StonesOf(b, side)
  {
  }

  /** The history keeps one entry per move counted, as long as the counter does not wrap. */
  lemma DropKeepsHistoryLength(b: BoardData, move: uint8)
    requires |b.moves| == b.counter as int && b.counter < 255
    ensures |Drop(b, move).1.moves| == Drop(b, move).1.counter as int
  {
  }

  lemma WellFormedSymmetric(s: uint64, o: uint64)
    ensures Board.WellFormed(s, o) == Board.WellFormed(o, s)
  {
    assert s & o == o & s && s | o == o | s;
  }

  /** A move into the grid keeps a reachable position reachable, whether or not it is accepted. */
  lemma DropKeepsWellFormed(b: BoardData, move: uint8)
    requires Board.WellFormed(b.blackStones, b.whiteStones) && move < 7
    ensures Board.WellFormed(Drop(b, move).1.blackStones, Drop(b, move).1.whiteStones)
  {
    var r := Drop(b, move);
    if r.0 {
      if b.counter % 2 == 0 {
        Board.MakeMoveKeepsWellFormed(b.blackStones, b.whiteStones, move);
      } else {
        WellFormedSymmetric(b.blackStones, b.whiteStones);
        assert Board.CanMove(b.whiteStones, b.blackStones, move) by {
          assert b.blackStones | b.whiteStones == b.whiteStones | b.blackStones;
        }
        Board.MakeMoveKeepsWellFormed(b.whiteStones, b.blackStones, move);
        WellFormedSymmetric(r.1.whiteStones, b.blackStones);
      }
    }
  }

  /** CanMove looks only at the union of the two bitboards. */
  lemma CanMoveSymmetric(x: uint64, y: uint64, c: uint8)
    ensures Board.CanMove(x, y, c) == Board.CanMove(y, x, c)
  {
    assert x | y == y | x;
  }

  /**
   * Because CanMove does not bound the column, columns 7 to 35 are accepted on
   * a board without stray bits: 7, 8 and 9 set bit 49, 56 or 63 of the
   * mover's stones, and 10 to 35 change nothing but the counter and history.
   */
  lemma DropBeyondGrid(b: BoardData, move: uint8)
    requires Board.NoStray(b.blackStones | b.whiteStones) && 7 <= move <= 35
    ensures var r := Drop(b, move); var side := Mover(b); var s := StonesOf(b, side);
      && r.0
      && StonesOf(r.1, Opponent(side)) == StonesOf(b, Opponent(side))
      && StonesOf(r.1, side) == BeyondGrid(s, move)
  {
    var side := Mover(b);
    var s, o := StonesOf(b, side), StonesOf(b, Opponent(side));
    var r := Drop(b, move);
    assert r.0 by {
      Board.CanMoveBeyondGrid(b.blackStones, b.whiteStones, move);
    }
    assert StonesOf(r.1, Opponent(side)) == o && StonesOf(r.1, side) == Board.MakeMove(s, o, move) by {
      DropStones(b, move);
    }
    assert Board.MakeMove(s, o, move) == BeyondGrid(s, move) by {
      MoverUnion(b);
      MakeMoveBeyondGrid(s, o, b.blackStones | b.whiteStones, move);
    }
  }

  /** The mover's stones after an accepted column 7 to 35. */
  function BeyondGrid(s: uint64, move: uint8): uint64 {
    if move == 7 then s ^ (1 << 49)
    else if move == 8 then s ^ (1 << 56)
    else if move == 9 then s ^ (1 << 63)
    else s
  }

  /** The mover's and the opponent's stones together are both sides' stones. */
  lemma MoverUnion(b: BoardData)
    ensures StonesOf(b, Mover(b)) | StonesOf(b, Opponent(Mover(b))) == b.blackStones | b.whiteStones
  {
    if Mover(b) == White {
      assert b.whiteStones | b.blackStones == b.blackStones | b.whiteStones;
    }
  }

  lemma MakeMoveBeyondGrid(s: uint64, o: uint64, union: uint64, move: uint8)
    requires union == s | o && Board.NoStray(union) && 7 <= move <= 35
    ensures Board.MakeMove(s, o, move) == BeyondGrid(s, move)
  {
    if move <= 9 {
      Board.MakeMoveBeyondGrid(s, o);
    } else {
      Board.MakeMoveFarBeyondGrid(s, o, move);
    }
  }

  /** The valid moves a `go` request offers are exactly the columns 0..6 the mover may play, ascending. */
  lemma GoRequestOffersLegalColumns(b: BoardData)
    ensures forall c: uint8 :: c in GoRequest(b).validMoves <==> c < 7 && Board.CanMove(b.blackStones, b.whiteStones, c)
    ensures forall i, j :: 0 <= i < j < |GoRequest(b).validMoves| ==> GoRequest(b).validMoves[i] < GoRequest(b).validMoves[j]
  {
    var s, o := StonesOf(b, Mover(b)), StonesOf(b, Opponent(Mover(b)));
    var vs := GoRequest(b).validMoves;
    assert vs == Board.ValidColumns(s, o, 7);
    forall c: uint8
      ensures c in vs <==> c < 7 && Board.CanMove(b.blackStones, b.whiteStones, c)
    {
      Board.ValidColumnsMembers(s, o, 7, c);
      CanMoveSymmetric(b.blackStones, b.whiteStones, c);
    }
    Board.ValidColumnsAscending(s, o, 7);
  }

  // ---------------------------------------------------------------------------
  // The end of a match
  // ---------------------------------------------------------------------------

  /** The results endGame sends to black and to white: a black win for 0, a white win for anything else. */
  function EndResults(result: uint8): (r: (uint8, uint8))
    ensures r.0 <= 1 && r.1 <= 1 && r.0 != r.1
    ensures r.0 == 0 <==> result == 0
  {
    if result == 0 then (0, 1) else (1, 0)
  }

  function EndParam(result: uint8): PlayerParam {
    Param("end").(result := result)
  }

  function EndRequests(blackPort: nat, whitePort: nat, result: uint8): seq<Request> {
    ToPresent(blackPort, whitePort, EndParam(EndResults(result).0), EndParam(EndResults(result).1))
  }

  /**
   * The `end` messages always name one winner and one loser: the draw
   * endGame(2) is announced as a black loss and a white win.
   */
  lemma EndNeverAnnouncesDraw(result: uint8)
    ensures var r := EndResults(result);
      && ServerConnector.BuildMessage(EndParam(r.0)).1 == (if result == 0 then "end win" else "end lose")
      && ServerConnector.BuildMessage(EndParam(r.1)).1 == (if result == 0 then "end lose" else "end win")
  {
  }

  // ---------------------------------------------------------------------------
  // A whole match, both players present
  // ---------------------------------------------------------------------------

  /** The state a match leaves: the board, the unread replies, the request log, and StartCLI's result. */
  datatype Outcome = Outcome(board: BoardData, replies: seq<PlayerRet>, log: seq<Request>, result: uint8)

  /**
   * One iteration of StartCLI's turn loop: request a move and drop it; on a
   * rejected move or an alignment of the mover, end the match (both players
   * answering `end`) and report that the loop stops. A rejected move leaves
   * the result at 0.
   */
  function Turn(b: BoardData, rs: seq<PlayerRet>, log: seq<Request>): (r: (bool, Outcome))
    ensures r.1.board == Drop(b, NextReply(rs).move).1
    ensures r.1.board.counter == b.counter + 1 && r.1.board.moves == b.moves + [NextReply(rs).move]
    ensures r.1.result <= 1 && (!r.0 ==> r.1.result == 0)
    ensures r.1.result == 1 ==> r.1.board.counter % 2 == 0 && Board.CheckAlignment(r.1.board.whiteStones)
    ensures var d := Drop(b, NextReply(rs).move);
      r.0 <==> !d.0 || Board.CheckAlignment(StonesOf(d.1, Mover(b)))
    ensures !Drop(b, NextReply(rs).move).0 ==> r.1.result == 0
    ensures !r.0 ==> r.1.replies == Rest(rs) && r.1.log == log + [Request(Mover(b), GoRequest(b))]
  {
    var log' := log + [Request(Mover(b), GoRequest(b))];
    var rs' := Rest(rs);
    var d := Drop(b, NextReply(rs).move);
    var b' := d.1;
    if !d.0 then
      (true, Outcome(b', Rest(Rest(rs')), log' + EndRequests(1, 1, b'.counter % 2), 0))
    else
      var stones := if b'.counter % 2 == 0 then b'.whiteStones else b'.blackStones;
      MoverStonesAfterDrop(b, NextReply(rs).move);
      if Board.CheckAlignment(stones) then
        var result := (b'.counter + 1) % 2;
        (true, Outcome(b', Rest(Rest(rs')), log' + EndRequests(1, 1, result), result))
      else
        (false, Outcome(b', rs', log', 0))
  }

  /** After a drop, the side whose stones the loop checks is the side that just moved. */
  lemma MoverStonesAfterDrop(b: BoardData, move: uint8)
    ensures var d := Drop(b, move).1;
      (if d.counter % 2 == 0 then d.whiteStones else d.blackStones) == StonesOf(d, Mover(b))
  {
  }

  /**
   * StartCLI's turn loop from iteration `i` on, stopping after the 42nd
   * iteration. Its result is 0 or 1, and 1 only when white has just aligned
   * four on an even counter.
   */
  function Turns(b: BoardData, rs: seq<PlayerRet>, log: seq<Request>, i: nat): (o: Outcome)
    decreases 42 - i
    ensures o.result <= 1
    ensures o.result == 1 ==> o.board.counter % 2 == 0 && Board.CheckAlignment(o.board.whiteStones)
  {
    if i >= 42 then Outcome(b, rs, log, 0)
    else
      var t := Turn(b, rs, log);
      if t.0 then t.1 else Turns(t.1.board, t.1.replies, t.1.log, i + 1)
  }

  function StartParam(turn: bool): PlayerParam {
    Param("start").(turn := turn)
  }

  /**
   * StartCLI with both ports set, from the replies `rs` and the log `log`:
   * the name and start exchanges, 255 if either player is not ready, and
   * otherwise the turn loop, the draw at 42 moves, and the `quit` requests.
   */
  function Cli(rs: seq<PlayerRet>, log: seq<Request>): (o: Outcome)
    ensures o.result == 0 || o.result == 1 || o.result == 2 || o.result == 255
    ensures var rsStart := AfterPresent(rs, 1, 1);
      o.result == 255 <==> !(NextReply(rsStart).ready && NextReply(Rest(rsStart)).ready)
  {
    var named := log + ToPresent(1, 1, Param("name"), Param("name"));
    var rsStart := AfterPresent(rs, 1, 1);
    var ready := NextReply(rsStart).ready && NextReply(Rest(rsStart)).ready;
    var started := named + ToPresent(1, 1, StartParam(true), StartParam(false));
    var rsPlay := AfterPresent(rsStart, 1, 1);
    if !ready then Outcome(EmptyBoard, rsPlay, started, 255)
    else
      var o := Turns(EmptyBoard, rsPlay, started, 0);
      var o' := if o.board.counter == 42
                then Outcome(o.board, AfterPresent(o.replies, 1, 1), o.log + EndRequests(1, 1, 2), 2)
                else o;
      o'.(log := o'.log + ToPresent(1, 1, Param("quit"), Param("quit")))
  }

  /** From iteration `i` with `i` moves made, the loop ends with between `i` and 42 moves, all in the history. */
  lemma {:induction false} TurnsCount(b: BoardData, rs: seq<PlayerRet>, log: seq<Request>, i: nat)
    requires i <= 42 && b.counter as int == i && |b.moves| == i
    decreases 42 - i
    ensures var o := Turns(b, rs, log, i);
      && i <= o.board.counter as int <= 42
      && |o.board.moves| == o.board.counter as int
  {
    if i < 42 {
      var t := Turn(b, rs, log);
      var b' := t.1.board;
      assert b'.counter as int == i + 1;
      if !t.0 {
        TurnsCount(b', t.1.replies, t.1.log, i + 1);
      }
    }
  }

  /**
   * When both players are ready, between 1 and 42 moves are recorded, the
   * result is 2 exactly when 42 were made (a win on the last move included),
   * and 1 only after a white alignment.
   */
  lemma CliResult(rs: seq<PlayerRet>, log: seq<Request>)
    ensures var o := Cli(rs, log);
      (o.result != 255 ==>
            && 1 <= o.board.counter as int <= 42
            && |o.board.moves| == o.board.counter as int
            && (o.result == 2 <==> o.board.counter == 42)
            && (o.result == 1 ==> o.board.counter % 2 == 0 && Board.CheckAlignment(o.board.whiteStones)))
  {
    var rsStart := AfterPresent(rs, 1, 1);
    var named := log + ToPresent(1, 1, Param("name"), Param("name"));
    var started := named + ToPresent(1, 1, StartParam(true), StartParam(false));
    var rsPlay := AfterPresent(rsStart, 1, 1);
    assert Turns(EmptyBoard, rsPlay, started, 0).board.counter as int >= 1 by {
      var t := Turn(EmptyBoard, rsPlay, started);
      assert t.1.board.counter == 1 && |t.1.board.moves| == 1;
      if !t.0 {
        TurnsCount(t.1.board, t.1.replies, t.1.log, 1);
      }
    }
    TurnsCount(EmptyBoard, rsPlay, started, 0);
  }

  /**
   * An accepted move that aligns nothing lets the loop go on: the next
   * iteration starts from the dropped board with one reply read and the
   * `go` request logged.
   */
  lemma TurnsContinues(b: BoardData, rs: seq<PlayerRet>, log: seq<Request>, i: nat)
    requires i < 42
    requires var d := Drop(b, NextReply(rs).move);
      d.0 && !Board.CheckAlignment(StonesOf(d.1, Mover(b)))
    ensures Turns(b, rs, log, i)
            == Turns(Drop(b, NextReply(rs).move).1, Rest(rs), log + [Request(Mover(b), GoRequest(b))], i + 1)
  {
  }

  /**
   * A rejected move ends the match for the mover's opponent (black, moving on
   * an even counter, is sent `lose`), yet the turn loop's result stays 0, the
   * value StartCLI reports as a black win.
   */
  lemma RejectedMoveReportsZero(b: BoardData, rs: seq<PlayerRet>, log: seq<Request>, i: nat)
    requires i < 42 && !Board.CanMove(b.blackStones, b.whiteStones, NextReply(rs).move)
    ensures var o := Turns(b, rs, log, i);
      && o.result == 0
      && o.log == log + [Request(Mover(b), GoRequest(b))] + EndRequests(1, 1, (b.counter + 1) % 2)
      && (Mover(b) == Black ==> EndResults((b.counter + 1) % 2) == (1, 0))
  {
  }

  /** An accepted move that aligns four of the mover's stones ends the match with the mover as the result's winner. */
  lemma AlignmentWins(b: BoardData, rs: seq<PlayerRet>, log: seq<Request>, i: nat)
    requires i < 42
    requires var r := Drop(b, NextReply(rs).move);
      r.0 && Board.CheckAlignment(StonesOf(r.1, Mover(b)))
    ensures var o := Turns(b, rs, log, i);
      && o.result == (if Mover(b) == Black then 0 else 1)
      && o.log == log + [Request(Mover(b), GoRequest(b))] + EndRequests(1, 1, o.result)
  {
  }

  // ---------------------------------------------------------------------------
  // The Game
  // ---------------------------------------------------------------------------

  class Game {
    var board: BoardData
    var blackPort: nat
    var whitePort: nat
    var blackName: string
    var whiteName: string
    /** The replies the players will give, in the order they are read. */
    var replies: seq<PlayerRet>
    /** Every request sent so far. */
    var log: seq<Request>

    /** Go's zero Game, with the players' future replies. */
    constructor(replies: seq<PlayerRet>)
      ensures board == EmptyBoard && blackPort == 0 && whitePort == 0
      ensures blackName == [] && whiteName == []
      ensures this.replies == replies && log == []
    {
      board := EmptyBoard;
      blackPort, whitePort := 0, 0;
      blackName, whiteName := [], [];
      this.replies := replies;
      log := [];
    }

    /** sendMessage: the request goes to `side` and its reply is read. */
    method SendMessage(side: Side, param: PlayerParam) returns (ret: PlayerRet)
      modifies this
      ensures ret == NextReply(old(replies)) && replies == Rest(old(replies))
      ensures log == old(log) + [Request(side, param)]
      ensures board == old(board) && blackPort == old(blackPort) && whitePort == old(whitePort)
      ensures blackName == old(blackName) && whiteName == old(whiteName)
    {
      log := log + [Request(side, param)];
      ret := NextReply(replies);
      replies := Rest(replies);
    }

    /** initializeBoard: the empty board. */
    method InitializeBoard()
      modifies this`board
      ensures board == EmptyBoard
    {
      board := EmptyBoard;
    }

    /** initializeGame: a new board, the ports (the connections themselves are not modelled), and the names. */
    method InitializeGame(blackPort: nat, whitePort: nat)
      modifies this
      ensures board == EmptyBoard && this.blackPort == blackPort && this.whitePort == whitePort
      ensures blackName == (if blackPort != 0 then NextReply(old(replies)).name else [])
      ensures whiteName == (if whitePort != 0 then NextReply(AfterPresent(old(replies), blackPort, 0)).name else [])
      ensures replies == AfterPresent(old(replies), blackPort, whitePort)
      ensures log == old(log) + ToPresent(blackPort, whitePort, Param("name"), Param("name"))
    {
      InitializeBoard();
      this.blackPort, this.whitePort := blackPort, whitePort;
      InquirePlayerName();
    }

    /** inquirePlayerName: each present side is asked its name; an absent side's name is empty. */
    method InquirePlayerName()
      modifies this
      ensures blackName == (if blackPort != 0 then NextReply(old(replies)).name else [])
      ensures whiteName == (if whitePort != 0 then NextReply(AfterPresent(old(replies), blackPort, 0)).name else [])
      ensures replies == AfterPresent(old(replies), blackPort, whitePort)
      ensures log == old(log) + ToPresent(blackPort, whitePort, Param("name"), Param("name"))
      ensures board == old(board) && blackPort == old(blackPort) && whitePort == old(whitePort)
    {
      var black: string := [];
      var white: string := [];
      if blackPort != 0 {
        var ret := SendMessage(Black, Param("name"));
        black := ret.name;
      }
      if whitePort != 0 {
        var ret := SendMessage(White, Param("name"));
        white := ret.name;
      }
      blackName, whiteName := black, white;
    }

    /**
     * sendStartCommand: each present side is told its turn and must answer
     * ready; an absent side counts as ready. Its board reset acts on a copy of
     * the Game, so the board is unchanged.
     */
    method SendStartCommand() returns (ok: bool)
      modifies this
      ensures ok == ((blackPort == 0 || NextReply(old(replies)).ready)
                     && (whitePort == 0 || NextReply(AfterPresent(old(replies), blackPort, 0)).ready))
      ensures replies == AfterPresent(old(replies), blackPort, whitePort)
      ensures log == old(log) + ToPresent(blackPort, whitePort, StartParam(true), StartParam(false))
      ensures board == old(board) && blackPort == old(blackPort) && whitePort == old(whitePort)
      ensures blackName == old(blackName) && whiteName == old(whiteName)
    {
      var blackOk := true;
      var whiteOk := true;
      if blackPort != 0 {
        var ret := SendMessage(Black, StartParam(true));
        blackOk := ret.ready;
      }
      if whitePort != 0 {
        var ret := SendMessage(White, StartParam(false));
        whiteOk := ret.ready;
      }
      ok := blackOk && whiteOk;
    }

    /**
     * inquireNextMove: the mover is sent its `go` request and the column it
     * answers is dropped. The mover's port must be set: Go would wait forever
     * on the absent player's channel.
     */
    method InquireNextMove() returns (valid: bool, move: uint8)
      requires (if Mover(board) == Black then blackPort else whitePort) != 0
      modifies this
      ensures log == old(log) + [Request(Mover(old(board)), GoRequest(old(board)))]
      ensures move == NextReply(old(replies)).move && replies == Rest(old(replies))
      ensures (valid, board) == Drop(old(board), move)
      ensures blackPort == old(blackPort) && whitePort == old(whitePort)
      ensures blackName == old(blackName) && whiteName == old(whiteName)
    {
      var side := Mover(board);
      var stones := StonesOf(board, side);
      var oppStones := StonesOf(board, Opponent(side));
      var validMoves := Board.GenValidMoves(stones, oppStones);
      var param := Param("go").(stones := stones, oppStones := oppStones, moves := board.moves, validMoves := validMoves);
      var ret := SendMessage(side, param);
      valid, move := DropStone(ret.move);
    }

    /** dropStone: the board becomes Drop's. */
    method DropStone(move: uint8) returns (valid: bool, played: uint8)
      modifies this`board
      ensures (valid, board) == Drop(old(board), move) && played == move
    {
      DropCases(board, move);
      var black := board.counter % 2 == 0;
      var blackStones, whiteStones := board.blackStones, board.whiteStones;
      var counter := board.counter + 1;
      var moves := board.moves + [move];
      board := BoardData(blackStones, whiteStones, moves, counter);
      if !Board.CanMove(blackStones, whiteStones, move) {
        return false, move;
      }
      if black {
        blackStones := Board.MakeMove(blackStones, whiteStones, move);
      } else {
        whiteStones := Board.MakeMove(whiteStones, blackStones, move);
      }
      board := BoardData(blackStones, whiteStones, moves, counter);
      return true, move;
    }

    /** endGame: each present side is sent its result, and answers. */
    method EndGame(result: uint8)
      modifies this
      ensures log == old(log) + EndRequests(blackPort, whitePort, result)
      ensures replies == AfterPresent(old(replies), blackPort, whitePort)
      ensures board == old(board) && blackPort == old(blackPort) && whitePort == old(whitePort)
      ensures blackName == old(blackName) && whiteName == old(whiteName)
    {
      var blackResult: uint8 := 2;
      var whiteResult: uint8 := 2;
      if result == 0 {
        blackResult, whiteResult := 0, 1;
      } else {
        blackResult, whiteResult := 1, 0;
      }
      if blackPort != 0 {
        var _ := SendMessage(Black, EndParam(blackResult));
      }
      if whitePort != 0 {
        var _ := SendMessage(White, EndParam(whiteResult));
      }
    }

    /** quitPlayer: each present side is sent `quit`; no reply is awaited. */
    method QuitPlayer()
      modifies this
      ensures log == old(log) + ToPresent(blackPort, whitePort, Param("quit"), Param("quit"))
      ensures replies == old(replies)
      ensures board == old(board) && blackPort == old(blackPort) && whitePort == old(whitePort)
      ensures blackName == old(blackName) && whiteName == old(whiteName)
    {
      log := log + ToPresent(blackPort, whitePort, Param("quit"), Param("quit"));
    }

    /** StartCLI with both players present: the match Cli describes. */
    method StartCLI(blackPort: nat, whitePort: nat) returns (result: uint8)
      requires blackPort != 0 && whitePort != 0
      modifies this
      ensures this.blackPort == blackPort && this.whitePort == whitePort
      ensures blackName == NextReply(old(replies)).name && whiteName == NextReply(Rest(old(replies))).name
      ensures var o := Cli(old(replies), old(log));
        board == o.board && replies == o.replies && log == o.log && result == o.result
    {
      InitializeGame(blackPort, whitePort);
      var start := SendStartCommand();
      if !start {
        return 255;
      }
      result := 0;
      ghost var b0, r0, l0 := board, replies, log;
      var i := 0;
      while i < 42
        invariant 0 <= i <= 42 && result == 0
        invariant this.blackPort == blackPort && this.whitePort == whitePort
        invariant blackName == NextReply(old(replies)).name && whiteName == NextReply(Rest(old(replies))).name
        invariant Turns(board, replies, log, i) == Turns(b0, r0, l0, 0)
      {
        ghost var b, rs, l := board, replies, log;
        var valid, _ := InquireNextMove();
        if !valid {
          EndGame(board.counter % 2);
          assert Outcome(board, replies, log, result) == Turns(b0, r0, l0, 0) by {
            assert Turns(b, rs, l, i) == Outcome(board, replies, log, 0);
          }
          break;
        }
        var stones := if board.counter % 2 == 0 then board.whiteStones else board.blackStones;
        if Board.CheckAlignment(stones) {
          EndGame((board.counter + 1) % 2);
          result := (board.counter + 1) % 2;
          assert Outcome(board, replies, log, result) == Turns(b0, r0, l0, 0) by {
            assert Turns(b, rs, l, i) == Outcome(board, replies, log, result);
          }
          break;
        }
        i := i + 1;
      }
      assert Outcome(board, replies, log, result) == Turns(b0, r0, l0, 0);
      if board.counter == 42 {
        EndGame(2);
        result := 2;
      }
      QuitPlayer();
    }
  }
}
