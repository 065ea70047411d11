/**
 * The records the server and the players exchange, and the board record the
 * server keeps, with Go's zero values for the fields a message leaves unset.
 */
module GameData {
  import opened GoInt

  /** A request from the server to a player. */
  datatype PlayerParam = PlayerParam(
    command: string,
    turn: bool,              // true: the player moves first (black)
    stones: uint64,          // the player's own stones
    oppStones: uint64,       // the opponent's stones
    moves: seq<uint8>,       // the columns played so far
    validMoves: seq<uint8>,  // the legal columns
    result: uint8)           // 0 win, 1 lose, 2 draw

  /** A player's reply to the server. */
  datatype PlayerRet = PlayerRet(
    command: string,
    name: string,
    ready: bool,
    move: uint8)

  /** The state of a match: both bitboards, the move history and the move counter. */
  datatype BoardData = BoardData(
    blackStones: uint64,
    whiteStones: uint64,
    moves: seq<uint8>,
    counter: uint8)

  /** A request whose only set field is its command. */
  function Param(command: string): PlayerParam {
    PlayerParam(command, false, 0, 0, [], [], 0)
  }

  /** A reply whose only set field is its command. */
  function Ret(command: string): PlayerRet {
    PlayerRet(command, [], false, 0)
  }

  /** The board of a new match. */
  const EmptyBoard: BoardData := BoardData(0, 0, [], 0)
}
