# Connect Four engine, line protocol and match loop, in Dafny

This project models the core of a Connect Four system, where a match server talks to player programs over a line protocol.

**The bitboard engine** (`voda/board/board.go`, and its Python port `player/player_py/board.py`):
- Each side's stones are one 64-bit word. Column `c` uses bits `7c .. 7c+5` for rows 0 to 5, and bit `7c+6` is a sentinel that stays zero.
- `CanMove`, `MakeMove`, `RemoveStone`, `GenValidMoves` and `CheckAlignment` are modelled on `bv64`.
  - Shift counts are computed in `uint8`, so `col*7+5` wraps mod 256.
  - A shift by 64 or more gives 0, as in Go (`GoInt.Shl`, `GoInt.Shr`).
- The Python port is modelled over unbounded naturals (module `NatBits`).
- `UintNat` relates a 64-bit word to its value as a natural, so the two engines can be compared.

**The line protocol:**
- The server encodes requests (`build_message` and its helpers) and decodes replies (`buildPlayerRet`).
- The Go player decodes requests (`decodeMessage`, `buildGoPlayerParam`) and encodes replies (`buildRetMsg`).
- The Python player splits requests on whitespace, reads them with `int()` and answers through a dispatch table.
- `Text` models the library routines they rely on:
  - `fmt`'s `%d` and Python's `str()`;
  - `strconv.Atoi` and Python's `int()`;
  - `strings.Split(s, " ")`, which keeps empty pieces;
  - Python's `str.split()`, which drops them.

**The match orchestrator** (`voda/game/game.go`):
- It is a class `Match.Game` whose fields are the board record, the ports, the players' names, a sequence of replies the players will give (an oracle standing in for the sockets) and the log of every request sent.
- `DropStone`, `InquireNextMove`, `EndGame` and the `StartCLI` turn loop update these fields as the Go methods do.
- The functions `Drop`, `Turn`, `Turns` and `Cli` specify those methods, and the lemmas about the match are proved over these functions.

## Model

| member | source | states |
|---|---|---|
| Board.GenValidMoves | voda/board/board.go:149-166 | the loop returns exactly `ValidColumns(b, w, 7)`, the columns 0..6 whose top cell is free, in ascending order |
| Board.CanMove | voda/board/board.go:57-68 | for columns 0..6 the answer is "the column's top cell is free in the union of both sides"; past the grid see CanMoveBeyondGrid and CanMoveWraps |
| Board.MakeMove | voda/board/board.go:86-106 | no contract of its own; MakeMoveAddsLowestCell pins it: on a well-formed pair and an accepted column it adds exactly the lowest free cell, and RemoveTopStoneUndoesMakeMove is its inverse |
| Board.RemoveStone | voda/board/board.go:122-132 | in every column from 1 to 6, on every pair of boards, it toggles bit col*7-1, the sentinel of the column to its left |
| Board.RemoveTopStone | voda/board/board.go:108-132 | no contract of its own; RemoveTopStoneUndoesMakeMove pins it as MakeMove's inverse in every column of a well-formed pair |
| Board.CheckAlignment | voda/board/board.go:178-202 | no contract of its own; Alignment.CheckAlignmentIffFourSpaced and Alignment.CheckAlignmentIffFourInLine pin it |
| Board.TopRowMaskIsTopCells | voda/board/board.go:155-157 | the constant 141845657554976 is the union of the top cells (row 5) of the seven columns |
| Board.ValidColumnsMembers | voda/board/board.go:149-166 | a column is listed iff it is below the bound and CanMove accepts it |
| Board.ValidColumnsAscending | voda/board/board.go:149-166 | the listed columns are below the bound and strictly ascending, so none repeats |
| Board.CanMoveIffTopFree | voda/board/board.go:57-68 | for columns 0..6, CanMove holds iff the column's top cell is free in the union of both sides |
| Board.CanMoveIffBit | voda/board/board.go:57-68 | for columns 0..6, CanMove tests exactly bit col*7+5 of the union of both sides |
| Board.CanMoveBeyondGrid | voda/board/board.go:57-68 | CanMove does not bound the column: on a board with no stone outside the grid, every column from 7 to 35 is accepted |
| Board.CanMoveWraps | voda/board/board.go:64 | `col*7+5` wraps in uint8, so column 36 tests cell (0, 1) |
| Board.ColumnShape | voda/board/board.go:28-39 | with zero sentinels and stones resting on stones, each column holds exactly its lowest Height cells |
| Board.MakeMoveAddsLowestCell | voda/board/board.go:86-106 | on a well-formed pair and a column CanMove accepts, the column's lowest free cell is below row 6 and free, and MakeMove adds exactly that one bit to the mover's stones |
| Board.MakeMoveKeepsWellFormed | voda/board/board.go:86-106 | MakeMove on an accepted column keeps the sides disjoint, the sentinels and bits 49..63 zero, and every column filled from row 0 |
| Board.MakeMoveOnFullColumn | voda/board/board.go:70-106 | on a full column CanMove refuses, and MakeMove, which checks nothing, sets the column's sentinel bit |
| Board.MakeMoveBeyondGrid | voda/board/board.go:105 | columns 7, 8 and 9 toggle bit 49, 56 or 63 of the mover's stones |
| Board.MakeMoveFarBeyondGrid | voda/board/board.go:105 | columns 10 to 35 shift the column mask out of the word, so the stones come back unchanged |
| Board.SentinelFree | voda/board/board.go:39 | on a board with no stray bits every sentinel cell is empty |
| Board.RemoveStoneUndoesMakeMoveInColumnZero | voda/board/board.go:122-132 | in column 0 RemoveStone takes back the stone MakeMove dropped, on every well-formed pair |
| Board.RemoveStoneSetsSentinel | voda/board/board.go:122-132 | in columns 1..6 RemoveStone after MakeMove sets the sentinel of the column to the left and does not restore the stones |
| Board.RemoveStoneCounterexample | voda/board/board.go:131 | one stone at (1, 0): MakeMove in column 1 gives 0x180, and RemoveStone turns that into 0x61C0 rather than 0x80 |
| Board.RemoveTopStoneUndoesMakeMove | voda/board/board.go:108-121 | the corrected RemoveTopStone, which shifts the column down before adding 1, undoes MakeMove in every column of a well-formed pair |
| Alignment.CheckAlignmentIffFourSpaced | voda/board/board.go:178-202 | CheckAlignment holds iff some four set bits p, p+d, p+2d, p+3d exist with d one of 1, 6, 7, 8 |
| Alignment.AlignedToSpaced | voda/board/board.go:178-202 | each of the four shift tests that fires exhibits four evenly spaced set bits |
| Alignment.SpacedToAligned | voda/board/board.go:178-202 | four set bits evenly spaced by 1, 6, 7 or 8 make the matching shift test fire |
| Alignment.CheckAlignmentIffFourInLine | voda/board/board.go:178-202 | on a board with zero sentinels and bits 49..63 clear, CheckAlignment holds iff four stones lie in a vertical, horizontal or diagonal line of the 6x7 grid |
| PyBoard.GenValidMoves | player/player_py/board.py:25-33 | the loop returns exactly the ascending list of columns 0..6 that can_move accepts |
| PyBoard.CanMove | player/player_py/board.py:7-10 | no contract of its own; PyBoard.CanMoveIffTopFree pins it to bit col*7+5 of the union, and PyBoard.CanMoveAgrees to Go's CanMove |
| PyBoard.MakeMove | player/player_py/board.py:13-16 | no contract of its own; PyBoard.MakeMoveKeepsLowBits, PyBoard.MakeMoveAddsLowestCell and PyBoard.MakeMoveAgrees pin it |
| PyBoard.RemoveStone | player/player_py/board.py:19-22 | no contract of its own; PyBoard.RemoveStoneToggles, PyBoard.RemoveStoneTogglesLeftSentinel and PyBoard.RemoveStoneAgrees pin it |
| PyBoard.RemoveStoneToggles | player/player_py/board.py:19-22 | on every pair of boards and every column from 1 on, remove_stone toggles bit col*7-1, the sentinel of the column to the left |
| PyBoard.CheckAlignment | player/player_py/board.py:36-42 | no contract of its own; PyBoard.CheckAlignmentIffFourSpaced and PyBoard.CheckAlignmentAgrees pin it |
| PyBoard.TopRowMaskBits | player/player_py/board.py:27 | the constant has bits 5, 12, 19, 26, 33, 40 and 47 set |
| PyBoard.TopRowTest | player/player_py/board.py:31 | the masked test of gen_valid_moves is can_move for columns 0..6 |
| PyBoard.ValidColumnsMembers | player/player_py/board.py:25-33 | a column is listed iff it is below the bound and can_move accepts it |
| PyBoard.ValidColumnsAscending | player/player_py/board.py:25-33 | the listed columns are below the bound and strictly ascending |
| PyBoard.CanMoveIffTopFree | player/player_py/board.py:7-10 | can_move tests exactly bit col*7+5 of the union, for every column number |
| PyBoard.CanMoveBeyondGrid | player/player_py/board.py:7-10 | on boards below 2^49 every column from 7 on is accepted |
| PyBoard.CheckAlignmentIffFourSpaced | player/player_py/board.py:36-42 | check_alignment holds iff four set bits are evenly spaced by 1, 6, 7 or 8, on every natural |
| PyBoard.MakeMoveKeepsLowBits | player/player_py/board.py:13-16 | make_move leaves every bit below the column untouched |
| PyBoard.RemoveStoneTogglesLeftSentinel | player/player_py/board.py:19-22 | in every column from 1 on, remove_stone after make_move toggles bit col*7-1 and so does not restore the stones |
| PyBoard.CanMoveAgrees | player/player_py/board.py:7-10 | for columns 0..6, can_move and Go's CanMove agree on every pair of 64-bit boards |
| PyBoard.MakeMoveAgrees | player/player_py/board.py:13-16 | for columns 0..6, make_move and Go's MakeMove give the same board on every pair of 64-bit boards |
| PyBoard.RemoveStoneAgrees | player/player_py/board.py:19-22 | for columns 0..4, remove_stone and Go's RemoveStone give the same board on every pair of 64-bit boards |
| PyBoard.ValidColumnsAgree | player/player_py/board.py:25-33 | gen_valid_moves and Go's GenValidMoves list the same columns on every pair of 64-bit boards |
| PyBoard.CheckAlignmentAgrees | player/player_py/board.py:36-42 | check_alignment and Go's CheckAlignment agree on every 64-bit board |
| PyBoard.CheckAlignmentIffFourInLine | player/player_py/board.py:36-42 | on a board with no stray bits, check_alignment finds exactly four stones in a line of the grid |
| PyBoard.MakeMoveAddsLowestCell | player/player_py/board.py:13-16 | on a well-formed pair and an accepted column, make_move adds exactly the column's lowest free cell |
| PyBoard.RemoveStoneUndoesMakeMoveInColumnZero | player/player_py/board.py:19-22 | in column 0, remove_stone takes back what make_move dropped on a well-formed pair |
| PyBoard.CanMoveBeyondWord | player/player_py/board.py:7-10 | for 64-bit boards can_move accepts every column from 9 on |
| PyBoard.CanMoveDivergesAt36 | player/player_py/board.py:9 | column 36 tells the engines apart: Python tests bit 257 while Go's uint8 arithmetic tests cell (0, 1) |
| PyBoard.MakeMoveDivergesBeyondGrid | player/player_py/board.py:13-16 | in columns 10 to 35 Go returns the stones unchanged while make_move sets bit col*7, past the 64-bit word |
| PyBoard.RemoveStoneDivergesInColumnFive | player/player_py/board.py:19-22 | on a legal board with one stone at the foot of column 5, Python keeps bit 69 that Go shifts out, so the two disagree |
| Text.Decimal | voda/game/connector.go:197-198 | `%d` of a natural is a non-empty digit string without a leading zero whose value is the number |
| Text.DecimalOfValue | voda/game/connector.go:197-198 | every digit string without a leading zero is the `%d` of its value |
| Text.Atoi | voda/game/connector.go:259 | an accepted string is non-empty and its value fits a 64-bit int |
| Text.AtoiDecimal | voda/game/connector.go:259 | Atoi reads back the decimal of every natural up to 2^63-1 |
| Text.AtoiPyStr | voda/game/connector.go:259 | Atoi reads back Python's `str()` of every value in int range, sign included |
| Text.PyStr | player/player_py/play.py:53 | `str()` writes a minus sign exactly for negative values, then digits whose value is the magnitude |
| Text.AtoiChar | player/player_go/connector/connector.go:155-160 | Atoi of one character succeeds exactly on the ten ASCII digits, with the digit's value |
| Text.AtoiRejects | voda/game/connector.go:259-262 | "x", "3\n", "" and "-" are Atoi errors |
| Text.AtoiOverflow | voda/game/connector.go:259-262 | decimals of 2^63 and beyond are Atoi errors |
| Text.GoSplit | voda/game/connector.go:244 | `strings.Split(s, " ")` gives at least one piece, no piece holds a space, and joining the pieces with spaces gives back `s` |
| Text.GoSplitJoin | voda/game/connector.go:244 | splitting space-free pieces joined by single spaces recovers them, empty ones included |
| Text.Join | voda/game/connector.go:211 | no contract of its own; it is the inverse of `strings.Split(s, " ")`: GoSplit's contract gives Join(GoSplit(s)) == s and Text.GoSplitJoin the other direction |
| Text.PySplit | player/player_py/play.py:13 | `split()` gives non-empty, whitespace-free words, and the first word starts with the first character when that is not whitespace |
| Text.PySplitJoin | player/player_py/play.py:38 | splitting space-free pieces joined by single spaces recovers only the non-empty ones |
| Text.PyIntDecimal | player/player_py/play.py:40-41 | `int()` reads back `str()` of every natural |
| Text.PyInt | player/player_py/play.py:40-42 | an accepted string is non-empty once stripped; Text.PyIntPyStr, Text.PyIntChar and Text.PyIntLenient pin what it accepts |
| Text.PyIntPyStr | player/player_py/play.py:40-41 | `int()` reads back `str()` of every int, negative ones included |
| Text.PyIntNegative | player/player_py/play.py:40-41 | a minus sign followed by digits reads as the negated value of the digits |
| Text.PyIntChar | player/player_py/play.py:42 | `int()` of one character succeeds exactly on the ASCII digits, with the digit's value |
| Text.PyIntLenient | player/player_py/play.py:40-41 | `int()` accepts a trailing newline and digit-group underscores that Atoi rejects |
| ServerConnector.ListStr | voda/game/connector.go:206-207 | a column list is written as digits only, and empty exactly when the list is |
| ServerConnector.ListStrDigits | voda/game/connector.go:206-207 | a list of columns below 10 is written one digit character per column, in order |
| ServerConnector.ListStrAmbiguous | voda/game/connector.go:206-207 | columns of two digits make different lists share a spelling: [1, 0] and [10] both give "10" |
| ServerConnector.TurnStr | voda/game/connector.go:171-178 | the side word is "black" exactly when Turn is set and "white" otherwise |
| ServerConnector.GoWords | voda/game/connector.go:195-211 | a `go` request carries four digit words |
| ServerConnector.GoMsgParam | voda/game/connector.go:195-211 | no contract of its own; ServerConnector.GoMsgParamSplits splits it back into GoWords' four words, in order |
| ServerConnector.GoMsgParamSplits | voda/game/connector.go:195-211 | the `go` arguments split on single spaces into exactly stones, opponent's stones, valid moves, history, in that order |
| ServerConnector.ResultStr | voda/game/connector.go:223-230 | results 0, 1 and 2 are written win, lose and draw; any other gives the empty word |
| ServerConnector.BuildMessage | voda/game/connector.go:138-159 | the flag is set iff the command is name, start, go, end or quit; otherwise the message is empty |
| ServerConnector.MessageLeadsWithCommand | voda/game/connector.go:138-159 | every message of a known command has that command as its first space-separated word |
| ServerConnector.EndWithoutResult | voda/game/connector.go:151-152 | an out-of-range result gives the message "end " with an empty second word |
| ServerConnector.BuildPlayerRet | voda/game/connector.go:242-269 | the first word is the command; only that command's own field is set; `setname` or `move` without a second word panics (None) |
| ServerConnector.MoveJunkReadsAsZero | voda/game/connector.go:258-262 | a move argument Atoi rejects leaves the move at 0 |
| ServerConnector.MoveTruncates | voda/game/connector.go:258-262 | a move in int range is kept as its low 8 bits: 300 reads as 44 and -1 as 255 |
| ServerConnector.MoveReadsAtoi | voda/game/connector.go:258-262 | a space-free move argument that Atoi reads as v sets the move to v's low 8 bits |
| ServerConnector.MoveOverflowReadsAsZero | voda/game/connector.go:258-262 | a move beyond int range reads as 0 |
| ServerConnector.MissingArgumentPanics | voda/game/connector.go:254-259 | "setname" and "move" without an argument index past the words |
| PlayerConnector.CharMove | player/player_go/connector/connector.go:155-160 | one character of a list gives its digit value, or nothing when Atoi rejects it |
| PlayerConnector.DigitMoves | player/player_go/connector/connector.go:155-168 | a list word gives at most one column per character, each below 10 |
| PlayerConnector.DigitMovesOfDigits | player/player_go/connector/connector.go:155-168 | on a word of digits every character gives its value, in order |
| PlayerConnector.DigitMovesSkips | player/player_go/connector/connector.go:155-160 | non-digit characters are skipped rather than rejected |
| PlayerConnector.BoardWord | player/player_go/connector/connector.go:149-152 | a bitboard word that Atoi rejects reads as 0 |
| PlayerConnector.GoParam | player/player_go/connector/connector.go:139-176 | the decoded `go` request has command go, valid moves from the third word and history from the fourth |
| PlayerConnector.BuildGoPlayerParam | player/player_go/connector/connector.go:139-176 | the character loops build exactly GoParam of the words |
| PlayerConnector.CollectMoves | player/player_go/connector/connector.go:155-160 | the loop over a word's characters collects exactly DigitMoves of the word |
| PlayerConnector.DecodeMessage | player/player_go/connector/connector.go:63-100 | the first word is the command; start sets Turn iff the side word is "black"; go decodes its four arguments as GoParam does; end maps win/lose/draw to 0/1/2 and anything else to 255; a missing argument panics (None) |
| PlayerConnector.BuildRetMsg | player/player_go/connector/connector.go:112-127 | the reply is empty exactly for commands other than setname, ready, move and bye |
| PlayerConnector.BoardWordDecimal | player/player_go/connector/connector.go:149-152 | a bitboard below 2^63 is read back exactly |
| PlayerConnector.BoardWordBit63 | player/player_go/connector/connector.go:149-152 | a bitboard with bit 63 set overflows Atoi and is read as 0 |
| PlayerConnector.DigitMovesListStr | player/player_go/connector/connector.go:155-168 | a list of single-digit columns written by the server is read back exactly |
| PlayerConnector.GoRoundTrip | player/player_go/connector/connector.go:86-87 | an encodable `go` request is decoded to its bitboards, valid moves and history |
| PlayerConnector.StartRoundTrip | player/player_go/connector/connector.go:78-85 | every `start` request is decoded with its side |
| PlayerConnector.EndRoundTrip | player/player_go/connector/connector.go:88-96 | an `end` request with result 0..2 is decoded with its result |
| PlayerConnector.RequestRoundTrip | player/player_go/connector/connector.go:63-100 | every encodable request is encoded and decodes to its command and that command's own fields |
| PlayerConnector.EndOutOfRange | player/player_go/connector/connector.go:88-96 | an out-of-range result reaches the player as 255 |
| PlayerConnector.ReplyRoundTrip | player/player_go/connector/connector.go:112-127 | every reply (a setname name without spaces) decodes on the server to its command and its own field; an unknown command comes back as the empty command |
| PlayerConnector.SetnameRoundTrip | player/player_go/connector/connector.go:116-117 | a name without spaces reaches the server intact |
| PlayerConnector.MoveRoundTrip | player/player_go/connector/connector.go:120-121 | every move column reaches the server intact |
| PlayerConnector.NameWithSpaceTruncated | player/player_go/connector/connector.go:116-117 | a name with a space reaches the server cut at the space |
| PyPlay.RetPlayerName | player/player_py/play.py:33-34 | the reply's first word is setname |
| PyPlay.NameReachesServer | player/player_py/play.py:33-34 | a name without spaces is read by the server as that name |
| PyPlay.PyDigitList | player/player_py/play.py:42 | a list word is read iff every character is a digit, one value per character |
| PyPlay.DecodeGo | player/player_py/play.py:37-48 | a decoded request had at least four words, and exactly four means an empty history |
| PyPlay.BuildNextMoveResponse | player/player_py/play.py:37-53 | the reply exists iff the request decodes, and is "move " and `str()` of the player function's column on the decoded stones, opponent's stones, valid moves and history |
| PyPlay.Dispatch | player/player_py/play.py:13-27 | a message without words raises; quit stops; start, end and name get ready, bye and the setname reply; go gets the move reply; anything else re-sends the previous reply or raises |
| PyPlay.GoMessageWords | player/player_py/play.py:38 | Python sees the server's `go` message as go, the two bitboards, then valid moves and history, each only when non-empty |
| PyPlay.PyDigitListListStr | player/player_py/play.py:42 | a list of single-digit columns written by the server is read back exactly |
| PyPlay.GoRequestReadByPython | player/player_py/play.py:37-48 | with at least one valid move, the bitboards (at any size), valid moves and history are read exactly |
| PyPlay.EmptyValidMovesMisread | player/player_py/play.py:42-48 | with no valid moves but a history, the history is read as the valid moves and the history as empty |
| PyPlay.EmptyListsRaise | player/player_py/play.py:38-42 | with neither valid moves nor history only three words arrive and the decoder raises |
| PyPlay.MoveReachesServer | player/player_py/play.py:51-53 | a `go` request with valid moves is answered with the player function's column, which the server reads as its low 8 bits |
| PyPlay.RequestsAnswered | player/player_py/play.py:13-27 | the server's name, start, end and quit requests get the setname reply, ready, bye, and stop |
| Match.GoRequest | voda/game/game.go:281-309 | the `go` request carries the mover's stones, the opponent's stones and the history |
| Match.GoRequestOffersLegalColumns | voda/game/game.go:303-309 | its valid moves are exactly the columns 0..6 CanMove accepts, ascending |
| Match.Drop | voda/game/game.go:314-336 | the counter advances and the move joins the history whatever it is; the flag is CanMove of the move |
| Match.DropStones | voda/game/game.go:321-335 | a rejected move leaves both bitboards; an accepted one replaces only the mover's, by MakeMove |
| Match.DropKeepsHistoryLength | voda/game/game.go:317-319 | the history keeps one entry per counted move, rejected moves included, while the counter does not wrap |
| Match.DropKeepsWellFormed | voda/game/game.go:314-336 | a move into the grid keeps a reachable position reachable, accepted or not |
| Match.DropBeyondGrid | voda/game/game.go:321-333 | columns 7..35 are accepted: 7, 8, 9 set bit 49, 56 or 63 of the mover's stones, and 10..35 change nothing but counter and history |
| Match.CanMoveSymmetric | voda/board/board.go:57-68 | CanMove depends only on the union of the two sides |
| Match.EndResults | voda/game/game.go:354-366 | black and white get different results among win and lose; black wins iff the argument is 0 |
| Match.EndNeverAnnouncesDraw | voda/game/game.go:354-375 | the `end` messages are "end win" and "end lose", so the draw endGame(2) is announced as a white win |
| Match.Turn | voda/game/game.go:60-90 | one iteration drops the requested move and stops exactly when the move is rejected or aligns four of the mover's stones; a rejected move leaves result 0, result 1 only follows a white alignment on an even counter, and when the loop goes on exactly one reply is read and only the `go` request is logged |
| Match.TurnsContinues | voda/game/game.go:72-90 | an accepted move that aligns nothing neither breaks nor ends the match: the loop goes on from the dropped board with the next reply and iteration i+1 |
| Match.TurnsCount | voda/game/game.go:60-91 | the loop ends with between its start and 42 moves, each in the history |
| Match.Cli | voda/game/game.go:41-118 | StartCLI returns 0, 1, 2 or 255, and 255 exactly when a player does not answer `ready` |
| Match.Turns | voda/game/game.go:58-97 | the loop's result is 0 or 1, and 1 only when white has just aligned four on an even counter |
| Match.CliResult | voda/game/game.go:41-118 | when both players are ready, 1..42 moves are recorded, the result is 2 iff 42 were made, even after a win on the last move, and 1 only after a white alignment |
| Match.RejectedMoveReportsZero | voda/game/game.go:72-77 | a rejected move sends `end` to both players with the opponent as winner, yet the result stays 0 |
| Match.AlignmentWins | voda/game/game.go:79-90 | an accepted move that aligns four of the mover's stones ends the loop with the mover as winner |
| Match.Game.constructor | voda/game/game_data.go:7-23 | a zero Game: empty board, no ports, no names, the given replies and an empty log |
| Match.Game.SendMessage | voda/game/connector.go:118-125 | the request is logged for its side and the next reply is consumed and returned; nothing else changes |
| Match.Game.InitializeBoard | voda/game/game.go:147-155 | the board becomes the empty board |
| Match.Game.InitializeGame | voda/game/game.go:132-141 | empty board, the ports stored, and each present side asked its name in turn |
| Match.Game.InquirePlayerName | voda/game/game.go:210-226 | each present side is asked its name, black first; an absent side's name is empty |
| Match.Game.SendStartCommand | voda/game/game.go:243-261 | each present side is told its turn; the result is whether every present side answered ready; the board is unchanged |
| Match.Game.InquireNextMove | voda/game/game.go:281-312 | the mover is sent its `go` request and the answered column is dropped as Drop says |
| Match.Game.DropStone | voda/game/game.go:314-336 | the board becomes Drop's, and the move is returned with Drop's flag |
| Match.Game.EndGame | voda/game/game.go:354-375 | each present side is sent its result from EndResults and answers |
| Match.Game.QuitPlayer | voda/game/game.go:381-389 | each present side is sent `quit`; no reply is read |
| Match.Game.StartCLI | voda/game/game.go:41-118 | the loop leaves board, replies, log and result as Cli describes, with the ports and names set |

## Left out

- Sockets, goroutines, channels and the WaitGroup are not modelled. This covers `connectToPlayer`, `initializeConnection` (only the ports are stored), `ConnectToGame` and the socket loop of `play`.
  - A player's replies are an input sequence, and the requests sent are a log.
  - When the sequence is exhausted the next reply is Go's zero reply.
- Printing is left out: `PrintBoard`, `print_board`, the show_board and show_result output, and the connectors' log lines.
- `voda/game/game_browser.go` and `voda/game/asset/script.js` are not part of this model. They are a web front end and use floating point.
- The random players and the command-line entry points are not part of this model.
- Message framing and the 1024-byte reads are not modelled.
- Python integers are modelled as naturals, so negative bitboards are not covered. `isspace()` is modelled on its full character set, but `int()` reads only ASCII digits, not the other Unicode decimal digits Python also accepts.
- Match.Game.StartCLI: requires both ports to be set. With a port of 0, Go would block forever on the absent player's nil channel once the first move is requested.
- Match.Game.InquireNextMove: requires the mover's port to be set, for the same reason.
- Match.Game.QuitPlayer: the Go code sends `quit` from a new goroutine and never reads a reply. The model logs the request and consumes no reply.
- PyBoard.RemoveStoneAgrees: stated only for columns 0..4. From column 5 on, Go's shift drops bits that Python keeps (PyBoard.RemoveStoneDivergesInColumnFive).
- PlayerConnector.BuildGoPlayerParam: requires four words, since the source indexes past a shorter list. PlayerConnector.DecodeMessage models that failure as None.

## Findings

| source | as written | input that shows it | evidently intended | confidence | as-written member | corrected member |
|---|---|---|---|---|---|---|
| voda/board/board.go:131 | RemoveStone adds 1 to the masked column without first shifting it down to bit 0, then shifts it up by col*7 again, so the removal mask lands in the wrong place in every column but 0 | one black stone at (1, 0), board 0x80: MakeMove in column 1 gives 0x180, and RemoveStone then gives 0x61C0 instead of 0x80 | shift the masked column down first, as MakeMove does at line 105, then add 1, shift back and halve, so the top stone of the column is cleared | not executed | Board.RemoveStoneCounterexample | Board.RemoveTopStoneUndoesMakeMove |
