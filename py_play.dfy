/**
 * The Python player's protocol handling: the command dispatch of its receive
 * loop, the name reply, and the `go` decoder that calls the player function.
 * A Python exception is modelled as None (or the Raise step); the player
 * function is a parameter.
 */
module PyPlay {
  import opened Wrappers
  import opened GoInt
  import opened Text
  import opened GameData
  import ServerConnector

  /** `player_func(stones, opp_stones, valid_moves, moves)`, returning the column to play. */
  type PlayerFunc = (int, int, seq<int>, seq<int>) -> int

  /** The columns of a list as Python ints. */
  function Ints(xs: seq<uint8>): (ys: seq<int>)
    ensures |ys| == |xs| && forall i :: 0 <= i < |xs| ==> ys[i] == xs[i] as int
  {
    seq(|xs|, i requires 0 <= i < |xs| => xs[i] as int)
  }

  /** ret_player_name. */
  function RetPlayerName(name: string): (s: string)
    ensures GoSplit(s)[0] == "setname"
  {
    assert "setname " + name == "setname" + " " + name;
    GoSplitCons("setname", name);
    "setname " + name
  }

  /** A name without spaces reaches the server intact. */
  lemma NameReachesServer(name: string)
    requires NoSpace(name)
    ensures ServerConnector.BuildPlayerRet(RetPlayerName(name)) == Some(Ret("setname").(name := name))
  {
    assert GoSplit(RetPlayerName(name)) == ["setname", name] by {
      assert RetPlayerName(name) == "setname" + " " + name;
      GoSplitCons("setname", name);
      GoSplitNoSpace(name);
    }
  }

  /** `list(map(int, list(w)))`: every character must be a digit, or int() raises. */
  function PyDigitList(w: string): (r: Option<seq<int>>)
    ensures r.Some? <==> AllDigits(w)
    ensures r.Some? ==> |r.value| == |w| && forall i :: 0 <= i < |w| ==> r.value[i] == DigitValue(w[i])
  {
    if w == [] then Some([])
    else
      PyIntChar(w[0]);
      match PyInt([w[0]])
      case None => None
      case Some(v) =>
        match PyDigitList(w[1..])
        case None => None
        case Some(vs) => Some([v] + vs)
  }

  /** The arguments build_next_move_response passes to the player function. */
  datatype GoArgs = GoArgs(stones: int, oppStones: int, validMoves: seq<int>, moves: seq<int>)

  /**
   * The argument part of build_next_move_response: the words after the
   * command; stones and opponent's stones through int(), valid moves one
   * digit per character, and the history likewise unless exactly three words
   * remain. A missing word or a bad character raises, modelled as None.
   */
  function DecodeGo(msg: string): (r: Option<GoArgs>)
    ensures r.Some? ==> |PySplit(msg)| >= 4
    ensures r.Some? && |PySplit(msg)| == 4 ==> r.value.moves == []
  {
    DecodeWords(PySplit(msg))
  }

  /** The decoding of the split message's words, the command word first. */
  function DecodeWords(words: seq<string>): (r: Option<GoArgs>)
    ensures r.Some? ==> |words| >= 4
    ensures r.Some? && |words| == 4 ==> r.value.moves == []
  {
    var params := if |words| == 0 then [] else words[1..];
    if |params| < 3 then None
    else
      var stones := PyInt(params[0]);
      var oppStones := PyInt(params[1]);
      var validMoves := PyDigitList(params[2]);
      var moves := if |params| == 3 then Some([]) else PyDigitList(params[3]);
      if stones.None? || oppStones.None? || validMoves.None? || moves.None? then None
      else Some(GoArgs(stones.value, oppStones.value, validMoves.value, moves.value))
  }

  /** build_next_move_response: "move " followed by the player function's column. */
  function BuildNextMoveResponse(msg: string, playerFunc: PlayerFunc): (r: Option<string>)
    ensures r.Some? <==> DecodeGo(msg).Some?
    ensures r.Some? ==> var a := DecodeGo(msg).value;
      r.value == "move " + PyStr(playerFunc(a.stones, a.oppStones, a.validMoves, a.moves))
  {
    match DecodeGo(msg)
    case None => None
    case Some(a) => Some("move " + PyStr(playerFunc(a.stones, a.oppStones, a.validMoves, a.moves)))
  }

  /** One turn of the player's receive loop. */
  datatype Step =
    | Send(reply: string)  // the reply sent back to the server
    | Stop                 // `quit`: the loop ends without a reply
    | Raise                // a Python exception ends the player

  /**
   * The dispatch on a message's first word. An unknown command re-sends the
   * previous reply `prev`, and raises when there is none yet; so does a
   * message without any word.
   */
  function Dispatch(msg: string, name: string, playerFunc: PlayerFunc, prev: Option<string>): (s: Step)
    ensures PySplit(msg) == [] ==> s == Raise
    ensures PySplit(msg) != [] && PySplit(msg)[0] == "quit" ==> s == Stop
    ensures PySplit(msg) != [] && PySplit(msg)[0] == "start" ==> s == Send("ready")
    ensures PySplit(msg) != [] && PySplit(msg)[0] == "end" ==> s == Send("bye")
    ensures PySplit(msg) != [] && PySplit(msg)[0] == "name" ==> s == Send(RetPlayerName(name))
    ensures PySplit(msg) != [] && PySplit(msg)[0] == "go" ==>
      s == (match BuildNextMoveResponse(msg, playerFunc) case Some(r) => Send(r) case None => Raise)
    ensures PySplit(msg) != [] && !(PySplit(msg)[0] in {"quit", "start", "end", "name", "go"}) ==>
      s == (match prev case Some(r) => Send(r) case None => Raise)
  {
    var words := PySplit(msg);
    if words == [] then Raise
    else
      match words[0]
      case "name" => Send(RetPlayerName(name))
      case "go" =>
        (match BuildNextMoveResponse(msg, playerFunc)
         case Some(r) => Send(r)
         case None => Raise)
      case "start" => Send("ready")
      case "end" => Send("bye")
      case "quit" => Stop
      case _ =>
        (match prev
         case Some(r) => Send(r)
         case None => Raise)
  }

  // ---------------------------------------------------------------------------
  // The server's requests as the Python player reads them.

  /** The word list Python keeps of one piece: nothing for an empty piece. */
  function Word(x: string): seq<string> {
    if x == [] then [] else [x]
  }

  lemma Join4(a: string, b: string, c: string, d: string)
    ensures Join([a, b, c, d]) == a + " " + (b + " " + (c + " " + d))
  {
    assert Join([c, d]) == c + " " + d by {
      assert [c, d][1..] == [d];
    }
    assert Join([b, c, d]) == b + " " + Join([c, d]) by {
      assert [b, c, d][1..] == [c, d];
    }
    assert Join([a, b, c, d]) == a + " " + Join([b, c, d]) by {
      assert [a, b, c, d][1..] == [b, c, d];
    }
  }

  /** Python's split of two space-free pieces joined by a space: each piece that is not empty. */
  lemma SplitLastTwo(x: string, y: string)
    requires NoPySpace(x) && NoPySpace(y)
    ensures PySplit(x + " " + y) == Word(x) + Word(y)
  {
    PySplitWord(x, y);
    PySplitNoSpace(y);
  }

  /** A non-empty space-free word before a space is split off as the first word. */
  lemma SplitFront(a: string, r: string, rest: seq<string>)
    requires |a| >= 1 && NoPySpace(a) && PySplit(r) == rest
    ensures PySplit(a + " " + r) == [a] + rest
  {
    PySplitWord(a, r);
  }

  lemma ConsThree(c: string, a: string, b: string, u: seq<string>, v: seq<string>)
    ensures [c] + ([a] + ([b] + (u + v))) == [c, a, b] + u + v
  {
  }

  /** Python's split of a command and four space-free words, the first two non-empty. */
  lemma SplitFiveWords(c: string, a: string, b: string, x: string, y: string)
    requires |c| >= 1 && |a| >= 1 && |b| >= 1
    requires NoPySpace(c) && NoPySpace(a) && NoPySpace(b) && NoPySpace(x) && NoPySpace(y)
    ensures PySplit(c + " " + (a + " " + (b + " " + (x + " " + y)))) == [c, a, b] + Word(x) + Word(y)
  {
    var r3 := x + " " + y;
    var r2 := b + " " + r3;
    var r1 := a + " " + r2;
    var w := Word(x) + Word(y);
    SplitLastTwo(x, y);
    SplitFront(b, r3, w);
    SplitFront(a, r2, [b] + w);
    SplitFront(c, r1, [a] + ([b] + w));
    ConsThree(c, a, b, Word(x), Word(y));
  }

  /**
   * Python sees the server's `go` message as "go", the two bitboards, and then
   * the valid moves and the history, each only when non-empty.
   */
  lemma GoMessageWords(p: PlayerParam)
    requires p.command == "go"
    ensures var ws := ServerConnector.GoWords(p);
      PySplit(ServerConnector.BuildMessage(p).1) == ["go", ws[0], ws[1]] + Word(ws[2]) + Word(ws[3])
  {
    var ws := ServerConnector.GoWords(p);
    var a, b, x, y := ws[0], ws[1], ws[2], ws[3];
    assert NoPySpace(a) && NoPySpace(b) && NoPySpace(x) && NoPySpace(y) by {
      ServerConnector.AllDigitsNoSpace(a);
      ServerConnector.AllDigitsNoSpace(b);
      ServerConnector.AllDigitsNoSpace(x);
      ServerConnector.AllDigitsNoSpace(y);
    }
    assert ServerConnector.BuildMessage(p).1 == "go" + " " + (a + " " + (b + " " + (x + " " + y))) by {
      Join4(a, b, x, y);
      assert [a, b, x, y] == ws;
    }
    assert NoPySpace("go");
    SplitFiveWords("go", a, b, x, y);
  }

  lemma PyDigitListListStr(xs: seq<uint8>)
    requires forall i :: 0 <= i < |xs| ==> xs[i] < 10
    ensures PyDigitList(ServerConnector.ListStr(xs)) == Some(Ints(xs))
  {
    var s := ServerConnector.ListStr(xs);
    ServerConnector.ListStrDigits(xs);
    var r := PyDigitList(s);
    assert r.Some? && |r.value| == |xs|;
    forall i | 0 <= i < |xs|
      ensures r.value[i] == xs[i] as int
    {
      assert s[i] == DigitChar(xs[i] as nat);
    }
    assert r.value == Ints(xs);
  }

  /** The `go` decoder on "go" and four argument words, each of which Python can convert. */
  lemma DecodeArgWords(a: string, b: string, x: string, y: string,
                       sa: int, sb: int, vx: seq<int>, vy: seq<int>)
    requires x != []
    requires PyInt(a) == Some(sa) && PyInt(b) == Some(sb)
    requires PyDigitList(x) == Some(vx) && PyDigitList(y) == Some(vy)
    ensures DecodeWords(["go", a, b] + Word(x) + Word(y)) == Some(GoArgs(sa, sb, vx, vy))
  {
    if y == [] {
      assert vy == [] by {
        assert PyDigitList(y) == Some([]);
      }
      WordsOfFour(a, b, x, y);
      DecodeFour(a, b, x, sa, sb, vx);
    } else {
      WordsOfFive(a, b, x, y);
      DecodeFive(a, b, x, y, sa, sb, vx, vy);
    }
  }

  lemma DecodeFour(a: string, b: string, x: string, sa: int, sb: int, vx: seq<int>)
    requires PyInt(a) == Some(sa) && PyInt(b) == Some(sb) && PyDigitList(x) == Some(vx)
    ensures DecodeWords(["go", a, b, x]) == Some(GoArgs(sa, sb, vx, []))
  {
    DecodeConvertible(["go", a, b, x], sa, sb, vx, []);
  }

  lemma DecodeFive(a: string, b: string, x: string, y: string, sa: int, sb: int, vx: seq<int>, vy: seq<int>)
    requires PyInt(a) == Some(sa) && PyInt(b) == Some(sb) && PyDigitList(x) == Some(vx) && PyDigitList(y) == Some(vy)
    ensures DecodeWords(["go", a, b, x, y]) == Some(GoArgs(sa, sb, vx, vy))
  {
    DecodeConvertible(["go", a, b, x, y], sa, sb, vx, vy);
  }

  lemma WordsOfFour(a: string, b: string, x: string, y: string)
    requires x != [] && y == []
    ensures ["go", a, b] + Word(x) + Word(y) == ["go", a, b, x]
  {
  }

  lemma WordsOfFive(a: string, b: string, x: string, y: string)
    requires x != [] && y != []
    ensures ["go", a, b] + Word(x) + Word(y) == ["go", a, b, x, y]
  {
  }

  lemma DecodeConvertible(words: seq<string>, sa: int, sb: int, vx: seq<int>, vy: seq<int>)
    requires |words| == 4 || |words| == 5
    requires PyInt(words[1]) == Some(sa) && PyInt(words[2]) == Some(sb) && PyDigitList(words[3]) == Some(vx)
    requires |words| == 4 ==> vy == []
    requires |words| == 5 ==> PyDigitList(words[4]) == Some(vy)
    ensures DecodeWords(words) == Some(GoArgs(sa, sb, vx, vy))
  {
    var params := words[1..];
    assert params[0] == words[1] && params[1] == words[2] && params[2] == words[3];
    if |words| == 5 {
      assert params[3] == words[4];
    }
  }

  /**
   * With at least one valid move, the Python player reads a `go` request's
   * bitboards (at any size), valid moves and history exactly; an empty
   * history is the three-word case.
   */
  lemma GoRequestReadByPython(p: PlayerParam)
    requires p.command == "go" && |p.validMoves| >= 1
    requires forall i :: 0 <= i < |p.validMoves| ==> p.validMoves[i] < 10
    requires forall i :: 0 <= i < |p.moves| ==> p.moves[i] < 10
    ensures DecodeGo(ServerConnector.BuildMessage(p).1)
            == Some(GoArgs(p.stones as int, p.oppStones as int, Ints(p.validMoves), Ints(p.moves)))
  {
    var ws := ServerConnector.GoWords(p);
    GoMessageWords(p);
    assert PyInt(ws[0]) == Some(p.stones as int) by {
      PyIntDecimal(p.stones as nat);
    }
    assert PyInt(ws[1]) == Some(p.oppStones as int) by {
      PyIntDecimal(p.oppStones as nat);
    }
    assert PyDigitList(ws[2]) == Some(Ints(p.validMoves)) by {
      PyDigitListListStr(p.validMoves);
    }
    assert PyDigitList(ws[3]) == Some(Ints(p.moves)) by {
      PyDigitListListStr(p.moves);
    }
    assert ws[2] != [];
    DecodeArgWords(ws[0], ws[1], ws[2], ws[3],
                   p.stones as int, p.oppStones as int, Ints(p.validMoves), Ints(p.moves));
  }

  /**
   * With no valid moves but a non-empty history, the history slides into the
   * valid-move position: the player function sees the history as its valid
   * moves and an empty history.
   */
  lemma EmptyValidMovesMisread(p: PlayerParam)
    requires p.command == "go" && p.validMoves == [] && |p.moves| >= 1
    requires forall i :: 0 <= i < |p.moves| ==> p.moves[i] < 10
    ensures DecodeGo(ServerConnector.BuildMessage(p).1)
            == Some(GoArgs(p.stones as int, p.oppStones as int, Ints(p.moves), []))
  {
    var ws := ServerConnector.GoWords(p);
    GoMessageWords(p);
    assert PyInt(ws[0]) == Some(p.stones as int) by {
      PyIntDecimal(p.stones as nat);
    }
    assert PyInt(ws[1]) == Some(p.oppStones as int) by {
      PyIntDecimal(p.oppStones as nat);
    }
    assert PyDigitList(ws[3]) == Some(Ints(p.moves)) by {
      PyDigitListListStr(p.moves);
    }
    assert ws[2] == [] && ws[3] != [];
    SlideWord(ws[0], ws[1], ws[2], ws[3]);
    DecodeArgWords(ws[0], ws[1], ws[3], [],
                   p.stones as int, p.oppStones as int, Ints(p.moves), []);
  }

  lemma SlideWord(a: string, b: string, x: string, y: string)
    requires x == []
    ensures ["go", a, b] + Word(x) + Word(y) == ["go", a, b] + Word(y) + Word([])
  {
  }

  /** With neither valid moves nor history, only three words arrive and the decoder raises. */
  lemma EmptyListsRaise(p: PlayerParam)
    requires p.command == "go" && p.validMoves == [] && p.moves == []
    ensures DecodeGo(ServerConnector.BuildMessage(p).1) == None
  {
    GoMessageWords(p);
  }

  /**
   * A `go` request with valid moves is answered with the player function's
   * column, which the server reads back as its low 8 bits.
   */
  lemma MoveReachesServer(p: PlayerParam, playerFunc: PlayerFunc)
    requires p.command == "go" && |p.validMoves| >= 1
    requires forall i :: 0 <= i < |p.validMoves| ==> p.validMoves[i] < 10
    requires forall i :: 0 <= i < |p.moves| ==> p.moves[i] < 10
    requires var v := playerFunc(p.stones as int, p.oppStones as int, Ints(p.validMoves), Ints(p.moves));
      MinInt64 <= v <= MaxInt64
    ensures var v := playerFunc(p.stones as int, p.oppStones as int, Ints(p.validMoves), Ints(p.moves));
      var r := BuildNextMoveResponse(ServerConnector.BuildMessage(p).1, playerFunc);
      r.Some? && ServerConnector.BuildPlayerRet(r.value) == Some(Ret("move").(move := Uint8Of(v)))
  {
    GoRequestReadByPython(p);
    var v := playerFunc(p.stones as int, p.oppStones as int, Ints(p.validMoves), Ints(p.moves));
    ServerConnector.MoveTruncates(v);
  }

  /** Every request but `go` and `quit` gets its fixed reply, and `quit` stops the player. */
  lemma RequestsAnswered(p: PlayerParam, name: string, playerFunc: PlayerFunc, prev: Option<string>)
    requires p.command in {"name", "start", "end", "quit"}
    ensures var s := Dispatch(ServerConnector.BuildMessage(p).1, name, playerFunc, prev);
      s == (match p.command
            case "name" => Send(RetPlayerName(name))
            case "start" => Send("ready")
            case "end" => Send("bye")
            case _ => Stop)
  {
    var c := p.command;
    var msg := ServerConnector.BuildMessage(p).1;
    assert PySplit(msg) != [] && PySplit(msg)[0] == c by {
      assert NoPySpace(c);
      if c == "start" {
        assert msg == c + " " + ServerConnector.TurnStr(p);
        PySplitWord(c, ServerConnector.TurnStr(p));
      } else if c == "end" {
        assert msg == c + " " + ServerConnector.ResultStr(p);
        PySplitWord(c, ServerConnector.ResultStr(p));
      } else {
        PySplitNoSpace(c);
      }
    }
  }
}
