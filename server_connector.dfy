/**
 * The server's side of the line protocol: requests are rendered as
 * space-separated words, and a player's reply is split on single spaces and
 * read back into a PlayerRet.
 */
module ServerConnector {
  import opened Wrappers
  import opened GoInt
  import opened Text
  import opened GameData

  /**
   * A list of columns as the server writes it: `fmt.Sprint` of the slice with
   * its spaces removed and the brackets trimmed, i.e. the elements' decimals
   * run together (and "" for an empty list).
   */
  function ListStr(xs: seq<uint8>): (s: string)
    ensures AllDigits(s)
    ensures xs == [] <==> s == []
  {
    if xs == [] then [] else Decimal(xs[0] as nat) + ListStr(xs[1..])
  }

  /** A list of single-digit columns is written one character per column. */
  lemma {:induction false} ListStrDigits(xs: seq<uint8>)
    requires forall i :: 0 <= i < |xs| ==> xs[i] < 10
    ensures |ListStr(xs)| == |xs|
    ensures forall i :: 0 <= i < |xs| ==> ListStr(xs)[i] == DigitChar(xs[i] as nat)
  {
    if xs != [] {
      ListStrDigits(xs[1..]);
    }
  }

  /** Columns 10 and up take several characters, so different lists can share a spelling. */
  lemma ListStrAmbiguous()
    ensures ListStr([1, 0]) == ListStr([10])
  {
    assert ListStr([1, 0]) == Decimal(1) + ListStr([0]);
    assert ListStr([0]) == Decimal(0) + ListStr([]);
    assert ListStr([10]) == Decimal(10) + ListStr([]);
    assert Decimal(10) == Decimal(1) + [DigitChar(0)];
  }

  /** The side a `start` request announces. */
  function TurnStr(p: PlayerParam): (s: string)
    ensures s == "black" || s == "white"
    ensures s == "black" <==> p.turn
  {
    if p.turn then "black" else "white"
  }

  /** The four words of a `go` request's arguments: own stones, opponent's stones, valid moves, then history. */
  function GoWords(p: PlayerParam): (ws: seq<string>)
    ensures |ws| == 4
    ensures forall i :: 0 <= i < 4 ==> AllDigits(ws[i])
  {
    [Decimal(p.stones as nat), Decimal(p.oppStones as nat), ListStr(p.validMoves), ListStr(p.moves)]
  }

  /** The arguments of a `go` request: the four words formatted as "%s %s %s %s". */
  function GoMsgParam(p: PlayerParam): string {
    Join(GoWords(p))
  }

  lemma AllDigitsNoSpace(s: string)
    requires AllDigits(s)
    ensures NoSpace(s) && NoPySpace(s)
  {
    forall i | 0 <= i < |s|
      ensures s[i] != ' ' && !IsPySpace(s[i])
    {
      assert IsDigit(s[i]);
    }
  }

  /** The `go` arguments split on single spaces into exactly the four words, valid moves before history. */
  lemma GoMsgParamSplits(p: PlayerParam)
    ensures GoSplit(GoMsgParam(p)) == GoWords(p)
  {
    var ws := GoWords(p);
    forall i | 0 <= i < 4
      ensures NoSpace(ws[i])
    {
      AllDigitsNoSpace(ws[i]);
    }
    GoSplitJoin(ws);
  }

  /** The word `end` carries: win, lose or draw, and nothing for any other result. */
  function ResultStr(p: PlayerParam): (s: string)
    ensures s == [] <==> p.result > 2
    ensures p.result == 0 ==> s == "win"
    ensures p.result == 1 ==> s == "lose"
    ensures p.result == 2 ==> s == "draw"
  {
    match p.result
    case 0 => "win"
    case 1 => "lose"
    case 2 => "draw"
    case _ => ""
  }

  predicate KnownCommand(c: string) {
    c == "name" || c == "start" || c == "go" || c == "end" || c == "quit"
  }

  /**
   * The message for a request, with a flag that is false (and the message
   * empty) for an unknown command.
   */
  function BuildMessage(p: PlayerParam): (r: (bool, string))
    ensures r.0 <==> KnownCommand(p.command)
    ensures !r.0 ==> r.1 == ""
  {
    match p.command
    case "name" => (true, "name")
    case "start" => (true, "start " + TurnStr(p))
    case "go" => (true, "go " + GoMsgParam(p))
    case "end" => (true, "end " + ResultStr(p))
    case "quit" => (true, "quit")
    case _ => (false, "")
  }

  /** Every message a known command produces starts with the command as its first word. */
  lemma MessageLeadsWithCommand(p: PlayerParam)
    requires KnownCommand(p.command)
    ensures GoSplit(BuildMessage(p).1)[0] == p.command
  {
    var c := p.command;
    if c == "name" || c == "quit" {
      assert NoSpace(c);
      GoSplitNoSpace(c);
    } else {
      LeadsWithArgument(p);
    }
  }

  /** start, go and end put their argument after the command and a space. */
  lemma LeadsWithArgument(p: PlayerParam)
    requires p.command == "start" || p.command == "go" || p.command == "end"
    ensures GoSplit(BuildMessage(p).1)[0] == p.command
  {
    var c := p.command;
    var arg := if c == "start" then TurnStr(p) else if c == "go" then GoMsgParam(p) else ResultStr(p);
    assert NoSpace(c);
    assert BuildMessage(p).1 == c + " " + arg;
    StartsWithWord(c, arg, BuildMessage(p).1);
  }

  lemma StartsWithWord(c: string, arg: string, msg: string)
    requires NoSpace(c) && msg == c + " " + arg
    ensures GoSplit(msg)[0] == c
  {
    GoSplitCons(c, arg);
  }

  /** An out-of-range result leaves the `end` message with an empty argument. */
  lemma EndWithoutResult(p: PlayerParam)
    requires p.command == "end" && p.result > 2
    ensures BuildMessage(p).1 == "end "
    ensures GoSplit(BuildMessage(p).1) == ["end", ""]
  {
    assert "end " == "end" + " " + "";
    GoSplitCons("end", "");
  }

  /**
   * A player's reply read into a PlayerRet: the first word is the command,
   * `setname` takes the second word as Name, `ready` sets Ready, and `move`
   * reads the second word with Atoi and keeps the low 8 bits (0 when Atoi
   * fails). A `setname` or `move` without a second word indexes past the
   * words and panics, modelled as None.
   */
  function BuildPlayerRet(msg: string): (r: Option<PlayerRet>)
    ensures var ws := GoSplit(msg);
      r.None? <==> (ws[0] == "setname" || ws[0] == "move") && |ws| < 2
    ensures r.Some? ==> r.value.command == GoSplit(msg)[0]
    ensures r.Some? && r.value.command != "setname" ==> r.value.name == []
    ensures r.Some? && r.value.command != "ready" ==> !r.value.ready
    ensures r.Some? && r.value.command != "move" ==> r.value.move == 0
  {
    var ws := GoSplit(msg);
    var command := ws[0];
    var args := ws[1..];
    match command
    case "setname" =>
      if |args| == 0 then None else Some(Ret(command).(name := args[0]))
    case "ready" => Some(Ret(command).(ready := true))
    case "move" =>
      if |args| == 0 then None
      else
        var m := Atoi(args[0]);
        Some(Ret(command).(move := if m.Some? then Uint8Of(m.value) else 0))
    case _ => Some(Ret(command))
  }

  /** A move reply whose argument Atoi rejects (such as "x" or "3\n") reads as column 0. */
  lemma MoveJunkReadsAsZero(w: string)
    requires NoSpace(w) && Atoi(w).None?
    ensures BuildPlayerRet("move " + w) == Some(Ret("move"))
  {
    assert GoSplit("move " + w) == ["move", w] by {
      assert "move " + w == "move" + " " + w;
      GoSplitCons("move", w);
      GoSplitNoSpace(w);
    }
  }

  /** Python's str() of an int holds no space. */
  lemma PyStrNoSpace(v: int)
    ensures NoSpace(PyStr(v))
  {
    var s := PyStr(v);
    if v < 0 {
      AllDigitsNoSpace(s[1..]);
      assert forall i :: 1 <= i < |s| ==> s[i] == s[1..][i - 1];
    } else {
      AllDigitsNoSpace(s);
    }
  }

  /** A move reply in int range reads as its low 8 bits: "move 300" gives column 44, "move -1" column 255. */
  lemma MoveTruncates(v: int)
    requires MinInt64 <= v <= MaxInt64
    ensures BuildPlayerRet("move " + PyStr(v)) == Some(Ret("move").(move := Uint8Of(v)))
  {
    PyStrNoSpace(v);
    AtoiPyStr(v);
    MoveReadsAtoi(PyStr(v), v);
  }

  /** A move argument without spaces that Atoi reads as `v` gives column `v` modulo 256. */
  lemma MoveReadsAtoi(w: string, v: int)
    requires NoSpace(w) && Atoi(w) == Some(v)
    ensures BuildPlayerRet("move " + w) == Some(Ret("move").(move := Uint8Of(v)))
  {
    assert GoSplit("move " + w) == ["move", w] by {
      assert "move " + w == "move" + " " + w;
      GoSplitCons("move", w);
      GoSplitNoSpace(w);
    }
  }

  /** A move reply beyond int range reads as column 0. */
  lemma MoveOverflowReadsAsZero(n: nat)
    requires n > MaxInt64
    ensures BuildPlayerRet("move " + Decimal(n)) == Some(Ret("move"))
  {
    AtoiOverflow(n);
    AllDigitsNoSpace(Decimal(n));
    assert "move " == "move" + " ";
    GoSplitCons("move", Decimal(n));
    GoSplitNoSpace(Decimal(n));
  }

  /** A setname or move reply without an argument makes the server panic. */
  lemma MissingArgumentPanics()
    ensures BuildPlayerRet("setname") == None
    ensures BuildPlayerRet("move") == None
  {
    assert NoSpace("setname") && NoSpace("move");
    GoSplitNoSpace("setname");
    GoSplitNoSpace("move");
  }
}
