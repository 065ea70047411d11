/**
 * The Go player's side of the line protocol: a request from the server is
 * split on single spaces and read into a PlayerParam, and a PlayerRet is
 * rendered as the reply. The round-trip lemmas at the end connect both
 * directions with the server's codec.
 */
module PlayerConnector {
  import opened Wrappers
  import opened GoInt
  import opened Text
  import opened GameData
  import ServerConnector

  /** The column a single character of a list contributes: its digit value, or nothing when Atoi rejects it. */
  function CharMove(c: char): (ms: seq<uint8>)
    ensures IsDigit(c) ==> ms == [DigitValue(c) as uint8]
    ensures !IsDigit(c) ==> ms == []
  {
    AtoiChar(c);
    match Atoi([c])
    case Some(v) => [Uint8Of(v)]
    case None => []
  }

  /** A list word read one character at a time, non-digits skipped. */
  function DigitMoves(s: string): (ms: seq<uint8>)
    ensures |ms| <= |s|
    ensures forall i :: 0 <= i < |ms| ==> ms[i] < 10
  {
    if s == [] then [] else DigitMoves(s[..|s| - 1]) + CharMove(s[|s| - 1])
  }

  /** On a word of digits, DigitMoves yields one column per character, with its value. */
  lemma {:induction false} DigitMovesOfDigits(s: string)
    requires AllDigits(s)
    ensures |DigitMoves(s)| == |s|
    ensures forall i :: 0 <= i < |s| ==> DigitMoves(s)[i] == DigitValue(s[i]) as uint8
  {
    if s != [] {
      DigitMovesOfDigits(s[..|s| - 1]);
    }
  }

  /**
   * Characters that are not digits are skipped rather than rejected, as in
   * this word. The rule for every character is CharMove's ensures: a digit
   * gives its value and anything else gives nothing.
   */
  lemma DigitMovesSkips()
    ensures DigitMoves("3x1") == [3, 1]
  {
    assert "3x1"[..2] == "3x" && "3x"[..1] == "3" && "3"[..0] == "";
    assert DigitMoves("3") == [3];
  }

  /** A bitboard word: Atoi's value converted to uint64, or 0 when Atoi fails. */
  function BoardWord(w: string): (x: uint64)
    ensures Atoi(w).None? ==> x == 0
  {
    match Atoi(w)
    case Some(v) => Uint64Of(v)
    case None => 0
  }

  /** The request a `go` message's four argument words describe. */
  function GoParam(words: seq<string>): (p: PlayerParam)
    requires |words| >= 4
    ensures p.command == "go" && !p.turn && p.result == 0
    ensures p.validMoves == DigitMoves(words[2]) && p.moves == DigitMoves(words[3])
  {
    Param("go").(stones := BoardWord(words[0]), oppStones := BoardWord(words[1]),
                 validMoves := DigitMoves(words[2]), moves := DigitMoves(words[3]))
  }

  /**
   * buildGoPlayerParam: reads both bitboards with Atoi and both lists one
   * character at a time. Fewer than four words index out of range in the
   * source, so four are required.
   */
  method BuildGoPlayerParam(words: seq<string>) returns (p: PlayerParam)
    requires |words| >= 4
    ensures p == GoParam(words)
  {
    var stones: uint64 := 0;
    var oppStones: uint64 := 0;
    var stonesInt := Atoi(words[0]);
    if stonesInt.Some? {
      stones := Uint64Of(stonesInt.value);
    }
    var oppStonesInt := Atoi(words[1]);
    if oppStonesInt.Some? {
      oppStones := Uint64Of(oppStonesInt.value);
    }
    var validMoves := CollectMoves(words[2]);
    var moves := CollectMoves(words[3]);
    p := Param("go").(stones := stones, oppStones := oppStones, validMoves := validMoves, moves := moves);
  }

  /** The loop over a list word's characters, appending each one Atoi accepts. */
  method CollectMoves(w: string) returns (ms: seq<uint8>)
    ensures ms == DigitMoves(w)
  {
    ms := [];
    var i := 0;
    while i < |w|
      invariant 0 <= i <= |w|
      invariant ms == DigitMoves(w[..i])
    {
      var m := Atoi([w[i]]);
      if m.Some? {
        ms := ms + [Uint8Of(m.value)];
      }
      assert w[..i + 1][..i] == w[..i];
      i := i + 1;
    }
    assert w[..|w|] == w;
  }

  /**
   * decodeMessage: the first word is the command; `start` reads its side,
   * `go` its four arguments and `end` its result word (255 for an unknown
   * word). A `start` or `end` without an argument, or a `go` with fewer than
   * four, indexes out of range and panics, modelled as None.
   */
  function DecodeMessage(msg: string): (r: Option<PlayerParam>)
    ensures var ws := GoSplit(msg);
      r.None? <==> ((ws[0] == "start" || ws[0] == "end") && |ws| < 2) || (ws[0] == "go" && |ws| < 5)
    ensures r.Some? ==> r.value.command == GoSplit(msg)[0]
    ensures r.Some? && r.value.command == "start" ==> (r.value.turn <==> GoSplit(msg)[1] == "black")
    ensures r.Some? && GoSplit(msg)[0] == "go" ==> r.value == GoParam(GoSplit(msg)[1..])
    ensures r.Some? && r.value.command == "end" ==>
      r.value.result == (match GoSplit(msg)[1] case "win" => 0 case "lose" => 1 case "draw" => 2 case _ => 255)
    ensures r.Some? && !(r.value.command in {"start", "go", "end"}) ==> r.value == Param(r.value.command)
  {
    var ws := GoSplit(msg);
    var command := ws[0];
    var args := ws[1..];
    match command
    case "start" =>
      if |args| == 0 then None else Some(Param(command).(turn := args[0] == "black"))
    case "go" =>
      if |args| < 4 then None else Some(GoParam(args))
    case "end" =>
      if |args| == 0 then None
      else
        var result: uint8 := match args[0] case "win" => 0 case "lose" => 1 case "draw" => 2 case _ => 255;
        Some(Param(command).(result := result))
    case _ => Some(Param(command))
  }

  /** buildRetMsg: the reply for each command the player sends, and "" for any other. */
  function BuildRetMsg(r: PlayerRet): (s: string)
    ensures s == [] <==> !(r.command in {"setname", "ready", "move", "bye"})
  {
    match r.command
    case "setname" => "setname " + r.name
    case "ready" => "ready"
    case "move" => "move " + Decimal(r.move as nat)
    case "bye" => "bye"
    case _ => ""
  }

  // ---------------------------------------------------------------------------
  // Round trips between the server's codec and the Go player's.

  /** What a request's message carries: its command and that command's own fields. */
  function Carried(p: PlayerParam): PlayerParam {
    match p.command
    case "start" => Param("start").(turn := p.turn)
    case "go" => Param("go").(stones := p.stones, oppStones := p.oppStones,
                              validMoves := p.validMoves, moves := p.moves)
    case "end" => Param("end").(result := p.result)
    case _ => Param(p.command)
  }

  /**
   * The requests the text format can carry back: a known command, bitboards
   * that fit an int, single-digit columns and a result of 0 to 2.
   */
  predicate Encodable(p: PlayerParam) {
    ServerConnector.KnownCommand(p.command)
    && (p.command == "go" ==>
          p.stones as int <= MaxInt64 && p.oppStones as int <= MaxInt64
          && (forall i :: 0 <= i < |p.validMoves| ==> p.validMoves[i] < 10)
          && (forall i :: 0 <= i < |p.moves| ==> p.moves[i] < 10))
    && (p.command == "end" ==> p.result <= 2)
  }

  lemma Uint64OfInt(x: uint64)
    ensures Uint64Of(x as int) == x
  {
  }

  lemma Uint8OfInt(x: uint8)
    ensures Uint8Of(x as int) == x
  {
  }

  /** A bitboard that fits an int is read back exactly. */
  lemma BoardWordDecimal(x: uint64)
    requires x as int <= MaxInt64
    ensures BoardWord(Decimal(x as nat)) == x
  {
    AtoiDecimal(x as nat);
    Uint64OfInt(x);
  }

  /** A bitboard with bit 63 set does not fit an int, so the player reads it as 0. */
  lemma BoardWordBit63(x: uint64)
    requires x as int > MaxInt64
    ensures BoardWord(Decimal(x as nat)) == 0
  {
    AtoiOverflow(x as nat);
  }

  /** A list of single-digit columns is read back exactly. */
  lemma DigitMovesListStr(xs: seq<uint8>)
    requires forall i :: 0 <= i < |xs| ==> xs[i] < 10
    ensures DigitMoves(ServerConnector.ListStr(xs)) == xs
  {
    var s := ServerConnector.ListStr(xs);
    ServerConnector.ListStrDigits(xs);
    DigitMovesOfDigits(s);
    forall i | 0 <= i < |xs|
      ensures DigitMoves(s)[i] == xs[i]
    {
      assert s[i] == DigitChar(xs[i] as nat);
      Uint8OfInt(xs[i]);
    }
  }

  lemma GoRoundTrip(p: PlayerParam)
    requires p.command == "go" && Encodable(p)
    ensures DecodeMessage(ServerConnector.BuildMessage(p).1) == Some(Carried(p))
  {
    var ws := ServerConnector.GoWords(p);
    var msg := ServerConnector.BuildMessage(p).1;
    assert msg == "go" + " " + ServerConnector.GoMsgParam(p);
    GoSplitCons("go", ServerConnector.GoMsgParam(p));
    ServerConnector.GoMsgParamSplits(p);
    assert GoSplit(msg)[1..] == ws;
    BoardWordDecimal(p.stones);
    BoardWordDecimal(p.oppStones);
    DigitMovesListStr(p.validMoves);
    DigitMovesListStr(p.moves);
  }

  lemma StartRoundTrip(p: PlayerParam)
    requires p.command == "start"
    ensures DecodeMessage(ServerConnector.BuildMessage(p).1) == Some(Carried(p))
  {
    var t := ServerConnector.TurnStr(p);
    assert GoSplit(ServerConnector.BuildMessage(p).1) == ["start", t] by {
      assert ServerConnector.BuildMessage(p).1 == "start" + " " + t;
      assert NoSpace(t);
      GoSplitCons("start", t);
      GoSplitNoSpace(t);
    }
  }

  lemma EndRoundTrip(p: PlayerParam)
    requires p.command == "end" && p.result <= 2
    ensures DecodeMessage(ServerConnector.BuildMessage(p).1) == Some(Carried(p))
  {
    var w := ServerConnector.ResultStr(p);
    assert GoSplit(ServerConnector.BuildMessage(p).1) == ["end", w] by {
      assert ServerConnector.BuildMessage(p).1 == "end" + " " + w;
      assert NoSpace(w);
      GoSplitCons("end", w);
      GoSplitNoSpace(w);
    }
    if p.result == 0 {
      assert w == "win";
    } else if p.result == 1 {
      assert w == "lose";
    } else {
      assert w == "draw";
    }
  }

  /**
   * Every encodable request survives the trip through the server's encoder
   * and the player's decoder with its command and that command's fields.
   */
  lemma RequestRoundTrip(p: PlayerParam)
    requires Encodable(p)
    ensures ServerConnector.BuildMessage(p).0
    ensures DecodeMessage(ServerConnector.BuildMessage(p).1) == Some(Carried(p))
  {
    match p.command
    case "go" => GoRoundTrip(p);
    case "start" => StartRoundTrip(p);
    case "end" => EndRoundTrip(p);
    case _ =>
      assert NoSpace(p.command);
      GoSplitNoSpace(p.command);
  }

  /** An out-of-range result reaches the player as the unknown result 255. */
  lemma EndOutOfRange(p: PlayerParam)
    requires p.command == "end" && p.result > 2
    ensures DecodeMessage(ServerConnector.BuildMessage(p).1) == Some(Param("end").(result := 255))
  {
    ServerConnector.EndWithoutResult(p);
  }

  /** What a reply's message carries back: the command and its own field; an unknown command becomes "". */
  function RetCarried(r: PlayerRet): PlayerRet {
    match r.command
    case "setname" => Ret("setname").(name := r.name)
    case "ready" => Ret("ready").(ready := true)
    case "move" => Ret("move").(move := r.move)
    case "bye" => Ret("bye")
    case _ => Ret("")
  }

  /**
   * Every reply survives the trip through the player's encoder and the
   * server's decoder, given a name without spaces.
   */
  lemma ReplyRoundTrip(r: PlayerRet)
    requires r.command == "setname" ==> NoSpace(r.name)
    ensures ServerConnector.BuildPlayerRet(BuildRetMsg(r)) == Some(RetCarried(r))
  {
    match r.command
    case "setname" => SetnameRoundTrip(r);
    case "move" => MoveRoundTrip(r);
    case "ready" => GoSplitNoSpace("ready");
    case "bye" => GoSplitNoSpace("bye");
    case _ => assert GoSplit("") == [""];
  }

  lemma SetnameRoundTrip(r: PlayerRet)
    requires r.command == "setname" && NoSpace(r.name)
    ensures ServerConnector.BuildPlayerRet(BuildRetMsg(r)) == Some(RetCarried(r))
  {
    var msg := BuildRetMsg(r);
    assert GoSplit(msg) == ["setname", r.name] by {
      assert msg == "setname" + " " + r.name;
      GoSplitCons("setname", r.name);
      GoSplitNoSpace(r.name);
    }
  }

  lemma MoveRoundTrip(r: PlayerRet)
    requires r.command == "move"
    ensures ServerConnector.BuildPlayerRet(BuildRetMsg(r)) == Some(RetCarried(r))
  {
    var msg := BuildRetMsg(r);
    var d := Decimal(r.move as nat);
    assert GoSplit(msg) == ["move", d] by {
      assert msg == "move" + " " + d;
      ServerConnector.AllDigitsNoSpace(d);
      GoSplitCons("move", d);
      GoSplitNoSpace(d);
    }
    assert Atoi(d) == Some(r.move as int) by {
      AtoiDecimal(r.move as nat);
    }
    Uint8OfInt(r.move);
  }

  /** A name with a space reaches the server cut at its first space. */
  lemma NameWithSpaceTruncated(r: PlayerRet, first: string, rest: string)
    requires r.command == "setname" && r.name == first + " " + rest && NoSpace(first)
    ensures ServerConnector.BuildPlayerRet(BuildRetMsg(r)) == Some(Ret("setname").(name := first))
  {
    assert BuildRetMsg(r) == "setname" + " " + (first + " " + rest);
    GoSplitCons("setname", first + " " + rest);
    GoSplitCons(first, rest);
  }
}
