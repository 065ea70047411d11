/**
 * The string primitives the line protocol is built from: decimal rendering
 * (Go's `%d`, Python's `str`), Go's `strconv.Atoi`, Go's `strings.Split` on a
 * single space, Python's argument-less `str.split()` and Python's `int()`.
 */
module Text {
  import opened Wrappers

  predicate IsDigit(c: char) {
    '0' <= c <= '9'
  }

  function DigitValue(c: char): (d: nat)
    requires IsDigit(c)
    ensures d < 10
  {
    c as int - '0' as int
  }

  function DigitChar(d: nat): (c: char)
    requires d < 10
    ensures IsDigit(c) && DigitValue(c) == d
  {
    ('0' as int + d) as char
  }

  predicate AllDigits(s: string) {
    forall i :: 0 <= i < |s| ==> IsDigit(s[i])
  }

  /** The value of a string of decimal digits, most significant digit first. */
  function DigitsValue(s: string): nat
    requires AllDigits(s)
  {
    if s == [] then 0 else 10 * DigitsValue(s[..|s| - 1]) + DigitValue(s[|s| - 1])
  }

  /** Go's `fmt.Sprintf("%d", n)` and Python's `str(n)` for a natural number. */
  function Decimal(n: nat): (s: string)
    ensures 1 <= |s| && AllDigits(s)
    ensures |s| > 1 ==> s[0] != '0'
    ensures DigitsValue(s) == n
  {
    if n < 10 then [DigitChar(n)] else Decimal(n / 10) + [DigitChar(n % 10)]
  }

  /** Decimal is the only canonical spelling: a digit string without a leading zero is the decimal of its value. */
  lemma {:induction false} DecimalOfValue(s: string)
    requires 1 <= |s| && AllDigits(s) && (|s| > 1 ==> s[0] != '0')
    ensures Decimal(DigitsValue(s)) == s
  {
    var init := s[..|s| - 1];
    if |s| == 1 {
      assert init == [];
    } else {
      assert init[0] == s[0];
      DecimalOfValue(init);
      if DigitsValue(init) == 0 {
        LeadingZero(init);
      }
      assert Decimal(DigitsValue(s)) == Decimal(DigitsValue(init)) + [s[|s| - 1]];
    }
  }

  /** A digit string of value zero starts with '0'. */
  lemma {:induction false} LeadingZero(s: string)
    requires 1 <= |s| && AllDigits(s) && DigitsValue(s) == 0
    ensures s[0] == '0'
  {
    if |s| > 1 {
      LeadingZero(s[..|s| - 1]);
    }
  }

  /** Python's `str(v)` for an int: a minus sign exactly for negative values, then the digits of the magnitude. */
  function PyStr(v: int): (s: string)
    ensures 1 <= |s| && (s[0] == '-' <==> v < 0)
    ensures v >= 0 ==> AllDigits(s) && DigitsValue(s) == v
    ensures v < 0 ==> AllDigits(s[1..]) && 1 <= |s[1..]| && DigitsValue(s[1..]) == -v
  {
    if v < 0 then "-" + Decimal(-v) else Decimal(v)
  }

  const MinInt64: int := -0x8000_0000_0000_0000
  const MaxInt64: int := 0x7FFF_FFFF_FFFF_FFFF

  predicate IsSign(c: char) {
    c == '+' || c == '-'
  }

  /**
   * Go's `strconv.Atoi` on a 64-bit platform: an optional sign followed by at
   * least one ASCII digit, with a value that fits an `int`; anything else is
   * an error, modelled as None.
   */
  function Atoi(s: string): (r: Option<int>)
    ensures r.Some? ==> MinInt64 <= r.value <= MaxInt64
    ensures r.Some? ==> 1 <= |s|
  {
    var body := if |s| > 0 && IsSign(s[0]) then s[1..] else s;
    if body == [] || !AllDigits(body) then None
    else
      var d: int := DigitsValue(body);
      var v := if s[0] == '-' then -d else d;
      if MinInt64 <= v <= MaxInt64 then Some(v) else None
  }

  /** Atoi reads back every decimal that fits an int. */
  lemma AtoiDecimal(n: nat)
    requires n <= MaxInt64
    ensures Atoi(Decimal(n)) == Some(n)
  {
  }

  /** Atoi reads back Python's str() of every value that fits an int. */
  lemma AtoiPyStr(v: int)
    requires MinInt64 <= v <= MaxInt64
    ensures Atoi(PyStr(v)) == Some(v)
  {
    if v < 0 {
      assert PyStr(v)[1..] == Decimal(-v);
    }
  }

  /** Atoi of a single character succeeds exactly on the ten ASCII digits. */
  lemma AtoiChar(c: char)
    ensures Atoi([c]).Some? <==> IsDigit(c)
    ensures IsDigit(c) ==> Atoi([c]) == Some(DigitValue(c))
  {
    if IsSign(c) {
      assert [c][1..] == [];
    } else if IsDigit(c) {
      assert [c][..0] == [];
      assert DigitsValue([c]) == DigitValue(c);
    }
  }

  /** A number followed by junk, or a bare word, is an Atoi error. */
  lemma AtoiRejects()
    ensures Atoi("x") == None
    ensures Atoi("3\n") == None
    ensures Atoi("") == None
    ensures Atoi("-") == None
  {
    assert !AllDigits("3\n") by {
      assert !IsDigit("3\n"[1]);
    }
  }

  /** Atoi reads 2^63 and beyond as an error. */
  lemma AtoiOverflow(n: nat)
    requires n > MaxInt64
    ensures Atoi(Decimal(n)) == None
  {
  }

  predicate NoSpace(s: string) {
    forall i :: 0 <= i < |s| ==> s[i] != ' '
  }

  /** The pieces joined with single spaces, the inverse of `strings.Split(s, " ")`. */
  function Join(ps: seq<string>): string {
    if |ps| == 0 then [] else if |ps| == 1 then ps[0] else ps[0] + " " + Join(ps[1..])
  }

  /** Go's `strings.Split(s, " ")`: empty pieces are kept, so the result is never empty. */
  function GoSplit(s: string): (ps: seq<string>)
    ensures 1 <= |ps|
    ensures forall i :: 0 <= i < |ps| ==> NoSpace(ps[i])
    ensures Join(ps) == s
  {
    if s == [] then [[]]
    else
      var rest := GoSplit(s[1..]);
      if s[0] == ' ' then
        assert s == [] + " " + Join(rest);
        [[]] + rest
      else
        assert s == ([s[0]] + rest[0]) + s[1 + |rest[0]|..];
        [[s[0]] + rest[0]] + rest[1..]
  }

  /** Splitting on single spaces recovers any pieces that contain none. */
  lemma {:induction false} GoSplitJoin(ps: seq<string>)
    requires 1 <= |ps|
    requires forall i :: 0 <= i < |ps| ==> NoSpace(ps[i])
    ensures GoSplit(Join(ps)) == ps
    decreases |ps|, |ps[0]|
  {
    if |ps| == 1 {
      GoSplitNoSpace(ps[0]);
    } else if ps[0] == [] {
      assert Join(ps) == " " + Join(ps[1..]);
      GoSplitJoin(ps[1..]);
      assert [[]] + ps[1..] == ps;
    } else {
      var c := ps[0][0];
      var tail := [ps[0][1..]] + ps[1..];
      assert Join(ps) == [c] + Join(tail) by {
        assert ps[0] == [c] + ps[0][1..];
      }
      GoSplitJoin(tail);
      assert ps[0] == [c] + tail[0];
      assert ps == [ps[0]] + tail[1..];
    }
  }

  lemma {:induction false} GoSplitNoSpace(s: string)
    requires NoSpace(s)
    ensures GoSplit(s) == [s]
  {
    if s != [] {
      GoSplitNoSpace(s[1..]);
    }
  }

  /** A piece without spaces followed by a space starts the split. */
  lemma GoSplitCons(a: string, b: string)
    requires NoSpace(a)
    ensures GoSplit(a + " " + b) == [a] + GoSplit(b)
  {
    var ps := [a] + GoSplit(b);
    assert Join(ps) == a + " " + b by {
      assert ps[1..] == GoSplit(b);
    }
    GoSplitJoin(ps);
  }

  /** The characters Python's `str.isspace` accepts (ASCII and the Unicode space separators). */
  predicate IsPySpace(c: char) {
    var n := c as int;
    n == 0x20 || 0x09 <= n <= 0x0D || 0x1C <= n <= 0x1F || n == 0x85 || n == 0xA0
    || n == 0x1680 || 0x2000 <= n <= 0x200A || n == 0x2028 || n == 0x2029
    || n == 0x202F || n == 0x205F || n == 0x3000
  }

  predicate NoPySpace(s: string) {
    forall i :: 0 <= i < |s| ==> !IsPySpace(s[i])
  }

  /** Python's `s.split()`: the maximal runs of non-whitespace characters, in order. */
  function PySplit(s: string): (ts: seq<string>)
    ensures forall i :: 0 <= i < |ts| ==> |ts[i]| >= 1 && NoPySpace(ts[i])
    ensures |s| > 0 && !IsPySpace(s[0]) ==> |ts| >= 1 && ts[0][0] == s[0]
  {
    if s == [] then []
    else
      var rest := PySplit(s[1..]);
      if IsPySpace(s[0]) then rest
      else if |s| > 1 && !IsPySpace(s[1]) then [[s[0]] + rest[0]] + rest[1..]
      else [[s[0]]] + rest
  }

  /** The non-empty pieces of `ps`, in order. */
  function NonEmpty(ps: seq<string>): (qs: seq<string>)
    ensures forall i :: 0 <= i < |qs| ==> |qs[i]| >= 1
  {
    if ps == [] then [] else (if ps[0] == [] then [] else [ps[0]]) + NonEmpty(ps[1..])
  }

  /** A word without whitespace followed by a space is split off whole (or dropped when empty). */
  lemma {:induction false} PySplitWord(a: string, b: string)
    requires NoPySpace(a)
    ensures PySplit(a + " " + b) == (if a == [] then [] else [a]) + PySplit(b)
    decreases |a|
  {
    if a == [] {
      assert (a + " " + b)[1..] == b;
    } else {
      PySplitWord(a[1..], b);
      PySplitWordStep(a, b);
    }
  }

  /** One step of PySplitWord: a non-space character joins the word that follows it. */
  lemma PySplitWordStep(a: string, b: string)
    requires a != [] && NoPySpace(a)
    requires PySplit(a[1..] + " " + b) == (if a[1..] == [] then [] else [a[1..]]) + PySplit(b)
    ensures PySplit(a + " " + b) == [a] + PySplit(b)
  {
    var s := a + " " + b;
    assert s[1..] == a[1..] + " " + b;
    if |a| == 1 {
      SplitSingle(s, b);
      assert [s[0]] == a;
    } else {
      SplitJoin(s, a[1..], PySplit(b));
      assert [s[0]] + a[1..] == a;
    }
  }

  /** A lone non-space character followed by a space is a word of its own. */
  lemma SplitSingle(s: string, b: string)
    requires |s| >= 2 && !IsPySpace(s[0]) && s[1] == ' ' && s[2..] == b
    ensures PySplit(s) == [[s[0]]] + PySplit(b)
  {
    assert IsPySpace(s[1]);
    assert s[1..][1..] == b;
  }

  /** A non-space character in front of a word joins that word. */
  lemma SplitJoin(s: string, w: string, rest: seq<string>)
    requires |s| >= 2 && !IsPySpace(s[0]) && PySplit(s[1..]) == [w] + rest && s[1] == w[0]
    ensures PySplit(s) == [[s[0]] + w] + rest
  {
  }

  lemma {:induction false} PySplitNoSpace(a: string)
    requires NoPySpace(a)
    ensures PySplit(a) == if a == [] then [] else [a]
    decreases |a|
  {
    if a != [] {
      PySplitNoSpace(a[1..]);
      var rest := PySplit(a[1..]);
      if |a| == 1 {
        assert rest == [];
        assert PySplit(a) == [[a[0]]] + rest;
        assert [a[0]] == a;
      } else {
        assert rest == [a[1..]];
        assert !IsPySpace(a[1]);
        assert PySplit(a) == [[a[0]] + rest[0]] + rest[1..];
        assert [a[0]] + rest[0] == a;
        assert rest[1..] == [];
      }
      assert a == [a[0]] + a[1..];
    }
  }

  /**
   * Splitting pieces joined with single spaces recovers them, except that
   * Python drops the empty ones where Go keeps them.
   */
  lemma {:induction false} PySplitJoin(ps: seq<string>)
    requires forall i :: 0 <= i < |ps| ==> NoPySpace(ps[i])
    ensures PySplit(Join(ps)) == NonEmpty(ps)
    decreases |ps|
  {
    if |ps| == 1 {
      PySplitNoSpace(ps[0]);
      assert NonEmpty(ps) == (if ps[0] == [] then [] else [ps[0]]) + NonEmpty([]);
    } else if |ps| > 1 {
      PySplitWord(ps[0], Join(ps[1..]));
      PySplitJoin(ps[1..]);
    }
  }

  /** Python's `s.strip()`. */
  function PyStrip(s: string): (t: string)
    ensures |t| <= |s|
    ensures |t| > 0 ==> !IsPySpace(t[0]) && !IsPySpace(t[|t| - 1])
  {
    if s == [] then []
    else if IsPySpace(s[0]) then PyStrip(s[1..])
    else if IsPySpace(s[|s| - 1]) then PyStrip(s[..|s| - 1])
    else s
  }

  /** Digits with single underscores between them, as Python's int() reads a literal body. */
  predicate PyDigitGroups(s: string) {
    1 <= |s| && IsDigit(s[0]) && IsDigit(s[|s| - 1])
    && (forall i :: 0 <= i < |s| ==> IsDigit(s[i]) || s[i] == '_')
    && (forall i :: 0 <= i < |s| - 1 ==> s[i] == '_' ==> s[i + 1] != '_')
  }

  function DropUnderscores(s: string): (t: string)
    requires forall i :: 0 <= i < |s| ==> IsDigit(s[i]) || s[i] == '_'
    ensures AllDigits(t)
  {
    if s == [] then [] else (if s[0] == '_' then [] else [s[0]]) + DropUnderscores(s[1..])
  }

  /**
   * Python's `int(s)` for a base-10 string: surrounding whitespace, a sign, and
   * underscores between digits are accepted; anything else raises ValueError,
   * modelled as None.
   */
  function PyInt(s: string): (r: Option<int>)
    ensures r.Some? ==> 1 <= |PyStrip(s)|
  {
    var t := PyStrip(s);
    var body := if |t| > 0 && IsSign(t[0]) then t[1..] else t;
    if !PyDigitGroups(body) then None
    else
      var v: int := DigitsValue(DropUnderscores(body));
      Some(if t[0] == '-' then -v else v)
  }

  lemma {:induction false} DropUnderscoresDigits(s: string)
    requires AllDigits(s)
    ensures DropUnderscores(s) == s
  {
    if s != [] {
      DropUnderscoresDigits(s[1..]);
    }
  }

  lemma PyStripNoSpace(s: string)
    requires NoPySpace(s)
    ensures PyStrip(s) == s
  {
    if s != [] {
      assert !IsPySpace(s[0]) && !IsPySpace(s[|s| - 1]);
    }
  }

  /** int() reads back what str() writes. */
  lemma PyIntDecimal(n: nat)
    ensures PyInt(Decimal(n)) == Some(n)
  {
    var s := Decimal(n);
    assert NoPySpace(s) by {
      forall i | 0 <= i < |s|
        ensures !IsPySpace(s[i])
      {
        assert IsDigit(s[i]);
      }
    }
    PyStripNoSpace(s);
    DropUnderscoresDigits(s);
  }

  /** int() reads back what str() writes, for every int: the round trip of the Python player. */
  lemma PyIntPyStr(v: int)
    ensures PyInt(PyStr(v)) == Some(v)
  {
    var d := Decimal(if v < 0 then -v else v);
    if v >= 0 {
      assert PyStr(v) == d;
      PyIntDecimal(v);
    } else {
      assert PyStr(v) == "-" + d;
      PyIntNegative(d);
    }
  }

  /** int() of a minus sign followed by digits is the negated value of the digits. */
  lemma PyIntNegative(d: string)
    requires 1 <= |d| && AllDigits(d)
    ensures PyInt("-" + d) == Some(-(DigitsValue(d) as int))
  {
    var s := "-" + d;
    assert s[0] == '-' && s[1..] == d;
    SignedNoSpace(d);
    PyStripNoSpace(s);
    assert PyDigitGroups(d);
    DropUnderscoresDigits(d);
    PyIntSigned(s, d);
  }

  lemma PyIntSigned(s: string, d: string)
    requires PyStrip(s) == s && |s| >= 1 && s[0] == '-' && s[1..] == d
    requires PyDigitGroups(d) && AllDigits(d) && DropUnderscores(d) == d
    ensures PyInt(s) == Some(-(DigitsValue(d) as int))
  {
  }

  lemma SignedNoSpace(d: string)
    requires AllDigits(d)
    ensures NoPySpace("-" + d)
  {
    var s := "-" + d;
    forall i | 0 <= i < |s|
      ensures !IsPySpace(s[i])
    {
      if i > 0 {
        assert s[i] == d[i - 1];
      }
    }
  }

  /** int() of a single character succeeds exactly on the ASCII digits. */
  lemma PyIntChar(c: char)
    ensures PyInt([c]).Some? <==> IsDigit(c)
    ensures IsDigit(c) ==> PyInt([c]) == Some(DigitValue(c))
  {
    if IsPySpace(c) {
      assert PyStrip([c]) == PyStrip([]);
    } else {
      assert PyStrip([c]) == [c];
      if IsDigit(c) {
        assert DropUnderscores([c]) == [c] + DropUnderscores([]);
        assert [c][..0] == [];
        assert DigitsValue([c]) == DigitValue(c);
      } else if IsSign(c) {
        assert [c][1..] == [];
      }
    }
  }

  /** int() accepts what Atoi rejects: surrounding whitespace and digit-group underscores. */
  lemma PyIntLenient()
    ensures PyInt("3\n") == Some(3)
    ensures PyInt("1_0") == Some(10)
    ensures Atoi("1_0") == None
  {
    PyIntTrailingNewline();
    PyIntUnderscore();
    assert !AllDigits("1_0") by {
      assert !IsDigit("1_0"[1]);
    }
  }

  lemma PyIntTrailingNewline()
    ensures PyInt("3\n") == Some(3)
  {
    var s := "3\n";
    assert PyStrip(s) == PyStrip(s[..1]) by {
      assert !IsPySpace(s[0]) && IsPySpace(s[1]);
    }
    assert s[..1] == "3";
    assert PyStrip("3") == "3";
    assert PyDigitGroups("3");
    assert DropUnderscores("3") == "3" + DropUnderscores("");
    assert "3"[..0] == "";
    assert DigitsValue("3") == 3;
  }

  lemma PyIntUnderscore()
    ensures PyInt("1_0") == Some(10)
  {
    var s := "1_0";
    assert PyStrip(s) == s;
    assert PyDigitGroups(s) by {
      assert IsDigit(s[0]) && s[1] == '_' && IsDigit(s[2]);
    }
    assert DropUnderscores(s) == "1" + DropUnderscores("_0") by {
      assert s[1..] == "_0";
    }
    assert DropUnderscores("_0") == DropUnderscores("0") by {
      assert "_0"[1..] == "0";
    }
    assert DropUnderscores("0") == "0" + DropUnderscores("");
    var t := "10";
    assert t[..1] == "1" && "1"[..0] == "";
    assert DigitsValue("1") == 1;
    assert DigitsValue(t) == 10;
  }
}
