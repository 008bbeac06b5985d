/**
  The string operations the level file format and the equation variable names
  rely on, written as Python's own operations behave: `str(n)` for a
  non-negative integer, `int(s)`, `s.split(',')`, `','.join(...)`, `s.strip(...)`
  and the substring test `t in s`.
*/
module Text {
  import opened Wrappers

  predicate IsDigits(s: string) {
    forall i :: 0 <= i < |s| ==> '0' <= s[i] <= '9'
  }

  function DigitChar(d: nat): (c: char)
    requires d < 10
    ensures '0' <= c <= '9' && c as int - '0' as int == d
  {
    (('0' as int) + d) as char
  }

  /** Python's `str(n)` for `n >= 0`: decimal digits, most significant first, no leading zero. */
  function NatToString(n: nat): (s: string)
    ensures |s| >= 1 && IsDigits(s)
    ensures n < 10 <==> |s| == 1
    decreases n
  {
    if n < 10 then [DigitChar(n)] else NatToString(n / 10) + [DigitChar(n % 10)]
  }

  /** The number a string of decimal digits denotes. */
  function DigitsValue(s: string): nat
    requires IsDigits(s)
  {
    if s == [] then 0 else DigitsValue(s[..|s| - 1]) * 10 + (s[|s| - 1] as int - '0' as int)
  }

  /** Reading back what `str` wrote gives the number again. */
  lemma {:induction false} DigitsRoundTrip(n: nat)
    ensures DigitsValue(NatToString(n)) == n
  {
    if n >= 10 {
      var s := NatToString(n);
      assert s[..|s| - 1] == NatToString(n / 10);
      DigitsRoundTrip(n / 10);
    }
  }

  /** The two-digit case: the strings of single digits `a` and `b` are `[a]` and `[b]`. */
  lemma SingleDigit(n: nat)
    requires n < 10
    ensures NatToString(n) == [DigitChar(n)]
  {
  }

  /**
    The characters `int()` skips around a numeral. Among ASCII characters these
    are only the controls 9-13 (tab, line feed, vertical tab, form feed,
    carriage return) and the space; the separators 28-31, which `str.isspace`
    accepts, are not skipped. Beyond ASCII they are the Unicode spaces and
    separators U+0085, U+00A0, U+1680, U+2000-U+200A, U+2028, U+2029, U+202F,
    U+205F and U+3000, which `int()` reads as spaces.
  */
  predicate IsSpace(c: char) {
    || '\t' <= c <= '\r' || c == ' ' || c == '\U{85}' || c == '\U{A0}' || c == '\U{1680}'
    || '\U{2000}' <= c <= '\U{200A}' || c == '\U{2028}' || c == '\U{2029}' || c == '\U{202F}' || c == '\U{205F}' || c == '\U{3000}'
  }

  const Whitespace: set<char> := set c: char | '\t' <= c <= '\U{3000}' && IsSpace(c)

  function StripLeft(s: string, cs: set<char>): (r: string)
    ensures |r| <= |s| && r == s[|s| - |r|..]
    ensures r == [] || r[0] !in cs
  {
    if s != [] && s[0] in cs then StripLeft(s[1..], cs) else s
  }

  function StripRight(s: string, cs: set<char>): (r: string)
    ensures |r| <= |s| && r == s[..|r|]
    ensures r == [] || r[|r| - 1] !in cs
  {
    if s != [] && s[|s| - 1] in cs then StripRight(s[..|s| - 1], cs) else s
  }

  /** Python's `s.strip(chars)`: drops every leading and trailing character of `cs`. */
  function Strip(s: string, cs: set<char>): string {
    StripRight(StripLeft(s, cs), cs)
  }

  /** Stripping a tail made only of stripped characters recovers a string that neither starts nor ends with one. */
  lemma {:induction false} StripTail(s: string, t: string, cs: set<char>)
    requires s == [] || (s[0] !in cs && s[|s| - 1] !in cs)
    requires forall i :: 0 <= i < |t| ==> t[i] in cs
    ensures Strip(s + t, cs) == s
  {
    if s == [] {
      StripAllLeft(t, cs);
      assert s + t == t;
    } else {
      assert StripLeft(s + t, cs) == s + t;
      StripAllRight(s, t, cs);
    }
  }

  lemma {:induction false} StripAllLeft(t: string, cs: set<char>)
    requires forall i :: 0 <= i < |t| ==> t[i] in cs
    ensures StripLeft(t, cs) == [] && StripRight([], cs) == []
  {
    if t != [] {
      StripAllLeft(t[1..], cs);
    }
  }

  lemma {:induction false} StripAllRight(s: string, t: string, cs: set<char>)
    requires s != [] && s[|s| - 1] !in cs
    requires forall i :: 0 <= i < |t| ==> t[i] in cs
    ensures StripRight(s + t, cs) == s
    decreases |t|
  {
    if t == [] {
      assert s + t == s;
    } else {
      assert (s + t)[..|s + t| - 1] == s + t[..|t| - 1];
      StripAllRight(s, t[..|t| - 1], cs);
    }
  }

  /** Stripping a leading run of stripped characters. */
  lemma {:induction false} StripPad(pad: string, u: string, cs: set<char>)
    requires forall i :: 0 <= i < |pad| ==> pad[i] in cs
    requires u == [] || u[0] !in cs
    ensures StripLeft(pad + u, cs) == u
    decreases |pad|
  {
    if pad == [] {
      assert pad + u == u;
    } else {
      assert (pad + u)[1..] == pad[1..] + u;
      StripPad(pad[1..], u, cs);
    }
  }

  /** `int` reads back the numeral `str` writes, with white space around it. */
  lemma ReadNumber(pad: string, n: nat)
    requires forall i :: 0 <= i < |pad| ==> pad[i] in Whitespace
    ensures IntOf(pad + NatToString(n) + "\n") == Some(n)
  {
    var s := NatToString(n);
    assert Strip(pad + s + "\n", Whitespace) == s by {
      StripNumeral(pad, s);
    }
    assert IsNumeral(s) && NumeralValue(s) == n by {
      DigitsAreNumeral(s);
      DigitsRoundTrip(n);
    }
  }

  /** Stripping white space around a digit string followed by a newline leaves the digits. */
  lemma StripNumeral(pad: string, s: string)
    requires forall i :: 0 <= i < |pad| ==> pad[i] in Whitespace
    requires |s| >= 1 && IsDigits(s)
    ensures Strip(pad + s + "\n", Whitespace) == s
  {
    var u := s + "\n";
    assert pad + s + "\n" == pad + u;
    NonSpace(s[0]);
    StripPad(pad, u, Whitespace);
    NonSpace(s[|s| - 1]);
    assert "\n"[0] in Whitespace;
    StripAllRight(s, "\n", Whitespace);
  }

  predicate IsDigit(c: char) {
    '0' <= c <= '9'
  }

  /**
    A decimal numeral as `int()` reads it in base 10: ASCII digits, with single
    underscores allowed between two digits ("1_000"), and leading zeros allowed.
  */
  predicate IsNumeral(s: string) {
    && |s| >= 1 && IsDigit(s[0]) && IsDigit(s[|s| - 1])
    && (forall i :: 0 <= i < |s| ==> IsDigit(s[i]) || s[i] == '_')
    && (forall i :: 0 <= i < |s| - 1 ==> Piece(s, i, 2) != "__")
  }

  /** The digits of a string, underscores dropped. */
  function Unscored(s: string): (d: string)
    ensures |d| <= |s|
    ensures (forall i :: 0 <= i < |s| ==> IsDigit(s[i]) || s[i] == '_') ==> IsDigits(d)
  {
    if s == [] then [] else (if s[0] == '_' then [] else [s[0]]) + Unscored(s[1..])
  }

  /** The number a numeral denotes. */
  function NumeralValue(s: string): nat
    requires IsNumeral(s)
  {
    DigitsValue(Unscored(s))
  }

  /** A numeral with an optional leading `+` or `-`, as `int()` accepts after skipping white space. */
  predicate IsSigned(t: string) {
    IsNumeral(t) || (|t| >= 2 && (t[0] == '+' || t[0] == '-') && IsNumeral(t[1..]))
  }

  /** A signed numeral read as a number; `None` on anything else. */
  function SignedOf(t: string): (r: Option<int>)
    ensures r.Some? <==> IsSigned(t)
    ensures r.Some? && IsNumeral(t) ==> r.value == NumeralValue(t)
    ensures r.Some? && t[0] == '+' ==> r.value == NumeralValue(t[1..])
    ensures r.Some? && t[0] == '-' ==> r.value == -(NumeralValue(t[1..]) as int)
  {
    if IsNumeral(t) then Some(NumeralValue(t) as int)
    else if IsSigned(t) then
      var v: int := NumeralValue(t[1..]);
      Some(if t[0] == '-' then -v else v)
    else None
  }

  /**
    Python's `int(s)` for a string: white space around the numeral is skipped,
    one sign may lead it, and underscores may separate digits. `None` where
    Python raises ValueError.
  */
  function IntOf(s: string): (r: Option<int>)
    ensures var t := Strip(s, Whitespace);
      && (r.Some? <==> IsSigned(t))
      && (r.Some? && IsNumeral(t) ==> r.value == NumeralValue(t))
      && (r.Some? && t[0] == '+' ==> r.value == NumeralValue(t[1..]))
      && (r.Some? && t[0] == '-' ==> r.value == -(NumeralValue(t[1..]) as int))
  {
    SignedOf(Strip(s, Whitespace))
  }

  /** A digit string is a numeral without underscores. */
  lemma {:induction false} DigitsAreNumeral(s: string)
    requires |s| >= 1 && IsDigits(s)
    ensures IsNumeral(s) && NumeralValue(s) == DigitsValue(s)
  {
    forall i | 0 <= i < |s| - 1
      ensures Piece(s, i, 2) != "__"
    {
      assert Piece(s, i, 2)[0] == s[i];
    }
    UnscoredDigits(s);
  }

  lemma {:induction false} UnscoredDigits(s: string)
    requires IsDigits(s)
    ensures Unscored(s) == s
  {
    if s != [] {
      UnscoredDigits(s[1..]);
    }
  }

  /** Digits, signs and underscores are not white space. */
  lemma NonSpace(c: char)
    requires IsDigit(c) || c == '+' || c == '-' || c == '_'
    ensures c !in Whitespace
  {
  }

  /** `int()` accepts a leading sign. */
  lemma IntOfSigned()
    ensures IntOf("+5") == Some(5) && IntOf("-3") == Some(-3)
  {
    NonSpace('+'); NonSpace('-'); NonSpace('5'); NonSpace('3');
    assert StripLeft("+5", Whitespace) == "+5" && StripLeft("-3", Whitespace) == "-3";
    assert "+5"[1..] == "5" && "-3"[1..] == "3";
    assert Unscored("5"[1..]) == [] && Unscored("3"[1..]) == [];
  }

  /** `int()` accepts single underscores between digits. */
  lemma IntOfUnderscore()
    ensures IntOf("1_0") == Some(10)
  {
    NonSpace('1'); NonSpace('0');
    var t := "1_0";
    assert StripLeft(t, Whitespace) == t;
    assert Strip(t, Whitespace) == t;
    assert Piece(t, 0, 2) == "1_" && Piece(t, 1, 2) == "_0";
    assert IsNumeral(t);
    assert Unscored(t) == "10" by {
      assert t[1..] == "_0" && t[1..][1..] == "0" && Unscored("0"[1..]) == [];
    }
    assert DigitsValue("10") == 10 by {
      assert "10"[..1] == "1" && "1"[..0] == "";
    }
  }

  /** `int()` accepts leading zeros. */
  lemma IntOfLeadingZeros()
    ensures IntOf("007") == Some(7)
  {
    NonSpace('0'); NonSpace('7');
    var t := "007";
    assert StripLeft(t, Whitespace) == t;
    assert Strip(t, Whitespace) == t;
    DigitsAreNumeral(t);
    assert DigitsValue(t) == 7 by {
      assert t[..2] == "00" && "00"[..1] == "0" && "0"[..0] == "";
    }
  }

  /** `int()` skips Unicode white space such as the vertical tab and the no-break space. */
  lemma IntOfUnicodeSpace()
    ensures IntOf("\U{0B}7\U{A0}") == Some(7)
  {
    NonSpace('7');
    assert StripLeft("\U{0B}7\U{A0}", Whitespace) == "7\U{A0}" by {
      assert "\U{0B}7\U{A0}"[1..] == "7\U{A0}";
    }
    assert StripRight("7\U{A0}", Whitespace) == "7" by {
      assert "7\U{A0}"[..1] == "7";
    }
    assert Unscored("7"[1..]) == [];
  }

  /** `int()` refuses the ASCII separators 28-31 around a numeral. */
  lemma IntOfFileSeparator()
    ensures IntOf("\U{1C}5") == None && IntOf("5\U{1F}") == None
  {
    NonSpace('5');
    assert StripLeft("\U{1C}5", Whitespace) == "\U{1C}5";
    assert StripRight("\U{1C}5", Whitespace) == "\U{1C}5";
    assert StripLeft("5\U{1F}", Whitespace) == "5\U{1F}";
    assert StripRight("5\U{1F}", Whitespace) == "5\U{1F}";
  }

  /** `int()` refuses a doubled underscore. */
  lemma IntOfDoubleUnderscore()
    ensures IntOf("1__0") == None
  {
    NonSpace('1'); NonSpace('0');
    var t := "1__0";
    assert StripLeft(t, Whitespace) == t;
    assert Strip(t, Whitespace) == t;
    assert Piece(t, 1, 2) == "__";
    assert !IsNumeral(t);
  }

  /** `int()` refuses a leading underscore and a bare sign. */
  lemma IntOfRefused()
    ensures IntOf("_1") == None && IntOf("+") == None
  {
    NonSpace('1'); NonSpace('_'); NonSpace('+');
    assert StripLeft("_1", Whitespace) == "_1" && Strip("_1", Whitespace) == "_1";
    assert StripLeft("+", Whitespace) == "+" && Strip("+", Whitespace) == "+";
  }

  /** `int()` refuses white space between the sign and the digits. */
  lemma IntOfSpacedSign()
    ensures IntOf("- 3") == None
  {
    NonSpace('-'); NonSpace('3');
    var t := "- 3";
    assert StripLeft(t, Whitespace) == t;
    assert StripRight(t, Whitespace) == t;
    assert t[1..] == " 3" && !IsDigit(t[1..][0]);
  }

  /** Python's `t in s` for strings: `t` occurs in `s` as a contiguous piece. */
  predicate Contains(s: string, t: string) {
    exists i :: 0 <= i <= |s| - |t| && Piece(s, i, |t|) == t
  }

  /** The `n` characters of `s` from index `i` on. */
  function Piece(s: string, i: nat, n: nat): string
    requires i + n <= |s|
  {
    s[i..i + n]
  }

  /** A string cannot contain a piece with a character it lacks. */
  lemma NotContains(s: string, t: string, c: char)
    requires c in t && c !in s
    ensures !Contains(s, t)
  {
    forall i | 0 <= i <= |s| - |t|
      ensures Piece(s, i, |t|) != t
    {
      var k :| 0 <= k < |t| && t[k] == c;
      assert Piece(s, i, |t|)[k] == s[i + k] != c;
    }
  }

  /** Python's `s.split(sep)`: the pieces between separators; the empty string gives `[""]`. */
  function Split(s: string, sep: char): (r: seq<string>)
    ensures |r| >= 1
  {
    if s == [] then [""]
    else
      var rest := Split(s[1..], sep);
      if s[0] == sep then [""] + rest else [[s[0]] + rest[0]] + rest[1..]
  }

  /** Python's `sep.join(fields)` for a non-empty list of fields. */
  function Join(fields: seq<string>, sep: char): string
    requires |fields| >= 1
  {
    if |fields| == 1 then fields[0] else fields[0] + [sep] + Join(fields[1..], sep)
  }

  /** Every field followed by one separator, as save's loop accumulates it (game.py:81-83). */
  function Terminated(fields: seq<string>, sep: char): string {
    if fields == [] then "" else Terminated(fields[..|fields| - 1], sep) + fields[|fields| - 1] + [sep]
  }

  predicate Free(s: string, sep: char) {
    forall i :: 0 <= i < |s| ==> s[i] != sep
  }

  /** Dropping the last separator of the terminated form gives the joined form. */
  lemma {:induction false} TerminatedIsJoin(fields: seq<string>, sep: char)
    requires |fields| >= 1
    ensures Terminated(fields, sep) == Join(fields, sep) + [sep]
    decreases |fields|
  {
    if |fields| > 1 {
      var init := fields[..|fields| - 1];
      TerminatedIsJoin(init, sep);
      JoinSnoc(init, fields[|fields| - 1], sep);
      assert init + [fields[|fields| - 1]] == fields;
    }
  }

  lemma {:induction false} JoinSnoc(fields: seq<string>, f: string, sep: char)
    requires |fields| >= 1
    ensures Join(fields + [f], sep) == Join(fields, sep) + [sep] + f
    decreases |fields|
  {
    if |fields| > 1 {
      assert (fields + [f])[1..] == fields[1..] + [f];
      JoinSnoc(fields[1..], f, sep);
    } else {
      assert (fields + [f])[1..] == [f];
    }
  }

  /** A separator-free piece followed by a separator splits off as one field. */
  lemma {:induction false} SplitPiece(a: string, b: string, sep: char)
    requires Free(a, sep)
    ensures Split(a + [sep] + b, sep) == [a] + Split(b, sep)
    ensures Split(a, sep) == [a]
    decreases |a|
  {
    if a != [] {
      SplitPiece(a[1..], b, sep);
      assert (a + [sep] + b)[1..] == a[1..] + [sep] + b;
      assert [a[0]] + a[1..] == a;
    } else {
      assert a + [sep] + b == [sep] + b;
      assert ([sep] + b)[1..] == b;
    }
  }

  /** Splitting a join of separator-free fields gives the fields back. */
  lemma {:induction false} SplitJoin(fields: seq<string>, sep: char)
    requires |fields| >= 1
    requires forall i :: 0 <= i < |fields| ==> Free(fields[i], sep)
    ensures Split(Join(fields, sep), sep) == fields
    decreases |fields|
  {
    SplitPiece(fields[0], "", sep);
    if |fields| > 1 {
      SplitJoin(fields[1..], sep);
      SplitPiece(fields[0], Join(fields[1..], sep), sep);
    }
  }
}
