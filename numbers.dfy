/** Decimal numerals: writing a natural number (`str(n)`, `String(n)`,
    a template literal) and reading an integer token (`int(x)`). */
module Numbers {
  import opened Wrappers
  import opened Strings

  predicate IsDigit(c: char)
  {
    '0' <= c <= '9'
  }

  function Digit(d: nat): (c: char)
    requires d < 10
    ensures IsDigit(c) && (c as int) - ('0' as int) == d
  {
    ('0' as int + d) as char
  }

  /** `str(n)` for a non-negative integer: its decimal digits, no sign and
      no leading zero. */
  function Show(n: nat): (s: string)
    ensures s != [] && forall i :: 0 <= i < |s| ==> IsDigit(s[i])
  {
    if n < 10 then [Digit(n)] else Show(n / 10) + [Digit(n % 10)]
  }

  function DigitOf(c: char): (d: nat)
    requires IsDigit(c)
    ensures d < 10 && Digit(d) == c
  {
    (c as int) - ('0' as int)
  }

  /** The value of a string of decimal digits. */
  function DigitsValue(s: string): nat
    requires forall i :: 0 <= i < |s| ==> IsDigit(s[i])
  {
    if s == [] then 0
    else DigitsValue(s[..|s| - 1]) * 10 + DigitOf(s[|s| - 1])
  }

  predicate AllDigits(s: string)
  {
    forall i :: 0 <= i < |s| ==> IsDigit(s[i])
  }

  /** `int(x)` on a token, narrowed: an optional sign and at least one
      ASCII digit give a number, and anything else is `None` (Python's
      `ValueError`). Python also accepts surrounding whitespace, single
      underscores between digits (`1_000`) and non-ASCII digits; those
      tokens are `None` here. */
  function ParseInt(x: string): (r: Option<int>)
    ensures r.Some? ==> x != []
    ensures x != [] && AllDigits(x) ==> r == Some(DigitsValue(x) as int)
  {
    if x != [] && (x[0] == '-' || x[0] == '+') then
      var d := x[1..];
      if d != [] && AllDigits(d) then Some(if x[0] == '-' then -(DigitsValue(d) as int) else DigitsValue(d) as int)
      else None
    else if x != [] && AllDigits(x) then Some(DigitsValue(x) as int)
    else None
  }

  /** `int(str(n)) == n`. */
  lemma {:induction false} ShowParse(n: nat)
    ensures ParseInt(Show(n)) == Some(n as int)
  {
    ShowValue(n);
  }

  lemma {:induction false} ShowValue(n: nat)
    ensures DigitsValue(Show(n)) == n
  {
    var s := Show(n);
    if n >= 10 {
      ShowValue(n / 10);
      assert s[..|s| - 1] == Show(n / 10);
    }
  }

  /** The longest run of decimal digits at the start of `s`. */
  function DigitRun(s: string): (r: string)
    ensures AllDigits(r) && StartsWith(s, r)
    ensures |r| < |s| ==> !IsDigit(s[|r|])
  {
    if s != [] && IsDigit(s[0]) then [s[0]] + DigitRun(s[1..]) else []
  }

  /** JavaScript's `parseInt(s, 10)`: leading whitespace skipped, an
      optional sign, then the longest run of digits; `None` (NaN) when
      there is no digit. */
  function ParseIntPrefix(s: string): Option<int>
  {
    var t := TrimStart(s);
    var signed := t != [] && (t[0] == '-' || t[0] == '+');
    var d := DigitRun(if signed then t[1..] else t);
    if d == [] then None
    else Some(if signed && t[0] == '-' then -(DigitsValue(d) as int) else DigitsValue(d) as int)
  }

  /** A numeral of digits only reads as its value. */
  lemma {:induction false} ParseIntPrefixDigits(s: string)
    requires AllDigits(s) && s != []
    ensures ParseIntPrefix(s) == Some(DigitsValue(s) as int)
  {
    assert TrimStart(s) == s;
    DigitRunAll(s);
  }

  lemma {:induction false} DigitRunAll(s: string)
    requires AllDigits(s)
    ensures DigitRun(s) == s
  {
    if s != [] {
      DigitRunAll(s[1..]);
      assert s == [s[0]] + s[1..];
    }
  }

  /** `parseInt(String(n)) == n`. */
  lemma {:induction false} ShowParsePrefix(n: nat)
    ensures ParseIntPrefix(Show(n)) == Some(n as int)
  {
    ParseIntPrefixDigits(Show(n));
    ShowValue(n);
  }

  predicate IsHexDigit(c: char)
  {
    IsDigit(c) || 'a' <= c <= 'f' || 'A' <= c <= 'F'
  }

  predicate AllHex(s: string)
  {
    forall i :: 0 <= i < |s| ==> IsHexDigit(s[i])
  }

  function HexDigitOf(c: char): (d: nat)
    requires IsHexDigit(c)
    ensures d < 16
  {
    if IsDigit(c) then DigitOf(c)
    else if 'a' <= c <= 'f' then (c as int) - ('a' as int) + 10
    else (c as int) - ('A' as int) + 10
  }

  /** The value of a string of hexadecimal digits. */
  function HexValue(s: string): nat
    requires AllHex(s)
  {
    if s == [] then 0
    else HexValue(s[..|s| - 1]) * 16 + HexDigitOf(s[|s| - 1])
  }

  /** The longest run of hexadecimal digits at the start of `s`. */
  function HexRun(s: string): (r: string)
    ensures AllHex(r) && StartsWith(s, r)
    ensures |r| < |s| ==> !IsHexDigit(s[|r|])
  {
    if s != [] && IsHexDigit(s[0]) then [s[0]] + HexRun(s[1..]) else []
  }

  /** The text `parseInt` reads digits from: leading whitespace and an
      optional sign removed. */
  function Unsigned(s: string): string
  {
    var t := TrimStart(s);
    if t != [] && (t[0] == '-' || t[0] == '+') then t[1..] else t
  }

  predicate Negative(s: string)
  {
    var t := TrimStart(s);
    t != [] && t[0] == '-'
  }

  /** Without a radix, `parseInt` reads base 16 after a `0x` or `0X`. */
  predicate HexPrefixed(s: string)
  {
    var u := Unsigned(s);
    |u| >= 2 && u[0] == '0' && (u[1] == 'x' || u[1] == 'X')
  }

  /** JavaScript's `parseInt(s)` with no radix: leading whitespace skipped,
      an optional sign, then a `0x`/`0X` prefix selects hexadecimal and the
      longest run of hex digits is read; otherwise it is `parseInt(s, 10)`.
      A prefix with no hex digit after it is NaN (`None`). */
  function ParseIntAuto(s: string): (r: Option<int>)
    ensures !HexPrefixed(s) ==> r == ParseIntPrefix(s)
    ensures HexPrefixed(s) ==> var d := HexRun(Unsigned(s)[2..]);
      (d == [] <==> r.None?) &&
      (d != [] ==> r == Some(if Negative(s) then -(HexValue(d) as int) else HexValue(d) as int))
  {
    if HexPrefixed(s) then
      var d := HexRun(Unsigned(s)[2..]);
      if d == [] then None
      else Some(if Negative(s) then -(HexValue(d) as int) else HexValue(d) as int)
    else ParseIntPrefix(s)
  }

  /** `parseInt(String(n)) == n` without a radix too: a decimal numeral
      never carries the hex prefix. */
  lemma {:induction false} ShowParseAuto(n: nat)
    ensures ParseIntAuto(Show(n)) == Some(n as int)
  {
    var s := Show(n);
    assert TrimStart(s) == s;
    assert Unsigned(s) == s;
    assert !HexPrefixed(s) by {
      if |s| >= 2 { assert IsDigit(s[1]); }
    }
    ShowParsePrefix(n);
  }

  /** `parseInt(String(n)) == n` for every natural number, without a radix. */
  lemma {:induction false} ShowParseAutoAll()
    ensures forall n: nat :: ParseIntAuto(Show(n)) == Some(n as int)
  {
    forall n: nat
      ensures ParseIntAuto(Show(n)) == Some(n as int)
    {
      ShowParseAuto(n);
    }
  }

  /** A `0x` numeral of hex digits reads as its base-16 value. */
  lemma {:induction false} ParseIntAutoHex(d: string)
    requires d != [] && AllHex(d)
    ensures ParseIntAuto("0x" + d) == Some(HexValue(d) as int)
  {
    var s := "0x" + d;
    assert TrimStart(s) == s;
    assert Unsigned(s) == s;
    assert s[2..] == d;
    HexRunAll(d);
  }

  lemma {:induction false} HexRunAll(s: string)
    requires AllHex(s)
    ensures HexRun(s) == s
  {
    if s != [] {
      HexRunAll(s[1..]);
      assert s == [s[0]] + s[1..];
    }
  }

  /** With no radix "0x8" is 8, while `parseInt("0x8", 10)` stops at the
      `x` and gives 0. */
  lemma HexEight()
    ensures ParseIntAuto("0x8") == Some(8) && ParseIntPrefix("0x8") == Some(0)
  {
    ParseIntAutoHex("8");
    assert "0x" + "8" == "0x8";
    var s := "0x8";
    assert TrimStart(s) == s;
    assert DigitRun(s[1..]) == [];
    assert DigitRun(s) == "0";
    assert DigitsValue("0") == 0;
  }

  /** `String(n)` for any integer: a minus sign before a negative one. */
  function ShowInt(n: int): string
  {
    if n >= 0 then Show(n) else "-" + Show(-n)
  }

  /** `int(String(n)) == n` for every integer, signs included. */
  lemma {:induction false} ShowIntParse(n: int)
    ensures ParseInt(ShowInt(n)) == Some(n)
  {
    if n >= 0 {
      ShowParse(n);
    } else {
      var x := ShowInt(n);
      ShowValue(-n);
      assert x[1..] == Show(-n);
    }
  }
}
