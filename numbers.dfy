/** Decimal text and rounding, with the semantics of the JavaScript and Python built-ins
    the dashboard uses (on exact reals, not IEEE doubles). */
module Numbers {
  import opened Wrappers

  predicate IsDigit(c: char) {
    '0' <= c <= '9'
  }

  predicate AllDigits(s: string) {
    forall i :: 0 <= i < |s| ==> IsDigit(s[i])
  }

  function DigitValue(c: char): (d: nat)
    requires IsDigit(c)
    ensures d < 10
  {
    c as int - '0' as int
  }

  function DigitChar(d: nat): (c: char)
    requires d < 10
    ensures IsDigit(c) && DigitValue(c) == d
  {
    ('0' as int + d) as char
  }

  /** The value of a string of decimal digits, most significant first. */
  function DigitsValue(s: string): nat
    requires AllDigits(s)
  {
    if s == [] then 0 else DigitsValue(s[..|s| - 1]) * 10 + DigitValue(s[|s| - 1])
  }

  /** JavaScript's `String(n)` / Python's `str(n)` for a natural number. */
  function NatToString(n: nat): (s: string)
    ensures |s| > 0 && AllDigits(s)
    ensures n < 10 <==> |s| == 1
    ensures n > 0 ==> s[0] != '0'
  {
    if n < 10 then [DigitChar(n)] else NatToString(n / 10) + [DigitChar(n % 10)]
  }

  /** Printing a number and reading it back gives the number. */
  lemma {:induction false} NatToStringValue(n: nat)
    ensures DigitsValue(NatToString(n)) == n
  {
    if n >= 10 {
      var s := NatToString(n);
      assert s[..|s| - 1] == NatToString(n / 10);
      NatToStringValue(n / 10);
    }
  }

  /** A string of digits without a superfluous leading zero is the printed form of its value. */
  lemma {:induction false} NatToStringOfDigits(s: string)
    requires |s| > 0 && AllDigits(s) && (|s| > 1 ==> s[0] != '0')
    ensures NatToString(DigitsValue(s)) == s
  {
    if |s| > 1 {
      var p := s[..|s| - 1];
      NatToStringOfDigits(p);
      DigitsValueLeadingZero(p);
      assert DigitsValue(s) / 10 == DigitsValue(p);
      assert DigitsValue(s) % 10 == DigitValue(s[|s| - 1]);
    }
  }

  /** A multi-digit string that does not start with '0' has a value of at least 10. */
  lemma {:induction false} DigitsValueLeadingZero(s: string)
    requires |s| > 0 && AllDigits(s) && s[0] != '0'
    ensures DigitsValue(s) > 0
    ensures |s| > 1 ==> DigitsValue(s) >= 10
  {
    if |s| > 1 {
      DigitsValueLeadingZero(s[..|s| - 1]);
    }
  }

  lemma ModHundred(a: nat, m: nat)
    requires m < 100
    ensures (a * 100 + m) % 100 == m
  {
  }

  lemma LastTwoDigitsOf(s: string)
    requires AllDigits(s) && |s| >= 2
    ensures DigitsValue(s[|s| - 2..]) == DigitValue(s[|s| - 2]) * 10 + DigitValue(s[|s| - 1])
  {
    var n := |s|;
    var t := s[n - 2..];
    assert t[..1] == [s[n - 2]];
    assert [s[n - 2]][..0] == [];
    assert DigitsValue([s[n - 2]]) == DigitValue(s[n - 2]);
    assert t[|t| - 1] == s[n - 1];
  }

  lemma DigitsValueSplitTwo(s: string)
    requires AllDigits(s) && |s| >= 2
    ensures DigitsValue(s) == DigitsValue(s[..|s| - 2]) * 100 + (DigitValue(s[|s| - 2]) * 10 + DigitValue(s[|s| - 1]))
  {
    var n := |s|;
    var p := s[..n - 1];
    assert p[..n - 2] == s[..n - 2];
    assert p[n - 2] == s[n - 2];
    assert DigitsValue(p) == DigitsValue(s[..n - 2]) * 10 + DigitValue(s[n - 2]);
  }

  /** The last two digits of a numeral are its value modulo 100. */
  lemma LastTwoDigitsValue(s: string)
    requires AllDigits(s) && |s| >= 2
    ensures AllDigits(s[|s| - 2..]) && DigitsValue(s[|s| - 2..]) == DigitsValue(s) % 100
  {
    LastTwoDigitsOf(s);
    DigitsValueSplitTwo(s);
    ModHundred(DigitsValue(s[..|s| - 2]), DigitValue(s[|s| - 2]) * 10 + DigitValue(s[|s| - 1]));
  }

  /** The printed form of a number below 100, character by character. */
  lemma NatToStringSmall(n: nat)
    requires n < 100
    ensures n < 10 ==> NatToString(n) == [DigitChar(n)]
    ensures 10 <= n ==> NatToString(n) == [DigitChar(n / 10), DigitChar(n % 10)]
  {
    if n >= 10 {
      assert NatToString(n / 10) == [DigitChar(n / 10)];
    }
  }

  /** The value of two digits. */
  lemma DigitsValueTwo(s: string)
    requires |s| == 2 && AllDigits(s)
    ensures DigitsValue(s) == DigitValue(s[0]) * 10 + DigitValue(s[1])
  {
    var p := s[..1];
    assert p[..0] == [] && p[0] == s[0];
    assert DigitsValue(p) == DigitValue(s[0]);
    assert DigitsValue(s) == DigitsValue(p) * 10 + DigitValue(s[1]);
  }

  /** JavaScript's `String(i)` / Python's `str(i)` for an integer. */
  function IntToString(i: int): (s: string)
    ensures |s| > 0
  {
    if i < 0 then "-" + NatToString(-i) else NatToString(i)
  }

  /** JavaScript's `s.padStart(2, "0")`. */
  function PadStart2(s: string): (r: string)
    ensures |s| >= 2 ==> r == s
    ensures |s| < 2 ==> |r| == 2 && r[2 - |s|..] == s && forall i :: 0 <= i < 2 - |s| ==> r[i] == '0'
  {
    if |s| >= 2 then s else if |s| == 1 then "0" + s else "00"
  }

  /** The two-digit form of a month or a two-digit year: `String(n).padStart(2, "0")`. */
  function TwoDigits(n: nat): (r: string)
    requires n < 100
    ensures |r| == 2 && AllDigits(r) && DigitsValue(r) == n
  {
    var r := PadStart2(NatToString(n));
    NatToStringValue(n);
    assert n < 10 ==> r[..1] == "0" && DigitsValue(r[..1]) == 0;
    r
  }

  /** The two-digit form, character by character. */
  lemma TwoDigitsChars(n: nat)
    requires n < 100
    ensures TwoDigits(n) == [DigitChar(n / 10), DigitChar(n % 10)]
  {
    NatToStringSmall(n);
    if n < 10 {
      assert n / 10 == 0 && n % 10 == n;
      assert PadStart2([DigitChar(n)]) == [DigitChar(0), DigitChar(n)];
    }
  }

  /** The digit of a digit's value is that digit. */
  lemma DigitCharOfValue(c: char)
    requires IsDigit(c)
    ensures DigitChar(DigitValue(c)) == c
  {
  }

  /** Two digits are the two-digit form of their value. */
  lemma TwoDigitsOfDigits(s: string)
    requires |s| == 2 && AllDigits(s)
    ensures DigitsValue(s) < 100 && TwoDigits(DigitsValue(s)) == s
  {
    DigitsValueTwo(s);
    var d0, d1 := DigitValue(s[0]), DigitValue(s[1]);
    var v := DigitsValue(s);
    assert v / 10 == d0 && v % 10 == d1;
    TwoDigitsChars(v);
    DigitCharOfValue(s[0]);
    DigitCharOfValue(s[1]);
    assert s == [s[0], s[1]];
  }

  /** JavaScript's `Math.round`: the nearest integer, halves rounded up. */
  function JsRound(x: real): (n: int)
    ensures x - 0.5 < n as real <= x + 0.5
  {
    (x + 0.5).Floor
  }

  /** Python's built-in `round(x)`: the nearest integer, halves rounded to the even neighbour. */
  function PyRound(x: real): (n: int)
    ensures x - 0.5 <= n as real <= x + 0.5
    ensures (n as real == x - 0.5 || n as real == x + 0.5) ==> n % 2 == 0
  {
    var f := x.Floor;
    var d := x - f as real;
    if d < 0.5 then f else if d > 0.5 then f + 1 else if f % 2 == 0 then f else f + 1
  }

  /** Python's `int(s)` on an optionally signed decimal literal; `None` stands for the
      `ValueError` it raises on anything else. Python also skips surrounding whitespace and `_`
      separators; neither is modelled, since every caller passes a part of a "YYYY.MM" or "YY.MM" name. */
  function PyInt(s: string): (r: Option<int>)
    ensures AllDigits(s) && s != [] ==> r == Some(DigitsValue(s))
  {
    if s != [] && AllDigits(s) then Some(DigitsValue(s))
    else if |s| > 1 && s[0] == '-' && AllDigits(s[1..]) then Some(0 - DigitsValue(s[1..]) as int)
    else if |s| > 1 && s[0] == '+' && AllDigits(s[1..]) then Some(DigitsValue(s[1..]))
    else None
  }

  /** Length of the longest prefix of `s` made of digits. */
  function DigitPrefixLength(s: string): (n: nat)
    ensures n <= |s| && AllDigits(s[..n])
    ensures n < |s| ==> !IsDigit(s[n])
  {
    if s == [] || !IsDigit(s[0]) then 0
    else
      var n := 1 + DigitPrefixLength(s[1..]);
      assert s[..n] == [s[0]] + s[1..][..n - 1];
      n
  }

  /** JavaScript's `parseInt(s, 10)`: an optional sign followed by the longest run of digits;
      `None` stands for `NaN` (no digit at the start). Leading whitespace, which JavaScript
      skips, is not modelled: every caller passes a month key, a two-digit year or a slice of "YYYYMM". */
  function JsParseInt(s: string): (r: Option<int>)
    ensures AllDigits(s) && s != [] ==> r == Some(DigitsValue(s))
  {
    var neg := |s| > 0 && s[0] == '-';
    var body := if |s| > 0 && (s[0] == '-' || s[0] == '+') then s[1..] else s;
    var n := DigitPrefixLength(body);
    if n == 0 then None
    else
      assert AllDigits(s) && s != [] ==> body == s && n == |s| && body[..n] == s;
      Some(if neg then 0 - DigitsValue(body[..n]) as int else DigitsValue(body[..n]))
  }

  /** The sum of a sequence of amounts, added from the front. */
  function RealSum(xs: seq<real>): real {
    if xs == [] then 0.0 else RealSum(xs[..|xs| - 1]) + xs[|xs| - 1]
  }

  lemma RealSumSnoc(xs: seq<real>, x: real)
    ensures RealSum(xs + [x]) == RealSum(xs) + x
  {
    assert (xs + [x])[..|xs|] == xs;
  }

  /** Replacing one amount changes the sum by the difference. */
  lemma {:induction false} RealSumUpdate(xs: seq<real>, j: nat, v: real)
    requires j < |xs|
    ensures RealSum(xs[j := v]) == RealSum(xs) - xs[j] + v
  {
    var n := |xs| - 1;
    var ys := xs[j := v];
    if j == n {
      assert ys[..n] == xs[..n];
    } else {
      assert ys[..n] == xs[..n][j := v];
      RealSumUpdate(xs[..n], j, v);
    }
  }
}
