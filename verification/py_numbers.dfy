/** Python's numeric conversions as the scorer uses them: `float()` and `int()`
    of a string, `int()` of a float (truncation) and `round()` (half to even).
    Numbers are exact reals; a `None` result stands for the `ValueError` that
    Python raises. */
module PyNumbers {
  import opened Options
  import Text

  predicate IsDigit(c: char) {
    '0' <= c <= '9'
  }

  predicate AllDigits(s: string) {
    forall i :: 0 <= i < |s| ==> IsDigit(s[i])
  }

  predicate IsPoint(c: char) {
    c == '.'
  }

  /** The letter that introduces an exponent. */
  predicate IsExponentMark(c: char) {
    c == 'e' || c == 'E'
  }

  /** Some character of `s` is a decimal digit. */
  predicate HasDigit(s: string) {
    exists i :: 0 <= i < |s| && IsDigit(s[i])
  }

  /** The number written by a run of decimal digits, most significant first. */
  function DigitsValue(s: string): nat
    requires AllDigits(s)
  {
    if |s| == 0 then 0
    else 10 * DigitsValue(s[..|s| - 1]) + (s[|s| - 1] as int - '0' as int)
  }

  /** `x` times ten to the power `e`, for an exponent of either sign, one
      decimal place at a time. */
  function Shift(x: real, e: int): (r: real)
    ensures x > 0.0 ==> r > 0.0
    ensures x >= 0.0 ==> r >= 0.0
    decreases if e >= 0 then e else -e
  {
    if e == 0 then x
    else if e > 0 then Shift(x * 10.0, e - 1)
    else Shift(x / 10.0, e + 1)
  }

  /** Shifting by 3, 6 and 9 places multiplies by a thousand, a million and
      a billion. */
  lemma ShiftThousands(x: real)
    ensures Shift(x, 3) == x * 1000.0
    ensures Shift(x, 6) == x * 1000000.0
    ensures Shift(x, 9) == x * 1000000000.0
  {
    assert Shift(x, 3) == Shift(x * 1000.0, 0) by {
      assert Shift(x, 3) == Shift(x * 10.0, 2) == Shift(x * 100.0, 1);
    }
    assert Shift(x, 6) == Shift(x * 1000.0, 3) by {
      assert Shift(x, 6) == Shift(x * 10.0, 5) == Shift(x * 100.0, 4);
    }
    assert Shift(x * 1000.0, 3) == Shift(x * 1000000.0, 0) by {
      assert Shift(x * 1000.0, 3) == Shift(x * 10000.0, 2) == Shift(x * 100000.0, 1);
    }
    assert Shift(x, 9) == Shift(x * 1000000.0, 3) by {
      assert Shift(x, 9) == Shift(x * 10.0, 8) == Shift(x * 100.0, 7) == Shift(x * 1000.0, 6);
      assert Shift(x * 1000.0, 6) == Shift(x * 10000.0, 5) == Shift(x * 100000.0, 4) == Shift(x * 1000000.0, 3);
    }
    assert Shift(x * 1000000.0, 3) == Shift(x * 1000000000.0, 0) by {
      assert Shift(x * 1000000.0, 3) == Shift(x * 10000000.0, 2) == Shift(x * 100000000.0, 1);
    }
  }

  /** Index of the first character satisfying `p`, or `|s|` when there is none. */
  function Find(s: string, p: char -> bool): (i: nat)
    ensures i <= |s|
    ensures i < |s| ==> p(s[i])
    ensures forall j :: 0 <= j < i ==> !p(s[j])
  {
    if |s| == 0 then 0
    else if p(s[0]) then 0
    else
      var k := Find(s[1..], p);
      assert forall j :: 1 <= j < k + 1 ==> s[j] == s[1..][j - 1];
      k + 1
  }

  /** `s` without one leading '+' or '-', and whether that sign was '-'. */
  function Unsigned(s: string): (r: (bool, string))
    ensures r.1 == s || (|s| > 0 && r.1 == s[1..])
  {
    if |s| > 0 && (s[0] == '+' || s[0] == '-') then (s[0] == '-', s[1..]) else (false, s)
  }

  /** The digits of a mantissa `ddd`, `ddd.`, `.ddd` or `ddd.ddd`; at least one digit. */
  function ParseMantissa(m: string): (r: Option<real>)
    ensures r.Some? ==> r.value >= 0.0
    ensures r.Some? ==> HasDigit(m)
    ensures AllDigits(m) && |m| > 0 ==> r == Some(DigitsValue(m) as real)
  {
    var dot := Find(m, IsPoint);
    var whole := m[..dot];
    var frac := if dot < |m| then m[dot + 1..] else "";
    assert AllDigits(m) ==> dot == |m| && whole == m;
    assert |whole| > 0 ==> whole[0] == m[0];
    assert |frac| > 0 ==> frac[0] == m[dot + 1];
    if AllDigits(whole) && AllDigits(frac) && |whole| + |frac| > 0 then
      Some(PointValue(whole, frac))
    else None
  }

  /** The value of `whole.frac`: the whole digits plus the fraction digits
      shifted right by their count. */
  function PointValue(whole: string, frac: string): (r: real)
    requires AllDigits(whole) && AllDigits(frac)
    ensures r >= 0.0
  {
    DigitsValue(whole) as real + Shift(DigitsValue(frac) as real, -|frac|)
  }

  /** An exponent: an optional sign and at least one digit. */
  function ParseExponent(e: string): Option<int> {
    var (negative, digits) := Unsigned(e);
    if |digits| > 0 && AllDigits(digits) then
      Some(if negative then -(DigitsValue(digits) as int) else DigitsValue(digits))
    else None
  }

  /** Python `float(s)` for decimal numerals: surrounding whitespace, an optional
      sign, a mantissa and an optional exponent introduced by 'e' or 'E'.
      `None` is the `ValueError` for anything else; in particular a string
      without a digit never converts. */
  function ParseFloat(s: string): (r: Option<real>)
    ensures r.Some? ==> HasDigit(s)
  {
    var t := Text.Strip(s, Text.IsPySpace);
    var (negative, body) := Unsigned(t);
    var e := Find(body, IsExponentMark);
    var mantissa := ParseMantissa(body[..e]);
    var exponent := if e < |body| then ParseExponent(body[e + 1..]) else Some(0);
    if mantissa.None? || exponent.None? then None
    else
      assert HasDigit(s) by {
        DigitInside(s, t, body, body[..e]);
      }
      var x := Shift(mantissa.value, exponent.value);
      Some(if negative then -x else x)
  }

  /** Python `int(s)` for a string: surrounding whitespace, an optional sign and
      at least one decimal digit. `None` is the `ValueError` for anything else. */
  function ParseInt(s: string): (r: Option<int>)
    ensures r.Some? ==> HasDigit(s)
  {
    var t := Text.Strip(s, Text.IsPySpace);
    var (negative, digits) := Unsigned(t);
    if |digits| > 0 && AllDigits(digits) then
      assert HasDigit(s) by {
        assert digits[..1][0] == digits[0];
        assert HasDigit(digits[..1]);
        DigitInside(s, t, digits, digits[..1]);
      }
      Some(if negative then -(DigitsValue(digits) as int) else DigitsValue(digits))
    else None
  }

  /** A digit of a prefix of the unsigned, stripped text is a digit of `s`. */
  lemma DigitInside(s: string, t: string, body: string, m: string)
    requires t == Text.Strip(s, Text.IsPySpace)
    requires body == t || (|t| > 0 && body == t[1..])
    requires |m| <= |body| && m == body[..|m|]
    requires HasDigit(m)
    ensures HasDigit(s)
  {
    var i :| 0 <= i < |m| && IsDigit(m[i]);
    var c := m[i];
    assert c in body;
    assert c in t;
    var j :| 0 <= j < |s| && s[j] == c;
  }

  lemma DigitIsNotSpace(c: char)
    requires IsDigit(c)
    ensures !Text.IsPySpace(c) && !Text.IsJsSpace(c)
  {
  }

  /** A plain run of digits is its own stripped form. */
  lemma DigitsAreStripped(s: string)
    requires |s| > 0 && AllDigits(s)
    ensures Text.Strip(s, Text.IsPySpace) == s
  {
    DigitIsNotSpace(s[0]);
    DigitIsNotSpace(s[|s| - 1]);
  }

  /** `float()` reads a run of digits as the number it writes. */
  lemma ParseFloatDigits(s: string)
    requires |s| > 0 && AllDigits(s)
    ensures ParseFloat(s) == Some(DigitsValue(s) as real)
  {
    DigitsAreStripped(s);
    assert Unsigned(s) == (false, s);
    assert Find(s, IsExponentMark) == |s|;
    assert s[..|s|] == s;
  }

  /** `int()` reads a run of digits as the number it writes. */
  lemma ParseIntDigits(s: string)
    requires |s| > 0 && AllDigits(s)
    ensures ParseInt(s) == Some(DigitsValue(s))
  {
    DigitsAreStripped(s);
    assert Unsigned(s) == (false, s);
  }

  /** Digits and decimal points only: no sign, exponent or white space. */
  predicate PointDigits(s: string) {
    forall i :: 0 <= i < |s| ==> IsDigit(s[i]) || s[i] == '.'
  }

  /** Such text goes straight to the mantissa reading. */
  lemma ParseFloatUnsigned(s: string)
    requires |s| > 0 && PointDigits(s)
    ensures ParseFloat(s) == ParseMantissa(s)
  {
    assert Text.Trimmed(s, Text.IsPySpace);
    assert Unsigned(s) == (false, s);
    assert Find(s, IsExponentMark) == |s|;
    assert s[..|s|] == s;
  }

  /** The mantissa `w.f` is the whole digits plus the fraction digits shifted
      right by their count. */
  lemma ParseMantissaPoint(w: string, f: string)
    requires AllDigits(w) && AllDigits(f) && |w| + |f| > 0
    ensures ParseMantissa(w + "." + f) == Some(PointValue(w, f))
  {
    var s := w + "." + f;
    var dot := Find(s, IsPoint);
    assert s[|w|] == '.';
    assert forall i :: 0 <= i < |w| ==> s[i] == w[i];
    assert dot == |w|;
    var whole := s[..dot];
    var frac := if dot < |s| then s[dot + 1..] else "";
    assert whole == w;
    assert frac == f;
    assert AllDigits(whole) && AllDigits(frac) && |whole| + |frac| > 0;
  }

  /** A decimal numeral `w.f` reads as its whole part plus its fraction. */
  lemma ParseFloatPoint(w: string, f: string)
    requires AllDigits(w) && AllDigits(f) && |w| + |f| > 0
    ensures ParseFloat(w + "." + f) == Some(PointValue(w, f))
  {
    var s := w + "." + f;
    assert PointDigits(s) by {
      forall i | 0 <= i < |s|
        ensures IsDigit(s[i]) || s[i] == '.'
      {
        if i < |w| { assert s[i] == w[i]; }
        else if i > |w| { assert s[i] == f[i - |w| - 1]; }
      }
    }
    ParseFloatUnsigned(s);
    ParseMantissaPoint(w, f);
  }

  /** The decimal digit for `d < 10`. */
  function DigitChar(d: nat): (c: char)
    requires d < 10
    ensures IsDigit(c) && c as int - '0' as int == d
  {
    ('0' as int + d) as char
  }

  /** The decimal digits of `n`, most significant first, without leading zeros:
      the text `str()` gives a natural number. */
  function DigitsText(n: nat): (r: string)
    ensures |r| > 0 && AllDigits(r)
    ensures DigitsValue(r) == n
  {
    if n < 10 then [DigitChar(n)]
    else
      var r := DigitsText(n / 10) + [DigitChar(n % 10)];
      assert r[..|r| - 1] == DigitsText(n / 10);
      r
  }

  /** `str(n)` for an integer: a minus sign for a negative one, then the digits. */
  function IntText(n: int): string {
    if n < 0 then "-" + DigitsText(-n) else DigitsText(n)
  }

  /** `int(str(n)) == n`: `int()` reads back every integer `str()` writes. */
  lemma ParseIntText(n: int)
    ensures ParseInt(IntText(n)) == Some(n)
  {
    IntTextShape(n);
  }

  /** `str(n)` has nothing to strip, and its sign comes off as `n`'s sign. */
  lemma IntTextShape(n: int)
    ensures Text.Strip(IntText(n), Text.IsPySpace) == IntText(n)
    ensures Unsigned(IntText(n)) == (n < 0, DigitsText(if n < 0 then -n else n))
  {
    IntTextTrimmed(n);
    if n < 0 {
      var s := IntText(n);
      assert s[1..] == DigitsText(-n);
    }
  }

  lemma IntTextTrimmed(n: int)
    ensures Text.Trimmed(IntText(n), Text.IsPySpace)
  {
    var digits := DigitsText(if n < 0 then -n else n);
    var s := IntText(n);
    assert !Text.IsPySpace(digits[0]) && !Text.IsPySpace(digits[|digits| - 1]);
    assert s[|s| - 1] == digits[|digits| - 1];
  }

  /** Python `int(x)` for a finite float: truncation toward zero. */
  function Trunc(x: real): (r: int)
    ensures 0.0 <= x ==> r as real <= x < r as real + 1.0
    ensures x < 0.0 ==> r as real - 1.0 < x <= r as real
  {
    if x >= 0.0 then x.Floor else -((-x).Floor)
  }

  /** Python `round(x)`: the nearest integer, ties going to the even neighbour. */
  function RoundHalfEven(x: real): (r: int)
    ensures x - 0.5 <= r as real <= x + 0.5
    ensures (r as real == x - 0.5 || r as real == x + 0.5) ==> r % 2 == 0
  {
    var f := x.Floor;
    var d := x - f as real;
    if d < 0.5 then f
    else if d > 0.5 then f + 1
    else if f % 2 == 0 then f
    else f + 1
  }

  /** The contract of `RoundHalfEven` pins its result down: no other integer is
      within one half of `x` and even on a tie. */
  lemma RoundHalfEvenUnique(x: real, n: int)
    requires x - 0.5 <= n as real <= x + 0.5
    requires (n as real == x - 0.5 || n as real == x + 0.5) ==> n % 2 == 0
    ensures n == RoundHalfEven(x)
  {
  }
}
