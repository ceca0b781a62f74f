/**
 * JavaScript `parseFloat` (section 21.1.2.12 of ECMA-262): after leading
 * white space, the longest prefix that reads as a StrDecimalLiteral
 * (an optional sign, then `Infinity` or decimal digits with an optional
 * fraction and exponent) gives the value; with no such prefix the result
 * is NaN. Values are kept as exact decimals: rounding to the nearest
 * double, overflow to infinity and the sign of zero are not modelled.
 */
module JsNumber {
  import JsText

  /** A JavaScript number as `parseFloat` produces it. */
  datatype Num = NaN | Infinity(negative: bool) | Finite(value: real)

  predicate IsDigit(c: char)
  {
    '0' <= c <= '9'
  }

  predicate AllDigits(s: string)
  {
    forall i :: 0 <= i < |s| ==> IsDigit(s[i])
  }

  /** Length of the run of decimal digits at the start of `s`. */
  function DigitRun(s: string): (n: nat)
    ensures n <= |s|
    ensures AllDigits(s[..n])
    ensures n < |s| ==> !IsDigit(s[n])
  {
    if s != [] && IsDigit(s[0]) then 1 + DigitRun(s[1..]) else 0
  }

  /** The natural number a string of decimal digits denotes. */
  function DigitsValue(d: string): nat
    requires AllDigits(d)
  {
    if d == [] then 0
    else DigitsValue(d[..|d| - 1]) * 10 + (d[|d| - 1] as int - '0' as int)
  }

  function Pow10(n: nat): (p: nat)
    ensures p >= 1
  {
    if n == 0 then 1 else 10 * Pow10(n - 1)
  }

  /** `m` times ten to the power `e`, exactly. */
  function Scale(m: nat, e: int): real
  {
    if e >= 0 then (m * Pow10(e)) as real else m as real / Pow10(-e) as real
  }

  /**
   * The exponent of an ExponentPart at the start of `t` (`e` or `E`, an
   * optional sign, at least one digit), or 0 when `t` does not start with one.
   */
  function ExponentOf(t: string): int
  {
    if |t| > 0 && (t[0] == 'e' || t[0] == 'E') then
      var signed := |t| > 1 && (t[1] == '+' || t[1] == '-');
      var digits := if signed then t[2..] else t[1..];
      var n := DigitRun(digits);
      if n == 0 then 0
      else if signed && t[1] == '-' then 0 - DigitsValue(digits[..n])
      else DigitsValue(digits[..n])
    else 0
  }

  /** The value of the longest StrUnsignedDecimalLiteral prefix of `s`. */
  function UnsignedPrefix(s: string): Num
  {
    if |s| >= 8 && s[..8] == "Infinity" then Infinity(false)
    else
      var i := DigitRun(s);
      var hasPoint := i < |s| && s[i] == '.';
      var f := if hasPoint then DigitRun(s[i + 1..]) else 0;
      if i == 0 && f == 0 then NaN
      else
        var fraction := if hasPoint then s[i + 1..][..f] else "";
        var rest := if hasPoint then s[i + 1 + f..] else s[i..];
        assert AllDigits(s[..i] + fraction) by {
          assert forall k :: 0 <= k < |s[..i] + fraction| ==>
            (s[..i] + fraction)[k] == if k < i then s[..i][k] else fraction[k - i];
        }
        Finite(Scale(DigitsValue(s[..i] + fraction), ExponentOf(rest) - f))
  }

  function Negate(n: Num): Num
  {
    match n
    case NaN => NaN
    case Infinity(neg) => Infinity(!neg)
    case Finite(x) => Finite(-x)
  }

  /** `parseFloat(s)`. */
  function ParseFloat(s: string): Num
  {
    var t := JsText.TrimStart(s);
    if |t| > 0 && t[0] == '-' then Negate(UnsignedPrefix(t[1..]))
    else if |t| > 0 && t[0] == '+' then UnsignedPrefix(t[1..])
    else UnsignedPrefix(t)
  }

  /**
   * Whether `u` starts with something `parseFloat` can read without a
   * sign: `Infinity`, a digit, or a point followed by a digit.
   */
  predicate StartsUnsignedNumber(u: string)
  {
    || (|u| >= 8 && u[..8] == "Infinity")
    || (|u| > 0 && IsDigit(u[0]))
    || (|u| > 1 && u[0] == '.' && IsDigit(u[1]))
  }

  /** Whether the text after leading white space starts like a number. */
  predicate StartsNumber(s: string)
  {
    var t := JsText.TrimStart(s);
    if |t| > 0 && (t[0] == '-' || t[0] == '+') then StartsUnsignedNumber(t[1..])
    else StartsUnsignedNumber(t)
  }

  lemma UnsignedPrefixNaN(u: string)
    ensures UnsignedPrefix(u).NaN? <==> !StartsUnsignedNumber(u)
  {
    var i := DigitRun(u);
    if |u| > 0 && IsDigit(u[0]) {
      assert i >= 1;
    }
    if |u| > 1 && u[0] == '.' && IsDigit(u[1]) && !(|u| >= 8 && u[..8] == "Infinity") {
      assert i == 0;
      assert u[1..][0] == u[1];
      assert DigitRun(u[1..]) >= 1;
    }
  }

  /**
   * `parseFloat` yields NaN exactly when the text, after white space and
   * an optional sign, does not start with `Infinity`, a digit, or a point
   * followed by a digit: every other input reads as a number.
   */
  lemma ParseFloatNaN(s: string)
    ensures ParseFloat(s).NaN? <==> !StartsNumber(s)
  {
    var t := JsText.TrimStart(s);
    if |t| > 0 && (t[0] == '-' || t[0] == '+') {
      UnsignedPrefixNaN(t[1..]);
    } else {
      UnsignedPrefixNaN(t);
    }
  }

  /** The empty string, and so every blank piece, parses to NaN. */
  lemma ParseFloatEmpty()
    ensures ParseFloat("") == NaN
  {
    ParseFloatNaN("");
  }

  /** A string made only of digits is its own digit run. */
  lemma {:induction false} DigitRunAll(s: string)
    requires AllDigits(s)
    ensures DigitRun(s) == |s|
  {
    if s != [] {
      assert AllDigits(s[1..]) by {
        forall k | 0 <= k < |s| - 1
          ensures IsDigit(s[1..][k])
        {
          assert s[1..][k] == s[k + 1];
        }
      }
      DigitRunAll(s[1..]);
    }
  }

  /** The digit run ends at the first character that is not a digit. */
  lemma {:induction false} DigitRunStops(s: string, i: nat)
    requires i < |s| && AllDigits(s[..i]) && !IsDigit(s[i])
    ensures DigitRun(s) == i
  {
    if i > 0 {
      assert IsDigit(s[..i][0]);
      var t := s[1..][..i - 1];
      assert AllDigits(t) by {
        forall k | 0 <= k < |t|
          ensures IsDigit(t[k])
        {
          assert t[k] == s[..i][k + 1];
        }
      }
      assert s[1..][i - 1] == s[i];
      DigitRunStops(s[1..], i - 1);
    }
  }

  /** Text starting with a digit or a point carries no white space, sign or `Infinity` in front. */
  lemma PlainStart(s: string)
    requires s != [] && (IsDigit(s[0]) || s[0] == '.')
    ensures JsText.TrimStart(s) == s
    ensures s[0] != '-' && s[0] != '+'
    ensures !(|s| >= 8 && s[..8] == "Infinity")
  {
    assert !JsText.IsWhiteSpace(s[0]);
    if |s| >= 8 {
      assert s[..8][0] == s[0];
    }
  }

  lemma UnsignedInteger(s: string)
    requires s != [] && AllDigits(s) && !(|s| >= 8 && s[..8] == "Infinity")
    ensures UnsignedPrefix(s) == Finite(Scale(DigitsValue(s), 0))
  {
    DigitRunAll(s);
    assert s[..|s|] + "" == s;
    assert ExponentOf(s[|s|..]) == 0;
  }

  /** A string of decimal digits parses to the integer it denotes. */
  lemma ParseFloatInteger(s: string)
    requires s != [] && AllDigits(s)
    ensures ParseFloat(s) == Finite(DigitsValue(s) as real)
  {
    assert IsDigit(s[0]);
    PlainStart(s);
    UnsignedInteger(s);
    assert Pow10(0) == 1;
  }

  lemma UnsignedDecimal(s: string, i: nat)
    requires i < |s| && s[i] == '.' && |s| > 1 && !(|s| >= 8 && s[..8] == "Infinity")
    requires AllDigits(s[..i]) && AllDigits(s[i + 1..])
    ensures AllDigits(s[..i] + s[i + 1..])
    ensures UnsignedPrefix(s) == Finite(Scale(DigitsValue(s[..i] + s[i + 1..]), 0 - (|s| - i - 1)))
  {
    assert !IsDigit(s[i]);
    DigitRunStops(s, i);
    DigitRunAll(s[i + 1..]);
    assert s[i + 1..][..|s| - i - 1] == s[i + 1..];
    assert ExponentOf(s[|s|..]) == 0;
  }

  /**
   * Digits, a point and digits (at least one digit in all) parse to the
   * digits read without the point, scaled down by one power of ten for
   * each digit after the point.
   */
  lemma ParseFloatDecimal(s: string, i: nat)
    requires i < |s| && s[i] == '.' && |s| > 1
    requires AllDigits(s[..i]) && AllDigits(s[i + 1..])
    ensures AllDigits(s[..i] + s[i + 1..])
    ensures ParseFloat(s) == Finite(Scale(DigitsValue(s[..i] + s[i + 1..]), 0 - (|s| - i - 1)))
  {
    if i > 0 {
      assert IsDigit(s[..i][0]);
    }
    PlainStart(s);
    UnsignedDecimal(s, i);
  }

  predicate IsAsciiLetter(c: char)
  {
    ('a' <= c <= 'z') || ('A' <= c <= 'Z')
  }

  /**
   * Text starting with a letter parses to NaN, unless it starts with
   * `Infinity`, the one word `parseFloat` reads.
   */
  lemma ParseFloatLetter(s: string)
    requires s != [] && IsAsciiLetter(s[0])
    requires !(|s| >= 8 && s[..8] == "Infinity")
    ensures ParseFloat(s) == NaN
  {
    assert !JsText.IsWhiteSpace(s[0]);
    assert JsText.TrimStart(s) == s;
    UnsignedPrefixNaN(s);
  }

  /** Text starting with `Infinity` parses to positive infinity, whatever follows. */
  lemma ParseFloatInfinity(s: string)
    requires |s| >= 8 && s[..8] == "Infinity"
    ensures ParseFloat(s) == Infinity(false)
  {
    assert s[..8][0] == s[0];
    assert !JsText.IsWhiteSpace(s[0]);
    assert JsText.TrimStart(s) == s;
  }
}
