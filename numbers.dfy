/**
 * JavaScript number conversions on exact numbers: `Math.round`, the
 * `Math.max(0, Math.round(v))` clamp every income store applies, and the
 * `parseFloat` / `parseInt` prefix readers. `NaN` is `None`.
 */
module Numbers {
  import opened Wrappers
  import opened Text

  function Pow10(k: nat): (r: nat)
    ensures r >= 1
  {
    if k == 0 then 1 else 10 * Pow10(k - 1)
  }

  /** `Math.round(x)`: the nearest integer, halves rounded up. */
  function Round(x: real): (r: int)
    ensures r as real - 0.5 <= x < r as real + 0.5
  {
    (x + 0.5).Floor
  }

  /** `Math.max(0, Math.round(x))`: the stored form of every income amount. */
  function ClampRound(x: real): (r: nat)
    ensures x < 0.5 ==> r == 0
    ensures x >= -0.5 ==> r as real - 0.5 <= x < r as real + 0.5
  {
    if Round(x) < 0 then 0 else Round(x)
  }

  /** Rounding leaves whole numbers alone, and clamping leaves non-negative whole numbers alone. */
  lemma {:induction false} ClampRoundWhole(n: int)
    ensures Round(n as real) == n
    ensures n >= 0 ==> ClampRound(n as real) == n
  {
  }

  /** Clamping twice is clamping once. */
  lemma {:induction false} ClampRoundIdempotent(x: real)
    ensures ClampRound(ClampRound(x) as real) == ClampRound(x)
  {
    ClampRoundWhole(ClampRound(x));
  }

  lemma {:induction false} Distribute(x: int, p: int, y: int, d: int)
    ensures (x * p + y) * 10 + d == x * (p * 10) + (y * 10 + d)
  {
    assert (x * p) * 10 == x * (p * 10);
  }

  /** The value of a digit string is the value of its two halves, the first shifted left. */
  lemma {:induction false} DigitsValueAppend(a: string, b: string)
    requires AllDigits(a) && AllDigits(b)
    ensures AllDigits(a + b)
    ensures DigitsValue(a + b) == DigitsValue(a) * Pow10(|b|) + DigitsValue(b)
  {
    var ab := a + b;
    assert AllDigits(ab);
    if |b| > 0 {
      var b' := b[..|b| - 1];
      var last := DigitValue(b[|b| - 1]);
      assert ab[..|ab| - 1] == a + b';
      assert ab[|ab| - 1] == b[|b| - 1];
      DigitsValueAppend(a, b');
      var x, p := DigitsValue(a), Pow10(|b'|);
      assert Pow10(|b|) == p * 10;
      Distribute(x, p, DigitsValue(b'), last);
    } else {
      assert ab == a;
    }
  }

  /** `x * 10^e`, one factor of ten at a time. */
  function Scale(x: real, e: int): real
    decreases if e < 0 then -e else e
  {
    if e == 0 then x else if e > 0 then 10.0 * Scale(x, e - 1) else Scale(x, e + 1) / 10.0
  }

  /** A scaled non-negative number stays non-negative. */
  lemma {:induction false} ScaleNonNegative(x: real, e: int)
    requires x >= 0.0
    ensures Scale(x, e) >= 0.0
    decreases if e < 0 then -e else e
  {
    if e > 0 {
      ScaleNonNegative(x, e - 1);
    } else if e < 0 {
      ScaleNonNegative(x, e + 1);
    }
  }

  /**
   * The exponent written at the start of `rest` when it is a well-formed
   * exponent part (`e` or `E`, an optional sign, at least one digit);
   * otherwise 0, and the `e` is not read.
   */
  function ExponentOf(rest: string): int {
    if |rest| >= 2 && (rest[0] == 'e' || rest[0] == 'E') then
      var signed := rest[1..];
      var start := if signed[0] == '-' || signed[0] == '+' then 1 else 0;
      var digits := DigitRun(signed[start..]);
      if |digits| == 0 then 0
      else
        var magnitude: int := DigitsValue(digits);
        if signed[0] == '-' then -magnitude else magnitude
    else 0
  }

  /** The value of the digits `whole.fraction`. */
  function Mantissa(whole: string, fraction: string): real
    requires AllDigits(whole) && AllDigits(fraction)
  {
    assert AllDigits(whole + fraction);
    Scale(DigitsValue(whole + fraction) as real, -|fraction|)
  }

  /**
   * The longest unsigned decimal literal at the start of `s`: digits, an
   * optional `.` and fraction digits (at least one digit in all), then an
   * optional exponent. `None` when `s` does not start with one.
   */
  function ScanUnsignedDecimal(s: string): (r: Option<real>)
    ensures r.Some? ==> r.value >= 0.0
    ensures r.Some? ==> (|s| > 0 && IsDigit(s[0])) || (|s| > 1 && s[0] == '.' && IsDigit(s[1]))
  {
    var whole := DigitRun(s);
    var afterWhole := s[|whole|..];
    var hasDot := |afterWhole| > 0 && afterWhole[0] == '.';
    var fraction := if hasDot then DigitRun(afterWhole[1..]) else "";
    var rest := if hasDot then afterWhole[1 + |fraction|..] else afterWhole;
    if |whole| == 0 && |fraction| == 0 then None
    else
      assert AllDigits(whole + fraction);
      ScaleNonNegative(DigitsValue(whole + fraction) as real, ExponentOf(rest) - |fraction|);
      Some(Scale(DigitsValue(whole + fraction) as real, ExponentOf(rest) - |fraction|))
  }

  /** `parseFloat(s)`: leading whitespace, an optional sign, then the longest decimal literal. */
  function ParseFloat(s: string): (r: Option<real>)
    ensures r.Some? ==> var t := TrimStart(s); |t| > 0 && (IsDigit(t[0]) || t[0] == '.' || t[0] == '-' || t[0] == '+')
    ensures r.Some? && r.value < 0.0 ==> var t := TrimStart(s); |t| > 0 && t[0] == '-'
  {
    var t := TrimStart(s);
    if |t| > 0 && (t[0] == '-' || t[0] == '+') then
      match ScanUnsignedDecimal(t[1..])
      case None => None
      case Some(v) => Some(if t[0] == '-' then -v else v)
    else
      ScanUnsignedDecimal(t)
  }

  /** `parseInt(s, 10)`: leading whitespace, an optional sign, then the longest run of digits. */
  function ParseInt(s: string): (r: Option<int>)
    ensures r.Some? ==> exists k :: 0 <= k < |s| && IsDigit(s[k])
  {
    var t := TrimStart(s);
    var negative := |t| > 0 && t[0] == '-';
    var body := if |t| > 0 && (t[0] == '-' || t[0] == '+') then t[1..] else t;
    var digits := DigitRun(body);
    if |digits| == 0 then None
    else
      assert IsDigit(s[|s| - |body|]);
      var magnitude: int := DigitsValue(digits);
      Some(if negative then -magnitude else magnitude)
  }

  lemma {:induction false} ScanDigits(d: string)
    requires |d| > 0 && AllDigits(d)
    ensures ScanUnsignedDecimal(d) == Some(DigitsValue(d) as real)
  {
    DigitRunOfDigits(d);
    assert d[|d|..] == "";
    assert ExponentOf("") == 0;
    assert d + "" == d;
  }

  /** A non-empty string of digits reads, as a float, as the number it denotes. */
  lemma {:induction false} ParseFloatDigits(d: string)
    requires |d| > 0 && AllDigits(d)
    ensures ParseFloat(d) == Some(DigitsValue(d) as real)
  {
    ParseFloatUnsigned(d);
    ScanDigits(d);
  }

  /** A non-empty string of digits reads, as an integer, as the number it denotes. */
  lemma {:induction false} ParseIntDigits(d: string)
    requires |d| > 0 && AllDigits(d)
    ensures ParseInt(d) == Some(DigitsValue(d))
  {
    assert !IsSpace(d[0]);
    assert TrimStart(d) == d;
    DigitRunOfDigits(d);
  }

  /** `parseInt` reads back the decimal notation of every integer. */
  lemma {:induction false} ParseIntIntToString(i: int)
    ensures ParseInt(IntToString(i)) == Some(i)
  {
    var n := if i < 0 then -i else i;
    NatToStringRoundTrip(n);
    var d := NatToString(n);
    if i < 0 {
      ParseIntNegativeDigits(d);
    } else {
      ParseIntDigits(d);
    }
  }

  lemma {:induction false} ParseIntNegativeDigits(d: string)
    requires |d| > 0 && AllDigits(d)
    ensures ParseInt("-" + d) == Some(-(DigitsValue(d) as int))
  {
    var s := "-" + d;
    assert !IsSpace(s[0]);
    var t := TrimStart(s);
    assert t == s;
    assert |t| > 0 && t[0] == '-';
    var body := t[1..];
    assert body == d;
    DigitRunOfDigits(d);
    assert DigitRun(body) == d;
  }

  /** The digit run of digits followed by a non-digit (or nothing) is those digits. */
  lemma {:induction false} DigitRunPrefix(d: string, rest: string)
    requires AllDigits(d)
    requires |rest| > 0 ==> !IsDigit(rest[0])
    ensures DigitRun(d + rest) == d
  {
    if |d| > 0 {
      assert (d + rest)[1..] == d[1..] + rest;
      DigitRunPrefix(d[1..], rest);
    } else {
      assert d + rest == rest;
    }
  }

  /** `w.f` with digit strings `w` (non-empty) and `f` reads as `w + f / 10^|f|`. */
  lemma {:induction false} ParseFloatDecimal(w: string, f: string)
    requires |w| > 0 && AllDigits(w) && AllDigits(f)
    ensures ParseFloat(w + "." + f) == Some(Mantissa(w, f))
  {
    var s := w + "." + f;
    assert s[0] == w[0];
    ParseFloatUnsigned(s);
    ScanDecimal(w, f);
  }

  /** Text that starts with a digit is read by the unsigned scanner as it is. */
  lemma {:induction false} ParseFloatUnsigned(s: string)
    requires |s| > 0 && IsDigit(s[0])
    ensures ParseFloat(s) == ScanUnsignedDecimal(s)
  {
    assert !IsSpace(s[0]);
    assert TrimStart(s) == s;
    assert !(s[0] == '-' || s[0] == '+');
  }

  lemma {:induction false} ScanDecimal(w: string, f: string)
    requires |w| > 0 && AllDigits(w) && AllDigits(f)
    ensures ScanUnsignedDecimal(w + "." + f) == Some(Mantissa(w, f))
  {
    var s := w + "." + f;
    var tail := "." + f;
    assert s == w + tail;
    DigitRunPrefix(w, tail);
    assert s[|w|..] == tail;
    assert tail[0] == '.';
    assert tail[1..] == f;
    DigitRunOfDigits(f);
    assert tail[1 + |f|..] == "";
    assert ExponentOf("") == 0;
  }

  /** Text without a single digit is not a number. */
  lemma {:induction false} ParseFloatNoDigits(s: string)
    requires forall i :: 0 <= i < |s| ==> !IsDigit(s[i])
    ensures ParseFloat(s) == None
  {
    var t := TrimStart(s);
    assert forall i :: 0 <= i < |t| ==> !IsDigit(t[i]) by {
      forall i | 0 <= i < |t| ensures !IsDigit(t[i]) {
        assert t[i] == s[|s| - |t| + i];
      }
    }
    if |t| > 0 && (t[0] == '-' || t[0] == '+') {
      var u := t[1..];
      assert forall i :: 0 <= i < |u| ==> !IsDigit(u[i]) by {
        forall i | 0 <= i < |u| ensures !IsDigit(u[i]) {
          assert u[i] == t[i + 1];
        }
      }
      ScanNoDigits(u);
    } else {
      ScanNoDigits(t);
    }
  }

  lemma {:induction false} ScanNoDigits(s: string)
    requires forall i :: 0 <= i < |s| ==> !IsDigit(s[i])
    ensures ScanUnsignedDecimal(s) == None
  {
    assert DigitRun(s) == "";
    assert s[0..] == s;
    if |s| > 1 {
      assert !IsDigit(s[1..][0]);
      assert DigitRun(s[1..]) == "";
    } else if |s| == 1 {
      assert DigitRun(s[1..]) == "";
    }
  }

  /** `parseFloat(text) || 0`, the reading of a number box: unreadable text (NaN) and 0 both give 0. */
  function FloatOrZero(text: string): (r: real)
    ensures ParseFloat(text).None? ==> r == 0.0
    ensures ParseFloat(text).Some? ==> r == ParseFloat(text).value
  {
    match ParseFloat(text)
    case None => 0.0
    case Some(v) => v
  }

  /** `parseInt(text) || 1`: unreadable text and 0 both give 1. */
  function IntOrOne(text: string): (r: int)
    ensures r != 0
    ensures ParseInt(text).None? || ParseInt(text) == Some(0) ==> r == 1
    ensures ParseInt(text).Some? && ParseInt(text).value != 0 ==> r == ParseInt(text).value
  {
    match ParseInt(text)
    case Some(n) => if n != 0 then n else 1
    case None => 1
  }
}
