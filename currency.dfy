/**
 * Chilean peso text handling (src/utils/currency.ts): reading amounts typed
 * or pasted by the user, and the text an amount is edited as. Amounts read
 * from text are whole, non-negative pesos.
 */
module Currency {
  import opened Wrappers
  import opened Text
  import opened Numbers

  /** What `formatCLP` shows: nothing for zero, otherwise the rounded amount with es-CL digit grouping. */
  datatype CurrencyText = Blank | Grouped(rounded: int, withSymbol: bool)

  /** `formatCLP(value, showSymbol)`, up to the locale's digit grouping. */
  function FormatCLP(value: real, showSymbol: bool): (r: CurrencyText)
    ensures r == Blank <==> value == 0.0
    ensures r.Grouped? ==> r.rounded == Round(value) && r.withSymbol == showSymbol
  {
    if value == 0.0 then Blank else Grouped(Round(value), showSymbol)
  }

  /** First pass of `parseCLP`: `replace(/[$\s]/g, '')`. */
  function StripSymbolAndSpaces(s: string): (r: string)
    ensures forall i :: 0 <= i < |r| ==> r[i] != '$' && !IsSpace(r[i])
  {
    if |s| == 0 then ""
    else (if s[0] == '$' || IsSpace(s[0]) then "" else [s[0]]) + StripSymbolAndSpaces(s[1..])
  }

  /** Second pass: `replace(/\./g, '')`, every dot taken as a thousands separator. */
  function StripDots(s: string): (r: string)
    ensures forall i :: 0 <= i < |r| ==> r[i] != '.'
  {
    if |s| == 0 then "" else (if s[0] == '.' then "" else [s[0]]) + StripDots(s[1..])
  }

  /** Third pass: `replace(/,/g, '.')`, the comma as the decimal point. */
  function CommasToDots(s: string): (r: string)
    ensures |r| == |s|
    ensures forall i :: 0 <= i < |s| ==> r[i] == if s[i] == ',' then '.' else s[i]
  {
    if |s| == 0 then "" else [if s[0] == ',' then '.' else s[0]] + CommasToDots(s[1..])
  }

  /** The text `parseCLP` hands to `parseFloat`. */
  function CleanCLP(s: string): string {
    CommasToDots(StripDots(StripSymbolAndSpaces(s)))
  }

  /** `parseCLP(value)`: clean the text, read a float, and clamp; empty or unreadable text is 0. */
  function ParseCLP(s: string): (r: nat)
    ensures s == "" ==> r == 0
  {
    if s == "" then 0
    else
      match ParseFloat(CleanCLP(s))
      case None => 0
      case Some(x) => ClampRound(x)
  }

  lemma {:induction false} CleanCLPAppend(a: string, b: string)
    ensures CleanCLP(a + b) == CleanCLP(a) + CleanCLP(b)
  {
    if |a| > 0 {
      CleanCLPAppend(a[1..], b);
      assert (a + b)[1..] == a[1..] + b;
      StripSymbolAndSpacesAppend(a, b);
      StripDotsAppend(StripSymbolAndSpaces(a), StripSymbolAndSpaces(b));
      CommasToDotsAppend(StripDots(StripSymbolAndSpaces(a)), StripDots(StripSymbolAndSpaces(b)));
    } else {
      assert a + b == b;
    }
  }

  lemma {:induction false} StripSymbolAndSpacesAppend(a: string, b: string)
    ensures StripSymbolAndSpaces(a + b) == StripSymbolAndSpaces(a) + StripSymbolAndSpaces(b)
  {
    if |a| > 0 {
      StripSymbolAndSpacesAppend(a[1..], b);
      assert (a + b)[1..] == a[1..] + b;
    } else {
      assert a + b == b;
    }
  }

  lemma {:induction false} StripDotsAppend(a: string, b: string)
    ensures StripDots(a + b) == StripDots(a) + StripDots(b)
  {
    if |a| > 0 {
      StripDotsAppend(a[1..], b);
      assert (a + b)[1..] == a[1..] + b;
    } else {
      assert a + b == b;
    }
  }

  lemma {:induction false} CommasToDotsAppend(a: string, b: string)
    ensures CommasToDots(a + b) == CommasToDots(a) + CommasToDots(b)
  {
  }

  /** A `$`, a `.` or a whitespace character anywhere in the text does not change what `parseCLP` reads. */
  lemma {:induction false} ParseCLPIgnoresSeparator(a: string, c: char, b: string)
    requires c == '$' || c == '.' || IsSpace(c)
    ensures ParseCLP(a + [c] + b) == ParseCLP(a + b)
  {
    var x, y := a + [c] + b, a + b;
    assert CleanCLP(x) == CleanCLP(y) by {
      CleanCLPAppend(a + [c], b);
      CleanCLPAppend(a, [c]);
      CleanCLPAppend(a, b);
      CleanOne(c);
    }
    if y == "" {
      assert CleanCLP(x) == "" by {
        CleanCLPAppend(a + [c], b);
        CleanCLPAppend(a, [c]);
        CleanOne(c);
      }
      ParseFloatNoDigits("");
    }
  }

  /** Digits read as the number they denote. */
  lemma {:induction false} ParseCLPDigits(d: string)
    requires |d| > 0 && AllDigits(d)
    ensures ParseCLP(d) == DigitsValue(d)
  {
    CleanDigits(d);
    ParseFloatDigits(d);
    ClampRoundWhole(DigitsValue(d));
  }

  lemma {:induction false} CleanDigits(d: string)
    requires AllDigits(d)
    ensures CleanCLP(d) == d
  {
    if |d| > 0 {
      CleanDigits(d[1..]);
      CleanCLPAppend([d[0]], d[1..]);
      assert [d[0]] + d[1..] == d;
    }
  }

  /** Dots between digit groups are thousands separators: `"1.234"` reads as 1234. */
  lemma {:induction false} ParseCLPThousands(a: string, b: string)
    requires |a| > 0 && AllDigits(a) && AllDigits(b)
    ensures AllDigits(a + b)
    ensures ParseCLP(a + "." + b) == DigitsValue(a + b)
  {
    ParseCLPIgnoresSeparator(a, '.', b);
    assert a + "." + b == a + ['.'] + b;
    assert AllDigits(a + b);
    ParseCLPDigits(a + b);
  }

  /** `"$a.b.c"` with digit groups `a`, `b`, `c` reads as the digits `abc`; `"$1.234.567"` is the instance `a = "1"`, `b = "234"`, `c = "567"`. */
  lemma {:induction false} ParseCLPSymbolAndGroups(a: string, b: string, c: string)
    requires |a| > 0 && AllDigits(a) && AllDigits(b) && AllDigits(c)
    ensures AllDigits(a + b + c)
    ensures ParseCLP("$" + a + "." + b + "." + c) == DigitsValue(a + b + c)
  {
    var s3 := a + b + c;
    assert AllDigits(s3);
    CleanSymbolAndGroups(a, b, c);
    CleanDigits(s3);
    ParseCLPSameClean("$" + a + "." + b + "." + c, s3);
    ParseCLPDigits(s3);
  }

  lemma {:induction false} CleanSymbolAndGroups(a: string, b: string, c: string)
    requires AllDigits(a) && AllDigits(b) && AllDigits(c)
    ensures CleanCLP("$" + a + "." + b + "." + c) == a + b + c
  {
    CleanOne('$');
    CleanOne('.');
    CleanDigits(a);
    CleanDigits(b);
    CleanDigits(c);
    var d, p := "$", ".";
    assert CleanCLP(d) == [] && CleanCLP(p) == [];
    CleanCLPAppend(d, a);
    var x1 := d + a;
    assert CleanCLP(x1) == a;
    CleanCLPAppend(x1, p);
    var x2 := x1 + p;
    assert CleanCLP(x2) == a;
    CleanCLPAppend(x2, b);
    var x3 := x2 + b;
    assert CleanCLP(x3) == a + b;
    CleanCLPAppend(x3, p);
    var x4 := x3 + p;
    assert CleanCLP(x4) == a + b;
    CleanCLPAppend(x4, c);
    assert x4 + c == "$" + a + "." + b + "." + c;
  }

  /** Two non-empty texts that clean to the same text read the same. */
  lemma {:induction false} ParseCLPSameClean(x: string, y: string)
    requires x != "" && y != "" && CleanCLP(x) == CleanCLP(y)
    ensures ParseCLP(x) == ParseCLP(y)
  {
  }

  /** The comma is the decimal point: `w,f` reads as `w.f`, rounded half up and clamped. */
  lemma {:induction false} ParseCLPDecimalComma(w: string, f: string)
    requires |w| > 0 && AllDigits(w) && AllDigits(f)
    ensures ParseCLP(w + "," + f) == ClampRound(Mantissa(w, f))
  {
    var s := w + "," + f;
    assert CleanCLP(s) == w + "." + f by {
      CleanCommaDecimal(w, f);
    }
    ParseFloatDecimal(w, f);
  }

  lemma {:induction false} CleanCommaDecimal(w: string, f: string)
    requires AllDigits(w) && AllDigits(f)
    ensures CleanCLP(w + "," + f) == w + "." + f
  {
    var tail := [','] + f;
    assert CleanCLP(tail) == ['.'] + f by {
      CleanOne(',');
      CleanDigits(f);
      CleanCLPAppend([','], f);
    }
    assert CleanCLP(w + tail) == w + (['.'] + f) by {
      CleanDigits(w);
      CleanCLPAppend(w, tail);
    }
    assert w + tail == w + "," + f;
    assert w + (['.'] + f) == w + "." + f;
  }

  /** `"1,5"` reads as 2. */
  lemma {:induction false} ParseCLPDecimalCommaExample()
    ensures ParseCLP("1,5") == 2
  {
    assert "1" + "," + "5" == "1,5";
    ParseCLPDecimalComma("1", "5");
    assert Mantissa("1", "5") == 1.5 by {
      DigitsValueAppend("1", "5");
      assert "1" + "5" == "15";
      assert DigitsValue("15") == 15;
      assert Scale(15.0, -1) == 1.5;
    }
  }

  /** Text without a single digit reads as 0. */
  lemma {:induction false} ParseCLPNoDigits(s: string)
    requires forall i :: 0 <= i < |s| ==> !IsDigit(s[i])
    ensures ParseCLP(s) == 0
  {
    if s != "" {
      CleanKeepsNoDigits(s);
      ParseFloatNoDigits(CleanCLP(s));
    }
  }

  lemma {:induction false} CleanKeepsNoDigits(s: string)
    requires forall i :: 0 <= i < |s| ==> !IsDigit(s[i])
    ensures forall i :: 0 <= i < |CleanCLP(s)| ==> !IsDigit(CleanCLP(s)[i])
  {
    if |s| > 0 {
      CleanKeepsNoDigits(s[1..]);
      CleanCLPAppend([s[0]], s[1..]);
      assert [s[0]] + s[1..] == s;
      CleanOne(s[0]);
    }
  }

  /** A single character is dropped (`$`, `.`, whitespace), turned into `.` (`,`) or kept. */
  lemma {:induction false} CleanOne(c: char)
    ensures CleanCLP([c]) == if c == '$' || c == '.' || IsSpace(c) then "" else [if c == ',' then '.' else c]
  {
    var e: string := [c][1..];
    assert e == [];
    assert StripSymbolAndSpaces(e) == [];
    var a := StripSymbolAndSpaces([c]);
    assert a == (if c == '$' || IsSpace(c) then [] else [c]) + StripSymbolAndSpaces(e);
    assert StripDots(e) == [];
    var b := StripDots(a);
    if a == [c] {
      assert a[1..] == e;
      assert b == (if c == '.' then [] else [c]) + StripDots(e);
    } else {
      assert a == [];
    }
    assert b == if c == '$' || c == '.' || IsSpace(c) then [] else [c];
    if b == [c] {
      assert b[1..] == e;
      assert CommasToDots(b) == [if c == ',' then '.' else c] + CommasToDots(e);
    }
  }

  /** `formatForInput(value)`: an empty field for 0, the number's decimal text otherwise. */
  function FormatForInput(value: int): (r: string)
    ensures r == "" <==> value == 0
  {
    if value == 0 then "" else IntToString(value)
  }

  /** Editing a stored amount without changing the text writes the same amount back. */
  lemma {:induction false} ParseFormatRoundTrip(v: nat)
    ensures ParseCLP(FormatForInput(v)) == v
  {
    if v != 0 {
      NatToStringRoundTrip(v);
      ParseCLPDigits(NatToString(v));
    }
  }

  /** `isValidMoneyString(value)`: holds for every text, since `parseCLP` never yields a negative number. */
  function IsValidMoneyString(s: string): (r: bool)
    ensures r
  {
    s == "" || ParseCLP(s) >= 0
  }

  /** A character `sanitizeMoneyInput` keeps: a digit, `.`, `,`, whitespace or `$`. */
  predicate MoneyChar(c: char) {
    IsDigit(c) || c == '.' || c == ',' || IsSpace(c) || c == '$'
  }

  /** `sanitizeMoneyInput(input)`: `replace(/[^0-9.,\s$]/g, '')`. */
  function SanitizeMoneyInput(s: string): (r: string)
    ensures |r| <= |s|
    ensures forall i :: 0 <= i < |r| ==> MoneyChar(r[i])
  {
    if |s| == 0 then "" else (if MoneyChar(s[0]) then [s[0]] else "") + SanitizeMoneyInput(s[1..])
  }

  /** Text made only of kept characters is left as it is. */
  lemma {:induction false} SanitizeKeepsMoneyText(s: string)
    requires forall i :: 0 <= i < |s| ==> MoneyChar(s[i])
    ensures SanitizeMoneyInput(s) == s
  {
    if |s| > 0 {
      SanitizeKeepsMoneyText(s[1..]);
      assert [s[0]] + s[1..] == s;
    }
  }

  /** Sanitizing twice is sanitizing once. */
  lemma {:induction false} SanitizeIdempotent(s: string)
    ensures SanitizeMoneyInput(SanitizeMoneyInput(s)) == SanitizeMoneyInput(s)
  {
    SanitizeKeepsMoneyText(SanitizeMoneyInput(s));
  }

  /** One pasted spreadsheet cell: blank is 0, a number `parseFloat` reads is clamped directly, anything else goes through `parseCLP`. */
  function ParseExcelValue(v: string): (r: nat)
    ensures Trim(v) == "" ==> r == 0
    ensures Trim(v) != "" && ParseFloat(v).Some? ==> r == ClampRound(ParseFloat(v).value)
    ensures Trim(v) != "" && ParseFloat(v).None? ==> r == ParseCLP(v)
  {
    if v == "" || Trim(v) == "" then 0
    else
      match ParseFloat(v)
      case Some(x) => ClampRound(x)
      case None => ParseCLP(v)
  }

  /** `parseExcelValues(values)`: one amount per cell, in the same order. */
  function ParseExcelValues(vs: seq<string>): (r: seq<nat>)
    ensures |r| == |vs|
    ensures forall i :: 0 <= i < |vs| ==> r[i] == ParseExcelValue(vs[i])
  {
    seq(|vs|, i requires 0 <= i < |vs| => ParseExcelValue(vs[i]))
  }

  /** Whitespace-only cells count as 0 whatever the other branches would say. */
  lemma {:induction false} ExcelBlankIsZero(v: string)
    requires forall i :: 0 <= i < |v| ==> IsSpace(v[i])
    ensures ParseExcelValue(v) == 0
  {
    TrimEmptyIffBlank(v);
  }

  /** A pasted cell `w.f` is read by `parseFloat` directly, so its dot is a decimal point. */
  lemma {:induction false} ExcelDecimalDot(w: string, f: string)
    requires |w| > 0 && AllDigits(w) && AllDigits(f)
    ensures ParseExcelValue(w + "." + f) == ClampRound(Mantissa(w, f))
  {
    var s := w + "." + f;
    ParseFloatDecimal(w, f);
    assert !IsSpace(s[0]);
    TrimEmptyIffBlank(s);
  }

  /** The direct `parseFloat` path wins: a dot between digits is a decimal point when pasted, a thousands separator when typed. */
  lemma {:induction false} ExcelDirectPathWins(w: string, f: string)
    requires |w| > 0 && AllDigits(w) && AllDigits(f)
    ensures AllDigits(w + f)
    ensures ParseExcelValue(w + "." + f) == ClampRound(Mantissa(w, f))
    ensures ParseCLP(w + "." + f) == DigitsValue(w + f)
  {
    ExcelDecimalDot(w, f);
    ParseCLPThousands(w, f);
  }

  /** `"1.234"` pasted from a spreadsheet is 1 peso (typed, the same text is 1234, by `ParseCLPThousands`). */
  lemma {:induction false} ExcelDirectPathExample()
    ensures ParseExcelValue("1.234") == 1
  {
    assert "1" + "." + "234" == "1.234";
    ExcelDecimalDot("1", "234");
    MantissaOf1234();
  }

  lemma {:induction false} MantissaOf1234()
    ensures Mantissa("1", "234") == 1.234
  {
    DigitsValueAppend("1", "234");
    assert "1" + "234" == "1234";
    DigitsOf1234();
    assert Scale(1234.0, -3) == 1.234 by {
      assert Scale(1234.0, -1) == 123.4;
      assert Scale(1234.0, -2) == 12.34;
    }
  }

  lemma {:induction false} DigitsOf1234()
    ensures AllDigits("1234") && DigitsValue("1234") == 1234
  {
    var d1: string := ['1'];
    assert d1[..0] == [];
    DigitsValueSnoc(d1, '2');
    DigitsValueSnoc(d1 + ['2'], '3');
    DigitsValueSnoc(d1 + ['2'] + ['3'], '4');
    assert d1 + ['2'] + ['3'] + ['4'] == "1234";
  }
}
