/**
 * Calendar days as the sources use JavaScript `Date`: `new Date(y, m, d)`
 * rolls an out-of-range day into the neighbouring months, `toISOString()
 * .split('T')[0]` writes `YYYY-MM-DD`, and `new Date("YYYY-MM-DD")` reads it
 * back. Months are 1..12 here (JavaScript's `getMonth()` is 0..11). Times of
 * day and time zones are not modelled: every date is a whole UTC day.
 */
module Dates {
  import opened Wrappers
  import opened Text
  import opened Numbers

  datatype Date = Date(year: int, month: int, day: int)

  predicate IsLeapYear(y: int) {
    (y % 4 == 0 && y % 100 != 0) || y % 400 == 0
  }

  function DaysInMonth(year: int, month: int): (n: int)
    requires 1 <= month <= 12
    ensures 28 <= n <= 31
  {
    if month == 2 then (if IsLeapYear(year) then 29 else 28)
    else if month == 4 || month == 6 || month == 9 || month == 11 then 30
    else 31
  }

  /** A day that exists in the proleptic Gregorian calendar. */
  predicate ValidDate(d: Date) {
    1 <= d.month <= 12 && 1 <= d.day <= DaysInMonth(d.year, d.month)
  }

  /** `new Date(year, month - 1, day)`: days before the 1st or after the last roll into the neighbouring months. */
  function MakeDate(year: int, month: int, day: int): (r: Date)
    requires 1 <= month <= 12
    ensures ValidDate(r)
    decreases (if day < 1 then 1 - day else 0), (if day < 1 then 0 else day)
  {
    if day < 1 then
      var py := if month == 1 then year - 1 else year;
      var pm := if month == 1 then 12 else month - 1;
      MakeDate(py, pm, day + DaysInMonth(py, pm))
    else if day > DaysInMonth(year, month) then
      var ny := if month == 12 then year + 1 else year;
      var nm := if month == 12 then 1 else month + 1;
      MakeDate(ny, nm, day - DaysInMonth(year, month))
    else
      Date(year, month, day)
  }

  /** A day that exists is built as itself; a day number past the month's end lands early in the next month. */
  lemma {:induction false} MakeDateInRange(year: int, month: int, day: int)
    requires 1 <= month <= 12
    ensures 1 <= day <= DaysInMonth(year, month) ==> MakeDate(year, month, day) == Date(year, month, day)
    ensures DaysInMonth(year, month) < day <= 31 ==>
      MakeDate(year, month, day) == Date(if month == 12 then year + 1 else year,
                                          if month == 12 then 1 else month + 1,
                                          day - DaysInMonth(year, month))
  {
  }

  /** `new Date(d.getFullYear(), d.getMonth() - 1, 1)`. */
  function PreviousMonth(d: Date): (r: Date)
    requires 1 <= d.month <= 12
    ensures ValidDate(r) && r.day == 1
    ensures r.year * 12 + r.month == d.year * 12 + d.month - 1
  {
    if d.month == 1 then Date(d.year - 1, 12, 1) else Date(d.year, d.month - 1, 1)
  }

  /** `new Date(d.getFullYear(), d.getMonth() + 1, 1)`. */
  function NextMonth(d: Date): (r: Date)
    requires 1 <= d.month <= 12
    ensures ValidDate(r) && r.day == 1
    ensures r.year * 12 + r.month == d.year * 12 + d.month + 1
  {
    if d.month == 12 then Date(d.year + 1, 1, 1) else Date(d.year, d.month + 1, 1)
  }

  /** Going back a month and forward again lands on the first of the month one started in, and vice versa. */
  lemma {:induction false} MonthNavigationInverse(d: Date)
    requires 1 <= d.month <= 12
    ensures NextMonth(PreviousMonth(d)) == Date(d.year, d.month, 1)
    ensures PreviousMonth(NextMonth(d)) == Date(d.year, d.month, 1)
  {
    var p := PreviousMonth(d);
    var n := NextMonth(d);
    assert NextMonth(p).year * 12 + NextMonth(p).month == d.year * 12 + d.month;
    assert PreviousMonth(n).year * 12 + PreviousMonth(n).month == d.year * 12 + d.month;
  }

  /** `date-fns` `isSameMonth`: same year and same month. */
  predicate SameMonth(a: Date, b: Date) {
    a.year == b.year && a.month == b.month
  }

  /** `a < b` on two dates: earlier year, then earlier month, then earlier day. */
  predicate DateBefore(a: Date, b: Date) {
    a.year < b.year
    || (a.year == b.year && (a.month < b.month || (a.month == b.month && a.day < b.day)))
  }

  /** Of two different dates exactly one is before the other. */
  lemma {:induction false} DateBeforeTotal(a: Date, b: Date)
    ensures !DateBefore(a, a)
    ensures a != b ==> (DateBefore(a, b) <==> !DateBefore(b, a))
  {
  }

  /** `value.padStart(2, '0')` after `toString()`. */
  function Pad2(n: nat): (r: string)
    requires n < 100
    ensures |r| == 2 && AllDigits(r) && DigitsValue(r) == n
  {
    var r := [DigitChar(n / 10), DigitChar(n % 10)];
    assert r[..1][..0] == [];
    assert DigitsValue(r[..1]) == n / 10;
    assert DigitsValue(r) == (n / 10) * 10 + n % 10;
    r
  }

  function Pad4(n: nat): (r: string)
    requires n < 10000
    ensures |r| == 4 && AllDigits(r) && DigitsValue(r) == n
  {
    var r := Pad2(n / 100) + Pad2(n % 100);
    DigitsValueAppend(Pad2(n / 100), Pad2(n % 100));
    r
  }

  /** `date.toISOString().split('T')[0]` for a year written with four digits. */
  function FormatIsoDate(d: Date): (r: string)
    requires ValidDate(d) && 0 <= d.year <= 9999
    ensures |r| == 10 && r[4] == '-' && r[7] == '-'
  {
    Pad4(d.year) + "-" + Pad2(d.month) + "-" + Pad2(d.day)
  }

  /** `new Date("YYYY-MM-DD")` on text that names a real calendar day; `None` (an invalid date) otherwise. */
  function ParseIsoDate(s: string): (r: Option<Date>)
    ensures r.Some? ==> ValidDate(r.value) && 0 <= r.value.year <= 9999
  {
    if |s| == 10 && s[4] == '-' && s[7] == '-' && AllDigits(s[..4]) && AllDigits(s[5..7]) && AllDigits(s[8..]) then
      var d := Date(DigitsValue(s[..4]), DigitsValue(s[5..7]), DigitsValue(s[8..]));
      if ValidDate(d) && d.year <= 9999 then Some(d) else None
    else
      None
  }

  /** Writing a date in ISO form and reading it back gives the same date. */
  lemma {:induction false} IsoDateRoundTrip(d: Date)
    requires ValidDate(d) && 0 <= d.year <= 9999
    ensures ParseIsoDate(FormatIsoDate(d)) == Some(d)
  {
    var s := FormatIsoDate(d);
    assert s[..4] == Pad4(d.year);
    assert s[5..7] == Pad2(d.month);
    assert s[8..] == Pad2(d.day);
  }

  /** Text that reads as a date is exactly how that date is written back. */
  lemma {:induction false} IsoDateFormatParse(s: string)
    requires ParseIsoDate(s).Some?
    ensures FormatIsoDate(ParseIsoDate(s).value) == s
  {
    var d := ParseIsoDate(s).value;
    var r := FormatIsoDate(d);
    assert r[..4] == Pad4(d.year) && r[5..7] == Pad2(d.month) && r[8..] == Pad2(d.day);
    DigitsValueInjective(r[..4], s[..4]);
    DigitsValueInjective(r[5..7], s[5..7]);
    DigitsValueInjective(r[8..], s[8..]);
    assert r == r[..4] + "-" + r[5..7] + "-" + r[8..];
    assert s == s[..4] + "-" + s[5..7] + "-" + s[8..];
  }
}
