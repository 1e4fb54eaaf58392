/**
 * The year controls of components/finance/IncomeToolbar.tsx: a drop-down
 * of eleven years around the current one, and a text box whose submitted
 * year is emitted when it lies in 2000..2100 and otherwise put back to the
 * selected year. The current year is a parameter.
 */
module IncomeToolbar {
  import opened Wrappers
  import opened Text
  import opened Numbers

  const MinYear: int := 2000
  const MaxYear: int := 2100

  /** `parseInt(yearInput)` when it names a year in the accepted range. */
  function AcceptedYear(text: string): (r: Option<int>)
    ensures r.Some? <==> ParseInt(text).Some? && MinYear <= ParseInt(text).value <= MaxYear
    ensures r.Some? ==> r == ParseInt(text) && MinYear <= r.value <= MaxYear
  {
    match ParseInt(text)
    case Some(y) => if MinYear <= y <= MaxYear then Some(y) else None
    case None => None
  }

  /** A year in range, written out, is accepted as itself; one out of range never is. */
  lemma {:induction false} AcceptedYearOfWrittenYear(y: int)
    ensures AcceptedYear(IntToString(y)) == if MinYear <= y <= MaxYear then Some(y) else None
  {
    ParseIntIntToString(y);
  }

  /** `yearOptions`: eleven consecutive years from five before the current one. */
  function YearOptions(currentYear: int): (r: seq<int>)
    ensures |r| == 11 && r[0] == currentYear - 5 && r[10] == currentYear + 5
    ensures forall i :: 0 < i < |r| ==> r[i] == r[i - 1] + 1
    ensures forall y :: y in r <==> currentYear - 5 <= y <= currentYear + 5
  {
    var r := seq(11, i => currentYear - 5 + i);
    forall y | currentYear - 5 <= y <= currentYear + 5
      ensures y in r
    {
      assert r[y - currentYear + 5] == y;
    }
    r
  }

  class YearInput {
    var yearInput: string

    /** `useState(selectedYear.toString())`. */
    constructor(selectedYear: int)
      ensures yearInput == IntToString(selectedYear)
    {
      yearInput := IntToString(selectedYear);
    }

    method SetYearInput(text: string)
      modifies this
      ensures yearInput == text
    {
      yearInput := text;
    }

    /**
     * `handleYearSubmit`: the year typed is emitted when it is in range and
     * the box keeps it; otherwise nothing is emitted and the box shows the
     * selected year again.
     */
    method HandleYearSubmit(selectedYear: int) returns (emitted: Option<int>)
      modifies this
      ensures emitted == AcceptedYear(old(yearInput))
      ensures emitted.Some? ==> yearInput == old(yearInput)
      ensures emitted.None? ==> yearInput == IntToString(selectedYear)
    {
      var year := ParseInt(yearInput);
      if year.Some? && MinYear <= year.value <= MaxYear {
        emitted := Some(year.value);
      } else {
        emitted := None;
        yearInput := IntToString(selectedYear);
      }
    }

    /** Leaving the box puts the selected year back into it. */
    method HandleBlur(selectedYear: int)
      modifies this
      ensures yearInput == IntToString(selectedYear)
    {
      yearInput := IntToString(selectedYear);
    }
  }

  /** The drop-down's `onChange`: the option's text read back with `parseInt` is the year it shows. */
  lemma {:induction false} SelectedOptionIsItsYear(currentYear: int, i: nat)
    requires i < 11
    ensures ParseInt(IntToString(YearOptions(currentYear)[i])) == Some(currentYear - 5 + i)
  {
    ParseIntIntToString(YearOptions(currentYear)[i]);
  }
}
