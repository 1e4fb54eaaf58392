/**
 * The form of src/components/SharedExpenseForm.tsx: the fields it holds,
 * what opening it puts in them, the validation `handleSubmit` makes before it
 * hands an expense to `onSubmit`, the split preview and the installments box.
 */
module SharedExpenseForm {
  import opened Wrappers
  import opened Text
  import opened Numbers
  import opened Dates
  import opened SharedExpenses

  /** The form state; `amount` and `date` are the text of their inputs. */
  datatype ExpenseForm = ExpenseForm(
    description: string,
    amount: string,
    date: string,
    paidBy: Person,
    isShared: bool,
    sharedPercentage: real,
    hasInstallments: bool,
    installmentsTotal: int)

  /**
   * What `onSubmit` receives. `amount` is `parseInt` of the text, `None`
   * standing for `NaN`; `date` is `new Date(text)`, `None` standing for an
   * invalid date.
   */
  datatype SubmittedExpense = SubmittedExpense(
    description: string,
    amount: Option<int>,
    date: Option<Date>,
    paidBy: Person,
    isShared: bool,
    sharedPercentage: real,
    hasInstallments: bool,
    installmentsTotal: Option<int>)

  /**
   * The state the effect sets when the form opens: the fields of the
   * expense under edit (its amount as text, at least one installment), or
   * the defaults dated today. `fractionText` is the text JavaScript writes
   * for a fractional amount.
   */
  function OpenForm(editing: Option<SharedExpense>, today: Date, fractionText: string): (r: ExpenseForm)
    requires ValidDate(today) && 0 <= today.year <= 9999
    requires editing.Some? ==> ValidDate(editing.value.date) && 0 <= editing.value.date.year <= 9999
    ensures editing.None? ==> r == ExpenseForm("", "", FormatIsoDate(today), Felipe, true, 50.0, false, 1)
    ensures editing.Some? ==> var e := editing.value;
      && r.description == e.description && r.date == FormatIsoDate(e.date)
      && r.paidBy == e.paidBy && r.isShared == e.isShared && r.sharedPercentage == e.sharedPercentage
      && r.hasInstallments == e.hasInstallments
      && (e.amount == e.amount.Floor as real ==> r.amount == IntToString(e.amount.Floor))
      && r.installmentsTotal == (if e.installmentsTotal.Some? && e.installmentsTotal.value != 0 then e.installmentsTotal.value else 1)
  {
    match editing
    case None => ExpenseForm("", "", FormatIsoDate(today), Felipe, true, 50.0, false, 1)
    case Some(e) =>
      ExpenseForm(
        e.description,
        if e.amount == e.amount.Floor as real then IntToString(e.amount.Floor) else fractionText,
        FormatIsoDate(e.date),
        e.paidBy,
        e.isShared,
        e.sharedPercentage,
        e.hasInstallments,
        InstallmentsOrOne(e.installmentsTotal))
  }

  /** `value || 1` on an optional count. */
  function InstallmentsOrOne(total: Option<int>): (r: int)
    ensures r != 0
    ensures total.Some? && total.value != 0 ==> r == total.value
  {
    match total
    case Some(n) => if n != 0 then n else 1
    case None => 1
  }

  /** The installments box: `parseInt(text) || 1`, so the count never becomes 0; the other fields are kept. */
  function SetInstallmentsText(form: ExpenseForm, text: string): (r: ExpenseForm)
    ensures r == form.(installmentsTotal := r.installmentsTotal)
    ensures r.installmentsTotal != 0
    ensures ParseInt(text).Some? && ParseInt(text).value != 0 ==> r.installmentsTotal == ParseInt(text).value
  {
    form.(installmentsTotal := IntOrOne(text))
  }

  /** The amount text `handleSubmit` refuses: empty, or a number not above 0. `NaN` is not refused. */
  predicate AmountRefused(text: string) {
    text == "" || (ParseFloat(text).Some? && ParseFloat(text).value <= 0.0)
  }

  /**
   * `handleSubmit`: `None` when the alert is shown and `onSubmit` is not
   * called; otherwise the expense handed to `onSubmit`.
   */
  function HandleSubmit(form: ExpenseForm): (r: Option<SubmittedExpense>)
    ensures r.None? <==> Trim(form.description) == "" || AmountRefused(form.amount)
    ensures r.Some? ==> var x := r.value;
      && x.description == Trim(form.description) && x.amount == ParseInt(form.amount)
      && x.date == ParseIsoDate(form.date)
      && x.paidBy == form.paidBy && x.isShared == form.isShared && x.sharedPercentage == form.sharedPercentage
      && x.hasInstallments == form.hasInstallments
      && (x.installmentsTotal.Some? <==> form.hasInstallments)
      && (form.hasInstallments ==> x.installmentsTotal == Some(form.installmentsTotal))
  {
    if Trim(form.description) == "" || AmountRefused(form.amount) then None
    else
      Some(SubmittedExpense(
        Trim(form.description),
        ParseInt(form.amount),
        ParseIsoDate(form.date),
        form.paidBy,
        form.isShared,
        form.sharedPercentage,
        form.hasInstallments,
        if form.hasInstallments then Some(form.installmentsTotal) else None))
  }

  /**
   * Amount text the form does not refuse never reads, with `parseInt`, as
   * a negative number: a leading `-` before digits makes `parseFloat` at most 0.
   */
  lemma {:induction false} AcceptedAmountNotNegative(text: string)
    requires !AmountRefused(text)
    ensures ParseInt(text).None? || ParseInt(text).value >= 0
  {
  }

  lemma {:induction false} ParseHalf()
    ensures ParseFloat("0.5") == Some(0.5)
    ensures ParseInt("0.5") == Some(0)
  {
    assert "0" + "." + "5" == "0.5";
    ParseFloatDecimal("0", "5");
    MantissaOfHalf();
    ParseIntHalf();
  }

  lemma {:induction false} MantissaOfHalf()
    ensures Mantissa("0", "5") == 0.5
  {
    assert "0" + "5" == "05";
    assert DigitsValue("05") == 5 by {
      assert "05"[..1] == "0";
    }
    assert Scale(5.0, 0) == 5.0;
    assert Scale(5.0, -1) == 0.5;
  }

  lemma {:induction false} ParseIntHalf()
    ensures ParseInt("0.5") == Some(0)
  {
    DigitRunPrefix("0", ".5");
    assert "0" + ".5" == "0.5";
    assert !IsSpace('0');
    assert TrimStart("0.5") == "0.5";
    assert DigitsValue("0") == 0;
  }

  /** `"0.5"` is above 0, so the form accepts it, yet `parseInt` submits 0. */
  lemma {:induction false} HalfPassesYetSubmitsZero(form: ExpenseForm)
    requires form.amount == "0.5" && Trim(form.description) != ""
    ensures HandleSubmit(form).Some? && HandleSubmit(form).value.amount == Some(0)
  {
    ParseHalf();
  }

  /** Text with no number in it is not refused either: it submits `NaN`. */
  lemma {:induction false} TextWithoutDigitsSubmitsNaN(form: ExpenseForm)
    requires form.amount != "" && Trim(form.description) != ""
    requires forall i :: 0 <= i < |form.amount| ==> !IsDigit(form.amount[i])
    ensures HandleSubmit(form).Some? && HandleSubmit(form).value.amount == None
  {
    ParseFloatNoDigits(form.amount);
  }

  /** `calculateSharedAmounts()`: `parseFloat(amount) || 0` split between the two, or nothing when not shared. */
  function CalculateSharedAmounts(form: ExpenseForm): (r: (int, real))
    ensures !form.isShared ==> r == (0, 0.0)
    ensures form.isShared ==> var amount := ParseFloat(form.amount).GetOr(0.0);
      r.0 == FelipeShare(amount, form.sharedPercentage) && r.0 as real + r.1 == amount
  {
    var amount := ParseFloat(form.amount).GetOr(0.0);
    if !form.isShared then (0, 0.0)
    else (FelipeShare(amount, form.sharedPercentage), CamilaShare(amount, form.sharedPercentage))
  }

  /**
   * The preview agrees with the balance: a shared expense of that amount
   * paid by Felipe makes Camila owe the preview's Camila part, and one paid
   * by Camila makes Felipe owe the preview's Felipe part.
   */
  lemma {:induction false} PreviewMatchesBalance(form: ExpenseForm, e: SharedExpense)
    requires form.isShared && e.isShared
    requires ParseFloat(form.amount) == Some(e.amount) && e.sharedPercentage == form.sharedPercentage
    ensures e.paidBy == Felipe ==> CamilaDebt([e]) == CalculateSharedAmounts(form).1 && FelipeDebt([e]) == 0.0
    ensures e.paidBy == Camila ==> FelipeDebt([e]) == CalculateSharedAmounts(form).0 as real && CamilaDebt([e]) == 0.0
  {
    assert [e][..0] == [];
  }
}
