/**
 * The balance of shared expenses between the two people of
 * src/hooks/useSharedExpenses.ts, and the month the hook shows. An expense
 * marked shared is split by `sharedPercentage`: Felipe's part is that
 * percentage of the amount, rounded, and Camila's part is the rest; whoever
 * did not pay owes the payer their own part. Amounts are exact numbers here.
 */
module SharedExpenses {
  import opened Wrappers
  import opened Text
  import opened Numbers
  import opened Dates

  datatype Person = Felipe | Camila

  datatype SharedExpense = SharedExpense(
    id: string,
    description: string,
    amount: real,
    date: Date,
    paidBy: Person,
    isShared: bool,
    sharedPercentage: real,
    hasInstallments: bool,
    installmentsTotal: Option<int>)

  datatype WhoOwes = FelipeOwes | CamilaOwes | Balanced

  datatype SharedExpenseBalance = SharedExpenseBalance(
    month: string,
    totalExpenses: real,
    felipePaid: real,
    camilaPaid: real,
    felipeOwes: real,
    camilaOwes: real,
    netBalance: real,
    whoOwes: WhoOwes,
    amountOwed: real)

  /** `Math.round(amount * (sharedPercentage / 100))`: Felipe's part of a shared amount. */
  function FelipeShare(amount: real, percentage: real): int {
    Round(amount * (percentage / 100.0))
  }

  /** `amount - felipeShare`: Camila's part. */
  function CamilaShare(amount: real, percentage: real): (r: real)
    ensures FelipeShare(amount, percentage) as real + r == amount
  {
    amount - FelipeShare(amount, percentage) as real
  }

  /**
   * For a whole amount and a percentage in 0..100 both parts are whole
   * amounts between 0 and the amount itself, and Felipe's part is the
   * percentage of the amount to within half a peso.
   */
  lemma {:induction false} SharesWithinAmount(amount: int, percentage: real)
    requires amount >= 0 && 0.0 <= percentage <= 100.0
    ensures 0 <= FelipeShare(amount as real, percentage) <= amount
    ensures var c := CamilaShare(amount as real, percentage); c == c.Floor as real && 0.0 <= c <= amount as real
    ensures var x := amount as real * (percentage / 100.0); -0.5 < FelipeShare(amount as real, percentage) as real - x <= 0.5
  {
    var a := amount as real;
    var p := percentage / 100.0;
    var x := a * p;
    assert 0.0 <= p <= 1.0;
    assert 0.0 <= x by {
      ProductNonNegative(a, p);
    }
    assert x <= a by {
      ProductNonNegative(a, 1.0 - p);
      assert a * (1.0 - p) == a - x;
    }
    var r := FelipeShare(a, percentage);
    assert r as real - 0.5 <= x < r as real + 0.5;
    assert CamilaShare(a, percentage) == (amount - r) as real;
  }

  lemma {:induction false} ProductNonNegative(a: real, b: real)
    requires 0.0 <= a && 0.0 <= b
    ensures 0.0 <= a * b
  {
  }

  /** `expenses.reduce((sum, expense) => sum + expense.amount, 0)`. */
  function TotalAmount(expenses: seq<SharedExpense>): (r: real)
    ensures (forall i :: 0 <= i < |expenses| ==> expenses[i].amount >= 0.0) ==> r >= 0.0
  {
    if |expenses| == 0 then 0.0
    else TotalAmount(expenses[..|expenses| - 1]) + expenses[|expenses| - 1].amount
  }

  /** The amounts of the expenses `who` paid, added up. */
  function PaidBy(expenses: seq<SharedExpense>, who: Person): (r: real)
    ensures (forall i :: 0 <= i < |expenses| ==> expenses[i].paidBy != who) ==> r == 0.0
    ensures (forall i :: 0 <= i < |expenses| ==> expenses[i].amount >= 0.0) ==> r >= 0.0
  {
    if |expenses| == 0 then 0.0
    else
      var e := expenses[|expenses| - 1];
      PaidBy(expenses[..|expenses| - 1], who) + (if e.paidBy == who then e.amount else 0.0)
  }

  /** What Felipe owes: his part of every shared expense Camila paid. */
  function FelipeDebt(expenses: seq<SharedExpense>): real {
    if |expenses| == 0 then 0.0
    else
      var e := expenses[|expenses| - 1];
      FelipeDebt(expenses[..|expenses| - 1]) + (if e.isShared && e.paidBy == Camila then FelipeShare(e.amount, e.sharedPercentage) as real else 0.0)
  }

  /** What Camila owes: her part of every shared expense Felipe paid. */
  function CamilaDebt(expenses: seq<SharedExpense>): real {
    if |expenses| == 0 then 0.0
    else
      var e := expenses[|expenses| - 1];
      CamilaDebt(expenses[..|expenses| - 1]) + (if e.isShared && e.paidBy == Felipe then CamilaShare(e.amount, e.sharedPercentage) else 0.0)
  }

  /** Nobody owes anything for expenses the other did not pay for and share. */
  lemma {:induction false} NoDebtWithoutSharedPayments(expenses: seq<SharedExpense>)
    ensures (forall i :: 0 <= i < |expenses| ==> !(expenses[i].isShared && expenses[i].paidBy == Camila)) ==> FelipeDebt(expenses) == 0.0
    ensures (forall i :: 0 <= i < |expenses| ==> !(expenses[i].isShared && expenses[i].paidBy == Felipe)) ==> CamilaDebt(expenses) == 0.0
  {
    if |expenses| > 0 {
      var init := expenses[..|expenses| - 1];
      NoDebtWithoutSharedPayments(init);
      assert forall i :: 0 <= i < |init| ==> init[i] == expenses[i];
    }
  }

  /** Each expense was paid by one of the two, so the total is what they paid between them. */
  lemma {:induction false} TotalIsWhatBothPaid(expenses: seq<SharedExpense>)
    ensures TotalAmount(expenses) == PaidBy(expenses, Felipe) + PaidBy(expenses, Camila)
  {
    if |expenses| > 0 {
      TotalIsWhatBothPaid(expenses[..|expenses| - 1]);
    }
  }

  /** The shared expenses, in order. */
  function SharedOnly(expenses: seq<SharedExpense>): (r: seq<SharedExpense>)
    ensures forall e :: e in r <==> e in expenses && e.isShared
  {
    if |expenses| == 0 then []
    else
      var e := expenses[|expenses| - 1];
      SharedOnly(expenses[..|expenses| - 1]) + (if e.isShared then [e] else [])
  }

  /** Expenses not marked shared count towards neither debt. */
  lemma {:induction false} UnsharedOweNothing(expenses: seq<SharedExpense>)
    ensures FelipeDebt(expenses) == FelipeDebt(SharedOnly(expenses))
    ensures CamilaDebt(expenses) == CamilaDebt(SharedOnly(expenses))
  {
    if |expenses| > 0 {
      var init := expenses[..|expenses| - 1];
      var e := expenses[|expenses| - 1];
      UnsharedOweNothing(init);
      if e.isShared {
        assert (SharedOnly(init) + [e])[..|SharedOnly(init)|] == SharedOnly(init);
      } else {
        assert SharedOnly(expenses) == SharedOnly(init);
      }
    }
  }

  /** `currentMonth.getFullYear()-MM`, the month padded to two digits. */
  function MonthKey(d: Date): (r: string)
    ensures IntToString(d.year) + "-" <= r && |r| >= |IntToString(d.year)| + 3
  {
    IntToString(d.year) + "-" + PadStart(IntToString(d.month), 2, '0')
  }

  /** For a real month the padded month is its two decimal digits. */
  lemma {:induction false} MonthKeyPadsMonth(d: Date)
    requires 1 <= d.month <= 12
    ensures MonthKey(d) == IntToString(d.year) + "-" + Pad2(d.month)
    ensures |PadStart(IntToString(d.month), 2, '0')| == 2
  {
    var m := d.month;
    if m >= 10 {
      assert NatToString(m) == NatToString(1) + [DigitChar(m % 10)];
      assert NatToString(1) == [DigitChar(1)];
    }
  }

  /** The sign of the net balance: positive means Felipe owes Camila. */
  function WhoOwesFor(net: real): (r: WhoOwes)
    ensures r == FelipeOwes <==> net > 0.0
    ensures r == CamilaOwes <==> net < 0.0
    ensures r == Balanced <==> net == 0.0
  {
    if net > 0.0 then FelipeOwes else if net < 0.0 then CamilaOwes else Balanced
  }

  /**
   * `calculateBalance(expenses)`: the sums by payer, then the `forEach`
   * over the expenses adding each shared one's part to the debt of whoever
   * did not pay it.
   */
  method CalculateBalance(expenses: seq<SharedExpense>, currentMonth: Date) returns (b: SharedExpenseBalance)
    ensures b.totalExpenses == TotalAmount(expenses) == b.felipePaid + b.camilaPaid
    ensures b.felipePaid == PaidBy(expenses, Felipe) && b.camilaPaid == PaidBy(expenses, Camila)
    ensures b.felipeOwes == FelipeDebt(expenses) && b.camilaOwes == CamilaDebt(expenses)
    ensures b.netBalance == b.felipeOwes - b.camilaOwes
    ensures b.whoOwes == FelipeOwes <==> b.felipeOwes > b.camilaOwes
    ensures b.whoOwes == CamilaOwes <==> b.felipeOwes < b.camilaOwes
    ensures b.amountOwed >= 0.0 && (b.amountOwed == b.netBalance || b.amountOwed == -b.netBalance)
    ensures b.month == MonthKey(currentMonth)
  {
    var totalExpenses := TotalAmount(expenses);
    var felipePaid := PaidBy(expenses, Felipe);
    var camilaPaid := PaidBy(expenses, Camila);
    TotalIsWhatBothPaid(expenses);
    var felipeOwes := 0.0;
    var camilaOwes := 0.0;
    var i := 0;
    while i < |expenses|
      invariant 0 <= i <= |expenses|
      invariant felipeOwes == FelipeDebt(expenses[..i])
      invariant camilaOwes == CamilaDebt(expenses[..i])
    {
      var e := expenses[i];
      DebtsStep(expenses, i);
      if e.isShared {
        var felipeShare := FelipeShare(e.amount, e.sharedPercentage);
        var camilaShare := e.amount - felipeShare as real;
        if e.paidBy == Felipe {
          camilaOwes := camilaOwes + camilaShare;
        } else {
          felipeOwes := felipeOwes + felipeShare as real;
        }
      }
      i := i + 1;
    }
    assert expenses[..|expenses|] == expenses;
    var netBalance := felipeOwes - camilaOwes;
    var amountOwed := if netBalance < 0.0 then -netBalance else netBalance;
    b := SharedExpenseBalance(MonthKey(currentMonth), totalExpenses, felipePaid, camilaPaid,
                              felipeOwes, camilaOwes, netBalance, WhoOwesFor(netBalance), amountOwed);
  }

  /** Taking one more expense into account adds its part to the debt of whoever did not pay it. */
  lemma DebtsStep(expenses: seq<SharedExpense>, i: int)
    requires 0 <= i < |expenses|
    ensures var e := expenses[i];
      FelipeDebt(expenses[..i + 1]) == FelipeDebt(expenses[..i]) + (if e.isShared && e.paidBy == Camila then FelipeShare(e.amount, e.sharedPercentage) as real else 0.0)
    ensures var e := expenses[i];
      CamilaDebt(expenses[..i + 1]) == CamilaDebt(expenses[..i]) + (if e.isShared && e.paidBy == Felipe then CamilaShare(e.amount, e.sharedPercentage) else 0.0)
  {
    assert expenses[..i + 1][..i] == expenses[..i];
  }

  /** The month shown by the hook. */
  class SharedExpensesHook {
    var currentMonth: Date

    constructor(today: Date)
      requires ValidDate(today)
      ensures currentMonth == today
    {
      currentMonth := today;
    }

    predicate Valid()
      reads this
    {
      ValidDate(currentMonth)
    }

    /** `goToPreviousMonth()`: the first day of the month before. */
    method GoToPreviousMonth()
      requires Valid()
      modifies this
      ensures Valid() && currentMonth == PreviousMonth(old(currentMonth)) && currentMonth.day == 1
      ensures currentMonth.year * 12 + currentMonth.month == old(currentMonth.year * 12 + currentMonth.month) - 1
    {
      currentMonth := PreviousMonth(currentMonth);
    }

    /** `goToNextMonth()`: the first day of the month after. */
    method GoToNextMonth()
      requires Valid()
      modifies this
      ensures Valid() && currentMonth == NextMonth(old(currentMonth)) && currentMonth.day == 1
      ensures currentMonth.year * 12 + currentMonth.month == old(currentMonth.year * 12 + currentMonth.month) + 1
    {
      currentMonth := NextMonth(currentMonth);
    }
  }
}
