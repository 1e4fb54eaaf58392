/**
 * The figures src/hooks/useFinancialData.ts derives from the transaction
 * list: the totals of one month split by type, the totals of the calendar
 * year, and the breakdown of the month's amounts by category, largest first.
 */
module FinancialSummary {
  import opened Dates
  import opened Sorting
  import opened Transactions
  import opened CategoryTables

  /** `MonthlyData` without the locale-formatted month name. */
  datatype MonthlyData = MonthlyData(
    year: int,
    month: int,
    totalIncome: real,
    totalExpenses: real,
    balance: real,
    transactions: seq<Transaction>)

  /** `transactions.filter(t => isSameMonth(t.date, month))`. */
  function InMonth(ts: seq<Transaction>, month: Date): (r: seq<Transaction>)
    ensures |r| <= |ts|
    ensures forall t :: t in r <==> t in ts && SameMonth(t.date, month)
  {
    if |ts| == 0 then []
    else
      var t := ts[|ts| - 1];
      var rest := InMonth(ts[..|ts| - 1], month);
      assert ts == ts[..|ts| - 1] + [t];
      if SameMonth(t.date, month) then rest + [t] else rest
  }

  /** `filter(t => t.type === type).reduce((sum, t) => sum + t.amount, 0)`. */
  function TypeTotal(ts: seq<Transaction>, t: TxType): (r: real)
    ensures (forall i :: 0 <= i < |ts| ==> ts[i].txType != t) ==> r == 0.0
    ensures (forall i :: 0 <= i < |ts| ==> ts[i].amount >= 0.0) ==> r >= 0.0
  {
    if |ts| == 0 then 0.0
    else TypeTotal(ts[..|ts| - 1], t) + (if ts[|ts| - 1].txType == t then ts[|ts| - 1].amount else 0.0)
  }

  /** Every amount, whatever its type. */
  function AllTotal(ts: seq<Transaction>): (r: real)
    ensures (forall i :: 0 <= i < |ts| ==> ts[i].amount >= 0.0) ==> r >= 0.0
  {
    if |ts| == 0 then 0.0 else AllTotal(ts[..|ts| - 1]) + ts[|ts| - 1].amount
  }

  /** Every transaction is income or expense, so the two type totals add up to the total. */
  lemma {:induction false} TypeTotalsSplitTotal(ts: seq<Transaction>)
    ensures TypeTotal(ts, Income) + TypeTotal(ts, Expense) == AllTotal(ts)
  {
    if |ts| > 0 {
      TypeTotalsSplitTotal(ts[..|ts| - 1]);
    }
  }

  /** `getCurrentMonthData()` (and the previous month's data, built the same way). */
  function MonthData(ts: seq<Transaction>, month: Date): (r: MonthlyData)
    ensures forall t :: t in r.transactions <==> t in ts && SameMonth(t.date, month)
    ensures r.totalIncome == TypeTotal(InMonth(ts, month), Income)
    ensures r.totalExpenses == TypeTotal(InMonth(ts, month), Expense)
    ensures r.balance == r.totalIncome - r.totalExpenses
    ensures r.year == month.year
  {
    var m := InMonth(ts, month);
    var income := TypeTotal(m, Income);
    var expenses := TypeTotal(m, Expense);
    MonthlyData(month.year, month.month, income, expenses, income - expenses, m)
  }

  /** A transaction of another month changes nothing in a month's data. */
  lemma {:induction false} OtherMonthIgnored(ts: seq<Transaction>, t: Transaction, month: Date)
    requires !SameMonth(t.date, month)
    ensures MonthData(ts + [t], month) == MonthData(ts, month)
  {
    assert (ts + [t])[..|ts|] == ts;
  }

  /** The transactions dated in `year` (`startOfYear <= date <= endOfYear`). */
  function InYear(ts: seq<Transaction>, year: int): (r: seq<Transaction>)
    ensures forall t :: t in r <==> t in ts && t.date.year == year
  {
    if |ts| == 0 then []
    else
      var t := ts[|ts| - 1];
      var rest := InYear(ts[..|ts| - 1], year);
      assert ts == ts[..|ts| - 1] + [t];
      if t.date.year == year then rest + [t] else rest
  }

  /** A month's transactions are among its year's. */
  lemma {:induction false} MonthWithinYear(ts: seq<Transaction>, month: Date)
    ensures forall t :: t in InMonth(ts, month) ==> t in InYear(ts, month.year)
  {
  }

  /** One entry of the `Map<string, number>` the breakdown builds. */
  datatype CategoryAmount = CategoryAmount(category: string, amount: real)

  function EntriesSum(es: seq<CategoryAmount>): real {
    if |es| == 0 then 0.0 else es[0].amount + EntriesSum(es[1..])
  }

  function CategoriesOf(es: seq<CategoryAmount>): set<string> {
    if |es| == 0 then {} else {es[0].category} + CategoriesOf(es[1..])
  }

  /** One entry per category, as in a `Map`. */
  predicate DistinctCategories(es: seq<CategoryAmount>) {
    |es| == 0 || (es[0].category !in CategoriesOf(es[1..]) && DistinctCategories(es[1..]))
  }

  /**
   * `map.set(category, (map.get(category) || 0) + amount)`: the entry's
   * amount grows in place, or a new entry goes at the end (insertion order).
   */
  function AddTo(es: seq<CategoryAmount>, category: string, amount: real): (r: seq<CategoryAmount>)
    ensures CategoriesOf(r) == CategoriesOf(es) + {category}
    ensures category !in CategoriesOf(es) ==> r == es + [CategoryAmount(category, amount)]
    ensures category in CategoriesOf(es) ==> |r| == |es|
  {
    if |es| == 0 then [CategoryAmount(category, amount)]
    else if es[0].category == category then [CategoryAmount(category, es[0].amount + amount)] + es[1..]
    else
      assert es == [es[0]] + es[1..];
      [es[0]] + AddTo(es[1..], category, amount)
  }

  /** Adding to the map adds the amount to the sum of its entries and keeps one entry per category. */
  lemma {:induction false} AddToSum(es: seq<CategoryAmount>, category: string, amount: real)
    requires DistinctCategories(es)
    ensures EntriesSum(AddTo(es, category, amount)) == EntriesSum(es) + amount
    ensures DistinctCategories(AddTo(es, category, amount))
  {
    if |es| > 0 && es[0].category != category {
      var rest := AddTo(es[1..], category, amount);
      AddToSum(es[1..], category, amount);
      assert ([es[0]] + rest)[1..] == rest;
    } else if |es| > 0 {
      var r := [CategoryAmount(category, es[0].amount + amount)] + es[1..];
      assert r[1..] == es[1..];
    }
  }

  /** The map of one type built by the `forEach` over the month's transactions. */
  function Breakdown(ts: seq<Transaction>, t: TxType): (r: seq<CategoryAmount>)
    ensures CategoriesOf(r) == set i | 0 <= i < |ts| && ts[i].txType == t :: ts[i].category
  {
    if |ts| == 0 then []
    else
      var last := ts[|ts| - 1];
      var rest := Breakdown(ts[..|ts| - 1], t);
      if last.txType == t then AddTo(rest, last.category, last.amount) else rest
  }

  /** A type's breakdown has one entry per category and its amounts add up to the type's total. */
  lemma {:induction false} BreakdownSumsToTotal(ts: seq<Transaction>, t: TxType)
    ensures EntriesSum(Breakdown(ts, t)) == TypeTotal(ts, t)
    ensures DistinctCategories(Breakdown(ts, t))
  {
    if |ts| > 0 {
      var last := ts[|ts| - 1];
      BreakdownSumsToTotal(ts[..|ts| - 1], t);
      if last.txType == t {
        AddToSum(Breakdown(ts[..|ts| - 1], t), last.category, last.amount);
      }
    }
  }

  /**
   * The `forEach` filling the two maps: expenses in one, everything else
   * (income) in the other.
   */
  method BreakdownByType(ts: seq<Transaction>) returns (expenses: seq<CategoryAmount>, income: seq<CategoryAmount>)
    ensures expenses == Breakdown(ts, Expense) && income == Breakdown(ts, Income)
    ensures EntriesSum(expenses) == TypeTotal(ts, Expense) && EntriesSum(income) == TypeTotal(ts, Income)
  {
    expenses := [];
    income := [];
    var i := 0;
    while i < |ts|
      invariant 0 <= i <= |ts|
      invariant expenses == Breakdown(ts[..i], Expense) && income == Breakdown(ts[..i], Income)
    {
      var t := ts[i];
      assert ts[..i + 1][..i] == ts[..i];
      if t.txType == Expense {
        expenses := AddTo(expenses, t.category, t.amount);
      } else {
        income := AddTo(income, t.category, t.amount);
      }
      i := i + 1;
    }
    assert ts[..|ts|] == ts;
    BreakdownSumsToTotal(ts, Expense);
    BreakdownSumsToTotal(ts, Income);
  }

  datatype CategorySummary = CategorySummary(category: string, amount: real, percentage: real, color: string)

  /** `total > 0 ? amount / total * 100 : 0`. */
  function Percentage(amount: real, total: real): (r: real)
    ensures total <= 0.0 ==> r == 0.0
    ensures total > 0.0 ==> r * total == amount * 100.0
  {
    if total > 0.0 then amount / total * 100.0 else 0.0
  }

  /** The comparator `(a, b) => b.amount - a.amount`: `a` goes first when its amount is larger. */
  function LargerAmount(a: CategorySummary, b: CategorySummary): bool {
    b.amount < a.amount
  }

  lemma {:induction false} LargerAmountIsStrictOrder()
    ensures StrictOrder(LargerAmount)
  {
  }

  function SummariesOf(es: seq<CategoryAmount>, total: real, t: TxType): (r: seq<CategorySummary>)
    ensures |r| == |es|
    ensures forall i :: 0 <= i < |es| ==> r[i] == CategorySummary(es[i].category, es[i].amount, Percentage(es[i].amount, total), GetCategoryColor(es[i].category, t))
  {
    seq(|es|, i requires 0 <= i < |es| => CategorySummary(es[i].category, es[i].amount, Percentage(es[i].amount, total), GetCategoryColor(es[i].category, t)))
  }

  function SummarySum(ss: seq<CategorySummary>): real {
    if |ss| == 0 then 0.0 else ss[0].amount + SummarySum(ss[1..])
  }

  lemma {:induction false} SummarySumAppend(a: seq<CategorySummary>, b: seq<CategorySummary>)
    ensures SummarySum(a + b) == SummarySum(a) + SummarySum(b)
  {
    if |a| == 0 {
      assert a + b == b;
    } else {
      assert (a + b)[1..] == a[1..] + b;
      SummarySumAppend(a[1..], b);
    }
  }

  lemma {:induction false} InsertKeepsSum(x: CategorySummary, s: seq<CategorySummary>)
    ensures SummarySum(Insert(x, s, LargerAmount)) == x.amount + SummarySum(s)
  {
    if |s| > 0 && !LargerAmount(x, s[0]) {
      InsertKeepsSum(x, s[1..]);
      assert ([s[0]] + Insert(x, s[1..], LargerAmount))[1..] == Insert(x, s[1..], LargerAmount);
    }
  }

  lemma {:induction false} SummarySumLast(s: seq<CategorySummary>)
    requires |s| > 0
    ensures SummarySum(s) == SummarySum(s[..|s| - 1]) + s[|s| - 1].amount
  {
    var n := |s| - 1;
    SummarySumAppend(s[..n], [s[n]]);
    assert s[..n] + [s[n]] == s;
    assert SummarySum([s[n]]) == s[n].amount + SummarySum([]) by {
      assert [s[n]][1..] == [];
    }
  }

  /** Sorting moves the summaries around without changing their total. */
  lemma {:induction false} SortKeepsSum(s: seq<CategorySummary>)
    ensures SummarySum(SortWith(s, LargerAmount)) == SummarySum(s)
  {
    if |s| > 0 {
      var p := s[..|s| - 1];
      var x := s[|s| - 1];
      calc {
        SummarySum(SortWith(s, LargerAmount));
      == { SortWithUnfold(s, LargerAmount); }
        SummarySum(Insert(x, SortWith(p, LargerAmount), LargerAmount));
      == { InsertKeepsSum(x, SortWith(p, LargerAmount)); }
        x.amount + SummarySum(SortWith(p, LargerAmount));
      == { SortKeepsSum(p); }
        x.amount + SummarySum(p);
      == { SummarySumLast(s); }
        SummarySum(s);
      }
    }
  }

  lemma {:induction false} SummarySumOfEntries(es: seq<CategoryAmount>, total: real, t: TxType)
    ensures SummarySum(SummariesOf(es, total, t)) == EntriesSum(es)
  {
    if |es| > 0 {
      SummarySumOfEntries(es[1..], total, t);
      assert SummariesOf(es, total, t)[1..] == SummariesOf(es[1..], total, t);
    }
  }

  /**
   * `createCategorySummary(map, total, type)`: one summary per entry, the
   * largest amount first (equal amounts in map order), the amounts still
   * adding up to the entries' sum, and every percentage 0 when the total is not positive.
   */
  function CreateCategorySummary(es: seq<CategoryAmount>, total: real, t: TxType): (r: seq<CategorySummary>)
    ensures multiset(r) == multiset(SummariesOf(es, total, t)) && |r| == |es|
    ensures SortedBy(r, LargerAmount)
    ensures SummarySum(r) == EntriesSum(es)
    ensures total <= 0.0 ==> forall i :: 0 <= i < |r| ==> r[i].percentage == 0.0
  {
    var ss := SummariesOf(es, total, t);
    LargerAmountIsStrictOrder();
    SortWithSorted(ss, LargerAmount);
    SortKeepsSum(ss);
    SummarySumOfEntries(es, total, t);
    SortWithKeepsAll(ss, LargerAmount, (c: CategorySummary) => total <= 0.0 ==> c.percentage == 0.0);
    SortWith(ss, LargerAmount)
  }

  datatype YearTotals = YearTotals(totalIncome: real, totalExpenses: real, balance: real)

  datatype Summary = Summary(
    currentMonth: MonthlyData,
    previousMonth: MonthlyData,
    yearToDate: YearTotals,
    expenseBreakdown: seq<CategorySummary>,
    incomeBreakdown: seq<CategorySummary>)

  /**
   * `getFinancialSummary()`: the current and previous month's data, the
   * totals of the current month's calendar year, and the breakdown of the
   * current month by category, each type against its own monthly total.
   */
  method GetFinancialSummary(ts: seq<Transaction>, currentMonth: Date) returns (s: Summary)
    requires 1 <= currentMonth.month <= 12
    ensures s.currentMonth == MonthData(ts, currentMonth)
    ensures s.previousMonth == MonthData(ts, PreviousMonth(currentMonth))
    ensures s.yearToDate.totalIncome == TypeTotal(InYear(ts, currentMonth.year), Income)
    ensures s.yearToDate.totalExpenses == TypeTotal(InYear(ts, currentMonth.year), Expense)
    ensures s.yearToDate.balance == s.yearToDate.totalIncome - s.yearToDate.totalExpenses
    ensures SummarySum(s.expenseBreakdown) == s.currentMonth.totalExpenses
    ensures SummarySum(s.incomeBreakdown) == s.currentMonth.totalIncome
    ensures SortedBy(s.expenseBreakdown, LargerAmount) && SortedBy(s.incomeBreakdown, LargerAmount)
    ensures s.expenseBreakdown == CreateCategorySummary(Breakdown(s.currentMonth.transactions, Expense), s.currentMonth.totalExpenses, Expense)
    ensures s.incomeBreakdown == CreateCategorySummary(Breakdown(s.currentMonth.transactions, Income), s.currentMonth.totalIncome, Income)
  {
    var current := MonthData(ts, currentMonth);
    var previous := MonthData(ts, PreviousMonth(currentMonth));
    var inYear := InYear(ts, currentMonth.year);
    var yearIncome := TypeTotal(inYear, Income);
    var yearExpenses := TypeTotal(inYear, Expense);
    var expenses, income := BreakdownByType(current.transactions);
    s := Summary(current, previous, YearTotals(yearIncome, yearExpenses, yearIncome - yearExpenses),
                 CreateCategorySummary(expenses, current.totalExpenses, Expense),
                 CreateCategorySummary(income, current.totalIncome, Income));
  }
}
