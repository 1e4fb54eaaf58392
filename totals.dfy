/**
 * The store's memoised selectors over one year's grid
 * (src/store/useFinanceStore.ts): totals per month, per category and overall.
 * Every cell a row lacks counts as 0.
 */
module Totals {
  import opened Sums
  import opened Income

  /** One row as the store holds it in memory: amounts exactly as they were handed to `setCell` / `bulkSetRow`. */
  type Amounts = map<int, real>

  /** One year of the store's in-memory grid. */
  type Grid = map<string, Amounts>

  /** A grid read from storage, its integer amounts as numbers. */
  function AsGrid(m: Matrix): (g: Grid)
    ensures g.Keys == m.Keys
    ensures forall id, k :: id in m && k in m[id] ==> k in g[id] && g[id][k] == m[id][k] as real
  {
    map id | id in m :: map k | k in m[id] :: m[id][k] as real
  }

  /** `row[month] || 0`. */
  function AmountAt(row: Amounts, month: int): real {
    if month in row then row[month] else 0.0
  }

  /** `matrix[id] || {}`. */
  function AmountsOf(g: Grid, id: string): Amounts {
    if id in g then g[id] else map[]
  }

  /** `getMonthlyTotals(year)` for one month: that month summed over every row. */
  /** No amount of any row is negative, as amounts clamped at 0 are. */
  predicate NonNegativeGrid(m: Grid) {
    forall id :: id in m ==> NonNegativeValues(m[id])
  }

  ghost function MonthTotal(m: Grid, month: int): real {
    RealSum(MonthColumn(m, month))
  }

  /** The column `month` of the grid, one entry per row. */
  ghost function MonthColumn(m: Grid, month: int): map<string, real> {
    map id | id in m :: AmountAt(m[id], month)
  }

  /** `getMonthlyTotals(year)`: an entry for each month 1..12. */
  ghost function MonthlyTotals(m: Grid): (r: map<int, real>)
    ensures forall month :: month in r <==> IsMonth(month)
    ensures forall month :: IsMonth(month) ==> r[month] == MonthTotal(m, month)
  {
    map month | 1 <= month <= 12 :: MonthTotal(m, month)
  }

  /** `getAnnualTotalsByCategory(year)`: each row's values summed. */
  ghost function CategoryTotals(m: Grid): (r: map<string, real>)
    ensures r.Keys == m.Keys
  {
    map id | id in m :: RealSum(m[id])
  }

  /** `getGrandTotal(year)`: row totals added up row by row. */
  ghost function GrandTotal(m: Grid): real
    decreases |m|
  {
    if |m| == 0 then 0.0
    else
      var id := PickKey(m);
      RealSum(m[id]) + GrandTotal(m - {id})
  }

  /** With no negative amount, no month total is negative. */
  lemma {:induction false} MonthTotalNonNegative(m: Grid, month: int)
    requires NonNegativeGrid(m)
    ensures MonthTotal(m, month) >= 0.0
  {
    RealSumNonNegative(MonthColumn(m, month));
  }

  /** With no negative amount, the grand total is not negative. */
  lemma {:induction false} GrandTotalNonNegative(m: Grid)
    requires NonNegativeGrid(m)
    ensures GrandTotal(m) >= 0.0
    decreases |m|
  {
    if |m| > 0 {
      var id := PickKey(m);
      RealSumNonNegative(m[id]);
      GrandTotalNonNegative(m - {id});
    }
  }

  /** Any row can be added first. */
  lemma {:induction false} GrandTotalRemove(m: Grid, id: string)
    requires id in m
    ensures GrandTotal(m) == RealSum(m[id]) + GrandTotal(m - {id})
    decreases |m|
  {
    var j := PickKey(m);
    if j != id {
      var withoutJ, withoutId := m - {j}, m - {id};
      var rest := withoutJ - {id};
      assert withoutId - {j} == rest;
      GrandTotalRemove(withoutJ, id);
      GrandTotalRemove(withoutId, j);
      var x, y, z := RealSum(m[id]), RealSum(m[j]), GrandTotal(rest);
      assert GrandTotal(m) == y + GrandTotal(withoutJ);
      assert GrandTotal(withoutJ) == x + z;
      assert GrandTotal(withoutId) == y + z;
    }
  }

  /** The grand total is the sum of the category totals. */
  lemma {:induction false} GrandTotalIsSumOfCategories(m: Grid)
    ensures GrandTotal(m) == RealSum(CategoryTotals(m))
    decreases |m|
  {
    if |m| > 0 {
      var id := PickKey(m);
      RealSumRemove(CategoryTotals(m), id);
      assert CategoryTotals(m) - {id} == CategoryTotals(m - {id});
      GrandTotalIsSumOfCategories(m - {id});
    }
  }

  /** The monthly totals for months 1..k added up. */
  ghost function MonthsSum(m: Grid, k: int): real
    decreases k
  {
    if k < 1 then 0.0 else MonthsSum(m, k - 1) + MonthTotal(m, k)
  }

  /** One row's months 1..k added up. */
  function RowMonthsSum(row: Amounts, k: int): real
    decreases k
  {
    if k < 1 then 0.0 else RowMonthsSum(row, k - 1) + AmountAt(row, k)
  }

  lemma {:induction false} MonthTotalRemove(m: Grid, id: string, month: int)
    requires id in m
    ensures MonthTotal(m, month) == AmountAt(m[id], month) + MonthTotal(m - {id}, month)
  {
    RealSumRemove(MonthColumn(m, month), id);
    assert MonthColumn(m, month) - {id} == MonthColumn(m - {id}, month);
  }

  lemma {:induction false} MonthsSumRemove(m: Grid, id: string, k: int)
    requires id in m
    ensures MonthsSum(m, k) == RowMonthsSum(m[id], k) + MonthsSum(m - {id}, k)
    decreases k
  {
    if k >= 1 {
      MonthsSumRemove(m, id, k - 1);
      MonthTotalRemove(m, id, k);
    }
  }

  lemma {:induction false} RowMonthsSumRemove(row: Amounts, j: int, k: int)
    requires j in row
    ensures RowMonthsSum(row, k) == RowMonthsSum(row - {j}, k) + (if 1 <= j <= k then row[j] else 0.0)
    decreases k
  {
    if k >= 1 {
      RowMonthsSumRemove(row, j, k - 1);
    }
  }

  /** A row keyed by months 1..k only sums to its months 1..k. */
  lemma {:induction false} RowSumIsMonthsSum(row: Amounts, k: int)
    requires forall j :: j in row ==> 1 <= j <= k
    ensures RealSum(row) == RowMonthsSum(row, k)
    decreases |row|
  {
    if |row| == 0 {
      RowMonthsSumEmpty(row, k);
    } else {
      var j := PickKey(row);
      RealSumRemove(row, j);
      RowMonthsSumRemove(row, j, k);
      RowSumIsMonthsSum(row - {j}, k);
    }
  }

  lemma {:induction false} RowMonthsSumEmpty(row: Amounts, k: int)
    requires |row| == 0
    ensures RowMonthsSum(row, k) == 0.0
    decreases k
  {
    if k >= 1 {
      RowMonthsSumEmpty(row, k - 1);
    }
  }

  lemma {:induction false} MonthsSumEmpty(m: Grid, k: int)
    requires |m| == 0
    ensures MonthsSum(m, k) == 0.0
    decreases k
  {
    if k >= 1 {
      MonthsSumEmpty(m, k - 1);
      assert MonthColumn(m, k) == map[];
    }
  }

  /** When every row is keyed by months 1..12 only, the grand total is the sum of the twelve monthly totals. */
  lemma {:induction false} GrandTotalIsSumOfMonths(m: Grid)
    requires forall id, k :: id in m && k in m[id] ==> 1 <= k <= 12
    ensures GrandTotal(m) == MonthsSum(m, 12)
  {
    GrandTotalIsMonthsSum(m, 12);
  }

  lemma {:induction false} GrandTotalIsMonthsSum(m: Grid, n: int)
    requires forall id, k :: id in m && k in m[id] ==> 1 <= k <= n
    ensures GrandTotal(m) == MonthsSum(m, n)
    decreases |m|
  {
    if |m| == 0 {
      MonthsSumEmpty(m, n);
    } else {
      var id := PickKey(m);
      var rest := m - {id};
      MonthsSumRemove(m, id, n);
      RowSumIsMonthsSum(m[id], n);
      GrandTotalIsMonthsSum(rest, n);
    }
  }

  /** A row's total is what `getAnnualTotalsByCategory` reports for it, and an absent row totals 0. */
  lemma {:induction false} CategoryTotalOfRow(m: Grid, id: string)
    ensures id in m ==> CategoryTotals(m)[id] == RealSum(m[id])
    ensures RealSum(AmountsOf(m, id)) == if id in CategoryTotals(m) then CategoryTotals(m)[id] else 0.0
  {
  }

  /** Sum of a two-entry dictionary. */
  lemma {:induction false} SumOfTwo<K>(m: map<K, real>, a: K, b: K)
    requires a != b && m.Keys == {a, b}
    ensures RealSum(m) == m[a] + m[b]
  {
    RealSumRemove(m, a);
    var rest := m - {a};
    assert rest.Keys == {b};
    RealSumRemove(rest, b);
    assert |rest - {b}| == 0;
  }

  /** The grid of the component test: two categories over January and February. */
  function TestGrid(): Grid {
    map["1" := map[1 := 500000.0, 2 := 520000.0], "2" := map[1 := 150000.0, 2 := 180000.0]]
  }

  /** Its monthly totals are 650000 and 700000, and 0 for a month without data. */
  lemma {:induction false} TestGridMonthTotals()
    ensures MonthTotal(TestGrid(), 1) == 650000.0
    ensures MonthTotal(TestGrid(), 2) == 700000.0
    ensures MonthTotal(TestGrid(), 3) == 0.0
  {
    TestGridColumn(1, 500000.0, 150000.0);
    TestGridColumn(2, 520000.0, 180000.0);
    TestGridColumn(3, 0.0, 0.0);
  }

  /** A column of the test grid is the sum of its two cells. */
  lemma {:induction false} TestGridColumn(month: int, a: real, b: real)
    requires AmountAt(TestGrid()["1"], month) == a && AmountAt(TestGrid()["2"], month) == b
    ensures MonthTotal(TestGrid(), month) == a + b
  {
    var m := TestGrid();
    assert m.Keys == {"1", "2"};
    SumOfTwo(MonthColumn(m, month), "1", "2");
  }

  /** Its category totals are 1020000 and 330000. */
  lemma {:induction false} TestGridCategoryTotals()
    ensures CategoryTotals(TestGrid()) == map["1" := 1020000.0, "2" := 330000.0]
  {
    var m := TestGrid();
    var c := CategoryTotals(m);
    TestGridRowTotals();
    assert m.Keys == {"1", "2"};
    assert c["1"] == 1020000.0 && c["2"] == 330000.0;
  }

  /** Its grand total is 1350000. */
  lemma {:induction false} TestGridGrandTotal()
    ensures GrandTotal(TestGrid()) == 1350000.0
  {
    var m := TestGrid();
    var rest := m - {"1"};
    assert GrandTotal(rest) == 330000.0 by {
      TestGridRowTotals();
      assert rest.Keys == {"2"} && rest["2"] == m["2"];
      GrandTotalRemove(rest, "2");
      assert rest - {"2"} == map[];
    }
    assert RealSum(m["1"]) == 1020000.0 by {
      TestGridRowTotals();
    }
    GrandTotalRemove(m, "1");
  }

  /** The two rows of the test grid add up to 1020000 and 330000. */
  lemma {:induction false} TestGridRowTotals()
    ensures RealSum(TestGrid()["1"]) == 1020000.0 && RealSum(TestGrid()["2"]) == 330000.0
  {
    var m := TestGrid();
    var r1, r2 := m["1"], m["2"];
    assert r1.Keys == {1, 2} && r2.Keys == {1, 2};
    SumOfTwo(r1, 1, 2);
    SumOfTwo(r2, 1, 2);
  }
}
