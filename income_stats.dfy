/**
 * The statistics of hooks/useIncomeTotals.ts over one year's totals: the
 * average over months with data, the highest and lowest such month, the
 * categories ranked by total, and percentages of the grand total. The
 * monthly totals arrive as the twelve values of `getMonthlyTotals`, January
 * first; the category totals as a dictionary together with the order its
 * keys enumerate in.
 */
module IncomeStats {
  import opened Wrappers
  import opened Sorting
  import opened Income

  datatype MonthStat = MonthStat(month: int, monthName: string, value: real)

  /** `{ month: 1, monthName: MONTHS[1], value: 0 }`, reported when no month has data. */
  const NoMonth := MonthStat(1, "Ene", 0.0)

  /** Some month among the first `n` has a positive total. */
  predicate HasData(totals: seq<real>, n: int)
    requires 0 <= n <= |totals|
  {
    exists j :: 0 <= j < n && totals[j] > 0.0
  }

  /** `Object.values(monthlyTotals).filter(value => value > 0).length` over the first `n` months. */
  function MonthsWithData(totals: seq<real>, n: nat): (r: nat)
    requires n <= |totals|
    ensures r <= n
    ensures r == 0 <==> !HasData(totals, n)
  {
    if n == 0 then 0
    else MonthsWithData(totals, n - 1) + (if totals[n - 1] > 0.0 then 1 else 0)
  }

  /** `averageMonthly`: the grand total spread over the months with data, 0 when there are none. */
  function AverageMonthly(totals: seq<real>, grandTotal: real): (r: real)
    ensures MonthsWithData(totals, |totals|) == 0 ==> r == 0.0
    ensures MonthsWithData(totals, |totals|) > 0 ==> r * MonthsWithData(totals, |totals|) as real == grandTotal
  {
    var count := MonthsWithData(totals, |totals|);
    if count > 0 then grandTotal / count as real else 0.0
  }

  /**
   * `s` is what `highestMonth` holds after the first `n` months: the month
   * with the greatest positive total, the earliest among equals, or
   * `NoMonth` when none is positive.
   */
  predicate IsHighest(totals: seq<real>, n: int, s: MonthStat)
    requires 0 <= n <= |totals| <= 12
  {
    if !HasData(totals, n) then s == NoMonth
    else
      && 1 <= s.month <= n && s.value == totals[s.month - 1] && s.value > 0.0
      && s.monthName == MonthName(s.month)
      && (forall j :: 0 <= j < n ==> totals[j] <= s.value)
      && (forall j :: 0 <= j < s.month - 1 ==> totals[j] < s.value)
  }

  /**
   * `s` is what `lowestMonth` holds after the first `n` months: the month
   * with the smallest positive total, the earliest among equals, or `None`
   * (the initial `Infinity`) when none is positive.
   */
  predicate IsLowest(totals: seq<real>, n: int, s: Option<MonthStat>)
    requires 0 <= n <= |totals| <= 12
  {
    if !HasData(totals, n) then s.None?
    else
      && s.Some?
      && 1 <= s.value.month <= n && s.value.value == totals[s.value.month - 1] && s.value.value > 0.0
      && s.value.monthName == MonthName(s.value.month)
      && (forall j :: 0 <= j < n && totals[j] > 0.0 ==> s.value.value <= totals[j])
      && (forall j :: 0 <= j < s.value.month - 1 && totals[j] > 0.0 ==> s.value.value < totals[j])
  }

  /** The description of the highest month singles out one month. */
  lemma {:induction false} HighestIsUnique(totals: seq<real>, n: int, a: MonthStat, b: MonthStat)
    requires 0 <= n <= |totals| <= 12
    requires IsHighest(totals, n, a) && IsHighest(totals, n, b)
    ensures a == b
  {
    if HasData(totals, n) && a.month != b.month {
      assert false;
    }
  }

  /** The description of the lowest month singles out one month. */
  lemma {:induction false} LowestIsUnique(totals: seq<real>, n: int, a: Option<MonthStat>, b: Option<MonthStat>)
    requires 0 <= n <= |totals| <= 12
    requires IsLowest(totals, n, a) && IsLowest(totals, n, b)
    ensures a == b
  {
    if HasData(totals, n) && a.value.month != b.value.month {
      assert false;
    }
  }

  /**
   * The `forEach` over the months with data: `highestMonth` takes a month
   * whose total beats it, `lowestMonth` one whose total undercuts it; then
   * `lowestMonth` is reset to `NoMonth` if it is still `Infinity`.
   */
  method Extremes(totals: seq<real>) returns (highest: MonthStat, lowest: MonthStat)
    requires |totals| == 12
    ensures IsHighest(totals, 12, highest)
    ensures !HasData(totals, 12) ==> lowest == NoMonth
    ensures HasData(totals, 12) ==> IsLowest(totals, 12, Some(lowest))
    ensures highest.value >= lowest.value
  {
    highest := NoMonth;
    var low: Option<MonthStat> := None;
    var i := 0;
    while i < 12
      invariant 0 <= i <= 12
      invariant IsHighest(totals, i, highest)
      invariant IsLowest(totals, i, low)
    {
      highest := VisitHighest(totals, i, highest);
      low := VisitLowest(totals, i, low);
      i := i + 1;
    }
    lowest := if low.None? then NoMonth else low.value;
    assert HasData(totals, 12) ==> totals[highest.month - 1] > 0.0;
  }

  lemma {:induction false} HasDataStep(totals: seq<real>, i: nat)
    requires i < |totals|
    ensures HasData(totals, i + 1) <==> HasData(totals, i) || totals[i] > 0.0
  {
    if HasData(totals, i + 1) && !(totals[i] > 0.0) {
      var j :| 0 <= j < i + 1 && totals[j] > 0.0;
      assert j < i;
    }
  }

  /** One month of the `forEach`, as `highestMonth` sees it. */
  method VisitHighest(totals: seq<real>, i: nat, highest: MonthStat) returns (h: MonthStat)
    requires i < |totals| <= 12 && IsHighest(totals, i, highest)
    ensures IsHighest(totals, i + 1, h)
  {
    HasDataStep(totals, i);
    var value := totals[i];
    h := highest;
    if value > 0.0 && value > highest.value {
      h := MonthStat(i + 1, MonthName(i + 1), value);
    }
  }

  /** One month of the `forEach`, as `lowestMonth` sees it. */
  method VisitLowest(totals: seq<real>, i: nat, low: Option<MonthStat>) returns (l: Option<MonthStat>)
    requires i < |totals| <= 12 && IsLowest(totals, i, low)
    ensures IsLowest(totals, i + 1, l)
  {
    HasDataStep(totals, i);
    var value := totals[i];
    l := low;
    if value > 0.0 && (low.None? || value < low.value.value) {
      l := Some(MonthStat(i + 1, MonthName(i + 1), value));
    }
  }

  /** One entry of `topCategories`. */
  datatype TopCategory = TopCategory(categoryId: string, categoryName: string, total: real, percentage: real)

  const UnknownCategory := "Categoría desconocida"

  /** `category?.name || 'Categoría desconocida'`: an empty name falls back too. */
  function NameOf(categories: seq<Category>, id: string): (r: string)
    ensures !HasId(categories, id) ==> r == UnknownCategory
    ensures HasId(categories, id) ==> var c := categories[IndexOfId(categories, id)];
      r == if c.name == "" then UnknownCategory else c.name
  {
    var i := IndexOfId(categories, id);
    if i >= 0 && categories[i].name != "" then categories[i].name else UnknownCategory
  }

  /** The percentage `topCategories` reports: `total / grandTotal * 100` when the grand total is positive, else 0. */
  function SharePercentage(total: real, grandTotal: real): real {
    if grandTotal > 0.0 then total / grandTotal * 100.0 else 0.0
  }

  /** `getCategoryPercentage(id)`: 0 only when the grand total is exactly 0. */
  function CategoryPercentage(categoryTotals: map<string, real>, grandTotal: real, id: string): (r: real)
    ensures grandTotal == 0.0 ==> r == 0.0
    ensures grandTotal != 0.0 ==> r * grandTotal == TotalOrZero(categoryTotals, id) * 100.0
  {
    if grandTotal == 0.0 then 0.0 else TotalOrZero(categoryTotals, id) / grandTotal * 100.0
  }

  /**
   * `getMonthTotal(month)` and `getCategoryTotal(id)`: the total kept under
   * the key, 0 for a key without a total.
   */
  function TotalOrZero<K>(totals: map<K, real>, key: K): (r: real)
    ensures key in totals ==> r == totals[key]
    ensures key !in totals ==> r == 0.0
  {
    if key in totals then totals[key] else 0.0
  }

  /** The `map` step of `topCategories` for one category id. */
  function Ranked(categories: seq<Category>, categoryTotals: map<string, real>, grandTotal: real, id: string): TopCategory
    requires id in categoryTotals
  {
    TopCategory(id, NameOf(categories, id), categoryTotals[id], SharePercentage(categoryTotals[id], grandTotal))
  }

  /** The `filter(item => item.total > 0)` step. */
  function WithPositiveTotal(items: seq<TopCategory>): (r: seq<TopCategory>)
    ensures forall x :: x in r <==> x in items && x.total > 0.0
    ensures forall x :: x in r ==> x.total > 0.0
    ensures |r| <= |items|
  {
    if |items| == 0 then []
    else (if items[0].total > 0.0 then [items[0]] else []) + WithPositiveTotal(items[1..])
  }

  /** The comparator `(a, b) => b.total - a.total`: larger totals first. */
  function LargerTotal(a: TopCategory, b: TopCategory): bool {
    a.total > b.total
  }

  /** The `map` step of `topCategories` over the enumerated ids. */
  function RankedItems(categories: seq<Category>, categoryTotals: map<string, real>, grandTotal: real, ids: seq<string>): (r: seq<TopCategory>)
    requires forall i :: 0 <= i < |ids| ==> ids[i] in categoryTotals
    ensures |r| == |ids|
    ensures forall i :: 0 <= i < |ids| ==> r[i] == Ranked(categories, categoryTotals, grandTotal, ids[i]) && r[i].categoryId == ids[i]
  {
    seq(|ids|, i requires 0 <= i < |ids| => Ranked(categories, categoryTotals, grandTotal, ids[i]))
  }

  /**
   * `topCategories`: the categories with a positive total, largest first;
   * `ids` is the order in which `Object.entries` enumerates the totals.
   */
  function TopCategories(categories: seq<Category>, categoryTotals: map<string, real>, grandTotal: real, ids: seq<string>): (r: seq<TopCategory>)
    requires forall i :: 0 <= i < |ids| ==> ids[i] in categoryTotals
    ensures |r| <= |ids|
  {
    SortWith(WithPositiveTotal(RankedItems(categories, categoryTotals, grandTotal, ids)), LargerTotal)
  }

  /**
   * Every ranked entry has a positive total and its own category's name and
   * share; the totals never increase down the list; and every enumerated
   * category with a positive total is ranked.
   */
  lemma {:induction false} TopCategoriesRanked(categories: seq<Category>, categoryTotals: map<string, real>, grandTotal: real, ids: seq<string>)
    requires forall i :: 0 <= i < |ids| ==> ids[i] in categoryTotals
    ensures var r := TopCategories(categories, categoryTotals, grandTotal, ids);
      && (forall x :: x in r ==> x.total > 0.0 && x.categoryId in categoryTotals && x == Ranked(categories, categoryTotals, grandTotal, x.categoryId))
      && (forall i, j :: 0 <= i < j < |r| ==> r[i].total >= r[j].total)
      && (forall i :: 0 <= i < |ids| && categoryTotals[ids[i]] > 0.0 ==> Ranked(categories, categoryTotals, grandTotal, ids[i]) in r)
  {
    TopEntriesRanked(categories, categoryTotals, grandTotal, ids);
    TopTotalsDescend(categories, categoryTotals, grandTotal, ids);
    TopPositivesRanked(categories, categoryTotals, grandTotal, ids);
  }

  /** Each ranked entry is a category with a positive total, with its own name and share. */
  lemma {:induction false} TopEntriesRanked(categories: seq<Category>, categoryTotals: map<string, real>, grandTotal: real, ids: seq<string>)
    requires forall i :: 0 <= i < |ids| ==> ids[i] in categoryTotals
    ensures forall x :: x in TopCategories(categories, categoryTotals, grandTotal, ids) ==>
      x.total > 0.0 && x.categoryId in categoryTotals && x == Ranked(categories, categoryTotals, grandTotal, x.categoryId)
  {
    var items := RankedItems(categories, categoryTotals, grandTotal, ids);
    var kept := WithPositiveTotal(items);
    var r := SortWith(kept, LargerTotal);
    forall x | x in r
      ensures x.total > 0.0 && x.categoryId in categoryTotals && x == Ranked(categories, categoryTotals, grandTotal, x.categoryId)
    {
      assert x in multiset(kept);
      assert x in items;
      var k :| 0 <= k < |items| && items[k] == x;
    }
  }

  /** The ranked totals never increase down the list. */
  lemma {:induction false} TopTotalsDescend(categories: seq<Category>, categoryTotals: map<string, real>, grandTotal: real, ids: seq<string>)
    requires forall i :: 0 <= i < |ids| ==> ids[i] in categoryTotals
    ensures var r := TopCategories(categories, categoryTotals, grandTotal, ids);
      forall i, j :: 0 <= i < j < |r| ==> r[i].total >= r[j].total
  {
    var kept := WithPositiveTotal(RankedItems(categories, categoryTotals, grandTotal, ids));
    var r := SortWith(kept, LargerTotal);
    assert StrictOrder(LargerTotal);
    SortWithSorted(kept, LargerTotal);
    forall i, j | 0 <= i < j < |r| ensures r[i].total >= r[j].total {
      assert !LargerTotal(r[j], r[i]);
    }
  }

  /** Every enumerated category with a positive total is ranked. */
  lemma {:induction false} TopPositivesRanked(categories: seq<Category>, categoryTotals: map<string, real>, grandTotal: real, ids: seq<string>)
    requires forall i :: 0 <= i < |ids| ==> ids[i] in categoryTotals
    ensures forall i :: 0 <= i < |ids| && categoryTotals[ids[i]] > 0.0 ==>
      Ranked(categories, categoryTotals, grandTotal, ids[i]) in TopCategories(categories, categoryTotals, grandTotal, ids)
  {
    var items := RankedItems(categories, categoryTotals, grandTotal, ids);
    var kept := WithPositiveTotal(items);
    var r := SortWith(kept, LargerTotal);
    forall i | 0 <= i < |ids| && categoryTotals[ids[i]] > 0.0 ensures items[i] in r {
      assert items[i] in kept;
      assert items[i] in multiset(kept);
    }
  }

  /**
   * `Object.entries` lists each key once; with the ids distinct, no
   * category is ranked twice, so with `TopCategoriesRanked` every category
   * with a positive total is ranked exactly once.
   */
  lemma {:induction false} TopCategoriesOnce(categories: seq<Category>, categoryTotals: map<string, real>, grandTotal: real, ids: seq<string>)
    requires forall i :: 0 <= i < |ids| ==> ids[i] in categoryTotals
    requires forall i, j :: 0 <= i < j < |ids| ==> ids[i] != ids[j]
    ensures var r := TopCategories(categories, categoryTotals, grandTotal, ids);
      forall i, j :: 0 <= i < j < |r| ==> r[i].categoryId != r[j].categoryId
  {
    var items := RankedItems(categories, categoryTotals, grandTotal, ids);
    var kept := WithPositiveTotal(items);
    var r := SortWith(kept, LargerTotal);
    var isRanked := (x: TopCategory) => x.categoryId in categoryTotals && x == Ranked(categories, categoryTotals, grandTotal, x.categoryId);
    assert Distinct(items) by {
      forall i, j | 0 <= i < j < |items| ensures items[i] != items[j] {
        assert items[i].categoryId != items[j].categoryId;
      }
    }
    forall k | 0 <= k < |kept| ensures isRanked(kept[k]) {
      assert kept[k] in items;
    }
    SortWithKeepsAll(kept, LargerTotal, isRanked);
    PositiveKeepsDistinct(items);
    DistinctCountsOnce(kept);
    CountedOnceDistinct(r);
    forall i, j | 0 <= i < j < |r| ensures r[i].categoryId != r[j].categoryId {
      assert isRanked(r[i]) && isRanked(r[j]);
    }
  }

  /** Pairwise different entries stay pairwise different once the non-positive ones are dropped. */
  lemma {:induction false} PositiveKeepsDistinct(items: seq<TopCategory>)
    requires Distinct(items)
    ensures Distinct(WithPositiveTotal(items))
  {
    if |items| > 0 {
      var rest := WithPositiveTotal(items[1..]);
      assert Distinct(items[1..]) by {
        forall i, j | 0 <= i < j < |items[1..]| ensures items[1..][i] != items[1..][j] {
          assert items[1..][i] == items[i + 1] && items[1..][j] == items[j + 1];
        }
      }
      PositiveKeepsDistinct(items[1..]);
      assert items[0] !in items[1..] by {
        forall k | 0 <= k < |items[1..]| ensures items[1..][k] != items[0] {
          assert items[1..][k] == items[k + 1];
        }
      }
      assert items[0] !in rest;
      if items[0].total > 0.0 {
        var r := [items[0]] + rest;
        assert WithPositiveTotal(items) == r;
        forall i, j | 0 <= i < j < |r| ensures r[i] != r[j] {
          assert r[j] == rest[j - 1];
          if i > 0 {
            assert r[i] == rest[i - 1];
          }
        }
      } else {
        assert WithPositiveTotal(items) == [] + rest;
      }
    }
  }

  /** A ranked category's share agrees with `getCategoryPercentage` whenever the grand total is positive. */
  lemma {:induction false} RankedShareAgrees(categories: seq<Category>, categoryTotals: map<string, real>, grandTotal: real, id: string)
    requires id in categoryTotals && grandTotal > 0.0
    ensures Ranked(categories, categoryTotals, grandTotal, id).percentage == CategoryPercentage(categoryTotals, grandTotal, id)
  {
  }

  /** With a negative grand total the two percentages part: the ranking reports 0, `getCategoryPercentage` does not. */
  lemma {:induction false} SharesDisagreeBelowZero()
    ensures SharePercentage(10.0, -20.0) == 0.0
    ensures CategoryPercentage(map["a" := 10.0], -20.0, "a") == -50.0
  {
  }
}
