/**
 * The demo data both local adapters write into an empty store: five
 * categories with fixed names and, for each, three amounts in the current
 * month and the two before it (never before January).
 */
module Seed {
  import opened Text
  import opened Numbers
  import opened Sorting
  import opened Income

  /** The five demo categories `initialize` creates on an empty store. */
  const SeedNames: seq<string> := ["Sueldo", "Turnos", "UMed", "Arriendos", "Dividendos"]

  /** `Math.max(1, currentMonth - offset)`: the month a demo amount lands in. */
  function SeedMonth(currentMonth: int, offset: int): int {
    if currentMonth - offset < 1 then 1 else currentMonth - offset
  }

  /** The demo categories as `initialize` leaves them: seed names in order, `order` 0..4. */
  function SeedCategories(ids: seq<string>, now: int, n: nat): (r: seq<Category>)
    requires n <= |ids| && n <= |SeedNames|
    ensures |r| == n
    ensures forall i :: 0 <= i < n ==> r[i] == Category(ids[i], SeedNames[i], i, now, now)
  {
    seq(n, i requires 0 <= i < n => Category(ids[i], SeedNames[i], i, now, now))
  }

  /** Orders 0..n-1 in place: the seed list is sorted. */
  lemma {:induction false} SeedCategoriesSorted(ids: seq<string>, now: int, n: nat)
    requires n <= |ids| && n <= |SeedNames|
    ensures SortedBy(SeedCategories(ids, now, n), OrderBefore)
    ensures SortByOrder(SeedCategories(ids, now, n)) == SeedCategories(ids, now, n)
  {
    SortWithSortedIsIdentity(SeedCategories(ids, now, n), OrderBefore);
  }

  /** The first `n` demo writes into one row. */
  function PartialSeedRow(row: Row, currentMonth: int, amounts: seq<int>, n: nat): Row
    requires n <= |amounts|
  {
    if n == 0 then row
    else PartialSeedRow(row, currentMonth, amounts, n - 1)[SeedMonth(currentMonth, n - 1) := amounts[n - 1]]
  }

  /** One category's three demo writes, oldest offset last, so it wins when months coincide. */
  function SeedRow(row: Row, currentMonth: int, amounts: seq<int>): (r: Row)
    requires |amounts| == 3
    ensures SeedMonth(currentMonth, 2) in r && r[SeedMonth(currentMonth, 2)] == amounts[2]
    ensures SeedMonth(currentMonth, 0) in r && SeedMonth(currentMonth, 1) in r
  {
    var m0, m1, m2 := SeedMonth(currentMonth, 0), SeedMonth(currentMonth, 1), SeedMonth(currentMonth, 2);
    assert PartialSeedRow(row, currentMonth, amounts, 1) == row[m0 := amounts[0]];
    assert PartialSeedRow(row, currentMonth, amounts, 2) == row[m0 := amounts[0]][m1 := amounts[1]];
    assert PartialSeedRow(row, currentMonth, amounts, 3) == row[m0 := amounts[0]][m1 := amounts[1]][m2 := amounts[2]];
    PartialSeedRow(row, currentMonth, amounts, 3)
  }

  /** The grid after the demo writes of the first `k` categories. */
  function SeedGrid(m: Matrix, ids: seq<string>, currentMonth: int, amounts: seq<int>, k: nat): (r: Matrix)
    requires k <= |ids| && 3 * k <= |amounts|
    ensures k > 0 ==> ids[k - 1] in r
  {
    if k == 0 then m
    else
      var g := SeedGrid(m, ids, currentMonth, amounts, k - 1);
      g[ids[k - 1] := SeedRow(RowOf(g, ids[k - 1]), currentMonth, amounts[3 * (k - 1)..3 * k])]
  }

  /**
   * One step of the seeding loop over the stored grids of every year: after
   * `k` categories the year holds the first `k` demo rows, and writing the
   * row of category `k` gives the first `k + 1`.
   */
  lemma SeedLoopStep(start: map<int, Matrix>, prev: map<int, Matrix>, next: map<int, Matrix>, year: int,
                     ids: seq<string>, currentMonth: int, amounts: seq<int>, k: nat)
    requires k < |ids| && 3 * k + 3 <= |amounts|
    requires k == 0 ==> prev == start
    requires k > 0 ==> prev == start[year := SeedGrid(YearGrid(start, year), ids, currentMonth, amounts, k)]
    requires var m := YearGrid(prev, year);
      next == prev[year := m[ids[k] := SeedRow(RowOf(m, ids[k]), currentMonth, amounts[3 * k..3 * k + 3])]]
    ensures next == start[year := SeedGrid(YearGrid(start, year), ids, currentMonth, amounts, k + 1)]
  {
    assert YearGrid(prev, year) == SeedGrid(YearGrid(start, year), ids, currentMonth, amounts, k);
  }

  /**
   * With distinct ids, the seeded grid holds each demo category's row with
   * its three amounts written over what was there, and every other row as it was.
   */
  lemma {:induction false} SeedGridRows(m: Matrix, ids: seq<string>, currentMonth: int, amounts: seq<int>, k: nat)
    requires k <= |ids| && 3 * k <= |amounts|
    requires forall i, j :: 0 <= i < j < |ids| ==> ids[i] != ids[j]
    ensures forall id :: id in SeedGrid(m, ids, currentMonth, amounts, k) <==> id in m || id in ids[..k]
    ensures forall i :: 0 <= i < k ==>
      RowOf(SeedGrid(m, ids, currentMonth, amounts, k), ids[i]) == SeedRow(RowOf(m, ids[i]), currentMonth, amounts[3 * i..3 * i + 3])
    ensures forall id :: id !in ids[..k] ==> RowOf(SeedGrid(m, ids, currentMonth, amounts, k), id) == RowOf(m, id)
  {
    SeedGridKeys(m, ids, currentMonth, amounts, k);
    forall id | id !in ids[..k] ensures RowOf(SeedGrid(m, ids, currentMonth, amounts, k), id) == RowOf(m, id) {
      SeedGridOtherRow(m, ids, currentMonth, amounts, k, id);
    }
    forall i | 0 <= i < k
      ensures RowOf(SeedGrid(m, ids, currentMonth, amounts, k), ids[i]) == SeedRow(RowOf(m, ids[i]), currentMonth, amounts[3 * i..3 * i + 3])
    {
      SeedGridSeededRow(m, ids, currentMonth, amounts, k, i);
    }
  }

  /** The seeded grid's ids: the grid's own and the first `k` demo ids. */
  lemma {:induction false} SeedGridKeys(m: Matrix, ids: seq<string>, currentMonth: int, amounts: seq<int>, k: nat)
    requires k <= |ids| && 3 * k <= |amounts|
    ensures forall id :: id in SeedGrid(m, ids, currentMonth, amounts, k) <==> id in m || id in ids[..k]
  {
    if k > 0 {
      SeedGridKeys(m, ids, currentMonth, amounts, k - 1);
      assert ids[..k] == ids[..k - 1] + [ids[k - 1]];
    }
  }

  /** A row no demo write touches is left as it was. */
  lemma {:induction false} SeedGridOtherRow(m: Matrix, ids: seq<string>, currentMonth: int, amounts: seq<int>, k: nat, id: string)
    requires k <= |ids| && 3 * k <= |amounts| && id !in ids[..k]
    ensures RowOf(SeedGrid(m, ids, currentMonth, amounts, k), id) == RowOf(m, id)
  {
    if k > 0 {
      assert ids[..k] == ids[..k - 1] + [ids[k - 1]];
      SeedGridOtherRow(m, ids, currentMonth, amounts, k - 1, id);
    }
  }

  /** Demo category `i` (of the first `k`) holds its three amounts written over its old row. */
  lemma {:induction false} SeedGridSeededRow(m: Matrix, ids: seq<string>, currentMonth: int, amounts: seq<int>, k: nat, i: nat)
    requires k <= |ids| && 3 * k <= |amounts| && i < k
    requires forall a, b :: 0 <= a < b < |ids| ==> ids[a] != ids[b]
    ensures RowOf(SeedGrid(m, ids, currentMonth, amounts, k), ids[i]) == SeedRow(RowOf(m, ids[i]), currentMonth, amounts[3 * i..3 * i + 3])
  {
    var g := SeedGrid(m, ids, currentMonth, amounts, k - 1);
    var last := ids[k - 1];
    if i < k - 1 {
      assert ids[i] != last;
      SeedGridSeededRow(m, ids, currentMonth, amounts, k - 1, i);
    } else {
      assert last !in ids[..k - 1];
      SeedGridOtherRow(m, ids, currentMonth, amounts, k - 1, last);
      assert 3 * i == 3 * (k - 1) && 3 * i + 3 == 3 * k;
    }
  }

  /**
   * On an empty row, the demo writes land in months `max(1, currentMonth - 2)`
   * to `currentMonth`, and each amount is one of the three given.
   */
  lemma {:induction false} SeedRowShape(currentMonth: int, amounts: seq<int>)
    requires 1 <= currentMonth <= 12 && |amounts| == 3
    ensures var r := SeedRow(map[], currentMonth, amounts);
      && currentMonth in r
      && (forall k :: k in r ==> 1 <= k <= currentMonth && currentMonth - 2 <= k)
      && (forall k :: k in r ==> r[k] in amounts)
  {
    var m0, m1, m2 := SeedMonth(currentMonth, 0), SeedMonth(currentMonth, 1), SeedMonth(currentMonth, 2);
    assert PartialSeedRow(map[], currentMonth, amounts, 0) == map[];
    assert PartialSeedRow(map[], currentMonth, amounts, 1) == map[m0 := amounts[0]];
    assert PartialSeedRow(map[], currentMonth, amounts, 2) == map[m0 := amounts[0]][m1 := amounts[1]];
    assert SeedRow(map[], currentMonth, amounts) == map[m0 := amounts[0]][m1 := amounts[1]][m2 := amounts[2]];
  }

  /** Creating seed name `i` on the first `i` seed categories appends category `i`. */
  lemma {:induction false} SeedNext(ids: seq<string>, now: int, i: int)
    requires 0 <= i < |SeedNames| && |ids| == |SeedNames|
    ensures SeedCategories(ids, now, i) + [NewCategory(SeedCategories(ids, now, i), SeedNames[i], ids[i], now)]
         == SeedCategories(ids, now, i + 1)
  {
    var s := SeedCategories(ids, now, i);
    var t := SeedCategories(ids, now, i + 1);
    SeedNameTrimmed(i);
    SeedOrderNext(ids, now, i);
    var c := NewCategory(s, SeedNames[i], ids[i], now);
    assert c == Category(ids[i], SeedNames[i], i, now, now);
    assert |s + [c]| == |t|;
    forall j | 0 <= j < i + 1 ensures (s + [c])[j] == t[j] {
      if j < i {
        assert (s + [c])[j] == s[j];
      }
    }
  }

  lemma {:induction false} SeedNameTrimmed(i: int)
    requires 0 <= i < |SeedNames|
    ensures Trim(SeedNames[i]) == SeedNames[i]
  {
    var s := SeedNames[i];
    assert |s| > 0 && !IsSpace(s[0]) && !IsSpace(s[|s| - 1]);
    TrimUnpadded(s);
  }

  lemma {:induction false} SeedOrderNext(ids: seq<string>, now: int, i: int)
    requires 0 <= i < |SeedNames| && |ids| == |SeedNames|
    ensures MaxOrder(SeedCategories(ids, now, i)) == i - 1
  {
    var cats := SeedCategories(ids, now, i);
    var r := MaxOrder(cats);
    if i > 0 {
      assert cats[i - 1].order == i - 1;
      var j :| 0 <= j < i && cats[j].order == r;
    }
  }
}
