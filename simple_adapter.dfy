/**
 * `SimpleLocalAdapter` (src/store/useFinanceStore.ts): the store's own
 * persistence. It re-reads the category list on every call and writes whole
 * lists and whole grids back. Local storage is the two fields `categories`
 * (the stored list, `[]` when nothing is stored) and `grids` (one grid per
 * year). Generated ids, clock readings and the random demo amounts are
 * parameters.
 */
module SimpleAdapter {
  import opened Wrappers
  import opened Text
  import opened Numbers
  import opened Sorting
  import opened Income
  import opened Seed

  const NotFound := "Categoría no encontrada"

  class SimpleLocalAdapter {
    /** The stored category list, in stored order. */
    var categories: seq<Category>
    /** The stored grids, by year. */
    var grids: map<int, Matrix>

    constructor()
      ensures categories == [] && grids == map[]
    {
      categories := [];
      grids := map[];
    }

    /** `listCategories()`: the stored list sorted ascending by `order`. */
    method ListCategories() returns (r: seq<Category>)
      ensures r == SortByOrder(categories)
      ensures multiset(r) == multiset(categories) && SortedBy(r, OrderBefore)
    {
      r := SortByOrder(categories);
      SortByOrderSorts(categories);
    }

    /** `createCategory(name)`: the sorted list plus one new category ordered after all others. */
    method CreateCategory(name: string, id: string, now: int) returns (c: Category)
      modifies this
      ensures c == NewCategory(old(categories), name, id, now)
      ensures categories == SortByOrder(old(categories)) + [c]
      ensures SortedBy(categories, OrderBefore)
      ensures grids == old(grids)
    {
      var listed := ListCategories();
      c := NewCategory(listed, name, id, now);
      assert c.order == NewCategory(old(categories), name, id, now).order by {
        OrderOfNewIsPermutationInvariant(listed, categories);
      }
      AppendLastKeepsSorted(listed, c);
      categories := listed + [c];
    }

    /** `renameCategory(id, name)`: the first category with that id gets the trimmed name; an unknown id fails before any write. */
    method RenameCategory(id: string, name: string, now: int) returns (o: Outcome<string>)
      modifies this
      ensures o.Fail? <==> !HasId(old(categories), id)
      ensures o.Fail? ==> o.error == NotFound && categories == old(categories)
      ensures o.Pass? ==>
        var sorted := SortByOrder(old(categories));
        var i := IndexOfId(sorted, id);
        0 <= i && categories == RenameAt(sorted, i, Trim(name), now)
      ensures SortedBy(old(categories), OrderBefore) ==> SortedBy(categories, OrderBefore)
      ensures grids == old(grids)
    {
      var listed := ListCategories();
      HasIdPermutation(listed, categories, id);
      var i := IndexOfId(listed, id);
      if i == -1 {
        return Fail(NotFound);
      }
      RenameAtKeepsSorted(listed, i, Trim(name), now);
      categories := RenameAt(listed, i, Trim(name), now);
      o := Pass;
    }

    /** `deleteCategory(id)`: drop the category; then drop its row from the current calendar year's grid only. */
    method DeleteCategory(id: string, currentYear: int) returns (o: Outcome<string>)
      modifies this
      ensures o.Fail? <==> !HasId(old(categories), id)
      ensures o.Fail? ==> o.error == NotFound && categories == old(categories) && grids == old(grids)
      ensures o.Pass? ==> categories == WithoutId(SortByOrder(old(categories)), id)
      ensures o.Pass? ==> grids == old(grids)[currentYear := YearGrid(old(grids), currentYear) - {id}]
      ensures o.Pass? ==> !HasId(categories, id) && SortedBy(categories, OrderBefore)
    {
      var listed := ListCategories();
      HasIdPermutation(listed, categories, id);
      var filtered := WithoutId(listed, id);
      if |filtered| == |listed| {
        o := Fail(NotFound);
        return;
      }
      WithoutIdKeepsSorted(listed, id);
      categories := filtered;
      var m := GetMatrix(currentYear);
      grids := grids[currentYear := m - {id}];
      o := Pass;
    }

    /** `getMatrix(year)`: the stored grid, `{}` when there is none. */
    method GetMatrix(year: int) returns (m: Matrix)
      ensures m == YearGrid(grids, year)
      ensures year !in grids ==> m == map[]
    {
      m := YearGrid(grids, year);
    }

    /** `setCell(...)`: the one cell becomes `max(0, round(value))`; the month is not range-checked. */
    method SetCell(year: int, categoryId: string, month: int, value: real)
      modifies this
      ensures grids == old(grids)[year := SetCellIn(YearGrid(old(grids), year), categoryId, month, ClampRound(value))]
      ensures categories == old(categories)
      ensures AllNonNegative(old(grids)) ==> AllNonNegative(grids)
    {
      var m := GetMatrix(year);
      grids := grids[year := SetCellIn(m, categoryId, month, ClampRound(value))];
    }

    /** `bulkSetRow(...)`: months 1..12 are written clamped and rounded, other keys skipped. */
    method BulkSetRow(year: int, categoryId: string, valuesByMonth: map<int, real>)
      modifies this
      ensures var m := YearGrid(old(grids), year);
        grids == old(grids)[year := m[categoryId := MergeMonths(RowOf(m, categoryId), valuesByMonth)]]
      ensures categories == old(categories)
      ensures AllNonNegative(old(grids)) ==> AllNonNegative(grids)
    {
      var m := GetMatrix(year);
      var row := WriteMonths(RowOf(m, categoryId), valuesByMonth);
      grids := grids[year := m[categoryId := row]];
    }

    /**
     * `initialize()`: on an empty store, the five demo categories and, for
     * each, three demo amounts in the current year (`amounts[3 * i ..
     * 3 * i + 3]` for category `i`); otherwise nothing. The amounts stand for
     * `Math.floor(Math.random() * 500000) + 100000`.
     */
    method Initialize(ids: seq<string>, now: int, currentYear: int, currentMonth: int, amounts: seq<int>)
      requires |ids| == |SeedNames| && |amounts| == 3 * |SeedNames|
      requires forall i :: 0 <= i < |amounts| ==> 100000 <= amounts[i] < 600000
      modifies this
      ensures old(categories) != [] ==> categories == old(categories) && grids == old(grids)
      ensures old(categories) == [] ==> categories == SeedCategories(ids, now, 5)
      ensures old(categories) == [] ==>
        grids == old(grids)[currentYear := SeedGrid(YearGrid(old(grids), currentYear), ids, currentMonth, amounts, 5)]
    {
      var listed := ListCategories();
      if |listed| != 0 {
        return;
      }
      assert categories == [];
      CreateSeedCategories(ids, now);
      var created := ListCategories();
      SeedCategoriesSorted(ids, now, 5);
      WriteSeedRows(created, ids, now, currentYear, currentMonth, amounts);
    }

    /** The first loop of `initialize()`: the seed names created one by one on an empty list. */
    method CreateSeedCategories(ids: seq<string>, now: int)
      requires |ids| == |SeedNames| && categories == []
      modifies this
      ensures categories == SeedCategories(ids, now, 5) && grids == old(grids)
    {
      var i := 0;
      while i < |SeedNames|
        invariant 0 <= i <= |SeedNames|
        invariant categories == SeedCategories(ids, now, i)
        invariant grids == old(grids)
      {
        SeedCategoriesSorted(ids, now, i);
        var c := CreateCategory(SeedNames[i], ids[i], now);
        SeedNext(ids, now, i);
        i := i + 1;
      }
    }

    /** The second loop of `initialize()`: the demo amounts of each created category, in list order. */
    method WriteSeedRows(created: seq<Category>, ids: seq<string>, now: int, currentYear: int, currentMonth: int, amounts: seq<int>)
      requires |ids| == |SeedNames| && |amounts| == 3 * |SeedNames|
      requires forall i :: 0 <= i < |amounts| ==> amounts[i] >= 0
      requires created == SeedCategories(ids, now, 5)
      modifies this
      ensures categories == old(categories)
      ensures grids == old(grids)[currentYear := SeedGrid(YearGrid(old(grids), currentYear), ids, currentMonth, amounts, 5)]
    {
      ghost var before := YearGrid(grids, currentYear);
      var k := 0;
      while k < |created|
        invariant 0 <= k <= |created|
        invariant categories == old(categories)
        invariant k == 0 ==> grids == old(grids)
        invariant k > 0 ==> grids == old(grids)[currentYear := SeedGrid(before, ids, currentMonth, amounts, k)]
      {
        ghost var prev := grids;
        assert created[k].id == ids[k];
        WriteSeedRow(currentYear, created[k].id, currentMonth, amounts[3 * k..3 * k + 3]);
        SeedLoopStep(old(grids), prev, grids, currentYear, ids, currentMonth, amounts, k);
        k := k + 1;
      }
    }

    /** The inner loop of `initialize()`: three demo amounts into one row, months `currentMonth`, `- 1`, `- 2` (at least 1). */
    method WriteSeedRow(year: int, id: string, currentMonth: int, amounts: seq<int>)
      requires |amounts| == 3 && forall i :: 0 <= i < 3 ==> amounts[i] >= 0
      modifies this
      ensures var m := YearGrid(old(grids), year);
        grids == old(grids)[year := m[id := SeedRow(RowOf(m, id), currentMonth, amounts)]]
      ensures categories == old(categories)
    {
      ghost var m := YearGrid(grids, year);
      var offset := 0;
      while offset < 3
        invariant 0 <= offset <= 3
        invariant categories == old(categories)
        invariant offset == 0 ==> grids == old(grids)
        invariant offset > 0 ==> grids == old(grids)[year := m[id := PartialSeedRow(RowOf(m, id), currentMonth, amounts, offset)]]
      {
        ClampRoundWhole(amounts[offset]);
        ghost var p := PartialSeedRow(RowOf(m, id), currentMonth, amounts, offset);
        ghost var g := YearGrid(grids, year);
        var month := SeedMonth(currentMonth, offset);
        assert RowOf(g, id) == p;
        assert g[id := p[month := amounts[offset]]] == m[id := p[month := amounts[offset]]];
        SetCell(year, id, month, amounts[offset] as real);
        offset := offset + 1;
      }
    }
  }
}
