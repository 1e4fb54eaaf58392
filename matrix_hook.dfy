/**
 * The income-matrix hook of src/hooks/useIncomeMatrix.ts, bound to one year
 * of the store of src/store/useFinanceStore.ts. It trims names, refuses to
 * delete the last category, and clamps and rounds every amount before the
 * store sees it, so the amounts the store keeps in memory through this hook
 * are the ones it stores.
 */
module MatrixHook {
  import opened Wrappers
  import opened Text
  import opened Numbers
  import opened Income
  import opened Totals
  import opened Currency
  import opened SimpleAdapter
  import opened Sorting
  import opened Store
  import opened MatrixCommands

  class IncomeMatrixHook {
    const store: FinanceStore
    const year: int

    constructor(store: FinanceStore, year: int)
      ensures this.store == store && this.year == year
    {
      this.store := store;
      this.year := year;
    }

    /** The `useEffect` that selects the hook's year in the store. */
    method Load()
      modifies store
      ensures store.selectedYear == year
      ensures store.incomeMatrix == old(store.incomeMatrix)[year := AsGrid(YearGrid(store.adapter.grids, year))]
      ensures store.error == None && !store.isLoading
      ensures store.incomeCategories == old(store.incomeCategories) && store.listeners == old(store.listeners)
      ensures store.emitted == old(store.emitted) && store.delivered == old(store.delivered) && store.consoleErrors == old(store.consoleErrors)
    {
      store.SetYear(year);
    }

    /** `createCategory(name)`: the store creates the category under the trimmed name. */
    method CreateCategory(name: string, id: string, now: int) returns (c: Category)
      modifies store, store.adapter
      ensures c == NewCategory(old(store.adapter.categories), name, id, now) && c.name == Trim(name)
      ensures store.adapter.categories == SortByOrder(old(store.adapter.categories)) + [c]
      ensures store.adapter.grids == old(store.adapter.grids)
      ensures store.incomeCategories == SortByOrder(old(store.incomeCategories) + [c])
      ensures old(store.Synced()) ==> store.Synced()
      ensures store.emitted == old(store.emitted) + [CategoryAdded(c.id, c.name)]
      ensures var ls := ListenersFor(store.listeners, "income/category/added");
        store.delivered == old(store.delivered) + Deliveries(ls, CategoryAdded(c.id, c.name)) &&
        store.consoleErrors == old(store.consoleErrors) + Throwing(ls)
      ensures store.error == None && store.incomeMatrix == old(store.incomeMatrix) && store.listeners == old(store.listeners)
      ensures store.selectedYear == old(store.selectedYear) && store.isLoading == old(store.isLoading)
    {
      c := store.CreateCategory(Trim(name), id, now);
      TrimIdempotent(name);
    }

    /**
     * `renameCategory(id, name)`: the store renames under the trimmed name.
     * Since the store keeps the name it is given in memory and stores the
     * trimmed one, handing it the trimmed name keeps memory and storage in step.
     */
    method RenameCategory(id: string, name: string, now: int) returns (o: Outcome<string>)
      modifies store, store.adapter
      ensures o.Fail? <==> !HasId(old(store.adapter.categories), id)
      ensures o.Fail? ==> o == Fail(NotFound) && store.error == Some("Error al renombrar categoría: " + NotFound)
      ensures o.Fail? ==> store.adapter.categories == old(store.adapter.categories) && store.incomeCategories == old(store.incomeCategories)
      ensures o.Fail? ==> store.emitted == old(store.emitted) && store.delivered == old(store.delivered) && store.consoleErrors == old(store.consoleErrors)
      ensures o.Pass? ==> store.error == None && store.incomeCategories == RenameAll(old(store.incomeCategories), id, Trim(name), now)
      ensures o.Pass? ==> var sorted := SortByOrder(old(store.adapter.categories));
        0 <= IndexOfId(sorted, id) && store.adapter.categories == RenameAt(sorted, IndexOfId(sorted, id), Trim(name), now)
      ensures o.Pass? ==> store.emitted == old(store.emitted) + [CategoryRenamed(id, Trim(name))]
      ensures o.Pass? ==> var ls := ListenersFor(store.listeners, "income/category/renamed");
        store.delivered == old(store.delivered) + Deliveries(ls, CategoryRenamed(id, Trim(name))) &&
        store.consoleErrors == old(store.consoleErrors) + Throwing(ls)
      ensures store.adapter.grids == old(store.adapter.grids) && store.incomeMatrix == old(store.incomeMatrix)
      ensures store.listeners == old(store.listeners) && store.selectedYear == old(store.selectedYear) && store.isLoading == old(store.isLoading)
      ensures o.Pass? && old(store.Synced()) && UniqueIds(old(store.incomeCategories)) ==> store.Synced()
    {
      TrimIdempotent(name);
      o := store.RenameCategory(id, Trim(name), now);
    }

    /** `deleteCategory(id)`: refused, with nothing changed, while the store lists at most one category. */
    method DeleteCategory(id: string, currentYear: int) returns (o: Outcome<string>)
      modifies store, store.adapter
      ensures |old(store.incomeCategories)| <= 1 ==> o == Fail(OnlyCategoryError)
      ensures |old(store.incomeCategories)| <= 1 ==>
        store.incomeCategories == old(store.incomeCategories) && store.incomeMatrix == old(store.incomeMatrix) &&
        store.adapter.categories == old(store.adapter.categories) && store.adapter.grids == old(store.adapter.grids) &&
        store.error == old(store.error) && store.emitted == old(store.emitted) &&
        store.delivered == old(store.delivered) && store.consoleErrors == old(store.consoleErrors)
      ensures |old(store.incomeCategories)| > 1 ==> (o.Fail? <==> !HasId(old(store.adapter.categories), id))
      ensures |old(store.incomeCategories)| > 1 && o.Fail? ==>
        o == Fail(NotFound) && store.error == Some("Error al eliminar categoría: " + NotFound) &&
        store.incomeCategories == old(store.incomeCategories) && store.incomeMatrix == old(store.incomeMatrix) &&
        store.adapter.categories == old(store.adapter.categories) && store.adapter.grids == old(store.adapter.grids) &&
        store.emitted == old(store.emitted) && store.delivered == old(store.delivered) && store.consoleErrors == old(store.consoleErrors)
      ensures |old(store.incomeCategories)| > 1 && o.Pass? ==>
        store.error == None &&
        store.incomeCategories == WithoutId(old(store.incomeCategories), id) &&
        store.incomeMatrix == WithoutRow(old(store.incomeMatrix), id) &&
        store.adapter.categories == WithoutId(SortByOrder(old(store.adapter.categories)), id) &&
        store.adapter.grids == old(store.adapter.grids)[currentYear := YearGrid(old(store.adapter.grids), currentYear) - {id}] &&
        store.emitted == old(store.emitted) + [CategoryDeleted(id)]
      ensures |old(store.incomeCategories)| > 1 && o.Pass? ==>
        var ls := ListenersFor(store.listeners, "income/category/deleted");
        store.delivered == old(store.delivered) + Deliveries(ls, CategoryDeleted(id)) &&
        store.consoleErrors == old(store.consoleErrors) + Throwing(ls)
      ensures store.listeners == old(store.listeners) && store.selectedYear == old(store.selectedYear) && store.isLoading == old(store.isLoading)
    {
      if |store.incomeCategories| <= 1 {
        return Fail(OnlyCategoryError);
      }
      o := store.DeleteCategory(id, currentYear);
    }

    /**
     * `setCell(categoryId, month, value)`: the store receives
     * `max(0, round(value))`, so the cell it keeps in memory equals the
     * cell it stores.
     */
    method SetCell(categoryId: string, month: int, value: real)
      modifies store, store.adapter
      ensures store.adapter.grids == old(store.adapter.grids)[year := SetCellIn(YearGrid(old(store.adapter.grids), year), categoryId, month, ClampRound(value))]
      ensures store.incomeMatrix == old(store.incomeMatrix)[year := PutCell(GridOf(old(store.incomeMatrix), year), categoryId, month, ClampRound(value) as real)]
      ensures AmountAt(AmountsOf(GridOf(store.incomeMatrix, year), categoryId), month) == Cell(YearGrid(store.adapter.grids, year), categoryId, month) as real
      ensures store.emitted == old(store.emitted) + [IncomeUpdated(year, categoryId, month, ClampRound(value) as real)]
      ensures var ls := ListenersFor(store.listeners, "income/updated");
        store.delivered == old(store.delivered) + Deliveries(ls, IncomeUpdated(year, categoryId, month, ClampRound(value) as real)) &&
        store.consoleErrors == old(store.consoleErrors) + Throwing(ls)
      ensures store.error == None && store.incomeCategories == old(store.incomeCategories) && store.adapter.categories == old(store.adapter.categories)
      ensures store.listeners == old(store.listeners) && store.selectedYear == old(store.selectedYear) && store.isLoading == old(store.isLoading)
    {
      store.SetCell(year, categoryId, month, ClampRound(value) as real);
      ClampRoundIdempotent(value);
    }

    /** `setCellFromString(categoryId, month, text)`: `setCell(parseCLP(text))`. */
    method SetCellFromString(categoryId: string, month: int, text: string)
      modifies store, store.adapter
      ensures store.adapter.grids == old(store.adapter.grids)[year := SetCellIn(YearGrid(old(store.adapter.grids), year), categoryId, month, ParseCLP(text))]
      ensures store.incomeMatrix == old(store.incomeMatrix)[year := PutCell(GridOf(old(store.incomeMatrix), year), categoryId, month, ParseCLP(text) as real)]
      ensures store.emitted == old(store.emitted) + [IncomeUpdated(year, categoryId, month, ParseCLP(text) as real)]
      ensures var ls := ListenersFor(store.listeners, "income/updated");
        store.delivered == old(store.delivered) + Deliveries(ls, IncomeUpdated(year, categoryId, month, ParseCLP(text) as real)) &&
        store.consoleErrors == old(store.consoleErrors) + Throwing(ls)
      ensures store.error == None && store.incomeCategories == old(store.incomeCategories) && store.adapter.categories == old(store.adapter.categories)
      ensures store.listeners == old(store.listeners) && store.selectedYear == old(store.selectedYear) && store.isLoading == old(store.isLoading)
    {
      ClampRoundWhole(ParseCLP(text));
      SetCell(categoryId, month, ParseCLP(text) as real);
    }

    /**
     * `bulkSetRow(categoryId, valuesByMonth)`: the store receives only months
     * 1..12, clamped and rounded; memory and storage then agree on every
     * month of the row that was supplied. `order` is the order in which the
     * store announced the months.
     */
    method BulkSetRow(categoryId: string, valuesByMonth: map<int, real>) returns (ghost order: seq<int>)
      modifies store, store.adapter
      ensures store.incomeMatrix == old(store.incomeMatrix)[year := PutRow(GridOf(old(store.incomeMatrix), year), categoryId, AsReals(Sanitized(valuesByMonth)))]
      ensures var m := YearGrid(old(store.adapter.grids), year);
        store.adapter.grids == old(store.adapter.grids)[year := m[categoryId := MergeMonths(RowOf(m, categoryId), AsReals(Sanitized(valuesByMonth)))]]
      ensures forall k :: k in valuesByMonth && IsMonth(k) ==>
        AmountAt(AmountsOf(GridOf(store.incomeMatrix, year), categoryId), k) == Cell(YearGrid(store.adapter.grids, year), categoryId, k) as real
      ensures forall i :: 0 <= i < |order| ==> order[i] in Sanitized(valuesByMonth)
      ensures forall k :: k in Sanitized(valuesByMonth) ==> k in order
      ensures Distinct(order)
      ensures var evs := UpdateEvents(year, categoryId, AsReals(Sanitized(valuesByMonth)), order);
        var ls := ListenersFor(store.listeners, "income/updated");
        store.emitted == old(store.emitted) + evs && store.delivered == old(store.delivered) + DeliveriesAll(ls, evs) &&
        store.consoleErrors == old(store.consoleErrors) + ThrowingAll(ls, evs)
      ensures store.error == None && store.incomeCategories == old(store.incomeCategories) && store.adapter.categories == old(store.adapter.categories)
      ensures store.listeners == old(store.listeners) && store.selectedYear == old(store.selectedYear) && store.isLoading == old(store.isLoading)
    {
      var row := WriteMonths(map[], valuesByMonth);
      MergeMonthsKeepsShape(map[], valuesByMonth);
      var sanitized := AsReals(AsNats(row));
      var sent := store.BulkSetRow(year, categoryId, sanitized);
      order := sent;
      forall k | k in valuesByMonth && IsMonth(k)
        ensures AmountAt(AmountsOf(GridOf(store.incomeMatrix, year), categoryId), k) == Cell(YearGrid(store.adapter.grids, year), categoryId, k) as real
      {
        ClampRoundIdempotent(valuesByMonth[k]);
      }
    }

    /** `pasteExcelRow(categoryId, values)`: the first twelve cells parsed and written from January on, zeros skipped. */
    method PasteExcelRow(categoryId: string, values: seq<string>) returns (ghost order: seq<int>)
      modifies store, store.adapter
      ensures var months := PasteRowCall(year, categoryId, values).values;
        store.incomeMatrix == old(store.incomeMatrix)[year := PutRow(GridOf(old(store.incomeMatrix), year), categoryId, AsReals(months))]
      ensures var months := PasteRowCall(year, categoryId, values).values; var m := YearGrid(old(store.adapter.grids), year);
        store.adapter.grids == old(store.adapter.grids)[year := m[categoryId := MergeMonths(RowOf(m, categoryId), AsReals(months))]]
      ensures var months := PasteRowCall(year, categoryId, values).values;
        forall k :: k in months ==>
          AmountAt(AmountsOf(GridOf(store.incomeMatrix, year), categoryId), k) == Cell(YearGrid(store.adapter.grids, year), categoryId, k) as real
      ensures var months := PasteRowCall(year, categoryId, values).values;
        (forall i :: 0 <= i < |order| ==> order[i] in months) && (forall k :: k in months ==> k in order) && Distinct(order)
      ensures var months := PasteRowCall(year, categoryId, values).values;
        var evs := UpdateEvents(year, categoryId, AsReals(months), order);
        var ls := ListenersFor(store.listeners, "income/updated");
        store.emitted == old(store.emitted) + evs && store.delivered == old(store.delivered) + DeliveriesAll(ls, evs) &&
        store.consoleErrors == old(store.consoleErrors) + ThrowingAll(ls, evs)
      ensures store.error == None && store.incomeCategories == old(store.incomeCategories) && store.adapter.categories == old(store.adapter.categories)
      ensures store.listeners == old(store.listeners) && store.selectedYear == old(store.selectedYear) && store.isLoading == old(store.isLoading)
    {
      var parsed := ParseExcelValues(FirstTwelve(values));
      var months := CollectPastedMonths(parsed);
      PastedMonthsSanitized(parsed);
      order := BulkSetRow(categoryId, AsReals(months));
    }

    /** `getCellValue(categoryId, month)`: the amount in memory for the hook's year, 0 when absent. */
    function GetCellValue(categoryId: string, month: int): (r: real)
      reads store
      ensures year !in store.incomeMatrix ==> r == 0.0
      ensures year in store.incomeMatrix && categoryId in store.incomeMatrix[year] && month in store.incomeMatrix[year][categoryId] ==>
        r == store.incomeMatrix[year][categoryId][month]
      ensures year in store.incomeMatrix && (categoryId !in store.incomeMatrix[year] || month !in store.incomeMatrix[year][categoryId]) ==>
        r == 0.0
    {
      AmountAt(AmountsOf(GridOf(store.incomeMatrix, year), categoryId), month)
    }

    /** `clearError()`. */
    method ClearError()
      modifies store
      ensures store.error == None
      ensures store.incomeCategories == old(store.incomeCategories) && store.incomeMatrix == old(store.incomeMatrix)
      ensures store.selectedYear == old(store.selectedYear) && store.isLoading == old(store.isLoading)
      ensures store.listeners == old(store.listeners) && store.emitted == old(store.emitted)
      ensures store.delivered == old(store.delivered) && store.consoleErrors == old(store.consoleErrors)
    {
      store.error := None;
    }
  }
}
