/**
 * The self-contained grid of src/components/IncomeMatrixBasic.tsx: a list of
 * categories, a dictionary `categoryId -> month -> amount` held in component
 * state, the totals it displays, and the edit box of one cell. Amounts are
 * whatever `parseFloat` read, with neither clamping nor rounding.
 */
module MatrixBasic {
  import opened Wrappers
  import opened Text
  import opened Numbers
  import opened Sums
  import opened Totals

  datatype BasicCategory = BasicCategory(id: string, name: string, order: int)

  datatype EditedCell = EditedCell(categoryId: string, month: int)

  /** `incomeData[categoryId]?.[month] || 0`. */
  function CellValue(data: Grid, categoryId: string, month: int): (r: real)
    ensures categoryId in data && month in data[categoryId] ==> r == data[categoryId][month]
    ensures categoryId !in data || month !in data[categoryId] ==> r == 0.0
  {
    AmountAt(AmountsOf(data, categoryId), month)
  }

  /** `getCategoryTotal(id)`: every amount stored in the row, whatever its key. */
  ghost function RowTotal(data: Grid, categoryId: string): real {
    RealSum(AmountsOf(data, categoryId))
  }

  /** `getMonthTotal(month)`: the month summed over the listed categories, in list order. */
  ghost function ListedMonthTotal(categories: seq<BasicCategory>, data: Grid, month: int): real {
    if |categories| == 0 then 0.0
    else ListedMonthTotal(categories[..|categories| - 1], data, month) + CellValue(data, categories[|categories| - 1].id, month)
  }

  /** `getGrandTotal()`: the category totals summed over the listed categories. */
  ghost function ListedGrandTotal(categories: seq<BasicCategory>, data: Grid): real {
    if |categories| == 0 then 0.0
    else ListedGrandTotal(categories[..|categories| - 1], data) + RowTotal(data, categories[|categories| - 1].id)
  }

  /** `getMonthTotal(1) + … + getMonthTotal(k)`. */
  ghost function ListedMonthsSum(categories: seq<BasicCategory>, data: Grid, k: int): real
    decreases k
  {
    if k < 1 then 0.0 else ListedMonthsSum(categories, data, k - 1) + ListedMonthTotal(categories, data, k)
  }

  /** Only listed categories are counted: a row of an unlisted id changes neither the month totals nor the grand total. */
  lemma {:induction false} UnlistedRowIgnored(categories: seq<BasicCategory>, data: Grid, id: string, row: Amounts, month: int)
    requires forall i :: 0 <= i < |categories| ==> categories[i].id != id
    ensures ListedMonthTotal(categories, data[id := row], month) == ListedMonthTotal(categories, data, month)
    ensures ListedGrandTotal(categories, data[id := row]) == ListedGrandTotal(categories, data)
  {
    if |categories| > 0 {
      var last := categories[|categories| - 1].id;
      assert AmountsOf(data[id := row], last) == AmountsOf(data, last);
      UnlistedRowIgnored(categories[..|categories| - 1], data, id, row, month);
    }
  }

  /** Adding the last category to the list adds its row's months. */
  lemma {:induction false} ListedMonthsSumLast(categories: seq<BasicCategory>, data: Grid, k: int)
    requires |categories| > 0
    ensures ListedMonthsSum(categories, data, k) ==
      ListedMonthsSum(categories[..|categories| - 1], data, k) + RowMonthsSum(AmountsOf(data, categories[|categories| - 1].id), k)
    decreases k
  {
    if k >= 1 {
      ListedMonthsSumLast(categories, data, k - 1);
    }
  }

  lemma {:induction false} ListedMonthsSumEmpty(data: Grid, k: int)
    ensures ListedMonthsSum([], data, k) == 0.0
    decreases k
  {
    if k >= 1 {
      ListedMonthsSumEmpty(data, k - 1);
    }
  }

  /**
   * When the rows of the listed categories hold only the keys 1..12, the
   * grand total is the sum of the twelve month totals.
   */
  lemma {:induction false} GrandTotalIsSumOfMonthTotals(categories: seq<BasicCategory>, data: Grid)
    requires forall i, k :: 0 <= i < |categories| && categories[i].id in data && k in data[categories[i].id] ==> 1 <= k <= 12
    ensures ListedGrandTotal(categories, data) == ListedMonthsSum(categories, data, 12)
  {
    if |categories| == 0 {
      ListedMonthsSumEmpty(data, 12);
    } else {
      var n := |categories| - 1;
      GrandTotalIsSumOfMonthTotals(categories[..n], data);
      ListedMonthsSumLast(categories, data, 12);
      RowSumIsMonthsSum(AmountsOf(data, categories[n].id), 12);
    }
  }

  /** Every integer's decimal notation reads back, as a float, as that integer. */
  lemma {:induction false} ParseFloatIntToString(i: int)
    ensures ParseFloat(IntToString(i)) == Some(i as real)
  {
    var n := if i < 0 then -i else i;
    var d := NatToString(n);
    NatToStringRoundTrip(n);
    ScanDigits(d);
    if i < 0 {
      var s := IntToString(i);
      assert s[0] == '-' && !IsSpace(s[0]);
      assert TrimStart(s) == s;
      assert s[1..] == d;
    } else {
      ParseFloatDigits(d);
    }
  }

  class IncomeMatrixBasic {
    var categories: seq<BasicCategory>
    var incomeData: Grid
    var editingCell: Option<EditedCell>
    var editValue: string

    /** The grid after the demo data are in place, no cell under edit. */
    constructor(categories: seq<BasicCategory>, incomeData: Grid)
      ensures this.categories == categories && this.incomeData == incomeData
      ensures editingCell == None && editValue == ""
    {
      this.categories := categories;
      this.incomeData := incomeData;
      editingCell := None;
      editValue := "";
    }

    /**
     * `handleCellClick(categoryId, month)`: that cell under edit, the box
     * seeded with the amount's text (`"0"` for an empty cell). The text
     * JavaScript writes for a fractional amount is `fractionText`.
     */
    method HandleCellClick(categoryId: string, month: int, fractionText: string)
      modifies this
      ensures editingCell == Some(EditedCell(categoryId, month))
      ensures var v := CellValue(incomeData, categoryId, month);
        editValue == if v == v.Floor as real then IntToString(v.Floor) else fractionText
      ensures CellValue(incomeData, categoryId, month) == 0.0 ==> editValue == "0"
      ensures incomeData == old(incomeData) && categories == old(categories)
    {
      editingCell := Some(EditedCell(categoryId, month));
      var v := CellValue(incomeData, categoryId, month);
      editValue := if v == v.Floor as real then IntToString(v.Floor) else fractionText;
    }

    /**
     * `handleCellSave()`: with a cell under edit, that cell alone takes
     * `parseFloat(editValue) || 0` and edit mode ends; otherwise nothing.
     */
    method HandleCellSave()
      modifies this
      ensures old(editingCell).None? ==> incomeData == old(incomeData) && editValue == old(editValue) && editingCell == None
      ensures old(editingCell).Some? ==> var cell := old(editingCell).value;
        && incomeData == old(incomeData)[cell.categoryId := AmountsOf(old(incomeData), cell.categoryId)[cell.month := FloatOrZero(old(editValue))]]
        && editingCell == None && editValue == ""
      ensures old(editingCell).Some? ==> var cell := old(editingCell).value;
        forall id, m :: (id, m) != (cell.categoryId, cell.month) ==> CellValue(incomeData, id, m) == CellValue(old(incomeData), id, m)
      ensures categories == old(categories)
    {
      if editingCell.Some? {
        var cell := editingCell.value;
        var value := FloatOrZero(editValue);
        incomeData := incomeData[cell.categoryId := AmountsOf(incomeData, cell.categoryId)[cell.month := value]];
        editingCell := None;
        editValue := "";
      }
    }

    /** `handleCellCancel()`: edit mode ends and the data stay as they were. */
    method HandleCellCancel()
      modifies this
      ensures editingCell == None && editValue == ""
      ensures incomeData == old(incomeData) && categories == old(categories)
    {
      editingCell := None;
      editValue := "";
    }

    /** `handleKeyPress`: Enter saves, Escape cancels, any other key does nothing. */
    method HandleKeyPress(enter: bool, escape: bool)
      requires !(enter && escape)
      modifies this
      ensures enter ==> editingCell == None
      ensures enter && old(editingCell).Some? ==> var c := old(editingCell).value;
        incomeData == old(incomeData)[c.categoryId := AmountsOf(old(incomeData), c.categoryId)[c.month := FloatOrZero(old(editValue))]]
      ensures enter && old(editingCell).Some? ==> editValue == ""
      ensures enter && old(editingCell).None? ==> incomeData == old(incomeData) && editValue == old(editValue)
      ensures escape ==> editingCell == None && editValue == "" && incomeData == old(incomeData)
      ensures !enter && !escape ==> incomeData == old(incomeData) && editingCell == old(editingCell) && editValue == old(editValue)
      ensures categories == old(categories)
    {
      if enter {
        HandleCellSave();
      } else if escape {
        HandleCellCancel();
      }
    }
  }

  /** Clicking a cell with a whole amount and saving the untouched text leaves that cell as it was. */
  lemma {:induction false} ClickThenSaveKeepsWholeAmount(data: Grid, categoryId: string, month: int)
    requires var v := CellValue(data, categoryId, month); v == v.Floor as real
    ensures var v := CellValue(data, categoryId, month);
      FloatOrZero(IntToString(v.Floor)) == v
  {
    ParseFloatIntToString(CellValue(data, categoryId, month).Floor);
  }
}
