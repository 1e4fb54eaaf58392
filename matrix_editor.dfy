/**
 * The editing state of the spreadsheet component
 * src/components/IncomeMatrix.tsx: one cell, one category name or one new
 * category can be under edit; saving hands a request to the income-matrix
 * hook (src/hooks/useIncomeMatrix.ts), and a paste is split into lines and
 * tab-separated cells before it reaches the hook. Whether the hook's promise
 * settles or rejects, and whether the user confirms a deletion, are
 * parameters.
 */
module MatrixEditor {
  import opened Wrappers
  import opened Text
  import opened Currency

  /** A call the component makes into the hook. */
  datatype HookRequest =
    | SetCellFromStringRequest(categoryId: string, month: int, text: string)
    | RenameRequest(categoryId: string, name: string)
    | CreateRequest(name: string)
    | DeleteRequest(categoryId: string)
    | PasteRowRequest(categoryId: string, values: seq<string>)

  datatype CellRef = CellRef(categoryId: string, month: int)

  datatype CategoryEdit = CategoryEdit(categoryId: string, originalName: string)

  /** The keys the input handlers react to; every other key is ignored. */
  datatype Key = Enter | Escape | Tab | OtherKey

  /** `clipboardData.split('\n').filter(line => line.trim())`: the lines that are not blank, in order. */
  function NonBlankLines(lines: seq<string>): (r: seq<string>)
    ensures |r| <= |lines|
    ensures forall i :: 0 <= i < |r| ==> Trim(r[i]) != "" && r[i] in lines
    ensures forall l :: l in lines && Trim(l) != "" ==> l in r
  {
    if |lines| == 0 then []
    else
      var rest := NonBlankLines(lines[1..]);
      assert lines == [lines[0]] + lines[1..];
      (if Trim(lines[0]) != "" then [lines[0]] else []) + rest
  }

  /** How many cells a one-line paste at `month` keeps: those that still fall in a month up to December. */
  function PasteWidth(cells: nat, month: int): (r: nat)
    ensures r <= cells && r <= 12
    ensures 1 <= month <= 12 ==> r == if cells < 13 - month then cells else 13 - month
  {
    var room := 13 - month;
    var upTo := if room > 12 then 12 else room;
    if upTo <= 0 then 0 else if cells < upTo then cells else upTo
  }

  /** The `for` loop of `handlePaste` collecting `monthlyValues`: cell `i` kept while `month + i <= 12`. */
  method CollectMonthlyValues(values: seq<string>, month: int) returns (monthlyValues: seq<string>)
    ensures monthlyValues == values[..PasteWidth(|values|, month)]
  {
    monthlyValues := [];
    var i := 0;
    while i < 12
      invariant 0 <= i <= 12
      invariant monthlyValues == values[..PasteWidth(|values|, month) - (if PasteWidth(|values|, month) > i then PasteWidth(|values|, month) - i else 0)]
    {
      var targetMonth := month + i;
      if targetMonth <= 12 && i < |values| {
        monthlyValues := monthlyValues + [values[i]];
      }
      i := i + 1;
    }
  }

  /**
   * The hook calls `handlePaste` makes for clipboard text pasted at
   * `(categoryId, month)`. Nothing is called when every line is blank (the
   * component's `lines[0]` is then undefined and the error is only logged).
   */
  function PasteRequests(text: string, categoryId: string, month: int): (r: seq<HookRequest>)
    ensures |r| <= 1
  {
    var lines := NonBlankLines(Split(text, '\n'));
    if |lines| == 0 then []
    else
      var values := Split(lines[0], '\t');
      if |lines| == 1 then
        if |values| > 1 then [PasteRowRequest(categoryId, values[..PasteWidth(|values|, month)])]
        else [SetCellFromStringRequest(categoryId, month, values[0])]
      else [PasteRowRequest(categoryId, values)]
  }

  /** A single line without tabs writes only the clicked cell, from its text. */
  lemma {:induction false} PasteSingleValue(line: string, categoryId: string, month: int)
    requires Trim(line) != "" && '\n' !in line && '\t' !in line
    ensures PasteRequests(line, categoryId, month) == [SetCellFromStringRequest(categoryId, month, line)]
  {
    SplitWithoutSeparator(line, '\n');
    SplitWithoutSeparator(line, '\t');
    assert NonBlankLines([line]) == [line] by {
      assert [line][1..] == [];
    }
  }

  /** Splitting text that holds no separator gives the text back, whole. */
  lemma {:induction false} SplitWithoutSeparator(s: string, sep: char)
    requires sep !in s
    ensures Split(s, sep) == [s]
  {
    if |s| > 0 {
      assert sep !in s[1..] by {
        forall i | 0 <= i < |s[1..]| ensures s[1..][i] != sep {
          assert s[1..][i] == s[i + 1];
        }
      }
      SplitWithoutSeparator(s[1..], sep);
      assert [s[0]] + s[1..] == s;
    }
  }

  /** Blank-only clipboard text calls nothing. */
  lemma {:induction false} PasteBlankCallsNothing(text: string, categoryId: string, month: int)
    requires forall l :: l in Split(text, '\n') ==> Trim(l) == ""
    ensures PasteRequests(text, categoryId, month) == []
  {
    AllBlankLines(Split(text, '\n'));
  }

  /** Only blank lines leave nothing to paste. */
  lemma {:induction false} AllBlankLines(lines: seq<string>)
    requires forall l :: l in lines ==> Trim(l) == ""
    ensures NonBlankLines(lines) == []
  {
    if |lines| > 0 {
      assert forall l :: l in lines[1..] ==> l in lines;
      AllBlankLines(lines[1..]);
    }
  }

  /**
   * One line of several cells pasted at `month` sends a prefix of those
   * cells, `min(cells, 13 - month)` long; several lines send the first
   * line's cells whole. Either way `pasteExcelRow` places them from January.
   */
  lemma {:induction false} PasteRowShape(text: string, categoryId: string, month: int)
    requires 1 <= month <= 12
    ensures var lines := NonBlankLines(Split(text, '\n'));
      var r := PasteRequests(text, categoryId, month);
      && (|lines| == 0 ==> r == [])
      && (|lines| >= 2 ==> r == [PasteRowRequest(categoryId, Split(lines[0], '\t'))])
      && (|lines| == 1 && |Split(lines[0], '\t')| > 1 ==>
            var values := Split(lines[0], '\t');
            r == [PasteRowRequest(categoryId, values[..if |values| < 13 - month then |values| else 13 - month])])
  {
    var lines := NonBlankLines(Split(text, '\n'));
    if |lines| > 0 {
      var values := Split(lines[0], '\t');
      assert PasteWidth(|values|, month) == if |values| < 13 - month then |values| else 13 - month;
    }
  }

  /**
   * The branches of `handlePaste`: no non-blank line calls nothing; one line
   * of several cells pastes a row from `month` on; one line of one cell sets
   * that cell; several lines paste the first line's cells as a row.
   */
  method PasteCall(text: string, categoryId: string, month: int) returns (r: seq<HookRequest>)
    ensures r == PasteRequests(text, categoryId, month)
  {
    var lines := NonBlankLines(Split(text, '\n'));
    if |lines| == 0 {
      return [];
    }
    var values := Split(lines[0], '\t');
    if |lines| == 1 {
      if |values| > 1 {
        var monthlyValues := CollectMonthlyValues(values, month);
        r := [PasteRowRequest(categoryId, monthlyValues)];
      } else {
        r := [SetCellFromStringRequest(categoryId, month, values[0])];
      }
    } else {
      r := [PasteRowRequest(categoryId, values)];
    }
  }

  class IncomeMatrixEditor {
    var editingCell: Option<CellRef>
    var cellValue: string
    var editingCategory: Option<CategoryEdit>
    var categoryName: string
    var isCreatingCategory: bool
    var newCategoryName: string
    /** Every call handed to the hook, oldest first. */
    var requests: seq<HookRequest>

    /** Nothing under edit, nothing sent. */
    constructor()
      ensures editingCell == None && cellValue == "" && editingCategory == None && categoryName == ""
      ensures !isCreatingCategory && newCategoryName == "" && requests == []
    {
      editingCell := None;
      cellValue := "";
      editingCategory := None;
      categoryName := "";
      isCreatingCategory := false;
      newCategoryName := "";
      requests := [];
    }

    /**
     * `startCellEdit(categoryId, month)`: that cell under edit, its text the
     * stored amount (empty for 0). `currentValue` is `getCellValue(categoryId,
     * month)`; every amount the hook and the store write has gone through
     * `Math.max(0, Math.round(value))` (see `Numbers.ClampRound`), so
     * it is a whole number and is taken here as an `int`.
     */
    method StartCellEdit(categoryId: string, month: int, currentValue: int)
      modifies this
      ensures editingCell == Some(CellRef(categoryId, month))
      ensures cellValue == FormatForInput(currentValue) && (currentValue == 0 <==> cellValue == "")
      ensures requests == old(requests) && editingCategory == old(editingCategory) && categoryName == old(categoryName)
      ensures isCreatingCategory == old(isCreatingCategory) && newCategoryName == old(newCategoryName)
    {
      editingCell := Some(CellRef(categoryId, month));
      cellValue := FormatForInput(currentValue);
    }

    /** `cancelCellEdit()`: edit mode left, nothing written. */
    method CancelCellEdit()
      modifies this
      ensures editingCell == None && cellValue == ""
      ensures requests == old(requests) && editingCategory == old(editingCategory) && categoryName == old(categoryName)
      ensures isCreatingCategory == old(isCreatingCategory) && newCategoryName == old(newCategoryName)
    {
      editingCell := None;
      cellValue := "";
    }

    /**
     * `saveCellEdit()`: without a cell under edit nothing happens; otherwise
     * the text goes to `setCellFromString`, and edit mode ends only when the
     * write settles.
     */
    method SaveCellEdit(settles: bool)
      modifies this
      ensures old(editingCell).None? ==> requests == old(requests) && editingCell == None && cellValue == old(cellValue)
      ensures old(editingCell).Some? ==>
        requests == old(requests) + [SetCellFromStringRequest(old(editingCell).value.categoryId, old(editingCell).value.month, old(cellValue))]
      ensures old(editingCell).Some? && settles ==> editingCell == None && cellValue == ""
      ensures old(editingCell).Some? && !settles ==> editingCell == old(editingCell) && cellValue == old(cellValue)
      ensures editingCategory == old(editingCategory) && categoryName == old(categoryName)
      ensures isCreatingCategory == old(isCreatingCategory) && newCategoryName == old(newCategoryName)
    {
      if editingCell.None? {
        return;
      }
      requests := requests + [SetCellFromStringRequest(editingCell.value.categoryId, editingCell.value.month, cellValue)];
      if settles {
        editingCell := None;
        cellValue := "";
      }
    }

    /** `startCategoryEdit(categoryId, currentName)`. */
    method StartCategoryEdit(categoryId: string, currentName: string)
      modifies this
      ensures editingCategory == Some(CategoryEdit(categoryId, currentName)) && categoryName == currentName
      ensures requests == old(requests) && editingCell == old(editingCell) && cellValue == old(cellValue)
      ensures isCreatingCategory == old(isCreatingCategory) && newCategoryName == old(newCategoryName)
    {
      editingCategory := Some(CategoryEdit(categoryId, currentName));
      categoryName := currentName;
    }

    /** `cancelCategoryEdit()`. */
    method CancelCategoryEdit()
      modifies this
      ensures editingCategory == None && categoryName == ""
      ensures requests == old(requests) && editingCell == old(editingCell) && cellValue == old(cellValue)
      ensures isCreatingCategory == old(isCreatingCategory) && newCategoryName == old(newCategoryName)
    {
      editingCategory := None;
      categoryName := "";
    }

    /** `saveCategoryEdit()`: nothing without a category under edit or with a blank name; otherwise a rename to the trimmed name. */
    method SaveCategoryEdit(settles: bool)
      modifies this
      ensures old(editingCategory).None? || Trim(old(categoryName)) == "" ==>
        requests == old(requests) && editingCategory == old(editingCategory) && categoryName == old(categoryName)
      ensures old(editingCategory).Some? && Trim(old(categoryName)) != "" ==>
        requests == old(requests) + [RenameRequest(old(editingCategory).value.categoryId, Trim(old(categoryName)))]
      ensures old(editingCategory).Some? && Trim(old(categoryName)) != "" && settles ==> editingCategory == None && categoryName == ""
      ensures !settles ==> editingCategory == old(editingCategory) && categoryName == old(categoryName)
      ensures editingCell == old(editingCell) && cellValue == old(cellValue)
      ensures isCreatingCategory == old(isCreatingCategory) && newCategoryName == old(newCategoryName)
    {
      if editingCategory.None? || Trim(categoryName) == "" {
        return;
      }
      requests := requests + [RenameRequest(editingCategory.value.categoryId, Trim(categoryName))];
      if settles {
        editingCategory := None;
        categoryName := "";
      }
    }

    /** `startCategoryCreation()`. */
    method StartCategoryCreation()
      modifies this
      ensures isCreatingCategory && newCategoryName == ""
      ensures requests == old(requests) && editingCell == old(editingCell) && cellValue == old(cellValue)
      ensures editingCategory == old(editingCategory) && categoryName == old(categoryName)
    {
      isCreatingCategory := true;
      newCategoryName := "";
    }

    /** `cancelCategoryCreation()`. */
    method CancelCategoryCreation()
      modifies this
      ensures !isCreatingCategory && newCategoryName == ""
      ensures requests == old(requests) && editingCell == old(editingCell) && cellValue == old(cellValue)
      ensures editingCategory == old(editingCategory) && categoryName == old(categoryName)
    {
      isCreatingCategory := false;
      newCategoryName := "";
    }

    /** `saveCategoryCreation()`: a blank name does nothing; otherwise a create with the trimmed name. */
    method SaveCategoryCreation(settles: bool)
      modifies this
      ensures Trim(old(newCategoryName)) == "" ==> requests == old(requests) && isCreatingCategory == old(isCreatingCategory) && newCategoryName == old(newCategoryName)
      ensures Trim(old(newCategoryName)) != "" ==> requests == old(requests) + [CreateRequest(Trim(old(newCategoryName)))]
      ensures Trim(old(newCategoryName)) != "" && settles ==> !isCreatingCategory && newCategoryName == ""
      ensures !settles ==> isCreatingCategory == old(isCreatingCategory) && newCategoryName == old(newCategoryName)
      ensures editingCell == old(editingCell) && cellValue == old(cellValue)
      ensures editingCategory == old(editingCategory) && categoryName == old(categoryName)
    {
      if Trim(newCategoryName) == "" {
        return;
      }
      requests := requests + [CreateRequest(Trim(newCategoryName))];
      if settles {
        isCreatingCategory := false;
        newCategoryName := "";
      }
    }

    /** `handleDeleteCategory(categoryId, name)`: a delete only once the user confirms. */
    method HandleDeleteCategory(categoryId: string, confirmed: bool)
      modifies this
      ensures requests == old(requests) + (if confirmed then [DeleteRequest(categoryId)] else [])
      ensures editingCell == old(editingCell) && cellValue == old(cellValue)
      ensures editingCategory == old(editingCategory) && categoryName == old(categoryName)
      ensures isCreatingCategory == old(isCreatingCategory) && newCategoryName == old(newCategoryName)
    {
      if confirmed {
        requests := requests + [DeleteRequest(categoryId)];
      }
    }

    /** `handleCellKeyDown`: Enter and Tab save the cell, Escape cancels, other keys do nothing. */
    method HandleCellKeyDown(key: Key, settles: bool)
      modifies this
      ensures key == Escape ==> editingCell == None && cellValue == "" && requests == old(requests)
      ensures key == OtherKey ==> editingCell == old(editingCell) && cellValue == old(cellValue) && requests == old(requests)
      ensures (key == Enter || key == Tab) && old(editingCell).Some? ==>
        requests == old(requests) + [SetCellFromStringRequest(old(editingCell).value.categoryId, old(editingCell).value.month, old(cellValue))]
      ensures (key == Enter || key == Tab) && old(editingCell).None? ==>
        requests == old(requests) && editingCell == None && cellValue == old(cellValue)
      ensures (key == Enter || key == Tab) && old(editingCell).Some? && settles ==> editingCell == None && cellValue == ""
      ensures (key == Enter || key == Tab) && old(editingCell).Some? && !settles ==> editingCell == old(editingCell) && cellValue == old(cellValue)
      ensures editingCategory == old(editingCategory) && categoryName == old(categoryName)
      ensures isCreatingCategory == old(isCreatingCategory) && newCategoryName == old(newCategoryName)
    {
      match key {
        case Enter => SaveCellEdit(settles);
        case Tab => SaveCellEdit(settles);
        case Escape => CancelCellEdit();
        case OtherKey =>
      }
    }

    /** `handleCategoryKeyDown`: Enter saves the name, Escape cancels. */
    method HandleCategoryKeyDown(key: Key, settles: bool)
      modifies this
      ensures key == Escape ==> editingCategory == None && categoryName == "" && requests == old(requests)
      ensures key == Tab || key == OtherKey ==> editingCategory == old(editingCategory) && categoryName == old(categoryName) && requests == old(requests)
      ensures key == Enter && (old(editingCategory).None? || Trim(old(categoryName)) == "") ==>
        requests == old(requests) && editingCategory == old(editingCategory) && categoryName == old(categoryName)
      ensures key == Enter && old(editingCategory).Some? && Trim(old(categoryName)) != "" ==>
        requests == old(requests) + [RenameRequest(old(editingCategory).value.categoryId, Trim(old(categoryName)))]
      ensures key == Enter && old(editingCategory).Some? && Trim(old(categoryName)) != "" && settles ==>
        editingCategory == None && categoryName == ""
      ensures key == Enter && !settles ==> editingCategory == old(editingCategory) && categoryName == old(categoryName)
      ensures editingCell == old(editingCell) && cellValue == old(cellValue)
      ensures isCreatingCategory == old(isCreatingCategory) && newCategoryName == old(newCategoryName)
    {
      match key {
        case Enter => SaveCategoryEdit(settles);
        case Escape => CancelCategoryEdit();
        case Tab =>
        case OtherKey =>
      }
    }

    /** `handleNewCategoryKeyDown`: Enter creates, Escape cancels. */
    method HandleNewCategoryKeyDown(key: Key, settles: bool)
      modifies this
      ensures key == Escape ==> !isCreatingCategory && newCategoryName == "" && requests == old(requests)
      ensures key == Tab || key == OtherKey ==> isCreatingCategory == old(isCreatingCategory) && newCategoryName == old(newCategoryName) && requests == old(requests)
      ensures key == Enter && Trim(old(newCategoryName)) == "" ==> requests == old(requests) && isCreatingCategory == old(isCreatingCategory) && newCategoryName == old(newCategoryName)
      ensures key == Enter && Trim(old(newCategoryName)) != "" ==> requests == old(requests) + [CreateRequest(Trim(old(newCategoryName)))]
      ensures key == Enter && Trim(old(newCategoryName)) != "" && settles ==> !isCreatingCategory && newCategoryName == ""
      ensures key == Enter && !settles ==> isCreatingCategory == old(isCreatingCategory) && newCategoryName == old(newCategoryName)
      ensures editingCell == old(editingCell) && cellValue == old(cellValue)
      ensures editingCategory == old(editingCategory) && categoryName == old(categoryName)
    {
      match key {
        case Enter => SaveCategoryCreation(settles);
        case Escape => CancelCategoryCreation();
        case Tab =>
        case OtherKey =>
      }
    }

    /** `handlePaste(e, categoryId, month)`: the hook call the clipboard text asks for, if any, and no other change. */
    method HandlePaste(text: string, categoryId: string, month: int)
      modifies this
      ensures requests == old(requests) + PasteRequests(text, categoryId, month)
      ensures editingCell == old(editingCell) && cellValue == old(cellValue) &&
        editingCategory == old(editingCategory) && categoryName == old(categoryName) &&
        isCreatingCategory == old(isCreatingCategory) && newCategoryName == old(newCategoryName)
    {
      var r := PasteCall(text, categoryId, month);
      requests := requests + r;
    }
  }
}
