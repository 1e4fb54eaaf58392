/**
 * The income-matrix hook of hooks/useIncomeMatrix.ts. It talks to a store
 * whose actions are only known by name (`createCategory`, `reorderCategories`,
 * `setCell`, ...), so every hook action is modelled by the store calls it
 * issues, in order: the hook's own work is trimming, guarding, clamping and
 * turning pasted text into month rows.
 */
module MatrixCommands {
  import opened Wrappers
  import opened Text
  import opened Numbers
  import opened Income
  import opened Currency

  /** One call into the store. Amounts handed to the store are already whole and non-negative. */
  datatype StoreCall =
    | CreateCall(name: string)
    | RenameCall(id: string, name: string)
    | DeleteCall(id: string)
    | ReorderCall(order: seq<string>)
    | SetCellCall(year: int, categoryId: string, month: int, value: nat)
    | BulkSetRowCall(year: int, categoryId: string, values: map<int, nat>)

  const OnlyCategoryError := "No puedes eliminar la única categoría"

  /** `createCategory(name)`: the store receives the trimmed name, which trimming no further changes. */
  function CreateCategoryCall(name: string): (c: StoreCall)
    ensures c.CreateCall? && Trim(c.name) == c.name
    ensures c.name == Trim(name)
  {
    TrimIdempotent(name);
    CreateCall(Trim(name))
  }

  /** `renameCategory(id, name)`: the same id, the trimmed name. */
  function RenameCategoryCall(id: string, name: string): (c: StoreCall)
    ensures c.RenameCall? && c.id == id && c.name == Trim(name) && Trim(c.name) == c.name
  {
    TrimIdempotent(name);
    RenameCall(id, Trim(name))
  }

  /** `deleteCategory(id)`: refused while at most one category is listed, and then the store is not called. */
  function DeleteCategoryCalls(categoryCount: nat, id: string): (r: Result<seq<StoreCall>, string>)
    ensures r.Failure? <==> categoryCount <= 1
    ensures r.Failure? ==> r.error == OnlyCategoryError
    ensures r.Success? ==> r.value == [DeleteCall(id)]
  {
    if categoryCount <= 1 then Failure(OnlyCategoryError) else Success([DeleteCall(id)])
  }

  /** `setCell(categoryId, month, value)`: the store receives `max(0, round(value))`, for any month. */
  function SetCellCallOf(year: int, categoryId: string, month: int, value: real): (c: StoreCall)
    ensures c.SetCellCall? && c.year == year && c.categoryId == categoryId && c.month == month
    ensures value < 0.5 ==> c.value == 0
    ensures value >= -0.5 ==> c.value as real - 0.5 <= value < c.value as real + 0.5
  {
    SetCellCall(year, categoryId, month, ClampRound(value))
  }

  /** `setCellFromString(...)`: `setCell` of `parseCLP(text)`, which reaches the store unchanged. */
  function SetCellFromStringCall(year: int, categoryId: string, month: int, text: string): (c: StoreCall)
    ensures c == SetCellCallOf(year, categoryId, month, ParseCLP(text) as real)
    ensures c.SetCellCall? && c.value == ParseCLP(text)
  {
    ClampRoundWhole(ParseCLP(text));
    SetCellCallOf(year, categoryId, month, ParseCLP(text) as real)
  }

  /** Amounts already whole and non-negative, as numbers. */
  function AsReals(values: map<int, nat>): (r: map<int, real>)
    ensures r.Keys == values.Keys
    ensures forall k :: k in values ==> r[k] == values[k] as real
  {
    map k | k in values :: values[k] as real
  }

  /** The sanitised month values as whole amounts. */
  function AsNats(row: Row): (r: map<int, nat>)
    requires forall k :: k in row ==> row[k] >= 0
    ensures r.Keys == row.Keys
    ensures forall k :: k in row ==> r[k] == row[k]
  {
    map k | k in row :: row[k] as nat
  }

  /** `sanitizedValues` of `bulkSetRow`: each key in 1..12 with its value clamped and rounded; every other key dropped. */
  function Sanitized(values: map<int, real>): (r: map<int, nat>)
    ensures forall k :: k in r <==> k in values && IsMonth(k)
    ensures forall k :: k in r ==> r[k] == ClampRound(values[k])
  {
    var row := MergeMonths(map[], values);
    MergeMonthsKeepsShape(map[], values);
    AsNats(row)
  }

  /** `bulkSetRow(categoryId, valuesByMonth)`: the loop building `sanitizedValues`, then one store call. */
  method BulkSetRow(year: int, categoryId: string, valuesByMonth: map<int, real>) returns (c: StoreCall)
    ensures c == BulkSetRowCall(year, categoryId, Sanitized(valuesByMonth))
  {
    var row := WriteMonths(map[], valuesByMonth);
    MergeMonthsKeepsShape(map[], valuesByMonth);
    c := BulkSetRowCall(year, categoryId, AsNats(row));
  }

  /** Values that are already sanitised pass through sanitising unchanged. */
  lemma {:induction false} SanitizedFixesSanitized(values: map<int, nat>)
    requires forall k :: k in values ==> IsMonth(k)
    ensures Sanitized(AsReals(values)) == values
  {
    var r := Sanitized(AsReals(values));
    forall k | k in values ensures r[k] == values[k] {
      ClampRoundWhole(values[k]);
    }
  }

  /** `values.slice(0, 12)`. */
  function FirstTwelve<T>(values: seq<T>): (r: seq<T>)
    ensures |r| == if |values| < 12 then |values| else 12
    ensures forall i :: 0 <= i < |r| ==> r[i] == values[i]
  {
    if |values| < 12 then values else values[..12]
  }

  /** `valuesByMonth` of `pasteExcelRow` after the first `n` values: value `i` at month `i + 1`, zero amounts left out. */
  function PastedMonths(parsed: seq<nat>, n: nat): (r: map<int, nat>)
    requires n <= |parsed| <= 12
    ensures forall k :: k in r <==> 1 <= k <= n && parsed[k - 1] > 0
    ensures forall k :: k in r ==> r[k] == parsed[k - 1] && IsMonth(k)
  {
    if n == 0 then map[]
    else
      var before := PastedMonths(parsed, n - 1);
      if parsed[n - 1] > 0 then before[n := parsed[n - 1]] else before
  }

  /** The `forEach` of `pasteExcelRow` that fills `valuesByMonth`. */
  method CollectPastedMonths(parsed: seq<nat>) returns (r: map<int, nat>)
    requires |parsed| <= 12
    ensures r == PastedMonths(parsed, |parsed|)
  {
    r := map[];
    var index := 0;
    while index < |parsed|
      invariant 0 <= index <= |parsed|
      invariant r == PastedMonths(parsed, index)
    {
      var month := index + 1;
      if month <= 12 && parsed[index] > 0 {
        r := r[month := parsed[index]];
      }
      index := index + 1;
    }
  }

  /** The row handed to `bulkSetRow` for already parsed values: the pasted months survive sanitising unchanged. */
  lemma {:induction false} PastedMonthsSanitized(parsed: seq<nat>)
    requires |parsed| <= 12
    ensures Sanitized(AsReals(PastedMonths(parsed, |parsed|))) == PastedMonths(parsed, |parsed|)
  {
    SanitizedFixesSanitized(PastedMonths(parsed, |parsed|));
  }

  /** Month `k` of the collected row, read off the parsed values alone. */
  lemma PastedMonthAt(parsed: seq<nat>, k: int)
    requires |parsed| <= 12
    ensures var m := PastedMonths(parsed, |parsed|);
      (k in m <==> 1 <= k <= |parsed| && parsed[k - 1] > 0) && (k in m ==> m[k] == parsed[k - 1])
  {
  }

  /** The store call of `pasteExcelRow(categoryId, values)`: the first twelve cells parsed and placed from January. */
  function PasteRowCall(year: int, categoryId: string, values: seq<string>): (c: StoreCall)
    ensures c.BulkSetRowCall? && c.year == year && c.categoryId == categoryId
  {
    var parsed := ParseExcelValues(FirstTwelve(values));
    BulkSetRowCall(year, categoryId, PastedMonths(parsed, |parsed|))
  }

  /** Month `k` of a pasted row holds the amount of cell `k`, for the first twelve cells, when it is not 0. */
  lemma {:induction false} PasteRowCallCells(year: int, categoryId: string, values: seq<string>, k: int)
    ensures var c := PasteRowCall(year, categoryId, values);
      (k in c.values <==> 1 <= k <= 12 && k <= |values| && ParseExcelValue(values[k - 1]) > 0) &&
      (k in c.values ==> c.values[k] == ParseExcelValue(values[k - 1]))
  {
    var first := FirstTwelve(values);
    var parsed := ParseExcelValues(first);
    var m := PastedMonths(parsed, |parsed|);
    assert PasteRowCall(year, categoryId, values).values == m;
    PastedMonthAt(parsed, k);
    if 1 <= k <= |parsed| {
      assert first[k - 1] == values[k - 1];
      assert parsed[k - 1] == ParseExcelValue(values[k - 1]);
    }
  }

  /** `pasteExcelRow(categoryId, values)`: parse, collect, then hand the row to `bulkSetRow`. */
  method PasteExcelRow(year: int, categoryId: string, values: seq<string>) returns (c: StoreCall)
    ensures c == PasteRowCall(year, categoryId, values)
  {
    var parsed := ParseExcelValues(FirstTwelve(values));
    var months := CollectPastedMonths(parsed);
    c := BulkSetRow(year, categoryId, AsReals(months));
    PastedMonthsSanitized(parsed);
  }

  /** `list.slice(start)`: a negative start counts back from the end. */
  function SliceFrom<T>(s: seq<T>, start: int): (r: seq<T>)
    ensures start >= 0 ==> r == if start <= |s| then s[start..] else []
    ensures start < 0 ==> r == if |s| + start >= 0 then s[|s| + start..] else s
  {
    if start >= 0 then (if start <= |s| then s[start..] else [])
    else if |s| + start >= 0 then s[|s| + start..] else s
  }

  /** The rows `pasteExcelMatrix` hands on among the first `n`: the non-empty ones, in order. */
  function PastedRows(data: seq<seq<string>>, n: nat): (r: seq<nat>)
    requires n <= |data|
    ensures forall i :: 0 <= i < |r| ==> r[i] < n && |data[r[i]]| > 0
    ensures forall i, j :: 0 <= i < j < |r| ==> r[i] < r[j]
  {
    if n == 0 then []
    else
      var before := PastedRows(data, n - 1);
      if |data[n - 1]| > 0 then before + [n - 1] else before
  }

  /** Every non-empty row among the first `n` is handed on. */
  lemma {:induction false} PastedRowsComplete(data: seq<seq<string>>, n: nat, row: nat)
    requires n <= |data| && row < n && |data[row]| > 0
    ensures row in PastedRows(data, n)
  {
    if row < n - 1 {
      PastedRowsComplete(data, n - 1, row);
    }
  }

  /** With no empty row, every row among the first `n` is handed on, each once. */
  lemma {:induction false} PastedRowsAll(data: seq<seq<string>>, n: nat)
    requires n <= |data| && forall r :: 0 <= r < n ==> |data[r]| > 0
    ensures PastedRows(data, n) == seq(n, r => r)
  {
    if n > 0 {
      PastedRowsAll(data, n - 1);
    }
  }

  /** The store calls for the given rows: row `r` goes to category `r` of `available`. */
  predicate PastesRows(calls: seq<StoreCall>, year: int, available: seq<Category>, data: seq<seq<string>>, rows: seq<nat>)
    requires forall i :: 0 <= i < |rows| ==> rows[i] < |available| && rows[i] < |data|
  {
    |calls| == |rows| &&
    forall i :: 0 <= i < |rows| ==> calls[i] == PasteRowCall(year, available[rows[i]].id, data[rows[i]])
  }

  /**
   * `pasteExcelMatrix(startCategoryIndex, data)`: row `r` goes to the category
   * at `startCategoryIndex + r` of the listed categories, for
   * `min(rows, categories left)` rows; empty rows are skipped.
   */
  method PasteExcelMatrix(year: int, categories: seq<Category>, startCategoryIndex: int, data: seq<seq<string>>)
    returns (calls: seq<StoreCall>)
    ensures var available := SliceFrom(categories, startCategoryIndex);
      var n := if |data| < |available| then |data| else |available|;
      PastesRows(calls, year, available, data, PastedRows(data, n))
  {
    var available := SliceFrom(categories, startCategoryIndex);
    calls := PasteRows(year, available, data, if |data| < |available| then |data| else |available|);
  }

  /** The loop of `pasteExcelMatrix` over the first `n` rows. */
  method PasteRows(year: int, available: seq<Category>, data: seq<seq<string>>, n: nat) returns (calls: seq<StoreCall>)
    requires n <= |available| && n <= |data|
    ensures PastesRows(calls, year, available, data, PastedRows(data, n))
  {
    calls := [];
    var rowIndex := 0;
    while rowIndex < n
      invariant 0 <= rowIndex <= n
      invariant PastesRows(calls, year, available, data, PastedRows(data, rowIndex))
    {
      PastesRowsStep(calls, year, available, data, rowIndex);
      if |data[rowIndex]| > 0 {
        var c := PasteExcelRow(year, available[rowIndex].id, data[rowIndex]);
        calls := calls + [c];
      }
      rowIndex := rowIndex + 1;
    }
  }

  /** One more row of `pasteExcelMatrix`: a non-empty row adds its call, an empty one adds nothing. */
  lemma {:induction false} PastesRowsStep(calls: seq<StoreCall>, year: int, available: seq<Category>, data: seq<seq<string>>, n: nat)
    requires n < |available| && n < |data| && PastesRows(calls, year, available, data, PastedRows(data, n))
    ensures |data[n]| > 0 ==> PastesRows(calls + [PasteRowCall(year, available[n].id, data[n])], year, available, data, PastedRows(data, n + 1))
    ensures |data[n]| == 0 ==> PastesRows(calls, year, available, data, PastedRows(data, n + 1))
  {
    var rows := PastedRows(data, n);
    if |data[n]| > 0 {
      var next := calls + [PasteRowCall(year, available[n].id, data[n])];
      assert PastedRows(data, n + 1) == rows + [n];
      forall i | 0 <= i < |rows| + 1
        ensures next[i] == PasteRowCall(year, available[(rows + [n])[i]].id, data[(rows + [n])[i]])
      {
        if i < |rows| {
          assert (rows + [n])[i] == rows[i];
        }
      }
    } else {
      assert PastedRows(data, n + 1) == rows;
    }
  }
}
