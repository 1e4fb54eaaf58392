/**
 * The mock REST handlers under app/api/income/: the category list kept in a
 * module-level array (categories/route.ts) and the grids kept in
 * `global.mockMatrix`, shared by matrix/route.ts and
 * matrix/bulk-row/route.ts. Each handler validates its body with the schemas
 * of src/lib/finance/schema.ts and answers with a status and an
 * `ApiResponse`. Fresh ids and the clock are parameters.
 */
module ApiRoutes {
  import opened Wrappers
  import opened Text
  import opened Numbers
  import opened Sorting
  import opened Income
  import opened Schema

  /** An HTTP answer: its status and its JSON body. */
  datatype Reply<T> = Reply(status: int, body: ApiResponse<T>)

  const InvalidInputError := "Datos de entrada inválidos"
  const DuplicateNameError := "Ya existe una categoría con ese nombre"
  const YearRequiredError := "El parámetro year es requerido"
  const InvalidYearError := "Año inválido"

  /** The echo of a PATCHed cell. */
  datatype CellEcho = CellEcho(year: int, categoryId: string, month: int, value: int)

  /** The answer of a bulk row write: the whole row after the write, and a count of the keys supplied. */
  datatype RowEcho = RowEcho(year: int, categoryId: string, updatedValues: Row, message: string)

  /** `mockCategories.find(cat => cat.name.toLowerCase() === name.toLowerCase())` finds something. */
  predicate HasNameIgnoringCase(cats: seq<Category>, name: string) {
    exists i :: 0 <= i < |cats| && ToLower(cats[i].name) == ToLower(name)
  }

  /**
   * POST /api/income/categories: 400 for a body `CreateCategorySchema`
   * refuses or a name already present ignoring case (compared before
   * trimming); otherwise 201 with the new category, trimmed, ordered last.
   */
  function PostCategoryReply(cats: seq<Category>, body: Json, newId: string, now: int): (r: Reply<Category>)
    ensures ParseCreateCategory(body).Failure? ==>
      r == Reply(400, ApiError(InvalidInputError, Some(ParseCreateCategory(body).error)))
    ensures ParseCreateCategory(body).Success? && HasNameIgnoringCase(cats, ParseCreateCategory(body).value) ==>
      r == Reply(400, ApiError(DuplicateNameError, None))
    ensures r.status == 201 <==> ParseCreateCategory(body).Success? && !HasNameIgnoringCase(cats, ParseCreateCategory(body).value)
    ensures r.status == 201 ==> r.body == ApiSuccess(NewCategory(cats, body.fields["name"].s, newId, now))
  {
    match ParseCreateCategory(body)
    case Failure(issues) => Reply(400, ApiError(InvalidInputError, Some(issues)))
    case Success(name) =>
      if HasNameIgnoringCase(cats, name) then Reply(400, ApiError(DuplicateNameError, None))
      else Reply(201, ApiSuccess(NewCategory(cats, name, newId, now)))
  }

  /** The answer to GET /api/income/matrix?year=…; `yearParam` is `None` when the parameter is absent. */
  function GetMatrixReply(grids: map<int, Matrix>, yearParam: Option<string>): (r: Reply<Matrix>)
    ensures yearParam.None? || yearParam == Some("") ==> r == Reply(400, ApiError(YearRequiredError, None))
    ensures r.status == 200 <==> (yearParam.Some? && yearParam.value != "" && ParseInt(yearParam.value).Some?
      && 2000 <= ParseInt(yearParam.value).value <= 2100)
    ensures r.status == 200 ==> r.body == ApiSuccess(YearGrid(grids, ParseInt(yearParam.value).value))
    ensures r.status != 200 ==> r.status == 400 && r.body.ApiError?
  {
    if yearParam.None? || yearParam.value == "" then Reply(400, ApiError(YearRequiredError, None))
    else
      var parsed := ParseInt(yearParam.value);
      match ParseYear(if parsed.None? then None else Some(parsed.value as real))
      case Failure(issues) => Reply(400, ApiError(InvalidYearError, Some(issues)))
      case Success(year) => Reply(200, ApiSuccess(YearGrid(grids, year)))
  }

  /** The row months named by the keys of a validated record, `parseInt(monthStr)` each. */
  function ByMonth(values: map<string, real>): (r: map<int, real>)
    requires forall k :: k in values ==> k in MonthKeys
    ensures forall m :: m in r <==> IsMonth(m) && IntToString(m) in values
    ensures forall m :: m in r ==> r[m] == values[IntToString(m)]
    ensures forall k :: k in values ==> ParseInt(k) == Some(ParseKey(k)) && ParseKey(k) in r && r[ParseKey(k)] == values[k]
  {
    var r := NumeralEntries(values);
    forall k | k in values ensures ParseInt(k) == Some(ParseKey(k)) && ParseKey(k) in r && r[ParseKey(k)] == values[k] {
      ByMonthReadsKey(values, r, k);
    }
    r
  }

  /** The entries of `values` under the numerals of the months. */
  function NumeralEntries(values: map<string, real>): (r: map<int, real>)
    ensures forall m :: m in r <==> IsMonth(m) && IntToString(m) in values
    ensures forall m :: m in r ==> r[m] == values[IntToString(m)]
  {
    map m | 1 <= m <= 12 && IntToString(m) in values :: values[IntToString(m)]
  }

  lemma {:induction false} ByMonthReadsKey(values: map<string, real>, r: map<int, real>, k: string)
    requires k in values && k in MonthKeys
    requires r == NumeralEntries(values)
    ensures ParseInt(k) == Some(ParseKey(k)) && ParseKey(k) in r && r[ParseKey(k)] == values[k]
  {
    ParseIntOfMonthKey(k);
    KeyIsNumeral(k);
  }

  /** `Actualizados ${Object.keys(valuesByMonth).length} valores para la categoría`. */
  function UpdatedMessage(count: nat): string {
    "Actualizados " + NatToString(count) + " valores para la categoría"
  }

  class MockIncomeApi {
    /** `mockCategories`. */
    var categories: seq<Category>
    /** `global.mockMatrix`: the grid of each year, by year. */
    var mockMatrix: map<int, Matrix>

    constructor(categories: seq<Category>, mockMatrix: map<int, Matrix>)
      ensures this.categories == categories && this.mockMatrix == mockMatrix
    {
      this.categories := categories;
      this.mockMatrix := mockMatrix;
    }

    /**
     * GET /api/income/categories: `sort` works in place, so the module's
     * array itself ends up ordered, and is returned.
     */
    method GetCategories() returns (reply: Reply<seq<Category>>)
      modifies this
      ensures categories == SortByOrder(old(categories)) && mockMatrix == old(mockMatrix)
      ensures reply == Reply(200, ApiSuccess(categories))
      ensures multiset(categories) == multiset(old(categories)) && SortedBy(categories, OrderBefore)
    {
      categories := SortByOrder(categories);
      SortByOrderSorts(old(categories));
      reply := Reply(200, ApiSuccess(categories));
    }

    /** POST /api/income/categories: an accepted category is pushed at the end; nothing else changes. */
    method PostCategory(body: Json, newId: string, now: int) returns (reply: Reply<Category>)
      modifies this
      ensures reply == PostCategoryReply(old(categories), body, newId, now)
      ensures reply.status == 201 ==> categories == old(categories) + [reply.body.data]
      ensures reply.status != 201 ==> categories == old(categories)
      ensures mockMatrix == old(mockMatrix)
    {
      var parsed := ParseCreateCategory(body);
      if parsed.Failure? {
        return Reply(400, ApiError(InvalidInputError, Some(parsed.error)));
      }
      var name := parsed.value;
      if HasNameIgnoringCase(categories, name) {
        return Reply(400, ApiError(DuplicateNameError, None));
      }
      var c := NewCategory(categories, name, newId, now);
      categories := categories + [c];
      reply := Reply(201, ApiSuccess(c));
    }

    /** GET /api/income/matrix?year=…: the year's grid, or an empty one for a year without data. */
    function GetMatrix(yearParam: Option<string>): (r: Reply<Matrix>)
      reads this
      ensures r == GetMatrixReply(mockMatrix, yearParam)
      ensures r.status == 200 && ParseInt(yearParam.value).value !in mockMatrix ==> r.body == ApiSuccess(map[])
    {
      GetMatrixReply(mockMatrix, yearParam)
    }

    /**
     * PATCH /api/income/matrix: a body `SetCellSchema` refuses gets 400 and
     * changes nothing; otherwise the cell takes `max(0, round(value))`, its
     * year and row created when missing, and the stored value is echoed.
     */
    method PatchCell(body: Json) returns (reply: Reply<CellEcho>)
      modifies this
      ensures ParseSetCell(body).Failure? ==>
        reply == Reply(400, ApiError(InvalidInputError, Some(ParseSetCell(body).error))) && mockMatrix == old(mockMatrix)
      ensures ParseSetCell(body).Success? ==> var input := ParseSetCell(body).value;
        && mockMatrix == old(mockMatrix)[input.year := SetCellIn(YearGrid(old(mockMatrix), input.year), input.categoryId, input.month, ClampRound(input.value))]
        && reply == Reply(200, ApiSuccess(CellEcho(input.year, input.categoryId, input.month, ClampRound(input.value))))
        && reply.body.data.value == Cell(YearGrid(mockMatrix, input.year), input.categoryId, input.month)
      ensures ParseSetCell(body).Success? ==> var input := ParseSetCell(body).value;
        forall y, id, m :: (y, id, m) != (input.year, input.categoryId, input.month) ==>
          Cell(YearGrid(mockMatrix, y), id, m) == Cell(YearGrid(old(mockMatrix), y), id, m)
      ensures categories == old(categories)
    {
      var parsed := ParseSetCell(body);
      if parsed.Failure? {
        return Reply(400, ApiError(InvalidInputError, Some(parsed.error)));
      }
      var input := parsed.value;
      var grid := YearGrid(mockMatrix, input.year);
      var value := ClampRound(input.value);
      mockMatrix := mockMatrix[input.year := SetCellIn(grid, input.categoryId, input.month, value)];
      reply := Reply(200, ApiSuccess(CellEcho(input.year, input.categoryId, input.month, value)));
    }

    /**
     * POST /api/income/matrix/bulk-row: a body `BulkSetRowSchema` refuses
     * gets 400 and changes nothing; otherwise each supplied month takes
     * `max(0, round(value))` in that row, created when missing, and the
     * whole row is returned.
     */
    method PostBulkRow(body: Json) returns (reply: Reply<RowEcho>)
      modifies this
      ensures ParseBulkSetRow(body).Failure? ==>
        reply == Reply(400, ApiError(InvalidInputError, Some(ParseBulkSetRow(body).error))) && mockMatrix == old(mockMatrix)
      ensures ParseBulkSetRow(body).Success? ==> var input := ParseBulkSetRow(body).value;
        var row := MergeMonths(RowOf(YearGrid(old(mockMatrix), input.year), input.categoryId), ByMonth(input.valuesByMonth));
        && mockMatrix == BulkRowWritten(old(mockMatrix), input)
        && reply == Reply(200, ApiSuccess(RowEcho(input.year, input.categoryId, row, UpdatedMessage(|input.valuesByMonth|))))
      ensures categories == old(categories)
    {
      var parsed := ParseBulkSetRow(body);
      if parsed.Failure? {
        return Reply(400, ApiError(InvalidInputError, Some(parsed.error)));
      }
      reply := WriteBulkRow(parsed.value);
    }

    /** The success path of the bulk-row route, for a body the schema accepted. */
    method WriteBulkRow(input: BulkSetRowInput) returns (reply: Reply<RowEcho>)
      requires forall k :: k in input.valuesByMonth ==> k in MonthKeys
      modifies this
      ensures var row := MergeMonths(RowOf(YearGrid(old(mockMatrix), input.year), input.categoryId), ByMonth(input.valuesByMonth));
        && mockMatrix == BulkRowWritten(old(mockMatrix), input)
        && reply == Reply(200, ApiSuccess(RowEcho(input.year, input.categoryId, row, UpdatedMessage(|input.valuesByMonth|))))
      ensures categories == old(categories)
    {
      var grid := YearGrid(mockMatrix, input.year);
      var row := WriteMonths(RowOf(grid, input.categoryId), ByMonth(input.valuesByMonth));
      mockMatrix := mockMatrix[input.year := grid[input.categoryId := row]];
      reply := Reply(200, ApiSuccess(RowEcho(input.year, input.categoryId, row, UpdatedMessage(|input.valuesByMonth|))));
    }
  }

  /** `global.mockMatrix` after a validated bulk write: the target row merged with the supplied months. */
  function BulkRowWritten(grids: map<int, Matrix>, input: BulkSetRowInput): map<int, Matrix>
    requires forall k :: k in input.valuesByMonth ==> k in MonthKeys
  {
    var grid := YearGrid(grids, input.year);
    grids[input.year := grid[input.categoryId := MergeMonths(RowOf(grid, input.categoryId), ByMonth(input.valuesByMonth))]]
  }

  /** A bulk write leaves every other row of every year as it was. */
  lemma {:induction false} BulkRowOtherRows(grids: map<int, Matrix>, input: BulkSetRowInput, y: int, id: string, m: int)
    requires forall k :: k in input.valuesByMonth ==> k in MonthKeys
    requires (y, id) != (input.year, input.categoryId)
    ensures Cell(YearGrid(BulkRowWritten(grids, input), y), id, m) == Cell(YearGrid(grids, y), id, m)
  {
    var grid := YearGrid(grids, input.year);
    var row := MergeMonths(RowOf(grid, input.categoryId), ByMonth(input.valuesByMonth));
    var after := grids[input.year := grid[input.categoryId := row]];
    assert after == BulkRowWritten(grids, input);
    assert RowOf(YearGrid(after, y), id) == RowOf(YearGrid(grids, y), id) by {
      if y == input.year {
        assert YearGrid(after, y) == grid[input.categoryId := row];
      } else {
        assert YearGrid(after, y) == YearGrid(grids, y);
      }
    }
  }

  /** Within the target row, a supplied month takes its clamped, rounded amount and any other key keeps its own. */
  lemma {:induction false} BulkRowTargetRow(grids: map<int, Matrix>, input: BulkSetRowInput, m: int)
    requires forall k :: k in input.valuesByMonth ==> k in MonthKeys
    ensures var after := Cell(YearGrid(BulkRowWritten(grids, input), input.year), input.categoryId, m);
      && (IntToString(m) !in input.valuesByMonth ==> after == Cell(YearGrid(grids, input.year), input.categoryId, m))
      && (1 <= m <= 12 && IntToString(m) in input.valuesByMonth ==> after == ClampRound(input.valuesByMonth[IntToString(m)]))
  {
    var grid := YearGrid(grids, input.year);
    var months := ByMonth(input.valuesByMonth);
    var row := MergeMonths(RowOf(grid, input.categoryId), months);
    assert RowOf(YearGrid(BulkRowWritten(grids, input), input.year), input.categoryId) == row;
    if IntToString(m) !in input.valuesByMonth {
      assert m !in months;
    }
  }

  /** A name already present under other letter case is refused. */
  lemma {:induction false} DuplicateIgnoresCase(now: int)
    ensures var cats := [Category("1", "Sueldo", 0, 0, 0)];
      PostCategoryReply(cats, JObject(map["name" := JString("SUELDO")]), "n", now).status == 400
  {
    UpperNameDuplicate([Category("1", "Sueldo", 0, 0, 0)], JObject(map["name" := JString("SUELDO")]));
  }

  /** The upper-case name passes the schema and matches the stored name ignoring case. */
  lemma {:induction false} UpperNameDuplicate(cats: seq<Category>, body: Json)
    requires cats == [Category("1", "Sueldo", 0, 0, 0)] && body == JObject(map["name" := JString("SUELDO")])
    ensures ParseCreateCategory(body) == Success("SUELDO") && HasNameIgnoringCase(cats, "SUELDO")
  {
    assert body.fields["name"].s == "SUELDO";
    assert ToLower(cats[0].name) == ToLower("SUELDO");
  }

  /**
   * The duplicate check sees the untrimmed name: `" Sueldo"` passes beside
   * `"Sueldo"` and is stored trimmed, so two categories share the name.
   */
  lemma {:induction false} PaddedDuplicateAccepted(now: int)
    ensures var cats := [Category("1", "Sueldo", 0, 0, 0)];
      var r := PostCategoryReply(cats, JObject(map["name" := JString(" Sueldo")]), "n", now);
      r.status == 201 && r.body.data.name == "Sueldo" && r.body.data.order == 1
  {
    var cats := [Category("1", "Sueldo", 0, 0, 0)];
    var body := JObject(map["name" := JString(" Sueldo")]);
    PaddedNameNew(cats, body);
    var c := NewCategory(cats, " Sueldo", "n", now);
    assert c.order == 1 by {
      assert cats[0].order == c.order - 1;
    }
    TrimPaddedName();
  }

  /** The padded name passes the schema and matches no stored name. */
  lemma {:induction false} PaddedNameNew(cats: seq<Category>, body: Json)
    requires cats == [Category("1", "Sueldo", 0, 0, 0)] && body == JObject(map["name" := JString(" Sueldo")])
    ensures ParseCreateCategory(body) == Success(" Sueldo") && !HasNameIgnoringCase(cats, " Sueldo")
  {
    assert body.fields["name"].s == " Sueldo";
    assert |ToLower(" Sueldo")| != |ToLower("Sueldo")|;
  }

  lemma {:induction false} TrimPaddedName()
    ensures Trim(" Sueldo") == "Sueldo"
  {
    assert IsSpace(' ') && !IsSpace('S') && !IsSpace('o');
    assert TrimStart(" Sueldo") == "Sueldo";
    assert TrimEnd("Sueldo") == "Sueldo";
  }

  /** `parseInt` stops at the first non-digit, so `year=2024abc` is served as 2024. */
  lemma {:induction false} TrailingTextYearServed(grids: map<int, Matrix>)
    ensures GetMatrixReply(grids, Some("2024abc")) == Reply(200, ApiSuccess(YearGrid(grids, 2024)))
  {
    ParseIntTrailingText();
  }

  lemma {:induction false} ParseIntTrailingText()
    ensures ParseInt("2024abc") == Some(2024)
  {
    Digits2024();
    assert "2024abc" == "2024" + "abc";
    ParseIntDigitPrefix("2024", "abc");
  }

  lemma {:induction false} Digits2024()
    ensures AllDigits("2024") && DigitsValue("2024") == 2024
  {
    assert "2024"[..3] == "202" && "202"[..2] == "20" && "20"[..1] == "2" && "2"[..0] == "";
  }

  /** Digits followed by text that does not start with a digit read as those digits. */
  lemma {:induction false} ParseIntDigitPrefix(d: string, rest: string)
    requires |d| > 0 && AllDigits(d)
    requires |rest| > 0 ==> !IsDigit(rest[0])
    ensures ParseInt(d + rest) == Some(DigitsValue(d))
  {
    var s := d + rest;
    assert s[0] == d[0] && !IsSpace(s[0]) && TrimStart(s) == s;
    DigitRunPrefix(d, rest);
  }
}
