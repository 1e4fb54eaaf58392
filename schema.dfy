/**
 * The request and response schemas of src/lib/finance/schema.ts, as
 * validators over a decoded JSON body. A validator either yields the typed
 * input or the set of issues Zod would report, each at the path of the field
 * it concerns; the wording of Zod's built-in messages is not modelled.
 */
module Schema {
  import opened Wrappers
  import opened Text
  import opened Numbers

  /** A body as `request.json()` decodes it. */
  datatype Json =
    | JNull
    | JBool(b: bool)
    | JNumber(n: real)
    | JString(s: string)
    | JArray(items: seq<Json>)
    | JObject(fields: map<string, Json>)

  /** The kind of check a value failed. */
  datatype IssueCode =
    | InvalidType   // wrong JSON type, or the field is missing
    | TooSmall      // below `min` (for a string: shorter than `min`)
    | TooBig        // above `max` (for a string: longer than `max`)
    | NotInteger    // `int()` on a number with a fraction
    | InvalidUuid   // `uuid()` on a string that is not a UUID
    | InvalidKey    // a record key failing its pattern

  /** One issue: where it is (field names and array indices, outermost first) and what failed. */
  datatype Issue = Issue(path: seq<string>, code: IssueCode)

  /** `{ success: true, data }` or `{ success: false, error, details? }`. */
  datatype ApiResponse<T> =
    | ApiSuccess(data: T)
    | ApiError(error: string, details: Option<set<Issue>>)

  /** The field `key` of an object body; `None` when it is missing or the body is not an object. */
  function Field(body: Json, key: string): (r: Option<Json>)
    ensures r.Some? <==> body.JObject? && key in body.fields
  {
    if body.JObject? && key in body.fields then Some(body.fields[key]) else None
  }

  /** Every issue of `codes`, placed at `path`. */
  function At(path: seq<string>, codes: set<IssueCode>): (r: set<Issue>)
    ensures forall i :: i in r <==> i.path == path && i.code in codes
    ensures r == {} <==> codes == {}
  {
    assert forall c :: c in codes ==> Issue(path, c) in set c | c in codes :: Issue(path, c);
    set c | c in codes :: Issue(path, c)
  }

  predicate IsHexDigit(c: char) {
    '0' <= c <= '9' || 'a' <= c <= 'f' || 'A' <= c <= 'F'
  }

  /** Zod's `uuid()`: five groups of 8, 4, 4, 4 and 12 hexadecimal digits joined by hyphens. */
  predicate IsUuid(s: string) {
    && |s| == 36
    && s[8] == '-' && s[13] == '-' && s[18] == '-' && s[23] == '-'
    && (forall i :: 0 <= i < 36 && i != 8 && i != 13 && i != 18 && i != 23 ==> IsHexDigit(s[i]))
  }

  /**
   * `z.string().min(1).max(100)`: the name schema of a category. Zod measures
   * the string by its JavaScript `length`, in UTF-16 code units.
   */
  function NameIssues(v: Option<Json>): (r: set<IssueCode>)
    ensures r == {} <==> v.Some? && v.value.JString? && 1 <= Utf16Length(v.value.s) <= 100
    ensures v.Some? && v.value.JString? && v.value.s == [] ==> r == {TooSmall}
  {
    if v.None? || !v.value.JString? then {InvalidType}
    else
      var n := Utf16Length(v.value.s);
      (if n < 1 then {TooSmall} else {}) + (if n > 100 then {TooBig} else {})
  }

  /** A name of sixty emoji is 120 code units long, so the name schema refuses it as too long. */
  lemma {:induction false} AstralNameOverLimit(name: string)
    requires 50 < |name| && forall i :: 0 <= i < |name| ==> IsAstral(name[i])
    ensures NameIssues(Some(JString(name))) == {TooBig}
  {
    AstralLengthDoubles(name);
  }

  predicate IsWhole(x: real) {
    x == x.Floor as real
  }

  /** `z.number().int().min(lo).max(hi)`: every failing check is reported. */
  function IntRangeIssues(v: Option<Json>, lo: int, hi: int): (r: set<IssueCode>)
    ensures r == {} <==> v.Some? && v.value.JNumber? && IsWhole(v.value.n) && lo as real <= v.value.n <= hi as real
  {
    if v.None? || !v.value.JNumber? then {InvalidType}
    else
      var x := v.value.n;
      (if !IsWhole(x) then {NotInteger} else {}) + (if x < lo as real then {TooSmall} else {}) + (if x > hi as real then {TooBig} else {})
  }

  /** `IncomeValueSchema`: any number at least 0, fractions included. */
  function IncomeValueIssues(v: Option<Json>): (r: set<IssueCode>)
    ensures r == {} <==> v.Some? && v.value.JNumber? && v.value.n >= 0.0
  {
    if v.None? || !v.value.JNumber? then {InvalidType}
    else if v.value.n < 0.0 then {TooSmall}
    else {}
  }

  /** `z.string().uuid()`. */
  function UuidIssues(v: Option<Json>): (r: set<IssueCode>)
    ensures r == {} <==> v.Some? && v.value.JString? && IsUuid(v.value.s)
  {
    if v.None? || !v.value.JString? then {InvalidType}
    else if !IsUuid(v.value.s) then {InvalidUuid}
    else {}
  }

  /** Issues of a body that is not an object at all. */
  const NotAnObject: set<Issue> := {Issue([], InvalidType)}

  /** `CreateCategorySchema.parse(body)`: the name as sent, neither trimmed nor otherwise changed. */
  function ParseCreateCategory(body: Json): (r: Result<string, set<Issue>>)
    ensures r.Success? <==> (body.JObject? && "name" in body.fields && body.fields["name"].JString?
      && 1 <= Utf16Length(body.fields["name"].s) <= 100)
    ensures r.Success? ==> r.value == body.fields["name"].s
    ensures r.Failure? ==> r.error != {}
  {
    if !body.JObject? then Failure(NotAnObject)
    else
      var issues := At(["name"], NameIssues(Field(body, "name")));
      if issues != {} then Failure(issues) else Success(body.fields["name"].s)
  }

  /** `z.number().int().min(0)`: the order of a category, a whole number with no upper bound. */
  function OrderIssues(v: Option<Json>): (r: set<IssueCode>)
    ensures r == {} <==> v.Some? && v.value.JNumber? && IsWhole(v.value.n) && v.value.n >= 0.0
  {
    if v.None? || !v.value.JNumber? then {InvalidType}
    else (if !IsWhole(v.value.n) then {NotInteger} else {}) + (if v.value.n < 0.0 then {TooSmall} else {})
  }

  /** The fields `UpdateCategorySchema` lets through; a field left out stays `None`. */
  datatype CategoryUpdate = CategoryUpdate(name: Option<string>, order: Option<int>)

  /**
   * `UpdateCategorySchema.parse(body)`: both fields are optional, and a field
   * that is sent is held to the rule of `CategorySchema` (JSON has no
   * `undefined`, so a `null` is a field that is sent).
   */
  function ParseUpdateCategory(body: Json): (r: Result<CategoryUpdate, set<Issue>>)
    ensures r.Success? <==> (body.JObject?
      && ("name" in body.fields ==> body.fields["name"].JString? && 1 <= Utf16Length(body.fields["name"].s) <= 100)
      && ("order" in body.fields ==> body.fields["order"].JNumber? && IsWhole(body.fields["order"].n) && body.fields["order"].n >= 0.0))
    ensures r.Success? ==> (r.value.name.Some? <==> "name" in body.fields)
    ensures r.Success? && r.value.name.Some? ==> r.value.name.value == body.fields["name"].s
    ensures r.Success? ==> (r.value.order.Some? <==> "order" in body.fields)
    ensures r.Success? && r.value.order.Some? ==> r.value.order.value as real == body.fields["order"].n && r.value.order.value >= 0
    ensures r.Failure? ==> r.error != {}
  {
    if !body.JObject? then Failure(NotAnObject)
    else
      var name := Field(body, "name");
      var order := Field(body, "order");
      var issues := At(["name"], if name.None? then {} else NameIssues(name))
        + At(["order"], if order.None? then {} else OrderIssues(order));
      if issues != {} then Failure(issues)
      else Success(CategoryUpdate(if name.None? then None else Some(name.value.s), if order.None? then None else Some(order.value.n.Floor)))
  }

  /** A body holding only a name is a valid update exactly when it is a valid creation, and both read the same name. */
  lemma {:induction false} NameOnlyUpdateIsCreate(name: Json)
    ensures var body := JObject(map["name" := name]);
      (ParseUpdateCategory(body).Success? <==> ParseCreateCategory(body).Success?)
      && (ParseCreateCategory(body).Success? ==>
            ParseUpdateCategory(body).value == CategoryUpdate(Some(ParseCreateCategory(body).value), None))
  {
  }

  /** `MonthSchema`. */
  predicate IsMonthNumber(x: real) {
    IsWhole(x) && 1.0 <= x <= 12.0
  }

  /** `YearSchema`. */
  predicate IsYearNumber(x: real) {
    IsWhole(x) && 2000.0 <= x <= 2100.0
  }

  /** `YearSchema.parse(x)` on a number that may be `NaN` (`None`). */
  function ParseYear(x: Option<real>): (r: Result<int, set<Issue>>)
    ensures r.Success? <==> x.Some? && IsYearNumber(x.value)
    ensures r.Success? ==> r.value as real == x.value && 2000 <= r.value <= 2100
  {
    var issues := At([], IntRangeIssues(if x.None? then None else Some(JNumber(x.value)), 2000, 2100));
    if issues != {} then Failure(issues) else Success(x.value.Floor)
  }

  /** `SetCellSchema`: an object whose year, UUID category id, month and non-negative value are each valid. */
  predicate ValidSetCell(body: Json) {
    && body.JObject?
    && "year" in body.fields && body.fields["year"].JNumber? && IsYearNumber(body.fields["year"].n)
    && "categoryId" in body.fields && body.fields["categoryId"].JString? && IsUuid(body.fields["categoryId"].s)
    && "month" in body.fields && body.fields["month"].JNumber? && IsMonthNumber(body.fields["month"].n)
    && "value" in body.fields && body.fields["value"].JNumber? && body.fields["value"].n >= 0.0
  }

  datatype SetCellInput = SetCellInput(year: int, categoryId: string, month: int, value: real)

  /** `SetCellSchema.parse(body)`: valid exactly when each of the four fields is. */
  function ParseSetCell(body: Json): (r: Result<SetCellInput, set<Issue>>)
    ensures r.Success? <==> ValidSetCell(body)
    ensures r.Success? ==>
      && r.value.year as real == body.fields["year"].n
      && r.value.categoryId == body.fields["categoryId"].s
      && r.value.month as real == body.fields["month"].n
      && r.value.value == body.fields["value"].n
      && 2000 <= r.value.year <= 2100 && 1 <= r.value.month <= 12 && r.value.value >= 0.0
  {
    if !body.JObject? then Failure(NotAnObject)
    else
      var issues :=
        At(["year"], IntRangeIssues(Field(body, "year"), 2000, 2100))
        + At(["categoryId"], UuidIssues(Field(body, "categoryId")))
        + At(["month"], IntRangeIssues(Field(body, "month"), 1, 12))
        + At(["value"], IncomeValueIssues(Field(body, "value")));
      if issues != {} then Failure(issues)
      else
        Success(SetCellInput(body.fields["year"].n.Floor, body.fields["categoryId"].s, body.fields["month"].n.Floor, body.fields["value"].n))
  }

  /** The record keys `/^(1|2|3|4|5|6|7|8|9|10|11|12)$/` accepts. */
  const MonthKeys: set<string> := {"1", "2", "3", "4", "5", "6", "7", "8", "9", "10", "11", "12"}

  /** The accepted keys are exactly the decimal notations of the months, so `"01"` and `"13"` are refused. */
  lemma {:induction false} MonthKeysAreMonthNumerals(k: string)
    ensures k in MonthKeys <==> exists m :: 1 <= m <= 12 && k == IntToString(m)
    ensures "01" !in MonthKeys && "13" !in MonthKeys
  {
    if k in MonthKeys {
      KeyIsNumeral(k);
    } else {
      forall m | 1 <= m <= 12 ensures k != IntToString(m) {
        NumeralIsKey(m);
      }
    }
  }

  /** The numeral of every month is an accepted key. */
  lemma {:induction false} NumeralIsKey(m: int)
    requires 1 <= m <= 12
    ensures IntToString(m) in MonthKeys
  {
    if m == 1 {
      assert IntToString(m) == "1";
    } else if m == 2 {
      assert IntToString(m) == "2";
    } else if m == 3 {
      assert IntToString(m) == "3";
    } else if m == 4 {
      assert IntToString(m) == "4";
    } else if m == 5 {
      assert IntToString(m) == "5";
    } else if m == 6 {
      assert IntToString(m) == "6";
    } else if m == 7 {
      assert IntToString(m) == "7";
    } else if m == 8 {
      assert IntToString(m) == "8";
    } else if m == 9 {
      assert IntToString(m) == "9";
    } else if m == 10 {
      assert NatToString(m) == NatToString(1) + [DigitChar(0)];
      assert IntToString(m) == "10";
    } else if m == 11 {
      assert NatToString(m) == NatToString(1) + [DigitChar(1)];
      assert IntToString(m) == "11";
    } else {
      assert NatToString(m) == NatToString(1) + [DigitChar(2)];
      assert IntToString(m) == "12";
    }
  }

  /** The month an accepted key names. */
  function ParseKey(k: string): (m: int)
    requires k in MonthKeys
    ensures 1 <= m <= 12
  {
    if k == "1" then 1 else if k == "2" then 2 else if k == "3" then 3 else if k == "4" then 4
    else if k == "5" then 5 else if k == "6" then 6 else if k == "7" then 7 else if k == "8" then 8
    else if k == "9" then 9 else if k == "10" then 10 else if k == "11" then 11 else 12
  }

  lemma {:induction false} KeyIsNumeral(k: string)
    requires k in MonthKeys
    ensures k == IntToString(ParseKey(k))
  {
    assert NatToString(10) == NatToString(1) + [DigitChar(0)];
    assert NatToString(11) == NatToString(1) + [DigitChar(1)];
    assert NatToString(12) == NatToString(1) + [DigitChar(2)];
  }

  /** `parseInt` reads an accepted key as the month it names. */
  lemma {:induction false} ParseIntOfMonthKey(k: string)
    requires k in MonthKeys
    ensures ParseInt(k) == Some(ParseKey(k))
  {
    KeyIsNumeral(k);
    ParseIntIntToString(ParseKey(k));
  }

  datatype BulkSetRowInput = BulkSetRowInput(year: int, categoryId: string, valuesByMonth: map<string, real>)

  /** `z.record(monthKey, IncomeValueSchema)`: an object whose every key is a month key and every value a valid amount. */
  predicate ValidRecord(v: Option<Json>) {
    && v.Some? && v.value.JObject?
    && forall k :: k in v.value.fields ==> k in MonthKeys && v.value.fields[k].JNumber? && v.value.fields[k].n >= 0.0
  }

  /** The issues of `z.record(monthKey, IncomeValueSchema)` on one record: each bad key and each bad value. */
  function RecordIssues(v: Option<Json>): (r: set<Issue>)
    ensures r == {} <==> ValidRecord(v)
  {
    if v.None? || !v.value.JObject? then At(["valuesByMonth"], {InvalidType})
    else
      var fields := v.value.fields;
      var r := (set k | k in fields && k !in MonthKeys :: Issue(["valuesByMonth", k], InvalidKey))
        + (set k, c | k in fields && c in IncomeValueIssues(Some(fields[k])) :: Issue(["valuesByMonth", k], c));
      assert r == {} ==> ValidRecord(v) by {
        if r == {} {
          forall k | k in fields ensures k in MonthKeys && IncomeValueIssues(Some(fields[k])) == {} {
            assert k !in MonthKeys ==> Issue(["valuesByMonth", k], InvalidKey) in r;
            assert forall c :: c in IncomeValueIssues(Some(fields[k])) ==> Issue(["valuesByMonth", k], c) in r;
          }
        }
      }
      r
  }

  /** `BulkSetRowSchema.parse(body)`. */
  function ParseBulkSetRow(body: Json): (r: Result<BulkSetRowInput, set<Issue>>)
    ensures r.Success? <==> (body.JObject?
      && "year" in body.fields && body.fields["year"].JNumber? && IsYearNumber(body.fields["year"].n)
      && "categoryId" in body.fields && body.fields["categoryId"].JString? && IsUuid(body.fields["categoryId"].s)
      && ValidRecord(Field(body, "valuesByMonth")))
    ensures r.Success? ==>
      && r.value.year as real == body.fields["year"].n && 2000 <= r.value.year <= 2100
      && r.value.categoryId == body.fields["categoryId"].s
      && r.value.valuesByMonth.Keys == body.fields["valuesByMonth"].fields.Keys
      && (forall k :: k in r.value.valuesByMonth ==>
            k in MonthKeys && r.value.valuesByMonth[k] == body.fields["valuesByMonth"].fields[k].n && r.value.valuesByMonth[k] >= 0.0)
  {
    if !body.JObject? then Failure(NotAnObject)
    else
      var issues :=
        At(["year"], IntRangeIssues(Field(body, "year"), 2000, 2100))
        + At(["categoryId"], UuidIssues(Field(body, "categoryId")))
        + RecordIssues(Field(body, "valuesByMonth"));
      if issues != {} then Failure(issues)
      else
        var fields := body.fields["valuesByMonth"].fields;
        Success(BulkSetRowInput(body.fields["year"].n.Floor, body.fields["categoryId"].s, map k | k in fields :: fields[k].n))
  }

  /** `ReorderCategoriesSchema.parse(body)`: any array of UUIDs, empty or with repeats. */
  function ParseReorder(body: Json): (r: Result<seq<string>, set<Issue>>)
    ensures r.Success? <==> (body.JObject? && "order" in body.fields && body.fields["order"].JArray?
      && forall i :: 0 <= i < |body.fields["order"].items| ==>
           body.fields["order"].items[i].JString? && IsUuid(body.fields["order"].items[i].s))
    ensures r.Success? ==> |r.value| == |body.fields["order"].items|
    ensures r.Success? ==> forall i :: 0 <= i < |r.value| ==> r.value[i] == body.fields["order"].items[i].s
  {
    if !body.JObject? then Failure(NotAnObject)
    else if "order" !in body.fields || !body.fields["order"].JArray? then Failure(At(["order"], {InvalidType}))
    else
      var items := body.fields["order"].items;
      var issues := set i, c | 0 <= i < |items| && c in UuidIssues(Some(items[i])) :: Issue(["order", IntToString(i)], c);
      if issues != {} then
        Failure(issues)
      else
        assert forall i :: 0 <= i < |items| ==> UuidIssues(Some(items[i])) == {} by {
          forall i | 0 <= i < |items| ensures UuidIssues(Some(items[i])) == {} {
            assert forall c :: c in UuidIssues(Some(items[i])) ==> Issue(["order", IntToString(i)], c) in issues;
          }
        }
        Success(seq(|items|, i requires 0 <= i < |items| => items[i].s))
  }

  /** `CreateCategorySchema` counts characters and does not trim: a name of spaces passes. */
  lemma {:induction false} BlankNamePasses()
    ensures ParseCreateCategory(JObject(map["name" := JString("   ")])) == Success("   ")
  {
  }

  /** The ids of the demo categories, `'1'` and `'2'`, are not UUIDs, so no cell of theirs passes `SetCellSchema`. */
  lemma {:induction false} DemoIdsAreNotUuids(year: real, month: real, value: real)
    ensures ParseSetCell(JObject(map["year" := JNumber(year), "categoryId" := JString("1"), "month" := JNumber(month), "value" := JNumber(value)])).Failure?
    ensures !IsUuid("2")
  {
  }
}
