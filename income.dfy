/**
 * The income grid shared by every store, adapter and route: an ordered
 * registry of categories and, per year, a sparse grid
 * `categoryId -> month -> amount` (src/lib/finance/types.ts). A missing row
 * or a missing month reads as 0. Timestamps are instants handed in by the
 * caller.
 */
module Income {
  import opened Wrappers
  import opened Text
  import opened Numbers
  import opened Sorting

  datatype Category = Category(id: string, name: string, order: int, createdAt: int, updatedAt: int)

  /** One category's amounts, by month number. */
  type Row = map<int, int>

  /** One year's grid, by category id. */
  type Matrix = map<string, Row>

  /** `MONTHS`: the short Spanish month names, January first. */
  const MonthNames: seq<string> := ["Ene", "Feb", "Mar", "Abr", "May", "Jun", "Jul", "Ago", "Sep", "Oct", "Nov", "Dic"]

  predicate IsMonth(m: int) {
    1 <= m <= 12
  }

  /** `MONTHS[m]`. */
  function MonthName(m: int): string
    requires IsMonth(m)
  {
    MonthNames[m - 1]
  }

  /** The grid stored for `year`, or `{}` when there is none. */
  function YearGrid(grids: map<int, Matrix>, year: int): Matrix {
    if year in grids then grids[year] else map[]
  }

  /** `matrix[id] || {}`. */
  function RowOf(m: Matrix, id: string): Row {
    if id in m then m[id] else map[]
  }

  /** `row[month] || 0`. */
  function RowCell(row: Row, month: int): int {
    if month in row then row[month] else 0
  }

  /** `matrix[id]?.[month] || 0`. */
  function Cell(m: Matrix, id: string, month: int): int {
    RowCell(RowOf(m, id), month)
  }

  /** The comparator `(a, b) => a.order - b.order`. */
  function OrderBefore(a: Category, b: Category): bool {
    a.order < b.order
  }

  lemma {:induction false} OrderBeforeIsStrict()
    ensures StrictOrder(OrderBefore)
  {
  }

  /** `categories.sort((a, b) => a.order - b.order)`. */
  function SortByOrder(cats: seq<Category>): (r: seq<Category>)
    ensures |r| == |cats|
  {
    SortWith(cats, OrderBefore)
  }

  /** Sorting by order yields the same categories, ascending by `order`. */
  lemma {:induction false} SortByOrderSorts(cats: seq<Category>)
    ensures multiset(SortByOrder(cats)) == multiset(cats)
    ensures SortedBy(SortByOrder(cats), OrderBefore)
  {
    OrderBeforeIsStrict();
    SortWithSorted(cats, OrderBefore);
  }

  /** `Math.max(...categories.map(c => c.order))`, or -1 when there are none. */
  function MaxOrder(cats: seq<Category>): (r: int)
    ensures forall i :: 0 <= i < |cats| ==> cats[i].order <= r
    ensures |cats| == 0 ==> r == -1
    ensures |cats| > 0 ==> exists i :: 0 <= i < |cats| && cats[i].order == r
  {
    if |cats| == 0 then -1
    else
      var rest := MaxOrder(cats[..|cats| - 1]);
      var last := cats[|cats| - 1].order;
      if |cats| == 1 || last > rest then last else rest
  }

  /** The category `createCategory` appends: the trimmed name, one past the greatest order (0 for the first). */
  function NewCategory(cats: seq<Category>, name: string, id: string, now: int): (c: Category)
    ensures c.id == id && c.name == Trim(name) && c.createdAt == now && c.updatedAt == now
    ensures forall i :: 0 <= i < |cats| ==> cats[i].order < c.order
    ensures |cats| == 0 ==> c.order == 0
    ensures |cats| > 0 ==> exists i :: 0 <= i < |cats| && cats[i].order == c.order - 1
  {
    Category(id, Trim(name), MaxOrder(cats) + 1, now, now)
  }

  /** Appending a category ordered after all others to a sorted list keeps it sorted, so re-sorting changes nothing. */
  lemma {:induction false} AppendLastKeepsSorted(cats: seq<Category>, c: Category)
    requires SortedBy(cats, OrderBefore)
    requires forall i :: 0 <= i < |cats| ==> cats[i].order < c.order
    ensures SortedBy(cats + [c], OrderBefore)
    ensures SortByOrder(cats + [c]) == cats + [c]
  {
    var r := cats + [c];
    assert SortedBy(r, OrderBefore) by {
      forall i, j | 0 <= i < j < |r| ensures !OrderBefore(r[j], r[i]) {
        if j < |cats| {
          assert r[i] == cats[i] && r[j] == cats[j];
        }
      }
    }
    SortWithSortedIsIdentity(r, OrderBefore);
  }

  /** `categories.findIndex(c => c.id === id)`. */
  function IndexOfId(cats: seq<Category>, id: string): (r: int)
    ensures -1 <= r < |cats|
    ensures r >= 0 ==> cats[r].id == id && forall j :: 0 <= j < r ==> cats[j].id != id
    ensures r == -1 <==> forall j :: 0 <= j < |cats| ==> cats[j].id != id
    ensures r >= 0 <==> HasId(cats, id)
  {
    if |cats| == 0 then -1
    else if cats[0].id == id then 0
    else
      var k := IndexOfId(cats[1..], id);
      if k == -1 then -1 else k + 1
  }

  predicate HasId(cats: seq<Category>, id: string) {
    exists j :: 0 <= j < |cats| && cats[j].id == id
  }

  /** Two arrangements of the same categories hold the same ids. */
  lemma {:induction false} HasIdPermutation(a: seq<Category>, b: seq<Category>, id: string)
    requires multiset(a) == multiset(b)
    ensures HasId(a, id) <==> HasId(b, id)
  {
    if HasId(a, id) {
      var j :| 0 <= j < |a| && a[j].id == id;
      assert a[j] in multiset(b);
      var k :| 0 <= k < |b| && b[k] == a[j];
    }
    if HasId(b, id) {
      var j :| 0 <= j < |b| && b[j].id == id;
      assert b[j] in multiset(a);
      var k :| 0 <= k < |a| && a[k] == b[j];
    }
  }

  /** `categories.filter(c => c.id !== id)`. */
  function WithoutId(cats: seq<Category>, id: string): (r: seq<Category>)
    ensures |r| <= |cats|
    ensures forall c :: c in r <==> c in cats && c.id != id
    ensures |r| == |cats| <==> !HasId(cats, id)
  {
    if |cats| == 0 then []
    else
      var rest := WithoutId(cats[1..], id);
      assert forall c :: c in cats <==> c == cats[0] || c in cats[1..];
      assert HasId(cats, id) <==> cats[0].id == id || HasId(cats[1..], id) by {
        if HasId(cats[1..], id) {
          var j :| 0 <= j < |cats[1..]| && cats[1..][j].id == id;
          assert cats[j + 1].id == id;
        }
        if HasId(cats, id) && cats[0].id != id {
          var j :| 0 <= j < |cats| && cats[j].id == id;
          assert cats[1..][j - 1].id == id;
        }
      }
      if cats[0].id == id then rest else [cats[0]] + rest
  }

  /** Filtering keeps relative order, so a sorted list stays sorted. */
  lemma {:induction false} WithoutIdKeepsSorted(cats: seq<Category>, id: string)
    requires SortedBy(cats, OrderBefore)
    ensures SortedBy(WithoutId(cats, id), OrderBefore)
  {
    if |cats| > 0 {
      var tail := cats[1..];
      assert SortedBy(tail, OrderBefore) by {
        forall i, j | 0 <= i < j < |tail| ensures !OrderBefore(tail[j], tail[i]) {
          assert tail[j] == cats[j + 1] && tail[i] == cats[i + 1];
        }
      }
      WithoutIdKeepsSorted(tail, id);
      var rest := WithoutId(tail, id);
      if cats[0].id != id {
        assert forall x :: x in tail ==> x.order >= cats[0].order by {
          forall x | x in tail ensures x.order >= cats[0].order {
            var k :| 0 <= k < |tail| && tail[k] == x;
            assert cats[k + 1] == x;
          }
        }
        PrependKeepsSorted(cats[0], rest);
      }
    }
  }

  lemma {:induction false} PrependKeepsSorted(c: Category, rest: seq<Category>)
    requires SortedBy(rest, OrderBefore)
    requires forall x :: x in rest ==> x.order >= c.order
    ensures SortedBy([c] + rest, OrderBefore)
  {
    var r := [c] + rest;
    forall i, j | 0 <= i < j < |r| ensures !OrderBefore(r[j], r[i]) {
      assert r[j] == rest[j - 1];
      if i > 0 {
        assert r[i] == rest[i - 1];
      }
    }
  }

  /** `categories[i] = { ...categories[i], name, updatedAt: now }`. */
  function RenameAt(cats: seq<Category>, i: int, name: string, now: int): (r: seq<Category>)
    requires 0 <= i < |cats|
    ensures |r| == |cats|
    ensures r[i].name == name && r[i].updatedAt == now
    ensures r[i].id == cats[i].id && r[i].order == cats[i].order && r[i].createdAt == cats[i].createdAt
    ensures forall j :: 0 <= j < |cats| && j != i ==> r[j] == cats[j]
  {
    cats[i := cats[i].(name := name, updatedAt := now)]
  }

  /** Renaming keeps every order, so a sorted list stays sorted. */
  lemma {:induction false} RenameAtKeepsSorted(cats: seq<Category>, i: int, name: string, now: int)
    requires 0 <= i < |cats| && SortedBy(cats, OrderBefore)
    ensures SortedBy(RenameAt(cats, i, name, now), OrderBefore)
  {
    var r := RenameAt(cats, i, name, now);
    forall a, b | 0 <= a < b < |r| ensures !OrderBefore(r[b], r[a]) {
      assert r[a].order == cats[a].order && r[b].order == cats[b].order;
    }
  }

  /** `matrix[id] ||= {}; matrix[id][month] = value`. */
  function SetCellIn(m: Matrix, id: string, month: int, value: int): (r: Matrix)
    ensures id in r && r.Keys == m.Keys + {id}
    ensures Cell(r, id, month) == value
  {
    m[id := RowOf(m, id)[month := value]]
  }

  /** Writing one cell changes that cell and no other. */
  lemma {:induction false} SetCellOnlyTarget(m: Matrix, id: string, month: int, value: int, id': string, month': int)
    ensures Cell(SetCellIn(m, id, month, value), id', month') ==
            if id' == id && month' == month then value else Cell(m, id', month')
  {
  }

  /** The row `bulkSetRow` leaves: each supplied month in 1..12 clamped and rounded, every other key as it was. */
  function MergeMonths(row: Row, values: map<int, real>): (r: Row)
    ensures forall k :: k in values && IsMonth(k) ==> k in r && r[k] == ClampRound(values[k])
    ensures forall k :: !(k in values && IsMonth(k)) ==> (k in r <==> k in row) && (k in row ==> r[k] == row[k])
  {
    map k | k in row.Keys + (set j | j in values && IsMonth(j)) ::
      if k in values && IsMonth(k) then ClampRound(values[k]) as int else row[k]
  }

  /**
   * The loop over `Object.entries(valuesByMonth)` shared by both adapters and
   * the bulk-row route: each entry whose month is in 1..12 is written
   * clamped and rounded, any other entry is skipped.
   */
  method WriteMonths(row: Row, values: map<int, real>) returns (r: Row)
    ensures r == MergeMonths(row, values)
  {
    r := row;
    var pending := values.Keys;
    while pending != {}
      invariant pending <= values.Keys
      invariant r == MergeMonths(row, values - pending)
      decreases |pending|
    {
      var month := Choose(pending);
      MergeMonthsStep(row, values, pending, month);
      if 1 <= month <= 12 {
        r := r[month := ClampRound(values[month])];
      }
      pending := pending - {month};
    }
    assert values - {} == values;
  }

  /** Visiting one more entry writes its month, when it is one, over the row merged so far. */
  lemma {:induction false} MergeMonthsStep(row: Row, values: map<int, real>, pending: set<int>, month: int)
    requires month in pending && pending <= values.Keys
    ensures MergeMonths(row, values - (pending - {month})) ==
      if IsMonth(month) then MergeMonths(row, values - pending)[month := ClampRound(values[month])]
      else MergeMonths(row, values - pending)
  {
    var before, after := values - pending, values - (pending - {month});
    assert after == before[month := values[month]];
    var a, b := MergeMonths(row, after), MergeMonths(row, before);
    if IsMonth(month) {
      assert a == b[month := ClampRound(values[month])];
    } else {
      assert a.Keys == b.Keys;
      assert a == b;
    }
  }

  /** Some key still to visit; `Object.entries` visits each key once, in an order none of the results depends on. */
  method Choose<T>(pending: set<T>) returns (k: T)
    requires pending != {}
    ensures k in pending
  {
    k :| k in pending;
  }

  /** A row whose keys are months keeps that shape under `bulkSetRow`; its amounts stay non-negative. */
  lemma {:induction false} MergeMonthsKeepsShape(row: Row, values: map<int, real>)
    ensures (forall k :: k in row ==> IsMonth(k)) ==> forall k :: k in MergeMonths(row, values) ==> IsMonth(k)
    ensures (forall k :: k in row ==> row[k] >= 0) ==> forall k :: k in MergeMonths(row, values) ==> MergeMonths(row, values)[k] >= 0
  {
  }

  /** A grid all of whose amounts are non-negative, as every clamped write leaves it. */
  predicate NonNegative(m: Matrix) {
    forall id, k :: id in m && k in m[id] ==> m[id][k] >= 0
  }

  /** Every demo amount stored is non-negative. */
  predicate AllNonNegative(grids: map<int, Matrix>) {
    forall y :: y in grids ==> NonNegative(grids[y])
  }

  /** `Math.max(...)` of a list depends only on which categories it holds. */
  lemma {:induction false} OrderOfNewIsPermutationInvariant(a: seq<Category>, b: seq<Category>)
    requires multiset(a) == multiset(b)
    ensures MaxOrder(a) == MaxOrder(b)
  {
    var ra, rb := MaxOrder(a), MaxOrder(b);
    if |a| > 0 {
      var i :| 0 <= i < |a| && a[i].order == ra;
      assert a[i] in multiset(b);
      var j :| 0 <= j < |b| && b[j] == a[i];
      var k :| 0 <= k < |b| && b[k].order == rb;
      assert b[k] in multiset(a);
      var l :| 0 <= l < |a| && a[l] == b[k];
    } else {
      assert |b| == |multiset(b)| == 0;
    }
  }

  /** Every year's grid without the row `id`; every other row as it was. */
  function WithoutRow<R>(grids: map<int, map<string, R>>, id: string): (r: map<int, map<string, R>>)
    ensures r.Keys == grids.Keys
    ensures forall y :: y in r ==> id !in r[y]
    ensures forall y, other :: y in r && other != id ==>
      (other in r[y] <==> other in grids[y]) && (other in r[y] ==> r[y][other] == grids[y][other])
  {
    map y | y in grids :: grids[y] - {id}
  }
}
