/**
 * The finance store (src/store/useFinanceStore.ts): an in-memory copy of the
 * category list and of the grids of the years loaded so far, kept beside a
 * `SimpleLocalAdapter`, plus an event bus. Actions write through the adapter
 * first and update memory only when the adapter succeeds; an adapter error is
 * recorded in `error` with the action's prefix and handed back to the caller.
 *
 * Callbacks are values with an identity (`handle`) and a flag saying whether
 * calling them throws; `delivered` and `consoleErrors` log what calling them
 * does, and `emitted` logs every event in emission order.
 */
module Store {
  import opened Wrappers
  import opened Text
  import opened Numbers
  import opened Sorting
  import opened Income
  import opened Totals
  import opened Seed
  import opened SimpleAdapter

  datatype IncomeEvent =
    | CategoryAdded(categoryId: string, categoryName: string)
    | CategoryRenamed(categoryId: string, categoryName: string)
    | CategoryDeleted(categoryId: string)
    | IncomeUpdated(year: int, categoryId: string, month: int, value: real)

  /** The `type` field of each event. */
  function EventType(e: IncomeEvent): (t: string)
    ensures e.IncomeUpdated? <==> t == "income/updated"
  {
    match e
    case CategoryAdded(_, _) => "income/category/added"
    case CategoryRenamed(_, _) => "income/category/renamed"
    case CategoryDeleted(_) => "income/category/deleted"
    case IncomeUpdated(_, _, _, _) => "income/updated"
  }

  datatype Callback = Callback(handle: nat, throws: bool)

  /** One call of a listener with an event. */
  datatype Delivery = Delivery(callback: Callback, event: IncomeEvent)

  /** `eventListeners.get(type)`, with no entry read as no listeners. */
  function ListenersFor(listeners: map<string, seq<Callback>>, eventType: string): seq<Callback> {
    if eventType in listeners then listeners[eventType] else []
  }

  /** `listeners.forEach(cb => cb(event))`: one call per listener, in registration order. */
  function Deliveries(ls: seq<Callback>, e: IncomeEvent): (r: seq<Delivery>)
    ensures |r| == |ls|
    ensures forall i :: 0 <= i < |ls| ==> r[i] == Delivery(ls[i], e)
  {
    seq(|ls|, i requires 0 <= i < |ls| => Delivery(ls[i], e))
  }

  /** The listeners whose call throws and is reported on the console. */
  function Throwing(ls: seq<Callback>): (r: seq<Callback>)
    ensures forall c :: c in r <==> c in ls && c.throws
    ensures |r| <= |ls|
  {
    if |ls| == 0 then []
    else (if ls[0].throws then [ls[0]] else []) + Throwing(ls[1..])
  }

  lemma {:induction false} ThrowingAppend(a: seq<Callback>, b: seq<Callback>)
    ensures Throwing(a + b) == Throwing(a) + Throwing(b)
  {
    if |a| > 0 {
      assert (a + b)[1..] == a[1..] + b;
      ThrowingAppend(a[1..], b);
    } else {
      assert a + b == b;
    }
  }

  /** Every event in `evs` delivered to every listener in `ls`, event by event. */
  function DeliveriesAll(ls: seq<Callback>, evs: seq<IncomeEvent>): seq<Delivery> {
    if |evs| == 0 then [] else DeliveriesAll(ls, evs[..|evs| - 1]) + Deliveries(ls, evs[|evs| - 1])
  }

  lemma {:induction false} DeliveriesAllAppend(ls: seq<Callback>, evs: seq<IncomeEvent>, e: IncomeEvent)
    ensures DeliveriesAll(ls, evs + [e]) == DeliveriesAll(ls, evs) + Deliveries(ls, e)
  {
    assert (evs + [e])[..|evs|] == evs;
  }

  /** The console reports of every event in `evs` delivered to every listener in `ls`, event by event. */
  function ThrowingAll(ls: seq<Callback>, evs: seq<IncomeEvent>): seq<Callback> {
    if |evs| == 0 then [] else ThrowingAll(ls, evs[..|evs| - 1]) + Throwing(ls)
  }

  lemma {:induction false} ThrowingAllAppend(ls: seq<Callback>, evs: seq<IncomeEvent>, e: IncomeEvent)
    ensures ThrowingAll(ls, evs + [e]) == ThrowingAll(ls, evs) + Throwing(ls)
  {
    assert (evs + [e])[..|evs|] == evs;
  }

  /** `listeners.indexOf(cb)`: the first position of `cb`, or -1. */
  function IndexOf(ls: seq<Callback>, cb: Callback): (r: int)
    ensures -1 <= r < |ls|
    ensures r >= 0 ==> ls[r] == cb && cb !in ls[..r]
    ensures r == -1 <==> cb !in ls
  {
    if |ls| == 0 then -1
    else if ls[0] == cb then 0
    else
      var j := IndexOf(ls[1..], cb);
      assert ls == [ls[0]] + ls[1..];
      if j == -1 then -1
      else
        assert ls[..j + 1] == [ls[0]] + ls[1..][..j];
        j + 1
  }

  /** `listeners.splice(listeners.indexOf(cb), 1)`: the first registration of `cb` removed, if any, the others kept in order. */
  function RemoveFirst(ls: seq<Callback>, cb: Callback): (r: seq<Callback>)
    ensures cb !in ls ==> r == ls
    ensures cb in ls ==> |r| == |ls| - 1 && multiset(r) == multiset(ls) - multiset{cb}
    ensures cb in ls ==> exists i :: 0 <= i < |ls| && ls[i] == cb && cb !in ls[..i] && r == ls[..i] + ls[i + 1..]
  {
    var i := IndexOf(ls, cb);
    if i < 0 then ls
    else
      assert ls == ls[..i] + [ls[i]] + ls[i + 1..];
      ls[..i] + ls[i + 1..]
  }

  /** Subscribing a new callback and calling the function `subscribe` returned gives back the listeners there were. */
  lemma {:induction false} UnsubscribeUndoesSubscribe(ls: seq<Callback>, cb: Callback)
    requires cb !in ls
    ensures RemoveFirst(ls + [cb], cb) == ls
  {
    var l := ls + [cb];
    assert l[|ls|] == cb;
    var i :| 0 <= i < |l| && l[i] == cb && cb !in l[..i] && RemoveFirst(l, cb) == l[..i] + l[i + 1..];
    assert forall j :: 0 <= j < |ls| ==> l[j] == ls[j];
    assert l[..|ls|] == ls;
  }

  /** `incomeCategories.map(cat => cat.id === id ? {...cat, name, updatedAt} : cat)`. */
  function RenameAll(cats: seq<Category>, id: string, name: string, now: int): (r: seq<Category>)
    ensures |r| == |cats|
    ensures forall i :: 0 <= i < |cats| ==>
      r[i] == if cats[i].id == id then cats[i].(name := name, updatedAt := now) else cats[i]
  {
    seq(|cats|, i requires 0 <= i < |cats| => if cats[i].id == id then cats[i].(name := name, updatedAt := now) else cats[i])
  }

  predicate UniqueIds(cats: seq<Category>) {
    forall i, j :: 0 <= i < j < |cats| ==> cats[i].id != cats[j].id
  }

  /**
   * With unique ids, renaming in memory (every match) and in storage (the
   * first match) agree; when no category has the id, memory is unchanged.
   */
  lemma {:induction false} RenameAllIsRenameAt(cats: seq<Category>, id: string, name: string, now: int)
    requires UniqueIds(cats)
    ensures HasId(cats, id) ==> RenameAll(cats, id, name, now) == RenameAt(cats, IndexOfId(cats, id), name, now)
    ensures !HasId(cats, id) ==> RenameAll(cats, id, name, now) == cats
  {
    var r := RenameAll(cats, id, name, now);
    if HasId(cats, id) {
      var k := IndexOfId(cats, id);
      var s := RenameAt(cats, k, name, now);
      forall i | 0 <= i < |cats| ensures r[i] == s[i] {
        if i != k {
          assert cats[i].id != id;
        }
      }
    } else {
      forall i | 0 <= i < |cats| ensures r[i] == cats[i] {
        assert cats[i].id != id;
      }
    }
  }

  /** Renaming in memory keeps every id and order, so a sorted list stays sorted. */
  lemma {:induction false} RenameAllKeepsSorted(cats: seq<Category>, id: string, name: string, now: int)
    requires SortedBy(cats, OrderBefore)
    ensures SortedBy(RenameAll(cats, id, name, now), OrderBefore)
  {
    var r := RenameAll(cats, id, name, now);
    forall i, j | 0 <= i < j < |r| ensures !OrderBefore(r[j], r[i]) {
      assert r[i].order == cats[i].order && r[j].order == cats[j].order;
    }
  }

  /** `state.incomeMatrix[year] || {}`. */
  function GridOf(grids: map<int, Grid>, year: int): Grid {
    if year in grids then grids[year] else map[]
  }

  /** The memory write of `setCell`: the one cell, holding `value` exactly as given. */
  function PutCell(g: Grid, id: string, month: int, value: real): (r: Grid)
    ensures r.Keys == g.Keys + {id}
    ensures AmountAt(r[id], month) == value
    ensures forall other :: other in g && other != id ==> r[other] == g[other]
    ensures forall k :: k != month ==> AmountAt(r[id], k) == AmountAt(AmountsOf(g, id), k)
  {
    g[id := AmountsOf(g, id)[month := value]]
  }

  /** The memory write of `bulkSetRow`: `{...row, ...valuesByMonth}`, every supplied key as given. */
  function PutRow(g: Grid, id: string, values: map<int, real>): (r: Grid)
    ensures r.Keys == g.Keys + {id}
    ensures forall k :: k in values ==> k in r[id] && r[id][k] == values[k]
    ensures forall k :: k !in values ==> AmountAt(r[id], k) == AmountAt(AmountsOf(g, id), k)
    ensures forall other :: other in g && other != id ==> r[other] == g[other]
  {
    g[id := AmountsOf(g, id) + values]
  }

  /** The events `bulkSetRow` emits for the months in `order`. */
  function UpdateEvents(year: int, id: string, values: map<int, real>, order: seq<int>): (r: seq<IncomeEvent>)
    requires forall i :: 0 <= i < |order| ==> order[i] in values
    ensures |r| == |order|
    ensures forall i :: 0 <= i < |order| ==> r[i] == IncomeUpdated(year, id, order[i], values[order[i]])
  {
    seq(|order|, i requires 0 <= i < |order| => IncomeUpdated(year, id, order[i], values[order[i]]))
  }

  lemma {:induction false} DistinctAppend(xs: seq<int>, x: int)
    requires Distinct(xs) && x !in xs
    ensures Distinct(xs + [x])
  {
  }

  lemma {:induction false} UpdateEventsAppend(year: int, id: string, values: map<int, real>, order: seq<int>, month: int)
    requires forall i :: 0 <= i < |order| ==> order[i] in values
    requires month in values
    ensures UpdateEvents(year, id, values, order + [month]) == UpdateEvents(year, id, values, order) + [IncomeUpdated(year, id, month, values[month])]
  {
  }

  /** Appending a category ordered after all stored ones keeps memory and storage in step. */
  lemma {:induction false} AppendNewKeepsSync(stored: seq<Category>, c: Category)
    requires forall i :: 0 <= i < |stored| ==> stored[i].order < c.order
    ensures SortByOrder(SortByOrder(stored) + [c]) == SortByOrder(stored) + [c]
  {
    var sorted := SortByOrder(stored);
    SortByOrderSorts(stored);
    forall i | 0 <= i < |sorted| ensures sorted[i].order < c.order {
      assert sorted[i] in multiset(stored);
    }
    AppendLastKeepsSorted(sorted, c);
  }

  /** With unique ids, renaming in memory and renaming in storage leave memory still the sorted stored list. */
  lemma {:induction false} RenameKeepsSync(stored: seq<Category>, renamed: seq<Category>, id: string, name: string, now: int)
    requires UniqueIds(SortByOrder(stored))
    requires 0 <= IndexOfId(SortByOrder(stored), id)
    requires renamed == RenameAt(SortByOrder(stored), IndexOfId(SortByOrder(stored), id), name, now)
    ensures RenameAll(SortByOrder(stored), id, name, now) == SortByOrder(renamed)
  {
    var sorted := SortByOrder(stored);
    SortByOrderSorts(stored);
    RenameAllIsRenameAt(sorted, id, name, now);
    RenameAtKeepsSorted(sorted, IndexOfId(sorted, id), name, now);
    SortWithSortedIsIdentity(renamed, OrderBefore);
  }

  class FinanceStore {
    const adapter: SimpleLocalAdapter
    var incomeCategories: seq<Category>
    var incomeMatrix: map<int, Grid>
    var selectedYear: int
    var isLoading: bool
    var error: Option<string>
    var listeners: map<string, seq<Callback>>
    /** Every event emitted, in order. */
    var emitted: seq<IncomeEvent>
    /** Every listener call, in order. */
    var delivered: seq<Delivery>
    /** The listeners whose call threw, reported by `console.error`. */
    var consoleErrors: seq<Callback>

    /** The initial state; `currentYear` is `new Date().getFullYear()`. */
    constructor(currentYear: int)
      ensures fresh(adapter) && adapter.categories == [] && adapter.grids == map[]
      ensures incomeCategories == [] && incomeMatrix == map[] && selectedYear == currentYear
      ensures !isLoading && error == None && listeners == map[]
      ensures emitted == [] && delivered == [] && consoleErrors == []
    {
      adapter := new SimpleLocalAdapter();
      incomeCategories := [];
      incomeMatrix := map[];
      selectedYear := currentYear;
      isLoading := false;
      error := None;
      listeners := map[];
      emitted := [];
      delivered := [];
      consoleErrors := [];
    }

    /** Memory holds the list the adapter would list. */
    predicate Synced()
      reads this, adapter
    {
      incomeCategories == SortByOrder(adapter.categories)
    }

    /** `subscribe(type, cb)`: `cb` is appended to the listeners of `type`. */
    method Subscribe(eventType: string, cb: Callback)
      modifies this
      ensures listeners == old(listeners)[eventType := ListenersFor(old(listeners), eventType) + [cb]]
      ensures incomeCategories == old(incomeCategories) && incomeMatrix == old(incomeMatrix) && error == old(error)
      ensures emitted == old(emitted) && delivered == old(delivered) && consoleErrors == old(consoleErrors)
      ensures selectedYear == old(selectedYear) && isLoading == old(isLoading)
    {
      listeners := listeners[eventType := ListenersFor(listeners, eventType) + [cb]];
    }

    /** The function `subscribe` returns: the first registration of `cb` under `type` is removed. */
    method Unsubscribe(eventType: string, cb: Callback)
      modifies this
      ensures eventType in old(listeners) ==>
        listeners == old(listeners)[eventType := RemoveFirst(old(listeners)[eventType], cb)]
      ensures eventType !in old(listeners) ==> listeners == old(listeners)
      ensures forall t :: t != eventType ==> ListenersFor(listeners, t) == ListenersFor(old(listeners), t)
      ensures incomeCategories == old(incomeCategories) && incomeMatrix == old(incomeMatrix) && error == old(error)
      ensures emitted == old(emitted) && delivered == old(delivered) && consoleErrors == old(consoleErrors)
      ensures selectedYear == old(selectedYear) && isLoading == old(isLoading)
    {
      if eventType in listeners {
        listeners := listeners[eventType := RemoveFirst(listeners[eventType], cb)];
      }
    }

    /**
     * `emit(event)`: each listener of the event's type is called in turn; a
     * listener that throws is reported and the rest are still called.
     */
    method Emit(e: IncomeEvent)
      modifies this
      ensures emitted == old(emitted) + [e]
      ensures delivered == old(delivered) + Deliveries(ListenersFor(listeners, EventType(e)), e)
      ensures consoleErrors == old(consoleErrors) + Throwing(ListenersFor(listeners, EventType(e)))
      ensures listeners == old(listeners) && incomeCategories == old(incomeCategories)
      ensures incomeMatrix == old(incomeMatrix) && error == old(error) && selectedYear == old(selectedYear)
      ensures isLoading == old(isLoading)
    {
      var ls := ListenersFor(listeners, EventType(e));
      var calls, errors := DeliverAll(ls, e);
      delivered := delivered + calls;
      consoleErrors := consoleErrors + errors;
      emitted := emitted + [e];
    }

    /** `loadCategories()`: memory takes the adapter's sorted list. */
    method LoadCategories()
      modifies this
      ensures incomeCategories == SortByOrder(adapter.categories) && Synced()
      ensures error == None && !isLoading
      ensures incomeMatrix == old(incomeMatrix) && listeners == old(listeners)
      ensures emitted == old(emitted) && delivered == old(delivered) && consoleErrors == old(consoleErrors)
      ensures selectedYear == old(selectedYear)
    {
      isLoading := true;
      error := None;
      incomeCategories := adapter.ListCategories();
      isLoading := false;
    }

    /** `loadMatrix(year)`: memory takes the stored grid of that year. */
    method LoadMatrix(year: int)
      modifies this
      ensures incomeMatrix == old(incomeMatrix)[year := AsGrid(YearGrid(adapter.grids, year))]
      ensures error == None && !isLoading
      ensures incomeCategories == old(incomeCategories) && listeners == old(listeners)
      ensures emitted == old(emitted) && delivered == old(delivered) && consoleErrors == old(consoleErrors)
      ensures selectedYear == old(selectedYear)
    {
      isLoading := true;
      error := None;
      var m := adapter.GetMatrix(year);
      incomeMatrix := incomeMatrix[year := AsGrid(m)];
      isLoading := false;
    }

    /** `setYear(year)`: select the year and load its grid. */
    method SetYear(year: int)
      modifies this
      ensures selectedYear == year
      ensures incomeMatrix == old(incomeMatrix)[year := AsGrid(YearGrid(adapter.grids, year))]
      ensures error == None && !isLoading
      ensures incomeCategories == old(incomeCategories) && listeners == old(listeners)
      ensures emitted == old(emitted) && delivered == old(delivered) && consoleErrors == old(consoleErrors)
    {
      selectedYear := year;
      LoadMatrix(year);
    }

    /** `createCategory(name)`: stored through the adapter, added to memory in order, announced. */
    method CreateCategory(name: string, id: string, now: int) returns (c: Category)
      modifies this, adapter
      ensures c == NewCategory(old(adapter.categories), name, id, now)
      ensures adapter.categories == SortByOrder(old(adapter.categories)) + [c] && adapter.grids == old(adapter.grids)
      ensures incomeCategories == SortByOrder(old(incomeCategories) + [c])
      ensures old(Synced()) ==> Synced()
      ensures emitted == old(emitted) + [CategoryAdded(c.id, c.name)]
      ensures var ls := ListenersFor(listeners, "income/category/added");
        delivered == old(delivered) + Deliveries(ls, CategoryAdded(c.id, c.name)) && consoleErrors == old(consoleErrors) + Throwing(ls)
      ensures error == None && incomeMatrix == old(incomeMatrix) && listeners == old(listeners)
      ensures selectedYear == old(selectedYear) && isLoading == old(isLoading)
    {
      error := None;
      c := adapter.CreateCategory(name, id, now);
      AddToMemory(c);
    }

    /** The in-memory half of `createCategory`: the list re-sorted with `c` in it, and the event. */
    method AddToMemory(c: Category)
      modifies this
      ensures incomeCategories == SortByOrder(old(incomeCategories) + [c])
      ensures emitted == old(emitted) + [CategoryAdded(c.id, c.name)]
      ensures var ls := ListenersFor(listeners, "income/category/added");
        delivered == old(delivered) + Deliveries(ls, CategoryAdded(c.id, c.name)) && consoleErrors == old(consoleErrors) + Throwing(ls)
      ensures error == old(error) && incomeMatrix == old(incomeMatrix) && listeners == old(listeners)
      ensures selectedYear == old(selectedYear) && isLoading == old(isLoading)
    {
      incomeCategories := SortByOrder(incomeCategories + [c]);
      Emit(CategoryAdded(c.id, c.name));
    }

    /**
     * `renameCategory(id, name)`: on success every in-memory category with
     * that id takes the name as given (untrimmed); on failure nothing changes
     * but `error`.
     */
    method RenameCategory(id: string, name: string, now: int) returns (o: Outcome<string>)
      modifies this, adapter
      ensures o.Fail? <==> !HasId(old(adapter.categories), id)
      ensures o.Fail? ==> o == Fail(NotFound) && error == Some("Error al renombrar categoría: " + NotFound)
      ensures o.Fail? ==> adapter.categories == old(adapter.categories) && incomeCategories == old(incomeCategories)
      ensures o.Fail? ==> emitted == old(emitted) && delivered == old(delivered) && consoleErrors == old(consoleErrors)
      ensures o.Pass? ==> error == None && incomeCategories == RenameAll(old(incomeCategories), id, name, now)
      ensures o.Pass? ==> var sorted := SortByOrder(old(adapter.categories));
        0 <= IndexOfId(sorted, id) && adapter.categories == RenameAt(sorted, IndexOfId(sorted, id), Trim(name), now)
      ensures o.Pass? ==> emitted == old(emitted) + [CategoryRenamed(id, name)]
      ensures o.Pass? ==> var ls := ListenersFor(listeners, "income/category/renamed");
        delivered == old(delivered) + Deliveries(ls, CategoryRenamed(id, name)) && consoleErrors == old(consoleErrors) + Throwing(ls)
      ensures selectedYear == old(selectedYear) && isLoading == old(isLoading)
      ensures o.Pass? && old(Synced()) && UniqueIds(old(incomeCategories)) && Trim(name) == name ==> Synced()
      ensures adapter.grids == old(adapter.grids) && incomeMatrix == old(incomeMatrix) && listeners == old(listeners)
    {
      ghost var stored := adapter.categories;
      ghost var keepsSync := Synced() && UniqueIds(incomeCategories) && Trim(name) == name;
      error := None;
      o := adapter.RenameCategory(id, name, now);
      if o.Fail? {
        error := Some("Error al renombrar categoría: " + o.error);
        return;
      }
      RenameInMemory(id, name, now);
      if keepsSync {
        RenameKeepsSync(stored, adapter.categories, id, name, now);
      }
    }

    /** The in-memory half of a successful `renameCategory`: every match renamed, and the event. */
    method RenameInMemory(id: string, name: string, now: int)
      modifies this
      ensures incomeCategories == RenameAll(old(incomeCategories), id, name, now)
      ensures emitted == old(emitted) + [CategoryRenamed(id, name)]
      ensures var ls := ListenersFor(listeners, "income/category/renamed");
        delivered == old(delivered) + Deliveries(ls, CategoryRenamed(id, name)) && consoleErrors == old(consoleErrors) + Throwing(ls)
      ensures error == old(error) && incomeMatrix == old(incomeMatrix) && listeners == old(listeners)
      ensures selectedYear == old(selectedYear) && isLoading == old(isLoading)
    {
      incomeCategories := RenameAll(incomeCategories, id, name, now);
      Emit(CategoryRenamed(id, name));
    }

    /**
     * `deleteCategory(id)`: on success the category leaves memory and its row
     * leaves every cached year; storage loses the row of the current year only.
     */
    method DeleteCategory(id: string, currentYear: int) returns (o: Outcome<string>)
      modifies this, adapter
      ensures o.Fail? <==> !HasId(old(adapter.categories), id)
      ensures o.Fail? ==> o == Fail(NotFound) && error == Some("Error al eliminar categoría: " + NotFound)
      ensures o.Fail? ==> adapter.categories == old(adapter.categories) && adapter.grids == old(adapter.grids)
      ensures o.Fail? ==> incomeCategories == old(incomeCategories) && incomeMatrix == old(incomeMatrix) && emitted == old(emitted)
      ensures o.Fail? ==> delivered == old(delivered) && consoleErrors == old(consoleErrors)
      ensures o.Pass? ==> error == None && incomeCategories == WithoutId(old(incomeCategories), id)
      ensures o.Pass? ==> incomeMatrix == WithoutRow(old(incomeMatrix), id)
      ensures o.Pass? ==> adapter.grids == old(adapter.grids)[currentYear := YearGrid(old(adapter.grids), currentYear) - {id}]
      ensures o.Pass? ==> adapter.categories == WithoutId(SortByOrder(old(adapter.categories)), id)
      ensures o.Pass? ==> emitted == old(emitted) + [CategoryDeleted(id)]
      ensures o.Pass? ==> var ls := ListenersFor(listeners, "income/category/deleted");
        delivered == old(delivered) + Deliveries(ls, CategoryDeleted(id)) && consoleErrors == old(consoleErrors) + Throwing(ls)
      ensures old(Synced()) ==> Synced()
      ensures listeners == old(listeners) && selectedYear == old(selectedYear) && isLoading == old(isLoading)
    {
      error := None;
      o := adapter.DeleteCategory(id, currentYear);
      if o.Fail? {
        error := Some("Error al eliminar categoría: " + o.error);
        return;
      }
      DeleteFromMemory(id);
      SortWithSortedIsIdentity(adapter.categories, OrderBefore);
    }

    /** The in-memory half of a successful `deleteCategory`: the category and its rows gone, and the event. */
    method DeleteFromMemory(id: string)
      modifies this
      ensures incomeCategories == WithoutId(old(incomeCategories), id)
      ensures incomeMatrix == WithoutRow(old(incomeMatrix), id)
      ensures emitted == old(emitted) + [CategoryDeleted(id)]
      ensures var ls := ListenersFor(listeners, "income/category/deleted");
        delivered == old(delivered) + Deliveries(ls, CategoryDeleted(id)) && consoleErrors == old(consoleErrors) + Throwing(ls)
      ensures error == old(error) && listeners == old(listeners)
      ensures selectedYear == old(selectedYear) && isLoading == old(isLoading)
    {
      incomeCategories := WithoutId(incomeCategories, id);
      incomeMatrix := WithoutRow(incomeMatrix, id);
      Emit(CategoryDeleted(id));
    }

    /**
     * `setCell(...)`: storage takes `max(0, round(value))`, memory takes
     * `value` as given; one `income/updated` event carries `value`.
     */
    method SetCell(year: int, categoryId: string, month: int, value: real)
      modifies this, adapter
      ensures adapter.grids == old(adapter.grids)[year := SetCellIn(YearGrid(old(adapter.grids), year), categoryId, month, ClampRound(value))]
      ensures incomeMatrix == old(incomeMatrix)[year := PutCell(GridOf(old(incomeMatrix), year), categoryId, month, value)]
      ensures emitted == old(emitted) + [IncomeUpdated(year, categoryId, month, value)]
      ensures var ls := ListenersFor(listeners, "income/updated");
        delivered == old(delivered) + Deliveries(ls, IncomeUpdated(year, categoryId, month, value)) && consoleErrors == old(consoleErrors) + Throwing(ls)
      ensures error == None && incomeCategories == old(incomeCategories) && adapter.categories == old(adapter.categories)
      ensures listeners == old(listeners) && selectedYear == old(selectedYear) && isLoading == old(isLoading)
    {
      error := None;
      adapter.SetCell(year, categoryId, month, value);
      incomeMatrix := incomeMatrix[year := PutCell(GridOf(incomeMatrix, year), categoryId, month, value)];
      Emit(IncomeUpdated(year, categoryId, month, value));
    }

    /**
     * `bulkSetRow(...)`: storage takes the clamped months 1..12, memory every
     * supplied key as given; one `income/updated` event per supplied key, in
     * the order `order` returns.
     */
    method BulkSetRow(year: int, categoryId: string, valuesByMonth: map<int, real>) returns (order: seq<int>)
      modifies this, adapter
      ensures var m := YearGrid(old(adapter.grids), year);
        adapter.grids == old(adapter.grids)[year := m[categoryId := MergeMonths(RowOf(m, categoryId), valuesByMonth)]]
      ensures incomeMatrix == old(incomeMatrix)[year := PutRow(GridOf(old(incomeMatrix), year), categoryId, valuesByMonth)]
      ensures forall i :: 0 <= i < |order| ==> order[i] in valuesByMonth
      ensures forall k :: k in valuesByMonth ==> k in order
      ensures |order| == |valuesByMonth.Keys| && Distinct(order)
      ensures emitted == old(emitted) + UpdateEvents(year, categoryId, valuesByMonth, order)
      ensures delivered == old(delivered) + DeliveriesAll(ListenersFor(listeners, "income/updated"), UpdateEvents(year, categoryId, valuesByMonth, order))
      ensures consoleErrors == old(consoleErrors) + ThrowingAll(ListenersFor(listeners, "income/updated"), UpdateEvents(year, categoryId, valuesByMonth, order))
      ensures error == None && incomeCategories == old(incomeCategories) && adapter.categories == old(adapter.categories)
      ensures listeners == old(listeners) && selectedYear == old(selectedYear) && isLoading == old(isLoading)
    {
      error := None;
      ghost var store: object := this;
      assert store != adapter;
      adapter.BulkSetRow(year, categoryId, valuesByMonth);
      incomeMatrix := incomeMatrix[year := PutRow(GridOf(incomeMatrix, year), categoryId, valuesByMonth)];
      order := EmitUpdates(year, categoryId, valuesByMonth);
    }

    /** The `for (const [monthStr, value] of Object.entries(valuesByMonth))` loop of `bulkSetRow`: one event per key. */
    method EmitUpdates(year: int, categoryId: string, valuesByMonth: map<int, real>) returns (order: seq<int>)
      modifies this
      ensures forall i :: 0 <= i < |order| ==> order[i] in valuesByMonth
      ensures forall k :: k in valuesByMonth ==> k in order
      ensures |order| == |valuesByMonth.Keys| && Distinct(order)
      ensures emitted == old(emitted) + UpdateEvents(year, categoryId, valuesByMonth, order)
      ensures delivered == old(delivered) + DeliveriesAll(ListenersFor(listeners, "income/updated"), UpdateEvents(year, categoryId, valuesByMonth, order))
      ensures consoleErrors == old(consoleErrors) + ThrowingAll(ListenersFor(listeners, "income/updated"), UpdateEvents(year, categoryId, valuesByMonth, order))
      ensures listeners == old(listeners) && incomeMatrix == old(incomeMatrix) && error == old(error)
      ensures incomeCategories == old(incomeCategories) && selectedYear == old(selectedYear) && isLoading == old(isLoading)
    {
      order := EntryKeys(valuesByMonth.Keys);
      EmitAll(UpdateEvents(year, categoryId, valuesByMonth, order));
    }

    /** One `emit` per event, in order; every event is an `income/updated` one. */
    method EmitAll(evs: seq<IncomeEvent>)
      requires forall i :: 0 <= i < |evs| ==> EventType(evs[i]) == "income/updated"
      modifies this
      ensures emitted == old(emitted) + evs
      ensures delivered == old(delivered) + DeliveriesAll(ListenersFor(listeners, "income/updated"), evs)
      ensures consoleErrors == old(consoleErrors) + ThrowingAll(ListenersFor(listeners, "income/updated"), evs)
      ensures listeners == old(listeners) && incomeMatrix == old(incomeMatrix) && error == old(error)
      ensures incomeCategories == old(incomeCategories) && selectedYear == old(selectedYear) && isLoading == old(isLoading)
    {
      ghost var ls := ListenersFor(listeners, "income/updated");
      ghost var done: seq<IncomeEvent> := [];
      var i := 0;
      while i < |evs|
        invariant 0 <= i <= |evs| && done == evs[..i]
        invariant emitted == old(emitted) + done
        invariant delivered == old(delivered) + DeliveriesAll(ls, done)
        invariant consoleErrors == old(consoleErrors) + ThrowingAll(ls, done)
        invariant listeners == old(listeners) && incomeMatrix == old(incomeMatrix)
        invariant error == old(error) && incomeCategories == old(incomeCategories)
        invariant selectedYear == old(selectedYear) && isLoading == old(isLoading)
      {
        var e := evs[i];
        assert EventType(e) == "income/updated";
        Emit(e);
        EmitAllStep(old(emitted), old(delivered), old(consoleErrors), ls, done, e);
        done := done + [e];
        i := i + 1;
        assert evs[..i] == done;
      }
      assert evs[..|evs|] == evs;
    }

    /** `initialize()`: the adapter seeds an empty store, then categories and the selected year's grid are loaded. */
    method Initialize(ids: seq<string>, now: int, currentYear: int, currentMonth: int, amounts: seq<int>)
      requires |ids| == |SeedNames| && |amounts| == 3 * |SeedNames|
      requires forall i :: 0 <= i < |amounts| ==> 100000 <= amounts[i] < 600000
      modifies this, adapter
      ensures old(adapter.categories) != [] ==> adapter.categories == old(adapter.categories) && adapter.grids == old(adapter.grids)
      ensures old(adapter.categories) == [] ==> adapter.categories == SeedCategories(ids, now, 5)
      ensures old(adapter.categories) == [] ==>
        adapter.grids == old(adapter.grids)[currentYear := SeedGrid(YearGrid(old(adapter.grids), currentYear), ids, currentMonth, amounts, 5)]
      ensures Synced() && incomeMatrix == old(incomeMatrix)[selectedYear := AsGrid(YearGrid(adapter.grids, selectedYear))]
      ensures error == None && !isLoading && selectedYear == old(selectedYear) && listeners == old(listeners)
      ensures emitted == old(emitted) && delivered == old(delivered) && consoleErrors == old(consoleErrors)
    {
      error := None;
      adapter.Initialize(ids, now, currentYear, currentMonth, amounts);
      LoadCategories();
      LoadMatrix(selectedYear);
    }
  }

  /** The loop of `emit`: every listener called in turn, the throwing ones collected as they throw. */
  method DeliverAll(ls: seq<Callback>, e: IncomeEvent) returns (calls: seq<Delivery>, errors: seq<Callback>)
    ensures calls == Deliveries(ls, e) && errors == Throwing(ls)
  {
    calls, errors := [], [];
    var i := 0;
    while i < |ls|
      invariant 0 <= i <= |ls|
      invariant calls == Deliveries(ls[..i], e) && errors == Throwing(ls[..i])
    {
      calls := calls + [Delivery(ls[i], e)];
      assert Deliveries(ls[..i + 1], e) == Deliveries(ls[..i], e) + [Delivery(ls[i], e)];
      ThrowingAppend(ls[..i], [ls[i]]);
      assert ls[..i + 1] == ls[..i] + [ls[i]];
      if ls[i].throws {
        errors := errors + [ls[i]];
      }
      i := i + 1;
    }
    assert ls[..|ls|] == ls;
  }

  /** One more `emit` in the loop of `EmitAll` extends the three logs by that event's share. */
  lemma {:induction false} EmitAllStep(emitted: seq<IncomeEvent>, delivered: seq<Delivery>, consoleErrors: seq<Callback>,
                                       ls: seq<Callback>, done: seq<IncomeEvent>, e: IncomeEvent)
    ensures emitted + done + [e] == emitted + (done + [e])
    ensures delivered + DeliveriesAll(ls, done) + Deliveries(ls, e) == delivered + DeliveriesAll(ls, done + [e])
    ensures consoleErrors + ThrowingAll(ls, done) + Throwing(ls) == consoleErrors + ThrowingAll(ls, done + [e])
  {
    DeliveriesAllAppend(ls, done, e);
    ThrowingAllAppend(ls, done, e);
    LogAppend(delivered, DeliveriesAll(ls, done), Deliveries(ls, e));
    LogAppend(consoleErrors, ThrowingAll(ls, done), Throwing(ls));
    LogAppend(emitted, done, [e]);
  }

  /** Appending to a log in two steps is appending once. */
  lemma {:induction false} LogAppend<T>(log: seq<T>, a: seq<T>, b: seq<T>)
    ensures log + a + b == log + (a + b)
  {
  }

  /** The keys of `Object.entries(o)`, each once, in some order. */
  method EntryKeys(keys: set<int>) returns (order: seq<int>)
    ensures forall i :: 0 <= i < |order| ==> order[i] in keys
    ensures forall k :: k in keys ==> k in order
    ensures |order| == |keys| && Distinct(order)
  {
    order := [];
    var pending := keys;
    while pending != {}
      invariant pending <= keys
      invariant forall i :: 0 <= i < |order| ==> order[i] in keys && order[i] !in pending
      invariant forall k :: k in keys ==> (k in order <==> k !in pending)
      invariant Distinct(order)
      invariant |order| + |pending| == |keys|
      decreases |pending|
    {
      var k := Choose(pending);
      DistinctAppend(order, k);
      order := order + [k];
      pending := pending - {k};
    }
  }
}
