/**
 * `LocalAdapter` (adapters/income/localAdapter.ts): local storage behind two
 * in-memory caches. The category cache, once filled, stands for the stored
 * list sorted by `order`; a cached year's grid stands for the stored grid of
 * that year. Every write goes to storage and cache together. `Valid()` is that
 * agreement; every operation keeps it.
 *
 * Storage is the two fields `storedCategories` and `storedGrids`. Generated
 * ids, clock readings and the random demo amounts are parameters.
 */
module Local {
  import opened Wrappers
  import opened Text
  import opened Numbers
  import opened Sorting
  import opened Income
  import opened Seed

  /** `AdapterError(message, code)`. */
  datatype AdapterError = AdapterError(message: string, code: string)

  const NotFoundError := AdapterError("Categoría no encontrada", "CATEGORY_NOT_FOUND")

  /** The error `reorderCategories` raises for the first unknown id. */
  function UnknownIdError(id: string): AdapterError {
    AdapterError("Categoría " + id + " no encontrada", "CATEGORY_NOT_FOUND")
  }

  /** The first id of `order` that no category has, if any. */
  function FirstUnknown(cats: seq<Category>, order: seq<string>): (r: Option<string>)
    ensures r.None? <==> forall i :: 0 <= i < |order| ==> HasId(cats, order[i])
    ensures r.Some? ==> exists i :: 0 <= i < |order| && order[i] == r.value && !HasId(cats, r.value) &&
                          forall j :: 0 <= j < i ==> HasId(cats, order[j])
  {
    if |order| == 0 then None
    else if !HasId(cats, order[0]) then Some(order[0])
    else
      var r := FirstUnknown(cats, order[1..]);
      if r.Some? then
        var i :| 0 <= i < |order[1..]| && order[1..][i] == r.value && !HasId(cats, r.value) &&
                 forall j :: 0 <= j < i ==> HasId(cats, order[1..][j]);
        assert order[i + 1] == r.value;
        assert forall j :: 0 <= j < i + 1 ==> HasId(cats, order[j]) by {
          forall j | 0 <= j < i + 1 ensures HasId(cats, order[j]) {
            if j > 0 {
              assert order[j] == order[1..][j - 1];
            }
          }
        }
        r
      else
        assert forall i :: 0 <= i < |order| ==> HasId(cats, order[i]) by {
          forall i | 0 <= i < |order| ensures HasId(cats, order[i]) {
            if i > 0 {
              assert order[i] == order[1..][i - 1];
            }
          }
        }
        r
  }

  /**
   * `order.map((id, index) => ({...categories.find(c => c.id === id), order: index, updatedAt}))`:
   * exactly the listed ids, in the listed order, numbered from 0.
   */
  function Reordered(cats: seq<Category>, order: seq<string>, now: int): (r: seq<Category>)
    requires forall i :: 0 <= i < |order| ==> HasId(cats, order[i])
    ensures |r| == |order|
    ensures forall i :: 0 <= i < |order| ==>
      r[i] == cats[IndexOfId(cats, order[i])].(order := i, updatedAt := now) && r[i].id == order[i]
  {
    seq(|order|, i requires 0 <= i < |order| => cats[IndexOfId(cats, order[i])].(order := i, updatedAt := now))
  }

  /** The reordered list is sorted, and holds only categories whose id was listed. */
  lemma {:induction false} ReorderedSorted(cats: seq<Category>, order: seq<string>, now: int)
    requires forall i :: 0 <= i < |order| ==> HasId(cats, order[i])
    ensures SortedBy(Reordered(cats, order, now), OrderBefore)
    ensures SortByOrder(Reordered(cats, order, now)) == Reordered(cats, order, now)
    ensures forall c :: c in Reordered(cats, order, now) ==> c.id in order
  {
    var r := Reordered(cats, order, now);
    assert forall i, j :: 0 <= i < j < |r| ==> !OrderBefore(r[j], r[i]);
    SortWithSortedIsIdentity(r, OrderBefore);
  }

  /** A key of local storage, in the order `localStorage.key(i)` lists them. */
  datatype StorageKey = CategoriesKey | MatrixKey(year: int) | OtherKey(name: string)

  /** `key.startsWith('finance_income_matrix')`; other applications' keys are taken not to start with it. */
  predicate IsMatrixKey(k: StorageKey) {
    k.MatrixKey?
  }

  /** The keys left after removing every grid key. */
  function WithoutMatrixKeys(keys: seq<StorageKey>): (r: seq<StorageKey>)
    ensures |r| <= |keys|
    ensures forall i :: 0 <= i < |r| ==> !IsMatrixKey(r[i])
  {
    if |keys| == 0 then []
    else (if IsMatrixKey(keys[0]) then [] else [keys[0]]) + WithoutMatrixKeys(keys[1..])
  }

  /** Exactly the keys that are not grid keys survive the filter. */
  lemma {:induction false} WithoutMatrixKeysMembers(keys: seq<StorageKey>)
    ensures forall k :: k in WithoutMatrixKeys(keys) <==> k in keys && !IsMatrixKey(k)
    decreases |keys|
  {
    if |keys| > 0 {
      WithoutMatrixKeysMembers(keys[1..]);
      assert keys == [keys[0]] + keys[1..];
    }
  }

  /** Removing the entry at `i` leaves the entries before it in place and shifts the rest down by one. */
  lemma {:induction false} SpliceOut<T>(r: seq<T>, i: int)
    requires 0 <= i < |r|
    ensures (r[..i] + r[i + 1..])[..i] == r[..i]
    ensures (r[..i] + r[i + 1..])[i..] == r[i + 1..]
    ensures r[..i + 1] == r[..i] + [r[i]]
  {
  }

  /**
   * What the removal loop of `reset()` leaves: removing key `i` shifts the
   * next key down to index `i`, and the loop then moves on to `i + 1`, so
   * the key right after each removed one is never looked at.
   */
  function SweepAsWritten(keys: seq<StorageKey>): (r: seq<StorageKey>)
    ensures |r| <= |keys|
    decreases |keys|
  {
    if |keys| == 0 then []
    else if IsMatrixKey(keys[0]) then
      if |keys| == 1 then [] else [keys[1]] + SweepAsWritten(keys[2..])
    else [keys[0]] + SweepAsWritten(keys[1..])
  }

  /** The loop as written only ever removes keys, and on a list without grid keys it removes none. */
  lemma SweepAsWrittenOnlyRemoves(keys: seq<StorageKey>)
    ensures forall k :: k in SweepAsWritten(keys) ==> k in keys
    ensures (forall i :: 0 <= i < |keys| ==> !IsMatrixKey(keys[i])) ==> SweepAsWritten(keys) == keys
  {
    SweepAsWrittenSubset(keys);
    if forall i :: 0 <= i < |keys| ==> !IsMatrixKey(keys[i]) {
      SweepAsWrittenKeepsPlain(keys);
    }
  }

  /** Every key the loop as written leaves was in the list. */
  lemma {:induction false} SweepAsWrittenSubset(keys: seq<StorageKey>)
    ensures forall k :: k in SweepAsWritten(keys) ==> k in keys
    decreases |keys|
  {
    if |keys| > 1 && IsMatrixKey(keys[0]) {
      SweepAsWrittenSubset(keys[2..]);
      forall k | k in SweepAsWritten(keys) ensures k in keys {
        if k != keys[1] {
          assert k in keys[2..];
        }
      }
    } else if |keys| > 0 && !IsMatrixKey(keys[0]) {
      SweepAsWrittenSubset(keys[1..]);
      forall k | k in SweepAsWritten(keys) ensures k in keys {
        if k != keys[0] {
          assert k in keys[1..];
        }
      }
    }
  }

  /** On a list without grid keys the loop as written removes nothing. */
  lemma {:induction false} SweepAsWrittenKeepsPlain(keys: seq<StorageKey>)
    requires forall i :: 0 <= i < |keys| ==> !IsMatrixKey(keys[i])
    ensures SweepAsWritten(keys) == keys
  {
    if |keys| > 0 {
      assert !IsMatrixKey(keys[0]);
      assert forall i :: 0 <= i < |keys[1..]| ==> !IsMatrixKey(keys[1..][i]);
      SweepAsWrittenKeepsPlain(keys[1..]);
      assert keys == [keys[0]] + keys[1..];
    }
  }

  /** The loop of `reset()` as written: `for (i = 0; i < localStorage.length; i++) if (matches) removeItem(key(i))`. */
  method RemoveMatrixKeysAsWritten(keys: seq<StorageKey>) returns (r: seq<StorageKey>)
    ensures r == SweepAsWritten(keys)
  {
    r := keys;
    var i := 0;
    while i < |r|
      invariant (i <= |r| && SweepAsWritten(keys) == r[..i] + SweepAsWritten(r[i..])) || (i == |r| + 1 && SweepAsWritten(keys) == r)
      decreases |r| + 1 - i
    {
      if IsMatrixKey(r[i]) {
        SweepRemoveStep(SweepAsWritten(keys), r, i);
        r := r[..i] + r[i + 1..];
      } else {
        SweepKeepStep(SweepAsWritten(keys), r, i);
      }
      i := i + 1;
    }
    if i == |r| {
      assert r[i..] == [];
      assert r[..i] == r;
    }
  }

  /** Removing the grid key at `i` keeps the loop's invariant at `i + 1`. */
  lemma {:induction false} SweepRemoveStep(target: seq<StorageKey>, r: seq<StorageKey>, i: int)
    requires 0 <= i < |r| && IsMatrixKey(r[i])
    requires target == r[..i] + SweepAsWritten(r[i..])
    ensures var r' := r[..i] + r[i + 1..];
      (i + 1 <= |r'| && target == r'[..i + 1] + SweepAsWritten(r'[i + 1..])) || (i + 1 == |r'| + 1 && target == r')
  {
    var r' := r[..i] + r[i + 1..];
    if i + 1 < |r| {
      var tail := SweepAsWritten(r[i + 2..]);
      calc {
        target;
        { SweepAsWrittenStep(r, i); }
        r[..i] + ([r[i + 1]] + tail);
        (r[..i] + [r[i + 1]]) + tail;
        { RemoveAtSlices(r, i); }
        r'[..i + 1] + SweepAsWritten(r'[i + 1..]);
      }
    } else {
      assert target == r' by {
        SweepAsWrittenStep(r, i);
        assert r' == r[..i];
        assert target == r[..i] + [];
      }
    }
  }

  /** Passing over a key that is kept keeps the loop's invariant at `i + 1`. */
  lemma {:induction false} SweepKeepStep(target: seq<StorageKey>, r: seq<StorageKey>, i: int)
    requires 0 <= i < |r| && !IsMatrixKey(r[i])
    requires target == r[..i] + SweepAsWritten(r[i..])
    ensures target == r[..i + 1] + SweepAsWritten(r[i + 1..])
  {
    var tail := SweepAsWritten(r[i + 1..]);
    SweepAsWrittenStep(r, i);
    assert r[..i + 1] == r[..i] + [r[i]];
    assert target == r[..i] + ([r[i]] + tail);
    assert r[..i] + ([r[i]] + tail) == (r[..i] + [r[i]]) + tail;
  }

  /** One step of the loop as written: a grid key goes and the key after it is kept unexamined. */
  lemma {:induction false} SweepAsWrittenStep(r: seq<StorageKey>, i: int)
    requires 0 <= i < |r|
    ensures SweepAsWritten(r[i..]) ==
      if !IsMatrixKey(r[i]) then [r[i]] + SweepAsWritten(r[i + 1..])
      else if i + 1 < |r| then [r[i + 1]] + SweepAsWritten(r[i + 2..])
      else []
  {
    var rest := r[i..];
    assert rest[0] == r[i];
    assert rest[1..] == r[i + 1..];
    if i + 1 < |r| {
      assert rest[1] == r[i + 1];
      assert rest[2..] == r[i + 2..];
    }
  }

  /** Removing the key at `i`: the first `i + 1` keys left end with the one that followed it, and the rest are those after that. */
  lemma RemoveAtSlices(r: seq<StorageKey>, i: int)
    requires 0 <= i && i + 1 < |r|
    ensures var r' := r[..i] + r[i + 1..];
      r'[..i + 1] == r[..i] + [r[i + 1]] && r'[i + 1..] == r[i + 2..]
  {
    var r' := r[..i] + r[i + 1..];
    assert r'[..i + 1] == r[..i] + [r[i + 1]];
    assert r'[i + 1..] == r[i + 2..];
  }

  /** Two grid keys in a row: the second survives the loop as written. */
  lemma {:induction false} SweepAsWrittenSkipsKey()
    ensures SweepAsWritten([MatrixKey(2024), MatrixKey(2025)]) == [MatrixKey(2025)]
    ensures WithoutMatrixKeys([MatrixKey(2024), MatrixKey(2025)]) == []
  {
    var keys := [MatrixKey(2024), MatrixKey(2025)];
    assert keys[2..] == [];
    assert keys[1..] == [MatrixKey(2025)];
    assert [MatrixKey(2025)][1..] == [];
  }

  /** One step of the filter: a grid key goes, any other key stays in front. */
  lemma {:induction false} WithoutMatrixKeysStep(r: seq<StorageKey>, i: int)
    requires 0 <= i < |r|
    ensures WithoutMatrixKeys(r[i..]) == (if IsMatrixKey(r[i]) then [] else [r[i]]) + WithoutMatrixKeys(r[i + 1..])
  {
    assert r[i..][1..] == r[i + 1..];
  }

  /** The loop with the index advanced only past keys it keeps: every grid key goes, all other keys stay in order. */
  method RemoveMatrixKeys(keys: seq<StorageKey>) returns (r: seq<StorageKey>)
    ensures r == WithoutMatrixKeys(keys)
  {
    r := keys;
    var i := 0;
    while i < |r|
      invariant 0 <= i <= |r|
      invariant WithoutMatrixKeys(keys) == r[..i] + WithoutMatrixKeys(r[i..])
      decreases |r| - i
    {
      WithoutMatrixKeysStep(r, i);
      SpliceOut(r, i);
      if IsMatrixKey(r[i]) {
        r := r[..i] + r[i + 1..];
      } else {
        i := i + 1;
      }
    }
    assert r[..i] == r && r[i..] == [];
  }

  /** `localStorage.removeItem(CATEGORIES)`: every registration of the categories key dropped. */
  function WithoutCategoriesKey(keys: seq<StorageKey>): (r: seq<StorageKey>)
    ensures forall k :: k in r <==> k in keys && k != CategoriesKey
  {
    if |keys| == 0 then []
    else (if keys[0] == CategoriesKey then [] else [keys[0]]) + WithoutCategoriesKey(keys[1..])
  }

  /** The cached grids with the row `id` gone from every year not in `pending`. */
  function PurgedExcept(cache: map<int, Matrix>, pending: set<int>, id: string): (r: map<int, Matrix>)
    ensures r.Keys == cache.Keys
    ensures pending == {} ==> r == WithoutRow(cache, id)
  {
    map y | y in cache :: if y in pending then cache[y] else cache[y] - {id}
  }

  class LocalAdapter {
    var categoriesCache: Option<seq<Category>>
    var matrixCache: map<int, Matrix>
    var isInitialized: bool
    /** What local storage holds under the categories key (`[]` when nothing). */
    var storedCategories: seq<Category>
    /** What local storage holds under each year's grid key. */
    var storedGrids: map<int, Matrix>

    /** The caches agree with storage. */
    predicate Valid()
      reads this
    {
      && (categoriesCache.Some? ==> categoriesCache.value == SortByOrder(storedCategories))
      && (forall y :: y in matrixCache ==> matrixCache[y] == YearGrid(storedGrids, y))
    }

    /** A fresh adapter over whatever local storage already holds. */
    constructor(categories: seq<Category>, grids: map<int, Matrix>)
      ensures Valid() && !isInitialized
      ensures categoriesCache == None && matrixCache == map[]
      ensures storedCategories == categories && storedGrids == grids
    {
      categoriesCache := None;
      matrixCache := map[];
      isInitialized := false;
      storedCategories := categories;
      storedGrids := grids;
    }

    /** `listCategories()`: a copy of the stored list sorted by `order`, from the cache when it is filled. */
    method ListCategories() returns (r: seq<Category>)
      requires Valid()
      modifies this
      ensures Valid() && r == SortByOrder(storedCategories) && categoriesCache == Some(r)
      ensures multiset(r) == multiset(storedCategories) && SortedBy(r, OrderBefore)
      ensures storedCategories == old(storedCategories) && storedGrids == old(storedGrids)
      ensures matrixCache == old(matrixCache) && isInitialized == old(isInitialized)
    {
      SortByOrderSorts(storedCategories);
      if categoriesCache.Some? {
        return categoriesCache.value;
      }
      r := SortByOrder(storedCategories);
      categoriesCache := Some(r);
    }

    /** `saveCategories(list)`: storage and cache both take the list. */
    method SaveCategories(list: seq<Category>)
      requires Valid() && SortByOrder(list) == list
      modifies this
      ensures Valid() && storedCategories == list && categoriesCache == Some(list)
      ensures storedGrids == old(storedGrids) && matrixCache == old(matrixCache) && isInitialized == old(isInitialized)
    {
      storedCategories := list;
      categoriesCache := Some(list);
    }

    /** `createCategory(name)`: the sorted list plus one category ordered after all others. */
    method CreateCategory(name: string, id: string, now: int) returns (c: Category)
      requires Valid()
      modifies this
      ensures Valid()
      ensures c == NewCategory(old(storedCategories), name, id, now)
      ensures storedCategories == SortByOrder(old(storedCategories)) + [c] && SortedBy(storedCategories, OrderBefore)
      ensures categoriesCache == Some(storedCategories)
      ensures storedGrids == old(storedGrids) && matrixCache == old(matrixCache) && isInitialized == old(isInitialized)
    {
      var categories := ListCategories();
      c := NewCategory(categories, name, id, now);
      OrderOfNewIsPermutationInvariant(categories, storedCategories);
      AppendLastKeepsSorted(categories, c);
      SaveCategories(categories + [c]);
    }

    /** `renameCategory(id, name)`: the category takes the trimmed name; an unknown id fails with `CATEGORY_NOT_FOUND` and saves nothing. */
    method RenameCategory(id: string, name: string, now: int) returns (o: Outcome<AdapterError>)
      requires Valid()
      modifies this
      ensures Valid()
      ensures o.Fail? <==> !HasId(old(storedCategories), id)
      ensures o.Fail? ==> o.error == NotFoundError && storedCategories == old(storedCategories)
      ensures o.Pass? ==>
        var sorted := SortByOrder(old(storedCategories));
        var i := IndexOfId(sorted, id);
        0 <= i && storedCategories == RenameAt(sorted, i, Trim(name), now)
      ensures categoriesCache.Some?
      ensures storedGrids == old(storedGrids) && matrixCache == old(matrixCache) && isInitialized == old(isInitialized)
    {
      var categories := ListCategories();
      HasIdPermutation(categories, storedCategories, id);
      var i := IndexOfId(categories, id);
      if i == -1 {
        return Fail(NotFoundError);
      }
      var renamed := RenameAt(categories, i, Trim(name), now);
      RenameAtKeepsSorted(categories, i, Trim(name), now);
      SortWithSortedIsIdentity(renamed, OrderBefore);
      SaveCategories(renamed);
      o := Pass;
    }

    /**
     * `deleteCategory(id)`: the category leaves the list, and its row leaves
     * the grid of every cached year (storage included); years never loaded
     * keep it. An unknown id fails with `CATEGORY_NOT_FOUND` and saves nothing.
     */
    method DeleteCategory(id: string) returns (o: Outcome<AdapterError>)
      requires Valid()
      modifies this
      ensures Valid()
      ensures o.Fail? <==> !HasId(old(storedCategories), id)
      ensures o.Fail? ==> o.error == NotFoundError && storedCategories == old(storedCategories) && storedGrids == old(storedGrids)
      ensures o.Fail? ==> matrixCache == old(matrixCache)
      ensures categoriesCache.Some?
      ensures o.Pass? ==> storedCategories == WithoutId(SortByOrder(old(storedCategories)), id) && !HasId(storedCategories, id)
      ensures o.Pass? ==> matrixCache == WithoutRow(old(matrixCache), id)
      ensures o.Pass? ==> forall y :: y in old(matrixCache) ==> YearGrid(storedGrids, y) == YearGrid(old(storedGrids), y) - {id}
      ensures forall y :: y !in old(matrixCache) ==> YearGrid(storedGrids, y) == YearGrid(old(storedGrids), y)
      ensures isInitialized == old(isInitialized)
    {
      var categories := ListCategories();
      HasIdPermutation(categories, storedCategories, id);
      var filtered := WithoutId(categories, id);
      if |filtered| == |categories| {
        return Fail(NotFoundError);
      }
      WithoutIdKeepsSorted(categories, id);
      SortWithSortedIsIdentity(filtered, OrderBefore);
      SaveCategories(filtered);
      PurgeCachedYears(id);
      o := Pass;
    }

    /** `for (const year in this.matrixCache) if (this.matrixCache[year][id]) { delete ...; saveMatrix(...) }`. */
    method PurgeCachedYears(id: string)
      requires Valid()
      modifies this
      ensures Valid() && matrixCache == WithoutRow(old(matrixCache), id)
      ensures forall y :: y in old(matrixCache) ==> YearGrid(storedGrids, y) == YearGrid(old(storedGrids), y) - {id}
      ensures forall y :: y !in old(matrixCache) ==> YearGrid(storedGrids, y) == YearGrid(old(storedGrids), y)
      ensures storedCategories == old(storedCategories) && categoriesCache == old(categoriesCache)
      ensures isInitialized == old(isInitialized)
    {
      var years := matrixCache.Keys;
      while years != {}
        invariant years <= old(matrixCache).Keys
        invariant matrixCache == PurgedExcept(old(matrixCache), years, id)
        invariant Valid()
        invariant forall y :: y !in old(matrixCache) ==> YearGrid(storedGrids, y) == YearGrid(old(storedGrids), y)
        invariant storedCategories == old(storedCategories) && categoriesCache == old(categoriesCache)
        invariant isInitialized == old(isInitialized)
        decreases |years|
      {
        var year := Choose(years);
        PurgeYear(year, id);
        years := years - {year};
      }
      assert matrixCache == WithoutRow(old(matrixCache), id);
      forall y | y in old(matrixCache) ensures YearGrid(storedGrids, y) == YearGrid(old(storedGrids), y) - {id} {
        assert matrixCache[y] == old(matrixCache)[y] - {id};
      }
    }

    /** The body of that loop for one cached year: the row goes from cache and storage when it is there. */
    method PurgeYear(year: int, id: string)
      requires Valid() && year in matrixCache
      modifies this
      ensures Valid() && matrixCache == old(matrixCache)[year := old(matrixCache)[year] - {id}]
      ensures forall y :: y != year ==> YearGrid(storedGrids, y) == YearGrid(old(storedGrids), y)
      ensures storedCategories == old(storedCategories) && categoriesCache == old(categoriesCache)
      ensures isInitialized == old(isInitialized)
    {
      var grid := matrixCache[year];
      if id in grid {
        SaveMatrix(year, grid - {id});
      } else {
        assert grid - {id} == grid;
      }
    }

    /**
     * `reorderCategories(order)`: an id no category has fails with
     * `CATEGORY_NOT_FOUND` before any write; otherwise the saved list is
     * exactly the listed ids in order, numbered from 0, and every category not
     * listed is dropped.
     */
    method ReorderCategories(order: seq<string>, now: int) returns (o: Outcome<AdapterError>)
      requires Valid()
      modifies this
      ensures Valid()
      ensures o.Fail? <==> exists i :: 0 <= i < |order| && !HasId(old(storedCategories), order[i])
      ensures o.Fail? ==> var first := FirstUnknown(old(storedCategories), order);
        first.Some? && o.error == UnknownIdError(first.value) && storedCategories == old(storedCategories)
      ensures o.Pass? ==> forall i :: 0 <= i < |order| ==> HasId(SortByOrder(old(storedCategories)), order[i])
      ensures o.Pass? ==> storedCategories == Reordered(SortByOrder(old(storedCategories)), order, now)
      ensures categoriesCache.Some?
      ensures storedGrids == old(storedGrids) && matrixCache == old(matrixCache) && isInitialized == old(isInitialized)
    {
      var categories := ListCategories();
      forall j | 0 <= j < |order| ensures HasId(categories, order[j]) <==> HasId(storedCategories, order[j]) {
        HasIdPermutation(categories, storedCategories, order[j]);
      }
      var unknown := FindUnknown(categories, order);
      if unknown.Some? {
        FirstUnknownPermutation(categories, storedCategories, order);
        return Fail(UnknownIdError(unknown.value));
      }
      var reordered := Reordered(categories, order, now);
      ReorderedSorted(categories, order, now);
      SaveCategories(reordered);
      o := Pass;
    }

    /** `getMatrix(year)`: the stored grid (`{}` when none), cached from then on. */
    method GetMatrix(year: int) returns (m: Matrix)
      requires Valid()
      modifies this
      ensures Valid() && m == YearGrid(storedGrids, year)
      ensures matrixCache == old(matrixCache)[year := m]
      ensures storedCategories == old(storedCategories) && storedGrids == old(storedGrids)
      ensures categoriesCache == old(categoriesCache) && isInitialized == old(isInitialized)
    {
      if year in matrixCache {
        return matrixCache[year];
      }
      m := YearGrid(storedGrids, year);
      matrixCache := matrixCache[year := m];
    }

    /** `saveMatrix(year, m)`: storage and cache both take the grid. */
    method SaveMatrix(year: int, m: Matrix)
      requires Valid()
      modifies this
      ensures Valid() && storedGrids == old(storedGrids)[year := m] && matrixCache == old(matrixCache)[year := m]
      ensures storedCategories == old(storedCategories) && categoriesCache == old(categoriesCache)
      ensures isInitialized == old(isInitialized)
    {
      storedGrids := storedGrids[year := m];
      matrixCache := matrixCache[year := m];
    }

    /** `setCell(...)`: the one cell becomes `max(0, round(value))`, for any month number. */
    method SetCell(year: int, categoryId: string, month: int, value: real)
      requires Valid()
      modifies this
      ensures Valid()
      ensures storedGrids == old(storedGrids)[year := SetCellIn(YearGrid(old(storedGrids), year), categoryId, month, ClampRound(value))]
      ensures matrixCache == old(matrixCache)[year := YearGrid(storedGrids, year)]
      ensures storedCategories == old(storedCategories) && categoriesCache == old(categoriesCache)
      ensures isInitialized == old(isInitialized)
    {
      var m := GetMatrix(year);
      SaveMatrix(year, SetCellIn(m, categoryId, month, ClampRound(value)));
    }

    /** `bulkSetRow(...)`: months 1..12 written clamped and rounded, other keys ignored, other rows untouched. */
    method BulkSetRow(year: int, categoryId: string, valuesByMonth: map<int, real>)
      requires Valid()
      modifies this
      ensures Valid()
      ensures var m := YearGrid(old(storedGrids), year);
        storedGrids == old(storedGrids)[year := m[categoryId := MergeMonths(RowOf(m, categoryId), valuesByMonth)]]
      ensures matrixCache == old(matrixCache)[year := YearGrid(storedGrids, year)]
      ensures storedCategories == old(storedCategories) && categoriesCache == old(categoriesCache)
      ensures isInitialized == old(isInitialized)
    {
      var m := GetMatrix(year);
      var row := WriteMonths(RowOf(m, categoryId), valuesByMonth);
      SaveMatrix(year, m[categoryId := row]);
    }

    /**
     * `initialize()`: does nothing once initialised; otherwise seeds the demo
     * data when the list is empty, and marks the adapter initialised.
     */
    method Initialize(ids: seq<string>, now: int, currentYear: int, currentMonth: int, amounts: seq<int>)
      requires Valid()
      requires |ids| == |SeedNames| && |amounts| == 3 * |SeedNames|
      requires forall i :: 0 <= i < |amounts| ==> 100000 <= amounts[i] < 600000
      modifies this
      ensures Valid() && isInitialized
      ensures old(isInitialized) ==> storedCategories == old(storedCategories) && storedGrids == old(storedGrids)
      ensures !old(isInitialized) && old(storedCategories) != [] ==>
        storedCategories == old(storedCategories) && storedGrids == old(storedGrids)
      ensures !old(isInitialized) && old(storedCategories) == [] ==>
        && storedCategories == SeedCategories(ids, now, 5)
        && storedGrids == old(storedGrids)[currentYear := SeedGrid(YearGrid(old(storedGrids), currentYear), ids, currentMonth, amounts, 5)]
      ensures old(isInitialized) ==> categoriesCache == old(categoriesCache) && matrixCache == old(matrixCache)
      ensures !old(isInitialized) && old(storedCategories) != [] ==>
        categoriesCache == Some(SortByOrder(storedCategories)) && matrixCache == old(matrixCache)
      ensures !old(isInitialized) && old(storedCategories) == [] ==>
        categoriesCache == Some(storedCategories) && matrixCache == old(matrixCache)[currentYear := YearGrid(storedGrids, currentYear)]
    {
      if isInitialized {
        return;
      }
      var categories := ListCategories();
      if |categories| == 0 {
        assert |storedCategories| == |multiset(storedCategories)| == 0;
        SeedInitialData(ids, now, currentYear, currentMonth, amounts);
      }
      isInitialized := true;
    }

    /** `seedInitialData()`: the five demo categories, then three demo amounts for each. */
    method SeedInitialData(ids: seq<string>, now: int, currentYear: int, currentMonth: int, amounts: seq<int>)
      requires Valid() && storedCategories == []
      requires |ids| == |SeedNames| && |amounts| == 3 * |SeedNames|
      requires forall i :: 0 <= i < |amounts| ==> amounts[i] >= 0
      modifies this
      ensures Valid() && isInitialized == old(isInitialized)
      ensures storedCategories == SeedCategories(ids, now, 5)
      ensures storedGrids == old(storedGrids)[currentYear := SeedGrid(YearGrid(old(storedGrids), currentYear), ids, currentMonth, amounts, 5)]
      ensures categoriesCache == Some(storedCategories) && matrixCache == old(matrixCache)[currentYear := YearGrid(storedGrids, currentYear)]
    {
      CreateSeedCategories(ids, now);
      var created := ListCategories();
      SeedCategoriesSorted(ids, now, 5);
      WriteSeedGrid(created, ids, currentYear, currentMonth, amounts);
    }

    /** The first loop of `seedInitialData()`: one `createCategory` per demo name. */
    method CreateSeedCategories(ids: seq<string>, now: int)
      requires Valid() && storedCategories == [] && |ids| == |SeedNames|
      modifies this
      ensures Valid() && storedCategories == SeedCategories(ids, now, 5) && categoriesCache == Some(storedCategories)
      ensures storedGrids == old(storedGrids) && matrixCache == old(matrixCache) && isInitialized == old(isInitialized)
    {
      var i := 0;
      while i < |SeedNames|
        invariant 0 <= i <= |SeedNames| && Valid()
        invariant storedCategories == SeedCategories(ids, now, i)
        invariant i > 0 ==> categoriesCache == Some(storedCategories)
        invariant storedGrids == old(storedGrids) && matrixCache == old(matrixCache) && isInitialized == old(isInitialized)
      {
        CreateSeedCategory(ids, now, i);
        i := i + 1;
      }
    }

    /** The `i`-th pass of the first loop of `seedInitialData()`: `createCategory` of the `i`-th demo name. */
    method CreateSeedCategory(ids: seq<string>, now: int, i: nat)
      requires Valid() && i < |SeedNames| == |ids| && storedCategories == SeedCategories(ids, now, i)
      modifies this
      ensures Valid() && storedCategories == SeedCategories(ids, now, i + 1) && categoriesCache == Some(storedCategories)
      ensures storedGrids == old(storedGrids) && matrixCache == old(matrixCache) && isInitialized == old(isInitialized)
    {
      SeedCategoriesSorted(ids, now, i);
      var c := CreateCategory(SeedNames[i], ids[i], now);
      SeedNext(ids, now, i);
    }

    /** The second loop of `seedInitialData()`: three amounts for each created category, in list order. */
    method WriteSeedGrid(created: seq<Category>, ids: seq<string>, currentYear: int, currentMonth: int, amounts: seq<int>)
      requires Valid() && |created| == |ids| == |SeedNames| && |amounts| == 3 * |SeedNames|
      requires forall k :: 0 <= k < |created| ==> created[k].id == ids[k]
      requires forall i :: 0 <= i < |amounts| ==> amounts[i] >= 0
      modifies this
      ensures Valid() && storedCategories == old(storedCategories) && isInitialized == old(isInitialized)
      ensures storedGrids == old(storedGrids)[currentYear := SeedGrid(YearGrid(old(storedGrids), currentYear), ids, currentMonth, amounts, 5)]
      ensures categoriesCache == old(categoriesCache) && matrixCache == old(matrixCache)[currentYear := YearGrid(storedGrids, currentYear)]
    {
      ghost var before := YearGrid(storedGrids, currentYear);
      var k := 0;
      while k < |created|
        invariant 0 <= k <= |created| && Valid()
        invariant storedCategories == old(storedCategories) && isInitialized == old(isInitialized)
        invariant categoriesCache == old(categoriesCache)
        invariant k == 0 ==> storedGrids == old(storedGrids) && matrixCache == old(matrixCache)
        invariant k > 0 ==> matrixCache == old(matrixCache)[currentYear := YearGrid(storedGrids, currentYear)]
        invariant k > 0 ==> storedGrids == old(storedGrids)[currentYear := SeedGrid(before, ids, currentMonth, amounts, k)]
      {
        WriteSeedGridRow(created, ids, currentYear, currentMonth, amounts, k, old(storedGrids), old(matrixCache));
        k := k + 1;
      }
    }

    /**
     * The `k`-th pass of the second loop of `seedInitialData()`, from the
     * grids `g0` and the grid cache `c0` the loop started with.
     */
    method WriteSeedGridRow(created: seq<Category>, ids: seq<string>, currentYear: int, currentMonth: int, amounts: seq<int>, k: nat,
                            ghost g0: map<int, Matrix>, ghost c0: map<int, Matrix>)
      requires Valid() && k < |created| == |ids| == |SeedNames| && |amounts| == 3 * |SeedNames| && created[k].id == ids[k]
      requires forall i :: 0 <= i < |amounts| ==> amounts[i] >= 0
      requires k == 0 ==> storedGrids == g0 && matrixCache == c0
      requires k > 0 ==> storedGrids == g0[currentYear := SeedGrid(YearGrid(g0, currentYear), ids, currentMonth, amounts, k)]
      requires k > 0 ==> matrixCache == c0[currentYear := YearGrid(storedGrids, currentYear)]
      modifies this
      ensures Valid() && storedCategories == old(storedCategories) && isInitialized == old(isInitialized)
      ensures storedGrids == g0[currentYear := SeedGrid(YearGrid(g0, currentYear), ids, currentMonth, amounts, k + 1)]
      ensures matrixCache == c0[currentYear := YearGrid(storedGrids, currentYear)]
      ensures categoriesCache == old(categoriesCache)
    {
      ghost var prev := storedGrids;
      WriteSeedRow(currentYear, created[k].id, currentMonth, amounts[3 * k..3 * k + 3]);
      SeedLoopStep(g0, prev, storedGrids, currentYear, ids, currentMonth, amounts, k);
    }

    /** Three demo amounts into one row, months `currentMonth`, `- 1`, `- 2` (at least 1). */
    method WriteSeedRow(year: int, id: string, currentMonth: int, amounts: seq<int>)
      requires Valid() && |amounts| == 3 && forall i :: 0 <= i < 3 ==> amounts[i] >= 0
      modifies this
      ensures Valid()
      ensures var m := YearGrid(old(storedGrids), year);
        storedGrids == old(storedGrids)[year := m[id := SeedRow(RowOf(m, id), currentMonth, amounts)]]
      ensures storedCategories == old(storedCategories) && isInitialized == old(isInitialized)
      ensures categoriesCache == old(categoriesCache) && matrixCache == old(matrixCache)[year := YearGrid(storedGrids, year)]
    {
      ghost var m := YearGrid(storedGrids, year);
      var offset := 0;
      while offset < 3
        invariant 0 <= offset <= 3 && Valid()
        invariant storedCategories == old(storedCategories) && isInitialized == old(isInitialized)
        invariant categoriesCache == old(categoriesCache)
        invariant offset == 0 ==> storedGrids == old(storedGrids) && matrixCache == old(matrixCache)
        invariant offset > 0 ==> matrixCache == old(matrixCache)[year := YearGrid(storedGrids, year)]
        invariant offset > 0 ==> storedGrids == old(storedGrids)[year := m[id := PartialSeedRow(RowOf(m, id), currentMonth, amounts, offset)]]
      {
        WriteSeedCell(year, id, currentMonth, amounts, offset, old(storedGrids), old(matrixCache));
        offset := offset + 1;
      }
    }

    /**
     * The `offset`-th write of `WriteSeedRow`, from the grids `g0` and the
     * grid cache `c0` it started with.
     */
    method WriteSeedCell(year: int, id: string, currentMonth: int, amounts: seq<int>, offset: nat, ghost g0: map<int, Matrix>, ghost c0: map<int, Matrix>)
      requires Valid() && offset < |amounts| == 3 && amounts[offset] >= 0
      requires offset == 0 ==> storedGrids == g0 && matrixCache == c0
      requires var m := YearGrid(g0, year);
        offset > 0 ==> storedGrids == g0[year := m[id := PartialSeedRow(RowOf(m, id), currentMonth, amounts, offset)]]
      requires offset > 0 ==> matrixCache == c0[year := YearGrid(storedGrids, year)]
      modifies this
      ensures Valid()
      ensures var m := YearGrid(g0, year);
        storedGrids == g0[year := m[id := PartialSeedRow(RowOf(m, id), currentMonth, amounts, offset + 1)]]
      ensures matrixCache == c0[year := YearGrid(storedGrids, year)]
      ensures storedCategories == old(storedCategories) && isInitialized == old(isInitialized)
      ensures categoriesCache == old(categoriesCache)
    {
      ClampRoundWhole(amounts[offset]);
      ghost var m := YearGrid(g0, year);
      ghost var p := PartialSeedRow(RowOf(m, id), currentMonth, amounts, offset);
      ghost var g := YearGrid(storedGrids, year);
      var month := SeedMonth(currentMonth, offset);
      assert RowOf(g, id) == p;
      assert g[id := p[month := amounts[offset]]] == m[id := p[month := amounts[offset]]];
      SetCell(year, id, month, amounts[offset] as real);
    }

    /**
     * `reset()`: the categories key and every grid key leave local storage
     * (`keys` is local storage's key list), both caches are emptied and the
     * adapter is no longer initialised. Returns the keys left.
     */
    method Reset(keys: seq<StorageKey>) returns (remaining: seq<StorageKey>)
      modifies this
      ensures Valid() && !isInitialized && categoriesCache == None && matrixCache == map[]
      ensures storedCategories == [] && storedGrids == map[]
      ensures remaining == WithoutMatrixKeys(WithoutCategoriesKey(keys))
      ensures forall k :: k in remaining <==> k in keys && k.OtherKey?
    {
      storedCategories := [];
      remaining := RemoveMatrixKeys(WithoutCategoriesKey(keys));
      WithoutMatrixKeysMembers(WithoutCategoriesKey(keys));
      storedGrids := map[];
      categoriesCache := None;
      matrixCache := map[];
      isInitialized := false;
    }
  }

  /** The validation loop of `reorderCategories`: the first listed id no category has. */
  method FindUnknown(cats: seq<Category>, order: seq<string>) returns (r: Option<string>)
    ensures r == FirstUnknown(cats, order)
  {
    var i := 0;
    while i < |order|
      invariant 0 <= i <= |order|
      invariant forall j :: 0 <= j < i ==> HasId(cats, order[j])
    {
      if !HasId(cats, order[i]) {
        FirstUnknownIs(cats, order, i);
        return Some(order[i]);
      }
      i := i + 1;
    }
    return None;
  }

  /** Two arrangements of the same categories reject the same first id. */
  lemma {:induction false} FirstUnknownPermutation(a: seq<Category>, b: seq<Category>, order: seq<string>)
    requires forall j :: 0 <= j < |order| ==> (HasId(a, order[j]) <==> HasId(b, order[j]))
    ensures FirstUnknown(a, order) == FirstUnknown(b, order)
  {
    var r := FirstUnknown(a, order);
    if r.Some? {
      var i :| 0 <= i < |order| && order[i] == r.value && !HasId(a, r.value) &&
               forall j :: 0 <= j < i ==> HasId(a, order[j]);
      FirstUnknownIs(b, order, i);
    }
  }

  /** The error `reorderCategories` raises names the first unknown id. */
  lemma {:induction false} FirstUnknownIs(cats: seq<Category>, order: seq<string>, i: int)
    requires 0 <= i < |order| && !HasId(cats, order[i])
    requires forall j :: 0 <= j < i ==> HasId(cats, order[j])
    ensures FirstUnknown(cats, order) == Some(order[i])
  {
    var r := FirstUnknown(cats, order);
    var k :| 0 <= k < |order| && order[k] == r.value && !HasId(cats, r.value) &&
             forall j :: 0 <= j < k ==> HasId(cats, order[j]);
    if k != i {
      assert false;
    }
  }
}
