/**
 * The list pipeline of src/components/TransactionList.tsx: keep the
 * transactions of the chosen type whose description or category contains
 * the search term (ignoring case), then sort them by date, amount or
 * category, ascending or descending.
 */
module TransactionList {
  import opened Text
  import opened Dates
  import opened Sorting
  import opened Transactions

  datatype TypeFilter = All | Only(txType: TxType)
  datatype SortKey = ByDate | ByAmount | ByCategory
  datatype SortOrder = Asc | Desc

  /** `filter === 'all' || transaction.type === filter`. */
  predicate MatchesFilter(f: TypeFilter, t: Transaction)
    ensures MatchesFilter(f, t) <==> f == All || f == Only(t.txType)
  {
    f.All? || t.txType == f.txType
  }

  /** Case-insensitive `includes` on the description or the category. */
  predicate MatchesSearch(term: string, t: Transaction)
    ensures term == "" ==> MatchesSearch(term, t)
    ensures ToLower(t.description) == ToLower(term) ==> MatchesSearch(term, t)
  {
    Contains(ToLower(t.description), ToLower(term)) || Contains(ToLower(t.category), ToLower(term))
  }

  /** Shown: kept by both the type filter and the search. */
  predicate Shown(f: TypeFilter, term: string, t: Transaction)
    ensures f == All && term == "" ==> Shown(f, term, t)
    ensures Shown(f, term, t) ==> f == All || t.txType == f.txType
  {
    MatchesFilter(f, t) && MatchesSearch(term, t)
  }

  /** The `filter` step: the shown transactions, in list order. */
  function Filtered(ts: seq<Transaction>, f: TypeFilter, term: string): (r: seq<Transaction>)
    ensures forall t :: t in r <==> t in ts && Shown(f, term, t)
  {
    if |ts| == 0 then []
    else (if Shown(f, term, ts[0]) then [ts[0]] else []) + Filtered(ts[1..], f, term)
  }

  /** The filter neither adds nor duplicates: every shown transaction appears as often as in the list, the others not at all. */
  lemma {:induction false} FilteredCounts(ts: seq<Transaction>, f: TypeFilter, term: string, t: Transaction)
    ensures multiset(Filtered(ts, f, term))[t] == if Shown(f, term, t) then multiset(ts)[t] else 0
  {
    if |ts| > 0 {
      var head := if Shown(f, term, ts[0]) then [ts[0]] else [];
      assert Filtered(ts, f, term) == head + Filtered(ts[1..], f, term);
      FilteredCounts(ts[1..], f, term, t);
      assert ts == [ts[0]] + ts[1..];
      assert multiset(ts) == multiset([ts[0]]) + multiset(ts[1..]);
      assert multiset(Filtered(ts, f, term)) == multiset(head) + multiset(Filtered(ts[1..], f, term));
    }
  }

  /** The empty search term and the `'all'` filter show every transaction. */
  lemma {:induction false} EmptySearchShowsAll(ts: seq<Transaction>)
    ensures Filtered(ts, All, "") == ts
  {
    if |ts| > 0 {
      assert ToLower("") == "";
      assert Shown(All, "", ts[0]);
      EmptySearchShowsAll(ts[1..]);
      assert ts == [ts[0]] + ts[1..];
    }
  }

  /** The comparison `a - b` (or `localeCompare`) is negative. */
  predicate Ascending(key: SortKey, a: Transaction, b: Transaction) {
    match key
    case ByDate => DateBefore(a.date, b.date)
    case ByAmount => a.amount < b.amount
    case ByCategory => LexBefore(a.category, b.category)
  }

  /** The comparator after `sortOrder`: `desc` negates the comparison, so it is negative when `b` comes first ascending. */
  function Before(key: SortKey, order: SortOrder): (r: (Transaction, Transaction) -> bool)
    ensures forall a, b :: r(a, b) ==> !r(b, a)
  {
    AscendingIsStrictOrder(key);
    (a: Transaction, b: Transaction) => if order == Asc then Ascending(key, a, b) else Ascending(key, b, a)
  }

  lemma {:induction false} AscendingIsStrictOrder(key: SortKey)
    ensures forall a :: !Ascending(key, a, a)
    ensures forall a, b, c :: Ascending(key, a, b) && Ascending(key, b, c) ==> Ascending(key, a, c)
  {
    if key == ByCategory {
      forall a: Transaction {
        LexBeforeTotal(a.category, a.category);
      }
      forall a: Transaction, b: Transaction, c: Transaction | Ascending(key, a, b) && Ascending(key, b, c)
        ensures Ascending(key, a, c)
      {
        LexBeforeTransitive(a.category, b.category, c.category);
      }
    }
  }

  /** Every comparator the list can use is irreflexive and transitive, in either order. */
  lemma {:induction false} BeforeIsStrictOrder(key: SortKey, order: SortOrder)
    ensures StrictOrder(Before(key, order))
  {
    AscendingIsStrictOrder(key);
  }

  /** `filteredTransactions`: the shown transactions, sorted. */
  function FilteredTransactions(ts: seq<Transaction>, f: TypeFilter, term: string, key: SortKey, order: SortOrder): (r: seq<Transaction>)
    ensures multiset(r) == multiset(Filtered(ts, f, term))
    ensures forall t :: t in r <==> t in ts && Shown(f, term, t)
  {
    var r := SortWith(Filtered(ts, f, term), Before(key, order));
    assert forall t :: t in r <==> t in multiset(r);
    r
  }

  /**
   * The list shown: each shown transaction exactly as often as in the
   * list and nothing else, ordered so that no transaction comes strictly
   * before one to its left under the chosen key and order.
   */
  lemma {:induction false} FilteredTransactionsSpec(ts: seq<Transaction>, f: TypeFilter, term: string, key: SortKey, order: SortOrder)
    ensures var r := FilteredTransactions(ts, f, term, key, order);
      SortedBy(r, Before(key, order))
      && forall t :: multiset(r)[t] == if Shown(f, term, t) then multiset(ts)[t] else 0
  {
    BeforeIsStrictOrder(key, order);
    SortWithSorted(Filtered(ts, f, term), Before(key, order));
    forall t ensures multiset(FilteredTransactions(ts, f, term, key, order))[t] == if Shown(f, term, t) then multiset(ts)[t] else 0 {
      FilteredCounts(ts, f, term, t);
    }
  }

  /** Sorted descending, no transaction is smaller under the key than one further down the list. */
  lemma {:induction false} DescendingReversesAscending(r: seq<Transaction>, key: SortKey, i: nat, j: nat)
    requires SortedBy(r, Before(key, Desc)) && i < j < |r|
    ensures !Ascending(key, r[i], r[j])
  {
    assert !Before(key, Desc)(r[j], r[i]);
  }
}
