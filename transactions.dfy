/**
 * The records of the transaction side of the application (src/types/index.ts):
 * transactions, recurring payments, the partial records an update merges in,
 * and the id-based list operations the storage helpers and the data hook
 * share: the first position of an id, and the list without an id.
 */
module Transactions {
  import opened Wrappers
  import opened Dates

  datatype TxType = Income | Expense

  datatype Transaction = Transaction(
    id: string,
    txType: TxType,
    category: string,
    amount: real,
    description: string,
    date: Date,
    isRecurring: Option<bool>,
    recurringDay: Option<int>)

  datatype RecurringPayment = RecurringPayment(
    id: string,
    name: string,
    amount: real,
    category: string,
    dayOfMonth: int,
    isActive: bool,
    txType: TxType)

  /** `Partial<Transaction>`: the keys present in an update. */
  datatype TransactionPatch = TransactionPatch(
    id: Option<string>,
    txType: Option<TxType>,
    category: Option<string>,
    amount: Option<real>,
    description: Option<string>,
    date: Option<Date>,
    isRecurring: Option<bool>,
    recurringDay: Option<int>)

  /** `Partial<RecurringPayment>`. */
  datatype PaymentPatch = PaymentPatch(
    id: Option<string>,
    name: Option<string>,
    amount: Option<real>,
    category: Option<string>,
    dayOfMonth: Option<int>,
    isActive: Option<bool>,
    txType: Option<TxType>)

  /** `{ ...t, ...patch }`: every key the patch holds replaces the transaction's own. */
  function MergeTransaction(t: Transaction, p: TransactionPatch): (r: Transaction)
    ensures p.id.Some? ==> r.id == p.id.value
    ensures p.id.None? ==> r.id == t.id
    ensures p.txType.Some? ==> r.txType == p.txType.value
    ensures p.txType.None? ==> r.txType == t.txType
    ensures p.category.Some? ==> r.category == p.category.value
    ensures p.category.None? ==> r.category == t.category
    ensures p.amount.Some? ==> r.amount == p.amount.value
    ensures p.amount.None? ==> r.amount == t.amount
    ensures p.description.Some? ==> r.description == p.description.value
    ensures p.description.None? ==> r.description == t.description
    ensures p.date.Some? ==> r.date == p.date.value
    ensures p.date.None? ==> r.date == t.date
    ensures p.isRecurring.Some? ==> r.isRecurring == p.isRecurring
    ensures p.isRecurring.None? ==> r.isRecurring == t.isRecurring
    ensures p.recurringDay.Some? ==> r.recurringDay == p.recurringDay
    ensures p.recurringDay.None? ==> r.recurringDay == t.recurringDay
    ensures p == TransactionPatch(None, None, None, None, None, None, None, None) ==> r == t
  {
    Transaction(
      p.id.GetOr(t.id),
      p.txType.GetOr(t.txType),
      p.category.GetOr(t.category),
      p.amount.GetOr(t.amount),
      p.description.GetOr(t.description),
      p.date.GetOr(t.date),
      if p.isRecurring.Some? then p.isRecurring else t.isRecurring,
      if p.recurringDay.Some? then p.recurringDay else t.recurringDay)
  }

  /** `{ ...p, ...patch }` for recurring payments. */
  function MergePayment(q: RecurringPayment, p: PaymentPatch): (r: RecurringPayment)
    ensures p.id.Some? ==> r.id == p.id.value
    ensures p.id.None? ==> r.id == q.id
    ensures p.name.Some? ==> r.name == p.name.value
    ensures p.name.None? ==> r.name == q.name
    ensures p.amount.Some? ==> r.amount == p.amount.value
    ensures p.amount.None? ==> r.amount == q.amount
    ensures p.category.Some? ==> r.category == p.category.value
    ensures p.category.None? ==> r.category == q.category
    ensures p.dayOfMonth.Some? ==> r.dayOfMonth == p.dayOfMonth.value
    ensures p.dayOfMonth.None? ==> r.dayOfMonth == q.dayOfMonth
    ensures p.isActive.Some? ==> r.isActive == p.isActive.value
    ensures p.isActive.None? ==> r.isActive == q.isActive
    ensures p.txType.Some? ==> r.txType == p.txType.value
    ensures p.txType.None? ==> r.txType == q.txType
    ensures p == PaymentPatch(None, None, None, None, None, None, None) ==> r == q
  {
    RecurringPayment(
      p.id.GetOr(q.id),
      p.name.GetOr(q.name),
      p.amount.GetOr(q.amount),
      p.category.GetOr(q.category),
      p.dayOfMonth.GetOr(q.dayOfMonth),
      p.isActive.GetOr(q.isActive),
      p.txType.GetOr(q.txType))
  }

  /** `findIndex(x => idOf(x) === id)`, `None` standing for -1. */
  function FirstIndex<T>(xs: seq<T>, idOf: T -> string, id: string): (r: Option<nat>)
    ensures r.None? <==> forall i :: 0 <= i < |xs| ==> idOf(xs[i]) != id
    ensures r.Some? ==> (r.value < |xs| && idOf(xs[r.value]) == id
      && forall i :: 0 <= i < r.value ==> idOf(xs[i]) != id)
  {
    if |xs| == 0 then None
    else if idOf(xs[0]) == id then Some(0)
    else
      match FirstIndex(xs[1..], idOf, id)
      case None => None
      case Some(k) => Some(k + 1)
  }

  /** `filter(x => idOf(x) !== id)`: the list without that id, in order. */
  function WithoutId<T(!new)>(xs: seq<T>, idOf: T -> string, id: string): (r: seq<T>)
    ensures |r| <= |xs|
    ensures forall x :: x in r <==> x in xs && idOf(x) != id
  {
    if |xs| == 0 then []
    else
      var rest := WithoutId(xs[..|xs| - 1], idOf, id);
      var x := xs[|xs| - 1];
      assert xs == xs[..|xs| - 1] + [x];
      if idOf(x) != id then rest + [x] else rest
  }

  /** Removing an id that is absent changes nothing. */
  lemma {:induction false} WithoutAbsentId<T(!new)>(xs: seq<T>, idOf: T -> string, id: string)
    requires forall i :: 0 <= i < |xs| ==> idOf(xs[i]) != id
    ensures WithoutId(xs, idOf, id) == xs
  {
    if |xs| > 0 {
      WithoutAbsentId(xs[..|xs| - 1], idOf, id);
      assert xs[..|xs| - 1] + [xs[|xs| - 1]] == xs;
    }
  }

  /** Removal keeps the relative order of what stays: it commutes with appending. */
  lemma {:induction false} WithoutIdAppend<T(!new)>(xs: seq<T>, ys: seq<T>, idOf: T -> string, id: string)
    ensures WithoutId(xs + ys, idOf, id) == WithoutId(xs, idOf, id) + WithoutId(ys, idOf, id)
    decreases |ys|
  {
    if |ys| == 0 {
      assert xs + ys == xs;
    } else {
      var init := ys[..|ys| - 1];
      assert (xs + ys)[..|xs + ys| - 1] == xs + init;
      WithoutIdAppend(xs, init, idOf, id);
    }
  }

  /**
   * `map(x => idOf(x) === id ? merge(x) : x)`: the hook's update, which
   * merges into every element with that id.
   */
  function MapWhereId<T>(xs: seq<T>, idOf: T -> string, id: string, merge: T -> T): (r: seq<T>)
    ensures |r| == |xs|
    ensures forall i :: 0 <= i < |xs| && idOf(xs[i]) != id ==> r[i] == xs[i]
    ensures forall i :: 0 <= i < |xs| && idOf(xs[i]) == id ==> r[i] == merge(xs[i])
  {
    seq(|xs|, i requires 0 <= i < |xs| => if idOf(xs[i]) == id then merge(xs[i]) else xs[i])
  }

  /**
   * The storage helper's update: the element at `findIndex` merged, or
   * `None` (nothing written) when the id is absent.
   */
  function UpdateFirst<T>(xs: seq<T>, idOf: T -> string, id: string, merge: T -> T): (r: Option<seq<T>>)
    ensures r.None? <==> FirstIndex(xs, idOf, id).None?
    ensures r.Some? ==> var i := FirstIndex(xs, idOf, id).value;
      |r.value| == |xs| && r.value[i] == merge(xs[i]) && forall j :: 0 <= j < |xs| && j != i ==> r.value[j] == xs[j]
  {
    match FirstIndex(xs, idOf, id)
    case None => None
    case Some(i) => Some(xs[i := merge(xs[i])])
  }

  /** No two elements share an id. */
  predicate UniqueIds<T>(xs: seq<T>, idOf: T -> string) {
    forall i, j :: 0 <= i < j < |xs| ==> idOf(xs[i]) != idOf(xs[j])
  }

  /**
   * With unique ids the two updates agree: the storage list and the hook's
   * list stay equal after an update of a present id, and an absent id
   * leaves the hook's list as it was.
   */
  lemma {:induction false} UpdatesAgreeOnUniqueIds<T>(xs: seq<T>, idOf: T -> string, id: string, merge: T -> T)
    requires UniqueIds(xs, idOf)
    ensures UpdateFirst(xs, idOf, id, merge).Some? ==> UpdateFirst(xs, idOf, id, merge).value == MapWhereId(xs, idOf, id, merge)
    ensures UpdateFirst(xs, idOf, id, merge).None? ==> MapWhereId(xs, idOf, id, merge) == xs
  {
    var m := MapWhereId(xs, idOf, id, merge);
    match FirstIndex(xs, idOf, id)
    case None =>
      assert forall i :: 0 <= i < |xs| ==> m[i] == xs[i];
    case Some(k) =>
      var u := xs[k := merge(xs[k])];
      assert forall i :: 0 <= i < |xs| ==> u[i] == m[i] by {
        forall i | 0 <= i < |xs| && i != k ensures idOf(xs[i]) != id {
          if i > k {
            assert idOf(xs[k]) != idOf(xs[i]);
          }
        }
      }
  }

  /** With unique ids, removing a present id removes exactly one element. */
  lemma {:induction false} WithoutUniqueId<T(!new)>(xs: seq<T>, idOf: T -> string, id: string)
    requires UniqueIds(xs, idOf)
    ensures FirstIndex(xs, idOf, id).Some? ==> |WithoutId(xs, idOf, id)| == |xs| - 1
    ensures FirstIndex(xs, idOf, id).None? ==> WithoutId(xs, idOf, id) == xs
  {
    if FirstIndex(xs, idOf, id).None? {
      WithoutAbsentId(xs, idOf, id);
    } else if |xs| > 0 {
      var init := xs[..|xs| - 1];
      var last := xs[|xs| - 1];
      assert UniqueIds(init, idOf);
      WithoutUniqueId(init, idOf, id);
      if idOf(last) == id {
        assert forall i :: 0 <= i < |init| ==> idOf(init[i]) != id;
        assert FirstIndex(init, idOf, id).None?;
      } else {
        var k := FirstIndex(xs, idOf, id).value;
        assert k < |init| && idOf(init[k]) == id;
        assert FirstIndex(init, idOf, id).Some?;
      }
    }
  }

  function TransactionId(t: Transaction): string { t.id }

  function PaymentId(p: RecurringPayment): string { p.id }
}
