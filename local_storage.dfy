/**
 * `storageUtils` of src/utils/storage.ts: two browser-storage entries, one
 * holding the transaction list and one the recurring-payment list, each
 * possibly never written. Every operation reads the entry, changes the
 * list and writes it back. The JSON text of an entry is modelled by the
 * list it encodes; dates come back as the same calendar days.
 */
module LocalStorage {
  import opened Wrappers
  import opened Transactions

  class StorageLists {
    /** `localStorage['finanzas_transactions']`; `None` when never written. */
    var transactionsItem: Option<seq<Transaction>>
    /** `localStorage['finanzas_recurring_payments']`. */
    var paymentsItem: Option<seq<RecurringPayment>>

    constructor(transactionsItem: Option<seq<Transaction>>, paymentsItem: Option<seq<RecurringPayment>>)
      ensures this.transactionsItem == transactionsItem && this.paymentsItem == paymentsItem
    {
      this.transactionsItem := transactionsItem;
      this.paymentsItem := paymentsItem;
    }

    /** The list an entry holds, the empty list when it was never written. */
    function StoredTransactions(): (r: seq<Transaction>)
      reads this
      ensures transactionsItem.None? ==> r == []
      ensures transactionsItem.Some? ==> r == transactionsItem.value
    {
      transactionsItem.GetOr([])
    }

    function StoredPayments(): (r: seq<RecurringPayment>)
      reads this
      ensures paymentsItem.None? ==> r == []
      ensures paymentsItem.Some? ==> r == paymentsItem.value
    {
      paymentsItem.GetOr([])
    }

    /** `getTransactions()`. */
    method GetTransactions() returns (ts: seq<Transaction>)
      ensures ts == StoredTransactions()
    {
      ts := transactionsItem.GetOr([]);
    }

    /** `saveTransactions(ts)`: a later get returns `ts`. */
    method SaveTransactions(ts: seq<Transaction>)
      modifies this
      ensures transactionsItem == Some(ts) && StoredTransactions() == ts
      ensures paymentsItem == old(paymentsItem)
    {
      transactionsItem := Some(ts);
    }

    /** `addTransaction(t)`: appended at the end, the earlier items as they were. */
    method AddTransaction(t: Transaction)
      modifies this
      ensures transactionsItem == Some(old(StoredTransactions()) + [t])
      ensures paymentsItem == old(paymentsItem)
    {
      var ts := GetTransactions();
      SaveTransactions(ts + [t]);
    }

    /**
     * `updateTransaction(id, patch)`: the first item with that id takes the
     * patch; with no such item nothing is written.
     */
    method UpdateTransaction(id: string, patch: TransactionPatch)
      modifies this
      ensures var u := UpdateFirst(old(StoredTransactions()), TransactionId, id, t => MergeTransaction(t, patch));
        transactionsItem == if u.Some? then Some(u.value) else old(transactionsItem)
      ensures paymentsItem == old(paymentsItem)
    {
      var ts := GetTransactions();
      var index := FirstIndex(ts, TransactionId, id);
      if index.Some? {
        var i := index.value;
        SaveTransactions(ts[i := MergeTransaction(ts[i], patch)]);
      }
    }

    /** `deleteTransaction(id)`: every item with that id removed, the rest in order; always written. */
    method DeleteTransaction(id: string)
      modifies this
      ensures transactionsItem == Some(WithoutId(old(StoredTransactions()), TransactionId, id))
      ensures paymentsItem == old(paymentsItem)
    {
      var ts := GetTransactions();
      SaveTransactions(WithoutId(ts, TransactionId, id));
    }

    /** `getRecurringPayments()`. */
    method GetRecurringPayments() returns (ps: seq<RecurringPayment>)
      ensures ps == StoredPayments()
    {
      ps := paymentsItem.GetOr([]);
    }

    method SaveRecurringPayments(ps: seq<RecurringPayment>)
      modifies this
      ensures paymentsItem == Some(ps) && StoredPayments() == ps
      ensures transactionsItem == old(transactionsItem)
    {
      paymentsItem := Some(ps);
    }

    method AddRecurringPayment(p: RecurringPayment)
      modifies this
      ensures paymentsItem == Some(old(StoredPayments()) + [p])
      ensures transactionsItem == old(transactionsItem)
    {
      var ps := GetRecurringPayments();
      SaveRecurringPayments(ps + [p]);
    }

    method UpdateRecurringPayment(id: string, patch: PaymentPatch)
      modifies this
      ensures var u := UpdateFirst(old(StoredPayments()), PaymentId, id, q => MergePayment(q, patch));
        paymentsItem == if u.Some? then Some(u.value) else old(paymentsItem)
      ensures transactionsItem == old(transactionsItem)
    {
      var ps := GetRecurringPayments();
      var index := FirstIndex(ps, PaymentId, id);
      if index.Some? {
        var i := index.value;
        SaveRecurringPayments(ps[i := MergePayment(ps[i], patch)]);
      }
    }

    method DeleteRecurringPayment(id: string)
      modifies this
      ensures paymentsItem == Some(WithoutId(old(StoredPayments()), PaymentId, id))
      ensures transactionsItem == old(transactionsItem)
    {
      var ps := GetRecurringPayments();
      SaveRecurringPayments(WithoutId(ps, PaymentId, id));
    }
  }
}
