/**
 * The state of the `useFinancialData` hook (src/hooks/useFinancialData.ts):
 * its two lists and the month on display, kept in step with the browser
 * storage. Each action changes the hook's list and makes the matching call
 * on the storage helpers, which work on what is stored.
 */
module FinancialHook {
  import opened Wrappers
  import opened Dates
  import opened Transactions
  import opened LocalStorage
  import opened RecurringGeneration
  import opened FinancialSummary

  class FinancialDataHook {
    var transactions: seq<Transaction>
    var recurringPayments: seq<RecurringPayment>
    var currentMonth: Date
    const storage: StorageLists

    /** The first render: empty lists, today's month on display. */
    constructor(storage: StorageLists, today: Date)
      ensures this.storage == storage && currentMonth == today
      ensures transactions == [] && recurringPayments == []
    {
      this.storage := storage;
      currentMonth := today;
      transactions := [];
      recurringPayments := [];
    }

    /**
     * The load effect: both stored lists taken into the hook, then the
     * recurring payments processed against the stored transactions; when
     * something is generated the longer list replaces the hook's and is saved.
     */
    method LoadData(today: Date, ids: seq<string>)
      requires ValidDate(today)
      requires |ids| >= |storage.StoredPayments()|
      modifies this, storage
      ensures recurringPayments == old(storage.StoredPayments())
      ensures var g := Generated(old(storage.StoredPayments()), old(storage.StoredTransactions()), today, ids);
        transactions == old(storage.StoredTransactions()) + g
        && storage.transactionsItem == (if |g| > 0 then Some(transactions) else old(storage.transactionsItem))
      ensures storage.paymentsItem == old(storage.paymentsItem)
      ensures currentMonth == old(currentMonth)
    {
      var storedTransactions := storage.GetTransactions();
      var storedPayments := storage.GetRecurringPayments();
      transactions := storedTransactions;
      recurringPayments := storedPayments;
      var updated := ProcessRecurringPayments(storedPayments, storedTransactions, today, ids);
      if updated.Some? {
        transactions := updated.value;
        storage.SaveTransactions(updated.value);
      }
    }

    /** `addTransaction(draft)`: the draft under a fresh id, appended to both lists. */
    method AddTransaction(draft: Transaction, freshId: string)
      modifies this, storage
      ensures transactions == old(transactions) + [draft.(id := freshId)]
      ensures storage.transactionsItem == Some(old(storage.StoredTransactions()) + [draft.(id := freshId)])
      ensures recurringPayments == old(recurringPayments) && storage.paymentsItem == old(storage.paymentsItem)
      ensures currentMonth == old(currentMonth)
    {
      var t := draft.(id := freshId);
      transactions := transactions + [t];
      storage.AddTransaction(t);
    }

    /**
     * `updateTransaction(id, patch)`: every transaction of the hook with
     * that id takes the patch; storage updates its first one with that id.
     */
    method UpdateTransaction(id: string, patch: TransactionPatch)
      modifies this, storage
      ensures transactions == MapWhereId(old(transactions), TransactionId, id, t => MergeTransaction(t, patch))
      ensures var u := UpdateFirst(old(storage.StoredTransactions()), TransactionId, id, t => MergeTransaction(t, patch));
        storage.transactionsItem == if u.Some? then Some(u.value) else old(storage.transactionsItem)
      ensures recurringPayments == old(recurringPayments) && storage.paymentsItem == old(storage.paymentsItem)
      ensures currentMonth == old(currentMonth)
    {
      transactions := MapWhereId(transactions, TransactionId, id, t => MergeTransaction(t, patch));
      storage.UpdateTransaction(id, patch);
    }

    /** `deleteTransaction(id)`: that id removed from both lists. */
    method DeleteTransaction(id: string)
      modifies this, storage
      ensures transactions == WithoutId(old(transactions), TransactionId, id)
      ensures storage.transactionsItem == Some(WithoutId(old(storage.StoredTransactions()), TransactionId, id))
      ensures recurringPayments == old(recurringPayments) && storage.paymentsItem == old(storage.paymentsItem)
      ensures currentMonth == old(currentMonth)
    {
      transactions := WithoutId(transactions, TransactionId, id);
      storage.DeleteTransaction(id);
    }

    method AddRecurringPayment(draft: RecurringPayment, freshId: string)
      modifies this, storage
      ensures recurringPayments == old(recurringPayments) + [draft.(id := freshId)]
      ensures storage.paymentsItem == Some(old(storage.StoredPayments()) + [draft.(id := freshId)])
      ensures transactions == old(transactions) && storage.transactionsItem == old(storage.transactionsItem)
      ensures currentMonth == old(currentMonth)
    {
      var p := draft.(id := freshId);
      recurringPayments := recurringPayments + [p];
      storage.AddRecurringPayment(p);
    }

    method UpdateRecurringPayment(id: string, patch: PaymentPatch)
      modifies this, storage
      ensures recurringPayments == MapWhereId(old(recurringPayments), PaymentId, id, q => MergePayment(q, patch))
      ensures var u := UpdateFirst(old(storage.StoredPayments()), PaymentId, id, q => MergePayment(q, patch));
        storage.paymentsItem == if u.Some? then Some(u.value) else old(storage.paymentsItem)
      ensures transactions == old(transactions) && storage.transactionsItem == old(storage.transactionsItem)
      ensures currentMonth == old(currentMonth)
    {
      recurringPayments := MapWhereId(recurringPayments, PaymentId, id, q => MergePayment(q, patch));
      storage.UpdateRecurringPayment(id, patch);
    }

    method DeleteRecurringPayment(id: string)
      modifies this, storage
      ensures recurringPayments == WithoutId(old(recurringPayments), PaymentId, id)
      ensures storage.paymentsItem == Some(WithoutId(old(storage.StoredPayments()), PaymentId, id))
      ensures transactions == old(transactions) && storage.transactionsItem == old(storage.transactionsItem)
      ensures currentMonth == old(currentMonth)
    {
      recurringPayments := WithoutId(recurringPayments, PaymentId, id);
      storage.DeleteRecurringPayment(id);
    }

    /** `setCurrentMonth(d)`. */
    method SetCurrentMonth(d: Date)
      modifies this
      ensures currentMonth == d
      ensures transactions == old(transactions) && recurringPayments == old(recurringPayments)
    {
      currentMonth := d;
    }

    /** `getCurrentMonthData()`. */
    function CurrentMonthData(): (r: MonthlyData)
      reads this
      ensures forall t :: t in r.transactions <==> t in transactions && SameMonth(t.date, currentMonth)
      ensures r.balance == r.totalIncome - r.totalExpenses
    {
      MonthData(transactions, currentMonth)
    }

    /** `getFinancialSummary()` over the hook's list and month. */
    method FinancialSummaryOf() returns (s: Summary)
      requires 1 <= currentMonth.month <= 12
      ensures s.currentMonth == CurrentMonthData()
      ensures s.previousMonth == MonthData(transactions, PreviousMonth(currentMonth))
      ensures s.yearToDate.totalIncome == TypeTotal(InYear(transactions, currentMonth.year), Income)
      ensures s.yearToDate.totalExpenses == TypeTotal(InYear(transactions, currentMonth.year), Expense)
      ensures SummarySum(s.expenseBreakdown) == s.currentMonth.totalExpenses
      ensures SummarySum(s.incomeBreakdown) == s.currentMonth.totalIncome
    {
      s := GetFinancialSummary(transactions, currentMonth);
    }
  }
}
