/**
 * `processRecurringPayments` of src/hooks/useFinancialData.ts: when the
 * data load, every active recurring payment whose day of the month has
 * come, and that has no automatic transaction of the same category and
 * amount in the current month yet, gets one, dated that day of the month.
 * "Today" and the generated ids are parameters; the id given to the
 * payment at position i is `ids[i]`.
 */
module RecurringGeneration {
  import opened Wrappers
  import opened Dates
  import opened Transactions

  /** The `find` test: an automatic transaction of that category and amount in today's month. */
  predicate Covers(t: Transaction, p: RecurringPayment, today: Date) {
    t.isRecurring == Some(true) && t.category == p.category && t.amount == p.amount && SameMonth(t.date, today)
  }

  predicate Covered(existing: seq<Transaction>, p: RecurringPayment, today: Date) {
    exists t :: t in existing && Covers(t, p, today)
  }

  /** Whether the payment gets a transaction this time. */
  predicate Generates(p: RecurringPayment, existing: seq<Transaction>, today: Date)
    ensures Generates(p, existing, today) ==> p.isActive && today.day >= p.dayOfMonth
    ensures forall t :: t in existing && Covers(t, p, today) ==> !Generates(p, existing, today)
  {
    p.isActive && !Covered(existing, p, today) && today.day >= p.dayOfMonth
  }

  /** The automatic transaction of a payment: dated `dayOfMonth` of today's month. */
  function AutomaticTransaction(p: RecurringPayment, id: string, today: Date): (r: Transaction)
    requires ValidDate(today)
    ensures r.isRecurring == Some(true) && r.recurringDay == Some(p.dayOfMonth)
    ensures r.txType == p.txType && r.category == p.category && r.amount == p.amount && r.id == id
    ensures r.description == p.name + " (Pago automático)"
  {
    Transaction(id, p.txType, p.category, p.amount, p.name + " (Pago automático)",
                MakeDate(today.year, today.month, p.dayOfMonth), Some(true), Some(p.dayOfMonth))
  }

  /** The transactions generated for `payments`, in payment order. */
  function Generated(payments: seq<RecurringPayment>, existing: seq<Transaction>, today: Date, ids: seq<string>): (r: seq<Transaction>)
    requires ValidDate(today) && |ids| >= |payments|
    ensures |r| <= |payments|
    ensures forall i :: 0 <= i < |payments| && Generates(payments[i], existing, today) ==>
      AutomaticTransaction(payments[i], ids[i], today) in r
    ensures forall t :: t in r ==>
      exists i :: 0 <= i < |payments| && Generates(payments[i], existing, today) && t == AutomaticTransaction(payments[i], ids[i], today)
  {
    if |payments| == 0 then []
    else
      var n := |payments| - 1;
      var rest := Generated(payments[..n], existing, today, ids);
      assert forall i :: 0 <= i < n ==> payments[..n][i] == payments[i];
      rest + if Generates(payments[n], existing, today) then [AutomaticTransaction(payments[n], ids[n], today)] else []
  }

  /**
   * `processRecurringPayments(payments, existing)`: the list to keep and
   * save, `None` when nothing was generated and nothing is saved.
   */
  method ProcessRecurringPayments(payments: seq<RecurringPayment>, existing: seq<Transaction>, today: Date, ids: seq<string>)
    returns (updated: Option<seq<Transaction>>)
    requires ValidDate(today) && |ids| >= |payments|
    ensures var g := Generated(payments, existing, today, ids);
      updated == if |g| > 0 then Some(existing + g) else None
  {
    var newTransactions: seq<Transaction> := [];
    var i := 0;
    while i < |payments|
      invariant 0 <= i <= |payments|
      invariant newTransactions == Generated(payments[..i], existing, today, ids)
    {
      var payment := payments[i];
      assert payments[..i + 1][..i] == payments[..i];
      if payment.isActive {
        var found := exists t :: t in existing && Covers(t, payment, today);
        if !found && today.day >= payment.dayOfMonth {
          newTransactions := newTransactions + [AutomaticTransaction(payment, ids[i], today)];
        }
      }
      i := i + 1;
    }
    assert payments[..|payments|] == payments;
    if |newTransactions| > 0 {
      updated := Some(existing + newTransactions);
    } else {
      updated := None;
    }
  }

  /** Inactive payments never generate anything. */
  lemma {:induction false} InactiveGenerateNothing(payments: seq<RecurringPayment>, existing: seq<Transaction>, today: Date, ids: seq<string>)
    requires ValidDate(today) && |ids| >= |payments|
    requires forall i :: 0 <= i < |payments| ==> !payments[i].isActive
    ensures Generated(payments, existing, today, ids) == []
  {
    NoneGenerates(payments, existing, today, ids);
  }

  lemma {:induction false} NoneGenerates(payments: seq<RecurringPayment>, existing: seq<Transaction>, today: Date, ids: seq<string>)
    requires ValidDate(today) && |ids| >= |payments|
    requires forall i :: 0 <= i < |payments| ==> !Generates(payments[i], existing, today)
    ensures Generated(payments, existing, today, ids) == []
  {
    if |payments| > 0 {
      var n := |payments| - 1;
      assert forall i :: 0 <= i < n ==> payments[..n][i] == payments[i];
      NoneGenerates(payments[..n], existing, today, ids);
    }
  }

  /** A payment due on a real day up to today is dated that day of today's month. */
  lemma {:induction false} AutomaticTransactionThisMonth(p: RecurringPayment, id: string, today: Date)
    requires ValidDate(today) && 1 <= p.dayOfMonth <= today.day
    ensures AutomaticTransaction(p, id, today).date == Date(today.year, today.month, p.dayOfMonth)
    ensures SameMonth(AutomaticTransaction(p, id, today).date, today)
  {
    MakeDateInRange(today.year, today.month, p.dayOfMonth);
  }

  /**
   * Running the generation again on the list it produced generates
   * nothing, whatever ids it is given: each generated transaction covers
   * its own payment for the rest of the month.
   */
  lemma {:induction false} SecondRunGeneratesNothing(payments: seq<RecurringPayment>, existing: seq<Transaction>, today: Date, ids: seq<string>, ids2: seq<string>)
    requires ValidDate(today) && |ids| >= |payments| && |ids2| >= |payments|
    requires forall i :: 0 <= i < |payments| ==> payments[i].dayOfMonth >= 1
    ensures var first := Generated(payments, existing, today, ids);
      Generated(payments, existing + first, today, ids2) == []
  {
    var first := Generated(payments, existing, today, ids);
    var all := existing + first;
    forall i | 0 <= i < |payments|
      ensures !Generates(payments[i], all, today)
    {
      var p := payments[i];
      if Generates(p, existing, today) {
        var t := AutomaticTransaction(p, ids[i], today);
        AutomaticTransactionThisMonth(p, ids[i], today);
        assert t in all && Covers(t, p, today);
      } else if p.isActive && today.day >= p.dayOfMonth {
        var t :| t in existing && Covers(t, p, today);
        assert t in all;
      }
    }
    NoneGenerates(payments, all, today, ids2);
  }
}
