/**
 * The conversions of src/utils/supabaseStorage.ts between the application's
 * records and the rows of the `transactions` and `recurring_payments`
 * tables, and the column patches its two update calls build. Dates travel
 * as `YYYY-MM-DD`, the date part of the ISO form.
 */
module DbRows {
  import opened Wrappers
  import opened Dates
  import opened Transactions

  datatype TransactionRow = TransactionRow(
    id: string,
    userId: string,
    txType: TxType,
    category: string,
    amount: real,
    description: string,
    date: string,
    isRecurring: bool,
    recurringDay: Option<int>)

  /** The row `convertToDbTransaction` builds, before the database adds its id. */
  datatype NewTransactionRow = NewTransactionRow(
    userId: string,
    txType: TxType,
    category: string,
    amount: real,
    description: string,
    date: string,
    isRecurring: bool,
    recurringDay: Option<int>)

  datatype PaymentRow = PaymentRow(
    id: string,
    userId: string,
    name: string,
    amount: real,
    category: string,
    dayOfMonth: int,
    isActive: bool,
    txType: TxType)

  datatype NewPaymentRow = NewPaymentRow(
    userId: string,
    name: string,
    amount: real,
    category: string,
    dayOfMonth: int,
    isActive: bool,
    txType: TxType)

  /** A date the converters can write: a real calendar day with a four-digit year. */
  predicate Writable(d: Date) {
    ValidDate(d) && 0 <= d.year <= 9999
  }

  /** `date.toISOString().split('T')[0]`: the date column a date is written as, read back as the same date. */
  function DateColumn(d: Date): (r: string)
    requires Writable(d)
    ensures |r| == 10 && ParseIsoDate(r) == Some(d)
  {
    IsoDateRoundTrip(d);
    FormatIsoDate(d)
  }

  /**
   * `convertFromDbTransaction(row)`: the `date` column holds a date, which
   * `new Date` reads back; a null or 0 `recurring_day` becomes undefined.
   */
  function FromDbTransaction(row: TransactionRow): (r: Transaction)
    requires ParseIsoDate(row.date).Some?
    ensures r.id == row.id && r.isRecurring == Some(row.isRecurring)
    ensures r.recurringDay.None? <==> row.recurringDay.None? || row.recurringDay == Some(0)
    ensures r.date == ParseIsoDate(row.date).value
  {
    Transaction(row.id, row.txType, row.category, row.amount, row.description,
                ParseIsoDate(row.date).value, Some(row.isRecurring),
                if row.recurringDay == Some(0) then None else row.recurringDay)
  }

  /**
   * `convertToDbTransaction(t, userId)`: `isRecurring || false`, and
   * `recurringDay || null`, so a day of 0 is written as null.
   */
  function ToDbTransaction(t: Transaction, userId: string): (r: NewTransactionRow)
    requires Writable(t.date)
    ensures r.isRecurring <==> t.isRecurring == Some(true)
    ensures r.recurringDay.None? <==> t.recurringDay.None? || t.recurringDay == Some(0)
    ensures ParseIsoDate(r.date) == Some(t.date)
  {
    NewTransactionRow(userId, t.txType, t.category, t.amount, t.description, DateColumn(t.date),
                      t.isRecurring == Some(true),
                      if t.recurringDay == Some(0) then None else t.recurringDay)
  }

  /** The row the insert returns: the new row under the id the database gave it. */
  function Inserted(row: NewTransactionRow, id: string): (r: TransactionRow)
    ensures r.id == id && r.userId == row.userId && r.txType == row.txType && r.category == row.category
    ensures r.amount == row.amount && r.description == row.description && r.date == row.date
    ensures r.isRecurring == row.isRecurring && r.recurringDay == row.recurringDay
  {
    TransactionRow(id, row.userId, row.txType, row.category, row.amount, row.description, row.date, row.isRecurring, row.recurringDay)
  }

  /**
   * A transaction written and read back is the same transaction, except
   * that a missing `isRecurring` comes back as `false` and a `recurringDay`
   * of 0 comes back missing.
   */
  lemma {:induction false} TransactionRoundTrip(t: Transaction, userId: string)
    requires Writable(t.date)
    ensures var back := FromDbTransaction(Inserted(ToDbTransaction(t, userId), t.id));
      back == t.(isRecurring := Some(t.isRecurring == Some(true)),
                 recurringDay := if t.recurringDay == Some(0) then None else t.recurringDay)
  {
  }

  /** A transaction that says whether it recurs and has no day 0 survives the trip unchanged. */
  lemma {:induction false} TransactionRoundTripExact(t: Transaction, userId: string)
    requires Writable(t.date) && t.isRecurring.Some? && t.recurringDay != Some(0)
    ensures FromDbTransaction(Inserted(ToDbTransaction(t, userId), t.id)) == t
  {
    TransactionRoundTrip(t, userId);
    assert Some(t.isRecurring == Some(true)) == t.isRecurring by {
      if t.isRecurring.value {} else {}
    }
  }

  /** A `recurringDay` of 0 is lost on the way. */
  lemma {:induction false} DayZeroIsLost(t: Transaction, userId: string)
    requires Writable(t.date) && t.recurringDay == Some(0)
    ensures FromDbTransaction(Inserted(ToDbTransaction(t, userId), t.id)).recurringDay == None
  {
  }

  function FromDbRecurringPayment(row: PaymentRow): (r: RecurringPayment)
    ensures r.id == row.id && r.dayOfMonth == row.dayOfMonth && r.isActive == row.isActive
  {
    RecurringPayment(row.id, row.name, row.amount, row.category, row.dayOfMonth, row.isActive, row.txType)
  }

  function ToDbRecurringPayment(p: RecurringPayment, userId: string): (r: NewPaymentRow)
    ensures r.userId == userId && r.dayOfMonth == p.dayOfMonth && r.isActive == p.isActive
  {
    NewPaymentRow(userId, p.name, p.amount, p.category, p.dayOfMonth, p.isActive, p.txType)
  }

  function InsertedPayment(row: NewPaymentRow, id: string): (r: PaymentRow)
    ensures r.id == id && r.userId == row.userId && r.name == row.name && r.amount == row.amount
    ensures r.category == row.category && r.dayOfMonth == row.dayOfMonth && r.isActive == row.isActive && r.txType == row.txType
  {
    PaymentRow(id, row.userId, row.name, row.amount, row.category, row.dayOfMonth, row.isActive, row.txType)
  }

  /** A recurring payment written and read back under its id is unchanged. */
  lemma {:induction false} PaymentRoundTrip(p: RecurringPayment, userId: string)
    ensures FromDbRecurringPayment(InsertedPayment(ToDbRecurringPayment(p, userId), p.id)) == p
  {
  }

  /** The columns an update sends; `None` for a column left out of the update object. */
  datatype TransactionColumns = TransactionColumns(
    txType: Option<TxType>,
    category: Option<string>,
    amount: Option<real>,
    description: Option<string>,
    date: Option<string>,
    isRecurring: Option<bool>,
    recurringDay: Option<int>)

  datatype PaymentColumns = PaymentColumns(
    name: Option<string>,
    amount: Option<real>,
    category: Option<string>,
    dayOfMonth: Option<int>,
    isActive: Option<bool>,
    txType: Option<TxType>)

  /** `if (value) …`: present and not the empty string. */
  function IfTruthy(s: Option<string>): (r: Option<string>)
    ensures r.Some? <==> s.Some? && s.value != ""
    ensures r.Some? ==> r == s
  {
    if s.Some? && s.value != "" then s else None
  }

  /**
   * The `dbUpdates` of `updateTransaction`: type, category, description
   * and date only when truthy, amount, isRecurring and recurringDay
   * whenever given (0 and false included); the id is never sent.
   */
  function TransactionUpdates(p: TransactionPatch): (r: TransactionColumns)
    requires p.date.Some? ==> Writable(p.date.value)
    ensures r.txType == p.txType && r.amount == p.amount && r.isRecurring == p.isRecurring && r.recurringDay == p.recurringDay
    ensures r.category.Some? <==> p.category.Some? && p.category.value != ""
    ensures r.description.Some? <==> p.description.Some? && p.description.value != ""
    ensures r.date.Some? <==> p.date.Some?
    ensures p.date.Some? ==> ParseIsoDate(r.date.value) == p.date
  {
    TransactionColumns(
      p.txType,
      IfTruthy(p.category),
      p.amount,
      IfTruthy(p.description),
      if p.date.Some? then Some(DateColumn(p.date.value)) else None,
      p.isRecurring,
      p.recurringDay)
  }

  /**
   * The `dbUpdates` of `updateRecurringPayment`: name, category and type
   * only when truthy, amount, day and active flag whenever given.
   */
  function PaymentUpdates(p: PaymentPatch): (r: PaymentColumns)
    ensures r.amount == p.amount && r.dayOfMonth == p.dayOfMonth && r.isActive == p.isActive && r.txType == p.txType
    ensures r.name.Some? <==> p.name.Some? && p.name.value != ""
    ensures r.category.Some? <==> p.category.Some? && p.category.value != ""
  {
    PaymentColumns(IfTruthy(p.name), p.amount, IfTruthy(p.category), p.dayOfMonth, p.isActive, p.txType)
  }

  /** The row after an update: every column sent replaces the stored one. */
  function ApplyTransactionUpdates(row: TransactionRow, c: TransactionColumns): (r: TransactionRow)
    ensures r.id == row.id && r.userId == row.userId
    ensures c.amount.Some? ==> r.amount == c.amount.value
    ensures c.amount.None? && c.date.None? ==> r.amount == row.amount && r.date == row.date
    ensures c == TransactionColumns(None, None, None, None, None, None, None) ==> r == row
  {
    TransactionRow(row.id, row.userId, c.txType.GetOr(row.txType), c.category.GetOr(row.category),
                   c.amount.GetOr(row.amount), c.description.GetOr(row.description), c.date.GetOr(row.date),
                   c.isRecurring.GetOr(row.isRecurring),
                   if c.recurringDay.Some? then c.recurringDay else row.recurringDay)
  }

  /**
   * Updating a stored row with a patch that holds no empty text, no id and
   * no day 0 reads back as the stored transaction merged with the patch,
   * as the local list's update gives.
   */
  lemma {:induction false} UpdateAgreesWithMerge(row: TransactionRow, p: TransactionPatch)
    requires ParseIsoDate(row.date).Some?
    requires p.date.Some? ==> Writable(p.date.value)
    requires p.id.None? && p.category != Some("") && p.description != Some("") && p.recurringDay != Some(0)
    requires row.recurringDay != Some(0)
    ensures var after := ApplyTransactionUpdates(row, TransactionUpdates(p));
      ParseIsoDate(after.date).Some? && FromDbTransaction(after) == MergeTransaction(FromDbTransaction(row), p)
  {
  }
}
