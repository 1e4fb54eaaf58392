/**
 * The transaction form of src/components/TransactionForm.tsx: its fields,
 * the validation that collects one message per failing field, and the
 * submit, reset and type-change transitions. The add and update calls are
 * returned as values; whether they reject (and with what message) is a
 * parameter, and "now" is the `today` parameter.
 */
module TransactionForm {
  import opened Wrappers
  import opened Text
  import opened Numbers
  import opened Dates
  import opened Transactions

  /** `formData`; the amount box already holds `parseFloat(text) || 0`. */
  datatype FormData = FormData(txType: TxType, category: string, amount: real, description: string, date: string)

  datatype ErrorKey = CategoryKey | AmountKey | DescriptionKey | DateKey | SubmitKey

  const FieldKeys: set<ErrorKey> := {CategoryKey, AmountKey, DescriptionKey, DateKey}

  const DefaultSubmitError: string := "Error al guardar la transacción"

  function Message(k: ErrorKey): string {
    match k
    case CategoryKey => "La categoría es obligatoria"
    case AmountKey => "El monto debe ser mayor a 0"
    case DescriptionKey => "La descripción es obligatoria"
    case DateKey => "La fecha es obligatoria"
    case SubmitKey => DefaultSubmitError
  }

  /** The rule each field is held to: which fields of the form fail. */
  predicate Fails(form: FormData, k: ErrorKey) {
    match k
    case CategoryKey => form.category == ""
    case AmountKey => form.amount <= 0.0
    case DescriptionKey => Trim(form.description) == ""
    case DateKey => form.date == ""
    case SubmitKey => false
  }

  /** The messages of the failing fields among `keys`. */
  function ErrorsAmong(form: FormData, keys: set<ErrorKey>): map<ErrorKey, string> {
    map k | k in keys && Fails(form, k) :: Message(k)
  }

  /** The errors the form should show: the message of every failing field. */
  function ExpectedErrors(form: FormData): (r: map<ErrorKey, string>)
    ensures r.Keys <= FieldKeys && forall k | k in r :: r[k] == Message(k)
    ensures CategoryKey in r <==> form.category == ""
    ensures AmountKey in r <==> form.amount <= 0.0
    ensures DescriptionKey in r <==> Trim(form.description) == ""
    ensures DateKey in r <==> form.date == ""
  {
    ErrorsAmong(form, FieldKeys)
  }

  /** Checking one more field adds its message exactly when it fails. */
  lemma {:induction false} CheckField(form: FormData, m: map<ErrorKey, string>, keys: set<ErrorKey>, k: ErrorKey)
    requires m == ErrorsAmong(form, keys)
    ensures ErrorsAmong(form, keys + {k}) == if Fails(form, k) then m[k := Message(k)] else m
  {
  }

  /** `validateForm()`: the messages collected one field at a time. */
  method ValidateForm(form: FormData) returns (newErrors: map<ErrorKey, string>)
    ensures newErrors == ExpectedErrors(form)
  {
    newErrors := map[];
    assert newErrors == ErrorsAmong(form, {});
    CheckField(form, newErrors, {}, CategoryKey);
    if form.category == "" {
      newErrors := newErrors[CategoryKey := Message(CategoryKey)];
    }
    CheckField(form, newErrors, {} + {CategoryKey}, AmountKey);
    if form.amount <= 0.0 {
      newErrors := newErrors[AmountKey := Message(AmountKey)];
    }
    CheckField(form, newErrors, {} + {CategoryKey} + {AmountKey}, DescriptionKey);
    if Trim(form.description) == "" {
      newErrors := newErrors[DescriptionKey := Message(DescriptionKey)];
    }
    CheckField(form, newErrors, {} + {CategoryKey} + {AmountKey} + {DescriptionKey}, DateKey);
    if form.date == "" {
      newErrors := newErrors[DateKey := Message(DateKey)];
    }
    assert FieldKeys == {} + {CategoryKey} + {AmountKey} + {DescriptionKey} + {DateKey};
  }

  /** The form passes validation exactly when every field is filled in and the amount is positive. */
  lemma {:induction false} ValidIffAllFieldsFilled(form: FormData)
    ensures |ExpectedErrors(form)| == 0 <==>
      form.category != "" && form.amount > 0.0 && Trim(form.description) != "" && form.date != ""
  {
    var e := ExpectedErrors(form);
    if form.category == "" { assert CategoryKey in e; }
    if form.amount <= 0.0 { assert AmountKey in e; }
    if Trim(form.description) == "" { assert DescriptionKey in e; }
    if form.date == "" { assert DateKey in e; }
    if form.category != "" && form.amount > 0.0 && Trim(form.description) != "" && form.date != "" {
      assert e.Keys == {};
    }
  }

  /** The opening state: the edited transaction's fields, or the defaults with today's date. */
  function InitialForm(editing: Option<Transaction>, today: Date): (r: FormData)
    requires editing.Some? ==> ValidDate(editing.value.date) && 0 <= editing.value.date.year <= 9999
    requires ValidDate(today) && 0 <= today.year <= 9999
    ensures editing.None? ==> r == FormData(Expense, "", 0.0, "", FormatIsoDate(today))
    ensures editing.Some? ==>
      (r.txType == editing.value.txType && r.category == editing.value.category
       && r.amount == editing.value.amount && r.description == editing.value.description
       && ParseIsoDate(r.date) == Some(editing.value.date))
  {
    match editing
    case None => FormData(Expense, "", 0.0, "", FormatIsoDate(today))
    case Some(t) =>
      IsoDateRoundTrip(t.date);
      FormData(t.txType, t.category, t.amount, t.description, FormatIsoDate(t.date))
  }

  /** `transactionData`: the date box read by `new Date`, `None` standing for an invalid date. */
  datatype TransactionData = TransactionData(txType: TxType, category: string, amount: real, description: string, date: Option<Date>)

  datatype SubmitCall = Add(data: TransactionData) | Update(id: string, data: TransactionData)

  function DataOf(form: FormData): (r: TransactionData)
    ensures r.txType == form.txType && r.category == form.category && r.amount == form.amount
    ensures r.description == form.description
    ensures r.date == ParseIsoDate(form.date)
    ensures r.date.Some? ==> FormatIsoDate(r.date.value) == form.date
  {
    var d := ParseIsoDate(form.date);
    assert d.Some? ==> FormatIsoDate(d.value) == form.date by {
      if d.Some? { IsoDateFormatParse(form.date); }
    }
    TransactionData(form.txType, form.category, form.amount, form.description, d)
  }

  /** Submitting the form of an edited transaction unchanged hands back that transaction's own fields. */
  lemma {:induction false} UntouchedFormSubmitsTheTransaction(t: Transaction, today: Date)
    requires ValidDate(t.date) && 0 <= t.date.year <= 9999
    requires ValidDate(today) && 0 <= today.year <= 9999
    ensures DataOf(InitialForm(Some(t), today)) == TransactionData(t.txType, t.category, t.amount, t.description, Some(t.date))
  {
  }

  class TransactionFormState {
    var form: FormData
    var errors: map<ErrorKey, string>

    constructor(editing: Option<Transaction>, today: Date)
      requires editing.Some? ==> ValidDate(editing.value.date) && 0 <= editing.value.date.year <= 9999
      requires ValidDate(today) && 0 <= today.year <= 9999
      ensures form == InitialForm(editing, today) && errors == map[]
    {
      form := InitialForm(editing, today);
      errors := map[];
    }

    /** The type radio buttons: the new type, and the category chosen for the old one is cleared. */
    method SetType(t: TxType)
      modifies this
      ensures form == old(form).(txType := t, category := "")
      ensures errors == old(errors)
    {
      form := form.(txType := t, category := "");
    }

    method SetCategory(c: string)
      modifies this
      ensures form == old(form).(category := c) && errors == old(errors)
    {
      form := form.(category := c);
    }

    /** The amount box: `parseFloat(text) || 0`. */
    method SetAmountText(text: string)
      modifies this
      ensures form == old(form).(amount := FloatOrZero(text)) && errors == old(errors)
    {
      form := form.(amount := FloatOrZero(text));
    }

    method SetDescription(s: string)
      modifies this
      ensures form == old(form).(description := s) && errors == old(errors)
    {
      form := form.(description := s);
    }

    method SetDate(s: string)
      modifies this
      ensures form == old(form).(date := s) && errors == old(errors)
    {
      form := form.(date := s);
    }

    /** `resetForm()`: the defaults with today's date and no errors. */
    method ResetForm(today: Date)
      requires ValidDate(today) && 0 <= today.year <= 9999
      modifies this
      ensures form == InitialForm(None, today) && errors == map[]
    {
      form := InitialForm(None, today);
      errors := map[];
    }

    /**
     * `handleSubmit`: an invalid form shows its errors and calls nothing;
     * a valid one calls update (when editing) or add. When the call
     * succeeds the form is reset; when it fails with `failure` the fields
     * stay and the only error is its message, or the default one for an
     * empty message.
     */
    method HandleSubmit(editingId: Option<string>, today: Date, failure: Option<string>) returns (call: Option<SubmitCall>)
      requires ValidDate(today) && 0 <= today.year <= 9999
      modifies this
      ensures call.Some? <==> |ExpectedErrors(old(form))| == 0
      ensures call.Some? ==> call.value == (if editingId.Some? then Update(editingId.value, DataOf(old(form))) else Add(DataOf(old(form))))
      ensures call.None? ==> form == old(form) && errors == ExpectedErrors(old(form))
      ensures call.Some? && failure.None? ==> form == InitialForm(None, today) && errors == map[]
      ensures call.Some? && failure.Some? ==>
        form == old(form) && errors == map[SubmitKey := if failure.value != "" then failure.value else DefaultSubmitError]
    {
      var newErrors := ValidateForm(form);
      errors := newErrors;
      if |newErrors| != 0 {
        return None;
      }
      errors := map[];
      var data := DataOf(form);
      if editingId.Some? {
        call := Some(Update(editingId.value, data));
      } else {
        call := Some(Add(data));
      }
      if failure.None? {
        ResetForm(today);
      } else {
        errors := map[SubmitKey := if failure.value != "" then failure.value else DefaultSubmitError];
      }
    }

    /** `handleClose()`: the form is reset. */
    method HandleClose(today: Date)
      requires ValidDate(today) && 0 <= today.year <= 9999
      modifies this
      ensures form == InitialForm(None, today) && errors == map[]
    {
      ResetForm(today);
    }
  }
}
