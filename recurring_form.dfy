/**
 * The recurring payment form of src/components/RecurringPaymentForm.tsx:
 * its fields, the validation that collects one message per failing field,
 * and the submit, reset and type-change transitions. The add and update
 * calls are returned as values; they are not awaited, so the form resets
 * after every call.
 */
module RecurringForm {
  import opened Wrappers
  import opened Text
  import opened Numbers
  import opened Transactions

  /** `formData`; the amount box holds `parseFloat(text) || 0`, the day box `parseInt(text) || 1`. */
  datatype FormData = FormData(name: string, txType: TxType, category: string, amount: real, dayOfMonth: int, isActive: bool)

  datatype ErrorKey = NameKey | CategoryKey | AmountKey | DayKey

  const AllKeys: set<ErrorKey> := {NameKey, CategoryKey, AmountKey, DayKey}

  function Message(k: ErrorKey): string {
    match k
    case NameKey => "El nombre es obligatorio"
    case CategoryKey => "La categoría es obligatoria"
    case AmountKey => "El monto debe ser mayor a 0"
    case DayKey => "El día debe estar entre 1 y 31"
  }

  /** The rule each field is held to. */
  predicate Fails(form: FormData, k: ErrorKey) {
    match k
    case NameKey => Trim(form.name) == ""
    case CategoryKey => form.category == ""
    case AmountKey => form.amount <= 0.0
    case DayKey => form.dayOfMonth < 1 || form.dayOfMonth > 31
  }

  /** The messages of the failing fields among `keys`. */
  function ErrorsAmong(form: FormData, keys: set<ErrorKey>): map<ErrorKey, string> {
    map k | k in keys && Fails(form, k) :: Message(k)
  }

  /** The errors the form should show: the message of every failing field. */
  function ExpectedErrors(form: FormData): (r: map<ErrorKey, string>)
    ensures r.Keys <= AllKeys && forall k | k in r :: r[k] == Message(k)
    ensures NameKey in r <==> Trim(form.name) == ""
    ensures CategoryKey in r <==> form.category == ""
    ensures AmountKey in r <==> form.amount <= 0.0
    ensures DayKey in r <==> !(1 <= form.dayOfMonth <= 31)
  {
    ErrorsAmong(form, AllKeys)
  }

  /** Checking one more field adds its message exactly when it fails. */
  lemma {:induction false} CheckField(form: FormData, m: map<ErrorKey, string>, keys: set<ErrorKey>, k: ErrorKey)
    requires m == ErrorsAmong(form, keys)
    ensures ErrorsAmong(form, keys + {k}) == if Fails(form, k) then m[k := Message(k)] else m
  {
  }

  /** `validateForm()`: the messages collected one field at a time. */
  method ValidateForm(form: FormData) returns (newErrors: map<ErrorKey, string>)
    ensures newErrors == ExpectedErrors(form)
  {
    newErrors := map[];
    assert newErrors == ErrorsAmong(form, {});
    CheckField(form, newErrors, {}, NameKey);
    if Trim(form.name) == "" {
      newErrors := newErrors[NameKey := Message(NameKey)];
    }
    CheckField(form, newErrors, {} + {NameKey}, CategoryKey);
    if form.category == "" {
      newErrors := newErrors[CategoryKey := Message(CategoryKey)];
    }
    CheckField(form, newErrors, {} + {NameKey} + {CategoryKey}, AmountKey);
    if form.amount <= 0.0 {
      newErrors := newErrors[AmountKey := Message(AmountKey)];
    }
    CheckField(form, newErrors, {} + {NameKey} + {CategoryKey} + {AmountKey}, DayKey);
    if form.dayOfMonth < 1 || form.dayOfMonth > 31 {
      newErrors := newErrors[DayKey := Message(DayKey)];
    }
    assert AllKeys == {} + {NameKey} + {CategoryKey} + {AmountKey} + {DayKey};
  }

  /** The form passes validation exactly when name and category are filled in, the amount is positive and the day is 1 to 31. */
  lemma {:induction false} ValidIffAllFieldsFilled(form: FormData)
    ensures |ExpectedErrors(form)| == 0 <==>
      Trim(form.name) != "" && form.category != "" && form.amount > 0.0 && 1 <= form.dayOfMonth <= 31
  {
    var e := ExpectedErrors(form);
    if Trim(form.name) == "" { assert NameKey in e; }
    if form.category == "" { assert CategoryKey in e; }
    if form.amount <= 0.0 { assert AmountKey in e; }
    if !(1 <= form.dayOfMonth <= 31) { assert DayKey in e; }
    if Trim(form.name) != "" && form.category != "" && form.amount > 0.0 && 1 <= form.dayOfMonth <= 31 {
      assert e.Keys == {};
    }
  }

  const EmptyForm: FormData := FormData("", Expense, "", 0.0, 1, true)

  /** The opening state: the edited payment's fields (a day of 0 shown as 1), or the empty form. */
  function InitialForm(editing: Option<RecurringPayment>): (r: FormData)
    ensures editing.None? ==> r == EmptyForm
    ensures editing.Some? ==>
      (r.name == editing.value.name && r.txType == editing.value.txType && r.category == editing.value.category
       && r.amount == editing.value.amount && r.isActive == editing.value.isActive
       && r.dayOfMonth == (if editing.value.dayOfMonth == 0 then 1 else editing.value.dayOfMonth))
  {
    match editing
    case None => EmptyForm
    case Some(p) => FormData(p.name, p.txType, p.category, p.amount, if p.dayOfMonth != 0 then p.dayOfMonth else 1, p.isActive)
  }

  /** `paymentData`: the payment without its id. */
  datatype PaymentData = PaymentData(name: string, txType: TxType, category: string, amount: real, dayOfMonth: int, isActive: bool)

  datatype SubmitCall = Add(data: PaymentData) | Update(id: string, data: PaymentData)

  function DataOf(form: FormData): PaymentData {
    PaymentData(form.name, form.txType, form.category, form.amount, form.dayOfMonth, form.isActive)
  }

  /** The payment that data becomes once an id is given to it. */
  function WithId(d: PaymentData, id: string): RecurringPayment {
    RecurringPayment(id, d.name, d.amount, d.category, d.dayOfMonth, d.isActive, d.txType)
  }

  /** Submitting the form of an edited payment unchanged sends that payment back, when its day is not 0. */
  lemma {:induction false} UntouchedFormSubmitsThePayment(p: RecurringPayment)
    requires p.dayOfMonth != 0
    ensures WithId(DataOf(InitialForm(Some(p))), p.id) == p
  {
  }

  /** A valid form only ever submits a day the timeline and the generation can use. */
  lemma {:induction false} SubmittedDayInRange(form: FormData)
    requires |ExpectedErrors(form)| == 0
    ensures 1 <= DataOf(form).dayOfMonth <= 31 && DataOf(form).amount > 0.0
  {
    ValidIffAllFieldsFilled(form);
  }

  class RecurringFormState {
    var form: FormData
    var errors: map<ErrorKey, string>

    constructor(editing: Option<RecurringPayment>)
      ensures form == InitialForm(editing) && errors == map[]
    {
      form := InitialForm(editing);
      errors := map[];
    }

    /** The type radio buttons: the new type, and the category is cleared. */
    method SetType(t: TxType)
      modifies this
      ensures form == old(form).(txType := t, category := "") && errors == old(errors)
    {
      form := form.(txType := t, category := "");
    }

    method SetName(s: string)
      modifies this
      ensures form == old(form).(name := s) && errors == old(errors)
    {
      form := form.(name := s);
    }

    method SetCategory(c: string)
      modifies this
      ensures form == old(form).(category := c) && errors == old(errors)
    {
      form := form.(category := c);
    }

    /** The amount box: `parseFloat(text) || 0`. */
    method SetAmountText(text: string)
      modifies this
      ensures form == old(form).(amount := FloatOrZero(text)) && errors == old(errors)
    {
      form := form.(amount := FloatOrZero(text));
    }

    /** The day box: `parseInt(text) || 1`, so the field never holds 0. */
    method SetDayText(text: string)
      modifies this
      ensures form == old(form).(dayOfMonth := IntOrOne(text)) && errors == old(errors)
      ensures form.dayOfMonth != 0
    {
      form := form.(dayOfMonth := IntOrOne(text));
    }

    method SetActive(b: bool)
      modifies this
      ensures form == old(form).(isActive := b) && errors == old(errors)
    {
      form := form.(isActive := b);
    }

    /** `resetForm()`. */
    method ResetForm()
      modifies this
      ensures form == EmptyForm && errors == map[]
    {
      form := EmptyForm;
      errors := map[];
    }

    /**
     * `handleSubmit`: an invalid form shows its errors and calls nothing;
     * a valid one calls update (when editing) or add, and the form resets.
     */
    method HandleSubmit(editingId: Option<string>) returns (call: Option<SubmitCall>)
      modifies this
      ensures call.Some? <==> |ExpectedErrors(old(form))| == 0
      ensures call.Some? ==>
        call.value == (if editingId.Some? then Update(editingId.value, DataOf(old(form))) else Add(DataOf(old(form))))
        && form == EmptyForm && errors == map[]
      ensures call.None? ==> form == old(form) && errors == ExpectedErrors(old(form))
    {
      var newErrors := ValidateForm(form);
      errors := newErrors;
      if |newErrors| != 0 {
        return None;
      }
      var data := DataOf(form);
      if editingId.Some? {
        call := Some(Update(editingId.value, data));
      } else {
        call := Some(Add(data));
      }
      ResetForm();
    }

    /** `handleClose()`. */
    method HandleClose()
      modifies this
      ensures form == EmptyForm && errors == map[]
    {
      ResetForm();
    }
  }
}
