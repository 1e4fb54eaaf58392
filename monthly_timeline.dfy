/**
 * The month timeline of src/components/MonthlyTimeline.tsx: one event per
 * transaction of the month on display and one per active recurring
 * payment, each marked completed, today or upcoming against today's date,
 * sorted by date, grouped by day of the month and counted by status.
 * "Today" is a parameter.
 */
module MonthlyTimeline {
  import opened Dates
  import opened Sorting
  import opened Transactions

  datatype Status = Completed | Upcoming | Today
  datatype Icon = TrendingUp | TrendingDown | CreditCard

  datatype Event = Event(
    id: string,
    date: Date,
    title: string,
    description: string,
    amount: real,
    kind: TxType,
    status: Status,
    icon: Icon,
    color: string,
    day: int)

  /** `isCurrentMonth`: the month on display is today's month. */
  predicate IsCurrentMonth(currentMonth: Date, today: Date) {
    today.year == currentMonth.year && today.month == currentMonth.month
  }

  /** A transaction's status: by its day against today's in today's month, completed in any other month. */
  function TransactionStatus(day: int, currentMonth: Date, today: Date): (r: Status)
    ensures r == Today <==> IsCurrentMonth(currentMonth, today) && day == today.day
    ensures r == Upcoming <==> IsCurrentMonth(currentMonth, today) && day > today.day
    ensures r == Completed <==> !IsCurrentMonth(currentMonth, today) || day < today.day
  {
    if IsCurrentMonth(currentMonth, today) then
      if day == today.day then Today else if day > today.day then Upcoming else Completed
    else
      Completed
  }

  /**
   * A recurring payment's status: in today's month the same day rule as a
   * transaction; otherwise completed for a month before today's, upcoming
   * for a later one.
   */
  function PaymentStatus(day: int, currentMonth: Date, today: Date): (r: Status)
    requires ValidDate(currentMonth) && ValidDate(today)
    ensures IsCurrentMonth(currentMonth, today) ==> r == TransactionStatus(day, currentMonth, today)
    ensures !IsCurrentMonth(currentMonth, today) ==>
      (r == Completed <==> currentMonth.year * 12 + currentMonth.month < today.year * 12 + today.month)
    ensures !IsCurrentMonth(currentMonth, today) ==> r != Today
  {
    if IsCurrentMonth(currentMonth, today) then
      if day == today.day then Today else if day < today.day then Completed else Upcoming
    else if DateBefore(currentMonth, today) then
      assert currentMonth.year < today.year ==> currentMonth.year * 12 + 12 <= today.year * 12;
      Completed
    else
      Upcoming
  }

  /** The event of a transaction of the month on display. */
  function TransactionEvent(t: Transaction, currentMonth: Date, today: Date): (e: Event)
    ensures e.date == t.date && e.day == t.date.day && e.amount == t.amount && e.kind == t.txType
    ensures e.status == TransactionStatus(t.date.day, currentMonth, today)
  {
    Event("transaction-" + t.id, t.date, t.description, t.category, t.amount, t.txType,
          TransactionStatus(t.date.day, currentMonth, today),
          if t.txType == Income then TrendingUp else TrendingDown,
          if t.txType == Income then "text-green-600" else "text-red-600",
          t.date.day)
  }

  /** The event of an active recurring payment, dated its day of the month on display. */
  function PaymentEvent(p: RecurringPayment, currentMonth: Date, today: Date): (e: Event)
    requires ValidDate(currentMonth) && ValidDate(today)
    ensures e.date == MakeDate(currentMonth.year, currentMonth.month, p.dayOfMonth)
    ensures e.day == p.dayOfMonth && e.amount == p.amount && e.kind == p.txType
    ensures e.status == PaymentStatus(p.dayOfMonth, currentMonth, today)
  {
    Event("recurring-" + p.id, MakeDate(currentMonth.year, currentMonth.month, p.dayOfMonth), p.name,
          p.category + " - Pago recurrente", p.amount, p.txType,
          PaymentStatus(p.dayOfMonth, currentMonth, today),
          if p.txType == Income then TrendingUp else CreditCard,
          if p.txType == Income then "text-green-600" else "text-blue-600",
          p.dayOfMonth)
  }

  /** The events of the transactions dated in the month on display, in list order. */
  function TransactionEvents(ts: seq<Transaction>, currentMonth: Date, today: Date): (r: seq<Event>)
    ensures |r| <= |ts|
    ensures forall e :: e in r ==> SameMonth(e.date, currentMonth)
    ensures forall t :: t in ts && SameMonth(t.date, currentMonth) ==> TransactionEvent(t, currentMonth, today) in r
  {
    if |ts| == 0 then []
    else
      var n := |ts| - 1;
      var rest := TransactionEvents(ts[..n], currentMonth, today);
      assert forall t :: t in ts ==> t in ts[..n] || t == ts[n];
      rest + if SameMonth(ts[n].date, currentMonth) then [TransactionEvent(ts[n], currentMonth, today)] else []
  }

  /** `recurringPayments.filter(payment => payment.isActive)`. */
  function Active(ps: seq<RecurringPayment>): (r: seq<RecurringPayment>)
    ensures |r| <= |ps|
    ensures forall p :: p in r <==> p in ps && p.isActive
  {
    if |ps| == 0 then []
    else (if ps[0].isActive then [ps[0]] else []) + Active(ps[1..])
  }

  /** One event per payment, in order. */
  function PaymentEvents(ps: seq<RecurringPayment>, currentMonth: Date, today: Date): (r: seq<Event>)
    requires ValidDate(currentMonth) && ValidDate(today)
    ensures |r| == |ps|
    ensures forall i :: 0 <= i < |ps| ==> r[i] == PaymentEvent(ps[i], currentMonth, today)
  {
    if |ps| == 0 then []
    else PaymentEvents(ps[..|ps| - 1], currentMonth, today) + [PaymentEvent(ps[|ps| - 1], currentMonth, today)]
  }

  /** `a.date.getTime() - b.date.getTime()` is negative. */
  predicate EventBefore(a: Event, b: Event) {
    DateBefore(a.date, b.date)
  }

  lemma {:induction false} EventBeforeIsStrictOrder()
    ensures StrictOrder(EventBefore)
  {
    forall e: Event ensures !EventBefore(e, e) {
      DateBeforeTotal(e.date, e.date);
    }
  }

  /**
   * `timelineEvents`: the transaction events pushed first, then those of
   * the active payments, and the whole sorted by date.
   */
  method TimelineEvents(ts: seq<Transaction>, ps: seq<RecurringPayment>, currentMonth: Date, today: Date)
    returns (events: seq<Event>)
    requires ValidDate(currentMonth) && ValidDate(today)
    ensures events == SortWith(TransactionEvents(ts, currentMonth, today) + PaymentEvents(Active(ps), currentMonth, today), EventBefore)
  {
    var fromTransactions := PushTransactionEvents(ts, currentMonth, today);
    var fromPayments := PushPaymentEvents(Active(ps), currentMonth, today);
    events := SortWith(fromTransactions + fromPayments, EventBefore);
  }

  /** The first `forEach`: one event per transaction of the shown month, in list order. */
  method PushTransactionEvents(ts: seq<Transaction>, currentMonth: Date, today: Date) returns (events: seq<Event>)
    requires ValidDate(currentMonth) && ValidDate(today)
    ensures events == TransactionEvents(ts, currentMonth, today)
  {
    events := [];
    var i := 0;
    while i < |ts|
      invariant 0 <= i <= |ts|
      invariant events == TransactionEvents(ts[..i], currentMonth, today)
    {
      assert ts[..i + 1][..i] == ts[..i];
      if SameMonth(ts[i].date, currentMonth) {
        events := events + [TransactionEvent(ts[i], currentMonth, today)];
      }
      i := i + 1;
    }
    assert ts[..|ts|] == ts;
  }

  /** The second `forEach`: one event per active payment, in list order. */
  method PushPaymentEvents(active: seq<RecurringPayment>, currentMonth: Date, today: Date) returns (events: seq<Event>)
    requires ValidDate(currentMonth) && ValidDate(today)
    ensures events == PaymentEvents(active, currentMonth, today)
  {
    events := [];
    var j := 0;
    while j < |active|
      invariant 0 <= j <= |active|
      invariant events == PaymentEvents(active[..j], currentMonth, today)
    {
      assert active[..j + 1][..j] == active[..j];
      events := events + [PaymentEvent(active[j], currentMonth, today)];
      j := j + 1;
    }
    assert active[..|active|] == active;
  }

  /** The sorted timeline is in date order and holds exactly the events pushed. */
  lemma {:induction false} TimelineSorted(pushed: seq<Event>)
    ensures SortedBy(SortWith(pushed, EventBefore), EventBefore)
    ensures multiset(SortWith(pushed, EventBefore)) == multiset(pushed)
  {
    EventBeforeIsStrictOrder();
    SortWithSorted(pushed, EventBefore);
  }

  /** Every active payment has its event among those pushed, and every transaction of the month its own. */
  lemma {:induction false} TimelineCoversMonth(ts: seq<Transaction>, ps: seq<RecurringPayment>, currentMonth: Date, today: Date)
    requires ValidDate(currentMonth) && ValidDate(today)
    ensures var pushed := TransactionEvents(ts, currentMonth, today) + PaymentEvents(Active(ps), currentMonth, today);
      (forall p :: p in ps && p.isActive ==> PaymentEvent(p, currentMonth, today) in pushed)
      && (forall t :: t in ts && SameMonth(t.date, currentMonth) ==> TransactionEvent(t, currentMonth, today) in pushed)
      && |pushed| == |TransactionEvents(ts, currentMonth, today)| + |Active(ps)|
  {
    var te := TransactionEvents(ts, currentMonth, today);
    var active := Active(ps);
    var pe := PaymentEvents(active, currentMonth, today);
    forall p | p in ps && p.isActive
      ensures PaymentEvent(p, currentMonth, today) in te + pe
    {
      var k :| 0 <= k < |active| && active[k] == p;
      assert (te + pe)[|te| + k] == pe[k];
    }
  }

  /** A payment whose day exists in the month on display is dated in that month, on that day. */
  lemma {:induction false} PaymentEventInMonth(p: RecurringPayment, currentMonth: Date, today: Date)
    requires ValidDate(currentMonth) && ValidDate(today) && 1 <= p.dayOfMonth <= DaysInMonth(currentMonth.year, currentMonth.month)
    ensures PaymentEvent(p, currentMonth, today).date == Date(currentMonth.year, currentMonth.month, p.dayOfMonth)
    ensures SameMonth(PaymentEvent(p, currentMonth, today).date, currentMonth)
  {
    MakeDateInRange(currentMonth.year, currentMonth.month, p.dayOfMonth);
  }

  /** The events of one day of the month, in timeline order. */
  function OnDay(events: seq<Event>, d: int): (r: seq<Event>)
    ensures forall e :: e in r <==> e in events && e.day == d
    ensures |r| <= |events|
  {
    if |events| == 0 then []
    else
      var n := |events| - 1;
      var rest := OnDay(events[..n], d);
      assert forall e :: e in events <==> e in events[..n] || e == events[n];
      rest + if events[n].day == d then [events[n]] else []
  }

  /** One more event extends its own day's group and no other. */
  lemma {:induction false} OnDayStep(events: seq<Event>, i: nat)
    requires i < |events|
    ensures forall d :: OnDay(events[..i + 1], d) == OnDay(events[..i], d) + if events[i].day == d then [events[i]] else []
  {
    assert events[..i + 1][..i] == events[..i];
  }

  /** Adding event `i` to its day's group keeps every group equal to its day's events so far. */
  lemma {:induction false} GroupStep(events: seq<Event>, i: int, grouped: map<int, seq<Event>>, group: seq<Event>)
    requires 0 <= i < |events|
    requires forall d :: d in grouped <==> OnDay(events[..i], d) != []
    requires forall d | d in grouped :: grouped[d] == OnDay(events[..i], d)
    requires group == if events[i].day in grouped then grouped[events[i].day] else []
    ensures var after := grouped[events[i].day := group + [events[i]]];
      && (forall d :: d in after <==> OnDay(events[..i + 1], d) != [])
      && (forall d | d in after :: after[d] == OnDay(events[..i + 1], d))
  {
    var e := events[i];
    var after := grouped[e.day := group + [e]];
    assert group == OnDay(events[..i], e.day);
    OnDayStep(events, i);
    forall d
      ensures (d in after <==> OnDay(events[..i + 1], d) != [])
      ensures d in after ==> after[d] == OnDay(events[..i + 1], d)
    {
      if d != e.day {
        assert OnDay(events[..i + 1], d) == OnDay(events[..i], d);
        assert d in after <==> d in grouped;
      }
    }
  }

  /**
   * `eventsByDay`: a group for every day that has an event, holding that
   * day's events in timeline order.
   */
  method EventsByDay(events: seq<Event>) returns (grouped: map<int, seq<Event>>)
    ensures forall d :: d in grouped <==> OnDay(events, d) != []
    ensures forall d | d in grouped :: grouped[d] == OnDay(events, d)
  {
    grouped := map[];
    var i := 0;
    while i < |events|
      invariant 0 <= i <= |events|
      invariant forall d :: d in grouped <==> OnDay(events[..i], d) != []
      invariant forall d | d in grouped :: grouped[d] == OnDay(events[..i], d)
    {
      var e := events[i];
      var group: seq<Event> := [];
      if e.day in grouped {
        group := grouped[e.day];
      }
      GroupStep(events, i, grouped, group);
      grouped := grouped[e.day := group + [e]];
      i := i + 1;
    }
    assert events[..|events|] == events;
  }

  /** Every event is in the group of its own day and in no other group. */
  lemma {:induction false} EachEventInOneGroup(events: seq<Event>, e: Event, d: int)
    requires e in events
    ensures e in OnDay(events, e.day)
    ensures d != e.day ==> e !in OnDay(events, d)
  {
  }

  /** `timelineEvents.filter(e => e.status === s).length`. */
  function CountStatus(events: seq<Event>, s: Status): (n: nat)
    ensures n <= |events|
  {
    if |events| == 0 then 0
    else CountStatus(events[..|events| - 1], s) + (if events[|events| - 1].status == s then 1 else 0)
  }

  /** The three counts of the summary add up to the number of events. */
  lemma {:induction false} CountsAddUp(events: seq<Event>)
    ensures CountStatus(events, Completed) + CountStatus(events, Today) + CountStatus(events, Upcoming) == |events|
  {
    if |events| > 0 {
      CountsAddUp(events[..|events| - 1]);
    }
  }
}
