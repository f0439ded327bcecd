/** What recording a payment answers and changes, said from the request and the rows. */
module PaymentAnswers {
  import opened Basics
  import opened Decimal
  import opened Calculation
  import opened Pricing
  import opened Books
  import opened Services
  import opened Invariants
  import opened Preservation
  import opened Runs
  import opened BankProofs
  import opened Reachability
  import opened Replay
  import opened DraftAnswers
  import opened LedgerAnswers

  /**
   The request asks for this payment: the amount it denotes, at the invoice's precision, with its day and reference.
   */
  predicate Asks(s: State, id: nat, data: PaymentData, p: Payment)
    requires id < |s.invoices|
  {
    && data.PaymentData? && p.invoice == id
    && data.amount.Number? && Is(data.amount.d, 6, p.amount) && 0 < p.amount <= MAX_AMOUNT
    && p.amount % Quantum(s.company.precision) == 0
    && data.date == Given(p.date) && Leq(s.invoices[id].issue, p.date)
    && Taken(data.reference, Some(""), p.reference) && |p.reference| <= 200
  }

  /** A payment may be recorded: who, on what, under which key. */
  predicate MayPay(s: State, actor: Actor, id: nat, key: Option<Key>) {
    MayPost(actor) && id < |s.invoices| && s.invoices[id].status == Validated && key.Some? && KeyUsable(key.value)
  }

  predicate PostsPayment(s: State) {
    BankJournal in s.journals && Bank in s.accounts && Receivable in s.accounts
  }

  /** What is still open on an invoice. */
  function Due(s: State, id: nat): int
    requires id < |s.invoices|
  {
    s.invoices[id].total - Paid(s.payments, id)
  }

  /** What a payment changes: the payment, one entry, and the record of the key. */
  function AfterPayment(s: State, key: Key, p: Payment, period: nat): State
    requires p.invoice < |s.invoices|
  {
    var units := p.amount / Quantum(s.company.precision);
    s.(payments := s.payments + [p],
       entries := s.entries + [Entry(p.invoice, Some(|s.payments|), p.date, s.invoices[p.invoice].number,
                                     BankJournal, period,
                                     PaymentEntry, [EntryLine(Bank, p.amount, 0), EntryLine(Receivable, 0, p.amount)])],
       records := s.records[key := Record(p.invoice, Fingerprint(PaymentAction, p.invoice,
                    PaymentPayload(Printed(units, s.company.precision), p.date, p.reference)))])
  }

  // ---- the request ----

  lemma AmountAsked(raw: Raw, places: Places, amount: int)
    ensures (raw.Number? && Is(raw.d, 6, amount) && 0 < amount <= MAX_AMOUNT && amount % Quantum(places) == 0) <==>
            exists n :: Parse(DEFAULT_DIGITS, raw, places, 0, MAX_AMOUNT, true) == Some(n)
                && amount == n * Quantum(places)
  {
    hide Parse, Is;
    Powers();
    if raw.Number? && Is(raw.d, 6, amount) && 0 < amount <= MAX_AMOUNT && amount % Quantum(places) == 0 {
      var n := amount / Quantum(places);
      assert amount == n * Quantum(places);
      IsCoarser(raw.d, places, n, 6 - places);
      PositiveFactor(n, Quantum(places));
      ParseIff(DEFAULT_DIGITS, raw, places, 0, MAX_AMOUNT, true, n);
    }
    if n :| Parse(DEFAULT_DIGITS, raw, places, 0, MAX_AMOUNT, true) == Some(n) && amount == n * Quantum(places) {
      ParseIff(DEFAULT_DIGITS, raw, places, 0, MAX_AMOUNT, true, n);
      IsFiner(raw.d, places, n, 6 - places);
      MultipleOf(n, Quantum(places));
      PositiveFactor(n, Quantum(places));
    }
  }

  lemma PositiveFactor(n: int, q: int)
    requires q > 0
    ensures n > 0 <==> n * q > 0
  {
    if n > 0 { assert n * q >= q; }
    if n <= 0 { assert n * q <= 0; }
  }

  lemma RequestExactly(s: State, id: nat, data: PaymentData, p: Payment)
    requires id < |s.invoices| && data.PaymentData? && s.invoices[id].precision == Some(s.company.precision)
    ensures (PaymentRequest(s.invoices[id], data).Ok?
            && p == PaymentRequest(s.invoices[id], data).value.(invoice := id)) <==>
            Asks(s, id, data, p)
  {
    hide Parse, Is, Leq;
    AmountAsked(data.amount, s.company.precision, p.amount);
  }

  lemma ValidatedIsSound(s: State, id: nat)
    requires Inv(s) && id < |s.invoices| && s.invoices[id].status == Validated
    ensures s.invoices[id].precision == Some(s.company.precision)
  {
    assert InvoiceOk(s, s.invoices[id]);
  }

  lemma MarkIs(s: State, p: Payment)
    requires p.invoice < |s.invoices| && s.invoices[p.invoice].precision == Some(s.company.precision)
    requires p.amount % Quantum(s.company.precision) == 0
    ensures PaymentMark(p.invoice, s.invoices[p.invoice], p)
            == Fingerprint(PaymentAction, p.invoice,
                 PaymentPayload(Printed(p.amount / Quantum(s.company.precision), s.company.precision), p.date,
                                p.reference))
  {
    var q := Quantum(s.company.precision);
    var n := p.amount / q;
    assert p.amount == n * q;
    RoundExact(HalfEven, n, q);
  }

  /** The payment a request asks for is determined. */
  lemma AskedOnce(s: State, id: nat, data: PaymentData, p: Payment, r: Payment)
    requires id < |s.invoices| && Asks(s, id, data, p) && Asks(s, id, data, r)
    ensures p == r
  {
    IsUnique(data.amount.d, 6, p.amount, r.amount);
  }

  // ---- the answer ----

  /**
   In every reachable state and under a new key, a request that asks for this payment is answered as follows: too much
   for what is open, no period, a closed period, no journal, no account, or recorded as told here.
   */
  lemma PaymentExactly(s: State, actor: Actor, id: nat, key: Option<Key>, data: PaymentData, p: Payment, period: nat)
    requires Reachable(s) && MayPay(s, actor, id, key) && key.value !in s.records && Asks(s, id, data, p)
    ensures var o := RecordPayment(s, actor, id, key, data);
            && (o.answer == Err(Overpayment) <==> p.amount > Due(s, id))
            && (p.amount <= Due(s, id) ==>
                  && (o.answer == Err(PeriodMissing) <==>
                      forall q :: 0 <= q < |s.periods| ==> !InPeriod(s.periods[q], p.date))
                  && (o.answer == Err(PeriodClosed) <==>
                        exists q :: 0 <= q < |s.periods| && InPeriod(s.periods[q], p.date) && s.periods[q].closed)
                  && (OpenOn(s, period, p.date) ==>
                        && (PostsPayment(s) ==> o == Outcome(AfterPayment(s, key.value, p, period), Ok(id)))
                        && (!PostsPayment(s) ==> o.answer.Err? && o.state == s)))
            && (o.answer.Err? ==> o.state == s)
  {
    hide Inv, KeyOk, KeyUsable, PaymentRequest, PaymentMark, Posting, CheckPeriod, OpenOn, Asks, Paid, PaymentValues,
      Reachable;
    ReachableIsOk(s);
    KeyExactly(key);
    ValidatedIsSound(s, id);
    assert data.PaymentData? && p.invoice == id && p.amount > 0 && p.amount % Quantum(s.company.precision) == 0 by {
      AskedFacts(s, id, data, p);
    }
    RequestExactly(s, id, data, p);
    MarkIs(s, p);
    PeriodsAreOk(s);
    PeriodExactly(s, p.date, period);
    PaymentPostingAccepted(s, p.amount);
    assert PaymentValues(p.amount) == [EntryLine(Bank, p.amount, 0), EntryLine(Receivable, 0, p.amount)] by {
      TwoLines(p.amount);
    }
    RecordPaymentErrors(s, actor, id, key, data);
  }

  lemma TwoLines(amount: int)
    ensures PaymentValues(amount) == [EntryLine(Bank, amount, 0), EntryLine(Receivable, 0, amount)]
  {}

  lemma AskedFacts(s: State, id: nat, data: PaymentData, p: Payment)
    requires id < |s.invoices| && Asks(s, id, data, p)
    ensures data.PaymentData? && p.invoice == id && p.amount > 0 && p.amount % Quantum(s.company.precision) == 0
  {}

  /** In every reachable state and under a new key: what an accepted payment needs. */
  lemma PaymentNeeds(s: State, actor: Actor, id: nat, key: Option<Key>, data: PaymentData)
    requires Reachable(s) && (key.Some? ==> key.value !in s.records)
    ensures RecordPayment(s, actor, id, key, data).answer.Ok? <==>
            && MayPay(s, actor, id, key) && PostsPayment(s)
            && exists p, period :: Asks(s, id, data, p) && p.amount <= Due(s, id) && OpenOn(s, period, p.date)
  {
    hide Inv, KeyOk, KeyUsable, PaymentRequest, PaymentMark, CheckPeriod, OpenOn, Asks, Paid, Posting, Due, Reachable;
    ReachableIsOk(s);
    KeyExactly(key);
    if MayPay(s, actor, id, key) {
      ValidatedIsSound(s, id);
      PeriodsAreOk(s);
      if RecordPayment(s, actor, id, key, data).answer.Ok? {
        var p := PaymentRequest(s.invoices[id], data).value.(invoice := id);
        RequestExactly(s, id, data, p);
        var period := CheckPeriod(s, p.date).value;
        PeriodExactly(s, p.date, period);
        PaymentExactly(s, actor, id, key, data, p, period);
        assert Asks(s, id, data, p) && p.amount <= Due(s, id) && OpenOn(s, period, p.date);
      }
      if p, period :| Asks(s, id, data, p) && p.amount <= Due(s, id) && OpenOn(s, period, p.date) {
        PaymentExactly(s, actor, id, key, data, p, period);
        PeriodExactly(s, p.date, period);
      }
    }
  }

  /** A recorded payment raises what is paid on its invoice by its amount, and on no other invoice. */
  lemma PaymentRaisesPaid(s: State, key: Key, p: Payment, period: nat, i: nat)
    requires p.invoice < |s.invoices|
    ensures Paid(AfterPayment(s, key, p, period).payments, i) ==
            Paid(s.payments, i) + (if i == p.invoice then p.amount else 0)
  {
    PaidAppend(s.payments, p, i);
  }

  /** An invoice can be paid in full at once, and then nothing is open on it. */
  lemma PayInFull(s: State, actor: Actor, id: nat, key: Option<Key>, data: PaymentData, p: Payment, period: nat)
    requires Reachable(s) && MayPay(s, actor, id, key) && key.value !in s.records && Asks(s, id, data, p)
    requires p.amount == Due(s, id) && OpenOn(s, period, p.date) && PostsPayment(s)
    ensures var o := RecordPayment(s, actor, id, key, data);
            o.answer == Ok(id) && id < |o.state.invoices| && Due(o.state, id) == 0
  {
    hide Paid, Asks, OpenOn, PostsPayment, KeyUsable, Reachable;
    assert p.invoice == id by { AskedFacts(s, id, data, p); }
    PaymentExactly(s, actor, id, key, data, p, period);
    PaymentRaisesPaid(s, key.value, p, period, id);
  }
}
