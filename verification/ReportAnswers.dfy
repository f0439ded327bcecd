/** What the reports count: which days, which customer, and which sides of which accounts. */
module ReportAnswers {
  import opened Basics
  import opened Books
  import opened Services
  import opened Invariants
  import opened Preservation
  import opened Runs
  import opened Reachability
  import opened Reports
  import opened Printing

  // ---- what is overdue ----

  /** What is open on the validated invoices due in these days, `end` excluded. */
  function OpenDueIn(s: State, start: Date, end: Date): int {
    Sum(seq(|s.invoices|, i requires 0 <= i < |s.invoices| =>
      if s.invoices[i].status == Validated && Leq(start, s.invoices[i].due) && !Leq(end, s.invoices[i].due)
      then s.invoices[i].total - Paid(s.payments, i) else 0))
  }

  function OverdueColumn(s: State, today: Date): (r: seq<int>) ensures |r| == |s.invoices| {
    seq(|s.invoices|, i requires 0 <= i < |s.invoices| =>
      if OpenAmounts(s)[i] > 0 && !Leq(today, s.invoices[i].due) then OpenAmounts(s)[i] else 0)
  }

  /**
   An invoice becomes overdue the day after it is due: nothing is overdue while no invoice was due before, and from one
   day to a later one the overdue amount grows by what is open on the invoices due in between.
   */
  lemma OverdueExactly(s: State, today: Date, later: Date)
    requires Reachable(s) && Leq(today, later)
    ensures (forall i :: 0 <= i < |s.invoices| && s.invoices[i].status == Validated ==>
              Leq(today, s.invoices[i].due)) ==>
              Overdue(s, today) == 0
    ensures Overdue(s, later) == Overdue(s, today) + OpenDueIn(s, today, later)
  {
    hide Reachable, Paid;
    OpenNotNegative(s);
    var added := seq(|s.invoices|, i requires 0 <= i < |s.invoices| =>
      if s.invoices[i].status == Validated && Leq(today, s.invoices[i].due) && !Leq(later, s.invoices[i].due)
      then s.invoices[i].total - Paid(s.payments, i) else 0);
    SumAdd(OverdueColumn(s, today), added, OverdueColumn(s, later));
    if forall i :: 0 <= i < |s.invoices| && s.invoices[i].status == Validated ==> Leq(today, s.invoices[i].due) {
      SumZero(OverdueColumn(s, today));
    }
  }

  // ---- what was received ----

  /** The payments of one day. */
  function ReceivedOn(s: State, day: Date): int {
    Sum(seq(|s.payments|, k requires 0 <= k < |s.payments| =>
      if s.payments[k].date == day then s.payments[k].amount else 0))
  }

  function ReceivedColumn(s: State, start: Option<Date>, end: Option<Date>): (r: seq<int>) ensures |r| == |s.payments| {
    seq(|s.payments|, k requires 0 <= k < |s.payments| =>
      if Within(s.payments[k].date, start, end) then s.payments[k].amount else 0)
  }

  /** Both bounds are included: one day counts its own payments, and two adjoining spans share only their common day. */
  lemma ReceivedExactly(s: State, a: Option<Date>, b: Date, c: Option<Date>)
    requires (a.Some? ==> Leq(a.value, b)) && (c.Some? ==> Leq(b, c.value))
    ensures Received(s, Some(b), Some(b)) == ReceivedOn(s, b)
    ensures Received(s, a, c) == Received(s, a, Some(b)) + Received(s, Some(b), c) - ReceivedOn(s, b)
    ensures Received(s, None, None) == Sum(AllPayments(s.payments))
  {
    var day := seq(|s.payments|, k requires 0 <= k < |s.payments| =>
      if s.payments[k].date == b then s.payments[k].amount else 0);
    assert ReceivedColumn(s, Some(b), Some(b)) == day;
    assert ReceivedColumn(s, None, None) == AllPayments(s.payments);
    var both := seq(|s.payments|, k requires 0 <= k < |s.payments| =>
      ReceivedColumn(s, a, c)[k] + day[k]);
    SumAdd(ReceivedColumn(s, a, c), day, both);
    SumAdd(ReceivedColumn(s, a, Some(b)), ReceivedColumn(s, Some(b), c), both);
  }

  /** The validated invoices issued on one day. */
  function InvoicedOn(s: State, day: Date): int {
    Sum(seq(|s.invoices|, i requires 0 <= i < |s.invoices| =>
      if s.invoices[i].status == Validated && s.invoices[i].issue == day then s.invoices[i].total else 0))
  }

  function InvoicedColumn(s: State, start: Option<Date>, end: Option<Date>): (r: seq<int>) ensures |r| == |s.invoices| {
    seq(|s.invoices|, i requires 0 <= i < |s.invoices| =>
      if s.invoices[i].status == Validated && Within(s.invoices[i].issue, start, end) then s.invoices[i].total else 0)
  }

  lemma InvoicedExactly(s: State, a: Option<Date>, b: Date, c: Option<Date>)
    requires (a.Some? ==> Leq(a.value, b)) && (c.Some? ==> Leq(b, c.value))
    ensures Invoiced(s, Some(b), Some(b)) == InvoicedOn(s, b)
    ensures Invoiced(s, a, c) == Invoiced(s, a, Some(b)) + Invoiced(s, Some(b), c) - InvoicedOn(s, b)
    ensures Invoiced(s, None, None) == Sum(ValidatedTotals(s))
  {
    var day := seq(|s.invoices|, i requires 0 <= i < |s.invoices| =>
      if s.invoices[i].status == Validated && s.invoices[i].issue == b then s.invoices[i].total else 0);
    assert InvoicedColumn(s, Some(b), Some(b)) == day;
    assert InvoicedColumn(s, None, None) == ValidatedTotals(s);
    var both := seq(|s.invoices|, i requires 0 <= i < |s.invoices| => InvoicedColumn(s, a, c)[i] + day[i]);
    SumAdd(InvoicedColumn(s, a, c), day, both);
    SumAdd(InvoicedColumn(s, a, Some(b)), InvoicedColumn(s, Some(b), c), both);
  }

  // ---- the statement of a customer ----

  /** What is open on the validated invoices of one customer. */
  function OpenOf(s: State, customer: nat): int {
    Sum(seq(|s.invoices|, i requires 0 <= i < |s.invoices| =>
      if s.invoices[i].status == Validated && s.invoices[i].customer == customer
      then s.invoices[i].total - Paid(s.payments, i) else 0))
  }

  lemma StatementExactly(s: State, customer: nat)
    ensures StatementBalance(s, customer) == OpenOf(s, customer)
  {
    hide Paid;
    var open := seq(|s.invoices|, i requires 0 <= i < |s.invoices| =>
      if s.invoices[i].status == Validated && s.invoices[i].customer == customer
      then s.invoices[i].total - Paid(s.payments, i) else 0);
    SumSub(Mask(ValidatedTotals(s), Customers(s), customer), Mask(ValidatedPaid(s), Customers(s), customer), open);
  }

  // ---- the trial balance of one period ----

  /** One side of an account over some lines. */
  function TotalIn(lines: seq<EntryLine>, side: Side, kind: Kind): int {
    Sum(Mask(Movements(side, lines), Codes(lines), CodeOf(kind)))
  }

  lemma {:induction false} TotalConcat(a: seq<EntryLine>, b: seq<EntryLine>, side: Side, kind: Kind)
    ensures TotalIn(a + b, side, kind) == TotalIn(a, side, kind) + TotalIn(b, side, kind)
  {
    if b == [] {
      assert a + b == a;
    } else {
      var n := |b| - 1;
      TotalConcat(a, b[..n], side, kind);
      TotalAppend(a + b[..n], b[n], side, kind);
      TotalAppend(b[..n], b[n], side, kind);
      assert a + b == (a + b[..n]) + [b[n]] && b == b[..n] + [b[n]];
    }
  }

  lemma TotalAppend(lines: seq<EntryLine>, line: EntryLine, side: Side, kind: Kind)
    ensures TotalIn(lines + [line], side, kind) ==
            TotalIn(lines, side, kind) + if line.account == kind then Amount(side, line) else 0
  {
    var all := lines + [line];
    var x := if line.account == kind then Amount(side, line) else 0;
    assert Mask(Movements(side, all), Codes(all), CodeOf(kind))
        == Mask(Movements(side, lines), Codes(lines), CodeOf(kind)) + [x];
    SumAppend(Mask(Movements(side, lines), Codes(lines), CodeOf(kind)), x);
  }

  /**
   Invoices debit the customers with what revenue and tax are credited; payments credit them with what the bank gets.
   */
  ghost predicate Structured(lines: seq<EntryLine>) {
    && TotalIn(lines, DebitSide, Receivable) == TotalIn(lines, CreditSide, Revenue) + TotalIn(lines, CreditSide, Tax)
    && TotalIn(lines, CreditSide, Receivable) == TotalIn(lines, DebitSide, Bank)
    && TotalIn(lines, CreditSide, Bank) == 0
    && TotalIn(lines, DebitSide, Revenue) == 0 && TotalIn(lines, DebitSide, Tax) == 0
  }

  lemma StructuredConcat(a: seq<EntryLine>, b: seq<EntryLine>)
    requires Structured(a) && Structured(b)
    ensures Structured(a + b)
  {
    hide TotalIn;
    forall side, kind ensures TotalIn(a + b, side, kind) == TotalIn(a, side, kind) + TotalIn(b, side, kind) {
      TotalConcat(a, b, side, kind);
    }
  }

  lemma NothingIsStructured()
    ensures Structured([])
  {}

  lemma TwoLines(a: EntryLine, b: EntryLine, side: Side, kind: Kind)
    ensures TotalIn([a, b], side, kind) == (if a.account == kind then Amount(side, a) else 0)
                                         + (if b.account == kind then Amount(side, b) else 0)
  {
    TotalAppend([], a, side, kind);
    TotalAppend([a], b, side, kind);
    assert [] + [a] == [a] && [a] + [b] == [a, b];
    assert TotalIn([], side, kind) == 0;
  }

  lemma ThreeLines(a: EntryLine, b: EntryLine, c: EntryLine, side: Side, kind: Kind)
    ensures TotalIn([a, b, c], side, kind) ==
            TotalIn([a, b], side, kind) + if c.account == kind then Amount(side, c) else 0
  {
    TotalAppend([a, b], c, side, kind);
    assert [a, b] + [c] == [a, b, c];
  }

  lemma InvoiceIsStructured(s: State, inv: Invoice)
    requires InvoiceOk(s, inv) && inv.status == Validated
    ensures Structured(NonZero(InvoiceValues(inv)))
  {
    hide TotalIn;
    var values := InvoiceValues(inv);
    EntryOfInvoice(s, inv);
    InvoiceAmounts(s, inv);
    NonZeroThree(values);
    assert values[..2] == [values[0], values[1]] && values == [values[0], values[1], values[2]];
    forall side, kind
      ensures TotalIn([values[0], values[1]], side, kind) ==
              (if kind == Receivable then Amount(side, values[0]) else 0)
              + (if kind == Revenue then Amount(side, values[1]) else 0) {
      TwoLines(values[0], values[1], side, kind);
    }
    forall side, kind
      ensures TotalIn(values, side, kind) ==
              TotalIn([values[0], values[1]], side, kind) + if kind == Tax then Amount(side, values[2]) else 0 {
      ThreeLines(values[0], values[1], values[2], side, kind);
    }
  }

  lemma InvoiceAmounts(s: State, inv: Invoice)
    requires InvoiceOk(s, inv) && inv.status == Validated
    ensures inv.total == inv.net + inv.tax && inv.total > 0 && 0 <= inv.tax <= inv.net
  {}

  lemma PaymentIsStructured(amount: int)
    ensures Structured(PaymentValues(amount))
  {
    hide TotalIn;
    var values := PaymentValues(amount);
    forall side, kind
      ensures TotalIn(values, side, kind) ==
              (if kind == Bank then Amount(side, values[0]) else 0)
              + (if kind == Receivable then Amount(side, values[1]) else 0) {
      TwoLines(values[0], values[1], side, kind);
    }
  }

  lemma EntryIsStructured(s: State, k: nat)
    requires Inv(s) && k < |s.entries|
    ensures Structured(s.entries[k].lines)
  {
    hide Structured, InvoiceOk;
    var e := s.entries[k];
    assert EntryOk(s, e);
    assert InvoiceOk(s, s.invoices[e.invoice]);
    if e.kind == InvoiceEntry {
      InvoiceIsStructured(s, s.invoices[e.invoice]);
    } else {
      PaymentIsStructured(s.payments[e.payment.value].amount);
    }
  }

  lemma {:induction false} PeriodIsStructured(entries: seq<Entry>, period: nat)
    requires forall k :: 0 <= k < |entries| ==> Structured(entries[k].lines)
    ensures Structured(PeriodLines(entries, period))
  {
    hide Structured;
    if entries == [] {
      NothingIsStructured();
    } else {
      var n := |entries| - 1;
      PeriodIsStructured(entries[..n], period);
      if entries[n].period == period {
        StructuredConcat(PeriodLines(entries[..n], period), entries[n].lines);
      } else {
        assert PeriodLines(entries, period) == PeriodLines(entries[..n], period);
      }
    }
  }

  /**
   In every period of every reachable state: the customers' debits are what revenue and tax were credited, their credits
   are what the bank was debited, and no account moves the other way.
   */
  lemma TrialRowsAgree(s: State, period: nat)
    requires Reachable(s)
    ensures var r, b := RowOf(s, period, Receivable), RowOf(s, period, Bank);
            var t, v := RowOf(s, period, Tax), RowOf(s, period, Revenue);
            && r.debit == v.credit + t.credit && r.credit == b.debit
            && b.credit == 0 && t.debit == 0 && v.debit == 0
  {
    hide Inv, Reachable;
    ReachableIsOk(s);
    forall k | 0 <= k < |s.entries| ensures Structured(s.entries[k].lines) { EntryIsStructured(s, k); }
    PeriodIsStructured(s.entries, period);
  }

  /** Over all periods, the trial balances give the documents' own sums, account by account. */
  lemma TrialBalancesAgree(s: State)
    requires Reachable(s)
    ensures Sum(TrialBalances(s, Bank)) == Received(s, None, None)
    ensures Sum(TrialBalances(s, Receivable)) == Outstanding(s)
    ensures Sum(TrialBalances(s, Revenue)) + Sum(TrialBalances(s, Tax)) == -Invoiced(s, None, None)
  {
    hide Reachable, Inv;
    ControlAccountsAgree(s);
    TrialBalancesSum(s, Bank);
    TrialBalancesSum(s, Revenue);
    TrialBalancesSum(s, Tax);
    ReportsAgree(s);
    assert ReceivedColumn(s, None, None) == AllPayments(s.payments);
    NetAndTax(s);
  }

  lemma NetAndTax(s: State)
    requires Reachable(s)
    ensures Sum(Documents(NetAmount, s.invoices, s.payments)) + Sum(Documents(TaxAmount, s.invoices, s.payments))
            == Invoiced(s, None, None)
  {
    hide ControlOk, NumbersOk, EntriesComplete, EntriesOk, BankOk, PeriodsOk, Reachable;
    ReachableIsOk(s);
    forall i | 0 <= i < |s.invoices| && s.invoices[i].status == Validated
      ensures s.invoices[i].total == s.invoices[i].net + s.invoices[i].tax {
      InvoiceAmounts(s, s.invoices[i]);
    }
    SumAdd(Documents(NetAmount, s.invoices, s.payments), Documents(TaxAmount, s.invoices, s.payments),
           InvoicedColumn(s, None, None));
  }
}
