/** Every amount of the ledger and of its reports is printed at the company's precision without losing a digit. */
module Printing {
  import opened Basics
  import opened Calculation
  import opened Pricing
  import opened Books
  import opened Services
  import opened Invariants
  import opened Runs
  import opened Reachability
  import opened Reports

  /** The printed text denotes the amount itself. */
  predicate PrintsExactly(amount: int, places: Places) {
    Money(amount, places).units * Quantum(places) == amount
  }

  lemma Prints(amount: int, places: Places)
    requires Exact(amount, places)
    ensures PrintsExactly(amount, places)
  {
    MoneyExact(amount, places);
  }

  lemma ZeroExact(places: Places)
    ensures Exact(0, places)
  {}

  lemma SumExactly(amounts: seq<int>, places: Places)
    requires forall i :: 0 <= i < |amounts| ==> Exact(amounts[i], places)
    ensures Exact(Sum(amounts), places)
  {
    SumMultiple(amounts, Quantum(places));
  }

  lemma DifferenceExact(a: int, b: int, places: Places)
    requires Exact(a, places) && Exact(b, places)
    ensures Exact(a - b, places)
  {
    MultipleAdd(a, b, Quantum(places));
  }

  lemma MaskExact(amounts: seq<int>, tags: seq<nat>, tag: nat, places: Places)
    requires |amounts| == |tags| && forall i :: 0 <= i < |amounts| ==> Exact(amounts[i], places)
    ensures Exact(Sum(Mask(amounts, tags, tag)), places)
  {
    hide Exact;
    ZeroExact(places);
    SumExactly(Mask(amounts, tags, tag), places);
  }

  // ---- documents and payments ----

  lemma PaymentExact(s: State, k: nat)
    requires PaymentsOk(s) && k < |s.payments|
    ensures Exact(s.payments[k].amount, s.company.precision)
  {
    assert PaymentOk(s, s.payments[k]);
  }

  lemma PaidExact(s: State, i: nat)
    requires PaymentsOk(s)
    ensures Exact(Paid(s.payments, i), s.company.precision)
  {
    hide Exact;
    var amounts := PaymentAmounts(s.payments, i);
    ZeroExact(s.company.precision);
    forall k | 0 <= k < |amounts| ensures Exact(amounts[k], s.company.precision) { PaymentExact(s, k); }
    SumExactly(amounts, s.company.precision);
  }

  lemma LineExactly(s: State, i: nat, k: nat)
    requires InvoicesOk(s) && i < |s.invoices| && s.invoices[i].status == Validated && k < |s.invoices[i].lines|
    ensures Exact(s.invoices[i].lines[k].net, s.company.precision)
            && Exact(s.invoices[i].lines[k].tax, s.company.precision)
  {
    hide DocumentOk;
    assert InvoiceOk(s, s.invoices[i]);
    var line := s.invoices[i].lines[k];
    assert PricedAt(s.company.precision, line);
    var net := NetQuanta(s.company.precision, line.quantity, line.unitPrice, line.discountRate);
    MultipleOf(net, Quantum(s.company.precision));
    MultipleOf(TaxQuanta(net, line.taxRate), Quantum(s.company.precision));
  }

  lemma DocumentExact(s: State, i: nat)
    requires InvoicesOk(s) && i < |s.invoices| && s.invoices[i].status == Validated
    ensures Exact(s.invoices[i].net, s.company.precision) && Exact(s.invoices[i].tax, s.company.precision)
    ensures Exact(s.invoices[i].total, s.company.precision)
  {
    assert InvoiceOk(s, s.invoices[i]);
  }

  /** A validated invoice: its amounts, those of each line, what is paid and what is open. */
  lemma DocumentPrintsExactly(s: State, i: nat, k: nat)
    requires Reachable(s) && i < |s.invoices| && s.invoices[i].status == Validated
    ensures var inv := s.invoices[i]; var places := s.company.precision;
            && PrintsExactly(inv.net, places) && PrintsExactly(inv.tax, places) && PrintsExactly(inv.total, places)
            && PrintsExactly(Paid(s.payments, i), places) && PrintsExactly(inv.total - Paid(s.payments, i), places)
            && (k < |inv.lines| ==>
                  PrintsExactly(inv.lines[k].net, places) && PrintsExactly(inv.lines[k].tax, places)
                  && PrintsExactly(inv.lines[k].Total(), places))
  {
    hide Money, LedgerOk, InvoicesOk, PaymentsOk, Reachable;
    ReachableIsOk(s);
    LedgerParts(s);
    var inv, places := s.invoices[i], s.company.precision;
    DocumentExact(s, i);
    PaidExact(s, i);
    DifferenceExact(inv.total, Paid(s.payments, i), places);
    Prints(inv.net, places);
    Prints(inv.tax, places);
    Prints(inv.total, places);
    Prints(Paid(s.payments, i), places);
    Prints(inv.total - Paid(s.payments, i), places);
    if k < |inv.lines| {
      LineExactly(s, i, k);
      MultipleAdd(inv.lines[k].net, inv.lines[k].tax, Quantum(places));
      Prints(inv.lines[k].net, places);
      Prints(inv.lines[k].tax, places);
      Prints(inv.lines[k].Total(), places);
    }
  }

  lemma PaymentPrintsExactly(s: State, k: nat)
    requires Reachable(s) && k < |s.payments|
    ensures PrintsExactly(s.payments[k].amount, s.company.precision)
  {
    hide Money, LedgerOk;
    ReachableIsOk(s);
    assert PaymentsOk(s) by { LedgerParts(s); }
    PaymentExact(s, k);
    Prints(s.payments[k].amount, s.company.precision);
  }

  lemma LedgerParts(s: State)
    requires LedgerOk(s)
    ensures InvoicesOk(s) && PaymentsOk(s) && EntriesOk(s)
  {}

  // ---- the customer statement and the dashboard ----

  /** The totals of the statement of a customer. */
  function StatementTotal(s: State, customer: nat): int { Sum(Mask(ValidatedTotals(s), Customers(s), customer)) }

  function StatementPaid(s: State, customer: nat): int { Sum(Mask(ValidatedPaid(s), Customers(s), customer)) }

  lemma ColumnsExact(s: State, today: Date)
    requires InvoicesOk(s) && PaymentsOk(s)
    ensures forall i :: 0 <= i < |s.invoices| ==>
              Exact(ValidatedTotals(s)[i], s.company.precision) && Exact(ValidatedPaid(s)[i], s.company.precision)
              && Exact(OverdueAmounts(s, today)[i], s.company.precision)
              && Exact(OpenAmounts(s)[i], s.company.precision)
  {
    hide InvoicesOk, PaymentsOk, Exact, Paid;
    ZeroExact(s.company.precision);
    forall i | 0 <= i < |s.invoices|
      ensures Exact(ValidatedTotals(s)[i], s.company.precision) && Exact(ValidatedPaid(s)[i], s.company.precision)
              && Exact(OverdueAmounts(s, today)[i], s.company.precision)
              && Exact(OpenAmounts(s)[i], s.company.precision) {
      if s.invoices[i].status == Validated {
        DocumentExact(s, i);
        PaidExact(s, i);
        DifferenceExact(s.invoices[i].total, Paid(s.payments, i), s.company.precision);
      }
    }
  }

  /** The summary of an undated statement: total, paid, balance and overdue. */
  lemma StatementPrintsExactly(s: State, customer: nat, today: Date)
    requires Reachable(s)
    ensures var places := s.company.precision;
            && StatementBalance(s, customer) == StatementTotal(s, customer) - StatementPaid(s, customer)
            && PrintsExactly(StatementTotal(s, customer), places) && PrintsExactly(StatementPaid(s, customer), places)
            && PrintsExactly(StatementBalance(s, customer), places)
            && PrintsExactly(StatementOverdue(s, customer, today), places)
  {
    hide Money, LedgerOk, InvoicesOk, PaymentsOk, Exact, OpenAmounts;
    ReachableIsOk(s);
    LedgerParts(s);
    var places := s.company.precision;
    ColumnsExact(s, today);
    MaskExact(ValidatedTotals(s), Customers(s), customer, places);
    MaskExact(ValidatedPaid(s), Customers(s), customer, places);
    MaskExact(OverdueAmounts(s, today), Customers(s), customer, places);
    DifferenceExact(StatementTotal(s, customer), StatementPaid(s, customer), places);
    Prints(StatementTotal(s, customer), places);
    Prints(StatementPaid(s, customer), places);
    Prints(StatementBalance(s, customer), places);
    Prints(StatementOverdue(s, customer, today), places);
  }

  predicate Within(d: Date, start: Option<Date>, end: Option<Date>) {
    (start.None? || Leq(start.value, d)) && (end.None? || Leq(d, end.value))
  }

  /** Dashboard: what was invoiced, and what was received, between two optional days. */
  function Invoiced(s: State, start: Option<Date>, end: Option<Date>): int {
    Sum(seq(|s.invoices|, i requires 0 <= i < |s.invoices| =>
      if s.invoices[i].status == Validated && Within(s.invoices[i].issue, start, end) then s.invoices[i].total else 0))
  }

  function Received(s: State, start: Option<Date>, end: Option<Date>): int {
    Sum(seq(|s.payments|, k requires 0 <= k < |s.payments| =>
      if Within(s.payments[k].date, start, end) then s.payments[k].amount else 0))
  }

  lemma InvoicedExact(s: State, start: Option<Date>, end: Option<Date>)
    requires InvoicesOk(s) && PaymentsOk(s)
    ensures Exact(Invoiced(s, start, end), s.company.precision) && Exact(Received(s, start, end), s.company.precision)
  {
    hide InvoicesOk, PaymentsOk, Exact;
    var places := s.company.precision;
    ZeroExact(places);
    var totals := seq(|s.invoices|, i requires 0 <= i < |s.invoices| =>
      if s.invoices[i].status == Validated && Within(s.invoices[i].issue, start, end) then s.invoices[i].total else 0);
    forall i | 0 <= i < |totals| ensures Exact(totals[i], places) {
      if s.invoices[i].status == Validated { DocumentExact(s, i); }
    }
    SumExactly(totals, places);
    var amounts := seq(|s.payments|, k requires 0 <= k < |s.payments| =>
      if Within(s.payments[k].date, start, end) then s.payments[k].amount else 0);
    forall k | 0 <= k < |amounts| ensures Exact(amounts[k], places) { PaymentExact(s, k); }
    SumExactly(amounts, places);
  }

  lemma OpenExact(s: State, today: Date)
    requires InvoicesOk(s) && PaymentsOk(s)
    ensures Exact(Outstanding(s), s.company.precision) && Exact(Overdue(s, today), s.company.precision)
  {
    hide InvoicesOk, PaymentsOk, Exact, ValidatedTotals, ValidatedPaid, OverdueAmounts;
    ZeroExact(s.company.precision);
    ColumnsExact(s, today);
    SumExactly(seq(|s.invoices|, i requires 0 <= i < |s.invoices| =>
      if OpenAmounts(s)[i] > 0 then OpenAmounts(s)[i] else 0), s.company.precision);
    SumExactly(seq(|s.invoices|, i requires 0 <= i < |s.invoices| =>
      if OpenAmounts(s)[i] > 0 && !Leq(today, s.invoices[i].due) then OpenAmounts(s)[i] else 0), s.company.precision);
  }

  /** The four metrics of the dashboard. */
  lemma DashboardPrintsExactly(s: State, start: Option<Date>, end: Option<Date>, today: Date)
    requires Reachable(s)
    ensures var places := s.company.precision;
            && PrintsExactly(Invoiced(s, start, end), places) && PrintsExactly(Received(s, start, end), places)
            && PrintsExactly(Outstanding(s), places) && PrintsExactly(Overdue(s, today), places)
  {
    hide Money, LedgerOk, InvoicesOk, PaymentsOk, Exact, Invoiced, Received, Outstanding, Overdue;
    ReachableIsOk(s);
    LedgerParts(s);
    InvoicedExact(s, start, end);
    OpenExact(s, today);
    Prints(Invoiced(s, start, end), s.company.precision);
    Prints(Received(s, start, end), s.company.precision);
    Prints(Outstanding(s), s.company.precision);
    Prints(Overdue(s, today), s.company.precision);
  }

  // ---- the trial balance ----

  ghost predicate LinesExact(lines: seq<EntryLine>, places: Places) {
    forall k :: 0 <= k < |lines| ==> Exact(lines[k].debit, places) && Exact(lines[k].credit, places)
  }

  lemma {:induction false} NonZeroExact(values: seq<EntryLine>, places: Places)
    requires LinesExact(values, places)
    ensures LinesExact(NonZero(values), places)
  {
    hide Exact;
    if values != [] {
      assert values[..|values| - 1] + [values[|values| - 1]] == values;
      NonZeroExact(values[..|values| - 1], places);
    }
  }

  lemma EntryExact(s: State, k: nat)
    requires InvoicesOk(s) && PaymentsOk(s) && EntriesOk(s) && k < |s.entries|
    ensures LinesExact(s.entries[k].lines, s.company.precision)
  {
    hide Exact, InvoicesOk, PaymentsOk, NonZero;
    var e := s.entries[k];
    assert EntryOk(s, e);
    ZeroExact(s.company.precision);
    if e.kind == InvoiceEntry {
      DocumentExact(s, e.invoice);
      NonZeroExact(InvoiceValues(s.invoices[e.invoice]), s.company.precision);
    } else {
      PaymentExact(s, e.payment.value);
    }
  }

  lemma {:induction false} PeriodLinesExact(entries: seq<Entry>, period: nat, places: Places)
    requires forall k :: 0 <= k < |entries| ==> LinesExact(entries[k].lines, places)
    ensures LinesExact(PeriodLines(entries, period), places)
  {
    hide Exact;
    if entries != [] {
      PeriodLinesExact(entries[..|entries| - 1], period, places);
    }
  }

  /** The rows of a trial balance, with their balances, and its totals. */
  lemma TrialBalancePrintsExactly(s: State, period: nat, kind: Kind)
    requires Reachable(s)
    ensures var row := RowOf(s, period, kind); var places := s.company.precision;
            var lines := PeriodLines(s.entries, period);
            && PrintsExactly(row.debit, places) && PrintsExactly(row.credit, places)
            && PrintsExactly(row.debit - row.credit, places)
            && PrintsExactly(Sum(Debits(lines)), places) && PrintsExactly(Sum(Credits(lines)), places)
  {
    hide Money, LedgerOk, InvoicesOk, PaymentsOk, EntriesOk, Exact, PeriodLines;
    ReachableIsOk(s);
    LedgerParts(s);
    var places, lines, row := s.company.precision, PeriodLines(s.entries, period), RowOf(s, period, kind);
    forall k | 0 <= k < |s.entries| ensures LinesExact(s.entries[k].lines, places) { EntryExact(s, k); }
    PeriodLinesExact(s.entries, period, places);
    MaskExact(Movements(DebitSide, lines), Codes(lines), CodeOf(kind), places);
    MaskExact(Movements(CreditSide, lines), Codes(lines), CodeOf(kind), places);
    DifferenceExact(row.debit, row.credit, places);
    SumExactly(Debits(lines), places);
    SumExactly(Credits(lines), places);
    Prints(row.debit, places);
    Prints(row.credit, places);
    Prints(row.debit - row.credit, places);
    Prints(Sum(Debits(lines)), places);
    Prints(Sum(Credits(lines)), places);
  }
}
