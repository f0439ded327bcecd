/** The dashboard, the trial balance and the customer statement, which reach the same money by other routes. */
module Reports {
  import opened Basics
  import opened Books
  import opened Services
  import opened Invariants
  import opened Preservation
  import opened Runs
  import opened Reachability

  // ---- splitting a sum by tag ----

  /** The amounts that carry this tag, the others replaced by zero. */
  function Mask(xs: seq<int>, tags: seq<nat>, tag: nat): (r: seq<int>)
    requires |xs| == |tags|
    ensures |r| == |xs|
  {
    seq(|xs|, i requires 0 <= i < |xs| => if tags[i] == tag then xs[i] else 0)
  }

  function Parts(xs: seq<int>, tags: seq<nat>, n: nat): (r: seq<int>)
    requires |xs| == |tags|
    ensures |r| == n
  {
    seq(n, tag requires 0 <= tag < n => Sum(Mask(xs, tags, tag)))
  }

  lemma {:induction false} Partition(xs: seq<int>, tags: seq<nat>, n: nat)
    requires |xs| == |tags| && forall i :: 0 <= i < |xs| ==> tags[i] < n
    ensures Sum(Parts(xs, tags, n)) == Sum(xs)
  {
    if xs == [] {
      SumZero(Parts(xs, tags, n));
    } else {
      var k := |xs| - 1;
      var ys, ls := xs[..k], tags[..k];
      Partition(ys, ls, n);
      forall tag | 0 <= tag < n
        ensures Parts(xs, tags, n)[tag] == Parts(ys, ls, n)[tag] + (if tags[k] == tag then xs[k] else 0)
      {
        assert Mask(xs, tags, tag)[..k] == Mask(ys, ls, tag);
      }
      assert Parts(xs, tags, n) == Parts(ys, ls, n)[tags[k] := Parts(ys, ls, n)[tags[k]] + xs[k]];
      SumUpdate(Parts(ys, ls, n), tags[k], Parts(ys, ls, n)[tags[k]] + xs[k]);
    }
  }

  // ---- trial balance ----

  /** Accounts in the order of their codes: bank 1000, receivable 1100, tax 2100, revenue 4000. */
  const CODES: seq<Kind> := [Bank, Receivable, Tax, Revenue]

  function CodeOf(kind: Kind): (n: nat)
    ensures n < 4 && CODES[n] == kind
  {
    match kind case Bank => 0 case Receivable => 1 case Tax => 2 case Revenue => 3
  }

  datatype Side = DebitSide | CreditSide

  function Amount(side: Side, line: EntryLine): int { if side == DebitSide then line.debit else line.credit }

  function Movements(side: Side, lines: seq<EntryLine>): (r: seq<int>) ensures |r| == |lines| {
    seq(|lines|, i requires 0 <= i < |lines| => Amount(side, lines[i]))
  }

  function Codes(lines: seq<EntryLine>): (r: seq<nat>) ensures |r| == |lines| {
    seq(|lines|, i requires 0 <= i < |lines| => CodeOf(lines[i].account))
  }

  /** All lines of the entries of a period. */
  function PeriodLines(entries: seq<Entry>, period: nat): seq<EntryLine> {
    if entries == [] then []
    else
      var last := entries[|entries| - 1];
      PeriodLines(entries[..|entries| - 1], period) + (if last.period == period then last.lines else [])
  }

  function AccountTotal(s: State, period: nat, side: Side, kind: Kind): int {
    var lines := PeriodLines(s.entries, period);
    Sum(Mask(Movements(side, lines), Codes(lines), CodeOf(kind)))
  }

  datatype TrialRow = TrialRow(account: Kind, debit: int, credit: int)

  function RowOf(s: State, period: nat, kind: Kind): TrialRow {
    TrialRow(kind, AccountTotal(s, period, DebitSide, kind), AccountTotal(s, period, CreditSide, kind))
  }

  /** The loop of the trial balance: one row per account of the company, with running totals. */
  method TrialBalance(s: State, period: nat) returns (rows: seq<TrialRow>, totalDebit: int, totalCredit: int)
    requires Reachable(s)
    ensures forall kind :: kind in s.accounts <==> RowOf(s, period, kind) in rows
    ensures totalDebit == totalCredit
    ensures totalDebit == Sum(Debits(PeriodLines(s.entries, period)))
    ensures totalCredit == Sum(Credits(PeriodLines(s.entries, period)))
  {
    hide Reachable, AccountTotal, AccountTotals, PeriodLines, Debits, Credits;
    rows, totalDebit, totalCredit := [], 0, 0;
    ghost var debits, credits := AccountTotals(s, period, DebitSide), AccountTotals(s, period, CreditSide);
    for i := 0 to 4
      invariant totalDebit == Sum(debits[..i]) && totalCredit == Sum(credits[..i])
      invariant forall kind :: kind in s.accounts && CodeOf(kind) < i <==> RowOf(s, period, kind) in rows
    {
      var kind := CODES[i];
      RunningTotal(debits, i);
      RunningTotal(credits, i);
      TotalsAt(s, period, kind);
      if kind in s.accounts {
        var row := RowOf(s, period, kind);
        totalDebit, totalCredit := totalDebit + row.debit, totalCredit + row.credit;
        rows := rows + [row];
      } else {
        MissingAccount(s, period, kind);
      }
    }
    assert debits[..4] == debits && credits[..4] == credits;
    TrialTotals(s, period);
  }

  lemma RunningTotal(xs: seq<int>, i: nat)
    requires i < |xs|
    ensures Sum(xs[..i + 1]) == Sum(xs[..i]) + xs[i]
  {
    assert xs[..i + 1] == xs[..i] + [xs[i]];
    SumAppend(xs[..i], xs[i]);
  }

  lemma TotalsAt(s: State, period: nat, kind: Kind)
    ensures AccountTotals(s, period, DebitSide)[CodeOf(kind)] == AccountTotal(s, period, DebitSide, kind)
    ensures AccountTotals(s, period, CreditSide)[CodeOf(kind)] == AccountTotal(s, period, CreditSide, kind)
  {
  }

  function AccountTotals(s: State, period: nat, side: Side): (r: seq<int>) ensures |r| == 4 {
    var lines := PeriodLines(s.entries, period);
    Parts(Movements(side, lines), Codes(lines), 4)
  }

  lemma {:induction false} PeriodLinesFrom(entries: seq<Entry>, period: nat)
    ensures forall l :: l in PeriodLines(entries, period) ==>
              exists k :: 0 <= k < |entries| && entries[k].period == period && l in entries[k].lines
  {
    if entries != [] {
      PeriodLinesFrom(entries[..|entries| - 1], period);
      forall l | l in PeriodLines(entries, period)
        ensures exists k :: 0 <= k < |entries| && entries[k].period == period && l in entries[k].lines
      {
        if l in PeriodLines(entries[..|entries| - 1], period) {
          var k :| 0 <= k < |entries| - 1 && entries[..|entries| - 1][k].period == period
              && l in entries[..|entries| - 1][k].lines;
          assert l in entries[k].lines;
        } else {
          assert l in entries[|entries| - 1].lines;
        }
      }
    }
  }

  /** An account that does not exist has no movement. */
  lemma MissingAccount(s: State, period: nat, kind: Kind)
    requires Reachable(s) && kind !in s.accounts
    ensures AccountTotal(s, period, DebitSide, kind) == 0 && AccountTotal(s, period, CreditSide, kind) == 0
  {
    hide LedgerOk;
    ReachableIsOk(s);
    ReachableEntries(s);
    var lines := PeriodLines(s.entries, period);
    PeriodLinesFrom(s.entries, period);
    forall i | 0 <= i < |lines| ensures lines[i].account != kind {
      assert lines[i] in lines;
      var k :| 0 <= k < |s.entries| && s.entries[k].period == period && lines[i] in s.entries[k].lines;
      assert EntryOk(s, s.entries[k]);
    }
    SumZero(Mask(Movements(DebitSide, lines), Codes(lines), CodeOf(kind)));
    SumZero(Mask(Movements(CreditSide, lines), Codes(lines), CodeOf(kind)));
  }

  lemma ReachableEntries(s: State)
    requires Reachable(s)
    ensures EntriesOk(s)
    ensures forall k :: 0 <= k < |s.entries| ==>
              Sum(Debits(s.entries[k].lines)) == Sum(Credits(s.entries[k].lines)) && s.entries[k].period < |s.periods|
  {
    ReachableIsOk(s);
    forall k | 0 <= k < |s.entries|
      ensures Sum(Debits(s.entries[k].lines)) == Sum(Credits(s.entries[k].lines)) && s.entries[k].period < |s.periods|
    {
      EntryBalanced(s, k);
    }
  }

  /** Every entry balances: the invoice total, or the payment amount, on both sides. */
  lemma EntryBalanced(s: State, k: nat)
    requires Inv(s) && k < |s.entries|
    ensures var e := s.entries[k];
            && e.invoice < |s.invoices| && e.period < |s.periods|
            && var expected := if e.kind == InvoiceEntry then s.invoices[e.invoice].total
                               else if e.payment.Some? && e.payment.value < |s.payments|
                               then s.payments[e.payment.value].amount else 0;
            Sum(Debits(e.lines)) == expected && Sum(Credits(e.lines)) == expected && expected > 0 && |e.lines| >= 2
  {
    hide ControlOk, NumbersOk, EntriesComplete, BankOk, DocumentOk, NoOverpayment, PeriodsOk;
    var e := s.entries[k];
    assert EntryOk(s, e);
    assert InvoiceOk(s, s.invoices[e.invoice]);
    if e.kind == InvoiceEntry {
      EntryOfInvoice(s, s.invoices[e.invoice]);
    } else {
      assert PaymentOk(s, s.payments[e.payment.value]);
      PaymentEntryBalances(s.payments[e.payment.value].amount, Bank);
    }
  }

  lemma EntryOfInvoice(s: State, inv: Invoice)
    requires InvoiceOk(s, inv) && inv.status == Validated
    ensures var lines := NonZero(InvoiceValues(inv));
            Sum(Debits(lines)) == inv.total && Sum(Credits(lines)) == inv.total && inv.total > 0 && |lines| >= 2
  {
    InvoiceEntryBalances(inv, Receivable);
    NonZeroThree(InvoiceValues(inv));
  }

  lemma {:induction false} PeriodBalanced(entries: seq<Entry>, period: nat)
    requires forall k :: 0 <= k < |entries| ==> Sum(Debits(entries[k].lines)) == Sum(Credits(entries[k].lines))
    ensures Sum(Debits(PeriodLines(entries, period))) == Sum(Credits(PeriodLines(entries, period)))
  {
    if entries != [] {
      var n := |entries| - 1;
      PeriodBalanced(entries[..n], period);
      if entries[n].period == period {
        LinesConcat(PeriodLines(entries[..n], period), entries[n].lines, Bank);
      } else {
        assert PeriodLines(entries, period) == PeriodLines(entries[..n], period);
      }
    }
  }

  lemma {:induction false} LinesConcat(a: seq<EntryLine>, b: seq<EntryLine>, kind: Kind)
    ensures Sum(Debits(a + b)) == Sum(Debits(a)) + Sum(Debits(b))
    ensures Sum(Credits(a + b)) == Sum(Credits(a)) + Sum(Credits(b))
    ensures Sum(BalancesOf(a + b, kind)) == Sum(BalancesOf(a, kind)) + Sum(BalancesOf(b, kind))
  {
    if b == [] {
      assert a + b == a;
    } else {
      var n := |b| - 1;
      LinesConcat(a, b[..n], kind);
      LinesAppend(a + b[..n], b[n], kind);
      LinesAppend(b[..n], b[n], kind);
      assert a + b == (a + b[..n]) + [b[n]] && b == b[..n] + [b[n]];
    }
  }

  lemma TrialTotals(s: State, period: nat)
    requires Reachable(s)
    ensures Sum(AccountTotals(s, period, DebitSide)) == Sum(Debits(PeriodLines(s.entries, period)))
    ensures Sum(AccountTotals(s, period, CreditSide)) == Sum(Credits(PeriodLines(s.entries, period)))
    ensures Sum(Debits(PeriodLines(s.entries, period))) == Sum(Credits(PeriodLines(s.entries, period)))
  {
    hide Reachable;
    var lines := PeriodLines(s.entries, period);
    Partition(Movements(DebitSide, lines), Codes(lines), 4);
    Partition(Movements(CreditSide, lines), Codes(lines), 4);
    assert Movements(DebitSide, lines) == Debits(lines) && Movements(CreditSide, lines) == Credits(lines);
    ReachableEntries(s);
    PeriodBalanced(s.entries, period);
  }

  // ---- agreement of the reports ----

  /** Debit minus credit of an account in the trial balance of one period. */
  function TrialBalanceOf(s: State, period: nat, kind: Kind): int {
    AccountTotal(s, period, DebitSide, kind) - AccountTotal(s, period, CreditSide, kind)
  }

  function TrialBalances(s: State, kind: Kind): (r: seq<int>) ensures |r| == |s.periods| {
    seq(|s.periods|, p requires 0 <= p < |s.periods| => TrialBalanceOf(s, p, kind))
  }

  function OpenAmounts(s: State): seq<int> { Documents(OpenAmount, s.invoices, s.payments) }

  /** Dashboard: what is still open on validated invoices, invoices with nothing open being left out. */
  function Outstanding(s: State): int {
    Sum(seq(|s.invoices|, i requires 0 <= i < |s.invoices| => if OpenAmounts(s)[i] > 0 then OpenAmounts(s)[i] else 0))
  }

  /** Dashboard: the part of the outstanding amounts that was due before today. */
  function Overdue(s: State, today: Date): int {
    Sum(seq(|s.invoices|, i requires 0 <= i < |s.invoices| =>
      if OpenAmounts(s)[i] > 0 && !Leq(today, s.invoices[i].due) then OpenAmounts(s)[i] else 0))
  }

  function Customers(s: State): (r: seq<nat>) ensures |r| == |s.invoices| {
    seq(|s.invoices|, i requires 0 <= i < |s.invoices| => s.invoices[i].customer)
  }

  function ValidatedTotals(s: State): (r: seq<int>) ensures |r| == |s.invoices| {
    seq(|s.invoices|, i requires 0 <= i < |s.invoices| =>
      if s.invoices[i].status == Validated then s.invoices[i].total else 0)
  }

  function ValidatedPaid(s: State): (r: seq<int>) ensures |r| == |s.invoices| {
    seq(|s.invoices|, i requires 0 <= i < |s.invoices| =>
      if s.invoices[i].status == Validated then Paid(s.payments, i) else 0)
  }

  /** Undated statement of a customer: total of its validated invoices minus what was paid on them. */
  function StatementBalance(s: State, customer: nat): int {
    Sum(Mask(ValidatedTotals(s), Customers(s), customer)) - Sum(Mask(ValidatedPaid(s), Customers(s), customer))
  }

  function OverdueAmounts(s: State, today: Date): (r: seq<int>) ensures |r| == |s.invoices| {
    seq(|s.invoices|, i requires 0 <= i < |s.invoices| =>
      if s.invoices[i].status == Validated && !Leq(today, s.invoices[i].due)
      then s.invoices[i].total - Paid(s.payments, i) else 0)
  }

  function StatementOverdue(s: State, customer: nat, today: Date): int {
    Sum(Mask(OverdueAmounts(s, today), Customers(s), customer))
  }

  function Statements(s: State): (r: seq<int>) ensures |r| == |s.customers| {
    seq(|s.customers|, c requires 0 <= c < |s.customers| => StatementBalance(s, c))
  }

  function OverdueStatements(s: State, today: Date): (r: seq<int>) ensures |r| == |s.customers| {
    seq(|s.customers|, c requires 0 <= c < |s.customers| => StatementOverdue(s, c, today))
  }

  /** Dashboard, trial balances and statements give the same outstanding money in every reachable state. */
  lemma ReportsAgree(s: State)
    requires Reachable(s)
    ensures Outstanding(s) == Balance(s.entries, Receivable)
    ensures Outstanding(s) == Sum(TrialBalances(s, Receivable))
    ensures Outstanding(s) == Sum(Statements(s))
  {
    hide Inv, Reachable;
    OutstandingIsOpen(s);
    ControlAccountsAgree(s);
    TrialBalancesSum(s, Receivable);
    StatementsSum(s);
  }

  lemma OutstandingIsOpen(s: State)
    requires Reachable(s)
    ensures Outstanding(s) == Sum(OpenAmounts(s))
  {
    hide ControlOk, NumbersOk, EntriesComplete, EntriesOk, BankOk, DocumentOk, PeriodsOk;
    ReachableIsOk(s);
    assert seq(|s.invoices|, i requires 0 <= i < |s.invoices| =>
      if OpenAmounts(s)[i] > 0 then OpenAmounts(s)[i] else 0) == OpenAmounts(s);
  }

  /** The accounts over all entries are the trial balances of all periods together. */
  lemma TrialBalancesSum(s: State, kind: Kind)
    requires Reachable(s)
    ensures Sum(TrialBalances(s, kind)) == Balance(s.entries, kind)
  {
    hide Reachable, EntriesOk;
    ReachableEntries(s);
    var tags := seq(|s.entries|, k requires 0 <= k < |s.entries| => s.entries[k].period);
    Partition(EntryBalances(s.entries, kind), tags, |s.periods|);
    forall p | 0 <= p < |s.periods|
      ensures TrialBalances(s, kind)[p] == Parts(EntryBalances(s.entries, kind), tags, |s.periods|)[p]
    {
      PeriodBalance(s.entries, p, kind);
      AccountBalance(PeriodLines(s.entries, p), kind);
      assert PeriodMask(s.entries, p, kind) == Mask(EntryBalances(s.entries, kind), tags, p);
    }
    assert TrialBalances(s, kind) == Parts(EntryBalances(s.entries, kind), tags, |s.periods|);
  }

  function PeriodMask(entries: seq<Entry>, period: nat, kind: Kind): (r: seq<int>) ensures |r| == |entries| {
    seq(|entries|, k requires 0 <= k < |entries| =>
      if entries[k].period == period then EntryBalances(entries, kind)[k] else 0)
  }

  lemma {:induction false} PeriodBalance(entries: seq<Entry>, period: nat, kind: Kind)
    ensures Sum(BalancesOf(PeriodLines(entries, period), kind)) == Sum(PeriodMask(entries, period, kind))
  {
    if entries != [] {
      var n := |entries| - 1;
      PeriodBalance(entries[..n], period, kind);
      assert PeriodMask(entries, period, kind)[..n] == PeriodMask(entries[..n], period, kind);
      if entries[n].period == period {
        LinesConcat(PeriodLines(entries[..n], period), entries[n].lines, kind);
      } else {
        assert PeriodLines(entries, period) == PeriodLines(entries[..n], period);
      }
    }
  }

  lemma {:induction false} AccountBalance(lines: seq<EntryLine>, kind: Kind)
    ensures Sum(Mask(Movements(DebitSide, lines), Codes(lines), CodeOf(kind)))
          - Sum(Mask(Movements(CreditSide, lines), Codes(lines), CodeOf(kind))) == Sum(BalancesOf(lines, kind))
  {
    if lines != [] {
      var n := |lines| - 1;
      AccountBalance(lines[..n], kind);
      assert Mask(Movements(DebitSide, lines), Codes(lines), CodeOf(kind))[..n]
          == Mask(Movements(DebitSide, lines[..n]), Codes(lines[..n]), CodeOf(kind));
      assert Mask(Movements(CreditSide, lines), Codes(lines), CodeOf(kind))[..n]
          == Mask(Movements(CreditSide, lines[..n]), Codes(lines[..n]), CodeOf(kind));
      assert BalancesOf(lines, kind)[..n] == BalancesOf(lines[..n], kind);
    }
  }

  lemma CustomersKnown(s: State)
    requires Reachable(s)
    ensures forall i :: 0 <= i < |s.invoices| ==> s.invoices[i].customer < |s.customers|
  {
    hide ControlOk, NumbersOk, EntriesComplete, EntriesOk, BankOk, PeriodsOk;
    ReachableIsOk(s);
    forall i | 0 <= i < |s.invoices| ensures s.invoices[i].customer < |s.customers| {
      assert InvoiceOk(s, s.invoices[i]);
    }
  }

  lemma SumSub(xs: seq<int>, ys: seq<int>, zs: seq<int>)
    requires |xs| == |ys| == |zs| && forall i :: 0 <= i < |xs| ==> zs[i] == xs[i] - ys[i]
    ensures Sum(zs) == Sum(xs) - Sum(ys)
  {
    SumAdd(zs, ys, xs);
  }

  lemma StatementsSum(s: State)
    requires Reachable(s)
    ensures Sum(Statements(s)) == Sum(OpenAmounts(s))
  {
    hide Reachable;
    CustomersKnown(s);
    var n := |s.customers|;
    Partition(ValidatedTotals(s), Customers(s), n);
    Partition(ValidatedPaid(s), Customers(s), n);
    SumSub(Parts(ValidatedTotals(s), Customers(s), n), Parts(ValidatedPaid(s), Customers(s), n),
           Statements(s));
    SumSub(ValidatedTotals(s), ValidatedPaid(s), OpenAmounts(s));
  }

  /** The overdue amounts of the statements add up to the dashboard's, and never exceed what is outstanding. */
  lemma OverdueAgrees(s: State, today: Date)
    requires Reachable(s)
    ensures Overdue(s, today) == Sum(OverdueStatements(s, today))
    ensures 0 <= Overdue(s, today) <= Outstanding(s)
  {
    hide Reachable, Paid;
    CustomersKnown(s);
    Partition(OverdueAmounts(s, today), Customers(s), |s.customers|);
    assert Parts(OverdueAmounts(s, today), Customers(s), |s.customers|) == OverdueStatements(s, today);
    OpenNotNegative(s);
    var xs := seq(|s.invoices|, i requires 0 <= i < |s.invoices| =>
      if OpenAmounts(s)[i] > 0 && !Leq(today, s.invoices[i].due) then OpenAmounts(s)[i] else 0);
    assert xs == OverdueAmounts(s, today);
    SumLe(xs, seq(|s.invoices|, i requires 0 <= i < |s.invoices| =>
      if OpenAmounts(s)[i] > 0 then OpenAmounts(s)[i] else 0));
  }

  lemma OpenNotNegative(s: State)
    requires Reachable(s)
    ensures forall i :: 0 <= i < |s.invoices| ==> OpenAmounts(s)[i] >= 0
  {
    hide ControlOk, NumbersOk, EntriesComplete, EntriesOk, BankOk, PeriodsOk, DocumentOk;
    ReachableIsOk(s);
  }
}
