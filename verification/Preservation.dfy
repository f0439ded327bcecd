/** Each way of changing the rows keeps the invariant of the books. */
module Preservation {
  import opened Basics
  import opened Calculation
  import opened Pricing
  import opened Numbering
  import opened Books
  import opened Services
  import opened Invariants

  // ---- sums over documents ----

  lemma {:induction false} SumLe(xs: seq<int>, ys: seq<int>)
    requires |xs| == |ys| && forall i :: 0 <= i < |xs| ==> 0 <= xs[i] <= ys[i]
    ensures 0 <= Sum(xs) <= Sum(ys)
  {
    if xs != [] {
      SumLe(xs[..|xs| - 1], ys[..|ys| - 1]);
    }
  }

  lemma {:induction false} SumZero(xs: seq<int>)
    requires forall i :: 0 <= i < |xs| ==> xs[i] == 0
    ensures Sum(xs) == 0
  {
    if xs != [] {
      SumZero(xs[..|xs| - 1]);
    }
  }

  lemma PaidNothing(payments: seq<Payment>, invoice: nat)
    requires forall k :: 0 <= k < |payments| ==> payments[k].invoice != invoice
    ensures Paid(payments, invoice) == 0
  {
    SumZero(PaymentAmounts(payments, invoice));
  }

  lemma DocumentsUpdate(m: Measure, invoices: seq<Invoice>, payments: seq<Payment>, i: nat, inv: Invoice)
    requires i < |invoices|
    ensures Sum(Documents(m, invoices[i := inv], payments))
            == Sum(Documents(m, invoices, payments)) - Measured(m, invoices[i], Paid(payments, i))
               + Measured(m, inv, Paid(payments, i))
  {
    var x := Measured(m, inv, Paid(payments, i));
    assert Documents(m, invoices[i := inv], payments) == Documents(m, invoices, payments)[i := x];
    SumUpdate(Documents(m, invoices, payments), i, x);
  }

  lemma DocumentsAppend(m: Measure, invoices: seq<Invoice>, payments: seq<Payment>, inv: Invoice)
    ensures Sum(Documents(m, invoices + [inv], payments))
            == Sum(Documents(m, invoices, payments)) + Measured(m, inv, Paid(payments, |invoices|))
  {
    var x := Measured(m, inv, Paid(payments, |invoices|));
    assert Documents(m, invoices + [inv], payments) == Documents(m, invoices, payments) + [x];
    SumAppend(Documents(m, invoices, payments), x);
  }

  lemma DocumentsPay(m: Measure, invoices: seq<Invoice>, payments: seq<Payment>, p: Payment)
    requires p.invoice < |invoices| && invoices[p.invoice].status == Validated
    ensures Sum(Documents(m, invoices, payments + [p]))
            == Sum(Documents(m, invoices, payments)) - (if m == OpenAmount then p.amount else 0)
  {
    forall i | 0 <= i < |invoices|
      ensures Paid(payments + [p], i) == Paid(payments, i) + (if p.invoice == i then p.amount else 0)
    {
      PaidAppend(payments, p, i);
    }
    var x := Measured(m, invoices[p.invoice], Paid(payments + [p], p.invoice));
    assert Documents(m, invoices, payments + [p]) == Documents(m, invoices, payments)[p.invoice := x];
    SumUpdate(Documents(m, invoices, payments), p.invoice, x);
  }

  lemma BalanceAppend(entries: seq<Entry>, e: Entry, kind: Kind)
    ensures Balance(entries + [e], kind) == Balance(entries, kind) + Sum(BalancesOf(e.lines, kind))
  {
    assert EntryBalances(entries + [e], kind) == EntryBalances(entries, kind) + [Sum(BalancesOf(e.lines, kind))];
    SumAppend(EntryBalances(entries, kind), Sum(BalancesOf(e.lines, kind)));
  }

  // ---- the two kinds of entries ----

  lemma LinesAppend(lines: seq<EntryLine>, l: EntryLine, kind: Kind)
    ensures Sum(BalancesOf(lines + [l], kind))
            == Sum(BalancesOf(lines, kind)) + (if l.account == kind then l.debit - l.credit else 0)
    ensures Sum(Debits(lines + [l])) == Sum(Debits(lines)) + l.debit
    ensures Sum(Credits(lines + [l])) == Sum(Credits(lines)) + l.credit
  {
    var x := if l.account == kind then l.debit - l.credit else 0;
    assert BalancesOf(lines + [l], kind) == BalancesOf(lines, kind) + [x];
    assert Debits(lines + [l]) == Debits(lines) + [l.debit];
    assert Credits(lines + [l]) == Credits(lines) + [l.credit];
    SumAppend(BalancesOf(lines, kind), x);
    SumAppend(Debits(lines), l.debit);
    SumAppend(Credits(lines), l.credit);
  }

  lemma {:induction false} NonZeroBalances(values: seq<EntryLine>, kind: Kind)
    ensures Sum(BalancesOf(NonZero(values), kind)) == Sum(BalancesOf(values, kind))
    ensures Sum(Debits(NonZero(values))) == Sum(Debits(values)) && Sum(Credits(NonZero(values))) == Sum(Credits(values))
  {
    if values != [] {
      var n := |values| - 1;
      NonZeroBalances(values[..n], kind);
      LinesAppend(values[..n], values[n], kind);
      LinesAppend(NonZero(values[..n]), values[n], kind);
      assert values == values[..n] + [values[n]];
    }
  }

  lemma SumThree(a: int, b: int, c: int)
    ensures Sum([a, b, c]) == a + b + c
  {
    SumTwo(a, b);
    SumAppend([a, b], c);
    assert [a, b] + [c] == [a, b, c];
  }

  lemma SumTwo(a: int, b: int)
    ensures Sum([a, b]) == a + b
  {
    SumAppend([], a);
    SumAppend([a], b);
    assert [] + [a] == [a] && [a] + [b] == [a, b];
  }

  lemma InvoiceEntryBalances(inv: Invoice, kind: Kind)
    ensures Sum(BalancesOf(NonZero(InvoiceValues(inv)), kind)) ==
            match kind case Receivable => inv.total case Revenue => -inv.net case Tax => -inv.tax case Bank => 0
    ensures Sum(Debits(NonZero(InvoiceValues(inv)))) == inv.total
    ensures Sum(Credits(NonZero(InvoiceValues(inv)))) == inv.net + inv.tax
  {
    var values := InvoiceValues(inv);
    NonZeroBalances(values, kind);
    var b, d, c := BalancesOf(values, kind), Debits(values), Credits(values);
    assert b == [b[0], b[1], b[2]] && d == [d[0], d[1], d[2]] && c == [c[0], c[1], c[2]];
    SumThree(b[0], b[1], b[2]);
    SumThree(d[0], d[1], d[2]);
    SumThree(c[0], c[1], c[2]);
  }

  lemma PaymentEntryBalances(amount: int, kind: Kind)
    ensures Sum(BalancesOf(PaymentValues(amount), kind)) ==
            match kind case Receivable => -amount case Bank => amount case _ => 0
    ensures Sum(Debits(PaymentValues(amount))) == amount && Sum(Credits(PaymentValues(amount))) == amount
  {
    var values := PaymentValues(amount);
    var b, d, c := BalancesOf(values, kind), Debits(values), Credits(values);
    assert b == [b[0], b[1]] && d == [d[0], d[1]] && c == [c[0], c[1]];
    SumTwo(b[0], b[1]);
    SumTwo(d[0], d[1]);
    SumTwo(c[0], c[1]);
  }

  lemma NonZeroAll(values: seq<EntryLine>)
    requires |values| == 2 && forall i :: 0 <= i < 2 ==> values[i].debit != 0 || values[i].credit != 0
    ensures NonZero(values) == values
  {
    assert values[..1][..0] == [];
    assert NonZero(values[..1]) == [values[0]];
    assert values == [values[0], values[1]];
  }

  lemma NonZeroThree(values: seq<EntryLine>)
    requires |values| == 3 && forall i :: 0 <= i < 2 ==> values[i].debit != 0 || values[i].credit != 0
    ensures NonZero(values) == if values[2].debit != 0 || values[2].credit != 0 then values else values[..2]
  {
    NonZeroAll(values[..2]);
    assert values == values[..2] + [values[2]];
  }

  /**
   For an invoice being validated, with its total positive and its amounts in order, the amount tests
   of `_entry` never fire: only a missing journal or account refuses the posting.
   */
  lemma InvoicePostingAccepted(s: State, inv: Invoice)
    requires inv.total > 0 && inv.total == inv.net + inv.tax && 0 <= inv.tax <= inv.net
    ensures Posting(s, SalesJournal, InvoiceValues(inv)) ==
            if SalesJournal !in s.journals then Err(InvalidInput)
            else if Receivable in s.accounts && Revenue in s.accounts && (inv.tax == 0 || Tax in s.accounts)
            then Ok(NonZero(InvoiceValues(inv))) else Err(InvalidAmount)
  {
    var values := InvoiceValues(inv);
    InvoiceEntryBalances(inv, Receivable);
    NonZeroThree(values);
    var lines := NonZero(values);
    assert lines[0].account == Receivable && lines[1].account == Revenue;
    if inv.tax != 0 {
      assert lines[2].account == Tax;
    }
  }

  lemma PaymentPostingAccepted(s: State, amount: int)
    requires amount > 0
    ensures Posting(s, BankJournal, PaymentValues(amount)) ==
            if BankJournal !in s.journals then Err(InvalidInput)
            else if Bank in s.accounts && Receivable in s.accounts then Ok(PaymentValues(amount))
               else Err(InvalidAmount)
  {
    PaymentEntryBalances(amount, Bank);
    NonZeroAll(PaymentValues(amount));
    assert PaymentValues(amount)[0].account == Bank && PaymentValues(amount)[1].account == Receivable;
  }

  // ---- drafts ----

  lemma LinesAmounts(lines: seq<Line>)
    requires forall i :: 0 <= i < |lines| ==> Sane(lines[i])
    ensures Sum(Totals(lines)) == Sum(Nets(lines)) + Sum(Taxes(lines))
    ensures 0 <= Sum(Taxes(lines)) <= Sum(Nets(lines))
  {
    SumAdd(Nets(lines), Taxes(lines), Totals(lines));
    SumLe(Taxes(lines), Nets(lines));
  }

  lemma PricedIsExact(places: Places, line: Line)
    requires Sane(line) && PricedAt(places, line)
    ensures Exact(line.net, places) && Exact(line.tax, places)
  {
    PriceIsSane(places, line.product, line.description, line.quantity, line.unitPrice, line.taxRate, line.discountRate);
  }

  lemma LinesExact(places: Places, lines: seq<Line>)
    requires LinesPriced(lines, places) && forall i :: 0 <= i < |lines| ==> Sane(lines[i])
    ensures Exact(Sum(Nets(lines)), places) && Exact(Sum(Taxes(lines)), places)
            && Exact(Sum(Nets(lines)) + Sum(Taxes(lines)), places)
  {
    forall i | 0 <= i < |lines|
      ensures Exact(Nets(lines)[i], places) && Exact(Taxes(lines)[i], places)
    {
      PricedIsExact(places, lines[i]);
    }
    SumMultiple(Nets(lines), Quantum(places));
    SumMultiple(Taxes(lines), Quantum(places));
    MultipleAdd(Sum(Nets(lines)), Sum(Taxes(lines)), Quantum(places));
  }

  /** Every draft that the service builds is a well-formed document, priced at the company's precision. */
  lemma DraftedOk(s: State, data: DraftData, base: Option<Invoice>)
    requires data.DraftData? && Drafted(s, data, base).Ok?
    requires base.Some? ==> DocumentOk(base.value, |s.customers|, |s.products|)
    ensures var draft := Drafted(s, data, base).value;
            DocumentOk(draft, |s.customers|, |s.products|) && DraftOk(draft)
                && LinesPriced(draft.lines, s.company.precision)
  {
    hide LinesOf, Nets, Taxes, Totals, PricedAt, Sane, Leq;
    var draft := Drafted(s, data, base).value;
    var items := SourceLines(data.lines, base).value;
    LinesOfSane(ArchivedFlags(s.products), s.company.precision, items);
    assert draft.lines == LinesOf(ArchivedFlags(s.products), s.company.precision, items).value;
    LinesAmounts(draft.lines);
  }

  ghost predicate DraftSlot(s: State, id: Option<nat>) {
    id.Some? ==> id.value < |s.invoices| && s.invoices[id.value].status == Draft
  }

  lemma PutDraftPayments(s: State, id: Option<nat>, draft: Invoice)
    requires DraftSlot(s, id) && draft.status == Draft && PaymentsOk(s) && NoOverpayment(s)
    ensures PaymentsOk(PutDraft(s, id, draft)) && NoOverpayment(PutDraft(s, id, draft))
  {
    hide Paid, Exact, Leq;
    var t := PutDraft(s, id, draft);
    assert forall k :: 0 <= k < |t.payments| ==> PaymentOk(s, t.payments[k]);
    if id.None? {
      PaidNothing(s.payments, |s.invoices|);
    }
  }

  lemma PutDraftEntries(s: State, id: Option<nat>, draft: Invoice)
    requires DraftSlot(s, id) && draft.status == Draft && EntriesOk(s) && EntriesComplete(s)
    ensures EntriesOk(PutDraft(s, id, draft)) && EntriesComplete(PutDraft(s, id, draft))
  {
    var t := PutDraft(s, id, draft);
    assert forall k :: 0 <= k < |t.entries| ==> EntryOk(s, t.entries[k]);
    forall k | 0 <= k < |t.entries| ensures EntryOk(t, t.entries[k]) {
      assert t.invoices[t.entries[k].invoice] == s.invoices[t.entries[k].invoice];
    }
  }

  lemma PutDraftNumbers(s: State, id: Option<nat>, draft: Invoice)
    requires DraftSlot(s, id) && draft.status == Draft && NumbersOk(s.invoices, s.counters)
    ensures NumbersOk(PutDraft(s, id, draft).invoices, s.counters)
  {
    var t := PutDraft(s, id, draft);
    forall i | 0 <= i < |t.invoices| && t.invoices[i].status == Validated
      ensures HasNumber(t.invoices[i], Counter(s.counters, t.invoices[i].issue.year))
    {
      assert t.invoices[i] == s.invoices[i];
    }
    forall y, n | 1 <= n < Counter(s.counters, y) ensures Issued(t.invoices, y, n) {
      assert Issued(s.invoices, y, n);
      var i :| 0 <= i < |s.invoices| && Numbered(s.invoices[i], y, n);
      assert Numbered(t.invoices[i], y, n);
    }
  }

  lemma PutDraftControl(s: State, id: Option<nat>, draft: Invoice)
    requires DraftSlot(s, id) && draft.status == Draft && ControlOk(s)
    ensures ControlOk(PutDraft(s, id, draft))
  {
    if id.Some? {
      DocumentsUpdate(OpenAmount, s.invoices, s.payments, id.value, draft);
      DocumentsUpdate(NetAmount, s.invoices, s.payments, id.value, draft);
      DocumentsUpdate(TaxAmount, s.invoices, s.payments, id.value, draft);
    } else {
      DocumentsAppend(OpenAmount, s.invoices, s.payments, draft);
      DocumentsAppend(NetAmount, s.invoices, s.payments, draft);
      DocumentsAppend(TaxAmount, s.invoices, s.payments, draft);
    }
  }

  lemma PutDraftKeeps(s: State, id: Option<nat>, draft: Invoice)
    requires LedgerOk(s) && DraftSlot(s, id) && InvoiceOk(s, draft) && DraftOk(draft)
    ensures LedgerOk(PutDraft(s, id, draft)) && Extends(s, PutDraft(s, id, draft))
  {
    hide EntriesOk, EntriesComplete, ControlOk, NumbersOk, PaymentsOk, NoOverpayment, PeriodsOk, DocumentOk, SealedOk;
    PutDraftPayments(s, id, draft);
    PutDraftEntries(s, id, draft);
    PutDraftNumbers(s, id, draft);
    PutDraftControl(s, id, draft);
    var t := PutDraft(s, id, draft);
    forall i | 0 <= i < |t.invoices| ensures InvoiceOk(t, t.invoices[i]) {
      if i < |s.invoices| {
        assert InvoiceOk(s, s.invoices[i]);
      }
    }
  }

  // ---- sealing ----

  ghost predicate Sealable(s: State, id: nat, period: nat, lines: seq<EntryLine>) {
    id < |s.invoices| && DraftOk(s.invoices[id]) && s.invoices[id].total > 0
        && LinesPriced(s.invoices[id].lines, s.company.precision)
    && CheckPeriod(s, s.invoices[id].issue) == Ok(period)
    && Posting(s, SalesJournal, InvoiceValues(s.invoices[id])) == Ok(lines)
  }

  lemma QuantaTold(quanta: int, places: Places)
    ensures Denotes(Money(quanta * Quantum(places), places), quanta * Quantum(places), places)
  {
    MultipleOf(quanta, Quantum(places));
    MoneyExact(quanta * Quantum(places), places);
  }

  lemma AmountTold(amount: int, places: Places)
    requires Exact(amount, places)
    ensures Denotes(Money(amount, places), amount, places)
  {
    MoneyExact(amount, places);
  }

  lemma LineTold(products: seq<Product>, line: Line, places: Places)
    requires PricedAt(places, line)
    ensures LineTells(LineSnapshot(products, line, places), line, places)
  {
    hide Money, Denotes, Quantum, NetQuanta, TaxQuanta;
    var net := NetQuanta(places, line.quantity, line.unitPrice, line.discountRate);
    var tax := TaxQuanta(net, line.taxRate);
    QuantaTold(net, places);
    QuantaTold(tax, places);
    QuantaTold(net + tax, places);
    Distributed(net, tax, Quantum(places));
  }

  lemma Distributed(a: int, b: int, q: int)
    ensures (a + b) * q == a * q + b * q
  {}

  /** The snapshot of a document priced at these places tells the document. */
  lemma DocumentTold(company: Company, party: Party, products: seq<Product>, inv: Invoice, places: Places)
    requires LinesPriced(inv.lines, places) && inv.total == inv.net + inv.tax
    requires forall k :: 0 <= k < |inv.lines| ==> Sane(inv.lines[k])
    requires inv.net == Sum(Nets(inv.lines)) && inv.tax == Sum(Taxes(inv.lines))
    requires places == if inv.precision.Some? then inv.precision.value else company.precision
    ensures DocumentTells(SnapshotOf(company, party, products, inv), inv, places)
  {
    hide Money, Denotes, LineSnapshot, LineTells, Exact, PricedAt, Sane;
    LinesExact(places, inv.lines);
    AmountTold(inv.net, places);
    AmountTold(inv.tax, places);
    AmountTold(inv.total, places);
    forall k | 0 <= k < |inv.lines|
      ensures LineTells(LineSnapshot(products, inv.lines[k], places), inv.lines[k], places) {
      LineTold(products, inv.lines[k], places);
    }
  }

  lemma SnapshotHeader(company: Company, party: Party, products: seq<Product>, inv: Invoice)
    ensures var t := SnapshotOf(company, party, products, inv);
            t.number == inv.number && t.status == inv.status && t.issuer == company.profile && t.customer == party
            && (inv.currency != "" ==> t.currency == inv.currency)
    ensures SnapshotOf(company, party, products, inv.(snapshot := None)) == SnapshotOf(company, party, products, inv)
  {}

  lemma SameTold(t: Snapshot, inv: Invoice, other: Invoice, places: Places)
    requires DocumentTells(t, inv, places) && other == inv.(snapshot := other.snapshot)
    ensures DocumentTells(t, other, places)
  {}

  lemma SealedIsOk(s: State, id: nat, period: nat, lines: seq<EntryLine>)
    requires Sealable(s, id, period, lines) && InvoicesOk(s) && CompanyOk(s.company)
    ensures InvoiceOk(s, Sealed(s, s.invoices[id])) && SealedOk(Sealed(s, s.invoices[id]), s.company)
  {
    hide DocumentTells, SnapshotOf, PricedAt, Posting, CheckPeriod, Sane;
    var draft := s.invoices[id];
    assert InvoiceOk(s, draft);
    var inv := Sealed(s, draft);
    LinesExact(s.company.precision, draft.lines);
    assert inv.number[0] == 'I';
    var numbered := inv.(snapshot := None);
    DocumentTold(s.company, PartyOf(s.customers, draft.customer), s.products, numbered, s.company.precision);
    SnapshotHeader(s.company, PartyOf(s.customers, draft.customer), s.products, numbered);
    SameTold(inv.snapshot.value, numbered, inv, s.company.precision);
  }

  lemma SealNumbers(s: State, id: nat, period: nat, lines: seq<EntryLine>)
    requires Sealable(s, id, period, lines) && NumbersOk(s.invoices, s.counters)
    ensures NumbersOk(Seal(s, id, period, lines).invoices, Seal(s, id, period, lines).counters)
  {
    var t := Seal(s, id, period, lines);
    var inv := t.invoices[id];
    var year := inv.issue.year;
    var n := Counter(s.counters, year);
    assert Numbered(inv, year, n);
    forall i | 0 <= i < |t.invoices| && t.invoices[i].status == Validated
      ensures HasNumber(t.invoices[i], Counter(t.counters, t.invoices[i].issue.year))
      ensures i != id ==> t.invoices[i].number != inv.number
    {
      if i != id {
        assert HasNumber(s.invoices[i], Counter(s.counters, s.invoices[i].issue.year));
        var k :| 1 <= k < Counter(s.counters, s.invoices[i].issue.year)
            && Numbered(s.invoices[i], s.invoices[i].issue.year, k);
        assert Numbered(t.invoices[i], t.invoices[i].issue.year, k);
        if t.invoices[i].number == inv.number {
          NumberTextInjective(s.invoices[i].issue.year, k, year, n);
        }
      }
    }
    forall y, k | 1 <= k < Counter(t.counters, y) ensures Issued(t.invoices, y, k) {
      if y == year && k == n {
        assert Numbered(t.invoices[id], y, k);
      } else {
        assert Issued(s.invoices, y, k);
        var i :| 0 <= i < |s.invoices| && Numbered(s.invoices[i], y, k);
        assert Numbered(t.invoices[i], y, k);
      }
    }
  }

  lemma SealEntries(s: State, id: nat, period: nat, lines: seq<EntryLine>)
    requires Sealable(s, id, period, lines) && EntriesOk(s) && InvoicesOk(s)
    ensures EntriesOk(Seal(s, id, period, lines))
    ensures forall k :: 0 <= k < |s.entries| ==> s.entries[k].invoice != id
  {
    hide Sealed, Posting, CheckPeriod, LinesPriced, DraftOk;
    var t := Seal(s, id, period, lines);
    SealedEntry(s, id, period, lines);
    forall k | 0 <= k < |t.entries|
      ensures EntryOk(t, t.entries[k]) && (k < |s.entries| ==> s.entries[k].invoice != id)
    {
      if k < |s.entries| {
        assert EntryOk(s, s.entries[k]);
        DraftIsOpen(s, id);
        EntryUntouched(s, t, id, s.entries[k]);
      }
    }
  }

  lemma DraftIsOpen(s: State, id: nat)
    requires id < |s.invoices| && DraftOk(s.invoices[id])
    ensures s.invoices[id].status == Draft
  {
  }

  /** An entry stays right when rows other than its own documents change. */
  lemma EntryUntouched(s: State, t: State, id: nat, e: Entry)
    requires EntryOk(s, e) && id < |s.invoices| && s.invoices[id].status == Draft
    requires |t.invoices| >= |s.invoices| && forall i :: 0 <= i < |s.invoices| && i != id ==>
               t.invoices[i] == s.invoices[i]
    requires s.payments <= t.payments && t.periods == s.periods && t.accounts == s.accounts && t.journals == s.journals
    ensures EntryOk(t, e) && e.invoice != id
  {
  }

  lemma SealComplete(s: State, id: nat, period: nat, lines: seq<EntryLine>)
    requires Sealable(s, id, period, lines) && EntriesComplete(s)
    requires forall k :: 0 <= k < |s.entries| ==> s.entries[k].invoice != id
    ensures EntriesComplete(Seal(s, id, period, lines))
  {
    hide Sealed, Posting, CheckPeriod, LinesPriced, DraftOk;
    var t := Seal(s, id, period, lines);
    PostedAppend(s, t);
    assert EntryOf(t.entries[|s.entries|], InvoiceEntry, id, None);
  }

  lemma SealedEntry(s: State, id: nat, period: nat, lines: seq<EntryLine>)
    requires Sealable(s, id, period, lines) && InvoicesOk(s)
    ensures var t := Seal(s, id, period, lines);
            EntryOk(t, t.entries[|s.entries|])
  {
    assert InvoiceOk(s, s.invoices[id]);
    InvoicePostingAccepted(s, s.invoices[id]);
    assert InvoiceValues(Sealed(s, s.invoices[id])) == InvoiceValues(s.invoices[id]);
  }

  /** Entries already posted stay posted when an entry is added. */
  lemma PostedAppend(s: State, t: State)
    requires s.entries <= t.entries
    ensures forall kind, i, p :: Posted(s.entries, kind, i, p) ==> Posted(t.entries, kind, i, p)
  {
    forall kind, i, p | Posted(s.entries, kind, i, p) ensures Posted(t.entries, kind, i, p) {
      var k :| 0 <= k < |s.entries| && EntryOf(s.entries[k], kind, i, p);
      assert t.entries[k] == s.entries[k];
      assert EntryOf(t.entries[k], kind, i, p);
    }
  }

  lemma SealControl(s: State, id: nat, period: nat, lines: seq<EntryLine>)
    requires Sealable(s, id, period, lines) && InvoicesOk(s) && NoOverpayment(s) && ControlOk(s)
    ensures ControlOk(Seal(s, id, period, lines))
  {
    hide Posting, CheckPeriod, LinesPriced, SnapshotOf, NumberText, BalancesOf, Balance, InvoiceValues, NonZero,
      Documents,
      PeriodOf, DocumentOk, Exact, Paid;
    var t := Seal(s, id, period, lines);
    var e := t.entries[|s.entries|];
    SealedLines(s, id, period, lines);
    SealBalance(s, t, e, Receivable);
    SealBalance(s, t, e, Revenue);
    SealBalance(s, t, e, Tax);
    SealBalance(s, t, e, Bank);
    DocumentsUpdate(OpenAmount, s.invoices, s.payments, id, t.invoices[id]);
    DocumentsUpdate(NetAmount, s.invoices, s.payments, id, t.invoices[id]);
    DocumentsUpdate(TaxAmount, s.invoices, s.payments, id, t.invoices[id]);
    InvoiceEntryBalances(s.invoices[id], Receivable);
    InvoiceEntryBalances(s.invoices[id], Revenue);
    InvoiceEntryBalances(s.invoices[id], Tax);
    InvoiceEntryBalances(s.invoices[id], Bank);
  }

  lemma SealedLines(s: State, id: nat, period: nat, lines: seq<EntryLine>)
    requires Sealable(s, id, period, lines) && InvoicesOk(s)
    ensures lines == NonZero(InvoiceValues(s.invoices[id]))
  {
    assert InvoiceOk(s, s.invoices[id]);
    InvoicePostingAccepted(s, s.invoices[id]);
  }

  lemma SealBalance(s: State, t: State, e: Entry, kind: Kind)
    requires t.entries == s.entries + [e]
    ensures Balance(t.entries, kind) == Balance(s.entries, kind) + Sum(BalancesOf(e.lines, kind))
  {
    BalanceAppend(s.entries, e, kind);
  }

  lemma SealKeeps(s: State, id: nat, period: nat, lines: seq<EntryLine>)
    requires LedgerOk(s) && Sealable(s, id, period, lines)
    ensures LedgerOk(Seal(s, id, period, lines)) && Extends(s, Seal(s, id, period, lines))
  {
    hide EntriesOk, EntriesComplete, ControlOk, NumbersOk, NoOverpayment, PeriodsOk, DocumentOk, SealedOk, Posting,
      CheckPeriod, LinesPriced, Sealed, PaymentsOk;
    var t := Seal(s, id, period, lines);
    SealPayments(s, id, period, lines);
    SealedIsOk(s, id, period, lines);
    SealNumbers(s, id, period, lines);
    SealEntries(s, id, period, lines);
    SealComplete(s, id, period, lines);
    SealControl(s, id, period, lines);
    forall i | 0 <= i < |t.invoices| ensures InvoiceOk(t, t.invoices[i]) {
      assert InvoiceOk(s, s.invoices[i]);
    }
  }

  lemma SealPayments(s: State, id: nat, period: nat, lines: seq<EntryLine>)
    requires Sealable(s, id, period, lines) && PaymentsOk(s) && NoOverpayment(s)
    ensures PaymentsOk(Seal(s, id, period, lines)) && NoOverpayment(Seal(s, id, period, lines))
  {
    hide Posting, CheckPeriod, LinesPriced, SnapshotOf, NumberText, Paid;
    var t := Seal(s, id, period, lines);
    assert forall k :: 0 <= k < |t.payments| ==> PaymentOk(s, t.payments[k]);
  }

  // ---- payments ----

  ghost predicate Payable(s: State, p: Payment, period: nat, lines: seq<EntryLine>) {
    PaymentOk(s, p) && p.amount <= s.invoices[p.invoice].total - Paid(s.payments, p.invoice)
    && CheckPeriod(s, p.date) == Ok(period) && Posting(s, BankJournal, PaymentValues(p.amount)) == Ok(lines)
  }

  lemma SettleEntries(s: State, p: Payment, period: nat, lines: seq<EntryLine>)
    requires Payable(s, p, period, lines) && EntriesOk(s)
    ensures EntriesOk(Settle(s, p, s.invoices[p.invoice].number, period, lines))
    ensures forall k :: 0 <= k < |s.entries| && s.entries[k].kind == PaymentEntry ==>
              s.entries[k].payment != Some(|s.payments|)
  {
    hide Paid, Exact;
    var t := Settle(s, p, s.invoices[p.invoice].number, period, lines);
    PaymentPostingAccepted(s, p.amount);
    forall k | 0 <= k < |t.entries|
      ensures EntryOk(t, t.entries[k])
      ensures k < |s.entries| && s.entries[k].kind == PaymentEntry ==> s.entries[k].payment != Some(|s.payments|)
    {
      if k < |s.entries| {
        assert EntryOk(s, s.entries[k]);
      }
    }
  }

  lemma SettleComplete(s: State, p: Payment, period: nat, lines: seq<EntryLine>)
    requires Payable(s, p, period, lines) && EntriesComplete(s)
    requires forall k :: 0 <= k < |s.entries| && s.entries[k].kind == PaymentEntry ==>
               s.entries[k].payment != Some(|s.payments|)
    ensures EntriesComplete(Settle(s, p, s.invoices[p.invoice].number, period, lines))
  {
    hide Paid, Exact, Posting, CheckPeriod;
    var t := Settle(s, p, s.invoices[p.invoice].number, period, lines);
    PostedAppend(s, t);
    assert EntryOf(t.entries[|s.entries|], PaymentEntry, p.invoice, Some(|s.payments|));
  }

  lemma SettlePaid(s: State, p: Payment, period: nat, lines: seq<EntryLine>)
    requires Payable(s, p, period, lines) && PaymentsOk(s) && NoOverpayment(s)
    ensures var t := Settle(s, p, s.invoices[p.invoice].number, period, lines);
            PaymentsOk(t) && NoOverpayment(t)
  {
    var t := Settle(s, p, s.invoices[p.invoice].number, period, lines);
    forall k | 0 <= k < |t.payments| ensures PaymentOk(t, t.payments[k]) {
      assert PaymentOk(s, t.payments[k]);
    }
    forall i | 0 <= i < |t.invoices|
      ensures Paid(t.payments, i) == Paid(s.payments, i) + (if p.invoice == i then p.amount else 0)
    {
      PaidAppend(s.payments, p, i);
    }
  }

  lemma SettleControl(s: State, p: Payment, period: nat, lines: seq<EntryLine>)
    requires Payable(s, p, period, lines) && ControlOk(s)
    ensures ControlOk(Settle(s, p, s.invoices[p.invoice].number, period, lines))
  {
    hide Posting, CheckPeriod, Paid, Exact, BalancesOf, Balance, Documents, PaymentValues;
    var t := Settle(s, p, s.invoices[p.invoice].number, period, lines);
    var e := t.entries[|s.entries|];
    PaymentPostingAccepted(s, p.amount);
    SealBalance(s, t, e, Receivable);
    SealBalance(s, t, e, Revenue);
    SealBalance(s, t, e, Tax);
    SealBalance(s, t, e, Bank);
    PaymentEntryBalances(p.amount, Receivable);
    PaymentEntryBalances(p.amount, Revenue);
    PaymentEntryBalances(p.amount, Tax);
    PaymentEntryBalances(p.amount, Bank);
    DocumentsPay(OpenAmount, s.invoices, s.payments, p);
    DocumentsPay(NetAmount, s.invoices, s.payments, p);
    DocumentsPay(TaxAmount, s.invoices, s.payments, p);
    assert AllPayments(t.payments) == AllPayments(s.payments) + [p.amount];
    SumAppend(AllPayments(s.payments), p.amount);
  }

  lemma SettleKeeps(s: State, p: Payment, period: nat, lines: seq<EntryLine>)
    requires LedgerOk(s) && Payable(s, p, period, lines)
    ensures var t := Settle(s, p, s.invoices[p.invoice].number, period, lines);
            LedgerOk(t) && Extends(s, t)
  {
    hide EntriesOk, EntriesComplete, ControlOk, NumbersOk, NoOverpayment, PeriodsOk, DocumentOk, SealedOk, Posting,
      CheckPeriod, PaymentsOk, Paid;
    var t := Settle(s, p, s.invoices[p.invoice].number, period, lines);
    SettleEntries(s, p, period, lines);
    SettleComplete(s, p, period, lines);
    SettlePaid(s, p, period, lines);
    SettleControl(s, p, period, lines);
    forall i | 0 <= i < |t.invoices| ensures InvoiceOk(t, t.invoices[i]) {
      assert InvoiceOk(s, s.invoices[i]);
    }
  }

  /** Matches stay right when payments and records are added. */
  lemma MatchesExtend(payments: seq<Payment>, records: map<Key, Record>, rows: seq<BankTransaction>,
                      payments': seq<Payment>, records': map<Key, Record>)
    requires MatchesOk(payments, records, rows) && payments <= payments' && records.Keys <= records'.Keys
    ensures MatchesOk(payments', records', rows)
  {
    forall i | 0 <= i < |rows| ensures MatchOk(payments', records', i, rows[i]) {
      assert MatchOk(payments, records, i, rows[i]);
    }
  }
}
