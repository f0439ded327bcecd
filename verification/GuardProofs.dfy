/** Why the services never meet a refusal of the database: the invariant implies every rule they trigger. */
module GuardProofs {
  import opened Basics
  import opened Decimal
  import opened Calculation
  import opened Pricing
  import opened Numbering
  import opened Books
  import opened Services
  import opened Banking
  import opened Invariants
  import opened Preservation
  import opened BankProofs
  import opened Reports
  import opened Guards

  /** Whatever rows a transaction wrote, the deferred triggers accept a state that keeps the invariant. */
  lemma CommitAccepted(s: State, t: Touched)
    requires LedgerOk(s)
    ensures CommitAccepts(s, t)
  {
    hide ControlOk, NumbersOk, PeriodsOk, NoOverpayment, RecordsOk, CompanyOk;
    forall i | i in t.invoices ensures CheckDocument(s, i) {
      if i < |s.invoices| && s.invoices[i].status == Validated {
        assert InvoiceOk(s, s.invoices[i]);
        assert Posted(s.entries, InvoiceEntry, i, None);
        var k :| 0 <= k < |s.entries| && EntryOf(s.entries[k], InvoiceEntry, i, None);
        assert s.entries[k].kind == InvoiceEntry && s.entries[k].invoice == i;
      }
    }
    forall k | k in t.entries ensures CheckEntry(s, k) {
      if k < |s.entries| {
        LedgerEntryBalanced(s, k);
      }
    }
    forall p | p in t.payments ensures CheckPayment(s, p) {
      if p < |s.payments| {
        assert Posted(s.entries, PaymentEntry, s.payments[p].invoice, Some(p));
        var k :| 0 <= k < |s.entries| && EntryOf(s.entries[k], PaymentEntry, s.payments[p].invoice, Some(p));
        assert s.entries[k].kind == PaymentEntry && s.entries[k].payment == Some(p);
      }
    }
  }

  lemma LedgerEntryBalanced(s: State, k: nat)
    requires LedgerOk(s) && k < |s.entries|
    ensures CheckEntry(s, k)
  {
    hide ControlOk, NumbersOk, EntriesComplete, DocumentOk, NoOverpayment, PeriodsOk;
    var e := s.entries[k];
    assert EntryOk(s, e);
    assert InvoiceOk(s, s.invoices[e.invoice]);
    if e.kind == InvoiceEntry {
      EntryOfInvoice(s, s.invoices[e.invoice]);
    } else {
      assert PaymentOk(s, s.payments[e.payment.value]);
      PaymentEntryBalances(s.payments[e.payment.value].amount, Bank);
    }
  }

  // ---- drafts ----

  lemma SaneFits(line: Line)
    requires Sane(line)
    ensures LineConstraints(line)
  {
  }

  lemma DraftAccepted(s: State, id: Option<nat>, draft: Invoice)
    requires DocumentOk(draft, |s.customers|, |s.products|) && DraftOk(draft) && DraftSlot(s, id)
    ensures id.None? ==> Accepts(s, 0, InsertInvoice(draft.(lines := [])))
    ensures id.Some? ==> Accepts(s, 0, UpdateInvoice(id.value, draft.(lines := s.invoices[id.value].lines)))
    ensures var n := if id.Some? then id.value else |s.invoices|;
            var t := PutDraft(s, id, draft.(lines := []));
            Accepts(t, 0, DeleteLines(n)) && Accepts(t, 0, InsertLines(n, draft.lines))
  {
    forall i | 0 <= i < |draft.lines| ensures LineConstraints(draft.lines[i]) {
      SaneFits(draft.lines[i]);
    }
  }

  /** Only the writing of entry lines looks at the age of the transaction. */
  lemma AgeMatters(s: State, a: nat, b: nat, w: Write)
    requires !w.InsertEntryLines?
    ensures Accepts(s, a, w) <==> Accepts(s, b, w)
  {
    hide InvoiceGuard, InvoiceConstraints, LineGuard, LineConstraints, PaymentGuard, EntryGuard, PeriodGuard,
      CompanyGuard,
      BankInsertGuard, BankUpdateGuard;
  }

  // ---- sealing ----

  lemma NumberIsFree(s: State, id: nat)
    requires InvoicesOk(s) && NumbersOk(s.invoices, s.counters) && id < |s.invoices| && s.invoices[id].status == Draft
    ensures var year := s.invoices[id].issue.year;
            NumberFree(s.invoices, NumberText(year, Counter(s.counters, year)), Some(id))
  {
    var year := s.invoices[id].issue.year;
    var n := Counter(s.counters, year);
    forall i | 0 <= i < |s.invoices| && i != id
      ensures s.invoices[i].number != NumberText(year, n)
    {
      assert InvoiceOk(s, s.invoices[i]);
      if s.invoices[i].status == Validated {
        var y := s.invoices[i].issue.year;
        assert HasNumber(s.invoices[i], Counter(s.counters, y));
        var k :| 1 <= k < Counter(s.counters, y) && Numbered(s.invoices[i], y, k);
        if NumberText(y, k) == NumberText(year, n) {
          NumberTextInjective(y, k, year, n);
        }
      } else {
        assert NumberText(year, n)[0] == 'I';
      }
    }
  }

  lemma SealAccepted(s: State, id: nat, counters: map<nat, nat>)
    requires LedgerOk(s) && id < |s.invoices| && DraftOk(s.invoices[id]) && s.invoices[id].total > 0
    ensures Accepts(s.(counters := counters), 0, UpdateInvoice(id, Sealed(s, s.invoices[id])))
  {
    hide EntriesOk, EntriesComplete, ControlOk, NoOverpayment, PaymentsOk, PeriodsOk, SealedOk, SnapshotOf,
      NumberText, RecordsOk;
    assert InvoiceOk(s, s.invoices[id]);
    NumberIsFree(s, id);
    NumberNotEmpty(s.invoices[id].issue.year, Counter(s.counters, s.invoices[id].issue.year));
  }

  lemma NumberNotEmpty(year: nat, n: nat)
    ensures NumberText(year, n) != ""
  {
  }

  // ---- entries ----

  lemma NewInvoiceEntry(s: State, t: State, id: nat, period: nat)
    requires EntriesOk(s) && id < |s.invoices| && s.invoices[id].status == Draft
    requires t.entries == s.entries && t.periods == s.periods && t.journals == s.journals
             && |t.invoices| == |s.invoices|
    requires t.invoices[id].status == Validated && SalesJournal in t.journals
    requires CheckPeriod(s, t.invoices[id].issue) == Ok(period)
    ensures Accepts(t, 0, InsertEntry(Entry(id, None, t.invoices[id].issue, t.invoices[id].number, SalesJournal,
                                            period, InvoiceEntry, [])))
  {
    forall k | 0 <= k < |s.entries| ensures s.entries[k].invoice != id {
      assert EntryOk(s, s.entries[k]);
    }
  }

  lemma NewPaymentEntry(s: State, t: State, p: Payment, number: string, period: nat)
    requires EntriesOk(s) && t == s.(payments := s.payments + [p])
    requires p.invoice < |s.invoices| && s.invoices[p.invoice].status == Validated && BankJournal in s.journals
    requires CheckPeriod(s, p.date) == Ok(period)
    ensures Accepts(t, 0, InsertEntry(Entry(p.invoice, Some(|s.payments|), p.date, number, BankJournal, period,
                                            PaymentEntry, [])))
  {
    forall k | 0 <= k < |s.entries| ensures s.entries[k].payment != Some(|s.payments|) {
      assert EntryOk(s, s.entries[k]);
    }
  }

  predicate OneSided(lines: seq<EntryLine>) {
    forall i :: 0 <= i < |lines| ==>
      ((lines[i].debit > 0 && lines[i].credit == 0) || (lines[i].credit > 0 && lines[i].debit == 0))
      && Fits(lines[i].debit) && Fits(lines[i].credit)
  }

  lemma {:induction false} NonZeroOneSided(values: seq<EntryLine>)
    requires forall i :: 0 <= i < |values| ==>
               values[i].debit >= 0 && values[i].credit >= 0 && (values[i].debit == 0 || values[i].credit == 0)
               && Fits(values[i].debit) && Fits(values[i].credit)
    ensures OneSided(NonZero(values))
  {
    if values != [] {
      NonZeroOneSided(values[..|values| - 1]);
    }
  }

  lemma EntryLinesAccepted(s: State, committed: nat, id: nat, lines: seq<EntryLine>)
    requires committed <= id < |s.entries| && OneSided(lines) && AccountsExist(s.accounts, lines)
    ensures Accepts(s, committed, InsertEntryLines(id, lines))
  {
  }

  // ---- payments ----

  lemma PaymentAccepted(s: State, p: Payment)
    requires LedgerOk(s) && PaymentOk(s, p) && p.amount <= s.invoices[p.invoice].total - Paid(s.payments, p.invoice)
    ensures Accepts(s, 0, InsertPayment(p)) && p.amount <= MAX_AMOUNT
  {
    hide EntriesOk, EntriesComplete, ControlOk, NumbersOk, PaymentsOk, PeriodsOk, RecordsOk, Paid, Exact, Round,
      Quantum,
      DocumentOk, LinesPriced, Leq;
    assert InvoiceOk(s, s.invoices[p.invoice]);
    assert 0 <= Paid(s.payments, p.invoice);
    DocumentTotal(s, p.invoice);
    RoundedIsExact(p.amount, s.company.precision);
  }

  lemma DocumentTotal(s: State, i: nat)
    requires InvoicesOk(s) && i < |s.invoices|
    ensures s.invoices[i].total <= MAX_AMOUNT
  {
    assert InvoiceOk(s, s.invoices[i]);
  }

  /** Rounding to the company's precision gives back a payment, as the trigger requires. */
  lemma RoundedIsExact(amount: int, places: Places)
    requires Exact(amount, places)
    ensures amount == Round(HalfUp, amount, Quantum(places)) * Quantum(places)
  {
    var n := amount / Quantum(places);
    assert amount == n * Quantum(places);
    RoundExact(HalfUp, n, Quantum(places));
  }

  // ---- bank ----

  lemma ImportAccepted(s: State, account: nat, rows: seq<BankRow>)
    requires account < |s.bankAccounts| && DistinctIds(rows) && forall i :: 0 <= i < |rows| ==> RowOk(rows[i])
    ensures Accepts(s, 0, InsertBankRows(account, NewRows(s.bankRows, account, rows)))
  {
    NewRowsIn(s.bankRows, account, rows);
    var added := NewRows(s.bankRows, account, rows);
    forall i | 0 <= i < |added| ensures added[i].amount != 0 && Fits(added[i].amount) {
      assert added[i] in rows;
    }
  }

  lemma MatchAccepted(s: State, t: State, row: nat, invoice: nat)
    requires Inv(s) && row < |s.bankRows| && invoice < |s.invoices| && Reconciled(s, t, row, invoice)
    requires s.bankRows[row].account < |s.bankAccounts| && !s.bankAccounts[s.bankRows[row].account].archived
    requires s.invoices[invoice].status == Validated
             && s.invoices[invoice].currency == s.bankAccounts[s.bankRows[row].account].currency
    ensures Accepts(t.(bankRows := s.bankRows), 0, UpdateBankRow(row, t.bankRows[row]))
  {
    hide LedgerOk, CurrenciesOk, RowsOk, BankReference;
    forall i | 0 <= i < |s.bankRows| && s.bankRows[i].matched.Some?
      ensures s.bankRows[i].matched.value.payment != |s.payments|
    {
      assert MatchOk(s.payments, s.records, i, s.bankRows[i]);
    }
  }

  // ---- the writes of one service, put together ----

  lemma DraftAges(s: State, id: Option<nat>, draft: Invoice, committed: nat)
    requires DraftSlot(s, id)
    ensures id.None? ==> (Accepts(s, 0, InsertInvoice(draft.(lines := []))) <==>
              Accepts(s, committed, InsertInvoice(draft.(lines := []))))
    ensures id.Some? ==>
              (Accepts(s, 0, UpdateInvoice(id.value, draft.(lines := s.invoices[id.value].lines)))
               <==> Accepts(s, committed, UpdateInvoice(id.value, draft.(lines := s.invoices[id.value].lines))))
    ensures var n := if id.Some? then id.value else |s.invoices|;
            var t := PutDraft(s, id, draft.(lines := []));
            (Accepts(t, 0, InsertLines(n, draft.lines)) <==> Accepts(t, committed, InsertLines(n, draft.lines)))
    ensures id.Some? ==>
              var u := PutDraft(s, id, draft.(lines := s.invoices[id.value].lines));
              draft.status == Draft ==> Accepts(u, committed, DeleteLines(id.value))
    ensures id.None? && draft.status == Draft ==>
              Accepts(PutDraft(s, id, draft.(lines := [])), committed, DeleteLines(|s.invoices|))
  {
    hide InvoiceGuard, InvoiceConstraints, LineGuard, LineConstraints;
  }

  /** The three writes of a saved draft leave exactly the new draft in its row. */
  lemma DraftRows(s: State, id: Option<nat>, draft: Invoice)
    requires DraftSlot(s, id)
    ensures var n := if id.Some? then id.value else |s.invoices|;
            var first := if id.Some? then UpdateInvoice(id.value, draft.(lines := s.invoices[id.value].lines))
                         else InsertInvoice(draft.(lines := []));
            && Written(s, first) == PutDraft(s, id, if id.Some? then draft.(lines := s.invoices[id.value].lines)
                 else draft.(lines := []))
            && Written(Written(s, first), DeleteLines(n)) == PutDraft(s, id, draft.(lines := []))
            && Written(PutDraft(s, id, draft.(lines := [])), InsertLines(n, draft.lines)) == PutDraft(s, id, draft)
  {
    assert [] + draft.lines == draft.lines;
    if id.None? {
      assert (s.invoices + [draft.(lines := [])])[|s.invoices| := draft] == s.invoices + [draft];
    }
  }

  lemma SaveDraftErrors(s: State, actor: Actor, data: DraftData, id: Option<nat>)
    ensures SaveDraft(s, actor, data, id).answer.Err? ==> SaveDraft(s, actor, data, id).state == s
  {
    hide Drafted;
  }

  lemma RecordAccepted(s: State, committed: nat, key: Key, r: Record)
    requires key !in s.records && r.invoice < |s.invoices|
    ensures Accepts(s, committed, InsertRecord(key, r))
  {
  }

  lemma CounterAccepted(s: State, committed: nat, year: nat, next: nat)
    ensures Accepts(s, committed, PutCounter(year, next))
  {
  }

  lemma SealDraftSeals(s: State, id: nat)
    requires id < |s.invoices| && SealDraft(s, id).Ok?
    ensures |SealDraft(s, id).value.invoices| == |s.invoices| && SealDraft(s, id).value.records == s.records
  {
    hide CheckPeriod, Posting, Sealed;
  }

  /** After the header of a sealed invoice is written, its entry is acceptable. */
  lemma WrittenSeal(s: State, id: nat, t: State)
    requires LedgerOk(s) && id < |s.invoices| && DraftOk(s.invoices[id]) && s.invoices[id].total > 0
    requires t == s.(invoices := s.invoices[id := Sealed(s, s.invoices[id])], counters := t.counters)
    ensures OneSided(NonZero(InvoiceValues(t.invoices[id])))
    ensures InvoiceValues(t.invoices[id]) == InvoiceValues(s.invoices[id])
    ensures CheckPeriod(t, t.invoices[id].issue) == CheckPeriod(s, s.invoices[id].issue)
    ensures forall values :: Posting(t, SalesJournal, values) == Posting(s, SalesJournal, values)
    ensures forall period :: CheckPeriod(t, t.invoices[id].issue) == Ok(period) && SalesJournal in t.journals ==>
              Accepts(t, 0, InsertEntry(Entry(id, None, t.invoices[id].issue, t.invoices[id].number, SalesJournal,
                                              period, InvoiceEntry, [])))
  {
    hide ControlOk, NumbersOk, PeriodsOk, NoOverpayment, PaymentsOk, EntriesComplete, RecordsOk, SealedOk, Accepts,
      SnapshotOf, NumberText, NonZero, OneSided, PeriodOf;
    assert InvoiceOk(s, s.invoices[id]);
    NonZeroOneSided(InvoiceValues(s.invoices[id]));
    forall period | CheckPeriod(t, t.invoices[id].issue) == Ok(period) && SalesJournal in t.journals
      ensures Accepts(t, 0, InsertEntry(Entry(id, None, t.invoices[id].issue, t.invoices[id].number, SalesJournal,
                                              period, InvoiceEntry, [])))
    {
      NewInvoiceEntry(s, t, id, period);
    }
  }

  /** After a payment row is written, its entry is acceptable. */
  lemma WrittenPayment(s: State, p: Payment, number: string, t: State)
    requires LedgerOk(s) && PaymentOk(s, p) && p.amount <= MAX_AMOUNT && t == s.(payments := s.payments + [p])
    ensures OneSided(NonZero(PaymentValues(p.amount)))
    ensures CheckPeriod(t, p.date) == CheckPeriod(s, p.date)
    ensures forall values :: Posting(t, BankJournal, values) == Posting(s, BankJournal, values)
    ensures forall period :: CheckPeriod(t, p.date) == Ok(period) && BankJournal in t.journals ==>
              Accepts(t, 0, InsertEntry(Entry(p.invoice, Some(|s.payments|), p.date, number, BankJournal, period,
                                              PaymentEntry, [])))
  {
    hide ControlOk, NumbersOk, PeriodsOk, NoOverpayment, PaymentsOk, EntriesComplete, RecordsOk, InvoicesOk, Accepts,
      NonZero, OneSided, PeriodOf;
    NonZeroOneSided(PaymentValues(p.amount));
    forall period | CheckPeriod(t, p.date) == Ok(period) && BankJournal in t.journals
      ensures Accepts(t, 0, InsertEntry(Entry(p.invoice, Some(|s.payments|), p.date, number, BankJournal, period,
                                              PaymentEntry, [])))
    {
      NewPaymentEntry(s, t, p, number, period);
    }
  }

  lemma RecordPaymentTables(s: State, actor: Actor, id: nat, key: Option<Key>, data: PaymentData)
    ensures var t := RecordPayment(s, actor, id, key, data).state;
            t.bankRows == s.bankRows && t.bankAccounts == s.bankAccounts && t.invoices == s.invoices
                && |t.entries| >= |s.entries|
  {
    hide PaymentRequest, CheckPeriod, Posting, Strip, Paid, PaymentMark;
  }

  lemma RowChanges(s: State, t: State, row: nat)
    requires row < |s.bankRows| && row < |t.bankRows| && s.bankRows[row].matched.None? && t.bankRows[row].matched.Some?
    ensures s != t
  {
  }

  lemma EntryRows(s: State, e: Entry, lines: seq<EntryLine>)
    requires e.lines == []
    ensures Written(Written(s, InsertEntry(e)),
                    InsertEntryLines(|s.entries|, lines)) == s.(entries := s.entries + [e.(lines := lines)])
  {
    assert [] + lines == lines;
    assert (s.entries + [e])[|s.entries| := e.(lines := lines)] == s.entries + [e.(lines := lines)];
  }
}
