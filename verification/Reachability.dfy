/** The invariant holds in every reachable state, and what it means for a reader of the books. */
module Reachability {
  import opened Basics
  import opened Pricing
  import opened Numbering
  import opened Books
  import opened Services
  import opened Banking
  import opened Invariants
  import opened Preservation
  import opened Runs
  import opened BankProofs

  ghost predicate NoNewBankKey(s: State, t: State) {
    forall k :: k in t.records && k.BankKey? ==> k in s.records
  }

  lemma BankUnderMoves(s: State, t: State)
    requires BankOk(s) && Moves(s, t) && NoNewBankKey(s, t)
    ensures BankOk(t)
  {
    hide LedgerOk, CurrenciesOk, RowsOk, MatchesInjective, MatchOk;
    MatchesExtend(s.payments, s.records, s.bankRows, t.payments, t.records);
  }

  lemma MovingCalls(s: State, call: Call)
    requires Inv(s) && (call.SaveDraftCall? || call.ValidateCall? || call.PayCall? || call.DuplicateCall?)
    ensures Inv(Step(s, call)) && Extends(s, Step(s, call))
  {
    hide LedgerOk, BankOk, SaveDraft, Validate, RecordPayment, Duplicate, Extends;
    match call {
      case SaveDraftCall(actor, data, id) =>
        SaveDraftMoves(s, actor, data, id);
        SaveDraftRecords(s, actor, data, id);
      case ValidateCall(actor, id, key, payload) =>
        ValidateMoves(s, actor, id, ManualKey(key), payload);
        ValidateRecords(s, actor, id, key, payload);
      case PayCall(actor, id, key, data) =>
        RecordPaymentMoves(s, actor, id, ManualKey(key), data);
        PayRecords(s, actor, id, key, data);
      case DuplicateCall(actor, id, key, data) =>
        DuplicateMoves(s, actor, id, ManualKey(key), data);
        DuplicateRecords(s, actor, id, key, data);
    }
    BankUnderMoves(s, Step(s, call));
  }

  lemma ValidateRecords(s: State, actor: Actor, id: nat, key: Option<string>, payload: Option<Payload>)
    ensures NoNewBankKey(s, Validate(s, actor, id, ManualKey(key), payload).state)
  {
    hide SaveDraft, SealDraft, Strip;
    if SaveDraft(s, actor, NO_CHANGES, Some(id)).answer.Ok? {
      SavedDraft(s, actor, id);
      SealDraftRecords(s, actor, id);
    }
  }

  lemma PayRecords(s: State, actor: Actor, id: nat, key: Option<string>, data: PaymentData)
    ensures NoNewBankKey(s, RecordPayment(s, actor, id, ManualKey(key), data).state)
  {
    hide PaymentRequest, CheckPeriod, Posting, Strip, Paid, PaymentMark;
  }

  lemma DuplicateRecords(s: State, actor: Actor, id: nat, key: Option<string>, data: DatesData)
    ensures NoNewBankKey(s, Duplicate(s, actor, id, ManualKey(key), data).state)
  {
    hide SaveDraft, CopyOf, Strip;
    if id < |s.invoices| && data.DatesData? && data.issue.Given? && data.due.Given? {
      SaveDraftRecords(s, actor, CopyOf(s.invoices[id], data.issue.value, data.due.value), None);
    }
  }

  lemma SaveDraftRecords(s: State, actor: Actor, data: DraftData, id: Option<nat>)
    ensures SaveDraft(s, actor, data, id).state.records == s.records
  {
    hide Drafted;
  }

  lemma SealDraftRecords(s: State, actor: Actor, id: nat)
    ensures var t := SaveDraft(s, actor, NO_CHANGES, Some(id)).state;
            id < |t.invoices| && SealDraft(t, id).Ok? ==> SealDraft(t, id).value.records == s.records
  {
    hide Drafted, CheckPeriod, Posting, Sealed;
  }

  lemma ConfigureKeeps(s: State, actor: Actor, data: CompanyData)
    requires Inv(s)
    ensures Inv(Configure(s, actor, data).state) && Extends(s, Configure(s, actor, data).state)
  {
    hide EntriesComplete, ControlOk, NumbersOk, NoOverpayment, PeriodsOk, DocumentOk, RowsOk, MatchesOk,
      MatchesInjective, BankKeysUsed, RecordsOk;
    var t := Configure(s, actor, data).state;
    if t != s {
      ConfigureLocked(s, actor, data);
      SameDocuments(s, t);
      forall i | 0 <= i < |t.invoices| ensures InvoiceOk(t, t.invoices[i]) {
        assert InvoiceOk(s, s.invoices[i]);
      }
      forall k | 0 <= k < |t.payments| ensures PaymentOk(t, t.payments[k]) {
        assert PaymentOk(s, s.payments[k]);
        assert AnyValidated(s.invoices);
      }
      forall k | 0 <= k < |t.entries| ensures EntryOk(t, t.entries[k]) {
        assert EntryOk(s, s.entries[k]);
      }
    }
  }

  /** Once a document, a bank account or an external transaction depends on them, currency and precision stay. */
  lemma ConfigureLocked(s: State, actor: Actor, data: CompanyData)
    ensures var t := Configure(s, actor, data).state;
            && (ConfigurationInUse(s) ==>
                 t.company.currency == s.company.currency && t.company.precision == s.company.precision)
            && t == s.(company := t.company) && (t != s ==> CurrencyOk(t.company.currency))
  {
  }

  lemma SameDocuments(s: State, t: State)
    requires t.invoices == s.invoices && t.payments == s.payments && t.entries == s.entries
    requires EntriesComplete(s) && ControlOk(s) && NoOverpayment(s)
    ensures EntriesComplete(t) && ControlOk(t) && NoOverpayment(t)
  {
  }

  lemma PeriodKeeps(s: State, actor: Actor, data: PeriodData, id: Option<nat>)
    requires Inv(s)
    ensures Inv(SetPeriod(s, actor, data, id).state) && Extends(s, SetPeriod(s, actor, data, id).state)
  {
    hide EntriesComplete, ControlOk, NumbersOk, NoOverpayment, DocumentOk, SealedOk, PaymentOk, BankOk, RecordsOk,
      Strip;
    var t := SetPeriod(s, actor, data, id).state;
    if t != s {
      SameDocuments(s, t);
      PeriodsKept(s, actor, data, id);
      forall i | 0 <= i < |t.invoices| ensures InvoiceOk(t, t.invoices[i]) {
        SameInvoiceOk(s, t, s.invoices[i]);
      }
      forall k | 0 <= k < |t.payments| ensures PaymentOk(t, t.payments[k]) {
        SamePaymentOk(s, t, k);
      }
      forall k | 0 <= k < |t.entries| ensures EntryOk(t, t.entries[k]) {
        assert EntryOk(s, s.entries[k]);
        assert id.Some? && s.entries[k].period == id.value ==> PeriodUsed(s.entries, id.value);
      }
      SameBankTables(s, t);
    }
  }

  lemma SamePaymentOk(s: State, t: State, k: nat)
    requires PaymentsOk(s) && k < |s.payments| && t.invoices == s.invoices && t.company == s.company
    ensures PaymentOk(t, s.payments[k])
  {
    assert PaymentOk(s, s.payments[k]);
  }

  lemma SameBankTables(s: State, t: State)
    requires BankOk(s) && SameBank(s, t) && t.company == s.company && t.payments == s.payments && t.records == s.records
    ensures BankOk(t)
  {
    hide CurrenciesOk, RowsOk, MatchesOk, MatchesInjective, BankKeysUsed;
  }

  /** Periods of a company never overlap, and the dates of a period that has entries never move. */
  lemma PeriodsKept(s: State, actor: Actor, data: PeriodData, id: Option<nat>)
    requires PeriodsOk(s.periods)
    ensures var t := SetPeriod(s, actor, data, id).state;
            && PeriodsOk(t.periods) && |t.periods| >= |s.periods|
            && (forall p :: 0 <= p < |s.periods| && PeriodUsed(s.entries, p) ==>
                  t.periods[p].start == s.periods[p].start && t.periods[p].end == s.periods[p].end)
  {
    hide PeriodUsed, Strip;
    var t := SetPeriod(s, actor, data, id).state;
    forall i, j | 0 <= i < j < |t.periods| ensures !Overlap(t.periods[i], t.periods[j]) {
      var n := if id.Some? then id.value else |s.periods|;
      if t != s {
        if i == n {
          assert Some(j) != id;
        } else if j == n {
          assert Some(i) != id;
        }
      }
    }
  }

  lemma ImportKeeps(s: State, actor: Actor, account: nat, csv: Option<seq<CsvRow>>, confirm: bool,
                    digest: Option<Digest>)
    requires Inv(s)
    ensures Inv(Import(s, actor, account, csv, confirm, digest).state)
         && Extends(s, Import(s, actor, account, csv, confirm, digest).state)
  {
    hide LedgerOk, Import, ParseCsv, CurrenciesOk, RowsOk, NewRows, RowOk;
    var o := Import(s, actor, account, csv, confirm, digest);
    ImportReport(s, actor, account, csv, confirm, digest);
    if o.state != s {
      ImportedStatement(s, actor, account, csv, confirm, digest);
      var rows := o.answer.value.rows;
      SameLedgerTables(s, o.state);
      ImportKeepsRows(s.bankAccounts, s.bankRows, account, rows);
      var after := o.state.bankRows;
      assert forall i :: 0 <= i < |after| ==> (i < |s.bankRows| && after[i] == s.bankRows[i]) || after[i].matched.None?;
      assert forall i :: 0 <= i < |s.bankRows| ==> MatchOk(s.payments, s.records, i, s.bankRows[i]);
    }
  }

  lemma ImportedStatement(s: State, actor: Actor, account: nat, csv: Option<seq<CsvRow>>, confirm: bool,
                          digest: Option<Digest>)
    requires Import(s, actor, account, csv, confirm, digest).answer.Ok?
    ensures var rows := Import(s, actor, account, csv, confirm, digest).answer.value.rows;
            DistinctIds(rows) && account < |s.bankAccounts| && forall i :: 0 <= i < |rows| ==> RowOk(rows[i])
  {
    hide ParseCsv, Compatible, NewRows, Allowed, RowOk;
    StatementOk(csv);
  }

  lemma CatalogueKeeps(s: State, t: State)
    requires Inv(s) && |t.products| >= |s.products| && |t.customers| >= |s.customers|
    requires s.accounts <= t.accounts && s.journals <= t.journals
    requires t == s.(products := t.products, customers := t.customers, accounts := t.accounts, journals := t.journals)
    ensures Inv(t) && Extends(s, t)
  {
    hide NumbersOk, PeriodsOk, DocumentOk, SealedOk, DraftOk, RecordsOk, CompanyOk, BankOk, ControlOk, EntriesOk,
      EntriesComplete,
      PaymentsOk, NoOverpayment;
    SameLedger(s, t);
    forall i | 0 <= i < |t.invoices| ensures InvoiceOk(t, t.invoices[i]) {
      SameInvoiceOk(s, t, s.invoices[i]);
    }
    SameBankTables(s, t);
  }

  /** The bank accounts and external transactions play no part in the ledger's own invariant. */
  lemma AccountsKeep(s: State, t: State)
    requires Inv(s) && t == s.(bankAccounts := t.bankAccounts, externals := t.externals)
    requires |t.bankAccounts| >= |s.bankAccounts| && s.externals <= t.externals
    requires CurrenciesOk(s.company.currency, t.bankAccounts, t.externals)
    ensures Inv(t) && Extends(s, t)
  {
    hide ControlOk, EntriesOk, EntriesComplete, PaymentsOk, NoOverpayment, DocumentOk, SealedOk, DraftOk, RecordsOk,
      CompanyOk, NumbersOk, PeriodsOk;
    SameLedger(s, t);
    forall i | 0 <= i < |t.invoices| ensures InvoiceOk(t, t.invoices[i]) {
      SameInvoiceOk(s, t, s.invoices[i]);
    }
  }

  lemma StepKeeps(s: State, call: Call)
    requires Inv(s)
    ensures Inv(Step(s, call)) && Extends(s, Step(s, call))
  {
    hide Inv, Extends, SaveDraft, Validate, RecordPayment, Duplicate, Configure, SetPeriod, Import, Reconcile, Known;
    match call {
      case ConfigureCall(actor, data) => ConfigureKeeps(s, actor, data);
      case PeriodCall(actor, data, id) => PeriodKeeps(s, actor, data, id);
      case ImportCall(actor, account, csv, confirm, digest) => ImportKeeps(s, actor, account, csv, confirm, digest);
      case ReconcileCall(actor, row, invoice) => ReconcileKeeps(s, actor, row, invoice);
      case BootstrapCall => CatalogueKeeps(s, Step(s, call));
      case ProductCall(product, id) => CatalogueKeeps(s, Step(s, call));
      case CustomerCall(customer, id) => CatalogueKeeps(s, Step(s, call));
      case OpenAccountCall(currency) => InvCurrencies(s); AccountsKeep(s, Step(s, call));
      case ArchiveAccountCall(account, archived) => InvCurrencies(s); AccountsKeep(s, Step(s, call));
      case ReceiveCall(data) => InvCurrencies(s); AccountsKeep(s, Step(s, call));
      case _ => MovingCalls(s, call);
    }
  }

  lemma InvCurrencies(s: State)
    requires Inv(s)
    ensures CurrenciesOk(s.company.currency, s.bankAccounts, s.externals)
  {
  }

  // ---- runs ----

  lemma {:induction false} RunKeeps(s: State, calls: seq<Call>)
    requires Inv(s)
    ensures Inv(Run(s, calls)) && Extends(s, Run(s, calls))
  {
    hide Inv, Step;
    if calls == [] {
      hide LedgerOk;
    } else {
      RunKeeps(s, calls[..|calls| - 1]);
      var t := Run(s, calls[..|calls| - 1]);
      StepKeeps(t, calls[|calls| - 1]);
      ExtendsTransitive(s, t, Run(s, calls));
    }
  }

  /** Every reachable state satisfies the whole invariant. */
  lemma ReachableIsOk(s: State)
    requires Reachable(s)
    ensures Inv(s)
  {
    var start, calls :| Empty(start) && CompanyOk(start.company) && s == Run(start, calls);
    EmptyIsOk(start);
    RunKeeps(start, calls);
  }

  /**
   In every reachable state the control accounts agree with the documents: receivable with what is
   unpaid, bank with the payments, revenue and tax with the validated amounts.
   */
  lemma ControlAccountsAgree(s: State)
    requires Reachable(s)
    ensures Balance(s.entries, Receivable) == Sum(Documents(OpenAmount, s.invoices, s.payments))
    ensures Balance(s.entries, Bank) == Sum(AllPayments(s.payments))
    ensures Balance(s.entries, Revenue) == -Sum(Documents(NetAmount, s.invoices, s.payments))
    ensures Balance(s.entries, Tax) == -Sum(Documents(TaxAmount, s.invoices, s.payments))
  {
    ReachableIsOk(s);
  }

  /** The numbers on the invoices of a year are exactly 1 to the counter, none missing and none twice. */
  lemma NumbersAreGapless(s: State, year: nat, n: nat)
    requires Reachable(s)
    ensures 1 <= n < Counter(s.counters, year) <==>
              exists i :: 0 <= i < |s.invoices| && Numbered(s.invoices[i], year, n)
    ensures forall i, j | 0 <= i < |s.invoices| && 0 <= j < |s.invoices| ::
              Numbered(s.invoices[i], year, n) && Numbered(s.invoices[j], year, n) ==> i == j
  {
    hide LedgerOk, NumberText;
    ReachableIsOk(s);
    ReachableNumbers(s);
    if 1 <= n < Counter(s.counters, year) {
      assert Issued(s.invoices, year, n);
    }
    if i :| 0 <= i < |s.invoices| && Numbered(s.invoices[i], year, n) {
      assert HasNumber(s.invoices[i], Counter(s.counters, year));
      var k :| 1 <= k < Counter(s.counters, year) && Numbered(s.invoices[i], year, k);
      NumberTextInjective(year, k, year, n);
    }
  }

  lemma ReachableNumbers(s: State)
    requires Reachable(s)
    ensures NumbersOk(s.invoices, s.counters)
  {
    ReachableIsOk(s);
  }

  /** A validation that is refused changes no row, so it consumes no number. */
  lemma RefusedConsumesNothing(s: State, actor: Actor, id: nat, key: Option<Key>, payload: Option<Payload>)
    ensures Validate(s, actor, id, key, payload).answer.Err? ==> Validate(s, actor, id, key, payload).state == s
  {
    hide SaveDraft, SealDraft, Replayed;
  }

  /**
   Whatever happens after an invoice is validated, its amounts, lines, number and snapshot stay, and
   its currency and precision remain those of the company.
   */
  lemma ValidatedIsFrozen(s: State, calls: seq<Call>, i: nat)
    requires Reachable(s) && i < |s.invoices| && s.invoices[i].status == Validated
    ensures var t := Run(s, calls);
            i < |t.invoices| && t.invoices[i] == s.invoices[i]
            && t.invoices[i].precision == Some(t.company.precision) && t.invoices[i].currency == t.company.currency
            && t.company.precision == s.company.precision && t.company.currency == s.company.currency
  {
    ReachableIsOk(s);
    RunKeeps(s, calls);
    var t := Run(s, calls);
    assert AnyValidated(s.invoices);
    assert InvoiceOk(t, t.invoices[i]);
  }

  /**
   A reconciled row keeps its payment in all later runs: same invoice, the row's amount and day, and no
   other row is reconciled with it.
   */
  lemma ReconciledForEver(s: State, calls: seq<Call>, i: nat, j: nat)
    requires Reachable(s) && i < |s.bankRows| && s.bankRows[i].matched.Some?
    ensures var t := Run(s, calls); var m := s.bankRows[i].matched.value;
            && i < |t.bankRows| && t.bankRows[i] == s.bankRows[i] && m.payment < |t.payments|
            && t.payments[m.payment] == Payment(m.invoice, s.bankRows[i].row.amount, s.bankRows[i].row.date,
                                                BankReference(i))
            && ((j < |t.bankRows| && t.bankRows[j].matched.Some?
                 && t.bankRows[j].matched.value.payment == m.payment) ==>
                  j == i)
  {
    hide LedgerOk;
    ReachableIsOk(s);
    RunKeeps(s, calls);
    assert MatchOk(Run(s, calls).payments, Run(s, calls).records, i, Run(s, calls).bankRows[i]);
  }

  /** The period of a day is unique, and every entry lies in its recorded period in all later states. */
  lemma EntriesStayInTheirPeriod(s: State, calls: seq<Call>, k: nat)
    requires Reachable(s) && k < |s.entries|
    ensures var t := Run(s, calls);
            && k < |t.entries| && t.entries[k] == s.entries[k] && t.entries[k].period < |t.periods|
            && InPeriod(t.periods[t.entries[k].period], t.entries[k].date)
            && forall p :: 0 <= p < |t.periods| && InPeriod(t.periods[p], t.entries[k].date) ==>
                 p == t.entries[k].period
  {
    ReachableIsOk(s);
    RunKeeps(s, calls);
    var t := Run(s, calls);
    assert t.entries[k] == s.entries[k];
    assert EntryOk(t, t.entries[k]);
    forall p | 0 <= p < |t.periods| && InPeriod(t.periods[p], t.entries[k].date)
      ensures p == t.entries[k].period
    {
      UniquePeriod(t.periods, p, t.entries[k].period, t.entries[k].date);
    }
  }

  lemma UniquePeriod(periods: seq<Period>, p: nat, q: nat, d: Date)
    requires PeriodsOk(periods) && p < |periods| && q < |periods| && InPeriod(periods[p], d) && InPeriod(periods[q], d)
    ensures p == q
  {
    assert Overlap(periods[p], periods[q]) && Overlap(periods[q], periods[p]);
  }
}
