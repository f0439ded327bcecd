/** Runs of the books: any sequence of requests, each one atomic step, from an empty company. */
module Runs {
  import opened Basics
  import opened Calculation
  import opened Pricing
  import opened Books
  import opened Services
  import opened Banking
  import opened Invariants
  import opened Preservation

  /** A request. Callers choose the text of their keys; they cannot choose a bank key. */
  datatype Call =
    | SaveDraftCall(actor: Actor, data: DraftData, draft: Option<nat>)
    | ValidateCall(actor: Actor, invoice: nat, key: Option<string>, payload: Option<Payload>)
    | PayCall(actor: Actor, invoice: nat, key: Option<string>, payment: PaymentData)
    | DuplicateCall(actor: Actor, invoice: nat, key: Option<string>, dates: DatesData)
    | ConfigureCall(actor: Actor, company: CompanyData)
    | PeriodCall(actor: Actor, period: PeriodData, id: Option<nat>)
    | ImportCall(actor: Actor, account: nat, csv: Option<seq<CsvRow>>, confirm: bool, digest: Option<Digest>)
    | ReconcileCall(actor: Actor, row: nat, invoice: nat)
    | BootstrapCall
    | ProductCall(product: Product, id: Option<nat>)
    | CustomerCall(customer: Customer, id: Option<nat>)
    | OpenAccountCall(currency: string)
    | ArchiveAccountCall(account: nat, archived: bool)
    | ReceiveCall(external: External)

  function ManualKey(key: Option<string>): Option<Key> {
    if key.None? then None else Some(Manual(key.value))
  }

  function Put<T>(rows: seq<T>, id: Option<nat>, row: T): seq<T> {
    if id.None? then rows + [row] else if id.value < |rows| then rows[id.value := row] else rows
  }

  function Known(externals: seq<External>, integration: nat, externalId: string): Option<External> {
    if externals == [] then None
    else
      var last := externals[|externals| - 1];
      if last.integration == integration && last.externalId == externalId then Some(last)
      else Known(externals[..|externals| - 1], integration, externalId)
  }

  /** A transaction announced by an integration is stored once; a different content is refused. */
  function Receive(s: State, data: External): Outcome<()> {
    if data.currency != s.company.currency || data.amount == 0 then Outcome(s, Err(InvalidInput))
    else
      match Known(s.externals, data.integration, data.externalId)
      case Some(previous) => Outcome(s, if previous == data then Ok(()) else Err(IdempotencyConflict))
      case None => Outcome(s.(externals := s.externals + [data]), Ok(()))
  }

  function OpenAccount(s: State, currency: string): Outcome<()> {
    if currency != s.company.currency then Outcome(s, Err(InvalidInput))
    else Outcome(s.(bankAccounts := s.bankAccounts + [BankAccount(currency, false)]), Ok(()))
  }

  function ArchiveAccount(s: State, account: nat, archived: bool): Outcome<()> {
    if account >= |s.bankAccounts| then Outcome(s, Err(NotFound))
    else Outcome(s.(bankAccounts := s.bankAccounts[account := s.bankAccounts[account].(archived := archived)]), Ok(()))
  }

  function Step(s: State, call: Call): State {
    match call
    case SaveDraftCall(actor, data, id) => SaveDraft(s, actor, data, id).state
    case ValidateCall(actor, id, key, payload) => Validate(s, actor, id, ManualKey(key), payload).state
    case PayCall(actor, id, key, data) => RecordPayment(s, actor, id, ManualKey(key), data).state
    case DuplicateCall(actor, id, key, data) => Duplicate(s, actor, id, ManualKey(key), data).state
    case ConfigureCall(actor, data) => Configure(s, actor, data).state
    case PeriodCall(actor, data, id) => SetPeriod(s, actor, data, id).state
    case ImportCall(actor, account, csv, confirm, digest) => Import(s, actor, account, csv, confirm, digest).state
    case ReconcileCall(actor, row, invoice) => Reconcile(s, actor, row, invoice).state
    case BootstrapCall => Bootstrap(s)
    case ProductCall(product, id) => s.(products := Put(s.products, id, product))
    case CustomerCall(customer, id) => s.(customers := Put(s.customers, id, customer))
    case OpenAccountCall(currency) => OpenAccount(s, currency).state
    case ArchiveAccountCall(account, archived) => ArchiveAccount(s, account, archived).state
    case ReceiveCall(data) => Receive(s, data).state
  }

  function Run(s: State, calls: seq<Call>): State {
    if calls == [] then s else Step(Run(s, calls[..|calls| - 1]), calls[|calls| - 1])
  }

  /** `s` is reached from some empty company by some requests. */
  ghost predicate Reachable(s: State) {
    exists start, calls :: Empty(start) && CompanyOk(start.company) && s == Run(start, calls)
  }

  // ---- each service keeps the invariant ----

  ghost predicate SameBank(s: State, t: State) {
    t.bankAccounts == s.bankAccounts && t.bankRows == s.bankRows && t.externals == s.externals
  }

  /** What a step on documents does: it keeps the ledger and leaves the bank tables alone. */
  ghost predicate Moves(s: State, t: State) {
    LedgerOk(t) && Extends(s, t) && SameBank(s, t) && t.company == s.company && t.periods == s.periods
  }

  lemma MovesTransitive(s: State, t: State, u: State)
    requires Moves(s, t) && Moves(t, u)
    ensures Moves(s, u)
  {
    hide LedgerOk;
    ExtendsTransitive(s, t, u);
  }

  lemma Stays(s: State)
    requires LedgerOk(s)
    ensures Moves(s, s)
  {
    hide LedgerOk;
  }

  lemma SaveDraftMoves(s: State, actor: Actor, data: DraftData, id: Option<nat>)
    requires LedgerOk(s)
    ensures Moves(s, SaveDraft(s, actor, data, id).state)
    ensures SaveDraft(s, actor, data, id).answer.Ok? ==>
              var t, n := SaveDraft(s, actor, data, id).state, SaveDraft(s, actor, data, id).answer.value;
              n < |t.invoices| && DraftOk(t.invoices[n]) && LinesPriced(t.invoices[n].lines, t.company.precision)
              && t == PutDraft(s, id, t.invoices[n])
  {
    hide Drafted, LedgerOk, DocumentOk, Extends, LinesPriced, SealedOk;
    Stays(s);
    if SaveDraft(s, actor, data, id).answer.Ok? {
      var base := if id.Some? then Some(s.invoices[id.value]) else None;
      InvoicesDocuments(s);
      DraftedOk(s, data, base);
      PutDraftKeeps(s, id, Drafted(s, data, base).value);
    }
  }

  lemma InvoicesDocuments(s: State)
    requires LedgerOk(s)
    ensures forall i :: 0 <= i < |s.invoices| ==> InvoiceOk(s, s.invoices[i])
  {
    hide ControlOk, EntriesOk, EntriesComplete, NumbersOk, PaymentsOk, NoOverpayment;
  }

  lemma RememberMoves(s: State, key: Key, invoice: nat, mark: Fingerprint)
    requires LedgerOk(s) && key !in s.records && KeyOk(Some(key)) && invoice < |s.invoices|
    ensures Moves(s, Remember(s, key, invoice, mark))
  {
    hide ControlOk, EntriesOk, EntriesComplete, NumbersOk, PaymentsOk, NoOverpayment, InvoiceOk, CompanyOk, PeriodsOk;
    var t := Remember(s, key, invoice, mark);
    forall i | 0 <= i < |t.invoices| ensures InvoiceOk(t, t.invoices[i]) {
      SameInvoiceOk(s, t, s.invoices[i]);
    }
    SameLedger(s, t);
  }

  lemma SameInvoiceOk(s: State, t: State, inv: Invoice)
    requires InvoiceOk(s, inv) && t.company == s.company && |t.customers| >= |s.customers|
             && |t.products| >= |s.products|
    ensures InvoiceOk(t, inv)
  {
  }

  /** The tables other than records and catalogue decide these parts of the invariant. */
  lemma SameLedger(s: State, t: State)
    requires t.invoices == s.invoices && t.payments == s.payments && t.entries == s.entries && t.periods == s.periods
    requires t.company.precision == s.company.precision && s.accounts <= t.accounts && s.journals <= t.journals
    requires EntriesOk(s) && EntriesComplete(s) && ControlOk(s) && PaymentsOk(s) && NoOverpayment(s)
    ensures EntriesOk(t) && EntriesComplete(t) && ControlOk(t) && PaymentsOk(t) && NoOverpayment(t)
  {
    hide Balance, Documents, Paid;
    forall k | 0 <= k < |t.entries| ensures EntryOk(t, t.entries[k]) {
      assert EntryOk(s, s.entries[k]);
    }
    forall k | 0 <= k < |t.payments| ensures PaymentOk(t, t.payments[k]) {
      assert PaymentOk(s, s.payments[k]);
    }
  }

  lemma SealDraftMoves(s: State, id: nat)
    requires LedgerOk(s) && id < |s.invoices| && DraftOk(s.invoices[id])
             && LinesPriced(s.invoices[id].lines, s.company.precision)
    ensures SealDraft(s, id).Ok? ==>
              Moves(s, SealDraft(s, id).value) && id < |SealDraft(s, id).value.invoices|
              && SealDraft(s, id).value.records == s.records && SealDraft(s, id).value.payments == s.payments
  {
    hide LedgerOk, Extends, DraftOk, LinesPriced, Posting, CheckPeriod, Sealed;
    if SealDraft(s, id).Ok? {
      var period := CheckPeriod(s, s.invoices[id].issue).value;
      var lines := Posting(s, SalesJournal, InvoiceValues(s.invoices[id])).value;
      SealKeeps(s, id, period, lines);
    }
  }

  lemma ValidateMoves(s: State, actor: Actor, id: nat, key: Option<Key>, payload: Option<Payload>)
    requires LedgerOk(s)
    ensures Moves(s, Validate(s, actor, id, key, payload).state)
  {
    hide LedgerOk, Extends, SaveDraft, SealDraft;
    Stays(s);
    if Validate(s, actor, id, key, payload).state != s {
      SaveDraftMoves(s, actor, NO_CHANGES, Some(id));
      SavedDraft(s, actor, id);
      var saved := SaveDraft(s, actor, NO_CHANGES, Some(id)).state;
      SealDraftMoves(saved, id);
      var sealed := SealDraft(saved, id).value;
      RememberMoves(sealed, key.value, id, Fingerprint(ValidateAction, id, payload.value));
      MovesTransitive(s, saved, sealed);
      MovesTransitive(s, sealed, Remember(sealed, key.value, id, Fingerprint(ValidateAction, id, payload.value)));
    }
  }

  /** Saving a draft over row `id` answers `id` and touches no other table. */
  lemma SavedDraft(s: State, actor: Actor, id: nat)
    requires SaveDraft(s, actor, NO_CHANGES, Some(id)).answer.Ok?
    ensures var saved := SaveDraft(s, actor, NO_CHANGES, Some(id));
            saved.answer.value == id && saved.state.records == s.records && id < |s.invoices|
            && saved.state == PutDraft(s, Some(id), saved.state.invoices[id])
  {
    hide Drafted;
  }

  lemma PaymentRequestOk(s: State, id: nat, data: PaymentData)
    requires LedgerOk(s) && id < |s.invoices| && s.invoices[id].status == Validated
    requires data.PaymentData? && PaymentRequest(s.invoices[id], data).Ok?
    ensures PaymentOk(s, PaymentRequest(s.invoices[id], data).value.(invoice := id))
  {
    InvoicesDocuments(s);
    RequestOk(s.invoices[id], data);
  }

  lemma RequestOk(inv: Invoice, data: PaymentData)
    requires data.PaymentData? && PaymentRequest(inv, data).Ok?
    ensures var p := PaymentRequest(inv, data).value;
            p.amount > 0 && Exact(p.amount, PlacesOf(inv)) && Leq(inv.issue, p.date) && |p.reference| <= 200
            && p.amount <= MAX_AMOUNT
  {
    var places := PlacesOf(inv);
    var n := Parse(DEFAULT_DIGITS, data.amount, places, 0, MAX_AMOUNT, true).value;
    Powers();
    ParseIff(DEFAULT_DIGITS, data.amount, places, 0, MAX_AMOUNT, true, n);
    MultipleOf(n, Quantum(places));
    MultipleGrows(n, Quantum(places));
  }

  /** What a payment that was not a replay did. */
  ghost predicate Paying(s: State, t: State, p: Payment, key: Key, mark: Fingerprint) {
    p.invoice < |s.invoices|
    && exists period, lines :: Payable(s, p, period, lines)
         && t == Remember(Settle(s, p, s.invoices[p.invoice].number, period, lines), key, p.invoice, mark)
  }

  lemma RecordPaymentCases(s: State, actor: Actor, id: nat, key: Option<Key>, data: PaymentData)
    requires LedgerOk(s)
    ensures var t := RecordPayment(s, actor, id, key, data);
            t.state == s
            || (t.answer.Ok? && data.PaymentData? && KeyOk(key) && key.value !in s.records && id < |s.invoices|
                && s.invoices[id].status == Validated && PaymentRequest(s.invoices[id], data).Ok?
                && var p := PaymentRequest(s.invoices[id], data).value.(invoice := id);
                Paying(s, t.state, p, key.value, PaymentMark(id, s.invoices[id], p)))
    ensures var t := RecordPayment(s, actor, id, key, data);
            t.answer.Ok? && (key.None? || key.value !in s.records) ==> |t.state.payments| == |s.payments| + 1
  {
    hide LedgerOk, PaymentRequest, CheckPeriod, Posting, PaymentMark, PaymentOk;
    var t := RecordPayment(s, actor, id, key, data);
    if t.state != s {
      PaymentRequestOk(s, id, data);
      var p := PaymentRequest(s.invoices[id], data).value.(invoice := id);
      var period := CheckPeriod(s, p.date).value;
      var lines := Posting(s, BankJournal, PaymentValues(p.amount)).value;
      assert Payable(s, p, period, lines);
    }
  }

  lemma PayingMoves(s: State, t: State, p: Payment, key: Key, mark: Fingerprint)
    requires LedgerOk(s) && Paying(s, t, p, key, mark) && KeyOk(Some(key)) && key !in s.records
    ensures Moves(s, t) && t.payments == s.payments + [p] && t.invoices == s.invoices
    ensures t.records == s.records[key := Record(p.invoice, mark)]
  {
    hide LedgerOk, Extends, Payable;
    var period, lines :| Payable(s, p, period, lines)
      && t == Remember(Settle(s, p, s.invoices[p.invoice].number, period, lines), key, p.invoice, mark);
    var u := Settle(s, p, s.invoices[p.invoice].number, period, lines);
    SettleKeeps(s, p, period, lines);
    RememberMoves(u, key, p.invoice, mark);
    MovesTransitive(s, u, t);
  }

  lemma RecordPaymentMoves(s: State, actor: Actor, id: nat, key: Option<Key>, data: PaymentData)
    requires LedgerOk(s)
    ensures Moves(s, RecordPayment(s, actor, id, key, data).state)
  {
    hide LedgerOk, Moves, RecordPayment, PaymentRequest, Paying, PaymentMark;
    var t := RecordPayment(s, actor, id, key, data).state;
    RecordPaymentCases(s, actor, id, key, data);
    if t == s {
      Stays(s);
    } else {
      var p := PaymentRequest(s.invoices[id], data).value.(invoice := id);
      PayingMoves(s, t, p, key.value, PaymentMark(id, s.invoices[id], p));
    }
  }

  lemma DuplicateMoves(s: State, actor: Actor, id: nat, key: Option<Key>, data: DatesData)
    requires LedgerOk(s)
    ensures Moves(s, Duplicate(s, actor, id, key, data).state)
  {
    hide LedgerOk, Extends, SaveDraft, CopyOf;
    Stays(s);
    if Duplicate(s, actor, id, key, data).state != s {
      var copy := CopyOf(s.invoices[id], data.issue.value, data.due.value);
      var saved := SaveDraft(s, actor, copy, None);
      SaveDraftMoves(s, actor, copy, None);
      var mark := Fingerprint(DuplicateAction, id, DatesPayload(data.issue.value, data.due.value));
      RememberMoves(saved.state, key.value, saved.answer.value, mark);
      MovesTransitive(s, saved.state, Remember(saved.state, key.value, saved.answer.value, mark));
    }
  }
}
