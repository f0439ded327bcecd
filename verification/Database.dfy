/** The services as they run: transactions over the company's tables, one write at a time. */
module Database {
  // Each write is submitted to the database's rules and each transaction to the deferred ones. A refused write would
  // abort the service; the contracts say that every service answers exactly as its specification, so no write and no
  // commit is ever refused.

  import opened Basics
  import opened Pricing
  import opened Numbering
  import opened Books
  import opened Services
  import opened Banking
  import opened Invariants
  import opened Preservation
  import opened Runs
  import opened BankProofs
  import opened Reachability
  import opened Guards
  import opened GuardProofs
  import opened Refinement

  class Tables {
    var company: Company
    var products: seq<Product>
    var customers: seq<Customer>
    var invoices: seq<Invoice>
    var payments: seq<Payment>
    var entries: seq<Entry>
    var periods: seq<Period>
    var counters: map<nat, nat>
    var records: map<Key, Record>
    var accounts: set<Kind>
    var journals: set<Journal>
    var bankAccounts: seq<BankAccount>
    var bankRows: seq<BankTransaction>
    var externals: seq<External>
    /** Entries that existed when the current transaction began, and what it has written since. */
    var committed: nat
    var touched: Touched

    function Rows(): State
      reads this
    {
      State(company, products, customers, invoices, payments, entries, periods, counters, records,
            accounts, journals, bankAccounts, bankRows, externals)
    }

    constructor (start: State)
      ensures Rows() == start
    {
      company, products, customers, invoices := start.company, start.products, start.customers, start.invoices;
      payments, entries, periods, counters := start.payments, start.entries, start.periods, start.counters;
      records, accounts, journals := start.records, start.accounts, start.journals;
      bankAccounts, bankRows, externals := start.bankAccounts, start.bankRows, start.externals;
      committed, touched := |start.entries|, Touched({}, {}, {});
    }

    /** Opens a transaction and remembers the rows for a rollback. */
    method Begin() returns (saved: State)
      modifies this`committed, this`touched
      ensures saved == Rows() && committed == |entries|
    {
      committed, touched := |entries|, Touched({}, {}, {});
      saved := Rows();
    }

    method Rollback(saved: State)
      modifies this
      ensures Rows() == saved
    {
      RestoreReferences(saved);
      RestoreLedger(saved);
    }

    method RestoreReferences(saved: State)
      modifies this`company, this`products, this`customers, this`accounts, this`journals, this`bankAccounts,
          this`externals
      ensures company == saved.company && products == saved.products && customers == saved.customers
      ensures accounts == saved.accounts && journals == saved.journals
      ensures bankAccounts == saved.bankAccounts && externals == saved.externals
    {
      company, products, customers := saved.company, saved.products, saved.customers;
      accounts, journals := saved.accounts, saved.journals;
      bankAccounts, externals := saved.bankAccounts, saved.externals;
    }

    method RestoreLedger(saved: State)
      modifies this`invoices, this`payments, this`entries, this`periods, this`counters, this`records, this`bankRows
      ensures invoices == saved.invoices && payments == saved.payments && entries == saved.entries
              && periods == saved.periods
      ensures counters == saved.counters && records == saved.records && bankRows == saved.bankRows
    {
      invoices, payments, entries, periods := saved.invoices, saved.payments, saved.entries, saved.periods;
      counters, records, bankRows := saved.counters, saved.records, saved.bankRows;
    }

    /** Ends a transaction: a refused write, or a deferred trigger that refuses, undoes all of it. */
    method Finish(saved: State, written: bool) returns (ok: bool)
      modifies this
      ensures ok == (written && CommitAccepts(old(Rows()), old(touched)))
      ensures Rows() == if ok then old(Rows()) else saved
    {
      hide CommitAccepts;
      ok := written && CommitAccepts(Rows(), touched);
      if !ok {
        Rollback(saved);
      }
    }

    /** One write: refused, or applied to its table. */
    method Submit(w: Write) returns (ok: bool)
      modifies this
      ensures ok == Accepts(old(Rows()), old(committed), w)
      ensures Rows() == if ok then Written(old(Rows()), w) else old(Rows())
      ensures committed == old(committed)
    {
      hide Accepts, Written;
      ok := Accepts(Rows(), committed, w);
      if ok {
        touched := Touch(touched, Rows(), w);
        if OnDocuments(w) {
          WriteDocuments(w);
        } else if OnPostings(w) {
          WritePostings(w);
        } else {
          WriteSettings(w);
        }
      }
    }

    static predicate OnDocuments(w: Write) {
      w.InsertInvoice? || w.UpdateInvoice? || w.DeleteLines? || w.InsertLines? || w.PutCounter?
    }

    static predicate OnPostings(w: Write) {
      w.InsertPayment? || w.InsertEntry? || w.InsertEntryLines? || w.InsertRecord?
    }

    method WriteDocuments(w: Write)
      requires OnDocuments(w) && Accepts(Rows(), committed, w)
      modifies this`invoices, this`counters
      ensures Rows() == Written(old(Rows()), w)
    {
      hide InvoiceGuard, InvoiceConstraints, LineGuard, LineConstraints;
      match w {
        case InsertInvoice(inv) => invoices := invoices + [inv];
        case UpdateInvoice(id, inv) => invoices := invoices[id := inv];
        case DeleteLines(id) => invoices := invoices[id := invoices[id].(lines := [])];
        case InsertLines(id, lines) => invoices := invoices[id := invoices[id].(lines := invoices[id].lines + lines)];
        case PutCounter(year, next) => counters := counters[year := next];
      }
    }

    method WritePostings(w: Write)
      requires OnPostings(w) && Accepts(Rows(), committed, w)
      modifies this`payments, this`entries, this`records
      ensures Rows() == Written(old(Rows()), w)
    {
      hide PaymentGuard, EntryGuard, EntryLineGuard;
      match w {
        case InsertPayment(p) => payments := payments + [p];
        case InsertEntry(e) => entries := entries + [e];
        case InsertEntryLines(id, lines) => entries := entries[id := entries[id].(lines := entries[id].lines + lines)];
        case InsertRecord(key, r) => records := records[key := r];
      }
    }

    method WriteSettings(w: Write)
      requires !OnDocuments(w) && !OnPostings(w) && Accepts(Rows(), committed, w)
      modifies this`periods, this`company, this`bankRows
      ensures Rows() == Written(old(Rows()), w)
    {
      hide PeriodGuard, CompanyGuard, BankInsertGuard, BankUpdateGuard, Unmatched;
      match w {
        case InsertPeriod(p) => periods := periods + [p];
        case UpdatePeriod(id, p) => periods := periods[id := p];
        case UpdateCompany(c) => company := c;
        case InsertBankRows(account, rows) => bankRows := bankRows + Unmatched(account, rows);
        case UpdateBankRow(id, item) => bankRows := bankRows[id := item];
      }
    }

    // ---- drafts ----

    /** The body of `save_draft`, inside the caller's transaction. */
    method WriteDraft(actor: Actor, data: DraftData, id: Option<nat>) returns (r: Result<nat>)
      requires LedgerOk(Rows())
      modifies this
      ensures Outcome(Rows(), r) == SaveDraft(old(Rows()), actor, data, id)
      ensures committed == old(committed)
    {
      hide LedgerOk, Drafted, Accepts, DocumentOk, DraftOk, Calculated;
      if !Allowed(actor, EDITORS) {
        return Err(PermissionDenied);
      }
      if data.NotADraft? {
        return Err(InvalidInput);
      }
      if id.Some? && id.value >= |invoices| {
        return Err(NotFound);
      }
      if id.Some? && invoices[id.value].status != Draft {
        return Err(Immutable);
      }
      var base := if id.Some? then Some(invoices[id.value]) else None;
      var built := BuildDraft(data, base);
      if built.Err? {
        return Err(built.error);
      }
      var draft := built.value;
      ghost var s := Rows();
      InvoicesDocuments(s);
      DraftedOk(s, data, base);
      DraftAccepted(s, id, draft);
      DraftAges(s, id, draft, committed);
      DraftRows(s, id, draft);
      var n: nat := if id.Some? then id.value else |invoices|;
      var ok: bool;
      if id.Some? {
        ok := Submit(UpdateInvoice(id.value, draft.(lines := invoices[id.value].lines)));
      } else {
        ok := Submit(InsertInvoice(draft.(lines := [])));
      }
      if ok {
        ok := Submit(DeleteLines(n));
      }
      if ok {
        ok := Submit(InsertLines(n, draft.lines));
      }
      return if ok then Ok(n) else Err(DatabaseRejected);
    }

    /** The fields of the draft, in the order the service reads them, with the loop over the lines. */
    method BuildDraft(data: DraftData, base: Option<Invoice>) returns (r: Result<Invoice>)
      requires data.DraftData?
      ensures r == Drafted(Rows(), data, base)
    {
      hide TextsFrom, Calculated, Denote, SourceLines, Leq, TextsOf;
      var customer := CustomerRef(customers, data.customer, base);
      if customer.Err? {
        return Err(customer.error);
      }
      var issue := DateOr(data.issue, if base.Some? then Some(base.value.issue) else None);
      if issue.Err? {
        return Err(issue.error);
      }
      var due := DateOr(data.due, if base.Some? then Some(base.value.due) else None);
      if due.Err? {
        return Err(due.error);
      }
      if !Leq(issue.value, due.value) || data.language.Bad? {
        return Err(InvalidInput);
      }
      var language := if data.language.Given? then data.language.value
                      else if base.Some? then base.value.language else company.language;
      if language !in LANGUAGES {
        return Err(InvalidInput);
      }
      var texts := TextsFrom(data.texts, TextsOf(base));
      if texts.Err? {
        return Err(texts.error);
      }
      var items := SourceLines(data.lines, base);
      if items.Err? {
        return Err(items.error);
      }
      var lines, nets, taxes := Calculate(ArchivedFlags(products), company.precision, items.value);
      if lines.Err? {
        return Err(lines.error);
      }
      var net, tax, total := AddUp(lines.value, nets, taxes);
      return Ok(Invoice(customer.value, issue.value, due.value, language, texts.value, lines.value,
                        net, tax, total, Draft, "", None, "", None));
    }

    method StoreDraft(actor: Actor, data: DraftData, id: Option<nat>) returns (r: Result<nat>)
      requires Inv(Rows())
      modifies this
      ensures Outcome(Rows(), r) == SaveDraft(old(Rows()), actor, data, id)
      ensures r != Err(DatabaseRejected)
    {
      hide LedgerOk, BankOk, SaveDraft, CommitAccepts;
      SaveDraftNeverRejected(Rows(), actor, data, id);
      var saved := Begin();
      SaveDraftMoves(Rows(), actor, data, id);
      SaveDraftErrors(Rows(), actor, data, id);
      r := WriteDraft(actor, data, id);
      CommitAccepted(Rows(), touched);
      var ok := Finish(saved, true);
      if !ok {
        r := Err(DatabaseRejected);
      }
    }

    // ---- postings ----

    /** `_entry`: the entry and its lines, in a period that is open. */
    method PostEntry(invoice: nat, payment: Option<nat>, date: Date, reference: string, journal: Journal,
                     kind: EntryKind,
                     values: seq<EntryLine>) returns (r: Result<()>)
      requires committed <= |entries| && OneSided(NonZero(values))
      requires forall period :: CheckPeriod(Rows(), date) == Ok(period) && journal in journals ==>
                 Accepts(Rows(), 0, InsertEntry(Entry(invoice, payment, date, reference, journal, period, kind, [])))
      modifies this
      ensures committed == old(committed)
      ensures match CheckPeriod(old(Rows()), date)
              case Err(e) => r == Err(e)
              case Ok(period) =>
                match Posting(old(Rows()), journal, values)
                case Err(e) => r == Err(e)
                case Ok(lines) =>
                  r == Ok(()) && Rows() == old(Rows()).(entries := old(entries)
                    + [Entry(invoice, payment, date, reference, journal, period, kind, lines)])
    {
      hide CheckPeriod, EntryGuard, NonZero, OneSided, EntryLineGuard;
      var period := CheckPeriod(Rows(), date);
      if period.Err? {
        return Err(period.error);
      }
      var lines := Posting(Rows(), journal, values);
      if lines.Err? {
        return Err(lines.error);
      }
      var e := Entry(invoice, payment, date, reference, journal, period.value, kind, []);
      AgeMatters(Rows(), 0, committed, InsertEntry(e));
      var ok := Submit(InsertEntry(e));
      EntryLinesAccepted(Rows(), committed, |entries| - 1, lines.value);
      EntryRows(old(Rows()), e, lines.value);
      if ok {
        ok := Submit(InsertEntryLines(|entries| - 1, lines.value));
      }
      return if ok then Ok(()) else Err(DatabaseRejected);
    }

    // ---- validation ----

    method ValidateInvoice(actor: Actor, id: nat, key: Option<Key>, payload: Option<Payload>) returns (r: Result<nat>)
      requires Inv(Rows())
      modifies this
      ensures Outcome(Rows(), r) == Validate(old(Rows()), actor, id, key, payload)
      ensures r != Err(DatabaseRejected)
    {
      hide LedgerOk, BankOk, SaveDraft, SealDraft, CommitAccepts, Strip, Accepts;
      ValidateNeverRejected(Rows(), actor, id, key, payload);
      if !Allowed(actor, FINANCE) {
        return Err(PermissionDenied);
      }
      if id >= |invoices| {
        return Err(NotFound);
      }
      if payload.None? {
        return Err(InvalidInput);
      }
      var mark := Fingerprint(ValidateAction, id, payload.value);
      var previous := Replayed(Rows(), key, mark);
      if previous.Err? {
        return Err(previous.error);
      }
      if previous.value {
        return Ok(id);
      }
      if payload.value != EmptyPayload {
        return Err(InvalidInput);
      }
      if invoices[id].status != Draft {
        return Err(AlreadyValidated);
      }
      ghost var s := Rows();
      var saved := Begin();
      SaveDraftMoves(s, actor, NO_CHANGES, Some(id));
      var draft := WriteDraft(actor, NO_CHANGES, Some(id));
      if draft.Err? {
        Rollback(saved);
        return Err(draft.error);
      }
      SavedDraft(s, actor, id);
      SealDraftMoves(Rows(), id);
      ghost var u := Rows();
      var sealed := WriteSeal(id);
      if sealed.Err? {
        Rollback(saved);
        return Err(sealed.error);
      }
      SealDraftSeals(u, id);
      RememberMoves(Rows(), key.value, id, mark);
      RecordAccepted(Rows(), committed, key.value, Record(id, mark));
      var ok := Submit(InsertRecord(key.value, Record(id, mark)));
      CommitAccepted(Rows(), touched);
      ok := Finish(saved, ok);
      return if ok then Ok(id) else Err(DatabaseRejected);
    }

    /** Numbering, sealing and posting of a draft that has just been recalculated. */
    method WriteSeal(id: nat) returns (r: Result<()>)
      requires LedgerOk(Rows()) && id < |invoices| && DraftOk(invoices[id]) && committed <= |entries|
      modifies this
      ensures committed == old(committed)
      ensures match SealDraft(old(Rows()), id)
              case Err(e) => r == Err(e)
              case Ok(t) => r == Ok(()) && Rows() == t
    {
      hide LedgerOk, CheckPeriod, Posting, Accepts, SnapshotOf, NumberText, NonZero, InvoiceValues, OneSided;
      var inv := invoices[id];
      if inv.total <= 0 {
        return Err(InvalidAmount);
      }
      var period := CheckPeriod(Rows(), inv.issue);
      if period.Err? {
        return Err(period.error);
      }
      ghost var s := Rows();
      var year := inv.issue.year;
      var ok := true;
      CounterAccepted(Rows(), committed, year, 1);
      if year !in counters {
        ok := Submit(PutCounter(year, 1));
      }
      var next := counters[year];
      CounterAccepted(Rows(), committed, year, next + 1);
      ok := Submit(PutCounter(year, next + 1));
      assert next == Counter(s.counters, year);
      SealAccepted(s, id, counters);
      var numbered := inv.(status := Validated, number := NumberText(year, next),
                           precision := Some(company.precision), currency := company.currency);
      var full := numbered.(snapshot := Some(SnapshotOf(company, PartyOf(customers, inv.customer), products,
                                                        numbered)));
      assert Rows() == s.(counters := counters) && full == Sealed(s, inv);
      AgeMatters(Rows(), 0, committed, UpdateInvoice(id, full));
      ok := Submit(UpdateInvoice(id, full));
      if !ok {
        return Err(DatabaseRejected);
      }
      WrittenSeal(s, id, Rows());
      r := PostEntry(id, None, full.issue, full.number, SalesJournal, InvoiceEntry, InvoiceValues(full));
    }

    // ---- payments ----

    /** The body of `record_payment`, inside the caller's transaction. */
    method WritePayment(actor: Actor, id: nat, key: Option<Key>, data: PaymentData) returns (r: Result<nat>)
      requires LedgerOk(Rows()) && committed <= |entries|
      modifies this
      ensures match r
              case Err(e) => RecordPayment(old(Rows()), actor, id, key, data).answer == Err(e)
              case Ok(n) => Outcome(Rows(), r) == RecordPayment(old(Rows()), actor, id, key, data)
      ensures committed == old(committed)
    {
      hide LedgerOk, PaymentRequest, CheckPeriod, Posting, Strip, Accepts, Paid, PaymentMark, PaymentValues,
        OneSided, NonZero;
      if !Allowed(actor, FINANCE) {
        return Err(PermissionDenied);
      }
      if data.NotAPayment? {
        return Err(InvalidInput);
      }
      if id >= |invoices| {
        return Err(NotFound);
      }
      if invoices[id].status != Validated {
        return Err(InvalidInput);
      }
      var inv := invoices[id];
      var request := PaymentRequest(inv, data);
      if request.Err? {
        return Err(request.error);
      }
      var p := request.value.(invoice := id);
      var mark := PaymentMark(id, inv, p);
      var previous := Replayed(Rows(), key, mark);
      if previous.Err? {
        return Err(previous.error);
      }
      if previous.value {
        return Ok(id);
      }
      if p.amount > inv.total - Paid(payments, id) {
        return Err(Overpayment);
      }
      ghost var s := Rows();
      var period := CheckPeriod(Rows(), p.date);
      if period.Err? {
        return Err(period.error);
      }
      PaymentRequestOk(s, id, data);
      PaymentAccepted(s, p);
      AgeMatters(s, 0, committed, InsertPayment(p));
      var ok := Submit(InsertPayment(p));
      if !ok {
        return Err(DatabaseRejected);
      }
      WrittenPayment(s, p, inv.number, Rows());
      var posted := PostEntry(id, Some(|payments| - 1), p.date, inv.number, BankJournal, PaymentEntry,
                              PaymentValues(p.amount));
      if posted.Err? {
        return Err(posted.error);
      }
      RecordAccepted(Rows(), committed, key.value, Record(id, mark));
      ok := Submit(InsertRecord(key.value, Record(id, mark)));
      return if ok then Ok(id) else Err(DatabaseRejected);
    }

    method PayInvoice(actor: Actor, id: nat, key: Option<Key>, data: PaymentData) returns (r: Result<nat>)
      requires Inv(Rows())
      modifies this
      ensures Outcome(Rows(), r) == RecordPayment(old(Rows()), actor, id, key, data)
      ensures r != Err(DatabaseRejected)
    {
      hide LedgerOk, BankOk, RecordPayment, CommitAccepts;
      var saved := Begin();
      RecordPaymentMoves(saved, actor, id, key, data);
      RecordPaymentErrors(saved, actor, id, key, data);
      r := WritePayment(actor, id, key, data);
      if r.Err? {
        Rollback(saved);
        return;
      }
      CommitAccepted(Rows(), touched);
      var ok := Finish(saved, true);
      if !ok {
        r := Err(DatabaseRejected);
      }
    }

    // ---- duplication ----

    method DuplicateInvoice(actor: Actor, id: nat, key: Option<Key>, data: DatesData) returns (r: Result<nat>)
      requires Inv(Rows())
      modifies this
      ensures Outcome(Rows(), r) == Duplicate(old(Rows()), actor, id, key, data)
      ensures r != Err(DatabaseRejected)
    {
      hide LedgerOk, BankOk, SaveDraft, CopyOf, CommitAccepts, Strip, Accepts;
      DuplicateNeverRejected(Rows(), actor, id, key, data);
      if !Allowed(actor, EDITORS) {
        return Err(PermissionDenied);
      }
      if data.NotDates? || data.issue.Absent? || data.due.Absent? {
        return Err(InvalidInput);
      }
      if id >= |invoices| {
        return Err(NotFound);
      }
      if data.issue.Bad? || data.due.Bad? {
        return Err(InvalidInput);
      }
      var mark := Fingerprint(DuplicateAction, id, DatesPayload(data.issue.value, data.due.value));
      var previous := Replayed(Rows(), key, mark);
      if previous.Err? {
        return Err(previous.error);
      }
      if previous.value {
        return Ok(records[key.value].invoice);
      }
      var saved := Begin();
      var copy := CopyOf(invoices[id], data.issue.value, data.due.value);
      SaveDraftMoves(saved, actor, copy, None);
      SaveDraftRecords(saved, actor, copy, None);
      var draft := WriteDraft(actor, copy, None);
      if draft.Err? {
        Rollback(saved);
        return draft;
      }
      RememberMoves(Rows(), key.value, draft.value, mark);
      RecordAccepted(Rows(), committed, key.value, Record(draft.value, mark));
      var ok := Submit(InsertRecord(key.value, Record(draft.value, mark)));
      CommitAccepted(Rows(), touched);
      ok := Finish(saved, ok);
      return if ok then draft else Err(DatabaseRejected);
    }

    // ---- configuration ----

    method SetCompany(actor: Actor, data: CompanyData) returns (r: Result<()>)
      requires Inv(Rows())
      modifies this
      ensures Outcome(Rows(), r) == Configure(old(Rows()), actor, data)
      ensures r != Err(DatabaseRejected)
    {
      hide LedgerOk, BankOk;
      ConfigureNeverRejected(Rows(), actor, data);
      if !Allowed(actor, {Admin}) {
        return Err(PermissionDenied);
      }
      if data.NotACompany? {
        return Err(InvalidInput);
      }
      var currency := if data.currency.Some? then data.currency.value else company.currency;
      var precision: int := if data.precision.Some? then data.precision.value else company.precision;
      if (currency != company.currency || precision != company.precision) && ConfigurationInUse(Rows()) {
        return Err(ConfigurationLocked);
      }
      if !CurrencyOk(currency) || !(0 <= precision <= 4) || !data.clean {
        return Err(InvalidInput);
      }
      var profile := if data.profile.Some? then data.profile.value else company.profile;
      var language := if data.language.Some? then data.language.value else company.language;
      var ok := Submit(UpdateCompany(Company(profile, currency, precision, language)));
      return if ok then Ok(()) else Err(DatabaseRejected);
    }

    method StorePeriod(actor: Actor, data: PeriodData, id: Option<nat>) returns (r: Result<nat>)
      requires Inv(Rows())
      modifies this
      ensures Outcome(Rows(), r) == SetPeriod(old(Rows()), actor, data, id)
      ensures r != Err(DatabaseRejected)
    {
      hide LedgerOk, BankOk, Strip, PeriodUsed, OverlapsAnother;
      SetPeriodNeverRejected(Rows(), actor, data, id);
      if !Allowed(actor, {Admin}) {
        return Err(PermissionDenied);
      }
      if data.NotAPeriod? {
        return Err(InvalidInput);
      }
      if id.Some? && id.value >= |periods| {
        return Err(NotFound);
      }
      var base := if id.Some? then Some(periods[id.value]) else None;
      var start := DateOr(data.start, if base.Some? then Some(base.value.start) else None);
      if start.Err? {
        return Err(start.error);
      }
      var end := DateOr(data.end, if base.Some? then Some(base.value.end) else None);
      if end.Err? {
        return Err(end.error);
      }
      if !Leq(start.value, end.value) {
        return Err(InvalidInput);
      }
      if id.Some? && PeriodUsed(entries, id.value) && (start.value != base.value.start || end.value != base.value.end) {
        return Err(Immutable);
      }
      var name := if data.name.Given? then data.name.value else if base.Some? then base.value.name else "";
      var closed := if data.closed.Given? then data.closed.value else base.Some? && base.value.closed;
      var p := Period(name, start.value, end.value, closed);
      if OverlapsAnother(periods, p, id) {
        return Err(InvalidInput);
      }
      if data.name.Bad? || data.closed.Bad? || Strip(name) == "" || |name| > 100 {
        return Err(InvalidInput);
      }
      var n: nat := if id.Some? then id.value else |periods|;
      var ok := Submit(if id.Some? then UpdatePeriod(id.value, p) else InsertPeriod(p));
      return if ok then Ok(n) else Err(DatabaseRejected);
    }

    // ---- bank ----

    method ImportStatement(actor: Actor, account: nat, csv: Option<seq<CsvRow>>, confirm: bool, digest: Option<Digest>)
      returns (r: Result<Report>)
      requires Inv(Rows())
      modifies this
      ensures Outcome(Rows(), r) == Import(old(Rows()), actor, account, csv, confirm, digest)
      ensures r != Err(DatabaseRejected)
    {
      hide LedgerOk, BankOk, ParseCsv, Compatible, NewRows, Accepts, Amounts, RowOk;
      ImportNeverRejected(Rows(), actor, account, csv, confirm, digest);
      if !Allowed(actor, FINANCE) {
        return Err(PermissionDenied);
      }
      if account >= |bankAccounts| || bankAccounts[account].archived {
        return Err(NotFound);
      }
      if bankAccounts[account].currency != company.currency {
        return Err(InvalidInput);
      }
      var rows := ReadStatement(csv);
      if rows.Err? {
        return Err(rows.error);
      }
      var seal := Digest(account, bankAccounts[account].currency, rows.value);
      if confirm && digest != Some(seal) {
        return Err(IdempotencyConflict);
      }
      if !Compatible(bankRows, account, rows.value) {
        return Err(IdempotencyConflict);
      }
      var added := NewRows(bankRows, account, rows.value);
      NewRowsShort(bankRows, account, rows.value);
      var ok := true;
      if confirm {
        StatementOk(csv);
        ImportAccepted(Rows(), account, rows.value);
        AgeMatters(Rows(), 0, committed, InsertBankRows(account, added));
        ok := Submit(InsertBankRows(account, added));
      }
      var created := if confirm then |added| else 0;
      var total := Sum(Amounts(rows.value));
      return if ok then Ok(Report(rows.value, |rows.value|, |rows.value| - |added|, created, seal, total))
             else Err(DatabaseRejected);
    }

    method ReconcileRow(actor: Actor, row: nat, invoice: nat) returns (r: Result<nat>)
      requires Inv(Rows())
      modifies this
      ensures Outcome(Rows(), r) == Reconcile(old(Rows()), actor, row, invoice)
      ensures r != Err(DatabaseRejected)
    {
      hide LedgerOk, BankOk, RecordPayment, BankPayment, CommitAccepts, Accepts, Reconciled, PaymentsAbove;
      ReconcileCreatesOnePayment(Rows(), actor, row, invoice);
      ghost var s := Rows();
      if !Allowed(actor, FINANCE) {
        return Err(PermissionDenied);
      }
      if row >= |bankRows| || invoice >= |invoices| {
        return Err(NotFound);
      }
      var item := bankRows[row];
      if item.matched.Some? {
        return if item.matched.value.invoice != invoice then Err(IdempotencyConflict) else Ok(row);
      }
      if item.account >= |bankAccounts| {
        return Err(NotFound);
      }
      var account := bankAccounts[item.account];
      if account.archived || item.row.amount <= 0 || invoices[invoice].status != Validated
         || invoices[invoice].currency != account.currency {
        return Err(InvalidInput);
      }
      ReconcileCreatesOnePayment(s, actor, row, invoice);
      ReconcileKeeps(s, actor, row, invoice);
      var saved := Begin();
      var previous := LastPayment(payments, invoice);
      var paid := WritePayment(actor, invoice, Some(BankKey(row)), BankPayment(row, item));
      if paid.Err? {
        Rollback(saved);
        return Err(paid.error);
      }
      RecordPaymentTables(s, actor, invoice, Some(BankKey(row)), BankPayment(row, item));
      var above := PaymentsAbove(payments, invoice, previous);
      ghost var t := Reconcile(s, actor, row, invoice).state;
      RowChanges(s, t, row);
      MatchAccepted(s, t, row, invoice);
      assert Rows() == t.(bankRows := s.bankRows);
      var ok := |above| == 1;
      if ok {
        var matched := item.(matched := Some(Match(invoice, above[0])));
        AgeMatters(Rows(), 0, committed, UpdateBankRow(row, matched));
        ok := Submit(UpdateBankRow(row, matched));
      }
      CommitAccepted(Rows(), touched);
      ok := Finish(saved, ok);
      return if ok then Ok(row) else Err(DatabaseRejected);
    }
  }
}
