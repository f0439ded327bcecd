/** The database's own rules: the constraints, the row triggers and the deferred triggers. */
module Guards {
  // What the row triggers ask of each row written, and the deferred ones at commit. They are stated apart from the
  // services, which must satisfy them.

  import opened Basics
  import opened Decimal
  import opened Calculation
  import opened Pricing
  import opened Books
  import opened Services
  import opened Banking

  /** A write. Invoice and entry headers are written apart from their lines. */
  datatype Write =
    | InsertInvoice(invoice: Invoice)
    | UpdateInvoice(id: nat, invoice: Invoice)
    | DeleteLines(id: nat)
    | InsertLines(id: nat, lines: seq<Line>)
    | PutCounter(year: nat, next: nat)
    | InsertPayment(payment: Payment)
    | InsertEntry(entry: Entry)
    | InsertEntryLines(id: nat, entryLines: seq<EntryLine>)
    | InsertRecord(key: Key, record: Record)
    | InsertPeriod(period: Period)
    | UpdatePeriod(id: nat, period: Period)
    | UpdateCompany(company: Company)
    | InsertBankRows(account: nat, rows: seq<BankRow>)
    | UpdateBankRow(id: nat, item: BankTransaction)

  const MONEY_LIMIT: int := 10000000000000000000000

  predicate Fits(amount: int) { -MONEY_LIMIT < amount < MONEY_LIMIT }

  // ---- constraints and row triggers ----

  predicate NumberFree(invoices: seq<Invoice>, number: string, id: Option<nat>) {
    number != "" ==> forall i :: 0 <= i < |invoices| && Some(i) != id ==> invoices[i].number != number
  }

  predicate InvoiceConstraints(s: State, inv: Invoice, id: Option<nat>) {
    && inv.net >= 0 && inv.tax >= 0 && inv.total >= 0 && Fits(inv.net) && Fits(inv.tax) && Fits(inv.total)
    && Leq(inv.issue, inv.due) && inv.total == inv.net + inv.tax
    && (inv.status == Validated ==> inv.precision.Some? && inv.number != "" && inv.currency != "")
    && NumberFree(s.invoices, inv.number, id)
  }

  predicate InvoiceGuard(s: State, before: Option<Invoice>, inv: Invoice) {
    (before.Some? ==> before.value.status != Validated) && inv.customer < |s.customers|
  }

  predicate LineConstraints(line: Line) {
    && line.quantity > 0 && line.unitPrice >= 0 && line.net >= 0 && line.tax >= 0
    && 0 <= line.taxRate <= MAX_RATE && 0 <= line.discountRate <= MAX_RATE
    && line.quantity <= MAX_QUANTITY && Fits(line.unitPrice) && Fits(line.net) && Fits(line.tax) && Fits(line.Total())
  }

  predicate LineGuard(s: State, id: nat, line: Line) {
    id < |s.invoices| && s.invoices[id].status == Draft && (line.product.Some? ==> line.product.value < |s.products|)
  }

  predicate PeriodGuard(s: State, id: Option<nat>, p: Period) {
    && ((id.Some? && id.value < |s.periods|
         && (s.periods[id.value].start != p.start || s.periods[id.value].end != p.end)) ==>
          !PeriodUsed(s.entries, id.value))
    && !OverlapsAnother(s.periods, p, id) && Leq(p.start, p.end)
  }

  predicate CompanyGuard(s: State, company: Company) {
    company.currency != s.company.currency || company.precision != s.company.precision ==>
      !AnyValidated(s.invoices) && s.bankAccounts == [] && s.externals == []
  }

  /** `round(amount, precision)` gives back the amount. */
  predicate AtPrecision(amount: int, places: Places) {
    amount == Round(HalfUp, amount, Quantum(places)) * Quantum(places)
  }

  predicate PaymentGuard(s: State, p: Payment) {
    && p.invoice < |s.invoices| && s.invoices[p.invoice].status == Validated
    && s.invoices[p.invoice].precision.Some?
    && AtPrecision(p.amount, s.invoices[p.invoice].precision.value)
    && Leq(s.invoices[p.invoice].issue, p.date)
    && p.amount + Paid(s.payments, p.invoice) <= s.invoices[p.invoice].total
    && p.amount > 0 && Fits(p.amount)
  }

  predicate EntryUnique(entries: seq<Entry>, e: Entry) {
    forall k :: 0 <= k < |entries| ==>
      (e.kind == InvoiceEntry && entries[k].kind == InvoiceEntry ==> entries[k].invoice != e.invoice)
      && (e.payment.Some? ==> entries[k].payment != e.payment)
  }

  predicate EntryGuard(s: State, e: Entry) {
    && e.period < |s.periods| && !s.periods[e.period].closed && InPeriod(s.periods[e.period], e.date)
    && e.invoice < |s.invoices| && s.invoices[e.invoice].status == Validated && e.journal in s.journals
    && (e.kind == InvoiceEntry ==> e.payment.None?)
    && (e.kind == PaymentEntry ==>
          e.payment.Some? && e.payment.value < |s.payments|
          && s.payments[e.payment.value].invoice == e.invoice && s.payments[e.payment.value].date == e.date)
    && EntryUnique(s.entries, e)
  }

  /** A line joins an entry only inside the transaction that created the entry. */
  predicate EntryLineGuard(s: State, committed: nat, id: nat, line: EntryLine) {
    && committed <= id < |s.entries| && line.account in s.accounts
    && ((line.debit > 0 && line.credit == 0) || (line.credit > 0 && line.debit == 0))
    && Fits(line.debit) && Fits(line.credit)
  }

  predicate BankInsertGuard(s: State, account: nat, rows: seq<BankRow>) {
    && account < |s.bankAccounts|
    && (forall i :: 0 <= i < |rows| ==> rows[i].amount != 0 && Fits(rows[i].amount))
    && (forall i :: 0 <= i < |rows| ==> Stored(s.bankRows, account, rows[i].externalId).None?)
    && DistinctIds(rows)
  }

  predicate BankUpdateGuard(s: State, id: nat, item: BankTransaction) {
    && id < |s.bankRows| && s.bankRows[id].matched.None? && item.matched.Some?
    && item.account == s.bankRows[id].account && item.row == s.bankRows[id].row
    && (forall i :: 0 <= i < |s.bankRows| && s.bankRows[i].matched.Some? ==>
          s.bankRows[i].matched.value.payment != item.matched.value.payment)
    && item.matched.value.payment < |s.payments| && item.matched.value.invoice < |s.invoices|
    && item.account < |s.bankAccounts|
    && var p := s.payments[item.matched.value.payment];
    var inv := s.invoices[item.matched.value.invoice];
    p.invoice == item.matched.value.invoice && p.amount == item.row.amount && p.date == item.row.date
    && inv.status == Validated && inv.currency == s.bankAccounts[item.account].currency
    && !s.bankAccounts[item.account].archived
  }

  /** Whether the database accepts a write, `committed` entries being older than the transaction. */
  predicate Accepts(s: State, committed: nat, w: Write) {
    match w
    case InsertInvoice(inv) => inv.lines == [] && InvoiceGuard(s, None, inv) && InvoiceConstraints(s, inv, None)
    case UpdateInvoice(id, inv) =>
      id < |s.invoices| && inv.lines == s.invoices[id].lines
      && InvoiceGuard(s, Some(s.invoices[id]), inv) && InvoiceConstraints(s, inv, Some(id))
    case DeleteLines(id) => id < |s.invoices| && s.invoices[id].status != Validated
    case InsertLines(id, lines) =>
      id < |s.invoices| && forall i :: 0 <= i < |lines| ==> LineGuard(s, id, lines[i]) && LineConstraints(lines[i])
    case PutCounter(year, next) => true
    case InsertPayment(p) => PaymentGuard(s, p)
    case InsertEntry(e) => e.lines == [] && EntryGuard(s, e)
    case InsertEntryLines(id, lines) =>
      id < |s.entries| && forall i :: 0 <= i < |lines| ==> EntryLineGuard(s, committed, id, lines[i])
    case InsertRecord(key, r) => key !in s.records && r.invoice < |s.invoices|
    case InsertPeriod(p) => PeriodGuard(s, None, p)
    case UpdatePeriod(id, p) => id < |s.periods| && PeriodGuard(s, Some(id), p)
    case UpdateCompany(company) => CompanyGuard(s, company)
    case InsertBankRows(account, rows) => BankInsertGuard(s, account, rows)
    case UpdateBankRow(id, item) => id < |s.bankRows| && BankUpdateGuard(s, id, item)
  }

  /** The rows after an accepted write. */
  function Written(s: State, w: Write): State {
    match w
    case InsertInvoice(inv) => s.(invoices := s.invoices + [inv])
    case UpdateInvoice(id, inv) => if id < |s.invoices| then s.(invoices := s.invoices[id := inv]) else s
    case DeleteLines(id) =>
      if id < |s.invoices| then s.(invoices := s.invoices[id := s.invoices[id].(lines := [])]) else s
    case InsertLines(id, lines) =>
      if id < |s.invoices|
      then s.(invoices := s.invoices[id := s.invoices[id].(lines := s.invoices[id].lines + lines)]) else s
    case PutCounter(year, next) => s.(counters := s.counters[year := next])
    case InsertPayment(p) => s.(payments := s.payments + [p])
    case InsertEntry(e) => s.(entries := s.entries + [e])
    case InsertEntryLines(id, lines) =>
      if id < |s.entries|
      then s.(entries := s.entries[id := s.entries[id].(lines := s.entries[id].lines + lines)]) else s
    case InsertRecord(key, r) => s.(records := s.records[key := r])
    case InsertPeriod(p) => s.(periods := s.periods + [p])
    case UpdatePeriod(id, p) => if id < |s.periods| then s.(periods := s.periods[id := p]) else s
    case UpdateCompany(company) => s.(company := company)
    case InsertBankRows(account, rows) => s.(bankRows := s.bankRows + Unmatched(account, rows))
    case UpdateBankRow(id, item) => if id < |s.bankRows| then s.(bankRows := s.bankRows[id := item]) else s
  }

  // ---- deferred triggers ----

  predicate HasEntry(entries: seq<Entry>, kind: EntryKind, invoice: nat) {
    exists k :: 0 <= k < |entries| && entries[k].kind == kind && entries[k].invoice == invoice
  }

  predicate HasPaymentEntry(entries: seq<Entry>, payment: nat) {
    exists k :: 0 <= k < |entries| && entries[k].kind == PaymentEntry && entries[k].payment == Some(payment)
  }

  predicate CheckDocument(s: State, id: nat) {
    id < |s.invoices| && s.invoices[id].status == Validated ==>
      && s.invoices[id].lines != [] && Sum(Nets(s.invoices[id].lines)) == s.invoices[id].net
      && Sum(Taxes(s.invoices[id].lines)) == s.invoices[id].tax && s.invoices[id].snapshot.Some?
      && HasEntry(s.entries, InvoiceEntry, id)
  }

  function Expected(s: State, e: Entry): int {
    if e.kind == InvoiceEntry then (if e.invoice < |s.invoices| then s.invoices[e.invoice].total else 0)
    else if e.payment.Some? && e.payment.value < |s.payments| then s.payments[e.payment.value].amount else 0
  }

  predicate CheckEntry(s: State, id: nat) {
    id < |s.entries| ==>
      && |s.entries[id].lines| >= 2 && Sum(Debits(s.entries[id].lines)) > 0
      && Sum(Debits(s.entries[id].lines)) == Sum(Credits(s.entries[id].lines))
      && Sum(Debits(s.entries[id].lines)) == Expected(s, s.entries[id])
  }

  predicate CheckPayment(s: State, id: nat) {
    id < |s.payments| ==> HasPaymentEntry(s.entries, id)
  }

  /** The documents, entries and payments that a transaction wrote. */
  datatype Touched = Touched(invoices: set<nat>, entries: set<nat>, payments: set<nat>)

  function Touch(t: Touched, s: State, w: Write): Touched {
    match w
    case InsertInvoice(_) => t.(invoices := t.invoices + {|s.invoices|})
    case UpdateInvoice(id, _) => t.(invoices := t.invoices + {id})
    case InsertEntry(_) => t.(entries := t.entries + {|s.entries|})
    case InsertEntryLines(id, _) => t.(entries := t.entries + {id})
    case InsertPayment(_) => t.(payments := t.payments + {|s.payments|})
    case _ => t
  }

  predicate CommitAccepts(s: State, t: Touched) {
    && (forall i :: i in t.invoices ==> CheckDocument(s, i))
    && (forall k :: k in t.entries ==> CheckEntry(s, k))
    && (forall k :: k in t.payments ==> CheckPayment(s, k))
  }
}
