/** What every reachable state of the books satisfies, kept by each way of changing the rows. */
module Invariants {
  import opened Basics
  import opened Calculation
  import opened Pricing
  import opened Numbering
  import opened Books
  import opened Services
  import opened Banking

  // ---- documents ----

  ghost predicate LinesOk(lines: seq<Line>, products: nat) {
    1 <= |lines| <= MAX_LINES
    && forall i :: 0 <= i < |lines| ==> Sane(lines[i]) && (lines[i].product.Some? ==> lines[i].product.value < products)
  }

  ghost predicate LinesPriced(lines: seq<Line>, places: Places) {
    forall i :: 0 <= i < |lines| ==> PricedAt(places, lines[i])
  }

  ghost predicate AmountsOk(inv: Invoice) {
    inv.net == Sum(Nets(inv.lines)) && inv.tax == Sum(Taxes(inv.lines)) && inv.total == inv.net + inv.tax
    && 0 <= inv.tax <= inv.net && inv.total <= MAX_AMOUNT
  }

  ghost predicate DocumentOk(inv: Invoice, customers: nat, products: nat) {
    inv.customer < customers && Leq(inv.issue, inv.due) && |inv.texts| == |TEXT_LIMITS| && inv.language in LANGUAGES
    && (forall i :: 0 <= i < |TEXT_LIMITS| ==> |inv.texts[i]| <= TEXT_LIMITS[i])
    && LinesOk(inv.lines, products) && AmountsOk(inv)
  }

  ghost predicate DraftOk(inv: Invoice) {
    inv.status == Draft && inv.number == "" && inv.precision == None && inv.currency == "" && inv.snapshot == None
  }

  ghost predicate Exact(amount: int, places: Places) { amount % Quantum(places) == 0 }

  /** The printed number denotes the amount itself. */
  predicate Denotes(p: Printed, amount: int, places: Places) {
    p.places == places && p.units * Quantum(places) == amount
  }

  /** The line of a frozen document tells the stored line. */
  ghost predicate LineTells(t: SnapshotLine, line: Line, places: Places) {
    && t.description == line.description
    && t.quantity == Printed(line.quantity, 6) && t.unitPrice == Printed(line.unitPrice, 6)
    && t.taxRate == Printed(line.taxRate, 4) && t.discountRate == Printed(line.discountRate, 4)
    && Denotes(t.net, line.net, places) && Denotes(t.tax, line.tax, places)
    && Denotes(t.total, line.net + line.tax, places)
  }

  /** The frozen document tells the stored one: its header, its texts, its amounts and its lines. */
  ghost predicate DocumentTells(t: Snapshot, inv: Invoice, places: Places) {
    && t.issue == inv.issue && t.due == inv.due && t.language == inv.language && t.texts == inv.texts
    && t.precision == places && Denotes(t.net, inv.net, places) && Denotes(t.tax, inv.tax, places)
    && Denotes(t.total, inv.total, places)
    && |t.lines| == |inv.lines| && forall k :: 0 <= k < |inv.lines| ==> LineTells(t.lines[k], inv.lines[k], places)
  }

  ghost predicate FrozenTells(inv: Invoice, company: Company) {
    && inv.snapshot.Some? && DocumentTells(inv.snapshot.value, inv, company.precision)
    && inv.snapshot.value.number == inv.number && inv.snapshot.value.status == Validated
    && inv.snapshot.value.currency == inv.currency
  }

  /** A validated invoice carries the company's own currency and precision, to which its amounts are exact. */
  ghost predicate SealedOk(inv: Invoice, company: Company) {
    inv.status == Validated && inv.number != "" && FrozenTells(inv, company) && inv.total > 0
    && inv.precision == Some(company.precision) && inv.currency == company.currency && inv.currency != ""
    && LinesPriced(inv.lines, company.precision)
    && Exact(inv.net, company.precision) && Exact(inv.tax, company.precision) && Exact(inv.total, company.precision)
  }

  ghost predicate InvoiceOk(s: State, inv: Invoice) {
    DocumentOk(inv, |s.customers|, |s.products|) && (DraftOk(inv) || SealedOk(inv, s.company))
  }

  ghost predicate InvoicesOk(s: State) {
    forall i :: 0 <= i < |s.invoices| ==> InvoiceOk(s, s.invoices[i])
  }

  // ---- payments ----

  ghost predicate PaymentOk(s: State, p: Payment) {
    p.invoice < |s.invoices| && s.invoices[p.invoice].status == Validated
    && p.amount > 0 && Exact(p.amount, s.company.precision) && Leq(s.invoices[p.invoice].issue, p.date)
    && |p.reference| <= 200
  }

  ghost predicate PaymentsOk(s: State) {
    forall k :: 0 <= k < |s.payments| ==> PaymentOk(s, s.payments[k])
  }

  ghost predicate NoOverpayment(s: State) {
    forall i :: 0 <= i < |s.invoices| ==>
        0 <= Paid(s.payments, i) <= (if s.invoices[i].status == Validated then s.invoices[i].total else 0)
  }

  // ---- entries ----

  ghost predicate EntryOk(s: State, e: Entry) {
    e.invoice < |s.invoices| && s.invoices[e.invoice].status == Validated
    && e.reference == s.invoices[e.invoice].number
    && e.period < |s.periods| && InPeriod(s.periods[e.period], e.date)
    && e.journal in s.journals && AccountsExist(s.accounts, e.lines)
    && (e.kind == InvoiceEntry ==>
          e.payment == None && e.date == s.invoices[e.invoice].issue
              && e.lines == NonZero(InvoiceValues(s.invoices[e.invoice])))
    && (e.kind == PaymentEntry ==>
          e.payment.Some? && e.payment.value < |s.payments| && s.payments[e.payment.value].invoice == e.invoice
          && e.date == s.payments[e.payment.value].date && e.lines == PaymentValues(s.payments[e.payment.value].amount))
  }

  ghost predicate EntriesOk(s: State) {
    forall k :: 0 <= k < |s.entries| ==> EntryOk(s, s.entries[k])
  }

  ghost predicate EntryOf(e: Entry, kind: EntryKind, invoice: nat, payment: Option<nat>) {
    e.kind == kind && e.invoice == invoice && e.payment == payment
  }

  ghost predicate Posted(entries: seq<Entry>, kind: EntryKind, invoice: nat, payment: Option<nat>) {
    exists k :: 0 <= k < |entries| && EntryOf(entries[k], kind, invoice, payment)
  }

  /** Every validated invoice and every payment has its entry, and only one. */
  ghost predicate EntriesComplete(s: State) {
    && (forall i :: 0 <= i < |s.invoices| && s.invoices[i].status == Validated ==>
         Posted(s.entries, InvoiceEntry, i, None))
    && (forall k :: 0 <= k < |s.payments| ==> Posted(s.entries, PaymentEntry, s.payments[k].invoice, Some(k)))
    && (forall j, k :: 0 <= j < k < |s.entries| && s.entries[j].kind == s.entries[k].kind ==>
          if s.entries[j].kind == InvoiceEntry then s.entries[j].invoice != s.entries[k].invoice
          else s.entries[j].payment != s.entries[k].payment)
  }

  // ---- periods ----

  ghost predicate PeriodsOk(periods: seq<Period>) {
    && (forall i :: 0 <= i < |periods| ==> Leq(periods[i].start, periods[i].end))
    && (forall i, j :: 0 <= i < j < |periods| ==> !Overlap(periods[i], periods[j]))
  }

  // ---- numbers ----

  ghost predicate Numbered(inv: Invoice, year: nat, n: nat) {
    inv.status == Validated && inv.issue.year == year && inv.number == NumberText(year, n)
  }

  ghost predicate Issued(invoices: seq<Invoice>, year: nat, n: nat) {
    exists i :: 0 <= i < |invoices| && Numbered(invoices[i], year, n)
  }

  ghost predicate HasNumber(inv: Invoice, next: nat) {
    exists n :: 1 <= n < next && Numbered(inv, inv.issue.year, n)
  }

  /** The numbers of a year are exactly 1 up to the counter, each on one invoice. */
  ghost predicate NumbersOk(invoices: seq<Invoice>, counters: map<nat, nat>) {
    && (forall y :: y in counters ==> counters[y] >= 1)
    && (forall i :: 0 <= i < |invoices| && invoices[i].status == Validated ==>
          HasNumber(invoices[i], Counter(counters, invoices[i].issue.year)))
    && (forall y, n :: 1 <= n < Counter(counters, y) ==> Issued(invoices, y, n))
    && (forall i, j :: 0 <= i < j < |invoices| && invoices[i].status == Validated && invoices[j].status == Validated ==>
          invoices[i].number != invoices[j].number)
  }

  // ---- bank ----

  ghost predicate MatchOk(payments: seq<Payment>, records: map<Key, Record>, row: nat, item: BankTransaction) {
    item.matched.Some? ==>
      item.matched.value.payment < |payments| && BankKey(row) in records
      && payments[item.matched.value.payment]
         == Payment(item.matched.value.invoice, item.row.amount, item.row.date, BankReference(row))
  }

  ghost predicate MatchesOk(payments: seq<Payment>, records: map<Key, Record>, rows: seq<BankTransaction>) {
    forall i :: 0 <= i < |rows| ==> MatchOk(payments, records, i, rows[i])
  }

  ghost predicate MatchesInjective(rows: seq<BankTransaction>) {
    forall i, j :: 0 <= i < j < |rows| && rows[i].matched.Some? && rows[j].matched.Some? ==>
      rows[i].matched.value.payment != rows[j].matched.value.payment
  }

  ghost predicate BankKeysUsed(records: map<Key, Record>, rows: seq<BankTransaction>) {
    forall k :: k in records && k.BankKey? ==> k.row < |rows| && rows[k.row].matched.Some?
  }

  ghost predicate RowsOk(accounts: seq<BankAccount>, rows: seq<BankTransaction>) {
    && (forall i :: 0 <= i < |rows| ==> rows[i].account < |accounts| && rows[i].row.amount != 0)
    && (forall i, j :: 0 <= i < j < |rows| && rows[i].account == rows[j].account ==>
          rows[i].row.externalId != rows[j].row.externalId)
  }

  ghost predicate CurrenciesOk(currency: string, accounts: seq<BankAccount>, externals: seq<External>) {
    && (forall a :: 0 <= a < |accounts| ==> accounts[a].currency == currency)
    && (forall x :: 0 <= x < |externals| ==> externals[x].currency == currency)
  }

  ghost predicate BankOk(s: State) {
    CurrenciesOk(s.company.currency, s.bankAccounts, s.externals) && RowsOk(s.bankAccounts, s.bankRows)
    && MatchesOk(s.payments, s.records, s.bankRows) && MatchesInjective(s.bankRows)
    && BankKeysUsed(s.records, s.bankRows)
  }

  ghost predicate RecordsOk(records: map<Key, Record>, invoices: nat) {
    forall k :: k in records ==> records[k].invoice < invoices && KeyOk(Some(k))
  }

  // ---- control accounts ----

  function BalancesOf(lines: seq<EntryLine>, kind: Kind): (r: seq<int>) ensures |r| == |lines| {
    seq(|lines|, i requires 0 <= i < |lines| => if lines[i].account == kind then lines[i].debit - lines[i].credit
        else 0)
  }

  function EntryBalances(entries: seq<Entry>, kind: Kind): (r: seq<int>) ensures |r| == |entries| {
    seq(|entries|, k requires 0 <= k < |entries| => Sum(BalancesOf(entries[k].lines, kind)))
  }

  /** Debit minus credit of an account over all entries. */
  function Balance(entries: seq<Entry>, kind: Kind): int { Sum(EntryBalances(entries, kind)) }

  datatype Measure = OpenAmount | NetAmount | TaxAmount

  function Measured(m: Measure, inv: Invoice, paid: int): int {
    if inv.status != Validated then 0
    else match m case OpenAmount => inv.total - paid case NetAmount => inv.net case TaxAmount => inv.tax
  }

  function Documents(m: Measure, invoices: seq<Invoice>, payments: seq<Payment>): (r: seq<int>)
    ensures |r| == |invoices| {
    seq(|invoices|, i requires 0 <= i < |invoices| => Measured(m, invoices[i], Paid(payments, i)))
  }

  function AllPayments(payments: seq<Payment>): (r: seq<int>) ensures |r| == |payments| {
    seq(|payments|, k requires 0 <= k < |payments| => payments[k].amount)
  }

  /** The control accounts agree with the documents. */
  ghost predicate ControlOk(s: State) {
    && Balance(s.entries, Receivable) == Sum(Documents(OpenAmount, s.invoices, s.payments))
    && Balance(s.entries, Bank) == Sum(AllPayments(s.payments))
    && Balance(s.entries, Revenue) == -Sum(Documents(NetAmount, s.invoices, s.payments))
    && Balance(s.entries, Tax) == -Sum(Documents(TaxAmount, s.invoices, s.payments))
  }

  ghost predicate CompanyOk(company: Company) { CurrencyOk(company.currency) }

  ghost predicate LedgerOk(s: State) {
    CompanyOk(s.company) && InvoicesOk(s) && PaymentsOk(s) && NoOverpayment(s) && EntriesOk(s) && EntriesComplete(s)
    && PeriodsOk(s.periods) && NumbersOk(s.invoices, s.counters) && RecordsOk(s.records, |s.invoices|) && ControlOk(s)
  }

  ghost predicate Inv(s: State) { LedgerOk(s) && BankOk(s) }

  ghost predicate Empty(s: State) {
    s.invoices == [] && s.payments == [] && s.entries == [] && s.periods == [] && s.counters == map[]
        && s.records == map[]
    && s.bankAccounts == [] && s.bankRows == [] && s.externals == []
  }

  lemma EmptyIsOk(s: State)
    requires Empty(s) && CompanyOk(s.company)
    ensures Inv(s)
  {
  }

  // ---- what later states keep ----

  /** `t` continues `s`: nothing already validated, paid, posted, remembered or matched has changed. */
  ghost predicate Extends(s: State, t: State) {
    && |s.invoices| <= |t.invoices|
    && (forall i :: 0 <= i < |s.invoices| && s.invoices[i].status == Validated ==> t.invoices[i] == s.invoices[i])
    && s.payments <= t.payments && s.entries <= t.entries
    && |s.periods| <= |t.periods| && |s.customers| <= |t.customers| && |s.products| <= |t.products|
    && |s.bankAccounts| <= |t.bankAccounts| && s.externals <= t.externals
    && (forall k :: k in s.records ==> k in t.records && t.records[k] == s.records[k])
    && s.accounts <= t.accounts && s.journals <= t.journals
    && |s.bankRows| <= |t.bankRows|
    && (forall i :: 0 <= i < |s.bankRows| ==>
          t.bankRows[i].account == s.bankRows[i].account && t.bankRows[i].row == s.bankRows[i].row
          && (s.bankRows[i].matched.Some? ==> t.bankRows[i] == s.bankRows[i]))
    && (ConfigurationInUse(s) ==>
         t.company.currency == s.company.currency && t.company.precision == s.company.precision)
  }

  lemma ExtendsTransitive(s: State, t: State, u: State)
    requires Extends(s, t) && Extends(t, u)
    ensures Extends(s, u)
  {
    if ConfigurationInUse(s) {
      if AnyValidated(s.invoices) {
        var i :| 0 <= i < |s.invoices| && s.invoices[i].status == Validated;
        assert t.invoices[i].status == Validated;
      }
      assert ConfigurationInUse(t);
    }
  }
}
