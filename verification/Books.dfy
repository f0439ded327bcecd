/** The rows a company owns. Rows are kept in the order of their identifiers, which are never reused. */
module Books {
  import opened Basics
  import opened Decimal
  import opened Pricing

  type Places = n: nat | n <= 4

  datatype Role = Admin | Accountant | Sales | Viewer

  /** A user of the company. */
  datatype Actor = Actor(active: bool, role: Role)

  datatype Profile = Profile(name: string, address: string, email: string, locale: string, printSettings: string)

  datatype Company = Company(profile: Profile, currency: string, precision: Places, language: string)

  datatype Party = Party(name: string, address: string, email: string, taxId: string)

  datatype Customer = Customer(party: Party, archived: bool)

  datatype Product = Product(reference: string, archived: bool)

  /** A number printed with a fixed count of decimals: units / 10^places. */
  datatype Printed = Printed(units: int, places: nat)

  datatype Status = Draft | Validated

  datatype SnapshotLine = SnapshotLine(
    description: string, productReference: string, quantity: Printed, unitPrice: Printed,
    taxRate: Printed, discountRate: Printed, net: Printed, tax: Printed, total: Printed)

  datatype Snapshot = Snapshot(
    issuer: Profile, customer: Party, number: string, issue: Date, due: Date, language: string,
    currency: string, precision: Places, status: Status, texts: seq<string>,
    lines: seq<SnapshotLine>, net: Printed, tax: Printed, total: Printed)

  /** `texts`: customer reference, title, notes, payment terms, shipping address. Amounts are millionths. */
  datatype Invoice = Invoice(
    customer: nat, issue: Date, due: Date, language: string, texts: seq<string>, lines: seq<Line>,
    net: int, tax: int, total: int,
    status: Status, number: string, precision: Option<Places>, currency: string, snapshot: Option<Snapshot>)

  datatype Payment = Payment(invoice: nat, amount: int, date: Date, reference: string)

  datatype Kind = Receivable | Revenue | Tax | Bank

  datatype Journal = SalesJournal | BankJournal

  datatype EntryLine = EntryLine(account: Kind, debit: int, credit: int)

  datatype EntryKind = InvoiceEntry | PaymentEntry

  datatype Entry = Entry(invoice: nat, payment: Option<nat>, date: Date, reference: string,
                         journal: Journal, period: nat, kind: EntryKind, lines: seq<EntryLine>)

  datatype Period = Period(name: string, start: Date, end: Date, closed: bool)

  /** Keys given by callers, and the keys derived from a bank row's identifier under a secret. */
  datatype Key = Manual(text: string) | BankKey(row: nat)

  datatype Action = ValidateAction | PaymentAction | DuplicateAction

  datatype Payload =
    | EmptyPayload
    | OtherPayload(content: string)
    | PaymentPayload(amount: Printed, date: Date, reference: string)
    | DatesPayload(issue: Date, due: Date)

  datatype Fingerprint = Fingerprint(action: Action, invoice: nat, payload: Payload)

  datatype Record = Record(invoice: nat, fingerprint: Fingerprint)

  datatype BankAccount = BankAccount(currency: string, archived: bool)

  datatype BankRow = BankRow(externalId: string, date: Date, amount: int, description: string, reference: string)

  datatype Match = Match(invoice: nat, payment: nat)

  /** `matched` holds the invoice, the payment and the fact of being reconciled, which go together. */
  datatype BankTransaction = BankTransaction(account: nat, row: BankRow, matched: Option<Match>)

  datatype External = External(integration: nat, externalId: string, amount: int, currency: string, date: Date,
                               reference: string)

  datatype State = State(
    company: Company, products: seq<Product>, customers: seq<Customer>,
    invoices: seq<Invoice>, payments: seq<Payment>, entries: seq<Entry>, periods: seq<Period>,
    counters: map<nat, nat>, records: map<Key, Record>,
    accounts: set<Kind>, journals: set<Journal>,
    bankAccounts: seq<BankAccount>, bankRows: seq<BankTransaction>, externals: seq<External>)

  function ArchivedFlags(products: seq<Product>): (r: seq<bool>)
    ensures |r| == |products|
  {
    seq(|products|, i requires 0 <= i < |products| => products[i].archived)
  }

  /** `amount` printed with `places` decimals, rounding half to even as text formatting does. */
  function Money(amount: int, places: Places): Printed {
    Printed(Round(HalfEven, amount, Quantum(places)), places)
  }

  /** An amount that is a whole number of quanta is printed without losing a digit. */
  lemma MoneyExact(amount: int, places: Places)
    requires amount % Quantum(places) == 0
    ensures Money(amount, places).units * Quantum(places) == amount
  {
    var n := amount / Quantum(places);
    assert amount == n * Quantum(places);
    RoundExact(HalfEven, n, Quantum(places));
  }

  function PaymentAmounts(payments: seq<Payment>, invoice: nat): (r: seq<int>)
    ensures |r| == |payments|
  {
    seq(|payments|, i requires 0 <= i < |payments| => if payments[i].invoice == invoice then payments[i].amount else 0)
  }

  function Paid(payments: seq<Payment>, invoice: nat): int {
    Sum(PaymentAmounts(payments, invoice))
  }

  lemma PaidAppend(payments: seq<Payment>, p: Payment, invoice: nat)
    ensures Paid(payments + [p], invoice) == Paid(payments, invoice) + (if p.invoice == invoice then p.amount else 0)
  {
    var x := if p.invoice == invoice then p.amount else 0;
    assert PaymentAmounts(payments + [p], invoice) == PaymentAmounts(payments, invoice) + [x];
    SumAppend(PaymentAmounts(payments, invoice), x);
  }

  predicate InPeriod(p: Period, d: Date) { Leq(p.start, d) && Leq(d, p.end) }

  predicate Overlap(a: Period, b: Period) { Leq(a.start, b.end) && Leq(b.start, a.end) }

  /** The first period of the list that contains the day. */
  function PeriodOf(periods: seq<Period>, d: Date): (r: Option<nat>)
    ensures r.Some? ==> r.value < |periods| && InPeriod(periods[r.value], d)
    ensures r.None? ==> forall i :: 0 <= i < |periods| ==> !InPeriod(periods[i], d)
  {
    if periods == [] then None
    else
      var earlier := PeriodOf(periods[..|periods| - 1], d);
      if earlier.Some? then earlier
      else if InPeriod(periods[|periods| - 1], d) then Some(|periods| - 1)
      else None
  }

  function Counter(counters: map<nat, nat>, year: nat): nat {
    if year in counters then counters[year] else 1
  }
}
