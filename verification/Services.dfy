/** The invoicing services as functions from the company's rows and a request to the new rows and an answer. */
module Services {
  // A refused request leaves the rows as they were: each service is one transaction.

  import opened Basics
  import opened Calculation
  import opened Pricing
  import opened Numbering
  import opened Books

  /** A field of a request: not given, given with an unusable value, or given. */
  datatype Field<T> = Absent | Bad | Given(value: T)

  datatype DraftData =
    | NotADraft
    | DraftData(customer: Field<nat>, issue: Field<Date>, due: Field<Date>, language: Field<string>,
                texts: seq<Field<string>>, lines: Field<seq<LineInput>>)

  datatype PaymentData = NotAPayment | PaymentData(amount: Raw, date: Field<Date>, reference: Field<string>)

  datatype DatesData = NotDates | DatesData(issue: Field<Date>, due: Field<Date>)

  datatype PeriodData = NotAPeriod | PeriodData(name: Field<string>, start: Field<Date>, end: Field<Date>,
                                                closed: Field<bool>)

  /** `clean` is the answer of the framework's own validation of the edited company. */
  datatype CompanyData =
    | NotACompany
    | CompanyData(profile: Option<Profile>, currency: Option<string>, precision: Option<int>,
                  language: Option<string>, clean: bool)

  datatype Outcome<T> = Outcome(state: State, answer: Result<T>)

  const EDITORS: set<Role> := {Admin, Accountant, Sales}
  const FINANCE: set<Role> := {Admin, Accountant}
  const EVERYONE: set<Role> := {Admin, Accountant, Sales, Viewer}
  const TEXT_LIMITS: seq<nat> := [200, 150, 4000, 2000, 2000]
  const LANGUAGES: set<string> := {"fr", "en", "ar", "de", "tr"}

  predicate Allowed(actor: Actor, roles: set<Role>) { actor.active && actor.role in roles }

  // ---- drafts ----

  function CustomerRef(customers: seq<Customer>, given: Field<nat>, base: Option<Invoice>): Result<nat> {
    var id := match given
      case Given(v) => Some(v)
      case Bad => None
      case Absent => if base.Some? then Some(base.value.customer) else None;
    if id.None? || id.value >= |customers| then Err(NotFound)
    else if customers[id.value].archived then Err(ArchivedReference)
    else Ok(id.value)
  }

  function DateOr(given: Field<Date>, base: Option<Date>): Result<Date> {
    match given
    case Given(v) => Ok(v)
    case Bad => Err(InvalidInput)
    case Absent => if base.Some? then Ok(base.value) else Err(InvalidInput)
  }

  /** The five free texts, each kept when absent and bounded when given. */
  function TextsFrom(given: seq<Field<string>>, base: seq<string>): (r: Result<seq<string>>)
    requires |base| == |TEXT_LIMITS|
    ensures r.Ok? ==> |r.value| == |TEXT_LIMITS|
  {
    if |given| != |TEXT_LIMITS| then Err(InvalidInput)
    else
      var texts := seq(|base|, i requires 0 <= i < |base| => if given[i].Given? then given[i].value else base[i]);
      if exists i :: 0 <= i < |base| && (given[i].Bad? || |texts[i]| > TEXT_LIMITS[i]) then Err(InvalidInput)
      else Ok(texts)
  }

  const NO_TEXTS: seq<string> := ["", "", "", "", ""]

  function TextsOf(base: Option<Invoice>): (r: seq<string>)
    ensures |r| == |TEXT_LIMITS|
  {
    if base.Some? && |base.value.texts| == |TEXT_LIMITS| then base.value.texts else NO_TEXTS
  }

  function SourceLines(given: Field<seq<LineInput>>, base: Option<Invoice>): Result<seq<LineInput>> {
    match given
    case Given(v) => Ok(v)
    case Bad => Err(InvalidInput)
    case Absent => if base.Some? then Ok(RereadAll(base.value.lines)) else Err(InvalidInput)
  }

  /** The draft that a request describes, over an existing draft or from nothing. */
  function Drafted(s: State, data: DraftData, base: Option<Invoice>): Result<Invoice>
    requires data.DraftData?
  {
    match CustomerRef(s.customers, data.customer, base) case Err(e) => Err(e) case Ok(customer) =>
    match DateOr(data.issue, if base.Some? then Some(base.value.issue) else None)
      case Err(e) => Err(e) case Ok(issue) =>
    match DateOr(data.due, if base.Some? then Some(base.value.due) else None) case Err(e) => Err(e) case Ok(due) =>
    if !Leq(issue, due) || data.language.Bad? then Err(InvalidInput) else
    var language := if data.language.Given? then data.language.value
                    else if base.Some? then base.value.language else s.company.language;
    if language !in LANGUAGES then Err(InvalidInput) else
    match TextsFrom(data.texts, TextsOf(base)) case Err(e) => Err(e) case Ok(texts) =>
    match SourceLines(data.lines, base) case Err(e) => Err(e) case Ok(items) =>
    match Calculated(ArchivedFlags(s.products), s.company.precision, items) case Err(e) => Err(e) case Ok(lines) =>
    var net, tax := Sum(Nets(lines)), Sum(Taxes(lines));
    Ok(Invoice(customer, issue, due, language, texts, lines, net, tax, net + tax, Draft, "", None, "", None))
  }

  /** Stores a draft: over row `id`, or as a new row. */
  function PutDraft(s: State, id: Option<nat>, draft: Invoice): State
    requires id.Some? ==> id.value < |s.invoices|
  {
    s.(invoices := if id.Some? then s.invoices[id.value := draft] else s.invoices + [draft])
  }

  function SaveDraft(s: State, actor: Actor, data: DraftData, id: Option<nat>): Outcome<nat> {
    if !Allowed(actor, EDITORS) then Outcome(s, Err(PermissionDenied))
    else if data.NotADraft? then Outcome(s, Err(InvalidInput))
    else if id.Some? && id.value >= |s.invoices| then Outcome(s, Err(NotFound))
    else if id.Some? && s.invoices[id.value].status != Draft then Outcome(s, Err(Immutable))
    else
      match Drafted(s, data, if id.Some? then Some(s.invoices[id.value]) else None)
      case Err(e) => Outcome(s, Err(e))
      case Ok(draft) => Outcome(PutDraft(s, id, draft), Ok(if id.Some? then id.value else |s.invoices|))
  }

  const NO_CHANGES: DraftData := DraftData(Absent, Absent, Absent, Absent, [Absent, Absent, Absent, Absent, Absent],
                                           Absent)

  // ---- postings ----

  function CheckPeriod(s: State, d: Date): Result<nat> {
    match PeriodOf(s.periods, d)
    case None => Err(PeriodMissing)
    case Some(p) => if s.periods[p].closed then Err(PeriodClosed) else Ok(p)
  }

  function NonZero(values: seq<EntryLine>): seq<EntryLine> {
    if values == [] then []
    else
      var rest := NonZero(values[..|values| - 1]);
      var last := values[|values| - 1];
      if last.debit != 0 || last.credit != 0 then rest + [last] else rest
  }

  function Debits(lines: seq<EntryLine>): (r: seq<int>)
    ensures |r| == |lines|
  {
    seq(|lines|, i requires 0 <= i < |lines| => lines[i].debit)
  }
  function Credits(lines: seq<EntryLine>): (r: seq<int>)
    ensures |r| == |lines|
  {
    seq(|lines|, i requires 0 <= i < |lines| => lines[i].credit)
  }

  predicate AccountsExist(accounts: set<Kind>, lines: seq<EntryLine>) {
    forall i :: 0 <= i < |lines| ==> lines[i].account in accounts
  }

  /** The lines of an entry, refused when they do not balance or name a missing account. */
  function Posting(s: State, journal: Journal, values: seq<EntryLine>): Result<seq<EntryLine>> {
    if journal !in s.journals then Err(InvalidInput)
    else
      var lines := NonZero(values);
      var debit, credit := Sum(Debits(lines)), Sum(Credits(lines));
      if |lines| < 2 || debit <= 0 || debit != credit || !AccountsExist(s.accounts, lines) then Err(InvalidAmount)
      else Ok(lines)
  }

  function InvoiceValues(inv: Invoice): seq<EntryLine> {
    [EntryLine(Receivable, inv.total, 0), EntryLine(Revenue, 0, inv.net), EntryLine(Tax, 0, inv.tax)]
  }

  function PaymentValues(amount: int): seq<EntryLine> {
    [EntryLine(Bank, amount, 0), EntryLine(Receivable, 0, amount)]
  }

  // ---- idempotency ----

  predicate KeyOk(key: Option<Key>) {
    key.Some? && (key.value.Manual? ==> Strip(key.value.text) != "" && |key.value.text| <= 128)
  }

  /** Ok(true) when the same request was already answered, Ok(false) when the key is new. */
  function Replayed(s: State, key: Option<Key>, mark: Fingerprint): Result<bool> {
    if !KeyOk(key) then Err(IdempotencyRequired)
    else if key.value !in s.records then Ok(false)
    else if s.records[key.value].fingerprint != mark then Err(IdempotencyConflict)
    else Ok(true)
  }

  function Remember(s: State, key: Key, invoice: nat, mark: Fingerprint): State {
    s.(records := s.records[key := Record(invoice, mark)])
  }

  // ---- validation ----

  function LineSnapshot(products: seq<Product>, line: Line, places: Places): SnapshotLine {
    SnapshotLine(line.description,
                 if line.product.Some? && line.product.value < |products|
                 then products[line.product.value].reference else "",
                 Printed(line.quantity, 6), Printed(line.unitPrice, 6),
                 Printed(line.taxRate, 4), Printed(line.discountRate, 4),
                 Money(line.net, places), Money(line.tax, places), Money(line.Total(), places))
  }

  function SnapshotOf(company: Company, customer: Party, products: seq<Product>, inv: Invoice): Snapshot {
    var places := if inv.precision.Some? then inv.precision.value else company.precision;
    Snapshot(company.profile, customer, inv.number, inv.issue, inv.due, inv.language,
             if inv.currency != "" then inv.currency else company.currency, places, inv.status, inv.texts,
             seq(|inv.lines|, i requires 0 <= i < |inv.lines| => LineSnapshot(products, inv.lines[i], places)),
             Money(inv.net, places), Money(inv.tax, places), Money(inv.total, places))
  }

  function PartyOf(customers: seq<Customer>, id: nat): Party {
    if id < |customers| then customers[id].party else Party("", "", "", "")
  }

  /** The validated form of a draft: numbered, with the company's precision and currency and its snapshot. */
  function Sealed(s: State, draft: Invoice): Invoice {
    var numbered := draft.(status := Validated,
                           number := NumberText(draft.issue.year, Counter(s.counters, draft.issue.year)),
                           precision := Some(s.company.precision), currency := s.company.currency);
    numbered.(snapshot := Some(SnapshotOf(s.company, PartyOf(s.customers, draft.customer), s.products, numbered)))
  }

  /** Seals row `id`, moves the counter of its year and posts its entry. */
  function Seal(s: State, id: nat, period: nat, lines: seq<EntryLine>): State
    requires id < |s.invoices|
  {
    var inv := Sealed(s, s.invoices[id]);
    s.(invoices := s.invoices[id := inv],
       counters := s.counters[inv.issue.year := Counter(s.counters, inv.issue.year) + 1],
       entries := s.entries + [Entry(id, None, inv.issue, inv.number, SalesJournal, period, InvoiceEntry, lines)])
  }

  /** The part of validation that follows a successful recalculation. */
  function SealDraft(s: State, id: nat): Result<State>
    requires id < |s.invoices|
  {
    var inv := s.invoices[id];
    if inv.total <= 0 then Err(InvalidAmount)
    else
      match CheckPeriod(s, inv.issue) case Err(e) => Err(e) case Ok(period) =>
      match Posting(s, SalesJournal, InvoiceValues(inv)) case Err(e) => Err(e) case Ok(lines) =>
      Ok(Seal(s, id, period, lines))
  }

  /** `payload` is None when it is not a dictionary. */
  function Validate(s: State, actor: Actor, id: nat, key: Option<Key>, payload: Option<Payload>): Outcome<nat> {
    if !Allowed(actor, FINANCE) then Outcome(s, Err(PermissionDenied))
    else if id >= |s.invoices| then Outcome(s, Err(NotFound))
    else if payload.None? then Outcome(s, Err(InvalidInput))
    else
      var mark := Fingerprint(ValidateAction, id, payload.value);
      match Replayed(s, key, mark)
      case Err(e) => Outcome(s, Err(e))
      case Ok(true) => Outcome(s, Ok(id))
      case Ok(false) =>
        if payload.value != EmptyPayload then Outcome(s, Err(InvalidInput))
        else if s.invoices[id].status != Draft then Outcome(s, Err(AlreadyValidated))
        else
          var saved := SaveDraft(s, actor, NO_CHANGES, Some(id));
          if saved.answer.Err? then Outcome(s, saved.answer)
          else
            match SealDraft(saved.state, id)
            case Err(e) => Outcome(s, Err(e))
            case Ok(sealed) => Outcome(Remember(sealed, key.value, id, mark), Ok(id))
  }

  /** A recalculation that stores nothing. */
  function Preview(s: State, actor: Actor, id: nat): Result<Snapshot> {
    if !Allowed(actor, EVERYONE) then Err(PermissionDenied)
    else if id >= |s.invoices| then Err(NotFound)
    else if s.invoices[id].status == Validated && s.invoices[id].snapshot.Some? then Ok(s.invoices[id].snapshot.value)
    else
      var inv := s.invoices[id];
      match Calculated(ArchivedFlags(s.products), s.company.precision, RereadAll(inv.lines))
      case Err(e) => Err(e)
      case Ok(lines) =>
        var net, tax := Sum(Nets(lines)), Sum(Taxes(lines));
        Ok(SnapshotOf(s.company, PartyOf(s.customers, inv.customer), s.products,
                      inv.(lines := lines, net := net, tax := tax, total := net + tax)))
  }

  // ---- payments ----

  function PlacesOf(inv: Invoice): Places {
    if inv.precision.Some? then inv.precision.value else 0
  }

  /** The amount, day and reference of a payment request, as the service normalises them. */
  function PaymentRequest(inv: Invoice, data: PaymentData): Result<Payment>
    requires data.PaymentData?
  {
    match Parse(DEFAULT_DIGITS, data.amount, PlacesOf(inv), 0, MAX_AMOUNT, true)
    case None => Err(InvalidAmount)
    case Some(n) =>
      match DateOr(data.date, None) case Err(e) => Err(e) case Ok(date) =>
      var reference := if data.reference.Given? then data.reference.value else "";
      if data.reference.Bad? || |reference| > 200 || !Leq(inv.issue, date) then Err(InvalidInput)
      else Ok(Payment(0, n * Quantum(PlacesOf(inv)), date, reference))
  }

  function PaymentMark(id: nat, inv: Invoice, p: Payment): Fingerprint {
    Fingerprint(PaymentAction, id, PaymentPayload(Money(p.amount, PlacesOf(inv)), p.date, p.reference))
  }

  /** Stores a payment and its entry. */
  function Settle(s: State, p: Payment, number: string, period: nat, lines: seq<EntryLine>): State {
    s.(payments := s.payments + [p],
       entries := s.entries + [Entry(p.invoice, Some(|s.payments|), p.date, number, BankJournal, period,
                                     PaymentEntry, lines)])
  }

  function RecordPayment(s: State, actor: Actor, id: nat, key: Option<Key>, data: PaymentData): Outcome<nat> {
    if !Allowed(actor, FINANCE) then Outcome(s, Err(PermissionDenied))
    else if data.NotAPayment? then Outcome(s, Err(InvalidInput))
    else if id >= |s.invoices| then Outcome(s, Err(NotFound))
    else if s.invoices[id].status != Validated then Outcome(s, Err(InvalidInput))
    else
      var inv := s.invoices[id];
      match PaymentRequest(inv, data) case Err(e) => Outcome(s, Err(e)) case Ok(request) =>
      var p := request.(invoice := id);
      var mark := PaymentMark(id, inv, p);
      match Replayed(s, key, mark)
      case Err(e) => Outcome(s, Err(e))
      case Ok(true) => Outcome(s, Ok(id))
      case Ok(false) =>
        if p.amount > inv.total - Paid(s.payments, id) then Outcome(s, Err(Overpayment))
        else
          match CheckPeriod(s, p.date) case Err(e) => Outcome(s, Err(e)) case Ok(period) =>
          match Posting(s, BankJournal, PaymentValues(p.amount)) case Err(e) => Outcome(s, Err(e)) case Ok(lines) =>
          Outcome(Remember(Settle(s, p, inv.number, period, lines), key.value, id, mark), Ok(id))
  }

  // ---- duplication ----

  function CopyOf(inv: Invoice, issue: Date, due: Date): DraftData {
    DraftData(Given(inv.customer), Given(issue), Given(due), Given(inv.language),
              seq(|inv.texts|, i requires 0 <= i < |inv.texts| => Given(inv.texts[i])), Given(RereadAll(inv.lines)))
  }

  function Duplicate(s: State, actor: Actor, id: nat, key: Option<Key>, data: DatesData): Outcome<nat> {
    if !Allowed(actor, EDITORS) then Outcome(s, Err(PermissionDenied))
    else if data.NotDates? || data.issue.Absent? || data.due.Absent? then Outcome(s, Err(InvalidInput))
    else if id >= |s.invoices| then Outcome(s, Err(NotFound))
    else if data.issue.Bad? || data.due.Bad? then Outcome(s, Err(InvalidInput))
    else
      var mark := Fingerprint(DuplicateAction, id, DatesPayload(data.issue.value, data.due.value));
      match Replayed(s, key, mark)
      case Err(e) => Outcome(s, Err(e))
      case Ok(true) => Outcome(s, Ok(s.records[key.value].invoice))
      case Ok(false) =>
        var saved := SaveDraft(s, actor, CopyOf(s.invoices[id], data.issue.value, data.due.value), None);
        if saved.answer.Err? then Outcome(s, saved.answer)
        else Outcome(Remember(saved.state, key.value, saved.answer.value, mark), saved.answer)
  }

  // ---- configuration ----

  predicate CurrencyOk(currency: string) {
    |currency| == 3 && forall i :: 0 <= i < 3 ==> 'A' <= currency[i] <= 'Z'
  }

  predicate AnyValidated(invoices: seq<Invoice>) {
    exists i :: 0 <= i < |invoices| && invoices[i].status == Validated
  }

  predicate ConfigurationInUse(s: State) {
    AnyValidated(s.invoices) || s.bankAccounts != [] || s.externals != []
  }

  function Configure(s: State, actor: Actor, data: CompanyData): Outcome<()> {
    if !Allowed(actor, {Admin}) then Outcome(s, Err(PermissionDenied))
    else if data.NotACompany? then Outcome(s, Err(InvalidInput))
    else
      var currency := if data.currency.Some? then data.currency.value else s.company.currency;
      var precision: int := if data.precision.Some? then data.precision.value else s.company.precision;
      if (currency != s.company.currency || precision != s.company.precision) && ConfigurationInUse(s) then
        Outcome(s, Err(ConfigurationLocked))
      else if !CurrencyOk(currency) || !(0 <= precision <= 4) || !data.clean then Outcome(s, Err(InvalidInput))
      else
        var profile := if data.profile.Some? then data.profile.value else s.company.profile;
        var language := if data.language.Some? then data.language.value else s.company.language;
        Outcome(s.(company := Company(profile, currency, precision, language)), Ok(()))
  }

  predicate PeriodUsed(entries: seq<Entry>, period: nat) {
    exists i :: 0 <= i < |entries| && entries[i].period == period
  }

  predicate OverlapsAnother(periods: seq<Period>, p: Period, id: Option<nat>) {
    exists i :: 0 <= i < |periods| && Some(i) != id && Overlap(periods[i], p)
  }

  function PutPeriod(s: State, id: Option<nat>, p: Period): State
    requires id.Some? ==> id.value < |s.periods|
  {
    s.(periods := if id.Some? then s.periods[id.value := p] else s.periods + [p])
  }

  function SetPeriod(s: State, actor: Actor, data: PeriodData, id: Option<nat>): Outcome<nat> {
    if !Allowed(actor, {Admin}) then Outcome(s, Err(PermissionDenied))
    else if data.NotAPeriod? then Outcome(s, Err(InvalidInput))
    else if id.Some? && id.value >= |s.periods| then Outcome(s, Err(NotFound))
    else
      var base := if id.Some? then Some(s.periods[id.value]) else None;
      match DateOr(data.start, if base.Some? then Some(base.value.start) else None)
        case Err(e) => Outcome(s, Err(e)) case Ok(start) =>
      match DateOr(data.end, if base.Some? then Some(base.value.end) else None)
        case Err(e) => Outcome(s, Err(e)) case Ok(end) =>
      var name := if data.name.Given? then data.name.value else if base.Some? then base.value.name else "";
      var closed := if data.closed.Given? then data.closed.value else base.Some? && base.value.closed;
      var p := Period(name, start, end, closed);
      if !Leq(start, end) then Outcome(s, Err(InvalidInput))
      else if id.Some? && PeriodUsed(s.entries, id.value) && (start != base.value.start || end != base.value.end) then
        Outcome(s, Err(Immutable))
      else if OverlapsAnother(s.periods, p, id) then Outcome(s, Err(InvalidInput))
      else if data.name.Bad? || data.closed.Bad? || Strip(name) == "" || |name| > 100 then Outcome(s, Err(InvalidInput))
      else Outcome(PutPeriod(s, id, p), Ok(if id.Some? then id.value else |s.periods|))
  }

  function Bootstrap(s: State): State {
    s.(accounts := s.accounts + {Receivable, Revenue, Tax, Bank}, journals := s.journals + {SalesJournal, BankJournal})
  }
}
