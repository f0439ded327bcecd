/** No service is ever answered by a refusal of the database. */
module Refinement {
  import opened Basics
  import opened Calculation
  import opened Pricing
  import opened Books
  import opened Services
  import opened Banking
  import opened Invariants
  import opened Runs
  import opened BankProofs
  import opened Reachability

  lemma {:induction false} LinesNeverRejected(products: seq<bool>, precision: nat, items: seq<LineInput>)
    requires precision <= 4
    ensures LinesOf(products, precision, items) != Err(DatabaseRejected)
  {
    hide Parse, Strip;
    if items != [] {
      LinesNeverRejected(products, precision, items[..|items| - 1]);
    }
  }

  lemma DraftNeverRejected(s: State, data: DraftData, base: Option<Invoice>)
    requires data.DraftData?
    ensures Drafted(s, data, base) != Err(DatabaseRejected)
  {
    hide LinesOf, Leq;
    forall items: seq<LineInput>
      ensures LinesOf(ArchivedFlags(s.products), s.company.precision, items) != Err(DatabaseRejected) {
      LinesNeverRejected(ArchivedFlags(s.products), s.company.precision, items);
    }
  }

  lemma SaveDraftNeverRejected(s: State, actor: Actor, data: DraftData, id: Option<nat>)
    ensures SaveDraft(s, actor, data, id).answer != Err(DatabaseRejected)
  {
    hide Drafted;
    if data.DraftData? {
      DraftNeverRejected(s, data, None);
      if id.Some? && id.value < |s.invoices| { DraftNeverRejected(s, data, Some(s.invoices[id.value])); }
    }
  }

  lemma SealNeverRejected(s: State, id: nat)
    requires id < |s.invoices|
    ensures SealDraft(s, id) != Err(DatabaseRejected)
  {
    hide Seal, NonZero;
  }

  lemma ValidateNeverRejected(s: State, actor: Actor, id: nat, key: Option<Key>, payload: Option<Payload>)
    ensures Validate(s, actor, id, key, payload).answer != Err(DatabaseRejected)
  {
    hide SaveDraft, SealDraft, Strip;
    if id < |s.invoices| {
      SaveDraftNeverRejected(s, actor, NO_CHANGES, Some(id));
      DraftKeepsRows(s, actor, id);
      SealNeverRejected(SaveDraft(s, actor, NO_CHANGES, Some(id)).state, id);
    }
  }

  lemma DraftKeepsRows(s: State, actor: Actor, id: nat)
    ensures |SaveDraft(s, actor, NO_CHANGES, Some(id)).state.invoices| == |s.invoices|
  {
    hide Drafted;
  }

  lemma DuplicateNeverRejected(s: State, actor: Actor, id: nat, key: Option<Key>, data: DatesData)
    ensures Duplicate(s, actor, id, key, data).answer != Err(DatabaseRejected)
  {
    hide SaveDraft, CopyOf, Strip;
    if data.DatesData? && data.issue.Given? && data.due.Given? && id < |s.invoices| {
      SaveDraftNeverRejected(s, actor, CopyOf(s.invoices[id], data.issue.value, data.due.value), None);
    }
  }

  lemma {:induction false} StatementNeverRejected(rows: seq<CsvRow>)
    ensures ReadRows(rows) != Err(DatabaseRejected)
  {
    hide Parse, Strip, Seen;
    if rows != [] {
      StatementNeverRejected(rows[..|rows| - 1]);
    }
  }

  lemma ImportNeverRejected(s: State, actor: Actor, account: nat, csv: Option<seq<CsvRow>>, confirm: bool,
                            digest: Option<Digest>)
    ensures Import(s, actor, account, csv, confirm, digest).answer != Err(DatabaseRejected)
  {
    hide ReadRows, Compatible, NewRows, Amounts;
    if csv.Some? { StatementNeverRejected(csv.value); }
  }

  lemma ConfigureNeverRejected(s: State, actor: Actor, data: CompanyData)
    ensures Configure(s, actor, data).answer != Err(DatabaseRejected)
  {}

  lemma SetPeriodNeverRejected(s: State, actor: Actor, data: PeriodData, id: Option<nat>)
    ensures SetPeriod(s, actor, data, id).answer != Err(DatabaseRejected)
  {
    hide Strip, PeriodUsed, OverlapsAnother;
  }

  /** Whether the answer to a call is a refusal of a trigger or a constraint. */
  predicate DatabaseRejects(s: State, call: Call) {
    match call
    case SaveDraftCall(actor, data, id) => SaveDraft(s, actor, data, id).answer == Err(DatabaseRejected)
    case ValidateCall(actor, id, key, payload) =>
      Validate(s, actor, id, ManualKey(key), payload).answer == Err(DatabaseRejected)
    case PayCall(actor, id, key, data) =>
      RecordPayment(s, actor, id, ManualKey(key), data).answer == Err(DatabaseRejected)
    case DuplicateCall(actor, id, key, data) =>
      Duplicate(s, actor, id, ManualKey(key), data).answer == Err(DatabaseRejected)
    case ConfigureCall(actor, data) => Configure(s, actor, data).answer == Err(DatabaseRejected)
    case PeriodCall(actor, data, id) => SetPeriod(s, actor, data, id).answer == Err(DatabaseRejected)
    case ImportCall(actor, account, csv, confirm, digest) =>
      Import(s, actor, account, csv, confirm, digest).answer == Err(DatabaseRejected)
    case ReconcileCall(actor, row, invoice) => Reconcile(s, actor, row, invoice).answer == Err(DatabaseRejected)
    case _ => false
  }

  /** In every reachable state, no service is refused by a trigger or a constraint, whatever it is asked. */
  lemma ServicesAreNeverRejected(s: State, call: Call)
    requires Reachable(s)
    ensures !DatabaseRejects(s, call)
  {
    hide SaveDraft, Validate, RecordPayment, Duplicate, Configure, SetPeriod, Import, Reconcile, Reachable, Inv, Moves,
      Reconciled;
    ReachableIsOk(s);
    match call
    case SaveDraftCall(actor, data, id) => SaveDraftNeverRejected(s, actor, data, id);
    case ValidateCall(actor, id, key, payload) => ValidateNeverRejected(s, actor, id, ManualKey(key), payload);
    case PayCall(actor, id, key, data) => RecordPaymentErrors(s, actor, id, ManualKey(key), data);
    case DuplicateCall(actor, id, key, data) => DuplicateNeverRejected(s, actor, id, ManualKey(key), data);
    case ConfigureCall(actor, data) => ConfigureNeverRejected(s, actor, data);
    case PeriodCall(actor, data, id) => SetPeriodNeverRejected(s, actor, data, id);
    case ImportCall(actor, account, csv, confirm, digest) =>
      ImportNeverRejected(s, actor, account, csv, confirm, digest);
    case ReconcileCall(actor, row, invoice) => ReconcileCreatesOnePayment(s, actor, row, invoice);
    case _ =>
  }
}
