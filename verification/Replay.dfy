/** Idempotency at any later state, closed periods, and the preview that foretells the snapshot. */
module Replay {
  import opened Basics
  import opened Decimal
  import opened Calculation
  import opened Pricing
  import opened Books
  import opened Services
  import opened Banking
  import opened Invariants
  import opened Runs
  import opened BankProofs
  import opened Reachability

  // ---- keys ----

  /** The key is remembered with this fingerprint. */
  predicate Spent(s: State, key: Key, mark: Fingerprint) {
    key in s.records && s.records[key].fingerprint == mark
  }

  lemma SpentStays(s: State, calls: seq<Call>, key: Key, mark: Fingerprint)
    requires Inv(s) && Spent(s, key, mark)
    ensures Spent(Run(s, calls), key, mark) && Run(s, calls).records[key] == s.records[key]
  {
    RunKeeps(s, calls);
  }

  /** A spent key changes nothing, whatever the request; and any other request under it is refused. */
  lemma SpentKeyChangesNothing(t: State, key: Key, mark: Fingerprint, actor: Actor, id: nat,
                               payload: Option<Payload>, payment: PaymentData, dates: DatesData)
    requires Spent(t, key, mark)
    ensures Validate(t, actor, id, Some(key), payload).state == t
    ensures payload.Some? && Fingerprint(ValidateAction, id, payload.value) != mark ==>
              Validate(t, actor, id, Some(key), payload).answer.Err?
    ensures RecordPayment(t, actor, id, Some(key), payment).state == t
    ensures RecordPayment(t, actor, id, Some(key), payment).answer.Ok? ==>
              payment.PaymentData? && id < |t.invoices| && PaymentRequest(t.invoices[id], payment).Ok?
              && PaymentMark(id, t.invoices[id], PaymentRequest(t.invoices[id], payment).value) == mark
    ensures Duplicate(t, actor, id, Some(key), dates).state == t
    ensures Duplicate(t, actor, id, Some(key), dates).answer.Ok? ==>
              dates.DatesData? && dates.issue.Given? && dates.due.Given?
              && Fingerprint(DuplicateAction, id, DatesPayload(dates.issue.value, dates.due.value)) == mark
  {
    hide PaymentRequest, CheckPeriod, Posting, SaveDraft, SealDraft, Strip, Paid;
  }

  /** Repeating a validation at any later state answers the same invoice and changes nothing. */
  lemma ValidateReplays(s: State, actor: Actor, id: nat, key: Option<string>, payload: Option<Payload>,
                        calls: seq<Call>)
    requires Reachable(s) && Validate(s, actor, id, ManualKey(key), payload).answer.Ok?
    ensures var t := Run(Validate(s, actor, id, ManualKey(key), payload).state, calls);
            Validate(t, actor, id, ManualKey(key), payload) == Outcome(t, Ok(id))
  {
    hide Inv, LedgerOk, SaveDraft, SealDraft, Strip;
    ReachableIsOk(s);
    var done := Validate(s, actor, id, ManualKey(key), payload).state;
    StepKeeps(s, ValidateCall(actor, id, key, payload));
    RunKeeps(done, calls);
    assert Spent(done, Manual(key.value), Fingerprint(ValidateAction, id, payload.value));
    SpentStays(done, calls, Manual(key.value), Fingerprint(ValidateAction, id, payload.value));
  }

  lemma DuplicateReplays(s: State, actor: Actor, id: nat, key: Option<string>, data: DatesData, calls: seq<Call>)
    requires Reachable(s) && Duplicate(s, actor, id, ManualKey(key), data).answer.Ok?
    ensures var first := Duplicate(s, actor, id, ManualKey(key), data);
            var t := Run(first.state, calls);
            Duplicate(t, actor, id, ManualKey(key), data) == Outcome(t, first.answer)
  {
    hide Inv, LedgerOk, SaveDraft, CopyOf, Strip;
    ReachableIsOk(s);
    var done := Duplicate(s, actor, id, ManualKey(key), data).state;
    StepKeeps(s, DuplicateCall(actor, id, key, data));
    RunKeeps(done, calls);
    SpentStays(done, calls, Manual(key.value),
               Fingerprint(DuplicateAction, id, DatesPayload(data.issue.value, data.due.value)));
  }

  /**
   Importing a statement again after any later run, by anybody who may and while the account is open,
   succeeds, finds every row on file and creates nothing.
   */
  lemma ReimportCreatesNothing(s: State, actor: Actor, account: nat, csv: Option<seq<CsvRow>>, digest: Option<Digest>,
                               calls: seq<Call>, again: Actor)
    requires Reachable(s) && Import(s, actor, account, csv, true, digest).answer.Ok? && Allowed(again, FINANCE)
    requires var t := Run(Import(s, actor, account, csv, true, digest).state, calls);
             account < |t.bankAccounts| ==> !t.bankAccounts[account].archived
    ensures var first := Import(s, actor, account, csv, true, digest);
            var t := Run(first.state, calls);
            Import(t, again, account, csv, true, digest)
            == Outcome(t, Ok(first.answer.value.(duplicates := first.answer.value.count, created := 0)))
  {
    hide Inv, Extends, Import, Reachable, Allowed, Step;
    ReachableIsOk(s);
    StepKeeps(s, ImportCall(actor, account, csv, true, digest));
    var u := Import(s, actor, account, csv, true, digest).state;
    assert Step(s, ImportCall(actor, account, csv, true, digest)) == u by {
      StepOfImport(s, actor, account, csv, digest);
    }
    RunKeeps(u, calls);
    ImportedStays(s, actor, account, csv, digest, Run(u, calls));
    FoundAgain(s, actor, account, csv, digest, Run(u, calls), again);
  }

  lemma StepOfImport(s: State, actor: Actor, account: nat, csv: Option<seq<CsvRow>>, digest: Option<Digest>)
    ensures Step(s, ImportCall(actor, account, csv, true, digest)) == Import(s, actor, account, csv, true, digest).state
  {
    hide Import;
  }

  /** Every row of the statement is on file in the accounts and rows of `t`. */
  ghost predicate OnFile(t: State, account: nat, rows: seq<BankRow>) {
    forall i :: 0 <= i < |rows| ==> Stored(t.bankRows, account, rows[i].externalId) == Some(rows[i])
  }

  lemma ImportedStays(s: State, actor: Actor, account: nat, csv: Option<seq<CsvRow>>, digest: Option<Digest>, t: State)
    requires Inv(s) && Import(s, actor, account, csv, true, digest).answer.Ok?
    requires Inv(t) && Extends(Import(s, actor, account, csv, true, digest).state, t)
    ensures OnFile(t, account, ParseCsv(csv).value)
    ensures account < |s.bankAccounts| && account < |t.bankAccounts|
    ensures s.bankAccounts[account].currency == t.bankAccounts[account].currency == t.company.currency
  {
    hide LedgerOk, ParseCsv, Allowed, RowsOk, NewRows, Amounts, MatchesOk, MatchesInjective, BankKeysUsed;
    var u := Import(s, actor, account, csv, true, digest).state;
    var rows := ParseCsv(csv).value;
    StatementOk(csv);
    assert u.bankRows == AfterImport(s.bankRows, account, rows);
    ImportedAreOnFile(s.bankRows, account, rows);
    forall i | 0 <= i < |rows| ensures Stored(t.bankRows, account, rows[i].externalId) == Some(rows[i]) {
      StoredKept(t.bankAccounts, u.bankRows, t.bankRows, account, rows[i].externalId);
    }
    assert ConfigurationInUse(u);
  }

  lemma FoundAgain(s: State, actor: Actor, account: nat, csv: Option<seq<CsvRow>>, digest: Option<Digest>, t: State,
                   again: Actor)
    requires Import(s, actor, account, csv, true, digest).answer.Ok?
    requires account < |s.bankAccounts| && account < |t.bankAccounts| && !t.bankAccounts[account].archived
             && Allowed(again, FINANCE)
    requires s.bankAccounts[account].currency == t.bankAccounts[account].currency == t.company.currency
    requires OnFile(t, account, ParseCsv(csv).value)
    ensures var first := Import(s, actor, account, csv, true, digest).answer.value;
            Import(t, again, account, csv, true, digest)
            == Outcome(t, Ok(first.(duplicates := first.count, created := 0)))
  {
    hide ParseCsv, Allowed, Amounts;
    var rows := ParseCsv(csv).value;
    NothingNew(t.bankRows, account, rows);
    assert Unmatched(account, []) == [] && t.bankRows + [] == t.bankRows;
  }

  /** Two inputs that denote the same number, however many zeros they are written with. */
  ghost predicate SameNumber(a: Raw, b: Raw) {
    a.Number? && b.Number? && exists k: nat, n :: Is(a.d, k, n) && Is(b.d, k, n)
  }

  lemma IsCoarser(d: Dec, k: nat, n: int, j: nat)
    requires Is(d, k + j, n * Pow10(j))
    ensures Is(d, k, n)
  {
    if d.exp + k >= 0 {
      Pow10Add(d.exp + k, j);
      MulAssoc(d.coef, Pow10(d.exp + k), Pow10(j));
      SameFactor(d.coef * Pow10(d.exp + k), n, Pow10(j));
    } else if d.exp + k + j >= 0 {
      var y := -(d.exp + k);
      Pow10Add(y, d.exp + k + j);
      MulAssoc(n, Pow10(y), Pow10(d.exp + k + j));
      SameFactor(d.coef, n * Pow10(y), Pow10(d.exp + k + j));
    } else {
      Pow10Add(j, -(d.exp + k + j));
      MulAssoc(n, Pow10(j), Pow10(-(d.exp + k + j)));
    }
  }

  lemma SameFactor(x: int, y: int, m: nat)
    requires m > 0 && x * m == y * m
    ensures x == y
  {
    ScaleOrder(x, y, m);
  }

  lemma SameNumberParses(a: Raw, b: Raw, places: Places)
    requires SameNumber(a, b) && Parse(DEFAULT_DIGITS, a, places, 0, MAX_AMOUNT, true).Some?
    ensures Parse(DEFAULT_DIGITS, b, places, 0, MAX_AMOUNT, true)
            == Parse(DEFAULT_DIGITS, a, places, 0, MAX_AMOUNT, true)
  {
    Powers();
    var n := Parse(DEFAULT_DIGITS, a, places, 0, MAX_AMOUNT, true).value;
    ParseIff(DEFAULT_DIGITS, a, places, 0, MAX_AMOUNT, true, n);
    var k: nat, m :| Is(a.d, k, m) && Is(b.d, k, m);
    SameScale(a.d, b.d, k, m, places, n);
    ParseIff(DEFAULT_DIGITS, b, places, 0, MAX_AMOUNT, true, n);
  }

  lemma SameScale(a: Dec, b: Dec, k: nat, m: int, places: nat, n: int)
    requires Is(a, k, m) && Is(b, k, m) && Is(a, places, n)
    ensures Is(b, places, n)
  {
    hide Is;
    IsFiner(a, k, m, places);
    IsFiner(b, k, m, places);
    IsFiner(a, places, n, k);
    IsUnique(a, k + places, m * Pow10(places), n * Pow10(k));
    IsCoarser(b, places, n, k);
  }

  /**
   Repeating a payment at any later state, with a numerically equal amount, succeeds and changes
   nothing: the checks made before the key is looked up still pass because the invoice is frozen.
   */
  lemma PaymentReplays(s: State, actor: Actor, id: nat, key: Option<string>, data: PaymentData, again: PaymentData,
                       calls: seq<Call>)
    requires Reachable(s) && RecordPayment(s, actor, id, ManualKey(key), data).answer.Ok?
    requires again.PaymentData? && data.PaymentData? && SameNumber(data.amount, again.amount)
    requires again.date == data.date && again.reference == data.reference
    ensures var t := Run(RecordPayment(s, actor, id, ManualKey(key), data).state, calls);
            RecordPayment(t, actor, id, ManualKey(key), again) == Outcome(t, Ok(id))
  {
    hide Inv, LedgerOk, SameNumber, Strip, Parse, CheckPeriod, Posting, Paid;
    ReachableIsOk(s);
    var inv := s.invoices[id];
    var done := RecordPayment(s, actor, id, ManualKey(key), data).state;
    StepKeeps(s, PayCall(actor, id, key, data));
    RunKeeps(done, calls);
    SameNumberParses(data.amount, again.amount, PlacesOf(inv));
    assert PaymentRequest(inv, again) == PaymentRequest(inv, data);
    SpentStays(done, calls, Manual(key.value), PaymentMark(id, inv, PaymentRequest(inv, data).value.(invoice := id)));
  }

  // ---- closed periods ----

  ghost predicate GainsOnlyOpen(s: State, t: State) {
    s.entries <= t.entries
    && forall k :: |s.entries| <= k < |t.entries| ==>
         t.entries[k].period < |s.periods| && !s.periods[t.entries[k].period].closed
  }

  lemma ValidatePosts(s: State, actor: Actor, id: nat, key: Option<Key>, payload: Option<Payload>)
    ensures GainsOnlyOpen(s, Validate(s, actor, id, key, payload).state)
  {
    hide Drafted, Posting, Sealed, Strip, PeriodOf;
  }

  lemma PaymentPosts(s: State, actor: Actor, id: nat, key: Option<Key>, data: PaymentData)
    ensures GainsOnlyOpen(s, RecordPayment(s, actor, id, key, data).state)
  {
    hide PaymentRequest, Posting, PaymentMark, Strip, PeriodOf, Paid;
  }

  lemma OtherCallsPostNothing(s: State, call: Call)
    requires !call.ValidateCall? && !call.PayCall? && !call.ReconcileCall?
    ensures Step(s, call).entries == s.entries
  {
    hide Drafted, ParseCsv, Compatible, NewRows, Known, Strip, CopyOf, PeriodUsed, OverlapsAnother, CurrencyOk;
  }

  /** No request adds an entry to a period that is closed. */
  lemma ClosedPeriodGainsNothing(s: State, call: Call)
    ensures GainsOnlyOpen(s, Step(s, call))
  {
    hide Validate, RecordPayment, SaveDraft, Duplicate, Configure, SetPeriod, Import, Receive, BankPayment,
      LastPayment, PaymentsAbove;
    match call {
      case ValidateCall(actor, id, key, payload) => ValidatePosts(s, actor, id, ManualKey(key), payload);
      case PayCall(actor, id, key, data) => PaymentPosts(s, actor, id, ManualKey(key), data);
      case ReconcileCall(actor, row, invoice) =>
        if row < |s.bankRows| {
          PaymentPosts(s, actor, invoice, Some(BankKey(row)), BankPayment(row, s.bankRows[row]));
        }
      case _ => OtherCallsPostNothing(s, call);
    }
  }

  // ---- preview ----

  lemma AbsentTexts(base: seq<string>)
    requires |base| == |TEXT_LIMITS| && forall i :: 0 <= i < |TEXT_LIMITS| ==> |base[i]| <= TEXT_LIMITS[i]
    ensures TextsFrom(NO_CHANGES.texts, base) == Ok(base)
  {
    assert seq(|base|, i requires 0 <= i < |base| =>
      if NO_CHANGES.texts[i].Given? then NO_CHANGES.texts[i].value else base[i]) == base;
  }

  /** Saving a draft without changes recalculates its lines and keeps everything else. */
  lemma UnchangedDraft(s: State, inv: Invoice)
    requires DocumentOk(inv, |s.customers|, |s.products|) && DraftOk(inv)
    requires Drafted(s, NO_CHANGES, Some(inv)).Ok?
    ensures var lines := Calculated(ArchivedFlags(s.products), s.company.precision, RereadAll(inv.lines));
            && lines.Ok?
            && var net, tax := Sum(Nets(lines.value)), Sum(Taxes(lines.value));
            Drafted(s, NO_CHANGES, Some(inv)).value == inv.(lines := lines.value, net := net, tax := tax,
                                                            total := net + tax)
  {
    hide Calculated, LinesOk, AmountsOk, TextsFrom;
    AbsentTexts(inv.texts);
  }

  /**
   The preview of a draft is the snapshot that an immediately following validation freezes, apart
   from the number and the status.
   */
  lemma PreviewForetellsSnapshot(s: State, reader: Actor, actor: Actor, id: nat, key: Option<Key>,
                                 payload: Option<Payload>)
    requires Reachable(s) && Allowed(reader, EVERYONE) && id < |s.invoices| && s.invoices[id].status == Draft
    requires Validate(s, actor, id, key, payload).answer.Ok? && Validate(s, actor, id, key, payload).state != s
    ensures var frozen := Validate(s, actor, id, key, payload).state.invoices[id];
            Preview(s, reader, id).Ok?
            && frozen.snapshot == Some(Preview(s, reader, id).value.(number := frozen.number, status := Validated))
  {
    hide Inv, Validate, Preview, Reachable;
    ReachableIsOk(s);
    ReachableDraft(s, id);
    FrozenSnapshot(s, actor, id, key, payload);
    PreviewOfDraft(s, reader, id);
  }

  /** The draft that a validation saves and freezes. */
  function Resaved(s: State, inv: Invoice): Result<Invoice> { Drafted(s, NO_CHANGES, Some(inv)) }

  lemma FrozenSnapshot(s: State, actor: Actor, id: nat, key: Option<Key>, payload: Option<Payload>)
    requires id < |s.invoices| && s.invoices[id].status == Draft
    requires Validate(s, actor, id, key, payload).answer.Ok? && Validate(s, actor, id, key, payload).state != s
    ensures Resaved(s, s.invoices[id]).Ok?
    ensures id < |Validate(s, actor, id, key, payload).state.invoices|
    ensures Validate(s, actor, id, key, payload).state.invoices[id]
            == Sealed(PutDraft(s, Some(id), Resaved(s, s.invoices[id]).value), Resaved(s, s.invoices[id]).value)
  {
    hide Drafted, CheckPeriod, Posting, Strip, Sealed;
  }

  lemma PreviewOfDraft(s: State, reader: Actor, id: nat)
    requires Allowed(reader, EVERYONE) && id < |s.invoices| && s.invoices[id].status == Draft
    requires DocumentOk(s.invoices[id], |s.customers|, |s.products|) && DraftOk(s.invoices[id])
    requires Resaved(s, s.invoices[id]).Ok?
    ensures var draft := Resaved(s, s.invoices[id]).value;
            var frozen := Sealed(PutDraft(s, Some(id), draft), draft);
            Preview(s, reader, id).Ok?
            && frozen.snapshot == Some(Preview(s, reader, id).value.(number := frozen.number, status := Validated))
  {
    hide Drafted, Calculated, Money, LineSnapshot;
    UnchangedDraft(s, s.invoices[id]);
  }

  lemma ReachableDraft(s: State, id: nat)
    requires Inv(s) && id < |s.invoices| && s.invoices[id].status == Draft
    ensures DocumentOk(s.invoices[id], |s.customers|, |s.products|) && DraftOk(s.invoices[id])
  {
    InvoicesDocuments(s);
    assert InvoiceOk(s, s.invoices[id]);
  }
}
