/** What validating, previewing and paying an invoice answer and change, said from the request and the rows. */
module LedgerAnswers {
  import opened Basics
  import opened Decimal
  import opened Calculation
  import opened Pricing
  import opened Numbering
  import opened Books
  import opened Services
  import opened Invariants
  import opened Preservation
  import opened Runs
  import opened Reachability
  import opened Reading
  import opened DraftAnswers

  // ---- common conditions ----

  predicate MayPost(actor: Actor) { actor.active && actor.role in {Admin, Accountant} }

  /** The period contains the day and is open. */
  predicate OpenOn(s: State, p: nat, d: Date) {
    p < |s.periods| && Leq(s.periods[p].start, d) && Leq(d, s.periods[p].end) && !s.periods[p].closed
  }

  lemma PeriodExactly(s: State, d: Date, p: nat)
    requires PeriodsOk(s.periods)
    ensures CheckPeriod(s, d) == Ok(p) <==> OpenOn(s, p, d)
    ensures CheckPeriod(s, d) == Err(PeriodMissing) <==> forall q :: 0 <= q < |s.periods| ==> !InPeriod(s.periods[q], d)
    ensures CheckPeriod(s, d) == Err(PeriodClosed) <==>
            exists q :: 0 <= q < |s.periods| && InPeriod(s.periods[q], d) && s.periods[q].closed
    ensures CheckPeriod(s, d).Err? ==> CheckPeriod(s, d).error in {PeriodMissing, PeriodClosed}
  {
    hide Leq;
    var q := PeriodOf(s.periods, d);
    if q.Some? {
      forall k | 0 <= k < |s.periods| && InPeriod(s.periods[k], d) ensures k == q.value {
        UniquePeriod(s.periods, k, q.value, d);
      }
    }
  }

  // ---- validation ----

  /** The lines of the entry of an invoice: receivable against revenue, and tax when there is any. */
  function InvoiceLines(inv: Invoice): seq<EntryLine> {
    [EntryLine(Receivable, inv.total, 0), EntryLine(Revenue, 0, inv.net)]
    + (if inv.tax == 0 then [] else [EntryLine(Tax, 0, inv.tax)])
  }

  predicate PostsInvoice(s: State, inv: Invoice) {
    && SalesJournal in s.journals && Receivable in s.accounts && Revenue in s.accounts
    && (inv.tax == 0 || Tax in s.accounts)
  }

  lemma InvoiceLinesExactly(inv: Invoice)
    requires 0 < inv.total == inv.net + inv.tax && 0 <= inv.tax <= inv.net
    ensures NonZero(InvoiceValues(inv)) == InvoiceLines(inv)
  {
    NonZeroThree(InvoiceValues(inv));
  }

  /** The product references of the frozen lines are those of the products, or empty. */
  ghost predicate ReferencesTold(t: Snapshot, inv: Invoice, products: seq<Product>) {
    && |t.lines| == |inv.lines|
    && forall k :: 0 <= k < |inv.lines| ==>
         t.lines[k].productReference ==
         match inv.lines[k].product
         case None => ""
         case Some(p) => if p < |products| then products[p].reference else ""
  }

  /** A document told from the rows of the moment: its contents, its issuer, its customer and its products. */
  ghost predicate ToldNow(s: State, t: Snapshot, inv: Invoice) {
    && DocumentTells(t, inv, s.company.precision) && ReferencesTold(t, inv, s.products)
    && t.issuer == s.company.profile && inv.customer < |s.customers| && t.customer == s.customers[inv.customer].party
    && t.number == inv.number && t.currency == s.company.currency
  }

  /** The draft as it is priced now: what validation stores and preview shows. */
  ghost predicate Repriced(s: State, was: Invoice, inv: Invoice) {
    && inv == was.(lines := inv.lines, net := inv.net, tax := inv.tax, total := inv.total)
    && AllPricedAgain(ArchivedFlags(s.products), s.company.precision, was.lines, inv.lines) && FreshDraft(inv)
  }

  /** The validated form of a repriced draft. */
  ghost predicate SealedFrom(s: State, draft: Invoice, inv: Invoice) {
    && inv == draft.(status := Validated, number := NumberText(draft.issue.year, Counter(s.counters, draft.issue.year)),
                     precision := Some(s.company.precision), currency := s.company.currency, snapshot := inv.snapshot)
    && inv.snapshot.Some? && ToldNow(s, inv.snapshot.value, inv) && inv.snapshot.value.status == Validated
  }

  lemma RedraftExactly(s: State, was: Invoice, inv: Invoice)
    requires DocumentOk(was, |s.customers|, |s.products|) && DraftOk(was)
    ensures DraftFor(s, NO_CHANGES, Some(was), inv) <==> Repriced(s, was, inv) && CustomerActive(s, was.customer)
  {
    hide AllPricedAgain, Sane, AmountsOk;
    if DraftFor(s, NO_CHANGES, Some(was), inv) {
      forall i | 0 <= i < |TEXT_LIMITS| ensures inv.texts[i] == was.texts[i] {
        assert Taken(NO_CHANGES.texts[i], OldText(Some(was), i), inv.texts[i]);
      }
      assert inv.texts == was.texts;
    }
    if AllPricedAgain(ArchivedFlags(s.products), s.company.precision, was.lines, inv.lines) {
      SameCount(s, was, inv.lines);
    }
  }

  lemma RepricedIsSound(s: State, was: Invoice, inv: Invoice)
    requires DocumentOk(was, |s.customers|, |s.products|) && Repriced(s, was, inv)
    ensures LinesPriced(inv.lines, s.company.precision) && 0 <= inv.tax <= inv.net
    ensures forall k :: 0 <= k < |inv.lines| ==> Sane(inv.lines[k])
  {
    hide RoundedHalfUp, PricedAt;
    forall k | 0 <= k < |inv.lines| ensures PricedAt(s.company.precision, inv.lines[k]) && Sane(inv.lines[k]) {
      assert PricedAgain(ArchivedFlags(s.products), s.company.precision, was.lines[k], inv.lines[k]);
      RoundedExactly(inv.lines[k], s.company.precision);
      PricedIsSane(inv.lines[k], s.company.precision);
    }
    LinesAmounts(inv.lines);
  }

  lemma PricedIsSane(line: Line, precision: Places)
    requires PricedAt(precision, line) && LineInRange(line.quantity, line.unitPrice, line.taxRate, line.discountRate)
    ensures 0 <= line.tax <= line.net
  {
    PriceIsSane(precision, line.product, line.description, line.quantity, line.unitPrice, line.taxRate,
                line.discountRate);
  }

  lemma SealedIsTold(s: State, draft: Invoice)
    requires LinesPriced(draft.lines, s.company.precision) && FreshDraft(draft) && draft.customer < |s.customers|
    requires forall k :: 0 <= k < |draft.lines| ==> Sane(draft.lines[k])
    requires s.company.currency != ""
    ensures SealedFrom(s, draft, Sealed(s, draft))
  {
    hide DocumentTells, SnapshotOf, PricedAt, Sane, NumberText;
    var inv := Sealed(s, draft);
    var numbered := inv.(snapshot := None);
    DocumentTold(s.company, PartyOf(s.customers, draft.customer), s.products, numbered, s.company.precision);
    SnapshotHeader(s.company, PartyOf(s.customers, draft.customer), s.products, numbered);
    SameTold(inv.snapshot.value, numbered, inv, s.company.precision);
    ReferencesAreTold(s.company, PartyOf(s.customers, draft.customer), s.products, numbered);
  }

  lemma ReferencesAreTold(company: Company, party: Party, products: seq<Product>, inv: Invoice)
    ensures ReferencesTold(SnapshotOf(company, party, products, inv), inv, products)
  {
    hide Money;
  }

  /** A snapshot is determined by what it tells. */
  lemma ToldOnce(s: State, t: Snapshot, u: Snapshot, inv: Invoice)
    requires ToldNow(s, t, inv) && ToldNow(s, u, inv) && t.status == u.status
    ensures t == u
  {
    forall k | 0 <= k < |inv.lines| ensures t.lines[k] == u.lines[k] {
      assert LineTells(t.lines[k], inv.lines[k], s.company.precision)
          && LineTells(u.lines[k], inv.lines[k], s.company.precision);
      DenotesOnce(t.lines[k].net, u.lines[k].net, inv.lines[k].net, s.company.precision);
      DenotesOnce(t.lines[k].tax, u.lines[k].tax, inv.lines[k].tax, s.company.precision);
      DenotesOnce(t.lines[k].total, u.lines[k].total, inv.lines[k].net + inv.lines[k].tax, s.company.precision);
    }
    assert t.lines == u.lines;
    DenotesOnce(t.net, u.net, inv.net, s.company.precision);
    DenotesOnce(t.tax, u.tax, inv.tax, s.company.precision);
    DenotesOnce(t.total, u.total, inv.total, s.company.precision);
  }

  lemma DenotesOnce(a: Printed, b: Printed, amount: int, places: Places)
    requires Denotes(a, amount, places) && Denotes(b, amount, places)
    ensures a == b
  {
    ScaleOrder(a.units, b.units, Quantum(places));
    ScaleOrder(b.units, a.units, Quantum(places));
  }

  /** What validation changes: the row, the counter of its year, one entry, and the record of the key. */
  function AfterValidation(s: State, id: nat, key: Key, inv: Invoice, p: nat): State
    requires id < |s.invoices|
  {
    s.(invoices := s.invoices[id := inv],
       counters := s.counters[inv.issue.year := Counter(s.counters, inv.issue.year) + 1],
       entries := s.entries + [Entry(id, None, inv.issue, inv.number, SalesJournal, p, InvoiceEntry,
                                     InvoiceLines(inv))],
       records := s.records[key := Record(id, Fingerprint(ValidateAction, id, EmptyPayload))])
  }

  /** What a validation needs, beside a repriced draft with a positive total. */
  ghost predicate MayValidate(s: State, actor: Actor, id: nat, key: Option<Key>, payload: Option<Payload>) {
    && MayPost(actor) && id < |s.invoices| && payload == Some(EmptyPayload) && key.Some? && KeyUsable(key.value)
    && s.invoices[id].status == Draft && CustomerActive(s, s.invoices[id].customer)
  }

  ghost predicate ValidatesAs(s: State, id: nat, draft: Invoice, p: nat)
    requires id < |s.invoices|
  {
    Repriced(s, s.invoices[id], draft) && draft.total > 0 && OpenOn(s, p, draft.issue) && PostsInvoice(s, draft)
  }

  lemma PeriodsAreOk(s: State)
    requires Inv(s)
    ensures PeriodsOk(s.periods) && s.company.currency != ""
  {}

  lemma DraftIsOk(s: State, id: nat)
    requires Inv(s) && id < |s.invoices| && s.invoices[id].status == Draft
    ensures DocumentOk(s.invoices[id], |s.customers|, |s.products|) && DraftOk(s.invoices[id])
  {
    assert InvoiceOk(s, s.invoices[id]);
  }

  /** The recalculation inside a validation stores the repriced draft, or refuses. */
  lemma ResavedExactly(s: State, actor: Actor, id: nat, draft: Invoice)
    requires Reachable(s) && MayPost(actor) && id < |s.invoices| && s.invoices[id].status == Draft
    ensures SaveDraft(s, actor, NO_CHANGES, Some(id)) == Outcome(s.(invoices := s.invoices[id := draft]), Ok(id)) <==>
            Repriced(s, s.invoices[id], draft) && CustomerActive(s, s.invoices[id].customer)
  {
    hide Inv, SaveDraft, DraftFor, Repriced, Reachable;
    ReachableIsOk(s);
    DraftIsOk(s, id);
    SaveDraftExactly(s, actor, NO_CHANGES, Some(id), draft);
    RedraftExactly(s, s.invoices[id], draft);
  }

  /** What a saved draft is: the row at its place, and nothing else changed. */
  lemma ResavedIs(s: State, actor: Actor, id: nat) returns (draft: Invoice)
    requires id < |s.invoices| && SaveDraft(s, actor, NO_CHANGES, Some(id)).answer.Ok?
    ensures SaveDraft(s, actor, NO_CHANGES, Some(id)) == Outcome(s.(invoices := s.invoices[id := draft]), Ok(id))
  {
    hide Drafted;
    draft := Drafted(s, NO_CHANGES, Some(s.invoices[id])).value;
  }

  lemma SealExactly(s: State, id: nat, draft: Invoice, p: nat)
    requires Inv(s) && id < |s.invoices| && s.invoices[id].status == Draft
    requires Repriced(s, s.invoices[id], draft)
    ensures var t := s.(invoices := s.invoices[id := draft]);
            (draft.total > 0 && OpenOn(s, p, draft.issue) && PostsInvoice(s, draft)) <==>
            (SealDraft(t, id).Ok? && CheckPeriod(s, draft.issue) == Ok(p))
    ensures var t := s.(invoices := s.invoices[id := draft]); var inv := Sealed(s, draft);
            draft.total > 0 && OpenOn(s, p, draft.issue) && PostsInvoice(s, draft) ==>
              SealDraft(t, id) == Ok(s.(
                invoices := s.invoices[id := inv],
                counters := s.counters[inv.issue.year := Counter(s.counters, inv.issue.year) + 1],
                entries := s.entries + [Entry(id, None, inv.issue, inv.number, SalesJournal, p, InvoiceEntry,
                                              InvoiceLines(inv))]))
  {
    hide Inv, Posting, CheckPeriod, OpenOn, Repriced, SnapshotOf, NumberText, NonZero, InvoiceValues;
    DraftIsOk(s, id);
    PeriodsAreOk(s);
    PeriodExactly(s, draft.issue, p);
    RepricedIsSound(s, s.invoices[id], draft);
    RepricedSums(s, s.invoices[id], draft);
    var t := s.(invoices := s.invoices[id := draft]);
    assert CheckPeriod(t, draft.issue) == CheckPeriod(s, draft.issue) by { SamePeriods(s, t, draft.issue); }
    if draft.total > 0 {
      InvoicePostingAccepted(t, draft);
      InvoiceLinesExactly(draft);
      assert InvoiceLines(Sealed(s, draft)) == InvoiceLines(draft);
      assert Sealed(t, draft) == Sealed(s, draft);
      assert t.invoices[id := Sealed(s, draft)] == s.invoices[id := Sealed(s, draft)];
    }
  }

  lemma SamePeriods(s: State, t: State, d: Date)
    requires t.periods == s.periods
    ensures CheckPeriod(t, d) == CheckPeriod(s, d)
  {}

  lemma RepricedSums(s: State, was: Invoice, inv: Invoice)
    requires Repriced(s, was, inv)
    ensures inv.total == inv.net + inv.tax && FreshDraft(inv) && inv.customer == was.customer && inv.issue == was.issue
  {}

  /**
   In every reachable state and under a new key: a validation is accepted exactly when it may be, the draft as priced
   now has a positive total, its day lies in an open period, and the accounts and the journal exist; and it then
   numbers, freezes and posts the document as told here.
   */
  lemma ValidateExactly(s: State, actor: Actor, id: nat, key: Option<Key>, payload: Option<Payload>, draft: Invoice,
                        inv: Invoice, p: nat)
    requires Reachable(s) && (key.Some? ==> key.value !in s.records)
    ensures MayValidate(s, actor, id, key, payload) && ValidatesAs(s, id, draft, p) && SealedFrom(s, draft, inv) ==>
              Validate(s, actor, id, key, payload) == Outcome(AfterValidation(s, id, key.value, inv, p), Ok(id))
    ensures Validate(s, actor, id, key, payload).answer.Ok? <==>
              MayValidate(s, actor, id, key, payload) && exists d, q :: ValidatesAs(s, id, d, q)
  {
    hide Inv, SaveDraft, SealDraft, KeyOk, KeyUsable, Repriced, OpenOn, PostsInvoice, Sealed, SealedFrom,
      InvoiceLines, Reachable;
    ReachableIsOk(s);
    KeyExactly(key);
    if MayPost(actor) && id < |s.invoices| && s.invoices[id].status == Draft {
      PeriodsAreOk(s);
      DraftIsOk(s, id);
      if Repriced(s, s.invoices[id], draft) && CustomerActive(s, s.invoices[id].customer) {
        ResavedExactly(s, actor, id, draft);
        SealExactly(s, id, draft, p);
        if ValidatesAs(s, id, draft, p) && SealedFrom(s, draft, inv) { SealedIs(s, id, draft, inv); }
      }
      ValidateDecides(s, actor, id, key, payload);
    }
  }

  lemma SealedIs(s: State, id: nat, draft: Invoice, inv: Invoice)
    requires Inv(s) && id < |s.invoices| && s.invoices[id].status == Draft && CustomerActive(s, s.invoices[id].customer)
    requires Repriced(s, s.invoices[id], draft) && SealedFrom(s, draft, inv)
    ensures inv == Sealed(s, draft)
  {
    hide Inv, NumberText, ToldNow, SnapshotOf;
    DraftIsOk(s, id);
    PeriodsAreOk(s);
    RepricedIsSound(s, s.invoices[id], draft);
    RepricedSums(s, s.invoices[id], draft);
    SealedIsTold(s, draft);
    var other := Sealed(s, draft);
    var a, b := inv.snapshot.value, other.snapshot.value;
    assert ToldNow(s, a, other) by { ToldApart(s, a, inv, other); }
    ToldOnce(s, a, b, other);
  }

  lemma ToldApart(s: State, t: Snapshot, inv: Invoice, other: Invoice)
    requires ToldNow(s, t, inv) && other == inv.(snapshot := other.snapshot)
    ensures ToldNow(s, t, other)
  {}

  /** Whether a validation of a draft under a new key is accepted. */
  lemma ValidateDecides(s: State, actor: Actor, id: nat, key: Option<Key>, payload: Option<Payload>)
    requires Reachable(s) && Inv(s) && (key.Some? ==> key.value !in s.records)
    requires MayPost(actor) && id < |s.invoices| && s.invoices[id].status == Draft
    ensures Validate(s, actor, id, key, payload).answer.Ok? <==>
              MayValidate(s, actor, id, key, payload) && exists d, q :: ValidatesAs(s, id, d, q)
  {
    hide Inv, SaveDraft, SealDraft, KeyOk, KeyUsable, Repriced, OpenOn, PostsInvoice, CheckPeriod, InvoiceLines,
      Sealed, Reachable;
    KeyExactly(key);
    var saved := SaveDraft(s, actor, NO_CHANGES, Some(id));
    if saved.answer.Ok? {
      var draft := ResavedIs(s, actor, id);
      ResavedExactly(s, actor, id, draft);
      if SealDraft(saved.state, id).Ok? {
        var q := OpenPeriodOf(saved.state, id, s, draft);
        SealExactly(s, id, draft, q);
        assert ValidatesAs(s, id, draft, q);
      }
    }
    if MayValidate(s, actor, id, key, payload) && exists d, q :: ValidatesAs(s, id, d, q) {
      var d, q :| ValidatesAs(s, id, d, q);
      ResavedExactly(s, actor, id, d);
      SealExactly(s, id, d, q);
    }
  }

  lemma OpenPeriodOf(t: State, id: nat, s: State, draft: Invoice) returns (q: nat)
    requires id < |s.invoices| && t == s.(invoices := s.invoices[id := draft]) && SealDraft(t, id).Ok?
    ensures CheckPeriod(s, draft.issue) == Ok(q)
  {
    hide Posting, Seal, InvoiceValues;
    q := CheckPeriod(t, draft.issue).value;
  }

  /** An accepted validation stores the document as told here. */
  lemma ValidateMakes(s: State, actor: Actor, id: nat, key: Option<Key>, payload: Option<Payload>)
    returns (draft: Invoice, inv: Invoice, p: nat)
    requires Reachable(s) && (key.Some? ==> key.value !in s.records)
    requires Validate(s, actor, id, key, payload).answer.Ok?
    ensures id < |s.invoices| && key.Some? && ValidatesAs(s, id, draft, p) && SealedFrom(s, draft, inv)
    ensures Validate(s, actor, id, key, payload) == Outcome(AfterValidation(s, id, key.value, inv, p), Ok(id))
  {
    hide Inv, Validate, Repriced, OpenOn, PostsInvoice, SealedFrom, Sealed, AfterValidation, Reachable, KeyUsable, Sane;
    ReachableIsOk(s);
    ValidatedExists(s, actor, id, key, payload);
    ValidateExactly(s, actor, id, key, payload, s.invoices[id], s.invoices[id], 0);
    draft, p :| ValidatesAs(s, id, draft, p);
    inv := Sealed(s, draft);
    DraftIsOk(s, id);
    PeriodsAreOk(s);
    RepricedIsSound(s, s.invoices[id], draft);
    RepricedSums(s, s.invoices[id], draft);
    CustomerIsThere(s, id);
    SealedIsTold(s, draft);
    ValidateExactly(s, actor, id, key, payload, draft, inv, p);
  }

  lemma ValidatedExists(s: State, actor: Actor, id: nat, key: Option<Key>, payload: Option<Payload>)
    requires Validate(s, actor, id, key, payload).answer.Ok?
    ensures id < |s.invoices|
  {}

  lemma CustomerIsThere(s: State, id: nat)
    requires id < |s.invoices| && CustomerActive(s, s.invoices[id].customer)
    ensures s.invoices[id].customer < |s.customers|
  {}

  /** In every reachable state the frozen document tells the validated invoice, amount by amount and line by line. */
  lemma SnapshotTells(s: State, i: nat)
    requires Reachable(s) && i < |s.invoices| && s.invoices[i].status == Validated
    ensures var inv := s.invoices[i]; var p := s.company.precision;
            && inv.snapshot.Some? && inv.precision == Some(p)
            && var t := inv.snapshot.value;
            && t.number == inv.number && t.status == Validated && t.issue == inv.issue && t.due == inv.due
            && t.language == inv.language && t.texts == inv.texts && t.currency == inv.currency && t.precision == p
            && t.net.units * Quantum(p) == inv.net && t.tax.units * Quantum(p) == inv.tax
            && t.total.units * Quantum(p) == inv.total && |t.lines| == |inv.lines|
            && (forall k :: 0 <= k < |inv.lines| ==>
                  && t.lines[k].net.units * Quantum(p) == inv.lines[k].net
                  && t.lines[k].tax.units * Quantum(p) == inv.lines[k].tax
                  && t.lines[k].total.units * Quantum(p) == inv.lines[k].net + inv.lines[k].tax
                  && t.lines[k].description == inv.lines[k].description
                  && t.lines[k].quantity == Printed(inv.lines[k].quantity, 6)
                  && t.lines[k].unitPrice == Printed(inv.lines[k].unitPrice, 6)
                  && t.lines[k].taxRate == Printed(inv.lines[k].taxRate, 4)
                  && t.lines[k].discountRate == Printed(inv.lines[k].discountRate, 4))
  {
    hide Reachable, Sane;
    ReachableIsOk(s);
    ValidatedIsSealed(s, i);
    var inv := s.invoices[i];
    forall k | 0 <= k < |inv.lines| ensures LineTells(inv.snapshot.value.lines[k], inv.lines[k], s.company.precision) {}
  }

  lemma ValidatedIsSealed(s: State, i: nat)
    requires Inv(s) && i < |s.invoices| && s.invoices[i].status == Validated
    ensures SealedOk(s.invoices[i], s.company)
  {
    assert InvoiceOk(s, s.invoices[i]);
  }

  // ---- preview ----

  /**
   In every reachable state: the preview of a draft tells the draft as priced now, that of a document what was frozen.
   */
  lemma PreviewExactly(s: State, actor: Actor, id: nat, t: Snapshot)
    requires Reachable(s)
    ensures Preview(s, actor, id) == Ok(t) <==>
            && actor.active && id < |s.invoices|
            && if s.invoices[id].status == Validated then s.invoices[id].snapshot == Some(t)
               else t.status == Draft && exists d :: Repriced(s, s.invoices[id], d) && ToldNow(s, t, d)
  {
    hide Inv, SnapshotOf, Repriced, ToldNow, Calculated, AllPricedAgain, Reachable;
    ReachableIsOk(s);
    EveryoneReads(actor);
    if actor.active && id < |s.invoices| {
      if s.invoices[id].status == Validated {
        assert s.invoices[id].snapshot.Some? by { FrozenIsThere(s, id); }
      } else {
        PreviewOfDraftExactly(s, actor, id, t);
      }
    }
  }

  lemma EveryoneReads(actor: Actor)
    ensures Allowed(actor, EVERYONE) <==> actor.active
  {
    match actor.role
    case Admin =>
    case Accountant =>
    case Sales =>
    case Viewer =>
  }

  lemma FrozenIsThere(s: State, id: nat)
    requires Inv(s) && id < |s.invoices| && s.invoices[id].status == Validated
    ensures s.invoices[id].snapshot.Some?
  {
    assert InvoiceOk(s, s.invoices[id]);
  }

  function Summed(was: Invoice, lines: seq<Line>): Invoice {
    was.(lines := lines, net := Sum(Nets(lines)), tax := Sum(Taxes(lines)),
         total := Sum(Nets(lines)) + Sum(Taxes(lines)))
  }

  lemma RepricedLines(s: State, was: Invoice, d: Invoice)
    requires DocumentOk(was, |s.customers|, |s.products|) && DraftOk(was)
    ensures Repriced(s, was, d) <==>
            d == Summed(was, d.lines)
                && Calculated(ArchivedFlags(s.products), s.company.precision, RereadAll(was.lines)) == Ok(d.lines)
  {
    hide AllPricedAgain, LinesAccepted, Calculated, RereadAll, Sane, AmountsOk, Nets, Taxes, Totals;
    CalculationExactly(ArchivedFlags(s.products), s.company.precision, RereadAll(was.lines), d.lines);
    AllRereadExactly(ArchivedFlags(s.products), s.company.precision, was.lines, d.lines);
    TotalsSum(d.lines);
  }

  lemma PreviewOfDraftExactly(s: State, actor: Actor, id: nat, t: Snapshot)
    requires Inv(s) && actor.active && id < |s.invoices| && s.invoices[id].status == Draft
    ensures Preview(s, actor, id) == Ok(t) <==>
            t.status == Draft && exists d :: Repriced(s, s.invoices[id], d) && ToldNow(s, t, d)
  {
    hide Inv, SnapshotOf, Repriced, ToldNow, Calculated, Nets, Taxes;
    var was := s.invoices[id];
    EveryoneReads(actor);
    DraftIsOk(s, id);
    var made := Calculated(ArchivedFlags(s.products), s.company.precision, RereadAll(was.lines));
    if made.Ok? {
      var d := Summed(was, made.value);
      RepricedLines(s, was, d);
      DraftIsTold(s, id, d);
      if Preview(s, actor, id) == Ok(t) { assert Repriced(s, was, d) && ToldNow(s, t, d); }
    }
    forall d | Repriced(s, was, d) && ToldNow(s, t, d) && t.status == Draft ensures Preview(s, actor, id) == Ok(t) {
      RepricedLines(s, was, d);
      RepricedSums(s, was, d);
      DraftIsTold(s, id, d);
      ToldOnce(s, t, SnapshotOf(s.company, PartyOf(s.customers, was.customer), s.products, d), d);
    }
  }

  lemma DraftIsTold(s: State, id: nat, d: Invoice)
    requires Inv(s) && id < |s.invoices| && s.invoices[id].status == Draft && Repriced(s, s.invoices[id], d)
    ensures var t := SnapshotOf(s.company, PartyOf(s.customers, d.customer), s.products, d);
            ToldNow(s, t, d) && t.status == Draft
  {
    hide Inv, DocumentTells, PricedAt, Sane, LineSnapshot, Money;
    DraftIsOk(s, id);
    RepricedIsSound(s, s.invoices[id], d);
    RepricedSums(s, s.invoices[id], d);
    DocumentTold(s.company, PartyOf(s.customers, d.customer), s.products, d, s.company.precision);
    ReferencesAreTold(s.company, PartyOf(s.customers, d.customer), s.products, d);
  }
}
