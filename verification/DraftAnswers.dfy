/** What saving and duplicating a draft answer, and which draft they store, said from the request and the rows. */
module DraftAnswers {
  import opened Basics
  import opened Decimal
  import opened Calculation
  import opened Pricing
  import opened Books
  import opened Services
  import opened Invariants
  import opened Runs
  import opened Reachability
  import opened Reading

  // ---- the lines ----

  /** A stored line priced again at a precision: the same inputs, with amounts rounded at that precision. */
  ghost predicate PricedAgain(products: seq<bool>, precision: nat, was: Line, line: Line)
    requires precision <= 4
  {
    && line == was.(net := line.net, tax := line.tax) && ProductOk(products, line.product)
    && RoundedHalfUp(line, precision) && line.net + line.tax <= MAX_AMOUNT
  }

  ghost predicate AllPricedAgain(products: seq<bool>, precision: nat, was: seq<Line>, lines: seq<Line>)
    requires precision <= 4
  {
    |lines| == |was| && forall i :: 0 <= i < |was| ==> PricedAgain(products, precision, was[i], lines[i])
  }

  lemma ColumnIs(n: int, places: nat, m: int)
    ensures Is(Column(n, places).d, places, m) <==> m == n
  {
    UnitIs(n, places);
    if Is(Column(n, places).d, places, m) { IsUnique(Column(n, places).d, places, m, n); }
  }

  lemma RereadExactly(products: seq<bool>, precision: nat, was: Line, line: Line)
    requires precision <= 4 && Sane(was)
    ensures LineAccepted(products, precision, Reread(was), line) <==> PricedAgain(products, precision, was, line)
  {
    hide Is, RoundedHalfUp, Strip, Column;
    assert Reread(was).quantity == Column(was.quantity, 6) && Reread(was).unitPrice == Column(was.unitPrice, 6);
    ColumnsAre(was.quantity, line.quantity, 6);
    ColumnsAre(was.unitPrice, line.unitPrice, 6);
    ColumnsAre(was.taxRate, line.taxRate, 4);
    ColumnsAre(was.discountRate, line.discountRate, 4);
  }

  lemma ColumnsAre(n: int, m: int, places: nat)
    ensures Column(n, places).Number? && (Is(Column(n, places).d, places, m) <==> m == n)
  {
    ColumnIs(n, places, m);
  }

  lemma AllRereadExactly(products: seq<bool>, precision: nat, was: seq<Line>, lines: seq<Line>)
    requires precision <= 4 && forall i :: 0 <= i < |was| ==> Sane(was[i])
    ensures LinesAccepted(products, precision, RereadAll(was), lines) <==>
              AllPricedAgain(products, precision, was, lines)
  {
    hide LineAccepted, PricedAgain, Sane, Reread;
    if |lines| == |was| {
      forall i | 0 <= i < |was|
        ensures LineAccepted(products, precision, Reread(was[i]), lines[i]) <==>
                PricedAgain(products, precision, was[i], lines[i]) {
        RereadExactly(products, precision, was[i], lines[i]);
      }
      assert forall i :: 0 <= i < |was| ==> RereadAll(was)[i] == Reread(was[i]);
    }
  }

  // ---- a draft from a request ----

  predicate Taken<T(==)>(given: Field<T>, was: Option<T>, value: T) {
    given == Given(value) || (given.Absent? && was == Some(value))
  }

  function OldText(base: Option<Invoice>, i: nat): Option<string> {
    Some(if base.Some? && i < |base.value.texts| then base.value.texts[i] else "")
  }

  ghost predicate LinesTaken(s: State, given: Field<seq<LineInput>>, base: Option<Invoice>, lines: seq<Line>) {
    var flags := ArchivedFlags(s.products);
    && 1 <= |lines| <= MAX_LINES
    && match given
       case Given(items) => LinesAccepted(flags, s.company.precision, items, lines)
       case Bad => false
       case Absent => base.Some? && AllPricedAgain(flags, s.company.precision, base.value.lines, lines)
  }

  /** A draft that has not been numbered, with the sums of its lines. */
  ghost predicate FreshDraft(inv: Invoice) {
    && inv.status == Draft && inv.number == "" && inv.precision == None && inv.currency == "" && inv.snapshot == None
    && inv.net == Sum(Nets(inv.lines)) && inv.tax == Sum(Taxes(inv.lines))
    && inv.total == inv.net + inv.tax <= MAX_AMOUNT
  }

  predicate CustomerActive(s: State, customer: nat) { customer < |s.customers| && !s.customers[customer].archived }

  /** The draft that holds what was given, and otherwise what the draft held before or the company's default. */
  ghost predicate DraftFor(s: State, data: DraftData, base: Option<Invoice>, inv: Invoice)
    requires data.DraftData?
  {
    && Taken(data.customer, if base.Some? then Some(base.value.customer) else None, inv.customer)
    && CustomerActive(s, inv.customer)
    && Taken(data.issue, if base.Some? then Some(base.value.issue) else None, inv.issue)
    && Taken(data.due, if base.Some? then Some(base.value.due) else None, inv.due) && Leq(inv.issue, inv.due)
    && Taken(data.language, Some(if base.Some? then base.value.language else s.company.language), inv.language)
    && inv.language in LANGUAGES
    && |data.texts| == |inv.texts| == |TEXT_LIMITS|
    && (forall i :: 0 <= i < |TEXT_LIMITS| ==>
          Taken(data.texts[i], OldText(base, i), inv.texts[i]) && |inv.texts[i]| <= TEXT_LIMITS[i])
    && LinesTaken(s, data.lines, base, inv.lines) && FreshDraft(inv)
  }

  lemma TextsExactly(given: seq<Field<string>>, base: Option<Invoice>, texts: seq<string>)
    requires base.Some? ==> |base.value.texts| == |TEXT_LIMITS|
    ensures TextsFrom(given, TextsOf(base)) == Ok(texts) <==>
            && |given| == |texts| == |TEXT_LIMITS|
            && forall i :: 0 <= i < |TEXT_LIMITS| ==>
                 Taken(given[i], OldText(base, i), texts[i]) && |texts[i]| <= TEXT_LIMITS[i]
  {
    var was := TextsOf(base);
    assert forall i :: 0 <= i < |TEXT_LIMITS| ==> Some(was[i]) == OldText(base, i);
    if |given| == |TEXT_LIMITS| {
      var made := seq(|was|, i requires 0 <= i < |was| => if given[i].Given? then given[i].value else was[i]);
      if |texts| == |TEXT_LIMITS|
         && forall i :: 0 <= i < |TEXT_LIMITS| ==>
              Taken(given[i], OldText(base, i), texts[i]) && |texts[i]| <= TEXT_LIMITS[i] {
        assert made == texts;
      }
    }
  }

  lemma LinesTakenExactly(s: State, given: Field<seq<LineInput>>, base: Option<Invoice>, lines: seq<Line>)
    requires base.Some? ==> forall i :: 0 <= i < |base.value.lines| ==> Sane(base.value.lines[i])
    ensures (SourceLines(given, base).Ok?
             && Calculated(ArchivedFlags(s.products), s.company.precision,
                           SourceLines(given, base).value) == Ok(lines)) <==>
            LinesTaken(s, given, base, lines) && Sum(Totals(lines)) <= MAX_AMOUNT
  {
    hide Calculated, LinesAccepted, AllPricedAgain, Sane, RereadAll, Totals;
    var flags, precision := ArchivedFlags(s.products), s.company.precision;
    match given
    case Given(items) =>
      CalculationExactly(flags, precision, items, lines);
      if LinesAccepted(flags, precision, items, lines) { SameLength(flags, precision, items, lines); }
    case Bad =>
    case Absent =>
      if base.Some? {
        var items := RereadAll(base.value.lines);
        CalculationExactly(flags, precision, items, lines);
        AllRereadExactly(flags, precision, base.value.lines, lines);
        if LinesAccepted(flags, precision, items, lines) { SameLength(flags, precision, items, lines); }
      }
  }

  lemma SameLength(products: seq<bool>, precision: nat, items: seq<LineInput>, lines: seq<Line>)
    requires precision <= 4 && LinesAccepted(products, precision, items, lines)
    ensures |lines| == |items|
  {}

  lemma TotalsSum(lines: seq<Line>)
    ensures Sum(Totals(lines)) == Sum(Nets(lines)) + Sum(Taxes(lines))
  {
    SumAdd(Nets(lines), Taxes(lines), Totals(lines));
  }

  /** A request makes a draft exactly when the draft holds what it should. */
  lemma DraftedExactly(s: State, data: DraftData, base: Option<Invoice>, inv: Invoice)
    requires data.DraftData?
    requires base.Some? ==>
               |base.value.texts| == |TEXT_LIMITS|
               && forall i :: 0 <= i < |base.value.lines| ==> Sane(base.value.lines[i])
    ensures Drafted(s, data, base) == Ok(inv) <==> DraftFor(s, data, base, inv)
  {
    hide Calculated, LinesTaken, TextsFrom, TextsOf, SourceLines, Totals, Nets, Taxes, Leq, Sane, OldText;
    TextsExactly(data.texts, base, inv.texts);
    LinesTakenExactly(s, data.lines, base, inv.lines);
    TotalsSum(inv.lines);
  }

  // ---- the two services ----

  /** A key given by a caller is not blank and has at most 128 characters. */
  predicate KeyUsable(key: Key) {
    key.Manual? ==> !Blank(key.text) && |key.text| <= 128
  }

  lemma {:induction false} BlankExactly(s: string)
    ensures Strip(s) == "" <==> Blank(s)
  {
    StripIs(s);
    var a, b :| s == a + Strip(s) + b && Blank(a) && Blank(b);
    if Strip(s) != "" { assert s[|a|] == Strip(s)[0]; }
  }

  lemma KeyExactly(key: Option<Key>)
    ensures KeyOk(key) <==> key.Some? && KeyUsable(key.value)
  {
    if key.Some? && key.value.Manual? { BlankExactly(key.value.text); }
  }

  predicate MayEdit(actor: Actor) { actor.active && actor.role in {Admin, Accountant, Sales} }

  function BaseOf(s: State, id: Option<nat>): Option<Invoice> {
    if id.Some? && id.value < |s.invoices| then Some(s.invoices[id.value]) else None
  }

  lemma BaseIsSound(s: State, i: nat)
    requires Inv(s) && i < |s.invoices|
    ensures |s.invoices[i].texts| == |TEXT_LIMITS|
    ensures forall k :: 0 <= k < |s.invoices[i].lines| ==> Sane(s.invoices[i].lines[k])
    ensures 1 <= |s.invoices[i].lines| <= MAX_LINES
  {
    assert InvoiceOk(s, s.invoices[i]);
  }

  /** In every reachable state: a draft is saved, and it is this draft, exactly when the request asks for it. */
  lemma SaveDraftExactly(s: State, actor: Actor, data: DraftData, id: Option<nat>, inv: Invoice)
    requires Reachable(s)
    ensures SaveDraft(s, actor, data, id)
            == Outcome(s.(invoices := if id.Some? && id.value < |s.invoices|
                                      then s.invoices[id.value := inv] else s.invoices + [inv]),
                       Ok(if id.Some? then id.value else |s.invoices|)) <==>
            && MayEdit(actor) && data.DraftData?
            && (id.Some? ==> id.value < |s.invoices| && s.invoices[id.value].status == Draft)
            && DraftFor(s, data, BaseOf(s, id), inv)
    ensures SaveDraft(s, actor, data, id).answer.Err? ==> SaveDraft(s, actor, data, id).state == s
  {
    hide Inv, Drafted, DraftFor, Reachable;
    ReachableIsOk(s);
    if id.Some? && id.value < |s.invoices| { BaseIsSound(s, id.value); }
    if data.DraftData? { DraftedExactly(s, data, BaseOf(s, id), inv); }
    var whole := s.invoices + [inv];
    assert whole[|s.invoices|] == inv;
    if id.Some? && id.value < |s.invoices| { assert s.invoices[id.value := inv][id.value] == inv; }
  }

  /** The copy of a document with new dates, priced again at the precision now in force. */
  ghost predicate CopyFor(s: State, original: Invoice, issue: Date, due: Date, inv: Invoice) {
    && inv.customer == original.customer && CustomerActive(s, inv.customer)
    && inv.issue == issue && inv.due == due && Leq(issue, due)
    && inv.language == original.language && inv.texts == original.texts
    && AllPricedAgain(ArchivedFlags(s.products), s.company.precision, original.lines, inv.lines) && FreshDraft(inv)
  }

  lemma CopyExactly(s: State, original: Invoice, issue: Date, due: Date, inv: Invoice)
    requires DocumentOk(original, |s.customers|, |s.products|)
    ensures DraftFor(s, CopyOf(original, issue, due), None, inv) <==> CopyFor(s, original, issue, due, inv)
  {
    hide AllPricedAgain, LinesAccepted, FreshDraft, Sane, RereadAll, AmountsOk;
    var data := CopyOf(original, issue, due);
    AllRereadExactly(ArchivedFlags(s.products), s.company.precision, original.lines, inv.lines);
    if AllPricedAgain(ArchivedFlags(s.products), s.company.precision, original.lines, inv.lines) {
      SameCount(s, original, inv.lines);
    }
    assert |data.texts| == |TEXT_LIMITS|;
    if DraftFor(s, data, None, inv) { assert inv.texts == original.texts; }
  }

  lemma SameCount(s: State, original: Invoice, lines: seq<Line>)
    requires AllPricedAgain(ArchivedFlags(s.products), s.company.precision, original.lines, lines)
    ensures |lines| == |original.lines|
  {}

  /** In every reachable state and under a new key: the copy is made exactly when it may, and it is this copy. */
  lemma DuplicateExactly(s: State, actor: Actor, id: nat, key: Option<Key>, data: DatesData, inv: Invoice)
    requires Reachable(s) && (key.Some? ==> key.value !in s.records)
    ensures (MayEdit(actor) && data.DatesData? && data.issue.Given? && data.due.Given? && id < |s.invoices|
             && key.Some? && KeyUsable(key.value)
             && CopyFor(s, s.invoices[id], data.issue.value, data.due.value, inv)) <==>
            && key.Some? && data.DatesData? && data.issue.Given? && data.due.Given?
            && Duplicate(s, actor, id, key, data)
               == Outcome(s.(invoices := s.invoices + [inv],
                             records := s.records[key.value := Record(|s.invoices|,
                               Fingerprint(DuplicateAction, id, DatesPayload(data.issue.value, data.due.value)))]),
                          Ok(|s.invoices|))
  {
    hide Inv, SaveDraft, DraftFor, CopyFor, CopyOf, KeyOk, KeyUsable, Reachable;
    ReachableIsOk(s);
    KeyExactly(key);
    if id < |s.invoices| && data.DatesData? && data.issue.Given? && data.due.Given? {
      var request := CopyOf(s.invoices[id], data.issue.value, data.due.value);
      SaveDraftExactly(s, actor, request, None, inv);
      assert DocumentOk(s.invoices[id], |s.customers|, |s.products|) by { DocumentIsOk(s, id); }
      CopyExactly(s, s.invoices[id], data.issue.value, data.due.value, inv);
      assert request.DraftData? by { CopyIsADraft(s.invoices[id], data.issue.value, data.due.value); }
      OnlyInvoices(s, actor, request);
    }
  }

  lemma CopyIsADraft(inv: Invoice, issue: Date, due: Date)
    ensures CopyOf(inv, issue, due).DraftData?
  {}

  lemma DocumentIsOk(s: State, i: nat)
    requires Inv(s) && i < |s.invoices|
    ensures DocumentOk(s.invoices[i], |s.customers|, |s.products|)
  {
    assert InvoiceOk(s, s.invoices[i]);
  }

  lemma OnlyInvoices(s: State, actor: Actor, data: DraftData)
    ensures var o := SaveDraft(s, actor, data, None);
            && o.state == s.(invoices := o.state.invoices)
            && (o.answer.Ok? ==> o.answer == Ok(|s.invoices|) && |o.state.invoices| == |s.invoices| + 1)
            && (o.answer.Err? ==> o.state == s)
  {
    hide Drafted;
  }
}
