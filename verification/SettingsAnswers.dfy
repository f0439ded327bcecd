/** What the settings of a company and its periods become, said from the request and the rows. */
module SettingsAnswers {
  import opened Basics
  import opened Pricing
  import opened Books
  import opened Services
  import opened Banking
  import opened Invariants
  import opened Runs
  import opened BankProofs
  import opened Reachability
  import opened Reading
  import opened DraftAnswers

  predicate MayManage(actor: Actor) { actor.active && actor.role == Admin }

  // ---- the company ----

  predicate Chosen<T(==)>(given: Option<T>, was: T, value: T) {
    value == if given.Some? then given.value else was
  }

  predicate ThreeCapitals(currency: string) {
    |currency| == 3 && 'A' <= currency[0] <= 'Z' && 'A' <= currency[1] <= 'Z' && 'A' <= currency[2] <= 'Z'
  }

  /** Something was recorded in the company's currency and at its precision. */
  predicate Recorded(s: State) {
    |s.bankAccounts| > 0 || |s.externals| > 0 || exists i :: 0 <= i < |s.invoices| && s.invoices[i].status == Validated
  }

  /** The company is configured, and becomes this one, exactly when the request asks for it and may. */
  lemma ConfigureExactly(s: State, actor: Actor, data: CompanyData, c: Company)
    ensures Configure(s, actor, data) == Outcome(s.(company := c), Ok(())) <==>
            && MayManage(actor) && data.CompanyData? && data.clean
            && Chosen(data.profile, s.company.profile, c.profile)
            && Chosen(data.currency, s.company.currency, c.currency)
            && Chosen(data.precision, s.company.precision as int, c.precision as int)
            && Chosen(data.language, s.company.language, c.language) && ThreeCapitals(c.currency)
            && (Recorded(s) ==> c.currency == s.company.currency && c.precision == s.company.precision)
    ensures Configure(s, actor, data).answer.Err? ==> Configure(s, actor, data).state == s
  {
    assert CurrencyOk(c.currency) <==> ThreeCapitals(c.currency);
    assert Recorded(s) <==> ConfigurationInUse(s);
    var after := s.(company := c);
    assert after.company == c;
  }

  // ---- periods ----

  function WasPeriod(s: State, id: Option<nat>): Option<Period> {
    if id.Some? && id.value < |s.periods| then Some(s.periods[id.value]) else None
  }

  /** The period that holds what was given, and otherwise what it held before, or an empty name and open. */
  predicate PeriodFor(s: State, data: PeriodData, was: Option<Period>, p: Period)
    requires data.PeriodData?
  {
    && Taken(data.name, Some(if was.Some? then was.value.name else ""), p.name) && !Blank(p.name) && |p.name| <= 100
    && Taken(data.start, if was.Some? then Some(was.value.start) else None, p.start)
    && Taken(data.end, if was.Some? then Some(was.value.end) else None, p.end) && Leq(p.start, p.end)
    && Taken(data.closed, Some(was.Some? && was.value.closed), p.closed)
  }

  /** Its days are not shared with another period, and do not move when something was posted in it. */
  predicate PeriodFits(s: State, id: Option<nat>, p: Period) {
    && (forall i :: 0 <= i < |s.periods| && Some(i) != id ==>
         !(Leq(s.periods[i].start, p.end) && Leq(p.start, s.periods[i].end)))
    && (id.Some? && id.value < |s.periods| && (exists k :: 0 <= k < |s.entries| && s.entries[k].period == id.value) ==>
          p.start == s.periods[id.value].start && p.end == s.periods[id.value].end)
  }

  /** A period is stored, and it is this one, exactly when the request asks for it and it fits. */
  lemma SetPeriodExactly(s: State, actor: Actor, data: PeriodData, id: Option<nat>, p: Period)
    ensures (id.Some? ==> id.value < |s.periods|) ==>
              (SetPeriod(s, actor, data, id)
               == Outcome(s.(periods := if id.Some? then s.periods[id.value := p] else s.periods + [p]),
                          Ok(if id.Some? then id.value else |s.periods|)) <==>
               MayManage(actor) && data.PeriodData? && PeriodFor(s, data, WasPeriod(s, id), p) && PeriodFits(s, id, p))
    ensures id.Some? && id.value >= |s.periods| ==> SetPeriod(s, actor, data, id).answer.Err?
    ensures SetPeriod(s, actor, data, id).answer.Err? ==> SetPeriod(s, actor, data, id).state == s
  {
    hide Leq, Strip, Blank;
    BlankExactly(p.name);
    if id.Some? ==> id.value < |s.periods| {
      assert PeriodFits(s, id, p) <==>
             !OverlapsAnother(s.periods, p, id)
             && (id.Some? && PeriodUsed(s.entries, id.value) ==>
                   p.start == s.periods[id.value].start && p.end == s.periods[id.value].end);
      if id.Some? {
        assert s.periods[id.value := p][id.value] == p;
      } else {
        assert (s.periods + [p])[|s.periods|] == p;
      }
    }
  }

  lemma StoredPeriodFits(s: State, id: nat)
    requires Inv(s) && id < |s.periods|
    ensures PeriodFits(s, Some(id), s.periods[id]) && Leq(s.periods[id].start, s.periods[id].end)
  {
    hide Leq;
    forall i | 0 <= i < |s.periods| && i != id ensures !Overlap(s.periods[i], s.periods[id]) {
      assert !Overlap(s.periods[if i < id then i else id], s.periods[if i < id then id else i]);
    }
  }

  ghost predicate Named(s: State) {
    forall i :: 0 <= i < |s.periods| ==> !Blank(s.periods[i].name) && |s.periods[i].name| <= 100
  }

  /** Only a request about periods touches the periods. */
  lemma OthersKeepPeriods(s: State, call: Call)
    requires Inv(s) && !call.PeriodCall?
    ensures Step(s, call).periods == s.periods
  {
    hide LedgerOk, BankOk, Extends, SaveDraft, Validate, RecordPayment, Duplicate, Configure, Reconcile, ParseCsv,
      NewRows, Compatible, Known;
    match call
    case SaveDraftCall(actor, data, id) => SaveDraftMoves(s, actor, data, id);
    case ValidateCall(actor, id, key, payload) => ValidateMoves(s, actor, id, ManualKey(key), payload);
    case PayCall(actor, id, key, data) => RecordPaymentMoves(s, actor, id, ManualKey(key), data);
    case DuplicateCall(actor, id, key, data) => DuplicateMoves(s, actor, id, ManualKey(key), data);
    case ConfigureCall(actor, data) => ConfigureLocked(s, actor, data);
    case ReconcileCall(actor, row, invoice) => ReconcileCreatesOnePayment(s, actor, row, invoice);
    case _ =>
  }

  lemma StepNames(s: State, call: Call)
    requires Inv(s) && Named(s)
    ensures Named(Step(s, call))
  {
    hide Inv, Blank, SetPeriod, PeriodFits;
    if call.PeriodCall? {
      SetNames(s, call.actor, call.period, call.id);
    } else {
      hide Step;
      OthersKeepPeriods(s, call);
    }
  }

  lemma SetNames(s: State, actor: Actor, data: PeriodData, id: Option<nat>)
    requires Named(s)
    ensures Named(SetPeriod(s, actor, data, id).state)
  {
    hide Blank, Strip, Leq, PeriodUsed, OverlapsAnother;
    var t := SetPeriod(s, actor, data, id).state;
    if t != s {
      BlankExactly(t.periods[if id.Some? then id.value else |s.periods|].name);
    }
  }

  lemma {:induction false} RunNames(s: State, calls: seq<Call>)
    requires Inv(s) && Named(s)
    ensures Named(Run(s, calls))
  {
    hide Inv, Step, Named, Extends;
    if calls != [] {
      RunNames(s, calls[..|calls| - 1]);
      RunKeeps(s, calls[..|calls| - 1]);
      StepNames(Run(s, calls[..|calls| - 1]), calls[|calls| - 1]);
    }
  }

  /** In every reachable state every period has a name of at most a hundred characters. */
  lemma PeriodsAreNamed(s: State)
    requires Reachable(s)
    ensures Named(s)
  {
    hide Inv, Run;
    var start, calls :| Empty(start) && CompanyOk(start.company) && s == Run(start, calls);
    EmptyIsOk(start);
    RunNames(start, calls);
  }

  /** Closing an open period closes it and changes nothing else; opening it again does the reverse. */
  lemma ClosingCloses(s: State, actor: Actor, id: nat, closed: bool)
    requires Reachable(s) && MayManage(actor) && id < |s.periods|
    ensures SetPeriod(s, actor, PeriodData(Absent, Absent, Absent, Given(closed)), Some(id))
            == Outcome(s.(periods := s.periods[id := s.periods[id].(closed := closed)]), Ok(id))
  {
    hide Leq, Blank, Reachable, Inv;
    ReachableIsOk(s);
    PeriodsAreNamed(s);
    StoredPeriodFits(s, id);
    SetPeriodExactly(s, actor, PeriodData(Absent, Absent, Absent, Given(closed)), Some(id),
                     s.periods[id].(closed := closed));
  }
}
