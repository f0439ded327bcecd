/** Two concrete runs in which a promise of the billing protocol fails. */
module BillingExamples {
  import opened Basics
  import opened Billing
  import opened BillingRuns
  import opened BillingOutside
  import opened BillingSafety

  const PLAN: Plan := Plan("pro", "price_pro", 14, true)
  const START: World :=
    World(Local(NEW_SUBSCRIPTION, [], [], map[]), Outside(Remote(None, [], [], {}, {}, map[]), 0), {}, None, None, {})
  const ACME: CustomerArgs := CustomerArgs("Acme", "acme@example.org")
  const NO_GAPS: Gaps := Gaps([], [], [], [])
  const HOST := "https://example.org"

  lemma RunOneMore(w: World, moves: seq<Move>, m: Move)
    ensures Run(w, moves + [m]) == Step(Run(w, moves), m)
  {
    assert (moves + [m])[..|moves|] == moves;
  }

  function Row(customer: Option<CustomerId>): Subscription {
    NEW_SUBSCRIPTION.(customer := customer, customerName := ACME.name, customerEmail := ACME.email)
  }

  /** The provider after the company's customer was created. */
  function Provider(sessions: seq<Session>, subs: seq<RemoteSub>, requests: set<Args>,
                    keys: map<(nat, string), nat>): Remote {
    Remote(Some(ACME), sessions, subs, {ACME}, requests, keys)
  }

  const FIRST: Attempt := Attempt(0, "key1", None, false, HOST, Pending, 14, HOUR)

  /** A plan, a reserved attempt and a confirmed customer. */
  function Ready(): World {
    World(Local(Row(Some(Ours)), [FIRST], [PLAN], map[]), Outside(Provider([], [], {}, map[]), 0), {(0, "key1")},
          None, None, {})
  }

  function Beginning(): seq<Move> {
    [PlanMove(PLAN)] + [ReserveMove("pro", "key1", ACME, HOST)] + [CustomerMove(Answered)]
  }

  lemma BeginningRuns()
    ensures Initial(START) && Run(START, Beginning()) == Ready()
  {
    var one := START.(local := START.local.(plans := [PLAN]));
    var two := one.(local := Local(Row(None), [FIRST], [PLAN], map[]), checkouts := {(0, "key1")});
    assert Step(START, PlanMove(PLAN)) == one;
    assert Step(one, ReserveMove("pro", "key1", ACME, HOST)) == two;
    assert Asked(two.outside.remote, ACME).customerRequests == {ACME};
    assert Step(two, CustomerMove(Answered)) == Ready();
    RunOneMore(START, [], PlanMove(PLAN));
    assert [] + [PlanMove(PLAN)] == [PlanMove(PLAN)];
    RunOneMore(START, [PlanMove(PLAN)], ReserveMove("pro", "key1", ACME, HOST));
    RunOneMore(START, [PlanMove(PLAN)] + [ReserveMove("pro", "key1", ACME, HOST)], CustomerMove(Answered));
  }

  // ---- two subscriptions, after a recovery across the deadline ----

  const ARGS1: Args := Args(Ours, "price_pro", HOST, 14, HOUR, 0, "key1")
  const ARGS2: Args := Args(Ours, "price_pro", HOST, 14, 2 * HOUR, 1, "key2")

  /** The invoice of subscription `id`, paid in full. */
  function PaidInvoice(id: nat): Option<RemoteInvoice> {
    Some(RemoteInvoice("paid", Some(0), Some(Ours), SubscriptionDetails(Some(id))))
  }

  function Bought(session: nat): RemoteSub {
    RemoteSub(Ours, true, Some(session), Active, "price_pro", true, Some(1000000), None, None, false,
              PaidInvoice(session))
  }

  function Sold(status: SessionStatus, sub: Option<nat>): Session { Session(Ours, Some(ARGS1), status, sub) }

  /** The answer to the creation is lost, and the session exists. */
  function Unanswered(): World {
    Ready().(outside := Outside(Provider([Sold(Opened, None)], [], {ARGS1}, map[(0, "key1") := 0]), 0))
  }

  lemma UnansweredStep()
    ensures Step(Step(Ready(), OpenMove([], 0, "key1", true, Lost, false)), Around(LateCreation(ARGS1))) == Unanswered()
  {
    assert KeyOf(ARGS1) == (0, "key1");
    var sent := Ready().(outside := Outside(Provider([], [], {ARGS1}, map[]), 0));
    assert Sent(Ready().outside.remote, ARGS1).requests == {ARGS1};
    assert Step(Ready(), OpenMove([], 0, "key1", true, Lost, false)) == sent;
    assert Step(sent, Around(LateCreation(ARGS1))) == Unanswered();
  }

  /** A second before the deadline the customer pays, and a recovery starts; a second later it gives up. */
  const ACROSS: Gaps := Gaps([], [], [], [Tick(1)])

  function PaidLate(): World {
    Unanswered().(outside := Outside(Provider([Sold(Completed, Some(0))], [Bought(0)], {ARGS1},
                                              map[(0, "key1") := 0]), HOUR - 1))
  }

  lemma PaidLateStep()
    ensures Step(Step(Unanswered(), Around(Tick(HOUR - 1))), Around(CustomerPays(0, Bought(0)))) == PaidLate()
  {
    var w := Unanswered().(outside := Outside(Unanswered().outside.remote, HOUR - 1));
    assert Step(Unanswered(), Around(Tick(HOUR - 1))) == w;
    assert Step(w, Around(CustomerPays(0, Bought(0)))) == PaidLate();
  }

  function Forsaken(): World {
    PaidLate().(local := Local(Row(Some(Ours)), [FIRST.(status := Expired)], [PLAN], map[]),
                outside := Outside(PaidLate().outside.remote, HOUR), lost := {0})
  }

  lemma ForsakenStep(net: Net)
    ensures Step(PaidLate(), RecoverMove(ACROSS, net)) == Forsaken()
  {
    var w := PaidLate();
    LastAfter(w.outside, [], HOUR);
    assert Last(w.outside, ACROSS) == Outside(w.outside.remote, HOUR);
    assert LiveAttempt([FIRST]) == Some(0);
    assert Abandoned(w.local, HOUR - 1, HOUR) == {0};
    assert [FIRST][0 := FIRST.(status := Expired)] == [FIRST.(status := Expired)];
  }

  const SECOND: Attempt := Attempt(0, "key2", None, false, HOST, Pending, 14, 2 * HOUR)

  function Again(): World {
    var second := SECOND.(session := Some(1), url := true, status := Open);
    var sessions := [Sold(Completed, Some(0)), Session(Ours, Some(ARGS2), Opened, None)];
    var keys: map<(nat, string), nat> := map[(0, "key1") := 0, (1, "key2") := 1];
    Forsaken().(local := Local(Row(Some(Ours)), [FIRST.(status := Expired), second], [PLAN], map[]),
                outside := Outside(Provider(sessions, [Bought(0)], {ARGS1, ARGS2}, keys), HOUR),
                checkouts := {(0, "key1"), (1, "key2")})
  }

  lemma AgainStep()
    ensures Step(Step(Forsaken(), ReserveMove("pro", "key2", ACME, HOST)),
                 OpenMove([], 1, "key2", true, Answered, false)) == Again()
  {
    var w := Forsaken();
    var reserved := w.(local := w.local.(attempts := [FIRST.(status := Expired), SECOND]),
                       checkouts := {(0, "key1"), (1, "key2")});
    assert LiveAttempt([FIRST.(status := Expired)]).None?;
    assert AttemptFor([FIRST.(status := Expired)], "key2").None?;
    assert Step(w, ReserveMove("pro", "key2", ACME, HOST)) == reserved;
    assert ArgsFor(reserved.local, Ours, 1, "key2") == ARGS2 && KeyOf(ARGS2) == (1, "key2");
    assert Sent(w.outside.remote, ARGS2).requests == {ARGS1, ARGS2};
    assert Create(Sent(w.outside.remote, ARGS2), HOUR, ARGS2) == Again().outside.remote;
    assert Refers(Again().outside.remote.sessions[1], 1);
    assert Step(reserved, OpenMove([], 1, "key2", true, Answered, false)) == Again();
  }

  function Straddling(net: Net): seq<Move> {
    Beginning() + [OpenMove([], 0, "key1", true, Lost, false)] + [Around(LateCreation(ARGS1))]
    + [Around(Tick(HOUR - 1))] + [Around(CustomerPays(0, Bought(0)))] + [RecoverMove(ACROSS, net)]
    + [ReserveMove("pro", "key2", ACME, HOST)] + [OpenMove([], 1, "key2", true, Answered, false)]
    + [Around(CustomerPays(1, Bought(1)))]
  }

  /** A run, without any failure of the provider but one lost answer, that ends with two running subscriptions. */
  lemma TwoSubscriptionsAreReached(net: Net)
    ensures Initial(START)
    ensures Running(Run(START, Straddling(net)).outside.remote, 0)
            && Running(Run(START, Straddling(net)).outside.remote, 1)
  {
    hide Step, Beginning, Unanswered, PaidLate, Forsaken, Ready;
    BeginningRuns();
    UnansweredStep();
    PaidLateStep();
    ForsakenStep(net);
    AgainStep();
    var m0 := Beginning();
    var m1 := m0 + [OpenMove([], 0, "key1", true, Lost, false)];
    var m2 := m1 + [Around(LateCreation(ARGS1))];
    var m3 := m2 + [Around(Tick(HOUR - 1))];
    var m4 := m3 + [Around(CustomerPays(0, Bought(0)))];
    var m5 := m4 + [RecoverMove(ACROSS, net)];
    var m6 := m5 + [ReserveMove("pro", "key2", ACME, HOST)];
    var m7 := m6 + [OpenMove([], 1, "key2", true, Answered, false)];
    RunOneMore(START, m0, OpenMove([], 0, "key1", true, Lost, false));
    RunOneMore(START, m1, Around(LateCreation(ARGS1)));
    RunOneMore(START, m2, Around(Tick(HOUR - 1)));
    RunOneMore(START, m3, Around(CustomerPays(0, Bought(0))));
    RunOneMore(START, m4, RecoverMove(ACROSS, net));
    RunOneMore(START, m5, ReserveMove("pro", "key2", ACME, HOST));
    RunOneMore(START, m6, OpenMove([], 1, "key2", true, Answered, false));
    RunOneMore(START, m7, Around(CustomerPays(1, Bought(1))));
    SecondPayment();
  }

  lemma SecondPayment()
    ensures var r := Step(Again(), Around(CustomerPays(1, Bought(1)))).outside.remote; Running(r, 0) && Running(r, 1)
  {}

  // ---- a trial prolonged by a read in another status ----

  function OnTrial(status: Status, trialEnd: Time): RemoteSub {
    RemoteSub(Ours, true, Some(0), status, "price_pro", true, Some(60 * DAY), Some(0), Some(trialEnd), false, None)
  }

  const OPENED: Attempt := FIRST.(session := Some(0), url := true, status := Open)

  /** The subscription has been bought on a trial of fourteen days, and not been read yet. */
  function Entered(): World {
    Ready().(local := Local(Row(Some(Ours)), [OPENED], [PLAN], map[]),
             outside := Outside(Provider([Sold(Completed, Some(0))], [OnTrial(Trialing, 14 * DAY)], {ARGS1},
                                         map[(0, "key1") := 0]), 0))
  }

  /** The state after a read, and after a change at the provider that has not been read. */
  function Known(status: Status, access: Option<Time>, end: Time, days: nat, events: map<string, string>,
                 actual: RemoteSub): World {
    World(Local(Row(Some(Ours)).(plan := Some(0), sub := Some(0), status := status, accessUntil := access,
                                 periodEnd := Some(60 * DAY), trialEnd := Some(end), trialUsed := true),
                [OPENED.(status := Complete)], [PLAN], events),
          Outside(Provider([Sold(Completed, Some(0))], [actual], {ARGS1}, map[(0, "key1") := 0]), 0), {(0, "key1")},
          Some(Read(0, OnTrial(status, end), 0, days)), Some(Trial(14 * DAY, 0, 14)), {})
  }

  const SEEN1: map<string, string> := map["e1" := "b1"]
  const SEEN2: map<string, string> := map["e1" := "b1", "e2" := "b2"]
  const SEEN3: map<string, string> := map["e1" := "b1", "e2" := "b2", "e3" := "b3"]

  function Notice(id: string, body: string): Move {
    EventMove(Event(id, body, SubscriptionChanged, Ours, Body(Some(0), None, NoParent)), NO_GAPS, ANSWERING)
  }

  lemma TrialStarts()
    ensures Step(Step(Ready(), OpenMove([], 0, "key1", true, Answered, false)),
                 Around(CustomerPays(0, OnTrial(Trialing, 14 * DAY)))) == Entered()
  {
    assert KeyOf(ARGS1) == (0, "key1");
    assert ArgsFor(Ready().local, Ours, 0, "key1") == ARGS1;
    var r := Provider([Sold(Opened, None)], [], {ARGS1}, map[(0, "key1") := 0]);
    assert Sent(Ready().outside.remote, ARGS1).requests == {ARGS1};
    assert Create(Sent(Ready().outside.remote, ARGS1), 0, ARGS1) == r;
    assert Refers(r.sessions[0], 0);
    var started := Ready().(local := Local(Row(Some(Ours)), [OPENED], [PLAN], map[]), outside := Outside(r, 0));
    assert Step(Ready(), OpenMove([], 0, "key1", true, Answered, false)) == started;
  }

  lemma TrialIsRead()
    ensures Step(Entered(), Notice("e1", "b1")) == Known(Trialing, Some(14 * DAY), 14 * DAY, 14, SEEN1,
                                                         OnTrial(Trialing, 14 * DAY))
  {
    var w := Entered();
    assert LiveAttempt(w.local.attempts) == Some(0);
    assert PlanWithPrice([PLAN], "price_pro") == Some(0);
    assert Refers(w.outside.remote.sessions[0], 0);
  }

  /** The trial ends, and the provider reports a later trial end with the active status. */
  lemma EndIsOverwritten()
    ensures Step(Step(Known(Trialing, Some(14 * DAY), 14 * DAY, 14, SEEN1, OnTrial(Trialing, 14 * DAY)),
                      Around(SubChanges(0, OnTrial(Active, 30 * DAY)))),
                 Notice("e2", "b2"))
            == Known(Active, None, 30 * DAY, 0, SEEN2, OnTrial(Active, 30 * DAY))
  {
    assert PlanWithPrice([PLAN], "price_pro") == Some(0);
    var w := Known(Trialing, Some(14 * DAY), 14 * DAY, 14, SEEN1, OnTrial(Active, 30 * DAY));
    assert Step(Known(Trialing, Some(14 * DAY), 14 * DAY, 14, SEEN1, OnTrial(Trialing, 14 * DAY)),
                Around(SubChanges(0, OnTrial(Active, 30 * DAY)))) == w;
    assert Step(w, Notice("e2", "b2")) == Known(Active, None, 30 * DAY, 0, SEEN2, OnTrial(Active, 30 * DAY));
  }

  lemma TrialGoesOn()
    ensures Step(Step(Known(Active, None, 30 * DAY, 0, SEEN2, OnTrial(Active, 30 * DAY)),
                      Around(SubChanges(0, OnTrial(Trialing, 30 * DAY)))),
                 Notice("e3", "b3"))
            == Known(Trialing, Some(30 * DAY), 30 * DAY, 0, SEEN3, OnTrial(Trialing, 30 * DAY))
  {
    assert PlanWithPrice([PLAN], "price_pro") == Some(0);
    var w := Known(Active, None, 30 * DAY, 0, SEEN2, OnTrial(Trialing, 30 * DAY));
    assert Step(Known(Active, None, 30 * DAY, 0, SEEN2, OnTrial(Active, 30 * DAY)),
                Around(SubChanges(0, OnTrial(Trialing, 30 * DAY)))) == w;
    assert Step(w, Notice("e3", "b3")) == Known(Trialing, Some(30 * DAY), 30 * DAY, 0, SEEN3,
                                                OnTrial(Trialing, 30 * DAY));
  }

  function Prolonging(): seq<Move> {
    Beginning() + [OpenMove([], 0, "key1", true, Answered, false)]
    + [Around(CustomerPays(0, OnTrial(Trialing, 14 * DAY)))] + [Notice("e1", "b1")]
    + [Around(SubChanges(0, OnTrial(Active, 30 * DAY)))] + [Notice("e2", "b2")]
    + [Around(SubChanges(0, OnTrial(Trialing, 30 * DAY)))] + [Notice("e3", "b3")] + [Around(Tick(20 * DAY))]
  }

  /** Access by trial six days after the end of the only trial that was authorised. */
  lemma TrialIsProlonged()
    ensures Initial(START)
    ensures var v := Run(START, Prolonging());
            HasAccess(v.local.subscription, v.outside.now) && !v.local.subscription.exempt
                && v.local.subscription.status == Trialing
            && v.trial == Some(Trial(14 * DAY, 0, 14)) && v.outside.now == 20 * DAY
  {
    hide Step, Beginning, Entered, Known, Ready;
    BeginningRuns();
    TrialStarts();
    TrialIsRead();
    EndIsOverwritten();
    TrialGoesOn();
    var m0 := Beginning();
    var m1 := m0 + [OpenMove([], 0, "key1", true, Answered, false)];
    var m2 := m1 + [Around(CustomerPays(0, OnTrial(Trialing, 14 * DAY)))];
    var m3 := m2 + [Notice("e1", "b1")];
    var m4 := m3 + [Around(SubChanges(0, OnTrial(Active, 30 * DAY)))];
    var m5 := m4 + [Notice("e2", "b2")];
    var m6 := m5 + [Around(SubChanges(0, OnTrial(Trialing, 30 * DAY)))];
    var m7 := m6 + [Notice("e3", "b3")];
    RunOneMore(START, m0, OpenMove([], 0, "key1", true, Answered, false));
    RunOneMore(START, m1, Around(CustomerPays(0, OnTrial(Trialing, 14 * DAY))));
    RunOneMore(START, m2, Notice("e1", "b1"));
    RunOneMore(START, m3, Around(SubChanges(0, OnTrial(Active, 30 * DAY))));
    RunOneMore(START, m4, Notice("e2", "b2"));
    RunOneMore(START, m5, Around(SubChanges(0, OnTrial(Trialing, 30 * DAY))));
    RunOneMore(START, m6, Notice("e3", "b3"));
    RunOneMore(START, m7, Around(Tick(20 * DAY)));
    LateAccess();
  }

  lemma LateAccess()
    ensures var v := Step(Known(Trialing, Some(30 * DAY), 30 * DAY, 0, SEEN3, OnTrial(Trialing, 30 * DAY)),
                          Around(Tick(20 * DAY)));
            HasAccess(v.local.subscription, v.outside.now) && !v.local.subscription.exempt
                && v.local.subscription.status == Trialing
            && v.trial == Some(Trial(14 * DAY, 0, 14)) && v.outside.now == 20 * DAY
  {}
}
