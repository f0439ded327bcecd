/** What no run of the billing protocol undoes. */
module BillingHistory {
  import opened Basics
  import opened Billing
  import opened BillingRuns

  predicate SamePlan(p: Plan, q: Plan) { q.code == p.code && q.price == p.price }

  /** What was frozen when the attempt was reserved stays; a finished attempt stays finished. */
  predicate SameAttempt(a: Attempt, b: Attempt) {
    && b == a.(session := b.session, url := b.url, status := b.status)
    && (!Live(a) ==> b == a)
  }

  ghost predicate Follows(l: Local, after: Local) {
    && |l.plans| <= |after.plans| && (forall i :: 0 <= i < |l.plans| ==> SamePlan(l.plans[i], after.plans[i]))
    && |l.attempts| <= |after.attempts|
    && (forall i :: 0 <= i < |l.attempts| ==> SameAttempt(l.attempts[i], after.attempts[i]))
    && (forall i :: |l.attempts| <= i < |after.attempts| && l.subscription.trialUsed ==>
         after.attempts[i].trialDays == 0)
    && (forall id :: id in l.events ==> id in after.events && after.events[id] == l.events[id])
    && (l.subscription.trialUsed ==> after.subscription.trialUsed)
  }

  /** What was ever sent stays sent, and the clock does not go back. */
  predicate Remembers(o: Outside, p: Outside) {
    o.remote.requests <= p.remote.requests && o.remote.customerRequests <= p.remote.customerRequests && o.now <= p.now
  }

  ghost predicate Grows(w: World, v: World) {
    && Follows(w.local, v.local) && Remembers(w.outside, v.outside) && w.lost <= v.lost && w.checkouts <= v.checkouts
    && (w.trial.Some? ==> v.trial == w.trial)
  }

  lemma SynchronizeFollows(l: Local, one: Remote, two: Remote, now: Time, id: nat, up: bool, upAgain: bool)
    ensures Synchronize(l, one, two, now, id, up, upAgain).Synced? ==>
              Follows(l, Synchronize(l, one, two, now, id, up, upAgain).local)
  {}

  lemma RecoverFollows(l: Local, v: Views, up: Net)
    ensures Follows(l, Recover(l, v, up).local)
  {
    hide Find, Synchronize;
    var i := LiveAttempt(l.attempts);
    if i.Some? {
      var a := l.attempts[i.value];
      if a.session.Some? {
        ResolvedFollows(l, l, v, i.value, a.session.value, up);
      } else if up.first && Find(v.one.sessions, i.value).Found? {
        var k := Find(v.one.sessions, i.value).session;
        ResolvedFollows(l, SetAttempt(l, i.value, a.(session := Some(k))), v, i.value, k, up);
      }
    }
  }

  lemma ResolvedFollows(l: Local, saved: Local, v: Views, i: nat, k: nat, up: Net)
    requires i < |l.attempts| && Live(l.attempts[i]) && |saved.attempts| == |l.attempts|
    requires saved == SetAttempt(l, i, l.attempts[i].(session := saved.attempts[i].session))
    ensures Follows(l, Resolved(l, saved, v, i, k, up).local)
  {
    hide Synchronize;
    if k < |v.one.sessions| && v.one.sessions[k].sub.Some? {
      SynchronizeFollows(saved, v.two, v.three, v.end, v.one.sessions[k].sub.value, up.second, up.third);
    }
  }

  lemma ProcessEventFollows(l: Local, v: Views, e: Event, up: Net)
    ensures Follows(l, ProcessEvent(l, v, e, up).local)
  {
    hide Synchronize;
    var reference := SubscriptionReference(e.body, e.kind);
    if reference.Some? { SynchronizeFollows(l, v.one, v.two, v.end, reference.value, up.first, up.second); }
  }

  lemma ReserveFollows(l: Local, now: Time, code: string, digest: string, company: CustomerArgs, url: string)
    ensures Follows(l, Reserve(l, now, code, digest, company, url).local)
  {}

  lemma EnsureCustomerFollows(l: Local, r: Remote, delivery: Delivery)
    ensures Follows(l, EnsureCustomer(l, r, delivery).turn.local)
    ensures EnsureCustomer(l, r, delivery).remote.requests == r.requests
    ensures r.customerRequests <= EnsureCustomer(l, r, delivery).remote.customerRequests
  {}

  lemma OpenSessionFollows(l: Local, r: Remote, now: Time, acting: Time, i: nat, digest: string, priceOk: bool,
                           delivery: Delivery, stale: bool)
    ensures var e := OpenSession(l, r, now, acting, i, digest, priceOk, delivery, stale);
            Follows(l, e.turn.local) && r.requests <= e.remote.requests
                && r.customerRequests == e.remote.customerRequests
  {}

  lemma ConfigurePlanFollows(l: Local, p: Plan)
    ensures Follows(l, ConfigurePlan(l, p).local)
  {}

  lemma HappensRemembers(o: Outside, h: Happening)
    ensures Remembers(o, Happens(o, h))
  {}

  lemma {:induction false} ElapseRemembers(o: Outside, hs: seq<Happening>)
    ensures Remembers(o, Elapse(o, hs))
  {
    hide Happens;
    if hs != [] {
      ElapseRemembers(o, hs[..|hs| - 1]);
      HappensRemembers(Elapse(o, hs[..|hs| - 1]), hs[|hs| - 1]);
    }
  }

  lemma GapsRemember(o: Outside, g: Gaps)
    ensures Remembers(o, Last(o, g))
  {
    hide Elapse;
    ElapseRemembers(o, g.before);
    ElapseRemembers(First(o, g), g.second);
    ElapseRemembers(Second(o, g), g.third);
    ElapseRemembers(Third(o, g), g.last);
  }

  lemma StepGrows(w: World, m: Move)
    ensures Grows(w, Step(w, m))
  {
    hide Recover, ProcessEvent, Reserve, EnsureCustomer, OpenSession, ConfigurePlan, Create, Elapse, Happens, Last,
      ViewsOf, Abandoned;
    var l, o := w.local, w.outside;
    match m
    case Around(h) => HappensRemembers(o, h);
    case RecoverMove(g, net) => RecoverFollows(l, ViewsOf(o, g), net); GapsRemember(o, g);
    case EventMove(event, g, net) => ProcessEventFollows(l, ViewsOf(o, g), event, net); GapsRemember(o, g);
    case ReserveMove(code, key, company, url) => ReserveFollows(l, o.now, code, key, company, url);
    case CustomerMove(delivery) => EnsureCustomerFollows(l, o.remote, delivery);
    case OpenMove(waiting, i, digest, priceOk, delivery, stale) =>
      ElapseRemembers(o, waiting);
      var p := Elapse(o, waiting);
      OpenSessionFollows(l, p.remote, o.now, p.now, i, digest, priceOk, delivery, stale);
    case PlanMove(plan) => ConfigurePlanFollows(l, plan);
    case ExemptMove(_) =>
  }

  lemma GrowsTransitive(u: World, v: World, w: World)
    requires Grows(u, v) && Grows(v, w)
    ensures Grows(u, w)
  {
    var a, b, c := u.local, v.local, w.local;
    forall i | 0 <= i < |a.plans| ensures SamePlan(a.plans[i], c.plans[i]) { assert SamePlan(a.plans[i], b.plans[i]); }
    forall i | 0 <= i < |a.attempts| ensures SameAttempt(a.attempts[i], c.attempts[i]) {
      assert SameAttempt(a.attempts[i], b.attempts[i]) && SameAttempt(b.attempts[i], c.attempts[i]);
    }
    forall i | |a.attempts| <= i < |c.attempts| && a.subscription.trialUsed ensures c.attempts[i].trialDays == 0 {
      if i < |b.attempts| { assert SameAttempt(b.attempts[i], c.attempts[i]); }
    }
  }

  /** Over any continuation of any run, from any world. */
  lemma {:induction false} RunGrows(w: World, moves: seq<Move>, k: nat)
    requires k <= |moves|
    ensures Grows(Run(w, moves[..k]), Run(w, moves))
  {
    hide Step, Grows;
    var n := |moves| - 1;
    if k == |moves| {
      assert moves[..k] == moves;
      Unchanged(Run(w, moves));
    } else {
      assert moves[..n][..k] == moves[..k];
      RunGrows(w, moves[..n], k);
      StepGrows(Run(w, moves[..n]), moves[n]);
      GrowsTransitive(Run(w, moves[..k]), Run(w, moves[..n]), Run(w, moves));
    }
  }

  lemma Unchanged(w: World)
    ensures Grows(w, w)
  {}

  // ---- what follows for the catalogue, the events and the trials ----

  /** A plan keeps its code and its price for ever. */
  lemma PlanKeepsItsPrice(w: World, moves: seq<Move>, k: nat, i: nat)
    requires k <= |moves| && i < |Run(w, moves[..k]).local.plans|
    ensures i < |Run(w, moves).local.plans|
    ensures Run(w, moves).local.plans[i].price == Run(w, moves[..k]).local.plans[i].price
    ensures Run(w, moves).local.plans[i].code == Run(w, moves[..k]).local.plans[i].code
  {
    RunGrows(w, moves, k);
  }

  /** Once an event is recorded, no notification with its identifier changes anything, whatever happened since. */
  lemma EventsTakeEffectOnce(w: World, moves: seq<Move>, k: nat, e: Event, g: Gaps, up: Net)
    requires k <= |moves| && e.id in Run(w, moves[..k]).local.events
    ensures var v := Run(w, moves);
            Step(v, EventMove(e, g, up)) == v.(outside := Last(v.outside, g))
    ensures var v := Run(w, moves);
            e.kind != OtherKind && Some(e.customer) == v.local.subscription.customer ==>
              (ProcessEvent(v.local, ViewsOf(v.outside, g), e, up).answer == Done <==>
                  e.digest == Run(w, moves[..k]).local.events[e.id])
  {
    hide Elapse, Last, ViewsOf;
    RunGrows(w, moves, k);
  }

  /** An event that is applied is recorded; one that is refused leaves no record and no other trace. */
  lemma EventsAreRecordedOrRefused(l: Local, v: Views, e: Event, up: Net)
    ensures var t := ProcessEvent(l, v, e, up);
            (t.answer == Refused ==> t.local == l)
                && (t.local != l ==> e.id !in l.events && t.local.events == l.events[e.id := e.digest])
  {
    hide Synchronize;
    var reference := SubscriptionReference(e.body, e.kind);
    if reference.Some? { SynchronizeLeavesEvents(l, v.one, v.two, v.end, reference.value, up.first, up.second); }
  }

  lemma SynchronizeLeavesEvents(l: Local, one: Remote, two: Remote, now: Time, id: nat, up: bool, upAgain: bool)
    ensures Synchronize(l, one, two, now, id, up, upAgain).Synced? ==>
              Synchronize(l, one, two, now, id, up, upAgain).local.events == l.events
  {}

  /** After a trial was accepted, no attempt is reserved with trial days. */
  lemma TrialIsReservedOnce(w: World, moves: seq<Move>, k: nat, i: nat)
    requires k <= |moves| && Run(w, moves[..k]).local.subscription.trialUsed
    requires |Run(w, moves[..k]).local.attempts| <= i < |Run(w, moves).local.attempts|
    ensures Run(w, moves).local.attempts[i].trialDays == 0
  {
    RunGrows(w, moves, k);
  }

  /** A finished attempt is never touched again. */
  lemma FinishedAttemptIsFrozen(w: World, moves: seq<Move>, k: nat, i: nat)
    requires k <= |moves| && i < |Run(w, moves[..k]).local.attempts| && !Live(Run(w, moves[..k]).local.attempts[i])
    ensures i < |Run(w, moves).local.attempts|
            && Run(w, moves).local.attempts[i] == Run(w, moves[..k]).local.attempts[i]
  {
    RunGrows(w, moves, k);
    assert SameAttempt(Run(w, moves[..k]).local.attempts[i], Run(w, moves).local.attempts[i]);
  }
}
