/** The company's row is what its last accepted canonical read says, and trials are bounded. */
module BillingReads {
  import opened Basics
  import opened Billing
  import opened BillingRuns

  // ---- the row is a function of the last read ----

  /** Everything that decides access, except the exemption. */
  predicate Reflects(s: Subscription, read: Option<Read>) {
    match read
    case None =>
      s.plan.None? && s.sub.None? && s.status == NoStatus && s.accessUntil.None? && s.periodEnd.None?
          && s.trialEnd.None? && !s.cancels
    case Some(d) =>
      && s.plan == Some(d.plan) && s.sub == Some(d.sub) && s.status == d.remote.status
      && s.accessUntil == AccessFrom(Some(d.remote.customer), d)
      && s.periodEnd == d.remote.periodEnd && s.trialEnd == d.remote.trialEnd && s.cancels == d.remote.cancels
  }

  /** Two rows that agree on everything a read decides. */
  predicate SameFacts(s: Subscription, t: Subscription) {
    t == s.(exempt := t.exempt, customer := t.customer, customerName := t.customerName,
            customerEmail := t.customerEmail)
  }

  /** What a transaction did to the row: nothing, or one accepted read of the provider, for the row's customer. */
  ghost predicate ReadOnce(l: Local, r: Remote, now: Time, t: Turn) {
    match t.read
    case None => SameFacts(l.subscription, t.local.subscription)
    case Some(d) =>
      && d.sub < |r.subs| && d.remote == r.subs[d.sub] && t.local.subscription == Updated(l.subscription, d, now)
      && TrialAccepted(l.subscription, d.remote, d.trialDays) && d.remote.periodEnd.Some?
      && l.subscription.customer == Some(d.remote.customer)
      && (l.subscription.sub == Some(d.sub) || l.subscription.sub.None? || Final(l.subscription.status))
  }

  lemma SynchronizeReadsOnce(l: Local, one: Remote, two: Remote, now: Time, id: nat, up: bool, upAgain: bool)
    ensures ReadOnce(l, one, now, FromSync(l, Synchronize(l, one, two, now, id, up, upAgain)))
  {}

  lemma RecoverReadsOnce(l: Local, v: Views, up: Net)
    ensures ReadOnce(l, v.two, v.end, Recover(l, v, up))
  {
    hide Find, Synchronize, ReadOnce;
    var i := LiveAttempt(l.attempts);
    Idle(l, v.two, v.end);
    if i.Some? {
      var a := l.attempts[i.value];
      if a.session.Some? {
        if up.first {
          ResolvedReadsOnce(l, l, v, i.value, a.session.value, up);
        } else {
          Untouched(l, v.two, v.end, Recover(l, v, up));
        }
      } else if a.expiresAt <= v.start && l.subscription.customer.Some? && up.first
          && Find(v.one.sessions, i.value).Found? {
        var k := Find(v.one.sessions, i.value).session;
        ResolvedReadsOnce(l, SetAttempt(l, i.value, a.(session := Some(k))), v, i.value, k, up);
      } else {
        Untouched(l, v.two, v.end, Recover(l, v, up));
      }
    }
  }

  lemma Idle(l: Local, r: Remote, now: Time)
    ensures ReadOnce(l, r, now, Turn(l, Done, None))
  {}

  lemma Untouched(l: Local, r: Remote, now: Time, t: Turn)
    requires t.read.None? && t.local.subscription == l.subscription
    ensures ReadOnce(l, r, now, t)
  {}

  lemma ResolvedReadsOnce(l: Local, saved: Local, v: Views, i: nat, k: nat, up: Net)
    requires saved.subscription == l.subscription
    ensures ReadOnce(l, v.two, v.end, Resolved(l, saved, v, i, k, up))
  {
    hide Synchronize;
    if k < |v.one.sessions| && v.one.sessions[k].sub.Some? {
      SynchronizeReadsOnce(saved, v.two, v.three, v.end, v.one.sessions[k].sub.value, up.second, up.third);
    }
  }

  lemma ProcessEventReadsOnce(l: Local, v: Views, e: Event, up: Net)
    ensures ReadOnce(l, v.one, v.end, ProcessEvent(l, v, e, up))
  {
    hide Synchronize;
    var reference := SubscriptionReference(e.body, e.kind);
    if reference.Some? { SynchronizeReadsOnce(l, v.one, v.two, v.end, reference.value, up.first, up.second); }
  }

  // ---- the history of a run ----

  /** The read and the first trial of the history agree with the row. */
  predicate Consistent(w: World) {
    && Reflects(w.local.subscription, w.read)
    && (w.local.subscription.trialUsed <==> w.trial.Some?)
    && (w.trial.Some? ==>
          w.trial.value.days > 0 && w.trial.value.end - w.trial.value.start <= w.trial.value.days * DAY + 60)
    && (w.trial.Some? ==> w.read.Some?)
    && (w.read.Some? ==> w.read.value.remote.periodEnd.Some?)
    && (w.local.subscription.status == Trialing && w.local.subscription.trialEnd.Some? ==>
         w.local.subscription.trialUsed)
  }

  lemma ReserveReadsNothing(l: Local, r: Remote, now: Time, code: string, digest: string, company: CustomerArgs,
                            url: string)
    ensures var t := Reserve(l, now, code, digest, company, url);
            t.read.None? && ReadOnce(l, r, now, t)
  {}

  lemma CheckoutReadsNothing(l: Local, r: Remote, now: Time, acting: Time, i: nat, digest: string, priceOk: bool,
                             delivery: Delivery, stale: bool)
    ensures var t := OpenSession(l, r, now, acting, i, digest, priceOk, delivery, stale).turn;
            t.read.None? && ReadOnce(l, r, now, t)
    ensures var t := EnsureCustomer(l, r, delivery).turn;
            t.read.None? && ReadOnce(l, r, now, t)
  {
    hide Create, ArgsFor, KeyOf;
  }

  /** Every move of a run does to the row what one transaction with at most one accepted read does. */
  lemma StepReadsOnce(w: World, m: Move) returns (r: Remote, now: Time, t: Turn)
    ensures ReadOnce(w.local, r, now, t) && Step(w, m).local.subscription == t.local.subscription
    ensures Step(w, m).read == Apply(w, t, w.outside).read && Step(w, m).trial == Apply(w, t, w.outside).trial
  {
    hide Recover, ProcessEvent, Reserve, OpenSession, EnsureCustomer, ReadOnce, Elapse, Happens, Last, ViewsOf,
      Abandoned;
    var l, o := w.local, w.outside;
    r, now, t := o.remote, o.now, Turn(l, Done, None);
    Idle(l, r, now);
    match m
    case Around(_) =>
    case RecoverMove(g, net) =>
      var v := ViewsOf(o, g);
      r, now, t := v.two, v.end, Recover(l, v, net);
      RecoverReadsOnce(l, v, net);
    case EventMove(event, g, net) =>
      var v := ViewsOf(o, g);
      r, now, t := v.one, v.end, ProcessEvent(l, v, event, net);
      ProcessEventReadsOnce(l, v, event, net);
    case ReserveMove(code, key, company, url) =>
      t := Reserve(l, o.now, code, key, company, url);
      ReserveReadsNothing(l, r, now, code, key, company, url);
    case CustomerMove(delivery) =>
      t := EnsureCustomer(l, r, delivery).turn;
      CheckoutReadsNothing(l, r, now, now, 0, "", true, delivery, false);
    case OpenMove(waiting, i, digest, priceOk, delivery, stale) =>
      if (i, digest) in w.checkouts {
        var p := Elapse(o, waiting);
        r := p.remote;
        t := OpenSession(l, r, now, p.now, i, digest, priceOk, delivery, stale).turn;
        CheckoutReadsNothing(l, r, now, p.now, i, digest, priceOk, delivery, stale);
      }
    case ExemptMove(_) =>
      t := Turn(Step(w, m).local, Done, None);
      assert ReadOnce(l, r, now, t) by { Unread(l, r, now, t); }
    case PlanMove(plan) =>
      t := ConfigurePlan(l, plan);
      assert ReadOnce(l, r, now, t) by { Unread(l, r, now, t); }
  }

  lemma Unread(l: Local, r: Remote, now: Time, t: Turn)
    requires t.read.None? && SameFacts(l.subscription, t.local.subscription)
    ensures ReadOnce(l, r, now, t)
  {}

  lemma StepKeepsConsistent(w: World, m: Move)
    requires Consistent(w)
    ensures Consistent(Step(w, m))
  {
    hide Step, AccessFrom;
    var r, now, t := StepReadsOnce(w, m);
  }

  lemma {:induction false} RunIsConsistent(w: World, moves: seq<Move>)
    requires Initial(w)
    ensures Consistent(Run(w, moves))
  {
    hide Step, Consistent;
    if moves == [] {
      StartIsConsistent(w);
    } else {
      RunIsConsistent(w, moves[..|moves| - 1]);
      StepKeepsConsistent(Run(w, moves[..|moves| - 1]), moves[|moves| - 1]);
    }
  }

  lemma StartIsConsistent(w: World)
    requires Initial(w)
    ensures Consistent(w)
  {}

  /**
   However the notifications were repeated, lost or reordered, access without an exemption means that the
   last canonical read was of a fully paid active period, or of an accepted trial, that ends later.
   */
  lemma AccessIsPaidOrTrial(w: World, moves: seq<Move>)
    requires Initial(w)
    ensures var v := Run(w, moves);
            HasAccess(v.local.subscription, v.outside.now) && !v.local.subscription.exempt ==>
              v.read.Some? && v.read.value.remote.periodEnd.Some? && v.read.value.remote.periodEnd.value > v.outside.now
              && ((v.read.value.remote.status == Active
                   && FullyPaid(v.read.value.remote.latest, Some(v.read.value.remote.customer), v.read.value.sub))
                  || (v.read.value.remote.status == Trialing && v.read.value.remote.trialEnd.Some?
                      && v.read.value.remote.trialEnd.value > v.outside.now && v.trial.Some?))
  {
    hide Run;
    RunIsConsistent(w, moves);
  }

  /** Two runs whose last accepted reads are equal leave equal plans, statuses and dates. */
  lemma LastReadDecides(w: World, moves: seq<Move>, other: World, others: seq<Move>)
    requires Initial(w) && Initial(other) && Run(w, moves).read == Run(other, others).read
    ensures var s := Run(w, moves).local.subscription; var t := Run(other, others).local.subscription;
            s.plan == t.plan && s.sub == t.sub && s.status == t.status && s.accessUntil == t.accessUntil
            && s.periodEnd == t.periodEnd && s.trialEnd == t.trialEnd && s.cancels == t.cancels
  {
    RunIsConsistent(w, moves);
    RunIsConsistent(other, others);
  }
}
