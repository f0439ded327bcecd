/** Every transaction keeps the invariant, whatever happens outside between its calls and clock readings. */
module BillingSteps {
  import opened Basics
  import opened Billing
  import opened BillingInvariant
  import opened BillingRuns
  import opened BillingKeeps
  import opened BillingOutside
  import opened BillingHistory

  // ---- canonical reads ----

  /** What may have become of a subscription since it was read. */
  ghost predicate ReadEarlier(r: Remote, read: Read) {
    && read.sub < |r.subs| && r.subs[read.sub].customer == Ours && r.subs[read.sub].ownCompany
    && read.remote.status != NoStatus
    && (Final(read.remote.status) ==> r.subs[read.sub].status == read.remote.status)
  }

  /** A read of the subscription already followed. */
  lemma SameSubKeeps(lost: set<nat>, l: Local, r: Remote, now: Time, read: Read)
    requires Inv(l, r, now, lost) && l.subscription.sub == Some(read.sub) && ReadEarlier(r, read)
    requires Final(l.subscription.status) ==> Final(read.remote.status)
    ensures Inv(l.(subscription := Updated(l.subscription, read, now)), r, now, lost)
  {
    var after := l.(subscription := Updated(l.subscription, read, now));
    assert SubOk(r, read.sub);
    forall args | args in r.requests ensures ArgumentsOk(after, args) { assert ArgumentsOk(l, args); }
    forall i | 0 <= i < |after.attempts| ensures AttemptOk(after, r, now, i, lost) {
      assert AttemptOk(l, r, now, i, lost);
    }
  }

  /** A read that moves on to the subscription bought in the attempt in progress. */
  lemma NewSubKeeps(lost: set<nat>, l: Local, r: Remote, now: Time, i: nat, read: Read)
    requires Inv(l, r, now, lost) && i < |l.attempts| && Live(l.attempts[i]) && ReadEarlier(r, read)
    requires l.attempts[i].session.Some? && l.attempts[i].session.value < |r.sessions|
    requires Refers(r.sessions[l.attempts[i].session.value], i)
    requires r.sessions[l.attempts[i].session.value].status == Completed
    requires r.sessions[l.attempts[i].session.value].sub == Some(read.sub)
    ensures Inv(l.(attempts := l.attempts[i := l.attempts[i].(status := Complete)],
                   subscription := Updated(l.subscription, read, now)), r, now, lost)
  {
    var k := l.attempts[i].session.value;
    var after := l.(attempts := l.attempts[i := l.attempts[i].(status := Complete)],
                    subscription := Updated(l.subscription, read, now));
    assert SubOk(r, read.sub) && PaidOk(r, k);
    forall args | args in r.requests ensures ArgumentsOk(after, args) { assert ArgumentsOk(l, args); }
    forall m | 0 <= m < |after.attempts| ensures AttemptOk(after, r, now, m, lost) {
      assert AttemptOk(l, r, now, m, lost);
    }
    assert CurrentOk(after, r) by {
      forall j, m | 0 <= j < |r.subs| && 0 <= m < |after.attempts| && From(r, j, m)
          && after.attempts[m].status == Complete
        ensures j == read.sub || Final(r.subs[j].status) {
        if m == i { OneSession(l, r, i, r.subs[j].session.value, k); assert SubOk(r, j); }
      }
    }
  }

  lemma FollowedIsOver(lost: set<nat>, l: Local, o: Outside)
    requires InvAt(l, o, lost) && l.subscription.sub.Some? && Final(l.subscription.status)
    ensures l.subscription.sub.value < |o.remote.subs| && Final(o.remote.subs[l.subscription.sub.value].status)
  {}

  lemma OwnCustomer(lost: set<nat>, l: Local, o: Outside)
    requires InvAt(l, o, lost) && l.subscription.customer.Some?
    ensures l.subscription.customer == Some(Ours)
  {}

  /** The two calls of a canonical read may see the provider at different times, both before `end`. */
  lemma SynchronizeKeeps(lost: set<nat>, l: Local, one: Outside, two: Outside, end: Outside, id: nat, up: bool,
                         upAgain: bool)
    requires InvAt(l, one, lost) && InvAt(l, end, lost) && Later(one, end) && Later(two, end)
    requires Synchronize(l, one.remote, two.remote, end.now, id, up, upAgain).Synced?
    ensures InvAt(Synchronize(l, one.remote, two.remote, end.now, id, up, upAgain).local, end, lost)
  {
    hide Inv;
    var read := Synchronize(l, one.remote, two.remote, end.now, id, up, upAgain).read;
    OwnCustomer(lost, l, one);
    assert SameSub(one.remote.subs[id], end.remote.subs[id]);
    assert ReadEarlier(end.remote, read);
    if l.subscription.sub == Some(id) {
      if Final(l.subscription.status) { FollowedIsOver(lost, l, one); }
      SameSubKeeps(lost, l, end.remote, end.now, read);
    } else {
      var i := LiveAttempt(l.attempts).value;
      assert SameSession(two.remote.sessions[l.attempts[i].session.value],
                         end.remote.sessions[l.attempts[i].session.value]);
      NewSubKeeps(lost, l, end.remote, end.now, i, read);
    }
  }

  // ---- recovery ----

  lemma LapsedIsDead(lost: set<nat>, l: Local, r: Remote, now: Time, i: nat, k: nat)
    requires Inv(l, r, now, lost) && i < |l.attempts| && k < |r.sessions| && Refers(r.sessions[k], i)
             && r.sessions[k].status == Lapsed
    ensures Dead(l, r, now, i)
    ensures l.attempts[i].session.Some? ==> l.attempts[i].session == Some(k)
  {
    assert AttemptOk(l, r, now, i, lost) && SessionOk(r, k);
    forall m | 0 <= m < |r.sessions| && Refers(r.sessions[m], i) ensures m == k { OneSession(l, r, i, m, k); }
    OneSession(l, r, i, k, k);
  }

  lemma ResolvedKeeps(lost: set<nat>, l: Local, saved: Local, o: Outside, g: Gaps, i: nat, k: nat, up: Net)
    requires InvAt(l, Last(o, g), lost) && InvAt(saved, First(o, g), lost)
    requires i < |saved.attempts| && Live(saved.attempts[i])
    ensures InvAt(Resolved(l, saved, ViewsOf(o, g), i, k, up).local, Last(o, g), lost)
  {
    hide Synchronize, Inv, Elapse;
    GapsAreLater(o, g);
    GapsKeepFromFirst(lost, saved, o, g);
    var one, end := First(o, g), Last(o, g);
    if k < |one.remote.sessions| && Refers(one.remote.sessions[k], i) {
      assert SameSession(one.remote.sessions[k], end.remote.sessions[k]);
      if one.remote.sessions[k].status == Completed && one.remote.sessions[k].sub.Some?
         && Synchronize(saved, Second(o, g).remote, Third(o, g).remote, end.now, one.remote.sessions[k].sub.value,
                        up.second, up.third).Synced? {
        SynchronizeKeeps(lost, saved, Second(o, g), Third(o, g), end, one.remote.sessions[k].sub.value, up.second,
                         up.third);
      } else if one.remote.sessions[k].status == Lapsed {
        LapsedIsDead(lost, saved, end.remote, end.now, i, k);
        AttemptKeeps(lost, saved, end.remote, end.now, i, saved.attempts[i].(status := Expired));
      }
    }
  }

  /** A search after the deadline that found nothing stays true: nothing can be created any more. */
  lemma UnknownIsDead(lost: set<nat>, l: Local, one: Outside, end: Outside, i: nat)
    requires InvAt(l, end, lost) && Later(one, end) && i < |l.attempts| && l.attempts[i].expiresAt <= end.now
    requires l.subscription.customer.None?
             || (Find(one.remote.sessions, i).Missing? && l.attempts[i].expiresAt <= one.now)
    ensures Dead(l, end.remote, end.now, i)
  {
    FindIsReliable(one.remote.sessions, i);
    SessionDeadline(lost, l, end, i);
    var s := end.remote.sessions;
    forall m | 0 <= m < |s| ensures !Refers(s[m], i) {
      if m < |one.remote.sessions| { assert SameSession(one.remote.sessions[m], s[m]); }
    }
  }

  /** A session of an attempt has the attempt's deadline, and its customer is known. */
  lemma SessionDeadline(lost: set<nat>, l: Local, o: Outside, i: nat)
    requires InvAt(l, o, lost) && i < |l.attempts|
    ensures forall m :: 0 <= m < |o.remote.sessions| && Refers(o.remote.sessions[m], i) ==>
              o.remote.sessions[m].args.value.expiresAt == l.attempts[i].expiresAt && l.subscription.customer.Some?
  {
    forall m | 0 <= m < |o.remote.sessions| && Refers(o.remote.sessions[m], i)
      ensures o.remote.sessions[m].args.value.expiresAt == l.attempts[i].expiresAt && l.subscription.customer.Some? {
      assert SessionOk(o.remote, m);
      assert ArgumentsOk(l, o.remote.sessions[m].args.value);
    }
  }

  lemma MoreLost(lost: set<nat>, more: set<nat>, l: Local, o: Outside)
    requires lost <= more
    ensures InvAt(l, o, lost) ==> InvAt(l, o, more)
  {
    if InvAt(l, o, lost) {
      forall i | 0 <= i < |l.attempts| ensures AttemptOk(l, o.remote, o.now, i, more) {
        assert AttemptOk(l, o.remote, o.now, i, lost);
      }
    }
  }

  /** The end of a recovery that knows no session. */
  lemma GivenUpKeeps(lost: set<nat>, l: Local, one: Outside, end: Outside, i: nat)
    requires InvAt(l, end, lost) && Later(one, end) && i < |l.attempts| && Live(l.attempts[i])
    requires i in lost || l.subscription.customer.None? || l.attempts[i].expiresAt > end.now
             || (Find(one.remote.sessions, i).Missing? && l.attempts[i].expiresAt <= one.now)
    ensures InvAt(GivenUp(l, end.now, i).local, end, lost)
  {
    hide Inv, Later, Find;
    if l.attempts[i].expiresAt <= end.now {
      if i !in lost { UnknownIsDead(lost, l, one, end, i); }
      assert Progresses(l, end.remote, end.now, i, l.attempts[i].(status := Expired)) by {
        KnownSession(lost, l, end, i);
      }
      AttemptKeeps(lost, l, end.remote, end.now, i, l.attempts[i].(status := Expired));
    }
  }

  lemma KnownSession(lost: set<nat>, l: Local, o: Outside, i: nat)
    requires InvAt(l, o, lost) && i < |l.attempts|
    ensures l.attempts[i].session.Some? ==>
              l.attempts[i].session.value < |o.remote.sessions|
                  && Refers(o.remote.sessions[l.attempts[i].session.value], i)
  {
    assert AttemptOk(l, o.remote, o.now, i, lost);
  }

  /** A recovery keeps the invariant; an attempt given up across its deadline is counted as lost. */
  lemma RecoverKeeps(lost: set<nat>, l: Local, o: Outside, g: Gaps, up: Net)
    requires InvAt(l, o, lost)
    ensures InvAt(Recover(l, ViewsOf(o, g), up).local, Last(o, g), lost + Abandoned(l, o.now, Last(o, g).now))
  {
    hide InvAt, Find, Resolved, GivenUp, Later, Elapse;
    GapsKeep(lost, l, o, g);
    GapsAreLater(o, g);
    var v, one, end := ViewsOf(o, g), First(o, g), Last(o, g);
    assert o.now <= one.now by { LaterClock(o, one); }
    var all := lost + Abandoned(l, o.now, end.now);
    MoreLost(lost, all, l, end);
    var i := LiveAttempt(l.attempts);
    if i.Some? {
      var a := l.attempts[i.value];
      if a.session.Some? {
        if up.first { ResolvedKeeps(lost, l, l, o, g, i.value, a.session.value, up); }
      } else if a.expiresAt <= o.now && l.subscription.customer.Some? {
        if up.first && Find(one.remote.sessions, i.value).Found? {
          var k := Find(one.remote.sessions, i.value).session;
          FindIsReliable(one.remote.sessions, i.value);
          FoundKeeps(lost, l, one, i.value, k);
          ResolvedKeeps(lost, l, SetAttempt(l, i.value, a.(session := Some(k))), o, g, i.value, k, up);
        } else if up.first && Find(one.remote.sessions, i.value).Missing? {
          GivenUpKeeps(lost, l, one, end, i.value);
        }
      } else {
        GivenUpKeeps(all, l, one, end, i.value);
      }
    }
    MoreLost(lost, all, Recover(l, v, up).local, end);
  }

  lemma LaterClock(o: Outside, p: Outside)
    requires Later(o, p)
    ensures o.now <= p.now
  {}

  lemma FoundKeeps(lost: set<nat>, l: Local, o: Outside, i: nat, k: nat)
    requires InvAt(l, o, lost) && i < |l.attempts| && Live(l.attempts[i])
    requires k < |o.remote.sessions| && Refers(o.remote.sessions[k], i)
    ensures InvAt(SetAttempt(l, i, l.attempts[i].(session := Some(k))), o, lost)
  {
    hide Inv;
    AttemptKeeps(lost, l, o.remote, o.now, i, l.attempts[i].(session := Some(k)));
  }

  // ---- the other transactions ----

  lemma OpenSessionKeeps(lost: set<nat>, l: Local, o: Outside, now: Time, i: nat, digest: string, priceOk: bool,
                         delivery: Delivery, stale: bool)
    requires InvAt(l, o, lost) && i < |l.attempts| && l.attempts[i].digest == digest
    ensures var e := OpenSession(l, o.remote, now, o.now, i, digest, priceOk, delivery, stale);
            Inv(e.turn.local, e.remote, o.now, lost)
  {
    hide Inv, Create;
    if MaySend(l, now, i, priceOk) && !delivery.NotSent? {
      OwnCustomer(lost, l, o);
      var r, args := o.remote, ArgsFor(l, Ours, i, digest);
      SentKeeps(lost, l, r, o.now, args);
      if delivery.Answered? {
        var after := Create(Sent(r, args), o.now, args);
        CreateKeeps(lost, l, Sent(r, args), o.now, args);
        var k := if KeyOf(args) in after.keys then after.keys[KeyOf(args)] else |after.sessions|;
        if k < |after.sessions| && Refers(after.sessions[k], i) {
          AttemptKeeps(lost, l, after, o.now, i, l.attempts[i].(session := Some(k), url := true, status := Open));
        }
      }
    }
  }

  /** Recording an event, and other changes of the row that nothing depends on. */
  lemma RecordKeeps(lost: set<nat>, l: Local, o: Outside, after: Local)
    requires InvAt(l, o, lost) && after.attempts == l.attempts && after.plans == l.plans
    requires after.subscription == l.subscription.(exempt := after.subscription.exempt)
    ensures InvAt(after, o, lost)
  {
    hide Inv;
    InvCustomers(lost, l, o.remote, o.now);
    RowKeeps(lost, l, o.remote, o.now, after);
  }

  lemma ProcessEventKeeps(lost: set<nat>, l: Local, o: Outside, g: Gaps, e: Event, up: Net)
    requires InvAt(l, o, lost)
    ensures InvAt(ProcessEvent(l, ViewsOf(o, g), e, up).local, Last(o, g), lost)
  {
    hide Inv, Synchronize, Elapse;
    GapsKeep(lost, l, o, g);
    GapsAreLater(o, g);
    var v, one, two, end := ViewsOf(o, g), First(o, g), Second(o, g), Last(o, g);
    var after := ProcessEvent(l, v, e, up).local;
    if e.kind != OtherKind && Some(e.customer) == l.subscription.customer && e.id !in l.events {
      if e.kind == SessionExpired {
        var i := LiveAttempt(l.attempts);
        if after.attempts != l.attempts {
          assert SameSession(one.remote.sessions[e.body.id.value], end.remote.sessions[e.body.id.value]);
          LapsedIsDead(lost, l, end.remote, end.now, i.value, e.body.id.value);
          AttemptKeeps(lost, l, end.remote, end.now, i.value, l.attempts[i.value].(status := Expired));
          RecordKeeps(lost, SetAttempt(l, i.value, l.attempts[i.value].(status := Expired)), end, after);
        } else {
          RecordKeeps(lost, l, end, after);
        }
      } else {
        var reference := SubscriptionReference(e.body, e.kind);
        if reference.Some? && Synchronize(l, one.remote, two.remote, end.now, reference.value, up.first,
                                          up.second).Synced? {
          LaterEnd(o, g);
          SynchronizeKeeps(lost, l, one, two, end, reference.value, up.first, up.second);
          RecordKeeps(lost, Synchronize(l, one.remote, two.remote, end.now, reference.value, up.first,
                                        up.second).local, end, after);
        }
      }
    }
  }

  lemma LaterEnd(o: Outside, g: Gaps)
    ensures Later(First(o, g), Last(o, g)) && Later(Second(o, g), Last(o, g))
  {
    GapsAreLater(o, g);
  }

  // ---- runs ----

  /** A checkout goes on with the digest of the attempt it reserved. */
  ghost predicate CheckoutsOk(l: Local, checkouts: set<(nat, string)>) {
    forall c :: c in checkouts ==> c.0 < |l.attempts| && l.attempts[c.0].digest == c.1
  }

  ghost predicate Sound(w: World) { InvAt(w.local, w.outside, w.lost) && CheckoutsOk(w.local, w.checkouts) }

  lemma ReservedDigest(l: Local, now: Time, code: string, digest: string, company: CustomerArgs, url: string)
    ensures var t := Reserve(l, now, code, digest, company, url);
            t.answer.Reserved? ==>
              t.answer.attempt < |t.local.attempts| && t.local.attempts[t.answer.attempt].digest == digest
  {}

  lemma StepKeepsInv(w: World, m: Move)
    requires Sound(w)
    ensures InvAt(Step(w, m).local, Step(w, m).outside, Step(w, m).lost)
  {
    hide Inv, Create, Recover, Reserve, EnsureCustomer, OpenSession, ProcessEvent, ConfigurePlan, Elapse, Happens;
    var l, o, lost := w.local, w.outside, w.lost;
    match m
    case Around(h) => HappensKeeps(lost, l, o, h);
    case RecoverMove(g, net) => RecoverKeeps(lost, l, o, g, net);
    case ReserveMove(code, key, company, url) => ReserveKeeps(lost, l, o.remote, o.now, code, key, company, url);
    case CustomerMove(delivery) => EnsureCustomerKeeps(lost, l, o.remote, o.now, delivery);
    case OpenMove(waiting, i, digest, priceOk, delivery, stale) =>
      if (i, digest) in w.checkouts {
        ElapseKeeps(lost, l, o, waiting);
        OpenSessionKeeps(lost, l, Elapse(o, waiting), o.now, i, digest, priceOk, delivery, stale);
      }
    case EventMove(event, g, net) => ProcessEventKeeps(lost, l, o, g, event, net);
    case ExemptMove(exempt) => RecordKeeps(lost, l, o, Step(w, m).local);
    case PlanMove(plan) => PlanKeeps(lost, l, o.remote, o.now, plan);
  }

  lemma StepKeepsCheckouts(w: World, m: Move)
    requires CheckoutsOk(w.local, w.checkouts)
    ensures CheckoutsOk(Step(w, m).local, Step(w, m).checkouts)
  {
    hide Recover, Reserve, EnsureCustomer, OpenSession, ProcessEvent, ConfigurePlan, Elapse, Happens, Last, ViewsOf,
      Abandoned;
    StepGrows(w, m);
    var l, after := w.local, Step(w, m).local;
    if m.ReserveMove? { ReservedDigest(l, w.outside.now, m.code, m.key, m.company, m.publicUrl); }
    forall c | c in w.checkouts ensures c.0 < |after.attempts| && after.attempts[c.0].digest == c.1 {
      assert SameAttempt(l.attempts[c.0], after.attempts[c.0]);
    }
  }

  lemma StepKeeps(w: World, m: Move)
    requires Sound(w)
    ensures Sound(Step(w, m))
  {
    hide Step, InvAt, CheckoutsOk;
    StepKeepsInv(w, m);
    StepKeepsCheckouts(w, m);
  }

  lemma {:induction false} RunKeeps(w: World, moves: seq<Move>)
    requires Initial(w)
    ensures Sound(Run(w, moves))
  {
    hide Step;
    if moves != [] {
      RunKeeps(w, moves[..|moves| - 1]);
      StepKeeps(Run(w, moves[..|moves| - 1]), moves[|moves| - 1]);
    }
  }
}
