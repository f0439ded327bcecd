/** The subscription that the row follows was always bought in a completed attempt. */
module BillingFollowed {
  import opened Basics
  import opened Billing
  import opened BillingRuns
  import opened BillingInvariant
  import opened BillingOutside
  import opened BillingHistory
  import opened BillingReads

  predicate BoughtIn(l: Local, r: Remote, i: nat, id: nat) {
    && i < |l.attempts| && l.attempts[i].status == Complete && l.attempts[i].session.Some?
    && l.attempts[i].session.value < |r.sessions|
    && r.sessions[l.attempts[i].session.value].status == Completed
    && r.sessions[l.attempts[i].session.value].sub == Some(id)
  }

  ghost predicate Followed(l: Local, r: Remote) {
    l.subscription.sub.Some? ==> exists i: nat :: BoughtIn(l, r, i, l.subscription.sub.value)
  }

  /** Sessions remain, and those that are over remain as they are. */
  ghost predicate SessionsRemain(r: Remote, s: Remote) {
    |r.sessions| <= |s.sessions|
    && forall k :: 0 <= k < |r.sessions| && r.sessions[k].status != Opened ==> s.sessions[k] == r.sessions[k]
  }

  lemma LaterRemain(o: Outside, p: Outside)
    requires Later(o, p)
    ensures SessionsRemain(o.remote, p.remote)
  {
    forall k | 0 <= k < |o.remote.sessions| && o.remote.sessions[k].status != Opened
      ensures p.remote.sessions[k] == o.remote.sessions[k] {
      assert SameSession(o.remote.sessions[k], p.remote.sessions[k]);
    }
  }

  lemma FollowedRemains(l: Local, r: Remote, after: Local, s: Remote)
    requires Followed(l, r) && after.subscription.sub == l.subscription.sub && Follows(l, after) && SessionsRemain(r, s)
    ensures Followed(after, s)
  {
    if l.subscription.sub.Some? {
      var i: nat :| BoughtIn(l, r, i, l.subscription.sub.value);
      assert SameAttempt(l.attempts[i], after.attempts[i]);
      assert BoughtIn(after, s, i, l.subscription.sub.value);
    }
  }

  lemma SynchronizeFollowed(l: Local, one: Remote, two: Remote, now: Time, id: nat, up: bool, upAgain: bool,
                            end: Remote)
    requires Followed(l, end) && SessionsRemain(two, end)
    ensures var s := Synchronize(l, one, two, now, id, up, upAgain);
            s.Synced? ==> Followed(s.local, end)
  {
    hide TrialAccepted, Updated, Followed;
    var s := Synchronize(l, one, two, now, id, up, upAgain);
    if s.Synced? {
      SubIs(l, s.read, now);
      if l.subscription.sub != Some(id) {
        var i := LiveAttempt(l.attempts).value;
        assert BoughtIn(s.local, end, i, id);
        Witness(s.local, end, i, id);
      } else {
        SynchronizeFollows(l, one, two, now, id, up, upAgain);
        FollowedRemains(l, end, s.local, end);
      }
    }
  }

  lemma SubIs(l: Local, read: Read, now: Time)
    ensures Updated(l.subscription, read, now).sub == Some(read.sub)
  {}

  lemma Witness(l: Local, r: Remote, i: nat, id: nat)
    requires BoughtIn(l, r, i, id) && l.subscription.sub == Some(id)
    ensures Followed(l, r)
  {}

  lemma ResolvedFollowed(l: Local, saved: Local, v: Views, i: nat, k: nat, up: Net, end: Remote)
    requires Followed(l, end) && Followed(saved, end) && SessionsRemain(v.three, end)
    requires i < |saved.attempts| && Live(saved.attempts[i])
    ensures Followed(Resolved(l, saved, v, i, k, up).local, end)
  {
    hide Synchronize, Followed, SessionsRemain;
    if k < |v.one.sessions| && v.one.sessions[k].sub.Some? {
      SynchronizeFollowed(saved, v.two, v.three, v.end, v.one.sessions[k].sub.value, up.second, up.third, end);
    }
    var expired := SetAttempt(saved, i, saved.attempts[i].(status := Expired));
    FollowedRemains(saved, end, expired, end) by { SameRemain(end); }
  }

  lemma SameRemain(r: Remote)
    ensures SessionsRemain(r, r)
  {}

  lemma RecoverFollowed(l: Local, v: Views, up: Net, end: Remote)
    requires Followed(l, end) && SessionsRemain(v.three, end)
    ensures Followed(Recover(l, v, up).local, end)
  {
    hide Find, Resolved, Followed, SessionsRemain;
    SameRemain(end);
    var i := LiveAttempt(l.attempts);
    if i.Some? {
      var a := l.attempts[i.value];
      var expired := SetAttempt(l, i.value, a.(status := Expired));
      FollowedRemains(l, end, expired, end);
      if a.session.Some? {
        ResolvedFollowed(l, l, v, i.value, a.session.value, up, end);
      } else if up.first && Find(v.one.sessions, i.value).Found? {
        var k := Find(v.one.sessions, i.value).session;
        var saved := SetAttempt(l, i.value, a.(session := Some(k)));
        FollowedRemains(l, end, saved, end);
        ResolvedFollowed(l, saved, v, i.value, k, up, end);
      }
    }
  }

  lemma ProcessEventFollowed(l: Local, v: Views, e: Event, up: Net, end: Remote)
    requires Followed(l, end) && SessionsRemain(v.two, end)
    ensures Followed(ProcessEvent(l, v, e, up).local, end)
  {
    hide Synchronize, Followed, SessionsRemain;
    SameRemain(end);
    var after := ProcessEvent(l, v, e, up).local;
    var reference := SubscriptionReference(e.body, e.kind);
    if e.kind == OtherKind || e.kind == SessionExpired || after == l {
      ProcessEventFollows(l, v, e, up);
      FollowedRemains(l, end, after, end);
    } else if reference.Some? {
      SynchronizeFollowed(l, v.one, v.two, v.end, reference.value, up.first, up.second, end);
      var s := Synchronize(l, v.one, v.two, v.end, reference.value, up.first, up.second);
      if s.Synced? && e.id !in l.events {
        SynchronizeKeepsEvents(l, v.one, v.two, v.end, reference.value, up.first, up.second);
        RecordedFollows(s.local, e);
        FollowedRemains(s.local, end, Recorded(s.local, e), end);
      }
    }
  }

  lemma RecordedFollows(l: Local, e: Event)
    requires e.id !in l.events
    ensures Follows(l, Recorded(l, e))
  {}

  lemma SynchronizeKeepsEvents(l: Local, one: Remote, two: Remote, now: Time, id: nat, up: bool, upAgain: bool)
    ensures var s := Synchronize(l, one, two, now, id, up, upAgain);
            s.Synced? ==> s.local.events == l.events
  {}

  lemma StepFollowed(w: World, m: Move)
    requires Followed(w.local, w.outside.remote)
    ensures Followed(Step(w, m).local, Step(w, m).outside.remote)
  {
    hide Recover, ProcessEvent, Reserve, OpenSession, EnsureCustomer, ConfigurePlan, Followed, SessionsRemain, Happens,
      Elapse, Follows, Later, Abandoned;
    var l, o, v := w.local, w.outside, Step(w, m);
    StepGrows(w, m);
    match m
    case RecoverMove(g, net) =>
      GapsRemain(o, g);
      FollowedRemains(l, o.remote, l, Last(o, g).remote) by { FollowsItself(l); }
      RecoverFollowed(l, ViewsOf(o, g), net, Last(o, g).remote);
    case EventMove(event, g, net) =>
      GapsRemain(o, g);
      FollowedRemains(l, o.remote, l, Last(o, g).remote) by { FollowsItself(l); }
      ProcessEventFollowed(l, ViewsOf(o, g), event, net, Last(o, g).remote);
    case Around(h) =>
      HappensIsLater(o, h);
      LaterRemain(o, Happens(o, h));
      FollowedRemains(l, o.remote, v.local, v.outside.remote);
    case ReserveMove(code, key, company, url) =>
      ReserveReadsNothing(l, o.remote, o.now, code, key, company, url);
      SameRemain(o.remote);
      FollowedRemains(l, o.remote, v.local, v.outside.remote);
    case CustomerMove(delivery) =>
      CheckoutReadsNothing(l, o.remote, o.now, o.now, 0, "", true, delivery, false);
      CustomerRemain(l, o.remote, delivery);
      FollowedRemains(l, o.remote, v.local, v.outside.remote);
    case OpenMove(waiting, i, digest, priceOk, delivery, stale) =>
      ElapseIsLater(o, waiting);
      var p := Elapse(o, waiting);
      LaterRemain(o, p);
      SameRemain(o.remote);
      CheckoutReadsNothing(l, p.remote, o.now, p.now, i, digest, priceOk, delivery, stale);
      OpenRemain(l, o.remote, p.remote, o.now, p.now, i, digest, priceOk, delivery, stale);
      FollowedRemains(l, o.remote, v.local, v.outside.remote);
    case ExemptMove(_) => SameRemain(o.remote); FollowedRemains(l, o.remote, v.local, v.outside.remote);
    case PlanMove(plan) =>
      SameRemain(o.remote);
      PlanKeepsRow(l, plan);
      FollowedRemains(l, o.remote, v.local, v.outside.remote);
  }

  lemma FollowsItself(l: Local)
    ensures Follows(l, l)
  {}

  lemma PlanKeepsRow(l: Local, p: Plan)
    ensures ConfigurePlan(l, p).local.subscription == l.subscription
  {}

  lemma CustomerRemain(l: Local, r: Remote, delivery: Delivery)
    ensures SessionsRemain(r, EnsureCustomer(l, r, delivery).remote)
  {}

  lemma OpenRemain(l: Local, o: Remote, r: Remote, now: Time, acting: Time, i: nat, digest: string, priceOk: bool,
                   delivery: Delivery, stale: bool)
    requires SessionsRemain(o, r)
    ensures SessionsRemain(o, OpenSession(l, r, now, acting, i, digest, priceOk, delivery, stale).remote)
  {}

  lemma GapsRemain(o: Outside, g: Gaps)
    ensures SessionsRemain(o.remote, Last(o, g).remote) && SessionsRemain(First(o, g).remote, Last(o, g).remote)
    ensures SessionsRemain(Second(o, g).remote, Last(o, g).remote)
            && SessionsRemain(Third(o, g).remote, Last(o, g).remote)
    ensures SessionsRemain(First(o, g).remote, Third(o, g).remote)
  {
    hide Elapse, Later, SessionsRemain;
    GapsAreLater(o, g);
    LaterRemain(o, Last(o, g));
    LaterRemain(First(o, g), Last(o, g));
    LaterRemain(Second(o, g), Last(o, g));
    LaterRemain(Third(o, g), Last(o, g));
    ElapseIsLater(Second(o, g), g.third);
    LaterTransitive(First(o, g), Second(o, g), Third(o, g));
    LaterRemain(First(o, g), Third(o, g));
  }

  /** In every run the subscription followed was bought in a session of an attempt that is complete. */
  lemma {:induction false} RunFollowed(w: World, moves: seq<Move>)
    requires Initial(w)
    ensures Followed(Run(w, moves).local, Run(w, moves).outside.remote)
  {
    hide Step, Followed;
    if moves != [] {
      RunFollowed(w, moves[..|moves| - 1]);
      StepFollowed(Run(w, moves[..|moves| - 1]), moves[|moves| - 1]);
    } else {
      StartFollowed(w);
    }
  }

  lemma StartFollowed(w: World)
    requires Initial(w)
    ensures Followed(w.local, w.outside.remote)
  {}

  /** An attempt in progress was never the origin of the subscription followed, and leaves nothing unfinished. */
  lemma LiveIsUnfollowed(lost: set<nat>, l: Local, o: Outside, i: nat, k: nat)
    requires InvAt(l, o, lost) && Followed(l, o.remote) && i < |l.attempts| && Live(l.attempts[i])
    requires k < |o.remote.sessions| && Refers(o.remote.sessions[k], i)
    ensures l.subscription.sub.None? || Final(l.subscription.status)
    ensures l.subscription.sub.Some? ==> o.remote.sessions[k].sub != l.subscription.sub
  {
    if l.subscription.sub.Some? {
      var j: nat :| BoughtIn(l, o.remote, j, l.subscription.sub.value);
      var m := l.attempts[j].session.value;
      assert AttemptOk(l, o.remote, o.now, j, lost);
      assert PaidOk(o.remote, m) && PaidOk(o.remote, k);
    }
  }
}
