/** What canonical reads, recoveries and notifications answer and change, said from the rows and the provider. */
module BillingAnswers {
  import opened Basics
  import opened Billing
  import opened BillingRuns
  import opened BillingInvariant
  import opened BillingOutside
  import opened BillingKeeps
  import opened BillingSteps
  import opened BillingReads
  import opened BillingSafety
  import opened BillingFollowed

  // ---- access ----

  /** The latest invoice is paid, leaves nothing, and is this customer's for this subscription. */
  predicate LatestPaid(r: RemoteSub, customer: Option<CustomerId>, id: nat) {
    && r.latest.Some? && r.latest.value.status == "paid" && r.latest.value.remaining == Some(0)
    && customer.Some? && r.latest.value.customer == customer && r.latest.value.parent == SubscriptionDetails(Some(id))
  }

  predicate OnTrial(r: RemoteSub) { r.status == Trialing && r.trialEnd.Some? }

  /** Until when a subscription so read gives access: its trial or its period, whichever ends first; its paid period. */
  predicate EndsAt(r: RemoteSub, customer: Option<CustomerId>, id: nat, end: Option<Time>)
    requires r.periodEnd.Some?
  {
    if OnTrial(r) then
      (end == r.trialEnd || end == r.periodEnd) && end.value <= r.trialEnd.value && end.value <= r.periodEnd.value
    else if r.status == Active && LatestPaid(r, customer, id) then end == r.periodEnd
    else end.None?
  }

  lemma AccessEnds(customer: Option<CustomerId>, d: Read)
    requires d.remote.periodEnd.Some?
    ensures EndsAt(d.remote, customer, d.sub, AccessFrom(customer, d))
  {}

  /** In every run the row shows what the last accepted read says, and the access that it gives. */
  lemma AccessExactly(w: World, moves: seq<Move>)
    requires Initial(w)
    ensures var v := Run(w, moves); var row := v.local.subscription;
            && (v.read.None? ==> row.accessUntil.None? && row.sub.None? && row.status == NoStatus)
            && (v.read.Some? ==>
                  var r := v.read.value.remote;
                  && r.periodEnd.Some? && row.status == r.status
                  && row.sub == Some(v.read.value.sub) && row.plan == Some(v.read.value.plan)
                  && row.periodEnd == r.periodEnd && row.trialEnd == r.trialEnd && row.cancels == r.cancels
                  && EndsAt(r, Some(r.customer), v.read.value.sub, row.accessUntil))
  {
    hide Run, AccessFrom, EndsAt;
    RunIsConsistent(w, moves);
    var v := Run(w, moves);
    if v.read.Some? { AccessEnds(Some(v.read.value.remote.customer), v.read.value); }
  }

  /**
   In every run, at any instant `t`: there is access exactly when the company is exempt, or the subscription last read
   is active with its latest invoice paid in full and its period ends after `t`, or it is a trial that ends after `t`.
   */
  lemma HasAccessExactly(w: World, moves: seq<Move>, t: Time)
    requires Initial(w)
    ensures var v := Run(w, moves);
            HasAccess(v.local.subscription, t) <==>
            v.local.subscription.exempt
            || (v.read.Some?
                && var r := v.read.value.remote;
                   r.periodEnd.Some? && t < r.periodEnd.value
                   && ((r.status == Active && LatestPaid(r, Some(r.customer), v.read.value.sub))
                       || (OnTrial(r) && t < r.trialEnd.value)))
  {
    hide Run, LatestPaid;
    AccessExactly(w, moves);
  }

  // ---- canonical reads ----

  /** The provider's subscription is the company's, with one item whose price is the plan's, in a known state. */
  predicate Readable(l: Local, r: RemoteSub, plan: nat) {
    && l.subscription.customer == Some(r.customer) && r.ownCompany && r.single && r.periodEnd.Some?
    && plan < |l.plans| && l.plans[plan].price == r.price && r.status != NoStatus && r.status != Unknown
  }

  /** A trial lasts no longer than the days authorised, or than the end remembered. */
  predicate TrialFits(row: Subscription, r: RemoteSub, days: nat) {
    OnTrial(r) ==>
      if row.trialUsed then row.trialEnd.Some? && r.trialEnd.value <= row.trialEnd.value
      else days > 0 && r.trialStart.Some? && r.trialEnd.value <= r.trialStart.value + days * 86400 + 60
  }

  /** The row follows no subscription, or one that is over. */
  predicate Free(row: Subscription) {
    row.sub.None? || row.status == NoStatus || row.status == Canceled || row.status == IncompleteExpired
  }

  predicate InProgress(a: Attempt) { a.status == Pending || a.status == Open }

  /** Attempt `i` is in progress for this plan, and its session was completed with this subscription. */
  predicate PaidFor(l: Local, r: Remote, i: nat, plan: nat, id: nat) {
    && i < |l.attempts| && InProgress(l.attempts[i]) && l.attempts[i].plan == plan && l.attempts[i].session.Some?
    && var k := l.attempts[i].session.value;
    && k < |r.sessions| && r.sessions[k].customer == Ours && r.sessions[k].args.Some?
    && r.sessions[k].args.value.reference == i && r.sessions[k].status == Completed && r.sessions[k].sub == Some(id)
  }

  /** The row says what was read. */
  predicate RowSays(row: Subscription, r: RemoteSub, plan: nat, id: nat, now: Time, after: Subscription) {
    && r.periodEnd.Some? && after.plan == Some(plan) && after.sub == Some(id) && after.status == r.status
    && after.periodEnd == r.periodEnd && after.trialEnd == r.trialEnd && after.cancels == r.cancels
    && EndsAt(r, row.customer, id, after.accessUntil)
    && (after.trialUsed <==> row.trialUsed || OnTrial(r))
    && (after.exempt <==> row.exempt && !(after.accessUntil.Some? && after.accessUntil.value > now))
    && after.customer == row.customer && after.customerName == row.customerName
    && after.customerEmail == row.customerEmail
  }

  lemma UpdatedSays(row: Subscription, d: Read, now: Time)
    requires d.remote.periodEnd.Some?
    ensures RowSays(row, d.remote, d.plan, d.sub, now, Updated(row, d, now))
  {
    hide AccessFrom, EndsAt;
    AccessEnds(row.customer, d);
  }

  /** What one read needs to be accepted. */
  ghost predicate MayRead(l: Local, one: Remote, two: Remote, id: nat, plan: nat, up: bool, upAgain: bool) {
    && up && id < |one.subs| && Readable(l, one.subs[id], plan)
    && if l.subscription.sub == Some(id) then TrialFits(l.subscription, one.subs[id], 0)
       else Free(l.subscription) && upAgain
            && exists i: nat :: PaidFor(l, two, i, plan, id)
                                && TrialFits(l.subscription, one.subs[id], l.attempts[i].trialDays)
  }

  /** What an accepted read changes: the row, and the attempt in progress when another subscription is followed. */
  ghost predicate AfterRead(l: Local, r: RemoteSub, id: nat, plan: nat, now: Time, after: Local) {
    && RowSays(l.subscription, r, plan, id, now, after.subscription)
    && after.plans == l.plans && after.events == l.events && |after.attempts| == |l.attempts|
    && forall i :: 0 <= i < |l.attempts| ==>
         after.attempts[i] == if l.subscription.sub != Some(id) && InProgress(l.attempts[i])
                              then l.attempts[i].(status := Complete) else l.attempts[i]
  }

  lemma PlanFound(plans: seq<Plan>, plan: nat)
    requires PlansOk(plans) && plan < |plans|
    ensures PlanWithPrice(plans, plans[plan].price) == Some(plan)
  {}

  lemma LiveFound(attempts: seq<Attempt>, i: nat)
    requires forall i, j :: 0 <= i < j < |attempts| ==> !(Live(attempts[i]) && Live(attempts[j]))
    requires i < |attempts| && InProgress(attempts[i])
    ensures LiveAttempt(attempts) == Some(i)
  {}

  /** A read is accepted exactly when it may be, and then the rows say what was read. */
  lemma ReadExactly(l: Local, one: Remote, two: Remote, now: Time, id: nat, plan: nat, up: bool, upAgain: bool)
    requires PlansOk(l.plans) && AttemptsOk(l)
    ensures var s := Synchronize(l, one, two, now, id, up, upAgain);
            (s.Synced? && s.read.plan == plan) <==> MayRead(l, one, two, id, plan, up, upAgain)
    ensures var s := Synchronize(l, one, two, now, id, up, upAgain);
            s.Synced? ==> id < |one.subs| && s.read.sub == id && s.read.remote == one.subs[id]
                          && AfterRead(l, one.subs[id], id, s.read.plan, now, s.local)
                          && (l.subscription.sub != Some(id) ==>
                                forall i :: 0 <= i < |l.attempts| && InProgress(l.attempts[i]) ==>
                                  s.read.trialDays == l.attempts[i].trialDays)
  {
    hide PlanWithPrice, LiveAttempt, Updated, RowSays, PlansOk, AttemptsOk;
    var s := Synchronize(l, one, two, now, id, up, upAgain);
    if s.Synced? { UpdatedSays(l.subscription, s.read, now); }
    if plan < |l.plans| { PlanFound(l.plans, plan); }
    LiveFoundAll(l);
    if l.subscription.sub != Some(id) && s.Synced? {
      var i := LiveAttempt(l.attempts).value;
      assert PaidFor(l, two, i, s.read.plan, id);
    }
  }

  lemma LiveFoundAll(l: Local)
    requires AttemptsOk(l)
    ensures forall i: nat :: i < |l.attempts| && InProgress(l.attempts[i]) ==> LiveAttempt(l.attempts) == Some(i)
    ensures LiveAttempt(l.attempts).Some? ==>
              LiveAttempt(l.attempts).value < |l.attempts| && InProgress(l.attempts[LiveAttempt(l.attempts).value])
  {
    forall i: nat | i < |l.attempts| && InProgress(l.attempts[i]) ensures LiveAttempt(l.attempts) == Some(i) {
      LiveFound(l.attempts, i);
    }
  }

  // ---- the search ----

  /** The company's sessions from this place on. */
  function OwnFrom(sessions: seq<Session>, from: nat): set<nat> {
    set k | from <= k < |sessions| && sessions[k].customer == Ours
  }

  predicate OfAttempt(s: Session, i: nat) { s.customer == Ours && s.args.Some? && s.args.value.reference == i }

  function Members(q: seq<nat>): set<nat> { set k | k in q }

  lemma {:induction false} Cardinality(q: seq<nat>)
    requires forall i, j :: 0 <= i < j < |q| ==> q[i] < q[j]
    ensures |Members(q)| == |q|
  {
    if q != [] {
      var n := |q| - 1;
      Cardinality(q[..n]);
      assert q == q[..n] + [q[n]];
      assert q[n] !in q[..n];
      assert Members(q) == Members(q[..n]) + {q[n]};
    }
  }

  lemma OwnCount(sessions: seq<Session>)
    ensures |OwnFrom(sessions, 0)| == |OwnSessions(sessions)|
  {
    OwnSessionsOk(sessions);
    OwnSessionsOrdered(sessions);
    Cardinality(OwnSessions(sessions));
    assert OwnFrom(sessions, 0) == Members(OwnSessions(sessions));
  }

  /** What comes after place `p` of an increasing sequence. */
  lemma After(ids: seq<nat>, p: nat, k: nat)
    requires forall i, j :: 0 <= i < j < |ids| ==> ids[i] < ids[j]
    requires p < |ids| && ids[p] == k
    ensures forall m :: m in Members(ids[p + 1..]) <==> m in ids && m > k
  {
    var newer := ids[p + 1..];
    forall m | m in ids && m > k ensures m in Members(newer) {
      var q :| 0 <= q < |ids| && ids[q] == m;
      assert newer[q - p - 1] == m;
    }
  }

  lemma InTail(ids: seq<nat>, p: nat, from: nat)
    requires forall i, j :: 0 <= i < j < |ids| ==> ids[i] < ids[j]
    requires p < |ids| && from <= |ids|
    ensures ids[p] in ids[from..] <==> from <= p
  {
    if from <= p {
      assert ids[from..][p - from] == ids[p];
    }
  }

  /** The provider's page holds a session of the company exactly when fewer than a hundred of its sessions are newer. */
  lemma PageExactly(sessions: seq<Session>, k: nat)
    requires k < |sessions| && sessions[k].customer == Ours
    ensures k in Page(sessions) <==> |OwnFrom(sessions, k + 1)| < 100
  {
    OwnSessionsOk(sessions);
    OwnSessionsOrdered(sessions);
    var ids := OwnSessions(sessions);
    var p :| 0 <= p < |ids| && ids[p] == k;
    After(ids, p, k);
    Cardinality(ids[p + 1..]);
    assert OwnFrom(sessions, k + 1) == Members(ids[p + 1..]);
    InTail(ids, p, if |ids| <= PAGE then 0 else |ids| - PAGE);
    PageIs(sessions);
  }

  lemma PageIs(sessions: seq<Session>)
    ensures var ids := OwnSessions(sessions);
            Page(sessions) == ids[if |ids| <= 100 then 0 else |ids| - 100..]
  {}

  /** The search among the sessions of the company, which holds at most one of the attempt. */
  lemma FindExactly(sessions: seq<Session>, i: nat)
    requires OneRefers(sessions, i)
    ensures forall k: nat :: k < |sessions| && OfAttempt(sessions[k], i) ==>
              Find(sessions, i) == if |OwnFrom(sessions, k + 1)| < 100 then Found(k) else Ambiguous
    ensures (forall k: nat :: k < |sessions| ==> !OfAttempt(sessions[k], i)) ==>
              Find(sessions, i) == if |OwnFrom(sessions, 0)| <= 100 then Missing else Ambiguous
  {
    OwnSessionsOk(sessions);
    OwnSessionsOrdered(sessions);
    OwnCount(sessions);
    var page := Page(sessions);
    MatchesOk(sessions, page, i);
    OneMatch(sessions, page, i);
    var found := Matches(sessions, page, i);
    assert found != [] ==> found[0] in found;
    forall k: nat | k < |sessions| && OfAttempt(sessions[k], i)
      ensures Find(sessions, i) == if |OwnFrom(sessions, k + 1)| < 100 then Found(k) else Ambiguous {
      PageExactly(sessions, k);
      assert k in found <==> k in page;
      if found == [] { FewOwn(sessions, k); }
    }
  }

  lemma FewOwn(sessions: seq<Session>, k: nat)
    requires k < |sessions| && sessions[k].customer == Ours && k !in Page(sessions)
    ensures |OwnSessions(sessions)| > PAGE
  {
    OwnSessionsOk(sessions);
  }

  // ---- recovery ----

  /**
   The session that a recovery of attempt `i` asks the provider about: the one on file, or after the deadline its own.
   */
  predicate AsksAbout(l: Local, v: Views, i: nat, k: nat) {
    && i < |l.attempts| && InProgress(l.attempts[i])
    && var a := l.attempts[i];
    if a.session.Some? then a.session == Some(k)
    else a.expiresAt <= v.start && l.subscription.customer.Some? && k < |v.one.sessions|
         && OfAttempt(v.one.sessions[k], i) && |OwnFrom(v.one.sessions, k + 1)| < 100
  }

  /** What an accepted read needs of the subscription bought in a session of attempt `i`. */
  predicate MayFollow(l: Local, r: Remote, i: nat, id: nat)
    requires i < |l.attempts|
  {
    id < |r.subs| && Readable(l, r.subs[id], l.attempts[i].plan)
    && TrialFits(l.subscription, r.subs[id], l.attempts[i].trialDays)
  }

  lemma SessionsOfOne(lost: set<nat>, l: Local, o: Outside, i: nat)
    requires InvAt(l, o, lost)
    ensures OneRefers(o.remote.sessions, i)
  {
    forall j, k | 0 <= j < |o.remote.sessions| && 0 <= k < |o.remote.sessions|
        && Refers(o.remote.sessions[j], i) && Refers(o.remote.sessions[k], i)
      ensures j == k {
      OneSession(l, o.remote, i, j, k);
    }
  }

  /** The rows with the session of attempt `i` on file, and its status. */
  function Noted(l: Local, i: nat, k: nat, status: AttemptStatus): Local
    requires i < |l.attempts|
  {
    l.(attempts := l.attempts[i := l.attempts[i].(session := Some(k), status := status)])
  }

  /** The rows with attempt `i` expired. */
  function Dropped(l: Local, i: nat): Local
    requires i < |l.attempts|
  {
    l.(attempts := l.attempts[i := l.attempts[i].(status := Expired)])
  }

  lemma AskedIs(lost: set<nat>, l: Local, o: Outside, g: Gaps, i: nat, k: nat, up: Net)
    requires InvAt(l, o, lost) && AsksAbout(l, ViewsOf(o, g), i, k) && up.first
    ensures k < |First(o, g).remote.sessions| && OfAttempt(First(o, g).remote.sessions[k], i)
    ensures InvAt(Noted(l, i, k, l.attempts[i].status), First(o, g), lost)
    ensures Recover(l, ViewsOf(o, g), up) == Resolved(l, Noted(l, i, k, l.attempts[i].status), ViewsOf(o, g), i, k, up)
  {
    hide Inv, Find, Resolved, Elapse;
    GapsKeep(lost, l, o, g);
    OnlyLive(lost, l, o, i);
    KnownSession(lost, l, First(o, g), i);
    SessionsOfOne(lost, l, First(o, g), i);
    FindExactly(First(o, g).remote.sessions, i);
    var a := l.attempts[i];
    if a.session.Some? { assert l.attempts[i := a] == l.attempts; } else { FoundKeeps(lost, l, First(o, g), i, k); }
  }

  /**
   A recovery that finds the customer's session completed follows the subscription bought in it and completes the
   attempt, exactly when the provider answers and the subscription is as it was ordered; otherwise it changes nothing.
   */
  lemma PaidIsRecovered(lost: set<nat>, l: Local, o: Outside, g: Gaps, i: nat, k: nat, id: nat, up: Net)
    requires InvAt(l, o, lost) && Followed(l, o.remote) && AsksAbout(l, ViewsOf(o, g), i, k) && up.first
    requires k < |First(o, g).remote.sessions| && First(o, g).remote.sessions[k].status == Completed
             && First(o, g).remote.sessions[k].sub == Some(id)
    ensures var t := Recover(l, ViewsOf(o, g), up);
            t.answer == if up.second && up.third && MayFollow(l, Second(o, g).remote, i, id) then Done else Refused
    ensures var t := Recover(l, ViewsOf(o, g), up); var r := Second(o, g).remote;
            if t.answer == Done then
              && id < |r.subs| && t.read == Some(Read(id, r.subs[id], l.attempts[i].plan, l.attempts[i].trialDays))
              && RowSays(l.subscription, r.subs[id], l.attempts[i].plan, id, Last(o, g).now, t.local.subscription)
              && t.local == Noted(l, i, k, Complete).(subscription := t.local.subscription)
            else t.local == l && t.read.None?
  {
    hide Inv, Elapse, Synchronize, RowSays, MayRead, Readable, TrialFits, Followed, SessionsRemain;
    var v, saved := ViewsOf(o, g), Noted(l, i, k, l.attempts[i].status);
    AskedIs(lost, l, o, g, i, k, up);
    Unfollowed(lost, l, o, g, i, k, id);
    PlansAreOk(lost, saved, First(o, g));
    ReadExactly(saved, v.two, v.three, v.end, id, l.attempts[i].plan, up.second, up.third);
    var s := Synchronize(saved, v.two, v.three, v.end, id, up.second, up.third);
    assert PaidFor(saved, v.three, i, l.attempts[i].plan, id);
    MayReadThis(saved, l, v.two, v.three, i, id, up);
    if s.Synced? {
      ReadExactly(saved, v.two, v.three, v.end, id, s.read.plan, up.second, up.third);
      ReadPlan(saved, v.two, v.three, i, id, s.read.plan, up);
      CompletedIs(saved, s.local, i);
    }
  }

  lemma PlansAreOk(lost: set<nat>, l: Local, o: Outside)
    requires InvAt(l, o, lost)
    ensures PlansOk(l.plans) && AttemptsOk(l)
  {}

  lemma Unfollowed(lost: set<nat>, l: Local, o: Outside, g: Gaps, i: nat, k: nat, id: nat)
    requires InvAt(l, o, lost) && Followed(l, o.remote) && i < |l.attempts| && InProgress(l.attempts[i])
    requires k < |First(o, g).remote.sessions| && OfAttempt(First(o, g).remote.sessions[k], i)
    requires First(o, g).remote.sessions[k].status == Completed && First(o, g).remote.sessions[k].sub == Some(id)
    ensures Free(l.subscription) && l.subscription.sub != Some(id)
    ensures k < |Third(o, g).remote.sessions| && Third(o, g).remote.sessions[k] == First(o, g).remote.sessions[k]
  {
    hide Inv, Elapse, Followed, Later;
    GapsKeep(lost, l, o, g);
    GapsRemain(o, g);
    ElapseIsLater(o, g.before);
    LaterRemain(o, First(o, g));
    FollowedRemains(l, o.remote, l, First(o, g).remote) by { FollowsItself(l); }
    LiveIsUnfollowed(lost, l, First(o, g), i, k);
  }

  lemma MayReadThis(saved: Local, l: Local, two: Remote, three: Remote, i: nat, id: nat, up: Net)
    requires AttemptsOk(saved) && saved.subscription == l.subscription && saved.plans == l.plans
    requires i < |l.attempts| && i < |saved.attempts| && saved.attempts[i].plan == l.attempts[i].plan
             && saved.attempts[i].trialDays == l.attempts[i].trialDays
    requires Free(l.subscription) && l.subscription.sub != Some(id)
    requires PaidFor(saved, three, i, l.attempts[i].plan, id)
    ensures MayRead(saved, two, three, id, l.attempts[i].plan, up.second, up.third) <==>
            up.second && up.third && MayFollow(l, two, i, id)
  {
    hide TrialFits;
    LiveFoundAll(saved);
  }

  lemma ReadPlan(l: Local, two: Remote, three: Remote, i: nat, id: nat, plan: nat, up: Net)
    requires AttemptsOk(l) && l.subscription.sub != Some(id) && i < |l.attempts| && InProgress(l.attempts[i])
    requires MayRead(l, two, three, id, plan, up.second, up.third)
    ensures plan == l.attempts[i].plan
  {
    hide TrialFits, Readable;
    LiveFoundAll(l);
  }

  lemma CompletedIs(l: Local, after: Local, i: nat)
    requires AttemptsOk(l) && i < |l.attempts| && InProgress(l.attempts[i]) && |after.attempts| == |l.attempts|
    requires forall j :: 0 <= j < |l.attempts| ==>
               after.attempts[j] == if InProgress(l.attempts[j])
                                    then l.attempts[j].(status := Complete) else l.attempts[j]
    ensures after.attempts == l.attempts[i := l.attempts[i].(status := Complete)]
  {
    LiveFoundAll(l);
  }

  /** A session still open leaves the attempt in progress with its session noted; one that is over expires it. */
  lemma UnpaidIsRecovered(lost: set<nat>, l: Local, o: Outside, g: Gaps, i: nat, k: nat, up: Net)
    requires InvAt(l, o, lost) && AsksAbout(l, ViewsOf(o, g), i, k) && up.first
    ensures k < |First(o, g).remote.sessions|
    ensures First(o, g).remote.sessions[k].status == Opened ==>
              Recover(l, ViewsOf(o, g), up) == Turn(Noted(l, i, k, l.attempts[i].status), Done, None)
    ensures First(o, g).remote.sessions[k].status == Lapsed ==>
              Recover(l, ViewsOf(o, g), up) == Turn(Noted(l, i, k, Expired), Done, None)
  {
    hide Inv, Elapse, Recover, Synchronize;
    AskedIs(lost, l, o, g, i, k, up);
  }

  /** The recovery of an attempt whose session it does not know, and its answer when the provider does not answer. */
  lemma UnknownIsRecovered(lost: set<nat>, l: Local, o: Outside, g: Gaps, i: nat, up: Net)
    requires InvAt(l, o, lost) && i < |l.attempts| && InProgress(l.attempts[i])
    ensures var a := l.attempts[i]; var v := ViewsOf(o, g);
            var searches := a.session.None? && a.expiresAt <= v.start && l.subscription.customer.Some?;
            var none := forall k: nat :: k < |v.one.sessions| ==> !OfAttempt(v.one.sessions[k], i);
            && (a.session.None? && !searches ==>
                  Recover(l, v, up) == Turn(if a.expiresAt <= v.end then Dropped(l, i) else l, Done, None))
            && (searches && up.first && none && |OwnFrom(v.one.sessions, 0)| <= 100 ==>
                  Recover(l, v, up) == Turn(Dropped(l, i), Done, None))
            && (searches && up.first && none && |OwnFrom(v.one.sessions, 0)| > 100 ==>
                  Recover(l, v, up) == Turn(l, Refused, None))
            && (searches && up.first && !none && (forall k: nat :: !AsksAbout(l, v, i, k)) ==>
                  Recover(l, v, up) == Turn(l, Refused, None))
            && ((searches || a.session.Some?) && !up.first ==> Recover(l, v, up) == Turn(l, Refused, None))
  {
    hide Inv, Find, Resolved, Elapse, OwnFrom, OfAttempt;
    GapsKeep(lost, l, o, g);
    GapsAreLater(o, g);
    LaterClock(o, Last(o, g));
    OnlyLive(lost, l, o, i);
    SessionsOfOne(lost, l, First(o, g), i);
    FindExactly(First(o, g).remote.sessions, i);
    var a, v := l.attempts[i], ViewsOf(o, g);
    forall k: nat | k < |v.one.sessions| && OfAttempt(v.one.sessions[k], i)
      ensures a.session.None? && a.expiresAt <= v.start && l.subscription.customer.Some? ==>
                (AsksAbout(l, v, i, k) <==> |OwnFrom(v.one.sessions, k + 1)| < 100) {}
  }

  /** Without an attempt in progress a recovery does nothing. */
  lemma NothingIsRecovered(l: Local, v: Views, up: Net)
    requires forall i :: 0 <= i < |l.attempts| ==> !InProgress(l.attempts[i])
    ensures Recover(l, v, up) == Turn(l, Done, None)
  {}

  /** In every run, a paid checkout whose notification was lost is recovered as soon as the provider answers. */
  lemma LostPaymentIsRecovered(w: World, moves: seq<Move>, g: Gaps, i: nat, k: nat, id: nat)
    requires Initial(w)
    requires var v := Run(w, moves);
             && AsksAbout(v.local, ViewsOf(v.outside, g), i, k)
             && k < |First(v.outside, g).remote.sessions|
             && First(v.outside, g).remote.sessions[k].status == Completed
             && First(v.outside, g).remote.sessions[k].sub == Some(id)
             && MayFollow(v.local, Second(v.outside, g).remote, i, id)
    ensures var l := Run(w, moves).local; var o := Run(w, moves).outside;
            var t := Recover(l, ViewsOf(o, g), Net(true, true, true));
            && id < |Second(o, g).remote.subs|
            && t.answer == Done && t.local == Noted(l, i, k, Complete).(subscription := t.local.subscription)
            && RowSays(l.subscription, Second(o, g).remote.subs[id], l.attempts[i].plan, id, Last(o, g).now,
                       t.local.subscription)
  {
    hide Run, Recover, ViewsOf, First, Second, Third, Last, Inv, AsksAbout, RowSays, Readable, TrialFits, Followed;
    RunKeeps(w, moves);
    RunFollowed(w, moves);
    var v := Run(w, moves);
    PaidIsRecovered(v.lost, v.local, v.outside, g, i, k, id, Net(true, true, true));
  }

  // ---- notifications ----

  /** The subscription that a notification tells of. */
  predicate Tells(e: Event, id: nat) {
    match e.kind
    case SubscriptionChanged => e.body.id == Some(id)
    case SessionCompleted => e.body.sub == Some(id)
    case InvoiceIssued => e.body.parent == SubscriptionDetails(Some(id))
    case _ => false
  }

  function Filed(l: Local, e: Event): Local { l.(events := l.events[e.id := e.digest]) }

  /** What is not for this company, or tells of nothing, is acknowledged; what is on file is compared by its digest. */
  lemma IgnoredExactly(l: Local, v: Views, e: Event, up: Net)
    ensures e.kind == OtherKind || l.subscription.customer != Some(e.customer) ==>
              ProcessEvent(l, v, e, up) == Turn(l, Done, None)
    ensures e.kind != OtherKind && l.subscription.customer == Some(e.customer) && e.id in l.events ==>
              ProcessEvent(l, v, e, up) == Turn(l, if l.events[e.id] == e.digest then Done else Refused, None)
    ensures e.kind != OtherKind && e.kind != SessionExpired && l.subscription.customer == Some(e.customer)
            && e.id !in l.events && (forall id: nat :: !Tells(e, id)) ==>
              ProcessEvent(l, v, e, up) == Turn(l, Done, None)
  {
    hide Synchronize;
    var reference := SubscriptionReference(e.body, e.kind);
    if e.kind != OtherKind && e.kind != SessionExpired && reference.Some? { assert Tells(e, reference.value); }
  }

  /** A notification of a subscription is applied and filed exactly when its canonical read is accepted. */
  lemma NotifiedExactly(lost: set<nat>, l: Local, o: Outside, g: Gaps, e: Event, up: Net, id: nat, plan: nat)
    requires InvAt(l, o, lost) && l.subscription.customer == Some(e.customer) && e.id !in l.events && Tells(e, id)
    ensures var t := ProcessEvent(l, ViewsOf(o, g), e, up); var v := ViewsOf(o, g);
            t.answer == Done && t.read.Some? && t.read.value.plan == plan <==>
            MayRead(l, v.one, v.two, id, plan, up.first, up.second)
    ensures var t := ProcessEvent(l, ViewsOf(o, g), e, up); var v := ViewsOf(o, g);
            if t.answer == Done then
              && id < |v.one.subs| && t.read.Some? && t.read.value.sub == id && t.read.value.remote == v.one.subs[id]
              && t.local.events == l.events[e.id := e.digest]
              && AfterRead(l, v.one.subs[id], id, t.read.value.plan, v.end, t.local.(events := l.events))
            else t == Turn(l, Refused, None)
  {
    hide Inv, Synchronize, MayRead, RowSays, ViewsOf;
    PlansAreOk(lost, l, o);
    var v := ViewsOf(o, g);
    ReadExactly(l, v.one, v.two, v.end, id, plan, up.first, up.second);
  }

  /**
   A notification that a session is over expires the attempt in progress exactly when it is its session and is over.
   */
  lemma ExpiryNotified(lost: set<nat>, l: Local, o: Outside, g: Gaps, e: Event, up: Net)
    requires InvAt(l, o, lost) && l.subscription.customer == Some(e.customer) && e.id !in l.events
    requires e.kind == SessionExpired
    ensures (forall i :: 0 <= i < |l.attempts| && InProgress(l.attempts[i]) ==>
               e.body.id.None? || l.attempts[i].session != e.body.id) ==>
              ProcessEvent(l, ViewsOf(o, g), e, up) == Turn(Filed(l, e), Done, None)
    ensures forall i: nat :: i < |l.attempts| && InProgress(l.attempts[i]) && e.body.id.Some?
                             && l.attempts[i].session == e.body.id ==>
              && e.body.id.value < |First(o, g).remote.sessions|
              && ProcessEvent(l, ViewsOf(o, g), e, up) ==
                 if !up.first then Turn(l, Refused, None)
                 else if First(o, g).remote.sessions[e.body.id.value].status == Lapsed
                 then Turn(Filed(Dropped(l, i), e), Done, None)
                 else Turn(Filed(l, e), Done, None)
  {
    hide Inv, Elapse;
    GapsKeep(lost, l, o, g);
    forall i: nat | i < |l.attempts| && InProgress(l.attempts[i])
      ensures LiveAttempt(l.attempts) == Some(i)
      ensures l.attempts[i].session.Some? ==>
                l.attempts[i].session.value < |First(o, g).remote.sessions|
                && Refers(First(o, g).remote.sessions[l.attempts[i].session.value], i) {
      OnlyLive(lost, l, o, i);
      KnownSession(lost, l, First(o, g), i);
    }
  }
}
