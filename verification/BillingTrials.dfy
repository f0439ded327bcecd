/** Access by trial: how far it goes, and exactly when it can pass the end of the first trial. */
module BillingTrials {
  import opened Basics
  import opened Billing
  import opened BillingRuns
  import opened BillingInvariant
  import opened BillingOutside
  import opened BillingSteps
  import opened BillingReads

  /** The row gives access by trial, without any exemption, at or after the end of the first trial. */
  ghost predicate AccessPast(w: World) {
    && w.trial.Some? && w.local.subscription.status == Trialing
    && exists t :: w.trial.value.end <= t && HasAccess(w.local.subscription.(exempt := false), t)
  }

  /** The trial end that the row remembers does not pass that of the first trial. */
  predicate WithinTrial(w: World) {
    w.trial.Some? && w.local.subscription.trialEnd.Some? ==> w.local.subscription.trialEnd.value <= w.trial.value.end
  }

  // ---- while the remembered end is within the first trial ----

  lemma WithinGivesNothing(w: World)
    requires Consistent(w) && WithinTrial(w)
    ensures !AccessPast(w)
  {}

  /** One step from a row that remembers an end within the first trial, whatever is read. */
  lemma StepGivesNothing(w: World, m: Move)
    requires Consistent(w) && WithinTrial(w)
    ensures !AccessPast(Step(w, m))
  {
    hide Step;
    var r, now, t := StepReadsOnce(w, m);
  }

  /** Access past the first trial has a cause: earlier in the run the row remembered a later end. */
  lemma {:induction false} AccessPastHasCause(w: World, moves: seq<Move>) returns (k: nat)
    requires Initial(w) && AccessPast(Run(w, moves))
    ensures k < |moves| && !WithinTrial(Run(w, moves[..k]))
  {
    hide Step, AccessPast, WithinTrial, Consistent;
    if moves == [] {
      RunIsConsistent(w, []);
      StartGivesNothing(w);
    } else {
      k := |moves| - 1;
      RunIsConsistent(w, moves[..k]);
      if WithinTrial(Run(w, moves[..k])) { StepGivesNothing(Run(w, moves[..k]), moves[k]); }
    }
  }

  lemma StartGivesNothing(w: World)
    requires Initial(w)
    ensures !AccessPast(w)
  {}

  // ---- exactly when the next notification can prolong the trial ----

  function Meanwhile(w: World, hs: seq<Happening>): World { w.(outside := Elapse(w.outside, hs)) }

  /** After something happens outside, one step of the service gives access past the first trial. */
  ghost predicate CanBeProlonged(w: World) {
    exists hs, m :: AccessPast(Step(Meanwhile(w, hs), m))
  }

  /** The followed subscription is not over at the provider. */
  predicate Alive(w: World) {
    var s := w.local.subscription.sub;
    s.Some? && s.value < |w.outside.remote.subs| && !Ended(w.outside.remote.subs[s.value].status)
  }

  lemma {:induction false} LongerThan(ids: set<string>) returns (n: nat)
    ensures forall id :: id in ids ==> |id| < n
  {
    if ids == {} {
      n := 0;
    } else {
      var id :| id in ids;
      var m := LongerThan(ids - {id});
      n := if m > |id| then m else |id| + 1;
    }
  }

  lemma NewIdentifier(events: map<string, string>) returns (id: string)
    ensures id !in events
  {
    var n := LongerThan(events.Keys);
    id := seq(n, _ => 'e');
  }

  /** The followed subscription as the provider may report it next: on trial until `end`, at a catalogued price. */
  function Extended(r: RemoteSub, price: string, end: Time): RemoteSub {
    r.(status := Trialing, price := price, single := true, periodEnd := Some(end), trialEnd := Some(end))
  }

  lemma FollowedIsOwn(w: World)
    requires Sound(w) && Alive(w)
    ensures var l := w.local; var j := l.subscription.sub.value;
            w.outside.remote.subs[j].customer == Ours && w.outside.remote.subs[j].ownCompany
            && l.subscription.customer == Some(Ours) && |l.plans| > 0
  {
    var l, r, j := w.local, w.outside.remote, w.local.subscription.sub.value;
    assert SubOk(r, j);
    assert SessionOk(r, r.subs[j].session.value);
    assert ArgumentsOk(l, r.sessions[r.subs[j].session.value].args.value);
  }

  /** A change at the provider and one notification, from a row that remembers a later end. */
  lemma Prolong(w: World) returns (hs: seq<Happening>, m: Move)
    requires Sound(w) && Consistent(w) && Alive(w) && w.trial.Some? && !WithinTrial(w)
    ensures AccessPast(Step(Meanwhile(w, hs), m))
  {
    hide Inv;
    FollowedIsOwn(w);
    var l, r := w.local, w.outside.remote;
    var j, end := l.subscription.sub.value, l.subscription.trialEnd.value;
    var value := Extended(r.subs[j], l.plans[0].price, end);
    var id := NewIdentifier(l.events);
    var e := Event(id, "", SubscriptionChanged, Ours, Body(Some(j), None, NoParent));
    hs := [SubChanges(j, value)];
    m := EventMove(e, Gaps([], [], [], []), Net(true, true, true));
    var u := Meanwhile(w, hs);
    ElapseOne(w.outside, hs[0]);
    assert u.outside.remote.subs[j] == value;
    ReadExtended(u, j, value, end, e);
  }

  lemma ReadExtended(u: World, j: nat, value: RemoteSub, end: Time, e: Event)
    requires Consistent(u) && u.trial.Some? && u.local.subscription.sub == Some(j)
             && u.local.subscription.trialEnd == Some(end)
    requires u.trial.value.end < end && j < |u.outside.remote.subs| && u.outside.remote.subs[j] == value
    requires value.status == Trialing && value.single && value.ownCompany && value.customer == Ours
    requires value.trialEnd == Some(end) && value.periodEnd == Some(end)
    requires |u.local.plans| > 0 && value.price == u.local.plans[0].price && u.local.subscription.customer == Some(Ours)
    requires e == Event(e.id, "", SubscriptionChanged, Ours, Body(Some(j), None, NoParent)) && e.id !in u.local.events
    ensures AccessPast(Step(u, EventMove(e, Gaps([], [], [], []), Net(true, true, true))))
  {
    var g := Gaps([], [], [], []);
    assert ViewsOf(u.outside, g).one == u.outside.remote;
    var after := Step(u, EventMove(e, g, Net(true, true, true)));
    assert after.local.subscription.accessUntil == Some(end) && after.local.subscription.status == Trialing;
    assert HasAccess(after.local.subscription.(exempt := false), u.trial.value.end);
  }

  /**
   In every run, while the followed subscription is not over, what happens outside and one step of the
   service can give trial access past the end of the first trial if and only if the row remembers a later end.
   */
  lemma ProlongedExactly(w: World, moves: seq<Move>)
    requires Initial(w) && Run(w, moves).trial.Some? && Alive(Run(w, moves))
    ensures CanBeProlonged(Run(w, moves)) <==> !WithinTrial(Run(w, moves))
  {
    hide Step, AccessPast;
    var v := Run(w, moves);
    RunKeeps(w, moves);
    RunIsConsistent(w, moves);
    if WithinTrial(v) {
      forall hs, m ensures !AccessPast(Step(Meanwhile(v, hs), m)) { StepGivesNothing(Meanwhile(v, hs), m); }
    } else {
      var hs, m := Prolong(v);
    }
  }

  // ---- whole runs ----

  /** No read of another status reports a trial end after that of the first trial. */
  predicate HonestRead(w: World) {
    w.trial.Some? && w.read.Some? && w.read.value.remote.status != Trialing && w.read.value.remote.trialEnd.Some? ==>
      w.read.value.remote.trialEnd.value <= w.trial.value.end
  }

  ghost predicate Honest(w: World, moves: seq<Move>) {
    forall k :: 0 <= k <= |moves| ==> HonestRead(Run(w, moves[..k]))
  }

  lemma StepKeepsWithinTrial(w: World, m: Move)
    requires Consistent(w) && WithinTrial(w) && HonestRead(Step(w, m))
    ensures WithinTrial(Step(w, m))
  {
    hide Step, AccessFrom;
    var r, now, t := StepReadsOnce(w, m);
  }

  lemma {:induction false} HonestIsBounded(w: World, moves: seq<Move>)
    requires Initial(w) && Honest(w, moves)
    ensures WithinTrial(Run(w, moves))
  {
    hide Step, Consistent, HonestRead, WithinTrial;
    if moves == [] {
      StartIsWithinTrial(w);
    } else {
      var n := |moves| - 1;
      forall k | 0 <= k <= n ensures HonestRead(Run(w, moves[..n][..k])) { assert moves[..n][..k] == moves[..k]; }
      assert moves[..|moves|] == moves;
      HonestIsBounded(w, moves[..n]);
      RunIsConsistent(w, moves[..n]);
      StepKeepsWithinTrial(Run(w, moves[..n]), moves[n]);
    }
  }

  lemma StartIsWithinTrial(w: World)
    requires Initial(w)
    ensures WithinTrial(w)
  {}

  /**
   The first accepted trial ends within the authorised days and a minute, and in a run whose reads of other
   statuses report no later end, access by trial ends by then for ever.
   */
  lemma TrialAccessIsBounded(w: World, moves: seq<Move>)
    requires Initial(w)
    ensures var v := Run(w, moves);
            v.trial.Some? ==>
              v.trial.value.days > 0 && v.trial.value.end <= v.trial.value.start + v.trial.value.days * DAY + 60
    ensures Honest(w, moves) ==> !AccessPast(Run(w, moves))
    ensures var v := Run(w, moves);
            (Honest(w, moves) && HasAccess(v.local.subscription, v.outside.now) && !v.local.subscription.exempt
             && v.local.subscription.status == Trialing) ==>
              v.trial.Some? && v.outside.now < v.trial.value.end
  {
    hide Run, Honest;
    RunIsConsistent(w, moves);
    if Honest(w, moves) {
      HonestIsBounded(w, moves);
      WithinGivesNothing(Run(w, moves));
    }
  }
}
