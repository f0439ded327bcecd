/** One subscription at a time: what holds in every run, and exactly when a recovery breaks it. */
module BillingSafety {
  import opened Basics
  import opened Billing
  import opened BillingRuns
  import opened BillingInvariant
  import opened BillingKeeps
  import opened BillingOutside
  import opened BillingSteps
  import opened BillingHistory
  import opened BillingReads

  /** The company's own subscription `j` is not finished at the provider. */
  predicate Running(r: Remote, j: nat) {
    j < |r.subs| && r.subs[j].customer == Ours && !Final(r.subs[j].status)
  }

  /** In any state, two unfinished subscriptions mean that an attempt was given up too early. */
  lemma TwoRunning(lost: set<nat>, l: Local, r: Remote, now: Time, a: nat, b: nat) returns (i: nat)
    requires Inv(l, r, now, lost) && a != b && Running(r, a) && Running(r, b)
    ensures i in lost && i < |l.attempts| && l.attempts[i].status == Expired && (From(r, a, i) || From(r, b, i))
  {
    i := Origin(lost, l, r, now, a);
    var other := Origin(lost, l, r, now, b);
    if l.attempts[other].status == Expired {
      i := other;
    } else if l.attempts[i].status != Expired {
      assert SubOk(r, a) && SubOk(r, b);
      if i == other { OneSession(l, r, i, r.subs[a].session.value, r.subs[b].session.value); }
    }
  }

  // ---- runs without a recovery across a deadline ----

  /** No recovery of the run straddles the deadline of an attempt whose session it does not know. */
  ghost predicate NoneStraddles(w: World, moves: seq<Move>) {
    forall k :: 0 <= k < |moves| ==> !Straddles(Run(w, moves[..k]), moves[k])
  }

  /** The move `k` of the run is a recovery that gives up attempt `i` across its deadline. */
  ghost predicate GivenUpAt(w: World, moves: seq<Move>, k: nat, i: nat) {
    k < |moves| && Straddles(Run(w, moves[..k]), moves[k]) && LiveAttempt(Run(w, moves[..k]).local.attempts) == Some(i)
  }

  lemma StepLoses(w: World, m: Move, i: nat)
    ensures i in Step(w, m).lost <==> i in w.lost || (Straddles(w, m) && LiveAttempt(w.local.attempts) == Some(i))
  {
    hide Recover, ProcessEvent, Reserve, EnsureCustomer, OpenSession, ConfigurePlan, Elapse, Happens, Last, ViewsOf;
  }

  lemma {:induction false} LostWasGivenUp(w: World, moves: seq<Move>, i: nat) returns (k: nat)
    requires Initial(w) && i in Run(w, moves).lost
    ensures GivenUpAt(w, moves, k, i)
  {
    hide Step, Straddles;
    assert moves != [];
    var n := |moves| - 1;
    StepLoses(Run(w, moves[..n]), moves[n], i);
    if i in Run(w, moves[..n]).lost {
      k := LostWasGivenUp(w, moves[..n], i);
      assert moves[..n][..k] == moves[..k];
    } else {
      k := n;
    }
  }

  /**
   Over every run with lost answers, retries, recoveries and events in any order, with the provider acting
   at any instant of any transaction: if no recovery straddles a deadline, at most one subscription is unfinished.
   */
  lemma AtMostOneSubscription(w: World, moves: seq<Move>, a: nat, b: nat)
    requires Initial(w) && NoneStraddles(w, moves)
    requires Running(Run(w, moves).outside.remote, a) && Running(Run(w, moves).outside.remote, b)
    ensures a == b
  {
    hide Straddles;
    RunKeeps(w, moves);
    var v := Run(w, moves);
    if a != b {
      var i := TwoRunning(v.lost, v.local, v.outside.remote, v.outside.now, a, b);
      var k := LostWasGivenUp(w, moves, i);
    }
  }

  /**
   In every run, of two unfinished subscriptions one was bought in an attempt that a recovery of the run gave up
   across its deadline.
   */
  lemma SecondSubscriptionWasGivenUp(w: World, moves: seq<Move>, a: nat, b: nat) returns (i: nat, k: nat)
    requires Initial(w) && a != b && Running(Run(w, moves).outside.remote, a)
             && Running(Run(w, moves).outside.remote, b)
    ensures GivenUpAt(w, moves, k, i)
            && (From(Run(w, moves).outside.remote, a, i) || From(Run(w, moves).outside.remote, b, i))
  {
    RunKeeps(w, moves);
    var v := Run(w, moves);
    i := TwoRunning(v.lost, v.local, v.outside.remote, v.outside.now, a, b);
    k := LostWasGivenUp(w, moves, i);
  }

  // ---- exactly when it is safe to give an attempt up ----

  /** The provider may be in this state while the rows are these. */
  ghost predicate Compatible(l: Local, o: Outside) { exists lost :: InvAt(l, o, lost) }

  predicate Expires(l: Local, o: Outside, g: Gaps, up: Net, i: nat) {
    var after := Recover(l, ViewsOf(o, g), up).local;
    i < |after.attempts| && after.attempts[i].status == Expired
  }

  /**
   Whatever state the provider is in and whatever happens while the recovery runs, if it expires the attempt
   then no session of the attempt can complete any more or has completed.
   */
  ghost predicate SafeToGiveUp(l: Local, start: Time, end: Time, i: nat)
    requires i < |l.attempts|
  {
    forall r, g, up ::
      (Compatible(l, Outside(r, start)) && Last(Outside(r, start), g).now == end
       && Expires(l, Outside(r, start), g, up, i)) ==>
        Dead(l, Last(Outside(r, start), g).remote, end, i)
  }

  /**
   Expiring an attempt in progress is safe for every provider exactly when the two readings do not straddle its
   deadline; when they do, the customer may have paid before it.
   */
  lemma ExpiryIsSafeExactly(l: Local, r0: Remote, start: Time, end: Time, i: nat)
    requires start <= end && i < |l.attempts| && Live(l.attempts[i]) && Compatible(l, Outside(r0, start))
    ensures SafeToGiveUp(l, start, end, i) <==> !StraddlesAt(l, start, end)
    ensures StraddlesAt(l, start, end) ==>
              exists r, g :: Compatible(l, Outside(r, start)) && Expires(l, Outside(r, start), g, ANSWERING, i)
                             && Last(Outside(r, start), g).now == end && Bought(Last(Outside(r, start), g).remote, i)
  {
    hide Recover, StraddlesAt, Dead, InvAt, Last, ViewsOf, Bought;
    if !StraddlesAt(l, start, end) {
      forall r, g, up | Compatible(l, Outside(r, start)) && Last(Outside(r, start), g).now == end
          && Expires(l, Outside(r, start), g, up, i)
        ensures Dead(l, Last(Outside(r, start), g).remote, end, i) {
        var lost :| InvAt(l, Outside(r, start), lost);
        ExpiryIsSafe(lost, l, Outside(r, start), g, up, i);
      }
    } else {
      var lost :| InvAt(l, Outside(r0, start), lost);
      var r, g := UnsafeProvider(lost, l, r0, start, end, i);
      assert Compatible(l, Outside(r, start)) && Expires(l, Outside(r, start), g, ANSWERING, i);
    }
  }

  /** The calls of a transaction all answer. */
  const ANSWERING: Net := Net(true, true, true)

  lemma ExpiryIsSafe(lost: set<nat>, l: Local, o: Outside, g: Gaps, up: Net, i: nat)
    requires InvAt(l, o, lost) && i < |l.attempts| && Live(l.attempts[i])
    requires Expires(l, o, g, up, i) && !StraddlesAt(l, o.now, Last(o, g).now)
    ensures Dead(l, Last(o, g).remote, Last(o, g).now, i)
  {
    hide Recover, Elapse, Last, ViewsOf;
    var others := lost - {i};
    forall m | 0 <= m < |l.attempts| ensures AttemptOk(l, o.remote, o.now, m, others) {
      assert AttemptOk(l, o.remote, o.now, m, lost);
    }
    RecoverKeeps(others, l, o, g, up);
    RecoverFollows(l, ViewsOf(o, g), up);
    var after := Recover(l, ViewsOf(o, g), up).local;
    assert AttemptOk(after, Last(o, g).remote, Last(o, g).now, i, others + Abandoned(l, o.now, Last(o, g).now));
    assert SameAttempt(l.attempts[i], after.attempts[i]);
  }

  lemma ReopenKeeps(lost: set<nat>, l: Local, r: Remote, now: Time, k: nat, i: nat)
    requires Inv(l, r, now, lost) && i < |l.attempts| && Live(l.attempts[i])
    requires k < |r.sessions| && Refers(r.sessions[k], i) && r.sessions[k].status == Lapsed
    ensures Inv(l, r.(sessions := r.sessions[k := r.sessions[k].(status := Opened)]), now, lost)
  {
    var after := r.(sessions := r.sessions[k := r.sessions[k].(status := Opened)]);
    forall m | 0 <= m < |after.sessions| ensures SessionOk(after, m) { assert SessionOk(r, m); }
    forall j | 0 <= j < |after.subs| ensures SubOk(after, j) { assert SubOk(r, j); }
    forall m | 0 <= m < |after.sessions| && after.sessions[m].customer == Ours ensures PaidOk(after, m) {
      assert PaidOk(r, m);
    }
    forall j | 0 <= j < |l.attempts| ensures AttemptOk(l, after, now, j, lost) {
      assert AttemptOk(l, r, now, j, lost);
      forall m | 0 <= m < |after.sessions| && Refers(after.sessions[m], j) ensures Refers(r.sessions[m], j) {}
    }
    assert CurrentOk(l, after) by {
      forall j, m | 0 <= j < |after.subs| && 0 <= m < |l.attempts| && From(after, j, m) ensures From(r, j, m) {
        assert SubOk(r, j);
      }
    }
  }

  /** A subscription bought in session `k`. */
  function Purchase(k: nat): RemoteSub {
    RemoteSub(Ours, true, Some(k), Active, "", true, None, None, None, false, None)
  }

  /** A provider, compatible with the rows, at which no session for the attempt is known to be over. */
  lemma PayableProvider(lost: set<nat>, l: Local, r0: Remote, start: Time, i: nat) returns (r: Remote)
    requires InvAt(l, Outside(r0, start), lost) && i < |l.attempts| && Live(l.attempts[i])
    requires l.subscription.customer.Some?
    ensures InvAt(l, Outside(r, start), lost) && Frozen(l, i) in r.requests
    ensures KeyOf(Frozen(l, i)) in r.keys ==>
              var k := r.keys[KeyOf(Frozen(l, i))];
              k < |r.sessions| && Refers(r.sessions[k], i) && r.sessions[k].status != Lapsed
  {
    hide Inv;
    var args := Frozen(l, i);
    r := Sent(r0, args);
    OwnCustomer(lost, l, Outside(r0, start));
    SentKeeps(lost, l, r0, start, args);
    if KeyOf(args) in r.keys {
      var k := r.keys[KeyOf(args)];
      KeySession(lost, l, r, start, i);
      if r.sessions[k].status == Lapsed {
        ReopenKeeps(lost, l, r, start, k, i);
        r := r.(sessions := r.sessions[k := r.sessions[k].(status := Opened)]);
      }
    }
  }

  /** Before the deadline, the session is created unless it exists, and paid for unless it was. */
  function Buying(l: Local, r: Remote, i: nat): seq<Happening>
    requires i < |l.attempts|
  {
    var args := Frozen(l, i);
    if KeyOf(args) !in r.keys then [LateCreation(args), CustomerPays(|r.sessions|, Purchase(|r.sessions|))]
    else [CustomerPays(r.keys[KeyOf(args)], Purchase(r.keys[KeyOf(args)]))]
  }

  lemma BuyingCompletes(lost: set<nat>, l: Local, r: Remote, start: Time, i: nat) returns (k: nat)
    requires InvAt(l, Outside(r, start), lost) && i < |l.attempts| && Frozen(l, i) in r.requests
    requires start < l.attempts[i].expiresAt && l.subscription.customer.Some?
    requires KeyOf(Frozen(l, i)) in r.keys ==>
               var k := r.keys[KeyOf(Frozen(l, i))];
               k < |r.sessions| && Refers(r.sessions[k], i) && r.sessions[k].status != Lapsed
    ensures var o := Elapse(Outside(r, start), Buying(l, r, i));
            o.now == start && k < |o.remote.sessions| && Refers(o.remote.sessions[k], i)
                && o.remote.sessions[k].status == Completed
  {
    hide Inv;
    var o, args := Outside(r, start), Frozen(l, i);
    if KeyOf(args) !in r.keys {
      k := |r.sessions|;
      var pay := CustomerPays(k, Purchase(k));
      ElapseOne(o, LateCreation(args));
      ElapseTwo(o, LateCreation(args), pay);
      assert Create(r, start, args).sessions[k] == Session(Ours, Some(args), Opened, None);
    } else {
      k := r.keys[KeyOf(args)];
      ElapseOne(o, CustomerPays(k, Purchase(k)));
    }
  }

  /** A compatible provider at which the customer pays before the deadline, and the recovery gives up after it. */
  lemma UnsafeProvider(lost: set<nat>, l: Local, r0: Remote, start: Time, end: Time, i: nat)
    returns (r: Remote, g: Gaps)
    requires InvAt(l, Outside(r0, start), lost) && i < |l.attempts| && Live(l.attempts[i]) && StraddlesAt(l, start, end)
    ensures InvAt(l, Outside(r, start), lost) && Last(Outside(r, start), g).now == end
    ensures Expires(l, Outside(r, start), g, ANSWERING, i) && !Dead(l, Last(Outside(r, start), g).remote, end, i)
    ensures Bought(Last(Outside(r, start), g).remote, i)
  {
    hide Inv, Elapse, Buying;
    OnlyLive(lost, l, Outside(r0, start), i);
    r := PayableProvider(lost, l, r0, start, i);
    var k := BuyingCompletes(lost, l, r, start, i);
    var hs := Buying(l, r, i);
    g := Gaps(hs, [], [], [Tick(end - start)]);
    LastAfter(Outside(r, start), hs, end);
    var last := Last(Outside(r, start), g);
    assert Refers(last.remote.sessions[k], i) && last.remote.sessions[k].status == Completed;
  }

  /** A session of the attempt has been paid for. */
  predicate Bought(r: Remote, i: nat) {
    exists k :: 0 <= k < |r.sessions| && Refers(r.sessions[k], i) && r.sessions[k].status == Completed
  }

  lemma OnlyLive(lost: set<nat>, l: Local, o: Outside, i: nat)
    requires InvAt(l, o, lost) && i < |l.attempts| && Live(l.attempts[i])
    ensures LiveAttempt(l.attempts) == Some(i)
  {}

  lemma KeySession(lost: set<nat>, l: Local, r: Remote, now: Time, i: nat)
    requires Inv(l, r, now, lost) && i < |l.attempts| && KeyOf(Frozen(l, i)) in r.keys
    ensures r.keys[KeyOf(Frozen(l, i))] < |r.sessions| && Refers(r.sessions[r.keys[KeyOf(Frozen(l, i))]], i)
  {}

  /**
   Whatever happened before, a recovery whose calls are answered and which does not straddle the deadline
   expires the attempt in progress exactly when no session of it can complete or has completed, and it knows
   a session or the deadline has passed.
   */
  lemma RecoveryExpiresExactly(lost: set<nat>, l: Local, o: Outside, g: Gaps, i: nat)
    requires InvAt(l, o, lost) && i < |l.attempts| && Live(l.attempts[i])
    requires |OwnSessions(First(o, g).remote.sessions)| <= PAGE && !StraddlesAt(l, o.now, Last(o, g).now)
    ensures Expires(l, o, g, ANSWERING, i) <==>
            Dead(l, First(o, g).remote, Last(o, g).now, i)
                && (l.attempts[i].session.Some? || l.attempts[i].expiresAt <= Last(o, g).now)
  {
    hide Synchronize, Find, Elapse, Inv;
    GapsKeep(lost, l, o, g);
    GapsAreLater(o, g);
    OnlyLive(lost, l, o, i);
    var one, end := First(o, g), Last(o, g);
    KnownSession(lost, l, one, i);
    SessionDeadline(lost, l, one, i);
    SessionsOfAttempt(lost, l, one, i);
    FindIsReliable(one.remote.sessions, i);
    FindAnswers(one.remote.sessions, i);
    var a, v := l.attempts[i], ViewsOf(o, g);
    var known := if a.session.Some? then a.session
                 else if a.expiresAt <= o.now && l.subscription.customer.Some? && Find(one.remote.sessions, i).Found?
                 then Some(Find(one.remote.sessions, i).session) else None;
    if known.Some? {
      var k, saved := known.value, SetAttempt(l, i, a.(session := known));
      assert saved == l || a.session.None? by { if a.session.Some? { assert l.attempts[i := a] == l.attempts; } }
      if one.remote.sessions[k].status == Completed && one.remote.sessions[k].sub.Some? {
        ReadsDoNotExpire(saved, v.two, v.three, v.end, one.remote.sessions[k].sub.value, i);
      }
    }
  }

  lemma ReadsDoNotExpire(l: Local, one: Remote, two: Remote, now: Time, id: nat, i: nat)
    requires i < |l.attempts| && Live(l.attempts[i])
    ensures var s := Synchronize(l, one, two, now, id, true, true);
            s.Synced? ==> i < |s.local.attempts| && s.local.attempts[i].status != Expired
  {}

  /** All sessions of an attempt are one, under its key. */
  lemma SessionsOfAttempt(lost: set<nat>, l: Local, o: Outside, i: nat)
    requires InvAt(l, o, lost) && i < |l.attempts|
    ensures OneRefers(o.remote.sessions, i)
    ensures forall m :: 0 <= m < |o.remote.sessions| && Refers(o.remote.sessions[m], i) ==>
              (i, l.attempts[i].digest) in o.remote.keys
  {
    var s := o.remote.sessions;
    forall j, k | 0 <= j < |s| && 0 <= k < |s| && Refers(s[j], i) && Refers(s[k], i) ensures j == k {
      OneSession(l, o.remote, i, j, k);
    }
    forall m | 0 <= m < |s| && Refers(s[m], i) ensures (i, l.attempts[i].digest) in o.remote.keys {
      assert SessionOk(o.remote, m);
      OneSession(l, o.remote, i, m, m);
    }
  }

  // ---- what was sent ----

  /** Every creation ever sent for an attempt carries the same arguments and key, those its row still gives. */
  lemma CreationsAreIdentical(w: World, moves: seq<Move>, k: nat, early: Args, late: Args)
    requires Initial(w) && k <= |moves|
    requires early in Run(w, moves[..k]).outside.remote.requests && late in Run(w, moves).outside.remote.requests
    requires early.reference == late.reference
    ensures early == late && late.reference < |Run(w, moves).local.attempts|
            && late == Frozen(Run(w, moves).local, late.reference)
  {
    RunKeeps(w, moves);
    RunGrows(w, moves, k);
    var v := Run(w, moves);
    assert ArgumentsOk(v.local, early) && ArgumentsOk(v.local, late);
  }

  /** Every creation of the company's customer ever sent carries the same arguments, however the company was renamed. */
  lemma CustomerCreationsAreIdentical(w: World, moves: seq<Move>, k: nat, early: CustomerArgs, late: CustomerArgs)
    requires Initial(w) && k <= |moves|
    requires early in Run(w, moves[..k]).outside.remote.customerRequests
             && late in Run(w, moves).outside.remote.customerRequests
    ensures early == late && late == CustomerArgs(Run(w, moves).local.subscription.customerName,
                                                  Run(w, moves).local.subscription.customerEmail)
  {
    RunKeeps(w, moves);
    RunGrows(w, moves, k);
  }

  /** An attempt has at most one session, and the company at most one attempt in progress. */
  lemma OneSessionOneAttempt(w: World, moves: seq<Move>, i: nat, s: nat, t: nat)
    requires Initial(w)
    requires s < |Run(w, moves).outside.remote.sessions| && Refers(Run(w, moves).outside.remote.sessions[s], i)
    requires t < |Run(w, moves).outside.remote.sessions| && Refers(Run(w, moves).outside.remote.sessions[t], i)
    ensures s == t
    ensures forall a, b :: 0 <= a < b < |Run(w, moves).local.attempts| ==>
              !(Live(Run(w, moves).local.attempts[a]) && Live(Run(w, moves).local.attempts[b]))
  {
    RunKeeps(w, moves);
    OneSession(Run(w, moves).local, Run(w, moves).outside.remote, i, s, t);
  }

  /** The uniqueness constraints of the plans, attempts and sessions hold in every run. */
  lemma ConstraintsHold(w: World, moves: seq<Move>)
    requires Initial(w)
    ensures var v := Run(w, moves).local;
            forall i, j :: 0 <= i < j < |v.plans| ==>
                v.plans[i].code != v.plans[j].code && v.plans[i].price != v.plans[j].price
    ensures var v := Run(w, moves).local;
            forall i, j :: 0 <= i < j < |v.attempts| ==>
              v.attempts[i].digest != v.attempts[j].digest
              && (v.attempts[i].session.Some? ==> v.attempts[i].session != v.attempts[j].session)
  {
    RunKeeps(w, moves);
    var v := Run(w, moves);
    forall i, j | 0 <= i < j < |v.local.attempts| && v.local.attempts[i].session.Some?
      ensures v.local.attempts[i].session != v.local.attempts[j].session {
      assert AttemptOk(v.local, v.outside.remote, v.outside.now, i, v.lost)
          && AttemptOk(v.local, v.outside.remote, v.outside.now, j, v.lost);
    }
  }

  // ---- what the row follows ----

  /** A step that makes the row follow another subscription replaces none, or one the provider has finished. */
  lemma ReplacedOnlyWhenFinished(w: World, moves: seq<Move>, m: Move)
    requires Initial(w)
    ensures var v := Run(w, moves); var s := v.local.subscription; var t := Step(v, m).local.subscription;
            s.sub.Some? && t.sub != s.sub ==>
              t.sub.Some? && s.sub.value < |v.outside.remote.subs| && Final(v.outside.remote.subs[s.sub.value].status)
  {
    hide Step, Inv, CurrentOk;
    RunKeeps(w, moves);
    StepReplaces(Run(w, moves), m);
    var v := Run(w, moves);
    var s, t := v.local.subscription, Step(v, m).local.subscription;
    if s.sub.Some? && t.sub != s.sub { FollowedFinishes(v); }
  }

  lemma FollowedFinishes(v: World)
    requires Sound(v) && v.local.subscription.sub.Some? && Final(v.local.subscription.status)
    ensures v.local.subscription.sub.value < |v.outside.remote.subs|
            && Final(v.outside.remote.subs[v.local.subscription.sub.value].status)
  {}

  lemma StepReplaces(v: World, m: Move)
    ensures var s := v.local.subscription; var t := Step(v, m).local.subscription;
            s.sub.Some? && t.sub != s.sub ==> t.sub.Some? && Final(s.status)
  {
    hide Step;
    var r, now, turn := StepReadsOnce(v, m);
  }
}
