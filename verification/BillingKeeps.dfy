/** Each elementary change of the protocol keeps the invariant. */
module BillingKeeps {
  import opened Basics
  import opened Billing
  import opened BillingInvariant
  import opened BillingRuns

  // ---- consequences ----

  /** One attempt has at most one session, because all its requests carry one key. */
  lemma OneSession(l: Local, r: Remote, i: nat, j: nat, k: nat)
    requires RequestsOk(l, r) && SessionsOk(r)
    requires j < |r.sessions| && k < |r.sessions| && Refers(r.sessions[j], i) && Refers(r.sessions[k], i)
    ensures j == k && i < |l.attempts| && KeyOf(r.sessions[j].args.value) == (i, l.attempts[i].digest)
  {
    assert SessionOk(r, j) && SessionOk(r, k);
    assert ArgumentsOk(l, r.sessions[j].args.value) && ArgumentsOk(l, r.sessions[k].args.value);
  }

  /** An own subscription comes from an attempt, which has not expired unless it was given up too early. */
  lemma Origin(lost: set<nat>, l: Local, r: Remote, now: Time, j: nat) returns (i: nat)
    requires Inv(l, r, now, lost)
    requires j < |r.subs| && r.subs[j].customer == Ours
    ensures i < |l.attempts| && From(r, j, i) && (l.attempts[i].status == Expired ==> i in lost)
  {
    assert SubOk(r, j);
    var k := r.subs[j].session.value;
    assert SessionOk(r, k);
    assert ArgumentsOk(l, r.sessions[k].args.value);
    i := r.sessions[k].args.value.reference;
    assert Refers(r.sessions[k], i);
    assert AttemptOk(l, r, now, i, lost);
  }

  // ---- the provider's moves ----

  lemma TimePasses(lost: set<nat>, l: Local, r: Remote, now: Time, later: Time)
    requires Inv(l, r, now, lost) && now <= later
    ensures Inv(l, r, later, lost)
  {
    forall i | 0 <= i < |l.attempts| ensures AttemptOk(l, r, later, i, lost) { assert AttemptOk(l, r, now, i, lost); }
  }

  lemma ForeignSessionKeeps(lost: set<nat>, l: Local, r: Remote, now: Time, s: Session)
    requires Inv(l, r, now, lost) && s.customer != Ours && s.args.None? && s.sub.None?
    ensures Inv(l, r.(sessions := r.sessions + [s]), now, lost)
  {
    var after := r.(sessions := r.sessions + [s]);
    forall k | 0 <= k < |after.sessions| ensures SessionOk(after, k) { if k < |r.sessions| { assert SessionOk(r, k); } }
    forall j | 0 <= j < |after.subs| ensures SubOk(after, j) { assert SubOk(r, j); }
    forall k | 0 <= k < |after.sessions| && after.sessions[k].customer == Ours ensures PaidOk(after, k) {
      assert PaidOk(r, k);
    }
    forall i | 0 <= i < |l.attempts| ensures AttemptOk(l, after, now, i, lost) { assert AttemptOk(l, r, now, i, lost); }
    assert CurrentOk(l, after) by {
      forall j, i | 0 <= j < |r.subs| && 0 <= i < |l.attempts| && From(after, j, i) ensures From(r, j, i) {
        assert SubOk(r, j);
      }
    }
  }

  lemma ForeignSubKeeps(lost: set<nat>, l: Local, r: Remote, now: Time, s: RemoteSub)
    requires Inv(l, r, now, lost) && s.customer != Ours
    ensures Inv(l, r.(subs := r.subs + [s]), now, lost)
  {
    var after := r.(subs := r.subs + [s]);
    forall k | 0 <= k < |after.sessions| ensures SessionOk(after, k) { assert SessionOk(r, k); }
    forall j | 0 <= j < |after.subs| ensures SubOk(after, j) { if j < |r.subs| { assert SubOk(r, j); } }
    forall k | 0 <= k < |after.sessions| && after.sessions[k].customer == Ours ensures PaidOk(after, k) {
      assert PaidOk(r, k);
    }
    forall i | 0 <= i < |l.attempts| ensures AttemptOk(l, after, now, i, lost) { assert AttemptOk(l, r, now, i, lost); }
    assert CurrentOk(l, after) by {
      forall j, i | 0 <= j < |after.subs| && 0 <= i < |l.attempts| && From(after, j, i)
        ensures j < |r.subs| && From(r, j, i) {}
    }
  }

  lemma SentKeeps(lost: set<nat>, l: Local, r: Remote, now: Time, a: Args)
    requires Inv(l, r, now, lost) && ArgumentsOk(l, a) && l.subscription.customer.Some?
    ensures Inv(l, Sent(r, a), now, lost)
  {
    var after := Sent(r, a);
    forall k | 0 <= k < |after.sessions| ensures SessionOk(after, k) { assert SessionOk(r, k); }
    forall j | 0 <= j < |after.subs| ensures SubOk(after, j) { assert SubOk(r, j); }
    forall k | 0 <= k < |after.sessions| && after.sessions[k].customer == Ours ensures PaidOk(after, k) {
      assert PaidOk(r, k);
    }
    forall i | 0 <= i < |l.attempts| ensures AttemptOk(l, after, now, i, lost) { assert AttemptOk(l, r, now, i, lost); }
    assert CurrentOk(l, after) by {
      forall j, i | 0 <= j < |r.subs| && 0 <= i < |l.attempts| && From(after, j, i) ensures From(r, j, i) {}
    }
  }

  /** A creation, prompt or late, opens a session only for an attempt that has none and whose deadline is ahead. */
  lemma CreateKeeps(lost: set<nat>, l: Local, r: Remote, now: Time, a: Args)
    requires Inv(l, r, now, lost) && a in r.requests
    ensures Inv(l, Create(r, now, a), now, lost)
  {
    var after := Create(r, now, a);
    if after != r {
      assert ArgumentsOk(l, a);
      var n := |r.sessions|;
      assert a.customer == Ours && after.sessions[n] == Session(Ours, Some(a), Opened, None);
      forall k | 0 <= k < |after.sessions| ensures SessionOk(after, k) { if k < n { assert SessionOk(r, k); } }
      forall key | key in after.keys
        ensures after.keys[key] < |after.sessions| && after.sessions[after.keys[key]].customer == Ours
                && after.sessions[after.keys[key]].args.Some?
                && KeyOf(after.sessions[after.keys[key]].args.value) == key {}
      forall j | 0 <= j < |after.subs| ensures SubOk(after, j) { assert SubOk(r, j); }
      forall k | 0 <= k < |after.sessions| && after.sessions[k].customer == Ours ensures PaidOk(after, k) {
        if k < n { assert PaidOk(r, k); }
      }
      forall i | 0 <= i < |l.attempts| ensures AttemptOk(l, after, now, i, lost) {
        assert AttemptOk(l, r, now, i, lost);
      }
      assert CurrentOk(l, after) by {
        forall j, i | 0 <= j < |r.subs| && 0 <= i < |l.attempts| && From(after, j, i) ensures From(r, j, i) {
          assert SubOk(r, j);
        }
      }
    }
  }

  /** A payment completes a session of the attempt in progress: no other attempt has an open session. */
  lemma PayKeeps(lost: set<nat>, l: Local, r: Remote, now: Time, k: nat, s: RemoteSub)
    requires Inv(l, r, now, lost) && MayPay(r, k, s) && r.sessions[k].customer == Ours
    ensures Inv(l, Paying(r, k, s), now, lost)
  {
    hide PlansOk, AttemptsOk, ArgsFor, KeyOf;
    var after := Paying(r, k, s);
    var n := |r.subs|;
    assert SessionOk(r, k) && PaidOk(r, k);
    forall m | 0 <= m < |after.sessions| ensures SessionOk(after, m) { assert SessionOk(r, m); }
    forall j | 0 <= j < |after.subs| ensures SubOk(after, j) { if j < n { assert SubOk(r, j); } }
    forall m | 0 <= m < |after.sessions| && after.sessions[m].customer == Ours ensures PaidOk(after, m) {
      assert PaidOk(r, m);
    }
    forall i | 0 <= i < |l.attempts| ensures AttemptOk(l, after, now, i, lost) {
      assert AttemptOk(l, r, now, i, lost);
      forall m | 0 <= m < |after.sessions| && Refers(after.sessions[m], i) ensures Refers(r.sessions[m], i) {}
    }
    assert CurrentOk(l, after) by {
      forall j, i | 0 <= j < |after.subs| && 0 <= i < |l.attempts| && From(after, j, i)
          && l.attempts[i].status == Complete
        ensures j < n && From(r, j, i) {
        assert AttemptOk(l, r, now, i, lost);
        if j == n { OneSession(l, r, i, k, l.attempts[i].session.value); } else { assert SubOk(r, j); }
      }
    }
  }

  /** A payment in another customer's session. */
  lemma ForeignPayKeeps(lost: set<nat>, l: Local, r: Remote, now: Time, k: nat, s: RemoteSub)
    requires Inv(l, r, now, lost) && MayPay(r, k, s) && r.sessions[k].customer != Ours
    ensures Inv(l, Paying(r, k, s), now, lost)
  {
    var after := Paying(r, k, s);
    forall m | 0 <= m < |after.sessions| ensures SessionOk(after, m) { assert SessionOk(r, m); }
    forall j | 0 <= j < |after.subs| ensures SubOk(after, j) { if j < |r.subs| { assert SubOk(r, j); } }
    forall m | 0 <= m < |after.sessions| && after.sessions[m].customer == Ours ensures PaidOk(after, m) {
      assert PaidOk(r, m);
    }
    forall i | 0 <= i < |l.attempts| ensures AttemptOk(l, after, now, i, lost) {
      assert AttemptOk(l, r, now, i, lost);
      forall m | 0 <= m < |after.sessions| && Refers(after.sessions[m], i) ensures Refers(r.sessions[m], i) {}
    }
    assert CurrentOk(l, after) by {
      forall j, i | 0 <= j < |after.subs| && 0 <= i < |l.attempts| && From(after, j, i)
        ensures j < |r.subs| && From(r, j, i) {
        if j < |r.subs| { assert SubOk(r, j); }
      }
    }
  }

  lemma LapseKeeps(lost: set<nat>, l: Local, r: Remote, now: Time, k: nat)
    requires Inv(l, r, now, lost) && k < |r.sessions| && r.sessions[k].status == Opened
    ensures Inv(l, Lapsing(r, k), now, lost)
  {
    var after := Lapsing(r, k);
    forall m | 0 <= m < |after.sessions| ensures SessionOk(after, m) { assert SessionOk(r, m); }
    forall j | 0 <= j < |after.subs| ensures SubOk(after, j) { assert SubOk(r, j); }
    forall m | 0 <= m < |after.sessions| && after.sessions[m].customer == Ours ensures PaidOk(after, m) {
      assert PaidOk(r, m);
    }
    forall i | 0 <= i < |l.attempts| ensures AttemptOk(l, after, now, i, lost) {
      assert AttemptOk(l, r, now, i, lost);
      forall m | 0 <= m < |after.sessions| && Refers(after.sessions[m], i) ensures Refers(r.sessions[m], i) {}
    }
    assert CurrentOk(l, after) by {
      forall j, i | 0 <= j < |after.subs| && 0 <= i < |l.attempts| && From(after, j, i) ensures From(r, j, i) {
        assert SubOk(r, j);
      }
    }
  }

  lemma ChangeKeeps(lost: set<nat>, l: Local, r: Remote, now: Time, c: nat, value: RemoteSub)
    requires Inv(l, r, now, lost) && c < |r.subs| && MayChange(r.subs[c], value)
    ensures Inv(l, r.(subs := r.subs[c := value]), now, lost)
  {
    var after := r.(subs := r.subs[c := value]);
    forall m | 0 <= m < |after.sessions| ensures SessionOk(after, m) { assert SessionOk(r, m); }
    forall j | 0 <= j < |after.subs| ensures SubOk(after, j) { assert SubOk(r, j); }
    forall m | 0 <= m < |after.sessions| && after.sessions[m].customer == Ours ensures PaidOk(after, m) {
      assert PaidOk(r, m);
    }
    forall i | 0 <= i < |l.attempts| ensures AttemptOk(l, after, now, i, lost) { assert AttemptOk(l, r, now, i, lost); }
    assert CurrentOk(l, after) by {
      forall j, i | 0 <= j < |after.subs| && 0 <= i < |l.attempts| && From(after, j, i)
        ensures From(r, j, i) && (Final(r.subs[j].status) ==> Final(after.subs[j].status)) { assert SubOk(r, j); }
    }
  }

  // ---- the local transactions ----

  /** An attempt changes its session, its address or its status, and nothing that was sent. */
  ghost predicate Progresses(l: Local, r: Remote, now: Time, i: nat, a: Attempt) {
    && i < |l.attempts| && a == l.attempts[i].(session := a.session, url := a.url, status := a.status)
    && Live(l.attempts[i])
    && (a.session.Some? ==> a.session.value < |r.sessions| && Refers(r.sessions[a.session.value], i))
  }

  lemma AttemptKeeps(lost: set<nat>, l: Local, r: Remote, now: Time, i: nat, a: Attempt)
    requires Inv(l, r, now, lost) && Progresses(l, r, now, i, a)
    requires a.status != Complete && (a.status == Expired ==> i in lost || Dead(l, r, now, i))
    ensures Inv(SetAttempt(l, i, a), r, now, lost)
  {
    var after := SetAttempt(l, i, a);
    forall args | args in r.requests ensures ArgumentsOk(after, args) { assert ArgumentsOk(l, args); }
    forall m | 0 <= m < |after.attempts| ensures AttemptOk(after, r, now, m, lost) {
      assert AttemptOk(l, r, now, m, lost);
    }
    assert CurrentOk(after, r) by {
      forall m | 0 <= m < |after.attempts| && Live(after.attempts[m])
        ensures l.subscription.sub.None? || Final(l.subscription.status) {
        assert Live(l.attempts[m]);
      }
    }
  }

  lemma PlanKeeps(lost: set<nat>, l: Local, r: Remote, now: Time, p: Plan)
    requires Inv(l, r, now, lost)
    ensures Inv(ConfigurePlan(l, p).local, r, now, lost)
  {
    var after := ConfigurePlan(l, p).local;
    forall args | args in r.requests ensures ArgumentsOk(after, args) { assert ArgumentsOk(l, args); }
    forall i | 0 <= i < |after.attempts| ensures AttemptOk(after, r, now, i, lost) {
      assert AttemptOk(l, r, now, i, lost);
    }
  }

  /** A change of the company's row that leaves customer, subscription and status alone. */
  lemma RowKeeps(lost: set<nat>, l: Local, r: Remote, now: Time, after: Local)
    requires Inv(l, r, now, lost) && after.attempts == l.attempts && after.plans == l.plans
    requires after.subscription.sub == l.subscription.sub && after.subscription.status == l.subscription.status
    requires after.subscription.customer == l.subscription.customer
             || (l.subscription.customer.None? && after.subscription.customer == Some(Ours))
    requires CustomersOk(after, r)
    ensures Inv(after, r, now, lost)
  {
    forall args | args in r.requests ensures ArgumentsOk(after, args) { assert ArgumentsOk(l, args); }
    forall i | 0 <= i < |after.attempts| ensures AttemptOk(after, r, now, i, lost) {
      assert AttemptOk(l, r, now, i, lost);
    }
  }

  /** A new attempt is reserved only while none is in progress and the followed subscription is finished. */
  lemma NewAttemptKeeps(lost: set<nat>, l: Local, r: Remote, now: Time, a: Attempt)
    requires Inv(l, r, now, lost)
    requires a.plan < |l.plans| && a.session.None? && a.status == Pending && AttemptFor(l.attempts, a.digest).None?
    requires LiveAttempt(l.attempts).None? && (l.subscription.sub.None? || Final(l.subscription.status))
    ensures Inv(l.(attempts := l.attempts + [a]), r, now, lost)
  {
    var after := l.(attempts := l.attempts + [a]);
    forall args | args in r.requests ensures ArgumentsOk(after, args) { assert ArgumentsOk(l, args); }
    forall i | 0 <= i < |after.attempts| ensures AttemptOk(after, r, now, i, lost) {
      if i < |l.attempts| { assert AttemptOk(l, r, now, i, lost); }
    }
    assert CurrentOk(after, r);
  }

  /** The name is frozen before anything is sent for the customer. */
  lemma NamingKeeps(lost: set<nat>, l: Local, r: Remote, now: Time, company: CustomerArgs)
    requires Inv(l, r, now, lost)
    ensures CustomersOk(l, r)
    ensures l.subscription.customerName == "" ==>
              CustomersOk(l.(subscription := l.subscription.(customerName := company.name,
                                                             customerEmail := company.email)), r)
  {
    if l.subscription.customerName == "" {
      forall a | a in r.customerRequests ensures false {}
      assert r.customerRequests == {};
    }
  }

  lemma ReserveKeeps(lost: set<nat>, l: Local, r: Remote, now: Time, code: string, digest: string,
                     company: CustomerArgs, url: string)
    requires Inv(l, r, now, lost)
    ensures Inv(Reserve(l, now, code, digest, company, url).local, r, now, lost)
  {
    hide Inv;
    NamingKeeps(lost, l, r, now, company);
    var sub := if l.subscription.customerName == "" then l.subscription.(customerName := company.name,
                                                                         customerEmail := company.email)
                                                                             else l.subscription;
    var named := l.(subscription := sub);
    RowKeeps(lost, l, r, now, named);
    var after := Reserve(l, now, code, digest, company, url).local;
    if after != l && after != named {
      NewAttemptKeeps(lost, named, r, now, after.attempts[|l.attempts|]);
    }
  }

  // ---- the customer ----

  /** The provider's customers leave sessions and subscriptions alone. */
  lemma CustomersChange(lost: set<nat>, l: Local, r: Remote, now: Time, after: Remote)
    requires Inv(l, r, now, lost) && CustomersOk(l, after)
    requires after == r.(customer := after.customer, customerRequests := after.customerRequests)
    ensures Inv(l, after, now, lost)
  {
    forall m | 0 <= m < |after.sessions| ensures SessionOk(after, m) { assert SessionOk(r, m); }
    forall j | 0 <= j < |after.subs| ensures SubOk(after, j) { assert SubOk(r, j); }
    forall m | 0 <= m < |after.sessions| && after.sessions[m].customer == Ours ensures PaidOk(after, m) {
      assert PaidOk(r, m);
    }
    forall i | 0 <= i < |l.attempts| ensures AttemptOk(l, after, now, i, lost) { assert AttemptOk(l, r, now, i, lost); }
    assert CurrentOk(l, after) by {
      forall j, i | 0 <= j < |after.subs| && 0 <= i < |l.attempts| && From(after, j, i) ensures From(r, j, i) {}
    }
  }

  /** The answer to the creation of the customer, whenever it was acted on, is never a conflict of keys. */
  lemma EnsureCustomerKeeps(lost: set<nat>, l: Local, r: Remote, now: Time, delivery: Delivery)
    requires Inv(l, r, now, lost)
    ensures Inv(EnsureCustomer(l, r, delivery).turn.local, EnsureCustomer(l, r, delivery).remote, now, lost)
    ensures delivery == Answered && (l.subscription.customer.Some? || l.subscription.customerName != "") ==>
              EnsureCustomer(l, r, delivery).turn.local.subscription.customer == Some(Ours)
  {
    hide Inv;
    assert CustomersOk(l, r) && RequestsOk(l, r) by { InvCustomers(lost, l, r, now); }
    var e := EnsureCustomer(l, r, delivery);
    if e.remote != r { CustomersChange(lost, l, r, now, e.remote); }
    if e.turn.local != l { RowKeeps(lost, l, e.remote, now, e.turn.local); }
  }

  lemma InvCustomers(lost: set<nat>, l: Local, r: Remote, now: Time)
    requires Inv(l, r, now, lost)
    ensures CustomersOk(l, r) && RequestsOk(l, r)
  {}
}
