/** What reserving and opening a checkout, naming the customer and importing a price answer and change. */
module CheckoutAnswers {
  import opened Basics
  import opened Billing
  import opened BillingRuns
  import opened BillingInvariant
  import opened BillingOutside
  import opened BillingSteps
  import opened BillingAnswers

  // ---- reservation ----

  /** The plan `p` is sold under this code. */
  predicate Sold(l: Local, code: string, p: nat) { p < |l.plans| && l.plans[p].code == code && l.plans[p].active }

  /** The rows with the name and address of the company frozen on the first request. */
  function WithContact(l: Local, company: CustomerArgs): Local {
    if l.subscription.customerName != "" then l
    else l.(subscription := l.subscription.(customerName := company.name, customerEmail := company.email))
  }

  predicate KeySpent(l: Local, digest: string) {
    exists m :: 0 <= m < |l.attempts| && l.attempts[m].digest == digest
  }

  lemma AttemptFound(l: Local, digest: string, m: nat)
    requires AttemptsOk(l) && m < |l.attempts| && l.attempts[m].digest == digest
    ensures AttemptFor(l.attempts, digest) == Some(m)
  {
    var r := AttemptFor(l.attempts, digest);
    assert r.Some?;
  }

  lemma PlanCoded(l: Local, code: string, p: nat)
    requires PlansOk(l.plans) && p < |l.plans| && l.plans[p].code == code
    ensures PlanWithCode(l.plans, code) == Some(p)
  {
    var r := PlanWithCode(l.plans, code);
    assert r.Some?;
  }

  /** Nothing is reserved without a plan sold under the code, or while a subscription is unfinished. */
  lemma ReserveNeeds(l: Local, now: Time, code: string, digest: string, company: CustomerArgs, url: string)
    requires PlansOk(l.plans) && AttemptsOk(l)
    requires (forall p: nat :: !Sold(l, code, p)) || !Free(l.subscription)
    ensures Reserve(l, now, code, digest, company, url) == Turn(l, Refused, None)
  {
    var r := PlanWithCode(l.plans, code);
    if r.Some? { assert Sold(l, code, r.value) <==> l.plans[r.value].active; }
  }

  /**
   With a plan sold and nothing unfinished: a known key goes on with its own attempt of the same plan while it is in
   progress; a new key gets the link of an attempt in progress for this plan, or a new attempt when none is in progress.
   */
  lemma ReserveExactly(l: Local, now: Time, code: string, digest: string, company: CustomerArgs, url: string, p: nat)
    requires PlansOk(l.plans) && AttemptsOk(l) && Sold(l, code, p) && Free(l.subscription)
    ensures forall m: nat :: m < |l.attempts| && l.attempts[m].digest == digest ==>
              Reserve(l, now, code, digest, company, url) ==
              if l.attempts[m].plan == p && InProgress(l.attempts[m])
              then Turn(WithContact(l, company), Reserved(m), None) else Turn(l, Refused, None)
    ensures forall i: nat :: i < |l.attempts| && InProgress(l.attempts[i]) && !KeySpent(l, digest) ==>
              Reserve(l, now, code, digest, company, url) ==
              if l.attempts[i].plan == p && l.attempts[i].url && now < l.attempts[i].expiresAt
              then Turn(WithContact(l, company), Link(i), None) else Turn(l, Refused, None)
    ensures !KeySpent(l, digest) && (forall i: nat :: i < |l.attempts| ==> !InProgress(l.attempts[i])) ==>
              var a := Attempt(p, digest, None, false, url, Pending,
                               if l.subscription.trialUsed then 0 else l.plans[p].trialDays, now + 3600);
              Reserve(l, now, code, digest, company, url) ==
              Turn(WithContact(l, company).(attempts := l.attempts + [a]), Reserved(|l.attempts|), None)
  {
    hide PlanWithCode, AttemptFor, LiveAttempt, PlansOk, AttemptsOk;
    PlanCoded(l, code, p);
    LiveFoundAll(l);
    if KeySpent(l, digest) {
      var m :| 0 <= m < |l.attempts| && l.attempts[m].digest == digest;
      assert forall n: nat :: n < |l.attempts| && l.attempts[n].digest == digest ==> n == m by { OneDigest(l); }
      AttemptFound(l, digest, m);
    } else {
      NoAttempt(l, digest);
    }
    if l.subscription.customerName != "" { assert l.(subscription := l.subscription) == l; }
  }

  lemma OneDigest(l: Local)
    requires AttemptsOk(l)
    ensures forall m, n :: 0 <= m < |l.attempts| && 0 <= n < |l.attempts|
                           && l.attempts[m].digest == l.attempts[n].digest ==>
              m == n
  {}

  lemma NoAttempt(l: Local, digest: string)
    requires !KeySpent(l, digest)
    ensures AttemptFor(l.attempts, digest).None?
  {}

  // ---- opening the session ----

  /** The attempt can still be opened. */
  predicate Openable(l: Local, now: Time, i: nat) {
    && i < |l.attempts| && Free(l.subscription) && InProgress(l.attempts[i]) && now < l.attempts[i].expiresAt
  }

  /** Everything sent for the attempt. */
  function Sending(l: Local, i: nat): Args
    requires i < |l.attempts| && l.attempts[i].plan < |l.plans|
  {
    var a := l.attempts[i];
    Args(Ours, l.plans[a.plan].price, a.returnUrl, a.trialDays, a.expiresAt, i, a.digest)
  }

  function NewSession(l: Local, i: nat): Session
    requires i < |l.attempts| && l.attempts[i].plan < |l.plans|
  {
    Session(Ours, Some(Sending(l, i)), Opened, None)
  }

  /** The attempt with the session that was opened for it. */
  function WithSession(l: Local, i: nat, k: nat): Local
    requires i < |l.attempts|
  {
    l.(attempts := l.attempts[i := l.attempts[i].(session := Some(k), url := true, status := Open)])
  }

  /** Without an attempt to open nothing is sent: it is refused, or its own link is answered again. */
  lemma OpenNeeds(l: Local, remote: Remote, now: Time, acting: Time, i: nat, digest: string, priceOk: bool,
                  delivery: Delivery, stale: bool)
    ensures !Openable(l, now, i) ==>
              OpenSession(l, remote, now, acting, i, digest, priceOk, delivery, stale) ==
              Exchange(Turn(l, Refused, None), remote)
    ensures Openable(l, now, i) && l.attempts[i].url ==>
              OpenSession(l, remote, now, acting, i, digest, priceOk, delivery, stale) ==
              Exchange(Turn(l, Link(i), None), remote)
    ensures Openable(l, now, i) && !l.attempts[i].url && (!priceOk || l.subscription.customer.None?) ==>
              OpenSession(l, remote, now, acting, i, digest, priceOk, delivery, stale) ==
              Exchange(Turn(l, Refused, None), remote)
  {}

  /** What is known of the sessions of an attempt: they are its key's, and what was sent is what is sent now. */
  lemma KeyIsSession(lost: set<nat>, l: Local, o: Outside, i: nat)
    requires InvAt(l, o, lost) && i < |l.attempts|
    ensures l.attempts[i].plan < |l.plans|
    ensures forall k: nat :: k < |o.remote.sessions| && OfAttempt(o.remote.sessions[k], i) ==>
              (i, l.attempts[i].digest) in o.remote.keys && o.remote.keys[(i, l.attempts[i].digest)] == k
              && o.remote.sessions[k].args == Some(Sending(l, i))
    ensures (i, l.attempts[i].digest) in o.remote.keys ==>
              exists k: nat :: k < |o.remote.sessions| && OfAttempt(o.remote.sessions[k], i)
  {
    var key := (i, l.attempts[i].digest);
    if key in o.remote.keys {
      assert OfAttempt(o.remote.sessions[o.remote.keys[key]], i);
    }
    forall k: nat | k < |o.remote.sessions| && OfAttempt(o.remote.sessions[k], i)
      ensures key in o.remote.keys && o.remote.keys[key] == k && o.remote.sessions[k].args == Some(Sending(l, i)) {
      assert SessionOk(o.remote, k);
      assert ArgumentsOk(l, o.remote.sessions[k].args.value);
    }
  }

  /**
   An attempt that can be opened: the request leaves unless it cannot; when it is answered, the one session of the
   attempt is recorded, which is created now unless it exists, and refused when it is over or the deadline has passed.
   */
  lemma OpenExactly(lost: set<nat>, l: Local, o: Outside, now: Time, i: nat, delivery: Delivery, stale: bool)
    requires InvAt(l, o, lost) && Openable(l, now, i) && !l.attempts[i].url && l.subscription.customer.Some?
    ensures l.attempts[i].plan < |l.plans|
    ensures var e := OpenSession(l, o.remote, now, o.now, i, l.attempts[i].digest, true, delivery, stale);
            var sent := o.remote.(requests := o.remote.requests + {Sending(l, i)});
            && (delivery == NotSent ==> e == Exchange(Turn(l, Refused, None), o.remote))
            && (delivery == Lost ==> e == Exchange(Turn(l, Refused, None), sent))
            && (delivery == Answered ==>
                  && (forall k: nat :: k < |o.remote.sessions| && OfAttempt(o.remote.sessions[k], i) ==>
                        e == if stale || o.remote.sessions[k].status == Opened
                             then Exchange(Turn(WithSession(l, i, k), Link(i), None), sent)
                             else Exchange(Turn(l, Refused, None), sent))
                  && ((forall k: nat :: k < |o.remote.sessions| ==> !OfAttempt(o.remote.sessions[k], i)) ==>
                        e == if o.now < l.attempts[i].expiresAt
                             then Exchange(Turn(WithSession(l, i, |o.remote.sessions|), Link(i), None),
                                           sent.(sessions := sent.sessions + [NewSession(l, i)],
                                                 keys := sent.keys[(i, l.attempts[i].digest) := |sent.sessions|]))
                             else Exchange(Turn(l, Refused, None), sent)))
  {
    hide Inv;
    KeyIsSession(lost, l, o, i);
    OwnCustomer(lost, l, o);
    assert ArgsFor(l, Ours, i, l.attempts[i].digest) == Sending(l, i);
  }

  // ---- the customer ----

  /** The customer is created once, with the name and address frozen, as soon as the provider's answer comes back. */
  lemma CustomerExactly(lost: set<nat>, l: Local, o: Outside, delivery: Delivery)
    requires InvAt(l, o, lost)
    ensures var e := EnsureCustomer(l, o.remote, delivery);
            var contact := CustomerArgs(l.subscription.customerName, l.subscription.customerEmail);
            var asked := o.remote.customerRequests + {contact};
            && (l.subscription.customer.Some? ==> e == Exchange(Turn(l, Done, None), o.remote))
            && (l.subscription.customer.None? && (contact.name == "" || delivery == NotSent) ==>
                  e == Exchange(Turn(l, Refused, None), o.remote))
            && (l.subscription.customer.None? && contact.name != "" && delivery == Lost ==>
                  e == Exchange(Turn(l, Refused, None), o.remote.(customerRequests := asked)))
            && (l.subscription.customer.None? && contact.name != "" && delivery == Answered ==>
                  e == Exchange(Turn(l.(subscription := l.subscription.(customer := Some(Ours))), Done, None),
                                o.remote.(customerRequests := asked, customer := Some(contact))))
  {
    assert CustomersOk(l, o.remote);
  }

  // ---- the catalogue ----

  /**
   The catalogue contradicts a price that is imported: its code with another price, or its price under another code.
   */
  predicate Contradicts(q: Plan, p: Plan) { (q.code == p.code) != (q.price == p.price) }

  /** A price is imported exactly when no plan contradicts it; it then replaces the plan of its code, or is new. */
  lemma PlanExactly(l: Local, p: Plan)
    requires PlansOk(l.plans)
    ensures (exists i :: 0 <= i < |l.plans| && Contradicts(l.plans[i], p)) ==>
              ConfigurePlan(l, p) == Turn(l, Refused, None)
    ensures (forall i :: 0 <= i < |l.plans| ==> !Contradicts(l.plans[i], p)) ==>
              && (forall i: nat :: i < |l.plans| && l.plans[i].code == p.code ==>
                    ConfigurePlan(l, p) == Turn(l.(plans := l.plans[i := p]), Done, None))
              && ((forall i: nat :: i < |l.plans| ==> l.plans[i].code != p.code) ==>
                    ConfigurePlan(l, p) == Turn(l.(plans := l.plans + [p]), Done, None))
  {
    hide PlanWithCode, PlansOk;
    forall i: nat | i < |l.plans| && l.plans[i].code == p.code ensures PlanWithCode(l.plans, p.code) == Some(i) {
      PlanCoded(l, p.code, i);
    }
    if exists i :: 0 <= i < |l.plans| && Contradicts(l.plans[i], p) {
      var i :| 0 <= i < |l.plans| && Contradicts(l.plans[i], p);
      assert SoldAsAnother(l.plans, p) || l.plans[i].code == p.code;
    }
  }
}
