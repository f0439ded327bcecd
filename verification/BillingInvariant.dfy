/** What every reachable state of the billing protocol satisfies. */
module BillingInvariant {
  import opened Basics
  import opened Billing

  ghost predicate PlansOk(plans: seq<Plan>) {
    && (forall i, j :: 0 <= i < j < |plans| ==> plans[i].code != plans[j].code)
    && (forall i, j :: 0 <= i < j < |plans| ==> plans[i].price != plans[j].price)
  }

  ghost predicate AttemptsOk(l: Local) {
    && (forall i :: 0 <= i < |l.attempts| ==> l.attempts[i].plan < |l.plans|)
    && (forall i, j :: 0 <= i < j < |l.attempts| ==> l.attempts[i].digest != l.attempts[j].digest)
    && (forall i, j :: 0 <= i < j < |l.attempts| ==> !(Live(l.attempts[i]) && Live(l.attempts[j])))
  }

  /** What the row of an attempt says should be sent for it. */
  function Frozen(l: Local, i: nat): Args
    requires i < |l.attempts|
  {
    ArgsFor(l, Ours, i, l.attempts[i].digest)
  }

  /** A creation carries exactly the frozen arguments of its attempt. */
  ghost predicate ArgumentsOk(l: Local, a: Args) {
    a.reference < |l.attempts| && a == Frozen(l, a.reference)
  }

  /** Every creation of the customer carries the name and address frozen by the first reservation. */
  ghost predicate CustomersOk(l: Local, r: Remote) {
    && (forall a :: a in r.customerRequests ==>
          a == CustomerArgs(l.subscription.customerName, l.subscription.customerEmail) && a.name != "")
    && (r.customer.Some? ==> r.customer.value in r.customerRequests)
    && (l.subscription.customer.Some? ==> r.customer.Some?)
  }

  ghost predicate RequestsOk(l: Local, r: Remote) {
    && (forall a :: a in r.requests ==> ArgumentsOk(l, a))
    && (l.subscription.customer.Some? ==> l.subscription.customer == Some(Ours))
    && (r.requests != {} ==> l.subscription.customer.Some?)
  }

  /** An own session answers a request that was sent, and is the session of its key. */
  ghost predicate SessionOk(r: Remote, k: nat)
    requires k < |r.sessions|
  {
    var s := r.sessions[k];
    if s.customer == Ours then
      s.args.Some? && s.args.value in r.requests && KeyOf(s.args.value) in r.keys && r.keys[KeyOf(s.args.value)] == k
    else s.args.None?
  }

  ghost predicate SessionsOk(r: Remote) {
    && (forall k :: 0 <= k < |r.sessions| ==> SessionOk(r, k))
    && (forall key :: key in r.keys ==>
          r.keys[key] < |r.sessions| && r.sessions[r.keys[key]].customer == Ours && r.sessions[r.keys[key]].args.Some?
          && KeyOf(r.sessions[r.keys[key]].args.value) == key)
  }

  /** Own subscriptions and completed own sessions correspond one to one. */
  ghost predicate SubOk(r: Remote, j: nat)
    requires j < |r.subs|
  {
    var s := r.subs[j];
    s.customer == Ours ==>
      && s.status != NoStatus && s.session.Some? && s.session.value < |r.sessions|
      && r.sessions[s.session.value].customer == Ours
      && r.sessions[s.session.value].status == Completed && r.sessions[s.session.value].sub == Some(j)
  }

  ghost predicate PaidOk(r: Remote, k: nat)
    requires k < |r.sessions|
  {
    var s := r.sessions[k];
    && (s.status == Completed <==> s.sub.Some?)
    && (s.sub.Some? ==>
          s.sub.value < |r.subs| && r.subs[s.sub.value].session == Some(k) && r.subs[s.sub.value].customer == Ours)
  }

  ghost predicate SubsOk(r: Remote) {
    && (forall j :: 0 <= j < |r.subs| ==> SubOk(r, j))
    && (forall k :: 0 <= k < |r.sessions| && r.sessions[k].customer == Ours ==> PaidOk(r, k))
  }

  /** An attempt whose session can neither complete any more nor have completed. */
  ghost predicate Dead(l: Local, r: Remote, now: Time, i: nat)
    requires i < |l.attempts|
  {
    && (forall k :: 0 <= k < |r.sessions| && Refers(r.sessions[k], i) ==> r.sessions[k].status == Lapsed)
    && (l.attempts[i].expiresAt <= now || (i, l.attempts[i].digest) in r.keys)
  }

  /** `lost`: the attempts given up although their session could still complete. */
  ghost predicate AttemptOk(l: Local, r: Remote, now: Time, i: nat, lost: set<nat>)
    requires i < |l.attempts|
  {
    var a := l.attempts[i];
    && (a.session.Some? ==> a.session.value < |r.sessions| && Refers(r.sessions[a.session.value], i))
    && (a.status == Expired ==> i in lost || Dead(l, r, now, i))
    && (a.status == Complete ==>
         a.session.Some? && a.session.value < |r.sessions| && r.sessions[a.session.value].status == Completed)
  }

  ghost predicate AttemptsTracked(l: Local, r: Remote, now: Time, lost: set<nat>) {
    forall i :: 0 <= i < |l.attempts| ==> AttemptOk(l, r, now, i, lost)
  }

  /** The subscription `j` was bought in the session of attempt `i`. */
  ghost predicate From(r: Remote, j: nat, i: nat)
    requires j < |r.subs|
  {
    r.subs[j].customer == Ours && r.subs[j].session.Some? && r.subs[j].session.value < |r.sessions|
    && Refers(r.sessions[r.subs[j].session.value], i)
  }

  /** The row follows the provider: what it believes finished is finished, and what it does not follow is finished. */
  ghost predicate CurrentOk(l: Local, r: Remote) {
    && (l.subscription.sub.Some? ==>
          l.subscription.sub.value < |r.subs| && r.subs[l.subscription.sub.value].customer == Ours
          && r.subs[l.subscription.sub.value].ownCompany
          && l.subscription.status != NoStatus
          && (Final(l.subscription.status) ==> r.subs[l.subscription.sub.value].status == l.subscription.status))
    && (forall j, i :: 0 <= j < |r.subs| && 0 <= i < |l.attempts| ==>
          From(r, j, i) && l.attempts[i].status == Complete ==>
            l.subscription.sub == Some(j) || Final(r.subs[j].status))
    && (forall i :: 0 <= i < |l.attempts| && Live(l.attempts[i]) ==>
         l.subscription.sub.None? || Final(l.subscription.status))
  }

  ghost predicate Inv(l: Local, r: Remote, now: Time, lost: set<nat>) {
    && PlansOk(l.plans) && AttemptsOk(l) && RequestsOk(l, r) && CustomersOk(l, r) && SessionsOk(r) && SubsOk(r)
    && AttemptsTracked(l, r, now, lost) && CurrentOk(l, r)
  }
}
