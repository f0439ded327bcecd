/** The billing services as they run. */
module BillingService {
  // The row of the subscription and the rows of the attempts are changed one field at a time, and a refusal returns
  // to the rows the transaction began with.

  import opened Basics
  import opened Billing

  class Service {
    var exempt: bool
    var customer: Option<CustomerId>
    var customerName: string
    var customerEmail: string
    var plan: Option<nat>
    var sub: Option<nat>
    var status: Status
    var accessUntil: Option<Time>
    var periodEnd: Option<Time>
    var trialEnd: Option<Time>
    var cancels: bool
    var trialUsed: bool
    var attempts: seq<Attempt>
    var plans: seq<Plan>
    var events: map<string, string>

    function Row(): Subscription
      reads this
    {
      Subscription(exempt, customer, customerName, customerEmail, plan, sub, status, accessUntil, periodEnd,
                   trialEnd, cancels, trialUsed)
    }

    function Rows(): Local
      reads this
    {
      Local(Row(), attempts, plans, events)
    }

    constructor (start: Local)
      ensures Rows() == start
    {
      var s := start.subscription;
      exempt, customer, customerName, customerEmail := s.exempt, s.customer, s.customerName, s.customerEmail;
      plan, sub, status := s.plan, s.sub, s.status;
      accessUntil, periodEnd, trialEnd, cancels, trialUsed := s.accessUntil, s.periodEnd, s.trialEnd, s.cancels,
          s.trialUsed;
      attempts, plans, events := start.attempts, start.plans, start.events;
    }

    /** The end of a transaction that raised. */
    method Rollback(saved: Local)
      modifies this
      ensures Rows() == saved
    {
      RestoreIdentity(saved.subscription);
      RestoreFacts(saved.subscription);
      attempts, plans, events := saved.attempts, saved.plans, saved.events;
    }

    method RestoreIdentity(s: Subscription)
      modifies this`exempt, this`customer, this`customerName, this`customerEmail, this`trialUsed
      ensures exempt == s.exempt && customer == s.customer && customerName == s.customerName
              && customerEmail == s.customerEmail
      ensures trialUsed == s.trialUsed
    {
      exempt, customer, customerName, customerEmail, trialUsed := s.exempt, s.customer, s.customerName,
          s.customerEmail, s.trialUsed;
    }

    method RestoreFacts(s: Subscription)
      modifies this`plan, this`sub, this`status, this`accessUntil, this`periodEnd, this`trialEnd, this`cancels
      ensures plan == s.plan && sub == s.sub && status == s.status && accessUntil == s.accessUntil
      ensures periodEnd == s.periodEnd && trialEnd == s.trialEnd && cancels == s.cancels
    {
      plan, sub, status, accessUntil := s.plan, s.sub, s.status, s.accessUntil;
      periodEnd, trialEnd, cancels := s.periodEnd, s.trialEnd, s.cancels;
    }

    /** The fields copied from a read; access is withdrawn until it is granted again. */
    method CopyFacts(read: Read)
      modifies this`plan, this`sub, this`status, this`periodEnd, this`trialEnd, this`cancels, this`accessUntil
      ensures plan == Some(read.plan) && sub == Some(read.sub) && status == read.remote.status
      ensures periodEnd == read.remote.periodEnd && trialEnd == read.remote.trialEnd
              && cancels == read.remote.cancels && accessUntil.None?
    {
      plan, sub, status := Some(read.plan), Some(read.sub), read.remote.status;
      periodEnd := read.remote.periodEnd;
      trialEnd := read.remote.trialEnd;
      cancels := read.remote.cancels;
      accessUntil := None;
    }

    /** The tests on the latest invoice, one after the other. */
    method PaysInFull(latest: Option<RemoteInvoice>, id: nat) returns (paid: bool)
      ensures paid == FullyPaid(latest, customer, id)
    {
      if latest.None? { return false; }
      var invoice := latest.value;
      if invoice.status != "paid" { return false; }
      if invoice.remaining.None? || invoice.remaining.value != 0 { return false; }
      if customer.None? || invoice.customer != customer { return false; }
      paid := SubscriptionReference(Body(None, None, invoice.parent), InvoiceIssued) == Some(id);
    }

    /** The access a read grants, unless it is a trial that was not authorised. */
    method GrantAccess(read: Read, previousTrialEnd: Option<Time>) returns (ok: bool)
      requires read.remote.periodEnd.Some? && accessUntil.None?
      modifies this`accessUntil, this`trialUsed
      ensures ok == TrialAccepted(old(Row()).(trialEnd := previousTrialEnd), read.remote, read.trialDays)
      ensures ok ==> accessUntil == AccessFrom(customer, read)
                     && trialUsed == (old(trialUsed) || (read.remote.status == Trialing && read.remote.trialEnd.Some?))
    {
      var r := read.remote;
      if r.status == Trialing && r.trialEnd.Some? {
        if trialUsed {
          if previousTrialEnd.None? || r.trialEnd.value > previousTrialEnd.value { return false; }
        } else if read.trialDays == 0 || r.trialStart.None?
            || r.trialEnd.value - r.trialStart.value > read.trialDays * DAY + 60 {
          return false;
        }
        accessUntil := Some(if r.trialEnd.value <= r.periodEnd.value then r.trialEnd.value else r.periodEnd.value);
        trialUsed := true;
      } else if r.status == Active {
        var paid := PaysInFull(r.latest, read.sub);
        if paid { accessUntil := r.periodEnd; }
      }
      ok := true;
    }

    /** What a read overwrites, in the service's order; a refused trial leaves it half written. */
    method TakeOver(read: Read, now: Time) returns (ok: bool)
      modifies this
      ensures ok == (read.remote.periodEnd.Some? && TrialAccepted(old(Row()), read.remote, read.trialDays))
      ensures attempts == old(attempts) && plans == old(plans) && events == old(events)
      ensures ok ==> Row() == Updated(old(Row()), read, now)
    {
      hide AccessFrom;
      if read.remote.periodEnd.None? { return false; }
      var previousTrialEnd := trialEnd;
      CopyFacts(read);
      ok := GrantAccess(read, previousTrialEnd);
      if ok && accessUntil.Some? && accessUntil.value > now { exempt := false; }
    }

    /** The canonical read. After a refusal the caller rolls back. */
    method Synchronize(one: Remote, two: Remote, now: Time, id: nat, up: bool, upAgain: bool)
      returns (read: Option<Read>)
      modifies this
      ensures Billing.Synchronize(old(Rows()), one, two, now, id, up, upAgain) ==
              if read.Some? then Synced(Rows(), read.value) else Rejected
    {
      read := None;
      if !up || id >= |one.subs| { return; }
      var r := one.subs[id];
      if Some(r.customer) != customer || !r.ownCompany || !r.single { return; }
      var found := PlanWithPrice(plans, r.price);
      if found.None? || r.status == NoStatus || r.status == Unknown { return; }
      var authorized := 0;
      if sub != Some(id) {
        if sub.Some? && !Final(status) { return; }
        var pending := LiveAttempt(attempts);
        if pending.None? || attempts[pending.value].plan != found.value { return; }
        var attempt := attempts[pending.value];
        if attempt.session.None? || !upAgain { return; }
        var k := attempt.session.value;
        if k >= |two.sessions| || !Refers(two.sessions[k], pending.value) { return; }
        if two.sessions[k].status != Completed || two.sessions[k].sub != Some(id) { return; }
        attempts := attempts[pending.value := attempt.(status := Complete)];
        authorized := attempt.trialDays;
      }
      var ok := TakeOver(Read(id, r, found.value, authorized), now);
      if ok { read := Some(Read(id, r, found.value, authorized)); }
    }

    method Recover(v: Views, up: Net) returns (answer: Answer, read: Option<Read>)
      modifies this
      ensures Turn(Rows(), answer, read) == Billing.Recover(old(Rows()), v, up)
    {
      hide Billing.Synchronize, Find;
      answer, read := Done, None;
      var saved := Rows();
      var i := LiveAttempt(attempts);
      if i.None? { return; }
      var attempt := attempts[i.value];
      var session := attempt.session;
      if session.Some? {
        if !up.first { answer := Refused; return; }
      } else if attempt.expiresAt <= v.start && customer.Some? {
        var search := Ambiguous;
        if up.first { search := FindCheckout(v.one.sessions, i.value); }
        if search.Ambiguous? { answer := Refused; return; }
        if search.Found? {
          session := Some(search.session);
          attempt := attempt.(session := session);
          attempts := attempts[i.value := attempt];
        }
      }
      if session.Some? {
        var k := session.value;
        if k >= |v.one.sessions| || !Refers(v.one.sessions[k], i.value) {
          Rollback(saved);
          answer := Refused;
          return;
        }
        if v.one.sessions[k].status == Completed {
          if v.one.sessions[k].sub.Some? {
            read := Synchronize(v.two, v.three, v.end, v.one.sessions[k].sub.value, up.second, up.third);
          }
          if read.None? {
            Rollback(saved);
            answer := Refused;
          }
          return;
        }
        if v.one.sessions[k].status != Lapsed { return; }
      } else if attempt.expiresAt > v.end {
        return;
      }
      attempts := attempts[i.value := attempt.(status := Expired)];
    }

    method Reserve(now: Time, code: string, digest: string, company: CustomerArgs, publicUrl: string)
      returns (answer: Answer)
      modifies this
      ensures Turn(Rows(), answer, None) == Billing.Reserve(old(Rows()), now, code, digest, company, publicUrl)
    {
      var saved := Rows();
      answer := Refused;
      if customerName == "" {
        customerName := company.name;
        customerEmail := company.email;
      }
      var wanted := PlanWithCode(plans, code);
      if wanted.None? || !plans[wanted.value].active { Rollback(saved); return; }
      if sub.Some? && !Final(status) { Rollback(saved); return; }
      var mine := AttemptFor(attempts, digest);
      if mine.Some? && (attempts[mine.value].plan != wanted.value || !Live(attempts[mine.value])) {
        Rollback(saved);
        return;
      }
      var pending := LiveAttempt(attempts);
      if pending.Some? && pending != mine {
        var p := attempts[pending.value];
        if p.plan == wanted.value && p.url && p.expiresAt > now { answer := Link(pending.value); return; }
        Rollback(saved);
        return;
      }
      if mine.Some? { answer := Reserved(mine.value); return; }
      var days := plans[wanted.value].trialDays;
      if trialUsed { days := 0; }
      answer := Reserved(|attempts|);
      attempts := attempts + [Attempt(wanted.value, digest, None, false, publicUrl, Pending, days, now + HOUR)];
    }

    method EnsureCustomer(remote: Remote, delivery: Delivery) returns (answer: Answer, after: Remote)
      modifies this
      ensures Exchange(Turn(Rows(), answer, None), after) == Billing.EnsureCustomer(old(Rows()), remote, delivery)
    {
      answer, after := Refused, remote;
      if customer.Some? { answer := Done; return; }
      if customerName == "" || delivery == NotSent { return; }
      var args := CustomerArgs(customerName, customerEmail);
      after := Asked(remote, args);
      if delivery == Lost { return; }
      after := CreateCustomer(after, args);
      if after.customer != Some(args) { return; }
      customer := Some(Ours);
      answer := Done;
    }

    /** Sends the creation under the digest of the request; the session is recorded after its answer was checked. */
    method OpenSession(remote: Remote, now: Time, acting: Time, i: nat, digest: string, priceOk: bool,
                       delivery: Delivery, stale: bool)
      returns (answer: Answer, after: Remote)
      modifies this
      ensures Exchange(Turn(Rows(), answer, None), after)
              == Billing.OpenSession(old(Rows()), remote, now, acting, i, digest, priceOk, delivery, stale)
    {
      hide FullyPaid, Create, KeyOf, ArgsFor, Sent;
      answer, after := Refused, remote;
      if i >= |attempts| || (sub.Some? && !Final(status)) || !Live(attempts[i]) || attempts[i].expiresAt <= now {
        return;
      }
      if attempts[i].url { answer := Link(i); return; }
      if !priceOk || customer.None? || delivery == NotSent { return; }
      var saved := Rows();
      var args := ArgsFor(saved, customer.value, i, digest);
      after := Sent(remote, args);
      if delivery == Lost { return; }
      after := Create(after, acting, args);
      var k := if KeyOf(args) in after.keys then after.keys[KeyOf(args)] else |after.sessions|;
      attempts := attempts[i := attempts[i].(session := Some(k))];
      if k >= |after.sessions| || after.sessions[k].args != Some(args) || !Refers(after.sessions[k], i)
         || (!stale && after.sessions[k].status != Opened) {
        Rollback(saved);
        return;
      }
      attempts := attempts[i := attempts[i].(url := true)];
      attempts := attempts[i := attempts[i].(status := Open)];
      answer := Link(i);
    }

    method ProcessEvent(v: Views, e: Event, up: Net) returns (answer: Answer, read: Option<Read>)
      modifies this
      ensures Turn(Rows(), answer, read) == Billing.ProcessEvent(old(Rows()), v, e, up)
    {
      hide Billing.Synchronize;
      answer, read := Done, None;
      if e.kind == OtherKind || Some(e.customer) != customer { return; }
      if e.id in events {
        if events[e.id] != e.digest { answer := Refused; }
        return;
      }
      if e.kind == SessionExpired {
        var i := LiveAttempt(attempts);
        if i.Some? && e.body.id.Some? && attempts[i.value].session == e.body.id {
          var k := e.body.id.value;
          if !up.first || k >= |v.one.sessions| || !Refers(v.one.sessions[k], i.value) { answer := Refused; return; }
          if v.one.sessions[k].status == Lapsed {
            attempts := attempts[i.value := attempts[i.value].(status := Expired)];
          }
        }
      } else {
        var reference := SubscriptionReference(e.body, e.kind);
        if reference.None? { return; }
        var saved := Rows();
        read := Synchronize(v.one, v.two, v.end, reference.value, up.first, up.second);
        if read.None? {
          Rollback(saved);
          answer := Refused;
          return;
        }
      }
      events := events[e.id := e.digest];
    }

    /** The import of a price: the code keeps its price, and the price keeps its code. */
    method ConfigurePlan(p: Plan) returns (answer: Answer)
      modifies this`plans
      ensures Turn(Rows(), answer, None) == Billing.ConfigurePlan(old(Rows()), p)
    {
      var existing := PlanWithCode(plans, p.code);
      if existing.Some? && plans[existing.value].price != p.price { return Refused; }
      if SoldAsAnother(plans, p) { return Refused; }
      if existing.Some? { plans := plans[existing.value := p]; } else { plans := plans + [p]; }
      answer := Done;
    }
  }
}
