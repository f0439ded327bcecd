/** The company's own subscription, sold through a remote payment provider. */
module Billing {
  // A service call is one transaction under the company lock; the provider is a second machine whose answers can be
  // lost.

  import opened Basics

  type Time = int

  datatype Status =
    | NoStatus | Active | Trialing | PastDue | Unpaid | Incomplete | Paused
    | Canceled | IncompleteExpired | Unknown

  predicate Final(s: Status) { s == NoStatus || s == Canceled || s == IncompleteExpired }

  // ---- the provider ----

  /** Customers, sessions and subscriptions of other applications may exist beside the company's. */
  datatype CustomerId = Ours | Other(n: nat)

  /** Everything that is sent to create a checkout session, with its idempotency key. */
  datatype Args = Args(customer: CustomerId, price: string, returnUrl: string, trialDays: nat, expiresAt: Time,
                       reference: nat, digest: string)

  datatype SessionStatus = Opened | Completed | Lapsed

  datatype Session = Session(customer: CustomerId, args: Option<Args>, status: SessionStatus, sub: Option<nat>)

  /** What an invoice says it was issued for. */
  datatype Parent = NoParent | SubscriptionDetails(sub: Option<nat>)

  /** `remaining` is absent when it is not a whole number. */
  datatype RemoteInvoice = RemoteInvoice(status: string, remaining: Option<int>, customer: Option<CustomerId>,
                                         parent: Parent)

  /** `single`: one item of quantity one. `latest`: the latest invoice, if the read expands it. */
  datatype RemoteSub = RemoteSub(
    customer: CustomerId, ownCompany: bool, session: Option<nat>, status: Status, price: string, single: bool,
    periodEnd: Option<Time>, trialStart: Option<Time>, trialEnd: Option<Time>, cancels: bool,
    latest: Option<RemoteInvoice>)

  /** Everything that is sent to create the company's customer; the key is the company's. */
  datatype CustomerArgs = CustomerArgs(name: string, email: string)

  /**
   `customer` is what the company's customer was created from. `requests` and `customerRequests` hold every
   creation ever sent; `keys` maps an idempotency key to the session it created.
   */
  datatype Remote = Remote(customer: Option<CustomerArgs>, sessions: seq<Session>, subs: seq<RemoteSub>,
                           customerRequests: set<CustomerArgs>, requests: set<Args>, keys: map<(nat, string), nat>)

  // ---- the local rows ----

  datatype Plan = Plan(code: string, price: string, trialDays: nat, active: bool)

  datatype AttemptStatus = Pending | Open | Complete | Expired

  datatype Attempt = Attempt(plan: nat, digest: string, session: Option<nat>, url: bool, returnUrl: string,
                             status: AttemptStatus, trialDays: nat, expiresAt: Time)

  datatype Subscription = Subscription(
    exempt: bool, customer: Option<CustomerId>, customerName: string, customerEmail: string,
    plan: Option<nat>, sub: Option<nat>, status: Status,
    accessUntil: Option<Time>, periodEnd: Option<Time>, trialEnd: Option<Time>, cancels: bool, trialUsed: bool)

  datatype Local = Local(subscription: Subscription, attempts: seq<Attempt>, plans: seq<Plan>,
                         events: map<string, string>)

  /** An accepted canonical read: the remote subscription, the plan found for it and the trial days authorised. */
  datatype Read = Read(sub: nat, remote: RemoteSub, plan: nat, trialDays: nat)

  datatype Answer = Done | Link(attempt: nat) | Reserved(attempt: nat) | Refused

  predicate Live(a: Attempt) { a.status == Pending || a.status == Open }

  /** The first attempt in progress. */
  function LiveAttempt(attempts: seq<Attempt>): (r: Option<nat>)
    ensures r.Some? ==> r.value < |attempts| && Live(attempts[r.value])
    ensures r.None? ==> forall i :: 0 <= i < |attempts| ==> !Live(attempts[i])
  {
    if attempts == [] then None
    else
      var earlier := LiveAttempt(attempts[..|attempts| - 1]);
      if earlier.Some? then earlier
      else if Live(attempts[|attempts| - 1]) then Some(|attempts| - 1) else None
  }

  /** The first place of a key in a column. */
  function Place(keys: seq<string>, key: string): (r: Option<nat>)
    ensures r.Some? ==> r.value < |keys| && keys[r.value] == key
    ensures r.None? ==> forall i :: 0 <= i < |keys| ==> keys[i] != key
  {
    if keys == [] then None
    else
      var earlier := Place(keys[..|keys| - 1], key);
      if earlier.Some? then earlier
      else if keys[|keys| - 1] == key then Some(|keys| - 1) else None
  }

  function AttemptFor(attempts: seq<Attempt>, digest: string): (r: Option<nat>)
    ensures r.Some? ==> r.value < |attempts| && attempts[r.value].digest == digest
    ensures r.None? ==> forall i :: 0 <= i < |attempts| ==> attempts[i].digest != digest
  {
    var keys := seq(|attempts|, i requires 0 <= i < |attempts| => attempts[i].digest);
    var r := Place(keys, digest);
    assert forall i :: 0 <= i < |attempts| ==> keys[i] == attempts[i].digest;
    r
  }

  function PlanWithPrice(plans: seq<Plan>, price: string): (r: Option<nat>)
    ensures r.Some? ==> r.value < |plans| && plans[r.value].price == price
    ensures r.None? ==> forall i :: 0 <= i < |plans| ==> plans[i].price != price
  {
    var keys := seq(|plans|, i requires 0 <= i < |plans| => plans[i].price);
    var r := Place(keys, price);
    assert forall i :: 0 <= i < |plans| ==> keys[i] == plans[i].price;
    r
  }

  function PlanWithCode(plans: seq<Plan>, code: string): (r: Option<nat>)
    ensures r.Some? ==> r.value < |plans| && plans[r.value].code == code
    ensures r.None? ==> forall i :: 0 <= i < |plans| ==> plans[i].code != code
  {
    var keys := seq(|plans|, i requires 0 <= i < |plans| => plans[i].code);
    var r := Place(keys, code);
    assert forall i :: 0 <= i < |plans| ==> keys[i] == plans[i].code;
    r
  }

  // ---- looking for a session ----

  datatype Search = Ambiguous | Missing | Found(session: nat)

  const PAGE: nat := 100

  /** The company's own sessions, oldest first. */
  function OwnSessions(sessions: seq<Session>): seq<nat> {
    if sessions == [] then []
    else
      var n := |sessions| - 1;
      var rest := OwnSessions(sessions[..n]);
      if sessions[n].customer == Ours then rest + [n] else rest
  }

  predicate Refers(s: Session, reference: nat) {
    s.customer == Ours && s.args.Some? && s.args.value.reference == reference
  }

  function Matches(sessions: seq<Session>, ids: seq<nat>, reference: nat): seq<nat>
    requires forall i :: 0 <= i < |ids| ==> ids[i] < |sessions|
  {
    if ids == [] then []
    else
      var n := |ids| - 1;
      var rest := Matches(sessions, ids[..n], reference);
      if Refers(sessions[ids[n]], reference) then rest + [ids[n]] else rest
  }

  lemma {:induction false} OwnSessionsOk(sessions: seq<Session>)
    ensures forall i :: 0 <= i < |OwnSessions(sessions)| ==>
              OwnSessions(sessions)[i] < |sessions| && sessions[OwnSessions(sessions)[i]].customer == Ours
    ensures forall k :: 0 <= k < |sessions| && sessions[k].customer == Ours ==> k in OwnSessions(sessions)
  {
    if sessions != [] {
      OwnSessionsOk(sessions[..|sessions| - 1]);
    }
  }

  /** The page the provider returns: the most recent hundred of the customer's sessions. */
  function Page(sessions: seq<Session>): (r: seq<nat>)
    ensures forall i :: 0 <= i < |r| ==> r[i] < |sessions|
    ensures |r| == if |OwnSessions(sessions)| <= PAGE then |OwnSessions(sessions)| else PAGE
  {
    OwnSessionsOk(sessions);
    var ids := OwnSessions(sessions);
    if |ids| <= PAGE then ids else ids[|ids| - PAGE..]
  }

  function Find(sessions: seq<Session>, reference: nat): Search {
    var found := Matches(sessions, Page(sessions), reference);
    if |found| > 1 || (found == [] && |OwnSessions(sessions)| > PAGE) then Ambiguous
    else if found == [] then Missing
    else Found(found[0])
  }

  lemma {:induction false} MatchesOk(sessions: seq<Session>, ids: seq<nat>, reference: nat)
    requires forall i :: 0 <= i < |ids| ==> ids[i] < |sessions|
    ensures forall k :: k in Matches(sessions, ids, reference) <==> k in ids && Refers(sessions[k], reference)
  {
    if ids != [] {
      MatchesOk(sessions, ids[..|ids| - 1], reference);
      assert ids == ids[..|ids| - 1] + [ids[|ids| - 1]];
    }
  }

  /** A search that reports nothing means that nothing exists; a result is a session of this attempt. */
  lemma FindIsReliable(sessions: seq<Session>, reference: nat)
    ensures Find(sessions, reference).Missing? ==>
              forall k :: 0 <= k < |sessions| ==> !Refers(sessions[k], reference)
    ensures Find(sessions, reference).Found? ==>
              Find(sessions, reference).session < |sessions|
                  && Refers(sessions[Find(sessions, reference).session], reference)
  {
    OwnSessionsOk(sessions);
    MatchesOk(sessions, Page(sessions), reference);
    var found := Matches(sessions, Page(sessions), reference);
    if found != [] {
      assert found[0] in found;
    }
  }

  lemma {:induction false} OwnSessionsOrdered(sessions: seq<Session>)
    ensures forall i, j :: 0 <= i < j < |OwnSessions(sessions)| ==> OwnSessions(sessions)[i] < OwnSessions(sessions)[j]
  {
    if sessions != [] {
      OwnSessionsOrdered(sessions[..|sessions| - 1]);
      OwnSessionsOk(sessions[..|sessions| - 1]);
    }
  }

  ghost predicate OneRefers(sessions: seq<Session>, reference: nat) {
    forall i, j | 0 <= i < |sessions| && 0 <= j < |sessions| ::
      Refers(sessions[i], reference) && Refers(sessions[j], reference) ==> i == j
  }

  lemma {:induction false} OneMatch(sessions: seq<Session>, ids: seq<nat>, reference: nat)
    requires OneRefers(sessions, reference)
    requires forall i :: 0 <= i < |ids| ==> ids[i] < |sessions|
    requires forall i, j :: 0 <= i < j < |ids| ==> ids[i] < ids[j]
    ensures |Matches(sessions, ids, reference)| <= 1
  {
    if ids != [] {
      var n := |ids| - 1;
      OneMatch(sessions, ids[..n], reference);
      MatchesOk(sessions, ids[..n], reference);
      var rest := Matches(sessions, ids[..n], reference);
      if rest != [] {
        assert rest[0] in rest;
      }
    }
  }

  /** The search answers whenever the customer has at most a page of sessions and no two for the attempt. */
  lemma FindAnswers(sessions: seq<Session>, reference: nat)
    requires OneRefers(sessions, reference) && |OwnSessions(sessions)| <= PAGE
    ensures !Find(sessions, reference).Ambiguous?
  {
    OwnSessionsOk(sessions);
    OwnSessionsOrdered(sessions);
    OneMatch(sessions, Page(sessions), reference);
  }

  /** The loop over the page, which collects the matches and refuses an ambiguous answer. */
  method FindCheckout(sessions: seq<Session>, reference: nat) returns (r: Search)
    ensures r == Find(sessions, reference)
  {
    var page := Page(sessions);
    var matches: seq<nat> := [];
    for i := 0 to |page|
      invariant matches == Matches(sessions, page[..i], reference)
    {
      assert page[..i + 1][..i] == page[..i];
      if Refers(sessions[page[i]], reference) {
        matches := matches + [page[i]];
      }
    }
    assert page[..|page|] == page;
    if |matches| > 1 || (matches == [] && |OwnSessions(sessions)| > PAGE) {
      return Ambiguous;
    }
    return if matches == [] then Missing else Found(matches[0]);
  }

  // ---- canonical reads ----

  /** The subscription an invoice was issued for. */
  function ParentReference(p: Parent): Option<nat> {
    match p
    case NoParent => None
    case SubscriptionDetails(sub) => sub
  }

  /** The latest invoice is paid in full, by this customer, for this subscription. */
  predicate FullyPaid(latest: Option<RemoteInvoice>, customer: Option<CustomerId>, id: nat) {
    && latest.Some? && latest.value.status == "paid" && latest.value.remaining == Some(0)
    && customer.Some? && latest.value.customer == customer && ParentReference(latest.value.parent) == Some(id)
  }

  /** What an accepted read says about access: the end of a fully paid period, or of an accepted trial. */
  function AccessFrom(customer: Option<CustomerId>, read: Read): Option<Time> {
    var r := read.remote;
    if r.periodEnd.None? then None
    else if r.status == Trialing && r.trialEnd.Some? then
      Some(if r.trialEnd.value <= r.periodEnd.value then r.trialEnd.value else r.periodEnd.value)
    else if r.status == Active && FullyPaid(r.latest, customer, read.sub) then r.periodEnd
    else None
  }

  const DAY: int := 86400

  predicate TrialAccepted(sub: Subscription, r: RemoteSub, authorised: nat) {
    if r.status != Trialing || r.trialEnd.None? then true
    else if sub.trialUsed then sub.trialEnd.Some? && r.trialEnd.value <= sub.trialEnd.value
    else authorised > 0 && r.trialStart.Some? && r.trialEnd.value - r.trialStart.value <= authorised * DAY + 60
  }

  /** The row after an accepted read; everything but exemption, customer and trial memory comes from the read. */
  function Updated(sub: Subscription, read: Read, now: Time): Subscription {
    var r := read.remote;
    var access := AccessFrom(sub.customer, read);
    sub.(plan := Some(read.plan), sub := Some(read.sub), status := r.status, periodEnd := r.periodEnd,
         trialEnd := r.trialEnd,
         cancels := r.cancels, accessUntil := access,
         trialUsed := sub.trialUsed || (r.status == Trialing && r.trialEnd.Some?),
         exempt := sub.exempt && !(access.Some? && access.value > now))
  }

  datatype Synced = Rejected | Synced(local: Local, read: Read)

  /**
   The canonical read. The subscription is read from the provider as it is at the first call, `one`, and the
   session as it is at the second, `two`; `up` and `upAgain` say whether the calls answer.
   */
  function Synchronize(l: Local, one: Remote, two: Remote, now: Time, id: nat, up: bool, upAgain: bool): Synced {
    if !up || id >= |one.subs| then Rejected
    else
      var r := one.subs[id];
      var plan := PlanWithPrice(l.plans, r.price);
      if Some(r.customer) != l.subscription.customer || !r.ownCompany || !r.single || plan.None? then Rejected
      else if r.status == NoStatus || r.status == Unknown then Rejected
      else if l.subscription.sub == Some(id) then Settled(l, l.attempts, Read(id, r, plan.value, 0), now)
      else if l.subscription.sub.Some? && !Final(l.subscription.status) then Rejected
      else
        var pending := LiveAttempt(l.attempts);
        if pending.None? || l.attempts[pending.value].plan != plan.value || l.attempts[pending.value].session.None?
           || !upAgain then Rejected
        else
          var a := l.attempts[pending.value];
          var k := a.session.value;
          if k >= |two.sessions| || !Refers(two.sessions[k], pending.value) || two.sessions[k].status != Completed
             || two.sessions[k].sub != Some(id) then Rejected
          else Settled(l, l.attempts[pending.value := a.(status := Complete)], Read(id, r, plan.value, a.trialDays),
                       now)
  }

  function Settled(l: Local, attempts: seq<Attempt>, read: Read, now: Time): Synced {
    if read.remote.periodEnd.None? || !TrialAccepted(l.subscription, read.remote, read.trialDays) then Rejected
    else Synced(l.(attempts := attempts, subscription := Updated(l.subscription, read, now)), read)
  }

  // ---- the transactions ----

  /** The outcome of a transaction: the rows, the answer and the canonical read it accepted, if any. */
  datatype Turn = Turn(local: Local, answer: Answer, read: Option<Read>)

  function FromSync(l: Local, s: Synced): Turn {
    if s.Rejected? then Turn(l, Refused, None) else Turn(s.local, Done, Some(s.read))
  }

  function SetAttempt(l: Local, i: nat, a: Attempt): Local
    requires i < |l.attempts|
  {
    l.(attempts := l.attempts[i := a])
  }

  /** Whether the successive calls of a transaction to the provider answer. */
  datatype Net = Net(first: bool, second: bool, third: bool)

  /**
   What a transaction sees of the outside while it runs: the clock when it is first read, the provider at
   each successive call, and the clock when it is last read.
   */
  datatype Views = Views(start: Time, one: Remote, two: Remote, three: Remote, end: Time)

  /** Resolves an attempt in progress. */
  function Recover(l: Local, v: Views, up: Net): Turn {
    var i := LiveAttempt(l.attempts);
    if i.None? then Turn(l, Done, None)
    else
      var a := l.attempts[i.value];
      if a.session.Some? then
        if !up.first then Turn(l, Refused, None) else Resolved(l, l, v, i.value, a.session.value, up)
      else if a.expiresAt <= v.start && l.subscription.customer.Some? then
        match (if up.first then Find(v.one.sessions, i.value) else Ambiguous)
        case Ambiguous => Turn(l, Refused, None)
        case Missing => GivenUp(l, v.end, i.value)
        case Found(k) => Resolved(l, SetAttempt(l, i.value, a.(session := Some(k))), v, i.value, k, up)
      else GivenUp(l, v.end, i.value)
  }

  /** The end of a recovery that knows no session: the clock is read again. */
  function GivenUp(l: Local, end: Time, i: nat): Turn
    requires i < |l.attempts|
  {
    Turn(if l.attempts[i].expiresAt > end then l else SetAttempt(l, i, l.attempts[i].(status := Expired)), Done, None)
  }

  /** The part of the recovery that knows the session; `l` are the rows to return to on a refusal. */
  function Resolved(l: Local, saved: Local, v: Views, i: nat, k: nat, up: Net): Turn
  {
    if i >= |saved.attempts| || k >= |v.one.sessions| || !Refers(v.one.sessions[k], i) then Turn(l, Refused, None)
    else
      match v.one.sessions[k].status
      case Completed =>
        if v.one.sessions[k].sub.None? then Turn(l, Refused, None)
        else FromSync(l, Synchronize(saved, v.two, v.three, v.end, v.one.sessions[k].sub.value, up.second, up.third))
      case Opened => Turn(saved, Done, None)
      case Lapsed => Turn(SetAttempt(saved, i, saved.attempts[i].(status := Expired)), Done, None)
  }

  const HOUR: int := 3600

  /** Reserves an attempt before anything is sent. */
  function Reserve(l: Local, now: Time, code: string, digest: string, company: CustomerArgs, publicUrl: string): Turn {
    var sub := if l.subscription.customerName == ""
               then l.subscription.(customerName := company.name, customerEmail := company.email) else l.subscription;
    var named := l.(subscription := sub);
    var plan := PlanWithCode(l.plans, code);
    if plan.None? || !l.plans[plan.value].active then Turn(l, Refused, None)
    else if sub.sub.Some? && !Final(sub.status) then Turn(l, Refused, None)
    else
      var mine := AttemptFor(l.attempts, digest);
      if mine.Some? && (l.attempts[mine.value].plan != plan.value || !Live(l.attempts[mine.value])) then
        Turn(l, Refused, None)
      else
        var pending := LiveAttempt(l.attempts);
        if pending.Some? && pending != mine then
          var p := l.attempts[pending.value];
          if p.plan == plan.value && p.url && p.expiresAt > now then Turn(named, Link(pending.value), None)
          else Turn(l, Refused, None)
        else if mine.Some? then Turn(named, Reserved(mine.value), None)
        else
          var a := Attempt(plan.value, digest, None, false, publicUrl, Pending,
                           if sub.trialUsed then 0 else l.plans[plan.value].trialDays, now + HOUR);
          Turn(named.(attempts := l.attempts + [a]), Reserved(|l.attempts|), None)
  }

  /** What a checkout sends for an attempt, under the digest of its own request. */
  function ArgsFor(l: Local, customer: CustomerId, i: nat, digest: string): Args
    requires i < |l.attempts|
  {
    var a := l.attempts[i];
    var price := if a.plan < |l.plans| then l.plans[a.plan].price else "";
    Args(customer, price, a.returnUrl, a.trialDays, a.expiresAt, i, digest)
  }

  predicate MaySend(l: Local, now: Time, i: nat, priceOk: bool) {
    && i < |l.attempts| && !(l.subscription.sub.Some? && !Final(l.subscription.status))
    && Live(l.attempts[i]) && l.attempts[i].expiresAt > now && !l.attempts[i].url && priceOk
    && l.subscription.customer.Some?
  }

  function KeyOf(a: Args): (nat, string) { (a.reference, a.digest) }

  /** The provider's side of a creation: an idempotent replay, a new session, or a refusal. */
  function Create(remote: Remote, now: Time, a: Args): Remote {
    if KeyOf(a) in remote.keys || now >= a.expiresAt then remote
    else remote.(sessions := remote.sessions + [Session(a.customer, Some(a), Opened, None)],
                 keys := remote.keys[KeyOf(a) := |remote.sessions|])
  }

  function Sent(remote: Remote, a: Args): Remote { remote.(requests := remote.requests + {a}) }

  /** Lost: the request left, and its answer did not come back; the provider may still act on it later. */
  datatype Delivery = NotSent | Lost | Answered

  datatype Exchange = Exchange(turn: Turn, remote: Remote)

  /**
   `now` is the clock when the attempt is checked, `acting` when the provider acts. `stale`: the provider
   repeats the body of its first answer, in which the session was open.
   */
  function OpenSession(l: Local, remote: Remote, now: Time, acting: Time, i: nat, digest: string, priceOk: bool,
                       delivery: Delivery,
                       stale: bool): Exchange {
    if i >= |l.attempts| then Exchange(Turn(l, Refused, None), remote)
    else if !MaySend(l, now, i, priceOk) then
      Exchange(Turn(l, if Live(l.attempts[i]) && l.attempts[i].url && l.attempts[i].expiresAt > now
                          && !(l.subscription.sub.Some? && !Final(l.subscription.status))
                           then Link(i) else Refused, None), remote)
    else
      var args := ArgsFor(l, l.subscription.customer.value, i, digest);
      match delivery
      case NotSent => Exchange(Turn(l, Refused, None), remote)
      case Lost => Exchange(Turn(l, Refused, None), Sent(remote, args))
      case Answered =>
        var after := Create(Sent(remote, args), acting, args);
        var k := if KeyOf(args) in after.keys then after.keys[KeyOf(args)] else |after.sessions|;
        if k >= |after.sessions| || after.sessions[k].args != Some(args) || !Refers(after.sessions[k], i)
           || (!stale && after.sessions[k].status != Opened) then
          Exchange(Turn(l, Refused, None), after)
        else
          Exchange(Turn(SetAttempt(l, i, l.attempts[i].(session := Some(k), url := true, status := Open)), Link(i),
                        None), after)
  }

  function Asked(remote: Remote, a: CustomerArgs): Remote { remote.(customerRequests := remote.customerRequests + {a}) }

  /** The provider keeps the customer that the first creation under the company's key made. */
  function CreateCustomer(remote: Remote, a: CustomerArgs): Remote {
    if remote.customer.Some? then remote else remote.(customer := Some(a))
  }

  /** The provider refuses the key when it comes with other arguments than the first time. */
  function EnsureCustomer(l: Local, remote: Remote, delivery: Delivery): Exchange {
    if l.subscription.customer.Some? then Exchange(Turn(l, Done, None), remote)
    else if l.subscription.customerName == "" || delivery == NotSent then Exchange(Turn(l, Refused, None), remote)
    else
      var args := CustomerArgs(l.subscription.customerName, l.subscription.customerEmail);
      if delivery == Lost then Exchange(Turn(l, Refused, None), Asked(remote, args))
      else
        var after := CreateCustomer(Asked(remote, args), args);
        if after.customer != Some(args) then Exchange(Turn(l, Refused, None), after)
        else Exchange(Turn(l.(subscription := l.subscription.(customer := Some(Ours))), Done, None), after)
  }

  datatype Kind = SessionCompleted | SessionExpired | SubscriptionChanged | InvoiceIssued | OtherKind

  /** The object of a notification: its identifier, the subscription of a session, the parent of an invoice. */
  datatype Body = Body(id: Option<nat>, sub: Option<nat>, parent: Parent)

  /** A notification: its identifier, a digest of its text, and what it tells. */
  datatype Event = Event(id: string, digest: string, kind: Kind, customer: CustomerId, body: Body)

  function SubscriptionReference(body: Body, kind: Kind): Option<nat> {
    match kind
    case SubscriptionChanged => body.id
    case SessionCompleted => body.sub
    case SessionExpired => body.sub
    case InvoiceIssued => ParentReference(body.parent)
    case OtherKind => None
  }

  function Recorded(l: Local, e: Event): Local { l.(events := l.events[e.id := e.digest]) }

  function ProcessEvent(l: Local, v: Views, e: Event, up: Net): Turn {
    if e.kind == OtherKind || Some(e.customer) != l.subscription.customer then Turn(l, Done, None)
    else if e.id in l.events then Turn(l, if l.events[e.id] == e.digest then Done else Refused, None)
    else if e.kind == SessionExpired then
      var i := LiveAttempt(l.attempts);
      if i.None? || e.body.id.None? || l.attempts[i.value].session != e.body.id then Turn(Recorded(l, e), Done, None)
      else
        var k := e.body.id.value;
        if !up.first || k >= |v.one.sessions| || !Refers(v.one.sessions[k], i.value) then Turn(l, Refused, None)
        else if v.one.sessions[k].status == Lapsed then
          Turn(Recorded(SetAttempt(l, i.value, l.attempts[i.value].(status := Expired)), e), Done, None)
        else Turn(Recorded(l, e), Done, None)
    else
      var reference := SubscriptionReference(e.body, e.kind);
      if reference.None? then Turn(l, Done, None)
      else
        match Synchronize(l, v.one, v.two, v.end, reference.value, up.first, up.second)
        case Rejected => Turn(l, Refused, None)
        case Synced(after, read) => Turn(Recorded(after, e), Done, Some(read))
  }

  /** Another code of the catalogue has the price. */
  predicate SoldAsAnother(plans: seq<Plan>, p: Plan) {
    exists i :: 0 <= i < |plans| && plans[i].price == p.price && plans[i].code != p.code
  }

  /** Imports a price into the catalogue: a code keeps its price, and a price keeps its code. */
  function ConfigurePlan(l: Local, p: Plan): Turn {
    var existing := PlanWithCode(l.plans, p.code);
    if existing.Some? && l.plans[existing.value].price != p.price then Turn(l, Refused, None)
    else if SoldAsAnother(l.plans, p) then Turn(l, Refused, None)
    else Turn(l.(plans := if existing.Some? then l.plans[existing.value := p] else l.plans + [p]), Done, None)
  }

  predicate HasAccess(sub: Subscription, now: Time) {
    sub.exempt || ((sub.status == Active || sub.status == Trialing) && sub.accessUntil.Some?
        && sub.accessUntil.value > now)
  }
}
