/** Runs of the billing protocol: the provider, the clock and the service interleave in any order. */
module BillingRuns {
  import opened Basics
  import opened Billing

  // ---- the outside, and the hypotheses about it ----

  /** What happens outside the service, at any time, also while a transaction runs. */
  datatype Happening =
    | Tick(seconds: nat)
    | CustomerPays(session: nat, paidSub: RemoteSub)
    | SessionLapses(session: nat)
    | SubChanges(changed: nat, value: RemoteSub)
    | LateCreation(args: Args)
    | LateCustomer(customer: CustomerArgs)
    | ForeignSession(other: Session)
    | ForeignSub(otherSub: RemoteSub)

  datatype Outside = Outside(remote: Remote, now: Time)

  /** A subscription arises only from an open session, once, for the session's customer. */
  predicate MayPay(r: Remote, k: nat, sub: RemoteSub) {
    k < |r.sessions| && r.sessions[k].status == Opened && sub.customer == r.sessions[k].customer
        && sub.session == Some(k)
    && sub.status != NoStatus
  }

  /** Identity never changes, and a canceled or never completed subscription stays so. */
  predicate MayChange(before: RemoteSub, after: RemoteSub) {
    after.customer == before.customer && after.session == before.session && after.ownCompany == before.ownCompany
    && (before.status == Canceled || before.status == IncompleteExpired ==> after.status == before.status)
    && after.status != NoStatus
  }

  function Paying(r: Remote, k: nat, s: RemoteSub): Remote
    requires k < |r.sessions|
  {
    r.(sessions := r.sessions[k := r.sessions[k].(status := Completed, sub := Some(|r.subs|))], subs := r.subs + [s])
  }

  function Lapsing(r: Remote, k: nat): Remote
    requires k < |r.sessions|
  {
    r.(sessions := r.sessions[k := r.sessions[k].(status := Lapsed)])
  }

  function Changed(r: Remote, now: Time, h: Happening): Remote {
    match h
    case Tick(_) => r
    case CustomerPays(k, sub) => if MayPay(r, k, sub) then Paying(r, k, sub) else r
    case SessionLapses(k) => if k < |r.sessions| && r.sessions[k].status == Opened then Lapsing(r, k) else r
    case SubChanges(j, value) =>
      if j < |r.subs| && MayChange(r.subs[j], value) then r.(subs := r.subs[j := value]) else r
    case LateCreation(args) => if args in r.requests then Create(r, now, args) else r
    case LateCustomer(args) => if args in r.customerRequests then CreateCustomer(r, args) else r
    case ForeignSession(s) =>
      if s.customer == Ours || s.args.Some? || s.sub.Some? then r else r.(sessions := r.sessions + [s])
    case ForeignSub(s) => if s.customer == Ours then r else r.(subs := r.subs + [s])
  }

  function Happens(o: Outside, h: Happening): Outside {
    Outside(Changed(o.remote, o.now, h), if h.Tick? then o.now + h.seconds else o.now)
  }

  function Elapse(o: Outside, hs: seq<Happening>): Outside {
    if hs == [] then o else Happens(Elapse(o, hs[..|hs| - 1]), hs[|hs| - 1])
  }

  /** What happens between the readings and calls of one transaction. */
  datatype Gaps = Gaps(before: seq<Happening>, second: seq<Happening>, third: seq<Happening>, last: seq<Happening>)

  function First(o: Outside, g: Gaps): Outside { Elapse(o, g.before) }
  function Second(o: Outside, g: Gaps): Outside { Elapse(First(o, g), g.second) }
  function Third(o: Outside, g: Gaps): Outside { Elapse(Second(o, g), g.third) }
  function Last(o: Outside, g: Gaps): Outside { Elapse(Third(o, g), g.last) }

  function ViewsOf(o: Outside, g: Gaps): Views {
    Views(o.now, First(o, g).remote, Second(o, g).remote, Third(o, g).remote, Last(o, g).now)
  }

  // ---- runs ----

  /** The first trial that was accepted: its end, its start and the days that were authorised. */
  datatype Trial = Trial(end: Time, start: Time, days: nat)

  /**
   `checkouts` are the reservations that were answered: the attempt and the digest a checkout goes on with.
   `read`, `trial` and `lost` are history: the last canonical read accepted, the first trial accepted, and
   the attempts given up across their deadline.
   */
  datatype World = World(local: Local, outside: Outside, checkouts: set<(nat, string)>,
                         read: Option<Read>, trial: Option<Trial>, lost: set<nat>)

  datatype Move =
    | Around(happening: Happening)
    | RecoverMove(gaps: Gaps, net: Net)
    | ReserveMove(code: string, key: string, company: CustomerArgs, publicUrl: string)
    | CustomerMove(delivery: Delivery)
    | OpenMove(waiting: seq<Happening>, attempt: nat, digest: string, priceOk: bool, delivery: Delivery, stale: bool)
    | EventMove(event: Event, gaps: Gaps, net: Net)
    | ExemptMove(exempt: bool)
    | PlanMove(plan: Plan)

  /**
   The recovery runs across the deadline of an attempt whose session it does not know: the first
   reading of the clock is too early to search, the last is late enough to give up.
   */
  predicate StraddlesAt(l: Local, start: Time, end: Time) {
    && LiveAttempt(l.attempts).Some?
    && var a := l.attempts[LiveAttempt(l.attempts).value];
    a.session.None? && l.subscription.customer.Some? && start < a.expiresAt <= end
  }

  predicate Straddles(w: World, m: Move) {
    m.RecoverMove? && StraddlesAt(w.local, w.outside.now, Last(w.outside, m.gaps).now)
  }

  /** The attempt that a recovery between these two readings gives up without having searched. */
  function Abandoned(l: Local, start: Time, end: Time): set<nat> {
    if StraddlesAt(l, start, end) then {LiveAttempt(l.attempts).value} else {}
  }

  function Apply(w: World, t: Turn, o: Outside): World {
    var trial := if w.trial.None? && t.read.Some? && t.read.value.remote.status == Trialing
                    && t.read.value.remote.trialEnd.Some? && t.read.value.remote.trialStart.Some?
                 then Some(Trial(t.read.value.remote.trialEnd.value, t.read.value.remote.trialStart.value,
                                 t.read.value.trialDays))
                 else w.trial;
    w.(local := t.local, outside := o, read := if t.read.Some? then t.read else w.read, trial := trial)
  }

  function Step(w: World, m: Move): World {
    var l, o := w.local, w.outside;
    match m
    case Around(h) => w.(outside := Happens(o, h))
    case RecoverMove(g, net) =>
      Apply(w, Recover(l, ViewsOf(o, g), net), Last(o, g)).(lost := w.lost + Abandoned(l, o.now, Last(o, g).now))
    case ReserveMove(code, key, company, url) =>
      var t := Reserve(l, o.now, code, key, company, url);
      Apply(w, t, o).(checkouts := if t.answer.Reserved? then w.checkouts + {(t.answer.attempt, key)} else w.checkouts)
    case CustomerMove(delivery) =>
      var e := EnsureCustomer(l, o.remote, delivery);
      Apply(w, e.turn, o.(remote := e.remote))
    case OpenMove(waiting, i, digest, priceOk, delivery, stale) =>
      if (i, digest) !in w.checkouts then w
      else
        var o' := Elapse(o, waiting);
        var e := OpenSession(l, o'.remote, o.now, o'.now, i, digest, priceOk, delivery, stale);
        Apply(w, e.turn, o'.(remote := e.remote))
    case EventMove(event, g, net) => Apply(w, ProcessEvent(l, ViewsOf(o, g), event, net), Last(o, g))
    case ExemptMove(exempt) => w.(local := l.(subscription := l.subscription.(exempt := exempt)))
    case PlanMove(plan) => Apply(w, ConfigurePlan(l, plan), o)
  }

  function Run(w: World, moves: seq<Move>): World {
    if moves == [] then w else Step(Run(w, moves[..|moves| - 1]), moves[|moves| - 1])
  }

  const NEW_SUBSCRIPTION: Subscription :=
    Subscription(false, None, "", "", None, None, NoStatus, None, None, None, false, false)

  predicate Initial(w: World) {
    w.local == Local(NEW_SUBSCRIPTION, [], [], map[]) && w.outside.remote == Remote(None, [], [], {}, {}, map[])
    && w.checkouts == {} && w.read.None? && w.trial.None? && w.lost == {}
  }
}
