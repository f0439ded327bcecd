/** What happens outside keeps the invariant, whatever the rows, and never takes anything back. */
module BillingOutside {
  import opened Billing
  import opened BillingRuns
  import opened BillingInvariant
  import opened BillingKeeps

  predicate Ended(s: Status) { s == Canceled || s == IncompleteExpired }

  /** `p` is a later outside: sessions and subscriptions remain, and what is over remains over. */
  ghost predicate Later(o: Outside, p: Outside) {
    && o.now <= p.now && |o.remote.sessions| <= |p.remote.sessions| && |o.remote.subs| <= |p.remote.subs|
    && (forall k :: 0 <= k < |o.remote.sessions| ==> SameSession(o.remote.sessions[k], p.remote.sessions[k]))
    && (forall k :: |o.remote.sessions| <= k < |p.remote.sessions| && p.remote.sessions[k].args.Some? ==>
          o.now < p.remote.sessions[k].args.value.expiresAt)
    && (forall j :: 0 <= j < |o.remote.subs| ==> SameSub(o.remote.subs[j], p.remote.subs[j]))
  }

  predicate SameSession(s: Session, t: Session) {
    t.customer == s.customer && t.args == s.args && (s.status != Opened ==> t == s)
  }

  predicate SameSub(s: RemoteSub, t: RemoteSub) {
    t.customer == s.customer && t.ownCompany == s.ownCompany && (Ended(s.status) ==> t.status == s.status)
  }

  lemma HappensIsLater(o: Outside, h: Happening)
    ensures Later(o, Happens(o, h))
  {}

  lemma LaterTransitive(o: Outside, p: Outside, q: Outside)
    requires Later(o, p) && Later(p, q)
    ensures Later(o, q)
  {
    var a, b, c := o.remote, p.remote, q.remote;
    forall k | 0 <= k < |a.sessions| ensures SameSession(a.sessions[k], c.sessions[k]) {
      assert SameSession(a.sessions[k], b.sessions[k]) && SameSession(b.sessions[k], c.sessions[k]);
    }
    forall k | |a.sessions| <= k < |c.sessions| && c.sessions[k].args.Some?
      ensures o.now < c.sessions[k].args.value.expiresAt {
      if k < |b.sessions| { assert SameSession(b.sessions[k], c.sessions[k]); }
    }
    forall j | 0 <= j < |a.subs| ensures SameSub(a.subs[j], c.subs[j]) {
      assert SameSub(a.subs[j], b.subs[j]) && SameSub(b.subs[j], c.subs[j]);
    }
  }

  lemma {:induction false} ElapseIsLater(o: Outside, hs: seq<Happening>)
    ensures Later(o, Elapse(o, hs))
  {
    hide Happens, Later;
    if hs == [] {
      assert Later(o, o) by { SameIsLater(o); }
    } else {
      var p := Elapse(o, hs[..|hs| - 1]);
      ElapseIsLater(o, hs[..|hs| - 1]);
      HappensIsLater(p, hs[|hs| - 1]);
      LaterTransitive(o, p, Happens(p, hs[|hs| - 1]));
    }
  }

  lemma SameIsLater(o: Outside)
    ensures Later(o, o)
  {}

  ghost predicate InvAt(l: Local, o: Outside, lost: set<nat>) { Inv(l, o.remote, o.now, lost) }

  lemma HappensKeeps(lost: set<nat>, l: Local, o: Outside, h: Happening)
    requires InvAt(l, o, lost)
    ensures InvAt(l, Happens(o, h), lost)
  {
    hide Inv, Create, CreateCustomer;
    var r, now := o.remote, o.now;
    match h
    case Tick(seconds) => TimePasses(lost, l, r, now, now + seconds);
    case CustomerPays(k, sub) =>
      if MayPay(r, k, sub) {
        if r.sessions[k].customer == Ours {
          PayKeeps(lost, l, r, now, k, sub);
        } else {
          ForeignPayKeeps(lost, l, r, now, k, sub);
        }
      }
    case SessionLapses(k) => if k < |r.sessions| && r.sessions[k].status == Opened { LapseKeeps(lost, l, r, now, k); }
    case SubChanges(j, value) =>
      if j < |r.subs| && MayChange(r.subs[j], value) { ChangeKeeps(lost, l, r, now, j, value); }
    case LateCreation(args) => if args in r.requests { CreateKeeps(lost, l, r, now, args); }
    case LateCustomer(args) => if args in r.customerRequests { LateCustomerKeeps(lost, l, r, now, args); }
    case ForeignSession(s) =>
      if s.customer != Ours && s.args.None? && s.sub.None? { ForeignSessionKeeps(lost, l, r, now, s); }
    case ForeignSub(s) => if s.customer != Ours { ForeignSubKeeps(lost, l, r, now, s); }
  }

  lemma LateCustomerKeeps(lost: set<nat>, l: Local, r: Remote, now: Time, a: CustomerArgs)
    requires Inv(l, r, now, lost) && a in r.customerRequests
    ensures Inv(l, CreateCustomer(r, a), now, lost)
  {
    hide Inv;
    InvCustomers(lost, l, r, now);
    CustomersChange(lost, l, r, now, CreateCustomer(r, a));
  }

  lemma {:induction false} ElapseKeeps(lost: set<nat>, l: Local, o: Outside, hs: seq<Happening>)
    requires InvAt(l, o, lost)
    ensures InvAt(l, Elapse(o, hs), lost)
  {
    hide Happens, InvAt;
    if hs != [] {
      ElapseKeeps(lost, l, o, hs[..|hs| - 1]);
      HappensKeeps(lost, l, Elapse(o, hs[..|hs| - 1]), hs[|hs| - 1]);
    }
  }

  // ---- the gaps of a transaction ----

  lemma GapsAreLater(o: Outside, g: Gaps)
    ensures Later(o, First(o, g)) && Later(First(o, g), Second(o, g)) && Later(First(o, g), Last(o, g))
    ensures Later(Second(o, g), Last(o, g)) && Later(Third(o, g), Last(o, g)) && Later(o, Last(o, g))
  {
    hide Later, Elapse;
    ElapseIsLater(o, g.before);
    ElapseIsLater(First(o, g), g.second);
    ElapseIsLater(Second(o, g), g.third);
    ElapseIsLater(Third(o, g), g.last);
    LaterTransitive(Second(o, g), Third(o, g), Last(o, g));
    LaterTransitive(First(o, g), Second(o, g), Last(o, g));
    LaterTransitive(o, First(o, g), Last(o, g));
  }

  lemma GapsKeep(lost: set<nat>, l: Local, o: Outside, g: Gaps)
    requires InvAt(l, o, lost)
    ensures InvAt(l, First(o, g), lost) && InvAt(l, Second(o, g), lost) && InvAt(l, Third(o, g), lost)
            && InvAt(l, Last(o, g), lost)
  {
    hide InvAt, Elapse;
    ElapseKeeps(lost, l, o, g.before);
    ElapseKeeps(lost, l, First(o, g), g.second);
    ElapseKeeps(lost, l, Second(o, g), g.third);
    ElapseKeeps(lost, l, Third(o, g), g.last);
  }

  /** From the first call on: rows changed at the first call keep the invariant to the end. */
  lemma GapsKeepFromFirst(lost: set<nat>, l: Local, o: Outside, g: Gaps)
    requires InvAt(l, First(o, g), lost)
    ensures InvAt(l, Second(o, g), lost) && InvAt(l, Third(o, g), lost) && InvAt(l, Last(o, g), lost)
  {
    hide InvAt, Elapse;
    ElapseKeeps(lost, l, First(o, g), g.second);
    ElapseKeeps(lost, l, Second(o, g), g.third);
    ElapseKeeps(lost, l, Third(o, g), g.last);
  }

  // ---- short happenings ----

  lemma ElapseOne(o: Outside, h: Happening)
    ensures Elapse(o, [h]) == Happens(o, h)
  {
    assert [h][..0] == [];
  }

  lemma LastAfter(o: Outside, hs: seq<Happening>, end: Time)
    requires Elapse(o, hs).now == o.now <= end
    ensures Last(o, Gaps(hs, [], [], [Tick(end - o.now)])) == Outside(Elapse(o, hs).remote, end)
  {
    ElapseOne(Elapse(o, hs), Tick(end - o.now));
  }

  lemma ElapseTwo(o: Outside, h: Happening, k: Happening)
    ensures Elapse(o, [h, k]) == Happens(Happens(o, h), k)
  {
    assert [h, k][..1] == [h];
    ElapseOne(o, h);
  }
}
