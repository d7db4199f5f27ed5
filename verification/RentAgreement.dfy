/**
 The last agreement when calls overlap. In runs in which authorize overlaps no other call, no
 running subscription is charged above the last amount the member agreed to, nor has such a rent
 on its row or in a call under way, if and only if every accepted rise covers what it finds: the
 charge, the row and the calls under way. Responses that accept alone only have to cover the
 charge and the row.
 */
module RentAgreement {
  import opened Prelude
  import opened RentConsent
  import opened RentConsentSafety
  import opened RentConsentTheorems
  import opened RentOverlap

  /** The amount a call means to charge s, or to write on the row for it; nothing is 0. */
  function Means(q: Call, s: nat): nat {
    match q
    case WriteCard(cents, read) => if read.sub == Some(s) && cents <= Paying(read) then cents else 0
    case NewPrice(cents, t, _) => if t == s then cents else 0
    case SwitchPrice(_, cents, t, _) => if t == s then cents else 0
    case WriteRent(cents, _, _, sub) => if sub == Some(s) then cents else 0
    case AcceptedPrice(cents, t) => if t == s then cents else 0
    case AcceptedSwitch(_, cents, t) => if t == s then cents else 0
    case WriteAccepted(cents, _, sub) => if sub == Some(s) then cents else 0
    case _ => 0
  }

  /** The charge of s and the rent on its row are within the last agreement. */
  predicate SubPledged(c: Core, s: nat) {
    StillRuns(c, s) ==>
      && c.subs[s].price < |c.prices| && Charge(c, s) <= c.subs[s].last
      && (c.link.sub == Some(s) ==> Paying(c.link) <= c.subs[s].last)
  }

  predicate CallPledged(c: Core, q: Call, s: nat) {
    StillRuns(c, s) ==> Means(q, s) <= c.subs[s].last
  }

  /** Nothing charged, on the row or under way is above the last agreement. */
  ghost predicate Pledged(w: World) {
    && (forall s: nat :: SubPledged(w.c, s))
    && (forall p, s: nat :: p in w.calls ==> CallPledged(w.c, w.calls[p], s))
  }

  /** The call is the step that accepts a rise for the running subscription s. */
  predicate Accepts(c: Core, q: Call, s: nat) {
    && q.ClaimProposal? && q.accept && q.sub == Some(s)
    && c.link.pending == Some(q.proposal) && StillRuns(c, s)
  }

  predicate CoversSub(c: Core, q: Call, s: nat) {
    Accepts(c, q, s) ==>
      && c.subs[s].price < |c.prices| && Charge(c, s) <= q.proposal.cents
      && (c.link.sub == Some(s) ==> Paying(c.link) <= q.proposal.cents)
  }

  predicate CoversCall(c: Core, q: Call, r: Call, s: nat) {
    Accepts(c, q, s) ==> Means(r, s) <= q.proposal.cents
  }

  /** An accepted rise is no less than the charge, the rent on the row and what other calls mean to charge. */
  ghost predicate Covers(w: World, p: nat)
    requires p in w.calls
  {
    && (forall s: nat :: CoversSub(w.c, w.calls[p], s))
    && (forall r, s: nat :: r in w.calls && r != p ==> CoversCall(w.c, w.calls[p], w.calls[r], s))
  }

  // ---- a key on offer gives the subscription it was made for ----

  /** The row offers a new authorization the key of s. */
  predicate Offered(c: Core, s: nat) {
    c.link.status == Awaiting && c.link.price.Some? && c.link.price.value in c.keys && c.keys[c.link.price.value] == s
  }

  predicate RowFresh(c: Core, s: nat) {
    Offered(c, s) && StillRuns(c, s) ==> c.subs[s].price == c.link.price.value
  }

  predicate CallFresh(c: Core, q: Call) {
    match q
    case WriteCard(_, read) => read.sub.Some? ==> !Offered(c, read.sub.value)
    case NewPrice(_, s, _) => !Offered(c, s)
    case SwitchPrice(price, _, s, _) => price !in c.keys && !Offered(c, s)
    case WriteRent(_, p, status, _) => p.Some? ==> p.value !in c.keys && status != Awaiting
    case ClaimProposal(_, sub, _) => sub.Some? ==> !Offered(c, sub.value)
    case AcceptedPrice(_, s) => !Offered(c, s)
    case AcceptedSwitch(price, _, s) => price !in c.keys && !Offered(c, s)
    case WriteAccepted(_, p, _) => p.Some? ==> p.value !in c.keys
    case SavePrice(price, _) => price !in c.keys
    case CreateSub(price, _) =>
      price in c.keys && StillRuns(c, c.keys[price]) ==> c.subs[c.keys[price]].price == price
    case BindSub(s, _, _) => StillRuns(c, s) ==> Paying(c.link) <= c.subs[s].last
    case _ => true
  }

  ghost predicate Fresh(w: World) {
    && Consented(w)
    && (forall s: nat :: RowFresh(w.c, s))
    && (forall p :: p in w.calls ==> CallFresh(w.c, w.calls[p]))
  }

  lemma RentKeepsRowFresh(c: Core, q: Call, reply: Reply, s: nat)
    requires RentSide(q) && CallFresh(c, q) && CanGo(c, q) && RowFresh(c, s)
    ensures RowFresh(Go(c, q, reply).0, s)
  {
  }

  /** A setRent or a response offers no key. */
  lemma RentOffersNothing(c: Core, q: Call, reply: Reply, s: nat)
    requires RentSide(q) && CallFresh(c, q) && CanGo(c, q)
    ensures var d := Go(c, q, reply).0; d.keys == c.keys && (Offered(d, s) ==> Offered(c, s))
  {
  }

  lemma RentKeepsOwnFresh(c: Core, q: Call, reply: Reply)
    requires RentSide(q) && CallAgrees(c, q) && CallFresh(c, q) && CanGo(c, q) && KeyOk(c, |c.prices|)
    ensures var (d, left) := Go(c, q, reply); left.Some? ==> CallFresh(d, left.value)
  {
  }

  lemma OtherStaysFresh(c: Core, d: Core, q: Call)
    requires RentSide(q) && CallFresh(c, q) && d.keys == c.keys && forall s: nat :: Offered(d, s) ==> Offered(c, s)
    ensures CallFresh(d, q)
  {
  }

  lemma AuthorizeKeepsRowFresh(c: Core, q: Call, reply: Reply, s: nat)
    requires !RentSide(q) && CallAgrees(c, q) && CallFresh(c, q) && CanGo(c, q) && RowFresh(c, s)
    requires q.CreateSub? ==> KeyOk(c, q.price)
    requires c.link.price.Some? ==> KeyOk(c, c.link.price.value)
    ensures RowFresh(Go(c, q, reply).0, s)
  {
  }

  lemma AuthorizeKeepsOwnFresh(c: Core, q: Call, reply: Reply)
    requires !RentSide(q) && CallAgrees(c, q) && CallFresh(c, q) && CanGo(c, q) && KeyOk(c, |c.prices|)
    requires q.CreateSub? ==> KeyOk(c, q.price)
    ensures var (d, left) := Go(c, q, reply); left.Some? ==> CallFresh(d, left.value)
  {
  }

  lemma PlanIsFresh(c: Core, r: Request)
    requires RowAgrees(c) && Plan(c, r).Some? && forall s: nat :: RowFresh(c, s)
    ensures CallFresh(c, Plan(c, r).value)
  {
    if c.link.price.Some? && c.link.price.value in c.keys { assert RowFresh(c, c.keys[c.link.price.value]); }
  }

  lemma EventKeepsFresh(c: Core, e: Event, q: Call, s: nat)
    requires CanHappen(c, e) && CallFresh(c, q) && RowFresh(c, s)
    ensures RowFresh(Happens(c, e), s) && CallFresh(Happens(c, e), q)
  {
  }

  lemma RentActKeepsFresh(w: World, p: nat, reply: Reply)
    requires Fresh(w) && Enabled(w, Act(p, reply)) && RentSide(w.calls[p])
    ensures Fresh(Next(w, Act(p, reply)))
  {
    var q := w.calls[p];
    var v := Next(w, Act(p, reply));
    ActKeepsConsented(w, p, reply);
    assert KeyOk(w.c, |w.c.prices|);
    RentKeepsOwnFresh(w.c, q, reply);
    forall s: nat ensures RowFresh(v.c, s) && v.c.keys == w.c.keys && (Offered(v.c, s) ==> Offered(w.c, s)) {
      assert RowFresh(w.c, s);
      RentKeepsRowFresh(w.c, q, reply, s);
      RentOffersNothing(w.c, q, reply, s);
    }
    forall r | r in v.calls ensures CallFresh(v.c, v.calls[r]) {
      if r != p {
        assert RentSide(w.calls[r]) && CallFresh(w.c, w.calls[r]);
        OtherStaysFresh(w.c, v.c, w.calls[r]);
      }
    }
  }

  lemma AuthorizeActKeepsFresh(w: World, p: nat, reply: Reply)
    requires Fresh(w) && Enabled(w, Act(p, reply)) && !RentSide(w.calls[p])
    ensures Fresh(Next(w, Act(p, reply)))
  {
    var q := w.calls[p];
    var v := Next(w, Act(p, reply));
    ActKeepsConsented(w, p, reply);
    assert KeyOk(w.c, |w.c.prices|) && (q.CreateSub? ==> KeyOk(w.c, q.price));
    assert w.c.link.price.Some? ==> KeyOk(w.c, w.c.link.price.value);
    AuthorizeKeepsOwnFresh(w.c, q, reply);
    forall s: nat ensures RowFresh(v.c, s) {
      assert RowFresh(w.c, s);
      AuthorizeKeepsRowFresh(w.c, q, reply, s);
    }
  }

  /** authorize begins alone and nothing begins beside it. */
  ghost predicate Allowed(w: World, s: Step) {
    s.Begin? ==> if s.r.Authorize? then w.calls == map[] else NoAuthorize(w)
  }

  lemma StepKeepsFresh(w: World, s: Step)
    requires Fresh(w) && Enabled(w, s) && Allowed(w, s)
    ensures Fresh(Next(w, s))
  {
    match s
    case Begin(_, r) => StepKeepsConsented(w, s); PlanIsFresh(w.c, r);
    case Act(p, reply) =>
      if RentSide(w.calls[p]) { RentActKeepsFresh(w, p, reply); } else { AuthorizeActKeepsFresh(w, p, reply); }
    case Crash(_) => StepKeepsConsented(w, s);
    case Outside(e) =>
      StepKeepsConsented(w, s);
      var d := Happens(w.c, e);
      forall t: nat ensures RowFresh(d, t) { assert RowFresh(w.c, t); EventKeepsFresh(w.c, e, ForgetPrice, t); }
      forall r | r in w.calls ensures CallFresh(d, w.calls[r]) {
        assert RowFresh(w.c, 0);
        EventKeepsFresh(w.c, e, w.calls[r], 0);
      }
  }

  // ---- exactly which steps keep the last agreement ----

  lemma RentKeepsSubPledged(c: Core, q: Call, reply: Reply, s: nat)
    requires RentSide(q) && CallAgrees(c, q) && CanGo(c, q) && SubPledged(c, s) && CallPledged(c, q, s)
    ensures SubPledged(Go(c, q, reply).0, s) <==> CoversSub(c, q, s)
  {
  }

  lemma RentKeepsOwnPledged(c: Core, q: Call, reply: Reply, s: nat)
    requires RentSide(q) && CanGo(c, q) && CallPledged(c, q, s)
    ensures var (d, left) := Go(c, q, reply); left.Some? ==> CallPledged(d, left.value, s)
  {
  }

  /** Another call's amount is still within the agreement exactly when the step covers it. */
  lemma OtherStaysPledged(c: Core, q: Call, reply: Reply, r: Call, s: nat)
    requires RentSide(q) && CanGo(c, q) && CallPledged(c, r, s)
    ensures CallPledged(Go(c, q, reply).0, r, s) <==> CoversCall(c, q, r, s)
  {
  }

  lemma AuthorizeKeepsPledged(c: Core, q: Call, reply: Reply, s: nat)
    requires !RentSide(q) && CallAgrees(c, q) && CallFresh(c, q) && CanGo(c, q) && SubPledged(c, s)
    requires q.CreateSub? ==> KeyOk(c, q.price)
    ensures var (d, left) := Go(c, q, reply); SubPledged(d, s) && (left.Some? ==> Means(left.value, s) == 0)
  {
  }

  lemma PlanIsPledged(c: Core, r: Request, s: nat)
    requires SubPledged(c, s) && Plan(c, r).Some?
    ensures CallPledged(c, Plan(c, r).value, s)
  {
  }

  lemma EventKeepsPledged(c: Core, e: Event, q: Call, s: nat)
    requires CanHappen(c, e) && SubPledged(c, s) && CallPledged(c, q, s)
    ensures SubPledged(Happens(c, e), s) && CallPledged(Happens(c, e), q, s)
  {
  }

  lemma RentActPledged(w: World, p: nat, reply: Reply)
    requires Fresh(w) && Pledged(w) && Enabled(w, Act(p, reply)) && RentSide(w.calls[p])
    ensures Pledged(Next(w, Act(p, reply))) <==> Covers(w, p)
  {
    var q := w.calls[p];
    var v := Next(w, Act(p, reply));
    forall s: nat ensures SubPledged(v.c, s) <==> CoversSub(w.c, q, s) {
      assert SubPledged(w.c, s) && CallPledged(w.c, q, s);
      RentKeepsSubPledged(w.c, q, reply, s);
    }
    forall s: nat ensures p in v.calls ==> CallPledged(v.c, v.calls[p], s) {
      assert CallPledged(w.c, q, s);
      RentKeepsOwnPledged(w.c, q, reply, s);
    }
    forall r, s: nat | r in w.calls && r != p
      ensures r in v.calls && (CallPledged(v.c, v.calls[r], s) <==> CoversCall(w.c, q, w.calls[r], s))
    {
      assert CallPledged(w.c, w.calls[r], s);
      OtherStaysPledged(w.c, q, reply, w.calls[r], s);
    }
  }

  lemma AuthorizeActPledged(w: World, p: nat, reply: Reply)
    requires Fresh(w) && Pledged(w) && Enabled(w, Act(p, reply)) && !RentSide(w.calls[p])
    ensures Pledged(Next(w, Act(p, reply))) && Covers(w, p)
  {
    var q := w.calls[p];
    var v := Next(w, Act(p, reply));
    assert q.CreateSub? ==> KeyOk(w.c, q.price);
    forall s: nat ensures SubPledged(v.c, s) && (p in v.calls ==> Means(v.calls[p], s) == 0) {
      assert SubPledged(w.c, s);
      AuthorizeKeepsPledged(w.c, q, reply, s);
    }
  }

  /** The step accepts no rise that does not cover what it finds. */
  ghost predicate Covered(w: World, s: Step)
    requires Enabled(w, s)
  {
    s.Act? ==> Covers(w, s.p)
  }

  lemma StepPledged(w: World, s: Step)
    requires Fresh(w) && Pledged(w) && Enabled(w, s)
    ensures Pledged(Next(w, s)) <==> Covered(w, s)
  {
    var v := Next(w, s);
    match s
    case Begin(p, r) =>
      forall t: nat ensures CallPledged(v.c, v.calls[p], t) { assert SubPledged(w.c, t); PlanIsPledged(w.c, r, t); }
      assert forall t: nat :: SubPledged(w.c, t) ==> SubPledged(v.c, t);
    case Act(p, reply) => if RentSide(w.calls[p]) { RentActPledged(w, p, reply); } else { AuthorizeActPledged(w, p, reply); }
    case Crash(_) => assert forall t: nat :: SubPledged(w.c, t) ==> SubPledged(v.c, t);
    case Outside(e) =>
      forall t: nat ensures SubPledged(v.c, t) { assert SubPledged(w.c, t); EventKeepsPledged(w.c, e, ForgetPrice, t); }
      forall r, t: nat | r in w.calls ensures CallPledged(v.c, v.calls[r], t) {
        assert SubPledged(w.c, t) && CallPledged(w.c, w.calls[r], t);
        EventKeepsPledged(w.c, e, w.calls[r], t);
      }
  }

  // ---- every run in which authorize overlaps no other call ----

  ghost predicate PledgedThroughout(w: World, run: seq<Step>)
    requires Legal(w, run)
    decreases |run|
  {
    Pledged(w) && (run == [] || PledgedThroughout(Next(w, run[0]), run[1..]))
  }

  ghost predicate CoveredThroughout(w: World, run: seq<Step>)
    requires Legal(w, run)
    decreases |run|
  {
    run == [] || (Covered(w, run[0]) && CoveredThroughout(Next(w, run[0]), run[1..]))
  }

  lemma {:induction false} PledgedExactly(w: World, run: seq<Step>)
    requires Fresh(w) && Pledged(w) && Legal(w, run) && AuthorizeAlone(w, run)
    ensures PledgedThroughout(w, run) <==> CoveredThroughout(w, run)
    decreases |run|
  {
    if run != [] {
      StepPledged(w, run[0]);
      StepKeepsFresh(w, run[0]);
      if Covered(w, run[0]) { PledgedExactly(Next(w, run[0]), run[1..]); }
    }
  }

  /**
   The last agreement, exactly: however setRents and responses overlap and wherever calls die, in
   no state anything charged, on the row or under way is above the last amount the member agreed
   to, if and only if every accepted rise covers the charge, the row and the calls it finds.
   */
  lemma LastAgreementExactly(run: seq<Step>)
    requires Legal(START, run) && AuthorizeAlone(START, run)
    ensures PledgedThroughout(START, run) <==> CoveredThroughout(START, run)
  {
    assert Fresh(START) && Pledged(START);
    PledgedExactly(START, run);
  }

  lemma {:induction false} PledgedAtTheEnd(w: World, run: seq<Step>)
    requires Legal(w, run) && PledgedThroughout(w, run)
    ensures Pledged(After(w, run))
    decreases |run|
  {
    if run != [] { PledgedAtTheEnd(Next(w, run[0]), run[1..]); }
  }

  // ---- responses that accept overlap nothing either ----

  /** authorize and accepting responses begin alone and nothing begins beside them; setRents overlap as they like. */
  ghost predicate AcceptsAlone(w: World, run: seq<Step>)
    requires Legal(w, run)
    decreases |run|
  {
    run == [] ||
    (&& (run[0].Begin? ==>
           if run[0].r.Authorize? || run[0].r == Respond(true) then w.calls == map[]
           else NoAuthorize(w) && NothingAccepted(w))
     && AcceptsAlone(Next(w, run[0]), run[1..]))
  }

  /** Every accepted rise is at least the charge and the rent on the row, as they are when it is claimed. */
  ghost predicate RisesCover(w: World, run: seq<Step>)
    requires Legal(w, run)
    decreases |run|
  {
    run == [] ||
    (&& (run[0].Act? ==> forall s: nat :: CoversSub(w.c, w.calls[run[0].p], s))
     && RisesCover(Next(w, run[0]), run[1..]))
  }

  /** A call that accepts a rise is the only one. */
  ghost predicate AcceptAlone(w: World) {
    forall p, q :: p in w.calls && q in w.calls && Accepting(w.calls[p]) ==> p == q
  }

  lemma StepKeepsAcceptAlone(w: World, s: Step)
    requires AcceptAlone(w) && Enabled(w, s)
    requires s.Begin? ==> if s.r == Respond(true) then w.calls == map[] else NothingAccepted(w)
    ensures AcceptAlone(Next(w, s))
  {
    if s.Act? {
      var left := Go(w.c, w.calls[s.p], s.reply).1;
      assert left.Some? && Accepting(left.value) ==> Accepting(w.calls[s.p]);
    }
  }

  lemma {:induction false} AloneCovers(w: World, run: seq<Step>)
    requires AcceptAlone(w) && Legal(w, run) && AcceptsAlone(w, run)
    ensures AuthorizeAlone(w, run) && (CoveredThroughout(w, run) <==> RisesCover(w, run))
    decreases |run|
  {
    if run != [] {
      StepKeepsAcceptAlone(w, run[0]);
      AloneCovers(Next(w, run[0]), run[1..]);
      if run[0].Act? && Accepting(w.calls[run[0].p]) {
        assert forall r :: r in w.calls ==> r == run[0].p;
      }
    }
  }

  /** Then the last agreement holds in every state exactly when every rise covers the charge and the row. */
  lemma LastAgreementWithAcceptsAlone(run: seq<Step>)
    requires Legal(START, run) && AcceptsAlone(START, run)
    ensures PledgedThroughout(START, run) <==> RisesCover(START, run)
  {
    AloneCovers(START, run);
    LastAgreementExactly(run);
  }

  /**
   With authorize and accepting responses overlapping no other call, setRents overlapping each
   other and calls dying anywhere: no running subscription charges more than the member last
   agreed to, as long as every rise is accepted at no less than the charge and the row.
   */
  lemma NoChargeAboveTheLastAgreement(run: seq<Step>, s: nat)
    requires Legal(START, run) && AcceptsAlone(START, run) && RisesCover(START, run)
    requires StillRuns(After(START, run).c, s)
    ensures var c := After(START, run).c; c.subs[s].price < |c.prices| && Charge(c, s) <= c.subs[s].last
  {
    LastAgreementWithAcceptsAlone(run);
    PledgedAtTheEnd(START, run);
    assert SubPledged(After(START, run).c, s);
  }
}
