/**
 Consent when calls overlap. Over every run whatsoever, no charge passes the most the member
 agreed to unless some step overreaches: it writes a rent above that onto the row of a running
 charge, or binds a charge to a row whose rent is above it. Runs in which authorize overlaps no
 other call take no such step, however setRent and the responses overlap each other.
 */
module RentOverlap {
  import opened Prelude
  import opened RentConsent
  import opened RentConsentSafety
  import opened RentConsentTheorems

  predicate BoundTo(c: Core, s: nat) {
    c.link.sub == Some(s) && StillRuns(c, s)
  }

  /** What the step would leave on the row is more than the member agreed to for the charge bound to it. */
  predicate Overreaches(c: Core, q: Call) {
    match q
    case WriteRent(cents, _, _, _) =>
      c.link.sub.Some? && StillRuns(c, c.link.sub.value) && cents > c.subs[c.link.sub.value].top
    case WriteAccepted(cents, _, _) =>
      c.link.sub.Some? && StillRuns(c, c.link.sub.value) && cents > c.subs[c.link.sub.value].top
    case WriteGoal(goal) =>
      c.link.sub.Some? && StillRuns(c, c.link.sub.value) && goal.ToManual? && goal.cents > c.subs[c.link.sub.value].top
    case BindSub(s, _, _) => StillRuns(c, s) && Paying(c.link) > c.subs[s].top
    case _ => false
  }

  /** No step of the run overreaches. */
  predicate Restrained(w: World, run: seq<Step>)
    requires Legal(w, run)
    decreases |run|
  {
    run == [] || ((run[0].Act? ==> !Overreaches(w.c, w.calls[run[0].p])) && Restrained(Next(w, run[0]), run[1..]))
  }

  // ---- every run ----

  /** The rent on the row is within the agreement of the running charge bound to it. */
  predicate RowWithin(c: Core) {
    && (c.link.sub.Some? ==> c.link.sub.value < |c.subs|)
    && (c.link.price.Some? ==> c.link.price.value < |c.prices|)
    && (c.link.sub.Some? && StillRuns(c, c.link.sub.value) ==> Paying(c.link) <= c.subs[c.link.sub.value].top)
  }

  predicate SubWithin(c: Core, s: nat) {
    s < |c.subs| ==> c.subs[s].price < |c.prices| && c.prices[c.subs[s].price] <= c.subs[s].top
  }

  /** A price a call means to charge on s. */
  predicate Fair(c: Core, s: nat, cents: nat) {
    s < |c.subs| && (StillRuns(c, s) ==> cents <= c.subs[s].top)
  }

  predicate CallWithin(c: Core, q: Call) {
    match q
    case WriteCard(_, read) => read.sub.Some? ==> Fair(c, read.sub.value, Paying(read))
    case NewPrice(cents, s, _) => Fair(c, s, cents)
    case SwitchPrice(price, _, s, _) => price < |c.prices| && Fair(c, s, c.prices[price])
    case WriteRent(_, p, _, _) => p.Some? ==> p.value < |c.prices|
    case ClaimProposal(_, sub, _) => sub.Some? ==> sub.value < |c.subs|
    case AcceptedPrice(cents, s) => Fair(c, s, cents)
    case AcceptedSwitch(price, _, s) => price < |c.prices| && Fair(c, s, c.prices[price])
    case WriteAccepted(_, p, _) => p.Some? ==> p.value < |c.prices|
    case SavePrice(price, _) => price < |c.prices|
    case CreateSub(price, _) => price < |c.prices|
    case BindSub(s, _, _) => s < |c.subs|
    case _ => true
  }

  /** What only grows: prices, subscriptions, the most agreed to; an ended charge stays ended. */
  ghost predicate Grows(c: Core, d: Core) {
    && |c.prices| <= |d.prices| && (forall p :: 0 <= p < |c.prices| ==> d.prices[p] == c.prices[p])
    && |c.subs| <= |d.subs|
    && (forall s :: 0 <= s < |c.subs| ==>
          c.subs[s].top <= d.subs[s].top && (c.subs[s].status == Ended ==> d.subs[s].status == Ended))
  }

  ghost predicate AllWithin(c: Core) {
    RowWithin(c) && (forall s: nat :: SubWithin(c, s)) && (forall p: nat :: KeyOk(c, p))
  }

  lemma GoGrows(c: Core, q: Call, reply: Reply)
    requires CanGo(c, q)
    ensures Grows(c, Go(c, q, reply).0)
  {
  }

  lemma GrowthKeepsCall(c: Core, d: Core, q: Call)
    requires Grows(c, d) && CallWithin(c, q)
    ensures CallWithin(d, q)
  {
  }

  lemma GoKeepsRowWithin(c: Core, q: Call, reply: Reply)
    requires RowWithin(c) && CallWithin(c, q) && CanGo(c, q) && !Overreaches(c, q)
    requires q.CreateSub? ==> KeyOk(c, q.price)
    ensures RowWithin(Go(c, q, reply).0)
  {
  }

  lemma GoKeepsSubWithin(c: Core, q: Call, reply: Reply, s: nat)
    requires CallWithin(c, q) && CanGo(c, q) && SubWithin(c, s)
    requires q.CreateSub? ==> KeyOk(c, q.price)
    ensures SubWithin(Go(c, q, reply).0, s)
  {
  }

  lemma GoKeepsKeyOk(c: Core, q: Call, reply: Reply, p: nat)
    requires CallWithin(c, q) && CanGo(c, q) && KeyOk(c, p)
    ensures KeyOk(Go(c, q, reply).0, p)
  {
  }

  lemma GoKeepsCallWithin(c: Core, q: Call, reply: Reply)
    requires RowWithin(c) && CallWithin(c, q) && CanGo(c, q)
    requires q.CreateSub? ==> KeyOk(c, q.price)
    ensures var (d, left) := Go(c, q, reply); left.Some? ==> CallWithin(d, left.value)
  {
  }

  lemma PlanIsWithin(c: Core, r: Request)
    requires RowWithin(c) && Plan(c, r).Some?
    ensures CallWithin(c, Plan(c, r).value)
  {
    if r.Authorize? { AuthorizeIsWithin(c); }
  }

  lemma AuthorizeIsWithin(c: Core)
    requires RowWithin(c) && AuthorizePlan(c).Some?
    ensures CallWithin(c, AuthorizePlan(c).value)
  {
  }

  lemma EventKeepsWithin(c: Core, e: Event)
    requires AllWithin(c) && CanHappen(c, e)
    ensures AllWithin(Happens(c, e)) && Grows(c, Happens(c, e))
  {
    var d := Happens(c, e);
    forall s: nat ensures SubWithin(d, s) { assert SubWithin(c, s); }
    forall p: nat ensures KeyOk(d, p) { assert KeyOk(c, p); }
  }

  ghost predicate Sound(w: World) {
    AllWithin(w.c) && forall p :: p in w.calls ==> CallWithin(w.c, w.calls[p])
  }

  lemma ActKeepsSound(w: World, p: nat, reply: Reply)
    requires Sound(w) && Enabled(w, Act(p, reply)) && !Overreaches(w.c, w.calls[p])
    ensures Sound(Next(w, Act(p, reply)))
  {
    var q := w.calls[p];
    var v := Next(w, Act(p, reply));
    assert q.CreateSub? ==> KeyOk(w.c, q.price);
    GoGrows(w.c, q, reply);
    GoKeepsRowWithin(w.c, q, reply);
    GoKeepsCallWithin(w.c, q, reply);
    forall s: nat ensures SubWithin(v.c, s) { assert SubWithin(w.c, s); GoKeepsSubWithin(w.c, q, reply, s); }
    forall k: nat ensures KeyOk(v.c, k) { assert KeyOk(w.c, k); GoKeepsKeyOk(w.c, q, reply, k); }
    forall r | r in v.calls ensures CallWithin(v.c, v.calls[r]) {
      if r != p { GrowthKeepsCall(w.c, v.c, w.calls[r]); }
    }
  }

  lemma StepKeepsSound(w: World, s: Step)
    requires Sound(w) && Enabled(w, s) && (s.Act? ==> !Overreaches(w.c, w.calls[s.p]))
    ensures Sound(Next(w, s))
  {
    match s
    case Begin(_, r) => PlanIsWithin(w.c, r);
    case Act(p, reply) => ActKeepsSound(w, p, reply);
    case Crash(_) =>
    case Outside(e) =>
      EventKeepsWithin(w.c, e);
      forall r | r in w.calls ensures CallWithin(Happens(w.c, e), w.calls[r]) {
        GrowthKeepsCall(w.c, Happens(w.c, e), w.calls[r]);
      }
  }

  lemma {:induction false} RestrainedRunsAreSound(w: World, run: seq<Step>)
    requires Sound(w) && Legal(w, run) && Restrained(w, run)
    ensures Sound(After(w, run))
    decreases |run|
  {
    if run != [] {
      StepKeepsSound(w, run[0]);
      RestrainedRunsAreSound(Next(w, run[0]), run[1..]);
    }
  }

  /**
   Consent over every run, with calls overlapping and dying anywhere: as long as no step
   overreaches, no subscription charges more than the member once agreed to for it.
   */
  lemma ConsentUnlessOverreached(run: seq<Step>, s: nat)
    requires Legal(START, run) && Restrained(START, run) && s < |After(START, run).c.subs|
    ensures var c := After(START, run).c; c.subs[s].price < |c.prices| && Charge(c, s) <= c.subs[s].top
  {
    RestrainedRunsAreSound(START, run);
    assert SubWithin(After(START, run).c, s);
  }

  // ---- what a step that overreaches leads to ----

  /** A rent write on the row of a running charge keeps the row within the agreement exactly unless it overreaches. */
  lemma WriteKeepsTheRowWithin(c: Core, q: Call, reply: Reply, s: nat)
    requires BoundTo(c, s) && (q.WriteRent? || q.WriteAccepted?)
    ensures var d := Go(c, q, reply).0; BoundTo(d, s) && (Paying(d.link) <= d.subs[s].top <==> !Overreaches(c, q))
  {
  }

  /** So for a setRent that read the row before the authorization that bound it, against the last agreement. */
  lemma StaleRentIsWithin(c: Core, cents: nat, s: nat, reply: Reply)
    requires BoundTo(c, s)
    ensures var d := Go(c, WriteRent(cents, None, Awaiting, None), reply).0;
      BoundTo(d, s) && (Paying(d.link) <= d.subs[s].last <==> cents <= c.subs[s].last)
  {
  }

  lemma BindKeepsTheRowWithin(c: Core, s: nat, status: RentStatus, again: bool, reply: Reply)
    requires StillRuns(c, s)
    ensures var d := Go(c, BindSub(s, status, again), reply).0;
      BoundTo(d, s) && (Paying(d.link) <= d.subs[s].top <==> !Overreaches(c, BindSub(s, status, again)))
  {
  }

  /** setRent alone, with an amount below the rent on the row of a running charge. */
  function Lowering(p: nat, cents: nat, reply: Reply): seq<Step> {
    [Begin(p, SetRent(Some(cents), None)), Act(p, reply), Act(p, reply), Act(p, reply)]
  }

  lemma LoweringCharges(v: World, p: nat, cents: nat, reply: Reply, s: nat)
    requires v.calls == map[] && BoundTo(v.c, s) && v.c.link.mode == Card
    requires MIN_RENT <= cents <= MAX_RENT && cents < Paying(v.c.link)
    ensures Legal(v, Lowering(p, cents, reply))
    ensures var u := After(v, Lowering(p, cents, reply));
      && u.calls == map[] && BoundTo(u.c, s) && u.c.subs[s].top == v.c.subs[s].top
      && u.c.subs[s].price < |u.c.prices| && Charge(u.c, s) == cents
  {
    var run := Lowering(p, cents, reply);
    var v1 := Next(v, run[0]);
    assert v1.calls == map[p := NewPrice(cents, s, v.c.link.status)];
    var v2 := Next(v1, run[1]);
    assert v2.calls == map[p := SwitchPrice(|v.c.prices|, cents, s, v.c.link.status)];
    var v3 := Next(v2, run[2]);
    assert v3.calls == map[p := WriteRent(cents, Some(|v.c.prices|), v.c.link.status, Some(s))];
    var u := Next(v3, run[3]);
    assert u.calls == map[];
    assert run[1..][0] == run[1] && run[1..][1..][0] == run[2] && run[1..][1..][1..][0] == run[3];
    assert run[1..][1..][1..][1..] == [];
    assert Legal(u, []) && After(u, []) == u;
    assert Legal(v3, run[1..][1..][1..]) && After(v3, run[1..][1..][1..]) == u;
    assert Legal(v2, run[1..][1..]) && After(v2, run[1..][1..]) == u;
    assert Legal(v1, run[1..]) && After(v1, run[1..]) == u;
  }

  /**
   The other way round: a step that overreaches, and leaves the rent of a card row by more than
   one above the agreement with no call under way, is followed by a run that charges more than
   the member ever agreed to: a setRent alone, with any amount strictly between.
   */
  lemma OverreachRaisesTheCharge(w: World, p: nat, reply: Reply, s: nat, cents: nat)
    requires Enabled(w, Act(p, reply)) && Overreaches(w.c, w.calls[p])
    requires var v := Next(w, Act(p, reply));
      && v.calls == map[] && v.c.link.sub == Some(s) && v.c.link.mode == Card
      && s < |v.c.subs| && v.c.subs[s].top < cents < Paying(v.c.link) && MIN_RENT <= cents <= MAX_RENT
    ensures var v := Next(w, Act(p, reply));
      && Legal(v, Lowering(p, cents, reply))
      && var u := After(v, Lowering(p, cents, reply));
         u.calls == map[] && BoundTo(u.c, s) && u.c.subs[s].price < |u.c.prices| && Charge(u.c, s) > u.c.subs[s].top
  {
    LoweringCharges(Next(w, Act(p, reply)), p, cents, reply, s);
  }

  // ---- runs in which authorize overlaps nothing ----

  predicate RentSide(q: Call) {
    RentCall(q) || ResponseCall(q)
  }

  ghost predicate NoAuthorize(w: World) {
    forall p :: p in w.calls ==> RentSide(w.calls[p])
  }

  /** authorize begins alone and nothing begins beside it; setRent and responses overlap as they like. */
  ghost predicate AuthorizeAlone(w: World, run: seq<Step>)
    requires Legal(w, run)
    decreases |run|
  {
    run == [] ||
    (&& (run[0].Begin? ==> if run[0].r.Authorize? then w.calls == map[] else NoAuthorize(w))
     && AuthorizeAlone(Next(w, run[0]), run[1..]))
  }

  /** The row still has the subscription a call read, or none. */
  predicate NotRebound(c: Core, sub: Option<nat>) {
    (c.link.sub.Some? ==> c.link.sub == sub) && (sub.Some? ==> sub.value < |c.subs|)
  }

  predicate RowAgrees(c: Core) {
    && RowWithin(c)
    && (c.link.price.Some? ==> c.link.amount == Some(c.prices[c.link.price.value]))
    && (c.link.sub.Some? ==> c.link.status != Awaiting)
  }

  predicate CallAgrees(c: Core, q: Call) {
    CallWithin(c, q) &&
    match q
    case CancelCharge(_) => true
    case UnbindCharge(_) => true
    case WriteGoal(_) => c.link.sub.None?
    case WriteCard(_, read) => NotRebound(c, read.sub) && read.status != Awaiting
    case WriteProposal(_) => true
    case NewPrice(cents, s, status) => NotRebound(c, Some(s)) && status != Awaiting
    case SwitchPrice(price, cents, s, status) => NotRebound(c, Some(s)) && c.prices[price] == cents && status != Awaiting
    case WriteRent(cents, p, status, sub) =>
      && NotRebound(c, sub) && (p.Some? ==> c.prices[p.value] == cents)
      && (sub.Some? ==> Fair(c, sub.value, cents) && status != Awaiting)
    case ClaimProposal(_, sub, _) => NotRebound(c, sub)
    case AcceptedPrice(_, s) => NotRebound(c, Some(s))
    case AcceptedSwitch(price, cents, s) => NotRebound(c, Some(s)) && c.prices[price] == cents
    case WriteAccepted(cents, p, sub) =>
      && NotRebound(c, sub) && (p.Some? ==> c.prices[p.value] == cents)
      && (sub.Some? ==> Fair(c, sub.value, cents))
    case FirstPrice(cents, _) => c.link.amount == Some(cents)
    case SavePrice(price, _) => c.link.amount == Some(c.prices[price])
    case CreateSub(price, _) => c.link.amount == Some(c.prices[price])
    case BindSub(s, status, _) => status != Awaiting && (StillRuns(c, s) ==> Paying(c.link) <= c.subs[s].top)
    case ForgetPrice => true
    case ResumeActive => true
  }

  lemma AgreeingIsRestrained(c: Core, q: Call)
    requires CallAgrees(c, q)
    ensures !Overreaches(c, q)
  {
  }

  lemma RentKeepsRowAgrees(c: Core, q: Call, reply: Reply)
    requires RentSide(q) && RowAgrees(c) && CallAgrees(c, q) && CanGo(c, q)
    ensures RowAgrees(Go(c, q, reply).0)
  {
    AgreeingIsRestrained(c, q);
    GoKeepsRowWithin(c, q, reply);
  }

  lemma AuthorizeKeepsRowAgrees(c: Core, q: Call, reply: Reply)
    requires !RentSide(q) && RowAgrees(c) && CallAgrees(c, q) && CanGo(c, q) && (q.CreateSub? ==> KeyOk(c, q.price))
    ensures RowAgrees(Go(c, q, reply).0)
  {
    AgreeingIsRestrained(c, q);
    GoKeepsRowWithin(c, q, reply);
  }

  lemma RentKeepsOwn(c: Core, q: Call, reply: Reply)
    requires RentSide(q) && RowAgrees(c) && CallAgrees(c, q) && CanGo(c, q)
    ensures var (d, left) := Go(c, q, reply); left.Some? ==> CallAgrees(d, left.value) && RentSide(left.value)
  {
    GoKeepsCallWithin(c, q, reply);
  }

  lemma AuthorizeKeepsOwn(c: Core, q: Call, reply: Reply)
    requires !RentSide(q) && RowAgrees(c) && CallAgrees(c, q) && CanGo(c, q) && (q.CreateSub? ==> KeyOk(c, q.price))
    ensures var (d, left) := Go(c, q, reply); left.Some? ==> CallAgrees(d, left.value) && !RentSide(left.value)
  {
    GoKeepsCallWithin(c, q, reply);
  }

  /** A step of a setRent or a response binds nothing. */
  lemma RentBindsNothing(c: Core, q: Call, reply: Reply)
    requires RentSide(q) && CanGo(c, q)
    ensures var d := Go(c, q, reply).0; d.link.sub == c.link.sub || d.link.sub.None?
  {
  }

  /** So what another setRent or response relies on stays. */
  lemma OtherStillAgrees(c: Core, d: Core, q: Call)
    requires RentSide(q) && CallAgrees(c, q) && Grows(c, d) && (d.link.sub == c.link.sub || d.link.sub.None?)
    ensures CallAgrees(d, q)
  {
    GrowthKeepsCall(c, d, q);
  }

  lemma PlanAgrees(c: Core, r: Request)
    requires RowAgrees(c) && Plan(c, r).Some?
    ensures CallAgrees(c, Plan(c, r).value) && (RentSide(Plan(c, r).value) <==> !r.Authorize?)
  {
    PlanIsWithin(c, r);
  }

  lemma EventKeepsAgreement(c: Core, e: Event, q: Call)
    requires CanHappen(c, e) && RowAgrees(c) && CallAgrees(c, q) && Grows(c, Happens(c, e))
    ensures RowAgrees(Happens(c, e)) && CallAgrees(Happens(c, e), q)
  {
    GrowthKeepsCall(c, Happens(c, e), q);
  }

  ghost predicate Consented(w: World) {
    && Sound(w) && RowAgrees(w.c)
    && (forall p :: p in w.calls ==> CallAgrees(w.c, w.calls[p]))
    && (forall p, q :: p in w.calls && q in w.calls && !RentSide(w.calls[p]) ==> p == q)
  }

  lemma ActKeepsConsented(w: World, p: nat, reply: Reply)
    requires Consented(w) && Enabled(w, Act(p, reply))
    ensures Consented(Next(w, Act(p, reply)))
  {
    var q := w.calls[p];
    var v := Next(w, Act(p, reply));
    AgreeingIsRestrained(w.c, q);
    ActKeepsSound(w, p, reply);
    assert q.CreateSub? ==> KeyOk(w.c, q.price);
    GoGrows(w.c, q, reply);
    if RentSide(q) {
      RentKeepsRowAgrees(w.c, q, reply);
      RentKeepsOwn(w.c, q, reply);
      RentBindsNothing(w.c, q, reply);
      forall r | r in v.calls && r != p ensures CallAgrees(v.c, v.calls[r]) {
        assert RentSide(w.calls[r]);
        OtherStillAgrees(w.c, v.c, w.calls[r]);
      }
    } else {
      AuthorizeKeepsRowAgrees(w.c, q, reply);
      AuthorizeKeepsOwn(w.c, q, reply);
    }
  }

  lemma StepKeepsConsented(w: World, s: Step)
    requires Consented(w) && Enabled(w, s)
    requires s.Begin? ==> if s.r.Authorize? then w.calls == map[] else NoAuthorize(w)
    ensures Consented(Next(w, s))
  {
    match s
    case Begin(_, r) => StepKeepsSound(w, s); PlanAgrees(w.c, r);
    case Act(p, reply) => ActKeepsConsented(w, p, reply);
    case Crash(_) => StepKeepsSound(w, s);
    case Outside(e) =>
      StepKeepsSound(w, s);
      EventKeepsWithin(w.c, e);
      EventKeepsAgreement(w.c, e, ForgetPrice);
      forall r | r in w.calls ensures CallAgrees(Happens(w.c, e), w.calls[r]) { EventKeepsAgreement(w.c, e, w.calls[r]); }
  }

  lemma {:induction false} AloneIsRestrained(w: World, run: seq<Step>)
    requires Consented(w) && Legal(w, run) && AuthorizeAlone(w, run)
    ensures Restrained(w, run)
    decreases |run|
  {
    if run != [] {
      if run[0].Act? { AgreeingIsRestrained(w.c, w.calls[run[0].p]); }
      StepKeepsConsented(w, run[0]);
      AloneIsRestrained(Next(w, run[0]), run[1..]);
    }
  }

  /**
   No rise without consent: when authorize overlaps no other call, with any number of setRents and
   responses overlapping each other, webhooks coming anywhere and calls dying anywhere, no
   subscription ever charges more than the member once agreed to for it.
   */
  lemma NoRiseWithoutConsent(run: seq<Step>, s: nat)
    requires Legal(START, run) && AuthorizeAlone(START, run) && s < |After(START, run).c.subs|
    ensures var c := After(START, run).c; c.subs[s].price < |c.prices| && Charge(c, s) <= c.subs[s].top
  {
    assert Consented(START);
    AloneIsRestrained(START, run);
    ConsentUnlessOverreached(run, s);
  }
}
