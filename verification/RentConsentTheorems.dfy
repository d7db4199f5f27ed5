/** Consent and single subscriptions: what holds over every run, and the runs where it does not. */
module RentConsentTheorems {
  import opened Prelude
  import opened RentConsent
  import opened RentConsentSafety

  function Charge(c: Core, s: nat): nat
    requires s < |c.subs| && c.subs[s].price < |c.prices|
  {
    c.prices[c.subs[s].price]
  }

  /**
   The last agreement holds: as long as no call died between a switch at Stripe and its row
   write, no running subscription charges more than the member agreed to last, in every state
   of every run whose calls come one after the other, mid-call included.
   */
  lemma LastAgreementHolds(run: seq<Step>, s: nat)
    requires Legal(START, run) && Serial(START, run) && StillRuns(After(START, run).c, s)
    ensures var w := After(START, run);
      w.c.subs[s].price < |w.c.prices| && (!w.cut ==> Charge(w.c, s) <= w.c.subs[s].last)
  {
    StartIsSafe();
    RunKeepsInv(START, run);
    var w := After(START, run);
    assert SubOk(w.c, s);
    if !w.cut { assert Within(w.c, s); }
  }

  /**
   Whether a step of a call leaves a subscription within its last agreement, in any state and
   whatever overlaps: accepting a rise and creating the subscription again do exactly when the
   charge was not above the amount, switching the price exactly when the new price is not; every
   other step leaves it as it was.
   */
  lemma AgreementAfter(c: Core, q: Call, reply: Reply, s: nat)
    requires CanGo(c, q) && s < |c.subs| && StillRuns(Go(c, q, reply).0, s)
    requires c.subs[s].price < |c.prices| && (q.SwitchPrice? || q.AcceptedSwitch? ==> q.price < |c.prices|)
    ensures Within(Go(c, q, reply).0, s) <==>
      match q
      case ClaimProposal(proposal, sub, accept) =>
        if accept && sub == Some(s) && c.link.pending == Some(proposal) then Charge(c, s) <= proposal.cents
        else Within(c, s)
      case SwitchPrice(price, _, t, _) => if t == s then c.prices[price] <= c.subs[s].last else Within(c, s)
      case AcceptedSwitch(price, _, t) => if t == s then c.prices[price] <= c.subs[s].last else Within(c, s)
      case CreateSub(price, _) =>
        if price in c.keys && c.keys[price] == s then Charge(c, s) <= c.prices[price] else Within(c, s)
      case _ => Within(c, s)
  {
  }

  /**
   Unless a call died between the switch at Stripe and its row write, the bound subscription
   charges the rent on the row whenever no call is under way, and never more than agreed last.
   */
  lemma ChargeIsTheRent(run: seq<Step>)
    requires Legal(START, run) && Serial(START, run)
    ensures var w := After(START, run);
      !w.cut && w.calls == map[] && w.c.link.sub.Some? && StillRuns(w.c, w.c.link.sub.value) ==>
        var s := w.c.link.sub.value;
        && w.c.subs[s].price < |w.c.prices|
        && w.c.link.amount == Some(Charge(w.c, s)) && Charge(w.c, s) <= w.c.subs[s].last
  {
    StartIsSafe();
    RunKeepsInv(START, run);
    var w := After(START, run);
    if w.c.link.sub.Some? { assert SubOk(w.c, w.c.link.sub.value); }
  }

  // ---- what raises a charge ----

  /** A step of a call raises a charge exactly when it switches to a higher price, and then within the last agreement. */
  lemma RaisesTheCharge(c: Core, q: Call, reply: Reply, s: nat)
    requires Good(c) && CallOk(c, q) && CanGo(c, q) && s < |c.subs|
    ensures var d := Go(c, q, reply).0;
      && c.subs[s].price < |c.prices| && s < |d.subs| && d.subs[s].price < |d.prices|
      && (Charge(d, s) > Charge(c, s) <==>
            || (q.SwitchPrice? && q.s == s && q.cents > Charge(c, s))
            || (q.AcceptedSwitch? && q.s == s && q.cents > Charge(c, s)))
      && (Charge(d, s) > Charge(c, s) ==> Charge(d, s) <= c.subs[s].last)
  {
    Near(c, q);
    assert SubOk(c, s);
  }

  predicate Accepting(q: Call) {
    (q.ClaimProposal? && q.accept) || q.AcceptedPrice? || q.AcceptedSwitch? || q.WriteAccepted?
  }

  ghost predicate NothingAccepted(w: World) {
    forall p :: p in w.calls ==> !Accepting(w.calls[p])
  }

  /** With the row and the charge in step, only an accepted switch raises a charge. */
  lemma StepRaisesNothing(w: World, t: Step, s: nat)
    requires Inv(w) && Enabled(w, t) && !w.cut && NothingAccepted(w) && s < |w.c.subs|
    requires t.Begin? ==> w.calls == map[] && t.r != Respond(true)
    ensures var v := Next(w, t);
      && NothingAccepted(v) && s < |v.c.subs|
      && w.c.subs[s].price < |w.c.prices| && v.c.subs[s].price < |v.c.prices| && Charge(v.c, s) <= Charge(w.c, s)
  {
    assert SubOk(w.c, s);
    if t.Act? {
      var q := w.calls[t.p];
      RaisesTheCharge(w.c, q, t.reply, s);
      assert forall r :: r in w.calls ==> r == t.p;
      if q.SwitchPrice? && q.s == s { assert NoneAhead(w) && Synced(w.c); }
    }
  }

  lemma {:induction false} CutStays(w: World, run: seq<Step>)
    requires Legal(w, run) && w.cut
    ensures After(w, run).cut
    decreases |run|
  {
    if run != [] { CutStays(Next(w, run[0]), run[1..]); }
  }

  /**
   Between two accepted rises the charge only goes down: in a run whose calls come one after the
   other, with none cut between a switch and its row write and no rise accepted, no subscription
   ends above the price it had.
   */
  lemma {:induction false} OnlyAcceptedRises(w: World, run: seq<Step>, s: nat)
    requires Inv(w) && NothingAccepted(w) && s < |w.c.subs|
    requires Legal(w, run) && Serial(w, run) && !After(w, run).cut
    requires forall t :: t in run ==> t.Begin? ==> t.r != Respond(true)
    ensures var v := After(w, run);
      && s < |v.c.subs| && w.c.subs[s].price < |w.c.prices| && v.c.subs[s].price < |v.c.prices|
      && Charge(v.c, s) <= Charge(w.c, s)
    decreases |run|
  {
    assert SubOk(w.c, s);
    if run != [] {
      if w.cut { CutStays(w, run); }
      assert run[0] in run;
      StepRaisesNothing(w, run[0], s);
      StepKeepsInv(w, run[0]);
      OnlyAcceptedRises(Next(w, run[0]), run[1..], s);
    }
  }

  // ---- one subscription per authorization ----

  predicate AuthorizeStep(s: Step) {
    s.Begin? ==> s.r.Authorize?
  }

  predicate KeyGives(c: Core, s: nat) {
    c.link.price.Some? && c.link.price.value in c.keys && c.keys[c.link.price.value] == s
  }

  /** The row's subscription has ended, or was counted as left behind. */
  predicate LetGo(c: Core, strays: set<nat>) {
    c.link.sub.Some? && StillRuns(c, c.link.sub.value) ==> c.link.sub.value in strays
  }

  /** Where a running subscription can be while authorize is at this point. */
  predicate Place(c: Core, q: Option<Call>, s: nat) {
    if q.None? || q.value.ResumeActive? then c.link.sub == Some(s) || (c.link.sub.None? && KeyGives(c, s))
    else if q.value.CreateSub? then q.value.price in c.keys && c.keys[q.value.price] == s
    else if q.value.BindSub? then q.value.s == s
    else false
  }

  predicate Shape(c: Core, strays: set<nat>, q: Call) {
    match q
    case FirstPrice(_, again) => LetGo(c, strays) && (again || c.link.sub.None?)
    case SavePrice(price, again) => LetGo(c, strays) && (again || c.link.sub.None?) && price !in c.keys
    case CreateSub(price, again) =>
      && LetGo(c, strays) && (again ==> price !in c.keys)
      && (!again ==> c.link.sub.None? && c.link.price == Some(price))
    case BindSub(s, _, again) => LetGo(c, strays) && (again || (c.link.sub.None? && KeyGives(c, s)))
    case ForgetPrice => LetGo(c, strays)
    case ResumeActive => true
    case _ => false
  }

  predicate PlaceOk(c: Core, strays: set<nat>, q: Option<Call>, n: nat, s: nat) {
    n <= s && StillRuns(c, s) && s !in strays ==> Place(c, q, s)
  }

  ghost predicate OnlyOne(w: World, n: nat) {
    && Inv(w) && n <= |w.c.subs| && (forall s :: s in w.strays ==> s < |w.c.subs|)
    && (forall p :: p in w.calls ==> Shape(w.c, w.strays, w.calls[p]))
    && (forall p, s: nat :: p in w.calls ==> PlaceOk(w.c, w.strays, Some(w.calls[p]), n, s))
    && (w.calls == map[] ==> forall s: nat :: PlaceOk(w.c, w.strays, None, n, s))
  }

  lemma GoKeepsPlace(c: Core, strays: set<nat>, q: Call, reply: Reply, n: nat, s: nat)
    requires CallOk(c, q) && Nearby(c, q) && CanGo(c, q) && Shape(c, strays, q)
    requires n <= |c.subs| && PlaceOk(c, strays, Some(q), n, s)
    ensures var (d, left) := Go(c, q, reply); PlaceOk(d, strays, left, n, s)
  {
  }

  lemma GoKeepsShape(c: Core, strays: set<nat>, q: Call, reply: Reply)
    requires CallOk(c, q) && Nearby(c, q) && CanGo(c, q) && Shape(c, strays, q) && KeyOk(c, |c.prices|)
    requires forall s :: s in strays ==> s < |c.subs|
    ensures var (d, left) := Go(c, q, reply); left.Some? ==> Shape(d, strays, left.value)
  {
  }

  lemma EventKeepsShape(c: Core, strays: set<nat>, e: Event, q: Call)
    requires CanHappen(c, e) && Shape(c, strays, q)
    ensures Shape(Happens(c, e), strays, q)
  {
  }

  lemma EventKeepsPlace(c: Core, strays: set<nat>, e: Event, q: Option<Call>, n: nat, s: nat)
    requires CanHappen(c, e) && PlaceOk(c, strays, q, n, s)
    ensures PlaceOk(Happens(c, e), strays, q, n, s)
  {
  }

  lemma ActKeepsOne(w: World, p: nat, reply: Reply, n: nat)
    requires OnlyOne(w, n) && Enabled(w, Act(p, reply))
    ensures OnlyOne(Next(w, Act(p, reply)), n)
  {
    ActKeepsInv(w, p, reply);
    var q := w.calls[p];
    var v := Next(w, Act(p, reply));
    var left := Go(w.c, q, reply).1;
    Near(w.c, q);
    assert KeyOk(w.c, |w.c.prices|) && Shape(w.c, w.strays, q);
    GoKeepsShape(w.c, w.strays, q, reply);
    forall s: nat ensures PlaceOk(v.c, v.strays, left, n, s) {
      assert PlaceOk(w.c, w.strays, Some(q), n, s);
      GoKeepsPlace(w.c, w.strays, q, reply, n, s);
    }
    forall r | r in v.calls ensures left == Some(v.calls[r]) {}
    assert left.Some? ==> p in v.calls;
  }

  lemma BeginKeepsOne(w: World, p: nat, n: nat)
    requires OnlyOne(w, n) && Enabled(w, Begin(p, Authorize)) && w.calls == map[]
    ensures OnlyOne(Next(w, Begin(p, Authorize)), n)
  {
    BeginKeepsInv(w, p, Authorize);
    var v := Next(w, Begin(p, Authorize));
    var q := AuthorizePlan(w.c).value;
    assert Shape(v.c, v.strays, q);
    forall s: nat ensures PlaceOk(v.c, v.strays, Some(q), n, s) { assert PlaceOk(w.c, w.strays, None, n, s); }
  }

  lemma CrashKeepsOne(w: World, p: nat, n: nat)
    requires OnlyOne(w, n) && p in w.calls
    ensures OnlyOne(Next(w, Crash(p)), n)
  {
    CrashKeepsInv(w, p);
    var v := Next(w, Crash(p));
    var q := w.calls[p];
    assert CallOk(w.c, q);
    forall s: nat ensures PlaceOk(v.c, v.strays, None, n, s) {
      assert PlaceOk(w.c, w.strays, Some(q), n, s) && Shape(w.c, w.strays, q);
    }
    assert forall r :: r in w.calls ==> r == p;
  }

  lemma OutsideKeepsOne(w: World, e: Event, n: nat)
    requires OnlyOne(w, n) && CanHappen(w.c, e)
    ensures OnlyOne(Next(w, Outside(e)), n)
  {
    OutsideKeepsInv(w, e);
    var v := Next(w, Outside(e));
    forall p | p in v.calls ensures Shape(v.c, v.strays, v.calls[p]) { EventKeepsShape(w.c, w.strays, e, w.calls[p]); }
    forall p, s: nat | p in v.calls ensures PlaceOk(v.c, v.strays, Some(v.calls[p]), n, s) {
      assert PlaceOk(w.c, w.strays, Some(w.calls[p]), n, s);
      EventKeepsPlace(w.c, w.strays, e, Some(w.calls[p]), n, s);
    }
    if v.calls == map[] {
      forall s: nat ensures PlaceOk(v.c, v.strays, None, n, s) {
        assert PlaceOk(w.c, w.strays, None, n, s);
        EventKeepsPlace(w.c, w.strays, e, None, n, s);
      }
    }
  }

  lemma {:induction false} RunKeepsOne(w: World, run: seq<Step>, n: nat)
    requires OnlyOne(w, n) && Legal(w, run) && Serial(w, run) && forall s :: s in run ==> AuthorizeStep(s)
    ensures OnlyOne(After(w, run), n)
    decreases |run|
  {
    if run != [] {
      match run[0] {
        case Begin(p, r) => assert AuthorizeStep(run[0]); BeginKeepsOne(w, p, n);
        case Act(p, reply) => ActKeepsOne(w, p, reply, n);
        case Crash(p) => CrashKeepsOne(w, p, n);
        case Outside(e) => OutsideKeepsOne(w, e, n);
      }
      RunKeepsOne(Next(w, run[0]), run[1..], n);
    }
  }

  /**
   First authorization: from a rent waiting for the card, whatever number of authorize calls are
   made and wherever they die, at most one of the subscriptions created runs at any time besides
   those a renewal left behind, and it is the one the row is bound to or the one a new attempt
   gets from its key.
   */
  lemma FirstAuthorizationCreatesOne(w: World, run: seq<Step>, s: nat, t: nat)
    requires Inv(w) && w.strays == {} && w.calls == map[] && w.c.link.sub.None?
    requires w.c.link.price.Some? ==> w.c.link.price.value !in w.c.keys
    requires Legal(w, run) && Serial(w, run) && forall s :: s in run ==> AuthorizeStep(s)
    requires |w.c.subs| <= s && StillRuns(After(w, run).c, s) && s !in After(w, run).strays
    ensures var v := After(w, run);
      && (|w.c.subs| <= t && StillRuns(v.c, t) && t !in v.strays ==> s == t)
      && (v.calls == map[] ==> v.c.link.sub == Some(s) || (v.c.link.sub.None? && KeyGives(v.c, s)))
  {
    var n := |w.c.subs|;
    RunKeepsOne(w, run, n);
    var v := After(w, run);
    if v.calls == map[] {
      assert PlaceOk(v.c, v.strays, None, n, s) && PlaceOk(v.c, v.strays, None, n, t);
    } else {
      var p :| p in v.calls;
      assert PlaceOk(v.c, v.strays, Some(v.calls[p]), n, s) && PlaceOk(v.c, v.strays, Some(v.calls[p]), n, t);
    }
  }

  /** No renewal begins while the bound subscription is overdue, and none dies between creating and binding. */
  predicate RenewsCleanly(w: World, run: seq<Step>)
    requires Legal(w, run)
    decreases |run|
  {
    run == [] ||
    (&& (run[0].Begin? ==> !RenewsRunning(w.c, run[0].r))
     && (run[0].Crash? ==> var q := w.calls[run[0].p]; !(q.BindSub? && q.again))
     && RenewsCleanly(Next(w, run[0]), run[1..]))
  }

  lemma {:induction false} CleanRenewalsLeaveNone(w: World, run: seq<Step>)
    requires Legal(w, run) && RenewsCleanly(w, run)
    ensures After(w, run).strays == w.strays
    decreases |run|
  {
    if run != [] { CleanRenewalsLeaveNone(Next(w, run[0]), run[1..]); }
  }

  /** So one subscription at most runs, with no exception, when every renewal goes cleanly. */
  lemma OneRunsWhenRenewedCleanly(w: World, run: seq<Step>, s: nat, t: nat)
    requires Inv(w) && w.strays == {} && w.calls == map[] && w.c.link.sub.None?
    requires w.c.link.price.Some? ==> w.c.link.price.value !in w.c.keys
    requires Legal(w, run) && Serial(w, run) && (forall s :: s in run ==> AuthorizeStep(s)) && RenewsCleanly(w, run)
    requires |w.c.subs| <= s && StillRuns(After(w, run).c, s) && |w.c.subs| <= t && StillRuns(After(w, run).c, t)
    ensures s == t
  {
    CleanRenewalsLeaveNone(w, run);
    FirstAuthorizationCreatesOne(w, run, s, t);
  }

  // ---- a key whose subscription ended ----

  predicate Uses(q: Call, price: nat) {
    match q
    case SwitchPrice(p, _, _, _) => p == price
    case WriteRent(_, p, _, _) => p == Some(price)
    case AcceptedSwitch(p, _, _) => p == price
    case WriteAccepted(_, p, _) => p == Some(price)
    case SavePrice(p, _) => p == price
    case CreateSub(p, _) => p == price
    case _ => false
  }

  predicate Binds(q: Call, s: nat) {
    q.BindSub? && q.s == s
  }

  /** The row and the keys no longer lead to this key. */
  ghost predicate Gone(c: Core, price: nat) {
    && price < |c.prices| && price in c.keys && c.keys[price] < |c.subs|
    && c.link.price != Some(price) && c.link.sub != Some(c.keys[price])
    && (forall q: nat :: q in c.keys && c.keys[q] == c.keys[price] ==> q == price)
  }

  /** Nothing leads to this key any more, nor to its subscription. */
  ghost predicate Retired(w: World, price: nat) {
    && Gone(w.c, price)
    && forall p :: p in w.calls ==> !Uses(w.calls[p], price) && !Binds(w.calls[p], w.c.keys[price])
  }

  /** Offered a key whose subscription has ended, authorize binds it exactly on a stored reply, and drops it otherwise. */
  lemma EndedKeyIsBoundOnStoredReply(c: Core, price: nat, again: bool, reply: Reply)
    requires Good(c) && CanGo(c, CreateSub(price, again)) && price in c.keys && !StillRuns(c, c.keys[price])
    ensures var (d, left) := Go(c, CreateSub(price, again), reply);
      && d == c && left.Some?
      && (left.value.BindSub? && left.value.s == c.keys[price] <==> reply.stored)
      && (left == Some(ForgetPrice) <==> !reply.stored)
  {
    assert KeyOk(c, price) && SubOk(c, c.keys[price]);
  }

  /** The webhook of an ended subscription retires its key, whatever call is under way. */
  lemma DeletedKeyIsRetired(w: World, s: nat, price: nat)
    requires Inv(w) && w.c.link.sub == Some(s) && CanHappen(w.c, Deleted(s)) && price in w.c.keys && w.c.keys[price] == s
    ensures Retired(Next(w, Outside(Deleted(s))), price)
  {
    assert KeyOk(w.c, price);
    forall p | p in w.calls ensures !Uses(w.calls[p], price) && !Binds(w.calls[p], s) { assert CallOk(w.c, w.calls[p]); }
  }

  lemma GoKeepsGone(c: Core, q: Call, reply: Reply, price: nat)
    requires Gone(c, price) && CanGo(c, q) && !Uses(q, price) && !Binds(q, c.keys[price])
    ensures var (d, left) := Go(c, q, reply);
      && Gone(d, price) && d.keys[price] == c.keys[price]
      && (left.Some? ==> !Uses(left.value, price) && !Binds(left.value, d.keys[price]))
  {
  }

  lemma PlanAvoidsGone(c: Core, r: Request, price: nat)
    requires Gone(c, price) && Plan(c, r).Some?
    ensures !Uses(Plan(c, r).value, price) && !Binds(Plan(c, r).value, c.keys[price])
  {
  }

  lemma StepKeepsRetired(w: World, s: Step, price: nat)
    requires Retired(w, price) && Enabled(w, s)
    ensures Retired(Next(w, s), price) && Next(w, s).c.keys[price] == w.c.keys[price]
  {
    match s
    case Begin(_, r) => PlanAvoidsGone(w.c, r, price);
    case Act(p, reply) => GoKeepsGone(w.c, w.calls[p], reply, price);
    case Crash(_) =>
    case Outside(_) =>
  }

  lemma {:induction false} RetiredKeyStaysRetired(w: World, run: seq<Step>, price: nat)
    requires Retired(w, price) && Legal(w, run)
    ensures Retired(After(w, run), price) && After(w, run).c.keys[price] == w.c.keys[price]
    decreases |run|
  {
    if run != [] {
      StepKeepsRetired(w, run[0], price);
      RetiredKeyStaysRetired(Next(w, run[0]), run[1..], price);
    }
  }

  /** Once its webhook came, an ended subscription is never bound again and its key is on no row, in any run. */
  lemma EndedIsNeverBoundAgain(w: World, s: nat, price: nat, run: seq<Step>)
    requires Inv(w) && w.c.link.sub == Some(s) && CanHappen(w.c, Deleted(s)) && price in w.c.keys && w.c.keys[price] == s
    requires Legal(Next(w, Outside(Deleted(s))), run)
    ensures var v := After(Next(w, Outside(Deleted(s))), run); v.c.link.sub != Some(s) && v.c.link.price != Some(price)
  {
    DeletedKeyIsRetired(w, s, price);
    RetiredKeyStaysRetired(Next(w, Outside(Deleted(s))), run, price);
  }
}
