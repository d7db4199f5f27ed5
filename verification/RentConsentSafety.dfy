/** What every step of the chair-rent protocol keeps, and what follows for every run. */
module RentConsentSafety {
  import opened Prelude
  import opened RentConsent

  predicate LinkOk(c: Core) {
    var l := c.link;
    && (l.price.Some? ==> l.price.value < |c.prices| && l.amount == Some(c.prices[l.price.value]))
    && (l.sub.Some? ==>
          && l.sub.value < |c.subs| && l.amount.Some? && l.mode == Card && l.status != Awaiting
          && (StillRuns(c, l.sub.value) ==> l.amount.value <= c.subs[l.sub.value].last))
    && (l.pending.Some? ==> l.amount.Some? && l.pending.value.cents > l.amount.value)
    && (l.price.Some? && l.price.value in c.keys && l.sub != Some(c.keys[l.price.value]) ==>
          StillRuns(c, c.keys[l.price.value]) ==> c.subs[c.keys[l.price.value]].price == l.price.value)
  }

  /** The price charged never passes the most the member agreed to. */
  predicate SubOk(c: Core, s: nat) {
    s < |c.subs| ==>
      var x := c.subs[s];
      && x.price < |c.prices| && x.last <= x.top && c.prices[x.price] <= x.top && x.born != Ended
  }

  predicate KeyOk(c: Core, p: nat) {
    p in c.keys ==> p < |c.prices| && c.keys[p] < |c.subs|
  }

  predicate NewlyMinted(c: Core, price: nat, cents: nat) {
    price < |c.prices| && c.prices[price] == cents && price !in c.keys
  }

  /** The row is bound to the subscription a call read, or has lost it to a webhook since it ended. */
  predicate StillBound(c: Core, sub: Option<nat>) {
    && (c.link.sub.Some? ==> c.link.sub == sub)
    && (sub.Some? ==> sub.value < |c.subs| && (StillRuns(c, sub.value) ==> c.link.sub == sub))
  }

  /** What the bound subscription charges now, and the last the member agreed to. */
  predicate Charges(c: Core, sub: Option<nat>, cents: nat) {
    sub.Some? && StillRuns(c, sub.value) ==>
      var x := c.subs[sub.value];
      x.price < |c.prices| && c.prices[x.price] == cents && cents <= x.last
  }

  predicate CallOk(c: Core, q: Call) {
    var l := c.link;
    match q
    case CancelCharge(_) => true
    case UnbindCharge(_) => l.sub.Some? ==> !StillRuns(c, l.sub.value)
    case WriteGoal(_) => l.sub.None?
    case WriteCard(_, read) => l.sub.None? && read.sub.None?
    case WriteProposal(cents) => l.amount.Some? && cents > l.amount.value
    case NewPrice(cents, s, status) =>
      StillBound(c, Some(s)) && status != Awaiting && cents <= Paying(l) && (StillRuns(c, s) ==> cents <= c.subs[s].last)
    case SwitchPrice(price, cents, s, status) =>
      && StillBound(c, Some(s)) && status != Awaiting && NewlyMinted(c, price, cents) && cents <= Paying(l)
      && (StillRuns(c, s) ==> cents <= c.subs[s].last)
    case WriteRent(cents, p, status, sub) =>
      && StillBound(c, sub) && (p.Some? ==> NewlyMinted(c, p.value, cents)) && Charges(c, sub, cents)
      && (p.None? ==> sub.None?) && (l.sub.Some? ==> l.mode == Card)
      && (sub.Some? ==> status != Awaiting)
    case ClaimProposal(_, sub, _) => StillBound(c, sub)
    case AcceptedPrice(cents, s) =>
      && StillBound(c, Some(s)) && l.pending.None? && (StillRuns(c, s) ==> cents == c.subs[s].last)
      && l.amount.Some?
    case AcceptedSwitch(price, cents, s) =>
      && StillBound(c, Some(s)) && l.pending.None? && NewlyMinted(c, price, cents)
      && (StillRuns(c, s) ==> cents == c.subs[s].last)
    case WriteAccepted(cents, p, sub) =>
      && StillBound(c, sub) && l.pending.None? && (p.Some? ==> NewlyMinted(c, p.value, cents))
      && Charges(c, sub, cents) && (p.None? ==> sub.None?)
    case FirstPrice(cents, _) => l.amount == Some(cents) && l.mode == Card
    case SavePrice(price, _) =>
      && l.mode == Card && price < |c.prices| && l.amount == Some(c.prices[price])
      && price !in c.keys
    case CreateSub(price, _) =>
      && l.mode == Card && price < |c.prices| && l.amount == Some(c.prices[price])
      && (l.price.Some? ==> l.price.value == price)
      && (price in c.keys ==> l.sub.None?)
      && (price in c.keys ==> StillRuns(c, c.keys[price]) ==> c.subs[c.keys[price]].price == price)
    case BindSub(s, status, _) =>
      && status != Awaiting && l.sub != Some(s) && l.mode == Card && l.amount.Some? && s < |c.subs| && c.subs[s].price < |c.prices|
      && (l.price.Some? ==> l.price.value in c.keys && c.keys[l.price.value] == s)
      && (StillRuns(c, s) ==> c.prices[c.subs[s].price] == l.amount.value == c.subs[s].last)
    case ForgetPrice => true
    case ResumeActive => true
  }

  ghost predicate Good(c: Core) {
    && LinkOk(c)
    && (forall s: nat :: SubOk(c, s))
    && (forall p: nat :: KeyOk(c, p))
  }

  /** The bound subscription, while it runs, charges the rent on the row. */
  predicate Synced(c: Core) {
    var l := c.link;
    l.sub.Some? && StillRuns(c, l.sub.value) && c.subs[l.sub.value].price < |c.prices| ==>
      l.amount == Some(c.prices[c.subs[l.sub.value].price])
  }

  /** The instances of the invariant a call's next step looks at. */
  predicate Nearby(c: Core, q: Call) {
    && LinkOk(c)
    && (c.link.sub.Some? ==> SubOk(c, c.link.sub.value))
    && match q
       case SwitchPrice(_, _, s, _) => SubOk(c, s)
       case AcceptedSwitch(_, _, s) => SubOk(c, s)
       case ClaimProposal(_, sub, _) => sub.Some? ==> SubOk(c, sub.value)
       case CreateSub(price, _) => KeyOk(c, price) && (price in c.keys ==> SubOk(c, c.keys[price]))
       case BindSub(s, _, _) => SubOk(c, s)
       case _ => true
  }

  lemma CanAlwaysGo(c: Core, q: Call)
    requires CallOk(c, q) && Nearby(c, q)
    ensures CanGo(c, q) || q.SwitchPrice? || q.AcceptedSwitch?
  {
  }

  predicate RentCall(q: Call) {
    q.CancelCharge? || q.UnbindCharge? || q.WriteGoal? || q.WriteCard? || q.WriteProposal?
    || q.NewPrice? || q.SwitchPrice? || q.WriteRent?
  }

  predicate ResponseCall(q: Call) {
    q.ClaimProposal? || q.AcceptedPrice? || q.AcceptedSwitch? || q.WriteAccepted?
  }

  lemma RentKeepsLink(c: Core, q: Call, reply: Reply)
    requires RentCall(q) && CallOk(c, q) && Nearby(c, q) && CanGo(c, q)
    ensures LinkOk(Go(c, q, reply).0)
  {
  }

  lemma ResponseKeepsLink(c: Core, q: Call, reply: Reply)
    requires ResponseCall(q) && CallOk(c, q) && Nearby(c, q) && CanGo(c, q)
    ensures LinkOk(Go(c, q, reply).0)
  {
  }

  lemma AuthorizeKeepsLink(c: Core, q: Call, reply: Reply)
    requires !RentCall(q) && !ResponseCall(q) && CallOk(c, q) && Nearby(c, q) && CanGo(c, q)
    ensures LinkOk(Go(c, q, reply).0)
  {
  }

  lemma RentKeepsSub(c: Core, q: Call, reply: Reply, s: nat)
    requires RentCall(q) && CallOk(c, q) && Nearby(c, q) && CanGo(c, q) && SubOk(c, s)
    ensures SubOk(Go(c, q, reply).0, s)
  {
  }

  lemma ResponseKeepsSub(c: Core, q: Call, reply: Reply, s: nat)
    requires ResponseCall(q) && CallOk(c, q) && Nearby(c, q) && CanGo(c, q) && SubOk(c, s)
    ensures SubOk(Go(c, q, reply).0, s)
  {
  }

  lemma AuthorizeKeepsSub(c: Core, q: Call, reply: Reply, s: nat)
    requires !RentCall(q) && !ResponseCall(q) && CallOk(c, q) && Nearby(c, q) && CanGo(c, q) && SubOk(c, s)
    ensures SubOk(Go(c, q, reply).0, s)
  {
  }

  lemma GoKeepsKey(c: Core, q: Call, reply: Reply, p: nat)
    requires CallOk(c, q) && CanGo(c, q) && KeyOk(c, p)
    ensures KeyOk(Go(c, q, reply).0, p)
  {
  }

  lemma RentKeepsCall(c: Core, q: Call, reply: Reply)
    requires RentCall(q) && CallOk(c, q) && Nearby(c, q) && CanGo(c, q) && KeyOk(c, |c.prices|)
    ensures var (d, left) := Go(c, q, reply); left.Some? ==> CallOk(d, left.value)
  {
  }

  lemma ResponseKeepsCall(c: Core, q: Call, reply: Reply)
    requires ResponseCall(q) && CallOk(c, q) && Nearby(c, q) && CanGo(c, q) && KeyOk(c, |c.prices|)
    ensures var (d, left) := Go(c, q, reply); left.Some? ==> CallOk(d, left.value)
  {
  }

  lemma AuthorizeKeepsCall(c: Core, q: Call, reply: Reply)
    requires !RentCall(q) && !ResponseCall(q) && CallOk(c, q) && Nearby(c, q) && CanGo(c, q) && KeyOk(c, |c.prices|)
    ensures var (d, left) := Go(c, q, reply); left.Some? ==> CallOk(d, left.value)
  {
  }

  lemma GoKeepsSynced(c: Core, q: Call, reply: Reply)
    requires CallOk(c, q) && Nearby(c, q) && CanGo(c, q) && (Ahead(q) || Synced(c))
    ensures var (d, left) := Go(c, q, reply); (left.Some? && Ahead(left.value)) || Synced(d)
  {
  }

  // ---- beginnings and events ----

  lemma PlanIsOk(c: Core, r: Request)
    requires LinkOk(c) && Plan(c, r).Some?
    ensures CallOk(c, Plan(c, r).value) && !Ahead(Plan(c, r).value)
  {
    match r
    case SetRent(amount, wanted) => assert SetRentPlan(c.link, amount, wanted).Some?;
    case Respond(accept) =>
    case Authorize => AuthorizeIsOk(c);
  }

  lemma AuthorizeIsOk(c: Core)
    requires LinkOk(c) && AuthorizePlan(c).Some?
    ensures CallOk(c, AuthorizePlan(c).value) && !Ahead(AuthorizePlan(c).value)
  {
  }

  lemma MoveKeepsCall(c: Core, s: nat, to: SubStatus, q: Call)
    requires CanHappen(c, Moves(s, to)) && CallOk(c, q)
    ensures CallOk(Happens(c, Moves(s, to)), q)
  {
  }

  lemma InvoiceKeepsCall(c: Core, s: nat, paid: bool, q: Call)
    requires CanHappen(c, Invoice(s, paid)) && CallOk(c, q)
    ensures CallOk(Happens(c, Invoice(s, paid)), q)
  {
  }

  lemma DeletedKeepsCall(c: Core, s: nat, q: Call)
    requires CanHappen(c, Deleted(s)) && CallOk(c, q)
    ensures CallOk(Happens(c, Deleted(s)), q)
  {
  }

  lemma EventKeepsCall(c: Core, e: Event, q: Call)
    requires CanHappen(c, e) && CallOk(c, q)
    ensures CallOk(Happens(c, e), q)
  {
    match e
    case Moves(s, to) => MoveKeepsCall(c, s, to, q);
    case Invoice(s, paid) => InvoiceKeepsCall(c, s, paid, q);
    case Deleted(s) => DeletedKeepsCall(c, s, q);
  }

  lemma EventKeepsLink(c: Core, e: Event)
    requires CanHappen(c, e) && LinkOk(c)
    ensures LinkOk(Happens(c, e)) && (Synced(c) ==> Synced(Happens(c, e)))
  {
  }

  lemma EventKeepsSub(c: Core, e: Event, s: nat)
    requires CanHappen(c, e) && SubOk(c, s)
    ensures SubOk(Happens(c, e), s)
  {
  }

  // ---- the whole state ----

  ghost predicate NoneAhead(w: World) {
    forall p :: p in w.calls ==> !Ahead(w.calls[p])
  }

  /** A running subscription charges at most what the member agreed to last. */
  predicate Within(c: Core, s: nat) {
    StillRuns(c, s) && c.subs[s].price < |c.prices| ==> c.prices[c.subs[s].price] <= c.subs[s].last
  }

  lemma GoKeepsWithin(c: Core, q: Call, reply: Reply, s: nat)
    requires CallOk(c, q) && Nearby(c, q) && CanGo(c, q) && (Ahead(q) || Synced(c)) && SubOk(c, s) && Within(c, s)
    ensures Within(Go(c, q, reply).0, s)
  {
  }

  /** A subscription comes from one key. */
  ghost predicate KeysApart(c: Core) {
    forall p: nat, q: nat :: p in c.keys && q in c.keys && c.keys[p] == c.keys[q] ==> p == q
  }

  ghost predicate Inv(w: World) {
    && Good(w.c) && KeysApart(w.c)
    && (!w.cut ==> forall s: nat :: Within(w.c, s))
    && (forall p :: p in w.calls ==> CallOk(w.c, w.calls[p]))
    && (forall p, q :: p in w.calls && q in w.calls ==> p == q)
    && (!w.cut && NoneAhead(w) ==> Synced(w.c))
  }

  lemma Near(c: Core, q: Call)
    requires Good(c) && CallOk(c, q)
    ensures Nearby(c, q)
  {
    if c.link.sub.Some? { assert SubOk(c, c.link.sub.value); }
    match q
    case SwitchPrice(_, _, s, _) => assert SubOk(c, s);
    case AcceptedSwitch(_, _, s) => assert SubOk(c, s);
    case ClaimProposal(_, sub, _) => if sub.Some? { assert SubOk(c, sub.value); }
    case CreateSub(price, _) =>
      assert KeyOk(c, price);
      if price in c.keys { assert SubOk(c, c.keys[price]); }
    case BindSub(s, _, _) => assert SubOk(c, s);
    case _ =>
  }

  lemma GoKeepsGood(c: Core, q: Call, reply: Reply)
    requires Good(c) && CallOk(c, q) && CanGo(c, q)
    ensures var (d, left) := Go(c, q, reply); Good(d) && (left.Some? ==> CallOk(d, left.value))
  {
    Near(c, q);
    assert KeyOk(c, |c.prices|);
    var d := Go(c, q, reply).0;
    forall p: nat ensures KeyOk(d, p) { assert KeyOk(c, p); GoKeepsKey(c, q, reply, p); }
    forall s: nat ensures SubOk(d, s) {
      assert SubOk(c, s);
      if RentCall(q) { RentKeepsSub(c, q, reply, s); }
      else if ResponseCall(q) { ResponseKeepsSub(c, q, reply, s); }
      else { AuthorizeKeepsSub(c, q, reply, s); }
    }
    if RentCall(q) { RentKeepsLink(c, q, reply); RentKeepsCall(c, q, reply); }
    else if ResponseCall(q) { ResponseKeepsLink(c, q, reply); ResponseKeepsCall(c, q, reply); }
    else { AuthorizeKeepsLink(c, q, reply); AuthorizeKeepsCall(c, q, reply); }
  }

  lemma ActKeepsInv(w: World, p: nat, reply: Reply)
    requires Inv(w) && Enabled(w, Act(p, reply))
    ensures Inv(Next(w, Act(p, reply)))
  {
    var q := w.calls[p];
    GoKeepsGood(w.c, q, reply);
    Near(w.c, q);
    var v := Next(w, Act(p, reply));
    GoKeepsKeysApart(w.c, q, reply);
    if !v.cut {
      assert Ahead(q) || NoneAhead(w) by { assert forall r :: r in w.calls ==> r == p; }
      GoKeepsSynced(w.c, q, reply);
      var left := Go(w.c, q, reply).1;
      assert left.Some? ==> v.calls[p] == left.value;
      forall s: nat ensures Within(v.c, s) {
        assert Within(w.c, s) && SubOk(w.c, s);
        GoKeepsWithin(w.c, q, reply, s);
      }
    }
  }

  lemma GoKeepsKeysApart(c: Core, q: Call, reply: Reply)
    requires Good(c) && KeysApart(c) && CanGo(c, q)
    ensures KeysApart(Go(c, q, reply).0)
  {
    forall p: nat ensures KeyOk(c, p) {}
    if q.CreateSub? {
      forall p: nat | p in c.keys ensures c.keys[p] < |c.subs| { assert KeyOk(c, p); }
    }
  }

  lemma BeginKeepsInv(w: World, p: nat, r: Request)
    requires Inv(w) && Enabled(w, Begin(p, r)) && w.calls == map[]
    ensures Inv(Next(w, Begin(p, r)))
  {
    PlanIsOk(w.c, r);
    assert NoneAhead(w);
  }

  lemma CrashKeepsInv(w: World, p: nat)
    requires Inv(w) && p in w.calls
    ensures Inv(Next(w, Crash(p)))
  {
    if !Ahead(w.calls[p]) {
      assert forall q :: q in w.calls ==> q == p;
      assert NoneAhead(w);
    }
  }

  lemma OutsideKeepsInv(w: World, e: Event)
    requires Inv(w) && CanHappen(w.c, e)
    ensures Inv(Next(w, Outside(e)))
  {
    var v := Next(w, Outside(e));
    EventKeepsLink(w.c, e);
    forall s: nat ensures SubOk(v.c, s) { assert SubOk(w.c, s); EventKeepsSub(w.c, e, s); }
    forall p: nat ensures KeyOk(v.c, p) { assert KeyOk(w.c, p); }
    if !v.cut {
      forall s: nat ensures Within(v.c, s) { assert Within(w.c, s) && SubOk(w.c, s); }
    }
    forall p | p in v.calls ensures CallOk(v.c, v.calls[p]) { EventKeepsCall(w.c, e, w.calls[p]); }
    assert NoneAhead(v) ==> NoneAhead(w);
  }

  lemma StepKeepsInv(w: World, s: Step)
    requires Inv(w) && Enabled(w, s) && (s.Begin? ==> w.calls == map[])
    ensures Inv(Next(w, s))
  {
    match s
    case Begin(p, r) => BeginKeepsInv(w, p, r);
    case Act(p, reply) => ActKeepsInv(w, p, reply);
    case Crash(p) => CrashKeepsInv(w, p);
    case Outside(e) => OutsideKeepsInv(w, e);
  }

  lemma {:induction false} RunKeepsInv(w: World, run: seq<Step>)
    requires Inv(w) && Legal(w, run) && Serial(w, run)
    ensures Inv(After(w, run))
    decreases |run|
  {
    if run != [] {
      StepKeepsInv(w, run[0]);
      RunKeepsInv(Next(w, run[0]), run[1..]);
    }
  }

  lemma StartIsSafe()
    ensures Inv(START)
  {
  }
}
