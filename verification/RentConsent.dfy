/**
 Chair rent on the member's card as a state machine: the link row, Stripe's prices,
 subscriptions and idempotency keys, and the calls in flight. Each database write and each
 Stripe call is a step of its own, and a call can die between any two of them
 (src/barbershop/chair-rent.service.ts, setRent, respondRentIncrease, authorize and
 handleSubscriptionDeleted).
 */
module RentConsent {
  import opened Prelude

  // Rents in minor units of a currency with cents
  const MIN_RENT := 100
  const MAX_RENT := 10_000_000

  datatype Mode = Card | Manual

  datatype RentStatus = NoRent | Awaiting | Incomplete | Active | PastDue

  /** An increase waiting for the member; the stamp is rentPendingAt. */
  datatype Proposal = Proposal(cents: nat, stamp: nat)

  /** The rent columns of a SharedLocationMember row. */
  datatype Link = Link(
    amount: Option<nat>,
    mode: Mode,
    status: RentStatus,
    price: Option<nat>,
    sub: Option<nat>,
    pending: Option<Proposal>)

  datatype SubStatus = Unconfirmed | Running | Overdue | Ended

  /**
   A Stripe subscription, `born` being its status when it was created. What the member
   agreed to pay on it: the amount of the last authorization or accepted increase, and the
   highest one.
   */
  datatype Sub = Sub(price: nat, status: SubStatus, born: SubStatus, last: nat, top: nat)

  /** The row and Stripe; a price's id is its position, a subscription's too. */
  datatype Core = Core(link: Link, prices: seq<nat>, subs: seq<Sub>, keys: map<nat, nat>, stamp: nat)

  /** What stopping the card charge was for. */
  datatype Goal = ToStop | ToManual(cents: nat)

  /** The next step of an interrupted call, with what it read and computed so far. */
  datatype Call =
    | CancelCharge(goal: Goal)
    | UnbindCharge(goal: Goal)
    | WriteGoal(goal: Goal)
    | WriteCard(cents: nat, read: Link)
    | WriteProposal(cents: nat)
    | NewPrice(cents: nat, s: nat, status: RentStatus)
    | SwitchPrice(price: nat, cents: nat, s: nat, status: RentStatus)
    | WriteRent(cents: nat, p: Option<nat>, status: RentStatus, sub: Option<nat>)
    | ClaimProposal(proposal: Proposal, sub: Option<nat>, accept: bool)
    | AcceptedPrice(cents: nat, s: nat)
    | AcceptedSwitch(price: nat, cents: nat, s: nat)
    | WriteAccepted(cents: nat, p: Option<nat>, sub: Option<nat>)
    | FirstPrice(cents: nat, again: bool)
    | SavePrice(price: nat, again: bool)
    | CreateSub(price: nat, again: bool)
    | BindSub(s: nat, status: RentStatus, again: bool)
    | ForgetPrice
    | ResumeActive

  datatype Request =
    | SetRent(amount: Option<int>, wanted: Option<Mode>)
    | Respond(accept: bool)
    | Authorize

  /** Stripe's answers: whether it repeats a stored reply, and whether a new charge goes through at once. */
  datatype Reply = Reply(stored: bool, paidAtOnce: bool)

  function Paying(l: Link): nat {
    if l.amount.Some? then l.amount.value else 0
  }

  /** The card path of setRent (225-283), from the row as the call knows it. */
  function CardPath(l: Link, cents: nat): Call {
    if l.sub.Some? && cents > Paying(l) then WriteProposal(cents)
    else if l.sub.Some? then NewPrice(cents, l.sub.value, l.status)
    else WriteRent(cents, None, Awaiting, None)
  }

  /** setRent (125-283) up to its first write or Stripe call. */
  function SetRentPlan(l: Link, amount: Option<int>, wanted: Option<Mode>): Option<Call> {
    if amount.None? || amount.value == 0 then Some(CancelCharge(ToStop))
    else if amount.value < MIN_RENT || amount.value > MAX_RENT then None
    else
      var cents: nat := amount.value;
      var mode := if wanted.Some? then wanted.value else l.mode;
      if l.amount == Some(cents) && mode == l.mode && l.status != NoRent then None
      else if mode == Manual then Some(CancelCharge(ToManual(cents)))
      else if l.mode == Manual then Some(WriteCard(cents, l.(mode := Card, status := NoRent)))
      else Some(CardPath(l, cents))
  }

  function RespondPlan(l: Link, accept: bool): Option<Call> {
    if l.pending.None? then None else Some(ClaimProposal(l.pending.value, l.sub, accept))
  }

  /** authorize (382-449): a charge waiting for the card is resumed, a finished one is renewed. */
  function AuthorizePlan(c: Core): Option<Call> {
    var l := c.link;
    if l.mode == Manual then None
    else if l.sub.Some? && l.status == PastDue then None
    else if l.sub.Some? && l.sub.value < |c.subs| && l.status == Incomplete then
      match c.subs[l.sub.value].status
      case Unconfirmed => None
      case Running => Some(ResumeActive)
      case _ => if l.amount.None? then None else Some(FirstPrice(l.amount.value, true))
    else if l.status != Awaiting || l.amount.None? then None
    else if l.price.Some? then Some(CreateSub(l.price.value, false))
    else Some(FirstPrice(l.amount.value, false))
  }

  function Plan(c: Core, r: Request): Option<Call> {
    match r
    case SetRent(amount, wanted) => SetRentPlan(c.link, amount, wanted)
    case Respond(accept) => RespondPlan(c.link, accept)
    case Authorize => AuthorizePlan(c)
  }

  // ---- the steps of a call ----

  predicate StillRuns(c: Core, s: nat) {
    s < |c.subs| && c.subs[s].status != Ended
  }

  function PutLink(c: Core, l: Link): Core {
    c.(link := l)
  }

  function PutSub(c: Core, s: nat, x: Sub): Core
    requires s < |c.subs|
  {
    c.(subs := c.subs[s := x])
  }

  function AddPrice(c: Core, cents: nat): Core {
    c.(prices := c.prices + [cents])
  }

  function Goaled(l: Link, g: Goal): Link {
    match g
    case ToStop => l.(amount := None, price := None, status := NoRent, pending := None)
    case ToManual(cents) =>
      l.(amount := Some(cents), mode := Manual, price := None, status := Active, pending := None)
  }

  /** updateSubscription with a new price: refused once the subscription has ended. */
  function Switched(c: Core, s: nat, price: nat): Core
    requires s < |c.subs|
  {
    PutSub(c, s, c.subs[s].(price := price))
  }

  /** The member accepted: from here on this is what was agreed. */
  function Agreed(c: Core, s: nat, cents: nat): Core
    requires s < |c.subs| && c.subs[s].price < |c.prices|
  {
    var x := c.subs[s];
    PutSub(c, s, x.(last := cents, top := Max(x.top, cents)))
  }

  /** createSubscription under the key of its price: a repeated key gives the subscription it gave before. */
  function Subscribed(c: Core, price: nat, reply: Reply): Core
    requires price < |c.prices| && (price in c.keys ==> c.keys[price] < |c.subs|)
  {
    var cents := c.prices[price];
    if price in c.keys then
      var s := c.keys[price];
      if c.subs[s].status == Ended then c
      else PutSub(c, s, c.subs[s].(last := cents, top := Max(c.subs[s].top, cents)))
    else
      var born := if reply.paidAtOnce then Running else Unconfirmed;
      c.(subs := c.subs + [Sub(price, born, born, cents, cents)], keys := c.keys[price := |c.subs|])
  }

  /** The status authorize reads in Stripe's answer. */
  function ReplyStatus(c: Core, price: nat, reply: Reply): SubStatus
    requires price in c.keys ==> c.keys[price] < |c.subs|
  {
    if price !in c.keys then if reply.paidAtOnce then Running else Unconfirmed
    else if reply.stored then c.subs[c.keys[price]].born
    else c.subs[c.keys[price]].status
  }

  predicate CanGo(c: Core, q: Call) {
    match q
    case SwitchPrice(price, _, s, _) => s < |c.subs| && c.subs[s].status != Ended
    case AcceptedSwitch(price, _, s) => s < |c.subs| && c.subs[s].status != Ended
    case CreateSub(price, _) => price < |c.prices| && (price in c.keys ==> c.keys[price] < |c.subs|)
    case ClaimProposal(_, sub, _) =>
      sub.Some? ==> sub.value < |c.subs| && c.subs[sub.value].price < |c.prices|
    case _ => true
  }

  /** A step of a call: the database and Stripe after it, and what is left of the call. */
  function Go(c: Core, q: Call, reply: Reply): (Core, Option<Call>)
    requires CanGo(c, q)
  {
    var l := c.link;
    match q
    case CancelCharge(goal) =>
      if l.sub.None? then (c, Some(WriteGoal(goal)))
      else if l.sub.value >= |c.subs| then (c, Some(UnbindCharge(goal)))
      else (PutSub(c, l.sub.value, c.subs[l.sub.value].(status := Ended)), Some(UnbindCharge(goal)))
    case UnbindCharge(goal) => (PutLink(c, l.(sub := None, status := NoRent)), Some(WriteGoal(goal)))
    case WriteGoal(goal) => (PutLink(c, Goaled(l, goal)), None)
    case WriteCard(cents, read) => (PutLink(c, l.(mode := Card, status := NoRent)), Some(CardPath(read, cents)))
    case WriteProposal(cents) =>
      (PutLink(c, l.(pending := Some(Proposal(cents, c.stamp)))).(stamp := c.stamp + 1), None)
    case NewPrice(cents, s, status) => (AddPrice(c, cents), Some(SwitchPrice(|c.prices|, cents, s, status)))
    case SwitchPrice(price, cents, s, status) =>
      (Switched(c, s, price), Some(WriteRent(cents, Some(price), status, Some(s))))
    case WriteRent(cents, p, status, _) =>
      (PutLink(c, l.(amount := Some(cents), price := p, status := status, pending := None)), None)
    case ClaimProposal(proposal, sub, accept) =>
      if l.pending != Some(proposal) then (c, None)
      else
        var claimed := PutLink(c, l.(pending := None));
        if !accept then (claimed, None)
        else if sub.None? then (claimed, Some(WriteAccepted(proposal.cents, None, None)))
        else (Agreed(claimed, sub.value, proposal.cents), Some(AcceptedPrice(proposal.cents, sub.value)))
    case AcceptedPrice(cents, s) => (AddPrice(c, cents), Some(AcceptedSwitch(|c.prices|, cents, s)))
    case AcceptedSwitch(price, cents, s) =>
      (Switched(c, s, price), Some(WriteAccepted(cents, Some(price), Some(s))))
    case WriteAccepted(cents, p, _) => (PutLink(c, l.(amount := Some(cents), price := p)), None)
    case FirstPrice(cents, again) => (AddPrice(c, cents), Some(SavePrice(|c.prices|, again)))
    case SavePrice(price, again) => (PutLink(c, l.(price := Some(price))), Some(CreateSub(price, again)))
    case CreateSub(price, again) =>
      var d := Subscribed(c, price, reply);
      var status := ReplyStatus(c, price, reply);
      if status == Ended then (d, Some(ForgetPrice))
      else (d, Some(BindSub(d.keys[price], if status == Running then Active else Incomplete, again)))
    case BindSub(s, status, _) => (PutLink(c, l.(sub := Some(s), status := status)), None)
    case ForgetPrice => (PutLink(c, l.(price := None)), None)
    case ResumeActive => (PutLink(c, l.(status := Active)), None)
  }

  // ---- what happens besides the calls ----

  datatype Event =
    | Moves(s: nat, to: SubStatus)
    | Invoice(s: nat, paid: bool)
    | Deleted(s: nat)

  predicate CanHappen(c: Core, e: Event) {
    e.s < |c.subs| &&
    match e
    case Moves(s, _) => c.subs[s].status != Ended
    case Invoice(_, _) => true
    case Deleted(s) => c.subs[s].status == Ended
  }

  /** Stripe's own moves and its webhooks; handleSubscriptionDeleted is 1171-1186. */
  function Happens(c: Core, e: Event): Core
    requires CanHappen(c, e)
  {
    var l := c.link;
    match e
    case Moves(s, to) => PutSub(c, s, c.subs[s].(status := to))
    case Invoice(s, paid) =>
      if l.sub == Some(s) then PutLink(c, l.(status := if paid then Active else PastDue)) else c
    case Deleted(s) =>
      if l.sub == Some(s) then
        PutLink(c, l.(sub := None, status := if l.amount.Some? then Awaiting else NoRent, price := None, pending := None))
      else c
  }

  /**
   `cut` says that a call died between changing the price at Stripe and writing it on the row,
   `strays` are the subscriptions a renewal may have left behind: created and not bound when the
   call died, or bound and still running when it began.
   */
  datatype World = World(c: Core, calls: map<nat, Call>, cut: bool, strays: set<nat>)

  const START := World(Core(Link(None, Card, NoRent, None, None, None), [], [], map[], 0), map[], false, {})

  datatype Step =
    | Begin(p: nat, r: Request)
    | Act(p: nat, reply: Reply)
    | Crash(p: nat)
    | Outside(e: Event)

  /** Stripe charges a new price the row does not have yet. */
  predicate Ahead(q: Call) {
    (q.WriteRent? && q.sub.Some?) || (q.WriteAccepted? && q.sub.Some?)
  }

  /** A renewal of an unconfirmed charge that Stripe reports as overdue, not ended. */
  predicate RenewsRunning(c: Core, r: Request) {
    r.Authorize? && AuthorizePlan(c).Some? && AuthorizePlan(c).value.FirstPrice? && AuthorizePlan(c).value.again
    && c.link.sub.Some? && StillRuns(c, c.link.sub.value)
  }

  predicate Enabled(w: World, s: Step) {
    match s
    case Begin(p, r) => p !in w.calls && Plan(w.c, r).Some?
    case Act(p, _) => p in w.calls && CanGo(w.c, w.calls[p])
    case Crash(p) => p in w.calls
    case Outside(e) => CanHappen(w.c, e)
  }

  function Next(w: World, s: Step): World
    requires Enabled(w, s)
  {
    match s
    case Begin(p, r) =>
      w.(calls := w.calls[p := Plan(w.c, r).value], strays := w.strays + if RenewsRunning(w.c, r) then {w.c.link.sub.value} else {})
    case Act(p, reply) =>
      var (c, left) := Go(w.c, w.calls[p], reply);
      w.(c := c, calls := if left.Some? then w.calls[p := left.value] else w.calls - {p})
    case Crash(p) =>
      var q := w.calls[p];
      w.(calls := w.calls - {p}, cut := w.cut || Ahead(q), strays := w.strays + if q.BindSub? && q.again then {q.s} else {})
    case Outside(e) => w.(c := Happens(w.c, e))
  }

  predicate Legal(w: World, run: seq<Step>)
    decreases |run|
  {
    run == [] || (Enabled(w, run[0]) && Legal(Next(w, run[0]), run[1..]))
  }

  function After(w: World, run: seq<Step>): World
    requires Legal(w, run)
    decreases |run|
  {
    if run == [] then w else After(Next(w, run[0]), run[1..])
  }

  /** No call begins while another is under way; webhooks and Stripe may come in between its steps. */
  predicate Serial(w: World, run: seq<Step>)
    requires Legal(w, run)
    decreases |run|
  {
    run == [] || ((run[0].Begin? ==> w.calls == map[]) && Serial(Next(w, run[0]), run[1..]))
  }
}
