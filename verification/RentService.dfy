/**
 The chair rent's calls run to their end without interference: each method updates the row and
 Stripe in place and is proved equal to the protocol's steps.
 */
module RentService {
  import opened Prelude
  import opened RentConsent
  import opened RentConsentSafety
  import opened RentConsentTheorems
  import opened RentOverlap

  /** Steps left in a call, at most. */
  function Left(q: Call): nat {
    match q
    case WriteCard(_, _) => 4
    case CancelCharge(_) => 3
    case NewPrice(_, _, _) => 3
    case ClaimProposal(_, _, _) => 4
    case AcceptedPrice(_, _) => 3
    case FirstPrice(_, _) => 4
    case SavePrice(_, _) => 3
    case CreateSub(_, _) => 2
    case UnbindCharge(_) => 2
    case SwitchPrice(_, _, _, _) => 2
    case AcceptedSwitch(_, _, _) => 2
    case _ => 1
  }

  /** The call from here to its end, or to the Stripe call that is refused. */
  function Done(c: Core, q: Call, reply: Reply): Core
    decreases Left(q)
  {
    if !CanGo(c, q) then c
    else
      var (d, left) := Go(c, q, reply);
      if left.None? then d else Done(d, left.value, reply)
  }

  function Answered(c: Core, r: Request, reply: Reply): Core {
    var q := Plan(c, r);
    if q.None? then c else Done(c, q.value, reply)
  }

  lemma {:induction false} DoneIsGood(c: Core, q: Call, reply: Reply)
    requires Good(c) && CallOk(c, q)
    ensures Good(Done(c, q, reply))
    decreases Left(q)
  {
    if CanGo(c, q) {
      GoKeepsGood(c, q, reply);
      var (d, left) := Go(c, q, reply);
      if left.Some? { DoneIsGood(d, left.value, reply); }
    }
  }

  lemma {:induction false} DoneIsSynced(c: Core, q: Call, reply: Reply)
    requires Good(c) && CallOk(c, q) && (Ahead(q) || Synced(c))
    ensures Synced(Done(c, q, reply))
    decreases Left(q)
  {
    Near(c, q);
    CanAlwaysGo(c, q);
    if CanGo(c, q) {
      GoKeepsGood(c, q, reply);
      GoKeepsSynced(c, q, reply);
      var (d, left) := Go(c, q, reply);
      if left.Some? { DoneIsSynced(d, left.value, reply); }
    }
  }

  /** A whole call keeps the invariant and leaves the charge equal to the rent. */
  lemma AnsweredIsGood(c: Core, r: Request, reply: Reply)
    requires Good(c)
    ensures Good(Answered(c, r, reply))
    ensures Synced(c) ==> Synced(Answered(c, r, reply))
  {
    var q := Plan(c, r);
    if q.Some? {
      PlanIsOk(c, r);
      DoneIsGood(c, q.value, reply);
      if Synced(c) { DoneIsSynced(c, q.value, reply); }
    }
  }

  /** One step of a call, then the rest. */
  lemma Unfold(c: Core, q: Call, reply: Reply) returns (d: Core, left: Option<Call>)
    requires CanGo(c, q)
    ensures (d, left) == Go(c, q, reply)
    ensures Done(c, q, reply) == if left.None? then d else Done(d, left.value, reply)
  {
    d := Go(c, q, reply).0;
    left := Go(c, q, reply).1;
  }

  /** An accepted rise is what the card is charged from then on, and what the member agreed to. */
  lemma AcceptedRiseIsCharged(c: Core)
    requires Good(c) && c.link.pending.Some? && c.link.sub.Some? && StillRuns(c, c.link.sub.value)
    ensures var v := Answered(c, Respond(true), ANY); var s := c.link.sub.value; var cents := c.link.pending.value.cents;
      && Charges(v, Some(s), cents) && StillRuns(v, s) && v.subs[s].last == cents
      && v.link.amount == Some(cents) && v.link.pending.None?
  {
    assert SubOk(c, c.link.sub.value);
    var d, left := Unfold(c, ClaimProposal(c.link.pending.value, c.link.sub, true), ANY);
    d, left := Unfold(d, left.value, ANY);
    d, left := Unfold(d, left.value, ANY);
    d, left := Unfold(d, left.value, ANY);
  }

  /** A rent not above the running one is charged at once, and the rise that waited is dropped. */
  lemma LowerRentIsCharged(c: Core, cents: nat)
    requires Good(c) && c.link.sub.Some? && StillRuns(c, c.link.sub.value)
    requires MIN_RENT <= cents <= MAX_RENT && cents < Paying(c.link)
    ensures var v := Answered(c, SetRent(Some(cents), Some(Card)), ANY); var s := c.link.sub.value;
      Charges(v, Some(s), cents) && StillRuns(v, s) && v.link.amount == Some(cents) && v.link.pending.None?
  {
    var d, left := Unfold(c, NewPrice(cents, c.link.sub.value, c.link.status), ANY);
    d, left := Unfold(d, left.value, ANY);
    d, left := Unfold(d, left.value, ANY);
  }

  /** The first authorization binds a new subscription that charges the rent the member saw. */
  lemma FirstAuthorizationBinds(c: Core, reply: Reply)
    requires Good(c) && c.link.mode == Card && c.link.status == Awaiting && c.link.amount.Some? && c.link.price.None?
    ensures var v := Answered(c, Authorize, reply); var s := |c.subs|;
      && v.link.sub == Some(s) && StillRuns(v, s) && Charges(v, Some(s), c.link.amount.value)
      && v.link.status == (if reply.paidAtOnce then Active else Incomplete) && v.subs[s].last == c.link.amount.value
  {
    assert KeyOk(c, |c.prices|);
    var d, left := Unfold(c, FirstPrice(c.link.amount.value, false), reply);
    d, left := Unfold(d, left.value, reply);
    d, left := Unfold(d, left.value, reply);
    d, left := Unfold(d, left.value, reply);
  }

  // ---- what the other calls leave ----

  /** Ending the rent leaves no rent, no charge and no proposal, and ends the bound subscription. */
  lemma StopLeavesNoRent(c: Core, amount: Option<int>, wanted: Option<Mode>)
    requires Good(c) && (amount.None? || amount.value == 0)
    ensures var v := Answered(c, SetRent(amount, wanted), ANY);
      && v.link == Link(None, c.link.mode, NoRent, None, None, None) && v.prices == c.prices && v.keys == c.keys
      && (c.link.sub.Some? ==> !StillRuns(v, c.link.sub.value))
  {
    var d, left := Unfold(c, CancelCharge(ToStop), ANY);
    d, left := Unfold(d, left.value, ANY);
    if left.Some? { d, left := Unfold(d, left.value, ANY); }
  }

  /** Moving to payment by hand leaves the new rent, nothing on the card, and ends the bound subscription. */
  lemma ByHandLeavesTheRent(c: Core, cents: nat)
    requires Good(c) && MIN_RENT <= cents <= MAX_RENT
    requires c.link.amount != Some(cents) || c.link.mode != Manual || c.link.status == NoRent
    ensures var v := Answered(c, SetRent(Some(cents), Some(Manual)), ANY);
      && v.link == Link(Some(cents), Manual, Active, None, None, None) && v.prices == c.prices && v.keys == c.keys
      && (c.link.sub.Some? ==> !StillRuns(v, c.link.sub.value))
  {
    var d, left := Unfold(c, CancelCharge(ToManual(cents)), ANY);
    d, left := Unfold(d, left.value, ANY);
    if left.Some? { d, left := Unfold(d, left.value, ANY); }
  }

  /** A higher rent on a charged row changes nothing but the proposal it makes. */
  lemma HigherRentWaits(c: Core, cents: nat)
    requires c.link.sub.Some? && c.link.mode == Card && MIN_RENT <= cents <= MAX_RENT && cents > Paying(c.link)
    ensures var v := Answered(c, SetRent(Some(cents), None), ANY);
      v == c.(link := c.link.(pending := Some(Proposal(cents, c.stamp))), stamp := c.stamp + 1)
  {
    var d, left := Unfold(c, WriteProposal(cents), ANY);
  }

  /** Without a charge the new rent, whichever it is and however it was paid before, waits for the member's card. */
  lemma UnchargedRentWaitsForTheCard(c: Core, cents: nat)
    requires c.link.sub.None? && MIN_RENT <= cents <= MAX_RENT
    requires c.link.amount != Some(cents) || c.link.mode != Card || c.link.status == NoRent
    ensures var v := Answered(c, SetRent(Some(cents), Some(Card)), ANY);
      v == c.(link := Link(Some(cents), Card, Awaiting, None, None, None))
  {
    var q := SetRentPlan(c.link, Some(cents), Some(Card)).value;
    var d, left := Unfold(c, q, ANY);
    if left.Some? { d, left := Unfold(d, left.value, ANY); }
  }

  /** Declining a rise takes it off the row and changes nothing else. */
  lemma DeclinedRiseIsDropped(c: Core)
    requires Good(c)
    ensures Answered(c, Respond(false), ANY) == c.(link := c.link.(pending := None))
  {
    if c.link.pending.Some? {
      if c.link.sub.Some? { assert SubOk(c, c.link.sub.value); }
      var d, left := Unfold(c, ClaimProposal(c.link.pending.value, c.link.sub, false), ANY);
    }
  }

  /** Authorizing again what was created and not bound binds it and creates none. */
  lemma RetryBindsTheSame(c: Core, reply: Reply)
    requires Good(c) && c.link.mode == Card && c.link.status == Awaiting && c.link.amount.Some?
    requires c.link.price.Some? && c.link.price.value in c.keys && StillRuns(c, c.keys[c.link.price.value])
    ensures var v := Answered(c, Authorize, reply);
      v.link.sub == Some(c.keys[c.link.price.value]) && |v.subs| == |c.subs| && v.keys == c.keys && v.prices == c.prices
  {
    assert KeyOk(c, c.link.price.value) && SubOk(c, c.keys[c.link.price.value]);
    var d, left := Unfold(c, CreateSub(c.link.price.value, false), reply);
    d, left := Unfold(d, left.value, reply);
  }

  /** A charge the card confirmed meanwhile is active; one still to be confirmed, or none by card, is left alone. */
  lemma ConfirmedChargeIsActive(c: Core, reply: Reply, s: nat)
    requires Good(c) && c.link.sub == Some(s) && c.link.status == Incomplete && c.subs[s].status in {Unconfirmed, Running}
    ensures Answered(c, Authorize, reply) == if c.subs[s].status == Running then c.(link := c.link.(status := Active)) else c
  {
    if c.subs[s].status == Running { var d, left := Unfold(c, ResumeActive, reply); }
  }

  /** Told that the key's subscription ended, authorize binds nothing, and the next one binds a new one. */
  lemma EndedKeyIsReplaced(c: Core, reply: Reply, next: Reply)
    requires Good(c) && c.link.mode == Card && c.link.status == Awaiting && c.link.amount.Some? && !reply.stored
    requires c.link.price.Some? && c.link.price.value in c.keys && !StillRuns(c, c.keys[c.link.price.value])
    ensures var v := Answered(c, Authorize, reply);
      && v == c.(link := c.link.(price := None))
      && Answered(v, Authorize, next).link.sub == Some(|c.subs|) && StillRuns(Answered(v, Authorize, next), |c.subs|)
  {
    assert KeyOk(c, c.link.price.value) && SubOk(c, c.keys[c.link.price.value]);
    var d, left := Unfold(c, CreateSub(c.link.price.value, false), reply);
    d, left := Unfold(d, left.value, reply);
    AnsweredIsGood(c, Authorize, reply);
    FirstAuthorizationBinds(Answered(c, Authorize, reply), next);
  }

  /** A charge past due is not created again: the card changes at Stripe and the row waits for its invoice. */
  lemma OverdueRowIsLeftAlone(c: Core, reply: Reply)
    requires c.link.sub.Some? && c.link.status == PastDue
    ensures Answered(c, Authorize, reply) == c
  {
  }

  /** An invoice of the bound subscription says whether the rent is paid; any other says nothing. */
  lemma InvoiceTellsTheStatus(c: Core, s: nat, paid: bool)
    requires CanHappen(c, Invoice(s, paid))
    ensures Happens(c, Invoice(s, paid)) ==
      if c.link.sub != Some(s) then c else c.(link := c.link.(status := if paid then Active else PastDue))
  {
  }

  // ---- charges a call leaves running ----

  /** Ending the rent ends the subscription the row has, and exactly that one: any other keeps charging. */
  lemma StopEndsOnlyTheBound(c: Core, wanted: Option<Mode>, s: nat)
    requires Good(c) && StillRuns(c, s)
    ensures StillRuns(Answered(c, SetRent(None, wanted), ANY), s) <==> c.link.sub != Some(s)
  {
    var d, left := Unfold(c, CancelCharge(ToStop), ANY);
    d, left := Unfold(d, left.value, ANY);
    if left.Some? { d, left := Unfold(d, left.value, ANY); }
  }

  /**
   A renewal of a first charge, ended or overdue, always creates a subscription of its own and
   ends none: any that ran before runs beside it, the bound one if it was overdue, one that a
   cut renewal created if it still runs.
   */
  lemma RenewalRunsBesides(c: Core, reply: Reply, t: nat)
    requires Good(c) && c.link.mode == Card && c.link.status == Incomplete && c.link.amount.Some? && c.link.sub.Some?
    requires c.link.sub.value < |c.subs| && c.subs[c.link.sub.value].status in {Overdue, Ended} && t < |c.subs|
    ensures var v := Answered(c, Authorize, reply); var u := |c.subs|;
      v.link.sub == Some(u) && StillRuns(v, u) && (StillRuns(v, t) <==> StillRuns(c, t))
  {
    assert KeyOk(c, |c.prices|);
    var d, left := Unfold(c, FirstPrice(c.link.amount.value, true), reply);
    d, left := Unfold(d, left.value, reply);
    d, left := Unfold(d, left.value, reply);
    d, left := Unfold(d, left.value, reply);
  }

  /**
   With a running subscription on the row, authorizing creates another exactly when the row still
   waits for the card to be confirmed and Stripe has the subscription overdue.
   */
  lemma OverdueIsRenewedBeside(c: Core, reply: Reply, s: nat)
    requires Good(c) && c.link.sub == Some(s) && StillRuns(c, s)
    ensures var v := Answered(c, Authorize, reply);
      && StillRuns(v, s)
      && ((exists u: nat :: |c.subs| <= u && StillRuns(v, u)) <==>
            c.link.status == Incomplete && c.subs[s].status == Overdue)
  {
    if c.link.status == Incomplete && c.subs[s].status == Overdue {
      RenewalRunsBesides(c, reply, s);
      assert StillRuns(Answered(c, Authorize, reply), |c.subs|);
    } else {
      var q := Plan(c, Authorize);
      if q.Some? { var d, left := Unfold(c, q.value, reply); }
    }
  }

  /**
   A setRent on a card row whose charge is within every agreement leaves it above them exactly
   when its amount is, and does not raise the rent on the row.
   */
  lemma OverreachLetsTheChargeRise(c: Core, s: nat, amount: Option<int>, wanted: Option<Mode>)
    requires BoundTo(c, s) && c.link.mode == Card && SubWithin(c, s)
    ensures var v := Answered(c, SetRent(amount, wanted), ANY);
      StillRuns(v, s) && v.subs[s].price < |v.prices| && Charge(v, s) > v.subs[s].top <==>
        && amount.Some? && MIN_RENT <= amount.value <= MAX_RENT && wanted != Some(Manual)
        && c.subs[s].top < amount.value <= Paying(c.link)
        && (amount.value == Paying(c.link) ==> c.link.status == NoRent)
  {
    var q := Plan(c, SetRent(amount, wanted));
    if q.Some? {
      var d, left := Unfold(c, q.value, ANY);
      if left.Some? { d, left := Unfold(d, left.value, ANY); }
      if left.Some? { d, left := Unfold(d, left.value, ANY); }
    }
  }

  // ---- what the calls answer ----

  datatype RentAnswer =
    | Unchanged | Stopped | ByHand | Proposed | Lowered | WaitsForCard | OutOfRange | StripeRefused

  datatype ResponseAnswer = NothingPending | Declined | AcceptedRent | SwitchRefused

  /** `Confirm` gives the client secret of a charge the card still has to confirm. */
  datatype AuthorizeAnswer =
    | NotByCard | CardReplaced | CardRefused | NothingToAuthorize | TryAgain | Confirm(s: nat) | Charging(s: nat)

  function CardAnswer(c: Core, q: Call): RentAnswer {
    if q.WriteProposal? then Proposed
    else if q.NewPrice? then if StillRuns(c, q.s) then Lowered else StripeRefused
    else WaitsForCard
  }

  function SetRentAnswer(c: Core, amount: Option<int>, wanted: Option<Mode>): RentAnswer {
    if amount.None? || amount.value == 0 then Stopped
    else if amount.value < MIN_RENT || amount.value > MAX_RENT then OutOfRange
    else
      var q := SetRentPlan(c.link, amount, wanted);
      if q.None? then Unchanged
      else if q.value.CancelCharge? then ByHand
      else if q.value.WriteCard? then CardAnswer(c, CardPath(q.value.read, q.value.cents))
      else CardAnswer(c, q.value)
  }

  function RespondAnswer(c: Core, accept: bool): ResponseAnswer {
    if c.link.pending.None? then NothingPending
    else if !accept then Declined
    else if c.link.sub.Some? && !StillRuns(c, c.link.sub.value) then SwitchRefused
    else AcceptedRent
  }

  /** The answer of a created or repeated subscription, by the status Stripe gives. */
  function SubscribeAnswer(s: nat, status: SubStatus): AuthorizeAnswer {
    if status == Ended then TryAgain else if status == Running then Charging(s) else Confirm(s)
  }

  function AuthorizeAnswered(c: Core, reply: Reply): AuthorizeAnswer
    requires Good(c)
  {
    var l := c.link;
    if l.mode == Manual then NotByCard
    else if l.sub.Some? && l.status == PastDue then if reply.paidAtOnce then CardReplaced else CardRefused
    else if l.sub.Some? && l.status == Incomplete && c.subs[l.sub.value].status == Unconfirmed then Confirm(l.sub.value)
    else if l.sub.Some? && l.status == Incomplete && c.subs[l.sub.value].status == Running then Charging(l.sub.value)
    else if l.amount.None? || (l.status != Awaiting && !(l.sub.Some? && l.status == Incomplete)) then NothingToAuthorize
    else if l.status == Awaiting && l.price.Some? && l.price.value in c.keys then
      assert KeyOk(c, l.price.value);
      SubscribeAnswer(c.keys[l.price.value], ReplyStatus(c, l.price.value, reply))
    else SubscribeAnswer(|c.subs|, if reply.paidAtOnce then Running else Unconfirmed)
  }

  /** setRent and respondRentIncrease read no answer of Stripe's that could vary. */
  const ANY := Reply(false, false)

  class ChairRentService {
    var link: Link
    var prices: seq<nat>
    var subs: seq<Sub>
    var keys: map<nat, nat>
    var stamp: nat

    ghost function Now(): Core
      reads this
    {
      Core(link, prices, subs, keys, stamp)
    }

    constructor ()
      ensures Now() == START.c
    {
      link := Link(None, Card, NoRent, None, None, None);
      prices, subs, keys, stamp := [], [], map[], 0;
    }

    /** setRent (125-283). */
    method SetRent(amount: Option<int>, wanted: Option<Mode>) returns (answer: RentAnswer)
      requires Good(Now())
      modifies this
      ensures Now() == Answered(old(Now()), RentConsent.SetRent(amount, wanted), ANY)
      ensures answer == SetRentAnswer(old(Now()), amount, wanted)
      ensures answer.OutOfRange? || answer.Unchanged? ==> Now() == old(Now())
      ensures Good(Now()) && (old(Synced(Now())) ==> Synced(Now()))
    {
      ghost var c := Now();
      AnsweredIsGood(c, RentConsent.SetRent(amount, wanted), ANY);
      if amount.None? || amount.value == 0 {
        StopCharge(ToStop);
        return Stopped;
      }
      if amount.value < MIN_RENT || amount.value > MAX_RENT { return OutOfRange; }
      var cents: nat := amount.value;
      var mode := if wanted.Some? then wanted.value else link.mode;
      if link.amount == Some(cents) && mode == link.mode && link.status != NoRent { return Unchanged; }
      if mode == Manual {
        StopCharge(ToManual(cents));
        return ByHand;
      }
      ghost var q := SetRentPlan(link, amount, wanted).value;
      if link.mode == Manual {
        link := link.(mode := Card, status := NoRent);
        ghost var d, left := Unfold(c, q, ANY);
        q := left.value;
      }
      answer := ChargeCard(cents);
    }

    /** The card path of setRent: propose a rise, lower a charge, or wait for the card (225-283). */
    method ChargeCard(cents: nat) returns (answer: RentAnswer)
      requires link.sub.Some? ==> link.sub.value < |subs|
      modifies this
      ensures Now() == Done(old(Now()), CardPath(old(link), cents), ANY)
      ensures answer == CardAnswer(old(Now()), CardPath(old(link), cents))
    {
      if link.sub.Some? && cents > Paying(link) {
        link := link.(pending := Some(Proposal(cents, stamp)));
        stamp := stamp + 1;
        return Proposed;
      }
      if link.sub.Some? {
        var s := link.sub.value;
        ghost var d, left := Unfold(Now(), NewPrice(cents, s, link.status), ANY);
        var price := |prices|;
        prices := prices + [cents];
        if subs[s].status == Ended { return StripeRefused; }
        d, left := Unfold(d, left.value, ANY);
        subs := subs[s := subs[s].(price := price)];
        link := link.(amount := Some(cents), price := Some(price), pending := None);
        return Lowered;
      }
      link := link.(amount := Some(cents), price := None, status := Awaiting, pending := None);
      return WaitsForCard;
    }

    /** cancelChairRentsOfBarbershops, then the row of a rent that left the card. */
    method StopCharge(goal: Goal)
      requires Good(Now())
      modifies this
      ensures Now() == Done(old(Now()), CancelCharge(goal), ANY)
    {
      ghost var c, left := Unfold(Now(), CancelCharge(goal), ANY);
      c, left := Unfold(c, left.value, ANY);
      if left.Some? { c, left := Unfold(c, left.value, ANY); }
      if link.sub.Some? {
        var s := link.sub.value;
        if s < |subs| { subs := subs[s := subs[s].(status := Ended)]; }
        link := link.(sub := None, status := NoRent);
      }
      match goal
      case ToStop => link := link.(amount := None, price := None, status := NoRent, pending := None);
      case ToManual(cents) =>
        link := link.(amount := Some(cents), mode := Manual, price := None, status := Active, pending := None);
    }

    /** respondRentIncrease (290-345). */
    method Respond(accept: bool) returns (answer: ResponseAnswer)
      requires Good(Now())
      modifies this
      ensures Now() == Answered(old(Now()), RentConsent.Respond(accept), ANY)
      ensures answer == RespondAnswer(old(Now()), accept)
      ensures answer.NothingPending? ==> Now() == old(Now())
      ensures Good(Now()) && (old(Synced(Now())) ==> Synced(Now()))
    {
      ghost var c := Now();
      AnsweredIsGood(c, RentConsent.Respond(accept), ANY);
      if link.pending.None? { return NothingPending; }
      var cents := link.pending.value.cents;
      if link.sub.Some? { assert SubOk(c, link.sub.value); }
      ghost var d, left := Unfold(c, ClaimProposal(link.pending.value, link.sub, accept), ANY);
      link := link.(pending := None);
      if !accept { return Declined; }
      if link.sub.None? {
        link := link.(amount := Some(cents), price := None);
        return AcceptedRent;
      }
      var s := link.sub.value;
      var x := subs[s];
      subs := subs[s := x.(last := cents, top := Max(x.top, cents))];
      var ok := SwitchToAccepted(cents, s);
      return if ok then AcceptedRent else SwitchRefused;
    }

    /** The accepted rent goes to Stripe, then to the row (316-329). */
    method SwitchToAccepted(cents: nat, s: nat) returns (ok: bool)
      requires s < |subs|
      modifies this
      ensures Now() == Done(old(Now()), AcceptedPrice(cents, s), ANY)
      ensures ok <==> StillRuns(old(Now()), s)
    {
      ghost var d, left := Unfold(Now(), AcceptedPrice(cents, s), ANY);
      var price := |prices|;
      prices := prices + [cents];
      if subs[s].status == Ended { return false; }
      d, left := Unfold(d, left.value, ANY);
      subs := subs[s := subs[s].(price := price)];
      link := link.(amount := Some(cents), price := Some(price));
      return true;
    }

    /** authorize (352-506): the member's card pays from now on. */
    method Authorize(reply: Reply) returns (answer: AuthorizeAnswer)
      requires Good(Now())
      modifies this
      ensures Now() == Answered(old(Now()), RentConsent.Authorize, reply)
      ensures answer == AuthorizeAnswered(old(Now()), reply)
      ensures answer.Charging? || answer.Confirm? ==> link.sub == Some(answer.s)
      ensures Good(Now()) && (old(Synced(Now())) ==> Synced(Now()))
    {
      ghost var c := Now();
      AnsweredIsGood(c, RentConsent.Authorize, reply);
      if link.mode == Manual { return NotByCard; }
      if link.sub.Some? && link.status == PastDue {
        return if reply.paidAtOnce then CardReplaced else CardRefused;
      }
      var again := false;
      if link.sub.Some? && link.status == Incomplete {
        var status := subs[link.sub.value].status;
        if status == Unconfirmed { return Confirm(link.sub.value); }
        if status == Running {
          link := link.(status := Active);
          return Charging(link.sub.value);
        }
        again := true;
      }
      if (!again && link.status != Awaiting) || link.amount.None? { return NothingToAuthorize; }
      if again || link.price.None? {
        assert KeyOk(c, |prices|);
        answer := SubscribeAtNewPrice(again, reply);
      } else {
        assert KeyOk(c, link.price.value);
        answer := Subscribe(link.price.value, again, reply);
      }
    }

    /** A new price, saved on the row before the subscription is created (449-463). */
    method SubscribeAtNewPrice(again: bool, reply: Reply) returns (answer: AuthorizeAnswer)
      requires link.amount.Some? && |prices| !in keys
      modifies this
      ensures Now() == Done(old(Now()), FirstPrice(old(link).amount.value, again), reply)
      ensures answer == SubscribeAnswer(|old(subs)|, if reply.paidAtOnce then Running else Unconfirmed)
      ensures link.sub == Some(|old(subs)|)
    {
      var price := |prices|;
      ghost var d, left := Unfold(Now(), FirstPrice(link.amount.value, again), reply);
      d, left := Unfold(d, left.value, reply);
      prices := prices + [link.amount.value];
      link := link.(price := Some(price));
      answer := Subscribe(price, again, reply);
    }

    /** createSubscription and what the row keeps of it (464-495). */
    method Subscribe(price: nat, again: bool, reply: Reply) returns (answer: AuthorizeAnswer)
      requires price < |prices| && (price in keys ==> keys[price] < |subs|)
      modifies this
      ensures Now() == Done(old(Now()), CreateSub(price, again), reply)
      ensures answer == SubscribeAnswer(if price in old(keys) then old(keys)[price] else |old(subs)|,
                                        ReplyStatus(old(Now()), price, reply))
      ensures answer != TryAgain ==> link.sub == Some(if price in old(keys) then old(keys)[price] else |old(subs)|)
    {
      var s: nat;
      var status: SubStatus;
      var cents := prices[price];
      if price in keys {
        s := keys[price];
        status := if reply.stored then subs[s].born else subs[s].status;
        if subs[s].status != Ended {
          subs := subs[s := subs[s].(last := cents, top := Max(subs[s].top, cents))];
        }
      } else {
        s := |subs|;
        status := if reply.paidAtOnce then Running else Unconfirmed;
        subs := subs + [Sub(price, status, status, cents, cents)];
        keys := keys[price := s];
      }
      if status == Ended {
        link := link.(price := None);
      } else {
        link := link.(sub := Some(s), status := if status == Running then Active else Incomplete);
      }
      return SubscribeAnswer(s, status);
    }

    /** handleSubscriptionDeleted (1171-1186). */
    method HandleSubscriptionDeleted(s: nat) returns (mine: bool)
      requires Good(Now()) && CanHappen(Now(), Deleted(s))
      modifies this
      ensures Now() == Happens(old(Now()), Deleted(s)) && Good(Now())
      ensures old(Synced(Now())) ==> Synced(Now())
      ensures mine <==> old(link).sub == Some(s)
      ensures mine ==> Plan(Now(), RentConsent.Authorize) == Some(FirstPrice(Paying(old(link)), false))
    {
      ghost var c := Now();
      EventKeepsLink(c, Deleted(s));
      mine := link.sub == Some(s);
      if mine {
        link := link.(sub := None, status := if link.amount.Some? then Awaiting else NoRent, price := None, pending := None);
      }
      forall t: nat ensures SubOk(Now(), t) { assert SubOk(c, t); }
      forall p: nat ensures KeyOk(Now(), p) { assert KeyOk(c, p); }
    }
  }
}
