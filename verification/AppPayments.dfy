/**
 Refunds and disputes that begin at Stripe, merged into what the application stored
 (src/barbershop/app-payments.service.ts). Amounts are minor units of the charge's currency.
 */
module AppPayments {
  import opened Prelude

  const DAY := 86_400_000

  datatype Deposit = Deposit(amount: nat, paid: bool, marked: bool)

  datatype Prepaid = Prepaid(paidAt: bool, amount: nat, refunded: Option<nat>, marked: bool)

  datatype Tip = Tip(amount: nat, marked: bool)

  /** A highlight bought for a shop or a professional; `paid` until it is refunded. */
  datatype Purchase = Purchase(paid: bool, owner: nat, days: nat)

  datatype JobFee = JobFee(intent: Option<nat>, paid: bool, refunded: bool)

  /** What the payments say: club invoices, and deposits, prepayments, tips and purchases by payment intent. */
  datatype Books = Books(
    clubs: map<nat, Option<nat>>,
    deposits: map<nat, Deposit>,
    prepaids: map<nat, Prepaid>,
    tips: map<nat, Tip>,
    purchases: map<nat, Purchase>,
    featured: map<nat, int>,
    fees: map<nat, JobFee>)

  /** A refunded charge as the webhook brings it; `full` is Stripe's own flag. */
  datatype Charge = Charge(intent: Option<nat>, invoice: Option<nat>, amount: nat, refunded: nat, full: bool)

  // ---- one stored payment ----

  function ClubAfter(refunded: Option<nat>, c: Charge): Option<nat> {
    if refunded.None? || refunded.value < c.refunded then Some(c.refunded) else refunded
  }

  /** syncDepositRefund (484-502). */
  function DepositAfter(d: Deposit, c: Charge): Deposit {
    if d.marked || (!c.full && c.refunded < d.amount) then d else d.(paid := false, marked := true)
  }

  function Returned(p: Prepaid): nat {
    if p.refunded.Some? then p.refunded.value else 0
  }

  /** syncPrepaidRefund (504-531). */
  function PrepaidAfter(p: Prepaid, c: Charge): Prepaid {
    PrepaidWrite(p, p, c)
  }

  /** The write of syncPrepaidRefund, from the row it read to the row it finds. */
  function PrepaidWrite(read: Prepaid, found: Prepaid, c: Charge): Prepaid {
    if !read.paidAt || read.marked then found
    else
      var before := Returned(read);
      var next := Min(read.amount, Max(before, c.refunded));
      var full := c.full || (read.amount > 0 && next >= read.amount);
      if (next == before && !full) || found.marked then found
      else found.(refunded := Some(next), marked := full)
  }

  /** syncTipRefund (533-551). */
  function TipAfter(t: Tip, c: Charge): Tip {
    if t.marked || (!c.full && c.refunded < t.amount) then t else t.(marked := true)
  }

  /** The days of a refunded highlight leave its end, which moves back to now at most (459-470). */
  function Shortened(until: int, days: nat, now: int): int {
    Min(until, Max(until - days * DAY, now))
  }

  // ---- the books ----

  /** The event names a payment intent and money went back. */
  predicate Counts(c: Charge) {
    c.refunded > 0 && c.intent.Some?
  }

  function ClubsAfter(clubs: map<nat, Option<nat>>, c: Charge): map<nat, Option<nat>> {
    if c.refunded > 0 && c.invoice.Some? && c.invoice.value in clubs then
      clubs[c.invoice.value := ClubAfter(clubs[c.invoice.value], c)]
    else clubs
  }

  function DepositsAfter(deposits: map<nat, Deposit>, c: Charge): map<nat, Deposit> {
    if Counts(c) && c.intent.value in deposits then
      deposits[c.intent.value := DepositAfter(deposits[c.intent.value], c)]
    else deposits
  }

  function PrepaidsAfter(prepaids: map<nat, Prepaid>, c: Charge): map<nat, Prepaid> {
    if Counts(c) && c.intent.value in prepaids then
      prepaids[c.intent.value := PrepaidAfter(prepaids[c.intent.value], c)]
    else prepaids
  }

  function TipsAfter(tips: map<nat, Tip>, c: Charge): map<nat, Tip> {
    if Counts(c) && c.intent.value in tips then
      tips[c.intent.value := TipAfter(tips[c.intent.value], c)]
    else tips
  }

  function PurchasesAfter(purchases: map<nat, Purchase>, intent: nat): map<nat, Purchase> {
    if intent in purchases then purchases[intent := purchases[intent].(paid := false)] else purchases
  }

  function FeaturedAfter(purchases: map<nat, Purchase>, featured: map<nat, int>, intent: nat, now: int): map<nat, int> {
    if intent in purchases && purchases[intent].paid && purchases[intent].owner in featured then
      var p := purchases[intent];
      featured[p.owner := Shortened(featured[p.owner], p.days, now)]
    else featured
  }

  function FeeAfter(f: JobFee, intent: nat): JobFee {
    if f.intent == Some(intent) && f.paid && !f.refunded then JobFee(None, false, true) else f
  }

  /** revokePlatformPurchase (449-482). */
  function Revoked(b: Books, intent: nat, now: int): Books {
    b.(purchases := PurchasesAfter(b.purchases, intent),
       featured := FeaturedAfter(b.purchases, b.featured, intent, now),
       fees := map k | k in b.fees :: FeeAfter(b.fees[k], intent))
  }

  /** syncStripeRefund (407-424): only a full refund undoes a purchase of the platform's. */
  function Synced(b: Books, c: Charge, now: int): Books {
    var d := b.(clubs := ClubsAfter(b.clubs, c), deposits := DepositsAfter(b.deposits, c),
                prepaids := PrepaidsAfter(b.prepaids, c), tips := TipsAfter(b.tips, c));
    if Counts(c) && c.full then Revoked(d, c.intent.value, now) else d
  }

  /** Stripe's flag says that the whole charge went back, and the charge is the payment stored here. */
  predicate Consistent(b: Books, c: Charge) {
    && (c.full <==> c.refunded >= c.amount)
    && (c.intent.Some? ==>
          && (c.intent.value in b.deposits ==> b.deposits[c.intent.value].amount == c.amount)
          && (c.intent.value in b.prepaids ==>
                b.prepaids[c.intent.value].amount == c.amount && Returned(b.prepaids[c.intent.value]) <= c.amount)
          && (c.intent.value in b.tips ==> b.tips[c.intent.value].amount == c.amount))
  }

  function SyncedAll(b: Books, cs: seq<Charge>, now: int): Books
    decreases |cs|
  {
    if cs == [] then b else SyncedAll(Synced(b, cs[0], now), cs[1..], now)
  }

  // ---- disputes ----

  datatype Standing = NeedsResponse | UnderReview | Won | Lost | WarningClosed

  datatype Dispute = Dispute(id: nat, intent: Option<nat>, charge: Option<Charge>, amount: nat, standing: Standing)

  predicate Closing(s: Standing) {
    s in {Won, Lost, WarningClosed}
  }

  /** chargeOfLostDispute (379-400): the disputed amount seen as a refund of the charge. */
  function LostCharge(d: Dispute): Charge {
    var amount := if d.charge.Some? then d.charge.value.amount else d.amount;
    var lost := Max(d.amount, if d.charge.Some? then d.charge.value.refunded else 0);
    Charge(if d.charge.Some? && d.charge.value.intent.Some? then d.charge.value.intent else d.intent,
           if d.charge.Some? then d.charge.value.invoice else None,
           amount, Min(amount, lost), lost >= amount)
  }

  /** The stored disputes by id, with their last standing. */
  type Disputes = map<nat, Standing>

  predicate Closed(ds: Disputes, id: nat) {
    id in ds && Closing(ds[id])
  }

  /** recordDispute past its look at the stored dispute (362-370). */
  function Written(ds: Disputes, b: Books, d: Dispute, now: int): (Disputes, Books, bool) {
    (ds[d.id := d.standing], if d.standing == Lost && d.intent.Some? then Revoked(b, d.intent.value, now) else b,
     d.standing == Lost)
  }

  /** recordDispute (338-370): the disputes, the books, and whether the dispute was just lost. */
  function Recorded(ds: Disputes, b: Books, d: Dispute, now: int): (Disputes, Books, bool) {
    if Closed(ds, d.id) then (ds, b, false) else Written(ds, b, d, now)
  }

  /** handleDispute (stripe.controller.ts): a dispute just lost is synced as a refund of its charge. */
  function Handled(ds: Disputes, b: Books, d: Dispute, now: int): (Disputes, Books) {
    var (es, c, lost) := Recorded(ds, b, d, now);
    if lost then (es, Synced(c, LostCharge(d), now)) else (es, c)
  }
}
