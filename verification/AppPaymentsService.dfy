/** The service's methods, updating what is stored in place and proved equal to the books' functions. */
module AppPaymentsService {
  import opened Prelude
  import opened AppPayments
  import opened AppPaymentsTheorems

  /** What Stripe answers to a refund of a tip; `Silent` when the call dies before an answer. */
  datatype StripeAnswer = Accepted | AlreadyRefunded | Refused | Silent

  datatype TipOutcome = TipReturned | TipNotFound | TipMarked | StripeRefused | Died

  class AppPaymentsService {
    var clubs: map<nat, Option<nat>>
    var deposits: map<nat, Deposit>
    var prepaids: map<nat, Prepaid>
    var tips: map<nat, Tip>
    var purchases: map<nat, Purchase>
    var featured: map<nat, int>
    var fees: map<nat, JobFee>
    var disputes: Disputes
    // Stripe: the refunds it made, under keys it remembers
    var keys: set<nat>
    var refunds: seq<nat>

    ghost function Now(): Books
      reads this
    {
      Books(clubs, deposits, prepaids, tips, purchases, featured, fees)
    }

    /** Stripe refunds a tip once: every refund used up the tip's key. */
    ghost predicate OncePerTip()
      reads this
    {
      && (forall i :: i in refunds ==> i in keys)
      && (forall j, k :: 0 <= j < k < |refunds| ==> refunds[j] != refunds[k])
    }

    constructor ()
      ensures Now() == Books(map[], map[], map[], map[], map[], map[], map[]) && disputes == map[] && OncePerTip()
    {
      clubs, deposits, prepaids, tips := map[], map[], map[], map[];
      purchases, featured, fees, disputes := map[], map[], map[], map[];
      keys, refunds := {}, [];
    }

    /** syncStripeRefund (407-441) and its helpers. */
    method SyncStripeRefund(c: Charge, now: int)
      modifies this`clubs, this`deposits, this`prepaids, this`tips, this`purchases, this`featured, this`fees
      ensures Now() == Synced(old(Now()), c, now)
    {
      if c.refunded > 0 && c.invoice.Some? && c.invoice.value in clubs {
        var before := clubs[c.invoice.value];
        if before.None? || before.value < c.refunded {
          clubs := clubs[c.invoice.value := Some(c.refunded)];
        }
        assert clubs == ClubsAfter(old(clubs), c);
      }
      if c.intent.None? || c.refunded == 0 { return; }
      var i := c.intent.value;
      SyncDeposit(i, c);
      SyncPrepaid(i, c);
      SyncTip(i, c);
      if c.full { RevokePlatformPurchase(i, now); }
    }

    method SyncDeposit(i: nat, c: Charge)
      requires Counts(c) && c.intent == Some(i)
      modifies this`deposits
      ensures deposits == DepositsAfter(old(deposits), c)
    {
      if i !in deposits || deposits[i].marked {
        assert i in deposits ==> deposits[i := deposits[i]] == deposits;
        return;
      }
      if !c.full && c.refunded < deposits[i].amount {
        assert deposits[i := deposits[i]] == deposits;
        return;
      }
      deposits := deposits[i := deposits[i].(paid := false, marked := true)];
    }

    method SyncPrepaid(i: nat, c: Charge)
      requires Counts(c) && c.intent == Some(i)
      modifies this`prepaids
      ensures prepaids == PrepaidsAfter(old(prepaids), c)
    {
      if i !in prepaids { return; }
      assert prepaids[i := prepaids[i]] == prepaids;
      var p := prepaids[i];
      if !p.paidAt || p.marked { return; }
      var before := Returned(p);
      var next := Min(p.amount, Max(before, c.refunded));
      var full := c.full || (p.amount > 0 && next >= p.amount);
      if next == before && !full { return; }
      prepaids := prepaids[i := p.(refunded := Some(next), marked := full)];
    }

    method SyncTip(i: nat, c: Charge)
      requires Counts(c) && c.intent == Some(i)
      modifies this`tips
      ensures tips == TipsAfter(old(tips), c)
    {
      if i !in tips { return; }
      assert tips[i := tips[i]] == tips;
      if tips[i].marked || (!c.full && c.refunded < tips[i].amount) { return; }
      tips := tips[i := tips[i].(marked := true)];
    }

    /** revokePlatformPurchase (449-482). */
    method RevokePlatformPurchase(intent: nat, now: int)
      modifies this`purchases, this`featured, this`fees
      ensures Now() == Revoked(old(Now()), intent, now)
    {
      if intent in purchases && purchases[intent].paid {
        var p := purchases[intent];
        purchases := purchases[intent := p.(paid := false)];
        if p.owner in featured {
          var until := featured[p.owner];
          featured := featured[p.owner := Min(until, Max(until - p.days * DAY, now))];
        }
      } else {
        assert intent in purchases ==> purchases[intent := purchases[intent].(paid := false)] == purchases;
      }
      fees := map k | k in fees :: FeeAfter(fees[k], intent);
    }

    /** recordDispute (338-370): a closed dispute stays as it is. */
    method RecordDispute(d: Dispute, now: int) returns (lost: bool)
      modifies this`disputes, this`purchases, this`featured, this`fees
      ensures (disputes, Now(), lost) == Recorded(old(disputes), old(Now()), d, now)
    {
      if d.id in disputes && Closing(disputes[d.id]) { return false; }
      disputes := disputes[d.id := d.standing];
      if d.standing == Lost && d.intent.Some? { RevokePlatformPurchase(d.intent.value, now); }
      return d.standing == Lost;
    }

    /** handleDispute of the Stripe webhook, without the plan and rent refunds it also forwards. */
    method HandleDispute(d: Dispute, now: int)
      modifies this
      ensures (disputes, Now()) == Handled(old(disputes), old(Now()), d, now)
      ensures keys == old(keys) && refunds == old(refunds)
    {
      var lost := RecordDispute(d, now);
      if lost { SyncStripeRefund(LostCharge(d), now); }
    }

    /**
     refundTip (285-321): the mark first, so that two clicks do not refund twice, then Stripe;
     the mark goes only if Stripe refused.
     */
    method RefundTip(i: nat, answer: StripeAnswer) returns (r: TipOutcome)
      requires OncePerTip()
      modifies this`tips, this`keys, this`refunds
      ensures OncePerTip()
      ensures r == TipNotFound <==> i !in old(tips)
      ensures r == TipMarked <==> i in old(tips) && old(tips)[i].marked
      ensures r == StripeRefused <==> i in old(tips) && !old(tips)[i].marked && answer == Refused
      ensures r == Died <==> i in old(tips) && !old(tips)[i].marked && answer == Silent
      ensures tips == if r in {TipReturned, Died} then old(tips)[i := old(tips)[i].(marked := true)] else old(tips)
      ensures refunds == if r == TipReturned && answer == Accepted && i !in old(keys) then old(refunds) + [i] else old(refunds)
      ensures r == TipReturned && answer == Accepted ==> i in keys
    {
      if i !in tips { return TipNotFound; }
      if tips[i].marked { return TipMarked; }
      ghost var before := tips;
      tips := tips[i := tips[i].(marked := true)];
      match answer
      case Accepted =>
        if i !in keys {
          keys := keys + {i};
          refunds := refunds + [i];
        }
        return TipReturned;
      case AlreadyRefunded => return TipReturned;
      case Refused =>
        tips := tips[i := tips[i].(marked := false)];
        assert tips == before;
        return StripeRefused;
      case Silent => return Died;
    }
  }
}
