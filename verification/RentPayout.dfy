/**
 What the platform passes on to the space: card rent less the fee of when it was charged
 (src/barbershop/chair-rent.service.ts, payoutBalance). Cents are integers, percents are exact.
 */
module RentPayout {
  import opened Prelude
  import opened Sums
  import opened RentLedger

  /** Math.round: to the nearest integer, halves up. */
  function Round(x: real): (n: int)
    ensures n as real - 0.5 <= x < n as real + 0.5
  {
    (x + 0.5).Floor
  }

  function Exact(net: nat, percent: real): real {
    net as real * percent / 100.0
  }

  function Fee(net: nat, percent: real): int {
    Round(Exact(net, percent))
  }

  function Host(net: nat, percent: real): int {
    net - Fee(net, percent)
  }

  /** To the cent: the fee never exceeds what is left of the payment, and nothing is lost in the split. */
  lemma SplitsToTheCent(r: Payment, percent: real)
    requires Refunded(r) <= r.amount && 0.0 <= percent <= 100.0
    ensures Refunded(r) + Fee(Net(r), percent) + Host(Net(r), percent) == r.amount
    ensures 0 <= Fee(Net(r), percent) <= Net(r) && 0 <= Host(Net(r), percent)
  {
    FeeFits(Net(r), percent);
  }

  lemma Portion(n: real, percent: real)
    requires 0.0 <= n && 0.0 <= percent <= 100.0
    ensures 0.0 <= n * percent / 100.0 <= n
  {
    assert n * (100.0 - percent) >= 0.0;
  }

  lemma FeeFits(net: nat, percent: real)
    requires 0.0 <= percent <= 100.0
    ensures 0 <= Fee(net, percent) <= net
  {
    Portion(net as real, percent);
  }

  /** One cent more passes on at most one cent more, and never less. */
  lemma HostStep(net: nat, percent: real)
    requires 0.0 <= percent <= 100.0
    ensures Host(net, percent) <= Host(net + 1, percent) <= Host(net, percent) + 1
  {
    assert Exact(net + 1, percent) == Exact(net, percent) + percent / 100.0;
  }

  lemma {:induction false} HostGrows(less: nat, more: nat, percent: real)
    requires less <= more && 0.0 <= percent <= 100.0
    ensures Host(less, percent) <= Host(more, percent) <= Host(less, percent) + (more - less)
    decreases more - less
  {
    if less < more {
      HostStep(less, percent);
      HostGrows(less + 1, more, percent);
    }
  }

  // ---- the balance ----

  predicate Passed(l: Ledger, k: Key) {
    k in l.rows && l.rows[k].paidBy == ByCard && l.rows[k].status == Succeeded
  }

  /** The fee of each payment, the current one when the row has none. */
  function Percent(fees: map<Key, real>, current: real, k: Key): real {
    if k in fees then fees[k] else current
  }

  ghost predicate PercentsOk(fees: map<Key, real>, current: real) {
    0.0 <= current <= 100.0 && forall k :: k in fees ==> 0.0 <= fees[k] <= 100.0
  }

  function Share(l: Ledger, fees: map<Key, real>, current: real, k: Key): nat
    requires Passed(l, k)
  {
    Max(0, Host(Net(l.rows[k]), Percent(fees, current, k)))
  }

  ghost function Shares(l: Ledger, fees: map<Key, real>, current: real): map<Key, nat> {
    map k | k in l.rows && Passed(l, k) :: Share(l, fees, current, k)
  }

  /** payoutBalance (929-952). */
  ghost function Balance(l: Ledger, fees: map<Key, real>, current: real, paidOut: int): int {
    Total(Shares(l, fees, current)) - paidOut
  }

  /** A share is never negative, so the sum is the one of the source. */
  lemma ShareIsHost(l: Ledger, fees: map<Key, real>, current: real, k: Key)
    requires Inv(l) && Passed(l, k) && PercentsOk(fees, current)
    ensures Share(l, fees, current, k) == Host(Net(l.rows[k]), Percent(fees, current, k))
  {
    assert RowOk(l, k);
    SplitsToTheCent(l.rows[k], Percent(fees, current, k));
  }

  /** What a refund event does to the payment rows. */
  lemma RefundTouches(l: Ledger, o: Op)
    requires Inv(l) && o.Refund? && Refundable(l, OfInvoice(o.id))
    ensures var v := RefundSynced(l, o); var k := OfInvoice(o.id);
      && v.rows.Keys == l.rows.Keys && Passed(l, k) && Passed(v, k)
      && (forall j :: j in l.rows && j != k ==> v.rows[j] == l.rows[j])
      && v.rows[k].amount == l.rows[k].amount && Refunded(l.rows[k]) <= Refunded(v.rows[k]) <= l.rows[k].amount
  {
    assert RowOk(l, OfInvoice(o.id));
  }

  /** When the payments differ in one row, so do the shares, and the balance by that row's share. */
  lemma OneShareMoves(l: Ledger, v: Ledger, k: Key, fees: map<Key, real>, current: real)
    requires v.rows.Keys - {k} == l.rows.Keys - {k} && Passed(v, k)
    requires forall j :: j in l.rows && j != k ==> j in v.rows && v.rows[j] == l.rows[j]
    ensures Total(Shares(v, fees, current)) - Total(Shares(l, fees, current)) ==
      Share(v, fees, current, k) - (if Passed(l, k) then Share(l, fees, current, k) else 0)
  {
    var before := Shares(l, fees, current);
    var after := Shares(v, fees, current);
    forall j ensures j in after - {k} <==> j in before - {k} {
      assert j != k ==> (j in v.rows.Keys - {k} <==> j in l.rows.Keys - {k});
    }
    assert after - {k} == before - {k};
    TotalWithout(after, k);
    if Passed(l, k) { TotalWithout(before, k); } else { assert before - {k} == before; }
  }

  /** A refund never raises the balance of the space, and lowers it by at most what was refunded. */
  lemma RefundLowersBalance(l: Ledger, o: Op, fees: map<Key, real>, current: real, paidOut: int)
    requires Inv(l) && o.Refund? && PercentsOk(fees, current) && Refundable(l, OfInvoice(o.id))
    ensures var v := RefundSynced(l, o); var k := OfInvoice(o.id);
      && k in v.rows
      && 0 <= Balance(l, fees, current, paidOut) - Balance(v, fees, current, paidOut)
           <= Refunded(v.rows[k]) - Refunded(l.rows[k])
  {
    var k := OfInvoice(o.id);
    var v := RefundSynced(l, o);
    RefundTouches(l, o);
    RefundKeeps(l, o);
    OneShareMoves(l, v, k, fees, current);
    ShareIsHost(l, fees, current, k);
    ShareIsHost(v, fees, current, k);
    HostGrows(Net(v.rows[k]), Net(l.rows[k]), Percent(fees, current, k));
  }

  ghost predicate SamePassed(l: Ledger, v: Ledger) {
    forall j :: (Passed(v, j) <==> Passed(l, j)) && (Passed(l, j) ==> v.rows[j] == l.rows[j])
  }

  lemma InvoiceTouches(l: Ledger, o: Op)
    requires Inv(l) && o.Invoice?
    ensures var v := Invoiced(l, o); var k := OfInvoice(o.id);
      if o.paid && Settles(l, k, true) then
        && v.rows.Keys - {k} == l.rows.Keys - {k} && Passed(v, k) && !Passed(l, k) && Net(v.rows[k]) == o.amount
        && (forall j :: j in l.rows && j != k ==> j in v.rows && v.rows[j] == l.rows[j])
      else SamePassed(l, v)
  {
    assert RowOk(l, OfInvoice(o.id));
  }

  lemma HandTouches(l: Ledger, o: Op)
    requires Inv(l) && (o.AddDue? || o.Record? || o.Undo?)
    ensures SamePassed(l, Apply(l, o))
  {
    var k := if o.AddDue? then OfDue(o.date) else o.k;
    assert RowOk(l, k);
    var v := Apply(l, o);
    assert forall j :: j != k ==> (j in v.rows <==> j in l.rows) && (j in v.rows ==> v.rows[j] == l.rows[j]);
    assert !Passed(l, k) || v == l;
  }

  /** Payments by hand, dues, undos, failed invoices and repeated ones leave the balance alone. */
  lemma OnlyCardMoneyMovesTheBalance(l: Ledger, o: Op, fees: map<Key, real>, current: real, paidOut: int)
    requires Inv(l) && !o.Refund? && (o.Invoice? ==> !o.paid || !Settles(l, OfInvoice(o.id), true))
    ensures Balance(Apply(l, o), fees, current, paidOut) == Balance(l, fees, current, paidOut)
  {
    if o.Invoice? { InvoiceTouches(l, o); } else { HandTouches(l, o); }
    assert Shares(Apply(l, o), fees, current) == Shares(l, fees, current);
  }

  /** The first paid delivery of an invoice adds its share. */
  lemma PaidInvoiceAddsItsShare(l: Ledger, o: Op, fees: map<Key, real>, current: real, paidOut: int)
    requires Inv(l) && PercentsOk(fees, current) && o.Invoice? && o.paid && Settles(l, OfInvoice(o.id), true)
    ensures Balance(Invoiced(l, o), fees, current, paidOut) ==
      Balance(l, fees, current, paidOut) + Host(o.amount, Percent(fees, current, OfInvoice(o.id)))
  {
    var k := OfInvoice(o.id);
    var v := Invoiced(l, o);
    InvoiceTouches(l, o);
    InvoiceKeeps(l, o);
    OneShareMoves(l, v, k, fees, current);
    ShareIsHost(v, fees, current, k);
  }

  /** A card payment as the lemmas above suppose one. */
  lemma SomePayment(amount: nat) returns (l: Ledger)
    ensures Inv(l) && Refundable(l, OfInvoice(0)) && Passed(l, OfInvoice(0)) && Net(l.rows[OfInvoice(0)]) == amount
  {
    var o := Invoice(0, true, amount, None, None, 0, Booked);
    InvoiceKeeps(EMPTY, o);
    l := Invoiced(EMPTY, o);
  }

  /** A payment keeps the fee it was charged with: only those without one follow the current percent. */
  lemma PriceChangeKeepsEarlierFees(l: Ledger, fees: map<Key, real>, current: real, changed: real, paidOut: int, k: Key)
    requires Inv(l) && Passed(l, k) && PercentsOk(fees, current) && PercentsOk(fees, changed)
    ensures Share(l, fees, current, k) == Host(Net(l.rows[k]), if k in fees then fees[k] else current)
    ensures (forall j :: Passed(l, j) ==> j in fees) ==>
      Balance(l, fees, current, paidOut) == Balance(l, fees, changed, paidOut)
  {
    ShareIsHost(l, fees, current, k);
    if forall j :: Passed(l, j) ==> j in fees {
      assert Shares(l, fees, current) == Shares(l, fees, changed);
    }
  }

  // ---- the money in and the money passed on ----

  /** What the history of a space is made of: operations of the ledger and payouts recorded. */
  datatype Entry = Happened(o: Op) | PaidOut(cents: nat)

  function LedgerAfter(l: Ledger, es: seq<Entry>): Ledger
    decreases |es|
  {
    if es == [] then l
    else LedgerAfter(if es[0].Happened? then Apply(l, es[0].o) else l, es[1..])
  }

  function PayoutsOf(es: seq<Entry>): nat {
    if es == [] then 0 else (if es[0].PaidOut? then es[0].cents else 0) + PayoutsOf(es[1..])
  }

  /** What the space is still owed after a history. */
  ghost function Owed(es: seq<Entry>, fees: map<Key, real>, current: real): int {
    Balance(LedgerAfter(EMPTY, es), fees, current, PayoutsOf(es))
  }

  ghost function Charged(l: Ledger): map<Key, nat> {
    map k | k in l.rows && Passed(l, k) :: l.rows[k].amount
  }

  ghost function SentBack(l: Ledger): map<Key, nat> {
    map k | k in l.rows && Passed(l, k) :: Refunded(l.rows[k])
  }

  ghost function Fees(l: Ledger, fees: map<Key, real>, current: real): map<Key, nat> {
    map k | k in l.rows && Passed(l, k) :: Max(0, Fee(Net(l.rows[k]), Percent(fees, current, k)))
  }

  lemma {:induction false} TotalsAdd(all: map<Key, nat>, a: map<Key, nat>, b: map<Key, nat>, c: map<Key, nat>)
    requires a.Keys == all.Keys && b.Keys == all.Keys && c.Keys == all.Keys
    requires forall k :: k in all ==> all[k] == a[k] + b[k] + c[k]
    ensures Total(all) == Total(a) + Total(b) + Total(c)
    decreases |all|
  {
    if all == map[] {
      assert a == map[] && b == map[] && c == map[];
    } else {
      var k :| k in all;
      TotalWithout(all, k);
      TotalWithout(a, k);
      TotalWithout(b, k);
      TotalWithout(c, k);
      TotalsAdd(all - {k}, a - {k}, b - {k}, c - {k});
    }
  }

  lemma {:induction false} HistoryKeepsInv(l: Ledger, es: seq<Entry>)
    requires Inv(l)
    ensures Inv(LedgerAfter(l, es))
    decreases |es|
  {
    if es != [] {
      if es[0].Happened? { ApplyKeeps(l, es[0].o); }
      HistoryKeepsInv(if es[0].Happened? then Apply(l, es[0].o) else l, es[1..]);
    }
  }

  /**
   Every cent accounted for: after any operations and payouts, what the paid cards were charged is
   what went back, the platform's fees, what was paid out and what the space is still owed.
   */
  lemma MoneyIsAccountedFor(es: seq<Entry>, fees: map<Key, real>, current: real)
    requires PercentsOk(fees, current)
    ensures var l := LedgerAfter(EMPTY, es);
      Total(Charged(l)) == Total(SentBack(l)) + Total(Fees(l, fees, current)) + PayoutsOf(es) + Owed(es, fees, current)
  {
    var l := LedgerAfter(EMPTY, es);
    HistoryKeepsInv(EMPTY, es);
    forall k | k in Charged(l)
      ensures Charged(l)[k] == SentBack(l)[k] + Fees(l, fees, current)[k] + Shares(l, fees, current)[k]
    {
      assert RowOk(l, k);
      SplitsToTheCent(l.rows[k], Percent(fees, current, k));
    }
    TotalsAdd(Charged(l), SentBack(l), Fees(l, fees, current), Shares(l, fees, current));
  }

  lemma {:induction false} LedgerThen(l: Ledger, es: seq<Entry>, e: Entry)
    ensures LedgerAfter(l, es + [e]) ==
      if e.Happened? then Apply(LedgerAfter(l, es), e.o) else LedgerAfter(l, es)
    ensures PayoutsOf(es + [e]) == PayoutsOf(es) + if e.PaidOut? then e.cents else 0
    decreases |es|
  {
    if es == [] {
      assert ([] + [e])[1..] == [] && ([] + [e])[0] == e;
    } else {
      assert (es + [e])[1..] == es[1..] + [e] && (es + [e])[0] == es[0];
      LedgerThen(if es[0].Happened? then Apply(l, es[0].o) else l, es[1..], e);
    }
  }

  /** Nothing is owed at first, and a payout lowers what is owed by exactly itself. */
  lemma PayoutLowersTheBalance(es: seq<Entry>, fees: map<Key, real>, current: real, cents: nat)
    ensures Owed([], fees, current) == 0
    ensures Owed(es + [PaidOut(cents)], fees, current) == Owed(es, fees, current) - cents
  {
    assert Shares(EMPTY, fees, current) == map[];
    LedgerThen(EMPTY, es, PaidOut(cents));
  }

  // ---- rounding, payment by payment ----

  function FeeSum(nets: seq<nat>, percent: real): int {
    if nets == [] then 0 else Fee(nets[0], percent) + FeeSum(nets[1..], percent)
  }

  function NetSum(nets: seq<nat>): nat {
    if nets == [] then 0 else nets[0] + NetSum(nets[1..])
  }

  /** Rounding each fee drifts from the exact fee of the sum by at most half a cent a payment. */
  lemma {:induction false} RoundingDrift(nets: seq<nat>, percent: real)
    ensures var drift := FeeSum(nets, percent) as real - Exact(NetSum(nets), percent);
      -0.5 * |nets| as real <= drift <= 0.5 * |nets| as real
  {
    if nets != [] {
      RoundingDrift(nets[1..], percent);
      assert Exact(NetSum(nets), percent) == Exact(nets[0], percent) + Exact(NetSum(nets[1..]), percent);
    }
  }
}
