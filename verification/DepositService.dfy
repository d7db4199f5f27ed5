/**
 The deposit service run without interference: each method keeps its rows and Stripe in
 fields and is proved equal to the protocol's steps, so what holds of every run of the
 protocol holds of what the methods do.
 */
module DepositService {
  import opened Prelude
  import opened DepositProtocol
  import opened DepositSafety
  import opened DepositTheorems

  // ---- what the calls amount to ----

  /** finalize of a captured intent, then its refund call if it committed to one. */
  function Finalized(w: World, i: Id, up: bool): World
    requires w.procs == map[] && Captured(w, i)
  {
    var v := FinalizeNext(w, 0, Whole(i));
    if 0 in v.procs && v.procs[0].RefundCall? then FinalizeNext(v, 0, Send(up)) else v
  }

  /** What happens between a look at Stripe that found the intent open and the cancel that follows. */
  datatype Race = Quiet | CardFirst | CancelLost

  function AfterRace(w: World, i: Id, race: Race): World
    requires i in w.intents
  {
    if w.intents[i].status != Open then w
    else if race.Quiet? then OutsideNext(w, CancelAtStripe(i))
    else if race.CardFirst? && w.intents[i].secretOut then OutsideNext(w, Capture(i))
    else w
  }

  /** releaseUnpaidHold (400-444). */
  function Released(w: World, a: Id, up: bool, race: Race): World
    requires Inv(w) && w.procs == map[]
  {
    if !Live(w, a) || w.appts[a].status != PendingPayment then w
    else if w.appts[a].intent.None? then OutsideNext(w, Expire(a))
    else if !up then w
    else
      RowFacts(w, a);
      var i := w.appts[a].intent.value;
      if w.intents[i].status == Succeeded then Finalized(w, i, up)
      else OutsideNext(AfterRace(w, i, race), Expire(a))
  }

  lemma RowFacts(w: World, a: Id)
    requires Inv(w)
    ensures RowOk(w, a)
  {
  }

  /** refundOnlineDeposit: look, take, call Stripe. */
  function GivenBack(w: World, a: Id, up: bool): World
    requires w.procs == map[]
  {
    if !BackEnabled(w, 0, Look(a)) then w
    else
      var v := BackNext(BackNext(w, 0, Look(a)), 0, Take);
      if 0 in v.procs && v.procs[0].BackCall? then BackNext(v, 0, Return(up)) else v
  }

  lemma FinalizedIsSafe(w: World, i: Id, up: bool)
    requires Inv(w) && w.procs == map[] && Captured(w, i)
    ensures Inv(Finalized(w, i, up)) && Finalized(w, i, up).procs == map[]
  {
    var v := FinalizeNext(w, 0, Whole(i));
    StepKeepsInv(w, Finalize(0, Whole(i)));
    FinalizedForm(w, i, up);
    if 0 in v.procs && v.procs[0].RefundCall? { FinalizeKeeps(v, 0, Send(up)); }
  }

  lemma ReleasedIsSafe(w: World, a: Id, up: bool, race: Race)
    requires Inv(w) && w.procs == map[]
    ensures Inv(Released(w, a, up, race)) && Released(w, a, up, race).procs == map[]
  {
    if Live(w, a) && w.appts[a].status == PendingPayment {
      RowFacts(w, a);
      if w.appts[a].intent.None? {
        OutsideKeeps(w, Expire(a));
      } else if up {
        var i := w.appts[a].intent.value;
        if w.intents[i].status == Succeeded {
          FinalizedIsSafe(w, i, up);
        } else {
          var v := AfterRace(w, i, race);
          if v != w {
            if race.Quiet? { OutsideKeeps(w, CancelAtStripe(i)); } else { OutsideKeeps(w, Capture(i)); }
          }
          OutsideKeeps(v, Expire(a));
        }
      }
    }
  }

  lemma GivenBackIsSafe(w: World, a: Id, up: bool)
    requires Inv(w) && w.procs == map[]
    ensures Inv(GivenBack(w, a, up)) && GivenBack(w, a, up).procs == map[]
  {
    if BackEnabled(w, 0, Look(a)) {
      var v := BackNext(w, 0, Look(a));
      BackKeeps(w, 0, Look(a));
      var v' := BackNext(v, 0, Take);
      BackKeeps(v, 0, Take);
      if 0 in v'.procs && v'.procs[0].BackCall? { BackKeeps(v', 0, Return(up)); }
    }
  }

  /** A captured deposit not yet dealt with is applied or refunded at Stripe, whichever way finalize goes. */
  lemma FinalizedSettles(w: World, i: Id)
    requires Inv(w) && w.procs == map[] && Captured(w, i) && !HeldByHand(w, i) && !Refunding(w, i)
    ensures var v := Finalized(w, i, true); Applied(v, i) || i in v.refunds
  {
    WebhookSettles(w, 0, i);
    Facts(w, i, 0);
    FinalizedIsSafe(w, i, true);
    assert IntentOk(Finalized(w, i, true), i);
  }

  /**
   Expiry never swallows a payment: wherever the capture lands (before the check, between the
   check and the cancel, or after a cancel that got lost), once the webhook is delivered the
   deposit is applied or refunded. A Stripe outage leaves the hold as it was.
   */
  lemma ReleaseNeverSwallows(w: World, a: Id, i: Id, up: bool, race: Race, later: bool)
    requires Inv(w) && w.procs == map[] && Live(w, a) && w.appts[a].status == PendingPayment
    requires w.appts[a].intent == Some(i) && !w.appts[a].depositPaid && i !in w.handled && !Refunding(w, i)
    ensures !up ==> Released(w, a, up, race) == w
    ensures var v := Released(w, a, up, race);
      var u := if later && OutsideEnabled(v, Capture(i)) then OutsideNext(v, Capture(i)) else v;
      && Inv(u) && u.procs == map[]
      && (Captured(u, i) ==> Applied(Finalized(u, i, true), i) || i in Finalized(u, i, true).refunds)
  {
    RowFacts(w, a);
    ReleasedIsSafe(w, a, up, race);
    var v := Released(w, a, up, race);
    var u := if later && OutsideEnabled(v, Capture(i)) then OutsideNext(v, Capture(i)) else v;
    if u != v { OutsideKeeps(v, Capture(i)); }
    if Captured(u, i) {
      if up && Captured(w, i) {
        AppliedStays(w, i, up);
      } else {
        assert !Refunding(u, i);
        FinalizedSettles(u, i);
      }
    }
  }

  /** A hold found paid is confirmed, and the webhook that follows finds nothing to do. */
  lemma AppliedStays(w: World, i: Id, up: bool)
    requires Inv(w) && w.procs == map[] && Captured(w, i)
    requires Live(w, w.intents[i].appt) && w.appts[w.intents[i].appt].status == PendingPayment
    ensures var v := Finalized(w, i, up);
      && Applied(v, i) && Captured(v, i) && v.procs == map[] && v.refunds == w.refunds
      && v.appts[v.intents[i].appt].status == Confirmed && v.appts[v.intents[i].appt].holdUntil.None?
      && Finalized(v, i, true) == v
  {
    Facts(w, i, 0);
    var v := Finalized(w, i, up);
    FinalizedIsSafe(w, i, up);
    RedeliveryChangesNothing(v, 0, i);
  }

  /** Entering and leaving one call leaves no call in flight. */
  lemma NoCallLeft()
    ensures forall q: Proc {:trigger map[0 := q]} :: map[0 := q] - {0} == map[]
  {
  }

  function RefundTried(w: World, i: Id, up: bool): World {
    if up then StripeRefund(w, i) else w.(lost := w.lost + {i})
  }

  lemma FinalizedForm(w: World, i: Id, up: bool)
    requires w.procs == map[] && Captured(w, i)
    ensures var a := w.intents[i].appt; var v := w.(handled := w.handled + {i});
      Finalized(w, i, up) ==
        if !Live(w, a) then RefundTried(v.(unapplied := w.unapplied + {i}), i, up)
        else
          var r := w.appts[a];
          if r.status == PendingPayment then PutRow(v, a, ConfirmedRow(r, i))
          else if r.status == Cancelled && !r.depositPaid then
            if r.refundedAt then v
            else RefundTried(PutRow(v, a, r.(intent := Some(i), refundedAt := true)).(unapplied := w.unapplied + {i}), i, up)
          else if r.intent == Some(i) && (r.depositPaid || r.refundedAt) then v
          else RefundTried(v.(unapplied := w.unapplied + {i}), i, up)
  {
    NoCallLeft();
    var q := FinWrite(i, FoundRow(w, i));
    assert w.procs[0 := q] - {0} == map[];
    assert w.procs[0 := q][0 := FinClaim(i)] - {0} == map[];
    assert w.procs[0 := q][0 := RefundCall(i)] - {0} == map[];
    assert w.procs[0 := q][0 := FinClaim(i)][0 := RefundCall(i)] - {0} == map[];
  }

  lemma GivenBackForm(w: World, a: Id, up: bool)
    requires w.procs == map[]
    ensures GivenBack(w, a, up) ==
      if !Live(w, a) then w
      else
        var r := w.appts[a];
        if r.intent.None? || !r.paidAt || r.sale || !r.depositPaid || r.refundedAt then w
        else
          var i := r.intent.value;
          if up then StripeRefund(PutRow(w, a, r.(depositPaid := false, refundedAt := true)).(back := w.back + {i}), i)
          else w.(back := w.back + {i} - {i})
  {
    if BackEnabled(w, 0, Look(a)) {
      var i := w.appts[a].intent.value;
      assert w.procs[0 := BackClaim(a, i)] - {0} == map[];
      assert w.procs[0 := BackClaim(a, i)][0 := BackCall(a, i)] - {0} == map[];
      assert w.appts[a := w.appts[a]] == w.appts;
    }
  }

  datatype Answer = NotSucceeded | NotFound | NowConfirmed | Refunded | Unchanged(status: Status)

  datatype StartAnswer =
    | NotWaiting | HoldOver | NoDeposit | AlreadyPaid | NotThere
    | Secret(intent: Id, amount: nat)

  datatype Settled = PaidOnline | ReleasedByStaff | NothingToSettle | CheckFailed

  /** The row waits for a deposit that the client began to pay. */
  predicate Waits(w: World, a: Id) {
    Live(w, a) && w.appts[a].status == PendingPayment && w.appts[a].intent.Some?
  }

  /** How Stripe has the intent on the row. */
  predicate IntentIs(w: World, a: Id, status: IntentStatus) {
    && a in w.appts && w.appts[a].intent.Some? && w.appts[a].intent.value in w.intents
    && w.intents[w.appts[a].intent.value].status == status
  }

  /** What start has to answer: the secret goes out unless the row, its hold or its paid intent says otherwise. */
  function Expected(w: World, a: Id, now: int, minted: Id): StartAnswer
    requires Inv(w)
  {
    if !Live(w, a) then NotThere
    else
      RowFacts(w, a);
      var r := w.appts[a];
      if r.status != PendingPayment then NotWaiting
      else if r.holdUntil.None? || r.holdUntil.value <= now then HoldOver
      else if r.depositAmount == 0 then NoDeposit
      else if r.intent.Some? && Captured(w, r.intent.value) then AlreadyPaid
      else if r.intent.Some? && w.intents[r.intent.value].status == Open then Secret(r.intent.value, r.depositAmount)
      else Secret(minted, r.depositAmount)
  }

  class DepositPaymentService {
    // The database
    var appts: map<Id, Appt>
    var gone: set<Id>
    // Stripe
    var intents: map<Id, Intent>
    var keys: set<Id>
    var refunds: seq<Id>
    // What happened so far
    ghost var handled: set<Id>
    ghost var unapplied: set<Id>
    ghost var back: set<Id>
    ghost var lost: set<Id>
    ghost var byHand: set<Id>
    ghost var cutShort: set<Id>

    ghost function Now(): World
      reads this
    {
      World(appts, gone, intents, keys, refunds, map[], handled, unapplied, back, lost, byHand, cutShort)
    }

    ghost predicate Valid()
      reads this
    {
      Inv(Now())
    }

    constructor ()
      ensures Valid() && Now() == EMPTY
    {
      appts, gone, intents, keys, refunds := map[], {}, map[], {}, [];
      handled, unapplied, back, lost, byHand, cutShort := {}, {}, {}, {}, {}, {};
    }

    /** findFirst by the recorded intent or by the id in the metadata (214-224). */
    method FindAppointment(i: Id) returns (found: Option<Id>)
      requires Valid() && i in intents
      ensures found == if Live(Now(), intents[i].appt) then Some(intents[i].appt) else None
    {
      var matching := set b | b in appts && b !in gone && (appts[b].intent == Some(i) || b == intents[i].appt);
      assert forall b :: b in matching ==> RowOk(Now(), b);
      assert IntentOk(Now(), i);
      if matching == {} {
        assert intents[i].appt !in matching;
        return None;
      }
      var b :| b in matching;
      return Some(b);
    }

    /** Stripe's createRefund under the key of the intent; false when the call fails. */
    method CreateRefund(i: Id, up: bool) returns (ok: bool)
      modifies this`keys, this`refunds
      ensures ok == up
      ensures keys == if up && i !in old(keys) then old(keys) + {i} else old(keys)
      ensures refunds == if up && i !in old(keys) then old(refunds) + [i] else old(refunds)
    {
      if !up { return false; }
      if i !in keys {
        keys := keys + {i};
        refunds := refunds + [i];
      }
      return true;
    }

    /** finalize (212-288). */
    method Finalize(i: Id, up: bool) returns (answer: Answer)
      requires Valid() && i in intents
      modifies this
      ensures Valid()
      ensures !Captured(old(Now()), i) ==> Now() == old(Now()) && answer == NotSucceeded
      ensures Captured(old(Now()), i) ==> Now() == Finalized(old(Now()), i, up)
      ensures answer == NowConfirmed <==> Captured(old(Now()), i) && !Applied(old(Now()), i) && Applied(Now(), i)
      ensures answer == NotFound <==> Captured(old(Now()), i) && FoundRow(old(Now()), i).None?
      ensures answer.Unchanged? <==>
        && Captured(old(Now()), i) && FoundRow(old(Now()), i).Some?
        && var r := FoundRow(old(Now()), i).value; r.status != PendingPayment && !ReadAsLate(r) && ReadAsDone(r, i)
      ensures answer.Unchanged? ==> answer.status == FoundRow(old(Now()), i).value.status
    {
      ghost var w := Now();
      if intents[i].status != Succeeded { return NotSucceeded; }
      FinalizedIsSafe(w, i, up);
      Facts(w, i, 0);
      FinalizedForm(w, i, up);
      var found := FindAppointment(i);
      if found == None {
        answer := NotFound;
        var _ := RefundUnapplied(i, up);
        return;
      }
      var a := found.value;
      var snap := appts[a];
      if snap.status == PendingPayment {
        appts := appts[a := ConfirmedRow(snap, i)];
        handled := handled + {i};
        return NowConfirmed;
      }
      if snap.status == Cancelled && !snap.depositPaid {
        ClaimLatePayment(i, a, up);
        return Refunded;
      }
      if snap.intent == Some(i) && (snap.depositPaid || snap.refundedAt) {
        handled := handled + {i};
        return Unchanged(snap.status);
      }
      answer := Refunded;
      var _ := RefundUnapplied(i, up);
    }

    /** The claim of a payment that came after the hold was cancelled (258-276). */
    method ClaimLatePayment(i: Id, a: Id, up: bool)
      requires a in appts
      modifies this
      ensures Now() == (
        var w := old(Now()); var v := w.(handled := w.handled + {i});
        if w.appts[a].refundedAt then v
        else RefundTried(PutRow(v, a, w.appts[a].(intent := Some(i), refundedAt := true))
                        .(unapplied := w.unapplied + {i}), i, up))
    {
      handled := handled + {i};
      if !appts[a].refundedAt {
        appts := appts[a := appts[a].(intent := Some(i), refundedAt := true)];
        unapplied := unapplied + {i};
        var ok := CreateRefund(i, up);
        if !ok { lost := lost + {i}; }
      }
    }

    /** refundUnapplied (290-301): the money goes back and no row says so. */
    method RefundUnapplied(i: Id, up: bool) returns (ok: bool)
      modifies this
      ensures ok == up
      ensures Now() == old(Now()).(
        unapplied := old(unapplied) + {i}, handled := old(handled) + {i},
        keys := if up && i !in old(keys) then old(keys) + {i} else old(keys),
        refunds := if up && i !in old(keys) then old(refunds) + [i] else old(refunds),
        lost := if up then old(lost) else old(lost) + {i})
    {
      unapplied := unapplied + {i};
      handled := handled + {i};
      ok := CreateRefund(i, up);
      if !ok { lost := lost + {i}; }
    }

    /** releaseUnpaidHold (400-444). */
    method ReleaseUnpaidHold(a: Id, up: bool, race: Race) returns (released: bool)
      requires Valid()
      modifies this
      ensures Valid()
      ensures Now() == Released(old(Now()), a, up, race)
      ensures released <==>
        && Live(old(Now()), a) && old(appts)[a].status == PendingPayment
        && Now().appts[a].status == Cancelled
    {
      ghost var w := Now();
      ReleasedIsSafe(w, a, up, race);
      if a !in appts || a in gone || appts[a].status != PendingPayment { return false; }
      RowFacts(w, a);
      if appts[a].intent.Some? {
        var i := appts[a].intent.value;
        if !up { return false; }
        if intents[i].status == Succeeded {
          AppliedStays(w, i, up);
          var _ := Finalize(i, up);
          return false;
        }
        CancelIntent(i, race);
      }
      appts := appts[a := appts[a].(status := Cancelled, holdUntil := None)];
      return true;
    }

    /** The cancel of an open intent, and what the card may do while it is under way. */
    method CancelIntent(i: Id, race: Race)
      requires i in intents
      modifies this`intents
      ensures Now() == AfterRace(old(Now()), i, race)
    {
      if intents[i].status == Open {
        if race.Quiet? {
          intents := intents[i := intents[i].(status := Canceled)];
        } else if race.CardFirst? && intents[i].secretOut {
          intents := intents[i := intents[i].(status := Succeeded)];
        }
      }
    }

    /** settleForStaff (78-96): an error from Stripe leaves the hold as it was. */
    method SettleForStaff(a: Id, up: bool, race: Race) returns (answer: Settled)
      requires Valid()
      modifies this
      ensures Valid()
      ensures answer.NothingToSettle? <==> !Waits(old(Now()), a)
      ensures answer.PaidOnline? <==> Waits(old(Now()), a) && up && IntentIs(old(Now()), a, Succeeded)
      ensures answer.ReleasedByStaff? <==>
        && Waits(old(Now()), a) && up
        && (IntentIs(old(Now()), a, Canceled) || (IntentIs(old(Now()), a, Open) && race.Quiet?))
      ensures answer.CheckFailed? <==>
        Waits(old(Now()), a) && (!up || (IntentIs(old(Now()), a, Open) && !race.Quiet?))
      ensures answer.NothingToSettle? ==> Now() == old(Now())
      ensures answer.PaidOnline? ==>
        && Live(old(Now()), a) && old(appts)[a].intent.Some?
        && Captured(old(Now()), old(appts)[a].intent.value) && Applied(Now(), old(appts)[a].intent.value)
        && Now() == Finalized(old(Now()), old(appts)[a].intent.value, true)
      ensures answer.ReleasedByStaff? ==>
        && Live(old(Now()), a) && appts == old(appts)
        && old(appts)[a].intent.Some? && old(appts)[a].intent.value in intents
        && intents[old(appts)[a].intent.value].status == Canceled
      ensures answer.CheckFailed? ==> appts == old(appts) && refunds == old(refunds) && handled == old(handled)
      ensures !up && answer != NothingToSettle ==> Now() == old(Now())
    {
      ghost var w := Now();
      if a !in appts || a in gone || appts[a].status != PendingPayment || appts[a].intent == None {
        return NothingToSettle;
      }
      RowFacts(w, a);
      var i := appts[a].intent.value;
      if !up { return CheckFailed; }
      if intents[i].status == Succeeded {
        AppliedStays(w, i, true);
        var end := Finalize(i, true);
        return PaidOnline;
      }
      if intents[i].status == Open {
        CancelIntent(i, race);
        if race.Quiet? { OutsideKeeps(w, CancelAtStripe(i)); }
        else if race.CardFirst? && w.intents[i].secretOut { OutsideKeeps(w, Capture(i)); }
        if intents[i].status != Canceled { return CheckFailed; }
      }
      return ReleasedByStaff;
    }

    /** start (130-195), with `minted` the id Stripe would give a new intent. */
    method Start(a: Id, now: int, minted: Id) returns (answer: StartAnswer)
      requires Valid() && minted !in intents
      modifies this
      ensures Valid()
      ensures answer.Secret? ==>
        && Live(Now(), a) && appts[a].intent == Some(answer.intent)
        && answer.intent in intents && intents[answer.intent].status == Open && intents[answer.intent].secretOut
        && intents[answer.intent].appt == a && answer.amount == appts[a].depositAmount > 0
        && a in old(appts) && old(appts)[a].status == PendingPayment
        && forall j :: j in intents && Payable(Now(), j) && intents[j].appt == a ==> j == answer.intent
      ensures answer.AlreadyPaid? ==>
        && Live(old(Now()), a) && old(appts)[a].intent.Some?
        && Applied(Now(), old(appts)[a].intent.value)
      ensures !answer.Secret? && !answer.AlreadyPaid? ==> Now() == old(Now())
      ensures answer == Expected(old(Now()), a, now, minted)
    {
      ghost var w := Now();
      if a !in appts || a in gone { return NotThere; }
      var row := appts[a];
      if row.status != PendingPayment { return NotWaiting; }
      if row.holdUntil == None || row.holdUntil.value <= now { return HoldOver; }
      if row.depositAmount == 0 { return NoDeposit; }
      RowFacts(w, a);
      StartEndsSafe(w, a, now, minted);
      if row.intent.Some? {
        var i := row.intent.value;
        if intents[i].status == Succeeded {
          AppliedStays(w, i, true);
          var _ := Finalize(i, true);
          return AlreadyPaid;
        }
        if intents[i].status == Open {
          intents := intents[i := intents[i].(secretOut := true)];
          assert forall j :: j in intents ==> IntentOk(Now(), j);
          return Secret(i, row.depositAmount);
        }
      }
      intents := intents[minted := Intent(a, row.depositAmount, Open, true)];
      appts := appts[a := row.(intent := Some(minted))];
      assert forall j :: j in intents ==> IntentOk(Now(), j);
      return Secret(minted, row.depositAmount);
    }

    /** expireHolds (381-393): the holds found due, one after the other. */
    method ExpireHolds(now: int, up: bool, races: Id -> Race) returns (released: nat)
      requires Valid()
      modifies this
      ensures Valid()
      ensures forall a :: a in old(appts) && !Due(old(Now()), a, now) ==> a in appts && appts[a] == old(appts)[a]
      ensures up && |DueSet(old(Now()), now)| <= 200 ==>
        && DueSet(Now(), now) == {}
        && forall a :: a in DueSet(old(Now()), now) ==> EndedAsPaidOrFreed(old(Now()), Now(), a)
      ensures released == |Freed(appts, DueSet(old(Now()), now))|
    {
      ghost var w := Now();
      ghost var rest;
      released, rest := ReleaseDue(now, up, races);
      if up && |DueSet(w, now)| <= 200 { assert DueSet(Now(), now) == {}; }
    }

    /** The loop of expireHolds, which takes 200 holds at most. */
    method ReleaseDue(now: int, up: bool, races: Id -> Race) returns (released: nat, ghost rest: set<Id>)
      requires Valid()
      modifies this
      ensures Valid() && Expiring(old(Now()), Now(), DueSet(old(Now()), now), rest, up)
      ensures |DueSet(old(Now()), now)| <= 200 ==> rest == {}
      ensures released == |Freed(appts, DueSet(old(Now()), now))|
    {
      released := 0;
      ghost var w := Now();
      var due := set a | a in appts && a !in gone && Overdue(appts[a], now);
      ghost var all := due;
      assert all == DueSet(w, now);
      assert Freed(appts, all) == {};
      var taken := 0;
      while due != {} && taken < 200
        invariant |all| == |due| + taken && taken <= 200
        invariant Expiring(w, Now(), all, due, up) && released == |Freed(appts, all)|
        decreases |due|
      {
        var a :| a in due;
        var done := ReleaseOne(a, up, races(a), w, all, due);
        if done { released := released + 1; }
        due := due - {a};
        taken := taken + 1;
      }
      rest := due;
      if |all| <= 200 { assert |due| == 0; }
    }

    /** One turn of the loop. */
    method ReleaseOne(a: Id, up: bool, race: Race, ghost w: World, ghost all: set<Id>, ghost rest: set<Id>)
      returns (done: bool)
      requires Valid() && Inv(w) && Expiring(w, Now(), all, rest, up) && a in rest
      modifies this
      ensures Valid() && Expiring(w, Now(), all, rest - {a}, up)
      ensures |Freed(appts, all)| == |Freed(old(appts), all)| + if done then 1 else 0
    {
      ExpireOne(w, Now(), all, rest, a, up, race);
      FreedOne(w, Now(), all, rest, a, up, race);
      done := ReleaseUnpaidHold(a, up, race);
    }

    /** refundOnlineDeposit (barbershop.service.ts): claim on the row, then Stripe, undone if Stripe refuses. */
    method RefundOnlineDeposit(a: Id, up: bool) returns (refunded: bool)
      requires Valid()
      modifies this
      ensures Valid() && Now() == GivenBack(old(Now()), a, up)
      ensures refunded <==>
        && up && Live(old(Now()), a) && !old(appts)[a].sale
        && old(appts)[a].intent.Some? && Applied(old(Now()), old(appts)[a].intent.value)
    {
      ghost var w := Now();
      GivenBackIsSafe(w, a, up);
      GivenBackForm(w, a, up);
      RowFacts(w, a);
      if a !in appts || a in gone { return false; }
      var row := appts[a];
      if row.intent == None || !row.paidAt || row.sale { return false; }
      var i := row.intent.value;
      if !row.depositPaid || row.refundedAt { return false; }
      appts := appts[a := row.(depositPaid := false, refundedAt := true)];
      back := back + {i};
      refunded := CreateRefund(i, up);
      if !refunded {
        appts := appts[a := appts[a].(depositPaid := true, refundedAt := false)];
        back := back - {i};
        assert appts == w.appts;
      }
    }
  }

  predicate Overdue(r: Appt, now: int) {
    r.status == PendingPayment && r.holdUntil.Some? && r.holdUntil.value < now
  }

  predicate Due(w: World, a: Id, now: int) {
    Live(w, a) && Overdue(w.appts[a], now)
  }

  ghost function DueSet(w: World, now: int): set<Id> {
    set a | a in w.appts && Due(w, a, now)
  }

  /** The hold of w is over in v: confirmed if the card had paid, freed if not. */
  ghost predicate EndedAsPaidOrFreed(w: World, v: World, a: Id) {
    && a in w.appts && a in v.appts
    && v.appts[a].status ==
         (if w.appts[a].intent.Some? && Captured(w, w.appts[a].intent.value) then Confirmed else Cancelled)
    && (v.appts[a].status == Confirmed ==>
          Applied(v, w.appts[a].intent.value) && v.appts[a].intent == w.appts[a].intent)
    && v.appts[a].holdUntil.None? && SameSlot(v.appts[a], w.appts[a])
    && v.appts[a].linkVersion == w.appts[a].linkVersion
  }

  /** A secret goes out exactly while start may read the row and its intent is not paid. */
  lemma SecretGoesOut(w: World, a: Id, now: int, minted: Id)
    requires Inv(w) && w.procs == map[]
    ensures Expected(w, a, now, minted).Secret? <==> StartEnabled(w, 0, ReadRow(a, now)) && !IntentIs(w, a, Succeeded)
    ensures Expected(w, a, now, minted).AlreadyPaid? <==> StartEnabled(w, 0, ReadRow(a, now)) && IntentIs(w, a, Succeeded)
  {
    RowFacts(w, a);
  }

  /** So no secret goes out for a hold due for release, nor is one due that a secret may still go out for. */
  lemma DueGivesNoSecret(w: World, a: Id, now: int, minted: Id)
    requires Inv(w) && Due(w, a, now)
    ensures Expected(w, a, now, minted) == HoldOver
    ensures forall earlier :: earlier < w.appts[a].holdUntil.value && w.appts[a].depositAmount > 0 ==>
      !Due(w, a, earlier) && !Expected(w, a, earlier, minted).HoldOver? && !Expected(w, a, earlier, minted).NoDeposit?
  {
    RowFacts(w, a);
  }

  /** Part way through the due holds of w: the rest of `all` is still as it was. */
  ghost predicate Expiring(w: World, v: World, all: set<Id>, rest: set<Id>, up: bool) {
    && Inv(v) && v.procs == map[] && rest <= all <= w.appts.Keys
    && v.appts.Keys == w.appts.Keys && v.gone == w.gone && v.intents.Keys == w.intents.Keys
    && (forall a :: a in all ==> Live(w, a) && w.appts[a].status == PendingPayment)
    && (forall a :: a in w.appts && (a !in all || a in rest) ==> v.appts[a] == w.appts[a])
    && (forall i :: i in w.intents && w.intents[i].appt !in all - rest ==> v.intents[i] == w.intents[i])
    && (up ==> forall a :: a in all && a !in rest ==> EndedAsPaidOrFreed(w, v, a))
  }

  lemma ExpireOne(w: World, v: World, all: set<Id>, rest: set<Id>, a: Id, up: bool, race: Race)
    requires Inv(w) && Expiring(w, v, all, rest, up) && a in rest
    ensures Expiring(w, Released(v, a, up, race), all, rest - {a}, up)
  {
    ReleasedFrame(v, a, up, race);
    ReleasedIsSafe(v, a, up, race);
    RowFacts(w, a);
  }

  function Freed(appts: map<Id, Appt>, all: set<Id>): set<Id> {
    set a | a in all && a in appts && appts[a].status == Cancelled
  }

  /** Releasing one more hold adds it to the freed ones exactly when it was cancelled. */
  lemma FreedOne(w: World, v: World, all: set<Id>, rest: set<Id>, a: Id, up: bool, race: Race)
    requires Inv(w) && Expiring(w, v, all, rest, up) && a in rest
    ensures var u := Released(v, a, up, race);
      a in u.appts && |Freed(u.appts, all)| == |Freed(v.appts, all)| + if u.appts[a].status == Cancelled then 1 else 0
  {
    ReleasedFrame(v, a, up, race);
    OneMoreFreed(v.appts, Released(v, a, up, race).appts, all, a);
  }

  lemma OneMoreFreed(before: map<Id, Appt>, after: map<Id, Appt>, all: set<Id>, a: Id)
    requires a in all && a in before && before[a].status != Cancelled
    requires after.Keys == before.Keys && forall b :: b in before && b != a ==> after[b] == before[b]
    ensures |Freed(after, all)| == |Freed(before, all)| + if after[a].status == Cancelled then 1 else 0
  {
    if after[a].status == Cancelled {
      assert Freed(after, all) == Freed(before, all) + {a};
    } else {
      assert Freed(after, all) == Freed(before, all);
    }
  }

  predicate SameSlot(r: Appt, s: Appt) {
    r.startAt == s.startAt && r.endAt == s.endAt && r.sale == s.sale
  }

  /** Releasing one hold touches no other row, and with Stripe answering the hold is over. */
  lemma ReleasedFrame(w: World, a: Id, up: bool, race: Race)
    requires Inv(w) && w.procs == map[]
    ensures var v := Released(w, a, up, race);
      && v.appts.Keys == w.appts.Keys && v.gone == w.gone && v.intents.Keys == w.intents.Keys
      && (forall b :: b in w.appts && b != a ==> v.appts[b] == w.appts[b])
      && (forall i :: i in w.intents && w.intents[i].appt != a ==> v.intents[i] == w.intents[i])
      && (up && Live(w, a) ==> v.appts[a].status != PendingPayment)
      && (up && Live(w, a) && w.appts[a].status == PendingPayment ==> v.appts[a].holdUntil.None?)
      && (up && Live(w, a) && w.appts[a].status == PendingPayment ==>
            if w.appts[a].intent.Some? && Captured(w, w.appts[a].intent.value)
            then
              && v.appts[a].status == Confirmed && Applied(v, w.appts[a].intent.value)
              && v.appts[a].intent == w.appts[a].intent
            else v.appts[a].status == Cancelled)
      && (Live(w, a) ==> SameSlot(v.appts[a], w.appts[a]) && v.appts[a].linkVersion == w.appts[a].linkVersion)
  {
    RowFacts(w, a);
    if Live(w, a) && w.appts[a].status == PendingPayment && w.appts[a].intent.Some? && Captured(w, w.appts[a].intent.value) {
      AppliedStays(w, w.appts[a].intent.value, up);
      Facts(w, w.appts[a].intent.value, 0);
    }
  }

  /** start, uninterrupted, is a run of the protocol. */
  lemma StartEndsSafe(w: World, a: Id, now: int, j: Id)
    requires Inv(w) && w.procs == map[] && StartEnabled(w, 0, ReadRow(a, now)) && j !in w.intents
    ensures var r := w.appts[a];
      && (r.intent.Some? && r.intent.value in w.intents && w.intents[r.intent.value].status == Open ==>
            Inv(SetIntent(w, r.intent.value, w.intents[r.intent.value].(secretOut := true))))
      && (r.intent.Some? ==> r.intent.value in w.intents)
      && (r.intent.None? || w.intents[r.intent.value].status == Canceled ==>
            Inv(SetIntent(PutRow(w, a, r.(intent := Some(j))), j, Intent(a, r.depositAmount, Open, true))))
  {
    RowFacts(w, a);
    NoCallLeft();
    var w1 := StartNext(w, 0, ReadRow(a, now));
    StartKeeps(w, 0, ReadRow(a, now));
    var w2 := StartNext(w1, 0, Lookup);
    StartKeeps(w1, 0, Lookup);
    var r := w.appts[a];
    if r.intent.None? || w.intents[r.intent.value].status == Canceled {
      var w3 := StartNext(w2, 0, Create(j));
      StartKeeps(w2, 0, Create(j));
      var w4 := StartNext(w3, 0, Store);
      StartKeeps(w3, 0, Store);
      assert w4.procs == map[];
      assert w4.intents == w.intents[j := Intent(a, r.depositAmount, Open, true)];
      assert w4 == SetIntent(PutRow(w, a, r.(intent := Some(j))), j, Intent(a, r.depositAmount, Open, true));
    } else if w.intents[r.intent.value].status == Open {
      assert w2.procs == map[];
      assert w2 == SetIntent(w, r.intent.value, w.intents[r.intent.value].(secretOut := true));
    }
  }
}
