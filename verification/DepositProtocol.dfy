/**
 The online deposit of an appointment as a state machine over the database rows
 and Stripe. Every actor (the client's screen, the webhook, the expiry routine,
 the staff) is a process whose database and Stripe accesses are separate steps,
 so any two of them can interleave anywhere.
 */
module DepositProtocol {
  import opened Prelude

  type Id = nat

  datatype Status = PendingPayment | Confirmed | InProgress | Completed | NoShow | Cancelled

  /** The columns of an appointment the deposit uses (src/barbershop/deposit-payment.service.ts). */
  datatype Appt = Appt(
    status: Status,
    holdUntil: Option<int>,
    depositAmount: nat,      // minor units
    depositPaid: bool,
    paidAt: bool,            // depositPaidAt is set: paid online
    intent: Option<Id>,      // depositPaymentIntentId
    refundedAt: bool,        // depositRefundedAt is set
    startAt: int,
    endAt: int,
    sale: bool,
    linkVersion: nat)

  /** A row as the booking page creates it. */
  predicate Unpaid(r: Appt) {
    !r.depositPaid && !r.paidAt && r.intent == None && !r.refundedAt
  }

  datatype IntentStatus = Open | Succeeded | Canceled

  /** A Stripe PaymentIntent; `appt` is metadata.appointmentId, `secretOut` says start returned its client secret. */
  datatype Intent = Intent(appt: Id, amount: nat, status: IntentStatus, secretOut: bool)

  /** Where an interrupted call stands, with the row snapshot it holds. */
  datatype Proc =
    | StartLook(a: Id, snap: Appt)
    | StartMint(a: Id, snap: Appt)
    | StartSave(a: Id, snap: Appt, minted: Id)
    | FinWrite(i: Id, found: Option<Appt>)
    | FinClaim(i: Id)
    | RefundCall(i: Id)
    | BackClaim(a: Id, i: Id)
    | BackCall(a: Id, i: Id)

  /**
   The database (appts, gone), Stripe (intents, keys, refunds), the calls in
   flight (procs) and what happened so far (the sets): intents finalize is done
   with, intents whose refund finalize committed to, intents an explicit refund
   claimed, refund calls that failed or died, rows whose deposit was marked by
   hand, rows deleted under a call in flight.
   */
  datatype World = World(
    appts: map<Id, Appt>,
    gone: set<Id>,
    intents: map<Id, Intent>,
    keys: set<Id>,
    refunds: seq<Id>,
    procs: map<nat, Proc>,
    handled: set<Id>,
    unapplied: set<Id>,
    back: set<Id>,
    lost: set<Id>,
    byHand: set<Id>,
    cutShort: set<Id>)

  const EMPTY := World(map[], {}, map[], {}, [], map[], {}, {}, {}, {}, {}, {})

  predicate Live(w: World, a: Id) {
    a in w.appts && a !in w.gone
  }

  predicate Captured(w: World, i: Id) {
    i in w.intents && w.intents[i].status == Succeeded
  }

  /** The card can still be charged, or already was. */
  predicate Payable(w: World, i: Id) {
    i in w.intents && w.intents[i].secretOut && w.intents[i].status != Canceled
  }

  /** The deposit stands on its appointment. */
  predicate Applied(w: World, i: Id) {
    && i in w.intents
    && Live(w, w.intents[i].appt)
    && var r := w.appts[w.intents[i].appt];
       r.depositPaid && r.paidAt && !r.refundedAt && r.intent == Some(i)
  }

  /** A refund of the intent was committed to (by finalize, or claimed by an explicit refund). */
  predicate Refunding(w: World, i: Id) {
    i in w.unapplied || i in w.back
  }

  /** Nothing outside the protocol touched the row of this intent. */
  predicate Undisturbed(w: World, i: Id) {
    i in w.intents ==> w.intents[i].appt !in w.byHand && w.intents[i].appt !in w.cutShort
  }

  // ---- the steps ----

  /** What happens around the protocol: bookings, the card, and the writes other code makes on the row. */
  datatype OutsideStep =
    | Book(a: Id, row: Appt)
    | Capture(i: Id)
    | CancelAtStripe(i: Id)
    | Expire(a: Id)
    | StaffSet(a: Id, status: Status, hold: Option<int>, bump: nat)
    | HandMark(a: Id, paid: bool)
    | Delete(a: Id)
    | RefundReported(i: Id)

  /** start (130-195): read the row, look at Stripe, create an intent, save it by compare-and-set. */
  datatype StartStep = ReadRow(a: Id, now: int) | Lookup | Create(j: Id) | Store

  /** finalize (212-301): read the row, confirm it, claim a late payment, call Stripe. */
  datatype FinalizeStep = Read(i: Id) | Write | Claim | Whole(i: Id) | Send(ok: bool)

  /** refundOnlineDeposit: read the row, claim the refund, call Stripe (undone when Stripe refuses). */
  datatype BackStep = Look(a: Id) | Take | Return(ok: bool)

  datatype Step =
    | Outside(o: OutsideStep)
    | Start(p: nat, s: StartStep)
    | Finalize(p: nat, f: FinalizeStep)
    | Back(p: nat, b: BackStep)
    | Crash(p: nat)

  /** A call in flight that would still write the row or send its money back. */
  predicate Touches(w: World, q: Proc, a: Id) {
    match q
    case FinWrite(i, _) => i in w.intents && w.intents[i].appt == a
    case FinClaim(i) => i in w.intents && w.intents[i].appt == a
    case BackClaim(b, _) => b == a
    case BackCall(b, _) => b == a
    case _ => false
  }

  // ---- the writes the steps are made of ----

  function PutRow(w: World, a: Id, r: Appt): World {
    w.(appts := w.appts[a := r])
  }

  function Goto(w: World, p: nat, q: Proc): World {
    w.(procs := w.procs[p := q])
  }

  function Finish(w: World, p: nat): World {
    w.(procs := w.procs - {p})
  }

  function SetIntent(w: World, i: Id, x: Intent): World {
    w.(intents := w.intents[i := x])
  }

  /** The row finalize confirms (deposit-payment.service.ts:231-245). */
  function ConfirmedRow(r: Appt, i: Id): Appt {
    r.(status := Confirmed, depositPaid := true, paidAt := true, intent := Some(i), holdUntil := None)
  }

  /** createRefund with the key deposit-refund-<intent>: Stripe answers a repeated key without refunding again. */
  function StripeRefund(w: World, i: Id): World {
    if i in w.keys then w else w.(keys := w.keys + {i}, refunds := w.refunds + [i])
  }

  /** findFirst by depositPaymentIntentId or by the appointment id in the metadata. */
  function FoundRow(w: World, i: Id): Option<Appt>
    requires i in w.intents
  {
    if Live(w, w.intents[i].appt) then Some(w.appts[w.intents[i].appt]) else None
  }

  /** finalize gives the money back and keeps no record of it on the row (290-301). */
  function GiveBack(w: World, p: nat, i: Id): World {
    Goto(w, p, RefundCall(i)).(unapplied := w.unapplied + {i}, handled := w.handled + {i})
  }

  function Handled(w: World, p: nat, i: Id): World {
    Finish(w, p).(handled := w.handled + {i})
  }

  function FinalizeWriteStep(w: World, p: nat, i: Id, found: Option<Appt>): World
    requires i in w.intents
  {
    var a := w.intents[i].appt;
    if found.None? then GiveBack(w, p, i)
    else if Live(w, a) && w.appts[a].status == PendingPayment then
      Handled(PutRow(w, a, ConfirmedRow(w.appts[a], i)), p, i)
    else
      var snap := found.value;
      if snap.status == Cancelled && !snap.depositPaid then Goto(w, p, FinClaim(i))
      else if snap.intent == Some(i) && (snap.depositPaid || snap.refundedAt) then Handled(w, p, i)
      else GiveBack(w, p, i)
  }

  function FinalizeClaimStep(w: World, p: nat, i: Id): World
    requires i in w.intents
  {
    var a := w.intents[i].appt;
    if Live(w, a) && !w.appts[a].refundedAt then
      GiveBack(PutRow(w, a, w.appts[a].(intent := Some(i), refundedAt := true)), p, i)
    else Handled(w, p, i)
  }

  /** finalize with nothing running between its read and its writes. */
  function FinalizeWholeStep(w: World, p: nat, i: Id): World
    requires i in w.intents
  {
    var v := FinalizeWriteStep(Goto(w, p, FinWrite(i, FoundRow(w, i))), p, i, FoundRow(w, i));
    if p in v.procs && v.procs[p] == FinClaim(i) then FinalizeClaimStep(v, p, i) else v
  }

  function BackTakeStep(w: World, p: nat, a: Id, i: Id): World {
    if Live(w, a) && w.appts[a].depositPaid && !w.appts[a].refundedAt && w.appts[a].intent == Some(i) then
      Goto(PutRow(w, a, w.appts[a].(depositPaid := false, refundedAt := true)), p, BackCall(a, i))
        .(back := w.back + {i})
    else Finish(w, p)
  }

  /** Stripe refused: the claim is undone, if the row is still there. */
  function BackSendStep(w: World, p: nat, a: Id, i: Id, ok: bool): World {
    if ok then Finish(StripeRefund(w, i), p)
    else if Live(w, a) && w.appts[a].refundedAt then
      Finish(PutRow(w, a, w.appts[a].(depositPaid := true, refundedAt := false)), p).(back := w.back - {i})
    else Finish(w, p).(lost := w.lost + {i})
  }

  function StartLookupStep(w: World, p: nat, a: Id, snap: Appt): World
    requires snap.intent.Some? ==> snap.intent.value in w.intents
  {
    if snap.intent.None? then Goto(w, p, StartMint(a, snap))
    else
      var i := snap.intent.value;
      match w.intents[i].status
      case Succeeded => Finish(w, p)
      case Canceled => Goto(w, p, StartMint(a, snap))
      case Open => Finish(SetIntent(w, i, w.intents[i].(secretOut := true)), p)
  }

  /** The compare-and-set of start (175-186): the first one to save wins, the other keeps its secret. */
  function StartStoreStep(w: World, p: nat, a: Id, snap: Appt, j: Id): World
    requires j in w.intents
  {
    if Live(w, a) && w.appts[a].intent == snap.intent then
      Finish(SetIntent(PutRow(w, a, w.appts[a].(intent := Some(j))), j, w.intents[j].(secretOut := true)), p)
    else Finish(w, p)
  }

  /** The charge.refunded webhook (app-payments.service.ts:484-502): the row that has the intent is marked refunded. */
  function ReportedStep(w: World, i: Id): World
    requires i in w.intents
  {
    var a := w.intents[i].appt;
    if Live(w, a) && w.appts[a].intent == Some(i) && !w.appts[a].refundedAt then
      PutRow(w, a, w.appts[a].(depositPaid := false, refundedAt := true))
    else w
  }

  // ---- one step of each actor ----

  predicate OutsideEnabled(w: World, o: OutsideStep) {
    match o
    case Book(a, row) => a !in w.appts && Unpaid(row) && row.status in {PendingPayment, Confirmed}
    case Capture(i) => Payable(w, i) && w.intents[i].status == Open
    case CancelAtStripe(i) => i in w.intents && w.intents[i].status == Open
    case Expire(a) => Live(w, a) && w.appts[a].status == PendingPayment
    case StaffSet(a, status, _, _) => Live(w, a) && status != PendingPayment
    case HandMark(a, _) => Live(w, a) && !w.appts[a].paidAt && !w.appts[a].refundedAt
    case Delete(a) => Live(w, a) && !w.appts[a].depositPaid
    case RefundReported(i) => i in w.refunds && i in w.intents
  }

  function OutsideNext(w: World, o: OutsideStep): World
    requires OutsideEnabled(w, o)
  {
    match o
    case Book(a, row) => PutRow(w, a, row)
    case Capture(i) => SetIntent(w, i, w.intents[i].(status := Succeeded))
    case CancelAtStripe(i) => SetIntent(w, i, w.intents[i].(status := Canceled))
    case Expire(a) => PutRow(w, a, w.appts[a].(status := Cancelled, holdUntil := None))
    case StaffSet(a, status, hold, bump) =>
      var r := w.appts[a];
      PutRow(w, a, r.(status := status, holdUntil := hold, linkVersion := r.linkVersion + bump))
    case HandMark(a, paid) => PutRow(w, a, w.appts[a].(depositPaid := paid)).(byHand := w.byHand + {a})
    case Delete(a) =>
      w.(gone := w.gone + {a},
         cutShort := if exists p :: p in w.procs && Touches(w, w.procs[p], a) then w.cutShort + {a} else w.cutShort)
    case RefundReported(i) => ReportedStep(w, i)
  }

  predicate StartEnabled(w: World, p: nat, s: StartStep) {
    match s
    case ReadRow(a, now) =>
      && p !in w.procs && Live(w, a)
      && w.appts[a].status == PendingPayment
      && w.appts[a].holdUntil.Some? && w.appts[a].holdUntil.value > now
      && w.appts[a].depositAmount > 0
    case Lookup =>
      && p in w.procs && w.procs[p].StartLook?
      && (w.procs[p].snap.intent.Some? ==> w.procs[p].snap.intent.value in w.intents)
    case Create(j) => p in w.procs && w.procs[p].StartMint? && j !in w.intents
    case Store => p in w.procs && w.procs[p].StartSave? && w.procs[p].minted in w.intents
  }

  function StartNext(w: World, p: nat, s: StartStep): World
    requires StartEnabled(w, p, s)
  {
    match s
    case ReadRow(a, _) => Goto(w, p, StartLook(a, w.appts[a]))
    case Lookup => StartLookupStep(w, p, w.procs[p].a, w.procs[p].snap)
    case Create(j) =>
      var q := w.procs[p];
      Goto(SetIntent(w, j, Intent(q.a, q.snap.depositAmount, Open, false)), p, StartSave(q.a, q.snap, j))
    case Store => StartStoreStep(w, p, w.procs[p].a, w.procs[p].snap, w.procs[p].minted)
  }

  predicate FinalizeEnabled(w: World, p: nat, f: FinalizeStep) {
    match f
    case Read(i) => p !in w.procs && Captured(w, i)
    case Write => p in w.procs && w.procs[p].FinWrite? && w.procs[p].i in w.intents
    case Claim => p in w.procs && w.procs[p].FinClaim? && w.procs[p].i in w.intents
    case Whole(i) => p !in w.procs && Captured(w, i)
    case Send(_) => p in w.procs && w.procs[p].RefundCall?
  }

  function FinalizeNext(w: World, p: nat, f: FinalizeStep): World
    requires FinalizeEnabled(w, p, f)
  {
    match f
    case Read(i) => Goto(w, p, FinWrite(i, FoundRow(w, i)))
    case Write => FinalizeWriteStep(w, p, w.procs[p].i, w.procs[p].found)
    case Claim => FinalizeClaimStep(w, p, w.procs[p].i)
    case Whole(i) => FinalizeWholeStep(w, p, i)
    case Send(ok) =>
      var i := w.procs[p].i;
      if ok then Finish(StripeRefund(w, i), p) else Finish(w, p).(lost := w.lost + {i})
  }

  predicate BackEnabled(w: World, p: nat, b: BackStep) {
    match b
    case Look(a) =>
      p !in w.procs && Live(w, a) && w.appts[a].intent.Some? && w.appts[a].paidAt && !w.appts[a].sale
    case Take => p in w.procs && w.procs[p].BackClaim?
    case Return(_) => p in w.procs && w.procs[p].BackCall?
  }

  function BackNext(w: World, p: nat, b: BackStep): World
    requires BackEnabled(w, p, b)
  {
    match b
    case Look(a) => Goto(w, p, BackClaim(a, w.appts[a].intent.value))
    case Take => BackTakeStep(w, p, w.procs[p].a, w.procs[p].i)
    case Return(ok) => BackSendStep(w, p, w.procs[p].a, w.procs[p].i, ok)
  }

  /** The process dies: a refund it was about to send is not sent. */
  function CrashNext(w: World, p: nat): World
    requires p in w.procs
  {
    var q := w.procs[p];
    Finish(w, p).(lost := if q.RefundCall? || q.BackCall? then w.lost + {q.i} else w.lost)
  }

  predicate Enabled(w: World, s: Step) {
    match s
    case Outside(o) => OutsideEnabled(w, o)
    case Start(p, s) => StartEnabled(w, p, s)
    case Finalize(p, f) => FinalizeEnabled(w, p, f)
    case Back(p, b) => BackEnabled(w, p, b)
    case Crash(p) => p in w.procs
  }

  function Next(w: World, s: Step): World
    requires Enabled(w, s)
  {
    match s
    case Outside(o) => OutsideNext(w, o)
    case Start(p, s) => StartNext(w, p, s)
    case Finalize(p, f) => FinalizeNext(w, p, f)
    case Back(p, b) => BackNext(w, p, b)
    case Crash(p) => CrashNext(w, p)
  }

  /** Every step of the run can be taken where it comes. */
  predicate Legal(w: World, run: seq<Step>)
    decreases |run|
  {
    run == [] || (Enabled(w, run[0]) && Legal(Next(w, run[0]), run[1..]))
  }

  function After(w: World, run: seq<Step>): World
    requires Legal(w, run)
    decreases |run|
  {
    if run == [] then w else After(Next(w, run[0]), run[1..])
  }
}
