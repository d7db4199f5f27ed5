/** The deposit protocol's promises, over every run from an empty database. */
module DepositTheorems {
  import opened Prelude
  import opened DepositProtocol
  import opened DepositSafety

  lemma EmptyIsSafe()
    ensures Inv(EMPTY)
  {
  }

  /**
   Conservation under any interleaving: captured money that finalize is done with
   stands on its appointment or has a refund committed, and Stripe refunds no
   intent twice and only captured ones.
   */
  lemma DepositConserved(run: seq<Step>)
    requires Legal(EMPTY, run)
    ensures var v := After(EMPTY, run);
      && (forall i :: i in v.handled && Undisturbed(v, i) ==> Applied(v, i) || Refunding(v, i))
      && (forall j, k :: 0 <= j < k < |v.refunds| ==> v.refunds[j] != v.refunds[k])
      && (forall i :: i in v.refunds ==> Captured(v, i))
  {
    EmptyIsSafe();
    RunKeepsInv(EMPTY, run);
    var v := After(EMPTY, run);
    forall i
      ensures i in v.handled && Undisturbed(v, i) ==> Applied(v, i) || Refunding(v, i)
      ensures i in v.refunds ==> Captured(v, i)
    {
      assert IntentOk(v, i);
    }
  }

  /**
   One payable intent per appointment: an intent whose client secret was returned is
   the recorded one or canceled, so at most one was ever captured, and a row marked
   refunded is marked for exactly that intent.
   */
  lemma OnePayableIntent(run: seq<Step>, i: Id, j: Id)
    requires Legal(EMPTY, run)
    ensures var v := After(EMPTY, run);
      && (i in v.intents && v.intents[i].secretOut ==>
            && v.intents[i].appt in v.appts
            && (v.intents[i].status == Canceled || v.appts[v.intents[i].appt].intent == Some(i)))
      && (Captured(v, i) && Captured(v, j) && v.intents[i].appt == v.intents[j].appt ==> i == j)
      && (Captured(v, i) ==> v.intents[i].appt in v.appts && (v.appts[v.intents[i].appt].refundedAt ==> Refunding(v, i)))
  {
    EmptyIsSafe();
    RunKeepsInv(EMPTY, run);
    var v := After(EMPTY, run);
    assert IntentOk(v, i) && IntentOk(v, j);
    if i in v.intents { assert RowOk(v, v.intents[i].appt); }
  }

  // ---- the webhook, delivered at any point of any run ----

  /** A deposit the staff recorded by hand on a row that no longer waits for the online one. */
  predicate HeldByHand(w: World, i: Id)
    requires i in w.intents
  {
    && Live(w, w.intents[i].appt)
    && var r := w.appts[w.intents[i].appt];
       r.status != PendingPayment && r.depositPaid && !r.paidAt
  }

  /**
   finalize of a captured intent, whatever happened before, ends with the money applied
   or on its way back, exactly unless the row carries a deposit marked by hand (the test
   of deposit-payment.service.ts:278 takes it for this intent's own).
   */
  lemma WebhookSettles(w: World, p: nat, i: Id)
    requires Inv(w) && FinalizeEnabled(w, p, Whole(i))
    ensures var v := FinalizeNext(w, p, Whole(i));
      && i in v.handled
      && (Applied(v, i) || Refunding(v, i) <==> !HeldByHand(w, i) || Refunding(w, i))
  {
    Facts(w, i, p);
  }

  /** A second delivery changes nothing once the first one settled on the row. */
  lemma RedeliveryChangesNothing(w: World, p: nat, i: Id)
    requires Inv(w) && FinalizeEnabled(w, p, Whole(i))
    requires i in w.handled && Live(w, w.intents[i].appt)
    requires Applied(w, i) || w.appts[w.intents[i].appt].refundedAt
    ensures FinalizeNext(w, p, Whole(i)) == w
  {
    Facts(w, i, p);
    assert w.procs[p := FinWrite(i, FoundRow(w, i))] - {p} == w.procs;
    assert w.procs[p := FinWrite(i, FoundRow(w, i))][p := FinClaim(i)] - {p} == w.procs;
    assert w.handled + {i} == w.handled;
  }

  // ---- with finalize undivided, exactly one of the two ----

  predicate Undivided(s: Step) {
    s.Finalize? ==> s.f.Whole? || s.f.Send?
  }

  ghost predicate OneSide(w: World, i: Id) {
    i in w.intents && w.intents[i].appt in w.appts ==>
      var r := w.appts[w.intents[i].appt];
      && (i in w.unapplied ==> !Applied(w, i) && (Live(w, w.intents[i].appt) ==> r.status != PendingPayment))
      && (i in w.keys ==> i in w.unapplied || r.refundedAt)
      && (i in w.back ==> r.refundedAt)
  }

  ghost predicate OneSideProc(w: World, q: Proc) {
    && !q.FinWrite? && !q.FinClaim?
    && (q.BackCall? ==> q.a in w.gone || (q.i !in w.unapplied && q.i !in w.keys))
  }

  ghost predicate Exclusive(w: World) {
    && Inv(w)
    && (forall i :: OneSide(w, i))
    && (forall p :: p in w.procs ==> OneSideProc(w, w.procs[p]))
  }

  lemma OneSideOutside(w: World, o: OutsideStep, i: Id)
    requires Exclusive(w) && OutsideEnabled(w, o)
    ensures OneSide(OutsideNext(w, o), i)
  {
    assert OneSide(w, i);
    Facts(w, i, 0);
    Facts(w, Touched(Outside(o)), 0);
  }

  lemma OneSideStart(w: World, p: nat, s: StartStep, i: Id)
    requires Exclusive(w) && StartEnabled(w, p, s)
    ensures OneSide(StartNext(w, p, s), i)
  {
    assert OneSide(w, i);
    Facts(w, i, p);
    if s.Create? { Facts(w, s.j, p); }
  }

  lemma OneSideWhole(w: World, p: nat, i: Id)
    requires Exclusive(w) && FinalizeEnabled(w, p, Whole(i))
    ensures OneSide(FinalizeNext(w, p, Whole(i)), i)
  {
    assert OneSide(w, i);
    Facts(w, i, p);
  }

  lemma OneSideBesides(w: World, p: nat, j: Id, i: Id)
    requires Exclusive(w) && FinalizeEnabled(w, p, Whole(j)) && j != i
    ensures OneSide(FinalizeNext(w, p, Whole(j)), i)
  {
    assert OneSide(w, i);
    Facts(w, i, p);
    Facts(w, j, p);
  }

  lemma OneSideSend(w: World, p: nat, ok: bool, i: Id)
    requires Exclusive(w) && FinalizeEnabled(w, p, Send(ok))
    ensures OneSide(FinalizeNext(w, p, Send(ok)), i)
  {
    assert OneSide(w, i);
    Facts(w, i, p);
  }

  lemma OneSideBack(w: World, p: nat, b: BackStep, i: Id)
    requires Exclusive(w) && BackEnabled(w, p, b)
    ensures OneSide(BackNext(w, p, b), i)
  {
    assert OneSide(w, i) && (p in w.procs ==> OneSideProc(w, w.procs[p]));
    Facts(w, i, p);
  }

  lemma StepKeepsOneSide(w: World, s: Step, i: Id)
    requires Exclusive(w) && Enabled(w, s) && Undivided(s)
    ensures OneSide(Next(w, s), i)
  {
    match s
    case Outside(o) => OneSideOutside(w, o, i);
    case Start(p, t) => OneSideStart(w, p, t, i);
    case Finalize(p, f) =>
      if f.Send? { OneSideSend(w, p, f.ok, i); }
      else if f.i == i { OneSideWhole(w, p, i); }
      else { OneSideBesides(w, p, f.i, i); }
    case Back(p, b) => OneSideBack(w, p, b, i);
    case Crash(p) => assert OneSide(w, i);
  }

  lemma ExclusiveOutside(w: World, o: OutsideStep, r: nat)
    requires Exclusive(w) && OutsideEnabled(w, o)
    ensures var v := OutsideNext(w, o); r in v.procs ==> OneSideProc(v, v.procs[r])
  {
  }

  lemma ExclusiveStart(w: World, p: nat, s: StartStep, r: nat)
    requires Exclusive(w) && StartEnabled(w, p, s)
    ensures var v := StartNext(w, p, s); r in v.procs ==> OneSideProc(v, v.procs[r])
  {
    assert r in w.procs ==> OneSideProc(w, w.procs[r]);
  }

  lemma ExclusiveWhole(w: World, p: nat, j: Id, r: nat)
    requires Exclusive(w) && FinalizeEnabled(w, p, Whole(j))
    ensures var v := FinalizeNext(w, p, Whole(j)); r in v.procs ==> OneSideProc(v, v.procs[r])
  {
    assert r in w.procs ==> OneSideProc(w, w.procs[r]);
    Facts(w, j, r);
  }

  lemma ExclusiveSend(w: World, p: nat, ok: bool, r: nat)
    requires Exclusive(w) && FinalizeEnabled(w, p, Send(ok))
    ensures var v := FinalizeNext(w, p, Send(ok)); r in v.procs ==> OneSideProc(v, v.procs[r])
  {
    assert r in w.procs ==> OneSideProc(w, w.procs[r]);
    Facts(w, w.procs[p].i, r);
  }

  lemma ExclusiveBack(w: World, p: nat, b: BackStep, r: nat)
    requires Exclusive(w) && BackEnabled(w, p, b)
    ensures var v := BackNext(w, p, b); r in v.procs ==> OneSideProc(v, v.procs[r])
  {
    assert r in w.procs ==> OneSideProc(w, w.procs[r]);
    assert p in w.procs ==> OneSideProc(w, w.procs[p]);
    assert p in w.procs && w.procs[p].BackClaim? ==> OneSide(w, w.procs[p].i);
    Facts(w, 0, r);
    Facts(w, 0, p);
  }

  lemma ExclusiveCrash(w: World, p: nat, r: nat)
    requires Exclusive(w) && p in w.procs
    ensures var v := CrashNext(w, p); r in v.procs ==> OneSideProc(v, v.procs[r])
  {
  }

  lemma StepKeepsOneSideProc(w: World, s: Step, r: nat)
    requires Exclusive(w) && Enabled(w, s) && Undivided(s)
    ensures r in Next(w, s).procs ==> OneSideProc(Next(w, s), Next(w, s).procs[r])
  {
    match s
    case Outside(o) => ExclusiveOutside(w, o, r);
    case Start(p, t) => ExclusiveStart(w, p, t, r);
    case Finalize(p, f) => if f.Send? { ExclusiveSend(w, p, f.ok, r); } else { ExclusiveWhole(w, p, f.i, r); }
    case Back(p, b) => ExclusiveBack(w, p, b, r);
    case Crash(p) => ExclusiveCrash(w, p, r);
  }

  lemma StepKeepsExclusive(w: World, s: Step)
    requires Exclusive(w) && Enabled(w, s) && Undivided(s)
    ensures Exclusive(Next(w, s))
  {
    StepKeepsInv(w, s);
    var v := Next(w, s);
    forall i ensures OneSide(v, i) { StepKeepsOneSide(w, s, i); }
    forall r | r in v.procs ensures OneSideProc(v, v.procs[r]) { StepKeepsOneSideProc(w, s, r); }
  }

  lemma {:induction false} RunKeepsExclusive(w: World, run: seq<Step>)
    requires Exclusive(w) && Legal(w, run) && forall s :: s in run ==> Undivided(s)
    ensures Exclusive(After(w, run))
    decreases |run|
  {
    if run != [] {
      StepKeepsExclusive(w, run[0]);
      RunKeepsExclusive(Next(w, run[0]), run[1..]);
    }
  }

  /**
   When no two finalizes overlap, a handled deposit is on exactly one side: applied to its
   appointment, or refunding; and nothing that stands on a row was refunded at Stripe.
   */
  lemma ExactlyOneSide(run: seq<Step>, i: Id)
    requires Legal(EMPTY, run) && forall s :: s in run ==> Undivided(s)
    ensures var v := After(EMPTY, run);
      && (i in v.handled && Undisturbed(v, i) ==> (Applied(v, i) <==> !Refunding(v, i)))
      && (Applied(v, i) ==> i !in v.refunds && !Refunding(v, i))
  {
    EmptyIsSafe();
    assert Exclusive(EMPTY);
    RunKeepsExclusive(EMPTY, run);
    var v := After(EMPTY, run);
    assert IntentOk(v, i) && OneSide(v, i);
  }

  // ---- overlapping finalizes ----

  /** The row a finalize read sends it to the claim of a late payment. */
  predicate ReadAsLate(snap: Appt) {
    snap.status == Cancelled && !snap.depositPaid
  }

  /** The row a finalize read says that this payment was dealt with (278). */
  predicate ReadAsDone(snap: Appt, i: Id) {
    snap.intent == Some(i) && (snap.depositPaid || snap.refundedAt)
  }

  /** The write of a finalize, and its claim when it goes on to one with nothing in between. */
  function WrittenAndClaimed(w: World, p: nat): World
    requires FinalizeEnabled(w, p, Write)
  {
    var v := FinalizeNext(w, p, Write);
    if FinalizeEnabled(v, p, Claim) then FinalizeNext(v, p, Claim) else v
  }

  /**
   Where the exclusion breaks: a finalize that reaches its write when the deposit already stands
   refunds it as well, exactly when the row it read was cancelled without the deposit, or did
   not say that this payment was dealt with. In the first case its claim also takes the deposit
   off the row.
   */
  lemma StaleReadRefundsAppliedDeposit(w: World, p: nat, snap: Appt)
    requires Inv(w) && FinalizeEnabled(w, p, Write) && w.procs[p].found == Some(snap) && Applied(w, w.procs[p].i)
    ensures var v := WrittenAndClaimed(w, p); var i := w.procs[p].i;
      && (p in v.procs && v.procs[p] == RefundCall(i) <==> ReadAsLate(snap) || !ReadAsDone(snap, i))
      && (Applied(v, i) <==> !ReadAsLate(snap))
  {
    Facts(w, w.procs[p].i, p);
  }

  /** Once Stripe reports the refund, the row no longer has the deposit. */
  lemma ReportTakesTheDepositOff(w: World, i: Id)
    requires Inv(w) && OutsideEnabled(w, RefundReported(i))
    ensures var v := OutsideNext(w, RefundReported(i)); !Applied(v, i) && Refunding(v, i)
  {
    Facts(w, i, 0);
  }

  // ---- exactly which steps settle a payment ----

  predicate Kept(w: World, i: Id) {
    Applied(w, i) || Refunding(w, i)
  }

  /** The claim settles the payment exactly unless the row is gone and nothing settled it before. */
  lemma ClaimSettles(w: World, p: nat)
    requires Inv(w) && FinalizeEnabled(w, p, Claim)
    ensures var i := w.procs[p].i; var v := FinalizeNext(w, p, Claim);
      i in v.handled && (Kept(v, i) <==> Live(w, w.intents[i].appt) || Refunding(w, i))
  {
    Facts(w, w.procs[p].i, p);
  }

  /**
   The write, past the confirmation and short of the claim, settles the payment exactly unless
   the row it read says this payment was dealt with, and it was not.
   */
  lemma WriteSettles(w: World, p: nat, snap: Appt)
    requires Inv(w) && FinalizeEnabled(w, p, Write) && w.procs[p].found == Some(snap) && !ReadAsLate(snap)
    requires var a := w.intents[w.procs[p].i].appt; !(Live(w, a) && w.appts[a].status == PendingPayment)
    ensures var i := w.procs[p].i; var v := FinalizeNext(w, p, Write);
      i in v.handled && (Kept(v, i) <==> Kept(w, i) || !ReadAsDone(snap, i))
  {
    Facts(w, w.procs[p].i, p);
  }

  /** The step settles this payment, by what it finds before it: the branches of finalize that act. */
  predicate SettlesAt(w: World, s: Step, i: Id)
    requires Enabled(w, s)
  {
    s.Finalize? &&
    match s.f
    case Write =>
      && w.procs[s.p].i == i
      && var a := w.intents[i].appt; var found := w.procs[s.p].found;
         || found.None? || (Live(w, a) && w.appts[a].status == PendingPayment)
         || (!ReadAsLate(found.value) && !ReadAsDone(found.value, i))
    case Claim => w.procs[s.p].i == i && Live(w, w.intents[i].appt)
    case Whole(j) => j == i && !HeldByHand(w, i)
    case _ => false
  }

  lemma KeptOutside(w: World, o: OutsideStep, i: Id)
    requires Inv(w) && OutsideEnabled(w, o)
    ensures Kept(OutsideNext(w, o), i) <==> Kept(w, i)
  {
    Facts(w, i, 0);
    if o.HandMark? { Facts(w, o.a, 0); }
  }

  lemma KeptStart(w: World, p: nat, s: StartStep, i: Id)
    requires Inv(w) && StartEnabled(w, p, s)
    ensures Kept(StartNext(w, p, s), i) <==> Kept(w, i)
  {
    Facts(w, i, p);
  }

  lemma KeptWrite(w: World, p: nat, i: Id)
    requires Inv(w) && FinalizeEnabled(w, p, Write)
    ensures Kept(FinalizeNext(w, p, Write), i) <==> Kept(w, i) || SettlesAt(w, Finalize(p, Write), i)
  {
    Facts(w, i, p);
  }

  lemma KeptClaim(w: World, p: nat, i: Id)
    requires Inv(w) && FinalizeEnabled(w, p, Claim)
    ensures Kept(FinalizeNext(w, p, Claim), i) <==> Kept(w, i) || SettlesAt(w, Finalize(p, Claim), i)
  {
    Facts(w, i, p);
  }

  lemma KeptWhole(w: World, p: nat, j: Id, i: Id)
    requires Inv(w) && FinalizeEnabled(w, p, Whole(j))
    ensures Kept(FinalizeNext(w, p, Whole(j)), i) <==> Kept(w, i) || SettlesAt(w, Finalize(p, Whole(j)), i)
  {
    Facts(w, i, p);
    Facts(w, j, p);
  }

  lemma KeptBack(w: World, p: nat, b: BackStep, i: Id)
    requires Inv(w) && BackEnabled(w, p, b)
    ensures Kept(BackNext(w, p, b), i) <==> Kept(w, i)
  {
    Facts(w, i, p);
  }

  lemma KeptFinalize(w: World, p: nat, f: FinalizeStep, i: Id)
    requires Inv(w) && FinalizeEnabled(w, p, f)
    ensures Kept(FinalizeNext(w, p, f), i) <==> Kept(w, i) || SettlesAt(w, Finalize(p, f), i)
  {
    match f
    case Write => KeptWrite(w, p, i);
    case Claim => KeptClaim(w, p, i);
    case Whole(j) => KeptWhole(w, p, j, i);
    case _ =>
  }

  lemma StepKeeps(w: World, s: Step, i: Id)
    requires Inv(w) && Enabled(w, s)
    ensures Kept(Next(w, s), i) <==> Kept(w, i) || SettlesAt(w, s, i)
  {
    match s
    case Outside(o) => KeptOutside(w, o, i);
    case Start(p, t) => KeptStart(w, p, t, i);
    case Finalize(p, f) => KeptFinalize(w, p, f, i);
    case Back(p, b) => KeptBack(w, p, b, i);
    case Crash(_) =>
  }

  /** Some step of the run settles this payment. */
  predicate SettledIn(w: World, run: seq<Step>, i: Id)
    requires Legal(w, run)
    decreases |run|
  {
    run != [] && (SettlesAt(w, run[0], i) || SettledIn(Next(w, run[0]), run[1..], i))
  }

  lemma {:induction false} KeptAlong(w: World, run: seq<Step>, i: Id)
    requires Inv(w) && Legal(w, run)
    ensures Kept(After(w, run), i) <==> Kept(w, i) || SettledIn(w, run, i)
    decreases |run|
  {
    if run != [] {
      StepKeeps(w, run[0], i);
      StepKeepsInv(w, run[0]);
      KeptAlong(Next(w, run[0]), run[1..], i);
    }
  }

  /**
   Conservation with no exception: in every run a payment is on its appointment or on its way
   back exactly when some finalize settled it, by the row it read and the row it found. Once
   settled it stays so, whatever comes after.
   */
  lemma DepositKeptExactly(run: seq<Step>, i: Id)
    requires Legal(EMPTY, run)
    ensures Applied(After(EMPTY, run), i) || Refunding(After(EMPTY, run), i) <==> SettledIn(EMPTY, run, i)
  {
    EmptyIsSafe();
    KeptAlong(EMPTY, run, i);
  }

  // ---- what a redelivery sends again ----

  /** finalize of this payment commits to a refund: the row is gone, or waits for nothing and shows no deposit. */
  predicate Resends(w: World, i: Id)
    requires i in w.intents
  {
    var a := w.intents[i].appt;
    Live(w, a) ==> w.appts[a].status != PendingPayment && !w.appts[a].depositPaid && !w.appts[a].refundedAt
  }

  /** A delivery commits to a refund, whatever was committed before, exactly by the row it finds. */
  lemma DeliverySends(w: World, p: nat, i: Id)
    requires Inv(w) && FinalizeEnabled(w, p, Whole(i))
    ensures var v := FinalizeNext(w, p, Whole(i)); p in v.procs <==> Resends(w, i)
    ensures Resends(w, i) ==> FinalizeNext(w, p, Whole(i)).procs[p] == RefundCall(i)
  {
    Facts(w, i, p);
  }

  /**
   A refund that was committed and never reached Stripe is sent by the next delivery exactly
   when the row is gone or carries no mark: the claim's own mark keeps it from being sent again.
   */
  lemma RedeliveryRefunds(w: World, p: nat, i: Id)
    requires Inv(w) && FinalizeEnabled(w, p, Whole(i)) && i in w.unapplied && i !in w.keys
    ensures var v := FinalizeNext(w, p, Whole(i));
      var u := if FinalizeEnabled(v, p, Send(true)) then FinalizeNext(v, p, Send(true)) else v;
      i in u.refunds <==> Resends(w, i)
  {
    Facts(w, i, p);
    DeliverySends(w, p, i);
  }

  // ---- refunds that were committed reach Stripe ----

  /** A committed refund was made, or its call is in flight, or its call is known to have failed. */
  ghost predicate Sent(w: World, i: Id) {
    && (i in w.unapplied ==>
          i in w.keys || i in w.lost || exists p :: p in w.procs && w.procs[p] == RefundCall(i))
    && (i in w.back ==>
          i in w.keys || i in w.lost || exists p :: p in w.procs && w.procs[p].BackCall? && w.procs[p].i == i)
  }

  lemma SentOutside(w: World, o: OutsideStep, i: Id)
    requires OutsideEnabled(w, o) && Sent(w, i)
    ensures Sent(OutsideNext(w, o), i)
  {
    assert OutsideNext(w, o).procs == w.procs;
  }

  /** A step of call p leaves the refund calls of the others alone. */
  ghost predicate OthersStay(w: World, v: World, p: nat) {
    forall q :: q in w.procs && q != p ==> q in v.procs && v.procs[q] == w.procs[q]
  }

  lemma SentStart(w: World, p: nat, s: StartStep, i: Id)
    requires StartEnabled(w, p, s) && Sent(w, i)
    ensures Sent(StartNext(w, p, s), i)
  {
    assert OthersStay(w, StartNext(w, p, s), p);
  }

  lemma SentFinalize(w: World, p: nat, f: FinalizeStep, i: Id)
    requires FinalizeEnabled(w, p, f) && !f.Whole? && Sent(w, i)
    ensures Sent(FinalizeNext(w, p, f), i)
  {
    var v := FinalizeNext(w, p, f);
    assert OthersStay(w, v, p);
    assert p in v.procs ==> v.procs[p] == v.procs[p];
  }

  lemma SentWhole(w: World, p: nat, j: Id, i: Id)
    requires FinalizeEnabled(w, p, Whole(j)) && Sent(w, i)
    ensures Sent(FinalizeNext(w, p, Whole(j)), i)
  {
    var w1 := FinalizeNext(w, p, Read(j));
    SentFinalize(w, p, Read(j), i);
    var w2 := FinalizeNext(w1, p, Write);
    SentFinalize(w1, p, Write, i);
    if p in w2.procs && w2.procs[p] == FinClaim(j) { SentFinalize(w2, p, Claim, i); }
  }

  lemma SentBack(w: World, p: nat, b: BackStep, i: Id)
    requires BackEnabled(w, p, b) && Sent(w, i)
    ensures Sent(BackNext(w, p, b), i)
  {
    var v := BackNext(w, p, b);
    assert OthersStay(w, v, p);
    assert p in v.procs ==> v.procs[p] == v.procs[p];
  }

  lemma SentCrash(w: World, p: nat, i: Id)
    requires p in w.procs && Sent(w, i)
    ensures Sent(CrashNext(w, p), i)
  {
    assert OthersStay(w, CrashNext(w, p), p);
  }

  lemma {:induction false} RunKeepsSent(w: World, run: seq<Step>, i: Id)
    requires Sent(w, i) && Legal(w, run)
    ensures Sent(After(w, run), i)
    decreases |run|
  {
    if run != [] {
      match run[0] {
        case Outside(o) => SentOutside(w, o, i);
        case Start(p, s) => SentStart(w, p, s, i);
        case Finalize(p, f) => if f.Whole? { SentWhole(w, p, f.i, i); } else { SentFinalize(w, p, f, i); }
        case Back(p, b) => SentBack(w, p, b, i);
        case Crash(p) => SentCrash(w, p, i);
      }
      RunKeepsSent(Next(w, run[0]), run[1..], i);
    }
  }

  /**
   Once nothing is in flight and no refund call failed, the captured money finalize is done
   with is either on its row or refunded at Stripe.
   */
  lemma QuietRunSettlesTheMoney(run: seq<Step>, i: Id)
    requires Legal(EMPTY, run)
    ensures var v := After(EMPTY, run);
      v.procs == map[] && i !in v.lost && i in v.handled && Undisturbed(v, i) ==> Applied(v, i) || i in v.refunds
  {
    DepositConserved(run);
    RunKeepsSent(EMPTY, run, i);
    EmptyIsSafe();
    RunKeepsInv(EMPTY, run);
    assert IntentOk(After(EMPTY, run), i);
  }

  // ---- runs in which the code does not keep the promise ----

  lemma {:induction false} Then(w: World, run: seq<Step>, s: Step) returns (longer: seq<Step>)
    requires Legal(w, run) && Enabled(After(w, run), s)
    ensures longer == run + [s] && Legal(w, longer) && After(w, longer) == Next(After(w, run), s)
    decreases |run|
  {
    longer := run + [s];
    if run == [] {
      assert Legal(Next(w, s), [s][1..]);
    } else {
      var rest := Then(Next(w, run[0]), run[1..], s);
      assert longer[1..] == rest;
    }
  }

  const HELD := Appt(PendingPayment, Some(10), 3000, false, false, None, false, 100, 130, false, 0)

  /** One appointment whose deposit the card has just paid. */
  const PAID := EMPTY.(
    appts := map[0 := HELD.(intent := Some(0))],
    intents := map[0 := Intent(0, 3000, Succeeded, true)])

  lemma PaidRun() returns (run: seq<Step>)
    ensures Legal(EMPTY, run) && After(EMPTY, run) == PAID
  {
    run := [];
    run := Then(EMPTY, run, Outside(Book(0, HELD)));
    run := Then(EMPTY, run, Start(0, ReadRow(0, 5)));
    run := Then(EMPTY, run, Start(0, Lookup));
    run := Then(EMPTY, run, Start(0, Create(0)));
    run := Then(EMPTY, run, Start(0, Store));
    run := Then(EMPTY, run, Outside(Capture(0)));
    assert After(EMPTY, run).procs == map[];
  }

  /** The screen and the webhook overlap: the deposit is applied and refunded. */
  lemma OverlapRefundsAppliedDeposit() returns (run: seq<Step>)
    ensures Legal(EMPTY, run)
    ensures var v := After(EMPTY, run); Applied(v, 0) && 0 in v.refunds && Undisturbed(v, 0) && v.procs == map[]
  {
    run := PaidRun();
    run := Then(EMPTY, run, Finalize(1, Read(0)));
    run := Then(EMPTY, run, Finalize(2, Read(0)));
    run := Then(EMPTY, run, Finalize(1, Write));
    run := Then(EMPTY, run, Finalize(2, Write));
    run := Then(EMPTY, run, Finalize(2, Send(true)));
    assert After(EMPTY, run).procs == map[];
  }

  /**
   An explicit refund that Stripe refuses gives the deposit back to a cancelled row. A finalize
   that read the row in between takes it for a late payment and claims the refund again: the row
   is marked paid and refunded at once.
   */
  lemma RefusedRefundIsClaimedAgain() returns (run: seq<Step>)
    ensures Legal(EMPTY, run)
    ensures var v := After(EMPTY, run);
      && 0 in v.refunds && Undisturbed(v, 0) && v.procs == map[]
      && 0 in v.appts && v.appts[0].depositPaid && v.appts[0].refundedAt
  {
    run := ClaimedUnderRefund();
    run := Then(EMPTY, run, Finalize(3, Write));
    run := Then(EMPTY, run, Finalize(3, Claim));
    run := Then(EMPTY, run, Finalize(3, Send(true)));
    assert After(EMPTY, run).procs == map[];
  }

  const CANCELLED := HELD.(status := Cancelled, holdUntil := None, depositPaid := true, paidAt := true,
                           intent := Some(0), linkVersion := 1)

  const UNDER_REFUND := PAID.(
    appts := map[0 := CANCELLED], handled := {0},
    procs := map[3 := FinWrite(0, Some(CANCELLED.(depositPaid := false, refundedAt := true)))])

  lemma ClaimedUnderRefund() returns (run: seq<Step>)
    ensures Legal(EMPTY, run) && After(EMPTY, run) == UNDER_REFUND
  {
    run := PaidRun();
    run := Then(EMPTY, run, Finalize(1, Whole(0)));
    run := Then(EMPTY, run, Outside(StaffSet(0, Cancelled, None, 1)));
    assert After(EMPTY, run).procs == map[];
    run := Then(EMPTY, run, Back(2, Look(0)));
    run := Then(EMPTY, run, Back(2, Take));
    run := Then(EMPTY, run, Finalize(3, Read(0)));
    run := Then(EMPTY, run, Back(2, Return(false)));
    assert After(EMPTY, run).procs == UNDER_REFUND.procs;
    assert After(EMPTY, run).appts == UNDER_REFUND.appts;
  }

  /** The row is deleted between finalize's read and its claim: the money is neither applied nor refunded. */
  lemma DeleteUnderClaimLosesDeposit() returns (run: seq<Step>)
    ensures Legal(EMPTY, run)
    ensures var v := After(EMPTY, run);
      0 in v.handled && !Applied(v, 0) && !Refunding(v, 0) && v.procs == map[] && v.byHand == {}
  {
    run := PaidRun();
    run := Then(EMPTY, run, Outside(Expire(0)));
    run := Then(EMPTY, run, Finalize(1, Read(0)));
    run := Then(EMPTY, run, Finalize(1, Write));
    run := Then(EMPTY, run, Outside(Delete(0)));
    run := Then(EMPTY, run, Finalize(1, Claim));
    assert After(EMPTY, run).procs == map[];
  }

  /** A deposit marked by hand on an expired hold hides the late online payment. */
  lemma HandMarkHidesDeposit() returns (run: seq<Step>)
    ensures Legal(EMPTY, run)
    ensures var v := After(EMPTY, run);
      0 in v.handled && !Applied(v, 0) && !Refunding(v, 0) && v.procs == map[] && v.cutShort == {}
  {
    run := PaidRun();
    run := Then(EMPTY, run, Outside(Expire(0)));
    run := Then(EMPTY, run, Outside(HandMark(0, true)));
    run := Then(EMPTY, run, Finalize(1, Whole(0)));
    assert After(EMPTY, run).procs == map[];
  }

  /** A refund call that fails after the claim leaves the row marked refunded, and no redelivery sends it again. */
  lemma FailedRefundIsNotRetried() returns (run: seq<Step>)
    ensures Legal(EMPTY, run)
    ensures var v := After(EMPTY, run);
      && 0 in v.handled && !Applied(v, 0) && 0 !in v.refunds && v.procs == map[]
      && forall p | FinalizeEnabled(v, p, Whole(0)) :: FinalizeNext(v, p, Whole(0)) == v
  {
    run := PaidRun();
    run := Then(EMPTY, run, Outside(Expire(0)));
    run := Then(EMPTY, run, Finalize(1, Whole(0)));
    run := Then(EMPTY, run, Finalize(1, Send(false)));
    var v := After(EMPTY, run);
    assert v.procs == map[];
    EmptyIsSafe();
    RunKeepsInv(EMPTY, run);
    forall p | FinalizeEnabled(v, p, Whole(0)) ensures FinalizeNext(v, p, Whole(0)) == v {
      RedeliveryChangesNothing(v, p, 0);
    }
  }
}
