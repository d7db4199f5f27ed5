/** What every run of the deposit protocol keeps. */
module DepositSafety {
  import opened Prelude
  import opened DepositProtocol

  // ---- the invariant, intent by intent, row by row, call by call ----

  /**
   An intent whose secret went out is the recorded one unless Stripe has it
   canceled; only captured money is refunded; and what finalize is done with
   stands on its row or is on its way back (conservation).
   */
  ghost predicate IntentOk(w: World, i: Id) {
    && (i in w.intents ==> w.intents[i].appt in w.appts)
    && (Payable(w, i) && w.intents[i].appt in w.appts ==> w.appts[w.intents[i].appt].intent == Some(i))
    && (Captured(w, i) ==> w.intents[i].secretOut)
    && (i in w.handled || Refunding(w, i) || i in w.keys ==> Captured(w, i))
    && (i in w.keys <==> i in w.refunds)
    && (i in w.keys ==> Refunding(w, i))
    && (i in w.back && i in w.intents && w.intents[i].appt in w.appts ==> w.appts[w.intents[i].appt].refundedAt)
    && (Refunding(w, i) && i in w.intents && Live(w, w.intents[i].appt) ==>
          w.appts[w.intents[i].appt].status != PendingPayment)
    && (i in w.handled && Undisturbed(w, i) ==> Applied(w, i) || Refunding(w, i))
  }

  /** An intent recorded on a row names that row in its metadata: both ways finalize looks a row up agree. */
  ghost predicate RowOk(w: World, a: Id) {
    a in w.appts ==>
      var r := w.appts[a];
      && (r.intent.Some? ==> r.intent.value in w.intents && w.intents[r.intent.value].appt == a)
      && (r.refundedAt ==> r.intent.Some? && Refunding(w, r.intent.value))
      && (r.paidAt ==> r.intent.Some? && Captured(w, r.intent.value))
      && (r.status == PendingPayment ==> !r.refundedAt && !r.paidAt)
      && (a !in w.byHand && r.depositPaid ==> r.paidAt)
  }

  /** start only mints a second intent once Stripe reported the first one canceled. */
  ghost predicate MintOk(w: World, a: Id, snap: Appt) {
    && a in w.appts
    && (snap.intent.Some? ==>
          snap.intent.value in w.intents && w.intents[snap.intent.value].status == Canceled)
  }

  /** What a finalize that has read its row relies on. */
  ghost predicate FoundOk(w: World, i: Id, found: Option<Appt>)
    requires i in w.intents && w.intents[i].appt in w.appts
  {
    var a := w.intents[i].appt;
    match found
    case None => a in w.gone
    case Some(snap) =>
      && (a in w.gone ==> a in w.cutShort)
      && (snap.status != PendingPayment ==> w.appts[a].status != PendingPayment)
      && (Undisturbed(w, i) && snap.intent == Some(i) && (snap.refundedAt || snap.depositPaid) ==>
            Applied(w, i) || Refunding(w, i))
  }

  ghost predicate ProcOk(w: World, q: Proc) {
    match q
    case StartLook(a, snap) =>
      && a in w.appts
      && (snap.intent.Some? ==>
            && snap.intent.value in w.intents
            && w.intents[snap.intent.value].appt == a
            && (w.appts[a].intent == snap.intent || w.intents[snap.intent.value].status == Canceled))
    case StartMint(a, snap) => MintOk(w, a, snap)
    case StartSave(a, snap, j) =>
      && MintOk(w, a, snap)
      && j in w.intents && w.intents[j].appt == a && !w.intents[j].secretOut
      && w.appts[a].intent != Some(j)
    case FinWrite(i, found) => Captured(w, i) && w.intents[i].appt in w.appts && FoundOk(w, i, found)
    case FinClaim(i) =>
      && Captured(w, i)
      && w.intents[i].appt in w.appts
      && w.appts[w.intents[i].appt].status != PendingPayment
      && (w.intents[i].appt in w.gone ==> w.intents[i].appt in w.cutShort)
    case RefundCall(i) => i in w.unapplied
    case BackClaim(a, i) => a in w.appts && w.appts[a].paidAt && w.appts[a].intent == Some(i)
    case BackCall(a, i) =>
      && a in w.appts && i in w.back && w.appts[a].paidAt && w.appts[a].refundedAt && w.appts[a].intent == Some(i)
      && (i in w.keys ==> i in w.unapplied)
  }

  /** Two calls never hold the same fresh intent, nor the claim of the same refund. */
  ghost predicate Apart(q: Proc, r: Proc) {
    && (q.StartSave? && r.StartSave? ==> q.minted != r.minted)
    && (q.BackCall? && r.BackCall? ==> q.a != r.a)
  }

  ghost predicate Inv(w: World) {
    && (forall i :: IntentOk(w, i))
    && (forall a :: RowOk(w, a))
    && (forall p :: p in w.procs ==> ProcOk(w, w.procs[p]))
    && (forall p, q :: p in w.procs && q in w.procs && p != q ==> Apart(w.procs[p], w.procs[q]))
    && (forall j, k :: 0 <= j < k < |w.refunds| ==> w.refunds[j] != w.refunds[k])
  }

  // ---- every step keeps it ----
  // The step lemmas draw on the facts near the ids they touch (Near, OwnOk).

  /** The facts around one id, read both as an intent and as a row. */
  ghost predicate Near(w: World, x: Id) {
    && IntentOk(w, x) && RowOk(w, x)
    && (x in w.intents ==>
          var a := w.intents[x].appt;
          RowOk(w, a) && (a in w.appts && w.appts[a].intent.Some? ==> IntentOk(w, w.appts[a].intent.value)))
    && (x in w.appts && w.appts[x].intent.Some? ==> IntentOk(w, w.appts[x].intent.value))
  }

  ghost predicate NearProc(w: World, q: Proc) {
    match q
    case StartLook(a, snap) => Near(w, a) && (snap.intent.Some? ==> Near(w, snap.intent.value))
    case StartMint(a, snap) => Near(w, a) && (snap.intent.Some? ==> Near(w, snap.intent.value))
    case StartSave(a, snap, j) => Near(w, a) && Near(w, j) && (snap.intent.Some? ==> Near(w, snap.intent.value))
    case FinWrite(i, _) => Near(w, i)
    case FinClaim(i) => Near(w, i)
    case RefundCall(i) => Near(w, i)
    case BackClaim(a, i) => Near(w, a) && Near(w, i)
    case BackCall(a, i) => Near(w, a) && Near(w, i)
  }

  ghost predicate OwnOk(w: World, p: nat) {
    p in w.procs ==> ProcOk(w, w.procs[p]) && NearProc(w, w.procs[p])
  }

  lemma Facts(w: World, x: Id, r: nat)
    requires Inv(w)
    ensures Near(w, x) && OwnOk(w, r)
  {
  }

  /** The id a step names besides its call's own. */
  function Touched(s: Step): Id {
    match s
    case Outside(o) => if o.Capture? || o.CancelAtStripe? || o.RefundReported? then o.i else o.a
    case Start(_, t) => if t.ReadRow? then t.a else if t.Create? then t.j else 0
    case Finalize(_, f) => if f.Read? || f.Whole? then f.i else 0
    case Back(_, b) => if b.Look? then b.a else 0
    case Crash(_) => 0
  }

  lemma OutsideIntent(w: World, o: OutsideStep, x: Id)
    requires Inv(w) && OutsideEnabled(w, o)
    ensures IntentOk(OutsideNext(w, o), x)
  {
    Facts(w, x, 0);
    Facts(w, Touched(Outside(o)), 0);
  }

  lemma OutsideRow(w: World, o: OutsideStep, x: Id)
    requires Inv(w) && OutsideEnabled(w, o)
    ensures RowOk(OutsideNext(w, o), x)
  {
    Facts(w, x, 0);
    Facts(w, Touched(Outside(o)), 0);
  }

  /** Calls on a row. */
  lemma OutsideStart(w: World, o: OutsideStep, r: nat)
    requires Inv(w) && OutsideEnabled(w, o) && r in w.procs
    requires w.procs[r].StartLook? || w.procs[r].StartMint? || w.procs[r].StartSave?
    ensures ProcOk(OutsideNext(w, o), w.procs[r])
  {
    Facts(w, Touched(Outside(o)), r);
  }

  /** Calls on captured money. */
  lemma OutsideMoney(w: World, o: OutsideStep, r: nat)
    requires Inv(w) && OutsideEnabled(w, o) && r in w.procs
    requires !(w.procs[r].StartLook? || w.procs[r].StartMint? || w.procs[r].StartSave?)
    ensures ProcOk(OutsideNext(w, o), w.procs[r])
  {
    Facts(w, Touched(Outside(o)), r);
  }

  lemma OutsideProc(w: World, o: OutsideStep, r: nat)
    requires Inv(w) && OutsideEnabled(w, o) && r in w.procs
    ensures ProcOk(OutsideNext(w, o), w.procs[r])
  {
    var q := w.procs[r];
    if q.StartLook? || q.StartMint? || q.StartSave? {
      OutsideStart(w, o, r);
    } else {
      OutsideMoney(w, o, r);
    }
  }

  lemma OutsideKeeps(w: World, o: OutsideStep)
    requires Inv(w) && OutsideEnabled(w, o)
    ensures Inv(OutsideNext(w, o))
  {
    var v := OutsideNext(w, o);
    forall x ensures IntentOk(v, x) && RowOk(v, x) { OutsideIntent(w, o, x); OutsideRow(w, o, x); }
    forall r | r in v.procs ensures ProcOk(v, v.procs[r]) { OutsideProc(w, o, r); }
  }

  lemma StartIntent(w: World, p: nat, s: StartStep, x: Id)
    requires Inv(w) && StartEnabled(w, p, s)
    ensures IntentOk(StartNext(w, p, s), x)
  {
    Facts(w, x, p);
    Facts(w, Touched(Start(p, s)), p);
  }

  lemma StartRow(w: World, p: nat, s: StartStep, x: Id)
    requires Inv(w) && StartEnabled(w, p, s)
    ensures RowOk(StartNext(w, p, s), x)
  {
    Facts(w, x, p);
    Facts(w, Touched(Start(p, s)), p);
  }

  lemma StartOwn(w: World, p: nat, s: StartStep)
    requires Inv(w) && StartEnabled(w, p, s)
    ensures var v := StartNext(w, p, s); p in v.procs ==> ProcOk(v, v.procs[p])
  {
    Facts(w, Touched(Start(p, s)), p);
  }

  lemma StartOther(w: World, p: nat, s: StartStep, r: nat)
    requires Inv(w) && StartEnabled(w, p, s) && r in w.procs && r != p
    ensures ProcOk(StartNext(w, p, s), w.procs[r])
  {
    Facts(w, Touched(Start(p, s)), p);
    Facts(w, 0, r);
    assert p in w.procs ==> Apart(w.procs[p], w.procs[r]);
  }

  lemma StartApart(w: World, p: nat, s: StartStep, q: nat, r: nat)
    requires Inv(w) && StartEnabled(w, p, s)
    requires q in StartNext(w, p, s).procs && r in StartNext(w, p, s).procs && q != r
    ensures Apart(StartNext(w, p, s).procs[q], StartNext(w, p, s).procs[r])
  {
    assert q in w.procs ==> ProcOk(w, w.procs[q]);
    assert r in w.procs ==> ProcOk(w, w.procs[r]);
    assert q in w.procs && r in w.procs ==> Apart(w.procs[q], w.procs[r]);
  }

  lemma StartKeeps(w: World, p: nat, s: StartStep)
    requires Inv(w) && StartEnabled(w, p, s)
    ensures Inv(StartNext(w, p, s))
  {
    var v := StartNext(w, p, s);
    forall x ensures IntentOk(v, x) && RowOk(v, x) { StartIntent(w, p, s, x); StartRow(w, p, s, x); }
    forall r | r in v.procs ensures ProcOk(v, v.procs[r]) {
      if r == p { StartOwn(w, p, s); } else { StartOther(w, p, s, r); }
    }
    forall q, r | q in v.procs && r in v.procs && q != r ensures Apart(v.procs[q], v.procs[r]) {
      StartApart(w, p, s, q, r);
    }
    assert v.refunds == w.refunds;
  }

  lemma WriteIntent(w: World, p: nat, x: Id)
    requires Inv(w) && FinalizeEnabled(w, p, Write)
    ensures IntentOk(FinalizeNext(w, p, Write), x)
  {
    Facts(w, x, p);
  }

  lemma ClaimIntent(w: World, p: nat, x: Id)
    requires Inv(w) && FinalizeEnabled(w, p, Claim)
    ensures IntentOk(FinalizeNext(w, p, Claim), x)
  {
    Facts(w, x, p);
  }

  lemma SentIntent(w: World, p: nat, f: FinalizeStep, x: Id)
    requires Inv(w) && FinalizeEnabled(w, p, f) && (f.Read? || f.Send?)
    ensures IntentOk(FinalizeNext(w, p, f), x)
  {
    Facts(w, x, p);
  }

  lemma FinalizeIntent(w: World, p: nat, f: FinalizeStep, x: Id)
    requires Inv(w) && FinalizeEnabled(w, p, f) && !f.Whole?
    ensures IntentOk(FinalizeNext(w, p, f), x)
  {
    match f
    case Write => WriteIntent(w, p, x);
    case Claim => ClaimIntent(w, p, x);
    case _ => SentIntent(w, p, f, x);
  }

  lemma FinalizeRow(w: World, p: nat, f: FinalizeStep, x: Id)
    requires Inv(w) && FinalizeEnabled(w, p, f) && !f.Whole?
    ensures RowOk(FinalizeNext(w, p, f), x)
  {
    Facts(w, x, p);
  }

  lemma FinalizeOwn(w: World, p: nat, f: FinalizeStep)
    requires Inv(w) && FinalizeEnabled(w, p, f) && !f.Whole?
    ensures var v := FinalizeNext(w, p, f); p in v.procs ==> ProcOk(v, v.procs[p])
  {
    Facts(w, Touched(Finalize(p, f)), p);
  }

  lemma WriteOther(w: World, p: nat, r: nat)
    requires Inv(w) && FinalizeEnabled(w, p, Write) && r in w.procs && r != p
    ensures ProcOk(FinalizeNext(w, p, Write), w.procs[r])
  {
    Facts(w, 0, p);
    Facts(w, 0, r);
  }

  lemma FinalizeOther(w: World, p: nat, f: FinalizeStep, r: nat)
    requires Inv(w) && FinalizeEnabled(w, p, f) && !f.Whole? && !f.Write? && r in w.procs && r != p
    ensures ProcOk(FinalizeNext(w, p, f), w.procs[r])
  {
    Facts(w, 0, p);
    Facts(w, 0, r);
  }

  lemma FinalizeApart(w: World, p: nat, f: FinalizeStep, q: nat, r: nat)
    requires Inv(w) && FinalizeEnabled(w, p, f) && !f.Whole?
    requires q in FinalizeNext(w, p, f).procs && r in FinalizeNext(w, p, f).procs && q != r
    ensures Apart(FinalizeNext(w, p, f).procs[q], FinalizeNext(w, p, f).procs[r])
  {
    assert q in w.procs && r in w.procs ==> Apart(w.procs[q], w.procs[r]);
  }

  /** A key Stripe has not seen has no refund yet. */
  lemma RefundsApart(w: World, i: Id)
    requires Inv(w)
    ensures var s := StripeRefund(w, i).refunds; forall j, k :: 0 <= j < k < |s| ==> s[j] != s[k]
  {
    assert IntentOk(w, i);
  }

  lemma FinalizeKeeps(w: World, p: nat, f: FinalizeStep)
    requires Inv(w) && FinalizeEnabled(w, p, f) && !f.Whole?
    ensures Inv(FinalizeNext(w, p, f))
  {
    var v := FinalizeNext(w, p, f);
    forall x ensures IntentOk(v, x) && RowOk(v, x) { FinalizeIntent(w, p, f, x); FinalizeRow(w, p, f, x); }
    forall r | r in v.procs ensures ProcOk(v, v.procs[r]) {
      if r == p { FinalizeOwn(w, p, f); } else if f.Write? { WriteOther(w, p, r); } else { FinalizeOther(w, p, f, r); }
    }
    forall q, r | q in v.procs && r in v.procs && q != r ensures Apart(v.procs[q], v.procs[r]) {
      FinalizeApart(w, p, f, q, r);
    }
    if f.Send? { RefundsApart(w, w.procs[p].i); }
  }

  lemma TakeIntent(w: World, p: nat, x: Id)
    requires Inv(w) && BackEnabled(w, p, Take)
    ensures IntentOk(BackNext(w, p, Take), x)
  {
    Facts(w, x, p);
  }

  lemma BackIntent(w: World, p: nat, b: BackStep, x: Id)
    requires Inv(w) && BackEnabled(w, p, b)
    ensures IntentOk(BackNext(w, p, b), x)
  {
    if b.Take? { TakeIntent(w, p, x); } else { Facts(w, x, p); }
  }

  lemma BackRow(w: World, p: nat, b: BackStep, x: Id)
    requires Inv(w) && BackEnabled(w, p, b)
    ensures RowOk(BackNext(w, p, b), x)
  {
    Facts(w, x, p);
  }

  lemma BackOwn(w: World, p: nat, b: BackStep)
    requires Inv(w) && BackEnabled(w, p, b)
    ensures var v := BackNext(w, p, b); p in v.procs ==> ProcOk(v, v.procs[p])
  {
    Facts(w, Touched(Back(p, b)), p);
  }

  lemma TakeOther(w: World, p: nat, r: nat)
    requires Inv(w) && BackEnabled(w, p, Take) && r in w.procs && r != p
    ensures ProcOk(BackNext(w, p, Take), w.procs[r])
  {
    Facts(w, 0, p);
    Facts(w, 0, r);
  }

  lemma BackOther(w: World, p: nat, b: BackStep, r: nat)
    requires Inv(w) && BackEnabled(w, p, b) && !b.Take? && r in w.procs && r != p
    ensures ProcOk(BackNext(w, p, b), w.procs[r])
  {
    Facts(w, 0, p);
    Facts(w, 0, r);
    assert p in w.procs ==> Apart(w.procs[p], w.procs[r]);
  }

  lemma BackApart(w: World, p: nat, b: BackStep, q: nat, r: nat)
    requires Inv(w) && BackEnabled(w, p, b)
    requires q in BackNext(w, p, b).procs && r in BackNext(w, p, b).procs && q != r
    ensures Apart(BackNext(w, p, b).procs[q], BackNext(w, p, b).procs[r])
  {
    assert q in w.procs ==> ProcOk(w, w.procs[q]);
    assert r in w.procs ==> ProcOk(w, w.procs[r]);
    assert q in w.procs && r in w.procs ==> Apart(w.procs[q], w.procs[r]);
  }

  lemma BackKeeps(w: World, p: nat, b: BackStep)
    requires Inv(w) && BackEnabled(w, p, b)
    ensures Inv(BackNext(w, p, b))
  {
    var v := BackNext(w, p, b);
    forall x ensures IntentOk(v, x) && RowOk(v, x) { BackIntent(w, p, b, x); BackRow(w, p, b, x); }
    forall r | r in v.procs ensures ProcOk(v, v.procs[r]) {
      if r == p { BackOwn(w, p, b); } else if b.Take? { TakeOther(w, p, r); } else { BackOther(w, p, b, r); }
    }
    forall q, r | q in v.procs && r in v.procs && q != r ensures Apart(v.procs[q], v.procs[r]) {
      BackApart(w, p, b, q, r);
    }
    if b.Return? { RefundsApart(w, w.procs[p].i); }
  }

  lemma CrashState(w: World, p: nat, x: Id)
    requires Inv(w) && p in w.procs
    ensures IntentOk(CrashNext(w, p), x) && RowOk(CrashNext(w, p), x)
  {
    Facts(w, x, p);
  }

  lemma CrashProc(w: World, p: nat, r: nat)
    requires Inv(w) && p in w.procs && r in w.procs && r != p
    ensures ProcOk(CrashNext(w, p), w.procs[r])
  {
    Facts(w, 0, r);
  }

  lemma CrashKeeps(w: World, p: nat)
    requires Inv(w) && p in w.procs
    ensures Inv(CrashNext(w, p))
  {
    var v := CrashNext(w, p);
    forall x ensures IntentOk(v, x) && RowOk(v, x) { CrashState(w, p, x); }
    forall r | r in v.procs ensures ProcOk(v, v.procs[r]) { CrashProc(w, p, r); }
  }

  predicate Atomic(s: Step) {
    !(s.Finalize? && s.f.Whole?)
  }

  lemma AtomicStepKeepsInv(w: World, s: Step)
    requires Inv(w) && Enabled(w, s) && Atomic(s)
    ensures Inv(Next(w, s))
  {
    match s
    case Outside(o) => OutsideKeeps(w, o);
    case Start(p, s') => StartKeeps(w, p, s');
    case Finalize(p, f) => FinalizeKeeps(w, p, f);
    case Back(p, b) => BackKeeps(w, p, b);
    case Crash(p) => CrashKeeps(w, p);
  }

  /** The steps an undisturbed finalize takes. */
  function WholeRun(w: World, p: nat, i: Id): seq<Step>
    requires FinalizeEnabled(w, p, Whole(i))
  {
    var v := FinalizeWriteStep(Goto(w, p, FinWrite(i, FoundRow(w, i))), p, i, FoundRow(w, i));
    [Finalize(p, Read(i)), Finalize(p, Write)]
    + if p in v.procs && v.procs[p] == FinClaim(i) then [Finalize(p, Claim)] else []
  }

  lemma WholeIsARun(w: World, p: nat, i: Id)
    requires FinalizeEnabled(w, p, Whole(i))
    ensures Legal(w, WholeRun(w, p, i))
    ensures After(w, WholeRun(w, p, i)) == FinalizeNext(w, p, Whole(i))
  {
    var run := WholeRun(w, p, i);
    var w1 := Next(w, run[0]);
    var w2 := Next(w1, run[1]);
    assert run[1..][0] == run[1];
    if |run| == 3 {
      assert run[1..][1..] == [Finalize(p, Claim)];
      assert Legal(w2, run[1..][1..]);
      assert After(w2, run[1..][1..]) == Next(w2, Finalize(p, Claim));
    } else {
      assert run[1..][1..] == [];
      assert After(w2, run[1..][1..]) == w2;
    }
    assert Legal(w1, run[1..]);
    assert After(w1, run[1..]) == After(w2, run[1..][1..]);
  }

  lemma StepKeepsInv(w: World, s: Step)
    requires Inv(w) && Enabled(w, s)
    ensures Inv(Next(w, s))
  {
    if Atomic(s) {
      AtomicStepKeepsInv(w, s);
    } else {
      var Finalize(p, Whole(i)) := s;
      WholeIsARun(w, p, i);
      AtomicRunKeepsInv(w, WholeRun(w, p, i));
    }
  }

  lemma {:induction false} AtomicRunKeepsInv(w: World, run: seq<Step>)
    requires Inv(w) && Legal(w, run) && forall s :: s in run ==> Atomic(s)
    ensures Inv(After(w, run))
    decreases |run|
  {
    if run != [] {
      AtomicStepKeepsInv(w, run[0]);
      AtomicRunKeepsInv(Next(w, run[0]), run[1..]);
    }
  }

  lemma {:induction false} RunKeepsInv(w: World, run: seq<Step>)
    requires Inv(w) && Legal(w, run)
    ensures Inv(After(w, run))
    decreases |run|
  {
    if run != [] {
      StepKeepsInv(w, run[0]);
      RunKeepsInv(Next(w, run[0]), run[1..]);
    }
  }
}
