/** What confirmations keep in every run: an action runs at most once, and two people are behind it. */
module ApprovalTheorems {
  import opened Prelude
  import opened Approvals

  predicate Done(s: Status) {
    s == Executed || s == Failed
  }

  predicate RowOk(w: World, id: Id) {
    && (id !in w.rows ==> !HasRun(w, id) && id !in w.here && id !in w.elsewhere && id !in w.crossed)
    && (id in w.rows ==>
          var r := w.rows[id];
          && (r.status == Pending ==> !HasRun(w, id) && id !in w.here && id !in w.elsewhere && id !in w.crossed)
          && (id in w.here ==> id !in w.elsewhere)
          && (id in w.here || id in w.elsewhere ==> r.status == Executing || Done(r.status))
          && (r.status == Executing || Done(r.status) ==> id in w.here || id in w.elsewhere)
          && (r.status == Executing ==> id !in w.ordered)
          && (id in w.here ==>
                && r.decider.Some? && !SamePerson(r.requester, r.decider.value) && r.byAdmin
                && r.createdAt >= r.checkedAt - TTL))
    && (id in w.own ==> id in w.here)
    && (id in w.ordered ==> id in w.elsewhere || id in w.crossed)
    && (id in w.crossed ==> id in w.here)
    && (id in w.twice <==> id in w.own && id in w.ordered)
  }

  predicate ProcOk(w: World, q: Proc) {
    q.id in w.rows &&
    var r := w.rows[q.id];
    match q
    case Claim(id, actor, _, now) =>
      actor.admin && !SamePerson(r.requester, actor.email) && r.createdAt >= now - TTL
    case Run(id) => id in w.here && id !in w.own
    case Write(id, _) => id in w.here
    case CommandClaim(_) => true
    case CommandRun(id) =>
      && (id in w.here ==> id in w.crossed) && (id in w.here || id in w.elsewhere) && Done(r.status)
      && id !in w.ordered
    case CommandWrite(id) => (id in w.here ==> id in w.crossed) && (id in w.here || id in w.elsewhere) && Done(r.status)
  }

  /** Two calls in flight are never both to run one action, except a decision and a command. */
  predicate Apart(q: Proc, r: Proc) {
    q.id == r.id ==> !(q.Run? && r.Run?) && !(q.CommandRun? && r.CommandRun?)
  }

  ghost predicate Inv(w: World) {
    && (forall id: Id :: RowOk(w, id))
    && (forall p :: p in w.procs ==> ProcOk(w, w.procs[p]))
    && (forall p, q :: p in w.procs && q in w.procs && p != q ==> Apart(w.procs[p], w.procs[q]))
  }

  // ---- one step, one row, one call ----

  lemma ActKeepsRow(w: World, p: nat, ok: bool, id: Id)
    requires CanAct(w, p) && ProcOk(w, w.procs[p]) && RowOk(w, id) && RowOk(w, w.procs[p].id)
    ensures RowOk(Acted(w, p, ok), id)
  {
  }

  lemma StepKeepsRow(w: World, s: Step, id: Id)
    requires Enabled(w, s) && !s.Act? && RowOk(w, id)
    ensures RowOk(Next(w, s), id)
  {
  }

  /** The acting call itself. */
  lemma ActKeepsOwn(w: World, p: nat, ok: bool)
    requires CanAct(w, p) && ProcOk(w, w.procs[p]) && RowOk(w, w.procs[p].id)
    ensures var v := Acted(w, p, ok); p in v.procs ==> ProcOk(v, v.procs[p])
  {
  }

  /** Another call, left as it was. */
  lemma ActKeepsOther(w: World, p: nat, ok: bool, q: nat)
    requires CanAct(w, p) && ProcOk(w, w.procs[p]) && RowOk(w, w.procs[p].id)
    requires q in w.procs && q != p && ProcOk(w, w.procs[q]) && Apart(w.procs[p], w.procs[q])
    ensures var v := Acted(w, p, ok); q in v.procs && v.procs[q] == w.procs[q] && ProcOk(v, v.procs[q])
  {
  }

  lemma StepKeepsProc(w: World, s: Step, q: nat)
    requires Enabled(w, s) && !s.Act? && q in Next(w, s).procs
    requires q in w.procs ==> ProcOk(w, w.procs[q]) && RowOk(w, w.procs[q].id)
    requires s.Look? || s.LookCommand? ==> RowOk(w, s.id)
    ensures ProcOk(Next(w, s), Next(w, s).procs[q])
  {
  }

  lemma ActKeepsApart(w: World, p: nat, ok: bool, q: nat)
    requires CanAct(w, p) && ProcOk(w, w.procs[p]) && RowOk(w, w.procs[p].id)
    requires q in w.procs && q != p && ProcOk(w, w.procs[q]) && Apart(w.procs[p], w.procs[q])
    ensures var v := Acted(w, p, ok); p in v.procs ==> Apart(v.procs[p], w.procs[q])
  {
  }

  lemma ActKeepsInv(w: World, p: nat, ok: bool)
    requires Inv(w) && CanAct(w, p)
    ensures Inv(Acted(w, p, ok))
  {
    var v := Acted(w, p, ok);
    assert RowOk(w, w.procs[p].id);
    forall id: Id ensures RowOk(v, id) { assert RowOk(w, id); ActKeepsRow(w, p, ok, id); }
    forall q | q in v.procs ensures ProcOk(v, v.procs[q]) {
      if q == p { ActKeepsOwn(w, p, ok); } else { ActKeepsOther(w, p, ok, q); }
    }
    forall q, r | q in v.procs && r in v.procs && q != r ensures Apart(v.procs[q], v.procs[r]) {
      if q == p { ActKeepsOther(w, p, ok, r); ActKeepsApart(w, p, ok, r); }
      else if r == p { ActKeepsOther(w, p, ok, q); ActKeepsApart(w, p, ok, q); }
      else { ActKeepsOther(w, p, ok, q); ActKeepsOther(w, p, ok, r); assert Apart(w.procs[q], w.procs[r]); }
    }
  }

  lemma StepKeepsInv(w: World, s: Step)
    requires Inv(w) && Enabled(w, s)
    ensures Inv(Next(w, s))
  {
    if s.Act? {
      ActKeepsInv(w, s.p, s.ok);
    } else {
      var v := Next(w, s);
      forall id: Id ensures RowOk(v, id) { assert RowOk(w, id); StepKeepsRow(w, s, id); }
      forall q | q in v.procs ensures ProcOk(v, v.procs[q]) {
        if q in w.procs { assert RowOk(w, w.procs[q].id); }
        if s.Look? || s.LookCommand? { assert RowOk(w, s.id); }
        StepKeepsProc(w, s, q);
      }
      forall q, r | q in v.procs && r in v.procs && q != r ensures Apart(v.procs[q], v.procs[r]) {
        OnlyOwnProc(w, s, q);
        OnlyOwnProc(w, s, r);
        if q in w.procs && r in w.procs { assert Apart(w.procs[q], w.procs[r]); }
      }
    }
  }

  /** Besides acting, a step leaves the calls in flight as they are and starts at most a claim. */
  lemma OnlyOwnProc(w: World, s: Step, q: nat)
    requires Enabled(w, s) && !s.Act? && q in Next(w, s).procs
    ensures q in w.procs ==> Next(w, s).procs[q] == w.procs[q]
    ensures q !in w.procs ==> Next(w, s).procs[q].Claim? || Next(w, s).procs[q].CommandClaim?
  {
  }

  lemma {:induction false} RunKeepsInv(w: World, run: seq<Step>)
    requires Inv(w) && Legal(w, run)
    ensures Inv(After(w, run))
    decreases |run|
  {
    if run != [] {
      StepKeepsInv(w, run[0]);
      RunKeepsInv(Next(w, run[0]), run[1..]);
    }
  }

  /**
   In every run, however the admins, the other API, cancelling, expiry and repeated commands
   interleave and wherever a call dies, the decision here runs an action at most once and
   commands run it at most once; it runs twice exactly when both do, which takes a command for a
   request approved here.
   */
  lemma RunsAtMostOnce(run: seq<Step>, id: Id)
    requires Legal(START, run)
    ensures var w := After(START, run);
      && (id in w.twice <==> id in w.own && id in w.ordered)
      && (id in w.own && id in w.ordered ==> id in w.crossed)
  {
    RunKeepsInv(START, run);
    assert RowOk(After(START, run), id);
  }

  /**
   Four eyes: an action approved here ran because an admin who is not the requester approved it
   while the request was not older than 7 days.
   */
  lemma FourEyes(run: seq<Step>, id: Id)
    requires Legal(START, run)
    ensures var w := After(START, run);
      id in w.own ==>
        && id in w.rows
        && var r := w.rows[id];
           r.decider.Some? && r.byAdmin && !SamePerson(r.requester, r.decider.value) && r.checkedAt - r.createdAt <= TTL
  {
    RunKeepsInv(START, run);
    assert RowOk(After(START, run), id);
  }

  predicate Closed(s: Status) {
    s in {Rejected, Cancelled, Expired}
  }

  lemma StepCloses(w: World, s: Step, id: Id)
    requires Inv(w) && Enabled(w, s) && id in w.rows && w.rows[id].status != Pending
    ensures var v := Next(w, s);
      && id in v.rows && v.rows[id].status != Pending
      && (Closed(w.rows[id].status) ==> v.rows[id] == w.rows[id] && (HasRun(v, id) <==> HasRun(w, id)))
      && (Done(w.rows[id].status) ==> Done(v.rows[id].status))
  {
    assert RowOk(w, id);
    if s.Act? { assert ProcOk(w, w.procs[s.p]); }
  }

  /** A decided request never waits again; a rejected, cancelled or expired one is closed and never runs. */
  lemma {:induction false} DecidedForGood(w: World, run: seq<Step>, id: Id)
    requires Inv(w) && Legal(w, run) && id in w.rows && w.rows[id].status != Pending
    ensures var v := After(w, run);
      && id in v.rows && v.rows[id].status != Pending
      && (Closed(w.rows[id].status) ==> v.rows[id] == w.rows[id] && !HasRun(v, id))
      && (Done(w.rows[id].status) ==> Done(v.rows[id].status))
    decreases |run|
  {
    assert RowOk(w, id);
    if run != [] {
      StepCloses(w, run[0], id);
      StepKeepsInv(w, run[0]);
      DecidedForGood(Next(w, run[0]), run[1..], id);
    }
  }

  /** The step takes the request out of waiting. */
  predicate Decides(w: World, s: Step, id: Id)
    requires Enabled(w, s)
  {
    IsPending(w, id) && !IsPending(Next(w, s), id)
  }

  function Decisions(w: World, run: seq<Step>, id: Id): nat
    requires Legal(w, run)
    decreases |run|
  {
    if run == [] then 0
    else (if Decides(w, run[0], id) then 1 else 0) + Decisions(Next(w, run[0]), run[1..], id)
  }

  lemma StepKeepsTheRow(w: World, s: Step, id: Id)
    requires Enabled(w, s) && id in w.rows
    ensures id in Next(w, s).rows
  {
  }

  /** However many admins, cancellations, commands and expiries meet on a request, one step decides it or none does. */
  lemma {:induction false} DecidedOnce(w: World, run: seq<Step>, id: Id)
    requires Inv(w) && Legal(w, run) && (id in w.rows ==> IsPending(w, id))
    ensures Decisions(w, run, id) == if id in After(w, run).rows && !IsPending(After(w, run), id) then 1 else 0
    decreases |run|
  {
    if run != [] {
      var v := Next(w, run[0]);
      StepKeepsInv(w, run[0]);
      assert id !in w.rows && id in v.rows ==> IsPending(v, id);
      if id in v.rows && !IsPending(v, id) {
        DecidedForGood(v, run[1..], id);
        NoneDecides(v, run[1..], id);
      } else {
        DecidedOnce(v, run[1..], id);
      }
    }
  }

  lemma {:induction false} NoneDecides(w: World, run: seq<Step>, id: Id)
    requires Inv(w) && Legal(w, run) && id in w.rows && !IsPending(w, id)
    ensures Decisions(w, run, id) == 0
    decreases |run|
  {
    if run != [] {
      StepCloses(w, run[0], id);
      StepKeepsInv(w, run[0]);
      NoneDecides(Next(w, run[0]), run[1..], id);
    }
  }

  /** No two requests about the same thing wait at a time. */
  ghost predicate NoTwins(w: World) {
    forall j, k :: IsPending(w, j) && IsPending(w, k) && j != k ==> !SameTarget(w.rows[j].payload, w.rows[k].payload)
  }

  lemma SameTargetBothWays(a: Payload, b: Payload)
    ensures SameTarget(a, b) <==> SameTarget(b, a)
  {
  }

  /** Besides a new request, a step makes none wait and changes no payload. */
  lemma NoneBecomesPending(w: World, s: Step, id: Id)
    requires Enabled(w, s) && IsPending(Next(w, s), id) && !(s.Request? && s.id == id)
    ensures IsPending(w, id) && Next(w, s).rows[id].payload == w.rows[id].payload
  {
  }

  lemma StepKeepsNoTwins(w: World, s: Step)
    requires NoTwins(w) && Enabled(w, s)
    ensures NoTwins(Next(w, s))
  {
    var v := Next(w, s);
    forall j, k | IsPending(v, j) && IsPending(v, k) && j != k
      ensures !SameTarget(v.rows[j].payload, v.rows[k].payload)
    {
      if s.Request? && s.id == j {
        NoneBecomesPending(w, s, k);
        SameTargetBothWays(w.rows[k].payload, s.payload);
      } else if s.Request? && s.id == k {
        NoneBecomesPending(w, s, j);
      } else {
        NoneBecomesPending(w, s, j);
        NoneBecomesPending(w, s, k);
      }
    }
  }

  /** In every run, of the requests about the same thing at most one waits. */
  lemma {:induction false} OneRequestWaits(w: World, run: seq<Step>)
    requires NoTwins(w) && Legal(w, run)
    ensures NoTwins(After(w, run))
    decreases |run|
  {
    if run != [] {
      StepKeepsNoTwins(w, run[0]);
      OneRequestWaits(Next(w, run[0]), run[1..]);
    }
  }

  // ---- a command for a request approved here ----

  lemma {:induction false} Then(w: World, run: seq<Step>, s: Step) returns (longer: seq<Step>)
    requires Legal(w, run) && Enabled(After(w, run), s)
    ensures longer == run + [s] && Legal(w, longer) && After(w, longer) == Next(After(w, run), s)
    decreases |run|
  {
    longer := run + [s];
    if run == [] {
      assert Legal(Next(w, s), [s][1..]);
    } else {
      var rest := Then(Next(w, run[0]), run[1..], s);
      assert longer[1..] == rest;
    }
  }

  const ANN := Actor("ann", true)
  const ASKED := Row(DeleteUser(7), Pending, 0, "bob", None, false, 0)
  const APPROVED := ASKED.(status := Executing, decider := Some("ann"), byAdmin := true, checkedAt := 1)

  lemma Approves() returns (run: seq<Step>)
    ensures Legal(START, run)
    ensures After(START, run) == World(map[0 := APPROVED], map[1 := Run(0)], {0}, {}, {}, {}, {}, {})
  {
    assert Lower("bob")[0] == 'b' && Lower("ann")[0] == 'a';
    run := [];
    run := Then(START, run, Request(0, DeleteUser(7), 0, "bob"));
    assert After(START, run).rows == map[0 := ASKED];
    run := Then(START, run, Look(1, 0, true, ANN, 1, true));
    assert After(START, run).procs == map[1 := Claim(0, ANN, true, 1)];
    run := Then(START, run, Act(1, true));
  }

  /** decide leaves `executing` on the row while it runs, which is what a command looks for. */
  lemma CrossingCommandRunsTwice() returns (run: seq<Step>)
    ensures Legal(START, run) && 0 in After(START, run).twice && 0 !in After(START, run).elsewhere
  {
    run := Approves();
    run := Then(START, run, LookCommand(2, 0));
    run := Then(START, run, Act(2, true));
    run := Then(START, run, Act(1, true));
    run := Then(START, run, Act(2, true));
  }
}
