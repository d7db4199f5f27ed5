/**
 Pausing club billing at Stripe for several reasons at once
 (src/barbershop/club-billing-pause.service.ts, and the owner's own pause in
 src/barbershop/barbershop.service.ts).
 */
module ClubPause {
  import opened Prelude

  datatype Reason = PlatformShop | PlatformNetwork | OwnerInactive(user: nat)

  datatype Status = Incomplete | Active | PastDue | Ended

  /** A client's subscription: `shopPaused` is shopPausedAt, `stripePaused` is what Stripe has. */
  datatype Sub = Sub(shop: nat, status: Status, shopPaused: bool, reasons: seq<Reason>, stripePaused: bool)

  predicate Billable(s: Sub) {
    s.status == Active || s.status == PastDue
  }

  function Without(reasons: seq<Reason>, t: Reason): (r: seq<Reason>)
    ensures forall x :: x in r <==> x in reasons && x != t
    ensures |r| <= |reasons|
  {
    if reasons == [] then []
    else if reasons[0] == t then Without(reasons[1..], t)
    else [reasons[0]] + Without(reasons[1..], t)
  }

  predicate NoRepeats(reasons: seq<Reason>) {
    forall i, j :: 0 <= i < j < |reasons| ==> reasons[i] != reasons[j]
  }

  /** The flag at Stripe agrees with the reasons, each held once; a charge that never started holds none. */
  predicate Agrees(s: Sub) {
    && NoRepeats(s.reasons)
    && (Billable(s) ==> (s.stripePaused <==> s.shopPaused || s.reasons != []))
    && (s.status == Incomplete ==> !s.stripePaused && !s.shopPaused && s.reasons == [])
  }

  // ---- one subscription under one command ----

  predicate Selected(s: Sub, shops: set<nat>, t: Reason, pause: bool) {
    s.shop in shops && if pause then Billable(s) && t !in s.reasons else t in s.reasons
  }

  predicate HeldBesides(s: Sub, t: Reason, pause: bool) {
    s.shopPaused || (if pause then s.reasons != [] else Without(s.reasons, t) != [])
  }

  predicate CallsStripe(s: Sub, t: Reason, pause: bool) {
    !HeldBesides(s, t, pause) && (pause || Billable(s))
  }

  function Marked(s: Sub, t: Reason, pause: bool): Sub {
    s.(reasons := if pause then s.reasons + [t] else Without(s.reasons, t))
  }

  /** One turn of the loop of apply (122-155); a refused Stripe call leaves the subscription as it was. */
  function Turn(s: Sub, t: Reason, pause: bool, refused: bool): Sub {
    if !CallsStripe(s, t, pause) then Marked(s, t, pause)
    else if refused then s
    else Marked(s.(stripePaused := pause), t, pause)
  }

  function After(s: Sub, shops: set<nat>, t: Reason, pause: bool, refused: bool): Sub {
    if Selected(s, shops, t, pause) then Turn(s, t, pause, refused) else s
  }

  /** The owner's own pause (2882-2912). */
  predicate OwnerSelected(s: Sub, shop: nat, pause: bool) {
    s.shop == shop && if pause then Billable(s) && !s.shopPaused else s.shopPaused
  }

  function OwnerAfter(s: Sub, shop: nat, pause: bool, refused: bool): Sub {
    if !OwnerSelected(s, shop, pause) then s
    else if !pause && (s.reasons != [] || !Billable(s)) then s.(shopPaused := false)
    else if refused then s
    else s.(shopPaused := pause, stripePaused := pause)
  }

  lemma {:induction false} WithoutKeepsNoRepeats(reasons: seq<Reason>, t: Reason)
    requires NoRepeats(reasons)
    ensures NoRepeats(Without(reasons, t))
  {
    if reasons != [] {
      var rest := Without(reasons[1..], t);
      WithoutKeepsNoRepeats(reasons[1..], t);
      assert forall x :: x in reasons[1..] ==> x != reasons[0];
      assert forall i :: 0 <= i < |rest| ==> rest[i] in rest;
      assert NoRepeats([reasons[0]] + rest);
    }
  }

  lemma {:induction false} WithoutAdded(reasons: seq<Reason>, t: Reason)
    requires t !in reasons
    ensures Without(reasons + [t], t) == reasons
  {
    var more := reasons + [t];
    if reasons == [] {
      assert more[0] == t && more[1..] == [];
    } else {
      WithoutAdded(reasons[1..], t);
      assert more[0] == reasons[0] && more[1..] == reasons[1..] + [t];
      assert [reasons[0]] + reasons[1..] == reasons;
    }
  }

  /** Whatever Stripe answers, a command keeps the flag in agreement with the reasons. */
  lemma AfterAgrees(s: Sub, shops: set<nat>, t: Reason, pause: bool, refused: bool)
    requires Agrees(s)
    ensures Agrees(After(s, shops, t, pause, refused))
  {
    WithoutKeepsNoRepeats(s.reasons, t);
  }

  lemma OwnerAfterAgrees(s: Sub, shop: nat, pause: bool, refused: bool)
    requires Agrees(s)
    ensures Agrees(OwnerAfter(s, shop, pause, refused))
  {
  }

  /** An answered command on a subscription it concerns: the reason is held or gone, the others stay. */
  lemma CommandTakesEffect(s: Sub, shops: set<nat>, t: Reason, pause: bool, x: Reason)
    requires Agrees(s) && s.shop in shops && Billable(s)
    ensures var v := After(s, shops, t, pause, false);
      && (x in v.reasons <==> if x == t then pause else x in s.reasons)
      && (pause ==> v.stripePaused)
      && (!pause ==> (v.stripePaused <==> s.shopPaused || exists y :: y in s.reasons && y != t))
  {
    var v := After(s, shops, t, pause, false);
    AfterAgrees(s, shops, t, pause, false);
    if !pause {
      if v.reasons != [] { assert v.reasons[0] in v.reasons; }
      if t !in s.reasons { assert v == s; }
    } else {
      assert t in v.reasons;
    }
  }

  /** A pause leaves one that is not chargeable alone; taking a reason away works on it too, without Stripe. */
  lemma CommandOnEnded(s: Sub, shops: set<nat>, t: Reason, pause: bool, refused: bool)
    requires !Billable(s)
    ensures var v := After(s, shops, t, pause, refused);
      && v.stripePaused == s.stripePaused && v.shopPaused == s.shopPaused && v.status == s.status
      && (pause || s.shop !in shops ==> v == s)
      && (!pause && s.shop in shops ==> forall x :: x in v.reasons <==> x in s.reasons && x != t)
  {
    if t !in s.reasons { WithoutAbsent(s.reasons, t); }
  }

  lemma {:induction false} WithoutAbsent(reasons: seq<Reason>, t: Reason)
    requires t !in reasons
    ensures Without(reasons, t) == reasons
  {
    if reasons != [] {
      WithoutAbsent(reasons[1..], t);
      assert [reasons[0]] + reasons[1..] == reasons;
    }
  }

  /**
   The owner's answered command: a chargeable subscription of the shop is paused for the owner and
   at Stripe, or no longer for the owner and at Stripe exactly while a reason holds it; reasons,
   other shops and the ones that ended stay, but for the owner's own pause.
   */
  lemma OwnerTakesEffect(s: Sub, shop: nat, pause: bool)
    requires Agrees(s)
    ensures var v := OwnerAfter(s, shop, pause, false);
      && v.shop == s.shop && v.status == s.status && v.reasons == s.reasons
      && (s.shop != shop ==> v == s)
      && (s.shop == shop && pause && Billable(s) ==> v.shopPaused && v.stripePaused)
      && (s.shop == shop && !pause ==> !v.shopPaused)
      && (s.shop == shop && !pause && Billable(s) ==> (v.stripePaused <==> exists t :: t in s.reasons))
      && (!Billable(s) ==> v.stripePaused == s.stripePaused && (pause ==> v == s))
  {
    if s.reasons != [] { assert s.reasons[0] in s.reasons; }
  }

  /** A refused one stays as it was, and running the command again, answered, ends where one answered run would have. */
  lemma OwnerRerunConverges(s: Sub, shop: nat, pause: bool, refused: bool)
    ensures OwnerAfter(OwnerAfter(s, shop, pause, refused), shop, pause, false) == OwnerAfter(s, shop, pause, false)
    ensures Billable(s) && (pause || s.reasons == []) ==> OwnerAfter(s, shop, pause, true) == s
  {
  }

  /** The owner's pause, then resume, leaves what it found. */
  lemma OwnerPauseThenResume(s: Sub, shop: nat)
    requires Agrees(s) && OwnerSelected(s, shop, true)
    ensures OwnerAfter(OwnerAfter(s, shop, true, false), shop, false, false) == s
  {
  }

  /** Running a command again, with Stripe answering, ends where one answered run would have. */
  lemma RerunConverges(s: Sub, shops: set<nat>, t: Reason, pause: bool, refused: bool)
    ensures After(After(s, shops, t, pause, refused), shops, t, pause, false) == After(s, shops, t, pause, false)
  {
  }

  /** So does running it again after it died between Stripe and the database. */
  lemma CutThenRerun(s: Sub, shops: set<nat>, t: Reason, pause: bool)
    requires Selected(s, shops, t, pause) && CallsStripe(s, t, pause)
    ensures After(s.(stripePaused := pause), shops, t, pause, false) == After(s, shops, t, pause, false)
  {
  }

  /** A reason put and taken away leaves nothing behind. */
  lemma PauseThenResume(s: Sub, shops: set<nat>, t: Reason)
    requires Agrees(s) && Selected(s, shops, t, true)
    ensures After(After(s, shops, t, true, false), shops, t, false, false) == s
  {
    WithoutAdded(s.reasons, t);
  }

  // ---- runs ----

  datatype Command =
    | Apply(shops: set<nat>, t: Reason, pause: bool, refusals: set<nat>)
    | Owner(shop: nat, pause: bool, refusals: set<nat>)
    | Moves(k: nat, to: Status)
    | Subscribes(k: nat, shop: nat)

  type Subs = map<nat, Sub>

  function Applied(subs: Subs, shops: set<nat>, t: Reason, pause: bool, refusals: set<nat>): Subs {
    map k | k in subs :: After(subs[k], shops, t, pause, k in refusals)
  }

  function OwnerApplied(subs: Subs, shop: nat, pause: bool, refusals: set<nat>): Subs {
    map k | k in subs :: OwnerAfter(subs[k], shop, pause, k in refusals)
  }

  /** The webhooks write any status but the one before the first payment, on an ended row too. */
  function Next(subs: Subs, c: Command): Subs {
    match c
    case Apply(shops, t, pause, refusals) => Applied(subs, shops, t, pause, refusals)
    case Owner(shop, pause, refusals) => OwnerApplied(subs, shop, pause, refusals)
    case Moves(k, to) =>
      if k in subs && to != Incomplete then subs[k := subs[k].(status := to)] else subs
    case Subscribes(k, shop) => if k in subs then subs else subs[k := Sub(shop, Incomplete, false, [], false)]
  }

  function Run(subs: Subs, cs: seq<Command>): Subs
    decreases |cs|
  {
    if cs == [] then subs else Run(Next(subs, cs[0]), cs[1..])
  }

  ghost predicate AllAgree(subs: Subs) {
    forall k :: k in subs ==> Agrees(subs[k])
  }

  /** The flag is in step with the reasons, whatever the status. */
  predicate InStep(s: Sub) {
    s.stripePaused <==> s.shopPaused || s.reasons != []
  }

  /** A status written late makes an ended subscription chargeable again. */
  predicate Revives(subs: Subs, c: Command) {
    c.Moves? && c.k in subs && subs[c.k].status == Ended && (c.to == Active || c.to == PastDue)
  }

  /** A command keeps every subscription in agreement, except that reviving one does exactly when it was in step. */
  lemma NextAgrees(subs: Subs, c: Command)
    requires AllAgree(subs)
    ensures AllAgree(Next(subs, c)) <==> (Revives(subs, c) ==> InStep(subs[c.k]))
  {
    match c
    case Apply(shops, t, pause, refusals) =>
      forall k | k in subs ensures Agrees(Next(subs, c)[k]) { AfterAgrees(subs[k], shops, t, pause, k in refusals); }
    case Owner(shop, pause, refusals) =>
      forall k | k in subs ensures Agrees(Next(subs, c)[k]) { OwnerAfterAgrees(subs[k], shop, pause, k in refusals); }
    case Moves(k, to) =>
      forall j | j in subs && j != k ensures Agrees(Next(subs, c)[j]) {}
      if k in subs { assert Agrees(subs[k]) && (AllAgree(Next(subs, c)) <==> Agrees(Next(subs, c)[k])); }
    case Subscribes(_, _) =>
  }

  /** In every state of the run the flags agree with the reasons. */
  ghost predicate AgreesThroughout(subs: Subs, cs: seq<Command>)
    decreases |cs|
  {
    AllAgree(subs) && (cs == [] || AgreesThroughout(Next(subs, cs[0]), cs[1..]))
  }

  /** Every subscription revived in the run was in step. */
  predicate RevivesInStep(subs: Subs, cs: seq<Command>)
    decreases |cs|
  {
    cs == [] ||
    ((Revives(subs, cs[0]) ==> InStep(subs[cs[0].k])) && RevivesInStep(Next(subs, cs[0]), cs[1..]))
  }

  /**
   In every run, with any Stripe calls refused, the active and past due subscriptions are at all
   times paused at Stripe exactly while the owner paused the shop or some reason is held, if and
   only if each status written late on an ended subscription found its flag in step.
   */
  lemma {:induction false} FlagFollowsReasons(subs: Subs, cs: seq<Command>)
    requires AllAgree(subs)
    ensures AgreesThroughout(subs, cs) <==> RevivesInStep(subs, cs)
    decreases |cs|
  {
    if cs != [] {
      NextAgrees(subs, cs[0]);
      if AllAgree(Next(subs, cs[0])) { FlagFollowsReasons(Next(subs, cs[0]), cs[1..]); }
    }
  }

  // ---- how an ended subscription gets out of step ----

  /** The command takes the last hold off an ended subscription: Stripe is not told. */
  predicate Releases(s: Sub, c: Command) {
    s.status == Ended &&
    match c
    case Apply(shops, t, pause, _) => !pause && Selected(s, shops, t, false) && !HeldBesides(s, t, false)
    case Owner(shop, pause, _) => !pause && OwnerSelected(s, shop, false) && s.reasons == []
    case _ => false
  }

  lemma ApplyKeepsStep(s: Sub, shops: set<nat>, t: Reason, pause: bool, refusals: set<nat>, refused: bool)
    requires Agrees(s) && InStep(s)
    ensures InStep(After(s, shops, t, pause, refused)) <==> !Releases(s, Apply(shops, t, pause, refusals))
  {
    if t in s.reasons { assert s.reasons != []; }
  }

  lemma OwnerKeepsStep(s: Sub, shop: nat, pause: bool, refusals: set<nat>, refused: bool)
    requires Agrees(s) && InStep(s)
    ensures InStep(OwnerAfter(s, shop, pause, refused)) <==> !Releases(s, Owner(shop, pause, refusals))
  {
  }

  /** A subscription in step stays so exactly unless its last hold is taken off after it ended. */
  lemma StepIsKept(subs: Subs, c: Command, k: nat)
    requires AllAgree(subs) && k in subs && InStep(subs[k])
    ensures InStep(Next(subs, c)[k]) <==> !Releases(subs[k], c)
  {
    match c
    case Apply(shops, t, pause, refusals) => ApplyKeepsStep(subs[k], shops, t, pause, refusals, k in refusals);
    case Owner(shop, pause, refusals) => OwnerKeepsStep(subs[k], shop, pause, refusals, k in refusals);
    case _ =>
  }

  /** No command of the run takes the last hold off an ended subscription. */
  ghost predicate ReleasesNoEnded(subs: Subs, cs: seq<Command>)
    decreases |cs|
  {
    cs == [] || ((forall k :: k in subs ==> !Releases(subs[k], cs[0])) && ReleasesNoEnded(Next(subs, cs[0]), cs[1..]))
  }

  /** Then every flag is in step all along, late writes or not. */
  lemma {:induction false} UnreleasedAgrees(subs: Subs, cs: seq<Command>)
    requires AllAgree(subs) && (forall k :: k in subs ==> InStep(subs[k])) && ReleasesNoEnded(subs, cs)
    ensures AgreesThroughout(subs, cs)
    decreases |cs|
  {
    if cs != [] {
      NextAgrees(subs, cs[0]);
      forall k | k in Next(subs, cs[0]) ensures InStep(Next(subs, cs[0])[k]) {
        if k in subs { StepIsKept(subs, cs[0], k); }
      }
      UnreleasedAgrees(Next(subs, cs[0]), cs[1..]);
    }
  }

  lemma RunFrom(subs: Subs, cs: seq<Command>, i: nat)
    requires i < |cs|
    ensures Run(subs, cs[i..]) == Run(Next(subs, cs[i]), cs[i + 1..])
  {
    assert cs[i..][1..] == cs[i + 1..];
  }

  const LATE_INVOICE: seq<Command> := [
    Subscribes(0, 0), Moves(0, Active), Apply({0}, PlatformShop, true, {}), Moves(0, Ended),
    Apply({0}, PlatformShop, false, {}), Moves(0, PastDue)]

  const PAUSED: Sub := Sub(0, Active, false, [PlatformShop], true)

  lemma OneApply(s: Sub, pause: bool)
    ensures Next(map[0 := s], Apply({0}, PlatformShop, pause, {})) == map[0 := After(s, {0}, PlatformShop, pause, false)]
  {
  }

  const BILLED: Sub := Sub(0, Active, false, [], false)

  lemma BillsOne(cs: seq<Command>)
    requires cs == LATE_INVOICE
    ensures Run(map[], cs) == Run(map[0 := BILLED], cs[2..])
  {
    assert cs[0..] == cs;
    RunFrom(map[], cs, 0);
    assert Next(map[], cs[0]) == map[0 := BILLED.(status := Incomplete)];
    RunFrom(map[0 := BILLED.(status := Incomplete)], cs, 1);
    assert Next(map[0 := BILLED.(status := Incomplete)], cs[1]) == map[0 := BILLED];
  }

  lemma PausesOne(cs: seq<Command>)
    requires cs == LATE_INVOICE
    ensures Run(map[0 := BILLED], cs[2..]) == Run(map[0 := PAUSED], cs[3..])
  {
    RunFrom(map[0 := BILLED], cs, 2);
    OneApply(BILLED, true);
    assert After(BILLED, {0}, PlatformShop, true, false) == PAUSED;
  }

  lemma ReleasesOne(cs: seq<Command>)
    requires cs == LATE_INVOICE
    ensures Run(map[0 := PAUSED], cs[3..]) == map[0 := PAUSED.(status := PastDue, reasons := [])]
  {
    var ended := PAUSED.(status := Ended);
    RunFrom(map[0 := PAUSED], cs, 3);
    assert Next(map[0 := PAUSED], cs[3]) == map[0 := ended];
    RunFrom(map[0 := ended], cs, 4);
    OneApply(ended, false);
    assert Without([PlatformShop], PlatformShop) == [];
    assert After(ended, {0}, PlatformShop, false, false) == ended.(reasons := []);
    RunFrom(map[0 := ended.(reasons := [])], cs, 5);
    assert cs[6..] == [];
    assert Next(map[0 := ended.(reasons := [])], cs[5]) == map[0 := PAUSED.(status := PastDue, reasons := [])];
  }

  /**
   A subscription paused at Stripe ends, its reason goes without a call to Stripe, and an invoice
   that fails late makes it past due: paused at Stripe for no reason.
   */
  lemma LateInvoiceLeavesItPaused()
    ensures var subs := Run(map[], LATE_INVOICE);
      0 in subs && subs[0] == Sub(0, PastDue, false, [], true) && !Agrees(subs[0])
  {
    BillsOne(LATE_INVOICE);
    PausesOne(LATE_INVOICE);
    ReleasesOne(LATE_INVOICE);
  }

  function Retried(subs: Subs, shops: set<nat>, t: Reason, pause: bool, tries: seq<set<nat>>): Subs
    decreases |tries|
  {
    if tries == [] then Applied(subs, shops, t, pause, {})
    else Retried(Applied(subs, shops, t, pause, tries[0]), shops, t, pause, tries[1..])
  }

  /** Any number of partly refused tries, then one that goes through, make the one-shot result. */
  lemma {:induction false} RetriesConverge(subs: Subs, shops: set<nat>, t: Reason, pause: bool, tries: seq<set<nat>>)
    ensures Retried(subs, shops, t, pause, tries) == Applied(subs, shops, t, pause, {})
    decreases |tries|
  {
    if tries != [] {
      var once := Applied(subs, shops, t, pause, tries[0]);
      RetriesConverge(once, shops, t, pause, tries[1..]);
      forall k | k in subs
        ensures Applied(once, shops, t, pause, {})[k] == Applied(subs, shops, t, pause, {})[k]
      {
        RerunConverges(subs[k], shops, t, pause, k in tries[0]);
      }
    }
  }

  // ---- the service ----

  /** Part way through the loop of apply. */
  function Part(was: Subs, done: set<nat>, c: Command): Subs
    requires c.Apply? || c.Owner?
  {
    map k | k in was :: if k !in done then was[k] else Treated(was[k], c, k in c.refusals)
  }

  function Treated(s: Sub, c: Command, refused: bool): Sub
    requires c.Apply? || c.Owner?
  {
    if c.Apply? then After(s, c.shops, c.t, c.pause, refused) else OwnerAfter(s, c.shop, c.pause, refused)
  }

  predicate Chosen(s: Sub, c: Command)
    requires c.Apply? || c.Owner?
  {
    if c.Apply? then Selected(s, c.shops, c.t, c.pause) else OwnerSelected(s, c.shop, c.pause)
  }

  lemma PartGrows(was: Subs, done: set<nat>, k: nat, c: Command)
    requires (c.Apply? || c.Owner?) && k in was && k !in done
    ensures k in Part(was, done, c)
    ensures Part(was, done, c)[k] == was[k]
    ensures Part(was, done + {k}, c) == Part(was, done, c)[k := Treated(was[k], c, k in c.refusals)]
  {
  }

  /** What the command's query finds. */
  function Selection(was: Subs, c: Command): set<nat>
    requires c.Apply? || c.Owner?
  {
    set k | k in was && Chosen(was[k], c)
  }

  lemma PartEnds(was: Subs, c: Command)
    requires c.Apply? || c.Owner?
    ensures Part(was, {}, c) == was
    ensures Part(was, Selection(was, c), c) == Next(was, c)
  {
  }

  /** A call of this run was refused by Stripe. */
  ghost predicate Failed(was: Subs, done: set<nat>, c: Command)
    requires c.Apply?
  {
    exists k :: k in was && k in done && k in c.refusals && CallsStripe(was[k], c.t, c.pause)
  }

  lemma FailedGrows(was: Subs, done: set<nat>, k: nat, c: Command)
    requires c.Apply? && k in was
    ensures Failed(was, done + {k}, c) <==> Failed(was, done, c) || (k in c.refusals && CallsStripe(was[k], c.t, c.pause))
  {
    if Failed(was, done, c) {
      var j :| j in was && j in done && j in c.refusals && CallsStripe(was[j], c.t, c.pause);
      assert j in done + {k};
    }
  }

  ghost predicate Midway(was: Subs, subs: Subs, done: set<nat>, rest: set<nat>, failed: bool, c: Command)
    requires c.Apply?
  {
    && done !! rest && done + rest == Selection(was, c) && subs == Part(was, done, c)
    && (failed <==> Failed(was, done, c))
  }

  lemma TurnTaken(was: Subs, subs: Subs, done: set<nat>, rest: set<nat>, failed: bool, c: Command, k: nat)
    requires c.Apply? && Midway(was, subs, done, rest, failed, c) && k in rest
    ensures k in subs
    ensures var no := k in c.refusals && CallsStripe(subs[k], c.t, c.pause);
      Midway(was, subs[k := Turn(subs[k], c.t, c.pause, k in c.refusals)], done + {k}, rest - {k}, failed || no, c)
  {
    assert k in Selection(was, c);
    PartGrows(was, done, k, c);
    FailedGrows(was, done, k, c);
  }

  class ClubBillingPauseService {
    var subs: Subs

    constructor ()
      ensures subs == map[] && AllAgree(subs)
    {
      subs := map[];
    }

    method ForShop(shop: nat, pause: bool, refusals: set<nat>) returns (failed: bool)
      modifies this
      ensures old(AllAgree(subs)) ==> AllAgree(subs)
      ensures subs == Applied(old(subs), {shop}, PlatformShop, pause, refusals)
      ensures var c := Apply({shop}, PlatformShop, pause, refusals); failed <==> Failed(old(subs), Selection(old(subs), c), c)
    {
      failed := ApplyReason(PlatformShop, {shop}, pause, refusals);
    }

    method ForNetwork(shops: set<nat>, pause: bool, refusals: set<nat>) returns (failed: bool)
      modifies this
      ensures old(AllAgree(subs)) ==> AllAgree(subs)
      ensures subs == Applied(old(subs), shops, PlatformNetwork, pause, refusals)
      ensures var c := Apply(shops, PlatformNetwork, pause, refusals); failed <==> Failed(old(subs), Selection(old(subs), c), c)
    {
      failed := ApplyReason(PlatformNetwork, shops, pause, refusals);
    }

    method ForOwner(user: nat, shops: set<nat>, pause: bool, refusals: set<nat>) returns (failed: bool)
      modifies this
      ensures old(AllAgree(subs)) ==> AllAgree(subs)
      ensures subs == Applied(old(subs), shops, OwnerInactive(user), pause, refusals)
      ensures var c := Apply(shops, OwnerInactive(user), pause, refusals); failed <==> Failed(old(subs), Selection(old(subs), c), c)
    {
      failed := ApplyReason(OwnerInactive(user), shops, pause, refusals);
    }

    /** apply (96-157). */
    method ApplyReason(t: Reason, shops: set<nat>, pause: bool, refusals: set<nat>) returns (failed: bool)
      modifies this
      ensures old(AllAgree(subs)) ==> AllAgree(subs)
      ensures subs == Applied(old(subs), shops, t, pause, refusals)
      ensures var c := Apply(shops, t, pause, refusals); failed <==> Failed(old(subs), Selection(old(subs), c), c)
    {
      var c := Apply(shops, t, pause, refusals);
      if AllAgree(subs) { NextAgrees(subs, c); }
      PartEnds(subs, c);
      failed := TakeTurns(c);
    }

    /** The loop: one subscription after the other, going on past a refused one. */
    method TakeTurns(c: Command) returns (failed: bool)
      requires c.Apply?
      modifies this
      ensures subs == Part(old(subs), Selection(old(subs), c), c)
      ensures failed <==> Failed(old(subs), Selection(old(subs), c), c)
    {
      ghost var was := subs;
      PartEnds(was, c);
      var selected := Selection(subs, c);
      ghost var done := {};
      failed := false;
      while selected != {}
        invariant Midway(was, subs, done, selected, failed, c)
        decreases |selected|
      {
        var k :| k in selected;
        TurnTaken(was, subs, done, selected, failed, c, k);
        selected := selected - {k};
        done := done + {k};
        var no := TakeTurn(k, c.t, c.pause, k in c.refusals);
        failed := failed || no;
      }
      assert done == Selection(was, c);
    }

    /** One turn of the loop (123-154). */
    method TakeTurn(k: nat, t: Reason, pause: bool, refused: bool) returns (failed: bool)
      requires k in subs
      modifies this
      ensures subs == old(subs)[k := Turn(old(subs)[k], t, pause, refused)]
      ensures failed <==> refused && CallsStripe(old(subs)[k], t, pause)
    {
      var s := subs[k];
      var remaining := Without(s.reasons, t);
      var held := s.shopPaused || (if pause then s.reasons != [] else remaining != []);
      var billable := pause || s.status == Active || s.status == PastDue;
      if !held && billable {
        if refused {
          assert subs == subs[k := s];
          return true;
        }
        s := s.(stripePaused := pause);
      }
      subs := subs[k := s.(reasons := if pause then s.reasons + [t] else remaining)];
      return false;
    }

    /** setClubBillingPaused: the owner pauses the shop, or brings it back. */
    method SetClubBillingPaused(shop: nat, pause: bool, refusals: set<nat>) returns (count: nat)
      modifies this
      ensures old(AllAgree(subs)) ==> AllAgree(subs)
      ensures subs == OwnerApplied(old(subs), shop, pause, refusals)
      ensures count == |Selection(old(subs), Owner(shop, pause, refusals))|
    {
      var c := Owner(shop, pause, refusals);
      if AllAgree(subs) { NextAgrees(subs, c); }
      PartEnds(subs, c);
      count := OwnerTurns(c);
    }

    method OwnerTurns(c: Command) returns (count: nat)
      requires c.Owner?
      modifies this
      ensures subs == Part(old(subs), Selection(old(subs), c), c)
      ensures count == |Selection(old(subs), c)|
    {
      ghost var was := subs;
      PartEnds(was, c);
      var selected := Selection(subs, c);
      ghost var done := {};
      count := |selected|;
      while selected != {}
        invariant done !! selected && done + selected == Selection(was, c)
        invariant subs == Part(was, done, c)
        decreases |selected|
      {
        var k :| k in selected;
        assert k in Selection(was, c);
        PartGrows(was, done, k, c);
        selected := selected - {k};
        done := done + {k};
        OwnerTurn(k, c.shop, c.pause, k in c.refusals);
      }
      assert done == Selection(was, c);
    }

    method OwnerTurn(k: nat, shop: nat, pause: bool, refused: bool)
      requires k in subs && OwnerSelected(subs[k], shop, pause)
      modifies this
      ensures subs == old(subs)[k := OwnerAfter(old(subs)[k], shop, pause, refused)]
    {
      var s := subs[k];
      var held := !pause && s.reasons != [];
      var billable := pause || s.status == Active || s.status == PastDue;
      if !held && billable {
        if refused {
          assert subs == subs[k := s];
          return;
        }
        s := s.(stripePaused := pause);
      }
      subs := subs[k := s.(shopPaused := pause)];
    }
  }
}
