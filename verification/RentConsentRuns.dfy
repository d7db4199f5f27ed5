/** Runs of the chair-rent protocol that show where its promises end. */
module RentConsentRuns {
  import opened Prelude
  import opened RentConsent
  import opened RentAgreement
  import opened RentOverlap

  /** A run from the empty state leads to v; `serial` when its calls do not overlap. */
  ghost predicate Reached(v: World, serial: bool) {
    exists run: seq<Step> :: Legal(START, run) && After(START, run) == v && (serial ==> Serial(START, run))
  }

  /** A set of states that has the empty one and is closed under steps: it has every state a run leads to. */
  ghost predicate Closed(states: World -> bool, serial: bool) {
    && states(START)
    && forall v: World, s: Step :: states(v) && Enabled(v, s) && (serial && s.Begin? ==> v.calls == map[]) ==>
         states(Next(v, s))
  }

  lemma {:induction false} Extends(w: World, run: seq<Step>, s: Step)
    requires Legal(w, run) && Enabled(After(w, run), s)
    ensures Legal(w, run + [s]) && After(w, run + [s]) == Next(After(w, run), s)
    ensures Serial(w, run) && (s.Begin? ==> After(w, run).calls == map[]) ==> Serial(w, run + [s])
    decreases |run|
  {
    if run == [] {
      assert Legal(Next(w, s), [s][1..]);
    } else {
      Extends(Next(w, run[0]), run[1..], s);
      assert (run + [s])[1..] == run[1..] + [s];
    }
  }

  /** The states that runs lead to are such a set. */
  lemma ReachedIsClosed(serial: bool)
    ensures Closed(v => Reached(v, serial), serial)
  {
    assert Legal(START, []) && After(START, []) == START && Serial(START, []);
    forall v: World, s: Step | Reached(v, serial) && Enabled(v, s) && (serial && s.Begin? ==> v.calls == map[])
      ensures Reached(Next(v, s), serial)
    {
      var run :| Legal(START, run) && After(START, run) == v && (serial ==> Serial(START, run));
      Extends(START, run, s);
    }
  }

  lemma Then(states: World -> bool, v: World, serial: bool, s: Step) returns (u: World)
    requires Closed(states, serial) && states(v) && Enabled(v, s) && (serial && s.Begin? ==> v.calls == map[])
    ensures u == Next(v, s) && states(u)
  {
    u := Next(v, s);
  }

  const NOW := Reply(false, true)
  const LATER := Reply(false, false)

  function Rented(amount: nat, wanted: Mode): Request {
    SetRent(Some(amount), Some(wanted))
  }

  /** A rent of 100.00 charged on the member's card. */
  const CHARGED := Core(Link(Some(10000), Card, Active, Some(0), Some(0), None),
                        [10000], [Sub(0, Running, Running, 10000, 10000)], map[0 := 0], 0)

  /** A rent of 100.00 waiting for the member's card. */
  const WAITING := Core(Link(Some(10000), Card, Awaiting, None, None, None), [], [], map[], 0)

  lemma Waits(states: World -> bool) returns (v: World)
    requires Closed(states, true)
    ensures states(v) && v == World(WAITING, map[], false, {})
  {
    v := START;
    v := Then(states, v, true, Begin(0, Rented(10000, Card)));
    v := Then(states, v, true, Act(0, NOW));
    assert v.calls == map[];
  }

  /** The member's authorization, with the price saved on the row. */
  const PRICED := World(WAITING.(prices := [10000], link := WAITING.link.(price := Some(0))),
                        map[0 := CreateSub(0, false)], false, {})

  lemma Prices(states: World -> bool) returns (v: World)
    requires Closed(states, true)
    ensures states(v) && v == PRICED
  {
    v := Waits(states);
    v := Then(states, v, true, Begin(0, Authorize));
    v := Then(states, v, true, Act(0, NOW));
    v := Then(states, v, true, Act(0, NOW));
    assert v.calls == map[0 := CreateSub(0, false)];
  }

  lemma Authorizes(states: World -> bool) returns (v: World)
    requires Closed(states, true)
    ensures states(v) && v == World(CHARGED, map[], false, {})
  {
    v := Prices(states);
    v := Then(states, v, true, Act(0, NOW));
    v := Then(states, v, true, Act(0, NOW));
    assert v.calls == map[];
  }

  // ---- an accepted rise cut short, then a smaller one ----

  const CLAIMED := World(
    CHARGED.(subs := [Sub(0, Running, Running, 15000, 15000)], stamp := 1),
    map[0 := AcceptedPrice(15000, 0)], false, {})

  lemma Claims(states: World -> bool) returns (v: World)
    requires Closed(states, true)
    ensures states(v) && v == CLAIMED
  {
    v := Authorizes(states);
    v := Then(states, v, true, Begin(0, Rented(15000, Card)));
    v := Then(states, v, true, Act(0, NOW));
    assert v.calls == map[];
    v := Then(states, v, true, Begin(0, Respond(true)));
    v := Then(states, v, true, Act(0, NOW));
    assert v.calls == map[0 := AcceptedPrice(15000, 0)];
  }

  /** An accepted rise that died between the switch at Stripe and the row. */
  const SWITCHED := World(
    Core(CHARGED.link, [10000, 15000], [Sub(1, Running, Running, 15000, 15000)], map[0 := 0], 1),
    map[], true, {})

  lemma CutsAnAccept(states: World -> bool) returns (v: World)
    requires Closed(states, true)
    ensures states(v) && v == SWITCHED
  {
    v := Claims(states);
    v := Then(states, v, true, Act(0, NOW));
    assert v.c.prices == [10000, 15000];
    v := Then(states, v, true, Act(0, NOW));
    v := Then(states, v, true, Crash(0));
    assert v.calls == map[];
  }

  lemma CutsAnother(states: World -> bool) returns (v: World)
    requires Closed(states, true)
    ensures states(v)
    ensures v.calls == map[] && |v.c.subs| == 1 && BoundTo(v.c, 0)
    ensures v.c.subs[0].price < |v.c.prices| && v.c.prices[v.c.subs[0].price] > v.c.subs[0].last
  {
    v := CutsAnAccept(states);
    v := Then(states, v, true, Begin(0, Rented(12000, Card)));
    v := Then(states, v, true, Act(0, NOW));
    assert v.calls == map[];
    v := Then(states, v, true, Begin(0, Respond(true)));
    v := Then(states, v, true, Act(0, NOW));
    v := Then(states, v, true, Crash(0));
    assert v.calls == map[];
  }

  /**
   Two calls cut short leave the card charged above the last agreement: an accepted rise is
   switched but not written, the next, smaller rise is accepted and dies before its switch.
   */
  lemma CutAcceptsChargeAboveLastAgreement() returns (v: World)
    ensures Reached(v, true)
    ensures v.calls == map[] && |v.c.subs| == 1 && BoundTo(v.c, 0)
    ensures v.c.subs[0].price < |v.c.prices| && v.c.prices[v.c.subs[0].price] > v.c.subs[0].last
  {
    ReachedIsClosed(true);
    v := CutsAnother(w => Reached(w, true));
  }

  // ---- setRent overtaken by an authorization ----

  const OVERTAKEN := World(PRICED.c, map[1 := WriteRent(20000, None, Awaiting, None), 0 := CreateSub(0, false)],
                           false, {})

  lemma Overtakes(states: World -> bool) returns (v: World)
    requires Closed(states, false)
    ensures states(v) && v == OVERTAKEN
  {
    v := Waits(states);
    v := Then(states, v, false, Begin(1, Rented(20000, Card)));
    v := Then(states, v, false, Begin(0, Authorize));
    v := Then(states, v, false, Act(0, NOW));
    v := Then(states, v, false, Act(0, NOW));
    assert v.calls == OVERTAKEN.calls;
  }

  /** A rent the member never saw stands on the row of a charge. */
  const RACED := World(CHARGED.(link := Link(Some(20000), Card, Awaiting, None, Some(0), None)), map[], false, {})

  lemma Races(states: World -> bool) returns (v: World)
    requires Closed(states, false)
    ensures states(v) && v == RACED
  {
    v := Overtakes(states);
    v := Then(states, v, false, Act(0, NOW));
    v := Then(states, v, false, Act(0, NOW));
    v := Then(states, v, false, Act(1, NOW));
    assert v.calls == map[];
  }

  lemma LowersAfterTheRace(states: World -> bool) returns (v: World)
    requires Closed(states, false)
    ensures states(v)
    ensures v.calls == map[] && !v.cut && |v.c.subs| == 1 && BoundTo(v.c, 0)
    ensures v.c.subs[0].price < |v.c.prices| && v.c.prices[v.c.subs[0].price] > v.c.subs[0].top
  {
    v := Races(states);
    v := Then(states, v, false, Begin(0, Rented(15000, Card)));
    v := Then(states, v, false, Act(0, NOW));
    v := Then(states, v, false, Act(0, NOW));
    v := Then(states, v, false, Act(0, NOW));
    assert v.calls == map[];
  }

  /**
   setRent reads the row outside the lock authorize takes. A setRent that read it before the
   authorization writes a rent the member never saw; the next, lower one then passes for a
   decrease and raises the charge, with no call cut short.
   */
  lemma SetRentRacingAuthorizeRaisesTheCharge() returns (v: World)
    ensures Reached(v, false)
    ensures v.calls == map[] && !v.cut && |v.c.subs| == 1 && BoundTo(v.c, 0)
    ensures v.c.subs[0].price < |v.c.prices| && v.c.prices[v.c.subs[0].price] > v.c.subs[0].top
  {
    ReachedIsClosed(false);
    v := LowersAfterTheRace(w => Reached(w, false));
  }

  // ---- a renewal cut short ----

  /** A first charge whose card was never confirmed. */
  const EXPIRED := World(
    Core(Link(Some(10000), Card, Incomplete, Some(0), Some(0), None),
         [10000], [Sub(0, Ended, Unconfirmed, 10000, 10000)], map[0 := 0], 0),
    map[], false, {})

  lemma Expires(states: World -> bool) returns (v: World)
    requires Closed(states, true)
    ensures states(v) && v == EXPIRED
  {
    v := Prices(states);
    v := Then(states, v, true, Act(0, LATER));
    v := Then(states, v, true, Act(0, LATER));
    assert v.calls == map[];
    v := Then(states, v, true, Outside(Moves(0, Ended)));
  }

  /** A renewal with its new price on the row, which keeps the old subscription until the bind. */
  lemma Renews(states: World -> bool, w: World, price: nat) returns (v: World)
    requires Closed(states, true) && states(w) && w.calls == map[] && price == |w.c.prices|
    requires w.c.link.amount == Some(10000) && w.c.link.mode == Card && w.c.link.status == Incomplete
    requires w.c.link.sub == Some(0) && |w.c.subs| > 0 && w.c.subs[0].status in {Overdue, Ended}
    ensures states(v)
    ensures v.c == w.c.(prices := w.c.prices + [10000], link := w.c.link.(price := Some(price)))
    ensures v.calls == map[0 := CreateSub(price, true)] && v.cut == w.cut
    ensures v.strays == w.strays + if w.c.subs[0].status == Overdue then {0} else {}
  {
    v := Then(states, w, true, Begin(0, Authorize));
    v := Then(states, v, true, Act(0, NOW));
    v := Then(states, v, true, Act(0, NOW));
    assert v.calls == map[0 := CreateSub(price, true)];
  }

  /** Its renewal died before the bind. */
  const CUT := World(
    Core(Link(Some(10000), Card, Incomplete, Some(1), Some(0), None),
         [10000, 10000], EXPIRED.c.subs + [Sub(1, Running, Running, 10000, 10000)], map[0 := 0, 1 := 1], 0),
    map[], false, {1})

  lemma CutsARenewal(states: World -> bool) returns (v: World)
    requires Closed(states, true)
    ensures states(v) && v == CUT
  {
    v := Expires(states);
    v := Renews(states, v, 1);
    v := Then(states, v, true, Act(0, NOW));
    v := Then(states, v, true, Crash(0));
    assert v.calls == map[];
  }

  lemma RenewsAgain(states: World -> bool) returns (v: World)
    requires Closed(states, true)
    ensures states(v)
    ensures v.calls == map[] && |v.c.subs| == 3 && StillRuns(v.c, 1) && StillRuns(v.c, 2) && v.c.link.sub == Some(2)
  {
    v := CutsARenewal(states);
    v := Renews(states, v, 2);
    v := Then(states, v, true, Act(0, NOW));
    v := Then(states, v, true, Act(0, NOW));
    assert v.calls == map[];
  }

  /**
   A renewal of an expired first charge that dies before its bind is renewed again under a new
   key: two subscriptions run for one rent, though no setRent came after the first.
   */
  lemma CutRenewalRunsTwice() returns (v: World)
    ensures Reached(v, true)
    ensures v.calls == map[] && |v.c.subs| == 3 && StillRuns(v.c, 1) && StillRuns(v.c, 2) && v.c.link.sub == Some(2)
  {
    ReachedIsClosed(true);
    v := RenewsAgain(w => Reached(w, true));
  }

  // ---- a charge nobody is bound to ----

  lemma CutsTheBind(states: World -> bool) returns (v: World)
    requires Closed(states, true)
    ensures states(v) && v == World(CHARGED.(link := PRICED.c.link), map[], false, {})
  {
    v := Prices(states);
    v := Then(states, v, true, Act(0, NOW));
    v := Then(states, v, true, Crash(0));
    assert v.calls == map[];
  }

  lemma EndsTheRent(states: World -> bool) returns (v: World)
    requires Closed(states, true)
    ensures states(v)
    ensures v.calls == map[] && v.c.link.amount == None && |v.c.subs| == 1 && StillRuns(v.c, 0)
  {
    v := CutsTheBind(states);
    v := Then(states, v, true, Begin(0, SetRent(None, None)));
    v := Then(states, v, true, Act(0, NOW));
    v := Then(states, v, true, Act(0, NOW));
    assert v.calls == map[];
  }

  /** Ending the rent after an authorization that died before its bind leaves the charge running. */
  lemma EndedRentStillCharges() returns (v: World)
    ensures Reached(v, true)
    ensures v.calls == map[] && v.c.link.amount == None && |v.c.subs| == 1 && StillRuns(v.c, 0)
  {
    ReachedIsClosed(true);
    v := EndsTheRent(w => Reached(w, true));
  }

  // ---- a stored reply of an ended charge ----

  /** An authorization that died after Stripe created its charge; the charge expired meanwhile. */
  lemma ExpiresUnbound(states: World -> bool) returns (v: World)
    requires Closed(states, true)
    ensures states(v) && v == World(EXPIRED.c.(link := PRICED.c.link), map[], false, {})
  {
    v := Prices(states);
    v := Then(states, v, true, Act(0, LATER));
    v := Then(states, v, true, Crash(0));
    assert v.calls == map[];
    v := Then(states, v, true, Outside(Moves(0, Ended)));
    v := Then(states, v, true, Outside(Deleted(0)));
  }

  lemma BindsTheEnded(states: World -> bool) returns (v: World)
    requires Closed(states, true)
    ensures states(v) && v == EXPIRED
  {
    v := ExpiresUnbound(states);
    v := Then(states, v, true, Begin(0, Authorize));
    v := Then(states, v, true, Act(0, Reply(true, false)));
    v := Then(states, v, true, Act(0, NOW));
    assert v.calls == map[];
  }

  /**
   The webhook of a charge the row is not bound to leaves its key on the row; when Stripe then
   repeats its stored reply, the authorization binds a subscription that has ended.
   */
  lemma StoredReplyBindsTheEnded() returns (v: World)
    ensures Reached(v, true)
    ensures v.calls == map[] && v.c.link.sub == Some(0) && |v.c.subs| == 1 && v.c.subs[0].status == Ended
  {
    ReachedIsClosed(true);
    v := BindsTheEnded(w => Reached(w, true));
  }

  // ---- setRent inside an authorization ----

  /** The new rent is on the row, the old one's price in the call. */
  const INSIDE := PRICED.(c := PRICED.c.(link := Link(Some(20000), Card, Awaiting, None, None, None)))

  lemma SetsInside(states: World -> bool) returns (v: World)
    requires Closed(states, false)
    ensures states(v) && v == INSIDE
  {
    v := Prices(states);
    v := Then(states, v, false, Begin(1, Rented(20000, Card)));
    assert v.calls[1] == WriteRent(20000, None, Awaiting, None);
    v := Then(states, v, false, Act(1, NOW));
    assert v.calls == map[0 := CreateSub(0, false)];
  }

  /** The charge is bound to the new rent. */
  const BOUND := World(CHARGED.(link := Link(Some(20000), Card, Active, None, Some(0), None)), map[], false, {})

  lemma BindsTheOldRent(states: World -> bool) returns (v: World)
    requires Closed(states, false)
    ensures states(v) && v == BOUND
  {
    v := SetsInside(states);
    v := Then(states, v, false, Act(0, NOW));
    v := Then(states, v, false, Act(0, NOW));
    assert v.calls == map[];
  }

  lemma LowersAfterTheBind(states: World -> bool) returns (v: World)
    requires Closed(states, false)
    ensures states(v)
    ensures v.calls == map[] && !v.cut && |v.c.subs| == 1 && BoundTo(v.c, 0)
    ensures v.c.subs[0].price < |v.c.prices| && v.c.prices[v.c.subs[0].price] > v.c.subs[0].top
  {
    v := BindsTheOldRent(states);
    v := Then(states, v, false, Begin(0, Rented(15000, Card)));
    v := Then(states, v, false, Act(0, NOW));
    v := Then(states, v, false, Act(0, NOW));
    v := Then(states, v, false, Act(0, NOW));
    assert v.calls == map[];
  }

  /**
   A setRent that begins and ends inside an authorization, before its bind, does the same: the
   charge is bound to a rent it was not created for, and the next, lower one raises it.
   */
  lemma SetRentInsideAuthorizeRaisesTheCharge() returns (v: World)
    ensures Reached(v, false)
    ensures v.calls == map[] && !v.cut && |v.c.subs| == 1 && BoundTo(v.c, 0)
    ensures v.c.subs[0].price < |v.c.prices| && v.c.prices[v.c.subs[0].price] > v.c.subs[0].top
  {
    ReachedIsClosed(false);
    v := LowersAfterTheBind(w => Reached(w, false));
  }

  // ---- a renewal while the first charge is overdue ----

  /** A first charge that Stripe has overdue before the member comes back to confirm it. */
  const OVERDUE := World(EXPIRED.c.(subs := [Sub(0, Overdue, Unconfirmed, 10000, 10000)]), map[], false, {})

  lemma FallsOverdue(states: World -> bool) returns (v: World)
    requires Closed(states, true)
    ensures states(v) && v == OVERDUE
  {
    v := Prices(states);
    v := Then(states, v, true, Act(0, LATER));
    v := Then(states, v, true, Act(0, LATER));
    assert v.calls == map[];
    v := Then(states, v, true, Outside(Moves(0, Overdue)));
  }

  lemma RenewsOverdue(states: World -> bool) returns (v: World)
    requires Closed(states, true)
    ensures states(v)
    ensures v.calls == map[] && !v.cut && |v.c.subs| == 2 && StillRuns(v.c, 0) && BoundTo(v.c, 1)
  {
    v := FallsOverdue(states);
    v := Renews(states, v, 1);
    v := Then(states, v, true, Act(0, NOW));
    v := Then(states, v, true, Act(0, NOW));
    assert v.calls == map[];
  }

  /**
   With no call cut short: a row still waiting for its first charge to be confirmed, which Stripe
   has overdue by then, is renewed beside it. Two subscriptions run for one rent.
   */
  lemma OverdueRenewalRunsTwice() returns (v: World)
    ensures Reached(v, true)
    ensures v.calls == map[] && !v.cut && |v.c.subs| == 2 && StillRuns(v.c, 0) && BoundTo(v.c, 1)
  {
    ReachedIsClosed(true);
    v := RenewsOverdue(w => Reached(w, true));
  }

  // ---- two accepted rises overlapping ----

  /** A rise of 150.00 accepted and not yet switched, one of 120.00 proposed meanwhile. */
  const PROPOSED := CLAIMED.(
    c := CLAIMED.c.(link := CLAIMED.c.link.(pending := Some(Proposal(12000, 1))), stamp := 2))

  lemma Proposes(states: World -> bool) returns (v: World)
    requires Closed(states, false)
    ensures states(v) && v == PROPOSED
  {
    v := Claims(states);
    v := Then(states, v, false, Begin(1, Rented(12000, Card)));
    v := Then(states, v, false, Act(1, NOW));
    assert v.calls == CLAIMED.calls;
  }

  /** Both are claimed, neither is at Stripe. */
  const BOTH := World(
    PROPOSED.c.(link := CHARGED.link, subs := [Sub(0, Running, Running, 12000, 15000)]),
    CLAIMED.calls[1 := AcceptedPrice(12000, 0)], false, {})

  lemma ClaimsInside(states: World -> bool) returns (v: World)
    requires Closed(states, false)
    ensures states(v) && v == BOTH
  {
    v := Proposes(states);
    v := Then(states, v, false, Begin(1, Respond(true)));
    v := Then(states, v, false, Act(1, NOW));
    assert v.calls == BOTH.calls;
  }

  /** The second rise went through. */
  const REPLACED := World(
    Core(Link(Some(12000), Card, Active, Some(1), Some(0), None),
         [10000, 12000], [Sub(1, Running, Running, 12000, 15000)], map[0 := 0], 2),
    CLAIMED.calls, false, {})

  lemma AcceptsInside(states: World -> bool) returns (v: World)
    requires Closed(states, false)
    ensures states(v) && v == REPLACED
  {
    v := ClaimsInside(states);
    v := Then(states, v, false, Act(1, NOW));
    v := Then(states, v, false, Act(1, NOW));
    v := Then(states, v, false, Act(1, NOW));
    assert v.calls == CLAIMED.calls;
  }

  lemma ResumesTheFirst(states: World -> bool) returns (v: World)
    requires Closed(states, false)
    ensures states(v)
    ensures v.calls == map[] && !v.cut && |v.c.subs| == 1 && BoundTo(v.c, 0)
    ensures v.c.subs[0].price < |v.c.prices| && v.c.prices[v.c.subs[0].price] > v.c.subs[0].last
  {
    v := AcceptsInside(states);
    v := Then(states, v, false, Act(0, NOW));
    v := Then(states, v, false, Act(0, NOW));
    v := Then(states, v, false, Act(0, NOW));
    assert v.calls == map[];
  }

  /**
   The member accepts a rise, then, before it is at Stripe, a smaller one, which overtakes it: the
   card ends charged the first amount, above the last one accepted, with no call cut short.
   */
  lemma OverlappingAcceptsChargeAboveLastAgreement() returns (v: World)
    ensures Reached(v, false)
    ensures v.calls == map[] && !v.cut && |v.c.subs| == 1 && BoundTo(v.c, 0)
    ensures v.c.subs[0].price < |v.c.prices| && v.c.prices[v.c.subs[0].price] > v.c.subs[0].last
  {
    ReachedIsClosed(false);
    v := ResumesTheFirst(w => Reached(w, false));
  }

  /** The claim of the second rise does not cover the call that has the first. */
  lemma TheSecondDoesNotCover()
    ensures var w := PROPOSED.(calls := CLAIMED.calls[1 := ClaimProposal(Proposal(12000, 1), Some(0), true)]);
      1 in w.calls && !Covers(w, 1)
  {
    var w := PROPOSED.(calls := CLAIMED.calls[1 := ClaimProposal(Proposal(12000, 1), Some(0), true)]);
    assert 0 in w.calls && !CoversCall(w.c, w.calls[1], w.calls[0], 0);
  }

  /** On its own, accepting a rise covers the charge and the row. */
  lemma TheFirstCovers()
    ensures var c := CHARGED.(link := CHARGED.link.(pending := Some(Proposal(15000, 0))));
      var w := World(c, map[0 := ClaimProposal(Proposal(15000, 0), Some(0), true)], false, {});
      Fresh(w) && Pledged(w) && 0 in w.calls && Covers(w, 0)
  {
  }

  // ---- a proposal made from a rent the row no longer has ----

  /** The rent went down to 50.00 while another setRent, to 90.00, had read 100.00. */
  const LOWERED := World(
    Core(Link(Some(5000), Card, Active, Some(1), Some(0), None),
         [10000, 5000], [Sub(1, Running, Running, 10000, 10000)], map[0 := 0], 0),
    map[0 := NewPrice(9000, 0, Active)], false, {})

  lemma LowersBeside(states: World -> bool) returns (v: World)
    requires Closed(states, false)
    ensures states(v) && v == LOWERED
  {
    v := Authorizes(states);
    v := Then(states, v, false, Begin(0, Rented(9000, Card)));
    v := Then(states, v, false, Begin(1, Rented(5000, Card)));
    assert v.calls == map[0 := NewPrice(9000, 0, Active), 1 := NewPrice(5000, 0, Active)];
    v := Then(states, v, false, Act(1, NOW));
    v := Then(states, v, false, Act(1, NOW));
    v := Then(states, v, false, Act(1, NOW));
    assert v.calls == LOWERED.calls;
  }

  /** The rent is 90.00, the rise proposed is to 60.00. */
  const STALE := World(
    Core(Link(Some(9000), Card, Active, Some(2), Some(0), Some(Proposal(6000, 0))),
         [10000, 5000, 9000], [Sub(2, Running, Running, 10000, 10000)], map[0 := 0], 1),
    map[], false, {})

  lemma ProposesStale(states: World -> bool) returns (v: World)
    requires Closed(states, false)
    ensures states(v) && v == STALE
  {
    v := LowersBeside(states);
    v := Then(states, v, false, Begin(1, Rented(6000, Card)));
    assert v.calls == map[0 := NewPrice(9000, 0, Active), 1 := WriteProposal(6000)];
    v := Then(states, v, false, Act(0, NOW));
    v := Then(states, v, false, Act(0, NOW));
    v := Then(states, v, false, Act(0, NOW));
    assert v.calls == map[1 := WriteProposal(6000)];
    v := Then(states, v, false, Act(1, NOW));
    assert v.calls == map[];
  }

  lemma AcceptsTheStale(states: World -> bool) returns (v: World)
    requires Closed(states, false)
    ensures states(v)
    ensures v.calls == map[] && !v.cut && |v.c.subs| == 1 && BoundTo(v.c, 0)
    ensures v.c.subs[0].price < |v.c.prices| && v.c.prices[v.c.subs[0].price] > v.c.subs[0].last
  {
    v := ProposesStale(states);
    v := Then(states, v, false, Begin(0, Respond(true)));
    v := Then(states, v, false, Act(0, NOW));
    v := Then(states, v, false, Crash(0));
    assert v.calls == map[];
  }

  /**
   A setRent that read the row before another raised it back proposes a rise that is none. The
   member, alone, accepts less than the charge, and the call dies before the switch.
   */
  lemma StaleProposalUndercutsTheCharge() returns (v: World)
    ensures Reached(v, false)
    ensures v.calls == map[] && !v.cut && |v.c.subs| == 1 && BoundTo(v.c, 0)
    ensures v.c.subs[0].price < |v.c.prices| && v.c.prices[v.c.subs[0].price] > v.c.subs[0].last
  {
    ReachedIsClosed(false);
    v := AcceptsTheStale(w => Reached(w, false));
  }
}
