/** Refund and dispute events merge the same way whatever their order and repeats. */
module AppPaymentsTheorems {
  import opened Prelude
  import opened Sums
  import opened AppPayments

  // ---- one payment ----

  predicate Fits(p: Prepaid, c: Charge) {
    (c.full <==> c.refunded >= c.amount) && p.amount == c.amount && Returned(p) <= c.amount
  }

  lemma PrepaidCommutes(p: Prepaid, c: Charge, d: Charge)
    requires Fits(p, c) && Fits(p, d) && c.refunded > 0 && d.refunded > 0
    ensures PrepaidAfter(PrepaidAfter(p, c), d) == PrepaidAfter(PrepaidAfter(p, d), c)
    ensures PrepaidAfter(PrepaidAfter(p, c), c) == PrepaidAfter(p, c)
    ensures Fits(PrepaidAfter(p, c), d)
  {
  }

  function Largest(cs: seq<Charge>): nat {
    if cs == [] then 0 else Max(cs[0].refunded, Largest(cs[1..]))
  }

  function PrepaidAfterAll(p: Prepaid, cs: seq<Charge>): Prepaid
    decreases |cs|
  {
    if cs == [] then p else PrepaidAfterAll(PrepaidAfter(p, cs[0]), cs[1..])
  }

  /**
   Events on one prepayment form a join: what is stored is the largest refund seen, capped at
   the amount, it never goes down, and the mark is set exactly when it reaches the amount.
   */
  lemma {:induction false} PrepaidJoin(p: Prepaid, cs: seq<Charge>)
    requires p.paidAt && p.amount > 0 && (p.marked <==> Returned(p) == p.amount)
    requires forall c :: c in cs ==> Fits(p, c) && c.refunded > 0
    ensures var q := PrepaidAfterAll(p, cs);
      && Returned(q) == Max(Returned(p), Min(p.amount, Largest(cs)))
      && (q.marked <==> Returned(q) == p.amount)
    decreases |cs|
  {
    if cs != [] {
      assert cs[0] in cs;
      PrepaidJoin(PrepaidAfter(p, cs[0]), cs[1..]);
    }
  }

  function DepositAfterAll(d: Deposit, cs: seq<Charge>): Deposit
    decreases |cs|
  {
    if cs == [] then d else DepositAfterAll(DepositAfter(d, cs[0]), cs[1..])
  }

  /** Stripe says that all of it went back, or what went back is all of it. */
  predicate Returns(c: Charge, amount: nat) {
    c.full || c.refunded >= amount
  }

  predicate SomeReturns(cs: seq<Charge>, amount: nat) {
    exists c :: c in cs && Returns(c, amount)
  }

  lemma SomeSplit(cs: seq<Charge>, amount: nat)
    requires cs != []
    ensures SomeReturns(cs, amount) <==> Returns(cs[0], amount) || SomeReturns(cs[1..], amount)
  {
    if SomeReturns(cs, amount) {
      var c :| c in cs && Returns(c, amount);
      assert c == cs[0] || c in cs[1..];
    }
    assert cs[0] in cs;
  }

  /** With truthful flags some event returns the amount exactly when the largest does. */
  lemma {:induction false} LargestReturns(cs: seq<Charge>, amount: nat)
    requires forall c :: c in cs ==> (c.full <==> c.refunded >= c.amount) && c.amount == amount
    ensures SomeReturns(cs, amount) <==> cs != [] && Largest(cs) >= amount
  {
    if cs != [] {
      assert cs[0] in cs;
      SomeSplit(cs, amount);
      LargestReturns(cs[1..], amount);
    }
  }

  /** A deposit is marked and unpaid exactly when some event returned all of it. */
  lemma {:induction false} DepositJoin(d: Deposit, cs: seq<Charge>)
    ensures var e := DepositAfterAll(d, cs); var some := SomeReturns(cs, d.amount);
      e.amount == d.amount && (e.marked <==> d.marked || some) && (e.paid <==> d.paid && (d.marked || !some))
    decreases |cs|
  {
    if cs != [] {
      SomeSplit(cs, d.amount);
      DepositJoin(DepositAfter(d, cs[0]), cs[1..]);
    }
  }

  function TipAfterAll(t: Tip, cs: seq<Charge>): Tip
    decreases |cs|
  {
    if cs == [] then t else TipAfterAll(TipAfter(t, cs[0]), cs[1..])
  }

  /** A tip is marked exactly when some event returned all of it. */
  lemma {:induction false} TipJoin(t: Tip, cs: seq<Charge>)
    ensures var u := TipAfterAll(t, cs);
      u.amount == t.amount && (u.marked <==> t.marked || SomeReturns(cs, t.amount))
    decreases |cs|
  {
    if cs != [] {
      SomeSplit(cs, t.amount);
      TipJoin(TipAfter(t, cs[0]), cs[1..]);
    }
  }

  function ClubAfterAll(r: Option<nat>, cs: seq<Charge>): Option<nat>
    decreases |cs|
  {
    if cs == [] then r else ClubAfterAll(ClubAfter(r, cs[0]), cs[1..])
  }

  /** A club payment keeps the largest refund seen. */
  lemma {:induction false} ClubJoin(r: Option<nat>, cs: seq<Charge>)
    requires cs != [] || r.Some?
    ensures ClubAfterAll(r, cs) == Some(Max(if r.Some? then r.value else 0, Largest(cs)))
    decreases |cs|
  {
    if cs != [] { ClubJoin(ClubAfter(r, cs[0]), cs[1..]); }
  }

  lemma {:induction false} AfterAllKeeps(p: Prepaid, cs: seq<Charge>)
    ensures var q := PrepaidAfterAll(p, cs); q.paidAt == p.paidAt && q.amount == p.amount
    decreases |cs|
  {
    if cs != [] { AfterAllKeeps(PrepaidAfter(p, cs[0]), cs[1..]); }
  }

  /**
   A delivery that read the row before others came, and writes after them: what is stored is
   again the largest refund seen, capped, exactly unless it brings more than the row had when
   it read it and less than the others brought, with none of them reaching the amount.
   */
  lemma OverlapLowersRefund(p: Prepaid, cs: seq<Charge>, d: Charge)
    requires p.paidAt && p.amount > 0 && (p.marked <==> Returned(p) == p.amount)
    requires Fits(p, d) && d.refunded > 0 && forall c :: c in cs ==> Fits(p, c) && c.refunded > 0
    ensures var r := PrepaidWrite(p, PrepaidAfterAll(p, cs), d); var most := Max(Largest(cs), d.refunded);
      && (Returned(r) == Max(Returned(p), Min(p.amount, most)) <==>
            !(Returned(p) < d.refunded < Largest(cs) < p.amount))
      && (Returned(r) < Max(Returned(p), Min(p.amount, most)) ==> Returned(r) == d.refunded && !r.marked)
  {
    PrepaidJoin(p, cs);
    AfterAllKeeps(p, cs);
  }

  // ---- the books ----

  lemma ConsistentStays(b: Books, c: Charge, d: Charge, now: int)
    requires Consistent(b, c) && Consistent(b, d)
    ensures Consistent(Synced(b, c, now), d)
  {
  }

  lemma DepositsCommute(deposits: map<nat, Deposit>, c: Charge, d: Charge)
    ensures DepositsAfter(DepositsAfter(deposits, c), d) == DepositsAfter(DepositsAfter(deposits, d), c)
    ensures DepositsAfter(DepositsAfter(deposits, c), c) == DepositsAfter(deposits, c)
  {
  }

  lemma TipsCommute(tips: map<nat, Tip>, c: Charge, d: Charge)
    ensures TipsAfter(TipsAfter(tips, c), d) == TipsAfter(TipsAfter(tips, d), c)
    ensures TipsAfter(TipsAfter(tips, c), c) == TipsAfter(tips, c)
  {
  }

  lemma PrepaidsCommute(b: Books, c: Charge, d: Charge)
    requires Consistent(b, c) && Consistent(b, d)
    ensures PrepaidsAfter(PrepaidsAfter(b.prepaids, c), d) == PrepaidsAfter(PrepaidsAfter(b.prepaids, d), c)
    ensures PrepaidsAfter(PrepaidsAfter(b.prepaids, c), c) == PrepaidsAfter(b.prepaids, c)
  {
    if Counts(c) && c.intent.value in b.prepaids {
      var p := b.prepaids[c.intent.value];
      PrepaidCommutes(p, c, c);
      if Counts(d) && c.intent == d.intent { PrepaidCommutes(p, c, d); }
    }
  }

  lemma ClubsCommute(clubs: map<nat, Option<nat>>, c: Charge, d: Charge)
    ensures ClubsAfter(ClubsAfter(clubs, c), d) == ClubsAfter(ClubsAfter(clubs, d), c)
    ensures ClubsAfter(ClubsAfter(clubs, c), c) == ClubsAfter(clubs, c)
  {
  }

  lemma ShortenedCommutes(until: int, days: nat, more: nat, now: int)
    ensures Shortened(Shortened(until, days, now), more, now) == Shortened(until, days + more, now)
  {
  }

  lemma FeaturedCommutes(purchases: map<nat, Purchase>, featured: map<nat, int>, i: nat, j: nat, now: int)
    ensures FeaturedAfter(PurchasesAfter(purchases, i), FeaturedAfter(purchases, featured, i, now), j, now)
      == FeaturedAfter(PurchasesAfter(purchases, j), FeaturedAfter(purchases, featured, j, now), i, now)
  {
    if i in purchases && j in purchases && i != j && purchases[i].owner in featured {
      var until := featured[purchases[i].owner];
      ShortenedCommutes(until, purchases[i].days, purchases[j].days, now);
      ShortenedCommutes(until, purchases[j].days, purchases[i].days, now);
    }
  }

  lemma RevokedCommutes(b: Books, i: nat, j: nat, now: int)
    ensures Revoked(Revoked(b, i, now), j, now) == Revoked(Revoked(b, j, now), i, now)
  {
    var v := Revoked(Revoked(b, i, now), j, now);
    var u := Revoked(Revoked(b, j, now), i, now);
    assert v.purchases == u.purchases;
    FeaturedCommutes(b.purchases, b.featured, i, j, now);
    assert v.fees == u.fees;
  }

  /** A purchase hit twice (a refund and a lost dispute, at whatever times) loses its days once. */
  lemma RevokedOnce(b: Books, i: nat, now: int, later: int)
    ensures Revoked(Revoked(b, i, now), i, later) == Revoked(b, i, now)
  {
    var v := Revoked(b, i, now);
    assert Revoked(v, i, later).purchases == v.purchases;
    assert Revoked(v, i, later).fees == v.fees;
  }

  predicate Revokes(c: Charge) {
    Counts(c) && c.full
  }

  lemma PurchasesOf(b: Books, c: Charge, now: int)
    ensures var v := Synced(b, c, now);
      var u := if Revokes(c) then Revoked(b, c.intent.value, now) else b;
      v.purchases == u.purchases && v.featured == u.featured && v.fees == u.fees
  {
  }

  /** Revoking reads and writes the purchases, the highlight and the fees, nothing else. */
  lemma RevokedFrame(b: Books, d: Books, i: nat, now: int)
    requires b.purchases == d.purchases && b.featured == d.featured && b.fees == d.fees
    ensures var v := Revoked(b, i, now); var u := Revoked(d, i, now);
      v.purchases == u.purchases && v.featured == u.featured && v.fees == u.fees
  {
  }

  lemma PurchasesCommute(b: Books, c: Charge, d: Charge, now: int)
    ensures var v := Synced(Synced(b, c, now), d, now); var u := Synced(Synced(b, d, now), c, now);
      v.purchases == u.purchases && v.featured == u.featured && v.fees == u.fees
  {
    PurchasesOf(b, c, now);
    PurchasesOf(b, d, now);
    PurchasesOf(Synced(b, c, now), d, now);
    PurchasesOf(Synced(b, d, now), c, now);
    if Revokes(c) && Revokes(d) {
      RevokedFrame(Synced(b, c, now), Revoked(b, c.intent.value, now), d.intent.value, now);
      RevokedFrame(Synced(b, d, now), Revoked(b, d.intent.value, now), c.intent.value, now);
      RevokedCommutes(b, c.intent.value, d.intent.value, now);
    } else if Revokes(c) {
      RevokedFrame(Synced(b, d, now), b, c.intent.value, now);
    } else if Revokes(d) {
      RevokedFrame(Synced(b, c, now), b, d.intent.value, now);
    }
  }

  lemma SyncedCommutes(b: Books, c: Charge, d: Charge, now: int)
    requires Consistent(b, c) && Consistent(b, d)
    ensures Synced(Synced(b, c, now), d, now) == Synced(Synced(b, d, now), c, now)
  {
    DepositsCommute(b.deposits, c, d);
    TipsCommute(b.tips, c, d);
    PrepaidsCommute(b, c, d);
    ClubsCommute(b.clubs, c, d);
    PurchasesCommute(b, c, d, now);
  }

  /** A repeated event undoes nothing and adds nothing. */
  lemma SyncedTwice(b: Books, c: Charge, now: int)
    requires Consistent(b, c)
    ensures Synced(Synced(b, c, now), c, now) == Synced(b, c, now)
  {
    var v := Synced(b, c, now);
    var u := Synced(v, c, now);
    PurchasesOf(b, c, now);
    PurchasesOf(v, c, now);
    if Revokes(c) {
      RevokedFrame(v, Revoked(b, c.intent.value, now), c.intent.value, now);
      RevokedOnce(b, c.intent.value, now, now);
    }
    DepositsCommute(b.deposits, c, c);
    TipsCommute(b.tips, c, c);
    PrepaidsCommute(b, c, c);
    ClubsCommute(b.clubs, c, c);
  }

  // ---- lists of events ----

  ghost predicate AllConsistent(b: Books, cs: seq<Charge>) {
    forall c :: c in cs ==> Consistent(b, c)
  }

  /** An event moves past a list. */
  lemma {:induction false} PastAll(b: Books, c: Charge, cs: seq<Charge>, now: int)
    requires Consistent(b, c) && AllConsistent(b, cs)
    ensures SyncedAll(Synced(b, c, now), cs, now) == Synced(SyncedAll(b, cs, now), c, now)
    decreases |cs|
  {
    if cs != [] {
      assert cs[0] in cs;
      SyncedCommutes(b, c, cs[0], now);
      ConsistentAll(b, cs[0], [c] + cs, now);
      PastAll(Synced(b, cs[0], now), c, cs[1..], now);
    }
  }

  lemma ConsistentAll(b: Books, c: Charge, cs: seq<Charge>, now: int)
    requires Consistent(b, c) && AllConsistent(b, cs)
    ensures forall d :: d in cs ==> Consistent(Synced(b, c, now), d)
  {
    forall d | d in cs ensures Consistent(Synced(b, c, now), d) { ConsistentStays(b, c, d, now); }
  }

  /** An event of the list, delivered again at the end, changes nothing. */
  lemma {:induction false} Absorbed(b: Books, c: Charge, cs: seq<Charge>, now: int)
    requires AllConsistent(b, cs) && c in cs
    ensures Synced(SyncedAll(b, cs, now), c, now) == SyncedAll(b, cs, now)
    decreases |cs|
  {
    assert cs[0] in cs;
    ConsistentAll(b, cs[0], cs, now);
    if c == cs[0] {
      SyncedTwice(b, c, now);
      PastAll(Synced(b, c, now), c, cs[1..], now);
    } else {
      Absorbed(Synced(b, cs[0], now), c, cs[1..], now);
    }
  }

  lemma {:induction false} AllAbsorbed(b: Books, cs: seq<Charge>, ds: seq<Charge>, now: int)
    requires AllConsistent(b, cs) && forall d :: d in ds ==> d in cs
    ensures SyncedAll(SyncedAll(b, cs, now), ds, now) == SyncedAll(b, cs, now)
    decreases |ds|
  {
    if ds != [] {
      assert ds[0] in ds;
      Absorbed(b, ds[0], cs, now);
      AllAbsorbed(b, cs, ds[1..], now);
    }
  }

  lemma {:induction false} BlocksCommute(b: Books, cs: seq<Charge>, ds: seq<Charge>, now: int)
    requires AllConsistent(b, cs) && AllConsistent(b, ds)
    ensures SyncedAll(SyncedAll(b, cs, now), ds, now) == SyncedAll(SyncedAll(b, ds, now), cs, now)
    decreases |cs|
  {
    if cs != [] {
      assert cs[0] in cs;
      ConsistentAll(b, cs[0], cs, now);
      ConsistentAll(b, cs[0], ds, now);
      BlocksCommute(Synced(b, cs[0], now), cs[1..], ds, now);
      PastAll(b, cs[0], ds, now);
    }
  }

  /**
   Whatever the order and the repeats, the same refund events leave the same books: club
   payments, deposits, prepayments, tips, highlights and job fees.
   */
  lemma EventOrderIrrelevant(b: Books, cs: seq<Charge>, ds: seq<Charge>, now: int)
    requires AllConsistent(b, cs) && AllConsistent(b, ds) && forall c :: c in cs <==> c in ds
    ensures SyncedAll(b, cs, now) == SyncedAll(b, ds, now)
  {
    AllAbsorbed(b, cs, ds, now);
    AllAbsorbed(b, ds, cs, now);
    BlocksCommute(b, cs, ds, now);
  }

  // ---- what a list of events leaves on each payment ----

  predicate Names(c: Charge, i: nat) {
    Counts(c) && c.intent.value == i
  }

  /** The events of the list about one payment intent. */
  function Naming(cs: seq<Charge>, i: nat): (r: seq<Charge>)
    ensures forall c :: c in r <==> c in cs && Names(c, i)
  {
    if cs == [] then []
    else if Names(cs[0], i) then [cs[0]] + Naming(cs[1..], i)
    else Naming(cs[1..], i)
  }

  predicate Bills(c: Charge, i: nat) {
    c.refunded > 0 && c.invoice == Some(i)
  }

  /** The events of the list about one invoice. */
  function Billing(cs: seq<Charge>, i: nat): (r: seq<Charge>)
    ensures forall c :: c in r <==> c in cs && Bills(c, i)
  {
    if cs == [] then []
    else if Bills(cs[0], i) then [cs[0]] + Billing(cs[1..], i)
    else Billing(cs[1..], i)
  }

  lemma {:induction false} PrepaidsSynced(b: Books, cs: seq<Charge>, now: int, i: nat)
    requires i in b.prepaids
    ensures i in SyncedAll(b, cs, now).prepaids
    ensures SyncedAll(b, cs, now).prepaids[i] == PrepaidAfterAll(b.prepaids[i], Naming(cs, i))
    decreases |cs|
  {
    if cs != [] {
      PrepaidsSynced(Synced(b, cs[0], now), cs[1..], now, i);
      if Names(cs[0], i) { assert Naming(cs, i)[0] == cs[0] && Naming(cs, i)[1..] == Naming(cs[1..], i); }
    }
  }

  lemma {:induction false} DoneStays(p: Prepaid, cs: seq<Charge>)
    requires !p.paidAt || p.marked
    ensures PrepaidAfterAll(p, cs) == p
    decreases |cs|
  {
    if cs != [] { DoneStays(p, cs[1..]); }
  }

  /**
   After any events, a paid prepayment stores the largest refund of those that name it, capped at
   its amount, and is marked exactly when that is all of it; one not paid, or marked, stays.
   */
  lemma PrepaidIsTheLargest(b: Books, cs: seq<Charge>, now: int, i: nat)
    requires AllConsistent(b, cs) && i in b.prepaids
    ensures var v := SyncedAll(b, cs, now); var p := b.prepaids[i];
      && i in v.prepaids
      && (!p.paidAt || p.marked ==> v.prepaids[i] == p)
      && (p.paidAt && p.amount > 0 && (p.marked <==> Returned(p) == p.amount) ==>
            && v.prepaids[i].paidAt && v.prepaids[i].amount == p.amount
            && Returned(v.prepaids[i]) == Max(Returned(p), Min(p.amount, Largest(Naming(cs, i))))
            && (v.prepaids[i].marked <==> Returned(v.prepaids[i]) == p.amount))
  {
    var p := b.prepaids[i];
    PrepaidsSynced(b, cs, now, i);
    AfterAllKeeps(p, Naming(cs, i));
    if !p.paidAt || p.marked { DoneStays(p, Naming(cs, i)); }
    if p.paidAt && p.amount > 0 && (p.marked <==> Returned(p) == p.amount) {
      forall c | c in Naming(cs, i) ensures Fits(p, c) && c.refunded > 0 { assert Consistent(b, c); }
      PrepaidJoin(p, Naming(cs, i));
    }
  }

  lemma {:induction false} TipsSynced(b: Books, cs: seq<Charge>, now: int, i: nat)
    requires i in b.tips
    ensures i in SyncedAll(b, cs, now).tips && SyncedAll(b, cs, now).tips[i] == TipAfterAll(b.tips[i], Naming(cs, i))
    decreases |cs|
  {
    if cs != [] {
      TipsSynced(Synced(b, cs[0], now), cs[1..], now, i);
      if Names(cs[0], i) { assert Naming(cs, i)[0] == cs[0] && Naming(cs, i)[1..] == Naming(cs[1..], i); }
    }
  }

  /** After any events, a tip is marked exactly when it was, or one that names it reached its amount. */
  lemma TipIsMarkedByTheLargest(b: Books, cs: seq<Charge>, now: int, i: nat)
    requires AllConsistent(b, cs) && i in b.tips
    ensures var v := SyncedAll(b, cs, now); var t := b.tips[i];
      && i in v.tips
      && v.tips[i] == t.(marked := t.marked || (Naming(cs, i) != [] && Largest(Naming(cs, i)) >= t.amount))
  {
    TipsSynced(b, cs, now, i);
    forall c | c in Naming(cs, i) ensures (c.full <==> c.refunded >= c.amount) && c.amount == b.tips[i].amount {
      assert Consistent(b, c);
    }
    TipJoin(b.tips[i], Naming(cs, i));
    LargestReturns(Naming(cs, i), b.tips[i].amount);
  }

  lemma {:induction false} DepositsSynced(b: Books, cs: seq<Charge>, now: int, i: nat)
    requires i in b.deposits
    ensures i in SyncedAll(b, cs, now).deposits
    ensures SyncedAll(b, cs, now).deposits[i] == DepositAfterAll(b.deposits[i], Naming(cs, i))
    decreases |cs|
  {
    if cs != [] {
      DepositsSynced(Synced(b, cs[0], now), cs[1..], now, i);
      if Names(cs[0], i) { assert Naming(cs, i)[0] == cs[0] && Naming(cs, i)[1..] == Naming(cs[1..], i); }
    }
  }

  /** After any events, a deposit is marked and unpaid exactly when it was, or one that names it reached its amount. */
  lemma DepositIsMarkedByTheLargest(b: Books, cs: seq<Charge>, now: int, i: nat)
    requires AllConsistent(b, cs) && i in b.deposits
    ensures var v := SyncedAll(b, cs, now); var d := b.deposits[i];
      && i in v.deposits
      && (v.deposits[i].marked <==> d.marked || (Naming(cs, i) != [] && Largest(Naming(cs, i)) >= d.amount))
      && (v.deposits[i].paid <==> d.paid && (d.marked || Naming(cs, i) == [] || Largest(Naming(cs, i)) < d.amount))
  {
    DepositsSynced(b, cs, now, i);
    forall c | c in Naming(cs, i) ensures (c.full <==> c.refunded >= c.amount) && c.amount == b.deposits[i].amount {
      assert Consistent(b, c);
    }
    DepositJoin(b.deposits[i], Naming(cs, i));
    LargestReturns(Naming(cs, i), b.deposits[i].amount);
  }

  lemma SyncedClubs(b: Books, c: Charge, now: int)
    ensures Synced(b, c, now).clubs == ClubsAfter(b.clubs, c)
  {
  }

  /** After any events, a club payment stores the largest refund of those of its invoice. */
  lemma {:induction false} ClubIsTheLargest(b: Books, cs: seq<Charge>, now: int, i: nat)
    requires i in b.clubs
    ensures var v := SyncedAll(b, cs, now); var before := if b.clubs[i].Some? then b.clubs[i].value else 0;
      && i in v.clubs
      && v.clubs[i] ==
           if b.clubs[i].None? && Billing(cs, i) == [] then None else Some(Max(before, Largest(Billing(cs, i))))
    decreases |cs|
  {
    if cs != [] {
      assert Synced(b, cs[0], now).clubs == ClubsAfter(b.clubs, cs[0]) by { SyncedClubs(b, cs[0], now); }
      ClubIsTheLargest(Synced(b, cs[0], now), cs[1..], now, i);
      if Bills(cs[0], i) { assert Billing(cs, i)[0] == cs[0] && Billing(cs, i)[1..] == Billing(cs[1..], i); }
    }
  }

  /** The intents that the full refunds of the list name. */
  function FullIntents(cs: seq<Charge>): seq<nat> {
    if cs == [] then []
    else if Revokes(cs[0]) then [cs[0].intent.value] + FullIntents(cs[1..])
    else FullIntents(cs[1..])
  }

  lemma {:induction false} RevokedAllFrame(b: Books, d: Books, intents: seq<nat>, now: int)
    requires b.purchases == d.purchases && b.featured == d.featured && b.fees == d.fees
    ensures var v := RevokedAll(b, intents, now); var u := RevokedAll(d, intents, now);
      v.purchases == u.purchases && v.featured == u.featured && v.fees == u.fees
    decreases |intents|
  {
    if intents != [] {
      RevokedFrame(b, d, intents[0], now);
      RevokedAllFrame(Revoked(b, intents[0], now), Revoked(d, intents[0], now), intents[1..], now);
    }
  }

  /** After any events, the purchases, highlights and fees are those of revoking what the full refunds name. */
  lemma {:induction false} FullRefundsRevoke(b: Books, cs: seq<Charge>, now: int)
    ensures var v := SyncedAll(b, cs, now); var u := RevokedAll(b, FullIntents(cs), now);
      v.purchases == u.purchases && v.featured == u.featured && v.fees == u.fees
    decreases |cs|
  {
    if cs != [] {
      var c := cs[0];
      FullRefundsRevoke(Synced(b, c, now), cs[1..], now);
      PurchasesOf(b, c, now);
      if Revokes(c) {
        assert FullIntents(cs)[0] == c.intent.value && FullIntents(cs)[1..] == FullIntents(cs[1..]);
        RevokedAllFrame(Synced(b, c, now), Revoked(b, c.intent.value, now), FullIntents(cs[1..]), now);
      } else {
        RevokedAllFrame(Synced(b, c, now), b, FullIntents(cs), now);
      }
    }
  }

  // ---- highlights ----

  function RevokedAll(b: Books, intents: seq<nat>, now: int): Books
    decreases |intents|
  {
    if intents == [] then b else RevokedAll(Revoked(b, intents[0], now), intents[1..], now)
  }

  /** The days the purchases of a list still add to an owner. */
  ghost function DaysOf(b: Books, intents: seq<nat>, owner: nat): map<nat, nat> {
    map i | i in b.purchases && i in intents && b.purchases[i].paid && b.purchases[i].owner == owner :: b.purchases[i].days
  }

  lemma DaysLeft(b: Books, intents: seq<nat>, owner: nat, now: int)
    requires intents != []
    ensures DaysOf(Revoked(b, intents[0], now), intents[1..], owner) == DaysOf(b, intents, owner) - {intents[0]}
  {
    assert forall i :: i in intents <==> i == intents[0] || i in intents[1..];
  }

  lemma OneShortens(b: Books, i: nat, owner: nat, now: int)
    requires owner in b.featured
    ensures owner in Revoked(b, i, now).featured
    ensures Revoked(b, i, now).featured[owner] ==
      if i in DaysOf(b, [i], owner) then Shortened(b.featured[owner], b.purchases[i].days, now) else b.featured[owner]
  {
  }

  /**
   Revoking purchases at one time, in any order and with repeats, takes the days of the ones
   still paid off the owner's highlight, once each; it never ends later than before, nor before
   now unless it already had.
   */
  lemma {:induction false} RevokedAllShortens(b: Books, intents: seq<nat>, now: int, owner: nat)
    requires owner in b.featured
    ensures var v := RevokedAll(b, intents, now);
      && owner in v.featured
      && v.featured[owner] == Shortened(b.featured[owner], Total(DaysOf(b, intents, owner)), now)
      && Min(b.featured[owner], now) <= v.featured[owner] <= b.featured[owner]
    decreases |intents|
  {
    if intents != [] {
      var i := intents[0];
      DaysLeft(b, intents, owner, now);
      OneShortens(b, i, owner, now);
      RevokedAllShortens(Revoked(b, i, now), intents[1..], now, owner);
      SplitDays(b, intents, owner, now);
    } else {
      assert DaysOf(b, intents, owner) == map[];
    }
  }

  lemma SplitDays(b: Books, intents: seq<nat>, owner: nat, now: int)
    requires intents != [] && owner in b.featured
    ensures var i := intents[0]; var all := DaysOf(b, intents, owner); var until := b.featured[owner];
      Shortened(until, Total(all), now) ==
        if i in all then Shortened(Shortened(until, b.purchases[i].days, now), Total(all - {i}), now)
        else Shortened(until, Total(all - {i}), now)
  {
    var i := intents[0];
    var all := DaysOf(b, intents, owner);
    if i in all {
      TotalWithout(all, i);
      ShortenedCommutes(b.featured[owner], b.purchases[i].days, Total(all - {i}), now);
    } else {
      assert all - {i} == all;
    }
  }

  /** A job fee is given back exactly when a purchase of the list paid it, and no other fee changes. */
  lemma {:induction false} RevokedAllFees(b: Books, intents: seq<nat>, now: int, k: nat)
    requires k in b.fees
    ensures var v := RevokedAll(b, intents, now); var f := b.fees[k];
      && k in v.fees
      && v.fees[k] ==
           if f.paid && !f.refunded && f.intent.Some? && f.intent.value in intents then JobFee(None, false, true) else f
    decreases |intents|
  {
    if intents != [] { RevokedAllFees(Revoked(b, intents[0], now), intents[1..], now, k); }
  }

  // ---- disputes ----

  /** A lost dispute reads as a refund of its charge, no smaller than the one Stripe had, with a truthful flag. */
  lemma LostChargeIsARefund(d: Dispute)
    ensures var c := LostCharge(d);
      && (c.full <==> c.refunded >= c.amount) && c.refunded <= c.amount
      && (d.amount <= c.amount ==> c.refunded >= d.amount)
      && c.refunded <= Max(d.amount, if d.charge.Some? then d.charge.value.refunded else 0)
      && c.amount == (if d.charge.Some? then d.charge.value.amount else d.amount)
      && (c.invoice.Some? <==> d.charge.Some? && d.charge.value.invoice == c.invoice && c.invoice.Some?)
      && (d.charge.Some? && d.charge.value.intent.Some? ==> c.intent == d.charge.value.intent)
      && (d.charge.None? || d.charge.value.intent.None? ==> c.intent == d.intent)
      && (d.charge.Some? && d.charge.value.refunded <= c.amount ==> c.refunded >= d.charge.value.refunded)
  {
  }

  /** Losing the whole of a deposit takes it off its appointment. */
  lemma LostDisputeTakesTheDeposit(ds: Disputes, b: Books, d: Dispute, now: int)
    requires d.standing == Lost && !Closed(ds, d.id) && LostCharge(d).intent.Some? && LostCharge(d).refunded > 0
    requires LostCharge(d).intent.value in b.deposits
    requires b.deposits[LostCharge(d).intent.value].amount == LostCharge(d).amount <= d.amount
    ensures var i := LostCharge(d).intent.value; var v := Handled(ds, b, d, now).1;
      && i in v.deposits && v.deposits[i].marked && (!b.deposits[i].marked ==> !v.deposits[i].paid)
  {
    LostChargeIsARefund(d);
    var m := Recorded(ds, b, d, now).1;
    assert m.deposits == b.deposits;
    assert Synced(m, LostCharge(d), now).deposits == DepositsAfter(m.deposits, LostCharge(d));
  }

  function RecordedAll(ds: Disputes, b: Books, events: seq<Dispute>, now: int): (r: (Disputes, Books, nat))
    decreases |events|
  {
    if events == [] then (ds, b, 0)
    else
      var (es, c, lost) := Recorded(ds, b, events[0], now);
      var (fs, d, n) := RecordedAll(es, c, events[1..], now);
      (fs, d, n + if lost then 1 else 0)
  }

  /** The event that closes the dispute, if one does. */
  function ClosingEvent(events: seq<Dispute>): Option<Dispute> {
    if events == [] then None
    else if Closing(events[0].standing) then Some(events[0])
    else ClosingEvent(events[1..])
  }

  lemma {:induction false} ClosedForGood(ds: Disputes, b: Books, events: seq<Dispute>, id: nat, now: int)
    requires Closed(ds, id) && forall d :: d in events ==> d.id == id
    ensures RecordedAll(ds, b, events, now) == (ds, b, 0)
    decreases |events|
  {
    if events != [] {
      assert events[0] in events;
      ClosedForGood(ds, b, events[1..], id, now);
    }
  }

  /**
   The events of one dispute, late and repeated ones included: it is reported lost once, and
   exactly when the first event that closes it says so; after that nothing changes it.
   */
  lemma {:induction false} LostOnce(ds: Disputes, b: Books, events: seq<Dispute>, id: nat, now: int)
    requires !Closed(ds, id) && forall d :: d in events ==> d.id == id
    ensures var (es, c, n) := RecordedAll(ds, b, events, now); var last := ClosingEvent(events);
      && n == (if last.Some? && last.value.standing == Lost then 1 else 0)
      && (last.Some? ==> Closed(es, id) && es[id] == last.value.standing)
      && c == (if last.Some? && last.value.standing == Lost && last.value.intent.Some?
               then Revoked(b, last.value.intent.value, now) else b)
    decreases |events|
  {
    if events != [] {
      assert events[0] in events;
      var d := events[0];
      var (es, c, lost) := Recorded(ds, b, d, now);
      if Closing(d.standing) {
        ClosedForGood(es, c, events[1..], id, now);
      } else {
        LostOnce(es, c, events[1..], id, now);
      }
    }
  }

  /**
   A delivery that looked at the dispute before others came, and writes after them: the loss is
   reported twice exactly when both the first closing event and this one say lost, and a closed
   dispute is open again exactly when this one does not close it. The purchase still loses its
   days once.
   */
  lemma OverlapReportsTwice(ds: Disputes, b: Books, events: seq<Dispute>, d: Dispute, now: int)
    requires !Closed(ds, d.id) && forall e :: e in events ==> e.id == d.id
    ensures var (es, c, n) := RecordedAll(ds, b, events, now); var (fs, e, lost) := Written(es, c, d, now);
      var first := ClosingEvent(events);
      && (n == 1 && lost <==> first.Some? && first.value.standing == Lost && d.standing == Lost)
      && (Closed(es, d.id) && !Closed(fs, d.id) <==> first.Some? && !Closing(d.standing))
      && (n == 1 && lost && d.intent == first.value.intent ==> e == c)
  {
    LostOnce(ds, b, events, d.id, now);
    NotClosedBefore(ds, b, events, d.id, now);
    if d.intent.Some? { RevokedOnce(b, d.intent.value, now, now); }
  }

  lemma {:induction false} NotClosedBefore(ds: Disputes, b: Books, events: seq<Dispute>, id: nat, now: int)
    requires !Closed(ds, id) && forall d :: d in events ==> d.id == id
    ensures Closed(RecordedAll(ds, b, events, now).0, id) ==> ClosingEvent(events).Some?
    decreases |events|
  {
    if events != [] {
      assert events[0] in events;
      var (es, c, _) := Recorded(ds, b, events[0], now);
      if !Closing(events[0].standing) { NotClosedBefore(es, c, events[1..], id, now); }
    }
  }

  /** A lost dispute on a charge already refunded in full takes no further days from the highlight. */
  lemma RefundedThenLost(ds: Disputes, b: Books, d: Dispute, c: Charge, now: int, later: int)
    requires d.standing == Lost && d.charge == Some(c) && c.intent == d.intent && Revokes(c)
    ensures var v := Synced(b, c, now); Handled(ds, v, d, later).1.featured == v.featured
  {
    var v := Synced(b, c, now);
    var i := c.intent.value;
    PurchasesOf(b, c, now);
    RevokedOnce(b, i, now, later);
    RevokedFrame(v, Revoked(b, i, now), i, later);
    var m := Revoked(v, i, later);
    PurchasesOf(m, LostCharge(d), later);
    RevokedOnce(v, i, later, later);
  }

  // ---- deliveries that die ----

  /** How far a delivery came: past its record, past the revocation, or to its end. */
  datatype Reach = Stored | Undone | Whole

  datatype Delivery = Delivery(dispute: Dispute, reach: Reach)

  /** handleDispute, dying at the point it reached. */
  function Delivered(ds: Disputes, b: Books, x: Delivery, now: int): (Disputes, Books) {
    var d := x.dispute;
    match x.reach
    case Stored => if Closed(ds, d.id) then (ds, b) else (ds[d.id := d.standing], b)
    case Undone => var (es, c, _) := Recorded(ds, b, d, now); (es, c)
    case Whole => Handled(ds, b, d, now)
  }

  function DeliveredAll(ds: Disputes, b: Books, xs: seq<Delivery>, now: int): (Disputes, Books)
    decreases |xs|
  {
    if xs == [] then (ds, b)
    else var (es, c) := Delivered(ds, b, xs[0], now); DeliveredAll(es, c, xs[1..], now)
  }

  /** The delivery that closes the dispute, if one does. */
  function ClosingDelivery(xs: seq<Delivery>): Option<Delivery> {
    if xs == [] then None
    else if Closing(xs[0].dispute.standing) then Some(xs[0])
    else ClosingDelivery(xs[1..])
  }

  lemma {:induction false} ClosedIsLeftAlone(ds: Disputes, b: Books, xs: seq<Delivery>, id: nat, now: int)
    requires Closed(ds, id) && forall x :: x in xs ==> x.dispute.id == id
    ensures DeliveredAll(ds, b, xs, now) == (ds, b)
    decreases |xs|
  {
    if xs != [] {
      assert xs[0] in xs;
      ClosedIsLeftAlone(ds, b, xs[1..], id, now);
    }
  }

  /**
   Over any deliveries of one dispute, dying anywhere, the first that closes it decides: the loss
   is synced as a refund exactly when that one is lost and came to its end; cut before that, no
   redelivery makes up for it.
   */
  lemma {:induction false} FirstClosingDecides(ds: Disputes, b: Books, xs: seq<Delivery>, id: nat, now: int)
    requires !Closed(ds, id) && forall x :: x in xs ==> x.dispute.id == id
    ensures var first := ClosingDelivery(xs);
      DeliveredAll(ds, b, xs, now).1 ==
        if first.None? || first.value.dispute.standing != Lost then b
        else
          var d := first.value.dispute;
          var undone := if d.intent.Some? then Revoked(b, d.intent.value, now) else b;
          match first.value.reach
          case Stored => b
          case Undone => undone
          case Whole => Synced(undone, LostCharge(d), now)
    decreases |xs|
  {
    if xs != [] {
      assert xs[0] in xs;
      var (es, c) := Delivered(ds, b, xs[0], now);
      if Closing(xs[0].dispute.standing) {
        ClosedIsLeftAlone(es, c, xs[1..], id, now);
      } else {
        FirstClosingDecides(es, c, xs[1..], id, now);
      }
    }
  }

  /** A lost deposit so stays on its appointment exactly when the closing delivery died before its end. */
  lemma CutLossKeepsTheDeposit(ds: Disputes, b: Books, xs: seq<Delivery>, id: nat, now: int)
    requires !Closed(ds, id) && forall x :: x in xs ==> x.dispute.id == id
    requires ClosingDelivery(xs).Some? && ClosingDelivery(xs).value.dispute.standing == Lost
    requires var c := LostCharge(ClosingDelivery(xs).value.dispute);
      Counts(c) && c.intent.value in b.deposits && c.refunded >= b.deposits[c.intent.value].amount
      && !b.deposits[c.intent.value].marked
    ensures var i := LostCharge(ClosingDelivery(xs).value.dispute).intent.value;
      var v := DeliveredAll(ds, b, xs, now).1;
      i in v.deposits && (v.deposits[i].marked <==> ClosingDelivery(xs).value.reach == Whole)
  {
    FirstClosingDecides(ds, b, xs, id, now);
    var d := ClosingDelivery(xs).value.dispute;
    var undone := if d.intent.Some? then Revoked(b, d.intent.value, now) else b;
    assert undone.deposits == b.deposits;
    assert Synced(undone, LostCharge(d), now).deposits == DepositsAfter(b.deposits, LostCharge(d));
  }
}
