/**
 The limit on direct e-mail: at most 1000 recipients a requester in any 24 hours
 (src/backoffice/approval.service.ts, reserveDirectEmail and releaseDirectEmail).
 */
module MailLimiter {
  import opened Prelude

  const LIMIT := 1000
  const WINDOW := 86_400_000   // 24 hours in milliseconds

  /** A row of BackofficeEmailSend. */
  datatype Send = Send(id: nat, who: string, recipients: nat, at: int)

  /** The recipients of one requester's sends created at `from` or later. */
  function CountedFrom(sends: seq<Send>, who: string, from: int): nat {
    if sends == [] then 0
    else
      var last := sends[|sends| - 1];
      CountedFrom(sends[..|sends| - 1], who, from) + if last.who == who && last.at >= from then last.recipients else 0
  }

  function SentBetween(sends: seq<Send>, who: string, from: int, to: int): nat {
    if sends == [] then 0
    else
      var last := sends[|sends| - 1];
      SentBetween(sends[..|sends| - 1], who, from, to)
      + if last.who == who && from <= last.at <= to then last.recipients else 0
  }

  predicate Fits(sends: seq<Send>, who: string, recipients: nat, since: int) {
    recipients <= LIMIT && CountedFrom(sends, who, since) + recipients <= LIMIT
  }

  function Released(sends: seq<Send>, id: nat): seq<Send> {
    if sends == [] then []
    else
      var last := sends[|sends| - 1];
      if last.id == id then Released(sends[..|sends| - 1], id) else Released(sends[..|sends| - 1], id) + [last]
  }

  /** Reserving reads the clock for the window before it takes the lock, and for the row after. */
  datatype Op = Reserve(who: string, recipients: nat, since: int, at: int) | Release(id: nat)

  function Next(sends: seq<Send>, id: nat, o: Op): seq<Send> {
    match o
    case Reserve(who, recipients, since, at) =>
      if Fits(sends, who, recipients, since) then sends + [Send(id, who, recipients, at)] else sends
    case Release(k) => Released(sends, k)
  }

  /** The sends after the operations; the n-th operation reserves under id n. */
  function After(ops: seq<Op>): seq<Send> {
    if ops == [] then [] else Next(After(ops[..|ops| - 1]), |ops| - 1, ops[|ops| - 1])
  }

  /** Each send fitted with the ones before it in the 24 hours up to it. */
  predicate Bounded(sends: seq<Send>) {
    sends == [] ||
    var last := sends[|sends| - 1];
    Bounded(sends[..|sends| - 1]) && CountedFrom(sends, last.who, last.at - WINDOW) <= LIMIT
  }

  // ---- proofs ----

  lemma Appended(sends: seq<Send>, row: Send, who: string, from: int, to: int)
    ensures CountedFrom(sends + [row], who, from) ==
      CountedFrom(sends, who, from) + if row.who == who && row.at >= from then row.recipients else 0
    ensures SentBetween(sends + [row], who, from, to) ==
      SentBetween(sends, who, from, to) + if row.who == who && from <= row.at <= to then row.recipients else 0
    ensures Bounded(sends + [row]) <==> Bounded(sends) && CountedFrom(sends + [row], row.who, row.at - WINDOW) <= LIMIT
  {
    assert (sends + [row])[..|sends|] == sends;
  }

  lemma {:induction false} LaterStartCountsLess(sends: seq<Send>, who: string, from: int, later: int)
    requires from <= later
    ensures CountedFrom(sends, who, later) <= CountedFrom(sends, who, from)
  {
    if sends != [] { LaterStartCountsLess(sends[..|sends| - 1], who, from, later); }
  }

  lemma {:induction false} BetweenIsCounted(sends: seq<Send>, who: string, from: int, to: int, start: int)
    requires start <= from
    ensures SentBetween(sends, who, from, to) <= CountedFrom(sends, who, start)
  {
    if sends != [] { BetweenIsCounted(sends[..|sends| - 1], who, from, to, start); }
  }

  lemma {:induction false} ReleasedCountsLess(sends: seq<Send>, id: nat, who: string, from: int)
    ensures CountedFrom(Released(sends, id), who, from) <= CountedFrom(sends, who, from)
  {
    if sends != [] {
      var init := sends[..|sends| - 1];
      var last := sends[|sends| - 1];
      ReleasedCountsLess(init, id, who, from);
      if last.id != id { Appended(Released(init, id), last, who, from, from); }
    }
  }

  lemma {:induction false} ReleasedKeepsBounded(sends: seq<Send>, id: nat)
    requires Bounded(sends)
    ensures Bounded(Released(sends, id))
  {
    if sends != [] {
      var init := sends[..|sends| - 1];
      var last := sends[|sends| - 1];
      ReleasedKeepsBounded(init, id);
      if last.id != id {
        ReleasedCountsLess(init, id, last.who, last.at - WINDOW);
        Appended(Released(init, id), last, last.who, last.at - WINDOW, last.at);
      }
    }
  }

  lemma ReserveKeepsBounded(sends: seq<Send>, row: Send, since: int)
    requires Bounded(sends) && since <= row.at - WINDOW && Fits(sends, row.who, row.recipients, since)
    ensures Bounded(sends + [row])
  {
    assert (sends + [row])[..|sends|] == sends;
    LaterStartCountsLess(sends, row.who, since, row.at - WINDOW);
  }

  predicate ClocksAgree(ops: seq<Op>) {
    forall o :: o in ops ==> o.Reserve? ==> o.since <= o.at - WINDOW
  }

  lemma {:induction false} AfterIsBounded(ops: seq<Op>)
    requires ClocksAgree(ops)
    ensures Bounded(After(ops))
  {
    if ops != [] {
      var init := ops[..|ops| - 1];
      var o := ops[|ops| - 1];
      assert o in ops && forall p :: p in init ==> p in ops;
      AfterIsBounded(init);
      match o
      case Reserve(who, recipients, since, at) =>
        if Fits(After(init), who, recipients, since) {
          ReserveKeepsBounded(After(init), Send(|ops| - 1, who, recipients, at), since);
        }
      case Release(id) => ReleasedKeepsBounded(After(init), id);
    }
  }

  lemma {:induction false} BoundedWindows(sends: seq<Send>, who: string, from: int)
    requires Bounded(sends)
    ensures SentBetween(sends, who, from, from + WINDOW) <= LIMIT
  {
    if sends != [] {
      var last := sends[|sends| - 1];
      if last.who == who && from <= last.at <= from + WINDOW {
        BetweenIsCounted(sends, who, from, from + WINDOW, last.at - WINDOW);
      } else {
        BoundedWindows(sends[..|sends| - 1], who, from);
      }
    }
  }

  /**
   Whatever reservations and releases came before, in any 24 hours the direct sends a requester
   still has on record go to at most 1000 people. All it takes is that each counted window began
   no later than 24 hours before its row; the rows need not be in time order.
   */
  lemma WindowBound(ops: seq<Op>, who: string, from: int)
    requires ClocksAgree(ops)
    ensures SentBetween(After(ops), who, from, from + WINDOW) <= LIMIT
  {
    AfterIsBounded(ops);
    BoundedWindows(After(ops), who, from);
  }

  /** With a row dated before the end of its own counted window, the bound is lost. */
  lemma LateWindowBreaksTheBound(who: string)
    ensures var ops := [Reserve(who, LIMIT, -WINDOW, 0), Reserve(who, LIMIT, 1, WINDOW)];
      SentBetween(After(ops), who, 0, WINDOW) > LIMIT
  {
    var first := Reserve(who, LIMIT, -WINDOW, 0);
    var second := Reserve(who, LIMIT, 1, WINDOW);
    var a := Send(0, who, LIMIT, 0);
    var b := Send(1, who, LIMIT, WINDOW);
    assert [first, second][..1] == [first] && [first][..0] == [];
    assert CountedFrom([], who, -WINDOW) == 0 && SentBetween([], who, 0, WINDOW) == 0;
    assert After([]) == [] && [] + [a] == [a] && [a] + [b] == [a, b];
    assert After([first]) == [a];
    Appended([], a, who, 1, WINDOW);
    Appended([], a, who, 0, WINDOW);
    assert CountedFrom([], who, 1) == 0;
    assert After([first, second]) == [a, b];
    Appended([a], b, who, 0, WINDOW);
  }

  // ---- exactly what fits, and what a release leaves ----

  lemma {:induction false} CountedIsSent(sends: seq<Send>, who: string, from: int, to: int)
    requires forall s :: s in sends ==> s.at <= to
    ensures CountedFrom(sends, who, from) == SentBetween(sends, who, from, to)
    decreases |sends|
  {
    if sends != [] {
      assert sends[|sends| - 1] in sends;
      CountedIsSent(sends[..|sends| - 1], who, from, to);
    }
  }

  /** A send fits exactly when with it the requester's last 24 hours stay within the limit. */
  lemma FitsExactly(sends: seq<Send>, row: Send)
    requires forall s :: s in sends ==> s.at <= row.at
    ensures Fits(sends, row.who, row.recipients, row.at - WINDOW) <==>
      SentBetween(sends + [row], row.who, row.at - WINDOW, row.at) <= LIMIT
  {
    CountedIsSent(sends, row.who, row.at - WINDOW, row.at);
    Appended(sends, row, row.who, row.at - WINDOW, row.at);
  }

  /** A release takes away the notes of its id and no other. */
  lemma {:induction false} ReleasedIsTheRest(sends: seq<Send>, id: nat, s: Send)
    ensures multiset(Released(sends, id))[s] == if s.id == id then 0 else multiset(sends)[s]
    decreases |sends|
  {
    if sends != [] {
      ReleasedIsTheRest(sends[..|sends| - 1], id, s);
      assert sends == sends[..|sends| - 1] + [sends[|sends| - 1]];
    }
  }

  /** The notes' ids come from a sequence. */
  predicate Numbered(sends: seq<Send>, next: nat) {
    forall i :: 0 <= i < |sends| ==> sends[i].id < next
  }

  lemma {:induction false} ReleasedIsNumbered(sends: seq<Send>, id: nat, next: nat)
    requires Numbered(sends, next)
    ensures Numbered(Released(sends, id), next)
    decreases |sends|
  {
    if sends != [] { ReleasedIsNumbered(sends[..|sends| - 1], id, next); }
  }

  lemma {:induction false} ReleasedOfOthers(sends: seq<Send>, id: nat)
    requires forall s :: s in sends ==> s.id != id
    ensures Released(sends, id) == sends
    decreases |sends|
  {
    if sends != [] {
      assert sends[|sends| - 1] in sends;
      ReleasedOfOthers(sends[..|sends| - 1], id);
      assert sends == sends[..|sends| - 1] + [sends[|sends| - 1]];
    }
  }

  /** Releasing a note just made leaves the others as they were. */
  lemma ReserveThenRelease(sends: seq<Send>, row: Send)
    requires forall s :: s in sends ==> s.id != row.id
    ensures Released(sends + [row], row.id) == sends
  {
    assert (sends + [row])[..|sends|] == sends;
    ReleasedOfOthers(sends, row.id);
  }

  class DirectEmail {
    var sends: seq<Send>
    var next: nat

    constructor ()
      ensures sends == [] && Bounded(sends) && Numbered(sends, next)
    {
      sends, next := [], 0;
    }

    /** reserveDirectEmail (117-132): the id of the note, or nothing when a confirmation is needed. */
    method Reserve(who: string, recipients: nat, since: int, at: int) returns (id: Option<nat>)
      requires Bounded(sends) && Numbered(sends, next)
      modifies this
      ensures Numbered(sends, next) && (id.Some? ==> Numbered(old(sends), id.value))
      ensures id.Some? <==> Fits(old(sends), who, recipients, since)
      ensures sends == if id.Some? then old(sends) + [Send(id.value, who, recipients, at)] else old(sends)
      ensures since <= at - WINDOW ==> Bounded(sends)
    {
      if recipients > LIMIT { return None; }
      var sum := 0;
      for i := 0 to |sends|
        invariant sum == CountedFrom(sends[..i], who, since)
      {
        assert sends[..i + 1][..i] == sends[..i];
        if sends[i].who == who && sends[i].at >= since { sum := sum + sends[i].recipients; }
      }
      assert sends[..|sends|] == sends;
      if sum + recipients > LIMIT { return None; }
      if since <= at - WINDOW { ReserveKeepsBounded(sends, Send(next, who, recipients, at), since); }
      sends := sends + [Send(next, who, recipients, at)];
      id := Some(next);
      next := next + 1;
    }

    /** releaseDirectEmail (135-137). */
    method Release(id: nat)
      requires Bounded(sends) && Numbered(sends, next)
      modifies this`sends
      ensures sends == Released(old(sends), id) && Bounded(sends) && Numbered(sends, next)
    {
      ReleasedIsNumbered(sends, id, next);
      ReleasedKeepsBounded(sends, id);
      var kept: seq<Send> := [];
      for i := 0 to |sends|
        invariant kept == Released(sends[..i], id)
      {
        assert sends[..i + 1][..i] == sends[..i];
        if sends[i].id != id { kept := kept + [sends[i]]; }
      }
      assert sends[..|sends|] == sends;
      sends := kept;
    }
  }
}
