/**
 Closing days of a unit: the days of a closure, the appointments it catches, and the closing
 itself, composed with the deposit service (src/barbershop/closure.service.ts).
 */
module Closures {
  import opened Prelude
  import opened DepositProtocol
  import opened DepositSafety
  import opened DepositService

  // ---- the input: dates are day numbers, times are minutes of the day ----

  const MAX_DAYS := 60

  datatype Field = Absent | Malformed | Given(value: int)

  datatype Input = Input(date: Field, endDate: Field, openTime: Field, closeTime: Field)

  datatype Hours = AllDay | Special(open: int, close: int)

  datatype Plan = Plan(dates: seq<int>, hours: Hours)

  datatype Problem = BadDate | PastDate | BadEndDate | TooManyDays | HalfGivenHours | BadHours

  function LastDay(input: Input): Field {
    if input.endDate.Absent? then input.date else input.endDate
  }

  predicate DatesOk(input: Input, today: int) {
    && input.date.Given? && input.date.value >= today
    && LastDay(input).Given? && LastDay(input).value >= input.date.value
  }

  predicate HoursOk(input: Input) {
    if input.openTime.Absent? then input.closeTime.Absent?
    else input.openTime.Given? && input.closeTime.Given? && input.openTime.value < input.closeTime.value
  }

  /** parse (81-111): the days one by one, at most MAX_DAYS of them. */
  method Parse(input: Input, today: int) returns (r: Result<Plan, Problem>)
    ensures r.Ok? <==>
      DatesOk(input, today) && LastDay(input).value - input.date.value < MAX_DAYS && HoursOk(input)
    ensures r.Ok? ==>
      && |r.value.dates| == LastDay(input).value - input.date.value + 1
      && (forall k :: 0 <= k < |r.value.dates| ==> r.value.dates[k] == input.date.value + k)
      && (r.value.hours == AllDay <==> input.openTime.Absent?)
      && (r.value.hours.Special? ==>
            r.value.hours == Special(input.openTime.value, input.closeTime.value))
    ensures r == Err(TooManyDays) <==>
      DatesOk(input, today) && LastDay(input).value - input.date.value >= MAX_DAYS
    ensures r == Err(BadDate) <==> !input.date.Given?
    ensures r == Err(PastDate) <==> input.date.Given? && input.date.value < today
    ensures r == Err(BadEndDate) <==>
      && input.date.Given? && input.date.value >= today
      && (!LastDay(input).Given? || LastDay(input).value < input.date.value)
    ensures r == Err(HalfGivenHours) <==>
      && DatesOk(input, today) && LastDay(input).value - input.date.value < MAX_DAYS
      && input.openTime.Absent? != input.closeTime.Absent?
    ensures r == Err(BadHours) <==>
      && DatesOk(input, today) && LastDay(input).value - input.date.value < MAX_DAYS
      && !input.openTime.Absent? && !input.closeTime.Absent? && !HoursOk(input)
  {
    if !input.date.Given? { return Err(BadDate); }
    if input.date.value < today { return Err(PastDate); }
    var end := LastDay(input);
    if !end.Given? || end.value < input.date.value { return Err(BadEndDate); }
    var dates: seq<int> := [];
    var d := input.date.value;
    while d <= end.value
      invariant |dates| <= MAX_DAYS && d == input.date.value + |dates| <= end.value + 1
      invariant forall k :: 0 <= k < |dates| ==> dates[k] == input.date.value + k
    {
      dates := dates + [d];
      if |dates| > MAX_DAYS { return Err(TooManyDays); }
      d := d + 1;
    }
    if input.openTime.Absent? != input.closeTime.Absent? { return Err(HalfGivenHours); }
    if input.openTime.Absent? { return Ok(Plan(dates, AllDay)); }
    if !input.openTime.Given? || !input.closeTime.Given? || input.openTime.value >= input.closeTime.value {
      return Err(BadHours);
    }
    return Ok(Plan(dates, Special(input.openTime.value, input.closeTime.value)));
  }

  // ---- which appointments a closure catches ----

  datatype LocalTime = LocalTime(day: int, minutes: int)

  /** closureAffectsAppointment (39-54); `zone` is the unit's clock. */
  predicate Affects(r: Appt, now: int, zone: int -> LocalTime, hours: Hours) {
    if r.status == Confirmed && r.startAt < now then false
    else
      match hours
      case AllDay => true
      case Special(open, close) =>
        var start := zone(r.startAt);
        var end := zone(r.endAt);
        start.minutes < open || (if end.day == start.day then end.minutes else 24 * 60) > close
  }

  /** The closed days, as instants: from the start of the first to the end of the last. */
  datatype Window = Window(from: int, to: int, now: int, zone: int -> LocalTime, hours: Hours)

  predicate Caught(r: Appt, c: Window) {
    c.from <= r.startAt < c.to && Affects(r, c.now, c.zone, c.hours)
  }

  ghost function Held(w: World, c: Window): set<Id> {
    set a | a in w.appts && Live(w, a) && w.appts[a].status == PendingPayment && Caught(w.appts[a], c)
  }

  ghost function Affected(w: World, c: Window): set<Id> {
    set a | a in w.appts && Live(w, a) && w.appts[a].status == Confirmed && Caught(w.appts[a], c)
  }

  // ---- cancelling what is left ----

  /** One appointment of the closed window: cancelled and its deposit sent back, unless its sale is closed. */
  function ClosedOut(v: World, a: Id): World
    requires v.procs == map[] && Live(v, a)
  {
    var r := v.appts[a];
    if r.status == Confirmed && !r.sale then
      GivenBack(OutsideNext(v, StaffSet(a, Cancelled, r.holdUntil, 1)), a, true)
    else v
  }

  /** Where the closing leaves a confirmed appointment of w it caught. */
  ghost predicate Dropped(w: World, v: World, a: Id) {
    && a in w.appts && a in v.appts
    && if w.appts[a].sale then v.appts[a] == w.appts[a]
       else
         && v.appts[a].status == Cancelled && v.appts[a].linkVersion == w.appts[a].linkVersion + 1
         && (w.appts[a].intent.Some? && Applied(w, w.appts[a].intent.value) ==>
               v.appts[a].refundedAt && w.appts[a].intent.value in v.refunds)
  }

  ghost predicate Cancelling(w: World, v: World, all: set<Id>, rest: set<Id>) {
    && Inv(v) && v.procs == map[] && rest <= all <= w.appts.Keys
    && v.appts.Keys == w.appts.Keys && v.gone == w.gone && v.intents == w.intents
    && (forall i :: i in w.refunds ==> i in v.refunds)
    && (forall a :: a in all ==> Live(w, a) && w.appts[a].status == Confirmed)
    && (forall a :: a in w.appts && (a !in all || a in rest) ==> v.appts[a] == w.appts[a])
    && (forall a :: a in all && a !in rest ==> Dropped(w, v, a))
  }

  lemma ClosedOutSafe(v: World, a: Id)
    requires Inv(v) && v.procs == map[] && Live(v, a)
    ensures Inv(ClosedOut(v, a)) && ClosedOut(v, a).procs == map[]
  {
    var r := v.appts[a];
    if r.status == Confirmed && !r.sale {
      OutsideKeeps(v, StaffSet(a, Cancelled, r.holdUntil, 1));
      GivenBackIsSafe(OutsideNext(v, StaffSet(a, Cancelled, r.holdUntil, 1)), a, true);
    }
  }

  lemma ClosedOutForm(v: World, a: Id)
    requires Inv(v) && v.procs == map[] && Live(v, a) && v.appts[a].status == Confirmed
    ensures var u := ClosedOut(v, a);
      && u.appts.Keys == v.appts.Keys && u.gone == v.gone && u.intents == v.intents
      && (forall b :: b in v.appts && b != a ==> u.appts[b] == v.appts[b])
      && (forall i :: i in v.refunds ==> i in u.refunds)
      && Dropped(v, u, a)
  {
    var r := v.appts[a];
    if !r.sale {
      var m := OutsideNext(v, StaffSet(a, Cancelled, r.holdUntil, 1));
      OutsideKeeps(v, StaffSet(a, Cancelled, r.holdUntil, 1));
      GivenBackForm(m, a, true);
      RowFacts(v, a);
      if r.intent.Some? { Facts(m, r.intent.value, 0); }
    }
  }

  /** Dropping a row reads only that row, its intent and the refunds. */
  lemma DroppedAgrees(w: World, v: World, u: World, a: Id)
    requires Inv(w) && a in w.appts && a in v.appts && v.appts[a] == w.appts[a]
    requires v.intents == w.intents && v.gone == w.gone && Dropped(v, u, a)
    ensures Dropped(w, u, a)
  {
    RowFacts(w, a);
  }

  lemma CancelOne(w: World, v: World, all: set<Id>, rest: set<Id>, a: Id)
    requires Inv(w) && Cancelling(w, v, all, rest) && a in rest
    ensures Cancelling(w, ClosedOut(v, a), all, rest - {a})
  {
    ClosedOutSafe(v, a);
    ClosedOutForm(v, a);
    var u := ClosedOut(v, a);
    forall b | b in all && b !in rest - {a} ensures Dropped(w, u, b) {
      if b == a { DroppedAgrees(w, v, u, a); } else { assert Dropped(w, v, b) && u.appts[b] == v.appts[b]; }
    }
  }

  /** A deposit hold of w that the card had paid when the unit closed. */
  ghost predicate PaidHold(w: World, a: Id) {
    && Live(w, a) && w.appts[a].status == PendingPayment
    && w.appts[a].intent.Some? && Captured(w, w.appts[a].intent.value)
  }

  /** After the first phase a hold is over, and a paid one is on the second phase's list unless it began. */
  lemma HoldAfterFirstPhase(w: World, v: World, c: Window, a: Id)
    requires Inv(w) && Expiring(w, v, Held(w, c), {}, true) && a in Held(w, c)
    ensures Live(v, a) && v.appts[a].status != PendingPayment
    ensures PaidHold(w, a) ==>
      && v.appts[a].intent == w.appts[a].intent && Applied(v, w.appts[a].intent.value)
      && v.appts[a].sale == w.appts[a].sale && (a in Affected(v, c) <==> w.appts[a].startAt >= c.now)
    ensures !PaidHold(w, a) ==> v.appts[a].status == Cancelled
  {
    assert EndedAsPaidOrFreed(w, v, a);
    RowFacts(w, a);
  }

  lemma RowAfterFirstPhase(w: World, v: World, c: Window, a: Id)
    requires Expiring(w, v, Held(w, c), {}, true) && a in w.appts && a !in Held(w, c)
    ensures v.appts[a] == w.appts[a] && (a in Affected(v, c) <==> a in Affected(w, c)) && a !in Held(v, c)
  {
  }

  lemma HoldsOver(w: World, v: World, c: Window)
    requires Inv(w) && Expiring(w, v, Held(w, c), {}, true)
    ensures Held(v, c) == {}
  {
    forall a | a in v.appts ensures a !in Held(v, c) {
      if a in Held(w, c) { HoldAfterFirstPhase(w, v, c, a); } else { RowAfterFirstPhase(w, v, c, a); }
    }
  }

  lemma NothingLeft(v: World, u: World, c: Window)
    requires Held(v, c) == {} && Cancelling(v, u, Affected(v, c), {})
    ensures Held(u, c) == {}
    ensures forall a :: a in Affected(u, c) ==> u.appts[a].sale
  {
    forall a | a in u.appts ensures a !in Held(u, c) && (a in Affected(u, c) ==> u.appts[a].sale) {
      assert a !in Held(v, c);
      if a in Affected(v, c) { assert Dropped(v, u, a); } else { assert u.appts[a] == v.appts[a]; }
    }
  }

  /** What the second phase does to a row, on its list or not. */
  lemma SecondPhaseRow(v: World, u: World, c: Window, a: Id)
    requires Cancelling(v, u, Affected(v, c), {}) && a in v.appts
    ensures u.intents == v.intents && u.gone == v.gone && a in u.appts
    ensures if a in Affected(v, c) then Dropped(v, u, a) else u.appts[a] == v.appts[a]
  {
  }

  /**
   The order of the two phases matters: settling the holds first turns a paid hold into a
   confirmed appointment, which the affected list computed afterwards catches. A paid hold
   that has begun is kept, with its deposit.
   */
  lemma ClosingEndsHolds(w: World, v: World, u: World, c: Window, a: Id)
    requires Inv(w) && Expiring(w, v, Held(w, c), {}, true) && a in Held(w, c)
    requires Inv(v) && Cancelling(v, u, Affected(v, c), {})
    ensures PaidHold(w, a) && w.appts[a].startAt >= c.now && !w.appts[a].sale ==>
      u.appts[a].status == Cancelled && w.appts[a].intent.value in u.refunds
    ensures PaidHold(w, a) && (w.appts[a].startAt < c.now || w.appts[a].sale) ==> Applied(u, w.appts[a].intent.value)
    ensures !PaidHold(w, a) ==> u.appts[a].status == Cancelled
  {
    HoldAfterFirstPhase(w, v, c, a);
    SecondPhaseRow(v, u, c, a);
    RowFacts(v, a);
  }

  /**
   The confirmed appointments the closed days catch are cancelled unless sold, and an applied
   deposit goes back; every other row stays.
   */
  lemma ClosingEndsOthers(w: World, v: World, u: World, c: Window, a: Id)
    requires Inv(w) && Expiring(w, v, Held(w, c), {}, true) && a in w.appts && a !in Held(w, c)
    requires Cancelling(v, u, Affected(v, c), {})
    ensures a in Affected(w, c) && !w.appts[a].sale ==>
      && u.appts[a].status == Cancelled && u.appts[a].linkVersion == w.appts[a].linkVersion + 1
      && (w.appts[a].intent.Some? && Applied(w, w.appts[a].intent.value) ==>
            u.appts[a].refundedAt && w.appts[a].intent.value in u.refunds)
    ensures a !in Affected(w, c) || w.appts[a].sale ==> u.appts[a] == w.appts[a]
  {
    RowAfterFirstPhase(w, v, c, a);
    SecondPhaseRow(v, u, c, a);
    RowFacts(w, a);
  }

  /** The rows a closing cancels, as they are before it: confirmed ones it catches, and holds found paid before they begin. */
  ghost function ToCancel(w: World, c: Window): set<Id> {
    set a | a in w.appts && !w.appts[a].sale
            && (a in Affected(w, c) || (a in Held(w, c) && PaidHold(w, a) && w.appts[a].startAt >= c.now))
  }

  ghost function Unsold(w: World, all: set<Id>): set<Id> {
    set a | a in all && a in w.appts && !w.appts[a].sale
  }

  lemma OneMoreUnsold(w: World, all: set<Id>, rest: set<Id>, a: Id)
    requires a in rest && rest <= all <= w.appts.Keys
    ensures Unsold(w, all - (rest - {a})) == Unsold(w, all - rest) + if w.appts[a].sale then {} else {a}
  {
  }

  lemma CancelledAre(w: World, v: World, c: Window)
    requires Inv(w) && Expiring(w, v, Held(w, c), {}, true)
    ensures ToCancel(w, c) == Unsold(v, Affected(v, c))
  {
    forall a | a in w.appts ensures a in ToCancel(w, c) <==> a in Unsold(v, Affected(v, c)) {
      if a in Held(w, c) { HoldAfterFirstPhase(w, v, c, a); } else { RowAfterFirstPhase(w, v, c, a); }
    }
  }

  // ---- what the closed days and hours catch ----

  /** The window is the closed days: from the start of the first to the end of the last, one after the other. */
  lemma WindowIsTheClosedDays(plan: Plan, now: int, zone: int -> LocalTime, dayStart: int -> int, t: int)
    requires |plan.dates| > 0 && forall k :: 0 <= k < |plan.dates| ==> plan.dates[k] == plan.dates[0] + k
    requires forall d, e :: d < e ==> dayStart(d) < dayStart(e)
    ensures var c := ClosedWindow(plan, now, zone, dayStart);
      c.from <= t < c.to <==> exists d :: d in plan.dates && dayStart(d) <= t < dayStart(d + 1)
  {
    var c := ClosedWindow(plan, now, zone, dayStart);
    if c.from <= t < c.to {
      var k := 0;
      while k + 1 < |plan.dates| && dayStart(plan.dates[k] + 1) <= t
        invariant 0 <= k < |plan.dates| && dayStart(plan.dates[k]) <= t
      {
        assert plan.dates[k + 1] == plan.dates[k] + 1;
        k := k + 1;
      }
      assert plan.dates[k] in plan.dates;
    }
    forall d | d in plan.dates && dayStart(d) <= t < dayStart(d + 1) ensures c.from <= t < c.to {
      var last := plan.dates[|plan.dates| - 1];
      assert plan.dates[0] <= d <= last;
      assert d == plan.dates[0] || dayStart(plan.dates[0]) < dayStart(d);
      assert d == last || dayStart(d + 1) < dayStart(last + 1);
    }
  }

  /** The minute of its first day an appointment ends, midnight if it goes on. */
  function EndsAt(r: Appt, zone: int -> LocalTime): int {
    if zone(r.endAt).day == zone(r.startAt).day then zone(r.endAt).minutes else 24 * 60
  }

  predicate Outside(m: int, open: int, close: int) {
    m < open || m >= close
  }

  /** Special hours catch what takes any minute outside them, closing all day everything; nothing confirmed that began. */
  lemma ClosedHoursCatch(r: Appt, now: int, zone: int -> LocalTime, open: int, close: int)
    requires open < close && zone(r.startAt).minutes < EndsAt(r, zone)
    ensures Affects(r, now, zone, AllDay) <==> !(r.status == Confirmed && r.startAt < now)
    ensures Affects(r, now, zone, Special(open, close)) <==>
      && !(r.status == Confirmed && r.startAt < now)
      && exists m :: zone(r.startAt).minutes <= m < EndsAt(r, zone) && Outside(m, open, close)
  {
    var from, to := zone(r.startAt).minutes, EndsAt(r, zone);
    if from < open { assert Outside(from, open, close); }
    if to > close { assert Outside(if from < close then close else from, open, close); }
  }

  // ---- what a closing leaves ----

  /** The closed days without cancelling: the holds they catch are over, every other row is as it was. */
  ghost predicate RowsHeldOver(w: World, v: World, c: Window) {
    && (forall a :: a in w.appts && a !in Held(w, c) ==> a in v.appts && v.appts[a] == w.appts[a])
    && (forall a :: a in Held(w, c) ==> EndedAsPaidOrFreed(w, v, a))
  }

  /** A row that has to be cancelled, with its deposit sent back if it was applied or found paid. */
  ghost predicate EndsCancelled(w: World, u: World, a: Id) {
    && a in w.appts && a in u.appts && u.appts[a].status == Cancelled
    && (PaidHold(w, a) || (w.appts[a].intent.Some? && Applied(w, w.appts[a].intent.value)) ==>
          w.appts[a].intent.value in u.refunds)
  }

  /** With cancelling: those to cancel are, unpaid holds are freed, the other paid ones keep the deposit, the rest stays. */
  ghost predicate RowsClosed(w: World, u: World, c: Window) {
    && (forall a :: a in ToCancel(w, c) ==> EndsCancelled(w, u, a))
    && (forall a :: a in w.appts && a !in Held(w, c) && a !in ToCancel(w, c) ==> a in u.appts && u.appts[a] == w.appts[a])
    && (forall a :: a in Held(w, c) && a !in ToCancel(w, c) ==>
          a in u.appts && if PaidHold(w, a) then Applied(u, w.appts[a].intent.value) else u.appts[a].status == Cancelled)
  }

  lemma RowsAreClosed(w: World, v: World, u: World, c: Window)
    requires Inv(w) && Inv(v) && Expiring(w, v, Held(w, c), {}, true) && Cancelling(v, u, Affected(v, c), {})
    ensures RowsClosed(w, u, c)
  {
    forall a | a in w.appts && a in Held(w, c)
      ensures a in u.appts
      ensures if a in ToCancel(w, c) then EndsCancelled(w, u, a)
              else if PaidHold(w, a) then Applied(u, w.appts[a].intent.value) else u.appts[a].status == Cancelled
    {
      ClosingEndsHolds(w, v, u, c, a);
    }
    forall a | a in w.appts && a !in Held(w, c)
      ensures a in u.appts
      ensures if a in ToCancel(w, c) then EndsCancelled(w, u, a) else u.appts[a] == w.appts[a]
    {
      ClosingEndsOthers(w, v, u, c, a);
    }
  }

  // ---- the service ----

  datatype Closure = Closure(hours: Hours, reason: string)

  class ClosureService {
    const deposits: DepositPaymentService
    var closures: map<int, Closure>

    constructor (deposits: DepositPaymentService)
      ensures this.deposits == deposits && closures == map[]
    {
      this.deposits := deposits;
      closures := map[];
    }

    /** set (216-289) with Stripe answering; `dayStart` gives the instant a local day begins. */
    method Set(input: Input, reason: string, today: int, now: int, zone: int -> LocalTime, dayStart: int -> int,
               cancelAffected: bool, races: Id -> Race)
      returns (r: Result<Plan, Problem>, cancelled: set<Id>)
      requires deposits.Valid()
      modifies this, deposits
      ensures deposits.Valid()
      ensures r.Err? ==> closures == old(closures) && deposits.Now() == old(deposits.Now())
      ensures r.Ok? ==> |r.value.dates| > 0
      ensures r.Ok? ==> forall d :: d in closures <==> d in old(closures) || d in r.value.dates
      ensures r.Ok? ==> forall d :: d in closures ==>
        closures[d] == if d in r.value.dates then Closure(r.value.hours, reason) else old(closures)[d]
      ensures r.Ok? ==> Held(deposits.Now(), ClosedWindow(r.value, now, zone, dayStart)) == {}
      ensures r.Ok? && cancelAffected ==>
        forall a :: a in Affected(deposits.Now(), ClosedWindow(r.value, now, zone, dayStart)) ==> deposits.appts[a].sale
      ensures r.Ok? ==>
        var w := old(deposits.Now()); var c := ClosedWindow(r.value, now, zone, dayStart);
        if cancelAffected then RowsClosed(w, deposits.Now(), c) else RowsHeldOver(w, deposits.Now(), c)
      ensures cancelled ==
        if r.Ok? && cancelAffected then ToCancel(old(deposits.Now()), ClosedWindow(r.value, now, zone, dayStart)) else {}
    {
      r := Parse(input, today);
      cancelled := {};
      if r.Err? { return; }
      ghost var w := deposits.Now();
      var c := ClosedWindow(r.value, now, zone, dayStart);
      UpsertDays(r.value, reason);
      SettleHolds(c, races);
      ghost var v := deposits.Now();
      HoldsOver(w, v, c);
      if !cancelAffected { return; }
      CancelledAre(w, v, c);
      cancelled := CancelAffected(c);
      ghost var u := deposits.Now();
      NothingLeft(v, u, c);
      RowsAreClosed(w, v, u, c);
    }

    /** First phase (243-248): the holds of the closed days, one after the other. */
    method SettleHolds(c: Window, races: Id -> Race)
      requires deposits.Valid()
      modifies deposits
      ensures deposits.Valid()
      ensures Expiring(old(deposits.Now()), deposits.Now(), Held(old(deposits.Now()), c), {}, true)
    {
      ghost var w := deposits.Now();
      ghost var held := Held(w, c);
      var holds := set a | a in deposits.appts && a !in deposits.gone
                           && deposits.appts[a].status == PendingPayment && Caught(deposits.appts[a], c);
      assert holds == held;
      while holds != {}
        invariant deposits.Valid() && Expiring(w, deposits.Now(), held, holds, true)
        decreases |holds|
      {
        var a :| a in holds;
        ExpireOne(w, deposits.Now(), held, holds, a, true, races(a));
        var _ := deposits.ReleaseUnpaidHold(a, true, races(a));
        holds := holds - {a};
      }
    }

    /** Second phase (249-279): the confirmed appointments the closed days catch now, and those it cancelled. */
    method CancelAffected(c: Window) returns (cancelled: set<Id>)
      requires deposits.Valid()
      modifies deposits
      ensures deposits.Valid()
      ensures cancelled == Unsold(old(deposits.Now()), Affected(old(deposits.Now()), c))
      ensures Cancelling(old(deposits.Now()), deposits.Now(), Affected(old(deposits.Now()), c), {})
    {
      ghost var v := deposits.Now();
      ghost var all := Affected(v, c);
      var affected := set a | a in deposits.appts && a !in deposits.gone
                              && deposits.appts[a].status == Confirmed && Caught(deposits.appts[a], c);
      assert affected == all;
      cancelled := {};
      while affected != {}
        invariant deposits.Valid() && Cancelling(v, deposits.Now(), all, affected)
        invariant cancelled == Unsold(v, all - affected)
        decreases |affected|
      {
        var a :| a in affected;
        CancelOne(v, deposits.Now(), all, affected, a);
        var done := CancelAndRefund(a);
        if done { cancelled := cancelled + {a}; }
        OneMoreUnsold(v, all, affected, a);
        affected := affected - {a};
      }
    }

    method UpsertDays(plan: Plan, reason: string)
      modifies this`closures
      ensures forall d :: d in closures <==> d in old(closures) || d in plan.dates
      ensures forall d :: d in closures ==>
        closures[d] == if d in plan.dates then Closure(plan.hours, reason) else old(closures)[d]
    {
      for k := 0 to |plan.dates|
        invariant forall d :: d in closures <==> d in old(closures) || d in plan.dates[..k]
        invariant forall d :: d in closures ==>
          closures[d] == if d in plan.dates[..k] then Closure(plan.hours, reason) else old(closures)[d]
      {
        closures := closures[plan.dates[k] := Closure(plan.hours, reason)];
        assert plan.dates[..k + 1] == plan.dates[..k] + [plan.dates[k]];
      }
      assert plan.dates[..|plan.dates|] == plan.dates;
    }

    /** The conditional cancel of one appointment and its deposit's way back (254-268). */
    method CancelAndRefund(a: Id) returns (done: bool)
      requires deposits.Valid() && Live(deposits.Now(), a)
      modifies deposits
      ensures deposits.Valid() && deposits.Now() == ClosedOut(old(deposits.Now()), a)
      ensures done <==> old(deposits.appts)[a].status == Confirmed && !old(deposits.appts)[a].sale
    {
      ghost var v := deposits.Now();
      ClosedOutSafe(v, a);
      var row := deposits.appts[a];
      if row.status != Confirmed || row.sale { return false; }
      OutsideKeeps(v, StaffSet(a, Cancelled, row.holdUntil, 1));
      deposits.appts := deposits.appts[a := row.(status := Cancelled, linkVersion := row.linkVersion + 1)];
      var _ := deposits.RefundOnlineDeposit(a, true);
      return true;
    }

    /** remove (291-328): only the days in a row that carry the same hours and reason as the first. */
    method Remove(first: int, last: int) returns (count: nat)
      modifies this`closures
      ensures forall d :: d in closures <==> d in old(closures) && !(first <= d < first + count)
      ensures forall d :: d in closures ==> closures[d] == old(closures)[d]
      ensures forall d :: first <= d < first + count ==>
        d in old(closures) && first in old(closures) && old(closures)[d] == old(closures)[first]
      ensures count == 0 <==> first !in old(closures)
      ensures count > 0 ==> first + count - 1 <= Max(first, last)
      ensures count > 0 && first + count <= Max(first, last) ==>
        first + count !in old(closures) || old(closures)[first + count] != old(closures)[first]
    {
      count := 0;
      if first !in closures { return; }
      var until := Max(first, last);
      var cursor := first;
      while cursor <= until && cursor in closures && closures[cursor] == closures[first]
        invariant first <= cursor <= until + 1
        invariant forall d :: first <= d < cursor ==> d in closures && closures[d] == closures[first]
        decreases until - cursor
      {
        cursor := cursor + 1;
      }
      count := cursor - first;
      closures := map d | d in closures && !(first <= d < cursor) :: closures[d];
    }
  }

  /** The instants the closed days span (affected and held, 121-124 and 159-162). */
  function ClosedWindow(plan: Plan, now: int, zone: int -> LocalTime, dayStart: int -> int): Window
    requires |plan.dates| > 0
  {
    Window(dayStart(plan.dates[0]), dayStart(plan.dates[|plan.dates| - 1] + 1), now, zone, plan.hours)
  }
}
