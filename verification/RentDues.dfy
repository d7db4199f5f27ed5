/**
 Manual dues of a chair rent: one term a month from the day the rent began, written when the
 calendar of the space reaches it (src/barbershop/chair-rent.service.ts).
 */
module RentDues {
  import opened Prelude

  // ---- the calendar ----

  /** A calendar day; months count from January of year 0. */
  datatype Date = Date(month: nat, day: nat)

  predicate Leap(year: nat) {
    year % 4 == 0 && (year % 100 != 0 || year % 400 == 0)
  }

  function DaysIn(month: nat): (n: nat)
    ensures 28 <= n <= 31
  {
    match month % 12
    case 1 => if Leap(month / 12) then 29 else 28
    case 3 => 30
    case 5 => 30
    case 8 => 30
    case 10 => 30
    case _ => 31
  }

  predicate Valid(d: Date) {
    1 <= d.day <= DaysIn(d.month)
  }

  /** Days before the month. */
  function DaysBefore(month: nat): nat {
    if month == 0 then 0 else DaysBefore(month - 1) + DaysIn(month - 1)
  }

  function DayNumber(d: Date): nat {
    DaysBefore(d.month) + d.day
  }

  /** The order of the YYYY-MM-DD texts, which dueReached compares (55-57). */
  predicate NotAfter(a: Date, b: Date) {
    a.month < b.month || (a.month == b.month && a.day <= b.day)
  }

  lemma {:induction false} MonthsPass(m: nat, n: nat)
    requires m < n
    ensures DaysBefore(m) + DaysIn(m) <= DaysBefore(n)
    decreases n
  {
    if m < n - 1 { MonthsPass(m, n - 1); }
  }

  lemma NotAfterIsDayOrder(a: Date, b: Date)
    requires Valid(a) && Valid(b)
    ensures NotAfter(a, b) <==> DayNumber(a) <= DayNumber(b)
  {
    if a.month < b.month { MonthsPass(a.month, b.month); }
    if b.month < a.month { MonthsPass(b.month, a.month); }
  }

  // ---- the terms ----

  const MAX_TERMS := 240

  /** Days 29 to 31 fall due on the 28th, so that every month has a term. */
  function DueDay(start: Date): nat {
    Min(start.day, 28)
  }

  /** addMonth (38-42). */
  function AddMonth(d: Date, dueDay: nat): Date {
    Date(d.month + 1, dueDay)
  }

  function Term(start: Date, i: nat): Date {
    if i == 0 then start else AddMonth(Term(start, i - 1), DueDay(start))
  }

  lemma {:induction false} TermIs(start: Date, i: nat)
    ensures Term(start, i) == Date(start.month + i, if i == 0 then start.day else DueDay(start))
  {
    if i > 0 { TermIs(start, i - 1); }
  }

  /** The cap is twenty years of dues. */
  lemma CapIsTwentyYears(start: Date)
    ensures Term(start, MAX_TERMS).month == start.month + 20 * 12
  {
    TermIs(start, MAX_TERMS);
  }

  /** How many terms the calendar has reached, never past the cap. */
  function Reached(start: Date, today: Date, i: nat): (n: nat)
    requires i <= MAX_TERMS
    ensures i <= n <= MAX_TERMS
    ensures forall j :: i <= j < n ==> NotAfter(Term(start, j), today)
    ensures n < MAX_TERMS ==> !NotAfter(Term(start, n), today)
    decreases MAX_TERMS - i
  {
    if i < MAX_TERMS && NotAfter(Term(start, i), today) then Reached(start, today, i + 1) else i
  }

  lemma ReachedIs(start: Date, today: Date, n: nat)
    requires n <= MAX_TERMS && forall j :: 0 <= j < n ==> NotAfter(Term(start, j), today)
    requires n < MAX_TERMS ==> !NotAfter(Term(start, n), today)
    ensures Reached(start, today, 0) == n
  {
  }

  datatype Due = Due(amount: nat, periodEnd: Date)

  /** The rows after the dues of one day were written; rows already there stay as they are. */
  function Filled(rows: map<Date, Due>, start: Date, amount: nat, n: nat): map<Date, Due>
    requires n <= MAX_TERMS
  {
    if n == 0 then rows
    else
      var before := Filled(rows, start, amount, n - 1);
      var d := Term(start, n - 1);
      if d in before then before else before[d := Due(amount, AddMonth(d, DueDay(start)))]
  }

  /** One of the first n terms. */
  predicate IsTerm(start: Date, n: nat, d: Date) {
    start.month <= d.month < start.month + n && d == Term(start, d.month - start.month)
  }

  lemma {:induction false} FilledAt(rows: map<Date, Due>, start: Date, amount: nat, n: nat, d: Date)
    requires n <= MAX_TERMS
    ensures var v := Filled(rows, start, amount, n);
      && (d in v <==> d in rows || IsTerm(start, n, d))
      && (d in v ==> v[d] == if d in rows then rows[d] else Due(amount, AddMonth(d, DueDay(start))))
  {
    if n > 0 {
      FilledAt(rows, start, amount, n - 1, d);
      TermIs(start, n - 1);
    }
  }

  // ---- what the dues promise ----

  /**
   From no rows at all: one due in each month from the first to the last reached, each ending
   where the next begins, 28 to 31 days later; nothing else.
   */
  lemma DuesTileTime(start: Date, amount: nat, n: nat, i: nat)
    requires Valid(start) && i < n <= MAX_TERMS
    ensures var v := Filled(map[], start, amount, n); var d := Term(start, i);
      && d in v && d.month == start.month + i && Valid(d)
      && v[d] == Due(amount, Term(start, i + 1)) && (i + 1 < n ==> Term(start, i + 1) in v)
      && (forall e :: e in v && e.month == d.month ==> e == d)
      && 28 <= DayNumber(Term(start, i + 1)) - DayNumber(d) <= 31
  {
    TermIs(start, i);
    TermIs(start, i + 1);
    FilledAt(map[], start, amount, n, Term(start, i));
    FilledAt(map[], start, amount, n, Term(start, i + 1));
    forall e | e in Filled(map[], start, amount, n) && e.month == start.month + i ensures e == Term(start, i) {
      FilledAt(map[], start, amount, n, e);
    }
  }

  lemma NextTermIsLater(start: Date, i: nat)
    requires Valid(start)
    ensures DayNumber(Term(start, i)) < DayNumber(Term(start, i + 1))
  {
    TermIs(start, i);
    TermIs(start, i + 1);
    assert DaysBefore(start.month + i + 1) == DaysBefore(start.month + i) + DaysIn(start.month + i);
  }

  lemma {:induction false} TermsGrow(start: Date, i: nat, j: nat)
    requires Valid(start) && i <= j
    ensures DayNumber(Term(start, i)) <= DayNumber(Term(start, j))
    decreases j
  {
    if i < j {
      TermsGrow(start, i, j - 1);
      NextTermIsLater(start, j - 1);
    }
  }

  lemma OnlyPeriod(start: Date, day: nat, n: nat, i: nat)
    requires Valid(start) && n > 0 && DayNumber(Term(start, n - 1)) <= day < DayNumber(Term(start, n))
    ensures DayNumber(Term(start, i)) <= day < DayNumber(Term(start, i + 1)) <==> i == n - 1
  {
    if i + 1 <= n - 1 { TermsGrow(start, i + 1, n - 1); }
    if n <= i { TermsGrow(start, n, i); }
  }

  lemma TermIsValid(start: Date, i: nat)
    requires Valid(start)
    ensures Valid(Term(start, i))
  {
    TermIs(start, i);
  }

  /** Every day from the start on falls in exactly one period, the last one reached, up to the cap. */
  lemma TodayHasOnePeriod(start: Date, today: Date, i: nat)
    requires Valid(start) && Valid(today) && NotAfter(start, today)
    requires Reached(start, today, 0) < MAX_TERMS
    ensures var n := Reached(start, today, 0);
      && n > 0
      && (DayNumber(Term(start, i)) <= DayNumber(today) < DayNumber(Term(start, i + 1)) <==> i == n - 1)
  {
    var n := Reached(start, today, 0);
    assert Term(start, 0) == start;
    assert NotAfter(Term(start, n - 1), today);
    TermIsValid(start, n - 1);
    TermIsValid(start, n);
    NotAfterIsDayOrder(Term(start, n - 1), today);
    NotAfterIsDayOrder(Term(start, n), today);
    OnlyPeriod(start, DayNumber(today), n, i);
  }

  lemma ReachedGrows(start: Date, earlier: Date, later: Date)
    requires NotAfter(earlier, later)
    ensures Reached(start, earlier, 0) <= Reached(start, later, 0)
  {
    var m := Reached(start, later, 0);
    assert m >= Reached(start, earlier, 0) || NotAfter(Term(start, m), earlier);
  }

  lemma {:induction false} FilledTwice(rows: map<Date, Due>, start: Date, amount: nat, m: nat, n: nat)
    requires m <= n <= MAX_TERMS
    ensures Filled(Filled(rows, start, amount, m), start, amount, n) == Filled(rows, start, amount, n)
  {
    var once := Filled(rows, start, amount, n);
    var twice := Filled(Filled(rows, start, amount, m), start, amount, n);
    forall d ensures (d in once <==> d in twice) && (d in once ==> once[d] == twice[d]) {
      FilledAt(rows, start, amount, m, d);
      FilledAt(rows, start, amount, n, d);
      FilledAt(Filled(rows, start, amount, m), start, amount, n, d);
    }
  }

  /** The dues after the days of a list, one run each. */
  function Runs(rows: map<Date, Due>, start: Date, amount: nat, days: seq<Date>): map<Date, Due>
    decreases |days|
  {
    if days == [] then rows
    else Runs(Filled(rows, start, amount, Reached(start, days[0], 0)), start, amount, days[1..])
  }

  /** However often the dues are written, on days that do not go back, the rows are those of the last day. */
  lemma {:induction false} ManyRunsAreOne(rows: map<Date, Due>, start: Date, amount: nat, days: seq<Date>)
    requires days != [] && forall i, j :: 0 <= i < j < |days| ==> NotAfter(days[i], days[j])
    ensures Runs(rows, start, amount, days) ==
      Filled(rows, start, amount, Reached(start, days[|days| - 1], 0))
    decreases |days|
  {
    var m := Reached(start, days[0], 0);
    if |days| > 1 {
      var n := Reached(start, days[|days| - 1], 0);
      ReachedGrows(start, days[0], days[|days| - 1]);
      ManyRunsAreOne(Filled(rows, start, amount, m), start, amount, days[1..]);
      FilledTwice(rows, start, amount, m, n);
    } else {
      assert Runs(Filled(rows, start, amount, m), start, amount, days[1..]) == Filled(rows, start, amount, m);
    }
  }

  // ---- the service ----

  class ManualRent {
    var manual: bool          // active link, billing mode MANUAL
    var amount: Option<nat>
    var start: Option<Date>
    var rows: map<Date, Due>

    constructor (amount: nat, start: Date)
      ensures manual && this.amount == Some(amount) && this.start == Some(start) && rows == map[]
    {
      manual, rows := true, map[];
      this.amount, this.start := Some(amount), Some(start);
    }

    /** ensureDues (537-580). */
    method EnsureDues(today: Date) returns (created: nat)
      modifies this`rows
      ensures !manual || amount.None? || start.None? ==> rows == old(rows) && created == 0
      ensures manual && amount.Some? && start.Some? ==>
        && rows == Filled(old(rows), start.value, amount.value, Reached(start.value, today, 0))
        && created == |rows| - |old(rows)|
    {
      created := 0;
      if !manual || amount.None? || start.None? { return; }
      var s := start.value;
      var dueDay := DueDay(s);
      var dates: seq<Date> := [];
      var d := s;
      while |dates| < MAX_TERMS && NotAfter(d, today)
        invariant |dates| <= MAX_TERMS && d == Term(s, |dates|)
        invariant forall j :: 0 <= j < |dates| ==> dates[j] == Term(s, j) && NotAfter(dates[j], today)
        decreases MAX_TERMS - |dates|
      {
        dates := dates + [d];
        d := AddMonth(d, dueDay);
      }
      forall j | 0 <= j < |dates| ensures NotAfter(Term(s, j), today) { assert NotAfter(dates[j], today); }
      ReachedIs(s, today, |dates|);
      created := WriteMissing(dates, s, amount.value);
    }

    /** createMany of the dues whose date has no row yet. */
    method WriteMissing(dates: seq<Date>, s: Date, cents: nat) returns (created: nat)
      requires |dates| <= MAX_TERMS && forall j :: 0 <= j < |dates| ==> dates[j] == Term(s, j)
      modifies this`rows
      ensures rows == Filled(old(rows), s, cents, |dates|) && created == |rows| - |old(rows)|
    {
      ghost var had := rows;
      created := 0;
      for i := 0 to |dates|
        invariant rows == Filled(had, s, cents, i) && created == |rows| - |had|
      {
        var d := dates[i];
        if d !in rows {
          var grown := rows[d := Due(cents, AddMonth(d, DueDay(s)))];
          assert |grown| == |rows| + 1;
          rows := grown;
          created := created + 1;
        }
      }
    }

    /** nextDueDate of view (892-899): the first term the calendar has not reached, or the one after the cap. */
    method NextDueDate(today: Date) returns (next: Option<Date>)
      ensures next.Some? <==> manual && start.Some? && amount.Some?
      ensures next.Some? ==>
        var n := Reached(start.value, today, 0);
        && next.value == Term(start.value, n)
        && (n < MAX_TERMS ==> !NotAfter(next.value, today))
        && (forall j :: 0 <= j < n ==> NotAfter(Term(start.value, j), today))
    {
      if !manual || start.None? || amount.None? { return None; }
      var s := start.value;
      var d := s;
      var i := 0;
      while i < MAX_TERMS && NotAfter(d, today)
        invariant 0 <= i <= MAX_TERMS && d == Term(s, i)
        invariant forall j :: 0 <= j < i ==> NotAfter(Term(s, j), today)
      {
        d := AddMonth(d, DueDay(s));
        i := i + 1;
      }
      ReachedIs(s, today, i);
      return Some(d);
    }
  }
}
