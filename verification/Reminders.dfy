/**
 Appointment reminders: each one is claimed on its row, its jobs are put on the queue under ids
 that name the appointment and its time, and the claim is given back when the queue refuses
 (src/barbershop/appointment-reminder.service.ts). Executions overlap, appointments move, and a
 process can die anywhere.
 */
module Reminders {
  import opened Prelude

  type Id = nat

  const MINUTE := 60_000
  const DAY := 86_400_000

  /** The columns a reminder reads; `marked` is reminderSentAt. */
  datatype Row = Row(start: int, createdAt: int, updatedAt: int, email: bool, phone: bool, marked: bool)

  datatype Job = EmailJob(id: Id, start: int) | WhatsappJob(id: Id, start: int)

  /** reminderCoveredByNotice: a notice less than a day before the start does for a reminder. */
  predicate Covers(noticeAt: int, start: int) {
    start - noticeAt <= DAY
  }

  /** The confirmation or the e-mail of a move already said it (73-85). */
  predicate SkipEmail(r: Row, now: int) {
    && r.email
    && (Covers(r.createdAt, r.start)
        || (r.updatedAt - r.createdAt > MINUTE && now - r.updatedAt < 15 * MINUTE && r.start - now <= DAY))
  }

  /** The jobs of a reminder. */
  function Wanted(id: Id, r: Row, now: int): seq<Job> {
    (if r.email && !SkipEmail(r, now) then [EmailJob(id, r.start)] else [])
    + (if r.phone then [WhatsappJob(id, r.start)] else [])
  }

  predicate IsDue(r: Row, now: int) {
    !r.marked && now <= r.start <= now + DAY
  }

  datatype Call =
    | Claiming(id: Id, read: Row, now: int)
    | Queueing(id: Id, todo: seq<Job>)
    | Releasing(id: Id, todo: seq<Job>)

  /**
   The rows, the jobs the queue took (in order), the calls in flight; and of each row what its
   last claim owed and for which time, and the jobs that calls which died on it since then had
   left to queue. A move owes nothing.
   */
  datatype World = World(
    rows: map<Id, Row>,
    sent: seq<Job>,
    calls: map<nat, Call>,
    owed: map<Id, seq<Job>>,
    owedFor: map<Id, int>,
    lost: map<Id, seq<Job>>,
    count: nat)

  const START := World(map[], [], map[], map[], map[], map[], 0)

  datatype Step =
    | Book(id: Id, row: Row)
    | Move(id: Id, start: int, now: int)
    | Read(p: nat, id: Id, now: int)
    | Act(p: nat, ok: bool)
    | Crash(p: nat)

  /** Adding a job under an id the queue has is ignored. */
  function Add(sent: seq<Job>, j: Job): seq<Job> {
    if j in sent then sent else sent + [j]
  }

  predicate CanAct(w: World, p: nat) {
    p in w.calls && w.calls[p].id in w.rows
  }

  function Finish(w: World, p: nat): World {
    w.(calls := w.calls - {p})
  }

  /** The conditional claim (86-99); a reminder with nothing to send is only marked. */
  function Claimed(w: World, p: nat, id: Id, read: Row, now: int): World
    requires id in w.rows
  {
    if w.rows[id].marked then Finish(w, p)
    else
      var jobs := Wanted(id, read, now);
      var v := w.(rows := w.rows[id := w.rows[id].(marked := true)],
                  owed := w.owed[id := jobs], owedFor := w.owedFor[id := read.start], lost := w.lost[id := []]);
      if SkipEmail(read, now) && !read.phone then Finish(v, p)
      else v.(calls := w.calls[p := Queueing(id, jobs)])
  }

  function Acted(w: World, p: nat, ok: bool): World
    requires CanAct(w, p)
  {
    match w.calls[p]
    case Claiming(id, read, now) => Claimed(w, p, id, read, now)
    case Queueing(id, todo) =>
      if todo == [] then Finish(w, p).(count := w.count + 1)
      else if ok then w.(sent := Add(w.sent, todo[0]), calls := w.calls[p := Queueing(id, todo[1..])])
      else w.(calls := w.calls[p := Releasing(id, todo)])
    case Releasing(id, todo) =>
      if ok then Finish(w, p).(rows := w.rows[id := w.rows[id].(marked := false)])
      else Died(w, p)
  }

  function LostOf(w: World, id: Id): seq<Job> {
    if id in w.lost then w.lost[id] else []
  }

  /** A call dies; what it had left to queue nobody has. */
  function Died(w: World, p: nat): World
    requires p in w.calls
  {
    var q := w.calls[p];
    if q.Claiming? then Finish(w, p) else Finish(w, p).(lost := w.lost[q.id := LostOf(w, q.id) + q.todo])
  }

  predicate Enabled(w: World, s: Step) {
    match s
    case Book(id, row) => id !in w.rows && !row.marked
    case Move(id, _, _) => id in w.rows
    case Read(p, id, now) => p !in w.calls && id in w.rows && IsDue(w.rows[id], now)
    case Act(p, _) => CanAct(w, p)
    case Crash(p) => p in w.calls
  }

  /** A move makes the reminder due again, unless its own notice covers it (reminder-window.ts). */
  function Moved(r: Row, start: int, now: int): Row {
    r.(start := start, updatedAt := now, marked := Covers(now, start) && !r.phone)
  }

  function Next(w: World, s: Step): World
    requires Enabled(w, s)
  {
    match s
    case Book(id, row) => w.(rows := w.rows[id := row])
    case Move(id, start, now) =>
      w.(rows := w.rows[id := Moved(w.rows[id], start, now)], owed := w.owed[id := []],
         owedFor := w.owedFor[id := start], lost := w.lost[id := []])
    case Read(p, id, now) => w.(calls := w.calls[p := Claiming(id, w.rows[id], now)])
    case Act(p, ok) => Acted(w, p, ok)
    case Crash(p) => Died(w, p)
  }

  predicate Legal(w: World, run: seq<Step>)
    decreases |run|
  {
    run == [] || (Enabled(w, run[0]) && Legal(Next(w, run[0]), run[1..]))
  }

  function After(w: World, run: seq<Step>): World
    requires Legal(w, run)
    decreases |run|
  {
    if run == [] then w else After(Next(w, run[0]), run[1..])
  }

  // ---- what a reminder is made of ----

  /**
   A reminder's jobs name its appointment and time; the phone always gets one, the mail exactly
   when no notice did for it: the booking less than a day before, or a move in the last quarter
   of an hour.
   */
  lemma JobsOf(id: Id, r: Row, now: int)
    ensures var jobs := Wanted(id, r, now);
      && NoRepeats(jobs) && (forall j :: j in jobs ==> j.id == id && j.start == r.start)
      && (r.phone <==> WhatsappJob(id, r.start) in jobs)
      && (EmailJob(id, r.start) in jobs ==> r.email && r.start - r.createdAt > DAY)
      && (r.email && r.start - r.createdAt > DAY && r.updatedAt == r.createdAt ==> EmailJob(id, r.start) in jobs)
      && (r.email && r.start - r.createdAt > DAY && now - r.updatedAt >= 15 * MINUTE ==> EmailJob(id, r.start) in jobs)
      && (r.updatedAt - r.createdAt > MINUTE && now - r.updatedAt < 15 * MINUTE && r.start - now <= DAY ==>
            EmailJob(id, r.start) !in jobs)
  {
  }

  /** An unmarked row is due from a day before its start to its start. */
  lemma DueInItsLastDay(r: Row, early: nat)
    requires !r.marked
    ensures IsDue(r, r.start - early) <==> early <= DAY
    ensures early > 0 ==> !IsDue(r, r.start + early)
  {
  }

  /**
   A moved appointment is due again in its last day, unless the notice of the move, less than a day
   before, does for a reminder that goes by mail alone.
   */
  lemma MovedIsDueAgain(r: Row, start: int, now: int)
    ensures var m := Moved(r, start, now);
      && m.start == start && m.updatedAt == now && m.createdAt == r.createdAt && m.email == r.email && m.phone == r.phone
      && (IsDue(m, start - DAY) <==> r.phone || start - now > DAY)
  {
  }

  // ---- what every step keeps ----

  ghost predicate Underway(w: World, id: Id, j: Job) {
    exists p :: p in w.calls && w.calls[p].id == id
      && !w.calls[p].Claiming? && j in w.calls[p].todo
  }

  /** What the claim on the row owes is on the queue, or a call is at it, or one died with it. */
  ghost predicate Kept(w: World, id: Id) {
    id in w.rows && w.rows[id].marked ==>
      && id in w.owed && id in w.owedFor
      && forall j :: j in w.owed[id] ==> j in w.sent || Underway(w, id, j) || j in LostOf(w, id)
  }

  predicate NoRepeats(sent: seq<Job>) {
    forall i, j :: 0 <= i < j < |sent| ==> sent[i] != sent[j]
  }

  ghost predicate Inv(w: World) {
    && (forall id: Id :: Kept(w, id))
    && NoRepeats(w.sent)
    && (forall p :: p in w.calls ==> w.calls[p].id in w.rows)
  }

  lemma MarkKeeps(w: World, p: nat, id: Id)
    requires Inv(w) && CanAct(w, p) && w.calls[p].Claiming?
    ensures Kept(Acted(w, p, true), id) && Acted(w, p, false) == Acted(w, p, true)
  {
    assert Kept(w, id);
    var v := Acted(w, p, true);
    var q := w.calls[p];
    forall j | id in v.rows && v.rows[id].marked && j in v.owed[id]
      ensures j in v.sent || Underway(v, id, j) || j in LostOf(v, id)
    {
      if id == q.id && !w.rows[id].marked {
        if p in v.calls { assert j in v.calls[p].todo; }
      } else if j !in w.sent && j !in LostOf(w, id) {
        var r :| r in w.calls && w.calls[r].id == id && !w.calls[r].Claiming? && j in w.calls[r].todo;
        assert r in v.calls && v.calls[r] == w.calls[r];
      }
    }
  }

  lemma QueueKeeps(w: World, p: nat, ok: bool, id: Id)
    requires Inv(w) && CanAct(w, p) && !w.calls[p].Claiming?
    ensures Kept(Acted(w, p, ok), id)
  {
    assert Kept(w, id);
    var v := Acted(w, p, ok);
    var q := w.calls[p];
    forall j | id in v.rows && v.rows[id].marked && j in v.owed[id]
      ensures j in v.sent || Underway(v, id, j) || j in LostOf(v, id)
    {
      if j !in w.sent && j !in LostOf(w, id) {
        var r :| r in w.calls && w.calls[r].id == id && !w.calls[r].Claiming? && j in w.calls[r].todo;
        if r != p {
          assert r in v.calls && v.calls[r] == w.calls[r];
        } else if q.Queueing? && ok {
          if j != q.todo[0] { assert j in q.todo[1..] && v.calls[p].todo == q.todo[1..]; }
        } else if q.Queueing? {
          assert v.calls[p] == Releasing(id, q.todo);
        }
      }
    }
  }

  lemma OthersKeep(w: World, s: Step, id: Id)
    requires Inv(w) && Enabled(w, s) && !s.Act?
    ensures Kept(Next(w, s), id)
  {
    assert Kept(w, id);
    var v := Next(w, s);
    forall j | id in v.rows && v.rows[id].marked && j in v.owed[id]
      ensures j in v.sent || Underway(v, id, j) || j in LostOf(v, id)
    {
      if j !in w.sent && j !in LostOf(w, id) && !(s.Move? && s.id == id) {
        var r :| r in w.calls && w.calls[r].id == id && !w.calls[r].Claiming? && j in w.calls[r].todo;
        if !(s.Crash? && s.p == r) { assert r in v.calls && v.calls[r] == w.calls[r]; }
      }
    }
  }

  lemma StepKeepsInv(w: World, s: Step)
    requires Inv(w) && Enabled(w, s)
    ensures Inv(Next(w, s))
  {
    var v := Next(w, s);
    forall id: Id ensures Kept(v, id) {
      if !s.Act? { OthersKeep(w, s, id); }
      else if w.calls[s.p].Claiming? { MarkKeeps(w, s.p, id); }
      else { QueueKeeps(w, s.p, s.ok, id); }
    }
  }

  lemma {:induction false} RunKeepsInv(w: World, run: seq<Step>)
    requires Inv(w) && Legal(w, run)
    ensures Inv(After(w, run))
    decreases |run|
  {
    if run != [] {
      StepKeepsInv(w, run[0]);
      RunKeepsInv(Next(w, run[0]), run[1..]);
    }
  }

  /**
   In every run no job is put on the queue twice; and once no call is under way, a job the claim
   on a marked row owes is missing from the queue only if a call that died on the row since then
   had it left.
   */
  lemma MarkedIsQueued(run: seq<Step>, id: Id)
    requires Legal(START, run)
    ensures var w := After(START, run);
      && NoRepeats(w.sent)
      && (w.calls == map[] && id in w.rows && w.rows[id].marked ==>
            && id in w.owed
            && forall j :: j in w.owed[id] && j !in w.sent ==> j in LostOf(w, id))
  {
    RunKeepsInv(START, run);
    assert Kept(After(START, run), id);
  }

  /** What a claim owes is for the time on the row exactly when the batch read the row with that time. */
  lemma ClaimIsForTheReadTime(w: World, p: nat, ok: bool)
    requires CanAct(w, p) && w.calls[p].Claiming? && !w.rows[w.calls[p].id].marked
    ensures var v := Acted(w, p, ok); var id := w.calls[p].id; var read := w.calls[p].read;
      && id in v.rows && v.rows[id].marked && id in v.owed && id in v.owedFor && LostOf(v, id) == []
      && (v.owedFor[id] == v.rows[id].start <==> read.start == w.rows[id].start)
      && (forall j :: j in v.owed[id] ==> j.id == id && j.start == v.owedFor[id])
  {
  }

  /** The step neither moves the appointment nor lets the call go on. */
  predicate Besides(s: Step, p: nat, id: Id) {
    !(s.Move? && s.id == id) && !(s.Act? && s.p == p) && !(s.Crash? && s.p == p)
  }

  predicate Untouched(run: seq<Step>, p: nat, id: Id) {
    forall s :: s in run ==> Besides(s, p, id)
  }

  /** The call p and the time of the appointment are as they were. */
  predicate SameTime(w: World, v: World, p: nat, id: Id) {
    && p in w.calls && p in v.calls && v.calls[p] == w.calls[p]
    && id in w.rows && id in v.rows && v.rows[id].start == w.rows[id].start
  }

  lemma ActBesides(w: World, r: nat, ok: bool, p: nat, id: Id)
    requires CanAct(w, r) && r != p && p in w.calls && id in w.rows
    ensures SameTime(w, Acted(w, r, ok), p, id)
  {
  }

  lemma StepBesides(w: World, s: Step, p: nat, id: Id)
    requires Enabled(w, s) && Besides(s, p, id) && p in w.calls && id in w.rows
    ensures SameTime(w, Next(w, s), p, id)
  {
    if s.Act? { ActBesides(w, s.p, s.ok, p, id); }
  }

  lemma {:induction false} UntouchedKeeps(w: World, run: seq<Step>, p: nat, id: Id)
    requires Legal(w, run) && Untouched(run, p, id) && p in w.calls && id in w.rows
    ensures SameTime(w, After(w, run), p, id)
    decreases |run|
  {
    if run != [] {
      assert run[0] in run;
      StepBesides(w, run[0], p, id);
      UntouchedKeeps(Next(w, run[0]), run[1..], p, id);
    }
  }

  /** Whatever other executions do between the batch's read and the claim, an appointment not moved is reminded of its time. */
  lemma UnmovedIsRemindedOfItsTime(w: World, p: nat, id: Id, now: int, run: seq<Step>, ok: bool)
    requires Enabled(w, Read(p, id, now)) && Legal(Next(w, Read(p, id, now)), run) && Untouched(run, p, id)
    ensures var v := After(Next(w, Read(p, id, now)), run);
      && CanAct(v, p) && v.calls[p] == Claiming(id, w.rows[id], now)
      && (!v.rows[id].marked ==>
            var u := Acted(v, p, ok); id in u.owedFor && id in u.rows && u.owedFor[id] == u.rows[id].start == w.rows[id].start)
  {
    UntouchedKeeps(Next(w, Read(p, id, now)), run, p, id);
  }

  // ---- one execution at a time ----

  predicate AtWork(q: Call, id: Id) {
    !q.Claiming? && q.id == id
  }

  /** A call that works on a reminder holds its mark, and is the only one. */
  ghost predicate Held(w: World, id: Id) {
    && (forall p :: p in w.calls && AtWork(w.calls[p], id) ==> id in w.rows && w.rows[id].marked)
    && (forall p, q :: p in w.calls && q in w.calls && AtWork(w.calls[p], id) && AtWork(w.calls[q], id) ==> p == q)
  }

  lemma ActKeepsHeld(w: World, p: nat, ok: bool, id: Id)
    requires Held(w, id) && CanAct(w, p)
    ensures Held(Acted(w, p, ok), id)
  {
    var v := Acted(w, p, ok);
    var q := w.calls[p];
    forall r | r in v.calls && AtWork(v.calls[r], id) ensures id in v.rows && v.rows[id].marked {
      if r != p { assert r in w.calls && v.calls[r] == w.calls[r]; }
    }
    forall r, t | r in v.calls && t in v.calls && AtWork(v.calls[r], id) && AtWork(v.calls[t], id) ensures r == t {
      assert r != p ==> v.calls[r] == w.calls[r];
      assert t != p ==> v.calls[t] == w.calls[t];
    }
  }

  lemma StepKeepsHeld(w: World, s: Step, id: Id)
    requires Held(w, id) && Enabled(w, s) && !(s.Move? && s.id == id)
    ensures Held(Next(w, s), id)
  {
    if s.Act? { ActKeepsHeld(w, s.p, s.ok, id); }
  }

  /**
   However many executions overlap and die anywhere, as long as the appointment does not move at
   most one call works on its reminder, and the mark stands for as long as it does.
   */
  lemma {:induction false} OneAtWork(w: World, run: seq<Step>, id: Id)
    requires Held(w, id) && Legal(w, run) && forall s :: s in run ==> !(s.Move? && s.id == id)
    ensures Held(After(w, run), id)
    decreases |run|
  {
    if run != [] {
      assert run[0] in run;
      StepKeepsHeld(w, run[0], id);
      OneAtWork(Next(w, run[0]), run[1..], id);
    }
  }

  lemma {:induction false} Then(w: World, run: seq<Step>, s: Step) returns (longer: seq<Step>)
    requires Legal(w, run) && Enabled(After(w, run), s)
    ensures longer == run + [s] && Legal(w, longer) && After(w, longer) == Next(After(w, run), s)
    decreases |run|
  {
    longer := run + [s];
    if run == [] {
      assert Legal(Next(w, s), [s][1..]);
    } else {
      var rest := Then(Next(w, run[0]), run[1..], s);
      assert longer[1..] == rest;
    }
  }

  const VISIT := Row(2 * DAY, 0, 0, true, false, false)

  /** An appointment moved after the batch was read keeps the mark of a reminder for its old time. */
  lemma MovedUnderTheBatch() returns (run: seq<Step>)
    ensures Legal(START, run)
    ensures var w := After(START, run);
      && w.calls == map[] && LostOf(w, 0) == [] && 0 in w.rows && w.rows[0].marked
      && w.sent == [EmailJob(0, 2 * DAY)] && w.rows[0].start == 4 * DAY
  {
    run := [];
    run := Then(START, run, Book(0, VISIT));
    assert After(START, run).rows == map[0 := VISIT];
    run := Then(START, run, Read(1, 0, DAY));
    run := Then(START, run, Move(0, 4 * DAY, DAY));
    assert Wanted(0, VISIT, DAY) == [EmailJob(0, 2 * DAY)];
    run := Then(START, run, Act(1, true));
    assert After(START, run).calls == map[1 := Queueing(0, [EmailJob(0, 2 * DAY)])];
    run := Then(START, run, Act(1, true));
    assert After(START, run).calls == map[1 := Queueing(0, [])];
    run := Then(START, run, Act(1, true));
    assert After(START, run).calls == map[];
  }

  // ---- the service ----

  const BATCH := 500

  /** How one execution leaves an appointment it found due: reminded, or to be tried again. */
  ghost predicate Treated(was: Row, r: Row, id: Id, now: int, sent: seq<Job>, refused: set<Job>) {
    if r.marked then r == was.(marked := true) && forall j :: j in Wanted(id, was, now) ==> j in sent
    else r == was && exists j :: j in Wanted(id, was, now) && j in refused
  }

  ghost predicate Midway(was: map<Id, Row>, rows: map<Id, Row>, had: seq<Job>, sent: seq<Job>,
                         all: set<Id>, rest: set<Id>, now: int, refused: set<Job>) {
    && rest <= all <= was.Keys && rows.Keys == was.Keys && NoRepeats(sent)
    && (forall j :: j in had ==> j in sent)
    && (forall j :: j in sent ==> j in had || (j.id in all && j in Wanted(j.id, was[j.id], now)))
    && (forall id :: id in was && (id !in all || id in rest) ==> rows[id] == was[id])
    && (forall id :: id in all && id !in rest ==> Treated(was[id], rows[id], id, now, sent, refused))
  }

  lemma MidwayStep(was: map<Id, Row>, rows: map<Id, Row>, had: seq<Job>, sent: seq<Job>, all: set<Id>, rest: set<Id>,
                   now: int, refused: set<Job>, id: Id, r: Row, more: seq<Job>)
    requires Midway(was, rows, had, sent, all, rest, now, refused) && id in rest && NoRepeats(more)
    requires (forall j :: j in sent ==> j in more) && Treated(was[id], r, id, now, more, refused)
    requires forall j :: j in more ==> j in sent || (j.id == id && j in Wanted(id, was[id], now))
    ensures Midway(was, rows[id := r], had, more, all, rest - {id}, now, refused)
  {
    forall k | k in all && k !in rest - {id} ensures Treated(was[k], rows[id := r][k], k, now, more, refused) {
      if k != id { assert Treated(was[k], rows[k], k, now, sent, refused); }
    }
  }

  lemma AddKeepsNoRepeats(sent: seq<Job>, j: Job)
    requires NoRepeats(sent)
    ensures NoRepeats(Add(sent, j))
  {
  }

  function DueNow(rows: map<Id, Row>, now: int): set<Id> {
    set id | id in rows && IsDue(rows[id], now)
  }

  /** The reminders that an execution leaves marked with something queued for them. */
  function Reminded(was: map<Id, Row>, rows: map<Id, Row>, all: set<Id>, now: int): set<Id> {
    set id | id in all && id in was && id in rows && rows[id].marked && (!SkipEmail(was[id], now) || was[id].phone)
  }

  lemma RemindedGrows(was: map<Id, Row>, rows: map<Id, Row>, all: set<Id>, rest: set<Id>, now: int, id: Id, r: Row)
    requires id in was && id in rest && rest <= all
    ensures |Reminded(was, rows[id := r], all - (rest - {id}), now)| ==
      |Reminded(was, rows, all - rest, now)| + if r.marked && (!SkipEmail(was[id], now) || was[id].phone) then 1 else 0
  {
    var more := Reminded(was, rows[id := r], all - (rest - {id}), now);
    assert more - {id} == Reminded(was, rows, all - rest, now);
  }

  /** What the loop left out is not marked. */
  lemma RestIsUnmarked(was: map<Id, Row>, rows: map<Id, Row>, had: seq<Job>, sent: seq<Job>, all: set<Id>, rest: set<Id>,
                       now: int, refused: set<Job>)
    requires Midway(was, rows, had, sent, all, rest, now, refused) && forall id :: id in all ==> !was[id].marked
    ensures Reminded(was, rows, all, now) == Reminded(was, rows, all - rest, now)
  {
  }

  class AppointmentReminderService {
    var rows: map<Id, Row>
    var sent: seq<Job>

    constructor ()
      ensures rows == map[] && sent == []
    {
      rows, sent := map[], [];
    }

    /** enqueueDueReminders (52-187) run alone, the queue refusing some jobs; it counts the reminders it queued. */
    method EnqueueDueReminders(now: int, refused: set<Job>) returns (enqueued: nat)
      requires NoRepeats(sent)
      modifies this
      ensures NoRepeats(sent) && rows.Keys == old(rows).Keys && forall j :: j in old(sent) ==> j in sent
      ensures forall id :: id in rows && !IsDue(old(rows)[id], now) ==> rows[id] == old(rows)[id]
      ensures |DueNow(old(rows), now)| <= BATCH ==>
        forall id :: id in rows && IsDue(old(rows)[id], now) ==>
          Treated(old(rows)[id], rows[id], id, now, sent, refused)
      ensures enqueued == |Reminded(old(rows), rows, DueNow(old(rows), now), now)|
      ensures forall j :: j in sent ==>
        j in old(sent) || (j.id in DueNow(old(rows), now) && j in Wanted(j.id, old(rows)[j.id], now))
    {
      ghost var rest;
      enqueued, rest := RemindBatch(now, refused);
      RestIsUnmarked(old(rows), rows, old(sent), sent, DueNow(old(rows), now), rest, now, refused);
    }

    /** The loop of enqueueDueReminders, which takes 500 reminders at most. */
    method RemindBatch(now: int, refused: set<Job>) returns (enqueued: nat, ghost rest: set<Id>)
      requires NoRepeats(sent)
      modifies this
      ensures Midway(old(rows), rows, old(sent), sent, DueNow(old(rows), now), rest, now, refused)
      ensures |DueNow(old(rows), now)| <= BATCH ==> rest == {}
      ensures enqueued == |Reminded(old(rows), rows, DueNow(old(rows), now) - rest, now)|
    {
      ghost var was := rows;
      ghost var had := sent;
      var due := DueNow(rows, now);
      ghost var all := due;
      enqueued := 0;
      var taken := 0;
      while due != {} && taken < BATCH
        invariant |all| == |due| + taken && taken <= BATCH
        invariant Midway(was, rows, had, sent, all, due, now, refused)
        invariant enqueued == |Reminded(was, rows, all - due, now)|
        decreases |due|
      {
        var id :| id in due;
        ghost var before := rows;
        ghost var sentBefore := sent;
        var queued := Remind(id, now, refused);
        RemindedGrows(was, before, all, due, now, id, rows[id]);
        MidwayStep(was, before, had, sentBefore, all, due, now, refused, id, rows[id], sent);
        if queued { enqueued := enqueued + 1; }
        due := due - {id};
        taken := taken + 1;
      }
      rest := due;
      if |all| <= BATCH { assert |due| == 0; }
    }

    /** One turn of the loop: claim, queue, or give the claim back. */
    method Remind(id: Id, now: int, refused: set<Job>) returns (queued: bool)
      requires id in rows && !rows[id].marked && NoRepeats(sent)
      modifies this
      ensures rows.Keys == old(rows).Keys && rows == old(rows)[id := rows[id]]
      ensures NoRepeats(sent) && forall j :: j in old(sent) ==> j in sent
      ensures forall j :: j in sent ==> j in old(sent) || (j.id == id && j in Wanted(id, old(rows)[id], now))
      ensures Treated(old(rows)[id], rows[id], id, now, sent, refused)
      ensures queued <==> rows[id].marked && (!SkipEmail(old(rows)[id], now) || old(rows)[id].phone)
    {
      var row := rows[id];
      rows := rows[id := row.(marked := true)];
      if SkipEmail(row, now) && !row.phone { return false; }
      var jobs := Wanted(id, row, now);
      for k := 0 to |jobs|
        invariant rows == old(rows)[id := row.(marked := true)] && NoRepeats(sent)
        invariant (forall j :: j in old(sent) ==> j in sent) && forall j :: j in jobs[..k] ==> j in sent
        invariant forall j :: j in sent ==> j in old(sent) || j in jobs
      {
        if jobs[k] in refused {
          rows := rows[id := row];
          assert jobs[k] in Wanted(id, row, now);
          return false;
        }
        AddKeepsNoRepeats(sent, jobs[k]);
        sent := Add(sent, jobs[k]);
        assert jobs[..k + 1] == jobs[..k] + [jobs[k]];
      }
      assert jobs[..|jobs|] == jobs;
      return true;
    }
  }
}
