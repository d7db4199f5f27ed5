/**
 Requests for an irreversible action and their confirmation, as a state machine: the deciding
 here, the confirming by the other API and the commands it sends, cancelling and expiry
 (src/backoffice/approval.service.ts).
 */
module Approvals {
  import opened Prelude

  type Id = nat

  const TTL := 604_800_000   // 7 days in milliseconds

  datatype Status = Pending | Executing | Executed | Rejected | Cancelled | Expired | Failed

  /** Whether two requests are about the same thing depends on the action. */
  datatype Payload =
    | DeleteUser(user: int)
    | Refund(kind: string, payment: int)
    | MassMail(users: seq<int>, subject: string)

  /** A BackofficeApproval row; `checkedAt` is when the decision here compared the row's age. */
  datatype Row = Row(
    payload: Payload,
    status: Status,
    createdAt: int,
    requester: string,
    decider: Option<string>,
    byAdmin: bool,
    checkedAt: int)

  datatype Actor = Actor(email: string, admin: bool)

  /** The next step of an interrupted call. */
  datatype Proc =
    | Claim(id: Id, actor: Actor, approve: bool, now: int)
    | Run(id: Id)
    | Write(id: Id, ok: bool)
    | CommandClaim(id: Id)
    | CommandRun(id: Id)
    | CommandWrite(id: Id)

  /**
   The rows, the calls in flight, and what happened: rows approved here, rows the other API
   approved, actions run by the decision here, actions run by a command, actions that ran again,
   and rows approved here that got a command anyway.
   */
  datatype World = World(
    rows: map<Id, Row>,
    procs: map<nat, Proc>,
    here: set<Id>,
    elsewhere: set<Id>,
    own: set<Id>,
    ordered: set<Id>,
    twice: set<Id>,
    crossed: set<Id>)

  const START := World(map[], map[], {}, {}, {}, {}, {}, {})

  datatype Step =
    | Request(id: Id, payload: Payload, createdAt: int, requester: string)
    | Expire(now: int)
    | Cancel(id: Id, actor: Actor)
    | ApproveElsewhere(id: Id)
    | Look(p: nat, id: Id, approve: bool, actor: Actor, now: int, onTeam: bool)
    | LookCommand(p: nat, id: Id)
    | Act(p: nat, ok: bool)
    | Crash(p: nat)

  function LowerChar(c: char): char {
    if 'A' <= c <= 'Z' then (c as int + 32) as char else c
  }

  function Lower(s: string): (r: string)
    ensures |r| == |s|
  {
    if s == "" then "" else [LowerChar(s[0])] + Lower(s[1..])
  }

  predicate SamePerson(a: string, b: string) {
    Lower(a) == Lower(b)
  }

  function SetStatus(w: World, id: Id, status: Status): World
    requires id in w.rows
  {
    w.(rows := w.rows[id := w.rows[id].(status := status)])
  }

  function Finish(w: World, p: nat): World {
    w.(procs := w.procs - {p})
  }

  function Goto(w: World, p: nat, q: Proc): World {
    w.(procs := w.procs[p := q])
  }

  predicate IsPending(w: World, id: Id) {
    id in w.rows && w.rows[id].status == Pending
  }

  predicate TooOld(r: Row, now: int) {
    r.createdAt < now - TTL
  }

  predicate HasRun(w: World, id: Id) {
    id in w.own || id in w.ordered
  }

  /** The action runs, by a command or by the decision here. */
  function Ran(w: World, id: Id, command: bool): World {
    var v := w.(twice := if HasRun(w, id) then w.twice + {id} else w.twice);
    if command then v.(ordered := w.ordered + {id}) else v.(own := w.own + {id})
  }

  /** One request with the same target can be pending at a time (147-154). */
  predicate CanRequest(w: World, s: Step)
    requires s.Request?
  {
    s.id !in w.rows
    && forall k | k in w.rows :: w.rows[k].status == Pending ==> !SameTarget(w.rows[k].payload, s.payload)
  }

  /** decide up to its claim (187-208); an old request expires instead. */
  predicate CanLook(w: World, s: Step)
    requires s.Look?
  {
    && s.p !in w.procs && s.actor.admin && IsPending(w, s.id)
    && !SamePerson(w.rows[s.id].requester, s.actor.email)
  }

  function Looked(w: World, s: Step): World
    requires s.Look? && CanLook(w, s)
  {
    if TooOld(w.rows[s.id], s.now) then SetStatus(w, s.id, Expired)
    else if !s.onTeam then w
    else Goto(w, s.p, Claim(s.id, s.actor, s.approve, s.now))
  }

  predicate CanAct(w: World, p: nat) {
    p in w.procs && w.procs[p].id in w.rows
  }

  /** The conditional claim, the run and its result (210-231 and 282-308). */
  function Acted(w: World, p: nat, ok: bool): World
    requires CanAct(w, p)
  {
    match w.procs[p]
    case Claim(id, actor, approve, now) =>
      if !IsPending(w, id) then Finish(w, p)
      else
        var r := w.rows[id].(decider := Some(actor.email), byAdmin := actor.admin, checkedAt := now,
                             status := if approve then Executing else Rejected);
        var v := w.(rows := w.rows[id := r]);
        if approve then Goto(v, p, Run(id)).(here := w.here + {id}) else Finish(v, p)
    case Run(id) => Goto(Ran(w, id, false), p, Write(id, ok))
    case Write(id, done) => Finish(SetStatus(w, id, if done then Executed else Failed), p)
    case CommandClaim(id) =>
      if w.rows[id].status != Executing then Finish(w, p)
      else
        Goto(SetStatus(w, id, Executed), p, CommandRun(id))
          .(crossed := if id in w.elsewhere then w.crossed else w.crossed + {id})
    case CommandRun(id) => if ok then Finish(Ran(w, id, true), p) else Goto(Ran(w, id, true), p, CommandWrite(id))
    case CommandWrite(id) => Finish(SetStatus(w, id, Failed), p)
  }

  predicate Enabled(w: World, s: Step) {
    match s
    case Request(_, _, _, _) => CanRequest(w, s)
    case Expire(_) => true
    case Cancel(id, actor) => IsPending(w, id) && SamePerson(w.rows[id].requester, actor.email)
    case ApproveElsewhere(id) => IsPending(w, id)
    case Look(_, _, _, _, _, _) => CanLook(w, s)
    case LookCommand(p, id) => p !in w.procs && id in w.rows && w.rows[id].status == Executing
    case Act(p, _) => CanAct(w, p)
    case Crash(p) => p in w.procs
  }

  function Aged(r: Row, now: int): Row {
    if r.status == Pending && TooOld(r, now) then r.(status := Expired) else r
  }

  function Next(w: World, s: Step): World
    requires Enabled(w, s)
  {
    match s
    case Request(id, payload, createdAt, requester) =>
      w.(rows := w.rows[id := Row(payload, Pending, createdAt, requester, None, false, createdAt)])
    case Expire(now) => w.(rows := map id | id in w.rows :: Aged(w.rows[id], now))
    case Cancel(id, actor) =>
      w.(rows := w.rows[id := w.rows[id].(status := Cancelled, decider := Some(actor.email))])
    case ApproveElsewhere(id) => SetStatus(w, id, Executing).(elsewhere := w.elsewhere + {id})
    case Look(_, _, _, _, _, _) => Looked(w, s)
    case LookCommand(p, id) => Goto(w, p, CommandClaim(id))
    case Act(p, ok) => Acted(w, p, ok)
    case Crash(p) => Finish(w, p)
  }

  predicate Legal(w: World, run: seq<Step>)
    decreases |run|
  {
    run == [] || (Enabled(w, run[0]) && Legal(Next(w, run[0]), run[1..]))
  }

  function After(w: World, run: seq<Step>): World
    requires Legal(w, run)
    decreases |run|
  {
    if run == [] then w else After(Next(w, run[0]), run[1..])
  }

  // ---- the same target ----

  function Insert(x: int, sorted: seq<int>): seq<int> {
    if sorted == [] || x <= sorted[0] then [x] + sorted else [sorted[0]] + Insert(x, sorted[1..])
  }

  function Sort(s: seq<int>): seq<int> {
    if s == [] then [] else Insert(s[0], Sort(s[1..]))
  }

  /** sameApprovalTarget (65-77): for a mass mail, the recipients in order and the subject. */
  predicate SameTarget(a: Payload, b: Payload) {
    match a
    case DeleteUser(user) => b == DeleteUser(user)
    case Refund(kind, payment) => b == Refund(kind, payment)
    case MassMail(users, subject) => b.MassMail? && Sort(users) == Sort(b.users) && subject == b.subject
  }

  predicate Sorted(s: seq<int>) {
    |s| < 2 || (s[0] <= s[1] && Sorted(s[1..]))
  }

  lemma {:induction false} InsertSorts(x: int, sorted: seq<int>)
    requires Sorted(sorted)
    ensures Sorted(Insert(x, sorted))
    ensures Insert(x, sorted)[0] == if sorted == [] then x else Min(x, sorted[0])
  {
    if sorted != [] && x > sorted[0] {
      InsertSorts(x, sorted[1..]);
      assert Insert(x, sorted)[1..] == Insert(x, sorted[1..]);
    } else {
      assert ([x] + sorted)[1..] == sorted;
    }
  }

  lemma {:induction false} InsertAdds(x: int, sorted: seq<int>)
    ensures multiset(Insert(x, sorted)) == multiset(sorted) + multiset{x}
  {
    if sorted != [] && x > sorted[0] {
      InsertAdds(x, sorted[1..]);
      assert sorted == [sorted[0]] + sorted[1..];
    }
  }

  lemma {:induction false} SortSorts(s: seq<int>)
    ensures Sorted(Sort(s)) && multiset(Sort(s)) == multiset(s)
  {
    if s != [] {
      SortSorts(s[1..]);
      InsertSorts(s[0], Sort(s[1..]));
      InsertAdds(s[0], Sort(s[1..]));
      assert s == [s[0]] + s[1..];
    }
  }

  lemma {:induction false} HeadIsLeast(s: seq<int>, x: int)
    requires Sorted(s) && x in multiset(s)
    ensures s[0] <= x
  {
    if s[0] != x {
      assert s == [s[0]] + s[1..];
      assert x in multiset(s[1..]);
      assert |s[1..]| > 0;
      HeadIsLeast(s[1..], x);
    }
  }

  lemma SameHead(a: seq<int>, b: seq<int>)
    requires Sorted(a) && Sorted(b) && multiset(a) == multiset(b) && a != []
    ensures b != [] && a[0] == b[0] && multiset(a[1..]) == multiset(b[1..])
  {
    assert a[0] in multiset(a);
    HeadIsLeast(b, a[0]);
    assert b[0] in multiset(b);
    HeadIsLeast(a, b[0]);
    assert a == [a[0]] + a[1..] && b == [b[0]] + b[1..];
    assert multiset(a[1..]) == multiset(a) - multiset{a[0]};
    assert multiset(b[1..]) == multiset(b) - multiset{b[0]};
  }

  lemma {:induction false} SortedIsUnique(a: seq<int>, b: seq<int>)
    requires Sorted(a) && Sorted(b) && multiset(a) == multiset(b)
    ensures a == b
  {
    if a == [] {
      assert |b| == |multiset(b)| == |multiset(a)| == 0;
    } else {
      SameHead(a, b);
      SortedIsUnique(a[1..], b[1..]);
      assert a == [a[0]] + a[1..] && b == [b[0]] + b[1..];
    }
  }

  /** Two mass mails are the same request exactly when they go to the same people, in any order, under one subject. */
  lemma SameMailSamePeople(a: Payload, b: Payload)
    requires a.MassMail? && b.MassMail?
    ensures SameTarget(a, b) <==> multiset(a.users) == multiset(b.users) && a.subject == b.subject
  {
    SortSorts(a.users);
    SortSorts(b.users);
    if multiset(a.users) == multiset(b.users) { SortedIsUnique(Sort(a.users), Sort(b.users)); }
  }

  /** Any other two requests are one exactly when they are equal. */
  lemma SameOtherwiseIsEqual(a: Payload, b: Payload)
    requires !a.MassMail? || !b.MassMail?
    ensures SameTarget(a, b) <==> a == b
  {
  }
}
