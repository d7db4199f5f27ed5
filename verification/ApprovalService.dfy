/** The service's methods run without interference, updating the rows in place and proved equal to the protocol's steps. */
module ApprovalService {
  import opened Prelude
  import opened Approvals
  import opened ApprovalTheorems

  datatype Answer =
    | NotAdmin | NotFound | AlreadyDecided | OwnRequest | TooLate | OffTeam
    | RejectedNow | ExecutedNow | FailedNow

  /** decide from its look to its end. */
  function Decided(w: World, id: Id, approve: bool, actor: Actor, now: int, onTeam: bool, ok: bool): World
    requires w.procs == map[]
  {
    var s := Look(0, id, approve, actor, now, onTeam);
    if !CanLook(w, s) then w
    else
      var v := Looked(w, s);
      if !CanAct(v, 0) then v
      else
        var u := Acted(v, 0, ok);
        if !CanAct(u, 0) then u else Acted(Acted(u, 0, ok), 0, ok)
  }

  function Confirmed(w: World, id: Id, ok: bool): World
    requires w.procs == map[]
  {
    var s := LookCommand(0, id);
    if !Enabled(w, s) then w
    else
      var v := Acted(Next(w, s), 0, ok);
      if !CanAct(v, 0) then v
      else
        var u := Acted(v, 0, ok);
        if CanAct(u, 0) then Acted(u, 0, ok) else u
  }

  lemma DecidedKeeps(w: World, id: Id, approve: bool, actor: Actor, now: int, onTeam: bool, ok: bool)
    requires Inv(w) && w.procs == map[]
    ensures Inv(Decided(w, id, approve, actor, now, onTeam, ok))
  {
    var s := Look(0, id, approve, actor, now, onTeam);
    if CanLook(w, s) {
      StepKeepsInv(w, s);
      var v := Looked(w, s);
      if CanAct(v, 0) {
        ActKeepsInv(v, 0, ok);
        var u := Acted(v, 0, ok);
        if CanAct(u, 0) {
          ActKeepsInv(u, 0, ok);
          ActKeepsInv(Acted(u, 0, ok), 0, ok);
        }
      }
    }
  }

  lemma ConfirmedKeeps(w: World, id: Id, ok: bool)
    requires Inv(w) && w.procs == map[]
    ensures Inv(Confirmed(w, id, ok))
  {
    var s := LookCommand(0, id);
    if Enabled(w, s) {
      StepKeepsInv(w, s);
      ActKeepsInv(Next(w, s), 0, ok);
      var v := Acted(Next(w, s), 0, ok);
      if CanAct(v, 0) {
        ActKeepsInv(v, 0, ok);
        var u := Acted(v, 0, ok);
        if CanAct(u, 0) { ActKeepsInv(u, 0, ok); }
      }
    }
  }

  /** The actor may decide the request, unless it is too old or its requester left. */
  predicate MayDecide(w: World, id: Id, actor: Actor) {
    actor.admin && IsPending(w, id) && !SamePerson(w.rows[id].requester, actor.email)
  }

  /** A decision taken: the row says who took it and how the action went, which ran once if it was approved. */
  lemma DecisionTaken(w: World, id: Id, approve: bool, actor: Actor, now: int, ok: bool)
    requires Inv(w) && w.procs == map[] && MayDecide(w, id, actor) && w.rows[id].createdAt >= now - TTL
    ensures Decided(w, id, approve, actor, now, true, ok) ==
      w.(rows := w.rows[id := w.rows[id].(decider := Some(actor.email), byAdmin := true, checkedAt := now,
                                          status := if !approve then Rejected else if ok then Executed else Failed)],
         here := if approve then w.here + {id} else w.here,
         own := if approve then w.own + {id} else w.own)
    ensures !HasRun(w, id)
  {
    assert RowOk(w, id);
    var v := Looked(w, Look(0, id, approve, actor, now, true));
    var u := Acted(v, 0, ok);
    if approve { assert Acted(Acted(u, 0, ok), 0, ok).procs == map[]; } else { assert u.procs == map[]; }
  }

  /** A command for an executing request: its action runs, and its row is done. */
  lemma ConfirmedRuns(w: World, id: Id, ok: bool)
    requires Inv(w) && w.procs == map[] && id in w.rows && w.rows[id].status == Executing
    ensures Confirmed(w, id, ok) ==
      w.(rows := w.rows[id := w.rows[id].(status := if ok then Executed else Failed)],
         crossed := if id in w.elsewhere then w.crossed else w.crossed + {id},
         twice := if id in w.own then w.twice + {id} else w.twice,
         ordered := w.ordered + {id})
    ensures id !in w.ordered
  {
    assert RowOk(w, id);
    var v := Acted(Next(w, LookCommand(0, id)), 0, ok);
    var u := Acted(v, 0, ok);
    if ok { assert u.procs == map[]; } else { assert Acted(u, 0, ok).procs == map[]; }
  }

  class ApprovalService {
    var rows: map<Id, Row>
    ghost var here: set<Id>
    ghost var elsewhere: set<Id>
    ghost var own: set<Id>
    ghost var ordered: set<Id>
    ghost var twice: set<Id>
    ghost var crossed: set<Id>

    ghost function Now(): World
      reads this
    {
      World(rows, map[], here, elsewhere, own, ordered, twice, crossed)
    }

    constructor ()
      ensures Now() == START && Inv(Now())
    {
      rows := map[];
      here, elsewhere, own, ordered, twice, crossed := {}, {}, {}, {}, {}, {};
    }

    /** expireStale (254-259). */
    method ExpireStale(now: int)
      requires Inv(Now())
      modifies this`rows
      ensures Now() == Next(old(Now()), Expire(now)) && Inv(Now())
      ensures rows.Keys == old(rows).Keys
      ensures forall id :: id in rows ==>
        rows[id] ==
          if old(rows)[id].status == Pending && TooOld(old(rows)[id], now) then old(rows)[id].(status := Expired)
          else old(rows)[id]
      ensures forall id :: id in rows && rows[id].status == Pending ==> !TooOld(rows[id], now)
    {
      StepKeepsInv(Now(), Expire(now));
      rows := map id | id in rows :: Aged(rows[id], now);
    }

    /** request (139-167), after the reason was found long enough; `id` is the new row's. */
    method Ask(id: Id, payload: Payload, now: int, requester: string) returns (made: bool)
      requires Inv(Now()) && id !in rows
      modifies this`rows
      ensures Inv(Now())
      ensures var w := Next(old(Now()), Expire(now)); var s := Request(id, payload, now, requester);
        made == CanRequest(w, s) && Now() == if made then Next(w, s) else w
      ensures made <==> forall k | k in old(rows) ::
        old(rows)[k].status == Pending && !TooOld(old(rows)[k], now) ==> !SameTarget(old(rows)[k].payload, payload)
      ensures made ==> id in rows && IsPending(Now(), id) && rows[id].payload == payload && rows[id].requester == requester
    {
      ExpireStale(now);
      ghost var w := Now();
      made := forall k | k in rows :: rows[k].status == Pending ==> !SameTarget(rows[k].payload, payload);
      if made {
        StepKeepsInv(w, Request(id, payload, now, requester));
        rows := rows[id := Row(payload, Pending, now, requester, None, false, now)];
      }
    }

    /** decide (186-231); `ok` is whether the action went through. */
    method Decide(id: Id, approve: bool, actor: Actor, now: int, onTeam: bool, ok: bool) returns (answer: Answer)
      requires Inv(Now())
      modifies this
      ensures Now() == Decided(old(Now()), id, approve, actor, now, onTeam, ok) && Inv(Now())
      ensures answer.ExecutedNow? || answer.FailedNow? ==>
        && actor.admin && IsPending(old(Now()), id) && !SamePerson(old(rows)[id].requester, actor.email)
        && !TooOld(old(rows)[id], now) && approve && onTeam
        && !old(HasRun(Now(), id)) && own == old(own) + {id} && ordered == old(ordered) && twice == old(twice)
      ensures !answer.ExecutedNow? && !answer.FailedNow? ==> own == old(own) && ordered == old(ordered)
      ensures answer.NotAdmin? <==> !actor.admin
      ensures answer.NotFound? <==> actor.admin && id !in old(rows)
      ensures answer.AlreadyDecided? <==> actor.admin && id in old(rows) && old(rows)[id].status != Pending
      ensures answer.OwnRequest? <==>
        actor.admin && IsPending(old(Now()), id) && SamePerson(old(rows)[id].requester, actor.email)
      ensures answer.TooLate? <==> MayDecide(old(Now()), id, actor) && old(rows)[id].createdAt < now - TTL
      ensures answer.OffTeam? <==> MayDecide(old(Now()), id, actor) && old(rows)[id].createdAt >= now - TTL && !onTeam
      ensures answer in {NotAdmin, NotFound, AlreadyDecided, OwnRequest, OffTeam} ==> rows == old(rows)
      ensures answer.TooLate? ==> rows[id].status == Expired
      ensures answer.RejectedNow? ==> !approve && rows[id].status == Rejected
      ensures answer.ExecutedNow? ==> approve && ok && rows[id].status == Executed
      ensures answer.FailedNow? ==> approve && !ok && rows[id].status == Failed
    {
      ghost var w := Now();
      DecidedKeeps(w, id, approve, actor, now, onTeam, ok);
      if !actor.admin { return NotAdmin; }
      if id !in rows { return NotFound; }
      var row := rows[id];
      if row.status != Pending { return AlreadyDecided; }
      if SamePerson(row.requester, actor.email) { return OwnRequest; }
      if row.createdAt < now - TTL {
        rows := rows[id := row.(status := Expired)];
        return TooLate;
      }
      if !onTeam { return OffTeam; }
      DecisionTaken(w, id, approve, actor, now, ok);
      row := row.(decider := Some(actor.email), byAdmin := true, checkedAt := now);
      if !approve {
        rows := rows[id := row.(status := Rejected)];
        return RejectedNow;
      }
      here := here + {id};
      own := own + {id};
      rows := rows[id := row.(status := if ok then Executed else Failed)];
      return if ok then ExecutedNow else FailedNow;
    }

    /** cancel (234-252). */
    method Withdraw(id: Id, actor: Actor) returns (cancelled: bool)
      requires Inv(Now())
      modifies this`rows
      ensures cancelled <==> IsPending(old(Now()), id) && SamePerson(old(rows)[id].requester, actor.email)
      ensures cancelled ==> id in rows && rows[id].status == Cancelled && rows[id].decider == Some(actor.email)
      ensures forall k :: k in old(rows) && (k != id || !cancelled) ==> k in rows && rows[k] == old(rows)[k]
      ensures Now() == (if cancelled then Next(old(Now()), Cancel(id, actor)) else old(Now())) && Inv(Now())
    {
      if id !in rows || !SamePerson(rows[id].requester, actor.email) || rows[id].status != Pending { return false; }
      StepKeepsInv(Now(), Cancel(id, actor));
      rows := rows[id := rows[id].(status := Cancelled, decider := Some(actor.email))];
      return true;
    }

    /** executeConfirmed (282-308): marked done before it runs, so a repeated command finds nothing to do. */
    method ExecuteConfirmed(id: Id, ok: bool) returns (tried: bool)
      requires Inv(Now())
      modifies this
      ensures Now() == Confirmed(old(Now()), id, ok) && Inv(Now())
      ensures tried <==> id in old(rows) && old(rows)[id].status == Executing
      ensures tried ==> id in rows && rows[id].status == if ok then Executed else Failed
      ensures tried ==> id !in old(ordered) && ordered == old(ordered) + {id} && own == old(own)
      ensures twice == if tried && id in old(own) then old(twice) + {id} else old(twice)
    {
      ghost var w := Now();
      ConfirmedKeeps(w, id, ok);
      if id !in rows || rows[id].status != Executing { return false; }
      ConfirmedRuns(w, id, ok);
      rows := rows[id := rows[id].(status := Executed)];
      if id !in elsewhere { crossed := crossed + {id}; }
      if id in own { twice := twice + {id}; }
      ordered := ordered + {id};
      if !ok { rows := rows[id := rows[id].(status := Failed)]; }
      return true;
    }
  }
}
