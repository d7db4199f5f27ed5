/** The ledger's methods, updating rows and expenses in place and proved equal to the ledger's operations. */
module RentLedgerService {
  import opened Prelude
  import opened RentLedger

  datatype Refusal = BadMethod | NoSuchRow | AlreadyPaid | NotByHand | SessionClosed

  datatype Outcome = Done | Refused(why: Refusal)

  class RentLedgerService {
    var rows: map<Key, Payment>
    var expenses: map<nat, nat>
    var next: nat
    var paidUntil: Option<int>
    ghost var off: set<Key>
    ghost var orphans: set<nat>

    ghost function Now(): Ledger
      reads this
    {
      Ledger(rows, expenses, next, paidUntil, off, orphans)
    }

    constructor ()
      ensures Now() == EMPTY && Inv(Now())
    {
      rows, expenses, next, paidUntil := map[], map[], 0, None;
      off, orphans := {}, {};
    }

    /** createMemberExpense (722-748), then the update that links it. */
    method BookExpense(k: Key, fate: Fate)
      requires k in rows
      modifies this
      ensures Now() == Book(old(Now()), k, fate)
    {
      if fate == NotWritten {
        off := off + {k};
        return;
      }
      var e := next;
      expenses := expenses[e := rows[k].amount];
      next := next + 1;
      if fate == NotLinked {
        off := off + {k};
        orphans := orphans + {e};
      } else {
        rows := rows[k := rows[k].(expense := Some(e))];
      }
    }

    /** recordPayment (615-672). */
    method RecordPayment(k: Key, paidBy: Method, notes: Option<string>, who: nat, open: Option<nat>, now: int, fate: Fate)
      returns (r: Outcome)
      requires Inv(Now())
      modifies this
      ensures Inv(Now()) && Now() == Recorded(old(Now()), Record(k, paidBy, notes, who, open, now, fate))
      ensures r.Done? <==> CanRecord(old(Now()), k, paidBy)
      ensures r == Refused(BadMethod) <==> paidBy == ByCard
      ensures r == Refused(NoSuchRow) <==> paidBy != ByCard && k !in old(rows)
      ensures r == Refused(AlreadyPaid) <==> paidBy != ByCard && k in old(rows) && old(rows)[k].status != Due
    {
      RecordKeeps(Now(), Record(k, paidBy, notes, who, open, now, fate));
      if paidBy == ByCard { return Refused(BadMethod); }
      if k !in rows { return Refused(NoSuchRow); }
      if rows[k].status != Due { return Refused(AlreadyPaid); }
      var session := if paidBy == Cash then open else None;
      rows := rows[k := rows[k].(status := Succeeded, paidBy := paidBy, paidAt := Some(now), notes := notes,
                                 recordedBy := Some(who), session := session)];
      BookExpense(k, fate);
      return Done;
    }

    /** undoPayment (681-719). */
    method UndoPayment(k: Key, closed: set<nat>) returns (r: Outcome)
      requires Inv(Now())
      modifies this
      ensures Inv(Now()) && Now() == Undone(old(Now()), k, closed)
      ensures r.Done? <==> CanUndo(old(Now()), k, closed)
      ensures r == Refused(NoSuchRow) <==> k !in old(rows)
      ensures r == Refused(NotByHand) <==>
        k in old(rows) && (old(rows)[k].status != Succeeded || old(rows)[k].paidBy == ByCard || !k.OfDue?)
      ensures r == Refused(SessionClosed) <==>
        && k in old(rows) && old(rows)[k].status == Succeeded && old(rows)[k].paidBy != ByCard && k.OfDue?
        && old(rows)[k].session.Some? && old(rows)[k].session.value in closed
    {
      UndoKeeps(Now(), k, closed);
      if k !in rows { return Refused(NoSuchRow); }
      var row := rows[k];
      if row.status != Succeeded || row.paidBy == ByCard || !k.OfDue? { return Refused(NotByHand); }
      if row.session.Some? && row.session.value in closed { return Refused(SessionClosed); }
      if row.expense.Some? { expenses := expenses - {row.expense.value}; }
      rows := rows[k := row.(status := Due, paidBy := Other, paidAt := None, notes := None, recordedBy := None,
                             session := None, expense := None)];
      off := off - {k};
      return Done;
    }

    /** handleInvoice (1069-1140). */
    method HandleInvoice(id: nat, paid: bool, amount: nat, start: Option<int>, end: Option<int>, now: int, fate: Fate)
      returns (firstTime: bool)
      requires Inv(Now())
      modifies this
      ensures Inv(Now()) && Now() == Invoiced(old(Now()), Invoice(id, paid, amount, start, end, now, fate))
      ensures firstTime <==> Settles(old(Now()), OfInvoice(id), paid)
    {
      InvoiceKeeps(Now(), Invoice(id, paid, amount, start, end, now, fate));
      var k := OfInvoice(id);
      if k in rows && (rows[k].status == Succeeded || !paid) { return false; }
      var at := if paid then Some(now) else None;
      var status := if paid then Succeeded else Failed;
      if k in rows {
        rows := rows[k := rows[k].(status := status, paidAt := at, amount := amount)];
      } else {
        rows := rows[k := Payment(amount, status, ByCard, at, None, None, None, None, None, start, end)];
      }
      if paid && end.Some? { paidUntil := end; }
      if paid { BookExpense(k, fate); }
      return true;
    }

    /** syncRefund (960-1006). */
    method SyncRefund(id: nat, refunded: nat, full: bool) returns (mine: bool)
      requires Inv(Now())
      modifies this
      ensures Inv(Now()) && Now() == RefundSynced(old(Now()), Refund(id, refunded, full, false))
      ensures mine <==> Refundable(old(Now()), OfInvoice(id))
    {
      ghost var l := Now();
      RefundKeeps(l, Refund(id, refunded, full, false));
      var k := OfInvoice(id);
      assert RowOk(l, k);
      if k !in rows || rows[k].paidBy != ByCard || rows[k].status != Succeeded { return false; }
      var row := rows[k];
      var value := Min(row.amount, refunded);
      if row.refunded.Some? && row.refunded.value >= value { return true; }
      rows := rows[k := row.(refunded := Some(value))];
      if row.expense.Some? {
        var left := row.amount - value;
        if left > 0 {
          expenses := expenses[row.expense.value := left];
        } else {
          rows := rows[k := rows[k].(expense := None)];
          expenses := expenses - {row.expense.value};
        }
        off := off - {k};
      }
      if full && row.periodStart.Some? && row.periodEnd.Some? && paidUntil == row.periodEnd {
        paidUntil := row.periodStart;
      }
      return true;
    }
  }
}
