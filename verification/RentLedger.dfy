/**
 The rent ledger: the payment rows of a chair rent and the member's "Rent" expenses they book
 (src/barbershop/chair-rent.service.ts). Amounts in minor units, moments as integers.
 */
module RentLedger {
  import opened Prelude
  import opened Sums

  datatype Status = Due | Failed | Succeeded

  datatype Method = ByCard | Cash | Pix | Transfer | Other

  /** A dues row is unique by its date, a card row by its Stripe invoice. */
  datatype Key = OfDue(date: int) | OfInvoice(id: nat)

  datatype Payment = Payment(
    amount: nat,
    status: Status,
    paidBy: Method,
    paidAt: Option<int>,
    notes: Option<string>,
    recordedBy: Option<nat>,
    session: Option<nat>,       // cashSessionId
    expense: Option<nat>,       // memberExpenseId
    refunded: Option<nat>,      // refundedAmount
    periodStart: Option<int>,
    periodEnd: Option<int>)

  /** `off` are the rows whose booking was not completed, `orphans` the expenses no row got to know. */
  datatype Ledger = Ledger(
    rows: map<Key, Payment>,
    expenses: map<nat, nat>,
    next: nat,
    paidUntil: Option<int>,
    off: set<Key>,
    orphans: set<nat>)

  const EMPTY := Ledger(map[], map[], 0, None, {}, {})

  /** What becomes of the expense: booked on the row, not written (or no known owner), or written and not linked. */
  datatype Fate = Booked | NotWritten | NotLinked

  datatype Op =
    | AddDue(date: int, amount: nat, until: int)
    | Record(k: Key, paidBy: Method, notes: Option<string>, who: nat, open: Option<nat>, now: int, fate: Fate)
    | Undo(k: Key, closed: set<nat>)
    | Invoice(id: nat, paid: bool, amount: nat, start: Option<int>, end: Option<int>, now: int, fate: Fate)
    | Refund(id: nat, refunded: nat, full: bool, cut: bool)

  function Refunded(r: Payment): nat {
    if r.refunded.Some? then r.refunded.value else 0
  }

  /** What the payment is worth after refunds. */
  function Net(r: Payment): nat {
    if Refunded(r) <= r.amount then r.amount - Refunded(r) else 0
  }

  function Fresh(amount: nat, date: int, until: int): Payment {
    Payment(amount, Due, Other, None, None, None, None, None, None, Some(date), Some(until))
  }

  function PutRow(l: Ledger, k: Key, r: Payment): Ledger {
    l.(rows := l.rows[k := r])
  }

  /** createMemberExpense, and the update that links it (654-665 and 1126-1140). */
  function Book(l: Ledger, k: Key, fate: Fate): Ledger
    requires k in l.rows
  {
    var r := l.rows[k];
    match fate
    case NotWritten => l.(off := l.off + {k})
    case NotLinked =>
      l.(expenses := l.expenses[l.next := r.amount], next := l.next + 1,
         off := l.off + {k}, orphans := l.orphans + {l.next})
    case Booked =>
      PutRow(l, k, r.(expense := Some(l.next)))
        .(expenses := l.expenses[l.next := r.amount], next := l.next + 1)
  }

  predicate CanRecord(l: Ledger, k: Key, paidBy: Method) {
    paidBy != ByCard && k in l.rows && l.rows[k].status == Due
  }

  /** The conditional write of recordPayment (641-652). */
  function RowRecorded(l: Ledger, o: Op): Ledger
    requires o.Record? && o.k in l.rows
  {
    PutRow(l, o.k, l.rows[o.k].(status := Succeeded, paidBy := o.paidBy, paidAt := Some(o.now), notes := o.notes,
                                recordedBy := Some(o.who), session := if o.paidBy == Cash then o.open else None))
  }

  /** recordPayment (615-672). */
  function Recorded(l: Ledger, o: Op): Ledger
    requires o.Record?
  {
    if CanRecord(l, o.k, o.paidBy) then Book(RowRecorded(l, o), o.k, o.fate) else l
  }

  predicate CanUndo(l: Ledger, k: Key, closed: set<nat>) {
    && k in l.rows && l.rows[k].status == Succeeded && l.rows[k].paidBy != ByCard && k.OfDue?
    && (l.rows[k].session.Some? ==> l.rows[k].session.value !in closed)
  }

  /** undoPayment (681-719): the expense and the row in one transaction. */
  function Undone(l: Ledger, k: Key, closed: set<nat>): Ledger {
    if !CanUndo(l, k, closed) then l
    else
      var r := l.rows[k];
      PutRow(l, k, r.(status := Due, paidBy := Other, paidAt := None, notes := None, recordedBy := None,
                      session := None, expense := None))
        .(expenses := if r.expense.Some? then l.expenses - {r.expense.value} else l.expenses, off := l.off - {k})
  }

  /** A paid row stays paid, and a failed one is not failed again. */
  predicate Settles(l: Ledger, k: Key, paid: bool) {
    k !in l.rows || (l.rows[k].status != Succeeded && paid)
  }

  /** The transaction of handleInvoice (1078-1118). */
  function RowInvoiced(l: Ledger, o: Op): Ledger
    requires o.Invoice?
  {
    var k := OfInvoice(o.id);
    var at := if o.paid then Some(o.now) else None;
    var status := if o.paid then Succeeded else Failed;
    var r :=
      if k in l.rows then l.rows[k].(status := status, paidAt := at, amount := o.amount)
      else Payment(o.amount, status, ByCard, at, None, None, None, None, None, o.start, o.end);
    PutRow(l, k, r).(paidUntil := if o.paid && o.end.Some? then o.end else l.paidUntil)
  }

  /** handleInvoice (1069-1140) for an invoice of this rent. */
  function Invoiced(l: Ledger, o: Op): Ledger
    requires o.Invoice?
  {
    var k := OfInvoice(o.id);
    if !Settles(l, k, o.paid) then l
    else if o.paid then Book(RowInvoiced(l, o), k, o.fate)
    else RowInvoiced(l, o)
  }

  predicate Refundable(l: Ledger, k: Key) {
    k in l.rows && l.rows[k].paidBy == ByCard && l.rows[k].status == Succeeded
  }

  /** syncRefund (960-1006); `cut` when it dies after storing the refund. */
  function RefundSynced(l: Ledger, o: Op): Ledger
    requires o.Refund?
  {
    var k := OfInvoice(o.id);
    if !Refundable(l, k) then l
    else
      var r := l.rows[k];
      var value := Min(r.amount, o.refunded);
      if r.refunded.Some? && r.refunded.value >= value then l
      else
        var m := PutRow(l, k, r.(refunded := Some(value)));
        if o.cut then m.(off := l.off + {k})
        else
          var b := Rebooked(m, k);
          if o.full && r.periodStart.Some? && r.periodEnd.Some? && l.paidUntil == r.periodEnd then
            b.(paidUntil := r.periodStart)
          else b
  }

  /** The member's expense follows the refund: what is left, or nothing. */
  function Rebooked(l: Ledger, k: Key): Ledger
    requires k in l.rows
  {
    var r := l.rows[k];
    if r.expense.None? then l
    else
      var m := l.(off := l.off - {k});
      if Net(r) > 0 then
        if r.expense.value in l.expenses then m.(expenses := l.expenses[r.expense.value := Net(r)]) else m
      else PutRow(m, k, r.(expense := None)).(expenses := l.expenses - {r.expense.value})
  }

  function Apply(l: Ledger, o: Op): Ledger {
    match o
    case AddDue(date, amount, until) =>
      if OfDue(date) in l.rows then l else PutRow(l, OfDue(date), Fresh(amount, date, until))
    case Record(_, _, _, _, _, _, _) => Recorded(l, o)
    case Undo(k, closed) => Undone(l, k, closed)
    case Invoice(_, _, _, _, _, _, _) => Invoiced(l, o)
    case Refund(_, _, _, _) => RefundSynced(l, o)
  }

  function After(l: Ledger, ops: seq<Op>): Ledger
    decreases |ops|
  {
    if ops == [] then l else After(Apply(l, ops[0]), ops[1..])
  }

  // ---- row by row ----

  predicate RowOk(l: Ledger, k: Key) {
    k in l.rows ==>
      var r := l.rows[k];
      && Refunded(r) <= r.amount
      && (k.OfInvoice? <==> r.paidBy == ByCard)
      && (k.OfInvoice? ==> r.status != Due)
      && (r.status != Succeeded ==> r.expense.None? && r.refunded.None? && k !in l.off)
      && (k.OfDue? ==> r.refunded.None? && r.periodStart == Some(k.date) && r.periodEnd.Some?)
      && (r.status == Due ==> r == Fresh(r.amount, k.date, Moment(r.periodEnd)))
      && (r.expense.Some? ==> r.expense.value in l.expenses && r.expense.value !in l.orphans)
      && (k !in l.off && r.status == Succeeded ==> BookedFor(l, r) == Net(r))
  }

  function Moment(t: Option<int>): int {
    if t.Some? then t.value else 0
  }

  /** The member's expense for this row, nothing when there is none. */
  function BookedFor(l: Ledger, r: Payment): nat {
    if r.expense.Some? && r.expense.value in l.expenses then l.expenses[r.expense.value] else 0
  }

  predicate Shares(r: Payment, s: Payment) {
    r.expense.Some? && r.expense == s.expense
  }

  ghost predicate Owned(l: Ledger, e: nat) {
    e in l.orphans || exists k :: k in l.rows && l.rows[k].expense == Some(e)
  }

  ghost predicate Inv(l: Ledger) {
    && (forall k :: RowOk(l, k))
    && (forall j, k :: j in l.rows && k in l.rows && Shares(l.rows[j], l.rows[k]) ==> j == k)
    && (forall e: nat :: e in l.expenses ==> e < l.next && Owned(l, e))
    && (forall e: nat :: e in l.orphans ==> e in l.expenses)
    && (forall k :: k in l.off ==> k in l.rows)
  }

  // ---- every operation keeps it ----

  lemma BookKeeps(l: Ledger, k: Key, fate: Fate)
    requires k in l.rows && l.rows[k].status == Succeeded && l.rows[k].expense.None? && l.rows[k].refunded.None?
    requires k.OfInvoice? <==> l.rows[k].paidBy == ByCard
    requires Inv(PutRow(l, k, l.rows[k].(amount := 0))) && k !in l.off
    ensures Inv(Book(l, k, fate))
  {
    var z := PutRow(l, k, l.rows[k].(amount := 0));
    var v := Book(l, k, fate);
    forall j ensures RowOk(v, j) { assert RowOk(z, j); }
    forall e: nat | e in v.expenses ensures e < v.next && Owned(v, e) {
      if e in l.expenses {
        assert Owned(z, e);
        if e !in l.orphans {
          var j :| j in z.rows && z.rows[j].expense == Some(e);
          assert v.rows[j].expense == Some(e);
        }
      } else if fate == Booked {
        assert v.rows[k].expense == Some(e);
      }
    }
    forall i, j | i in v.rows && j in v.rows && Shares(v.rows[i], v.rows[j]) ensures i == j {
      assert RowOk(z, i) && RowOk(z, j);
      assert Shares(z.rows[i], z.rows[j]) || i == j;
    }
  }

  /** A row that books nothing, put in place of one that booked nothing. */
  lemma PutKeeps(l: Ledger, k: Key, r: Payment, off: set<Key>, until: Option<int>)
    requires Inv(l) && r.expense.None? && (k in l.rows ==> l.rows[k].expense.None?)
    requires off - {k} == l.off - {k} && RowOk(PutRow(l, k, r).(off := off), k)
    ensures Inv(PutRow(l, k, r).(off := off, paidUntil := until))
  {
    var v := PutRow(l, k, r).(off := off, paidUntil := until);
    forall j ensures RowOk(v, j) {
      assert RowOk(l, j) && RowOk(PutRow(l, k, r).(off := off), k);
      assert j != k ==> (j in off <==> j in l.off) by { assert j != k ==> (j in off - {k} <==> j in l.off - {k}); }
    }
    forall e: nat | e in v.expenses ensures Owned(v, e) {
      assert Owned(l, e);
      if e !in l.orphans {
        var j :| j in l.rows && l.rows[j].expense == Some(e);
        assert v.rows[j].expense == Some(e);
      }
    }
    forall i, j | i in v.rows && j in v.rows && Shares(v.rows[i], v.rows[j]) ensures i == j {
      assert Shares(l.rows[i], l.rows[j]);
    }
    forall j | j in v.off ensures j in v.rows {
      assert j != k ==> j in l.off - {k} by { assert j != k ==> j in off - {k}; }
    }
  }

  /** A booked row and its expense change together. */
  lemma ChangeKeeps(l: Ledger, k: Key, r: Payment, x: nat, off: set<Key>, until: Option<int>)
    requires Inv(l) && k in l.rows && r.expense.Some? && r.expense == l.rows[k].expense
    requires off - {k} == l.off - {k}
    requires RowOk(PutRow(l, k, r).(off := off, expenses := l.expenses[r.expense.value := x]), k)
    ensures Inv(PutRow(l, k, r).(off := off, expenses := l.expenses[r.expense.value := x], paidUntil := until))
  {
    var v := PutRow(l, k, r).(off := off, expenses := l.expenses[r.expense.value := x], paidUntil := until);
    assert RowOk(l, k);
    forall j ensures RowOk(v, j) {
      assert RowOk(l, j) && RowOk(PutRow(l, k, r).(off := off, expenses := l.expenses[r.expense.value := x]), k);
      assert j != k ==> (j in off <==> j in l.off) by { assert j != k ==> (j in off - {k} <==> j in l.off - {k}); }
      if j in l.rows && j != k { assert !Shares(l.rows[j], l.rows[k]); }
    }
    forall e: nat | e in v.expenses ensures e < v.next && Owned(v, e) {
      assert e in l.expenses && Owned(l, e);
      if e !in l.orphans {
        var j :| j in l.rows && l.rows[j].expense == Some(e);
        assert v.rows[j].expense == Some(e);
      }
    }
    forall i, j | i in v.rows && j in v.rows && Shares(v.rows[i], v.rows[j]) ensures i == j {
      assert Shares(l.rows[i], l.rows[j]);
    }
    forall j | j in v.off ensures j in v.rows {
      assert j != k ==> j in l.off - {k} by { assert j != k ==> j in off - {k}; }
    }
  }

  lemma RecordKeeps(l: Ledger, o: Op)
    requires Inv(l) && o.Record?
    ensures Inv(Recorded(l, o))
  {
    if CanRecord(l, o.k, o.paidBy) {
      assert RowOk(l, o.k);
      var r := l.rows[o.k].(status := Succeeded, paidBy := o.paidBy, paidAt := Some(o.now), notes := o.notes,
                            recordedBy := Some(o.who), session := if o.paidBy == Cash then o.open else None);
      PutKeeps(l, o.k, r.(amount := 0), l.off, l.paidUntil);
      assert PutRow(PutRow(l, o.k, r), o.k, r.(amount := 0)) == PutRow(l, o.k, r.(amount := 0));
      BookKeeps(PutRow(l, o.k, r), o.k, o.fate);
    }
  }

  lemma InvoiceKeeps(l: Ledger, o: Op)
    requires Inv(l) && o.Invoice?
    ensures Inv(Invoiced(l, o))
  {
    var k := OfInvoice(o.id);
    if Settles(l, k, o.paid) {
      assert RowOk(l, k);
      var at := if o.paid then Some(o.now) else None;
      var status := if o.paid then Succeeded else Failed;
      var r :=
        if k in l.rows then l.rows[k].(status := status, paidAt := at, amount := o.amount)
        else Payment(o.amount, status, ByCard, at, None, None, None, None, None, o.start, o.end);
      var until := if o.paid && o.end.Some? then o.end else l.paidUntil;
      var m := PutRow(l, k, r).(paidUntil := until);
      PutKeeps(l, k, r.(amount := 0), l.off, until);
      if o.paid {
        assert PutRow(m, k, r.(amount := 0)) == PutRow(l, k, r.(amount := 0)).(paidUntil := until);
        BookKeeps(m, k, o.fate);
      } else {
        PutKeeps(l, k, r, l.off, until);
      }
    }
  }

  /** Dropping the expense a row books, with the row's link. */
  lemma DropKeeps(l: Ledger, k: Key, r: Payment, until: Option<int>)
    requires Inv(l) && k in l.rows && l.rows[k].expense.Some? && r.expense.None?
    requires RowOk(PutRow(l, k, r).(off := l.off - {k}), k)
    ensures Inv(PutRow(l, k, r)
      .(expenses := l.expenses - {l.rows[k].expense.value}, off := l.off - {k}, paidUntil := until))
  {
    var gone := l.rows[k].expense.value;
    var v := PutRow(l, k, r).(expenses := l.expenses - {gone}, off := l.off - {k}, paidUntil := until);
    assert RowOk(l, k);
    forall j ensures RowOk(v, j) {
      assert RowOk(l, j);
      if j in l.rows && j != k { assert !Shares(l.rows[j], l.rows[k]); }
    }
    forall e: nat | e in v.expenses ensures e < v.next && Owned(v, e) {
      assert Owned(l, e);
      if e !in l.orphans {
        var j :| j in l.rows && l.rows[j].expense == Some(e);
        assert v.rows[j].expense == Some(e);
      }
    }
    forall i, j | i in v.rows && j in v.rows && Shares(v.rows[i], v.rows[j]) ensures i == j {
      assert Shares(l.rows[i], l.rows[j]);
    }
  }

  lemma UndoKeeps(l: Ledger, k: Key, closed: set<nat>)
    requires Inv(l)
    ensures Inv(Undone(l, k, closed))
  {
    if CanUndo(l, k, closed) {
      assert RowOk(l, k);
      var r := l.rows[k];
      var d := r.(status := Due, paidBy := Other, paidAt := None, notes := None, recordedBy := None,
                  session := None, expense := None);
      UndoneIsFresh(l, k);
      if r.expense.Some? {
        DropKeeps(l, k, d, l.paidUntil);
      } else {
        PutKeeps(l, k, d, l.off - {k}, l.paidUntil);
      }
    }
  }

  /** The columns recording never touches are still those of a new dues row. */
  lemma UndoneIsFresh(l: Ledger, k: Key)
    requires Inv(l) && k in l.rows && k.OfDue?
    ensures l.rows[k].periodStart == Some(k.date) && l.rows[k].periodEnd.Some? && l.rows[k].refunded.None?
  {
    assert RowOk(l, k);
  }

  lemma RefundKeeps(l: Ledger, o: Op)
    requires Inv(l) && o.Refund?
    ensures Inv(RefundSynced(l, o))
  {
    var k := OfInvoice(o.id);
    assert RowOk(l, k);
    var v := RefundSynced(l, o);
    if v != l {
      var r := l.rows[k].(refunded := Some(Min(l.rows[k].amount, o.refunded)));
      if r.expense.None? {
        PutKeeps(l, k, r, if o.cut then l.off + {k} else l.off, v.paidUntil);
      } else if o.cut {
        ChangeKeeps(l, k, r, l.expenses[r.expense.value], l.off + {k}, v.paidUntil);
        assert l.expenses[r.expense.value := l.expenses[r.expense.value]] == l.expenses;
      } else if Net(r) > 0 {
        ChangeKeeps(l, k, r, Net(r), l.off - {k}, v.paidUntil);
      } else {
        DropKeeps(l, k, r.(expense := None), v.paidUntil);
        assert PutRow(PutRow(l, k, r), k, r.(expense := None)) == PutRow(l, k, r.(expense := None));
      }
    }
  }

  lemma ApplyKeeps(l: Ledger, o: Op)
    requires Inv(l)
    ensures Inv(Apply(l, o))
  {
    match o
    case AddDue(date, amount, until) =>
      if OfDue(date) !in l.rows { PutKeeps(l, OfDue(date), Fresh(amount, date, until), l.off, l.paidUntil); }
    case Record(_, _, _, _, _, _, _) => RecordKeeps(l, o);
    case Undo(k, closed) => UndoKeeps(l, k, closed);
    case Invoice(_, _, _, _, _, _, _) => InvoiceKeeps(l, o);
    case Refund(_, _, _, _) => RefundKeeps(l, o);
  }
}
