/** What the rent ledger promises over every sequence of operations, failed bookings included. */
module RentLedgerTheorems {
  import opened Prelude
  import opened Sums
  import opened RentLedger

  lemma {:induction false} RunKeeps(l: Ledger, ops: seq<Op>)
    requires Inv(l)
    ensures Inv(After(l, ops))
    decreases |ops|
  {
    if ops != [] {
      ApplyKeeps(l, ops[0]);
      RunKeeps(Apply(l, ops[0]), ops[1..]);
    }
  }

  /**
   Row by row, after any operations: the member's expense for a paid row is what the row is
   worth after refunds, unless its booking was cut short; and no two rows share an expense.
   */
  lemma RowsAreBooked(ops: seq<Op>, k: Key)
    requires k in After(EMPTY, ops).rows
    ensures var l := After(EMPTY, ops); var r := l.rows[k];
      && (r.status == Succeeded && k !in l.off ==> BookedFor(l, r) == Net(r) && (r.expense.None? ==> Net(r) == 0))
      && (r.status != Succeeded ==> r.expense.None?)
      && (forall j :: j in l.rows && j != k ==> !Shares(l.rows[j], r))
  {
    RunKeeps(EMPTY, ops);
    var l := After(EMPTY, ops);
    assert RowOk(l, k);
  }

  // ---- the totals ----

  /** Booked rows pair up with the expenses, and the others are worth nothing. */
  ghost predicate Paired(nets: map<Key, nat>, booked: map<Key, nat>, expenses: map<nat, nat>) {
    && (forall k :: k in booked ==> k in nets && booked[k] in expenses && expenses[booked[k]] == nets[k])
    && (forall j, k :: j in booked && k in booked && booked[j] == booked[k] ==> j == k)
    && (forall e: nat :: e in expenses ==> exists k :: k in booked && booked[k] == e)
    && (forall k :: k in nets && k !in booked ==> nets[k] == 0)
  }

  lemma {:induction false} PairedTotals(nets: map<Key, nat>, booked: map<Key, nat>, expenses: map<nat, nat>)
    requires Paired(nets, booked, expenses)
    ensures Total(expenses) == Total(nets)
    decreases |nets|
  {
    if nets == map[] {
      assert forall k :: k !in booked;
      assert forall e: nat :: e !in expenses;
      assert expenses == map[];
    } else {
      var k :| k in nets;
      TotalWithout(nets, k);
      if k in booked {
        var e := booked[k];
        TotalWithout(expenses, e);
        forall d: nat | d in expenses - {e} ensures exists j :: j in booked - {k} && (booked - {k})[j] == d {
          var j :| j in booked && booked[j] == d;
          assert (booked - {k})[j] == d;
        }
        PairedTotals(nets - {k}, booked - {k}, expenses - {e});
      } else {
        PairedTotals(nets - {k}, booked, expenses);
      }
    }
  }

  ghost function Nets(l: Ledger): map<Key, nat> {
    map k | k in l.rows && l.rows[k].status == Succeeded :: Net(l.rows[k])
  }

  ghost function Bookings(l: Ledger): map<Key, nat> {
    map k | k in l.rows && l.rows[k].expense.Some? :: l.rows[k].expense.value
  }

  lemma BooksBalance(l: Ledger)
    requires Inv(l) && l.off == {} && l.orphans == {}
    ensures Total(l.expenses) == Total(Nets(l))
  {
    var booked := Bookings(l);
    var nets := Nets(l);
    forall k | k in booked ensures k in nets && booked[k] in l.expenses && l.expenses[booked[k]] == nets[k] {
      assert RowOk(l, k);
    }
    forall k | k in nets && k !in booked ensures nets[k] == 0 { assert RowOk(l, k); }
    forall j, k | j in booked && k in booked && booked[j] == booked[k] ensures j == k {
      assert Shares(l.rows[j], l.rows[k]);
    }
    forall e: nat | e in l.expenses ensures exists k :: k in booked && booked[k] == e {
      assert Owned(l, e);
      var k :| k in l.rows && l.rows[k].expense == Some(e);
      assert booked[k] == e;
    }
    PairedTotals(nets, booked, l.expenses);
  }

  predicate Smooth(o: Op) {
    (o.Record? || o.Invoice? ==> o.fate == Booked) && (o.Refund? ==> !o.cut)
  }

  lemma {:induction false} SmoothRunsMissNothing(l: Ledger, ops: seq<Op>)
    requires l.off == {} && l.orphans == {} && forall o :: o in ops ==> Smooth(o)
    ensures After(l, ops).off == {} && After(l, ops).orphans == {}
    decreases |ops|
  {
    if ops != [] {
      assert Smooth(ops[0]);
      SmoothRunsMissNothing(Apply(l, ops[0]), ops[1..]);
    }
  }

  /**
   Conservation: with the owner known and the writes going through, after any sequence of dues,
   payments, undos, invoices and refunds the member's rent expenses add up to what the paid
   rows are worth after refunds.
   */
  lemma LedgerConserved(ops: seq<Op>)
    requires forall o :: o in ops ==> Smooth(o)
    ensures Total(After(EMPTY, ops).expenses) == Total(Nets(After(EMPTY, ops)))
  {
    RunKeeps(EMPTY, ops);
    SmoothRunsMissNothing(EMPTY, ops);
    BooksBalance(After(EMPTY, ops));
  }

  // ---- record and undo ----

  /** A recorded payment is paid, worth its amount, and booked for it; nothing else changes. */
  lemma RecordPays(l: Ledger, o: Op, k: Key)
    requires Inv(l) && o.Record? && CanRecord(l, o.k, o.paidBy) && o.fate == Booked
    ensures var v := Recorded(l, o);
      && v.rows.Keys == l.rows.Keys && v.rows[o.k].status == Succeeded && v.rows[o.k].paidBy == o.paidBy
      && v.rows[o.k].paidAt == Some(o.now) && v.rows[o.k].notes == o.notes && v.rows[o.k].recordedBy == Some(o.who)
      && (v.rows[o.k].session.Some? <==> o.paidBy == Cash && o.open.Some?)
      && (v.rows[o.k].session.Some? ==> v.rows[o.k].session == o.open)
      && Net(v.rows[o.k]) == l.rows[o.k].amount == BookedFor(v, v.rows[o.k])
      && Total(v.expenses) == Total(l.expenses) + l.rows[o.k].amount
      && (k in l.rows && k != o.k ==> v.rows[k] == l.rows[k])
  {
    assert RowOk(l, o.k) && l.next !in l.expenses;
    TotalPut(l.expenses, l.next, l.rows[o.k].amount);
    assert l.expenses - {l.next} == l.expenses;
  }

  /** Undoing a payment just recorded restores the ledger, however its booking ended; only an unlinked expense stays. */
  lemma RecordThenUndo(l: Ledger, o: Op, closed: set<nat>)
    requires Inv(l) && o.Record? && CanRecord(l, o.k, o.paidBy)
    requires o.paidBy == Cash && o.open.Some? ==> o.open.value !in closed
    ensures Undone(Recorded(l, o), o.k, closed) ==
      match o.fate
      case Booked => l.(next := l.next + 1)
      case NotWritten => l
      case NotLinked =>
        l.(next := l.next + 1, expenses := l.expenses[l.next := l.rows[o.k].amount], orphans := l.orphans + {l.next})
  {
    assert RowOk(l, o.k);
    var v := Recorded(l, o);
    var u := Undone(v, o.k, closed);
    assert CanUndo(v, o.k, closed);
    assert u.rows[o.k] == l.rows[o.k];
    assert u.rows == l.rows;
    assert l.off + {o.k} - {o.k} == l.off && l.off - {o.k} == l.off;
    if o.fate == Booked {
      assert l.next !in l.expenses;
      assert l.expenses[l.next := l.rows[o.k].amount] - {l.next} == l.expenses;
    }
  }

  /** A second click records nothing, and a payment by card or in a closed session is not undone. */
  lemma RecordedOnce(l: Ledger, o: Op, p: Op, closed: set<nat>)
    requires Inv(l) && o.Record? && p.Record? && p.k == o.k && CanRecord(l, o.k, o.paidBy)
    ensures Recorded(Recorded(l, o), p) == Recorded(l, o)
    ensures o.paidBy == Cash && o.open.Some? && o.open.value in closed ==>
      Undone(Recorded(l, o), o.k, closed) == Recorded(l, o)
    ensures forall k | k in l.rows && k.OfInvoice? :: Undone(l, k, closed) == l
  {
    forall k | k in l.rows && k.OfInvoice? ensures Undone(l, k, closed) == l { assert RowOk(l, k); }
  }

  // ---- one invoice, delivered in any order ----

  predicate Deliveries(ops: seq<Op>, id: nat) {
    forall o :: o in ops ==> o.Invoice? && o.id == id
  }

  /** The first paid delivery. */
  function FirstPaid(ops: seq<Op>): (r: Option<Op>)
    requires forall o :: o in ops ==> o.Invoice?
    ensures r.None? <==> forall o :: o in ops ==> !o.paid
    ensures r.Some? ==> r.value in ops && r.value.Invoice? && r.value.paid
  {
    if ops == [] then None
    else if ops[0].paid then Some(ops[0])
    else FirstPaid(ops[1..])
  }

  lemma {:induction false} InvoiceFoldFrom(l: Ledger, ops: seq<Op>, id: nat)
    requires Deliveries(ops, id) && OfInvoice(id) in l.rows && l.rows[OfInvoice(id)].status != Due
    ensures After(l, ops) ==
      if l.rows[OfInvoice(id)].status == Succeeded || FirstPaid(ops).None? then l
      else Invoiced(l, FirstPaid(ops).value)
    decreases |ops|
  {
    if ops != [] {
      assert ops[0] in ops;
      InvoiceFoldFrom(Apply(l, ops[0]), ops[1..], id);
    }
  }

  lemma InvoiceFoldIs(l: Ledger, ops: seq<Op>, id: nat)
    requires OfInvoice(id) !in l.rows && Deliveries(ops, id) && ops != []
    ensures ops[0] in ops && ops[0].Invoice?
    ensures After(l, ops) ==
      if FirstPaid(ops).None? || ops[0].paid then Invoiced(l, ops[0])
      else Invoiced(Invoiced(l, ops[0]), FirstPaid(ops).value)
  {
    assert ops[0] in ops;
    InvoiceFoldFrom(Apply(l, ops[0]), ops[1..], id);
  }

  /** What a first paid delivery of an invoice without a paid row leaves. */
  ghost predicate PaidBy(l: Ledger, v: Ledger, o: Op)
    requires o.Invoice?
  {
    var k := OfInvoice(o.id);
    && k in v.rows && v.rows[k].status == Succeeded && v.rows[k].amount == o.amount
    && v.rows[k].paidAt == Some(o.now) && v.rows[k].paidBy == (if k in l.rows then l.rows[k].paidBy else ByCard)
    && v.rows[k].expense == (if o.fate == Booked then Some(l.next) else None)
    && v.expenses == (if o.fate == NotWritten then l.expenses else l.expenses[l.next := o.amount])
    && v.next == (if o.fate == NotWritten then l.next else l.next + 1)
    && v.paidUntil == (if o.end.Some? then o.end else l.paidUntil)
    && forall j :: j in l.rows && j != k ==> j in v.rows && v.rows[j] == l.rows[j]
  }

  lemma PaidDelivery(l: Ledger, o: Op)
    requires o.Invoice? && o.paid && Settles(l, OfInvoice(o.id), true)
    requires OfInvoice(o.id) in l.rows ==> l.rows[OfInvoice(o.id)].expense.None?
    ensures PaidBy(l, Invoiced(l, o), o)
  {
  }

  /** What a failed delivery of an unknown invoice leaves: a failed row, nothing else. */
  lemma FailedDelivery(l: Ledger, o: Op)
    requires o.Invoice? && !o.paid && OfInvoice(o.id) !in l.rows
    ensures var v := Invoiced(l, o); var k := OfInvoice(o.id);
      && k in v.rows && v.rows[k].status == Failed && v.rows[k].amount == o.amount && v.rows[k].expense.None?
      && v == l.(rows := l.rows[k := v.rows[k]])
  {
  }

  /**
   The deliveries of one invoice, in any order and with repeats: the row ends paid exactly when
   some paid event came, with the amount of the first of them and one expense at most.
   */
  lemma InvoiceFold(l: Ledger, ops: seq<Op>, id: nat)
    requires OfInvoice(id) !in l.rows && Deliveries(ops, id)
    ensures var v := After(l, ops); var k := OfInvoice(id);
      && (k in v.rows <==> ops != [])
      && (k in v.rows && v.rows[k].status == Succeeded <==> exists o :: o in ops && o.paid)
      && (FirstPaid(ops).Some? ==> PaidBy(l, v, FirstPaid(ops).value))
      && (FirstPaid(ops).None? && ops != [] ==>
            v.rows[k].status == Failed && v == l.(rows := l.rows[k := v.rows[k]]) && v.rows[k].amount == ops[0].amount)
  {
    if ops != [] {
      InvoiceFoldIs(l, ops, id);
      var o := ops[0];
      if o.paid {
        PaidDelivery(l, o);
      } else {
        FailedDelivery(l, o);
        if FirstPaid(ops).Some? { PaidDelivery(Invoiced(l, o), FirstPaid(ops).value); }
      }
    }
  }

  lemma {:induction false} PeriodStays(l: Ledger, ops: seq<Op>, id: nat)
    requires OfInvoice(id) in l.rows && Deliveries(ops, id)
    ensures var v := After(l, ops); var k := OfInvoice(id);
      k in v.rows && v.rows[k].periodStart == l.rows[k].periodStart && v.rows[k].periodEnd == l.rows[k].periodEnd
    decreases |ops|
  {
    if ops != [] {
      assert ops[0] in ops;
      PeriodStays(Apply(l, ops[0]), ops[1..], id);
    }
  }

  /** The row's period is that of the first delivery, paid or not. */
  lemma PeriodIsTheFirst(l: Ledger, ops: seq<Op>, id: nat)
    requires OfInvoice(id) !in l.rows && Deliveries(ops, id) && ops != []
    ensures ops[0] in ops && ops[0].Invoice?
    ensures var v := After(l, ops); var k := OfInvoice(id);
      k in v.rows && v.rows[k].periodStart == ops[0].start && v.rows[k].periodEnd == ops[0].end
  {
    assert ops[0] in ops;
    PeriodStays(Apply(l, ops[0]), ops[1..], id);
  }

  /** The delivery that decides what the row says: the first paid one, else the first. */
  function Deciding(ops: seq<Op>): (o: Op)
    requires ops != [] && forall o :: o in ops ==> o.Invoice?
    ensures o in ops && o.Invoice?
  {
    if FirstPaid(ops).Some? then FirstPaid(ops).value else ops[0]
  }

  /**
   The order of the deliveries matters to the amount alone, on the row and on its expense, and
   exactly when it puts deliveries of different amounts in the deciding place.
   */
  lemma InvoiceOrderIrrelevant(l: Ledger, ops: seq<Op>, qps: seq<Op>, id: nat)
    requires OfInvoice(id) !in l.rows && Deliveries(ops, id) && Deliveries(qps, id)
    requires multiset(ops) == multiset(qps) && ops != [] && qps != []
    requires forall o :: o in ops && o.paid ==> o.fate == Booked
    ensures var v := After(l, ops); var u := After(l, qps); var k := OfInvoice(id);
      && v.next == u.next && k in v.rows && k in u.rows
      && v.rows[k].status == u.rows[k].status && v.rows[k].expense == u.rows[k].expense
      && (v.rows[k].amount == u.rows[k].amount <==> Deciding(ops).amount == Deciding(qps).amount)
      && (v.expenses == u.expenses <==> FirstPaid(ops).None? || Deciding(ops).amount == Deciding(qps).amount)
  {
    forall o ensures o in ops <==> o in qps { assert o in multiset(ops) <==> o in multiset(qps); }
    InvoiceFold(l, ops, id);
    InvoiceFold(l, qps, id);
    var v, u := After(l, ops), After(l, qps);
    if FirstPaid(ops).Some? {
      assert v.expenses[l.next] == Deciding(ops).amount && u.expenses[l.next] == Deciding(qps).amount;
    } else {
      InvoiceFoldIs(l, ops, id);
      InvoiceFoldIs(l, qps, id);
      FailedDelivery(l, ops[0]);
      FailedDelivery(l, qps[0]);
    }
  }

  /** The paid-until date follows the delivery order: an older invoice paid last moves it back. */
  lemma LateInvoiceMovesPaidUntilBack(l: Ledger, older: Op, newer: Op)
    requires older.Invoice? && newer.Invoice? && older.id != newer.id && older.paid && newer.paid
    requires OfInvoice(older.id) !in l.rows && OfInvoice(newer.id) !in l.rows
    requires older.end.Some? && newer.end.Some? && older.end.value < newer.end.value
    ensures After(l, [older, newer]).paidUntil == newer.end
    ensures After(l, [newer, older]).paidUntil == older.end
  {
    assert [older, newer][1..] == [newer] && [newer, older][1..] == [older];
    assert After(Apply(Apply(l, older), newer), []) == After(Apply(l, older), [newer]);
    assert After(Apply(Apply(l, newer), older), []) == After(Apply(l, newer), [older]);
  }

  // ---- refunds of one invoice ----

  predicate Refunds(ops: seq<Op>, id: nat) {
    forall o :: o in ops ==> o.Refund? && o.id == id && !o.cut
  }

  function Largest(ops: seq<Op>): nat
    requires forall o :: o in ops ==> o.Refund?
  {
    if ops == [] then 0 else Max(ops[0].refunded, Largest(ops[1..]))
  }

  lemma RefundOne(l: Ledger, o: Op)
    requires Inv(l) && o.Refund? && !o.cut && Refundable(l, OfInvoice(o.id))
    ensures var v := RefundSynced(l, o); var k := OfInvoice(o.id); var r := l.rows[k];
      && Inv(v) && Refundable(v, k) && v.rows[k].amount == r.amount && Refunded(r) <= r.amount
      && v.rows[k].refunded == Some(Max(Refunded(r), Min(r.amount, o.refunded)))
      && (k !in l.off ==> k !in v.off)
  {
    RefundKeeps(l, o);
    assert RowOk(l, OfInvoice(o.id));
  }

  /**
   Refund events form a join: whatever their order and repeats, the stored refund is the
   largest one seen, capped at the amount, and the expense is what that leaves.
   */
  lemma {:induction false} RefundsJoin(l: Ledger, ops: seq<Op>, id: nat)
    requires Inv(l) && Refundable(l, OfInvoice(id)) && Refunds(ops, id)
    ensures var v := After(l, ops); var k := OfInvoice(id); var r := l.rows[k];
      && Inv(v) && Refundable(v, k) && v.rows[k].amount == r.amount
      && (ops != [] || r.refunded.Some? ==>
            v.rows[k].refunded == Some(Max(Refunded(r), Min(r.amount, Largest(ops)))))
      && (k !in l.off ==> k !in v.off && BookedFor(v, v.rows[k]) == Net(v.rows[k]))
    decreases |ops|
  {
    assert RowOk(l, OfInvoice(id));
    if ops != [] {
      assert ops[0] in ops;
      RefundOne(l, ops[0]);
      RefundsJoin(Apply(l, ops[0]), ops[1..], id);
    }
  }

  /** Later refund events on a row whose expense was left behind: the first larger one sets it right, the others do nothing. */
  lemma {:induction false} LargerRefundRepairs(l: Ledger, ops: seq<Op>, id: nat)
    requires Inv(l) && Refundable(l, OfInvoice(id)) && Refunds(ops, id)
    requires l.rows[OfInvoice(id)].refunded.Some? && l.rows[OfInvoice(id)].expense.Some?
    ensures var v := After(l, ops); var k := OfInvoice(id); var r := l.rows[k];
      if Min(r.amount, Largest(ops)) > Refunded(r) then Refundable(v, k) && BookedFor(v, v.rows[k]) == Net(v.rows[k])
      else v == l
    decreases |ops|
  {
    assert RowOk(l, OfInvoice(id));
    if ops != [] {
      var k := OfInvoice(id);
      var r := l.rows[k];
      assert ops[0] in ops;
      RefundOne(l, ops[0]);
      if Min(r.amount, ops[0].refunded) > Refunded(r) {
        RefundsJoin(Apply(l, ops[0]), ops[1..], id);
      } else {
        LargerRefundRepairs(l, ops[1..], id);
      }
    }
  }

  /**
   A refund cut after it was stored leaves the expense too high, whatever is redelivered, until a
   larger refund comes: the books are right again exactly when one does, or when the cut event
   had nothing to add.
   */
  lemma CutRefundStays(l: Ledger, o: Op, ops: seq<Op>)
    requires Inv(l) && o.Refund? && o.cut && Refundable(l, OfInvoice(o.id)) && OfInvoice(o.id) !in l.off
    requires Refunds(ops, o.id)
    ensures var v := After(RefundSynced(l, o), ops); var k := OfInvoice(o.id); var r := l.rows[k];
      var stored := Max(Refunded(r), Min(r.amount, o.refunded));
      && Refundable(v, k)
      && (BookedFor(v, v.rows[k]) == Net(v.rows[k]) <==>
            stored == Refunded(r) || Min(r.amount, Largest(ops)) > stored)
  {
    var k := OfInvoice(o.id);
    var r := l.rows[k];
    var m := RefundSynced(l, o);
    assert RowOk(l, k);
    RefundKeeps(l, o);
    assert RowOk(m, k);
    if m == l {
      RefundsJoin(l, ops, o.id);
    } else if r.expense.Some? {
      LargerRefundRepairs(m, ops, o.id);
    } else {
      NoExpenseStays(m, ops, o.id);
    }
  }

  /** A row without an expense gets none from a refund. */
  lemma {:induction false} NoExpenseStays(l: Ledger, ops: seq<Op>, id: nat)
    requires Inv(l) && Refundable(l, OfInvoice(id)) && Refunds(ops, id) && l.rows[OfInvoice(id)].expense.None?
    ensures var v := After(l, ops); var k := OfInvoice(id);
      && Refundable(v, k) && v.rows[k].expense.None? && Net(v.rows[k]) <= Net(l.rows[k])
    decreases |ops|
  {
    assert RowOk(l, OfInvoice(id));
    if ops != [] {
      assert ops[0] in ops;
      RefundOne(l, ops[0]);
      NoExpenseStays(Apply(l, ops[0]), ops[1..], id);
    }
  }

  /**
   A refund event moves the paid-until date exactly when it is full, brings more than the row had,
   and the row's period is the one paid last; then back to where that period began.
   */
  lemma FullRefundReopens(l: Ledger, o: Op)
    requires o.Refund? && !o.cut
    ensures var k := OfInvoice(o.id);
      RefundSynced(l, o).paidUntil ==
        if Refundable(l, k) && o.full && (l.rows[k].refunded.None? || Refunded(l.rows[k]) < Min(l.rows[k].amount, o.refunded))
           && l.rows[k].periodStart.Some? && l.rows[k].periodEnd.Some? && l.paidUntil == l.rows[k].periodEnd
        then l.rows[k].periodStart
        else l.paidUntil
  {
  }

  /** So a full refund of an invoice just paid takes the date back to the start of its period. */
  lemma PaidThenRefunded(l: Ledger, o: Op, q: Op)
    requires o.Invoice? && o.paid && o.start.Some? && o.end.Some? && OfInvoice(o.id) !in l.rows
    requires q.Refund? && q.id == o.id && q.full && !q.cut
    ensures Invoiced(l, o).paidUntil == o.end && RefundSynced(Invoiced(l, o), q).paidUntil == o.start
  {
  }

  /** A new due waits unpaid for its period; one that is there stays. */
  lemma DueIsAdded(l: Ledger, o: Op)
    requires o.AddDue?
    ensures var v := Apply(l, o); var k := OfDue(o.date);
      && k in v.rows && v.expenses == l.expenses && v.paidUntil == l.paidUntil
      && (forall j :: j in l.rows ==> j in v.rows && v.rows[j] == l.rows[j])
      && (k !in l.rows ==>
            && v.rows[k].status == Due && v.rows[k].amount == o.amount && v.rows[k].expense.None?
            && v.rows[k].periodStart == Some(o.date) && v.rows[k].periodEnd == Some(o.until))
  {
  }

  // ---- what comes between a row and its expense ----

  /**
   A payment undone between its row and its expense: the row is due again, and the expense, if it
   was written, stays on the books and on the due row if it was linked.
   */
  lemma UndoneUnderRecord(l: Ledger, o: Op, closed: set<nat>)
    requires Inv(l) && o.Record? && CanRecord(l, o.k, o.paidBy) && CanUndo(RowRecorded(l, o), o.k, closed)
    ensures var v := Undone(RowRecorded(l, o), o.k, closed); o.k in v.rows
    ensures var v := Book(Undone(RowRecorded(l, o), o.k, closed), o.k, o.fate); var r := l.rows[o.k];
      && v.rows[o.k].status == Due && BookedFor(v, v.rows[o.k]) == (if o.fate == Booked then r.amount else 0)
      && Total(v.expenses) == Total(l.expenses) + if o.fate == NotWritten then 0 else r.amount
  {
    assert RowOk(l, o.k) && l.next !in l.expenses;
    TotalPut(l.expenses, l.next, l.rows[o.k].amount);
    assert l.expenses - {l.next} == l.expenses;
  }

  /** A refund between an invoice's row and its expense is never taken off it: right exactly when nothing went back. */
  lemma RefundedUnderInvoice(l: Ledger, o: Op, q: Op)
    requires Inv(l) && o.Invoice? && o.paid && o.fate == Booked && Settles(l, OfInvoice(o.id), true)
    requires q.Refund? && q.id == o.id && !q.cut
    ensures var m := RefundSynced(RowInvoiced(l, o), q); OfInvoice(o.id) in m.rows
    ensures var v := Book(RefundSynced(RowInvoiced(l, o), q), OfInvoice(o.id), o.fate); var r := v.rows[OfInvoice(o.id)];
      && r.status == Succeeded && r.expense == Some(l.next) && BookedFor(v, r) == o.amount
      && (BookedFor(v, r) == Net(r) <==> q.refunded == 0 || o.amount == 0)
  {
    assert RowOk(l, OfInvoice(o.id));
  }
}
