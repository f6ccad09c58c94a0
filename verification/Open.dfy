// Totals over the payouts and bills that have not been refunded, and what each
// step does to them. The daily cap, the free slots and the reconciliation are
// all such totals, of a different column.
module Open {
  import opened Sums
  import opened Ledger
  import opened Machine
  import opened Safety

  // A figure read off the columns that never change.
  ghost predicate ReadsColumns(v: Txn -> int) {
    forall t, u :: SameIdentity(t, u) && t.walletId == u.walletId ==> v(t) == v(u)
  }

  predicate IsOpen(rows: seq<Txn>, t: Txn) { IsOutgoing(t) && !Refunded(rows, t) }

  function OpenAt(rows: seq<Txn>, v: Txn -> int): nat -> int {
    (i: nat) => if i < |rows| && IsOpen(rows, rows[i]) then v(rows[i]) else 0
  }

  function OpenTotal(rows: seq<Txn>, v: Txn -> int): int {
    SumTo(|rows|, OpenAt(rows, v))
  }

  // The figure of a row at the end of the table.
  lemma LastInOpen(rows: seq<Txn>, n: nat, v: Txn -> int)
    requires |rows| == n + 1 && !Refunded(rows, rows[n])
    ensures OpenAt(rows, v)(n) == if IsOutgoing(rows[n]) then v(rows[n]) else 0
  {
    assert IsOpen(rows, rows[n]) <==> IsOutgoing(rows[n]);
  }

  lemma AppendToOpen(rows: seq<Txn>, t: Txn, v: Txn -> int)
    requires RefundsHaveOrigins(rows) && !ReferenceTaken(rows, t.provider, t.reference)
    requires !t.kind.Reversal?
    ensures OpenTotal(rows + [t], v) == OpenTotal(rows, v) + (if IsOutgoing(t) then v(t) else 0)
  {
    var rows' := rows + [t];
    forall i: nat | i < |rows| ensures OpenAt(rows, v)(i) == OpenAt(rows', v)(i) {
      AppendKeepsRefunded(rows, t, rows[i]);
    }
    SumSame(|rows|, OpenAt(rows, v), OpenAt(rows', v));
    FreshRowIsNotRefunded(rows, t);
    AppendKeepsRefunded(rows, t, t);
    assert rows'[|rows|] == t;
    LastInOpen(rows', |rows|, v);
    SumLast(|rows|, OpenAt(rows', v));
  }

  lemma RewriteInOpen(rows: seq<Txn>, i: nat, u: Txn, v: Txn -> int)
    requires i < |rows| && SameIdentity(rows[i], u) && ReadsColumns(v)
    requires IsOutgoing(u) ==> u.walletId == rows[i].walletId
    ensures OpenTotal(rows[i := u], v) == OpenTotal(rows, v)
  {
    var rows' := rows[i := u];
    forall k: nat | k < |rows| ensures OpenAt(rows, v)(k) == OpenAt(rows', v)(k) {
      RewriteKeepsRefunded(rows, i, u, rows[k]);
      assert Refunded(rows', rows'[k]) <==> Refunded(rows', rows[k]);
    }
    SumSame(|rows|, OpenAt(rows, v), OpenAt(rows', v));
  }

  lemma RefundFromOpen(rows: seq<Txn>, i: nat, r: Txn, v: Txn -> int)
    requires UniqueReferences(rows) && i < |rows| && ReadsColumns(v)
    requires IsOrigin(rows[i], r) && IsOpen(rows, rows[i])
    ensures OpenTotal(AfterRefund(rows, i, r), v) == OpenTotal(rows, v) - v(rows[i])
  {
    var rows1 := rows + [r];
    forall k: nat | k < |rows| ensures OpenAt(rows1, v)(k) == if k == i then 0 else OpenAt(rows, v)(k) {
      RefundReachesOneRow(rows, i, r, k);
    }
    SumDiff(|rows|, i, OpenAt(rows, v), OpenAt(rows1, v));
    assert OpenTotal(rows1, v) == SumTo(|rows|, OpenAt(rows1, v)) + 0;
    RewriteInOpen(rows1, i, rows1[i].(status := Failed), v);
    assert AfterRefund(rows, i, r) == rows1[i := rows1[i].(status := Failed)];
  }

  // ---- Step by step ----------------------------------------------------------

  predicate PayoutCommits(w: World, s: Step) {
    s.InitiatePayout? && s.thread !in w.threads && PayoutRefusal(w.db, s.payout).None?
  }

  predicate BillCommits(w: World, s: Step) {
    s.PayBill? && s.thread !in w.threads && BillRefusal(w.db, s.bill).None?
  }

  predicate RefundCommits(w: World, s: Step) {
    s.CommitReversal? && s.thread in w.threads && w.threads[s.thread].Reversing?
    && RefundRefusal(w.db, w.threads[s.thread].txn).None?
  }

  lemma BookedInOpen(d: Db, row: Txn, v: Txn -> int)
    requires RefundsHaveOrigins(d.rows) && ReadsColumns(v) && IsOutgoing(row)
    requires row.walletId.Some? && row.walletId.value < |d.wallets|
    requires !ReferenceTaken(d.rows, row.provider, row.reference)
    ensures OpenTotal(Book(d, row).rows, v) == OpenTotal(d.rows, v) + v(row)
  {
    var booked := Book(d, row).rows[|d.rows|];
    AppendToOpen(d.rows, booked, v);
    assert SameIdentity(row, booked);
  }

  lemma PayoutInOpen(w: World, s: Step, v: Txn -> int)
    requires RefundsHaveOrigins(w.db.rows) && ReadsColumns(v) && PayoutCommits(w, s)
    ensures OpenTotal(Apply(w, s).db.rows, v) == OpenTotal(w.db.rows, v) + v(PayoutRow(w.db, s.payout))
  {
    BookedInOpen(w.db, PayoutRow(w.db, s.payout), v);
  }

  lemma BillInOpen(w: World, s: Step, v: Txn -> int)
    requires RefundsHaveOrigins(w.db.rows) && ReadsColumns(v) && BillCommits(w, s)
    ensures OpenTotal(Apply(w, s).db.rows, v) == OpenTotal(w.db.rows, v) + v(BillRow(s.bill))
  {
    BookedInOpen(w.db, BillRow(s.bill), v);
  }

  lemma UnrefusedIsOpen(d: Db, i: nat)
    requires i < |d.rows| && IsOutgoing(d.rows[i]) && RefundRefusal(d, i).None?
    ensures IsOpen(d.rows, d.rows[i])
  {
  }

  lemma RefundStep(w: World, s: Step)
    requires RefundCommits(w, s)
    ensures Apply(w, s).db == RefundTx(w.db, w.threads[s.thread].txn, s.now)
  {
  }

  lemma RefundInOpen(w: World, s: Step, v: Txn -> int)
    requires Inv(w) && ReadsColumns(v) && RefundCommits(w, s)
    ensures w.threads[s.thread].txn < |w.db.rows|
    ensures OpenTotal(Apply(w, s).db.rows, v)
         == OpenTotal(w.db.rows, v) - v(w.db.rows[w.threads[s.thread].txn])
  {
    var i := w.threads[s.thread].txn;
    assert PcOk(w.db.rows, w.answers, w.threads[s.thread]);
    assert ShapeOk(w.db.rows[i]);
    RefundStep(w, s);
    var r := RefundTxRows(w.db, i, s.now);
    UnrefusedIsOpen(w.db, i);
    RefundFromOpen(w.db.rows, i, r, v);
  }

  lemma CreditsLeaveOpen(w: World, s: Step, v: Txn -> int)
    requires RefundsHaveOrigins(w.db.rows) && (s.RecordPayin? || s.Post?)
    ensures OpenTotal(Apply(w, s).db.rows, v) == OpenTotal(w.db.rows, v)
  {
    var w' := Apply(w, s);
    if w'.db.rows != w.db.rows {
      AppendToOpen(w.db.rows, w'.db.rows[|w.db.rows|], v);
    }
  }

  lemma JobsLeaveOpen(w: World, s: Step, v: Txn -> int)
    requires JobsOk(w) && ReadsColumns(v) && (s.JobMark? || s.JobCredit? || s.JobExhausted?)
    ensures OpenTotal(Apply(w, s).db.rows, v) == OpenTotal(w.db.rows, v)
  {
    var w' := Apply(w, s);
    if w'.db.rows != w.db.rows {
      assert JobOk(w.db.rows, s.txn, w.jobs[s.txn]);
      RewriteInOpen(w.db.rows, s.txn, w'.db.rows[s.txn], v);
    }
  }

  lemma AssignmentLeavesOpen(w: World, s: Step, v: Txn -> int)
    requires ParkedOk(w) && ReadsColumns(v) && s.Assign?
    ensures OpenTotal(Apply(w, s).db.rows, v) == OpenTotal(w.db.rows, v)
  {
    var w' := Apply(w, s);
    if w'.db.rows != w.db.rows {
      assert s.txn in w.parked;
      RewriteInOpen(w.db.rows, s.txn, w'.db.rows[s.txn], v);
    }
  }

  lemma SuccessLeavesOpen(w: World, s: Step, v: Txn -> int)
    requires ReadsColumns(v) && s.WriteSuccess?
    ensures OpenTotal(Apply(w, s).db.rows, v) == OpenTotal(w.db.rows, v)
  {
    var w' := Apply(w, s);
    if w'.db.rows != w.db.rows {
      var i := w.threads[s.thread].txn;
      RewriteInOpen(w.db.rows, i, w'.db.rows[i], v);
    }
  }

  // The steps that touch no row, as when they are not possible.
  lemma IdleStep(w: World, s: Step)
    requires !PayoutCommits(w, s) && !BillCommits(w, s) && !RefundCommits(w, s)
    requires !s.RecordPayin? && !s.Post? && !s.JobMark? && !s.JobCredit? && !s.JobExhausted?
    requires !s.Assign? && !s.WriteSuccess?
    ensures Apply(w, s).db.rows == w.db.rows
  {
  }

  // Payouts and bills add to the total, committed refunds take their row out of
  // it, and nothing else changes it.
  lemma StepInOpen(w: World, s: Step, v: Txn -> int)
    requires Inv(w) && ReadsColumns(v)
    ensures RefundCommits(w, s) ==> w.threads[s.thread].txn < |w.db.rows|
    ensures OpenTotal(Apply(w, s).db.rows, v) == OpenTotal(w.db.rows, v)
              + (if PayoutCommits(w, s) then v(PayoutRow(w.db, s.payout))
                 else if BillCommits(w, s) then v(BillRow(s.bill))
                 else if RefundCommits(w, s) then -v(w.db.rows[w.threads[s.thread].txn])
                 else 0)
  {
    if PayoutCommits(w, s) {
      PayoutInOpen(w, s, v);
    } else if BillCommits(w, s) {
      BillInOpen(w, s, v);
    } else if RefundCommits(w, s) {
      RefundInOpen(w, s, v);
    } else if s.RecordPayin? || s.Post? {
      CreditsLeaveOpen(w, s, v);
    } else if s.JobMark? || s.JobCredit? || s.JobExhausted? {
      JobsLeaveOpen(w, s, v);
    } else if s.Assign? {
      AssignmentLeavesOpen(w, s, v);
    } else if s.WriteSuccess? {
      SuccessLeavesOpen(w, s, v);
    } else {
      IdleStep(w, s);
    }
  }
}
