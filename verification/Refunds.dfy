// Payouts and bills that are paid back: once, exactly when they are FAILED, and
// exactly what they took; and what can part FAILED from refunded.
module Refunds {
  import opened Prelude
  import opened Ledger
  import opened Machine
  import opened Safety
  import opened Statements

  // ---- At most one refund ----------------------------------------------------

  lemma RefundRowsCoincide(rows: seq<Txn>, i: nat, j: nat, k: nat)
    requires UniqueReferences(rows) && RefundsHaveOrigins(rows)
    requires i < |rows| && j < |rows| && k < |rows|
    requires IsRefundOf(rows[j], rows[i]) && IsRefundOf(rows[k], rows[i])
    ensures j == k
    ensures rows[j].amount == rows[i].amount + rows[i].fee && rows[j].walletId == rows[i].walletId
  {
    assert HasOrigin(rows, rows[j]);
    var o :| 0 <= o < |rows| && IsOrigin(rows[o], rows[j]);
    RefundReferenceIsInjective(rows[o].reference, rows[i].reference);
  }

  lemma MovingRowHasEntry(d: Db, j: nat)
    requires OneEntryPerMovingRow(d) && j < |d.rows| && Moves(d.rows[j])
    ensures exists e | 0 <= e < |d.journal| :: d.journal[e].txn == j && d.journal[e].delta == Effect(d.rows[j])
  {
    assert HasEntry(d.journal, j);
    var e :| 0 <= e < |d.journal| && d.journal[e].txn == j;
    assert EntryMatchesRow(d.journal[e], d.rows);
  }

  // Two rows that refund one payout or bill are one row; it pays back exactly
  // what was debited, into the same wallet, once.
  lemma AtMostOneRefund(opening: int, run: seq<Step>, i: nat, j: nat, k: nat)
    requires var rows := Exec(opening, run).db.rows;
             && i < |rows| && IsOutgoing(rows[i]) && j < |rows| && k < |rows|
             && IsRefundOf(rows[j], rows[i]) && IsRefundOf(rows[k], rows[i])
    ensures j == k
    ensures var d := Exec(opening, run).db;
            && d.rows[j].amount == d.rows[i].amount + d.rows[i].fee
            && d.rows[j].walletId == d.rows[i].walletId
            && d.rows[j].reference == "REV-" + d.rows[i].reference
            && exists e | 0 <= e < |d.journal| ::
                 d.journal[e].txn == j && d.journal[e].delta == d.rows[i].amount + d.rows[i].fee
  {
    RunKeepsInv(opening, run);
    var d := Exec(opening, run).db;
    assert ShapeOk(d.rows[j]);
    RefundRowsCoincide(d.rows, i, j, k);
    MovingRowHasEntry(d, j);
  }

  // Row `i` was paid back into its wallet by one new row, and marked FAILED.
  predicate PaidBack(d: Db, d': Db, i: nat) {
    && i < |d.rows| && d.rows[i].walletId.Some? && d.rows[i].walletId.value < |d.wallets|
    && d'.wallets == d.wallets[d.rows[i].walletId.value :=
                                 d.wallets[d.rows[i].walletId.value] + d.rows[i].amount + d.rows[i].fee]
    && |d'.rows| == |d.rows| + 1 && |d'.journal| == |d.journal| + 1
    && d'.rows[i] == d.rows[i].(status := Failed)
    && (forall k | 0 <= k < |d.rows| && k != i :: d'.rows[k] == d.rows[k])
    && IsRefundOf(d'.rows[|d.rows|], d.rows[i])
  }

  // Its refund's reference is in use: by its refund, or by anything else.
  predicate RefundTaken(d: Db, i: nat) {
    i < |d.rows| && ReferenceTaken(d.rows, d.rows[i].provider, RefundReference(d.rows[i].reference))
  }

  lemma RefundTxPaysOrNothing(d: Db, i: nat, now: int)
    requires i < |d.rows| && d.rows[i].walletId.Some? && d.rows[i].walletId.value < |d.wallets|
    ensures if RefundTaken(d, i) then RefundTx(d, i, now) == d
            else && PaidBack(d, RefundTx(d, i, now), i) && RefundTaken(RefundTx(d, i, now), i)
                 && RefundTx(d, i, now).rows[|d.rows|].createdAt == now
  {
    if !RefundTaken(d, i) {
      var rows' := RefundTx(d, i, now).rows;
      assert rows'[|d.rows|].provider == d.rows[i].provider
          && rows'[|d.rows|].reference == RefundReference(d.rows[i].reference);
    }
  }

  // Attempts to commit a reversal of row `i`, each by a thread that found the
  // row not final some time ago.
  predicate AreReversalsOf(w: World, attempts: seq<Step>, i: nat) {
    forall s | s in attempts ::
      s.CommitReversal? && (s.thread in w.threads ==> w.threads[s.thread] == Reversing(i))
  }

  predicate AnyCommits(w: World, attempts: seq<Step>) {
    exists s | s in attempts :: s.CommitReversal? && s.thread in w.threads
  }

  lemma OneAttempt(w: World, s: Step, i: nat)
    requires s.CommitReversal? && (s.thread in w.threads ==> w.threads[s.thread] == Reversing(i))
    ensures Apply(w, s).db == if s.thread in w.threads then RefundTx(w.db, i, s.now) else w.db
    ensures Apply(w, s).threads == Drop(w.threads, s.thread)
    ensures s.thread !in w.threads ==> Apply(w, s).threads == w.threads
  {
    assert s.thread !in w.threads ==> Drop(w.threads, s.thread) == w.threads;
  }

  // What `attempts` have led to from `w`.
  predicate PaidOnce(w: World, w': World, attempts: seq<Step>, i: nat) {
    && (forall t | t in w'.threads :: t in w.threads && w'.threads[t] == w.threads[t])
    && (!AnyCommits(w, attempts) ==> w'.threads == w.threads)
    && (if AnyCommits(w, attempts) && !RefundTaken(w.db, i) then PaidBack(w.db, w'.db, i) && RefundTaken(w'.db, i)
        else w'.db == w.db)
  }

  lemma OneMoreAttempt(w: World, w': World, front: seq<Step>, s: Step, i: nat)
    requires i < |w.db.rows| && w.db.rows[i].walletId.Some? && w.db.rows[i].walletId.value < |w.db.wallets|
    requires AreReversalsOf(w, front + [s], i) && PaidOnce(w, w', front, i)
    ensures PaidOnce(w, Apply(w', s), front + [s], i)
  {
    assert s in front + [s];
    OneAttempt(w', s, i);
    AnyOfOneMore(w, front, s);
    if s.thread in w'.threads {
      RefundTxPaysOrNothing(w'.db, i, s.now);
    }
  }

  lemma AnyOfOneMore(w: World, front: seq<Step>, s: Step)
    requires s.CommitReversal?
    ensures AnyCommits(w, front + [s]) <==> AnyCommits(w, front) || s.thread in w.threads
  {
    if AnyCommits(w, front) {
      var r :| r in front && r.CommitReversal? && r.thread in w.threads;
      assert r in front + [s];
    }
    assert s in front + [s];
  }

  lemma NoAttempts(w: World, i: nat)
    ensures PaidOnce(w, w, [], i)
  {
  }

  lemma FewerReversals(w: World, front: seq<Step>, last: Step, i: nat)
    requires AreReversalsOf(w, front + [last], i)
    ensures AreReversalsOf(w, front, i)
  {
    assert forall s | s in front :: s in front + [last];
  }

  lemma {:induction false} AttemptsPayOnce(opening: int, run: seq<Step>, attempts: seq<Step>, i: nat)
    requires var d := Exec(opening, run).db;
             i < |d.rows| && d.rows[i].walletId.Some? && d.rows[i].walletId.value < |d.wallets|
    requires AreReversalsOf(Exec(opening, run), attempts, i)
    ensures PaidOnce(Exec(opening, run), Exec(opening, run + attempts), attempts, i)
  {
    if |attempts| == 0 {
      assert run + attempts == run && attempts == [];
      NoAttempts(Exec(opening, run), i);
    } else {
      var front, last := attempts[..|attempts| - 1], attempts[|attempts| - 1];
      assert front + [last] == attempts;
      FewerReversals(Exec(opening, run), front, last, i);
      AttemptsPayOnce(opening, run, front, i);
      LastStep(opening, run, attempts);
      OneMoreAttempt(Exec(opening, run), Exec(opening, run + front), front, last, i);
    }
  }

  lemma OutgoingHasWallet(opening: int, run: seq<Step>, i: nat)
    requires i < |Exec(opening, run).db.rows| && IsOutgoing(Exec(opening, run).db.rows[i])
    ensures var d := Exec(opening, run).db;
            d.rows[i].walletId.Some? && d.rows[i].walletId.value < |d.wallets|
  {
    RunKeepsInv(opening, run);
    assert ShapeOk(Exec(opening, run).db.rows[i]);
  }

  // Any number of reversals of one payout or bill, through either routine, all
  // of which read a status that was not final: they pay it back once if no row
  // has its refund's reference and at least one of them commits, and change
  // nothing otherwise, wallet credits included.
  lemma ReversalsPayOnce(opening: int, run: seq<Step>, attempts: seq<Step>, i: nat)
    requires i < |Exec(opening, run).db.rows| && IsOutgoing(Exec(opening, run).db.rows[i])
    requires AreReversalsOf(Exec(opening, run), attempts, i)
    ensures var w := Exec(opening, run);
            var d' := Exec(opening, run + attempts).db;
            if AnyCommits(w, attempts) && !RefundTaken(w.db, i) then PaidBack(w.db, d', i) else d' == w.db
  {
    OutgoingHasWallet(opening, run, i);
    AttemptsPayOnce(opening, run, attempts, i);
  }

  // ---- What is taken is what is given back -----------------------------------

  // The step took `cost` from wallet `x` for a new payout or bill.
  predicate Takes(w: World, s: Step, x: nat, cost: int) {
    match s
    case InitiatePayout(t, q) =>
      && t !in w.threads && PayoutRefusal(w.db, q).None? && x == q.wallet
      && cost == q.amount + PayoutCharges(w.db, q.wallet, q.amount, q.clock).total
    case PayBill(t, q) =>
      t !in w.threads && BillRefusal(w.db, q).None? && x == q.wallet && cost == q.amount + q.Fee()
    case _ => false
  }

  lemma TakenRow(w: World, s: Step, x: nat, cost: int)
    requires Takes(w, s, x, cost)
    ensures var d' := Apply(w, s).db;
            && x < |w.db.wallets| && d'.wallets == w.db.wallets[x := w.db.wallets[x] - cost]
            && |d'.rows| == |w.db.rows| + 1 && IsOutgoing(d'.rows[|w.db.rows|])
            && d'.rows[|w.db.rows|].walletId == Some(x)
            && d'.rows[|w.db.rows|].amount + d'.rows[|w.db.rows|].fee == cost
  {
  }

  // What reversals of row `i`, whose columns are those it had in `w0`, do to
  // the wallets.
  predicate GivenBack(w: World, w': World, attempts: seq<Step>, i: nat, x: nat, cost: int) {
    && x < |w.db.wallets|
    && w'.db.wallets == if AnyCommits(w, attempts) && !RefundTaken(w.db, i)
                        then w.db.wallets[x := w.db.wallets[x] + cost] else w.db.wallets
  }

  lemma PaidOnceGivesBack(w0: World, w: World, w': World, attempts: seq<Step>, i: nat, x: nat, cost: int)
    requires i < |w0.db.rows| && w0.db.rows[i].walletId == Some(x)
    requires w0.db.rows[i].amount + w0.db.rows[i].fee == cost
    requires RowsGrow(w0.db.rows, w.db.rows) && x < |w.db.wallets| && PaidOnce(w, w', attempts, i)
    ensures GivenBack(w, w', attempts, i, x, cost)
  {
    assert SameIdentity(w0.db.rows[i], w.db.rows[i]);
  }

  lemma LaterReversals(opening: int, run: seq<Step>, i: nat, x: nat, cost: int, more: seq<Step>, attempts: seq<Step>)
    requires i < |Exec(opening, run).db.rows| && IsOutgoing(Exec(opening, run).db.rows[i])
    requires var t := Exec(opening, run).db.rows[i]; t.walletId == Some(x) && t.amount + t.fee == cost
    requires AreReversalsOf(Exec(opening, run + more), attempts, i)
    ensures GivenBack(Exec(opening, run + more), Exec(opening, run + more + attempts), attempts, i, x, cost)
  {
    RunsOnlyAppend(opening, run, more);
    assert SameIdentity(Exec(opening, run).db.rows[i], Exec(opening, run + more).db.rows[i]);
    OutgoingHasWallet(opening, run + more, i);
    AttemptsPayOnce(opening, run + more, attempts, i);
    PaidOnceGivesBack(Exec(opening, run), Exec(opening, run + more), Exec(opening, run + more + attempts),
                      attempts, i, x, cost);
  }

  // Whatever runs in between, the reversals of a payout or bill give back to
  // its wallet exactly what it took, or nothing.
  lemma RefundGivesBackWhatWasTaken(opening: int, run: seq<Step>, s: Step, x: nat, cost: int,
                                    more: seq<Step>, attempts: seq<Step>)
    requires Takes(Exec(opening, run), s, x, cost)
    requires AreReversalsOf(Exec(opening, run + [s] + more), attempts, |Exec(opening, run).db.rows|)
    ensures x < |Exec(opening, run).db.wallets|
    ensures Exec(opening, run + [s]).db.wallets
         == Exec(opening, run).db.wallets[x := Exec(opening, run).db.wallets[x] - cost]
    ensures GivenBack(Exec(opening, run + [s] + more), Exec(opening, run + [s] + more + attempts), attempts,
                      |Exec(opening, run).db.rows|, x, cost)
  {
    TakenRow(Exec(opening, run), s, x, cost);
    OneStep(opening, run, s);
    LaterReversals(opening, run + [s], |Exec(opening, run).db.rows|, x, cost, more, attempts);
  }

  // ---- Refunded exactly when failed ------------------------------------------

  // The provider never answers both for one payout or bill.
  predicate NeverBoth(answers: set<(nat, Outcome)>) {
    forall a | a in answers && a.1.Succeeded? :: (a.0, Rejected) !in answers
  }

  // Whatever it answered for any other.
  predicate AnsweredBoth(answers: set<(nat, Outcome)>, i: nat) {
    (i, Succeeded) in answers && (i, Rejected) in answers
  }

  lemma FailedExactlyWhenRefunded(opening: int, run: seq<Step>, i: nat)
    requires var w := Exec(opening, run);
             i < |w.db.rows| && IsOutgoing(w.db.rows[i]) && !AnsweredBoth(w.answers, i)
    ensures var rows := Exec(opening, run).db.rows;
            rows[i].status.Failed? <==>
            exists j: nat | j < |rows| ::
              && IsRefundOf(rows[j], rows[i]) && rows[j].amount == rows[i].amount + rows[i].fee
              && forall k: nat | k < |rows| && IsRefundOf(rows[k], rows[i]) :: k == j
  {
    RunKeepsInv(opening, run);
    var w := Exec(opening, run);
    var rows := w.db.rows;
    assert StatusOk(rows, w.answers, i);
    if rows[i].status.Failed? {
      var j :| 0 <= j < |rows| && IsRefundOf(rows[j], rows[i]);
      forall k: nat | k < |rows| && IsRefundOf(rows[k], rows[i]) ensures k == j {
        AtMostOneRefund(opening, run, i, j, k);
      }
      AtMostOneRefund(opening, run, i, j, j);
    } else {
      assert !Refunded(rows, rows[i]);
    }
  }

  // Without that, the one thing that can go wrong is that a success is written
  // over a refunded row: failed and refunded part exactly there.
  lemma OnlyOverwritingSeparatesThem(opening: int, run: seq<Step>, i: nat)
    requires i < |Exec(opening, run).db.rows| && IsOutgoing(Exec(opening, run).db.rows[i])
    ensures var w := Exec(opening, run);
            && ((w.db.rows[i].status.Failed? <==> Refunded(w.db.rows, w.db.rows[i]))
                <==> !(w.db.rows[i].status.Successful? && Refunded(w.db.rows, w.db.rows[i])))
            && (w.db.rows[i].status.Successful? && Refunded(w.db.rows, w.db.rows[i]) ==>
                  (i, Succeeded) in w.answers && (i, Rejected) in w.answers)
  {
    RunKeepsInv(opening, run);
    assert StatusOk(Exec(opening, run).db.rows, Exec(opening, run).answers, i);
  }

  // The step writes row `i` SUCCESSFUL, or commits its refund.
  predicate WritesSuccess(w: World, s: Step, i: nat) {
    && s.WriteSuccess? && s.thread in w.threads && w.threads[s.thread] == Answered(i, Succeeded)
    && i < |w.db.rows|
  }

  predicate RefundsRow(w: World, s: Step, i: nat) {
    && s.CommitReversal? && s.thread in w.threads && w.threads[s.thread] == Reversing(i)
    && RefundRefusal(w.db, i).None?
  }

  predicate Revived(rows: seq<Txn>, i: nat) {
    i < |rows| && rows[i].status.Successful? && Refunded(rows, rows[i])
  }

  // What a step does to a payout or bill, as far as this goes.
  predicate Tracks(w: World, s: Step, i: nat) {
    var rows, rows' := w.db.rows, Apply(w, s).db.rows;
    && i < |rows| && i < |rows'|
    && (Refunded(rows', rows'[i]) <==> Refunded(rows, rows[i]) || RefundsRow(w, s, i))
    && rows'[i].status == (if RefundsRow(w, s, i) then Failed
                           else if WritesSuccess(w, s, i) then Successful else rows[i].status)
  }

  lemma AddingTracks(w: World, s: Step, i: nat)
    requires i < |w.db.rows| && (s.InitiatePayout? || s.PayBill? || s.RecordPayin? || s.Post?)
    ensures Tracks(w, s, i)
  {
    var rows, rows' := w.db.rows, Apply(w, s).db.rows;
    if rows' != rows {
      AppendKeepsRefunded(rows, rows'[|rows|], rows[i]);
    }
  }

  lemma RewrittenRefund(rows: seq<Txn>, k: nat, u: Txn, i: nat)
    requires k < |rows| && i < |rows| && SameIdentity(rows[k], u)
    ensures var rows' := rows[k := u]; Refunded(rows', rows'[i]) <==> Refunded(rows, rows[i])
  {
    RewriteKeepsRefunded(rows, k, u, rows[i]);
    assert Refunded(rows[k := u], rows[k := u][i]) <==> Refunded(rows[k := u], rows[i]);
  }

  lemma JobsTrack(w: World, s: Step, i: nat)
    requires JobsOk(w) && i < |w.db.rows| && IsOutgoing(w.db.rows[i])
    requires s.JobMark? || s.JobCredit? || s.JobExhausted?
    ensures Tracks(w, s, i)
  {
    var rows, rows' := w.db.rows, Apply(w, s).db.rows;
    if rows' != rows {
      assert JobOk(rows, s.txn, w.jobs[s.txn]);
      RewrittenRefund(rows, s.txn, rows'[s.txn], i);
    }
  }

  lemma AssignmentTracks(w: World, s: Step, i: nat)
    requires ParkedOk(w) && i < |w.db.rows| && IsOutgoing(w.db.rows[i]) && s.Assign?
    ensures Tracks(w, s, i)
  {
    var rows, rows' := w.db.rows, Apply(w, s).db.rows;
    if rows' != rows {
      assert s.txn in w.parked;
      RewrittenRefund(rows, s.txn, rows'[s.txn], i);
    }
  }

  lemma SuccessTracks(w: World, s: Step, i: nat)
    requires i < |w.db.rows| && s.WriteSuccess?
    ensures Tracks(w, s, i)
  {
    var rows, rows' := w.db.rows, Apply(w, s).db.rows;
    if rows' != rows {
      var k := w.threads[s.thread].txn;
      RewrittenRefund(rows, k, rows[k].(status := Successful), i);
    }
  }

  lemma RefundTracks(w: World, s: Step, i: nat)
    requires ShapesOk(w.db.rows) && UniqueReferences(w.db.rows) && ThreadsOk(w)
    requires i < |w.db.rows| && s.CommitReversal?
    ensures Tracks(w, s, i)
  {
    if s.thread in w.threads && w.threads[s.thread].Reversing? {
      var k := w.threads[s.thread].txn;
      assert PcOk(w.db.rows, w.answers, w.threads[s.thread]);
      assert Apply(w, s).db == RefundTx(w.db, k, s.now);
      if RefundRefusal(w.db, k).None? {
        assert ShapeOk(w.db.rows[k]);
        var r := RefundTxRows(w.db, k, s.now);
        CommittedRefundTracks(w.db.rows, k, r, i);
      }
    }
  }

  lemma CommittedRefundTracks(rows: seq<Txn>, k: nat, r: Txn, i: nat)
    requires UniqueReferences(rows) && k < |rows| && i < |rows| && IsRefundOf(r, rows[k])
    ensures var rows' := AfterRefund(rows, k, r);
            && (Refunded(rows', rows'[i]) <==> Refunded(rows, rows[i]) || i == k)
            && rows'[i].status == (if i == k then Failed else rows[i].status)
  {
    var u := rows[k].(status := Failed);
    assert AfterRefund(rows, k, r) == (rows + [r])[k := u];
    RewrittenRefund(rows + [r], k, u, i);
    RefundReachesOneRow(rows, k, r, i);
  }

  lemma IdleTracks(w: World, s: Step, i: nat)
    requires i < |w.db.rows|
    requires !s.InitiatePayout? && !s.PayBill? && !s.RecordPayin? && !s.Post? && !s.Assign?
    requires !s.JobMark? && !s.JobCredit? && !s.JobExhausted? && !s.WriteSuccess? && !s.CommitReversal?
    ensures Tracks(w, s, i)
  {
  }

  lemma StepTracks(w: World, s: Step, i: nat)
    requires Inv(w) && i < |w.db.rows| && IsOutgoing(w.db.rows[i])
    ensures Tracks(w, s, i)
  {
    if s.InitiatePayout? || s.PayBill? || s.RecordPayin? || s.Post? {
      AddingTracks(w, s, i);
    } else if s.JobMark? || s.JobCredit? || s.JobExhausted? {
      JobsTrack(w, s, i);
    } else if s.Assign? {
      AssignmentTracks(w, s, i);
    } else if s.WriteSuccess? {
      SuccessTracks(w, s, i);
    } else if s.CommitReversal? {
      RefundTracks(w, s, i);
    } else {
      IdleTracks(w, s, i);
    }
  }

  // The step writes success over row `i` while it is FAILED.
  predicate Overwrites(w: World, s: Step, i: nat) {
    WritesSuccess(w, s, i) && w.db.rows[i].status.Failed?
  }

  lemma RevivedByStep(w: World, s: Step, i: nat)
    requires i < |w.db.rows| && StatusOk(w.db.rows, w.answers, i) && Tracks(w, s, i)
    ensures Revived(Apply(w, s).db.rows, i) <==> Revived(w.db.rows, i) || Overwrites(w, s, i)
  {
  }

  predicate EverOverwritten(opening: int, run: seq<Step>, i: nat) {
    |run| > 0
    && (EverOverwritten(opening, run[..|run| - 1], i) || Overwrites(Exec(opening, run[..|run| - 1]), run[|run| - 1], i))
  }

  // A payout or bill ends SUCCESSFUL and refunded if and only if, somewhere in
  // the run, success was written over it while it was FAILED. So it stays FAILED
  // exactly when refunded in every run in which that is not done.
  lemma {:induction false} RevivedExactlyByOverwriting(opening: int, run: seq<Step>, i: nat)
    requires i < |Exec(opening, run).db.rows| && IsOutgoing(Exec(opening, run).db.rows[i])
    ensures Revived(Exec(opening, run).db.rows, i) <==> EverOverwritten(opening, run, i)
  {
    if |run| > 0 {
      var front, s := run[..|run| - 1], run[|run| - 1];
      var w := Exec(opening, front);
      RunKeepsInv(opening, front);
      if i < |w.db.rows| {
        StepKeepsColumns(w, s);
        assert SameIdentity(w.db.rows[i], Apply(w, s).db.rows[i]);
        RevivedExactlyByOverwriting(opening, front, i);
        StepTracks(w, s, i);
        assert StatusOk(w.db.rows, w.answers, i);
        RevivedByStep(w, s, i);
      } else {
        NotYetOverwritten(opening, front, i);
        NewRowIsNotRevived(opening, run, i);
      }
    }
  }

  lemma {:induction false} NotYetOverwritten(opening: int, run: seq<Step>, i: nat)
    requires i >= |Exec(opening, run).db.rows|
    ensures !EverOverwritten(opening, run, i)
  {
    if |run| > 0 {
      StepKeepsColumns(Exec(opening, run[..|run| - 1]), run[|run| - 1]);
      NotYetOverwritten(opening, run[..|run| - 1], i);
    }
  }

  // Before the step there was no such row, so it is the one the step added.
  lemma NewRowIsNotRevived(opening: int, run: seq<Step>, i: nat)
    requires |run| > 0 && |Exec(opening, run[..|run| - 1]).db.rows| <= i < |Exec(opening, run).db.rows|
    requires IsOutgoing(Exec(opening, run).db.rows[i])
    ensures !Revived(Exec(opening, run).db.rows, i)
  {
    AddedOutgoingIsProcessing(Exec(opening, run[..|run| - 1]), run[|run| - 1], i);
  }

  lemma AddedOutgoingIsProcessing(w: World, s: Step, i: nat)
    requires |w.db.rows| <= i < |Apply(w, s).db.rows| && IsOutgoing(Apply(w, s).db.rows[i])
    ensures Apply(w, s).db.rows[i].status.Processing?
  {
  }

  // ---- What a reversal saw ---------------------------------------------------

  // The step is a reversal's look at row `i`, which is not final.
  predicate SeesUndecided(w: World, s: Step, i: nat) {
    && s.ReadForReversal? && s.thread in w.threads && w.threads[s.thread] == Answered(i, Rejected)
    && i < |w.db.rows| && !IsTerminal(w.db.rows[i].status)
  }

  predicate EverSeenUndecided(opening: int, run: seq<Step>, i: nat) {
    |run| > 0
    && (|| EverSeenUndecided(opening, run[..|run| - 1], i)
        || SeesUndecided(Exec(opening, run[..|run| - 1]), run[|run| - 1], i))
  }

  lemma NewReversalSaw(w: World, s: Step, t: nat, i: nat)
    requires t in Apply(w, s).threads && Apply(w, s).threads[t] == Reversing(i)
    ensures (t in w.threads && w.threads[t] == Reversing(i)) || SeesUndecided(w, s, i)
  {
  }

  lemma {:induction false} ReversalsSaw(opening: int, run: seq<Step>, t: nat, i: nat)
    requires t in Exec(opening, run).threads && Exec(opening, run).threads[t] == Reversing(i)
    ensures EverSeenUndecided(opening, run, i)
  {
    if |run| > 0 {
      var w := Exec(opening, run[..|run| - 1]);
      NewReversalSaw(w, run[|run| - 1], t, i);
      if t in w.threads && w.threads[t] == Reversing(i) { ReversalsSaw(opening, run[..|run| - 1], t, i); }
    }
  }

  // No payout or bill is refunded that every reversal found final: one of them,
  // told that the provider failed it, saw it undecided.
  lemma {:induction false} RefundedOnlyIfSeenUndecided(opening: int, run: seq<Step>, i: nat)
    requires i < |Exec(opening, run).db.rows| && IsOutgoing(Exec(opening, run).db.rows[i])
    requires Refunded(Exec(opening, run).db.rows, Exec(opening, run).db.rows[i])
    ensures EverSeenUndecided(opening, run, i)
  {
    if |run| > 0 {
      var front, s := run[..|run| - 1], run[|run| - 1];
      var w := Exec(opening, front);
      RunKeepsInv(opening, front);
      if i < |w.db.rows| {
        StepKeepsColumns(w, s);
        assert SameIdentity(w.db.rows[i], Apply(w, s).db.rows[i]);
        StepTracks(w, s, i);
        if RefundsRow(w, s, i) {
          ReversalsSaw(opening, front, s.thread, i);
        } else {
          RefundedOnlyIfSeenUndecided(opening, front, i);
        }
      } else {
        NewRowIsNotRefunded(opening, run, i);
      }
    }
  }

  lemma NewRowIsNotRefunded(opening: int, run: seq<Step>, i: nat)
    requires |run| > 0 && |Exec(opening, run[..|run| - 1]).db.rows| <= i < |Exec(opening, run).db.rows|
    requires IsOutgoing(Exec(opening, run).db.rows[i])
    ensures !Refunded(Exec(opening, run).db.rows, Exec(opening, run).db.rows[i])
  {
    RunKeepsInv(opening, run);
    AddedOutgoingIsProcessing(Exec(opening, run[..|run| - 1]), run[|run| - 1], i);
    assert StatusOk(Exec(opening, run).db.rows, Exec(opening, run).answers, i);
  }

  // ---- Answers that decide nothing -------------------------------------------

  // While every answer for a row is HOLD or REQUERY, or there is none, the row
  // is PROCESSING and not refunded.
  lemma UndecidedStaysProcessing(opening: int, run: seq<Step>, i: nat)
    requires var w := Exec(opening, run);
             && i < |w.db.rows| && IsOutgoing(w.db.rows[i])
             && (i, Succeeded) !in w.answers && (i, Rejected) !in w.answers
    ensures var w := Exec(opening, run);
            w.db.rows[i].status.Processing? && !Refunded(w.db.rows, w.db.rows[i])
  {
    RunKeepsInv(opening, run);
    var w := Exec(opening, run);
    assert StatusOk(w.db.rows, w.answers, i);
    assert ShapeOk(w.db.rows[i]);
  }

  // Re-queries, their answers, exhausted retries, crashes: every step but the
  // six that commit a movement of money (and the one that opens a wallet).
  predicate IsQuiet(s: Step) {
    !(s.InitiatePayout? || s.PayBill? || s.CommitReversal? || s.JobCredit? || s.Post? || s.Assign?
      || s.OpenWallet?)
  }

  lemma QuietStepMovesNothing(w: World, s: Step)
    requires IsQuiet(s)
    ensures Apply(w, s).db.wallets == w.db.wallets && Apply(w, s).db.journal == w.db.journal
  {
  }

  lemma {:induction false} QuietRunsMoveNothing(opening: int, run: seq<Step>, quiet: seq<Step>)
    requires forall s | s in quiet :: IsQuiet(s)
    ensures Exec(opening, run + quiet).db.wallets == Exec(opening, run).db.wallets
    ensures Exec(opening, run + quiet).db.journal == Exec(opening, run).db.journal
  {
    if |quiet| == 0 {
      assert run + quiet == run;
    } else {
      var front := quiet[..|quiet| - 1];
      QuietRunsMoveNothing(opening, run, front);
      LastStep(opening, run, quiet);
      QuietStepMovesNothing(Exec(opening, run + front), quiet[|quiet| - 1]);
    }
  }
}
