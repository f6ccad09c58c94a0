// Every step of the machine keeps its invariant, so every run does.
module Safety {
  import opened Prelude
  import opened Charges
  import opened Ledger
  import opened Machine

  // ---- Bookkeeping around the rows -------------------------------------------

  // The rows a thread, a job or a parked deposit points at survive any write
  // that appends or keeps a row's kind and columns.
  predicate RowsGrow(rows: seq<Txn>, rows': seq<Txn>) {
    |rows| <= |rows'| && forall i | 0 <= i < |rows| :: SameIdentity(rows[i], rows'[i])
  }

  lemma GrowthKeepsThreads(w: World, w': World)
    requires ThreadsOk(w) && RowsGrow(w.db.rows, w'.db.rows)
    requires w'.threads == w.threads && w'.answers == w.answers
    ensures ThreadsOk(w')
  {
    forall t | t in w'.threads ensures PcOk(w'.db.rows, w'.answers, w'.threads[t]) {
      assert PcOk(w.db.rows, w.answers, w.threads[t]);
      assert SameIdentity(w.db.rows[w.threads[t].txn], w'.db.rows[w.threads[t].txn]);
    }
  }

  // Deposits untouched: appended rows and changed payouts or bills aside, the
  // rows are the same.
  predicate DepositsUntouched(rows: seq<Txn>, rows': seq<Txn>) {
    && |rows| <= |rows'|
    && (forall i | 0 <= i < |rows| :: rows'[i] == rows[i] || (IsOutgoing(rows[i]) && IsOutgoing(rows'[i])
          && rows'[i].resolvedBy == rows[i].resolvedBy && !rows'[i].status.Unmatched?))
    && (forall i | |rows| <= i < |rows'| ::
          !rows'[i].kind.Deposit? && rows'[i].resolvedBy.None? && !rows'[i].status.Unmatched?)
  }

  lemma UntouchedKeepsDeposits(w: World, w': World)
    requires JobsOk(w) && ParkedOk(w) && DepositsUntouched(w.db.rows, w'.db.rows)
    requires w'.jobs == w.jobs && w'.parked == w.parked
    ensures JobsOk(w') && ParkedOk(w')
  {
    forall i | i in w'.jobs ensures i !in w'.parked && JobOk(w'.db.rows, i, w'.jobs[i]) {
      assert JobOk(w.db.rows, i, w.jobs[i]);
    }
  }

  // ---- Outgoing money --------------------------------------------------------

  lemma AppendKeepsInv(w: World, w': World, row: Txn)
    requires Inv(w) && row.walletId.Some? && row.walletId.value < |w.db.wallets|
    requires ShapeOk(row) && Moves(row) && !row.kind.Deposit? && !row.kind.Reversal?
    requires row.resolvedBy.None? && !ReferenceTaken(w.db.rows, row.provider, row.reference)
    requires IsOutgoing(row) ==> row.status.Processing?
    requires w.db.wallets[row.walletId.value] + Effect(row) >= 0
    requires w' == w.(db := Book(w.db, row))
    ensures Inv(w')
  {
    var booked := w'.db.rows[|w.db.rows|];
    BookKeepsSound(w.db, row);
    assert ShapeOk(booked);
    AppendKeepsOrigins(w.db.rows, booked);
    AppendKeepsStatuses(w.db.rows, w.answers, booked);
    GrowthKeepsThreads(w, w');
    UntouchedKeepsDeposits(w, w');
  }

  lemma ThreadKeepsInv(w: World, t: nat, pc: Pc)
    requires Inv(w) && PcOk(w.db.rows, w.answers, pc)
    ensures Inv(w.(threads := w.threads[t := pc]))
  {
  }

  lemma PayoutKeepsInv(w: World, t: nat, q: PayoutRequest)
    requires Inv(w)
    ensures Inv(ApplyPayout(w, t, q))
  {
    if PayoutRefusal(w.db, q).None? {
      var row := PayoutRow(w.db, q);
      ChargeSplits(FreeSlotOpen(w.db, q.wallet, q.clock), q.amount);
      assert ShapeOk(row);
      AppendKeepsInv(w, w.(db := Book(w.db, row)), row);
      ThreadKeepsInv(w.(db := Book(w.db, row)), t, Waiting(|w.db.rows|));
    }
  }

  lemma BillKeepsInv(w: World, t: nat, q: BillRequest)
    requires Inv(w)
    ensures Inv(ApplyBill(w, t, q))
  {
    if BillRefusal(w.db, q).None? {
      AppendKeepsInv(w, w.(db := Book(w.db, BillRow(q))), BillRow(q));
      ThreadKeepsInv(w.(db := Book(w.db, BillRow(q))), t, Waiting(|w.db.rows|));
    }
  }

  lemma AnswerKeepsInv(w: World, t: nat, outcome: Outcome)
    requires Inv(w)
    ensures Inv(ApplyAnswer(w, t, outcome))
  {
    if t in w.threads && w.threads[t].Waiting? {
      var i := w.threads[t].txn;
      var w' := w.(answers := w.answers + {(i, outcome)});
      MoreAnswersKeepStatuses(w.db.rows, w.answers, (i, outcome));
      assert PcOk(w.db.rows, w.answers, w.threads[t]);
      forall u | u in w'.threads ensures PcOk(w'.db.rows, w'.answers, w'.threads[u]) {
        assert PcOk(w.db.rows, w.answers, w.threads[u]);
      }
      ThreadKeepsInv(w', t, Answered(i, outcome));
    }
  }

  lemma DropKeepsInv(w: World, t: nat)
    requires Inv(w)
    ensures Inv(w.(threads := Drop(w.threads, t)))
  {
  }

  lemma SuccessKeepsRows(w: World, i: nat)
    requires RowsOk(w) && i < |w.db.rows| && IsOutgoing(w.db.rows[i]) && (i, Succeeded) in w.answers
    ensures RowsOk(w.(db := SetStatus(w.db, i, Successful)))
  {
    var u := w.db.rows[i].(status := Successful);
    ClosingKeepsShape(w.db.rows[i], Successful);
    RewriteKeepsOrigins(w.db.rows, i, u);
    RewriteKeepsStatuses(w.db.rows, w.answers, i, u);
  }

  lemma SuccessKeepsInv(w: World, i: nat)
    requires Inv(w) && i < |w.db.rows| && IsOutgoing(w.db.rows[i]) && (i, Succeeded) in w.answers
    ensures Inv(w.(db := SetStatus(w.db, i, Successful)))
  {
    var w' := w.(db := SetStatus(w.db, i, Successful));
    assert ShapeOk(w.db.rows[i]);
    RewriteKeepsSound(w.db, i, w.db.rows[i].(status := Successful));
    SuccessKeepsRows(w, i);
    GrowthKeepsThreads(w, w');
    UntouchedKeepsDeposits(w, w');
  }

  lemma WriteSuccessKeepsInv(w: World, t: nat)
    requires Inv(w)
    ensures Inv(ApplyWriteSuccess(w, t))
  {
    if t in w.threads && w.threads[t].Answered? && w.threads[t].outcome.Succeeded? {
      var i := w.threads[t].txn;
      assert PcOk(w.db.rows, w.answers, w.threads[t]);
      SuccessKeepsInv(w, i);
      DropKeepsInv(w.(db := SetStatus(w.db, i, Successful)), t);
    }
  }

  lemma ReadForReversalKeepsInv(w: World, t: nat)
    requires Inv(w)
    ensures Inv(ApplyReadForReversal(w, t))
  {
    if t in w.threads && w.threads[t].Answered? && w.threads[t].outcome.Rejected? {
      assert PcOk(w.db.rows, w.answers, w.threads[t]);
      DropKeepsInv(w, t);
      ThreadKeepsInv(w, t, Reversing(w.threads[t].txn));
    }
  }

  lemma RefundKeepsSound(d: Db, i: nat, now: int)
    requires Sound(d) && i < |d.rows| && IsOutgoing(d.rows[i]) && ShapeOk(d.rows[i])
    requires RefundRefusal(d, i).None?
    ensures Sound(RefundTx(d, i, now))
  {
    var d1 := SetStatus(d, i, Failed);
    RewriteKeepsSound(d, i, d.rows[i].(status := Failed));
    BookKeepsSound(d1, RefundRow(d.rows[i], now));
  }

  // The rows after a committed reversal, and the row it added.
  lemma RefundTxRows(d: Db, i: nat, now: int) returns (r: Txn)
    requires i < |d.rows| && IsOutgoing(d.rows[i]) && ShapeOk(d.rows[i])
    requires RefundRefusal(d, i).None?
    ensures RefundTx(d, i, now).rows == AfterRefund(d.rows, i, r)
    ensures IsOrigin(d.rows[i], r) && ShapeOk(r) && r.resolvedBy.None?
  {
    r := RefundTx(d, i, now).rows[|d.rows|];
  }

  lemma RefundKeepsShapes(rows: seq<Txn>, i: nat, r: Txn)
    requires ShapesOk(rows) && i < |rows| && IsOutgoing(rows[i]) && ShapeOk(r)
    ensures ShapesOk(AfterRefund(rows, i, r))
  {
    ClosingKeepsShape(rows[i], Failed);
  }

  lemma RefundKeepsRowsOk(w: World, i: nat, w': World, r: Txn)
    requires RowsOk(w) && UniqueReferences(w.db.rows)
    requires i < |w.db.rows| && (i, Rejected) in w.answers
    requires IsOrigin(w.db.rows[i], r) && ShapeOk(r)
    requires w'.db.rows == AfterRefund(w.db.rows, i, r) && w'.answers == w.answers
    ensures RowsOk(w')
  {
    RefundKeepsOrigins(w.db.rows, i, r);
    RefundKeepsStatuses(w.db.rows, w.answers, i, r);
    RefundKeepsShapes(w.db.rows, i, r);
  }

  lemma RefundKeepsRest(w: World, i: nat, w': World, r: Txn)
    requires ThreadsOk(w) && JobsOk(w) && ParkedOk(w)
    requires i < |w.db.rows| && IsOrigin(w.db.rows[i], r) && r.resolvedBy.None? && ShapeOk(r)
    requires w'.db.rows == AfterRefund(w.db.rows, i, r)
    requires w' == w.(db := w'.db)
    ensures ThreadsOk(w') && JobsOk(w') && ParkedOk(w')
  {
    GrowthKeepsThreads(w, w');
    UntouchedKeepsDeposits(w, w');
  }

  lemma RefundKeepsInv(w: World, i: nat, now: int)
    requires Inv(w) && i < |w.db.rows| && IsOutgoing(w.db.rows[i]) && (i, Rejected) in w.answers
    requires RefundRefusal(w.db, i).None?
    ensures Inv(w.(db := RefundTx(w.db, i, now)))
  {
    var w' := w.(db := RefundTx(w.db, i, now));
    assert ShapeOk(w.db.rows[i]);
    RefundKeepsSound(w.db, i, now);
    var r := RefundTxRows(w.db, i, now);
    RefundKeepsRowsOk(w, i, w', r);
    RefundKeepsRest(w, i, w', r);
  }

  lemma CommitReversalKeepsInv(w: World, t: nat, now: int)
    requires Inv(w)
    ensures Inv(ApplyCommitReversal(w, t, now))
  {
    if t in w.threads && w.threads[t].Reversing? {
      var i := w.threads[t].txn;
      assert PcOk(w.db.rows, w.answers, w.threads[t]);
      if RefundRefusal(w.db, i).None? {
        RefundKeepsInv(w, i, now);
      }
      DropKeepsInv(w.(db := RefundTx(w.db, i, now)), t);
    }
  }

  // ---- Incoming money --------------------------------------------------------

  lemma NewDepositKeepsDeposits(w: World, w': World, row: Txn, queued: bool)
    requires JobsOk(w) && ParkedOk(w) && ShapeOk(row) && row.kind.Deposit? && row.resolvedBy.None?
    requires w'.db.rows == w.db.rows + [row] && !row.status.Successful?
    requires w'.jobs == if row.walletId.Some? && queued then w.jobs[|w.db.rows| := Queued] else w.jobs
    requires w'.parked == if row.walletId.None? then w.parked + {|w.db.rows|} else w.parked
    ensures JobsOk(w') && ParkedOk(w')
  {
    forall i | i in w'.jobs ensures i !in w'.parked && JobOk(w'.db.rows, i, w'.jobs[i]) {
      if i != |w.db.rows| {
        assert JobOk(w.db.rows, i, w.jobs[i]);
      }
    }
  }

  lemma NewDepositKeepsRows(w: World, w': World, row: Txn)
    requires RowsOk(w) && ThreadsOk(w) && ShapeOk(row) && row.kind.Deposit?
    requires !ReferenceTaken(w.db.rows, row.provider, row.reference)
    requires w'.db.rows == w.db.rows + [row] && w'.threads == w.threads && w'.answers == w.answers
    ensures RowsOk(w') && ThreadsOk(w')
  {
    AppendKeepsOrigins(w.db.rows, row);
    AppendKeepsStatuses(w.db.rows, w.answers, row);
    GrowthKeepsThreads(w, w');
  }

  lemma ParkKeepsInv(w: World, k: nat, wallet: Option<nat>, sessionTaken: bool, queued: bool, now: int)
    requires Inv(w)
    ensures Inv(ApplyRecordPayin(w, k, wallet, sessionTaken, queued, now))
  {
    var w' := ApplyRecordPayin(w, k, wallet, sessionTaken, queued, now);
    if w' != w {
      var row := DepositRow(wallet, w.arrivals[k].amount, w.arrivals[k].reference, now);
      assert ShapeOk(row);
      ParkKeepsSound(w.db, row);
      NewDepositKeepsRows(w, w', row);
      NewDepositKeepsDeposits(w, w', row, queued);
    }
  }

  // A deposit row rewritten in place.
  lemma DepositRewriteKeepsRows(w: World, w': World, i: nat, u: Txn)
    requires RowsOk(w) && ThreadsOk(w) && i < |w.db.rows|
    requires w.db.rows[i].kind.Deposit? && SameIdentity(w.db.rows[i], u) && ShapeOk(u)
    requires w'.db.rows == w.db.rows[i := u] && w'.answers == w.answers && w'.threads == w.threads
    ensures RowsOk(w') && ThreadsOk(w')
  {
    RewriteKeepsOrigins(w.db.rows, i, u);
    RewriteKeepsStatuses(w.db.rows, w.answers, i, u);
    GrowthKeepsThreads(w, w');
  }

  lemma JobRewriteKeepsDeposits(w: World, w': World, i: nat, pc: JobPc)
    requires JobsOk(w) && ParkedOk(w) && i in w.jobs && |w'.db.rows| == |w.db.rows|
    requires forall k | 0 <= k < |w.db.rows| && k != i :: w'.db.rows[k] == w.db.rows[k]
    requires JobOk(w'.db.rows, i, pc) && !w'.db.rows[i].status.Unmatched?
    requires w'.jobs == w.jobs[i := pc] && w'.parked == w.parked
    ensures JobsOk(w') && ParkedOk(w')
  {
    forall k | k in w'.jobs ensures k !in w'.parked && JobOk(w'.db.rows, k, w'.jobs[k]) {
      assert JobOk(w.db.rows, k, w.jobs[k]);
    }
  }

  lemma JobStatusKeepsInv(w: World, i: nat, s: Status, pc: JobPc)
    requires Inv(w) && i in w.jobs && (w.jobs[i].Seen? || w.jobs[i].Threw?)
    requires (s.Processing? && pc.Marked?) || (s.Failed? && pc.Dead?)
    ensures i < |w.db.rows| && Inv(w.(db := SetStatus(w.db, i, s), jobs := w.jobs[i := pc]))
  {
    assert JobOk(w.db.rows, i, w.jobs[i]);
    var u := w.db.rows[i].(status := s);
    var w' := w.(db := SetStatus(w.db, i, s), jobs := w.jobs[i := pc]);
    assert ShapeOk(w.db.rows[i]) && ShapeOk(u);
    RewriteKeepsSound(w.db, i, u);
    DepositRewriteKeepsRows(w, w', i, u);
    JobRewriteKeepsDeposits(w, w', i, pc);
  }

  lemma JobCreditKeepsInv(w: World, i: nat)
    requires Inv(w)
    ensures Inv(ApplyJobCredit(w, i))
  {
    var w' := ApplyJobCredit(w, i);
    if w'.db != w.db {
      assert JobOk(w.db.rows, i, w.jobs[i]);
      assert ShapeOk(w.db.rows[i]) && ShapeOk(w'.db.rows[i]);
      SettleKeepsSound(w.db, i, w.db.rows[i].walletId.value, None);
      DepositRewriteKeepsRows(w, w', i, w'.db.rows[i]);
      JobRewriteKeepsDeposits(w, w', i, Queued);
    }
  }

  lemma JobPcKeepsInv(w: World, i: nat, pc: JobPc)
    requires Inv(w) && i in w.jobs
    requires pc.Queued? || pc.Dead? || !IsTerminal(w.db.rows[i].status)
    ensures Inv(w.(jobs := w.jobs[i := pc]))
  {
    assert JobOk(w.db.rows, i, w.jobs[i]);
    assert ShapeOk(w.db.rows[i]);
    JobRewriteKeepsDeposits(w, w.(jobs := w.jobs[i := pc]), i, pc);
  }

  lemma JobThrowsKeepsInv(w: World, i: nat)
    requires Inv(w)
    ensures Inv(ApplyJobEnds(w, i, Threw))
  {
    if HasJob(w, i) && (w.jobs[i].Seen? || w.jobs[i].Marked?) {
      assert JobOk(w.db.rows, i, w.jobs[i]);
      JobPcKeepsInv(w, i, Threw);
    }
  }

  lemma JobCrashesKeepsInv(w: World, i: nat)
    requires Inv(w)
    ensures Inv(ApplyJobEnds(w, i, Queued))
  {
    if HasJob(w, i) && (w.jobs[i].Seen? || w.jobs[i].Marked?) {
      assert JobOk(w.db.rows, i, w.jobs[i]);
      JobPcKeepsInv(w, i, Queued);
    }
  }

  // ---- Staff -----------------------------------------------------------------

  lemma PostKeepsInv(w: World, q: PostRequest)
    requires Inv(w)
    ensures Inv(w.(db := PostTx(w.db, q)))
  {
    if PostTx(w.db, q) != w.db {
      AppendKeepsInv(w, w.(db := PostTx(w.db, q)), PostRow(q));
    }
  }

  lemma AssignmentKeepsDeposits(w: World, w': World, i: nat)
    requires JobsOk(w) && ParkedOk(w) && i in w.parked && i < |w.db.rows| && |w'.db.rows| == |w.db.rows|
    requires forall k | 0 <= k < |w.db.rows| && k != i :: w'.db.rows[k] == w.db.rows[k]
    requires w'.db.rows[i].kind.Deposit? && w'.db.rows[i].status.Successful? && w'.db.rows[i].resolvedBy.Some?
    requires w'.jobs == w.jobs && w'.parked == w.parked
    ensures JobsOk(w') && ParkedOk(w')
  {
    forall k | k in w'.jobs ensures k !in w'.parked && JobOk(w'.db.rows, k, w'.jobs[k]) {
      assert JobOk(w.db.rows, k, w.jobs[k]);
    }
  }

  lemma AssignKeepsInv(w: World, i: nat, wallet: nat, resolver: string)
    requires Inv(w)
    ensures Inv(w.(db := AssignTx(w.db, i, wallet, resolver)))
  {
    var w' := w.(db := AssignTx(w.db, i, wallet, resolver));
    if w'.db != w.db {
      assert i in w.parked;
      assert ShapeOk(w.db.rows[i]) && ShapeOk(w'.db.rows[i]);
      SettleKeepsSound(w.db, i, wallet, Some(resolver));
      DepositRewriteKeepsRows(w, w', i, w'.db.rows[i]);
      AssignmentKeepsDeposits(w, w', i);
    }
  }

  // ---- All steps, all runs ---------------------------------------------------

  lemma SyncReadKeepsInv(w: World, t: nat, i: nat)
    requires Inv(w)
    ensures Inv(ApplySyncRead(w, t, i))
  {
    if i < |w.db.rows| && IsOutgoing(w.db.rows[i]) { ThreadKeepsInv(w, t, Waiting(i)); }
  }

  lemma JobReadKeepsInv(w: World, i: nat)
    requires Inv(w)
    ensures Inv(ApplyJobRead(w, i))
  {
    if HasJob(w, i) && (w.jobs[i].Queued? || w.jobs[i].Threw?) {
      JobPcKeepsInv(w, i, if IsTerminal(w.db.rows[i].status) then Dead else Seen);
    }
  }

  lemma JobMarkKeepsInv(w: World, i: nat)
    requires Inv(w)
    ensures Inv(ApplyJobMark(w, i))
  {
    if HasJob(w, i) && w.jobs[i].Seen? { JobStatusKeepsInv(w, i, Processing, Marked); }
  }

  lemma JobExhaustedKeepsInv(w: World, i: nat)
    requires Inv(w)
    ensures Inv(ApplyJobExhausted(w, i))
  {
    if HasJob(w, i) && w.jobs[i].Threw? { JobStatusKeepsInv(w, i, Failed, Dead); }
  }

  lemma OpenWalletKeepsInv(w: World)
    requires Inv(w)
    ensures Inv(w.(db := w.db.(wallets := w.db.wallets + [0])))
  {
    OpenWalletKeepsSound(w.db);
  }

  lemma SwitchKeepsSound(d: Db, enabled: bool)
    requires Sound(d)
    ensures Sound(d.(freePayouts := enabled))
  {
  }

  lemma SwitchKeepsInv(w: World, enabled: bool)
    requires Inv(w)
    ensures Inv(w.(db := w.db.(freePayouts := enabled)))
  {
    SwitchKeepsSound(w.db, enabled);
  }

  // What the provider holds and sends is no part of the invariant.
  lemma TransferKeepsInv(w: World, i: nat)
    requires Inv(w)
    ensures Inv(ApplyTransferLeaves(w, i))
  {
  }

  lemma ArrivalKeepsInv(w: World, reference: string, amount: nat)
    requires Inv(w)
    ensures Inv(ApplyDepositArrives(w, reference, amount))
  {
  }

  // What each step does, apart from what it keeps.
  lemma Arms(w: World, s: Step)
    ensures match s {
              case OpenWallet => Apply(w, s) == w.(db := w.db.(wallets := w.db.wallets + [0]))
              case SetFreePayouts(enabled) => Apply(w, s) == w.(db := w.db.(freePayouts := enabled))
              case InitiatePayout(t, q) => Apply(w, s) == ApplyPayout(w, t, q)
              case PayBill(t, q) => Apply(w, s) == ApplyBill(w, t, q)
              case SyncRead(t, i) => Apply(w, s) == ApplySyncRead(w, t, i)
              case Answer(t, outcome) => Apply(w, s) == ApplyAnswer(w, t, outcome)
              case WriteSuccess(t) => Apply(w, s) == ApplyWriteSuccess(w, t)
              case ReadForReversal(t) => Apply(w, s) == ApplyReadForReversal(w, t)
              case CommitReversal(t, now) => Apply(w, s) == ApplyCommitReversal(w, t, now)
              case Abandon(t) => Apply(w, s) == w.(threads := Drop(w.threads, t))
              case TransferLeaves(i) => Apply(w, s) == ApplyTransferLeaves(w, i)
              case DepositArrives(reference, amount) => Apply(w, s) == ApplyDepositArrives(w, reference, amount)
              case RecordPayin(k, wallet, taken, queued, now) =>
                Apply(w, s) == ApplyRecordPayin(w, k, wallet, taken, queued, now)
              case JobRead(i) => Apply(w, s) == ApplyJobRead(w, i)
              case JobMark(i) => Apply(w, s) == ApplyJobMark(w, i)
              case JobCredit(i) => Apply(w, s) == ApplyJobCredit(w, i)
              case JobThrows(i) => Apply(w, s) == ApplyJobEnds(w, i, Threw)
              case JobCrashes(i) => Apply(w, s) == ApplyJobEnds(w, i, Queued)
              case JobExhausted(i) => Apply(w, s) == ApplyJobExhausted(w, i)
              case Post(q) => Apply(w, s) == w.(db := PostTx(w.db, q))
              case Assign(i, wallet, resolver) => Apply(w, s) == w.(db := AssignTx(w.db, i, wallet, resolver))
            }
  {
  }

  predicate IsOutgoingStep(s: Step) {
    s.InitiatePayout? || s.PayBill? || s.SyncRead? || s.Answer? || s.WriteSuccess? || s.ReadForReversal?
    || s.CommitReversal? || s.Abandon?
  }

  lemma OutgoingStepKeepsInv(w: World, s: Step)
    requires Inv(w) && IsOutgoingStep(s)
    ensures Inv(Apply(w, s))
  {
    Arms(w, s);
    match s
    case InitiatePayout(t, q) => PayoutKeepsInv(w, t, q);
    case PayBill(t, q) => BillKeepsInv(w, t, q);
    case SyncRead(t, i) => SyncReadKeepsInv(w, t, i);
    case Answer(t, outcome) => AnswerKeepsInv(w, t, outcome);
    case WriteSuccess(t) => WriteSuccessKeepsInv(w, t);
    case ReadForReversal(t) => ReadForReversalKeepsInv(w, t);
    case CommitReversal(t, now) => CommitReversalKeepsInv(w, t, now);
    case Abandon(t) => DropKeepsInv(w, t);
  }

  predicate IsJobStep(s: Step) {
    s.JobRead? || s.JobMark? || s.JobCredit? || s.JobThrows? || s.JobCrashes? || s.JobExhausted?
  }

  lemma JobStepKeepsInv(w: World, s: Step)
    requires Inv(w) && IsJobStep(s)
    ensures Inv(Apply(w, s))
  {
    Arms(w, s);
    match s
    case JobRead(i) => JobReadKeepsInv(w, i);
    case JobMark(i) => JobMarkKeepsInv(w, i);
    case JobCredit(i) => JobCreditKeepsInv(w, i);
    case JobThrows(i) => JobThrowsKeepsInv(w, i);
    case JobCrashes(i) => JobCrashesKeepsInv(w, i);
    case JobExhausted(i) => JobExhaustedKeepsInv(w, i);
  }

  lemma OtherStepKeepsInv(w: World, s: Step)
    requires Inv(w) && !IsOutgoingStep(s) && !IsJobStep(s)
    ensures Inv(Apply(w, s))
  {
    Arms(w, s);
    match s
    case OpenWallet => OpenWalletKeepsInv(w);
    case SetFreePayouts(enabled) => SwitchKeepsInv(w, enabled);
    case TransferLeaves(i) => TransferKeepsInv(w, i);
    case DepositArrives(reference, amount) => ArrivalKeepsInv(w, reference, amount);
    case RecordPayin(k, wallet, taken, queued, now) => ParkKeepsInv(w, k, wallet, taken, queued, now);
    case Post(q) => PostKeepsInv(w, q);
    case Assign(i, wallet, resolver) => AssignKeepsInv(w, i, wallet, resolver);
  }

  lemma StepKeepsInv(w: World, s: Step)
    requires Inv(w)
    ensures Inv(Apply(w, s))
  {
    if IsOutgoingStep(s) {
      OutgoingStepKeepsInv(w, s);
    } else if IsJobStep(s) {
      JobStepKeepsInv(w, s);
    } else {
      OtherStepKeepsInv(w, s);
    }
  }

  lemma {:induction false} RunKeepsInv(opening: int, run: seq<Step>)
    ensures Inv(Exec(opening, run))
  {
    if |run| == 0 {
    } else {
      RunKeepsInv(opening, run[..|run| - 1]);
      StepKeepsInv(Exec(opening, run[..|run| - 1]), run[|run| - 1]);
    }
  }
}
