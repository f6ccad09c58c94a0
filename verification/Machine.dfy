// The payment service as a state machine: every committed database
// transaction, every unlocked read, every provider answer and every crash is
// one step, and a run is any sequence of steps whatever.
module Machine {
  import opened Prelude
  import opened Charges
  import opened Ledger

  // HOLD: failed at the provider, which forbids the refund.
  datatype Outcome = Succeeded | Rejected | Hold | Requery

  // What a request or a status worker remembers between its steps.
  datatype Pc =
    | Waiting(txn: nat)
    | Answered(txn: nat, outcome: Outcome)
    | Reversing(txn: nat)

  // A deposit's queued job, of which the queue runs one instance at a time.
  datatype JobPc = Queued | Seen | Marked | Threw | Dead

  // Money that reached the provider's pool for one of our accounts, and the
  // row that recorded it.
  datatype Arrival = Arrival(reference: string, amount: nat, row: Option<nat>)

  datatype World = World(
    db: Db,
    threads: map<nat, Pc>,
    jobs: map<nat, JobPc>,
    parked: set<nat>,            // deposits recorded with no wallet
    answers: set<(nat, Outcome)>,
    arrivals: seq<Arrival>,
    sent: set<nat>,              // outgoing rows whose amount left the pool
    pool: int)                   // what the provider holds

  datatype Step =
    | OpenWallet
    | SetFreePayouts(enabled: bool)
    | InitiatePayout(thread: nat, payout: PayoutRequest)
    | PayBill(thread: nat, bill: BillRequest)
    | SyncRead(thread: nat, txn: nat)
    | Answer(thread: nat, outcome: Outcome)
    | WriteSuccess(thread: nat)
    | ReadForReversal(thread: nat)
    | CommitReversal(thread: nat, now: int)
    | Abandon(thread: nat)
    | TransferLeaves(txn: nat)
    | DepositArrives(reference: string, amount: nat)
    | RecordPayin(arrival: nat, wallet: Option<nat>, sessionTaken: bool, queued: bool, now: int)
    | JobRead(txn: nat)
    | JobMark(txn: nat)
    | JobCredit(txn: nat)
    | JobThrows(txn: nat)
    | JobCrashes(txn: nat)
    | JobExhausted(txn: nat)
    | Post(post: PostRequest)
    | Assign(txn: nat, assignee: nat, resolver: string)

  // ---- The steps -------------------------------------------------------------

  function Drop(m: map<nat, Pc>, k: nat): map<nat, Pc> {
    map x | x in m && x != k :: m[x]
  }

  function ApplyPayout(w: World, thread: nat, q: PayoutRequest): World {
    if thread !in w.threads && PayoutRefusal(w.db, q).None? then
      w.(db := PayoutTx(w.db, q), threads := w.threads[thread := Waiting(|w.db.rows|)])
    else w
  }

  function ApplyBill(w: World, thread: nat, q: BillRequest): World {
    if thread !in w.threads && BillRefusal(w.db, q).None? then
      w.(db := BillTx(w.db, q), threads := w.threads[thread := Waiting(|w.db.rows|)])
    else w
  }

  // Only payouts and bills are ever queried, and only while not final.
  function ApplySyncRead(w: World, thread: nat, i: nat): World {
    if thread !in w.threads && i < |w.db.rows| && IsOutgoing(w.db.rows[i])
       && !IsTerminal(w.db.rows[i].status) then
      w.(threads := w.threads[thread := Waiting(i)])
    else w
  }

  function ApplyAnswer(w: World, thread: nat, outcome: Outcome): World {
    if thread in w.threads && w.threads[thread].Waiting? then
      var i := w.threads[thread].txn;
      w.(threads := w.threads[thread := Answered(i, outcome)],
         answers := w.answers + {(i, outcome)})
    else w
  }

  // The success is written without looking at the row again.
  function ApplyWriteSuccess(w: World, thread: nat): World {
    if thread in w.threads && w.threads[thread].Answered? && w.threads[thread].outcome.Succeeded?
       && w.threads[thread].txn < |w.db.rows| then
      w.(db := SetStatus(w.db, w.threads[thread].txn, Successful), threads := Drop(w.threads, thread))
    else w
  }

  // The reversal looks at the status, without a lock, before it commits.
  function ApplyReadForReversal(w: World, thread: nat): World {
    if thread in w.threads && w.threads[thread].Answered? && w.threads[thread].outcome.Rejected?
       && w.threads[thread].txn < |w.db.rows| then
      var i := w.threads[thread].txn;
      if IsTerminal(w.db.rows[i].status) then w.(threads := Drop(w.threads, thread))
      else w.(threads := w.threads[thread := Reversing(i)])
    else w
  }

  function ApplyCommitReversal(w: World, thread: nat, now: int): World {
    if thread in w.threads && w.threads[thread].Reversing? then
      w.(db := RefundTx(w.db, w.threads[thread].txn, now), threads := Drop(w.threads, thread))
    else w
  }

  // The provider sends exactly the amount, once per reference.
  function ApplyTransferLeaves(w: World, i: nat): World {
    if i < |w.db.rows| && IsOutgoing(w.db.rows[i]) && i !in w.sent then
      w.(sent := w.sent + {i}, pool := w.pool - w.db.rows[i].amount)
    else w
  }

  function ApplyDepositArrives(w: World, reference: string, amount: nat): World {
    w.(arrivals := w.arrivals + [Arrival(reference, amount, None)], pool := w.pool + amount)
  }

  function ApplyRecordPayin(w: World, k: nat, wallet: Option<nat>, sessionTaken: bool, queued: bool,
                            now: int): World
  {
    if k < |w.arrivals| && (wallet.Some? ==> wallet.value < |w.db.wallets|)
       && !PayinIgnored(w.db, w.arrivals[k].reference, sessionTaken) then
      var i := |w.db.rows|;
      w.(db := PayinTx(w.db, wallet, w.arrivals[k].amount, w.arrivals[k].reference, sessionTaken, now),
         arrivals := w.arrivals[k := w.arrivals[k].(row := Some(i))],
         jobs := if wallet.Some? && queued then w.jobs[i := Queued] else w.jobs,
         parked := if wallet.None? then w.parked + {i} else w.parked)
    else w
  }

  predicate HasJob(w: World, i: nat) {
    i in w.jobs && i < |w.db.rows|
  }

  function ApplyJobRead(w: World, i: nat): World {
    if HasJob(w, i) && (w.jobs[i].Queued? || w.jobs[i].Threw?) then
      w.(jobs := w.jobs[i := if IsTerminal(w.db.rows[i].status) then Dead else Seen])
    else w
  }

  function ApplyJobMark(w: World, i: nat): World {
    if HasJob(w, i) && w.jobs[i].Seen? then
      w.(db := SetStatus(w.db, i, Processing), jobs := w.jobs[i := Marked])
    else w
  }

  // After the commit the process may still die, and the job come back.
  function ApplyJobCredit(w: World, i: nat): World {
    if HasJob(w, i) && w.jobs[i].Marked? && w.db.rows[i].walletId.Some?
       && w.db.rows[i].walletId.value < |w.db.wallets| then
      w.(db := Settle(w.db, i, w.db.rows[i].walletId.value, None), jobs := w.jobs[i := Queued])
    else w
  }

  function ApplyJobEnds(w: World, i: nat, pc: JobPc): World {
    if HasJob(w, i) && (w.jobs[i].Seen? || w.jobs[i].Marked?) then w.(jobs := w.jobs[i := pc]) else w
  }

  // Every attempt threw: the row is closed as FAILED.
  function ApplyJobExhausted(w: World, i: nat): World {
    if HasJob(w, i) && w.jobs[i].Threw? then
      w.(db := SetStatus(w.db, i, Failed), jobs := w.jobs[i := Dead])
    else w
  }

  function Apply(w: World, s: Step): World {
    match s
    case OpenWallet => w.(db := w.db.(wallets := w.db.wallets + [0]))
    case SetFreePayouts(enabled) => w.(db := w.db.(freePayouts := enabled))
    case InitiatePayout(t, q) => ApplyPayout(w, t, q)
    case PayBill(t, q) => ApplyBill(w, t, q)
    case SyncRead(t, i) => ApplySyncRead(w, t, i)
    case Answer(t, outcome) => ApplyAnswer(w, t, outcome)
    case WriteSuccess(t) => ApplyWriteSuccess(w, t)
    case ReadForReversal(t) => ApplyReadForReversal(w, t)
    case CommitReversal(t, now) => ApplyCommitReversal(w, t, now)
    case Abandon(t) => w.(threads := Drop(w.threads, t))
    case TransferLeaves(i) => ApplyTransferLeaves(w, i)
    case DepositArrives(reference, amount) => ApplyDepositArrives(w, reference, amount)
    case RecordPayin(k, wallet, taken, queued, now) => ApplyRecordPayin(w, k, wallet, taken, queued, now)
    case JobRead(i) => ApplyJobRead(w, i)
    case JobMark(i) => ApplyJobMark(w, i)
    case JobCredit(i) => ApplyJobCredit(w, i)
    case JobThrows(i) => ApplyJobEnds(w, i, Threw)
    case JobCrashes(i) => ApplyJobEnds(w, i, Queued)
    case JobExhausted(i) => ApplyJobExhausted(w, i)
    case Post(q) => w.(db := PostTx(w.db, q))
    case Assign(i, wallet, resolver) => w.(db := AssignTx(w.db, i, wallet, resolver))
  }

  function Start(opening: int): World {
    World(Db([], [], [], true), map[], map[], {}, {}, [], {}, opening)
  }

  // The state after a run. A step that is not possible where it stands changes
  // nothing, so every sequence of steps is a run.
  function Exec(opening: int, run: seq<Step>): World {
    if |run| == 0 then Start(opening)
    else Apply(Exec(opening, run[..|run| - 1]), run[|run| - 1])
  }

  // ---- What holds of the rows ------------------------------------------------

  predicate IsRefundOf(r: Txn, t: Txn) {
    r.kind.Reversal? && r.provider == t.provider && r.reference == RefundReference(t.reference)
  }

  // The refund of this payout or bill has been paid into its wallet.
  predicate Refunded(rows: seq<Txn>, t: Txn) {
    exists j | 0 <= j < |rows| :: IsRefundOf(rows[j], t)
  }

  predicate ShapeOk(t: Txn) {
    && t.amount >= 0 && t.fee >= 0
    && match t.kind {
      case Deposit => t.direction.Credit? && t.provider.Vfd? && (t.walletId.None? <==> t.status.Unmatched?)
      case Payout =>
        && t.direction.Debit? && t.provider.Vfd? && t.walletId.Some? && t.amount > 0
        && (t.status.Processing? || IsTerminal(t.status))
        && (|| Schedule(true, t.amount) == Charge(t.fee - t.feeVat - t.stampDuty, t.feeVat, t.stampDuty, t.fee)
            || Schedule(false, t.amount) == Charge(t.fee - t.feeVat - t.stampDuty, t.feeVat, t.stampDuty, t.fee))
      case BillPayment =>
        && t.direction.Debit? && t.provider.Vfd? && t.walletId.Some? && t.amount > 0
        && (t.status.Processing? || IsTerminal(t.status)) && t.feeVat == 0 && t.stampDuty == 0
      case Reversal => t.direction.Credit? && t.provider.Vfd? && t.walletId.Some? && t.status.Successful?
      case Adjustment => t.provider.Manual? && t.walletId.Some? && t.status.Successful? && t.fee == 0
    }
  }

  predicate IsOrigin(t: Txn, r: Txn) {
    IsOutgoing(t) && IsRefundOf(r, t) && r.walletId == t.walletId && r.amount == t.amount + t.fee
  }

  predicate ShapesOk(rows: seq<Txn>) {
    forall i | 0 <= i < |rows| :: ShapeOk(rows[i])
  }

  // Every refund is the refund of one payout or bill: same wallet, all of it.
  predicate RefundsHaveOrigins(rows: seq<Txn>) {
    forall j {:trigger HasOrigin(rows, rows[j])} | 0 <= j < |rows| && rows[j].kind.Reversal? ::
      HasOrigin(rows, rows[j])
  }

  predicate HasOrigin(rows: seq<Txn>, r: Txn) {
    exists i | 0 <= i < |rows| :: IsOrigin(rows[i], r)
  }

  predicate StatusOk(rows: seq<Txn>, answers: set<(nat, Outcome)>, i: nat)
    requires i < |rows|
  {
    && (rows[i].status.Failed? ==> Refunded(rows, rows[i]))
    && (rows[i].status.Successful? ==> (i, Succeeded) in answers)
    && (Refunded(rows, rows[i]) ==> IsTerminal(rows[i].status) && (i, Rejected) in answers)
  }

  predicate StatusesOk(rows: seq<Txn>, answers: set<(nat, Outcome)>) {
    forall i: nat {:trigger StatusOk(rows, answers, i)} | i < |rows| && IsOutgoing(rows[i]) ::
      StatusOk(rows, answers, i)
  }

  predicate PcOk(rows: seq<Txn>, answers: set<(nat, Outcome)>, pc: Pc) {
    && pc.txn < |rows| && IsOutgoing(rows[pc.txn])
    && (pc.Answered? ==> (pc.txn, pc.outcome) in answers)
    && (pc.Reversing? ==> (pc.txn, Rejected) in answers)
  }

  predicate ThreadsOk(w: World) {
    forall t | t in w.threads :: PcOk(w.db.rows, w.answers, w.threads[t])
  }

  // A job belongs to a deposit that had a wallet when it was recorded, and one
  // that is past its first read has not been credited or closed.
  predicate JobOk(rows: seq<Txn>, i: nat, pc: JobPc) {
    && i < |rows| && rows[i].kind.Deposit? && rows[i].walletId.Some? && rows[i].resolvedBy.None?
    && (pc.Seen? || pc.Marked? || pc.Threw? ==> rows[i].status.Pending? || rows[i].status.Processing?)
  }

  predicate JobsOk(w: World) {
    forall i | i in w.jobs :: i !in w.parked && JobOk(w.db.rows, i, w.jobs[i])
  }

  // A parked deposit waits for staff until staff assign it.
  predicate ParkedOk(w: World) {
    && (forall i | i in w.parked ::
          && i < |w.db.rows| && w.db.rows[i].kind.Deposit?
          && (w.db.rows[i].status.Unmatched? || w.db.rows[i].status.Successful?)
          && (w.db.rows[i].status.Successful? <==> w.db.rows[i].resolvedBy.Some?))
    && (forall i: nat | i < |w.db.rows| && w.db.rows[i].status.Unmatched? :: i in w.parked)
    && (forall i: nat | i < |w.db.rows| && w.db.rows[i].resolvedBy.Some? :: i in w.parked)
    && (forall i: nat | i < |w.db.rows| && w.db.rows[i].kind.Deposit? && w.db.rows[i].status.Successful? ::
          i in w.parked || i in w.jobs)
  }

  predicate RowsOk(w: World) {
    && ShapesOk(w.db.rows)
    && RefundsHaveOrigins(w.db.rows)
    && StatusesOk(w.db.rows, w.answers)
  }

  ghost predicate Inv(w: World) {
    Sound(w.db) && RowsOk(w) && ThreadsOk(w) && JobsOk(w) && ParkedOk(w)
  }

  // ---- How the rows change ---------------------------------------------------

  lemma RefundReferenceIsInjective(a: string, b: string)
    ensures RefundReference(a) == RefundReference(b) ==> a == b
  {
    assert RefundReference(a)[4..] == a;
    assert RefundReference(b)[4..] == b;
  }

  lemma AppendKeepsRefunded(rows: seq<Txn>, t: Txn, u: Txn)
    requires !t.kind.Reversal?
    ensures Refunded(rows + [t], u) <==> Refunded(rows, u)
  {
    var rows' := rows + [t];
    if Refunded(rows, u) {
      var j :| 0 <= j < |rows| && IsRefundOf(rows[j], u);
      assert IsRefundOf(rows'[j], u);
    }
  }

  lemma FreshRowIsNotRefunded(rows: seq<Txn>, t: Txn)
    requires RefundsHaveOrigins(rows) && !ReferenceTaken(rows, t.provider, t.reference)
    ensures !Refunded(rows, t)
  {
    forall j | 0 <= j < |rows| ensures !IsRefundOf(rows[j], t) {
      if rows[j].kind.Reversal? {
        assert HasOrigin(rows, rows[j]);
        var i :| 0 <= i < |rows| && IsOrigin(rows[i], rows[j]);
        RefundReferenceIsInjective(rows[i].reference, t.reference);
      }
    }
  }

  lemma AppendKeepsOrigins(rows: seq<Txn>, t: Txn)
    requires RefundsHaveOrigins(rows)
    requires t.kind.Reversal? ==> HasOrigin(rows, t)
    ensures RefundsHaveOrigins(rows + [t])
  {
    var rows' := rows + [t];
    forall j | 0 <= j < |rows'| && rows'[j].kind.Reversal?
      ensures HasOrigin(rows', rows'[j])
    {
      assert j < |rows| ==> HasOrigin(rows, rows[j]);
      var i :| 0 <= i < |rows| && IsOrigin(rows[i], rows'[j]);
      assert IsOrigin(rows'[i], rows'[j]);
    }
  }

  lemma AppendKeepsStatuses(rows: seq<Txn>, answers: set<(nat, Outcome)>, t: Txn)
    requires RefundsHaveOrigins(rows) && StatusesOk(rows, answers)
    requires !t.kind.Reversal? && !ReferenceTaken(rows, t.provider, t.reference)
    requires IsOutgoing(t) ==> t.status.Processing?
    ensures StatusesOk(rows + [t], answers)
  {
    forall i: nat | i < |rows + [t]| && IsOutgoing((rows + [t])[i]) ensures StatusOk(rows + [t], answers, i) {
      AppendKeepsRefunded(rows, t, (rows + [t])[i]);
      if i < |rows| {
        assert StatusOk(rows, answers, i);
      } else {
        FreshRowIsNotRefunded(rows, t);
      }
    }
  }

  // A row may change its status, wallet and balance as long as it keeps the
  // columns a refund is matched on.
  predicate SameIdentity(t: Txn, u: Txn) {
    && t.kind == u.kind && t.direction == u.direction && t.provider == u.provider
    && t.reference == u.reference && t.amount == u.amount && t.fee == u.fee
    && t.feeVat == u.feeVat && t.stampDuty == u.stampDuty && t.createdAt == u.createdAt
    && (t.walletId.Some? ==> u.walletId == t.walletId)
  }

  lemma RewriteKeepsRefunded(rows: seq<Txn>, i: nat, u: Txn, t: Txn)
    requires i < |rows| && SameIdentity(rows[i], u)
    ensures Refunded(rows[i := u], t) <==> Refunded(rows, t)
  {
    var rows' := rows[i := u];
    if Refunded(rows, t) {
      var j :| 0 <= j < |rows| && IsRefundOf(rows[j], t);
      assert IsRefundOf(rows'[j], t);
    }
    if Refunded(rows', t) {
      var j :| 0 <= j < |rows| && IsRefundOf(rows'[j], t);
      assert IsRefundOf(rows[j], t);
    }
  }

  lemma RewriteKeepsOrigins(rows: seq<Txn>, i: nat, u: Txn)
    requires RefundsHaveOrigins(rows) && i < |rows| && SameIdentity(rows[i], u)
    requires u.walletId == rows[i].walletId || u.kind.Deposit?
    ensures RefundsHaveOrigins(rows[i := u])
  {
    var rows' := rows[i := u];
    forall j | 0 <= j < |rows'| && rows'[j].kind.Reversal?
      ensures HasOrigin(rows', rows'[j])
    {
      assert HasOrigin(rows, rows[j]);
      var k :| 0 <= k < |rows| && IsOrigin(rows[k], rows[j]);
      assert IsOrigin(rows'[k], rows'[j]);
    }
  }

  lemma RewriteKeepsStatuses(rows: seq<Txn>, answers: set<(nat, Outcome)>, i: nat, u: Txn)
    requires StatusesOk(rows, answers) && i < |rows| && SameIdentity(rows[i], u)
    requires IsOutgoing(u) ==> u.status.Successful? && (i, Succeeded) in answers
    ensures StatusesOk(rows[i := u], answers)
  {
    var rows' := rows[i := u];
    forall k: nat | k < |rows'| && IsOutgoing(rows'[k]) ensures StatusOk(rows', answers, k) {
      assert StatusOk(rows, answers, k);
      RewriteKeepsRefunded(rows, i, u, rows'[k]);
      assert Refunded(rows, rows'[k]) <==> Refunded(rows, rows[k]);
    }
  }

  // The rows that are refunded after a reversal of row `i` commits.
  lemma RefundReachesOneRow(rows: seq<Txn>, i: nat, r: Txn, k: nat)
    requires UniqueReferences(rows) && i < |rows| && k < |rows|
    requires IsRefundOf(r, rows[i])
    ensures Refunded(rows + [r], rows[k]) <==> (k == i || Refunded(rows, rows[k]))
  {
    var rows' := rows + [r];
    if Refunded(rows, rows[k]) {
      var j :| 0 <= j < |rows| && IsRefundOf(rows[j], rows[k]);
      assert IsRefundOf(rows'[j], rows[k]);
    }
    if k == i {
      assert IsRefundOf(rows'[|rows|], rows[k]);
    }
    RefundReferenceIsInjective(rows[i].reference, rows[k].reference);
    assert IsRefundOf(r, rows[k]) ==> k == i;
  }

  function AfterRefund(rows: seq<Txn>, i: nat, r: Txn): seq<Txn>
    requires i < |rows|
  {
    rows[i := rows[i].(status := Failed)] + [r]
  }

  lemma RefundKeepsStatuses(rows: seq<Txn>, answers: set<(nat, Outcome)>, i: nat, r: Txn)
    requires StatusesOk(rows, answers) && UniqueReferences(rows)
    requires i < |rows| && (i, Rejected) in answers && IsOrigin(rows[i], r)
    ensures StatusesOk(AfterRefund(rows, i, r), answers)
  {
    var u := rows[i].(status := Failed);
    var rows' := AfterRefund(rows, i, r);
    assert rows' == (rows + [r])[i := u];
    forall k: nat | k < |rows'| && IsOutgoing(rows'[k]) ensures StatusOk(rows', answers, k) {
      assert StatusOk(rows, answers, k);
      RefundReachesOneRow(rows, i, r, k);
      RewriteKeepsRefunded(rows + [r], i, u, rows[k]);
      assert Refunded(rows', rows'[k]) <==> Refunded(rows', rows[k]);
    }
  }

  lemma RefundKeepsOrigins(rows: seq<Txn>, i: nat, r: Txn)
    requires RefundsHaveOrigins(rows) && i < |rows| && IsOrigin(rows[i], r)
    ensures RefundsHaveOrigins(AfterRefund(rows, i, r))
  {
    var u := rows[i].(status := Failed);
    RewriteKeepsOrigins(rows, i, u);
    assert IsOrigin(rows[i := u][i], r);
    AppendKeepsOrigins(rows[i := u], r);
  }

  // Closing a payout or a bill leaves its row in shape.
  lemma ClosingKeepsShape(t: Txn, s: Status)
    requires ShapeOk(t) && IsOutgoing(t) && IsTerminal(s)
    ensures ShapeOk(t.(status := s))
  {
  }

  lemma MoreAnswersKeepStatuses(rows: seq<Txn>, answers: set<(nat, Outcome)>, a: (nat, Outcome))
    requires StatusesOk(rows, answers)
    ensures StatusesOk(rows, answers + {a})
  {
    forall i: nat | i < |rows| && IsOutgoing(rows[i]) ensures StatusOk(rows, answers + {a}, i) {
      assert StatusOk(rows, answers, i);
    }
  }
}
