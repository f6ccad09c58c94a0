// Why the provider's pool and the sum of all wallets differ, to the last unit,
// in every state of every run; and how the fee total splits.
module Reconciliation {
  import opened Prelude
  import opened Sums
  import opened Charges
  import opened Ledger
  import opened Machine
  import opened Safety
  import opened Statements
  import opened Refunds
  import opened Open
  import opened Limits

  // ---- The figures -----------------------------------------------------------

  function Owed(d: Db): int { SumTo(|d.wallets|, WalletAt(d.wallets)) }

  // Provider minus ledger, as the console reports it.
  function Difference(w: World): int { w.pool - Owed(w.db) }

  function FeeOf(): Txn -> int { (t: Txn) => t.fee }
  function CostOf(): Txn -> int { (t: Txn) => t.amount + t.fee }

  function ArrivedAt(arrivals: seq<Arrival>): nat -> int {
    (k: nat) => if k < |arrivals| then arrivals[k].amount else 0
  }

  // A deposit that arrived and is not yet a successful row: not recorded, or
  // pending, unmatched or failed.
  predicate IsUncredited(a: Arrival, rows: seq<Txn>) {
    a.row.None? || a.row.value >= |rows| || !rows[a.row.value].status.Successful?
  }

  function UncreditedAt(arrivals: seq<Arrival>, rows: seq<Txn>): nat -> int {
    (k: nat) => if k < |arrivals| && IsUncredited(arrivals[k], rows) then arrivals[k].amount else 0
  }

  function Uncredited(w: World): int {
    SumTo(|w.arrivals|, UncreditedAt(w.arrivals, w.db.rows))
  }

  function CreditedAt(rows: seq<Txn>): nat -> int {
    (i: nat) => if i < |rows| && rows[i].kind.Deposit? && rows[i].status.Successful? then rows[i].amount else 0
  }

  function ReversalAt(rows: seq<Txn>): nat -> int {
    (i: nat) => if i < |rows| && rows[i].kind.Reversal? then rows[i].amount else 0
  }

  function CostAt(rows: seq<Txn>): nat -> int {
    (i: nat) => if i < |rows| && IsOutgoing(rows[i]) then rows[i].amount + rows[i].fee else 0
  }

  // Staff credits minus staff debits.
  function ManualAt(rows: seq<Txn>): nat -> int {
    (i: nat) =>
      if i < |rows| && rows[i].kind.Adjustment?
      then if rows[i].direction.Credit? then rows[i].amount else -rows[i].amount
      else 0
  }

  function SentAt(rows: seq<Txn>, sent: set<nat>): nat -> int {
    (i: nat) => if i < |rows| && IsOutgoing(rows[i]) && i in sent then rows[i].amount else 0
  }

  // Not refunded and still in the pool.
  function UnsentAt(rows: seq<Txn>, sent: set<nat>): nat -> int {
    (i: nat) => if i < |rows| && IsOpen(rows, rows[i]) && i !in sent then rows[i].amount else 0
  }

  // Refunded although it left the pool.
  function PaidTwiceAt(rows: seq<Txn>, sent: set<nat>): nat -> int {
    (i: nat) =>
      if i < |rows| && IsOutgoing(rows[i]) && Refunded(rows, rows[i]) && i in sent then rows[i].amount else 0
  }

  // ---- What each step keeps --------------------------------------------------

  predicate LinkOk(a: Arrival, rows: seq<Txn>) {
    a.row.Some? ==> && a.row.value < |rows| && rows[a.row.value].kind.Deposit?
                    && rows[a.row.value].amount == a.amount && rows[a.row.value].reference == a.reference
  }

  // Each recorded deposit records one arrival.
  predicate LinksOk(arrivals: seq<Arrival>, rows: seq<Txn>) {
    && (forall k | 0 <= k < |arrivals| :: LinkOk(arrivals[k], rows))
    && (forall k, l | 0 <= k < l < |arrivals| && arrivals[k].row.Some? :: arrivals[k].row != arrivals[l].row)
    && (forall i: nat {:trigger IsLinked(arrivals, i)} | i < |rows| && rows[i].kind.Deposit? ::
          IsLinked(arrivals, i))
  }

  predicate IsLinked(arrivals: seq<Arrival>, i: nat) {
    exists k | 0 <= k < |arrivals| :: arrivals[k].row == Some(i)
  }

  predicate DepositsAddUp(w: World) {
    Uncredited(w) + SumTo(|w.db.rows|, CreditedAt(w.db.rows)) == SumTo(|w.arrivals|, ArrivedAt(w.arrivals))
  }

  predicate RefundsAddUp(w: World) {
    SumTo(|w.db.rows|, ReversalAt(w.db.rows)) + OpenTotal(w.db.rows, CostOf())
      == SumTo(|w.db.rows|, CostAt(w.db.rows))
  }

  predicate PoolAddsUp(w: World, opening: int) {
    && (forall i | i in w.sent :: i < |w.db.rows|)
    && w.pool == opening + SumTo(|w.arrivals|, ArrivedAt(w.arrivals))
                 - SumTo(|w.db.rows|, SentAt(w.db.rows, w.sent))
  }

  lemma ColumnsSum(rows: seq<Txn>, rows': seq<Txn>, f: nat -> int, f': nat -> int, v: Txn -> int)
    requires RowsGrow(rows, rows') && |rows'| <= |rows| + 1
    requires forall t, u :: SameIdentity(t, u) ==> v(t) == v(u)
    requires forall i: nat | i < |rows| :: f(i) == v(rows[i])
    requires forall i: nat | i < |rows'| :: f'(i) == v(rows'[i])
    ensures SumTo(|rows'|, f') == SumTo(|rows|, f) + (if |rows'| > |rows| then v(rows'[|rows|]) else 0)
  {
    forall i: nat | i < |rows| ensures f(i) == f'(i) {
      assert SameIdentity(rows[i], rows'[i]);
    }
    SumSame(|rows|, f, f');
    if |rows'| > |rows| {
      assert SumTo(|rows'|, f') == SumTo(|rows|, f') + f'(|rows|);
    } else {
      assert |rows'| == |rows|;
    }
  }

  lemma StepAddsAtMostOneRow(w: World, s: Step)
    ensures |w.db.rows| <= |Apply(w, s).db.rows| <= |w.db.rows| + 1
    ensures |Apply(w, s).db.rows| > |w.db.rows| <==>
              (PayoutCommits(w, s) || BillCommits(w, s) || RefundCommits(w, s)
               || (s.RecordPayin? && Apply(w, s).db != w.db) || (s.Post? && Apply(w, s).db != w.db))
  {
  }

  // The row a step adds.
  lemma AddedRow(w: World, s: Step)
    requires |Apply(w, s).db.rows| > |w.db.rows|
    ensures var t := Apply(w, s).db.rows[|w.db.rows|];
            if PayoutCommits(w, s) then SameIdentity(PayoutRow(w.db, s.payout), t)
            else if BillCommits(w, s) then SameIdentity(BillRow(s.bill), t)
            else if RefundCommits(w, s) then
              && t.kind.Reversal? && w.threads[s.thread].txn < |w.db.rows|
              && t.amount == w.db.rows[w.threads[s.thread].txn].amount + w.db.rows[w.threads[s.thread].txn].fee
            else !IsOutgoing(t) && !t.kind.Reversal?
  {
  }

  function ReversalOf(): Txn -> int { (t: Txn) => if t.kind.Reversal? then t.amount else 0 }

  function OutgoingCostOf(): Txn -> int { (t: Txn) => if IsOutgoing(t) then t.amount + t.fee else 0 }

  lemma ReversalsAfter(w: World, s: Step)
    ensures SumTo(|Apply(w, s).db.rows|, ReversalAt(Apply(w, s).db.rows))
         == SumTo(|w.db.rows|, ReversalAt(w.db.rows))
            + (if RefundCommits(w, s) then CostOf()(w.db.rows[w.threads[s.thread].txn]) else 0)
  {
    StepKeepsColumns(w, s);
    StepAddsAtMostOneRow(w, s);
    var rows, rows' := w.db.rows, Apply(w, s).db.rows;
    ColumnsSum(rows, rows', ReversalAt(rows), ReversalAt(rows'), ReversalOf());
    if |rows'| > |rows| { AddedRow(w, s); }
  }

  lemma CostsAfter(w: World, s: Step)
    ensures SumTo(|Apply(w, s).db.rows|, CostAt(Apply(w, s).db.rows))
         == SumTo(|w.db.rows|, CostAt(w.db.rows))
            + (if PayoutCommits(w, s) then CostOf()(PayoutRow(w.db, s.payout))
               else if BillCommits(w, s) then CostOf()(BillRow(s.bill)) else 0)
  {
    StepKeepsColumns(w, s);
    StepAddsAtMostOneRow(w, s);
    var rows, rows' := w.db.rows, Apply(w, s).db.rows;
    ColumnsSum(rows, rows', CostAt(rows), CostAt(rows'), OutgoingCostOf());
    if |rows'| > |rows| { AddedRow(w, s); }
  }

  lemma StepKeepsRefundsAddUp(w: World, s: Step)
    requires Inv(w) && RefundsAddUp(w)
    ensures RefundsAddUp(Apply(w, s))
  {
    StepInOpen(w, s, CostOf());
    ReversalsAfter(w, s);
    CostsAfter(w, s);
  }

  lemma SentAfterLeaving(rows: seq<Txn>, sent: set<nat>, i: nat)
    requires i < |rows| && IsOutgoing(rows[i]) && i !in sent
    ensures SumTo(|rows|, SentAt(rows, sent + {i})) == SumTo(|rows|, SentAt(rows, sent)) + rows[i].amount
  {
    SumDiff(|rows|, i, SentAt(rows, sent), SentAt(rows, sent + {i}));
  }

  lemma SentIsStable(rows: seq<Txn>, rows': seq<Txn>, sent: set<nat>)
    requires RowsGrow(rows, rows') && |rows'| <= |rows| + 1
    requires forall i | i in sent :: i < |rows|
    ensures SumTo(|rows'|, SentAt(rows', sent)) == SumTo(|rows|, SentAt(rows, sent))
  {
    forall i: nat | i < |rows| ensures SentAt(rows, sent)(i) == SentAt(rows', sent)(i) {
      assert SameIdentity(rows[i], rows'[i]);
    }
    SumSame(|rows|, SentAt(rows, sent), SentAt(rows', sent));
  }

  lemma ArrivalsAfter(w: World, s: Step)
    ensures SumTo(|Apply(w, s).arrivals|, ArrivedAt(Apply(w, s).arrivals))
         == SumTo(|w.arrivals|, ArrivedAt(w.arrivals)) + (if s.DepositArrives? then s.amount else 0)
  {
    SumSame(|w.arrivals|, ArrivedAt(w.arrivals), ArrivedAt(Apply(w, s).arrivals));
  }

  lemma LeavingKeepsPoolAddsUp(w: World, s: Step, opening: int)
    requires PoolAddsUp(w, opening) && s.TransferLeaves?
    ensures PoolAddsUp(Apply(w, s), opening)
  {
    if Apply(w, s).sent != w.sent {
      SentAfterLeaving(w.db.rows, w.sent, s.txn);
    }
  }

  lemma StepKeepsPoolAddsUp(w: World, s: Step, opening: int)
    requires PoolAddsUp(w, opening)
    ensures PoolAddsUp(Apply(w, s), opening)
  {
    if s.TransferLeaves? {
      LeavingKeepsPoolAddsUp(w, s, opening);
    } else {
      ArrivalsAfter(w, s);
      StepKeepsColumns(w, s);
      StepAddsAtMostOneRow(w, s);
      SentIsStable(w.db.rows, Apply(w, s).db.rows, w.sent);
      OnlyArrivalsFillThePool(w, s);
    }
  }

  lemma OnlyArrivalsFillThePool(w: World, s: Step)
    requires !s.TransferLeaves?
    ensures Apply(w, s).sent == w.sent
    ensures Apply(w, s).pool == w.pool + (if s.DepositArrives? then s.amount else 0)
  {
  }

  // ---- Deposits --------------------------------------------------------------

  // Rows changed without settling or adding a deposit.
  lemma LinksSurvive(w: World, w': World)
    requires LinksOk(w.arrivals, w.db.rows) && DepositsAddUp(w)
    requires w'.arrivals == w.arrivals && RowsGrow(w.db.rows, w'.db.rows)
    requires |w'.db.rows| <= |w.db.rows| + 1
    requires forall i: nat | i < |w.db.rows| && w.db.rows[i].kind.Deposit? ::
               w'.db.rows[i].status.Successful? <==> w.db.rows[i].status.Successful?
    requires |w'.db.rows| > |w.db.rows| ==> !w'.db.rows[|w.db.rows|].kind.Deposit?
    ensures LinksOk(w'.arrivals, w'.db.rows) && DepositsAddUp(w')
  {
    var rows, rows' := w.db.rows, w'.db.rows;
    forall k | 0 <= k < |w.arrivals|
      ensures LinkOk(w.arrivals[k], rows')
      ensures IsUncredited(w.arrivals[k], rows) <==> IsUncredited(w.arrivals[k], rows')
    {
      assert LinkOk(w.arrivals[k], rows);
      if w.arrivals[k].row.Some? {
        assert SameIdentity(rows[w.arrivals[k].row.value], rows'[w.arrivals[k].row.value]);
      }
    }
    forall i: nat | i < |rows'| && rows'[i].kind.Deposit?
      ensures IsLinked(w'.arrivals, i)
    {
      assert SameIdentity(rows[i], rows'[i]) && IsLinked(w.arrivals, i);
    }
    SumSame(|w.arrivals|, UncreditedAt(w.arrivals, rows), UncreditedAt(w.arrivals, rows'));
    forall i: nat | i < |rows| ensures CreditedAt(rows)(i) == CreditedAt(rows')(i) {
      assert SameIdentity(rows[i], rows'[i]);
    }
    SumSame(|rows|, CreditedAt(rows), CreditedAt(rows'));
  }

  lemma SettlingAddsUp(w: World, w': World, i: nat)
    requires LinksOk(w.arrivals, w.db.rows) && DepositsAddUp(w)
    requires w'.arrivals == w.arrivals && SettlesOne(w.db.rows, w'.db.rows, i)
    ensures LinksOk(w'.arrivals, w'.db.rows) && DepositsAddUp(w')
  {
    var rows, rows' := w.db.rows, w'.db.rows;
    assert IsLinked(w.arrivals, i);
    var k: nat :| k < |w.arrivals| && w.arrivals[k].row == Some(i);
    assert LinkOk(w.arrivals[k], rows);
    forall l | 0 <= l < |w.arrivals| ensures LinkOk(w.arrivals[l], rows') {
      assert LinkOk(w.arrivals[l], rows);
    }
    forall l: nat | l < |w.arrivals| && l != k
      ensures UncreditedAt(w.arrivals, rows)(l) == UncreditedAt(w.arrivals, rows')(l)
    {
      assert w.arrivals[l].row != Some(i);
    }
    SumDiff(|w.arrivals|, k, UncreditedAt(w.arrivals, rows), UncreditedAt(w.arrivals, rows'));
    SumDiff(|rows|, i, CreditedAt(rows), CreditedAt(rows'));
  }

  // A new deposit row `row` records arrival `k`.
  predicate Records(w: World, w': World, k: nat, row: Txn) {
    && k < |w.arrivals| && row.kind.Deposit? && !row.status.Successful?
    && row.amount == w.arrivals[k].amount && row.reference == w.arrivals[k].reference
    && w'.db.rows == w.db.rows + [row]
    && w'.arrivals == w.arrivals[k := w.arrivals[k].(row := Some(|w.db.rows|))]
  }

  lemma RecordingKeepsLinks(w: World, w': World, k: nat, row: Txn)
    requires LinksOk(w.arrivals, w.db.rows) && Records(w, w', k, row) && w.arrivals[k].row.None?
    ensures LinksOk(w'.arrivals, w'.db.rows)
  {
    var rows, rows' := w.db.rows, w'.db.rows;
    forall l | 0 <= l < |w.arrivals| ensures LinkOk(w'.arrivals[l], rows') {
      assert LinkOk(w.arrivals[l], rows);
    }
    forall l, m | 0 <= l < m < |w'.arrivals| && w'.arrivals[l].row.Some?
      ensures w'.arrivals[l].row != w'.arrivals[m].row
    {
      assert LinkOk(w.arrivals[l], rows) && LinkOk(w.arrivals[m], rows);
    }
    forall i: nat | i < |rows'| && rows'[i].kind.Deposit?
      ensures IsLinked(w'.arrivals, i)
    {
      if i == |rows| {
        assert w'.arrivals[k].row == Some(i);
      } else {
        assert IsLinked(w.arrivals, i);
        var l :| 0 <= l < |w.arrivals| && w.arrivals[l].row == Some(i);
        assert w'.arrivals[l].row == Some(i);
      }
    }
  }

  lemma RecordingAddsUp(w: World, w': World, k: nat, row: Txn)
    requires LinksOk(w.arrivals, w.db.rows) && DepositsAddUp(w)
    requires Records(w, w', k, row) && w.arrivals[k].row.None?
    ensures DepositsAddUp(w')
  {
    var rows, rows' := w.db.rows, w'.db.rows;
    forall l: nat | l < |w.arrivals|
      ensures UncreditedAt(w.arrivals, rows)(l) == UncreditedAt(w'.arrivals, rows')(l)
    {
      assert LinkOk(w.arrivals[l], rows);
    }
    SumSame(|w.arrivals|, UncreditedAt(w.arrivals, rows), UncreditedAt(w'.arrivals, rows'));
    SumSame(|rows|, CreditedAt(rows), CreditedAt(rows'));
    assert CreditedAt(rows')(|rows|) == 0;
    SumSame(|w.arrivals|, ArrivedAt(w.arrivals), ArrivedAt(w'.arrivals));
  }

  lemma RecordedReferenceIsTaken(w: World, k: nat)
    requires ShapesOk(w.db.rows) && LinksOk(w.arrivals, w.db.rows) && k < |w.arrivals|
    ensures w.arrivals[k].row.Some? ==> ReferenceTaken(w.db.rows, Vfd, w.arrivals[k].reference)
  {
    var a := w.arrivals[k];
    assert LinkOk(a, w.db.rows);
    if a.row.Some? {
      assert ShapeOk(w.db.rows[a.row.value]);
    }
  }

  // An arrival already recorded is not recorded again: its reference is taken.
  lemma OnlyNewArrivalsAreRecorded(w: World, s: Step) returns (row: Txn)
    requires Inv(w) && LinksOk(w.arrivals, w.db.rows)
    requires s.RecordPayin? && Apply(w, s).db != w.db
    ensures Records(w, Apply(w, s), s.arrival, row) && w.arrivals[s.arrival].row.None?
  {
    var a := w.arrivals[s.arrival];
    RecordedReferenceIsTaken(w, s.arrival);
    row := DepositRow(s.wallet, a.amount, a.reference, s.now);
  }

  lemma ArrivalKeepsLinks(arrivals: seq<Arrival>, rows: seq<Txn>, a: Arrival)
    requires LinksOk(arrivals, rows) && a.row.None?
    ensures LinksOk(arrivals + [a], rows)
  {
    var arrivals' := arrivals + [a];
    forall i: nat | i < |rows| && rows[i].kind.Deposit?
      ensures IsLinked(arrivals', i)
    {
      assert IsLinked(arrivals, i);
      var l :| 0 <= l < |arrivals| && arrivals[l].row == Some(i);
      assert arrivals'[l].row == Some(i);
    }
  }

  lemma ArrivalAddsUp(w: World, s: Step)
    requires LinksOk(w.arrivals, w.db.rows) && DepositsAddUp(w) && s.DepositArrives?
    ensures LinksOk(Apply(w, s).arrivals, Apply(w, s).db.rows) && DepositsAddUp(Apply(w, s))
  {
    var w' := Apply(w, s);
    ArrivalKeepsLinks(w.arrivals, w.db.rows, Arrival(s.reference, s.amount, None));
    SumSame(|w.arrivals|, UncreditedAt(w.arrivals, w.db.rows), UncreditedAt(w'.arrivals, w.db.rows));
    ArrivalsAfter(w, s);
  }

  // Row `i`, a deposit not settled yet, becomes SUCCESSFUL; no other changes.
  predicate SettlesOne(rows: seq<Txn>, rows': seq<Txn>, i: nat) {
    && i < |rows| && rows[i].kind.Deposit? && !rows[i].status.Successful?
    && |rows'| == |rows| && (forall k | 0 <= k < |rows| && k != i :: rows'[k] == rows[k])
    && SameIdentity(rows[i], rows'[i]) && rows'[i].status.Successful?
  }

  lemma CreditSettlesOne(w: World, i: nat)
    requires JobsOk(w) && Apply(w, JobCredit(i)).db != w.db
    ensures SettlesOne(w.db.rows, Apply(w, JobCredit(i)).db.rows, i)
  {
    assert JobOk(w.db.rows, i, w.jobs[i]);
  }

  lemma AssignmentSettlesOne(w: World, i: nat, wallet: nat, resolver: string)
    requires ParkedOk(w) && Apply(w, Assign(i, wallet, resolver)).db != w.db
    ensures SettlesOne(w.db.rows, Apply(w, Assign(i, wallet, resolver)).db.rows, i)
  {
    assert i in w.parked;
  }

  // The two steps that settle a deposit settle one that was not settled.
  lemma SettlingSteps(w: World, s: Step)
    requires JobsOk(w) && ParkedOk(w) && (s.JobCredit? || s.Assign?) && Apply(w, s).db != w.db
    ensures SettlesOne(w.db.rows, Apply(w, s).db.rows, s.txn)
  {
    match s
    case JobCredit(i) => CreditSettlesOne(w, i);
    case Assign(i, wallet, resolver) => AssignmentSettlesOne(w, i, wallet, resolver);
  }

  lemma ArrivalsOnlyChangeBy(w: World, s: Step)
    requires !s.DepositArrives? && (s.RecordPayin? ==> Apply(w, s).db == w.db)
    ensures Apply(w, s).arrivals == w.arrivals
  {
    assert s.RecordPayin? && s.arrival < |w.arrivals|
           && (s.wallet.Some? ==> s.wallet.value < |w.db.wallets|)
           && !PayinIgnored(w.db, w.arrivals[s.arrival].reference, s.sessionTaken)
           ==> |Apply(w, s).db.rows| == |w.db.rows| + 1;
  }

  lemma StepKeepsDepositsAddUp(w: World, s: Step)
    requires Inv(w) && LinksOk(w.arrivals, w.db.rows) && DepositsAddUp(w)
    ensures LinksOk(Apply(w, s).arrivals, Apply(w, s).db.rows) && DepositsAddUp(Apply(w, s))
  {
    var w' := Apply(w, s);
    if s.DepositArrives? {
      ArrivalAddsUp(w, s);
    } else if s.RecordPayin? && w'.db != w.db {
      var row := OnlyNewArrivalsAreRecorded(w, s);
      RecordingKeepsLinks(w, w', s.arrival, row);
      RecordingAddsUp(w, w', s.arrival, row);
    } else {
      ArrivalsOnlyChangeBy(w, s);
      if (s.JobCredit? || s.Assign?) && w'.db != w.db {
        SettlingSteps(w, s);
        SettlingAddsUp(w, w', s.txn);
      } else {
        StepKeepsColumns(w, s);
        StepAddsAtMostOneRow(w, s);
        OtherStepsSettleNothing(w, s);
        LinksSurvive(w, w');
      }
    }
  }

  predicate SettlesNothing(rows: seq<Txn>, rows': seq<Txn>) {
    && |rows| <= |rows'|
    && (forall i: nat | i < |rows| && rows[i].kind.Deposit? ::
          rows'[i].status.Successful? <==> rows[i].status.Successful?)
    && (|rows'| > |rows| ==> !rows'[|rows|].kind.Deposit?)
  }

  lemma ClosingJobSettlesNothing(w: World, s: Step)
    requires JobsOk(w) && (s.JobMark? || s.JobExhausted?)
    ensures SettlesNothing(w.db.rows, Apply(w, s).db.rows)
  {
    if Apply(w, s).db != w.db {
      assert JobOk(w.db.rows, s.txn, w.jobs[s.txn]);
    }
  }

  lemma DecidingSettlesNothing(w: World, s: Step)
    requires ThreadsOk(w) && (s.WriteSuccess? || s.CommitReversal?)
    ensures SettlesNothing(w.db.rows, Apply(w, s).db.rows)
  {
    if s.thread in w.threads {
      assert PcOk(w.db.rows, w.answers, w.threads[s.thread]);
    }
  }

  lemma BookingSettlesNothing(w: World, s: Step)
    requires s.InitiatePayout? || s.PayBill? || s.Post?
    ensures SettlesNothing(w.db.rows, Apply(w, s).db.rows)
  {
  }

  lemma OtherStepsSettleNothing(w: World, s: Step)
    requires JobsOk(w) && ThreadsOk(w) && (s.RecordPayin? || s.JobCredit? || s.Assign? ==> Apply(w, s).db == w.db)
    ensures SettlesNothing(w.db.rows, Apply(w, s).db.rows)
  {
    if s.JobMark? || s.JobExhausted? {
      ClosingJobSettlesNothing(w, s);
    } else if s.WriteSuccess? || s.CommitReversal? {
      DecidingSettlesNothing(w, s);
    } else if s.InitiatePayout? || s.PayBill? || s.Post? {
      BookingSettlesNothing(w, s);
    }
  }

  // ---- The identity ----------------------------------------------------------

  ghost predicate AllAddUp(w: World, opening: int) {
    && LinksOk(w.arrivals, w.db.rows)
    && DepositsAddUp(w) && RefundsAddUp(w) && PoolAddsUp(w, opening)
  }

  lemma {:induction false} RunsAddUp(opening: int, run: seq<Step>)
    ensures AllAddUp(Exec(opening, run), opening)
  {
    if |run| == 0 {
    } else {
      var w := Exec(opening, run[..|run| - 1]);
      var s := run[|run| - 1];
      RunsAddUp(opening, run[..|run| - 1]);
      RunKeepsInv(opening, run[..|run| - 1]);
      StepKeepsDepositsAddUp(w, s);
      StepKeepsRefundsAddUp(w, s);
      StepKeepsPoolAddsUp(w, s, opening);
    }
  }

  lemma EffectOfKind(t: Txn)
    requires ShapeOk(t)
    ensures Effect(t) ==
      match t.kind {
        case Deposit => if t.status.Successful? then t.amount else 0
        case Reversal => t.amount
        case Adjustment => if t.direction.Credit? then t.amount else -t.amount
        case _ => -(t.amount + t.fee)
      }
  {
  }

  // The effect of all rows, by kind.
  lemma EffectsByKind(rows: seq<Txn>)
    requires ShapesOk(rows)
    ensures SumTo(|rows|, EffectAll(rows))
         == SumTo(|rows|, CreditedAt(rows)) + SumTo(|rows|, ReversalAt(rows))
            + SumTo(|rows|, ManualAt(rows)) - SumTo(|rows|, CostAt(rows))
  {
    var credits := (i: nat) => CreditedAt(rows)(i) + ReversalAt(rows)(i);
    var net := (i: nat) => ManualAt(rows)(i) - CostAt(rows)(i);
    forall i: nat | i < |rows| ensures EffectAll(rows)(i) == credits(i) + net(i) {
      assert ShapeOk(rows[i]);
      EffectOfKind(rows[i]);
      assert credits(i) == CreditedAt(rows)(i) + ReversalAt(rows)(i);
      assert net(i) == ManualAt(rows)(i) - CostAt(rows)(i);
    }
    SumSplit(|rows|, EffectAll(rows), credits, net);
    SumSplit(|rows|, credits, CreditedAt(rows), ReversalAt(rows));
    SumSplit(|rows|, ManualAt(rows), net, CostAt(rows));
  }

  lemma OpenCostSplits(rows: seq<Txn>, sent: set<nat>)
    ensures OpenTotal(rows, CostOf()) - SumTo(|rows|, SentAt(rows, sent))
         == OpenTotal(rows, FeeOf()) + SumTo(|rows|, UnsentAt(rows, sent))
            - SumTo(|rows|, PaidTwiceAt(rows, sent))
  {
    var left := (i: nat) => OpenAt(rows, CostOf())(i) + PaidTwiceAt(rows, sent)(i);
    var right := (i: nat) => OpenAt(rows, FeeOf())(i) + UnsentAt(rows, sent)(i);
    SumSplit(|rows|, left, OpenAt(rows, CostOf()), PaidTwiceAt(rows, sent));
    SumSplit(|rows|, right, OpenAt(rows, FeeOf()), UnsentAt(rows, sent));
    SumSplit(|rows|, left, right, SentAt(rows, sent));
  }

  // In every state of every run, what the console calls the difference is the
  // opening difference, the fees kept, the deposits not credited, the debits
  // not sent, less the net staff adjustment and what was paid and refunded.
  lemma DifferenceExplained(opening: int, run: seq<Step>)
    ensures var w := Exec(opening, run);
            var rows := w.db.rows;
            Difference(w) == opening
              + OpenTotal(rows, FeeOf())
              + Uncredited(w)
              + SumTo(|rows|, UnsentAt(rows, w.sent))
              - SumTo(|rows|, ManualAt(rows))
              - SumTo(|rows|, PaidTwiceAt(rows, w.sent))
  {
    RunKeepsInv(opening, run);
    RunsAddUp(opening, run);
    var w := Exec(opening, run);
    EffectsByKind(w.db.rows);
    OpenCostSplits(w.db.rows, w.sent);
  }

  // Money that left was not also refused.
  predicate SentNotRejected(w: World) {
    forall i | i in w.sent :: (i, Rejected) !in w.answers
  }

  function UnsentNonFailedAt(rows: seq<Txn>, sent: set<nat>): nat -> int {
    (i: nat) =>
      if i < |rows| && IsOutgoing(rows[i]) && !rows[i].status.Failed? && i !in sent then rows[i].amount else 0
  }

  lemma PointwiseWithHonestProvider(w: World)
    requires Inv(w) && NeverBoth(w.answers) && SentNotRejected(w)
    ensures SumTo(|w.db.rows|, PaidTwiceAt(w.db.rows, w.sent)) == 0
    ensures SumTo(|w.db.rows|, UnsentAt(w.db.rows, w.sent))
         == SumTo(|w.db.rows|, UnsentNonFailedAt(w.db.rows, w.sent))
  {
    forall i: nat | i < |w.db.rows|
      ensures PaidTwiceAt(w.db.rows, w.sent)(i) == 0
      ensures UnsentAt(w.db.rows, w.sent)(i) == UnsentNonFailedAt(w.db.rows, w.sent)(i)
    {
      if IsOutgoing(w.db.rows[i]) {
        assert StatusOk(w.db.rows, w.answers, i);
        if (i, Succeeded) in w.answers { assert (i, Succeeded).1.Succeeded?; }
      }
    }
    SumZero(|w.db.rows|, PaidTwiceAt(w.db.rows, w.sent));
    SumSame(|w.db.rows|, UnsentAt(w.db.rows, w.sent), UnsentNonFailedAt(w.db.rows, w.sent));
  }

  // With a provider that means what it answers, in the terms of the report.
  lemma DifferenceWithHonestProvider(opening: int, run: seq<Step>)
    requires NeverBoth(Exec(opening, run).answers) && SentNotRejected(Exec(opening, run))
    ensures var w := Exec(opening, run);
            var rows := w.db.rows;
            Difference(w) == opening
              + NonFailedTotal(rows, FeeOf())
              + Uncredited(w)
              + SumTo(|rows|, UnsentNonFailedAt(rows, w.sent))
              - SumTo(|rows|, ManualAt(rows))
  {
    RunKeepsInv(opening, run);
    DifferenceExplained(opening, run);
    NonFailedIsOpen(opening, run, FeeOf());
    PointwiseWithHonestProvider(Exec(opening, run));
  }

  // ---- The fee split ---------------------------------------------------------

  // The rows of the activity window.
  predicate Reported(t: Txn, since: int) {
    t.status.Successful? && t.createdAt >= since
  }

  function ReportedAt(rows: seq<Txn>, since: int, v: Txn -> int): nat -> int {
    (i: nat) => if i < |rows| && Reported(rows[i], since) then v(rows[i]) else 0
  }

  // SUM(fee) - SUM(fee_vat) - SUM(stamp_duty), as the console reports it.
  function TransferFees(rows: seq<Txn>, since: int): int {
    SumTo(|rows|, ReportedAt(rows, since, FeeOf()))
      - SumTo(|rows|, ReportedAt(rows, since, (t: Txn) => t.feeVat))
      - SumTo(|rows|, ReportedAt(rows, since, (t: Txn) => t.stampDuty))
  }

  // What the service charged for itself: nothing on a payout that cost only its
  // stamp duty, the tier's fee on any other, and the whole fee of a bill.
  function OwnFee(t: Txn): int {
    if t.kind.Payout? then
      if t.fee == StampDuty(t.amount) then 0 else CalculateTransferFee(t.amount)
    else if t.kind.BillPayment? then t.fee
    else 0
  }

  lemma OwnFeeFromColumns(t: Txn)
    requires ShapeOk(t) && t.kind.Payout?
    ensures t.fee - t.feeVat - t.stampDuty == OwnFee(t)
  {
    ChargeSplits(true, t.amount);
    ChargeSplits(false, t.amount);
    FeePayingTotalGrows(t.amount, t.amount);
    assert WithVat(0) == 0;
  }

  predicate CreditsCarryNoFee(rows: seq<Txn>) {
    forall i | 0 <= i < |rows| && !IsOutgoing(rows[i]) ::
      rows[i].fee == 0 && rows[i].feeVat == 0 && rows[i].stampDuty == 0
  }

  lemma {:induction false} OnlyOutgoingCarryFees(opening: int, run: seq<Step>)
    ensures CreditsCarryNoFee(Exec(opening, run).db.rows)
  {
    if |run| == 0 {
    } else {
      var w := Exec(opening, run[..|run| - 1]);
      var s := run[|run| - 1];
      OnlyOutgoingCarryFees(opening, run[..|run| - 1]);
      StepKeepsColumns(w, s);
      StepAddsAtMostOneRow(w, s);
      forall i | 0 <= i < |Apply(w, s).db.rows| && !IsOutgoing(Apply(w, s).db.rows[i])
        ensures var t := Apply(w, s).db.rows[i]; t.fee == 0 && t.feeVat == 0 && t.stampDuty == 0
      {
        if i < |w.db.rows| {
          assert SameIdentity(w.db.rows[i], Apply(w, s).db.rows[i]);
        }
      }
    }
  }

  // Over any window the reported transfer fees are the sum of the base fees of
  // its payouts and of the fees of its bills.
  lemma TransferFeesAreOwnFees(opening: int, run: seq<Step>, since: int)
    ensures var rows := Exec(opening, run).db.rows;
            TransferFees(rows, since) == SumTo(|rows|, ReportedAt(rows, since, (t: Txn) => OwnFee(t)))
  {
    RunKeepsInv(opening, run);
    OnlyOutgoingCarryFees(opening, run);
    var rows := Exec(opening, run).db.rows;
    var own := ReportedAt(rows, since, (t: Txn) => OwnFee(t));
    var vat := ReportedAt(rows, since, (t: Txn) => t.feeVat);
    var duty := ReportedAt(rows, since, (t: Txn) => t.stampDuty);
    var rest := (i: nat) => vat(i) + duty(i);
    forall i: nat | i < |rows| ensures ReportedAt(rows, since, FeeOf())(i) == own(i) + rest(i) {
      assert ShapeOk(rows[i]);
      if rows[i].kind.Payout? { OwnFeeFromColumns(rows[i]); }
    }
    SumSplit(|rows|, ReportedAt(rows, since, FeeOf()), own, rest);
    SumSplit(|rows|, rest, vat, duty);
  }
}
