// What a payout or a bill costs and when it is refused, to the last unit and in
// both directions, in every state a run can reach.
module Prices {
  import opened Prelude
  import opened Sums
  import opened Charges
  import opened Ledger
  import opened Machine
  import opened Safety
  import opened Statements
  import opened Refunds
  import opened Open
  import opened Limits

  // ---- Free slots ------------------------------------------------------------

  // 1 for a payout of the wallet dated since then.
  function SlotSince(w: nat, since: int): Txn -> int {
    (t: Txn) => if t.kind.Payout? && t.walletId == Some(w) && t.createdAt >= since then 1 else 0
  }

  // Payouts of the wallet that stand: not refunded, or refunded and written
  // SUCCESSFUL over.
  function Standing(rows: seq<Txn>, w: nat, since: int): int {
    OpenTotal(rows, SlotSince(w, since)) + RevivedTotal(rows, SlotSince(w, since))
  }

  lemma UsedSlotsAreNonFailed(rows: seq<Txn>, w: nat, since: int)
    ensures UsedSlots(rows, w, since) == NonFailedTotal(rows, SlotSince(w, since))
  {
    forall i: nat | i < |rows|
      ensures UsedSlotAt(rows, w, since)(i) == NonFailedAt(rows, SlotSince(w, since))(i)
    {
    }
    SumSame(|rows|, UsedSlotAt(rows, w, since), NonFailedAt(rows, SlotSince(w, since)));
  }

  lemma UsedSlotsStand(opening: int, run: seq<Step>, w: nat, since: int)
    ensures UsedSlots(Exec(opening, run).db.rows, w, since) == Standing(Exec(opening, run).db.rows, w, since)
  {
    UsedSlotsAreNonFailed(Exec(opening, run).db.rows, w, since);
    NonFailedIsOpenOrRevived(opening, run, SlotSince(w, since));
  }

  // ---- The price of a payout -------------------------------------------------

  // A naira is 10,000 units. 10, 25 and 50 naira by the amount, with 7.5% on
  // top, to the kobo.
  function TierPrice(amount: int): int {
    if amount <= 50_000_000 then 107_500 else if amount <= 500_000_000 then 268_800 else 537_500
  }

  // 50 naira on 10,000 and more.
  function Levy(amount: int): int {
    if amount >= 100_000_000 then 500_000 else 0
  }

  // The last midnight in Lagos, an hour ahead of UTC; times are milliseconds.
  predicate IsLagosMidnight(since: int, now: int) {
    (since + 3_600_000) % 86_400_000 == 0 && since <= now < since + 86_400_000
  }

  lemma StartOfLagosDayIsMidnight(now: int, since: int)
    ensures IsLagosMidnight(since, now) <==> since == StartOfLagosDay(now)
  {
    LagosDaysPartitionTime(now, since);
    var q := (now + HOUR) / DAY;
    assert StartOfLagosDay(now) + HOUR == q * DAY;
    assert (q * DAY) % DAY == 0;
    if IsLagosMidnight(since, now) {
      var p := (since + HOUR) / DAY;
      assert since + HOUR == p * DAY;
      assert p * DAY <= now + HOUR < (p + 1) * DAY;
      assert p == q;
    }
  }

  lemma ScheduleInUnits(free: bool, amount: int)
    ensures Schedule(free, amount).total == (if free then 0 else TierPrice(amount)) + Levy(amount)
    ensures Schedule(free, amount).stampDuty == Levy(amount)
  {
    assert WithVat(TIER_1_FEE) == 107_500;
    assert WithVat(TIER_2_FEE) == 268_800;
    assert WithVat(TIER_3_FEE) == 537_500;
    assert WithVat(0) == 0;
  }

  // What a payout costs on top of its amount: nothing but the levy if the switch
  // is on and fewer than two payouts of the wallet stand since midnight.
  function PriceAt(w: World, wallet: nat, amount: int, since: int): int {
    (if w.db.freePayouts && Standing(w.db.rows, wallet, since) < 2 then 0 else TierPrice(amount)) + Levy(amount)
  }

  lemma ChargesAreThePrice(opening: int, run: seq<Step>, wallet: nat, amount: int, clock: int, since: int)
    requires IsLagosMidnight(since, clock)
    ensures PayoutCharges(Exec(opening, run).db, wallet, amount, clock).total
         == PriceAt(Exec(opening, run), wallet, amount, since)
  {
    StartOfLagosDayIsMidnight(clock, since);
    UsedSlotsStand(opening, run, wallet, since);
    ScheduleInUnits(FreeSlotOpen(Exec(opening, run).db, wallet, clock), amount);
  }

  // The three limits, in what the wallet has spent, refunds given back.
  predicate WithinDevice(rows: seq<Txn>, wallet: nat, amount: int, limit: Option<Limit>) {
    limit.Some? ==> Spent(rows, wallet, limit.value.since) + amount <= limit.value.amount
  }

  predicate WithinCaps(rows: seq<Txn>, wallet: nat, amount: int, caps: Option<Caps>, enforce: bool, since: int) {
    enforce && caps.Some? ==>
      && (caps.value.perTransfer.Some? ==> amount <= caps.value.perTransfer.value)
      && (caps.value.daily.Some? ==> Spent(rows, wallet, since) + amount <= caps.value.daily.value)
  }

  lemma CapsAreSpending(opening: int, run: seq<Step>, wallet: nat, amount: int, caps: Option<Caps>, enforce: bool,
                        clock: int, since: int)
    requires IsLagosMidnight(since, clock)
    ensures OverCaps(Exec(opening, run).db, wallet, amount, caps, enforce, clock)
            <==> !WithinCaps(Exec(opening, run).db.rows, wallet, amount, caps, enforce, since)
  {
    StartOfLagosDayIsMidnight(clock, since);
    OutflowIsSpent(opening, run, wallet, since);
  }

  // The provider's rows have this reference already.
  predicate InUse(rows: seq<Txn>, reference: string) {
    exists i | 0 <= i < |rows| :: rows[i].provider.Vfd? && rows[i].reference == reference
  }

  // In every reachable state, what a payout is answered: the first of the six
  // reasons that applies, or that it goes through.
  lemma PayoutIsRefusedExactly(opening: int, run: seq<Step>, q: PayoutRequest, since: int)
    requires IsLagosMidnight(since, q.clock)
    ensures var w := Exec(opening, run);
            PayoutRefusal(w.db, q) ==
              if q.amount <= 0 then Some(BadAmount)
              else if q.wallet >= |w.db.wallets| then Some(WalletNotFound)
              else if w.db.wallets[q.wallet] < q.amount + PriceAt(w, q.wallet, q.amount, since)
                then Some(InsufficientBalance)
              else if !WithinDevice(w.db.rows, q.wallet, q.amount, q.limit) then Some(NewDeviceLimit)
              else if !WithinCaps(w.db.rows, q.wallet, q.amount, q.caps, q.enforce, since) then Some(TransferLimit)
              else if InUse(w.db.rows, q.reference) then Some(DuplicateReference)
              else None
  {
    ChargesAreThePrice(opening, run, q.wallet, q.amount, q.clock, since);
    CapsAreSpending(opening, run, q.wallet, q.amount, q.caps, q.enforce, q.clock, since);
    if q.limit.Some? { OutflowIsSpent(opening, run, q.wallet, q.limit.value.since); }
  }

  // The row of a payout or bill on its way, dated when its transaction began.
  predicate IsNewDebit(t: Txn, wallet: nat, amount: int, fee: int, reference: string, createdAt: int) {
    && t.walletId == Some(wallet) && t.direction.Debit? && t.status.Processing? && t.provider.Vfd?
    && t.amount == amount && t.fee == fee && t.reference == reference && t.createdAt == createdAt
  }

  // The payout took its amount and the price, of which the duty, and nothing
  // from any other wallet, and added its row.
  predicate TakenAs(d: Db, d': Db, q: PayoutRequest, price: int, duty: int) {
    && q.wallet < |d.wallets|
    && d'.wallets == d.wallets[q.wallet := d.wallets[q.wallet] - q.amount - price]
    && |d'.rows| == |d.rows| + 1 && d'.rows[..|d.rows|] == d.rows
    && IsNewDebit(d'.rows[|d.rows|], q.wallet, q.amount, price, q.reference, q.createdAt)
    && d'.rows[|d.rows|].kind.Payout? && d'.rows[|d.rows|].stampDuty == duty
  }

  lemma PayoutTakesCharges(d: Db, q: PayoutRequest)
    requires PayoutRefusal(d, q).None?
    ensures var c := PayoutCharges(d, q.wallet, q.amount, q.clock);
            TakenAs(d, PayoutTx(d, q), q, c.total, c.stampDuty)
  {
  }

  // And what one that goes through takes: its amount and that price.
  lemma PayoutTakesExactly(opening: int, run: seq<Step>, q: PayoutRequest, since: int)
    requires IsLagosMidnight(since, q.clock) && PayoutRefusal(Exec(opening, run).db, q).None?
    ensures var w := Exec(opening, run);
            TakenAs(w.db, PayoutTx(w.db, q), q, PriceAt(w, q.wallet, q.amount, since), Levy(q.amount))
  {
    ChargesAreThePrice(opening, run, q.wallet, q.amount, q.clock, since);
    ScheduleInUnits(FreeSlotOpen(Exec(opening, run).db, q.wallet, q.clock), q.amount);
    PayoutTakesCharges(Exec(opening, run).db, q);
  }

  // ---- A slot given back -----------------------------------------------------

  lemma RefundRevivesNothing(w: World, s: Step, v: Txn -> int)
    requires Inv(w) && ReadsColumns(v) && RefundCommits(w, s)
    ensures RevivedTotal(Apply(w, s).db.rows, v) == RevivedTotal(w.db.rows, v)
  {
    var rows, rows' := w.db.rows, Apply(w, s).db.rows;
    RefundAddsACredit(w, s);
    StepKeepsColumns(w, s);
    forall i: nat | i < |rows| ensures RevivedAt(rows, v)(i) == RevivedAt(rows', v)(i) {
      RefundRevivesNoRow(w, s, v, i);
    }
    RevivedStay(rows, rows', v);
  }

  lemma RevivedStay(rows: seq<Txn>, rows': seq<Txn>, v: Txn -> int)
    requires |rows'| == |rows| + 1 && !IsOutgoing(rows'[|rows|])
    requires forall i: nat | i < |rows| :: RevivedAt(rows, v)(i) == RevivedAt(rows', v)(i)
    ensures RevivedTotal(rows', v) == RevivedTotal(rows, v)
  {
    SumSame(|rows|, RevivedAt(rows, v), RevivedAt(rows', v));
    SumLast(|rows|, RevivedAt(rows', v));
  }

  lemma RefundAddsACredit(w: World, s: Step)
    requires Inv(w) && RefundCommits(w, s)
    ensures |Apply(w, s).db.rows| == |w.db.rows| + 1 && !IsOutgoing(Apply(w, s).db.rows[|w.db.rows|])
  {
    assert PcOk(w.db.rows, w.answers, w.threads[s.thread]);
    RefundStep(w, s);
  }

  lemma RefundRevivesNoRow(w: World, s: Step, v: Txn -> int, i: nat)
    requires Inv(w) && ReadsColumns(v) && RefundCommits(w, s) && i < |w.db.rows|
    requires RowsGrow(w.db.rows, Apply(w, s).db.rows)
    ensures RevivedAt(w.db.rows, v)(i) == RevivedAt(Apply(w, s).db.rows, v)(i)
  {
    assert SameIdentity(w.db.rows[i], Apply(w, s).db.rows[i]);
    if IsOutgoing(w.db.rows[i]) {
      StepTracks(w, s, i);
      assert StatusOk(w.db.rows, w.answers, i) && ShapeOk(w.db.rows[i]);
      RevivedByStep(w, s, i);
    }
  }

  // A committed reversal of a payout frees its slot, exactly one.
  lemma ReversalFreesTheSlot(opening: int, run: seq<Step>, s: Step, wallet: nat, since: int)
    requires RefundCommits(Exec(opening, run), s)
    requires var w := Exec(opening, run);
             && w.threads[s.thread].txn < |w.db.rows| && w.db.rows[w.threads[s.thread].txn].kind.Payout?
             && w.db.rows[w.threads[s.thread].txn].walletId == Some(wallet)
             && w.db.rows[w.threads[s.thread].txn].createdAt >= since
    ensures Standing(Exec(opening, run + [s]).db.rows, wallet, since)
         == Standing(Exec(opening, run).db.rows, wallet, since) - 1
  {
    RunKeepsInv(opening, run);
    OneStep(opening, run, s);
    RefundInOpen(Exec(opening, run), s, SlotSince(wallet, since));
    RefundRevivesNothing(Exec(opening, run), s, SlotSince(wallet, since));
  }

  // ---- Bills -----------------------------------------------------------------

  // A bill costs the biller's convenience fee, and the configured fee on top
  // unless it is for airtime or data.
  function BillPrice(q: BillRequest): int {
    (if q.convenienceFee.Some? then q.convenienceFee.value else 0)
    + (match q.bill
       case Airtime => 0
       case Data => 0
       case _ => q.serviceFee)
  }

  lemma BillIsRefusedExactly(opening: int, run: seq<Step>, q: BillRequest, since: int)
    requires IsLagosMidnight(since, q.clock)
    ensures var w := Exec(opening, run);
            BillRefusal(w.db, q) ==
              if q.amount <= 0 then Some(BadAmount)
              else if q.wallet >= |w.db.wallets| then Some(WalletNotFound)
              else if w.db.wallets[q.wallet] < q.amount + BillPrice(q) then Some(InsufficientBalance)
              else if !WithinCaps(w.db.rows, q.wallet, q.amount, q.caps, q.enforce, since) then Some(TransferLimit)
              else if InUse(w.db.rows, q.reference) then Some(DuplicateReference)
              else None
  {
    CapsAreSpending(opening, run, q.wallet, q.amount, q.caps, q.enforce, q.clock, since);
  }

  // A committed bill takes its amount and the biller's fee for airtime and data,
  // whatever is configured, and exactly the configured fee more for all else.
  lemma BillTakesExactly(d: Db, q: BillRequest)
    requires BillRefusal(d, q).None?
    ensures q.wallet < |d.wallets|
    ensures BillTx(d, q).wallets == d.wallets[q.wallet := d.wallets[q.wallet] - q.amount - BillPrice(q)]
    ensures var rows' := BillTx(d, q).rows;
            && |rows'| == |d.rows| + 1 && rows'[..|d.rows|] == d.rows && rows'[|d.rows|].kind.BillPayment?
            && IsNewDebit(rows'[|d.rows|], q.wallet, q.amount, BillPrice(q), q.reference, q.createdAt)
  {
  }

  // ---- The per-transfer cap --------------------------------------------------

  // Every payout and bill of the wallet is enforced with at most `cap` a transfer.
  predicate PerTransferStep(s: Step, w: nat, cap: int) {
    && (s.InitiatePayout? && s.payout.wallet == w ==>
          && s.payout.enforce && s.payout.caps.Some? && s.payout.caps.value.perTransfer.Some?
          && s.payout.caps.value.perTransfer.value <= cap)
    && (s.PayBill? && s.bill.wallet == w ==>
          && s.bill.enforce && s.bill.caps.Some? && s.bill.caps.value.perTransfer.Some?
          && s.bill.caps.value.perTransfer.value <= cap)
  }

  predicate NoneAbove(rows: seq<Txn>, w: nat, cap: int) {
    forall i | 0 <= i < |rows| && IsOutgoing(rows[i]) && rows[i].walletId == Some(w) :: rows[i].amount <= cap
  }

  // The row a step adds, if it is a payout or a bill.
  lemma AddedOutgoing(w: World, s: Step)
    requires |Apply(w, s).db.rows| > |w.db.rows| && IsOutgoing(Apply(w, s).db.rows[|w.db.rows|])
    ensures PayoutCommits(w, s) || BillCommits(w, s)
    ensures PayoutCommits(w, s) ==> SameIdentity(PayoutRow(w.db, s.payout), Apply(w, s).db.rows[|w.db.rows|])
    ensures BillCommits(w, s) ==> SameIdentity(BillRow(s.bill), Apply(w, s).db.rows[|w.db.rows|])
  {
  }

  lemma AtMostOneAdded(w: World, s: Step)
    ensures |Apply(w, s).db.rows| <= |w.db.rows| + 1
  {
  }

  lemma OutgoingKeepsWallet(w: World, s: Step, i: nat)
    requires RowsGrow(w.db.rows, Apply(w, s).db.rows) && i < |w.db.rows|
    requires IsOutgoing(w.db.rows[i]) && ShapeOk(w.db.rows[i])
    ensures Apply(w, s).db.rows[i].walletId == w.db.rows[i].walletId
    ensures Apply(w, s).db.rows[i].amount == w.db.rows[i].amount
  {
    assert SameIdentity(w.db.rows[i], Apply(w, s).db.rows[i]);
  }

  lemma StepKeepsNoneAbove(w: World, s: Step, wallet: nat, cap: int)
    requires ShapesOk(w.db.rows) && NoneAbove(w.db.rows, wallet, cap) && PerTransferStep(s, wallet, cap)
    ensures NoneAbove(Apply(w, s).db.rows, wallet, cap)
  {
    var rows, rows' := w.db.rows, Apply(w, s).db.rows;
    StepKeepsColumns(w, s);
    AtMostOneAdded(w, s);
    forall i | 0 <= i < |rows'| && IsOutgoing(rows'[i]) && rows'[i].walletId == Some(wallet)
      ensures rows'[i].amount <= cap
    {
      if i < |rows| {
        assert SameIdentity(rows[i], rows'[i]) && ShapeOk(rows[i]);
        OutgoingKeepsWallet(w, s, i);
      } else {
        AddedOutgoing(w, s);
      }
    }
  }

  // Then no payout or bill of the wallet is ever above the cap.
  lemma {:induction false} PerTransferCapHolds(opening: int, run: seq<Step>, wallet: nat, cap: int)
    requires forall s | s in run :: PerTransferStep(s, wallet, cap)
    ensures NoneAbove(Exec(opening, run).db.rows, wallet, cap)
  {
    if |run| == 0 {
    } else {
      var front := run[..|run| - 1];
      PerTransferCapHolds(opening, front, wallet, cap);
      RunKeepsInv(opening, front);
      StepKeepsNoneAbove(Exec(opening, front), run[|run| - 1], wallet, cap);
    }
  }
}
