// The daily cap, the free payouts and the new-device limit over all runs.
module Limits {
  import opened Prelude
  import opened Sums
  import opened Charges
  import opened Ledger
  import opened Machine
  import opened Safety
  import opened Statements
  import opened Refunds
  import opened Open

  // ---- The daily cap ---------------------------------------------------------

  predicate InDay(t: Txn, w: nat, day: int) {
    t.walletId == Some(w) && day <= t.createdAt < day + DAY
  }

  function AmountInDay(w: nat, day: int): Txn -> int {
    (t: Txn) => if InDay(t, w, day) then t.amount else 0
  }

  // Every payout and bill of the wallet is checked against a cap of at most
  // `cap`.
  predicate CapsStep(s: Step, w: nat, cap: int) {
    && (s.InitiatePayout? && s.payout.wallet == w ==>
          && s.payout.enforce && s.payout.caps.Some? && s.payout.caps.value.daily.Some?
          && s.payout.caps.value.daily.value <= cap)
    && (s.PayBill? && s.bill.wallet == w ==>
          && s.bill.enforce && s.bill.caps.Some? && s.bill.caps.value.daily.Some?
          && s.bill.caps.value.daily.value <= cap)
  }

  // A payout or bill is late for the day it is dated when it is checked on a
  // later one. What step `s` adds to a figure of that day by coming late.
  function LateValue(w: World, s: Step, v: Txn -> int, day: int): int {
    if PayoutCommits(w, s) && StartOfLagosDay(s.payout.clock) > day then v(PayoutRow(w.db, s.payout))
    else if BillCommits(w, s) && StartOfLagosDay(s.bill.clock) > day then v(BillRow(s.bill))
    else 0
  }

  function LateTotal(opening: int, run: seq<Step>, v: Txn -> int, day: int): int {
    if |run| == 0 then 0
    else
      var front := run[..|run| - 1];
      LateTotal(opening, front, v, day) + LateValue(Exec(opening, front), run[|run| - 1], v, day)
  }

  // Checked on no later a Lagos day than the one it is dated.
  predicate OnTime(s: Step, w: nat) {
    && (s.InitiatePayout? && s.payout.wallet == w ==>
          StartOfLagosDay(s.payout.clock) <= StartOfLagosDay(s.payout.createdAt))
    && (s.PayBill? && s.bill.wallet == w ==>
          StartOfLagosDay(s.bill.clock) <= StartOfLagosDay(s.bill.createdAt))
  }

  // A figure of one wallet and one day.
  ghost predicate OfTheDay(v: Txn -> int, w: nat, day: int) {
    forall t :: v(t) != 0 ==> InDay(t, w, day)
  }

  lemma OnTimeIsNotLate(w: World, s: Step, wallet: nat, v: Txn -> int, day: int)
    requires OnTime(s, wallet) && OfTheDay(v, wallet, day) && StartOfLagosDay(day) == day
    ensures LateValue(w, s, v, day) == 0
  {
    if s.InitiatePayout? {
      LagosDaysPartitionTime(s.payout.createdAt, day);
      assert v(PayoutRow(w.db, s.payout)) != 0 ==> InDay(PayoutRow(w.db, s.payout), wallet, day);
    } else if s.PayBill? {
      LagosDaysPartitionTime(s.bill.createdAt, day);
      assert v(BillRow(s.bill)) != 0 ==> InDay(BillRow(s.bill), wallet, day);
    }
  }

  lemma {:induction false} NothingLate(opening: int, run: seq<Step>, wallet: nat, v: Txn -> int, day: int)
    requires forall s | s in run :: OnTime(s, wallet)
    requires OfTheDay(v, wallet, day) && StartOfLagosDay(day) == day
    ensures LateTotal(opening, run, v, day) == 0
  {
    if |run| > 0 {
      var front := run[..|run| - 1];
      NothingLate(opening, front, wallet, v, day);
      OnTimeIsNotLate(Exec(opening, front), run[|run| - 1], wallet, v, day);
    }
  }

  // What the check sums is at least what is still out of the wallet that day.
  lemma OpenDayIsWithinOutflow(rows: seq<Txn>, answers: set<(nat, Outcome)>, w: nat, day: int, since: int)
    requires ShapesOk(rows) && StatusesOk(rows, answers) && since <= day
    ensures OpenTotal(rows, AmountInDay(w, day)) <= OutflowSince(rows, w, since)
  {
    forall i: nat | i < |rows|
      ensures OpenAt(rows, AmountInDay(w, day))(i) <= OutflowAt(rows, w, since)(i)
    {
      assert ShapeOk(rows[i]);
      if IsOutgoing(rows[i]) { assert StatusOk(rows, answers, i); }
    }
    SumAtMost(|rows|, OpenAt(rows, AmountInDay(w, day)), OutflowAt(rows, w, since));
  }

  lemma PayoutFitsTheDay(w: World, s: Step, wallet: nat, cap: int, day: int)
    requires ShapesOk(w.db.rows) && StatusesOk(w.db.rows, w.answers) && PayoutCommits(w, s)
    requires CapsStep(s, wallet, cap) && StartOfLagosDay(s.payout.clock) <= day
    requires InDay(PayoutRow(w.db, s.payout), wallet, day)
    ensures OpenTotal(w.db.rows, AmountInDay(wallet, day)) + s.payout.amount <= cap
  {
    OpenDayIsWithinOutflow(w.db.rows, w.answers, wallet, day, StartOfLagosDay(s.payout.clock));
  }

  lemma BillFitsTheDay(w: World, s: Step, wallet: nat, cap: int, day: int)
    requires ShapesOk(w.db.rows) && StatusesOk(w.db.rows, w.answers) && BillCommits(w, s)
    requires CapsStep(s, wallet, cap) && StartOfLagosDay(s.bill.clock) <= day
    requires InDay(BillRow(s.bill), wallet, day)
    ensures OpenTotal(w.db.rows, AmountInDay(wallet, day)) + s.bill.amount <= cap
  {
    OpenDayIsWithinOutflow(w.db.rows, w.answers, wallet, day, StartOfLagosDay(s.bill.clock));
  }

  lemma RefundGivesBack(w: World, s: Step, wallet: nat, day: int)
    requires Inv(w) && RefundCommits(w, s)
    ensures OpenTotal(Apply(w, s).db.rows, AmountInDay(wallet, day)) <= OpenTotal(w.db.rows, AmountInDay(wallet, day))
  {
    StepInOpen(w, s, AmountInDay(wallet, day));
    assert ShapeOk(w.db.rows[w.threads[s.thread].txn]);
  }

  lemma StepKeepsCap(w: World, s: Step, wallet: nat, cap: int, day: int, late: int)
    requires Inv(w) && CapsStep(s, wallet, cap) && late >= 0
    requires OpenTotal(w.db.rows, AmountInDay(wallet, day)) <= cap + late
    ensures LateValue(w, s, AmountInDay(wallet, day), day) >= 0
    ensures OpenTotal(Apply(w, s).db.rows, AmountInDay(wallet, day))
         <= cap + late + LateValue(w, s, AmountInDay(wallet, day), day)
  {
    StepInOpen(w, s, AmountInDay(wallet, day));
    if PayoutCommits(w, s) {
      if InDay(PayoutRow(w.db, s.payout), wallet, day) && StartOfLagosDay(s.payout.clock) <= day {
        PayoutFitsTheDay(w, s, wallet, cap, day);
      }
    } else if BillCommits(w, s) {
      if InDay(BillRow(s.bill), wallet, day) && StartOfLagosDay(s.bill.clock) <= day {
        BillFitsTheDay(w, s, wallet, cap, day);
      }
    } else if RefundCommits(w, s) {
      RefundGivesBack(w, s, wallet, day);
    }
  }

  lemma {:induction false} CapAndLate(opening: int, run: seq<Step>, wallet: nat, cap: nat, day: int)
    requires forall s | s in run :: CapsStep(s, wallet, cap)
    ensures LateTotal(opening, run, AmountInDay(wallet, day), day) >= 0
    ensures OpenTotal(Exec(opening, run).db.rows, AmountInDay(wallet, day))
         <= cap + LateTotal(opening, run, AmountInDay(wallet, day), day)
  {
    if |run| == 0 {
    } else {
      var front := run[..|run| - 1];
      CapAndLate(opening, front, wallet, cap, day);
      RunKeepsInv(opening, front);
      StepKeepsCap(Exec(opening, front), run[|run| - 1], wallet, cap, day,
                   LateTotal(opening, front, AmountInDay(wallet, day), day));
    }
  }

  // In every state of every run the day's total is within the cap but for what
  // came late for the day, and within the cap when nothing did.
  lemma DailyCapHolds(opening: int, run: seq<Step>, wallet: nat, cap: nat, day: int)
    requires forall s | s in run :: CapsStep(s, wallet, cap)
    requires StartOfLagosDay(day) == day
    ensures OpenTotal(Exec(opening, run).db.rows, AmountInDay(wallet, day))
         <= cap + LateTotal(opening, run, AmountInDay(wallet, day), day)
    ensures (forall s | s in run :: OnTime(s, wallet)) ==>
              OpenTotal(Exec(opening, run).db.rows, AmountInDay(wallet, day)) <= cap
  {
    CapAndLate(opening, run, wallet, cap, day);
    if forall s | s in run :: OnTime(s, wallet) {
      NothingLate(opening, run, wallet, AmountInDay(wallet, day), day);
    }
  }

  // ---- Statuses and refunds --------------------------------------------------

  function NonFailedAt(rows: seq<Txn>, v: Txn -> int): nat -> int {
    (i: nat) => if i < |rows| && IsOutgoing(rows[i]) && !rows[i].status.Failed? then v(rows[i]) else 0
  }

  function NonFailedTotal(rows: seq<Txn>, v: Txn -> int): int {
    SumTo(|rows|, NonFailedAt(rows, v))
  }

  // Refunded, and then written SUCCESSFUL over.
  function RevivedAt(rows: seq<Txn>, v: Txn -> int): nat -> int {
    (i: nat) =>
      if i < |rows| && IsOutgoing(rows[i]) && rows[i].status.Successful? && Refunded(rows, rows[i])
      then v(rows[i]) else 0
  }

  function RevivedTotal(rows: seq<Txn>, v: Txn -> int): int {
    SumTo(|rows|, RevivedAt(rows, v))
  }

  lemma NonFailedRowIsOpenOrRevived(rows: seq<Txn>, answers: set<(nat, Outcome)>, v: Txn -> int, i: nat)
    requires i < |rows| && (IsOutgoing(rows[i]) ==> StatusOk(rows, answers, i))
    ensures NonFailedAt(rows, v)(i) == OpenAt(rows, v)(i) + RevivedAt(rows, v)(i)
  {
  }

  // The rows the service counts, those that are not FAILED, are in every state
  // the unrefunded ones and the revived ones.
  lemma NonFailedIsOpenOrRevived(opening: int, run: seq<Step>, v: Txn -> int)
    ensures var rows := Exec(opening, run).db.rows;
            NonFailedTotal(rows, v) == OpenTotal(rows, v) + RevivedTotal(rows, v)
  {
    RunKeepsInv(opening, run);
    NonFailedSplits(Exec(opening, run).db.rows, Exec(opening, run).answers, v);
  }

  lemma NonFailedSplits(rows: seq<Txn>, answers: set<(nat, Outcome)>, v: Txn -> int)
    requires StatusesOk(rows, answers)
    ensures NonFailedTotal(rows, v) == OpenTotal(rows, v) + RevivedTotal(rows, v)
  {
    forall i: nat | i < |rows|
      ensures NonFailedAt(rows, v)(i) == OpenAt(rows, v)(i) + RevivedAt(rows, v)(i)
    {
      assert IsOutgoing(rows[i]) ==> StatusOk(rows, answers, i);
      NonFailedRowIsOpenOrRevived(rows, answers, v, i);
    }
    SumSplit(|rows|, NonFailedAt(rows, v), OpenAt(rows, v), RevivedAt(rows, v));
  }

  lemma NothingRevived(rows: seq<Txn>, answers: set<(nat, Outcome)>, v: Txn -> int)
    requires StatusesOk(rows, answers) && NeverBoth(answers)
    ensures RevivedTotal(rows, v) == 0
  {
    forall i: nat | i < |rows| ensures RevivedAt(rows, v)(i) == 0 {
      if IsOutgoing(rows[i]) {
        assert StatusOk(rows, answers, i);
        if (i, Succeeded) in answers { assert (i, Succeeded).1.Succeeded?; }
      }
    }
    SumZero(|rows|, RevivedAt(rows, v));
  }

  // A provider that never answers both makes "not failed" and "not refunded"
  // the same rows, so the totals are the same.
  lemma NonFailedIsOpen(opening: int, run: seq<Step>, v: Txn -> int)
    requires NeverBoth(Exec(opening, run).answers)
    ensures NonFailedTotal(Exec(opening, run).db.rows, v) == OpenTotal(Exec(opening, run).db.rows, v)
  {
    RunKeepsInv(opening, run);
    var w := Exec(opening, run);
    NonFailedSplits(w.db.rows, w.answers, v);
    NothingRevived(w.db.rows, w.answers, v);
  }

  // The cap as the service itself counts it: debits that are not FAILED.
  lemma NonFailedWithinCap(opening: int, run: seq<Step>, wallet: nat, cap: nat, day: int)
    requires forall s | s in run :: CapsStep(s, wallet, cap)
    requires StartOfLagosDay(day) == day
    ensures var rows := Exec(opening, run).db.rows;
            var v := AmountInDay(wallet, day);
            && NonFailedTotal(rows, v) <= cap + LateTotal(opening, run, v, day) + RevivedTotal(rows, v)
            && ((forall s | s in run :: OnTime(s, wallet)) ==> NonFailedTotal(rows, v) <= cap + RevivedTotal(rows, v))
            && (NeverBoth(Exec(opening, run).answers) ==> RevivedTotal(rows, v) == 0)
  {
    DailyCapHolds(opening, run, wallet, cap, day);
    NonFailedIsOpenOrRevived(opening, run, AmountInDay(wallet, day));
    if NeverBoth(Exec(opening, run).answers) { NonFailedIsOpen(opening, run, AmountInDay(wallet, day)); }
  }

  // ---- Free payouts ----------------------------------------------------------

  // 1 for a payout of the wallet that day whose charges hold no transfer fee.
  function FreeInDay(w: nat, day: int): Txn -> int {
    (t: Txn) => if t.kind.Payout? && InDay(t, w, day) && t.fee - t.feeVat - t.stampDuty == 0 then 1 else 0
  }

  lemma FreeAreUsedSlots(rows: seq<Txn>, answers: set<(nat, Outcome)>, w: nat, day: int, since: int)
    requires StatusesOk(rows, answers) && since <= day
    ensures OpenTotal(rows, FreeInDay(w, day)) <= UsedSlots(rows, w, since)
  {
    forall i: nat | i < |rows|
      ensures OpenAt(rows, FreeInDay(w, day))(i) <= UsedSlotAt(rows, w, since)(i)
    {
      if IsOutgoing(rows[i]) { assert StatusOk(rows, answers, i); }
    }
    SumAtMost(|rows|, OpenAt(rows, FreeInDay(w, day)), UsedSlotAt(rows, w, since));
  }

  lemma StepKeepsFreeSlots(w: World, s: Step, wallet: nat, day: int, late: int)
    requires Inv(w) && late >= 0
    requires OpenTotal(w.db.rows, FreeInDay(wallet, day)) <= FREE_PAYOUTS_PER_DAY + late
    ensures LateValue(w, s, FreeInDay(wallet, day), day) >= 0
    ensures OpenTotal(Apply(w, s).db.rows, FreeInDay(wallet, day))
         <= FREE_PAYOUTS_PER_DAY + late + LateValue(w, s, FreeInDay(wallet, day), day)
  {
    StepInOpen(w, s, FreeInDay(wallet, day));
    if PayoutCommits(w, s) {
      ChargeSplits(FreeSlotOpen(w.db, s.payout.wallet, s.payout.clock), s.payout.amount);
      if InDay(PayoutRow(w.db, s.payout), wallet, day) && StartOfLagosDay(s.payout.clock) <= day {
        FreeAreUsedSlots(w.db.rows, w.answers, wallet, day, StartOfLagosDay(s.payout.clock));
      }
    }
  }

  lemma {:induction false} FreeAndLate(opening: int, run: seq<Step>, wallet: nat, day: int)
    ensures LateTotal(opening, run, FreeInDay(wallet, day), day) >= 0
    ensures OpenTotal(Exec(opening, run).db.rows, FreeInDay(wallet, day))
         <= FREE_PAYOUTS_PER_DAY + LateTotal(opening, run, FreeInDay(wallet, day), day)
  {
    if |run| == 0 {
    } else {
      var front := run[..|run| - 1];
      FreeAndLate(opening, front, wallet, day);
      RunKeepsInv(opening, front);
      StepKeepsFreeSlots(Exec(opening, front), run[|run| - 1], wallet, day,
                         LateTotal(opening, front, FreeInDay(wallet, day), day));
    }
  }

  // However runs interleave, whatever the switch does and whichever payouts
  // fail, at most two unrefunded payouts a day were free, but for those that
  // came late for the day.
  lemma AtMostTwoFreeAreOpen(opening: int, run: seq<Step>, wallet: nat, day: int)
    requires StartOfLagosDay(day) == day
    ensures OpenTotal(Exec(opening, run).db.rows, FreeInDay(wallet, day))
         <= FREE_PAYOUTS_PER_DAY + LateTotal(opening, run, FreeInDay(wallet, day), day)
    ensures (forall s | s in run :: OnTime(s, wallet)) ==>
              OpenTotal(Exec(opening, run).db.rows, FreeInDay(wallet, day)) <= FREE_PAYOUTS_PER_DAY
  {
    FreeAndLate(opening, run, wallet, day);
    if forall s | s in run :: OnTime(s, wallet) {
      NothingLate(opening, run, wallet, FreeInDay(wallet, day), day);
    }
  }

  lemma AtMostTwoFreePayouts(opening: int, run: seq<Step>, wallet: nat, day: int)
    requires StartOfLagosDay(day) == day
    ensures var rows := Exec(opening, run).db.rows;
            var v := FreeInDay(wallet, day);
            && NonFailedTotal(rows, v) <= FREE_PAYOUTS_PER_DAY + LateTotal(opening, run, v, day) + RevivedTotal(rows, v)
            && ((forall s | s in run :: OnTime(s, wallet)) ==>
                  NonFailedTotal(rows, v) <= FREE_PAYOUTS_PER_DAY + RevivedTotal(rows, v))
            && (NeverBoth(Exec(opening, run).answers) ==> RevivedTotal(rows, v) == 0)
  {
    AtMostTwoFreeAreOpen(opening, run, wallet, day);
    NonFailedIsOpenOrRevived(opening, run, FreeInDay(wallet, day));
    if NeverBoth(Exec(opening, run).answers) { NonFailedIsOpen(opening, run, FreeInDay(wallet, day)); }
  }

  // ---- The new-device limit --------------------------------------------------

  // Amounts the wallet sent or paid at or after `since`.
  function SpentSince(w: nat, since: int): Txn -> int {
    (t: Txn) => if t.walletId == Some(w) && t.createdAt >= since then t.amount else 0
  }

  // Payouts of the wallet dated in the window.
  function PaidOutIn(w: nat, from: int, until: int): Txn -> int {
    (t: Txn) => if t.kind.Payout? && t.walletId == Some(w) && from <= t.createdAt < until then t.amount else 0
  }

  // The figure the service computes is the rows that are not FAILED.
  lemma OutflowIsNonFailed(rows: seq<Txn>, w: nat, since: int)
    requires ShapesOk(rows)
    ensures OutflowSince(rows, w, since) == NonFailedTotal(rows, SpentSince(w, since))
  {
    forall i: nat | i < |rows|
      ensures OutflowAt(rows, w, since)(i) == NonFailedAt(rows, SpentSince(w, since))(i)
    {
      assert ShapeOk(rows[i]);
    }
    SumSame(|rows|, OutflowAt(rows, w, since), NonFailedAt(rows, SpentSince(w, since)));
  }

  lemma AppendToOutflow(rows: seq<Txn>, t: Txn, w: nat, since: int)
    ensures OutflowSince(rows + [t], w, since)
         == OutflowSince(rows, w, since) + (if CountsAsOutflow(t, w, since) then t.amount else 0)
  {
    var figures := OutflowAt(rows + [t], w, since);
    SumSame(|rows|, OutflowAt(rows, w, since), figures);
    SumLast(|rows|, figures);
    assert figures(|rows|) == if CountsAsOutflow(t, w, since) then t.amount else 0;
  }

  lemma CommittedPayoutInOutflow(w: World, s: Step, since: int)
    requires PayoutCommits(w, s)
    ensures OutflowSince(Apply(w, s).db.rows, s.payout.wallet, since)
         == OutflowSince(w.db.rows, s.payout.wallet, since)
            + (if s.payout.createdAt >= since then s.payout.amount else 0)
  {
    var booked := Apply(w, s).db.rows[|w.db.rows|];
    AppendToOutflow(w.db.rows, booked, s.payout.wallet, since);
  }

  function Spent(rows: seq<Txn>, w: nat, since: int): int {
    OpenTotal(rows, SpentSince(w, since)) + RevivedTotal(rows, SpentSince(w, since))
  }

  lemma OutflowIsSpent(opening: int, run: seq<Step>, w: nat, since: int)
    ensures OutflowSince(Exec(opening, run).db.rows, w, since) == Spent(Exec(opening, run).db.rows, w, since)
  {
    RunKeepsInv(opening, run);
    OutflowIsNonFailed(Exec(opening, run).db.rows, w, since);
    NonFailedIsOpenOrRevived(opening, run, SpentSince(w, since));
  }

  // In any state any interleaving can reach, a payout the wallet can pay for is
  // refused for the limit exactly when it and what the wallet has spent since,
  // bills included and refunds given back, would overrun it; one let through
  // leaves that within the limit.
  lemma DeviceLimitIsExact(opening: int, run: seq<Step>, s: Step)
    requires s.InitiatePayout? && s.payout.limit.Some? && s.payout.amount > 0
    requires var d := Exec(opening, run).db;
             && s.payout.wallet < |d.wallets|
             && d.wallets[s.payout.wallet] >= s.payout.amount
                + PayoutCharges(d, s.payout.wallet, s.payout.amount, s.payout.clock).total
    ensures var w := Exec(opening, run);
            var rows' := Exec(opening, run + [s]).db.rows;
            var l := s.payout.limit.value;
            && (PayoutRefusal(w.db, s.payout) == Some(NewDeviceLimit) <==>
                  Spent(w.db.rows, s.payout.wallet, l.since) + s.payout.amount > l.amount)
            && (PayoutCommits(w, s) ==>
                  && Spent(rows', s.payout.wallet, l.since) <= l.amount
                  && Spent(rows', s.payout.wallet, l.since)
                     == Spent(w.db.rows, s.payout.wallet, l.since)
                        + (if s.payout.createdAt >= l.since then s.payout.amount else 0))
  {
    var w := Exec(opening, run);
    LastStep(opening, run, [s]);
    assert run + [s][..0] == run;
    OutflowIsSpent(opening, run, s.payout.wallet, s.payout.limit.value.since);
    OutflowIsSpent(opening, run + [s], s.payout.wallet, s.payout.limit.value.since);
    if PayoutCommits(w, s) {
      CommittedPayoutInOutflow(w, s, s.payout.limit.value.since);
    }
  }

  // Every payout of the wallet dated in the window carries the limit, counted
  // from no later than the window's start. Bills are not checked.
  predicate LimitsStep(s: Step, w: nat, limit: int, from: int, until: int) {
    s.InitiatePayout? && s.payout.wallet == w && from <= s.payout.createdAt < until ==>
      && s.payout.limit.Some? && s.payout.limit.value.amount <= limit && s.payout.limit.value.since <= from
  }

  lemma OpenWindowIsWithinOutflow(rows: seq<Txn>, answers: set<(nat, Outcome)>, w: nat,
                                  from: int, until: int, since: int)
    requires ShapesOk(rows) && StatusesOk(rows, answers) && since <= from
    ensures OpenTotal(rows, PaidOutIn(w, from, until)) <= OutflowSince(rows, w, since)
  {
    forall i: nat | i < |rows|
      ensures OpenAt(rows, PaidOutIn(w, from, until))(i) <= OutflowAt(rows, w, since)(i)
    {
      assert ShapeOk(rows[i]);
      if IsOutgoing(rows[i]) { assert StatusOk(rows, answers, i); }
    }
    SumAtMost(|rows|, OpenAt(rows, PaidOutIn(w, from, until)), OutflowAt(rows, w, since));
  }

  lemma StepKeepsDeviceLimit(w: World, s: Step, wallet: nat, limit: int, from: int, until: int)
    requires Inv(w) && LimitsStep(s, wallet, limit, from, until)
    requires OpenTotal(w.db.rows, PaidOutIn(wallet, from, until)) <= limit
    ensures OpenTotal(Apply(w, s).db.rows, PaidOutIn(wallet, from, until)) <= limit
  {
    StepInOpen(w, s, PaidOutIn(wallet, from, until));
    if PayoutCommits(w, s) {
      if s.payout.wallet == wallet && from <= s.payout.createdAt < until {
        OpenWindowIsWithinOutflow(w.db.rows, w.answers, wallet, from, until, s.payout.limit.value.since);
      }
    } else if RefundCommits(w, s) {
      assert ShapeOk(w.db.rows[w.threads[s.thread].txn]);
    }
  }

  // In every state of every run, with bills, refunds and other wallets mixed
  // in, the unrefunded payouts dated in the window never exceed the limit.
  lemma {:induction false} DeviceLimitHolds(opening: int, run: seq<Step>, wallet: nat, limit: nat,
                                            from: int, until: int)
    requires forall s | s in run :: LimitsStep(s, wallet, limit, from, until)
    ensures OpenTotal(Exec(opening, run).db.rows, PaidOutIn(wallet, from, until)) <= limit
  {
    if |run| == 0 {
    } else {
      var front := run[..|run| - 1];
      DeviceLimitHolds(opening, front, wallet, limit, from, until);
      RunKeepsInv(opening, front);
      StepKeepsDeviceLimit(Exec(opening, front), run[|run| - 1], wallet, limit, from, until);
    }
  }
}
