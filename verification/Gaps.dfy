// Where a promise rests on something the code does not check: the condition,
// and a run that shows it is needed.
module Gaps {
  import opened Prelude
  import opened Sums
  import opened Charges
  import opened Ledger
  import opened Machine
  import opened Safety
  import opened Statements
  import opened Open
  import opened Limits

  // ---- A provider that answers both ------------------------------------------

  // 1000 naira posted to a new wallet, 100 naira sent from it.
  function Funded(): seq<Step> {
    [OpenWallet, Post(PostRequest(0, Credit, 1000 * NAIRA, "MAN-a", 0))]
  }

  function Sent(): PayoutRequest {
    PayoutRequest(0, 100 * NAIRA, "ADL1", None, None, false, 0, 0)
  }

  lemma FundedWorld(opening: int)
    ensures var w := Exec(opening, Funded());
            && w.db.wallets == [1000 * NAIRA] && |w.db.rows| == 1 && w.db.rows[0].provider.Manual?
            && w.db.rows[0].kind.Adjustment? && w.threads == map[] && w.answers == {} && w.db.freePayouts
  {
    var s1 := OpenWallet;
    var s2 := Post(PostRequest(0, Credit, 1000 * NAIRA, "MAN-a", 0));
    OneStep(opening, [], s1);
    OneStep(opening, [s1], s2);
    assert [] + [s1] == [s1] && [s1] + [s2] == Funded();
    assert Exec(opening, []) == Start(opening);
  }

  lemma SentWorld(opening: int)
    ensures var w := Exec(opening, Funded() + [InitiatePayout(1, Sent())]);
            && |w.db.rows| == 2 && w.threads == map[1 := Waiting(1)] && w.answers == {}
            && |w.db.wallets| == 1
            && w.db.rows[0].provider.Manual? && w.db.rows[0].kind.Adjustment?
            && w.db.rows[1].kind.Payout? && w.db.rows[1].provider.Vfd? && w.db.rows[1].status.Processing?
            && w.db.rows[1].walletId == Some(0) && w.db.rows[1].reference == "ADL1"
  {
    FundedWorld(opening);
    OneStep(opening, Funded(), InitiatePayout(1, Sent()));
    var d := Exec(opening, Funded()).db;
    assert WithVat(TIER_1_FEE) == 107_500 && WithVat(0) == 0;
    assert PayoutRefusal(d, Sent()).None?;
  }

  // From a state where both callers know of the payout to one where one is
  // about to refund it and the other to write its success.
  lemma BothAnswers(w: World, i: nat)
    requires w.threads == map[1 := Waiting(i)]
    requires i < |w.db.rows| && IsOutgoing(w.db.rows[i]) && w.db.rows[i].status.Processing?
    ensures var w1 := Apply(w, SyncRead(2, i));
            var w2 := Apply(Apply(w1, Answer(1, Rejected)), Answer(2, Succeeded));
            var w3 := Apply(w2, ReadForReversal(1));
            w3.db == w.db && w3.threads == map[1 := Reversing(i), 2 := Answered(i, Succeeded)]
  {
    var w1 := Apply(w, SyncRead(2, i));
    assert w1.threads == map[1 := Waiting(i), 2 := Waiting(i)];
    var w2 := Apply(w1, Answer(1, Rejected));
    assert w2.threads == map[1 := Answered(i, Rejected), 2 := Waiting(i)];
    var w3 := Apply(w2, Answer(2, Succeeded));
    assert w3.threads == map[1 := Answered(i, Rejected), 2 := Answered(i, Succeeded)];
  }

  lemma RefundThenSuccess(w: World, i: nat)
    requires w.threads == map[1 := Reversing(i), 2 := Answered(i, Succeeded)]
    requires i < |w.db.rows| && RefundRefusal(w.db, i).None?
    ensures var rows := Apply(Apply(w, CommitReversal(1, 1)), WriteSuccess(2)).db.rows;
            && |rows| == |w.db.rows| + 1 && SameIdentity(w.db.rows[i], rows[i])
            && rows[i].status.Successful? && Refunded(rows, rows[i])
  {
    var w1 := Apply(w, CommitReversal(1, 1));
    var rows := Apply(w1, WriteSuccess(2)).db.rows;
    assert IsRefundOf(rows[|w.db.rows|], rows[i]);
  }

  lemma SixSteps(opening: int, run: seq<Step>, a: Step, b: Step, c: Step, d: Step, e: Step, f: Step)
    ensures Exec(opening, run + [a] + [b] + [c] + [d] + [e] + [f])
         == Apply(Apply(Apply(Apply(Apply(Apply(Exec(opening, run), a), b), c), d), e), f)
  {
    OneStep(opening, run, a);
    OneStep(opening, run + [a], b);
    OneStep(opening, run + [a] + [b], c);
    OneStep(opening, run + [a] + [b] + [c], d);
    OneStep(opening, run + [a] + [b] + [c] + [d], e);
    OneStep(opening, run + [a] + [b] + [c] + [d] + [e], f);
  }

  lemma BothAnswersThenBothWrites(w: World, i: nat)
    requires w.threads == map[1 := Waiting(i)]
    requires i < |w.db.rows| && IsOutgoing(w.db.rows[i]) && w.db.rows[i].status.Processing?
    requires RefundRefusal(w.db, i).None?
    ensures var w2 := Apply(Apply(Apply(w, SyncRead(2, i)), Answer(1, Rejected)), Answer(2, Succeeded));
            var w3 := Apply(w2, ReadForReversal(1));
            var rows := Apply(Apply(w3, CommitReversal(1, 1)), WriteSuccess(2)).db.rows;
            && |rows| == |w.db.rows| + 1 && SameIdentity(w.db.rows[i], rows[i])
            && rows[i].status.Successful? && Refunded(rows, rows[i])
  {
    BothAnswers(w, i);
    var w2 := Apply(Apply(Apply(w, SyncRead(2, i)), Answer(1, Rejected)), Answer(2, Succeeded));
    RefundThenSuccess(Apply(w2, ReadForReversal(1)), i);
  }

  lemma SentCanBeRefunded(opening: int)
    ensures var d := Exec(opening, Funded() + [InitiatePayout(1, Sent())]).db;
            |d.rows| == 2 && RefundRefusal(d, 1).None?
  {
    SentWorld(opening);
    var d := Exec(opening, Funded() + [InitiatePayout(1, Sent())]).db;
    assert |RefundReference(d.rows[1].reference)| == 8;
  }

  // Two callers ask for the payout's outcome at once and are told different
  // things; the refund commits first and the success is written over it. The
  // customer has the money back and the payout reads SUCCESSFUL.
  lemma ContradictionSeparatesThem(opening: int) returns (run: seq<Step>)
    ensures var rows := Exec(opening, run).db.rows;
            && |rows| == 3 && rows[1].kind.Payout? && rows[1].status.Successful?
            && Refunded(rows, rows[1])
  {
    var sent := Funded() + [InitiatePayout(1, Sent())];
    SentWorld(opening);
    SentCanBeRefunded(opening);
    SixSteps(opening, sent, SyncRead(2, 1), Answer(1, Rejected), Answer(2, Succeeded), ReadForReversal(1),
             CommitReversal(1, 1), WriteSuccess(2));
    BothAnswersThenBothWrites(Exec(opening, sent), 1);
    run := sent + [SyncRead(2, 1)] + [Answer(1, Rejected)] + [Answer(2, Succeeded)] + [ReadForReversal(1)]
           + [CommitReversal(1, 1)] + [WriteSuccess(2)];
  }

  // ---- A payout that waits past midnight -------------------------------------

  // Its row is dated when its database transaction began, its cap is checked
  // against the day it got the wallet row.
  function AcrossMidnight(amount: int, reference: string, createdAt: int, clock: int): Step {
    InitiatePayout(|reference|, PayoutRequest(0, amount, reference, None,
      Some(Caps(None, Some(100 * NAIRA))), true, createdAt, clock))
  }

  predicate LatePayout(s: Step) {
    s.InitiatePayout? && s.payout.wallet == 0 && s.payout.amount == 100 * NAIRA
    && s.payout.limit.None? && s.payout.caps == Some(Caps(None, Some(100 * NAIRA)))
  }

  lemma CheckedOnItsClock(w: World, s: Step)
    requires LatePayout(s) && s.thread !in w.threads
    requires |w.db.wallets| == 1 && w.db.wallets[0] >= 200 * NAIRA
    requires OutflowSince(w.db.rows, 0, StartOfLagosDay(s.payout.clock)) == 0
    requires !ReferenceTaken(w.db.rows, Vfd, s.payout.reference)
    ensures PayoutCommits(w, s)
    ensures PayoutCharges(w.db, 0, s.payout.amount, s.payout.clock).total <= 100 * NAIRA
  {
    assert WithVat(TIER_1_FEE) == 107_500 && WithVat(0) == 0;
  }

  lemma AfterLatePayout(w: World, s: Step)
    requires LatePayout(s) && PayoutCommits(w, s) && |w.db.wallets| == 1
    requires PayoutCharges(w.db, 0, s.payout.amount, s.payout.clock).total <= 100 * NAIRA
    ensures var w' := Apply(w, s);
            && |w'.db.rows| == |w.db.rows| + 1
            && (forall i | 0 <= i < |w.db.rows| :: w'.db.rows[i] == w.db.rows[i])
            && w'.db.rows[|w.db.rows|].createdAt == s.payout.createdAt
            && w'.db.rows[|w.db.rows|].reference == s.payout.reference
            && w'.threads == w.threads[s.thread := Waiting(|w.db.rows|)]
            && |w'.db.wallets| == 1 && w'.db.wallets[0] >= w.db.wallets[0] - 200 * NAIRA
  {
  }

  // It adds to the day it is dated on, whichever day it was checked against.
  lemma AddsToItsOwnDay(w: World, s: Step, day: int)
    requires Inv(w) && LatePayout(s) && PayoutCommits(w, s) && day <= s.payout.createdAt < day + DAY
    ensures OpenTotal(Apply(w, s).db.rows, AmountInDay(0, day))
         == OpenTotal(w.db.rows, AmountInDay(0, day)) + 100 * NAIRA
  {
    StepInOpen(w, s, AmountInDay(0, day));
  }

  lemma FirstLatePayout(w: World, p: Step, day: int)
    requires Inv(w) && LatePayout(p) && w.threads == map[] && |w.db.wallets| == 1
    requires w.db.wallets[0] >= 400 * NAIRA
    requires |w.db.rows| == 1 && w.db.rows[0].kind.Adjustment? && w.db.rows[0].provider.Manual?
    requires day <= p.payout.createdAt < day + DAY
    ensures PayoutCommits(w, p)
    ensures PayoutCharges(w.db, 0, p.payout.amount, p.payout.clock).total <= 100 * NAIRA
    ensures OpenTotal(Apply(w, p).db.rows, AmountInDay(0, day)) == 100 * NAIRA
  {
    SumZero(1, OutflowAt(w.db.rows, 0, StartOfLagosDay(p.payout.clock)));
    SumZero(1, OpenAt(w.db.rows, AmountInDay(0, day)));
    CheckedOnItsClock(w, p);
    AddsToItsOwnDay(w, p, day);
  }

  lemma NothingOutBy(rows: seq<Txn>, since: int)
    requires |rows| == 2 && rows[0].provider.Manual? && rows[1].createdAt < since
    ensures OutflowSince(rows, 0, since) == 0
  {
    SumZero(2, OutflowAt(rows, 0, since));
  }

  lemma SecondLatePayout(w: World, p: Step, day: int)
    requires Inv(w) && LatePayout(p) && p.thread !in w.threads && |w.db.wallets| == 1
    requires w.db.wallets[0] >= 200 * NAIRA && |w.db.rows| == 2
    requires w.db.rows[0].provider.Manual? && w.db.rows[1].createdAt < StartOfLagosDay(p.payout.clock)
    requires w.db.rows[1].reference != p.payout.reference
    requires day <= p.payout.createdAt < day + DAY
    ensures OpenTotal(Apply(w, p).db.rows, AmountInDay(0, day))
         == OpenTotal(w.db.rows, AmountInDay(0, day)) + 100 * NAIRA
  {
    NothingOutBy(w.db.rows, StartOfLagosDay(p.payout.clock));
    CheckedOnItsClock(w, p);
    AddsToItsOwnDay(w, p, day);
  }

  lemma TwoLatePayouts(w: World, p: Step, q: Step, day: int)
    requires Inv(w) && Inv(Apply(w, p)) && LatePayout(p) && LatePayout(q) && p.thread != q.thread
    requires w.threads == map[] && |w.db.wallets| == 1 && w.db.wallets[0] >= 400 * NAIRA
    requires |w.db.rows| == 1 && w.db.rows[0].kind.Adjustment? && w.db.rows[0].provider.Manual?
    requires p.payout.reference != q.payout.reference
    requires day <= p.payout.createdAt < day + DAY && day <= q.payout.createdAt < day + DAY
    requires p.payout.createdAt < StartOfLagosDay(q.payout.clock)
    ensures OpenTotal(Apply(Apply(w, p), q).db.rows, AmountInDay(0, day)) == 200 * NAIRA
  {
    FirstLatePayout(w, p, day);
    AfterLatePayout(w, p);
    SecondLatePayout(Apply(w, p), q, day);
  }

  lemma LateRunTotal(opening: int, p: Step, q: Step, day: int)
    requires LatePayout(p) && LatePayout(q) && p.thread != q.thread
    requires p.payout.reference != q.payout.reference
    requires day <= p.payout.createdAt < day + DAY && day <= q.payout.createdAt < day + DAY
    requires p.payout.createdAt < StartOfLagosDay(q.payout.clock)
    ensures OpenTotal(Exec(opening, Funded() + [p] + [q]).db.rows, AmountInDay(0, day)) == 200 * NAIRA
  {
    FundedWorld(opening);
    RunKeepsInv(opening, Funded());
    RunKeepsInv(opening, Funded() + [p]);
    OneStep(opening, Funded(), p);
    OneStep(opening, Funded() + [p], q);
    TwoLatePayouts(Exec(opening, Funded()), p, q, day);
  }

  // Whenever a payout can be dated on an earlier Lagos day than the one it is
  // checked on, as when it waits for the wallet row past midnight, the cap can
  // be overrun: a cap of 100 naira, 100 sent on that day, and another 100 dated
  // then and checked later. DailyCapHolds has every other case.
  lemma CapNeedsTheDay(opening: int, dated: int, checked: int) returns (run: seq<Step>, day: int)
    requires StartOfLagosDay(dated) < StartOfLagosDay(checked)
    ensures StartOfLagosDay(day) == day
    ensures forall s | s in run && s.InitiatePayout? ::
              && s.payout.wallet == 0 && s.payout.enforce && s.payout.caps == Some(Caps(None, Some(100 * NAIRA)))
              && s.payout.createdAt == dated && (s.payout.clock == dated || s.payout.clock == checked)
    ensures OpenTotal(Exec(opening, run).db.rows, AmountInDay(0, day)) == 200 * NAIRA
  {
    var p1 := AcrossMidnight(100 * NAIRA, "A", dated, dated);
    var p2 := AcrossMidnight(100 * NAIRA, "BB", dated, checked);
    run, day := Funded() + [p1] + [p2], StartOfLagosDay(dated);
    LagosDaysPartitionTime(dated, day);
    LagosDaysPartitionTime(checked, checked);
    LagosDaysPartitionTime(dated, StartOfLagosDay(checked));
    LateRunTotal(opening, p1, p2, day);
  }

  // ---- A third free payout ---------------------------------------------------

  function FreePayout(k: nat, reference: string, dated: int, checked: int): Step {
    InitiatePayout(k, PayoutRequest(0, 100 * NAIRA, reference, None, None, false, dated, checked))
  }

  // `k` payouts of 100 naira sent from the 1000, free and dated alike.
  ghost predicate SentFree(w: World, k: nat, dated: int, day: int) {
    && w.db.freePayouts && |w.db.wallets| == 1 && w.db.wallets[0] == (1000 - 100 * k) * NAIRA
    && |w.db.rows| == k + 1 && w.db.rows[0].kind.Adjustment? && w.db.rows[0].provider.Manual?
    && (forall i | 1 <= i <= k :: w.db.rows[i].createdAt == dated && |w.db.rows[i].reference| <= k)
    && (forall t | t in w.threads :: t <= k)
    && OpenTotal(w.db.rows, FreeInDay(0, day)) == k
  }

  lemma SlotsUsed(rows: seq<Txn>, k: nat, since: int)
    requires |rows| == k + 1 && k < FREE_PAYOUTS_PER_DAY && rows[0].kind.Adjustment?
    ensures UsedSlots(rows, 0, since) <= k
  {
    var used := UsedSlotAt(rows, 0, since);
    assert SumTo(1, used) == used(0) == 0;
    if k == 1 { SumLast(1, used); }
  }

  lemma NoSlotUsedSince(rows: seq<Txn>, dated: int, since: int)
    requires |rows| > 0 && rows[0].kind.Adjustment? && dated < since
    requires forall i | 1 <= i < |rows| :: rows[i].createdAt == dated
    ensures UsedSlots(rows, 0, since) == 0
  {
    SumZero(|rows|, UsedSlotAt(rows, 0, since));
  }

  // With a slot open it commits, and costs its amount alone.
  lemma FreePayoutCommits(w: World, k: nat, reference: string, dated: int, checked: int)
    requires k !in w.threads && FreeSlotOpen(w.db, 0, checked)
    requires |w.db.wallets| == 1 && w.db.wallets[0] >= 100 * NAIRA && !ReferenceTaken(w.db.rows, Vfd, reference)
    ensures var p := FreePayout(k, reference, dated, checked);
            var t := PayoutRow(w.db, p.payout);
            PayoutCommits(w, p) && t.fee == 0 && t.feeVat == 0 && t.stampDuty == 0
  {
    assert WithVat(0) == 0;
  }

  lemma AfterFreePayout(w: World, k: nat, reference: string, dated: int, checked: int)
    requires var p := FreePayout(k, reference, dated, checked);
             PayoutCommits(w, p) && PayoutRow(w.db, p.payout).fee == 0 && |w.db.wallets| == 1
    ensures var p := FreePayout(k, reference, dated, checked);
            var d := Apply(w, p).db;
            && d.freePayouts == w.db.freePayouts && d.wallets == [w.db.wallets[0] - 100 * NAIRA]
            && |d.rows| == |w.db.rows| + 1 && (forall i | 0 <= i < |w.db.rows| :: d.rows[i] == w.db.rows[i])
            && d.rows[|w.db.rows|].createdAt == dated && d.rows[|w.db.rows|].reference == reference
            && Apply(w, p).threads == w.threads[k := Waiting(|w.db.rows|)]
  {
  }

  lemma UnusedReference(w: World, k: nat, reference: string, dated: int, day: int)
    requires SentFree(w, k, dated, day) && |reference| > k
    ensures !ReferenceTaken(w.db.rows, Vfd, reference) && k + 1 !in w.threads
  {
  }

  lemma SentFreeGrows(w: World, w': World, k: nat, dated: int, day: int)
    requires SentFree(w, k, dated, day) && w'.db.freePayouts && w'.db.wallets == [w.db.wallets[0] - 100 * NAIRA]
    requires |w'.db.rows| == k + 2 && forall i | 0 <= i <= k :: w'.db.rows[i] == w.db.rows[i]
    requires w'.db.rows[k + 1].createdAt == dated && |w'.db.rows[k + 1].reference| == k + 1
    requires w'.threads == w.threads[k + 1 := Waiting(k + 1)]
    requires OpenTotal(w'.db.rows, FreeInDay(0, day)) == k + 1
    ensures SentFree(w', k + 1, dated, day)
  {
  }

  lemma OneMoreFree(opening: int, run: seq<Step>, k: nat, reference: string, dated: int, checked: int, day: int)
    requires SentFree(Exec(opening, run), k, dated, day) && k <= 2 && |reference| == k + 1
    requires day <= dated < day + DAY && FreeSlotOpen(Exec(opening, run).db, 0, checked)
    ensures SentFree(Exec(opening, run + [FreePayout(k + 1, reference, dated, checked)]), k + 1, dated, day)
  {
    var w := Exec(opening, run);
    var p := FreePayout(k + 1, reference, dated, checked);
    UnusedReference(w, k, reference, dated, day);
    FreePayoutCommits(w, k + 1, reference, dated, checked);
    AfterFreePayout(w, k + 1, reference, dated, checked);
    OneMoreFreeRow(opening, run, p, day);
    SentFreeGrows(w, Apply(w, p), k, dated, day);
    OneStep(opening, run, p);
  }

  lemma FreeRowCounts(w: World, p: Step, day: int)
    requires RefundsHaveOrigins(w.db.rows) && PayoutCommits(w, p) && p.payout.wallet == 0
    requires day <= p.payout.createdAt < day + DAY
    requires var t := PayoutRow(w.db, p.payout); t.fee == 0 && t.feeVat == 0 && t.stampDuty == 0
    ensures OpenTotal(Apply(w, p).db.rows, FreeInDay(0, day)) == OpenTotal(w.db.rows, FreeInDay(0, day)) + 1
  {
    PayoutInOpen(w, p, FreeInDay(0, day));
  }

  lemma OneMoreFreeRow(opening: int, run: seq<Step>, p: Step, day: int)
    requires PayoutCommits(Exec(opening, run), p) && p.payout.wallet == 0
    requires day <= p.payout.createdAt < day + DAY
    requires var t := PayoutRow(Exec(opening, run).db, p.payout); t.fee == 0 && t.feeVat == 0 && t.stampDuty == 0
    ensures OpenTotal(Apply(Exec(opening, run), p).db.rows, FreeInDay(0, day))
         == OpenTotal(Exec(opening, run).db.rows, FreeInDay(0, day)) + 1
  {
    RunKeepsInv(opening, run);
    FreeRowCounts(Exec(opening, run), p, day);
  }

  lemma TwoFree(opening: int, dated: int, day: int)
    requires day <= dated < day + DAY
    ensures SentFree(Exec(opening, Funded() + [FreePayout(1, "A", dated, dated)] + [FreePayout(2, "BB", dated, dated)]),
                     2, dated, day)
  {
    var p1, p2 := FreePayout(1, "A", dated, dated), FreePayout(2, "BB", dated, dated);
    FundedWorld(opening);
    SumZero(1, OpenAt(Exec(opening, Funded()).db.rows, FreeInDay(0, day)));
    assert SentFree(Exec(opening, Funded()), 0, dated, day);
    SlotsUsed(Exec(opening, Funded()).db.rows, 0, StartOfLagosDay(dated));
    OneMoreFree(opening, Funded(), 0, "A", dated, dated, day);
    SlotsUsed(Exec(opening, Funded() + [p1]).db.rows, 1, StartOfLagosDay(dated));
    OneMoreFree(opening, Funded() + [p1], 1, "BB", dated, dated, day);
  }

  lemma DatedBefore(dated: int, checked: int)
    requires StartOfLagosDay(dated) < StartOfLagosDay(checked)
    ensures var day := StartOfLagosDay(dated);
            StartOfLagosDay(day) == day && day <= dated < day + DAY && dated < StartOfLagosDay(checked)
  {
    LagosDaysPartitionTime(dated, StartOfLagosDay(dated));
    LagosDaysPartitionTime(checked, checked);
    LagosDaysPartitionTime(dated, StartOfLagosDay(checked));
  }

  // The free payouts fail where the cap does: whenever a payout can be dated on
  // an earlier Lagos day than the one it is checked on, three free ones can be
  // dated on that day.
  lemma FreeSlotsNeedTheDay(opening: int, dated: int, checked: int) returns (run: seq<Step>, day: int)
    requires StartOfLagosDay(dated) < StartOfLagosDay(checked)
    ensures StartOfLagosDay(day) == day
    ensures forall s | s in run && s.InitiatePayout? ::
              s.payout.wallet == 0 && s.payout.createdAt == dated
              && (s.payout.clock == dated || s.payout.clock == checked)
    ensures OpenTotal(Exec(opening, run).db.rows, FreeInDay(0, day)) == FREE_PAYOUTS_PER_DAY + 1
  {
    day := StartOfLagosDay(dated);
    DatedBefore(dated, checked);
    var two := Funded() + [FreePayout(1, "A", dated, dated)] + [FreePayout(2, "BB", dated, dated)];
    TwoFree(opening, dated, day);
    NoSlotUsedSince(Exec(opening, two).db.rows, dated, StartOfLagosDay(checked));
    OneMoreFree(opening, two, 2, "CCC", dated, checked, day);
    run := two + [FreePayout(3, "CCC", dated, checked)];
  }

  // ---- A refunded payout that comes back -------------------------------------

  // A payout of 100 naira under a cap of 100, about to be refunded by one
  // caller and written SUCCESSFUL by another.
  predicate TwoMinds(w: World, at: int) {
    && w.threads == map[1 := Reversing(1), 2 := Answered(1, Succeeded)]
    && |w.db.wallets| == 1 && w.db.wallets[0] >= 800 * NAIRA && |w.db.rows| == 2
    && w.db.rows[0].kind.Adjustment? && w.db.rows[0].provider.Manual?
    && w.db.rows[1].kind.Payout? && w.db.rows[1].provider.Vfd? && w.db.rows[1].direction.Debit?
    && w.db.rows[1].walletId == Some(0) && w.db.rows[1].reference == "A"
    && w.db.rows[1].amount == 100 * NAIRA && w.db.rows[1].fee >= 0 && w.db.rows[1].createdAt == at
    && !ReferenceTaken(w.db.rows, Vfd, RefundReference("A"))
  }

  lemma TwoMindsReached(opening: int, at: int) returns (run: seq<Step>)
    ensures run == Funded() + [AcrossMidnight(100 * NAIRA, "A", at, at)] + [SyncRead(2, 1)] + [Answer(1, Rejected)]
                   + [Answer(2, Succeeded)] + [ReadForReversal(1)]
    ensures TwoMinds(Exec(opening, run), at)
  {
    var p := AcrossMidnight(100 * NAIRA, "A", at, at);
    var r1 := Funded() + [p];
    FundedWorld(opening);
    RunKeepsInv(opening, Funded());
    RunKeepsInv(opening, r1);
    OneStep(opening, Funded(), p);
    LagosDaysPartitionTime(at, at);
    FirstLatePayout(Exec(opening, Funded()), p, StartOfLagosDay(at));
    AfterLatePayout(Exec(opening, Funded()), p);
    LatePayoutRow(Exec(opening, Funded()), p);
    FourSteps(opening, r1, SyncRead(2, 1), Answer(1, Rejected), Answer(2, Succeeded), ReadForReversal(1));
    BothAnswers(Exec(opening, r1), 1);
    assert |RefundReference("A")| == 5;
    run := r1 + [SyncRead(2, 1)] + [Answer(1, Rejected)] + [Answer(2, Succeeded)] + [ReadForReversal(1)];
  }

  lemma FourSteps(opening: int, run: seq<Step>, a: Step, b: Step, c: Step, d: Step)
    ensures Exec(opening, run + [a] + [b] + [c] + [d]) == Apply(Apply(Apply(Apply(Exec(opening, run), a), b), c), d)
  {
    OneStep(opening, run, a);
    OneStep(opening, run + [a], b);
    OneStep(opening, run + [a] + [b], c);
    OneStep(opening, run + [a] + [b] + [c], d);
  }

  lemma LatePayoutRow(w: World, s: Step)
    requires LatePayout(s) && PayoutCommits(w, s)
    ensures var t := Apply(w, s).db.rows[|w.db.rows|];
            && t.kind.Payout? && t.provider.Vfd? && t.direction.Debit? && t.walletId == Some(0)
            && t.amount == 100 * NAIRA && t.fee >= 0 && t.status.Processing?
  {
    ChargeSplits(FreeSlotOpen(w.db, 0, s.payout.clock), s.payout.amount);
  }

  // The refund commits: the day's room is there again.
  lemma RoomAgain(w: World, at: int)
    requires TwoMinds(w, at)
    ensures var w' := Apply(w, CommitReversal(1, at));
            && w'.threads == map[2 := Answered(1, Succeeded)]
            && |w'.db.wallets| == 1 && w'.db.wallets[0] >= 800 * NAIRA && |w'.db.rows| == 3
            && w'.db.rows[0] == w.db.rows[0] && w'.db.rows[1] == w.db.rows[1].(status := Failed)
            && w'.db.rows[2].kind.Reversal? && w'.db.rows[2].direction.Credit?
            && w'.db.rows[2].reference == RefundReference("A")
  {
    assert RefundRefusal(w.db, 1).None?;
  }

  lemma NothingOutAfterRefund(rows: seq<Txn>, since: int)
    requires |rows| == 3 && rows[0].provider.Manual? && rows[1].status.Failed? && rows[2].direction.Credit?
    ensures OutflowSince(rows, 0, since) == 0
  {
    SumZero(3, OutflowAt(rows, 0, since));
  }

  lemma TwoRowsCount(rows: seq<Txn>, v: Txn -> int)
    requires |rows| == 4 && rows[0].kind.Adjustment? && rows[2].kind.Reversal?
    requires IsOutgoing(rows[1]) && rows[1].status.Successful? && IsOutgoing(rows[3]) && rows[3].status.Processing?
    ensures NonFailedTotal(rows, v) == v(rows[1]) + v(rows[3])
  {
    var figures := NonFailedAt(rows, v);
    SumLast(3, figures);
    SumLast(2, figures);
    SumLast(1, figures);
    assert SumTo(1, figures) == figures(0);
  }

  lemma SecondThenSuccess(w: World, at: int, day: int)
    requires TwoMinds(w, at) && day <= at < day + DAY
    ensures var w1 := Apply(w, CommitReversal(1, at));
            var w2 := Apply(w1, AcrossMidnight(100 * NAIRA, "BBB", at, at));
            NonFailedTotal(Apply(w2, WriteSuccess(2)).db.rows, AmountInDay(0, day)) == 200 * NAIRA
  {
    var p := AcrossMidnight(100 * NAIRA, "BBB", at, at);
    RoomAgain(w, at);
    var w1 := Apply(w, CommitReversal(1, at));
    NothingOutAfterRefund(w1.db.rows, StartOfLagosDay(at));
    assert |RefundReference("A")| == 5;
    CheckedOnItsClock(w1, p);
    AfterLatePayout(w1, p);
    LatePayoutRow(w1, p);
    var w2 := Apply(w1, p);
    assert w2.threads[2] == Answered(1, Succeeded);
    TwoRowsCount(Apply(w2, WriteSuccess(2)).db.rows, AmountInDay(0, day));
  }

  // Everything dated and checked at one instant: a cap of 100 naira, 100 sent
  // and refunded, another 100 sent, and then the success that another caller
  // was told of is written over the first. The rows that are not FAILED, which
  // is what the service counts, are twice the cap.
  lemma RevivedRowOverrunsCap(opening: int, at: int) returns (run: seq<Step>, day: int)
    ensures StartOfLagosDay(day) == day && day <= at < day + DAY
    ensures forall s | s in run :: CapsStep(s, 0, 100 * NAIRA) && OnTime(s, 0)
    ensures NonFailedTotal(Exec(opening, run).db.rows, AmountInDay(0, day)) == 200 * NAIRA
  {
    day := StartOfLagosDay(at);
    LagosDaysPartitionTime(at, day);
    var r := TwoMindsReached(opening, at);
    var p := AcrossMidnight(100 * NAIRA, "BBB", at, at);
    OneStep(opening, r, CommitReversal(1, at));
    OneStep(opening, r + [CommitReversal(1, at)], p);
    OneStep(opening, r + [CommitReversal(1, at)] + [p], WriteSuccess(2));
    SecondThenSuccess(Exec(opening, r), at, day);
    run := r + [CommitReversal(1, at)] + [p] + [WriteSuccess(2)];
  }
}
