// The two writes a deposit's worker makes on trust, and what becomes of a credit
// whose commit is not acknowledged.
module Crediting {
  import opened Prelude
  import opened Sums
  import opened Ledger
  import opened Machine
  import opened Safety
  import opened Statements

  // Closing a deposit as FAILED keeps the balances right exactly when the
  // deposit was not credited: a worker that threw after its commit would lose
  // the row's money from the statement.
  lemma ClosingDepositIsSafeUnlessCredited(d: Db, i: nat)
    requires Sound(d) && i < |d.rows| && d.rows[i].direction.Credit? && d.rows[i].amount > 0
    requires d.rows[i].walletId.Some?
    ensures BalancesAreSums(SetStatus(d, i, Failed)) <==> !d.rows[i].status.Successful?
  {
    var d' := SetStatus(d, i, Failed);
    var w := d.rows[i].walletId.value;
    SumDiff(|d.rows|, i, EffectOn(d.rows, w), EffectOn(d'.rows, w));
    if !d.rows[i].status.Successful? {
      RewriteKeepsTotals(d, i, d.rows[i].(status := Failed));
    }
  }

  // Crediting a deposit keeps them right exactly when it is not credited yet,
  // which the worker decides from a status read before and without a lock: two
  // instances of one job would credit twice.
  lemma CreditingIsSafeUnlessCredited(d: Db, i: nat)
    requires Sound(d) && i < |d.rows| && d.rows[i].direction.Credit? && d.rows[i].amount > 0
    requires d.rows[i].walletId.Some? && d.rows[i].resolvedBy.None?
    ensures d.rows[i].walletId.value < |d.wallets|
    ensures BalancesAreSums(Settle(d, i, d.rows[i].walletId.value, None)) <==> !d.rows[i].status.Successful?
  {
    var w := d.rows[i].walletId.value;
    var d' := Settle(d, i, w, None);
    SumDiff(|d.rows|, i, EffectOn(d.rows, w), EffectOn(d'.rows, w));
    if !d.rows[i].status.Successful? {
      SettleKeepsSound(d, i, w, None);
    }
  }

  // ---- A commit that is not acknowledged -------------------------------------

  // The credit commits and its worker is told that it failed.
  function CreditUnacknowledged(w: World, i: nat): World { Thrown(Apply(w, JobCredit(i)), i) }

  function Thrown(w: World, i: nat): World { w.(jobs := w.jobs[i := Threw]) }

  function From(w: World, steps: seq<Step>): World {
    if |steps| == 0 then w else Apply(From(w, steps[..|steps| - 1]), steps[|steps| - 1])
  }

  // No step of job `i`: it waits for its next attempt.
  predicate LeavesJob(s: Step, i: nat) { IsJobStep(s) ==> s.txn != i }

  predicate Waits(w: World, i: nat) { HasJob(w, i) && w.jobs[i].Queued? }

  lemma OtherJobsInStep(w: World, s: Step, i: nat)
    requires Waits(w, i) && IsJobStep(s) && LeavesJob(s, i)
    ensures Apply(Thrown(w, i), s) == Thrown(Apply(w, s), i) && Waits(Apply(w, s), i)
  {
    Arms(w, s);
    Arms(Thrown(w, i), s);
    match s
    case JobRead(k) => ReadsCommute(w, i, k);
    case JobMark(k) => MarksCommute(w, i, k);
    case JobCredit(k) => CreditsCommute(w, i, k);
    case JobThrows(k) => EndsCommute(w, i, k, Threw);
    case JobCrashes(k) => EndsCommute(w, i, k, Queued);
    case JobExhausted(k) => ClosingsCommute(w, i, k);
  }

  lemma JobsCommute(jobs: map<nat, JobPc>, i: nat, k: nat, pc: JobPc)
    requires i != k
    ensures jobs[i := Threw][k := pc] == jobs[k := pc][i := Threw]
  {
  }

  lemma ReadsCommute(w: World, i: nat, k: nat)
    requires Waits(w, i) && k != i
    ensures ApplyJobRead(Thrown(w, i), k) == Thrown(ApplyJobRead(w, k), i) && Waits(ApplyJobRead(w, k), i)
  {
    JobsCommute(w.jobs, i, k, Dead);
    JobsCommute(w.jobs, i, k, Seen);
  }

  lemma MarksCommute(w: World, i: nat, k: nat)
    requires Waits(w, i) && k != i
    ensures ApplyJobMark(Thrown(w, i), k) == Thrown(ApplyJobMark(w, k), i) && Waits(ApplyJobMark(w, k), i)
  {
    JobsCommute(w.jobs, i, k, Marked);
  }

  lemma CreditsCommute(w: World, i: nat, k: nat)
    requires Waits(w, i) && k != i
    ensures ApplyJobCredit(Thrown(w, i), k) == Thrown(ApplyJobCredit(w, k), i) && Waits(ApplyJobCredit(w, k), i)
  {
    JobsCommute(w.jobs, i, k, Queued);
  }

  lemma EndsCommute(w: World, i: nat, k: nat, pc: JobPc)
    requires Waits(w, i) && k != i
    ensures ApplyJobEnds(Thrown(w, i), k, pc) == Thrown(ApplyJobEnds(w, k, pc), i) && Waits(ApplyJobEnds(w, k, pc), i)
  {
    JobsCommute(w.jobs, i, k, pc);
  }

  lemma ClosingsCommute(w: World, i: nat, k: nat)
    requires Waits(w, i) && k != i
    ensures ApplyJobExhausted(Thrown(w, i), k) == Thrown(ApplyJobExhausted(w, k), i)
    ensures Waits(ApplyJobExhausted(w, k), i)
  {
    JobsCommute(w.jobs, i, k, Dead);
  }

  lemma NewJobsInStep(w: World, s: Step, i: nat)
    requires Waits(w, i) && s.RecordPayin?
    ensures Apply(Thrown(w, i), s) == Thrown(Apply(w, s), i) && Waits(Apply(w, s), i)
  {
    var n := |w.db.rows|;
    assert w.jobs[i := Threw][n := Queued] == w.jobs[n := Queued][i := Threw];
  }

  lemma NoJobsInStep(w: World, s: Step, i: nat)
    requires Waits(w, i) && !IsJobStep(s) && !s.RecordPayin?
    ensures Apply(Thrown(w, i), s) == Thrown(Apply(w, s), i) && Waits(Apply(w, s), i)
  {
  }

  // Whether its worker heard of the commit changes nothing but the job itself.
  lemma {:induction false} UnheardRunsAlike(opening: int, run: seq<Step>, mid: seq<Step>, i: nat)
    requires Waits(Exec(opening, run), i) && forall s | s in mid :: LeavesJob(s, i)
    ensures From(Thrown(Exec(opening, run), i), mid) == Thrown(Exec(opening, run + mid), i)
    ensures Waits(Exec(opening, run + mid), i)
  {
    if |mid| == 0 {
      assert run + mid == run;
    } else {
      var front, last := mid[..|mid| - 1], mid[|mid| - 1];
      UnheardRunsAlike(opening, run, front, i);
      LastStep(opening, run, mid);
      UnheardStep(Exec(opening, run + front), last, i);
    }
  }

  lemma UnheardStep(w: World, s: Step, i: nat)
    requires Waits(w, i) && LeavesJob(s, i)
    ensures Apply(Thrown(w, i), s) == Thrown(Apply(w, s), i) && Waits(Apply(w, s), i)
  {
    if IsJobStep(s) {
      OtherJobsInStep(w, s, i);
    } else if s.RecordPayin? {
      NewJobsInStep(w, s, i);
    } else {
      NoJobsInStep(w, s, i);
    }
  }

  lemma MarkedJobCredits(w: World, i: nat)
    requires Inv(w) && HasJob(w, i) && w.jobs[i].Marked?
    ensures w.db.rows[i].walletId.Some? && w.db.rows[i].walletId.value < |w.db.wallets|
    ensures w.db.rows[i].direction.Credit? && !w.db.rows[i].status.Successful? && w.db.rows[i].kind.Deposit?
    ensures Apply(w, JobCredit(i)).db == Settle(w.db, i, w.db.rows[i].walletId.value, None)
    ensures Waits(Apply(w, JobCredit(i)), i)
  {
    assert JobOk(w.db.rows, i, w.jobs[i]);
    assert ShapeOk(w.db.rows[i]);
  }

  // After the commit and whatever steps of anything else, the worker's hearing
  // of it or not is the only difference.
  lemma AfterUnheardCredit(opening: int, run: seq<Step>, mid: seq<Step>, i: nat)
    requires HasJob(Exec(opening, run), i) && Exec(opening, run).jobs[i].Marked?
    requires forall s | s in mid :: LeavesJob(s, i)
    ensures From(CreditUnacknowledged(Exec(opening, run), i), mid)
         == Thrown(Exec(opening, run + [JobCredit(i)] + mid), i)
    ensures Waits(Exec(opening, run + [JobCredit(i)] + mid), i)
  {
    RunKeepsInv(opening, run);
    MarkedJobCredits(Exec(opening, run), i);
    OneStep(opening, run, JobCredit(i));
    UnheardRunsAlike(opening, run + [JobCredit(i)], mid, i);
  }

  lemma SameAfterLook(w: World, i: nat)
    requires Waits(w, i)
    ensures Apply(Thrown(w, i), JobRead(i)) == Apply(w, JobRead(i))
  {
    assert w.jobs[i := Threw][i := Dead] == w.jobs[i := Dead];
    assert w.jobs[i := Threw][i := Seen] == w.jobs[i := Seen];
  }

  // With an attempt left nothing is lost: whatever else runs during the backoff,
  // the ledger is sound throughout, and when the next attempt has looked at the
  // row everything is as if the worker had heard.
  lemma NextAttemptLooksAgain(opening: int, run: seq<Step>, i: nat, mid: seq<Step>)
    requires HasJob(Exec(opening, run), i) && Exec(opening, run).jobs[i].Marked?
    requires forall s | s in mid :: LeavesJob(s, i)
    ensures var w' := From(CreditUnacknowledged(Exec(opening, run), i), mid);
            && Sound(w'.db)
            && Apply(w', JobRead(i)) == Exec(opening, run + [JobCredit(i)] + mid + [JobRead(i)])
            && Inv(Apply(w', JobRead(i)))
  {
    var heard := run + [JobCredit(i)] + mid;
    AfterUnheardCredit(opening, run, mid, i);
    SameAfterLook(Exec(opening, heard), i);
    OneStep(opening, heard, JobRead(i));
    RunKeepsInv(opening, heard);
    RunKeepsInv(opening, heard + [JobRead(i)]);
  }

  lemma CloseThrown(w: World, i: nat)
    requires Waits(w, i)
    ensures Apply(Thrown(w, i), JobExhausted(i)).db == SetStatus(w.db, i, Failed)
  {
  }

  lemma CreditedStaysSuccessful(opening: int, run: seq<Step>, mid: seq<Step>, i: nat)
    requires HasJob(Exec(opening, run), i) && Exec(opening, run).jobs[i].Marked?
    ensures var w := Exec(opening, run + [JobCredit(i)] + mid);
            && i < |w.db.rows| && w.db.rows[i].status.Successful?
            && SameIdentity(Exec(opening, run).db.rows[i], w.db.rows[i])
  {
    RunKeepsInv(opening, run);
    MarkedJobCredits(Exec(opening, run), i);
    OneStep(opening, run, JobCredit(i));
    var w1 := Exec(opening, run + [JobCredit(i)]);
    SettledHasEntry(Exec(opening, run).db, w1.db, i);
    RunsOnlyAppend(opening, run, [JobCredit(i)]);
    RunsOnlyAppend(opening, run + [JobCredit(i)], mid);
    var w := Exec(opening, run + [JobCredit(i)] + mid);
    LongerJournalHasEntry(w1.db.journal, w.db.journal, i);
    GrowthIsTransitive(Exec(opening, run).db.rows, w1.db.rows, w.db.rows);
    assert SameIdentity(Exec(opening, run).db.rows[i], w.db.rows[i]);
    UncreditedUntilSuccessful(opening, run + [JobCredit(i)] + mid, i);
  }

  lemma SettledHasEntry(d: Db, d': Db, i: nat)
    requires i < |d.rows| && d.rows[i].walletId.Some? && d.rows[i].walletId.value < |d.wallets|
    requires d' == Settle(d, i, d.rows[i].walletId.value, None)
    ensures HasEntry(d'.journal, i)
  {
    assert d'.journal[|d.journal|].txn == i;
  }

  lemma LongerJournalHasEntry(j: seq<Entry>, j': seq<Entry>, i: int)
    requires j <= j' && HasEntry(j, i)
    ensures HasEntry(j', i)
  {
    var k :| 0 <= k < |j| && j[k].txn == i;
    assert j'[k].txn == i;
  }

  // On the last attempt the row is closed as FAILED, whatever ran in between:
  // all else, the wallets included, is as if the worker had heard, and the
  // balances are no longer the sums of the rows.
  lemma LastAttemptLosesTheRow(opening: int, run: seq<Step>, i: nat, mid: seq<Step>)
    requires HasJob(Exec(opening, run), i) && Exec(opening, run).jobs[i].Marked?
    requires Exec(opening, run).db.rows[i].amount > 0 && forall s | s in mid :: LeavesJob(s, i)
    ensures var heard := Exec(opening, run + [JobCredit(i)] + mid).db;
            var d := Apply(From(CreditUnacknowledged(Exec(opening, run), i), mid), JobExhausted(i)).db;
            && i < |heard.rows| && heard.rows[i].status.Successful?
            && d == SetStatus(heard, i, Failed) && !BalancesAreSums(d)
  {
    AfterUnheardCredit(opening, run, mid, i);
    CloseThrown(Exec(opening, run + [JobCredit(i)] + mid), i);
    CreditedStaysSuccessful(opening, run, mid, i);
    ClosingCreditedBreaksSums(opening, run, mid, i);
  }

  lemma ClosingCreditedBreaksSums(opening: int, run: seq<Step>, mid: seq<Step>, i: nat)
    requires HasJob(Exec(opening, run), i) && Exec(opening, run).jobs[i].Marked?
    requires Exec(opening, run).db.rows[i].amount > 0
    ensures i < |Exec(opening, run + [JobCredit(i)] + mid).db.rows|
    ensures !BalancesAreSums(SetStatus(Exec(opening, run + [JobCredit(i)] + mid).db, i, Failed))
  {
    RunKeepsInv(opening, run);
    MarkedJobCredits(Exec(opening, run), i);
    CreditedStaysSuccessful(opening, run, mid, i);
    RunKeepsInv(opening, run + [JobCredit(i)] + mid);
    ClosingDepositIsSafeUnlessCredited(Exec(opening, run + [JobCredit(i)] + mid).db, i);
  }

  lemma FirstDepositIsQueued(w: World)
    requires w.db.wallets == [0] && w.db.rows == [] && w.jobs == map[] && w.arrivals == [Arrival("R", 5, None)]
    ensures var w' := Apply(w, RecordPayin(0, Some(0), false, true, 0));
            && w'.db.wallets == [0] && |w'.db.rows| == 1 && w'.db.rows[0].amount == 5
            && w'.db.rows[0].status.Pending? && w'.jobs == map[0 := Queued]
  {
    assert !ReferenceTaken(w.db.rows, Vfd, "R");
  }

  lemma FirstArrival(opening: int)
    ensures var w := Exec(opening, [OpenWallet] + [DepositArrives("R", 5)]);
            w.db.wallets == [0] && w.db.rows == [] && w.jobs == map[] && w.arrivals == [Arrival("R", 5, None)]
  {
    OneStep(opening, [], OpenWallet);
    assert [] + [OpenWallet] == [OpenWallet];
    OneStep(opening, [OpenWallet], DepositArrives("R", 5));
  }

  lemma QueuedIsMarked(w: World)
    requires |w.db.rows| == 1 && w.db.rows[0].status.Pending? && w.jobs == map[0 := Queued]
    ensures var w' := Apply(Apply(w, JobRead(0)), JobMark(0));
            HasJob(w', 0) && w'.jobs[0].Marked? && w'.db.rows[0].amount == w.db.rows[0].amount
            && w'.db.wallets == w.db.wallets
  {
  }

  // A deposit of 5 recorded, queued and marked by its worker.
  lemma DepositIsMarked(opening: int) returns (run: seq<Step>)
    ensures var w := Exec(opening, run);
            HasJob(w, 0) && w.jobs[0].Marked? && w.db.rows[0].amount == 5 && w.db.wallets == [0]
  {
    run := [OpenWallet] + [DepositArrives("R", 5)];
    FirstArrival(opening);
    FirstDepositIsQueued(Exec(opening, run));
    OneStep(opening, run, RecordPayin(0, Some(0), false, true, 0));
    run := run + [RecordPayin(0, Some(0), false, true, 0)];
    QueuedIsMarked(Exec(opening, run));
    OneStep(opening, run, JobRead(0));
    OneStep(opening, run + [JobRead(0)], JobMark(0));
    run := run + [JobRead(0)] + [JobMark(0)];
  }

  lemma CreditOfFive(opening: int, run: seq<Step>)
    requires HasJob(Exec(opening, run), 0) && Exec(opening, run).jobs[0].Marked?
    requires Exec(opening, run).db.rows[0].amount == 5 && Exec(opening, run).db.wallets == [0]
    ensures Exec(opening, run + [JobCredit(0)]).db.wallets == [5]
  {
    HeardCredit(opening, run, 0);
    SettledFive(Exec(opening, run).db, Exec(opening, run).db.rows[0].walletId.value);
  }

  lemma HeardCredit(opening: int, run: seq<Step>, i: nat)
    requires HasJob(Exec(opening, run), i) && Exec(opening, run).jobs[i].Marked?
    ensures var d := Exec(opening, run).db;
            && d.rows[i].walletId.Some? && d.rows[i].walletId.value < |d.wallets|
            && Exec(opening, run + [JobCredit(i)]).db == Settle(d, i, d.rows[i].walletId.value, None)
  {
    RunKeepsInv(opening, run);
    MarkedJobCredits(Exec(opening, run), i);
    OneStep(opening, run, JobCredit(i));
  }

  lemma SettledFive(d: Db, x: nat)
    requires d.wallets == [0] && x < 1 && |d.rows| > 0 && d.rows[0].amount == 5
    ensures Settle(d, 0, x, None).wallets == [5]
  {
  }

  // Its credit commits unacknowledged on the last attempt: it ends credited and
  // FAILED.
  lemma CreditedAndFailed(opening: int) returns (run: seq<Step>)
    ensures HasJob(Exec(opening, run), 0) && Exec(opening, run).jobs[0].Marked?
    ensures var d := Apply(From(CreditUnacknowledged(Exec(opening, run), 0), []), JobExhausted(0)).db;
            |d.rows| > 0 && d.rows[0].status.Failed? && d.wallets == [5] && !BalancesAreSums(d)
  {
    run := DepositIsMarked(opening);
    CreditOfFive(opening, run);
    assert run + [JobCredit(0)] + [] == run + [JobCredit(0)];
    LastAttemptLosesTheRow(opening, run, 0, []);
  }
}
