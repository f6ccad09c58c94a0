// What every run leaves on a customer's statement: the balance is the sum of
// the rows, the rows chain, no deposit is credited twice.
module Statements {
  import opened Prelude
  import opened Sums
  import opened Ledger
  import opened Machine
  import opened Safety

  // ---- Runs, step by step ----------------------------------------------------

  lemma OneStep(opening: int, run: seq<Step>, s: Step)
    ensures Exec(opening, run + [s]) == Apply(Exec(opening, run), s)
  {
    assert (run + [s])[..|run|] == run;
  }

  lemma LastStep(opening: int, run: seq<Step>, more: seq<Step>)
    requires |more| > 0
    ensures Exec(opening, run + more) == Apply(Exec(opening, run + more[..|more| - 1]), more[|more| - 1])
  {
    assert (run + more)[..|run + more| - 1] == run + more[..|more| - 1];
  }

  // The journal is only ever appended to and a row's own columns never change,
  // so what holds of one moment's entries holds of all later ones.
  lemma StepAppendsToJournal(w: World, s: Step)
    ensures w.db.journal <= Apply(w, s).db.journal
  {
  }

  lemma RefundKeepsColumns(d: Db, i: nat, now: int)
    ensures RowsGrow(d.rows, RefundTx(d, i, now).rows)
  {
  }

  lemma AddingKeepsColumns(w: World, s: Step)
    requires s.InitiatePayout? || s.PayBill? || s.RecordPayin? || s.Post?
    ensures RowsGrow(w.db.rows, Apply(w, s).db.rows)
  {
  }

  lemma SettlingKeepsColumns(w: World, s: Step)
    requires s.JobCredit? || s.Assign?
    ensures RowsGrow(w.db.rows, Apply(w, s).db.rows)
  {
  }

  lemma StepKeepsColumns(w: World, s: Step)
    ensures RowsGrow(w.db.rows, Apply(w, s).db.rows)
  {
    if s.CommitReversal? {
      if s.thread in w.threads { RefundKeepsColumns(w.db, w.threads[s.thread].txn, s.now); }
    } else if s.InitiatePayout? || s.PayBill? || s.RecordPayin? || s.Post? {
      AddingKeepsColumns(w, s);
    } else if s.JobCredit? || s.Assign? {
      SettlingKeepsColumns(w, s);
    }
  }

  lemma GrowthIsTransitive(a: seq<Txn>, b: seq<Txn>, c: seq<Txn>)
    requires RowsGrow(a, b) && RowsGrow(b, c)
    ensures RowsGrow(a, c)
  {
    forall i | 0 <= i < |a| ensures SameIdentity(a[i], c[i]) {
      assert SameIdentity(a[i], b[i]) && SameIdentity(b[i], c[i]);
    }
  }

  lemma {:induction false} RunsOnlyAppend(opening: int, run: seq<Step>, more: seq<Step>)
    ensures Exec(opening, run).db.journal <= Exec(opening, run + more).db.journal
    ensures RowsGrow(Exec(opening, run).db.rows, Exec(opening, run + more).db.rows)
  {
    if |more| == 0 {
      assert run + more == run;
    } else {
      var front := more[..|more| - 1];
      var w := Exec(opening, run + front);
      RunsOnlyAppend(opening, run, front);
      LastStep(opening, run, more);
      StepAppendsToJournal(w, more[|more| - 1]);
      StepKeepsColumns(w, more[|more| - 1]);
      GrowthIsTransitive(Exec(opening, run).db.rows, w.db.rows, Exec(opening, run + more).db.rows);
    }
  }

  // ---- The ledger equation ---------------------------------------------------

  function CreditAt(rows: seq<Txn>, w: nat): nat -> int {
    (i: nat) =>
      if i < |rows| && rows[i].walletId == Some(w) && rows[i].direction.Credit? && rows[i].status.Successful?
      then rows[i].amount else 0
  }

  function DebitAt(rows: seq<Txn>, w: nat): nat -> int {
    (i: nat) =>
      if i < |rows| && rows[i].walletId == Some(w) && rows[i].direction.Debit?
      then rows[i].amount + rows[i].fee else 0
  }

  lemma EffectsAreCreditsMinusDebits(rows: seq<Txn>, w: nat)
    ensures SumTo(|rows|, EffectOn(rows, w)) == SumTo(|rows|, CreditAt(rows, w)) - SumTo(|rows|, DebitAt(rows, w))
  {
    SumSplit(|rows|, CreditAt(rows, w), EffectOn(rows, w), DebitAt(rows, w));
  }

  lemma BalanceIsCreditsMinusDebits(opening: int, run: seq<Step>, w: nat)
    requires w < |Exec(opening, run).db.wallets|
    ensures var d := Exec(opening, run).db;
            && d.wallets[w] == SumTo(|d.rows|, CreditAt(d.rows, w)) - SumTo(|d.rows|, DebitAt(d.rows, w))
            && d.wallets[w] >= 0
  {
    RunKeepsInv(opening, run);
    EffectsAreCreditsMinusDebits(Exec(opening, run).db.rows, w);
  }

  // ---- The statement chain ---------------------------------------------------

  // One wallet's committed changes in commit order.
  function Statement(j: seq<Entry>, w: nat): seq<Entry> {
    if |j| == 0 then []
    else if j[|j| - 1].wallet == w then Statement(j[..|j| - 1], w) + [j[|j| - 1]]
    else Statement(j[..|j| - 1], w)
  }

  lemma {:induction false} StatementFollowsJournal(j: seq<Entry>, w: nat)
    ensures forall e :: e in Statement(j, w) <==> e in j && e.wallet == w
    ensures var s := Statement(j, w); LastBalance(j, w) == if |s| == 0 then 0 else s[|s| - 1].balanceAfter
  {
    if |j| == 0 {
    } else {
      StatementFollowsJournal(j[..|j| - 1], w);
      assert j == j[..|j| - 1] + [j[|j| - 1]];
    }
  }

  predicate ChainsAt(s: seq<Entry>, k: nat)
    requires k < |s|
  {
    && s[k].balanceAfter == (if k == 0 then 0 else s[k - 1].balanceAfter) + s[k].delta
    && s[k].balanceAfter >= 0
  }

  predicate StatementChains(s: seq<Entry>) {
    forall k | 0 <= k < |s| :: ChainsAt(s, k)
  }

  lemma PrefixIsChained(j: seq<Entry>)
    requires Chained(j) && |j| > 0
    ensures Chained(j[..|j| - 1])
    ensures var e := j[|j| - 1];
            e.balanceAfter == LastBalance(j[..|j| - 1], e.wallet) + e.delta && e.balanceAfter >= 0
  {
    var front := j[..|j| - 1];
    forall k | 0 <= k < |front|
      ensures front[k].balanceAfter == LastBalance(front[..k], front[k].wallet) + front[k].delta
      ensures front[k].balanceAfter >= 0
    {
      assert front[..k] == j[..k];
    }
  }

  lemma StatementGrows(s: seq<Entry>, e: Entry)
    requires StatementChains(s) && e.balanceAfter >= 0
    requires e.balanceAfter == (if |s| == 0 then 0 else s[|s| - 1].balanceAfter) + e.delta
    ensures StatementChains(s + [e])
  {
    forall k | 0 <= k < |s + [e]| ensures ChainsAt(s + [e], k) {
      if k < |s| { assert ChainsAt(s, k); }
    }
  }

  lemma EntryExtendsStatement(front: seq<Entry>, e: Entry, w: nat)
    requires StatementChains(Statement(front, w)) && e.balanceAfter >= 0
    requires e.balanceAfter == LastBalance(front, e.wallet) + e.delta
    ensures StatementChains(Statement(front + [e], w))
  {
    var j := front + [e];
    assert j[..|j| - 1] == front;
    if e.wallet == w {
      StatementFollowsJournal(front, w);
      StatementGrows(Statement(front, w), e);
    }
  }

  lemma {:induction false} ChainedJournalChainsStatements(j: seq<Entry>, w: nat)
    requires Chained(j)
    ensures StatementChains(Statement(j, w))
  {
    if |j| == 0 {
    } else {
      var front, last := j[..|j| - 1], j[|j| - 1];
      PrefixIsChained(j);
      ChainedJournalChainsStatements(front, w);
      EntryExtendsStatement(front, last, w);
      assert front + [last] == j;
    }
  }

  // The row of every entry shows the balance and the movement of the entry, and
  // every row of the wallet that moved money has its entry, once.
  predicate StatementShowsRows(d: Db, w: nat) {
    && (forall e | e in Statement(d.journal, w) ::
          && e.txn < |d.rows| && d.rows[e.txn].walletId == Some(w)
          && d.rows[e.txn].balanceAfter == Some(e.balanceAfter)
          && e.delta == (if d.rows[e.txn].direction.Credit? then d.rows[e.txn].amount
                         else -(d.rows[e.txn].amount + d.rows[e.txn].fee)))
    && (forall i: nat | i < |d.rows| && d.rows[i].walletId == Some(w) && Moves(d.rows[i]) ::
          exists e :: e in Statement(d.journal, w) && e.txn == i)
  }

  lemma StatementShowsItsRows(d: Db, w: nat)
    requires OneEntryPerMovingRow(d)
    ensures StatementShowsRows(d, w)
  {
    StatementFollowsJournal(d.journal, w);
    forall e | e in d.journal ensures EntryMatchesRow(e, d.rows) {
      var k :| 0 <= k < |d.journal| && d.journal[k] == e;
    }
    forall i: nat | i < |d.rows| && d.rows[i].walletId == Some(w) && Moves(d.rows[i])
      ensures exists e :: e in Statement(d.journal, w) && e.txn == i
    {
      assert HasEntry(d.journal, i);
      var k :| 0 <= k < |d.journal| && d.journal[k].txn == i;
      assert EntryMatchesRow(d.journal[k], d.rows);
      assert d.journal[k] in Statement(d.journal, w);
    }
  }

  lemma StatementChainsToBalance(opening: int, run: seq<Step>, w: nat)
    requires w < |Exec(opening, run).db.wallets|
    ensures var d := Exec(opening, run).db;
            var s := Statement(d.journal, w);
            && StatementChains(s)
            && StatementShowsRows(d, w)
            && d.wallets[w] == if |s| == 0 then 0 else s[|s| - 1].balanceAfter
  {
    RunKeepsInv(opening, run);
    var d := Exec(opening, run).db;
    ChainedJournalChainsStatements(d.journal, w);
    StatementFollowsJournal(d.journal, w);
    StatementShowsItsRows(d, w);
  }

  // ---- Deposits --------------------------------------------------------------

  // For one (provider, reference) there is one row and at most one movement:
  // its recorded amount, into the one wallet it names, by the worker or by
  // staff and never by both.
  lemma DepositCreditedAtMostOnce(opening: int, run: seq<Step>, i: nat, k: nat, e: nat, f: nat)
    requires var w := Exec(opening, run);
             && i < |w.db.rows| && k < |w.db.rows| && w.db.rows[i].kind.Deposit?
             && w.db.rows[k].provider == w.db.rows[i].provider
             && w.db.rows[k].reference == w.db.rows[i].reference
             && e < |w.db.journal| && f < |w.db.journal|
             && w.db.journal[e].txn == i && w.db.journal[f].txn == k
    ensures var w := Exec(opening, run);
            && i == k && e == f
            && w.db.journal[e].delta == w.db.rows[i].amount
            && w.db.rows[i].walletId == Some(w.db.journal[e].wallet)
            && w.db.rows[i].status.Successful?
            && (i in w.jobs <==> i !in w.parked)
            && (w.db.rows[i].resolvedBy.Some? <==> i in w.parked)
  {
    RunKeepsInv(opening, run);
    var w := Exec(opening, run);
    assert EntryMatchesRow(w.db.journal[e], w.db.rows);
    assert ShapeOk(w.db.rows[i]);
  }

  lemma UncreditedUntilSuccessful(opening: int, run: seq<Step>, i: nat)
    requires var w := Exec(opening, run); i < |w.db.rows| && w.db.rows[i].kind.Deposit?
    ensures var w := Exec(opening, run);
            w.db.rows[i].status.Successful? <==>
            HasEntry(w.db.journal, i)
  {
    RunKeepsInv(opening, run);
    var w := Exec(opening, run);
    assert ShapeOk(w.db.rows[i]);
    forall e | 0 <= e < |w.db.journal| && w.db.journal[e].txn == i ensures w.db.rows[i].status.Successful? {
      assert EntryMatchesRow(w.db.journal[e], w.db.rows);
    }
  }
}
