// What the exactly-once claims do not promise, and that they cannot: a debit
// whose calls overlap, and a refusal the payment service did not decide.
module Overlap {
  import opened Prelude
  import opened Ledger
  import opened Machine
  import opened MakerChecker
  import opened Delivery
  import opened Settled
  import opened ExactlyOnce

  lemma Then(opening: int, run: seq<OfficeStep>, s: OfficeStep)
    ensures Play(opening, run + [s]) == Act(Play(opening, run), s)
  {
    assert (run + [s])[..|run|] == run;
  }

  lemma ThreeSteps(opening: int, run: seq<OfficeStep>, a: OfficeStep, b: OfficeStep, c: OfficeStep)
    ensures Play(opening, run + [a] + [b] + [c]) == Act(Act(Act(Play(opening, run), a), b), c)
  {
    Then(opening, run, a);
    Then(opening, run + [a], b);
    Then(opening, run + [a] + [b], c);
  }

  // ---- A debit approved again while its first call is out --------------------

  function Asked(direction: Direction, amount: int, status: PostingStatus): Posting {
    Posting(0, None, direction, amount, status, 1, if status.PENDING? then None else Some(2), None, None)
  }

  function Moved(balance: int, direction: Direction, amount: int): int {
    if direction.Credit? then balance + amount else balance - amount
  }

  // Posting `id` was asked for, approved and applied; nothing else changed.
  predicate WentThrough(o: Office, o': Office, k: nat, id: string) {
    && o'.postings.Keys == o.postings.Keys + {id} && (forall x | x in o.postings :: o'.postings[x] == o.postings[x])
    && o'.flights.Keys == o.flights.Keys + {k} && (forall a | a in o.flights :: o'.flights[a] == o.flights[a])
  }

  lemma AskedAndApproved(o: Office, k: nat, id: string, direction: Direction, amount: int)
    requires MayRequest(o, id, 0, None, direction, amount) && k !in o.flights
    ensures Act(Act(o, Request(id, 0, None, direction, amount, 1)), Approve(k, id, 2))
         == o.(postings := o.postings[id := Asked(direction, amount, PROCESSING)],
               flights := o.flights[k := Sent(id)])
  {
    var o1 := Act(o, Request(id, 0, None, direction, amount, 1));
    assert o1.postings == o.postings[id := Asked(direction, amount, PENDING)];
    assert o.postings[id := Asked(direction, amount, PENDING)][id := Asked(direction, amount, PROCESSING)]
        == o.postings[id := Asked(direction, amount, PROCESSING)];
  }

  lemma PostIsApplied(pay: World, p: Posting, id: string, balance: int)
    requires pay.db.wallets == [balance] && p.wallet == 0 && p.source.None? && p.amount > 0
    requires p.direction.Debit? ==> balance >= p.amount
    requires !ReferenceTaken(pay.db.rows, Manual, PostingReference(id))
    ensures Handle(pay, p, id, 0, false).0.db.wallets == [Moved(balance, p.direction, p.amount)]
  {
    var q := PostingRequest(p, id, 0);
    var rows' := PostTx(pay.db, q).rows;
    assert rows'[|pay.db.rows|].reference == q.reference;
    assert ReferenceTaken(rows', Manual, q.reference);
  }

  lemma CallIsApplied(o: Office, k: nat, id: string, balance: int, direction: Direction, amount: int)
    requires o.pay.db.wallets == [balance] && amount > 0 && (direction.Debit? ==> balance >= amount)
    requires id in o.postings && o.postings[id] == Asked(direction, amount, PROCESSING)
    requires k in o.flights && o.flights[k] == Sent(id)
    requires !ReferenceTaken(o.pay.db.rows, Manual, PostingReference(id))
    ensures var o' := Act(o, Deliver(k, 0));
            && o'.pay.db.wallets == [Moved(balance, direction, amount)] && o'.postings == o.postings
            && o'.flights.Keys == o.flights.Keys
            && (forall a | a in o.flights && a != k :: o'.flights[a] == o.flights[a])
  {
    PostIsApplied(o.pay, o.postings[id], id, balance);
    Delivered(o, k, 0);
  }

  lemma UnknownHasNoRow(opening: int, run: seq<OfficeStep>, id: string)
    requires id !in Play(opening, run).postings
    ensures !ReferenceTaken(Play(opening, run).pay.db.rows, Manual, PostingReference(id))
  {
    RunsKeepOffice(opening, run);
    UnknownWasNotApplied(Play(opening, run), id);
    UnappliedHasNoRow(Play(opening, run).pay.db.rows, id);
  }

  lemma GoesThrough(opening: int, run: seq<OfficeStep>, k: nat, id: string, balance: int,
                    direction: Direction, amount: int)
    returns (longer: seq<OfficeStep>)
    requires var o := Play(opening, run);
             o.pay.db.wallets == [balance] && id !in o.postings && k !in o.flights
    requires amount > 0 && (direction.Debit? ==> balance >= amount)
    ensures Play(opening, longer).pay.db.wallets == [Moved(balance, direction, amount)]
    ensures WentThrough(Play(opening, run), Play(opening, longer), k, id)
  {
    var o := Play(opening, run);
    UnknownHasNoRow(opening, run, id);
    AskedAndApproved(o, k, id, direction, amount);
    var o2 := Act(Act(o, Request(id, 0, None, direction, amount, 1)), Approve(k, id, 2));
    CallIsApplied(o2, k, id, balance, direction, amount);
    ThreeSteps(opening, run, Request(id, 0, None, direction, amount, 1), Approve(k, id, 2), Deliver(k, 0));
    longer := run + [Request(id, 0, None, direction, amount, 1)] + [Approve(k, id, 2)] + [Deliver(k, 0)];
  }

  // The wallet holds the amount and the debit is asked for.
  lemma Covered(opening: int, amount: int) returns (run: seq<OfficeStep>)
    requires amount > 0
    ensures var o := Play(opening, run);
            && o.pay.db.wallets == [amount] && o.postings.Keys == {"aa", "p"} && o.flights.Keys == {11}
            && o.postings["p"] == Asked(Debit, amount, PENDING)
  {
    Then(opening, [], Pay(OpenWallet));
    assert [] + [Pay(OpenWallet)] == [Pay(OpenWallet)];
    assert Play(opening, []) == Opening(opening);
    var funded := GoesThrough(opening, [Pay(OpenWallet)], 11, "aa", 0, Credit, amount);
    assert |"p"| == 1 && |"aa"| == 2;
    Then(opening, funded, Request("p", 0, None, Debit, amount, 1));
    run := funded + [Request("p", 0, None, Debit, amount, 1)];
  }

  // A debit was asked for while the wallet covered it, which it no longer does.
  lemma Uncovered(opening: int, amount: int) returns (run: seq<OfficeStep>)
    requires amount > 0
    ensures var o := Play(opening, run);
            && o.pay.db.wallets == [0] && o.postings.Keys == {"aa", "p", "bb"} && o.flights.Keys == {11, 12}
            && o.postings["p"] == Asked(Debit, amount, PENDING)
  {
    run := Covered(opening, amount);
    assert |"p"| == 1 && "aa"[0] != "bb"[0];
    run := GoesThrough(opening, run, 12, "bb", amount, Debit, amount);
  }

  lemma ApprovedTwice(o: Office, amount: int)
    requires "p" in o.postings && o.postings["p"] == Asked(Debit, amount, PENDING) && 1 !in o.flights && 2 !in o.flights
    ensures Act(Act(o, Approve(1, "p", 2)), Approve(2, "p", 2))
         == o.(postings := o.postings["p" := Asked(Debit, amount, PROCESSING)],
               flights := o.flights[1 := Sent("p")][2 := Sent("p")])
  {
  }

  // The second call finds no money, and its refusal is recorded.
  lemma SecondIsRefused(o: Office, amount: int)
    requires o.pay.db.wallets == [0] && amount > 0 && "p" in o.postings
    requires o.postings["p"] == Asked(Debit, amount, PROCESSING)
    requires 1 in o.flights && o.flights[1] == Sent("p") && 2 in o.flights && o.flights[2] == Sent("p")
    requires !ReferenceTaken(o.pay.db.rows, Manual, PostingReference("p"))
    ensures var o' := Act(Act(o, Deliver(2, 0)), Record(2));
            && o'.pay == o.pay && o'.postings.Keys == o.postings.Keys
            && o'.postings["p"] == Asked(Debit, amount, FAILED)
            && 1 in o'.flights && o'.flights[1] == Sent("p") && o'.flights.Keys <= o.flights.Keys
  {
    var o1 := Act(o, Deliver(2, 0));
    assert o1.pay == o.pay && o1.flights == o.flights[2 := Flight("p", false, Some(Refused))];
  }

  // The first call, long given up, arrives and finds money.
  lemma FirstIsApplied(o: Office, amount: int)
    requires o.pay.db.wallets == [amount] && amount > 0 && "p" in o.postings
    requires o.postings["p"] == Asked(Debit, amount, FAILED) && 1 in o.flights && o.flights[1] == Sent("p")
    ensures var o' := Act(o, Deliver(1, 0));
            o'.postings == o.postings && WasApplied(o'.pay.db.rows, "p")
  {
    var q := PostingRequest(o.postings["p"], "p", 0);
    var rows' := PostTx(o.pay.db, q).rows;
    if ReferenceTaken(o.pay.db.rows, Manual, q.reference) {
      var i :| 0 <= i < |o.pay.db.rows|
               && o.pay.db.rows[i].provider == Manual && o.pay.db.rows[i].reference == q.reference;
      assert IsDoingOf(rows'[i], "p");
    } else {
      assert IsDoingOf(rows'[|o.pay.db.rows|], "p");
    }
    assert ReferenceTaken(rows', Manual, q.reference);
  }

  // A debit that FAILED while its first call is still out, from a wallet that
  // no longer covers it.
  lemma FailedFirstOut(opening: int, amount: int) returns (run: seq<OfficeStep>)
    requires amount > 0
    ensures var o := Play(opening, run);
            && o.pay.db.wallets == [0] && "cc" !in o.postings && 13 !in o.flights
            && "p" in o.postings && o.postings["p"] == Asked(Debit, amount, FAILED)
            && 1 in o.flights && o.flights[1] == Sent("p")
  {
    var r := Uncovered(opening, amount);
    PendingHasNoRow(opening, r, "p");
    assert |"p"| == 1 && "aa"[0] != "cc"[0] && "bb"[0] != "cc"[0];
    ApprovedTwice(Play(opening, r), amount);
    SecondIsRefused(Act(Act(Play(opening, r), Approve(1, "p", 2)), Approve(2, "p", 2)), amount);
    Then(opening, r, Approve(1, "p", 2));
    ThreeSteps(opening, r + [Approve(1, "p", 2)], Approve(2, "p", 2), Deliver(2, 0), Record(2));
    run := r + [Approve(1, "p", 2)] + [Approve(2, "p", 2)] + [Deliver(2, 0)] + [Record(2)];
  }

  lemma PendingHasNoRow(opening: int, run: seq<OfficeStep>, id: string)
    requires id in Play(opening, run).postings && Play(opening, run).postings[id].status.PENDING?
    ensures !ReferenceTaken(Play(opening, run).pay.db.rows, Manual, PostingReference(id))
  {
    UnpostedMovedNothing(opening, run, id);
    UnappliedHasNoRow(Play(opening, run).pay.db.rows, id);
  }

  // For every amount, a debit of it that ends FAILED with its money moved: the
  // console gave up on its first call, the second was refused, and the first
  // arrived after another posting brought the money back.
  lemma OverlappingApprovalsBreakIt(opening: int, amount: int) returns (run: seq<OfficeStep>)
    requires amount > 0
    ensures var o := Play(opening, run);
            && "p" in o.postings && o.postings["p"].status.FAILED? && o.postings["p"].amount == amount
            && o.postings["p"].direction.Debit? && WasApplied(o.pay.db.rows, "p")
  {
    var r := FailedFirstOut(opening, amount);
    var funded := GoesThrough(opening, r, 13, "cc", 0, Credit, amount);
    FirstIsApplied(Play(opening, funded), amount);
    Then(opening, funded, Deliver(1, 0));
    run := funded + [Deliver(1, 0)];
  }

  // ---- A refusal the payment service did not decide --------------------------

  // A 4xx that came from in front of it, recorded like any other.
  function TurnedAway(o: Office, a: nat): Office
    requires a in o.flights && o.flights[a].posting in o.postings
  {
    o.(postings := AfterReply(o.postings, o.flights[a].posting, Refused), flights := Without(o.flights, a))
  }

  // A final status is the truth about the money.
  predicate RecordRight(o: Office, id: string)
    requires id in o.postings
  {
    var p := o.postings[id];
    && (p.status.POSTED? ==>
          p.transactionId.Some? && CarriesOut(o.pay.db.rows, p, id, p.transactionId.value, p.balanceAfter))
    && (!p.status.POSTED? && !p.status.PROCESSING? ==> !WasApplied(o.pay.db.rows, id))
  }

  predicate RecordsRight(o: Office) {
    forall id | id in o.postings :: RecordRight(o, id)
  }

  ghost predicate AllOneAtATime(opening: int, run: seq<OfficeStep>) {
    forall id: string :: OneAtATime(opening, run, id)
  }

  lemma SettledRecordsAreRight(opening: int, run: seq<OfficeStep>)
    requires AllOneAtATime(opening, run)
    ensures RecordsRight(Play(opening, run))
  {
    forall id | id in Play(opening, run).postings ensures RecordRight(Play(opening, run), id) {
      var p := Play(opening, run).postings[id];
      if p.status.POSTED? {
        PostedMovedMoneyOnce(opening, run, id);
      } else if !p.status.PROCESSING? {
        UnpostedMovedNothing(opening, run, id);
      }
    }
  }

  lemma TurnedAwayInState(o: Office, a: nat)
    requires RecordsRight(o) && a in o.flights && o.flights[a].posting in o.postings
    ensures RecordsRight(TurnedAway(o, a)) <==> !WasApplied(o.pay.db.rows, o.flights[a].posting)
  {
    var id := o.flights[a].posting;
    var o' := TurnedAway(o, a);
    assert RecordRight(o', id) <==> !WasApplied(o.pay.db.rows, id);
    forall k | k in o'.postings && k != id ensures RecordRight(o', k) {
      assert RecordRight(o, k);
    }
  }

  // With calls made one at a time every record is right, and recording such a
  // refusal keeps them so exactly when no earlier call for the posting had been
  // applied.
  lemma TurnedAwayIsRightUnlessApplied(opening: int, run: seq<OfficeStep>, a: nat)
    requires AllOneAtATime(opening, run) && a in Play(opening, run).flights
    ensures var o := Play(opening, run);
            && RecordsRight(o) && o.flights[a].posting in o.postings
            && (RecordsRight(TurnedAway(o, a)) <==> !WasApplied(o.pay.db.rows, o.flights[a].posting))
  {
    RunsKeepOffice(opening, run);
    var o := Play(opening, run);
    assert FlightOk(o, o.flights[a]);
    SettledRecordsAreRight(opening, run);
    TurnedAwayInState(o, a);
  }

  lemma StaysOneAtATime(opening: int, run: seq<OfficeStep>, s: OfficeStep)
    requires AllOneAtATime(opening, run)
    requires s.Approve? ==> forall a | a in Play(opening, run).flights :: Play(opening, run).flights[a].posting != s.id
    ensures AllOneAtATime(opening, run + [s])
  {
    assert (run + [s])[..|run|] == run;
    forall id: string ensures OneAtATime(opening, run + [s], id) {
      assert OneAtATime(opening, run, id);
    }
  }

  // It was applied and its answer lost.
  predicate AppliedUnheard(o: Office, amount: int) {
    && WasApplied(o.pay.db.rows, "p") && o.postings == map["p" := Asked(Credit, amount, PROCESSING)]
    && o.flights == map[]
  }

  lemma AppliedThenLost(o: Office, amount: int)
    requires o.pay.db.wallets == [0] && o.pay.db.rows == [] && amount > 0
    requires o.postings == map["p" := Asked(Credit, amount, PROCESSING)] && o.flights == map[1 := Sent("p")]
    ensures AppliedUnheard(Act(Act(o, Deliver(1, 0)), Lose(1)), amount)
  {
    var q := PostingRequest(o.postings["p"], "p", 0);
    var d := PostTx(o.pay.db, q);
    assert IsDoingOf(d.rows[0], "p");
    assert ReferenceTaken(d.rows, Manual, q.reference);
    assert Without(Act(o, Deliver(1, 0)).flights, 1) == map[];
  }

  lemma RetriedThenTurnedAway(o: Office, amount: int)
    requires AppliedUnheard(o, amount)
    ensures var o' := Act(o, Approve(2, "p", 2));
            && 2 in o'.flights && o'.flights[2].posting == "p" && "p" in o'.postings
            && WasApplied(o'.pay.db.rows, "p") && TurnedAway(o', 2).postings["p"].status.FAILED?
  {
  }

  lemma OneAsked(opening: int, amount: int) returns (run: seq<OfficeStep>)
    requires amount > 0
    ensures run == [Pay(OpenWallet)] + [Request("p", 0, None, Credit, amount, 1)]
    ensures var o := Play(opening, run);
            && o.pay.db.wallets == [0] && o.pay.db.rows == [] && o.flights == map[]
            && o.postings == map["p" := Asked(Credit, amount, PENDING)]
  {
    var r1 := [Pay(OpenWallet)];
    run := r1 + [Request("p", 0, None, Credit, amount, 1)];
    Then(opening, [], Pay(OpenWallet));
    assert [] + [Pay(OpenWallet)] == r1;
    assert Play(opening, []) == Opening(opening);
    Then(opening, r1, Request("p", 0, None, Credit, amount, 1));
  }

  lemma AppliedUnheardIsReached(opening: int, amount: int) returns (run: seq<OfficeStep>)
    requires amount > 0
    ensures AllOneAtATime(opening, run) && AppliedUnheard(Play(opening, run), amount)
  {
    var r := OneAsked(opening, amount);
    StaysOneAtATime(opening, [], Pay(OpenWallet));
    assert [] + [Pay(OpenWallet)] == [Pay(OpenWallet)];
    StaysOneAtATime(opening, [Pay(OpenWallet)], Request("p", 0, None, Credit, amount, 1));
    StaysOneAtATime(opening, r, Approve(1, "p", 2));
    StaysOneAtATime(opening, r + [Approve(1, "p", 2)], Deliver(1, 0));
    StaysOneAtATime(opening, r + [Approve(1, "p", 2)] + [Deliver(1, 0)], Lose(1));
    Then(opening, r, Approve(1, "p", 2));
    AppliedThenLost(Play(opening, r + [Approve(1, "p", 2)]), amount);
    Then(opening, r + [Approve(1, "p", 2)], Deliver(1, 0));
    Then(opening, r + [Approve(1, "p", 2)] + [Deliver(1, 0)], Lose(1));
    run := r + [Approve(1, "p", 2)] + [Deliver(1, 0)] + [Lose(1)];
  }

  // A credit that was applied, its answer lost, approved again, and turned
  // away: it ends FAILED with its money moved.
  lemma AppliedAndTurnedAway(opening: int, amount: int) returns (run: seq<OfficeStep>)
    requires amount > 0
    ensures AllOneAtATime(opening, run)
    ensures var o := Play(opening, run);
            && 2 in o.flights && o.flights[2].posting == "p" && "p" in o.postings
            && WasApplied(o.pay.db.rows, "p") && TurnedAway(o, 2).postings["p"].status.FAILED?
  {
    var r := AppliedUnheardIsReached(opening, amount);
    RetriedThenTurnedAway(Play(opening, r), amount);
    Then(opening, r, Approve(2, "p", 2));
    StaysOneAtATime(opening, r, Approve(2, "p", 2));
    run := r + [Approve(2, "p", 2)];
  }
}
