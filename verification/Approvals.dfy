// Who may do what to a posting, over all runs: nobody decides on their own
// request, one person decides and only that person sends it, and a deposit has
// one open posting.
module Approvals {
  import opened Prelude
  import opened MakerChecker
  import opened Delivery

  // A request is withdrawn by whoever made it and decided by someone else.
  predicate DecidedRight(p: Posting) {
    match p.status
    case PENDING => p.decidedBy.None?
    case CANCELLED => p.decidedBy == Some(p.requestedBy)
    case _ => p.decidedBy.Some? && p.decidedBy != Some(p.requestedBy)
  }

  predicate AllDecidedRight(postings: map<string, Posting>) {
    forall id | id in postings :: DecidedRight(postings[id])
  }

  lemma RecordedWasSent(o: Office, a: nat)
    requires ConsoleOk(o) && a in o.flights
    ensures o.flights[a].posting in o.postings && WasSent(o.postings[o.flights[a].posting].status)
  {
    assert FlightOk(o, o.flights[a]);
  }

  lemma StepDecidesRight(o: Office, s: OfficeStep)
    requires ConsoleOk(o) && AllDecidedRight(o.postings)
    ensures AllDecidedRight(Act(o, s).postings)
  {
    match s
    case Record(a) => if a in o.flights { RecordedWasSent(o, a); }
    case _ =>
  }

  lemma {:induction false} NobodyDecidesOnTheirOwn(opening: int, run: seq<OfficeStep>)
    ensures AllDecidedRight(Play(opening, run).postings)
  {
    if |run| == 0 {
    } else {
      NobodyDecidesOnTheirOwn(opening, run[..|run| - 1]);
      RunsKeepOffice(opening, run[..|run| - 1]);
      StepDecidesRight(Play(opening, run[..|run| - 1]), run[|run| - 1]);
    }
  }

  // What was asked for and by whom, and once decided by whom, never changes.
  predicate Keeps(p: Posting, q: Posting) {
    SameTerms(p, q) && q.requestedBy == p.requestedBy && (p.decidedBy.Some? ==> q.decidedBy == p.decidedBy)
  }

  predicate AllKept(before: map<string, Posting>, after: map<string, Posting>) {
    forall id | id in before :: id in after && Keeps(before[id], after[id])
  }

  lemma StepKeepsDecisions(o: Office, s: OfficeStep)
    requires AllDecidedRight(o.postings)
    ensures AllKept(o.postings, Act(o, s).postings)
  {
  }

  lemma {:induction false} DecisionsAreFinal(opening: int, run: seq<OfficeStep>, more: seq<OfficeStep>)
    ensures AllKept(Play(opening, run).postings, Play(opening, run + more).postings)
  {
    if |more| == 0 {
      assert run + more == run;
    } else {
      var front := more[..|more| - 1];
      DecisionsAreFinal(opening, run, front);
      NobodyDecidesOnTheirOwn(opening, run + front);
      assert (run + more)[..|run + more| - 1] == run + front;
      StepKeepsDecisions(Play(opening, run + front), more[|more| - 1]);
    }
  }

  // The approval sends a call.
  predicate Sends(o: Office, s: OfficeStep) {
    s.Approve? && s.attempt !in o.flights && s.attempt in Act(o, s).flights
  }

  lemma SenderDecided(o: Office, s: OfficeStep)
    requires Sends(o, s)
    ensures s.id in Act(o, s).postings && Act(o, s).postings[s.id].decidedBy == Some(s.staff)
    ensures Act(o, s).postings[s.id].requestedBy != s.staff
  {
  }

  // Whoever sends a posting, the first time or again, did not ask for it and is
  // the one person who decided it, then and ever after.
  lemma OnlyTheDeciderSends(opening: int, run: seq<OfficeStep>, s: OfficeStep, more: seq<OfficeStep>)
    requires Sends(Play(opening, run), s)
    ensures var o := Play(opening, run + [s] + more);
            && s.id in o.postings && o.postings[s.id].requestedBy != s.staff
            && o.postings[s.id].decidedBy == Some(s.staff)
  {
    assert (run + [s])[..|run|] == run;
    SenderDecided(Play(opening, run), s);
    DecisionsAreFinal(opening, run + [s], more);
    assert Keeps(Play(opening, run + [s]).postings[s.id], Play(opening, run + [s] + more).postings[s.id]);
  }

  // And the decider of a posting that is pending or was not answered can.
  lemma TheDeciderCanSend(o: Office, a: nat, id: string, staff: nat)
    requires a !in o.flights && id in o.postings
    ensures Sends(o, Approve(a, id, staff)) <==>
              && o.postings[id].requestedBy != staff
              && (|| o.postings[id].status.PENDING?
                  || (o.postings[id].status.PROCESSING? && o.postings[id].decidedBy == Some(staff)))
  {
  }

  predicate OneOpenEach(postings: map<string, Posting>) {
    forall a, b | a in postings && b in postings && a != b
                  && IsOpenPosting(postings[a]) && IsOpenPosting(postings[b]) && postings[a].source.Some? ::
      postings[a].source != postings[b].source
  }

  lemma StepKeepsOneOpen(o: Office, s: OfficeStep)
    requires OneOpenEach(o.postings)
    ensures OneOpenEach(Act(o, s).postings)
  {
  }

  // Two people cannot be assigning one deposit at once.
  lemma {:induction false} OneOpenPostingPerDeposit(opening: int, run: seq<OfficeStep>)
    ensures OneOpenEach(Play(opening, run).postings)
  {
    if |run| == 0 {
    } else {
      OneOpenPostingPerDeposit(opening, run[..|run| - 1]);
      StepKeepsOneOpen(Play(opening, run[..|run| - 1]), run[|run| - 1]);
    }
  }
}
