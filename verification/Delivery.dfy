// What a posting's call does at the payment service, and what every run of the
// two services keeps, however many calls for one posting are out at once.
module Delivery {
  import opened Prelude
  import opened Ledger
  import opened Machine
  import opened Safety
  import opened MakerChecker

  // ---- What a delivered call does --------------------------------------------

  predicate AllBacked(postings: map<string, Posting>, rows: seq<Txn>) {
    forall t: nat | t < |rows| :: RowBacked(postings, rows, t)
  }

  lemma DoingCarriesOut(postings: map<string, Posting>, rows: seq<Txn>, t: nat, id: string)
    requires t < |rows| && RowBacked(postings, rows, t) && IsDoingOf(rows[t], id)
    ensures id in postings && CarriesOut(rows, postings[id], id, t, rows[t].balanceAfter)
    ensures postings[id].source.None? ==> rows[t].provider.Manual? && rows[t].reference == PostingReference(id)
  {
    if rows[t].provider.Manual? && rows[t].reference == PostingReference(id) {
      var k :| k in postings && rows[t].reference == PostingReference(k)
               && CarriesOut(rows, postings[k], k, t, rows[t].balanceAfter);
      PostingReferenceIsInjective(k, id);
    } else {
      var k :| k in postings && rows[t].resolvedBy == Some(PostingReference(k)) && postings[k].source == Some(t)
               && CarriesOut(rows, postings[k], k, t, rows[t].balanceAfter);
      PostingReferenceIsInjective(k, id);
    }
  }

  lemma DirectWasApplied(postings: map<string, Posting>, rows: seq<Txn>, id: string)
    requires AllBacked(postings, rows) && id in postings && postings[id].source.None?
    ensures WasApplied(rows, id) ==> ReferenceTaken(rows, Manual, PostingReference(id))
  {
    if WasApplied(rows, id) {
      var t: nat :| t < |rows| && IsDoingOf(rows[t], id);
      DoingCarriesOut(postings, rows, t, id);
    }
  }

  lemma SourcedWasApplied(postings: map<string, Posting>, d: Db, id: string)
    requires AllBacked(postings, d.rows) && id in postings && postings[id].source.Some?
    ensures WasApplied(d.rows, id) ==> AlreadyAssigned(d, postings[id].source.value, postings[id].wallet)
  {
    if WasApplied(d.rows, id) {
      var t: nat :| t < |d.rows| && IsDoingOf(d.rows[t], id);
      DoingCarriesOut(postings, d.rows, t, id);
    }
  }

  lemma RefusedKeepsConsole(o: Office, a: nat)
    requires ConsoleOk(o) && a in o.flights && o.flights[a].posting in o.postings
    requires o.postings[o.flights[a].posting].direction.Credit? ==>
               LostToAnother(o.pay.db.rows, o.postings[o.flights[a].posting])
    ensures ConsoleOk(o.(flights := o.flights[a := o.flights[a].(reply := Some(Refused))]))
  {
    assert FlightOk(o, o.flights[a]);
    ReplyKeepsConsole(o, a, o.flights[a].(reply := Some(Refused)));
  }

  lemma AppliedKeepsConsole(o: Office, a: nat, t: nat)
    requires ConsoleOk(o) && a in o.flights && o.flights[a].posting in o.postings && t < |o.pay.db.rows|
    requires CarriesOut(o.pay.db.rows, o.postings[o.flights[a].posting], o.flights[a].posting, t,
                        o.pay.db.rows[t].balanceAfter)
    ensures ConsoleOk(o.(flights := o.flights[a :=
                           o.flights[a].(reply := Some(Applied(t, o.pay.db.rows[t].balanceAfter)))]))
  {
    assert FlightOk(o, o.flights[a]);
    ReplyKeepsConsole(o, a, o.flights[a].(reply := Some(Applied(t, o.pay.db.rows[t].balanceAfter))));
  }

  // The new row of a direct posting, and the rewritten row of an assignment.
  lemma NewPostIsDoing(d: Db, p: Posting, id: string, now: int)
    requires p.source.None? && p.amount > 0
    requires PostRefusal(d, PostingRequest(p, id, now)).None?
    requires !ReferenceTaken(d.rows, Manual, PostingReference(id))
    ensures var rows' := PostTx(d, PostingRequest(p, id, now)).rows;
            && BecomesDoing(d.rows, rows', |d.rows|, id)
            && CarriesOut(rows', p, id, |d.rows|, rows'[|d.rows|].balanceAfter)
  {
  }

  lemma NewAssignmentIsDoing(d: Db, p: Posting, id: string)
    requires p.source.Some? && AssignRefusal(d, p.source.value, p.wallet).None?
    requires !AlreadyAssigned(d, p.source.value, p.wallet)
    requires d.rows[p.source.value].provider.Vfd? && d.rows[p.source.value].resolvedBy.None?
    requires p.direction.Credit? && p.amount == d.rows[p.source.value].amount
    ensures var s := p.source.value;
            var rows' := AssignTx(d, s, p.wallet, PostingReference(id)).rows;
            && BecomesDoing(d.rows, rows', s, id)
            && CarriesOut(rows', p, id, s, rows'[s].balanceAfter)
  {
  }

  // Serving the call that approving a direct posting sends, where its reference
  // is not in use: if it is not refused, the wallet moves by the posting's amount
  // in its direction and the row answered carries the posting out.
  lemma ServedCallCarriesOut(pay: World, p: Posting, id: string, now: int, missed: bool)
    requires p.source.None? && p.amount > 0 && !ReferenceTaken(pay.db.rows, Manual, PostingReference(id))
    ensures Serve(pay, CallFor(p, id), now, missed).1.Refused? <==>
              p.wallet >= |pay.db.wallets| || (p.direction.Debit? && pay.db.wallets[p.wallet] < p.amount)
    ensures var r := Serve(pay, CallFor(p, id), now, missed);
            r.1.Applied? ==>
              && CarriesOut(r.0.db.rows, p, id, r.1.transactionId, r.1.balanceAfter)
              && r.0.db.rows[r.1.transactionId].createdAt == now
              && p.wallet < |pay.db.wallets|
              && r.0.db.wallets == pay.db.wallets[p.wallet :=
                   if p.direction.Credit? then pay.db.wallets[p.wallet] + p.amount
                   else pay.db.wallets[p.wallet] - p.amount]
  {
    var q := PostingRequest(p, id, now);
    if PostRefusal(pay.db, q).None? {
      NewPostIsDoing(pay.db, p, id, now);
      assert PostTx(pay.db, q).rows[|pay.db.rows|].reference == q.reference;
    }
  }

  // And that approving the assignment of a waiting deposit sends: the deposit's
  // own row becomes the customer's credit.
  lemma ServedCallAssigns(pay: World, p: Posting, id: string, now: int, missed: bool)
    requires p.source.Some? && p.source.value < |pay.db.rows| && p.direction.Credit?
    requires var t := pay.db.rows[p.source.value];
             && t.provider.Vfd? && t.direction.Credit? && t.status.Unmatched? && t.walletId.None?
             && t.resolvedBy.None? && t.amount == p.amount
    ensures Serve(pay, CallFor(p, id), now, missed).1.Refused? <==> p.wallet >= |pay.db.wallets|
    ensures var r := Serve(pay, CallFor(p, id), now, missed);
            r.1.Applied? ==>
              && r.1.transactionId == p.source.value
              && CarriesOut(r.0.db.rows, p, id, p.source.value, r.1.balanceAfter)
              && r.0.db.rows[p.source.value].resolvedBy == Some(PostingReference(id))
              && p.wallet < |pay.db.wallets|
              && r.0.db.wallets == pay.db.wallets[p.wallet := pay.db.wallets[p.wallet] + p.amount]
  {
    if AssignRefusal(pay.db, p.source.value, p.wallet).None? {
      NewAssignmentIsDoing(pay.db, p, id);
    }
  }

  predicate InFlight(o: Office, a: nat, id: string) {
    a in o.flights && o.flights[a].reply.None? && o.flights[a].posting == id && id in o.postings
  }

  lemma NewPostKeepsConsole(o: Office, a: nat, id: string, now: int)
    requires ConsoleOk(o) && InFlight(o, a, id) && o.postings[id].source.None?
    requires PostRefusal(o.pay.db, PostingRequest(o.postings[id], id, now)).None?
    requires !ReferenceTaken(o.pay.db.rows, Manual, PostingReference(id))
    ensures ConsoleOk(o.(pay := Apply(o.pay, Post(PostingRequest(o.postings[id], id, now)))))
    ensures ReferenceTaken(PostTx(o.pay.db, PostingRequest(o.postings[id], id, now)).rows, Manual,
                           PostingReference(id))
  {
    var q := PostingRequest(o.postings[id], id, now);
    assert PostingOk(o, id);
    NewPostIsDoing(o.pay.db, o.postings[id], id, now);
    ParkedOnlyGrows(o.pay, Post(q));
    DoingKeepsConsole(o, o.(pay := Apply(o.pay, Post(q))), a, |o.pay.db.rows|);
    assert PostTx(o.pay.db, q).rows[|o.pay.db.rows|].reference == PostingReference(id);
  }

  lemma AnsweredPost(o: Office, a: nat, id: string, t: nat)
    requires ConsoleOk(o) && InFlight(o, a, id) && t < |o.pay.db.rows|
    requires o.pay.db.rows[t].provider.Manual? && o.pay.db.rows[t].reference == PostingReference(id)
    ensures ConsoleOk(o.(flights := o.flights[a :=
                           o.flights[a].(reply := Some(Applied(t, o.pay.db.rows[t].balanceAfter)))]))
  {
    DoingCarriesOut(o.postings, o.pay.db.rows, t, id);
    AppliedKeepsConsole(o, a, t);
  }

  lemma DirectDeliveryKeepsConsole(o: Office, a: nat, id: string, now: int)
    requires ConsoleOk(o) && InFlight(o, a, id) && o.postings[id].source.None?
    ensures ConsoleOk(Act(o, Deliver(a, now)))
  {
    var q := PostingRequest(o.postings[id], id, now);
    assert PostingOk(o, id);
    var missed := o.flights[a].missed;
    if (if missed then RacingRefusal(o.pay.db, q) else PostRefusal(o.pay.db, q)).Some? {
      assert o.postings[id].direction.Debit?;
      RefusedKeepsConsole(o, a);
    } else {
      var o1 := o.(pay := Apply(o.pay, Post(q)));
      if ReferenceTaken(o.pay.db.rows, Manual, q.reference) {
        assert o1 == o;
      } else {
        NewPostKeepsConsole(o, a, id, now);
      }
      AnsweredPost(o1, a, id, RowOf(o1.pay.db.rows, q.reference));
    }
  }

  // The deposit a posting assigns is still waiting, or is already assigned.
  lemma SourceIsParked(o: Office, id: string)
    requires ConsoleOk(o) && ParkedOk(o.pay) && ShapesOk(o.pay.db.rows)
    requires id in o.postings && o.postings[id].source.Some?
    ensures var p := o.postings[id];
            var s := p.source.value;
            && s < |o.pay.db.rows| && o.pay.db.rows[s].provider.Vfd? && o.pay.db.rows[s].direction.Credit?
            && p.direction.Credit? && p.amount == o.pay.db.rows[s].amount
            && (o.pay.db.rows[s].status.Successful? <==> o.pay.db.rows[s].resolvedBy.Some?)
            && (AssignRefusal(o.pay.db, s, p.wallet).Some? ==> LostToAnother(o.pay.db.rows, p))
  {
    assert PostingOk(o, id);
    assert ShapeOk(o.pay.db.rows[o.postings[id].source.value]);
  }

  lemma NewAssignmentKeepsConsole(o: Office, a: nat, id: string)
    requires ConsoleOk(o) && ParkedOk(o.pay) && ShapesOk(o.pay.db.rows)
    requires InFlight(o, a, id) && o.postings[id].source.Some?
    requires AssignRefusal(o.pay.db, o.postings[id].source.value, o.postings[id].wallet).None?
    requires !AlreadyAssigned(o.pay.db, o.postings[id].source.value, o.postings[id].wallet)
    ensures var s := Assign(o.postings[id].source.value, o.postings[id].wallet, PostingReference(id));
            && ConsoleOk(o.(pay := Apply(o.pay, s)))
            && s.txn < |Apply(o.pay, s).db.rows|
            && CarriesOut(Apply(o.pay, s).db.rows, o.postings[id], id, s.txn,
                          Apply(o.pay, s).db.rows[s.txn].balanceAfter)
  {
    var s := Assign(o.postings[id].source.value, o.postings[id].wallet, PostingReference(id));
    SourceIsParked(o, id);
    NewAssignmentIsDoing(o.pay.db, o.postings[id], id);
    ParkedOnlyGrows(o.pay, s);
    DoingKeepsConsole(o, o.(pay := Apply(o.pay, s)), a, s.txn);
  }

  lemma SourcedDeliveryKeepsConsole(o: Office, a: nat, id: string, now: int)
    requires ConsoleOk(o) && ParkedOk(o.pay) && ShapesOk(o.pay.db.rows)
    requires InFlight(o, a, id) && o.postings[id].source.Some?
    ensures ConsoleOk(Act(o, Deliver(a, now)))
  {
    var p := o.postings[id];
    var s := p.source.value;
    SourceIsParked(o, id);
    if AssignRefusal(o.pay.db, s, p.wallet).Some? {
      RefusedKeepsConsole(o, a);
    } else {
      var o1 := o.(pay := Apply(o.pay, Assign(s, p.wallet, PostingReference(id))));
      if AlreadyAssigned(o.pay.db, s, p.wallet) {
        assert o1 == o;
      } else {
        NewAssignmentKeepsConsole(o, a, id);
      }
      AppliedKeepsConsole(o1, a, s);
    }
  }

  lemma HandleKeepsInv(pay: World, p: Posting, id: string, now: int, missed: bool)
    requires Inv(pay)
    ensures Inv(Handle(pay, p, id, now, missed).0)
  {
    if p.source.Some? {
      StepKeepsInv(pay, Assign(p.source.value, p.wallet, PostingReference(id)));
    } else {
      StepKeepsInv(pay, Post(PostingRequest(p, id, now)));
    }
  }

  lemma DeliveryKeepsInv(o: Office, a: nat, now: int)
    requires Inv(o.pay)
    ensures Inv(Act(o, Deliver(a, now)).pay)
  {
    Delivered(o, a, now);
    if Arrives(o, a) {
      HandleKeepsInv(o.pay, o.postings[o.flights[a].posting], o.flights[a].posting, now, o.flights[a].missed);
    }
  }

  // A call that has arrived.
  predicate Arrives(o: Office, a: nat) {
    a in o.flights && o.flights[a].reply.None? && o.flights[a].posting in o.postings
  }

  // What the service makes of it.
  function Handled(o: Office, a: nat, now: int): (World, Reply)
    requires Arrives(o, a)
  {
    Handle(o.pay, o.postings[o.flights[a].posting], o.flights[a].posting, now, o.flights[a].missed)
  }

  lemma Delivered(o: Office, a: nat, now: int)
    ensures Act(o, Deliver(a, now)) ==
            if Arrives(o, a)
            then o.(pay := Handled(o, a, now).0,
                    flights := o.flights[a := o.flights[a].(reply := Some(Handled(o, a, now).1))])
            else o
  {
  }

  lemma DeliveryKeepsConsole(o: Office, a: nat, now: int)
    requires ConsoleOk(o) && ParkedOk(o.pay) && ShapesOk(o.pay.db.rows)
    ensures ConsoleOk(Act(o, Deliver(a, now)))
  {
    if a in o.flights && o.flights[a].reply.None? && o.flights[a].posting in o.postings {
      if o.postings[o.flights[a].posting].source.None? {
        DirectDeliveryKeepsConsole(o, a, o.flights[a].posting, now);
      } else {
        SourcedDeliveryKeepsConsole(o, a, o.flights[a].posting, now);
      }
    }
  }

  lemma ActKeepsOffice(o: Office, s: OfficeStep)
    requires OfficeOk(o)
    ensures OfficeOk(Act(o, s))
  {
    match s
    case Pay(step) => if !step.Post? && !step.Assign? { PayKeepsOffice(o, step); }
    case Request(_, _, _, _, _, _) => RequestKeepsConsole(o, s);
    case Approve(_, _, _) => ApproveKeepsConsole(o, s);
    case Look(a) =>
      if CanLook(o, a) {
        assert FlightOk(o, o.flights[a]);
        ReplyKeepsConsole(o, a, o.flights[a].(missed := true));
      }
    case Deliver(a, now) => DeliveryKeepsInv(o, a, now); DeliveryKeepsConsole(o, a, now);
    case Lose(_) => LoseKeepsConsole(o, s);
    case Record(_) => RecordKeepsConsole(o, s);
    case Reject(id, staff) =>
      if CanClaim(o.postings, id) { ClaimKeepsConsole(o, id, REJECTED, staff); }
    case Cancel(id, staff) =>
      if CanClaim(o.postings, id) { ClaimKeepsConsole(o, id, CANCELLED, staff); }
  }

  // The joint invariant of the console and the payment service, over all runs.
  lemma {:induction false} RunsKeepOffice(opening: int, run: seq<OfficeStep>)
    ensures OfficeOk(Play(opening, run))
  {
    if |run| == 0 {
    } else {
      RunsKeepOffice(opening, run[..|run| - 1]);
      ActKeepsOffice(Play(opening, run[..|run| - 1]), run[|run| - 1]);
    }
  }
}
