// One posting whose calls are made one at a time: the next only once the one
// before has been answered or lost.
module Settled {
  import opened Prelude
  import opened Ledger
  import opened Machine
  import opened MakerChecker
  import opened Delivery

  // An approval of this posting starts only when no earlier call for it is out.
  predicate StartsSettled(o: Office, s: OfficeStep, id: string) {
    s.Approve? && s.id == id ==> forall a | a in o.flights :: o.flights[a].posting != id
  }

  predicate OneAtATime(opening: int, run: seq<OfficeStep>, id: string) {
    |run| == 0
    || (OneAtATime(opening, run[..|run| - 1], id)
        && StartsSettled(Play(opening, run[..|run| - 1]), run[|run| - 1], id))
  }

  // Its one call is out while it is PROCESSING; a refusal on its way back, or
  // recorded, is the truth, and so is a lookup that missed.
  predicate SettledOk(o: Office, id: string) {
    && (id in o.postings && o.postings[id].status.FAILED? ==> !WasApplied(o.pay.db.rows, id))
    && (forall a | a in o.flights && o.flights[a].posting == id ::
          && id in o.postings && o.postings[id].status.PROCESSING?
          && (o.flights[a].reply == Some(Refused) ==> !WasApplied(o.pay.db.rows, id))
          && (o.flights[a].reply.None? && o.flights[a].missed ==> !WasApplied(o.pay.db.rows, id)))
    && (forall a, b | a in o.flights && b in o.flights && a != b ::
          o.flights[a].posting != id || o.flights[b].posting != id)
  }

  // Steps that leave this posting and its calls as they were, or drop some.
  lemma UntouchedStaysSettled(o: Office, o': Office, id: string)
    requires SettledOk(o, id)
    requires id in o'.postings <==> id in o.postings
    requires id in o.postings ==> o'.postings[id] == o.postings[id]
    requires WasApplied(o'.pay.db.rows, id) <==> WasApplied(o.pay.db.rows, id)
    requires forall a | a in o'.flights && o'.flights[a].posting == id ::
               a in o.flights && o'.flights[a] == o.flights[a]
    ensures SettledOk(o', id)
  {
  }

  lemma PayStaysSettled(o: Office, s: Step, id: string)
    requires OfficeOk(o) && SettledOk(o, id) && !s.Post? && !s.Assign?
    ensures SettledOk(o.(pay := Apply(o.pay, s)), id)
  {
    PaySteps(o.pay, s);
    KeptRowsKeepDoings(o.pay.db.rows, Apply(o.pay, s).db.rows, id);
    UntouchedStaysSettled(o, o.(pay := Apply(o.pay, s)), id);
  }

  // Only a posting that was sent has calls out.
  lemma UnsentHasNoCalls(o: Office, id: string)
    requires ConsoleOk(o) && (id in o.postings ==> !WasSent(o.postings[id].status))
    ensures forall a | a in o.flights :: o.flights[a].posting != id
  {
    forall a | a in o.flights ensures o.flights[a].posting != id {
      assert FlightOk(o, o.flights[a]);
    }
  }

  lemma OwnLaunchStaysSettled(o: Office, o': Office, a: nat, id: string)
    requires SettledOk(o, id) && o'.pay == o.pay
    requires forall b | b in o.flights :: o.flights[b].posting != id
    requires o' == o || (o'.flights == o.flights[a := Sent(id)] && id in o'.postings
                         && o'.postings[id].status.PROCESSING?)
    ensures SettledOk(o', id)
  {
  }

  lemma ApproveStaysSettled(o: Office, s: OfficeStep, id: string)
    requires SettledOk(o, id) && s.Approve? && StartsSettled(o, s, id)
    ensures SettledOk(Act(o, s), id)
  {
    if s.id != id {
      UntouchedStaysSettled(o, Act(o, s), id);
    } else {
      OwnLaunchStaysSettled(o, Act(o, s), s.attempt, id);
    }
  }

  lemma RecordStaysSettled(o: Office, s: OfficeStep, id: string)
    requires SettledOk(o, id) && s.Record?
    ensures SettledOk(Act(o, s), id)
  {
  }

  lemma DecisionStaysSettled(o: Office, o': Office, id: string, k: string)
    requires ConsoleOk(o) && SettledOk(o, id)
    requires o'.pay == o.pay && o'.flights == o.flights
    requires k in o'.postings && o'.postings == o.postings[k := o'.postings[k]]
    requires k in o.postings ==> o.postings[k].status.PENDING?
    requires !o'.postings[k].status.FAILED?
    ensures SettledOk(o', id)
  {
    if k == id {
      UnsentHasNoCalls(o, id);
    } else {
      UntouchedStaysSettled(o, o', id);
    }
  }

  // A delivered call changes no row, or makes one its posting's doing.
  lemma DeliveryOfAnother(o: Office, a: nat, now: int, id: string)
    requires ConsoleOk(o) && ParkedOk(o.pay) && ShapesOk(o.pay.db.rows)
    requires Arrives(o, a) && o.flights[a].posting != id
    ensures WasApplied(Handled(o, a, now).0.db.rows, id) <==> WasApplied(o.pay.db.rows, id)
  {
    var k := o.flights[a].posting;
    var p := o.postings[k];
    assert PostingOk(o, k);
    if p.source.None? {
      DirectCallOfAnother(o.pay, p, k, now, o.flights[a].missed, id);
    } else {
      SourceIsParked(o, k);
      SourcedCallOfAnother(o.pay, p, k, now, o.flights[a].missed, id);
    }
  }

  lemma DirectCallOfAnother(pay: World, p: Posting, k: string, now: int, missed: bool, id: string)
    requires p.source.None? && p.amount > 0 && k != id
    ensures WasApplied(Handle(pay, p, k, now, missed).0.db.rows, id) <==> WasApplied(pay.db.rows, id)
  {
    var q := PostingRequest(p, k, now);
    if PostRefusal(pay.db, q).None? && !ReferenceTaken(pay.db.rows, Manual, q.reference) {
      NewPostIsDoing(pay.db, p, k, now);
      OtherDoingsStay(pay.db.rows, PostTx(pay.db, q).rows, |pay.db.rows|, k, id);
    }
  }

  lemma SourcedCallOfAnother(pay: World, p: Posting, k: string, now: int, missed: bool, id: string)
    requires p.source.Some? && p.source.value < |pay.db.rows| && k != id
    requires pay.db.rows[p.source.value].provider.Vfd? && p.direction.Credit?
    requires p.amount == pay.db.rows[p.source.value].amount
    requires pay.db.rows[p.source.value].status.Successful? <==> pay.db.rows[p.source.value].resolvedBy.Some?
    ensures WasApplied(Handle(pay, p, k, now, missed).0.db.rows, id) <==> WasApplied(pay.db.rows, id)
  {
    var s := p.source.value;
    if AssignRefusal(pay.db, s, p.wallet).None? && !AlreadyAssigned(pay.db, s, p.wallet) {
      NewAssignmentIsDoing(pay.db, p, k);
      OtherDoingsStay(pay.db.rows, AssignTx(pay.db, s, p.wallet, PostingReference(k)).rows, s, k, id);
    }
  }

  lemma UnappliedHasNoRow(rows: seq<Txn>, id: string)
    ensures !WasApplied(rows, id) ==> !ReferenceTaken(rows, Manual, PostingReference(id))
  {
    if ReferenceTaken(rows, Manual, PostingReference(id)) {
      var i :| 0 <= i < |rows| && rows[i].provider == Manual && rows[i].reference == PostingReference(id);
      assert IsDoingOf(rows[i], id);
    }
  }

  lemma LookStaysSettled(o: Office, a: nat, id: string)
    requires ConsoleOk(o) && SettledOk(o, id)
    ensures SettledOk(Act(o, Look(a)), id)
  {
    if CanLook(o, a) {
      if o.flights[a].posting == id {
        DirectWasApplied(o.postings, o.pay.db.rows, id);
      } else {
        UntouchedStaysSettled(o, Act(o, Look(a)), id);
      }
    }
  }

  // A refusal tells the truth when it is given.
  lemma RefusedWasNotApplied(o: Office, a: nat, now: int)
    requires ConsoleOk(o) && Arrives(o, a)
    requires o.flights[a].missed ==> !WasApplied(o.pay.db.rows, o.flights[a].posting)
    ensures Handled(o, a, now).1.Refused? ==>
              Handled(o, a, now).0 == o.pay && !WasApplied(o.pay.db.rows, o.flights[a].posting)
  {
    var id := o.flights[a].posting;
    var p := o.postings[id];
    assert PostingOk(o, id);
    if p.source.None? {
      UnappliedHasNoRow(o.pay.db.rows, id);
      DirectRefusal(o.pay, p, id, now, o.flights[a].missed);
      DirectWasApplied(o.postings, o.pay.db.rows, id);
    } else {
      SourcedRefusal(o.pay, p, id, now, o.flights[a].missed);
      SourcedWasApplied(o.postings, o.pay.db, id);
    }
  }

  lemma DirectRefusal(pay: World, p: Posting, id: string, now: int, missed: bool)
    requires p.source.None? && p.amount > 0
    requires missed ==> !ReferenceTaken(pay.db.rows, Manual, PostingReference(id))
    ensures Handle(pay, p, id, now, missed).1.Refused? ==>
              Handle(pay, p, id, now, missed).0 == pay && !ReferenceTaken(pay.db.rows, Manual, PostingReference(id))
  {
    var q := PostingRequest(p, id, now);
    if PostRefusal(pay.db, q).None? && !ReferenceTaken(pay.db.rows, Manual, q.reference) {
      var rows' := PostTx(pay.db, q).rows;
      assert rows'[|pay.db.rows|].provider == Manual && rows'[|pay.db.rows|].reference == q.reference;
    }
  }

  lemma SourcedRefusal(pay: World, p: Posting, id: string, now: int, missed: bool)
    requires p.source.Some?
    ensures Handle(pay, p, id, now, missed).1.Refused? ==>
              Handle(pay, p, id, now, missed).0 == pay && !AlreadyAssigned(pay.db, p.source.value, p.wallet)
  {
  }

  lemma OwnReplyStaysSettled(o: Office, o': Office, a: nat, id: string, reply: Reply)
    requires SettledOk(o, id) && a in o.flights && o.flights[a].posting == id
    requires o'.postings == o.postings && o'.flights == o.flights[a := o.flights[a].(reply := Some(reply))]
    requires reply.Refused? ==> o'.pay == o.pay && !WasApplied(o.pay.db.rows, id)
    ensures SettledOk(o', id)
  {
  }

  lemma DeliveryStaysSettled(o: Office, a: nat, now: int, id: string)
    requires ConsoleOk(o) && ParkedOk(o.pay) && ShapesOk(o.pay.db.rows) && SettledOk(o, id)
    ensures SettledOk(Act(o, Deliver(a, now)), id)
  {
    Delivered(o, a, now);
    if Arrives(o, a) {
      var o' := Act(o, Deliver(a, now));
      if o.flights[a].posting == id {
        RefusedWasNotApplied(o, a, now);
        OwnReplyStaysSettled(o, o', a, id, Handled(o, a, now).1);
      } else {
        DeliveryOfAnother(o, a, now, id);
        UntouchedStaysSettled(o, o', id);
      }
    }
  }

  lemma ActStaysSettled(o: Office, s: OfficeStep, id: string)
    requires OfficeOk(o) && SettledOk(o, id) && StartsSettled(o, s, id)
    ensures SettledOk(Act(o, s), id)
  {
    match s
    case Pay(step) => if !step.Post? && !step.Assign? { PayStaysSettled(o, step, id); }
    case Request(k, wallet, source, direction, amount, _) =>
      if MayRequest(o, k, wallet, source, direction, amount) { DecisionStaysSettled(o, Act(o, s), id, k); }
    case Approve(_, _, _) => ApproveStaysSettled(o, s, id);
    case Look(a) => LookStaysSettled(o, a, id);
    case Deliver(a, now) => DeliveryStaysSettled(o, a, now, id);
    case Lose(_) => UntouchedStaysSettled(o, Act(o, s), id);
    case Record(_) => RecordStaysSettled(o, s, id);
    case Reject(k, staff) =>
      if CanClaim(o.postings, k) && o.postings[k].requestedBy != staff { DecisionStaysSettled(o, Act(o, s), id, k); }
    case Cancel(k, staff) =>
      if CanClaim(o.postings, k) && o.postings[k].requestedBy == staff { DecisionStaysSettled(o, Act(o, s), id, k); }
  }

  // Only this posting's own calls need to be settled; any number of calls for
  // others may be out at once.
  lemma {:induction false} RunsStaySettled(opening: int, run: seq<OfficeStep>, id: string)
    requires OneAtATime(opening, run, id)
    ensures SettledOk(Play(opening, run), id)
  {
    if |run| == 0 {
    } else {
      RunsStaySettled(opening, run[..|run| - 1], id);
      RunsKeepOffice(opening, run[..|run| - 1]);
      ActStaysSettled(Play(opening, run[..|run| - 1]), run[|run| - 1], id);
    }
  }
}
