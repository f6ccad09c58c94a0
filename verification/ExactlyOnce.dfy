// However many calls for a posting are out at once, whatever replies are lost
// and however often the approver retries, it moves money once or not at all,
// and its final status says which, but for a FAILED debit whose calls overlap.
module ExactlyOnce {
  import opened Prelude
  import opened Machine
  import opened MakerChecker
  import opened Delivery
  import opened Settled

  lemma StaffRowsAreOneKind(o: Office, t: nat)
    requires OfficeOk(o) && t < |o.pay.db.rows|
    ensures !(o.pay.db.rows[t].provider.Manual? && o.pay.db.rows[t].resolvedBy.Some?)
  {
    assert ShapeOk(o.pay.db.rows[t]);
  }

  lemma DoingsCoincide(o: Office, id: string, t: nat, u: nat)
    requires OfficeOk(o) && t < |o.pay.db.rows| && u < |o.pay.db.rows|
    requires IsDoingOf(o.pay.db.rows[t], id) && IsDoingOf(o.pay.db.rows[u], id)
    ensures t == u && id in o.postings
    ensures CarriesOut(o.pay.db.rows, o.postings[id], id, t, o.pay.db.rows[t].balanceAfter)
  {
    DoingCarriesOut(o.postings, o.pay.db.rows, t, id);
    DoingCarriesOut(o.postings, o.pay.db.rows, u, id);
  }

  // In every run and whatever its status, at most one row is a posting's doing,
  // and that row is a posting the console knows, carried out to the letter.
  lemma MovedAtMostOnce(opening: int, run: seq<OfficeStep>, id: string, t: nat, u: nat)
    requires var rows := Play(opening, run).pay.db.rows;
             t < |rows| && u < |rows| && IsDoingOf(rows[t], id) && IsDoingOf(rows[u], id)
    ensures var o := Play(opening, run);
            && t == u && id in o.postings
            && CarriesOut(o.pay.db.rows, o.postings[id], id, t, o.pay.db.rows[t].balanceAfter)
  {
    RunsKeepOffice(opening, run);
    DoingsCoincide(Play(opening, run), id, t, u);
  }

  // A posting that is POSTED names the one row that carries it out, with the
  // wallet, the amount, the direction and the balance it recorded; no other
  // row is its doing.
  lemma PostedMovedMoneyOnce(opening: int, run: seq<OfficeStep>, id: string)
    requires id in Play(opening, run).postings && Play(opening, run).postings[id].status.POSTED?
    ensures var o := Play(opening, run);
            var p := o.postings[id];
            var rows := o.pay.db.rows;
            && p.transactionId.Some?
            && CarriesOut(rows, p, id, p.transactionId.value, p.balanceAfter)
            && (p.source.None? ==> IsDoingOf(rows[p.transactionId.value], id)
                                   && rows[p.transactionId.value].reference == "MAN-" + id)
            && (forall t: nat | t < |rows| && IsDoingOf(rows[t], id) :: t == p.transactionId.value)
  {
    RunsKeepOffice(opening, run);
    PostedIsCarriedOut(Play(opening, run), id);
  }

  lemma PostedIsCarriedOut(o: Office, id: string)
    requires OfficeOk(o) && id in o.postings && o.postings[id].status.POSTED?
    ensures var p := o.postings[id];
            var rows := o.pay.db.rows;
            && p.transactionId.Some?
            && CarriesOut(rows, p, id, p.transactionId.value, p.balanceAfter)
            && (p.source.None? ==> IsDoingOf(rows[p.transactionId.value], id)
                                   && rows[p.transactionId.value].reference == "MAN-" + id)
            && (forall t: nat | t < |rows| && IsDoingOf(rows[t], id) :: t == p.transactionId.value)
  {
    var p := o.postings[id];
    var rows := o.pay.db.rows;
    assert PostingOk(o, id);
    forall t: nat | t < |rows| && IsDoingOf(rows[t], id) ensures t == p.transactionId.value {
      DoingCarriesOut(o.postings, rows, t, id);
    }
  }

  lemma LostMovedNothing(o: Office, id: string)
    requires OfficeOk(o) && id in o.postings && LostToAnother(o.pay.db.rows, o.postings[id])
    ensures !WasApplied(o.pay.db.rows, id)
  {
    SourcedWasApplied(o.postings, o.pay.db, id);
  }

  // A FAILED credit: it would have assigned a deposit that is another
  // customer's, and stays so whatever happens.
  lemma FailedCreditLostItsDeposit(opening: int, run: seq<OfficeStep>, id: string)
    requires id in Play(opening, run).postings
    requires Play(opening, run).postings[id].status.FAILED? && Play(opening, run).postings[id].direction.Credit?
    ensures var o := Play(opening, run);
            LostToAnother(o.pay.db.rows, o.postings[id]) && !WasApplied(o.pay.db.rows, id)
  {
    RunsKeepOffice(opening, run);
    assert PostingOk(Play(opening, run), id);
    LostMovedNothing(Play(opening, run), id);
  }

  // One that is PENDING, REJECTED, CANCELLED or FAILED moved none; a FAILED
  // debit if its own calls were made one at a time.
  lemma UnpostedMovedNothing(opening: int, run: seq<OfficeStep>, id: string)
    requires id in Play(opening, run).postings
    requires var p := Play(opening, run).postings[id];
             && !p.status.POSTED? && !p.status.PROCESSING?
             && (p.status.FAILED? && p.direction.Debit? ==> OneAtATime(opening, run, id))
    ensures !WasApplied(Play(opening, run).pay.db.rows, id)
  {
    var p := Play(opening, run).postings[id];
    if p.status.FAILED? && p.direction.Debit? {
      RunsStaySettled(opening, run, id);
    } else if p.status.FAILED? {
      FailedCreditLostItsDeposit(opening, run, id);
    } else {
      RunsKeepOffice(opening, run);
      assert PostingOk(Play(opening, run), id);
    }
  }

  // And no staff money moves without a posting of exactly its terms that was
  // approved: it is POSTED, or PROCESSING with its reply lost or on the way, or
  // a FAILED debit whose calls overlapped.
  lemma StaffMoneyHasAPosting(opening: int, run: seq<OfficeStep>, t: nat)
    requires t < |Play(opening, run).pay.db.rows| && StaffRow(Play(opening, run).pay.db.rows[t])
    ensures var o := Play(opening, run);
            exists id | id in o.postings ::
              && IsDoingOf(o.pay.db.rows[t], id)
              && CarriesOut(o.pay.db.rows, o.postings[id], id, t, o.pay.db.rows[t].balanceAfter)
              && WasSent(o.postings[id].status)
              && (o.postings[id].status.FAILED? ==>
                    o.postings[id].direction.Debit? && !OneAtATime(opening, run, id))
  {
    RunsKeepOffice(opening, run);
    var o := Play(opening, run);
    var id := DoerOf(o, t);
    assert WasApplied(o.pay.db.rows, id);
    if !o.postings[id].status.POSTED? && !o.postings[id].status.PROCESSING?
       && (o.postings[id].status.FAILED? && o.postings[id].direction.Debit? ==> OneAtATime(opening, run, id)) {
      UnpostedMovedNothing(opening, run, id);
    }
  }

  lemma DoerOf(o: Office, t: nat) returns (id: string)
    requires OfficeOk(o) && t < |o.pay.db.rows| && StaffRow(o.pay.db.rows[t])
    ensures id in o.postings && IsDoingOf(o.pay.db.rows[t], id)
    ensures CarriesOut(o.pay.db.rows, o.postings[id], id, t, o.pay.db.rows[t].balanceAfter)
  {
    var rows := o.pay.db.rows;
    assert RowBacked(o.postings, rows, t);
    id :| id in o.postings && CarriesOut(rows, o.postings[id], id, t, rows[t].balanceAfter)
          && ((rows[t].provider.Manual? && rows[t].reference == PostingReference(id))
              || rows[t].resolvedBy == Some(PostingReference(id)));
  }

  // Two POSTED postings name one row exactly when they assign one deposit: a
  // second request for the same deposit and customer, made while the first was
  // going through, is answered as a replay.
  lemma PostedShareOnlyADeposit(opening: int, run: seq<OfficeStep>, a: string, b: string)
    requires a != b
    requires var o := Play(opening, run);
             && a in o.postings && b in o.postings
             && o.postings[a].status.POSTED? && o.postings[b].status.POSTED?
    ensures var p := Play(opening, run).postings[a];
            var q := Play(opening, run).postings[b];
            p.transactionId == q.transactionId <==> p.source.Some? && p.source == q.source
  {
    RunsKeepOffice(opening, run);
    var o := Play(opening, run);
    assert PostingOk(o, a) && PostingOk(o, b);
    PostingReferenceIsInjective(a, b);
    StaffRowsAreOneKind(o, o.postings[a].transactionId.value);
  }
}
