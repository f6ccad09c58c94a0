// The console's side of a manual posting, method by method. Each call is cut
// where it waits: `loaded` is the row as an earlier, unlocked read saw it.
module AdminPostings {
  import opened Prelude
  import opened Ledger
  import opened MakerChecker

  datatype ConsoleError = NotFound | Forbidden | Conflict | BadRequest | Unconfirmed

  datatype Holder = Holder(closed: bool, wallet: Option<nat>, balance: int)

  predicate AwaitsAssignment(t: Txn) {
    t.direction.Credit? && t.status.Unmatched? && t.walletId.None?
  }

  // A read of the row some time before now: who asked for what never changes,
  // and a posting that has been decided keeps its decider.
  predicate EarlierRead(loaded: Option<Posting>, postings: map<string, Posting>, id: string) {
    && (loaded.Some? ==>
          && id in postings && SameTerms(loaded.value, postings[id])
          && loaded.value.requestedBy == postings[id].requestedBy
          && (!loaded.value.status.PENDING? ==>
                !postings[id].status.PENDING? && postings[id].decidedBy == loaded.value.decidedBy))
  }

  class PostingsService {
    var postings: map<string, Posting>

    constructor ()
      ensures postings == map[]
    {
      postings := map[];
    }

    // A posting for a deposit takes direction and amount from the deposit,
    // never from the form, and only one may be open for it.
    method Request(id: string, holder: Holder, source: Option<nat>, deposit: Option<Txn>,
                   direction: Direction, amount: int, staff: nat)
      returns (r: Result<Posting, ConsoleError>)
      requires id !in postings
      modifies this
      ensures r.Success? ==>
                var p := r.value;
                && postings == old(postings)[id := p]
                && p.amount > 0 && !holder.closed && holder.wallet.Some?
                && p == Posting(holder.wallet.value, source, p.direction, p.amount, PENDING, staff, None, None, None)
                && (source.None? ==> p.direction == direction && p.amount == amount)
                && (source.Some? ==> deposit.Some? && AwaitsAssignment(deposit.value)
                                     && p.direction.Credit? && p.amount == deposit.value.amount
                                     && !SourceOpen(old(postings), source.value))
                && (p.direction.Debit? ==> holder.balance >= p.amount)
      ensures r.Failure? ==> postings == old(postings)
      ensures r == Failure(Conflict) ==> source.Some? && SourceOpen(old(postings), source.value)
      ensures !holder.closed && holder.wallet.Some? && source.None? ==>
                (r.Success? <==> amount > 0 && (direction.Debit? ==> holder.balance >= amount))
      ensures !holder.closed && holder.wallet.Some? && source.Some? ==>
                (r.Success? <==> deposit.Some? && AwaitsAssignment(deposit.value) && deposit.value.amount > 0
                                 && !SourceOpen(old(postings), source.value))
    {
      if holder.closed || holder.wallet.None? {
        return Failure(BadRequest);
      }
      var kind, worth := direction, amount;
      if source.Some? {
        if deposit.None? {
          return Failure(NotFound);
        }
        if !AwaitsAssignment(deposit.value) {
          return Failure(BadRequest);
        }
        kind, worth := Credit, deposit.value.amount;
        if SourceOpen(postings, source.value) {
          return Failure(Conflict);
        }
      }
      if worth <= 0 {
        return Failure(BadRequest);
      }
      if kind.Debit? && holder.balance < worth {
        return Failure(BadRequest);
      }
      var p := Posting(holder.wallet.value, source, kind, worth, PENDING, staff, None, None, None);
      postings := postings[id := p];
      return Success(p);
    }

    // One conditional UPDATE: true for exactly one caller.
    method Claim(id: string, to: PostingStatus, staff: nat) returns (won: bool)
      modifies this
      ensures won <==> CanClaim(old(postings), id)
      ensures postings == if won then Claimed(old(postings), id, to, staff) else old(postings)
    {
      won := id in postings && postings[id].status.PENDING?;
      if won {
        postings := postings[id := postings[id].(status := to, decidedBy := Some(staff))];
      }
    }

    // Up to the call. It goes out only for a posting someone else requested,
    // and only from the one who claimed it.
    method BeginApproval(id: string, loaded: Option<Posting>, staff: nat) returns (r: Result<Call, ConsoleError>)
      requires EarlierRead(loaded, postings, id)
      modifies this
      ensures r.Success? ==>
                && id in postings && r.value == CallFor(postings[id], id)
                && postings[id].requestedBy != staff && postings[id].decidedBy == Some(staff)
                && !postings[id].status.PENDING?
      ensures postings == if r.Success? && CanClaim(old(postings), id)
                          then Claimed(old(postings), id, PROCESSING, staff) else old(postings)
      ensures loaded.Some? && loaded.value.status.PENDING? && loaded.value.requestedBy != staff ==>
                (r.Success? <==> CanClaim(old(postings), id))
      ensures loaded.Some? && !loaded.value.status.PENDING? && loaded.value.requestedBy != staff ==>
                (r.Success? <==> loaded.value.status.PROCESSING? && loaded.value.decidedBy == Some(staff))
      ensures r.Failure? ==> r.error == if loaded.None? then NotFound
                                        else if loaded.value.requestedBy == staff then Forbidden
                                        else Conflict
    {
      if loaded.None? {
        return Failure(NotFound);
      }
      var p := loaded.value;
      if p.requestedBy == staff {
        return Failure(Forbidden);
      }
      if p.status.PENDING? {
        var won := Claim(id, PROCESSING, staff);
        if !won {
          return Failure(Conflict);
        }
      } else if !(p.status.PROCESSING? && p.decidedBy == Some(staff)) {
        return Failure(Conflict);
      }
      return Success(CallFor(p, id));
    }

    // Behind the call. No answer leaves the row as it is.
    method FinishApproval(id: string, reply: Option<Reply>) returns (r: Result<Posting, ConsoleError>)
      requires id in postings
      modifies this
      ensures postings == if reply.Some? then AfterReply(old(postings), id, reply.value) else old(postings)
      ensures r == match reply
                   case None => Failure(Unconfirmed)
                   case Some(Refused) => Failure(BadRequest)
                   case Some(Applied(_, _)) => Success(postings[id])
    {
      match reply
      case Some(Applied(t, b)) =>
        postings := postings[id := postings[id].(status := POSTED, transactionId := Some(t), balanceAfter := b)];
        r := Success(postings[id]);
      case Some(Refused) =>
        postings := postings[id := postings[id].(status := FAILED)];
        r := Failure(BadRequest);
      case None =>
        r := Failure(Unconfirmed);
    }

    method Reject(id: string, loaded: Option<Posting>, staff: nat) returns (r: Result<Posting, ConsoleError>)
      requires EarlierRead(loaded, postings, id)
      modifies this
      ensures r.Success? <==> loaded.Some? && CanClaim(old(postings), id) && old(postings)[id].requestedBy != staff
      ensures r.Success? ==> postings == Claimed(old(postings), id, REJECTED, staff) && r.value == postings[id]
      ensures r.Failure? ==> postings == old(postings)
    {
      if loaded.None? {
        return Failure(NotFound);
      }
      if loaded.value.requestedBy == staff {
        return Failure(Forbidden);
      }
      var won := Claim(id, REJECTED, staff);
      if !won {
        return Failure(Conflict);
      }
      return Success(postings[id]);
    }

    method Cancel(id: string, loaded: Option<Posting>, staff: nat) returns (r: Result<Posting, ConsoleError>)
      requires EarlierRead(loaded, postings, id)
      modifies this
      ensures r.Success? <==> loaded.Some? && CanClaim(old(postings), id) && old(postings)[id].requestedBy == staff
      ensures r.Success? ==> postings == Claimed(old(postings), id, CANCELLED, staff) && r.value == postings[id]
      ensures r.Failure? ==> postings == old(postings)
    {
      if loaded.None? {
        return Failure(NotFound);
      }
      if loaded.value.requestedBy != staff {
        return Failure(Forbidden);
      }
      var won := Claim(id, CANCELLED, staff);
      if !won {
        return Failure(Conflict);
      }
      return Success(postings[id]);
    }
  }
}
