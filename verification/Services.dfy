// The services that write the ledger, statement by statement. Each method is
// one database transaction (or one unlocked write) and is proved to leave the
// database as the transaction of the same name in Ledger says, so the runs of
// Machine are runs of these methods.
module Services {
  import opened Prelude
  import opened Charges
  import opened Ledger
  import opened Machine
  import opened Inward

  class Database {
    var wallets: seq<int>
    var rows: seq<Txn>
    var freePayouts: bool
    ghost var journal: seq<Entry>

    constructor ()
      ensures State() == Start(0).db
    {
      wallets, rows, freePayouts, journal := [], [], true, [];
    }

    ghost function State(): Db
      reads this
    {
      Db(wallets, rows, journal, freePayouts)
    }

    // Inserts a row that moved its wallet to `balance`. The unique index on
    // (provider, reference) refuses a second row.
    method InsertMoved(row: Txn, balance: int) returns (r: Result<nat, LedgerError>)
      requires row.walletId.Some?
      modifies this`rows, this`journal
      ensures ReferenceTaken(old(rows), row.provider, row.reference) ==>
                r == Failure(DuplicateReference) && rows == old(rows) && journal == old(journal)
      ensures !ReferenceTaken(old(rows), row.provider, row.reference) ==>
                && r == Success(|old(rows)|)
                && rows == old(rows) + [row.(balanceAfter := Some(balance))]
                && journal == old(journal) + [Entry(row.walletId.value, |old(rows)|, Effect(row), balance)]
    {
      if ReferenceTaken(rows, row.provider, row.reference) {
        return Failure(DuplicateReference);
      }
      r := Success(|rows|);
      journal := journal + [Entry(row.walletId.value, |rows|, Effect(row), balance)];
      rows := rows + [row.(balanceAfter := Some(balance))];
    }
  }

  class WalletsService {
    const db: Database

    constructor (db: Database)
      ensures this.db == db
    {
      this.db := db;
    }

    method CreditForUpdate(walletId: nat, amount: int) returns (r: Result<int, LedgerError>)
      modifies db`wallets
      ensures walletId >= |old(db.wallets)| ==>
                r == Failure(WalletNotFound) && db.wallets == old(db.wallets)
      ensures walletId < |old(db.wallets)| ==>
                && r == Success(old(db.wallets)[walletId] + amount)
                && db.wallets == old(db.wallets)[walletId := old(db.wallets)[walletId] + amount]
    {
      if walletId >= |db.wallets| {
        return Failure(WalletNotFound);
      }
      var newBalance := db.wallets[walletId] + amount;
      db.wallets := db.wallets[walletId := newBalance];
      r := Success(newBalance);
    }

    method DebitForUpdate(walletId: nat, amount: int) returns (r: Result<int, LedgerError>)
      modifies db`wallets
      ensures r.Failure? ==> db.wallets == old(db.wallets)
      ensures walletId >= |old(db.wallets)| ==> r == Failure(WalletNotFound)
      ensures walletId < |old(db.wallets)| ==>
                if old(db.wallets)[walletId] < amount then r == Failure(InsufficientBalance)
                else && r == Success(old(db.wallets)[walletId] - amount)
                     && db.wallets == old(db.wallets)[walletId := old(db.wallets)[walletId] - amount]
    {
      if walletId >= |db.wallets| {
        return Failure(WalletNotFound);
      }
      var currentBalance := db.wallets[walletId];
      if currentBalance < amount {
        return Failure(InsufficientBalance);
      }
      db.wallets := db.wallets[walletId := currentBalance - amount];
      r := Success(currentBalance - amount);
    }
  }

  datatype SyncOutcome = NotFound | AlreadyFinal | SyncSuccessful | SyncFailed | SyncHold | Unresolved

  class PayoutsService {
    const db: Database
    const wallets: WalletsService

    constructor (db: Database, wallets: WalletsService)
      requires wallets.db == db
      ensures this.db == db && this.wallets == wallets && Valid()
    {
      this.db := db;
      this.wallets := wallets;
    }

    predicate Valid() { wallets.db == db }

    method ChargesFor(walletId: nat, amount: int, clock: int) returns (c: Charge)
      requires Valid()
      ensures c == PayoutCharges(db.State(), walletId, amount, clock)
      ensures c.total >= 0
    {
      ChargeSplits(true, amount);
      ChargeSplits(false, amount);
      if db.freePayouts {
        var used := UsedSlots(db.rows, walletId, StartOfLagosDay(clock));
        if used < FREE_PAYOUTS_PER_DAY {
          return ChargeFor(0, amount);
        }
      }
      return ChargeFor(CalculateTransferFee(amount), amount);
    }

    // What is left of the limit is never shown below zero, and refusing on the
    // clamped figure still refuses exactly what would overrun the window.
    method AssertWithinTransferLimit(walletId: nat, amount: int, limit: Option<Limit>)
      returns (ok: bool, remaining: int)
      requires Valid() && amount > 0
      ensures ok <==> !OverDeviceLimit(db.State(), walletId, amount, limit)
      ensures remaining >= 0
      ensures limit.Some? && remaining > 0 ==>
                remaining == limit.value.amount - OutflowSince(db.rows, walletId, limit.value.since)
    {
      if limit.None? {
        return true, 0;
      }
      var used := OutflowSince(db.rows, walletId, limit.value.since);
      remaining := Max(limit.value.amount - used, 0);
      ok := amount <= remaining;
    }

    method CheckCaps(walletId: nat, amount: int, caps: Option<Caps>, enforce: bool, clock: int)
      returns (ok: bool)
      requires Valid() && amount > 0
      ensures ok <==> !OverCaps(db.State(), walletId, amount, caps, enforce, clock)
    {
      if caps.None? || !enforce {
        return true;
      }
      if caps.value.perTransfer.Some? && amount > caps.value.perTransfer.value {
        return false;
      }
      if caps.value.daily.None? {
        return true;
      }
      var used := OutflowSince(db.rows, walletId, StartOfLagosDay(clock));
      var remaining := Max(caps.value.daily.value - used, 0);
      ok := amount <= remaining;
    }

    // The amount is debited first, which locks the wallet row; the charges are
    // read and debited under that lock, and the limits checked; a refusal at any
    // point undoes it all. The charges, and the balance they leave.
    method HoldForPayout(q: PayoutRequest) returns (r: Result<(Charge, int), LedgerError>)
      requires Valid()
      modifies db`wallets
      ensures var d := old(db.State());
              if r.Failure?
              then db.wallets == old(db.wallets) && PayoutRefusal(d, q) == Some(r.error)
              else && (PayoutRefusal(d, q).None? || PayoutRefusal(d, q) == Some(DuplicateReference))
                   && q.wallet < |d.wallets| && r.value.0 == PayoutCharges(d, q.wallet, q.amount, q.clock)
                   && r.value.1 == d.wallets[q.wallet] - q.amount - r.value.0.total
                   && db.wallets == d.wallets[q.wallet := r.value.1]
    {
      if q.amount <= 0 {
        return Failure(BadAmount);
      }
      var before := db.wallets;
      var debited := wallets.DebitForUpdate(q.wallet, q.amount);
      if debited.Failure? {
        PayoutNeedsAmount(old(db.State()), q);
        return Failure(debited.error);
      }
      var charges := ChargesFor(q.wallet, q.amount, q.clock);
      debited := wallets.DebitForUpdate(q.wallet, charges.total);
      if debited.Failure? {
        db.wallets := before;
        return Failure(debited.error);
      }
      var within, _ := AssertWithinTransferLimit(q.wallet, q.amount, q.limit);
      if !within {
        db.wallets := before;
        return Failure(NewDeviceLimit);
      }
      var allowed := CheckCaps(q.wallet, q.amount, q.caps, q.enforce, q.clock);
      if !allowed {
        db.wallets := before;
        return Failure(TransferLimit);
      }
      r := Success((charges, debited.value));
    }

    method InitiatePayout(q: PayoutRequest) returns (r: Result<nat, LedgerError>)
      requires Valid()
      modifies db
      ensures db.State() == PayoutTx(old(db.State()), q)
      ensures var refusal := PayoutRefusal(old(db.State()), q);
              r == if refusal.Some? then Failure(refusal.value) else Success(|old(db.rows)|)
    {
      var before := db.wallets;
      var held := HoldForPayout(q);
      if held.Failure? {
        return Failure(held.error);
      }
      var charges := held.value.0;
      var row := Txn(Some(q.wallet), Debit, Payout, Processing, Vfd, q.amount, charges.total, charges.vat,
                     charges.stampDuty, None, q.reference, None, q.createdAt);
      r := db.InsertMoved(row, held.value.1);
      if r.Failure? {
        db.wallets := before;
      }
    }

    // A wallet that cannot cover the amount cannot cover amount and charges.
    lemma PayoutNeedsAmount(d: Db, q: PayoutRequest)
      requires q.amount > 0 && q.wallet < |d.wallets| ==> d.wallets[q.wallet] < q.amount
      ensures q.amount > 0 && q.wallet < |d.wallets| ==> PayoutRefusal(d, q) == Some(InsufficientBalance)
    {
      ChargeSplits(FreeSlotOpen(d, q.wallet, q.clock), q.amount);
    }

    // `seen` is the status found by the unlocked read the transaction starts
    // with; the row may have changed since.
    method ReverseFailedPayout(i: nat, seen: Status, now: int) returns (r: Result<bool, LedgerError>)
      requires Valid()
      modifies db
      ensures db.State() == if IsTerminal(seen) then old(db.State()) else RefundTx(old(db.State()), i, now)
      ensures r == if i >= |old(db.rows)| || IsTerminal(seen) then Success(false)
                   else if RefundRefusal(old(db.State()), i).Some?
                   then Failure(RefundRefusal(old(db.State()), i).value)
                   else Success(true)
    {
      if i >= |db.rows| || IsTerminal(seen) {
        return Success(false);
      }
      var before := db.wallets;
      var t := db.rows[i];
      if t.walletId.None? {
        return Failure(WalletNotFound);
      }
      var refund := t.amount + t.fee;
      var credited := wallets.CreditForUpdate(t.walletId.value, refund);
      if credited.Failure? {
        return Failure(credited.error);
      }
      var rowsBefore := db.rows;
      db.rows := db.rows[i := t.(status := Failed)];
      var reversal := Txn(t.walletId, Credit, Reversal, Successful, t.provider, refund, 0, 0, 0,
                          None, "REV-" + t.reference, None, now);
      assert ReferenceTaken(db.rows, t.provider, reversal.reference)
        <==> ReferenceTaken(rowsBefore, t.provider, reversal.reference) by {
        assert forall k | 0 <= k < |db.rows| ::
          db.rows[k].provider == rowsBefore[k].provider && db.rows[k].reference == rowsBefore[k].reference;
      }
      var inserted := db.InsertMoved(reversal, credited.value);
      if inserted.Failure? {
        db.rows := rowsBefore;
        db.wallets := before;
        return Failure(DuplicateReference);
      }
      r := Success(true);
    }

    // The row's status is written only for an answer that settles it. `seen` is
    // what a reversal reads first; a reversal that is refused is thrown on.
    method ApplyTransferResult(i: nat, outcome: Outcome, seen: Status, now: int)
      returns (queued: Result<bool, LedgerError>)
      requires Valid() && i < |db.rows|
      modifies db
      ensures queued == if outcome.Rejected? && !IsTerminal(seen) && RefundRefusal(old(db.State()), i).Some?
                        then Failure(RefundRefusal(old(db.State()), i).value)
                        else Success(outcome.Requery?)
      ensures db.State() == match outcome {
                case Succeeded => SetStatus(old(db.State()), i, Successful)
                case Rejected => if IsTerminal(seen) then old(db.State()) else RefundTx(old(db.State()), i, now)
                case _ => old(db.State())
              }
    {
      queued := Success(false);
      if outcome.Succeeded? {
        db.rows := db.rows[i := db.rows[i].(status := Successful)];
      } else if outcome.Rejected? {
        var reversed := ReverseFailedPayout(i, seen, now);
        if reversed.Failure? {
          return Failure(reversed.error);
        }
      } else if outcome.Requery? {
        queued := Success(true);
      }
    }

    // Re-query: `found` is the row as read before the provider was asked.
    method SyncPayoutStatus(i: nat, found: Option<Txn>, outcome: Outcome, seen: Status, now: int)
      returns (r: Result<SyncOutcome, LedgerError>)
      requires Valid() && (found.Some? ==> i < |db.rows|)
      modifies db
      ensures db.State() ==
                if found.None? || IsTerminal(found.value.status) || outcome.Hold? || outcome.Requery?
                   || (outcome.Rejected? && IsTerminal(seen))
                then old(db.State())
                else if outcome.Succeeded? then SetStatus(old(db.State()), i, Successful)
                else RefundTx(old(db.State()), i, now)
      ensures r == if found.None? then Success(NotFound)
                   else if IsTerminal(found.value.status) then Success(AlreadyFinal)
                   else match outcome {
                     case Succeeded => Success(SyncSuccessful)
                     case Rejected =>
                       if !IsTerminal(seen) && RefundRefusal(old(db.State()), i).Some?
                       then Failure(RefundRefusal(old(db.State()), i).value)
                       else Success(SyncFailed)
                     case Hold => Success(SyncHold)
                     case Requery => Success(Unresolved)
                   }
    {
      if found.None? {
        return Success(NotFound);
      }
      if IsTerminal(found.value.status) {
        return Success(AlreadyFinal);
      }
      if outcome.Succeeded? {
        db.rows := db.rows[i := db.rows[i].(status := Successful)];
        return Success(SyncSuccessful);
      }
      if outcome.Rejected? {
        var reversed := ReverseFailedPayout(i, seen, now);
        if reversed.Failure? {
          return Failure(reversed.error);
        }
        return Success(SyncFailed);
      }
      if outcome.Hold? {
        return Success(SyncHold);
      }
      return Success(Unresolved);
    }
  }

  class BillsService {
    const db: Database
    const wallets: WalletsService
    const payouts: PayoutsService

    constructor (db: Database, wallets: WalletsService, payouts: PayoutsService)
      requires wallets.db == db && payouts.db == db && payouts.Valid()
      ensures this.db == db && Valid()
    {
      this.db := db;
      this.wallets := wallets;
      this.payouts := payouts;
    }

    predicate Valid() { wallets.db == db && payouts.db == db && payouts.Valid() }

    // Amount and fee are debited together, then the shared caps are checked
    // against the amount alone.
    method PayBill(q: BillRequest) returns (r: Result<nat, LedgerError>)
      requires Valid()
      modifies db
      ensures db.State() == BillTx(old(db.State()), q)
      ensures var refusal := BillRefusal(old(db.State()), q);
              r == if refusal.Some? then Failure(refusal.value) else Success(|old(db.rows)|)
    {
      if q.amount <= 0 {
        return Failure(BadAmount);
      }
      var before := db.wallets;
      var fee := CalculateBillFee(q.bill, q.convenienceFee, q.serviceFee);
      var debited := wallets.DebitForUpdate(q.wallet, q.amount + fee);
      if debited.Failure? {
        return Failure(debited.error);
      }
      var allowed := payouts.CheckCaps(q.wallet, q.amount, q.caps, q.enforce, q.clock);
      if !allowed {
        db.wallets := before;
        return Failure(TransferLimit);
      }
      var row := Txn(Some(q.wallet), Debit, BillPayment, Processing, Vfd, q.amount, fee, 0, 0,
                     None, q.reference, None, q.createdAt);
      r := db.InsertMoved(row, debited.value);
      if r.Failure? {
        db.wallets := before;
      }
    }

    method ReverseFailedBill(i: nat, seen: Status, now: int) returns (r: Result<bool, LedgerError>)
      requires Valid()
      modifies db
      ensures db.State() == if IsTerminal(seen) then old(db.State()) else RefundTx(old(db.State()), i, now)
      ensures r == if i >= |old(db.rows)| || IsTerminal(seen) then Success(false)
                   else if RefundRefusal(old(db.State()), i).Some?
                   then Failure(RefundRefusal(old(db.State()), i).value)
                   else Success(true)
    {
      if i >= |db.rows| || IsTerminal(seen) {
        return Success(false);
      }
      var before := db.wallets;
      var t := db.rows[i];
      if t.walletId.None? {
        return Failure(WalletNotFound);
      }
      var credited := wallets.CreditForUpdate(t.walletId.value, t.amount + t.fee);
      if credited.Failure? {
        return Failure(credited.error);
      }
      var rowsBefore := db.rows;
      db.rows := db.rows[i := t.(status := Failed)];
      var reversal := Txn(t.walletId, Credit, Reversal, Successful, t.provider, t.amount + t.fee, 0, 0, 0,
                          None, "REV-" + t.reference, None, now);
      assert ReferenceTaken(db.rows, t.provider, reversal.reference)
        <==> ReferenceTaken(rowsBefore, t.provider, reversal.reference) by {
        assert forall k | 0 <= k < |db.rows| ::
          db.rows[k].provider == rowsBefore[k].provider && db.rows[k].reference == rowsBefore[k].reference;
      }
      var inserted := db.InsertMoved(reversal, credited.value);
      if inserted.Failure? {
        db.rows := rowsBefore;
        db.wallets := before;
        return Failure(DuplicateReference);
      }
      r := Success(true);
    }

    // The answer to the payment itself. A success is asked about once more for
    // the bill's token, which never changes the outcome.
    method ApplyResult(i: nat, initial: Outcome, seen: Status, now: int)
      returns (queued: Result<bool, LedgerError>)
      requires Valid() && i < |db.rows| && !initial.Hold?
      modifies db
      ensures queued == if initial.Rejected? && !IsTerminal(seen) && RefundRefusal(old(db.State()), i).Some?
                        then Failure(RefundRefusal(old(db.State()), i).value)
                        else Success(initial.Requery?)
      ensures db.State() == match initial {
                case Succeeded => SetStatus(old(db.State()), i, Successful)
                case Rejected => if IsTerminal(seen) then old(db.State()) else RefundTx(old(db.State()), i, now)
                case _ => old(db.State())
              }
    {
      queued := Success(false);
      if initial.Succeeded? {
        MarkSuccessful(i);
      } else if initial.Rejected? {
        var reversed := ReverseFailedBill(i, seen, now);
        if reversed.Failure? {
          return Failure(reversed.error);
        }
      } else {
        queued := Success(true);
      }
    }

    method MarkSuccessful(i: nat)
      requires Valid() && i < |db.rows|
      modifies db`rows
      ensures db.State() == SetStatus(old(db.State()), i, Successful)
    {
      db.rows := db.rows[i := db.rows[i].(status := Successful)];
    }

    // The bills provider knows no HOLD.
    method SyncBillStatus(i: nat, found: Option<Txn>, outcome: Outcome, seen: Status, now: int)
      returns (r: Result<SyncOutcome, LedgerError>)
      requires Valid() && (found.Some? ==> i < |db.rows|) && !outcome.Hold?
      modifies db
      ensures db.State() ==
                if found.None? || !found.value.kind.BillPayment? || IsTerminal(found.value.status)
                   || outcome.Requery? || (outcome.Rejected? && IsTerminal(seen))
                then old(db.State())
                else if outcome.Succeeded? then SetStatus(old(db.State()), i, Successful)
                else RefundTx(old(db.State()), i, now)
      ensures r == if found.None? || !found.value.kind.BillPayment? then Success(NotFound)
                   else if IsTerminal(found.value.status) then Success(AlreadyFinal)
                   else if outcome.Succeeded? then Success(SyncSuccessful)
                   else if outcome.Requery? then Success(Unresolved)
                   else if !IsTerminal(seen) && RefundRefusal(old(db.State()), i).Some?
                   then Failure(RefundRefusal(old(db.State()), i).value)
                   else Success(SyncFailed)
    {
      if found.None? || !found.value.kind.BillPayment? {
        return Success(NotFound);
      }
      if IsTerminal(found.value.status) {
        return Success(AlreadyFinal);
      }
      if outcome.Succeeded? {
        MarkSuccessful(i);
        return Success(SyncSuccessful);
      }
      if outcome.Rejected? {
        var reversed := ReverseFailedBill(i, seen, now);
        if reversed.Failure? {
          return Failure(reversed.error);
        }
        return Success(SyncFailed);
      }
      return Success(Unresolved);
    }
  }

  class TransactionsService {
    const db: Database

    constructor (db: Database)
      ensures this.db == db
    {
      this.db := db;
    }

    // Insert-or-ignore; the id of the new row, if there is one, and whether a
    // credit job is queued for it.
    method RecordPayin(address: Option<nat>, amount: nat, reference: string, sessionTaken: bool, now: int)
      returns (id: Option<nat>, queued: bool)
      modifies db`rows
      ensures var wallet := if address.Some? && address.value < |db.wallets| then address else None;
              && db.State() == PayinTx(old(db.State()), wallet, amount, reference, sessionTaken, now)
              && (id.None? <==> PayinIgnored(old(db.State()), reference, sessionTaken))
              && (id.Some? ==> id == Some(|old(db.rows)|))
              && (queued <==> id.Some? && wallet.Some?)
    {
      var wallet := if address.Some? && address.value < |db.wallets| then address else None;
      if sessionTaken || ReferenceTaken(db.rows, Vfd, reference) {
        return None, false;
      }
      id := Some(|db.rows|);
      db.rows := db.rows + [Txn(wallet, Credit, Deposit, if wallet.Some? then Pending else Unmatched, Vfd,
                                amount, 0, 0, 0, None, reference, None, now)];
      queued := wallet.Some?;
    }
  }

  // How an attempt of a job ended: it returned, it threw, or its process died.
  datatype Attempt = Finished | Raised | Died

  class TransactionsProcessor {
    const db: Database
    const wallets: WalletsService

    constructor (db: Database, wallets: WalletsService)
      requires wallets.db == db
      ensures this.db == db && this.wallets == wallets
    {
      this.db := db;
      this.wallets := wallets;
    }

    // One attempt of the credit job, which lives to make `writes` of its two
    // writes: the mark, and the credit with its SUCCESSFUL in one transaction. A
    // final row is left alone, so a job that comes back after its commit does
    // nothing.
    method Run(i: nat, writes: nat) returns (end: Attempt)
      requires wallets.db == db
      modifies db
      ensures i >= |old(db.rows)| || IsTerminal(old(db.rows)[i].status) ==>
                end.Finished? && db.State() == old(db.State())
      ensures i < |old(db.rows)| && !IsTerminal(old(db.rows)[i].status) && old(db.rows)[i].direction.Debit? ==>
                end.Raised? && db.State() == old(db.State())
      ensures i < |old(db.rows)| && !IsTerminal(old(db.rows)[i].status) && old(db.rows)[i].direction.Credit? ==>
                var t := old(db.rows)[i];
                var payable := t.walletId.Some? && t.walletId.value < |old(db.wallets)|;
                if writes == 0 then end.Died? && db.State() == old(db.State())
                else if !payable then end.Raised? && db.State() == SetStatus(old(db.State()), i, Processing)
                else if writes == 1 then end.Died? && db.State() == SetStatus(old(db.State()), i, Processing)
                else end.Finished? && db.State() == Settle(old(db.State()), i, t.walletId.value, t.resolvedBy)
    {
      if i >= |db.rows| || IsTerminal(db.rows[i].status) {
        return Finished;
      }
      var t := db.rows[i];
      if t.direction.Debit? {
        return Raised;
      }
      if writes == 0 {
        return Died;
      }
      db.rows := db.rows[i := db.rows[i].(status := Processing)];
      if t.walletId.None? || t.walletId.value >= |db.wallets| {
        return Raised;
      }
      if writes == 1 {
        return Died;
      }
      var credited := wallets.CreditForUpdate(t.walletId.value, t.amount);
      db.journal := db.journal + [Entry(t.walletId.value, i, t.amount, credited.value)];
      db.rows := db.rows[i := db.rows[i].(status := Successful, balanceAfter := Some(credited.value))];
      end := Finished;
    }

    // Fires on every failed attempt; only the last one closes the row.
    method HandleFailed(i: nat, attemptsMade: nat, maxAttempts: nat)
      requires i < |db.rows|
      modifies db`rows
      ensures db.State() == if attemptsMade < maxAttempts then old(db.State())
                            else SetStatus(old(db.State()), i, Failed)
    {
      if attemptsMade < maxAttempts {
        return;
      }
      db.rows := db.rows[i := db.rows[i].(status := Failed)];
    }
  }

  datatype Posted = Posted(transactionId: nat, balanceAfter: Option<int>, replayed: bool)

  class PaymentPostings {
    const db: Database
    const wallets: WalletsService

    constructor (db: Database, wallets: WalletsService)
      requires wallets.db == db
      ensures this.db == db && this.wallets == wallets
    {
      this.db := db;
      this.wallets := wallets;
    }

    method FindExisting(reference: string) returns (found: Option<nat>)
      ensures found.Some? <==> ReferenceTaken(db.rows, Manual, reference)
      ensures found.Some? ==> found.value < |db.rows| && db.rows[found.value].provider.Manual?
                              && db.rows[found.value].reference == reference
    {
      if ReferenceTaken(db.rows, Manual, reference) {
        var i :| 0 <= i < |db.rows| && db.rows[i].provider == Manual && db.rows[i].reference == reference;
        return Some(i);
      }
      return None;
    }

    // `racing`: the row with this reference was committed by a concurrent call
    // just after the first lookup, so only the unique index sees it. Whichever
    // way it is found, the caller gets the one row and no money moves again.
    method Post(q: PostRequest, racing: bool) returns (r: Result<Posted, LedgerError>)
      requires wallets.db == db
      modifies db
      ensures db.State() == if r.Failure? then old(db.State()) else PostTx(old(db.State()), q)
      ensures var refusal := if racing then RacingRefusal(old(db.State()), q) else PostRefusal(old(db.State()), q);
              if refusal.Some? then r == Failure(refusal.value) else r.Success?
      ensures r.Success? ==>
                && r.value.transactionId < |db.rows|
                && db.rows[r.value.transactionId].provider.Manual?
                && db.rows[r.value.transactionId].reference == q.reference
                && r.value.balanceAfter == db.rows[r.value.transactionId].balanceAfter
                && (r.value.replayed <==> ReferenceTaken(old(db.rows), Manual, q.reference))
    {
      if q.amount <= 0 {
        return Failure(BadAmount);
      }
      if !racing {
        var replay := FindExisting(q.reference);
        if replay.Some? {
          return Success(Posted(replay.value, db.rows[replay.value].balanceAfter, true));
        }
      }
      var before := db.wallets;
      var moved: Result<int, LedgerError>;
      if q.direction.Credit? {
        moved := wallets.CreditForUpdate(q.wallet, q.amount);
      } else {
        moved := wallets.DebitForUpdate(q.wallet, q.amount);
      }
      if moved.Failure? {
        return Failure(moved.error);
      }
      var row := Txn(Some(q.wallet), q.direction, Adjustment, Successful, Manual, q.amount, 0, 0, 0,
                     None, q.reference, None, q.createdAt);
      var inserted := db.InsertMoved(row, moved.value);
      if inserted.Failure? {
        db.wallets := before;
        var winner := FindExisting(q.reference);
        if winner.Some? {
          return Success(Posted(winner.value, db.rows[winner.value].balanceAfter, true));
        }
        return Failure(DuplicateReference);
      }
      r := Success(Posted(inserted.value, Some(moved.value), false));
    }
  }

  class UnmatchedService {
    const db: Database
    const wallets: WalletsService

    constructor (db: Database, wallets: WalletsService)
      requires wallets.db == db
      ensures this.db == db && this.wallets == wallets
    {
      this.db := db;
      this.wallets := wallets;
    }

    // Under the row's lock: the same assignment again is a replay, anything
    // else that is not awaiting assignment is refused.
    method Assign(i: nat, walletId: nat, resolver: string) returns (r: Result<Posted, LedgerError>)
      requires wallets.db == db
      modifies db
      ensures db.State() == AssignTx(old(db.State()), i, walletId, resolver)
      ensures var refusal := AssignRefusal(old(db.State()), i, walletId);
              if refusal.Some? then r == Failure(refusal.value)
              else && r.Success? && r.value.transactionId == i && i < |db.rows|
                   && r.value.balanceAfter == db.rows[i].balanceAfter
                   && (r.value.replayed <==> AlreadyAssigned(old(db.State()), i, walletId))
    {
      if i >= |db.rows| {
        return Failure(TransactionNotFound);
      }
      var t := db.rows[i];
      if t.status.Successful? && t.walletId == Some(walletId) {
        return Success(Posted(i, t.balanceAfter, true));
      }
      if !t.direction.Credit? || !t.status.Unmatched? || t.walletId.Some? {
        return Failure(NotAwaitingAssignment);
      }
      var credited := wallets.CreditForUpdate(walletId, t.amount);
      if credited.Failure? {
        return Failure(credited.error);
      }
      db.journal := db.journal + [Entry(walletId, i, t.amount, credited.value)];
      db.rows := db.rows[i := t.(walletId := Some(walletId), status := Successful,
                                 balanceAfter := Some(credited.value), resolvedBy := Some(resolver))];
      r := Success(Posted(i, Some(credited.value), false));
    }
  }

  // ---- The webhook -----------------------------------------------------------

  datatype Delivery = RetryLater | Skipped(mismatches: seq<string>) | Recorded(id: Option<nat>)

  class WebhooksService {
    const db: Database
    const transactions: TransactionsService
    var verified: bool           // the stored event's flag

    constructor (db: Database, transactions: TransactionsService)
      requires transactions.db == db
      ensures this.db == db && this.transactions == transactions && !verified
    {
      this.db := db;
      this.transactions := transactions;
      verified := false;
    }

    // A webhook is only a claim: it is recorded exactly when the provider's own
    // answer is a success that confirms it.
    method HandleInwardCredit(addresses: map<string, nat>, n: Notice) returns (r: Delivery)
      requires transactions.db == db
      modifies this`verified, db`rows
      ensures db.State() == Receive(old(db.State()), addresses, n)
      ensures verified <==> n.outcome.Succeeded? && Confirms(n.record, n.claim)
      ensures r.Recorded? <==> verified
      ensures r.RetryLater? <==> n.outcome.Requery?
      ensures r.Recorded? && r.id.Some? ==> r.id == Some(|old(db.rows)|) && |db.rows| == |old(db.rows)| + 1
    {
      verified := false;
      if n.outcome.Requery? {
        return RetryLater;
      }
      if n.outcome.Rejected? || n.outcome.Hold? {
        return Skipped([]);
      }
      var claim, record := n.claim, n.record;
      var mismatches := [];
      if record.None? || record.value.amount.None? || record.value.amount.value != claim.amount {
        mismatches := mismatches + ["amount"];
      }
      if record.None? || !Named(record.value.account) || record.value.account.value != claim.account {
        mismatches := mismatches + ["destination account"];
      }
      if Named(claim.originator) && record.Some? && Named(record.value.originator)
         && record.value.originator.value != claim.originator.value {
        mismatches := mismatches + ["source account"];
      }
      if |mismatches| > 0 {
        return Skipped(mismatches);
      }
      verified := true;
      var address := if claim.account in addresses then Some(addresses[claim.account]) else None;
      var id, _ := transactions.RecordPayin(address, record.value.amount.value, claim.reference,
                                            n.sessionTaken, n.now);
      r := Recorded(id);
    }
  }
}
