// Webhooks that claim a deposit, and the provider's own record of it.
module Inward {
  import opened Prelude
  import opened Ledger
  import opened Machine

  datatype Claim = Claim(reference: string, account: string, amount: nat, originator: Option<string>)

  // The provider's own record of a reference.
  datatype Record = Record(amount: Option<nat>, account: Option<string>, originator: Option<string>)

  // A webhook, and what the provider answers when asked about its reference.
  datatype Notice = Notice(claim: Claim, outcome: Outcome, record: Option<Record>, sessionTaken: bool, now: int)

  // An empty account names nothing.
  predicate Named(account: Option<string>) { account.Some? && |account.value| > 0 }

  // The record confirms the claim: amount and destination are there and equal,
  // and the source agrees where both sides name one.
  predicate Confirms(record: Option<Record>, claim: Claim) {
    && record.Some?
    && record.value.amount == Some(claim.amount)
    && Named(record.value.account) && record.value.account == Some(claim.account)
    && (Named(claim.originator) && Named(record.value.originator) ==> claim.originator == record.value.originator)
  }

  // The wallet behind a deposit account, if there is one.
  function WalletBehind(d: Db, addresses: map<string, nat>, account: string): Option<nat> {
    if account in addresses && addresses[account] < |d.wallets| then Some(addresses[account]) else None
  }

  function Receive(d: Db, addresses: map<string, nat>, n: Notice): Db {
    if n.outcome.Succeeded? && Confirms(n.record, n.claim) then
      PayinTx(d, WalletBehind(d, addresses, n.claim.account), n.record.value.amount.value, n.claim.reference,
              n.sessionTaken, n.now)
    else d
  }

  // Exactly when a webhook adds a row.
  lemma ReceivedExactly(d: Db, addresses: map<string, nat>, n: Notice)
    ensures Receive(d, addresses, n).rows != d.rows <==>
              && n.outcome.Succeeded? && n.record.Some?
              && n.record.value.amount == Some(n.claim.amount)
              && n.record.value.account == Some(n.claim.account) && n.claim.account != ""
              && !(&& n.claim.originator.Some? && n.record.value.originator.Some?
                   && n.claim.originator != Some("") && n.record.value.originator != Some("")
                   && n.claim.originator != n.record.value.originator)
              && !n.sessionTaken
              && !exists i | 0 <= i < |d.rows| :: d.rows[i].provider.Vfd? && d.rows[i].reference == n.claim.reference
    ensures Receive(d, addresses, n).rows != d.rows ==>
              && |Receive(d, addresses, n).rows| == |d.rows| + 1
              && Receive(d, addresses, n).rows[|d.rows|].reference == n.claim.reference
              && Receive(d, addresses, n).rows[|d.rows|].createdAt == n.now
  {
    if Receive(d, addresses, n) != d {
      assert |Receive(d, addresses, n).rows| == |d.rows| + 1;
    }
  }

  // ---- Any number of webhooks, true or forged --------------------------------

  function ReceiveAll(d: Db, addresses: map<string, nat>, notices: seq<Notice>): Db {
    if |notices| == 0 then d
    else Receive(ReceiveAll(d, addresses, notices[..|notices| - 1]), addresses, notices[|notices| - 1])
  }

  // Whatever a webhook claims, the provider answers from its book.
  predicate AnsweredFrom(n: Notice, book: map<string, Record>) {
    n.outcome.Succeeded? ==> n.claim.reference in book && n.record == Some(book[n.claim.reference])
  }

  // A row as the book has it: of the amount the provider received, and for the
  // wallet behind the account that received it.
  predicate AsBooked(t: Txn, d: Db, addresses: map<string, nat>, book: map<string, Record>) {
    && t.kind.Deposit? && t.direction.Credit? && t.reference in book
    && book[t.reference].amount == Some(t.amount)
    && book[t.reference].account.Some?
    && (if book[t.reference].account.value in addresses && addresses[book[t.reference].account.value] < |d.wallets|
        then t.walletId == Some(addresses[book[t.reference].account.value]) && t.status.Pending?
        else t.walletId.None? && t.status.Unmatched?)
  }

  // Every row that webhooks add is as the provider's book has it, nothing moves
  // a balance, and the rows that were there stay.
  lemma {:induction false} ForgedWebhooksAddNothing(d: Db, addresses: map<string, nat>, notices: seq<Notice>,
                                                    book: map<string, Record>)
    requires forall n | n in notices :: AnsweredFrom(n, book)
    ensures var d' := ReceiveAll(d, addresses, notices);
            && d'.wallets == d.wallets && d'.journal == d.journal && d.rows <= d'.rows
            && forall i | |d.rows| <= i < |d'.rows| :: AsBooked(d'.rows[i], d, addresses, book)
  {
    if |notices| > 0 {
      ForgedWebhooksAddNothing(d, addresses, notices[..|notices| - 1], book);
      OneWebhook(ReceiveAll(d, addresses, notices[..|notices| - 1]), addresses, notices[|notices| - 1], book);
    }
  }

  lemma OneWebhook(d: Db, addresses: map<string, nat>, n: Notice, book: map<string, Record>)
    requires AnsweredFrom(n, book)
    ensures var d' := Receive(d, addresses, n);
            && d'.wallets == d.wallets && d'.journal == d.journal && d.rows <= d'.rows
            && forall i | |d.rows| <= i < |d'.rows| :: AsBooked(d'.rows[i], d, addresses, book)
  {
  }
}
