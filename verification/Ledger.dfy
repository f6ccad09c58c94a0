// The payment database as a value: wallets, transaction rows and the order in
// which committed changes touched a wallet. Rows are never deleted, so a row's
// id is its position; so is a wallet's.
module Ledger {
  import opened Prelude
  import opened Sums
  import opened Charges

  datatype Direction = Credit | Debit
  datatype Kind = Deposit | Payout | BillPayment | Reversal | Adjustment
  datatype Status = Pending | Processing | Successful | Failed | Unmatched
  datatype Provider = Vfd | Manual

  // The columns a nullable fee can be missing from (credits) hold 0 here, as
  // every reader of the column treats null.
  datatype Txn = Txn(
    walletId: Option<nat>,
    direction: Direction,
    kind: Kind,
    status: Status,
    provider: Provider,
    amount: int,
    fee: int,
    feeVat: int,
    stampDuty: int,
    balanceAfter: Option<int>,
    reference: string,
    resolvedBy: Option<string>,
    createdAt: int)

  // One committed change of one wallet.
  datatype Entry = Entry(wallet: nat, txn: nat, delta: int, balanceAfter: int)

  datatype Db = Db(wallets: seq<int>, rows: seq<Txn>, journal: seq<Entry>, freePayouts: bool)

  datatype LedgerError =
    | BadAmount
    | WalletNotFound
    | InsufficientBalance
    | NewDeviceLimit
    | TransferLimit
    | DuplicateReference
    | TransactionNotFound
    | NotAwaitingAssignment

  // ---- What a row does to a balance ------------------------------------------

  predicate IsTerminal(s: Status) { s.Successful? || s.Failed? }

  // Payouts and bills: the debits a provider decides.
  predicate IsOutgoing(t: Txn) { t.kind.Payout? || t.kind.BillPayment? }

  // A credit moves money once it is SUCCESSFUL; a debit moved it when its row
  // was written, whatever its status became.
  predicate Moves(t: Txn) { t.direction.Debit? || t.status.Successful? }

  function Effect(t: Txn): int {
    if !Moves(t) then 0
    else if t.direction.Credit? then t.amount
    else -(t.amount + t.fee)
  }

  function EffectOn(rows: seq<Txn>, w: nat): nat -> int {
    (i: nat) => if i < |rows| && rows[i].walletId == Some(w) then Effect(rows[i]) else 0
  }

  function EffectAll(rows: seq<Txn>): nat -> int {
    (i: nat) => if i < |rows| then Effect(rows[i]) else 0
  }

  function WalletAt(wallets: seq<int>): nat -> int {
    (i: nat) => if i < |wallets| then wallets[i] else 0
  }

  // ---- The queries the limits are computed from ------------------------------

  // Debit amounts of the wallet created at or after `since`, staff adjustments
  // and failed rows left out.
  predicate CountsAsOutflow(t: Txn, w: nat, since: int) {
    && t.walletId == Some(w)
    && t.direction.Debit?
    && !t.provider.Manual?
    && (t.status.Pending? || t.status.Processing? || t.status.Successful?)
    && t.createdAt >= since
  }

  function OutflowAt(rows: seq<Txn>, w: nat, since: int): nat -> int {
    (i: nat) => if i < |rows| && CountsAsOutflow(rows[i], w, since) then rows[i].amount else 0
  }

  function OutflowSince(rows: seq<Txn>, w: nat, since: int): int {
    SumTo(|rows|, OutflowAt(rows, w, since))
  }

  predicate CountsAsUsedSlot(t: Txn, w: nat, since: int) {
    t.walletId == Some(w) && t.kind.Payout? && !t.status.Failed? && t.createdAt >= since
  }

  function UsedSlotAt(rows: seq<Txn>, w: nat, since: int): nat -> int {
    (i: nat) => if i < |rows| && CountsAsUsedSlot(rows[i], w, since) then 1 else 0
  }

  function UsedSlots(rows: seq<Txn>, w: nat, since: int): int {
    SumTo(|rows|, UsedSlotAt(rows, w, since))
  }

  predicate ReferenceTaken(rows: seq<Txn>, p: Provider, reference: string) {
    exists i | 0 <= i < |rows| :: rows[i].provider == p && rows[i].reference == reference
  }

  // ---- The four shapes of a write --------------------------------------------

  // A new row that moves its wallet.
  function Book(d: Db, row: Txn): Db
    requires row.walletId.Some? && row.walletId.value < |d.wallets|
  {
    var w := row.walletId.value;
    var b := d.wallets[w] + Effect(row);
    d.(wallets := d.wallets[w := b],
       rows := d.rows + [row.(balanceAfter := Some(b))],
       journal := d.journal + [Entry(w, |d.rows|, Effect(row), b)])
  }

  // An existing credit becomes SUCCESSFUL and moves wallet `w`.
  function Settle(d: Db, i: nat, w: nat, resolver: Option<string>): Db
    requires i < |d.rows| && w < |d.wallets|
  {
    var b := d.wallets[w] + d.rows[i].amount;
    d.(wallets := d.wallets[w := b],
       rows := d.rows[i := d.rows[i].(status := Successful, walletId := Some(w),
                                      balanceAfter := Some(b), resolvedBy := resolver)],
       journal := d.journal + [Entry(w, i, d.rows[i].amount, b)])
  }

  function SetStatus(d: Db, i: nat, s: Status): Db
    requires i < |d.rows|
  {
    d.(rows := d.rows[i := d.rows[i].(status := s)])
  }

  // A new row that moves nothing yet.
  function Park(d: Db, row: Txn): Db {
    d.(rows := d.rows + [row])
  }

  // ---- The database transactions ---------------------------------------------

  datatype Limit = Limit(amount: int, since: int)
  datatype Caps = Caps(perTransfer: Option<int>, daily: Option<int>)

  // `createdAt` is when the database transaction began; `clock` is the
  // service's own clock once it holds the wallet row.
  datatype PayoutRequest = PayoutRequest(
    wallet: nat, amount: int, reference: string,
    limit: Option<Limit>, caps: Option<Caps>, enforce: bool,
    createdAt: int, clock: int)

  // The biller's record gives the bill's type and convenience fee, the
  // configuration the service fee.
  datatype BillRequest = BillRequest(
    wallet: nat, amount: int, bill: BillType, convenienceFee: Option<nat>, serviceFee: nat,
    reference: string, caps: Option<Caps>, enforce: bool, createdAt: int, clock: int)
  {
    function Fee(): nat { CalculateBillFee(bill, convenienceFee, serviceFee) }
  }

  predicate FreeSlotOpen(d: Db, w: nat, clock: int) {
    d.freePayouts && UsedSlots(d.rows, w, StartOfLagosDay(clock)) < FREE_PAYOUTS_PER_DAY
  }

  function PayoutCharges(d: Db, w: nat, amount: int, clock: int): Charge {
    Schedule(FreeSlotOpen(d, w, clock), amount)
  }

  predicate OverDeviceLimit(d: Db, w: nat, amount: int, limit: Option<Limit>) {
    limit.Some? && OutflowSince(d.rows, w, limit.value.since) + amount > limit.value.amount
  }

  predicate OverCaps(d: Db, w: nat, amount: int, caps: Option<Caps>, enforce: bool, clock: int) {
    && enforce && caps.Some?
    && (|| (caps.value.perTransfer.Some? && amount > caps.value.perTransfer.value)
        || (caps.value.daily.Some?
            && OutflowSince(d.rows, w, StartOfLagosDay(clock)) + amount > caps.value.daily.value))
  }

  // None: the payout commits. Otherwise why it is refused.
  function PayoutRefusal(d: Db, q: PayoutRequest): Option<LedgerError> {
    if q.amount <= 0 then Some(BadAmount)
    else if q.wallet >= |d.wallets| then Some(WalletNotFound)
    else if d.wallets[q.wallet] < q.amount + PayoutCharges(d, q.wallet, q.amount, q.clock).total
      then Some(InsufficientBalance)
    else if OverDeviceLimit(d, q.wallet, q.amount, q.limit) then Some(NewDeviceLimit)
    else if OverCaps(d, q.wallet, q.amount, q.caps, q.enforce, q.clock) then Some(TransferLimit)
    else if ReferenceTaken(d.rows, Vfd, q.reference) then Some(DuplicateReference)
    else None
  }

  function PayoutRow(d: Db, q: PayoutRequest): Txn {
    var c := PayoutCharges(d, q.wallet, q.amount, q.clock);
    Txn(Some(q.wallet), Debit, Payout, Processing, Vfd, q.amount, c.total, c.vat, c.stampDuty,
        None, q.reference, None, q.createdAt)
  }

  function PayoutTx(d: Db, q: PayoutRequest): Db {
    if PayoutRefusal(d, q).None? then Book(d, PayoutRow(d, q)) else d
  }

  function BillRefusal(d: Db, q: BillRequest): Option<LedgerError> {
    if q.amount <= 0 then Some(BadAmount)
    else if q.wallet >= |d.wallets| then Some(WalletNotFound)
    else if d.wallets[q.wallet] < q.amount + q.Fee() then Some(InsufficientBalance)
    else if OverCaps(d, q.wallet, q.amount, q.caps, q.enforce, q.clock) then Some(TransferLimit)
    else if ReferenceTaken(d.rows, Vfd, q.reference) then Some(DuplicateReference)
    else None
  }

  function BillRow(q: BillRequest): Txn {
    Txn(Some(q.wallet), Debit, BillPayment, Processing, Vfd, q.amount, q.Fee(), 0, 0,
        None, q.reference, None, q.createdAt)
  }

  function BillTx(d: Db, q: BillRequest): Db {
    if BillRefusal(d, q).None? then Book(d, BillRow(q)) else d
  }

  function RefundReference(reference: string): string { "REV-" + reference }

  function RefundRow(t: Txn, createdAt: int): Txn {
    Txn(t.walletId, Credit, Reversal, Successful, t.provider, t.amount + t.fee, 0, 0, 0,
        None, RefundReference(t.reference), None, createdAt)
  }

  // Can the reversal of row `i` commit? Its own status is not among the reasons:
  // it was read earlier, without a lock.
  function RefundRefusal(d: Db, i: nat): Option<LedgerError> {
    if i >= |d.rows| then Some(TransactionNotFound)
    else if d.rows[i].walletId.None? || d.rows[i].walletId.value >= |d.wallets| then Some(WalletNotFound)
    else if ReferenceTaken(d.rows, d.rows[i].provider, RefundReference(d.rows[i].reference))
      then Some(DuplicateReference)
    else None
  }

  function RefundTx(d: Db, i: nat, createdAt: int): Db {
    if RefundRefusal(d, i).None?
      then Book(SetStatus(d, i, Failed), RefundRow(d.rows[i], createdAt))
    else d
  }

  function DepositRow(w: Option<nat>, amount: int, reference: string, createdAt: int): Txn {
    Txn(w, Credit, Deposit, if w.Some? then Pending else Unmatched, Vfd, amount, 0, 0, 0,
        None, reference, None, createdAt)
  }

  // Insert-or-ignore on (provider, reference) and on the provider's session id.
  predicate PayinIgnored(d: Db, reference: string, sessionTaken: bool) {
    sessionTaken || ReferenceTaken(d.rows, Vfd, reference)
  }

  function PayinTx(d: Db, w: Option<nat>, amount: int, reference: string, sessionTaken: bool,
                   createdAt: int): Db
  {
    if PayinIgnored(d, reference, sessionTaken) then d
    else Park(d, DepositRow(w, amount, reference, createdAt))
  }

  datatype PostRequest = PostRequest(wallet: nat, direction: Direction, amount: int, reference: string,
                                     createdAt: int)

  function PostRow(q: PostRequest): Txn {
    Txn(Some(q.wallet), q.direction, Adjustment, Successful, Manual, q.amount, 0, 0, 0,
        None, q.reference, None, q.createdAt)
  }

  // A reference already posted is replayed, not refused.
  function PostRefusal(d: Db, q: PostRequest): Option<LedgerError> {
    if q.amount <= 0 then Some(BadAmount)
    else if ReferenceTaken(d.rows, Manual, q.reference) then None
    else if q.wallet >= |d.wallets| then Some(WalletNotFound)
    else if q.direction.Debit? && d.wallets[q.wallet] < q.amount then Some(InsufficientBalance)
    else None
  }

  // Why a call whose first lookup missed the row fails: the wallet is tried
  // before the unique index can tell that the posting is already there.
  function RacingRefusal(d: Db, q: PostRequest): Option<LedgerError> {
    if q.amount <= 0 then Some(BadAmount)
    else if q.wallet >= |d.wallets| then Some(WalletNotFound)
    else if q.direction.Debit? && d.wallets[q.wallet] < q.amount then Some(InsufficientBalance)
    else None
  }

  function PostTx(d: Db, q: PostRequest): Db {
    if PostRefusal(d, q).None? && !ReferenceTaken(d.rows, Manual, q.reference)
      then Book(d, PostRow(q))
    else d
  }

  // Retrying an approval that went through finds the row already assigned.
  predicate AlreadyAssigned(d: Db, i: nat, w: nat) {
    i < |d.rows| && d.rows[i].status.Successful? && d.rows[i].walletId == Some(w)
  }

  function AssignRefusal(d: Db, i: nat, w: nat): Option<LedgerError> {
    if i >= |d.rows| then Some(TransactionNotFound)
    else if AlreadyAssigned(d, i, w) then None
    else if !(d.rows[i].direction.Credit? && d.rows[i].status.Unmatched? && d.rows[i].walletId.None?)
      then Some(NotAwaitingAssignment)
    else if w >= |d.wallets| then Some(WalletNotFound)
    else None
  }

  function AssignTx(d: Db, i: nat, w: nat, resolver: string): Db {
    if AssignRefusal(d, i, w).None? && !AlreadyAssigned(d, i, w)
      then Settle(d, i, w, Some(resolver))
    else d
  }

  // ---- The statement ---------------------------------------------------------

  // The balance the last committed change of wallet `w` left; 0 before any.
  function LastBalance(j: seq<Entry>, w: nat): int {
    if |j| == 0 then 0
    else if j[|j| - 1].wallet == w then j[|j| - 1].balanceAfter
    else LastBalance(j[..|j| - 1], w)
  }

  // Each change starts from what the previous change of that wallet left, and
  // leaves no wallet overdrawn.
  predicate Chained(j: seq<Entry>) {
    forall k | 0 <= k < |j| ::
      j[k].balanceAfter == LastBalance(j[..k], j[k].wallet) + j[k].delta && j[k].balanceAfter >= 0
  }

  // The entry is what its row says happened.
  predicate EntryMatchesRow(e: Entry, rows: seq<Txn>) {
    && e.txn < |rows|
    && rows[e.txn].walletId == Some(e.wallet)
    && Moves(rows[e.txn])
    && Effect(rows[e.txn]) == e.delta
    && rows[e.txn].balanceAfter == Some(e.balanceAfter)
  }

  predicate HasEntry(j: seq<Entry>, i: int) {
    exists k | 0 <= k < |j| :: j[k].txn == i
  }

  predicate OneEntryPerMovingRow(d: Db) {
    && (forall k | 0 <= k < |d.journal| :: EntryMatchesRow(d.journal[k], d.rows))
    && (forall k, l | 0 <= k < l < |d.journal| :: d.journal[k].txn != d.journal[l].txn)
    && (forall i {:trigger HasEntry(d.journal, i)} | 0 <= i < |d.rows| && Moves(d.rows[i]) ::
          HasEntry(d.journal, i))
  }

  predicate UniqueReferences(rows: seq<Txn>) {
    forall i, k | 0 <= i < k < |rows| ::
      !(rows[i].provider == rows[k].provider && rows[i].reference == rows[k].reference)
  }

  predicate MovingRowsHaveWallets(d: Db) {
    forall i | 0 <= i < |d.rows| && d.rows[i].walletId.Some? ::
      d.rows[i].walletId.value < |d.wallets|
  }

  predicate BalancesAreSums(d: Db) {
    forall w: nat | w < |d.wallets| :: d.wallets[w] == SumTo(|d.rows|, EffectOn(d.rows, w))
  }

  predicate BalancesEndChain(d: Db) {
    forall w: nat | w < |d.wallets| :: d.wallets[w] == LastBalance(d.journal, w)
  }

  predicate TotalIsSum(d: Db) {
    SumTo(|d.wallets|, WalletAt(d.wallets)) == SumTo(|d.rows|, EffectAll(d.rows))
  }

  // Everything about money that every committed write keeps.
  ghost predicate Sound(d: Db) {
    && (forall w | 0 <= w < |d.wallets| :: d.wallets[w] >= 0)
    && BalancesAreSums(d)
    && TotalIsSum(d)
    && BalancesEndChain(d)
    && Chained(d.journal)
    && OneEntryPerMovingRow(d)
    && UniqueReferences(d.rows)
    && MovingRowsHaveWallets(d)
  }

  // ---- Every write keeps it --------------------------------------------------

  lemma {:induction false} LastBalanceOfStranger(j: seq<Entry>, w: nat)
    requires forall k | 0 <= k < |j| :: j[k].wallet != w
    ensures LastBalance(j, w) == 0
  {
    if |j| == 0 {
    } else {
      LastBalanceOfStranger(j[..|j| - 1], w);
    }
  }

  lemma ChainGrows(j: seq<Entry>, e: Entry)
    requires Chained(j)
    requires e.balanceAfter == LastBalance(j, e.wallet) + e.delta && e.balanceAfter >= 0
    ensures Chained(j + [e])
    ensures forall w: nat :: LastBalance(j + [e], w) == if w == e.wallet then e.balanceAfter else LastBalance(j, w)
  {
    var j' := j + [e];
    assert j'[..|j|] == j;
    forall k | 0 <= k < |j'|
      ensures j'[k].balanceAfter == LastBalance(j'[..k], j'[k].wallet) + j'[k].delta && j'[k].balanceAfter >= 0
    {
      if k < |j| {
        assert j'[..k] == j[..k] && j'[k] == j[k];
      }
    }
  }

  lemma OpenWalletKeepsTotals(d: Db)
    requires BalancesAreSums(d) && TotalIsSum(d) && MovingRowsHaveWallets(d)
    ensures var d' := d.(wallets := d.wallets + [0]); BalancesAreSums(d') && TotalIsSum(d')
  {
    var d' := d.(wallets := d.wallets + [0]);
    var n := |d.wallets|;
    SumSame(n, WalletAt(d.wallets), WalletAt(d'.wallets));
    SumZero(|d.rows|, EffectOn(d.rows, n));
  }

  lemma OpenWalletKeepsSound(d: Db)
    requires Sound(d)
    ensures Sound(d.(wallets := d.wallets + [0]))
  {
    OpenWalletKeepsTotals(d);
    forall k | 0 <= k < |d.journal| ensures d.journal[k].wallet != |d.wallets| {
      assert EntryMatchesRow(d.journal[k], d.rows);
    }
    LastBalanceOfStranger(d.journal, |d.wallets|);
  }

  // What a status change may touch: a row that moves the same before and after.
  predicate SameMovement(t: Txn, u: Txn) {
    && Moves(t) == Moves(u) && Effect(t) == Effect(u) && t.walletId == u.walletId
    && t.balanceAfter == u.balanceAfter && t.provider == u.provider && t.reference == u.reference
  }

  lemma RewriteKeepsTotals(d: Db, i: nat, u: Txn)
    requires BalancesAreSums(d) && TotalIsSum(d) && i < |d.rows| && SameMovement(d.rows[i], u)
    ensures var d' := d.(rows := d.rows[i := u]); BalancesAreSums(d') && TotalIsSum(d')
  {
    var d' := d.(rows := d.rows[i := u]);
    forall w: nat | w < |d.wallets|
      ensures d'.wallets[w] == SumTo(|d'.rows|, EffectOn(d'.rows, w))
    {
      SumSame(|d.rows|, EffectOn(d.rows, w), EffectOn(d'.rows, w));
    }
    SumSame(|d.rows|, EffectAll(d.rows), EffectAll(d'.rows));
  }

  lemma RewriteKeepsEntries(d: Db, i: nat, u: Txn)
    requires OneEntryPerMovingRow(d) && i < |d.rows| && SameMovement(d.rows[i], u)
    ensures OneEntryPerMovingRow(d.(rows := d.rows[i := u]))
  {
    var d' := d.(rows := d.rows[i := u]);
    forall k | 0 <= k < |d.journal| ensures EntryMatchesRow(d'.journal[k], d'.rows) {
      assert EntryMatchesRow(d.journal[k], d.rows);
    }
    forall k | 0 <= k < |d'.rows| && Moves(d'.rows[k])
      ensures HasEntry(d'.journal, k)
    {
      assert Moves(d.rows[k]) && HasEntry(d.journal, k);
    }
  }

  lemma RewriteKeepsSound(d: Db, i: nat, u: Txn)
    requires Sound(d) && i < |d.rows| && SameMovement(d.rows[i], u)
    ensures Sound(d.(rows := d.rows[i := u]))
  {
    RewriteKeepsTotals(d, i, u);
    RewriteKeepsEntries(d, i, u);
  }

  lemma ParkKeepsTotals(d: Db, row: Txn)
    requires BalancesAreSums(d) && TotalIsSum(d) && !Moves(row)
    ensures BalancesAreSums(Park(d, row)) && TotalIsSum(Park(d, row))
  {
    var d' := Park(d, row);
    var n := |d.rows|;
    forall w: nat | w < |d.wallets|
      ensures d'.wallets[w] == SumTo(|d'.rows|, EffectOn(d'.rows, w))
    {
      SumSame(n, EffectOn(d.rows, w), EffectOn(d'.rows, w));
    }
    SumSame(n, EffectAll(d.rows), EffectAll(d'.rows));
  }

  lemma ParkKeepsSound(d: Db, row: Txn)
    requires Sound(d) && !Moves(row) && !ReferenceTaken(d.rows, row.provider, row.reference)
    requires row.walletId.Some? ==> row.walletId.value < |d.wallets|
    ensures Sound(Park(d, row))
  {
    ParkKeepsTotals(d, row);
    var d' := Park(d, row);
    forall k | 0 <= k < |d.journal| ensures EntryMatchesRow(d'.journal[k], d'.rows) {
      assert EntryMatchesRow(d.journal[k], d.rows);
    }
  }

  // One committed movement: row `k` of the new table moves wallet `w` by
  // `delta`, no other row moves, and one entry records it.
  predicate Movement(d: Db, d': Db, k: nat, w: nat, delta: int) {
    && w < |d.wallets| && d'.wallets == d.wallets[w := d.wallets[w] + delta]
    && |d.rows| <= |d'.rows| <= |d.rows| + 1 && k < |d'.rows|
    && (|d'.rows| > |d.rows| ==> k == |d.rows|)
    && (forall i | 0 <= i < |d.rows| && i != k :: d'.rows[i] == d.rows[i])
    && (k < |d.rows| ==> !Moves(d.rows[k]))
    && d'.rows[k].walletId == Some(w) && Moves(d'.rows[k]) && Effect(d'.rows[k]) == delta
    && d'.rows[k].balanceAfter == Some(d'.wallets[w])
    && d'.journal == d.journal + [Entry(w, k, delta, d'.wallets[w])]
  }

  lemma MovementKeepsTotals(d: Db, d': Db, k: nat, w: nat, delta: int)
    requires BalancesAreSums(d) && TotalIsSum(d) && Movement(d, d', k, w, delta)
    ensures BalancesAreSums(d') && TotalIsSum(d')
  {
    var n := |d.rows|;
    forall v: nat | v < |d.wallets|
      ensures d'.wallets[v] == SumTo(|d'.rows|, EffectOn(d'.rows, v))
    {
      if k == n {
        SumSame(n, EffectOn(d.rows, v), EffectOn(d'.rows, v));
      } else {
        SumDiff(n, k, EffectOn(d.rows, v), EffectOn(d'.rows, v));
      }
    }
    if k == n {
      SumSame(n, EffectAll(d.rows), EffectAll(d'.rows));
    } else {
      SumDiff(n, k, EffectAll(d.rows), EffectAll(d'.rows));
    }
    SumDiff(|d.wallets|, w, WalletAt(d.wallets), WalletAt(d'.wallets));
  }

  lemma OldEntriesStillMatch(d: Db, d': Db, k: nat, w: nat, delta: int, l: nat)
    requires OneEntryPerMovingRow(d) && Movement(d, d', k, w, delta) && l < |d.journal|
    ensures d.journal[l].txn != k && EntryMatchesRow(d.journal[l], d'.rows)
  {
    assert EntryMatchesRow(d.journal[l], d.rows);
  }

  lemma MovementKeepsEntries(d: Db, d': Db, k: nat, w: nat, delta: int)
    requires OneEntryPerMovingRow(d) && Movement(d, d', k, w, delta)
    ensures OneEntryPerMovingRow(d')
  {
    var n := |d.journal|;
    forall l | 0 <= l < n ensures d.journal[l].txn != k && EntryMatchesRow(d'.journal[l], d'.rows) {
      OldEntriesStillMatch(d, d', k, w, delta, l);
    }
    forall i | 0 <= i < |d'.rows| && Moves(d'.rows[i])
      ensures HasEntry(d'.journal, i)
    {
      if i == k {
        assert d'.journal[n].txn == i;
      } else {
        assert HasEntry(d.journal, i);
        var l :| 0 <= l < n && d.journal[l].txn == i;
        assert d'.journal[l].txn == i;
      }
    }
  }

  lemma MovementKeepsChain(d: Db, d': Db, k: nat, w: nat, delta: int)
    requires Chained(d.journal) && BalancesEndChain(d) && Movement(d, d', k, w, delta)
    requires d'.wallets[w] >= 0
    ensures Chained(d'.journal) && BalancesEndChain(d')
  {
    ChainGrows(d.journal, Entry(w, k, delta, d'.wallets[w]));
  }

  lemma MovementKeepsSound(d: Db, d': Db, k: nat, w: nat, delta: int)
    requires Sound(d) && Movement(d, d', k, w, delta) && d'.wallets[w] >= 0
    requires UniqueReferences(d'.rows)
    ensures Sound(d')
  {
    MovementKeepsTotals(d, d', k, w, delta);
    MovementKeepsEntries(d, d', k, w, delta);
    MovementKeepsChain(d, d', k, w, delta);
  }

  lemma AppendKeepsUnique(rows: seq<Txn>, t: Txn)
    requires UniqueReferences(rows) && !ReferenceTaken(rows, t.provider, t.reference)
    ensures UniqueReferences(rows + [t])
  {
  }

  lemma RewriteKeepsUnique(rows: seq<Txn>, i: nat, u: Txn)
    requires UniqueReferences(rows) && i < |rows|
    requires u.provider == rows[i].provider && u.reference == rows[i].reference
    ensures UniqueReferences(rows[i := u])
  {
  }

  lemma BookIsMovement(d: Db, row: Txn)
    requires row.walletId.Some? && row.walletId.value < |d.wallets| && Moves(row)
    ensures Movement(d, Book(d, row), |d.rows|, row.walletId.value, Effect(row))
  {
  }

  lemma SettleIsMovement(d: Db, i: nat, w: nat, resolver: Option<string>)
    requires i < |d.rows| && w < |d.wallets|
    requires d.rows[i].direction.Credit? && !d.rows[i].status.Successful?
    ensures Movement(d, Settle(d, i, w, resolver), i, w, d.rows[i].amount)
  {
  }

  lemma BookKeepsSound(d: Db, row: Txn)
    requires Sound(d) && Moves(row) && !ReferenceTaken(d.rows, row.provider, row.reference)
    requires row.walletId.Some? && row.walletId.value < |d.wallets|
    requires d.wallets[row.walletId.value] + Effect(row) >= 0
    ensures Sound(Book(d, row))
  {
    BookIsMovement(d, row);
    AppendKeepsUnique(d.rows, Book(d, row).rows[|d.rows|]);
    MovementKeepsSound(d, Book(d, row), |d.rows|, row.walletId.value, Effect(row));
  }

  lemma SettleKeepsSound(d: Db, i: nat, w: nat, resolver: Option<string>)
    requires Sound(d) && i < |d.rows| && w < |d.wallets|
    requires d.rows[i].direction.Credit? && !d.rows[i].status.Successful? && d.rows[i].amount >= 0
    ensures Sound(Settle(d, i, w, resolver))
  {
    SettleIsMovement(d, i, w, resolver);
    RewriteKeepsUnique(d.rows, i, Settle(d, i, w, resolver).rows[i]);
    MovementKeepsSound(d, Settle(d, i, w, resolver), i, w, d.rows[i].amount);
  }
}
