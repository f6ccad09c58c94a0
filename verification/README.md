# Verified model of the wallet ledger and the protocols around it

The payment service keeps customers' money in two tables: `wallets` and
`transactions`. Six protocols move that money through the same two operations,
`creditForUpdate` and `debitForUpdate`: payouts, bill payments, their
reversals, inbound deposits, staff postings and the assignment of unmatched
deposits. They run at the same time, over a provider that answers SUCCESSFUL,
FAILED, HOLD or REQUERY, over queues that redeliver jobs, and over processes
that die between two statements. This project says what survives all of that,
and proves it.

Money is an integer number of 1/10000 naira, the scale of the columns. Time is
an integer (milliseconds; seconds in the attempt limiter). Rows are never
deleted, so a row's id is its position in its table.

## How it is laid out

- `Ledger` is the database as a value, with one function for each committed
  database transaction, and `Sound`, what every committed write keeps.
- `Machine` makes a step of each committed transaction, each unlocked read
  (whose value may then be stale), each provider answer, crash and
  redelivery. A run is any sequence of steps. `Safety` proves the invariant.
- `Statements`, `Refunds`, `Open`, `Limits`, `Prices` and `Reconciliation` hold
  the claims over all runs. `Inward` has the webhooks before them. `Gaps`, `Crediting` and `Overlap` hold the runs in which a claim
  fails when its condition is dropped.
- `Services` and `AdminPostings` are the services in the form they have in the
  source, classes whose methods change fields statement by statement. Each
  method is proved to leave the state that the function used by the state
  machine gives, so the claims about runs are claims about runs of these
  methods.
- `MakerChecker` joins the console's postings to the payment service over a
  connection that loses requests and replies; the service's first lookup of a
  reference and its commit are steps of their own. `Delivery` proves what every run
  keeps, `Settled` what one posting whose calls do not overlap keeps besides,
  `ExactlyOnce` draws the claims, and `Approvals` says who may do what.
- `Charges`, `AttemptLimiter`, `Tokens`, `Sessions`, `Broadcast` and `Csv` are
  the smaller cores, each with its own runs. `Sums` and `Prelude` are shared.

## Where a promise needs a condition

- *Refunded exactly when failed* holds for every payout or bill that the
  provider does not answer both SUCCESSFUL and FAILED. Success is written
  without looking at the row again, so two callers told different things can
  leave a refunded payout SUCCESSFUL (`Gaps.ContradictionSeparatesThem`). A row
  ends like that exactly when, somewhere in the run, success was written over
  it while it was FAILED (`Refunds.RevivedExactlyByOverwriting`).
- *The daily cap* and *the two free payouts* count rows by `created_at`, which
  the database sets when the transaction starts, from a midnight the service
  computes once it holds the wallet row. A payout that waits for that row past
  Lagos midnight is dated on one day and checked on the next: it comes late for
  its day. In every run the day's total exceeds the cap, and the free payouts
  two, by at most what came late (`Limits.DailyCapHolds`,
  `Limits.AtMostTwoFreeAreOpen`), and for each pair of instants of which the
  dating one lies on an earlier Lagos day there are runs that reach that
  (`Gaps.CapNeedsTheDay`, `Gaps.FreeSlotsNeedTheDay`).
- *The rows that are not FAILED*, which is what the service counts, are the
  unrefunded ones and those that were refunded and then written SUCCESSFUL
  over (`Limits.NonFailedIsOpenOrRevived`). There are none of the latter if no
  reference is answered both ways. Otherwise a refund makes room, another
  payout takes it, and the first comes back: the cap, counted like that, is
  overrun by exactly those rows (`Gaps.RevivedRowOverrunsCap`).
- *A refund* is paid once, unless another row of the same provider already has
  the reference `REV-<reference>`, whatever that row is; then none is paid
  (`Refunds.ReversalsPayOnce`).
- *Exactly-once postings* holds in every run, with any number of calls for one
  posting out at once, as when the console gives up on a call that the payment
  service is still carrying out and the approver approves again: at most one
  row is a posting's doing, a POSTED posting names it, and one that is PENDING,
  REJECTED or CANCELLED has none. So has a FAILED credit, whose deposit is
  another customer's for good. A FAILED debit has none if its own calls were
  made one at a time; for every amount there is a run with two out at once in
  which it has one (`Overlap.OverlappingApprovalsBreakIt`). Two POSTED postings
  can name one row exactly when both assign the same deposit. Any 4xx answer
  marks a posting FAILED; one that the payment service did not decide is right
  exactly when no earlier call had been applied
  (`Overlap.TurnedAwayIsRightUnlessApplied`).
- *A reuse response empties the session*, and a revocation of all of a user's
  tokens the user, exactly when no token added between the UPDATE's read and its
  write is still live, so always when no rotation or sign-in commits in between (`Tokens.SweepEmptiesExactly`,
  `Tokens.QuietSweepEmpties`). Under READ COMMITTED one can
  (`Tokens.RotationSlipsPastSweep`).
- *Five guesses in any fifteen minutes* needs the calls to commit in the order
  of their clocks; `now()` is read before the row lock is waited for. With
  clocks at most d seconds out of order any fifteen minutes less 2d hold at
  most five (`AttemptLimiter.AnyWindowHoldsFive`), and for every d one second
  more can hold six (`AttemptLimiter.WindowCannotBeLonger`).
- *Crediting and closing a deposit* decide from a status read without a lock.
  With one instance of a job at a time that is safe; without it, each of the
  two writes is right exactly when the row is not yet credited
  (`Crediting.CreditingIsSafeUnlessCredited`,
  `Crediting.ClosingDepositIsSafeUnlessCredited`). A credit that commits while its
  worker hears an error is harmless on any attempt but the last, whatever runs
  before the next one; on the last the row ends FAILED with its money in the
  wallet
  (`Crediting.NextAttemptLooksAgain`, `Crediting.LastAttemptLosesTheRow`).
- *The CSV round trip* holds exactly when every record has a column: a record
  of none is written as an empty line, which reads as one empty field.

## Where the code and its comments differ

- The comments at apps/payment/src/payouts/payouts.service.ts:657-659 and
  apps/payment/src/bills/bills.service.ts:561-562 say the reversal re-reads the
  transaction inside the lock. The read takes no lock; the model follows the
  code, and the unique `REV-` row is what keeps the second refund out.
- The message at apps/admin/src/postings/postings.service.ts:293 says approving
  again retries safely. It never moves money twice, but a debit retried while
  its first call is still being carried out can end FAILED with its money moved.
- The name `transferFees` at
  apps/payment/src/internal/reconciliation.service.ts:137 suggests transfers
  only. The fees of bills are part of it
  (`Reconciliation.TransferFeesAreOwnFees`).

## Model

| member | source | states |
|---|---|---|
| Services.WalletsService.CreditForUpdate | apps/payment/src/wallets/wallets.service.ts:62-83 | raises one existing wallet by the amount and no other; an unknown wallet changes nothing |
| Services.WalletsService.DebitForUpdate | apps/payment/src/wallets/wallets.service.ts:90-113 | lowers the wallet by the amount unless that would overdraw it or it does not exist, and then changes nothing |
| Services.Database.InsertMoved | apps/payment/src/database/migrations/1786816000000-ReplaceLedgerWithTransactions.ts:58 | a second row with the same provider and reference is refused, any other is stored with the balance it left |
| Services.PayoutsService.InitiatePayout | apps/payment/src/payouts/payouts.service.ts:221-266 | the six ways it is refused, in their order, each leaving the database as it was; otherwise one row and one debit of amount plus charges |
| Services.PayoutsService.ChargesFor | apps/payment/src/payouts/payouts.service.ts:348-375 | the fee is waived exactly while the switch is on and fewer than two payouts that did not fail were made since Lagos midnight |
| Services.PayoutsService.AssertWithinTransferLimit | apps/payment/src/payouts/payouts.service.ts:425-453 | refusing on the remainder clamped at zero refuses exactly what overruns the window, and the remainder reported is never negative |
| Services.PayoutsService.CheckCaps | apps/payment/src/payouts/payouts.service.ts:463-506 | refuses exactly amounts over the per-transfer cap or over what the day's cap leaves, and nothing when not enforced |
| Services.PayoutsService.ReverseFailedPayout | apps/payment/src/payouts/payouts.service.ts:660-714 | with the status as an earlier read saw it: marks FAILED, credits amount plus fee and inserts the reversal, or, if the reversal row exists already, leaves everything as it was |
| Services.PayoutsService.ApplyTransferResult | apps/payment/src/payouts/payouts.service.ts:596-637 | which of the four answers changes the row, refunds it, or queues a re-query, that HOLD and REQUERY change nothing, and that a refused reversal is thrown on |
| Services.PayoutsService.SyncPayoutStatus | apps/payment/src/payouts/payouts.service.ts:288-342 | a re-query of a final or missing row changes nothing; any other does what its answer says, and reports FAILED only if the reversal was not refused |
| Services.BillsService.PayBill | apps/payment/src/bills/bills.service.ts:286-325 | amount and fee are debited together, the caps see the amount alone, every refusal undoes everything |
| Services.BillsService.ApplyResult | apps/payment/src/bills/bills.service.ts:351-389 | a success marks, a failure refunds or throws the refusal on, anything else only queues a re-query |
| Services.BillsService.ReverseFailedBill | apps/payment/src/bills/bills.service.ts:563-609 | the same transaction as a payout's reversal, refused by the same unique row |
| Services.BillsService.SyncBillStatus | apps/payment/src/bills/bills.service.ts:526-559 | rows that are not bills are not found, final ones are left alone, the rest follow the answer, a refused reversal being thrown on |
| Services.TransactionsService.RecordPayin | apps/payment/src/transactions/transactions.service.ts:54-113 | a known reference or session id inserts nothing; otherwise one PENDING row with a job, or one UNMATCHED row without |
| Services.TransactionsProcessor.Run | apps/payment/src/transactions/transactions.processor.ts:38-88 | wherever its process dies: a final row is left alone; a credit with a wallet is settled once; one without ends PROCESSING and throws |
| Services.TransactionsProcessor.HandleFailed | apps/payment/src/transactions/transactions.processor.ts:100-122 | only the last failed attempt closes the row as FAILED |
| Services.PaymentPostings.Post | apps/payment/src/internal/postings.service.ts:52-100 | whichever way an earlier row with the reference is found, before or at the unique index, the caller gets that row and no money moves again |
| Services.UnmatchedService.Assign | apps/payment/src/internal/unmatched.service.ts:35-88 | the parked row itself becomes the wallet's credit; the same assignment again is a replay; anything else is refused |
| Services.WebhooksService.HandleInwardCredit | apps/payment/src/webhooks/webhooks.service.ts:40-154 | a deposit is recorded exactly when the provider's own record is a success that confirms amount, destination and, where both name one, source |
| Inward.ReceivedExactly | apps/payment/src/webhooks/webhooks.service.ts:72-153 | a webhook adds a row if and only if the provider answers a success whose record has the claimed amount and account, no other source, and the reference and session are new |
| Inward.ForgedWebhooksAddNothing | apps/payment/src/webhooks/webhooks.service.ts:93-153 | over any webhooks, true or forged, every row they add has the amount the provider's book has for its reference and the wallet behind the account that received it, and no balance moves |
| Safety.RunKeepsInv | apps/payment/src/wallets/wallets.service.ts:62-113 | every state of every interleaving keeps the ledger sound, each row in shape, each refund tied to one debit, each job and parked deposit in its place |
| Statements.BalanceIsCreditsMinusDebits | apps/payment/src/wallets/wallets.service.ts:75-112 | a balance is the sum of the wallet's SUCCESSFUL credits less amount plus fee of all its debits whatever their status, and is not negative |
| Statements.StatementChainsToBalance | apps/payment/src/payouts/payouts.service.ts:226-260 | in commit order each row's balance is the one before plus its credit or minus its amount and fee; the last is the wallet's; every row that moved money is there |
| Refunds.AtMostOneRefund | apps/payment/src/payouts/payouts.service.ts:662-709 | any two refunds of one payout or bill are one row, of amount plus fee, into the debited wallet, entered once |
| Refunds.ReversalsPayOnce | apps/payment/src/payouts/payouts.service.ts:660-709 | any number of reversals of one debit, all on stale reads, pay it back once if none was paid and one commits, and otherwise leave the database unchanged, wallet credits included |
| Refunds.RefundGivesBackWhatWasTaken | apps/payment/src/bills/bill-fee.ts:22-36 | whatever runs in between, reversals give back to the wallet exactly the amount and charges, or the amount and bill fee, that the payout or bill took from it, or nothing |
| Refunds.FailedExactlyWhenRefunded | apps/payment/src/payouts/payouts.service.ts:673-709 | a payout or bill that was not answered both ways is FAILED if and only if there is exactly one reversal of amount plus fee for it, whatever was answered for any other |
| Refunds.OnlyOverwritingSeparatesThem | apps/payment/src/payouts/payouts.service.ts:612-616 | without that condition the two part exactly where a success stands on a refunded row, and then both answers were given |
| Refunds.RevivedExactlyByOverwriting | apps/payment/src/payouts/payouts.service.ts:609-620 | over every run, a payout or bill ends SUCCESSFUL and refunded if and only if some step of it wrote success over the row while it was FAILED |
| Refunds.RefundedOnlyIfSeenUndecided | apps/payment/src/payouts/payouts.service.ts:663-672 | no payout or bill is refunded that every reversal found final |
| Refunds.UndecidedStaysProcessing | apps/payment/src/payouts/payout-status-query.processor.ts:23-68 | while every answer was HOLD or REQUERY the row is PROCESSING and not refunded |
| Refunds.QuietRunsMoveNothing | apps/payment/src/payouts/payouts.service.ts:288-342 | re-queries, undecided answers, exhausted retries, crashes and abandoned workers never change a balance or the journal |
| Statements.DepositCreditedAtMostOnce | apps/payment/src/transactions/transactions.processor.ts:38-88 | one provider and reference is one row and at most one movement, of its recorded amount, by the worker or by assignment and never both |
| Statements.UncreditedUntilSuccessful | apps/payment/src/internal/unmatched.service.ts:44-88 | a deposit is SUCCESSFUL if and only if its one credit is in the journal |
| Statements.RunsOnlyAppend | apps/payment/src/payouts/payouts.service.ts:689-692 | later steps never rewrite a movement, nor the amount, fee, reference, direction or wallet of a row |
| Open.StepInOpen | apps/payment/src/payouts/payouts.service.ts:393-420 | what each step adds to or takes from any total over unrefunded payouts and bills: a new one adds its own figure, a refund takes exactly it away, nothing else matters |
| Limits.DailyCapHolds | apps/payment/src/payouts/payouts.service.ts:476-506 | over every run with enforcement on, unrefunded payouts and bills of a wallet dated in a Lagos day exceed the cap by at most what was dated on that day and checked on a later one; never if nothing was |
| Limits.NonFailedWithinCap | apps/payment/src/payouts/payouts.service.ts:397-420 | the same for rows that are not FAILED, plus those revived after a refund, of which there are none when no reference is answered both ways |
| Limits.NonFailedIsOpenOrRevived | apps/payment/src/payouts/payouts.service.ts:408-416 | in every state any total over the payouts and bills that are not FAILED is that over the unrefunded ones plus that over the refunded ones written SUCCESSFUL over |
| Limits.AtMostTwoFreeAreOpen | apps/payment/src/payouts/payouts.service.ts:348-375 | at most two unrefunded payouts per wallet and Lagos day carry no transfer fee, but for those checked on a later day, whatever the switch does and whatever fails |
| Limits.AtMostTwoFreePayouts | apps/payment/src/payouts/fee.util.ts:19 | the same for payouts that are not FAILED, plus those revived after a refund, of which there are none when no reference is answered both ways |
| Limits.DeviceLimitIsExact | apps/payment/src/payouts/payouts.service.ts:425-453 | in every reachable state a payout is refused for the device limit exactly when it and what the wallet has spent since, refunds given back, overrun it, and one let through leaves that within it |
| Limits.DeviceLimitHolds | apps/payment/src/payouts/payouts.service.ts:239-244 | over every run, with bills, refunds and concurrent payouts mixed in, the unrefunded payouts dated in the window never exceed the limit |
| Prices.PayoutIsRefusedExactly | apps/payment/src/payouts/payouts.service.ts:221-266 | in every reachable state, which of the six refusals a payout gets or that it goes through: funds against amount and price, limits against what the wallet has spent with refunds given back, in units and times |
| Prices.PayoutTakesExactly | apps/payment/src/payouts/payouts.service.ts:348-375 | a payout that goes through takes its amount and the levy, and the tier's price with VAT unless the switch is on and fewer than two payouts of the wallet stand since Lagos midnight |
| Prices.ReversalFreesTheSlot | apps/payment/src/payouts/payouts.service.ts:363-371 | a committed reversal of a payout lowers the number that stand by exactly one |
| Prices.PerTransferCapHolds | apps/payment/src/payouts/payouts.service.ts:484-490 | over every run with enforcement on, no payout or bill of a wallet is above its per-transfer cap |
| Prices.BillIsRefusedExactly | apps/payment/src/bills/bills.service.ts:286-325 | in every reachable state, which of the five refusals a bill gets or that it goes through |
| Prices.BillTakesExactly | apps/payment/src/bills/bill-fee.ts:7-36 | a bill that commits takes its amount and the biller's convenience fee, and the configured fee besides for everything but airtime and data |
| Prices.StartOfLagosDayIsMidnight | apps/payment/src/payouts/payouts.service.ts:456-460 | the day starts at the last multiple of 24 hours, an hour ahead of UTC |
| Reconciliation.DifferenceExplained | apps/payment/src/internal/reconciliation.service.ts:104-109 | provider minus ledger is always its start, plus fees of unrefunded debits, plus deposits not credited, plus amounts not sent, less net staff adjustments and what was both sent and refunded |
| Reconciliation.DifferenceWithHonestProvider | apps/payment/src/internal/reconciliation.service.ts:104-109 | the same over debits that are not FAILED, with nothing sent and refunded, when answers agree with what left |
| Reconciliation.TransferFeesAreOwnFees | apps/payment/src/internal/reconciliation.service.ts:134-140 | the reported transfer fees are the base fees of the window's payouts and the fees of its bills |
| Reconciliation.RunsAddUp | apps/payment/src/internal/reconciliation.service.ts:54-109 | refunds and open debits make up all debits, credited and uncredited deposits all arrivals, and the pool its arrivals less what was sent, in every state |
| Gaps.ContradictionSeparatesThem | apps/payment/src/payouts/payouts.service.ts:612-620 | a run in which both answers are given and a refunded payout ends SUCCESSFUL |
| Gaps.CapNeedsTheDay | apps/payment/src/payouts/payouts.service.ts:456-460 | for any two instants of which the dating one lies on an earlier Lagos day than the checking one, a run that sends twice the cap |
| Gaps.FreeSlotsNeedTheDay | apps/payment/src/payouts/payouts.service.ts:363-371 | for any such two instants, a run with three free payouts dated on one day |
| Gaps.RevivedRowOverrunsCap | apps/payment/src/payouts/payouts.service.ts:408-416 | at any instant, a run under enforcement in which the rows that are not FAILED are twice the cap |
| Crediting.ClosingDepositIsSafeUnlessCredited | apps/payment/src/transactions/transactions.processor.ts:119-122 | closing a deposit as FAILED keeps balances equal to their rows exactly when it was not credited |
| Crediting.CreditingIsSafeUnlessCredited | apps/payment/src/transactions/transactions.processor.ts:73-84 | crediting it keeps them equal exactly when it was not credited before |
| Crediting.LastAttemptLosesTheRow | apps/payment/src/transactions/transactions.processor.ts:100-122 | a credit whose commit is not acknowledged on the last attempt ends FAILED, with all else, its money in the wallet included, as if it had been; the balance is no longer the sum of the rows |
| Crediting.NextAttemptLooksAgain | apps/payment/src/transactions/transactions.service.ts:106-110 | with an attempt left, whatever else runs during the backoff the ledger stays sound, and after the next attempt looked at the row everything is as if the worker had heard |
| Crediting.CreditedAndFailed | apps/payment/src/transactions/transactions.processor.ts:38-122 | a run that gets there |
| MakerChecker.PayKeepsOffice | apps/admin/src/postings/postings.service.ts:213-297 | nothing else the payment service does disturbs a posting, its row or its approval in flight |
| Delivery.RunsKeepOffice | apps/admin/src/postings/postings.service.ts:194-329 | the joint invariant of console and payment service, over every run, however many calls of a posting are out at once |
| Delivery.ServedCallCarriesOut | apps/admin/src/postings/postings.service.ts:251-264 | the call that approving a direct posting sends is refused exactly when the wallet cannot take it, and otherwise moves the wallet by the amount in its direction and answers with the row that carries it out |
| Delivery.ServedCallAssigns | apps/admin/src/postings/postings.service.ts:244-250 | the call that approving an assignment sends turns the deposit's own row into the customer's credit |
| Settled.RunsStaySettled | apps/admin/src/postings/postings.service.ts:213-236 | over every run that makes this posting's calls one at a time, others' any way, a refusal on its way back or recorded is the truth |
| Approvals.NobodyDecidesOnTheirOwn | apps/admin/src/postings/postings.service.ts:213-329 | over every run a posting is withdrawn by whoever requested it and approved or rejected by someone else |
| Approvals.OnlyTheDeciderSends | apps/admin/src/postings/postings.service.ts:213-236 | whoever sends a posting, first or again, did not request it and is its one decider, then and ever after |
| Approvals.OneOpenPostingPerDeposit | apps/admin/src/database/migrations/1790930000000-PostingSourceTransaction.ts:13-19 | over every run no deposit has two postings that are pending or processing |
| ExactlyOnce.MovedAtMostOnce | apps/payment/src/internal/postings.service.ts:52-100 | in every run and whatever its status, at most one row is a posting's doing, and it carries out that posting to the letter |
| ExactlyOnce.PostedMovedMoneyOnce | apps/admin/src/postings/postings.service.ts:229-268 | in every run a POSTED posting names the one row that carries it out, with its wallet, amount, direction and recorded balance, and no other row is its doing |
| ExactlyOnce.UnpostedMovedNothing | apps/admin/src/postings/postings.service.ts:274-283 | in every run one that is PENDING, REJECTED, CANCELLED or a FAILED credit moved no money; nor did a FAILED debit whose own calls were made one at a time |
| ExactlyOnce.FailedCreditLostItsDeposit | apps/payment/src/internal/unmatched.service.ts:44-66 | a FAILED credit would have assigned a deposit that is another customer's, in every later state |
| ExactlyOnce.StaffMoneyHasAPosting | apps/payment/src/internal/postings.service.ts:52-100 | in every run every staff movement and assignment belongs to an approved posting of exactly its terms, which is FAILED only if it is a debit whose calls overlapped |
| ExactlyOnce.PostedShareOnlyADeposit | apps/admin/src/database/migrations/1790930000000-PostingSourceTransaction.ts:13-19 | in every run two POSTED postings name one row if and only if they assign one deposit |
| Overlap.OverlappingApprovalsBreakIt | apps/admin/src/postings/postings.service.ts:223-236 | for every amount, a run in which a debit of it, covered when it was asked for, ends FAILED with its money moved: the console gave up on its first call, the second was refused, the first came after |
| Overlap.TurnedAwayIsRightUnlessApplied | apps/admin/src/postings/postings.service.ts:274-283 | with calls made one at a time every record is right, and recording a 4xx that the payment service did not decide keeps them so if and only if no earlier call for the posting was applied |
| Overlap.AppliedAndTurnedAway | apps/admin/src/postings/postings.service.ts:274-283 | a run in which a retry of an applied call is turned away and the posting ends FAILED |
| AdminPostings.PostingsService.Request | apps/admin/src/postings/postings.service.ts:87-166 | exactly when a request is taken, that one for a deposit takes direction and amount from the deposit, and that a second open one is a conflict |
| AdminPostings.PostingsService.Claim | apps/admin/src/postings/postings.service.ts:194-211 | only a PENDING posting is moved, and only then does the caller learn it won |
| AdminPostings.PostingsService.BeginApproval | apps/admin/src/postings/postings.service.ts:213-264 | from a stale read: the call goes out only for a request of someone else and only from whoever holds the claim, and is the one `Delivery` shows to carry the posting out |
| AdminPostings.PostingsService.FinishApproval | apps/admin/src/postings/postings.service.ts:262-296 | an answer decides the posting, no answer leaves it PROCESSING |
| AdminPostings.PostingsService.Reject | apps/admin/src/postings/postings.service.ts:299-313 | succeeds exactly for a PENDING posting of someone else |
| AdminPostings.PostingsService.Cancel | apps/admin/src/postings/postings.service.ts:315-329 | succeeds exactly for one's own PENDING posting |
| Charges.VatIsNearestKobo | apps/payment/src/payouts/fee.util.ts:22-25 | the VAT-inclusive fee is the one multiple of a kobo within half a kobo of 1.075 times the fee, the upper of two |
| Charges.FeePayingTotalGrows | apps/payment/src/payouts/fee.util.ts:13-37 | a larger amount never costs a smaller total, and a free slot never costs more than a paid one |
| Charges.ChargeSplits | apps/payment/src/payouts/payouts.service.ts:358-373 | total less VAT and duty is the base fee, which is zero exactly for a free payout |
| Charges.LagosDaysPartitionTime | apps/payment/src/payouts/payouts.service.ts:456-460 | every instant lies in exactly the day that starts at the last midnight, an hour ahead of UTC |
| AttemptLimiter.Secret.ReserveAttempt | apps/admin/src/auth/auth.service.ts:58-81 | an attempt is admitted exactly when there is no lock or it has run out, and is counted before anything is checked |
| AttemptLimiter.Secret.GuardedVerify | apps/auth/src/users/users.service.ts:231-273 | whatever other calls do to the row while it checks: a refused call evaluates nothing and changes nothing; a right answer clears the counter; the alert fires exactly on the wrong answer that locks |
| AttemptLimiter.AnyWindowHoldsFive | apps/auth/src/users/users.service.ts:231-273 | however calls interleave, with clocks at most d seconds out of commit order, any 15 minutes less 2d hold at most five evaluated guesses |
| AttemptLimiter.GuessRateIsBounded | apps/auth/src/users/users.service.ts:231-273 | n guesses over a span T satisfy n <= 5 * (floor((T + d) / (900 s - 2d)) + 1), which for clocks in order is 5 * (floor(T / 900 s) + 1) |
| AttemptLimiter.OneTripPerRound | apps/admin/src/auth/auth.service.ts:58-81 | from any reachable row and in any clock order, the lock is reported tripped exactly once for every five guesses |
| AttemptLimiter.WindowCannotBeLonger | apps/auth/src/users/users.service.ts:242-254 | for every d up to half a lockout, calls that are d seconds out of order and put six guesses into one second more than that |
| Tokens.OneLinearChain | apps/auth/src/tokens/tokens.service.ts:85-122 | all but a session's newest token are revoked and point at the very next of the session, and no two point at one |
| Tokens.StepsOnlyRevoke | apps/auth/src/tokens/tokens.service.ts:85-122 | no step revives a token or changes a successor once given |
| Tokens.SessionsHaveOneUser | apps/auth/src/tokens/tokens.service.ts:107-114 | over every run the tokens of one session are one user's |
| Tokens.RefreshExactly | apps/auth/src/tokens/tokens.service.ts:57-122 | whatever commits between the two looks, a token live and unexpired at the first and live at the second is succeeded by one of its session and user with the expiry given; otherwise nothing is issued |
| Tokens.PreCheckDecides | apps/auth/src/tokens/tokens.service.ts:66-83 | a revoked token starts the revocation of its session, an expired one nothing |
| Tokens.EmptiedStaysEmpty | apps/auth/src/tokens/tokens.service.ts:57-122 | a session with no live token never has one again |
| Tokens.SweepEmptiesExactly | apps/auth/src/tokens/tokens.service.ts:124-146 | whatever commits between its read and its write, a revocation of a session or a user leaves no live token in its scope if and only if none added there in between is still live |
| Tokens.QuietSweepEmpties | apps/auth/src/tokens/tokens.service.ts:124-146 | so it leaves none when no rotation or sign-in of the scope commits in between |
| Tokens.RevokingAUserEndsTheirSessions | apps/auth/src/tokens/tokens.service.ts:131-136 | revoking all of a user's tokens, with nothing of the user in between, leaves none live of the user or of any session of the user |
| Tokens.RotationSlipsPastSweep | apps/auth/src/tokens/tokens.service.ts:57-129 | a run in which a rotation between its read and its write leaves a live token |
| Tokens.TokensService.RotateRefreshToken | apps/auth/src/tokens/tokens.service.ts:57-122 | with the pre-check's read as it was then: which error, what is revoked, and the rotation itself |
| Tokens.TokensService.IssueToken | apps/auth/src/tokens/tokens.service.ts:35-55 | a sign-in adds one live token to its session and changes no other |
| Tokens.TokensService.RevokeSession | apps/auth/src/tokens/tokens.service.ts:124-129 | revokes the session's live tokens and no other |
| Tokens.TokensService.RevokeAllRefreshTokensForUser | apps/auth/src/tokens/tokens.service.ts:131-136 | revokes the user's live tokens and no other |
| Tokens.TokensService.RevokeAllRefreshTokensForUserExcept | apps/auth/src/tokens/tokens.service.ts:138-146 | the same but for the tokens of one session, which stay as they were |
| Sessions.OneLiveSessionPerUser | apps/auth/src/sessions/sessions.service.ts:46-67 | in every committed state of every interleaving of sign-ins, aborts and revocations a user has at most one unrevoked session |
| Sessions.CommittedLoginIsTheOnlyOne | apps/auth/src/sessions/sessions.service.ts:46-67 | a sign-in that commits leaves its user exactly the session it inserted |
| Sessions.SessionsService.CreateExclusive | apps/auth/src/sessions/sessions.service.ts:46-67 | the user's live sessions become just the new one and no other user's change |
| Broadcast.NobodyTwice | apps/admin/src/comms/comms.processor.ts:51-63 | whatever the table does between pages, the visits are in strictly increasing id order |
| Broadcast.EveryoneActiveIsVisited | apps/admin/src/comms/comms.processor.ts:51-67 | when a page comes back empty, everyone in the audience who was ACTIVE in every version read has been visited |
| Broadcast.VisitsOnlyTheAudience | apps/admin/src/comms/comms.processor.ts:52-58 | everyone visited was ACTIVE and in the audience in a version that was read |
| Broadcast.FixedTableIsFullyScanned | apps/admin/src/comms/comms.processor.ts:51-67 | on a table nobody changes the pages together are exactly what one unpaged query returns |
| Broadcast.VisitedAreSentOnce | apps/admin/src/comms/comms.processor.ts:60-66 | each customer visited is sent one push if pushes are on and one email if emails are on and there is an address, to that address, and nothing on a channel that is off |
| Broadcast.PagesHoldFiveHundred | apps/admin/src/comms/comms.processor.ts:52-58 | a page is all that the query finds, or its first 500 |
| Broadcast.CommsProcessor.Process | apps/admin/src/comms/comms.processor.ts:43-81 | the loop ends; the messages are those of the visited in order; the stored counts are theirs; a query that fails leaves FAILED and the counts of the page before |
| Broadcast.CommsProcessor.Publish | apps/admin/src/comms/comms.processor.ts:83-120 | what is emitted per customer and channel, and that the returned number is how many |
| Csv.ToCsv | apps/admin/src/common/csv.ts:28-33 | mark, header and rows, each record ended by CRLF |
| Csv.CsvCell | apps/admin/src/common/csv.ts:13-26 | guard first, then quoting |
| Csv.RoundTrip | apps/admin/src/common/csv.ts:9-33 | a reader of section 2 of RFC 4180 gets back every guarded text in order, if and only if every record has a column |
| Csv.CellsAreInert | apps/admin/src/common/csv.ts:11-24 | each text read back is a plain negative number or starts no formula, and is the original or the original behind one apostrophe |
| Csv.GuardedExactly | apps/admin/src/common/csv.ts:11-24 | a text gets an apostrophe in front exactly when it starts with one of the six characters and is not a minus sign with digits, a point and more digits or none; any other comes back as it was |

## Left out

- HTTP controllers, guards, input validation, module wiring and configuration.
- The provider adapters: each is an oracle with the outcomes the code distinguishes. That it moves exactly the amount, at most once per reference, is assumed of the pool in `Reconciliation`.
- Notifications, receipts, Slack alerts, audit rows, logs: they never change the ledger.
- Cryptography: a secret's check is a boolean, a token hash is the token's identity.
- Amounts of more than four decimals and the two-decimal formatting of reports; numeric columns do not overflow.
- Other currencies: NGN is the only one, so the currency comparison in an assignment never fails.
- Clearing the lockouts on a support request: two columns set to their first values.
- The mapping from a biller's category text to a bill type, and the biller lookup.
- Generation of references and ids, and the wallet that is created on first use.
- `external_id`: that a deposit's session id was used before is an input, since the column's uniqueness is declared on the entity (apps/payment/src/transactions/entities/transaction.entity.ts:229) and created by no migration; the provider's id stored on a payout is not modelled.
- Two instances of one job at a time: the queue runs one. `Gaps` says exactly what depends on that.
- A commit whose acknowledgement is lost is no step of `Machine`, whose claims would fail with it; `Crediting.LastAttemptLosesTheRow` says exactly how.
- That a deposit whose row was stored but whose job was not queued is ever credited.
- Failures of the progress and completion writes of a broadcast, and its redelivery: one failing query stands for a failing page.
- The nil id: the cursor starts there, so a customer with it would never be visited (`Broadcast.NilIdIsNeverVisited`).
- RFC 4180 restricts plain fields to printable ASCII; the reader accepts any character but the four special ones, since the writer emits any.
- Values a cell turns to text with `JSON.stringify` or a date format: a cell here is missing or already text.
- The staff side's own refresh tokens, the device cap, the last-super-admin guard, searches, dashboards and caches.
- MakerChecker.PayKeepsOffice: the customer's status is not part of the run, which may therefore request more than the console would let it; `AdminPostings.PostingsService.Request` has it.
- ExactlyOnce.UnpostedMovedNothing: a refusal is one the payment service decided; one from the HTTP layer in front of it is `Overlap.TurnedAwayIsRightUnlessApplied`.
- Sessions.SessionsService.CreateExclusive: the body under the lock; the lock itself, and what other sign-ins do meanwhile, are steps of `Sessions`.
