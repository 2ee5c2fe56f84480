# funai-chain: a verified model

This project models the parts of funai-chain that move money or decide what happens to a task, and
proves what they guarantee over whole runs. It is written in Dafny 4.11; `dafny verify dfyconfig.toml`
checks all of it.

## What is modelled

**The settlement ledger** (`x/settlement`). `Ledger.dfy` holds the ledger state (accounts with balance
and frozen balance, reservations per task, settled records, fraud marks, pending audits of both tiers with
their timeout indexes, audit records, the bank) and every keeper operation as a function on it. `Keeper.dfy`
is the keeper as it runs: loops over batch rows, verifiers, results and timeout keys that write a store,
with payouts in a cached context; every method is proved equal to the function. `Runs.dfy` puts
deposits, withdrawals, reservations, batches, audit results, fraud proofs, block ends and unrelated coin
movements together into runs. The theorems follow in `Audits.dfy` (what holds of audits in every run),
`Charges.dfy` (what a task with a safe expiry is promised: single charge, truthful records, no original verifier
among its auditors, an audit that lasts as long as the timeout), `Verdicts.dfy` (who pays what in each outcome),
`Books.dfy`, `Solvency.dfy`, `Underwriting.dfy` and `Fraud.dfy`.

A Go panic is modelled: it undoes a message and would halt the chain at the end of a block. Hash and signature
checks, VRF draws and the recipients the bank refuses are inputs of the operations, so every theorem
holds for all their outcomes. The order in which a store iterator walks its keys is an input as well. A field
`hist` records what happened (debits per task, first record height, owner of a reservation and so on);
operations write it and never read it.

**Issuance and rewards** (`x/reward`): `Issuance.dfy`, `PoolSplit.dfy`, `Rewards.dfy`.
**Smaller cores**: token counts and fees (`Tokens.dfy`), fee splits (`FeeSplit.dfy`), the fund sweep
(`FundSweep.dfy`), timeout keys (`TimeoutKeys.dfy`), Merkle roots (`Merkle.dfy`), the Proposer's queues
(`Proposer.dfy`), the Leader's reservations (`Leader.dfy`), stream reassembly (`Stream.dfy`) and PII
substitution (`Pii.dfy`, with the six regular expressions in `Patterns.dfy`).

## Where the code does less than it promises

Each of these has a lemma with a concrete input or run and a lemma with the exact condition.

- Cleanup goes by the settlement height, not by the expiry. A task is charged at most once exactly when its
  expiry is 0 or at most first record + buffer + 1 (`Expiry.ExpiryIsExact`, `Expiry.RechargeRun`). The default
  buffer is 1000 and the SDK's default expiry 1440 blocks, so a task settled soon after its request is not safe.
- The same expiries decide whether an original verifier can end up among a task's second verifiers
  (`Reopened.OriginalsExact`, `Reopened.ReturnRun`).
- A record of fraud can turn into TaskFailed: the judgment that overturns a success does not look for the mark.
  That takes such an expiry and an audit timeout longer than buffer + 1, as the default of 8640 is
  (`Reopened.FraudRecordExact`, `Reopened.RewriteRun`).
- A negative fee of a successful task credits the user; that is the only way a row, a judgment or a timeout
  lowers the surplus (`Solvency.RowSurplusExact`, `Solvency.JudgeSurplusExact`,
  `Solvency.TimeoutSurplusExact`, `Solvency.NegativeFeeBreaksSolvency`).
- An audited settlement keeps the release of the reservation when the payout fails, so the later timeout can
  charge frozen money (`Uncovered.UnderwritingCanFail`, `Underwriting.SettlementUnderwrittenExact`).
- The timeout index can keep keys of entries that are gone, and the two lists of the scan then go out of step, in two
  ways. The batch accepts an empty task id, which the scan cannot read back (`EmptyIds.SweepExactIff`,
  `EmptyIds.StaleKey`). And sending a task to audit that awaits one already, which its expiry must allow,
  replaces the entry but not the key (`Reopened.KeyLeftBehind`). Nothing else does it
  (`Audits.TimeoutIndexAgrees`), and an entry with an id is listed in any case (`Audits.PendingIsListed`).
- `CommitBatch` drops as many entries as fit at commit time, not as many as were built
  (`Proposer.CommitDropsWhatWasBuilt`, `Proposer.CommitOutOfOrder`). The dispatch loop is the only caller of
  `ProcessPending` and clears nothing between build and commit (p2p/dispatch.go:698-738), so it never
  meets this; `Proposer.QueueLosesNothing` is about that loop.
- A Merkle root does not fix the number of entries: two lists have the same root exactly when they fill up to
  the same list, so a repeated last entry goes unnoticed (`Merkle.OddDuplication`, `Merkle.SameRootExact`),
  within the lengths that round up to the same power of two (`Merkle.LengthsCollideExact`).
- A pool reward so large that the rounding of its recipients is worth a coin can mint too much: exactly when
  the truncated shares of all but the last exceed it (`PoolSplit.LargeRewardOverflows`,
  `PoolSplit.SplitExactIff`).
- A match found inside an earlier placeholder cannot be restored, and nothing else can fail
  (`Pii.RoundTripExact`). With the six patterns this takes a card number that spells the number of an earlier
  placeholder, and the smallest such number is 34000000 (`Patterns.NumberCanBeCard`): up to 34000001 matches
  every prompt is given back, and for any larger number of matches some prompt is not
  (`Patterns.ThresholdExact`, `Patterns.NumberBreaksRoundTrip`).
- A second pending fee for the same user and task is never marked as reserved (`Leader.CommitExact`),
  so it is offered in every batch until it expires or is released (`Leader.RetriedUntilDone`).

Code and comments disagree in two places, and the model follows the code: the comment on
`moveAuditToReadyLocked` says that later responses are ignored, but they start a new round
(p2p/proposer/proposer.go:745-765); the comment on `CleanupExpiredTasks` says that all tasks are eventually
cleaned, but those with expiry 0 never are (x/settlement/keeper/keeper.go:2461-2484).

## Model

| member | source | states |
|---|---|---|
| `Charges.SingleCharge` | x/settlement/keeper/keeper.go:849-1093 | over every run from genesis, a task whose own expiry is the same in every batch and safe for its first record is not debited twice, whatever the mix of batches, failed payouts, audits, escalations, timeouts, fraud proofs and cleanup, and whatever the expiries of other tasks |
| `Expiry.ExpiryIsExact` | x/settlement/keeper/keeper.go:2463-2492 | some run that keeps the expiry of a task fixed charges it twice after first recording it at block `at`, if and only if that expiry is not safe for `at` |
| `Expiry.RechargeRun` | x/settlement/keeper/keeper.go:2476-2484 | the run that does it, for every unsafe expiry, block and parameters |
| `Charges.RecordsAreTruthful` | x/settlement/keeper/keeper.go:1050-1177 | over the same runs, a task recorded as failed or pending was never charged, no worker was paid for a failure, and a task recorded as settled (or later as fraud) was charged exactly once |
| `Verdicts.RowFate` | x/settlement/keeper/keeper.go:839-960 | by what the row says alone it is passed over without effect, sent to audit with its status, parties, height and price and nothing moved, or settled at once |
| `Verdicts.RowIsPriced` | x/settlement/keeper/keeper.go:967-1007 | what a row is charged by: the fee per request; MaxFee while per-token billing is off; otherwise min(i * feeIn + o * feeOut, maxFee), with i and o counts that the worker's claim and the verifiers' reports allow; only a MaxFee over 64 bits has none |
| `Verdicts.RowOutcome` | x/settlement/keeper/keeper.go:962-1207 | with that price, a row that is taken is charged min(price, balance), its verifiers sharing their ratio, the fund keeping its own and the worker getting the rest, or min(fail fee, balance) with the verifiers sharing their part and the worker getting nothing, or no balance and no coin moves; no other account and no other wallet changes; the record names the parties; a failed per-token row is recorded as such in every case |
| `Verdicts.RowPanics` | x/settlement/keeper/keeper.go:998-1157 | the only ways a row panics |
| `Verdicts.RowIsCharged` | x/settlement/keeper/keeper.go:1037-1195 | when the bank refuses nobody and holds the user's balance, the row is charged, unless it is a failed per-token row whose fail fee is zero or over the balance, which is not charged at all |
| `Verdicts.SettleAuditedOutcome` | x/settlement/keeper/keeper.go:2027-2203 | an audited task is charged exactly as a batch row of the given verdict with the price of the entry's own counts would be, or nothing moves and nothing is recorded; the latter only if a payout fails |
| `Verdicts.ResultFate` | x/settlement/keeper/keeper.go:1686-1776 | a second verifier's result that passes the checks is added, each part to its list, and the record is judged once there are enough; any other result changes nothing |
| `Verdicts.AuditVerdict` | x/settlement/keeper/keeper.go:1779-1929 | if the number of second verifiers who passed the task reaches the threshold, it is charged as a success whatever the first verdict; otherwise a success is overturned at nobody's cost and a failure confirmed; only if a payout fails does nothing move and the entry wait |
| `Verdicts.Escalation` | x/settlement/keeper/keeper.go:1800-1824 | an escalated task waits in the third tier from this block on, otherwise unchanged, and nothing moves |
| `Verdicts.TimeoutOutcome` | x/settlement/keeper/keeper.go:2404-2455 | a timeout charges by the first verdict, or in the third tier with an audit record by whether the passes reach the threshold, or, only if a payout fails, closes the task as failed at nobody's cost; the entry is gone either way |
| `Verdicts.TokenFraudOutcome` | x/settlement/keeper/keeper.go:1827-1877 | a passed audit whose median output count is off by more than the tolerance never pays the worker; the user is charged the fail ratio of the price for the second verifiers' count, or nothing if a payout fails |
| `Verdicts.MajorityDecidesCounts` | x/settlement/keeper/keeper.go:1827-1838 | wherever a majority of the second verifiers' counts lie, a settled count farther off than the tolerance is false and one within it of all of them is not |
| `Verdicts.PayoutsGoThrough` | x/settlement/keeper/keeper.go:1280-1362 | when no recipient is refused and the module account holds the user's balance, no success or fail payout can fail, whatever the fee and the verifier list |
| `Audits.PendingIsListed` | x/settlement/keeper/keeper.go:239-254 | in every reachable state a pending entry with an id has its key in the index of its tier |
| `Audits.TimeoutIndexAgrees` | x/settlement/keeper/keeper.go:239-283 | over every run in which no audit was opened for an empty id or for a task that awaited one already, pending entries and timeout keys match one to one on height and task in both tiers, and no task is in both |
| `Charges.SafeRunsAgree` | x/settlement/keeper/keeper.go:239-283 | in particular over every run in which each task's expiry is fixed and safe for its first record and no audit was opened for an empty id |
| `Audits.AuditIntegrity` | x/settlement/keeper/keeper.go:1686-1776 | in every reachable state, whatever the expiries, audit records have parallel lists and distinct second verifiers, at most the configured number; a task is judged exactly once, when its record is complete; entries are filed under their task in the tier they are flagged for, so a judgment never finds a third-tier one |
| `Charges.NoOriginalVerifier` | x/settlement/keeper/keeper.go:1715-1745 | over every run in which the task's own expiry is fixed and safe for its first record, no second verifier is among the verifiers it came with, it is in one tier at a time, and it is never sent to audit while it awaits one |
| `Reopened.OriginalsExact` | x/settlement/keeper/keeper.go:928-960 | some run that keeps the expiry of a task fixed ends with an original verifier among its second verifiers, if and only if that expiry is not safe for its first record |
| `Reopened.ReturnRun` | x/settlement/keeper/keeper.go:928-960 | the run that does it, for every unsafe expiry, block and parameters |
| `Audits.BoundedAuditLifetime` | x/settlement/keeper/keeper.go:2348-2459 | in every run, whatever the expiries, the end of a block closes exactly the entries with an id that some key at or before the tier's cutoff names and leaves all others unchanged, so no entry with an id stays that was submitted at or before the cutoff |
| `Charges.ClosedOnTime` | x/settlement/keeper/keeper.go:2348-2459 | over every run in which the task's own expiry is fixed and safe for its first record, the end of a block closes its entry exactly when it was submitted at or before the cutoff, unless it has no id |
| `Audits.JudgeKeeps` | x/settlement/keeper/keeper.go:1779-1931 | a judgment only ever sees a second-tier entry and keeps the invariant of all audits |
| `Audits.TimeoutsKeep` | x/settlement/keeper/keeper.go:2370-2459 | a sweep keeps the invariant even when its two lists are out of step, and closes exactly what a scanned key names |
| `Audits.CollectAligned` | x/settlement/keeper/keeper.go:2382-2402 | while nothing is listed but pending entries with an id, entry i of the scan belongs to key i |
| `Audits.CollectedTasks` | x/settlement/keeper/keeper.go:2382-2402 | in any case the scan collects exactly the pending entries with an id that a scanned key names |
| `Reopened.KeyLeftBehind` | x/settlement/keeper/keeper.go:239-254 | for every unsafe expiry, if audits may outlast records, a run from genesis after which an entry has two keys, one of them of the entry it replaced |
| `EmptyIds.SweepExactIff` | x/settlement/keeper/keeper.go:2384-2402 | a sweep of an exact index leaves it exact if and only if no empty id is overdue or its key is scanned last |
| `EmptyIds.StaleKey` | x/settlement/keeper/keeper.go:2388-2391 | a run from genesis with two rows, one without an id, that both time out: a key is left without an entry and an entry without a key |
| `TimeoutKeys.BigEndianOrder` | x/settlement/types/keys.go:147-153 | byte order on big-endian heights is numeric order, with the rest of the key deciding ties only |
| `TimeoutKeys.KeyRoundTrip` | x/settlement/types/keys.go:147-160 | height and task are read back from a key |
| `TimeoutKeys.ScannedByHeight` | x/settlement/keeper/keeper.go:2373-2378 | the range scan visits a key if and only if its height is at most the cutoff |
| `TimeoutKeys.ScanStaysInPrefix` | x/settlement/keeper/keeper.go:2373-2378 | the range scan visits nothing outside its prefix |
| `TimeoutKeys.TiersApart` | x/settlement/types/keys.go:27-28 | scanning one tier never meets a key of the other |
| `TimeoutKeys.RangeScanIsScan` | x/settlement/keeper/keeper.go:2378-2402 | whatever else the store holds, the keys parsed from the range are exactly the index entries up to the cutoff, each once |
| `Runs.NoOrphanedAudit` | x/settlement/keeper/keeper.go:1864-1930 | in every state and for every input, a pending entry disappears only in a step that leaves a record, a fraud mark or a third-tier entry |
| `Runs.ThirdTierOnlyTimesOut` | x/settlement/keeper/keeper.go:1803-1824 | only the end of a block removes a third-tier entry |
| `Runs.RunAdvances` | x/settlement/keeper/keeper.go:808-1093 | first records, fraud marks and accounts stay over any run; debits only add up; marked tasks are never charged or paid again |
| `Fraud.FraudIsTerminal` | x/settlement/keeper/keeper.go:2027-2035 | after a fraud mark no run debits the user or pays the worker of that task |
| `Fraud.ProofFate` | x/settlement/keeper/keeper.go:1473-1625 | a fraud proof by the task's user, against its worker, in time and with evidence marks the task and turns a settled record into TaskFraud; any other changes nothing |
| `Fraud.ClawbackExact` | x/settlement/keeper/keeper.go:1617-1650 | an accepted proof of a settled task whose worker holds fee * executor / 1000 moves exactly that from the worker's wallet to the user's, unless the bank refuses the user; in every other case no wallet changes |
| `Fraud.FraudRecordStays` | x/settlement/keeper/keeper.go:1617-1625 | a record set to TaskFraud stays exactly as it is until it is cleaned up and never comes back as anything else, whatever follows, if up to then the task's own expiry was fixed and safe for its first record |
| `Fraud.FraudRecordStaysInTime` | x/settlement/keeper/keeper.go:1617-1625 | so does one of a task with an id, whatever the expiries, if the audit timeout is at most buffer + 1 |
| `Reopened.FraudRecordExact` | x/settlement/keeper/keeper.go:1891-1905 | some run that keeps the expiry of a task with an id fixed rewrites its record of fraud, if and only if that expiry is not safe for its first record and the audit timeout is over buffer + 1 |
| `Reopened.RewriteRun` | x/settlement/keeper/keeper.go:1891-1905 | the run that does it: sent to audit, record cleaned up, settled by another batch, proved fraudulent, overturned by the audit |
| `Fraud.ClawbackWithinPayment` | x/settlement/keeper/keeper.go:1617-1650 | over every run the clawback never exceeds what the worker was paid for the task, and is zero before a fraud proof |
| `Books.StepBooks` | x/settlement/keeper/keeper.go:758-2203 | every step, from any state, conserves coins, keeps the surplus unless it credits a negative amount, keeps reservations underwritten if owned and covered, and keeps the clawback bound |
| `Books.ChargeSurplus` | x/settlement/keeper/keeper.go:1050-1093 | a charge moves the surplus by exactly the debit minus the payouts |
| `Solvency.SurplusNeverFalls` | x/settlement/keeper/keeper.go:1037-1195 | module balance minus user balances never falls over any run with fees that are not negative, failed payouts included |
| `Solvency.EveryWithdrawalIsPaid` | x/settlement/keeper/keeper.go:781-801 | in every reachable state an allowed withdrawal is paid unless the bank refuses the recipient |
| `Solvency.CoinsAreConserved` | x/settlement/keeper/keeper.go:758-801 | no run of the ledger mints or burns coins |
| `Solvency.DepositReaches` | x/settlement/keeper/keeper.go:758-779 | a deposit in ufai that the wallet covers moves its amount to the pool and the balance, and no other account or wallet changes; any other has no effect |
| `Solvency.DepositThenWithdraw` | x/settlement/keeper/keeper.go:758-801 | withdrawing what was deposited restores pool, wallets and balance |
| `Solvency.SuccessSurplusExact` | x/settlement/keeper/keeper.go:1037-1093 | a success adds the fund share of what was paid; it keeps solvency if and only if the fee is not negative |
| `Solvency.RowSurplusExact` | x/settlement/keeper/keeper.go:967-1195 | a batch row lowers the surplus if and only if it is charged at once, as a success, with a negative fee; a row sent to audit does not |
| `Solvency.AuditedSurplusExact` | x/settlement/keeper/keeper.go:2027-2203 | an audited settlement lowers it if and only if it goes ahead as a success with a negative fee |
| `Solvency.JudgeSurplusExact` | x/settlement/keeper/keeper.go:1779-1931 | a judgment lowers it if and only if the audit passes such a task and neither escalates nor finds false token counts |
| `Solvency.TimeoutSurplusExact` | x/settlement/keeper/keeper.go:2404-2455 | a timeout lowers it if and only if it settles such a task as a success |
| `Solvency.NegativeFeeBreaksSolvency` | x/settlement/keeper/keeper.go:1050-1066 | a run from genesis with a deposit of one coin and one such row, after which the module account is five coins short and an allowed withdrawal of six is not paid |
| `Underwriting.ReservationsAreUnderwritten` | x/settlement/keeper/keeper.go:2686-2733 | over every run from genesis in which each row, judgment and timeout that debits finds a live reservation of the same user, of at least the amount asked or simply of the fee (MaxFee for per-token billing), each FrozenBalance is the sum of live reservations and within the balance, no release clamps and no charge falls short |
| `Underwriting.FrozenIsReserved` | x/settlement/keeper/keeper.go:2686-2733 | as long as releases were for the reserving user, covered or not, each FrozenBalance is the sum of live reservations and no release clamps |
| `Underwriting.ReserveFate` | x/settlement/keeper/keeper.go:2622-2708 | a reservation is made exactly for a live, unrecorded, unreserved task with an id whose user has the amount unfrozen, and freezes exactly that; any other has no effect, but for the panic on an amount over 64 bits |
| `Underwriting.FeeBacksRow` | x/settlement/keeper/keeper.go:967-1007 | a reservation of the fee, or of MaxFee for per-token billing, is at least what a row can ask, as success or failure |
| `Underwriting.FeeBacksAudit` | x/settlement/keeper/keeper.go:2065-2100 | and at least what can be asked after an audit, a timeout or a ruling on token counts |
| `Underwriting.RowSettlement` | x/settlement/keeper/keeper.go:1009-1195 | every row settled at once releases its own reservation and debits min(asked, balance) or nothing |
| `Underwriting.AuditedSettlement` | x/settlement/keeper/keeper.go:2027-2203 | so does every audited settlement that goes ahead |
| `Underwriting.TokenFraudSettlement` | x/settlement/keeper/keeper.go:1840-1877 | and a ruling on false token counts, which releases before it charges |
| `Underwriting.ReleaseUnderwrittenExact` | x/settlement/keeper/keeper.go:2711-2733 | a release keeps this if and only if it is for the user who reserved |
| `Underwriting.SettlementUnderwrittenExact` | x/settlement/keeper/keeper.go:1024-1195 | any settlement, immediate or audited, success or failure, keeps it if and only if the reservation is the user's own and a debit fits the unfrozen balance or nothing else is frozen |
| `Underwriting.ReservedFeeIsPaidInFull` | x/settlement/keeper/keeper.go:1027-1195 | any settlement backed by the task's own live reservation debits exactly what is asked and keeps everything sound |
| `Underwriting.NeverFrozenAgain` | x/settlement/keeper/keeper.go:2622-2678 | over every run throughout which a task is reserved or on record, it is never frozen again, whatever is resent |
| `Underwriting.ResendingIsIgnored` | x/settlement/keeper/keeper.go:2640-2660 | a batch of reservations for taken tasks, in any order and number, changes nothing |
| `Uncovered.FailedPayoutReleases` | x/settlement/keeper/keeper.go:2063-2132 | every audited settlement that fails after its checks has released its reservation and left the entry pending |
| `Uncovered.UnderwritingCanFail` | x/settlement/keeper/keeper.go:2063-2132 | a run from genesis that ends with more frozen than the balance |
| `Keeper.Context.CacheContext` | x/settlement/keeper/keeper.go:1050-1050 | a scratch copy of the store |
| `Keeper.ProcessDeposit` | x/settlement/keeper/keeper.go:758-779 | the new store is Deposit of the old one; errors change nothing |
| `Keeper.ProcessWithdraw` | x/settlement/keeper/keeper.go:781-801 | the new store is Withdraw of the old one; a failed send undoes the debit |
| `Keeper.FreezeBalance` | x/settlement/keeper/keeper.go:2686-2708 | freezes exactly when the available balance covers the amount |
| `Keeper.UnfreezeBalance` | x/settlement/keeper/keeper.go:2711-2733 | the new store is Unfreeze of the old one, with the clamp and the denomination panic |
| `Keeper.ProcessBatchReserve` | x/settlement/keeper/keeper.go:2622-2680 | the rows fold ReserveAll over the store, and `accepted` is the number of new reservations |
| `Keeper.PayShares` | x/settlement/keeper/keeper.go:1289-1310 | pays exactly the planned shares, in order, and fails exactly when one of them cannot be sent |
| `Keeper.DistributeSuccessFee` | x/settlement/keeper/keeper.go:1280-1321 | carries out exactly the success split |
| `Keeper.DistributeFailFee` | x/settlement/keeper/keeper.go:1330-1362 | carries out exactly the fail split |
| `Keeper.Accepts` | x/settlement/keeper/keeper.go:842-889 | a row is taken if and only if none of the skip conditions holds |
| `Keeper.ForcesAudit` | x/settlement/keeper/keeper.go:910-927 | an audit is forced exactly when the worker reports output tokens and no verifier does |
| `Keeper.ResolveFee` | x/settlement/keeper/keeper.go:967-1007 | the fee of each billing mode, through the token-count methods |
| `Keeper.ChargeSuccess` | x/settlement/keeper/keeper.go:1037-1093 | debit, split and record as one unit: all of PaySuccess or nothing |
| `Keeper.ChargeFail` | x/settlement/keeper/keeper.go:1157-1195 | the same for PayFail |
| `Keeper.ChargeFailPerToken` | x/settlement/keeper/keeper.go:1109-1148 | a failed per-token task is recorded whether or not it could be charged |
| `Keeper.OpenSecondVerification` | x/settlement/keeper/keeper.go:928-960 | pending entry, timeout key and record of an audited row |
| `Keeper.SettleNow` | x/settlement/keeper/keeper.go:962-1207 | a row that is not audited ends as SettleEntry says, the release surviving a failed payout |
| `Keeper.ProcessBatchSettlement` | x/settlement/keeper/keeper.go:839-1210 | the rows fold SettleAll over the store |
| `Keeper.ChargeAuditedSuccess` | x/settlement/keeper/keeper.go:2082-2163 | the shortfall scaling of an audited charge pays exactly what was debited, so it is PaySuccess |
| `Keeper.AuditedFee` | x/settlement/keeper/keeper.go:2065-2080 | the fee of an audited task in each billing mode, through CalculatePerTokenFee, with the panic on a MaxFee out of range |
| `Keeper.SettleAuditedTask` | x/settlement/keeper/keeper.go:2027-2215 | the new store and the result are SettleAudited of the old store |
| `Keeper.DetectTokenFraud` | x/settlement/keeper/keeper.go:1827-1838 | reports fraud exactly when the median of the second verifiers is off by more than the tolerance |
| `Keeper.ProcessAuditJudgment` | x/settlement/keeper/keeper.go:1779-1931 | the new store is Judge of the old one |
| `Keeper.ProcessSecondVerificationResult` | x/settlement/keeper/keeper.go:1686-1776 | the new store is AuditResult of the old one |
| `Keeper.ProcessSecondVerificationResults` | x/settlement/keeper/keeper.go:3106-3150 | a batch of results folds AuditAll over the store |
| `Keeper.ProcessFraudProof` | x/settlement/keeper/keeper.go:1473-1650 | the new store is FraudProof of the old one |
| `Keeper.CollectTimedOut` | x/settlement/keeper/keeper.go:2382-2402 | the first loop of the scan is Collect |
| `Keeper.FinishTimedOut` | x/settlement/keeper/keeper.go:2404-2455 | one timed-out entry ends as Finish says |
| `Keeper.ProcessTimeoutsByIndex` | x/settlement/keeper/keeper.go:2370-2459 | both loops together are Sweep over Collect |
| `Keeper.GatherExpired` | x/settlement/keeper/keeper.go:2469-2487 | lists exactly the records due for cleanup, each once |
| `Keeper.CleanupExpiredTasks` | x/settlement/keeper/keeper.go:2463-2492 | the new store is Cleanup of the old one |
| `Keeper.EndBlocker` | x/settlement/module.go:128-147 | cleanup, then both sweeps: EndBlock |
| `FeeSplit.DedupVerifierResults` | x/settlement/keeper/keeper.go:1248-1265 | the first-seen distinct addresses |
| `FeeSplit.DedupSpec` | x/settlement/keeper/keeper.go:1248-1265 | exactly the nonempty addresses of the input, each once |
| `FeeSplit.DedupOrder` | x/settlement/keeper/keeper.go:1248-1265 | in the order in which they are first listed |
| `FeeSplit.EvenShares` | x/settlement/keeper/keeper.go:1286-1310 | out of a pool for n unique verifiers every decodable one before the last gets exactly a n-th of it, the last one what they leave, and nobody else anything |
| `FeeSplit.SuccessReaches` | x/settlement/keeper/keeper.go:1280-1321 | a success split changes the wallets by exactly these shares of fee * verifier / 1000 and by the worker's rest after the fund's fee * fund / 1000 |
| `FeeSplit.FailureReaches` | x/settlement/keeper/keeper.go:1330-1362 | a fail split changes them by exactly the shares of fee * verifier / (verifier + fund) |
| `FeeSplit.SuccessSplitExact` | x/settlement/keeper/keeper.go:1280-1321 | for every verifier list a success split pays out exactly the fee minus the fund share |
| `FeeSplit.FailSplitBound` | x/settlement/keeper/keeper.go:1330-1362 | a fail split pays at most the verifier share, and all of it when the last unique verifier can be paid |
| `FeeSplit.NoDoublePay` | x/settlement/keeper/keeper.go:1285-1310 | no account is paid twice out of one verifier pool |
| `FeeSplit.WorkerShareAtLeastExecutor` | x/settlement/keeper/keeper.go:1312-1318 | the worker gets at least the executor ratio that a fraud proof would claw back |
| `FeeSplit.PayAllSucceeds` | x/settlement/keeper/keeper.go:1302-1320 | a list of payouts goes through if and only if the pool covers it and nobody is refused |
| `FundSweep.CountPersonTimes` | x/settlement/keeper/keeper.go:1389-1404 | the counts are the multiset of auditors of the epoch, and their total its size |
| `FundSweep.PayByCount` | x/settlement/keeper/keeper.go:1423-1455 | makes exactly the payouts that are due, passing over the undecodable and the refused |
| `FundSweep.AppearancesAreAudits` | x/settlement/keeper/keeper.go:1389-1404 | everybody counts as often as they are listed in the records of the epoch, which is a hundred blocks |
| `FundSweep.DistributeMultiVerificationFund` | x/settlement/keeper/keeper.go:1366-1466 | never pays more than the fund pool, and exactly the pool when every auditor can be paid, for every order of the auditors; if the module account covers the pool, each auditor who can be paid gets a share per audit times the number of audits, the last one the rest, and nobody else anything |
| `Tokens.MedianUint32` | x/settlement/keeper/keeper.go:3022-3039 | sorts the array in place into a sorted permutation and returns its median |
| `Tokens.MedianRobust` | x/settlement/keeper/keeper.go:3022-3039 | if a strict majority of the reports lie in an interval, so does the median |
| `Tokens.MedianRank` | x/settlement/keeper/keeper.go:3022-3039 | the median is one of the values, with more than half of them up to it and at least half from it on; of two values it is their mean |
| `Tokens.ResolveTokenCounts` | x/settlement/keeper/keeper.go:2956-2992 | resolves one count as Resolve does, zero reports left out |
| `Tokens.ResolvedNearMajority` | x/settlement/keeper/keeper.go:2956-3019 | whatever the worker claims, the resolved count is within tolerance of an honest majority's interval |
| `Tokens.ResolvesAs` | x/settlement/keeper/keeper.go:2956-3019 | without reports the count is the worker's claim; it is within tolerance of wherever most reports are; if the reports agree it is the claim when that is within tolerance of them and otherwise what they say |
| `Tokens.EffectiveTolerance` | x/settlement/keeper/keeper.go:2995-3001 | the larger of the two tolerances, exact while the 32-bit product does not wrap |
| `Tokens.OverflowTest` | x/settlement/keeper/keeper.go:3046-3053 | dividing a wrapped 64-bit product back detects overflow exactly |
| `Tokens.CalculatePerTokenFee` | x/settlement/keeper/keeper.go:3043-3060 | equals min(input * feeIn + output * feeOut, maxFee) over unbounded integers |
| `Issuance.HalvingIsDivision` | x/reward/keeper/keeper.go:76-79 | iterated halving is one division by a power of two |
| `Issuance.CalculateBlockReward` | x/reward/keeper/keeper.go:70-84 | base / 2^k after k halvings, nothing from the 64th on |
| `Issuance.IssuanceCap` | x/reward/keeper/keeper.go:70-84 | the rewards of heights 1..H never exceed twice the base reward times the halving period |
| `Issuance.DefaultCap` | x/reward/types/params.go:12-18 | at the defaults that is the total supply |
| `Issuance.CalculateEpochReward` | x/reward/keeper/keeper.go:87-100 | the sum of the block rewards of its epoch |
| `Issuance.EpochsTile` | x/reward/module.go:119-128 | the epochs fired up to a height mint the rewards of every height up to the last boundary exactly once |
| `Issuance.EpochOfHeight` | x/reward/keeper/keeper.go:118-118 | a height belongs to one epoch, with the number the keeper computes |
| `Issuance.EpochsWithinCap` | x/reward/module.go:119-128 | all epochs together stay within the cap |
| `PoolSplit.PartSumAtMost` | x/reward/keeper/keeper.go:195-203 | rounded shares exceed their weight by at most half a unit per rounding |
| `PoolSplit.PoolSplitExact` | x/reward/keeper/keeper.go:183-234 | with n recipients and 3(n-1)R < 2 * 10^18, truncated shares plus the rest for the last one add up to exactly R |
| `PoolSplit.GrantTotal` | x/reward/keeper/keeper.go:205-214 | in general the grants add up to R, or to what the others got if that is more |
| `PoolSplit.SplitExactIff` | x/reward/keeper/keeper.go:205-214 | the grants add up to R if and only if the truncated shares of all but the last are at most R |
| `PoolSplit.EachGets` | x/reward/keeper/keeper.go:205-214 | every claim but the last is granted its truncated share and the last one what that leaves |
| `PoolSplit.SharesAreProportional` | x/reward/keeper/keeper.go:195-214 | a share is, within rounding, the part of the reward that the claim's fees and count are of all, weighted |
| `PoolSplit.LargeRewardOverflows` | x/reward/keeper/keeper.go:301-339 | seven recipients and a reward of 10^18 for which two coins too many are minted |
| `Rewards.Mint.MintAndSend` | x/reward/keeper/keeper.go:387-400 | mints first, then fails on a bad recipient |
| `Rewards.Allocate` | x/reward/keeper/keeper.go:205-234 | the loop grants exactly the planned shares and stops at a bad recipient |
| `Rewards.WeightsAddUp` | x/reward/keeper/keeper.go:195-203 | the four weight formulas are the fee weight times the fee share plus the count weight times the count share, or the count share alone |
| `Rewards.DistributeByContribution` | x/reward/keeper/keeper.go:183-234 | grants by fees and task counts |
| `Rewards.DistributeByVerification` | x/reward/keeper/keeper.go:239-297 | the same, by count alone without fees, nothing without counts |
| `Rewards.DistributeByCount` | x/reward/keeper/keeper.go:301-385 | grants by signed blocks or by stake, nothing if they are all zero |
| `Rewards.PoolsMintExactly` | x/reward/keeper/keeper.go:183-385 | every pool that does not return early mints its reward exactly |
| `Rewards.DistributeInference` | x/reward/keeper/keeper.go:127-160 | the inference part of the reward is granted for work, the verification part for verification, and the rest goes to the fund; together at most the reward is minted, and all of it when there is verification |
| `Rewards.DistributeRewards` | x/reward/keeper/keeper.go:107-177 | workers and verifiers are granted the epoch reward if there was work, else the signers of blocks, else the stakes; at most that is minted |
| `Rewards.EndBlocks` | x/reward/module.go:119-155 | over all blocks with few enough recipients, everything ever minted stays within twice the base reward times the halving period |
| `Merkle.ComputeMerkleRoot` | x/settlement/keeper/da_client.go:20-43 | the loops compute the root level by level |
| `Merkle.VerifyMerkleRoot` | x/settlement/keeper/da_client.go:54-68 | accepts if and only if the root is that of the entries, never for an empty list |
| `Merkle.Level` | x/settlement/keeper/da_client.go:30-40 | each level has half as many hashes, rounded up |
| `Merkle.RootFromTheTop` | x/settlement/keeper/da_client.go:30-51 | the root computed level by level is that of the tree over the filled-up list, each node the hash of its left and right child |
| `Merkle.MerkleBinding` | x/settlement/keeper/da_client.go:20-118 | lists of equal length have the same root if and only if they are equal, unless two different strings hashed for these very roots have the same hash; hashPair hashes the concatenation |
| `Merkle.SameRootExact` | x/settlement/keeper/da_client.go:30-51 | lists of any lengths have the same root if and only if they fill up to the same list, the last hash of each odd level repeated, unless two strings hashed collide |
| `Merkle.LongerRepeats` | x/settlement/keeper/da_client.go:33-37 | a longer list with the same root begins with the shorter one and goes on with entries of it |
| `Merkle.DistinctEntriesBind` | x/settlement/keeper/da_client.go:20-43 | lists without repeated entries have the same root if and only if they are equal, whatever their lengths |
| `Merkle.LengthsCollideExact` | x/settlement/keeper/da_client.go:30-40 | lists of two lengths share a root for every hash if the lengths round up to the same power of two, and otherwise only if two of the strings hashed collide |
| `Merkle.OddDuplication` | x/settlement/keeper/da_client.go:33-37 | repeating the last of an odd number of entries does not change the root |
| `Proposer.QueueLosesNothing` | p2p/dispatch.go:686-742 | over any run of accepted, failed and oversized broadcasts, what was sent followed by what is queued is what was cleared |
| `Proposer.ShrinkingSettles` | p2p/proposer/proposer.go:562-572 | halving never goes below 64 and reaches it after k steps from any limit up to 64 * 2^k |
| `Proposer.FiveShrinksSuffice` | p2p/proposer/proposer.go:562-572 | five oversized batches bring the default limit down to 64 for good |
| `Proposer.CommitDropsWhatWasBuilt` | p2p/proposer/proposer.go:611-620 | a commit drops exactly what was built if and only if nothing was cleared since or the batch was full |
| `Proposer.CommitOutOfOrder` | p2p/proposer/proposer.go:574-620 | building, clearing and then committing drops exactly what was built if and only if nothing was cleared or the batch was full |
| `Proposer.AuditQueueLosesNothing` | p2p/dispatch.go:664-684 | the audit queue loses and repeats nothing even with audits arriving between build, broadcast and commit |
| `Proposer.FitOfThrees` | p2p/proposer/proposer.go:808-834 | a batch takes up to 85 audits of three responses, and always at least one |
| `Proposer.Proposer.AddVerifyResult` | p2p/proposer/proposer.go:216-299 | a verifier counts once per task, up to three |
| `Proposer.Proposer.ProcessPending` | p2p/proposer/proposer.go:310-492 | every finished task is cleared, audited or expired, each exactly once, and all others stay unchanged |
| `Proposer.DoneByVotes` | p2p/proposer/proposer.go:310-492 | in votes and time: a task with a receipt and three votes, or two after five minutes, is cleared, as a success exactly when every vote is for it, or sent to audit; with fewer than two after five minutes it is dropped; every other stays |
| `Proposer.Proposer.SetBatchLimit` | p2p/proposer/proposer.go:546-557 | the limit is the default or at least 64 |
| `Proposer.Proposer.ShrinkBatchLimit` | p2p/proposer/proposer.go:562-572 | half the limit, at least 64 |
| `Proposer.Proposer.BuildBatch` | p2p/proposer/proposer.go:574-606 | the head of the queue, which stays |
| `Proposer.Proposer.CommitBatch` | p2p/proposer/proposer.go:611-620 | drops what fits the limit now |
| `Proposer.Proposer.CollectSecondVerificationResponse` | p2p/proposer/proposer.go:713-765 | responses are distinct, and the third makes the audit ready with exactly three |
| `Proposer.Proposer.BuildAuditBatch` | p2p/proposer/proposer.go:800-834 | the longest prefix that fits, and how many audits it holds |
| `Proposer.Proposer.CommitAuditBatch` | p2p/proposer/proposer.go:840-851 | drops what was built |
| `Proposer.DoBatchSettlement` | p2p/dispatch.go:686-742 | one tick of the settlement queue |
| `Proposer.DoAuditBatchSubmit` | p2p/dispatch.go:664-684 | one tick of the audit queue |
| `Leader.RetriedUntilDone` | p2p/leader/leader.go:632-699 | over every run, with accepts and releases also while a batch is being broadcast, an entry that wants a reservation stays and is offered in every batch built until it expires, is released or is marked itself as the first of its task in a confirmed batch |
| `Leader.RunsStayHonest` | p2p/leader/leader.go:684-699 | over every such run an entry counts as reserved only if a batch with its key was confirmed |
| `Leader.OfferedIsWanted` | p2p/leader/leader.go:639-662 | nothing is offered but live, unreserved per-request entries |
| `Leader.ExpiredIsDropped` | p2p/leader/leader.go:595-610 | building a batch or checking a balance drops exactly the entries whose expiry has passed |
| `Leader.CommitExact` | p2p/leader/leader.go:684-699 | a commit marks an entry if and only if it is the first of its task |
| `Leader.Leader.RemovePendingEntry` | p2p/leader/leader.go:581-592 | removes the first entry of the task, and the user with it when it was the last |
| `Leader.Leader.CleanExpiredPending` | p2p/leader/leader.go:595-610 | keeps exactly the live entries, in order |
| `Leader.Leader.BuildReserveEntries` | p2p/leader/leader.go:632-662 | cleans up and lists every wanted entry with its key |
| `Leader.Leader.CommitReservations` | p2p/leader/leader.go:684-699 | marks the listed keys |
| `Leader.DoBatchReserve` | p2p/dispatch.go:606-656 | one reservation tick is a build, whatever others do while the Leader is unlocked, and a commit |
| `Stream.ReassembleStreamTokens` | sdk/client.go:186-215 | ready exactly when a final token and all lower indices are there, with the first text of each index |
| `Stream.StreamIsOrderIndependent` | sdk/client.go:180-215 | for any order and number of copies of a sender's stream, it is ready exactly when all tokens have arrived, and is then the sender's list |
| `Pii.SanitizePromptReversible` | sdk/client.go:721-738 | the mapping numbers, in order, exactly the matches each pattern finds in the text as rewritten so far, and the text has each replaced by its placeholder where it first occurs |
| `Pii.RestoreOutput` | sdk/client.go:742-747 | the placeholders put back in order |
| `Pii.PiiRoundTrip` | sdk/client.go:721-747 | for every prompt without the marker and bracket-free matches that are not part of a placeholder, restoring the sanitized prompt gives it back, wherever the matches first occur |
| `Patterns.SixPatternsRoundTrip` | sdk/client.go:692-747 | with the six patterns, sanitizing and restoring gives back every prompt without the marker that has at most 34000001 matches |
| `Patterns.ThresholdExact` | sdk/client.go:692-747 | every prompt without the marker is given back, for all lists of that many matches of the six patterns, if and only if there are at most 34000001 of them |
| `Patterns.MatchesArePii` | sdk/client.go:692-699 | whatever one of the six patterns matches is bracket-free and has an at sign, nine digits or the form of a card number |
| `Pii.RoundTripExact` | sdk/client.go:721-747 | for every prompt without the marker and all bracket-free matches, the prompt is given back if and only if no match was ever found inside an earlier placeholder |
| `Patterns.NumberBreaksRoundTrip` | sdk/client.go:729-731 | for every q, a prompt of more than q addresses and then the number q is not given back when that number is a match |
| `Patterns.NumberCanBeCard` | sdk/client.go:695-695 | 34000000, the number of a placeholder, matches the card pattern |
| `Patterns.MailMatches` | sdk/client.go:693-693 | the address used there is one the pattern finds |

## Left out

- Epoch statistics, verifier and auditor counts, worker statistics, reputation, jailing, slashing, model records and events: they do not feed back into the modelled state.
- Audit rates, VRF, signatures, SHA-256, JSON and bech32: inputs or uninterpreted functions; two spellings of one bech32 address are not modelled. Entries are taken to have different JSON, never as long as two hashes.
- The regular-expression engine: the patterns are languages, and a search returns matches of them; word boundaries are not modelled, which only adds matches.
- The third-tier judgment (x/settlement/keeper/keeper.go:1933-2013): proved unreachable, its body is not modelled.
- HandleFrozenBalanceTimeouts and StoreFrozenTaskMeta: nothing in the repository fills their index, so reservations are not claimed to be released at expire_block.
- `alreadyPaidFail`: false at every call.
- 256-bit overflow panics of the integer library, coins without an amount, and parameter ratios whose 32-bit sum wraps to 1000.
- The fund sweep is not part of the solvency run: its pool comes from fee totals that include unpaid fail fees. Only its payouts are bounded.
- Keeper.ProcessBatchSettlement: the header (count, signature, root) is decided before; token mismatch records, epoch statistics and the batch record are not modelled.
- Keeper.ProcessFraudProof: the evidence is one input; slashing and tombstoning are not modelled.
- Rewards.DistributeByContribution: a uint64 total that wraps and nil fee amounts are not modelled, and reward records are not, because one address in two pools overwrites its own.
- Stream.ReassembleStreamTokens: the loop counter is unbounded, so the endless loop of a complete stream with final index 2^32 - 1 is not modelled.
- Proposer.Proposer.ProcessPending: the fields copied into a settlement entry other than status and votes are not modelled.
- Leader.Leader.CleanExpiredPending: filters into a new list; that the code reuses the slice in place is not modelled.
- The Leader's dispatch, rate limits and balance check, Worker and verifier nodes, x/modelreg, genesis, queries, message codecs, REST, CLI and the Python scripts: easy members or input and output.
