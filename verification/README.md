# A model of the ramp's money paths

This project models, in Dafny, the parts of a crypto on/off-ramp that decide what is counted, paid,
admitted or moved, and proves what they keep over every input, every run or every reachable state. A
program whose state changes step by step is a class with methods proved against specification
functions; the laws are then proved about those functions and about runs of them.

| file | what it models |
|---|---|
| `DecimalText`, `ScaledDecimal` | JavaScript's `BigInt(string)`, decimal strings and 18-digit scaled integers |
| `ChainLedger`, `ChainReconcile` | the rebuild of balances from chain-validated transactions |
| `RateLimiter`, `AmlCompliance` | sliding windows: requests per key, euros per user and day |
| `DualDatabase` | the MongoDB to PostgreSQL migration: two stores, modes, phases and their guards |
| `TransactionWorker`, `WorkerInterleaving`, `WorkerPasses` | the execution worker as passes over a table, as interleaved steps, and the agreement of the two |
| `ConsistencyReconciler` | the five repair passes over ramp sessions |
| `SwapArithmetic`, `Exchange` | swap quotes and chains of swaps, bid and ask, wallets and treasury through swaps and off-ramps |
| `DcaPlans` | recurring purchases and the batch that executes them |
| `PortfolioRisk`, `MonteCarlo` | maximum drawdown, value at risk and expected shortfall |
| `Batches`, `JsText`, `Permutations`, `Rounding`, `Sequences`, `UserWallets`, `Wrappers` | small shared theories |

## How it is modelled

- Answers from outside (chain, payment and token providers, event bus, router, clock, random draws) are
  parameters and may be anything, exceptions included. A send, a payout or a bank transfer that is
  reported as failed may have been made all the same.
- A write that the database refuses is an answer too in `AmlCompliance`, `DualDatabase`,
  `TransactionWorker`, `WorkerInterleaving`, `ConsistencyReconciler`, `Exchange` and `DcaPlans`; one
  that raises may have been taken all the same. An off-ramp's lookups can throw as well. In
  `ChainReconcile` only the provider throws.
- A handler without a lock is one atomic step. `WorkerInterleaving` takes the worker apart instead: any
  number of workers and other writers interleave between the steps of a worker, each of which makes at
  most one write to the table, together with the lookups and events around it. Only the retry step
  covers two: what the router leaves, and the worker's reaction to an exception.
- Numbers that are floating point in the source are exact: `real`, or scaled integers where the source
  uses them. `round` is written out, ties to the even neighbour.
- The AML calls of one user are serialised; their ISO time strings, all in UTC, are compared as the times
  they denote.
- A pass works on any list of distinct rows that its query may return: order, limit and age filters are
  not assumed, and a pass that an exception cuts short is a pass over a shorter list.
- Pasted blocks at lines 357-369, 503-512 and 712-721 of `backend/routes/neno_exchange_routes.py` break
  that file's syntax; the handlers around them are modelled without them.

## Where the code and its documentation part

- `backend/database/dual_manager.py:93` promises atomic dual writes. A write that PostgreSQL refuses
  stays in MongoDB (`FailedWriteUndoneExactlyWhenMongoFailed`), and shadow mode acknowledges writes that
  no store has (`ShadowAcknowledgesLostWrites`).
- `backend/routes/migration_control.py:203` calls rollback safe at any phase. After completion it drops
  every write that PostgreSQL alone has (`RollbackLosesPostgresOnlyWrites`).
- `backend/routes/migration_control.py:179` asks for a passed validation before completion. Force and a
  direct change of mode are exactly the ways around it (`UnprovenCutoverExactlyWhen`).
- `workers/consistencyReconciler.js:5` promises that no session is left in an invalid state. A session
  whose second update is refused stays in CHAIN_CONFIRMED for ever (`AbandonedExactlyWhen`), and a
  transaction that failed on chain completes its session once it is deep enough (`RecheckOutcome`).
- `backend/services/market_maker_service.py:368` says a long treasury lowers its ask. The code never
  lowers a quote as the treasury grows (`MoreInventoryNeverLowersQuotes`), and both quotes leave the mid
  price on one side when the inventory is far enough off (`MidBetweenQuotesExactlyWhen`).
- `workers/transactionWorker.js:7-8` promises that finality comes from the chain or the payment
  provider. A live transaction whose send throws all the same, whose update is refused or whose events
  are lost is marked failed (`SentEndsFailedExactlyWhen`, `PaidButFailedExactlyWhen`), and an off-ramp in
  fiat is paid out again by every pass until one fails it (`PayoutsExactly`, `EveryFinalPassPaysAgain`).
- `retry_after` is enough only when a key has one limit; login and registration share a key with limits
  10 and 5 (`LoginAndRegisterShareAKey`, `SharedKeyDelayFallsShort`).
- Cleanup keeps entries for 300 seconds, so it is invisible only to windows of at most 300
  (`SameAnswers`, `LongWindowsAreForgotten`).
- The AML limit bounds every 24-hour window as long as no amount is negative, and every negative amount
  breaks it (`EveryDayWindowBounded`, `NegativeAmountsEscapeTheLimit`).
- An off-ramp can refund the NENO although the user was paid (`RefundedAndPaidExactlyWhen`), pay twice
  (`PaidTwiceExactlyWhen`), or keep the NENO and pay nothing (`ErrorKeepsNenoExactlyWhen`,
  `CompletedUnpaidExactlyWhen`).
- A recurring purchase that the database breaks off takes euros that no plan accounts for, and is due
  again (`BrokenPurchaseExactlyWhen`); a resumed plan can execute before its interval is over
  (`ResumeBreaksTheInterval`).

## Model
| member | source | states |
|---|---|---|
| DecimalText.ValConcat | tools/reconcile-chain-truth.js:144 | the number two strings of digits denote together is the first shifted by the length of the second, plus the second |
| DecimalText.NatToStringValue | tools/reconcile-chain-truth.js:152-153 | printing a natural number gives digits with no superfluous leading zero that denote that number |
| DecimalText.CanonicalNatUnique | tools/reconcile-chain-truth.js:144-153 | a digit string with no superfluous leading zero is the only printing of its number |
| DecimalText.BigIntOfDigits | tools/reconcile-chain-truth.js:144 | BigInt reads plain digits, leading zeros included and the empty string as zero, as the number they denote |
| DecimalText.DigitValues | tools/reconcile-chain-truth.js:144 | the sixteen digits in order in either case, and no other character, are digits |
| DecimalText.BigIntIgnoresBlanks | tools/reconcile-chain-truth.js:144 | white space around a number does not matter to BigInt |
| DecimalText.BigIntOfSigned | tools/reconcile-chain-truth.js:144 | a signed number is read in base ten with its sign, or is an error |
| DecimalText.BigIntOfPrefixed | tools/reconcile-chain-truth.js:144 | a number after 0x, 0o or 0b is read in its base, or is an error |
| DecimalText.BigIntOfOthers | tools/reconcile-chain-truth.js:144 | any other text is read in base ten, and is an error if it has other characters |
| JsText.Folds | tools/reconcile-chain-truth.js:132 | folding case leaves no letter of the other case, is undone by the other folding, fixes what has no such letters, and keeps the letters apart |
| ScaledDecimal.PrintThenParse | tools/reconcile-chain-truth.js:138-154 | for every integer, negative and zero included, decimalToScaled(scaledToDecimal(v)) is v |
| ScaledDecimal.ParseThenPrint | tools/reconcile-chain-truth.js:138-154 | parsing then printing gives the string back if and only if it is in canonical form |
| ScaledDecimal.PrintsCanonical | tools/reconcile-chain-truth.js:148-154 | every printed balance is canonical: no superfluous zeros, at most 18 fraction digits, no minus on zero |
| ScaledDecimal.TruncatesTowardZero | tools/reconcile-chain-truth.js:138-146 | digits with a fraction of any length parse to the exact value in units of 10^-18, cut toward zero by less than one unit |
| ChainLedger.Balances.AddAmount | tools/reconcile-chain-truth.js:129-133 | the Map entry of the upper-cased asset gains the amount; an empty asset changes nothing |
| ChainLedger.AddTransaction | tools/reconcile-chain-truth.js:166-181 | onramp, offramp and swap post what the ledger says they contribute, fallbacks between currencies and amounts included |
| ChainLedger.DeriveBalances | tools/reconcile-chain-truth.js:156-185 | the loop prints, for each asset some counted transaction names, the sum of what is posted to it, and throws exactly when an amount of a counted transaction does not parse |
| ChainLedger.OneMoreRow | tools/reconcile-chain-truth.js:160-182 | what one more eligible row does to every asset, by its columns: an on-ramp adds the crypto amount to the asset bought, an off-ramp and a swap take it from the asset given, the off-ramp adds the fiat amount to the currency or the asset bought, the swap adds the fiat or else the crypto amount to the asset bought, and no other asset moves |
| ChainLedger.DeriveConcat | tools/reconcile-chain-truth.js:156-185 | the ledger of two lists joined is the per-asset sum of their ledgers, errors included |
| ChainLedger.DerivePermutation | tools/reconcile-chain-truth.js:156-185 | the order of the transactions does not matter |
| ChainLedger.DeriveIneligible | tools/reconcile-chain-truth.js:160-164 | a transaction without chain proof or final status may be inserted anywhere without effect |
| ChainLedger.PerUserLedgersSum | tools/reconcile-chain-truth.js:358-362 | the ledgers of all users, added per asset, are the ledger of all transactions |
| ChainLedger.MergeAssociates | tools/reconcile-chain-truth.js:129-133 | adding ledgers per asset is associative, keys included |
| ChainLedger.PrintedLedgerReadsBack | tools/reconcile-chain-truth.js:184 | parsing a printed balance gives the derived amount exactly |
| ChainReconcile.Store.WriteVerified | tools/reconcile-chain-truth.js:276-321 | a verified row is rewritten column by column and its two or three events are emitted |
| ChainReconcile.Store.ValidateTransaction | tools/reconcile-chain-truth.js:208-333 | the row, the events and the report are those of the verdict on the row; only the sync event remains if the provider throws |
| ChainReconcile.VerifiedExactlyWhenAllowedAndMined | tools/reconcile-chain-truth.js:102-127 | a row is verified if and only if its hash is well formed, the chain has its transaction and receipt, the sender is on the list and the receipt reports success, so an empty list verifies nothing; it is stored as settled if and only if its depth reaches a finality that is a number, as confirmed otherwise, with the sender, receiver, block and depth of the chain; any other row fails with the first requirement it misses |
| ChainReconcile.ReportTellsWhatIsStored | tools/reconcile-chain-truth.js:208-333 | the report names the status, reason, block and depth that were stored; a failed receipt is told by its status alone |
| ChainReconcile.EventsTellWhatIsStored | tools/reconcile-chain-truth.js:210-321 | which events a row emits, in order: start, then failure, or validation, confirmation and, if and only if it is stored as settled, settlement |
| ChainReconcile.AnomalyExactlyWhenUnverified | tools/reconcile-chain-truth.js:364-371 | the anomalies are exactly those of the unverified rows, in order, each with its reason |
| ChainReconcile.Store.ValidateAll | tools/reconcile-chain-truth.js:348-355 | the first pass rewrites every row up to the first provider exception and no other, and reports all rows or none |
| ChainReconcile.DeriveLedgers | tools/reconcile-chain-truth.js:357-362 | each user of the refreshed rows gets the ledger of that user's rows |
| ChainReconcile.Store.Reconcile | tools/reconcile-chain-truth.js:347-381 | the whole run: stored rows, events, report, ledgers, anomalies and audit log, or an exception with the rows up to it rewritten |
| ChainReconcile.VerifiedExactlyWhenEligible | tools/reconcile-chain-truth.js:102-127 | after validation a row is eligible for the ledger if and only if its report says chainVerified, and newStatus and finalState are the stored status |
| ChainReconcile.CountedExactlyWhenVerified | tools/reconcile-chain-truth.js:156-182 | a row posts to the ledger if and only if its report says chainVerified, its amounts are readable, and it is of a known type and names an asset its type posts to |
| ChainReconcile.LedgerIsOfVerifiedRows | tools/reconcile-chain-truth.js:352-362 | after a complete pass all users' ledgers together are the ledger of the verified rows alone |
| ChainReconcile.RerunNeverRegresses | tools/reconcile-chain-truth.js:208-333 | with the same receipts and allow-list and a later block, validating again never moves a status back, leaves a verified row verified, and changes nothing a row posts |
| ChainReconcile.RerunKeepsLedger | tools/reconcile-chain-truth.js:347-362 | a second complete pass prints every user the ledger the first one printed |
| ChainReconcile.EventsPerRow | tools/reconcile-chain-truth.js:210-321 | a pass emits at most four events a row, all of audited types |
| ChainReconcile.AuditLogIsComplete | tools/reconcile-chain-truth.js:373-381 | the audit log of the report begins with every event this run emitted, newest first, whatever was stored before, and holds five entries a row or fifty, whichever is more, as long as there are as many |
| RateLimiter.SlidingWindowCounter.IsAllowed | backend/middleware/rate_limiter.py:47-62 | the list is filtered in place, and the answer and the new list are those of the counted entries, the IndexError on an empty list included |
| RateLimiter.SlidingWindowCounter.Cleanup | backend/middleware/rate_limiter.py:64-70 | exactly the stale keys are deleted |
| RateLimiter.RunRefines | backend/middleware/rate_limiter.py:47-70 | after any run with any cleanups, a key's list is the end of its full admission history, and what is missing has expired |
| RateLimiter.SameAnswers | backend/middleware/rate_limiter.py:47-70 | for windows up to 300 the limiter answers as one that never forgets |
| RateLimiter.LongWindowsAreForgotten | backend/middleware/rate_limiter.py:68 | for every window above 300 a run is given in which cleanup admits a request that should be rejected |
| RateLimiter.HistoryWithinLimit | backend/middleware/rate_limiter.py:47-62 | any admissions closer together than the window are no more than the limit passed with the last |
| RateLimiter.EveryWindowBounded | backend/middleware/rate_limiter.py:23-62 | in every run every half-open window, open at either end, holds at most as many admissions as the limit of its last, also when limits differ on a key |
| RateLimiter.RemainingIsExact | backend/middleware/rate_limiter.py:60-62 | the remaining count is exactly how many more requests are admitted at once |
| RateLimiter.RetryAdmittedExactlyWhen | backend/middleware/rate_limiter.py:50-62 | when a rejected request would be admitted later, if and only if, for any mix of limits |
| RateLimiter.RetryAfterIsTight | backend/middleware/rate_limiter.py:56-58 | with a list no fuller than the limit, retry_after lies between 1 and window + 1, suffices, and exceeds the least sufficient delay by at most a second |
| RateLimiter.NeverOverfull | backend/middleware/rate_limiter.py:50-62 | one limit per key keeps the list no fuller than the limit in every run |
| RateLimiter.RetryInRuns | backend/middleware/rate_limiter.py:47-70 | in every run with one limit per key: back after retry_after is admitted if nothing was admitted meanwhile, and more than a second earlier is not |
| RateLimiter.SharedKeyDelayFallsShort | backend/middleware/rate_limiter.py:56-58 | with two limits on a key the stated delay can end in another rejection |
| RateLimiter.LimitsPerMinute | backend/middleware/rate_limiter.py:23-37 | every path's limit is positive and per 60 seconds |
| RateLimiter.MiddlewareIsOrderly | backend/middleware/rate_limiter.py:99-116 | whatever requests and cleanups come, the limiter is called with one window per key and positive limits |
| RateLimiter.MiddlewareBounded | backend/middleware/rate_limiter.py:76-129 | through the middleware every answer is a decision, equals the unforgetting limiter's, and no minute of a key exceeds the limit of its last admission |
| RateLimiter.FirstMatchIsFirst | backend/middleware/rate_limiter.py:76-80 | a path has the limit of the first entry of the table it begins with, and 120 per minute if there is none |
| RateLimiter.ClientsHaveOwnKeys | backend/middleware/rate_limiter.py:83-95 | two clients whose names have no colon besides the one after the tag never share a key, whatever they ask for |
| RateLimiter.KeySharedExactlyWhen | backend/middleware/rate_limiter.py:113-114 | whatever the names, two requests whose segments have no colon share a key if and only if client and segment are the same |
| RateLimiter.ColonsShareAKey | backend/middleware/rate_limiter.py:83-114 | with a colon in both a name and a segment two clients share a key |
| RateLimiter.LoginAndRegisterShareAKey | backend/middleware/rate_limiter.py:23-25 | login and registration of one client are counted under one key with limits 10 and 5 |
| AmlCompliance.AmlMonitor.CheckCompliance | backend/routes/kyc_routes.py:505-598 | each refusal changes nothing; an accepted call appends one entry and exactly the alerts its amount, its day and its hour call for, as far as the database takes the two writes |
| AmlCompliance.AdmittedAndReportedExactlyWhen | backend/routes/kyc_routes.py:34-45 | in figures: which calls each tier is admitted and with what answer the others are refused, and when each of the three alerts is raised, if and only if |
| AmlCompliance.RunGoesOn | backend/routes/kyc_routes.py:505-598 | the log and alerts of a run move with each call as those of the monitor do |
| AmlCompliance.EveryDayWithinLimit | backend/routes/kyc_routes.py:524-543 | at every logged call, in any run, the user's last 24 hours are within the tier's limit |
| AmlCompliance.EveryDayWindowBounded | backend/routes/kyc_routes.py:34-39 | for non-negative amounts and any times, every 24-hour window of a user, both ends included, is within the limit of the tier at the last call logged in it |
| AmlCompliance.TierZeroLogsNothing | backend/routes/kyc_routes.py:514-534 | a user of tier 0 or of an unknown tier never gets a positive amount logged, whatever the transaction type |
| AmlCompliance.LowTierNeverAlerts | backend/routes/kyc_routes.py:549-574 | a user whose tier never exceeds 1 raises no large-transaction and no high-velocity alert |
| AmlCompliance.NegativeAmountsEscapeTheLimit | backend/routes/kyc_routes.py:524-534 | every negative amount a of a user of a limited trading tier is enough: a call of the limit less a is accepted a moment later, and the window from there exceeds the limit by -a |
| DualDatabase.DualDatabaseManager.constructor | backend/database/dual_manager.py:99-115 | the phase starts as not started whatever mode the environment asks for |
| DualDatabase.DualDatabaseManager.WriteBoth | backend/database/dual_manager.py:238-279 | MongoDB first, PostgreSQL only after it; the stores, counters and reply for every way either can fail, an operation or commit that raises after it was applied included |
| DualDatabase.ReplyTells | backend/database/dual_manager.py:254-279 | the error flag is set if and only if a store raised, that is a failure except in shadow mode, and which results the reply holds, if and only if |
| DualDatabase.ConsistencyCounterIsExact | backend/database/dual_manager.py:273-276 | over every run the consistency counter rises by exactly the failures shadow mode hid |
| DualDatabase.DualDatabaseManager.Read | backend/database/dual_manager.py:281-323 | the primary's answer, or the other store's if that store is enabled, or an exception |
| DualDatabase.ReadsComeFrom | backend/database/dual_manager.py:148-155 | for any contents: with both stores up PostgreSQL answers exactly when it is alone or the cutover has been made and MongoDB in the three other modes; with the primary down the other store answers if enabled and up, and nothing does otherwise |
| DualDatabase.SwitchMovesReads | backend/database/dual_manager.py:190-197 | an accepted switch in a guarded run takes every key from what MongoDB holds to what PostgreSQL holds |
| DualDatabase.DualDatabaseManager.StartMigration | backend/routes/migration_control.py:76-98 | allowed only before any start |
| DualDatabase.DualDatabaseManager.EnableDualWriteMode | backend/routes/migration_control.py:101-123 | allowed only from staging or validation |
| DualDatabase.DualDatabaseManager.SwitchToPostgresql | backend/routes/migration_control.py:126-157 | allowed only while writing to both with a passed verdict |
| DualDatabase.DualDatabaseManager.CompleteMigration | backend/routes/migration_control.py:160-194 | allowed from cutover or validation with a passed verdict or by force |
| DualDatabase.DualDatabaseManager.RollbackMigration | backend/database/dual_manager.py:208-215 | back to MongoDB from any state, the stores untouched |
| DualDatabase.DualDatabaseManager.RunValidation | backend/database/dual_manager.py:354-402 | enters validation and records whether all three checks passed |
| DualDatabase.DualDatabaseManager.SetDatabaseMode | backend/database/dual_manager.py:157-172 | the unguarded mode change and the phase it drags along |
| DualDatabase.SetModeKeepsStepExactlyWhen | backend/database/dual_manager.py:157-172 | a direct change of mode keeps phase and mode in step if and only if the mode sets its own phase or the phase allows it anyway |
| DualDatabase.GuardedRunsKeepPhaseAndMode | backend/routes/migration_control.py:76-215 | without set-mode, every reachable phase fixes its mode, except that validation only excludes MongoDB alone |
| DualDatabase.PhaseMovesAlongEdges | backend/routes/migration_control.py:76-215 | in every guarded run the phase only moves along the listed edges |
| DualDatabase.EveryEdgeIsOpen | backend/routes/migration_control.py:76-215 | and each of these edges is open to some route |
| DualDatabase.FlagIsLatestVerdict | backend/database/dual_manager.py:389 | in every run the flag is the verdict of the latest validation that was let through |
| DualDatabase.CutoverNeedsPassedValidation | backend/routes/migration_control.py:138-186 | whatever a run did before, a guarded route without force moves reads to PostgreSQL or drops MongoDB only right after a verdict that passed |
| DualDatabase.UnprovenCutoverExactlyWhen | backend/routes/migration_control.py:138-186 | a step does so without a passed verdict if and only if it is a forced completion from cutover or validation, or a direct change of mode |
| DualDatabase.ForceSkipsTheVerdict | backend/routes/migration_control.py:179-186 | such a forced completion can be reached: it drops MongoDB after a verdict that failed |
| DualDatabase.RollbackIsAbsorbing | backend/routes/migration_control.py:76-215 | no guarded route leaves the rolled-back state |
| DualDatabase.PostgresFollowsMongo | backend/database/dual_manager.py:254-265 | while MongoDB is enabled, PostgreSQL's applied log is a subsequence of MongoDB's, whatever fails |
| DualDatabase.SuccessMeansApplied | backend/database/dual_manager.py:254-279 | outside shadow mode every enabled store has the write if and only if the call succeeds or the last store raised after applying it; the two exclude each other |
| DualDatabase.FailedWriteUndoneExactlyWhenMongoFailed | backend/database/dual_manager.py:93-94 | a failed dual write leaves both stores as they were if and only if MongoDB did not apply it, and is in both if and only if a commit raised after going through; otherwise MongoDB alone has it |
| DualDatabase.ShadowAcknowledgesLostWrites | backend/database/dual_manager.py:273-277 | shadow mode always reports success; the write is nowhere exactly when MongoDB did not apply it |
| DualDatabase.AcknowledgedWithoutMongo | backend/database/dual_manager.py:254-279 | an acknowledged write is missing from MongoDB exactly when PostgreSQL is alone or shadow mode hid a failure |
| DualDatabase.AcknowledgedWritesAreKept | backend/database/dual_manager.py:208-279 | the writes acknowledged while writing to both are in both stores in order for ever after, so rollback loses none and reads answer from them |
| DualDatabase.AcknowledgedWriteStays | backend/database/dual_manager.py:254-265 | a write acknowledged in a dual mode stands in both logs right after what they held, for ever |
| DualDatabase.RollbackLosesPostgresOnlyWrites | backend/routes/migration_control.py:197-215 | after completion, rollback loses an acknowledged write in a run where nothing ever failed |
| DualDatabase.EqualStoresAnswerAlike | backend/database/dual_manager.py:281-323 | stores that start equal and whose writes all succeed stay equal, and primary reads, fallback reads and reads after the switch give one answer |
| DualDatabase.WriteCounters | backend/database/dual_manager.py:56-57 | over any run from any data MongoDB's counter rises by the writes applied less those it raised on all the same, PostgreSQL's by the writes applied plus the commits that failed |
| TransactionWorker.Worker.ClaimPendingTransaction | workers/transactionWorker.js:31-56 | the compare-and-set wins exactly when the row is still claimable, and only then changes it |
| TransactionWorker.Worker.BroadcastTransaction | workers/transactionWorker.js:58-101 | the fresh row is sent if it may be and recorded with its own hash; each exception, a refused update included, is handed on with what was written before it |
| TransactionWorker.SignedOutcome | workers/transactionWorker.js:60-127 | which rows the signed pass sends, and what it leaves of a row for every answer, by its columns |
| TransactionWorker.PendingOutcome | workers/transactionWorker.js:31-58 | which rows the pending pass claims and sends, and what it leaves of a row for every answer, by its columns |
| TransactionWorker.ClaimedIsTakenUpAsSigned | workers/transactionWorker.js:33-47 | a claimed row that was not sent is taken up by the signed pass and by no other |
| TransactionWorker.SentIsOnlyWatched | workers/transactionWorker.js:76-92 | once sent a row is monitored and not sent again by a pass; a retry that throws leaves the row queued for liquidity |
| TransactionWorker.Worker.FailTransaction | workers/transactionWorker.js:103-119 | the row becomes failed_unrecoverable with the chain status of the row as read |
| TransactionWorker.Worker.ProcessPendingTransactions | workers/transactionWorker.js:121-142 | each row of the queue is claimed and sent or failed, every other row stays |
| TransactionWorker.Worker.ProcessSignedTransactions | workers/transactionWorker.js:144-162 | each row of the queue is sent or failed, every other row stays |
| TransactionWorker.Worker.UpdateBroadcastedTransaction | lib/blockchain/confirmationListener.cjs:13-106 | what the listener writes, when it throws, a refused update included, and whether a payout was requested, even by a request that threw, for every answer of the chain |
| TransactionWorker.PaidOutExactlyWhenFiatOfframp | lib/blockchain/confirmationListener.cjs:5-80 | a monitored row is paid out if and only if its transaction is finalized or 12 confirmations deep and it is an off-ramp whose currency is absent or does not spell USDT in any mix of case; it is left with its payout requested, any other final row is settled, and short of that nothing is |
| TransactionWorker.UnsettledOutcome | lib/blockchain/confirmationListener.cjs:15-63 | what every answer short of a final one leaves of a row, exceptions before and after the update included |
| TransactionWorker.Worker.MonitorBroadcastedTransactions | workers/transactionWorker.js:164-181 | each row ends as the listener, or failTransaction after it, leaves it; the payouts requested, in order, those of requests that threw included |
| TransactionWorker.PayoutsAreMade | workers/transactionWorker.js:163-181 | the payouts of a pass are those of exactly its rows that make one, each once |
| TransactionWorker.Worker.RetryDeferredSettlementTransactions | workers/transactionWorker.js:183-230 | each row ends as the router left it, or as execution_attempted over that if the router threw |
| TransactionWorker.AttendedExactlyWhen | workers/transactionWorker.js:129-205 | which rows some pass attends to, if and only if, by status, step and hash |
| TransactionWorker.AttendedByTwoExactlyWhen | workers/transactionWorker.js:129-205 | two passes share a row if and only if it is executable, signed or queued, and already has a hash |
| TransactionWorker.FailedUnrecoverableIsFinal | workers/transactionWorker.js:121-230 | over any passes in any order with any answers, a row that is failed_unrecoverable stays exactly as it is |
| TransactionWorker.ThrowingRouterNeverGivesUp | workers/transactionWorker.js:206-224 | over any number of retry passes, a row whose routing throws is never failed, whatever the router wrote, and is routed again exactly as long as no router left a hash on it |
| TransactionWorker.SentEndsFailedExactlyWhen | workers/transactionWorker.js:58-101 | in both sending passes a row whose transaction went out ends failed if and only if the send threw all the same, its update was refused or an event was lost, and carries the live hash if and only if the send returned and the update was taken |
| TransactionWorker.PayoutsExactly | lib/blockchain/confirmationListener.cjs:46-85 | for every list of answers, a fiat off-ramp stays in the queue until an answer fails it, and as many payouts are requested as answers up to that one found it final and had the request accepted |
| TransactionWorker.EveryFinalPassPaysAgain | lib/blockchain/confirmationListener.cjs:65-72 | a final fiat off-ramp stays in the queue and every pass requests one more payout |
| TransactionWorker.PaidButFailedExactlyWhen | lib/settlement/settlementService.cjs:30-38 | a row whose payout was requested is marked failed, and never looked at again, if and only if the request threw all the same, an event was lost or the update was refused; it names the payout if and only if the request returned and the update was taken |
| TransactionWorker.OtherRowsSettleOnce | lib/blockchain/confirmationListener.cjs:73-79 | any other row leaves the queue with its first final answer, settled or failed, and never causes a payout |
| WorkerInterleaving.OneClaimPerPeriod | workers/transactionWorker.js:31-56 | for any number of workers, any interleaving and any other writers, each stay of a row in routing_active or pending has at most one claim winner |
| WorkerInterleaving.QuietIsSentOnce | workers/transactionWorker.js:58-87 | a worker that starts on any table without a row at execution_successful starts inside the invariant of the next row |
| WorkerInterleaving.SingleWorkerSendsOnce | workers/transactionWorker.js:58-230 | with one worker that does not stop between a send and its record or failure, every transaction is put on the chain at most once and every row at execution_successful carries the hash sent for that very row, through lost events, refused updates, sends that throw after reaching the chain, and stops anywhere else |
| WorkerInterleaving.TwoWorkersSendTwice | workers/transactionWorker.js:144-162 | with two workers one claim can lead to two sends: the signed queue is not claimed |
| WorkerInterleaving.LostRecordSendsTwice | workers/transactionWorker.js:71-119 | a single worker sends again if it stops right after a send, or if both its update and failTransaction's are refused |
| WorkerInterleaving.ThrownSendSendsTwice | lib/chains/evmAdapter.cjs:107 | so does one whose send throws although the node took it, if it stops before it fails the row |
| WorkerInterleaving.RefusedRecordFailsLiveRow | workers/transactionWorker.js:71-119 | if only the first of the two is refused, the row is failed without a hash while its transaction is live |
| WorkerInterleaving.StaleAnswerRevivesFailed | workers/transactionWorker.js:164-181 | with two workers a listener working on a stale row takes a row out of failed_unrecoverable |
| WorkerPasses.RowIsDone | workers/transactionWorker.js:121-230 | the steps a worker takes for an undisturbed row make of it what the pass as a loop makes of it, through every failure path |
| WorkerPasses.UninterruptedPassIsTheLoop | workers/transactionWorker.js:121-230 | a pass whose steps nobody interrupts leaves exactly the table the loop leaves, for each of the four passes |
| ConsistencyReconciler.Reconciler.RecheckPayment | workers/consistencyReconciler.js:296-314 | a paid answer confirms the payment, any other or an exception changes nothing |
| ConsistencyReconciler.Reconciler.RecheckTransaction | workers/consistencyReconciler.js:319-345 | both updates of a confirmation, the first alone, or neither, as the database takes them |
| ConsistencyReconciler.Reconciler.ReconcileSession | workers/consistencyReconciler.js:89-291 | what each of the five passes does with a session it selected |
| ConsistencyReconciler.Reconciler.RunPass | workers/consistencyReconciler.js:70-291 | a pass rewrites exactly the sessions of its query and keeps every id |
| ConsistencyReconciler.PassOutcome | workers/consistencyReconciler.js:69-260 | when a pass confirms a payment and when it fails a session, if and only if |
| ConsistencyReconciler.PassWrites | workers/consistencyReconciler.js:95-345 | every column that a change of status writes |
| ConsistencyReconciler.PassMarks | workers/consistencyReconciler.js:95-345 | what a pass writes without changing the status, and that it writes nothing else |
| ConsistencyReconciler.MarkedOnce | workers/consistencyReconciler.js:69-85 | a repaired session is not repaired again, and a stuck one is left alone for half an hour |
| ConsistencyReconciler.ConfirmedOnlyWhenPaid | workers/consistencyReconciler.js:118-260 | over every run a session comes to be confirmed only if it was answered as paid, and to have failed only if it was a day old in a pass that expires or its transaction was reported as failed |
| ConsistencyReconciler.TraceRises | workers/consistencyReconciler.js:70-345 | over any passes in any order every update keeps a session's status or raises its rank, and never changes its hash |
| ConsistencyReconciler.StatusChangesAreFinite | workers/consistencyReconciler.js:70-345 | a session changes status at most as often as its rank allows and never leaves COMPLETED, FAILED or REFUNDED |
| ConsistencyReconciler.TotalChangesBounded | workers/consistencyReconciler.js:70-345 | all sessions together change status at most six times their number, however long the run |
| ConsistencyReconciler.CompletedOnlyWhenConfirmed | workers/consistencyReconciler.js:189-210 | COMPLETED is written only after a confirmed answer to a question about that session's own hash |
| ConsistencyReconciler.RecheckOutcome | lib/services/blockchainService.js:294-320 | a session completes if and only if its transaction is deep enough, even one that failed on chain, and fails if and only if it failed and is not yet that deep |
| ConsistencyReconciler.ChainConfirmedIsAbandoned | workers/consistencyReconciler.js:70-291 | no pass ever touches a session in CHAIN_CONFIRMED |
| ConsistencyReconciler.AbandonedExactlyWhen | workers/consistencyReconciler.js:195-208 | of all five passes, one leaves a session it selected in CHAIN_CONFIRMED if and only if it asked the chain, the answer was confirmed, and the second update was refused after the first was taken; it stays there for ever |
| SwapArithmetic.SwapLosesFee | backend/routes/neno_exchange_routes.py:772-775 | one swap keeps 99.7% of the euro value put in, within a rounding slack on either side, and never goes negative |
| SwapArithmetic.ChainLosesFees | backend/routes/neno_exchange_routes.py:767-775 | after any chain of k swaps the holding is worth at most 0.997^k of its start plus the accumulated slack, at any values between bid and ask |
| SwapArithmetic.CyclesLose | backend/routes/neno_exchange_routes.py:934-942 | a cycle whose fees exceed its slack returns strictly less than it took |
| SwapArithmetic.SlackAccumulates | backend/routes/neno_exchange_routes.py:773-775 | the slack of a path is non-negative and at most the sum of its swaps' slacks |
| SwapArithmetic.QuotesAreSound | backend/services/market_maker_service.py:353-387 | for every order flow, inventory and volume 0 < bid < ask |
| SwapArithmetic.MarketFigures | backend/services/market_maker_service.py:364-380 | in figures: what each NENO of inventory, of volume and of order flow moves skew, volatility and mid price by, and where each stops |
| SwapArithmetic.QuotesAroundSkewedMid | backend/services/market_maker_service.py:382-391 | to the cent, the quotes lie half a spread below and above the mid price moved by the skew |
| SwapArithmetic.MidBetweenQuotesExactlyWhen | backend/services/market_maker_service.py:362-387 | the mid price lies between the quotes the code returns, rounded to cents, if and only if the inventory is off target by at most 50 basis points plus the volatility, up to what rounding hides; past that a long treasury bids above mid and a short one asks below it |
| SwapArithmetic.MoreInventoryNeverLowersQuotes | backend/services/market_maker_service.py:366-387 | for every order flow and volume neither bid nor ask falls as the treasury holds more |
| Exchange.NenoExchange.SwapTokens | backend/routes/neno_exchange_routes.py:753-915 | a swap is refused with nothing moved, or moves exactly the quoted amounts between user and treasury, as far as the database takes the four writes; an error is answered also if only a later record fails; when which |
| Exchange.NenoExchange.ExecuteStablecoinOfframp | backend/services/market_maker_service.py:592-662 | the asset asked for or the other if the treasury lacks it; the treasury is debited only for a mined transfer, and an exception after the send, one in the debit included, counts as a failure whether or not the debit was taken |
| Exchange.NenoExchange.Refund | backend/routes/neno_exchange_routes.py:1347-1348 | the user gains the amount and the treasury loses it if it has a wallet, as far as the two writes get; no other balance changes |
| Exchange.NenoExchange.OfframpNeno | backend/routes/neno_exchange_routes.py:1268-1538 | the answer, the wallets and the cards for every destination, payout answer, failed lookup and write that raises, taken or not, the records at the end included |
| Exchange.CardIsPaid | backend/routes/neno_exchange_routes.py:1268-1306 | a card off-ramp raises the card if and only if the NENO was taken and the credit reaches the database, by 99.7% of the sale at the bid to the cent, and the treasury falls by exactly the same if booked; completed if and only if all of it was answered |
| Exchange.BankIsPaid | backend/routes/neno_exchange_routes.py:1316-1331 | a booked bank payout takes the same from the treasury less the larger of 0.1% and 50 cents, to a cent and a half, and no other bank off-ramp touches its euros |
| Exchange.BankIsPaidOffByMoreThanACent | backend/routes/neno_exchange_routes.py:1271-1318 | an input for which a cent would be too little |
| Exchange.StableIsPaid | backend/services/market_maker_service.py:596-648 | stablecoins are sent at 1.087 per euro of those proceeds, to the sixth decimal, and booked as sent |
| Exchange.StableChoice | backend/services/market_maker_service.py:598-613 | the asset asked for is sent if and only if the treasury has enough of it, the other only if there is enough of that |
| Exchange.PendingExactlyWhenBooked | backend/routes/neno_exchange_routes.py:1325-1331 | settlement is reported as pending if and only if Stripe confirmed the payout and the treasury booked it |
| Exchange.ErrorGivesBackExactlyWhen | backend/routes/neno_exchange_routes.py:1281-1409 | when an error leaves the user with the NENO, if and only if |
| Exchange.WhereTheNenoIs | backend/routes/neno_exchange_routes.py:1284-1409 | where the NENO is after every course: with the user unless taken and not given back, with the treasury exactly if its credit was taken and the refund was not |
| Exchange.SwapConservesExactlyWhen | backend/routes/neno_exchange_routes.py:791-804 | after any number of the four writes, when user and treasury keep every unit of either asset, if and only if; nobody else is touched |
| Exchange.OfframpConservesNeno | backend/routes/neno_exchange_routes.py:1281-1409 | over every course, writes that raise included, when user NENO plus treasury NENO is unchanged, if and only if; nobody else is touched |
| Exchange.RefundRestoresBoth | backend/routes/neno_exchange_routes.py:1346-1407 | the user's NENO is restored exactly by a refusal or a refund that reached the user, the treasury's exactly if it was never credited or the refund was written whole |
| Exchange.RefundUndoesTaking | backend/routes/neno_exchange_routes.py:1347-1348 | a refund written whole restores every holder's balance of every asset to what it was before the NENO was taken |
| Exchange.ErrorKeepsNenoExactlyWhen | backend/routes/neno_exchange_routes.py:1281-1538 | when an error is answered although the NENO was taken and not given back, if and only if, over every lookup and write that can throw, the records at the end included |
| Exchange.CompletedUnpaidExactlyWhen | backend/routes/neno_exchange_routes.py:1308-1421 | when "completed" is answered although nothing was paid, not even by a bank payout reported as failed, if and only if |
| Exchange.RefundedAndPaidExactlyWhen | backend/routes/neno_exchange_routes.py:1332-1407 | the NENO is given back although the user was paid if and only if the transfer counts as failed, the refund reaches the user, and Stripe had made a payout it reported as failed or an exception struck after the tokens left, in their booking at the latest |
| Exchange.PaidTwiceExactlyWhen | backend/services/real_payout_service.py:260-371 | the user is paid twice if and only if Stripe made two payouts, or made one it reported as failed and the tokens of the fallback leave as well |
| Exchange.RunsConserveSupply | backend/routes/neno_exchange_routes.py:783-804 | over every run of swaps and off-ramps by any users of which the database takes all of a swap, of a taking and of a refund or nothing of it, the holders together own of every asset what they owned at the start less exactly what the off-ramps drew from the treasury |
| Exchange.OnlyPayoutAssetsDrawn | backend/routes/neno_exchange_routes.py:1306-1331 | nothing but euros and the two stablecoins is ever drawn |
| Exchange.RunsKeepSolvent | backend/routes/neno_exchange_routes.py:784-792 | over every run no wallet but the treasury's goes below zero, wherever the database breaks a trade off |
| Exchange.BankAmountNegativeExactlyWhen | backend/routes/neno_exchange_routes.py:1317-1318 | a bank payout is for a negative amount exactly when less than 50 cents is left |
| DcaPlans.DcaBot.CreatePlan | backend/routes/dca_routes.py:48-81 | a plan is created exactly for a listed asset and interval with cover for one execution |
| DcaPlans.DcaBot.PausePlan | backend/routes/dca_routes.py:94-104 | only the owner's active plan is paused |
| DcaPlans.DcaBot.ResumePlan | backend/routes/dca_routes.py:107-117 | only the owner's paused plan is resumed, due at once |
| DcaPlans.DcaBot.CancelPlan | backend/routes/dca_routes.py:120-130 | only the owner's plan is cancelled |
| DcaPlans.RouteOutcome | backend/routes/dca_routes.py:48-131 | when each route accepts a request, if and only if, and the plan it then leaves |
| DcaPlans.StepMoves | backend/routes/dca_routes.py:48-233 | every step, batches included, moves the status of a plan along one of six edges or not at all |
| DcaPlans.CancelledStays | backend/routes/dca_routes.py:120-131 | a cancelled plan stays cancelled over every run |
| DcaPlans.DcaBot.ExecuteDcaPlans | backend/routes/dca_routes.py:148-236 | the batch loop over plans that share wallets: skipped, completed, paused or executed, or broken off by a refused write |
| DcaPlans.RaisesExactlyWhenUndone | backend/routes/dca_routes.py:155-233 | a batch raises if and only if it leaves something undone that it would have done |
| DcaPlans.DcaBot.ExecutePlan | backend/routes/dca_routes.py:157-234 | one turn of the loop, as far as the database takes its writes |
| DcaPlans.TurnOutcome | backend/routes/dca_routes.py:165-233 | when a due plan is completed, paused or executed, if and only if, and what an execution moves: the amount in euros, the asset at its price to half a unit of the eighth decimal, and the next date |
| DcaPlans.IntervalHours | backend/routes/dca_routes.py:220-223 | the length of every interval by its name |
| DcaPlans.PricedExactlyWhenListed | backend/routes/dca_routes.py:27-43 | an asset has a price if and only if plans can be created for it |
| DcaPlans.RunsStayGood | backend/routes/dca_routes.py:172-203 | over every run, batches broken off inside a purchase included, no euro wallet goes negative and no plan counts more executions than its maximum |
| DcaPlans.RunsConserve | backend/routes/dca_routes.py:197-233 | over every run whose writes are taken, euros taken equal the rise of total_invested_eur and assets credited equal the rise of total_acquired, per user and asset |
| DcaPlans.BrokenPurchaseExactlyWhen | backend/routes/dca_routes.py:197-233 | a purchase broken off breaks these balances if and only if the writes before the plan update were taken in part; the plan is then due again |
| DcaPlans.ExecutionsAnIntervalApart | backend/routes/dca_routes.py:107-233 | over every run a plan's executions stay at least its interval apart, and the plan is not due sooner, if and only if every resume of it waits an interval after its last execution and no batch is broken off between logging a purchase of it and updating it |
| DcaPlans.ResumeKeepsSpacedExactlyWhen | backend/routes/dca_routes.py:107-114 | one resume keeps the spacing if and only if every execution is an interval old, as it is once the plan was due anyway |
| DcaPlans.ResumeBreaksTheInterval | backend/routes/dca_routes.py:107-114 | after an execution, pausing and resuming lets a plan execute again at any later moment |
| DcaPlans.LogWithinMaximum | backend/routes/dca_routes.py:172-175 | over every run the execution log agrees with the counters if and only if no batch is broken off between those two writes, and then never holds more executions of a plan than its maximum |
| PortfolioRisk.RunningTotals | backend/routes/advanced_analytics_routes.py:99-103 | the loop yields the sum of every prefix |
| PortfolioRisk.DrawdownFromPeak | backend/routes/advanced_analytics_routes.py:105-114 | the one-pass figure is the largest fall from a total to a later one; the percentage is against the peak when that fall was first reached |
| PortfolioRisk.MaxDrawdown | backend/routes/advanced_analytics_routes.py:65-114 | the same for a series of results, and zero for fewer than two |
| PortfolioRisk.MaxDrawdownUnique | backend/routes/advanced_analytics_routes.py:98-114 | there is only one such figure |
| PortfolioRisk.PercentageIsShareOfHigh | backend/routes/advanced_analytics_routes.py:105-114 | the figure is first reached on one day, and the percentage is the share lost of the high before it |
| PortfolioRisk.DrawdownIsWorstStretch | backend/routes/advanced_analytics_routes.py:98-114 | it is the loss over the worst stretch of consecutive days after the first, or zero |
| PortfolioRisk.FirstDayIrrelevant | backend/routes/advanced_analytics_routes.py:105 | the first day's own result never matters |
| MonteCarlo.Simulate | backend/routes/montecarlo_routes.py:105-111 | one final value per path, the start grown by each day's draw |
| MonteCarlo.GrowthCompounds | backend/routes/montecarlo_routes.py:106-111 | a path compounds over consecutive draws, each by its own factor |
| MonteCarlo.Percentiles | backend/routes/montecarlo_routes.py:129-132 | each listed percentile of an ascending list |
| MonteCarlo.ValueAtRisk | backend/routes/montecarlo_routes.py:113-132 | VaR and CVaR read off the losses sorted in descending order are those defined on the ascending final values; best and worst bound all |
| MonteCarlo.MirroredLosses | backend/routes/montecarlo_routes.py:113-115 | sorting the losses in descending order is subtracting the ascending values one by one |
| MonteCarlo.VarIsOrderStatistic | backend/routes/montecarlo_routes.py:117-118 | of the losses as simulated, at most var_idx exceed the VaR and at least var_idx + 1 reach it, for the fallback to the last position too, and the rank is what the confidence leaves over of the simulations, rounded down |
| MonteCarlo.CvarAtLeastVar | backend/routes/montecarlo_routes.py:119-120 | the expected shortfall is at least the VaR |
| MonteCarlo.MonotoneInConfidence | backend/routes/montecarlo_routes.py:117-120 | more confidence never lowers VaR or CVaR |
| MonteCarlo.PercentilesOrdered | backend/routes/montecarlo_routes.py:123-132 | percentiles rise, lie between worst and best case, and the 50th is the median |

## Left out

- JsText.Lower: case folding, upper case included, covers ASCII letters only.
- ChainReconcile.Store.ValidateTransaction: does not model address checksums (an address `getAddress` refuses is a provider exception here), `rawTxData` and event payloads.
- ChainReconcile.Store.Reconcile: the order of the keys of the printed ledger and the JSON itself are not modelled, nor is a database statement that raises, which ends the run after the statements before it.
- RateLimiter.SlidingWindowCounter.IsAllowed: the clock is a parameter; the laws over runs assume it does not go back.
- RateLimiter.MiddlewareBounded: how a client is named from its token or address is not modelled; any string will do.
- AmlCompliance.AmlMonitor.CheckCompliance: concurrent calls of one user, which could both pass the daily check, are excluded; the alerts are written all or none.
- DualDatabase.DualDatabaseManager.RunValidation: the three checks are answers, and each catches its own exceptions and then answers no; the counts and rows they compare are not modelled.
- DualDatabase.DualDatabaseManager.Read: the optional consistency probe and its counters, and the counter of reads, are not modelled; nor is the truth test of the MongoDB handle, which counts as MongoDB raising.
- DualDatabase.DualDatabaseManager.WriteBoth: the mode does not change during a call.
- TransactionWorker.Worker.RetryDeferredSettlementTransactions: lib/execution/executionRouter.js may leave any row and may throw; what it does is not part of this model.
- TransactionWorker.Worker.FailTransaction: its own event or its update can throw and end the pass: in WorkerInterleaving that is a stop, in the passes as loops a shorter list.
- WorkerInterleaving.SingleWorkerSendsOnce: assumes that other writers leave the status and hash of sent rows alone, do not revive failed rows, and that nobody but the worker writes the step execution_successful.
- ConsistencyReconciler.Reconciler.RunPass: the fixed order of the five passes and the exception that ends a cycle are covered by letting passes come in any order.
- Exchange.NenoExchange.SwapTokens: on-chain delivery after the swap, idempotency keys, the profit ledger and the rate guard are not modelled; caps and prices are answers.
- Exchange.NenoExchange.OfframpNeno: idempotency keys and the rate limiter behind `rateOk` are not modelled; what the settlement records and audit entries at the end hold is not modelled either; whether they could be written is one answer.
- Exchange.RunsConserveSupply: buying, selling and custom-token handlers follow the same debit and credit pattern and are left out.
- DcaPlans.DcaBot.ExecuteDcaPlans: the fee field and average price, which no decision reads, and the parsing of stored dates are not modelled.
- PortfolioRisk.MaxDrawdown: Sharpe, Sortino, Calmar and volatility figures are left out, as is display rounding.
- MonteCarlo.ValueAtRisk: the random generator, the estimate of volatility and display rounding are left out.
- The double-entry ledger, the event-sourced cluster and the matching engine that the repository's documents describe are not among its files.
- Routing of HTTP requests, authentication, user interfaces, notifications and exports carry no such laws.
