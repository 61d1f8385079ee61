# hookbox, modelled and proved in Dafny

hookbox receives webhooks, stores each one once, and delivers it to every configured emitter through a Postgres
table that workers lease rows from. This project models the parts where those promises are made and proves them:

- **The delivery lease protocol** (`Deliveries`, `LeaseProtocol`, `LeaseSafety`, `LeaseHistory`, `LeaseOrder`,
  `LeaseLimits`, `LeaseRecovery`, `Starvation`). The table is a map of cells; a cell is a row of `webhook_deliveries`, the live dispatches that hold a
  claim on it, and a history of what happened to it. Every SQL statement or transaction is one atomic step, and so are
  an emitter's answer, the loss of an outcome (crash, mark that fails, receipt fetch that fails after the claim) and the
  passing of time. The theorems range over every interleaving of any number of workers.
- **The worker** (`Storage`, `Worker`, `WorkerLoop`, `Serve`). `PostgresStorage` and `EmitterWorker` are classes whose
  methods are proved to be steps and runs of the protocol. `WorkerLoop` adds the loop of the worker with its shutdown
  watch, one worker per emitter; `Serve` adds starting, rolling back a partial start, and draining.
- **Ingest** (`Ingest`, `RecentDedupe`, `AdvisoryDedupe`). Any number of requests, each between two of its stages,
  interleaved over one store and one dedupe strategy; then the bounded cache and the layered strategy, and one call of
  the pipeline as a run of that protocol.
- **What is reported and repaired** (`Aggregation`, `ReceiptState`, `Backoff`, `LegacyRetry`, `Replay`). The derived
  state of a receipt, tied to what the workers really did; the backoff arithmetic over the reals; the legacy retry
  machine; and who may insert replay rows, with the conservation of rows over whole histories.

`dafny verify dfyconfig.toml` checks everything.

## What the proofs say about the code

Three properties that one might expect are false of the code. Each has a lemma that shows it, and the exact condition.

- **`attempt_count` can go down.** The marks guard on `state = 'in_flight'` only, so the failed-mark of a dispatch that
  lost its lease can land on its successor's lease. `LeaseSafety.AttemptsDropExactly` says which step does it, if and
  only if; `LeaseLimits.StaleMarkLowersAttempts` gives a run for every `max_attempts` of three or more, and
  `LeaseSafety.TwoAttemptsNeverDecrease` shows that below three it cannot happen. It cannot happen either when no reclaim
  takes a row from a live dispatch (`LeaseOrder.AttemptsNeverDecrease`), which is the case with one worker per emitter.
- **A due delivery can be overtaken while the clock stands still.** `ORDER BY next_attempt_at` breaks ties as it likes,
  so rows inserted at the very moment when a delivery becomes due can go first. `Starvation.OverdueExactly` shows that
  the bound on claims holds if and only if the delivery became due strictly before the present moment.
- **The backoff is not always capped.** For `attempt <= 0` a release build returns `initial_backoff` unclamped.
  `Backoff.BackoffCapped` says exactly when the cap holds. The workers only ask for attempts of one and more.

The duplication bound of `LeaseSafety.BoundedDuplication` cannot be improved: `LeaseLimits.DuplicationBoundIsTight`
gives, for every n, a run with n reclaims and n + 1 successful emits.

Where the code and its documentation differ, the model follows the code:

- A failed verification returns before anything is stored (`crates/hookbox/src/pipeline.rs:111-134`), although
  `README.md:82` says that the receipt is stored.
- A duplicate inserts nothing (`crates/hookbox-postgres/src/storage.rs:313-330`), although `README.md:83` says that it is
  stored and marked.
- The cache that is called LRU evicts in insertion order (`crates/hookbox/src/dedupe.rs:84-94`): neither a hit nor a
  repeated record moves a key.

## Assumptions

- Each SQL statement or transaction is one atomic step, and there is one clock for the database and the workers. A
  database error means that the step did not happen, or that its outcome was lost; both are steps of the model.
- The configuration is constant during a run: `Configuration` maps each emitter to settings that pass
  `crates/hookbox-server/src/config.rs:533-577`. Emitter names are unique where a lemma says so.
- `emit` answers as it likes. Verification is an arbitrary verdict. The payload hash is an arbitrary total function to
  64 lowercase hex digits; nothing is assumed about collisions.
- `gen_random_uuid()` is a supply of identifiers that were never used, which are numbers here.
- A run starts from rows that are new or that the migration backfilled (`LeaseProtocol.Initial`). Backfilled rows are
  immutable and take no part in the protocol.
- `attempt_count` is an unbounded integer. It stays below `max_attempts` (`LeaseSafety.HonestFailureAccounting`), which
  is an `i32`, so the original's additions do not overflow.

## Model

| member | source | states |
|---|---|---|
| LeaseProtocol.StepIsStatement | crates/hookbox-postgres/src/storage.rs:795-952 | every step of the protocol changes the table exactly as the SQL statement behind it does |
| LeaseProtocol.RunsAppend | crates/hookbox-server/src/worker.rs:196-246 | runs compose, so that the passes of a worker's loop can be put one after the other |
| LeaseSafety.CellStaysSafe | crates/hookbox-postgres/src/storage.rs:795-952 | each step on a delivery, stale or not, keeps the accounting of claims and failures, and the columns that identify the row |
| LeaseSafety.RunsAreSafe | crates/hookbox-postgres/src/storage.rs:795-952 | the same for every delivery over every interleaving |
| LeaseSafety.BoundedDuplication | crates/hookbox-postgres/src/storage.rs:795-952 | claims = applied failed-marks + reclaims + one if the row is in flight, emitted or dead-lettered; hence at most 1 + reclaims successful emits, with no timing assumption |
| LeaseSafety.HonestFailureAccounting | crates/hookbox-server/src/worker.rs:274-350 | attempt_count never exceeds the failed emitter calls and stays below max_attempts; dead-lettered means at least max_attempts failures, emitted means a success |
| LeaseSafety.FrozenRowsNeverChange | crates/hookbox-postgres/src/storage.rs:800-952 | over every run an emitted, dead-lettered or immutable row keeps every column |
| LeaseSafety.FailedMarkSchedules | crates/hookbox-server/src/worker.rs:324-343 | a failed-mark that matches writes the attempts it was handed plus one and a next attempt one recorded delay after the mark, and the delay is within the jitter of the documented one |
| LeaseHistory.HistoryCounts | crates/hookbox-postgres/src/storage.rs:795-952 | every history counter of a delivery is the number of times that thing happened to it in the run |
| LeaseHistory.RunIsBounded | crates/hookbox-server/src/worker.rs:265-352 | duplication, attempt_count and the terminal states are bounded by the claims, reclaims and answers that occur in the run itself |
| LeaseSafety.AttemptsDropExactly | crates/hookbox-postgres/src/storage.rs:895-926 | a step lowers attempt_count if and only if it is the failed-mark of a dispatch that is behind the in-flight row it lands on |
| LeaseSafety.TwoAttemptsNeverDecrease | crates/hookbox-postgres/src/storage.rs:895-926 | with max_attempts of at most two attempt_count never goes down, stale marks included |
| LeaseLimits.DuplicationBoundIsTight | crates/hookbox-postgres/src/storage.rs:843-893 | for every n there is a run with n reclaims and n + 1 successful emits of one delivery |
| LeaseLimits.StaleMarkLowersAttempts | crates/hookbox-postgres/src/storage.rs:895-926 | for every max_attempts of at least three there is a run after which a mark lowers attempt_count |
| LeaseLimits.Lift | crates/hookbox-postgres/src/storage.rs:795-952 | every path of a single delivery is a run of a system that holds just that delivery |
| LeaseOrder.ExclusionEndsExactly | crates/hookbox-postgres/src/storage.rs:843-868 | a step ends exclusive ownership of a row if and only if it reclaims the row of a live dispatch |
| LeaseOrder.AtMostOneDispatch | crates/hookbox-postgres/src/storage.rs:800-841 | exclusive ownership means at most one live dispatch, and that one was handed the lease and attempt count the row shows |
| LeaseOrder.OrderlyRunsStayOrderly | crates/hookbox-server/src/worker.rs:196-246 | runs in which no reclaim steals keep exclusive ownership and the exact tally of lost outcomes |
| LeaseOrder.MutualExclusion | crates/hookbox-server/src/worker.rs:265-352 | in such runs a delivery has at most one live dispatch, its row is in flight with the attempt count and lease it was handed, and no mark ever matched zero rows |
| LeaseOrder.TimelyRunsAreOrderly | crates/hookbox-postgres/src/storage.rs:849-858 | if every dispatch ends within the lease it was handed, no reclaim ever steals, for any number of workers |
| LeaseOrder.AttemptsNeverDecrease | crates/hookbox-postgres/src/storage.rs:895-926 | in such runs attempt_count never goes down |
| LeaseOrder.ClaimsBounded | crates/hookbox-server/src/worker.rs:274-348 | whatever the emitter answers, a delivery is claimed at most max_attempts times plus once per lost outcome, one fewer while it still waits; a dead letter has between max_attempts and max_attempts + lost failures |
| LeaseOrder.TotalBackoffBounded | crates/hookbox-server/src/worker.rs:306-343 | the delays scheduled for a delivery add up to at most max_attempts - 1 times max_backoff |
| LeaseOrder.BackoffSchedule | crates/hookbox-server/src/worker.rs:306-343 | in such runs the i-th delay of a delivery lies within the jitter of min(initial_backoff * multiplier^(i-1), max_backoff) |
| LeaseRecovery.OrphanRecovered | crates/hookbox-postgres/src/storage.rs:843-868 | over every run a row whose dispatch is lost keeps its lease until the first reclaim later than last_attempt_at + lease, and that reclaim makes it claimable at once with its attempts kept |
| Starvation.AheadShrinks | crates/hookbox-postgres/src/storage.rs:800-821 | nothing joins the rows ahead of an overdue delivery, and a claim that passes it over takes a whole batch of them |
| Starvation.ClaimedInTurn | crates/hookbox-postgres/src/storage.rs:800-821 | with k rows ahead, an overdue delivery is taken by one of the next k / batch + 1 claims of its emitter, over every interleaving |
| Starvation.OverdueExactly | crates/hookbox-postgres/src/storage.rs:800-821 | that guarantee holds if and only if the delivery became due strictly before the present moment |
| Storage.PostgresStorage.StoreWithDeliveries | crates/hookbox-postgres/src/storage.rs:260-357 | inserts the receipt and one row per emitter name together, each fresh, pending, never attempted, created and due now, or changes nothing; a duplicate is answered with the id that holds the key |
| Storage.PostgresStorage.FindByKey | crates/hookbox-postgres/src/storage.rs:313-330 | finds a receipt with the key if and only if there is one |
| Storage.PostgresStorage.InsertReplays | crates/hookbox-postgres/src/storage.rs:1015-1047 | adds one such row per name, all or none, created and due now, leaves every other row alone, and returns the ids in order |
| Storage.PostgresStorage.PickBatch | crates/hookbox-postgres/src/storage.rs:804-816 | picks min(batch, due) due rows, none of which became due after one left behind |
| Storage.PostgresStorage.ClaimPending | crates/hookbox-postgres/src/storage.rs:795-841 | leases due, mutable rows of the emitter only, at most batch of them, changing state and last_attempt_at; a due row is passed over only by a full batch of rows due no later; returns the rows as they now stand |
| Storage.PostgresStorage.ReclaimExpired | crates/hookbox-postgres/src/storage.rs:843-868 | a mutable in-flight row of the emitter is requeued, due now, noted in its error and with its attempts kept, if and only if last_attempt_at + lease lies in the past; the count is the number of these rows |
| Storage.PostgresStorage.MarkEmitted | crates/hookbox-postgres/src/storage.rs:870-893 | matches an in-flight row, whoever claimed it, and changes no other |
| Storage.PostgresStorage.MarkFailed | crates/hookbox-postgres/src/storage.rs:895-926 | sets attempts, next attempt and error of an in-flight row, whoever claimed it, and changes no other |
| Storage.PostgresStorage.MarkDeadLettered | crates/hookbox-postgres/src/storage.rs:928-952 | dead-letters an in-flight row without raising its attempt_count, and changes no other |
| Storage.PostgresStorage.CountPending | crates/hookbox-postgres/src/storage.rs:965-982 | counts exactly the rows that a claim could take now |
| Storage.PostgresStorage.CountInFlight | crates/hookbox-postgres/src/storage.rs:984-993 | counts the emitter's mutable in-flight rows |
| Storage.PostgresStorage.CountDlq | crates/hookbox-postgres/src/storage.rs:954-963 | counts the emitter's dead letters, backfilled ones included |
| Storage.TargetsShape | crates/hookbox-postgres/src/storage.rs:1026-1041 | a fan-out uses consecutive fresh ids, one per name, in order |
| Storage.ClaimDrainsGauge | crates/hookbox-postgres/src/storage.rs:954-993 | a claim moves exactly min(batch, pending) rows from the pending gauge to the in-flight gauge and leaves the dead-letter gauge alone |
| Storage.BackfilledRowsIdle | crates/hookbox-postgres/migrations/0002_create_webhook_deliveries.sql:42-67 | whatever state a legacy receipt was in, its backfilled row is never claimable, in flight or reclaimable, and shows the receipt's outcome, attempts, error and times |
| Worker.EmitterWorker.DispatchOne | crates/hookbox-server/src/worker.rs:265-352 | what the row looks like after the emitter's answer, column by column: emitted, dead-lettered at max_attempts, or failed with one attempt more and due after a delay within the jitter of the documented one (exactly min(initial_backoff, max_backoff) after a first failure without jitter); a lost or late mark changes nothing |
| Worker.EmitterWorker.ReclaimAndClaim | crates/hookbox-server/src/worker.rs:196-234 | reclaim then claim, with every way they can fail, is a run of the protocol: a failed reclaim does not stop the claim, a receipt that cannot be fetched leaves the rows leased and hands out none, and every row handed out has a live dispatch |
| Worker.EmitterWorker.DispatchAll | crates/hookbox-server/src/worker.rs:236-240 | each claimed row is dispatched once with its own outcome, and the whole is a run of the protocol |
| Worker.EmitterWorker.RunCycle | crates/hookbox-server/src/worker.rs:196-242 | a pass of the loop, errors included, refines the protocol: it is a run of it that ends in the table left behind, with these steps and no others |
| WorkerLoop.LeasingIsLoop | crates/hookbox-server/src/worker.rs:196-246 | the leasing steps of such a pass are moves of the loop, which then waits for the batch if there are rows and for its next turn if there are none |
| Worker.DispatchRuns | crates/hookbox-server/src/worker.rs:265-352 | an answer and its mark are enabled whenever the dispatch is live, and touch no other delivery |
| WorkerLoop.SingleWorkersAreOrderly | crates/hookbox-server/src/worker.rs:180-262 | with one worker per emitter every run of the server is an orderly run of the lease protocol, however long emitters take |
| WorkerLoop.ShutdownIsClean | crates/hookbox-server/src/worker.rs:180-262 | after shutdown is sent a worker begins at most one more cycle, never has more than concurrency live deliveries, each with one dispatch, and has none when it exits |
| WorkerLoop.OneMoreCycle | crates/hookbox-server/src/worker.rs:180-262 | counted over the moves of any run that follows the shutdown signal, a worker leaves its wait to begin a cycle at most once |
| WorkerLoop.DrainedIsQuiet | crates/hookbox-server/src/serve.rs:110-130 | once every worker has stopped there is no live dispatch anywhere |
| WorkerLoop.ServerClaimsBounded | crates/hookbox-server/src/worker.rs:196-246 | in such a server claims, duplicates and missed marks of a delivery are bounded by its lost outcomes |
| Serve.DrainWorkerHandles | crates/hookbox-server/src/serve.rs:273-295 | awaits every task, also after a panic, and lists the names of exactly the panicked ones, in the order of the tasks; the list is empty if and only if none panicked |
| Serve.SpawnEmitterWorkers | crates/hookbox-server/src/serve.rs:168-232 | spawns the planned tasks and leaves them running, or reports the first build error after shutdown was sent and every task spawned so far has ended |
| Serve.OneWorkerPerEmitter | crates/hookbox-server/src/serve.rs:178-229 | with distinct names each configured emitter gets exactly one worker, a development channel one drain task besides, and no other emitter any |
| Serve.FirstErrorIsFirst | crates/hookbox-server/src/serve.rs:178-200 | the entry that stops a start is the first one that cannot be built |
| Serve.ServeInner | crates/hookbox-server/src/serve.rs:92-131 | however the server ends, no task is left running; the exit is clean if and only if everything could be built, the server met no error and no task panicked; a server error is reported before panics, and exactly the panicked tasks are named |
| Ingest.FirstWriterWins | crates/hookbox/src/pipeline.rs:90-285 | for any interleaving and any dedupe strategy the store is the first-writer-wins map of the inserts that reached it; every request told of a duplicate is told the first writer's id; a failed verification only ever leads to a rejection |
| Ingest.AcceptedReceipts | crates/hookbox/src/pipeline.rs:202-285 | over every run an accepted request's receipt has its provider, key, hash and body, in state stored with emit_count 0 |
| Ingest.FailedChecksStoreNothing | crates/hookbox/src/pipeline.rs:174-199 | with a dedupe strategy whose checks always fail nothing is ever stored, and every answer is a rejection or the failure of the check |
| Ingest.AcceptedOnce | crates/hookbox/src/pipeline.rs:227-285 | no two requests with the same provider and payload hash are both accepted |
| Ingest.OnlyCommitsChangeTheStore | crates/hookbox-postgres/src/storage.rs:260-357 | only a commit changes the tables, by its receipt and one pending row per configured emitter; only a record changes the dedupe state |
| Ingest.StaysLinear | crates/hookbox/src/pipeline.rs:90-285 | each single step keeps the agreement between store, answers given and fan-out |
| RecentDedupe.CacheIsWindow | crates/hookbox/src/dedupe.rs:76-97 | after any records the cache is exactly the last capacity effective insertions, oldest first, with their hashes, and the queue lists each cached key once |
| RecentDedupe.EvictedInTurn | crates/hookbox/src/dedupe.rs:84-94 | an inserted key stays until capacity more insertions have taken effect, and the last of these evicts it |
| RecentDedupe.DistinctNearby | crates/hookbox/src/dedupe.rs:80-96 | any capacity + 1 consecutive effective insertions insert different keys |
| RecentDedupe.InMemoryRecentDedupe.constructor | crates/hookbox/src/dedupe.rs:44-54 | starts empty; a capacity of zero is refused |
| RecentDedupe.InMemoryRecentDedupe.Check | crates/hookbox/src/dedupe.rs:58-74 | new if and only if the key is not queued, duplicate if and only if it was recorded with this hash |
| RecentDedupe.InMemoryRecentDedupe.Record | crates/hookbox/src/dedupe.rs:76-98 | is one step of that cache: a present key changes nothing, a full cache evicts its oldest key first |
| AdvisoryDedupe.DedupeKeyInjective | crates/hookbox/src/pipeline.rs:102-103 | keys are equal if and only if provider and hash are, although providers may contain the separator |
| AdvisoryDedupe.FastPathAgrees | crates/hookbox/src/dedupe.rs:134-150 | in every reachable state the layered check equals the authoritative one for every key and hash |
| AdvisoryDedupe.NeverConflict | crates/hookbox/src/dedupe.rs:64-73 | no check made by the pipeline reports a conflict: duplicate if the key is stored, new otherwise |
| AdvisoryDedupe.AdvisoryOnly | crates/hookbox/src/pipeline.rs:174-199 | two strategies whose checks never fail take the same schedule through the same stores to the same answers |
| AdvisoryDedupe.LayeredDedupe.CheckStore | crates/hookbox-postgres/src/dedupe.rs:45-62 | new if and only if no receipt has the key, duplicate if and only if one has it with this hash |
| AdvisoryDedupe.LayeredDedupe.Check | crates/hookbox/src/dedupe.rs:134-144 | asks the authoritative layer only when the fast one says new |
| AdvisoryDedupe.LayeredDedupe.Record | crates/hookbox/src/dedupe.rs:146-150 | reaches the fast layer; the authoritative one keeps no record of its own |
| AdvisoryDedupe.HookboxPipeline.Ingest | crates/hookbox/src/pipeline.rs:90-285 | decides the answer of an undisturbed call in every case and every column of the receipt and the rows it stores, and is a run of the ingest protocol |
| Aggregation.SummaryIsLatest | crates/hookbox/src/transitions.rs:509-525 | the summary gives, per emitter, the newest non-immutable row, the first in list order on ties |
| Aggregation.LatestMutablePerEmitter | crates/hookbox/src/transitions.rs:509-525 | the loop computes that summary |
| Aggregation.ReceiptAggregateState | crates/hookbox/src/transitions.rs:485-492 | the reported state, read off the newest mutable row of each emitter: dead-lettered before failed before unfinished before emitted, and the stored state if there is no such row |
| Aggregation.AnyListingAggregates | crates/hookbox/src/transitions.rs:457-474 | the precedence rules give the same answer for every listing of the summary's states |
| Aggregation.SummaryIgnoresOrder | crates/hookbox/src/transitions.rs:509-525 | with distinct timestamps per emitter the summary does not depend on the order of the rows |
| Aggregation.LaterRowDecides | crates/hookbox/src/transitions.rs:509-525 | a strictly later row changes its own emitter's entry and no other |
| Aggregation.ReplayClearsDeadLetter | crates/hookbox/src/transitions.rs:457-525 | a replayed delivery's old dead letter no longer counts; the others still do |
| Replay.ReplayRevives | crates/hookbox-server/src/routes/admin.rs:305-340 | after any granted replay later than the receipt's earlier rows, the derived state is dead-lettered or failed only on account of emitters that were not replayed, and stored otherwise |
| ReceiptState.FinalReportsAreStable | crates/hookbox/src/transitions.rs:457-525 | in a run without replays of a receipt, a derived Emitted or DeadLettered never changes again |
| ReceiptState.EmittedMeansEmitted | crates/hookbox/src/transitions.rs:457-525 | a derived Emitted means a successful emit for every emitter in the summary |
| ReceiptState.DeadLetteredMeansExhausted | crates/hookbox/src/transitions.rs:457-525 | a derived DeadLettered means that some delivery really failed max_attempts times |
| Backoff.BackoffCapped | crates/hookbox/src/transitions.rs:139-191 | the result is never negative, and is within max_backoff if and only if attempt >= 1 or initial_backoff is within it |
| Backoff.BackoffWithinJitter | crates/hookbox/src/transitions.rs:139-191 | the result lies within the jitter fraction of the clamped base, and equals it without jitter |
| Backoff.FirstDelay | crates/hookbox-server/src/worker.rs:324-336 | the first scheduled delay without jitter is min(initial_backoff, max_backoff), or one day if chrono cannot hold that |
| Backoff.DelayIsSteady | crates/hookbox-server/src/worker.rs:324-336 | without jitter the delay scheduled after the k-th failure is the initial backoff multiplied k - 1 times, capped; a multiplier of zero or less leaves it at the first |
| Backoff.NextSteady | crates/hookbox/src/transitions.rs:163-191 | each further delay is the multiple of the one before, up to the cap, for every multiplier of at least one, and for smaller ones when the first delay is not capped |
| Backoff.DelayIsSpread | crates/hookbox-server/src/worker.rs:324-336 | with jitter j and draw u the scheduled delay is exactly 1 - j + 2ju times that, capped |
| Backoff.DelayFits | crates/hookbox-server/src/worker.rs:324-336 | for every policy and draw the scheduled delay lies within the jitter of the steady one on either side and within the cap, or is the one day of chrono's saturation |
| Backoff.BackoffMonotone | crates/hookbox/src/transitions.rs:139-191 | without jitter and with a multiplier of at least one, delays never shrink, and stay at the cap once there |
| LegacyRetry.SqlAgrees | crates/hookbox-postgres/src/storage.rs:489-512 | the SQL update and its Rust mirror agree if and only if the addition does not overflow, hence on every findable receipt; the mirror saturates at the largest i32 |
| LegacyRetry.LegacyRetryIsExact | crates/hookbox/src/transitions.rs:93-124 | from a reset an always-failing emitter leaves the receipt findable for exactly max_attempts retries, then dead-lettered for good |
| LegacyRetry.IngestedNotFindable | crates/hookbox/src/pipeline.rs:202-225 | no receipt that the pipeline stored is ever findable by the legacy worker, whatever max_attempts is |
| LegacyRetry.RetryWorker.Poll | crates/hookbox-server/src/worker.rs:54-116 | a poll visits up to 100 findable receipts once each and leaves all others alone; a success makes the receipt emitted with its count kept, hence no longer findable; a failure adds one and dead-letters at max_attempts |
| LegacyRetry.RetryWorker.QueryForRetry | crates/hookbox-postgres/src/storage.rs:459-477 | returns findable receipts only, and all of them unless the limit of 100 is reached |
| LegacyRetry.RetryWorker.RetryFailed | crates/hookbox-postgres/src/storage.rs:489-512 | fails only if the addition overflows the INTEGER column; otherwise changes that one receipt as the Rust mirror says, and nothing for an unknown id |
| LegacyRetry.RetryWorker.ResetForRetry | crates/hookbox-postgres/src/storage.rs:522-543 | an unknown id is an error; any other receipt is back at the start and found again if and only if an attempt is allowed |
| Replay.ReplayApi.ReplayReceipt | crates/hookbox-server/src/routes/admin.rs:272-347 | granted if and only if the receipt exists and the named emitter is configured; adds a pending row per target, or changes nothing |
| Replay.ReplayApi.ReplayDelivery | crates/hookbox-server/src/routes/admin.rs:393-463 | granted if and only if the delivery exists and its emitter is still configured; all or nothing |
| Replay.ReplayApi.RetryDeadLetter | crates/hookbox-cli/src/commands/dlq.rs:130-183 | granted if and only if the delivery is dead-lettered and its emitter is configured; all or nothing |
| Replay.ReplayApi.ReplayToOne | crates/hookbox-cli/src/commands/replay.rs:128-151 | granted if and only if the emitter is configured and the receipt exists; adds that one row, or nothing |
| Replay.ReplayApi.ReplayToAll | crates/hookbox-cli/src/commands/replay.rs:153-191 | granted if and only if the receipt has deliveries and all their emitters are configured; one row per distinct one, or nothing |
| Replay.ReplayApi.ReplayById | crates/hookbox-cli/src/commands/replay.rs:110-192 | grants and refuses as these two do, adds one row per target or nothing, and is an event of the conservation of rows |
| Replay.RowsAreConserved | crates/hookbox-server/src/routes/admin.rs:305-340 | from any tables and over any history, new rows = new receipts x emitters + replayed rows, pair by pair and in total; no row is lost, and every new row names a configured emitter and a stored receipt |
| Replay.WorkersOnlyWork | crates/hookbox-postgres/src/storage.rs:795-952 | no step of the lease protocol but an insert adds, removes or redirects a row |

## Left out

- Postgres itself: row locks, `SKIP LOCKED`, isolation levels and transaction aborts; a statement or transaction is one step.
- The drift between the application's clock, which sets `next_attempt_at` after a failure, and the database's clock.
- Rounding, NaN and infinities in `compute_backoff`, and its debug assertions, which panic in a debug build for arguments that configuration does not allow.
- `EmitterHealth`, `derive_status`, `supervise_worker`'s health update and the gauges as metrics: monitoring data that no decision depends on, and whose counter is documented as approximate.
- The dropped sender of the shutdown watch, which the server keeps alive until its workers have ended.
- Dispatches of one batch inside `EmitterWorker.DispatchAll` run one after the other; their interleaving with each other and with other workers is covered by the protocol.
- AdvisoryDedupe.HookboxPipeline.Ingest: one call that meets no database error and no other request; the interleavings and the errors are steps of the ingest protocol.
- Ingest.FirstWriterWins: the `Duplicate` that the advisory check may report is only logged by the original and does not change what is stored, so the model records no trace of it.
- LegacyRetry.RetryWorker.QueryForRetry: the order by `received_at` among findable receipts.
- The `failed` subcommand of `hookbox replay`, a loop of independent resets.
- The order in which `get_deliveries_for_receipt` lists rows; the results hold for every listing.
- HTTP routing, authentication, JSON, tracing, the CLI's output, `parse_duration`, and the text forms of enums.
- Emitter adapters (Kafka, NATS, SQS, Redis) and signature verification.
- Configuration parsing and normalization, and the migrations beyond the backfill of deliveries.
