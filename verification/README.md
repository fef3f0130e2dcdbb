# tickr: a verified model of the outbox protocol and the worker engine

tickr stores messages in one SQL table that is also the queue. Producers insert rows; workers
claim them under a lease, run handlers and write the outcome back under a guard; a reclaimer,
a janitor and admin requeues run beside them. Any worker may stall, lose its lease and write
late. This project models that system in Dafny and proves what holds in every run of it.

`dafny verify dfyconfig.toml` checks the whole project.

## How it is built

| layer | modules | content |
|---|---|---|
| statements | Rows, Transitions, Claiming, ClaimContract, Enqueueing, BatchAck, Stores | each SQL statement as a function on a table; the adapter as a class whose methods change the table in place and are proved against those functions |
| protocol | Protocol, Funding, Invariants, Runs, Statements | all statements interleaved in any order on one clock, with a token for every claim still in a worker's hands; the inductive invariants |
| results on the protocol | Fencing, Guards, SuccessPath, Guarantees, Overrun, Lease | who can write a row, when the two ack guards agree, what a SUCCESS row proves, how often a message is attempted, nothing lost or wedged, lease extension |
| engine | Dispatch, AckPipeline, Outcomes, MaxAttempts, Engine, EngineRuns, Fates, Draining, Shutdown | one worker's goroutines as a state machine: dispatch, semaphores, handlers, ack flusher, drain; what an ending decides about its messages |
| whole system | Balance, Fleet, FleetRuns, EngineWrites, Custody, Delivery | any number of engines over one table, with crashes, lost claim replies and lost writes; it refines the protocol, which carries the protocol's results end to end |
| smaller parts | LeaderLock, Janitor, Backoff | CockroachDB leader lock, purge loops, retry delays |

`Dialect` selects the Postgres statements (CockroachDB runs the same ones) or the MySQL ones.
`Rules` names three disciplines a deployment may follow: no requeue of a message that some
worker may still write (`cleanRequeue`), no claim of a message by a worker whose own older
claim of it is live (`soloClaim`), no reclaim of a row that has used all its attempts
(`cappedReclaim`). Its fourth entry, `batchedSuccess`, is no discipline but a fact of the
engine: with an adapter that has BatchSucceed, as all of the repository's have, it writes every
success through it. A result that needs no discipline is stated for every run. One that does
comes with a run that breaks it and an if-and-only-if at the step where it is needed:

| result | needs | breaking run | exact step |
|---|---|---|---|
| single acks fenced, Postgres | cleanRequeue | Fencing.StaleWriteAfterRequeue | Fencing.RequeueSafeIff |
| single acks fenced, MySQL | soloClaim | Fencing.StaleWriteBySelf | Fencing.SelfClaimSafeIff |
| batched successes fenced, SUCCESS earned by the latest claim | cleanRequeue, on MySQL also soloClaim | SuccessPath.StaleSuccessBySelf | SuccessPath.RequeueKeepsSuccessIff, SuccessPath.ClaimKeepsSuccessIff |
| SUCCESS earned by some claim | nothing | through single MySQL acks, which the engine does not use: SuccessPath.SingleSucceedLacksEvidence | |
| guards agree | both | in the exact steps | Guards.RequeueKeepsGuardsIff, Guards.ClaimKeepsGuardsIff |
| attempts within max_attempts + reclaims | nothing on Postgres, either one on MySQL | Overrun.OverrunReachable | Overrun.RequeueKeepsBoundIff, Overrun.ClaimKeepsBoundIff |
| attempts within max_attempts | cappedReclaim, on MySQL also soloClaim | Guarantees.PoisonPill | Guarantees.ReclaimSafeIff |

## Where the code differs from its documentation

The model follows the code.

- ARCHITECTURE.md, sections 3 and 9, says that every state write is guarded by `claimed_by`.
  The Postgres adapter guards acks by `attempt`; only `Extend` uses `claimed_by`. MySQL guards
  single acks by `claimed_by`, but `BatchSucceed` by `attempt`.
- Section 3 promises that a worker that lost its lease cannot mark a row SUCCESS after another
  one took over. An admin requeue resets `attempt`, and a stale success can then go through on
  either adapter (`SuccessPath.RequeueKeepsSuccessIff`). On MySQL it is enough that a worker
  claims the message again: its stale release passes by name and takes the new attempt back,
  and the next claim repeats it (`SuccessPath.StaleSuccessBySelf`).
- Section 4 says that counting attempts at claim time keeps a message that kills its worker
  from looping forever. Reclaim does not look at `max_attempts`, so it does loop
  (`Guarantees.PoisonPill`).
- Section 3 says that a lease shorter than the attempt is safe, because it is extended for as
  long as the attempt is alive. The extender starts with the handler and stops with its goroutine,
  which on success only posts the ack, or when the attempt's context ends. While the message
  waits for a slot, and while its success waits for the ack flusher, nobody extends, and a
  reclaim can take the row from an attempt that is alive (`Lease.ReclaimTakesRow`).
  `Lease.LeaseHeldIff` gives the exact condition; the default lease of 30 seconds does not
  survive one flush that uses its timeout of 30 seconds, nor a wait of 35 seconds for a slot
  (`Lease.DefaultLeaseOutlasted`).
- Section 5 says that a clean shutdown burns no attempt. A handler that returns on cancellation
  before drain has begun burns one, and its message is dead if that was the last
  (`Shutdown.BuriedByShutdown`); exactly after drain has begun it is released
  (`Shutdown.CancelledReleasedIff`).
- Sections 2 and 5 say that a shutdown release preserves CREATED versus RETRYING. Postgres
  always writes RETRYING; MySQL writes CREATED for a first attempt.
- `RetentionPolicy` documents separate ages for SUCCESS and DEAD rows. Each purge loop deletes
  both statuses (`Janitor.MeetsDocumentationIff`).
- `Message.MaxAttempts` documents that zero inherits the handler's setting. The client stores
  its own `DefaultMaxAttempts` instead, 10 unless configured, so the handler's setting is
  never used; the documented fate results exactly if the two agree
  (`MaxAttempts.InheritsHandlerMaxIff`).
- `ExponentialBackoff` documents a jitter band. With a `Max` of 146 years or more, where the
  float conversion wraps, a jittered delay can be zero (`Backoff.JitterBandIff`).
- The Postgres claim writes the lease in whole seconds, so a lease below one second has
  expired as soon as it is written (`Statements.LeaseRounding`).

## Model

| member | source | states |
|---|---|---|
| Invariants.InvStep | storage/postgres/postgres.go:560-1133 | every statement of either adapter keeps the protocol invariant: unique keys, consistent rows, token order, attempt accounting, success evidence |
| Invariants.RunInv | storage/postgres/postgres.go:277-1145 | so does every run, under whichever disciplines it follows |
| Invariants.MessageStep | storage/postgres/postgres.go:560-1133 | no statement rewrites a message's type, payload, key, max_attempts or shard, and only a purge naming it removes it |
| Invariants.UniqueStep | storage/postgres/migrations/0001_init.sql:41-43 | every statement keeps at most one row per (event_type, key) |
| Transitions.WrittenIsAck | storage/postgres/postgres.go:732-898 | the column-by-column contract of the single writes determines the table, and it is the one the protocol step leaves |
| Transitions.ReleaseUndoesClaim | storage/postgres/postgres.go:850-861 | claim then release gives the row back, exactly on MySQL, as a retry due at once on Postgres |
| Guarantees.ReleaseRestores | storage/mysql/mysql.go:472-490 | so a claim and its own release leave the table as it was |
| Transitions.RequeueIsNew | storage/postgres/postgres.go:1067-1075 | a requeued row is the row as first enqueued, scheduled for the requeue time |
| Guarantees.RequeueRestores | storage/postgres/postgres.go:1067-1075 | so it is after every run that did not purge it |
| Fencing.PostgresFencing | storage/postgres/postgres.go:650-861 | in every run with clean requeues, single and batched acks reach a row only from its most recent claim, and stale tokens lag behind the row's attempt, strictly while it is HANDLING, although releases decrement it and reclaims do not |
| Fencing.MySQLFencing | storage/mysql/mysql.go:395-490 | where no worker overlaps its own claims, MySQL single acks reach a row only from its most recent claim; with clean requeues batched successes too, and stale tokens lag behind the row |
| Fencing.RequeueSafeIff | storage/postgres/postgres.go:1067-1075 | a requeue leaves the attempt guard safe in all further runs if and only if no token of that message is live |
| Fencing.SelfClaimSafeIff | storage/mysql/mysql.go:425-429 | a claim leaves the worker guard safe in all further runs if and only if the worker holds no older token of those messages |
| Fencing.StaleWriteAfterRequeue | storage/postgres/postgres.go:1067-1075 | from an empty table and for any message, a Postgres run in which a stale ack is accepted |
| Fencing.StaleWriteBySelf | storage/mysql/mysql.go:419-490 | the same for MySQL, any message and any worker, without a requeue |
| Fencing.GuardEquivalence | storage/mysql/mysql.go:419-490 | in every disciplined run, deciding each ack by attempt or by worker gives the same states throughout |
| Guards.RequeueKeepsGuardsIff | storage/postgres/postgres.go:1067-1075 | after a requeue the two guards agree in all further disciplined runs if and only if no token of the message is live |
| Guards.ClaimKeepsGuardsIff | storage/mysql/mysql.go:254-335 | after a claim they agree in all further disciplined runs if and only if the worker held no older token of those messages |
| SuccessPath.RequeueKeepsSuccessIff | storage/postgres/postgres.go:1067-1075 | on either adapter, a requeue keeps batched successes fenced, and SUCCESS rows earned by the latest claim, in all further disciplined runs if and only if no token of the message is live |
| SuccessPath.ClaimKeepsSuccessIff | storage/mysql/mysql.go:395-416 | on MySQL, a claim does so if and only if the worker holds no older token of those messages |
| SuccessPath.StaleSuccessBySelf | storage/mysql/mysql.go:472-490 | for any message and worker, a MySQL run with clean requeues and only batched successes that ends in a SUCCESS its most recent claim did not earn |
| SuccessPath.SingleSucceedLacksEvidence | storage/mysql/mysql.go:419-434 | with single MySQL success writes, a run that ends in a SUCCESS row whose attempt no handler succeeded in |
| Guarantees.SuccessHasEvidence | engine.go:522-550 | in every run a SUCCESS row's attempt has a claim whose handler returned nil or Skip: on Postgres always, on MySQL whenever successes are batched or no worker overlaps itself |
| Guarantees.SuccessIsLatest | storage/postgres/postgres.go:684-729 | with clean requeues, and no self-overlap on MySQL, that claim is the message's most recent one |
| Guarantees.AttemptAccounting | storage/postgres/postgres.go:572-1112 | attempt is claims minus effective releases since the last enqueue or requeue, always; claims are at most max_attempts plus reclaims plus releases, on Postgres always, on MySQL under either discipline |
| Funding.FundedStep | storage/mysql/mysql.go:437-469 | every step keeps the live tokens that may still ask for a retry covered by reclaims, so a stale retry let through by name never outruns max_attempts plus reclaims |
| Overrun.RequeueKeepsBoundIff | storage/mysql/mysql.go:585-602 | a MySQL requeue keeps that bound in all further runs with clean requeues if and only if the message allows no retry or no token of it is live |
| Overrun.ClaimKeepsBoundIff | storage/mysql/mysql.go:437-469 | where a worker otherwise never overlaps its own claims, a MySQL claim keeps that bound in all further runs, with requeues of any kind, if and only if the worker holds no older token of those messages that may still ask for a retry where the new attempt is the last one the bound allows |
| Overrun.OverrunReachable | storage/mysql/mysql.go:437-469 | from an empty table, for every message that allows a retry, a MySQL run that attempts it too often |
| Guarantees.ReclaimSafeIff | storage/postgres/postgres.go:1098-1112 | on Postgres, and on MySQL where no worker overlaps its own claims, a reclaim keeps attempt within max_attempts in all further runs with capped reclaims if and only if every reclaimed row had attempts left |
| Guarantees.PoisonPill | ARCHITECTURE.md:144-147 | on either adapter, for every n and every max_attempts, a run that reaches attempt n + 1 by claims and expiries alone |
| Guarantees.RowsConsistent | storage/postgres/postgres.go:560-1133 | every reachable row of either adapter: terminal exactly if completed, never FAILED, HANDLING exactly if it carries a claim (MySQL leaves the claim on finished rows), and if not terminal then claimable or reclaimable from some time on; keys stay unique |
| Guarantees.MessagesSurvive | storage/postgres/postgres.go:1126-1133 | over every run without a purge naming it, a message stays in the table with its own columns unchanged |
| Guarantees.SuccessIsFinal | storage/postgres/postgres.go:650-659 | over every run without a purge naming it, a SUCCESS row stays exactly as it is |
| Guarantees.ResendHarmless | storage/postgres/postgres.go:684-729 | a row that a batch made SUCCESS is left as it is by the same batch sent again after any run that did not purge it |
| Guarantees.CanStillSucceed | storage/postgres/postgres.go:1098-1112 | from every reachable state of either adapter, every unfinished message has a continuation that ends in SUCCESS |
| Claiming.TakeIsPrefix | storage/postgres/postgres.go:560-581 | ORDER BY, LIMIT and SKIP LOCKED take distinct candidates in (process_at, id) order, as many as limit and supply allow, with no unlocked candidate skipped |
| Claiming.PrefixUnique | storage/postgres/postgres.go:560-581 | those conditions determine the claimed rows |
| Claiming.AnySubsetClaimable | storage/mysql/mysql.go:340-379 | any set of eligible rows is what a claim takes when the others are locked |
| ClaimContract.ClaimTakesFirst | storage/postgres/postgres.go:623-642 | a claim statement returns the claimed rows as updated, leaves the others alone, and is empty only if it saw no candidate |
| ClaimContract.ClaimDetermined | storage/postgres/postgres.go:560-581 | in columns: of the rows that are CREATED or RETRYING, due, of a wanted type, in the wanted shard and unlocked, a claim takes the first n by (process_at, id), returns them as it leaves them, one attempt on and owned by the worker until the lease ends, and changes no other row; exactly what the statement does meets this |
| Stores.Store.constructor | storage/postgres/postgres.go:123-132 | an empty table of the chosen dialect |
| Stores.Store.ClaimQuery | storage/postgres/postgres.go:623-642 | one claim statement over a shard, or over all, in those columns, and empty exactly if no row qualifies |
| Stores.Store.Claim | storage/postgres/postgres.go:588-620 | in those columns: the shard's rows if any qualifies, else those of the all-shard statement on the table as others left it meanwhile; batch 1 (Postgres) or 100 (MySQL) if unset; nothing on MySQL without event types |
| Statements.ClaimIsStep | storage/postgres/postgres.go:588-620 | what a claim promises is an enabled protocol step, and the messages it returns are that step's tokens |
| Statements.AckIsStep | storage/postgres/postgres.go:732-898 | what a single write does is the protocol's ack step |
| Statements.ExtendIsStep | storage/postgres/postgres.go:909-919 | what Extend promises determines the table, and it is the protocol step's |
| Statements.RequeueIsStep | storage/postgres/postgres.go:1078-1094 | likewise for Requeue |
| Statements.ReclaimIsStep | storage/postgres/postgres.go:1098-1124 | likewise for ReclaimExpired, whose step is enabled |
| Statements.StepIsReclaim | storage/postgres/postgres.go:1098-1124 | every enabled protocol reclaim is a possible outcome of ReclaimExpired |
| Statements.PurgeIsStep | storage/postgres/postgres.go:1126-1145 | likewise for PurgeTerminal, whose step is enabled |
| Statements.EnqueueIsStep | storage/postgres/postgres.go:306-367 | likewise for Enqueue, whose step is enabled |
| Statements.StepIsClaim | storage/postgres/postgres.go:560-581 | every enabled protocol claim is what a claim statement with the event types of its messages may do, so one that MySQL runs too |
| Statements.ClaimedLeaseHeldIff | storage/postgres/postgres.go:588-600 | from a claim on, whatever everyone else does, the lease lasts until the outcome is written, as long as the attempt owns its row, if and only if waiting for a slot, the first extension and the outcome write fit into the lease as written, and each further extension with the outcome write into the configured lease |
| Statements.LeaseRounding | storage/postgres/postgres.go:592-600 | rounding to whole seconds: below one second the lease never holds, in whole seconds nothing changes |
| Lease.LeaseHeldIff | engine.go:482-520 | with a wait for a slot before the extender starts, ticker, scheduling slack and call latency, and a tail between the extender's end and the outcome write in which nobody extends, in every environment, the lease never runs out while the attempt owns its row if and only if wait + interval + slack + latency + tail fits into what is left and max(interval, latency) + slack + latency + tail into the lease |
| Lease.ReclaimTakesRow | ARCHITECTURE.md:95-99 | whenever that condition fails, a run in which a reclaim takes the row from an attempt that has not ended |
| Lease.LostOnlyToAcks | storage/postgres/postgres.go:1098-1112 | under that condition, from the claim to the outcome write, in every run of every environment, the row is lost to no reclaim, claim, requeue or purge, only to another token's accepted ack |
| Lease.RowHeldIff | engine.go:256-520 | where acks are fenced, the attempt keeps row and lease from the claim to the outcome write throughout every run if and only if the same condition holds |
| Lease.HalfLease | engine.go:482-520 | with a prompt extender and neither wait nor tail, the bound on one call is half the lease; two thirds is not enough |
| Lease.TwoThirds | engine.go:160-315 | however prompt the extender, the lease holds if and only if the wait for a slot and for the outcome write take at most two thirds of the lease together, or, of one below 300 ms, what 100 ms leave |
| Lease.DefaultLeaseOutlasted | engine.go:171 | so the default lease does not hold with one flush as long as its timeout, nor with a wait of 35 seconds |
| Enqueueing.BulkIsFold | storage/postgres/postgres.go:399-415 | the bulk insert leaves the table of enqueueing one by one, with repeated keys inside the batch |
| Enqueueing.ReplyAfter | storage/postgres/postgres.go:452-551 | the reply to each item, worked out after the statement, is the one it would have got in turn |
| Enqueueing.FoldUnique | storage/postgres/migrations/0001_init.sql:41-43 | enqueueing keeps at most one row per (event_type, key) |
| Stores.Store.Enqueue | storage/postgres/postgres.go:306-367 | a taken (event_type, key) changes nothing and is answered by the row that has it; else the row is stored with the requested type, payload, key, shard, limit (ten if unset) and time (now if zero), CREATED, unclaimed, at attempt 0, and every other row is unchanged |
| Stores.Store.EnqueueBatch | storage/postgres/postgres.go:452-551 | the table and the messages in input order of the one-by-one fold, each item stored as requested or answered by the row that took its key, and the fold's first duplicate (Postgres) |
| Stores.Store.EnqueueEach | storage/mysql/mysql.go:205-220 | the MySQL loop is that fold, with the same answers |
| BatchAck.BatchRefinesSucceed | storage/postgres/postgres.go:684-729 | BatchSucceed equals the fold of Succeed over its parameters |
| BatchAck.OrderAndRepetitionFree | storage/postgres/postgres.go:684-729 | order and repetition of its parameters do not matter |
| BatchAck.Idempotent | storage/postgres/postgres.go:684-729 | sending a batch again at once changes nothing |
| BatchAck.AtMostOnePerMessage | storage/postgres/postgres.go:650-659 | at most one entry per message takes effect, whatever attempts are in the batch |
| BatchAck.TokensAreAcks | engine.go:160-203 | the protocol's batched step is this statement on the tokens' acks |
| Stores.Store.BatchSucceed | storage/postgres/postgres.go:684-729 | all or nothing: matching rows become SUCCESS, or on a storage error or (Postgres) a malformed id nothing changes |
| Stores.Store.Succeed | storage/postgres/postgres.go:732-747 | changes at most the named row; if it is HANDLING and the attempt (Postgres) or worker (MySQL) matches, it becomes SUCCESS at now with message, attempt and schedule unchanged, else it stays as it is |
| Stores.Store.Fail | storage/postgres/postgres.go:825-845 | likewise becomes DEAD at now, or RETRYING and unclaimed with its attempt used, due at the retry time |
| Stores.Store.ReleaseShutdown | storage/postgres/postgres.go:883-898 | likewise becomes pending and unclaimed with the attempt given back, due at once (Postgres) or as scheduled (MySQL) |
| Stores.Store.Extend | storage/postgres/postgres.go:909-919 | succeeds exactly if the worker holds the row HANDLING, which then can be reclaimed exactly after the new end; everything else is unchanged |
| Stores.Store.Requeue | storage/postgres/postgres.go:1078-1094 | a DEAD row becomes the same message at attempt 0, claimable exactly from the given time on; any other row is unchanged and, on Postgres, an error |
| Stores.Store.ReclaimExpired | storage/postgres/postgres.go:1098-1124 | frees HANDLING, unlocked rows whose lease ended before now, as many as limit (500 if unset) and supply allow: RETRYING, unclaimed, due now, attempt used; every other row is unchanged |
| Stores.Store.PurgeTerminal | storage/postgres/postgres.go:1126-1145 | deletes terminal rows before the cutoff, up to the limit, all of them if fewer, on Postgres the oldest first |
| Dispatch.DispatchBatches | engine.go:280-315 | a type's group becomes consecutive chunks in order, all of the registered size but the last, one chunk if there is none |
| Dispatch.Partition | engine.go:230-254 | single and unhandled messages are laid out one by one, batch types wait in groups in claim order |
| Dispatch.PlanPoll | engine.go:205-254 | every claim becomes a plan: per type, the jobs laid end to end are its messages in claim order |
| Dispatch.PlanIsComplete | engine.go:230-254 | a plan holds every claimed message exactly as often as it was claimed |
| AckPipeline.AckFlusher | engine.go:160-203 | for every sequence of arrivals and ticks, the batches are non-empty, at most batchSize, and concatenate to the posted acks in order; a tick leaves nothing behind, and only a tick or the end cuts a batch short |
| Outcomes.AsIsFirst | errors.go:57-65 | the chain search finds the first match in pre-order of the error tree, and finds one whenever there is one |
| Outcomes.Classification | engine.go:522-605 | each fate holds exactly under its condition on the whole error tree: success, release, dead, retry at the outermost RetryAfter or the policy's delay |
| Outcomes.WrappingInvariant | errors.go:89-113 | any number of %w layers leaves the fate unchanged, if the caller's predicate does not tell them apart |
| Outcomes.PanicFate | engine.go:634-645 | a panic with an error counts as returning it; any other panic is retried or dead, never success or release |
| EngineRuns.RunInv | engine.go:205-437 | every interleaving of poll loop, handlers, flusher and drain keeps the engine invariant |
| EngineRuns.ConcurrencyBounds | engine.go:256-326 | invocations that run or still have outcomes to commit never exceed the configured pool (32 if unset) nor their type's registered maximum, and an idle engine holds no slot |
| EngineRuns.WaitsOnlyIfFull | engine.go:256-278 | in every run a message waits for the pool only while all its slots are taken, and for its type only at the type's maximum |
| EngineRuns.ExactlyOnceDisposal | engine.go:230-315 | every claimed message is waiting, dead-lettered for want of a handler, released, or handed to one invocation, and exactly one of these, wherever the context is cancelled |
| EngineRuns.PipelineIntact | engine.go:128-203 | flushed, buffered and queued acks are the posted ones in order, batches have permitted size, nothing is posted after close |
| EngineRuns.DrainLosesNothing | engine.go:128-153 | when drain is done, every claimed message is dead-lettered, released, written individually or in exactly one flushed batch |
| EngineRuns.NeverStuck | engine.go:256-278 | while the poll loop waits for a slot or drain waits for the engine, some step that settles started work is possible |
| EngineRuns.WaitsEnd | engine.go:128-153 | over every run during which the poll loop or drain waits, with ticks and cancellation interleaved, settling steps are bounded in number, and one is possible as long as the wait lasts |
| Draining.CanDrain | engine.go:128-153 | from every state an engine can be brought to rest: cancelled, waiting messages handed back, started handlers ended, acks flushed |
| Draining.InvokedWhole | engine.go:280-315 | in every run a handler is invoked with a whole planned job, of one type, one message unless it takes batches, and never more than its registered maximum; a chunk given up at a cancellation is handed back whole |
| Draining.PostWaitsIff | engine.go:65-72 | a success waits at the ack channel exactly while four batches are queued |
| Draining.BufferedCanFlush | engine.go:160-203 | in every reachable state buffered acks can be flushed, all of them and in order |
| Draining.HandedBackIfCancelled | engine.go:256-278 | over every run, no claimed message is handed back unhandled before the worker is cancelled |
| Fates.FateDecided | engine.go:522-605 | every message gets the fate its handler's ending calls for: success without error or with a Skip in the tree; else released if it contains a cancellation and drain had begun; else dead if it contains a DeadLetter, the predicate says so or no attempt is left; else retried after the outermost RetryAfter's delay or the policy's; only a success is posted |
| Fates.WarrantedOnce | engine.go:522-605 | the ending and the counter leave no choice of fate |
| Fates.FateFromEnding | engine.go:355-437 | in every reachable state, a committing invocation has a step at which its handler ended, and its messages have the fate of that ending with the shutdown as it was then |
| Shutdown.CancelledReleasedIff | engine.go:522-533 | a handler that gives way to the worker's cancellation, with no Skip, gets its attempt back if and only if drain had begun when it returned; otherwise on its last attempt it is dead |
| Shutdown.BuriedByShutdown | ARCHITECTURE.md:166-174 | for every message on its last attempt, an engine run in which cancelling the worker makes it dead |
| Balance.Balanced | engine.go:355-437 | every claimed copy of a message is either still held or handed to storage |
| FleetRuns.FleetRefinesProtocol | engine.go:355-437 | every run of any number of engines, with crashes, lost claim replies and lost writes, goes through a valid protocol run of the table |
| EngineWrites.CommitWrites | engine.go:535-605 | a commit leaves the row that the ending of its handler calls for (SUCCESS, DEAD, pending with the attempt given back, or RETRYING at now + delay) where the guard admits it, and no other row changed; a success of an engine that batches goes to the end of the ack channel instead |
| EngineWrites.FleetCommits | engine.go:535-605 | end to end in every fleet run, with the ending on record for that very message |
| EngineWrites.RefusalBuries | engine.go:328-346 | a claimed message without a handler is written DEAD |
| EngineWrites.HandBackReleases | engine.go:256-278 | a message that waits for a slot at a cancellation is released with its attempt given back |
| EngineWrites.FlushSucceeds | engine.go:160-203 | a flush hands over the buffer on a tick, at the end or when full, and makes exactly those rows SUCCESS that are HANDLING at an attempt it names |
| EngineWrites.OthersWriteNothing | engine.go:205-437 | every other engine step, and every lost write, leaves the table as it is |
| EngineWrites.EnginesReached | engine.go:205-437 | every engine of a fleet is where some engine run leads, so what holds over engine runs holds in fleets |
| Custody.LiveIffHeld | engine.go:205-437 | in every fleet run a claim may still be written exactly if one running engine, its worker's, holds it, once |
| Custody.AnyCallMayBeLost | engine.go:535-605 | any storage call of an engine may be lost, with the table unchanged and the engine none the wiser |
| Custody.CrashSilences | ARCHITECTURE.md:166-173 | in every fleet run an engine may crash; no row changes, and its claims, and only they, can be written no more |
| Custody.OutsideIsFree | worker.go:166-288 | every protocol step of producers, extenders, reclaimer, janitor, admins and the clock is possible beside any fleet |
| FleetRuns.SuccessWasReported | engine.go:535-550 | end to end, with no discipline: a SUCCESS row has a handler invocation of that message and attempt that ended without error or with a Skip, on Postgres and with engines that batch their acks on MySQL |
| FleetRuns.FleetFenced | engine.go:160-203 | with clean requeues, and no self-overlap on MySQL, no engine writes over a newer claim, and a SUCCESS row was reported by its most recent claim's handler |
| FleetRuns.FleetAccounting | engine.go:580-605 | in every fleet run attempts are claims less releases; the bound holds as in the protocol |
| FleetRuns.HeldOnce | engine.go:348-437 | an engine holds a token at most once, never after settling it, and what it holds is live and its own |
| FleetRuns.HandlerMaxAttemptsIgnored | engine.go:580-583 | in every reachable state, changing the handlers' max_attempts changes no message's fate |
| MaxAttempts.InheritsHandlerMaxIff | client.go:84-87 | a message enqueued without a limit has the documented fate for every ending at every attempt if and only if the handler's limit (at least one) is the client's default (ten if unset) |
| MaxAttempts.RetriedPastHandlerMax | message.go:54-56 | with default settings and a handler limit of three, the third failure is retried where the documentation buries it |
| Delivery.CanStillDeliver | engine.go:205-437 | from every reachable fleet state of either adapter, however engines crashed or lost writes, every unfinished message has a fleet run (expiry, a new engine, claim, handler, channel, flush) that ends in SUCCESS |
| LeaderLock.LockTable.constructor | storage/cockroach/cockroach.go:90-97 | an empty lock table |
| LeaderLock.LockTable.TryLeaderLock | storage/cockroach/cockroach.go:106-135 | takes a missing or expired lock for 60 seconds and reports whether it did; every other lock is unchanged |
| LeaderLock.LockTable.Unlock | storage/cockroach/cockroach.go:130-134 | afterwards the key is locked exactly if somebody else held it; every other lock is unchanged |
| LeaderLock.RunInv | storage/cockroach/cockroach.go:106-135 | every run keeps unexpired leaders and lock rows in step |
| LeaderLock.OneLeader | storage/cockroach/cockroach.go:101-135 | at most one unexpired leader per key, and leaders of one key overlap only if one outstayed its 60 seconds |
| LeaderLock.NoEarlyTakeover | storage/cockroach/cockroach.go:101-120 | nobody acquires a key before its leader unlocks or its 60 seconds are over |
| LeaderLock.StaleUnlockHarmless | storage/cockroach/cockroach.go:130-134 | a late unlock leaves every other unexpired leader's lock in place |
| LeaderLock.CrashKeepsLock | storage/cockroach/cockroach.go:101-135 | a leader may crash at any time, and its lock stays until its 60 seconds are over |
| LeaderLock.AlwaysRecoverable | storage/cockroach/cockroach.go:101-105 | however leaders crash, the key can be taken 60 seconds later |
| Janitor.PurgeLoop | worker.go:225-288 | ends; deletes only purgeable rows, and without errors or cancellation all of them and nothing else |
| Janitor.TryPurge | worker.go:225-288 | a full pass deletes exactly the SUCCESS and DEAD rows finished longer ago than the SUCCESS age (a day if unset) or the DEAD age (thirty days if unset, not used if negative) |
| Janitor.MeetsDocumentationIff | worker.go:13-16 | a full pass deletes what is documented if and only if no terminal row's age lies between the two cutoffs |
| Janitor.DeadPurgedAfterADay | worker.go:13-16 | with default or disabled Dead age, a two-day-old dead letter is deleted |
| Backoff.GuardIsExact | retry.go:34-74 | the overflow guard gives min(Max, Base * 2^(attempt-1)) at every attempt, on every architecture |
| Backoff.NoJitter | retry.go:18-19 | without jitter the delay is the documented formula |
| Backoff.DelayDoubles | retry.go:34-74 | without jitter it starts at the base (a second if unset), doubles from attempt to attempt and is cut off at the maximum (an hour if unset) |
| Backoff.JitterFormula | retry.go:34-74 | with jitter it is that delay scaled by a factor between 1 - j and 1 + j, with j cut off to [0, 1], rounded down and cut off at the maximum, as long as it fits an int64 |
| Backoff.MonotoneInAttempt | retry.go:34-74 | for one and the same draw the delay never decreases from attempt to attempt, as long as the widened delay fits |
| Backoff.InRange | retry.go:34-74 | the delay is always between 0 and Max |
| Backoff.JitterBandIff | retry.go:34-74 | every draw stays between (1-j)d rounded down and min(Max, (1+j)d) if and only if the widened delay fits an int64, or the conversion saturates, or the band reaches zero |
| Backoff.SmallMaxFits | retry.go:34-74 | a Max below 2^62 ns rules the overflow out for every setting |
| Backoff.HugeMaxCollapses | retry.go:34-74 | a setting for which it happens |

## Left out

- Drivers, connection pools, transactions as I/O: statements are atomic; the adapters' errors are inputs or lost writes.
- Clock skew: the database and all workers share one monotone clock; `Extend` and MySQL's claim use the worker's clock in the code.
- UUID generation and worker names: ids and lock holders are fresh; two workers running at the same time have different names.
- History tables, last_error, headers, created_at and updated_at: they feed no decision modelled here.
- Partitioned Postgres mode: its idempotency is documented as not atomic.
- LISTEN/NOTIFY, poll timers, metrics, tracing, alerts, logging, codecs, HTTP and gRPC handlers, migrations, the command-line tool.
- Postgres and MySQL leader locks: session locks of the database itself.
- purgeHistory: the same loop shape as the purge loops on a table without state.
- MySQL EnqueueBatch after a storage error: it goes on with a gap in its result; the model's calls succeed.
- Floating-point rounding: delays are computed in exact arithmetic; out-of-range conversion is kept.
- Goroutines: the engine is a state machine over its goroutines' steps, on values; memory effects below channel and semaphore operations are not captured.
- Attempt timeouts and the extender's cancellation of a handler, as timed events: a handler may end at any time with any error, and the extender may stop at any time.
- Errors with their own Is or As methods.
- Lease.LeaseHeldIff: wait and tail are bounds the caller supplies, since no code bounds the time to a free slot or in the ack channel; an Extend call that fails counts as one whose latency is exceeded; a batch handler's extender is covered by taking the total time of its calls as latency; another attempt of the same worker on the same message may extend the lease but not shorten it.
- Janitor.TryPurge: no other session changes the table between its batches.
- Stores.Store.EnqueueBatch: the parallel parameter slices are one sequence of items.
- Stores.Store.Claim: RETURNING order is taken to be the selection order.
- Statements.LeaseRounding: needs a positive lease, which the engine's default ensures.
- Guarantees.ReclaimSafeIff: on MySQL only without self-overlap, because otherwise a stale retry can pass by name without any reclaim being at fault.
- Delivery.CanStillDeliver: not under `cappedReclaim`, where a stalled last attempt is never reclaimed.
