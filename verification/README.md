# pg-tide: the delivery and retention protocol, verified

pg-tide publishes messages into an outbox table inside PostgreSQL, relays them to a sink with
at-least-once delivery, and cleans the outbox up once every consumer has passed a row. This project
models that protocol and proves what it promises: no message is lost, nothing is deleted too early,
checkpoints never go back, an inbox sink stores each message once, and a backlog always drains. Where a
promise has a limit, the limit is proved exactly.

Run `dafny verify dfyconfig.toml` in this directory.

## How the files fit together

- **The protocol as a step system.** `Protocol.dfy` has the state (outbox rows, open publisher
  transactions, fences, checkpoints, consumer groups, leases, workers with their sessions and advisory
  locks, running sweeps, destinations) and one step for every SQL statement, sink reply, crash, lost
  session and administrative change. Any number of publishers, relays, bounded replays, consumers and
  sweeps interleave.
  `Outbox.dfy`, `Retention.dfy`, `Ids.dfy` and `Upsert.dfy` hold the SQL reads and writes the steps use.
  `ProtocolInvariants.dfy` states what every step keeps; `ProtocolStore.dfy`, `ProtocolPositions.dfy`,
  `ProtocolOwnership.dfy`, `ProtocolDest.dfy`, `ProtocolSweeps.dfy` and `ProtocolLoss.dfy` prove it, one
  concern each; `ProtocolRuns.dfy` lifts it to whole runs; `ProtocolTheorems.dfy` draws the conclusions.
  `ProtocolHistory.dfy` and `ProtocolRetention.dfy` prove that the tables hold exactly what the steps of a run
  have put there: published, delivered, committed and deleted by those steps and no others;
  `ProtocolSessions.dfy` does so for workers, sessions and locks. `ProtocolLimits.dfy` and
  `ProtocolLeases.dfy` show exactly where three of the promises end.
- **The worker loop.** `Worker.dfy` is the relay's loop as it is written, with its mutable cursor,
  counters and breaker. It is proved equal to `WorkerLoop.dfy`, the same loop as a function of its state
  and its inputs (polls, size limits, sink replies, dead-letter writes, commit replies, stop signals).
  Rows may come and go between its iterations. `Drain.dfy`, `Replay.dfy` (with `ReplayRange.dfy`),
  `Backoff.dfy`, `WorkerDelivery.dfy`, `WorkerBreaker.dfy` and `WorkerFailures.dfy` prove its properties.
  `WorkerInProtocol.dfy` proves that every iteration, of a live pipeline or of a replay, is a path of the
  protocol that does to the destinations exactly what its inputs say, and `LoopInProtocol.dfy` that whole
  loops are protocol runs with anything else happening between iterations, so the protocol's guarantees
  hold of the loop. `ReplayInProtocol.dfy` uses the outbox fence to prove that a replay in a live system
  covers its range.
- **The delivery state machine.** `DeliveryModel.dfy` is the relay's own small model, with an exact
  description of the facts it can reach. `ProtocolDelivery.dfy` and `WorkerDelivery.dfy` show that the
  protocol's workers and the loop refine it.
- **Cleanup.** `Sweep.dfy` is the extension's sweep of one outbox, `SweepAll.dfy` the statement over all of
  them, and `SweepCommand.dfy` the command that repeats it in separate transactions, including lost replies
  and failures.
- **Components.** `CircuitBreaker.dfy`, `PublishLimits.dfy`, `PipelineSchema.dfy` (which configurations are
  admitted, and what follows for the worker), `DedupKey.dfy`, `Inbox.dfy`,
  `Coordinator.dfy` (ownership and health of one relay process), `Placeholders.dfy` (configuration
  placeholders) and `Budgets.dfy` (regression classification over exact reals).

Inputs the code does not control are parameters: clock readings, sink replies, commit replies, size
verdicts, catalog answers and `hashtext`, about which nothing is assumed. A reply may be lost after its
write has committed.

## What the code does differently from what it says

- A relay group without an offset row does not hold back cleanup when another group has one for the same
  pipeline, because the minimum is taken over existing rows only. `ProtocolLimits.SweepLosesExactly` says
  exactly when that can lose a message, `ProtocolLimits.SecondGroupCanLose` gives a concrete run, and
  `ProtocolTheorems.NoLossForSoleParticipant` gives the configuration in which nothing is lost.
- The ownership lock contains the tenant, the checkpoint key does not. `ProtocolLimits.TwoWritersExactly`
  says exactly when two live workers can own one checkpoint.
- A bounded replay takes no ownership lock, and it writes dead letters (`coordinator.rs:46-122`, `1541-1640`).
  So "every durable write is made under the pipeline's lock" holds of checkpoints, and of dead letters if and
  only if their writer is not a replay (`ProtocolTheorems.DurableWritesUnderLock`); a pipeline has a single
  writer among its owners (`ProtocolTheorems.SingleWriter`), but every stored row can be dead-lettered by a
  replay at the same time (`ProtocolLimits.ReplayCanDeadLetterToo`), and for every pipeline there is a run with
  both writers ready (`ProtocolLimits.TwoDeadLetterWriters`). The unique key of the queue keeps the entries
  single.
- A replay fails when the live checkpoint changed while it ran, though the replay itself never moves it: the
  error means that a live relay advanced meanwhile (`Replay.RunReplayOnce`).
- The sweep releases its session lock before its transaction commits (`outbox.rs:628-637`, and the command's
  own COMMIT). The checkpoint and consumer guarantees survive that (`ProtocolTheorems.RetentionSafeAtCommit`),
  the lease guarantee does not: a lease granted in between stands when the deletion commits
  (`ProtocolLeases.LeaseGuardCanFail`), and `ProtocolLeases.LeaseGuardExactly` says exactly when.

Three more concern code that no admitted configuration reaches, because the pipeline schema refuses the keys
`circuit_breaker`, `poll_interval_ms`, `max_poll_backoff_ms` and `dry_run`, and no connector declares such a limit
(`PipelineSchema.AdmittedDefaults`, `PublishLimits.ConnectorLimitsExact`):

- `circuit_breaker.rs:134` says half-open allows exactly one probe; the code would allow every request. The comment
  holds only for success thresholds 0 and 1 (`CircuitBreaker.OneProbeExactly`); an admitted pipeline's breaker never
  leaves the closed state (`PipelineSchema.AdmittedBreakerIdle`).
- The byte limit of a batch is compared with a saturating sum, so a limit of `u64::MAX` would accept sums above it
  (`PublishLimits.SaturationHidesOverflowExactly`); the limits the connectors declare are exact.
- The poll backoff would overflow for negative values (`Backoff.OverflowsExactly`); an admitted pipeline's never does
  (`PipelineSchema.AdmittedBackoff`).

## Model

| member | source | states |
|---|---|---|
| ProtocolRuns.InvKept | pg-tide-relay/src/coordinator.rs:1119-1656 | every step of every publisher, worker, bounded replay, session, sweep, consumer and administrator keeps the whole protocol invariant, crashes and lost replies included |
| ProtocolHistory.PublishedExactly | pg-tide-ext/src/outbox.rs:375-394 | in every state of every run a row is committed if and only if one transaction inserted exactly this row and then committed, its first end since |
| ProtocolHistory.RolledBackForGood | GLOSSARY.md:13-17 | a message whose transaction rolled back is never stored, committed, held by a worker or settled anywhere, in any later state |
| ProtocolHistory.DestinationsExactly | pg-tide-relay/src/coordinator.rs:1427-1656 | a sink has accepted a message, the dead-letter queue or an inbox holds it, a dry run has observed it, each if and only if some step of the run did that |
| ProtocolHistory.SettledWasCommitted | pg-tide-relay/src/source/outbox.rs:344-382 | nothing is invented: whatever is settled for a checkpoint is a committed row of its outbox |
| ProtocolTheorems.NoLoss | pg-tide-relay/src/coordinator.rs:1817-1876 | in every reachable state every committed row at or below a checkpoint was accepted, dead-lettered or observed by a dry run, or a sweep that had not read this checkpoint deleted it |
| ProtocolTheorems.NoLossIfHeeded | pg-tide-ext/src/outbox.rs:650-681 | no loss without exception, if every sweep of this outbox, when it reads the participants, either reads this checkpoint or may delete nothing |
| ProtocolTheorems.NoLossForSoleParticipant | pg-tide-ext/src/outbox.rs:650-681 | in particular, if at those moments the pipeline is registered on the outbox and no second relay group keeps checkpoints for it |
| ProtocolTheorems.NoLossWithoutDryRuns | pg-tide-relay/src/config/schema_support.rs:14-33 | in a run that starts no dry run, as the schema has it, every committed row at or below a checkpoint was accepted or dead-lettered, or deleted by a sweep that had not read the checkpoint |
| ProtocolTheorems.InboxExactlyOnce | pg-tide-relay/src/sink/inbox.rs:53-96 | a row the checkpoint has passed, delivered only into this inbox and neither dead-lettered, dry-run nor swept unseen, is stored there exactly once with its own content, whatever was retried or crashed |
| ProtocolTheorems.InboxAtMostOnce | pg-tide-relay/src/sink/inbox.rs:70-83 | in every reachable state two inbox rows with the same message or the same key are the same row |
| ProtocolTheorems.FenceHidesNoIds | pg-tide-ext/src/outbox.rs:375-394 | once a fenced poll has returned an id, no transaction ever commits a row of that outbox at or below it |
| ProtocolTheorems.PolledNeverFalls | pg-tide-ext/src/outbox.rs:26-35 | the highest id a poll of an outbox has returned never falls over a run |
| ProtocolTheorems.RetentionSafe | pg-tide-ext/src/outbox.rs:639-782 | at the DELETE every deleted row is old enough, at or below the current offset of every checkpoint and consumer the sweep read, settled for each of those checkpoints, and no lease is unexpired |
| ProtocolTheorems.RetentionSafeAtCommit | pg-tide-relay/src/cmd/sweep.rs:223-242 | at the COMMIT, after the fence is released, all of that still holds but for the leases |
| ProtocolRetention.RetentionAge | pg-tide-ext/src/outbox.rs:710-743 | from the DELETE to the COMMIT every chosen row satisfies created + retention < started, for the retention and the time the sweep was started with, and each consumer the sweep had read has itself committed an offset at or above it |
| ProtocolRetention.CandidatesExactly | pg-tide-ext/src/outbox.rs:711-743 | an unblocked sweep may choose a row if and only if it is stored in its outbox, that old, at or below the safe offset and not chosen by another sweep |
| ProtocolRetention.DeletedExactly | pg-tide-ext/src/outbox.rs:743-782 | a committed row is gone if and only if a sweep chose it and then committed; an aborted sweep deletes nothing |
| ProtocolRetention.CatalogExactly | pg-tide-ext/src/outbox.rs:925-965 | over every run each consumer's recorded offset is exactly the one it last committed since its group was last dropped, and groups and pipelines are as last created or registered |
| ProtocolRetention.ConsumerNeverFalls | pg-tide-ext/src/outbox.rs:932-955 | until its group is dropped a consumer's recorded offset never falls |
| ProtocolLeases.LeaseGuardExactly | pg-tide-ext/src/outbox.rs:628-637 | at any time after an unblocked sweep has released its fence, and so at its commit, an unexpired lease exists if and only if one was granted since then and still stands |
| ProtocolLeases.LeaseCanSlipIn | pg-tide-ext/src/outbox.rs:689-703 | from every state in which a sweep may delete, a new group's lease can be granted before the deletion commits |
| ProtocolLeases.LeaseGuardCanFail | pg-tide-ext/src/outbox.rs:628-637 | a concrete run of ordinary publishing workers that is about to commit the deletion of a row under an unexpired lease |
| ProtocolTheorems.SweepReadsEveryParticipant | pg-tide-ext/src/outbox.rs:650-687 | a sweep reads exactly the checkpoints of pipelines registered on the outbox, disabled ones included, and the consumers of its groups; a pipeline without any checkpoint forbids every deletion |
| ProtocolTheorems.DurableWritesUnderLock | pg-tide-relay/src/coordinator.rs:676-731 | a checkpoint changes only by a write of a worker whose live session holds its pipeline's lock, and only to the end of a settled batch; the dead-letter queue changes only by a write of a live session, which holds that lock if and only if its worker is not a replay |
| ProtocolTheorems.SingleWriter | pg-tide-relay/src/coordinator.rs:365-406 | of two workers of one lock scope that could both write checkpoints or dead letters at least one is a replay, whatever fenced-out workers still publish |
| ProtocolSessions.WorkersExactly | pg-tide-relay/src/coordinator.rs:654-733 | over every run a worker is there from its start to its exit as exactly what it was started as, and its session is up exactly until it is lost |
| ProtocolSessions.LocksExactly | pg-tide-relay/src/coordinator.rs:365-406 | a lock is held by a worker if and only if it was started with it as an owner and its session has been up since |
| ProtocolLimits.ReplayCanDeadLetterToo | pg-tide-relay/src/coordinator.rs:46-122 | whenever the fence is free, whatever the owner is doing, a replay of any stored row can become a second writer of the pipeline's dead-letter queue while the owner stands still |
| ProtocolLimits.TwoDeadLetterWriters | pg-tide-relay/src/coordinator.rs:1541-1640 | for every pipeline a concrete run in which its live owner and a replay can both write the same dead-letter queue |
| ProtocolTheorems.CheckpointsNeverDecrease | pg-tide-relay/src/source/outbox.rs:413-438 | a durable checkpoint never decreases over a whole run |
| ProtocolLimits.TwoWritersExactly | pg-tide-relay/src/coordinator.rs:388-396 | two live workers for one checkpoint under two tenants are reachable if and only if the two lock scopes hash differently |
| ProtocolLimits.ScopesExactly | pg-tide-relay/src/coordinator.rs:388-396 | two tenants share no lock scope of a pipeline, two pipelines none of a tenant |
| ProtocolLimits.SettledForGood | pg-tide-relay/src/coordinator.rs:1427-1656 | a message once settled stays settled over every continuation |
| ProtocolLimits.SweepLosesExactly | pg-tide-ext/src/outbox.rs:650-687 | a sweep about to delete any batch can end in a loss of one of its rows for a checkpoint if and only if it has not read that checkpoint and the row is not yet settled for it |
| ProtocolLimits.SecondGroupCanLose | pg-tide-ext/src/outbox.rs:651-660 | a concrete run of ordinary publishing workers with two relay groups on one pipeline in which a message is lost |
| ProtocolLimits.CheckpointCanPass | pg-tide-relay/src/coordinator.rs:1427-1470 | from any state with a free fence a checkpoint can move past every row, deleted ones included, while the sink takes only rows that are still there |
| ProtocolDelivery.DeliverSimulates | pg-tide-relay/src/delivery_model.rs:79-154 | as long as a worker keeps its batch, each of its steps is a legal path of the delivery machine that ends in the matching state |
| ProtocolDelivery.WorkersRefineDeliveryModel | pg-tide-relay/src/delivery_model.rs:79-154 | in every state of every run, the delivery events of a worker's own steps since its last poll are a legal delivery run from its freshly polled batch to exactly the phase it is in; an acknowledged frontier means the sink has accepted the whole batch, a possible duplicate that it has accepted some of it |
| ProtocolDelivery.VisibleExactly | pg-tide-relay/src/delivery_model.rs:79-154 | as long as no two live owners share a checkpoint, the machine calls a live owner's batch visible if and only if the durable checkpoint is below the end of the batch |
| ProtocolLoss.SelectAccounts | pg-tide-relay/src/source/outbox.rs:344-382 | after the poll every committed row up to the end of the batch is in the batch or already accounted for |
| ProtocolLoss.LossAfterCommit | pg-tide-ext/src/outbox.rs:748-782 | committing a sweep keeps every committed row at or below a checkpoint accounted for |
| ProtocolLoss.DoomedSettled | pg-tide-ext/src/outbox.rs:748-782 | a row a sweep removes is settled for every checkpoint the sweep had read |
| Retention.SafeOffsetAttained | pg-tide-ext/src/outbox.rs:650-684 | the safe offset is the position of some participant, zero for one without offsets, and absent exactly when there are no participants |
| Retention.SafeOffsetExactly | pg-tide-ext/src/outbox.rs:650-684 | the safe offset is the least of all recorded positions of registered pipelines and groups of the outbox, counting zero for one without any, and there is one exactly if somebody takes part |
| Retention.SafeBelowKey | pg-tide-ext/src/outbox.rs:651-660 | the safe offset is at or below every checkpoint the sweep reads |
| Retention.SafeBelowConsumer | pg-tide-ext/src/outbox.rs:661-667 | the safe offset is at or below every consumer's committed offset |
| Retention.CommitExactly | pg-tide-ext/src/outbox.rs:925-965 | a consumer commit is refused if and only if it is negative, names no group or falls behind; otherwise exactly this consumer stands at the committed offset, without a lease |
| Outbox.SelectAfter | pg-tide-relay/src/source/outbox.rs:364-372 | a poll returns ascending ids above the cursor with none skipped, and nothing only when nothing is there |
| Upsert.InsertIgnoreSpec | pg-tide-relay/src/dlq.rs:81-122 | an insert that skips conflicts only appends, keeps keys unique, ends up with every key of the batch and invents no row |
| Upsert.FirstWins | pg-tide-relay/src/sink/inbox.rs:70-83 | of several rows of one statement with one new key the first is stored |
| DedupKey.KeyRoundTrip | pg-tide-relay/src/envelope.rs:68 | a printed key parses back to its table, id and index, whatever the table name contains |
| DedupKey.KeyInjective | pg-tide-relay/src/envelope.rs:68 | two printed keys are equal if and only if table, id and index are |
| DedupKey.IntoMessages | pg-tide-relay/src/envelope.rs:118-161 | one message per row, inserted rows before deleted ones, with pairwise distinct keys |
| DedupKey.KeysAcrossBatches | pg-tide-relay/src/envelope.rs:118-161 | messages of batches with different outbox ids never share a key |
| Inbox.AddedPlusSkipped | pg-tide-relay/src/sink/inbox.rs:85-93 | the duplicate count never underflows and is the number of skipped rows |
| Inbox.InboxSink.PublishBatch | pg-tide-relay/src/sink/inbox.rs:53-96 | table and counter after one call, for a commit, a refusal and a lost reply |
| Inbox.InboxRun | pg-tide-relay/src/sink/inbox.rs:53-96 | over any sequence of calls on any table and any counter, each key is stored once, nothing stored is lost, everything that reached the table is stored and nothing else is added, and the counter grows by messages of successful calls minus rows they inserted |
| Inbox.SucceededExactly | pg-tide-relay/src/sink/inbox.rs:85-96 | the tally of successful messages is the sum of the batches that were reported stored |
| Inbox.RepublishStoresNothing | pg-tide-relay/src/sink/inbox.rs:74-77 | publishing a batch again stores nothing more |
| CircuitBreaker.Breaker.ShouldAllowNow | pg-tide-relay/src/circuit_breaker.rs:135-155 | the breaker's answer and new state, and that its 32-bit counters stay within their thresholds |
| CircuitBreaker.Breaker.Succeeded | pg-tide-relay/src/circuit_breaker.rs:158-180 | the state after a success, without counter overflow |
| CircuitBreaker.Breaker.Failed | pg-tide-relay/src/circuit_breaker.rs:183-209 | the state after a failure, without counter overflow |
| CircuitBreaker.CountersMatchLog | pg-tide-relay/src/circuit_breaker.rs:135-209 | after any log of attempts the counters are the trailing failure run, the threshold, the opening time of the last error and the deliveries since it |
| CircuitBreaker.StateAfterExactly | pg-tide-relay/src/circuit_breaker.rs:158-209 | a delivery closes the circuit exactly when it was closed or the deliveries since the last error reach their threshold, and an error opens it exactly when it was not closed or the trailing errors reach theirs |
| CircuitBreaker.DeniedExactly | pg-tide-relay/src/circuit_breaker.rs:142-151 | the sink is not called if and only if the last thing let through opened the circuit less than the timeout ago |
| CircuitBreaker.QuietAfterOpening | pg-tide-relay/src/coordinator.rs:1998-2017 | with a monotone clock no sink call happens within the timeout after any opening |
| CircuitBreaker.OneProbeExactly | pg-tide-relay/src/circuit_breaker.rs:134-153 | if the breaker were enabled, half-open would let one probe decide exactly for success thresholds up to one |
| DeliveryModel.ReachableExactly | pg-tide-relay/src/delivery_model.rs:79-154 | the facts reachable by some run are exactly those described, in both directions |
| DeliveryModel.DeliveryGuarantees | pg-tide-relay/src/delivery_model.rs:79-154 | the source is invisible exactly after a commit, an acknowledged frontier is the source checkpoint, and only a terminal disposition can be committed |
| DeliveryModel.EachEventAdvances | pg-tide-relay/src/delivery_model.rs:79-154 | every legal event takes the batch strictly further, and only a committed batch can be followed by the next |
| PublishLimits.ValidatePublishLimits | pg-tide-relay/src/coordinator.rs:2019-2064 | accepts if and only if count, each size and the true sum are within limits, for every byte limit below the largest 64-bit value, and reports the first offending message |
| PublishLimits.SaturationHidesOverflowExactly | pg-tide-relay/src/coordinator.rs:2053-2055 | a batch above the byte limit can be accepted if and only if that limit is the largest 64-bit value and full batches of full messages exceed it |
| PublishLimits.ConnectorLimitsExact | pg-tide-relay/src/descriptors.rs:88-298 | for every connector there is, a batch is accepted if and only if count, sizes and the true sum are within its limits |
| PipelineSchema.OnlySchemaKeys | pg-tide-relay/src/config/schema_support.rs:14-33 | an admitted document has no keys but the schema's, and `config` only in place of `sink` |
| PipelineSchema.OlderDocumentsAdmitted | pg-tide-relay/src/config/schema_support.rs:47-69 | an admitted document stays so without its schema version, without its source type, and with its sink called `config` |
| PipelineSchema.AdmittedDefaults | pg-tide-relay/src/coordinator.rs:1042-1060 | every admitted configuration runs with the default poll interval and cap, without dry run and with a disabled breaker |
| PipelineSchema.AdmittedBackoff | pg-tide-relay/src/coordinator.rs:1112-1116 | the backoff of an admitted pipeline never overflows and is min(1000 * 2^n, 60000) milliseconds |
| PipelineSchema.AdmittedBreakerIdle | pg-tide-relay/src/circuit_breaker.rs:72-95 | the breaker of an admitted pipeline stays closed and denies nothing after any log of attempts |
| PipelineSchema.AdmittedBatchSize | pg-tide-relay/src/config/schema_support.rs:98-128 | a configured batch size is positive and never exceeds what the sink takes |
| PipelineSchema.AdmittedRetries | pg-tide-relay/src/dlq.rs:150-161 | the retry limit an admitted pipeline runs with is the one in its document, or 5, and the cut to 32 bits changes none |
| Sweep.BatchesDeleteLowest | pg-tide-relay/src/cmd/sweep.rs:140-169 | k batches delete exactly the k times b lowest eligible ids |
| Sweep.BatchesEqualOneSweep | pg-tide-relay/src/cmd/sweep.rs:140-169 | k batches leave what one sweep of k times b rows leaves |
| Sweep.StoppingMeansEmpty | pg-tide-relay/src/cmd/sweep.rs:153-155 | a batch reports no more rows if and only if nothing eligible is left after it |
| Sweep.DryRunPredicts | pg-tide-ext/src/outbox.rs:743-782 | a dry run changes nothing and predicts the rows and the leftover of the next real batch |
| Sweep.Database.SweepOne | pg-tide-ext/src/outbox.rs:639-832 | rows, cleanup state and report after one sweep, with leases, row locks of others and dry runs; what disappears is exactly drawn from the unleased rows with created + 3600 * hours < now, for the configured hours or 24, at or below the safe offset |
| Sweep.Database.LeftExactly | pg-tide-ext/src/outbox.rs:710-725 | the candidates in plain terms: no lease, this outbox, that age, at or below the safe offset |
| Sweep.Database.OutboxSweep | pg-tide-ext/src/outbox.rs:582-626 | the extension function called with one outbox name: its argument errors change nothing |
| SweepAll.OutboxSweep | pg-tide-ext/src/outbox.rs:582-626 | the whole statement, for one outbox or all: each loses exactly its lowest batch, reports count their own rows, the sum is the number of rows that disappeared, and each of these was past its retention |
| SweepAll.TruncateDelivered | pg-tide-ext/src/outbox.rs:548-567 | the older function returns exactly the number of rows that disappeared, each past its retention |
| SweepCommand.BatchAdds | pg-tide-ext/src/outbox.rs:784-813 | each batch adds exactly its rows to the totals, the highest id and the report |
| SweepCommand.CallSweep | pg-tide-relay/src/cmd/sweep.rs:217-249 | a call commits with its report, is rolled back, or commits and loses its reply |
| SweepCommand.SweepOutbox | pg-tide-relay/src/cmd/sweep.rs:140-180 | one outbox loses exactly its committed batches, the report counts the completed ones, and stopping early means nothing is left |
| SweepCommand.RunSweep | pg-tide-relay/src/cmd/sweep.rs:82-215 | the whole command: argument errors change nothing, outboxes do not affect each other, only rows past their retention disappear, every outbox not named as failed got all its batches or has nothing left, only outboxes whose calls did fail are named, and without failures the total is the number of rows that disappeared |
| Worker.Source.Acknowledge | pg-tide-relay/src/source/outbox.rs:194-229 | the cursor moves only after the durable write is known, a replay never writes, and a negative offset is refused |
| Worker.FilterReplayBatch | pg-tide-relay/src/coordinator.rs:1669-1684 | the loop keeps what the recursive filter keeps |
| Worker.HandlePublishOutcome | pg-tide-relay/src/coordinator.rs:2099-2145 | acknowledges exactly after the sink's acceptance, dead-letters exactly when there is a queue and the attempt is given up on, stops exactly for a permanent failure without a queue, and with a queue retries only within the limit |
| WorkerFailures.FailuresCountSince | pg-tide-relay/src/coordinator.rs:1183-1637 | over any run the failure count is the number of failed polls and attempts since the last accepted or dead-lettered batch; empty polls, breaker refusals and dry runs neither add to it nor reset it |
| Worker.Worker.PublishWithCircuitBreaker | pg-tide-relay/src/coordinator.rs:1998-2017 | outcome and breaker state of one attempt |
| Worker.Worker.CommitCheckpoint | pg-tide-relay/src/coordinator.rs:1817-1876 | cursor, checkpoint and settled messages after a commit that succeeds, fails or loses its reply |
| Worker.Worker.DeliverBatch | pg-tide-relay/src/coordinator.rs:1313-1655 | state and control after a polled batch, for dry runs, every directive and every dead-letter outcome |
| Worker.Worker.Step | pg-tide-relay/src/coordinator.rs:1119-1656 | one iteration of the loop equals its functional account |
| Worker.Worker.Loop | pg-tide-relay/src/coordinator.rs:1119-1667 | the loop equals the fold of its iterations |
| WorkerDelivery.IterationRefinesDeliveryModel | pg-tide-relay/src/delivery_model.rs:79-154 | every iteration takes its batch along a legal delivery path from the freshly polled checkpoint, committed exactly when the cursor moved, and no checkpoint is written before a terminal disposition |
| WorkerDelivery.PublishFacts | pg-tide-relay/src/delivery_model.rs:79-154 | after an attempt the frontier is acknowledged exactly on success, a duplicate is possible exactly if a called sink took something and failed, and the failure is as retryable as it was |
| WorkerDelivery.AdvancesExactly | pg-tide-relay/src/coordinator.rs:1309-1655 | a live worker moves past a batch if and only if its confirmed checkpoint follows a dry run, the sink's acceptance, or a dead-letter write of a batch it had given up on |
| WorkerDelivery.EndsExactly | pg-tide-relay/src/coordinator.rs:1119-1667 | by its inputs alone: the worker dies of a permanent poll error, an unconfirmed checkpoint, a permanent failure without a dead-letter queue or a permanent failure of the queue; it stops only when told to; it finishes exactly if it is a replay whose poll hands on nothing |
| WorkerBreaker.BreakerFollowsLog | pg-tide-relay/src/coordinator.rs:1390-1397 | the breaker of a running worker is the replay of exactly its own attempts; polls, dry runs, oversized batches and durable writes leave it alone |
| WorkerBreaker.PublishExactly | pg-tide-relay/src/coordinator.rs:1998-2017 | an attempt succeeds exactly if the batch is within the limits, the breaker lets it through and the sink takes it, and its failure is as retryable as the limits or the sink said |
| WorkerBreaker.FreshBreakerFollowsLog | pg-tide-relay/src/circuit_breaker.rs:109-117 | a freshly started worker's breaker has nothing but its own log |
| WorkerInProtocol.IterationInProtocol | pg-tide-relay/src/coordinator.rs:1119-1656 | every iteration of a live pipeline or a replay, for any sink and any inputs, is a path of protocol steps with the loop's checkpoints and cursor and with exactly the destinations its inputs call for |
| WorkerInProtocol.IterationSettles | pg-tide-relay/src/coordinator.rs:1427-1656 | what an iteration adds to the settled messages was really accepted, dead-lettered or observed by its own inputs |
| LoopInProtocol.LoopInProtocol | pg-tide-relay/src/coordinator.rs:1119-1667 | for any inputs and any behaviour of the rest of the system between iterations, the whole loop, of a live pipeline or a replay, is a run of the protocol |
| LoopInProtocol.OwnerCanStart | pg-tide-relay/src/source/outbox.rs:78-103 | whenever its lock and the fence are free a live worker can take its lock, load its checkpoint, and stand where the loop starts |
| LoopInProtocol.LoopLosesNothing | pg-tide-relay/src/coordinator.rs:1817-1876 | after any such run the state is reachable, every message the loop settled is settled at its destination, and everything at or below its checkpoint is accounted for |
| Drain.AttemptsBounded | pg-tide-relay/src/coordinator.rs:2099-2145 | whatever sink, limits and breaker do, a backlog never costs more publish attempts than its potential |
| Drain.PotentialWithinBudget | pg-tide-relay/src/coordinator.rs:2135-2140 | that potential is at most (max_retries + 1) for each outstanding row |
| Drain.DrainsCompletely | pg-tide-relay/src/coordinator.rs:1427-1656 | after that many healthy iterations the backlog is empty, every row was disposed of exactly once and in order, and the worker still runs |
| Drain.RestartDrains | pg-tide-relay/src/source/outbox.rs:384-400 | a worker started on a backlog settles exactly the stored rows of its outbox above its recorded checkpoint, above 0 without one, once and in order |
| Drain.BatchDisposedInTime | pg-tide-relay/src/coordinator.rs:2120-2143 | each single batch is disposed of whole within max_retries + 1 attempts |
| Drain.BoundAttained | pg-tide-relay/src/coordinator.rs:2135-2141 | a sink that always refuses makes the bound exact |
| Drain.FreshBoundAttained | pg-tide-relay/src/coordinator.rs:1107-1117 | a freshly started worker has the whole bound to go |
| ReplayRange.FilterSpec | pg-tide-relay/src/coordinator.rs:1669-1684 | the replay filter keeps exactly the ids in range, in order |
| Replay.AllFilteredMeansDone | pg-tide-relay/src/coordinator.rs:1965-1970 | stopping at the first empty or entirely filtered poll misses nothing |
| Replay.ReplayExact | pg-tide-relay/src/coordinator.rs:1943-1978 | while rows vanish anywhere and appear above the cursor, a replay settles only rows of its range that were stored when polled, in order and once each, misses none still stored at or below its cursor, leaves every checkpoint alone, and on completion has settled every row in range stored at its last poll |
| Replay.FrozenReplay | pg-tide-relay/src/coordinator.rs:1943-1978 | when no rows come or go, a completed replay has settled exactly the rows with from <= id <= to |
| Replay.ReplayTerminates | pg-tide-relay/src/coordinator.rs:1064-1092 | however rows come and go, a replay that disposes of each batch completes within one iteration more than there are ids it can come to owe |
| Replay.ReplayTerminatesInRange | pg-tide-relay/src/coordinator.rs:1064-1092 | and in any case within one iteration more than the width of its range |
| Replay.RunReplayOnce | pg-tide-relay/src/coordinator.rs:46-122 | each argument, catalog and validation error exactly when it applies, the worker's failure, and the changed-checkpoint error exactly when the worker ended alive and the highest recorded checkpoint of any relay group differs before and after, in particular when one rises above all recorded before; a completed replay has settled exactly rows with from <= id <= to and every one stored at its last poll |
| Replay.LiveExactly | pg-tide-relay/src/coordinator.rs:125-139 | the live checkpoint is the highest recorded for the pipeline and outbox in any relay group, and 0 exactly if there is none |
| ReplayInProtocol.RowsComeAbove | pg-tide-ext/src/outbox.rs:375-394 | whatever happens, no row of an outbox ever appears at or below what has been polled of it |
| ReplayInProtocol.ReplayCanStart | pg-tide-relay/src/coordinator.rs:46-92 | whenever the fence is free a replay can start, next to any owner, and stands just before its range |
| ReplayInProtocol.ReplayCoversRange | pg-tide-relay/src/coordinator.rs:46-122 | a replay in a live system, with anything happening between its polls, settles rows of its range only, in order and really at their destination, touches no checkpoint, and when it completes every row of its range committed by its last poll is settled or had been swept |
| Backoff.WorkerBacksOff | pg-tide-relay/src/coordinator.rs:1178-1217 | n consecutive transient poll errors give the n-th backoff and count n failures |
| Backoff.FreshWorkerBacksOff | pg-tide-relay/src/coordinator.rs:1107-1117 | a freshly started worker begins with the poll interval and no failures |
| Backoff.GoodPollResets | pg-tide-relay/src/coordinator.rs:1160-1172 | a good or empty poll resets the backoff to the interval; an empty one leaves the failure count |
| Backoff.ClosedForm | pg-tide-relay/src/coordinator.rs:1203-1216 | n >= 1 errors give min(p * 2^n, M) for non-negative configuration |
| Backoff.OverflowsExactly | pg-tide-relay/src/coordinator.rs:1112-1116 | for any two 64-bit values the code might read, the doubling never overflows if and only if the interval is non-negative and the cap is too, or the interval is zero |
| Backoff.SleepExactly | pg-tide-relay/src/coordinator.rs:1184-1192 | the sleep is backoff plus jitter, cut to zero and to the signed 64-bit range |
| Backoff.SleepWithinFifth | pg-tide-relay/src/coordinator.rs:1184-1192 | every jittered sleep is within 20 percent of the backoff up to 2^50 milliseconds, however the float product rounds, and within 20 percent up to the float error above |
| Coordinator.MarkKeepsPartitionExactly | pg-tide-relay/src/coordinator.rs:763-777 | a health report between reconciliations keeps the partition of the owned pipelines if and only if it comes from an owned pipeline |
| Coordinator.HealthState.MarkPipelineHealth | pg-tide-relay/src/coordinator.rs:763-777 | the lists after one report |
| Coordinator.LastMarkWins | pg-tide-relay/src/coordinator.rs:763-777 | after any reports a pipeline is listed by its last one, and without one where it was before |
| Coordinator.TakeOverSpec | pg-tide-relay/src/coordinator.rs:635-733 | taking over never drops a pipeline or exceeds the limit, adds only catalog pipelines whose lock was obtained, and below the limit misses none |
| Coordinator.TakenInOrder | pg-tide-relay/src/coordinator.rs:635-652 | a pipeline is taken over only if every earlier one of the catalog whose lock could be obtained is owned as well |
| Coordinator.Coordinator.Reconcile | pg-tide-relay/src/coordinator.rs:531-758 | with reports arriving at every waiting point, the last of them just before the lists are published: the limit and the disjoint lists are kept, a completed reconciliation owns exactly what it kept and took over, all in the catalog, and the lists partition it by the last reports that arrived |
| Coordinator.Coordinator.Drain | pg-tide-relay/src/coordinator.rs:439-463 | draining gives up every pipeline while the exiting workers report; the lists are those after exactly these reports, duplicate-free and disjoint |
| Placeholders.ExpandEnvVars | pg-tide-relay/src/config/mod.rs:176-202 | the scanner equals one left-to-right substitution over the tokens of its input and never rescans inserted text |
| Placeholders.PlaceholderExpands | pg-tide-relay/src/config/mod.rs:184-198 | a closed placeholder becomes the value of its variable, or stays if it is unset, and the text behind it is scanned on its own |
| Placeholders.UnsetVariablesChangeNothing | pg-tide-relay/src/config/mod.rs:184-198 | with none of the named variables set the text is unchanged, malformed placeholders included |
| Budgets.ClassifyMirrored | scripts/check_operational_budgets.py:281-303 | higher-is-better on values, baseline and bound equals lower-is-better on their negations |
| Budgets.ClassifyOrderIndependent | scripts/check_operational_budgets.py:284-286 | a classification does not depend on the order of the samples |
| Budgets.MadNegated | scripts/check_operational_budgets.py:233-235 | the median absolute deviation of negated samples is the same |
| Budgets.MedianExactly | scripts/check_operational_budgets.py:233-235 | the median is the middle of the samples in order, or the mean of the two middle ones |
| Budgets.ClassifyExactly | scripts/check_operational_budgets.py:292-303 | a metric is actionable if and only if it breaks its bound or has become worse by more than all noise and more than its tier allows, and otherwise an improvement if and only if it has become better by more than all noise |
| Budgets.RepeatedCheck | scripts/check_operational_budgets.py:281-308 | the loop computes every classification, and the overall verdict is actionable if and only if some metric is, else improvement if and only if some metric is |
| Budgets.OverallOrderIndependent | scripts/check_operational_budgets.py:305-308 | the overall verdict does not depend on the order of the metrics |

## Left out

- Consumer-group polling by a relay: `tide.poll_outbox` is not part of this model; consumer groups appear with their offsets, and leases are granted under the fence as the relay's own call does it.
- Intentional rewinds (`admin_rewind_offset`), which break offset monotonicity by design, and deleting whole outboxes.
- Resolving dead letters: the unique key of the queue covers unresolved entries only; the model keeps every entry unresolved.
- Inbox cleanup: rows of an inbox stay in the model; deleting processed messages would let a late duplicate in again.
- Claim-check payloads and large-object cleanup after an acknowledgement, delivery receipts, metrics, tracing, status rows and auto-resume.
- The rate limiter and the in-flight semaphore: they delay a publish and decide nothing.
- ProtocolTheorems.RetentionSafe: participants and leases are read in one step, since the fence is held; a group dropped in the meantime no longer counts.
- Protocol hash collisions: `hashtext` is an arbitrary function, and fences of different outboxes are taken to be different locks; a collision only makes more callers wait.
- ReplayInProtocol.ReplayCoversRange: a round is one block of steps, as for the loop below.
- WorkerInProtocol.IterationInProtocol: an iteration is one block of steps; that other steps may fall inside it is the protocol's subject, where every step of every worker interleaves.
- Drain.DrainsCompletely: stated for rows that do not change while the backlog drains and for inputs without failing polls, dead-letter writes or commits.
- Worker.HandlePublishOutcome: the failure count is unbounded, not a 32-bit counter.
- Worker.Worker.Step: the verdict of the size limits is an input of the iteration; the check itself is proved in PublishLimits.
- SweepCommand.RunSweep: the clock stands still during one command, no other transaction locks rows, and partition maintenance is left out; interleaving with everything else is the protocol's subject.
- Coordinator.Coordinator.Reconcile: the order in which a hash map is walked is left open, and a removed worker is taken as stopped once it has been waited for or aborted.
- Budgets.RepeatedCheck: parsing and validation errors of the input files; arithmetic is exact instead of floating point.
- DedupKey.IntoMessages: payloads, subjects and refresh ids are carried along unchanged and not modelled.
- PipelineSchema.OnlySchemaKeys: the checks inside the `source` and `sink` objects are one given verdict; secret references and their resolution are not modelled.
- Network clients, TLS, HTTP, secrets, publisher permissions and command-line output.
