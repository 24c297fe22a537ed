# Verification of the local memory server's storage and queue core

A Dafny model of the parts of the memory server whose correctness rests on interleavings, crashes
and idempotence, with proofs of what they promise. `dafny verify dfyconfig.toml` checks everything.

- **The embedding outbox.** `QueueTable` gives the `queue_jobs` table and the effect of every SQL
  statement on it. `LeaseProtocol` lets several workers, writers, administrators and clocks act in
  any order, one statement at a time (a claim is two statements, and so is a failure).
  `AttemptBudget` says what attempts mean over whole runs. `Outbox` and `Worker` are the classes of
  the source, proved against the same statements; `Backfill` and `BackfillProgress` are the startup
  backfill and what rounds of backfill and drain achieve, and how fast; `WorkerLoop` keeps the cycles of one worker
  apart; `Convergence` puts vectors beside the queue and shows when they are those of the last
  payload: each act has its exact condition, one discipline for any number of drainers and one for a
  single drainer then hold over whole histories. `Deletion` asks the same of deletes.
- **The cold tier.** `ColdTier` has the statements and the two stores, `ColdOffload` the pass, once
  as a method with other writers scheduled between its statements and once as a state machine with
  crashes and reruns.
- **The derived database.** `DerivedMigration`: copy all, verify all, drop, with a crash possible
  between any two statements.
- **Smaller pieces.** `WindowedDelete` against the single DELETE, the single-flight registry in
  `Capabilities`, `ObservationIdentity` and `Observations` (identity, idempotent upserts, freshness),
  `PrefixSearch`, `EntityIds`, `Telemetry`.
- `Options`, `OrderBy`, `FiniteSum` and `Strings` hold what these share.

How the model reads the system: each SQL statement is one atomic step; sha256 is taken to be
collision free, so a digest is the record or text it is computed from; ISO timestamps are integers,
and the clock may move in any direction; random ids and batch tokens are fresh; what the network,
the embedding model and the other processes do comes in as parameters.

Where the code does not keep what its comments say, the model follows the code:

- `deleteArchivedIfUnchanged` says that any change of a hot row bumps `updated_at`
  (src/mcp/entities/memory.archive.ts:26-31). The usage counters do not
  (src/mcp/entities/memory/entity.ts:224-242), so a use counted between copy and delete is lost
  (`ColdOffload.LateUseIsLost`; the exact condition is `ColdOffload.WholeIffCountersStood`).
  `preserved` also counts candidates that were deleted by someone else, which are nowhere preserved.
- Completion leaves `locked_by` on the row; everything rests on tokens being fresh
  (`QueueTable.ReadBackExact`, `Convergence.FreshBatch`).
- The vector write carries no token, so two overlapping drainers can leave a stale vector
  (`Convergence.OverlapLeavesStaleVector`); with a check that the token still owns the row any number
  of drainers converge (`Convergence.GuardedDrainersConverge`).
- Whether an entity exists is asked once per batch, and the completion and the vector write go by that
  answer later. A task reopened in between has its job completed without a vector, even with one
  drainer (`Convergence.ReopenedAfterCheckHasNoVector`; exactly when: `Convergence.FinishMeetsIff`).
- Comments at src/mcp/embedding-queue/worker-jobs.ts:40-43 and
  src/mcp/utils/purge-entity-cleanup.ts:151-152 say a stale job can never re-embed the vector of a
  deleted entity. A drainer that found it before the delete does
  (`Deletion.DeletedTaskGetsItsVectorBack`; exactly when: `Deletion.DeletedHasNoVectorIff`).
- Purging a poison row, archiving a memory before its job ran, and reopening a deleted task by a
  status change can each leave an entity without a vector until a backfill
  (`Convergence.PurgedPoisonLeavesNoVector`, `Convergence.ArchivedMemoryLosesItsJob`,
  `Convergence.ReopenedTaskHasNoVector`; exactly when: `Convergence.ActKeepsIff`).
- A comment at src/mcp/embedding-queue/outbox.ts:319-323 says a live job can never be removed under a
  worker; deleting its entity does (`LeaseProtocol.LiveRowGoesByPurgeOnly`).
- A worker started again during the cycle of its stop runs two timers
  (`WorkerLoop.RestartDoublesTheTimers`; otherwise never: `WorkerLoop.NeverTwoIff`).
- Poison rows take places in the backfill window and can starve it for good
  (`BackfillProgress.PoisonStarvesTheWindow`; exactly when: `BackfillProgress.PassWorksIff`), and an
  empty text is never settled (`BackfillProgress.EmptyTextNeverSettles`). A comment in
  src/mcp/embedding-queue/enqueue.ts:362-366 still speaks of `ON CONFLICT DO NOTHING`; the statement
  revives done rows.
- `codebaseEntityParts` is the inverse of `codebaseEntityId` only under the condition of
  `EntityIds.PartsUndoId`.
- `disable` is overtaken by a load that finishes later (`Capabilities.StaysOffIff`).
- Prefix search lowers the prefix as JavaScript does and the names as SQLite does; it is exact for
  just the prefixes that both lower alike (`PrefixSearch.SearchIsExactIff`).
- Evidence anchored by the id of a symbol that has an earlier twin in its file moves to the twin at
  the next refresh (`Observations.AnchorStaysIff`).
- Separators inside observation fields are not escaped (`ObservationIdentity.SeparatorCollides`).

## Model

| member | source | states |
|---|---|---|
| LeaseProtocol.ReachableInv | src/mcp/embedding-queue/outbox.ts:76-201 | In every interleaving of enqueues, backfill inserts, claims, read-backs, completions, failures, releases, reconciles, retries, purges, entity deletes and clock changes from the empty table: pending and poison rows carry no token or lease, claimed rows carry both, attempts are below the threshold except in poison where they equal it, row ids are unique, and every remembered batch and failure ticket still describes the rows it owns |
| LeaseProtocol.StepKeepsInv | src/mcp/embedding-queue/outbox.ts:76-356 | One step of any actor keeps that invariant |
| LeaseProtocol.StepKeepsOwners | src/mcp/embedding-queue/outbox.ts:76-201 | A row owned after a step by a token issued before it was the same row, field by field, before the step |
| LeaseProtocol.StepKeepsRows | src/mcp/embedding-queue/outbox.ts:109-356 | Row shapes and unique ids survive every statement |
| LeaseProtocol.StepKeepsBatches | src/mcp/embedding-queue/outbox.ts:76-100 | What a worker read back stays equal to the rows its token still owns |
| LeaseProtocol.StepKeepsTickets | src/mcp/embedding-queue/outbox.ts:154-189 | The attempts a failure read stay the attempts of the row it may still update |
| LeaseProtocol.StaleForever | src/mcp/embedding-queue/outbox.ts:109-135 | A token that has lost a row, or never had it, owns it in no continuation |
| LeaseProtocol.StaleTokenChangesNothing | src/mcp/embedding-queue/outbox.ts:109-189 | Whatever happens after a token lost a row, completing, releasing or failing under it leaves the row unchanged |
| LeaseProtocol.ReclaimSupersedes | src/mcp/embedding-queue/outbox.ts:83-94 | A re-claim takes the row from every earlier token for good |
| LeaseProtocol.ActsOnWhatWasRead | src/mcp/embedding-queue/outbox.ts:102-189 | A completion or failure that changes a row finds exactly the row its token read back: same payload, hash and attempts |
| LeaseProtocol.FailDecidesOnCurrentAttempts | src/mcp/embedding-queue/outbox.ts:165-188 | With any steps between the SELECT and the UPDATE of a failure: if the UPDATE matches, attempts are the ones read, and the row turns poison exactly when its new count equals the threshold |
| LeaseProtocol.LiveRowGoesByPurgeOnly | src/mcp/utils/purge-entity-cleanup.ts:157-162 | A step removes a pending or claimed row exactly when it is the delete of the row's entity: the sweeps and the admin delete leave it |
| AttemptBudget.AttemptsCountFailures | src/mcp/embedding-queue/outbox.ts:137-189 | Over any run, attempts equal the number of owner failures since the last enqueue, revival or retry; expired leases and releases do not count |
| AttemptBudget.StepSpends | src/mcp/embedding-queue/outbox.ts:109-201 | The sum of threshold minus attempts over pending and claimed rows never rises without new work, and falls at every completion or failure that reaches a row |
| AttemptBudget.BudgetBoundsRun | src/mcp/embedding-queue/outbox.ts:109-201 | Without enqueues, backfill or retries at most that many completions and failures take effect, whatever leases expire |
| QueueTable.ReadBackExact | src/mcp/embedding-queue/outbox.ts:94-99 | Reading a batch back by its token returns the claimed rows and no others exactly when no other row carried the token before |
| QueueTable.DedupIffSameContent | src/mcp/embedding-queue/content-hash.ts:76-88 | A later enqueue is skipped exactly when the payload differs at most in owner, repo and updated_at and the row is not poison |
| QueueTable.WaitDoublesUpToCap | src/mcp/embedding-queue/outbox.ts:170-174 | The retry wait starts at the base, doubles with each failure and stops at the cap |
| QueueTable.FailedJobWaits | src/mcp/embedding-queue/outbox.ts:154-189 | A job failed below the threshold is eligible again exactly from the end of its wait |
| OutboxModel.QueueDb.UpsertJob | src/mcp/embedding-queue/enqueue.ts:82-95 | The row is pending with the payload, without attempts, owner or wait; an existing row keeps id, repo and creation time, a new one is created now; no other row changes |
| OutboxModel.Outbox.Enqueue | src/mcp/embedding-queue/enqueue.ts:121-147 | Queues the payload unless its content is already under way or finished; afterwards the row holds the content and is not poison |
| OutboxModel.Outbox.Claim | src/mcp/embedding-queue/outbox.ts:76-100 | Claims the oldest eligible rows up to the maximum under a new token with a lease from now, changes nothing else in any row, and lists the batch by creation time |
| OutboxModel.Outbox.Complete | src/mcp/embedding-queue/outbox.ts:109-116 | Succeeds exactly when the row is claimed under the token; that row becomes done with its payload and attempts, and no other changes |
| OutboxModel.Outbox.Release | src/mcp/embedding-queue/outbox.ts:128-135 | Succeeds exactly for the owner, makes the row pending, and leaves attempts, backoff and payload alone |
| OutboxModel.Outbox.Fail | src/mcp/embedding-queue/outbox.ts:154-189 | For the owner one attempt more and the error cut to 500 characters; poison from the threshold on, a wait of base times two to the attempts, capped, below it; a stranger changes nothing |
| OutboxModel.Outbox.ReconcileExpiredLeases | src/mcp/embedding-queue/outbox.ts:192-201 | Returns the number of expired claims, all of them pending afterwards, and leaves none |
| OutboxModel.Outbox.RetryJob | src/mcp/embedding-queue/outbox.ts:264-285 | Makes a poison or done row of that id, and of that repo if one is given, pending with its payload and no attempts; no other row changes, and it says whether one did |
| OutboxModel.Outbox.RetryAllPoison | src/mcp/embedding-queue/outbox.ts:296-317 | The same for every poison row, of that repo if one is given, and it says how many |
| OutboxModel.Outbox.DeleteJob | src/mcp/embedding-queue/outbox.ts:332-343 | Deletes exactly the poison or done row of that id, of that repo if one is given, and says whether it did |
| OutboxModel.Outbox.Purge | src/mcp/embedding-queue/outbox.ts:346-356 | Deletes exactly the done rows and the poison rows last updated longer ago than their times to live; the first count is that of the done ones, and both add up to the rows gone |
| OutboxModel.QueueDb.PurgeEntities | src/mcp/utils/purge-entity-cleanup.ts:151-163 | The chunks of 500 ids together delete exactly the rows of the given entities, whatever their status |
| OutboxModel.CountByStatus | src/mcp/embedding-queue/enqueue.ts:252-263 | The counts per status and in total are those of the table |
| OutboxModel.MatchedCount | src/mcp/embedding-queue/outbox.ts:115 | A change count above zero means a row matched, and the other way round |
| OrderBy.SelectLimit | src/mcp/embedding-queue/outbox.ts:88-92 | ORDER BY with LIMIT: an ordered list without repetition of at most that many keys, nothing outside coming before |
| QueueTable.LeaseProtects | src/mcp/embedding-queue/outbox.ts:83-94 | A claimed row can be claimed again or reconciled exactly once its lease is over |
| Worker.EmbeddingWorker.RunOnce | src/mcp/embedding-queue/worker/batch.ts:96-228 | On the rows before and after: attempts rise, by one, exactly for real failures whose statement ran; a job met by lock contention is pending with the attempts and backoff it had; applied jobs, and those with nothing to do, are done; what is put off or not reached stays claimed. Exactly the live entities with a text whose job came to the write have a new vector, made from the claimed payload. Nothing else changes |
| Worker.CycleEndsAsSettled | src/mcp/embedding-queue/worker/batch.ts:96-228 | The same as a fact about tables and vectors |
| Worker.JobEndsFromClaim | src/mcp/embedding-queue/worker/batch.ts:181-223 | The same for one job, from its row before the claim |
| Worker.EmbeddingWorker.SettleBatch | src/mcp/embedding-queue/worker/batch.ts:111-225 | The passes over a batch together settle each job exactly once, each ending as its outcome says, or the no-ops alone when embedding fails |
| Worker.StaysClaimedIff | src/mcp/embedding-queue/worker/batch.ts:58-72 | After a cycle a row is still claimed exactly when its statement was put off or the cycle stopped before it, and then nothing in it changed |
| Worker.EmbeddingWorker.ClaimFresh | src/mcp/embedding-queue/outbox.ts:76-100 | A process whose counter is ahead of the table reads back exactly what it claimed |
| Worker.ClaimIsFresh | src/mcp/embedding-queue/outbox.ts:80-99 | The same as a fact about tables: no row carries the token yet, so the read-back is the claim |
| Worker.EmbeddingWorker.Conclude | src/mcp/embedding-queue/worker/batch.ts:181-223 | Applied jobs end done, busy ones pending with their attempts, failed ones with one attempt more; a statement put off changes nothing |
| Worker.SettleOne | src/mcp/embedding-queue/worker/batch.ts:181-223 | Settling one more job of a batch changes no other row |
| Worker.WriteOne | src/mcp/embedding-queue/worker-jobs.ts:162-196 | Writing one more vector changes no other vector; codebase files write none |
| Worker.EmbeddingWorker.DrainQueue | src/mcp/embedding-queue/worker.ts:190-259 | When no job fails, nothing is put off and embedding works, cycles end with every pending row done and its vector made from its payload |
| Worker.CycleDrains | src/mcp/embedding-queue/worker/batch.ts:96-228 | One successful cycle finishes each claimed row and leaves the others and their vectors alone |
| Worker.PartlyThenMore | src/mcp/embedding-queue/worker/batch.ts:96-228 | Partial drains compose |
| Backfill.BackfillStore.InsertOrRevive | src/mcp/embedding-queue/enqueue.ts:183-212 | Inserts an absent row, revives a done one, leaves any other; the result says whether it wrote |
| Backfill.BackfillStore.EnqueueInChunks | src/mcp/embedding-queue/enqueue.ts:367-381 | Chunks of 200 give the table and the count of inserting one by one |
| Backfill.BackfillStore.RunPhase | src/mcp/embedding-queue/enqueue.ts:383-421 | One phase takes its candidate window and queues those of it that need embedding |
| Backfill.BackfillStore.BackfillMissingVectors | src/mcp/embedding-queue/enqueue.ts:316-553 | Without budget, or with as many pending and claimed rows as the gate, it does nothing; otherwise three phases share the budget, and whatever is new in the table is a fresh job, with the current payload, of an entity whose vector is not of its current content and model |
| Backfill.NeedingIff | src/mcp/embedding-queue/enqueue.ts:342-358 | An entity needs embedding exactly when it has no vector stamped with the hash of its current payload and the current version; it is flagged exactly when its vector is missing, unstamped or of another version |
| Backfill.WindowOrder | src/mcp/embedding-queue/enqueue.ts:391-394 | A window puts missing vectors first, then unstamped ones and other versions, then the rest, each by latest update, before itself and before what it leaves out |
| Backfill.PassQueuesOutdated | src/mcp/embedding-queue/enqueue.ts:383-553 | The last part of the pass as a fact about tables |
| Backfill.InputsOfWindow | src/mcp/embedding-queue/enqueue.ts:408-419 | The inputs of a window are exactly its entities that need embedding, each once, with their current payload |
| Backfill.EnqueueEachEffect | src/mcp/embedding-queue/enqueue.ts:183-212 | Inserting inputs one by one queues absent and done entities afresh, counts exactly those, and keeps every field of pending, claimed and poison rows |
| BackfillProgress.PassIsBounded | src/mcp/embedding-queue/enqueue.ts:316-553 | A backfill enqueues at most cap rows over its three phases |
| BackfillProgress.PassIsSafe | src/mcp/embedding-queue/enqueue.ts:294-307 | No row goes, pending, claimed and poison rows keep every field, and only done rows are revived |
| BackfillProgress.PassEffect | src/mcp/embedding-queue/enqueue.ts:383-553 | From a table of done and poison rows a pass queues exactly the entities its windows picked |
| BackfillProgress.PhaseEffect | src/mcp/embedding-queue/enqueue.ts:383-421 | A phase over done and poison rows enqueues something exactly when its window holds an entity that needs embedding and has no poison row, and queues just those |
| BackfillProgress.PhaseWork | src/mcp/embedding-queue/enqueue.ts:391-394 | Whatever the ties, it enqueues nothing unless such an entity has fewer than the limit strictly before it, and something if one has fewer than the limit not behind it |
| BackfillProgress.PhaseWorksIff | src/mcp/embedding-queue/enqueue.ts:391-394 | With distinct update times: it enqueues something exactly when such an entity has fewer than the limit before it |
| BackfillProgress.PassWorksIff | src/mcp/embedding-queue/enqueue.ts:316-553 | A whole pass over such a table does nothing when no kind has an entity so placed and, with distinct update times, only then |
| BackfillProgress.FlaggedMeansWork | src/mcp/embedding-queue/enqueue.ts:391-394 | While a vector is missing, unstamped or of another model and its entity has no poison row, a pass queues something, if the kind has fewer poison rows than the cap |
| BackfillProgress.QuietWhenCurrent | src/mcp/embedding-queue/enqueue.ts:271-279 | If every vector is stamped with the hash of the current payload and the current version, a pass changes nothing |
| BackfillProgress.RoundEffect | src/mcp/embedding-queue/enqueue.ts:316-553 | In a round of backfill and drain an entity stops needing embedding exactly when the windows picked it and its text is not empty, poison rows or not |
| BackfillProgress.PassFills | src/mcp/embedding-queue/enqueue.ts:383-553 | A pass leaves out a flagged entity without poison row only if what it queued up to that kind, with the poison rows of the kind, makes up the cap |
| BackfillProgress.RoundLeaves | src/mcp/embedding-queue/enqueue.ts:316-553 | What needs embedding after a round is what needed it before without what the round repaired |
| BackfillProgress.RoundRepairs | src/mcp/embedding-queue/enqueue.ts:316-553 | A round that leaves such an entity unrepaired repairs as many others as there is room for beside what is in the way: poison rows of its kind and empty texts of all kinds up to it |
| BackfillProgress.RoundProgress | src/mcp/embedding-queue/enqueue.ts:266-279 | With room for s entities in every phase a round adds no work, lowers it while an entity that is neither in poison nor empty is flagged, and lowers it by s unless it clears the last of them |
| BackfillProgress.UpgradeFinishes | src/mcp/embedding-queue/enqueue.ts:266-292 | After the number of entities to re-embed divided by s rounds, every entity but poison rows and empty texts has a vector with a stamp and of the current version |
| BackfillProgress.UpgradeFinishesFromAnyQueue | src/mcp/embedding-queue/enqueue.ts:316-330 | The same from any queue without claimed rows, a first round stopped by the pending-plus-claimed gate included, with one round more |
| BackfillProgress.ThreeWholeRoundsSuffice | src/mcp/embedding-queue/enqueue.ts:266-292 | With a cap of at least the entities of each kind, after three rounds every entity without poison row has the vector stamped with the hash of its current payload and the current version |
| BackfillProgress.EmptyTextNeverSettles | src/mcp/embedding-queue/worker-jobs.ts:26-34 | An entity with an empty text needs embedding again after every round |
| BackfillProgress.PoisonStarvesTheWindow | src/mcp/embedding-queue/enqueue.ts:391-394 | While at least the cap of entities comes strictly before every one that could be queued, no later round changes anything: what is missing stays missing |
| BackfillProgress.StarvationHappens | src/mcp/embedding-queue/enqueue.ts:391-394 | Such a table exists: a poison row ahead of an entity without vector and job, and a cap of one |
| Convergence.ActKeepsIff | src/mcp/embedding-queue/worker-jobs.ts:159-196 | Every act of any number of drainers, writers, administrators and maintenance keeps convergence (an idle entity has the vector of its last payload) exactly when it finds a stated condition: about the poison rows a sweep takes, the memories archived, the task reopened, the copy written, the row completed |
| Convergence.ActKeepsBase | src/mcp/embedding-queue/worker-jobs.ts:159-196 | Whatever the discipline, every act keeps rows equal to the last payload enqueued, and held jobs equal to what their tokens read, entity deletes included |
| Convergence.WriteKeepsIff | src/mcp/embedding-queue/worker-jobs.ts:179-185 | Writing a vector for an entity found by the check, there still or not, keeps convergence exactly when, if the row is done or absent and the entity carries a vector, the copy written is of the last payload |
| Convergence.FinishKeepsIff | src/mcp/embedding-queue/worker/batch.ts:147-184 | A completion, after a write or on the word of an earlier check, keeps it exactly when, if the token still owns the row, the vector is already right |
| Convergence.FinishMeetsIff | src/mcp/embedding-queue/worker/batch.ts:140-155 | Of a drainer that wrote right vectors, one completion alone can break it: that of a job whose entity the check did not find, exactly when the entity is back without its vector and the token still owns the row |
| Convergence.RemovalKeepsIff | src/mcp/embedding-queue/outbox.ts:332-356 | A sweep or admin delete keeps it exactly when each poison row taken belongs to an entity that carries no vector or has the right one |
| Convergence.DeleteKeepsIff | src/mcp/utils/purge-entity-cleanup.ts:120-163 | Deleting entities keeps it exactly when each archived memory among them carries no vector or has the right one |
| Convergence.ReopenKeepsIff | src/mcp/tools/task-write/state-machine.ts:44-78 | Reopening a canceled task keeps it for the moment exactly when a job is still there or the vector is right: a status change enqueues nothing |
| Convergence.ReopensSafelyIff | src/mcp/embedding-queue/worker/batch.ts:140-155 | It keeps it, and leaves no drainer about to break it by completing the job on the word of an earlier check, exactly when the vector is right or a job is under way that its owner has not given up |
| Convergence.GuardedDrainersConverge | src/mcp/embedding-queue/worker-jobs.ts:159-196 | Any number of drainers converge, after any history, when each vector is written while its token still owns the row, sweeps and deletes meet their conditions, and entities are reopened safely in this sense |
| Convergence.GuardedWritesConvergeIff | src/mcp/embedding-queue/worker-jobs.ts:159-196 | With such writes, all states of a history converge exactly when each removal, delete and reopening in it meets its condition and no job given up after the check is completed with its entity back without its vector |
| Convergence.GuardedWriteKeepsIff | src/mcp/embedding-queue/worker-jobs.ts:159-196 | The same for one act |
| Convergence.GuardedNext | src/mcp/embedding-queue/worker-jobs.ts:159-196 | Each act of the guarded discipline keeps the invariant behind it |
| Convergence.ActKeepsBack | src/mcp/embedding-queue/worker-jobs.ts:45-101 | Under guarded or single-drainer writes and safe reopenings, an entity back while its owner has given it up keeps its right vector, whatever happens next |
| Convergence.SoloConverges | src/mcp/embedding-queue/enqueue.ts:121-147 | If processes drain one at a time, which is assumed, no write needs a guard: after any history in which poison rows stay, memories are archived with their jobs idle, and entities are reopened safely and, when idle, with no old copy held, an entity with no pending, claimed or poison row has a vector made from the last payload enqueued for it, deduplicated enqueues included |
| Convergence.SoloActsKeep | src/mcp/embedding-queue/worker-jobs.ts:159-196 | In such histories every act meets its condition |
| Convergence.SoloNext | src/mcp/embedding-queue/worker-jobs.ts:159-196 | Each such act keeps the invariant behind it |
| Convergence.CompletionHits | src/mcp/embedding-queue/outbox.ts:109-116 | A completion reaches no row but the job it was read for, and that one only as it was read |
| Convergence.FreshBatch | src/mcp/embedding-queue/outbox.ts:96-99 | Although completion leaves locked_by in place, after any run a token not read back yet is on claimed rows only |
| Convergence.StepDoneWasRead | src/mcp/embedding-queue/outbox.ts:109-116 | A done row that still shows a token shows one that has been read back |
| Convergence.OverlapLeavesStaleVector | src/mcp/embedding-queue/worker-jobs.ts:159-196 | The guard is missing: two overlapping drainers can leave a done row with a vector of an older payload |
| Convergence.PurgedPoisonLeavesNoVector | src/mcp/embedding-queue/outbox.ts:346-356 | A single drainer can reach a state where a purged poison row leaves its entity without a vector |
| Convergence.ReopenedTaskHasNoVector | src/mcp/utils/purge-entity-cleanup.ts:137-162 | A task deleted and reopened by a status change alone is live, without a job and without a vector |
| Convergence.ReopenedAfterCheckHasNoVector | src/mcp/embedding-queue/worker/batch.ts:140-155 | With a single drainer and guarded writes: a task canceled before the check and reopened after it is live, with a done job and without a vector |
| Convergence.ArchivedMemoryLosesItsJob | src/mcp/utils/purge-entity-cleanup.ts:121-127 | A memory archived while its job is pending loses the job and stays without a vector |
| Deletion.DeletedHasNoVectorIff | src/mcp/utils/purge-entity-cleanup.ts:137-162 | After any delete of a task or standard, in any history without a reopening, there is no vector of it exactly when no drainer writes a job of it that was found before the delete |
| Deletion.DeleteIsFinalIff | src/mcp/embedding-queue/worker-jobs.ts:40-43 | A delete leaves no way to a vector of the entity exactly when no drainer holds a job of it that it has found |
| Deletion.GuardedDeleteIsFinal | src/mcp/embedding-queue/worker-jobs.ts:159-196 | If a vector were written only while the token owns the row, every delete would be final |
| Deletion.WithoutUntilWritten | src/mcp/embedding-queue/worker-jobs.ts:179-185 | While it is not reopened, a deleted entity is without a vector exactly until a drainer writes one |
| Deletion.WriterWasInFlight | src/mcp/embedding-queue/worker-jobs.ts:45-101 | Each such write is by a drainer that had found the entity at the delete: a later check does not find it |
| Deletion.DeletedTaskGetsItsVectorBack | src/mcp/embedding-queue/worker-jobs.ts:159-196 | With a single drainer, a task deleted between check and write is canceled, without a job, and has a vector |
| WorkerLoop.CyclesNeverOverlap | src/mcp/embedding-queue/worker.ts:190-227 | However a worker is started and stopped, at most one claim-and-drain cycle is under way |
| WorkerLoop.EventKeepsOneTimerIff | src/mcp/embedding-queue/worker.ts:100-227 | An event keeps timers and cycles at one together exactly when it is no start of a stopped worker during a cycle |
| WorkerLoop.NeverTwoIff | src/mcp/embedding-queue/worker.ts:100-227 | Over a whole history there is one timer or cycle at a time exactly when every start finds the worker started or no cycle under way |
| WorkerLoop.RestartDoublesTheTimers | src/mcp/embedding-queue/worker.ts:100-188 | A stopped worker started during a cycle is left with two timers when that cycle ends |
| WorkerLoop.WorkerTimer.Start | src/mcp/embedding-queue/worker.ts:100-155 | Starts once and schedules one timer; a started worker is left as it is |
| WorkerLoop.WorkerTimer.Stop | src/mcp/embedding-queue/worker.ts:166-178 | Clears the remembered timer only |
| WorkerLoop.WorkerTimer.Fire | src/mcp/embedding-queue/worker.ts:190-198 | A cycle begins exactly when the worker is not stopped and none is under way; during one the poll is scheduled again |
| WorkerLoop.WorkerTimer.CycleEnds | src/mcp/embedding-queue/worker.ts:199-226 | The end of a cycle schedules the next poll and lowers the flag |
| ColdTier.EntryShowsRow | src/mcp/storage/cold-archive.ts:260-263 | The entry a reader sees has the columns of the row |
| ColdTier.CopyKeepsColumns | src/mcp/storage/cold-archive.ts:194-237 | The copy is the row column by column, six missing values becoming their defaults, with the time of the offload |
| ColdTier.EntrySurvivesCopy | src/mcp/storage/cold-archive.ts:194-237 | The NULL defaults of the copy are those of the reader: both rows read as the same entry |
| ColdTier.CopiedHolds | src/mcp/storage/cold-archive.ts:183-237 | After a batch every row has its copy and no other cold row changed |
| ColdTier.CopiedInBatches | src/mcp/services/cold-archive.ts:87-90 | Copying in batches is copying at once |
| ColdTier.FullCount | src/mcp/storage/cold-archive.ts:239-255 | A count over distinct ids equals their number exactly when all are there |
| ColdTier.ColdStore.InsertMemories | src/mcp/storage/cold-archive.ts:194-237 | Writes the copy of every row, in order, and returns how many |
| ColdTier.ColdStore.CountByIds | src/mcp/storage/cold-archive.ts:243-255 | Counting 500 at a time gives the number of ids present, and all of them exactly when every id is |
| ColdTier.LeftGrows | src/mcp/entities/memory.archive.ts:42-49 | Earlier deletions of the same transaction do not change what the guard finds of the next candidate |
| ColdTier.HotStore.SelectArchivedForOffload | src/mcp/entities/memory.archive.ts:89-95 | Archived rows last updated at or before the cutoff, oldest first, all of them unless the limit is reached, and none left out older than one selected |
| ColdTier.HotStore.DeleteArchivedIfUnchanged | src/mcp/entities/memory.archive.ts:37-53 | A row goes exactly when it is archived and has the `updated_at` of a candidate with its id; the count is that of the rows gone |
| ColdOffload.OffloadArchivedMemories | src/mcp/services/cold-archive.ts:64-119 | With any writers before each statement: the oldest archived rows past the retention period at the selection are copied, verification never fails, the delete takes exactly the unchanged ones, and deleted plus preserved is the number of candidates. Alone: younger and unarchived rows stay as they are, with fewer than the limit moved no archived row of that age is left, and no row left is older than one moved |
| ColdOffload.AllMoved | src/mcp/services/cold-archive.ts:76-119 | The last part as a fact about the two stores, every row moved being in the cold store |
| ColdOffload.VerifyAndDelete | src/mcp/services/cold-archive.ts:92-107 | Nothing is deleted unless every candidate is found in the cold store |
| ColdOffload.CopyInBatches | src/mcp/services/cold-archive.ts:87-90 | The batches leave the cold store as one copy of all rows would |
| ColdOffload.OffloadNeverLoses | src/mcp/services/cold-archive.ts:46-63 | However passes, writers and crashes interleave, every memory is in the hot store exactly as last written, or in the cold store with every column but perhaps the usage counters, and those too unless they moved between selection and delete |
| ColdOffload.MoveKeeps | src/mcp/services/cold-archive.ts:64-119 | Every step of a pass, a writer or a crash keeps that |
| ColdOffload.ChangedCandidatesStay | src/mcp/entities/memory.archive.ts:26-31 | A candidate edited, unarchived or re-archived since its selection stays in the hot store |
| ColdOffload.OffloadedReadsTheSame | src/mcp/storage/cold-archive.ts:260-263 | A reader of an offloaded memory sees the entry of the hot row, but for the counters |
| ColdOffload.WholeIffCountersStood | src/mcp/entities/memory/entity.ts:224-242 | A deleted memory is in the cold store whole exactly when its usage counters are still those selected: the counters move without a new revision |
| ColdOffload.LateUseIsLost | src/mcp/entities/memory/entity.ts:224-242 | A use counted between copy and delete is lost |
| DerivedMigration.InsertAllIsMerge | src/mcp/storage/derived-db.ts:368-369 | Row by row in any order, INSERT OR REPLACE ... SELECT gives the source rows, without the derived rows they collide with |
| DerivedMigration.VerifyPassesIff | src/mcp/storage/derived-db.ts:371-382 | The check after a copy passes exactly when no two source rows share the second unique key |
| DerivedMigration.MergeKeepsIndex | src/mcp/storage/derived-db.ts:368-369 | The copy keeps one codebase_files row for each repo and path, and drops a derived row exactly when it is not in main and main has its repo and path |
| DerivedMigration.MergeIsIdempotent | src/mcp/storage/derived-db.ts:392-394 | Copying a table again changes nothing, whatever derived held |
| DerivedMigration.NothingIsLost | src/mcp/storage/derived-db.ts:387-398 | Wherever a run stops, each original table is whole in main or all there in derived with the same values; once one table is dropped, all are there |
| DerivedMigration.RerunEndsTheSame | src/mcp/storage/derived-db.ts:390-394 | A rerun from any stop ends with the derived tables of an uninterrupted run |
| DerivedMigration.CrashesDoNotMatter | src/mcp/storage/derived-db.ts:390-398 | The same after any number of crashed runs |
| DerivedMigration.StopsCompose | src/mcp/storage/derived-db.ts:390-394 | A run started where another crashed stops where a single run could |
| DerivedMigration.StaysMovable | src/mcp/storage/derived-db.ts:360-385 | What could be moved before a crash can be moved after it |
| DerivedMigration.DerivedDb.CopyTable | src/mcp/storage/derived-db.ts:360-385 | Succeeds exactly when the columns fit and the unique key holds, and then merges the table |
| DerivedMigration.DerivedDb.CopyAll | src/mcp/storage/derived-db.ts:413-419 | All tables are copied and verified, or the run stops with main untouched |
| DerivedMigration.DerivedDb.DropAll | src/mcp/storage/derived-db.ts:430-432 | Drops tables one by one and leaves the others as they are |
| DerivedMigration.DerivedDb.RunDerivedMigration | src/mcp/storage/derived-db.ts:400-436 | Goes through exactly when every table fits, restores foreign keys, and a crash at any statement leaves the tables between copy and drop |
| WindowedDelete.Table.DeleteWindowed | src/mcp/storage/base.ts:211-237 | The windows cover rowids up to the initial maximum, and the count is the number of rows the windows deleted |
| WindowedDelete.ExaminedOnce | src/mcp/storage/base.ts:228-235 | With any writers in between, each rowid is looked at in exactly one window and deleted there exactly when present and matching then |
| WindowedDelete.MatchingThroughoutGoes | src/mcp/storage/base.ts:211-237 | A row that matches whenever it is there is gone at the end, unless a writer puts it back |
| WindowedDelete.QuietWindowsDelete | src/mcp/storage/base.ts:186-209 | Alone, for a condition on the row, the windows delete exactly the matching rows of positive rowid and count them |
| WindowedDelete.RefinesOneDelete | src/mcp/storage/base.ts:186-237 | They stand for the single DELETE exactly when no matching row has a rowid of zero or less |
| Capabilities.ReachableSound | src/mcp/runtime-capabilities.ts:34-141 | In every interleaving of ensure, register, unregister, disable, reset, marks and promise reactions: in-flight entries and unfinished loads correspond one to one, and loading implies a load still to come |
| Capabilities.EventKeepsSound | src/mcp/runtime-capabilities.ts:52-141 | Each event keeps that |
| Capabilities.AtMostOneLoad | src/mcp/runtime-capabilities.ts:83-84 | At most one load of a capability is unfinished |
| Capabilities.JoinersShareTheLoad | src/mcp/runtime-capabilities.ts:78-115 | Two callers handed a promise while the first load is under way are handed the same one |
| Capabilities.ResultIsTheLoaders | src/mcp/runtime-capabilities.ts:92-111 | The promise resolves to whether the loader was fulfilled, whatever happens in between |
| Capabilities.CalledOnce | src/mcp/runtime-capabilities.ts:92-93 | A loader is called at most once per load |
| Capabilities.LoadedIsAvailable | src/mcp/runtime-capabilities.ts:92-104 | After a load whose loader was fulfilled records its outcome, ensure answers yes until a reset, a disable, a degrade or the record of another load |
| Capabilities.RejectedIsTriedAgain | src/mcp/runtime-capabilities.ts:94-113 | After a rejected load the capability shows as failed with the error, and once it is cleaned up ensure loads again exactly if a loader is registered |
| Capabilities.ReplyIff | src/mcp/runtime-capabilities.ts:78-91 | Yes exactly when ready; no exactly when unavailable or degraded, or nothing is in flight and no loader is registered |
| Capabilities.StaysOffIff | src/mcp/runtime-capabilities.ts:60-68 | A disabled capability stays unavailable exactly when no load of it was still to record its outcome |
| Capabilities.PendingLoadCanFinish | src/mcp/runtime-capabilities.ts:92-111 | Any load still to record its outcome can make its capability available |
| Capabilities.RuntimeCapabilityRegistry.constructor | src/mcp/runtime-capabilities.ts:24-50 | A capability starts idle exactly when the profile has it, and unavailable otherwise |
| Capabilities.RuntimeCapabilityRegistry.Ensure | src/mcp/runtime-capabilities.ts:78-115 | Answers yes exactly when ready, no exactly when unavailable or degraded, or when nothing is in flight and no loader is registered (then it becomes degraded), and otherwise with the one unfinished load, starting it if none is in flight |
| Capabilities.RuntimeCapabilityRegistry.Register | src/mcp/runtime-capabilities.ts:52-54 | The first loader registered stays |
| Capabilities.RuntimeCapabilityRegistry.Unregister | src/mcp/runtime-capabilities.ts:56-58 | Forgets the loader, not a load in flight |
| Capabilities.RuntimeCapabilityRegistry.Disable | src/mcp/runtime-capabilities.ts:60-68 | Unavailable, loader forgotten, a load in flight kept |
| Capabilities.RuntimeCapabilityRegistry.Reset | src/mcp/runtime-capabilities.ts:122-125 | Idle again unless unavailable |
| Capabilities.RuntimeCapabilityRegistry.MarkReady | src/mcp/runtime-capabilities.ts:127-135 | Ready unless unavailable |
| Capabilities.RuntimeCapabilityRegistry.MarkDegraded | src/mcp/runtime-capabilities.ts:137-141 | Degraded unless unavailable |
| Capabilities.RuntimeCapabilityRegistry.React | src/mcp/runtime-capabilities.ts:92-113 | The next reaction of a load: call, settle, record, clean up |
| ObservationIdentity.IdentityPiecesIff | src/mcp/entities/exploration-observation.ts:65-72 | On any input: identities are equal exactly when the normalised subject and fact and the sorted distinct evidence texts, cut at the record separator, give the same pieces |
| ObservationIdentity.EvidencePiecesIff | src/mcp/entities/exploration-observation.ts:56-63 | On any input: evidence texts are equal exactly when their four fields, cut at the unit separator, give the same pieces |
| ObservationIdentity.IdentityIff | src/mcp/entities/exploration-observation.ts:52-72 | For separator-free fields the identity is equal exactly for equal normalised subject and fact and the same set of places |
| ObservationIdentity.NormalTextIsWords | src/mcp/entities/exploration-observation.ts:52-54 | The normal form of a text is its words with one blank between them, lowered |
| ObservationIdentity.TrimIsInner | src/mcp/entities/exploration-observation.ts:56-63 | Trimming takes white space off both ends and nothing else |
| ObservationIdentity.IdentityIgnoresOrder | src/mcp/entities/exploration-observation.ts:65-72 | On any input, reordering or repeating evidence does not change the identity |
| ObservationIdentity.EvidenceIdentityIff | src/mcp/entities/exploration-observation.ts:56-63 | Evidence texts are equal exactly for equal trimmed path and symbol and equal lines |
| ObservationIdentity.SeparatorCollides | src/mcp/entities/exploration-observation.ts:65-72 | Any observation whose subject holds the record separator shares its identity with the one it splits into |
| ObservationIdentity.SeparatorConfuses | src/mcp/entities/exploration-observation.ts:65-72 | Two such observations, different in subject and fact |
| Observations.VerdictIff | src/mcp/entities/exploration-observation.ts:305-353 | Evidence is stale exactly when its file is indexed and, without a symbol, has another checksum than the one stored, or, with one, holds no symbol of the stored fingerprint; unverifiable exactly when its file is not indexed, or no symbol has the id of a symbol without fingerprint; with the reason of each case |
| Observations.AnchorIsCurrent | src/mcp/entities/exploration-observation.ts:305-353 | Evidence that is neither is re-anchored to the checksum and the symbol the index holds now; other evidence is left as it is |
| Observations.WorstIsDeserved | src/mcp/entities/exploration-observation.ts:298-302 | The freshness written is stale exactly when some evidence has changed, and valid exactly when none has changed and none is missing |
| Observations.JudgedAgain | src/mcp/entities/exploration-observation.ts:305-353 | Evidence re-anchored by a refresh gets the same verdict from the same index |
| Observations.SecondRefreshAgrees | src/mcp/entities/exploration-observation.ts:294-369 | A second refresh against an unchanged index finds the same freshness and reason, in the order of the listing |
| Observations.AnchorStaysIff | src/mcp/entities/exploration-observation.ts:327-352 | A second refresh keeps the anchor of evidence exactly when the symbol it was found by is the first of its file with that fingerprint |
| Observations.ListingIsOrdered | src/mcp/entities/exploration-observation.ts:438-445 | The listing has every row once, by path, line (NULL first) and id |
| Observations.ListingByColumns | src/mcp/entities/exploration-observation.ts:438-445 | Of two rows the one listed first has the smaller path, then no line or the smaller one, then the smaller id |
| Observations.ListingIsUnique | src/mcp/entities/exploration-observation.ts:438-445 | The rows alone determine it, in whatever order they are stored |
| Observations.ReanchoringKeepsOrder | src/mcp/entities/exploration-observation.ts:371-384 | Re-anchoring and listing commute: the columns the rows are listed by are not touched |
| Observations.RefreshKeepsListing | src/mcp/entities/exploration-observation.ts:371-384 | The refreshed rows are listed in the order of the old ones |
| Observations.ReindexVerdict | src/mcp/utils/source-fingerprint.ts:14-29 | New symbol ids change no verdict on fingerprinted or file evidence, and on other evidence only when the id is found on one side alone |
| Observations.ReindexAgrees | src/mcp/entities/exploration-observation.ts:294-369 | A re-index under new ids leaves freshness and reason of anchored evidence alone |
| Observations.WorstIsUnique | src/mcp/entities/exploration-observation.ts:298-302 | The worst verdict with the reason of the first item reaching it is determined by the verdicts |
| Observations.JudgeAll | src/mcp/entities/exploration-observation.ts:305-353 | The loop finds the freshness the evidence deserves, with the reason of the first item reaching it, and re-anchors the evidence |
| Observations.RefreshAgreesWithUpsert | src/mcp/entities/exploration-observation.ts:136-157 | A refresh right after an upsert that stored every item agrees with the freshness the upsert wrote |
| Observations.KeptOncePerIdentity | src/mcp/entities/exploration-observation.ts:203-207 | The stored evidence is one item per identity and misses none |
| Observations.KeepsLatest | src/mcp/entities/exploration-observation.ts:203-207 | Of the items of one identity the last one given is stored |
| Observations.AnchoredToIndex | src/mcp/entities/exploration-observation.ts:210-226 | A stored item keeps what it points at and is anchored to the file, and to the symbol of its id, as far as the index has them |
| Observations.RowHoldsInput | src/mcp/entities/exploration-observation.ts:136-170 | The row written holds the subject, fact and the other fields given, and is valid exactly when all evidence could be verified |
| Observations.DistinctItemsStay | src/mcp/entities/exploration-observation.ts:203-207 | Items of distinct identity are all stored, in order |
| Observations.ObservationStore.RefreshOne | src/mcp/entities/exploration-observation.ts:294-369 | Writes stale exactly when some evidence has changed and valid exactly when none has changed or is missing, with the reason of the first in the listing, and re-anchors what it found; a superseded observation and all others stay |
| Observations.ObservationStore.Upsert | src/mcp/entities/exploration-observation.ts:117-195 | A known identity without update id is returned unchanged; otherwise the row, its evidence and the supersedes link are written under a unique identity |
| Observations.ObservationStore.UpsertMany | src/mcp/entities/exploration-observation.ts:75-82 | An error undoes everything; resending observations already written changes nothing and creates nothing |
| Observations.ObservationStore.MarkSuperseded | src/mcp/entities/exploration-observation.ts:230-239 | Marks another observation of the same scope stale, or fails and changes nothing |
| Observations.ObservationStore.ReplaceEvidence | src/mcp/entities/exploration-observation.ts:197-228 | Replaces the evidence of one observation by one anchored row per identity |
| PrefixSearch.RangeIff | src/mcp/entities/codebase-symbol.ts:145-151 | A name is in the range exactly when it is the prefix or goes on after it with a character below U+FFFF |
| PrefixSearch.RangeIsPrefix | src/mcp/entities/codebase-symbol.ts:146-150 | For names below U+FFFF the range is the prefix test |
| PrefixSearch.RangeMissesTop | src/mcp/entities/codebase-symbol.ts:146-150 | A name that goes on with U+FFFF is left out |
| PrefixSearch.SearchIsExactIff | src/mcp/entities/codebase-symbol.ts:142-151 | A prefix below U+FFFF finds exactly the names beginning with it, whatever the case of ASCII letters, if and only if JavaScript and the database lower it alike |
| PrefixSearch.AgreedSearchIsExact | src/mcp/entities/codebase-symbol.ts:142-151 | For such a prefix, each name by itself |
| PrefixSearch.AsciiSearchIsExact | src/mcp/entities/codebase-symbol.ts:142-151 | ASCII prefixes are among those, if JavaScript lowers ASCII text letter by letter |
| PrefixSearch.OtherCapitalsAreMissed | src/mcp/entities/codebase-symbol.ts:145-151 | A prefix of any length finds no name beginning with it whose lowered form does not start with what JavaScript makes of the prefix |
| PrefixSearch.HitsIff | src/mcp/entities/codebase-symbol.ts:152-165 | A hit is a symbol of the repo, of the kind if one is given, whose lowered name is in the range |
| PrefixSearch.LowerAsciiIs | src/mcp/entities/codebase-symbol.ts:146-150 | The lowering on the database side turns the 26 capitals into small letters and changes nothing else |
| PrefixSearch.SearchByPrefix | src/mcp/entities/codebase-symbol.ts:142-178 | The page is the slice of the ordered hits, the total is their number, and hasMore says whether any follow |
| EntityIds.PartsUndoId | src/mcp/embedding-queue/payloads.ts:137-146 | The id can be taken apart exactly when the repo is not empty, has no `::` and does not end in a colon |
| EntityIds.IdUndoesParts | src/mcp/embedding-queue/payloads.ts:137-146 | Putting the parts together gives the id back exactly when it has a separator with something before it |
| EntityIds.GroupedLookupAgrees | src/mcp/embedding-queue/worker-jobs.ts:65-85 | For such ids the lookup grouped by repo answers what a lookup per job would |
| EntityIds.IllFormedIds | src/mcp/embedding-queue/worker-jobs.ts:65-85 | Any other id is found only through another id of the batch that it has two colons before |
| EntityIds.LoadExistingFileIds | src/mcp/embedding-queue/worker-jobs.ts:71-85 | The grouping loops return exactly the ids written back for files that exist |
| Telemetry.FlushConserves | src/mcp/entities/reuse-telemetry.ts:30-43 | Whatever keys are selected, a flush adds to the rows what the deltas add up to |
| Telemetry.OrderDoesNotMatter | src/mcp/entities/reuse-telemetry.ts:30-43 | The table depends on the multiset of deltas alone |
| Telemetry.BatchingDoesNotMatter | src/mcp/entities/reuse-telemetry.ts:30-43 | It does not matter how the deltas are split into flushes |
| Telemetry.SummaryShowsTheDeltas | src/mcp/entities/reuse-telemetry.ts:45-64 | After any flushes a summary has exactly the metrics of the deltas of its owner, repo and window, each total and each source being the sum of its deltas |
| Telemetry.ReuseTelemetry.Flush | src/mcp/entities/reuse-telemetry.ts:30-43 | One transaction adds every delta |
| Telemetry.ReuseTelemetry.Summarize | src/mcp/entities/reuse-telemetry.ts:45-64 | Totals per metric and per non-empty source of the rows of the owner and repo in a window of one hour to ninety days; a metric is listed exactly when it has such a row |

## Left out

- BackfillProgress.UpgradeFinishesFromAnyQueue: speaks of vectors that are missing, unstamped or of another version; one whose hash alone is out of date has no priority in the candidate order and is reached for certain only by windows as large as the kind (BackfillProgress.ThreeWholeRoundsSuffice).
- BackfillProgress.PhaseWorksIff: asks for distinct update times, since the query leaves the order of ties open; with ties BackfillProgress.PhaseWork bounds it from both sides.
- Worker.EmbeddingWorker.RunOnce: runs the cycle in one piece; other actors between its statements are in LeaseProtocol and Convergence.
- Observations.AnchorStaysIff: takes symbol ids to be non-empty texts.
- Convergence.SoloConverges: that processes drain one at a time is an assumption, since nothing in src/mcp/embedding-queue/outbox.ts:10-17 enforces it; and a history with a purged poison row, an archived pending memory or an unsafe reopening converges only by a later enqueue or backfill. The exact conditions are in Convergence.ActKeepsIff.
- ColdOffload.OffloadArchivedMemories: one offloader at a time, and each edit of a memory draws an `updated_at` its row has not had; two edits within one millisecond would break that.
- DerivedMigration.DerivedDb.RunDerivedMigration: nobody writes to the derived tables between a crash and the rerun, which would restore main's version; values of columns that main does not have are one constant.
- Telemetry.ReuseTelemetry.Summarize: values are reals, so floating-point rounding is not modelled; buckets compare as integers.
- EntityIds.LoadExistingFileIds: the file branch of the existence check; the branches for memories, standards and tasks are plain IN reads.
- What a deleted hot row takes with it through foreign keys: its vector, tag and search rows.
- The FTS index of the derived database and its rebuild after the move, which a crash after the drops skips.
- The knowledge-graph extraction that runs before the vector write, and the payload builders and JSON decoding (an undecodable payload is an empty text).
- Batch tokens as text: pid, counter and time are kept as a triple, and reuse of a pid by a restarted process within one millisecond is excluded by freshness.
- The retry wrapper around transactions, the bounded statement cache, and an error other than lock contention inside a statement of the worker, which ends the cycle.
- Reads that change nothing: job listing, cold search, capability snapshots, LIKE and FTS symbol search.
- Telemetry pruning, stale marking by file, and evidence path transfer.
- The poll-delay cadence, latency statistics, counters, logging and the daemon lock file.
