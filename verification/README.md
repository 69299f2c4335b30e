# Verified model of the document and answer pipeline

A Dafny model of the parts of the backend (and of one function of the frontend) whose correctness depends on
many processes, crashes or chunk boundaries working together:

- **the document task protocol**: parse, chunk, embed and finalize workers, user DELETEs and the recovery scanner
  change the rows of the same document. Any process may take a step at any time, any message may be delivered any
  number of times, any process may die and come back late;
- **upload batches**: object promotion and the row transaction, with crashes in between;
- **the answer stream**: the generation thread, the bounded queue, the consumer, the client and the stale-message
  scan; the frame writer and the incremental frame reader;
- **retrieval arithmetic**: rank fusion, rerank validation and ordering, context packing, text windows, and keyset
  paging.

`dafny verify dfyconfig.toml` checks the whole project.

## How the model is built

`Rows` holds the tables, grouped by document: a `Document` is the `documents` row with its tasks, attempts, leases,
parse results, drafts and chunks. `Transactions` gives the effect of every committed transaction as a function on
those rows, and `DocumentStore` gives the same transactions as the code runs them, column by column with rollbacks,
each method proved equal to its function. `Effects` says what those functions write, row by row and with the literal
values: the exact cases, the columns that change, and the rows that stay; `WorkerSteps` does the same for what each step
of a worker reads, remembers and saves. `Protocol` makes them the steps of a transition system; a run is any
sequence of events, and an event that is not enabled leaves the state alone, so every sequence is a run and redelivery,
redispatch and repeated scans are included. A worker's program counter and its memory (the drafts it loaded, the count
it wrote, the checkpoint it read) are part of its attempt, so a lost worker can go on from any point at any later
time; the presence of the original object is part of its document. `Invariant` proves one invariant over every step; `Runs` lifts it to runs; the other modules state results
about all reachable states and all runs: `Attempts` on tasks, attempts and fencing, `Slots` on leases, `Checkpoint` and
`Publication` on chunk rows and what is published, `PublishedText` on the text they come from, `StageOrder` on the order
of stages, `DeletionSafety` and `DeletionEnds` on deletion, `Vanished` and `Reappearance` on what is left of a deleted
document, `AbandonedStages` on refused attempts, `Scanner` on what recovery lists and takes over, `Completion` and `Completable` on when a document can still be
COMPLETED. `Histories`, `Pipeline`, `Counterexamples` and `Returns` build concrete runs from the empty system.
`AnswerStream` is the transition system of one streamed answer, with `AnswerOutcome` and `AnswerEnd` on how it ends.

Assumptions of the protocol model:

- each section from `FOR UPDATE` to the commit is one atomic step on committed rows;
- the unlocked read and write of the parse worker before its attempt (`document_parse.py:60-81`) is one step, and the
  attempt may begin without it: the model allows more runs than the code. The results that say what can still happen
  (`CompletableExactly`) let a parse attempt begin only after such a read has found the document QUEUED or PROCESSING;
- a parse worker reads the original object and parses it in one step, a clean-up worker removes it in one step; a
  failing read or removal is a failure of the run;
- parsing the same original always gives the same text, so the parse object, whichever attempt wrote it last, has the
  text of the parse-result row; reading a missing one is a failure of the run. A lost parse worker may rewrite or remove
  that object (`document_parse.py:133-136`, `172-174`): results about lost workers speak of rows;
- the look-up of running attempts without a lease (`task_recovery.py:165-179`) is one step with its recovery; listing
  the expired leases and taking each one over are separate steps with a stale list;
- the clock only moves forward, and all processes read the same one;
- a coordinated batch is locked as a whole, and only PENDING documents are compensated;
- a DELETE sees any one running attempt of the document, as the query without an order does.

## Results that differ from what the code's comments promise

The code is modelled as it is. Where a stronger claim fails, a lemma gives a run from the empty system, and where
there is one the exact condition is proved for all documents:

- *A deletion always finishes or leaves the tombstone.* A clean-up run that was taken over can still fail its task,
  because that failure is not fenced; the task is then QUEUED while a second run is RUNNING and cannot be begun. Every
  deletion can get there (`AnyDeletionCanStick`, `DeletionCanStick`). The exact condition, in every reachable state:
  without the clean-up workers begun so far a deletion can still end iff its current clean-up is PENDING, or some
  clean-up is RUNNING, or QUEUED without a running attempt, and then time, scans, take-overs and new clean-up workers
  end it (`DeletionEndsExactly`). A PENDING clean-up of an earlier cycle does not help (`OldPendingDoesNotHelp`).
- *Nothing but the clean-up ends a deletion.* `fail_stage` does not look at DELETING (`FailureCanEndDeletion`; exact
  condition in `FailureEndsDeletion`).
- *DELETED is final.* A take-over can send a DELETED document back to QUEUED (`DeletedCanComeBack`; exact condition in
  `DeletedExactly`).
- *A retried tombstone is a deletion again.* DELETE makes a document DELETING iff it is not a tombstone, which stays
  FAILED (`DeleteExactly`, `TombstoneArises`); losing a clean-up worker of a FAILED document makes it QUEUED iff the
  attempt and its task are RUNNING, no lease is open and a retry is left (`LostRetryExactly`, `RetryCanRevive`).
- *One stage of a document runs at a time.* Not when a parse lease is acquired after the parse stage
  (`TwoStagesCanRun`); exactly those acquisitions break the order (`OrderlyExactly`), and without them it holds
  (`AtMostOneStageRuns`). What is published does not depend on it (`PublishedExactly`).
- *A lost worker changes nothing.* True of the rows, in everything but the heartbeat of a lost embed worker
  (`LostWorkerChangesNothing`): it is accepted iff a lease is open and the document is not being deleted, and moves that
  lease to the embed task (`LostHeartbeat`), so that the next recovery requeues the embed task and leaves the one that
  held the lease as it is (`HeartbeatRedirects`). It does arise beside a lease of the parse task
  (`LostHeartbeatArises`).
- *A recovered task is run again.* A running chunk or embed attempt that asks for the lease is cancelled together with its
  task when it converges, whatever others did in between, iff it found no lease, or for embed a document being deleted
  (`RecoveredStageExactly`). Recovery leaves no lease, and only a parse message acquires one, so the requeued task can end
  CANCELLED with the document QUEUED (`RecoveredChunkArises`), and then no run ever completes the document
  (`AbandonedForEver`). Between the refusal and the convergence, exactly a take-over of the attempt gives the document
  another chance (`DoomedExactly`): without it no continuation completes it (`RefusedNeverCompletes`,
  `ConvergedNeverCompletes`), with it the system can (`TakenOverCompletes`, `TakenOverCanComplete`).
- *An uploaded document is published in the end.* There is a run that does it for any text (`PipelineCompletes`). In every
  reachable state a never-deleted document can still be COMPLETED without the workers begun so far, dead or not, iff a
  condition on its rows holds (`CompletableExactly`).
- *A deleted document is never found again.* Not while it is DELETING or DELETED (`SearchSeesPublished`), and never again
  once no running stage worker holds any of its content in memory (`DeletedNeverFound`). If one does, a DELETED document
  can be QUEUED again, be admitted, and its pieces be found (`OutlivedIsFoundAgain`). Without a new admission that takes a
  running embed worker with all its vectors and a finalize run (`DeletedStaysHidden`), and these suffice while the finalize
  task has a retry left (`ReappearsExactly`).
- *`message_end` means that the answer was stored.* Iff the scan for stale messages did not find the message STREAMING
  (`EndFrameExactly`, `EndAfterScan`).

## Model

| member | source | states |
|---|---|---|
| DocumentStore.DocumentRows.NextAttemptNo | backend/app/repositories/document_task_attempts.py:120-128 | The next number is one more than the largest in use, 1 when there is none |
| DocumentStore.DocumentRows.BeginAttempt | backend/app/workers/base.py:88-125 | A task begins exactly when it is QUEUED, within its retries and has no running attempt; it then has one more RUNNING attempt |
| DocumentStore.DocumentRows.ConvergeCancelled | backend/app/workers/base.py:145-169 | A refused worker cancels its attempt, and its task if running; an ended attempt is left alone |
| DocumentStore.DocumentRows.AdmitParse | backend/app/workers/document_parse.py:60-81 | A lease is acquired only for a QUEUED or PROCESSING document without one, below the user's limit, whatever its parse task is |
| DocumentStore.DocumentRows.Heartbeat | backend/app/repositories/processing_leases.py:77-103 | The lease is renewed exactly when one is open and the document is not being deleted; otherwise nothing changes |
| DocumentStore.DocumentRows.CompleteStage | backend/app/services/document_pipeline.py:86-155 | Commits, replays or is refused as its guards say; only a commit changes a row |
| DocumentStore.DocumentRows.CompleteFinalize | backend/app/services/document_pipeline.py:236-285 | Publishes when the chunk rows are as many as expected, otherwise fails with 20013 |
| DocumentStore.DocumentRows.FailStage | backend/app/services/document_pipeline.py:160-231 | Deterministic failures end the document, others requeue the task within its retries |
| DocumentStore.DocumentRows.SaveParse | backend/app/workers/document_parse.py:151-171 | The parse result and the completed stage are one fenced transaction |
| DocumentStore.DocumentRows.ReplaceDrafts | backend/app/workers/document_chunk.py:97-112 | The drafts are replaced and the stage completed in one fenced transaction |
| DocumentStore.DocumentRows.ReplaceChunks | backend/app/repositories/chunks.py:245-273 | The chunk rows and the checkpoint are replaced together, exactly when the fence lets the attempt write |
| DocumentStore.DocumentRows.EmbedBatches | backend/app/workers/document_embed.py:86-147 | Undisturbed, the batches give one row per draft in order and leave the lease renewed at the last batch; without a lease, or once the document is being deleted, the attempt converges instead |
| DocumentStore.DocumentRows.StageDelete | backend/app/services/document_deletion_service.py:112-187 | Every branch of the DELETE: idempotent, no attempt, attempt without lease, attempt with lease |
| DocumentStore.DocumentRows.FinishCleanup | backend/app/workers/document_delete_cleanup.py:86-127 | All data rows go, the document is DELETED and the lease released, without asking for the attempt |
| DocumentStore.DocumentRows.FailCleanup | backend/app/workers/document_delete_cleanup.py:133-170 | Requeued within its retries, otherwise the tombstone, without asking for the attempt |
| DocumentStore.DocumentRows.RecoverRunningWithoutLease | backend/app/workers/task_recovery.py:195-295 | Every branch of the take-over of a running attempt without a lease |
| DocumentStore.DocumentRows.RecoverExpiredLease | backend/app/workers/task_recovery.py:298-403 | Every branch of the take-over of an expired lease |
| Effects.DeleteCancelsUnstarted | backend/app/services/document_deletion_service.py:153-163 | DELETE cancels every PENDING or QUEUED stage task, changing nothing else of it, and afterwards no stage task can begin |
| Effects.DeleteColumns | backend/app/services/document_deletion_service.py:137-151 | The columns DELETE writes; a tombstone keeps FAILED; the open lease is released exactly when no attempt runs |
| Effects.DeleteKeepsStarted | backend/app/services/document_deletion_service.py:153-187 | DELETE leaves every other stage task and every earlier clean-up task as it is, apart from that of a lost attempt, and adds one task |
| Effects.DeleteCleanupRow | backend/app/services/document_deletion_service.py:165-187 | The clean-up task of the new cycle is PENDING iff a running attempt holds a lease, otherwise QUEUED, with all its retries |
| Effects.ActivationRows | backend/app/services/document_deletion_service.py:49-91 | Activating or queueing the clean-up of the current cycle is a conflict iff it runs or has succeeded; otherwise it is created, or found with all its columns |
| Effects.DeleteCancelsLost | backend/app/services/document_deletion_service.py:172-184 | A running attempt without a lease is cancelled, and its task if that is RUNNING |
| Effects.AdmissionRows | backend/app/workers/document_parse.py:63-81 | A document is admitted iff it is QUEUED or PROCESSING, none of its leases is open and the user has a slot; it is then PROCESSING with one more lease for the parse task |
| Effects.BeginRows | backend/app/workers/base.py:88-125 | A task begins iff it is QUEUED with at most three retries used and none of its attempts runs; it then has one more attempt, numbered next |
| Effects.AdvancedExactly | backend/app/services/document_pipeline.py:96-155 | A stage before finalize is a replay iff its attempt has ended, and commits iff the attempt may write, an open lease is there and the next task has not started |
| Effects.FinalFailureRows | backend/app/services/document_pipeline.py:174-231 | A classified failure, or the fourth of any kind, leaves its code, or 20014, in task and document, FAILED, and releases the lease |
| Effects.RetriedFailureRows | backend/app/services/document_pipeline.py:197-212 | Any other failure queues the task with one more retry and no error, and leaves lease and status |
| Effects.PublicationRows | backend/app/services/document_pipeline.py:274-285 | Publishing writes COMPLETED, the number of chunk rows, the succeeded attempt and task, and the released lease, and nothing else |
| Effects.FailedPublicationRows | backend/app/services/document_pipeline.py:252-273 | A count mismatch leaves 20013 in task and document, FAILED, and releases the lease |
| Effects.FailedCleanupRows | backend/app/workers/document_delete_cleanup.py:133-170 | A failed clean-up run is queued again up to three times; then it leaves failed/delete_cleanup/20015 |
| Effects.ExpiredLeaseRows | backend/app/workers/task_recovery.py:365-403 | Taking over an open lease of a document that is not DELETING cancels the running attempt of the task it names, and queues that task again or fails it and the document with 20014 after three retries |
| Effects.ExpiredWaitRows | backend/app/workers/task_recovery.py:343-363 | While DELETING the take-over cancels that task if it runs and queues the clean-up of the current cycle; every other task stays |
| Effects.LostRows | backend/app/workers/task_recovery.py:270-295 | Taking over a running attempt without a lease queues its task again or fails it and the document with 20014 after three retries |
| Effects.LostStageRows | backend/app/workers/task_recovery.py:253-269 | While DELETING a lost stage attempt and its task are cancelled and the clean-up queued, unless a clean-up runs: then nothing changes |
| WorkerSteps.SavesParsed | backend/app/workers/document_parse.py:151-174 | The worker saves the text it parsed with the success of its stage iff it may write, a lease is open and the chunk task has not started; otherwise nothing, and it has to converge |
| WorkerSteps.SavesPieces | backend/app/workers/document_chunk.py:75-118 | The worker replaces the drafts by the windows of 800 characters, overlapping by 100, of the text it has read, on the same terms |
| WorkerSteps.EmbedsBatch | backend/app/workers/document_embed.py:86-147 | Before each batch of 32 the open lease is renewed for the embed task; without one, or once the document is being deleted, nothing is written and the attempt has to converge |
| WorkerSteps.WritesPieces | backend/app/workers/document_embed.py:149-184 | All the drafts it loaded become the chunk rows together with the checkpoint, iff the attempt may write |
| WorkerSteps.FinishesEmbed | backend/app/workers/document_embed.py:176-184 | The embed stage succeeds with the number of rows its worker wrote, iff it may write, a lease is open and the finalize task has not started |
| WorkerSteps.Publishes | backend/app/workers/document_finalize.py:57-77 | The document is published iff there are as many chunk rows as the checkpoint said when the worker read it; otherwise 20013 |
| Scanner.RecoveryScanner.ScanExpiredLeases | backend/app/workers/task_recovery.py:123-149 | One pass takes over every unreleased lease with expires_at < now once, in any order, counts those, and leaves every other document as it is |
| Scanner.PassSettles | backend/app/workers/task_recovery.py:298-365 | After a pass no unreleased lease is overdue and every deletion that waited for one has its clean-up queued |
| Scanner.ListedWasOverdue | backend/app/workers/task_recovery.py:130-137 | In every run a lease listed for recovery was unreleased and overdue at some scan before |
| Scanner.OverdueIsListed | backend/app/workers/task_recovery.py:130-137 | In every reachable state the next scan lists every unreleased lease that is overdue |
| Scanner.RecoveredWasOverdue | backend/app/workers/task_recovery.py:365-377 | In every run a lease released by a take-over was unreleased and overdue at some scan before |
| Invariant.StepKeeps | backend/app/services/document_pipeline.py:96-155 | Every step of every process keeps the invariant of tasks, attempts, leases, history and deletion, and moves rows only forward |
| Runs.Reachable | backend/app/workers/task_recovery.py:58-80 | The invariant and the slot limit hold after every run from the empty system |
| Runs.LaterEvolves | backend/app/repositories/fencing.py:36-48 | Along a run rows are only added, ended attempts stay ended and released leases stay as they are |
| Attempts.TaskAttemptCoupling | backend/app/workers/task_recovery.py:195-403 | In every reachable state a stage task is RUNNING iff exactly one of its attempts is, and otherwise none is |
| Attempts.AttemptNumbers | backend/app/repositories/document_task_attempts.py:61-76 | Attempts are numbered 1..n with n <= retry_count + 1 <= 4, for every task |
| Attempts.TerminationBound | backend/app/workers/base.py:102-124 | In any run a task begins at most four times and the stage tasks of a document at most sixteen |
| Attempts.BeginCountIsAttemptCount | backend/app/workers/base.py:108-124 | The successful begins counted over a run are exactly the attempts in the rows |
| Attempts.AcceptedIsNewest | backend/app/repositories/fencing.py:24-62 | Only the newest attempt of a task, while RUNNING, gets a write or transition accepted |
| Attempts.FencingOrder | backend/app/repositories/fencing.py:24-62 | Over any run the accepted writes and transitions of a task carry non-decreasing attempt numbers |
| Attempts.ClosedForEver | backend/app/services/document_pipeline.py:171-173 | A stage attempt that left RUNNING never changes number or status again |
| Attempts.LostWorkerChangesNothing | backend/app/services/document_pipeline.py:96-101 | No step of a lost stage worker changes any row, except that a heartbeat may prolong the open lease of a document not being deleted |
| Attempts.LostHeartbeat | backend/app/repositories/processing_leases.py:86-103 | The heartbeat of a lost embed worker is accepted iff a lease is open and the document is not being deleted; it then moves the open lease to the embed task |
| Attempts.HeartbeatRedirects | backend/app/workers/task_recovery.py:366-403 | Recovery of such a lease requeues or fails the embed task whatever its status, and leaves every other task as it is |
| Attempts.StageHistory | backend/app/services/document_pipeline.py:122-142 | A stage task exists only after a SUCCEEDED attempt of every earlier stage; COMPLETED needs all four |
| Attempts.ReplayChangesNothing | backend/app/services/document_pipeline.py:97-100 | Completing an already completed stage again, at any later state and with any result, is an empty replay |
| Slots.UserSlots | backend/app/repositories/processing_leases.py:47-60 | No user ever holds more open leases, or has more PROCESSING documents, than allowed |
| Slots.DocumentSlots | backend/app/models/processing_lease.py:30-37 | A document never has two open leases; PROCESSING has one, COMPLETED and DELETED none |
| Slots.ReleasedForEver | backend/app/repositories/processing_leases.py:105-116 | A released lease never reopens and is never rewritten |
| DeletionSafety.NoStrandedDeletion | backend/app/services/document_deletion_service.py:49-187 | One clean-up task per cycle; while DELETING the current one is PENDING, QUEUED or RUNNING, and PENDING iff a lease is open |
| DeletionSafety.FrozenWait | backend/app/repositories/processing_leases.py:94-99 | As long as a document stays DELETING no step adds a lease or moves its expiry |
| DeletionSafety.RecoveryQueuesCleanup | backend/app/workers/task_recovery.py:343-363 | Once the lease a PENDING clean-up waits for has expired, the next scan lists it; whatever happens between scan and take-over while DELETING, a clean-up still waiting then becomes QUEUED |
| DeletionSafety.DeletionFencesData | backend/app/repositories/fencing.py:55-61 | While DELETING or DELETED no step adds a data row, and a DELETED document has none |
| DeletionSafety.DeletionContinues | backend/app/workers/document_delete_cleanup.py:86-170 | No step but a stage failure takes a DELETING document anywhere but on, to DELETED or to the tombstone |
| DeletionSafety.FailureEndsDeletion | backend/app/services/document_pipeline.py:171-231 | A stage failure ends the deletion iff its attempt is running and the failure is final; the result is FAILED and not the tombstone |
| DeletionEnds.DeletionEndsExactly | backend/app/workers/task_recovery.py:151-295 | For every reachable DELETING document: without the clean-up workers begun so far it can still get to DELETED or the tombstone iff the current clean-up is PENDING, or some clean-up is RUNNING, or QUEUED without a running attempt; and then the system does it by itself |
| DeletionEnds.BlockedStays | backend/app/workers/document_delete_cleanup.py:133-155 | Otherwise no step but a DELETE or one of those workers finishes it or changes any of its clean-up tasks |
| Checkpoint.ChunksMatchCheckpoint | backend/app/workers/document_embed.py:149-184 | In every reachable state a never-deleted document has exactly processed_items chunk rows |
| StageOrder.OrderlyExactly | backend/app/workers/document_parse.py:66-81 | A step keeps the stages in order iff it does not acquire a parse lease after the parse stage |
| StageOrder.AtMostOneStageRuns | backend/app/services/document_pipeline.py:109-153 | Without such acquisitions at most one stage attempt of a document is RUNNING |
| StageOrder.PublishedCount | backend/app/services/document_pipeline.py:275-285 | Without such acquisitions a COMPLETED document, deleted before or not, advertises exactly its chunk rows |
| Publication.PublishedExactly | backend/app/services/document_pipeline.py:275-285 | In every run a COMPLETED document that was never deleted advertises exactly its chunk rows, and they are its drafts in order |
| Publication.SearchSeesPublished | backend/app/repositories/chunks.py:116-149 | In every run a search sees nothing of a document before all its stages have succeeded and nothing while it is DELETING or DELETED; never deleted, nothing or all its pieces |
| Publication.MismatchNeverTaken | backend/app/services/document_pipeline.py:244-274 | In every run an accepted publication of a never-deleted document publishes; the 20013 branch is not taken |
| Publication.NoMismatch | backend/app/workers/document_finalize.py:57-77 | The checkpoint a finalize worker read is the number of chunk rows when it publishes |
| PublishedText.PublishedWindows | backend/app/workers/document_chunk.py:75-112 | In every run the chunk rows of a COMPLETED document that was never deleted are, in order, the windows of 800 characters of its latest parse result at exactly those multiples of 700 where they have text, and that result is not blank |
| PublishedText.NothingUnpublished | backend/app/workers/document_chunk.py:40-41 | So every character of that text that is not blank lies in a row a search can find |
| Vanished.DeletedNeverFound | backend/app/workers/document_delete_cleanup.py:86-127 | In every run: a DELETED document of which no running stage worker holds a text or drafts is never found again, in any continuation |
| Reappearance.HiddenExactly | backend/app/workers/document_parse.py:66-81 | A document without lease, drafts and either rows and full embed workers or finalize runs stays so in exactly the steps that do not admit it |
| Reappearance.DeletedStaysHidden | backend/app/repositories/fencing.py:24-62 | In every run: a DELETED document is not found before it is admitted again, unless a running embed worker with all its vectors and a finalize run were left |
| Reappearance.ReappearsExactly | backend/app/workers/task_recovery.py:259-280 | With a retry left for its finalize task a reachable DELETED document can be found again without an admission iff both were left |
| Returns.OutlivedIsFoundAgain | backend/app/workers/document_chunk.py:73-112 | A run ends in DELETED with the chunk attempt running, a continuation with that worker's pieces found by a search |
| Completable.CompletableExactly | backend/app/workers/task_recovery.py:259-403 | For every reachable never-deleted document: without the workers begun so far it can still be COMPLETED iff its last stage waits and can have a lease, or runs with a retry left, or has ended with a retry left and a lease naming it or, for parse, to come; and then the system does it by itself |
| Completable.TakenOverCompletes | backend/app/workers/task_recovery.py:259-280 | For every reachable never-deleted document: if a refused attempt is taken over while it runs, within its retries, the system can complete the document |
| Completable.FailedHoldsNoSlot | backend/app/services/document_pipeline.py:171-231 | In every run a FAILED document that was never deleted holds no open lease |
| Pipeline.PipelineCompletes | backend/app/services/document_pipeline.py:86-285 | In every reachable state, for any text: a document just uploaded can be published with exactly the windows of that text, if its user may hold a lease |
| Counterexamples.AnyDeletionCanStick | backend/app/workers/document_delete_cleanup.py:133-155 | In every reachable state of any system a deletion whose clean-up has just been queued can get to where it can no longer end |
| Counterexamples.DeletionCanStick | backend/app/workers/document_delete_cleanup.py:133-155 | A run from the empty system ends in a deletion that can no longer end |
| Counterexamples.OldPendingDoesNotHelp | backend/app/services/document_deletion_service.py:49-76 | A run ends in such a deletion beside a PENDING clean-up of an earlier cycle |
| Counterexamples.DeletedExactly | backend/app/workers/task_recovery.py:259-294 | The exact steps that take a document out of DELETED |
| Counterexamples.DeletedCanComeBack | backend/app/workers/task_recovery.py:259-280 | A run takes a DELETED document back to QUEUED |
| Counterexamples.DeleteExactly | backend/app/services/document_deletion_service.py:112-187 | Whatever runs, DELETE starts a new cycle with a fresh clean-up and gives DELETING iff the document is not a tombstone, which stays FAILED |
| Counterexamples.LostRetryExactly | backend/app/workers/task_recovery.py:195-282 | The take-over of a clean-up attempt of a FAILED document makes it QUEUED iff attempt and task are RUNNING, no lease is open and a retry is left |
| Counterexamples.RetryCanRevive | backend/app/workers/task_recovery.py:259-280 | A run leads from a tombstone over DELETE and a lost clean-up worker to QUEUED |
| Counterexamples.TombstoneArises | backend/app/workers/task_recovery.py:228-252 | Four lost clean-up workers in a row leave the tombstone |
| Counterexamples.FailureCanEndDeletion | backend/app/services/document_pipeline.py:171-196 | A run ends FAILED without tombstone, with the clean-up PENDING and no lease |
| Counterexamples.TwoStagesCanRun | backend/app/workers/task_recovery.py:379-390 | A run ends with the parse and the chunk stage RUNNING at once, under a lease |
| Counterexamples.LostHeartbeatArises | backend/app/workers/document_embed.py:86-98 | A run ends with a lost embed worker whose next heartbeat takes the lease of the parse task |
| Counterexamples.RecoveredChunkArises | backend/app/workers/document_chunk.py:73-78 | A run ends QUEUED with the recovered chunk task CANCELLED and abandoned |
| Counterexamples.TakenOverCanComplete | backend/app/workers/task_recovery.py:165-179 | A run refuses the chunk attempt, takes it over before it converges, and ends COMPLETED |
| AbandonedStages.RecoveredStageExactly | backend/app/workers/base.py:145-169 | In every run: a running chunk or embed attempt that asked for the lease ends CANCELLED with its task when it converges, with any steps of others in between, iff there was none, or for embed the document was being deleted; nothing else changes |
| AbandonedStages.DoomedExactly | backend/app/workers/task_recovery.py:195-280 | A refused stage that never succeeded stays without a way on in exactly the steps that do not requeue it by a take-over |
| AbandonedStages.RefusedNeverCompletes | backend/app/workers/document_chunk.py:73-78 | In every run: when a running chunk or embed attempt whose stage never succeeded finds no lease, and no other embed worker can still send a heartbeat, no continuation without such a take-over completes the document |
| AbandonedStages.ConvergedNeverCompletes | backend/app/workers/base.py:145-169 | The same for any steps between refusal and convergence, if the attempt still runs when its worker converges |
| AbandonedStages.AbandonedForEver | backend/app/services/document_pipeline.py:122-142 | Once a stage after parse has ended without success and no lease or coming heartbeat names it, no continuation ever completes the document |
| Upload.LocalStorage.WriteTemp | backend/app/infrastructure/storage/local.py:32-35 | One temporary object is written |
| Upload.LocalStorage.Promote | backend/app/infrastructure/storage/local.py:43-53 | An existing final object counts as promoted; otherwise the temporary one is moved, or nothing changes |
| Upload.LocalStorage.PromoteBatch | backend/app/services/file_storage.py:34-36 | Promotion in order up to the first failure |
| Upload.LocalStorage.CleanupBatch | backend/app/infrastructure/storage/local.py:55-58 | Every object of the batch goes, every other stays |
| Upload.UploadCoordinator.PersistBatch | backend/app/services/document_service.py:143-203 | A persisted batch has all temporary objects, PENDING rows and no final object |
| Upload.UploadCoordinator.CoordinateBatch | backend/app/services/document_service.py:209-236 | Without the locks nothing happens; with them the batch is queued or compensated as a whole |
| Upload.UploadCoordinator.MarkBatchQueued | backend/app/services/document_service.py:238-280 | The two bulk updates queue exactly the PENDING documents and parse tasks of the batch |
| Upload.UploadCoordinator.CompensateBatch | backend/app/services/document_service.py:282-335 | Objects removed, all documents and parse tasks FAILED with 20011, the request FAILED |
| Upload.PromotionExactly | backend/app/infrastructure/storage/local.py:43-53 | A batch is accepted iff every document has an object and none still temporary fails to be renamed |
| Upload.CrashLeaves | backend/app/services/document_service.py:209-335 | The crashes considered leave any number of first documents promoted, or, after a failed promotion, any part of the batch removed |
| Upload.AllOrNothing | backend/app/services/document_service.py:209-335 | After any crashes in promotion or clean-up a run to the end queues everything with its content, or fails everything and leaves no object; other batches stay |
| Upload.SameAsUninterrupted | backend/app/services/document_service.py:209-280 | Without I/O errors any crashes leave the outcome of the uninterrupted run, which is the accepted one |
| Upload.CoordinateAgain | backend/app/services/document_service.py:209-335 | Coordinating a converged batch again changes nothing |
| EventStream.DispatchFrame | frontend/src/lib/api/client.ts:578-596 | The line loop gives the event of the frame, none without data |
| EventStream.StreamEvents | frontend/src/lib/api/client.ts:556-576 | The events dispatched depend only on the concatenation of the chunks |
| EventStream.SplitAppend | frontend/src/lib/api/client.ts:564-573 | Splitting what is left and more text gives the frames of the whole text: chunk borders do not matter |
| EventStream.RoundTrip | backend/app/api/v1/sse/message_stream.py:60-67 | Any list of written frames, cut anywhere, is dispatched exactly and in order |
| EventStream.ReadsOtherWriters | frontend/src/lib/api/client.ts:555-596 | With either line end, several data lines or no name, cut anywhere, the reader dispatches one event a frame, in order, with the name or `message` and exactly the lines of data |
| EventStream.SeparatorExactly | frontend/src/lib/api/client.ts:558 | A frame ends at two line ends, each with or without a carriage return |
| EventStream.CutStream | frontend/src/lib/api/client.ts:564-573 | When the connection breaks, the terminated frames that arrived are a prefix of the written ones |
| AnswerStream.Delivery | backend/app/api/v1/sse/message_stream.py:41-57 | The queue holds at most eight items; the consumer sees a prefix of the deltas in order, and its delta frames are their texts |
| AnswerStream.EveryExitIsTerminal | backend/app/api/v1/sse/message_stream.py:70-117 | However a started stream ends, its message is terminal; AnswerOutcome.OutcomeExactly says which state it is |
| AnswerOutcome.OutcomeExactly | backend/app/api/v1/sse/message_stream.py:88-117 | In every run with evidence the first of four events decides the stored message for good: stale scan or taken failure: failed/error; disconnect or exception before an outcome: cancelled/cancelled; end of the stream stored: completed with the texts sent and the last reason given |
| AnswerOutcome.EndedHasCause | backend/app/api/v1/sse/message_stream.py:70-117 | A stream with evidence that has ended had one of the four |
| AnswerOutcome.LastFrameExactly | backend/app/api/v1/sse/message_stream.py:101-113 | The last frame is error iff the consumer took the failure, and message_end with the last reason given iff it stored |
| AnswerOutcome.LastFrameComes | backend/app/api/v1/sse/message_stream.py:101-113 | Having taken the failure or come to store, the consumer sends its last frame unless the client goes away at that moment |
| AnswerOutcome.CompletedIsFinished | backend/app/api/v1/sse/message_stream.py:133-143 | A completed answer is one the model has finished |
| AnswerOutcome.TakenIsFailed | backend/app/api/v1/sse/message_stream.py:142-146 | The consumer takes a failure only if the generation has failed |
| AnswerOutcome.NoEvidence | backend/app/api/v1/sse/message_stream.py:79-87 | Without evidence the message stays as it was completed and the frames are the two opening ones and message_end with stop |
| AnswerStream.FirstWriterWins | backend/app/services/message_terminal_state.py:36-49 | A terminal message never changes again, in any run |
| AnswerStream.CompletedContent | backend/app/api/v1/sse/message_stream.py:90-112 | A completed answer is the concatenation of the delta frames sent, and of all visible deltas generated |
| AnswerEnd.EndFrameExactly | backend/app/api/v1/sse/message_stream.py:107-113 | In every run with evidence: with `message_end` sent the message is COMPLETED with that reason and the text of the delta frames iff no stale scan found it STREAMING, and FAILED otherwise |
| AnswerEnd.EndAfterScan | backend/app/workers/task_recovery.py:507-533 | A run sends the normal end frame for a FAILED message |
| AnswerStream.FrameOrder | backend/app/api/v1/sse/message_stream.py:76-117 | message_start, retrieval_done, deltas, and at most one last frame |
| AnswerStream.NeverHangs | backend/app/api/v1/sse/message_stream.py:135-165 | A consumer waiting on an empty queue waits for a thread that will still put something |
| AnswerStream.NoThreadStaysBlocked | backend/app/api/v1/sse/message_stream.py:147-160 | An abandoned reader thread always finds an item once the generation thread has left |
| AnswerStream.LeaveBlocks | backend/app/api/v1/sse/message_stream.py:161-172 | A client that goes away leaves a reader thread behind iff the consumer was waiting on an empty queue |
| AnswerStream.LeftBehind | backend/app/api/v1/sse/message_stream.py:147-172 | However a stream was left, finalising the generator lets the generation thread leave, and then a reader thread left behind gets an item |
| AnswerStream.ThreadWindsDown | backend/app/api/v1/sse/message_stream.py:41-57 | Once the stop flag is set every step of the generation thread brings it closer to its end |
| AnswerStream.ThreadEnds | backend/app/api/v1/sse/message_stream.py:41-57 | Once the stop flag is set four steps of its own are enough for the generation thread to leave, from wherever it is |
| AnswerStream.PutExactly | backend/app/api/v1/sse/message_stream.py:33-57 | An item goes into the queue, as its last, exactly when there are fewer than eight |
| MessageState.MessageTerminalState.SetTerminal | backend/app/services/message_terminal_state.py:27-49 | Writes and returns true exactly for a STREAMING message of this user |
| MessageState.MessageTerminalState.Complete | backend/app/services/message_terminal_state.py:51-65 | Completed with its content and reason, exactly when still STREAMING |
| MessageState.MessageTerminalState.Fail | backend/app/services/message_terminal_state.py:67-73 | failed/error, exactly when still STREAMING |
| MessageState.MessageTerminalState.Cancel | backend/app/services/message_terminal_state.py:75-81 | cancelled/cancelled, exactly when still STREAMING |
| MessageState.MessageTerminalState.ConvergeStale | backend/app/workers/task_recovery.py:507-533 | Exactly the stale STREAMING assistant messages are failed, each counted once; none is left |
| RankFusion.RrfFuse | backend/app/services/retrieval_service.py:58-91 | The dictionary loops compute every chunk's fused score and sort them |
| RankFusion.FusedExactlyOnce | backend/app/services/retrieval_service.py:71-78 | Every chunk of either list exactly once, by score, document and position |
| RankFusion.FusedOrder | backend/app/services/retrieval_service.py:71-78 | Of two entries the first has the larger sum, or the same sum and the smaller document, or the same both and no larger position |
| RankFusion.FusedWorth | backend/app/services/retrieval_service.py:63-70 | The score of an entry is the sum of 1/(k + rank) over the places where the chunk occurs in either list |
| RankFusion.Dominance | backend/app/services/retrieval_service.py:63-70 | A chunk ranked better in every list where another appears precedes it |
| RankFusion.BothBeforeOne | backend/app/services/retrieval_service.py:63-78 | With lists shorter than k + 2 chunks found twice precede chunks found once |
| RankFusion.TwoBeatOne | backend/app/services/retrieval_service.py:38-39 | Two last places beat one first place iff the lists are shorter than k + 2 |
| RankFusion.RecallsInUse | backend/app/repositories/chunks.py:76-114 | So it is with twenty hits a list and k = 60 |
| Rerank.ValidateScores | backend/app/services/llm/reranker.py:26-41 | Accepted iff finite and the indices are a permutation of 0..n-1 |
| Rerank.Pigeonhole | backend/app/services/llm/reranker.py:28-40 | n different indices below n are all of them |
| Rerank.RerankExactly | backend/app/services/retrieval_service.py:94-106 | Accepted scores give the one stable descending order of the candidates; anything else leaves them alone |
| Rerank.RerankedList | backend/app/services/retrieval_service.py:103-106 | The list returned has every candidate once with the score given for its index, larger scores first and equal ones in the order they had |
| Rerank.OrderExists | backend/app/services/retrieval_service.py:104-106 | For any scores there is a stable descending order of the candidates |
| Rerank.ScoreGiven | backend/app/services/retrieval_service.py:104-106 | The score a candidate gets is the one given for its index |
| ContextPack.PackContext | backend/app/services/retrieval_service.py:109-126 | The loop joins exactly the kept chunks |
| ContextPack.JoinInOrder | backend/app/services/retrieval_service.py:126 | The text is the parts in order, each at the place the ones before it and the blank lines between leave |
| ContextPack.KeptExactly | backend/app/services/retrieval_service.py:114-125 | A candidate is dropped iff it follows directly on the last kept chunk of its document or exceeds the budget left |
| ContextPack.WithinBudget | backend/app/services/retrieval_service.py:120-125 | The kept chunks are a subsequence and their estimates add up to at most max_tokens |
| ContextPack.NeverAdjacent | backend/app/services/retrieval_service.py:115-119 | No kept chunk directly follows the chunk of its document kept before it |
| ContextPack.Subadditive | backend/app/services/retrieval_service.py:51-55 | Joining texts never costs more tokens than they cost apart |
| ContextPack.EstimateExactly | backend/app/services/retrieval_service.py:51-55 | One token for each CJK character and one for every four others or part of four |
| ContextPack.PackedEstimate | backend/app/services/retrieval_service.py:109-126 | The text of n parts is estimated at no more than max_tokens + (n - 1) / 2 rounded up |
| Paging.WalkIsComplete | backend/app/repositories/conversations.py:138-161 | Following the cursor gives every message present at the first call exactly once, latest first, for any limit, ties and newer messages, and ends |
| Paging.PageExactly | backend/app/repositories/conversations.py:146-161 | A page has at most `limit` of the messages below its cursor, latest first and none later left out; has_more iff some are left out, and next_before is then its last message |
| Paging.UnknownCursor | backend/app/repositories/conversations.py:151-153 | A request is answered unless its cursor names no message |
| Paging.RestOfWalk | backend/app/repositories/conversations.py:151-156 | Below a message of the first table there are exactly the later-listed ones, whatever was added |
| ChunkWindows.WindowsRebuild | backend/app/workers/document_chunk.py:37-41 | Without their overlap the windows add up to the text |
| ChunkWindows.PiecesFit | backend/app/workers/document_chunk.py:40-41 | No piece is longer than the window |
| ChunkWindows.NothingLost | backend/app/workers/document_chunk.py:40-41 | Every character that is not blank lies in a kept piece, at its place |
| ChunkWindows.PiecesInOrder | backend/app/workers/document_chunk.py:37-41 | The pieces of a text that is not blank are its windows with text, at increasing multiples of size - overlap, each from its offset to its end or that of the text |
| ChunkWindows.PiecesRebuild | backend/app/workers/document_chunk.py:37-41 | When no window is blank the first size - overlap characters of the pieces add up to the text |
| ChunkWindows.BlankPieces | backend/app/workers/document_chunk.py:41 | A text of nothing but blanks gives one empty piece, the empty text none |
| ChunkWindows.WindowsInUse | backend/app/workers/document_chunk.py:33-41 | So it is with windows of 800 characters that overlap by 100 |
| ChunkWindows.BlankOnly | backend/app/workers/document_chunk.py:41 | A blank piece occurs iff the whole text is blank and not empty |

## Left out

- The workers and the answer stream as loops of one process: they run beside each other, so they are steps of a
  transition system on values; `DocumentStore` and `MessageState` give their transactions in the form of the code.
- Database internals: lock waiting, isolation levels, the ORM's identity map and flushing; see the atomic steps above.
- Celery, Redis and the rate limiter: a message is any step at any time; redelivery and `redispatch_stuck_queued_tasks`
  change no row and need no step of their own.
- Stored objects other than upload batches and the original read by parse workers and removed by clean-up workers: the
  parse output object has the text of the row that names it.
- Tenant boundary checks, document versions (always 1), timestamps, messages and hashes: no modelled branch depends on
  them.
- The CLEANUP task type: no code creates such a task.
- Partial batches that SKIP LOCKED returns, and compensation of a batch whose documents are not all PENDING any more.
- Removing a directory tree: when a compensation runs to its end all objects of the batch are taken to be gone.
- Parsers, embedding and generation calls, sanitizers: their results are arbitrary inputs or failures.
- JSON: a payload is an opaque one-line string from `{` to `}`; a payload the reader cannot parse is not modelled, nor
  is the decoding of bytes to characters.
- Failing database writes of a terminal message state: the stale-message scan is the remedy the code has for them.
- Float rounding of scores: fractions are exact; the similarity columns of fused candidates are not modelled.
- Knowledge bases and their convergence, authentication, settings, migrations and all of the user interface: they would
  add only easier members.
- Publication.MismatchNeverTaken: claims nothing for documents that were deleted before, because an unfenced clean-up
  may remove their chunk rows between the checkpoint and the publication.
- DocumentStore.DocumentRows.EmbedBatches: is the loop without other processes in between; the steps in between are the
  steps of the transition system.
- StageOrder.PublishedCount: is limited to runs without late acquisitions; for documents never deleted
  Publication.PublishedExactly needs no such limit.
- Reappearance.ReappearsExactly: says nothing of a finalize task out of retries, where DeletedStaysHidden gives one
  direction; no run is given that leaves both an embed and a finalize run behind a DELETED document.
- Paging.WalkIsComplete: covers newer messages arriving between pages; no code deletes single messages, only whole
  conversations with all of theirs (`conversations.py:116-128`), after which there is nothing left to list.
