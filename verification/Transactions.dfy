/** The effect of each committed transaction on the rows of one document.

    One function per transaction of the workers, the deletion service and the recovery scanner, from
    the rows before to the rows after.  A transaction that is rolled back has no effect. */
module Transactions {
  import opened Rows

  // ---------------------------------------------------------------------------------------------
  // Row updates
  // ---------------------------------------------------------------------------------------------

  function PutTask(d: Document, key: TaskKey, task: Task): Document {
    d.(tasks := d.tasks[key := task])
  }

  function CloseAttempt(task: Task, index: nat, status: AttemptStatus): Task
    requires index < |task.attempts|
  {
    task.(attempts := task.attempts[index := task.attempts[index].(status := status)])
  }

  function SetWorker(d: Document, a: AttemptId, worker: Worker): Document
    requires HasAttempt(d, a)
  {
    var task := d.tasks[a.key];
    PutTask(d, a.key,
            task.(attempts := task.attempts[a.index := task.attempts[a.index].(worker := worker)]))
  }

  function ReleaseLease(d: Document, reason: ReleaseReason): Document {
    match FindOpen(d.leases)
    case None => d
    case Some(i) => d.(leases := d.leases[i := d.leases[i].(released := Some(reason))])
  }

  /** Back to the queue with one more retry: the shared requeue of failures and recoveries. */
  function Requeue(task: Task): Task {
    task.(status := TaskQueued, retry := task.retry + 1, error := None)
  }

  function FailTask(task: Task, code: nat): Task {
    task.(status := TaskFailed, error := Some(code))
  }

  function FailDocument(d: Document, code: nat, retry: nat): Document {
    d.(status := Failed, error := Some(code), retry := retry)
  }

  // ---------------------------------------------------------------------------------------------
  // Upload coordination, seen from one document
  // ---------------------------------------------------------------------------------------------

  function MarkQueued(d: Document): Document {
    var parse := StageKey(Parse);
    var d1 := if d.status.Pending? then d.(status := Queued, current := Some(Parse)) else d;
    if parse in d1.tasks && d1.tasks[parse].status.TaskPending?
    then PutTask(d1, parse, d1.tasks[parse].(status := TaskQueued))
    else d1
  }

  function Compensate(d: Document): Document {
    var parse := StageKey(Parse);
    var d1 := d.(status := Failed, current := Some(Parse), error := Some(STORAGE_FAILED));
    if parse in d1.tasks then PutTask(d1, parse, FailTask(d1.tasks[parse], STORAGE_FAILED)) else d1
  }

  // ---------------------------------------------------------------------------------------------
  // Workers
  // ---------------------------------------------------------------------------------------------

  /** The lease part of the parse worker: `slotFree` says that the user holds fewer unreleased
      leases than allowed.  Whether the parse task is still QUEUED is not looked at. */
  function AdmitParse(d: Document, now: int, seconds: nat, slotFree: bool): Document {
    if !(d.status.Queued? || d.status.Processing?) || HasOpenLease(d) || !slotFree then d
    else
      var lease := Lease(StageKey(Parse), now, now + seconds, None);
      var d1 := d.(leases := d.leases + [lease]);
      if d1.status.Queued? then d1.(status := Processing) else d1
  }

  /** A task can be begun when it is QUEUED, within its retry budget and, because of the unique index
      on running attempts, has no running attempt. */
  predicate CanBegin(d: Document, key: TaskKey) {
    && key in d.tasks
    && d.tasks[key].status.TaskQueued?
    && d.tasks[key].retry <= d.tasks[key].maxRetries
    && FindRunning(d.tasks[key].attempts).None?
  }

  function BeginAttempt(d: Document, key: TaskKey): Document {
    if !CanBegin(d, key) then d
    else
      var task := d.tasks[key];
      var attempt := Attempt(MaxAttemptNo(task.attempts) + 1, Running, Working);
      PutTask(d, key, task.(status := TaskRunning, attempts := task.attempts + [attempt]))
  }

  /** The write fence: the attempt and its task are running and the document is not being deleted. */
  predicate Fence(d: Document, a: AttemptId)
    requires HasAttempt(d, a)
  {
    && AttemptOf(d, a).status.Running?
    && d.tasks[a.key].status.TaskRunning?
    && !BeingDeleted(d)
  }

  datatype Outcome =
    | Committed(document: Document)
    | Replayed  // the attempt had ended before: nothing is written
    | Refused   // a fencing error: the transaction is rolled back

  function NextStage(kind: TaskType): TaskType
    requires kind.Parse? || kind.Chunk? || kind.Embed?
  {
    match kind
    case Parse => Chunk
    case Chunk => Embed
    case Embed => Finalize
  }

  function CompleteStage(d: Document, a: AttemptId, total: Option<nat>, processed: Option<nat>,
                         expected: Option<nat>): Outcome
    requires HasAttempt(d, a) && IsStage(a.key)
  {
    if !AttemptOf(d, a).status.Running? then Replayed
    else if !d.tasks[a.key].status.TaskRunning? || BeingDeleted(d) then Refused
    else if a.key.kind.Finalize? then Committed(CompleteFinalize(d, a, expected))
    else Advance(d, a, total, processed)
  }

  /** The stage succeeds, the task of the next stage is created or found, and the lease moves on. */
  function Advance(d: Document, a: AttemptId, total: Option<nat>, processed: Option<nat>): Outcome
    requires HasAttempt(d, a) && IsStage(a.key) && !a.key.kind.Finalize?
  {
    var task := d.tasks[a.key];
    var next := NextStage(a.key.kind);
    var key := StageKey(next);
    var closed := CloseAttempt(task, a.index, Succeeded).(
      status := TaskSucceeded,
      total := if total.Some? then total else task.total,
      processed := if processed.Some? then processed.value else task.processed);
    var d1 := PutTask(d, a.key, closed).(current := Some(next), retry := 0);
    if key in d1.tasks && !d1.tasks[key].status.TaskPending? && !d1.tasks[key].status.TaskQueued?
    then Refused
    else
      var d2 := if key in d1.tasks then d1 else PutTask(d1, key, NewTask(TaskQueued));
      match FindOpen(d2.leases)
      case None => Refused
      case Some(i) => Committed(d2.(leases := d2.leases[i := d2.leases[i].(task := key)]))
  }

  function FailPublication(d: Document, a: AttemptId): Document
    requires HasAttempt(d, a)
  {
    var task := d.tasks[a.key];
    var failed := FailTask(CloseAttempt(task, a.index, Errored), COUNT_MISMATCH);
    ReleaseLease(FailDocument(PutTask(d, a.key, failed), COUNT_MISMATCH, task.retry), ByFinalizeFailure)
  }

  function PublishChunks(d: Document, a: AttemptId): Document
    requires HasAttempt(d, a)
  {
    var count := |d.chunks|;
    var closed := CloseAttempt(d.tasks[a.key], a.index, Succeeded).(
      status := TaskSucceeded, total := Some(count), processed := count);
    ReleaseLease(
      PutTask(d, a.key, closed).(status := Completed, chunkCount := count, current := None, retry := 0),
      ByCompletion)
  }

  /** Publish only when the number of chunk rows is the expected one; otherwise fail with 20013. */
  function CompleteFinalize(d: Document, a: AttemptId, expected: Option<nat>): Document
    requires HasAttempt(d, a)
  {
    var wanted := if expected.Some? then expected.value else d.tasks[a.key].processed;
    if |d.chunks| != wanted then FailPublication(d, a) else PublishChunks(d, a)
  }

  /** The stage, its task and the document fail for good and the slot is given back. */
  function GiveUp(d: Document, a: AttemptId, code: nat): Document
    requires HasAttempt(d, a)
  {
    var task := d.tasks[a.key];
    var failed := FailTask(CloseAttempt(task, a.index, Errored), code);
    ReleaseLease(FailDocument(PutTask(d, a.key, failed), code, task.retry), ByFailure)
  }

  /** `code` is the error of a deterministic failure, None for an unclassified exception.  The status
      of the document is not looked at. */
  function FailStage(d: Document, a: AttemptId, code: Option<nat>): Document
    requires HasAttempt(d, a)
  {
    var task := d.tasks[a.key];
    if !AttemptOf(d, a).status.Running? then d
    else if code.Some? then GiveUp(d, a, code.value)
    else if task.retry < task.maxRetries then
      PutTask(d, a.key, Requeue(CloseAttempt(task, a.index, Errored))).(retry := task.retry + 1, error := None)
    else GiveUp(d, a, PROCESSING_FAILED)
  }

  function CancelIfRunning(task: Task): Task {
    if task.status.TaskRunning? then task.(status := TaskCancelled) else task
  }

  /** An attempt is cancelled, and its task with it if that is running. */
  function CancelLost(d: Document, a: AttemptId): Document
    requires HasAttempt(d, a)
  {
    PutTask(d, a.key, CancelIfRunning(CloseAttempt(d.tasks[a.key], a.index, Cancelled)))
  }

  function ConvergeCancelled(d: Document, a: AttemptId): Document
    requires HasAttempt(d, a)
  {
    if !AttemptOf(d, a).status.Running? then d
    else CancelLost(d, a)
  }

  /** Saving the parse result and completing the stage are one transaction. */
  function CommitParse(d: Document, a: AttemptId, text: string): Outcome
    requires HasAttempt(d, a) && IsStage(a.key)
  {
    if !Fence(d, a) then Refused
    else CompleteStage(d.(parseResults := d.parseResults + [text]), a, Some(1), Some(1), None)
  }

  /** Replacing the drafts and completing the stage are one transaction. */
  function CommitChunk(d: Document, a: AttemptId, pieces: seq<string>): Outcome
    requires HasAttempt(d, a) && IsStage(a.key)
  {
    if !Fence(d, a) then Refused
    else CompleteStage(d.(drafts := pieces), a, Some(|pieces|), Some(|pieces|), None)
  }

  /** Replacing the chunk rows and the checkpoint of the embed task are one transaction; completing
      the stage is a later one. */
  function WriteChunks(d: Document, a: AttemptId, chunks: seq<string>): Outcome
    requires HasAttempt(d, a)
  {
    if !Fence(d, a) then Refused
    else Committed(PutTask(d.(chunks := chunks), a.key, d.tasks[a.key].(processed := |chunks|)))
  }

  /** Renew the open lease for `key`; refused without a lease or while the document is being deleted.
      The attempt of the caller is not looked at. */
  function Heartbeat(d: Document, key: TaskKey, now: int, seconds: nat): Outcome {
    match FindOpen(d.leases)
    case None => Refused
    case Some(i) =>
      if BeingDeleted(d) then Refused
      else
        var renewed := d.leases[i].(heartbeat := now, expires := now + seconds, task := key);
        Committed(d.(leases := d.leases[i := renewed]))
  }

  /** The checkpoint finalize publishes against. */
  function EmbedCheckpoint(d: Document): nat {
    if StageKey(Embed) in d.tasks then d.tasks[StageKey(Embed)].processed else 0
  }

  // ---------------------------------------------------------------------------------------------
  // Deletion
  // ---------------------------------------------------------------------------------------------

  /** Create the clean-up task of the current cycle, or find it; a conflict when it is running or has
      succeeded. */
  function ActivateCleanup(d: Document): Outcome {
    var key := CleanupKey(d.cycle);
    if key !in d.tasks then Committed(PutTask(d, key, NewTask(TaskPending)))
    else if d.tasks[key].status.TaskRunning? || d.tasks[key].status.TaskSucceeded? then Refused
    else Committed(d)
  }

  function QueueCleanup(d: Document): Outcome {
    match ActivateCleanup(d)
    case Committed(d1) =>
      var key := CleanupKey(d1.cycle);
      if key in d1.tasks then Committed(PutTask(d1, key, d1.tasks[key].(status := TaskQueued))) else Refused
    case other => other
  }

  /** Roll back to `d` unless the transaction commits. */
  function OrElse(outcome: Outcome, d: Document): Document {
    match outcome
    case Committed(after) => after
    case _ => d
  }

  function CancelUnstarted(tasks: map<TaskKey, Task>): map<TaskKey, Task> {
    map key | key in tasks ::
      if IsStage(key) && (tasks[key].status.TaskPending? || tasks[key].status.TaskQueued?)
      then tasks[key].(status := TaskCancelled) else tasks[key]
  }

  /** `open` is the row the query for a running attempt of the document returns: any running attempt,
      or None when there is none. */
  predicate IsOpenAttempt(d: Document, open: Option<AttemptId>) {
    match open
    case Some(a) => HasAttempt(d, a) && AttemptOf(d, a).status.Running?
    case None => forall key :: key in d.tasks ==> FindRunning(d.tasks[key].attempts).None?
  }

  /** DELETING, a new delete cycle and no unstarted stage task; a tombstone keeps its status. */
  function MarkDeleting(d: Document): Document {
    var d1 := if IsTombstone(d) then d else d.(status := Deleting);
    d1.(cycle := d1.cycle + 1, current := Some(DeleteCleanup), retry := 0, error := None,
        tasks := CancelUnstarted(d1.tasks))
  }

  /** Without a running attempt the lease is released at once; a running attempt without a lease is
      lost and cancelled; otherwise the lease stays and its expiry bounds the wait. */
  function BeforeCleanup(d: Document, open: Option<AttemptId>): Document
    requires IsOpenAttempt(d, open)
  {
    var d1 := MarkDeleting(d);
    if open.None? then ReleaseLease(d1, ByDeletion)
    else if HasOpenLease(d1) then d1
    else assert HasAttempt(d1, open.value); CancelLost(d1, open.value)
  }

  function StageDelete(d: Document, open: Option<AttemptId>): Document
    requires IsOpenAttempt(d, open)
  {
    if BeingDeleted(d) then d
    else
      var d1 := BeforeCleanup(d, open);
      OrElse(if open.Some? && HasOpenLease(d1) then ActivateCleanup(d1) else QueueCleanup(d1), d)
  }

  /** The end of a clean-up run.  It is not fenced: neither the attempt nor the task is looked at. */
  function FinishCleanup(d: Document, a: AttemptId): Document
    requires HasAttempt(d, a)
  {
    var closed := CloseAttempt(d.tasks[a.key], a.index, Succeeded).(status := TaskSucceeded);
    var d1 := d.(parseResults := [], drafts := [], chunks := [],
                 status := Deleted, current := None, error := None);
    PutTask(ReleaseLease(d1, ByDeletion), a.key, closed)
  }

  /** The clean-up run found the document already DELETED. */
  function FinishCleanupAgain(d: Document, a: AttemptId): Document
    requires HasAttempt(d, a)
  {
    PutTask(d, a.key, CloseAttempt(d.tasks[a.key], a.index, Succeeded).(status := TaskSucceeded))
  }

  function ToTombstone(d: Document, retry: nat): Document {
    FailDocument(d, DELETE_UNFINISHED, retry).(current := Some(DeleteCleanup))
  }

  /** A failed clean-up run: retry within the budget, otherwise leave the tombstone.  Not fenced. */
  function FailCleanup(d: Document, a: AttemptId): Document
    requires HasAttempt(d, a)
  {
    var task := d.tasks[a.key];
    var closed := CloseAttempt(task, a.index, Errored);
    if task.retry < task.maxRetries then PutTask(d, a.key, Requeue(closed)).(retry := task.retry + 1)
    else ToTombstone(PutTask(d, a.key, FailTask(closed, DELETE_UNFINISHED)), task.retry)
  }

  // ---------------------------------------------------------------------------------------------
  // Recovery scanner
  // ---------------------------------------------------------------------------------------------

  /** Cancel the running attempt of a task whose worker lost its lease. */
  function CancelRunningAttempt(task: Task): Task {
    match FindRunning(task.attempts)
    case Some(i) => CloseAttempt(task, i, Cancelled)
    case None => task
  }

  /** Take over the lease with the given index.  Its expiry was checked when the scan listed it and
      is not checked again.  `lease.task` may name a task that is not running any more. */
  function RecoverExpiredLease(d: Document, index: nat): Document
    requires index < |d.leases|
  {
    var lease := d.leases[index];
    if !IsOpen(lease) then d
    else if d.status.Deleting? then
      var d1 := if lease.task in d.tasks
                then PutTask(d, lease.task, CancelIfRunning(CancelRunningAttempt(d.tasks[lease.task]))) else d;
      var d2 := d1.(leases := d1.leases[index := lease.(released := Some(ByDeletion))],
                    current := Some(DeleteCleanup), retry := 0);
      OrElse(QueueCleanup(d2), d)
    else
      var d1 := d.(leases := d.leases[index := lease.(released := Some(ByRecovery))]);
      if lease.task !in d.tasks then d1
      else
        var task := CancelRunningAttempt(d.tasks[lease.task]);
        if task.retry < task.maxRetries then
          PutTask(d1, lease.task, Requeue(task)).(status := Queued, retry := task.retry + 1, error := None)
        else
          FailDocument(PutTask(d1, lease.task, FailTask(task, PROCESSING_FAILED)), PROCESSING_FAILED, task.retry)
  }

  /** Take over a running attempt of a document without an open lease. */
  function RecoverRunningWithoutLease(d: Document, a: AttemptId): Document
    requires HasAttempt(d, a)
  {
    var task := d.tasks[a.key];
    if !AttemptOf(d, a).status.Running? || !task.status.TaskRunning? || HasOpenLease(d) then d
    else
      var closed := CloseAttempt(task, a.index, Cancelled);
      if d.status.Deleting? && a.key.kind.DeleteCleanup? then
        if task.retry < task.maxRetries
        then PutTask(d, a.key, Requeue(closed)).(retry := task.retry + 1)
        else ToTombstone(PutTask(d, a.key, FailTask(closed, DELETE_UNFINISHED)), task.retry)
      else if d.status.Deleting? then
        var d1 := PutTask(d, a.key, closed.(status := TaskCancelled));
        OrElse(QueueCleanup(d1.(current := Some(DeleteCleanup), retry := 0)), d)
      else if task.retry < task.maxRetries then
        PutTask(d, a.key, Requeue(closed)).(status := Queued, retry := task.retry + 1, error := None)
      else
        FailDocument(PutTask(d, a.key, FailTask(closed, PROCESSING_FAILED)), PROCESSING_FAILED, task.retry)
  }
}
