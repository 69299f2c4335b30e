/** The rows of the document task protocol.

    Every row of `document_tasks`, `document_task_attempts`, `document_processing_leases`,
    `document_parse_results`, `document_chunk_drafts` and `chunks` carries the id of its document,
    so the rows are grouped by document: a `Document` is the `documents` row together with all rows
    that refer to it and the presence of its original object in the storage.  Columns that no branch reads
    (timestamps, names, hashes, messages) are absent. */
module Rows {
  datatype Option<+T> = None | Some(value: T)

  datatype DocumentStatus = Pending | Queued | Processing | Completed | Failed | Deleting | Deleted

  datatype TaskStatus =
    TaskPending | TaskQueued | TaskRunning | TaskSucceeded | TaskFailed | TaskCancelled

  datatype AttemptStatus = Running | Succeeded | Errored | Cancelled

  datatype TaskType = Parse | Chunk | Embed | Finalize | DeleteCleanup

  /** The idempotency key of a task within its document and version: a unique column, so it names
      the row.  Stage tasks have cycle 0, clean-up tasks the delete cycle they were created for. */
  datatype TaskKey = TaskKey(kind: TaskType, cycle: nat)

  /** What the process that began an attempt holds in memory.  A process that dies keeps this value
      and takes no further step; one that comes back late goes on from it. */
  datatype Worker =
    | Working
    | Parsed(text: string)  // parse: the text it parsed from the original object
    | Leased                // chunk: found an open lease
    | Read(text: string)    // chunk: the text of the parse result it read then
    | Loaded(drafts: seq<string>, embedded: nat)  // embed: the drafts it read, and how many it has had vectors for
    | Wrote(count: nat)            // embed: the number of chunk rows it committed
    | Expecting(count: nat)        // finalize: the embed checkpoint it read
    | SawLive                      // clean-up: the document it read was not DELETED
    | Removed                      // clean-up: has removed the original object
    | SawDeleted                   // clean-up: the document it read was DELETED
    | Rejected                     // refused by the fence or without a lease: has to converge
    | Done

  datatype Attempt = Attempt(no: nat, status: AttemptStatus, worker: Worker)

  datatype Task = Task(
    status: TaskStatus,
    retry: nat,
    maxRetries: nat,
    total: Option<nat>,
    processed: nat,
    error: Option<nat>,
    attempts: seq<Attempt>)

  datatype ReleaseReason = ByDeletion | ByRecovery | ByFailure | ByFinalizeFailure | ByCompletion

  datatype Lease = Lease(task: TaskKey, heartbeat: int, expires: int, released: Option<ReleaseReason>)

  datatype Document = Document(
    user: nat,
    status: DocumentStatus,
    current: Option<TaskType>,
    retry: nat,
    cycle: nat,
    error: Option<nat>,
    chunkCount: nat,
    tasks: map<TaskKey, Task>,
    leases: seq<Lease>,
    parseResults: seq<string>,
    drafts: seq<string>,
    chunks: seq<string>,
    original: bool)

  /** An attempt row: the task it belongs to and its position among that task's attempts. */
  datatype AttemptId = AttemptId(key: TaskKey, index: nat)

  const MAX_RETRIES: nat := 3
  const EMBED_BATCH_SIZE: nat := 32

  const PARSE_FAILED: nat := 20001
  const EMPTY_DOCUMENT: nat := 20010
  const STORAGE_FAILED: nat := 20011
  const EMBEDDING_FAILED: nat := 20012
  const COUNT_MISMATCH: nat := 20013
  const PROCESSING_FAILED: nat := 20014
  const DELETE_UNFINISHED: nat := 20015

  function StageKey(kind: TaskType): TaskKey {
    TaskKey(kind, 0)
  }

  function CleanupKey(cycle: nat): TaskKey {
    TaskKey(DeleteCleanup, cycle)
  }

  predicate IsStage(key: TaskKey) {
    !key.kind.DeleteCleanup?
  }

  function NewTask(status: TaskStatus): Task {
    Task(status, 0, MAX_RETRIES, None, 0, None, [])
  }

  /** A freshly persisted upload: a PENDING document with its PENDING, not yet runnable parse task. */
  function NewDocument(user: nat): Document {
    Document(user, Pending, None, 0, 0, None, 0,
             map[StageKey(Parse) := NewTask(TaskPending)], [], [], [], [], true)
  }

  predicate HasAttempt(d: Document, a: AttemptId) {
    a.key in d.tasks && a.index < |d.tasks[a.key].attempts|
  }

  function AttemptOf(d: Document, a: AttemptId): Attempt
    requires HasAttempt(d, a)
  {
    d.tasks[a.key].attempts[a.index]
  }

  predicate IsOpen(lease: Lease) {
    lease.released.None?
  }

  /** The unreleased lease of a document, if there is one. */
  function FindOpen(leases: seq<Lease>): (r: Option<nat>)
    ensures r.None? ==> forall i :: 0 <= i < |leases| ==> !IsOpen(leases[i])
    ensures r.Some? ==> r.value < |leases| && IsOpen(leases[r.value])
  {
    if leases == [] then None
    else if IsOpen(leases[|leases| - 1]) then Some(|leases| - 1)
    else FindOpen(leases[..|leases| - 1])
  }

  /** Rewriting the open lease without releasing it leaves it the open one. */
  lemma {:induction false} OpenStays(leases: seq<Lease>, lease: Lease)
    requires FindOpen(leases).Some? && IsOpen(lease)
    ensures FindOpen(leases[FindOpen(leases).value := lease]) == FindOpen(leases)
  {
    var i := FindOpen(leases).value;
    if !IsOpen(leases[|leases| - 1]) {
      OpenStays(leases[..|leases| - 1], lease);
      assert leases[i := lease][..|leases| - 1] == leases[..|leases| - 1][i := lease];
    }
  }

  predicate HasOpenLease(d: Document) {
    FindOpen(d.leases).Some?
  }

  /** The running attempt of a task, if there is one. */
  function FindRunning(attempts: seq<Attempt>): (r: Option<nat>)
    ensures r.None? ==> forall i :: 0 <= i < |attempts| ==> !attempts[i].status.Running?
    ensures r.Some? ==> r.value < |attempts| && attempts[r.value].status.Running?
  {
    if attempts == [] then None
    else if attempts[|attempts| - 1].status.Running? then Some(|attempts| - 1)
    else FindRunning(attempts[..|attempts| - 1])
  }

  /** The largest attempt_no in use, 0 when there is none. */
  function MaxAttemptNo(attempts: seq<Attempt>): (m: nat)
    ensures forall i :: 0 <= i < |attempts| ==> attempts[i].no <= m
    ensures m == 0 || exists i :: 0 <= i < |attempts| && attempts[i].no == m
  {
    if attempts == [] then 0
    else
      var rest := MaxAttemptNo(attempts[..|attempts| - 1]);
      var last := attempts[|attempts| - 1].no;
      if last > rest then last else rest
  }

  /** The document is a `failed/delete_cleanup/20015` tombstone: a deletion that did not finish. */
  predicate IsTombstone(d: Document) {
    d.status.Failed? && d.current == Some(DeleteCleanup) && d.error == Some(DELETE_UNFINISHED)
  }

  predicate BeingDeleted(d: Document) {
    d.status.Deleting? || d.status.Deleted?
  }
}
