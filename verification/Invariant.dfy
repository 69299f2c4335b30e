/** What every step keeps: the invariant of one document's rows and the two-state relation every step
    obeys. */
module Invariant {
  import opened Rows
  import opened Transactions
  import opened Protocol

  // ---------------------------------------------------------------------------------------------
  // The invariant
  // ---------------------------------------------------------------------------------------------

  predicate Unstarted(task: Task) {
    task.status.TaskPending? || task.status.TaskQueued?
  }

  predicate LastRunning(task: Task) {
    |task.attempts| > 0 && task.attempts[|task.attempts| - 1].status.Running?
  }

  /** Attempts are numbered 1..n within the retry budget, only the last can be running, and it is when the
      task is; for a stage task only then. */
  ghost predicate TaskInv(key: TaskKey, task: Task) {
    && (key.kind.DeleteCleanup? <==> key.cycle > 0)
    && task.maxRetries == MAX_RETRIES
    && task.retry <= MAX_RETRIES
    && (task.status.TaskPending? ==> task.attempts == [] && (key.kind.Parse? || key.kind.DeleteCleanup?))
    && (forall i :: 0 <= i < |task.attempts| ==> task.attempts[i].no == i + 1)
    && (forall i :: 0 <= i < |task.attempts| - 1 ==> !task.attempts[i].status.Running?)
    && |task.attempts| <= task.retry + (if Unstarted(task) then 0 else 1)
    && (task.status.TaskRunning? ==> LastRunning(task))
    && (IsStage(key) && LastRunning(task) ==> task.status.TaskRunning?)
  }

  ghost predicate TasksInv(d: Document) {
    forall key :: key in d.tasks ==> TaskInv(key, d.tasks[key])
  }

  ghost predicate HasSucceeded(d: Document, kind: TaskType) {
    && StageKey(kind) in d.tasks
    && exists i :: 0 <= i < |d.tasks[StageKey(kind)].attempts| && d.tasks[StageKey(kind)].attempts[i].status.Succeeded?
  }

  /** A stage task exists only after the stage before it has succeeded; one clean-up task per cycle. */
  ghost predicate HistoryInv(d: Document) {
    && StageKey(Parse) in d.tasks
    && (StageKey(Chunk) in d.tasks ==> HasSucceeded(d, Parse))
    && (StageKey(Embed) in d.tasks ==> HasSucceeded(d, Chunk))
    && (StageKey(Finalize) in d.tasks ==> HasSucceeded(d, Embed))
    && (d.status.Completed? ==> HasSucceeded(d, Finalize))
    && (forall c: nat :: CleanupKey(c) in d.tasks <==> 1 <= c <= d.cycle)
  }

  /** At most the newest lease is open, and it belongs to a stage task. */
  ghost predicate LeaseInv(d: Document) {
    && (forall i :: 0 <= i < |d.leases| - 1 ==> !IsOpen(d.leases[i]))
    && (forall i :: 0 <= i < |d.leases| ==> d.leases[i].task in d.tasks && IsStage(d.leases[i].task))
    && (d.status.Processing? ==> HasOpenLease(d))
    && (d.status.Completed? || d.status.Deleted? ==> !HasOpenLease(d))
  }

  /** A document being deleted has an active clean-up task; a PENDING one waits for the open lease. */
  ghost predicate DeletionInv(d: Document) {
    && (d.status.Pending? ==> d == NewDocument(d.user))
    && (d.status.Deleted? ==> d.cycle > 0 && d.parseResults == [] && d.drafts == [] && d.chunks == [])
    && (d.status.Deleting? ==>
          && CleanupKey(d.cycle) in d.tasks
          && var cleanup := d.tasks[CleanupKey(d.cycle)];
          && (cleanup.status.TaskPending? || cleanup.status.TaskQueued? || cleanup.status.TaskRunning?)
          && (cleanup.status.TaskPending? <==> HasOpenLease(d))
          && forall i :: 0 <= i < |cleanup.attempts| ==> !cleanup.attempts[i].worker.SawDeleted?)
  }

  ghost predicate DocInv(d: Document) {
    TasksInv(d) && HistoryInv(d) && LeaseInv(d) && DeletionInv(d)
  }

  // ---------------------------------------------------------------------------------------------
  // The two-state relation
  // ---------------------------------------------------------------------------------------------

  /** Attempts are only added; they keep their numbers, and a stage attempt that left RUNNING never
      changes status again. */
  ghost predicate TaskEvolves(key: TaskKey, t: Task, u: Task) {
    && |t.attempts| <= |u.attempts|
    && forall i :: 0 <= i < |t.attempts| ==>
         && u.attempts[i].no == t.attempts[i].no
         && (IsStage(key) && !t.attempts[i].status.Running? ==> u.attempts[i].status == t.attempts[i].status)
  }

  ghost predicate TasksEvolve(d: Document, e: Document) {
    forall key :: key in d.tasks ==> key in e.tasks && TaskEvolves(key, d.tasks[key], e.tasks[key])
  }

  /** A released lease is never written again. */
  ghost predicate LeasesEvolve(d: Document, e: Document) {
    && |d.leases| <= |e.leases|
    && forall i :: 0 <= i < |d.leases| && !IsOpen(d.leases[i]) ==> e.leases[i] == d.leases[i]
  }

  ghost predicate Evolves(d: Document, e: Document) {
    e.user == d.user && d.cycle <= e.cycle && TasksEvolve(d, e) && LeasesEvolve(d, e)
  }

  ghost predicate Keeps(d: Document, e: Document) {
    DocInv(e) && Evolves(d, e)
  }

  /** Task `key` moves from `t` to `u` and keeps its invariant. */
  ghost predicate TaskKeeps(key: TaskKey, t: Task, u: Task) {
    TaskInv(key, u) && TaskEvolves(key, t, u)
  }

  // ---------------------------------------------------------------------------------------------
  // One task
  // ---------------------------------------------------------------------------------------------

  lemma BegunTask(key: TaskKey, t: Task)
    requires TaskInv(key, t) && t.status.TaskQueued? && FindRunning(t.attempts).None?
    ensures TaskKeeps(key, t, t.(status := TaskRunning,
                                 attempts := t.attempts + [Attempt(MaxAttemptNo(t.attempts) + 1, Running, Working)]))
  {
    assert MaxAttemptNo(t.attempts) == |t.attempts| by {
      if |t.attempts| > 0 {
        assert t.attempts[|t.attempts| - 1].no == |t.attempts|;
      }
    }
  }

  /** One attempt of a task ends. */
  lemma EndedTask(key: TaskKey, t: Task, i: nat, status: AttemptStatus, u: Task)
    requires TaskInv(key, t) && i < |t.attempts| && !status.Running?
    requires !u.status.TaskRunning? && (IsStage(key) ==> t.attempts[i].status.Running?)
    requires u.attempts == CloseAttempt(t, i, status).attempts && u.maxRetries == t.maxRetries
    requires u.retry <= MAX_RETRIES && |t.attempts| <= u.retry + (if Unstarted(u) then 0 else 1)
    requires !u.status.TaskPending?
    ensures TaskKeeps(key, t, u)
  {
  }

  /** A task changes without its attempts; a stage task neither starts nor stops running. */
  lemma IdleTask(key: TaskKey, t: Task, u: Task)
    requires TaskInv(key, t) && u.attempts == t.attempts && u.maxRetries == t.maxRetries
    requires u.status.TaskRunning? ==> t.status.TaskRunning?
    requires IsStage(key) && t.status.TaskRunning? ==> u.status.TaskRunning?
    requires u.retry <= MAX_RETRIES && |t.attempts| <= u.retry + (if Unstarted(u) then 0 else 1)
    requires u.status.TaskPending? ==> t.status.TaskPending?
    ensures TaskKeeps(key, t, u)
  {
  }

  /** The running attempt is cancelled, and its task with it. */
  lemma TakenTask(key: TaskKey, t: Task, i: nat)
    requires TaskInv(key, t) && i < |t.attempts| && t.attempts[i].status.Running?
    ensures TaskKeeps(key, t, CancelIfRunning(CloseAttempt(t, i, Cancelled)))
  {
    EndedTask(key, t, i, Cancelled, CancelIfRunning(CloseAttempt(t, i, Cancelled)));
  }

  lemma WorkerTask(key: TaskKey, t: Task, i: nat, worker: Worker)
    requires TaskInv(key, t) && i < |t.attempts|
    ensures TaskKeeps(key, t, t.(attempts := t.attempts[i := t.attempts[i].(worker := worker)]))
  {
  }

  // ---------------------------------------------------------------------------------------------
  // From one task to the document
  // ---------------------------------------------------------------------------------------------

  lemma TasksKept(d: Document, e: Document)
    requires TasksInv(d)
    requires forall k :: k in d.tasks ==>
               k in e.tasks && (e.tasks[k] == d.tasks[k] || TaskKeeps(k, d.tasks[k], e.tasks[k]))
    requires forall k :: k in e.tasks && k !in d.tasks ==> TaskInv(k, e.tasks[k])
    ensures TasksInv(e) && TasksEvolve(d, e)
  {
  }

  lemma TasksEvolveTransitive(d: Document, e: Document, f: Document)
    requires TasksEvolve(d, e) && TasksEvolve(e, f)
    ensures TasksEvolve(d, f)
  {
    forall key | key in d.tasks
      ensures key in f.tasks && TaskEvolves(key, d.tasks[key], f.tasks[key])
    {
      assert TaskEvolves(key, d.tasks[key], e.tasks[key]) && TaskEvolves(key, e.tasks[key], f.tasks[key]);
    }
  }

  lemma KeepsTransitive(d: Document, e: Document, f: Document)
    requires Keeps(d, e) && Keeps(e, f)
    ensures Keeps(d, f)
  {
    TasksEvolveTransitive(d, e, f);
  }

  lemma SucceededKept(d: Document, e: Document, kind: TaskType)
    requires TasksEvolve(d, e) && HasSucceeded(d, kind) && !kind.DeleteCleanup?
    ensures HasSucceeded(e, kind)
  {
    var key := StageKey(kind);
    assert TaskEvolves(key, d.tasks[key], e.tasks[key]);
    var i :| 0 <= i < |d.tasks[key].attempts| && d.tasks[key].attempts[i].status.Succeeded?;
    assert e.tasks[key].attempts[i].status.Succeeded?;
  }

  /** `e` leaves the leases of `d` alone, or rewrites the open one. */
  ghost predicate LeasesFrom(d: Document, e: Document) {
    || e.leases == d.leases
    || match FindOpen(d.leases)
       case None => false
       case Some(i) =>
         |e.leases| == |d.leases|
         && e.leases == d.leases[i := e.leases[i]] && e.leases[i].task in e.tasks && IsStage(e.leases[i].task)
  }

  /** What the status of `e` requires of its other columns. */
  ghost predicate StatusFits(d: Document, e: Document) {
    && !e.status.Pending?
    && (e.status.Processing? ==> HasOpenLease(e))
    && (e.status.Completed? ==> !HasOpenLease(e) && (d.status.Completed? || HasSucceeded(e, Finalize)))
    && (e.status.Deleted? ==> !HasOpenLease(e) && e.cycle > 0 && e.parseResults == [] && e.drafts == [] && e.chunks == [])
    && (e.status.Deleting? ==>
          && d.status.Deleting?
          && var key := CleanupKey(d.cycle);
          && key in d.tasks && key in e.tasks
          && var cleanup := e.tasks[key];
          && (cleanup.status.TaskPending? || cleanup.status.TaskQueued? || cleanup.status.TaskRunning?)
          && (cleanup.status.TaskPending? <==> HasOpenLease(e))
          && forall i :: 0 <= i < |cleanup.attempts| ==> !cleanup.attempts[i].worker.SawDeleted?)
  }

  lemma LeasesKept(d: Document, e: Document)
    requires LeaseInv(d) && LeasesFrom(d, e) && StatusFits(d, e) && TasksEvolve(d, e)
    ensures LeaseInv(e) && LeasesEvolve(d, e)
  {
  }

  lemma HistoryKept(d: Document, e: Document)
    requires HistoryInv(d) && TasksEvolve(d, e) && StatusFits(d, e)
    requires e.tasks.Keys == d.tasks.Keys && e.cycle == d.cycle
    ensures HistoryInv(e)
  {
    forall kind | kind in {Parse, Chunk, Embed, Finalize} && HasSucceeded(d, kind)
      ensures HasSucceeded(e, kind)
    {
      SucceededKept(d, e, kind);
    }
    assert forall key :: key in e.tasks <==> key in d.tasks;
  }

  lemma RowsKeep(d: Document, e: Document)
    requires DocInv(d) && TasksInv(e) && TasksEvolve(d, e) && e.tasks.Keys == d.tasks.Keys
    requires e.user == d.user && e.cycle == d.cycle
    requires LeasesFrom(d, e) && StatusFits(d, e)
    ensures Keeps(d, e)
  {
    LeasesKept(d, e);
    HistoryKept(d, e);
  }

  /** A transaction that rewrites one task row, at most the open lease and the document row. */
  lemma OneTaskKeeps(d: Document, e: Document, key: TaskKey)
    requires DocInv(d) && key in d.tasks && key in e.tasks
    requires e.tasks == d.tasks[key := e.tasks[key]]
    requires TaskKeeps(key, d.tasks[key], e.tasks[key])
    requires e.user == d.user && e.cycle == d.cycle
    requires LeasesFrom(d, e) && StatusFits(d, e)
    ensures Keeps(d, e)
  {
    TasksKept(d, e);
    assert e.tasks.Keys == d.tasks.Keys;
    RowsKeep(d, e);
  }

  lemma Stutter(d: Document)
    requires DocInv(d)
    ensures Keeps(d, d)
  {
  }

  /** A transaction that leaves the task rows alone. */
  lemma NoTaskKeeps(d: Document, e: Document)
    requires DocInv(d) && e.tasks == d.tasks && e.user == d.user && e.cycle == d.cycle
    requires LeasesFrom(d, e) && StatusFits(d, e)
    ensures Keeps(d, e)
  {
    Stutter(d);
    RowsKeep(d, e);
  }

  // ---------------------------------------------------------------------------------------------
  // The transactions
  // ---------------------------------------------------------------------------------------------

  lemma BeginKeeps(d: Document, key: TaskKey)
    requires DocInv(d)
    ensures Keeps(d, BeginAttempt(d, key))
  {
    if CanBegin(d, key) {
      BegunTask(key, d.tasks[key]);
      OneTaskKeeps(d, BeginAttempt(d, key), key);
    } else {
      Stutter(d);
    }
  }

  lemma AdmitKeeps(d: Document, now: int, seconds: nat, slotFree: bool)
    requires DocInv(d)
    ensures Keeps(d, AdmitParse(d, now, seconds, slotFree))
  {
  }

  lemma MarkQueuedKeeps(d: Document)
    requires DocInv(d)
    ensures Keeps(d, MarkQueued(d))
  {
    var e := MarkQueued(d);
    var parse := StageKey(Parse);
    IdleTask(parse, d.tasks[parse], e.tasks[parse]);
    OneTaskKeeps(d, e, parse);
  }

  lemma CompensateKeeps(d: Document)
    requires DocInv(d) && d.status.Pending?
    ensures Keeps(d, Compensate(d))
  {
    var e := Compensate(d);
    var parse := StageKey(Parse);
    IdleTask(parse, d.tasks[parse], e.tasks[parse]);
    OneTaskKeeps(d, e, parse);
  }

  lemma SetWorkerKeeps(d: Document, a: AttemptId, worker: Worker)
    requires DocInv(d) && HasAttempt(d, a)
    requires worker.SawDeleted? ==> !d.status.Deleting?
    ensures Keeps(d, SetWorker(d, a, worker)) && HasAttempt(SetWorker(d, a, worker), a)
  {
    var e := SetWorker(d, a, worker);
    WorkerTask(a.key, d.tasks[a.key], a.index, worker);
    OneTaskKeeps(d, e, a.key);
  }

  lemma GiveUpKeeps(d: Document, a: AttemptId, code: nat)
    requires DocInv(d) && HasAttempt(d, a) && IsStage(a.key) && AttemptOf(d, a).status.Running?
    ensures Keeps(d, GiveUp(d, a, code))
  {
    var e := GiveUp(d, a, code);
    EndedTask(a.key, d.tasks[a.key], a.index, Errored, e.tasks[a.key]);
    OneTaskKeeps(d, e, a.key);
  }

  lemma FailStageKeeps(d: Document, a: AttemptId, code: Option<nat>)
    requires DocInv(d) && HasAttempt(d, a) && IsStage(a.key)
    ensures Keeps(d, FailStage(d, a, code))
  {
    var e := FailStage(d, a, code);
    var task := d.tasks[a.key];
    if !AttemptOf(d, a).status.Running? {
      Stutter(d);
    } else if code.Some? {
      GiveUpKeeps(d, a, code.value);
    } else if task.retry < task.maxRetries {
      EndedTask(a.key, task, a.index, Errored, e.tasks[a.key]);
      OneTaskKeeps(d, e, a.key);
    } else {
      GiveUpKeeps(d, a, PROCESSING_FAILED);
    }
  }

  lemma ConvergeKeeps(d: Document, a: AttemptId)
    requires DocInv(d) && HasAttempt(d, a) && IsStage(a.key)
    ensures Keeps(d, ConvergeCancelled(d, a))
  {
    var e := ConvergeCancelled(d, a);
    if AttemptOf(d, a).status.Running? {
      TakenTask(a.key, d.tasks[a.key], a.index);
      OneTaskKeeps(d, e, a.key);
    } else {
      Stutter(d);
    }
  }

  lemma HeartbeatKeeps(d: Document, key: TaskKey, now: int, seconds: nat)
    requires DocInv(d) && key in d.tasks && IsStage(key)
    ensures var o := Heartbeat(d, key, now, seconds); o.Committed? ==> Keeps(d, o.document)
  {
    var o := Heartbeat(d, key, now, seconds);
    if o.Committed? {
      NoTaskKeeps(d, o.document);
    }
  }

  lemma WriteChunksKeeps(d: Document, a: AttemptId, chunks: seq<string>)
    requires DocInv(d) && HasAttempt(d, a) && IsStage(a.key)
    ensures var o := WriteChunks(d, a, chunks); o.Committed? ==> Keeps(d, o.document)
  {
    var o := WriteChunks(d, a, chunks);
    if o.Committed? {
      IdleTask(a.key, d.tasks[a.key], o.document.tasks[a.key]);
      OneTaskKeeps(d, o.document, a.key);
    }
  }

  lemma FinishCleanupKeeps(d: Document, a: AttemptId)
    requires DocInv(d) && HasAttempt(d, a) && !IsStage(a.key)
    ensures Keeps(d, FinishCleanup(d, a))
  {
    var e := FinishCleanup(d, a);
    EndedTask(a.key, d.tasks[a.key], a.index, Succeeded, e.tasks[a.key]);
    assert TaskInv(a.key, d.tasks[a.key]) && a.key == CleanupKey(a.key.cycle);
    OneTaskKeeps(d, e, a.key);
  }

  lemma FinishCleanupAgainKeeps(d: Document, a: AttemptId)
    requires DocInv(d) && HasAttempt(d, a) && !IsStage(a.key) && AttemptOf(d, a).worker.SawDeleted?
    ensures Keeps(d, FinishCleanupAgain(d, a))
  {
    var e := FinishCleanupAgain(d, a);
    EndedTask(a.key, d.tasks[a.key], a.index, Succeeded, e.tasks[a.key]);
    OneTaskKeeps(d, e, a.key);
  }

  lemma FailCleanupKeeps(d: Document, a: AttemptId)
    requires DocInv(d) && HasAttempt(d, a) && !IsStage(a.key)
    ensures Keeps(d, FailCleanup(d, a))
  {
    var e := FailCleanup(d, a);
    EndedTask(a.key, d.tasks[a.key], a.index, Errored, e.tasks[a.key]);
    OneTaskKeeps(d, e, a.key);
  }

  lemma FailPublicationKeeps(d: Document, a: AttemptId)
    requires DocInv(d) && HasAttempt(d, a) && a.key == StageKey(Finalize) && AttemptOf(d, a).status.Running?
    ensures Keeps(d, FailPublication(d, a))
  {
    var e := FailPublication(d, a);
    EndedTask(a.key, d.tasks[a.key], a.index, Errored, e.tasks[a.key]);
    OneTaskKeeps(d, e, a.key);
  }

  lemma PublishChunksKeeps(d: Document, a: AttemptId)
    requires DocInv(d) && HasAttempt(d, a) && a.key == StageKey(Finalize) && AttemptOf(d, a).status.Running?
    ensures Keeps(d, PublishChunks(d, a))
  {
    var e := PublishChunks(d, a);
    EndedTask(a.key, d.tasks[a.key], a.index, Succeeded, e.tasks[a.key]);
    assert e.tasks[a.key].attempts[a.index].status.Succeeded?;
    OneTaskKeeps(d, e, a.key);
  }

  lemma FinalizeKeeps(d: Document, a: AttemptId, expected: Option<nat>)
    requires DocInv(d) && HasAttempt(d, a) && a.key == StageKey(Finalize) && AttemptOf(d, a).status.Running?
    ensures Keeps(d, CompleteFinalize(d, a, expected))
  {
    FailPublicationKeeps(d, a);
    PublishChunksKeeps(d, a);
  }

  /** `e` follows from `d` by the success of a stage: the next stage has a task and owns the lease. */
  ghost predicate Advanced(d: Document, e: Document, a: AttemptId) {
    && HasAttempt(d, a) && (a.key.kind.Parse? || a.key.kind.Chunk? || a.key.kind.Embed?)
    && a.key in e.tasks
    && e.tasks[a.key].attempts == CloseAttempt(d.tasks[a.key], a.index, Succeeded).attempts
    && e.tasks[a.key].retry == d.tasks[a.key].retry && e.tasks[a.key].maxRetries == d.tasks[a.key].maxRetries
    && e.tasks[a.key].status.TaskSucceeded?
    && var next := StageKey(NextStage(a.key.kind));
    && e.tasks == (if next in d.tasks then d.tasks[a.key := e.tasks[a.key]]
                   else d.tasks[a.key := e.tasks[a.key]][next := NewTask(TaskQueued)])
    && FindOpen(d.leases).Some?
    && var i := FindOpen(d.leases).value;
    && e.leases == d.leases[i := d.leases[i].(task := next)]
    && e.user == d.user && e.cycle == d.cycle && e.status == d.status
  }

  lemma AdvanceShape(d: Document, a: AttemptId, total: Option<nat>, processed: Option<nat>)
    requires HasAttempt(d, a) && IsStage(a.key) && !a.key.kind.Finalize?
    ensures var o := Advance(d, a, total, processed); o.Committed? ==> Advanced(d, o.document, a)
  {
  }

  lemma AdvancedTasks(d: Document, e: Document, a: AttemptId)
    requires TasksInv(d) && Advanced(d, e, a) && AttemptOf(d, a).status.Running?
    ensures TasksInv(e) && TasksEvolve(d, e)
  {
    EndedTask(a.key, d.tasks[a.key], a.index, Succeeded, e.tasks[a.key]);
    TasksKept(d, e);
  }

  lemma AdvancedHistory(d: Document, e: Document, a: AttemptId)
    requires TasksInv(d) && HistoryInv(d) && Advanced(d, e, a) && TasksEvolve(d, e)
    ensures HistoryInv(e)
  {
    assert HasSucceeded(e, a.key.kind) by {
      assert a.key == StageKey(a.key.kind);
      assert e.tasks[a.key].attempts[a.index].status.Succeeded?;
    }
    forall k | k in {Parse, Chunk, Embed, Finalize} && HasSucceeded(d, k)
      ensures HasSucceeded(e, k)
    {
      SucceededKept(d, e, k);
    }
    assert a.key in d.tasks;
    assert forall key :: key in e.tasks <==> key in d.tasks || key == StageKey(NextStage(a.key.kind));
  }

  lemma AdvancedLeases(d: Document, e: Document, a: AttemptId)
    requires LeaseInv(d) && Advanced(d, e, a) && TasksEvolve(d, e) && !BeingDeleted(d)
    ensures LeaseInv(e) && LeasesEvolve(d, e)
  {
    var next := StageKey(NextStage(a.key.kind));
    assert next in e.tasks;
    assert !HasOpenLease(e) ==> forall i :: 0 <= i < |e.leases| ==> !IsOpen(e.leases[i]);
    assert IsOpen(e.leases[FindOpen(d.leases).value]);
  }

  lemma AdvanceKeeps(d: Document, a: AttemptId, total: Option<nat>, processed: Option<nat>)
    requires DocInv(d) && HasAttempt(d, a) && AttemptOf(d, a).status.Running? && !BeingDeleted(d)
    requires IsStage(a.key) && !a.key.kind.Finalize?
    ensures var o := Advance(d, a, total, processed); o.Committed? ==> Keeps(d, o.document)
  {
    var o := Advance(d, a, total, processed);
    if o.Committed? {
      AdvanceShape(d, a, total, processed);
      AdvancedTasks(d, o.document, a);
      AdvancedHistory(d, o.document, a);
      AdvancedLeases(d, o.document, a);
    }
  }

  lemma CompleteStageKeeps(d: Document, a: AttemptId, total: Option<nat>, processed: Option<nat>, expected: Option<nat>)
    requires DocInv(d) && HasAttempt(d, a) && IsStage(a.key)
    ensures var o := CompleteStage(d, a, total, processed, expected); o.Committed? ==> Keeps(d, o.document)
  {
    if AttemptOf(d, a).status.Running? && !BeingDeleted(d) {
      if a.key.kind.Finalize? {
        FinalizeKeeps(d, a, expected);
      } else {
        AdvanceKeeps(d, a, total, processed);
      }
    }
  }

  lemma CommitParseKeeps(d: Document, a: AttemptId, text: string)
    requires DocInv(d) && HasAttempt(d, a) && IsStage(a.key)
    ensures var o := CommitParse(d, a, text); o.Committed? ==> Keeps(d, o.document)
  {
    if Fence(d, a) {
      var e := d.(parseResults := d.parseResults + [text]);
      NoTaskKeeps(d, e);
      CompleteStageKeeps(e, a, Some(1), Some(1), None);
      var o := CommitParse(d, a, text);
      if o.Committed? {
        KeepsTransitive(d, e, o.document);
      }
    }
  }

  lemma CommitChunkKeeps(d: Document, a: AttemptId, pieces: seq<string>)
    requires DocInv(d) && HasAttempt(d, a) && IsStage(a.key)
    ensures var o := CommitChunk(d, a, pieces); o.Committed? ==> Keeps(d, o.document)
  {
    if Fence(d, a) {
      var e := d.(drafts := pieces);
      NoTaskKeeps(d, e);
      CompleteStageKeeps(e, a, Some(|pieces|), Some(|pieces|), None);
      var o := CommitChunk(d, a, pieces);
      if o.Committed? {
        KeepsTransitive(d, e, o.document);
      }
    }
  }

  // ---------------------------------------------------------------------------------------------
  // Deletion and recovery
  // ---------------------------------------------------------------------------------------------

  lemma CancelUnstartedKept(d: Document, e: Document)
    requires TasksInv(d) && e.tasks == CancelUnstarted(d.tasks)
    ensures TasksInv(e) && TasksEvolve(d, e) && e.tasks.Keys == d.tasks.Keys
  {
    forall k | k in d.tasks
      ensures TaskKeeps(k, d.tasks[k], e.tasks[k])
    {
      IdleTask(k, d.tasks[k], e.tasks[k]);
    }
    TasksKept(d, e);
  }

  /** What a DELETE leaves: a new cycle with its clean-up task, PENDING exactly while a lease is open. */
  ghost predicate DeleteShape(d: Document, e: Document) {
    && e.user == d.user && e.cycle == d.cycle + 1 && e.current == Some(DeleteCleanup)
    && (e.status.Deleting? || (IsTombstone(d) && e.status.Failed?))
    && e.tasks.Keys == d.tasks.Keys + {CleanupKey(e.cycle)}
    && e.tasks[CleanupKey(e.cycle)] == NewTask(if HasOpenLease(e) then TaskPending else TaskQueued)
    && (e.leases == d.leases || (!HasOpenLease(e) && e.leases == ReleaseLease(d, ByDeletion).leases))
  }

  lemma FreshCleanup(d: Document)
    requires CleanupKey(d.cycle) !in d.tasks
    ensures ActivateCleanup(d) == Committed(PutTask(d, CleanupKey(d.cycle), NewTask(TaskPending)))
    ensures QueueCleanup(d) == Committed(PutTask(d, CleanupKey(d.cycle), NewTask(TaskQueued)))
  {
    var key := CleanupKey(d.cycle);
    assert d.tasks[key := NewTask(TaskPending)][key := NewTask(TaskQueued)] == d.tasks[key := NewTask(TaskQueued)];
  }

  lemma StageDeleteIs(d: Document, open: Option<AttemptId>)
    requires IsOpenAttempt(d, open) && !BeingDeleted(d) && CleanupKey(d.cycle + 1) !in d.tasks && LeaseInv(d)
    ensures var e0 := BeforeCleanup(d, open);
            && CleanupKey(e0.cycle) !in e0.tasks
            && StageDelete(d, open) == PutTask(e0, CleanupKey(e0.cycle),
                                               NewTask(if HasOpenLease(e0) then TaskPending else TaskQueued))
  {
    var e0 := BeforeCleanup(d, open);
    FreshCleanup(e0);
  }

  lemma CancelLostKept(d: Document, a: AttemptId)
    requires TasksInv(d) && HasAttempt(d, a) && AttemptOf(d, a).status.Running?
    ensures var e := CancelLost(d, a); TasksInv(e) && TasksEvolve(d, e) && e.tasks.Keys == d.tasks.Keys
  {
    TakenTask(a.key, d.tasks[a.key], a.index);
    TasksKept(d, CancelLost(d, a));
  }

  lemma BeforeCleanupTasks(d: Document, open: Option<AttemptId>)
    requires TasksInv(d) && IsOpenAttempt(d, open)
    ensures var e0 := BeforeCleanup(d, open);
            TasksInv(e0) && TasksEvolve(d, e0) && e0.tasks.Keys == d.tasks.Keys
  {
    var d1 := MarkDeleting(d);
    CancelUnstartedKept(d, d1);
    if open.Some? && !HasOpenLease(d1) {
      CancelLostKept(d1, open.value);
      TasksEvolveTransitive(d, d1, CancelLost(d1, open.value));
    }
  }

  lemma BeforeCleanupShape(d: Document, open: Option<AttemptId>)
    requires IsOpenAttempt(d, open) && !BeingDeleted(d) && LeaseInv(d)
    ensures var e0 := BeforeCleanup(d, open);
            && e0.user == d.user && e0.cycle == d.cycle + 1 && e0.current == Some(DeleteCleanup)
            && (e0.status.Deleting? || (IsTombstone(d) && e0.status.Failed?))
            && (e0.leases == d.leases || (!HasOpenLease(e0) && e0.leases == ReleaseLease(d, ByDeletion).leases))
  {
  }

  lemma StageDeleteKeeps(d: Document, open: Option<AttemptId>)
    requires DocInv(d) && IsOpenAttempt(d, open)
    ensures Keeps(d, StageDelete(d, open))
  {
    if BeingDeleted(d) {
      Stutter(d);
    } else {
      BeforeCleanupTasks(d, open);
      BeforeCleanupShape(d, open);
      StageDeleteIs(d, open);
      CleanupAdded(d, BeforeCleanup(d, open), StageDelete(d, open));
    }
  }

  lemma CleanupAdded(d: Document, e0: Document, e: Document)
    requires DocInv(d) && TasksInv(e0) && TasksEvolve(d, e0) && e0.tasks.Keys == d.tasks.Keys
    requires e0.user == d.user && e0.cycle == d.cycle + 1 && e0.current == Some(DeleteCleanup)
    requires e0.status.Deleting? || (IsTombstone(d) && e0.status.Failed?)
    requires e0.leases == d.leases || (!HasOpenLease(e0) && e0.leases == ReleaseLease(d, ByDeletion).leases)
    requires CleanupKey(e0.cycle) !in e0.tasks
    requires e == PutTask(e0, CleanupKey(e0.cycle), NewTask(if HasOpenLease(e0) then TaskPending else TaskQueued))
    ensures Keeps(d, e)
  {
    assert DeleteShape(d, e);
    DeletedTasks(d, e0, e);
    DeletedHistory(d, e);
    DeletedLeases(d, e);
  }

  lemma DeletedTasks(d: Document, e0: Document, e: Document)
    requires TasksEvolve(d, e0) && TasksInv(e0) && CleanupKey(e.cycle) !in e0.tasks && e.cycle > 0
    requires CleanupKey(e.cycle) in e.tasks && e.tasks == e0.tasks[CleanupKey(e.cycle) := e.tasks[CleanupKey(e.cycle)]]
    requires e.tasks[CleanupKey(e.cycle)] == NewTask(TaskPending) || e.tasks[CleanupKey(e.cycle)] == NewTask(TaskQueued)
    ensures TasksInv(e) && TasksEvolve(d, e)
  {
    TasksKept(e0, e);
    TasksEvolveTransitive(d, e0, e);
  }

  lemma DeletedHistory(d: Document, e: Document)
    requires HistoryInv(d) && DeleteShape(d, e) && TasksEvolve(d, e)
    ensures HistoryInv(e)
  {
    forall k | k in {Parse, Chunk, Embed, Finalize} && HasSucceeded(d, k)
      ensures HasSucceeded(e, k)
    {
      SucceededKept(d, e, k);
    }
    assert forall key :: key in e.tasks <==> key in d.tasks || key == CleanupKey(e.cycle);
  }

  lemma DeletedLeases(d: Document, e: Document)
    requires LeaseInv(d) && DeleteShape(d, e)
    ensures LeaseInv(e) && LeasesEvolve(d, e)
  {
    assert forall key :: key in d.tasks ==> key in e.tasks;
  }

  /** The worker of a stage task is lost: whatever its status, the task can be put back in the queue
      within its budget, failed, or cancelled if it was running. */
  lemma RecoveredTask(key: TaskKey, t: Task, code: nat)
    requires TaskInv(key, t) && IsStage(key)
    ensures t.retry < t.maxRetries ==> TaskKeeps(key, t, Requeue(CancelRunningAttempt(t)))
    ensures TaskKeeps(key, t, FailTask(CancelRunningAttempt(t), code))
    ensures TaskKeeps(key, t, CancelIfRunning(CancelRunningAttempt(t)))
  {
    var c := CancelRunningAttempt(t);
    match FindRunning(t.attempts)
    case Some(i) =>
      if t.retry < t.maxRetries {
        EndedTask(key, t, i, Cancelled, Requeue(c));
      }
      EndedTask(key, t, i, Cancelled, FailTask(c, code));
      TakenTask(key, t, i);
    case None =>
      if t.retry < t.maxRetries {
        IdleTask(key, t, Requeue(c));
      }
      IdleTask(key, t, FailTask(c, code));
      IdleTask(key, t, CancelIfRunning(c));
  }

  lemma OnlyOpenLease(d: Document, index: nat)
    requires LeaseInv(d) && index < |d.leases| && IsOpen(d.leases[index])
    ensures FindOpen(d.leases) == Some(index)
  {
  }

  /** QUEUED is the only change, and only the clean-up task of the current cycle changes. */
  lemma QueuedCleanup(d: Document)
    requires TasksInv(d) && CleanupKey(d.cycle) in d.tasks
    requires Unstarted(d.tasks[CleanupKey(d.cycle)])
    ensures var o := QueueCleanup(d); var key := CleanupKey(d.cycle);
            && o == Committed(PutTask(d, key, d.tasks[key].(status := TaskQueued)))
            && TasksInv(o.document) && TasksEvolve(d, o.document) && o.document.tasks.Keys == d.tasks.Keys
  {
    var e := QueueCleanup(d).document;
    IdleTask(CleanupKey(d.cycle), d.tasks[CleanupKey(d.cycle)], e.tasks[CleanupKey(d.cycle)]);
    TasksKept(d, e);
  }

  /** A takeover of a document being deleted: a stage task was taken in `d1`, no lease is left, and the
      waiting clean-up task is queued. */
  lemma TakeoverKeeps(d: Document, d1: Document)
    requires DocInv(d) && d.status.Deleting? && Unstarted(d.tasks[CleanupKey(d.cycle)])
    requires TasksInv(d1) && TasksEvolve(d, d1) && d1.tasks.Keys == d.tasks.Keys
    requires d1.tasks[CleanupKey(d.cycle)] == d.tasks[CleanupKey(d.cycle)]
    requires d1.user == d.user && d1.cycle == d.cycle && d1.status.Deleting?
    requires LeasesFrom(d, d1) && !HasOpenLease(d1)
    ensures var o := QueueCleanup(d1); var key := CleanupKey(d.cycle);
            && o == Committed(PutTask(d1, key, d1.tasks[key].(status := TaskQueued))) && Keeps(d, o.document)
  {
    QueuedCleanup(d1);
    var e := QueueCleanup(d1).document;
    TasksEvolveTransitive(d, d1, e);
    RowsKeep(d, e);
  }

  lemma RecoverLeaseDeleting(d: Document, index: nat)
    requires DocInv(d) && index < |d.leases| && IsOpen(d.leases[index]) && d.status.Deleting?
    ensures Keeps(d, RecoverExpiredLease(d, index))
    ensures var e := RecoverExpiredLease(d, index);
            && e.status.Deleting? && e.cycle == d.cycle && !HasOpenLease(e)
            && CleanupKey(e.cycle) in e.tasks && e.tasks[CleanupKey(e.cycle)].status.TaskQueued?
  {
    OnlyOpenLease(d, index);
    var lease := d.leases[index];
    RecoveredTask(lease.task, d.tasks[lease.task], PROCESSING_FAILED);
    var d1 := PutTask(d, lease.task, CancelIfRunning(CancelRunningAttempt(d.tasks[lease.task])));
    var d2 := d1.(leases := d1.leases[index := lease.(released := Some(ByDeletion))],
                  current := Some(DeleteCleanup), retry := 0);
    TasksKept(d, d2);
    TakeoverKeeps(d, d2);
  }

  lemma RecoverLeaseKeeps(d: Document, index: nat)
    requires DocInv(d) && index < |d.leases|
    ensures Keeps(d, RecoverExpiredLease(d, index))
  {
    if !IsOpen(d.leases[index]) {
      Stutter(d);
    } else if d.status.Deleting? {
      RecoverLeaseDeleting(d, index);
    } else {
      var key := d.leases[index].task;
      OnlyOpenLease(d, index);
      RecoveredTask(key, d.tasks[key], PROCESSING_FAILED);
      OneTaskKeeps(d, RecoverExpiredLease(d, index), key);
    }
  }

  lemma RecoverRunningStage(d: Document, a: AttemptId)
    requires DocInv(d) && HasAttempt(d, a) && IsStage(a.key) && d.status.Deleting?
    requires AttemptOf(d, a).status.Running? && !HasOpenLease(d)
    ensures Keeps(d, RecoverRunningWithoutLease(d, a))
  {
    var task := d.tasks[a.key];
    var d1 := PutTask(d, a.key, CloseAttempt(task, a.index, Cancelled).(status := TaskCancelled));
    var d2 := d1.(current := Some(DeleteCleanup), retry := 0);
    TakenTask(a.key, task, a.index);
    TasksKept(d, d2);
    if Unstarted(d.tasks[CleanupKey(d.cycle)]) {
      TakeoverKeeps(d, d2);
    } else {
      Stutter(d);
    }
  }

  lemma RecoverRunningCleanup(d: Document, a: AttemptId)
    requires DocInv(d) && HasAttempt(d, a) && d.status.Deleting? && !IsStage(a.key)
    requires AttemptOf(d, a).status.Running? && d.tasks[a.key].status.TaskRunning? && !HasOpenLease(d)
    ensures Keeps(d, RecoverRunningWithoutLease(d, a))
  {
    var e := RecoverRunningWithoutLease(d, a);
    EndedTask(a.key, d.tasks[a.key], a.index, Cancelled, e.tasks[a.key]);
    OneTaskKeeps(d, e, a.key);
  }

  lemma RecoverRunningTask(d: Document, a: AttemptId)
    requires DocInv(d) && HasAttempt(d, a) && !d.status.Deleting?
    requires AttemptOf(d, a).status.Running? && d.tasks[a.key].status.TaskRunning? && !HasOpenLease(d)
    ensures Keeps(d, RecoverRunningWithoutLease(d, a))
  {
    var e := RecoverRunningWithoutLease(d, a);
    EndedTask(a.key, d.tasks[a.key], a.index, Cancelled, e.tasks[a.key]);
    OneTaskKeeps(d, e, a.key);
  }

  lemma RecoverRunningKeeps(d: Document, a: AttemptId)
    requires DocInv(d) && HasAttempt(d, a)
    ensures Keeps(d, RecoverRunningWithoutLease(d, a))
  {
    if !AttemptOf(d, a).status.Running? || !d.tasks[a.key].status.TaskRunning? || HasOpenLease(d) {
      Stutter(d);
    } else if d.status.Deleting? && IsStage(a.key) {
      RecoverRunningStage(d, a);
    } else if d.status.Deleting? {
      RecoverRunningCleanup(d, a);
    } else {
      RecoverRunningTask(d, a);
    }
  }

  // ---------------------------------------------------------------------------------------------
  // Every step
  // ---------------------------------------------------------------------------------------------

  lemma ConcludeKeeps(d: Document, a: AttemptId, outcome: Outcome, onCommit: Worker, onRefusal: Worker)
    requires DocInv(d) && HasAttempt(d, a)
    requires outcome.Committed? ==> Keeps(d, outcome.document) && HasAttempt(outcome.document, a)
    requires !onCommit.SawDeleted? && !onRefusal.SawDeleted?
    ensures Keeps(d, Conclude(d, a, outcome, onCommit, onRefusal))
  {
    match outcome
    case Committed(after) =>
      SetWorkerKeeps(after, a, onCommit);
      KeepsTransitive(d, after, SetWorker(after, a, onCommit));
    case Replayed => SetWorkerKeeps(d, a, Done);
    case Refused => SetWorkerKeeps(d, a, onRefusal);
  }

  lemma EndWorkerKeeps(d: Document, e: Document, a: AttemptId)
    requires Keeps(d, e) && HasAttempt(e, a)
    ensures Keeps(d, SetWorker(e, a, Done))
  {
    SetWorkerKeeps(e, a, Done);
    KeepsTransitive(d, e, SetWorker(e, a, Done));
  }

  lemma StageWorkerKeeps(d: Document, a: AttemptId, step: DocStep, now: int, seconds: nat)
    requires DocInv(d) && StepAttempt(step) == Some(a) && Enabled(d, step) && IsStage(a.key)
    ensures Keeps(d, WorkerStep(d, a, step, now, seconds))
  {
    var worker := AttemptOf(d, a).worker;
    match step
    case SaveParse(_) =>
      CommitParseKeeps(d, a, worker.text);
      ConcludeKeeps(d, a, CommitParse(d, a, worker.text), Done, Rejected);
    case ReadOriginal(_, text) =>
      Stutter(d);
      SetWorkerKeeps(d, a, Parsed(text));
    case CheckLease(_) =>
      SetWorkerKeeps(d, a, if HasOpenLease(d) then Leased else Rejected);
    case ReadText(_) =>
      Stutter(d);
      if d.parseResults != [] {
        SetWorkerKeeps(d, a, Read(LastText(d)));
      }
    case SaveDrafts(_) =>
      CommitChunkKeeps(d, a, Pieces(worker.text));
      ConcludeKeeps(d, a, CommitChunk(d, a, Pieces(worker.text)), Done, Rejected);
    case LoadDrafts(_) =>
      Stutter(d);
      SetWorkerKeeps(d, a, Loaded(d.drafts, 0));
    case Renew(_) =>
      HeartbeatKeeps(d, a.key, now, seconds);
      ConcludeKeeps(d, a, Heartbeat(d, a.key, now, seconds), NextBatch(worker), Rejected);
    case SaveChunks(_) =>
      WriteChunksKeeps(d, a, worker.drafts);
      ConcludeKeeps(d, a, WriteChunks(d, a, worker.drafts), Wrote(|worker.drafts|), Rejected);
    case FinishEmbed(_) =>
      CompleteStageKeeps(d, a, Some(worker.count), Some(worker.count), None);
      ConcludeKeeps(d, a, CompleteStage(d, a, Some(worker.count), Some(worker.count), None), Done, Done);
    case ReadCheckpoint(_) => SetWorkerKeeps(d, a, Expecting(EmbedCheckpoint(d)));
    case Publish(_) =>
      CompleteStageKeeps(d, a, None, None, Some(worker.count));
      ConcludeKeeps(d, a, CompleteStage(d, a, None, None, Some(worker.count)), Done, Rejected);
    case Fail(_, code) =>
      FailStageKeeps(d, a, code);
      EndWorkerKeeps(d, FailStage(d, a, code), a);
    case Converge(_) =>
      ConvergeKeeps(d, a);
      EndWorkerKeeps(d, ConvergeCancelled(d, a), a);
  }

  lemma CleanupWorkerKeeps(d: Document, a: AttemptId, step: DocStep, now: int, seconds: nat)
    requires DocInv(d) && StepAttempt(step) == Some(a) && Enabled(d, step) && !IsStage(a.key)
    ensures Keeps(d, WorkerStep(d, a, step, now, seconds))
  {
    var worker := AttemptOf(d, a).worker;
    match step
    case LookUp(_) => SetWorkerKeeps(d, a, if d.status.Deleted? then SawDeleted else SawLive);
    case RemoveOriginal(_) =>
      NoTaskKeeps(d, d.(original := false));
      SetWorkerKeeps(d.(original := false), a, Removed);
      KeepsTransitive(d, d.(original := false), WorkerStep(d, a, step, now, seconds));
    case FinishDelete(_) =>
      if worker.SawDeleted? {
        FinishCleanupAgainKeeps(d, a);
        EndWorkerKeeps(d, FinishCleanupAgain(d, a), a);
      } else {
        FinishCleanupKeeps(d, a);
        EndWorkerKeeps(d, FinishCleanup(d, a), a);
      }
    case FailDelete(_) =>
      FailCleanupKeeps(d, a);
      EndWorkerKeeps(d, FailCleanup(d, a), a);
  }

  /** Every step of every process keeps the invariant of the document's rows and obeys the two-state
      relation. */
  lemma StepKeeps(d: Document, step: DocStep, now: int, seconds: nat, slotFree: bool)
    requires DocInv(d)
    ensures Keeps(d, DocNext(d, step, now, seconds, slotFree))
  {
    if !Enabled(d, step) {
      Stutter(d);
    } else {
      match StepAttempt(step)
      case Some(a) =>
        if IsStage(a.key) {
          StageWorkerKeeps(d, a, step, now, seconds);
        } else {
          CleanupWorkerKeeps(d, a, step, now, seconds);
        }
      case None =>
        match step
        case Coordinate => MarkQueuedKeeps(d);
        case CompensateUpload => CompensateKeeps(d);
        case Admit => AdmitKeeps(d, now, seconds, slotFree);
        case Begin(key) => BeginKeeps(d, key);
        case Delete(open) => StageDeleteKeeps(d, open);
        case TakeOverLease(index) => RecoverLeaseKeeps(d, index);
        case TakeOverAttempt(a) => RecoverRunningKeeps(d, a);
        case _ => Stutter(d);
    }
  }

  lemma NewDocumentInv(user: nat)
    ensures DocInv(NewDocument(user))
  {
    var d := NewDocument(user);
    assert forall key :: key in d.tasks <==> key == StageKey(Parse);
  }
}
