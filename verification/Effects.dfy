/** What the transactions do to the columns, row by row: for each the exact cases, the literal values that are
    written, and the rows that stay. */
module Effects {
  import opened Rows
  import opened Transactions
  import opened Protocol
  import opened Invariant

  // ---------------------------------------------------------------------------------------------
  // What stays, and the row updates
  // ---------------------------------------------------------------------------------------------

  /** Every task but this one is as it was. */
  ghost predicate OnlyTask(d: Document, e: Document, key: TaskKey) {
    forall other: TaskKey :: other != key ==>
      && (other in e.tasks <==> other in d.tasks)
      && (other in d.tasks ==> e.tasks[other] == d.tasks[other])
  }

  predicate DataKept(d: Document, e: Document) {
    && e.parseResults == d.parseResults && e.drafts == d.drafts && e.chunks == d.chunks && e.chunkCount == d.chunkCount
    && e.original == d.original && e.cycle == d.cycle && e.user == d.user
  }

  /** The unreleased lease gets its release reason; released ones stay. */
  predicate LeaseReleased(d: Document, e: Document, reason: ReleaseReason) {
    && |e.leases| == |d.leases|
    && forall i :: 0 <= i < |d.leases| ==>
         e.leases[i] == if d.leases[i].released.None? then d.leases[i].(released := Some(reason)) else d.leases[i]
  }

  /** One attempt gets its final status; the others stay. */
  predicate AttemptEnds(t: Task, u: Task, i: nat, status: AttemptStatus) {
    && |u.attempts| == |t.attempts| && i < |t.attempts|
    && u.attempts[i].no == t.attempts[i].no && u.attempts[i].status == status
    && forall j :: 0 <= j < |t.attempts| && j != i ==> u.attempts[j] == t.attempts[j]
  }

  lemma ReleasedAll(d: Document, reason: ReleaseReason)
    requires LeaseInv(d)
    ensures LeaseReleased(d, ReleaseLease(d, reason), reason)
  {
  }

  // ---------------------------------------------------------------------------------------------
  // DELETE
  // ---------------------------------------------------------------------------------------------

  /** DELETE cancels every stage task that has not started, so that none can begin. */
  lemma DeleteCancelsUnstarted(d: Document, open: Option<AttemptId>)
    requires DocInv(d) && !BeingDeleted(d) && IsOpenAttempt(d, open)
    ensures var e := StageDelete(d, open);
            && (forall key :: key in d.tasks && key.kind != DeleteCleanup
                              && (d.tasks[key].status == TaskPending || d.tasks[key].status == TaskQueued) ==>
                  key in e.tasks && e.tasks[key] == d.tasks[key].(status := TaskCancelled))
            && (forall key: TaskKey :: key.kind != DeleteCleanup ==> !CanBegin(e, key))
  {
    StageDeleteIs(d, open);
    BeforeCleanupStages(d, open);
  }

  predicate HasNotStarted(t: Task) {
    t.status == TaskPending || t.status == TaskQueued
  }

  /** The tasks after the switch to DELETING. */
  ghost predicate Marked(d: Document, m: Document) {
    && m.tasks.Keys == d.tasks.Keys
    && forall key :: key in d.tasks ==>
         key in m.tasks
         && m.tasks[key] == if key.kind != DeleteCleanup && HasNotStarted(d.tasks[key])
                            then d.tasks[key].(status := TaskCancelled) else d.tasks[key]
  }

  /** Then only the task of a lost attempt changes, and it is not queued. */
  ghost predicate LostOnly(m: Document, e: Document, open: Option<AttemptId>) {
    && e.tasks.Keys == m.tasks.Keys
    && forall key :: key in m.tasks ==>
         key in e.tasks
         && (e.tasks[key] == m.tasks[key]
             || (open.Some? && open.value.key == key && !HasOpenLease(m)
                 && (m.tasks[key].status != TaskQueued ==> e.tasks[key].status != TaskQueued)))
  }

  lemma MarkedTasks(d: Document)
    ensures Marked(d, MarkDeleting(d)) && MarkDeleting(d).leases == d.leases
  {
  }

  lemma LostTask(d: Document, open: Option<AttemptId>)
    requires IsOpenAttempt(d, open)
    ensures LostOnly(MarkDeleting(d), BeforeCleanup(d, open), open)
  {
  }

  /** The stage tasks after both steps, for a running attempt whose task has started. */
  lemma StagesFrom(d: Document, m: Document, e: Document, open: Option<AttemptId>)
    requires Marked(d, m) && LostOnly(m, e, open)
    requires open.Some? ==> open.value.key in d.tasks && (IsStage(open.value.key) ==> !HasNotStarted(d.tasks[open.value.key]))
    ensures forall key :: key in d.tasks && key.kind != DeleteCleanup
                          && (d.tasks[key].status == TaskPending || d.tasks[key].status == TaskQueued) ==>
              key in e.tasks && e.tasks[key] == d.tasks[key].(status := TaskCancelled)
    ensures forall key: TaskKey :: key.kind != DeleteCleanup && key in e.tasks ==> e.tasks[key].status != TaskQueued
  {
    assert forall key :: key in e.tasks <==> key in d.tasks;
  }

  lemma BeforeCleanupStages(d: Document, open: Option<AttemptId>)
    requires DocInv(d) && IsOpenAttempt(d, open)
    ensures var e := BeforeCleanup(d, open);
            && (forall key :: key in d.tasks && key.kind != DeleteCleanup
                              && (d.tasks[key].status == TaskPending || d.tasks[key].status == TaskQueued) ==>
                  key in e.tasks && e.tasks[key] == d.tasks[key].(status := TaskCancelled))
            && (forall key: TaskKey :: key.kind != DeleteCleanup && key in e.tasks ==> e.tasks[key].status != TaskQueued)
  {
    MarkedTasks(d);
    LostTask(d, open);
    if open.Some? {
      RunningHasStarted(d, open.value);
    }
    StagesFrom(d, MarkDeleting(d), BeforeCleanup(d, open), open);
  }

  lemma RunningHasStarted(d: Document, a: AttemptId)
    requires TasksInv(d) && HasAttempt(d, a) && AttemptOf(d, a).status.Running?
    ensures IsStage(a.key) ==> !HasNotStarted(d.tasks[a.key])
  {
    assert TaskInv(a.key, d.tasks[a.key]);
  }

  /** The columns of the document; the lease is given back at once if no attempt runs. */
  lemma DeleteColumns(d: Document, open: Option<AttemptId>)
    requires DocInv(d) && !BeingDeleted(d) && IsOpenAttempt(d, open)
    ensures var e := StageDelete(d, open);
            var tombstone := d.status == Failed && d.current == Some(DeleteCleanup) && d.error == Some(20015);
            && e.status == (if tombstone then Failed else Deleting)
            && e.cycle == d.cycle + 1 && e.current == Some(DeleteCleanup) && e.retry == 0 && e.error == None
            && DataKept(d, e.(cycle := d.cycle))
            && (if open == None then LeaseReleased(d, e, ByDeletion) else e.leases == d.leases)
  {
    StageDeleteIs(d, open);
    ReleasedAll(d, ByDeletion);
  }

  /** Every task that has started, and every clean-up task, is as it was, apart from that of a lost attempt. */
  ghost predicate StartedKept(d: Document, e: Document, open: Option<AttemptId>) {
    forall key :: key in d.tasks && (key.kind == DeleteCleanup || !HasNotStarted(d.tasks[key]))
                  && !(open.Some? && open.value.key == key && !HasOpenLease(d)) ==>
      key in e.tasks && e.tasks[key] == d.tasks[key]
  }

  lemma StartedFrom(d: Document, m: Document, e: Document, open: Option<AttemptId>)
    requires Marked(d, m) && LostOnly(m, e, open) && m.leases == d.leases
    ensures e.tasks.Keys == d.tasks.Keys && StartedKept(d, e, open)
  {
  }

  lemma BeforeCleanupStarted(d: Document, open: Option<AttemptId>)
    requires IsOpenAttempt(d, open)
    ensures BeforeCleanup(d, open).tasks.Keys == d.tasks.Keys && StartedKept(d, BeforeCleanup(d, open), open)
  {
    MarkedTasks(d);
    LostTask(d, open);
    StartedFrom(d, MarkDeleting(d), BeforeCleanup(d, open), open);
  }

  lemma DeleteAdds(d: Document, open: Option<AttemptId>)
    requires DocInv(d) && !BeingDeleted(d) && IsOpenAttempt(d, open)
    ensures var key, e0, e := CleanupKey(d.cycle + 1), BeforeCleanup(d, open), StageDelete(d, open);
            key !in e0.tasks && key in e.tasks && e.tasks == e0.tasks[key := e.tasks[key]]
  {
    StageDeleteIs(d, open);
  }

  lemma OneMoreTask(d: Document, e: Document, f: Document, key: TaskKey, open: Option<AttemptId>)
    requires e.tasks.Keys == d.tasks.Keys && StartedKept(d, e, open)
    requires key !in e.tasks && key in f.tasks && f.tasks == e.tasks[key := f.tasks[key]]
    ensures f.tasks.Keys == d.tasks.Keys + {key} && StartedKept(d, f, open)
  {
  }

  /** DELETE keeps all of those, and one clean-up task is added. */
  lemma DeleteKeepsStarted(d: Document, open: Option<AttemptId>)
    requires DocInv(d) && !BeingDeleted(d) && IsOpenAttempt(d, open)
    ensures var e := StageDelete(d, open);
            StartedKept(d, e, open) && e.tasks.Keys == d.tasks.Keys + {TaskKey(DeleteCleanup, d.cycle + 1)}
  {
    BeforeCleanupStarted(d, open);
    DeleteAdds(d, open);
    OneMoreTask(d, BeforeCleanup(d, open), StageDelete(d, open), CleanupKey(d.cycle + 1), open);
  }

  /** The clean-up task of the new cycle is fresh: PENDING if a running attempt holds a lease, otherwise QUEUED. */
  lemma DeleteCleanupRow(d: Document, open: Option<AttemptId>)
    requires DocInv(d) && !BeingDeleted(d) && IsOpenAttempt(d, open)
    ensures var e := StageDelete(d, open);
            var key := TaskKey(DeleteCleanup, d.cycle + 1);
            var waits := open.Some? && exists i :: 0 <= i < |d.leases| && d.leases[i].released == None;
            key in e.tasks && e.tasks[key] == Task(if waits then TaskPending else TaskQueued, 0, 3, None, 0, None, [])
  {
    StageDeleteIs(d, open);
    LeaseAfterMark(d, open);
  }

  lemma LeaseAfterMark(d: Document, open: Option<AttemptId>)
    requires LeaseInv(d) && IsOpenAttempt(d, open)
    ensures HasOpenLease(BeforeCleanup(d, open)) <==>
            open.Some? && exists i :: 0 <= i < |d.leases| && d.leases[i].released == None
  {
    if HasOpenLease(d) {
      assert d.leases[FindOpen(d.leases).value].released == None;
    }
  }

  /** Activating or queueing the clean-up of the current cycle is a conflict when it runs or has succeeded; otherwise it is
      created, or found as it is. */
  lemma ActivationRows(d: Document)
    ensures var key := TaskKey(DeleteCleanup, d.cycle);
            var conflict := key in d.tasks && (d.tasks[key].status == TaskRunning || d.tasks[key].status == TaskSucceeded);
            var task := if key in d.tasks then d.tasks[key] else Task(TaskPending, 0, 3, None, 0, None, []);
            && ActivateCleanup(d) == (if conflict then Refused else Committed(d.(tasks := d.tasks[key := task])))
            && QueueCleanup(d)
               == (if conflict then Refused else Committed(d.(tasks := d.tasks[key := task.(status := TaskQueued)])))
  {
    var key := CleanupKey(d.cycle);
    if key in d.tasks {
      assert d.tasks[key := d.tasks[key]] == d.tasks;
    } else {
      assert d.tasks[key := NewTask(TaskPending)][key := NewTask(TaskQueued)] == d.tasks[key := NewTask(TaskQueued)];
    }
  }

  /** A running attempt without a lease is lost: it is cancelled, and its task if that was running. */
  lemma DeleteCancelsLost(d: Document, a: AttemptId)
    requires DocInv(d) && !BeingDeleted(d) && HasAttempt(d, a) && AttemptOf(d, a).status.Running? && !HasOpenLease(d)
    ensures var e := StageDelete(d, Some(a));
            && a.key in e.tasks && AttemptEnds(d.tasks[a.key], e.tasks[a.key], a.index, AttemptStatus.Cancelled)
            && (d.tasks[a.key].status == TaskRunning ==> e.tasks[a.key].status == TaskCancelled)
  {
    StageDeleteIs(d, Some(a));
    LostIsCancelled(d, a);
  }

  lemma LostIsCancelled(d: Document, a: AttemptId)
    requires HasAttempt(d, a) && AttemptOf(d, a).status.Running? && !HasOpenLease(d)
    ensures var e := BeforeCleanup(d, Some(a));
            && a.key in e.tasks && AttemptEnds(d.tasks[a.key], e.tasks[a.key], a.index, AttemptStatus.Cancelled)
            && (d.tasks[a.key].status == TaskRunning ==> e.tasks[a.key].status == TaskCancelled)
  {
  }

  // ---------------------------------------------------------------------------------------------
  // Uploads and admissions
  // ---------------------------------------------------------------------------------------------

  /** Coordination queues a PENDING document and a PENDING parse task and touches nothing else. */
  lemma CoordinationRows(d: Document)
    ensures var e := MarkQueued(d);
            && e.status == (if d.status == DocumentStatus.Pending then DocumentStatus.Queued else d.status)
            && e.current == (if d.status == DocumentStatus.Pending then Some(Parse) else d.current)
            && e.leases == d.leases && e.error == d.error && e.retry == d.retry
            && DataKept(d, e) && OnlyTask(d, e, TaskKey(Parse, 0))
            && (TaskKey(Parse, 0) in d.tasks ==>
                  && TaskKey(Parse, 0) in e.tasks
                  && var t := d.tasks[TaskKey(Parse, 0)];
                  e.tasks[TaskKey(Parse, 0)] == if t.status == TaskPending then t.(status := TaskQueued) else t)
  {
  }

  lemma CompensationRows(d: Document)
    ensures var e := Compensate(d);
            && e.status == Failed && e.current == Some(Parse) && e.error == Some(20011)
            && e.leases == d.leases && e.retry == d.retry && DataKept(d, e) && OnlyTask(d, e, TaskKey(Parse, 0))
            && (TaskKey(Parse, 0) in d.tasks ==>
                  && TaskKey(Parse, 0) in e.tasks
                  && e.tasks[TaskKey(Parse, 0)] == d.tasks[TaskKey(Parse, 0)].(status := TaskFailed, error := Some(20011)))
  {
  }

  /** A document is admitted exactly when it is QUEUED or PROCESSING, holds no lease, and its user has a slot. */
  lemma AdmissionRows(d: Document, now: int, seconds: nat, slotFree: bool)
    requires DocInv(d)
    ensures var e := AdmitParse(d, now, seconds, slotFree);
            && (e != d <==> (d.status == DocumentStatus.Queued || d.status == Processing) && slotFree
                            && forall i :: 0 <= i < |d.leases| ==> d.leases[i].released.Some?)
            && (e != d ==> e == d.(status := Processing,
                                   leases := d.leases + [Lease(TaskKey(Parse, 0), now, now + seconds, None)]))
  {
    if HasOpenLease(d) {
      assert d.leases[FindOpen(d.leases).value].released.None?;
    }
  }

  /** An attempt begins exactly when its task is QUEUED, within its retries, and none of its attempts runs. */
  lemma BeginRows(d: Document, key: TaskKey)
    requires DocInv(d) && key in d.tasks
    ensures var e := BeginAttempt(d, key);
            var t := d.tasks[key];
            && (e != d <==> t.status == TaskQueued && t.retry <= 3
                            && forall i :: 0 <= i < |t.attempts| ==> t.attempts[i].status != Running)
            && (e != d ==>
                  && OnlyTask(d, e, key) && DataKept(d, e) && e.leases == d.leases
                  && e.status == d.status && e.current == d.current && e.error == d.error && e.retry == d.retry
                  && key in e.tasks
                  && e.tasks[key] == t.(status := TaskRunning,
                                        attempts := t.attempts + [Attempt(|t.attempts| + 1, Running, Working)]))
  {
    assert TaskInv(key, d.tasks[key]);
    BegunNumber(key, d.tasks[key]);
    if FindRunning(d.tasks[key].attempts).Some? {
      assert d.tasks[key].attempts[FindRunning(d.tasks[key].attempts).value].status == Running;
    }
  }

  lemma BegunNumber(key: TaskKey, t: Task)
    requires TaskInv(key, t)
    ensures MaxAttemptNo(t.attempts) == |t.attempts|
  {
    if |t.attempts| > 0 {
      assert t.attempts[|t.attempts| - 1].no == |t.attempts|;
    }
  }

  // ---------------------------------------------------------------------------------------------
  // Stages
  // ---------------------------------------------------------------------------------------------

  /** Task `key` of `e` is that of `d` with this status, retry count, error and end of attempt `i`. */
  predicate TaskEnds(d: Document, e: Document, key: TaskKey, i: nat, attempt: AttemptStatus, status: TaskStatus, retry: nat,
                     error: Option<nat>)
    requires key in d.tasks
  {
    && key in e.tasks && AttemptEnds(d.tasks[key], e.tasks[key], i, attempt)
    && e.tasks[key].status == status && e.tasks[key].retry == retry && e.tasks[key].error == error
    && e.tasks[key].maxRetries == d.tasks[key].maxRetries
  }

  /** A final failure: 20014 unless a code is given, which is what attempt, task and document record; the lease is given
      back as failed. */
  lemma FinalFailureRows(d: Document, a: AttemptId, code: Option<nat>)
    requires DocInv(d) && HasAttempt(d, a) && AttemptOf(d, a).status == Running && IsStage(a.key)
    requires code.Some? || d.tasks[a.key].retry == 3
    ensures var e := FailStage(d, a, code);
            var error := if code.Some? then code else Some(20014);
            && e.status == Failed && e.error == error && e.retry == d.tasks[a.key].retry && e.current == d.current
            && TaskEnds(d, e, a.key, a.index, Errored, TaskFailed, d.tasks[a.key].retry, error)
            && LeaseReleased(d, e, ByFailure) && OnlyTask(d, e, a.key) && DataKept(d, e)
  {
    assert TaskInv(a.key, d.tasks[a.key]);
    GivenUpRows(d, a, if code.Some? then code.value else 20014);
    assert FailStage(d, a, code) == GiveUp(d, a, if code.Some? then code.value else 20014);
  }

  lemma GivenUpRows(d: Document, a: AttemptId, code: nat)
    requires LeaseInv(d) && HasAttempt(d, a)
    ensures var e := GiveUp(d, a, code);
            && e.status == Failed && e.error == Some(code) && e.retry == d.tasks[a.key].retry && e.current == d.current
            && TaskEnds(d, e, a.key, a.index, Errored, TaskFailed, d.tasks[a.key].retry, Some(code))
            && LeaseReleased(d, e, ByFailure) && OnlyTask(d, e, a.key) && DataKept(d, e)
  {
    ReleasedAll(d, ByFailure);
  }

  /** Any other failure within the retries: the task is QUEUED with one more, and the document keeps its status. */
  lemma RetriedFailureRows(d: Document, a: AttemptId)
    requires DocInv(d) && HasAttempt(d, a) && AttemptOf(d, a).status == Running && IsStage(a.key) && d.tasks[a.key].retry < 3
    ensures var e := FailStage(d, a, None);
            && e.status == d.status && e.error == None && e.retry == d.tasks[a.key].retry + 1 && e.current == d.current
            && TaskEnds(d, e, a.key, a.index, Errored, TaskQueued, d.tasks[a.key].retry + 1, None)
            && e.leases == d.leases && OnlyTask(d, e, a.key) && DataKept(d, e)
  {
    assert TaskInv(a.key, d.tasks[a.key]);
  }

  lemma EndedFailureRows(d: Document, a: AttemptId, code: Option<nat>)
    requires HasAttempt(d, a) && AttemptOf(d, a).status != Running
    ensures FailStage(d, a, code) == d && ConvergeCancelled(d, a) == d
  {
  }

  lemma ConvergedRows(d: Document, a: AttemptId)
    requires DocInv(d) && HasAttempt(d, a) && AttemptOf(d, a).status == Running && IsStage(a.key)
    ensures var e := ConvergeCancelled(d, a);
            && TaskEnds(d, e, a.key, a.index, AttemptStatus.Cancelled, TaskCancelled, d.tasks[a.key].retry, d.tasks[a.key].error)
            && OnlyTask(d, e, a.key) && e == d.(tasks := e.tasks)
  {
    assert TaskInv(a.key, d.tasks[a.key]);
  }

  /** The task of a stage that can still be entered: not there yet, PENDING or QUEUED. */
  predicate CanEnter(d: Document, key: TaskKey) {
    key in d.tasks ==> d.tasks[key].status == TaskPending || d.tasks[key].status == TaskQueued
  }

  /** What follows parse, chunk and embed. */
  predicate Follows(kind: TaskType, next: TaskType) {
    (kind == Parse && next == Chunk) || (kind == Chunk && next == Embed) || (kind == Embed && next == Finalize)
  }

  lemma AdvancedExactly(d: Document, a: AttemptId, total: nat, processed: nat, next: TaskType)
    requires DocInv(d) && HasAttempt(d, a) && IsStage(a.key) && Follows(a.key.kind, next)
    ensures var o := CompleteStage(d, a, Some(total), Some(processed), None);
            && (o.Replayed? <==> AttemptOf(d, a).status != Running)
            && (o.Committed? <==> AttemptOf(d, a).status == Running && d.status != Deleting && d.status != Deleted
                                  && HasOpenLease(d) && CanEnter(d, TaskKey(next, 0)))
  {
    assert TaskInv(a.key, d.tasks[a.key]);
  }

  lemma AdvancedColumns(d: Document, a: AttemptId, total: nat, processed: nat, next: TaskType)
    requires HasAttempt(d, a) && IsStage(a.key) && Follows(a.key.kind, next)
    requires CompleteStage(d, a, Some(total), Some(processed), None).Committed?
    ensures var e := CompleteStage(d, a, Some(total), Some(processed), None).document;
            e.status == d.status && e.current == Some(next) && e.retry == 0 && e.error == d.error && DataKept(d, e)
  {
  }

  lemma AdvancedStage(d: Document, a: AttemptId, total: nat, processed: nat, next: TaskType)
    requires HasAttempt(d, a) && IsStage(a.key) && Follows(a.key.kind, next)
    requires CompleteStage(d, a, Some(total), Some(processed), None).Committed?
    ensures var e := CompleteStage(d, a, Some(total), Some(processed), None).document;
            && TaskEnds(d, e, a.key, a.index, Succeeded, TaskSucceeded, d.tasks[a.key].retry, d.tasks[a.key].error)
            && e.tasks[a.key].total == Some(total) && e.tasks[a.key].processed == processed
  {
  }

  /** The stage has SUCCEEDED with its counts, the next task is there, QUEUED if it is new, and the lease names it. */
  lemma AdvancedRows(d: Document, a: AttemptId, total: nat, processed: nat, next: TaskType)
    requires DocInv(d) && HasAttempt(d, a) && IsStage(a.key) && Follows(a.key.kind, next)
    requires CompleteStage(d, a, Some(total), Some(processed), None).Committed?
    ensures var e := CompleteStage(d, a, Some(total), Some(processed), None).document;
            && e.status == d.status && e.current == Some(next) && e.retry == 0 && e.error == d.error && DataKept(d, e)
            && TaskEnds(d, e, a.key, a.index, Succeeded, TaskSucceeded, d.tasks[a.key].retry, d.tasks[a.key].error)
            && e.tasks[a.key].total == Some(total) && e.tasks[a.key].processed == processed
  {
    AdvancedColumns(d, a, total, processed, next);
    AdvancedStage(d, a, total, processed, next);
  }

  lemma AdvancedTask(d: Document, a: AttemptId, total: nat, processed: nat, next: TaskType)
    requires DocInv(d) && HasAttempt(d, a) && IsStage(a.key) && Follows(a.key.kind, next)
    requires CompleteStage(d, a, Some(total), Some(processed), None).Committed?
    ensures var e := CompleteStage(d, a, Some(total), Some(processed), None).document;
            var key := TaskKey(next, 0);
            && key in e.tasks
            && e.tasks[key] == (if key in d.tasks then d.tasks[key] else Task(TaskQueued, 0, 3, None, 0, None, []))
  {
  }

  lemma AdvancedOthers(d: Document, a: AttemptId, total: nat, processed: nat, next: TaskType, other: TaskKey)
    requires DocInv(d) && HasAttempt(d, a) && IsStage(a.key) && Follows(a.key.kind, next)
    requires CompleteStage(d, a, Some(total), Some(processed), None).Committed?
    requires other != a.key && other != TaskKey(next, 0)
    ensures var e := CompleteStage(d, a, Some(total), Some(processed), None).document;
            (other in e.tasks <==> other in d.tasks) && (other in d.tasks ==> e.tasks[other] == d.tasks[other])
  {
  }

  lemma AdvancedLease(d: Document, a: AttemptId, total: nat, processed: nat, next: TaskType)
    requires DocInv(d) && HasAttempt(d, a) && IsStage(a.key) && Follows(a.key.kind, next)
    requires CompleteStage(d, a, Some(total), Some(processed), None).Committed?
    ensures var e := CompleteStage(d, a, Some(total), Some(processed), None).document;
            && |e.leases| == |d.leases|
            && forall i :: 0 <= i < |d.leases| ==>
                 e.leases[i] == if d.leases[i].released.None? then d.leases[i].(task := TaskKey(next, 0)) else d.leases[i]
  {
  }

  /** Finalize publishes exactly when there are as many chunk rows as expected; otherwise it fails. */
  lemma FinalizedExactly(d: Document, a: AttemptId, expected: nat)
    requires DocInv(d) && HasAttempt(d, a) && a.key.kind == Finalize
    ensures var o := CompleteStage(d, a, None, None, Some(expected));
            && (o.Replayed? <==> AttemptOf(d, a).status != Running)
            && (o.Refused? <==> AttemptOf(d, a).status == Running && (d.status == Deleting || d.status == Deleted))
            && (o.Committed? ==> o.document == if |d.chunks| == expected then PublishChunks(d, a) else FailPublication(d, a))
  {
    assert TaskInv(a.key, d.tasks[a.key]);
  }

  lemma PublicationRows(d: Document, a: AttemptId)
    requires LeaseInv(d) && HasAttempt(d, a)
    ensures var e := PublishChunks(d, a);
            && e.status == DocumentStatus.Completed && e.chunkCount == |d.chunks| && e.current == None && e.retry == 0
            && e.error == d.error && DataKept(d, e.(chunkCount := d.chunkCount))
            && TaskEnds(d, e, a.key, a.index, Succeeded, TaskSucceeded, d.tasks[a.key].retry, d.tasks[a.key].error)
            && e.tasks[a.key].total == Some(|d.chunks|) && e.tasks[a.key].processed == |d.chunks|
            && LeaseReleased(d, e, ByCompletion) && OnlyTask(d, e, a.key)
  {
    ReleasedAll(d, ByCompletion);
  }

  lemma FailedPublicationRows(d: Document, a: AttemptId)
    requires LeaseInv(d) && HasAttempt(d, a)
    ensures var e := FailPublication(d, a);
            && e.status == Failed && e.error == Some(20013) && e.retry == d.tasks[a.key].retry && e.current == d.current
            && TaskEnds(d, e, a.key, a.index, Errored, TaskFailed, d.tasks[a.key].retry, Some(20013))
            && LeaseReleased(d, e, ByFinalizeFailure) && OnlyTask(d, e, a.key) && DataKept(d, e)
  {
    ReleasedAll(d, ByFinalizeFailure);
  }

  /** The write fence: only a running attempt of a document that is not being deleted writes. */
  predicate MayWrite(d: Document, a: AttemptId)
    requires HasAttempt(d, a)
  {
    AttemptOf(d, a).status == Running && d.status != Deleting && d.status != Deleted
  }

  lemma ChunkRowsWritten(d: Document, a: AttemptId, chunks: seq<string>)
    requires DocInv(d) && HasAttempt(d, a) && IsStage(a.key)
    ensures var o := WriteChunks(d, a, chunks);
            && (o.Committed? <==> MayWrite(d, a))
            && (o.Committed? ==>
                  && o.document.chunks == chunks && a.key in o.document.tasks
                  && o.document.tasks[a.key] == d.tasks[a.key].(processed := |chunks|)
                  && OnlyTask(d, o.document, a.key) && o.document == d.(chunks := chunks, tasks := o.document.tasks))
  {
    assert TaskInv(a.key, d.tasks[a.key]);
  }

  /** A saved parse result or saved drafts: one transaction with the success of the stage, or nothing. */
  lemma ParseSaved(d: Document, a: AttemptId, text: string)
    requires DocInv(d) && HasAttempt(d, a) && a.key.kind == Parse
    ensures var o := CommitParse(d, a, text);
            && (o.Committed? <==> MayWrite(d, a) && HasOpenLease(d) && CanEnter(d, TaskKey(Chunk, 0)))
            && (o.Committed? ==>
                  && o.document.parseResults == d.parseResults + [text] && o.document.drafts == d.drafts
                  && o.document.chunks == d.chunks && a.key in o.document.tasks
                  && o.document.tasks[a.key].status == TaskSucceeded && o.document.tasks[a.key].processed == 1
                  && o.document.tasks[a.key].total == Some(1) && TaskKey(Chunk, 0) in o.document.tasks)
  {
    assert TaskInv(a.key, d.tasks[a.key]);
  }

  lemma DraftsSaved(d: Document, a: AttemptId, pieces: seq<string>)
    requires DocInv(d) && HasAttempt(d, a) && a.key.kind == Chunk
    ensures var o := CommitChunk(d, a, pieces);
            && (o.Committed? <==> MayWrite(d, a) && HasOpenLease(d) && CanEnter(d, TaskKey(Embed, 0)))
            && (o.Committed? ==>
                  && o.document.drafts == pieces && o.document.parseResults == d.parseResults
                  && o.document.chunks == d.chunks && a.key in o.document.tasks
                  && o.document.tasks[a.key].status == TaskSucceeded && o.document.tasks[a.key].processed == |pieces|
                  && o.document.tasks[a.key].total == Some(|pieces|) && TaskKey(Embed, 0) in o.document.tasks)
  {
    assert TaskInv(a.key, d.tasks[a.key]);
  }

  // ---------------------------------------------------------------------------------------------
  // Clean-up runs
  // ---------------------------------------------------------------------------------------------

  lemma CleanedRows(d: Document, a: AttemptId)
    requires DocInv(d) && HasAttempt(d, a)
    ensures var e := FinishCleanup(d, a);
            && e.status == Deleted && e.current == None && e.error == None && e.retry == d.retry && e.cycle == d.cycle
            && e.parseResults == [] && e.drafts == [] && e.chunks == [] && e.original == d.original && e.user == d.user
            && TaskEnds(d, e, a.key, a.index, Succeeded, TaskSucceeded, d.tasks[a.key].retry, d.tasks[a.key].error)
            && LeaseReleased(d, e, ByDeletion) && OnlyTask(d, e, a.key)
  {
    ReleasedAll(d, ByDeletion);
  }

  lemma CleanedAgainRows(d: Document, a: AttemptId)
    requires HasAttempt(d, a)
    ensures var e := FinishCleanupAgain(d, a);
            && TaskEnds(d, e, a.key, a.index, Succeeded, TaskSucceeded, d.tasks[a.key].retry, d.tasks[a.key].error)
            && OnlyTask(d, e, a.key) && e == d.(tasks := e.tasks)
  {
  }

  /** A failed clean-up run is retried three times; then it leaves failed/delete_cleanup/20015. */
  lemma FailedCleanupRows(d: Document, a: AttemptId)
    requires DocInv(d) && HasAttempt(d, a)
    ensures var e := FailCleanup(d, a);
            var retry := d.tasks[a.key].retry;
            && e.leases == d.leases && DataKept(d, e) && OnlyTask(d, e, a.key)
            && (retry < 3 ==>
                  && TaskEnds(d, e, a.key, a.index, Errored, TaskQueued, retry + 1, None)
                  && e.status == d.status && e.current == d.current && e.error == d.error && e.retry == retry + 1)
            && (retry == 3 ==>
                  && TaskEnds(d, e, a.key, a.index, Errored, TaskFailed, 3, Some(20015))
                  && e.status == Failed && e.current == Some(DeleteCleanup) && e.error == Some(20015) && e.retry == 3)
  {
    assert TaskInv(a.key, d.tasks[a.key]);
  }

  // ---------------------------------------------------------------------------------------------
  // Recovery
  // ---------------------------------------------------------------------------------------------

  /** The running attempt of a task, if there is one, is cancelled; the others stay. */
  predicate RunCancelled(t: Task, u: Task) {
    && |u.attempts| == |t.attempts|
    && forall j :: 0 <= j < |t.attempts| ==>
         u.attempts[j] == if t.attempts[j].status == Running then t.attempts[j].(status := AttemptStatus.Cancelled)
                          else t.attempts[j]
  }

  lemma CancelledRun(key: TaskKey, t: Task)
    requires TaskInv(key, t)
    ensures RunCancelled(t, CancelRunningAttempt(t))
  {
  }

  /** A lease that has been released in the meantime is left alone. */
  lemma ReleasedLeaseRows(d: Document, index: nat)
    requires index < |d.leases| && d.leases[index].released.Some?
    ensures RecoverExpiredLease(d, index) == d
  {
  }

  lemma TakenOverColumns(d: Document, index: nat)
    requires LeaseInv(d) && index < |d.leases| && d.leases[index].released.None? && d.status != Deleting
    requires d.leases[index].task in d.tasks
    ensures var e := RecoverExpiredLease(d, index);
            && d.leases[index].task in e.tasks && LeaseReleased(d, e, ByRecovery) && OnlyTask(d, e, d.leases[index].task)
            && DataKept(d, e) && e.current == d.current
  {
    OnlyOpenLease(d, index);
  }

  lemma TakenOverTask(d: Document, index: nat)
    requires index < |d.leases| && d.leases[index].released.None? && d.status != Deleting
    requires d.leases[index].task in d.tasks && TaskInv(d.leases[index].task, d.tasks[d.leases[index].task])
    ensures var key := d.leases[index].task;
            var e := RecoverExpiredLease(d, index);
            var retry := d.tasks[key].retry;
            && key in e.tasks && RunCancelled(d.tasks[key], e.tasks[key])
            && (retry < 3 ==>
                  && e.tasks[key].status == TaskQueued && e.tasks[key].retry == retry + 1 && e.tasks[key].error == None
                  && e.status == DocumentStatus.Queued && e.retry == retry + 1 && e.error == None)
            && (retry == 3 ==>
                  && e.tasks[key].status == TaskFailed && e.tasks[key].retry == 3 && e.tasks[key].error == Some(20014)
                  && e.status == Failed && e.retry == 3 && e.error == Some(20014))
  {
    CancelledRun(d.leases[index].task, d.tasks[d.leases[index].task]);
  }

  /** The lease expires while the document is processed: its task is QUEUED again, or fails with 20014 after the third
      retry, and the document with it. */
  lemma ExpiredLeaseRows(d: Document, index: nat)
    requires DocInv(d) && index < |d.leases| && d.leases[index].released.None? && d.status != Deleting
    ensures var key := d.leases[index].task;
            var e := RecoverExpiredLease(d, index);
            && key in d.tasks && key in e.tasks
            && LeaseReleased(d, e, ByRecovery) && OnlyTask(d, e, key) && DataKept(d, e) && e.current == d.current
            && RunCancelled(d.tasks[key], e.tasks[key])
            && var retry := d.tasks[key].retry;
            && (retry < 3 ==>
                  && e.tasks[key].status == TaskQueued && e.tasks[key].retry == retry + 1 && e.tasks[key].error == None
                  && e.status == DocumentStatus.Queued && e.retry == retry + 1 && e.error == None)
            && (retry == 3 ==>
                  && e.tasks[key].status == TaskFailed && e.tasks[key].retry == 3 && e.tasks[key].error == Some(20014)
                  && e.status == Failed && e.retry == 3 && e.error == Some(20014))
  {
    var key := d.leases[index].task;
    assert TaskInv(key, d.tasks[key]);
    TakenOverColumns(d, index);
    TakenOverTask(d, index);
  }

  /** The lease a DELETE waits for expires: the task it names is cancelled if it runs, and the clean-up is QUEUED. */
  lemma ExpiredWaitRows(d: Document, index: nat)
    requires DocInv(d) && index < |d.leases| && d.leases[index].released.None? && d.status == Deleting
    ensures var key, cleanup := d.leases[index].task, TaskKey(DeleteCleanup, d.cycle);
            var e := RecoverExpiredLease(d, index);
            && key in d.tasks && key in e.tasks && cleanup in d.tasks && cleanup in e.tasks && key != cleanup
            && LeaseReleased(d, e, ByDeletion) && DataKept(d, e)
            && e.status == Deleting && e.current == Some(DeleteCleanup) && e.retry == 0 && e.error == d.error
            && RunCancelled(d.tasks[key], e.tasks[key])
            && e.tasks[key].status == (if d.tasks[key].status == TaskRunning then TaskCancelled else d.tasks[key].status)
            && e.tasks[cleanup] == d.tasks[cleanup].(status := TaskQueued)
            && forall other :: other != key && other != cleanup && other in d.tasks ==>
                 other in e.tasks && e.tasks[other] == d.tasks[other]
  {
    var key, cleanup := d.leases[index].task, CleanupKey(d.cycle);
    assert TaskInv(key, d.tasks[key]);
    OnlyOpenLease(d, index);
    CancelledRun(key, d.tasks[key]);
    var d1 := PutTask(d, key, CancelIfRunning(CancelRunningAttempt(d.tasks[key])));
    var d2 := d1.(leases := d.leases[index := d.leases[index].(released := Some(ByDeletion))],
                  current := Some(DeleteCleanup), retry := 0);
    assert QueueCleanup(d2) == Committed(PutTask(d2, cleanup, d2.tasks[cleanup].(status := TaskQueued)));
  }

  /** A running attempt is taken over only if its task runs and there is no lease. */
  lemma NotLostRows(d: Document, a: AttemptId)
    requires DocInv(d) && HasAttempt(d, a)
    requires AttemptOf(d, a).status != Running || d.tasks[a.key].status != TaskRunning || HasOpenLease(d)
    ensures RecoverRunningWithoutLease(d, a) == d
  {
  }

  ghost predicate Lost(d: Document, a: AttemptId) {
    HasAttempt(d, a) && AttemptOf(d, a).status == Running && d.tasks[a.key].status == TaskRunning && !HasOpenLease(d)
  }

  /** Not DELETING, whatever the task: QUEUED again within the retries, otherwise 20014. */
  lemma LostRows(d: Document, a: AttemptId)
    requires DocInv(d) && Lost(d, a) && d.status != Deleting
    ensures var e := RecoverRunningWithoutLease(d, a);
            var retry := d.tasks[a.key].retry;
            && e.leases == d.leases && DataKept(d, e) && OnlyTask(d, e, a.key) && e.current == d.current
            && (retry < 3 ==>
                  && TaskEnds(d, e, a.key, a.index, AttemptStatus.Cancelled, TaskQueued, retry + 1, None)
                  && e.status == DocumentStatus.Queued && e.retry == retry + 1 && e.error == None)
            && (retry == 3 ==>
                  && TaskEnds(d, e, a.key, a.index, AttemptStatus.Cancelled, TaskFailed, 3, Some(20014))
                  && e.status == Failed && e.retry == 3 && e.error == Some(20014))
  {
    assert TaskInv(a.key, d.tasks[a.key]);
  }

  /** A lost clean-up run while DELETING: retried, otherwise the tombstone. */
  lemma LostCleanupRows(d: Document, a: AttemptId)
    requires DocInv(d) && Lost(d, a) && d.status == Deleting && a.key.kind == DeleteCleanup
    ensures var e := RecoverRunningWithoutLease(d, a);
            var retry := d.tasks[a.key].retry;
            && e.leases == d.leases && DataKept(d, e) && OnlyTask(d, e, a.key)
            && (retry < 3 ==>
                  && TaskEnds(d, e, a.key, a.index, AttemptStatus.Cancelled, TaskQueued, retry + 1, None)
                  && e.status == Deleting && e.current == d.current && e.error == d.error && e.retry == retry + 1)
            && (retry == 3 ==>
                  && TaskEnds(d, e, a.key, a.index, AttemptStatus.Cancelled, TaskFailed, 3, Some(20015))
                  && e.status == Failed && e.current == Some(DeleteCleanup) && e.error == Some(20015) && e.retry == 3)
  {
    assert TaskInv(a.key, d.tasks[a.key]);
  }

  /** A lost stage run while DELETING: cancelled, and the clean-up QUEUED, unless that is running, when nothing changes. */
  lemma LostStageRows(d: Document, a: AttemptId)
    requires DocInv(d) && Lost(d, a) && d.status == Deleting && a.key.kind != DeleteCleanup
    ensures var cleanup := TaskKey(DeleteCleanup, d.cycle);
            var e := RecoverRunningWithoutLease(d, a);
            && cleanup in d.tasks && cleanup in e.tasks
            && (d.tasks[cleanup].status == TaskRunning ==> e == d)
            && (d.tasks[cleanup].status != TaskRunning ==>
                  && TaskEnds(d, e, a.key, a.index, AttemptStatus.Cancelled, TaskCancelled, d.tasks[a.key].retry, d.tasks[a.key].error)
                  && e.tasks[cleanup] == d.tasks[cleanup].(status := TaskQueued)
                  && e.status == Deleting && e.current == Some(DeleteCleanup) && e.retry == 0 && e.error == d.error
                  && e.leases == d.leases && DataKept(d, e)
                  && forall other :: other != a.key && other != cleanup && other in d.tasks ==>
                       other in e.tasks && e.tasks[other] == d.tasks[other])
  {
    assert TaskInv(a.key, d.tasks[a.key]);
    var cleanup := CleanupKey(d.cycle);
    var d1 := PutTask(d, a.key, CloseAttempt(d.tasks[a.key], a.index, Cancelled).(status := TaskCancelled));
    var d2 := d1.(current := Some(DeleteCleanup), retry := 0);
    if d.tasks[cleanup].status != TaskRunning {
      assert QueueCleanup(d2) == Committed(PutTask(d2, cleanup, d2.tasks[cleanup].(status := TaskQueued)));
    }
  }
}
