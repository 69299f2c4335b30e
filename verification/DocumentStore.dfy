/** The code of the workers, services and scanner as it runs: row objects whose columns are assigned one
    after another, then a commit, or a rollback that puts every column back.

    A `DocumentRows` object holds the columns of one document's rows.  Each method is one transaction and is
    proved to have exactly the effect of its function in `Transactions`, on which all other results rest. */
module DocumentStore {
  import opened Rows
  import opened Transactions


  datatype Reply = Written | Nothing | Fencing | Conflict

  class DocumentRows {
    const user: nat
    var status: DocumentStatus
    var current: Option<TaskType>
    var retry: nat
    var cycle: nat
    var error: Option<nat>
    var chunkCount: nat
    var tasks: map<TaskKey, Task>
    var leases: seq<Lease>
    var parseResults: seq<string>
    var drafts: seq<string>
    var chunks: seq<string>
    var original: bool  // in the storage, not in the database: no transaction touches it

    function Value(): Document
      reads this
    {
      Document(user, status, current, retry, cycle, error, chunkCount, tasks, leases, parseResults, drafts, chunks, original)
    }

    constructor (user: nat)
      ensures Value() == NewDocument(user)
    {
      this.user := user;
      status, current, retry, cycle, error, chunkCount := Pending, None, 0, 0, None, 0;
      tasks := map[StageKey(Parse) := NewTask(TaskPending)];
      leases, parseResults, drafts, chunks, original := [], [], [], [], true;
    }

    /** Every column back to what it was when the transaction began. */
    method Rollback(before: Document)
      requires before.user == user && before.original == original
      modifies this
      ensures Value() == before
    {
      status, current, retry, cycle := before.status, before.current, before.retry, before.cycle;
      error, chunkCount, tasks, leases := before.error, before.chunkCount, before.tasks, before.leases;
      parseResults, drafts, chunks := before.parseResults, before.drafts, before.chunks;
    }

    // -------------------------------------------------------------------------------------------
    // Attempts
    // -------------------------------------------------------------------------------------------

    /** The largest attempt_no of a task, found by running through its attempts. */
    method NextAttemptNo(key: TaskKey) returns (no: nat)
      requires key in tasks
      ensures no == MaxAttemptNo(tasks[key].attempts) + 1
    {
      var attempts := tasks[key].attempts;
      var highest := 0;
      var i := 0;
      while i < |attempts|
        invariant 0 <= i <= |attempts|
        invariant highest == MaxAttemptNo(attempts[..i])
      {
        assert attempts[..i + 1][..i] == attempts[..i];
        if attempts[i].no > highest {
          highest := attempts[i].no;
        }
        i := i + 1;
      }
      assert attempts[..i] == attempts;
      no := highest + 1;
    }

    method BeginAttempt(key: TaskKey) returns (reply: Reply)
      modifies this`tasks
      ensures Value() == Transactions.BeginAttempt(old(Value()), key)
      ensures reply.Written? <==> CanBegin(old(Value()), key)
      ensures reply.Written? ==> key in tasks && |tasks[key].attempts| > 0
    {
      if key !in tasks || !tasks[key].status.TaskQueued? || tasks[key].retry > tasks[key].maxRetries {
        return Nothing;
      }
      if FindRunning(tasks[key].attempts).Some? {
        return Conflict;  // the unique index on running attempts
      }
      var no := NextAttemptNo(key);
      var task := tasks[key];
      task := task.(attempts := task.attempts + [Attempt(no, Running, Working)]);
      task := task.(status := TaskRunning);
      tasks := tasks[key := task];
      reply := Written;
    }

    method FinishAttempt(a: AttemptId, ended: AttemptStatus)
      requires HasAttempt(Value(), a)
      modifies this`tasks
      ensures tasks == old(tasks)[a.key := CloseAttempt(old(tasks)[a.key], a.index, ended)]
      ensures HasAttempt(Value(), a)
    {
      var task := tasks[a.key];
      var attempt := task.attempts[a.index];
      attempt := attempt.(status := ended);
      tasks := tasks[a.key := task.(attempts := task.attempts[a.index := attempt])];
    }

    method ConvergeCancelled(a: AttemptId)
      requires HasAttempt(Value(), a)
      modifies this`tasks
      ensures Value() == Transactions.ConvergeCancelled(old(Value()), a)
    {
      if !AttemptOf(Value(), a).status.Running? {
        return;
      }
      FinishAttempt(a, Cancelled);
      if tasks[a.key].status.TaskRunning? {
        tasks := tasks[a.key := tasks[a.key].(status := TaskCancelled)];
      }
    }

    // -------------------------------------------------------------------------------------------
    // Leases
    // -------------------------------------------------------------------------------------------

    /** `openLeases` is the number of unreleased leases of the user, counted under the user's lock. */
    method AdmitParse(now: int, seconds: nat, openLeases: nat, maxPerUser: nat)
      modifies this`leases, this`status
      ensures Value() == Transactions.AdmitParse(old(Value()), now, seconds, openLeases < maxPerUser)
    {
      if !status.Queued? && !status.Processing? {
        return;
      }
      if FindOpen(leases).None? {
        if openLeases >= maxPerUser {
          return;
        }
        leases := leases + [Lease(StageKey(Parse), now, now + seconds, None)];
        if status.Queued? {
          status := Processing;
        }
      }
    }

    method Heartbeat(key: TaskKey, now: int, seconds: nat) returns (renewed: bool)
      modifies this`leases
      ensures Value() == OrElse(Transactions.Heartbeat(old(Value()), key, now, seconds), old(Value()))
      ensures renewed <==> Transactions.Heartbeat(old(Value()), key, now, seconds).Committed?
    {
      var open := FindOpen(leases);
      if open.None? || status.Deleting? || status.Deleted? {
        return false;
      }
      var lease := leases[open.value];
      lease := lease.(heartbeat := now);
      lease := lease.(expires := now + seconds);
      lease := lease.(task := key);
      leases := leases[open.value := lease];
      renewed := true;
    }

    method ReleaseLease(reason: ReleaseReason)
      modifies this`leases
      ensures Value() == Transactions.ReleaseLease(old(Value()), reason)
    {
      var open := FindOpen(leases);
      if open.Some? {
        leases := leases[open.value := leases[open.value].(released := Some(reason))];
      }
    }

    // -------------------------------------------------------------------------------------------
    // Stages
    // -------------------------------------------------------------------------------------------

    method CompleteStage(a: AttemptId, total: Option<nat>, processed: Option<nat>, expected: Option<nat>)
      returns (reply: Reply)
      requires HasAttempt(Value(), a) && IsStage(a.key)
      modifies this
      ensures var o := Transactions.CompleteStage(old(Value()), a, total, processed, expected);
              && Value() == OrElse(o, old(Value()))
              && (reply.Written? <==> o.Committed?) && (reply.Nothing? <==> o.Replayed?) && (reply.Fencing? <==> o.Refused?)
    {
      if !AttemptOf(Value(), a).status.Running? {
        return Nothing;
      }
      if !tasks[a.key].status.TaskRunning? || status.Deleting? || status.Deleted? {
        return Fencing;
      }
      if a.key.kind.Finalize? {
        CompleteFinalize(a, expected);
        return Written;
      }
      reply := AdvanceStage(a, total, processed);
    }

    method AdvanceStage(a: AttemptId, total: Option<nat>, processed: Option<nat>) returns (reply: Reply)
      requires HasAttempt(Value(), a) && IsStage(a.key) && !a.key.kind.Finalize?
      modifies this
      ensures Value() == OrElse(Advance(old(Value()), a, total, processed), old(Value()))
      ensures reply == if Advance(old(Value()), a, total, processed).Committed? then Written else Fencing
    {
      var before := Value();
      var next := NextStage(a.key.kind);
      SucceedTask(a, total, processed);
      var key := StageKey(next);
      var found := CreateOrGet(key);
      if !found {
        Rollback(before);
        return Fencing;
      }
      current, retry := Some(next), 0;
      var open := FindOpen(leases);
      if open.None? {
        Rollback(before);
        return Fencing;
      }
      leases := leases[open.value := leases[open.value].(task := key)];
      reply := Written;
    }

    /** The task of the next stage is created, or found when it has not started. */
    method CreateOrGet(key: TaskKey) returns (found: bool)
      modifies this`tasks
      ensures found == (key in old(tasks) ==> old(tasks)[key].status.TaskPending? || old(tasks)[key].status.TaskQueued?)
      ensures tasks == if key in old(tasks) then old(tasks) else old(tasks)[key := NewTask(TaskQueued)]
    {
      found := true;
      if key !in tasks {
        tasks := tasks[key := NewTask(TaskQueued)];
      } else if !tasks[key].status.TaskPending? && !tasks[key].status.TaskQueued? {
        found := false;
      }
    }

    method SucceedTask(a: AttemptId, total: Option<nat>, processed: Option<nat>)
      requires HasAttempt(Value(), a)
      modifies this`tasks
      ensures tasks == old(tasks)[a.key := CloseAttempt(old(tasks)[a.key], a.index, Succeeded).(
                status := TaskSucceeded,
                total := if total.Some? then total else old(tasks)[a.key].total,
                processed := if processed.Some? then processed.value else old(tasks)[a.key].processed)]
    {
      FinishAttempt(a, Succeeded);
      var task := tasks[a.key].(status := TaskSucceeded);
      if total.Some? {
        task := task.(total := total);
      }
      if processed.Some? {
        task := task.(processed := processed.value);
      }
      tasks := tasks[a.key := task];
    }

    /** The attempt and its task end as failed. */
    method FailAttempt(a: AttemptId, ended: AttemptStatus, code: nat)
      requires HasAttempt(Value(), a)
      modifies this`tasks
      ensures tasks == old(tasks)[a.key := FailTask(CloseAttempt(old(tasks)[a.key], a.index, ended), code)]
    {
      FinishAttempt(a, ended);
      var task := tasks[a.key].(status := TaskFailed);
      task := task.(error := Some(code));
      tasks := tasks[a.key := task];
    }

    method CompleteFinalize(a: AttemptId, expected: Option<nat>)
      requires HasAttempt(Value(), a)
      modifies this
      ensures Value() == Transactions.CompleteFinalize(old(Value()), a, expected)
    {
      var wanted := tasks[a.key].processed;
      if expected.Some? {
        wanted := expected.value;
      }
      if |chunks| != wanted {
        FailPublication(a);
      } else {
        PublishChunks(a);
      }
    }

    method FailPublication(a: AttemptId)
      requires HasAttempt(Value(), a)
      modifies this
      ensures Value() == Transactions.FailPublication(old(Value()), a)
    {
      FailAttempt(a, Errored, COUNT_MISMATCH);
      status, error, retry := Failed, Some(COUNT_MISMATCH), tasks[a.key].retry;
      ReleaseLease(ByFinalizeFailure);
    }

    method PublishChunks(a: AttemptId)
      requires HasAttempt(Value(), a)
      modifies this
      ensures Value() == Transactions.PublishChunks(old(Value()), a)
    {
      var count := |chunks|;
      SucceedTask(a, Some(count), Some(count));
      status, chunkCount, current, retry := Completed, count, None, 0;
      ReleaseLease(ByCompletion);
    }

    method FailStage(a: AttemptId, code: Option<nat>)
      requires HasAttempt(Value(), a)
      modifies this
      ensures Value() == Transactions.FailStage(old(Value()), a, code)
    {
      if !AttemptOf(Value(), a).status.Running? {
        return;
      }
      if code.Some? {
        GiveUp(a, code.value);
      } else if tasks[a.key].retry < tasks[a.key].maxRetries {
        FinishAttempt(a, Errored);
        Requeue(a.key);
        retry, error := tasks[a.key].retry, None;
      } else {
        GiveUp(a, PROCESSING_FAILED);
      }
    }

    method GiveUp(a: AttemptId, code: nat)
      requires HasAttempt(Value(), a)
      modifies this
      ensures Value() == Transactions.GiveUp(old(Value()), a, code)
    {
      FailAttempt(a, Errored, code);
      status, error, retry := Failed, Some(code), tasks[a.key].retry;
      ReleaseLease(ByFailure);
    }

    method Requeue(key: TaskKey)
      requires key in tasks
      modifies this`tasks
      ensures tasks == old(tasks)[key := Transactions.Requeue(old(tasks)[key])]
    {
      var task := tasks[key];
      task := task.(status := TaskQueued);
      task := task.(retry := task.retry + 1);
      task := task.(error := None);
      tasks := tasks[key := task];
    }

    // -------------------------------------------------------------------------------------------
    // Fenced writes
    // -------------------------------------------------------------------------------------------

    method SaveParse(a: AttemptId, text: string) returns (reply: Reply)
      requires HasAttempt(Value(), a) && IsStage(a.key)
      modifies this
      ensures Value() == OrElse(CommitParse(old(Value()), a, text), old(Value()))
    {
      var before := Value();
      if !Fence(before, a) {
        return Fencing;
      }
      parseResults := parseResults + [text];
      reply := CompleteStage(a, Some(1), Some(1), None);
      if !reply.Written? {
        Rollback(before);
      }
    }

    method ReplaceDrafts(a: AttemptId, pieces: seq<string>) returns (reply: Reply)
      requires HasAttempt(Value(), a) && IsStage(a.key)
      modifies this
      ensures Value() == OrElse(CommitChunk(old(Value()), a, pieces), old(Value()))
    {
      var before := Value();
      if !Fence(before, a) {
        return Fencing;
      }
      drafts := [];
      drafts := drafts + pieces;
      reply := CompleteStage(a, Some(|pieces|), Some(|pieces|), None);
      if !reply.Written? {
        Rollback(before);
      }
    }

    method ReplaceChunks(a: AttemptId, rows: seq<string>) returns (reply: Reply)
      requires HasAttempt(Value(), a)
      modifies this
      ensures Value() == OrElse(WriteChunks(old(Value()), a, rows), old(Value()))
      ensures reply.Written? <==> Fence(old(Value()), a)
    {
      if !Fence(Value(), a) {
        return Fencing;
      }
      chunks := [];
      chunks := chunks + rows;
      tasks := tasks[a.key := tasks[a.key].(processed := |rows|)];
      reply := Written;
    }

    /** The batch loop of the embed worker, undisturbed: before each batch the lease is renewed, and only
        when all batches are there the rows are written.  `clock` is the time at each batch. */
    method EmbedBatches(a: AttemptId, pieces: seq<string>, clock: nat -> int, seconds: nat)
      returns (rows: seq<string>, kept: bool)
      requires HasAttempt(Value(), a) && pieces != []
      modifies this`leases, this`tasks
      ensures kept <==> old(HasOpenLease(Value())) && !BeingDeleted(Value())
      ensures kept ==> rows == pieces && tasks == old(tasks)
      ensures kept ==>
                && FindOpen(leases).Some? && FindOpen(leases) == FindOpen(old(leases))
                && leases[FindOpen(leases).value].expires == clock((|pieces| - 1) / EMBED_BATCH_SIZE) + seconds
                && leases[FindOpen(leases).value].task == a.key
      ensures !kept ==> Value() == Transactions.ConvergeCancelled(old(Value()), a)
    {
      rows := [];
      var start := 0;
      var batch := 0;
      while start < |pieces|
        invariant start == batch * EMBED_BATCH_SIZE
        invariant rows == if start <= |pieces| then pieces[..start] else pieces
        invariant tasks == old(tasks) && FindOpen(leases) == FindOpen(old(leases)) && |leases| == |old(leases)|
        invariant batch == 0 ==> leases == old(leases)
        invariant batch > 0 ==>
                    && FindOpen(leases).Some? && !BeingDeleted(Value())
                    && leases[FindOpen(leases).value].expires == clock(batch - 1) + seconds
                    && leases[FindOpen(leases).value].task == a.key
        invariant batch > 0 ==> (batch - 1) * EMBED_BATCH_SIZE < |pieces|
        decreases |pieces| - start
      {
        var renewed := Renew(a.key, clock(batch), seconds);
        if !renewed {
          ConvergeCancelled(a);
          return [], false;
        }
        var end := if start + EMBED_BATCH_SIZE <= |pieces| then start + EMBED_BATCH_SIZE else |pieces|;
        rows := rows + pieces[start..end];
        start := start + EMBED_BATCH_SIZE;
        batch := batch + 1;
      }
      kept := true;
    }

    /** The heartbeat, with what it leaves of the leases. */
    method Renew(key: TaskKey, now: int, seconds: nat) returns (renewed: bool)
      modifies this`leases
      ensures renewed <==> old(HasOpenLease(Value())) && !BeingDeleted(Value())
      ensures FindOpen(leases) == FindOpen(old(leases)) && |leases| == |old(leases)|
      ensures !renewed ==> leases == old(leases)
      ensures renewed ==> FindOpen(leases).Some?
                          && leases[FindOpen(leases).value].expires == now + seconds
                          && leases[FindOpen(leases).value].task == key
    {
      ghost var open := FindOpen(leases);
      if open.Some? {
        OpenStays(leases, leases[open.value].(heartbeat := now, expires := now + seconds, task := key));
      }
      renewed := Heartbeat(key, now, seconds);
    }

    // -------------------------------------------------------------------------------------------
    // Deletion
    // -------------------------------------------------------------------------------------------

    method ActivateDeleteCleanup() returns (reply: Reply)
      modifies this`tasks
      ensures Value() == OrElse(ActivateCleanup(old(Value())), old(Value()))
      ensures reply == if ActivateCleanup(old(Value())).Committed? then Written else Conflict
      ensures reply.Written? ==> CleanupKey(cycle) in tasks
    {
      var key := CleanupKey(cycle);
      if key !in tasks {
        tasks := tasks[key := NewTask(TaskPending)];
      } else if tasks[key].status.TaskRunning? || tasks[key].status.TaskSucceeded? {
        return Conflict;
      }
      reply := Written;
    }

    method QueueDeleteCleanup() returns (reply: Reply)
      modifies this`tasks
      ensures Value() == OrElse(QueueCleanup(old(Value())), old(Value()))
      ensures reply == if QueueCleanup(old(Value())).Committed? then Written else Conflict
    {
      reply := ActivateDeleteCleanup();
      if reply.Written? {
        var key := CleanupKey(cycle);
        tasks := tasks[key := tasks[key].(status := TaskQueued)];
      }
    }

    method StageDelete(running: Option<AttemptId>) returns (reply: Reply)
      requires IsOpenAttempt(Value(), running)
      modifies this
      ensures Value() == Transactions.StageDelete(old(Value()), running)
    {
      var before := Value();
      if status.Deleting? || status.Deleted? {
        return Nothing;
      }
      var waits := SettleRunning(running);
      if waits {
        reply := ActivateDeleteCleanup();
      } else {
        reply := QueueDeleteCleanup();
      }
      if reply.Conflict? {
        Rollback(before);
      }
    }

    /** Mark the document and settle its running attempt; true when that has a lease to run out. */
    method SettleRunning(running: Option<AttemptId>) returns (waits: bool)
      requires IsOpenAttempt(Value(), running)
      modifies this
      ensures Value() == BeforeCleanup(old(Value()), running)
      ensures waits <==> running.Some? && HasOpenLease(Value())
    {
      MarkForDeletion();
      if running.None? {
        ReleaseLease(ByDeletion);
        return false;
      }
      assert HasAttempt(Value(), running.value);
      if FindOpen(leases).Some? {
        return true;
      }
      FinishAttempt(running.value, Cancelled);
      var key := running.value.key;
      if tasks[key].status.TaskRunning? {
        tasks := tasks[key := tasks[key].(status := TaskCancelled)];
      }
      waits := false;
    }

    method MarkForDeletion()
      modifies this
      ensures Value() == MarkDeleting(old(Value()))
    {
      if !IsTombstone(Value()) {
        status := Deleting;
      }
      cycle := cycle + 1;
      current, retry, error := Some(DeleteCleanup), 0, None;
      tasks := CancelUnstarted(tasks);
    }

    method FinishCleanup(a: AttemptId)
      requires HasAttempt(Value(), a)
      modifies this
      ensures Value() == Transactions.FinishCleanup(old(Value()), a)
    {
      parseResults := [];
      drafts := [];
      chunks := [];
      status, current, error := Deleted, None, None;
      ReleaseLease(ByDeletion);
      SucceedCleanup(a);
    }

    method SucceedCleanup(a: AttemptId)
      requires HasAttempt(Value(), a)
      modifies this`tasks
      ensures tasks == old(tasks)[a.key := CloseAttempt(old(tasks)[a.key], a.index, Succeeded).(status := TaskSucceeded)]
    {
      FinishAttempt(a, Succeeded);
      tasks := tasks[a.key := tasks[a.key].(status := TaskSucceeded)];
    }

    method FailCleanup(a: AttemptId)
      requires HasAttempt(Value(), a)
      modifies this
      ensures Value() == Transactions.FailCleanup(old(Value()), a)
    {
      RetryCleanup(a, Errored);
    }

    /** Close the attempt; then retry the clean-up task within its budget or leave the tombstone. */
    method RetryCleanup(a: AttemptId, ended: AttemptStatus)
      requires HasAttempt(Value(), a)
      modifies this
      ensures var task := old(tasks)[a.key];
              var closed := CloseAttempt(task, a.index, ended);
              Value() == if task.retry < task.maxRetries
                         then PutTask(old(Value()), a.key, Transactions.Requeue(closed)).(retry := task.retry + 1)
                         else ToTombstone(PutTask(old(Value()), a.key, FailTask(closed, DELETE_UNFINISHED)), task.retry)
    {
      if tasks[a.key].retry < tasks[a.key].maxRetries {
        FinishAttempt(a, ended);
        Requeue(a.key);
        retry := tasks[a.key].retry;
        return;
      }
      FailAttempt(a, ended, DELETE_UNFINISHED);
      status, current, error, retry := Failed, Some(DeleteCleanup), Some(DELETE_UNFINISHED), tasks[a.key].retry;
    }

    // -------------------------------------------------------------------------------------------
    // Recovery
    // -------------------------------------------------------------------------------------------

    method RecoverRunningWithoutLease(a: AttemptId) returns (taken: bool)
      requires HasAttempt(Value(), a)
      modifies this
      ensures Value() == Transactions.RecoverRunningWithoutLease(old(Value()), a)
    {
      var task := tasks[a.key];
      if !task.attempts[a.index].status.Running? || !task.status.TaskRunning? || FindOpen(leases).Some? {
        return false;
      }
      taken := true;
      if status.Deleting? && a.key.kind.DeleteCleanup? {
        RetryCleanup(a, Cancelled);
      } else if status.Deleting? {
        taken := CancelForDeletion(a);
      } else {
        FinishAttempt(a, Cancelled);
        RetryTask(a.key);
      }
    }

    /** The lost attempt of a stage and its task are cancelled and the clean-up is queued. */
    method CancelForDeletion(a: AttemptId) returns (taken: bool)
      requires HasAttempt(Value(), a)
      modifies this
      ensures var closed := CloseAttempt(old(tasks)[a.key], a.index, Cancelled).(status := TaskCancelled);
              var d := PutTask(old(Value()), a.key, closed).(current := Some(DeleteCleanup), retry := 0);
              Value() == OrElse(QueueCleanup(d), old(Value()))
    {
      var before := Value();
      CancelAttempt(a);
      current, retry := Some(DeleteCleanup), 0;
      var reply := QueueDeleteCleanup();
      if reply.Conflict? {
        Rollback(before);
      }
      taken := reply.Written?;
    }

    method CancelAttempt(a: AttemptId)
      requires HasAttempt(Value(), a)
      modifies this`tasks
      ensures tasks == old(tasks)[a.key := CloseAttempt(old(tasks)[a.key], a.index, Cancelled).(status := TaskCancelled)]
    {
      FinishAttempt(a, Cancelled);
      tasks := tasks[a.key := tasks[a.key].(status := TaskCancelled)];
    }

    /** A lost task goes back to the queue within its budget; otherwise the document has failed. */
    method RetryTask(key: TaskKey)
      requires key in tasks
      modifies this
      ensures var task := old(tasks)[key];
              Value() == if task.retry < task.maxRetries
                         then PutTask(old(Value()), key, Transactions.Requeue(task)).(
                                status := Queued, retry := task.retry + 1, error := None)
                         else FailDocument(PutTask(old(Value()), key, FailTask(task, PROCESSING_FAILED)),
                                           PROCESSING_FAILED, task.retry)
    {
      if tasks[key].retry < tasks[key].maxRetries {
        Requeue(key);
        status, retry, error := Queued, tasks[key].retry, None;
        return;
      }
      tasks := tasks[key := tasks[key].(status := TaskFailed, error := Some(PROCESSING_FAILED))];
      status, error, retry := Failed, Some(PROCESSING_FAILED), tasks[key].retry;
    }

    method RecoverExpiredLease(index: nat) returns (taken: bool)
      requires index < |leases|
      modifies this
      ensures Value() == Transactions.RecoverExpiredLease(old(Value()), index)
    {
      if leases[index].released.Some? {
        return false;
      }
      if status.Deleting? {
        taken := TakeOverDeleting(index);
      } else {
        TakeOverLive(index);
        taken := true;
      }
    }

    /** Cancel the running attempt of the task the lease names, if there is one. */
    method CancelAttemptOf(key: TaskKey)
      requires key in tasks
      modifies this`tasks
      ensures tasks == old(tasks)[key := CancelRunningAttempt(old(tasks)[key])]
    {
      var running := FindRunning(tasks[key].attempts);
      if running.Some? {
        FinishAttempt(AttemptId(key, running.value), Cancelled);
      }
    }

    method TakeOverDeleting(index: nat) returns (taken: bool)
      requires index < |leases| && IsOpen(leases[index]) && status.Deleting?
      modifies this
      ensures Value() == Transactions.RecoverExpiredLease(old(Value()), index)
    {
      var before := Value();
      StopAttemptOf(leases[index].task);
      leases := leases[index := leases[index].(released := Some(ByDeletion))];
      current, retry := Some(DeleteCleanup), 0;
      var reply := QueueDeleteCleanup();
      if reply.Conflict? {
        Rollback(before);
      }
      taken := reply.Written?;
    }

    method StopAttemptOf(key: TaskKey)
      modifies this`tasks
      ensures tasks == if key in old(tasks)
                       then old(tasks)[key := CancelIfRunning(CancelRunningAttempt(old(tasks)[key]))] else old(tasks)
    {
      if key in tasks {
        CancelAttemptOf(key);
        if tasks[key].status.TaskRunning? {
          tasks := tasks[key := tasks[key].(status := TaskCancelled)];
        }
      }
    }

    method TakeOverLive(index: nat)
      requires index < |leases| && IsOpen(leases[index]) && !status.Deleting?
      modifies this
      ensures Value() == Transactions.RecoverExpiredLease(old(Value()), index)
    {
      var key := leases[index].task;
      if key in tasks {
        CancelAttemptOf(key);
      }
      leases := leases[index := leases[index].(released := Some(ByRecovery))];
      if key in tasks {
        RetryTask(key);
      }
    }
  }
}
