/** The order of the stages: when only one of them runs at a time, and what that means for documents that were
    deleted and came back. */
module StageOrder {
  import opened Rows
  import opened Transactions
  import opened Protocol
  import opened Invariant
  import opened Runs
  import opened Checkpoint

  // ---------------------------------------------------------------------------------------------
  // Orderly documents
  // ---------------------------------------------------------------------------------------------

  /** A stage that has a successor has succeeded, so only the last stage can be queued or running. */
  ghost predicate StagesInOrder(d: Document) {
    && (StageKey(Chunk) in d.tasks ==> StageKey(Parse) in d.tasks && d.tasks[StageKey(Parse)].status.TaskSucceeded?)
    && (StageKey(Embed) in d.tasks ==> StageKey(Chunk) in d.tasks && d.tasks[StageKey(Chunk)].status.TaskSucceeded?)
    && (StageKey(Finalize) in d.tasks ==> StageKey(Embed) in d.tasks && d.tasks[StageKey(Embed)].status.TaskSucceeded?)
  }

  predicate IsLastStage(d: Document, key: TaskKey) {
    match key.kind
    case Parse => StageKey(Chunk) !in d.tasks
    case Chunk => StageKey(Embed) !in d.tasks
    case Embed => StageKey(Finalize) !in d.tasks
    case Finalize => true
    case DeleteCleanup => false
  }

  /** The open lease belongs to the last stage. */
  ghost predicate LeaseInOrder(d: Document) {
    match FindOpen(d.leases)
    case Some(i) => IsLastStage(d, d.leases[i].task)
    case None => true
  }

  /** While a lease is open no embed worker that may still send a heartbeat is a lost one; `busy` is
      left out. */
  ghost predicate NoLostEmbed(d: Document, busy: Option<AttemptId>) {
    HasOpenLease(d) ==>
      forall i :: 0 <= i < |AttemptsOf(d, Embed)| && busy != Some(AttemptId(StageKey(Embed), i)) ==>
        var attempt := AttemptsOf(d, Embed)[i];
        attempt.worker.Working? || attempt.worker.Loaded? ==> attempt.status.Running?
  }

  ghost predicate CountPublished(d: Document) {
    d.status.Completed? ==> d.chunkCount == |d.chunks|
  }

  ghost predicate OrderlyBut(d: Document, busy: Option<AttemptId>) {
    StagesInOrder(d) && LeaseInOrder(d) && NoLostEmbed(d, busy) && CountPublished(d)
  }

  ghost predicate Orderly(d: Document) {
    OrderlyBut(d, None)
  }

  ghost predicate Good(d: Document) {
    DocInv(d) && Orderly(d)
  }

  // ---------------------------------------------------------------------------------------------
  // Transactions that only wind stages down
  // ---------------------------------------------------------------------------------------------

  /** At most the last stage changes its status; an open lease and the embed attempts under it stay,
      except for `busy`. */
  ghost predicate Winds(d: Document, e: Document, busy: Option<AttemptId>) {
    && (forall key :: IsStage(key) ==> (key in e.tasks <==> key in d.tasks))
    && (forall key :: key in d.tasks && IsStage(key) && !IsLastStage(d, key) ==>
          e.tasks[key].status == d.tasks[key].status)
    && AttemptsWind(AttemptsOf(d, Embed), AttemptsOf(e, Embed))
    && (HasOpenLease(e) ==>
          && e.leases == d.leases
          && forall i :: 0 <= i < |AttemptsOf(d, Embed)| && busy != Some(AttemptId(StageKey(Embed), i)) ==>
               AttemptsOf(e, Embed)[i].status == AttemptsOf(d, Embed)[i].status)
  }

  lemma WindsStages(d: Document, e: Document, busy: Option<AttemptId>)
    requires StagesInOrder(d) && LeaseInOrder(d) && NoLostEmbed(d, busy) && Winds(d, e, busy)
    ensures StagesInOrder(e) && LeaseInOrder(e) && NoLostEmbed(e, busy)
  {
    assert forall key :: IsStage(key) ==> (IsLastStage(e, key) <==> IsLastStage(d, key));
  }

  lemma WindsOrderly(d: Document, e: Document, busy: Option<AttemptId>)
    requires Orderly(d) && Winds(d, e, busy) && CountPublished(e)
    ensures OrderlyBut(e, busy)
  {
    WindsStages(d, e, busy);
  }

  /** One stage task that has not succeeded, or the last one, or a clean-up task, changes. */
  lemma OneTaskWinds(d: Document, e: Document, key: TaskKey, busy: Option<AttemptId>)
    requires StagesInOrder(d) && key in d.tasks && key in e.tasks && e.tasks == d.tasks[key := e.tasks[key]]
    requires IsStage(key) ==> key.cycle == 0 && (!d.tasks[key].status.TaskSucceeded? || IsLastStage(d, key))
    requires AttemptsWind(d.tasks[key].attempts, e.tasks[key].attempts)
    requires HasOpenLease(e) ==> e.leases == d.leases
    requires HasOpenLease(e) && key == StageKey(Embed) ==>
               forall i :: 0 <= i < |d.tasks[key].attempts| && busy != Some(AttemptId(key, i)) ==>
                 e.tasks[key].attempts[i].status == d.tasks[key].attempts[i].status
    ensures Winds(d, e, busy)
  {
    assert IsStage(key) ==> key == StageKey(key.kind) && IsLastStage(d, key);
  }

  lemma GiveUpOrderly(d: Document, a: AttemptId, code: nat)
    requires Good(d) && HasAttempt(d, a) && IsStage(a.key) && AttemptOf(d, a).status.Running?
    ensures Orderly(GiveUp(d, a, code))
  {
    var e := GiveUp(d, a, code);
    assert TaskInv(a.key, d.tasks[a.key]);
    ClosedWinds(d.tasks[a.key], a.index, Errored);
    OneTaskWinds(d, e, a.key, None);
    WindsOrderly(d, e, None);
  }

  lemma FailStageOrderly(d: Document, a: AttemptId, code: Option<nat>)
    requires Good(d) && HasAttempt(d, a) && IsStage(a.key)
    ensures OrderlyBut(FailStage(d, a, code), Some(a))
  {
    var task := d.tasks[a.key];
    if AttemptOf(d, a).status.Running? {
      if code.Some? {
        GiveUpOrderly(d, a, code.value);
      } else if task.retry < task.maxRetries {
        var e := FailStage(d, a, code);
        assert TaskInv(a.key, task);
        ClosedWinds(task, a.index, Errored);
        OneTaskWinds(d, e, a.key, Some(a));
        WindsOrderly(d, e, Some(a));
      } else {
        GiveUpOrderly(d, a, PROCESSING_FAILED);
      }
    }
  }

  lemma MarkQueuedOrderly(d: Document)
    requires Good(d)
    ensures Orderly(MarkQueued(d))
  {
  }

  lemma CompensateOrderly(d: Document)
    requires Good(d) && d.status.Pending?
    ensures Orderly(Compensate(d))
  {
  }

  lemma ConvergeOrderly(d: Document, a: AttemptId)
    requires Good(d) && HasAttempt(d, a) && IsStage(a.key)
    ensures OrderlyBut(ConvergeCancelled(d, a), Some(a))
  {
    if AttemptOf(d, a).status.Running? {
      var e := ConvergeCancelled(d, a);
      assert TaskInv(a.key, d.tasks[a.key]);
      ClosedWinds(d.tasks[a.key], a.index, Cancelled);
      OneTaskWinds(d, e, a.key, Some(a));
      WindsOrderly(d, e, Some(a));
    }
  }

  /** A transaction on a clean-up task. */
  lemma CleanupTaskOrderly(d: Document, e: Document, key: TaskKey)
    requires Orderly(d) && !IsStage(key) && key in d.tasks && key in e.tasks
    requires e.tasks == d.tasks[key := e.tasks[key]]
    requires HasOpenLease(e) ==> e.leases == d.leases
    requires e.status.Completed? ==> d.status.Completed? && e.chunkCount == d.chunkCount && e.chunks == d.chunks
    ensures Orderly(e)
  {
    assert Winds(d, e, None);
    WindsOrderly(d, e, None);
  }

  lemma FinishCleanupOrderly(d: Document, a: AttemptId)
    requires Good(d) && HasAttempt(d, a) && !IsStage(a.key)
    ensures Orderly(FinishCleanup(d, a)) && Orderly(FinishCleanupAgain(d, a))
  {
    CleanupTaskOrderly(d, FinishCleanup(d, a), a.key);
    CleanupTaskOrderly(d, FinishCleanupAgain(d, a), a.key);
  }

  lemma FailCleanupOrderly(d: Document, a: AttemptId)
    requires Good(d) && HasAttempt(d, a) && !IsStage(a.key)
    ensures Orderly(FailCleanup(d, a))
  {
    CleanupTaskOrderly(d, FailCleanup(d, a), a.key);
  }

  lemma QueuedCleanupOrderly(d: Document, key: TaskKey, task: Task)
    requires Orderly(d) && key.kind.DeleteCleanup?
    ensures Orderly(PutTask(d, key, task))
  {
    assert Winds(d, PutTask(d, key, task), None);
    WindsOrderly(d, PutTask(d, key, task), None);
  }

  /** Cancelling the unstarted stage tasks touches nothing but the status of queued and pending ones. */
  lemma CancelledTasks(d: Document)
    requires StagesInOrder(d) && TasksInv(d)
    ensures forall key :: key in CancelUnstarted(d.tasks) <==> key in d.tasks
    ensures forall key :: key in d.tasks ==>
              && CancelUnstarted(d.tasks)[key].attempts == d.tasks[key].attempts
              && (IsStage(key) && !IsLastStage(d, key) ==> CancelUnstarted(d.tasks)[key].status == d.tasks[key].status)
  {
    forall key | key in d.tasks && IsStage(key)
      ensures key == StageKey(key.kind)
    {
      assert TaskInv(key, d.tasks[key]);
    }
  }

  /** Cancelled tasks in a new delete cycle. */
  lemma UnstartedWinds(d: Document, e: Document)
    requires forall key :: key in e.tasks <==> key in d.tasks
    requires forall key :: key in d.tasks ==>
               && e.tasks[key].attempts == d.tasks[key].attempts
               && (IsStage(key) && !IsLastStage(d, key) ==> e.tasks[key].status == d.tasks[key].status)
    requires e.leases == d.leases
    ensures Winds(d, e, None)
  {
    assert AttemptsOf(e, Embed) == AttemptsOf(d, Embed);
  }

  lemma MarkDeletingWinds(d: Document)
    requires StagesInOrder(d) && TasksInv(d)
    ensures Winds(d, MarkDeleting(d), None)
  {
    CancelledTasks(d);
    UnstartedWinds(d, MarkDeleting(d));
  }

  lemma MarkDeletingOrderly(d: Document)
    requires Orderly(d) && TasksInv(d)
    ensures Orderly(MarkDeleting(d))
  {
    MarkDeletingWinds(d);
    WindsOrderly(d, MarkDeleting(d), None);
  }

  lemma ReleasedOrderly(d: Document)
    requires Orderly(d) && (forall i :: 0 <= i < |d.leases| - 1 ==> !IsOpen(d.leases[i]))
    ensures Orderly(ReleaseLease(d, ByDeletion))
  {
    assert Winds(d, ReleaseLease(d, ByDeletion), None);
    WindsOrderly(d, ReleaseLease(d, ByDeletion), None);
  }

  lemma CancelLostOrderly(d: Document, a: AttemptId)
    requires Orderly(d) && HasAttempt(d, a) && !HasOpenLease(d)
    requires IsStage(a.key) ==> a.key.cycle == 0 && !d.tasks[a.key].status.TaskSucceeded?
    ensures Orderly(CancelLost(d, a))
  {
    ClosedWinds(d.tasks[a.key], a.index, Cancelled);
    OneTaskWinds(d, CancelLost(d, a), a.key, None);
    WindsOrderly(d, CancelLost(d, a), None);
  }

  lemma LostBeforeCleanup(d: Document, a: AttemptId)
    requires Orderly(d) && TasksInv(d) && HasAttempt(d, a) && AttemptOf(d, a).status.Running?
             && !HasOpenLease(MarkDeleting(d))
    requires Orderly(MarkDeleting(d)) && HasAttempt(MarkDeleting(d), a)
    ensures Orderly(CancelLost(MarkDeleting(d), a))
  {
    assert TaskInv(a.key, d.tasks[a.key]);
    CancelLostOrderly(MarkDeleting(d), a);
  }

  lemma BeforeCleanupOrderly(d: Document, open: Option<AttemptId>)
    requires Good(d) && IsOpenAttempt(d, open)
    ensures Orderly(BeforeCleanup(d, open))
  {
    var d1 := MarkDeleting(d);
    assert d1.leases == d.leases;
    MarkDeletingOrderly(d);
    if open.None? {
      ReleasedOrderly(d1);
    } else if !HasOpenLease(d1) {
      LostBeforeCleanup(d, open.value);
    }
  }

  lemma StageDeleteOrderly(d: Document, open: Option<AttemptId>)
    requires Good(d) && IsOpenAttempt(d, open)
    ensures Orderly(StageDelete(d, open))
  {
    if !BeingDeleted(d) {
      BeforeCleanupOrderly(d, open);
      var e0 := BeforeCleanup(d, open);
      StageDeleteIs(d, open);
      QueuedCleanupOrderly(e0, CleanupKey(e0.cycle), NewTask(if HasOpenLease(e0) then TaskPending else TaskQueued));
    }
  }

  // ---------------------------------------------------------------------------------------------
  // Recovery
  // ---------------------------------------------------------------------------------------------

  lemma TakeoverOrderly(d: Document, d1: Document)
    requires DocInv(d) && Orderly(d) && Orderly(d1) && d1.cycle == d.cycle
    ensures Orderly(OrElse(QueueCleanup(d1), d))
  {
    var key := CleanupKey(d1.cycle);
    var o := QueueCleanup(d1);
    if o.Committed? {
      assert o.document == PutTask(d1, key, o.document.tasks[key]) by {
        if key !in d1.tasks {
          FreshCleanup(d1);
        }
      }
      QueuedCleanupOrderly(d1, key, o.document.tasks[key]);
    }
  }

  lemma RecoverLeaseDeletingOrderly(d: Document, index: nat)
    requires Good(d) && index < |d.leases| && FindOpen(d.leases) == Some(index) && d.status.Deleting?
    ensures Orderly(RecoverExpiredLease(d, index))
  {
    var lease := d.leases[index];
    var key := lease.task;
    assert TaskInv(key, d.tasks[key]);
    CancelledWinds(d.tasks[key]);
    var d1 := PutTask(d, key, CancelIfRunning(CancelRunningAttempt(d.tasks[key])));
    var d2 := d1.(leases := d1.leases[index := lease.(released := Some(ByDeletion))],
                  current := Some(DeleteCleanup), retry := 0);
    OneTaskWinds(d, d2, key, None);
    WindsOrderly(d, d2, None);
    TakeoverOrderly(d, d2);
  }

  lemma RecoverLeaseOrderly(d: Document, index: nat)
    requires Good(d) && index < |d.leases|
    ensures Orderly(RecoverExpiredLease(d, index))
  {
    if IsOpen(d.leases[index]) {
      OnlyOpenLease(d, index);
      if d.status.Deleting? {
        RecoverLeaseDeletingOrderly(d, index);
      } else {
        var key := d.leases[index].task;
        assert TaskInv(key, d.tasks[key]);
        CancelledWinds(d.tasks[key]);
        var e := RecoverExpiredLease(d, index);
        OneTaskWinds(d, e, key, None);
        WindsOrderly(d, e, None);
      }
    }
  }

  lemma RecoverRunningStageOrderly(d: Document, a: AttemptId)
    requires Good(d) && HasAttempt(d, a) && IsStage(a.key) && d.status.Deleting?
    requires AttemptOf(d, a).status.Running? && d.tasks[a.key].status.TaskRunning? && !HasOpenLease(d)
    ensures Orderly(RecoverRunningWithoutLease(d, a))
  {
    var task := d.tasks[a.key];
    assert TaskInv(a.key, task);
    ClosedWinds(task, a.index, Cancelled);
    var d1 := PutTask(d, a.key, CloseAttempt(task, a.index, Cancelled).(status := TaskCancelled));
    var d2 := d1.(current := Some(DeleteCleanup), retry := 0);
    OneTaskWinds(d, d2, a.key, None);
    WindsOrderly(d, d2, None);
    TakeoverOrderly(d, d2);
  }

  lemma RecoverRunningOrderly(d: Document, a: AttemptId)
    requires Good(d) && HasAttempt(d, a)
    ensures Orderly(RecoverRunningWithoutLease(d, a))
  {
    var task := d.tasks[a.key];
    if AttemptOf(d, a).status.Running? && task.status.TaskRunning? && !HasOpenLease(d) {
      if d.status.Deleting? && IsStage(a.key) {
        RecoverRunningStageOrderly(d, a);
      } else {
        assert TaskInv(a.key, task);
        ClosedWinds(task, a.index, Cancelled);
        var e := RecoverRunningWithoutLease(d, a);
        OneTaskWinds(d, e, a.key, None);
        WindsOrderly(d, e, None);
      }
    }
  }

  // ---------------------------------------------------------------------------------------------
  // Beginning, advancing, publishing
  // ---------------------------------------------------------------------------------------------

  lemma BeginOrderly(d: Document, key: TaskKey)
    requires Good(d)
    ensures Orderly(BeginAttempt(d, key))
  {
    if CanBegin(d, key) {
      var e := BeginAttempt(d, key);
      assert TaskInv(key, d.tasks[key]);
      assert StagesInOrder(e) && LeaseInOrder(e);
      BegunAttempts(d, e, key);
    }
  }

  lemma BegunAttempts(d: Document, e: Document, key: TaskKey)
    requires Orderly(d) && key in d.tasks && key in e.tasks && e.tasks == d.tasks[key := e.tasks[key]]
    requires exists no :: e.tasks[key].attempts == d.tasks[key].attempts + [Attempt(no, Running, Working)]
    requires e == d.(tasks := e.tasks)
    ensures NoLostEmbed(e, None) && CountPublished(e)
  {
    forall i | 0 <= i < |AttemptsOf(e, Embed)|
      ensures if i < |AttemptsOf(d, Embed)| then AttemptsOf(e, Embed)[i] == AttemptsOf(d, Embed)[i]
              else AttemptsOf(e, Embed)[i].status.Running? && AttemptsOf(e, Embed)[i].worker.Working?
    {
    }
  }

  lemma AdmitOrderly(d: Document, now: int, seconds: nat, slotFree: bool)
    requires Good(d) && StageKey(Chunk) !in d.tasks
    ensures Orderly(AdmitParse(d, now, seconds, slotFree))
  {
  }

  lemma HeartbeatOrderly(d: Document, a: AttemptId, now: int, seconds: nat)
    requires Good(d) && HasAttempt(d, a) && a.key == StageKey(Embed) && AttemptOf(d, a).worker.Loaded?
    ensures var o := Heartbeat(d, a.key, now, seconds); o.Committed? ==> Orderly(o.document)
  {
  }

  /** `e` follows from `d` by the success of the stage of attempt `a`. */
  ghost predicate AdvancedWith(d: Document, e: Document, a: AttemptId) {
    && Advanced(d, e, a) && AttemptOf(d, a).status.Running? && !d.tasks[a.key].status.TaskSucceeded?
    && e.chunks == d.chunks && e.chunkCount == d.chunkCount
  }

  lemma AdvancedStages(d: Document, e: Document, a: AttemptId)
    requires HistoryInv(d) && LeaseInv(d) && StagesInOrder(d) && a.key.cycle == 0 && AdvancedWith(d, e, a)
    ensures StagesInOrder(e) && LeaseInOrder(e)
  {
    assert a.key == StageKey(a.key.kind);
    assert forall i :: 0 <= i < |d.leases| - 1 ==> !IsOpen(e.leases[i]);
  }

  lemma AdvancedEmbed(d: Document, e: Document, a: AttemptId)
    requires TasksInv(d) && Orderly(d) && a.key.cycle == 0 && AdvancedWith(d, e, a)
    requires a.key.kind.Embed? ==> AttemptOf(d, a).worker.Wrote?
    ensures NoLostEmbed(e, None) && CountPublished(e)
  {
    assert a.key == StageKey(a.key.kind);
    assert HasOpenLease(d);
    if a.key.kind.Embed? {
      forall i | 0 <= i < |AttemptsOf(e, Embed)|
        ensures AttemptsOf(e, Embed)[i].worker == AttemptsOf(d, Embed)[i].worker
        ensures i != a.index ==> AttemptsOf(e, Embed)[i] == AttemptsOf(d, Embed)[i]
      {
      }
    } else {
      assert AttemptsOf(e, Embed) == AttemptsOf(d, Embed) || AttemptsOf(e, Embed) == [];
    }
  }

  lemma AdvanceOrderly(d: Document, a: AttemptId, total: Option<nat>, processed: Option<nat>)
    requires Good(d) && HasAttempt(d, a) && IsStage(a.key) && !a.key.kind.Finalize?
    requires AttemptOf(d, a).status.Running?
    requires a.key.kind.Embed? ==> AttemptOf(d, a).worker.Wrote?
    ensures var o := Advance(d, a, total, processed); o.Committed? ==> Orderly(o.document)
  {
    var o := Advance(d, a, total, processed);
    if o.Committed? {
      AdvanceShape(d, a, total, processed);
      assert TaskInv(a.key, d.tasks[a.key]);
      AdvancedStages(d, o.document, a);
      AdvancedEmbed(d, o.document, a);
    }
  }

  lemma FailPublicationWinds(d: Document, a: AttemptId)
    requires Good(d) && HasAttempt(d, a) && a.key == StageKey(Finalize)
    ensures Winds(d, FailPublication(d, a), None)
  {
    ClosedWinds(d.tasks[a.key], a.index, Errored);
  }

  lemma FailPublicationOrderly(d: Document, a: AttemptId)
    requires Good(d) && HasAttempt(d, a) && a.key == StageKey(Finalize)
    ensures Orderly(FailPublication(d, a))
  {
    FailPublicationWinds(d, a);
    WindsOrderly(d, FailPublication(d, a), None);
  }

  lemma PublishChunksOrderly(d: Document, a: AttemptId)
    requires Good(d) && HasAttempt(d, a) && a.key == StageKey(Finalize)
    ensures Orderly(PublishChunks(d, a))
  {
    var e := PublishChunks(d, a);
    ClosedWinds(d.tasks[a.key], a.index, Succeeded);
    assert Winds(d, e, None);
    WindsOrderly(d, e, None);
  }

  /** Writing the chunks and the checkpoint. */
  lemma WriteChunksOrderly(d: Document, a: AttemptId)
    requires Good(d) && HasAttempt(d, a) && a.key == StageKey(Embed) && AttemptOf(d, a).worker.Loaded?
    ensures var o := WriteChunks(d, a, AttemptOf(d, a).worker.drafts);
            o.Committed? ==>
              && Orderly(o.document) && HasAttempt(o.document, a)
  {
    if Fence(d, a) {
      var e := WriteChunks(d, a, AttemptOf(d, a).worker.drafts).document;
      assert TaskInv(a.key, d.tasks[a.key]);
      assert AttemptsOf(e, Embed) == AttemptsOf(d, Embed);
      assert StageKey(Finalize) !in d.tasks;
      assert !d.status.Completed?;
    }
  }

  // ---------------------------------------------------------------------------------------------
  // The worker's memory
  // ---------------------------------------------------------------------------------------------

  /** What the worker of `a` may come to hold. */
  ghost predicate WorkerFits(d: Document, a: AttemptId, worker: Worker)
    requires HasAttempt(d, a)
  {
    a.key == StageKey(Embed) && HasOpenLease(d) && (worker.Working? || worker.Loaded?) ==> AttemptOf(d, a).status.Running?
  }

  lemma SetWorkerOrderly(d: Document, a: AttemptId, worker: Worker)
    requires OrderlyBut(d, Some(a)) && HasAttempt(d, a) && WorkerFits(d, a, worker)
    ensures Orderly(SetWorker(d, a, worker))
  {
    var e := SetWorker(d, a, worker);
    assert |AttemptsOf(e, Embed)| == |AttemptsOf(d, Embed)|;
    forall i | 0 <= i < |AttemptsOf(e, Embed)|
      ensures AttemptsOf(e, Embed)[i] == if a == AttemptId(StageKey(Embed), i)
                                         then AttemptsOf(d, Embed)[i].(worker := worker) else AttemptsOf(d, Embed)[i]
    {
    }
  }

  // ---------------------------------------------------------------------------------------------
  // Every step
  // ---------------------------------------------------------------------------------------------

  /** A parse lease is acquired although the parse stage has been completed: its successor exists. */
  predicate LateAdmission(d: Document, step: DocStep, slotFree: bool) {
    && step.Admit? && slotFree && !HasOpenLease(d) && (d.status.Queued? || d.status.Processing?)
    && StageKey(Chunk) in d.tasks
  }

  lemma ConcludeOrderly(d: Document, a: AttemptId, outcome: Outcome, onCommit: Worker, onRefusal: Worker)
    requires Orderly(d) && HasAttempt(d, a)
    requires outcome.Committed? ==>
               Orderly(outcome.document) && HasAttempt(outcome.document, a) && WorkerFits(outcome.document, a, onCommit)
    requires WorkerFits(d, a, onRefusal)
    ensures Orderly(Conclude(d, a, outcome, onCommit, onRefusal))
  {
    match outcome
    case Committed(after) => SetWorkerOrderly(after, a, onCommit);
    case Replayed => SetWorkerOrderly(d, a, Done);
    case Refused => SetWorkerOrderly(d, a, onRefusal);
  }

  lemma FinalizeOrderly(d: Document, a: AttemptId, expected: Option<nat>)
    requires Good(d) && HasAttempt(d, a) && a.key.kind.Finalize? && AttemptOf(d, a).status.Running? && !BeingDeleted(d)
    ensures Orderly(CompleteFinalize(d, a, expected))
  {
    assert TaskInv(a.key, d.tasks[a.key]);
    FailPublicationOrderly(d, a);
    PublishChunksOrderly(d, a);
  }

  lemma CompleteStageOrderly(d: Document, a: AttemptId, total: Option<nat>, processed: Option<nat>, expected: Option<nat>)
    requires Good(d) && HasAttempt(d, a) && IsStage(a.key)
    requires a.key.kind.Embed? ==> AttemptOf(d, a).worker.Wrote?
    ensures var o := CompleteStage(d, a, total, processed, expected); o.Committed? ==> Orderly(o.document)
  {
    assert TaskInv(a.key, d.tasks[a.key]);
    if AttemptOf(d, a).status.Running? && d.tasks[a.key].status.TaskRunning? && !BeingDeleted(d) {
      if a.key.kind.Finalize? {
        FinalizeOrderly(d, a, expected);
      } else {
        AdvanceOrderly(d, a, total, processed);
      }
    }
  }

  lemma NewResultGood(d: Document, text: string)
    requires Good(d) && !d.status.Pending? && !BeingDeleted(d)
    ensures Good(d.(parseResults := d.parseResults + [text]))
  {
    var e := d.(parseResults := d.parseResults + [text]);
    NoTaskKeeps(d, e);
    assert Winds(d, e, None);
    WindsOrderly(d, e, None);
  }

  lemma NewDraftsGood(d: Document, pieces: seq<string>)
    requires Good(d) && !d.status.Pending? && !BeingDeleted(d)
    ensures Good(d.(drafts := pieces))
  {
    NoTaskKeeps(d, d.(drafts := pieces));
  }

  /** New parse results or new drafts leave the document good. */
  lemma NewDataGood(d: Document, a: AttemptId, text: string, pieces: seq<string>)
    requires Good(d) && HasAttempt(d, a) && Fence(d, a) && IsStage(a.key)
    ensures Good(d.(parseResults := d.parseResults + [text])) && Good(d.(drafts := pieces))
  {
    assert TaskInv(a.key, d.tasks[a.key]);
    NewResultGood(d, text);
    NewDraftsGood(d, pieces);
  }

  lemma CommitsOrderly(d: Document, a: AttemptId, text: string, pieces: seq<string>)
    requires Good(d) && HasAttempt(d, a) && (a.key.kind.Parse? || a.key.kind.Chunk?)
    ensures var o := CommitParse(d, a, text); o.Committed? ==> Orderly(o.document)
    ensures a.key.kind.Chunk? ==> var o := CommitChunk(d, a, pieces); o.Committed? ==> Orderly(o.document)
  {
    if Fence(d, a) {
      NewDataGood(d, a, text, pieces);
      CompleteStageOrderly(d.(parseResults := d.parseResults + [text]), a, Some(1), Some(1), None);
      if a.key.kind.Chunk? {
        CompleteStageOrderly(d.(drafts := pieces), a, Some(|pieces|), Some(|pieces|), None);
      }
    }
  }

  lemma SaveChunksOrderly(d: Document, a: AttemptId)
    requires Good(d) && HasAttempt(d, a) && a.key == StageKey(Embed) && AttemptOf(d, a).worker.Loaded?
    ensures var drafts := AttemptOf(d, a).worker.drafts;
            Orderly(Conclude(d, a, WriteChunks(d, a, drafts), Wrote(|drafts|), Rejected))
  {
    WriteChunksOrderly(d, a);
    var drafts := AttemptOf(d, a).worker.drafts;
    ConcludeOrderly(d, a, WriteChunks(d, a, drafts), Wrote(|drafts|), Rejected);
  }

  lemma ReadingOrderly(d: Document, a: AttemptId, step: DocStep, now: int, seconds: nat)
    requires Good(d) && StepAttempt(step) == Some(a) && Enabled(d, step) && IsReading(step)
    ensures Orderly(WorkerStep(d, a, step, now, seconds))
  {
    assert TaskInv(a.key, d.tasks[a.key]);
    match step
    case ReadOriginal(_, text) => SetWorkerOrderly(d, a, Parsed(text));
    case CheckLease(_) => SetWorkerOrderly(d, a, if HasOpenLease(d) then Leased else Rejected);
    case ReadText(_) =>
      if d.parseResults != [] {
        SetWorkerOrderly(d, a, Read(LastText(d)));
      }
    case LoadDrafts(_) =>
      assert AttemptsOf(d, Embed)[a.index] == AttemptOf(d, a);
      SetWorkerOrderly(d, a, Loaded(d.drafts, 0));
    case ReadCheckpoint(_) => SetWorkerOrderly(d, a, Expecting(EmbedCheckpoint(d)));
  }

  lemma SaveParseOrderly(d: Document, a: AttemptId, text: string)
    requires Good(d) && HasAttempt(d, a) && a.key.kind.Parse?
    ensures Orderly(Conclude(d, a, CommitParse(d, a, text), Done, Rejected))
  {
    CommitsOrderly(d, a, text, []);
    ConcludeOrderly(d, a, CommitParse(d, a, text), Done, Rejected);
  }

  lemma SaveDraftsOrderly(d: Document, a: AttemptId, pieces: seq<string>)
    requires Good(d) && HasAttempt(d, a) && a.key.kind.Chunk?
    ensures Orderly(Conclude(d, a, CommitChunk(d, a, pieces), Done, Rejected))
  {
    CommitsOrderly(d, a, [], pieces);
    ConcludeOrderly(d, a, CommitChunk(d, a, pieces), Done, Rejected);
  }

  lemma WritingOrderly(d: Document, a: AttemptId, step: DocStep, now: int, seconds: nat)
    requires Good(d) && StepAttempt(step) == Some(a) && Enabled(d, step) && IsStage(a.key)
    requires !IsEnding(step) && !IsReading(step)
    ensures Orderly(WorkerStep(d, a, step, now, seconds))
  {
    assert TaskInv(a.key, d.tasks[a.key]);
    match step
    case SaveParse(_) => SaveParseOrderly(d, a, AttemptOf(d, a).worker.text);
    case SaveDrafts(_) => SaveDraftsOrderly(d, a, Pieces(AttemptOf(d, a).worker.text));
    case Renew(_) => RenewOrderly(d, a, now, seconds);
    case SaveChunks(_) => SaveChunksOrderly(d, a);
  }

  lemma RenewOrderly(d: Document, a: AttemptId, now: int, seconds: nat)
    requires Good(d) && HasAttempt(d, a) && a.key == StageKey(Embed) && AttemptOf(d, a).worker.Loaded?
    ensures Orderly(Conclude(d, a, Heartbeat(d, a.key, now, seconds), NextBatch(AttemptOf(d, a).worker), Rejected))
  {
    HeartbeatOrderly(d, a, now, seconds);
    assert AttemptsOf(d, Embed)[a.index] == AttemptOf(d, a);
    ConcludeOrderly(d, a, Heartbeat(d, a.key, now, seconds), NextBatch(AttemptOf(d, a).worker), Rejected);
  }

  lemma FinishEmbedOrderly(d: Document, a: AttemptId)
    requires Good(d) && HasAttempt(d, a) && a.key.kind.Embed? && AttemptOf(d, a).worker.Wrote?
    ensures var count := AttemptOf(d, a).worker.count;
            Orderly(Conclude(d, a, CompleteStage(d, a, Some(count), Some(count), None), Done, Done))
  {
    var count := AttemptOf(d, a).worker.count;
    CompleteStageOrderly(d, a, Some(count), Some(count), None);
    ConcludeOrderly(d, a, CompleteStage(d, a, Some(count), Some(count), None), Done, Done);
  }

  lemma PublishOrderly(d: Document, a: AttemptId, count: nat)
    requires Good(d) && HasAttempt(d, a) && a.key.kind.Finalize?
    ensures Orderly(Conclude(d, a, CompleteStage(d, a, None, None, Some(count)), Done, Rejected))
  {
    CompleteStageOrderly(d, a, None, None, Some(count));
    ConcludeOrderly(d, a, CompleteStage(d, a, None, None, Some(count)), Done, Rejected);
  }

  lemma FailOrderly(d: Document, a: AttemptId, code: Option<nat>)
    requires Good(d) && HasAttempt(d, a) && IsStage(a.key)
    ensures Orderly(SetWorker(FailStage(d, a, code), a, Done))
  {
    FailStageOrderly(d, a, code);
    SetWorkerOrderly(FailStage(d, a, code), a, Done);
  }

  lemma EndingOrderly(d: Document, a: AttemptId, step: DocStep, now: int, seconds: nat)
    requires Good(d) && StepAttempt(step) == Some(a) && Enabled(d, step) && IsStage(a.key) && IsEnding(step)
    ensures Orderly(WorkerStep(d, a, step, now, seconds))
  {
    match step
    case FinishEmbed(_) => FinishEmbedOrderly(d, a);
    case Publish(_) => PublishOrderly(d, a, AttemptOf(d, a).worker.count);
    case Fail(_, code) => FailOrderly(d, a, code);
    case Converge(_) =>
      ConvergeOrderly(d, a);
      SetWorkerOrderly(ConvergeCancelled(d, a), a, Done);
  }

  lemma CleanupWorkerOrderly(d: Document, a: AttemptId, step: DocStep, now: int, seconds: nat)
    requires Good(d) && StepAttempt(step) == Some(a) && Enabled(d, step) && !IsStage(a.key)
    ensures Orderly(WorkerStep(d, a, step, now, seconds))
  {
    match step
    case LookUp(_) => SetWorkerOrderly(d, a, if d.status.Deleted? then SawDeleted else SawLive);
    case RemoveOriginal(_) => SetWorkerOrderly(d.(original := false), a, Removed);
    case FinishDelete(_) =>
      FinishCleanupOrderly(d, a);
      SetWorkerOrderly(FinishCleanup(d, a), a, Done);
      SetWorkerOrderly(FinishCleanupAgain(d, a), a, Done);
    case FailDelete(_) =>
      FailCleanupOrderly(d, a);
      SetWorkerOrderly(FailCleanup(d, a), a, Done);
  }

  lemma OtherStepOrderly(d: Document, step: DocStep, now: int, seconds: nat, slotFree: bool)
    requires Good(d) && Enabled(d, step) && StepAttempt(step).None? && !LateAdmission(d, step, slotFree)
    ensures Orderly(DocNext(d, step, now, seconds, slotFree))
  {
    match step
    case Coordinate => MarkQueuedOrderly(d);
    case CompensateUpload => CompensateOrderly(d);
    case Admit =>
      if slotFree && !HasOpenLease(d) && (d.status.Queued? || d.status.Processing?) {
        AdmitOrderly(d, now, seconds, slotFree);
      }
    case Begin(key) => BeginOrderly(d, key);
    case Delete(open) => StageDeleteOrderly(d, open);
    case TakeOverLease(index) => RecoverLeaseOrderly(d, index);
    case TakeOverAttempt(a) => RecoverRunningOrderly(d, a);
    case _ =>
  }

  lemma StepOrderly(d: Document, step: DocStep, now: int, seconds: nat, slotFree: bool)
    requires Good(d) && !LateAdmission(d, step, slotFree)
    ensures Orderly(DocNext(d, step, now, seconds, slotFree))
  {
    if Enabled(d, step) {
      match StepAttempt(step)
      case Some(a) =>
        if !IsStage(a.key) {
          CleanupWorkerOrderly(d, a, step, now, seconds);
        } else if IsEnding(step) {
          EndingOrderly(d, a, step, now, seconds);
        } else if IsReading(step) {
          ReadingOrderly(d, a, step, now, seconds);
        } else {
          WritingOrderly(d, a, step, now, seconds);
        }
      case None => OtherStepOrderly(d, step, now, seconds, slotFree);
    }
  }

  // ---------------------------------------------------------------------------------------------
  // Every run
  // ---------------------------------------------------------------------------------------------

  /** A step keeps a good document orderly exactly when it is not a late admission. */
  lemma OrderlyExactly(d: Document, step: DocStep, now: int, seconds: nat, slotFree: bool)
    requires Good(d)
    ensures Orderly(DocNext(d, step, now, seconds, slotFree)) <==> !LateAdmission(d, step, slotFree)
  {
    if LateAdmission(d, step, slotFree) {
      var e := AdmitParse(d, now, seconds, slotFree);
      assert FindOpen(e.leases) == Some(|d.leases|);
      assert !LeaseInOrder(e);
    } else {
      StepOrderly(d, step, now, seconds, slotFree);
    }
  }

  /** The event acquires a parse lease for document `id` after its parse stage. */
  predicate AdmitsLate(c: Config, s: System, event: Event, id: nat) {
    && event.On? && event.id == id && id in s.docs
    && LateAdmission(s.docs[id], event.step, SlotFree(c, s, id))
  }

  ghost predicate NoLateAdmission(c: Config, run: seq<Event>, id: nat) {
    forall k :: 0 <= k < |run| ==> !AdmitsLate(c, Reached(c, run[..k]), run[k], id)
  }

  lemma NewDocumentOrderly(user: nat)
    ensures Orderly(NewDocument(user))
  {
  }

  lemma NextOrderly(c: Config, s: System, event: Event, id: nat)
    requires id in s.docs ==> Good(s.docs[id])
    requires !AdmitsLate(c, s, event, id)
    ensures id in Next(c, s, event).docs ==> Orderly(Next(c, s, event).docs[id])
  {
    if event.Upload? {
      NewDocumentOrderly(event.user);
    } else if event.On? && event.id == id && id in s.docs {
      StepOrderly(s.docs[id], event.step, s.now, c.leaseSeconds, SlotFree(c, s, id));
    }
  }

  lemma {:induction false} OrderlyReachable(c: Config, run: seq<Event>, id: nat)
    requires NoLateAdmission(c, run, id)
    ensures id in Reached(c, run).docs ==> Good(Reached(c, run).docs[id])
  {
    Reachable(c, run);
    if run != [] {
      var front := run[..|run| - 1];
      forall k | 0 <= k < |front|
        ensures !AdmitsLate(c, Reached(c, front[..k]), front[k], id)
      {
        assert front[..k] == run[..k];
      }
      OrderlyReachable(c, front, id);
      assert front == run[..|run| - 1];
      NextOrderly(c, Reached(c, front), run[|run| - 1], id);
    }
  }

  lemma OneStage(d: Document, a: AttemptId, b: AttemptId)
    requires Good(d) && HasAttempt(d, a) && HasAttempt(d, b) && IsStage(a.key) && IsStage(b.key)
    requires AttemptOf(d, a).status.Running? && AttemptOf(d, b).status.Running?
    ensures a == b
  {
    assert TaskInv(a.key, d.tasks[a.key]) && TaskInv(b.key, d.tasks[b.key]);
    assert a.key == StageKey(a.key.kind) && b.key == StageKey(b.key.kind);
  }

  /** Without late admissions at most one stage attempt of a document is running at any time. */
  lemma AtMostOneStageRuns(c: Config, run: seq<Event>, id: nat, a: AttemptId, b: AttemptId)
    requires NoLateAdmission(c, run, id) && id in Reached(c, run).docs
    requires var d := Reached(c, run).docs[id];
             && HasAttempt(d, a) && IsStage(a.key) && AttemptOf(d, a).status.Running?
             && HasAttempt(d, b) && IsStage(b.key) && AttemptOf(d, b).status.Running?
    ensures a == b
  {
    OrderlyReachable(c, run, id);
    OneStage(Reached(c, run).docs[id], a, b);
  }

  /** Without late admissions a COMPLETED document advertises exactly its chunk rows, even if it was deleted
      before and came back. */
  lemma PublishedCount(c: Config, run: seq<Event>, id: nat)
    requires NoLateAdmission(c, run, id) && id in Reached(c, run).docs
    requires Reached(c, run).docs[id].status.Completed?
    ensures Reached(c, run).docs[id].chunkCount == |Reached(c, run).docs[id].chunks|
  {
    OrderlyReachable(c, run, id);
  }
}
