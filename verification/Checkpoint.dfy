/** The checkpoint of the embed stage: processed_items counts the chunk rows in every reachable state. */
module Checkpoint {
  import opened Rows
  import opened Transactions
  import opened Protocol
  import opened Invariant
  import opened Runs

  function AttemptsOf(d: Document, kind: TaskType): seq<Attempt> {
    if StageKey(kind) in d.tasks then d.tasks[StageKey(kind)].attempts else []
  }

  /** Until the document is first deleted, the chunk rows are as many as the embed task's
      processed_items; and the running embed attempt that has written knows their number. */
  ghost predicate CheckpointInv(d: Document) {
    d.cycle == 0 ==>
      && |d.chunks| == EmbedCheckpoint(d)
      && forall i :: 0 <= i < |AttemptsOf(d, Embed)| ==>
           var attempt := AttemptsOf(d, Embed)[i];
           attempt.status.Running? && attempt.worker.Wrote? ==> attempt.worker.count == |d.chunks|
  }

  /** No attempt is added or starts running and no worker moves. */
  ghost predicate AttemptsWind(s: seq<Attempt>, t: seq<Attempt>) {
    && |t| == |s|
    && forall i :: 0 <= i < |s| ==> t[i].worker == s[i].worker && (t[i].status.Running? ==> s[i].status.Running?)
  }

  /** The embed task may lose its running attempt; its checkpoint and the chunk rows stay, unless the
      document is being deleted. */
  ghost predicate CheckpointStays(d: Document, e: Document) {
    && d.cycle <= e.cycle
    && (e.cycle == 0 ==> e.chunks == d.chunks)
    && EmbedCheckpoint(e) == EmbedCheckpoint(d)
    && AttemptsWind(AttemptsOf(d, Embed), AttemptsOf(e, Embed))
  }

  lemma StaysInv(d: Document, e: Document)
    requires CheckpointInv(d) && CheckpointStays(d, e)
    ensures CheckpointInv(e)
  {
  }

  lemma StaysTransitive(d: Document, e: Document, f: Document)
    requires CheckpointStays(d, e) && CheckpointStays(e, f)
    ensures CheckpointStays(d, f)
  {
  }

  lemma ClosedWinds(task: Task, index: nat, status: AttemptStatus)
    requires index < |task.attempts| && !status.Running?
    ensures AttemptsWind(task.attempts, CloseAttempt(task, index, status).attempts)
  {
  }

  lemma CancelledWinds(task: Task)
    ensures AttemptsWind(task.attempts, CancelRunningAttempt(task).attempts)
  {
  }

  /** One task row changes and keeps its checkpoint. */
  lemma OneTaskStays(d: Document, e: Document, key: TaskKey)
    requires key in d.tasks && key in e.tasks && e.tasks == d.tasks[key := e.tasks[key]]
    requires AttemptsWind(d.tasks[key].attempts, e.tasks[key].attempts)
    requires key == StageKey(Embed) ==> e.tasks[key].processed == d.tasks[key].processed
    requires d.cycle <= e.cycle && (e.cycle == 0 ==> e.chunks == d.chunks)
    ensures CheckpointStays(d, e)
  {
  }

  lemma QueueCleanupStays(d: Document)
    ensures CheckpointStays(d, OrElse(QueueCleanup(d), d)) && CheckpointStays(d, OrElse(ActivateCleanup(d), d))
  {
  }

  lemma MarkDeletingStays(d: Document)
    ensures CheckpointStays(d, MarkDeleting(d))
  {
    assert AttemptsOf(MarkDeleting(d), Embed) == AttemptsOf(d, Embed);
    assert EmbedCheckpoint(MarkDeleting(d)) == EmbedCheckpoint(d);
  }

  lemma BeforeCleanupStays(d: Document, open: Option<AttemptId>)
    requires IsOpenAttempt(d, open)
    ensures CheckpointStays(d, BeforeCleanup(d, open))
  {
    var d1 := MarkDeleting(d);
    MarkDeletingStays(d);
    if open.Some? && !HasOpenLease(d1) {
      var a := open.value;
      ClosedWinds(d1.tasks[a.key], a.index, Cancelled);
      OneTaskStays(d1, CancelLost(d1, a), a.key);
      StaysTransitive(d, d1, CancelLost(d1, a));
    }
  }

  lemma StageDeleteStays(d: Document, open: Option<AttemptId>)
    requires IsOpenAttempt(d, open)
    ensures CheckpointStays(d, StageDelete(d, open))
  {
    if !BeingDeleted(d) {
      var d1 := BeforeCleanup(d, open);
      BeforeCleanupStays(d, open);
      QueueCleanupStays(d1);
      StaysTransitive(d, d1, OrElse(QueueCleanup(d1), d1));
      StaysTransitive(d, d1, OrElse(ActivateCleanup(d1), d1));
    }
  }

  lemma RecoverLeaseStays(d: Document, index: nat)
    requires index < |d.leases|
    ensures CheckpointStays(d, RecoverExpiredLease(d, index))
  {
    var lease := d.leases[index];
    if IsOpen(lease) && lease.task in d.tasks {
      CancelledWinds(d.tasks[lease.task]);
      if d.status.Deleting? {
        var d1 := PutTask(d, lease.task, CancelIfRunning(CancelRunningAttempt(d.tasks[lease.task])));
        var d2 := d1.(leases := d1.leases[index := lease.(released := Some(ByDeletion))],
                      current := Some(DeleteCleanup), retry := 0);
        OneTaskStays(d, d2, lease.task);
        QueueCleanupStays(d2);
        StaysTransitive(d, d2, OrElse(QueueCleanup(d2), d2));
      } else {
        OneTaskStays(d, RecoverExpiredLease(d, index), lease.task);
      }
    } else if IsOpen(lease) && d.status.Deleting? {
      QueueCleanupStays(d.(leases := d.leases[index := lease.(released := Some(ByDeletion))],
                           current := Some(DeleteCleanup), retry := 0));
    }
  }

  lemma RecoverRunningStays(d: Document, a: AttemptId)
    requires HasAttempt(d, a)
    ensures CheckpointStays(d, RecoverRunningWithoutLease(d, a))
  {
    var task := d.tasks[a.key];
    ClosedWinds(task, a.index, Cancelled);
    if d.status.Deleting? && IsStage(a.key) {
      var d1 := PutTask(d, a.key, CloseAttempt(task, a.index, Cancelled).(status := TaskCancelled));
      var d2 := d1.(current := Some(DeleteCleanup), retry := 0);
      OneTaskStays(d, d2, a.key);
      QueueCleanupStays(d2);
      StaysTransitive(d, d2, OrElse(QueueCleanup(d2), d2));
    } else if AttemptOf(d, a).status.Running? && task.status.TaskRunning? && !HasOpenLease(d) {
      OneTaskStays(d, RecoverRunningWithoutLease(d, a), a.key);
    }
  }

  lemma FailStageStays(d: Document, a: AttemptId, code: Option<nat>)
    requires HasAttempt(d, a)
    ensures CheckpointStays(d, FailStage(d, a, code))
  {
    ClosedWinds(d.tasks[a.key], a.index, Errored);
    if AttemptOf(d, a).status.Running? {
      OneTaskStays(d, FailStage(d, a, code), a.key);
    }
  }

  lemma ConvergeStays(d: Document, a: AttemptId)
    requires HasAttempt(d, a)
    ensures CheckpointStays(d, ConvergeCancelled(d, a))
  {
    ClosedWinds(d.tasks[a.key], a.index, Cancelled);
    if AttemptOf(d, a).status.Running? {
      OneTaskStays(d, CancelLost(d, a), a.key);
    }
  }

  lemma FinalizeStays(d: Document, a: AttemptId, expected: Option<nat>)
    requires HasAttempt(d, a) && a.key.kind.Finalize?
    ensures CheckpointStays(d, CompleteFinalize(d, a, expected))
  {
    ClosedWinds(d.tasks[a.key], a.index, Errored);
    ClosedWinds(d.tasks[a.key], a.index, Succeeded);
    OneTaskStays(d, CompleteFinalize(d, a, expected), a.key);
  }

  // ---------------------------------------------------------------------------------------------
  // The steps that touch the checkpoint
  // ---------------------------------------------------------------------------------------------

  lemma BeginCheckpoint(d: Document, key: TaskKey)
    requires CheckpointInv(d)
    ensures CheckpointInv(BeginAttempt(d, key))
  {
    var e := BeginAttempt(d, key);
    if CanBegin(d, key) {
      forall i | 0 <= i < |AttemptsOf(e, Embed)|
        ensures (i < |AttemptsOf(d, Embed)| && AttemptsOf(e, Embed)[i] == AttemptsOf(d, Embed)[i])
                || AttemptsOf(e, Embed)[i].worker.Working?
      {
      }
    }
  }

  lemma SetWorkerCheckpoint(d: Document, a: AttemptId, worker: Worker)
    requires CheckpointInv(d) && HasAttempt(d, a)
    requires worker.Wrote? && d.cycle == 0 && a.key == StageKey(Embed) ==> worker.count == |d.chunks|
    ensures CheckpointInv(SetWorker(d, a, worker))
  {
    var e := SetWorker(d, a, worker);
    assert |AttemptsOf(e, Embed)| == |AttemptsOf(d, Embed)|;
    forall i | 0 <= i < |AttemptsOf(e, Embed)|
      ensures AttemptsOf(e, Embed)[i] == if a == AttemptId(StageKey(Embed), i)
                                         then AttemptsOf(d, Embed)[i].(worker := worker) else AttemptsOf(d, Embed)[i]
    {
    }
  }

  lemma ConcludeCheckpoint(d: Document, a: AttemptId, outcome: Outcome, onCommit: Worker, onRefusal: Worker)
    requires CheckpointInv(d) && HasAttempt(d, a) && !onCommit.Wrote? && !onRefusal.Wrote?
    requires outcome.Committed? ==> CheckpointInv(outcome.document) && HasAttempt(outcome.document, a)
    ensures CheckpointInv(Conclude(d, a, outcome, onCommit, onRefusal))
  {
    match outcome
    case Committed(after) => SetWorkerCheckpoint(after, a, onCommit);
    case Replayed => SetWorkerCheckpoint(d, a, Done);
    case Refused => SetWorkerCheckpoint(d, a, onRefusal);
  }

  lemma AdvancedCheckpoint(d: Document, e: Document, a: AttemptId)
    requires TasksInv(d) && CheckpointInv(d) && Advanced(d, e, a) && e.chunks == d.chunks && a.key.cycle == 0
    requires AttemptOf(d, a).status.Running?
    requires a.key == StageKey(Embed) ==>
               AttemptOf(d, a).worker.Wrote? && e.tasks[a.key].processed == AttemptOf(d, a).worker.count
    ensures CheckpointInv(e)
  {
    assert a.key == StageKey(a.key.kind);
    if a.key.kind.Embed? {
      assert AttemptsOf(d, Embed)[a.index] == AttemptOf(d, a);
      forall i | 0 <= i < |AttemptsOf(e, Embed)|
        ensures !AttemptsOf(e, Embed)[i].status.Running?
      {
        assert TaskInv(a.key, d.tasks[a.key]);
      }
    } else {
      assert AttemptsOf(e, Embed) == AttemptsOf(d, Embed) || AttemptsOf(e, Embed) == [];
      assert EmbedCheckpoint(e) == EmbedCheckpoint(d);
    }
  }

  lemma CompleteStageCheckpoint(d: Document, a: AttemptId, total: Option<nat>, processed: Option<nat>,
                                expected: Option<nat>)
    requires TasksInv(d) && CheckpointInv(d) && HasAttempt(d, a) && IsStage(a.key)
    requires a.key.kind.Embed? ==> AttemptOf(d, a).worker.Wrote? && processed == Some(AttemptOf(d, a).worker.count)
    ensures var o := CompleteStage(d, a, total, processed, expected); o.Committed? ==> CheckpointInv(o.document)
  {
    var o := CompleteStage(d, a, total, processed, expected);
    if o.Committed? {
      assert TaskInv(a.key, d.tasks[a.key]);
      if a.key.kind.Finalize? {
        FinalizeStays(d, a, expected);
        StaysInv(d, o.document);
      } else {
        AdvanceShape(d, a, total, processed);
        AdvancedCheckpoint(d, o.document, a);
      }
    }
  }

  lemma SaveChunksCheckpoint(d: Document, a: AttemptId, chunks: seq<string>)
    requires TasksInv(d) && CheckpointInv(d) && HasAttempt(d, a) && a.key == StageKey(Embed)
    requires AttemptOf(d, a).worker.Loaded?
    ensures CheckpointInv(Conclude(d, a, WriteChunks(d, a, chunks), Wrote(|chunks|), Rejected))
  {
    if Fence(d, a) {
      var e := WriteChunks(d, a, chunks).document;
      assert TaskInv(a.key, d.tasks[a.key]);
      assert AttemptsOf(d, Embed)[a.index] == AttemptOf(d, a);
      assert AttemptsOf(e, Embed) == AttemptsOf(d, Embed);
      SetWorkerCheckpoint(e, a, Wrote(|chunks|));
    } else {
      SetWorkerCheckpoint(d, a, Rejected);
    }
  }

  lemma CommitsCheckpoint(d: Document, a: AttemptId, text: string, pieces: seq<string>)
    requires TasksInv(d) && CheckpointInv(d) && HasAttempt(d, a) && (a.key.kind.Parse? || a.key.kind.Chunk?)
    ensures var o := CommitParse(d, a, text); o.Committed? ==> CheckpointInv(o.document)
    ensures var o := CommitChunk(d, a, pieces); o.Committed? ==> CheckpointInv(o.document)
  {
    var d1 := d.(parseResults := d.parseResults + [text]);
    StaysInv(d, d1);
    CompleteStageCheckpoint(d1, a, Some(1), Some(1), None);
    var d2 := d.(drafts := pieces);
    StaysInv(d, d2);
    CompleteStageCheckpoint(d2, a, Some(|pieces|), Some(|pieces|), None);
  }

  predicate IsEnding(step: DocStep) {
    step.FinishEmbed? || step.Publish? || step.Fail? || step.Converge?
  }

  predicate IsReading(step: DocStep) {
    step.ReadOriginal? || step.CheckLease? || step.ReadText? || step.LoadDrafts? || step.ReadCheckpoint?
  }

  lemma ReadingCheckpoint(d: Document, a: AttemptId, step: DocStep, now: int, seconds: nat)
    requires CheckpointInv(d) && StepAttempt(step) == Some(a) && Enabled(d, step) && IsReading(step)
    ensures CheckpointInv(WorkerStep(d, a, step, now, seconds))
  {
    match step
    case ReadOriginal(_, text) => SetWorkerCheckpoint(d, a, Parsed(text));
    case CheckLease(_) => SetWorkerCheckpoint(d, a, if HasOpenLease(d) then Leased else Rejected);
    case ReadText(_) =>
      if d.parseResults != [] {
        SetWorkerCheckpoint(d, a, Read(LastText(d)));
      }
    case LoadDrafts(_) => SetWorkerCheckpoint(d, a, Loaded(d.drafts, 0));
    case ReadCheckpoint(_) => SetWorkerCheckpoint(d, a, Expecting(EmbedCheckpoint(d)));
  }

  lemma WritingCheckpoint(d: Document, a: AttemptId, step: DocStep, now: int, seconds: nat)
    requires DocInv(d) && CheckpointInv(d) && StepAttempt(step) == Some(a) && Enabled(d, step) && IsStage(a.key)
    requires !IsEnding(step) && !IsReading(step)
    ensures CheckpointInv(WorkerStep(d, a, step, now, seconds))
  {
    var worker := AttemptOf(d, a).worker;
    assert TaskInv(a.key, d.tasks[a.key]);
    match step
    case SaveParse(_) => SaveParseCheckpoint(d, a, worker.text);
    case SaveDrafts(_) => SaveDraftsCheckpoint(d, a, Pieces(worker.text));
    case Renew(_) => RenewCheckpoint(d, a, now, seconds);
    case SaveChunks(_) => SaveChunksCheckpoint(d, a, worker.drafts);
  }

  lemma SaveParseCheckpoint(d: Document, a: AttemptId, text: string)
    requires DocInv(d) && CheckpointInv(d) && HasAttempt(d, a) && a.key.kind.Parse?
    ensures CheckpointInv(Conclude(d, a, CommitParse(d, a, text), Done, Rejected))
  {
    CommitsCheckpoint(d, a, text, []);
    ConcludeCheckpoint(d, a, CommitParse(d, a, text), Done, Rejected);
  }

  lemma SaveDraftsCheckpoint(d: Document, a: AttemptId, pieces: seq<string>)
    requires DocInv(d) && CheckpointInv(d) && HasAttempt(d, a) && a.key.kind.Chunk?
    ensures CheckpointInv(Conclude(d, a, CommitChunk(d, a, pieces), Done, Rejected))
  {
    CommitsCheckpoint(d, a, [], pieces);
    ConcludeCheckpoint(d, a, CommitChunk(d, a, pieces), Done, Rejected);
  }

  lemma RenewCheckpoint(d: Document, a: AttemptId, now: int, seconds: nat)
    requires CheckpointInv(d) && HasAttempt(d, a) && AttemptOf(d, a).worker.Loaded?
    ensures CheckpointInv(Conclude(d, a, Heartbeat(d, a.key, now, seconds), NextBatch(AttemptOf(d, a).worker), Rejected))
  {
    var o := Heartbeat(d, a.key, now, seconds);
    if o.Committed? {
      StaysInv(d, o.document);
    }
    ConcludeCheckpoint(d, a, o, NextBatch(AttemptOf(d, a).worker), Rejected);
  }

  lemma EndingCheckpoint(d: Document, a: AttemptId, step: DocStep, now: int, seconds: nat)
    requires DocInv(d) && CheckpointInv(d) && StepAttempt(step) == Some(a) && Enabled(d, step) && IsStage(a.key)
    requires IsEnding(step)
    ensures CheckpointInv(WorkerStep(d, a, step, now, seconds))
  {
    var worker := AttemptOf(d, a).worker;
    match step
    case FinishEmbed(_) =>
      CompleteStageCheckpoint(d, a, Some(worker.count), Some(worker.count), None);
      ConcludeCheckpoint(d, a, CompleteStage(d, a, Some(worker.count), Some(worker.count), None), Done, Done);
    case Publish(_) =>
      CompleteStageCheckpoint(d, a, None, None, Some(worker.count));
      ConcludeCheckpoint(d, a, CompleteStage(d, a, None, None, Some(worker.count)), Done, Rejected);
    case Fail(_, code) => FailedCheckpoint(d, a, code);
    case Converge(_) => FailedCheckpoint(d, a, None);
  }

  lemma FailedCheckpoint(d: Document, a: AttemptId, code: Option<nat>)
    requires DocInv(d) && CheckpointInv(d) && HasAttempt(d, a) && IsStage(a.key)
    ensures CheckpointInv(SetWorker(FailStage(d, a, code), a, Done))
    ensures CheckpointInv(SetWorker(ConvergeCancelled(d, a), a, Done))
  {
    FailStageStays(d, a, code);
    StaysInv(d, FailStage(d, a, code));
    SetWorkerCheckpoint(FailStage(d, a, code), a, Done);
    ConvergeStays(d, a);
    StaysInv(d, ConvergeCancelled(d, a));
    SetWorkerCheckpoint(ConvergeCancelled(d, a), a, Done);
  }

  lemma StepCheckpoint(d: Document, step: DocStep, now: int, seconds: nat, slotFree: bool)
    requires DocInv(d) && CheckpointInv(d)
    ensures CheckpointInv(DocNext(d, step, now, seconds, slotFree))
  {
    if Enabled(d, step) {
      match StepAttempt(step)
      case Some(a) =>
        if IsStage(a.key) {
          if IsEnding(step) {
            EndingCheckpoint(d, a, step, now, seconds);
          } else if IsReading(step) {
            ReadingCheckpoint(d, a, step, now, seconds);
          } else {
            WritingCheckpoint(d, a, step, now, seconds);
          }
        } else {
          CleanupHasCycle(d, a);
          CleanupWorkerKeeps(d, a, step, now, seconds);
        }
      case None =>
        match step
        case Begin(key) => BeginCheckpoint(d, key);
        case _ =>
          OtherStepStays(d, step, now, seconds, slotFree);
          StaysInv(d, DocNext(d, step, now, seconds, slotFree));
    }
  }

  lemma OtherStepStays(d: Document, step: DocStep, now: int, seconds: nat, slotFree: bool)
    requires Enabled(d, step) && StepAttempt(step).None? && !step.Begin?
    ensures CheckpointStays(d, DocNext(d, step, now, seconds, slotFree))
  {
    match step
    case Delete(open) => StageDeleteStays(d, open);
    case TakeOverLease(index) => RecoverLeaseStays(d, index);
    case TakeOverAttempt(a) => RecoverRunningStays(d, a);
    case _ =>
  }

  /** A clean-up worker exists only once the document has been deleted. */
  lemma CleanupHasCycle(d: Document, a: AttemptId)
    requires TasksInv(d) && HistoryInv(d) && HasAttempt(d, a) && !IsStage(a.key)
    ensures d.cycle > 0
  {
    assert TaskInv(a.key, d.tasks[a.key]);
    assert a.key == CleanupKey(a.key.cycle);
  }

  lemma {:induction false} CheckpointReachable(c: Config, run: seq<Event>, id: nat)
    requires id in Reached(c, run).docs
    ensures CheckpointInv(Reached(c, run).docs[id])
  {
    if run != [] {
      var front := run[..|run| - 1];
      var event := run[|run| - 1];
      var s := Reached(c, front);
      Reachable(c, front);
      if id in s.docs {
        CheckpointReachable(c, front, id);
        if event.On? && event.id == id {
          StepCheckpoint(s.docs[id], event.step, s.now, c.leaseSeconds, SlotFree(c, s, id));
        }
      }
    }
  }

  /** In every reachable state the chunk rows of a never-deleted document are exactly as many as the embed
      task's processed_items. */
  lemma ChunksMatchCheckpoint(c: Config, run: seq<Event>, id: nat)
    requires id in Reached(c, run).docs && Reached(c, run).docs[id].cycle == 0
    ensures var d := Reached(c, run).docs[id];
            |d.chunks| == if StageKey(Embed) in d.tasks then d.tasks[StageKey(Embed)].processed else 0
  {
    CheckpointReachable(c, run, id);
  }
}
