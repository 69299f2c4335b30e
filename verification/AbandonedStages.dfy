/** A stage task that recovery has requeued: when its next attempt is refused, and what becomes of the document
    after that. */
module AbandonedStages {
  import opened Rows
  import opened Transactions
  import opened Protocol
  import opened Shape
  import opened Invariant
  import opened Runs

  // ---------------------------------------------------------------------------------------------
  // The refusal
  // ---------------------------------------------------------------------------------------------

  /** The first thing a chunk worker, and before each batch an embed worker, asks for is the lease. */
  predicate AsksForLease(step: DocStep) {
    step.CheckLease? || step.Renew?
  }

  /** A lease is there to go on with; the heartbeat of an embed worker asks in addition for the status. */
  predicate MayGoOn(d: Document, step: DocStep) {
    HasOpenLease(d) && (step.Renew? ==> !BeingDeleted(d))
  }

  lemma AskedExactly(d: Document, step: DocStep, now: int, seconds: nat, slotFree: bool)
    requires AsksForLease(step) && Enabled(d, step)
    ensures var a := StepAttempt(step).value;
            var e := DocNext(d, step, now, seconds, slotFree);
            && HasAttempt(e, a) && (AttemptOf(e, a).worker.Rejected? <==> !MayGoOn(d, step))
            && AttemptOf(e, a).status == AttemptOf(d, a).status && e.tasks[a.key].status == d.tasks[a.key].status
            && (!MayGoOn(d, step) ==> e == SetWorker(d, a, Rejected))
  {
  }

  lemma ConvergedExactly(d: Document, a: AttemptId, now: int, seconds: nat, slotFree: bool)
    requires HasAttempt(d, a) && IsStage(a.key)
    requires AttemptOf(d, a).status.Running? && d.tasks[a.key].status.TaskRunning?
    ensures var e := DocNext(d, Converge(a), now, seconds, slotFree);
            && HasAttempt(e, a)
            && (!AttemptOf(d, a).worker.Rejected? ==> e == d)
            && e == d.(tasks := d.tasks[a.key := e.tasks[a.key]])
            && (e.tasks[a.key].status.TaskCancelled? <==> AttemptOf(d, a).worker.Rejected?)
            && (AttemptOf(e, a).status.Cancelled? <==> AttemptOf(d, a).worker.Rejected?)
  {
    assert d.tasks[a.key := d.tasks[a.key]] == d.tasks;
  }

  // ---------------------------------------------------------------------------------------------
  // An abandoned stage
  // ---------------------------------------------------------------------------------------------

  predicate NotNamed(d: Document, key: TaskKey) {
    forall i :: 0 <= i < |d.leases| && IsOpen(d.leases[i]) ==> d.leases[i].task != key
  }

  /** No worker of the task will send a heartbeat any more. */
  predicate NoHeartbeatLeft(attempts: seq<Attempt>) {
    forall i :: 0 <= i < |attempts| ==> !attempts[i].worker.Working? && !attempts[i].worker.Loaded?
  }

  predicate NoneSucceeded(attempts: seq<Attempt>) {
    forall i :: 0 <= i < |attempts| ==> !attempts[i].status.Succeeded?
  }

  /** The task ended without success; or, with `refused`, its last attempt has been refused and still runs. */
  predicate DoomedTask(kind: TaskType, task: Task, refused: bool) {
    && (task.status.TaskCancelled? || task.status.TaskFailed? || (refused && LastRefused(task)))
    && NoneSucceeded(task.attempts)
    && (kind.Embed? ==> NoHeartbeatLeft(task.attempts))
  }

  predicate LastRefused(task: Task) {
    task.status.TaskRunning? && LastRunning(task) && task.attempts[|task.attempts| - 1].worker.Rejected?
  }

  /** So it is with a stage after parse, and no open lease would let recovery requeue it. */
  predicate Doomed(d: Document, kind: TaskType, refused: bool) {
    && (kind.Chunk? || kind.Embed? || kind.Finalize?)
    && StageKey(kind) in d.tasks
    && DoomedTask(kind, d.tasks[StageKey(kind)], refused)
    && NotNamed(d, StageKey(kind))
  }

  /** The stage after parse ended without success, and no open lease would let recovery requeue it. */
  predicate Abandoned(d: Document, kind: TaskType) {
    Doomed(d, kind, false)
  }

  /** The worker of `a` is not the one that was refused: if it belongs to the stage, it is lost. */
  predicate Aside(d: Document, a: AttemptId, kind: TaskType) {
    HasAttempt(d, a) && (a.key == StageKey(kind) ==> !AttemptOf(d, a).status.Running?)
  }

  lemma OnlyRefusedRuns(d: Document, a: AttemptId, kind: TaskType, refused: bool)
    requires TasksInv(d) && Doomed(d, kind, refused) && HasAttempt(d, a) && !AttemptOf(d, a).worker.Rejected?
    ensures Aside(d, a, kind)
  {
    assert TaskInv(StageKey(kind), d.tasks[StageKey(kind)]);
  }

  lemma NeverCompleted(d: Document, kind: TaskType, refused: bool)
    requires HistoryInv(d) && Doomed(d, kind, refused)
    ensures !d.status.Completed?
  {
  }

  lemma SetWorkerDoomed(d: Document, a: AttemptId, worker: Worker, kind: TaskType, refused: bool)
    requires Doomed(d, kind, refused) && Aside(d, a, kind)
    requires kind.Embed? && a.key == StageKey(kind) ==> !worker.Working? && !worker.Loaded?
    ensures Doomed(SetWorker(d, a, worker), kind, refused)
  {
  }

  lemma ConcludeDoomed(d: Document, a: AttemptId, outcome: Outcome, onCommit: Worker, onRefusal: Worker,
                       kind: TaskType, refused: bool)
    requires Doomed(d, kind, refused) && Aside(d, a, kind)
    requires outcome.Committed? ==> Aside(outcome.document, a, kind) && Doomed(outcome.document, kind, refused)
    requires kind.Embed? && a.key == StageKey(kind) ==>
               && !onCommit.Working? && !onCommit.Loaded? && !onRefusal.Working? && !onRefusal.Loaded?
    ensures Doomed(Conclude(d, a, outcome, onCommit, onRefusal), kind, refused)
  {
    match outcome
    case Committed(after) => SetWorkerDoomed(after, a, onCommit, kind, refused);
    case Replayed => SetWorkerDoomed(d, a, Done, kind, refused);
    case Refused => SetWorkerDoomed(d, a, onRefusal, kind, refused);
  }

  /** Success of the stage before would need the next task unstarted, so it is refused. */
  lemma AdvanceDoomed(d: Document, a: AttemptId, total: Option<nat>, processed: Option<nat>, kind: TaskType,
                      refused: bool)
    requires Doomed(d, kind, refused) && HasAttempt(d, a) && IsStage(a.key) && !a.key.kind.Finalize?
             && a.key != StageKey(kind)
    ensures var o := Advance(d, a, total, processed); o.Committed? ==> Doomed(o.document, kind, refused)
  {
  }

  lemma ReleaseDoomed(d: Document, reason: ReleaseReason, kind: TaskType, refused: bool)
    requires Doomed(d, kind, refused)
    ensures Doomed(ReleaseLease(d, reason), kind, refused)
  {
  }

  lemma FinalizeDoomed(d: Document, a: AttemptId, expected: Option<nat>, kind: TaskType, refused: bool)
    requires Doomed(d, kind, refused) && HasAttempt(d, a) && a.key != StageKey(kind)
    ensures Doomed(CompleteFinalize(d, a, expected), kind, refused)
  {
  }

  lemma CompleteDoomed(d: Document, a: AttemptId, total: Option<nat>, processed: Option<nat>, expected: Option<nat>,
                          kind: TaskType, refused: bool)
    requires Doomed(d, kind, refused) && Aside(d, a, kind) && IsStage(a.key)
    ensures var o := CompleteStage(d, a, total, processed, expected);
            o.Committed? ==> Doomed(o.document, kind, refused) && Aside(o.document, a, kind)
  {
    if a.key != StageKey(kind) {
      if a.key.kind.Finalize? {
        FinalizeDoomed(d, a, expected, kind, refused);
      } else {
        AdvanceDoomed(d, a, total, processed, kind, refused);
      }
    }
  }

  lemma SaveParseDoomed(d: Document, a: AttemptId, text: string, kind: TaskType, refused: bool)
    requires Doomed(d, kind, refused) && Aside(d, a, kind) && a.key.kind.Parse?
    ensures Doomed(Conclude(d, a, CommitParse(d, a, text), Done, Rejected), kind, refused)
  {
    CompleteDoomed(d.(parseResults := d.parseResults + [text]), a, Some(1), Some(1), None, kind, refused);
    ConcludeDoomed(d, a, CommitParse(d, a, text), Done, Rejected, kind, refused);
  }

  lemma SaveDraftsDoomed(d: Document, a: AttemptId, pieces: seq<string>, kind: TaskType, refused: bool)
    requires Doomed(d, kind, refused) && Aside(d, a, kind) && a.key.kind.Chunk?
    ensures Doomed(Conclude(d, a, CommitChunk(d, a, pieces), Done, Rejected), kind, refused)
  {
    CompleteDoomed(d.(drafts := pieces), a, Some(|pieces|), Some(|pieces|), None, kind, refused);
    ConcludeDoomed(d, a, CommitChunk(d, a, pieces), Done, Rejected, kind, refused);
  }

  lemma WriteDoomed(d: Document, a: AttemptId, chunks: seq<string>, kind: TaskType, refused: bool)
    requires Doomed(d, kind, refused) && Aside(d, a, kind)
    ensures var o := WriteChunks(d, a, chunks);
            o.Committed? ==> Doomed(o.document, kind, refused) && Aside(o.document, a, kind)
  {
  }

  lemma FailDoomed(d: Document, a: AttemptId, code: Option<nat>, kind: TaskType, refused: bool)
    requires Doomed(d, kind, refused) && Aside(d, a, kind)
    ensures Doomed(FailStage(d, a, code), kind, refused) && Aside(FailStage(d, a, code), a, kind)
  {
  }

  /** The refused worker converges, or another one does. */
  lemma ConvergeDoomed(d: Document, a: AttemptId, kind: TaskType, refused: bool)
    requires TasksInv(d) && Doomed(d, kind, refused) && HasAttempt(d, a)
    ensures Doomed(SetWorker(ConvergeCancelled(d, a), a, Done), kind, refused)
    ensures a.key == StageKey(kind) && AttemptOf(d, a).status.Running? ==>
              Doomed(SetWorker(ConvergeCancelled(d, a), a, Done), kind, false)
  {
    assert TaskInv(StageKey(kind), d.tasks[StageKey(kind)]);
  }

  lemma HeartbeatDoomed(d: Document, a: AttemptId, now: int, seconds: nat, kind: TaskType, refused: bool)
    requires Doomed(d, kind, refused) && Aside(d, a, kind) && a.key.kind.Embed? && AttemptOf(d, a).worker.Loaded?
    ensures var o := Heartbeat(d, a.key, now, seconds);
            o.Committed? ==> Doomed(o.document, kind, refused) && Aside(o.document, a, kind)
    ensures a.key != StageKey(kind) || !kind.Embed?
  {
    assert d.tasks[a.key].attempts[a.index].worker.Loaded?;
  }

  /** The steps that complete or fail a stage. */
  predicate Ends(step: DocStep) {
    step.SaveParse? || step.SaveDrafts? || step.FinishEmbed? || step.Publish? || step.Fail? || step.Converge?
  }

  lemma EndDoomed(d: Document, a: AttemptId, step: DocStep, now: int, seconds: nat, kind: TaskType, refused: bool)
    requires TasksInv(d) && Doomed(d, kind, refused) && StepAttempt(step) == Some(a) && Enabled(d, step) && IsStage(a.key)
    requires Ends(step)
    ensures Doomed(WorkerStep(d, a, step, now, seconds), kind, refused)
  {
    var worker := AttemptOf(d, a).worker;
    if !worker.Rejected? {
      OnlyRefusedRuns(d, a, kind, refused);
    }
    match step
    case SaveParse(_) => SaveParseDoomed(d, a, worker.text, kind, refused);
    case SaveDrafts(_) => SaveDraftsDoomed(d, a, Pieces(worker.text), kind, refused);
    case FinishEmbed(_) =>
      CompleteDoomed(d, a, Some(worker.count), Some(worker.count), None, kind, refused);
      ConcludeDoomed(d, a, CompleteStage(d, a, Some(worker.count), Some(worker.count), None), Done, Done, kind, refused);
    case Publish(_) =>
      CompleteDoomed(d, a, None, None, Some(worker.count), kind, refused);
      ConcludeDoomed(d, a, CompleteStage(d, a, None, None, Some(worker.count)), Done, Rejected, kind, refused);
    case Fail(_, code) =>
      FailDoomed(d, a, code, kind, refused);
      SetWorkerDoomed(FailStage(d, a, code), a, Done, kind, refused);
    case Converge(_) => ConvergeDoomed(d, a, kind, refused);
  }

  lemma StageWorkerDoomed(d: Document, a: AttemptId, step: DocStep, now: int, seconds: nat, kind: TaskType, refused: bool)
    requires TasksInv(d) && Doomed(d, kind, refused) && StepAttempt(step) == Some(a) && Enabled(d, step) && IsStage(a.key)
    requires !Ends(step)
    ensures Doomed(WorkerStep(d, a, step, now, seconds), kind, refused)
  {
    var worker := AttemptOf(d, a).worker;
    OnlyRefusedRuns(d, a, kind, refused);
    match step
    case ReadOriginal(_, text) => SetWorkerDoomed(d, a, Parsed(text), kind, refused);
    case CheckLease(_) => SetWorkerDoomed(d, a, if HasOpenLease(d) then Leased else Rejected, kind, refused);
    case ReadText(_) =>
      if d.parseResults != [] {
        SetWorkerDoomed(d, a, Read(LastText(d)), kind, refused);
      }
    case LoadDrafts(_) =>
      assert d.tasks[a.key].attempts[a.index].worker.Working?;
      SetWorkerDoomed(d, a, Loaded(d.drafts, 0), kind, refused);
    case Renew(_) =>
      HeartbeatDoomed(d, a, now, seconds, kind, refused);
      ConcludeDoomed(d, a, Heartbeat(d, a.key, now, seconds), NextBatch(worker), Rejected, kind, refused);
    case SaveChunks(_) =>
      WriteDoomed(d, a, worker.drafts, kind, refused);
      ConcludeDoomed(d, a, WriteChunks(d, a, worker.drafts), Wrote(|worker.drafts|), Rejected, kind, refused);
    case ReadCheckpoint(_) => SetWorkerDoomed(d, a, Expecting(EmbedCheckpoint(d)), kind, refused);
  }

  lemma CleanupWorkerDoomed(d: Document, a: AttemptId, step: DocStep, now: int, seconds: nat, kind: TaskType,
                            refused: bool)
    requires Doomed(d, kind, refused) && StepAttempt(step) == Some(a) && Enabled(d, step) && !IsStage(a.key)
    ensures Doomed(WorkerStep(d, a, step, now, seconds), kind, refused)
  {
  }

  lemma QueueDoomed(d: Document, kind: TaskType, refused: bool)
    requires Doomed(d, kind, refused)
    ensures var o := QueueCleanup(d); o.Committed? ==> Doomed(o.document, kind, refused)
    ensures var o := ActivateCleanup(d); o.Committed? ==> Doomed(o.document, kind, refused)
  {
  }

  lemma CancelDoomed(d: Document, a: AttemptId, kind: TaskType, refused: bool)
    requires Doomed(d, kind, refused) && HasAttempt(d, a)
    ensures Doomed(CancelLost(d, a), kind, refused)
  {
  }

  lemma DeleteDoomed(d: Document, open: Option<AttemptId>, kind: TaskType, refused: bool)
    requires TasksInv(d) && Doomed(d, kind, refused) && IsOpenAttempt(d, open)
    ensures Doomed(StageDelete(d, open), kind, refused)
  {
    if !BeingDeleted(d) {
      var d1 := BeforeCleanup(d, open);
      assert Doomed(MarkDeleting(d), kind, refused);
      ReleaseDoomed(MarkDeleting(d), ByDeletion, kind, refused);
      if open.Some? && !HasOpenLease(d) {
        CancelDoomed(MarkDeleting(d), open.value, kind, refused);
      }
      assert Doomed(d1, kind, refused);
      QueueDoomed(d1, kind, refused);
    }
  }

  lemma TakeOverDoomed(d: Document, index: nat, kind: TaskType, refused: bool)
    requires Doomed(d, kind, refused) && index < |d.leases|
    ensures Doomed(RecoverExpiredLease(d, index), kind, refused)
  {
    var lease := d.leases[index];
    if IsOpen(lease) && d.status.Deleting? {
      var d1 := if lease.task in d.tasks
                then PutTask(d, lease.task, CancelIfRunning(CancelRunningAttempt(d.tasks[lease.task]))) else d;
      QueueDoomed(d1.(leases := d1.leases[index := lease.(released := Some(ByDeletion))],
                         current := Some(DeleteCleanup), retry := 0), kind, refused);
    }
  }

  /** The take-over that requeues the refused attempt's task. */
  predicate Requeues(d: Document, step: DocStep, kind: TaskType) {
    && step.TakeOverAttempt? && HasAttempt(d, step.a) && step.a.key == StageKey(kind)
    && AttemptOf(d, step.a).status.Running? && d.tasks[step.a.key].status.TaskRunning?
    && !HasOpenLease(d) && !d.status.Deleting? && d.tasks[step.a.key].retry < MAX_RETRIES
  }

  lemma LossDoomed(d: Document, a: AttemptId, kind: TaskType, refused: bool)
    requires TasksInv(d) && Doomed(d, kind, refused) && HasAttempt(d, a) && !Requeues(d, TakeOverAttempt(a), kind)
    ensures Doomed(RecoverRunningWithoutLease(d, a), kind, refused)
  {
    assert TaskInv(a.key, d.tasks[a.key]);
    var d1 := PutTask(d, a.key, CloseAttempt(d.tasks[a.key], a.index, Cancelled).(status := TaskCancelled));
    if d.status.Deleting? && Doomed(d1, kind, refused) {
      QueueDoomed(d1.(current := Some(DeleteCleanup), retry := 0), kind, refused);
    }
  }

  /** Whatever anyone does, the stage stays doomed, but for the take-over that requeues it. */
  lemma StepDoomed(d: Document, step: DocStep, now: int, seconds: nat, slotFree: bool, kind: TaskType, refused: bool)
    requires DocInv(d) && Doomed(d, kind, refused) && !Requeues(d, step, kind)
    ensures Doomed(DocNext(d, step, now, seconds, slotFree), kind, refused)
  {
    if Enabled(d, step) {
      match StepAttempt(step)
      case Some(a) =>
        if IsStage(a.key) && Ends(step) {
          EndDoomed(d, a, step, now, seconds, kind, refused);
        } else if IsStage(a.key) {
          StageWorkerDoomed(d, a, step, now, seconds, kind, refused);
        } else {
          CleanupWorkerDoomed(d, a, step, now, seconds, kind, refused);
        }
      case None =>
        match step {
          case Delete(open) => DeleteDoomed(d, open, kind, refused);
          case TakeOverLease(index) => TakeOverDoomed(d, index, kind, refused);
          case TakeOverAttempt(a) => LossDoomed(d, a, kind, refused);
          case _ =>
        }
    }
  }

  lemma RequeuedIsNotDoomed(d: Document, step: DocStep, now: int, seconds: nat, slotFree: bool, kind: TaskType)
    requires TasksInv(d) && Doomed(d, kind, true) && Requeues(d, step, kind)
    ensures var e := DocNext(d, step, now, seconds, slotFree);
            StageKey(kind) in e.tasks && e.tasks[StageKey(kind)].status.TaskQueued? && !Doomed(e, kind, true)
  {
    assert TaskInv(StageKey(kind), d.tasks[StageKey(kind)]);
  }

  /** Exactly that take-over gives a doomed stage another chance. */
  lemma DoomedExactly(d: Document, step: DocStep, now: int, seconds: nat, slotFree: bool, kind: TaskType)
    requires DocInv(d) && Doomed(d, kind, true)
    ensures Doomed(DocNext(d, step, now, seconds, slotFree), kind, true) <==> !Requeues(d, step, kind)
  {
    if Requeues(d, step, kind) {
      RequeuedIsNotDoomed(d, step, now, seconds, slotFree, kind);
    } else {
      StepDoomed(d, step, now, seconds, slotFree, kind, true);
    }
  }

  // ---------------------------------------------------------------------------------------------
  // Along runs
  // ---------------------------------------------------------------------------------------------

  /** Event `k` of the continuation is the take-over that requeues the stage. */
  ghost predicate RequeuedAt(c: Config, s: System, more: seq<Event>, k: nat, id: nat, kind: TaskType) {
    && k < |more| && more[k].On? && more[k].id == id && id in Run(c, s, more[..k]).docs
    && Requeues(Run(c, s, more[..k]).docs[id], more[k].step, kind)
  }

  ghost predicate NeverRequeued(c: Config, s: System, more: seq<Event>, id: nat, kind: TaskType) {
    forall k: nat :: k < |more| ==> !RequeuedAt(c, s, more, k, id, kind)
  }

  predicate IsRequeue(s: System, event: Event, id: nat, kind: TaskType) {
    event.On? && event.id == id && id in s.docs && Requeues(s.docs[id], event.step, kind)
  }

  lemma NextDoomed(c: Config, s: System, event: Event, id: nat, kind: TaskType, refused: bool)
    requires id in s.docs && DocInv(s.docs[id]) && Doomed(s.docs[id], kind, refused) && !IsRequeue(s, event, id, kind)
    ensures id in Next(c, s, event).docs && Doomed(Next(c, s, event).docs[id], kind, refused)
  {
    if event.On? && event.id == id {
      StepDoomed(s.docs[id], event.step, s.now, c.leaseSeconds, SlotFree(c, s, id), kind, refused);
    }
  }

  lemma {:induction false} RunDoomed(c: Config, s: System, more: seq<Event>, id: nat, kind: TaskType)
    requires SystemInv(c, s) && id in s.docs && Doomed(s.docs[id], kind, true) && NeverRequeued(c, s, more, id, kind)
    ensures id in Run(c, s, more).docs && Doomed(Run(c, s, more).docs[id], kind, true)
  {
    if more != [] {
      var front := more[..|more| - 1];
      forall k: nat | k < |front|
        ensures !RequeuedAt(c, s, front, k, id, kind)
      {
        assert front[..k] == more[..k];
        assert !RequeuedAt(c, s, more, k, id, kind);
      }
      RunDoomed(c, s, front, id, kind);
      KeptInv(c, s, id, front);
      assert !RequeuedAt(c, s, more, |more| - 1, id, kind);
      NextDoomed(c, Run(c, s, front), more[|more| - 1], id, kind, true);
    }
  }

  lemma {:induction false} RunAbandoned(c: Config, s: System, more: seq<Event>, id: nat, kind: TaskType)
    requires SystemInv(c, s) && id in s.docs && Abandoned(s.docs[id], kind)
    ensures id in Run(c, s, more).docs && Abandoned(Run(c, s, more).docs[id], kind)
  {
    if more != [] {
      var front := more[..|more| - 1];
      RunAbandoned(c, s, front, id, kind);
      KeptInv(c, s, id, front);
      NextDoomed(c, Run(c, s, front), more[|more| - 1], id, kind, false);
    }
  }

  /** Once a stage after parse is abandoned, no continuation of the run ever completes the document. */
  lemma AbandonedForEver(c: Config, run: seq<Event>, more: seq<Event>, id: nat, kind: TaskType)
    requires id in Reached(c, run).docs && Abandoned(Reached(c, run).docs[id], kind)
    ensures id in Reached(c, run + more).docs
    ensures Abandoned(Reached(c, run + more).docs[id], kind) && !Reached(c, run + more).docs[id].status.Completed?
  {
    Reachable(c, run);
    RunConcat(c, EmptySystem, run, more);
    RunAbandoned(c, Reached(c, run), more, id, kind);
    Reachable(c, run + more);
    NeverCompleted(Reached(c, run + more).docs[id], kind, false);
  }

  // ---------------------------------------------------------------------------------------------
  // From the refusal to the end
  // ---------------------------------------------------------------------------------------------

  /** The stage of the running attempt has never succeeded, and of an embed stage only this worker is left. */
  predicate LastHope(d: Document, a: AttemptId)
    requires HasAttempt(d, a)
  {
    && AttemptOf(d, a).status.Running? && !HasOpenLease(d)
    && NoneSucceeded(d.tasks[a.key].attempts)
    && (a.key.kind.Embed? ==> forall i :: 0 <= i < |d.tasks[a.key].attempts| && i != a.index ==>
          !d.tasks[a.key].attempts[i].worker.Working? && !d.tasks[a.key].attempts[i].worker.Loaded?)
  }

  lemma RefusedIsDoomed(d: Document, step: DocStep, now: int, seconds: nat, slotFree: bool)
    requires DocInv(d) && AsksForLease(step) && Enabled(d, step) && LastHope(d, StepAttempt(step).value)
    ensures Doomed(DocNext(d, step, now, seconds, slotFree), StepAttempt(step).value.key.kind, true)
  {
    var a := StepAttempt(step).value;
    assert TaskInv(a.key, d.tasks[a.key]);
    AskedExactly(d, step, now, seconds, slotFree);
    RejectedIsDoomed(d, a);
  }

  lemma RejectedIsDoomed(d: Document, a: AttemptId)
    requires HasAttempt(d, a) && TaskInv(a.key, d.tasks[a.key]) && LastHope(d, a)
             && (a.key.kind.Chunk? || a.key.kind.Embed?)
    ensures Doomed(SetWorker(d, a, Rejected), a.key.kind, true)
  {
  }

  lemma AppendOne(c: Config, run: seq<Event>, event: Event)
    ensures Reached(c, run + [event]) == Next(c, Reached(c, run), event)
  {
    assert (run + [event])[..|run + [event]| - 1] == run;
  }

  lemma RefusedIsDoomedNext(c: Config, run: seq<Event>, id: nat, step: DocStep)
    requires id in Reached(c, run).docs && AsksForLease(step) && Enabled(Reached(c, run).docs[id], step)
    requires LastHope(Reached(c, run).docs[id], StepAttempt(step).value)
    ensures var t := Reached(c, run + [On(id, step)]);
            id in t.docs && Doomed(t.docs[id], StepAttempt(step).value.key.kind, true)
  {
    Reachable(c, run);
    var s := Reached(c, run);
    AppendOne(c, run, On(id, step));
    StepTaken(c, s, id, step);
    RefusedIsDoomed(s.docs[id], step, s.now, c.leaseSeconds, SlotFree(c, s, id));
  }

  /** In every run: once an attempt of a stage that never succeeded asks for the lease and finds none, the document is
      not COMPLETED in any continuation in which the attempt is not taken over while it still runs.  Its worker may
      converge at any time, or never. */
  lemma RefusedNeverCompletes(c: Config, run: seq<Event>, id: nat, step: DocStep, more: seq<Event>)
    requires id in Reached(c, run).docs && AsksForLease(step) && Enabled(Reached(c, run).docs[id], step)
    requires LastHope(Reached(c, run).docs[id], StepAttempt(step).value)
    requires NeverRequeued(c, Reached(c, run + [On(id, step)]), more, id, StepAttempt(step).value.key.kind)
    ensures var t := Reached(c, run + [On(id, step)] + more); id in t.docs && !t.docs[id].status.Completed?
  {
    var after, kind := run + [On(id, step)], StepAttempt(step).value.key.kind;
    RefusedIsDoomedNext(c, run, id, step);
    Reachable(c, after);
    RunConcat(c, EmptySystem, after, more);
    RunDoomed(c, Reached(c, after), more, id, kind);
    Reachable(c, after + more);
    NeverCompleted(Reached(c, after + more).docs[id], kind, true);
  }

  // ---------------------------------------------------------------------------------------------
  // Converging while the attempt still runs
  // ---------------------------------------------------------------------------------------------

  /** Doomed, or the attempt does not run any more. */
  ghost predicate DoomedOrOver(d: Document, a: AttemptId) {
    HasAttempt(d, a) && IsStage(a.key) && (AttemptOf(d, a).status.Running? ==> Doomed(d, a.key.kind, true))
  }

  lemma StepDoomedOrOver(d: Document, a: AttemptId, step: DocStep, now: int, seconds: nat, slotFree: bool)
    requires DocInv(d) && DoomedOrOver(d, a)
    ensures DoomedOrOver(DocNext(d, step, now, seconds, slotFree), a)
  {
    var e := DocNext(d, step, now, seconds, slotFree);
    StepKeeps(d, step, now, seconds, slotFree);
    assert TaskEvolves(a.key, d.tasks[a.key], e.tasks[a.key]);
    if AttemptOf(d, a).status.Running? {
      if Requeues(d, step, a.key.kind) {
        RequeueEnds(d, a, step, now, seconds, slotFree);
      } else {
        StepDoomed(d, step, now, seconds, slotFree, a.key.kind, true);
      }
    }
  }

  lemma RequeueEnds(d: Document, a: AttemptId, step: DocStep, now: int, seconds: nat, slotFree: bool)
    requires TasksInv(d) && DoomedOrOver(d, a) && AttemptOf(d, a).status.Running? && Requeues(d, step, a.key.kind)
    ensures var e := DocNext(d, step, now, seconds, slotFree); HasAttempt(e, a) && !AttemptOf(e, a).status.Running?
  {
    assert TaskInv(a.key, d.tasks[a.key]);
    assert step.a == a;
  }

  lemma NextDoomedOrOver(c: Config, s: System, event: Event, id: nat, a: AttemptId)
    requires id in s.docs && DocInv(s.docs[id]) && DoomedOrOver(s.docs[id], a)
    ensures id in Next(c, s, event).docs && DoomedOrOver(Next(c, s, event).docs[id], a)
  {
    if event.On? && event.id == id {
      StepDoomedOrOver(s.docs[id], a, event.step, s.now, c.leaseSeconds, SlotFree(c, s, id));
    }
  }

  lemma {:induction false} RunDoomedOrOver(c: Config, s: System, mid: seq<Event>, id: nat, a: AttemptId)
    requires SystemInv(c, s) && id in s.docs && DoomedOrOver(s.docs[id], a)
    ensures id in Run(c, s, mid).docs && DoomedOrOver(Run(c, s, mid).docs[id], a)
  {
    if mid != [] {
      var front := mid[..|mid| - 1];
      RunDoomedOrOver(c, s, front, id, a);
      KeptInv(c, s, id, front);
      NextDoomedOrOver(c, Run(c, s, front), mid[|mid| - 1], id, a);
    }
  }

  lemma ConvergedIsAbandoned(d: Document, a: AttemptId, now: int, seconds: nat, slotFree: bool)
    requires TasksInv(d) && DoomedOrOver(d, a) && AttemptOf(d, a).status.Running?
    ensures Abandoned(DocNext(d, Converge(a), now, seconds, slotFree), a.key.kind)
  {
    assert TaskInv(a.key, d.tasks[a.key]);
    ConvergeDoomed(d, a, a.key.kind, true);
  }

  /** Whatever happens between the refusal and the transaction in which the worker converges: if the attempt still runs
      when it does, no continuation completes the document. */
  lemma ConvergedNeverCompletes(c: Config, run: seq<Event>, id: nat, step: DocStep, mid: seq<Event>, more: seq<Event>)
    requires id in Reached(c, run).docs && AsksForLease(step) && Enabled(Reached(c, run).docs[id], step)
    requires LastHope(Reached(c, run).docs[id], StepAttempt(step).value)
    requires var s := Reached(c, run + [On(id, step)] + mid); var a := StepAttempt(step).value;
             id in s.docs && HasAttempt(s.docs[id], a) && AttemptOf(s.docs[id], a).status.Running?
    ensures var t := Reached(c, run + [On(id, step)] + mid + [On(id, Converge(StepAttempt(step).value))] + more);
            id in t.docs && !t.docs[id].status.Completed?
  {
    var a := StepAttempt(step).value;
    StillDoomed(c, run, id, step, mid);
    var before := run + [On(id, step)] + mid;
    var s := Reached(c, before);
    Reachable(c, before);
    AppendOne(c, before, On(id, Converge(a)));
    StepTaken(c, s, id, Converge(a));
    ConvergedIsAbandoned(s.docs[id], a, s.now, c.leaseSeconds, SlotFree(c, s, id));
    AbandonedForEver(c, before + [On(id, Converge(a))], more, id, a.key.kind);
  }

  lemma StillDoomed(c: Config, run: seq<Event>, id: nat, step: DocStep, mid: seq<Event>)
    requires id in Reached(c, run).docs && AsksForLease(step) && Enabled(Reached(c, run).docs[id], step)
    requires LastHope(Reached(c, run).docs[id], StepAttempt(step).value)
    ensures var s := Reached(c, run + [On(id, step)] + mid);
            id in s.docs && DoomedOrOver(s.docs[id], StepAttempt(step).value)
  {
    var after, a := run + [On(id, step)], StepAttempt(step).value;
    RefusedIsDoomedNext(c, run, id, step);
    RefusedHasAttempt(c, run, id, step);
    Reachable(c, after);
    RunConcat(c, EmptySystem, after, mid);
    RunDoomedOrOver(c, Reached(c, after), mid, id, a);
  }

  lemma RefusedHasAttempt(c: Config, run: seq<Event>, id: nat, step: DocStep)
    requires id in Reached(c, run).docs && AsksForLease(step) && Enabled(Reached(c, run).docs[id], step)
    ensures var t := Reached(c, run + [On(id, step)]); id in t.docs && HasAttempt(t.docs[id], StepAttempt(step).value)
  {
    var s := Reached(c, run);
    AppendOne(c, run, On(id, step));
    StepTaken(c, s, id, step);
    AskedExactly(s.docs[id], step, s.now, c.leaseSeconds, SlotFree(c, s, id));
  }

  // ---------------------------------------------------------------------------------------------
  // The refusal is what the worker converges on
  // ---------------------------------------------------------------------------------------------

  ghost predicate KeepsWorker(d: Document, e: Document, a: AttemptId) {
    HasAttempt(d, a) && HasAttempt(e, a) && AttemptOf(e, a).worker == AttemptOf(d, a).worker
  }

  lemma SetOtherWorker(d: Document, e: Document, a: AttemptId, b: AttemptId, worker: Worker)
    requires KeepsWorker(d, e, a) && HasAttempt(e, b) && b != a
    ensures KeepsWorker(d, SetWorker(e, b, worker), a)
  {
  }

  lemma ConcludeKeepsWorker(d: Document, a: AttemptId, b: AttemptId, outcome: Outcome, onCommit: Worker,
                            onRefusal: Worker)
    requires HasAttempt(d, a) && HasAttempt(d, b) && b != a
    requires outcome.Committed? ==> KeepsWorker(d, outcome.document, a) && HasAttempt(outcome.document, b)
    ensures KeepsWorker(d, Conclude(d, b, outcome, onCommit, onRefusal), a)
  {
    match outcome
    case Committed(after) => SetOtherWorker(d, after, a, b, onCommit);
    case Replayed => SetOtherWorker(d, d, a, b, Done);
    case Refused => SetOtherWorker(d, d, a, b, onRefusal);
  }

  lemma CompleteKeepsWorker(d: Document, a: AttemptId, b: AttemptId, total: Option<nat>, processed: Option<nat>,
                            expected: Option<nat>)
    requires HasAttempt(d, a) && HasAttempt(d, b) && IsStage(b.key)
    ensures var o := CompleteStage(d, b, total, processed, expected);
            o.Committed? ==> KeepsWorker(d, o.document, a) && HasAttempt(o.document, b)
  {
    if !b.key.kind.Finalize? {
      AdvanceKeepsWorker(d, a, b, total, processed);
    }
  }

  lemma AdvanceKeepsWorker(d: Document, a: AttemptId, b: AttemptId, total: Option<nat>, processed: Option<nat>)
    requires HasAttempt(d, a) && HasAttempt(d, b) && IsStage(b.key) && !b.key.kind.Finalize?
    ensures var o := Advance(d, b, total, processed);
            o.Committed? ==> KeepsWorker(d, o.document, a) && HasAttempt(o.document, b)
  {
  }

  lemma ParseKeepsWorker(d: Document, a: AttemptId, b: AttemptId, text: string)
    requires HasAttempt(d, a) && HasAttempt(d, b) && b != a && IsStage(b.key)
    ensures KeepsWorker(d, Conclude(d, b, CommitParse(d, b, text), Done, Rejected), a)
  {
    CompleteKeepsWorker(d.(parseResults := d.parseResults + [text]), a, b, Some(1), Some(1), None);
    ConcludeKeepsWorker(d, a, b, CommitParse(d, b, text), Done, Rejected);
  }

  lemma DraftsKeepWorker(d: Document, a: AttemptId, b: AttemptId, pieces: seq<string>)
    requires HasAttempt(d, a) && HasAttempt(d, b) && b != a && IsStage(b.key)
    ensures KeepsWorker(d, Conclude(d, b, CommitChunk(d, b, pieces), Done, Rejected), a)
  {
    CompleteKeepsWorker(d.(drafts := pieces), a, b, Some(|pieces|), Some(|pieces|), None);
    ConcludeKeepsWorker(d, a, b, CommitChunk(d, b, pieces), Done, Rejected);
  }

  lemma EndedKeepsWorker(d: Document, a: AttemptId, b: AttemptId, code: Option<nat>)
    requires HasAttempt(d, a) && HasAttempt(d, b)
    ensures KeepsWorker(d, FailStage(d, b, code), a) && HasAttempt(FailStage(d, b, code), b)
    ensures KeepsWorker(d, ConvergeCancelled(d, b), a) && HasAttempt(ConvergeCancelled(d, b), b)
  {
  }

  lemma CleanupKeepsWorker(d: Document, a: AttemptId, b: AttemptId)
    requires HasAttempt(d, a) && HasAttempt(d, b)
    ensures KeepsWorker(d, FinishCleanup(d, b), a) && HasAttempt(FinishCleanup(d, b), b)
    ensures KeepsWorker(d, FinishCleanupAgain(d, b), a) && HasAttempt(FinishCleanupAgain(d, b), b)
    ensures KeepsWorker(d, FailCleanup(d, b), a) && HasAttempt(FailCleanup(d, b), b)
  {
  }

  lemma ConcludingKeepsWorker(d: Document, a: AttemptId, b: AttemptId, step: DocStep, now: int, seconds: nat)
    requires HasAttempt(d, a) && StepAttempt(step) == Some(b) && b != a && Enabled(d, step) && Concludes(step)
    ensures KeepsWorker(d, WorkerStep(d, b, step, now, seconds), a)
  {
    var worker := AttemptOf(d, b).worker;
    match step
    case SaveParse(_) => ParseKeepsWorker(d, a, b, worker.text);
    case SaveDrafts(_) => DraftsKeepWorker(d, a, b, Pieces(worker.text));
    case SaveChunks(_) =>
      ConcludeKeepsWorker(d, a, b, WriteChunks(d, b, worker.drafts), Wrote(|worker.drafts|), Rejected);
    case Renew(_) => ConcludeKeepsWorker(d, a, b, Heartbeat(d, b.key, now, seconds), NextBatch(worker), Rejected);
    case FinishEmbed(_) =>
      CompleteKeepsWorker(d, a, b, Some(worker.count), Some(worker.count), None);
      ConcludeKeepsWorker(d, a, b, CompleteStage(d, b, Some(worker.count), Some(worker.count), None), Done, Done);
    case Publish(_) =>
      CompleteKeepsWorker(d, a, b, None, None, Some(worker.count));
      ConcludeKeepsWorker(d, a, b, CompleteStage(d, b, None, None, Some(worker.count)), Done, Rejected);
  }

  lemma OtherKeepsWorker(d: Document, a: AttemptId, b: AttemptId, step: DocStep, now: int, seconds: nat)
    requires HasAttempt(d, a) && StepAttempt(step) == Some(b) && b != a && Enabled(d, step)
    ensures KeepsWorker(d, WorkerStep(d, b, step, now, seconds), a)
  {
    var worker := AttemptOf(d, b).worker;
    if Concludes(step) {
      ConcludingKeepsWorker(d, a, b, step, now, seconds);
    } else if step.Fail? || step.Converge? {
      EndedKeepsWorker(d, a, b, if step.Fail? then step.code else None);
      SetOtherWorker(d, if step.Fail? then FailStage(d, b, step.code) else ConvergeCancelled(d, b), a, b, Done);
    } else if step.FinishDelete? || step.FailDelete? {
      CleanupKeepsWorker(d, a, b);
      SetOtherWorker(d, if step.FailDelete? then FailCleanup(d, b)
                        else if worker.SawDeleted? then FinishCleanupAgain(d, b) else FinishCleanup(d, b), a, b, Done);
    }
  }

  lemma QueueKeepsWorker(d: Document, a: AttemptId)
    requires HasAttempt(d, a)
    ensures var o := QueueCleanup(d); o.Committed? ==> KeepsWorker(d, o.document, a)
    ensures var o := ActivateCleanup(d); o.Committed? ==> KeepsWorker(d, o.document, a)
  {
  }

  lemma MarkKeepsWorker(d: Document, a: AttemptId, open: Option<AttemptId>)
    requires HasAttempt(d, a) && IsOpenAttempt(d, open)
    ensures KeepsWorker(d, BeforeCleanup(d, open), a)
  {
  }

  lemma DeleteKeepsWorker(d: Document, a: AttemptId, open: Option<AttemptId>)
    requires HasAttempt(d, a) && IsOpenAttempt(d, open)
    ensures KeepsWorker(d, StageDelete(d, open), a)
  {
    if !BeingDeleted(d) {
      MarkKeepsWorker(d, a, open);
      QueueKeepsWorker(BeforeCleanup(d, open), a);
    }
  }

  lemma TakeOverKeepsWorker(d: Document, a: AttemptId, index: nat)
    requires HasAttempt(d, a) && index < |d.leases|
    ensures KeepsWorker(d, RecoverExpiredLease(d, index), a)
  {
  }

  lemma LossKeepsWorker(d: Document, a: AttemptId, b: AttemptId)
    requires HasAttempt(d, a) && HasAttempt(d, b)
    ensures KeepsWorker(d, RecoverRunningWithoutLease(d, b), a)
  {
  }

  /** No step but the worker's own changes what it holds. */
  lemma OthersKeepWorker(d: Document, a: AttemptId, step: DocStep, now: int, seconds: nat, slotFree: bool)
    requires HasAttempt(d, a) && StepAttempt(step) != Some(a)
    ensures KeepsWorker(d, DocNext(d, step, now, seconds, slotFree), a)
  {
    if Enabled(d, step) {
      match StepAttempt(step)
      case Some(b) => OtherKeepsWorker(d, a, b, step, now, seconds);
      case None =>
        match step {
          case Delete(open) => DeleteKeepsWorker(d, a, open);
          case TakeOverLease(index) => TakeOverKeepsWorker(d, a, index);
          case TakeOverAttempt(b) => LossKeepsWorker(d, a, b);
          case _ =>
        }
    }
  }

  ghost predicate WithoutWorker(mid: seq<Event>, id: nat, a: AttemptId) {
    forall k :: 0 <= k < |mid| ==> !OfWorker(mid[k], id, a)
  }

  predicate OfWorker(event: Event, id: nat, a: AttemptId) {
    event.On? && event.id == id && StepAttempt(event.step) == Some(a)
  }

  lemma NextKeepsWorker(c: Config, s: System, id: nat, a: AttemptId, event: Event)
    requires id in s.docs && HasAttempt(s.docs[id], a) && !OfWorker(event, id, a)
    ensures id in Next(c, s, event).docs && KeepsWorker(s.docs[id], Next(c, s, event).docs[id], a)
  {
    if event.On? && event.id == id {
      OthersKeepWorker(s.docs[id], a, event.step, s.now, c.leaseSeconds, SlotFree(c, s, id));
    }
  }

  lemma {:induction false} RunKeepsWorker(c: Config, s: System, id: nat, a: AttemptId, mid: seq<Event>)
    requires id in s.docs && HasAttempt(s.docs[id], a) && WithoutWorker(mid, id, a)
    ensures id in Run(c, s, mid).docs && KeepsWorker(s.docs[id], Run(c, s, mid).docs[id], a)
  {
    if mid != [] {
      RunKeepsWorker(c, s, id, a, mid[..|mid| - 1]);
      NextKeepsWorker(c, Run(c, s, mid[..|mid| - 1]), id, a, mid[|mid| - 1]);
    }
  }

  /** In every run: a chunk or embed attempt asks for the lease, others act in between, and the attempt still runs when
      its worker would converge.  Then it ends CANCELLED, and its task with it and nothing else, exactly when there was
      no lease to go on with; otherwise nothing changes. */
  lemma RecoveredStageExactly(c: Config, run: seq<Event>, id: nat, step: DocStep, mid: seq<Event>)
    requires id in Reached(c, run).docs && AsksForLease(step) && Enabled(Reached(c, run).docs[id], step)
    requires WithoutWorker(mid, id, StepAttempt(step).value)
    requires var s := Reached(c, run + [On(id, step)] + mid); var a := StepAttempt(step).value;
             id in s.docs && HasAttempt(s.docs[id], a) && AttemptOf(s.docs[id], a).status.Running?
    ensures var a := StepAttempt(step).value;
            var s, t := Reached(c, run + [On(id, step)] + mid), Reached(c, run + [On(id, step)] + mid + [On(id, Converge(a))]);
            && id in t.docs && HasAttempt(t.docs[id], a)
            && var d, e := s.docs[id], t.docs[id];
            && (AttemptOf(e, a).status.Cancelled? <==> !MayGoOn(Reached(c, run).docs[id], step))
            && (e.tasks[a.key].status.TaskCancelled? <==> !MayGoOn(Reached(c, run).docs[id], step))
            && (MayGoOn(Reached(c, run).docs[id], step) ==> e == d)
            && e == d.(tasks := d.tasks[a.key := e.tasks[a.key]])
  {
    var a := StepAttempt(step).value;
    var before := run + [On(id, step)] + mid;
    var s := Reached(c, before);
    WorkerWaits(c, run, id, step, mid);
    Reachable(c, before);
    AppendOne(c, before, On(id, Converge(a)));
    ConvergedNext(c, s, id, a);
  }

  lemma ConvergedNext(c: Config, s: System, id: nat, a: AttemptId)
    requires id in s.docs && HasAttempt(s.docs[id], a) && IsStage(a.key)
    requires AttemptOf(s.docs[id], a).status.Running? && TaskInv(a.key, s.docs[id].tasks[a.key])
    ensures var t := Next(c, s, On(id, Converge(a)));
            && id in t.docs && HasAttempt(t.docs[id], a)
            && var d, e, rejected := s.docs[id], t.docs[id], AttemptOf(s.docs[id], a).worker.Rejected?;
            && (AttemptOf(e, a).status.Cancelled? <==> rejected) && (e.tasks[a.key].status.TaskCancelled? <==> rejected)
            && (!rejected ==> e == d) && e == d.(tasks := d.tasks[a.key := e.tasks[a.key]])
  {
    var d := s.docs[id];
    StepTaken(c, s, id, Converge(a));
    ConvergedExactly(d, a, s.now, c.leaseSeconds, SlotFree(c, s, id));
  }

  lemma WorkerWaits(c: Config, run: seq<Event>, id: nat, step: DocStep, mid: seq<Event>)
    requires id in Reached(c, run).docs && AsksForLease(step) && Enabled(Reached(c, run).docs[id], step)
    requires WithoutWorker(mid, id, StepAttempt(step).value)
    ensures var a := StepAttempt(step).value;
            var s := Reached(c, run + [On(id, step)] + mid);
            && id in s.docs && HasAttempt(s.docs[id], a) && IsStage(a.key)
            && (AttemptOf(s.docs[id], a).worker.Rejected? <==> !MayGoOn(Reached(c, run).docs[id], step))
  {
    var after, a := run + [On(id, step)], StepAttempt(step).value;
    AppendOne(c, run, On(id, step));
    StepTaken(c, Reached(c, run), id, step);
    var s := Reached(c, run);
    AskedExactly(s.docs[id], step, s.now, c.leaseSeconds, SlotFree(c, s, id));
    RunConcat(c, EmptySystem, after, mid);
    RunKeepsWorker(c, Reached(c, after), id, a, mid);
  }
}
