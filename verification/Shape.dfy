/** What single steps do not touch: the terms of leases, the data rows, the number of attempts.  These
    facts need no invariant. */
module Shape {
  import opened Rows
  import opened Transactions
  import opened Protocol

  ghost predicate SameTerms(d: Document, e: Document) {
    && |e.leases| == |d.leases|
    && forall i :: 0 <= i < |d.leases| ==> e.leases[i].expires == d.leases[i].expires
  }

  ghost predicate NoNewData(d: Document, e: Document) {
    && (e.parseResults == d.parseResults || e.parseResults == [])
    && (e.drafts == d.drafts || e.drafts == [])
    && (e.chunks == d.chunks || e.chunks == [])
  }

  ghost predicate SameAttempts(d: Document, e: Document) {
    && (forall key :: key in d.tasks ==> key in e.tasks && |e.tasks[key].attempts| == |d.tasks[key].attempts|)
    && (forall key :: key in e.tasks && key !in d.tasks ==> e.tasks[key].attempts == [])
  }

  ghost predicate Untouched(d: Document, e: Document) {
    SameTerms(d, e) && NoNewData(d, e) && SameAttempts(d, e)
  }

  lemma QueueCleanupUntouched(d: Document)
    ensures var o := QueueCleanup(d); o.Committed? ==> Untouched(d, o.document)
    ensures var o := ActivateCleanup(d); o.Committed? ==> Untouched(d, o.document)
  {
  }

  lemma UntouchedTransitive(d: Document, e: Document, f: Document)
    requires Untouched(d, e) && Untouched(e, f)
    ensures Untouched(d, f)
  {
  }

  lemma BeforeCleanupUntouched(d: Document, open: Option<AttemptId>)
    requires IsOpenAttempt(d, open)
    ensures Untouched(d, BeforeCleanup(d, open))
  {
    var d1 := MarkDeleting(d);
    assert Untouched(d, d1);
    if open.Some? {
      CancelUntouched(d1, open.value);
    }
    ReleaseUntouched(d1, ByDeletion);
    UntouchedTransitive(d, d1, BeforeCleanup(d, open));
  }

  lemma CancelUntouched(d: Document, a: AttemptId)
    requires HasAttempt(d, a)
    ensures Untouched(d, CancelLost(d, a))
  {
  }

  lemma ReleaseUntouched(d: Document, reason: ReleaseReason)
    ensures Untouched(d, ReleaseLease(d, reason))
  {
  }

  lemma StageDeleteUntouched(d: Document, open: Option<AttemptId>)
    requires IsOpenAttempt(d, open)
    ensures Untouched(d, StageDelete(d, open))
  {
    if !BeingDeleted(d) {
      var d1 := BeforeCleanup(d, open);
      BeforeCleanupUntouched(d, open);
      QueueCleanupUntouched(d1);
      var o := if open.Some? && HasOpenLease(d1) then ActivateCleanup(d1) else QueueCleanup(d1);
      if o.Committed? {
        UntouchedTransitive(d, d1, o.document);
      }
    }
  }

  lemma LeaseWhileDeletingUntouched(d: Document, index: nat)
    requires index < |d.leases| && IsOpen(d.leases[index]) && d.status.Deleting?
    ensures Untouched(d, RecoverExpiredLease(d, index))
  {
    var lease := d.leases[index];
    var d1 := if lease.task in d.tasks
              then PutTask(d, lease.task, CancelIfRunning(CancelRunningAttempt(d.tasks[lease.task]))) else d;
    var d2 := d1.(leases := d1.leases[index := lease.(released := Some(ByDeletion))],
                  current := Some(DeleteCleanup), retry := 0);
    assert Untouched(d, d2);
    QueueCleanupUntouched(d2);
    if QueueCleanup(d2).Committed? {
      UntouchedTransitive(d, d2, QueueCleanup(d2).document);
    }
  }

  lemma LiveLeaseUntouched(d: Document, index: nat)
    requires index < |d.leases| && IsOpen(d.leases[index]) && !d.status.Deleting?
    ensures Untouched(d, RecoverExpiredLease(d, index))
  {
  }

  lemma RecoverLeaseUntouched(d: Document, index: nat)
    requires index < |d.leases|
    ensures Untouched(d, RecoverExpiredLease(d, index))
  {
    if IsOpen(d.leases[index]) {
      if d.status.Deleting? {
        LeaseWhileDeletingUntouched(d, index);
      } else {
        LiveLeaseUntouched(d, index);
      }
    }
  }

  lemma LiveRunUntouched(d: Document, a: AttemptId)
    requires HasAttempt(d, a) && !(d.status.Deleting? && !a.key.kind.DeleteCleanup?)
    ensures Untouched(d, RecoverRunningWithoutLease(d, a))
  {
  }

  lemma RecoverRunningUntouched(d: Document, a: AttemptId)
    requires HasAttempt(d, a)
    ensures Untouched(d, RecoverRunningWithoutLease(d, a))
  {
    if !(d.status.Deleting? && !a.key.kind.DeleteCleanup?) {
      LiveRunUntouched(d, a);
    } else {
      var closed := CloseAttempt(d.tasks[a.key], a.index, Cancelled).(status := TaskCancelled);
      var d1 := PutTask(d, a.key, closed).(current := Some(DeleteCleanup), retry := 0);
      assert Untouched(d, d1);
      QueueCleanupUntouched(d1);
      if QueueCleanup(d1).Committed? {
        UntouchedTransitive(d, d1, QueueCleanup(d1).document);
      }
    }
  }

  lemma AdvanceAttempts(d: Document, a: AttemptId, total: Option<nat>, processed: Option<nat>)
    requires HasAttempt(d, a) && IsStage(a.key) && !a.key.kind.Finalize?
    ensures var o := Advance(d, a, total, processed); o.Committed? ==> SameAttempts(d, o.document)
  {
  }

  lemma CompleteStageAttempts(d: Document, a: AttemptId, total: Option<nat>, processed: Option<nat>,
                              expected: Option<nat>)
    requires HasAttempt(d, a) && IsStage(a.key)
    ensures var o := CompleteStage(d, a, total, processed, expected);
            o.Committed? ==> SameAttempts(d, o.document)
  {
    if a.key.kind.Finalize? {
      FinalizeAttempts(d, a, expected);
    } else {
      AdvanceAttempts(d, a, total, processed);
    }
  }

  lemma FinalizeAttempts(d: Document, a: AttemptId, expected: Option<nat>)
    requires HasAttempt(d, a)
    ensures SameAttempts(d, CompleteFinalize(d, a, expected))
  {
  }

  lemma SetWorkerAttempts(d: Document, a: AttemptId, worker: Worker)
    requires HasAttempt(d, a)
    ensures SameAttempts(d, SetWorker(d, a, worker))
  {
  }

  lemma ConcludeAttempts(d: Document, a: AttemptId, outcome: Outcome, onCommit: Worker, onRefusal: Worker)
    requires HasAttempt(d, a)
    requires outcome.Committed? ==> HasAttempt(outcome.document, a) && SameAttempts(d, outcome.document)
    ensures SameAttempts(d, Conclude(d, a, outcome, onCommit, onRefusal))
  {
    match outcome
    case Committed(after) => SetWorkerAttempts(after, a, onCommit);
    case Replayed => SetWorkerAttempts(d, a, Done);
    case Refused => SetWorkerAttempts(d, a, onRefusal);
  }

  lemma ParseAttempts(d: Document, a: AttemptId, text: string)
    requires HasAttempt(d, a) && IsStage(a.key)
    ensures SameAttempts(d, Conclude(d, a, CommitParse(d, a, text), Done, Rejected))
  {
    CompleteStageAttempts(d.(parseResults := d.parseResults + [text]), a, Some(1), Some(1), None);
    ConcludeAttempts(d, a, CommitParse(d, a, text), Done, Rejected);
  }

  lemma DraftAttempts(d: Document, a: AttemptId, pieces: seq<string>)
    requires HasAttempt(d, a) && IsStage(a.key)
    ensures SameAttempts(d, Conclude(d, a, CommitChunk(d, a, pieces), Done, Rejected))
  {
    CompleteStageAttempts(d.(drafts := pieces), a, Some(|pieces|), Some(|pieces|), None);
    ConcludeAttempts(d, a, CommitChunk(d, a, pieces), Done, Rejected);
  }

  lemma StageAttempts(d: Document, a: AttemptId, count: nat)
    requires HasAttempt(d, a) && IsStage(a.key)
    ensures SameAttempts(d, Conclude(d, a, CompleteStage(d, a, Some(count), Some(count), None), Done, Done))
    ensures SameAttempts(d, Conclude(d, a, CompleteStage(d, a, None, None, Some(count)), Done, Rejected))
  {
    CompleteStageAttempts(d, a, Some(count), Some(count), None);
    ConcludeAttempts(d, a, CompleteStage(d, a, Some(count), Some(count), None), Done, Done);
    CompleteStageAttempts(d, a, None, None, Some(count));
    ConcludeAttempts(d, a, CompleteStage(d, a, None, None, Some(count)), Done, Rejected);
  }

  /** The steps that end in a commit, a replay or a refusal. */
  predicate Concludes(step: DocStep) {
    step.SaveParse? || step.SaveDrafts? || step.SaveChunks? || step.FinishEmbed? || step.Publish? || step.Renew?
  }

  lemma ConcludedAttempts(d: Document, a: AttemptId, step: DocStep, now: int, seconds: nat)
    requires StepAttempt(step) == Some(a) && Enabled(d, step) && Concludes(step)
    ensures SameAttempts(d, WorkerStep(d, a, step, now, seconds))
  {
    var worker := AttemptOf(d, a).worker;
    match step
    case SaveParse(_) => ParseAttempts(d, a, worker.text);
    case SaveDrafts(_) => DraftAttempts(d, a, Pieces(worker.text));
    case SaveChunks(_) =>
      ConcludeAttempts(d, a, WriteChunks(d, a, worker.drafts), Wrote(|worker.drafts|), Rejected);
    case FinishEmbed(_) => StageAttempts(d, a, worker.count);
    case Publish(_) => StageAttempts(d, a, worker.count);
    case Renew(_) => ConcludeAttempts(d, a, Heartbeat(d, a.key, now, seconds), NextBatch(worker), Rejected);
  }

  lemma FailedAttempts(d: Document, a: AttemptId, code: Option<nat>)
    requires HasAttempt(d, a)
    ensures SameAttempts(d, SetWorker(FailStage(d, a, code), a, Done))
  {
    SetWorkerAttempts(FailStage(d, a, code), a, Done);
  }

  lemma ConvergedAttempts(d: Document, a: AttemptId)
    requires HasAttempt(d, a)
    ensures SameAttempts(d, SetWorker(ConvergeCancelled(d, a), a, Done))
  {
    SetWorkerAttempts(ConvergeCancelled(d, a), a, Done);
  }

  lemma CleanupAttempts(d: Document, a: AttemptId)
    requires HasAttempt(d, a)
    ensures SameAttempts(d, SetWorker(FinishCleanup(d, a), a, Done))
    ensures SameAttempts(d, SetWorker(FinishCleanupAgain(d, a), a, Done))
    ensures SameAttempts(d, SetWorker(FailCleanup(d, a), a, Done))
  {
    SetWorkerAttempts(FinishCleanup(d, a), a, Done);
    SetWorkerAttempts(FinishCleanupAgain(d, a), a, Done);
    SetWorkerAttempts(FailCleanup(d, a), a, Done);
  }

  lemma WorkerAttempts(d: Document, a: AttemptId, step: DocStep, now: int, seconds: nat)
    requires StepAttempt(step) == Some(a) && Enabled(d, step)
    ensures SameAttempts(d, WorkerStep(d, a, step, now, seconds))
  {
    if Concludes(step) {
      ConcludedAttempts(d, a, step, now, seconds);
    } else if step.Fail? {
      FailedAttempts(d, a, step.code);
    } else if step.Converge? {
      ConvergedAttempts(d, a);
    } else if step.FinishDelete? || step.FailDelete? {
      CleanupAttempts(d, a);
    }
  }

  /** Only beginning an attempt adds an attempt. */
  lemma StepAttempts(d: Document, step: DocStep, now: int, seconds: nat, slotFree: bool)
    requires !step.Begin?
    ensures SameAttempts(d, DocNext(d, step, now, seconds, slotFree))
  {
    if Enabled(d, step) {
      match StepAttempt(step)
      case Some(a) => WorkerAttempts(d, a, step, now, seconds);
      case None =>
        match step {
          case Delete(open) => StageDeleteUntouched(d, open);
          case TakeOverLease(index) => RecoverLeaseUntouched(d, index);
          case TakeOverAttempt(a) => RecoverRunningUntouched(d, a);
          case _ =>
        }
    }
  }

  /** While a document is being deleted no worker adds data. */
  lemma WorkerData(d: Document, a: AttemptId, step: DocStep, now: int, seconds: nat)
    requires StepAttempt(step) == Some(a) && Enabled(d, step) && BeingDeleted(d)
    ensures NoNewData(d, WorkerStep(d, a, step, now, seconds))
  {
    if Concludes(step) {
      ConcludedData(d, a, step, now, seconds);
    }
  }

  lemma ConcludedData(d: Document, a: AttemptId, step: DocStep, now: int, seconds: nat)
    requires StepAttempt(step) == Some(a) && Enabled(d, step) && BeingDeleted(d) && Concludes(step)
    ensures NoNewData(d, WorkerStep(d, a, step, now, seconds))
  {
  }

  lemma StepData(d: Document, step: DocStep, now: int, seconds: nat, slotFree: bool)
    requires BeingDeleted(d)
    ensures NoNewData(d, DocNext(d, step, now, seconds, slotFree))
  {
    if Enabled(d, step) {
      match StepAttempt(step)
      case Some(a) => WorkerData(d, a, step, now, seconds);
      case None =>
        match step {
          case Delete(open) => StageDeleteUntouched(d, open);
          case TakeOverLease(index) => RecoverLeaseUntouched(d, index);
          case TakeOverAttempt(a) => RecoverRunningUntouched(d, a);
          case _ =>
        }
    }
  }

  lemma WorkerTerms(d: Document, a: AttemptId, step: DocStep, now: int, seconds: nat)
    requires StepAttempt(step) == Some(a) && Enabled(d, step) && d.status.Deleting?
    ensures SameTerms(d, WorkerStep(d, a, step, now, seconds))
  {
  }

  /** While a document is DELETING the expiry of its leases stands still. */
  lemma StepTerms(d: Document, step: DocStep, now: int, seconds: nat, slotFree: bool)
    requires d.status.Deleting?
    ensures SameTerms(d, DocNext(d, step, now, seconds, slotFree))
  {
    if Enabled(d, step) {
      match StepAttempt(step)
      case Some(a) => WorkerTerms(d, a, step, now, seconds);
      case None =>
        match step {
          case Delete(open) => StageDeleteUntouched(d, open);
          case TakeOverLease(index) => RecoverLeaseUntouched(d, index);
          case TakeOverAttempt(a) => RecoverRunningUntouched(d, a);
          case _ =>
        }
    }
  }

  lemma CompleteLeases(d: Document, a: AttemptId, total: Option<nat>, processed: Option<nat>, expected: Option<nat>)
    requires HasAttempt(d, a) && IsStage(a.key)
    ensures var o := CompleteStage(d, a, total, processed, expected); o.Committed? ==> |o.document.leases| == |d.leases|
  {
  }

  lemma SavedLeases(d: Document, a: AttemptId, text: string, pieces: seq<string>)
    requires HasAttempt(d, a) && IsStage(a.key)
    ensures var o := CommitParse(d, a, text); o.Committed? ==> |o.document.leases| == |d.leases|
    ensures var o := CommitChunk(d, a, pieces); o.Committed? ==> |o.document.leases| == |d.leases|
  {
    CompleteLeases(d.(parseResults := d.parseResults + [text]), a, Some(1), Some(1), None);
    CompleteLeases(d.(drafts := pieces), a, Some(|pieces|), Some(|pieces|), None);
  }

  lemma WorkerLeases(d: Document, a: AttemptId, step: DocStep, now: int, seconds: nat)
    requires StepAttempt(step) == Some(a) && Enabled(d, step)
    ensures |WorkerStep(d, a, step, now, seconds).leases| == |d.leases|
  {
    var worker := AttemptOf(d, a).worker;
    match step {
      case SaveParse(_) => SavedLeases(d, a, worker.text, []);
      case SaveDrafts(_) => SavedLeases(d, a, [], Pieces(worker.text));
      case FinishEmbed(_) => CompleteLeases(d, a, Some(worker.count), Some(worker.count), None);
      case Publish(_) => CompleteLeases(d, a, None, None, Some(worker.count));
      case _ =>
    }
  }

  /** Only the parse worker's admission adds a lease, and only when the user has a free slot. */
  lemma StepLeases(d: Document, step: DocStep, now: int, seconds: nat, slotFree: bool)
    ensures var e := DocNext(d, step, now, seconds, slotFree);
            |e.leases| == |d.leases| || (step.Admit? && slotFree && |e.leases| == |d.leases| + 1)
  {
    if Enabled(d, step) {
      match StepAttempt(step)
      case Some(a) => WorkerLeases(d, a, step, now, seconds);
      case None =>
        match step {
          case Delete(open) => StageDeleteUntouched(d, open);
          case TakeOverLease(index) => RecoverLeaseUntouched(d, index);
          case TakeOverAttempt(a) => RecoverRunningUntouched(d, a);
          case _ =>
        }
    }
  }
}
