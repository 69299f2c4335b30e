/** What a search can find of a document that was deleted: nothing while it is DELETED, and afterwards exactly what
    brings it back. */
module Reappearance {
  import opened Rows
  import opened Transactions
  import opened Protocol
  import opened Invariant
  import opened Runs
  import opened Checkpoint
  import opened Publication
  import opened Completion

  // ---------------------------------------------------------------------------------------------
  // Hidden documents
  // ---------------------------------------------------------------------------------------------

  /** A running embed worker that has the vectors of all its drafts and may write them. */
  predicate HoldsAll(attempt: Attempt) {
    attempt.status.Running? && attempt.worker.Loaded? && attempt.worker.drafts != []
    && attempt.worker.embedded >= |attempt.worker.drafts|
  }

  predicate VectorsHeld(attempts: seq<Attempt>) {
    exists i :: 0 <= i < |attempts| && HoldsAll(attempts[i])
  }

  predicate CanFinalize(d: Document) {
    && StageKey(Finalize) in d.tasks
    && (Unstarted(d.tasks[StageKey(Finalize)]) || d.tasks[StageKey(Finalize)].status.TaskRunning?)
  }

  /** No lease and no drafts; and no chunk row with nobody to write one, or no finalize run to publish any. */
  predicate Hidden(d: Document) {
    && !HasOpenLease(d) && d.drafts == []
    && ((d.chunks == [] && !VectorsHeld(AttemptsOf(d, Embed))) || (!CanFinalize(d) && !d.status.Completed?))
  }

  lemma NothingToFind(d: Document)
    requires Hidden(d)
    ensures Searchable(d) == []
  {
  }

  /** The parse worker acquires a lease for the document. */
  predicate Admits(d: Document, step: DocStep, slotFree: bool) {
    step.Admit? && slotFree && (d.status.Queued? || d.status.Processing?) && !HasOpenLease(d)
  }

  // ---------------------------------------------------------------------------------------------
  // Every step
  // ---------------------------------------------------------------------------------------------

  /** `e` is hidden if `d` is: no vectors, no chunk rows, no finalize run and no publication come in. */
  ghost predicate StaysHidden(d: Document, e: Document) {
    && !HasOpenLease(e) && (e.drafts == d.drafts || e.drafts == []) && (e.chunks == d.chunks || e.chunks == [])
    && (VectorsHeld(AttemptsOf(e, Embed)) ==> VectorsHeld(AttemptsOf(d, Embed)))
    && (CanFinalize(e) ==> CanFinalize(d))
    && (e.status.Completed? ==> d.status.Completed? || CanFinalize(d))
  }

  lemma HiddenStays(d: Document, e: Document)
    requires Hidden(d) && StaysHidden(d, e)
    ensures Hidden(e)
  {
  }

  /** No attempt comes to hold vectors. */
  ghost predicate NoNewVectors(s: seq<Attempt>, t: seq<Attempt>) {
    forall i :: 0 <= i < |t| && HoldsAll(t[i]) ==> i < |s| && HoldsAll(s[i])
  }

  lemma VectorsFrom(s: seq<Attempt>, t: seq<Attempt>)
    requires NoNewVectors(s, t) && VectorsHeld(t)
    ensures VectorsHeld(s)
  {
    var i :| 0 <= i < |t| && HoldsAll(t[i]);
    assert HoldsAll(s[i]);
  }

  lemma FromAttempts(d: Document, e: Document)
    requires !HasOpenLease(e) && (e.drafts == d.drafts || e.drafts == []) && (e.chunks == d.chunks || e.chunks == [])
    requires NoNewVectors(AttemptsOf(d, Embed), AttemptsOf(e, Embed))
    requires CanFinalize(e) ==> CanFinalize(d)
    requires e.status.Completed? ==> d.status.Completed? || CanFinalize(d)
    ensures StaysHidden(d, e)
  {
    if VectorsHeld(AttemptsOf(e, Embed)) {
      VectorsFrom(AttemptsOf(d, Embed), AttemptsOf(e, Embed));
    }
  }

  lemma SetWorkerHidden(d: Document, a: AttemptId, worker: Worker)
    requires Hidden(d) && HasAttempt(d, a) && !worker.Loaded?
    ensures Hidden(SetWorker(d, a, worker))
  {
    FromAttempts(d, SetWorker(d, a, worker));
  }

  /** Without a lease nothing is advanced: only a finalize run may still commit. */
  lemma CompleteHidden(d: Document, a: AttemptId, total: Option<nat>, processed: Option<nat>, expected: Option<nat>)
    requires TasksInv(d) && Hidden(d) && HasAttempt(d, a) && IsStage(a.key)
    ensures var o := CompleteStage(d, a, total, processed, expected);
            o.Committed? ==> a.key.kind.Finalize? && Hidden(o.document) && HasAttempt(o.document, a)
  {
    assert TaskInv(a.key, d.tasks[a.key]);
    if a.key.kind.Finalize? {
      if d.tasks[a.key].status.TaskRunning? {
        FinalizeHidden(d, a, expected);
      }
    } else {
      NotAdvanced(d, a, total, processed);
    }
  }

  lemma NotAdvanced(d: Document, a: AttemptId, total: Option<nat>, processed: Option<nat>)
    requires !HasOpenLease(d) && HasAttempt(d, a) && IsStage(a.key) && !a.key.kind.Finalize?
    ensures !Advance(d, a, total, processed).Committed?
  {
  }

  lemma FinalizeHidden(d: Document, a: AttemptId, expected: Option<nat>)
    requires Hidden(d) && HasAttempt(d, a) && a.key == StageKey(Finalize) && d.tasks[a.key].status.TaskRunning?
    ensures Hidden(CompleteFinalize(d, a, expected)) && HasAttempt(CompleteFinalize(d, a, expected), a)
  {
    FromAttempts(d, CompleteFinalize(d, a, expected));
  }

  lemma SaveChunksHidden(d: Document, a: AttemptId)
    requires Hidden(d) && HasAttempt(d, a) && a.key == StageKey(Embed) && AttemptOf(d, a).worker.Loaded?
    requires AttemptOf(d, a).worker.embedded >= |AttemptOf(d, a).worker.drafts|
    ensures var drafts := AttemptOf(d, a).worker.drafts;
            Hidden(Conclude(d, a, WriteChunks(d, a, drafts), Wrote(|drafts|), Rejected))
  {
    var drafts := AttemptOf(d, a).worker.drafts;
    var o := WriteChunks(d, a, drafts);
    if o.Committed? {
      assert AttemptsOf(d, Embed)[a.index] == AttemptOf(d, a);
      assert AttemptsOf(o.document, Embed) == AttemptsOf(d, Embed);
      SetWorkerHidden(o.document, a, Wrote(|drafts|));
    } else {
      SetWorkerHidden(d, a, Rejected);
    }
  }

  lemma SavesHidden(d: Document, a: AttemptId, text: string, pieces: seq<string>)
    requires TasksInv(d) && Hidden(d) && HasAttempt(d, a) && (a.key.kind.Parse? || a.key.kind.Chunk?)
    ensures Hidden(Conclude(d, a, CommitParse(d, a, text), Done, Rejected))
    ensures Hidden(Conclude(d, a, CommitChunk(d, a, pieces), Done, Rejected))
  {
    SetWorkerHidden(d, a, Rejected);
    SetWorkerHidden(d, a, Done);
  }

  lemma FailedHidden(d: Document, a: AttemptId, code: Option<nat>)
    requires TasksInv(d) && Hidden(d) && HasAttempt(d, a) && IsStage(a.key)
    ensures Hidden(FailStage(d, a, code))
  {
    assert TaskInv(a.key, d.tasks[a.key]);
    if AttemptOf(d, a).status.Running? {
      if code.Some? {
        GivenUpHidden(d, a, code.value);
      } else if d.tasks[a.key].retry < d.tasks[a.key].maxRetries {
        RetriedHidden(d, a);
      } else {
        GivenUpHidden(d, a, PROCESSING_FAILED);
      }
    }
  }

  lemma RetriedHidden(d: Document, a: AttemptId)
    requires Hidden(d) && HasAttempt(d, a) && AttemptOf(d, a).status.Running? && IsStage(a.key)
    requires TaskInv(a.key, d.tasks[a.key]) && d.tasks[a.key].retry < d.tasks[a.key].maxRetries
    ensures Hidden(FailStage(d, a, None))
  {
    FromAttempts(d, FailStage(d, a, None));
  }

  lemma GivenUpHidden(d: Document, a: AttemptId, code: nat)
    requires Hidden(d) && HasAttempt(d, a)
    ensures Hidden(GiveUp(d, a, code))
  {
    FromAttempts(d, GiveUp(d, a, code));
  }

  lemma ConvergedHidden(d: Document, a: AttemptId)
    requires Hidden(d) && HasAttempt(d, a) && IsStage(a.key)
    ensures Hidden(ConvergeCancelled(d, a))
  {
    FromAttempts(d, ConvergeCancelled(d, a));
  }

  lemma EndHidden(d: Document, a: AttemptId, step: DocStep, now: int, seconds: nat)
    requires TasksInv(d) && Hidden(d) && StepAttempt(step) == Some(a) && Enabled(d, step) && IsStage(a.key)
             && IsEnding(step)
    ensures Hidden(WorkerStep(d, a, step, now, seconds))
  {
    var worker := AttemptOf(d, a).worker;
    match step
    case FinishEmbed(_) =>
      CompleteHidden(d, a, Some(worker.count), Some(worker.count), None);
      SetWorkerHidden(d, a, Done);
    case Publish(_) =>
      var o := CompleteStage(d, a, None, None, Some(worker.count));
      CompleteHidden(d, a, None, None, Some(worker.count));
      SetWorkerHidden(d, a, Done);
      SetWorkerHidden(d, a, Rejected);
      if o.Committed? {
        SetWorkerHidden(o.document, a, Done);
      }
    case Fail(_, code) =>
      FailedHidden(d, a, code);
      SetWorkerHidden(FailStage(d, a, code), a, Done);
    case Converge(_) =>
      ConvergedHidden(d, a);
      SetWorkerHidden(ConvergeCancelled(d, a), a, Done);
  }

  lemma WorkHidden(d: Document, a: AttemptId, step: DocStep, now: int, seconds: nat)
    requires TasksInv(d) && Hidden(d) && StepAttempt(step) == Some(a) && Enabled(d, step) && IsStage(a.key)
             && !IsEnding(step)
    ensures Hidden(WorkerStep(d, a, step, now, seconds))
  {
    assert TaskInv(a.key, d.tasks[a.key]);
    match step
    case SaveParse(_) => SavesHidden(d, a, AttemptOf(d, a).worker.text, []);
    case SaveDrafts(_) => SavesHidden(d, a, [], Pieces(AttemptOf(d, a).worker.text));
    case SaveChunks(_) => SaveChunksHidden(d, a);
    case ReadOriginal(_, text) => SetWorkerHidden(d, a, Parsed(text));
    case CheckLease(_) => SetWorkerHidden(d, a, Rejected);
    case ReadText(_) =>
      if d.parseResults != [] {
        SetWorkerHidden(d, a, Read(LastText(d)));
      }
    case LoadDrafts(_) =>
    case Renew(_) => SetWorkerHidden(d, a, Rejected);
    case ReadCheckpoint(_) => SetWorkerHidden(d, a, Expecting(EmbedCheckpoint(d)));
  }

  lemma CleanupHidden(d: Document, a: AttemptId, step: DocStep, now: int, seconds: nat)
    requires Hidden(d) && StepAttempt(step) == Some(a) && Enabled(d, step) && !IsStage(a.key)
    ensures Hidden(WorkerStep(d, a, step, now, seconds))
  {
    FromAttempts(d, WorkerStep(d, a, step, now, seconds));
  }

  lemma QueueHidden(d: Document)
    requires Hidden(d)
    ensures var o := QueueCleanup(d); o.Committed? ==> Hidden(o.document)
    ensures var o := ActivateCleanup(d); o.Committed? ==> Hidden(o.document)
  {
    var o, p := QueueCleanup(d), ActivateCleanup(d);
    if o.Committed? {
      FromAttempts(d, o.document);
    }
    if p.Committed? {
      FromAttempts(d, p.document);
    }
  }

  lemma MarkHidden(d: Document, open: Option<AttemptId>)
    requires Hidden(d) && IsOpenAttempt(d, open)
    ensures Hidden(BeforeCleanup(d, open))
  {
    FromAttempts(d, MarkDeleting(d));
    FromAttempts(d, BeforeCleanup(d, open));
  }

  lemma DeleteHidden(d: Document, open: Option<AttemptId>)
    requires Hidden(d) && IsOpenAttempt(d, open)
    ensures Hidden(StageDelete(d, open))
  {
    if !BeingDeleted(d) {
      MarkHidden(d, open);
      QueueHidden(BeforeCleanup(d, open));
    }
  }

  lemma LossHidden(d: Document, a: AttemptId)
    requires TasksInv(d) && Hidden(d) && HasAttempt(d, a)
    ensures Hidden(RecoverRunningWithoutLease(d, a))
  {
    assert TaskInv(a.key, d.tasks[a.key]);
    if d.status.Deleting? && IsStage(a.key) {
      var d1 := PutTask(d, a.key, CloseAttempt(d.tasks[a.key], a.index, Cancelled).(status := TaskCancelled));
      var d2 := d1.(current := Some(DeleteCleanup), retry := 0);
      FromAttempts(d, d2);
      QueueHidden(d2);
    } else if d.status.Deleting? {
      CleanupLossHidden(d, a);
    } else {
      TaskLossHidden(d, a);
    }
  }

  lemma CleanupLossHidden(d: Document, a: AttemptId)
    requires Hidden(d) && HasAttempt(d, a) && d.status.Deleting? && !IsStage(a.key)
    ensures Hidden(RecoverRunningWithoutLease(d, a))
  {
    FromAttempts(d, RecoverRunningWithoutLease(d, a));
  }

  lemma TaskLossHidden(d: Document, a: AttemptId)
    requires HasAttempt(d, a) && TaskInv(a.key, d.tasks[a.key]) && Hidden(d) && !d.status.Deleting?
    ensures Hidden(RecoverRunningWithoutLease(d, a))
  {
    FromAttempts(d, RecoverRunningWithoutLease(d, a));
  }

  lemma UploadHidden(d: Document)
    requires Hidden(d)
    ensures Hidden(MarkQueued(d)) && Hidden(Compensate(d))
  {
    FromAttempts(d, MarkQueued(d));
    FromAttempts(d, Compensate(d));
  }

  lemma OtherHidden(d: Document, step: DocStep, now: int, seconds: nat, slotFree: bool)
    requires TasksInv(d) && Hidden(d) && Enabled(d, step) && StepAttempt(step).None? && !Admits(d, step, slotFree)
    ensures Hidden(DocNext(d, step, now, seconds, slotFree))
  {
    match step
    case Coordinate => UploadHidden(d);
    case CompensateUpload => UploadHidden(d);
    case Admit =>
    case Begin(key) => FromAttempts(d, BeginAttempt(d, key));
    case Delete(open) => DeleteHidden(d, open);
    case TakeOverLease(index) =>
    case TakeOverAttempt(a) => LossHidden(d, a);
    case _ =>
  }

  lemma StepHidden(d: Document, step: DocStep, now: int, seconds: nat, slotFree: bool)
    requires TasksInv(d) && Hidden(d) && !Admits(d, step, slotFree)
    ensures Hidden(DocNext(d, step, now, seconds, slotFree))
  {
    if Enabled(d, step) {
      match StepAttempt(step)
      case Some(a) =>
        if !IsStage(a.key) {
          CleanupHidden(d, a, step, now, seconds);
        } else if IsEnding(step) {
          EndHidden(d, a, step, now, seconds);
        } else {
          WorkHidden(d, a, step, now, seconds);
        }
      case None => OtherHidden(d, step, now, seconds, slotFree);
    }
  }

  /** A hidden document stays hidden in exactly the steps that do not admit it again. */
  lemma HiddenExactly(d: Document, step: DocStep, now: int, seconds: nat, slotFree: bool)
    requires TasksInv(d) && Hidden(d)
    ensures Hidden(DocNext(d, step, now, seconds, slotFree)) <==> !Admits(d, step, slotFree)
  {
    if Admits(d, step, slotFree) {
      var e := AdmitParse(d, now, seconds, slotFree);
      assert IsOpen(e.leases[|d.leases|]);
    } else {
      StepHidden(d, step, now, seconds, slotFree);
    }
  }

  // ---------------------------------------------------------------------------------------------
  // Along runs
  // ---------------------------------------------------------------------------------------------

  predicate IsAdmission(c: Config, s: System, event: Event, id: nat) {
    event.On? && event.id == id && id in s.docs && Admits(s.docs[id], event.step, SlotFree(c, s, id))
  }

  /** The document is not admitted during the continuation. */
  ghost predicate Unadmitted(c: Config, s: System, more: seq<Event>, id: nat) {
    forall k :: 0 <= k < |more| ==> !IsAdmission(c, Run(c, s, more[..k]), more[k], id)
  }

  lemma NextHidden(c: Config, s: System, event: Event, id: nat)
    requires id in s.docs && TasksInv(s.docs[id]) && Hidden(s.docs[id]) && !IsAdmission(c, s, event, id)
    ensures id in Next(c, s, event).docs && Hidden(Next(c, s, event).docs[id])
  {
    if event.On? && event.id == id {
      StepHidden(s.docs[id], event.step, s.now, c.leaseSeconds, SlotFree(c, s, id));
    }
  }

  lemma {:induction false} RunHidden(c: Config, s: System, more: seq<Event>, id: nat)
    requires SystemInv(c, s) && id in s.docs && Hidden(s.docs[id]) && Unadmitted(c, s, more, id)
    ensures id in Run(c, s, more).docs && Hidden(Run(c, s, more).docs[id])
  {
    if more != [] {
      var front := more[..|more| - 1];
      forall k | 0 <= k < |front|
        ensures !IsAdmission(c, Run(c, s, front[..k]), front[k], id)
      {
        assert front[..k] == more[..k];
      }
      RunHidden(c, s, front, id);
      KeptInv(c, s, id, front);
      assert more[..|more| - 1] == front;
      NextHidden(c, Run(c, s, front), more[|more| - 1], id);
    }
  }

  /** A deleted document can come back to the search by itself only if, when it is DELETED, a running embed worker holds
      all its vectors and a finalize run is still to come or under way. */
  predicate LeftBehind(d: Document) {
    VectorsHeld(AttemptsOf(d, Embed)) && CanFinalize(d)
  }

  lemma DeletedIsHidden(d: Document)
    requires DocInv(d) && d.status.Deleted? && !LeftBehind(d)
    ensures Hidden(d)
  {
  }

  /** In every run: a DELETED document is not found again, whatever happens, unless it is admitted again or both of these
      were left behind. */
  lemma DeletedStaysHidden(c: Config, run: seq<Event>, more: seq<Event>, id: nat)
    requires id in Reached(c, run).docs && Reached(c, run).docs[id].status.Deleted?
             && !LeftBehind(Reached(c, run).docs[id])
    requires Unadmitted(c, Reached(c, run), more, id)
    ensures id in Reached(c, run + more).docs && Searchable(Reached(c, run + more).docs[id]) == []
  {
    Reachable(c, run);
    RunConcat(c, EmptySystem, run, more);
    DeletedIsHidden(Reached(c, run).docs[id]);
    RunHidden(c, Reached(c, run), more, id);
    NothingToFind(Reached(c, run + more).docs[id]);
  }

  // ---------------------------------------------------------------------------------------------
  // What was left behind does bring it back
  // ---------------------------------------------------------------------------------------------

  ghost predicate FoundBy(c: Config, s: System, id: nat, more: seq<Event>) {
    id in Run(c, s, more).docs && Searchable(Run(c, s, more).docs[id]) != []
  }

  /** Some continuation without an admission makes the document searchable. */
  ghost predicate CanReappear(c: Config, s: System, id: nat) {
    exists more :: Unadmitted(c, s, more, id) && FoundBy(c, s, id, more)
  }

  lemma FoundNow(c: Config, s: System, id: nat)
    requires id in s.docs && Searchable(s.docs[id]) != []
    ensures CanReappear(c, s, id)
  {
    assert Run(c, s, []) == s;
    assert Unadmitted(c, s, [], id) && FoundBy(c, s, id, []);
  }

  lemma ReappearsAfter(c: Config, s: System, id: nat, step: DocStep)
    requires !step.Admit? && CanReappear(c, Next(c, s, On(id, step)), id)
    ensures CanReappear(c, s, id)
  {
    var t, event := Next(c, s, On(id, step)), On(id, step);
    var more :| Unadmitted(c, t, more, id) && FoundBy(c, t, id, more);
    UnadmittedLater(c, s, id, event, more);
    OneLater(c, s, event, more, |more|);
    assert ([event] + more)[..|more| + 1] == [event] + more && more[..|more|] == more;
    assert FoundBy(c, s, id, [event] + more);
  }

  lemma UnadmittedLater(c: Config, s: System, id: nat, event: Event, more: seq<Event>)
    requires !IsAdmission(c, s, event, id) && Unadmitted(c, Next(c, s, event), more, id)
    ensures Unadmitted(c, s, [event] + more, id)
  {
    var all := [event] + more;
    assert all[..0] == [] && Run(c, s, []) == s;
    forall k | 0 <= k < |all|
      ensures !IsAdmission(c, Run(c, s, all[..k]), all[k], id)
    {
      if k > 0 {
        OneLater(c, s, event, more, k - 1);
        assert !IsAdmission(c, Run(c, Next(c, s, event), more[..k - 1]), more[k - 1], id);
      }
    }
  }

  /** Nobody has begun: every worker may take part. */
  const NOBODY := NewDocument(0)

  lemma ExpectingFound(c: Config, s: System, id: nat, a: AttemptId)
    requires id in s.docs && Works(NOBODY, s.docs[id], Finalize, a) && s.docs[id].chunks != []
    requires AttemptOf(s.docs[id], a).worker == Expecting(|s.docs[id].chunks|)
    ensures CanReappear(c, s, id)
  {
    StepTaken(c, s, id, Publish(a));
    PublishStep(NOBODY, s.docs[id], a, s.now, c.leaseSeconds, SlotFree(c, s, id));
    FoundNow(c, Next(c, s, On(id, Publish(a))), id);
    ReappearsAfter(c, s, id, Publish(a));
  }

  lemma BegunFound(c: Config, s: System, id: nat, a: AttemptId)
    requires id in s.docs && Works(NOBODY, s.docs[id], Finalize, a) && s.docs[id].chunks != []
    requires AttemptOf(s.docs[id], a).worker.Working? && EmbedCheckpoint(s.docs[id]) == |s.docs[id].chunks|
    ensures CanReappear(c, s, id)
  {
    StepTaken(c, s, id, ReadCheckpoint(a));
    CheckpointStep(NOBODY, s.docs[id], a, s.now, c.leaseSeconds, SlotFree(c, s, id));
    ExpectingFound(c, Next(c, s, On(id, ReadCheckpoint(a))), id, a);
    ReappearsAfter(c, s, id, ReadCheckpoint(a));
  }

  lemma QueuedFound(c: Config, s: System, id: nat)
    requires id in s.docs && DocInv(s.docs[id]) && StageQueued(s.docs[id], Finalize) && s.docs[id].chunks != []
    requires EmbedCheckpoint(s.docs[id]) == |s.docs[id].chunks|
    ensures CanReappear(c, s, id)
  {
    var e, step := s.docs[id], Begin(StageKey(Finalize));
    StepTaken(c, s, id, step);
    BeginStep(NOBODY, e, Finalize, s.now, c.leaseSeconds, SlotFree(c, s, id));
    BegunFound(c, Next(c, s, On(id, step)), id, AttemptId(StageKey(Finalize), |e.tasks[StageKey(Finalize)].attempts|));
    ReappearsAfter(c, s, id, step);
  }

  ghost predicate EmbedHoldsAll(e: Document, a: AttemptId) {
    a.key == StageKey(Embed) && HasAttempt(e, a) && HoldsAll(AttemptOf(e, a)) && e.tasks[a.key].status.TaskRunning?
  }

  lemma WriteStep(e: Document, a: AttemptId, now: int, seconds: nat, slotFree: bool)
    requires EmbedHoldsAll(e, a) && StageQueued(e, Finalize)
    ensures var f := DocNext(e, SaveChunks(a), now, seconds, slotFree);
            StageQueued(f, Finalize) && f.chunks != [] && EmbedCheckpoint(f) == |f.chunks|
  {
  }

  lemma WritesFound(c: Config, s: System, id: nat, a: AttemptId)
    requires id in s.docs && DocInv(s.docs[id]) && EmbedHoldsAll(s.docs[id], a) && StageQueued(s.docs[id], Finalize)
    ensures CanReappear(c, s, id)
  {
    StepTaken(c, s, id, SaveChunks(a));
    WriteStep(s.docs[id], a, s.now, c.leaseSeconds, SlotFree(c, s, id));
    StepKeeps(s.docs[id], SaveChunks(a), s.now, c.leaseSeconds, SlotFree(c, s, id));
    QueuedFound(c, Next(c, s, On(id, SaveChunks(a))), id);
    ReappearsAfter(c, s, id, SaveChunks(a));
  }

  /** The finalize run is lost and taken over: the DELETED document is QUEUED. */
  lemma FinalizeLostStep(e: Document, a: AttemptId, f: AttemptId, now: int, seconds: nat, slotFree: bool)
    requires DocInv(e) && e.status.Deleted? && EmbedHoldsAll(e, a) && f.key == StageKey(Finalize) && HasAttempt(e, f)
    requires AttemptOf(e, f).status.Running? && e.tasks[f.key].status.TaskRunning? && e.tasks[f.key].retry < MAX_RETRIES
    ensures var g := DocNext(e, TakeOverAttempt(f), now, seconds, slotFree);
            EmbedHoldsAll(g, a) && StageQueued(g, Finalize)
  {
    assert TaskInv(f.key, e.tasks[f.key]);
  }

  lemma FinalizeLostFound(c: Config, s: System, id: nat, a: AttemptId, f: AttemptId)
    requires id in s.docs && DocInv(s.docs[id]) && s.docs[id].status.Deleted? && EmbedHoldsAll(s.docs[id], a)
    requires f.key == StageKey(Finalize) && HasAttempt(s.docs[id], f) && AttemptOf(s.docs[id], f).status.Running?
    requires s.docs[id].tasks[f.key].status.TaskRunning? && s.docs[id].tasks[f.key].retry < MAX_RETRIES
    ensures CanReappear(c, s, id)
  {
    StepTaken(c, s, id, TakeOverAttempt(f));
    FinalizeLostStep(s.docs[id], a, f, s.now, c.leaseSeconds, SlotFree(c, s, id));
    StepKeeps(s.docs[id], TakeOverAttempt(f), s.now, c.leaseSeconds, SlotFree(c, s, id));
    WritesFound(c, Next(c, s, On(id, TakeOverAttempt(f))), id, a);
    ReappearsAfter(c, s, id, TakeOverAttempt(f));
  }

  lemma FinalizeBeginsStep(e: Document, a: AttemptId, now: int, seconds: nat, slotFree: bool)
    requires DocInv(e) && e.status.Deleted? && EmbedHoldsAll(e, a)
    requires StageKey(Finalize) in e.tasks && TaskIn(e, Finalize).status.TaskQueued?
    ensures var g := DocNext(e, Begin(StageKey(Finalize)), now, seconds, slotFree);
            var f := AttemptId(StageKey(Finalize), |TaskIn(e, Finalize).attempts|);
            && g.status.Deleted? && EmbedHoldsAll(g, a) && HasAttempt(g, f) && AttemptOf(g, f).status.Running?
            && g.tasks[f.key].status.TaskRunning? && g.tasks[f.key].retry == TaskIn(e, Finalize).retry
  {
    assert TaskInv(StageKey(Finalize), TaskIn(e, Finalize));
    assert CanBegin(e, StageKey(Finalize));
  }

  lemma LeftBehindFound(c: Config, s: System, id: nat, a: AttemptId)
    requires id in s.docs && DocInv(s.docs[id]) && s.docs[id].status.Deleted? && EmbedHoldsAll(s.docs[id], a)
    requires CanFinalize(s.docs[id]) && TaskIn(s.docs[id], Finalize).retry < MAX_RETRIES
    ensures CanReappear(c, s, id)
  {
    var e, key := s.docs[id], StageKey(Finalize);
    assert TaskInv(key, e.tasks[key]);
    if e.tasks[key].status.TaskRunning? {
      FinalizeLostFound(c, s, id, a, AttemptId(key, |e.tasks[key].attempts| - 1));
    } else {
      StepTaken(c, s, id, Begin(key));
      FinalizeBeginsStep(e, a, s.now, c.leaseSeconds, SlotFree(c, s, id));
      StepKeeps(e, Begin(key), s.now, c.leaseSeconds, SlotFree(c, s, id));
      FinalizeLostFound(c, Next(c, s, On(id, Begin(key))), id, a, AttemptId(key, |e.tasks[key].attempts|));
      ReappearsAfter(c, s, id, Begin(key));
    }
  }

  /** In every reachable state a DELETED document whose finalize task, if there is one, has a retry left can be found again
      without being admitted if and only if both were left behind. */
  lemma ReappearsExactly(c: Config, run: seq<Event>, id: nat)
    requires id in Reached(c, run).docs && Reached(c, run).docs[id].status.Deleted?
    requires StageKey(Finalize) in Reached(c, run).docs[id].tasks ==>
               TaskIn(Reached(c, run).docs[id], Finalize).retry < MAX_RETRIES
    ensures CanReappear(c, Reached(c, run), id) <==> LeftBehind(Reached(c, run).docs[id])
  {
    var s := Reached(c, run);
    var d := s.docs[id];
    Reachable(c, run);
    if LeftBehind(d) {
      var i :| 0 <= i < |AttemptsOf(d, Embed)| && HoldsAll(AttemptsOf(d, Embed)[i]);
      assert TaskInv(StageKey(Embed), d.tasks[StageKey(Embed)]);
      LeftBehindFound(c, s, id, AttemptId(StageKey(Embed), i));
    } else {
      forall more | Unadmitted(c, s, more, id)
        ensures !FoundBy(c, s, id, more)
      {
        DeletedStaysHidden(c, run, more, id);
        RunConcat(c, EmptySystem, run, more);
      }
    }
  }
}
