/** What the chunk rows of a document that was never deleted hold: in every run, however often messages are
    redelivered, what is published is exactly what the chunk stage produced. */
module Publication {
  import opened Rows
  import opened Transactions
  import opened Protocol
  import opened Invariant
  import opened Runs
  import opened Checkpoint

  // ---------------------------------------------------------------------------------------------
  // The invariant
  // ---------------------------------------------------------------------------------------------

  predicate ChunkSucceeded(d: Document) {
    StageKey(Chunk) in d.tasks && d.tasks[StageKey(Chunk)].status.TaskSucceeded?
  }

  /** Once the chunk stage has succeeded no open lease names it, so no recovery runs it again and the
      drafts stay what they are. */
  ghost predicate ChunkEnded(d: Document) {
    && (StageKey(Embed) in d.tasks ==> ChunkSucceeded(d))
    && (ChunkSucceeded(d) ==>
          forall i :: 0 <= i < |d.leases| && IsOpen(d.leases[i]) ==> d.leases[i].task != StageKey(Chunk))
  }

  /** Every embed worker, lost or not, holds the present drafts, and the chunk rows one has written are they. */
  ghost predicate EmbedHolds(d: Document) {
    forall i :: 0 <= i < |AttemptsOf(d, Embed)| ==>
      var worker := AttemptsOf(d, Embed)[i].worker;
      && (worker.Loaded? ==> worker.drafts == d.drafts)
      && (worker.Wrote? ==> d.chunks == d.drafts)
  }

  /** From the finalize task on the chunk rows are the drafts; every finalize worker expects their number. */
  ghost predicate FinalizeHolds(d: Document) {
    && (StageKey(Finalize) in d.tasks ==> d.chunks == d.drafts)
    && (forall i :: 0 <= i < |AttemptsOf(d, Finalize)| ==>
          var worker := AttemptsOf(d, Finalize)[i].worker;
          worker.Expecting? ==> worker.count == |d.chunks|)
    && (d.status.Completed? ==> d.chunkCount == |d.chunks|)
  }

  ghost predicate ContentInv(d: Document) {
    d.cycle == 0 ==> ChunkEnded(d) && EmbedHolds(d) && FinalizeHolds(d)
  }

  // ---------------------------------------------------------------------------------------------
  // Transactions that leave the content alone
  // ---------------------------------------------------------------------------------------------

  ghost predicate SameWorkers(s: seq<Attempt>, t: seq<Attempt>) {
    |t| == |s| && forall i :: 0 <= i < |s| ==> t[i].worker == s[i].worker
  }

  ghost predicate LeasesStay(d: Document, e: Document) {
    forall i :: 0 <= i < |e.leases| && IsOpen(e.leases[i]) && e.leases[i].task == StageKey(Chunk) ==>
      i < |d.leases| && IsOpen(d.leases[i]) && d.leases[i].task == StageKey(Chunk)
  }

  ghost predicate ContentStays(d: Document, e: Document) {
    && e.cycle == d.cycle && e.drafts == d.drafts && e.chunks == d.chunks
    && (StageKey(Embed) in e.tasks <==> StageKey(Embed) in d.tasks)
    && (StageKey(Finalize) in e.tasks <==> StageKey(Finalize) in d.tasks)
    && (ChunkSucceeded(e) <==> ChunkSucceeded(d))
    && SameWorkers(AttemptsOf(d, Embed), AttemptsOf(e, Embed))
    && SameWorkers(AttemptsOf(d, Finalize), AttemptsOf(e, Finalize))
    && LeasesStay(d, e)
    && (e.status.Completed? ==> d.status.Completed? && e.chunkCount == d.chunkCount)
  }

  lemma StaysContent(d: Document, e: Document)
    requires ContentInv(d) && ContentStays(d, e)
    ensures ContentInv(e)
  {
  }

  /** One task row changes: not the success of the chunk task, and no worker moves. */
  lemma OneTaskContent(d: Document, e: Document, key: TaskKey)
    requires key in d.tasks && key in e.tasks && e.tasks == d.tasks[key := e.tasks[key]]
    requires SameWorkers(d.tasks[key].attempts, e.tasks[key].attempts)
    requires key == StageKey(Chunk) ==> (e.tasks[key].status.TaskSucceeded? <==> d.tasks[key].status.TaskSucceeded?)
    requires e.cycle == d.cycle && e.drafts == d.drafts && e.chunks == d.chunks && LeasesStay(d, e)
    requires e.status.Completed? ==> d.status.Completed? && e.chunkCount == d.chunkCount
    ensures ContentStays(d, e)
  {
  }

  lemma ReleasedStay(d: Document, e: Document, reason: ReleaseReason)
    requires e.leases == ReleaseLease(d, reason).leases
    ensures LeasesStay(d, e)
  {
  }

  lemma GiveUpContent(d: Document, a: AttemptId, code: nat)
    requires HasAttempt(d, a) && !d.tasks[a.key].status.TaskSucceeded?
    ensures ContentStays(d, GiveUp(d, a, code))
  {
    var e := GiveUp(d, a, code);
    ReleasedStay(d, e, ByFailure);
    OneTaskContent(d, e, a.key);
  }

  /** A running attempt of a stage task means that the task is running. */
  lemma RunningStage(d: Document, a: AttemptId)
    requires TasksInv(d) && HasAttempt(d, a) && IsStage(a.key) && AttemptOf(d, a).status.Running?
    ensures d.tasks[a.key].status.TaskRunning? && a.key == StageKey(a.key.kind)
  {
    assert TaskInv(a.key, d.tasks[a.key]);
  }

  lemma FailStageContent(d: Document, a: AttemptId, code: Option<nat>)
    requires TasksInv(d) && ContentInv(d) && HasAttempt(d, a) && IsStage(a.key)
    ensures ContentInv(FailStage(d, a, code))
  {
    if AttemptOf(d, a).status.Running? {
      RunningStage(d, a);
      if code.None? && d.tasks[a.key].retry < d.tasks[a.key].maxRetries {
        OneTaskContent(d, FailStage(d, a, code), a.key);
      } else {
        GiveUpContent(d, a, if code.Some? then code.value else PROCESSING_FAILED);
      }
      StaysContent(d, FailStage(d, a, code));
    }
  }

  lemma ConvergeContent(d: Document, a: AttemptId)
    requires TasksInv(d) && ContentInv(d) && HasAttempt(d, a) && IsStage(a.key)
    ensures ContentInv(ConvergeCancelled(d, a))
  {
    if AttemptOf(d, a).status.Running? {
      RunningStage(d, a);
      OneTaskContent(d, ConvergeCancelled(d, a), a.key);
      StaysContent(d, ConvergeCancelled(d, a));
    }
  }

  /** The lease of a chunk stage that has succeeded is never recovered: no open lease names it. */
  lemma RecoverLeaseContent(d: Document, index: nat)
    requires DocInv(d) && d.cycle == 0 && ContentInv(d) && index < |d.leases| && !d.status.Deleting?
    ensures ContentInv(RecoverExpiredLease(d, index))
  {
    if IsOpen(d.leases[index]) {
      LeaseStaysContent(d, index);
      StaysContent(d, RecoverExpiredLease(d, index));
    }
  }

  lemma LeaseStaysContent(d: Document, index: nat)
    requires LeaseInv(d) && d.cycle == 0 && ContentInv(d) && index < |d.leases| && IsOpen(d.leases[index])
    requires !d.status.Deleting?
    ensures ContentStays(d, RecoverExpiredLease(d, index))
  {
    OneTaskContent(d, RecoverExpiredLease(d, index), d.leases[index].task);
  }

  lemma RecoverRunningContent(d: Document, a: AttemptId)
    requires TasksInv(d) && ContentInv(d) && HasAttempt(d, a) && IsStage(a.key) && !d.status.Deleting?
    ensures ContentInv(RecoverRunningWithoutLease(d, a))
  {
    if AttemptOf(d, a).status.Running? && d.tasks[a.key].status.TaskRunning? && !HasOpenLease(d) {
      RunningStage(d, a);
      OneTaskContent(d, RecoverRunningWithoutLease(d, a), a.key);
      StaysContent(d, RecoverRunningWithoutLease(d, a));
    }
  }

  lemma BeginContent(d: Document, key: TaskKey)
    requires ContentInv(d)
    ensures ContentInv(BeginAttempt(d, key))
  {
    var e := BeginAttempt(d, key);
    if CanBegin(d, key) {
      forall kind | kind in {Embed, Finalize}
        ensures forall i :: 0 <= i < |AttemptsOf(e, kind)| ==>
                  if i < |AttemptsOf(d, kind)| then AttemptsOf(e, kind)[i] == AttemptsOf(d, kind)[i]
                  else AttemptsOf(e, kind)[i].worker.Working?
      {
      }
    }
  }

  // ---------------------------------------------------------------------------------------------
  // The stages
  // ---------------------------------------------------------------------------------------------

  /** What the worker of `a` may come to hold. */
  predicate Holds(d: Document, a: AttemptId, worker: Worker) {
    d.cycle == 0 ==>
      && (a.key == StageKey(Embed) && worker.Loaded? ==> worker.drafts == d.drafts)
      && (a.key == StageKey(Embed) && worker.Wrote? ==> d.chunks == d.drafts)
      && (a.key == StageKey(Finalize) && worker.Expecting? ==> worker.count == |d.chunks|)
  }

  lemma SetWorkerContent(d: Document, a: AttemptId, worker: Worker)
    requires ContentInv(d) && HasAttempt(d, a) && Holds(d, a, worker)
    ensures ContentInv(SetWorker(d, a, worker))
  {
    var e := SetWorker(d, a, worker);
    forall kind | kind in {Embed, Finalize}
      ensures |AttemptsOf(e, kind)| == |AttemptsOf(d, kind)|
      ensures forall i :: 0 <= i < |AttemptsOf(e, kind)| ==>
                AttemptsOf(e, kind)[i] == if a == AttemptId(StageKey(kind), i)
                                          then AttemptsOf(d, kind)[i].(worker := worker) else AttemptsOf(d, kind)[i]
    {
    }
  }

  lemma ConcludeContent(d: Document, a: AttemptId, outcome: Outcome, onCommit: Worker, onRefusal: Worker)
    requires ContentInv(d) && HasAttempt(d, a) && Holds(d, a, onRefusal)
    requires outcome.Committed? ==>
               ContentInv(outcome.document) && HasAttempt(outcome.document, a) && Holds(outcome.document, a, onCommit)
    ensures ContentInv(Conclude(d, a, outcome, onCommit, onRefusal))
  {
    match outcome
    case Committed(after) => SetWorkerContent(after, a, onCommit);
    case Replayed => SetWorkerContent(d, a, Done);
    case Refused => SetWorkerContent(d, a, onRefusal);
  }

  /** The success of a stage; the embed stage has written the drafts before. */
  lemma AdvancedContent(d: Document, e: Document, a: AttemptId)
    requires d.cycle == 0 && TasksInv(d) && HistoryInv(d) && LeaseInv(d) && ContentInv(d) && Advanced(d, e, a)
    requires d.tasks[a.key].status.TaskRunning? && a.key == StageKey(a.key.kind)
    requires e.drafts == d.drafts && e.chunks == d.chunks && e.chunkCount == d.chunkCount
    requires a.key.kind.Parse? ==> !ChunkSucceeded(d)
    requires a.key.kind.Embed? ==> d.chunks == d.drafts
    ensures ContentInv(e)
  {
    var next := StageKey(NextStage(a.key.kind));
    assert forall i :: 0 <= i < |d.leases| - 1 ==> !IsOpen(e.leases[i]);
    forall kind | kind in {Embed, Finalize}
      ensures SameWorkers(AttemptsOf(d, kind), AttemptsOf(e, kind))
    {
    }
    assert ChunkEnded(e);
  }

  lemma AdvanceContent(d: Document, a: AttemptId, total: Option<nat>, processed: Option<nat>)
    requires d.cycle == 0 && DocInv(d) && ContentInv(d) && HasAttempt(d, a) && AttemptOf(d, a).status.Running?
    requires IsStage(a.key) && !a.key.kind.Finalize? && (a.key.kind.Embed? ==> d.chunks == d.drafts)
    ensures var o := Advance(d, a, total, processed); o.Committed? ==> ContentInv(o.document)
  {
    var o := Advance(d, a, total, processed);
    if o.Committed? {
      RunningStage(d, a);
      AdvanceShape(d, a, total, processed);
      AdvancedContent(d, o.document, a);
    }
  }

  lemma FinalizeContent(d: Document, a: AttemptId, expected: Option<nat>)
    requires d.cycle == 0 && ContentInv(d) && HasAttempt(d, a) && a.key == StageKey(Finalize)
    ensures ContentInv(CompleteFinalize(d, a, expected))
  {
    var f, p := FailPublication(d, a), PublishChunks(d, a);
    ReleasedStay(d, f, ByFinalizeFailure);
    OneTaskContent(d, f, a.key);
    StaysContent(d, f);
    ReleasedStay(d, p, ByCompletion);
    OneTaskContent(d, p.(status := d.status, chunkCount := d.chunkCount), a.key);
    StaysContent(d, p.(status := d.status, chunkCount := d.chunkCount));
  }

  lemma CompleteStageContent(d: Document, a: AttemptId, total: Option<nat>, processed: Option<nat>, expected: Option<nat>)
    requires d.cycle == 0 && DocInv(d) && ContentInv(d) && HasAttempt(d, a) && IsStage(a.key)
    requires a.key.kind.Embed? ==> d.chunks == d.drafts
    ensures var o := CompleteStage(d, a, total, processed, expected); o.Committed? ==> ContentInv(o.document)
  {
    if AttemptOf(d, a).status.Running? {
      RunningStage(d, a);
      if a.key.kind.Finalize? {
        FinalizeContent(d, a, expected);
      } else {
        AdvanceContent(d, a, total, processed);
      }
    }
  }

  lemma CommitParseContent(d: Document, a: AttemptId, text: string)
    requires d.cycle == 0 && DocInv(d) && ContentInv(d) && HasAttempt(d, a) && a.key.kind.Parse?
    ensures ContentInv(Conclude(d, a, CommitParse(d, a, text), Done, Rejected))
  {
    if Fence(d, a) {
      var e := d.(parseResults := d.parseResults + [text]);
      NoTaskKeeps(d, e);
      StaysContent(d, e);
      CompleteStageContent(e, a, Some(1), Some(1), None);
    }
    ConcludeContent(d, a, CommitParse(d, a, text), Done, Rejected);
  }

  /** The drafts are replaced only while the chunk stage runs, when there is no embed task yet. */
  lemma CommitChunkContent(d: Document, a: AttemptId, pieces: seq<string>)
    requires d.cycle == 0 && DocInv(d) && ContentInv(d) && HasAttempt(d, a) && a.key.kind.Chunk?
    ensures ContentInv(Conclude(d, a, CommitChunk(d, a, pieces), Done, Rejected))
  {
    if Fence(d, a) {
      RunningStage(d, a);
      assert StageKey(Embed) !in d.tasks && StageKey(Finalize) !in d.tasks;
      var e := d.(drafts := pieces);
      NoTaskKeeps(d, e);
      CompleteStageContent(e, a, Some(|pieces|), Some(|pieces|), None);
    }
    ConcludeContent(d, a, CommitChunk(d, a, pieces), Done, Rejected);
  }

  /** Whatever embed worker writes, it writes the present drafts. */
  lemma SaveChunksContent(d: Document, a: AttemptId)
    requires d.cycle == 0 && DocInv(d) && ContentInv(d)
    requires HasAttempt(d, a) && a.key == StageKey(Embed) && AttemptOf(d, a).worker.Loaded?
    ensures var drafts := AttemptOf(d, a).worker.drafts;
            ContentInv(Conclude(d, a, WriteChunks(d, a, drafts), Wrote(|drafts|), Rejected))
  {
    var drafts := AttemptOf(d, a).worker.drafts;
    assert AttemptsOf(d, Embed)[a.index] == AttemptOf(d, a);
    assert drafts == d.drafts;
    if Fence(d, a) {
      var e := WriteChunks(d, a, drafts).document;
      assert AttemptsOf(e, Embed) == AttemptsOf(d, Embed) && AttemptsOf(e, Finalize) == AttemptsOf(d, Finalize);
      assert !d.status.Completed? || StageKey(Finalize) in d.tasks;
      assert StageKey(Finalize) in d.tasks || AttemptsOf(d, Finalize) == [];
      assert ContentInv(e);
    }
    ConcludeContent(d, a, WriteChunks(d, a, drafts), Wrote(|drafts|), Rejected);
  }

  lemma RenewContent(d: Document, a: AttemptId, now: int, seconds: nat)
    requires ContentInv(d) && HasAttempt(d, a) && a.key == StageKey(Embed) && AttemptOf(d, a).worker.Loaded?
    ensures ContentInv(Conclude(d, a, Heartbeat(d, a.key, now, seconds), NextBatch(AttemptOf(d, a).worker), Rejected))
  {
    var o := Heartbeat(d, a.key, now, seconds);
    assert AttemptsOf(d, Embed)[a.index] == AttemptOf(d, a);
    if o.Committed? {
      assert SameWorkers(AttemptsOf(d, Embed), AttemptsOf(o.document, Embed));
      StaysContent(d, o.document);
    }
    ConcludeContent(d, a, o, NextBatch(AttemptOf(d, a).worker), Rejected);
  }

  lemma FinishEmbedContent(d: Document, a: AttemptId, n: nat)
    requires d.cycle == 0 && DocInv(d) && ContentInv(d) && HasAttempt(d, a) && a.key == StageKey(Embed)
    requires AttemptOf(d, a).worker.Wrote?
    ensures ContentInv(Conclude(d, a, CompleteStage(d, a, Some(n), Some(n), None), Done, Done))
  {
    assert AttemptsOf(d, Embed)[a.index] == AttemptOf(d, a);
    if AttemptOf(d, a).status.Running? {
      CompleteStageContent(d, a, Some(n), Some(n), None);
    }
    ConcludeContent(d, a, CompleteStage(d, a, Some(n), Some(n), None), Done, Done);
  }

  lemma EndContent(d: Document, a: AttemptId, step: DocStep, now: int, seconds: nat)
    requires d.cycle == 0 && DocInv(d) && ContentInv(d) && StepAttempt(step) == Some(a) && Enabled(d, step)
    requires IsStage(a.key) && IsEnding(step)
    ensures ContentInv(WorkerStep(d, a, step, now, seconds))
  {
    var worker := AttemptOf(d, a).worker;
    assert TaskInv(a.key, d.tasks[a.key]);
    match step
    case FinishEmbed(_) =>
      FinishEmbedContent(d, a, worker.count);
    case Publish(_) =>
      CompleteStageContent(d, a, None, None, Some(worker.count));
      ConcludeContent(d, a, CompleteStage(d, a, None, None, Some(worker.count)), Done, Rejected);
    case Fail(_, code) => FailedContent(d, a, code);
    case Converge(_) => FailedContent(d, a, None);
  }

  lemma FailedContent(d: Document, a: AttemptId, code: Option<nat>)
    requires d.cycle == 0 && TasksInv(d) && ContentInv(d) && HasAttempt(d, a) && IsStage(a.key)
    ensures ContentInv(SetWorker(FailStage(d, a, code), a, Done))
    ensures ContentInv(SetWorker(ConvergeCancelled(d, a), a, Done))
  {
    FailStageContent(d, a, code);
    SetWorkerContent(FailStage(d, a, code), a, Done);
    ConvergeContent(d, a);
    SetWorkerContent(ConvergeCancelled(d, a), a, Done);
  }

  lemma StageWorkerContent(d: Document, a: AttemptId, step: DocStep, now: int, seconds: nat)
    requires d.cycle == 0 && DocInv(d) && CheckpointInv(d) && ContentInv(d)
    requires StepAttempt(step) == Some(a) && Enabled(d, step) && IsStage(a.key) && !IsEnding(step)
    ensures ContentInv(WorkerStep(d, a, step, now, seconds))
  {
    assert TaskInv(a.key, d.tasks[a.key]);
    match step
    case SaveParse(_) => CommitParseContent(d, a, AttemptOf(d, a).worker.text);
    case SaveDrafts(_) => CommitChunkContent(d, a, Pieces(AttemptOf(d, a).worker.text));
    case Renew(_) => RenewContent(d, a, now, seconds);
    case SaveChunks(_) => SaveChunksContent(d, a);
    case ReadOriginal(_, text) => SetWorkerContent(d, a, Parsed(text));
    case CheckLease(_) => SetWorkerContent(d, a, if HasOpenLease(d) then Leased else Rejected);
    case ReadText(_) =>
      if d.parseResults != [] {
        SetWorkerContent(d, a, Read(LastText(d)));
      }
    case LoadDrafts(_) => SetWorkerContent(d, a, Loaded(d.drafts, 0));
    case ReadCheckpoint(_) => SetWorkerContent(d, a, Expecting(EmbedCheckpoint(d)));
  }

  // ---------------------------------------------------------------------------------------------
  // Every step and every run
  // ---------------------------------------------------------------------------------------------

  /** A document of cycle 0 is not DELETING and has no clean-up task. */
  lemma NeverDeleted(d: Document)
    requires DocInv(d) && d.cycle == 0
    ensures !d.status.Deleting? && forall key :: key in d.tasks ==> IsStage(key)
  {
    forall key | key in d.tasks
      ensures IsStage(key)
    {
      assert TaskInv(key, d.tasks[key]);
      assert !IsStage(key) ==> key == CleanupKey(key.cycle);
    }
  }

  lemma DeleteContent(d: Document, open: Option<AttemptId>)
    requires DocInv(d) && ContentInv(d) && IsOpenAttempt(d, open)
    ensures ContentInv(StageDelete(d, open))
  {
    if !BeingDeleted(d) {
      StageDeleteIs(d, open);
      BeforeCleanupShape(d, open);
    }
  }

  lemma OtherStepContent(d: Document, step: DocStep, now: int, seconds: nat, slotFree: bool)
    requires d.cycle == 0 && DocInv(d) && ContentInv(d) && Enabled(d, step) && StepAttempt(step).None?
    ensures ContentInv(DocNext(d, step, now, seconds, slotFree))
  {
    NeverDeleted(d);
    match step
    case Coordinate => OneTaskContent(d, MarkQueued(d), StageKey(Parse));
    case CompensateUpload => OneTaskContent(d, Compensate(d), StageKey(Parse));
    case Admit => StaysContent(d, AdmitParse(d, now, seconds, slotFree));
    case Begin(key) => BeginContent(d, key);
    case Delete(open) => DeleteContent(d, open);
    case TakeOverLease(index) => RecoverLeaseContent(d, index);
    case TakeOverAttempt(a) => RecoverRunningContent(d, a);
    case _ =>
  }

  lemma StepContent(d: Document, step: DocStep, now: int, seconds: nat, slotFree: bool)
    requires DocInv(d) && CheckpointInv(d) && ContentInv(d)
    ensures ContentInv(DocNext(d, step, now, seconds, slotFree))
  {
    StepKeeps(d, step, now, seconds, slotFree);
    if d.cycle == 0 && Enabled(d, step) {
      NeverDeleted(d);
      match StepAttempt(step)
      case Some(a) =>
        if IsEnding(step) {
          EndContent(d, a, step, now, seconds);
        } else {
          StageWorkerContent(d, a, step, now, seconds);
        }
      case None => OtherStepContent(d, step, now, seconds, slotFree);
    }
  }

  lemma NewDocumentContent(user: nat)
    ensures ContentInv(NewDocument(user))
  {
  }

  lemma {:induction false} ContentReachable(c: Config, run: seq<Event>, id: nat)
    requires id in Reached(c, run).docs
    ensures DocInv(Reached(c, run).docs[id]) && CheckpointInv(Reached(c, run).docs[id])
    ensures ContentInv(Reached(c, run).docs[id])
  {
    Reachable(c, run);
    CheckpointReachable(c, run, id);
    if run != [] {
      var front, event := run[..|run| - 1], run[|run| - 1];
      var s := Reached(c, front);
      if id in s.docs {
        ContentReachable(c, front, id);
        if event.On? && event.id == id {
          StepContent(s.docs[id], event.step, s.now, c.leaseSeconds, SlotFree(c, s, id));
        }
      } else {
        NewDocumentContent(event.user);
      }
    }
  }

  /** In every run a COMPLETED document that was never deleted advertises exactly its chunk rows, and they are
      its drafts, in order. */
  lemma PublishedExactly(c: Config, run: seq<Event>, id: nat)
    requires id in Reached(c, run).docs && Reached(c, run).docs[id].cycle == 0
    requires Reached(c, run).docs[id].status.Completed?
    ensures var d := Reached(c, run).docs[id];
            d.chunkCount == |d.chunks| && d.chunks == d.drafts
  {
    ContentReachable(c, run, id);
  }

  /** What a search of the chunks may return: the rows of COMPLETED documents only. */
  function Searchable(d: Document): seq<string> {
    if d.status.Completed? then d.chunks else []
  }

  /** In every run a search sees nothing of a document before all its stages have succeeded, and nothing while it is
      DELETING or DELETED; of a document that was never deleted it sees nothing or all its pieces. */
  lemma SearchSeesPublished(c: Config, run: seq<Event>, id: nat)
    requires id in Reached(c, run).docs
    ensures var d := Reached(c, run).docs[id];
            && (Searchable(d) == [] || HasSucceeded(d, Finalize))
            && (d.cycle == 0 && Searchable(d) != [] ==> Searchable(d) == d.drafts && d.chunkCount == |d.drafts|)
            && (BeingDeleted(d) ==> Searchable(d) == [])
  {
    ContentReachable(c, run, id);
  }

  /** The count a finalize worker read is the number of chunk rows whenever it publishes. */
  lemma NoMismatch(d: Document, a: AttemptId)
    requires ContentInv(d) && d.cycle == 0 && HasAttempt(d, a) && a.key == StageKey(Finalize)
    requires AttemptOf(d, a).worker.Expecting?
    ensures CompleteFinalize(d, a, Some(AttemptOf(d, a).worker.count)) == PublishChunks(d, a)
  {
    assert AttemptsOf(d, Finalize)[a.index] == AttemptOf(d, a);
  }

  /** In no run is the 20013 branch taken for a document that was never deleted: an accepted publication
      publishes. */
  lemma MismatchNeverTaken(c: Config, run: seq<Event>, id: nat, a: AttemptId)
    requires id in Reached(c, run).docs && Reached(c, run).docs[id].cycle == 0
    requires Enabled(Reached(c, run).docs[id], Publish(a))
    ensures var d := Reached(c, run).docs[id];
            var o := CompleteStage(d, a, None, None, Some(AttemptOf(d, a).worker.count));
            o.Committed? ==> o.document == PublishChunks(d, a) && o.document.status.Completed?
  {
    ContentReachable(c, run, id);
    var d := Reached(c, run).docs[id];
    if AttemptOf(d, a).status.Running? {
      RunningStage(d, a);
      NoMismatch(d, a);
    }
  }
}
