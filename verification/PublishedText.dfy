/** What the pieces of a document that was never deleted are: the windows of its latest parse result. */
module PublishedText {
  import opened Rows
  import opened Transactions
  import opened Protocol
  import opened ChunkWindows
  import opened Invariant
  import opened Runs
  import opened Checkpoint
  import opened Publication

  /** The original object is there and every parse result has some text; a running chunk worker has read the
      latest, and once the chunk stage has succeeded the drafts are its pieces. */
  ghost predicate TextInv(d: Document) {
    d.cycle == 0 ==>
      && d.original
      && (forall i :: 0 <= i < |d.parseResults| ==> !AllBlank(d.parseResults[i]))
      && (StageKey(Chunk) in d.tasks ==> d.parseResults != [])
      && (forall i :: 0 <= i < |AttemptsOf(d, Chunk)| ==> ReadsLatest(d, AttemptsOf(d, Chunk)[i]))
      && (ChunkSucceeded(d) ==> d.parseResults != [] && d.drafts == Pieces(LastText(d)))
  }

  predicate ReadsLatest(d: Document, attempt: Attempt) {
    attempt.status.Running? && attempt.worker.Read? ==> d.parseResults != [] && attempt.worker.text == LastText(d)
  }

  /** Neither texts nor drafts change, no chunk worker reads, and the chunk stage does not succeed. */
  ghost predicate TextStays(d: Document, e: Document) {
    && e.cycle == d.cycle && e.parseResults == d.parseResults && e.drafts == d.drafts && e.original == d.original
    && (StageKey(Chunk) in e.tasks ==> StageKey(Chunk) in d.tasks)
    && (ChunkSucceeded(e) ==> ChunkSucceeded(d))
    && (forall i :: 0 <= i < |AttemptsOf(e, Chunk)| && AttemptsOf(e, Chunk)[i].status.Running?
                    && AttemptsOf(e, Chunk)[i].worker.Read? ==>
          i < |AttemptsOf(d, Chunk)| && AttemptsOf(d, Chunk)[i] == AttemptsOf(e, Chunk)[i])
  }

  lemma StaysText(d: Document, e: Document)
    requires TextInv(d) && TextStays(d, e)
    ensures TextInv(e)
  {
    forall i | 0 <= i < |AttemptsOf(e, Chunk)|
      ensures d.cycle == 0 ==> ReadsLatest(e, AttemptsOf(e, Chunk)[i])
    {
      if AttemptsOf(e, Chunk)[i].status.Running? && AttemptsOf(e, Chunk)[i].worker.Read? {
        assert AttemptsOf(d, Chunk)[i] == AttemptsOf(e, Chunk)[i];
      }
    }
  }

  lemma SetWorkerStays(d: Document, a: AttemptId, worker: Worker)
    requires HasAttempt(d, a) && !worker.Read?
    ensures TextStays(d, SetWorker(d, a, worker))
  {
  }

  lemma TextStaysTransitive(d: Document, e: Document, f: Document)
    requires TextStays(d, e) && TextStays(e, f)
    ensures TextStays(d, f)
  {
    forall i | 0 <= i < |AttemptsOf(f, Chunk)| && AttemptsOf(f, Chunk)[i].status.Running? && AttemptsOf(f, Chunk)[i].worker.Read?
      ensures i < |AttemptsOf(d, Chunk)| && AttemptsOf(d, Chunk)[i] == AttemptsOf(f, Chunk)[i]
    {
      assert AttemptsOf(e, Chunk)[i] == AttemptsOf(f, Chunk)[i];
    }
  }

  lemma ConcludeText(d: Document, a: AttemptId, outcome: Outcome, onCommit: Worker, onRefusal: Worker)
    requires TextInv(d) && HasAttempt(d, a) && !onCommit.Read? && !onRefusal.Read?
    requires outcome.Committed? ==> TextInv(outcome.document) && HasAttempt(outcome.document, a)
    ensures TextInv(Conclude(d, a, outcome, onCommit, onRefusal))
  {
    match outcome
    case Committed(after) =>
      SetWorkerStays(after, a, onCommit);
      StaysText(after, SetWorker(after, a, onCommit));
    case Replayed =>
      SetWorkerStays(d, a, Done);
      StaysText(d, SetWorker(d, a, Done));
    case Refused =>
      SetWorkerStays(d, a, onRefusal);
      StaysText(d, SetWorker(d, a, onRefusal));
  }

  /** A parse run commits only while the chunk task has no running attempt, and brings the text. */
  lemma ParseText(d: Document, a: AttemptId, text: string)
    requires d.cycle == 0 && DocInv(d) && TextInv(d) && HasAttempt(d, a) && a.key == StageKey(Parse) && !AllBlank(text)
    ensures TextInv(Conclude(d, a, CommitParse(d, a, text), Done, Rejected))
  {
    var o := CommitParse(d, a, text);
    if o.Committed? {
      var e := o.document;
      assert LastText(e) == text;
      if StageKey(Chunk) in d.tasks {
        assert TaskInv(StageKey(Chunk), d.tasks[StageKey(Chunk)]);
        assert forall i :: 0 <= i < |AttemptsOf(d, Chunk)| ==> !AttemptsOf(d, Chunk)[i].status.Running?;
      }
      assert forall i :: 0 <= i < |AttemptsOf(e, Chunk)| ==> !AttemptsOf(e, Chunk)[i].status.Running?;
      assert !ChunkSucceeded(e);
    }
    ConcludeText(d, a, o, Done, Rejected);
  }

  /** A chunk run commits the pieces of the latest text. */
  lemma DraftsText(d: Document, a: AttemptId)
    requires d.cycle == 0 && DocInv(d) && TextInv(d) && HasAttempt(d, a) && a.key == StageKey(Chunk)
    requires AttemptOf(d, a).worker.Read?
    ensures TextInv(Conclude(d, a, CommitChunk(d, a, Pieces(AttemptOf(d, a).worker.text)), Done, Rejected))
  {
    var o := CommitChunk(d, a, Pieces(AttemptOf(d, a).worker.text));
    assert AttemptsOf(d, Chunk)[a.index] == AttemptOf(d, a);
    assert ReadsLatest(d, AttemptOf(d, a));
    if o.Committed? {
      DraftsCommitted(d, a);
    }
    ConcludeText(d, a, o, Done, Rejected);
  }

  lemma DraftsCommitted(d: Document, a: AttemptId)
    requires d.cycle == 0 && DocInv(d) && TextInv(d) && HasAttempt(d, a) && a.key == StageKey(Chunk)
    requires AttemptOf(d, a).worker.Read? && ReadsLatest(d, AttemptOf(d, a))
    requires CommitChunk(d, a, Pieces(AttemptOf(d, a).worker.text)).Committed?
    ensures TextInv(CommitChunk(d, a, Pieces(AttemptOf(d, a).worker.text)).document)
  {
    assert TaskInv(StageKey(Chunk), d.tasks[StageKey(Chunk)]);
    var e := CommitChunk(d, a, Pieces(AttemptOf(d, a).worker.text)).document;
    assert forall i :: 0 <= i < |AttemptsOf(e, Chunk)| ==> !AttemptsOf(e, Chunk)[i].status.Running?;
  }

  lemma ReadText(d: Document, a: AttemptId)
    requires TextInv(d) && HasAttempt(d, a) && d.parseResults != []
    ensures TextInv(SetWorker(d, a, Read(LastText(d))))
  {
    var e := SetWorker(d, a, Read(LastText(d)));
    forall i | 0 <= i < |AttemptsOf(e, Chunk)|
      ensures d.cycle == 0 ==> ReadsLatest(e, AttemptsOf(e, Chunk)[i])
    {
      assert a == AttemptId(StageKey(Chunk), i) || AttemptsOf(e, Chunk)[i] == AttemptsOf(d, Chunk)[i];
    }
  }

  /** The later stages succeed without touching texts, drafts or the chunk task. */
  lemma LaterStage(d: Document, a: AttemptId, total: Option<nat>, processed: Option<nat>, expected: Option<nat>)
    requires HasAttempt(d, a) && (a.key.kind.Embed? || a.key.kind.Finalize?)
    ensures var o := CompleteStage(d, a, total, processed, expected); o.Committed? ==> TextStays(d, o.document)
  {
  }

  lemma FailedStage(d: Document, a: AttemptId, code: Option<nat>)
    requires TasksInv(d) && HasAttempt(d, a) && IsStage(a.key)
    ensures TextStays(d, SetWorker(FailStage(d, a, code), a, Done))
  {
    assert TaskInv(a.key, d.tasks[a.key]);
    if AttemptOf(d, a).status.Running? {
      GivenUpStage(d, a, if code.Some? then code.value else PROCESSING_FAILED);
    }
  }

  lemma GivenUpStage(d: Document, a: AttemptId, code: nat)
    requires HasAttempt(d, a) && !d.tasks[a.key].status.TaskSucceeded?
    ensures TextStays(d, SetWorker(GiveUp(d, a, code), a, Done))
  {
  }

  lemma ConvergedStage(d: Document, a: AttemptId)
    requires HasAttempt(d, a) && IsStage(a.key)
    ensures TextStays(d, SetWorker(ConvergeCancelled(d, a), a, Done))
  {
  }

  lemma EndText(d: Document, a: AttemptId, step: DocStep, now: int, seconds: nat)
    requires d.cycle == 0 && DocInv(d) && TextInv(d) && StepAttempt(step) == Some(a) && Enabled(d, step)
    requires IsStage(a.key) && IsEnding(step)
    ensures TextInv(WorkerStep(d, a, step, now, seconds))
  {
    var worker := AttemptOf(d, a).worker;
    match step
    case FinishEmbed(_) =>
      LaterText(d, a, Some(worker.count), Some(worker.count), None);
      ConcludeText(d, a, CompleteStage(d, a, Some(worker.count), Some(worker.count), None), Done, Done);
    case Publish(_) =>
      LaterText(d, a, None, None, Some(worker.count));
      ConcludeText(d, a, CompleteStage(d, a, None, None, Some(worker.count)), Done, Rejected);
    case Fail(_, code) =>
      FailedStage(d, a, code);
      StaysText(d, WorkerStep(d, a, step, now, seconds));
    case Converge(_) =>
      ConvergedStage(d, a);
      StaysText(d, WorkerStep(d, a, step, now, seconds));
  }

  lemma LaterText(d: Document, a: AttemptId, total: Option<nat>, processed: Option<nat>, expected: Option<nat>)
    requires TextInv(d) && HasAttempt(d, a) && (a.key.kind.Embed? || a.key.kind.Finalize?)
    ensures var o := CompleteStage(d, a, total, processed, expected);
            o.Committed? ==> TextInv(o.document) && HasAttempt(o.document, a)
  {
    var o := CompleteStage(d, a, total, processed, expected);
    LaterStage(d, a, total, processed, expected);
    if o.Committed? {
      StaysText(d, o.document);
    }
  }

  lemma EmbedText(d: Document, a: AttemptId, now: int, seconds: nat)
    requires TextInv(d) && HasAttempt(d, a) && a.key.kind.Embed? && AttemptOf(d, a).worker.Loaded?
    ensures TextInv(Conclude(d, a, Heartbeat(d, a.key, now, seconds), NextBatch(AttemptOf(d, a).worker), Rejected))
    ensures var drafts := AttemptOf(d, a).worker.drafts;
            TextInv(Conclude(d, a, WriteChunks(d, a, drafts), Wrote(|drafts|), Rejected))
  {
    var h := Heartbeat(d, a.key, now, seconds);
    if h.Committed? {
      StaysText(d, h.document);
    }
    ConcludeText(d, a, h, NextBatch(AttemptOf(d, a).worker), Rejected);
    var drafts := AttemptOf(d, a).worker.drafts;
    var w := WriteChunks(d, a, drafts);
    if w.Committed? {
      StaysText(d, w.document);
    }
    ConcludeText(d, a, w, Wrote(|drafts|), Rejected);
  }

  lemma WorkText(d: Document, a: AttemptId, step: DocStep, now: int, seconds: nat)
    requires d.cycle == 0 && DocInv(d) && TextInv(d) && StepAttempt(step) == Some(a) && Enabled(d, step)
    requires IsStage(a.key) && !IsEnding(step)
    ensures TextInv(WorkerStep(d, a, step, now, seconds))
  {
    assert TaskInv(a.key, d.tasks[a.key]);
    if step.SaveParse? {
      ParseText(d, a, AttemptOf(d, a).worker.text);
    } else if step.SaveDrafts? {
      DraftsText(d, a);
    } else if step.Renew? || step.SaveChunks? {
      EmbedText(d, a, now, seconds);
    } else if step.ReadText? {
      if d.parseResults != [] {
        ReadText(d, a);
      }
    } else {
      StaysText(d, WorkerStep(d, a, step, now, seconds));
    }
  }

  lemma LeaseText(d: Document, index: nat)
    requires DocInv(d) && ContentInv(d) && d.cycle == 0 && index < |d.leases| && !d.status.Deleting?
    ensures TextStays(d, RecoverExpiredLease(d, index))
  {
    if IsOpen(d.leases[index]) {
      TakenText(d, index);
    }
  }

  lemma TakenText(d: Document, index: nat)
    requires TasksInv(d) && LeaseInv(d) && !d.status.Deleting? && index < |d.leases| && IsOpen(d.leases[index])
    requires d.leases[index].task == StageKey(Chunk) ==> !ChunkSucceeded(d)
    ensures TextStays(d, RecoverExpiredLease(d, index))
  {
    assert TaskInv(d.leases[index].task, d.tasks[d.leases[index].task]);
  }

  lemma LossText(d: Document, a: AttemptId)
    requires TasksInv(d) && HasAttempt(d, a) && !d.status.Deleting?
    ensures TextStays(d, RecoverRunningWithoutLease(d, a))
  {
    assert TaskInv(a.key, d.tasks[a.key]);
  }

  lemma OtherStepText(d: Document, step: DocStep, now: int, seconds: nat, slotFree: bool)
    requires d.cycle == 0 && DocInv(d) && ContentInv(d) && TextInv(d) && Enabled(d, step) && StepAttempt(step).None?
    ensures TextInv(DocNext(d, step, now, seconds, slotFree))
  {
    NeverDeleted(d);
    match step
    case Delete(open) =>
      if !BeingDeleted(d) {
        StageDeleteIs(d, open);
      }
    case TakeOverLease(index) =>
      LeaseText(d, index);
      StaysText(d, RecoverExpiredLease(d, index));
    case TakeOverAttempt(a) =>
      LossText(d, a);
      StaysText(d, RecoverRunningWithoutLease(d, a));
    case Begin(key) => StaysText(d, BeginAttempt(d, key));
    case Coordinate => StaysText(d, MarkQueued(d));
    case CompensateUpload => StaysText(d, Compensate(d));
    case Admit => StaysText(d, AdmitParse(d, now, seconds, slotFree));
    case _ =>
  }

  lemma StepText(d: Document, step: DocStep, now: int, seconds: nat, slotFree: bool)
    requires DocInv(d) && ContentInv(d) && TextInv(d)
    ensures TextInv(DocNext(d, step, now, seconds, slotFree))
  {
    StepKeeps(d, step, now, seconds, slotFree);
    if d.cycle == 0 && Enabled(d, step) {
      NeverDeleted(d);
      match StepAttempt(step)
      case Some(a) =>
        if IsEnding(step) {
          EndText(d, a, step, now, seconds);
        } else {
          WorkText(d, a, step, now, seconds);
        }
      case None => OtherStepText(d, step, now, seconds, slotFree);
    }
  }

  lemma NewDocumentText(user: nat)
    ensures TextInv(NewDocument(user))
  {
  }

  lemma NextText(c: Config, s: System, event: Event, id: nat)
    requires id in s.docs ==> DocInv(s.docs[id]) && ContentInv(s.docs[id]) && TextInv(s.docs[id])
    ensures id in Next(c, s, event).docs ==> TextInv(Next(c, s, event).docs[id])
  {
    if event.Upload? {
      NewDocumentText(event.user);
    } else if event.On? && event.id == id && id in s.docs {
      StepText(s.docs[id], event.step, s.now, c.leaseSeconds, SlotFree(c, s, id));
    }
  }

  lemma {:induction false} TextReachable(c: Config, run: seq<Event>, id: nat)
    ensures id in Reached(c, run).docs ==> TextInv(Reached(c, run).docs[id])
  {
    if run != [] {
      var front := run[..|run| - 1];
      TextReachable(c, front, id);
      if id in Reached(c, front).docs {
        ContentReachable(c, front, id);
      }
      NextText(c, Reached(c, front), run[|run| - 1], id);
    }
  }

  lemma PublishedPieces(c: Config, run: seq<Event>, id: nat)
    requires id in Reached(c, run).docs && Reached(c, run).docs[id].cycle == 0
    requires Reached(c, run).docs[id].status.Completed?
    ensures var d := Reached(c, run).docs[id];
            && d.parseResults != [] && !AllBlank(LastText(d))
            && d.chunks == Pieces(LastText(d)) && d.chunkCount == |d.chunks|
  {
    PublishedExactly(c, run, id);
    ContentReachable(c, run, id);
    TextReachable(c, run, id);
    Reachable(c, run);
  }

  /** In every run the chunk rows of a COMPLETED document that was never deleted are the windows of 800 characters of its
      latest parse result that have text, at increasing multiples of 700, and that result has some text. */
  lemma PublishedWindows(c: Config, run: seq<Event>, id: nat)
    requires id in Reached(c, run).docs && Reached(c, run).docs[id].cycle == 0
    requires Reached(c, run).docs[id].status.Completed?
    ensures var d := Reached(c, run).docs[id];
            && d.parseResults != [] && d.chunkCount == |d.chunks|
            && var text := d.parseResults[|d.parseResults| - 1];
            var at := Offsets(text, 0, 800, 700);
            && !AllBlank(text) && d.chunks == Pieces(text) && |d.chunks| == |at|
            && (forall x, y :: 0 <= x < y < |at| ==> at[x] < at[y])
            && (forall p: nat :: p in at <==> p < |text| && p % 700 == 0 && HasText(text, p, 800))
            && (forall x :: 0 <= x < |at| ==>
                  at[x] < |text| && d.chunks[x] == text[at[x]..if at[x] + 800 <= |text| then at[x] + 800 else |text|])
  {
    PublishedPieces(c, run, id);
    PiecesInUse(LastText(Reached(c, run).docs[id]));
  }

  lemma PiecesInUse(text: string)
    requires !AllBlank(text)
    ensures PiecesAt(text, 800, 100, Pieces(text), Offsets(text, 0, 800, 700))
  {
    PiecesInOrder(text, 800, 100);
  }

  /** So nothing of that text is missing from what a search can find. */
  lemma NothingUnpublished(c: Config, run: seq<Event>, id: nat, p: nat)
    requires id in Reached(c, run).docs && Reached(c, run).docs[id].cycle == 0
    requires Reached(c, run).docs[id].status.Completed? && Reached(c, run).docs[id].parseResults != []
    requires p < |LastText(Reached(c, run).docs[id])| && !IsBlank(LastText(Reached(c, run).docs[id])[p])
    ensures var d := Reached(c, run).docs[id];
            exists at: nat :: Shows(LastText(d), at, CHUNK_SIZE, p) && Window(LastText(d), at, CHUNK_SIZE) in Searchable(d)
  {
    PublishedWindows(c, run, id);
    NothingLost(LastText(Reached(c, run).docs[id]), CHUNK_SIZE, CHUNK_OVERLAP, p);
  }
}
