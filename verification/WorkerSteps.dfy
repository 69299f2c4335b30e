/** What each step of a worker reads, keeps in memory and writes. */
module WorkerSteps {
  import opened Rows
  import opened Transactions
  import opened ChunkWindows
  import opened Protocol
  import opened Invariant
  import opened Effects

  /** Nothing changes but what the worker of this attempt remembers. */
  ghost predicate Remembers(d: Document, e: Document, a: AttemptId, worker: Worker)
    requires HasAttempt(d, a)
  {
    && OnlyTask(d, e, a.key) && e == d.(tasks := e.tasks) && a.key in e.tasks
    && e.tasks[a.key] == d.tasks[a.key].(attempts := e.tasks[a.key].attempts)
    && |e.tasks[a.key].attempts| == |d.tasks[a.key].attempts|
    && e.tasks[a.key].attempts[a.index] == AttemptOf(d, a).(worker := worker)
    && forall j :: 0 <= j < |d.tasks[a.key].attempts| && j != a.index ==>
         e.tasks[a.key].attempts[j] == d.tasks[a.key].attempts[j]
  }

  lemma SetRemembers(d: Document, a: AttemptId, worker: Worker)
    requires HasAttempt(d, a)
    ensures Remembers(d, SetWorker(d, a, worker), a, worker)
  {
  }

  predicate SomeOpenLease(d: Document) {
    exists i :: 0 <= i < |d.leases| && d.leases[i].released == None
  }

  lemma OpenLeaseFound(d: Document)
    ensures SomeOpenLease(d) <==> HasOpenLease(d)
  {
    if HasOpenLease(d) {
      assert d.leases[FindOpen(d.leases).value].released == None;
    }
  }

  lemma ParsesOriginal(d: Document, a: AttemptId, text: string, now: int, seconds: nat)
    requires HasAttempt(d, a) && a.key.kind == Parse && AttemptOf(d, a).worker == Working
    ensures var e := DocNext(d, ReadOriginal(a, text), now, seconds, false);
            if d.original then Remembers(d, e, a, Parsed(text)) else e == d
  {
    SetRemembers(d, a, Parsed(text));
  }

  /** The parse result is added together with the success of the stage; a refused worker has written nothing. */
  lemma SavesParsed(d: Document, a: AttemptId, now: int, seconds: nat)
    requires DocInv(d) && HasAttempt(d, a) && a.key == TaskKey(Parse, 0)
    requires AttemptOf(d, a).worker.Parsed? && !AllBlank(AttemptOf(d, a).worker.text)
    ensures var e := DocNext(d, SaveParse(a), now, seconds, false);
            if MayWrite(d, a) && HasOpenLease(d) && CanEnter(d, TaskKey(Chunk, 0))
            then e.parseResults == d.parseResults + [AttemptOf(d, a).worker.text] && a.key in e.tasks
                 && e.tasks[a.key].status == TaskSucceeded && TaskKey(Chunk, 0) in e.tasks
            else Remembers(d, e, a, Rejected)
  {
    var text := AttemptOf(d, a).worker.text;
    ParseSaved(d, a, text);
    SetRemembers(d, a, Rejected);
    ParseNotReplayed(d, a, text);
  }

  lemma ParseNotReplayed(d: Document, a: AttemptId, text: string)
    requires HasAttempt(d, a) && a.key.kind.Parse?
    ensures !CommitParse(d, a, text).Replayed?
    ensures CommitParse(d, a, text).Committed? ==> HasAttempt(CommitParse(d, a, text).document, a)
  {
  }

  lemma ChecksLease(d: Document, a: AttemptId, now: int, seconds: nat)
    requires HasAttempt(d, a) && a.key.kind == Chunk && AttemptOf(d, a).worker == Working
    ensures Remembers(d, DocNext(d, CheckLease(a), now, seconds, false), a, if SomeOpenLease(d) then Leased else Rejected)
  {
    OpenLeaseFound(d);
    SetRemembers(d, a, if HasOpenLease(d) then Leased else Rejected);
  }

  lemma ReadsLastText(d: Document, a: AttemptId, now: int, seconds: nat)
    requires HasAttempt(d, a) && a.key.kind == Chunk && AttemptOf(d, a).worker == Leased
    ensures var e := DocNext(d, ReadText(a), now, seconds, false);
            if d.parseResults == [] then e == d else Remembers(d, e, a, Read(d.parseResults[|d.parseResults| - 1]))
  {
    if d.parseResults != [] {
      SetRemembers(d, a, Read(d.parseResults[|d.parseResults| - 1]));
    }
  }

  /** The drafts are replaced by the pieces of the text the worker has read. */
  lemma SavesPieces(d: Document, a: AttemptId, now: int, seconds: nat)
    requires DocInv(d) && HasAttempt(d, a) && a.key == TaskKey(Chunk, 0) && AttemptOf(d, a).worker.Read?
    ensures var e := DocNext(d, SaveDrafts(a), now, seconds, false);
            if MayWrite(d, a) && HasOpenLease(d) && CanEnter(d, TaskKey(Embed, 0))
            then e.drafts == ChunkText(AttemptOf(d, a).worker.text, 800, 100) && a.key in e.tasks
                 && e.tasks[a.key].status == TaskSucceeded && TaskKey(Embed, 0) in e.tasks
            else Remembers(d, e, a, Rejected)
  {
    var pieces := ChunkText(AttemptOf(d, a).worker.text, 800, 100);
    DraftsSaved(d, a, pieces);
    SetRemembers(d, a, Rejected);
    ChunkNotReplayed(d, a, pieces);
  }

  lemma ChunkNotReplayed(d: Document, a: AttemptId, pieces: seq<string>)
    requires HasAttempt(d, a) && a.key.kind.Chunk?
    ensures !CommitChunk(d, a, pieces).Replayed?
    ensures CommitChunk(d, a, pieces).Committed? ==> HasAttempt(CommitChunk(d, a, pieces).document, a)
  {
  }

  lemma LoadsAllDrafts(d: Document, a: AttemptId, now: int, seconds: nat)
    requires HasAttempt(d, a) && a.key.kind == Embed && AttemptOf(d, a).worker == Working
    ensures var e := DocNext(d, LoadDrafts(a), now, seconds, false);
            if d.drafts == [] then e == d else Remembers(d, e, a, Loaded(d.drafts, 0))
  {
    SetRemembers(d, a, Loaded(d.drafts, 0));
  }

  /** Before each batch of 32 the open lease is renewed for the embed task; without one, or once the document is being
      deleted, the worker is refused and nothing is written. */
  lemma EmbedsBatch(d: Document, a: AttemptId, now: int, seconds: nat)
    requires LeaseInv(d) && HasAttempt(d, a) && a.key.kind == Embed
    requires AttemptOf(d, a).worker.Loaded? && AttemptOf(d, a).worker.embedded < |AttemptOf(d, a).worker.drafts|
    ensures var e := DocNext(d, Renew(a), now, seconds, false);
            var w := AttemptOf(d, a).worker;
            if SomeOpenLease(d) && d.status != Deleting && d.status != Deleted
            then
              && Remembers(d.(leases := e.leases), e, a,
                           Loaded(w.drafts, if w.embedded + 32 <= |w.drafts| then w.embedded + 32 else |w.drafts|))
              && |e.leases| == |d.leases|
              && forall i :: 0 <= i < |d.leases| ==>
                   e.leases[i] == if d.leases[i].released == None then Lease(a.key, now, now + seconds, None) else d.leases[i]
            else Remembers(d, e, a, Rejected)
  {
    OpenLeaseFound(d);
    if HasOpenLease(d) && !BeingDeleted(d) {
      var i := FindOpen(d.leases).value;
      var renewed := d.(leases := d.leases[i := Lease(a.key, now, now + seconds, None)]);
      SetRemembers(renewed, a, NextBatch(AttemptOf(d, a).worker));
    } else {
      SetRemembers(d, a, Rejected);
    }
  }

  /** All chunk rows are written in one transaction, with the checkpoint, by an attempt that may write. */
  lemma WritesPieces(d: Document, a: AttemptId, now: int, seconds: nat)
    requires DocInv(d) && HasAttempt(d, a) && a.key.kind == Embed
    requires AttemptOf(d, a).worker.Loaded? && AttemptOf(d, a).worker.embedded >= |AttemptOf(d, a).worker.drafts|
    ensures var e := DocNext(d, SaveChunks(a), now, seconds, false);
            var drafts := AttemptOf(d, a).worker.drafts;
            if MayWrite(d, a)
            then e.chunks == drafts && a.key in e.tasks && e.tasks[a.key].processed == |drafts|
                 && HasAttempt(e, a) && AttemptOf(e, a) == AttemptOf(d, a).(worker := Wrote(|drafts|))
                 && OnlyTask(d, e, a.key) && e == d.(tasks := e.tasks, chunks := drafts)
            else Remembers(d, e, a, Rejected)
  {
    ChunkRowsWritten(d, a, AttemptOf(d, a).worker.drafts);
    SetRemembers(d, a, Rejected);
  }

  lemma ReadsEmbedCheckpoint(d: Document, a: AttemptId, now: int, seconds: nat)
    requires HasAttempt(d, a) && a.key.kind == Finalize && AttemptOf(d, a).worker == Working
    ensures Remembers(d, DocNext(d, ReadCheckpoint(a), now, seconds, false), a,
                      Expecting(if TaskKey(Embed, 0) in d.tasks then d.tasks[TaskKey(Embed, 0)].processed else 0))
  {
    SetRemembers(d, a, Expecting(EmbedCheckpoint(d)));
  }

  /** The embed stage succeeds with the number of chunk rows the worker wrote; a worker that is refused just ends. */
  lemma FinishesEmbed(d: Document, a: AttemptId, now: int, seconds: nat)
    requires DocInv(d) && HasAttempt(d, a) && a.key == TaskKey(Embed, 0) && AttemptOf(d, a).worker.Wrote?
    ensures var e := DocNext(d, FinishEmbed(a), now, seconds, false);
            var count := AttemptOf(d, a).worker.count;
            if MayWrite(d, a) && HasOpenLease(d) && CanEnter(d, TaskKey(Finalize, 0))
            then a.key in e.tasks && e.tasks[a.key].status == TaskSucceeded && e.tasks[a.key].processed == count
                 && e.tasks[a.key].total == Some(count) && TaskKey(Finalize, 0) in e.tasks
                 && HasAttempt(e, a) && AttemptOf(e, a) == AttemptOf(d, a).(status := Succeeded, worker := Done)
            else Remembers(d, e, a, Done)
  {
    var count := AttemptOf(d, a).worker.count;
    AdvancedExactly(d, a, count, count, Finalize);
    SetRemembers(d, a, Done);
    var o := CompleteStage(d, a, Some(count), Some(count), None);
    if o.Committed? {
      AdvancedRows(d, a, count, count, Finalize);
      AdvancedTask(d, a, count, count, Finalize);
      EndedAttempt(d.tasks[a.key], o.document.tasks[a.key], a.index, Succeeded);
      AdvancedWorker(d, a, count, count);
      SetRemembers(o.document, a, Done);
    }
  }

  lemma EndedAttempt(t: Task, u: Task, i: nat, status: AttemptStatus)
    requires AttemptEnds(t, u, i, status)
    ensures i < |u.attempts| && u.attempts[i].no == t.attempts[i].no && u.attempts[i].status == status
  {
  }

  lemma AdvancedWorker(d: Document, a: AttemptId, total: nat, processed: nat)
    requires HasAttempt(d, a) && IsStage(a.key) && !a.key.kind.Finalize?
    ensures var o := CompleteStage(d, a, Some(total), Some(processed), None);
            o.Committed? ==> HasAttempt(o.document, a) && AttemptOf(o.document, a).worker == AttemptOf(d, a).worker
  {
  }

  /** The document is published iff there are as many chunk rows as the checkpoint said when the worker read it. */
  lemma Publishes(d: Document, a: AttemptId, now: int, seconds: nat)
    requires DocInv(d) && HasAttempt(d, a) && a.key == TaskKey(Finalize, 0) && AttemptOf(d, a).worker.Expecting?
    ensures var e := DocNext(d, Publish(a), now, seconds, false);
            if AttemptOf(d, a).status != Running then Remembers(d, e, a, Done)
            else if d.status == Deleting || d.status == Deleted then Remembers(d, e, a, Rejected)
            else if |d.chunks| == AttemptOf(d, a).worker.count
            then e.status == DocumentStatus.Completed && e.chunkCount == |d.chunks|
            else e.status == Failed && e.error == Some(20013) && e.chunkCount == d.chunkCount
  {
    var count := AttemptOf(d, a).worker.count;
    FinalizedExactly(d, a, count);
    PublishConcludes(d, a, now, seconds);
    if AttemptOf(d, a).status != Running {
      SetRemembers(d, a, Done);
    } else if d.status == Deleting || d.status == Deleted {
      SetRemembers(d, a, Rejected);
    } else if |d.chunks| == count {
      PublishedColumns(d, a);
    } else {
      FailedColumns(d, a);
    }
  }

  lemma PublishConcludes(d: Document, a: AttemptId, now: int, seconds: nat)
    requires HasAttempt(d, a) && a.key.kind.Finalize? && AttemptOf(d, a).worker.Expecting?
    ensures var o := CompleteStage(d, a, None, None, Some(AttemptOf(d, a).worker.count));
            (o.Committed? ==> HasAttempt(o.document, a))
            && DocNext(d, Publish(a), now, seconds, false) == Conclude(d, a, o, Done, Rejected)
  {
  }

  lemma PublishedColumns(d: Document, a: AttemptId)
    requires LeaseInv(d) && HasAttempt(d, a)
    ensures HasAttempt(PublishChunks(d, a), a)
    ensures var e := SetWorker(PublishChunks(d, a), a, Done); e.status == DocumentStatus.Completed && e.chunkCount == |d.chunks|
  {
  }

  lemma FailedColumns(d: Document, a: AttemptId)
    requires LeaseInv(d) && HasAttempt(d, a)
    ensures HasAttempt(FailPublication(d, a), a)
    ensures var e := SetWorker(FailPublication(d, a), a, Done);
            e.status == Failed && e.error == Some(20013) && e.chunkCount == d.chunkCount
  {
  }

  /** A run that fails, converges or ends a clean-up has the rows of that transaction, and its worker is done. */
  lemma EndsRun(d: Document, a: AttemptId, step: DocStep, now: int, seconds: nat)
    requires HasAttempt(d, a) && StepAttempt(step) == Some(a) && Enabled(d, step)
    ensures var e := DocNext(d, step, now, seconds, false);
            match step
            case Fail(_, code) => HasAttempt(FailStage(d, a, code), a) && Remembers(FailStage(d, a, code), e, a, Done)
            case Converge(_) => HasAttempt(ConvergeCancelled(d, a), a) && Remembers(ConvergeCancelled(d, a), e, a, Done)
            case FinishDelete(_) =>
              var cleaned := if AttemptOf(d, a).worker == SawDeleted then FinishCleanupAgain(d, a) else FinishCleanup(d, a);
              HasAttempt(cleaned, a) && Remembers(cleaned, e, a, Done)
            case FailDelete(_) => HasAttempt(FailCleanup(d, a), a) && Remembers(FailCleanup(d, a), e, a, Done)
            case _ => true
  {
    match step
    case Fail(_, code) => SetRemembers(FailStage(d, a, code), a, Done);
    case Converge(_) => SetRemembers(ConvergeCancelled(d, a), a, Done);
    case FinishDelete(_) =>
      SetRemembers(if AttemptOf(d, a).worker == SawDeleted then FinishCleanupAgain(d, a) else FinishCleanup(d, a), a, Done);
    case FailDelete(_) => SetRemembers(FailCleanup(d, a), a, Done);
    case _ =>
  }

  /** A clean-up run of a document that is not DELETED removes the original object before the rows go. */
  lemma CleansUp(d: Document, a: AttemptId, now: int, seconds: nat)
    requires HasAttempt(d, a) && a.key.kind == DeleteCleanup
    ensures AttemptOf(d, a).worker == Working ==>
              Remembers(d, DocNext(d, LookUp(a), now, seconds, false), a,
                        if d.status == Deleted then SawDeleted else SawLive)
    ensures AttemptOf(d, a).worker == SawLive ==>
              Remembers(d.(original := false), DocNext(d, RemoveOriginal(a), now, seconds, false), a, Removed)
  {
    SetRemembers(d, a, if d.status.Deleted? then SawDeleted else SawLive);
    SetRemembers(d.(original := false), a, Removed);
  }

  /** A freshly uploaded document. */
  lemma UploadedRows(user: nat)
    ensures NewDocument(user)
            == Document(user, DocumentStatus.Pending, None, 0, 0, None, 0,
                        map[TaskKey(Parse, 0) := Task(TaskPending, 0, 3, None, 0, None, [])], [], [], [], [], true)
  {
  }
}
