/** How a document gets to COMPLETED: from any state of the system, with workers that begin from now on. */
module Completion {
  import opened Collections
  import opened Rows
  import opened Transactions
  import opened Protocol
  import opened ChunkWindows
  import opened Invariant
  import opened Runs
  import opened DeletionSafety

  // ---------------------------------------------------------------------------------------------
  // What the system does by itself
  // ---------------------------------------------------------------------------------------------

  /** What the parse worker asks for before it begins. */
  predicate Runnable(e: Document) {
    e.status.Queued? || e.status.Processing?
  }

  /** Time, scans, take-overs, redelivered messages, and steps of stage workers that have not begun in `d`. */
  predicate ByItself(d: Document, id: nat, s: System, event: Event) {
    match event
    case Tick(_) => true
    case Scan => true
    case Upload(_, _) => false
    case On(other, step) =>
      if other != id then step.TakeOverLease?
      else
        match StepAttempt(step)
        case Some(a) => IsStage(a.key) && !HasAttempt(d, a)
        case None =>
          step.Coordinate? || step.Admit? || step.TakeOverLease? || step.TakeOverAttempt?
          || (step.Begin? && IsStage(step.key) && (step.key.kind.Parse? ==> id in s.docs && Runnable(s.docs[id])))
  }

  ghost predicate AllByItself(c: Config, s: System, id: nat, d: Document, run: seq<Event>) {
    forall k :: 0 <= k < |run| ==> ByItself(d, id, Run(c, s, run[..k]), run[k])
  }

  ghost predicate PublishesBy(c: Config, s: System, id: nat, pieces: seq<string>, run: seq<Event>) {
    && id in Run(c, s, run).docs
    && Run(c, s, run).docs[id].status.Completed? && Run(c, s, run).docs[id].chunks == pieces
  }

  /** Without the workers that have begun in `d` the document gets to COMPLETED with these chunk rows. */
  ghost predicate CanPublish(c: Config, s: System, id: nat, d: Document, pieces: seq<string>) {
    exists run :: AllByItself(c, s, id, d, run) && PublishesBy(c, s, id, pieces, run)
  }

  lemma PublishedNow(c: Config, s: System, id: nat, d: Document, pieces: seq<string>)
    requires id in s.docs && s.docs[id].status.Completed? && s.docs[id].chunks == pieces
    ensures CanPublish(c, s, id, d, pieces)
  {
    assert Run(c, s, []) == s;
    assert AllByItself(c, s, id, d, []) && PublishesBy(c, s, id, pieces, []);
  }

  /** One event of this kind leads to `t`. */
  ghost predicate LeadsTo(c: Config, s: System, id: nat, d: Document, t: System) {
    exists event :: ByItself(d, id, s, event) && t == Next(c, s, event)
  }

  lemma PublishesAfter(c: Config, s: System, id: nat, d: Document, pieces: seq<string>, t: System)
    requires LeadsTo(c, s, id, d, t) && CanPublish(c, t, id, d, pieces)
    ensures CanPublish(c, s, id, d, pieces)
  {
    var event :| ByItself(d, id, s, event) && t == Next(c, s, event);
    var run :| AllByItself(c, t, id, d, run) && PublishesBy(c, t, id, pieces, run);
    AllLater(c, s, id, d, event, run);
    OneLater(c, s, event, run, |run|);
    assert ([event] + run)[..|run| + 1] == [event] + run && run[..|run|] == run;
    assert PublishesBy(c, s, id, pieces, [event] + run);
  }

  lemma AllLater(c: Config, s: System, id: nat, d: Document, event: Event, run: seq<Event>)
    requires ByItself(d, id, s, event) && AllByItself(c, Next(c, s, event), id, d, run)
    ensures AllByItself(c, s, id, d, [event] + run)
  {
    var all := [event] + run;
    assert all[..0] == [] && Run(c, s, []) == s;
    forall k | 0 <= k < |all|
      ensures ByItself(d, id, Run(c, s, all[..k]), all[k])
    {
      if k > 0 {
        OneLater(c, s, event, run, k - 1);
        assert ByItself(d, id, Run(c, Next(c, s, event), run[..k - 1]), run[k - 1]);
      }
    }
  }

  /** `e` is a later state of `d`. */
  ghost predicate Since(d: Document, e: Document) {
    forall key :: key in d.tasks ==> key in e.tasks && |d.tasks[key].attempts| <= |e.tasks[key].attempts|
  }

  ghost predicate Follows(c: Config, s: System, id: nat, d: Document) {
    SystemInv(c, s) && id in s.docs && Since(d, s.docs[id])
  }

  lemma Taken(c: Config, s: System, id: nat, d: Document, step: DocStep) returns (t: System)
    requires Follows(c, s, id, d) && !step.TakeOverLease? && ByItself(d, id, s, On(id, step))
    ensures Follows(c, t, id, d) && LeadsTo(c, s, id, d, t)
    ensures t.docs[id] == DocNext(s.docs[id], step, s.now, c.leaseSeconds, SlotFree(c, s, id))
  {
    t := Carried(c, s, id, d, On(id, step));
    StepTaken(c, s, id, step);
  }

  lemma Carried(c: Config, s: System, id: nat, d: Document, event: Event) returns (t: System)
    requires Follows(c, s, id, d) && ByItself(d, id, s, event)
    ensures t == Next(c, s, event) && Follows(c, t, id, d) && LeadsTo(c, s, id, d, t)
  {
    t := Next(c, s, event);
    NextKeeps(c, s, event);
    SinceEvolves(d, s.docs[id], t.docs[id]);
  }

  lemma SinceEvolves(d: Document, e: Document, f: Document)
    requires Since(d, e) && TasksEvolve(e, f)
    ensures Since(d, f)
  {
    forall key | key in d.tasks
      ensures key in f.tasks && |d.tasks[key].attempts| <= |f.tasks[key].attempts|
    {
      assert TaskEvolves(key, e.tasks[key], f.tasks[key]);
    }
  }

  // ---------------------------------------------------------------------------------------------
  // The stages, one step at a time
  // ---------------------------------------------------------------------------------------------

  /** A worker that began after `d` works on the stage. */
  ghost predicate Works(d: Document, e: Document, kind: TaskType, a: AttemptId) {
    && !BeingDeleted(e) && !kind.DeleteCleanup?
    && a.key == StageKey(kind) && HasAttempt(e, a) && !HasAttempt(d, a)
    && AttemptOf(e, a).status.Running? && e.tasks[a.key].status.TaskRunning?
  }

  /** The task of a later stage is still to be created, or waits. */
  predicate Free(e: Document, kind: TaskType) {
    StageKey(kind) in e.tasks ==> e.tasks[StageKey(kind)].status.TaskQueued?
  }

  predicate StageQueued(e: Document, kind: TaskType) {
    !BeingDeleted(e) && !kind.DeleteCleanup? && StageKey(kind) in e.tasks && e.tasks[StageKey(kind)].status.TaskQueued?
  }

  /** The stages that were free still are, apart from the one that `f` works on. */
  predicate StaysFree(e: Document, f: Document, kind: TaskType) {
    && (!kind.Chunk? && Free(e, Chunk) ==> Free(f, Chunk))
    && (!kind.Embed? && Free(e, Embed) ==> Free(f, Embed))
    && (!kind.Finalize? && Free(e, Finalize) ==> Free(f, Finalize))
  }

  predicate SameData(e: Document, f: Document) {
    f.parseResults == e.parseResults && f.drafts == e.drafts && f.chunks == e.chunks && f.original == e.original
  }

  lemma BeginStep(d: Document, e: Document, kind: TaskType, now: int, seconds: nat, slotFree: bool)
    requires TasksInv(e) && Since(d, e) && StageQueued(e, kind)
    ensures var f := DocNext(e, Begin(StageKey(kind)), now, seconds, slotFree);
            var a := AttemptId(StageKey(kind), |e.tasks[StageKey(kind)].attempts|);
            && Works(d, f, kind, a) && AttemptOf(f, a).worker.Working?
            && StaysFree(e, f, a.key.kind) && SameData(e, f) && f.leases == e.leases
            && EmbedCheckpoint(f) == EmbedCheckpoint(e)
  {
    assert TaskInv(StageKey(kind), e.tasks[StageKey(kind)]);
    assert CanBegin(e, StageKey(kind));
  }

  lemma BeginTaken(c: Config, s: System, id: nat, d: Document, kind: TaskType) returns (t: System)
    requires Follows(c, s, id, d)
    requires StageQueued(s.docs[id], kind) && (kind.Parse? ==> Runnable(s.docs[id]))
    ensures Follows(c, t, id, d) && LeadsTo(c, s, id, d, t)
    ensures var f := t.docs[id];
            var a := AttemptId(StageKey(kind), |s.docs[id].tasks[StageKey(kind)].attempts|);
            && Works(d, f, kind, a) && AttemptOf(f, a).worker.Working?
            && StaysFree(s.docs[id], f, a.key.kind) && SameData(s.docs[id], f) && f.leases == s.docs[id].leases
            && EmbedCheckpoint(f) == EmbedCheckpoint(s.docs[id])
  {
    BeginStep(d, s.docs[id], kind, s.now, c.leaseSeconds, SlotFree(c, s, id));
    t := Taken(c, s, id, d, Begin(StageKey(kind)));
  }

  lemma PublishStep(d: Document, e: Document, a: AttemptId, now: int, seconds: nat, slotFree: bool)
    requires Works(d, e, Finalize, a) && AttemptOf(e, a).worker == Expecting(|e.chunks|)
    ensures var f := DocNext(e, Publish(a), now, seconds, slotFree); f.status.Completed? && f.chunks == e.chunks
  {
  }

  lemma PublishTaken(c: Config, s: System, id: nat, d: Document, a: AttemptId) returns (t: System)
    requires Follows(c, s, id, d)
    requires Works(d, s.docs[id], Finalize, a) && AttemptOf(s.docs[id], a).worker == Expecting(|s.docs[id].chunks|)
    ensures Follows(c, t, id, d) && LeadsTo(c, s, id, d, t)
    ensures var f := t.docs[id]; f.status.Completed? && f.chunks == s.docs[id].chunks
  {
    PublishStep(d, s.docs[id], a, s.now, c.leaseSeconds, SlotFree(c, s, id));
    t := Taken(c, s, id, d, Publish(a));
  }

  lemma CheckpointStep(d: Document, e: Document, a: AttemptId, now: int, seconds: nat, slotFree: bool)
    requires Works(d, e, Finalize, a) && AttemptOf(e, a).worker.Working?
    ensures var f := DocNext(e, ReadCheckpoint(a), now, seconds, slotFree);
            Works(d, f, Finalize, a) && AttemptOf(f, a).worker == Expecting(EmbedCheckpoint(e)) && SameData(e, f)
  {
  }

  lemma CheckpointTaken(c: Config, s: System, id: nat, d: Document, a: AttemptId) returns (t: System)
    requires Follows(c, s, id, d)
    requires Works(d, s.docs[id], Finalize, a) && AttemptOf(s.docs[id], a).worker.Working?
    ensures Follows(c, t, id, d) && LeadsTo(c, s, id, d, t)
    ensures var f := t.docs[id];
            Works(d, f, Finalize, a) && AttemptOf(f, a).worker == Expecting(EmbedCheckpoint(s.docs[id])) && SameData(s.docs[id], f)
  {
    CheckpointStep(d, s.docs[id], a, s.now, c.leaseSeconds, SlotFree(c, s, id));
    t := Taken(c, s, id, d, ReadCheckpoint(a));
  }

  lemma FinishEmbedStep(d: Document, e: Document, a: AttemptId, now: int, seconds: nat, slotFree: bool)
    requires Works(d, e, Embed, a) && AttemptOf(e, a).worker.Wrote? && HasOpenLease(e) && Free(e, Finalize)
    ensures var f := DocNext(e, FinishEmbed(a), now, seconds, slotFree);
            StageQueued(f, Finalize) && EmbedCheckpoint(f) == AttemptOf(e, a).worker.count && SameData(e, f)
  {
  }

  lemma FinishEmbedTaken(c: Config, s: System, id: nat, d: Document, a: AttemptId) returns (t: System)
    requires Follows(c, s, id, d)
    requires Works(d, s.docs[id], Embed, a) && AttemptOf(s.docs[id], a).worker.Wrote? && HasOpenLease(s.docs[id])
             && Free(s.docs[id], Finalize)
    ensures Follows(c, t, id, d) && LeadsTo(c, s, id, d, t)
    ensures var f := t.docs[id];
            StageQueued(f, Finalize) && EmbedCheckpoint(f) == AttemptOf(s.docs[id], a).worker.count && SameData(s.docs[id], f)
  {
    FinishEmbedStep(d, s.docs[id], a, s.now, c.leaseSeconds, SlotFree(c, s, id));
    t := Taken(c, s, id, d, FinishEmbed(a));
  }

  lemma SaveChunksStep(d: Document, e: Document, a: AttemptId, now: int, seconds: nat, slotFree: bool)
    requires Works(d, e, Embed, a) && AttemptOf(e, a).worker.Loaded?
    requires AttemptOf(e, a).worker.embedded >= |AttemptOf(e, a).worker.drafts|
    ensures var f := DocNext(e, SaveChunks(a), now, seconds, slotFree);
            && Works(d, f, Embed, a) && AttemptOf(f, a).worker == Wrote(|AttemptOf(e, a).worker.drafts|)
            && f.chunks == AttemptOf(e, a).worker.drafts && f.leases == e.leases && StaysFree(e, f, a.key.kind)
            && EmbedCheckpoint(f) == |f.chunks|
  {
  }

  lemma SaveChunksTaken(c: Config, s: System, id: nat, d: Document, a: AttemptId) returns (t: System)
    requires Follows(c, s, id, d)
    requires Works(d, s.docs[id], Embed, a) && AttemptOf(s.docs[id], a).worker.Loaded?
    requires AttemptOf(s.docs[id], a).worker.embedded >= |AttemptOf(s.docs[id], a).worker.drafts|
    ensures Follows(c, t, id, d) && LeadsTo(c, s, id, d, t)
    ensures var f := t.docs[id];
            && Works(d, f, Embed, a) && AttemptOf(f, a).worker == Wrote(|AttemptOf(s.docs[id], a).worker.drafts|)
            && f.chunks == AttemptOf(s.docs[id], a).worker.drafts && f.leases == s.docs[id].leases && StaysFree(s.docs[id], f, a.key.kind)
            && EmbedCheckpoint(f) == |f.chunks|
  {
    SaveChunksStep(d, s.docs[id], a, s.now, c.leaseSeconds, SlotFree(c, s, id));
    t := Taken(c, s, id, d, SaveChunks(a));
  }

  lemma RenewStep(d: Document, e: Document, a: AttemptId, now: int, seconds: nat, slotFree: bool)
    requires Works(d, e, Embed, a) && AttemptOf(e, a).worker.Loaded? && HasOpenLease(e)
    requires AttemptOf(e, a).worker.embedded < |AttemptOf(e, a).worker.drafts|
    ensures var f := DocNext(e, Renew(a), now, seconds, slotFree);
            && Works(d, f, Embed, a) && AttemptOf(f, a).worker == NextBatch(AttemptOf(e, a).worker)
            && HasOpenLease(f) && StaysFree(e, f, a.key.kind) && SameData(e, f)
  {
    var i := FindOpen(e.leases).value;
    OpenStays(e.leases, e.leases[i].(heartbeat := now, expires := now + seconds, task := a.key));
  }

  lemma RenewTaken(c: Config, s: System, id: nat, d: Document, a: AttemptId) returns (t: System)
    requires Follows(c, s, id, d)
    requires Works(d, s.docs[id], Embed, a) && AttemptOf(s.docs[id], a).worker.Loaded? && HasOpenLease(s.docs[id])
    requires AttemptOf(s.docs[id], a).worker.embedded < |AttemptOf(s.docs[id], a).worker.drafts|
    ensures Follows(c, t, id, d) && LeadsTo(c, s, id, d, t)
    ensures var f := t.docs[id];
            && Works(d, f, Embed, a) && AttemptOf(f, a).worker == NextBatch(AttemptOf(s.docs[id], a).worker)
            && HasOpenLease(f) && StaysFree(s.docs[id], f, a.key.kind) && SameData(s.docs[id], f)
  {
    RenewStep(d, s.docs[id], a, s.now, c.leaseSeconds, SlotFree(c, s, id));
    t := Taken(c, s, id, d, Renew(a));
  }

  lemma LoadStep(d: Document, e: Document, a: AttemptId, now: int, seconds: nat, slotFree: bool)
    requires Works(d, e, Embed, a) && AttemptOf(e, a).worker.Working? && e.drafts != []
    ensures var f := DocNext(e, LoadDrafts(a), now, seconds, slotFree);
            && Works(d, f, Embed, a) && AttemptOf(f, a).worker == Loaded(e.drafts, 0)
            && f.leases == e.leases && StaysFree(e, f, a.key.kind) && SameData(e, f)
  {
  }

  lemma LoadTaken(c: Config, s: System, id: nat, d: Document, a: AttemptId) returns (t: System)
    requires Follows(c, s, id, d)
    requires Works(d, s.docs[id], Embed, a) && AttemptOf(s.docs[id], a).worker.Working? && s.docs[id].drafts != []
    ensures Follows(c, t, id, d) && LeadsTo(c, s, id, d, t)
    ensures var f := t.docs[id];
            && Works(d, f, Embed, a) && AttemptOf(f, a).worker == Loaded(s.docs[id].drafts, 0)
            && f.leases == s.docs[id].leases && StaysFree(s.docs[id], f, a.key.kind) && SameData(s.docs[id], f)
  {
    LoadStep(d, s.docs[id], a, s.now, c.leaseSeconds, SlotFree(c, s, id));
    t := Taken(c, s, id, d, LoadDrafts(a));
  }

  lemma SaveDraftsStep(d: Document, e: Document, a: AttemptId, now: int, seconds: nat, slotFree: bool)
    requires Works(d, e, Chunk, a) && AttemptOf(e, a).worker.Read? && HasOpenLease(e) && Free(e, Embed)
    ensures var f := DocNext(e, SaveDrafts(a), now, seconds, slotFree);
            && StageQueued(f, Embed) && f.drafts == Pieces(AttemptOf(e, a).worker.text) && HasOpenLease(f)
            && (Free(e, Finalize) ==> Free(f, Finalize))
  {
    var i := FindOpen(e.leases).value;
    OpenStays(e.leases, e.leases[i].(task := StageKey(Embed)));
  }

  lemma SaveDraftsTaken(c: Config, s: System, id: nat, d: Document, a: AttemptId) returns (t: System)
    requires Follows(c, s, id, d)
    requires Works(d, s.docs[id], Chunk, a) && AttemptOf(s.docs[id], a).worker.Read? && HasOpenLease(s.docs[id])
             && Free(s.docs[id], Embed)
    ensures Follows(c, t, id, d) && LeadsTo(c, s, id, d, t)
    ensures var f := t.docs[id];
            && StageQueued(f, Embed) && f.drafts == Pieces(AttemptOf(s.docs[id], a).worker.text) && HasOpenLease(f)
            && (Free(s.docs[id], Finalize) ==> Free(f, Finalize))
  {
    SaveDraftsStep(d, s.docs[id], a, s.now, c.leaseSeconds, SlotFree(c, s, id));
    t := Taken(c, s, id, d, SaveDrafts(a));
  }

  lemma ReadTextStep(d: Document, e: Document, a: AttemptId, now: int, seconds: nat, slotFree: bool)
    requires Works(d, e, Chunk, a) && AttemptOf(e, a).worker.Leased? && e.parseResults != []
    ensures var f := DocNext(e, ReadText(a), now, seconds, slotFree);
            && Works(d, f, Chunk, a) && AttemptOf(f, a).worker == Read(LastText(e))
            && f.leases == e.leases && StaysFree(e, f, a.key.kind) && SameData(e, f)
  {
  }

  lemma ReadTextTaken(c: Config, s: System, id: nat, d: Document, a: AttemptId) returns (t: System)
    requires Follows(c, s, id, d)
    requires Works(d, s.docs[id], Chunk, a) && AttemptOf(s.docs[id], a).worker.Leased? && s.docs[id].parseResults != []
    ensures Follows(c, t, id, d) && LeadsTo(c, s, id, d, t)
    ensures var f := t.docs[id];
            && Works(d, f, Chunk, a) && AttemptOf(f, a).worker == Read(LastText(s.docs[id]))
            && f.leases == s.docs[id].leases && StaysFree(s.docs[id], f, a.key.kind) && SameData(s.docs[id], f)
  {
    ReadTextStep(d, s.docs[id], a, s.now, c.leaseSeconds, SlotFree(c, s, id));
    t := Taken(c, s, id, d, ReadText(a));
  }

  lemma CheckLeaseStep(d: Document, e: Document, a: AttemptId, now: int, seconds: nat, slotFree: bool)
    requires Works(d, e, Chunk, a) && AttemptOf(e, a).worker.Working? && HasOpenLease(e)
    ensures var f := DocNext(e, CheckLease(a), now, seconds, slotFree);
            && Works(d, f, Chunk, a) && AttemptOf(f, a).worker.Leased?
            && f.leases == e.leases && StaysFree(e, f, a.key.kind) && SameData(e, f)
  {
  }

  lemma CheckLeaseTaken(c: Config, s: System, id: nat, d: Document, a: AttemptId) returns (t: System)
    requires Follows(c, s, id, d)
    requires Works(d, s.docs[id], Chunk, a) && AttemptOf(s.docs[id], a).worker.Working? && HasOpenLease(s.docs[id])
    ensures Follows(c, t, id, d) && LeadsTo(c, s, id, d, t)
    ensures var f := t.docs[id];
            && Works(d, f, Chunk, a) && AttemptOf(f, a).worker.Leased?
            && f.leases == s.docs[id].leases && StaysFree(s.docs[id], f, a.key.kind) && SameData(s.docs[id], f)
  {
    CheckLeaseStep(d, s.docs[id], a, s.now, c.leaseSeconds, SlotFree(c, s, id));
    t := Taken(c, s, id, d, CheckLease(a));
  }

  lemma ReadOriginalStep(d: Document, e: Document, a: AttemptId, text: string, now: int, seconds: nat, slotFree: bool)
    requires Works(d, e, Parse, a) && AttemptOf(e, a).worker.Working? && e.original
    ensures var f := DocNext(e, ReadOriginal(a, text), now, seconds, slotFree);
            && Works(d, f, Parse, a) && AttemptOf(f, a).worker == Parsed(text)
            && f.leases == e.leases && StaysFree(e, f, a.key.kind)
  {
  }

  lemma ReadOriginalTaken(c: Config, s: System, id: nat, d: Document, a: AttemptId, text: string) returns (t: System)
    requires Follows(c, s, id, d)
    requires Works(d, s.docs[id], Parse, a) && AttemptOf(s.docs[id], a).worker.Working? && s.docs[id].original
    ensures Follows(c, t, id, d) && LeadsTo(c, s, id, d, t)
    ensures var f := t.docs[id];
            && Works(d, f, Parse, a) && AttemptOf(f, a).worker == Parsed(text)
            && f.leases == s.docs[id].leases && StaysFree(s.docs[id], f, a.key.kind)
  {
    ReadOriginalStep(d, s.docs[id], a, text, s.now, c.leaseSeconds, SlotFree(c, s, id));
    t := Taken(c, s, id, d, ReadOriginal(a, text));
  }

  lemma SaveParseStep(d: Document, e: Document, a: AttemptId, text: string, now: int, seconds: nat, slotFree: bool)
    requires Works(d, e, Parse, a) && AttemptOf(e, a).worker == Parsed(text) && HasOpenLease(e) && Free(e, Chunk)
    requires !AllBlank(text)
    ensures var f := DocNext(e, SaveParse(a), now, seconds, slotFree);
            && StageQueued(f, Chunk) && f.parseResults == e.parseResults + [text] && HasOpenLease(f)
            && (Free(e, Embed) ==> Free(f, Embed)) && (Free(e, Finalize) ==> Free(f, Finalize))
  {
    var i := FindOpen(e.leases).value;
    OpenStays(e.leases, e.leases[i].(task := StageKey(Chunk)));
  }

  lemma SaveParseTaken(c: Config, s: System, id: nat, d: Document, a: AttemptId, text: string) returns (t: System)
    requires Follows(c, s, id, d)
    requires Works(d, s.docs[id], Parse, a) && AttemptOf(s.docs[id], a).worker == Parsed(text)
    requires HasOpenLease(s.docs[id]) && Free(s.docs[id], Chunk) && !AllBlank(text)
    ensures Follows(c, t, id, d) && LeadsTo(c, s, id, d, t)
    ensures var f := t.docs[id];
            && StageQueued(f, Chunk) && f.parseResults == s.docs[id].parseResults + [text] && HasOpenLease(f)
            && (Free(s.docs[id], Embed) ==> Free(f, Embed)) && (Free(s.docs[id], Finalize) ==> Free(f, Finalize))
  {
    SaveParseStep(d, s.docs[id], a, text, s.now, c.leaseSeconds, SlotFree(c, s, id));
    t := Taken(c, s, id, d, SaveParse(a));
  }

  // ---------------------------------------------------------------------------------------------
  // From a stage to the publication
  // ---------------------------------------------------------------------------------------------

  lemma ExpectingPublishes(c: Config, s: System, id: nat, d: Document, a: AttemptId)
    requires Follows(c, s, id, d) && Works(d, s.docs[id], Finalize, a)
    requires AttemptOf(s.docs[id], a).worker == Expecting(|s.docs[id].chunks|)
    ensures CanPublish(c, s, id, d, s.docs[id].chunks)
  {
    var t := PublishTaken(c, s, id, d, a);
    PublishedNow(c, t, id, d, s.docs[id].chunks);
    PublishesAfter(c, s, id, d, s.docs[id].chunks, t);
  }

  lemma BegunFinalizePublishes(c: Config, s: System, id: nat, d: Document, a: AttemptId)
    requires Follows(c, s, id, d) && Works(d, s.docs[id], Finalize, a) && AttemptOf(s.docs[id], a).worker.Working?
    requires EmbedCheckpoint(s.docs[id]) == |s.docs[id].chunks|
    ensures CanPublish(c, s, id, d, s.docs[id].chunks)
  {
    var t := CheckpointTaken(c, s, id, d, a);
    ExpectingPublishes(c, t, id, d, a);
    PublishesAfter(c, s, id, d, s.docs[id].chunks, t);
  }

  lemma FinalizePublishes(c: Config, s: System, id: nat, d: Document)
    requires Follows(c, s, id, d) && StageQueued(s.docs[id], Finalize)
    requires EmbedCheckpoint(s.docs[id]) == |s.docs[id].chunks|
    ensures CanPublish(c, s, id, d, s.docs[id].chunks)
  {
    var e := s.docs[id];
    var t := BeginTaken(c, s, id, d, Finalize);
    BegunFinalizePublishes(c, t, id, d, AttemptId(StageKey(Finalize), |e.tasks[StageKey(Finalize)].attempts|));
    PublishesAfter(c, s, id, d, e.chunks, t);
  }

  lemma WrotePublishes(c: Config, s: System, id: nat, d: Document, a: AttemptId)
    requires Follows(c, s, id, d) && Works(d, s.docs[id], Embed, a) && HasOpenLease(s.docs[id])
    requires Free(s.docs[id], Finalize) && AttemptOf(s.docs[id], a).worker == Wrote(|s.docs[id].chunks|)
    ensures CanPublish(c, s, id, d, s.docs[id].chunks)
  {
    var t := FinishEmbedTaken(c, s, id, d, a);
    FinalizePublishes(c, t, id, d);
    PublishesAfter(c, s, id, d, s.docs[id].chunks, t);
  }

  /** Batch after batch, and then the chunk rows. */
  lemma {:induction false} LoadedPublishes(c: Config, s: System, id: nat, d: Document, a: AttemptId)
    requires Follows(c, s, id, d) && Works(d, s.docs[id], Embed, a) && HasOpenLease(s.docs[id])
    requires Free(s.docs[id], Finalize) && AttemptOf(s.docs[id], a).worker.Loaded?
    ensures CanPublish(c, s, id, d, AttemptOf(s.docs[id], a).worker.drafts)
    decreases |AttemptOf(s.docs[id], a).worker.drafts| - AttemptOf(s.docs[id], a).worker.embedded
  {
    var worker := AttemptOf(s.docs[id], a).worker;
    if worker.embedded < |worker.drafts| {
      var t := RenewTaken(c, s, id, d, a);
      LoadedPublishes(c, t, id, d, a);
      PublishesAfter(c, s, id, d, worker.drafts, t);
    } else {
      var t := SaveChunksTaken(c, s, id, d, a);
      WrotePublishes(c, t, id, d, a);
      PublishesAfter(c, s, id, d, worker.drafts, t);
    }
  }

  lemma BegunEmbedPublishes(c: Config, s: System, id: nat, d: Document, a: AttemptId)
    requires Follows(c, s, id, d) && Works(d, s.docs[id], Embed, a) && HasOpenLease(s.docs[id])
    requires Free(s.docs[id], Finalize) && AttemptOf(s.docs[id], a).worker.Working? && s.docs[id].drafts != []
    ensures CanPublish(c, s, id, d, s.docs[id].drafts)
  {
    var t := LoadTaken(c, s, id, d, a);
    LoadedPublishes(c, t, id, d, a);
    PublishesAfter(c, s, id, d, s.docs[id].drafts, t);
  }

  lemma EmbedPublishes(c: Config, s: System, id: nat, d: Document)
    requires Follows(c, s, id, d) && StageQueued(s.docs[id], Embed) && HasOpenLease(s.docs[id])
    requires Free(s.docs[id], Finalize) && s.docs[id].drafts != []
    ensures CanPublish(c, s, id, d, s.docs[id].drafts)
  {
    var e := s.docs[id];
    var t := BeginTaken(c, s, id, d, Embed);
    BegunEmbedPublishes(c, t, id, d, AttemptId(StageKey(Embed), |e.tasks[StageKey(Embed)].attempts|));
    PublishesAfter(c, s, id, d, e.drafts, t);
  }

  lemma ReadPublishes(c: Config, s: System, id: nat, d: Document, a: AttemptId)
    requires Follows(c, s, id, d) && Works(d, s.docs[id], Chunk, a) && HasOpenLease(s.docs[id])
    requires Free(s.docs[id], Embed) && Free(s.docs[id], Finalize)
    requires AttemptOf(s.docs[id], a).worker.Read? && !AllBlank(AttemptOf(s.docs[id], a).worker.text)
    ensures CanPublish(c, s, id, d, Pieces(AttemptOf(s.docs[id], a).worker.text))
  {
    var pieces := Pieces(AttemptOf(s.docs[id], a).worker.text);
    SomePieces(AttemptOf(s.docs[id], a).worker.text);
    var t := SaveDraftsTaken(c, s, id, d, a);
    EmbedPublishes(c, t, id, d);
    PublishesAfter(c, s, id, d, pieces, t);
  }

  lemma SomePieces(text: string)
    requires !AllBlank(text)
    ensures Pieces(text) != []
  {
    var p: nat :| p < |text| && !IsBlank(text[p]);
    NothingLost(text, CHUNK_SIZE, CHUNK_OVERLAP, p);
  }

  lemma BegunChunkPublishes(c: Config, s: System, id: nat, d: Document, a: AttemptId)
    requires Follows(c, s, id, d) && Works(d, s.docs[id], Chunk, a) && HasOpenLease(s.docs[id])
    requires Free(s.docs[id], Embed) && Free(s.docs[id], Finalize) && AttemptOf(s.docs[id], a).worker.Working?
    requires s.docs[id].parseResults != [] && !AllBlank(LastText(s.docs[id]))
    ensures CanPublish(c, s, id, d, Pieces(LastText(s.docs[id])))
  {
    var t := CheckLeaseTaken(c, s, id, d, a);
    LeasedPublishes(c, t, id, d, a);
    PublishesAfter(c, s, id, d, Pieces(LastText(s.docs[id])), t);
  }

  lemma LeasedPublishes(c: Config, s: System, id: nat, d: Document, a: AttemptId)
    requires Follows(c, s, id, d) && Works(d, s.docs[id], Chunk, a) && HasOpenLease(s.docs[id])
    requires Free(s.docs[id], Embed) && Free(s.docs[id], Finalize) && AttemptOf(s.docs[id], a).worker.Leased?
    requires s.docs[id].parseResults != [] && !AllBlank(LastText(s.docs[id]))
    ensures CanPublish(c, s, id, d, Pieces(LastText(s.docs[id])))
  {
    var t := ReadTextTaken(c, s, id, d, a);
    ReadPublishes(c, t, id, d, a);
    PublishesAfter(c, s, id, d, Pieces(LastText(s.docs[id])), t);
  }

  lemma ChunkPublishes(c: Config, s: System, id: nat, d: Document)
    requires Follows(c, s, id, d) && StageQueued(s.docs[id], Chunk) && HasOpenLease(s.docs[id])
    requires Free(s.docs[id], Embed) && Free(s.docs[id], Finalize)
    requires s.docs[id].parseResults != [] && !AllBlank(LastText(s.docs[id]))
    ensures CanPublish(c, s, id, d, Pieces(LastText(s.docs[id])))
  {
    var e := s.docs[id];
    var t := BeginTaken(c, s, id, d, Chunk);
    BegunChunkPublishes(c, t, id, d, AttemptId(StageKey(Chunk), |e.tasks[StageKey(Chunk)].attempts|));
    PublishesAfter(c, s, id, d, Pieces(LastText(e)), t);
  }

  lemma ParsedPublishes(c: Config, s: System, id: nat, d: Document, a: AttemptId, text: string)
    requires Follows(c, s, id, d) && Works(d, s.docs[id], Parse, a) && HasOpenLease(s.docs[id])
    requires Free(s.docs[id], Chunk) && Free(s.docs[id], Embed) && Free(s.docs[id], Finalize)
    requires AttemptOf(s.docs[id], a).worker == Parsed(text) && !AllBlank(text)
    ensures CanPublish(c, s, id, d, Pieces(text))
  {
    var t := SaveParseTaken(c, s, id, d, a, text);
    ChunkPublishes(c, t, id, d);
    PublishesAfter(c, s, id, d, Pieces(text), t);
  }

  lemma BegunParsePublishes(c: Config, s: System, id: nat, d: Document, a: AttemptId, text: string)
    requires Follows(c, s, id, d) && Works(d, s.docs[id], Parse, a) && HasOpenLease(s.docs[id])
    requires Free(s.docs[id], Chunk) && Free(s.docs[id], Embed) && Free(s.docs[id], Finalize)
    requires AttemptOf(s.docs[id], a).worker.Working? && s.docs[id].original && !AllBlank(text)
    ensures CanPublish(c, s, id, d, Pieces(text))
  {
    var t := ReadOriginalTaken(c, s, id, d, a, text);
    ParsedPublishes(c, t, id, d, a, text);
    PublishesAfter(c, s, id, d, Pieces(text), t);
  }

  lemma ParsePublishes(c: Config, s: System, id: nat, d: Document, text: string)
    requires Follows(c, s, id, d) && StageQueued(s.docs[id], Parse) && HasOpenLease(s.docs[id]) && Runnable(s.docs[id])
    requires Free(s.docs[id], Chunk) && Free(s.docs[id], Embed) && Free(s.docs[id], Finalize)
    requires s.docs[id].original && !AllBlank(text)
    ensures CanPublish(c, s, id, d, Pieces(text))
  {
    var e := s.docs[id];
    var t := BeginTaken(c, s, id, d, Parse);
    BegunParsePublishes(c, t, id, d,
                        AttemptId(StageKey(Parse), |e.tasks[StageKey(Parse)].attempts|), text);
    PublishesAfter(c, s, id, d, Pieces(text), t);
  }

  // ---------------------------------------------------------------------------------------------
  // A lease for the next stage
  // ---------------------------------------------------------------------------------------------

  /** The text the stage would go on with, if it is parse or chunk. */
  ghost predicate HasInput(e: Document, kind: TaskType, pieces: seq<string>) {
    match kind
    case Parse => e.original && exists text :: !AllBlank(text) && pieces == Pieces(text)
    case Chunk => e.parseResults != [] && !AllBlank(LastText(e)) && pieces == Pieces(LastText(e))
    case Embed => e.drafts != [] && pieces == e.drafts
    case Finalize => EmbedCheckpoint(e) == |e.chunks| && pieces == e.chunks
    case DeleteCleanup => false
  }

  /** The task of the stage is QUEUED, has its input, and no later stage is in the way. */
  ghost predicate Ready(e: Document, kind: TaskType, pieces: seq<string>) {
    && StageQueued(e, kind) && HasInput(e, kind, pieces) && (kind.Parse? ==> Runnable(e))
    && (kind.Parse? ==> Free(e, Chunk)) && (kind.Parse? || kind.Chunk? ==> Free(e, Embed))
    && (!kind.Finalize? ==> Free(e, Finalize))
  }

  lemma ReadyPublishes(c: Config, s: System, id: nat, d: Document, kind: TaskType, pieces: seq<string>)
    requires Follows(c, s, id, d) && Ready(s.docs[id], kind, pieces) && (kind.Finalize? || HasOpenLease(s.docs[id]))
    ensures CanPublish(c, s, id, d, pieces)
  {
    match kind
    case Parse =>
      var text :| !AllBlank(text) && pieces == Pieces(text);
      ParsePublishes(c, s, id, d, text);
    case Chunk => ChunkPublishes(c, s, id, d);
    case Embed => EmbedPublishes(c, s, id, d);
    case Finalize => FinalizePublishes(c, s, id, d);
  }

  /** A QUEUED document without a lease, whose user may hold one. */
  predicate Waiting(c: Config, e: Document) {
    e.status.Queued? && !HasOpenLease(e) && c.maxPerUser > 0
  }

  lemma AdmitStep(e: Document, now: int, seconds: nat)
    requires e.status.Queued? && !HasOpenLease(e)
    ensures var f := DocNext(e, Admit, now, seconds, true);
            && f.status.Processing? && HasOpenLease(f) && f.tasks == e.tasks && SameData(e, f)
            && f.leases == e.leases + [Lease(StageKey(Parse), now, now + seconds, None)]
  {
  }

  lemma AdmitTaken(c: Config, s: System, id: nat, d: Document) returns (t: System)
    requires Follows(c, s, id, d) && s.docs[id].status.Queued? && !HasOpenLease(s.docs[id]) && SlotFree(c, s, id)
    ensures Follows(c, t, id, d) && LeadsTo(c, s, id, d, t)
    ensures var f := t.docs[id];
            && f.status.Processing? && HasOpenLease(f) && f.tasks == s.docs[id].tasks && SameData(s.docs[id], f)
            && |f.leases| > 0 && f.leases[|f.leases| - 1].task == StageKey(Parse) && IsOpen(f.leases[|f.leases| - 1])
  {
    AdmitStep(s.docs[id], s.now, c.leaseSeconds);
    t := Taken(c, s, id, d, Admit);
  }

  lemma ScanTaken(c: Config, s: System, id: nat, d: Document, wait: nat) returns (t: System, u: System)
    requires Follows(c, s, id, d)
    ensures LeadsTo(c, s, id, d, t) && LeadsTo(c, t, id, d, u)
    ensures u == Scanned(c, s, wait) && u.docs == s.docs && Follows(c, u, id, d)
  {
    t := Next(c, s, Tick(wait));
    u := Next(c, t, Scan);
    assert ByItself(d, id, s, Tick(wait)) && ByItself(d, id, t, Scan);
    ScanKeeps(c, s, wait);
  }

  lemma ReleasedByTakeOver(e: Document, index: nat)
    requires DocInv(e) && index < |e.leases| && IsOpen(e.leases[index])
    ensures var f := RecoverExpiredLease(e, index);
            && f.user == e.user && |f.leases| == |e.leases| && !IsOpen(f.leases[index])
            && forall i :: 0 <= i < |e.leases| && i != index ==> f.leases[i] == e.leases[i]
  {
    if e.status.Deleting? {
      RecoverLeaseDeleting(e, index);
    }
  }

  lemma FewerLeases(docs: map<nat, Document>, other: nat, index: nat, f: Document, user: nat)
    requires other in docs && index < |docs[other].leases| && IsOpen(docs[other].leases[index])
             && docs[other].user == user
    requires f.user == user && |f.leases| == |docs[other].leases| && !IsOpen(f.leases[index])
    requires forall i :: 0 <= i < |f.leases| && i != index ==> f.leases[i] == docs[other].leases[i]
    ensures |OpenLeases(docs[other := f], user)| < |OpenLeases(docs, user)|
  {
    var before, after := OpenLeases(docs, user), OpenLeases(docs[other := f], user);
    assert (other, index) in before;
    assert after <= before - {(other, index)};
    SubsetCard(after, before - {(other, index)});
  }

  /** Another document of the user gives its slot back. */
  lemma SlotFreed(c: Config, s: System, id: nat, d: Document, other: nat, index: nat) returns (t: System, u: System,
                  v: System)
    requires Follows(c, s, id, d) && other in s.docs && other != id && s.docs[other].user == s.docs[id].user
    requires index < |s.docs[other].leases| && IsOpen(s.docs[other].leases[index])
    ensures LeadsTo(c, s, id, d, t) && LeadsTo(c, t, id, d, u) && LeadsTo(c, u, id, d, v) && Follows(c, v, id, d)
    ensures v.docs[id] == s.docs[id]
    ensures |OpenLeases(v.docs, s.docs[id].user)| < |OpenLeases(s.docs, s.docs[id].user)|
  {
    t, u := ExpiryListed(c, s, id, d, other, index);
    v := TakenElsewhere(c, u, id, d, other, index);
    assert DocInv(u.docs[other]);
    ReleasedByTakeOver(u.docs[other], index);
    FewerLeases(u.docs, other, index, v.docs[other], s.docs[id].user);
  }

  /** A lease expires and a scan lists it. */
  lemma ExpiryListed(c: Config, s: System, id: nat, d: Document, other: nat, index: nat) returns (t: System, u: System)
    requires Follows(c, s, id, d) && other in s.docs
    requires index < |s.docs[other].leases| && IsOpen(s.docs[other].leases[index])
    ensures LeadsTo(c, s, id, d, t) && LeadsTo(c, t, id, d, u) && Follows(c, u, id, d)
    ensures u.docs == s.docs && (other, index) in u.scanned
  {
    var lease := s.docs[other].leases[index];
    var wait: nat := if lease.expires >= s.now then lease.expires - s.now + 1 else 0;
    t, u := ScanTaken(c, s, id, d, wait);
    ScanLists(c, s, wait, other, index);
  }

  lemma TakenElsewhere(c: Config, u: System, id: nat, d: Document, other: nat, index: nat) returns (v: System)
    requires Follows(c, u, id, d) && other in u.docs && other != id
    requires index < |u.docs[other].leases| && (other, index) in u.scanned
    ensures LeadsTo(c, u, id, d, v) && Follows(c, v, id, d)
    ensures v.docs == u.docs[other := RecoverExpiredLease(u.docs[other], index)]
  {
    LeaseTaken(c, u, other, index);
    v := Carried(c, u, id, d, On(other, TakeOverLease(index)));
  }

  lemma LeaseTaken(c: Config, u: System, other: nat, index: nat)
    requires other in u.docs && index < |u.docs[other].leases| && (other, index) in u.scanned
    ensures Next(c, u, On(other, TakeOverLease(index)))
            == u.(docs := u.docs[other := RecoverExpiredLease(u.docs[other], index)])
  {
    TakeOverIs(u.docs[other], index, u.now, c.leaseSeconds, SlotFree(c, u, other));
  }

  lemma SomeLease(docs: map<nat, Document>, user: nat) returns (other: nat, index: nat)
    requires |OpenLeases(docs, user)| > 0
    ensures other in docs && docs[other].user == user
    ensures index < |docs[other].leases| && IsOpen(docs[other].leases[index])
  {
    var pair :| pair in OpenLeases(docs, user);
    other, index := pair.0, pair.1;
  }

  // ---------------------------------------------------------------------------------------------
  // Take-overs of the document itself
  // ---------------------------------------------------------------------------------------------

  /** The stage has its input and no later stage exists. */
  ghost predicate Fed(e: Document, kind: TaskType, pieces: seq<string>) {
    && HasInput(e, kind, pieces)
    && (kind.Parse? ==> StageKey(Chunk) !in e.tasks)
    && (kind.Parse? || kind.Chunk? ==> StageKey(Embed) !in e.tasks)
    && (!kind.Finalize? ==> StageKey(Finalize) !in e.tasks)
  }

  predicate SameInput(e: Document, f: Document) {
    f.tasks.Keys == e.tasks.Keys && SameData(e, f) && EmbedCheckpoint(f) == EmbedCheckpoint(e)
  }

  lemma StaysFed(e: Document, f: Document, kind: TaskType, pieces: seq<string>)
    requires Fed(e, kind, pieces) && SameInput(e, f)
    ensures Fed(f, kind, pieces)
  {
    assert forall key :: key in f.tasks <==> key in e.tasks;
  }

  lemma FedIsReady(e: Document, kind: TaskType, pieces: seq<string>)
    requires Fed(e, kind, pieces) && StageQueued(e, kind) && (kind.Parse? ==> Runnable(e))
    ensures Ready(e, kind, pieces)
  {
  }

  function TaskIn(e: Document, kind: TaskType): Task
    requires StageKey(kind) in e.tasks
  {
    e.tasks[StageKey(kind)]
  }

  /** What the take-over of the open lease does: the task it names is requeued within its retries, any other
      stays. */
  lemma LeaseTakenStep(e: Document, index: nat)
    requires DocInv(e) && !e.status.Deleting? && index < |e.leases| && IsOpen(e.leases[index])
    ensures var f := RecoverExpiredLease(e, index);
            && SameInput(e, f) && !HasOpenLease(f) && !BeingDeleted(f)
            && e.leases[index].task in e.tasks
            && (e.tasks[e.leases[index].task].retry < MAX_RETRIES ==>
                  f.status.Queued? && f.tasks[e.leases[index].task].status.TaskQueued?)
            && forall key :: key in e.tasks && key != e.leases[index].task ==> key in f.tasks && f.tasks[key] == e.tasks[key]
  {
    OnlyOpenLease(e, index);
    assert TaskInv(e.leases[index].task, e.tasks[e.leases[index].task]);
  }

  lemma OwnLeaseTaken(c: Config, s: System, id: nat, d: Document, index: nat) returns (t: System, u: System, v: System)
    requires Follows(c, s, id, d) && index < |s.docs[id].leases| && IsOpen(s.docs[id].leases[index])
    ensures LeadsTo(c, s, id, d, t) && LeadsTo(c, t, id, d, u) && LeadsTo(c, u, id, d, v) && Follows(c, v, id, d)
    ensures v.docs[id] == RecoverExpiredLease(s.docs[id], index)
  {
    t, u := ExpiryListed(c, s, id, d, id, index);
    v := TakenHere(c, u, id, d, index);
  }

  lemma TakenHere(c: Config, u: System, id: nat, d: Document, index: nat) returns (v: System)
    requires Follows(c, u, id, d) && index < |u.docs[id].leases| && (id, index) in u.scanned
    ensures LeadsTo(c, u, id, d, v) && Follows(c, v, id, d)
    ensures v.docs[id] == RecoverExpiredLease(u.docs[id], index)
  {
    LeaseTaken(c, u, id, index);
    v := Carried(c, u, id, d, On(id, TakeOverLease(index)));
  }

  lemma PublishesAfterThree(c: Config, s: System, id: nat, d: Document, pieces: seq<string>, t: System, u: System,
                            v: System)
    requires LeadsTo(c, s, id, d, t) && LeadsTo(c, t, id, d, u) && LeadsTo(c, u, id, d, v)
    requires CanPublish(c, v, id, d, pieces)
    ensures CanPublish(c, s, id, d, pieces)
  {
    PublishesAfter(c, u, id, d, pieces, v);
    PublishesAfter(c, t, id, d, pieces, u);
    PublishesAfter(c, s, id, d, pieces, t);
  }

  /** Slots are given back until there is one, and the document is admitted.  A parse task that is not QUEUED
      is then requeued when the new lease, which names it, expires. */
  lemma {:induction false} WaitingPublishes(c: Config, s: System, id: nat, d: Document, kind: TaskType,
                                            pieces: seq<string>)
    requires Follows(c, s, id, d) && Waiting(c, s.docs[id]) && Fed(s.docs[id], kind, pieces)
    requires StageQueued(s.docs[id], kind)
             || (kind.Parse? && StageKey(Parse) in s.docs[id].tasks && TaskIn(s.docs[id], Parse).retry < MAX_RETRIES)
    ensures CanPublish(c, s, id, d, pieces)
    decreases if StageQueued(s.docs[id], kind) then 0 else 1, 2, |OpenLeases(s.docs, s.docs[id].user)|
  {
    if !SlotFree(c, s, id) {
      var other, index := SomeLease(s.docs, s.docs[id].user);
      var t, u, v := SlotFreed(c, s, id, d, other, index);
      WaitingPublishes(c, v, id, d, kind, pieces);
      PublishesAfterThree(c, s, id, d, pieces, t, u, v);
    } else {
      AdmittedPublishes(c, s, id, d, kind, pieces);
    }
  }

  lemma {:induction false} AdmittedPublishes(c: Config, s: System, id: nat, d: Document, kind: TaskType,
                                             pieces: seq<string>)
    requires Follows(c, s, id, d) && Waiting(c, s.docs[id]) && Fed(s.docs[id], kind, pieces) && SlotFree(c, s, id)
    requires StageQueued(s.docs[id], kind)
             || (kind.Parse? && StageKey(Parse) in s.docs[id].tasks && TaskIn(s.docs[id], Parse).retry < MAX_RETRIES)
    ensures CanPublish(c, s, id, d, pieces)
    decreases if StageQueued(s.docs[id], kind) then 0 else 1, 1, 0
  {
    var t := AdmitTaken(c, s, id, d);
    StaysFed(s.docs[id], t.docs[id], kind, pieces);
    if StageQueued(s.docs[id], kind) {
      FedIsReady(t.docs[id], kind, pieces);
      ReadyPublishes(c, t, id, d, kind, pieces);
    } else {
      NamedPublishes(c, t, id, d, kind, pieces, |t.docs[id].leases| - 1);
    }
    PublishesAfter(c, s, id, d, pieces, t);
  }

  /** The open lease names the stage: when it expires the task is requeued. */
  lemma {:induction false} NamedPublishes(c: Config, s: System, id: nat, d: Document, kind: TaskType, pieces: seq<string>,
                                          index: nat)
    requires Follows(c, s, id, d) && !BeingDeleted(s.docs[id]) && Fed(s.docs[id], kind, pieces) && c.maxPerUser > 0
    requires StageKey(kind) in s.docs[id].tasks && TaskIn(s.docs[id], kind).retry < MAX_RETRIES
    requires index < |s.docs[id].leases| && IsOpen(s.docs[id].leases[index])
             && s.docs[id].leases[index].task == StageKey(kind)
    ensures CanPublish(c, s, id, d, pieces)
    decreases 1, 0, 0
  {
    var t, u, v := OwnLeaseTaken(c, s, id, d, index);
    LeaseTakenStep(s.docs[id], index);
    StaysFed(s.docs[id], v.docs[id], kind, pieces);
    WaitingPublishes(c, v, id, d, kind, pieces);
    PublishesAfterThree(c, s, id, d, pieces, t, u, v);
  }

  /** A lost stage is QUEUED again, and the document with it. */
  predicate Revived(e: Document, f: Document, kind: TaskType, other: TaskType) {
    && SameInput(e, f) && f.leases == e.leases && f.status.Queued?
    && StageQueued(f, kind) && (StageQueued(e, other) ==> StageQueued(f, other))
  }

  /** Without a lease a running attempt is taken over. */
  lemma LossStep(e: Document, kind: TaskType, a: AttemptId, other: TaskType)
    requires DocInv(e) && !BeingDeleted(e) && !HasOpenLease(e) && HasAttempt(e, a) && !kind.DeleteCleanup?
    requires a.key == StageKey(kind) && e.tasks[a.key].status.TaskRunning? && AttemptOf(e, a).status.Running?
    requires e.tasks[a.key].retry < MAX_RETRIES
    ensures Revived(e, RecoverRunningWithoutLease(e, a), kind, other)
  {
    assert TaskInv(a.key, e.tasks[a.key]);
  }

  lemma RunTaken(c: Config, s: System, id: nat, d: Document, a: AttemptId) returns (t: System)
    requires Follows(c, s, id, d) && HasAttempt(s.docs[id], a)
    ensures LeadsTo(c, s, id, d, t) && Follows(c, t, id, d) && t.docs[id] == RecoverRunningWithoutLease(s.docs[id], a)
  {
    t := Carried(c, s, id, d, On(id, TakeOverAttempt(a)));
    RunTakenOver(c, s, id, a);
  }

  lemma RunTakenOver(c: Config, s: System, id: nat, a: AttemptId)
    requires id in s.docs && HasAttempt(s.docs[id], a)
    ensures var t := Next(c, s, On(id, TakeOverAttempt(a)));
            id in t.docs && t.docs[id] == RecoverRunningWithoutLease(s.docs[id], a)
  {
  }

  lemma AttemptTaken(c: Config, s: System, id: nat, d: Document, kind: TaskType, a: AttemptId, other: TaskType)
                    returns (t: System)
    requires Follows(c, s, id, d) && !BeingDeleted(s.docs[id]) && !HasOpenLease(s.docs[id])
    requires HasAttempt(s.docs[id], a) && !kind.DeleteCleanup?
    requires a.key == StageKey(kind) && s.docs[id].tasks[a.key].status.TaskRunning?
             && AttemptOf(s.docs[id], a).status.Running?
    requires s.docs[id].tasks[a.key].retry < MAX_RETRIES
    ensures LeadsTo(c, s, id, d, t) && Follows(c, t, id, d) && Revived(s.docs[id], t.docs[id], kind, other)
  {
    t := RunTaken(c, s, id, d, a);
    LossStep(s.docs[id], kind, a, other);
  }

  lemma LossTaken(c: Config, s: System, id: nat, d: Document, kind: TaskType, other: TaskType) returns (t: System)
    requires Follows(c, s, id, d) && !BeingDeleted(s.docs[id]) && !HasOpenLease(s.docs[id]) && !kind.DeleteCleanup?
    requires StageKey(kind) in s.docs[id].tasks
    requires TaskIn(s.docs[id], kind).status.TaskRunning? && TaskIn(s.docs[id], kind).retry < MAX_RETRIES
    ensures LeadsTo(c, s, id, d, t) && Follows(c, t, id, d) && Revived(s.docs[id], t.docs[id], kind, other)
  {
    var a := LastAttempt(s.docs[id], StageKey(kind));
    t := AttemptTaken(c, s, id, d, kind, a, other);
  }

  lemma LastAttempt(e: Document, key: TaskKey) returns (a: AttemptId)
    requires TasksInv(e) && key in e.tasks && e.tasks[key].status.TaskRunning?
    ensures a == AttemptId(key, |e.tasks[key].attempts| - 1) && HasAttempt(e, a) && AttemptOf(e, a).status.Running?
  {
    assert TaskInv(key, e.tasks[key]);
    a := AttemptId(key, |e.tasks[key].attempts| - 1);
  }

  /** QUEUED, with or without a lease. */
  lemma QueuedPublishes(c: Config, s: System, id: nat, d: Document, kind: TaskType, pieces: seq<string>)
    requires Follows(c, s, id, d) && Fed(s.docs[id], kind, pieces) && StageQueued(s.docs[id], kind)
    requires kind.Finalize? || HasOpenLease(s.docs[id]) || Waiting(c, s.docs[id])
    requires kind.Parse? ==> Runnable(s.docs[id])
    ensures CanPublish(c, s, id, d, pieces)
  {
    if kind.Finalize? || HasOpenLease(s.docs[id]) {
      FedIsReady(s.docs[id], kind, pieces);
      ReadyPublishes(c, s, id, d, kind, pieces);
    } else {
      WaitingPublishes(c, s, id, d, kind, pieces);
    }
  }

  /** The stage waits or is lost; a lost stage, this one or another, brings the document back to QUEUED. */
  lemma LostPublishes(c: Config, s: System, id: nat, d: Document, kind: TaskType, pieces: seq<string>, lost: TaskType)
    requires Follows(c, s, id, d) && Fed(s.docs[id], kind, pieces) && (kind.Finalize? || c.maxPerUser > 0)
    requires !BeingDeleted(s.docs[id]) && !HasOpenLease(s.docs[id]) && !lost.DeleteCleanup?
    requires StageKey(lost) in s.docs[id].tasks
    requires TaskIn(s.docs[id], lost).status.TaskRunning? && TaskIn(s.docs[id], lost).retry < MAX_RETRIES
    requires lost == kind || StageQueued(s.docs[id], kind)
    ensures CanPublish(c, s, id, d, pieces)
  {
    var t := LossTaken(c, s, id, d, lost, kind);
    StaysFed(s.docs[id], t.docs[id], kind, pieces);
    QueuedPublishes(c, t, id, d, kind, pieces);
    PublishesAfter(c, s, id, d, pieces, t);
  }
}
