/** The undisturbed history of a document, from the upload to the publication. */
module Pipeline {
  import opened Rows
  import opened Transactions
  import opened Protocol
  import opened ChunkWindows
  import opened Invariant
  import opened Runs
  import opened Publication
  import opened Completion
  import opened Completable
  import opened Histories

  // ---------------------------------------------------------------------------------------------
  // Every upload can be published
  // ---------------------------------------------------------------------------------------------

  /** The continuation publishes exactly these chunk rows and leaves exactly the four stage tasks. */
  ghost predicate Publishes(c: Config, run: seq<Event>, more: seq<Event>, id: nat, pieces: seq<string>) {
    && id in Reached(c, run + more).docs
    && var d := Reached(c, run + more).docs[id];
    && d.status.Completed? && d.chunks == pieces && d.chunkCount == |pieces| && d.cycle == 0
    && d.tasks.Keys == {StageKey(Parse), StageKey(Chunk), StageKey(Embed), StageKey(Finalize)}
  }

  /** In every reachable state, whatever else is in the system: a document just uploaded can, if its user may hold a
      lease at all, be published with exactly the windows of any text that parsing may give. */
  lemma PipelineCompletes(c: Config, run: seq<Event>, id: nat, text: string)
    requires id in Reached(c, run).docs && Reached(c, run).docs[id].status.Pending?
    requires c.maxPerUser > 0 && !AllBlank(text)
    ensures exists more ::
              AllByItself(c, Reached(c, run), id, Reached(c, run).docs[id], more) && Publishes(c, run, more, id, Pieces(text))
  {
    Reachable(c, run);
    var s := Reached(c, run);
    var d := s.docs[id];
    assert d == NewDocument(d.user) && d.cycle == 0;
    SoundReachable(c, run, id);
    assert Fed(d, Parse, Pieces(text));
    UnstartedCompletes(c, s, id, d, Pieces(text));
    var more :| AllByItself(c, s, id, d, more) && PublishesBy(c, s, id, Pieces(text), more);
    RunConcat(c, EmptySystem, run, more);
    CycleStays(c, s, id, d, more);
    PublishedExactly(c, run + more, id);
    FourTasks(c, run + more, id);
    assert Publishes(c, run, more, id, Pieces(text));
  }

  lemma {:induction false} CycleStays(c: Config, s: System, id: nat, d: Document, run: seq<Event>)
    requires id in s.docs && AllByItself(c, s, id, d, run)
    ensures id in Run(c, s, run).docs && Run(c, s, run).docs[id].cycle == s.docs[id].cycle
  {
    if run != [] {
      var front := run[..|run| - 1];
      forall k | 0 <= k < |front|
        ensures ByItself(d, id, Run(c, s, front[..k]), front[k])
      {
        assert front[..k] == run[..k];
      }
      CycleStays(c, s, id, d, front);
      CycleNext(c, Run(c, s, run[..|run| - 1]), id, d, run[|run| - 1]);
    }
  }

  lemma CycleNext(c: Config, s: System, id: nat, d: Document, event: Event)
    requires id in s.docs && ByItself(d, id, s, event)
    ensures id in Next(c, s, event).docs && Next(c, s, event).docs[id].cycle == s.docs[id].cycle
  {
    if event.On? && event.id == id {
      SameCycle(s.docs[id], event.step, s.now, c.leaseSeconds, SlotFree(c, s, id));
    }
  }

  lemma FourTasks(c: Config, run: seq<Event>, id: nat)
    requires id in Reached(c, run).docs && Reached(c, run).docs[id].cycle == 0
             && Reached(c, run).docs[id].status.Completed?
    ensures Reached(c, run).docs[id].tasks.Keys == {StageKey(Parse), StageKey(Chunk), StageKey(Embed), StageKey(Finalize)}
  {
    Reachable(c, run);
    FourKeys(Reached(c, run).docs[id]);
  }

  lemma FourKeys(d: Document)
    requires DocInv(d) && d.cycle == 0 && d.status.Completed?
    ensures d.tasks.Keys == {StageKey(Parse), StageKey(Chunk), StageKey(Embed), StageKey(Finalize)}
  {
    NeverDeleted(d);
    forall key | key in d.tasks
      ensures key in {StageKey(Parse), StageKey(Chunk), StageKey(Embed), StageKey(Finalize)}
    {
      assert TaskInv(key, d.tasks[key]) && key == StageKey(key.kind);
    }
  }

  // ---------------------------------------------------------------------------------------------
  // One history, stage by stage
  // ---------------------------------------------------------------------------------------------

  const TEXT := "x"
  const PIECES := Pieces(TEXT)

  lemma TextHasPieces()
    ensures !AllBlank(TEXT) && PIECES != []
  {
    assert !IsBlank(TEXT[0]);
    SomePieces(TEXT);
  }

  /** A document in its parse stage. */
  function InParse(status: DocumentStatus, parse: Task, leases: seq<Lease>): Document {
    Document(0, status, Some(Parse), 0, 0, None, 0, map[StageKey(Parse) := parse], leases, [], [], [], true)
  }

  /** A document in its chunk stage. */
  function InChunk(status: DocumentStatus, retry: nat, parse: Task, chunk: Task, leases: seq<Lease>): Document {
    Document(0, status, Some(Chunk), retry, 0, None, 0,
             map[StageKey(Parse) := parse, StageKey(Chunk) := chunk], leases, [TEXT], [], [], true)
  }

  /** A document in its embed stage. */
  function InEmbed(now: int, chunked: Task, embed: Task): Document {
    Document(0, Processing, Some(Embed), 0, 0, None, 0,
             map[StageKey(Parse) := PARSED, StageKey(Chunk) := chunked, StageKey(Embed) := embed],
             Held(Embed, now), [TEXT], PIECES, [], true)
  }

  function Begun(task: Task): Task {
    task.(status := TaskRunning, attempts := task.attempts + [Attempt(|task.attempts| + 1, Running, Working)])
  }

  function Held(kind: TaskType, now: int): seq<Lease> {
    [Lease(StageKey(kind), now, now, None)]
  }

  function Ended(count: nat, worker: Worker): Task {
    Task(TaskSucceeded, 0, MAX_RETRIES, Some(count), count, None, [Attempt(1, Succeeded, worker)])
  }

  function Busy(worker: Worker): Task {
    Task(TaskRunning, 0, MAX_RETRIES, None, 0, None, [Attempt(1, Running, worker)])
  }

  const PARSE_RUN := AttemptId(StageKey(Parse), 0)
  const CHUNK_RUN := AttemptId(StageKey(Chunk), 0)
  const EMBED_RUN := AttemptId(StageKey(Embed), 0)

  /** The parse task after its one attempt has succeeded. */
  const PARSED := Ended(1, Done)

  lemma BegunFresh()
    ensures Begun(NewTask(TaskQueued)) == Busy(Working)
  {
  }

  lemma SetWorkerIs(d: Document, a: AttemptId, to: Worker, task: Task, e: Document)
    requires a.index == 0 && a.key in d.tasks && d.tasks[a.key] == task && |task.attempts| == 1
    requires e == d.(tasks := d.tasks[a.key := task.(attempts := [task.attempts[0].(worker := to)])])
    ensures SetWorker(d, a, to) == e
  {
    assert task.attempts[0 := task.attempts[0].(worker := to)] == [task.attempts[0].(worker := to)];
  }

  lemma CoordinatedArises()
    ensures Arises(InParse(Queued, NewTask(TaskQueued), []))
  {
    UploadArises();
    var d := InParse(Queued, NewTask(TaskQueued), []);
    assert MarkQueued(NewDocument(0)) == d;
    StepArises(START, NewDocument(0), Coordinate, d);
  }

  /** Uploaded, admitted, and the parse attempt has begun. */
  lemma ParsingArises()
    ensures exists now :: Arises(InParse(Processing, Begun(NewTask(TaskQueued)), Held(Parse, now)))
  {
    CoordinatedArises();
    var d := InParse(Queued, NewTask(TaskQueued), []);
    AdmitArises(d);
    var now :| Arises(AdmitParse(d, now, 0, true));
    var e := InParse(Processing, NewTask(TaskQueued), Held(Parse, now));
    assert AdmitParse(d, now, 0, true) == e;
    var f := InParse(Processing, Begun(NewTask(TaskQueued)), Held(Parse, now));
    assert BeginAttempt(e, StageKey(Parse)) == f;
    StepArises(START, e, Begin(StageKey(Parse)), f);
  }

  lemma ChunkingArises()
    ensures exists now :: Arises(InChunk(Processing, 0, PARSED, Begun(NewTask(TaskQueued)), Held(Chunk, now)))
  {
    ParsingArises();
    var now :| Arises(InParse(Processing, Begun(NewTask(TaskQueued)), Held(Parse, now)));
    SavedArises(now);
    var e := InChunk(Processing, 0, PARSED, NewTask(TaskQueued), Held(Chunk, now));
    var f := InChunk(Processing, 0, PARSED, Begun(NewTask(TaskQueued)), Held(Chunk, now));
    assert BeginAttempt(e, StageKey(Chunk)) == f;
    StepArises(START, e, Begin(StageKey(Chunk)), f);
  }

  /** The parse result is saved and the parse stage succeeds. */
  lemma ParseCommits(now: int)
    ensures CommitParse(InParse(Processing, Busy(Parsed(TEXT)), Held(Parse, now)), PARSE_RUN, TEXT)
            == Committed(InChunk(Processing, 0, Ended(1, Parsed(TEXT)), NewTask(TaskQueued), Held(Chunk, now)))
  {
    var d := InParse(Processing, Busy(Parsed(TEXT)), Held(Parse, now));
    var m := InChunk(Processing, 0, Ended(1, Parsed(TEXT)), NewTask(TaskQueued), Held(Chunk, now));
    var run := [Attempt(1, Running, Parsed(TEXT))];
    assert run[0 := run[0].(status := Succeeded)] == m.tasks[PARSE_RUN.key].attempts;
    assert d.leases[0 := d.leases[0].(task := StageKey(Chunk))] == m.leases && d.parseResults + [TEXT] == m.parseResults;
  }

  lemma ParsedArises(now: int)
    requires Arises(InParse(Processing, Begun(NewTask(TaskQueued)), Held(Parse, now)))
    ensures Arises(InParse(Processing, Busy(Parsed(TEXT)), Held(Parse, now)))
  {
    var d := InParse(Processing, Busy(Working), Held(Parse, now));
    var e := InParse(Processing, Busy(Parsed(TEXT)), Held(Parse, now));
    BegunFresh();
    SetWorkerIs(d, PARSE_RUN, Parsed(TEXT), Busy(Working), e);
    StepArises(START, d, ReadOriginal(PARSE_RUN, TEXT), e);
  }

  lemma SavedArises(now: int)
    requires Arises(InParse(Processing, Begun(NewTask(TaskQueued)), Held(Parse, now)))
    ensures Arises(InChunk(Processing, 0, PARSED, NewTask(TaskQueued), Held(Chunk, now)))
  {
    var d := InParse(Processing, Busy(Parsed(TEXT)), Held(Parse, now));
    var m := InChunk(Processing, 0, Ended(1, Parsed(TEXT)), NewTask(TaskQueued), Held(Chunk, now));
    var e := InChunk(Processing, 0, PARSED, NewTask(TaskQueued), Held(Chunk, now));
    ParsedArises(now);
    TextHasPieces();
    ParseCommits(now);
    SetWorkerIs(m, PARSE_RUN, Done, Ended(1, Parsed(TEXT)), e);
    StepArises(START, d, SaveParse(PARSE_RUN), e);
  }

  /** The chunk worker finds the lease, reads the text and saves its pieces. */
  lemma ReadArises(now: int)
    requires Arises(InChunk(Processing, 0, PARSED, Busy(Working), Held(Chunk, now)))
    ensures Arises(InChunk(Processing, 0, PARSED, Busy(Read(TEXT)), Held(Chunk, now)))
  {
    var d := InChunk(Processing, 0, PARSED, Busy(Working), Held(Chunk, now));
    var e := InChunk(Processing, 0, PARSED, Busy(Leased), Held(Chunk, now));
    var f := InChunk(Processing, 0, PARSED, Busy(Read(TEXT)), Held(Chunk, now));
    SetWorkerIs(d, CHUNK_RUN, Leased, Busy(Working), e);
    StepArises(START, d, CheckLease(CHUNK_RUN), e);
    SetWorkerIs(e, CHUNK_RUN, Read(TEXT), Busy(Leased), f);
    assert LastText(e) == TEXT;
    StepArises(START, e, ReadText(CHUNK_RUN), f);
  }

  lemma DraftsCommit(now: int)
    ensures CommitChunk(InChunk(Processing, 0, PARSED, Busy(Read(TEXT)), Held(Chunk, now)), CHUNK_RUN, PIECES)
            == Committed(InEmbed(now, Ended(|PIECES|, Read(TEXT)), NewTask(TaskQueued)))
  {
    var d := InChunk(Processing, 0, PARSED, Busy(Read(TEXT)), Held(Chunk, now));
    assert d.leases[0 := d.leases[0].(task := StageKey(Embed))] == Held(Embed, now);
    assert CloseAttempt(Busy(Read(TEXT)), 0, Succeeded).attempts == Ended(|PIECES|, Read(TEXT)).attempts;
  }

  lemma EmbedStarts(now: int)
    requires Arises(InChunk(Processing, 0, PARSED, Busy(Working), Held(Chunk, now)))
    ensures Arises(InEmbed(now, Ended(|PIECES|, Done), Busy(Loaded(PIECES, 0))))
  {
    var d := InChunk(Processing, 0, PARSED, Busy(Read(TEXT)), Held(Chunk, now));
    var m := InEmbed(now, Ended(|PIECES|, Read(TEXT)), NewTask(TaskQueued));
    var e := InEmbed(now, Ended(|PIECES|, Done), NewTask(TaskQueued));
    ReadArises(now);
    DraftsCommit(now);
    SetWorkerIs(m, CHUNK_RUN, Done, Ended(|PIECES|, Read(TEXT)), e);
    StepArises(START, d, SaveDrafts(CHUNK_RUN), e);
    EmbedLoads(now);
  }

  lemma EmbedLoads(now: int)
    requires Arises(InEmbed(now, Ended(|PIECES|, Done), NewTask(TaskQueued)))
    ensures Arises(InEmbed(now, Ended(|PIECES|, Done), Busy(Loaded(PIECES, 0))))
  {
    var e := InEmbed(now, Ended(|PIECES|, Done), NewTask(TaskQueued));
    var f := InEmbed(now, Ended(|PIECES|, Done), Busy(Working));
    var g := InEmbed(now, Ended(|PIECES|, Done), Busy(Loaded(PIECES, 0)));
    BegunFresh();
    assert BeginAttempt(e, StageKey(Embed)) == f;
    StepArises(START, e, Begin(StageKey(Embed)), f);
    TextHasPieces();
    SetWorkerIs(f, EMBED_RUN, Loaded(PIECES, 0), Busy(Working), g);
    StepArises(START, f, LoadDrafts(EMBED_RUN), g);
  }
}
