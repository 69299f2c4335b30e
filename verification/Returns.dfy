/** A run in which a DELETED document is found by a search again: a chunk worker outlived the deletion. */
module Returns {
  import opened Rows
  import opened Transactions
  import opened Protocol
  import opened ChunkWindows
  import opened Invariant
  import opened Runs
  import opened Checkpoint
  import opened Publication
  import opened Completion
  import opened Completable
  import opened Histories
  import opened Pipeline
  import opened Counterexamples
  import opened Reappearance

  /** DELETED after `run`, with nothing left behind, and found with these pieces after `more`. */
  ghost predicate FoundAgain(run: seq<Event>, more: seq<Event>, pieces: seq<string>) {
    && Reached(SMALL, run).docs.Keys == {0} && 0 in Reached(SMALL, run + more).docs
    && var d, e := Reached(SMALL, run).docs[0], Reached(SMALL, run + more).docs[0];
    && d.status.Deleted? && d.cycle == 1 && !LeftBehind(d)
    && e.status.Completed? && e.cycle == 1 && Searchable(e) == pieces
  }

  lemma BackFrom(run: seq<Event>, d: Document) returns (back: seq<Event>)
    requires Leads(START, run, With(d, 1, HALF_DONE)) && d.status.Deleted? && !HasOpenLease(d)
    ensures Reached(SMALL, run + back).docs == map[0 := Back(d)] && SystemInv(SMALL, Reached(SMALL, run + back))
  {
    var s := Reached(SMALL, run);
    var o := Origin(SMALL, s, 0);
    OriginArises(o);
    ThirdArises(o, d);
    BackArises(o, d);
    back :| Leads(o, back, Back(d));
    RunConcat(SMALL, EmptySystem, run, back);
    Reachable(SMALL, run + back);
  }

  /** The document can be published from `Back(d)`. */
  ghost predicate PublishesFrom(d: Document, pieces: seq<string>) {
    forall s: System {:trigger CanPublish(SMALL, s, 0, NOBODY, pieces)} ::
      SystemInv(SMALL, s) && s.docs == map[0 := d] ==> CanPublish(SMALL, s, 0, NOBODY, pieces)
  }

  /** From DELETED the history goes on to `Back(d)`, and from there to the publication. */
  lemma FoundFrom(d: Document, pieces: seq<string>)
    requires Arises(With(d, 1, HALF_DONE)) && d.status.Deleted? && !HasOpenLease(d) && d.cycle == 1
    requires !LeftBehind(With(d, 1, HALF_DONE)) && PublishesFrom(Back(d), pieces)
    ensures exists run, more :: FoundAgain(run, more, pieces) && Reached(SMALL, run).docs[0] == With(d, 1, HALF_DONE)
  {
    var run :| Leads(START, run, With(d, 1, HALF_DONE));
    var back := BackFrom(run, d);
    var t := Reached(SMALL, run + back);
    assert CanPublish(SMALL, t, 0, NOBODY, pieces);
    var rest :| AllByItself(SMALL, t, 0, NOBODY, rest) && PublishesBy(SMALL, t, 0, pieces, rest);
    Concluded(run, back, rest, d, pieces);
    assert Reached(SMALL, run).docs[0] == With(d, 1, HALF_DONE);
  }

  lemma Concluded(run: seq<Event>, back: seq<Event>, rest: seq<Event>, d: Document, pieces: seq<string>)
    requires Leads(START, run, With(d, 1, HALF_DONE)) && d.status.Deleted? && d.cycle == 1
    requires !LeftBehind(With(d, 1, HALF_DONE))
    requires Reached(SMALL, run + back).docs == map[0 := Back(d)]
    requires AllByItself(SMALL, Reached(SMALL, run + back), 0, NOBODY, rest)
             && PublishesBy(SMALL, Reached(SMALL, run + back), 0, pieces, rest)
    ensures FoundAgain(run, back + rest, pieces)
  {
    RunConcat(SMALL, EmptySystem, run + back, rest);
    CycleStays(SMALL, Reached(SMALL, run + back), 0, NOBODY, rest);
    assert run + back + rest == run + (back + rest);
    assert Reached(SMALL, run).docs == map[0 := With(d, 1, HALF_DONE)];
  }

  lemma FollowsNobody(c: Config, s: System)
    requires SystemInv(c, s) && 0 in s.docs
    ensures Follows(c, s, 0, NOBODY)
  {
    assert DocInv(s.docs[0]);
  }

  // ---------------------------------------------------------------------------------------------
  // A chunk worker outlives the deletion
  // ---------------------------------------------------------------------------------------------

  /** The chunk task: its first attempt was lost, the second has read the text. */
  const CHUNK_READ := Task(TaskRunning, 1, MAX_RETRIES, None, 0, None,
                           [Attempt(1, Cancelled, Working), Attempt(2, Running, Read(TEXT))])

  /** The document after the DELETE, when the lease that named the parse task has been taken over. */
  function Outlived(leases: seq<Lease>): Document {
    Document(0, Deleting, Some(DeleteCleanup), 0, 1, None, 0,
             map[StageKey(Parse) := PARSED, StageKey(Chunk) := CHUNK_READ, CleanupKey(1) := NewTask(TaskQueued)],
             leases, [TEXT], [], [], true)
  }

  lemma ReadsArises(leases: seq<Lease>)
    requires Arises(InChunk(Processing, 1, PARSED, Begun(CHUNK_LOST), leases)) && |leases| == 2 && IsOpen(leases[1])
    ensures Arises(InChunk(Processing, 1, PARSED, CHUNK_READ, leases))
  {
    var begun := Begun(CHUNK_LOST);
    var leased := CHUNK_READ.(attempts := [Attempt(1, Cancelled, Working), Attempt(2, Running, Leased)]);
    var d := InChunk(Processing, 1, PARSED, begun, leases);
    var e := InChunk(Processing, 1, PARSED, leased, leases);
    var f := InChunk(Processing, 1, PARSED, CHUNK_READ, leases);
    assert begun.attempts[1 := Attempt(2, Running, Leased)] == leased.attempts;
    assert SetWorker(d, CHUNK_SECOND, Leased) == e;
    StepArises(START, d, CheckLease(CHUNK_SECOND), e);
    assert leased.attempts[1 := Attempt(2, Running, Read(TEXT))] == CHUNK_READ.attempts;
    assert SetWorker(e, CHUNK_SECOND, Read(TEXT)) == f && LastText(e) == TEXT;
    StepArises(START, e, ReadText(CHUNK_SECOND), f);
  }

  function BeingDeletedWith(leases: seq<Lease>): Document {
    PutTask(Outlived(leases), CleanupKey(1), NewTask(TaskPending))
  }

  lemma DeletedChunkingArises(leases: seq<Lease>)
    requires Arises(InChunk(Processing, 1, PARSED, CHUNK_READ, leases)) && |leases| == 2 && IsOpen(leases[1])
    ensures Arises(BeingDeletedWith(leases))
  {
    var d := InChunk(Processing, 1, PARSED, CHUNK_READ, leases);
    var d1 := d.(status := Deleting, cycle := 1, current := Some(DeleteCleanup), retry := 0);
    assert CancelUnstarted(d.tasks) == d.tasks;
    assert BeforeCleanup(d, Some(CHUNK_SECOND)) == d1;
    assert PutTask(d1, CleanupKey(1), NewTask(TaskPending)) == BeingDeletedWith(leases);
    assert StageDelete(d, Some(CHUNK_SECOND)) == BeingDeletedWith(leases);
    StepArises(START, d, Delete(Some(CHUNK_SECOND)), BeingDeletedWith(leases));
  }

  /** The lease names the parse task, so the chunk attempt is left running. */
  lemma OutlivedArises(leases: seq<Lease>)
    requires Arises(BeingDeletedWith(leases)) && |leases| == 2 && IsOpen(leases[1]) && leases[1].task == StageKey(Parse)
    ensures Arises(Outlived(leases[1 := leases[1].(released := Some(ByDeletion))]))
  {
    ExpiryArises(START, BeingDeletedWith(leases), 1);
    ParseTakenOver(leases);
  }

  lemma ParseTakenOver(leases: seq<Lease>)
    requires |leases| == 2 && IsOpen(leases[1]) && leases[1].task == StageKey(Parse)
    ensures RecoverExpiredLease(BeingDeletedWith(leases), 1)
            == Outlived(leases[1 := leases[1].(released := Some(ByDeletion))])
  {
    var d := BeingDeletedWith(leases);
    var d2 := d.(leases := leases[1 := leases[1].(released := Some(ByDeletion))]);
    assert CancelRunningAttempt(PARSED) == PARSED;
    assert d.tasks[StageKey(Parse) := PARSED] == d.tasks;
    assert d2.tasks[CleanupKey(1) := NewTask(TaskQueued)] == Outlived(d2.leases).tasks;
    assert QueueCleanup(d2) == Committed(Outlived(d2.leases));
  }

  lemma OnceOutlived(leases: seq<Lease>)
    requires |leases| == 2 && !IsOpen(leases[0]) && !IsOpen(leases[1])
    ensures var d := Gone(Outlived(leases));
            && IsRunning(With(d, 1, HALF_DONE), Chunk) && !LeftBehind(With(d, 1, HALF_DONE)) && !HasOpenLease(d)
            && Back(d).status.Queued? && !HasOpenLease(Back(d))
            && StageKey(Embed) !in Back(d).tasks && StageKey(Finalize) !in Back(d).tasks
            && StageKey(Chunk) in Back(d).tasks && Back(d).tasks[StageKey(Chunk)] == CHUNK_READ
  {
  }

  lemma AdmittedAlone(s: System, d: Document) returns (t: System)
    requires SystemInv(SMALL, s) && s.docs == map[0 := d] && d.status.Queued? && !HasOpenLease(d)
    ensures LeadsTo(SMALL, s, 0, NOBODY, t) && Follows(SMALL, t, 0, NOBODY)
    ensures HasOpenLease(t.docs[0]) && t.docs[0].tasks == d.tasks && t.docs[0].status.Processing?
  {
    FollowsNobody(SMALL, s);
    assert OpenLeases(s.docs, d.user) == {};
    t := AdmitTaken(SMALL, s, 0, NOBODY);
  }

  lemma OutlivedPublishes(leases: seq<Lease>)
    requires |leases| == 2 && !IsOpen(leases[0]) && !IsOpen(leases[1])
    ensures PublishesFrom(Back(Gone(Outlived(leases))), PIECES)
  {
    forall s: System | SystemInv(SMALL, s) && s.docs == map[0 := Back(Gone(Outlived(leases)))]
      ensures CanPublish(SMALL, s, 0, NOBODY, PIECES)
    {
      OnceOutlived(leases);
      TextHasPieces();
      var t := AdmittedAlone(s, Back(Gone(Outlived(leases))));
      ReadPublishes(SMALL, t, 0, NOBODY, CHUNK_SECOND);
      PublishesAfter(SMALL, s, 0, NOBODY, PIECES, t);
    }
  }

  /** The lost chunk task is requeued, a late admission gives a lease that names the parse task, the chunk worker begins and
      reads its text; the DELETE waits for that lease, whose take-over leaves the chunk attempt alone.  When the document
      has been DELETED, is back and admitted again, that worker goes on, and its pieces are published. */
  lemma OutlivedIsFoundAgain()
    ensures PIECES != []
    ensures exists run, more :: FoundAgain(run, more, PIECES) && IsRunning(Reached(SMALL, run).docs[0], Chunk)
  {
    TextHasPieces();
    ChunkingArises();
    var now :| Arises(InChunk(Processing, 0, PARSED, Begun(NewTask(TaskQueued)), Held(Chunk, now)));
    LostChunkArises(now);
    var released := [Lease(StageKey(Chunk), now, now, Some(ByRecovery))];
    var leases := LateLease(released);
    ReadsArises(leases);
    DeletedChunkingArises(leases);
    OutlivedArises(leases);
    OutlivedFound(leases[1 := leases[1].(released := Some(ByDeletion))]);
  }

  lemma LateLease(released: seq<Lease>) returns (leases: seq<Lease>)
    requires |released| == 1 && !IsOpen(released[0]) && Arises(InChunk(Queued, 1, PARSED, CHUNK_LOST, released))
    ensures |leases| == 2 && !IsOpen(leases[0]) && IsOpen(leases[1]) && leases[1].task == StageKey(Parse)
    ensures Arises(InChunk(Processing, 1, PARSED, Begun(CHUNK_LOST), leases))
  {
    var d := InChunk(Queued, 1, PARSED, CHUNK_LOST, released);
    AdmitArises(d);
    var later :| Arises(AdmitParse(d, later, 0, true));
    leases := released + [Lease(StageKey(Parse), later, later, None)];
    var e := InChunk(Processing, 1, PARSED, CHUNK_LOST, leases);
    assert AdmitParse(d, later, 0, true) == e;
    var f := InChunk(Processing, 1, PARSED, Begun(CHUNK_LOST), leases);
    assert BeginAttempt(e, StageKey(Chunk)) == f;
    StepArises(START, e, Begin(StageKey(Chunk)), f);
  }

  lemma OutlivedFound(leases: seq<Lease>)
    requires |leases| == 2 && !IsOpen(leases[0]) && !IsOpen(leases[1]) && Arises(Outlived(leases))
    ensures exists run, more :: FoundAgain(run, more, PIECES) && IsRunning(Reached(SMALL, run).docs[0], Chunk)
  {
    var d := Outlived(leases);
    assert d.tasks[CleanupKey(1) := NewTask(TaskQueued)] == d.tasks;
    assert With(d, d.retry, NewTask(TaskQueued)) == d;
    OnceOutlived(leases);
    HalfDoneArises(START, d);
    OutlivedPublishes(leases);
    FoundFrom(Gone(d), PIECES);
  }
}
