/** From which states a document that was never deleted can still be COMPLETED.  The workers that have begun may
    all be dead, so the question is whether it can get there without them. */
module Completable {
  import opened Rows
  import opened Transactions
  import opened Protocol
  import opened ChunkWindows
  import opened Invariant
  import opened Runs
  import opened Checkpoint
  import opened Publication
  import opened PublishedText
  import opened AbandonedStages
  import opened Completion

  // ---------------------------------------------------------------------------------------------
  // The condition
  // ---------------------------------------------------------------------------------------------

  /** The last stage that has a task. */
  function Frontier(d: Document): TaskType {
    if StageKey(Finalize) in d.tasks then Finalize
    else if StageKey(Embed) in d.tasks then Embed
    else if StageKey(Chunk) in d.tasks then Chunk
    else Parse
  }

  /** A stage runs, or waits for a worker that does not ask for the status of the document first. */
  predicate MayRevive(key: TaskKey, task: Task) {
    task.status.TaskRunning? || (Unstarted(task) && !key.kind.Parse?)
  }

  /** Such a stage has a retry left. */
  predicate CanRevive(d: Document) {
    exists key :: key in d.tasks && Revivable(key, d.tasks[key])
  }

  predicate Revivable(key: TaskKey, task: Task) {
    IsStage(key) && MayRevive(key, task) && task.retry < MAX_RETRIES
  }

  /** The last stage waits and can have a lease; or it runs and has a retry left; or it has ended, has a retry left
      and a lease names it, or is parse and can get one. */
  predicate CanStillComplete(c: Config, d: Document)
    requires StageKey(Frontier(d)) in d.tasks
  {
    var kind := Frontier(d);
    var task := TaskIn(d, kind);
    || d.status.Completed?
    || (Unstarted(task)
        && (kind.Finalize? || HasOpenLease(d)
            || (c.maxPerUser > 0 && (d.status.Pending? || d.status.Queued? || CanRevive(d)))))
    || (task.status.TaskRunning? && task.retry < MAX_RETRIES && (kind.Finalize? || c.maxPerUser > 0))
    || (Settled(task) && task.retry < MAX_RETRIES && c.maxPerUser > 0
        && (!NotNamed(d, StageKey(kind)) || (kind.Parse? && d.status.Queued?)))
  }

  predicate Settled(task: Task) {
    !Unstarted(task) && !task.status.TaskRunning?
  }

  /** Everything that holds of a reachable document that was never deleted. */
  ghost predicate Sound(d: Document) {
    d.cycle == 0 && DocInv(d) && CheckpointInv(d) && ContentInv(d) && TextInv(d) && GaveBack(d)
  }

  // ---------------------------------------------------------------------------------------------
  // A FAILED document holds no slot
  // ---------------------------------------------------------------------------------------------

  predicate GaveBack(d: Document) {
    d.cycle == 0 && d.status.Failed? ==> !HasOpenLease(d)
  }

  lemma ReleasedOnce(d: Document, reason: ReleaseReason)
    requires LeaseInv(d)
    ensures !HasOpenLease(ReleaseLease(d, reason))
  {
  }

  lemma CompleteGivesBack(d: Document, a: AttemptId, total: Option<nat>, processed: Option<nat>, expected: Option<nat>)
    requires DocInv(d) && GaveBack(d) && HasAttempt(d, a) && IsStage(a.key)
    ensures var o := CompleteStage(d, a, total, processed, expected); o.Committed? ==> GaveBack(o.document)
  {
    if a.key.kind.Finalize? {
      PublicationGivesBack(d, a, expected);
    }
  }

  lemma PublicationGivesBack(d: Document, a: AttemptId, expected: Option<nat>)
    requires LeaseInv(d) && HasAttempt(d, a)
    ensures GaveBack(CompleteFinalize(d, a, expected))
  {
    ReleasedOnce(d, ByFinalizeFailure);
  }

  lemma FailureGivesBack(d: Document, a: AttemptId, code: Option<nat>)
    requires LeaseInv(d) && GaveBack(d) && HasAttempt(d, a)
    ensures GaveBack(FailStage(d, a, code))
  {
    ReleasedOnce(d, ByFailure);
  }

  lemma ParseGivesBack(d: Document, a: AttemptId, text: string)
    requires DocInv(d) && GaveBack(d) && HasAttempt(d, a) && IsStage(a.key)
    ensures GaveBack(Conclude(d, a, CommitParse(d, a, text), Done, Rejected))
  {
    if Fence(d, a) {
      var e := d.(parseResults := d.parseResults + [text]);
      NoTaskKeeps(d, e);
      CompleteGivesBack(e, a, Some(1), Some(1), None);
    }
  }

  lemma DraftsGiveBack(d: Document, a: AttemptId, pieces: seq<string>)
    requires DocInv(d) && GaveBack(d) && HasAttempt(d, a) && IsStage(a.key)
    ensures GaveBack(Conclude(d, a, CommitChunk(d, a, pieces), Done, Rejected))
  {
    if Fence(d, a) {
      var e := d.(drafts := pieces);
      NoTaskKeeps(d, e);
      CompleteGivesBack(e, a, Some(|pieces|), Some(|pieces|), None);
    }
  }

  lemma WorkerGivesBack(d: Document, a: AttemptId, step: DocStep, now: int, seconds: nat)
    requires d.cycle == 0 && DocInv(d) && GaveBack(d) && StepAttempt(step) == Some(a) && Enabled(d, step)
             && IsStage(a.key)
    ensures GaveBack(WorkerStep(d, a, step, now, seconds))
  {
    var worker := AttemptOf(d, a).worker;
    match step {
      case SaveParse(_) => ParseGivesBack(d, a, worker.text);
      case SaveDrafts(_) => DraftsGiveBack(d, a, Pieces(worker.text));
      case FinishEmbed(_) => CompleteGivesBack(d, a, Some(worker.count), Some(worker.count), None);
      case Publish(_) => CompleteGivesBack(d, a, None, None, Some(worker.count));
      case Fail(_, code) => FailureGivesBack(d, a, code);
      case _ =>
    }
  }

  lemma LeaseGivesBack(d: Document, index: nat)
    requires DocInv(d) && GaveBack(d) && !d.status.Deleting? && index < |d.leases|
    ensures GaveBack(RecoverExpiredLease(d, index))
  {
    if IsOpen(d.leases[index]) {
      LeaseTakenStep(d, index);
    }
  }

  lemma StepGivesBack(d: Document, step: DocStep, now: int, seconds: nat, slotFree: bool)
    requires DocInv(d) && GaveBack(d)
    ensures GaveBack(DocNext(d, step, now, seconds, slotFree))
  {
    StepKeeps(d, step, now, seconds, slotFree);
    if d.cycle == 0 && Enabled(d, step) {
      NeverDeleted(d);
      match StepAttempt(step)
      case Some(a) => WorkerGivesBack(d, a, step, now, seconds);
      case None =>
        match step {
          case TakeOverLease(index) => LeaseGivesBack(d, index);
          case TakeOverAttempt(a) => LossGivesBack(d, a);
          case Delete(open) => DeleteGivesBack(d, open);
          case _ =>
        }
    }
  }

  lemma LossGivesBack(d: Document, a: AttemptId)
    requires GaveBack(d) && !d.status.Deleting? && HasAttempt(d, a)
    ensures GaveBack(RecoverRunningWithoutLease(d, a))
  {
  }

  lemma DeleteGivesBack(d: Document, open: Option<AttemptId>)
    requires DocInv(d) && GaveBack(d) && IsOpenAttempt(d, open)
    ensures GaveBack(StageDelete(d, open))
  {
    if !BeingDeleted(d) {
      StageDeleteIs(d, open);
    }
  }

  /** In every run a FAILED document that was never deleted holds no slot. */
  lemma {:induction false} FailedHoldsNoSlot(c: Config, run: seq<Event>, id: nat)
    ensures id in Reached(c, run).docs ==> GaveBack(Reached(c, run).docs[id])
  {
    if run != [] {
      var front, event := run[..|run| - 1], run[|run| - 1];
      var s := Reached(c, front);
      FailedHoldsNoSlot(c, front, id);
      Reachable(c, front);
      if event.On? && event.id == id && id in s.docs {
        StepGivesBack(s.docs[id], event.step, s.now, c.leaseSeconds, SlotFree(c, s, id));
      }
    }
  }

  lemma SoundReachable(c: Config, run: seq<Event>, id: nat)
    requires id in Reached(c, run).docs && Reached(c, run).docs[id].cycle == 0
    ensures SystemInv(c, Reached(c, run)) && Sound(Reached(c, run).docs[id])
  {
    Reachable(c, run);
    ContentReachable(c, run, id);
    TextReachable(c, run, id);
    FailedHoldsNoSlot(c, run, id);
  }

  // ---------------------------------------------------------------------------------------------
  // It can
  // ---------------------------------------------------------------------------------------------

  ghost predicate CompletesBy(c: Config, s: System, id: nat, run: seq<Event>) {
    id in Run(c, s, run).docs && Run(c, s, run).docs[id].status.Completed?
  }

  ghost predicate CanComplete(c: Config, s: System, id: nat, d: Document) {
    exists run :: AllByItself(c, s, id, d, run) && CompletesBy(c, s, id, run)
  }

  lemma FrontierFed(d: Document)
    requires Sound(d)
    ensures StageKey(Frontier(d)) in d.tasks && exists pieces :: Fed(d, Frontier(d), pieces)
  {
    match Frontier(d)
    case Parse =>
      assert !AllBlank("x") by {
        assert !IsBlank("x"[0]);
      }
      assert Fed(d, Parse, Pieces("x"));
    case Chunk => assert Fed(d, Chunk, Pieces(LastText(d)));
    case Embed =>
      SomePieces(LastText(d));
      assert Fed(d, Embed, d.drafts);
    case Finalize => assert Fed(d, Finalize, d.chunks);
  }

  lemma CoordinateStep(e: Document, now: int, seconds: nat, slotFree: bool)
    requires StageKey(Parse) in e.tasks && TaskIn(e, Parse).status.TaskPending?
    ensures var f := DocNext(e, Coordinate, now, seconds, slotFree);
            && SameInput(e, f) && f.leases == e.leases
            && f.status == (if e.status.Pending? then DocumentStatus.Queued else e.status)
            && TaskIn(f, Parse).status.TaskQueued? && TaskIn(f, Parse).retry == TaskIn(e, Parse).retry
  {
  }

  lemma CoordinateTaken(c: Config, s: System, id: nat, d: Document) returns (t: System)
    requires Follows(c, s, id, d) && StageKey(Parse) in s.docs[id].tasks && TaskIn(s.docs[id], Parse).status.TaskPending?
    ensures LeadsTo(c, s, id, d, t) && Follows(c, t, id, d)
    ensures var e, f := s.docs[id], t.docs[id];
            && SameInput(e, f) && f.leases == e.leases
            && f.status == (if e.status.Pending? then DocumentStatus.Queued else e.status)
            && StageKey(Parse) in f.tasks
            && TaskIn(f, Parse).status.TaskQueued? && TaskIn(f, Parse).retry == TaskIn(e, Parse).retry
  {
    CoordinateStep(s.docs[id], s.now, c.leaseSeconds, SlotFree(c, s, id));
    t := Taken(c, s, id, d, Coordinate);
  }

  /** Beginning stage `lost` and losing its worker brings the document back to QUEUED. */
  lemma BegunStep(e: Document, lost: TaskType, kind: TaskType, now: int, seconds: nat, slotFree: bool)
    requires TasksInv(e) && StageQueued(e, lost)
    ensures var f := DocNext(e, Begin(StageKey(lost)), now, seconds, slotFree);
            && SameInput(e, f) && f.leases == e.leases && !BeingDeleted(f)
            && StageKey(lost) in f.tasks && TaskIn(f, lost).status.TaskRunning? && TaskIn(f, lost).retry == TaskIn(e, lost).retry
            && (lost != kind && StageQueued(e, kind) ==> StageQueued(f, kind))
  {
    assert TaskInv(StageKey(lost), e.tasks[StageKey(lost)]);
    assert CanBegin(e, StageKey(lost));
  }

  lemma LostByItself(c: Config, s: System, id: nat, d: Document, lost: TaskType, kind: TaskType) returns (t: System)
    requires Follows(c, s, id, d) && StageQueued(s.docs[id], lost) && !lost.Parse?
    ensures LeadsTo(c, s, id, d, t) && Follows(c, t, id, d)
    ensures var e, f := s.docs[id], t.docs[id];
            && SameInput(e, f) && f.leases == e.leases && !BeingDeleted(f)
            && StageKey(lost) in f.tasks && TaskIn(f, lost).status.TaskRunning? && TaskIn(f, lost).retry == TaskIn(e, lost).retry
            && (lost != kind && StageQueued(e, kind) ==> StageQueued(f, kind))
  {
    BegunStep(s.docs[id], lost, kind, s.now, c.leaseSeconds, SlotFree(c, s, id));
    t := Taken(c, s, id, d, Begin(StageKey(lost)));
  }

  lemma QueuedRevives(c: Config, s: System, id: nat, d: Document, kind: TaskType, pieces: seq<string>, lost: TaskType)
    requires Follows(c, s, id, d) && Fed(s.docs[id], kind, pieces) && c.maxPerUser > 0
    requires StageQueued(s.docs[id], kind) && !HasOpenLease(s.docs[id]) && StageQueued(s.docs[id], lost) && !lost.Parse?
    requires TaskIn(s.docs[id], lost).retry < MAX_RETRIES
    ensures CanPublish(c, s, id, d, pieces)
  {
    var t := LostByItself(c, s, id, d, lost, kind);
    StaysFed(s.docs[id], t.docs[id], kind, pieces);
    LostPublishes(c, t, id, d, kind, pieces, lost);
    PublishesAfter(c, s, id, d, pieces, t);
  }

  /** The last stage is QUEUED. */
  lemma QueuedCompletes(c: Config, s: System, id: nat, d: Document, kind: TaskType, pieces: seq<string>)
    requires Follows(c, s, id, d) && Fed(s.docs[id], kind, pieces) && StageQueued(s.docs[id], kind)
    requires kind.Parse? ==> Runnable(s.docs[id])
    requires StageKey(Chunk) in s.docs[id].tasks ==> !TaskIn(s.docs[id], Parse).status.TaskPending?
    requires kind.Finalize? || HasOpenLease(s.docs[id])
             || (c.maxPerUser > 0 && (s.docs[id].status.Queued? || CanRevive(s.docs[id])))
    ensures CanPublish(c, s, id, d, pieces)
  {
    var e := s.docs[id];
    if kind.Finalize? || HasOpenLease(e) || e.status.Queued? {
      QueuedPublishes(c, s, id, d, kind, pieces);
    } else {
      var key :| key in e.tasks && Revivable(key, e.tasks[key]);
      assert TaskInv(key, e.tasks[key]) && key == StageKey(key.kind);
      if e.tasks[key].status.TaskRunning? {
        LostPublishes(c, s, id, d, kind, pieces, key.kind);
      } else {
        QueuedRevives(c, s, id, d, kind, pieces, key.kind);
      }
    }
  }

  /** While its parse task waits, a document that has a lease or is QUEUED may be parsed, and nothing else revives it. */
  lemma ParseIsRunnable(e: Document)
    requires Sound(e) && !BeingDeleted(e) && !e.status.Completed? && Frontier(e).Parse?
    ensures HasOpenLease(e) ==> Runnable(e)
    ensures Unstarted(TaskIn(e, Parse)) ==> !CanRevive(e)
  {
    OnlyParse(e);
  }

  /** The last stage is still to be started. */
  lemma UnstartedCompletes(c: Config, s: System, id: nat, d: Document, pieces: seq<string>)
    requires Follows(c, s, id, d) && Sound(s.docs[id]) && !BeingDeleted(s.docs[id]) && !s.docs[id].status.Completed?
    requires Fed(s.docs[id], Frontier(s.docs[id]), pieces) && StageKey(Frontier(s.docs[id])) in s.docs[id].tasks
    requires Unstarted(TaskIn(s.docs[id], Frontier(s.docs[id])))
    requires var e := s.docs[id];
             Frontier(e).Finalize? || HasOpenLease(e)
             || (c.maxPerUser > 0 && (e.status.Pending? || e.status.Queued? || CanRevive(e)))
    ensures CanPublish(c, s, id, d, pieces)
  {
    var e := s.docs[id];
    assert TaskInv(StageKey(Frontier(e)), TaskIn(e, Frontier(e)));
    assert TaskInv(StageKey(Parse), TaskIn(e, Parse));
    if Frontier(e).Parse? {
      ParseIsRunnable(e);
      ParseCompletes(c, s, id, d, pieces);
    } else {
      QueuedCompletes(c, s, id, d, Frontier(e), pieces);
    }
  }

  lemma ParseCompletes(c: Config, s: System, id: nat, d: Document, pieces: seq<string>)
    requires Follows(c, s, id, d) && !BeingDeleted(s.docs[id]) && Fed(s.docs[id], Parse, pieces)
    requires StageKey(Parse) in s.docs[id].tasks && Unstarted(TaskIn(s.docs[id], Parse))
    requires var e := s.docs[id]; (HasOpenLease(e) && Runnable(e)) || (c.maxPerUser > 0 && (e.status.Pending? || e.status.Queued?))
    ensures CanPublish(c, s, id, d, pieces)
  {
    var e := s.docs[id];
    if TaskIn(e, Parse).status.TaskPending? {
      var t := CoordinateTaken(c, s, id, d);
      StaysFed(e, t.docs[id], Parse, pieces);
      QueuedPublishes(c, t, id, d, Parse, pieces);
      PublishesAfter(c, s, id, d, pieces, t);
    } else {
      QueuedPublishes(c, s, id, d, Parse, pieces);
    }
  }

  /** Without a chunk task parse is the only task there is. */
  lemma OnlyParse(e: Document)
    requires Sound(e) && StageKey(Chunk) !in e.tasks
    ensures forall key :: key in e.tasks ==> key == StageKey(Parse)
  {
    NeverDeleted(e);
    forall key | key in e.tasks
      ensures key == StageKey(Parse)
    {
      assert TaskInv(key, e.tasks[key]) && key == StageKey(key.kind);
    }
  }

  /** The last stage runs: when its lease has expired it is taken over. */
  lemma RunningCompletes(c: Config, s: System, id: nat, d: Document, kind: TaskType, pieces: seq<string>)
    requires Follows(c, s, id, d) && !BeingDeleted(s.docs[id]) && Fed(s.docs[id], kind, pieces) && !kind.DeleteCleanup?
    requires StageKey(kind) in s.docs[id].tasks && TaskIn(s.docs[id], kind).status.TaskRunning?
    requires TaskIn(s.docs[id], kind).retry < MAX_RETRIES && (kind.Finalize? || c.maxPerUser > 0)
    ensures CanPublish(c, s, id, d, pieces)
  {
    var e := s.docs[id];
    if HasOpenLease(e) {
      var t, u, v := LeaseExpires(c, s, id, d, kind);
      StaysFed(e, v.docs[id], kind, pieces);
      if StageQueued(v.docs[id], kind) {
        QueuedPublishes(c, v, id, d, kind, pieces);
      } else {
        LostPublishes(c, v, id, d, kind, pieces, kind);
      }
      PublishesAfterThree(c, s, id, d, pieces, t, u, v);
    } else {
      LostPublishes(c, s, id, d, kind, pieces, kind);
    }
  }

  /** The open lease runs out: either it names the stage, or that is still running. */
  predicate Expired(e: Document, f: Document, kind: TaskType) {
    && SameInput(e, f) && !HasOpenLease(f) && !BeingDeleted(f) && !kind.DeleteCleanup? && StageKey(kind) in f.tasks
    && ((StageQueued(f, kind) && f.status.Queued?)
        || (TaskIn(f, kind).status.TaskRunning? && TaskIn(f, kind).retry < MAX_RETRIES))
  }

  lemma ExpiredStep(e: Document, kind: TaskType)
    requires DocInv(e) && !BeingDeleted(e) && HasOpenLease(e) && !kind.DeleteCleanup?
    requires StageKey(kind) in e.tasks && TaskIn(e, kind).status.TaskRunning? && TaskIn(e, kind).retry < MAX_RETRIES
    ensures Expired(e, RecoverExpiredLease(e, FindOpen(e.leases).value), kind)
  {
    LeaseTakenStep(e, FindOpen(e.leases).value);
  }

  lemma LeaseExpires(c: Config, s: System, id: nat, d: Document, kind: TaskType) returns (t: System, u: System, v: System)
    requires Follows(c, s, id, d) && !BeingDeleted(s.docs[id]) && HasOpenLease(s.docs[id]) && !kind.DeleteCleanup?
    requires StageKey(kind) in s.docs[id].tasks
    requires TaskIn(s.docs[id], kind).status.TaskRunning? && TaskIn(s.docs[id], kind).retry < MAX_RETRIES
    ensures LeadsTo(c, s, id, d, t) && LeadsTo(c, t, id, d, u) && LeadsTo(c, u, id, d, v) && Follows(c, v, id, d)
    ensures Expired(s.docs[id], v.docs[id], kind)
  {
    ExpiredStep(s.docs[id], kind);
    t, u, v := OwnLeaseTaken(c, s, id, d, FindOpen(s.docs[id].leases).value);
  }

  /** The last stage has ended, but a lease names it or will. */
  lemma SettledCompletes(c: Config, s: System, id: nat, d: Document, kind: TaskType, pieces: seq<string>)
    requires Follows(c, s, id, d) && !BeingDeleted(s.docs[id]) && Fed(s.docs[id], kind, pieces) && !kind.DeleteCleanup?
    requires StageKey(kind) in s.docs[id].tasks && TaskIn(s.docs[id], kind).retry < MAX_RETRIES && c.maxPerUser > 0
    requires !NotNamed(s.docs[id], StageKey(kind)) || (kind.Parse? && s.docs[id].status.Queued? && !HasOpenLease(s.docs[id]))
    ensures CanPublish(c, s, id, d, pieces)
  {
    var e := s.docs[id];
    if !NotNamed(e, StageKey(kind)) {
      var index :| 0 <= index < |e.leases| && IsOpen(e.leases[index]) && e.leases[index].task == StageKey(kind);
      NamedPublishes(c, s, id, d, kind, pieces, index);
    } else {
      WaitingPublishes(c, s, id, d, kind, pieces);
    }
  }

  lemma ParseIsNamed(e: Document)
    requires Sound(e) && Frontier(e).Parse? && HasOpenLease(e)
    ensures !NotNamed(e, StageKey(Parse))
  {
    OnlyParse(e);
    var i := FindOpen(e.leases).value;
    assert e.leases[i].task == StageKey(Parse);
  }

  lemma CompletesFrom(c: Config, s: System, id: nat)
    requires SystemInv(c, s) && id in s.docs && Sound(s.docs[id]) && !BeingDeleted(s.docs[id])
    requires StageKey(Frontier(s.docs[id])) in s.docs[id].tasks && CanStillComplete(c, s.docs[id])
    ensures CanComplete(c, s, id, s.docs[id])
  {
    var d := s.docs[id];
    if d.status.Completed? {
      assert Run(c, s, []) == s;
      assert AllByItself(c, s, id, d, []) && CompletesBy(c, s, id, []);
    } else {
      FrontierFed(d);
      var pieces :| Fed(d, Frontier(d), pieces);
      if Unstarted(TaskIn(d, Frontier(d))) {
        UnstartedCompletes(c, s, id, d, pieces);
      } else if TaskIn(d, Frontier(d)).status.TaskRunning? {
        RunningCompletes(c, s, id, d, Frontier(d), pieces);
      } else {
        if Frontier(d).Parse? && HasOpenLease(d) {
          ParseIsNamed(d);
        }
        SettledCompletes(c, s, id, d, Frontier(d), pieces);
      }
      PublishedCompletes(c, s, id, d, pieces);
    }
  }

  lemma PublishedCompletes(c: Config, s: System, id: nat, d: Document, pieces: seq<string>)
    requires CanPublish(c, s, id, d, pieces)
    ensures CanComplete(c, s, id, d)
  {
    var run :| AllByItself(c, s, id, d, run) && PublishesBy(c, s, id, pieces, run);
    assert CompletesBy(c, s, id, run);
  }

  // ---------------------------------------------------------------------------------------------
  // It cannot
  // ---------------------------------------------------------------------------------------------

  /** Anything but a DELETE of the document or a step of a worker that has begun in `d`. */
  predicate WithoutBegun(d: Document, id: nat, event: Event) {
    event.On? && event.id == id ==>
      && !event.step.Delete?
      && match StepAttempt(event.step)
         case Some(a) => !HasAttempt(d, a)
         case None => true
  }

  predicate LaterAbsent(e: Document, kind: TaskType) {
    && (kind.Parse? ==> StageKey(Chunk) !in e.tasks)
    && (kind.Parse? || kind.Chunk? ==> StageKey(Embed) !in e.tasks)
    && (!kind.Finalize? ==> StageKey(Finalize) !in e.tasks)
  }

  /** The last stage never runs again: out of retries, or ended with nothing to requeue it. */
  predicate DeadTask(d: Document, e: Document, kind: TaskType) {
    && StageKey(kind) in d.tasks && StageKey(kind) in e.tasks
    && !Unstarted(TaskIn(e, kind)) && |TaskIn(e, kind).attempts| == |TaskIn(d, kind).attempts|
    && (TaskIn(e, kind).retry == MAX_RETRIES
        || (Settled(TaskIn(e, kind)) && NotNamed(e, StageKey(kind)) && (kind.Parse? ==> e.status.Failed?)))
  }

  predicate AtLimit(e: Document) {
    forall key :: key in e.tasks && IsStage(key) && MayRevive(key, e.tasks[key]) ==> e.tasks[key].retry == MAX_RETRIES
  }

  /** The document has no lease and will never have one. */
  predicate NoLease(noSlots: bool, e: Document, kind: TaskType) {
    !kind.Finalize? && !HasOpenLease(e) && (noSlots || (e.status.Failed? && AtLimit(e)))
  }

  ghost predicate Hopeless(dead: bool, noSlots: bool, d: Document, e: Document, kind: TaskType) {
    && !e.status.Completed? && !BeingDeleted(e) && !kind.DeleteCleanup? && LaterAbsent(e, kind)
    && (if dead then DeadTask(d, e, kind) else NoLease(noSlots, e, kind))
  }

  lemma SetWorkerHopeless(dead: bool, noSlots: bool, d: Document, e: Document, kind: TaskType, a: AttemptId,
                          worker: Worker)
    requires Hopeless(dead, noSlots, d, e, kind) && HasAttempt(e, a)
    ensures Hopeless(dead, noSlots, d, SetWorker(e, a, worker), kind)
  {
  }

  lemma ConcludeHopeless(dead: bool, noSlots: bool, d: Document, e: Document, kind: TaskType, a: AttemptId,
                         outcome: Outcome,
                         onCommit: Worker, onRefusal: Worker)
    requires Hopeless(dead, noSlots, d, e, kind) && HasAttempt(e, a)
    requires outcome.Committed? ==> HasAttempt(outcome.document, a) && Hopeless(dead, noSlots, d, outcome.document, kind)
    ensures Hopeless(dead, noSlots, d, Conclude(e, a, outcome, onCommit, onRefusal), kind)
  {
    match outcome
    case Committed(after) => SetWorkerHopeless(dead, noSlots, d, after, kind, a, onCommit);
    case Replayed => SetWorkerHopeless(dead, noSlots, d, e, kind, a, Done);
    case Refused => SetWorkerHopeless(dead, noSlots, d, e, kind, a, onRefusal);
  }

  /** A worker that began after `d`: not one of a dead last stage. */
  ghost predicate BeganLater(d: Document, e: Document, kind: TaskType, a: AttemptId) {
    && HasAttempt(e, a) && IsStage(a.key) && a.key == StageKey(a.key.kind)
    && (DeadTask(d, e, kind) ==> a.key != StageKey(kind))
  }

  lemma AdvanceHopeless(dead: bool, noSlots: bool, d: Document, e: Document, kind: TaskType, a: AttemptId,
                        total: Option<nat>, processed: Option<nat>)
    requires Hopeless(dead, noSlots, d, e, kind) && BeganLater(d, e, kind, a) && !a.key.kind.Finalize?
    ensures var o := Advance(e, a, total, processed); o.Committed? ==> Hopeless(dead, noSlots, d, o.document, kind)
  {
  }

  lemma CompleteHopeless(dead: bool, noSlots: bool, d: Document, e: Document, kind: TaskType, a: AttemptId,
                         total: Option<nat>, processed: Option<nat>, expected: Option<nat>)
    requires Hopeless(dead, noSlots, d, e, kind) && BeganLater(d, e, kind, a)
    ensures var o := CompleteStage(e, a, total, processed, expected);
            o.Committed? ==> HasAttempt(o.document, a) && Hopeless(dead, noSlots, d, o.document, kind)
  {
    if !a.key.kind.Finalize? {
      AdvanceHopeless(dead, noSlots, d, e, kind, a, total, processed);
    }
  }

  lemma SavesHopeless(dead: bool, noSlots: bool, d: Document, e: Document, kind: TaskType, a: AttemptId, text: string,
                      pieces: seq<string>)
    requires Hopeless(dead, noSlots, d, e, kind) && BeganLater(d, e, kind, a)
    ensures Hopeless(dead, noSlots, d, Conclude(e, a, CommitParse(e, a, text), Done, Rejected), kind)
    ensures Hopeless(dead, noSlots, d, Conclude(e, a, CommitChunk(e, a, pieces), Done, Rejected), kind)
  {
    CompleteHopeless(dead, noSlots, d, e.(parseResults := e.parseResults + [text]), kind, a, Some(1), Some(1), None);
    ConcludeHopeless(dead, noSlots, d, e, kind, a, CommitParse(e, a, text), Done, Rejected);
    CompleteHopeless(dead, noSlots, d, e.(drafts := pieces), kind, a, Some(|pieces|), Some(|pieces|), None);
    ConcludeHopeless(dead, noSlots, d, e, kind, a, CommitChunk(e, a, pieces), Done, Rejected);
  }

  lemma EmbedHopeless(dead: bool, noSlots: bool, d: Document, e: Document, kind: TaskType, a: AttemptId, now: int,
                      seconds: nat)
    requires Hopeless(dead, noSlots, d, e, kind) && BeganLater(d, e, kind, a) && a.key.kind.Embed?
             && AttemptOf(e, a).worker.Loaded?
    ensures var renewed := Conclude(e, a, Heartbeat(e, a.key, now, seconds), NextBatch(AttemptOf(e, a).worker), Rejected);
            Hopeless(dead, noSlots, d, renewed, kind)
    ensures var drafts := AttemptOf(e, a).worker.drafts;
            Hopeless(dead, noSlots, d, Conclude(e, a, WriteChunks(e, a, drafts), Wrote(|drafts|), Rejected), kind)
  {
    var drafts := AttemptOf(e, a).worker.drafts;
    ConcludeHopeless(dead, noSlots, d, e, kind, a, Heartbeat(e, a.key, now, seconds), NextBatch(AttemptOf(e, a).worker), Rejected);
    ConcludeHopeless(dead, noSlots, d, e, kind, a, WriteChunks(e, a, drafts), Wrote(|drafts|), Rejected);
  }

  lemma FailDead(d: Document, e: Document, kind: TaskType, a: AttemptId, code: Option<nat>)
    requires Hopeless(true, false, d, e, kind) && BeganLater(d, e, kind, a)
    ensures Hopeless(true, false, d, FailStage(e, a, code), kind)
  {
  }

  lemma FailNoLease(noSlots: bool, d: Document, e: Document, kind: TaskType, a: AttemptId, code: Option<nat>)
    requires TasksInv(e) && Hopeless(false, noSlots, d, e, kind) && HasAttempt(e, a) && IsStage(a.key)
    ensures Hopeless(false, noSlots, d, FailStage(e, a, code), kind)
  {
    assert TaskInv(a.key, e.tasks[a.key]);
  }

  lemma ConvergeHopeless(dead: bool, noSlots: bool, d: Document, e: Document, kind: TaskType, a: AttemptId)
    requires Hopeless(dead, noSlots, d, e, kind) && BeganLater(d, e, kind, a)
    ensures Hopeless(dead, noSlots, d, ConvergeCancelled(e, a), kind)
  {
  }

  lemma FailHopeless(dead: bool, noSlots: bool, d: Document, e: Document, kind: TaskType, a: AttemptId, code: Option<nat>)
    requires TasksInv(e) && Hopeless(dead, noSlots, d, e, kind) && BeganLater(d, e, kind, a)
    ensures Hopeless(dead, noSlots, d, FailStage(e, a, code), kind)
  {
    if dead {
      FailDead(d, e, kind, a, code);
    } else {
      FailNoLease(noSlots, d, e, kind, a, code);
    }
  }

  lemma LeaseHopeless(dead: bool, noSlots: bool, d: Document, e: Document, kind: TaskType, index: nat)
    requires DocInv(e) && Hopeless(dead, noSlots, d, e, kind) && index < |e.leases|
    ensures Hopeless(dead, noSlots, d, RecoverExpiredLease(e, index), kind)
  {
    if IsOpen(e.leases[index]) {
      LeaseDead(d, e, kind, index);
    }
  }

  lemma LeaseDead(d: Document, e: Document, kind: TaskType, index: nat)
    requires DocInv(e) && !BeingDeleted(e) && DeadTask(d, e, kind) && LaterAbsent(e, kind) && !kind.DeleteCleanup?
    requires index < |e.leases| && IsOpen(e.leases[index])
    ensures var f := RecoverExpiredLease(e, index);
            DeadTask(d, f, kind) && LaterAbsent(f, kind) && !f.status.Completed? && !BeingDeleted(f)
  {
    var key := e.leases[index].task;
    assert TaskInv(key, e.tasks[key]);
    assert key == StageKey(key.kind);
    if key != StageKey(kind) {
      LeaseElsewhere(d, e, kind, index);
    }
  }

  lemma LeaseElsewhere(d: Document, e: Document, kind: TaskType, index: nat)
    requires DocInv(e) && !BeingDeleted(e) && DeadTask(d, e, kind) && LaterAbsent(e, kind) && !kind.DeleteCleanup?
    requires index < |e.leases| && IsOpen(e.leases[index]) && e.leases[index].task != StageKey(kind)
    requires e.leases[index].task == StageKey(e.leases[index].task.kind) && e.leases[index].task in e.tasks
    ensures var f := RecoverExpiredLease(e, index);
            DeadTask(d, f, kind) && LaterAbsent(f, kind) && !f.status.Completed? && !BeingDeleted(f)
  {
  }

  lemma LossDead(d: Document, e: Document, kind: TaskType, a: AttemptId)
    requires TasksInv(e) && !BeingDeleted(e) && DeadTask(d, e, kind) && LaterAbsent(e, kind) && !kind.DeleteCleanup?
    requires !e.status.Completed? && HasAttempt(e, a) && IsStage(a.key) && a.key == StageKey(a.key.kind)
    ensures var f := RecoverRunningWithoutLease(e, a);
            DeadTask(d, f, kind) && LaterAbsent(f, kind) && !f.status.Completed? && !BeingDeleted(f)
  {
    assert TaskInv(a.key, e.tasks[a.key]);
  }

  lemma LossNoLease(noSlots: bool, e: Document, kind: TaskType, a: AttemptId)
    requires TasksInv(e) && !BeingDeleted(e) && NoLease(noSlots, e, kind) && LaterAbsent(e, kind)
    requires !e.status.Completed? && HasAttempt(e, a) && IsStage(a.key)
    ensures var f := RecoverRunningWithoutLease(e, a);
            NoLease(noSlots, f, kind) && LaterAbsent(f, kind) && !f.status.Completed? && !BeingDeleted(f)
  {
    assert TaskInv(a.key, e.tasks[a.key]);
  }

  lemma LossHopeless(dead: bool, noSlots: bool, d: Document, e: Document, kind: TaskType, a: AttemptId)
    requires DocInv(e) && Hopeless(dead, noSlots, d, e, kind) && HasAttempt(e, a) && IsStage(a.key)
             && a.key == StageKey(a.key.kind)
    ensures Hopeless(dead, noSlots, d, RecoverRunningWithoutLease(e, a), kind)
  {
    if dead {
      LossDead(d, e, kind, a);
    } else {
      LossNoLease(noSlots, e, kind, a);
    }
  }

  lemma BeginHopeless(dead: bool, noSlots: bool, d: Document, e: Document, kind: TaskType, key: TaskKey)
    requires TasksInv(e) && Hopeless(dead, noSlots, d, e, kind) && (!dead && !noSlots ==> key != StageKey(Parse))
    ensures Hopeless(dead, noSlots, d, BeginAttempt(e, key), kind)
  {
    assert key in e.tasks ==> TaskInv(key, e.tasks[key]);
  }

  lemma AdmitHopeless(dead: bool, noSlots: bool, d: Document, e: Document, kind: TaskType, now: int, seconds: nat,
                      slotFree: bool)
    requires Hopeless(dead, noSlots, d, e, kind) && (noSlots ==> !slotFree)
    ensures Hopeless(dead, noSlots, d, AdmitParse(e, now, seconds, slotFree), kind)
  {
  }

  lemma CoordinateHopeless(dead: bool, noSlots: bool, d: Document, e: Document, kind: TaskType)
    requires TasksInv(e) && Hopeless(dead, noSlots, d, e, kind)
    ensures Hopeless(dead, noSlots, d, MarkQueued(e), kind)
  {
  }

  lemma CompensateHopeless(dead: bool, noSlots: bool, d: Document, e: Document, kind: TaskType)
    requires TasksInv(e) && Hopeless(dead, noSlots, d, e, kind)
    ensures Hopeless(dead, noSlots, d, Compensate(e), kind)
  {
  }

  lemma PublishHopeless(dead: bool, noSlots: bool, d: Document, e: Document, kind: TaskType, a: AttemptId, now: int,
                        seconds: nat)
    requires Hopeless(dead, noSlots, d, e, kind) && BeganLater(d, e, kind, a) && Enabled(e, Publish(a))
    ensures Hopeless(dead, noSlots, d, WorkerStep(e, a, Publish(a), now, seconds), kind)
  {
  }

  lemma FinishHopeless(dead: bool, noSlots: bool, d: Document, e: Document, kind: TaskType, a: AttemptId, now: int,
                       seconds: nat)
    requires TasksInv(e) && Hopeless(dead, noSlots, d, e, kind) && BeganLater(d, e, kind, a) && Enabled(e, FinishEmbed(a))
    ensures Hopeless(dead, noSlots, d, WorkerStep(e, a, FinishEmbed(a), now, seconds), kind)
  {
    var count := AttemptOf(e, a).worker.count;
    CompleteHopeless(dead, noSlots, d, e, kind, a, Some(count), Some(count), None);
    ConcludeHopeless(dead, noSlots, d, e, kind, a, CompleteStage(e, a, Some(count), Some(count), None), Done, Done);
  }

  lemma EndHopeless(dead: bool, noSlots: bool, d: Document, e: Document, kind: TaskType, a: AttemptId, step: DocStep,
                    now: int, seconds: nat)
    requires TasksInv(e) && Hopeless(dead, noSlots, d, e, kind) && BeganLater(d, e, kind, a)
    requires StepAttempt(step) == Some(a) && Enabled(e, step) && IsEnding(step)
    ensures Hopeless(dead, noSlots, d, WorkerStep(e, a, step, now, seconds), kind)
  {
    match step
    case FinishEmbed(_) => FinishHopeless(dead, noSlots, d, e, kind, a, now, seconds);
    case Publish(_) => PublishHopeless(dead, noSlots, d, e, kind, a, now, seconds);
    case Fail(_, code) =>
      FailHopeless(dead, noSlots, d, e, kind, a, code);
      SetWorkerHopeless(dead, noSlots, d, FailStage(e, a, code), kind, a, Done);
    case Converge(_) =>
      ConvergeHopeless(dead, noSlots, d, e, kind, a);
      SetWorkerHopeless(dead, noSlots, d, ConvergeCancelled(e, a), kind, a, Done);
  }

  lemma WorkHopeless(dead: bool, noSlots: bool, d: Document, e: Document, kind: TaskType, a: AttemptId, step: DocStep,
                     now: int, seconds: nat)
    requires Hopeless(dead, noSlots, d, e, kind) && BeganLater(d, e, kind, a)
    requires StepAttempt(step) == Some(a) && Enabled(e, step) && !IsEnding(step)
    ensures Hopeless(dead, noSlots, d, WorkerStep(e, a, step, now, seconds), kind)
  {
    match step
    case SaveParse(_) => SavesHopeless(dead, noSlots, d, e, kind, a, AttemptOf(e, a).worker.text, []);
    case SaveDrafts(_) => SavesHopeless(dead, noSlots, d, e, kind, a, [], Pieces(AttemptOf(e, a).worker.text));
    case Renew(_) => EmbedHopeless(dead, noSlots, d, e, kind, a, now, seconds);
    case SaveChunks(_) => EmbedHopeless(dead, noSlots, d, e, kind, a, now, seconds);
    case ReadOriginal(_, text) => SetWorkerHopeless(dead, noSlots, d, e, kind, a, Parsed(text));
    case CheckLease(_) => SetWorkerHopeless(dead, noSlots, d, e, kind, a, if HasOpenLease(e) then Leased else Rejected);
    case ReadText(_) =>
      if e.parseResults != [] {
        SetWorkerHopeless(dead, noSlots, d, e, kind, a, Read(LastText(e)));
      }
    case LoadDrafts(_) => SetWorkerHopeless(dead, noSlots, d, e, kind, a, Loaded(e.drafts, 0));
    case ReadCheckpoint(_) => SetWorkerHopeless(dead, noSlots, d, e, kind, a, Expecting(EmbedCheckpoint(e)));
  }

  /** No step that is neither a DELETE nor one of a begun worker changes that. */
  lemma StepHopeless(dead: bool, noSlots: bool, d: Document, e: Document, kind: TaskType, step: DocStep, now: int,
                     seconds: nat, slotFree: bool)
    requires e.cycle == 0 && DocInv(e) && Hopeless(dead, noSlots, d, e, kind) && (noSlots ==> !slotFree)
    requires !step.Delete? && (StepAttempt(step).Some? ==> !HasAttempt(d, StepAttempt(step).value))
    requires !dead && !noSlots ==> step != Begin(StageKey(Parse))
    ensures Hopeless(dead, noSlots, d, DocNext(e, step, now, seconds, slotFree), kind)
  {
    if Enabled(e, step) {
      NeverDeleted(e);
      match StepAttempt(step)
      case Some(a) =>
        Later(d, e, kind, a);
        if IsEnding(step) {
          EndHopeless(dead, noSlots, d, e, kind, a, step, now, seconds);
        } else {
          WorkHopeless(dead, noSlots, d, e, kind, a, step, now, seconds);
        }
      case None => OtherHopeless(dead, noSlots, d, e, kind, step, now, seconds, slotFree);
    }
  }

  lemma Later(d: Document, e: Document, kind: TaskType, a: AttemptId)
    requires e.cycle == 0 && DocInv(e) && HasAttempt(e, a) && !HasAttempt(d, a)
    ensures BeganLater(d, e, kind, a)
  {
    NeverDeleted(e);
    assert TaskInv(a.key, e.tasks[a.key]) && IsStage(a.key);
  }

  lemma OtherHopeless(dead: bool, noSlots: bool, d: Document, e: Document, kind: TaskType, step: DocStep, now: int,
                      seconds: nat, slotFree: bool)
    requires e.cycle == 0 && DocInv(e) && Hopeless(dead, noSlots, d, e, kind) && (noSlots ==> !slotFree)
    requires !dead && !noSlots ==> step != Begin(StageKey(Parse))
    requires Enabled(e, step) && StepAttempt(step).None? && !step.Delete?
    ensures Hopeless(dead, noSlots, d, DocNext(e, step, now, seconds, slotFree), kind)
  {
    match step
    case Coordinate => CoordinateHopeless(dead, noSlots, d, e, kind);
    case CompensateUpload => CompensateHopeless(dead, noSlots, d, e, kind);
    case Admit => AdmitHopeless(dead, noSlots, d, e, kind, now, seconds, slotFree);
    case Begin(key) => BeginHopeless(dead, noSlots, d, e, kind, key);
    case TakeOverLease(index) => LeaseHopeless(dead, noSlots, d, e, kind, index);
    case TakeOverAttempt(a) =>
      NeverDeleted(e);
      assert TaskInv(a.key, e.tasks[a.key]) && IsStage(a.key);
      LossHopeless(dead, noSlots, d, e, kind, a);
    case _ =>
  }

  lemma SameCycle(d: Document, step: DocStep, now: int, seconds: nat, slotFree: bool)
    requires !step.Delete?
    ensures DocNext(d, step, now, seconds, slotFree).cycle == d.cycle
  {
    if Enabled(d, step) && StepAttempt(step).Some? {
      WorkerCycle(d, StepAttempt(step).value, step, now, seconds);
    }
  }

  lemma WorkerCycle(d: Document, a: AttemptId, step: DocStep, now: int, seconds: nat)
    requires StepAttempt(step) == Some(a) && Enabled(d, step)
    ensures WorkerStep(d, a, step, now, seconds).cycle == d.cycle
  {
  }

  /** Some state of the continuation so far let a parse worker pass its checks. */
  ghost predicate Checked(c: Config, s: System, id: nat, run: seq<Event>, k: nat) {
    exists j :: 0 <= j <= k <= |run| && id in Run(c, s, run[..j]).docs && Runnable(Run(c, s, run[..j]).docs[id])
  }

  /** No DELETE and no step of a worker that has begun in `d`; and a parse attempt begins only after its worker has found
      the document QUEUED or PROCESSING. */
  ghost predicate AllWithoutBegun(c: Config, s: System, id: nat, d: Document, run: seq<Event>) {
    forall k :: 0 <= k < |run| ==>
      WithoutBegun(d, id, run[k]) && (run[k] == On(id, Begin(StageKey(Parse))) ==> Checked(c, s, id, run, k))
  }

  lemma OnHopeless(dead: bool, c: Config, s: System, id: nat, d: Document, kind: TaskType, step: DocStep)
    requires id in s.docs && s.docs[id].cycle == 0 && DocInv(s.docs[id])
    requires Hopeless(dead, c.maxPerUser == 0, d, s.docs[id], kind) && WithoutBegun(d, id, On(id, step))
    requires !dead && c.maxPerUser > 0 ==> step != Begin(StageKey(Parse))
    ensures var f := DocNext(s.docs[id], step, s.now, c.leaseSeconds, SlotFree(c, s, id));
            f.cycle == 0 && Hopeless(dead, c.maxPerUser == 0, d, f, kind)
  {
    SameCycle(s.docs[id], step, s.now, c.leaseSeconds, SlotFree(c, s, id));
    StepHopeless(dead, c.maxPerUser == 0, d, s.docs[id], kind, step, s.now, c.leaseSeconds, SlotFree(c, s, id));
  }

  lemma NextHopeless(dead: bool, c: Config, s: System, id: nat, d: Document, kind: TaskType, event: Event)
    requires id in s.docs && s.docs[id].cycle == 0 && DocInv(s.docs[id])
    requires Hopeless(dead, c.maxPerUser == 0, d, s.docs[id], kind) && WithoutBegun(d, id, event)
    requires !dead && c.maxPerUser > 0 ==> event != On(id, Begin(StageKey(Parse)))
    ensures var t := Next(c, s, event);
            id in t.docs && t.docs[id].cycle == 0 && Hopeless(dead, c.maxPerUser == 0, d, t.docs[id], kind)
  {
    if event.On? && event.id == id {
      OnHopeless(dead, c, s, id, d, kind, event.step);
    }
  }

  /** Without a lease to come the document stays FAILED, so that no parse worker passes its checks. */
  lemma NeverRunnable(noSlots: bool, d: Document, e: Document, kind: TaskType)
    requires Hopeless(false, noSlots, d, e, kind) && !noSlots
    ensures !Runnable(e)
  {
  }

  lemma FrontWithoutBegun(c: Config, s: System, id: nat, d: Document, run: seq<Event>, n: nat)
    requires AllWithoutBegun(c, s, id, d, run) && n <= |run|
    ensures AllWithoutBegun(c, s, id, d, run[..n])
  {
    forall k | 0 <= k < n
      ensures WithoutBegun(d, id, run[..n][k])
      ensures run[k] == On(id, Begin(StageKey(Parse))) ==> Checked(c, s, id, run[..n], k)
    {
      assert run[..n][k] == run[k];
      if run[k] == On(id, Begin(StageKey(Parse))) {
        var j :| 0 <= j <= k && id in Run(c, s, run[..j]).docs && Runnable(Run(c, s, run[..j]).docs[id]);
        assert run[..n][..j] == run[..j];
      }
    }
  }

  lemma {:induction false} RunHopeless(dead: bool, c: Config, s: System, id: nat, kind: TaskType, run: seq<Event>)
    requires SystemInv(c, s) && id in s.docs && s.docs[id].cycle == 0
    requires Hopeless(dead, c.maxPerUser == 0, s.docs[id], s.docs[id], kind) && AllWithoutBegun(c, s, id, s.docs[id], run)
    ensures var t := Run(c, s, run);
            id in t.docs && t.docs[id].cycle == 0 && Hopeless(dead, c.maxPerUser == 0, s.docs[id], t.docs[id], kind)
    decreases |run|, 1
  {
    if run != [] {
      var last := |run| - 1;
      FrontWithoutBegun(c, s, id, s.docs[id], run, last);
      RunHopeless(dead, c, s, id, kind, run[..last]);
      KeptInv(c, s, id, run[..last]);
      if !dead && c.maxPerUser > 0 && run[last] == On(id, Begin(StageKey(Parse))) {
        NotChecked(c, s, id, kind, run);
      }
      NextHopeless(dead, c, Run(c, s, run[..last]), id, s.docs[id], kind, run[last]);
    }
  }

  lemma {:induction false} NotChecked(c: Config, s: System, id: nat, kind: TaskType, run: seq<Event>)
    requires SystemInv(c, s) && id in s.docs && s.docs[id].cycle == 0 && c.maxPerUser > 0 && run != []
    requires Hopeless(false, false, s.docs[id], s.docs[id], kind) && AllWithoutBegun(c, s, id, s.docs[id], run)
    ensures run[|run| - 1] != On(id, Begin(StageKey(Parse)))
    decreases |run|, 0
  {
    var last := |run| - 1;
    if run[last] == On(id, Begin(StageKey(Parse))) {
      assert Checked(c, s, id, run, last);
      var j :| 0 <= j <= last && id in Run(c, s, run[..j]).docs && Runnable(Run(c, s, run[..j]).docs[id]);
      FrontWithoutBegun(c, s, id, s.docs[id], run, j);
      RunHopeless(false, c, s, id, kind, run[..j]);
      NeverRunnable(false, s.docs[id], Run(c, s, run[..j]).docs[id], kind);
    }
  }

  // ---------------------------------------------------------------------------------------------
  // The exact condition
  // ---------------------------------------------------------------------------------------------

  /** Some continuation without a DELETE and without the workers that have begun in `d` completes the document. */
  ghost predicate CanCompleteWithout(c: Config, s: System, id: nat, d: Document) {
    exists run :: AllWithoutBegun(c, s, id, d, run) && CompletesBy(c, s, id, run)
  }

  lemma HopelessNow(c: Config, d: Document)
    requires Sound(d) && !BeingDeleted(d) && StageKey(Frontier(d)) in d.tasks && !CanStillComplete(c, d)
    requires c.maxPerUser == 0 ==> !HasOpenLease(d)
    ensures Hopeless(true, c.maxPerUser == 0, d, d, Frontier(d)) || Hopeless(false, c.maxPerUser == 0, d, d, Frontier(d))
  {
    var kind := Frontier(d);
    var noSlots := c.maxPerUser == 0;
    assert TaskInv(StageKey(kind), TaskIn(d, kind));
    if Settled(TaskIn(d, kind)) && kind.Parse? && HasOpenLease(d) {
      ParseIsNamed(d);
    }
    if !HasOpenLease(d) && d.status.Failed? && !CanRevive(d) {
      NothingRevives(d);
    }
    assert Hopeless(true, noSlots, d, d, kind) || Hopeless(false, noSlots, d, d, kind);
  }

  lemma NothingRevives(d: Document)
    requires TasksInv(d) && !CanRevive(d)
    ensures AtLimit(d)
  {
    forall key | key in d.tasks && IsStage(key) && MayRevive(key, d.tasks[key])
      ensures d.tasks[key].retry == MAX_RETRIES
    {
      assert !Revivable(key, d.tasks[key]) && TaskInv(key, d.tasks[key]);
    }
  }

  lemma NoSlotNoLease(c: Config, s: System, id: nat)
    requires SystemInv(c, s) && id in s.docs && c.maxPerUser == 0
    ensures !HasOpenLease(s.docs[id])
  {
    if HasOpenLease(s.docs[id]) {
      HoldsSlot(s.docs, id);
    }
  }

  lemma HoldsSlot(docs: map<nat, Document>, id: nat)
    requires id in docs && HasOpenLease(docs[id])
    ensures |OpenLeases(docs, docs[id].user)| > 0
  {
    assert (id, FindOpen(docs[id].leases).value) in OpenLeases(docs, docs[id].user);
  }

  /** In every reachable state a document that was never deleted can still be COMPLETED without the workers that
      have begun if and only if the condition holds of its rows; and then the system does it by itself. */
  lemma CompletableExactly(c: Config, run: seq<Event>, id: nat)
    requires id in Reached(c, run).docs && Reached(c, run).docs[id].cycle == 0
    ensures StageKey(Frontier(Reached(c, run).docs[id])) in Reached(c, run).docs[id].tasks
    ensures var s := Reached(c, run);
            && (CanCompleteWithout(c, s, id, s.docs[id]) <==> CanStillComplete(c, s.docs[id]))
            && (CanComplete(c, s, id, s.docs[id]) <==> CanStillComplete(c, s.docs[id]))
  {
    SoundReachable(c, run, id);
    var s := Reached(c, run);
    FrontierFed(s.docs[id]);
    NeverDeleted(s.docs[id]);
    if CanStillComplete(c, s.docs[id]) {
      CompletesFrom(c, s, id);
      CompletesWithout(c, s, id, s.docs[id]);
    } else {
      if c.maxPerUser == 0 {
        NoSlotNoLease(c, s, id);
      }
      HopelessNow(c, s.docs[id]);
      NeverCompletes(c, s, id);
    }
  }

  lemma CompletesWithout(c: Config, s: System, id: nat, d: Document)
    requires CanComplete(c, s, id, d)
    ensures CanCompleteWithout(c, s, id, d)
  {
    var run :| AllByItself(c, s, id, d, run) && CompletesBy(c, s, id, run);
    TimelyByItself(c, s, id, d, run);
  }

  /** What happens by itself is timely. */
  lemma TimelyByItself(c: Config, s: System, id: nat, d: Document, run: seq<Event>)
    requires AllByItself(c, s, id, d, run)
    ensures AllWithoutBegun(c, s, id, d, run)
  {
    forall k | 0 <= k < |run|
      ensures WithoutBegun(d, id, run[k])
      ensures run[k] == On(id, Begin(StageKey(Parse))) ==> Checked(c, s, id, run, k)
    {
      assert ByItself(d, id, Run(c, s, run[..k]), run[k]);
      if run[k] == On(id, Begin(StageKey(Parse))) {
        assert Runnable(Run(c, s, run[..k]).docs[id]);
      }
    }
  }

  lemma NeverCompletes(c: Config, s: System, id: nat)
    requires SystemInv(c, s) && id in s.docs && s.docs[id].cycle == 0
    requires Hopeless(true, c.maxPerUser == 0, s.docs[id], s.docs[id], Frontier(s.docs[id]))
             || Hopeless(false, c.maxPerUser == 0, s.docs[id], s.docs[id], Frontier(s.docs[id]))
    ensures !CanCompleteWithout(c, s, id, s.docs[id]) && !CanComplete(c, s, id, s.docs[id])
  {
    var dead := Hopeless(true, c.maxPerUser == 0, s.docs[id], s.docs[id], Frontier(s.docs[id]));
    forall more | AllWithoutBegun(c, s, id, s.docs[id], more)
      ensures !CompletesBy(c, s, id, more)
    {
      RunHopeless(dead, c, s, id, Frontier(s.docs[id]), more);
    }
    if CanComplete(c, s, id, s.docs[id]) {
      CompletesWithout(c, s, id, s.docs[id]);
    }
  }

  // ---------------------------------------------------------------------------------------------
  // After a refusal
  // ---------------------------------------------------------------------------------------------

  lemma RequeuedFrontier(d: Document, kind: TaskType, step: DocStep, now: int, seconds: nat, slotFree: bool)
    requires DocInv(d) && d.cycle == 0 && Doomed(d, kind, true) && Requeues(d, step, kind)
    ensures var e := DocNext(d, step, now, seconds, slotFree);
            && e.cycle == 0 && e.status.Queued? && Frontier(e) == kind
            && StageKey(kind) in e.tasks && TaskIn(e, kind).status.TaskQueued?
  {
    assert TaskInv(StageKey(kind), d.tasks[StageKey(kind)]);
    RequeuedIsNotDoomed(d, step, now, seconds, slotFree, kind);
  }

  /** The other half: in every reachable state, a refused attempt of a never-deleted document that is taken over while it
      still runs gives the document another chance, and the system can complete it by itself. */
  lemma TakenOverCompletes(c: Config, run: seq<Event>, id: nat, kind: TaskType, step: DocStep)
    requires id in Reached(c, run).docs && Reached(c, run).docs[id].cycle == 0 && (kind.Finalize? || c.maxPerUser > 0)
    requires Doomed(Reached(c, run).docs[id], kind, true) && Requeues(Reached(c, run).docs[id], step, kind)
    ensures var t := Reached(c, run + [On(id, step)]); id in t.docs && CanComplete(c, t, id, t.docs[id])
  {
    Reachable(c, run);
    AppendOne(c, run, On(id, step));
    RequeuedNext(c, Reached(c, run), id, kind, step);
    CompletableExactly(c, run + [On(id, step)], id);
  }

  lemma RequeuedNext(c: Config, s: System, id: nat, kind: TaskType, step: DocStep)
    requires id in s.docs && DocInv(s.docs[id]) && s.docs[id].cycle == 0
    requires Doomed(s.docs[id], kind, true) && Requeues(s.docs[id], step, kind)
    ensures var t := Next(c, s, On(id, step));
            && id in t.docs
            && var e := t.docs[id];
            && e.cycle == 0 && e.status.Queued? && Frontier(e) == kind
            && StageKey(kind) in e.tasks && TaskIn(e, kind).status.TaskQueued?
  {
    StepTaken(c, s, id, step);
    RequeuedFrontier(s.docs[id], kind, step, s.now, c.leaseSeconds, SlotFree(c, s, id));
  }
}
