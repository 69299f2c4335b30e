/** When a deletion can still end.  The workers that have begun a clean-up may all be dead, so the question is
    whether the document can get to DELETED or to the tombstone without them. */
module DeletionEnds {
  import opened Rows
  import opened Transactions
  import opened Protocol
  import opened Invariant
  import opened Runs
  import opened DeletionSafety

  predicate Finished(d: Document) {
    d.status.Deleted? || IsTombstone(d)
  }

  predicate Startable(task: Task) {
    task.status.TaskQueued? && FindRunning(task.attempts).None?
  }

  /** The condition: the current clean-up waits for a lease, or some clean-up task is RUNNING, or QUEUED
      without a running attempt. */
  predicate CanStillEnd(d: Document) {
    || (CleanupKey(d.cycle) in d.tasks && d.tasks[CleanupKey(d.cycle)].status.TaskPending?)
    || exists key :: key in d.tasks && !IsStage(key) && (d.tasks[key].status.TaskRunning? || Startable(d.tasks[key]))
  }

  // ---------------------------------------------------------------------------------------------
  // Continuations without the clean-up workers that have begun in `d`
  // ---------------------------------------------------------------------------------------------

  predicate ByBegunCleaner(d: Document, step: DocStep) {
    match StepAttempt(step)
    case Some(a) => !IsStage(a.key) && HasAttempt(d, a)
    case None => false
  }

  /** Anything but a new DELETE of the document or a step of such a worker. */
  predicate WithoutBegun(d: Document, id: nat, event: Event) {
    event.On? && event.id == id ==> !event.step.Delete? && !ByBegunCleaner(d, event.step)
  }

  /** Only what the system does by itself: time, scans, take-overs, and clean-up workers that begin later. */
  predicate Rescues(d: Document, id: nat, event: Event) {
    match event
    case Tick(_) => true
    case Scan => true
    case Upload(_, _) => false
    case On(other, step) =>
      && other == id
      && match StepAttempt(step)
         case Some(a) => !IsStage(a.key) && !HasAttempt(d, a)
         case None => step.TakeOverLease? || step.TakeOverAttempt? || (step.Begin? && !IsStage(step.key))
  }

  ghost predicate EndsBy(c: Config, s: System, id: nat, run: seq<Event>) {
    id in Run(c, s, run).docs && Finished(Run(c, s, run).docs[id])
  }

  ghost predicate AllRescue(d: Document, id: nat, run: seq<Event>) {
    forall k :: 0 <= k < |run| ==> Rescues(d, id, run[k])
  }

  ghost predicate AllWithoutBegun(d: Document, id: nat, run: seq<Event>) {
    forall k :: 0 <= k < |run| ==> WithoutBegun(d, id, run[k])
  }

  /** The system by itself brings the deletion to its end. */
  ghost predicate CanBeRescued(c: Config, s: System, id: nat, d: Document) {
    exists run :: AllRescue(d, id, run) && EndsBy(c, s, id, run)
  }

  /** Some continuation without the workers begun in `d` brings it to its end. */
  ghost predicate CanEndWithout(c: Config, s: System, id: nat, d: Document) {
    exists run :: AllWithoutBegun(d, id, run) && EndsBy(c, s, id, run)
  }

  // ---------------------------------------------------------------------------------------------
  // The system can end it
  // ---------------------------------------------------------------------------------------------

  lemma RescueNow(c: Config, s: System, id: nat, d: Document)
    requires id in s.docs && Finished(s.docs[id])
    ensures CanBeRescued(c, s, id, d)
  {
    assert Run(c, s, []) == s;
    assert AllRescue(d, id, []) && EndsBy(c, s, id, []);
  }

  lemma RescueAfter(c: Config, s: System, id: nat, d: Document, event: Event)
    requires Rescues(d, id, event) && CanBeRescued(c, Next(c, s, event), id, d)
    ensures CanBeRescued(c, s, id, d)
  {
    var run :| AllRescue(d, id, run) && EndsBy(c, Next(c, s, event), id, run);
    RunConcat(c, s, [event], run);
    assert [event][..0] == [] && Run(c, s, []) == s;
    assert Run(c, s, [event]) == Next(c, s, event);
    assert AllRescue(d, id, [event] + run) && EndsBy(c, s, id, [event] + run);
  }

  lemma RemovedEnds(c: Config, s: System, id: nat, d: Document, a: AttemptId)
    requires id in s.docs && HasAttempt(s.docs[id], a) && !IsStage(a.key) && !HasAttempt(d, a)
    requires AttemptOf(s.docs[id], a).worker.Removed?
    ensures CanBeRescued(c, s, id, d)
  {
    StepTaken(c, s, id, FinishDelete(a));
    RescueNow(c, Next(c, s, On(id, FinishDelete(a))), id, d);
    RescueAfter(c, s, id, d, On(id, FinishDelete(a)));
  }

  lemma LookedUpEnds(c: Config, s: System, id: nat, d: Document, a: AttemptId)
    requires id in s.docs && HasAttempt(s.docs[id], a) && !IsStage(a.key) && !HasAttempt(d, a)
    requires AttemptOf(s.docs[id], a).worker.SawLive?
    ensures CanBeRescued(c, s, id, d)
  {
    StepTaken(c, s, id, RemoveOriginal(a));
    RemovedEnds(c, Next(c, s, On(id, RemoveOriginal(a))), id, d, a);
    RescueAfter(c, s, id, d, On(id, RemoveOriginal(a)));
  }

  lemma BegunEnds(c: Config, s: System, id: nat, d: Document, a: AttemptId)
    requires id in s.docs && HasAttempt(s.docs[id], a) && !IsStage(a.key) && !HasAttempt(d, a)
    requires AttemptOf(s.docs[id], a).worker.Working? && !s.docs[id].status.Deleted?
    ensures CanBeRescued(c, s, id, d)
  {
    StepTaken(c, s, id, LookUp(a));
    LookedUpEnds(c, Next(c, s, On(id, LookUp(a))), id, d, a);
    RescueAfter(c, s, id, d, On(id, LookUp(a)));
  }

  /** The attempts of a task in `e` are at least those it has in `d`. */
  predicate NoFewerAttempts(d: Document, e: Document, key: TaskKey) {
    key in d.tasks ==> key in e.tasks && |d.tasks[key].attempts| <= |e.tasks[key].attempts|
  }

  lemma StartableEnds(c: Config, s: System, id: nat, d: Document, key: TaskKey)
    requires id in s.docs && TasksInv(s.docs[id]) && s.docs[id].status.Deleting?
    requires key in s.docs[id].tasks && !IsStage(key) && Startable(s.docs[id].tasks[key])
    requires NoFewerAttempts(d, s.docs[id], key)
    ensures CanBeRescued(c, s, id, d)
  {
    var e := s.docs[id];
    assert TaskInv(key, e.tasks[key]);
    var a := AttemptId(key, |e.tasks[key].attempts|);
    assert CanBegin(e, key);
    StepTaken(c, s, id, Begin(key));
    BegunEnds(c, Next(c, s, On(id, Begin(key))), id, d, a);
    RescueAfter(c, s, id, d, On(id, Begin(key)));
  }

  /** Taking over a RUNNING clean-up leaves it startable, or leaves the tombstone. */
  lemma TakenCleanup(e: Document, key: TaskKey)
    requires TasksInv(e) && e.status.Deleting? && !HasOpenLease(e)
    requires key in e.tasks && !IsStage(key) && e.tasks[key].status.TaskRunning?
    ensures |e.tasks[key].attempts| > 0
    ensures var f := RecoverRunningWithoutLease(e, AttemptId(key, |e.tasks[key].attempts| - 1));
            && key in f.tasks && |f.tasks[key].attempts| == |e.tasks[key].attempts|
            && (IsTombstone(f) || (f.status.Deleting? && Startable(f.tasks[key])))
  {
    assert TaskInv(key, e.tasks[key]);
  }

  lemma TakenByStep(e: Document, key: TaskKey, now: int, seconds: nat, slotFree: bool)
    requires DocInv(e) && e.status.Deleting? && !HasOpenLease(e)
    requires key in e.tasks && !IsStage(key) && e.tasks[key].status.TaskRunning?
    ensures |e.tasks[key].attempts| > 0
    ensures var f := DocNext(e, TakeOverAttempt(AttemptId(key, |e.tasks[key].attempts| - 1)), now, seconds, slotFree);
            && TasksInv(f) && key in f.tasks && |f.tasks[key].attempts| == |e.tasks[key].attempts|
            && (IsTombstone(f) || (f.status.Deleting? && Startable(f.tasks[key])))
  {
    TakenCleanup(e, key);
    var step := TakeOverAttempt(AttemptId(key, |e.tasks[key].attempts| - 1));
    TakeOverAttemptIs(e, step.a, now, seconds, slotFree);
    StepKeeps(e, step, now, seconds, slotFree);
  }

  lemma TakeOverAttemptIs(e: Document, a: AttemptId, now: int, seconds: nat, slotFree: bool)
    requires HasAttempt(e, a)
    ensures DocNext(e, TakeOverAttempt(a), now, seconds, slotFree) == RecoverRunningWithoutLease(e, a)
  {
  }

  lemma RunningEnds(c: Config, s: System, id: nat, d: Document, key: TaskKey)
    requires id in s.docs && DocInv(s.docs[id]) && s.docs[id].status.Deleting? && !HasOpenLease(s.docs[id])
    requires key in s.docs[id].tasks && !IsStage(key) && s.docs[id].tasks[key].status.TaskRunning?
    requires NoFewerAttempts(d, s.docs[id], key)
    ensures CanBeRescued(c, s, id, d)
  {
    TakenByStep(s.docs[id], key, s.now, c.leaseSeconds, SlotFree(c, s, id));
    var step := TakeOverAttempt(AttemptId(key, |s.docs[id].tasks[key].attempts| - 1));
    StepTaken(c, s, id, step);
    RunningThen(c, Next(c, s, On(id, step)), id, d, key);
    RescueAfter(c, s, id, d, On(id, step));
  }

  lemma RunningThen(c: Config, t: System, id: nat, d: Document, key: TaskKey)
    requires id in t.docs && TasksInv(t.docs[id]) && key in t.docs[id].tasks && !IsStage(key)
    requires IsTombstone(t.docs[id]) || (t.docs[id].status.Deleting? && Startable(t.docs[id].tasks[key]))
    requires NoFewerAttempts(d, t.docs[id], key)
    ensures CanBeRescued(c, t, id, d)
  {
    if IsTombstone(t.docs[id]) {
      RescueNow(c, t, id, d);
    } else {
      StartableEnds(c, t, id, d, key);
    }
  }

  /** The lease runs out, a scan lists it, it is taken over, and the clean-up is startable. */
  lemma PendingEnds(c: Config, s: System, id: nat, d: Document)
    requires id in s.docs && DocInv(s.docs[id]) && Waits(s.docs[id])
    requires NoFewerAttempts(d, s.docs[id], CleanupKey(s.docs[id].cycle))
    ensures CanBeRescued(c, s, id, d)
  {
    var lease := s.docs[id].leases[FindOpen(s.docs[id].leases).value];
    var wait: nat := if lease.expires >= s.now then lease.expires - s.now + 1 else 0;
    ScanLists(c, s, wait, id, FindOpen(s.docs[id].leases).value);
    ListedEnds(c, Scanned(c, s, wait), id, d, FindOpen(s.docs[id].leases).value);
    RescueAfter(c, Next(c, s, Tick(wait)), id, d, Scan);
    RescueAfter(c, s, id, d, Tick(wait));
  }

  lemma ListedEnds(c: Config, u: System, id: nat, d: Document, index: nat)
    requires id in u.docs && DocInv(u.docs[id]) && Waits(u.docs[id]) && (id, index) in u.scanned
    requires index < |u.docs[id].leases| && IsOpen(u.docs[id].leases[index])
    requires NoFewerAttempts(d, u.docs[id], CleanupKey(u.docs[id].cycle))
    ensures CanBeRescued(c, u, id, d)
  {
    TakenPending(u.docs[id], index, u.now, c.leaseSeconds, SlotFree(c, u, id));
    StartableEnds(c, Next(c, u, On(id, TakeOverLease(index))), id, d, CleanupKey(u.docs[id].cycle));
    RescueAfter(c, u, id, d, On(id, TakeOverLease(index)));
  }

  lemma TakenPending(e: Document, index: nat, now: int, seconds: nat, slotFree: bool)
    requires DocInv(e) && Waits(e) && index < |e.leases| && IsOpen(e.leases[index])
    ensures var f := DocNext(e, TakeOverLease(index), now, seconds, slotFree);
            && TasksInv(f) && f.status.Deleting? && CleanupKey(e.cycle) in f.tasks && f.cycle == e.cycle
            && Startable(f.tasks[CleanupKey(e.cycle)])
            && |f.tasks[CleanupKey(e.cycle)].attempts| == |e.tasks[CleanupKey(e.cycle)].attempts|
  {
    StepKeeps(e, TakeOverLease(index), now, seconds, slotFree);
    TakeOverIs(e, index, now, seconds, slotFree);
    RecoverLeaseDeleting(e, index);
    CleanupUntaken(e, index);
    assert TaskInv(CleanupKey(e.cycle), e.tasks[CleanupKey(e.cycle)]);
  }

  /** The take-over of the lease touches no attempt of a clean-up. */
  lemma CleanupUntaken(e: Document, index: nat)
    requires DocInv(e) && e.status.Deleting? && index < |e.leases|
    ensures var f := RecoverExpiredLease(e, index); var key := CleanupKey(e.cycle);
            key in f.tasks && key in e.tasks && f.tasks[key].attempts == e.tasks[key].attempts
  {
  }

  // ---------------------------------------------------------------------------------------------
  // Nothing else can
  // ---------------------------------------------------------------------------------------------

  /** The clean-up tasks are exactly those of `d`. */
  ghost predicate SameCleanups(d: Document, e: Document) {
    && e.cycle == d.cycle
    && forall key :: !IsStage(key) ==>
         && (key in e.tasks <==> key in d.tasks)
         && (key in d.tasks ==> e.tasks[key] == d.tasks[key])
  }

  /** Not finished, and not about to be taken for the tombstone. */
  predicate Unfinished(e: Document) {
    !e.status.Deleted? && (e.status.Failed? ==> e.error != Some(DELETE_UNFINISHED))
  }

  lemma SameCleanupsTransitive(d: Document, e: Document, f: Document)
    requires SameCleanups(d, e) && SameCleanups(e, f)
    ensures SameCleanups(d, f)
  {
  }

  /** A transaction on a stage task: the clean-ups stay, and a failure is not the tombstone's. */
  ghost predicate LeavesCleanups(e: Document, f: Document) {
    SameCleanups(e, f) && (Unfinished(e) ==> Unfinished(f))
  }

  lemma ConcludeBlocked(e: Document, a: AttemptId, outcome: Outcome, onCommit: Worker, onRefusal: Worker)
    requires HasAttempt(e, a) && IsStage(a.key)
    requires outcome.Committed? ==> HasAttempt(outcome.document, a) && LeavesCleanups(e, outcome.document)
    ensures LeavesCleanups(e, Conclude(e, a, outcome, onCommit, onRefusal))
  {
  }

  lemma AdvanceBlocked(e: Document, a: AttemptId, total: Option<nat>, processed: Option<nat>)
    requires HasAttempt(e, a) && IsStage(a.key) && !a.key.kind.Finalize?
    ensures var o := Advance(e, a, total, processed);
            o.Committed? ==> HasAttempt(o.document, a) && LeavesCleanups(e, o.document)
  {
  }

  lemma CompleteBlocked(e: Document, a: AttemptId, total: Option<nat>, processed: Option<nat>, expected: Option<nat>)
    requires HasAttempt(e, a) && IsStage(a.key)
    ensures var o := CompleteStage(e, a, total, processed, expected);
            o.Committed? ==> HasAttempt(o.document, a) && LeavesCleanups(e, o.document)
  {
    if a.key.kind.Finalize? {
      FinalizeBlocked(e, a, expected);
    } else {
      AdvanceBlocked(e, a, total, processed);
    }
  }

  lemma FinalizeBlocked(e: Document, a: AttemptId, expected: Option<nat>)
    requires HasAttempt(e, a) && a.key.kind.Finalize?
    ensures HasAttempt(CompleteFinalize(e, a, expected), a) && LeavesCleanups(e, CompleteFinalize(e, a, expected))
  {
  }

  lemma SavesBlocked(e: Document, a: AttemptId, text: string, pieces: seq<string>)
    requires HasAttempt(e, a) && IsStage(a.key)
    ensures var o := CommitParse(e, a, text); o.Committed? ==> HasAttempt(o.document, a) && LeavesCleanups(e, o.document)
    ensures var o := CommitChunk(e, a, pieces);
            o.Committed? ==> HasAttempt(o.document, a) && LeavesCleanups(e, o.document)
  {
    CompleteBlocked(e.(parseResults := e.parseResults + [text]), a, Some(1), Some(1), None);
    CompleteBlocked(e.(drafts := pieces), a, Some(|pieces|), Some(|pieces|), None);
  }

  lemma FailBlocked(e: Document, a: AttemptId, code: Option<nat>)
    requires HasAttempt(e, a) && IsStage(a.key) && code != Some(DELETE_UNFINISHED)
    ensures LeavesCleanups(e, SetWorker(FailStage(e, a, code), a, Done))
  {
  }

  lemma StageWorkerBlocked(e: Document, a: AttemptId, step: DocStep, now: int, seconds: nat)
    requires StepAttempt(step) == Some(a) && Enabled(e, step) && IsStage(a.key)
    ensures LeavesCleanups(e, WorkerStep(e, a, step, now, seconds))
  {
    var worker := AttemptOf(e, a).worker;
    match step
    case SaveParse(_) =>
      SavesBlocked(e, a, worker.text, []);
      ConcludeBlocked(e, a, CommitParse(e, a, worker.text), Done, Rejected);
    case SaveDrafts(_) =>
      SavesBlocked(e, a, [], Pieces(worker.text));
      ConcludeBlocked(e, a, CommitChunk(e, a, Pieces(worker.text)), Done, Rejected);
    case FinishEmbed(_) =>
      CompleteBlocked(e, a, Some(worker.count), Some(worker.count), None);
      ConcludeBlocked(e, a, CompleteStage(e, a, Some(worker.count), Some(worker.count), None), Done, Done);
    case Publish(_) =>
      CompleteBlocked(e, a, None, None, Some(worker.count));
      ConcludeBlocked(e, a, CompleteStage(e, a, None, None, Some(worker.count)), Done, Rejected);
    case Fail(_, code) => FailBlocked(e, a, code);
    case _ =>
  }

  /** In a document that is being deleted with a blocked clean-up, queueing it again changes nothing. */
  lemma QueuedAlready(e: Document, e1: Document)
    requires DocInv(e) && e.status.Deleting? && !CanStillEnd(e) && SameCleanups(e, e1)
    ensures QueueCleanup(e1).Committed? && SameCleanups(e, QueueCleanup(e1).document)
    ensures QueueCleanup(e1).document.status == e1.status
  {
    var key := CleanupKey(e.cycle);
    assert key in e.tasks && e.tasks[key].status.TaskQueued?;
  }

  /** A DELETING document with an open lease has a PENDING clean-up, so there is no such lease here. */
  lemma TakeOverLeaseBlocked(e: Document, index: nat)
    requires DocInv(e) && Unfinished(e) && !CanStillEnd(e) && index < |e.leases|
    ensures var f := RecoverExpiredLease(e, index); SameCleanups(e, f) && Unfinished(f)
  {
  }

  lemma TakeOverAttemptBlocked(e: Document, a: AttemptId)
    requires DocInv(e) && Unfinished(e) && !CanStillEnd(e) && HasAttempt(e, a)
    ensures var f := RecoverRunningWithoutLease(e, a); SameCleanups(e, f) && Unfinished(f)
  {
    if AttemptOf(e, a).status.Running? && e.tasks[a.key].status.TaskRunning? && !HasOpenLease(e) {
      assert IsStage(a.key);
      if e.status.Deleting? {
        var closed := CloseAttempt(e.tasks[a.key], a.index, Cancelled).(status := TaskCancelled);
        QueuedAlready(e, PutTask(e, a.key, closed).(current := Some(DeleteCleanup), retry := 0));
      }
    }
  }

  /** Once no clean-up waits for a lease, runs or can be begun, no step but a DELETE or one of a clean-up worker
      that has begun touches a clean-up task or finishes the deletion. */
  lemma BlockedStays(e: Document, step: DocStep, now: int, seconds: nat, slotFree: bool)
    requires DocInv(e) && Unfinished(e) && !CanStillEnd(e) && !step.Delete? && !ByBegunCleaner(e, step)
    ensures var f := DocNext(e, step, now, seconds, slotFree); SameCleanups(e, f) && Unfinished(f)
  {
    if Enabled(e, step) {
      match StepAttempt(step)
      case Some(a) => StageWorkerBlocked(e, a, step, now, seconds);
      case None =>
        match step
        case Begin(key) =>
        case TakeOverLease(index) => TakeOverLeaseBlocked(e, index);
        case TakeOverAttempt(a) => TakeOverAttemptBlocked(e, a);
        case _ =>
    }
  }

  lemma SameEnd(d: Document, e: Document)
    requires SameCleanups(d, e)
    ensures CanStillEnd(e) <==> CanStillEnd(d)
    ensures forall step :: ByBegunCleaner(e, step) ==> ByBegunCleaner(d, step)
  {
  }

  lemma BlockedNext(c: Config, s: System, id: nat, d: Document, event: Event)
    requires id in s.docs && DocInv(s.docs[id]) && Unfinished(s.docs[id]) && SameCleanups(d, s.docs[id])
    requires !CanStillEnd(d) && WithoutBegun(d, id, event)
    ensures var t := Next(c, s, event);
            id in t.docs && DocInv(t.docs[id]) && Unfinished(t.docs[id]) && SameCleanups(d, t.docs[id])
  {
    if event.On? && event.id == id && EventEnabled(s, event) {
      var e := s.docs[id];
      SameEnd(d, e);
      BlockedStays(e, event.step, s.now, c.leaseSeconds, SlotFree(c, s, id));
      StepKeeps(e, event.step, s.now, c.leaseSeconds, SlotFree(c, s, id));
      SameCleanupsTransitive(d, e, DocNext(e, event.step, s.now, c.leaseSeconds, SlotFree(c, s, id)));
    }
  }

  lemma {:induction false} BlockedRun(c: Config, s: System, run: seq<Event>, id: nat)
    requires id in s.docs && DocInv(s.docs[id]) && Unfinished(s.docs[id]) && !CanStillEnd(s.docs[id])
    requires AllWithoutBegun(s.docs[id], id, run)
    ensures var t := Run(c, s, run);
            id in t.docs && DocInv(t.docs[id]) && Unfinished(t.docs[id]) && SameCleanups(s.docs[id], t.docs[id])
  {
    if run != [] {
      BlockedRun(c, s, run[..|run| - 1], id);
      BlockedNext(c, Run(c, s, run[..|run| - 1]), id, s.docs[id], run[|run| - 1]);
    }
  }

  // ---------------------------------------------------------------------------------------------
  // The exact condition
  // ---------------------------------------------------------------------------------------------

  lemma EndFrom(c: Config, s: System, id: nat)
    requires id in s.docs && DocInv(s.docs[id]) && s.docs[id].status.Deleting? && CanStillEnd(s.docs[id])
    ensures CanBeRescued(c, s, id, s.docs[id])
  {
    var d := s.docs[id];
    if d.tasks[CleanupKey(d.cycle)].status.TaskPending? {
      PendingEnds(c, s, id, d);
    } else {
      var key :| key in d.tasks && !IsStage(key) && (d.tasks[key].status.TaskRunning? || Startable(d.tasks[key]));
      if d.tasks[key].status.TaskRunning? {
        RunningEnds(c, s, id, d, key);
      } else {
        StartableEnds(c, s, id, d, key);
      }
    }
  }

  lemma RescueIsWithout(c: Config, s: System, id: nat, d: Document)
    requires CanBeRescued(c, s, id, d)
    ensures CanEndWithout(c, s, id, d)
  {
    var run :| AllRescue(d, id, run) && EndsBy(c, s, id, run);
    assert AllWithoutBegun(d, id, run);
  }

  /** In every reachable state a deletion can still end without the clean-up workers that have begun if and
      only if the current clean-up is PENDING, or some clean-up is RUNNING, or QUEUED without a running attempt;
      and then the system ends it by itself. */
  lemma DeletionEndsExactly(c: Config, run: seq<Event>, id: nat)
    requires id in Reached(c, run).docs && Reached(c, run).docs[id].status.Deleting?
    ensures var s := Reached(c, run);
            && (CanEndWithout(c, s, id, s.docs[id]) <==> CanStillEnd(s.docs[id]))
            && (CanBeRescued(c, s, id, s.docs[id]) <==> CanStillEnd(s.docs[id]))
  {
    Reachable(c, run);
    var s := Reached(c, run);
    if CanStillEnd(s.docs[id]) {
      EndFrom(c, s, id);
      RescueIsWithout(c, s, id, s.docs[id]);
    } else {
      if CanBeRescued(c, s, id, s.docs[id]) {
        RescueIsWithout(c, s, id, s.docs[id]);
      }
      forall more | AllWithoutBegun(s.docs[id], id, more)
        ensures !EndsBy(c, s, id, more)
      {
        BlockedRun(c, s, more, id);
      }
    }
  }
}
