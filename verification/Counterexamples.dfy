/** Runs that end where a stronger claim about the protocol would break.  Each is a concrete history from
    the empty system; beside it stands, where there is one, the exact condition for all documents. */
module Counterexamples {
  import opened Rows
  import opened Transactions
  import opened Protocol
  import opened Invariant
  import opened Runs
  import opened DeletionEnds
  import opened DeletionSafety
  import opened Histories
  import opened Pipeline
  import opened AbandonedStages
  import opened Completion
  import opened Completable

  lemma ArisesInv(d: Document)
    requires Arises(d)
    ensures DocInv(d)
  {
    var run :| Leads(START, run, d);
    Reachable(SMALL, run);
    assert Reached(SMALL, run).docs[0] == d;
  }

  // ---------------------------------------------------------------------------------------------
  // Histories of the current clean-up of a document
  // ---------------------------------------------------------------------------------------------

  /** The document `d` with this current clean-up task. */
  function With(d: Document, retry: nat, cleanup: Task): Document {
    PutTask(d, CleanupKey(d.cycle), cleanup).(retry := retry)
  }

  function Cleanup(status: TaskStatus, retry: nat, attempts: seq<Attempt>): Task {
    NewTask(status).(retry := retry, attempts := attempts)
  }

  lemma PutAgain(d: Document, key: TaskKey, t: Task, u: Task)
    ensures PutTask(PutTask(d, key, t), key, u) == PutTask(d, key, u)
  {
    assert d.tasks[key := t][key := u] == d.tasks[key := u];
  }

  lemma BeginArises(o: Origin, d: Document, retry: nat, cleanup: Task)
    requires ArisesFrom(o, With(d, retry, cleanup))
    requires cleanup.status.TaskQueued? && cleanup.retry <= cleanup.maxRetries
    requires FindRunning(cleanup.attempts).None? && MaxAttemptNo(cleanup.attempts) == |cleanup.attempts|
    ensures ArisesFrom(o, With(d, retry, Begun(cleanup)))
  {
    PutAgain(d, CleanupKey(d.cycle), cleanup, Begun(cleanup));
    assert BeginAttempt(With(d, retry, cleanup), CleanupKey(d.cycle)) == With(d, retry, Begun(cleanup));
    StepArises(o, With(d, retry, cleanup), Begin(CleanupKey(d.cycle)), With(d, retry, Begun(cleanup)));
  }

  function LookedUp(cleanup: Task, index: nat): Task
    requires index < |cleanup.attempts|
  {
    cleanup.(attempts := cleanup.attempts[index := cleanup.attempts[index].(worker := SawLive)])
  }

  lemma LookUpArises(o: Origin, d: Document, retry: nat, cleanup: Task, index: nat)
    requires ArisesFrom(o, With(d, retry, cleanup)) && !d.status.Deleted?
    requires index < |cleanup.attempts| && cleanup.attempts[index].worker.Working?
    ensures ArisesFrom(o, With(d, retry, LookedUp(cleanup, index)))
  {
    var a := AttemptId(CleanupKey(d.cycle), index);
    PutAgain(d, a.key, cleanup, LookedUp(cleanup, index));
    assert SetWorker(With(d, retry, cleanup), a, SawLive) == With(d, retry, LookedUp(cleanup, index));
    StepArises(o, With(d, retry, cleanup), LookUp(a), With(d, retry, LookedUp(cleanup, index)));
  }

  /** The worker of the running attempt is lost and the attempt is taken over, within its retries. */
  lemma LossArises(o: Origin, d: Document, retry: nat, cleanup: Task, index: nat)
    requires ArisesFrom(o, With(d, retry, cleanup)) && d.status.Deleting? && !HasOpenLease(d)
             && cleanup.status.TaskRunning?
    requires index < |cleanup.attempts| && cleanup.attempts[index].status.Running?
    requires cleanup.retry < cleanup.maxRetries
    ensures ArisesFrom(o, With(d, cleanup.retry + 1, Requeue(CloseAttempt(cleanup, index, Cancelled))))
  {
    var a := AttemptId(CleanupKey(d.cycle), index);
    var lost := Requeue(CloseAttempt(cleanup, index, Cancelled));
    PutAgain(d, a.key, cleanup, lost);
    assert RecoverRunningWithoutLease(With(d, retry, cleanup), a) == With(d, cleanup.retry + 1, lost);
    StepArises(o, With(d, retry, cleanup), TakeOverAttempt(a), With(d, cleanup.retry + 1, lost));
  }

  function EndedRun(cleanup: Task, index: nat, status: AttemptStatus): Task
    requires index < |cleanup.attempts|
  {
    cleanup.(attempts := cleanup.attempts[index := cleanup.attempts[index].(status := status, worker := Done)])
  }

  lemma WorkerIsDone(d: Document, cleanup: Task, index: nat, status: AttemptStatus, e: Document)
    requires index < |cleanup.attempts| && CleanupKey(e.cycle) in e.tasks
    requires e.tasks[CleanupKey(e.cycle)].attempts == CloseAttempt(cleanup, index, status).attempts
    ensures SetWorker(e, AttemptId(CleanupKey(e.cycle), index), Done)
            == PutTask(e, CleanupKey(e.cycle),
                       e.tasks[CleanupKey(e.cycle)].(attempts := EndedRun(cleanup, index, status).attempts))
  {
    var closed := CloseAttempt(cleanup, index, status).attempts;
    assert closed[index := closed[index].(worker := Done)] == EndedRun(cleanup, index, status).attempts;
  }

  /** The failure of a clean-up run, lost or not, within the retries of its task. */
  lemma CleanupFailureArises(o: Origin, d: Document, retry: nat, cleanup: Task, index: nat)
    requires ArisesFrom(o, With(d, retry, cleanup))
    requires index < |cleanup.attempts| && cleanup.attempts[index].worker.SawLive?
    requires cleanup.retry < cleanup.maxRetries
    ensures ArisesFrom(o, With(d, cleanup.retry + 1, Requeue(EndedRun(cleanup, index, Errored))))
  {
    var a := AttemptId(CleanupKey(d.cycle), index);
    var failed := Requeue(CloseAttempt(cleanup, index, Errored));
    var m := With(d, cleanup.retry + 1, failed);
    var e := With(d, cleanup.retry + 1, Requeue(EndedRun(cleanup, index, Errored)));
    PutAgain(d, a.key, cleanup, failed);
    assert FailCleanup(With(d, retry, cleanup), a) == m;
    WorkerIsDone(d, cleanup, index, Errored, m);
    PutAgain(d, a.key, failed, Requeue(EndedRun(cleanup, index, Errored)));
    assert SetWorker(m, a, Done) == e;
    StepArises(o, With(d, retry, cleanup), FailDelete(a), e);
  }

  /** A clean-up worker looks its document up, is lost and is taken over, and a second one begins. */
  lemma OverlapArises(o: Origin, d: Document)
    requires ArisesFrom(o, With(d, d.retry, NewTask(TaskQueued))) && d.status.Deleting? && !HasOpenLease(d)
    ensures ArisesFrom(o, With(d, 1, OVERLAP))
  {
    var t0 := NewTask(TaskQueued);
    var t1 := Cleanup(TaskRunning, 0, [Attempt(1, Running, Working)]);
    var t2 := Cleanup(TaskRunning, 0, [Attempt(1, Running, SawLive)]);
    var t3 := Cleanup(TaskQueued, 1, [Attempt(1, Cancelled, SawLive)]);
    assert Begun(t0) == t1;
    assert LookedUp(t1, 0) == t2;
    assert Requeue(CloseAttempt(t2, 0, Cancelled)) == t3;
    assert Begun(t3) == OVERLAP;
    BeginArises(o, d, d.retry, t0);
    LookUpArises(o, d, d.retry, t1, 0);
    LossArises(o, d, d.retry, t2, 0);
    BeginArises(o, d, 1, t3);
  }

  const OVERLAP := Cleanup(TaskRunning, 1, [Attempt(1, Cancelled, SawLive), Attempt(2, Running, Working)])

  // ---------------------------------------------------------------------------------------------
  // A deletion that cannot end any more
  // ---------------------------------------------------------------------------------------------

  /** The first worker is lost and taken over, a second one begins, and then the first comes back and fails. */
  lemma StickArises(o: Origin, d: Document)
    requires ArisesFrom(o, d) && d.status.Deleting? && !HasOpenLease(d)
    requires CleanupKey(d.cycle) in d.tasks && d.tasks[CleanupKey(d.cycle)] == NewTask(TaskQueued)
    requires forall key :: key in d.tasks && !IsStage(key) && key != CleanupKey(d.cycle) ==>
               !d.tasks[key].status.TaskRunning? && !Startable(d.tasks[key])
    ensures exists e :: ArisesFrom(o, e) && StuckFrom(d, e)
  {
    var stuck := Cleanup(TaskQueued, 2, [Attempt(1, Errored, Done), Attempt(2, Running, Working)]);
    assert With(d, d.retry, NewTask(TaskQueued)) == d by {
      assert d.tasks[CleanupKey(d.cycle) := NewTask(TaskQueued)] == d.tasks;
    }
    OverlapArises(o, d);
    assert Requeue(EndedRun(OVERLAP, 0, Errored)) == stuck;
    CleanupFailureArises(o, d, 1, OVERLAP, 0);
    assert FindRunning(stuck.attempts).Some?;
    assert StuckFrom(d, With(d, 2, stuck));
  }

  /** In every reachable state a deletion whose clean-up has just been queued can get stuck. */
  lemma AnyDeletionCanStick(c: Config, run: seq<Event>, id: nat)
    requires id in Reached(c, run).docs && Reached(c, run).docs[id].status.Deleting?
    requires !HasOpenLease(Reached(c, run).docs[id])
    requires var d := Reached(c, run).docs[id];
             && CleanupKey(d.cycle) in d.tasks && d.tasks[CleanupKey(d.cycle)] == NewTask(TaskQueued)
             && forall key :: key in d.tasks && !IsStage(key) && key != CleanupKey(d.cycle) ==>
                  !d.tasks[key].status.TaskRunning? && !Startable(d.tasks[key])
    ensures exists more ::
              id in Reached(c, run + more).docs && StuckFrom(Reached(c, run).docs[id], Reached(c, run + more).docs[id])
  {
    var o := Origin(c, Reached(c, run), id);
    OriginArises(o);
    StickArises(o, Reached(c, run).docs[id]);
    var e :| ArisesFrom(o, e) && StuckFrom(Reached(c, run).docs[id], e);
    var more :| Leads(o, more, e);
    RunConcat(c, EmptySystem, run, more);
    assert Reached(c, run + more).docs[id] == e;
  }

  /** Later in the same cycle, still DELETING, with the other tasks as they were, and nothing that could end it. */
  ghost predicate StuckFrom(d: Document, e: Document) {
    && e.status.Deleting? && e.cycle == d.cycle && !CanStillEnd(e)
    && forall key :: key in d.tasks && key != CleanupKey(d.cycle) ==> key in e.tasks && e.tasks[key] == d.tasks[key]
  }

  /** A document that is deleted before its parse task starts. */
  const EARLY := Document(0, Deleting, Some(DeleteCleanup), 0, 1, None, 0,
                          map[StageKey(Parse) := NewTask(TaskCancelled), CleanupKey(1) := NewTask(TaskQueued)],
                          [], [], [], [], true)

  lemma DeleteEffect()
    ensures StageDelete(NewDocument(0), None) == EARLY
  {
    var d := NewDocument(0);
    var d1 := Document(0, Deleting, Some(DeleteCleanup), 0, 1, None, 0,
                       map[StageKey(Parse) := NewTask(TaskCancelled)], [], [], [], [], true);
    assert CancelUnstarted(d.tasks) == d1.tasks;
    assert MarkDeleting(d) == d1;
    assert BeforeCleanup(d, None) == d1;
    assert QueueCleanup(d1) == Committed(EARLY);
  }

  lemma DeleteArises()
    ensures Arises(EARLY) && EARLY == With(EARLY, 0, NewTask(TaskQueued))
  {
    UploadArises();
    DeleteEffect();
    NewDocumentIdle();
    DeletedArises(NewDocument(0), None);
    assert EARLY.tasks[CleanupKey(1) := NewTask(TaskQueued)] == EARLY.tasks;
  }

  lemma NewDocumentIdle()
    ensures IsOpenAttempt(NewDocument(0), None)
  {
  }

  lemma DeletedArises(d: Document, open: Option<AttemptId>)
    requires Arises(d) && IsOpenAttempt(d, open)
    ensures Arises(StageDelete(d, open))
  {
    forall now, seconds, slotFree
      ensures DocNext(d, Delete(open), now, seconds, slotFree) == StageDelete(d, open)
    {
    }
    StepArises(START, d, Delete(open), StageDelete(d, open));
  }

  /** So a deletion that nothing can end any more does arise. */
  lemma DeletionCanStick()
    ensures exists d :: Arises(d) && d.status.Deleting? && !CanStillEnd(d)
  {
    DeleteArises();
    StickArises(START, EARLY);
  }

  /** A PENDING clean-up of an earlier cycle, left behind by a stage failure, does not help it. */
  lemma OldPendingDoesNotHelp()
    ensures exists d, n: nat :: Arises(d) && d.status.Deleting? && !CanStillEnd(d)
                                && n < d.cycle && CleanupKey(n) in d.tasks && d.tasks[CleanupKey(n)].status.TaskPending?
  {
    FailureCanEndDeletion();
    var f :| Arises(f) && FailedWhileWaiting(f);
    ArisesInv(f);
    DeletedArises(f, None);
    var d := StageDelete(f, None);
    StageDeleteIs(f, None);
    SecondDelete(f);
    StickArises(START, d);
    var e :| Arises(e) && StuckFrom(d, e);
    assert CleanupKey(1) in e.tasks && e.tasks[CleanupKey(1)].status.TaskPending?;
  }

  /** The first clean-up task is still PENDING although the document has failed; nothing runs. */
  ghost predicate FailedWhileWaiting(d: Document) {
    && d.status.Failed? && !IsTombstone(d) && !HasOpenLease(d) && d.cycle == 1 && IsOpenAttempt(d, None)
    && CleanupKey(1) in d.tasks && d.tasks[CleanupKey(1)].status.TaskPending?
  }

  lemma SecondDelete(f: Document)
    requires DocInv(f) && FailedWhileWaiting(f)
    ensures var d := StageDelete(f, None);
            && d.status.Deleting? && !HasOpenLease(d) && d.cycle == 2
            && CleanupKey(2) in d.tasks && d.tasks[CleanupKey(2)] == NewTask(TaskQueued)
            && CleanupKey(1) in d.tasks && d.tasks[CleanupKey(1)].status.TaskPending?
            && forall key :: key in d.tasks && !IsStage(key) ==> key == CleanupKey(1) || key == CleanupKey(2)
  {
    StageDeleteIs(f, None);
    assert BeforeCleanup(f, None) == MarkDeleting(f);
    forall key | key in f.tasks && !IsStage(key)
      ensures key == CleanupKey(1)
    {
      assert TaskInv(key, f.tasks[key]);
      assert key == CleanupKey(key.cycle);
    }
  }

  // ---------------------------------------------------------------------------------------------
  // A deleted document that comes back
  // ---------------------------------------------------------------------------------------------

  /** The exact ways out of DELETED: a take-over of an attempt still running, the failure of a stage run
      still running, and the failure of a clean-up run whose task is out of retries. */
  predicate LeavesDeleted(d: Document, step: DocStep) {
    && Enabled(d, step)
    && match step
       case TakeOverAttempt(a) => AttemptOf(d, a).status.Running? && d.tasks[a.key].status.TaskRunning?
       case Fail(a, code) =>
         AttemptOf(d, a).status.Running? && (code.Some? || d.tasks[a.key].retry == MAX_RETRIES)
       case FailDelete(a) => d.tasks[a.key].retry == MAX_RETRIES
       case _ => false
  }

  lemma DeletedExactly(d: Document, step: DocStep, now: int, seconds: nat, slotFree: bool)
    requires DocInv(d) && d.status.Deleted?
    ensures DocNext(d, step, now, seconds, slotFree).status.Deleted? <==> !LeavesDeleted(d, step)
  {
    if Enabled(d, step) && StepAttempt(step).Some? {
      WorkerDeleted(d, StepAttempt(step).value, step, now, seconds);
    } else if step.TakeOverAttempt? && HasAttempt(d, step.a) {
      assert TaskInv(step.a.key, d.tasks[step.a.key]);
    }
  }

  lemma WorkerDeleted(d: Document, a: AttemptId, step: DocStep, now: int, seconds: nat)
    requires DocInv(d) && d.status.Deleted? && StepAttempt(step) == Some(a) && Enabled(d, step)
    ensures WorkerStep(d, a, step, now, seconds).status.Deleted? <==> !LeavesDeleted(d, step)
  {
    assert TaskInv(a.key, d.tasks[a.key]);
  }

  function Emptied(d: Document): Document {
    d.(parseResults := [], drafts := [], chunks := [], status := Deleted, current := None, error := None)
  }

  function RemovedBy(cleanup: Task, index: nat): Task
    requires index < |cleanup.attempts|
  {
    cleanup.(attempts := cleanup.attempts[index := cleanup.attempts[index].(worker := Removed)])
  }

  lemma RemoveArises(o: Origin, d: Document, retry: nat, cleanup: Task, index: nat)
    requires ArisesFrom(o, With(d, retry, cleanup))
    requires index < |cleanup.attempts| && cleanup.attempts[index].worker.SawLive?
    ensures ArisesFrom(o, With(d.(original := false), retry, RemovedBy(cleanup, index)))
  {
    var a := AttemptId(CleanupKey(d.cycle), index);
    var e := d.(original := false);
    PutAgain(e, a.key, cleanup, RemovedBy(cleanup, index));
    assert With(d, retry, cleanup).(original := false) == With(e, retry, cleanup);
    assert SetWorker(With(e, retry, cleanup), a, Removed) == With(e, retry, RemovedBy(cleanup, index));
    StepArises(o, With(d, retry, cleanup), RemoveOriginal(a), With(e, retry, RemovedBy(cleanup, index)));
  }

  lemma FinishArises(o: Origin, d: Document, retry: nat, cleanup: Task, index: nat)
    requires ArisesFrom(o, With(d, retry, cleanup)) && !HasOpenLease(d)
    requires index < |cleanup.attempts| && cleanup.attempts[index].worker.Removed?
    ensures ArisesFrom(o, With(Emptied(d), retry, EndedRun(cleanup, index, Succeeded).(status := TaskSucceeded)))
  {
    var a := AttemptId(CleanupKey(d.cycle), index);
    var finished := CloseAttempt(cleanup, index, Succeeded).(status := TaskSucceeded);
    var ended := EndedRun(cleanup, index, Succeeded).(status := TaskSucceeded);
    var m := With(Emptied(d), retry, finished);
    PutAgain(Emptied(d), a.key, cleanup, finished);
    assert FinishCleanup(With(d, retry, cleanup), a) == m;
    WorkerIsDone(d, cleanup, index, Succeeded, m);
    PutAgain(Emptied(d), a.key, finished, ended);
    assert SetWorker(m, a, Done) == With(Emptied(d), retry, ended);
    StepArises(o, With(d, retry, cleanup), FinishDelete(a), With(Emptied(d), retry, ended));
  }

  /** One of two overlapping clean-up runs has finished; the other has looked the document up before. */
  const HALF_DONE := Cleanup(TaskSucceeded, 1, [Attempt(1, Succeeded, Done), Attempt(2, Running, SawLive)])

  /** The other has failed, and a third run is under way. */
  const THIRD := Begun(Cleanup(TaskQueued, 2, [Attempt(1, Succeeded, Done), Attempt(2, Errored, Done)]))

  /** From a deletion whose clean-up has just been queued two overlapping runs lead to DELETED. */
  lemma HalfDoneArises(o: Origin, d: Document)
    requires ArisesFrom(o, With(d, d.retry, NewTask(TaskQueued))) && d.status.Deleting? && !HasOpenLease(d)
    ensures ArisesFrom(o, With(Gone(d), 1, HALF_DONE))
  {
    OverlapArises(o, d);
    var t5 := Cleanup(TaskRunning, 1, [Attempt(1, Cancelled, SawLive), Attempt(2, Running, SawLive)]);
    var t6 := Cleanup(TaskRunning, 1, [Attempt(1, Cancelled, Removed), Attempt(2, Running, SawLive)]);
    assert LookedUp(OVERLAP, 1) == t5;
    assert RemovedBy(t5, 0) == t6;
    assert EndedRun(t6, 0, Succeeded).(status := TaskSucceeded) == HALF_DONE;
    LookUpArises(o, d, 1, OVERLAP, 1);
    RemoveArises(o, d, 1, t5, 0);
    FinishArises(o, d.(original := false), 1, t6, 0);
  }

  /** The rows after the clean-up, and no original object. */
  function Gone(d: Document): Document {
    Emptied(d.(original := false))
  }

  lemma ThirdArises(o: Origin, d: Document)
    requires ArisesFrom(o, With(d, 1, HALF_DONE))
    ensures ArisesFrom(o, With(d, 2, THIRD))
  {
    var t7 := Cleanup(TaskQueued, 2, [Attempt(1, Succeeded, Done), Attempt(2, Errored, Done)]);
    assert Requeue(EndedRun(HALF_DONE, 1, Errored)) == t7;
    CleanupFailureArises(o, d, 1, HALF_DONE, 1);
    BeginArises(o, d, 2, t7);
  }

  /** The third run is taken over: the DELETED document is QUEUED. */
  function Back(d: Document): Document {
    With(d, 3, Requeue(CloseAttempt(THIRD, 2, Cancelled))).(status := Queued, error := None)
  }

  lemma BackArises(o: Origin, d: Document)
    requires ArisesFrom(o, With(d, 2, THIRD)) && d.status.Deleted? && !HasOpenLease(d)
    ensures ArisesFrom(o, Back(d))
    ensures RecoverRunningWithoutLease(With(d, 2, THIRD), AttemptId(CleanupKey(d.cycle), 2)) == Back(d)
  {
    var a := AttemptId(CleanupKey(d.cycle), 2);
    PutAgain(d, a.key, THIRD, Requeue(CloseAttempt(THIRD, 2, Cancelled)));
    assert RecoverRunningWithoutLease(With(d, 2, THIRD), a) == Back(d);
    StepArises(o, With(d, 2, THIRD), TakeOverAttempt(a), Back(d));
  }

  /** Two clean-up workers overlap, the lost one finishes, the other fails and a third one begins: when
      that one is taken over, the DELETED document is QUEUED. */
  lemma DeletedCanComeBack()
    ensures exists d, a :: Arises(d) && ComesBack(d, a)
  {
    DeleteArises();
    HalfDoneArises(START, EARLY);
    ThirdArises(START, Gone(EARLY));
    BackArises(START, Gone(EARLY));
    assert ComesBack(With(Gone(EARLY), 2, THIRD), AttemptId(CleanupKey(1), 2));
  }

  /** A DELETED document that the take-over of this attempt sends back to QUEUED. */
  ghost predicate ComesBack(d: Document, a: AttemptId) {
    && d.status.Deleted? && HasAttempt(d, a)
    && Arises(RecoverRunningWithoutLease(d, a)) && RecoverRunningWithoutLease(d, a).status.Queued?
  }

  // ---------------------------------------------------------------------------------------------
  // Retrying a tombstone
  // ---------------------------------------------------------------------------------------------

  /** Whatever runs, DELETE starts a new cycle with a fresh clean-up task; it makes the document DELETING
      exactly when that is not the tombstone, which stays FAILED. */
  lemma DeleteExactly(d: Document, open: Option<AttemptId>)
    requires DocInv(d) && !BeingDeleted(d) && IsOpenAttempt(d, open)
    ensures var e := StageDelete(d, open);
            var key := CleanupKey(d.cycle + 1);
            && (e.status.Deleting? <==> !IsTombstone(d)) && (e.status.Failed? <==> IsTombstone(d))
            && !IsTombstone(e) && e.cycle == d.cycle + 1
            && key in e.tasks && e.tasks[key] == NewTask(if HasOpenLease(e) then TaskPending else TaskQueued)
  {
    StageDeleteIs(d, open);
    MarkedExactly(d, open);
  }

  lemma MarkedExactly(d: Document, open: Option<AttemptId>)
    requires !BeingDeleted(d) && IsOpenAttempt(d, open)
    ensures var e := BeforeCleanup(d, open);
            (e.status.Deleting? <==> !IsTombstone(d)) && (e.status.Failed? <==> IsTombstone(d))
            && e.error.None? && e.cycle == d.cycle + 1
  {
  }

  /** A take-over of a clean-up attempt of a FAILED document makes it QUEUED exactly when the attempt and its
      task are RUNNING, no lease is open and a retry is left. */
  lemma LostRetryExactly(d: Document, a: AttemptId)
    requires DocInv(d) && d.status.Failed? && HasAttempt(d, a) && !IsStage(a.key)
    ensures RecoverRunningWithoutLease(d, a).status.Queued? <==>
            && AttemptOf(d, a).status.Running? && d.tasks[a.key].status.TaskRunning?
            && !HasOpenLease(d) && d.tasks[a.key].retry < MAX_RETRIES
  {
    assert TaskInv(a.key, d.tasks[a.key]);
  }

  function Lost(n: nat): (attempts: seq<Attempt>)
    ensures |attempts| == n && FindRunning(attempts).None? && MaxAttemptNo(attempts) == n
  {
    if n == 0 then []
    else
      var attempts := Lost(n - 1) + [Attempt(n, Cancelled, Working)];
      assert attempts[..|attempts| - 1] == Lost(n - 1);
      attempts
  }

  lemma {:induction false} LossesArise(n: nat)
    requires n <= 3
    ensures Arises(With(EARLY, n, Cleanup(TaskQueued, n, Lost(n))))
  {
    if n == 0 {
      DeleteArises();
    } else {
      LossesArise(n - 1);
      BeginArises(START, EARLY, n - 1, Cleanup(TaskQueued, n - 1, Lost(n - 1)));
      LossArises(START, EARLY, n - 1, Begun(Cleanup(TaskQueued, n - 1, Lost(n - 1))), n - 1);
      LostAgain(n - 1);
    }
  }

  lemma LostAgain(n: nat)
    ensures Requeue(CloseAttempt(Begun(Cleanup(TaskQueued, n, Lost(n))), n, Cancelled))
            == Cleanup(TaskQueued, n + 1, Lost(n + 1))
  {
    assert (Lost(n) + [Attempt(n + 1, Running, Working)])[n := Attempt(n + 1, Cancelled, Working)] == Lost(n + 1);
  }

  /** Tombstones do arise: four clean-up workers in a row are lost. */
  lemma TombstoneArises()
    ensures exists d :: Arises(d) && IsTombstone(d) && IsOpenAttempt(d, None)
  {
    LossesArise(3);
    BeginArises(START, EARLY, 3, Cleanup(TaskQueued, 3, Lost(3)));
    TombstoneFrom(Begun(Cleanup(TaskQueued, 3, Lost(3))));
    FourLost();
    TombstoneIdle(FailTask(CloseAttempt(Begun(Cleanup(TaskQueued, 3, Lost(3))), 3, Cancelled), DELETE_UNFINISHED));
  }

  lemma FourLost()
    ensures CloseAttempt(Begun(Cleanup(TaskQueued, 3, Lost(3))), 3, Cancelled).attempts == Lost(4)
  {
    assert (Lost(3) + [Attempt(4, Running, Working)])[3 := Attempt(4, Cancelled, Working)] == Lost(4);
  }

  lemma TombstoneIdle(cleanup: Task)
    requires FindRunning(cleanup.attempts).None?
    ensures var d := With(ToTombstone(EARLY, 3), 3, cleanup); IsTombstone(d) && IsOpenAttempt(d, None)
  {
  }

  lemma TombstoneFrom(cleanup: Task)
    requires Arises(With(EARLY, 3, cleanup)) && cleanup.status.TaskRunning?
    requires |cleanup.attempts| == 4 && cleanup.attempts[3].status.Running? && cleanup.retry == cleanup.maxRetries == 3
    ensures Arises(With(ToTombstone(EARLY, 3), 3, FailTask(CloseAttempt(cleanup, 3, Cancelled), DELETE_UNFINISHED)))
  {
    var a := AttemptId(CleanupKey(1), 3);
    var failed := FailTask(CloseAttempt(cleanup, 3, Cancelled), DELETE_UNFINISHED);
    PutAgain(ToTombstone(EARLY, 3), a.key, cleanup, failed);
    assert RecoverRunningWithoutLease(With(EARLY, 3, cleanup), a) == With(ToTombstone(EARLY, 3), 3, failed);
    StepArises(START, With(EARLY, 3, cleanup), TakeOverAttempt(a), With(ToTombstone(EARLY, 3), 3, failed));
  }

  /** From there DELETE and the loss of the next worker lead to QUEUED, in a cycle of deletion. */
  lemma RetryCanRevive()
    ensures exists d, e :: Arises(d) && IsTombstone(d) && Arises(e) && e.status.Queued? && e.cycle == d.cycle + 1
  {
    TombstoneArises();
    var d :| Arises(d) && IsTombstone(d) && IsOpenAttempt(d, None);
    ArisesInv(d);
    var d1 := StageDelete(d, None);
    DeletedArises(d, None);
    DeleteExactly(d, None);
    NoLeaseLeft(d);
    assert d1.tasks[CleanupKey(d1.cycle) := NewTask(TaskQueued)] == d1.tasks;
    assert With(d1, d1.retry, NewTask(TaskQueued)) == d1;
    BeginArises(START, d1, d1.retry, NewTask(TaskQueued));
    LostAfterRetry(d1);
  }

  lemma NoLeaseLeft(d: Document)
    requires DocInv(d) && !BeingDeleted(d) && IsOpenAttempt(d, None)
    ensures !HasOpenLease(StageDelete(d, None))
  {
    StageDeleteIs(d, None);
  }

  lemma LostAfterRetry(d: Document)
    requires Arises(With(d, d.retry, Begun(NewTask(TaskQueued)))) && d.status.Failed? && !HasOpenLease(d)
    ensures exists e :: Arises(e) && e.status.Queued? && e.cycle == d.cycle
  {
    var d2 := With(d, d.retry, Begun(NewTask(TaskQueued)));
    var a := AttemptId(CleanupKey(d.cycle), 0);
    ArisesInv(d2);
    LostRetryExactly(d2, a);
    StepArises(START, d2, TakeOverAttempt(a), RecoverRunningWithoutLease(d2, a));
  }

  // ---------------------------------------------------------------------------------------------
  // A late admission
  // ---------------------------------------------------------------------------------------------

  predicate IsRunning(d: Document, kind: TaskType) {
    StageKey(kind) in d.tasks && d.tasks[StageKey(kind)].status.TaskRunning?
  }

  /** A DELETE while the parse attempt runs waits for the lease of that attempt. */
  lemma DeletedParsingArises(lease: Lease)
    requires IsOpen(lease) && Arises(InParse(Processing, Begun(NewTask(TaskQueued)), [lease]))
    ensures Arises(DeletedParsing(lease))
  {
    DeletedParsingIs(lease);
    DeletedArises(InParse(Processing, Begun(NewTask(TaskQueued)), [lease]), Some(PARSE_RUN));
  }

  lemma DeletedParsingIs(lease: Lease)
    requires IsOpen(lease)
    ensures var d := InParse(Processing, Begun(NewTask(TaskQueued)), [lease]);
            IsOpenAttempt(d, Some(PARSE_RUN)) && StageDelete(d, Some(PARSE_RUN)) == DeletedParsing(lease)
  {
    var d := InParse(Processing, Begun(NewTask(TaskQueued)), [lease]);
    var d1 := d.(status := Deleting, cycle := 1, current := Some(DeleteCleanup));
    assert CancelUnstarted(d.tasks) == d.tasks;
    assert BeforeCleanup(d, Some(PARSE_RUN)) == d1;
  }

  function DeletedParsing(lease: Lease): Document {
    PutTask(InParse(Deleting, Begun(NewTask(TaskQueued)), [lease]).(cycle := 1, current := Some(DeleteCleanup)),
            CleanupKey(1), NewTask(TaskPending))
  }

  /** The parse run fails after the DELETE: the document is FAILED without being the tombstone, and its
      clean-up stays PENDING with no lease left to wait for. */
  lemma FailureCanEndDeletion()
    ensures exists d :: Arises(d) && FailedWhileWaiting(d)
  {
    ParsingArises();
    var now :| Arises(InParse(Processing, Begun(NewTask(TaskQueued)), Held(Parse, now)));
    var lease := Lease(StageKey(Parse), now, now, None);
    DeletedParsingArises(lease);
    FailedParsing(lease);
    FailedArises(lease);
  }

  lemma FailedArises(lease: Lease)
    requires Arises(DeletedParsing(lease))
    ensures Arises(FailedRun(lease))
  {
    StepArises(START, DeletedParsing(lease), Fail(PARSE_RUN, Some(PARSE_FAILED)), FailedRun(lease));
  }

  function FailedRun(lease: Lease): Document {
    SetWorker(FailStage(DeletedParsing(lease), PARSE_RUN, Some(PARSE_FAILED)), PARSE_RUN, Done)
  }

  lemma FailedParsing(lease: Lease)
    requires IsOpen(lease)
    ensures FailedWhileWaiting(FailedRun(lease))
  {
    assert FailStage(DeletedParsing(lease), PARSE_RUN, Some(PARSE_FAILED)).leases == [lease.(released := Some(ByFailure))];
  }

  /** The chunk task after its first attempt was lost. */
  const CHUNK_LOST := Task(TaskQueued, 1, MAX_RETRIES, None, 0, None, [Attempt(1, Cancelled, Working)])

  /** The chunk worker loses its lease, the parse message is delivered again and takes a lease although
      parse has succeeded, the chunk task begins again, and the second lease expires as well: its recovery
      requeues the succeeded parse task, and two stages run. */
  lemma TwoStagesCanRun()
    ensures exists d :: Arises(d) && HasOpenLease(d) && IsRunning(d, Parse) && IsRunning(d, Chunk)
  {
    ChunkingArises();
    var now :| Arises(InChunk(Processing, 0, PARSED, Begun(NewTask(TaskQueued)),
                              Held(Chunk, now)));
    var released := [Lease(StageKey(Chunk), now, now, Some(ByRecovery))];
    LostChunkArises(now);
    var d := InChunk(Queued, 1, PARSED, CHUNK_LOST, released);
    AdmitArises(d);
    var later :| Arises(AdmitParse(d, later, 0, true));
    var leases := released + [Lease(StageKey(Parse), later, later, None)];
    assert AdmitParse(d, later, 0, true) == InChunk(Processing, 1, PARSED, CHUNK_LOST, leases);
    SecondRecoveryArises(leases);
    TwoStagesFrom(leases[1 := leases[1].(released := Some(ByRecovery))]);
  }

  lemma LostChunkArises(now: int)
    requires Arises(InChunk(Processing, 0, PARSED, Begun(NewTask(TaskQueued)), Held(Chunk, now)))
    ensures Arises(InChunk(Queued, 1, PARSED, CHUNK_LOST, [Lease(StageKey(Chunk), now, now, Some(ByRecovery))]))
  {
    var d := InChunk(Processing, 0, PARSED, Begun(NewTask(TaskQueued)), Held(Chunk, now));
    ExpiryArises(START, d, 0);
    var run := Begun(NewTask(TaskQueued)).attempts;
    assert run[0 := run[0].(status := Cancelled)] == CHUNK_LOST.attempts;
    assert d.leases[0 := d.leases[0].(released := Some(ByRecovery))] == [Lease(StageKey(Chunk), now, now, Some(ByRecovery))];
    assert RecoverExpiredLease(d, 0)
           == InChunk(Queued, 1, PARSED, CHUNK_LOST, [Lease(StageKey(Chunk), now, now, Some(ByRecovery))]);
  }

  lemma SecondRecoveryArises(leases: seq<Lease>)
    requires Arises(InChunk(Processing, 1, PARSED, CHUNK_LOST, leases))
    requires |leases| == 2 && IsOpen(leases[1]) && leases[1].task == StageKey(Parse)
    ensures Arises(InChunk(Queued, 1, Requeue(PARSED), Begun(CHUNK_LOST),
                           leases[1 := leases[1].(released := Some(ByRecovery))]))
  {
    var d := InChunk(Processing, 1, PARSED, CHUNK_LOST, leases);
    var e := InChunk(Processing, 1, PARSED, Begun(CHUNK_LOST), leases);
    assert BeginAttempt(d, StageKey(Chunk)) == e;
    StepArises(START, d, Begin(StageKey(Chunk)), e);
    ExpiryArises(START, e, 1);
    RecoveryRequeuesParse(Begun(CHUNK_LOST), leases);
  }

  /** The recovery does not ask whether the task the lease names has succeeded. */
  lemma RecoveryRequeuesParse(chunk: Task, leases: seq<Lease>)
    requires |leases| == 2 && IsOpen(leases[1]) && leases[1].task == StageKey(Parse)
    ensures RecoverExpiredLease(InChunk(Processing, 1, PARSED, chunk, leases), 1)
            == InChunk(Queued, 1, Requeue(PARSED), chunk, leases[1 := leases[1].(released := Some(ByRecovery))])
  {
    assert CancelRunningAttempt(PARSED) == PARSED;
  }

  /** The parse message is delivered once more and takes a third lease. */
  lemma TwoStagesFrom(leases: seq<Lease>)
    requires Arises(InChunk(Queued, 1, Requeue(PARSED), Begun(CHUNK_LOST), leases))
    requires |leases| == 2 && !IsOpen(leases[0]) && !IsOpen(leases[1])
    ensures exists d :: Arises(d) && HasOpenLease(d) && IsRunning(d, Parse) && IsRunning(d, Chunk)
  {
    var d := InChunk(Queued, 1, Requeue(PARSED), Begun(CHUNK_LOST), leases);
    AdmitArises(d);
    var now :| Arises(AdmitParse(d, now, 0, true));
    var held := leases + [Lease(StageKey(Parse), now, now, None)];
    assert AdmitParse(d, now, 0, true) == InChunk(Processing, 1, Requeue(PARSED), Begun(CHUNK_LOST), held);
    ParseBegins(held);
  }

  lemma ParseBegins(leases: seq<Lease>)
    requires Arises(InChunk(Processing, 1, Requeue(PARSED), Begun(CHUNK_LOST), leases))
    requires |leases| == 3 && IsOpen(leases[2])
    ensures exists d :: Arises(d) && HasOpenLease(d) && IsRunning(d, Parse) && IsRunning(d, Chunk)
  {
    var d := InChunk(Processing, 1, Requeue(PARSED), Begun(CHUNK_LOST), leases);
    var e := InChunk(Processing, 1, Begun(Requeue(PARSED)), Begun(CHUNK_LOST), leases);
    assert BeginAttempt(d, StageKey(Parse)) == e;
    StepArises(START, d, Begin(StageKey(Parse)), e);
    assert IsRunning(e, Parse) && IsRunning(e, Chunk);
  }

  // ---------------------------------------------------------------------------------------------
  // A recovered stage
  // ---------------------------------------------------------------------------------------------

  /** The chunk task after its second attempt was refused for want of a lease. */
  const CHUNK_REFUSED := Task(TaskCancelled, 1, MAX_RETRIES, None, 0, None,
                              [Attempt(1, Cancelled, Working), Attempt(2, Cancelled, Done)])

  /** The chunk worker loses its lease and recovery requeues the task; its next attempt finds no lease and
      cancels the task, and the document stays QUEUED with nothing left that could complete it. */
  lemma RecoveredChunkArises()
    ensures exists d :: Arises(d) && d.status.Queued? && Abandoned(d, Chunk) && d.tasks[StageKey(Chunk)] == CHUNK_REFUSED
  {
    ChunkingArises();
    var now :| Arises(InChunk(Processing, 0, PARSED, Begun(NewTask(TaskQueued)),
                              Held(Chunk, now)));
    LostChunkArises(now);
    RefusedChunkArises([Lease(StageKey(Chunk), now, now, Some(ByRecovery))]);
  }

  const CHUNK_SECOND := AttemptId(StageKey(Chunk), 1)

  /** The chunk task while its second attempt has been refused and has not converged. */
  const CHUNK_WAITS := CHUNK_REFUSED.(status := TaskRunning,
                                      attempts := [Attempt(1, Cancelled, Working), Attempt(2, Running, Rejected)])

  lemma RejectedChunkArises(leases: seq<Lease>)
    requires Arises(InChunk(Queued, 1, PARSED, CHUNK_LOST, leases)) && |leases| == 1 && !IsOpen(leases[0])
    ensures Arises(InChunk(Queued, 1, PARSED, CHUNK_WAITS, leases))
  {
    var begun := Begun(CHUNK_LOST);
    var d := InChunk(Queued, 1, PARSED, CHUNK_LOST, leases);
    var e := InChunk(Queued, 1, PARSED, begun, leases);
    var f := InChunk(Queued, 1, PARSED, CHUNK_WAITS, leases);
    assert BeginAttempt(d, StageKey(Chunk)) == e;
    StepArises(START, d, Begin(StageKey(Chunk)), e);
    assert begun.attempts[1 := Attempt(2, Running, Rejected)] == CHUNK_WAITS.attempts;
    assert SetWorker(e, CHUNK_SECOND, Rejected) == f;
    StepArises(START, e, CheckLease(CHUNK_SECOND), f);
  }

  lemma RefusedChunkArises(leases: seq<Lease>)
    requires Arises(InChunk(Queued, 1, PARSED, CHUNK_LOST, leases)) && |leases| == 1 && !IsOpen(leases[0])
    ensures Arises(InChunk(Queued, 1, PARSED, CHUNK_REFUSED, leases))
    ensures Abandoned(InChunk(Queued, 1, PARSED, CHUNK_REFUSED, leases), Chunk)
  {
    RejectedChunkArises(leases);
    ChunkConverges(leases, CHUNK_WAITS);
    StepArises(START, InChunk(Queued, 1, PARSED, CHUNK_WAITS, leases), Converge(CHUNK_SECOND),
               InChunk(Queued, 1, PARSED, CHUNK_REFUSED, leases));
  }

  lemma ChunkConverges(leases: seq<Lease>, rejected: Task)
    requires rejected == CHUNK_REFUSED.(status := TaskRunning,
                                        attempts := [Attempt(1, Cancelled, Working), Attempt(2, Running, Rejected)])
    ensures var a := AttemptId(StageKey(Chunk), 1);
            SetWorker(ConvergeCancelled(InChunk(Queued, 1, PARSED, rejected, leases), a), a, Done)
            == InChunk(Queued, 1, PARSED, CHUNK_REFUSED, leases)
  {
    var a := AttemptId(StageKey(Chunk), 1);
    var closed := rejected.attempts[1 := Attempt(2, Cancelled, Rejected)];
    assert closed[1 := Attempt(2, Cancelled, Done)] == CHUNK_REFUSED.attempts;
    var m := InChunk(Queued, 1, PARSED, rejected.(status := TaskCancelled, attempts := closed), leases);
    assert ConvergeCancelled(InChunk(Queued, 1, PARSED, rejected, leases), a) == m;
  }

  /** Before it converges the refused attempt can be taken over, and then the document can be COMPLETED after all. */
  ghost predicate CompletesAfterRefusal(run: seq<Event>, more: seq<Event>) {
    && Reached(SMALL, run).docs.Keys == {0} && Doomed(Reached(SMALL, run).docs[0], Chunk, true)
    && Reached(SMALL, run).docs[0].tasks[StageKey(Chunk)] == CHUNK_WAITS
    && 0 in Reached(SMALL, run + more).docs && Reached(SMALL, run + more).docs[0].status.Completed?
  }

  lemma TakenOverCanComplete()
    ensures exists run, more :: CompletesAfterRefusal(run, more)
  {
    ChunkingArises();
    var now :| Arises(InChunk(Processing, 0, PARSED, Begun(NewTask(TaskQueued)), Held(Chunk, now)));
    LostChunkArises(now);
    var leases := [Lease(StageKey(Chunk), now, now, Some(ByRecovery))];
    RejectedChunkArises(leases);
    var d := InChunk(Queued, 1, PARSED, CHUNK_WAITS, leases);
    var run :| Leads(START, run, d);
    WaitsIsRefused(leases);
    assert Reached(SMALL, run).docs[0] == d && Reached(SMALL, run).docs.Keys == {0};
    TakenOverCompletes(SMALL, run, 0, Chunk, TakeOverAttempt(CHUNK_SECOND));
    CompletesLater(run);
  }

  lemma WaitsIsRefused(leases: seq<Lease>)
    requires |leases| == 1 && !IsOpen(leases[0])
    ensures var d := InChunk(Queued, 1, PARSED, CHUNK_WAITS, leases);
            d.cycle == 0 && Doomed(d, Chunk, true) && Requeues(d, TakeOverAttempt(CHUNK_SECOND), Chunk)
  {
  }

  lemma CompletesLater(run: seq<Event>)
    requires Reached(SMALL, run).docs.Keys == {0} && Doomed(Reached(SMALL, run).docs[0], Chunk, true)
    requires Reached(SMALL, run).docs[0].tasks[StageKey(Chunk)] == CHUNK_WAITS
    requires var t := Reached(SMALL, run + [On(0, TakeOverAttempt(CHUNK_SECOND))]);
             0 in t.docs && CanComplete(SMALL, t, 0, t.docs[0])
    ensures exists more :: CompletesAfterRefusal(run, more)
  {
    var one := [On(0, TakeOverAttempt(CHUNK_SECOND))];
    var t := Reached(SMALL, run + one);
    var rest :| AllByItself(SMALL, t, 0, t.docs[0], rest) && CompletesBy(SMALL, t, 0, rest);
    RunConcat(SMALL, EmptySystem, run + one, rest);
    assert run + one + rest == run + (one + rest);
    assert CompletesAfterRefusal(run, one + rest);
  }

  // ---------------------------------------------------------------------------------------------
  // The heartbeat of a lost worker
  // ---------------------------------------------------------------------------------------------

  /** A lost embed worker whose next heartbeat would move a lease that belongs to the parse task. */
  ghost predicate MovesForeignLease(d: Document, a: AttemptId) {
    && Enabled(d, Renew(a)) && !AttemptOf(d, a).status.Running? && !BeingDeleted(d)
    && HasOpenLease(d) && d.leases[FindOpen(d.leases).value].task == StageKey(Parse)
  }

  /** The embed worker loses its lease while it computes a batch, and a redelivered parse message takes the next. */
  lemma LostHeartbeatArises()
    ensures exists d, a :: Arises(d) && MovesForeignLease(d, a)
  {
    ChunkingArises();
    BegunFresh();
    var now :| Arises(InChunk(Processing, 0, PARSED, Begun(NewTask(TaskQueued)),
                              Held(Chunk, now)));
    EmbedStarts(now);
    TextHasPieces();
    var d := InEmbed(now, Ended(|PIECES|, Done), Busy(Loaded(PIECES, 0)));
    ExpiryArises(START, d, 0);
    var e := RecoverExpiredLease(d, 0);
    LostEmbed(now);
    AdmitArises(e);
    var later :| Arises(AdmitParse(e, later, 0, true));
    assert MovesForeignLease(AdmitParse(e, later, 0, true), EMBED_RUN);
  }

  lemma LostEmbed(now: int)
    ensures var e := RecoverExpiredLease(InEmbed(now, Ended(|PIECES|, Done), Busy(Loaded(PIECES, 0))), 0);
            && e.status.Queued? && !HasOpenLease(e) && HasAttempt(e, EMBED_RUN)
            && AttemptOf(e, EMBED_RUN) == Attempt(1, Cancelled, Loaded(PIECES, 0))
  {
  }
}
