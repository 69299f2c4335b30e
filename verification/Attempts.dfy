/** Tasks and attempts along every run: coupling, the bound on attempts, the order of fencing tokens,
    and the history of stages. */
module Attempts {
  import opened Rows
  import opened Transactions
  import opened Protocol
  import opened Shape
  import opened Invariant
  import opened Runs

  // ---------------------------------------------------------------------------------------------
  // Coupling
  // ---------------------------------------------------------------------------------------------

  function RunningCount(attempts: seq<Attempt>): nat {
    if attempts == [] then 0
    else RunningCount(attempts[..|attempts| - 1]) + if attempts[|attempts| - 1].status.Running? then 1 else 0
  }

  lemma {:induction false} NoneRunning(attempts: seq<Attempt>)
    requires forall i :: 0 <= i < |attempts| ==> !attempts[i].status.Running?
    ensures RunningCount(attempts) == 0
  {
    if attempts != [] {
      NoneRunning(attempts[..|attempts| - 1]);
    }
  }

  /** In every reachable state a stage task is RUNNING exactly when one of its attempts is, and then
      exactly one. */
  lemma TaskAttemptCoupling(c: Config, run: seq<Event>, id: nat, key: TaskKey)
    requires id in Reached(c, run).docs && key in Reached(c, run).docs[id].tasks && IsStage(key)
    ensures var task := Reached(c, run).docs[id].tasks[key];
            && (task.status.TaskRunning? <==> RunningCount(task.attempts) == 1)
            && (!task.status.TaskRunning? <==> RunningCount(task.attempts) == 0)
  {
    Reachable(c, run);
    var task := Reached(c, run).docs[id].tasks[key];
    assert TaskInv(key, task);
    if task.attempts != [] {
      NoneRunning(task.attempts[..|task.attempts| - 1]);
    }
  }

  // ---------------------------------------------------------------------------------------------
  // The bound on attempts
  // ---------------------------------------------------------------------------------------------

  /** Attempts are numbered 1..n with n <= retry + 1 <= 4, for stage and for clean-up tasks. */
  lemma AttemptNumbers(c: Config, run: seq<Event>, id: nat, key: TaskKey)
    requires id in Reached(c, run).docs && key in Reached(c, run).docs[id].tasks
    ensures var task := Reached(c, run).docs[id].tasks[key];
            && (forall i :: 0 <= i < |task.attempts| ==> task.attempts[i].no == i + 1)
            && |task.attempts| <= task.retry + 1 <= MAX_RETRIES + 1
  {
    Reachable(c, run);
    assert TaskInv(key, Reached(c, run).docs[id].tasks[key]);
  }

  function AttemptCount(s: System, id: nat, key: TaskKey): nat {
    if id in s.docs && key in s.docs[id].tasks then |s.docs[id].tasks[key].attempts| else 0
  }

  /** The event begins an attempt of task `key` of document `id`. */
  predicate Begins(s: System, event: Event, id: nat, key: TaskKey) {
    event == On(id, Begin(key)) && id in s.docs && CanBegin(s.docs[id], key)
  }

  /** How often `begin_attempt` succeeds for one task during a run. */
  function BeginCount(c: Config, run: seq<Event>, id: nat, key: TaskKey): nat {
    if run == [] then 0
    else
      BeginCount(c, run[..|run| - 1], id, key)
      + if Begins(Reached(c, run[..|run| - 1]), run[|run| - 1], id, key) then 1 else 0
  }

  lemma EventAttempts(c: Config, s: System, event: Event, id: nat, key: TaskKey)
    ensures AttemptCount(Next(c, s, event), id, key)
            == AttemptCount(s, id, key) + if Begins(s, event, id, key) then 1 else 0
  {
    if event.On? && event.id in s.docs && !event.step.Begin? {
      StepAttempts(s.docs[event.id], event.step, s.now, c.leaseSeconds, SlotFree(c, s, event.id));
    }
  }

  lemma {:induction false} BeginCountIsAttemptCount(c: Config, run: seq<Event>, id: nat, key: TaskKey)
    ensures BeginCount(c, run, id, key) == AttemptCount(Reached(c, run), id, key)
  {
    if run != [] {
      BeginCountIsAttemptCount(c, run[..|run| - 1], id, key);
      EventAttempts(c, Reached(c, run[..|run| - 1]), run[|run| - 1], id, key);
    }
  }

  /** However long the run, however often messages are delivered and scans run: at most four attempts
      of one task begin, and at most sixteen of all stage tasks of a document. */
  lemma TerminationBound(c: Config, run: seq<Event>, id: nat)
    ensures forall key :: BeginCount(c, run, id, key) <= MAX_RETRIES + 1
    ensures BeginCount(c, run, id, StageKey(Parse)) + BeginCount(c, run, id, StageKey(Chunk))
            + BeginCount(c, run, id, StageKey(Embed)) + BeginCount(c, run, id, StageKey(Finalize)) <= 16
  {
    forall key
      ensures BeginCount(c, run, id, key) <= MAX_RETRIES + 1
    {
      BeginCountIsAttemptCount(c, run, id, key);
      if id in Reached(c, run).docs && key in Reached(c, run).docs[id].tasks {
        AttemptNumbers(c, run, id, key);
      }
    }
  }

  // ---------------------------------------------------------------------------------------------
  // Fencing tokens
  // ---------------------------------------------------------------------------------------------

  /** The worker's transaction is accepted: it commits and is not an empty replay. */
  predicate Accepts(d: Document, step: DocStep) {
    Enabled(d, step) &&
    match step
    case SaveParse(a) => CommitParse(d, a, AttemptOf(d, a).worker.text).Committed?
    case SaveDrafts(a) => CommitChunk(d, a, Pieces(AttemptOf(d, a).worker.text)).Committed?
    case SaveChunks(a) => WriteChunks(d, a, AttemptOf(d, a).worker.drafts).Committed?
    case FinishEmbed(a) =>
      var n := AttemptOf(d, a).worker.count; CompleteStage(d, a, Some(n), Some(n), None).Committed?
    case Publish(a) => CompleteStage(d, a, None, None, Some(AttemptOf(d, a).worker.count)).Committed?
    case Fail(a, code) => FailStage(d, a, code) != d
    case Converge(a) => ConvergeCancelled(d, a) != d
    case _ => false
  }

  /** Only the newest attempt of a stage task, while it is running, gets anything accepted. */
  lemma AcceptedIsNewest(d: Document, step: DocStep)
    requires DocInv(d) && Accepts(d, step)
    ensures StepAttempt(step).Some?
    ensures var a := StepAttempt(step).value;
            HasAttempt(d, a) && AttemptOf(d, a).status.Running? && AttemptOf(d, a).no == |d.tasks[a.key].attempts|
  {
    var a := StepAttempt(step).value;
    assert AttemptOf(d, a).status.Running?;
    assert TaskInv(a.key, d.tasks[a.key]);
  }

  /** The fencing token a worker's step carries: the number of its attempt. */
  function Token(d: Document, step: DocStep): nat {
    match StepAttempt(step)
    case Some(a) => if HasAttempt(d, a) then AttemptOf(d, a).no else 0
    case None => 0
  }

  function TaskOf(step: DocStep): Option<TaskKey> {
    match StepAttempt(step)
    case Some(a) => Some(a.key)
    case None => None
  }

  lemma TokensInOrder(d: Document, e: Document, first: DocStep, second: DocStep)
    requires DocInv(d) && DocInv(e) && Evolves(d, e) && Accepts(d, first) && Accepts(e, second)
    requires TaskOf(first) == TaskOf(second)
    ensures Token(d, first) <= Token(e, second)
  {
    AcceptedIsNewest(d, first);
    AcceptedIsNewest(e, second);
    var key := TaskOf(first).value;
    assert TaskEvolves(key, d.tasks[key], e.tasks[key]);
  }

  /** Event `i` of the run is a step on document `id` that is accepted. */
  predicate AcceptedAt(c: Config, run: seq<Event>, i: nat, id: nat, step: DocStep) {
    && i < |run| && run[i] == On(id, step)
    && id in Reached(c, run[..i]).docs && Accepts(Reached(c, run[..i]).docs[id], step)
  }

  /** Over any run the accepted writes and transitions of a task carry non-decreasing attempt numbers. */
  lemma FencingOrder(c: Config, run: seq<Event>, i: nat, j: nat, id: nat, first: DocStep, second: DocStep)
    requires i <= j && AcceptedAt(c, run, i, id, first) && AcceptedAt(c, run, j, id, second)
    requires TaskOf(first) == TaskOf(second)
    ensures Token(Reached(c, run[..i]).docs[id], first) <= Token(Reached(c, run[..j]).docs[id], second)
  {
    DocumentEvolves(c, run, i, j, id);
    TokensInOrder(Reached(c, run[..i]).docs[id], Reached(c, run[..j]).docs[id], first, second);
  }

  /** A stage attempt that left RUNNING never changes its number or status again. */
  lemma ClosedForEver(c: Config, run: seq<Event>, i: nat, id: nat, a: AttemptId)
    requires i <= |run| && IsStage(a.key)
    requires id in Reached(c, run[..i]).docs && HasAttempt(Reached(c, run[..i]).docs[id], a)
    requires !AttemptOf(Reached(c, run[..i]).docs[id], a).status.Running?
    ensures id in Reached(c, run).docs && HasAttempt(Reached(c, run).docs[id], a)
    ensures AttemptOf(Reached(c, run).docs[id], a).status == AttemptOf(Reached(c, run[..i]).docs[id], a).status
    ensures AttemptOf(Reached(c, run).docs[id], a).no == AttemptOf(Reached(c, run[..i]).docs[id], a).no
  {
    LaterEvolves(c, run, i);
    var d := Reached(c, run[..i]).docs[id];
    var e := Reached(c, run).docs[id];
    assert TaskEvolves(a.key, d.tasks[a.key], e.tasks[a.key]);
  }

  /** The rows of `d` after a heartbeat for task `key`: the open lease is prolonged and moved to that task. */
  function Renewed(d: Document, key: TaskKey, now: int, seconds: nat): Document
    requires HasOpenLease(d)
  {
    var i := FindOpen(d.leases).value;
    d.(leases := d.leases[i := d.leases[i].(heartbeat := now, expires := now + seconds, task := key)])
  }

  lemma SameWorker(d: Document, a: AttemptId)
    requires HasAttempt(d, a)
    ensures SetWorker(d, a, AttemptOf(d, a).worker) == d
  {
    var task := d.tasks[a.key];
    assert task.attempts[a.index := task.attempts[a.index].(worker := AttemptOf(d, a).worker)] == task.attempts;
    assert d.tasks[a.key := task] == d.tasks;
  }

  /** What a lost worker that comes back writes: nothing, or one heartbeat. */
  ghost predicate ChangesNothing(d: Document, a: AttemptId, step: DocStep, now: int, seconds: nat, e: Document)
    requires HasAttempt(d, a)
  {
    exists worker ::
      || e == SetWorker(d, a, worker)
      || (step.Renew? && HasOpenLease(d) && !BeingDeleted(d) && e == SetWorker(Renewed(d, a.key, now, seconds), a, worker))
  }

  /** A lost stage worker that comes back changes no row, whatever step it takes; the one exception is the
      heartbeat, which prolongs the open lease of a document that is not being deleted. */
  lemma LostWorkerChangesNothing(d: Document, step: DocStep, now: int, seconds: nat, slotFree: bool)
    requires StepAttempt(step).Some? && HasAttempt(d, StepAttempt(step).value)
    requires IsStage(StepAttempt(step).value.key) && !AttemptOf(d, StepAttempt(step).value).status.Running?
    ensures ChangesNothing(d, StepAttempt(step).value, step, now, seconds, DocNext(d, step, now, seconds, slotFree))
  {
    var a := StepAttempt(step).value;
    if step.Renew? && Enabled(d, step) {
      LostHeartbeat(d, a, now, seconds, slotFree);
    } else {
      LostStep(d, step, now, seconds, slotFree);
    }
  }

  lemma LostStep(d: Document, step: DocStep, now: int, seconds: nat, slotFree: bool)
    requires StepAttempt(step).Some? && HasAttempt(d, StepAttempt(step).value)
    requires IsStage(StepAttempt(step).value.key) && !AttemptOf(d, StepAttempt(step).value).status.Running?
    requires !(step.Renew? && Enabled(d, step))
    ensures exists worker :: DocNext(d, step, now, seconds, slotFree) == SetWorker(d, StepAttempt(step).value, worker)
  {
    var a := StepAttempt(step).value;
    var e := DocNext(d, step, now, seconds, slotFree);
    SameWorker(d, a);
    assert e == SetWorker(d, a, AttemptOf(e, a).worker) by {
      if Enabled(d, step) {
        match step
        case ReadOriginal(_, _) =>
        case SaveParse(_) =>
        case CheckLease(_) =>
        case ReadText(_) =>
        case SaveDrafts(_) =>
        case LoadDrafts(_) =>
        case SaveChunks(_) =>
        case FinishEmbed(_) =>
        case ReadCheckpoint(_) =>
        case Publish(_) =>
        case Fail(_, _) =>
        case Converge(_) =>
      }
    }
  }

  /** The heartbeat of a lost embed worker is not fenced.  Exactly when a lease is open and the document is not
      being deleted it is accepted, and then the open lease belongs to the embed task, whoever held it. */
  lemma LostHeartbeat(d: Document, a: AttemptId, now: int, seconds: nat, slotFree: bool)
    requires HasAttempt(d, a) && Enabled(d, Renew(a)) && !AttemptOf(d, a).status.Running?
    ensures var e := DocNext(d, Renew(a), now, seconds, slotFree);
            && HasAttempt(e, a) && (!AttemptOf(e, a).worker.Rejected? <==> HasOpenLease(d) && !BeingDeleted(d))
            && (HasOpenLease(d) && !BeingDeleted(d) ==>
                  e == SetWorker(Renewed(d, a.key, now, seconds), a, NextBatch(AttemptOf(d, a).worker)))
            && (!(HasOpenLease(d) && !BeingDeleted(d)) ==> e == SetWorker(d, a, Rejected))
    ensures HasOpenLease(d) ==>
              var e := Renewed(d, a.key, now, seconds);
              FindOpen(e.leases) == FindOpen(d.leases) && e.leases[FindOpen(d.leases).value].task == a.key
  {
    if HasOpenLease(d) {
      var i := FindOpen(d.leases).value;
      OpenStays(d.leases, d.leases[i].(heartbeat := now, expires := now + seconds, task := a.key));
    }
  }

  /** So the next recovery of that lease requeues or fails the embed task, whatever its status, releases the
      lease and leaves the task that was working under it as it is. */
  lemma HeartbeatRedirects(d: Document, key: TaskKey, now: int, seconds: nat)
    requires DocInv(d) && HasOpenLease(d) && !BeingDeleted(d) && key in d.tasks && IsStage(key)
    ensures var i := FindOpen(d.leases).value;
            var e := RecoverExpiredLease(Renewed(d, key, now, seconds), i);
            && !HasOpenLease(e) && key in e.tasks
            && e.status == (if d.tasks[key].retry < MAX_RETRIES then Queued else Failed)
            && e.tasks[key].status == (if d.tasks[key].retry < MAX_RETRIES then TaskQueued else TaskFailed)
            && forall other :: other != key && other in d.tasks ==> other in e.tasks && e.tasks[other] == d.tasks[other]
  {
    assert TaskInv(key, d.tasks[key]);
  }

  // ---------------------------------------------------------------------------------------------
  // The history of stages
  // ---------------------------------------------------------------------------------------------

  function Rank(kind: TaskType): nat {
    match kind
    case Parse => 0
    case Chunk => 1
    case Embed => 2
    case Finalize => 3
    case DeleteCleanup => 4
  }

  /** A stage task exists only when every earlier stage has a succeeded attempt; COMPLETED needs a
      succeeded attempt of all four. */
  lemma StageHistory(c: Config, run: seq<Event>, id: nat, kind: TaskType, earlier: TaskType)
    requires id in Reached(c, run).docs
    requires Rank(earlier) < 4
    requires (Rank(earlier) < Rank(kind) < 4 && StageKey(kind) in Reached(c, run).docs[id].tasks)
             || Reached(c, run).docs[id].status.Completed?
    ensures HasSucceeded(Reached(c, run).docs[id], earlier)
  {
    Reachable(c, run);
  }

  lemma CompletedAttemptEnded(d: Document, a: AttemptId, total: Option<nat>, processed: Option<nat>,
                              expected: Option<nat>)
    requires HasAttempt(d, a) && IsStage(a.key) && CompleteStage(d, a, total, processed, expected).Committed?
    ensures var m := CompleteStage(d, a, total, processed, expected).document;
            HasAttempt(m, a) && !AttemptOf(m, a).status.Running?
  {
    if a.key.kind.Finalize? {
      PublishedAttemptEnded(d, a, expected);
    }
  }

  lemma PublishedAttemptEnded(d: Document, a: AttemptId, expected: Option<nat>)
    requires HasAttempt(d, a)
    ensures var m := CompleteFinalize(d, a, expected); HasAttempt(m, a) && !AttemptOf(m, a).status.Running?
  {
  }

  /** Completing a stage once more, however much later and with whatever result, is an empty replay. */
  lemma ReplayChangesNothing(d: Document, e: Document, a: AttemptId,
                             total: Option<nat>, processed: Option<nat>, expected: Option<nat>,
                             total': Option<nat>, processed': Option<nat>, expected': Option<nat>)
    requires HasAttempt(d, a) && IsStage(a.key)
    requires CompleteStage(d, a, total, processed, expected).Committed?
    requires Evolves(CompleteStage(d, a, total, processed, expected).document, e)
    ensures HasAttempt(e, a) && CompleteStage(e, a, total', processed', expected').Replayed?
  {
    CompletedAttemptEnded(d, a, total, processed, expected);
    var m := CompleteStage(d, a, total, processed, expected).document;
    assert TaskEvolves(a.key, m.tasks[a.key], e.tasks[a.key]);
  }
}
