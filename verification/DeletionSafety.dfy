/** Deletion along every run: it always has an active clean-up task with a bounded wait, it fences the
    data rows, and the one step that takes it somewhere else. */
module DeletionSafety {
  import opened Rows
  import opened Transactions
  import opened Protocol
  import opened Shape
  import opened Invariant
  import opened Runs

  // ---------------------------------------------------------------------------------------------
  // An active clean-up task with a bounded wait
  // ---------------------------------------------------------------------------------------------

  /** In every reachable state a document has exactly one clean-up task per delete cycle; while it is
      DELETING the current one is active, and it is PENDING exactly while a lease is open. */
  lemma NoStrandedDeletion(c: Config, run: seq<Event>, id: nat)
    requires id in Reached(c, run).docs
    ensures var d := Reached(c, run).docs[id];
            && (forall n: nat :: CleanupKey(n) in d.tasks <==> 1 <= n <= d.cycle)
            && (d.status.Deleting? ==>
                  && d.cycle > 0
                  && var status := d.tasks[CleanupKey(d.cycle)].status;
                  && (status.TaskPending? || status.TaskQueued? || status.TaskRunning?)
                  && (status.TaskPending? <==> exists i :: 0 <= i < |d.leases| && IsOpen(d.leases[i])))
  {
    Reachable(c, run);
    var d := Reached(c, run).docs[id];
    assert DocInv(d);
    if d.status.Deleting? {
      assert CleanupKey(d.cycle) in d.tasks;
    }
  }

  /** The document is DELETING after every prefix of the run. */
  ghost predicate StaysDeleting(c: Config, s: System, run: seq<Event>, id: nat) {
    forall k :: 0 <= k <= |run| ==> id in Run(c, s, run[..k]).docs && Run(c, s, run[..k]).docs[id].status.Deleting?
  }

  lemma NextTerms(c: Config, s: System, event: Event, id: nat)
    requires id in s.docs && s.docs[id].status.Deleting?
    ensures id in Next(c, s, event).docs && SameTerms(s.docs[id], Next(c, s, event).docs[id])
  {
    if event.On? && event.id == id {
      StepTerms(s.docs[id], event.step, s.now, c.leaseSeconds, SlotFree(c, s, id));
    }
  }

  /** However long a document stays DELETING, no lease is added and no expiry moves. */
  lemma {:induction false} FrozenWait(c: Config, s: System, run: seq<Event>, id: nat)
    requires StaysDeleting(c, s, run, id)
    ensures id in s.docs && id in Run(c, s, run).docs
    ensures SameTerms(s.docs[id], Run(c, s, run).docs[id])
  {
    assert run[..0] == [] && run[..|run|] == run;
    if run != [] {
      var front := run[..|run| - 1];
      forall k | 0 <= k <= |front|
        ensures front[..k] == run[..k]
      {
      }
      FrozenWait(c, s, front, id);
      assert front == run[..|front|];
      NextTerms(c, Run(c, s, front), run[|run| - 1], id);
    }
  }

  /** The document waits: it is DELETING and its clean-up task is PENDING. */
  ghost predicate Waits(d: Document) {
    && d.status.Deleting? && CleanupKey(d.cycle) in d.tasks && d.tasks[CleanupKey(d.cycle)].status.TaskPending?
  }

  ghost predicate CleanupQueued(d: Document) {
    && d.status.Deleting? && !HasOpenLease(d)
    && CleanupKey(d.cycle) in d.tasks && d.tasks[CleanupKey(d.cycle)].status.TaskQueued?
  }

  /** The time passes and a recovery scan lists the expired leases. */
  function Scanned(c: Config, s: System, wait: nat): System {
    Next(c, Next(c, s, Tick(wait)), Scan)
  }

  lemma ScanLists(c: Config, s: System, wait: nat, id: nat, index: nat)
    requires id in s.docs && index < |s.docs[id].leases| && IsOpen(s.docs[id].leases[index])
    requires s.now + wait > s.docs[id].leases[index].expires
    ensures (id, index) in Scanned(c, s, wait).scanned && Scanned(c, s, wait).docs == s.docs
  {
    assert (id, index) in ExpiredLeases(Next(c, s, Tick(wait)));
  }

  lemma TakeOverIs(d: Document, index: nat, now: int, seconds: nat, slotFree: bool)
    requires index < |d.leases|
    ensures DocNext(d, TakeOverLease(index), now, seconds, slotFree) == RecoverExpiredLease(d, index)
  {
  }

  lemma TakeOverQueues(d: Document, index: nat, now: int, seconds: nat, slotFree: bool)
    requires DocInv(d) && Waits(d) && index < |d.leases| && IsOpen(d.leases[index])
    ensures CleanupQueued(DocNext(d, TakeOverLease(index), now, seconds, slotFree))
  {
    TakeOverIs(d, index, now, seconds, slotFree);
    RecoverLeaseDeleting(d, index);
  }

  lemma {:induction false} ScannedGrows(c: Config, s: System, run: seq<Event>)
    ensures s.scanned <= Run(c, s, run).scanned
  {
    if run != [] {
      ScannedGrows(c, s, run[..|run| - 1]);
    }
  }

  lemma LastIsOpen(d: Document)
    requires LeaseInv(d) && HasOpenLease(d)
    ensures FindOpen(d.leases) == Some(|d.leases| - 1)
  {
  }

  /** The take-over of the lease a scan has listed queues the clean-up, if it still waits by then. */
  lemma ListedLeaseQueues(c: Config, u: System, id: nat, index: nat)
    requires id in u.docs && DocInv(u.docs[id]) && Waits(u.docs[id])
    requires index == |u.docs[id].leases| - 1 && (id, index) in u.scanned
    ensures var t := Next(c, u, On(id, TakeOverLease(index))); id in t.docs && CleanupQueued(t.docs[id])
  {
    LastIsOpen(u.docs[id]);
    TakeOverQueues(u.docs[id], index, u.now, c.leaseSeconds, SlotFree(c, u, id));
  }

  /** Once the lease a PENDING clean-up waits for has expired, the next scan lists it; and whatever happens
      between the scan and the take-over, as long as the document stays DELETING, the take-over finds the
      clean-up no longer waiting or makes it QUEUED. */
  lemma RecoveryQueuesCleanup(c: Config, run: seq<Event>, id: nat, wait: nat, more: seq<Event>)
    requires id in Reached(c, run).docs && Waits(Reached(c, run).docs[id])
    requires StaysDeleting(c, Scanned(c, Reached(c, run), wait), more, id)
    ensures HasOpenLease(Reached(c, run).docs[id])
    ensures var s := Reached(c, run);
            var index := FindOpen(s.docs[id].leases).value;
            var u := Run(c, Scanned(c, s, wait), more);
            && id in u.docs
            && (s.now + wait > s.docs[id].leases[index].expires && Waits(u.docs[id]) ==>
                  var t := Next(c, u, On(id, TakeOverLease(index)));
                  id in t.docs && CleanupQueued(t.docs[id]))
  {
    Reachable(c, run);
    RecoveryFrom(c, Reached(c, run), id, wait, more);
  }

  lemma ScanKeeps(c: Config, s: System, wait: nat)
    requires SystemInv(c, s)
    ensures SystemInv(c, Scanned(c, s, wait)) && Scanned(c, s, wait).docs == s.docs
  {
    NextKeeps(c, s, Tick(wait));
    NextKeeps(c, Next(c, s, Tick(wait)), Scan);
  }

  lemma WaitGoesOn(c: Config, s: System, id: nat, more: seq<Event>)
    requires SystemInv(c, s) && StaysDeleting(c, s, more, id)
    ensures var u := Run(c, s, more);
            id in s.docs && id in u.docs && DocInv(u.docs[id]) && |u.docs[id].leases| == |s.docs[id].leases|
  {
    FrozenWait(c, s, more, id);
    RunKeeps(c, s, more);
  }

  lemma RecoveryFrom(c: Config, s: System, id: nat, wait: nat, more: seq<Event>)
    requires SystemInv(c, s) && id in s.docs && Waits(s.docs[id])
    requires StaysDeleting(c, Scanned(c, s, wait), more, id)
    ensures HasOpenLease(s.docs[id])
    ensures var index := FindOpen(s.docs[id].leases).value;
            var u := Run(c, Scanned(c, s, wait), more);
            && id in u.docs
            && (s.now + wait > s.docs[id].leases[index].expires && Waits(u.docs[id]) ==>
                  var t := Next(c, u, On(id, TakeOverLease(index)));
                  id in t.docs && CleanupQueued(t.docs[id]))
  {
    assert DocInv(s.docs[id]);
    LastIsOpen(s.docs[id]);
    var index := |s.docs[id].leases| - 1;
    ScanKeeps(c, s, wait);
    WaitGoesOn(c, Scanned(c, s, wait), id, more);
    if s.now + wait > s.docs[id].leases[index].expires && Waits(Run(c, Scanned(c, s, wait), more).docs[id]) {
      ScanLists(c, s, wait, id, index);
      ScannedGrows(c, Scanned(c, s, wait), more);
      ListedLeaseQueues(c, Run(c, Scanned(c, s, wait), more), id, index);
    }
  }

  // ---------------------------------------------------------------------------------------------
  // Deletion fences the data
  // ---------------------------------------------------------------------------------------------

  ghost predicate NoData(d: Document) {
    d.parseResults == [] && d.drafts == [] && d.chunks == []
  }

  lemma EventData(c: Config, s: System, event: Event, id: nat)
    requires id in s.docs && BeingDeleted(s.docs[id])
    ensures id in Next(c, s, event).docs && NoNewData(s.docs[id], Next(c, s, event).docs[id])
  {
    if event.On? && event.id == id {
      StepData(s.docs[id], event.step, s.now, c.leaseSeconds, SlotFree(c, s, id));
    }
  }

  /** A step on a document that is DELETING or DELETED adds no parse result, draft or chunk row, and a
      DELETED document has none. */
  lemma DeletionFencesData(c: Config, run: seq<Event>, event: Event, id: nat)
    requires id in Reached(c, run).docs
    ensures Reached(c, run).docs[id].status.Deleted? ==> NoData(Reached(c, run).docs[id])
    ensures BeingDeleted(Reached(c, run).docs[id]) ==>
              && id in Next(c, Reached(c, run), event).docs
              && NoNewData(Reached(c, run).docs[id], Next(c, Reached(c, run), event).docs[id])
  {
    Reachable(c, run);
    if BeingDeleted(Reached(c, run).docs[id]) {
      EventData(c, Reached(c, run), event, id);
    }
  }

  /** Where a deletion may lead: on in the same cycle, to DELETED, or to the tombstone. */
  ghost predicate DeletionGoesOn(d: Document, e: Document) {
    (e.status.Deleting? && e.cycle == d.cycle) || e.status.Deleted? || IsTombstone(e)
  }

  lemma WorkerDeletionGoesOn(d: Document, a: AttemptId, step: DocStep, now: int, seconds: nat)
    requires d.status.Deleting? && StepAttempt(step) == Some(a) && Enabled(d, step) && !step.Fail?
    ensures DeletionGoesOn(d, WorkerStep(d, a, step, now, seconds))
  {
  }

  lemma TakeOverGoesOn(d: Document, step: DocStep, now: int, seconds: nat, slotFree: bool)
    requires d.status.Deleting? && (step.TakeOverLease? || step.TakeOverAttempt?)
    ensures DeletionGoesOn(d, DocNext(d, step, now, seconds, slotFree))
  {
  }

  /** No step but a stage failure takes a DELETING document anywhere else. */
  lemma DeletionContinues(d: Document, step: DocStep, now: int, seconds: nat, slotFree: bool)
    requires DocInv(d) && d.status.Deleting? && !step.Fail?
    ensures DeletionGoesOn(d, DocNext(d, step, now, seconds, slotFree))
  {
    if Enabled(d, step) && StepAttempt(step).Some? {
      WorkerDeletionGoesOn(d, StepAttempt(step).value, step, now, seconds);
    } else if step.TakeOverLease? || step.TakeOverAttempt? {
      TakeOverGoesOn(d, step, now, seconds, slotFree);
    }
  }

  /** The stage failure does take it out, to a FAILED that is not the tombstone, exactly when its attempt
      is still running and the failure is deterministic or out of retries. */
  lemma FailureEndsDeletion(d: Document, a: AttemptId, code: Option<nat>, now: int, seconds: nat, slotFree: bool)
    requires DocInv(d) && d.status.Deleting? && Enabled(d, Fail(a, code))
    ensures var e := DocNext(d, Fail(a, code), now, seconds, slotFree);
            && (!DeletionGoesOn(d, e) <==>
                  AttemptOf(d, a).status.Running? && (code.Some? || d.tasks[a.key].retry == MAX_RETRIES))
            && (!DeletionGoesOn(d, e) ==> e.status.Failed? && !IsTombstone(e))
  {
    assert TaskInv(a.key, d.tasks[a.key]);
  }
}
