/** Once a document is DELETED its content is nowhere but in the memory of stage workers that still run. */
module Vanished {
  import opened Rows
  import opened Transactions
  import opened Protocol
  import opened Shape
  import opened Invariant
  import opened Runs
  import opened Checkpoint
  import opened Publication
  import opened AbandonedStages

  // ---------------------------------------------------------------------------------------------
  // The original object
  // ---------------------------------------------------------------------------------------------

  /** As long as the original object is there no clean-up worker has removed it, and the document is not DELETED. */
  ghost predicate OriginalInv(d: Document) {
    d.original ==> !d.status.Deleted? && forall a :: HasAttempt(d, a) ==> !AttemptOf(d, a).worker.Removed?
  }

  lemma WorkerOriginal(d: Document, a: AttemptId, step: DocStep, now: int, seconds: nat)
    requires StepAttempt(step) == Some(a) && Enabled(d, step)
    ensures WorkerStep(d, a, step, now, seconds).original ==> d.original && !step.RemoveOriginal?
  {
  }

  /** Nobody puts the original object back. */
  lemma OriginalStaysGone(d: Document, step: DocStep, now: int, seconds: nat, slotFree: bool)
    ensures DocNext(d, step, now, seconds, slotFree).original ==>
              d.original && !(Enabled(d, step) && step.RemoveOriginal?)
  {
    if Enabled(d, step) && StepAttempt(step).Some? {
      WorkerOriginal(d, StepAttempt(step).value, step, now, seconds);
    }
  }

  lemma OwnWorker(d: Document, a: AttemptId, step: DocStep, now: int, seconds: nat)
    requires StepAttempt(step) == Some(a) && Enabled(d, step) && !step.RemoveOriginal? && !AttemptOf(d, a).worker.Removed?
    ensures var e := WorkerStep(d, a, step, now, seconds); HasAttempt(e, a) ==> !AttemptOf(e, a).worker.Removed?
  {
    if Concludes(step) {
      ConcludedWorker(d, a, step, now, seconds);
    }
  }

  lemma ConcludedWorker(d: Document, a: AttemptId, step: DocStep, now: int, seconds: nat)
    requires StepAttempt(step) == Some(a) && Enabled(d, step) && Concludes(step)
    ensures var e := WorkerStep(d, a, step, now, seconds); HasAttempt(e, a) ==> !AttemptOf(e, a).worker.Removed?
  {
  }

  lemma NotRemoved(d: Document, a: AttemptId, step: DocStep, now: int, seconds: nat, slotFree: bool)
    requires DocInv(d) && OriginalInv(d) && d.original && !(Enabled(d, step) && step.RemoveOriginal?)
    requires HasAttempt(DocNext(d, step, now, seconds, slotFree), a)
    ensures !AttemptOf(DocNext(d, step, now, seconds, slotFree), a).worker.Removed?
  {
    if HasAttempt(d, a) {
      if StepAttempt(step) == Some(a) {
        if Enabled(d, step) {
          OwnWorker(d, a, step, now, seconds);
        }
      } else {
        OthersKeepWorker(d, a, step, now, seconds, slotFree);
      }
    } else if !step.Begin? {
      StepAttempts(d, step, now, seconds, slotFree);
    }
  }

  /** Only a clean-up worker that has removed the original object makes the document DELETED. */
  lemma DeletedByRemoval(d: Document, step: DocStep, now: int, seconds: nat, slotFree: bool)
    requires !d.status.Deleted? && DocNext(d, step, now, seconds, slotFree).status.Deleted?
    ensures Enabled(d, step) && step.FinishDelete? && AttemptOf(d, step.a).worker.Removed?
  {
    if Enabled(d, step) {
      match StepAttempt(step)
      case Some(a) => WorkerDeletes(d, a, step, now, seconds);
      case None => OthersDoNotDelete(d, step, now, seconds, slotFree);
    }
  }

  lemma OthersDoNotDelete(d: Document, step: DocStep, now: int, seconds: nat, slotFree: bool)
    requires Enabled(d, step) && StepAttempt(step).None? && !d.status.Deleted?
    ensures !DocNext(d, step, now, seconds, slotFree).status.Deleted?
  {
    match step {
      case Delete(open) => DeleteDoesNotDelete(d, open);
      case TakeOverLease(index) => LeaseDoesNotDelete(d, index);
      case TakeOverAttempt(a) => LossDoesNotDelete(d, a);
      case _ =>
    }
  }

  lemma DeleteDoesNotDelete(d: Document, open: Option<AttemptId>)
    requires !d.status.Deleted? && IsOpenAttempt(d, open)
    ensures !StageDelete(d, open).status.Deleted?
  {
  }

  lemma LeaseDoesNotDelete(d: Document, index: nat)
    requires !d.status.Deleted? && index < |d.leases|
    ensures !RecoverExpiredLease(d, index).status.Deleted?
  {
  }

  lemma LossDoesNotDelete(d: Document, a: AttemptId)
    requires !d.status.Deleted? && HasAttempt(d, a)
    ensures !RecoverRunningWithoutLease(d, a).status.Deleted?
  {
  }

  lemma WorkerDeletes(d: Document, a: AttemptId, step: DocStep, now: int, seconds: nat)
    requires StepAttempt(step) == Some(a) && Enabled(d, step)
    requires !d.status.Deleted? && WorkerStep(d, a, step, now, seconds).status.Deleted?
    ensures step.FinishDelete? && AttemptOf(d, a).worker.Removed?
  {
  }

  lemma StepOriginal(d: Document, step: DocStep, now: int, seconds: nat, slotFree: bool)
    requires DocInv(d) && OriginalInv(d)
    ensures OriginalInv(DocNext(d, step, now, seconds, slotFree))
  {
    var e := DocNext(d, step, now, seconds, slotFree);
    OriginalStaysGone(d, step, now, seconds, slotFree);
    if e.original {
      forall a | HasAttempt(e, a)
        ensures !AttemptOf(e, a).worker.Removed?
      {
        NotRemoved(d, a, step, now, seconds, slotFree);
      }
      if e.status.Deleted? {
        DeletedByRemoval(d, step, now, seconds, slotFree);
      }
    }
  }

  lemma {:induction false} OriginalReachable(c: Config, run: seq<Event>, id: nat)
    ensures id in Reached(c, run).docs ==> OriginalInv(Reached(c, run).docs[id])
  {
    if run != [] {
      var front, event := run[..|run| - 1], run[|run| - 1];
      OriginalReachable(c, front, id);
      Reachable(c, front);
      var s := Reached(c, front);
      if event.On? && event.id == id && id in s.docs {
        StepOriginal(s.docs[id], event.step, s.now, c.leaseSeconds, SlotFree(c, s, id));
      }
    }
  }

  // ---------------------------------------------------------------------------------------------
  // Content in memory
  // ---------------------------------------------------------------------------------------------

  /** A running attempt whose worker has parsed or read a text, or loaded drafts. */
  predicate HoldsContent(attempt: Attempt) {
    && attempt.status.Running?
    && (attempt.worker.Parsed? || attempt.worker.Read? || (attempt.worker.Loaded? && attempt.worker.drafts != []))
  }

  ghost predicate ContentHeld(d: Document) {
    exists a :: HasAttempt(d, a) && IsStage(a.key) && HoldsContent(AttemptOf(d, a))
  }

  /** No content is left, in the rows, in the storage or in the memory of a running worker. */
  ghost predicate Vanished(d: Document) {
    !d.original && d.parseResults == [] && d.drafts == [] && d.chunks == [] && !ContentHeld(d)
  }

  ghost predicate NoContent(d: Document) {
    !d.original && d.parseResults == [] && d.drafts == [] && d.chunks == []
  }

  lemma SavesNothing(d: Document, a: AttemptId, step: DocStep, now: int, seconds: nat)
    requires NoContent(d) && StepAttempt(step) == Some(a) && Enabled(d, step) && !HoldsContent(AttemptOf(d, a))
    requires step.SaveParse? || step.SaveDrafts? || step.SaveChunks?
    ensures NoContent(WorkerStep(d, a, step, now, seconds))
  {
  }

  lemma CompleteNothing(d: Document, a: AttemptId, total: Option<nat>, processed: Option<nat>, expected: Option<nat>)
    requires NoContent(d) && HasAttempt(d, a) && IsStage(a.key)
    ensures var o := CompleteStage(d, a, total, processed, expected); o.Committed? ==> NoContent(o.document)
  {
  }

  lemma WorkerNothing(d: Document, a: AttemptId, step: DocStep, now: int, seconds: nat)
    requires NoContent(d) && StepAttempt(step) == Some(a) && Enabled(d, step) && !HoldsContent(AttemptOf(d, a))
    ensures NoContent(WorkerStep(d, a, step, now, seconds))
  {
    var worker := AttemptOf(d, a).worker;
    match step {
      case SaveParse(_) => SavesNothing(d, a, step, now, seconds);
      case SaveDrafts(_) => SavesNothing(d, a, step, now, seconds);
      case SaveChunks(_) => SavesNothing(d, a, step, now, seconds);
      case FinishEmbed(_) => CompleteNothing(d, a, Some(worker.count), Some(worker.count), None);
      case Publish(_) => CompleteNothing(d, a, None, None, Some(worker.count));
      case _ =>
    }
  }

  lemma OtherNothing(d: Document, step: DocStep, now: int, seconds: nat, slotFree: bool)
    requires NoContent(d) && StepAttempt(step).None?
    ensures NoContent(DocNext(d, step, now, seconds, slotFree))
  {
    if Enabled(d, step) {
      match step {
        case Delete(open) => StageDeleteUntouched(d, open);
        case TakeOverLease(index) => RecoverLeaseUntouched(d, index);
        case TakeOverAttempt(a) => RecoverRunningUntouched(d, a);
        case _ =>
      }
      OriginalStaysGone(d, step, now, seconds, slotFree);
    }
  }

  /** A worker that holds no content gets none. */
  lemma OwnContent(d: Document, a: AttemptId, step: DocStep, now: int, seconds: nat)
    requires NoContent(d) && StepAttempt(step) == Some(a) && Enabled(d, step) && !HoldsContent(AttemptOf(d, a))
    ensures var e := WorkerStep(d, a, step, now, seconds); HasAttempt(e, a) ==> !HoldsContent(AttemptOf(e, a))
  {
  }

  lemma NoNewContent(d: Document, a: AttemptId, step: DocStep, now: int, seconds: nat, slotFree: bool)
    requires DocInv(d) && Vanished(d) && IsStage(a.key)
    requires HasAttempt(DocNext(d, step, now, seconds, slotFree), a)
    ensures !HoldsContent(AttemptOf(DocNext(d, step, now, seconds, slotFree), a))
  {
    var e := DocNext(d, step, now, seconds, slotFree);
    if HasAttempt(d, a) {
      if StepAttempt(step) == Some(a) {
        if Enabled(d, step) {
          OwnContent(d, a, step, now, seconds);
        }
      } else {
        OthersKeepWorker(d, a, step, now, seconds, slotFree);
        StepKeeps(d, step, now, seconds, slotFree);
        assert TaskEvolves(a.key, d.tasks[a.key], e.tasks[a.key]);
        assert !HoldsContent(AttemptOf(d, a));
      }
    } else if !step.Begin? {
      StepAttempts(d, step, now, seconds, slotFree);
    }
  }

  lemma WorkerHasNothing(d: Document, a: AttemptId)
    requires Vanished(d) && HasAttempt(d, a) && IsStage(a.key)
    ensures !HoldsContent(AttemptOf(d, a))
  {
  }

  lemma CleanupNothing(d: Document, a: AttemptId, step: DocStep, now: int, seconds: nat)
    requires NoContent(d) && StepAttempt(step) == Some(a) && Enabled(d, step) && !IsStage(a.key)
    ensures NoContent(WorkerStep(d, a, step, now, seconds))
  {
  }

  /** What has vanished never comes back, whatever anyone does. */
  lemma StepVanished(d: Document, step: DocStep, now: int, seconds: nat, slotFree: bool)
    requires DocInv(d) && Vanished(d)
    ensures Vanished(DocNext(d, step, now, seconds, slotFree))
  {
    var e := DocNext(d, step, now, seconds, slotFree);
    if Enabled(d, step) {
      match StepAttempt(step)
      case Some(a) =>
        if IsStage(a.key) {
          WorkerHasNothing(d, a);
          WorkerNothing(d, a, step, now, seconds);
        } else {
          CleanupNothing(d, a, step, now, seconds);
        }
      case None => OtherNothing(d, step, now, seconds, slotFree);
    }
    if ContentHeld(e) {
      var a :| HasAttempt(e, a) && IsStage(a.key) && HoldsContent(AttemptOf(e, a));
      NoNewContent(d, a, step, now, seconds, slotFree);
    }
  }

  lemma NextVanished(c: Config, s: System, event: Event, id: nat)
    requires id in s.docs && DocInv(s.docs[id]) && Vanished(s.docs[id])
    ensures id in Next(c, s, event).docs && Vanished(Next(c, s, event).docs[id])
  {
    if event.On? && event.id == id {
      StepVanished(s.docs[id], event.step, s.now, c.leaseSeconds, SlotFree(c, s, id));
    }
  }

  lemma {:induction false} RunVanished(c: Config, s: System, more: seq<Event>, id: nat)
    requires SystemInv(c, s) && id in s.docs && Vanished(s.docs[id])
    ensures id in Run(c, s, more).docs && Vanished(Run(c, s, more).docs[id])
  {
    if more != [] {
      RunVanished(c, s, more[..|more| - 1], id);
      KeptInv(c, s, id, more[..|more| - 1]);
      NextVanished(c, Run(c, s, more[..|more| - 1]), more[|more| - 1], id);
    }
  }

  /** In every run: a DELETED document of which no running stage worker holds any content is never found by a search
      again, in no continuation, however often its messages are delivered and its user deletes it. */
  lemma DeletedNeverFound(c: Config, run: seq<Event>, more: seq<Event>, id: nat)
    requires id in Reached(c, run).docs && Reached(c, run).docs[id].status.Deleted?
             && !ContentHeld(Reached(c, run).docs[id])
    ensures id in Reached(c, run + more).docs
    ensures Searchable(Reached(c, run + more).docs[id]) == [] && Reached(c, run + more).docs[id].parseResults == []
  {
    Reachable(c, run);
    OriginalReachable(c, run, id);
    RunConcat(c, EmptySystem, run, more);
    RunVanished(c, Reached(c, run), more, id);
  }
}
