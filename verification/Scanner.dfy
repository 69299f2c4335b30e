/** One pass of the recovery scanner over all expired leases. */
module Scanner {
  import opened Rows
  import opened Transactions
  import opened Protocol
  import opened Invariant
  import opened Runs
  import opened DeletionSafety

  predicate HasExpired(d: Document, now: int) {
    match FindOpen(d.leases)
    case Some(i) => d.leases[i].expires < now
    case None => false
  }

  /** What an undisturbed pass makes of one document. */
  function Settle(d: Document, now: int): Document {
    if HasExpired(d, now) then RecoverExpiredLease(d, FindOpen(d.leases).value) else d
  }

  /** An unreleased lease whose term is over. */
  predicate Overdue(d: Document, i: int, now: int) {
    0 <= i < |d.leases| && d.leases[i].released == None && d.leases[i].expires < now
  }

  class RecoveryScanner {
    var docs: map<nat, Document>

    constructor (docs: map<nat, Document>)
      ensures this.docs == docs
    {
      this.docs := docs;
    }

    method TakeOver(id: nat, index: nat, ghost settled: Document)
      requires id in docs && index < |docs[id].leases| && RecoverExpiredLease(docs[id], index) == settled
      modifies this
      ensures docs == old(docs)[id := settled]
    {
      docs := docs[id := RecoverExpiredLease(docs[id], index)];
    }

    /** The listed leases are taken over one by one, in whatever order they were listed. */
    method TakeOverAll(leases: set<(nat, nat)>, ghost after: map<nat, Document>) returns (recovered: nat)
      requires PassedOver(docs, after, docs, leases)
      requires forall id, i, j :: (id, i) in leases && (id, j) in leases ==> i == j
      requires forall id, i :: (id, i) in leases ==> i < |docs[id].leases| && RecoverExpiredLease(docs[id], i) == after[id]
      modifies this
      ensures PassedOver(old(docs), after, docs, {}) && recovered == |leases|
    {
      ghost var before := docs;
      var listed := leases;
      recovered := 0;
      while listed != {}
        invariant listed <= leases && recovered + |listed| == |leases|
        invariant PassedOver(before, after, docs, listed)
        decreases |listed|
      {
        var lease :| lease in listed;
        PassGoesOn(before, after, docs, listed, lease);
        TakeOver(lease.0, lease.1, after[lease.0]);
        listed := listed - {lease};
        recovered := recovered + 1;
      }
    }

    /** List the expired leases, then take each of them over. */
    method ScanExpiredLeases(now: int) returns (recovered: nat)
      requires forall id :: id in docs ==> LeaseInv(docs[id])
      modifies this
      ensures docs.Keys == old(docs).Keys
      ensures forall id, i :: id in old(docs) && Overdue(old(docs)[id], i, now) ==>
                docs[id] == RecoverExpiredLease(old(docs)[id], i)
      ensures forall id :: id in old(docs) && (forall i :: !Overdue(old(docs)[id], i, now)) ==> docs[id] == old(docs)[id]
      ensures recovered == |set id, i | id in old(docs) && 0 <= i < |old(docs)[id].leases|
                                        && Overdue(old(docs)[id], i, now) :: (id, i)|
    {
      var listed := ExpiredLeases(System(now, docs, {}));
      ghost var after := map id | id in docs :: Settle(docs[id], now);
      ListedOnce(docs, now, after);
      OverdueListed(docs, now);
      SettledDocuments(docs, now);
      recovered := TakeOverAll(listed, after);
    }
  }

  /** What is listed is what is overdue. */
  lemma OverdueListed(docs: map<nat, Document>, now: int)
    ensures ExpiredLeases(System(now, docs, {}))
            == set id, i | id in docs && 0 <= i < |docs[id].leases| && Overdue(docs[id], i, now) :: (id, i)
  {
  }

  lemma SettledDocuments(docs: map<nat, Document>, now: int)
    requires forall id :: id in docs ==> LeaseInv(docs[id])
    ensures forall id, i :: id in docs && Overdue(docs[id], i, now) ==>
              Settle(docs[id], now) == RecoverExpiredLease(docs[id], i)
    ensures forall id :: id in docs && (forall i :: !Overdue(docs[id], i, now)) ==> Settle(docs[id], now) == docs[id]
  {
    forall id, i | id in docs && Overdue(docs[id], i, now)
      ensures Settle(docs[id], now) == RecoverExpiredLease(docs[id], i)
    {
      OnlyOpenLease(docs[id], i);
    }
    forall id | id in docs && (forall i :: !Overdue(docs[id], i, now))
      ensures Settle(docs[id], now) == docs[id]
    {
      if HasExpired(docs[id], now) {
        assert Overdue(docs[id], FindOpen(docs[id].leases).value, now);
      }
    }
  }

  /** In every run a lease that is listed for recovery was unreleased and overdue at some scan before. */
  lemma {:induction false} ListedWasOverdue(c: Config, run: seq<Event>, id: nat, i: nat)
    requires (id, i) in Reached(c, run).scanned
    ensures exists k :: 0 <= k < |run| && run[k] == Scan && id in Reached(c, run[..k]).docs
                        && Overdue(Reached(c, run[..k]).docs[id], i, Reached(c, run[..k]).now)
  {
    var last := |run| - 1;
    if (id, i) in Reached(c, run[..last]).scanned {
      ListedWasOverdue(c, run[..last], id, i);
      EarlierScan(c, run, id, i);
    } else {
      assert run[last] == Scan;
    }
  }

  /** And at every scan all of those are listed. */
  lemma OverdueIsListed(c: Config, run: seq<Event>, id: nat, i: nat)
    requires id in Reached(c, run).docs && Overdue(Reached(c, run).docs[id], i, Reached(c, run).now)
    ensures (id, i) in Reached(c, run + [Scan]).scanned
  {
    assert (run + [Scan])[..|run + [Scan]| - 1] == run;
  }

  /** No lease is newly released by a take-over. */
  predicate NoneRecovered(d: Document, e: Document) {
    forall i :: 0 <= i < |e.leases| && e.leases[i].released == Some(ByRecovery) ==>
      i < |d.leases| && d.leases[i].released == Some(ByRecovery)
  }

  lemma WorkerRecoversNone(d: Document, a: AttemptId, step: DocStep, now: int, seconds: nat)
    requires StepAttempt(step) == Some(a) && Enabled(d, step)
    ensures NoneRecovered(d, WorkerStep(d, a, step, now, seconds))
  {
    var worker := AttemptOf(d, a).worker;
    match step
    case SaveParse(_) => StageRecoversNone(d.(parseResults := d.parseResults + [worker.text]), a, Some(1), Some(1), None);
    case SaveDrafts(_) =>
      var pieces := Pieces(worker.text);
      StageRecoversNone(d.(drafts := pieces), a, Some(|pieces|), Some(|pieces|), None);
    case FinishEmbed(_) => StageRecoversNone(d, a, Some(worker.count), Some(worker.count), None);
    case Publish(_) => StageRecoversNone(d, a, None, None, Some(worker.count));
    case Fail(_, code) => FailureRecoversNone(d, a, code);
    case _ =>
  }

  lemma StageRecoversNone(d: Document, a: AttemptId, total: Option<nat>, processed: Option<nat>, expected: Option<nat>)
    requires HasAttempt(d, a) && IsStage(a.key)
    ensures var o := CompleteStage(d, a, total, processed, expected); o.Committed? ==> NoneRecovered(d, o.document)
  {
    if a.key.kind.Finalize? {
      FinalizeRecoversNone(d, a, expected);
    } else {
      AdvanceRecoversNone(d, a, total, processed);
    }
  }

  lemma AdvanceRecoversNone(d: Document, a: AttemptId, total: Option<nat>, processed: Option<nat>)
    requires HasAttempt(d, a) && IsStage(a.key) && !a.key.kind.Finalize?
    ensures var o := Advance(d, a, total, processed); o.Committed? ==> NoneRecovered(d, o.document)
  {
  }

  lemma FinalizeRecoversNone(d: Document, a: AttemptId, expected: Option<nat>)
    requires HasAttempt(d, a)
    ensures NoneRecovered(d, CompleteFinalize(d, a, expected))
  {
  }

  lemma FailureRecoversNone(d: Document, a: AttemptId, code: Option<nat>)
    requires HasAttempt(d, a)
    ensures NoneRecovered(d, FailStage(d, a, code))
  {
  }

  lemma DeleteRecoversNone(d: Document, open: Option<AttemptId>)
    requires DocInv(d) && IsOpenAttempt(d, open)
    ensures NoneRecovered(d, StageDelete(d, open))
  {
    if !BeingDeleted(d) {
      StageDeleteIs(d, open);
    }
  }

  lemma OtherRecoversNone(d: Document, step: DocStep, now: int, seconds: nat, slotFree: bool)
    requires DocInv(d) && Enabled(d, step) && StepAttempt(step).None? && !step.TakeOverLease?
    ensures NoneRecovered(d, DocNext(d, step, now, seconds, slotFree))
  {
    if step.Delete? {
      DeleteRecoversNone(d, step.open);
    }
  }

  lemma TakeOverRecoversOne(d: Document, taken: nat, i: nat)
    requires taken < |d.leases| && i < |RecoverExpiredLease(d, taken).leases|
    ensures i != taken && RecoverExpiredLease(d, taken).leases[i].released == Some(ByRecovery) ==>
              i < |d.leases| && d.leases[i].released == Some(ByRecovery)
  {
  }

  lemma StepRecoversNone(d: Document, step: DocStep, now: int, seconds: nat, slotFree: bool, i: nat)
    requires DocInv(d) && step != TakeOverLease(i)
    requires i < |DocNext(d, step, now, seconds, slotFree).leases|
    requires DocNext(d, step, now, seconds, slotFree).leases[i].released == Some(ByRecovery)
    ensures i < |d.leases| && d.leases[i].released == Some(ByRecovery)
  {
    if Enabled(d, step) {
      if step.TakeOverLease? {
        TakeOverRecoversOne(d, step.index, i);
      } else if StepAttempt(step).Some? {
        WorkerRecoversNone(d, StepAttempt(step).value, step, now, seconds);
      } else {
        OtherRecoversNone(d, step, now, seconds, slotFree);
      }
    }
  }

  /** In every run a lease that was released by a take-over was overdue at some scan before. */
  lemma {:induction false} RecoveredWasOverdue(c: Config, run: seq<Event>, id: nat, i: nat)
    requires id in Reached(c, run).docs && i < |Reached(c, run).docs[id].leases|
    requires Reached(c, run).docs[id].leases[i].released == Some(ByRecovery)
    ensures exists k :: 0 <= k < |run| && run[k] == Scan && id in Reached(c, run[..k]).docs
                        && Overdue(Reached(c, run[..k]).docs[id], i, Reached(c, run[..k]).now)
  {
    var last := |run| - 1;
    var s := Reached(c, run[..last]);
    if id in s.docs && i < |s.docs[id].leases| && s.docs[id].leases[i].released == Some(ByRecovery) {
      RecoveredWasOverdue(c, run[..last], id, i);
      EarlierScan(c, run, id, i);
    } else {
      Reachable(c, run[..last]);
      if run[last] != On(id, TakeOverLease(i)) {
        NextRecoversNone(c, s, run[last], id, i);
      }
      ListedWasOverdue(c, run[..last], id, i);
      EarlierScan(c, run, id, i);
    }
  }

  lemma NextRecoversNone(c: Config, s: System, event: Event, id: nat, i: nat)
    requires id in s.docs ==> DocInv(s.docs[id])
    requires event != On(id, TakeOverLease(i))
    requires id in Next(c, s, event).docs && i < |Next(c, s, event).docs[id].leases|
    requires Next(c, s, event).docs[id].leases[i].released == Some(ByRecovery)
    ensures id in s.docs && i < |s.docs[id].leases| && s.docs[id].leases[i].released == Some(ByRecovery)
  {
    if event.On? && event.id == id && id in s.docs {
      StepRecoversNone(s.docs[id], event.step, s.now, c.leaseSeconds, SlotFree(c, s, id), i);
    }
  }

  lemma EarlierScan(c: Config, run: seq<Event>, id: nat, i: nat)
    requires run != []
    requires var front := run[..|run| - 1];
             exists k :: 0 <= k < |front| && front[k] == Scan && id in Reached(c, front[..k]).docs
                         && Overdue(Reached(c, front[..k]).docs[id], i, Reached(c, front[..k]).now)
    ensures exists k :: 0 <= k < |run| && run[k] == Scan && id in Reached(c, run[..k]).docs
                        && Overdue(Reached(c, run[..k]).docs[id], i, Reached(c, run[..k]).now)
  {
    var front := run[..|run| - 1];
    var k :| 0 <= k < |front| && front[k] == Scan && id in Reached(c, front[..k]).docs
             && Overdue(Reached(c, front[..k]).docs[id], i, Reached(c, front[..k]).now);
    assert front[..k] == run[..k] && run[k] == Scan;
  }

  /** In the middle of a pass: the documents with a lease still listed are as before, the others settled. */
  ghost predicate PassedOver<D(!new)>(before: map<nat, D>, after: map<nat, D>, docs: map<nat, D>,
                                      listed: set<(nat, nat)>) {
    && docs.Keys == before.Keys == after.Keys
    && (forall id, i :: (id, i) in listed ==> id in docs && docs[id] == before[id])
    && (forall id :: id in docs && (forall i :: (id, i) !in listed) ==> docs[id] == after[id])
  }

  lemma PassGoesOn<D(!new)>(before: map<nat, D>, after: map<nat, D>, docs: map<nat, D>, listed: set<(nat, nat)>,
                     lease: (nat, nat))
    requires lease in listed && PassedOver(before, after, docs, listed)
    requires forall i :: (lease.0, i) in listed ==> i == lease.1
    ensures PassedOver(before, after, docs[lease.0 := after[lease.0]], listed - {lease})
  {
  }

  lemma ListedOnce(docs: map<nat, Document>, now: int, after: map<nat, Document>)
    requires forall id :: id in docs ==> LeaseInv(docs[id])
    requires after == map id | id in docs :: Settle(docs[id], now)
    ensures var listed := ExpiredLeases(System(now, docs, {}));
            && PassedOver(docs, after, docs, listed)
            && (forall id, i, j :: (id, i) in listed && (id, j) in listed ==> i == j)
            && (forall id, i :: (id, i) in listed ==>
                  i < |docs[id].leases| && RecoverExpiredLease(docs[id], i) == after[id])
  {
    forall id | id in docs
      ensures forall i: nat :: (id, i) in ExpiredLeases(System(now, docs, {})) <==>
                               HasExpired(docs[id], now) && i == FindOpen(docs[id].leases).value
    {
      OnlyExpired(docs, id, now);
    }
  }

  /** The expired leases of a document are its open lease, if that has expired. */
  lemma OnlyExpired(docs: map<nat, Document>, id: nat, now: int)
    requires id in docs && LeaseInv(docs[id])
    ensures forall i: nat :: (id, i) in ExpiredLeases(System(now, docs, {})) <==>
                             HasExpired(docs[id], now) && i == FindOpen(docs[id].leases).value
  {
  }

  /** After a pass no lease of the document is expired and still open; a deletion that was waiting for it
      has its clean-up queued; and the invariants hold. */
  lemma PassSettles(d: Document, now: int)
    requires DocInv(d)
    ensures Keeps(d, Settle(d, now))
    ensures forall i :: !Overdue(Settle(d, now), i, now)
    ensures (exists i :: Overdue(d, i, now)) && Waits(d) ==> CleanupQueued(Settle(d, now))
  {
    Stutter(d);
    if HasExpired(d, now) {
      var index := FindOpen(d.leases).value;
      StepKeeps(d, TakeOverLease(index), now, 0, false);
      TakeOverIs(d, index, now, 0, false);
      if d.status.Deleting? {
        RecoverLeaseDeleting(d, index);
      } else {
        TakeOverReleases(d, index);
      }
    }
  }

  lemma TakeOverReleases(d: Document, index: nat)
    requires DocInv(d) && index < |d.leases| && IsOpen(d.leases[index]) && !d.status.Deleting?
    ensures !HasOpenLease(RecoverExpiredLease(d, index))
  {
    assert index == |d.leases| - 1;
  }
}
