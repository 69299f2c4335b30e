/** Building concrete runs of the whole system: the documents that do arise. */
module Histories {
  import opened Rows
  import opened Transactions
  import opened Protocol
  import opened Invariant
  import opened Runs
  import opened DeletionSafety

  /** A document `id` in some state of a system. */
  datatype Origin = Origin(c: Config, s: System, id: nat)

  /** One slot for each user, and leases that expire at the next tick. */
  const SMALL := Config(1, 0)

  /** The empty system, and its document 0. */
  const START := Origin(SMALL, EmptySystem, 0)

  /** The run leads to this document and changes no other one. */
  ghost predicate Leads(o: Origin, run: seq<Event>, d: Document) {
    Run(o.c, o.s, run).docs == o.s.docs[o.id := d]
  }

  /** Some run of the whole system leads from there to this document. */
  ghost predicate ArisesFrom(o: Origin, d: Document) {
    exists run :: Leads(o, run, d)
  }

  ghost predicate Arises(d: Document) {
    ArisesFrom(START, d)
  }

  lemma RunAppend(c: Config, s: System, run: seq<Event>, event: Event)
    ensures Run(c, s, run + [event]) == Next(c, Run(c, s, run), event)
  {
    assert (run + [event])[..|run + [event]| - 1] == run;
  }

  lemma OriginArises(o: Origin)
    requires o.id in o.s.docs
    ensures ArisesFrom(o, o.s.docs[o.id])
  {
    assert Run(o.c, o.s, []) == o.s;
    assert Leads(o, [], o.s.docs[o.id]);
  }

  lemma UploadArises()
    ensures Arises(NewDocument(0))
  {
    RunAppend(SMALL, EmptySystem, [], Upload(0, 0));
    assert Run(SMALL, EmptySystem, []) == EmptySystem;
    assert Leads(START, [] + [Upload(0, 0)], NewDocument(0));
  }

  lemma EventLeads(o: Origin, run: seq<Event>, event: Event, e: Document)
    requires Next(o.c, Run(o.c, o.s, run), event).docs == o.s.docs[o.id := e]
    ensures ArisesFrom(o, e)
  {
    RunAppend(o.c, o.s, run, event);
    assert Leads(o, run + [event], e);
  }

  lemma StepArises(o: Origin, d: Document, step: DocStep, e: Document)
    requires ArisesFrom(o, d) && !step.Admit? && !step.Renew? && !step.TakeOverLease?
    requires forall now, seconds, slotFree :: DocNext(d, step, now, seconds, slotFree) == e
    ensures ArisesFrom(o, e)
  {
    var run :| Leads(o, run, d);
    var s := Run(o.c, o.s, run);
    assert s.docs[o.id] == d;
    assert o.s.docs[o.id := d][o.id := e] == o.s.docs[o.id := e];
    EventLeads(o, run, On(o.id, step), e);
  }

  /** With no other document around there is a free slot. */
  lemma AdmitArises(d: Document)
    requires Arises(d) && !HasOpenLease(d)
    ensures exists now :: Arises(AdmitParse(d, now, 0, true))
  {
    var run :| Leads(START, run, d);
    var s := Run(SMALL, EmptySystem, run);
    assert s.docs == map[0 := d] && s.docs[0] == d;
    assert OpenLeases(s.docs, d.user) == {};
    assert SlotFree(SMALL, s, 0);
    EventLeads(START, run, On(0, Admit), AdmitParse(d, s.now, 0, true));
  }

  lemma ScanAppended(o: Origin, run: seq<Event>, wait: nat)
    ensures Run(o.c, o.s, run + [Tick(wait)] + [Scan]) == Scanned(o.c, Run(o.c, o.s, run), wait)
  {
    RunAppend(o.c, o.s, run, Tick(wait));
    RunAppend(o.c, o.s, run + [Tick(wait)], Scan);
  }

  /** Time passes until the lease has expired, a scan lists it, and it is taken over. */
  lemma ExpiryArises(o: Origin, d: Document, index: nat)
    requires ArisesFrom(o, d) && index < |d.leases| && IsOpen(d.leases[index])
    ensures ArisesFrom(o, RecoverExpiredLease(d, index))
  {
    var run :| Leads(o, run, d);
    var s := Run(o.c, o.s, run);
    assert s.docs[o.id] == d;
    var wait: nat := if d.leases[index].expires - s.now + 1 >= 0 then d.leases[index].expires - s.now + 1 else 0;
    ScanLists(o.c, s, wait, o.id, index);
    var before := run + [Tick(wait)] + [Scan];
    ScanAppended(o, run, wait);
    assert o.s.docs[o.id := d][o.id := RecoverExpiredLease(d, index)] == o.s.docs[o.id := RecoverExpiredLease(d, index)];
    EventLeads(o, before, On(o.id, TakeOverLease(index)), RecoverExpiredLease(d, index));
  }
}
