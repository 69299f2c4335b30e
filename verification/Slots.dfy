/** Slot accounting: the unreleased leases of users and documents. */
module Slots {
  import opened Rows
  import opened Transactions
  import opened Protocol
  import opened Invariant
  import opened Runs

  /** The documents of a user that are PROCESSING. */
  function ProcessingOf(docs: map<nat, Document>, user: nat): set<nat> {
    set id | id in docs && docs[id].user == user && docs[id].status.Processing?
  }

  /** Naming one pair for each element, a set is no larger than the set of pairs. */
  lemma {:induction false} ProjectionCard(ids: set<nat>, pairs: set<(nat, nat)>)
    requires forall id :: id in ids ==> exists i :: (id, i) in pairs
    ensures |ids| <= |pairs|
  {
    if ids != {} {
      var id :| id in ids;
      var i :| (id, i) in pairs;
      forall other | other in ids - {id}
        ensures exists k :: (other, k) in pairs - {(id, i)}
      {
        var k :| (other, k) in pairs;
        assert (other, k) in pairs - {(id, i)};
      }
      ProjectionCard(ids - {id}, pairs - {(id, i)});
    }
  }

  lemma ProcessingHoldsLease(docs: map<nat, Document>, user: nat, id: nat)
    requires id in docs && docs[id].user == user && docs[id].status.Processing? && LeaseInv(docs[id])
    ensures exists i :: (id, i) in OpenLeases(docs, user)
  {
    var i := FindOpen(docs[id].leases).value;
    assert (id, i) in OpenLeases(docs, user);
  }

  /** The same two sets, written over the columns. */
  lemma SlotSets(docs: map<nat, Document>, user: nat)
    ensures (set id, i | id in docs && docs[id].user == user && 0 <= i < |docs[id].leases|
                         && docs[id].leases[i].released == None :: (id, i)) == OpenLeases(docs, user)
    ensures (set id | id in docs && docs[id].user == user && docs[id].status == Processing) == ProcessingOf(docs, user)
  {
  }

  /** No user holds more unreleased leases than allowed, so at most that many of a user's documents are
      PROCESSING at once. */
  lemma UserSlots(c: Config, run: seq<Event>, user: nat)
    ensures var docs := Reached(c, run).docs;
            && |set id, i | id in docs && docs[id].user == user && 0 <= i < |docs[id].leases|
                            && docs[id].leases[i].released == None :: (id, i)| <= c.maxPerUser
            && |set id | id in docs && docs[id].user == user && docs[id].status == Processing| <= c.maxPerUser
  {
    Reachable(c, run);
    var docs := Reached(c, run).docs;
    forall id | id in ProcessingOf(docs, user)
      ensures exists i :: (id, i) in OpenLeases(docs, user)
    {
      ProcessingHoldsLease(docs, user, id);
    }
    ProjectionCard(ProcessingOf(docs, user), OpenLeases(docs, user));
    SlotSets(docs, user);
  }

  /** A document never holds two unreleased leases; PROCESSING holds one, COMPLETED and DELETED none. */
  lemma DocumentSlots(c: Config, run: seq<Event>, id: nat)
    requires id in Reached(c, run).docs
    ensures var d := Reached(c, run).docs[id];
            && (forall i, j :: 0 <= i < j < |d.leases| ==> !(IsOpen(d.leases[i]) && IsOpen(d.leases[j])))
            && (d.status.Processing? ==> exists i :: 0 <= i < |d.leases| && IsOpen(d.leases[i]))
            && (d.status.Completed? || d.status.Deleted? ==>
                  forall i :: 0 <= i < |d.leases| ==> !IsOpen(d.leases[i]))
  {
    Reachable(c, run);
  }

  /** A released lease is never written again, so it never reopens. */
  lemma ReleasedForEver(c: Config, run: seq<Event>, i: nat, id: nat, index: nat)
    requires i <= |run| && id in Reached(c, run[..i]).docs
    requires index < |Reached(c, run[..i]).docs[id].leases| && !IsOpen(Reached(c, run[..i]).docs[id].leases[index])
    ensures id in Reached(c, run).docs && index < |Reached(c, run).docs[id].leases|
    ensures Reached(c, run).docs[id].leases[index] == Reached(c, run[..i]).docs[id].leases[index]
  {
    LaterEvolves(c, run, i);
  }
}
