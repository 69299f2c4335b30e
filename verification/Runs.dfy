/** From single steps to runs: what holds in every reachable state and along every run. */
module Runs {
  import opened Collections
  import opened Rows
  import opened Transactions
  import opened Protocol
  import opened Shape
  import opened Invariant

  ghost predicate SystemInv(c: Config, s: System) {
    && (forall id :: id in s.docs ==> DocInv(s.docs[id]))
    && (forall user: nat :: |OpenLeases(s.docs, user)| <= c.maxPerUser)
  }

  /** No document disappears and every document evolves. */
  ghost predicate SystemEvolves(s: System, t: System) {
    forall id :: id in s.docs ==> id in t.docs && Evolves(s.docs[id], t.docs[id])
  }

  function Reached(c: Config, run: seq<Event>): System {
    Run(c, EmptySystem, run)
  }

  /** One document changes and opens at most one lease, for which its user has a free slot. */
  lemma SlotsAfter(docs: map<nat, Document>, id: nat, e: Document, user: nat, max: nat)
    requires id in docs && e.user == docs[id].user && LeasesEvolve(docs[id], e)
    requires |OpenLeases(docs, user)| <= max
    requires |e.leases| == |docs[id].leases|
             || (|e.leases| == |docs[id].leases| + 1 && |OpenLeases(docs, docs[id].user)| < max)
    ensures |OpenLeases(docs[id := e], user)| <= max
  {
    var d := docs[id];
    var before := OpenLeases(docs, user);
    var after := OpenLeases(docs[id := e], user);
    if |e.leases| == |d.leases| + 1 && d.user == user {
      assert after <= before + {(id, |d.leases|)};
      SubsetCard(after, before + {(id, |d.leases|)});
    } else {
      assert after <= before;
      SubsetCard(after, before);
    }
  }

  lemma DocumentChanges(c: Config, s: System, id: nat, e: Document, t: System)
    requires SystemInv(c, s) && id in s.docs && t.docs == s.docs[id := e]
    requires DocInv(e) && Evolves(s.docs[id], e)
    requires |e.leases| == |s.docs[id].leases|
             || (|e.leases| == |s.docs[id].leases| + 1 && SlotFree(c, s, id))
    ensures SystemInv(c, t) && SystemEvolves(s, t)
  {
    SameEvolves(c, s);
    forall user: nat
      ensures |OpenLeases(t.docs, user)| <= c.maxPerUser
    {
      SlotsAfter(s.docs, id, e, user, c.maxPerUser);
    }
  }

  lemma SameEvolves(c: Config, s: System)
    requires SystemInv(c, s)
    ensures SystemEvolves(s, s)
  {
    forall id | id in s.docs
      ensures Evolves(s.docs[id], s.docs[id])
    {
      Stutter(s.docs[id]);
    }
  }

  lemma UploadSlots(docs: map<nat, Document>, id: nat, user: nat, u: nat)
    requires id !in docs
    ensures OpenLeases(docs[id := NewDocument(user)], u) == OpenLeases(docs, u)
  {
  }

  lemma UploadKeeps(c: Config, s: System, id: nat, user: nat)
    requires SystemInv(c, s) && id !in s.docs
    ensures var t := Next(c, s, Upload(id, user)); SystemInv(c, t) && SystemEvolves(s, t)
  {
    NewDocumentInv(user);
    SameEvolves(c, s);
    forall u: nat
      ensures |OpenLeases(Next(c, s, Upload(id, user)).docs, u)| <= c.maxPerUser
    {
      UploadSlots(s.docs, id, user, u);
    }
  }

  lemma NextKeeps(c: Config, s: System, event: Event)
    requires SystemInv(c, s)
    ensures SystemInv(c, Next(c, s, event)) && SystemEvolves(s, Next(c, s, event))
  {
    SameEvolves(c, s);
    if EventEnabled(s, event) {
      match event
      case On(id, step) =>
        var e := DocNext(s.docs[id], step, s.now, c.leaseSeconds, SlotFree(c, s, id));
        StepKeeps(s.docs[id], step, s.now, c.leaseSeconds, SlotFree(c, s, id));
        StepLeases(s.docs[id], step, s.now, c.leaseSeconds, SlotFree(c, s, id));
        DocumentChanges(c, s, id, e, Next(c, s, event));
      case Upload(id, user) => UploadKeeps(c, s, id, user);
      case _ =>
    }
  }

  lemma SystemEvolvesTransitive(s: System, t: System, u: System)
    requires SystemEvolves(s, t) && SystemEvolves(t, u)
    ensures SystemEvolves(s, u)
  {
    forall id | id in s.docs
      ensures id in u.docs && Evolves(s.docs[id], u.docs[id])
    {
      TasksEvolveTransitive(s.docs[id], t.docs[id], u.docs[id]);
    }
  }

  lemma {:induction false} RunKeeps(c: Config, s: System, run: seq<Event>)
    requires SystemInv(c, s)
    ensures SystemInv(c, Run(c, s, run)) && SystemEvolves(s, Run(c, s, run))
  {
    if run == [] {
      SameEvolves(c, s);
    } else {
      var t := Run(c, s, run[..|run| - 1]);
      RunKeeps(c, s, run[..|run| - 1]);
      NextKeeps(c, t, run[|run| - 1]);
      SystemEvolvesTransitive(s, t, Run(c, s, run));
    }
  }

  /** Every reachable state satisfies the invariant, whatever the processes did. */
  lemma Reachable(c: Config, run: seq<Event>)
    ensures SystemInv(c, Reached(c, run))
  {
    forall user: nat
      ensures OpenLeases(EmptySystem.docs, user) == {}
    {
    }
    RunKeeps(c, EmptySystem, run);
  }

  lemma {:induction false} RunConcat(c: Config, s: System, a: seq<Event>, b: seq<Event>)
    ensures Run(c, s, a + b) == Run(c, Run(c, s, a), b)
  {
    if b == [] {
      assert a + b == a;
    } else {
      assert (a + b)[..|a + b| - 1] == a + b[..|b| - 1];
      RunConcat(c, s, a, b[..|b| - 1]);
    }
  }

  /** Along a run, the state after more events evolves from the state after fewer. */
  lemma LaterEvolves(c: Config, run: seq<Event>, i: nat)
    requires i <= |run|
    ensures SystemEvolves(Reached(c, run[..i]), Reached(c, run))
  {
    Reachable(c, run[..i]);
    RunKeeps(c, Reached(c, run[..i]), run[i..]);
    RunConcat(c, EmptySystem, run[..i], run[i..]);
    assert run[..i] + run[i..] == run;
  }

  /** The same for one document and two points of a run. */
  lemma DocumentEvolves(c: Config, run: seq<Event>, i: nat, j: nat, id: nat)
    requires i <= j <= |run| && id in Reached(c, run[..i]).docs
    ensures id in Reached(c, run[..j]).docs
    ensures DocInv(Reached(c, run[..i]).docs[id]) && DocInv(Reached(c, run[..j]).docs[id])
    ensures Evolves(Reached(c, run[..i]).docs[id], Reached(c, run[..j]).docs[id])
  {
    Reachable(c, run[..i]);
    Reachable(c, run[..j]);
    LaterEvolves(c, run[..j], i);
    assert run[..j][..i] == run[..i];
  }

  /** A step on the document is what its next state says. */
  lemma StepTaken(c: Config, s: System, id: nat, step: DocStep)
    requires id in s.docs && !step.TakeOverLease?
    ensures var t := Next(c, s, On(id, step));
            && id in t.docs && t.docs[id] == DocNext(s.docs[id], step, s.now, c.leaseSeconds, SlotFree(c, s, id))
  {
  }

  lemma KeptInv(c: Config, s: System, id: nat, run: seq<Event>)
    requires SystemInv(c, s) && id in s.docs
    ensures id in Run(c, s, run).docs && DocInv(Run(c, s, run).docs[id])
  {
    RunKeeps(c, s, run);
  }

  lemma OneLater(c: Config, s: System, event: Event, more: seq<Event>, k: nat)
    requires k <= |more|
    ensures Run(c, s, ([event] + more)[..k + 1]) == Run(c, Next(c, s, event), more[..k])
  {
    assert ([event] + more)[..k + 1] == [event] + more[..k];
    assert [event][..0] == [] && Run(c, s, []) == s && Run(c, s, [event]) == Next(c, s, event);
    RunConcat(c, s, [event], more[..k]);
  }
}
