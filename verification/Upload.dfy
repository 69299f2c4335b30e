/** Upload batch coordination: files and rows change together although only the rows are transactional. */
module Upload {
  import opened Rows
  import opened Transactions

  type Content = seq<bv8>

  /** An object key is derived from the batch and the document. */
  type Key = (nat, nat)

  datatype Files = Files(temp: map<Key, Content>, obj: map<Key, Content>)

  datatype RequestStatus = Coordinating | Accepted | FailedUpload

  /** The volume, the documents and the idempotency record of one batch, if the client sent a key. */
  datatype UploadState = UploadState(files: Files, docs: map<nat, Document>, request: Option<RequestStatus>)

  // ---------------------------------------------------------------------------------------------
  // What a run of the coordinator does
  // ---------------------------------------------------------------------------------------------

  function Without(m: map<Key, Content>, key: Key): map<Key, Content> {
    map k | k in m && k != key :: m[k]
  }

  function Moved(f: Files, key: Key): Files
    requires key in f.temp
  {
    Files(Without(f.temp, key), f.obj[key := f.temp[key]])
  }

  function Cleaned(f: Files, batch: nat): Files {
    Files(map k | k in f.temp && k.0 != batch :: f.temp[k], map k | k in f.obj && k.0 != batch :: f.obj[k])
  }

  /** Promotion in order, up to the first missing object or I/O error; `faults` are the documents whose
      rename fails in this run. */
  function PromoteAll(f: Files, batch: nat, ids: seq<nat>, faults: set<nat>): (r: (Files, bool)) {
    if ids == [] then (f, true)
    else
      var (g, ok) := PromoteAll(f, batch, ids[..|ids| - 1], faults);
      var id := ids[|ids| - 1];
      var key := (batch, id);
      if !ok then (g, false)
      else if key in g.obj then (g, true)
      else if key !in g.temp || id in faults then (g, false)
      else (Moved(g, key), true)
  }

  function QueueAll(docs: map<nat, Document>, ids: seq<nat>): map<nat, Document> {
    map id | id in docs :: if id in ids then MarkQueued(docs[id]) else docs[id]
  }

  function CompensateAll(docs: map<nat, Document>, ids: seq<nat>): map<nat, Document> {
    map id | id in docs :: if id in ids then Compensate(docs[id]) else docs[id]
  }

  function Converged(request: Option<RequestStatus>, status: RequestStatus): Option<RequestStatus> {
    if request.Some? then Some(status) else None
  }

  /** A run of the coordinator to its end. */
  function Coordinate(u: UploadState, batch: nat, ids: seq<nat>, faults: set<nat>): UploadState {
    var (f, ok) := PromoteAll(u.files, batch, ids, faults);
    if ok then UploadState(f, QueueAll(u.docs, ids), Converged(u.request, Accepted))
    else UploadState(Cleaned(f, batch), CompensateAll(u.docs, ids), Converged(u.request, FailedUpload))
  }

  /** A run that dies: after trying the first `tried` documents, or, when one of them failed, after the
      clean-up has removed any part of the batch.  The row transaction is not committed. */
  datatype Crash = Crash(tried: nat, faults: set<nat>, lost: set<nat>, lostTemp: set<nat>)

  function Removed(m: map<Key, Content>, batch: nat, lost: set<nat>): map<Key, Content> {
    map k | k in m && !(k.0 == batch && k.1 in lost) :: m[k]
  }

  function Crashed(u: UploadState, batch: nat, ids: seq<nat>, crash: Crash): UploadState {
    var tried := if crash.tried <= |ids| then ids[..crash.tried] else ids;
    var (f, ok) := PromoteAll(u.files, batch, tried, crash.faults);
    if ok then u.(files := f)
    else u.(files := Files(Removed(f.temp, batch, crash.lostTemp), Removed(f.obj, batch, crash.lost)))
  }

  /** Any number of runs that die one after the other. */
  function AfterCrashes(u: UploadState, batch: nat, ids: seq<nat>, crashes: seq<Crash>): UploadState {
    if crashes == [] then u
    else Crashed(AfterCrashes(u, batch, ids, crashes[..|crashes| - 1]), batch, ids, crashes[|crashes| - 1])
  }

  // ---------------------------------------------------------------------------------------------
  // The two outcomes
  // ---------------------------------------------------------------------------------------------

  /** A batch as the upload persists it: temporary objects, PENDING rows, no final object. */
  ghost predicate Fresh(u: UploadState, batch: nat, ids: seq<nat>, contents: map<nat, Content>) {
    && (forall id :: id in ids <==> id in contents)
    && (forall id :: id in ids ==> id in u.docs && u.docs[id] == NewDocument(u.docs[id].user))
    && (forall k :: k in u.files.temp && k.0 == batch ==> k.1 in contents)
    && (forall id :: id in contents ==> (batch, id) in u.files.temp && u.files.temp[(batch, id)] == contents[id])
    && (forall k :: k in u.files.obj ==> k.0 != batch)
  }

  ghost predicate AllQueued(v: UploadState, batch: nat, ids: seq<nat>, contents: map<nat, Content>) {
    && (forall id :: id in ids ==>
          && id in v.docs && v.docs[id].status.Queued? && v.docs[id].current == Some(Parse)
          && StageKey(Parse) in v.docs[id].tasks && v.docs[id].tasks[StageKey(Parse)].status.TaskQueued?
          && id in contents && (batch, id) in v.files.obj && v.files.obj[(batch, id)] == contents[id])
    && (v.request.Some? ==> v.request == Some(Accepted))
  }

  ghost predicate AllFailed(v: UploadState, batch: nat, ids: seq<nat>) {
    && (forall id :: id in ids ==>
          && id in v.docs && v.docs[id].status.Failed? && v.docs[id].error == Some(20011)
          && v.docs[id].current == Some(Parse)
          && StageKey(Parse) in v.docs[id].tasks && v.docs[id].tasks[StageKey(Parse)].status.TaskFailed?
          && v.docs[id].tasks[StageKey(Parse)].error == Some(20011))
    && (forall k :: k in v.files.temp || k in v.files.obj ==> k.0 != batch)
    && (v.request.Some? ==> v.request == Some(FailedUpload))
  }

  /** Nothing but the rows and objects of the batch is touched. */
  ghost predicate OthersKept(u: UploadState, v: UploadState, batch: nat, ids: seq<nat>) {
    && v.docs.Keys == u.docs.Keys
    && (forall id :: id in u.docs && id !in ids ==> v.docs[id] == u.docs[id])
    && (forall k: Key :: k.0 != batch ==> (k in v.files.temp <==> k in u.files.temp) && (k in v.files.obj <==> k in u.files.obj))
    && (forall k: Key :: k.0 != batch && k in u.files.temp ==> v.files.temp[k] == u.files.temp[k])
    && (forall k: Key :: k.0 != batch && k in u.files.obj ==> v.files.obj[k] == u.files.obj[k])
  }

  /** What survives any number of crashes: an object of the batch, temporary or final, has its content. */
  ghost predicate Genuine(f: Files, batch: nat, contents: map<nat, Content>) {
    && (forall k :: k in f.temp && k.0 == batch ==> k.1 in contents && f.temp[k] == contents[k.1])
    && (forall k :: k in f.obj && k.0 == batch ==> k.1 in contents && f.obj[k] == contents[k.1])
  }

  ghost predicate SameElsewhere(f: Files, g: Files, batch: nat) {
    && (forall k: Key :: k.0 != batch ==> (k in g.temp <==> k in f.temp) && (k in g.obj <==> k in f.obj))
    && (forall k: Key :: k.0 != batch && k in f.temp ==> g.temp[k] == f.temp[k])
    && (forall k: Key :: k.0 != batch && k in f.obj ==> g.obj[k] == f.obj[k])
  }

  lemma {:induction false} PromotionGenuine(f: Files, batch: nat, ids: seq<nat>, faults: set<nat>,
                                            contents: map<nat, Content>)
    requires Genuine(f, batch, contents)
    ensures var (g, ok) := PromoteAll(f, batch, ids, faults);
            && Genuine(g, batch, contents) && SameElsewhere(f, g, batch)
            && (ok ==> forall id :: id in ids ==> (batch, id) in g.obj)
            && (forall k :: k in f.obj ==> k in g.obj && g.obj[k] == f.obj[k])
            && (!ok ==> ids != [])
  {
    if ids != [] {
      PromotionGenuine(f, batch, ids[..|ids| - 1], faults, contents);
    }
  }

  /** The batch is accepted exactly when every document has an object and none still temporary fails to be
      renamed. */
  lemma {:induction false} PromotionExactly(f: Files, batch: nat, ids: seq<nat>, faults: set<nat>)
    ensures PromoteAll(f, batch, ids, faults).1 <==>
            forall id :: id in ids ==> (batch, id) in f.obj || ((batch, id) in f.temp && id !in faults)
    ensures PromoteAll(f, batch, ids, faults).1 ==>
            forall key :: key in f.temp || key in f.obj ==>
              var g := PromoteAll(f, batch, ids, faults).0; key in g.temp || key in g.obj
    ensures forall key :: key in f.obj ==> key in PromoteAll(f, batch, ids, faults).0.obj
    ensures forall key :: key in PromoteAll(f, batch, ids, faults).0.temp ==> key in f.temp
    ensures forall key :: key in PromoteAll(f, batch, ids, faults).0.obj ==>
              key in f.obj || (key in f.temp && key.1 !in faults)
  {
    if ids != [] {
      PromotionExactly(f, batch, ids[..|ids| - 1], faults);
    }
  }

  lemma {:induction false} CrashesGenuine(u: UploadState, batch: nat, ids: seq<nat>, crashes: seq<Crash>,
                                          contents: map<nat, Content>)
    requires Genuine(u.files, batch, contents)
    ensures var v := AfterCrashes(u, batch, ids, crashes);
            && Genuine(v.files, batch, contents) && SameElsewhere(u.files, v.files, batch)
            && v.docs == u.docs && v.request == u.request
  {
    if crashes != [] {
      CrashesGenuine(u, batch, ids, crashes[..|crashes| - 1], contents);
      var m := AfterCrashes(u, batch, ids, crashes[..|crashes| - 1]);
      var crash := crashes[|crashes| - 1];
      var tried := if crash.tried <= |ids| then ids[..crash.tried] else ids;
      PromotionGenuine(m.files, batch, tried, crash.faults, contents);
    }
  }

  /** The rows of a PENDING document in either outcome. */
  lemma PendingRows(user: nat)
    ensures var d := MarkQueued(NewDocument(user));
            && d.status.Queued? && d.current == Some(Parse)
            && StageKey(Parse) in d.tasks && d.tasks[StageKey(Parse)].status.TaskQueued?
    ensures var d := Compensate(NewDocument(user));
            && d.status.Failed? && d.error == Some(20011) && d.current == Some(Parse)
            && StageKey(Parse) in d.tasks && d.tasks[StageKey(Parse)].status.TaskFailed?
            && d.tasks[StageKey(Parse)].error == Some(20011)
    ensures MarkQueued(MarkQueued(NewDocument(user))) == MarkQueued(NewDocument(user))
    ensures Compensate(Compensate(NewDocument(user))) == Compensate(NewDocument(user))
  {
    var parse := StageKey(Parse);
    var d := Compensate(NewDocument(user));
    assert d.tasks[parse := FailTask(d.tasks[parse], STORAGE_FAILED)] == d.tasks;
  }

  lemma QueuedRows(docs: map<nat, Document>, ids: seq<nat>)
    requires forall id :: id in ids ==> id in docs && docs[id] == NewDocument(docs[id].user)
    ensures forall id :: id in ids ==>
              var d := QueueAll(docs, ids)[id];
              && d.status.Queued? && d.current == Some(Parse)
              && StageKey(Parse) in d.tasks && d.tasks[StageKey(Parse)].status.TaskQueued?
    ensures QueueAll(QueueAll(docs, ids), ids) == QueueAll(docs, ids)
  {
    forall id | id in ids
      ensures QueueAll(docs, ids)[id] == MarkQueued(NewDocument(docs[id].user))
      ensures QueueAll(QueueAll(docs, ids), ids)[id] == QueueAll(docs, ids)[id]
    {
      PendingRows(docs[id].user);
    }
    forall id | id in ids
      ensures var d := QueueAll(docs, ids)[id];
              && d.status.Queued? && d.current == Some(Parse)
              && StageKey(Parse) in d.tasks && d.tasks[StageKey(Parse)].status.TaskQueued?
    {
      PendingRows(docs[id].user);
    }
  }

  lemma CompensatedRows(docs: map<nat, Document>, ids: seq<nat>)
    requires forall id :: id in ids ==> id in docs && docs[id] == NewDocument(docs[id].user)
    ensures forall id :: id in ids ==>
              var d := CompensateAll(docs, ids)[id];
              && d.status.Failed? && d.error == Some(20011) && d.current == Some(Parse)
              && StageKey(Parse) in d.tasks && d.tasks[StageKey(Parse)].status.TaskFailed?
              && d.tasks[StageKey(Parse)].error == Some(20011)
    ensures CompensateAll(CompensateAll(docs, ids), ids) == CompensateAll(docs, ids)
  {
    forall id | id in ids
      ensures CompensateAll(docs, ids)[id] == Compensate(NewDocument(docs[id].user))
      ensures CompensateAll(CompensateAll(docs, ids), ids)[id] == CompensateAll(docs, ids)[id]
    {
      PendingRows(docs[id].user);
    }
    forall id | id in ids
      ensures var d := CompensateAll(docs, ids)[id];
              && d.status.Failed? && d.error == Some(20011) && d.current == Some(Parse)
              && StageKey(Parse) in d.tasks && d.tasks[StageKey(Parse)].status.TaskFailed?
              && d.tasks[StageKey(Parse)].error == Some(20011)
    {
      PendingRows(docs[id].user);
    }
  }

  /** The end of a run on a PENDING batch whose surviving objects are genuine. */
  lemma RunEnds(u: UploadState, batch: nat, ids: seq<nat>, contents: map<nat, Content>, faults: set<nat>)
    requires forall id :: id in ids ==> id in u.docs && u.docs[id] == NewDocument(u.docs[id].user)
    requires Genuine(u.files, batch, contents)
    ensures var v := Coordinate(u, batch, ids, faults);
            if PromoteAll(u.files, batch, ids, faults).1 then AllQueued(v, batch, ids, contents) else AllFailed(v, batch, ids)
  {
    PromotionGenuine(u.files, batch, ids, faults, contents);
    var v := Coordinate(u, batch, ids, faults);
    if PromoteAll(u.files, batch, ids, faults).1 {
      QueuedRows(u.docs, ids);
      assert v.docs == QueueAll(u.docs, ids);
      forall id | id in ids
        ensures id in contents && (batch, id) in v.files.obj && v.files.obj[(batch, id)] == contents[id]
      {
        assert (batch, id) in v.files.obj;
      }
    } else {
      CompensatedRows(u.docs, ids);
      assert v.docs == CompensateAll(u.docs, ids);
    }
  }

  lemma RunKeepsOthers(u: UploadState, batch: nat, ids: seq<nat>, contents: map<nat, Content>, faults: set<nat>)
    requires Genuine(u.files, batch, contents)
    ensures OthersKept(u, Coordinate(u, batch, ids, faults), batch, ids)
  {
    PromotionGenuine(u.files, batch, ids, faults, contents);
  }

  /** From a fresh batch, through any number of crashes after any part of promotion or clean-up, a run to
      the end leaves everything queued with its content in place, or everything failed and no object. */
  lemma AllOrNothing(u: UploadState, batch: nat, ids: seq<nat>, contents: map<nat, Content>, crashes: seq<Crash>,
                     faults: set<nat>)
    requires Fresh(u, batch, ids, contents)
    ensures var v := Coordinate(AfterCrashes(u, batch, ids, crashes), batch, ids, faults);
            (AllQueued(v, batch, ids, contents) || AllFailed(v, batch, ids)) && OthersKept(u, v, batch, ids)
  {
    CrashesGenuine(u, batch, ids, crashes, contents);
    var m := AfterCrashes(u, batch, ids, crashes);
    RunEnds(m, batch, ids, contents, faults);
    RunKeepsOthers(m, batch, ids, contents, faults);
  }

  // ---------------------------------------------------------------------------------------------
  // Without I/O errors
  // ---------------------------------------------------------------------------------------------

  /** The batch with the objects of `done` promoted and the others still temporary. */
  ghost predicate Between(f: Files, g: Files, batch: nat, done: set<nat>) {
    && (forall k :: k in g.temp <==> k in f.temp && !(k.0 == batch && k.1 in done))
    && (forall k :: k in g.temp ==> g.temp[k] == f.temp[k])
    && (forall k :: k in g.obj <==> k in f.obj || (k.0 == batch && k.1 in done))
    && (forall k :: k in g.obj ==> if k in f.obj then g.obj[k] == f.obj[k] else k in f.temp && g.obj[k] == f.temp[k])
  }

  lemma MovedBetween(f: Files, g: Files, batch: nat, done: set<nat>, id: nat)
    requires Between(f, g, batch, done) && (batch, id) in g.temp && (batch, id) !in g.obj
    ensures Between(f, Moved(g, (batch, id)), batch, done + {id})
  {
  }

  lemma {:induction false} PromotionBetween(f: Files, g: Files, batch: nat, ids: seq<nat>, done: set<nat>)
    requires Between(f, g, batch, done)
    requires forall id :: id in ids || id in done ==> (batch, id) in f.temp && (batch, id) !in f.obj
    ensures var (h, ok) := PromoteAll(g, batch, ids, {});
            ok && Between(f, h, batch, done + set id | id in ids)
  {
    if ids != [] {
      var front := ids[..|ids| - 1];
      var id := ids[|ids| - 1];
      var before := done + set i | i in front;
      PromotionBetween(f, g, batch, front, done);
      assert before + {id} == done + set i | i in ids;
      var (h, _) := PromoteAll(g, batch, front, {});
      if id in before {
        assert before + {id} == before;
      } else {
        MovedBetween(f, h, batch, before, id);
      }
    } else {
      assert done + (set id | id in ids) == done;
    }
  }

  lemma BetweenUnique(f: Files, g: Files, h: Files, batch: nat, done: set<nat>)
    requires Between(f, g, batch, done) && Between(f, h, batch, done)
    ensures g == h
  {
    assert g.temp == h.temp && g.obj == h.obj;
  }

  lemma {:induction false} CrashesBetween(u: UploadState, batch: nat, ids: seq<nat>, crashes: seq<Crash>)
                                         returns (done: set<nat>)
    requires forall id :: id in ids ==> (batch, id) in u.files.temp && (batch, id) !in u.files.obj
    requires forall k :: 0 <= k < |crashes| ==> crashes[k].faults == {}
    ensures done <= (set id | id in ids) && Between(u.files, AfterCrashes(u, batch, ids, crashes).files, batch, done)
    ensures AfterCrashes(u, batch, ids, crashes).docs == u.docs
            && AfterCrashes(u, batch, ids, crashes).request == u.request
  {
    if crashes == [] {
      done := {};
    } else {
      var before := CrashesBetween(u, batch, ids, crashes[..|crashes| - 1]);
      var m := AfterCrashes(u, batch, ids, crashes[..|crashes| - 1]);
      var crash := crashes[|crashes| - 1];
      var tried := if crash.tried <= |ids| then ids[..crash.tried] else ids;
      PromotionBetween(u.files, m.files, batch, tried, before);
      done := before + set id | id in tried;
    }
  }

  /** Without I/O errors the crashes leave no trace: the outcome is that of an uninterrupted run, and it is
      the accepted one. */
  lemma SameAsUninterrupted(u: UploadState, batch: nat, ids: seq<nat>, contents: map<nat, Content>, crashes: seq<Crash>)
    requires Fresh(u, batch, ids, contents)
    requires forall k :: 0 <= k < |crashes| ==> crashes[k].faults == {}
    ensures Coordinate(AfterCrashes(u, batch, ids, crashes), batch, ids, {}) == Coordinate(u, batch, ids, {})
    ensures AllQueued(Coordinate(u, batch, ids, {}), batch, ids, contents)
  {
    var done := CrashesBetween(u, batch, ids, crashes);
    var all := set id | id in ids;
    var m := AfterCrashes(u, batch, ids, crashes);
    PromotionBetween(u.files, m.files, batch, ids, done);
    assert done + all == all;
    RunEnds(u, batch, ids, contents, {});
    PromotionBetween(u.files, u.files, batch, ids, {});
    assert {} + all == all;
    BetweenUnique(u.files, PromoteAll(m.files, batch, ids, {}).0, PromoteAll(u.files, batch, ids, {}).0, batch, all);
  }

  /** A crash can leave the first documents, however many, promoted and the others temporary; after a failed promotion
      it can leave any part of the batch removed. */
  lemma CrashLeaves(u: UploadState, batch: nat, ids: seq<nat>, crash: Crash)
    requires forall id :: id in ids ==> (batch, id) in u.files.temp && (batch, id) !in u.files.obj
    requires crash.tried <= |ids|
    ensures var v := Crashed(u, batch, ids, crash);
            && v.docs == u.docs && v.request == u.request
            && (crash.faults == {} ==> Between(u.files, v.files, batch, set id | id in ids[..crash.tried]))
            && ((exists id :: id in ids[..crash.tried] && id in crash.faults) ==>
                  && (forall id :: id in crash.lost ==> (batch, id) !in v.files.obj)
                  && (forall id :: id in crash.lostTemp ==> (batch, id) !in v.files.temp)
                  && (forall id :: id in ids && id !in crash.lost && id !in crash.lostTemp ==>
                        (batch, id) in v.files.temp || (batch, id) in v.files.obj))
  {
    var tried := ids[..crash.tried];
    if crash.faults == {} {
      PromotionBetween(u.files, u.files, batch, tried, {});
      assert {} + (set id | id in tried) == set id | id in tried;
    } else if id :| id in tried && id in crash.faults {
      PromotionExactly(u.files, batch, tried, crash.faults);
      assert !PromoteAll(u.files, batch, tried, crash.faults).1;
      NothingDropped(u.files, batch, tried, crash.faults);
    }
  }

  /** Promotion moves objects and drops none. */
  lemma {:induction false} NothingDropped(f: Files, batch: nat, ids: seq<nat>, faults: set<nat>)
    ensures var g := PromoteAll(f, batch, ids, faults).0;
            forall k :: k in f.temp || k in f.obj ==> k in g.temp || k in g.obj
  {
    if ids != [] {
      NothingDropped(f, batch, ids[..|ids| - 1], faults);
    }
  }

  // ---------------------------------------------------------------------------------------------
  // Running it again
  // ---------------------------------------------------------------------------------------------

  lemma {:induction false} PromotedAgain(f: Files, batch: nat, ids: seq<nat>, faults: set<nat>)
    requires forall id :: id in ids ==> (batch, id) in f.obj
    ensures PromoteAll(f, batch, ids, faults) == (f, true)
  {
    if ids != [] {
      PromotedAgain(f, batch, ids[..|ids| - 1], faults);
    }
  }

  lemma {:induction false} NothingLeft(f: Files, batch: nat, ids: seq<nat>, faults: set<nat>)
    requires ids != [] && forall k :: k in f.temp || k in f.obj ==> k.0 != batch
    ensures PromoteAll(f, batch, ids, faults) == (f, false)
  {
    if |ids| > 1 {
      NothingLeft(f, batch, ids[..|ids| - 1], faults);
    }
  }

  /** A converged batch stays as it is, however often it is coordinated again. */
  lemma CoordinateAgain(u: UploadState, batch: nat, ids: seq<nat>, contents: map<nat, Content>, faults: set<nat>,
                        again: set<nat>)
    requires Fresh(u, batch, ids, contents) && ids != []
    ensures var v := Coordinate(u, batch, ids, faults);
            Coordinate(v, batch, ids, again) == v
  {
    RunEnds(u, batch, ids, contents, faults);
    var v := Coordinate(u, batch, ids, faults);
    if PromoteAll(u.files, batch, ids, faults).1 {
      PromotedAgain(v.files, batch, ids, again);
      QueuedRows(u.docs, ids);
    } else {
      NothingLeft(v.files, batch, ids, again);
      assert Cleaned(v.files, batch) == v.files;
      CompensatedRows(u.docs, ids);
    }
  }

  // ---------------------------------------------------------------------------------------------
  // The code as it runs
  // ---------------------------------------------------------------------------------------------

  datatype Promotion = Promoted | Missing | IoError

  /** The local volume. */
  class LocalStorage {
    var temp: map<Key, Content>
    var obj: map<Key, Content>

    constructor ()
      ensures Value() == Files(map[], map[])
    {
      temp, obj := map[], map[];
    }

    function Value(): Files
      reads this
    {
      Files(temp, obj)
    }

    method WriteTemp(key: Key, content: Content)
      modifies this`temp
      ensures temp == old(temp)[key := content]
    {
      temp := temp[key := content];
    }

    /** Atomic rename on one volume; a final object that is already there counts as promoted. */
    method Promote(key: Key, fault: bool) returns (r: Promotion)
      modifies this
      ensures r.Promoted? <==> key in old(obj) || (key in old(temp) && !fault)
      ensures r.Missing? <==> key !in old(obj) && key !in old(temp)
      ensures Value() == if r.Promoted? && key !in old(obj) then Moved(old(Value()), key) else old(Value())
    {
      if key in obj {
        return Promoted;
      }
      if key !in temp {
        return Missing;
      }
      if fault {
        return IoError;
      }
      obj := obj[key := temp[key]];
      temp := Without(temp, key);
      r := Promoted;
    }

    method PromoteBatch(batch: nat, ids: seq<nat>, faults: set<nat>) returns (ok: bool)
      modifies this
      ensures (Value(), ok) == PromoteAll(old(Value()), batch, ids, faults)
    {
      var i := 0;
      while i < |ids|
        invariant 0 <= i <= |ids|
        invariant (Value(), true) == PromoteAll(old(Value()), batch, ids[..i], faults)
      {
        assert ids[..i + 1][..i] == ids[..i];
        var r := Promote((batch, ids[i]), ids[i] in faults);
        i := i + 1;
        if !r.Promoted? {
          FailureStays(old(Value()), batch, ids, i, faults);
          return false;
        }
      }
      assert ids[..i] == ids;
      ok := true;
    }

    method CleanupBatch(batch: nat)
      modifies this
      ensures Value() == Cleaned(old(Value()), batch)
    {
      temp := map k | k in temp && k.0 != batch :: temp[k];
      obj := map k | k in obj && k.0 != batch :: obj[k];
    }
  }

  /** Nothing is promoted after the first failure. */
  lemma {:induction false} FailureStays(f: Files, batch: nat, ids: seq<nat>, n: nat, faults: set<nat>)
    requires n <= |ids| && !PromoteAll(f, batch, ids[..n], faults).1
    ensures PromoteAll(f, batch, ids, faults) == PromoteAll(f, batch, ids[..n], faults)
  {
    if n == |ids| {
      assert ids[..n] == ids;
    } else {
      assert ids[..|ids| - 1][..n] == ids[..n];
      FailureStays(f, batch, ids[..|ids| - 1], n, faults);
    }
  }

  function IdsOf(files: seq<(nat, Content)>): seq<nat> {
    seq(|files|, i requires 0 <= i < |files| => files[i].0)
  }

  function ContentsOf(files: seq<(nat, Content)>): map<nat, Content>
    requires forall i, j :: 0 <= i < j < |files| ==> files[i].0 != files[j].0
  {
    map i | 0 <= i < |files| :: files[i].0 := files[i].1
  }

  lemma FilesOf(files: seq<(nat, Content)>)
    requires forall i, j :: 0 <= i < j < |files| ==> files[i].0 != files[j].0
    ensures forall id :: id in IdsOf(files) <==> exists i :: 0 <= i < |files| && files[i].0 == id
    ensures forall id :: id in ContentsOf(files) <==> exists i :: 0 <= i < |files| && files[i].0 == id
    ensures forall i :: 0 <= i < |files| ==> ContentsOf(files)[files[i].0] == files[i].1
  {
    forall i | 0 <= i < |files|
      ensures files[i].0 in IdsOf(files) && files[i].0 in ContentsOf(files)
    {
      assert IdsOf(files)[i] == files[i].0;
    }
  }

  class UploadCoordinator {
    const storage: LocalStorage
    var docs: map<nat, Document>
    var request: Option<RequestStatus>

    constructor (storage: LocalStorage)
      ensures this.storage == storage && docs == map[] && request == None
    {
      this.storage := storage;
      docs, request := map[], None;
    }

    function Value(): UploadState
      reads this, storage
    {
      UploadState(storage.Value(), docs, request)
    }

    /** Write the temporary objects, then the rows and the idempotency record in one transaction. */
    method PersistBatch(user: nat, batch: nat, files: seq<(nat, Content)>, keyed: bool)
      requires forall i, j :: 0 <= i < j < |files| ==> files[i].0 != files[j].0
      requires forall k :: k in storage.temp || k in storage.obj ==> k.0 != batch
      modifies this, storage
      ensures Fresh(Value(), batch, IdsOf(files), ContentsOf(files))
      ensures request == if keyed then Some(Coordinating) else None
    {
      StoreTemporaries(batch, files);
      CreateRows(user, files);
      request := if keyed then Some(Coordinating) else None;
      FilesOf(files);
    }

    method StoreTemporaries(batch: nat, files: seq<(nat, Content)>)
      requires forall i, j :: 0 <= i < j < |files| ==> files[i].0 != files[j].0
      requires forall k :: k in storage.temp ==> k.0 != batch
      modifies storage`temp
      ensures forall k :: k in storage.temp && k.0 == batch ==> exists j :: 0 <= j < |files| && files[j].0 == k.1
      ensures forall j :: 0 <= j < |files| ==>
                (batch, files[j].0) in storage.temp && storage.temp[(batch, files[j].0)] == files[j].1
    {
      var i := 0;
      while i < |files|
        invariant 0 <= i <= |files|
        invariant forall k :: k in storage.temp && k.0 == batch ==> exists j :: 0 <= j < i && files[j].0 == k.1
        invariant forall j :: 0 <= j < i ==>
                    (batch, files[j].0) in storage.temp && storage.temp[(batch, files[j].0)] == files[j].1
      {
        storage.WriteTemp((batch, files[i].0), files[i].1);
        i := i + 1;
      }
    }

    method CreateRows(user: nat, files: seq<(nat, Content)>)
      modifies this`docs
      ensures forall j :: 0 <= j < |files| ==> files[j].0 in docs && docs[files[j].0] == NewDocument(user)
    {
      var i := 0;
      while i < |files|
        invariant 0 <= i <= |files|
        invariant forall j :: 0 <= j < i ==> files[j].0 in docs && docs[files[j].0] == NewDocument(user)
      {
        docs := docs[files[i].0 := NewDocument(user)];
        i := i + 1;
      }
    }

    /** `ids` are the documents whose row locks the coordinator got: the whole batch, or none. */
    method CoordinateBatch(batch: nat, ids: seq<nat>, faults: set<nat>) returns (coordinated: bool)
      modifies this, storage
      ensures coordinated <==> ids != []
      ensures Value() == if ids == [] then old(Value()) else Coordinate(old(Value()), batch, ids, faults)
    {
      if ids == [] {
        return false;
      }
      var ok := storage.PromoteBatch(batch, ids, faults);
      if ok {
        MarkBatchQueued(ids);
      } else {
        CompensateBatch(batch, ids);
      }
      coordinated := true;
    }

    /** Two bulk updates, each only of rows still PENDING, and the record. */
    method MarkBatchQueued(ids: seq<nat>)
      modifies this
      ensures docs == QueueAll(old(docs), ids) && request == Converged(old(request), Accepted)
    {
      var parse := StageKey(Parse);
      docs := map id | id in docs ::
        if id in ids && docs[id].status.Pending? then docs[id].(status := Queued, current := Some(Parse)) else docs[id];
      docs := map id | id in docs ::
        if id in ids && parse in docs[id].tasks && docs[id].tasks[parse].status.TaskPending?
        then PutTask(docs[id], parse, docs[id].tasks[parse].(status := TaskQueued)) else docs[id];
      if request.Some? {
        request := Some(Accepted);
      }
    }

    /** Remove every object of the batch; then fail all its documents and parse tasks. */
    method CompensateBatch(batch: nat, ids: seq<nat>)
      modifies this, storage
      ensures storage.Value() == Cleaned(old(storage.Value()), batch)
      ensures docs == CompensateAll(old(docs), ids) && request == Converged(old(request), FailedUpload)
    {
      storage.CleanupBatch(batch);
      var parse := StageKey(Parse);
      docs := map id | id in docs ::
        if id in ids then docs[id].(status := Failed, current := Some(Parse), error := Some(STORAGE_FAILED)) else docs[id];
      docs := map id | id in docs ::
        if id in ids && parse in docs[id].tasks
        then PutTask(docs[id], parse, FailTask(docs[id].tasks[parse], STORAGE_FAILED)) else docs[id];
      if request.Some? {
        request := Some(FailedUpload);
      }
    }
  }
}
