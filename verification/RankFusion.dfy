/** Reciprocal rank fusion of the two recalls, with exact fractions in place of floats. */
module RankFusion {
  import opened Collections
  import opened Ordering

  datatype Chunk = Chunk(id: nat, document: nat, position: int, content: string)

  datatype Entry = Entry(candidate: Chunk, fused: real)

  const RRF_K: nat := 60
  const RECALL_LIMIT: nat := 20

  // ---------------------------------------------------------------------------------------------
  // What fusion computes
  // ---------------------------------------------------------------------------------------------

  function Share(k: nat, rank: nat): real
    requires rank >= 1
  {
    1.0 / (k + rank) as real
  }

  /** The sum of the shares of a chunk in one list. */
  function Hits(list: seq<Chunk>, id: nat, k: nat): real {
    if list == [] then 0.0
    else Hits(list[..|list| - 1], id, k) + if list[|list| - 1].id == id then Share(k, |list|) else 0.0
  }

  function Fused(vector: seq<Chunk>, keyword: seq<Chunk>, id: nat, k: nat): real {
    Hits(vector, id, k) + Hits(keyword, id, k)
  }

  predicate Occurs(list: seq<Chunk>, id: nat) {
    exists i :: 0 <= i < |list| && list[i].id == id
  }

  /** The first row of each chunk, in order of appearance. */
  function Firsts(list: seq<Chunk>): seq<Chunk> {
    if list == [] then []
    else
      var front := list[..|list| - 1];
      var last := list[|list| - 1];
      if Occurs(front, last.id) then Firsts(front) else Firsts(front) + [last]
  }

  /** Larger score first, then document, then position. */
  predicate Before(a: Entry, b: Entry) {
    || a.fused > b.fused
    || (a.fused == b.fused
        && (a.candidate.document < b.candidate.document
            || (a.candidate.document == b.candidate.document && a.candidate.position < b.candidate.position)))
  }

  function Scored(firsts: seq<Chunk>, vector: seq<Chunk>, keyword: seq<Chunk>, k: nat): seq<Entry> {
    seq(|firsts|, i requires 0 <= i < |firsts| => Entry(firsts[i], Fused(vector, keyword, firsts[i].id, k)))
  }

  function Fuse(vector: seq<Chunk>, keyword: seq<Chunk>, k: nat): seq<Entry> {
    Sort(Scored(Firsts(vector + keyword), vector, keyword, k), Before)
  }

  // ---------------------------------------------------------------------------------------------
  // The code as it runs
  // ---------------------------------------------------------------------------------------------

  /** The dictionary keeps its keys in the order of insertion. */
  method RrfFuse(vector: seq<Chunk>, keyword: seq<Chunk>, k: nat) returns (ordered: seq<Entry>)
    ensures ordered == Fuse(vector, keyword, k)
  {
    var entries: map<nat, Entry> := map[];
    var keys: seq<nat> := [];
    var sources := [vector, keyword];
    var source := 0;
    while source < 2
      invariant 0 <= source <= 2
      invariant Filled(entries, keys, if source == 0 then [] else vector, if source == 2 then keyword else [], k)
    {
      var candidates := sources[source];
      var rank := 0;
      assert candidates[..0] == [];
      while rank < |candidates|
        invariant 0 <= rank <= |candidates|
        invariant source == 0 ==> Filled(entries, keys, vector[..rank], [], k)
        invariant source == 1 ==> Filled(entries, keys, vector, keyword[..rank], k)
      {
        if source == 0 {
          FilledVector(entries, keys, vector, rank, k);
        } else {
          FilledKeyword(entries, keys, vector, keyword, rank, k);
        }
        entries, keys := Count(entries, keys, candidates[rank], k, rank + 1);
        rank := rank + 1;
      }
      assert candidates[..rank] == candidates;
      source := source + 1;
    }
    ordered := Sort(Values(entries, keys), Before);
    FilledValues(entries, keys, vector, keyword, k);
  }

  method Count(entries: map<nat, Entry>, keys: seq<nat>, candidate: Chunk, k: nat, rank: nat)
    returns (counted: map<nat, Entry>, listed: seq<nat>)
    requires rank >= 1
    ensures counted == Counted(entries, candidate, k, rank) && listed == Listed(entries, keys, candidate)
  {
    counted, listed := entries, keys;
    if candidate.id !in counted {
      counted := counted[candidate.id := Entry(candidate, 0.0)];
      listed := listed + [candidate.id];
    }
    var entry := counted[candidate.id];
    counted := counted[candidate.id := entry.(fused := entry.fused + 1.0 / (k + rank) as real)];
  }

  /** The values of the dictionary in the order of its keys. */
  function Values(entries: map<nat, Entry>, keys: seq<nat>): seq<Entry>
    requires forall i :: 0 <= i < |keys| ==> keys[i] in entries
  {
    seq(|keys|, i requires 0 <= i < |keys| => entries[keys[i]])
  }

  lemma FilledValues(entries: map<nat, Entry>, keys: seq<nat>, vector: seq<Chunk>, keyword: seq<Chunk>, k: nat)
    requires Filled(entries, keys, vector, keyword, k)
    ensures Values(entries, keys) == Scored(Firsts(vector + keyword), vector, keyword, k)
  {
  }

  /** The dictionary after the given parts of both lists. */
  ghost predicate Filled(entries: map<nat, Entry>, keys: seq<nat>, vector: seq<Chunk>, keyword: seq<Chunk>, k: nat) {
    && Holds(entries, keys, Firsts(vector + keyword), (id: nat) => Fused(vector, keyword, id, k))
    && (forall id :: id in entries <==> Occurs(vector + keyword, id))
  }

  /** `entries` and `keys` after one more candidate with this rank. */
  function Counted(entries: map<nat, Entry>, candidate: Chunk, k: nat, rank: nat): map<nat, Entry>
    requires rank >= 1
  {
    var entry := if candidate.id in entries then entries[candidate.id] else Entry(candidate, 0.0);
    entries[candidate.id := entry.(fused := entry.fused + Share(k, rank))]
  }

  function Listed(entries: map<nat, Entry>, keys: seq<nat>, candidate: Chunk): seq<nat> {
    if candidate.id in entries then keys else keys + [candidate.id]
  }

  lemma {:induction false} NoHits(list: seq<Chunk>, id: nat, k: nat)
    requires !Occurs(list, id)
    ensures Hits(list, id, k) == 0.0
  {
    if list != [] {
      NoHits(list[..|list| - 1], id, k);
    }
  }

  lemma HitsAppend(list: seq<Chunk>, c: Chunk, id: nat, k: nat)
    ensures Hits(list + [c], id, k) == Hits(list, id, k) + if c.id == id then Share(k, |list| + 1) else 0.0
  {
    assert (list + [c])[..|list|] == list;
  }

  lemma FirstsAppend(list: seq<Chunk>, c: Chunk)
    ensures Firsts(list + [c]) == if Occurs(list, c.id) then Firsts(list) else Firsts(list) + [c]
    ensures forall id :: Occurs(list + [c], id) <==> Occurs(list, id) || id == c.id
  {
    assert (list + [c])[..|list|] == list;
    forall id | Occurs(list, id)
      ensures Occurs(list + [c], id)
    {
      var i :| 0 <= i < |list| && list[i].id == id;
      assert (list + [c])[i].id == id;
    }
    assert (list + [c])[|list|].id == c.id;
  }

  /** The dictionary's values are those of the rows `firsts`, in order, with the scores `fused`. */
  ghost predicate Holds(entries: map<nat, Entry>, keys: seq<nat>, firsts: seq<Chunk>, fused: nat -> real) {
    && |keys| == |firsts|
    && (forall i :: 0 <= i < |keys| ==>
          keys[i] == firsts[i].id && keys[i] in entries && entries[keys[i]] == Entry(firsts[i], fused(keys[i])))
    && (forall i, j :: 0 <= i < j < |keys| ==> keys[i] != keys[j])
  }

  lemma HoldsNext(entries: map<nat, Entry>, keys: seq<nat>, firsts: seq<Chunk>, fused: nat -> real, fused': nat -> real,
                  c: Chunk, k: nat, rank: nat)
    requires Holds(entries, keys, firsts, fused) && rank >= 1
    requires forall i :: 0 <= i < |keys| ==>
               fused'(keys[i]) == fused(keys[i]) + if c.id == keys[i] then Share(k, rank) else 0.0
    requires c.id in entries ==> c.id in keys
    requires c.id !in entries ==> fused'(c.id) == Share(k, rank)
    ensures Holds(Counted(entries, c, k, rank), Listed(entries, keys, c),
                  if c.id in entries then firsts else firsts + [c], fused')
  {
  }

  /** One more candidate `c`, seen at `rank`, takes the lists `v`, `w` to `v'`, `w'`. */
  lemma FilledNext(entries: map<nat, Entry>, keys: seq<nat>, v: seq<Chunk>, w: seq<Chunk>,
                   v': seq<Chunk>, w': seq<Chunk>, c: Chunk, k: nat, rank: nat)
    requires Filled(entries, keys, v, w, k) && v' + w' == v + w + [c] && rank >= 1
    requires forall id :: Fused(v', w', id, k) == Fused(v, w, id, k) + if c.id == id then Share(k, rank) else 0.0
    ensures Filled(Counted(entries, c, k, rank), Listed(entries, keys, c), v', w', k)
  {
    FirstsAppend(v + w, c);
    if c.id !in entries {
      OccursEither(v, w, c.id);
      NoHits(v, c.id, k);
      NoHits(w, c.id, k);
    } else {
      ListedKey(keys, Firsts(v + w), v + w, c.id);
    }
    HoldsNext(entries, keys, Firsts(v + w), (id: nat) => Fused(v, w, id, k), (id: nat) => Fused(v', w', id, k), c, k, rank);
  }

  /** Every chunk of a list has a key. */
  lemma ListedKey(keys: seq<nat>, firsts: seq<Chunk>, list: seq<Chunk>, id: nat)
    requires firsts == Firsts(list) && |keys| == |firsts| && Occurs(list, id)
    requires forall i :: 0 <= i < |keys| ==> keys[i] == firsts[i].id
    ensures id in keys
  {
    FirstsOnce(list);
    var i :| 0 <= i < |firsts| && firsts[i].id == id;
    assert keys[i] == id;
  }

  lemma OccursEither(v: seq<Chunk>, w: seq<Chunk>, id: nat)
    ensures Occurs(v + w, id) <==> Occurs(v, id) || Occurs(w, id)
  {
    if Occurs(v + w, id) {
      var i :| 0 <= i < |v + w| && (v + w)[i].id == id;
      assert if i < |v| then v[i].id == id else w[i - |v|].id == id;
    } else {
      forall i | 0 <= i < |v|
        ensures v[i].id != id
      {
        assert (v + w)[i] == v[i];
      }
      forall i | 0 <= i < |w|
        ensures w[i].id != id
      {
        assert (v + w)[|v| + i] == w[i];
      }
    }
  }

  lemma FilledVector(entries: map<nat, Entry>, keys: seq<nat>, vector: seq<Chunk>, rank: nat, k: nat)
    requires rank < |vector| && Filled(entries, keys, vector[..rank], [], k)
    ensures Filled(Counted(entries, vector[rank], k, rank + 1), Listed(entries, keys, vector[rank]), vector[..rank + 1], [], k)
  {
    var v, c := vector[..rank], vector[rank];
    assert vector[..rank + 1] == v + [c] && v + [] == v && v + [c] + [] == v + [] + [c];
    forall id
      ensures Fused(vector[..rank + 1], [], id, k) == Fused(v, [], id, k) + if c.id == id then Share(k, rank + 1) else 0.0
    {
      HitsAppend(v, c, id, k);
    }
    FilledNext(entries, keys, v, [], vector[..rank + 1], [], c, k, rank + 1);
  }

  lemma FilledKeyword(entries: map<nat, Entry>, keys: seq<nat>, v: seq<Chunk>, keyword: seq<Chunk>, rank: nat, k: nat)
    requires rank < |keyword| && Filled(entries, keys, v, keyword[..rank], k)
    ensures Filled(Counted(entries, keyword[rank], k, rank + 1), Listed(entries, keys, keyword[rank]), v, keyword[..rank + 1], k)
  {
    var w, c := keyword[..rank], keyword[rank];
    assert keyword[..rank + 1] == w + [c] && v + (w + [c]) == v + w + [c];
    forall id
      ensures Fused(v, keyword[..rank + 1], id, k) == Fused(v, w, id, k) + if c.id == id then Share(k, rank + 1) else 0.0
    {
      HitsAppend(w, c, id, k);
    }
    FilledNext(entries, keys, v, w, v, keyword[..rank + 1], c, k, rank + 1);
  }

  // ---------------------------------------------------------------------------------------------
  // Each chunk once, in order
  // ---------------------------------------------------------------------------------------------

  predicate DistinctIds(list: seq<Chunk>) {
    forall i, j :: 0 <= i < j < |list| ==> list[i].id != list[j].id
  }

  lemma DistinctAppend(list: seq<Chunk>, c: Chunk)
    requires DistinctIds(list) && !Occurs(list, c.id)
    ensures DistinctIds(list + [c])
  {
  }

  lemma {:induction false} FirstsOnce(list: seq<Chunk>)
    ensures DistinctIds(Firsts(list)) && forall id :: Occurs(Firsts(list), id) <==> Occurs(list, id)
  {
    if list != [] {
      var front, last := list[..|list| - 1], list[|list| - 1];
      FirstsOnce(front);
      FirstsAppend(front, last);
      FirstsAppend(Firsts(front), last);
      assert list == front + [last];
      if !Occurs(front, last.id) {
        DistinctAppend(Firsts(front), last);
      }
    }
  }

  predicate OccursIn(entries: seq<Entry>, id: nat) {
    exists i :: 0 <= i < |entries| && entries[i].candidate.id == id
  }

  /** The output holds every chunk of either list exactly once, with its fused score, in the order of
      score, document and position. */
  lemma FusedExactlyOnce(vector: seq<Chunk>, keyword: seq<Chunk>, k: nat)
    ensures var r := Fuse(vector, keyword, k);
            && (forall id :: OccursIn(r, id) <==> Occurs(vector, id) || Occurs(keyword, id))
            && (forall i, j :: 0 <= i < j < |r| ==> r[i].candidate.id != r[j].candidate.id)
            && (forall i :: 0 <= i < |r| ==> r[i].fused == Fused(vector, keyword, r[i].candidate.id, k))
            && (forall i, j :: 0 <= i < j < |r| ==> !Before(r[j], r[i]))
  {
    var all := vector + keyword;
    var scored := Scored(Firsts(all), vector, keyword, k);
    var r := Fuse(vector, keyword, k);
    FirstsOnce(all);
    SortSorts(scored, Before);
    forall i | 0 <= i < |r|
      ensures r[i] in scored
    {
      assert r[i] in multiset(r);
    }
    forall i | 0 <= i < |scored|
      ensures scored[i] in r
    {
      assert scored[i] in multiset(scored);
    }
    forall id
      ensures OccursIn(r, id) <==> Occurs(vector, id) || Occurs(keyword, id)
    {
      SameIds(scored, r, id);
      OccursEither(vector, keyword, id);
      ScoredIds(Firsts(all), vector, keyword, k, id);
    }
    DistinctSorted(scored, r);
  }

  lemma ScoredIds(firsts: seq<Chunk>, vector: seq<Chunk>, keyword: seq<Chunk>, k: nat, id: nat)
    ensures OccursIn(Scored(firsts, vector, keyword, k), id) <==> Occurs(firsts, id)
  {
    var scored := Scored(firsts, vector, keyword, k);
    if Occurs(firsts, id) {
      var i :| 0 <= i < |firsts| && firsts[i].id == id;
      assert scored[i].candidate.id == id;
    }
  }

  lemma SameIds(a: seq<Entry>, b: seq<Entry>, id: nat)
    requires (forall i :: 0 <= i < |a| ==> a[i] in b) && (forall i :: 0 <= i < |b| ==> b[i] in a)
    ensures OccursIn(a, id) <==> OccursIn(b, id)
  {
  }

  /** Rearranging entries of different chunks brings no chunk in twice. */
  lemma DistinctSorted(a: seq<Entry>, b: seq<Entry>)
    requires multiset(a) == multiset(b)
    requires forall i, j :: 0 <= i < j < |a| ==> a[i].candidate.id != a[j].candidate.id
    ensures forall i, j :: 0 <= i < j < |b| ==> b[i].candidate.id != b[j].candidate.id
  {
    forall i, j | 0 <= i < j < |b|
      ensures b[i].candidate.id != b[j].candidate.id
    {
      if b[i].candidate.id == b[j].candidate.id {
        assert b[i] in multiset(a) && b[j] in multiset(a);
        var x :| 0 <= x < |a| && a[x] == b[i];
        var y :| 0 <= y < |a| && a[y] == b[j];
        assert x == y && b[i] == b[j];
        Twice(b, i, j);
        Once(a, x);
      }
    }
  }

  // ---------------------------------------------------------------------------------------------
  // Who comes first
  // ---------------------------------------------------------------------------------------------

  /** The chunk with one id comes before the chunk with the other. */
  predicate Precedes(r: seq<Entry>, a: nat, b: nat) {
    exists i, j :: 0 <= i < j < |r| && r[i].candidate.id == a && r[j].candidate.id == b
  }

  lemma HigherPrecedes(vector: seq<Chunk>, keyword: seq<Chunk>, k: nat, a: nat, b: nat)
    requires (Occurs(vector, a) || Occurs(keyword, a)) && (Occurs(vector, b) || Occurs(keyword, b))
    requires Fused(vector, keyword, a, k) > Fused(vector, keyword, b, k)
    ensures Precedes(Fuse(vector, keyword, k), a, b)
  {
    FusedExactlyOnce(vector, keyword, k);
    var r := Fuse(vector, keyword, k);
    assert OccursIn(r, a) && OccursIn(r, b);
    var i :| 0 <= i < |r| && r[i].candidate.id == a;
    var j :| 0 <= j < |r| && r[j].candidate.id == b;
    assert i < j;
  }

  /** In a list without repetitions a chunk has the share of its rank. */
  lemma {:induction false} OneHit(list: seq<Chunk>, i: nat, k: nat)
    requires DistinctIds(list) && i < |list|
    ensures Hits(list, list[i].id, k) == Share(k, i + 1)
  {
    var front := list[..|list| - 1];
    if i == |list| - 1 {
      assert !Occurs(front, list[i].id);
      NoHits(front, list[i].id, k);
    } else {
      OneHit(front, i, k);
    }
  }

  lemma ShareFalls(k: nat, r: nat, s: nat)
    requires 1 <= r < s
    ensures Share(k, r) > Share(k, s) > 0.0
  {
    var x, y := (k + r) as real, (k + s) as real;
    assert 0.0 < x < y;
    assert 1.0 / x > 1.0 / y > 0.0 by {
      assert (1.0 / x) * x == 1.0 && (1.0 / y) * y == 1.0;
    }
  }

  /** `a` is in the list wherever `b` is, and at a better rank. */
  predicate Better(list: seq<Chunk>, a: nat, b: nat) {
    forall j :: 0 <= j < |list| && list[j].id == b ==> exists i :: 0 <= i < j && list[i].id == a
  }

  lemma BetterHits(list: seq<Chunk>, a: nat, b: nat, k: nat)
    requires DistinctIds(list) && Better(list, a, b)
    ensures if Occurs(list, b) then Hits(list, a, k) > Hits(list, b, k) else Hits(list, a, k) >= Hits(list, b, k)
  {
    if Occurs(list, b) {
      var j :| 0 <= j < |list| && list[j].id == b;
      var i :| 0 <= i < j && list[i].id == a;
      OneHit(list, i, k);
      OneHit(list, j, k);
      ShareFalls(k, i + 1, j + 1);
    } else {
      NoHits(list, b, k);
      HitsPositive(list, a, k);
    }
  }

  lemma {:induction false} HitsPositive(list: seq<Chunk>, id: nat, k: nat)
    ensures Hits(list, id, k) >= 0.0
  {
    if list != [] {
      HitsPositive(list[..|list| - 1], id, k);
      ShareFalls(k, |list|, |list| + 1);
    }
  }

  /** A chunk ranked strictly better in every list where another one appears precedes it. */
  lemma Dominance(vector: seq<Chunk>, keyword: seq<Chunk>, k: nat, a: nat, b: nat)
    requires DistinctIds(vector) && DistinctIds(keyword)
    requires Better(vector, a, b) && Better(keyword, a, b) && (Occurs(vector, b) || Occurs(keyword, b))
    ensures Precedes(Fuse(vector, keyword, k), a, b)
  {
    BetterHits(vector, a, b, k);
    BetterHits(keyword, a, b, k);
    if Occurs(vector, b) {
      var j :| 0 <= j < |vector| && vector[j].id == b;
      var i :| 0 <= i < j && vector[i].id == a;
      assert Occurs(vector, a);
    } else {
      var j :| 0 <= j < |keyword| && keyword[j].id == b;
      var i :| 0 <= i < j && keyword[i].id == a;
      assert Occurs(keyword, a);
    }
    HigherPrecedes(vector, keyword, k, a, b);
  }

  /** Two last places beat one first place exactly when the lists are shorter than k + 2. */
  lemma TwoBeatOne(k: nat, n: nat)
    requires n >= 1
    ensures Share(k, n) + Share(k, n) > Share(k, 1) <==> n < k + 2
  {
    var x, y := (k + n) as real, (k + 1) as real;
    assert (1.0 / x) * x == 1.0 && (1.0 / y) * y == 1.0;
    assert 2.0 / x == 1.0 / x + 1.0 / x;
    if n < k + 2 {
      assert x < 2.0 * y;
    } else {
      assert x >= 2.0 * y;
    }
    TwoBeatOneReal(x, y);
  }

  lemma TwoBeatOneReal(x: real, y: real)
    requires x > 0.0 && y > 0.0
    ensures 1.0 / x + 1.0 / x > 1.0 / y <==> x < 2.0 * y
  {
    var u, v := 1.0 / x, 1.0 / y;
    assert u * x == 1.0 && v * y == 1.0;
    assert (u + u) * (x * y) == 2.0 * y;
    assert v * (x * y) == x;
  }

  /** With lists shorter than k + 2, every chunk found by both recalls precedes every chunk found by one. */
  lemma BothBeforeOne(vector: seq<Chunk>, keyword: seq<Chunk>, k: nat, n: nat, a: nat, b: nat)
    requires DistinctIds(vector) && DistinctIds(keyword) && |vector| <= n && |keyword| <= n && n < k + 2
    requires Occurs(vector, a) && Occurs(keyword, a)
    requires Occurs(vector, b) != Occurs(keyword, b)
    ensures Precedes(Fuse(vector, keyword, k), a, b)
  {
    AtLeastLast(vector, a, k, n);
    AtLeastLast(keyword, a, k, n);
    TwoBeatOne(k, n);
    if Occurs(vector, b) {
      AtMostFirst(vector, b, k);
      NoHits(keyword, b, k);
    } else {
      AtMostFirst(keyword, b, k);
      NoHits(vector, b, k);
    }
    HigherPrecedes(vector, keyword, k, a, b);
  }

  lemma AtLeastLast(list: seq<Chunk>, id: nat, k: nat, n: nat)
    requires DistinctIds(list) && Occurs(list, id) && |list| <= n
    ensures n >= 1 && Hits(list, id, k) >= Share(k, n)
  {
    var i :| 0 <= i < |list| && list[i].id == id;
    OneHit(list, i, k);
    if i + 1 < n {
      ShareFalls(k, i + 1, n);
    }
  }

  lemma AtMostFirst(list: seq<Chunk>, id: nat, k: nat)
    requires DistinctIds(list) && Occurs(list, id)
    ensures Hits(list, id, k) <= Share(k, 1)
  {
    var i :| 0 <= i < |list| && list[i].id == id;
    OneHit(list, i, k);
    if i > 0 {
      ShareFalls(k, 1, i + 1);
    }
  }

  /** The values in use: at most twenty hits a recall, and k = 60. */
  lemma RecallsInUse(vector: seq<Chunk>, keyword: seq<Chunk>, a: nat, b: nat)
    requires DistinctIds(vector) && DistinctIds(keyword) && |vector| <= RECALL_LIMIT && |keyword| <= RECALL_LIMIT
    requires Occurs(vector, a) && Occurs(keyword, a) && Occurs(vector, b) != Occurs(keyword, b)
    ensures Precedes(Fuse(vector, keyword, RRF_K), a, b)
  {
    BothBeforeOne(vector, keyword, RRF_K, RECALL_LIMIT, a, b);
  }

  // ---------------------------------------------------------------------------------------------
  // The scores and the ties
  // ---------------------------------------------------------------------------------------------

  /** Rank p + 1 of a list is worth 1 / (k + p + 1), and not being in a list nothing. */
  predicate Worth(list: seq<Chunk>, id: nat, k: nat, share: real) {
    && (forall p :: 0 <= p < |list| && list[p].id == id ==> share == 1.0 / (k + p + 1) as real)
    && (!Occurs(list, id) ==> share == 0.0)
  }

  lemma HitsWorth(list: seq<Chunk>, id: nat, k: nat)
    requires DistinctIds(list)
    ensures Worth(list, id, k, Hits(list, id, k))
  {
    forall p | 0 <= p < |list| && list[p].id == id
      ensures Hits(list, id, k) == 1.0 / (k + p + 1) as real
    {
      OneHit(list, p, k);
    }
    if !Occurs(list, id) {
      NoHits(list, id, k);
    }
  }

  /** The score of a chunk is the sum of what its two ranks are worth. */
  lemma FusedWorth(vector: seq<Chunk>, keyword: seq<Chunk>, k: nat, i: nat)
    requires DistinctIds(vector) && DistinctIds(keyword) && i < |Fuse(vector, keyword, k)|
    ensures var e := Fuse(vector, keyword, k)[i];
            && Worth(vector, e.candidate.id, k, Hits(vector, e.candidate.id, k))
            && Worth(keyword, e.candidate.id, k, Hits(keyword, e.candidate.id, k))
            && e.fused == Hits(vector, e.candidate.id, k) + Hits(keyword, e.candidate.id, k)
  {
    FusedExactlyOnce(vector, keyword, k);
    HitsWorth(vector, Fuse(vector, keyword, k)[i].candidate.id, k);
    HitsWorth(keyword, Fuse(vector, keyword, k)[i].candidate.id, k);
  }

  /** Larger scores first; of equal ones the smaller document, then the smaller position. */
  lemma FusedOrder(vector: seq<Chunk>, keyword: seq<Chunk>, k: nat, i: nat, j: nat)
    requires i < j < |Fuse(vector, keyword, k)|
    ensures var a, b := Fuse(vector, keyword, k)[i], Fuse(vector, keyword, k)[j];
            && a.fused >= b.fused
            && (a.fused == b.fused ==> a.candidate.document <= b.candidate.document)
            && (a.fused == b.fused && a.candidate.document == b.candidate.document ==>
                  a.candidate.position <= b.candidate.position)
  {
    FusedExactlyOnce(vector, keyword, k);
    var r := Fuse(vector, keyword, k);
    assert !Before(r[j], r[i]);
  }

  /** The row of a chunk is the one of the first list that has it. */
  lemma {:induction false} FirstRow(list: seq<Chunk>, i: nat)
    requires i < |Firsts(list)|
    ensures exists p :: 0 <= p < |list| && list[p] == Firsts(list)[i] && forall q :: 0 <= q < p ==> list[q].id != list[p].id
  {
    var front, last := list[..|list| - 1], list[|list| - 1];
    if i < |Firsts(front)| {
      FirstRow(front, i);
      var p :| 0 <= p < |front| && front[p] == Firsts(front)[i] && forall q :: 0 <= q < p ==> front[q].id != front[p].id;
      assert list[p] == Firsts(list)[i] && forall q :: 0 <= q < p ==> list[q].id == front[q].id;
    } else {
      assert !Occurs(front, last.id);
      assert forall q :: 0 <= q < |front| ==> list[q] == front[q];
      assert list[|list| - 1] == Firsts(list)[i];
    }
  }

  lemma FusedRow(vector: seq<Chunk>, keyword: seq<Chunk>, k: nat, i: nat)
    requires i < |Fuse(vector, keyword, k)|
    ensures var c := Fuse(vector, keyword, k)[i].candidate;
            exists p :: 0 <= p < |vector + keyword| && (vector + keyword)[p] == c
                        && forall q :: 0 <= q < p ==> (vector + keyword)[q].id != c.id
  {
    var firsts := Firsts(vector + keyword);
    var scored, r := Scored(firsts, vector, keyword, k), Fuse(vector, keyword, k);
    SortSorts(scored, Before);
    assert r[i] in multiset(r);
    var x :| 0 <= x < |scored| && scored[x] == r[i];
    FirstRow(vector + keyword, x);
  }
}
