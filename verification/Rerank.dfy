/** The optional reranker: which scores are accepted, and what they do to the order. */
module Rerank {
  import opened Collections
  import opened Rows
  import opened Ordering
  import opened RankFusion

  datatype Number = Finite(value: real) | NotFinite

  /** A score as it comes from the model: the index need not be an integer. */
  datatype RerankScore = RerankScore(index: Option<int>, score: Number)

  predicate InRange(s: RerankScore, count: nat) {
    s.index.Some? && 0 <= s.index.value < count && s.score.Finite?
  }

  /** Finite scores whose indices are a permutation of 0..count-1. */
  predicate IsPermutation(scores: seq<RerankScore>, count: nat) {
    && (forall p :: 0 <= p < |scores| ==> InRange(scores[p], count))
    && (forall p, q :: 0 <= p < q < |scores| ==> scores[p].index != scores[q].index)
    && (forall i :: 0 <= i < count ==> exists p :: 0 <= p < |scores| && scores[p].index == Some(i))
  }

  function IndicesOf(scores: seq<RerankScore>): set<Option<int>> {
    set p | 0 <= p < |scores| :: scores[p].index
  }

  function Numbers(count: nat): set<Option<int>> {
    set i | 0 <= i < count :: Some(i)
  }

  lemma {:induction false} NumbersCard(count: nat)
    ensures |Numbers(count)| == count
  {
    if count > 0 {
      NumbersCard(count - 1);
      assert Numbers(count) == Numbers(count - 1) + {Some(count - 1)};
    } else {
      assert Numbers(0) == {};
    }
  }

  lemma {:induction false} IndicesCard(scores: seq<RerankScore>)
    requires forall p, q :: 0 <= p < q < |scores| ==> scores[p].index != scores[q].index
    ensures |IndicesOf(scores)| == |scores|
  {
    if scores == [] {
      assert IndicesOf(scores) == {};
    } else {
      var front, last := scores[..|scores| - 1], scores[|scores| - 1];
      IndicesCard(front);
      assert IndicesOf(scores) == IndicesOf(front) + {last.index} by {
        forall x | x in IndicesOf(scores)
          ensures x in IndicesOf(front) + {last.index}
        {
          var p :| 0 <= p < |scores| && scores[p].index == x;
          assert p == |scores| - 1 || front[p].index == x;
        }
        forall x | x in IndicesOf(front)
          ensures x in IndicesOf(scores)
        {
          var p :| 0 <= p < |front| && front[p].index == x;
          assert scores[p].index == x;
        }
      }
      assert last.index !in IndicesOf(front);
    }
  }

  lemma SameCardSame<T>(a: set<T>, b: set<T>)
    requires a <= b && |a| == |b|
    ensures a == b
  {
    forall x | x in b
      ensures x in a
    {
      if x !in a {
        SubsetCard(a, b - {x});
      }
    }
  }

  /** Pigeonhole: `count` different indices below `count` are all of them; and a permutation has `count`. */
  lemma Pigeonhole(scores: seq<RerankScore>, count: nat)
    requires forall p :: 0 <= p < |scores| ==> InRange(scores[p], count)
    requires forall p, q :: 0 <= p < q < |scores| ==> scores[p].index != scores[q].index
    ensures IsPermutation(scores, count) <==> |scores| == count
  {
    IndicesCard(scores);
    NumbersCard(count);
    assert IndicesOf(scores) <= Numbers(count);
    if |scores| == count {
      SameCardSame(IndicesOf(scores), Numbers(count));
      forall i | 0 <= i < count
        ensures exists p :: 0 <= p < |scores| && scores[p].index == Some(i)
      {
        assert Some(i) in Numbers(count);
      }
    }
    if IsPermutation(scores, count) {
      forall x | x in Numbers(count)
        ensures x in IndicesOf(scores)
      {
        var p :| 0 <= p < |scores| && scores[p].index == x;
      }
      SubsetCard(Numbers(count), IndicesOf(scores));
      SubsetCard(IndicesOf(scores), Numbers(count));
    }
  }

  method ValidateScores(scores: seq<RerankScore>, count: nat) returns (ok: bool)
    ensures ok <==> IsPermutation(scores, count)
  {
    if |scores| != count {
      WrongLength(scores, count);
      return false;
    }
    var seen: set<int> := {};
    var p := 0;
    while p < |scores|
      invariant 0 <= p <= |scores|
      invariant forall q :: 0 <= q < p ==> InRange(scores[q], count)
      invariant forall q, r :: 0 <= q < r < p ==> scores[q].index != scores[r].index
      invariant forall i :: i in seen <==> exists q :: 0 <= q < p && scores[q].index == Some(i)
    {
      var score := scores[p];
      if score.index.None? {
        return false;
      }
      var index := score.index.value;
      if index < 0 || index >= count {
        return false;
      }
      if index in seen {
        return false;
      }
      if score.score.NotFinite? {
        return false;
      }
      seen := seen + {index};
      p := p + 1;
    }
    Pigeonhole(scores, count);
    ok := true;
  }

  lemma WrongLength(scores: seq<RerankScore>, count: nat)
    requires |scores| != count
    ensures !IsPermutation(scores, count)
  {
    if (forall p :: 0 <= p < |scores| ==> InRange(scores[p], count))
       && (forall p, q :: 0 <= p < q < |scores| ==> scores[p].index != scores[q].index) {
      Pigeonhole(scores, count);
    }
  }

  // ---------------------------------------------------------------------------------------------
  // Applying the scores
  // ---------------------------------------------------------------------------------------------

  /** The score given to an index. */
  function ScoreOf(scores: seq<RerankScore>, i: int): real {
    if scores == [] then 0.0
    else
      var last := scores[|scores| - 1];
      if last.index == Some(i) && last.score.Finite? then last.score.value else ScoreOf(scores[..|scores| - 1], i)
  }

  predicate Ahead(scores: seq<RerankScore>, i: int, j: int) {
    ScoreOf(scores, i) > ScoreOf(scores, j) || (ScoreOf(scores, i) == ScoreOf(scores, j) && i < j)
  }

  function Upto(n: nat): seq<int> {
    seq(n, i => i)
  }

  predicate IsOrder(order: seq<int>, n: nat) {
    multiset(order) == multiset(Upto(n))
  }

  function Arranged(candidates: seq<Entry>, scores: seq<RerankScore>, order: seq<int>): seq<Entry>
    requires forall x :: 0 <= x < |order| ==> 0 <= order[x] < |candidates|
  {
    seq(|order|, x requires 0 <= x < |order| => candidates[order[x]].(fused := ScoreOf(scores, order[x])))
  }

  lemma OrderInRange(order: seq<int>, n: nat)
    requires IsOrder(order, n)
    ensures |order| == n && forall x :: 0 <= x < |order| ==> 0 <= order[x] < n
  {
    assert |multiset(order)| == |multiset(Upto(n))|;
    forall x | 0 <= x < |order|
      ensures 0 <= order[x] < n
    {
      assert order[x] in multiset(Upto(n));
    }
  }

  function RerankOrder(scores: seq<RerankScore>, n: nat): (order: seq<int>)
    ensures IsOrder(order, n)
    ensures Sorted(order, (i: int, j: int) => Ahead(scores, i, j))
  {
    SortSorts(Upto(n), (i: int, j: int) => Ahead(scores, i, j));
    Sort(Upto(n), (i: int, j: int) => Ahead(scores, i, j))
  }

  /** No scores, or incomplete ones: the order as it was. */
  function ApplyRerank(candidates: seq<Entry>, scores: Option<seq<RerankScore>>): seq<Entry> {
    if scores.None? || !IsPermutation(scores.value, |candidates|) then candidates
    else
      OrderInRange(RerankOrder(scores.value, |candidates|), |candidates|);
      Arranged(candidates, scores.value, RerankOrder(scores.value, |candidates|))
  }

  /** The stable descending sort: better scores first, equal ones in the order they had. */
  predicate StableDescending(scores: seq<RerankScore>, order: seq<int>) {
    forall x, y :: 0 <= x < y < |order| ==>
      && ScoreOf(scores, order[x]) >= ScoreOf(scores, order[y])
      && (ScoreOf(scores, order[x]) == ScoreOf(scores, order[y]) ==> order[x] <= order[y])
  }

  /** Complete scores put the candidates into the stable descending order of their scores, of which there
      is only one; anything else leaves them alone. */
  lemma RerankExactly(candidates: seq<Entry>, scores: seq<RerankScore>, order: seq<int>)
    requires IsOrder(order, |candidates|) && StableDescending(scores, order)
    ensures forall x :: 0 <= x < |order| ==> 0 <= order[x] < |candidates|
    ensures ApplyRerank(candidates, Some(scores))
            == if IsPermutation(scores, |candidates|) then Arranged(candidates, scores, order) else candidates
    ensures ApplyRerank(candidates, None) == candidates
  {
    OrderInRange(order, |candidates|);
    var less := (i: int, j: int) => Ahead(scores, i, j);
    assert Sorted(order, less);
    var sorted := RerankOrder(scores, |candidates|);
    assert Sorted(sorted, less);
    SortedUnique(order, sorted, less);
  }

  /** There always is such an order. */
  lemma OrderExists(candidates: seq<Entry>, scores: seq<RerankScore>)
    ensures IsOrder(RerankOrder(scores, |candidates|), |candidates|)
    ensures StableDescending(scores, RerankOrder(scores, |candidates|))
  {
    var order := RerankOrder(scores, |candidates|);
    forall x, y | 0 <= x < y < |order|
      ensures ScoreOf(scores, order[x]) >= ScoreOf(scores, order[y])
      ensures ScoreOf(scores, order[x]) == ScoreOf(scores, order[y]) ==> order[x] <= order[y]
    {
      assert !Ahead(scores, order[y], order[x]);
    }
  }

  /** In complete scores the score of an index is the one given for it. */
  lemma {:induction false} ScoreGiven(scores: seq<RerankScore>, count: nat, p: nat)
    requires p < |scores|
    requires forall q :: 0 <= q < |scores| ==> InRange(scores[q], count)
    requires forall q, r :: 0 <= q < r < |scores| ==> scores[q].index != scores[r].index
    ensures InRange(scores[p], count) && ScoreOf(scores, scores[p].index.value) == scores[p].score.value
  {
    if p < |scores| - 1 {
      ScoreGiven(scores[..|scores| - 1], count, p);
    }
  }

  // ---------------------------------------------------------------------------------------------
  // The list returned
  // ---------------------------------------------------------------------------------------------

  /** The score `s` is the one given for index `i`. */
  predicate IsGiven(scores: seq<RerankScore>, i: int, s: real) {
    exists p :: 0 <= p < |scores| && scores[p].index == Some(i) && scores[p].score == Finite(s)
  }

  /** Every index once. */
  predicate EveryIndexOnce(order: seq<int>, n: nat) {
    && |order| == n && (forall x :: 0 <= x < |order| ==> 0 <= order[x] < n)
    && (forall i :: 0 <= i < n ==> i in order)
    && (forall x, y :: 0 <= x < y < |order| ==> order[x] != order[y])
  }

  lemma OrderHasAll(order: seq<int>, n: nat)
    requires IsOrder(order, n)
    ensures EveryIndexOnce(order, n)
  {
    OrderInRange(order, n);
    forall i | 0 <= i < n
      ensures i in order
    {
      assert Upto(n)[i] == i;
      assert i in multiset(order);
    }
    EachOnce(order, n);
  }

  lemma ScoresAreGiven(scores: seq<RerankScore>, order: seq<int>, n: nat)
    requires IsPermutation(scores, n) && EveryIndexOnce(order, n)
    ensures forall x :: 0 <= x < |order| ==> IsGiven(scores, order[x], ScoreOf(scores, order[x]))
  {
    forall x | 0 <= x < |order|
      ensures IsGiven(scores, order[x], ScoreOf(scores, order[x]))
    {
      var p :| 0 <= p < |scores| && scores[p].index == Some(order[x]);
      ScoreGiven(scores, n, p);
    }
  }

  /** Accepted scores: the candidates in some order, each once, each with the score given for its index, larger scores
      first, and equal ones in the order they had. */
  lemma RerankedList(candidates: seq<Entry>, scores: seq<RerankScore>, order: seq<int>)
    requires IsPermutation(scores, |candidates|) && order == RerankOrder(scores, |candidates|)
    ensures EveryIndexOnce(order, |candidates|)
    ensures var r := ApplyRerank(candidates, Some(scores));
            && |r| == |candidates|
            && (forall x :: 0 <= x < |r| ==>
                  r[x].candidate == candidates[order[x]].candidate && IsGiven(scores, order[x], r[x].fused))
            && (forall x, y :: 0 <= x < y < |r| ==>
                  r[x].fused > r[y].fused || (r[x].fused == r[y].fused && order[x] < order[y]))
  {
    OrderHasAll(order, |candidates|);
    ScoresAreGiven(scores, order, |candidates|);
    OrderExists(candidates, scores);
    ArrangedList(candidates, scores, order);
  }

  lemma ArrangedList(candidates: seq<Entry>, scores: seq<RerankScore>, order: seq<int>)
    requires EveryIndexOnce(order, |candidates|) && StableDescending(scores, order)
    ensures var r := Arranged(candidates, scores, order);
            && |r| == |order|
            && (forall x :: 0 <= x < |r| ==>
                  r[x].candidate == candidates[order[x]].candidate && r[x].fused == ScoreOf(scores, order[x]))
            && (forall x, y :: 0 <= x < y < |r| ==>
                  r[x].fused > r[y].fused || (r[x].fused == r[y].fused && order[x] < order[y]))
  {
  }

  lemma EachOnce(order: seq<int>, n: nat)
    requires IsOrder(order, n)
    ensures forall x, y :: 0 <= x < y < |order| ==> order[x] != order[y]
  {
    forall x, y | 0 <= x < y < |order|
      ensures order[x] != order[y]
    {
      if order[x] == order[y] {
        Twice(order, x, y);
        OrderInRange(order, n);
        Once(Upto(n), order[x]);
      }
    }
  }

  /** Anything else leaves the list alone. */
  lemma NotReranked(candidates: seq<Entry>, scores: Option<seq<RerankScore>>)
    requires scores.None? || |scores.value| != |candidates|
             || (exists p :: 0 <= p < |scores.value| && !InRange(scores.value[p], |candidates|))
             || (exists p, q :: 0 <= p < q < |scores.value| && scores.value[p].index == scores.value[q].index)
    ensures ApplyRerank(candidates, scores) == candidates
  {
    if scores.Some? && |scores.value| != |candidates| {
      WrongLength(scores.value, |candidates|);
    }
  }
}
