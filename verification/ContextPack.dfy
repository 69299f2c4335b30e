/** Packing the retrieved chunks into the token budget of the prompt. */
module ContextPack {
  import opened RankFusion

  // ---------------------------------------------------------------------------------------------
  // Estimating tokens
  // ---------------------------------------------------------------------------------------------

  predicate IsCjk(c: char) {
    '\U{2E80}' <= c <= '\U{9FFF}' || '\U{F900}' <= c <= '\U{FAFF}' || '\U{FF00}' <= c <= '\U{FFEF}'
  }

  function CjkCount(text: string): (n: nat)
    ensures n <= |text|
  {
    if text == "" then 0 else CjkCount(text[..|text| - 1]) + if IsCjk(text[|text| - 1]) then 1 else 0
  }

  /** One token for a CJK character, one for every four others, rounded up. */
  function EstimateTokens(text: string): nat {
    CjkCount(text) + (|text| - CjkCount(text) + 3) / 4
  }

  lemma {:induction false} CjkAppend(a: string, b: string)
    ensures CjkCount(a + b) == CjkCount(a) + CjkCount(b)
  {
    if b == "" {
      assert a + b == a;
    } else {
      assert (a + b)[..|a + b| - 1] == a + b[..|b| - 1];
      CjkAppend(a, b[..|b| - 1]);
    }
  }

  /** Joining two texts never needs more tokens than the two need apart. */
  lemma Subadditive(a: string, b: string)
    ensures EstimateTokens(a + b) <= EstimateTokens(a) + EstimateTokens(b)
  {
    CjkAppend(a, b);
  }

  // ---------------------------------------------------------------------------------------------
  // Packing
  // ---------------------------------------------------------------------------------------------

  /** The indices kept, the budget left and, for each document, the position last kept. */
  datatype Packing = Packing(kept: seq<nat>, budget: int, last: map<nat, int>)

  function PackOne(p: Packing, candidates: seq<Chunk>, i: nat): Packing
    requires i < |candidates|
  {
    var c := candidates[i];
    if c.document in p.last && c.position == p.last[c.document] + 1 then p
    else if EstimateTokens(c.content) > p.budget then p
    else Packing(p.kept + [i], p.budget - EstimateTokens(c.content), p.last[c.document := c.position])
  }

  /** The packing of the first `n` candidates. */
  function Pack(candidates: seq<Chunk>, n: nat, max: int): Packing
    requires n <= |candidates|
  {
    if n == 0 then Packing([], max, map[]) else PackOne(Pack(candidates, n - 1, max), candidates, n - 1)
  }

  function Join(parts: seq<string>): string {
    if parts == [] then ""
    else if |parts| == 1 then parts[0]
    else Join(parts[..|parts| - 1]) + "\n\n" + parts[|parts| - 1]
  }

  function Contents(candidates: seq<Chunk>, kept: seq<nat>): seq<string>
    requires forall x :: 0 <= x < |kept| ==> kept[x] < |candidates|
  {
    seq(|kept|, x requires 0 <= x < |kept| => candidates[kept[x]].content)
  }

  method PackContext(candidates: seq<Chunk>, max: int) returns (text: string)
    ensures var p := Pack(candidates, |candidates|, max);
            && (forall x :: 0 <= x < |p.kept| ==> p.kept[x] < |candidates|)
            && text == Join(Contents(candidates, p.kept))
  {
    var parts: seq<string> := [];
    var budget := max;
    var lastKept: map<nat, int> := map[];
    var i := 0;
    while i < |candidates|
      invariant 0 <= i <= |candidates|
      invariant budget == Pack(candidates, i, max).budget && lastKept == Pack(candidates, i, max).last
      invariant forall x :: 0 <= x < |Pack(candidates, i, max).kept| ==> Pack(candidates, i, max).kept[x] < i
      invariant parts == Contents(candidates, Pack(candidates, i, max).kept)
    {
      var c := candidates[i];
      i := i + 1;
      if c.document in lastKept && c.position == lastKept[c.document] + 1 {
        continue;
      }
      var tokens := EstimateTokens(c.content);
      if tokens > budget {
        continue;
      }
      parts := parts + [c.content];
      budget := budget - tokens;
      lastKept := lastKept[c.document := c.position];
    }
    text := Join(parts);
  }

  // ---------------------------------------------------------------------------------------------
  // What is kept
  // ---------------------------------------------------------------------------------------------

  function Tokens(candidates: seq<Chunk>, kept: seq<nat>): nat
    requires forall x :: 0 <= x < |kept| ==> kept[x] < |candidates|
  {
    if kept == [] then 0
    else Tokens(candidates, kept[..|kept| - 1]) + EstimateTokens(candidates[kept[|kept| - 1]].content)
  }

  ghost predicate Subsequence(kept: seq<nat>, n: nat) {
    && (forall x :: 0 <= x < |kept| ==> kept[x] < n)
    && (forall x, y :: 0 <= x < y < |kept| ==> kept[x] < kept[y])
  }

  /** `i` is the chunk of its document that was kept last. */
  ghost predicate KeptLast(candidates: seq<Chunk>, kept: seq<nat>, i: nat)
    requires Subsequence(kept, |candidates|)
  {
    && i in kept
    && forall j :: j in kept && candidates[j].document == candidates[i].document ==> j <= i
  }

  /** Candidate `i` follows directly on the chunk of its document that was kept last. */
  ghost predicate Adjacent(candidates: seq<Chunk>, kept: seq<nat>, i: nat)
    requires Subsequence(kept, |candidates|) && i < |candidates|
  {
    exists j: nat :: KeptLast(candidates, kept, j) && candidates[j].document == candidates[i].document
                && candidates[i].position == candidates[j].position + 1
  }

  /** The map holds, for the documents with kept chunks, the position of the one kept last. */
  ghost predicate LastInv(candidates: seq<Chunk>, kept: seq<nat>, last: map<nat, int>)
    requires Subsequence(kept, |candidates|)
  {
    && (forall document :: document in last <==> exists i :: i in kept && candidates[i].document == document)
    && (forall i: nat :: KeptLast(candidates, kept, i) ==> last[candidates[i].document] == candidates[i].position)
  }

  ghost predicate PackInv(candidates: seq<Chunk>, n: nat, max: int)
    requires n <= |candidates|
  {
    var p := Pack(candidates, n, max);
    && Subsequence(p.kept, n)
    && p.budget == max - Tokens(candidates, p.kept)
    && (p.budget >= 0 || p.kept == [])
    && LastInv(candidates, p.kept, p.last)
  }

  lemma LastOneMore(candidates: seq<Chunk>, kept: seq<nat>, last: map<nat, int>, n: nat)
    requires n < |candidates| && Subsequence(kept, n) && LastInv(candidates, kept, last)
    ensures Subsequence(kept + [n], n + 1)
    ensures LastInv(candidates, kept + [n], last[candidates[n].document := candidates[n].position])
  {
    var kept', last' := kept + [n], last[candidates[n].document := candidates[n].position];
    assert n in kept';
    forall document
      ensures document in last' <==> exists i :: i in kept' && candidates[i].document == document
    {
      if i :| i in kept && candidates[i].document == document {
        assert i in kept';
      }
    }
    forall i: nat | KeptLast(candidates, kept', i)
      ensures last'[candidates[i].document] == candidates[i].position
    {
      if i != n {
        assert KeptLast(candidates, kept, i);
      }
    }
  }

  lemma KeptOneMore(candidates: seq<Chunk>, n: nat, max: int)
    requires n < |candidates| && PackInv(candidates, n, max) && Pack(candidates, n + 1, max) != Pack(candidates, n, max)
    ensures PackInv(candidates, n + 1, max)
  {
    var p, q := Pack(candidates, n, max), Pack(candidates, n + 1, max);
    assert q.kept == p.kept + [n] && q.kept[..|p.kept|] == p.kept;
    LastOneMore(candidates, p.kept, p.last, n);
  }

  lemma KeptNoMore(candidates: seq<Chunk>, n: nat, max: int)
    requires n < |candidates| && PackInv(candidates, n, max) && Pack(candidates, n + 1, max) == Pack(candidates, n, max)
    ensures PackInv(candidates, n + 1, max)
  {
  }

  lemma NothingKept(candidates: seq<Chunk>, max: int)
    ensures PackInv(candidates, 0, max)
  {
  }

  lemma PackStep(candidates: seq<Chunk>, n: nat, max: int)
    requires n < |candidates| && PackInv(candidates, n, max)
    ensures PackInv(candidates, n + 1, max)
  {
    if Pack(candidates, n + 1, max) != Pack(candidates, n, max) {
      KeptOneMore(candidates, n, max);
    } else {
      KeptNoMore(candidates, n, max);
    }
  }

  lemma PackKeeps(candidates: seq<Chunk>, n: nat, max: int)
    requires n <= |candidates|
    ensures PackInv(candidates, n, max)
  {
    NothingKept(candidates, max);
    for i := 0 to n
      invariant PackInv(candidates, i, max)
    {
      PackStep(candidates, i, max);
    }
  }

  lemma {:induction false} PackGrows(candidates: seq<Chunk>, m: nat, n: nat, max: int)
    requires m <= n <= |candidates|
    ensures var p, q := Pack(candidates, m, max), Pack(candidates, n, max);
            p.kept <= q.kept && forall x :: |p.kept| <= x < |q.kept| ==> m <= q.kept[x]
  {
    if m < n {
      PackGrows(candidates, m, n - 1, max);
    }
  }

  lemma KeptLastAppend(candidates: seq<Chunk>, front: seq<nat>, last: nat, i: nat)
    requires Subsequence(front + [last], |candidates|) && Subsequence(front, |candidates|) && last < |candidates|
    requires KeptLast(candidates, front, i) && candidates[last].document != candidates[i].document
    ensures KeptLast(candidates, front + [last], i)
  {
  }

  /** The chunk of a document that was kept last, if one was. */
  lemma {:induction false} LastOf(candidates: seq<Chunk>, kept: seq<nat>, document: nat) returns (i: nat)
    requires Subsequence(kept, |candidates|) && exists i :: i in kept && candidates[i].document == document
    ensures KeptLast(candidates, kept, i) && candidates[i].document == document
  {
    var front, last := kept[..|kept| - 1], kept[|kept| - 1];
    assert kept == front + [last];
    if candidates[last].document == document {
      i := last;
    } else {
      i := LastOf(candidates, front, document);
      KeptLastAppend(candidates, front, last, i);
    }
  }

  lemma AdjacentExactly(candidates: seq<Chunk>, kept: seq<nat>, last: map<nat, int>, j: nat)
    requires j < |candidates| && Subsequence(kept, |candidates|) && LastInv(candidates, kept, last)
    ensures var c := candidates[j];
            (c.document in last && c.position == last[c.document] + 1) <==> Adjacent(candidates, kept, j)
  {
    if candidates[j].document in last {
      var _ := LastOf(candidates, kept, candidates[j].document);
    }
  }

  /** Whether `j` is in the final list is decided when it is looked at. */
  lemma KeptAt(p: seq<nat>, q: seq<nat>, all: seq<nat>, j: nat)
    requires q <= all && (q == p || q == p + [j])
    requires forall x :: 0 <= x < |p| ==> p[x] < j
    requires forall x :: |q| <= x < |all| ==> j < all[x]
    ensures j in all <==> q != p
  {
    if j in all {
      var x :| 0 <= x < |all| && all[x] == j;
      assert x < |q| && q[x] == j;
    }
    if q != p {
      assert all[|p|] == q[|p|] == j;
    }
  }

  lemma KeptLater(candidates: seq<Chunk>, max: int, j: nat)
    requires j < |candidates|
    ensures j in Pack(candidates, |candidates|, max).kept <==>
            Pack(candidates, j + 1, max) != Pack(candidates, j, max)
  {
    var p, q := Pack(candidates, j, max), Pack(candidates, j + 1, max);
    assert forall x :: 0 <= x < |p.kept| ==> p.kept[x] < j by {
      PackKeeps(candidates, j, max);
    }
    PackGrows(candidates, j + 1, |candidates|, max);
    assert q == p || q.kept == p.kept + [j];
    KeptAt(p.kept, q.kept, Pack(candidates, |candidates|, max).kept, j);
  }

  /** A candidate is dropped for adjacency or for lack of budget, and for nothing else. */
  lemma KeptExactly(candidates: seq<Chunk>, max: int, j: nat)
    requires j < |candidates|
    ensures var before := Pack(candidates, j, max).kept;
            && Subsequence(before, |candidates|)
            && (j in Pack(candidates, |candidates|, max).kept <==>
                  && !Adjacent(candidates, before, j)
                  && EstimateTokens(candidates[j].content) <= max - Tokens(candidates, before))
  {
    PackKeeps(candidates, j, max);
    var p := Pack(candidates, j, max);
    AdjacentExactly(candidates, p.kept, p.last, j);
    KeptLater(candidates, max, j);
  }

  /** The kept chunks are a subsequence of the candidates and fit into the budget. */
  lemma WithinBudget(candidates: seq<Chunk>, max: int)
    requires max >= 0
    ensures var kept := Pack(candidates, |candidates|, max).kept;
            Subsequence(kept, |candidates|) && Tokens(candidates, kept) <= max
  {
    PackKeeps(candidates, |candidates|, max);
  }

  /** No kept chunk follows directly on the chunk of its document that was kept before it. */
  lemma NeverAdjacent(candidates: seq<Chunk>, max: int, i: nat, j: nat)
    requires i < j < |candidates| && candidates[i].document == candidates[j].document
    requires var kept := Pack(candidates, |candidates|, max).kept;
             && i in kept && j in kept
             && forall k :: k in kept && i < k < j ==> candidates[k].document != candidates[i].document
    ensures candidates[j].position != candidates[i].position + 1
  {
    KeptExactly(candidates, max, j);
    PackKeeps(candidates, |candidates|, max);
    PackGrows(candidates, j, |candidates|, max);
    PackKeeps(candidates, j, max);
    var before, all := Pack(candidates, j, max).kept, Pack(candidates, |candidates|, max).kept;
    assert i in before by {
      var x :| 0 <= x < |all| && all[x] == i;
      assert x < |before|;
      assert before[x] == i;
    }
    assert KeptLast(candidates, before, i) by {
      forall k | k in before
        ensures k in all
      {
        var x :| 0 <= x < |before| && before[x] == k;
        assert all[x] == k;
      }
    }
  }

  // ---------------------------------------------------------------------------------------------
  // The joined text
  // ---------------------------------------------------------------------------------------------

  function Length(parts: seq<string>): nat {
    if parts == [] then 0 else Length(parts[..|parts| - 1]) + |parts[|parts| - 1]|
  }

  function Cjk(parts: seq<string>): (n: nat)
    ensures n <= Length(parts)
  {
    if parts == [] then 0 else Cjk(parts[..|parts| - 1]) + CjkCount(parts[|parts| - 1])
  }

  function Estimates(parts: seq<string>): nat {
    if parts == [] then 0 else Estimates(parts[..|parts| - 1]) + EstimateTokens(parts[|parts| - 1])
  }

  lemma {:induction false} EstimatesBound(parts: seq<string>)
    ensures Cjk(parts) + (Length(parts) - Cjk(parts) + 3) / 4 <= Estimates(parts)
  {
    if parts != [] {
      EstimatesBound(parts[..|parts| - 1]);
    }
  }

  lemma {:induction false} JoinLength(parts: seq<string>)
    requires parts != []
    ensures |Join(parts)| == Length(parts) + 2 * (|parts| - 1) && CjkCount(Join(parts)) == Cjk(parts)
  {
    var front, last := parts[..|parts| - 1], parts[|parts| - 1];
    if |parts| == 1 {
      assert front == [];
    } else {
      JoinLength(front);
      CjkAppend(Join(front), "\n\n");
      CjkAppend(Join(front) + "\n\n", last);
      assert CjkCount("\n\n") == 0 by {
        assert "\n\n"[..1] == "\n" && "\n"[..0] == "";
      }
    }
  }

  /** Joining n parts costs at most half of the n - 1 separators, rounded up. */
  lemma JoinEstimate(parts: seq<string>)
    ensures EstimateTokens(Join(parts)) <= Estimates(parts) + |parts| / 2
  {
    if parts != [] {
      JoinLength(parts);
      EstimatesBound(parts);
    }
  }

  lemma {:induction false} TokensAreEstimates(candidates: seq<Chunk>, kept: seq<nat>)
    requires forall x :: 0 <= x < |kept| ==> kept[x] < |candidates|
    ensures Tokens(candidates, kept) == Estimates(Contents(candidates, kept))
  {
    if kept != [] {
      TokensAreEstimates(candidates, kept[..|kept| - 1]);
      assert Contents(candidates, kept)[..|kept| - 1] == Contents(candidates, kept[..|kept| - 1]);
    }
  }

  /** The packed text of n parts is estimated at no more than the budget plus (n - 1) / 2, rounded up. */
  lemma PackedEstimate(candidates: seq<Chunk>, max: int)
    requires max >= 0
    ensures var kept := Pack(candidates, |candidates|, max).kept;
            && Subsequence(kept, |candidates|)
            && EstimateTokens(Join(Contents(candidates, kept))) <= max + |kept| / 2
  {
    WithinBudget(candidates, max);
    var kept := Pack(candidates, |candidates|, max).kept;
    TokensAreEstimates(candidates, kept);
    JoinEstimate(Contents(candidates, kept));
  }

  // ---------------------------------------------------------------------------------------------
  // The text, part by part
  // ---------------------------------------------------------------------------------------------

  /** Where part `x` begins: behind the parts before it and a separator of two for each. */
  function Begins(parts: seq<string>, x: nat): nat
    requires x <= |parts|
  {
    Length(parts[..x]) + 2 * x
  }

  /** The part stands in the text behind the parts before it, and an empty line behind it if it is not the last. */
  ghost predicate StandsAt(text: string, parts: seq<string>, x: nat)
    requires x < |parts|
  {
    && Begins(parts, x) + |parts[x]| <= |text|
    && text[Begins(parts, x)..Begins(parts, x) + |parts[x]|] == parts[x]
    && (x + 1 < |parts| ==>
          && Begins(parts, x) + |parts[x]| + 2 <= |text|
          && text[Begins(parts, x) + |parts[x]|..Begins(parts, x) + |parts[x]| + 2] == "\n\n")
  }

  /** The parts stand in the text in order, and it has nothing else. */
  ghost predicate InOrder(text: string, parts: seq<string>) {
    && (forall x :: 0 <= x < |parts| ==> StandsAt(text, parts, x))
    && (parts == [] ==> text == "")
    && (parts != [] ==> |text| == Begins(parts, |parts| - 1) + |parts[|parts| - 1]|)
  }

  lemma {:induction false} JoinInOrder(parts: seq<string>)
    ensures InOrder(Join(parts), parts)
  {
    if |parts| > 1 {
      var front, last := parts[..|parts| - 1], parts[|parts| - 1];
      JoinInOrder(front);
      JoinLength(front);
      JoinedLast(Join(front), front, last);
      assert parts == front + [last];
    } else if |parts| == 1 {
      assert parts[..0] == [];
    }
  }

  lemma BeginsInFront(front: seq<string>, last: string, x: nat)
    requires x <= |front|
    ensures Begins(front + [last], x) == Begins(front, x)
  {
    assert (front + [last])[..x] == front[..x];
  }

  lemma LastBegins(front: seq<string>)
    requires front != []
    ensures Begins(front, |front|) == Begins(front, |front| - 1) + |front[|front| - 1]| + 2
  {
    assert front[..|front|] == front;
  }

  lemma FrontStands(text: string, front: seq<string>, last: string, x: nat)
    requires x < |front| && StandsAt(text, front, x)
    requires |text| == Begins(front, |front| - 1) + |front[|front| - 1]|
    ensures StandsAt(text + "\n\n" + last, front + [last], x)
  {
    var joined, b := text + "\n\n" + last, Begins(front, x);
    BeginsInFront(front, last, x);
    assert joined[b..b + |front[x]|] == text[b..b + |front[x]|];
    if x + 1 < |front| {
      assert joined[b + |front[x]|..b + |front[x]| + 2] == text[b + |front[x]|..b + |front[x]| + 2];
    } else {
      assert joined[|text|..|text| + 2] == "\n\n";
    }
  }

  lemma JoinedLast(text: string, front: seq<string>, last: string)
    requires front != [] && InOrder(text, front)
    ensures InOrder(text + "\n\n" + last, front + [last])
  {
    var joined := text + "\n\n" + last;
    LastBegins(front);
    BeginsInFront(front, last, |front|);
    forall x | 0 <= x < |front|
      ensures StandsAt(joined, front + [last], x)
    {
      FrontStands(text, front, last, x);
    }
    assert joined[|text| + 2..|text| + 2 + |last|] == last;
    assert StandsAt(joined, front + [last], |front|);
  }

  /** The blocks of characters that count as a token each. */
  predicate InCjkBlocks(c: char) {
    || '\U{2E80}' <= c <= '\U{9FFF}'
    || '\U{F900}' <= c <= '\U{FAFF}'
    || '\U{FF00}' <= c <= '\U{FFEF}'
  }

  function CjkPlaces(text: string): set<int> {
    set i | 0 <= i < |text| && InCjkBlocks(text[i])
  }

  /** The estimate of a text: one token for each character of those blocks, and a quarter for each other one, rounded up. */
  lemma EstimateExactly(text: string)
    ensures var cjk := |CjkPlaces(text)|;
            && cjk <= |text|
            && 4 * (EstimateTokens(text) - cjk) >= |text| - cjk
            && 4 * (EstimateTokens(text) - cjk) < |text| - cjk + 4
  {
    CjkIsCard(text);
  }

  lemma {:induction false} CjkIsCard(text: string)
    ensures CjkCount(text) == |CjkPlaces(text)|
  {
    if text == "" {
      assert CjkPlaces(text) == {};
    } else {
      CjkIsCard(text[..|text| - 1]);
      OneMorePlace(text);
    }
  }

  lemma OneMorePlace(text: string)
    requires text != ""
    ensures var last := |text| - 1;
            && last !in CjkPlaces(text[..last])
            && CjkPlaces(text) == CjkPlaces(text[..last]) + if InCjkBlocks(text[last]) then {last} else {}
  {
  }
}
