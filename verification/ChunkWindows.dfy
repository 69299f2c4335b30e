/** Cutting a text into overlapping windows. */
module ChunkWindows {
  import opened Collections

  const CHUNK_SIZE: nat := 800
  const CHUNK_OVERLAP: nat := 100

  /** The characters Python's strip removes. */
  predicate IsBlank(c: char) {
    || '\t' <= c <= '\r'
    || '\U{001C}' <= c <= ' '
    || c in {'\U{0085}', '\U{00A0}', '\U{1680}', '\U{2028}', '\U{2029}', '\U{202F}', '\U{205F}', '\U{3000}'}
    || '\U{2000}' <= c <= '\U{200A}'
  }

  predicate AllBlank(s: string) {
    forall i :: 0 <= i < |s| ==> IsBlank(s[i])
  }

  function Step(size: nat, overlap: nat): nat {
    if size >= overlap + 1 then size - overlap else 1
  }

  /** The window at position `i`. */
  function Window(text: string, i: nat, size: nat): string
    requires i <= |text|
  {
    if i + size <= |text| then text[i..i + size] else text[i..]
  }

  /** All windows from position `i` on. */
  function Windows(text: string, i: nat, size: nat, step: nat): seq<string>
    requires step > 0
    decreases |text| - i
  {
    if i >= |text| then [] else [Window(text, i, size)] + Windows(text, i + step, size, step)
  }

  function NotBlank(pieces: seq<string>): seq<string> {
    if pieces == [] then []
    else if AllBlank(pieces[0]) then NotBlank(pieces[1..]) else [pieces[0]] + NotBlank(pieces[1..])
  }

  /** A text of nothing but blanks gives one empty piece, the empty text none. */
  function ChunkText(text: string, size: nat, overlap: nat): seq<string> {
    var pieces := NotBlank(Windows(text, 0, size, Step(size, overlap)));
    if pieces != [] then pieces else if text != "" then [""] else []
  }

  /** The first `n` characters of every piece. */
  function Heads(pieces: seq<string>, n: nat): seq<string> {
    seq(|pieces|, i requires 0 <= i < |pieces| => if n <= |pieces[i]| then pieces[i][..n] else pieces[i])
  }

  /** The windows from position `i` on without what they share with the next ones, joined. */
  function Joined(text: string, i: nat, size: nat, step: nat): string
    requires step > 0
  {
    Concat(Heads(Windows(text, i, size, step), step))
  }

  /** The part of the text that the first window does not share with the next. */
  lemma FirstHead(text: string, i: nat, size: nat, step: nat)
    requires 0 < step <= size && i < |text|
    ensures Joined(text, i, size, step)
            == (if i + step <= |text| then text[i..i + step] else text[i..]) + Joined(text, i + step, size, step)
  {
    var windows, rest := Windows(text, i, size, step), Windows(text, i + step, size, step);
    assert windows == [Window(text, i, size)] + rest;
    assert Heads(windows, step)[1..] == Heads(rest, step);
    ConcatFirst(Heads(windows, step));
  }

  lemma {:induction false} HeadsRebuild(text: string, i: nat, size: nat, step: nat)
    requires 0 < step <= size && i <= |text|
    ensures Joined(text, i, size, step) == text[i..]
    decreases |text| - i
  {
    if i == |text| {
      NoWindows(text, i, size, step);
    } else {
      FirstHead(text, i, size, step);
      if i + step <= |text| {
        HeadsRebuild(text, i + step, size, step);
        SplitRest(text, i, step);
      } else {
        NoWindows(text, i + step, size, step);
      }
    }
  }

  lemma SplitRest(text: string, i: nat, step: nat)
    requires i + step <= |text|
    ensures text[i..] == text[i..i + step] + text[i + step..]
  {
  }

  lemma NoWindows(text: string, i: nat, size: nat, step: nat)
    requires step > 0 && i >= |text|
    ensures Joined(text, i, size, step) == ""
  {
    assert Heads([], step) == [];
  }

  /** Without the overlap the windows add up to the text again. */
  lemma WindowsRebuild(text: string, size: nat, overlap: nat)
    requires overlap < size
    ensures Concat(Heads(Windows(text, 0, size, Step(size, overlap)), Step(size, overlap))) == text
  {
    HeadsRebuild(text, 0, size, size - overlap);
    assert text[0..] == text;
  }

  lemma {:induction false} KeptWindows(pieces: seq<string>)
    ensures forall piece :: piece in NotBlank(pieces) <==> piece in pieces && !AllBlank(piece)
  {
    if pieces != [] {
      KeptWindows(pieces[1..]);
      assert pieces == [pieces[0]] + pieces[1..];
    }
  }

  lemma {:induction false} NoneKept(pieces: seq<string>)
    requires forall piece :: piece in pieces ==> AllBlank(piece)
    ensures NotBlank(pieces) == []
  {
    if pieces != [] {
      assert AllBlank(pieces[0]);
      NoneKept(pieces[1..]);
    }
  }

  lemma {:induction false} WindowSizes(text: string, i: nat, size: nat, step: nat)
    requires step > 0
    ensures forall piece :: piece in Windows(text, i, size, step) ==> |piece| <= size
    decreases |text| - i
  {
    if i < |text| {
      WindowSizes(text, i + step, size, step);
    }
  }

  /** No piece is longer than the window. */
  lemma PiecesFit(text: string, size: nat, overlap: nat)
    ensures forall piece :: piece in ChunkText(text, size, overlap) ==> |piece| <= size
  {
    var windows := Windows(text, 0, size, Step(size, overlap));
    WindowSizes(text, 0, size, Step(size, overlap));
    KeptWindows(windows);
  }

  /** The window at position `at` shows the character at position `p` of the text. */
  ghost predicate Shows(text: string, at: nat, size: nat, p: nat) {
    at <= p < |text| && p < at + size && p - at < |Window(text, at, size)| && Window(text, at, size)[p - at] == text[p]
  }

  lemma WindowShows(text: string, at: nat, size: nat, p: nat)
    requires at <= p < |text| && p < at + size
    ensures Shows(text, at, size, p)
  {
  }

  lemma {:induction false} WindowAt(text: string, i: nat, size: nat, step: nat, p: nat) returns (at: nat)
    requires 0 < step <= size && i <= p < |text|
    ensures Shows(text, at, size, p) && Window(text, at, size) in Windows(text, i, size, step)
    decreases |text| - i
  {
    if p < i + step {
      at := i;
      WindowShows(text, i, size, p);
    } else {
      at := WindowAt(text, i + step, size, step, p);
    }
  }

  lemma ShownNotBlank(text: string, at: nat, size: nat, p: nat)
    requires Shows(text, at, size, p) && !IsBlank(text[p])
    ensures !AllBlank(Window(text, at, size))
  {
  }

  /** Every character that is not blank lies in a kept piece. */
  lemma NothingLost(text: string, size: nat, overlap: nat, p: nat)
    requires overlap < size && p < |text| && !IsBlank(text[p])
    ensures exists at: nat :: Shows(text, at, size, p) && Window(text, at, size) in ChunkText(text, size, overlap)
  {
    var at := WindowAt(text, 0, size, size - overlap, p);
    ShownNotBlank(text, at, size, p);
    var windows := Windows(text, 0, size, size - overlap);
    KeptWindows(windows);
    assert NotBlank(windows) != [];
  }

  /** A piece is empty of text only when the whole text is blank. */
  lemma BlankOnly(text: string, size: nat, overlap: nat)
    requires overlap < size
    ensures (exists piece :: piece in ChunkText(text, size, overlap) && AllBlank(piece)) <==> text != "" && AllBlank(text)
  {
    var windows := Windows(text, 0, size, size - overlap);
    KeptWindows(windows);
    if AllBlank(text) {
      BlankWindows(text, 0, size, size - overlap);
      NoneKept(windows);
      if text != "" {
        assert "" in ChunkText(text, size, overlap);
      }
    } else {
      var p :| 0 <= p < |text| && !IsBlank(text[p]);
      var at := WindowAt(text, 0, size, size - overlap, p);
      ShownNotBlank(text, at, size, p);
      assert NotBlank(windows) != [];
    }
  }

  lemma {:induction false} BlankWindows(text: string, i: nat, size: nat, step: nat)
    requires step > 0 && AllBlank(text)
    ensures forall piece :: piece in Windows(text, i, size, step) ==> AllBlank(piece)
    decreases |text| - i
  {
    if i < |text| {
      var first, rest := Window(text, i, size), Windows(text, i + step, size, step);
      BlankWindows(text, i + step, size, step);
      BlankWindow(text, i, size);
      forall piece | piece in [first] + rest
        ensures AllBlank(piece)
      {
        assert piece == first || piece in rest;
      }
    }
  }

  lemma BlankWindow(text: string, i: nat, size: nat)
    requires i <= |text| && AllBlank(text)
    ensures AllBlank(Window(text, i, size))
  {
  }

  // ---------------------------------------------------------------------------------------------
  // The pieces in order
  // ---------------------------------------------------------------------------------------------

  /** The window at position `p` holds a character that is not blank. */
  ghost predicate HasText(text: string, p: nat, size: nat) {
    exists q :: p <= q < |text| && q < p + size && !IsBlank(text[q])
  }

  /** The positions of the windows with text, from position `i` on. */
  ghost function Offsets(text: string, i: nat, size: nat, step: nat): seq<nat>
    requires step > 0
    decreases |text| - i
  {
    if i >= |text| then []
    else (if HasText(text, i, size) then [i] else []) + Offsets(text, i + step, size, step)
  }

  /** The piece of the text at an offset. */
  function PieceAt(text: string, p: nat, size: nat): string
    requires p <= |text|
  {
    text[p..if p + size <= |text| then p + size else |text|]
  }

  lemma WindowHasText(text: string, i: nat, size: nat)
    requires i < |text|
    ensures HasText(text, i, size) <==> !AllBlank(Window(text, i, size))
    ensures Window(text, i, size) == PieceAt(text, i, size)
  {
    var w := Window(text, i, size);
    if !AllBlank(w) {
      var k :| 0 <= k < |w| && !IsBlank(w[k]);
      assert text[i + k] == w[k];
    }
    if HasText(text, i, size) {
      var q :| i <= q < |text| && q < i + size && !IsBlank(text[q]);
      assert w[q - i] == text[q];
    }
  }

  /** The pieces are those of the text at these offsets. */
  predicate CutAt(text: string, size: nat, pieces: seq<string>, at: seq<nat>) {
    |pieces| == |at| && forall x :: 0 <= x < |at| ==> at[x] < |text| && pieces[x] == PieceAt(text, at[x], size)
  }

  lemma CutFirst(text: string, i: nat, size: nat, windows: seq<string>, at: seq<nat>)
    requires i < |text| && CutAt(text, size, NotBlank(windows), at)
    ensures CutAt(text, size, NotBlank([Window(text, i, size)] + windows), (if HasText(text, i, size) then [i] else []) + at)
  {
    WindowHasText(text, i, size);
    var first := Window(text, i, size);
    assert ([first] + windows)[1..] == windows;
    if AllBlank(first) {
      assert [] + at == at;
    } else {
      CutMore(text, i, size, NotBlank(windows), at);
    }
  }

  lemma CutMore(text: string, i: nat, size: nat, pieces: seq<string>, at: seq<nat>)
    requires i < |text| && CutAt(text, size, pieces, at)
    ensures CutAt(text, size, [PieceAt(text, i, size)] + pieces, [i] + at)
  {
  }

  lemma {:induction false} KeptInOrder(text: string, i: nat, size: nat, step: nat)
    requires step > 0
    ensures CutAt(text, size, NotBlank(Windows(text, i, size, step)), Offsets(text, i, size, step))
    decreases |text| - i
  {
    if i < |text| {
      KeptInOrder(text, i + step, size, step);
      CutFirst(text, i, size, Windows(text, i + step, size, step), Offsets(text, i + step, size, step));
    }
  }

  /** Taking one step away leaves the remainder. */
  lemma StepBack(p: nat, step: nat)
    requires 0 < step <= p
    ensures (p - step) % step == p % step
  {
    var q, r := (p - step) / step, (p - step) % step;
    assert p == step * (q + 1) + r;
    var d := q + 1 - p / step;
    assert step * d == p % step - r;
    NoSmallMultiple(step, d);
  }

  lemma NoSmallMultiple(step: int, d: int)
    requires step > 0
    ensures d != 0 ==> step * d >= step || step * d <= -step
  {
    if d >= 1 {
      assert step * d >= step;
    } else if d <= -1 {
      assert step * d <= -step;
    }
  }

  lemma SmallRemainder(p: nat, step: nat)
    requires p < step
    ensures p % step == p
  {
  }

  /** They are the positions a multiple of the step further whose windows have text, in increasing order. */
  ghost predicate OffsetsFrom(text: string, i: nat, size: nat, step: nat, at: seq<nat>)
    requires step > 0
  {
    && (forall x, y :: 0 <= x < y < |at| ==> at[x] < at[y])
    && (forall p: nat :: p in at <==> i <= p < |text| && (p - i) % step == 0 && HasText(text, p, size))
  }

  lemma {:induction false} OffsetsExactly(text: string, i: nat, size: nat, step: nat)
    requires step > 0
    ensures OffsetsFrom(text, i, size, step, Offsets(text, i, size, step))
    decreases |text| - i
  {
    if i < |text| {
      OffsetsExactly(text, i + step, size, step);
      OneMoreOffset(text, i, size, step, Offsets(text, i + step, size, step));
    }
  }

  lemma OneMoreOffset(text: string, i: nat, size: nat, step: nat, rest: seq<nat>)
    requires step > 0 && i < |text| && OffsetsFrom(text, i + step, size, step, rest)
    ensures OffsetsFrom(text, i, size, step, (if HasText(text, i, size) then [i] else []) + rest)
  {
    var at := (if HasText(text, i, size) then [i] else []) + rest;
    assert forall x :: 0 <= x < |rest| ==> rest[x] in rest;
    forall p: nat
      ensures p in at <==> i <= p < |text| && (p - i) % step == 0 && HasText(text, p, size)
    {
      if p >= i + step {
        StepBack(p - i, step);
        assert p - i - step == p - (i + step);
      } else if p >= i {
        SmallRemainder(p - i, step);
      }
    }
  }

  /** What the pieces of a text are: the windows at these offsets, in this order. */
  ghost predicate PiecesAt(text: string, size: nat, overlap: nat, pieces: seq<string>, at: seq<nat>)
    requires overlap < size
  {
    && |pieces| == |at|
    && (forall x, y :: 0 <= x < y < |at| ==> at[x] < at[y])
    && (forall p: nat :: p in at <==> p < |text| && p % (size - overlap) == 0 && HasText(text, p, size))
    && (forall x :: 0 <= x < |at| ==>
          at[x] < |text| && pieces[x] == text[at[x]..if at[x] + size <= |text| then at[x] + size else |text|])
  }

  /** The pieces of a text that is not blank are its windows with text, at increasing multiples of size - overlap. */
  lemma PiecesInOrder(text: string, size: nat, overlap: nat)
    requires overlap < size && !AllBlank(text)
    ensures PiecesAt(text, size, overlap, ChunkText(text, size, overlap), Offsets(text, 0, size, size - overlap))
  {
    PiecesKept(text, size, overlap);
    KeptPieces(text, size, overlap);
  }

  lemma KeptPieces(text: string, size: nat, overlap: nat)
    requires overlap < size
    ensures PiecesAt(text, size, overlap, NotBlank(Windows(text, 0, size, size - overlap)),
                     Offsets(text, 0, size, size - overlap))
  {
    var step: nat := size - overlap;
    var pieces, at := NotBlank(Windows(text, 0, size, step)), Offsets(text, 0, size, step);
    assert CutAt(text, size, pieces, at) by {
      KeptInOrder(text, 0, size, step);
    }
    assert OffsetsFrom(text, 0, size, step, at) by {
      OffsetsExactly(text, 0, size, step);
    }
    PiecesFromOffsets(text, size, overlap, pieces, at);
  }

  lemma PiecesFromOffsets(text: string, size: nat, overlap: nat, pieces: seq<string>, at: seq<nat>)
    requires overlap < size && OffsetsFrom(text, 0, size, size - overlap, at) && CutAt(text, size, pieces, at)
    ensures PiecesAt(text, size, overlap, pieces, at)
  {
  }

  lemma PiecesKept(text: string, size: nat, overlap: nat)
    requires overlap < size && !AllBlank(text)
    ensures ChunkText(text, size, overlap) == NotBlank(Windows(text, 0, size, size - overlap))
  {
    var p: nat :| p < |text| && !IsBlank(text[p]);
    SomeWindow(text, size, overlap, p);
  }

  lemma SomeWindow(text: string, size: nat, overlap: nat, p: nat)
    requires overlap < size && p < |text| && !IsBlank(text[p])
    ensures NotBlank(Windows(text, 0, size, size - overlap)) != []
  {
    var at := WindowAt(text, 0, size, size - overlap, p);
    ShownNotBlank(text, at, size, p);
    KeptWindows(Windows(text, 0, size, size - overlap));
  }

  /** A text of nothing but blanks gives one empty piece, the empty text none. */
  lemma BlankPieces(text: string, size: nat, overlap: nat)
    requires overlap < size && AllBlank(text)
    ensures ChunkText(text, size, overlap) == if text == "" then [] else [""]
  {
    BlankWindows(text, 0, size, size - overlap);
    NoneKept(Windows(text, 0, size, size - overlap));
  }

  lemma {:induction false} AllKept(pieces: seq<string>)
    requires forall x :: 0 <= x < |pieces| ==> !AllBlank(pieces[x])
    ensures NotBlank(pieces) == pieces
  {
    if pieces != [] {
      AllKept(pieces[1..]);
    }
  }

  lemma NextWindows(text: string, i: nat, size: nat, step: nat)
    requires step > 0 && forall p: nat :: i <= p < |text| && (p - i) % step == 0 ==> HasText(text, p, size)
    ensures forall p: nat :: i + step <= p < |text| && (p - (i + step)) % step == 0 ==> HasText(text, p, size)
  {
    forall p: nat | i + step <= p < |text| && (p - (i + step)) % step == 0
      ensures HasText(text, p, size)
    {
      assert p - (i + step) == p - i - step;
      StepBack(p - i, step);
    }
  }

  lemma {:induction false} WindowsHaveText(text: string, i: nat, size: nat, step: nat)
    requires step > 0 && forall p: nat :: i <= p < |text| && (p - i) % step == 0 ==> HasText(text, p, size)
    ensures forall x :: 0 <= x < |Windows(text, i, size, step)| ==> !AllBlank(Windows(text, i, size, step)[x])
    decreases |text| - i
  {
    if i < |text| {
      NextWindows(text, i, size, step);
      WindowsHaveText(text, i + step, size, step);
      SmallRemainder(0, step);
      WindowHasText(text, i, size);
    }
  }

  /** When no window is blank, the pieces without what they share with the next ones are the text. */
  lemma PiecesRebuild(text: string, size: nat, overlap: nat)
    requires overlap < size
    requires forall p: nat :: p < |text| && p % (size - overlap) == 0 ==> HasText(text, p, size)
    ensures Concat(Heads(ChunkText(text, size, overlap), size - overlap)) == text
  {
    WindowsHaveText(text, 0, size, size - overlap);
    AllKept(Windows(text, 0, size, size - overlap));
    WindowsRebuild(text, size, overlap);
    if text != "" {
      assert Windows(text, 0, size, size - overlap) != [];
    } else {
      assert Heads([], size - overlap) == [];
    }
  }

  /** The values in use: windows of 800 characters that overlap by 100 rebuild the text and lose nothing. */
  lemma WindowsInUse(text: string, p: nat)
    requires p < |text| && !IsBlank(text[p])
    ensures Concat(Heads(Windows(text, 0, CHUNK_SIZE, Step(CHUNK_SIZE, CHUNK_OVERLAP)), 700)) == text
    ensures exists at: nat ::
              Shows(text, at, CHUNK_SIZE, p) && Window(text, at, CHUNK_SIZE) in ChunkText(text, CHUNK_SIZE, CHUNK_OVERLAP)
  {
    WindowsRebuild(text, CHUNK_SIZE, CHUNK_OVERLAP);
    NothingLost(text, CHUNK_SIZE, CHUNK_OVERLAP, p);
  }
}
