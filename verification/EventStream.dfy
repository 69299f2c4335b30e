/** Server-sent event frames: the writer of the backend and the incremental reader of the frontend, which
    accepts a subset of section 9.2.6 of the WHATWG HTML standard. */
module EventStream {
  import opened Collections
  import opened Rows

  /** An event name and the text of its payload. */
  datatype Event = Event(name: string, data: string)

  // ---------------------------------------------------------------------------------------------
  // Text
  // ---------------------------------------------------------------------------------------------

  /** The characters JavaScript's trim functions remove. */
  predicate IsSpace(c: char) {
    || c in {' ', '\t', '\n', '\r', '\U{000B}', '\U{000C}', '\U{00A0}', '\U{1680}', '\U{2028}', '\U{2029}',
             '\U{202F}', '\U{205F}', '\U{3000}', '\U{FEFF}'}
    || '\U{2000}' <= c <= '\U{200A}'
  }

  function TrimStart(s: string): string {
    if s != "" && IsSpace(s[0]) then TrimStart(s[1..]) else s
  }

  function TrimEnd(s: string): string {
    if s != "" && IsSpace(s[|s| - 1]) then TrimEnd(s[..|s| - 1]) else s
  }

  function Trim(s: string): string {
    TrimEnd(TrimStart(s))
  }

  /** The pieces between newlines. */
  function Lines(s: string): (lines: seq<string>)
    ensures |lines| >= 1
  {
    if s == "" then [""]
    else
      var rest := Lines(s[1..]);
      if s[0] == '\n' then [""] + rest else [[s[0]] + rest[0]] + rest[1..]
  }

  function JoinLines(lines: seq<string>): string {
    if lines == [] then "" else if |lines| == 1 then lines[0] else JoinLines(lines[..|lines| - 1]) + "\n" + lines[|lines| - 1]
  }

  // ---------------------------------------------------------------------------------------------
  // The frame separator: an optional carriage return and a newline, twice
  // ---------------------------------------------------------------------------------------------

  /** The length of a line end at position `i`, 0 if there is none. */
  function LineEnd(s: string, i: nat): nat {
    if i < |s| && s[i] == '\n' then 1
    else if i + 1 < |s| && s[i] == '\r' && s[i + 1] == '\n' then 2
    else 0
  }

  function SeparatorAt(s: string, i: nat): nat {
    var first := LineEnd(s, i);
    var second := LineEnd(s, i + first);
    if first == 0 || second == 0 then 0 else first + second
  }

  /** The first separator at or after position `i`. */
  function FindSeparator(s: string, i: nat): (r: Option<nat>)
    ensures r.Some? ==> i <= r.value < |s| && SeparatorAt(s, r.value) > 0
                        && forall k :: i <= k < r.value ==> SeparatorAt(s, k) == 0
    ensures r.None? ==> forall k :: i <= k < |s| ==> SeparatorAt(s, k) == 0
    decreases |s| - i
  {
    if i >= |s| then None else if SeparatorAt(s, i) > 0 then Some(i) else FindSeparator(s, i + 1)
  }

  // ---------------------------------------------------------------------------------------------
  // Reading
  // ---------------------------------------------------------------------------------------------

  function AfterSeparator(s: string, i: nat): string
    requires i < |s| && SeparatorAt(s, i) > 0
  {
    s[i + SeparatorAt(s, i)..]
  }

  /** The complete frames of a text, and what is left after them. */
  function Split(s: string): (r: (seq<string>, string))
    decreases |s|
  {
    match FindSeparator(s, 0)
    case None => ([], s)
    case Some(i) =>
      var (frames, rest) := Split(AfterSeparator(s, i));
      ([s[..i]] + frames, rest)
  }

  /** The frames of a whole text: a last one need not be terminated. */
  function Frames(s: string): seq<string> {
    var (frames, rest) := Split(s);
    if Trim(rest) != "" then frames + [rest] else frames
  }

  datatype Fields = Fields(name: string, data: seq<string>)

  predicate StartsWith(s: string, prefix: string) {
    |prefix| <= |s| && s[..|prefix|] == prefix
  }

  function AddLine(f: Fields, raw: string): Fields {
    var line := TrimEnd(raw);
    if StartsWith(line, "event:") then f.(name := Trim(line[|"event:"|..]))
    else if StartsWith(line, "data:") then f.(data := f.data + [TrimStart(line[|"data:"|..])])
    else f
  }

  function FieldsOf(lines: seq<string>): Fields {
    if lines == [] then Fields("message", []) else AddLine(FieldsOf(lines[..|lines| - 1]), lines[|lines| - 1])
  }

  /** The event of a frame; a frame without data has none. */
  function Dispatch(frame: string): Option<Event> {
    var f := FieldsOf(Lines(frame));
    if f.data == [] then None else Some(Event(f.name, JoinLines(f.data)))
  }

  function DispatchAll(frames: seq<string>): seq<Event> {
    if frames == [] then []
    else
      var before := DispatchAll(frames[..|frames| - 1]);
      match Dispatch(frames[|frames| - 1])
      case Some(event) => before + [event]
      case None => before
  }

  // ---------------------------------------------------------------------------------------------
  // The reader as it runs
  // ---------------------------------------------------------------------------------------------

  method DispatchFrame(frame: string) returns (event: Option<Event>)
    ensures event == Dispatch(frame)
  {
    var name := "message";
    var data := [];
    var lines := Lines(frame);
    var i := 0;
    while i < |lines|
      invariant 0 <= i <= |lines|
      invariant Fields(name, data) == FieldsOf(lines[..i])
    {
      assert lines[..i + 1][..i] == lines[..i];
      var line := TrimEnd(lines[i]);
      if StartsWith(line, "event:") {
        name := Trim(line[|"event:"|..]);
      } else if StartsWith(line, "data:") {
        data := data + [TrimStart(line[|"data:"|..])];
      }
      i := i + 1;
    }
    assert lines[..i] == lines;
    event := if data == [] then None else Some(Event(name, JoinLines(data)));
  }

  /** Dispatch the complete frames of the buffer; the rest stays in it. */
  method DispatchComplete(text: string) returns (events: seq<Event>, buffer: string)
    ensures events == DispatchAll(Split(text).0) && buffer == Split(text).1
  {
    events, buffer := [], text;
    ghost var frames: seq<string> := [];
    var at := FindSeparator(buffer, 0);
    assert frames + Split(buffer).0 == Split(buffer).0;
    while at.Some?
      invariant at == FindSeparator(buffer, 0)
      invariant events == DispatchAll(frames)
      invariant Split(text).0 == frames + Split(buffer).0 && Split(text).1 == Split(buffer).1
      decreases |buffer|
    {
      var frame := buffer[..at.value];
      var event := DispatchFrame(frame);
      DispatchOneMore(frames, frame);
      if event.Some? {
        events := events + [event.value];
      }
      SplitStep(buffer, at.value);
      Associates(frames, [frame], Split(AfterSeparator(buffer, at.value)).0);
      frames := frames + [frame];
      buffer := AfterSeparator(buffer, at.value);
      at := FindSeparator(buffer, 0);
    }
    assert frames + [] == frames;
  }

  lemma Associates(a: seq<string>, b: seq<string>, c: seq<string>)
    ensures a + (b + c) == (a + b) + c
  {
  }

  lemma DispatchOneMore(frames: seq<string>, frame: string)
    ensures DispatchAll(frames + [frame])
            == DispatchAll(frames) + match Dispatch(frame) case Some(event) => [event] case None => []
  {
    assert (frames + [frame])[..|frames|] == frames;
  }

  lemma SplitStep(s: string, i: nat)
    requires FindSeparator(s, 0) == Some(i)
    ensures Split(s).0 == [s[..i]] + Split(AfterSeparator(s, i)).0 && Split(s).1 == Split(AfterSeparator(s, i)).1
  {
  }

  /** Read the chunks one by one, dispatching every frame as soon as its separator is complete.  The
      events depend on nothing but the text the chunks add up to. */
  method StreamEvents(chunks: seq<string>) returns (events: seq<Event>)
    ensures events == DispatchAll(Frames(Concat(chunks)))
  {
    var buffer := "";
    events := [];
    var i := 0;
    while i < |chunks|
      invariant 0 <= i <= |chunks|
      invariant buffer == Split(Concat(chunks[..i])).1
      invariant events == DispatchAll(Split(Concat(chunks[..i])).0)
    {
      ghost var text := Concat(chunks[..i]);
      assert chunks[..i + 1][..i] == chunks[..i];
      SplitAppend(text, chunks[i]);
      DispatchAppend(Split(text).0, Split(buffer + chunks[i]).0);
      var more;
      more, buffer := DispatchComplete(buffer + chunks[i]);
      events := events + more;
      i := i + 1;
    }
    assert chunks[..i] == chunks;
    if Trim(buffer) != "" {
      ghost var frames := Split(Concat(chunks)).0;
      assert (frames + [buffer])[..|frames|] == frames;
      var event := DispatchFrame(buffer);
      if event.Some? {
        events := events + [event.value];
      }
    }
  }

  // ---------------------------------------------------------------------------------------------
  // Chunks do not matter
  // ---------------------------------------------------------------------------------------------

  /** A separator found in the text so far is the one the whole text has. */
  lemma SeparatorStays(s: string, t: string, i: nat)
    requires FindSeparator(s, 0) == Some(i)
    ensures FindSeparator(s + t, 0) == Some(i) && SeparatorAt(s + t, i) == SeparatorAt(s, i)
  {
    var n := SeparatorAt(s, i);
    assert SeparatorAt(s + t, i) == n;
    forall k | 0 <= k < i
      ensures SeparatorAt(s + t, k) == 0
    {
      assert SeparatorAt(s, k) == 0;
    }
  }

  /** What is left of a text has no separator in it. */
  lemma {:induction false} SplitRest(s: string)
    ensures FindSeparator(Split(s).1, 0).None?
    decreases |s|
  {
    var at := FindSeparator(s, 0);
    if at.Some? {
      SplitRest(AfterSeparator(s, at.value));
    }
  }

  lemma {:induction false} SplitAppend(s: string, t: string)
    ensures var (frames, rest) := Split(s);
            Split(s + t).0 == frames + Split(rest + t).0 && Split(s + t).1 == Split(rest + t).1
    decreases |s|
  {
    match FindSeparator(s, 0)
    case None =>
      assert [] + Split(s + t).0 == Split(s + t).0;
    case Some(i) =>
      SeparatorStays(s, t, i);
      var after := AfterSeparator(s, i);
      assert (s + t)[..i] == s[..i];
      assert AfterSeparator(s + t, i) == after + t;
      SplitStep(s, i);
      SplitStep(s + t, i);
      SplitAppend(after, t);
      Associates([s[..i]], Split(after).0, Split(Split(after).1 + t).0);
  }

  // ---------------------------------------------------------------------------------------------
  // Writing and reading back
  // ---------------------------------------------------------------------------------------------

  function NameLine(name: string): string {
    "event: " + name
  }

  function DataLine(data: string): string {
    "data: " + data
  }

  function Body(event: Event): string {
    NameLine(event.name) + "\n" + DataLine(event.data)
  }

  function WriteFrame(event: Event): string {
    Body(event) + "\n\n"
  }

  function WriteAll(events: seq<Event>): string {
    if events == [] then "" else WriteFrame(events[0]) + WriteAll(events[1..])
  }

  predicate OneLine(s: string) {
    forall i :: 0 <= i < |s| ==> s[i] != '\n' && s[i] != '\r'
  }

  predicate Trimmed(s: string) {
    s == "" || (!IsSpace(s[0]) && !IsSpace(s[|s| - 1]))
  }

  /** What the backend writes: an event name, and a JSON object on one line. */
  predicate Writable(event: Event) {
    && OneLine(event.name) && Trimmed(event.name)
    && OneLine(event.data) && |event.data| >= 2 && event.data[0] == '{' && event.data[|event.data| - 1] == '}'
  }

  lemma {:induction false} LinesOf(a: string, b: string)
    requires forall i :: 0 <= i < |a| ==> a[i] != '\n'
    ensures Lines(a) == [a] && Lines(a + "\n" + b) == [a] + Lines(b)
  {
    if a == "" {
      assert a + "\n" + b == "\n" + b && ("\n" + b)[1..] == b;
    } else {
      LinesOf(a[1..], b);
      assert [a[0]] + a[1..] == a;
      assert (a + "\n" + b)[1..] == a[1..] + "\n" + b;
      assert ([a[1..]] + Lines(b))[1..] == Lines(b);
    }
  }

  lemma WrittenName(name: string)
    requires Trimmed(name)
    ensures var line := TrimEnd(NameLine(name));
            StartsWith(line, "event:") && Trim(line[|"event:"|..]) == name
  {
    var line := NameLine(name);
    if name == "" {
      assert line == "event: " && line[..|line| - 1] == "event:";
    } else {
      assert TrimEnd(line) == line;
      assert line[|"event:"|..] == " " + name;
      assert (" " + name)[1..] == name;
      assert (" " + name)[0] == ' ' && !IsSpace(name[0]) && !IsSpace(name[|name| - 1]);
      assert TrimStart(name) == name;
      assert TrimStart(" " + name) == TrimStart((" " + name)[1..]);
      assert TrimEnd(name) == name;
    }
  }

  lemma WrittenData(data: string)
    requires Trimmed(data)
    ensures var line := TrimEnd(DataLine(data));
            StartsWith(line, "data:") && !StartsWith(line, "event:") && TrimStart(line[|"data:"|..]) == data
  {
    var line := DataLine(data);
    if data == "" {
      assert line == "data: " && line[..|line| - 1] == "data:";
    } else {
      assert TrimEnd(line) == line;
      assert line[0] == 'd';
      assert line[|"data:"|..] == " " + data;
      assert (" " + data)[1..] == data;
    }
  }

  lemma WrittenFields(first: string, second: string, name: string, data: string)
    requires AddLine(Fields("message", []), first) == Fields(name, [])
    requires AddLine(Fields(name, []), second) == Fields(name, [data])
    ensures FieldsOf([first, second]) == Fields(name, [data])
  {
    assert [first, second][..1] == [first] && [first][..0] == [];
    assert FieldsOf([first]) == Fields(name, []);
  }

  lemma WrittenFrame(event: Event)
    requires Writable(event)
    ensures Dispatch(Body(event)) == Some(event)
  {
    var first, second := NameLine(event.name), DataLine(event.data);
    WrittenLines(first, second);
    WrittenName(event.name);
    WrittenData(event.data);
    WrittenFields(first, second, event.name, event.data);
  }

  lemma WrittenLines(first: string, second: string)
    requires OneLine(first) && OneLine(second)
    ensures Lines(first + "\n" + second) == [first, second]
  {
    LinesOf(first, second);
    LinesOf(second, "");
  }

  /** A separator needs a newline with a line end behind it, or a carriage return. */
  lemma NoSeparator(s: string, n: nat, length: nat)
    requires n + 1 < length <= |s| && s[n] == '\n' && s[n + 1] != '\n' && s[n + 1] != '\r'
    requires forall k :: 0 <= k < length && k != n ==> s[k] != '\n' && s[k] != '\r'
    ensures forall k :: 0 <= k < length ==> SeparatorAt(s, k) == 0
  {
    forall k | 0 <= k < length
      ensures SeparatorAt(s, k) == 0
    {
      assert k == n || LineEnd(s, k) == 0;
    }
  }

  /** The separator after a written frame is the first one in the text. */
  lemma WrittenSeparator(event: Event, rest: string)
    requires Writable(event)
    ensures FindSeparator(WriteFrame(event) + rest, 0) == Some(|Body(event)|)
    ensures SeparatorAt(WriteFrame(event) + rest, |Body(event)|) == 2
  {
    var body := Body(event);
    var first, second := NameLine(event.name), DataLine(event.data);
    var s := WriteFrame(event) + rest;
    assert s[..|body|] == body && s[|body|] == '\n' && s[|body| + 1] == '\n';
    assert OneLine(first) && OneLine(second);
    forall k | 0 <= k < |body| && k != |first|
      ensures s[k] != '\n' && s[k] != '\r'
    {
      assert s[k] == body[k] == if k < |first| then first[k] else second[k - |first| - 1];
    }
    assert s[|first| + 1] == second[0] == 'd';
    NoSeparator(s, |first|, |body|);
    assert SeparatorAt(s, |body|) == 2;
  }

  lemma {:induction false} DispatchAppend(a: seq<string>, b: seq<string>)
    ensures DispatchAll(a + b) == DispatchAll(a) + DispatchAll(b)
  {
    if b == [] {
      assert a + b == a;
    } else {
      assert (a + b)[..|a + b| - 1] == a + b[..|b| - 1];
      DispatchAppend(a, b[..|b| - 1]);
    }
  }

  lemma {:induction false} WrittenAll(events: seq<Event>)
    requires forall i :: 0 <= i < |events| ==> Writable(events[i])
    ensures Split(WriteAll(events)).1 == "" && DispatchAll(Split(WriteAll(events)).0) == events
  {
    if events != [] {
      var event, rest := events[0], WriteAll(events[1..]);
      var body := Body(event);
      WrittenSeparator(event, rest);
      assert (WriteFrame(event) + rest)[..|body|] == body;
      assert (WriteFrame(event) + rest)[|body| + 2..] == rest;
      WrittenAll(events[1..]);
      WrittenFrame(event);
      DispatchAppend([body], Split(rest).0);
      assert [body][..0] == [];
      assert DispatchAll([body]) == [event];
      assert events == [event] + events[1..];
    }
  }

  /** Whatever list of events is written and however the text is cut into chunks, the reader dispatches
      exactly the written events in order. */
  lemma RoundTrip(events: seq<Event>, chunks: seq<string>)
    requires forall i :: 0 <= i < |events| ==> Writable(events[i])
    requires Concat(chunks) == WriteAll(events)
    ensures DispatchAll(Frames(Concat(chunks))) == events
  {
    WrittenAll(events);
  }

  /** If the connection breaks in the middle, the events dispatched from what did arrive are a prefix of
      the written ones, as long as the last frame is not dispatched unterminated. */
  lemma CutStream(events: seq<Event>, received: string)
    requires forall i :: 0 <= i < |events| ==> Writable(events[i])
    requires received <= WriteAll(events)
    ensures DispatchAll(Split(received).0) <= events
  {
    WrittenAll(events);
    var missing := WriteAll(events)[|received|..];
    assert received + missing == WriteAll(events);
    SplitAppend(received, missing);
    var (frames, rest) := Split(received);
    DispatchAppend(frames, Split(rest + missing).0);
  }

  // ---------------------------------------------------------------------------------------------
  // Other writers of the format
  // ---------------------------------------------------------------------------------------------

  /** What stands for the end of a frame: two line ends, each with or without a carriage return. */
  lemma SeparatorExactly(s: string, i: nat)
    requires i <= |s|
    ensures SeparatorAt(s, i) == if StartsWith(s[i..], "\n\n") then 2
                                 else if StartsWith(s[i..], "\n\r\n") || StartsWith(s[i..], "\r\n\n") then 3
                                 else if StartsWith(s[i..], "\r\n\r\n") then 4 else 0
  {
    var t := s[i..];
    assert forall k :: 0 <= k < |t| ==> t[k] == s[i + k];
    assert StartsWith(t, "\n\n") <==> |t| >= 2 && t[0] == '\n' && t[1] == '\n';
    assert StartsWith(t, "\n\r\n") <==> |t| >= 3 && t[0] == '\n' && t[1] == '\r' && t[2] == '\n';
    assert StartsWith(t, "\r\n\n") <==> |t| >= 3 && t[0] == '\r' && t[1] == '\n' && t[2] == '\n';
    assert StartsWith(t, "\r\n\r\n") <==> |t| >= 4 && t[0] == '\r' && t[1] == '\n' && t[2] == '\r' && t[3] == '\n';
  }

  /** A frame as another server may write it: the name may be missing, and the data may have several lines. */
  datatype Wire = Wire(name: Option<string>, data: seq<string>)

  predicate Sendable(w: Wire) {
    && (w.name.Some? ==> OneLine(w.name.value) && Trimmed(w.name.value))
    && w.data != [] && forall i :: 0 <= i < |w.data| ==> OneLine(w.data[i]) && Trimmed(w.data[i])
  }

  predicate IsLineEnd(eol: string) {
    eol == "\n" || eol == "\r\n"
  }

  function DataLines(data: seq<string>): seq<string> {
    if data == [] then [] else DataLines(data[..|data| - 1]) + ["data: " + data[|data| - 1]]
  }

  function WireLines(w: Wire): seq<string> {
    (if w.name.Some? then ["event: " + w.name.value] else []) + DataLines(w.data)
  }

  function Assembled(lines: seq<string>, eol: string): string {
    if lines == [] then "" else if |lines| == 1 then lines[0] else lines[0] + eol + Assembled(lines[1..], eol)
  }

  function WireAll(wires: seq<Wire>, eol: string): string {
    if wires == [] then "" else Assembled(WireLines(wires[0]), eol) + (eol + eol) + WireAll(wires[1..], eol)
  }

  /** The event it stands for; without a name it is a `message`. */
  function EventOf(w: Wire): Event {
    Event(if w.name.Some? then w.name.value else "message", JoinLines(w.data))
  }

  /** The lines of the data are again the ones it was joined from. */
  lemma {:induction false} JoinedLines(lines: seq<string>)
    requires lines != [] && forall i :: 0 <= i < |lines| ==> OneLine(lines[i])
    ensures Lines(JoinLines(lines)) == lines
  {
    if |lines| == 1 {
      LinesOf(lines[0], "");
    } else {
      JoinedLines(lines[1..]);
      JoinFirst(lines);
      LinesOf(lines[0], JoinLines(lines[1..]));
      assert lines == [lines[0]] + lines[1..];
    }
  }

  lemma {:induction false} JoinFirst(lines: seq<string>)
    requires |lines| >= 2
    ensures JoinLines(lines) == lines[0] + "\n" + JoinLines(lines[1..])
  {
    var last := lines[|lines| - 1];
    if |lines| > 2 {
      var front := lines[..|lines| - 1];
      JoinFirst(front);
      assert front[1..] == lines[1..][..|lines| - 2];
      assert JoinLines(lines[1..]) == JoinLines(front[1..]) + "\n" + last;
      assert (lines[0] + "\n" + JoinLines(front[1..])) + "\n" + last == lines[0] + "\n" + (JoinLines(front[1..]) + "\n" + last);
    } else {
      assert lines[1..] == [last] && lines[..1] == [lines[0]];
    }
  }

  /** The lines of an assembled frame, whichever line end it has. */
  function Ended(lines: seq<string>, eol: string): seq<string> {
    if |lines| <= 1 || eol == "\n" then lines else [lines[0] + "\r"] + Ended(lines[1..], eol)
  }

  lemma {:induction false} AssembledLines(lines: seq<string>, eol: string)
    requires IsLineEnd(eol) && lines != [] && forall i :: 0 <= i < |lines| ==> OneLine(lines[i])
    ensures Lines(Assembled(lines, eol)) == Ended(lines, eol)
  {
    if |lines| == 1 {
      LinesOf(lines[0], "");
    } else {
      var rest := Assembled(lines[1..], eol);
      AssembledLines(lines[1..], eol);
      if eol == "\n" {
        LinesOf(lines[0], rest);
        assert lines == [lines[0]] + lines[1..];
      } else {
        LinesOf(lines[0] + "\r", rest);
        assert lines[0] + eol + rest == lines[0] + "\r" + "\n" + rest;
      }
    }
  }

  lemma CarriageReturn(f: Fields, line: string)
    ensures AddLine(f, line + "\r") == AddLine(f, line)
  {
    assert (line + "\r")[..|line|] == line;
    assert TrimEnd(line + "\r") == TrimEnd(line);
  }

  lemma {:induction false} SameFields(a: seq<string>, b: seq<string>, more: seq<string>)
    requires FieldsOf(a) == FieldsOf(b)
    ensures FieldsOf(a + more) == FieldsOf(b + more)
  {
    if more == [] {
      assert a + more == a && b + more == b;
    } else {
      SameFields(a, b, more[..|more| - 1]);
      assert (a + more)[..|a + more| - 1] == a + more[..|more| - 1];
      assert (b + more)[..|b + more| - 1] == b + more[..|more| - 1];
    }
  }

  lemma OneReturn(before: seq<string>, line: string, more: seq<string>)
    ensures FieldsOf(before + [line + "\r"] + more) == FieldsOf(before + [line] + more)
  {
    CarriageReturn(FieldsOf(before), line);
    assert (before + [line + "\r"])[..|before|] == before && (before + [line])[..|before|] == before;
    SameFields(before + [line + "\r"], before + [line], more);
  }

  /** The reader treats both line ends alike. */
  lemma {:induction false} EndedFields(before: seq<string>, lines: seq<string>, eol: string)
    ensures FieldsOf(before + Ended(lines, eol)) == FieldsOf(before + lines)
    decreases |lines|
  {
    if |lines| > 1 && eol != "\n" {
      var first := lines[0] + "\r";
      EndedFields(before + [first], lines[1..], eol);
      EndedSplit(before, lines, eol);
      OneReturn(before, lines[0], lines[1..]);
    }
  }

  lemma EndedSplit(before: seq<string>, lines: seq<string>, eol: string)
    requires |lines| > 1 && eol != "\n"
    ensures before + Ended(lines, eol) == before + [lines[0] + "\r"] + Ended(lines[1..], eol)
    ensures before + [lines[0]] + lines[1..] == before + lines
  {
  }

  lemma OneDataLine(lines: seq<string>, name: string, data: seq<string>, more: string)
    requires FieldsOf(lines) == Fields(name, data) && Trimmed(more)
    ensures FieldsOf(lines + [DataLine(more)]) == Fields(name, data + [more])
  {
    WrittenData(more);
    assert (lines + [DataLine(more)])[..|lines|] == lines;
  }

  lemma MoreData(before: seq<string>, name: string, data: seq<string>)
    requires data != [] && Trimmed(data[|data| - 1])
    requires FieldsOf(before + DataLines(data[..|data| - 1])) == Fields(name, data[..|data| - 1])
    ensures FieldsOf(before + DataLines(data)) == Fields(name, data)
  {
    var front, last := data[..|data| - 1], data[|data| - 1];
    OneDataLine(before + DataLines(front), name, front, last);
    DataLinesAppend(before, data);
    assert data == front + [last];
  }

  lemma {:induction false} DataFields(before: seq<string>, name: string, data: seq<string>)
    requires FieldsOf(before) == Fields(name, []) && forall i :: 0 <= i < |data| ==> Trimmed(data[i])
    ensures FieldsOf(before + DataLines(data)) == Fields(name, data)
  {
    if data == [] {
      assert before + DataLines(data) == before;
    } else {
      DataFields(before, name, data[..|data| - 1]);
      MoreData(before, name, data);
    }
  }

  lemma DataLinesAppend(before: seq<string>, data: seq<string>)
    requires data != []
    ensures before + DataLines(data) == before + DataLines(data[..|data| - 1]) + [DataLine(data[|data| - 1])]
  {
  }

  lemma WireFields(w: Wire)
    requires Sendable(w)
    ensures FieldsOf(WireLines(w)) == Fields(EventOf(w).name, w.data)
  {
    var before := if w.name.Some? then ["event: " + w.name.value] else [];
    if w.name.Some? {
      WrittenName(w.name.value);
      assert before[..0] == [];
    }
    DataFields(before, EventOf(w).name, w.data);
  }

  lemma {:induction false} DataLinesShape(data: seq<string>)
    ensures |DataLines(data)| == |data|
    ensures forall i :: 0 <= i < |data| ==> DataLines(data)[i] == "data: " + data[i]
  {
    if data != [] {
      DataLinesShape(data[..|data| - 1]);
    }
  }

  lemma WireLinesShape(w: Wire)
    requires Sendable(w)
    ensures WireLines(w) != []
    ensures forall i :: 0 <= i < |WireLines(w)| ==> OneLine(WireLines(w)[i]) && WireLines(w)[i] != ""
  {
    DataLinesShape(w.data);
  }

  lemma WireDispatch(w: Wire, eol: string)
    requires Sendable(w) && IsLineEnd(eol)
    ensures Dispatch(Assembled(WireLines(w), eol)) == Some(EventOf(w))
  {
    var lines := WireLines(w);
    WireLinesShape(w);
    AssembledLines(lines, eol);
    EndedFields([], lines, eol);
    assert [] + Ended(lines, eol) == Ended(lines, eol) && [] + lines == lines;
    WireFields(w);
  }

  lemma Shifted(a: string, s: string, k: nat)
    requires k >= |a|
    ensures SeparatorAt(a + s, k) == SeparatorAt(s, k - |a|)
  {
    assert forall i: nat :: LineEnd(a + s, |a| + i) == LineEnd(s, i);
    var i := k - |a|;
    assert LineEnd(a + s, |a| + i) == LineEnd(s, i);
    assert LineEnd(a + s, |a| + (i + LineEnd(s, i))) == LineEnd(s, i + LineEnd(s, i));
  }

  /** No separator begins inside an assembled frame. */
  lemma {:induction false} NoSeparatorInside(lines: seq<string>, eol: string, rest: string, k: nat)
    requires IsLineEnd(eol) && forall i :: 0 <= i < |lines| ==> OneLine(lines[i]) && lines[i] != ""
    requires k < |Assembled(lines, eol)|
    ensures SeparatorAt(Assembled(lines, eol) + rest, k) == 0
  {
    var s := Assembled(lines, eol) + rest;
    if k < |lines[0]| {
      assert s[k] == lines[0][k];
    } else {
      var next := Assembled(lines[1..], eol);
      var head := lines[0] + eol;
      assert next != "" && next[0] == lines[1][0];
      assert s == head + (next + rest);
      if k >= |head| {
        NoSeparatorInside(lines[1..], eol, rest, k - |head|);
        Shifted(head, next + rest, k);
      } else {
        assert s[|head|] == next[0];
        assert s[k] == eol[k - |lines[0]|];
        assert k + 1 < |head| ==> s[k + 1] == eol[1];
      }
    }
  }

  lemma WireSeparator(w: Wire, eol: string, rest: string)
    requires Sendable(w) && IsLineEnd(eol)
    ensures var text := Assembled(WireLines(w), eol);
            var s := text + (eol + eol) + rest;
            && FindSeparator(s, 0) == Some(|text|) && s[..|text|] == text
            && SeparatorAt(s, |text|) > 0 && AfterSeparator(s, |text|) == rest
  {
    var text := Assembled(WireLines(w), eol);
    var s := text + (eol + eol) + rest;
    WireLinesShape(w);
    assert s == text + ((eol + eol) + rest);
    forall k: nat | k < |text|
      ensures SeparatorAt(s, k) == 0
    {
      NoSeparatorInside(WireLines(w), eol, (eol + eol) + rest, k);
    }
    Shifted(text, (eol + eol) + rest, |text|);
    assert SeparatorAt((eol + eol) + rest, 0) == 2 * |eol|;
  }

  predicate AreEvents(events: seq<Event>, wires: seq<Wire>) {
    |events| == |wires| && forall i :: 0 <= i < |wires| ==> events[i] == EventOf(wires[i])
  }

  lemma FirstDispatched(w: Wire, eol: string, rest: string)
    requires Sendable(w) && IsLineEnd(eol)
    ensures var s := Assembled(WireLines(w), eol) + (eol + eol) + rest;
            && Split(s).1 == Split(rest).1
            && DispatchAll(Split(s).0) == [EventOf(w)] + DispatchAll(Split(rest).0)
  {
    var text := Assembled(WireLines(w), eol);
    WireSeparator(w, eol, rest);
    SplitStep(text + (eol + eol) + rest, |text|);
    WireDispatch(w, eol);
    DispatchAppend([text], Split(rest).0);
    assert [text][..0] == [];
    assert DispatchAll([text]) == [EventOf(w)];
  }

  lemma {:induction false} WireDispatched(wires: seq<Wire>, eol: string)
    requires IsLineEnd(eol) && forall i :: 0 <= i < |wires| ==> Sendable(wires[i])
    ensures Split(WireAll(wires, eol)).1 == ""
    ensures AreEvents(DispatchAll(Split(WireAll(wires, eol)).0), wires)
  {
    if wires != [] {
      var rest := WireAll(wires[1..], eol);
      WireDispatched(wires[1..], eol);
      FirstDispatched(wires[0], eol, rest);
      MoreEvents(DispatchAll(Split(rest).0), wires);
    }
  }

  lemma MoreEvents(events: seq<Event>, wires: seq<Wire>)
    requires wires != [] && AreEvents(events, wires[1..])
    ensures AreEvents([EventOf(wires[0])] + events, wires)
  {
  }

  /** Whichever line end a server uses, with several data lines or without a name, the reader dispatches one event a
      frame, in order, with the given name or `message`, and with the given lines of data. */
  lemma ReadsOtherWriters(wires: seq<Wire>, eol: string, chunks: seq<string>)
    requires IsLineEnd(eol) && forall i :: 0 <= i < |wires| ==> Sendable(wires[i])
    requires Concat(chunks) == WireAll(wires, eol)
    ensures var events := DispatchAll(Frames(Concat(chunks)));
            && |events| == |wires|
            && forall i :: 0 <= i < |wires| ==>
                 && events[i].name == (if wires[i].name.Some? then wires[i].name.value else "message")
                 && Lines(events[i].data) == wires[i].data
  {
    WireDispatched(wires, eol);
    forall i | 0 <= i < |wires|
      ensures Lines(EventOf(wires[i]).data) == wires[i].data
    {
      JoinedLines(wires[i].data);
    }
  }

  /** What the backend writes, literally. */
  lemma WrittenText(event: Event)
    ensures WriteFrame(event) == "event: " + event.name + "\ndata: " + event.data + "\n\n"
  {
    assert NameLine(event.name) + "\n" + DataLine(event.data) + "\n\n"
           == "event: " + event.name + "\ndata: " + event.data + "\n\n";
  }
}
