/** The event stream between the live API (internal/liveapi/server.go) and the user interface (frontend/src/App.tsx):
    sections 9.2.5 and 9.2.6 of the HTML Living Standard, written by one program and read by another. */
module Sse {
  import opened Wrappers
  import opened Text

  // ---------------------------------------------------------------- the writer

  /** A frame of `writeEventStream`: an event with its JSON payload, or a payload that could not be encoded. */
  datatype Frame = Frame(id: nat, kind: string, data: string) | ErrorFrame(data: string)

  /** Neither JSON nor a quoted string contains a line break. */
  predicate OneLine(s: string) { '\n' !in s && '\r' !in s }

  predicate ValidFrame(f: Frame) {
    OneLine(f.data) && (f.Frame? ==> OneLine(f.kind))
  }

  /** The lines of a frame before its data. */
  function Head(f: Frame): seq<string> {
    if f.Frame? then ["id: " + Decimal(f.id), "event: " + f.kind] else ["event: error"]
  }

  function Lines(f: Frame): seq<string> {
    Head(f) + ["data: " + f.data]
  }

  function Body(f: Frame): string { Join(Lines(f), '\n') }

  function Write(f: Frame): string { Body(f) + "\n\n" }

  function WriteAll(frames: seq<Frame>): string {
    if frames == [] then "" else Write(frames[0]) + WriteAll(frames[1..])
  }

  // ---------------------------------------------------------------- the reader

  datatype Event = Event(id: Option<string>, event: Option<string>, data: string)

  /** `parseSseEvent` while it walks the lines. */
  datatype Partial = Partial(id: Option<string>, event: Option<string>, dataLines: seq<string>)

  function FieldOf(line: string): (string, string) {
    match Cut(line, ':')
    case None => (line, "")
    case Some((field, raw)) => (field, if HasPrefix(raw, " ") then raw[1..] else raw)
  }

  function AddLine(p: Partial, line: string): Partial {
    if line == "" || HasPrefix(line, ":") then p
    else
      var (field, value) := FieldOf(line);
      if field == "id" then p.(id := Some(value))
      else if field == "event" then p.(event := Some(value))
      else if field == "data" then p.(dataLines := p.dataLines + [value])
      else p
  }

  function AddLines(lines: seq<string>): Partial {
    if lines == [] then Partial(None, None, []) else AddLine(AddLines(lines[..|lines| - 1]), lines[|lines| - 1])
  }

  function ParseEvent(chunk: string): Option<Event> {
    var p := AddLines(Split(Normalize(chunk), '\n'));
    if p.dataLines == [] then None else Some(Event(p.id, p.event, Join(p.dataLines, '\n')))
  }

  /** `normalizeSseChunk`. */
  function Normalize(s: string): string {
    if s == "" then ""
    else if s[0] != '\r' then [s[0]] + Normalize(s[1..])
    else if |s| > 1 && s[1] == '\n' then "\n" + Normalize(s[2..])
    else "\n" + Normalize(s[1..])
  }

  /** The index of the first blank line. */
  function Boundary(s: string): (r: Option<nat>)
    ensures r.Some? ==> r.value + 2 <= |s| && s[r.value] == '\n' == s[r.value + 1]
  {
    if |s| < 2 then None
    else if s[0] == '\n' && s[1] == '\n' then Some(0)
    else match Boundary(s[1..])
      case None => None
      case Some(i) => Some(i + 1)
  }

  function Emit(chunk: string): seq<Event> {
    match ParseEvent(chunk) case None => [] case Some(e) => [e]
  }

  /** The events up to the last blank line, and the text after it. */
  function Drain(buffer: string): (seq<Event>, string)
    decreases |buffer|
  {
    match Boundary(buffer)
    case None => ([], buffer)
    case Some(i) =>
      var (events, rest) := Drain(buffer[i + 2..]);
      (Emit(buffer[..i]) + events, rest)
  }

  function AllOf(chunks: seq<string>): string {
    if chunks == [] then "" else AllOf(chunks[..|chunks| - 1]) + chunks[|chunks| - 1]
  }

  /** The white space that both JavaScript's `trim` and Go's `TrimSpace` remove. */
  predicate CommonSpace(c: char) {
    '\t' <= c <= '\r' || c in {' ', '\U{00A0}', '\U{1680}', '\U{2028}', '\U{2029}', '\U{202F}', '\U{205F}', '\U{3000}'}
    || '\U{2000}' <= c <= '\U{200A}'
  }

  /** Whether `trim` leaves nothing. */
  predicate Blank(s: string) {
    forall c :: c in s ==> CommonSpace(c) || c == '\U{FEFF}'
  }

  /** What a reader of the whole text delivers. */
  function Delivered(text: string): seq<Event> {
    var (events, rest) := Drain(text);
    events + if Blank(rest) then [] else Emit(rest)
  }

  // ---------------------------------------------------------------- chunks do not matter

  lemma {:induction false} BoundaryAppend(s: string, t: string)
    requires Boundary(s).Some?
    ensures Boundary(s + t) == Boundary(s)
  {
    if !(s[0] == '\n' && s[1] == '\n') {
      assert (s + t)[1..] == s[1..] + t;
      BoundaryAppend(s[1..], t);
    }
  }

  lemma DrainStep(s: string, i: nat)
    requires Boundary(s) == Some(i)
    ensures Drain(s) == (Emit(s[..i]) + Drain(s[i + 2..]).0, Drain(s[i + 2..]).1)
  {
    hide Emit;
  }

  lemma DrainNone(s: string)
    requires Boundary(s).None?
    ensures Drain(s) == ([], s)
  {
  }

  /** Draining what is left together with more text is draining all of it. */
  lemma {:induction false} DrainAppend(s: string, t: string)
    ensures Drain(s + t) == (Drain(s).0 + Drain(Drain(s).1 + t).0, Drain(Drain(s).1 + t).1)
    decreases |s|
  {
    hide Drain, Emit, Boundary;
    if Boundary(s).None? {
      DrainNone(s);
      assert [] + Drain(s + t).0 == Drain(s + t).0;
    } else {
      var i := Boundary(s).value;
      var rest := s[i + 2..];
      BoundaryAppend(s, t);
      DrainStep(s, i);
      DrainStep(s + t, i);
      assert (s + t)[i + 2..] == rest + t && (s + t)[..i] == s[..i];
      DrainAppend(rest, t);
      var more := Drain(Drain(rest).1 + t).0;
      assert Emit(s[..i]) + (Drain(rest).0 + more) == Emit(s[..i]) + Drain(rest).0 + more;
    }
  }

  lemma {:induction false} NormalizeLines(s: string)
    requires '\r' !in s
    ensures Normalize(s) == s
  {
    if s != "" {
      NormalizeLines(s[1..]);
    }
  }

  /** Normalising chunk by chunk is normalising the text, except where a chunk ends between the two characters of a
      CRLF. */
  lemma {:induction false} NormalizeChunks(s: string, t: string)
    ensures Normalize(s + t) == Normalize(s) + Normalize(t) <==>
      !(s != "" && s[|s| - 1] == '\r' && t != "" && t[0] == '\n')
  {
    if s == "" {
      assert s + t == t;
    } else if |s| > 1 && s[0] == '\r' && s[1] == '\n' {
      assert (s + t)[2..] == s[2..] + t;
      NormalizeChunks(s[2..], t);
      assert "\n" + Normalize(s[2..]) + Normalize(t) == "\n" + (Normalize(s[2..]) + Normalize(t));
      SameTail("\n", Normalize(s[2..] + t), Normalize(s[2..]) + Normalize(t));
    } else if |s| == 1 && s[0] == '\r' {
      assert s == "\r";
      NormalizeAfterReturn(t);
    } else {
      var head := if s[0] == '\r' then "\n" else [s[0]];
      assert (s + t)[1..] == s[1..] + t;
      NormalizeChunks(s[1..], t);
      assert head + Normalize(s[1..]) + Normalize(t) == head + (Normalize(s[1..]) + Normalize(t));
      SameTail(head, Normalize(s[1..] + t), Normalize(s[1..]) + Normalize(t));
    }
  }

  lemma NormalizeAfterReturn(t: string)
    ensures Normalize("\r" + t) == Normalize("\r") + Normalize(t) <==> !(t != "" && t[0] == '\n')
  {
    assert ("\r" + t)[1..] == t && "\r"[1..] == "";
    assert Normalize("\r") == "\n" + Normalize("") == "\n";
    if t != "" && t[0] == '\n' {
      assert ("\r" + t)[2..] == t[1..];
      assert Normalize(t) == ['\n'] + Normalize(t[1..]);
      assert |Normalize("\r" + t)| == 1 + |Normalize(t[1..])|;
    }
  }

  lemma SameTail(head: string, a: string, b: string)
    ensures head + a == head + b <==> a == b
  {
    assert (head + a)[|head|..] == a && (head + b)[|head|..] == b;
  }

  // ---------------------------------------------------------------- the methods

  method ParseSseEvent(chunk: string) returns (event: Option<Event>)
    ensures event == ParseEvent(chunk)
  {
    hide AddLine, Split, Normalize;
    var p := Partial(None, None, []);
    var lines := Split(Normalize(chunk), '\n');
    for i := 0 to |lines|
      invariant p == AddLines(lines[..i])
    {
      assert lines[..i + 1][..i] == lines[..i];
      p := AddLine(p, lines[i]);
    }
    assert lines[..|lines|] == lines;
    return if p.dataLines == [] then None else Some(Event(p.id, p.event, Join(p.dataLines, '\n')));
  }

  /** The inner loop of `readSseStream`. */
  method DrainBuffer(text: string) returns (events: seq<Event>, buffer: string)
    ensures (events, buffer) == Drain(text)
  {
    hide ParseEvent, Drain, Boundary;
    events, buffer := [], text;
    assert events + Drain(text).0 == Drain(text).0;
    var boundary := Boundary(buffer);
    while boundary.Some?
      invariant boundary == Boundary(buffer)
      invariant Drain(text) == (events + Drain(buffer).0, Drain(buffer).1)
      decreases |buffer|
    {
      var i := boundary.value;
      var chunk, rest := buffer[..i], buffer[i + 2..];
      DrainStep(buffer, i);
      assert events + (Emit(chunk) + Drain(rest).0) == events + Emit(chunk) + Drain(rest).0;
      var event := ParseSseEvent(chunk);
      events := events + if event.Some? then [event.value] else [];
      buffer := rest;
      boundary := Boundary(buffer);
    }
    DrainNone(buffer);
    assert events + [] == events;
  }

  /** The text that the reader sees: the chunks, normalised one by one. */
  function AllNormalized(chunks: seq<string>): string {
    if chunks == [] then "" else AllNormalized(chunks[..|chunks| - 1]) + Normalize(chunks[|chunks| - 1])
  }

  /** Without carriage returns that is the text that was sent. */
  lemma {:induction false} NormalizedIsAll(chunks: seq<string>)
    requires '\r' !in AllOf(chunks)
    ensures AllNormalized(chunks) == AllOf(chunks)
  {
    if chunks != [] {
      NormalizedIsAll(chunks[..|chunks| - 1]);
      NormalizeLines(chunks[|chunks| - 1]);
    }
  }

  /** `readSseStream`, for a stream that is not aborted: whatever the chunks, it delivers the events of the whole
      text. */
  method ReadSseStream(chunks: seq<string>) returns (events: seq<Event>)
    ensures events == Delivered(AllNormalized(chunks))
  {
    hide Drain, Normalize, ParseEvent, Boundary;
    events := [];
    var buffer := "";
    DrainEmpty();
    assert AllNormalized(chunks[..0]) == "";
    for i := 0 to |chunks|
      invariant (events, buffer) == Drain(AllNormalized(chunks[..i]))
    {
      assert chunks[..i + 1][..i] == chunks[..i];
      DrainAppend(AllNormalized(chunks[..i]), Normalize(chunks[i]));
      var more, rest := DrainBuffer(buffer + Normalize(chunks[i]));
      events := events + more;
      buffer := rest;
    }
    assert chunks[..|chunks|] == chunks;
    if !Blank(buffer) {
      var event := ParseSseEvent(buffer);
      events := events + if event.Some? then [event.value] else [];
    }
  }

  lemma DrainEmpty()
    ensures Drain("") == ([], "")
  {
  }

  // ---------------------------------------------------------------- the round trip

  /** What a frame is read as. */
  function Read(f: Frame): Event {
    match f
    case Frame(id, kind, data) => Event(Some(Decimal(id)), Some(kind), data)
    case ErrorFrame(data) => Event(None, Some("error"), data)
  }

  function ReadAll(frames: seq<Frame>): seq<Event> {
    if frames == [] then [] else [Read(frames[0])] + ReadAll(frames[1..])
  }

  lemma FieldLine(field: string, value: string)
    requires field != "" && ':' !in field
    ensures FieldOf(field + ": " + value) == (field, value)
    ensures field + ": " + value != "" && !HasPrefix(field + ": " + value, ":")
  {
    var line := field + ": " + value;
    assert line == field + [':'] + (" " + value);
    CutField(field, " " + value, ':');
    assert (" " + value)[1..] == value;
    assert line[0] == field[0] && field[0] in field;
  }

  lemma FrameLines(f: Frame)
    requires ValidFrame(f)
    ensures forall l :: l in Lines(f) ==> l != "" && OneLine(l)
  {
    if f.Frame? {
      assert forall c :: c in Decimal(f.id) ==> IsDigit(c);
    }
  }

  lemma FrameParses(f: Frame)
    requires ValidFrame(f)
    ensures '\r' !in Body(f) && ParseEvent(Body(f)) == Some(Read(f))
  {
    FrameLines(f);
    JoinedChars(Lines(f), '\n');
    NormalizeLines(Body(f));
    SplitJoin(Lines(f), '\n');
    LinesParse(f);
    hide AddLine, AddLines, Lines, Split, Normalize;
    assert Join([f.data], '\n') == f.data;
  }

  lemma HeadParses(f: Frame)
    ensures AddLines(Head(f)) == Partial(Read(f).id, Read(f).event, [])
  {
    hide FieldOf, Decimal;
    FieldNames();
    assert AddLines([]) == Partial(None, None, []);
    if f.Frame? {
      var id, kind := "id" + ": " + Decimal(f.id), "event" + ": " + f.kind;
      FieldLine("id", Decimal(f.id));
      FieldLine("event", f.kind);
      assert Head(f) == [id, kind];
      assert [id, kind][..1] == [id] && [id][..0] == [];
      assert AddLines([id]) == Partial(Some(Decimal(f.id)), None, []);
    } else {
      var kind := "event" + ": " + "error";
      FieldLine("event", "error");
      assert Head(f) == [kind];
      assert [kind][..0] == [];
    }
  }

  lemma LinesParse(f: Frame)
    ensures AddLines(Lines(f)) == Partial(Read(f).id, Read(f).event, [f.data])
  {
    hide FieldOf, Decimal, Head, Read;
    FieldNames();
    HeadParses(f);
    FieldLine("data", f.data);
    assert Lines(f)[..|Lines(f)| - 1] == Head(f);
    assert "data" + ": " + f.data == "data: " + f.data;
  }

  lemma FieldNames()
    ensures "id" + ": " == "id: " && "event" + ": " == "event: " && "data" + ": " == "data: "
    ensures "event: " + "error" == "event: error"
    ensures "data" != "id" && "data" != "event" && "event" != "id"
  {
    assert "data"[0] == 'd' && "id"[0] == 'i' && "event"[0] == 'e';
  }

  /** Non-empty lines joined by single line breaks have no blank line. */
  lemma {:induction false} FirstBlank(lines: seq<string>, rest: string)
    requires lines != [] && forall l :: l in lines ==> l != "" && '\n' !in l
    ensures Boundary(Join(lines, '\n') + "\n\n" + rest) == Some(|Join(lines, '\n')|)
  {
    var tail := (if |lines| == 1 then "" else Join(lines[1..], '\n'));
    assert lines[0] in lines;
    if |lines| == 1 {
      LineThenBreak(lines[0], "\n" + rest);
      assert Join(lines, '\n') + "\n\n" + rest == lines[0] + "\n" + ("\n" + rest);
      assert ("\n" + ("\n" + rest))[0] == '\n';
    } else {
      assert lines[0] in lines && forall l :: l in lines[1..] ==> l in lines;
      FirstBlank(lines[1..], rest);
      var after := tail + "\n\n" + rest;
      assert Join(lines, '\n') + "\n\n" + rest == lines[0] + "\n" + after;
      JoinStarts(lines[1..]);
      LineThenBreak(lines[0], after);
    }
  }

  lemma JoinStarts(lines: seq<string>)
    requires lines != [] && forall l :: l in lines ==> l != "" && '\n' !in l
    ensures Join(lines, '\n') != "" && Join(lines, '\n')[0] != '\n'
  {
    assert lines[0] in lines && lines[0][0] in lines[0];
  }

  /** The first blank line of a text that starts with the line `line`. */
  lemma {:induction false} LineThenBreak(line: string, after: string)
    requires line != "" && '\n' !in line && after != ""
    ensures Boundary(line + "\n" + after) ==
      if after[0] == '\n' then Some(|line|)
      else match Boundary(after) case None => None case Some(i) => Some(|line| + 1 + i)
  {
    var s := line + "\n" + after;
    assert s[0] == line[0] && line[0] in line;
    if |line| == 1 {
      assert s[1..] == "\n" + after;
      assert ("\n" + after)[1..] == after;
    } else {
      assert s[1..] == line[1..] + "\n" + after;
      assert '\n' !in line[1..];
      LineThenBreak(line[1..], after);
    }
  }

  /** Writer and reader undo each other: the reader delivers every frame once, in order, with its id, event and data. */
  lemma {:induction false} FramesRoundTrip(frames: seq<Frame>)
    requires forall f :: f in frames ==> ValidFrame(f)
    ensures Drain(WriteAll(frames)) == (ReadAll(frames), "")
    ensures Delivered(WriteAll(frames)) == ReadAll(frames)
  {
    if frames == [] {
      DrainEmpty();
    } else {
      var f, rest := frames[0], WriteAll(frames[1..]);
      FramesRoundTrip(frames[1..]);
      FrameLines(f);
      FirstBlank(Lines(f), rest);
      FrameParses(f);
      var text := WriteAll(frames);
      assert text == Body(f) + "\n\n" + rest;
      assert text[..|Body(f)|] == Body(f) && text[|Body(f)| + 2..] == rest;
      hide Boundary, ParseEvent, Body;
    }
    assert ReadAll(frames) + [] == ReadAll(frames);
  }

  lemma {:induction false} WrittenChars(frames: seq<Frame>)
    requires forall f :: f in frames ==> ValidFrame(f)
    ensures '\r' !in WriteAll(frames)
  {
    if frames != [] {
      WrittenChars(frames[1..]);
      FrameParses(frames[0]);
    }
  }

  /** The same, for any chunks of the written text. */
  lemma AnyChunksRoundTrip(frames: seq<Frame>, chunks: seq<string>)
    requires (forall f :: f in frames ==> ValidFrame(f)) && AllOf(chunks) == WriteAll(frames)
    ensures Delivered(AllNormalized(chunks)) == ReadAll(frames)
  {
    WrittenChars(frames);
    NormalizedIsAll(chunks);
    FramesRoundTrip(frames);
  }

  // ---------------------------------------------------------------- resuming

  predicate Space(c: char) { CommonSpace(c) || c == '\U{0085}' }

  /** `strings.TrimSpace`. */
  function Trim(s: string): string {
    if s != "" && Space(s[0]) then Trim(s[1..])
    else if s != "" && Space(s[|s| - 1]) then Trim(s[..|s| - 1])
    else s
  }

  const UINT64_LIMIT := 0x1_0000_0000_0000_0000

  /** `parseLastEventID`; `None` stands for an error. */
  function ParseLastEventID(header: string, query: string): Option<nat> {
    var value := if Trim(header) != "" then Trim(header) else Trim(query);
    if value == "" then Some(0)
    else match ParseDecimal(value)
      case None => None
      case Some(n) => if n < UINT64_LIMIT then Some(n) else None
  }

  /** The id that a reader saw last, sent back as `Last-Event-ID`, is the sequence number of that event. */
  lemma IdRoundTrip(f: Frame, query: string)
    requires f.Frame?
    ensures ParseLastEventID(Read(f).id.value, query) == if f.id < UINT64_LIMIT then Some(f.id) else None
  {
    ParseOfDecimal(f.id);
    var text := Decimal(f.id);
    hide Decimal, ParseDecimal;
    assert IsDigit(text[0]) && IsDigit(text[|text| - 1]);
    assert Trim(text) == text;
  }

  // ---------------------------------------------------------------- streams that break off

  /** The number of frames wholly inside the first `k` characters of a written text. */
  function Whole(frames: seq<Frame>, k: nat): nat {
    if frames == [] || k < |Write(frames[0])| then 0 else 1 + Whole(frames[1..], k - |Write(frames[0])|)
  }

  /** The number of characters after them. */
  function Rest(frames: seq<Frame>, k: nat): nat {
    if frames == [] || k < |Write(frames[0])| then k else Rest(frames[1..], k - |Write(frames[0])|)
  }

  /** Where the data line of a frame starts. */
  function DataStart(f: Frame): nat { |Join(Head(f), '\n')| + 1 }

  /** The frame as it looks when only `x` characters from the start of its data line arrive. */
  function CutData(f: Frame, x: nat): Frame {
    f.(data := if x <= 6 then "" else if x - 6 <= |f.data| then f.data[..x - 6] else f.data)
  }

  /** What is delivered for the frame in which a stream breaks off: nothing, unless the field name of its data line is
      there. */
  function Extra(f: Frame, rest: nat): seq<Event> {
    if rest < DataStart(f) + |"data"| then [] else [Read(CutData(f, rest - DataStart(f)))]
  }

  /** The field of a line that breaks off. */
  lemma PartField(field: string, value: string, x: nat)
    requires field != "" && ':' !in field && x <= |field + ": " + value|
    ensures var part := (field + ": " + value)[..x];
      !HasPrefix(part, ":")
      && FieldOf(part) == if x <= |field| then (part, "")
         else (field, if x <= |field| + 2 then "" else value[..x - |field| - 2])
  {
    var line := field + ": " + value;
    var part := line[..x];
    assert part != "" ==> part[0] == field[0] && field[0] in field;
    if x <= |field| {
      assert part == field[..x];
    } else {
      var raw := (" " + value)[..x - |field| - 1];
      assert part == field + [':'] + raw;
      CutField(field, raw, ':');
      if x >= |field| + 2 {
        assert raw == " " + value[..x - |field| - 2];
        assert raw[1..] == value[..x - |field| - 2];
      }
    }
  }

  lemma DataPart(p: Partial, data: string, x: nat)
    requires x <= |"data: " + data|
    ensures AddLine(p, ("data: " + data)[..x])
         == if x < |"data"| then p else p.(dataLines := p.dataLines + [if x <= 6 then "" else data[..x - 6]])
  {
    FieldNames();
    assert "data" + ": " + data == "data: " + data;
    PartField("data", data, x);
    var part := ("data: " + data)[..x];
    assert x > 0 ==> part[0] == 'd';
    hide FieldOf;
    assert "id"[0] == 'i' && "event"[0] == 'e';
  }

  lemma HeadPart(p: Partial, field: string, value: string, x: nat)
    requires field in {"id", "event"} && x <= |field + ": " + value|
    ensures AddLine(p, (field + ": " + value)[..x]).dataLines == p.dataLines
  {
    PartField(field, value, x);
    var part := (field + ": " + value)[..x];
    assert x > 0 ==> part[0] == field[0];
    hide FieldOf;
    assert "data"[0] == 'd' && "id"[0] == 'i' && "event"[0] == 'e';
  }

  lemma AddLast(lines: seq<string>, line: string)
    ensures AddLines(lines + [line]) == AddLine(AddLines(lines), line)
  {
    assert (lines + [line])[..|lines|] == lines;
  }

  lemma HeadText(f: Frame)
    requires ValidFrame(f)
    ensures Split(Join(Head(f), '\n'), '\n') == Head(f) && Body(f) == Join(Head(f), '\n') + "\n" + ("data: " + f.data)
  {
    FrameLines(f);
    assert forall l :: l in Head(f) ==> l in Lines(f);
    SplitJoin(Head(f), '\n');
    BodyParts(f);
    hide Body, Join, Split, Head, Lines;
  }

  lemma BodyParts(f: Frame)
    ensures Body(f) == Join(Head(f), '\n') + "\n" + ("data: " + f.data)
  {
    hide Decimal;
    var data := "data: " + f.data;
    if f.Frame? {
      JoinTwo(Head(f)[0], Head(f)[1]);
      JoinThree(Head(f)[0], Head(f)[1], data);
      assert Head(f) == [Head(f)[0], Head(f)[1]] && Lines(f) == [Head(f)[0], Head(f)[1], data];
    } else {
      JoinTwo(Head(f)[0], data);
      assert Head(f) == [Head(f)[0]] && Lines(f) == [Head(f)[0], data];
    }
  }

  lemma JoinTwo(a: string, b: string)
    ensures Join([a, b], '\n') == a + "\n" + b
  {
    assert [a, b][1..] == [b];
  }

  lemma JoinThree(a: string, b: string, c: string)
    ensures Join([a, b, c], '\n') == a + "\n" + b + "\n" + c
  {
    assert [a, b, c][1..] == [b, c];
    JoinTwo(b, c);
  }

  /** A stream that breaks off before the data line: none of its lines is data. */
  lemma TornHead(f: Frame, r: nat)
    requires ValidFrame(f) && r < DataStart(f)
    ensures AddLines(Split(Join(Head(f), '\n')[..r], '\n')).dataLines == []
  {
    FieldNames();
    FrameLines(f);
    hide AddLine, AddLines, Split;
    if f.Frame? {
      var id, value := "id" + ": " + Decimal(f.id), Decimal(f.id);
      assert Head(f) == [id, "event" + ": " + f.kind];
      assert Head(f)[0] in Lines(f);
      hide Decimal;
      JoinTwo(id, "event" + ": " + f.kind);
      if r <= |id| {
        TornFirst("id", value, r);
        assert Join(Head(f), '\n')[..r] == id[..r];
      } else {
        TornSecond(id, value, f.kind, r - |id| - 1);
        assert Join(Head(f), '\n')[..r] == id + "\n" + ("event" + ": " + f.kind)[..r - |id| - 1];
      }
    } else {
      TornFirst("event", "error", r);
      assert Head(f) == ["event" + ": " + "error"];
    }
  }

  lemma TornSecond(id: string, value: string, kind: string, x: nat)
    requires id == "id" + ": " + value && '\n' !in id && '\n' !in kind && x <= |"event" + ": " + kind|
    ensures AddLines(Split(id + "\n" + ("event" + ": " + kind)[..x], '\n')).dataLines == []
  {
    hide AddLine, AddLines, Split;
    var part := ("event" + ": " + kind)[..x];
    TornFirst("id", value, |id|);
    assert id[..|id|] == id;
    SplitAppend(id, part, '\n');
    SplitPlain(id, '\n');
    assert forall c :: c in part ==> c in "event" + ": " + kind;
    SplitPlain(part, '\n');
    AddLast([id], part);
    HeadPart(AddLines([id]), "event", kind, x);
  }

  lemma TornFirst(field: string, value: string, x: nat)
    requires field in {"id", "event"} && x <= |field + ": " + value| && '\n' !in value
    ensures AddLines([(field + ": " + value)[..x]]).dataLines == []
    ensures Split((field + ": " + value)[..x], '\n') == [(field + ": " + value)[..x]]
  {
    HeadPart(Partial(None, None, []), field, value, x);
    AddLast([], (field + ": " + value)[..x]);
    assert [] + [(field + ": " + value)[..x]] == [(field + ": " + value)[..x]];
    assert '\n' !in field;
    assert forall c :: c in (field + ": " + value)[..x] ==> c in field + ": " + value;
    SplitPlain((field + ": " + value)[..x], '\n');
  }

  /** A stream that breaks off in the data line. */
  lemma TornData(head: seq<string>, text: string, data: string, x: nat)
    requires Split(text, '\n') == head && '\n' !in data && x <= |"data: " + data| && AddLines(head).dataLines == []
    ensures AddLines(Split(text + "\n" + ("data: " + data)[..x], '\n'))
         == AddLines(head).(dataLines := if x < |"data"| then [] else [if x <= 6 then "" else data[..x - 6]])
  {
    hide AddLine, AddLines, Split;
    var part := ("data: " + data)[..x];
    SplitAppend(text, part, '\n');
    assert forall c :: c in part ==> c in "data: " + data;
    SplitPlain(part, '\n');
    AddLast(head, part);
    DataPart(AddLines(head), data, x);
  }

  /** The line break after the data adds nothing. */
  lemma TornBreak(text: string)
    ensures AddLines(Split(text + "\n", '\n')) == AddLines(Split(text, '\n'))
  {
    SplitAppend(text, "", '\n');
    SplitPlain("", '\n');
    AddLast(Split(text, '\n'), "");
    assert text + ['\n'] + "" == text + "\n";
    hide Split, AddLines;
  }

  lemma WriteParts(f: Frame)
    requires ValidFrame(f)
    ensures Write(f) == Join(Head(f), '\n') + "\n" + ("data: " + f.data) + "\n\n"
    ensures |Write(f)| == DataStart(f) + 6 + |f.data| + 2
    ensures '\r' !in Write(f)
  {
    HeadText(f);
    FrameParses(f);
  }

  lemma TornBoundary(f: Frame, r: nat)
    requires ValidFrame(f) && r < |Write(f)|
    ensures Boundary(Write(f)[..r]).None?
  {
    FrameLines(f);
    FirstBlank(Lines(f), "");
    var text, part := Write(f), Write(f)[..r];
    assert Join(Lines(f), '\n') + "\n\n" + "" == text && part + text[r..] == text;
    hide Boundary, Body, Lines, Join;
    if Boundary(part).Some? {
      BoundaryAppend(part, text[r..]);
    }
  }

  /** What the reader makes of an unfinished frame. */
  lemma TornFrame(f: Frame, r: nat)
    requires ValidFrame(f) && r < |Write(f)|
    ensures Boundary(Write(f)[..r]).None? && (if Blank(Write(f)[..r]) then [] else Emit(Write(f)[..r])) == Extra(f, r)
  {
    hide Split, AddLines, Normalize, Head, Write, Boundary, Blank, Read, CutData, DataStart, Join;
    TornBoundary(f, r);
    WriteParts(f);
    var part := Write(f)[..r];
    assert forall c :: c in part ==> c in Write(f);
    NormalizeLines(part);
    if r < DataStart(f) {
      TornEarly(f, r);
    } else {
      TornLines(f, r);
      TornNotBlank(f, r);
      OneJoined(CutData(f, r - DataStart(f)).data);
      SameHead(f, r - DataStart(f));
    }
  }

  lemma OneJoined(line: string)
    ensures Join([line], '\n') == line
  {
  }

  lemma SameHead(f: Frame, x: nat)
    ensures Read(CutData(f, x)) == Event(Read(f).id, Read(f).event, CutData(f, x).data)
  {
  }

  lemma TornEarly(f: Frame, r: nat)
    requires ValidFrame(f) && r < DataStart(f) && r < |Write(f)|
    ensures AddLines(Split(Write(f)[..r], '\n')).dataLines == []
  {
    WriteParts(f);
    hide Split, AddLines, Write, Head, Join;
    assert Write(f)[..r] == Join(Head(f), '\n')[..r];
    TornHead(f, r);
  }

  lemma TornNotBlank(f: Frame, r: nat)
    requires ValidFrame(f) && DataStart(f) <= r < |Write(f)|
    ensures !Blank(Write(f)[..r])
  {
    WriteParts(f);
    hide Write, Head, Join, Blank;
    NotBlank(f, Write(f)[..r]);
  }

  lemma TornLines(f: Frame, r: nat)
    requires ValidFrame(f) && DataStart(f) <= r < |Write(f)|
    ensures AddLines(Split(Write(f)[..r], '\n'))
         == Partial(Read(f).id, Read(f).event,
                    if r < DataStart(f) + |"data"| then [] else [CutData(f, r - DataStart(f)).data])
  {
    hide AddLines, Split, Read, Head, Write, Body, Join;
    HeadText(f);
    HeadParses(f);
    WriteParts(f);
    var x, text, line := r - DataStart(f), Join(Head(f), '\n'), "data: " + f.data;
    if x <= |line| {
      PartOfParts(text, line, x, Write(f));
      TornData(Head(f), text, f.data, x);
    } else {
      assert line[..|line|] == line && f.data[..|f.data|] == f.data;
      assert Write(f)[..r] == text + "\n" + line + "\n";
      TornBreak(text + "\n" + line);
      TornData(Head(f), text, f.data, |line|);
    }
  }

  lemma PartOfParts(text: string, line: string, x: nat, all: string)
    requires x <= |line| && all == text + "\n" + line + "\n\n"
    ensures all[..|text| + 1 + x] == text + "\n" + line[..x]
  {
  }

  lemma NotBlank(f: Frame, part: string)
    requires Join(Head(f), '\n') + "\n" <= part
    ensures !Blank(part)
  {
    var head := Join(Head(f), '\n');
    assert Head(f)[0][0] in {'i', 'e'};
    assert head[0] == Head(f)[0][0];
    assert part[0] in part;
  }

  /** The first `k` characters of a written text are its whole frames and a part of the next one. */
  lemma {:induction false} PrefixSplits(frames: seq<Frame>, k: nat)
    requires k <= |WriteAll(frames)|
    ensures var n, r := Whole(frames, k), Rest(frames, k);
      n <= |frames| && (n == |frames| ==> r == 0) && (n < |frames| ==> r < |Write(frames[n])|)
      && WriteAll(frames)[..k] == WriteAll(frames[..n]) + if n < |frames| then Write(frames[n])[..r] else ""
  {
    if frames != [] {
      var first, text := Write(frames[0]), WriteAll(frames);
      hide Write;
      if k < |first| {
        assert text[..k] == first[..k] && frames[..0] == [];
      } else {
        var n, r := Whole(frames[1..], k - |first|), Rest(frames[1..], k - |first|);
        PrefixSplits(frames[1..], k - |first|);
        WholeOf(frames, k);
        OneFrameMore(frames, n);
        hide Whole, Rest, WriteAll;
        assert text == first + WriteAll(frames[1..]) by { WriteAllStep(frames); }
        assert text[..k] == first + WriteAll(frames[1..])[..k - |first|];
        if n < |frames[1..]| { assert frames[1..][n] == frames[n + 1]; }
      }
    }
  }

  lemma WriteAllStep(frames: seq<Frame>)
    requires frames != []
    ensures WriteAll(frames) == Write(frames[0]) + WriteAll(frames[1..])
  {
  }

  lemma OneFrameMore(frames: seq<Frame>, n: nat)
    requires n < |frames|
    ensures WriteAll(frames[..n + 1]) == Write(frames[0]) + WriteAll(frames[1..][..n])
  {
    assert frames[..n + 1][1..] == frames[1..][..n];
  }

  lemma WholeOf(frames: seq<Frame>, k: nat)
    requires frames != [] && k >= |Write(frames[0])|
    ensures Whole(frames, k) == 1 + Whole(frames[1..], k - |Write(frames[0])|)
    ensures Rest(frames, k) == Rest(frames[1..], k - |Write(frames[0])|)
  {
  }

  /** A written text that breaks off anywhere: the reader delivers the frames that are there as a whole, and one more
      event exactly if the unfinished frame has reached the field name of its data line. What is delivered is part of
      what was written iff that frame has not, or lacks no data. */
  lemma PrefixDelivers(frames: seq<Frame>, k: nat)
    requires (forall f :: f in frames ==> ValidFrame(f)) && k <= |WriteAll(frames)|
    ensures var n, r := Whole(frames, k), Rest(frames, k);
      var events := Delivered(WriteAll(frames)[..k]);
      n <= |frames| && events == ReadAll(frames[..n]) + (if n < |frames| then Extra(frames[n], r) else [])
      && (events == ReadAll(frames[..n]) <==> n == |frames| || r < DataStart(frames[n]) + |"data"|)
      && (events <= ReadAll(frames) <==>
            n == |frames| || r < DataStart(frames[n]) + |"data"|
              || CutData(frames[n], r - DataStart(frames[n])) == frames[n])
  {
    hide Drain, Boundary, Emit, Write, WriteAll, Whole, Rest, Read, CutData, DataStart;
    PrefixSplits(frames, k);
    var n, r := Whole(frames, k), Rest(frames, k);
    WholeThenTorn(frames, n, r);
    PartOfWritten(frames, n, r);
  }

  lemma WholeThenTorn(frames: seq<Frame>, n: nat, r: nat)
    requires (forall f :: f in frames ==> ValidFrame(f)) && n <= |frames| && (n < |frames| ==> r < |Write(frames[n])|)
    ensures Delivered(WriteAll(frames[..n]) + if n < |frames| then Write(frames[n])[..r] else "")
         == ReadAll(frames[..n]) + if n < |frames| then Extra(frames[n], r) else []
  {
    assert forall f :: f in frames[..n] ==> f in frames;
    FramesRoundTrip(frames[..n]);
    hide Drain, Boundary, Emit, Write, WriteAll, Extra, Blank, ReadAll;
    if n < |frames| {
      assert frames[n] in frames;
      var part := Write(frames[n])[..r];
      TornFrame(frames[n], r);
      DrainNone(part);
      DrainAppend(WriteAll(frames[..n]), part);
      assert "" + part == part && ReadAll(frames[..n]) + [] == ReadAll(frames[..n]);
    } else {
      assert WriteAll(frames[..n]) + "" == WriteAll(frames[..n]) && ReadAll(frames[..n]) + [] == ReadAll(frames[..n]);
    }
  }

  lemma PartOfWritten(frames: seq<Frame>, n: nat, r: nat)
    requires n <= |frames|
    ensures var events := ReadAll(frames[..n]) + (if n < |frames| then Extra(frames[n], r) else []);
      (events == ReadAll(frames[..n]) <==> n == |frames| || r < DataStart(frames[n]) + |"data"|)
      && (events <= ReadAll(frames) <==>
            n == |frames| || r < DataStart(frames[n]) + |"data"|
              || CutData(frames[n], r - DataStart(frames[n])) == frames[n])
  {
    ReadPrefix(frames, n);
    if n < |frames| && r >= DataStart(frames[n]) + |"data"| {
      OneMore(ReadAll(frames), n, Read(CutData(frames[n], r - DataStart(frames[n]))));
      SameRead(frames[n], r - DataStart(frames[n]));
    } else {
      NoMore(ReadAll(frames), n);
    }
    hide ReadAll, DataStart, CutData, Read;
  }

  lemma NoMore(all: seq<Event>, n: nat)
    requires n <= |all|
    ensures all[..n] + [] == all[..n] && all[..n] <= all
  {
  }

  lemma ReadPrefix(frames: seq<Frame>, n: nat)
    requires n <= |frames|
    ensures |ReadAll(frames)| == |frames| && ReadAll(frames[..n]) == ReadAll(frames)[..n]
    ensures n < |frames| ==> ReadAll(frames)[n] == Read(frames[n])
  {
    ReadAllAt(frames);
    ReadAllAt(frames[..n]);
  }

  lemma OneMore(all: seq<Event>, n: nat, e: Event)
    requires n < |all|
    ensures all[..n] + [e] != all[..n] && (all[..n] + [e] <= all <==> e == all[n])
  {
    assert |all[..n] + [e]| == n + 1;
    assert (all[..n] + [e])[n] == e;
    assert all[..n + 1] == all[..n] + [all[n]];
  }

  lemma SameRead(f: Frame, x: nat)
    ensures Read(CutData(f, x)) == Read(f) <==> CutData(f, x) == f
  {
  }

  lemma {:induction false} ReadAllAt(frames: seq<Frame>)
    ensures |ReadAll(frames)| == |frames| && forall i :: 0 <= i < |frames| ==> ReadAll(frames)[i] == Read(frames[i])
  {
    if frames != [] {
      ReadAllAt(frames[1..]);
    }
  }

  /** A stream that breaks off inside the data of a frame: the reader delivers the torn frame as an event of its own. */
  lemma TornFrameIsDelivered(frames: seq<Frame>, f: Frame, kept: nat)
    requires (forall g :: g in frames ==> ValidFrame(g)) && ValidFrame(f) && kept <= |f.data|
    ensures var k := |WriteAll(frames)| + DataStart(f) + |"data: "| + kept;
      k <= |WriteAll(frames + [f])|
      && Delivered(WriteAll(frames + [f])[..k]) == ReadAll(frames) + [Read(f.(data := f.data[..kept]))]
  {
    hide WriteAll, Delivered, Whole, Rest, Read, DataStart, Write, ReadAll;
    WriteParts(f);
    var k := |WriteAll(frames)| + DataStart(f) + |"data: "| + kept;
    LastFrame(frames, f, DataStart(f) + |"data: "| + kept);
    PrefixDelivers(frames + [f], k);
    assert (frames + [f])[..|frames|] == frames;
  }

  /** Where a text breaks off in its last frame. */
  lemma {:induction false} LastFrame(frames: seq<Frame>, f: Frame, r: nat)
    ensures WriteAll(frames + [f]) == WriteAll(frames) + Write(f)
    ensures r < |Write(f)| ==> Whole(frames + [f], |WriteAll(frames)| + r) == |frames|
    ensures r < |Write(f)| ==> Rest(frames + [f], |WriteAll(frames)| + r) == r
  {
    if frames == [] {
      assert (frames + [f])[1..] == [];
    } else {
      assert (frames + [f])[1..] == frames[1..] + [f];
      LastFrame(frames[1..], f, r);
    }
  }
}
