/** What the reader makes of the lines of an event (frontend/src/App.tsx), field by field, and of the line ends. */
module SseFields {
  import opened Wrappers
  import opened Text
  import opened Sse

  // ---------------------------------------------------------------- fields

  /** The value that a line gives to the field `name`: the text after its colon, without one leading space; a line that
      is the name alone gives the empty text. */
  function ValueOf(line: string, name: string): Option<string> {
    if line == name then Some("")
    else if HasPrefix(line, name + ": ") then Some(line[|name| + 2..])
    else if HasPrefix(line, name + ":") then Some(line[|name| + 1..])
    else None
  }

  function ValuesOf(lines: seq<string>, name: string): seq<string> {
    if lines == [] then []
    else
      var n := |lines| - 1;
      ValuesOf(lines[..n], name) + match ValueOf(lines[n], name) case None => [] case Some(value) => [value]
  }

  function LastOf(values: seq<string>): Option<string> {
    if values == [] then None else Some(values[|values| - 1])
  }

  /** The field of a line, for a name that is not empty and has no colon. */
  lemma FieldIsValue(line: string, name: string)
    requires name != "" && ':' !in name
    ensures (line == "" || HasPrefix(line, ":")) ==> ValueOf(line, name) == None
    ensures line != "" && !HasPrefix(line, ":") ==>
      ValueOf(line, name) == if FieldOf(line).0 == name then Some(FieldOf(line).1) else None
  {
    assert ":"[0] == ':' && name[0] in name;
    if ':' in line {
      var (field, raw) := Cut(line, ':').value;
      assert line == field + [':'] + raw;
      if HasPrefix(line, name + ":") {
        var rest := line[|name| + 1..];
        assert line == name + [':'] + rest;
        FirstSeparator(name, rest, field, raw, ':');
      }
      if field == name {
        assert line[..|name| + 1] == name + ":";
        assert HasPrefix(raw, " ") <==> HasPrefix(line, name + ": ");
      }
    }
    PrefixHasColon(line, name);
  }

  lemma PrefixHasColon(line: string, name: string)
    ensures HasPrefix(line, name + ":") ==> ':' in line
  {
    if HasPrefix(line, name + ":") { assert line[|name|] == ':'; }
  }

  lemma NamesAreFields()
    ensures ':' !in "id" && ':' !in "event" && ':' !in "data" && "id" != "event" && "id" != "data" && "event" != "data"
  {
    assert |"id"| == 2 && |"event"| == 5 && |"data"| == 4;
  }

  lemma {:induction false} LinesAreFields(lines: seq<string>)
    ensures AddLines(lines)
         == Partial(LastOf(ValuesOf(lines, "id")), LastOf(ValuesOf(lines, "event")), ValuesOf(lines, "data"))
  {
    if lines != [] {
      var n := |lines| - 1;
      LinesAreFields(lines[..n]);
      hide ValueOf, FieldOf;
      NamesAreFields();
      FieldIsValue(lines[n], "id");
      FieldIsValue(lines[n], "event");
      FieldIsValue(lines[n], "data");
    }
  }

  /** An event has the last `id` and the last `event` of its lines, and all their `data` in order; without `data` there
      is none. Comments and other fields do not count. */
  lemma EventOfFields(lines: seq<string>)
    requires lines != [] && forall line :: line in lines ==> OneLine(line)
    ensures ParseEvent(Join(lines, '\n'))
         == if ValuesOf(lines, "data") == [] then None
            else Some(Event(LastOf(ValuesOf(lines, "id")), LastOf(ValuesOf(lines, "event")),
                            Join(ValuesOf(lines, "data"), '\n')))
  {
    JoinedHasNoReturn(lines);
    NormalizeLines(Join(lines, '\n'));
    SplitJoin(lines, '\n');
    LinesAreFields(lines);
    hide AddLines, ValuesOf, Join, Split, Normalize;
  }

  lemma JoinedHasNoReturn(lines: seq<string>)
    requires lines != [] && forall line :: line in lines ==> OneLine(line)
    ensures '\r' !in Join(lines, '\n')
  {
    JoinedChars(lines, '\n');
  }

  // ---------------------------------------------------------------- line ends

  /** A line break of any kind becomes one line feed. */
  lemma {:induction false} LineEnds(line: string, ending: string, rest: string)
    requires OneLine(line) && ending in ["\n", "\r\n", "\r"]
    requires ending == "\r" ==> !HasPrefix(rest, "\n")
    ensures Normalize(line + ending + rest) == line + "\n" + Normalize(rest)
  {
    var s := line + ending + rest;
    if line == "" {
      assert s == ending + rest && "" + "\n" + Normalize(rest) == "\n" + Normalize(rest);
      assert ending[0] == s[0] && s[1..] == ending[1..] + rest;
      if ending == "\r\n" {
        assert s[1] == '\n' && s[2..] == rest;
      } else {
        assert s[1..] == rest;
        assert |s| > 1 ==> s[1] == rest[0];
      }
    } else {
      assert line[0] in line && s[0] == line[0] && s[1..] == line[1..] + ending + rest;
      LineEnds(line[1..], ending, rest);
      assert line + "\n" + Normalize(rest) == [line[0]] + (line[1..] + "\n" + Normalize(rest));
    }
  }

  // ---------------------------------------------------------------- the last event id

  predicate AllSpace(s: string) {
    forall c :: c in s ==> Space(c)
  }

  lemma {:induction false} TrimmedBlank(s: string)
    requires AllSpace(s)
    ensures Trim(s) == ""
    decreases |s|
  {
    if s != "" {
      assert s[0] in s;
      TrimmedBlank(s[1..]);
    }
  }

  lemma {:induction false} TrimmedText(a: string, text: string, b: string)
    requires AllSpace(a) && AllSpace(b) && text != "" && !Space(text[0]) && !Space(text[|text| - 1])
    ensures Trim(a + text + b) == text
    decreases |a| + |b|
  {
    var s := a + text + b;
    if a != "" {
      assert a[0] in a && s[0] == a[0] && s[1..] == a[1..] + text + b;
      TrimmedText(a[1..], text, b);
    } else if b != "" {
      assert a + text + b == text + b;
      assert b[|b| - 1] in b && s[|s| - 1] == b[|b| - 1] && s[..|s| - 1] == a + text + b[..|b| - 1];
      TrimmedText(a, text, b[..|b| - 1]);
    } else {
      assert s == text;
    }
  }

  /** The header counts, unless it is blank; then the query does; and if both are, the stream starts at 0. A number may
      have spaces around it, and fails from 2^64 on. */
  lemma LastEventID(a: string, n: nat, b: string, other: string)
    requires AllSpace(a) && AllSpace(b)
    ensures var id := if n < 0x1_0000_0000_0000_0000 then Some(n) else None;
      ParseLastEventID(a + Decimal(n) + b, other) == id
      && ParseLastEventID(a, a + Decimal(n) + b) == id && ParseLastEventID(a, b) == Some(0)
  {
    ParseOfDecimal(n);
    var text := Decimal(n);
    DecimalIsTrimmed(n);
    hide Decimal, ParseDecimal, Space;
    TrimmedText(a, text, b);
    TrimmedBlank(a);
    TrimmedBlank(b);
  }

  lemma DecimalIsTrimmed(n: nat)
    ensures var text := Decimal(n); text != "" && !Space(text[0]) && !Space(text[|text| - 1])
  {
    var text := Decimal(n);
    ParseOfDecimal(n);
    assert IsDigit(text[0]) && IsDigit(text[|text| - 1]);
  }

  // ---------------------------------------------------------------- what is written

  /** The text of a frame, as it goes over the wire. */
  lemma FrameText(id: nat, kind: string, data: string)
    ensures Write(Frame(id, kind, data)) == "id: " + Decimal(id) + "\nevent: " + kind + "\ndata: " + data + "\n\n"
    ensures Write(ErrorFrame(data)) == "event: error\ndata: " + data + "\n\n"
  {
    var a, b, c := "id: " + Decimal(id), "event: " + kind, "data: " + data;
    hide Decimal;
    JoinTwo(b, c);
    JoinThree(a, b, c);
    JoinTwo("event: error", c);
    assert Lines(Frame(id, kind, data)) == [a, b, c] && Lines(ErrorFrame(data)) == ["event: error", c];
    hide Join, Lines;
  }
}
