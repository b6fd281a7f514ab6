/** Reading one frame, and printing one event. */
module SseFrame {
  import opened Text
  import opened SseDecoder

  // `parseSSEFrame` and `claudeSSE`, both in internal/translate/claude_responses_stream.go.

  const EVENT_FIELD := "event:"
  const DATA_FIELD := "data:"

  /** What a frame says. `data` is None when there is no data line, and for `[DONE]`. */
  datatype Parsed = Parsed(event: string, data: Option<string>, done: bool) | Invalid

  /** `strings.ReplaceAll(s, "\r\n", "\n")`. */
  function Normalize(s: string): string {
    if |s| >= 2 && s[0] == '\r' && s[1] == '\n' then "\n" + Normalize(s[2..])
    else if s == "" then ""
    else [s[0]] + Normalize(s[1..])
  }

  /** `strings.Split(s, "\n")`. */
  function Lines(s: string): (lines: seq<string>)
    ensures lines != []
  {
    if s == "" then [""]
    else if s[0] == '\n' then [""] + Lines(s[1..])
    else [[s[0]] + Lines(s[1..])[0]] + Lines(s[1..])[1..]
  }

  /** `strings.Join(lines, "\n")`. */
  function JoinLines(lines: seq<string>): string {
    if lines == [] then "" else if |lines| == 1 then lines[0] else lines[0] + "\n" + JoinLines(lines[1..])
  }

  function FieldValue(line: string, field: string): string {
    Trim(TrimPrefix(line, field))
  }

  /** The value of the last event line, if there is one. */
  function EventIn(lines: seq<string>): string {
    if lines == [] then ""
    else if HasPrefix(lines[|lines| - 1], EVENT_FIELD) then FieldValue(lines[|lines| - 1], EVENT_FIELD)
    else EventIn(lines[..|lines| - 1])
  }

  /** The values of all data lines. */
  function DataIn(lines: seq<string>): seq<string> {
    if lines == [] then []
    else if HasPrefix(lines[0], DATA_FIELD) then [FieldValue(lines[0], DATA_FIELD)] + DataIn(lines[1..])
    else DataIn(lines[1..])
  }

  function Read(frame: string, valid: string -> bool): Parsed {
    var lines := Lines(Normalize(frame));
    var joined := JoinLines(DataIn(lines));
    if DataIn(lines) == [] then Parsed(EventIn(lines), None, false)
    else if joined == "[DONE]" then Parsed(EventIn(lines), None, true)
    else if valid(joined) then Parsed(EventIn(lines), Some(joined), false)
    else Invalid
  }

  lemma {:induction false} DataInAppend(a: seq<string>, b: seq<string>)
    ensures DataIn(a + b) == DataIn(a) + DataIn(b)
    decreases |a|
  {
    if a == [] {
      EmptyEnds(b);
    } else {
      AppendHead(a, b);
      DataInAppend(a[1..], b);
    }
  }

  /** A data line never starts with `event:`, so the order of the two tests is immaterial. */
  lemma FieldsApart(line: string)
    ensures !(HasPrefix(line, EVENT_FIELD) && HasPrefix(line, DATA_FIELD))
  {
    if HasPrefix(line, EVENT_FIELD) {
      assert line[0] == EVENT_FIELD[0];
    }
  }

  /** `parseSSEFrame`; `valid` is `json.Valid`. */
  method ParseFrame(frame: string, valid: string -> bool) returns (parsed: Parsed)
    ensures parsed == Read(frame, valid)
  {
    var lines := Lines(Normalize(frame));
    var event, dataLines := "", [];
    for i := 0 to |lines|
      invariant event == EventIn(lines[..i]) && dataLines == DataIn(lines[..i])
    {
      var line := lines[i];
      assert lines[..i + 1][..i] == lines[..i];
      assert lines[..i + 1] == lines[..i] + [line];
      NothingAfter(line);
      DataInAppend(lines[..i], [line]);
      FieldsApart(line);
      if HasPrefix(line, EVENT_FIELD) {
        event := FieldValue(line, EVENT_FIELD);
      } else if HasPrefix(line, DATA_FIELD) {
        dataLines := dataLines + [FieldValue(line, DATA_FIELD)];
      }
    }
    assert lines[..|lines|] == lines;
    if |dataLines| == 0 {
      return Parsed(event, None, false);
    }
    var joined := JoinLines(dataLines);
    if joined == "[DONE]" {
      return Parsed(event, None, true);
    }
    if !valid(joined) {
      return Invalid;
    }
    return Parsed(event, Some(joined), false);
  }

  // ---- Printing ----

  datatype Message = Message(event: string, data: string)

  /** `claudeSSE`, given the printed payload. */
  function Show(m: Message): string {
    "event: " + m.event + "\ndata: " + m.data + "\n\n"
  }

  function ShowAll(messages: seq<Message>): seq<string> {
    if messages == [] then [] else [Show(messages[0])] + ShowAll(messages[1..])
  }

  /** One line with nothing to trim, as event names and `json.Marshal` output are. */
  predicate OneLine(s: string) {
    '\n' !in s && Trimmed(s)
  }

  predicate Clean(m: Message, valid: string -> bool) {
    OneLine(m.event) && OneLine(m.data) && valid(m.data) && m.data != "[DONE]"
  }

  lemma {:induction false} LinesOf(line: string, rest: string)
    requires '\n' !in line
    ensures Lines(line + "\n" + rest) == [line] + Lines(rest)
    decreases |line|
  {
    if line == "" {
      assert line + "\n" + rest == "\n" + rest;
      assert ("\n" + rest)[1..] == rest;
    } else {
      assert (line + "\n" + rest)[0] == line[0];
      assert (line + "\n" + rest)[1..] == line[1..] + "\n" + rest;
      LinesOf(line[1..], rest);
      assert [line[0]] + line[1..] == line;
      assert ([line[1..]] + Lines(rest))[1..] == Lines(rest);
    }
  }

  predicate NoCrlf(s: string) {
    forall i :: 0 <= i && i + 1 < |s| && s[i] == '\r' ==> s[i + 1] != '\n'
  }

  lemma {:induction false} NormalizeIdentity(s: string)
    requires NoCrlf(s)
    ensures Normalize(s) == s
    decreases |s|
  {
    if s != "" {
      assert forall i :: 0 <= i && i + 1 < |s[1..]| && s[1..][i] == '\r' ==>
            s[1..][i] == s[i + 1] && s[1..][i + 1] == s[i + 2];
      NormalizeIdentity(s[1..]);
      assert [s[0]] + s[1..] == s;
    }
  }

  /** A field line of a printed event. */
  function FieldLine(field: string, value: string): string {
    field + " " + value
  }

  lemma FieldValueOf(field: string, value: string)
    requires Trimmed(value)
    ensures HasPrefix(FieldLine(field, value), field) && FieldValue(FieldLine(field, value), field) == value
  {
    var line := FieldLine(field, value);
    assert line == field + (" " + value);
    assert line[|field|..] == " " + value;
    assert (" " + value)[1..] == value;
    TrimLeftShape(value);
    TrimShape(value);
  }

  lemma FieldLineShape(field: string, value: string)
    requires OneLine(value) && '\n' !in field
    ensures '\n' !in FieldLine(field, value)
    ensures FieldLine(field, value) != "" && FieldLine(field, value)[|FieldLine(field, value)| - 1] != '\r'
  {
    var line := FieldLine(field, value);
    assert line == field + " " + value;
    assert value != "" ==> line[|line| - 1] == value[|value| - 1];
  }

  /** Two lines and a blank one are a frame, with no carriage return before a line feed. */
  lemma TwoLines(a: string, b: string, s: string)
    requires s == a + "\n" + (b + "\n" + "\n") && '\n' !in a && '\n' !in b
    requires a != "" && b != "" && a[|a| - 1] != '\r' && b[|b| - 1] != '\r'
    ensures NoCrlf(s) && IsFrame(s)
  {
    var p, n := |a|, |a| + |b| + 3;
    assert |s| == n && s[p] == s[n - 2] == s[n - 1] == '\n';
    assert forall i :: 0 <= i < p ==> s[i] == a[i];
    assert forall i :: p < i < n - 2 ==> s[i] == b[i - p - 1];
    forall i | 0 <= i < n && i != p && i < n - 2 ensures s[i] != '\n' {
      assert s[i] in a || s[i] in b;
    }
    EndsAtChars(s, n);
    forall k | k < n ensures !EndsAt(s, k) {
      EndsAtChars(s, k);
    }
  }

  lemma ShownPlainly(m: Message)
    requires OneLine(m.event) && OneLine(m.data)
    ensures NoCrlf(Show(m)) && IsFrame(Show(m))
    ensures Show(m) == FieldLine(EVENT_FIELD, m.event) + "\n" + (FieldLine(DATA_FIELD, m.data) + "\n" + "\n")
  {
    var a, b := FieldLine(EVENT_FIELD, m.event), FieldLine(DATA_FIELD, m.data);
    FieldLineShape(EVENT_FIELD, m.event);
    FieldLineShape(DATA_FIELD, m.data);
    assert Show(m) == a + "\n" + (b + "\n" + "\n");
    TwoLines(a, b, Show(m));
  }

  lemma ReadShown(m: Message, valid: string -> bool)
    requires Clean(m, valid)
    ensures Read(Show(m), valid) == Parsed(m.event, Some(m.data), false)
  {
    var a, b := FieldLine(EVENT_FIELD, m.event), FieldLine(DATA_FIELD, m.data);
    ShownPlainly(m);
    NormalizeIdentity(Show(m));
    LinesOf(a, b + "\n" + "\n");
    LinesOf(b, "\n");
    LinesOf("", "");
    assert "" + "\n" + "" == "\n";
    var lines := Lines(Show(m));
    assert lines == [a, b, "", ""];
    FieldValueOf(EVENT_FIELD, m.event);
    FieldValueOf(DATA_FIELD, m.data);
    FieldsApart(a);
    FieldsApart(b);
    ReadsAs(a, b);
  }

  lemma {:induction false} ReadsAs(a: string, b: string)
    requires HasPrefix(a, EVENT_FIELD) && HasPrefix(b, DATA_FIELD)
    ensures EventIn([a, b, "", ""]) == FieldValue(a, EVENT_FIELD)
    ensures DataIn([a, b, "", ""]) == [FieldValue(b, DATA_FIELD)]
  {
    FieldsApart(a);
    FieldsApart(b);
    assert [a, b][..1] == [a];
    assert EventIn([a, b]) == EventIn([a]);
    assert [a, b, ""][..2] == [a, b];
    assert EventIn([a, b, ""]) == EventIn([a, b]);
    assert [a, b, "", ""][..3] == [a, b, ""];
    NothingAfter("");
    assert ["", ""][1..] == [""];
    assert DataIn(["", ""]) == [];
    assert [b, "", ""][1..] == ["", ""];
    assert [a, b, "", ""][1..] == [b, "", ""];
  }

  function ReadAll(frames: seq<string>, valid: string -> bool): seq<Parsed> {
    if frames == [] then [] else [Read(frames[0], valid)] + ReadAll(frames[1..], valid)
  }

  function Expected(messages: seq<Message>): seq<Parsed> {
    if messages == [] then [] else [Parsed(messages[0].event, Some(messages[0].data), false)] + Expected(messages[1..])
  }

  lemma {:induction false} ShownAll(messages: seq<Message>, valid: string -> bool)
    requires forall m :: m in messages ==> Clean(m, valid)
    ensures AllFrames(ShowAll(messages)) && ReadAll(ShowAll(messages), valid) == Expected(messages)
    decreases |messages|
  {
    if messages != [] {
      assert messages[0] in messages;
      ShownPlainly(messages[0]);
      ReadShown(messages[0], valid);
      ShownAll(messages[1..], valid);
    }
  }

  /** Printed events, with the bytes cut into chunks anywhere, decode and read back as they were. */
  lemma {:induction false} WireRoundTrip(messages: seq<Message>, chunks: seq<string>, valid: string -> bool)
    requires forall m :: m in messages ==> Clean(m, valid)
    requires Concat(chunks) == Concat(ShowAll(messages))
    ensures FeedAll("", chunks) == Decoded(ShowAll(messages), "")
    ensures ReadAll(FeedAll("", chunks).frames, valid) == Expected(messages)
  {
    ShownAll(messages, valid);
    var k := SplitStep("");
    EmptyEnds(Concat(chunks));
    ChunkingIrrelevant("", chunks);
    EmptyEnds(Concat(ShowAll(messages)));
    SplitComplete(ShowAll(messages), "");
  }

  // ---- The CRLF form ----

  /** The same text with carriage returns before its line feeds. */
  function ToCrlf(s: string): string {
    if s == "" then "" else (if s[0] == '\n' then "\r\n" else [s[0]]) + ToCrlf(s[1..])
  }

  /** A frame with CRLF line ends reads as the frame with LF line ends. */
  lemma {:induction false} CrlfReadsAlike(s: string, valid: string -> bool)
    requires '\r' !in s
    ensures Normalize(ToCrlf(s)) == s && Read(ToCrlf(s), valid) == Read(s, valid)
    decreases |s|
  {
    NormalizeIdentity(s);
    if s != "" {
      CrlfReadsAlike(s[1..], valid);
      assert [s[0]] + s[1..] == s;
      var t := ToCrlf(s);
      if s[0] == '\n' {
        assert t[0] == '\r' && t[1] == '\n' && t[2..] == ToCrlf(s[1..]);
      } else {
        assert t[0] == s[0] && t[1..] == ToCrlf(s[1..]);
      }
    }
  }

  // ---- Frames line by line ----

  /** A line of a frame: an event name, data, or anything else. */
  datatype Line = EventLine(text: string) | DataLine(text: string) | OtherLine(text: string)

  function LineText(line: Line): string {
    match line
    case EventLine(text) => "event:" + text
    case DataLine(text) => "data:" + text
    case OtherLine(text) => text
  }

  /** The line is one line, and is what it is called. */
  predicate Plain(line: Line) {
    && '\n' !in line.text && '\r' !in line.text
    && (line.OtherLine? ==> !HasPrefix(line.text, "event:") && !HasPrefix(line.text, "data:"))
  }

  function LineTexts(lines: seq<Line>): (texts: seq<string>)
    ensures |texts| == |lines|
    ensures forall i :: 0 <= i < |lines| ==> texts[i] == LineText(lines[i])
  {
    if lines == [] then [] else LineTexts(lines[..|lines| - 1]) + [LineText(lines[|lines| - 1])]
  }

  /** The data of a frame: the text of every data line, without white space at its ends. */
  function DataTexts(lines: seq<Line>): seq<string> {
    if lines == [] then []
    else DataTexts(lines[..|lines| - 1])
         + if lines[|lines| - 1].DataLine? then [Trim(lines[|lines| - 1].text)] else []
  }

  predicate AllPlain(lines: seq<Line>) {
    forall i :: 0 <= i < |lines| ==> Plain(lines[i])
  }

  predicate NoEvents(lines: seq<Line>, from: nat) {
    forall i :: from <= i < |lines| ==> !lines[i].EventLine?
  }

  predicate NamedAt(lines: seq<Line>, i: nat, name: string) {
    i < |lines| && lines[i].EventLine? && name == Trim(lines[i].text) && NoEvents(lines, i + 1)
  }

  /** The name of a frame: the text of its last event line, if it has one. */
  predicate IsName(lines: seq<Line>, name: string) {
    (NoEvents(lines, 0) && name == "") || exists i :: 0 <= i < |lines| && NamedAt(lines, i, name)
  }

  lemma {:induction false} LineAlone(line: string)
    requires '\n' !in line
    ensures Lines(line) == [line]
  {
    if line != "" {
      LineAlone(line[1..]);
      assert [line[0]] + line[1..] == line;
    }
  }

  /** Splitting undoes joining. */
  lemma {:induction false} LinesJoined(lines: seq<string>)
    requires lines != [] && forall l :: l in lines ==> '\n' !in l
    ensures Lines(JoinLines(lines)) == lines
    decreases |lines|
  {
    if |lines| == 1 {
      LineAlone(lines[0]);
    } else {
      assert lines == [lines[0]] + lines[1..];
      LinesJoined(lines[1..]);
      LinesOf(lines[0], JoinLines(lines[1..]));
    }
  }

  lemma {:induction false} JoinedWithout(lines: seq<string>, c: char)
    requires c != '\n' && forall l :: l in lines ==> c !in l
    ensures c !in JoinLines(lines)
    decreases |lines|
  {
    if |lines| > 1 {
      JoinedWithout(lines[1..], c);
      assert lines[0] in lines;
    }
  }

  lemma NameFromFront(lines: seq<Line>, name: string)
    requires lines != [] && !lines[|lines| - 1].EventLine? && IsName(lines[..|lines| - 1], name)
    ensures IsName(lines, name)
  {
    var front := lines[..|lines| - 1];
    if !NoEvents(front, 0) || name != "" {
      var i :| 0 <= i < |front| && NamedAt(front, i, name);
      assert NamedAt(lines, i, name);
    }
  }

  lemma {:induction false} NameIn(lines: seq<Line>)
    requires AllPlain(lines)
    ensures IsName(lines, EventIn(LineTexts(lines)))
    decreases |lines|
  {
    if lines != [] {
      var front, last := lines[..|lines| - 1], lines[|lines| - 1];
      LinePrefixes(last);
      assert LineTexts(lines)[..|lines| - 1] == LineTexts(front);
      if last.EventLine? {
        assert NamedAt(lines, |lines| - 1, Trim(last.text));
      } else {
        NameIn(front);
        NameFromFront(lines, EventIn(LineTexts(front)));
      }
    }
  }

  lemma LinePrefixes(line: Line)
    requires Plain(line)
    ensures HasPrefix(LineText(line), EVENT_FIELD) <==> line.EventLine?
    ensures HasPrefix(LineText(line), DATA_FIELD) <==> line.DataLine?
    ensures line.EventLine? ==> FieldValue(LineText(line), EVENT_FIELD) == Trim(line.text)
    ensures line.DataLine? ==> FieldValue(LineText(line), DATA_FIELD) == Trim(line.text)
  {
    FieldsApart(LineText(line));
    assert line.EventLine? ==> LineText(line)[|EVENT_FIELD|..] == line.text;
    assert line.DataLine? ==> LineText(line)[|DATA_FIELD|..] == line.text;
  }

  lemma {:induction false} DataTextsIn(lines: seq<Line>)
    requires AllPlain(lines)
    ensures DataIn(LineTexts(lines)) == DataTexts(lines)
    decreases |lines|
  {
    if lines != [] {
      var front, last := lines[..|lines| - 1], lines[|lines| - 1];
      DataTextsIn(front);
      LinePrefixes(last);
      DataInAppend(LineTexts(front), [LineText(last)]);
      NothingAfter(LineText(last));
    }
  }

  lemma {:induction false} DataTextsPlain(lines: seq<Line>)
    requires AllPlain(lines)
    ensures forall t :: t in DataTexts(lines) ==> '\n' !in t
    decreases |lines|
  {
    if lines != [] {
      DataTextsPlain(lines[..|lines| - 1]);
      var a, b := TrimCuts(lines[|lines| - 1].text);
    }
  }

  lemma TextPlain(line: Line)
    requires Plain(line)
    ensures '\n' !in LineText(line) && '\r' !in LineText(line)
  {
    assert '\n' !in "event:" && '\r' !in "event:" && '\n' !in "data:" && '\r' !in "data:";
  }

  lemma {:induction false} TextsPlain(lines: seq<Line>)
    requires AllPlain(lines)
    ensures forall t :: t in LineTexts(lines) ==> '\n' !in t && '\r' !in t
  {
    forall t | t in LineTexts(lines) ensures '\n' !in t && '\r' !in t {
      var i :| 0 <= i < |lines| && t == LineText(lines[i]);
      TextPlain(lines[i]);
    }
  }

  lemma {:induction false} FramePlain(lines: seq<Line>) returns (texts: seq<string>, frame: string)
    requires lines != [] && AllPlain(lines)
    ensures texts == LineTexts(lines) && frame == JoinLines(texts)
    ensures '\r' !in frame && Normalize(frame) == frame && Lines(frame) == texts
  {
    texts := LineTexts(lines);
    frame := JoinLines(texts);
    TextsPlain(lines);
    LinesJoined(texts);
    JoinedWithout(texts, '\r');
    NormalizeIdentity(frame);
  }

  lemma {:induction false} DataJoined(lines: seq<Line>) returns (data: string)
    requires AllPlain(lines)
    ensures data == JoinLines(DataIn(LineTexts(lines))) && DataIn(LineTexts(lines)) == DataTexts(lines)
    ensures DataTexts(lines) != [] ==> Lines(data) == DataTexts(lines)
    ensures data == "[DONE]" <==> DataTexts(lines) == ["[DONE]"]
  {
    data := JoinLines(DataTexts(lines));
    DataTextsIn(lines);
    if DataTexts(lines) != [] {
      DataTextsPlain(lines);
      LinesJoined(DataTexts(lines));
      LineAlone("[DONE]");
    }
  }

  /** How every frame reads, line by line. With carriage returns before its line feeds it reads the
      same. Its data lines are joined again as lines; one line `[DONE]` is the sentinel. */
  lemma {:induction false} FrameReads(lines: seq<Line>, valid: string -> bool) returns (name: string, data: string)
    requires lines != [] && AllPlain(lines)
    ensures IsName(lines, name)
    ensures DataTexts(lines) != [] ==> Lines(data) == DataTexts(lines)
    ensures var frame := JoinLines(LineTexts(lines));
            Read(frame, valid) == Read(ToCrlf(frame), valid)
            == if DataTexts(lines) == [] then Parsed(name, None, false)
               else if DataTexts(lines) == ["[DONE]"] then Parsed(name, None, true)
               else if valid(data) then Parsed(name, Some(data), false)
               else Invalid
  {
    var texts, frame := FramePlain(lines);
    CrlfReadsAlike(frame, valid);
    NameIn(lines);
    name := EventIn(texts);
    data := DataJoined(lines);
  }
}
