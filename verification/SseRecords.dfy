/**
 * SSE records as text: how the encoders frame them and how the two upstream
 * parsers read them back.
 */
module SseRecords {
  import opened Base
  import opened Json
  import opened Sse

  /** A parsed upstream event. */
  datatype StreamEvent = StreamEvent(event: string, data: Json)

  /** What an encoder writes: `event:`/`data:` pairs, bare `data:` lines, and the chat terminator. */
  datatype Record = Named(name: string, data: Json) | Bare(data: Json) | Terminator

  /** A record up to its blank line. */
  function Body(c: Codec, r: Record): string {
    match r
    case Named(name, data) => "event: " + name + "\n" + ("data: " + c.stringify(data))
    case Bare(data) => "data: " + c.stringify(data)
    case Terminator => "data: [DONE]"
  }

  function Render(c: Codec, r: Record): string {
    Body(c, r) + "\n\n"
  }

  function RenderAll(c: Codec, rs: seq<Record>): string {
    if rs == [] then "" else Render(c, rs[0]) + RenderAll(c, rs[1..])
  }

  /** The text of a transcript, if there is one. */
  function Printed<X>(c: Codec, transcript: Result<seq<Record>, X>): Result<string, X> {
    match transcript
    case Err(x) => Err(x)
    case Ok(records) => Ok(RenderAll(c, records))
  }

  lemma RenderOne(c: Codec, r: Record)
    ensures RenderAll(c, [r]) == Render(c, r)
  {
    assert RenderAll(c, [r]) == Render(c, r) + "";
  }

  lemma {:induction false} RenderAppend(c: Codec, a: seq<Record>, b: seq<Record>)
    ensures RenderAll(c, a + b) == RenderAll(c, a) + RenderAll(c, b)
  {
    if a == [] {
      assert a + b == b;
    } else {
      assert (a + b)[1..] == a[1..] + b;
      RenderAppend(c, a[1..], b);
      Assoc(Render(c, a[0]), RenderAll(c, a[1..]), RenderAll(c, b));
    }
  }

  // ----- The parsers of the adapters -----

  /** The trimmed values of the lines that start with a field name. */
  function FieldValues(lines: seq<string>, field: string): seq<string> {
    if lines == [] then []
    else (if field <= lines[0] then [Trim(lines[0][|field|..])] else []) + FieldValues(lines[1..], field)
  }

  function JoinLines(parts: seq<string>): string {
    if parts == [] then ""
    else if |parts| == 1 then parts[0]
    else parts[0] + "\n" + JoinLines(parts[1..])
  }

  function LastOr(values: seq<string>, default: string): string {
    if values == [] then default else Last(values)
  }

  function ParseOrText(c: Codec, text: string): Json {
    c.parse(text).GetOr(Str(text))
  }

  /** What an Anthropic SSE body's block with this event name and these data lines says. */
  function AnthropicEvent(c: Codec, name: string, text: string): seq<StreamEvent> {
    if text == "" && name == "" then []
    else
      var data := if text == "" then Str(text) else ParseOrText(c, text);
      var event := if name == "" then StrProp(Some(data), "type").GetOr("") else name;
      [StreamEvent(if event == "" then "message" else event, data)]
  }

  /** What an OpenAI-style SSE body's block says. */
  function OpenAIEvent(c: Codec, text: string): seq<StreamEvent> {
    if text == "" then []
    else if text == "[DONE]" then [StreamEvent("done", Str("[DONE]"))]
    else [StreamEvent("chat.completion.chunk", ParseOrText(c, text))]
  }

  /** A block of an OpenAI body for either of its protocols: a name is optional, and `[DONE]` may come. */
  function MixedEvent(c: Codec, name: string, text: string): seq<StreamEvent> {
    if text == "" && name == "" then []
    else if text == "[DONE]" then [StreamEvent("done", Str("[DONE]"))]
    else
      var data := if text == "" then Str(text) else ParseOrText(c, text);
      [StreamEvent(if name == "" then StrProp(Some(data), "type").GetOr("chat.completion.chunk") else name, data)]
  }

  /** The three stream parsers: Anthropic's, the OpenAI-compatible one, and OpenAI's own. */
  datatype Dialect = Anthropic | OpenAI | Mixed

  /** The event name of a block: its last event field's. */
  function BlockName(block: string): string {
    LastOr(FieldValues(Split(LineBreak, block), "event:"), "")
  }

  /** The data of a block: its data fields, joined. */
  function BlockData(block: string): string {
    JoinLines(FieldValues(Split(LineBreak, block), "data:"))
  }

  function ParseBlock(d: Dialect, c: Codec, block: string): seq<StreamEvent> {
    match d
    case Anthropic => AnthropicEvent(c, BlockName(block), BlockData(block))
    case OpenAI => OpenAIEvent(c, BlockData(block))
    case Mixed => MixedEvent(c, BlockName(block), BlockData(block))
  }

  function ParseBlocks(d: Dialect, c: Codec, blocks: seq<string>): seq<StreamEvent> {
    if blocks == [] then [] else ParseBlock(d, c, blocks[0]) + ParseBlocks(d, c, blocks[1..])
  }

  /** `parseAnthropicSse`, `parseOpenAISse` and `parseOpenAIStream` on a whole body. */
  function Parse(d: Dialect, c: Codec, raw: string): seq<StreamEvent> {
    ParseBlocks(d, c, Split(BlankLine, raw))
  }

  /** One more line: a field's value joins those read before it. */
  lemma NextLine(lines: seq<string>, i: nat, field: string, values: seq<string>)
    requires i < |lines|
    ensures values + FieldValues(lines[i..], field) ==
            (if field <= lines[i] then values + [Trim(lines[i][|field|..])] else values)
              + FieldValues(lines[i + 1..], field)
  {
    assert lines[i..][1..] == lines[i + 1..];
    var rest := FieldValues(lines[i + 1..], field);
    if field <= lines[i] {
      Assoc(values, [Trim(lines[i][|field|..])], rest);
    } else {
      assert [] + rest == rest;
    }
  }

  lemma LastOrMore(values: seq<string>, value: string, default: string)
    ensures LastOr(values + [value], default) == value
  {
  }

  /** The line loop of both parsers: the last event name, and the data lines. */
  method ReadLines(block: string) returns (event: string, dataLines: seq<string>)
    ensures event == LastOr(FieldValues(Split(LineBreak, block), "event:"), "")
    ensures dataLines == FieldValues(Split(LineBreak, block), "data:")
  {
    event, dataLines := "", [];
    var lines := Split(LineBreak, block);
    ghost var names: seq<string> := [];
    assert lines[0..] == lines;
    for i := 0 to |lines|
      invariant FieldValues(lines, "event:") == names + FieldValues(lines[i..], "event:") && event == LastOr(names, "")
      invariant FieldValues(lines, "data:") == dataLines + FieldValues(lines[i..], "data:")
    {
      DistinctFields(lines[i]);
      NextLine(lines, i, "event:", names);
      NextLine(lines, i, "data:", dataLines);
      if "event:" <= lines[i] {
        event := Trim(lines[i][|"event:"|..]);
        LastOrMore(names, event, "");
        names := names + [event];
      } else if "data:" <= lines[i] {
        dataLines := dataLines + [Trim(lines[i][|"data:"|..])];
      }
    }
    assert lines[|lines|..] == [] && names + [] == names && dataLines + [] == dataLines;
  }

  /** `parseAnthropicSse` as its block loop runs. */
  method ParseAnthropicSse(c: Codec, raw: string) returns (events: seq<StreamEvent>)
    ensures events == Parse(Anthropic, c, raw)
  {
    events := [];
    var blocks := Split(BlankLine, raw);
    for b := 0 to |blocks|
      invariant ParseBlocks(Anthropic, c, blocks) == events + ParseBlocks(Anthropic, c, blocks[b..])
    {
      NextBlock(Anthropic, c, blocks, b, events);
      var event, dataLines := ReadLines(blocks[b]);
      var text := JoinLines(dataLines);
      if text == "" && event == "" {
        continue;
      }
      var data := if text == "" then Str(text) else ParseOrText(c, text);
      if event == "" {
        event := StrProp(Some(data), "type").GetOr("");
      }
      events := events + [StreamEvent(if event == "" then "message" else event, data)];
    }
  }

  /** `parseOpenAISse` as its block loop runs. */
  method ParseOpenAISse(c: Codec, raw: string) returns (events: seq<StreamEvent>)
    ensures events == Parse(OpenAI, c, raw)
  {
    events := [];
    var blocks := Split(BlankLine, raw);
    for b := 0 to |blocks|
      invariant ParseBlocks(OpenAI, c, blocks) == events + ParseBlocks(OpenAI, c, blocks[b..])
    {
      NextBlock(OpenAI, c, blocks, b, events);
      var _, dataLines := ReadLines(blocks[b]);
      var text := JoinLines(dataLines);
      if text == "" {
        continue;
      }
      if text == "[DONE]" {
        events := events + [StreamEvent("done", Str("[DONE]"))];
        continue;
      }
      events := events + [StreamEvent("chat.completion.chunk", ParseOrText(c, text))];
    }
  }

  /** `parseOpenAIStream` as its block loop runs. */
  method ParseOpenAIStream(c: Codec, raw: string) returns (events: seq<StreamEvent>)
    ensures events == Parse(Mixed, c, raw)
  {
    events := [];
    var blocks := Split(BlankLine, raw);
    for b := 0 to |blocks|
      invariant ParseBlocks(Mixed, c, blocks) == events + ParseBlocks(Mixed, c, blocks[b..])
    {
      NextBlock(Mixed, c, blocks, b, events);
      var event, dataLines := ReadLines(blocks[b]);
      var text := JoinLines(dataLines);
      if text == "" && event == "" {
        continue;
      }
      if text == "[DONE]" {
        events := events + [StreamEvent("done", Str("[DONE]"))];
        continue;
      }
      var data := if text == "" then Str(text) else ParseOrText(c, text);
      if event == "" {
        event := StrProp(Some(data), "type").GetOr("chat.completion.chunk");
      }
      events := events + [StreamEvent(event, data)];
    }
  }

  /** `parseStreamEvent`, by the adapter's dialect. */
  method ParseSse(d: Dialect, c: Codec, raw: string) returns (events: seq<StreamEvent>)
    ensures events == Parse(d, c, raw)
  {
    match d {
      case Anthropic => events := ParseAnthropicSse(c, raw);
      case OpenAI => events := ParseOpenAISse(c, raw);
      case Mixed => events := ParseOpenAIStream(c, raw);
    }
  }

  lemma NextBlock(d: Dialect, c: Codec, blocks: seq<string>, b: nat, events: seq<StreamEvent>)
    requires b < |blocks|
    ensures events + ParseBlocks(d, c, blocks[b..]) ==
            (events + ParseBlock(d, c, blocks[b])) + ParseBlocks(d, c, blocks[b + 1..])
    ensures ParseBlock(d, c, blocks[b]) == [] ==> events + ParseBlock(d, c, blocks[b]) == events
  {
    assert blocks[b..][1..] == blocks[b + 1..];
  }

  lemma DistinctFields(line: string)
    ensures !("event:" <= line && "data:" <= line)
  {
    if line != "" {
      assert "event:" <= line ==> line[0] == 'e';
      assert "data:" <= line ==> line[0] == 'd';
    }
  }

  // ----- Frame by frame is the same as all at once -----

  lemma BlankFields(lines: seq<string>, field: string)
    requires field == "event:" || field == "data:"
    requires forall l :: l in lines ==> Blank(l)
    ensures FieldValues(lines, field) == []
  {
    if lines != [] {
      assert lines[0] in lines;
      assert !IsSpace(field[0]);
      assert lines[0] == "" || IsSpace(lines[0][0]);
    }
  }

  lemma BlankSlice(s: string, i: nat, j: nat)
    requires Blank(s) && i <= j <= |s|
    ensures Blank(s[i..j])
  {
  }

  lemma {:induction false} BlankPieces(sep: Separator, s: string)
    requires Blank(s)
    ensures forall l :: l in Split(sep, s) ==> Blank(l)
    decreases |s|
  {
    var j := Find(sep, s, 0);
    if j < |s| {
      var n := j + MatchLength(sep, s, j);
      BlankSlice(s, 0, j);
      BlankSlice(s, n, |s|);
      assert s[n..|s|] == s[n..] && s[0..j] == s[..j];
      SplitHead(sep, s, j, n);
      BlankPieces(sep, s[n..]);
    }
  }

  lemma BlankBlock(d: Dialect, c: Codec, block: string)
    requires Blank(block)
    ensures ParseBlock(d, c, block) == []
  {
    BlankPieces(LineBreak, block);
    BlankFields(Split(LineBreak, block), "event:");
    BlankFields(Split(LineBreak, block), "data:");
  }

  function ParseFrames(d: Dialect, c: Codec, frames: seq<string>): seq<StreamEvent> {
    if frames == [] then [] else Parse(d, c, frames[0]) + ParseFrames(d, c, frames[1..])
  }

  lemma WholeFrame(d: Dialect, c: Codec, frame: string)
    requires Free(BlankLine, frame)
    ensures Parse(d, c, frame) == ParseBlock(d, c, frame)
  {
    FreeSplit(BlankLine, frame);
    assert ParseBlocks(d, c, [frame]) == ParseBlock(d, c, frame) + ParseBlocks(d, c, []);
  }

  lemma {:induction false} FramesAreBlocks(d: Dialect, c: Codec, frames: seq<string>)
    requires forall f :: f in frames ==> Free(BlankLine, f)
    ensures ParseFrames(d, c, frames) == ParseBlocks(d, c, frames)
  {
    if frames != [] {
      WholeFrame(d, c, frames[0]);
      FramesAreBlocks(d, c, frames[1..]);
    }
  }

  lemma {:induction false} BlankBlocksAreSilent(d: Dialect, c: Codec, blocks: seq<string>)
    ensures ParseBlocks(d, c, NonBlank(blocks)) == ParseBlocks(d, c, blocks)
  {
    if blocks != [] {
      var block, rest := blocks[0], blocks[1..];
      BlankBlocksAreSilent(d, c, rest);
      if Blank(block) {
        BlankBlock(d, c, block);
        assert NonBlank(blocks) == NonBlank(rest);
      } else {
        assert NonBlank(blocks)[1..] == NonBlank(rest);
      }
    }
  }

  /** Parsing a body frame by frame, however it was chunked, is parsing it at once. */
  lemma FramesParse(d: Dialect, c: Codec, raw: string)
    ensures ParseFrames(d, c, Frames(raw)) == Parse(d, c, raw)
  {
    var pieces := Split(BlankLine, raw);
    PiecesFree(BlankLine, raw);
    NonBlankKeeps(pieces);
    FramesAreBlocks(d, c, NonBlank(pieces));
    BlankBlocksAreSilent(d, c, pieces);
  }

  // ----- What the line loop reads -----

  /** A line of a block: a named field with one space before its value, or any other line. */
  datatype Line = EventField(value: string) | DataField(value: string) | OtherLine(text: string)

  function LineText(line: Line): string {
    match line
    case EventField(value) => "event: " + value
    case DataField(value) => "data: " + value
    case OtherLine(text) => text
  }

  function LineTexts(lines: seq<Line>): (texts: seq<string>)
    ensures |texts| == |lines|
  {
    if lines == [] then [] else [LineText(lines[0])] + LineTexts(lines[1..])
  }

  /** Values are words: nothing to trim, nothing to split. */
  predicate Word(s: string) {
    s != "" && NoBreaks(s) && !IsSpace(s[0]) && !IsSpace(s[|s| - 1])
  }

  /** The characters event names are made of. */
  predicate Plain(c: char) {
    'a' <= c <= 'z' || c == '.' || c == '_'
  }

  lemma PlainWord(s: string)
    requires s != "" && forall i :: 0 <= i < |s| ==> Plain(s[i])
    ensures Word(s)
  {
    assert Plain(s[0]) && Plain(s[|s| - 1]);
  }

  predicate Written(line: Line) {
    match line
    case EventField(value) => Word(value)
    case DataField(value) => Word(value)
    case OtherLine(text) => NoBreaks(text) && !("event:" <= text) && !("data:" <= text)
  }

  function Names(lines: seq<Line>): seq<string> {
    if lines == [] then []
    else (if lines[0].EventField? then [lines[0].value] else []) + Names(lines[1..])
  }

  function Datas(lines: seq<Line>): seq<string> {
    if lines == [] then []
    else (if lines[0].DataField? then [lines[0].value] else []) + Datas(lines[1..])
  }

  predicate LineEnd(mark: string) {
    mark == "\n" || mark == "\r\n"
  }

  /** The text of a block, with any line end after each line but the last. */
  function BlockText(lines: seq<Line>, ends: seq<string>): string
    requires |lines| == |ends| + 1
  {
    Joined(LineTexts(lines), ends)
  }

  lemma TrimWord(w: string)
    requires Word(w)
    ensures Trim(" " + w) == w
  {
    assert (" " + w)[1..] == w;
    assert TrimLeft(w) == w;
    assert TrimLeft(" " + w) == TrimLeft(w);
  }

  lemma FieldLine(field: string, w: string)
    requires Word(w)
    requires field == "event:" || field == "data:"
    ensures field <= field + " " + w
    ensures Trim((field + " " + w)[|field|..]) == w
    ensures NoBreaks(field + " " + w) && Last(field + " " + w) == Last(w)
  {
    FieldRest(field, w);
    TrimWord(w);
    assert NoBreaks("event:") && NoBreaks("data:") && NoBreaks(" ");
  }

  lemma FieldRest(field: string, w: string)
    ensures (field + " " + w)[|field|..] == " " + w
  {
  }

  lemma LineReads(line: Line)
    requires Written(line)
    ensures "event:" <= LineText(line) <==> line.EventField?
    ensures "data:" <= LineText(line) <==> line.DataField?
    ensures line.EventField? ==> Trim(LineText(line)[6..]) == line.value
    ensures line.DataField? ==> Trim(LineText(line)[5..]) == line.value
    ensures NoBreaks(LineText(line))
  {
    DistinctFields(LineText(line));
    assert "event:" + " " == "event: " && "data:" + " " == "data: ";
    if line.EventField? {
      FieldLine("event:", line.value);
    } else if line.DataField? {
      FieldLine("data:", line.value);
    }
  }

  lemma {:induction false} FieldsRead(lines: seq<Line>)
    requires forall l :: l in lines ==> Written(l)
    ensures FieldValues(LineTexts(lines), "event:") == Names(lines)
    ensures FieldValues(LineTexts(lines), "data:") == Datas(lines)
    ensures forall t :: t in LineTexts(lines) ==> NoBreaks(t)
  {
    if lines != [] {
      LineReads(lines[0]);
      FieldsRead(lines[1..]);
      assert LineTexts(lines)[1..] == LineTexts(lines[1..]);
    }
  }

  /** A block of lines is read as its last event field and its joined data fields, whatever its line ends are. */
  lemma BlockIsRead(lines: seq<Line>, ends: seq<string>, block: string)
    requires |lines| == |ends| + 1 && block == BlockText(lines, ends)
    requires forall l :: l in lines ==> Written(l)
    requires forall e :: e in ends ==> LineEnd(e)
    ensures BlockName(block) == if Names(lines) == [] then "" else Last(Names(lines))
    ensures BlockData(block) == JoinLines(Datas(lines))
  {
    FieldsRead(lines);
    forall t | t in LineTexts(lines)
      ensures Piece(LineBreak, t)
    {
      OneLineUnbroken(t);
      assert t != "" ==> Last(t) in t;
    }
    SplitJoined(LineBreak, LineTexts(lines), ends);
  }

  /** The last event name wins, data lines are joined by line feeds, and data that does not parse stays text. */
  lemma NamedBlock(c: Codec, lines: seq<Line>, ends: seq<string>, block: string, text: string)
    requires |lines| == |ends| + 1 && block == BlockText(lines, ends)
    requires forall l :: l in lines ==> Written(l)
    requires forall e :: e in ends ==> LineEnd(e)
    requires Names(lines) != [] && JoinLines(Datas(lines)) == text && text != "" && text != "[DONE]"
    ensures var name, data := Last(Names(lines)), if c.parse(text).Some? then c.parse(text).value else Str(text);
            && ParseBlock(Anthropic, c, block) == [StreamEvent(name, data)]
            && ParseBlock(Mixed, c, block) == [StreamEvent(name, data)]
            && ParseBlock(OpenAI, c, block) == [StreamEvent("chat.completion.chunk", data)]
  {
    BlockIsRead(lines, ends, block);
    NamesAreWords(lines);
    var name := Last(Names(lines));
    assert name in Names(lines);
    NamedEvent(c, name, text);
  }

  lemma NamedEvent(c: Codec, name: string, text: string)
    requires name != "" && text != "" && text != "[DONE]"
    ensures var data := if c.parse(text).Some? then c.parse(text).value else Str(text);
            && AnthropicEvent(c, name, text) == [StreamEvent(name, data)]
            && MixedEvent(c, name, text) == [StreamEvent(name, data)]
            && OpenAIEvent(c, text) == [StreamEvent("chat.completion.chunk", data)]
  {
  }

  lemma {:induction false} NamesAreWords(lines: seq<Line>)
    requires forall l :: l in lines ==> Written(l)
    ensures forall n :: n in Names(lines) ==> n != ""
  {
    if lines != [] {
      assert Written(lines[0]);
      NamesAreWords(lines[1..]);
    }
  }

  /** A JSON object that carries a `type`. */
  predicate Typed(data: Json) {
    data.Obj? && "type" in data.fields && data.fields["type"].Str?
  }

  /** Without an event name, the data's own `type` names the event where the dialect looks at it. */
  lemma UnnamedBlock(c: Codec, lines: seq<Line>, ends: seq<string>, block: string, text: string, data: Json)
    requires |lines| == |ends| + 1 && block == BlockText(lines, ends)
    requires forall l :: l in lines ==> Written(l)
    requires forall e :: e in ends ==> LineEnd(e)
    requires Names(lines) == [] && JoinLines(Datas(lines)) == text && text != "" && text != "[DONE]"
    requires c.parse(text) == Some(data)
    ensures ParseBlock(OpenAI, c, block) == [StreamEvent("chat.completion.chunk", data)]
    ensures Typed(data) ==>
              var name := data.fields["type"].s;
              && ParseBlock(Mixed, c, block) == [StreamEvent(name, data)]
              && (name != "" ==> ParseBlock(Anthropic, c, block) == [StreamEvent(name, data)])
    ensures !Typed(data) ==>
              && ParseBlock(Mixed, c, block) == [StreamEvent("chat.completion.chunk", data)]
              && ParseBlock(Anthropic, c, block) == [StreamEvent("message", data)]
  {
    BlockIsRead(lines, ends, block);
    UnnamedEvent(c, text, data);
  }

  lemma UnnamedEvent(c: Codec, text: string, data: Json)
    requires text != "" && text != "[DONE]" && c.parse(text) == Some(data)
    ensures OpenAIEvent(c, text) == [StreamEvent("chat.completion.chunk", data)]
    ensures Typed(data) ==>
              var name := data.fields["type"].s;
              && MixedEvent(c, "", text) == [StreamEvent(name, data)]
              && (name != "" ==> AnthropicEvent(c, "", text) == [StreamEvent(name, data)])
    ensures !Typed(data) ==>
              && MixedEvent(c, "", text) == [StreamEvent("chat.completion.chunk", data)]
              && AnthropicEvent(c, "", text) == [StreamEvent("message", data)]
  {
  }

  /** Data lines are joined by line feeds. */
  lemma {:induction false} LinesJoined(parts: seq<string>, marks: seq<string>)
    requires |parts| == |marks| + 1 && forall m :: m in marks ==> m == "\n"
    ensures JoinLines(parts) == Joined(parts, marks)
  {
    if marks != [] {
      assert marks[0] in marks;
      assert forall m :: m in marks[1..] ==> m in marks;
      LinesJoined(parts[1..], marks[1..]);
      Assoc(parts[0], "\n", JoinLines(parts[1..]));
    }
  }

  // ----- Reading back what the encoders wrote -----

  lemma OneLine(s: string)
    requires NoBreaks(s)
    ensures Free(BlankLine, s)
  {
    OneLineUnbroken(s);
    FreeIffUnbroken(BlankLine, s);
  }

  lemma TwoLines(a: string, end: string, b: string)
    requires NoBreaks(a) && NoBreaks(b) && b != "" && LineEnd(end)
    ensures Free(BlankLine, a + end + b)
  {
    var s := a + end + b;
    forall i | 0 <= i < |s|
      ensures MatchLength(BlankLine, s, i) == 0
    {
      if i < |a| {
        assert s[i] == a[i] && a[i] in a;
      } else if i < |a| + |end| {
        assert s[|a| + |end|] == b[0] && b[0] in b;
      } else {
        assert s[i] == b[i - |a| - |end|] && b[i - |a| - |end|] in b;
      }
    }
  }

  predicate Readable(d: Dialect, r: Record) {
    match d
    case Anthropic => r.Named? && Word(r.name) && r.data.Obj?
    case OpenAI => (r.Bare? && r.data.Obj?) || r.Terminator?
    case Mixed => (r.Named? && Word(r.name) && r.data.Obj?) || r.Terminator?
  }

  function EventOf(r: Record): StreamEvent {
    match r
    case Named(name, data) => StreamEvent(name, data)
    case Bare(data) => StreamEvent("chat.completion.chunk", data)
    case Terminator => StreamEvent("done", Str("[DONE]"))
  }

  function EventsOf(rs: seq<Record>): seq<StreamEvent> {
    if rs == [] then [] else [EventOf(rs[0])] + EventsOf(rs[1..])
  }

  lemma ObjectWord(c: Codec, j: Json)
    requires Lawful(c) && j.Obj?
    ensures Word(c.stringify(j)) && c.parse(c.stringify(j)) == Some(j) && c.stringify(j) != "[DONE]"
  {
    assert ObjectText(c.stringify(j));
    assert !IsSpace('{') && !IsSpace('}');
    assert "[DONE]"[0] == '[';
  }

  /** A record as its lines. */
  function RecordLines(c: Codec, r: Record): seq<Line> {
    match r
    case Named(name, data) => [EventField(name), DataField(c.stringify(data))]
    case Bare(data) => [DataField(c.stringify(data))]
    case Terminator => [DataField("[DONE]")]
  }

  /** How a record's lines end: `\n` or `\r\n` between them, any blank line after them. */
  datatype Ends = Ends(line: string, blank: string)

  predicate AnyEnds(e: Ends) {
    LineEnd(e.line) && Mark(BlankLine, e.blank)
  }

  /** A record up to its blank line, with a given line end. */
  function BodyWith(c: Codec, r: Record, e: Ends): string {
    match r
    case Named(name, data) => "event: " + name + e.line + ("data: " + c.stringify(data))
    case Bare(data) => "data: " + c.stringify(data)
    case Terminator => "data: [DONE]"
  }

  function TextWith(c: Codec, rs: seq<Record>, ends: seq<Ends>): string
    requires |rs| == |ends|
  {
    if rs == [] then "" else BodyWith(c, rs[0], ends[0]) + ends[0].blank + TextWith(c, rs[1..], ends[1..])
  }

  lemma LineTextsAre(c: Codec, r: Record)
    ensures r.Named? ==> LineTexts(RecordLines(c, r)) == ["event: " + r.name, "data: " + c.stringify(r.data)]
    ensures r.Bare? ==> LineTexts(RecordLines(c, r)) == ["data: " + c.stringify(r.data)]
    ensures r.Terminator? ==> LineTexts(RecordLines(c, r)) == ["data: [DONE]"]
  {
    if r.Named? {
      var first, second := EventField(r.name), DataField(c.stringify(r.data));
      assert [first, second][1..] == [second];
      assert LineTexts([second]) == [LineText(second)] + LineTexts([]);
    } else {
      var only := RecordLines(c, r)[0];
      assert LineTexts([only]) == [LineText(only)] + LineTexts([]);
      assert "data: " + "[DONE]" == "data: [DONE]";
    }
  }

  /** A record's body is the block of its lines. */
  lemma BodyIsBlock(c: Codec, r: Record, e: Ends)
    ensures var ends := if r.Named? then [e.line] else [];
            BodyWith(c, r, e) == BlockText(RecordLines(c, r), ends)
  {
    LineTextsAre(c, r);
    if r.Named? {
      var first, second := "event: " + r.name, "data: " + c.stringify(r.data);
      assert [first, second][1..] == [second] && [e.line][1..] == [];
      assert Joined([second], []) == second;
    }
  }

  lemma RecordFields(c: Codec, r: Record)
    ensures Names(RecordLines(c, r)) == if r.Named? then [r.name] else []
    ensures Datas(RecordLines(c, r)) == [if r.Terminator? then "[DONE]" else c.stringify(r.data)]
  {
    var lines := RecordLines(c, r);
    if r.Named? {
      assert lines[1..] == [DataField(c.stringify(r.data))];
      assert Names(lines[1..]) == [] + Names([]) && Datas(lines[1..]) == [c.stringify(r.data)] + Datas([]);
    } else {
      assert Names(lines) == [] + Names([]) && Datas(lines) == [lines[0].value] + Datas([]);
    }
  }

  lemma LinesWritten(d: Dialect, c: Codec, r: Record)
    requires Lawful(c) && Readable(d, r)
    ensures forall l :: l in RecordLines(c, r) ==> Written(l)
  {
    if !r.Terminator? {
      ObjectWord(c, r.data);
    }
  }

  /** A record's body is one block, and parsing that block gives the record's event. */
  lemma BodyParses(d: Dialect, c: Codec, r: Record, e: Ends)
    requires Lawful(c) && Readable(d, r) && AnyEnds(e)
    ensures ParseBlock(d, c, BodyWith(c, r, e)) == [EventOf(r)]
  {
    var ends := if r.Named? then [e.line] else [];
    BodyIsBlock(c, r, e);
    RecordFields(c, r);
    if !r.Terminator? {
      ObjectWord(c, r.data);
    }
    LinesWritten(d, c, r);
    BlockIsRead(RecordLines(c, r), ends, BodyWith(c, r, e));
    var text := if r.Terminator? then "[DONE]" else c.stringify(r.data);
    assert JoinLines([text]) == text;
  }

  lemma DataEnds(word: string)
    requires Word(word)
    ensures NoBreaks("data: " + word) && Last("data: " + word) == Last(word)
    ensures Last(word) != '\r' && Last(word) != '\n'
  {
    assert "data:" + " " + word == "data: " + word;
    FieldLine("data:", word);
    assert Last(word) in word;
  }

  lemma BodyIsOneBlock(d: Dialect, c: Codec, r: Record, e: Ends)
    requires Lawful(c) && Readable(d, r) && AnyEnds(e)
    ensures Unbroken(BlankLine, BodyWith(c, r, e))
    ensures BodyWith(c, r, e) != "" && Last(BodyWith(c, r, e)) != '\r' && Last(BodyWith(c, r, e)) != '\n'
  {
    FreeIffUnbroken(BlankLine, BodyWith(c, r, e));
    if r.Terminator? {
      assert "data: " + "[DONE]" == "data: [DONE]";
      DataEnds("[DONE]");
      OneLine("data: [DONE]");
    } else {
      ObjectWord(c, r.data);
      DataEnds(c.stringify(r.data));
      if r.Named? {
        assert "event:" + " " + r.name == "event: " + r.name;
        FieldLine("event:", r.name);
        TwoLines("event: " + r.name, e.line, "data: " + c.stringify(r.data));
      } else {
        OneLine("data: " + c.stringify(r.data));
      }
    }
  }

  /** Whatever line ends its records are written with, a transcript parses back to exactly its records. */
  lemma {:induction false} AnyEndsParse(d: Dialect, c: Codec, rs: seq<Record>, ends: seq<Ends>)
    requires Lawful(c) && forall r :: r in rs ==> Readable(d, r)
    requires |ends| == |rs| && forall e :: e in ends ==> AnyEnds(e)
    ensures Parse(d, c, TextWith(c, rs, ends)) == EventsOf(rs)
  {
    if rs == [] {
      assert Split(BlankLine, "") == [""];
      BlankBlock(d, c, "");
      assert ParseBlocks(d, c, [""]) == ParseBlock(d, c, "") + ParseBlocks(d, c, []);
    } else {
      assert ends[0] in ends && rs[0] in rs;
      var body, rest := BodyWith(c, rs[0], ends[0]), TextWith(c, rs[1..], ends[1..]);
      BodyParses(d, c, rs[0], ends[0]);
      BodyIsOneBlock(d, c, rs[0], ends[0]);
      SplitFirst(BlankLine, body, ends[0].blank, rest);
      AnyEndsParse(d, c, rs[1..], ends[1..]);
      assert ([body] + Split(BlankLine, rest))[1..] == Split(BlankLine, rest);
    }
  }

  /** The line ends of the encoders. */
  function PlainEnds(n: nat): (ends: seq<Ends>)
    ensures |ends| == n && forall e :: e in ends ==> AnyEnds(e)
  {
    if n == 0 then [] else [Ends("\n", "\n\n")] + PlainEnds(n - 1)
  }

  lemma {:induction false} PlainText(c: Codec, rs: seq<Record>)
    ensures RenderAll(c, rs) == TextWith(c, rs, PlainEnds(|rs|))
  {
    if rs != [] {
      PlainText(c, rs[1..]);
      assert PlainEnds(|rs|)[1..] == PlainEnds(|rs| - 1);
    }
  }

  /** Over any chunking, the upstream parser reads back exactly the records written. */
  lemma {:induction false} TranscriptParses(d: Dialect, c: Codec, rs: seq<Record>)
    requires Lawful(c) && forall r :: r in rs ==> Readable(d, r)
    ensures Parse(d, c, RenderAll(c, rs)) == EventsOf(rs)
  {
    PlainText(c, rs);
    AnyEndsParse(d, c, rs, PlainEnds(|rs|));
  }
}
