/** The assistant response rebuilt from a stream for the history log, bounded in size. */
module StreamCapture {
  import opened Base
  import A = AnthropicStream
  import C = ChatStream

  const MAX_CAPTURED_TEXT := 128 * 1024

  /** What the log takes note of in a stream event. */
  datatype Note = TextNote(text: string) | CallNote(name: string) | ArgumentsNote(delta: string)

  datatype CapturedCall = CapturedCall(name: string, arguments: string)

  datatype Capture = Capture(text: string, truncated: bool, calls: seq<CapturedCall>)

  const NOTHING_YET := Capture("", false, [])

  function Cap(s: string): (t: string)
    ensures |t| <= MAX_CAPTURED_TEXT
    ensures |s| <= MAX_CAPTURED_TEXT ==> t == s
  {
    if |s| <= MAX_CAPTURED_TEXT then s else s[..MAX_CAPTURED_TEXT]
  }

  /** Add a fragment to the latest of some calls; before the first call there is nothing to add to. */
  function ToLatest(calls: seq<CapturedCall>, delta: string): seq<CapturedCall> {
    if calls == [] then []
    else
      var n := |calls| - 1;
      calls[..n] + [calls[n].(arguments := Cap(calls[n].arguments + delta))]
  }

  function Noted(s: Capture, n: Note): Capture {
    match n
    case TextNote(delta) =>
      Capture(Cap(s.text + delta),
              s.truncated || |s.text| >= MAX_CAPTURED_TEXT || |s.text + delta| > MAX_CAPTURED_TEXT, s.calls)
    case CallNote(name) => s.(calls := s.calls + [CapturedCall(name, "")])
    case ArgumentsNote(delta) => s.(calls := ToLatest(s.calls, delta))
  }

  function NotedAll(notes: seq<Note>): Capture {
    if notes == [] then NOTHING_YET else Noted(NotedAll(notes[..|notes| - 1]), notes[|notes| - 1])
  }

  class ResponseAccumulator {
    var text: string
    var truncated: bool
    var toolCalls: seq<CapturedCall>

    ghost function Fields(): Capture
      reads this
    {
      Capture(text, truncated, toolCalls)
    }

    /** Nothing held is over the cap. */
    ghost predicate Valid()
      reads this
    {
      && |text| <= MAX_CAPTURED_TEXT
      && forall call :: call in toolCalls ==> |call.arguments| <= MAX_CAPTURED_TEXT
    }

    constructor ()
      ensures Valid() && Fields() == NOTHING_YET
    {
      text, truncated, toolCalls := "", false, [];
    }

    method AddText(delta: string)
      requires Valid()
      modifies this
      ensures Valid() && Fields() == Noted(old(Fields()), TextNote(delta))
    {
      if |text| >= MAX_CAPTURED_TEXT {
        truncated := true;
        assert (text + delta)[..MAX_CAPTURED_TEXT] == text;
        return;
      }
      var room := MAX_CAPTURED_TEXT - |text|;
      if |delta| > room {
        assert text + delta[..room] == (text + delta)[..MAX_CAPTURED_TEXT];
        text := text + delta[..room];
        truncated := true;
        return;
      }
      text := text + delta;
    }

    method StartToolCall(name: string)
      requires Valid()
      modifies this
      ensures Valid() && Fields() == Noted(old(Fields()), CallNote(name))
    {
      toolCalls := toolCalls + [CapturedCall(name, "")];
    }

    method AddToolArgs(delta: string)
      requires Valid()
      modifies this
      ensures Valid() && Fields() == Noted(old(Fields()), ArgumentsNote(delta))
    {
      if toolCalls == [] {
        return;
      }
      var n := |toolCalls| - 1;
      var current := toolCalls[n];
      assert current in toolCalls;
      if |current.arguments| >= MAX_CAPTURED_TEXT {
        assert (current.arguments + delta)[..MAX_CAPTURED_TEXT] == current.arguments;
        assert Cap(current.arguments + delta) == current.arguments;
        assert toolCalls == toolCalls[..n] + [current];
        return;
      }
      var kept := delta[..Min(|delta|, MAX_CAPTURED_TEXT - |current.arguments|)];
      assert current.arguments + kept == Cap(current.arguments + delta);
      toolCalls := toolCalls[..n] + [current.(arguments := current.arguments + kept)];
    }

    /** Feed one note to the field it concerns. */
    method Take(notes: seq<Note>)
      requires Valid() && |notes| <= 1
      modifies this
      ensures Valid() && Fields() == if notes == [] then old(Fields()) else Noted(old(Fields()), notes[0])
    {
      if notes == [] {
        return;
      }
      match notes[0] {
        case TextNote(delta) => AddText(delta);
        case CallNote(name) => StartToolCall(name);
        case ArgumentsNote(delta) => AddToolArgs(delta);
      }
    }
  }

  /** `accumulateAnthropic`: thinking and signatures are deliberately not recorded. */
  function AnthropicNote(e: A.Upstream): (notes: seq<Note>)
    ensures |notes| <= 1
  {
    match e
    case UpText(_, text) => [TextNote(text)]
    case UpBlockStart(_, block) => if block.ToolBlock? then [CallNote(block.name)] else []
    case UpJson(_, partial) => [ArgumentsNote(partial)]
    case _ => []
  }

  /** `accumulateChat`. */
  function ChatNote(e: C.Upstream): (notes: seq<Note>)
    ensures |notes| <= 1
  {
    match e
    case UpText(text) => [TextNote(text)]
    case UpToolCallStart(_, _, name) => [CallNote(name)]
    case UpToolArgs(_, delta) => [ArgumentsNote(delta)]
    case _ => []
  }

  function NotesOf<E>(note: E -> seq<Note>, events: seq<E>): seq<Note> {
    if events == [] then [] else NotesOf(note, events[..|events| - 1]) + note(events[|events| - 1])
  }

  // ----- What is captured, said of the notes alone -----

  /** The whole text, and the whole calls, that went by. */
  function Said(notes: seq<Note>): string {
    if notes == [] then ""
    else Said(notes[..|notes| - 1]) + match notes[|notes| - 1] case TextNote(text) => text case _ => ""
  }

  function Called(notes: seq<Note>): seq<CapturedCall> {
    if notes == [] then []
    else
      var calls := Called(notes[..|notes| - 1]);
      var n := |calls| - 1;
      match notes[|notes| - 1]
      case TextNote(_) => calls
      case CallNote(name) => calls + [CapturedCall(name, "")]
      case ArgumentsNote(delta) =>
        if calls == [] then calls else calls[..n] + [calls[n].(arguments := calls[n].arguments + delta)]
  }

  /** An empty text delta came when the text was exactly as long as the cap. */
  function EmptyAtCap(notes: seq<Note>): bool {
    if notes == [] then false
    else
      var before := notes[..|notes| - 1];
      EmptyAtCap(before) || (notes[|notes| - 1] == TextNote("") && |Said(before)| == MAX_CAPTURED_TEXT)
  }

  function CapCalls(calls: seq<CapturedCall>): seq<CapturedCall> {
    seq(|calls|, i requires 0 <= i < |calls| => calls[i].(arguments := Cap(calls[i].arguments)))
  }

  lemma CapGrows(a: string, b: string)
    ensures Cap(Cap(a) + b) == Cap(a + b)
  {
    if |a| > MAX_CAPTURED_TEXT {
      assert (a[..MAX_CAPTURED_TEXT] + b)[..MAX_CAPTURED_TEXT] == a[..MAX_CAPTURED_TEXT];
      assert (a + b)[..MAX_CAPTURED_TEXT] == a[..MAX_CAPTURED_TEXT];
    }
  }

  lemma CapLatest(calls: seq<CapturedCall>, delta: string)
    requires calls != []
    ensures var n := |calls| - 1;
            ToLatest(CapCalls(calls), delta) ==
            CapCalls(calls[..n] + [calls[n].(arguments := calls[n].arguments + delta)])
  {
    CapGrows(calls[|calls| - 1].arguments, delta);
  }

  /**
   * The log holds the whole text and every call's whole arguments, each cut at the cap. It calls itself
   * truncated when text was cut, and also when an empty delta arrives at the cap; cut arguments do not count.
   */
  lemma {:induction false} CaptureIs(notes: seq<Note>)
    ensures var held := NotedAll(notes);
            && held.text == Cap(Said(notes)) && held.calls == CapCalls(Called(notes))
            && (held.truncated <==> |Said(notes)| > MAX_CAPTURED_TEXT || EmptyAtCap(notes))
  {
    if notes != [] {
      var before, last := notes[..|notes| - 1], notes[|notes| - 1];
      CaptureIs(before);
      match last {
        case TextNote(text) => CapGrows(Said(before), text);
        case CallNote(name) => assert CapCalls(Called(before) + [CapturedCall(name, "")]) ==
                                      CapCalls(Called(before)) + [CapturedCall(name, "")];
        case ArgumentsNote(delta) =>
          if Called(before) != [] {
            CapLatest(Called(before), delta);
          }
      }
      assert last.TextNote? || Said(before) + "" == Said(before);
    }
  }
}
