/**
 * What the incremental pipelines share: the decoding of a body that arrives in chunks,
 * and what a finished stream reports.
 */
module StreamPipeline {
  import opened Base
  import opened Json
  import opened Sse
  import SR = SseRecords
  import A = AnthropicStream
  import C = ChatStream
  import opened StreamCapture

  /** Token counts as reported to the gateway. */
  datatype Report = Report(input: Option<int>, output: Option<int>, cached: Option<int>)

  const NO_REPORT := Report(None, None, None)

  /** What a finished stream reports: its usage, and the captured response when there is anything in it. */
  datatype Completion = Completion(usage: Report, response: Option<Capture>)

  function Worth(held: Capture): Option<Capture> {
    if held.text == "" && held.calls == [] then None else Some(held)
  }

  // ----- Decoding a body that arrives in chunks -----

  lemma {:induction false} DecodeChatConcat(a: seq<SR.StreamEvent>, b: seq<SR.StreamEvent>)
    ensures C.DecodeAll(a + b) == C.DecodeAll(a) + C.DecodeAll(b)
    decreases a
  {
    if a == [] {
      assert a + b == b;
    } else {
      assert (a + b)[1..] == a[1..] + b;
      DecodeChatConcat(a[1..], b);
      Assoc(C.Decode(a[0]), C.DecodeAll(a[1..]), C.DecodeAll(b));
    }
  }

  lemma {:induction false} DecodeAnthropicConcat(a: seq<SR.StreamEvent>, b: seq<SR.StreamEvent>)
    ensures A.DecodeAll(a + b) == A.DecodeAll(a) + A.DecodeAll(b)
    decreases a
  {
    if a == [] {
      assert a + b == b;
    } else {
      assert (a + b)[1..] == a[1..] + b;
      DecodeAnthropicConcat(a[1..], b);
      var first := A.Decode(a[0]);
      Assoc(if first.Some? then [first.value] else [], A.DecodeAll(a[1..]), A.DecodeAll(b));
    }
  }

  /** The decoded events of one frame. */
  method ChatFrame(c: Codec, frame: string) returns (events: seq<C.Upstream>)
    ensures events == C.DecodeAll(SR.Parse(SR.OpenAI, c, frame))
  {
    var raws := SR.ParseOpenAISse(c, frame);
    events := [];
    assert raws[0..] == raws;
    for i := 0 to |raws|
      invariant C.DecodeAll(raws) == events + C.DecodeAll(raws[i..])
    {
      assert raws[i..][1..] == raws[i + 1..];
      Assoc(events, C.Decode(raws[i]), C.DecodeAll(raws[i + 1..]));
      events := events + C.Decode(raws[i]);
    }
    assert raws[|raws|..] == [] && events + [] == events;
  }

  method AnthropicFrame(c: Codec, frame: string) returns (events: seq<A.Upstream>)
    ensures events == A.DecodeAll(SR.Parse(SR.Anthropic, c, frame))
  {
    var raws := SR.ParseAnthropicSse(c, frame);
    events := [];
    assert raws[0..] == raws;
    for i := 0 to |raws|
      invariant A.DecodeAll(raws) == events + A.DecodeAll(raws[i..])
    {
      assert raws[i..][1..] == raws[i + 1..];
      var decoded := A.Decode(raws[i]);
      Assoc(events, if decoded.Some? then [decoded.value] else [], A.DecodeAll(raws[i + 1..]));
      assert events + [] == events;
      if decoded.Some? {
        events := events + [decoded.value];
      }
    }
    assert raws[|raws|..] == [] && events + [] == events;
  }

  /** The decoded events of a list of frames. */
  ghost function ChatFrames(c: Codec, frames: seq<string>): seq<C.Upstream> {
    C.DecodeAll(SR.ParseFrames(SR.OpenAI, c, frames))
  }

  ghost function AnthropicFrames(c: Codec, frames: seq<string>): seq<A.Upstream> {
    A.DecodeAll(SR.ParseFrames(SR.Anthropic, c, frames))
  }

  lemma NextOfFrames(c: Codec, frames: seq<string>, i: nat)
    requires i < |frames|
    ensures ChatFrames(c, frames[i..]) == C.DecodeAll(SR.Parse(SR.OpenAI, c, frames[i]))
            + ChatFrames(c, frames[i + 1..])
    ensures AnthropicFrames(c, frames[i..]) ==
            A.DecodeAll(SR.Parse(SR.Anthropic, c, frames[i])) + AnthropicFrames(c, frames[i + 1..])
  {
    assert frames[i..][1..] == frames[i + 1..];
    DecodeChatConcat(SR.Parse(SR.OpenAI, c, frames[i]), SR.ParseFrames(SR.OpenAI, c, frames[i + 1..]));
    DecodeAnthropicConcat(SR.Parse(SR.Anthropic, c, frames[i]), SR.ParseFrames(SR.Anthropic, c, frames[i + 1..]));
  }

  /** `chatEvents`: the decoded events of a body, whatever its chunk boundaries. */
  method ChatEvents(c: Codec, chunks: seq<string>) returns (events: seq<C.Upstream>)
    ensures events == C.DecodeAll(SR.Parse(SR.OpenAI, c, Flatten(chunks)))
  {
    var frames := SseFrames(chunks);
    events := [];
    assert frames[0..] == frames;
    for i := 0 to |frames|
      invariant ChatFrames(c, frames) == events + ChatFrames(c, frames[i..])
    {
      var more := ChatFrame(c, frames[i]);
      NextOfFrames(c, frames, i);
      Assoc(events, more, ChatFrames(c, frames[i + 1..]));
      events := events + more;
    }
    assert frames[|frames|..] == [] && events + [] == events;
    SR.FramesParse(SR.OpenAI, c, Flatten(chunks));
  }

  /** `anthropicEvents`: likewise for an Anthropic body. */
  method AnthropicEvents(c: Codec, chunks: seq<string>) returns (events: seq<A.Upstream>)
    ensures events == A.DecodeAll(SR.Parse(SR.Anthropic, c, Flatten(chunks)))
  {
    var frames := SseFrames(chunks);
    events := [];
    assert frames[0..] == frames;
    for i := 0 to |frames|
      invariant AnthropicFrames(c, frames) == events + AnthropicFrames(c, frames[i..])
    {
      var more := AnthropicFrame(c, frames[i]);
      NextOfFrames(c, frames, i);
      Assoc(events, more, AnthropicFrames(c, frames[i + 1..]));
      events := events + more;
    }
    assert frames[|frames|..] == [] && events + [] == events;
    SR.FramesParse(SR.Anthropic, c, Flatten(chunks));
  }

  // ----- What was noted so far -----

  /** What was noted of the first `i` live events. */
  ghost predicate NotedUpTo<E>(note: E -> seq<Note>, held: Capture, live: seq<E>, i: nat) {
    i <= |live| && held == NotedAll(NotesOf(note, live[..i]))
  }

  lemma NotedNext<E>(note: E -> seq<Note>, held: Capture, live: seq<E>, i: nat, now: Capture)
    requires NotedUpTo(note, held, live, i) && i < |live| && |note(live[i])| <= 1
    requires now == if note(live[i]) == [] then held else Noted(held, note(live[i])[0])
    ensures NotedUpTo(note, now, live, i + 1)
  {
    assert live[..i + 1][..i] == live[..i];
    var notes := NotesOf(note, live[..i]);
    if note(live[i]) == [] {
      assert notes + [] == notes;
    } else {
      assert (notes + note(live[i]))[..|notes|] == notes;
    }
  }

  lemma NotedWhole<E>(note: E -> seq<Note>, held: Capture, live: seq<E>)
    requires NotedUpTo(note, held, live, |live|)
    ensures held == NotedAll(NotesOf(note, live))
  {
    assert live[..|live|] == live;
  }
}
