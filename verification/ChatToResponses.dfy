/**
 * Incremental Chat to Responses translation, and the batch translation it must
 * agree with.
 */
module ChatToResponses {
  import opened Base
  import opened Json
  import C = ChatStream
  import R = ResponsesStream
  import opened ResponsesReading
  import opened ChatHistory

  datatype OpenItem = NoItem | MessageOpen | CallOpen

  /** The fields of the translator; `model` never changes. */
  datatype State = State(model: string, started: bool, finished: bool, open: OpenItem,
                         usage: Option<C.Usage>, finishReason: Option<string>)

  function Initial(model: string): State {
    State(model, false, false, NoItem, None, None)
  }

  function ToUsage(u: C.Usage): R.Usage {
    R.Usage(u.prompt, u.completion, u.cached, u.reasoning)
  }

  function MapUsage(usage: Option<C.Usage>): Option<R.Usage> {
    if usage.Some? then Some(ToUsage(usage.value)) else None
  }

  function ToStatus(reason: Option<string>): R.Status {
    if reason == Some("length") || reason == Some("content_filter") then R.Incomplete else R.Completed
  }

  /** The status of a stream cut short before `[DONE]`. */
  function CutStatus(reason: Option<string>): R.Status {
    if reason.None? then R.Incomplete else ToStatus(reason)
  }

  function IncompleteReason(status: R.Status, reason: Option<string>): Option<string> {
    if status != R.Incomplete then None
    else if reason == Some("length") then Some("max_output_tokens")
    else Some(reason.GetOr("upstream_stream_ended"))
  }

  function Opening(s: State): seq<R.Event> {
    if s.started then [] else [R.ResponseCreated(s.model, None)]
  }

  function Closing(s: State): seq<R.Event> {
    if s.open == NoItem then [] else [R.ItemStop]
  }

  function Terminal(s: State, status: R.Status): R.Event {
    R.ResponseDone(status, MapUsage(s.usage), IncompleteReason(status, s.finishReason), None)
  }

  function Finish(s: State, status: R.Status): Emit<State, R.Event> {
    Emit(s.(started := true, finished := true, open := NoItem), Opening(s) + Closing(s) + [Terminal(s, status)])
  }

  function Push(s: State, e: C.Upstream): Emit<State, R.Event> {
    if s.finished then Emit(s, [])
    else
      match e
      case UpStart(_, _) => Emit(s.(started := true), Opening(s))
      case UpText(text) =>
        Emit(s.(started := true, open := MessageOpen),
             Opening(s)
             + (if s.open == MessageOpen then [] else Closing(s) + [R.ItemStart(R.MessageItem)])
             + [R.TextDelta(text)])
      case UpToolCallStart(_, id, name) =>
        Emit(s.(started := true, open := CallOpen), Opening(s) + Closing(s) + [R.ItemStart(R.CallItem(id, name))])
      case UpToolArgs(_, delta) =>
        Emit(s, if s.open == CallOpen then [R.ArgumentsDelta(delta)] else [])
      case UpFinish(reason) => Emit(s.(finishReason := reason.OrElse(s.finishReason)), [])
      case UpUsage(usage) => Emit(s.(usage := Some(usage)), [])
      case UpDone => Finish(s, ToStatus(s.finishReason))
      case UpReasoning(_) => Emit(s, [])
  }

  function End(s: State): Emit<State, R.Event> {
    if s.finished then Emit(s, []) else Finish(s, CutStatus(s.finishReason))
  }

  /** Everything the translator emits for a stream that then ends. */
  function Translate(model: string, events: seq<C.Upstream>): seq<R.Event> {
    var fed := Feed(Push, Initial(model), events);
    fed.out + End(fed.state).out
  }

  class ChatToResponsesTranslator {
    const model: string
    var started: bool
    var finished: bool
    var openItem: OpenItem
    var usage: Option<C.Usage>
    var finishReason: Option<string>

    ghost function Fields(): State
      reads this
    {
      State(model, started, finished, openItem, usage, finishReason)
    }

    constructor (m: string)
      ensures Fields() == Initial(m)
    {
      model, started, finished, openItem, usage, finishReason := m, false, false, NoItem, None, None;
    }

    method PushEvent(e: C.Upstream) returns (out: seq<R.Event>)
      modifies this
      ensures Emit(Fields(), out) == Push(old(Fields()), e)
    {
      if finished {
        return [];
      }
      match e {
        case UpStart(_, _) =>
          out := Open();
        case UpText(text) =>
          var opening := Open();
          var item := OpenMessage();
          out := opening + item + [R.TextDelta(text)];
        case UpToolCallStart(_, id, name) =>
          var opening := Open();
          var closing := CloseItem();
          openItem := CallOpen;
          out := opening + closing + [R.ItemStart(R.CallItem(id, name))];
        case UpToolArgs(_, delta) =>
          out := if openItem == CallOpen then [R.ArgumentsDelta(delta)] else [];
        case UpFinish(reason) =>
          finishReason := reason.OrElse(finishReason);
          out := [];
        case UpUsage(u) =>
          usage := Some(u);
          out := [];
        case UpDone =>
          out := FinishWith(ToStatus(finishReason));
        case UpReasoning(_) =>
          out := [];
      }
    }

    method EndStream() returns (out: seq<R.Event>)
      modifies this
      ensures Emit(Fields(), out) == End(old(Fields()))
    {
      if finished {
        return [];
      }
      out := FinishWith(CutStatus(finishReason));
    }

    method Open() returns (out: seq<R.Event>)
      modifies this`started
      ensures started && out == Opening(old(Fields()))
    {
      if started {
        return [];
      }
      started := true;
      out := [R.ResponseCreated(model, None)];
    }

    method OpenMessage() returns (out: seq<R.Event>)
      modifies this`openItem
      ensures openItem == MessageOpen
      ensures out == if old(openItem) == MessageOpen then [] else Closing(old(Fields())) + [R.ItemStart(R.MessageItem)]
    {
      if openItem == MessageOpen {
        return [];
      }
      var closing := CloseItem();
      openItem := MessageOpen;
      out := closing + [R.ItemStart(R.MessageItem)];
    }

    method CloseItem() returns (out: seq<R.Event>)
      modifies this`openItem
      ensures openItem == NoItem && out == Closing(old(Fields()))
    {
      if openItem == NoItem {
        return [];
      }
      openItem := NoItem;
      out := [R.ItemStop];
    }

    method FinishWith(status: R.Status) returns (out: seq<R.Event>)
      requires !finished
      modifies this
      ensures Emit(Fields(), out) == Finish(old(Fields()), status)
    {
      var opening := Open();
      var closing := CloseItem();
      finished := true;
      out := opening + closing +
             [R.ResponseDone(status, MapUsage(usage), IncompleteReason(status, finishReason), None)];
    }
  }

  // ----- What a flat delta stream says, grouped -----

  /** The outputs a run of events amounts to: text joins the message before it, arguments join the call before them. */
  function Outputs(events: seq<C.Upstream>): seq<R.Output> {
    if events == [] then []
    else Grouped(Outputs(events[..|events| - 1]), events[|events| - 1])
  }

  function Grouped(outputs: seq<R.Output>, e: C.Upstream): seq<R.Output> {
    var n := |outputs|;
    match e
    case UpText(text) =>
      if n > 0 && outputs[n - 1].Message? then outputs[n - 1 := R.Message(outputs[n - 1].text + text)]
      else outputs + [R.Message(text)]
    case UpToolCallStart(_, id, name) => outputs + [R.FunctionCall(id, name, "")]
    case UpToolArgs(_, delta) =>
      if n > 0 && outputs[n - 1].FunctionCall?
      then outputs[n - 1 := outputs[n - 1].(arguments := outputs[n - 1].arguments + delta)]
      else outputs
    case _ => outputs
  }

  /** The result any upstream stream amounts to. */
  function ResultOf(model: string, events: seq<C.Upstream>): R.ResponseResult {
    var live := Live(events);
    var status := if C.UpDone in events then ToStatus(Reason(live)) else CutStatus(Reason(live));
    R.ResponseResult(None, model, status, IncompleteReason(status, Reason(live)), None, Outputs(live),
                     MapUsage(Reported(live)))
  }

  // ----- The translator keeps to it -----

  /** A script opened, in order and not yet closed, with these outputs complete and this one being written. */
  ghost predicate Wrote(out: seq<R.Event>, model: string, complete: seq<R.Output>, writing: Option<R.Output>) {
    && out != [] && out[0] == R.ResponseCreated(model, None) && !out[|out| - 1].ResponseDone?
    && R.Ordered(out) && R.Writing(out) == writing && R.CompletedOutputs(out) == complete
  }

  lemma WroteOpen(model: string)
    ensures Wrote([R.ResponseCreated(model, None)], model, [], None)
  {
    R.Snoc([], R.ResponseCreated(model, None));
    assert [] + [R.ResponseCreated(model, None)] == [R.ResponseCreated(model, None)];
  }

  lemma WroteStart(out: seq<R.Event>, model: string, complete: seq<R.Output>, item: R.ItemInit)
    requires Wrote(out, model, complete, None)
    ensures Wrote(out + [R.ItemStart(item)], model, complete, Some(R.Empty(item)))
  {
    R.Snoc(out, R.ItemStart(item));
  }

  lemma WroteDelta(out: seq<R.Event>, model: string, complete: seq<R.Output>, o: R.Output, e: R.Event)
    requires Wrote(out, model, complete, Some(o))
    requires if o.Message? then e.TextDelta? else e.ArgumentsDelta?
    ensures Wrote(out + [e], model, complete, Some(R.Extend(o, e)))
  {
    R.Snoc(out, e);
  }

  lemma WroteStop(out: seq<R.Event>, model: string, complete: seq<R.Output>, o: R.Output)
    requires Wrote(out, model, complete, Some(o))
    ensures Wrote(out + [R.ItemStop], model, complete + [o], None)
  {
    R.Snoc(out, R.ItemStop);
  }

  function OpenKind(outputs: seq<R.Output>): OpenItem {
    if outputs == [] then NoItem else if outputs[|outputs| - 1].Message? then MessageOpen else CallOpen
  }

  /** After the events so far, the last output is the one being written and the others are complete. */
  ghost predicate Tracks(s: State, model: string, outputs: seq<R.Output>, out: seq<R.Event>) {
    && s.model == model && !s.finished && s.open == OpenKind(outputs)
    && (if !s.started then out == [] && outputs == []
        else if outputs == [] then Wrote(out, model, [], None)
        else Wrote(out, model, outputs[..|outputs| - 1], Some(outputs[|outputs| - 1])))
  }

  lemma Opened(s: State, model: string, outputs: seq<R.Output>, out: seq<R.Event>)
    requires Tracks(s, model, outputs, out)
    ensures Tracks(s.(started := true), model, outputs, out + Opening(s))
  {
    if s.started {
      assert out + [] == out;
    } else {
      WroteOpen(model);
      assert out + Opening(s) == [R.ResponseCreated(model, None)];
    }
  }

  lemma Closed(s: State, model: string, outputs: seq<R.Output>, out: seq<R.Event>)
    requires Tracks(s, model, outputs, out)
    ensures Wrote(out + Opening(s) + Closing(s), model, outputs, None)
  {
    Opened(s, model, outputs, out);
    var now := out + Opening(s);
    if outputs == [] {
      assert now + [] == now;
    } else {
      WroteStop(now, model, outputs[..|outputs| - 1], outputs[|outputs| - 1]);
      assert outputs[..|outputs| - 1] + [outputs[|outputs| - 1]] == outputs;
    }
  }

  lemma LastOf(outputs: seq<R.Output>, o: R.Output)
    ensures var now := outputs + [o];
            now[..|now| - 1] == outputs && now[|now| - 1] == o
  {
  }

  /** Opening a new item: every earlier output is complete, the new one is being written. */
  lemma Started(s: State, model: string, outputs: seq<R.Output>, out: seq<R.Event>, item: R.ItemInit)
    requires Tracks(s, model, outputs, out)
    ensures Wrote(out + (Opening(s) + Closing(s) + [R.ItemStart(item)]), model, outputs, Some(R.Empty(item)))
  {
    Closed(s, model, outputs, out);
    WroteStart(out + Opening(s) + Closing(s), model, outputs, item);
    assert out + (Opening(s) + Closing(s) + [R.ItemStart(item)]) == out + Opening(s) + Closing(s) + [R.ItemStart(item)];
  }

  lemma TextJoins(s: State, model: string, outputs: seq<R.Output>, out: seq<R.Event>, text: string)
    requires Tracks(s, model, outputs, out) && s.open == MessageOpen
    ensures var step := Push(s, C.UpText(text));
            Tracks(step.state, model, Grouped(outputs, C.UpText(text)), out + step.out)
  {
    var n := |outputs| - 1;
    WroteDelta(out, model, outputs[..n], outputs[n], R.TextDelta(text));
    assert Push(s, C.UpText(text)).out == [R.TextDelta(text)];
    assert Grouped(outputs, C.UpText(text))[..n] == outputs[..n];
  }

  lemma TextBegins(s: State, model: string, outputs: seq<R.Output>, out: seq<R.Event>, text: string)
    requires Tracks(s, model, outputs, out) && s.open != MessageOpen
    ensures Grouped(outputs, C.UpText(text)) == outputs + [R.Message(text)]
    ensures Wrote(out + Push(s, C.UpText(text)).out, model, outputs, Some(R.Message(text)))
  {
    Started(s, model, outputs, out, R.MessageItem);
    var begun := Opening(s) + Closing(s) + [R.ItemStart(R.MessageItem)];
    WroteDelta(out + begun, model, outputs, R.Message(""), R.TextDelta(text));
    assert "" + text == text;
    Assoc(out, begun, [R.TextDelta(text)]);
    Assoc(Opening(s), Closing(s), [R.ItemStart(R.MessageItem)]);
  }

  lemma TextTracks(s: State, model: string, outputs: seq<R.Output>, out: seq<R.Event>, text: string)
    requires Tracks(s, model, outputs, out)
    ensures var step := Push(s, C.UpText(text));
            Tracks(step.state, model, Grouped(outputs, C.UpText(text)), out + step.out)
  {
    if s.open == MessageOpen {
      TextJoins(s, model, outputs, out, text);
    } else {
      TextBegins(s, model, outputs, out, text);
      LastOf(outputs, R.Message(text));
    }
  }

  lemma CallTracks(s: State, model: string, outputs: seq<R.Output>, out: seq<R.Event>, e: C.Upstream)
    requires Tracks(s, model, outputs, out) && e.UpToolCallStart?
    ensures Tracks(Push(s, e).state, model, Grouped(outputs, e), out + Push(s, e).out)
  {
    Started(s, model, outputs, out, R.CallItem(e.callId, e.name));
    LastOf(outputs, R.FunctionCall(e.callId, e.name, ""));
  }

  lemma ArgsTrack(s: State, model: string, outputs: seq<R.Output>, out: seq<R.Event>, e: C.Upstream)
    requires Tracks(s, model, outputs, out) && e.UpToolArgs?
    ensures Tracks(Push(s, e).state, model, Grouped(outputs, e), out + Push(s, e).out)
  {
    if s.open == CallOpen {
      var last := outputs[|outputs| - 1];
      WroteDelta(out, model, outputs[..|outputs| - 1], last, R.ArgumentsDelta(e.delta));
      var now := Grouped(outputs, e);
      assert now[..|now| - 1] == outputs[..|outputs| - 1];
    } else {
      assert out + [] == out;
    }
  }

  lemma PushTracks(s: State, model: string, outputs: seq<R.Output>, out: seq<R.Event>, e: C.Upstream)
    requires Tracks(s, model, outputs, out) && !e.UpDone?
    ensures Tracks(Push(s, e).state, model, Grouped(outputs, e), out + Push(s, e).out)
  {
    assert out + [] == out;
    match e {
      case UpText(text) => TextTracks(s, model, outputs, out, text);
      case UpToolCallStart(_, _, _) => CallTracks(s, model, outputs, out, e);
      case UpToolArgs(_, _) => ArgsTrack(s, model, outputs, out, e);
      case UpStart(_, _) => Opened(s, model, outputs, out);
      case _ =>
    }
  }

  /** The translator's finish reason and usage are the last ones reported. */
  predicate Remembers(s: State, past: seq<C.Upstream>) {
    s.finishReason == Reason(past) && s.usage == Reported(past)
  }

  lemma PushRemembers(s: State, past: seq<C.Upstream>, e: C.Upstream)
    requires Remembers(s, past) && !s.finished && !e.UpDone?
    ensures Remembers(Push(s, e).state, past + [e])
    ensures Outputs(past + [e]) == Grouped(Outputs(past), e)
  {
    assert (past + [e])[..|past|] == past;
  }

  lemma HeadAndRest(past: seq<C.Upstream>, events: seq<C.Upstream>)
    requires events != []
    ensures past + [events[0]] + events[1..] == past + events
  {
  }

  lemma {:induction false} FeedTracks(
    s: State, model: string, past: seq<C.Upstream>, events: seq<C.Upstream>, out: seq<R.Event>,
    fed: Emit<State, R.Event>)
    requires Tracks(s, model, Outputs(past), out) && Remembers(s, past) && C.UpDone !in events
    requires fed == Feed(Push, s, events)
    ensures Tracks(fed.state, model, Outputs(past + events), out + fed.out) && Remembers(fed.state, past + events)
    decreases events
  {
    if events == [] {
      assert past + [] == past && out + [] == out;
    } else {
      var e, rest := events[0], events[1..];
      var step := Push(s, e);
      PushTracks(s, model, Outputs(past), out, e);
      PushRemembers(s, past, e);
      var more := Feed(Push, step.state, rest);
      FeedTracks(step.state, model, past + [e], rest, out + step.out, more);
      HeadAndRest(past, events);
      Assoc(out, step.out, more.out);
    }
  }

  lemma {:induction false} FinishedIsSilent(s: State, events: seq<C.Upstream>)
    requires s.finished
    ensures Feed(Push, s, events) == Emit(s, [])
  {
    if events != [] {
      FinishedIsSilent(s, events[1..]);
    }
  }

  /** The terminal events complete every output that was being written. */
  lemma FinishDescribes(s: State, model: string, outputs: seq<R.Output>, out: seq<R.Event>, status: R.Status)
    requires Tracks(s, model, outputs, out)
    ensures var script := out + Finish(s, status).out;
            && R.Complete(script)
            && R.Described(script) == R.ResponseResult(
                 None, model, status, IncompleteReason(status, s.finishReason), None, outputs, MapUsage(s.usage))
  {
    Closed(s, model, outputs, out);
    var closed := out + Opening(s) + Closing(s);
    R.Finish(closed, outputs, Terminal(s, status));
    assert out + Finish(s, status).out == closed + [Terminal(s, status)];
  }

  /** What the translator holds after the live events. */
  lemma LiveTracks(model: string, events: seq<C.Upstream>)
    ensures var live := Live(events);
            var fed := Feed(Push, Initial(model), live);
            Tracks(fed.state, model, Outputs(live), fed.out) && Remembers(fed.state, live)
  {
    var live := Live(events);
    LiveSplits(events);
    FeedTracks(Initial(model), model, [], live, [], Feed(Push, Initial(model), live));
    assert [] + live == live;
    assert [] + Feed(Push, Initial(model), live).out == Feed(Push, Initial(model), live).out;
  }

  lemma LiveUnfinished(model: string, events: seq<C.Upstream>)
    ensures !Feed(Push, Initial(model), Live(events)).state.finished
  {
    LiveTracks(model, events);
  }

  /** A terminator ends the script; nothing after it is translated. */
  lemma TranslateDone(model: string, events: seq<C.Upstream>)
    requires C.UpDone in events
    ensures var fed := Feed(Push, Initial(model), Live(events));
            Translate(model, events) == fed.out + Finish(fed.state, ToStatus(fed.state.finishReason)).out
  {
    var rest := SplitAtDone(events);
    LiveUnfinished(model, events);
    var fed := Feed(Push, Initial(model), Live(events));
    var finish := Push(fed.state, C.UpDone);
    FinishedIsSilent(finish.state, rest);
    FeedStops(Push, Initial(model), Live(events), C.UpDone, rest);
    var out := fed.out + finish.out;
    assert out + [] == out;
  }

  /**
   * Whatever an upstream sends, well formed or not, the translator emits one complete script,
   * and that script describes the grouped result.
   */
  lemma TranslationDescribes(model: string, events: seq<C.Upstream>)
    ensures R.Complete(Translate(model, events))
    ensures R.Described(Translate(model, events)) == ResultOf(model, events)
  {
    var live := Live(events);
    var fed := Feed(Push, Initial(model), live);
    LiveTracks(model, events);
    LiveSplits(events);
    if C.UpDone in events {
      TranslateDone(model, events);
      FinishDescribes(fed.state, model, Outputs(live), fed.out, ToStatus(fed.state.finishReason));
    } else {
      FinishDescribes(fed.state, model, Outputs(live), fed.out, CutStatus(fed.state.finishReason));
    }
  }

  /** So the client always gets a terminal snapshot, and it is the object of that result. */
  lemma AnyStreamSnapshot(model: string, events: seq<C.Upstream>, deps: R.Deps)
    ensures var transcript := R.EncodeStream(Translate(model, events), deps);
            && transcript.Ok? && transcript.value != []
            && R.Response(transcript.value[|transcript.value| - 1]) ==
               Some(R.BuildResponsesObject(ResultOf(model, events), deps))
  {
    TranslationDescribes(model, events);
    R.TerminalSnapshot(Translate(model, events), deps);
  }

  /** The text of a run of events, joined. */
  function TextOf(events: seq<C.Upstream>): string {
    if events == [] then ""
    else TextOf(events[..|events| - 1]) + match events[|events| - 1] case UpText(text) => text case _ => ""
  }

  lemma {:induction false} OutputTextAppend(a: seq<R.Output>, b: seq<R.Output>)
    ensures R.OutputText(a + b) == R.OutputText(a) + R.OutputText(b)
    decreases a
  {
    if a == [] {
      assert a + b == b;
    } else {
      assert (a + b)[1..] == a[1..] + b;
      OutputTextAppend(a[1..], b);
    }
  }

  lemma LastText(outputs: seq<R.Output>, o: R.Output)
    ensures R.OutputText(outputs + [o]) == R.OutputText(outputs) + if o.Message? then o.text else ""
  {
    OutputTextAppend(outputs, [o]);
    assert [o][1..] == [] && (if o.Message? then o.text else "") + "" == (if o.Message? then o.text else "");
  }

  lemma GroupedText(outputs: seq<R.Output>, e: C.Upstream)
    ensures R.OutputText(Grouped(outputs, e)) == R.OutputText(outputs) + match e case UpText(text) => text case _ => ""
  {
    assert R.OutputText(outputs) + "" == R.OutputText(outputs);
    var next := Grouped(outputs, e);
    if next != outputs {
      if |next| == |outputs| {
        var init := outputs[..|outputs| - 1];
        assert outputs == init + [outputs[|outputs| - 1]] && next == init + [next[|outputs| - 1]];
        LastText(init, outputs[|outputs| - 1]);
        LastText(init, next[|outputs| - 1]);
      } else {
        LastText(outputs, next[|outputs|]);
      }
    } else if e.UpText? {
      assert e.text == "";
    }
  }

  lemma {:induction false} TextForwarded(events: seq<C.Upstream>)
    ensures R.OutputText(Outputs(events)) == TextOf(events)
  {
    if events != [] {
      TextForwarded(events[..|events| - 1]);
      GroupedText(Outputs(events[..|events| - 1]), events[|events| - 1]);
    }
  }

  /** The `output_text` of the result any stream amounts to is the text that arrived before its terminator. */
  lemma TextIsForwarded(model: string, events: seq<C.Upstream>)
    ensures R.OutputText(ResultOf(model, events).outputs) == TextOf(Live(events))
  {
    TextForwarded(Live(events));
  }

  // ----- What the grouping means -----

  /** The argument fragments of a run of events, joined. */
  function ArgsOf(events: seq<C.Upstream>): string {
    if events == [] then ""
    else ArgsOf(events[..|events| - 1]) + match events[|events| - 1] case UpToolArgs(_, delta) => delta case _ => ""
  }

  lemma OneMoreOutput(past: seq<C.Upstream>, e: C.Upstream)
    ensures Outputs(past + [e]) == Grouped(Outputs(past), e)
    ensures ArgsOf(past + [e]) == ArgsOf(past) + match e case UpToolArgs(_, delta) => delta case _ => ""
    ensures TextOf(past + [e]) == TextOf(past) + match e case UpText(text) => text case _ => ""
  {
    assert (past + [e])[..|past|] == past;
  }

  lemma GroupsInto(outputs: seq<R.Output>, o: R.Output, e: C.Upstream)
    requires if o.Message? then !e.UpToolCallStart? else !e.UpToolCallStart? && !e.UpText?
    ensures o.FunctionCall? ==>
              Grouped(outputs + [o], e) ==
              outputs + [o.(arguments := o.arguments + match e case UpToolArgs(_, delta) => delta case _ => "")]
    ensures o.Message? ==>
              Grouped(outputs + [o], e) ==
              outputs + [R.Message(o.text + match e case UpText(text) => text case _ => "")]
  {
    var now := outputs + [o];
    assert o.Message? ==> o.text + "" == o.text;
    assert o.FunctionCall? ==> o.arguments + "" == o.arguments;
    assert forall x :: now[|outputs| := x] == outputs + [x];
  }

  /** A call's arguments are all the fragments that follow its start, joined, up to the next text or call. */
  lemma {:induction false} CallGathers(past: seq<C.Upstream>, start: C.Upstream, more: seq<C.Upstream>)
    requires start.UpToolCallStart? && forall e :: e in more ==> !e.UpText? && !e.UpToolCallStart?
    ensures Outputs(past + [start] + more) ==
            Outputs(past) + [R.FunctionCall(start.callId, start.name, ArgsOf(more))]
    decreases more
  {
    OneMoreOutput(past, start);
    if more == [] {
      AppendNone(past + [start]);
    } else {
      var n := |more| - 1;
      var last, call := more[n], R.FunctionCall(start.callId, start.name, ArgsOf(more[..n]));
      assert last in more && more == more[..n] + [last];
      CallGathers(past, start, more[..n]);
      Assoc(past + [start], more[..n], [last]);
      OneMoreOutput(past + [start] + more[..n], last);
      OneMoreOutput(more[..n], last);
      GroupsInto(Outputs(past), call, last);
    }
  }

  /** A message's text is all the text from its first piece on, joined, up to the next call. */
  lemma {:induction false} MessageGathers(past: seq<C.Upstream>, text: string, more: seq<C.Upstream>)
    requires Outputs(past) == [] || Outputs(past)[|Outputs(past)| - 1].FunctionCall?
    requires forall e :: e in more ==> !e.UpToolCallStart?
    ensures Outputs(past + [C.UpText(text)] + more) == Outputs(past) + [R.Message(text + TextOf(more))]
    decreases more
  {
    var start := C.UpText(text);
    OneMoreOutput(past, start);
    if more == [] {
      AppendNone(past + [start]);
      AppendNone(text);
    } else {
      var n := |more| - 1;
      var last, message := more[n], R.Message(text + TextOf(more[..n]));
      assert last in more && more == more[..n] + [last];
      MessageGathers(past, text, more[..n]);
      Assoc(past + [start], more[..n], [last]);
      OneMoreOutput(past + [start] + more[..n], last);
      OneMoreOutput(more[..n], last);
      GroupsInto(Outputs(past), message, last);
      Assoc(text, TextOf(more[..n]), match last case UpText(t) => t case _ => "");
    }
  }

  // ----- What a client reads at the end of any stream -----

  /** The outputs of the items a client reads. */
  function ItemOutputs(items: seq<Item>): seq<R.Output> {
    if items == [] then [] else [items[0].output] + ItemOutputs(items[1..])
  }

  lemma {:induction false} ItemsKeepOutputs(outputs: seq<R.Output>, ids: nat -> string, n: nat)
    ensures ItemOutputs(ItemsFor(outputs, ids, n)) == outputs
    decreases outputs
  {
    if outputs != [] {
      ItemsKeepOutputs(outputs[1..], ids, n + 1);
    }
  }

  /** Why a stream was cut short, by its finish reason and whether its terminator came. */
  function CutReason(reason: Option<string>, terminated: bool): Option<string> {
    if reason == Some("length") then Some("max_output_tokens")
    else if reason == Some("content_filter") then Some("content_filter")
    else if reason.None? && !terminated then Some("upstream_stream_ended")
    else None
  }

  /** What a client reads of a result a stream amounted to. */
  ghost predicate ReadsAs(answer: Answer, model: string, reason: Option<string>, terminated: bool,
                          outputs: seq<R.Output>, text: string, usage: Option<C.Usage>) {
    && answer.model == model && answer.error == None
    && answer.incompleteReason == CutReason(reason, terminated)
    && answer.status == (if CutReason(reason, terminated).Some? then R.Incomplete else R.Completed)
    && ItemOutputs(answer.items) == outputs && answer.text == text
    && answer.usage == if usage.None? then None
                       else Some(R.Usage(usage.value.prompt, usage.value.completion,
                                         Some(usage.value.cached.GetOr(0)), Some(usage.value.reasoning.GetOr(0))))
  }

  lemma ResultReads(model: string, events: seq<C.Upstream>, deps: R.Deps)
    ensures var live := Live(events);
            ReadsAs(AnswerFor(ResultOf(model, events), deps), model, Reason(live), C.UpDone in events, Outputs(live),
                    TextOf(live), Reported(live))
  {
    var r := ResultOf(model, events);
    ItemsKeepOutputs(r.outputs, deps.ids, 1);
    ResponsesReading.TextJoins(r.outputs);
    TextForwarded(Live(events));
    assert "content_filter" != "length";
  }

  /**
   * Whatever an upstream sends, the client's last record is named by the status, and what it reads there is the
   * text and the calls that arrived, the last usage, and the status and reason the finish reason calls for.
   */
  lemma AnyStreamReads(model: string, events: seq<C.Upstream>, deps: R.Deps)
    ensures var transcript, live := R.EncodeStream(Translate(model, events), deps), Live(events);
            && transcript.Ok? && transcript.value != []
            && var last := transcript.value[|transcript.value| - 1];
               && last.Named?
               && last.name == (if CutReason(Reason(live), C.UpDone in events).Some? then "response.incomplete"
                                else "response.completed")
               && Prop(Some(last.data), "response").Some?
               && var read := ReadResponse(Prop(Some(last.data), "response").value);
                  && read.Some?
                  && ReadsAs(read.value, model, Reason(live), C.UpDone in events, Outputs(live), TextOf(live),
                             Reported(live))
  {
    TranslationDescribes(model, events);
    TerminalReads(Translate(model, events), deps);
    ResultReads(model, events, deps);
  }
}
