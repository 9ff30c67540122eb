/** Each item of a Responses transcript: its done records carry exactly what its delta records carried. */
module ResponsesItems {
  import opened Base
  import opened Json
  import opened SseRecords
  import opened ResponsesStream
  import opened ResponsesReading

  /** What a delta event adds to the item being written. */
  function Delta(e: Event): string {
    match e
    case TextDelta(text) => text
    case ArgumentsDelta(delta) => delta
    case _ => ""
  }

  function Joined(deltas: seq<Event>): string {
    if deltas == [] then "" else Joined(deltas[..|deltas| - 1]) + Delta(deltas[|deltas| - 1])
  }

  /** How many records an event makes, by what came before it. */
  function RecordCount(past: seq<Event>, e: Event): nat {
    match e
    case ResponseCreated(_, _) => 2
    case ItemStart(item) => if item.MessageItem? then 2 else 1
    case ItemStop => if Writing(past).Some? && Writing(past).value.Message? then 3 else 2
    case _ => 1
  }

  /** The place of the first record of the `k`-th event in the transcript. */
  function Position(script: seq<Event>, k: nat): nat
    requires k <= |script|
  {
    if k == 0 then 0 else Position(script, k - 1) + RecordCount(script[..k - 1], script[k - 1])
  }

  lemma OrderedPrefix(script: seq<Event>, k: nat)
    requires Ordered(script) && k <= |script|
    ensures Ordered(script[..k])
  {
    forall i | 0 <= i < k
      ensures Allowed(script[..k][..i], script[..k][i])
    {
      assert script[..k][..i] == script[..i] && Allowed(script[..i], script[i]);
    }
  }

  /** An event of a script in order is accepted in the state that sums up what came before it. */
  lemma AcceptedAt(script: seq<Event>, k: nat, deps: Deps)
    requires Ordered(script) && k < |script|
    ensures Run(Step, Machine(INITIAL, deps), script[..k]).Ok?
    ensures var m := Run(Step, Machine(INITIAL, deps), script[..k]).value.state;
            && SummarisesMachine(m, deps, script[..k]) && Violation(m.state, script[k]).None?
            && FrameCount(m.state, script[k]) == RecordCount(script[..k], script[k])
  {
    OrderedPrefix(script, k);
    PrefixRuns(script[..k], Machine(INITIAL, deps));
    var m := Run(Step, Machine(INITIAL, deps), script[..k]).value.state;
    StepLegal(m.state, deps, script[..k], script);
    assert Allowed(script[..k], script[k]);
  }

  /** How many records a run of events makes. */
  ghost predicate Makes(m: Machine, events: seq<Event>, n: nat) {
    Run(Step, m, events).Ok? && |RecordsOf(Run(Step, m, events).value.out, m.deps)| == n
  }

  lemma OneMoreEvent(m: Machine, pre: seq<Event>, e: Event, whole: seq<Event>, n: nat, more: nat)
    requires Makes(m, pre, n) && m.deps == Run(Step, m, pre).value.state.deps && whole == pre + [e]
    requires var s := Run(Step, m, pre).value.state.state; Violation(s, e).None? && FrameCount(s, e) == more
    ensures Makes(m, whole, n + more)
  {
    RunLast(m, pre, e);
    var before := Run(Step, m, pre).value;
    var a := Accepted(before.state.state, e);
    RecordsAppend(before.out, [a], m.deps);
    RecordsOfOne(a, m.deps);
    RecordsNumbered(a, m.deps);
  }

  lemma {:induction false} RecordsBefore(script: seq<Event>, k: nat, deps: Deps)
    requires Ordered(script) && k <= |script|
    ensures Makes(Machine(INITIAL, deps), script[..k], Position(script, k))
    decreases k
  {
    if k > 0 {
      RecordsBefore(script, k - 1, deps);
      AcceptedAt(script, k - 1, deps);
      PrefixGrows(script, k - 1);
      OneMoreEvent(Machine(INITIAL, deps), script[..k - 1], script[k - 1], script[..k], Position(script, k - 1),
                   RecordCount(script[..k - 1], script[k - 1]));
    }
  }

  /** No record of a transcript is without its event. */
  lemma EveryRecordPlaced(script: seq<Event>, deps: Deps)
    requires Complete(script)
    ensures EncodeStream(script, deps).Ok? && |EncodeStream(script, deps).value| == Position(script, |script|)
  {
    AcceptedIffComplete(script, deps);
    assert script[..|script|] == script;
    RecordsBefore(script, |script|, deps);
  }

  /**
   * Each event of a complete script is encoded at its own place, after the records of the events before it,
   * in the state that sums those up.
   */
  lemma EncodedAt(script: seq<Event>, k: nat, deps: Deps) returns (s: EncoderState)
    requires Complete(script) && k < |script|
    ensures Summarises(s, deps, script[..k]) && Violation(s, script[k]).None?
    ensures EncodeStream(script, deps).Ok? && PlacedAt(script, k, EncodeStream(script, deps).value,
                                                       Records(Accepted(s, script[k]), deps))
  {
    var before, after;
    s, before, after := EncodedBetween(script, k, deps);
    RecordsNumbered(Accepted(s, script[k]), deps);
    Middle(before, Records(Accepted(s, script[k]), deps), after, EncodeStream(script, deps).value,
           Position(script, k), Position(script, k + 1));
  }

  /** These are the records of the `k`-th event. */
  ghost predicate PlacedAt(script: seq<Event>, k: nat, records: seq<Record>, here: seq<Record>)
    requires k < |script|
  {
    && |here| == RecordCount(script[..k], script[k])
    && Position(script, k) + |here| == Position(script, k + 1) <= |records|
    && records[Position(script, k)..Position(script, k + 1)] == here
  }

  lemma EncodedBetween(script: seq<Event>, k: nat, deps: Deps)
    returns (s: EncoderState, before: seq<Record>, after: seq<Record>)
    requires Complete(script) && k < |script|
    ensures Summarises(s, deps, script[..k]) && Violation(s, script[k]).None?
    ensures FrameCount(s, script[k]) == RecordCount(script[..k], script[k]) && |before| == Position(script, k)
    ensures EncodeStream(script, deps) == Ok(before + (Records(Accepted(s, script[k]), deps) + after))
  {
    var m := Machine(INITIAL, deps);
    AcceptedIffComplete(script, deps);
    assert script == script[..k] + script[k..];
    RunAppend(Step, m, script[..k], script[k..]);
    AcceptedAt(script, k, deps);
    RecordsBefore(script, k, deps);
    var first := Run(Step, m, script[..k]).value;
    s := first.state.state;
    var rest := RunHead(first.state, script, k);
    before, after := RecordsOf(first.out, deps), RecordsOf(rest, deps);
    RecordsAround(first.out, Accepted(s, script[k]), rest, deps);
  }

  lemma Middle(a: seq<Record>, b: seq<Record>, c: seq<Record>, whole: seq<Record>, p: nat, q: nat)
    requires whole == a + (b + c) && p == |a| && q == p + |b|
    ensures q <= |whole| && whole[p..q] == b
  {
  }

  lemma RecordsAround(before: seq<Accepted>, a: Accepted, after: seq<Accepted>, deps: Deps)
    ensures RecordsOf(before + ([a] + after), deps) == RecordsOf(before, deps)
            + (Records(a, deps) + RecordsOf(after, deps))
  {
    RecordsAppend(before, [a] + after, deps);
    RecordsAppend([a], after, deps);
    RecordsOfOne(a, deps);
  }

  lemma RunHead(m: Machine, script: seq<Event>, k: nat) returns (rest: seq<Accepted>)
    requires k < |script| && Run(Step, m, script[k..]).Ok?
    ensures Violation(m.state, script[k]).None?
    ensures Run(Step, m, script[k..]).value.out == [Accepted(m.state, script[k])] + rest
  {
    RunOne(Step, m, script[k..]);
    rest := Run(Step, Step(m, script[k]).value.state, script[k..][1..]).value.out;
  }

  ghost predicate DeltasBetween(script: seq<Event>, j: nat, k: nat)
    requires j < k <= |script|
  {
    forall i :: j < i < k ==> script[i].TextDelta? || script[i].ArgumentsDelta?
  }

  function Payload(o: Output): string {
    match o
    case Message(text) => text
    case FunctionCall(_, _, arguments) => arguments
  }

  lemma JoinMore(past: seq<Event>, e: Event, deltas: seq<Event>, message: bool)
    requires Allowed(past, e) && (e.TextDelta? || e.ArgumentsDelta?)
    requires Joins(past, deltas, message)
    ensures Joins(past + [e], deltas + [e], message)
  {
    Snoc(past, e);
    assert (deltas + [e])[..|deltas|] == deltas;
  }

  lemma JoinNone(past: seq<Event>, e: Event)
    requires e.ItemStart?
    ensures Writing(past + [e]) == Some(Empty(e.item)) && Payload(Empty(e.item)) == Joined([])
  {
    Snoc(past, e);
  }

  lemma OneMoreDelta(script: seq<Event>, j: nat, k: nat)
    requires j < k < |script|
    ensures script[j + 1..k + 1] == script[j + 1..k] + [script[k]]
  {
  }

  /** What is being written is the deltas, joined. */
  ghost predicate Joins(past: seq<Event>, deltas: seq<Event>, message: bool) {
    Writing(past).Some? && Payload(Writing(past).value) == Joined(deltas) && Writing(past).value.Message? == message
  }

  lemma {:induction false} JoinsFrom(script: seq<Event>, j: nat, k: nat, past: seq<Event>, deltas: seq<Event>)
    requires Ordered(script) && j < k <= |script| && script[j].ItemStart? && DeltasBetween(script, j, k)
    requires past == script[..k] && deltas == script[j + 1..k]
    ensures Joins(past, deltas, script[j].item.MessageItem?)
    decreases k
  {
    var n, message := k - 1, script[j].item.MessageItem?;
    var before, e := script[..n], script[n];
    PrefixGrows(script, n);
    if n == j {
      JoinNone(before, e);
      assert deltas == [];
    } else {
      var earlier := script[j + 1..n];
      JoinsFrom(script, j, n, before, earlier);
      assert Allowed(before, e);
      OneMoreDelta(script, j, n);
      JoinMore(before, e, earlier, message);
    }
  }

  /** What is being written is what was begun, with the deltas since joined. */
  lemma WritingJoins(script: seq<Event>, j: nat, k: nat)
    requires Ordered(script) && j < k <= |script| && script[j].ItemStart? && DeltasBetween(script, j, k)
    ensures Writing(script[..k]).Some? && Payload(Writing(script[..k]).value) == Joined(script[j + 1..k])
    ensures Writing(script[..k]).value.Message? <==> script[j].item.MessageItem?
  {
    JoinsFrom(script, j, k, script[..k], script[j + 1..k]);
  }

  /** A record's string field. */
  function FieldOf(r: Record, key: string): Option<string> {
    if r.Terminator? then None else StrProp(Some(r.data), key)
  }

  /** Where an item is written: its id, and its place among the outputs. */
  datatype Slot = Slot(id: string, place: nat)

  /** The slot of the item being written after a run of events. */
  function SlotOf(past: seq<Event>, deps: Deps): Slot {
    var place := |CompletedOutputs(past)|;
    if past != [] && past[0].ResponseCreated? && Writing(past).Some?
    then Slot(ItemId(Writing(past).value, deps, OwnIds(past[0].id) + place), place)
    else Slot("", place)
  }

  /** A record of this kind about the item in a slot. */
  predicate About(r: Record, kind: string, slot: Slot) {
    && r.Named? && r.name == kind
    && FieldOf(r, "item_id") == Some(slot.id)
    && NumProp(Some(r.data), "output_index") == Some(slot.place)
  }

  lemma StampKeeps(f: Frame, n: nat, key: string)
    requires key in f.data && key != "type" && key != "sequence_number"
    ensures Stamp(f, n).Named? && Stamp(f, n).name == f.kind
    ensures Prop(Some(Stamp(f, n).data), key) == Some(f.data[key])
  {
  }

  lemma StampAbout(f: Frame, n: nat, slot: Slot)
    requires "item_id" in f.data && f.data["item_id"] == Str(slot.id)
    requires "output_index" in f.data && f.data["output_index"] == Num(slot.place)
    ensures About(Stamp(f, n), f.kind, slot)
  {
    StampKeeps(f, n, "item_id");
    StampKeeps(f, n, "output_index");
  }

  lemma StampText(f: Frame, n: nat, key: string, text: string)
    requires key in f.data && f.data[key] == Str(text) && key != "type" && key != "sequence_number"
    ensures FieldOf(Stamp(f, n), key) == Some(text)
  {
    StampKeeps(f, n, key);
  }

  /** The open item of an encoder is the one being written. */
  lemma OpenSlot(s: EncoderState, past: seq<Event>, deps: Deps)
    requires Summarises(s, deps, past) && s.open.Some?
    ensures Writing(past) == Some(s.open.value.output)
    ensures SlotOf(past, deps) == Slot(s.open.value.id, s.open.value.index)
  {
  }

  lemma StampOne(f: Frame, n: nat)
    ensures StampAll([f], n) == [Stamp(f, n)]
  {
    assert [f][1..] == [];
  }

  function DeltaKind(e: Event): string {
    if e.TextDelta? then "response.output_text.delta" else "response.function_call_arguments.delta"
  }

  function DoneKind(message: bool): string {
    if message then "response.output_text.done" else "response.function_call_arguments.done"
  }

  function PayloadKey(message: bool): string {
    if message then "text" else "arguments"
  }

  lemma DeltaRecord(s: EncoderState, e: Event, deps: Deps)
    requires Violation(s, e).None? && (e.TextDelta? || e.ArgumentsDelta?)
    ensures var records := Records(Accepted(s, e), deps);
            && |records| == 1 && FieldOf(records[0], "delta") == Some(Delta(e))
            && (e.TextDelta? ==> NumProp(Some(records[0].data), "content_index") == Some(0))
            && About(records[0], DeltaKind(e), Slot(s.open.value.id, s.open.value.index))
  {
    var f := Frames(s, After(s, e, deps), e, deps)[0];
    assert Frames(s, After(s, e, deps), e, deps) == [f];
    StampOne(f, s.sequence);
    StampText(f, s.sequence, "delta", Delta(e));
    if e.TextDelta? {
      StampKeeps(f, s.sequence, "content_index");
    }
    StampAbout(f, s.sequence, Slot(s.open.value.id, s.open.value.index));
  }

  lemma DoneRecord(s: EncoderState, deps: Deps)
    requires Violation(s, ItemStop).None?
    ensures var records, o := Records(Accepted(s, ItemStop), deps), s.open.value.output;
            && records != []
            && FieldOf(records[0], PayloadKey(o.Message?)) == Some(Payload(o))
            && (o.Message? ==> records[0].Named? && NumProp(Some(records[0].data), "content_index") == Some(0))
            && About(records[0], DoneKind(o.Message?), Slot(s.open.value.id, s.open.value.index))
  {
    var frames := Frames(s, After(s, ItemStop, deps), ItemStop, deps);
    var f, o := frames[0], s.open.value.output;
    StampText(f, s.sequence, PayloadKey(o.Message?), Payload(o));
    if o.Message? {
      StampKeeps(f, s.sequence, "content_index");
    }
    StampAbout(f, s.sequence, Slot(s.open.value.id, s.open.value.index));
  }

  lemma ItemDoneRecord(s: EncoderState, deps: Deps)
    requires Violation(s, ItemStop).None?
    ensures var records := Records(Accepted(s, ItemStop), deps);
            && records != []
            && ItemDone(records[|records| - 1], s.open.value.output, Slot(s.open.value.id, s.open.value.index))
  {
    var frames := Frames(s, After(s, ItemStop, deps), ItemStop, deps);
    var f := frames[|frames| - 1];
    StampKeeps(f, s.sequence + (|frames| - 1), "output_index");
    StampKeeps(f, s.sequence + (|frames| - 1), "item");
    ItemReads(s.open.value.output, s.open.value.id);
  }

  /** The record that ends an item, with the item as a client reads it. */
  predicate ItemDone(r: Record, o: Output, slot: Slot) {
    && r.Named? && r.name == "response.output_item.done"
    && NumProp(Some(r.data), "output_index") == Some(slot.place)
    && ReadItem(Prop(Some(r.data), "item")) == Some(Item(slot.id, o))
  }

  /**
   * In the transcript of a complete script, the first record of an item's end carries the item's deltas
   * joined, under the item's id and place among the outputs.
   */
  lemma DoneCarriesDeltas(script: seq<Event>, j: nat, k: nat, deps: Deps)
    requires Complete(script) && j < k < |script|
    requires script[j].ItemStart? && script[k].ItemStop? && DeltasBetween(script, j, k)
    ensures EncodeStream(script, deps).Ok? && Position(script, k) < |EncodeStream(script, deps).value|
    ensures var done, message := EncodeStream(script, deps).value[Position(script, k)], script[j].item.MessageItem?;
            && About(done, DoneKind(message), SlotOf(script[..k], deps))
            && FieldOf(done, PayloadKey(message)) == Some(Joined(script[j + 1..k]))
            && (message ==> NumProp(Some(done.data), "content_index") == Some(0))
  {
    var s := EncodedAt(script, k, deps);
    WritingJoins(script, j, k);
    OpenSlot(s, script[..k], deps);
    DoneRecord(s, deps);
    Ends(EncodeStream(script, deps).value, Position(script, k), Position(script, k + 1),
         Records(Accepted(s, script[k]), deps));
  }

  /** The last record of an item's end carries the item being written, rendered, under the same id and place. */
  lemma ItemIsDone(script: seq<Event>, k: nat, deps: Deps)
    requires Complete(script) && k < |script| && script[k].ItemStop?
    ensures EncodeStream(script, deps).Ok? && 0 < Position(script, k + 1) <= |EncodeStream(script, deps).value|
    ensures Writing(script[..k]).Some?
    ensures ItemDone(EncodeStream(script, deps).value[Position(script, k + 1) - 1], Writing(script[..k]).value,
                     SlotOf(script[..k], deps))
  {
    var s := EncodedAt(script, k, deps);
    OpenSlot(s, script[..k], deps);
    ItemDoneRecord(s, deps);
    Ends(EncodeStream(script, deps).value, Position(script, k), Position(script, k + 1),
         Records(Accepted(s, script[k]), deps));
  }

  lemma Ends(records: seq<Record>, i: nat, j: nat, here: seq<Record>)
    requires i < j <= |records| && records[i..j] == here
    ensures records[i] == here[0] && records[j - 1] == here[|here| - 1]
  {
  }

  /** Each delta has its own record, at its own place, under the id and place of the item being written. */
  lemma DeltaIsSent(script: seq<Event>, i: nat, deps: Deps)
    requires Complete(script) && i < |script| && (script[i].TextDelta? || script[i].ArgumentsDelta?)
    ensures EncodeStream(script, deps).Ok?
    ensures Position(script, i + 1) == Position(script, i) + 1 <= |EncodeStream(script, deps).value|
    ensures var sent := EncodeStream(script, deps).value[Position(script, i)];
            && FieldOf(sent, "delta") == Some(Delta(script[i]))
            && (script[i].TextDelta? ==> sent.Named? && NumProp(Some(sent.data), "content_index") == Some(0))
            && About(sent, DeltaKind(script[i]), SlotOf(script[..i], deps))
  {
    var s := EncodedAt(script, i, deps);
    OpenSlot(s, script[..i], deps);
    DeltaRecord(s, script[i], deps);
    Ends(EncodeStream(script, deps).value, Position(script, i), Position(script, i + 1),
         Records(Accepted(s, script[i]), deps));
  }

  lemma SlotIs(past: seq<Event>, o: Output, n: nat, deps: Deps)
    requires past != [] && past[0].ResponseCreated? && Writing(past) == Some(o) && |CompletedOutputs(past)| == n
    ensures SlotOf(past, deps) == Slot(ItemId(o, deps, OwnIds(past[0].id) + n), n)
  {
  }

  lemma SlotKept(past: seq<Event>, e: Event, now: seq<Event>, deps: Deps)
    requires past != [] && past[0].ResponseCreated? && Writing(past).Some? && (e.TextDelta? || e.ArgumentsDelta?)
    requires now == past + [e]
    ensures SlotOf(now, deps) == SlotOf(past, deps)
  {
    var o, n := Writing(past).value, |CompletedOutputs(past)|;
    Snoc(past, e);
    SameItemId(o, Extend(o, e), deps, OwnIds(past[0].id) + n);
    SlotIs(past, o, n, deps);
    SlotIs(now, Extend(o, e), n, deps);
  }

  /** An item's id does not depend on what it holds. */
  lemma SameItemId(a: Output, b: Output, deps: Deps, n: nat)
    requires a.Message? <==> b.Message?
    ensures ItemId(a, deps, n) == ItemId(b, deps, n)
  {
  }

  lemma SlotBegins(past: seq<Event>, e: Event, deps: Deps)
    requires e.ItemStart?
    ensures SlotOf(past + [e], deps).place == |CompletedOutputs(past)|
  {
    Snoc(past, e);
  }

  lemma SlotNext(script: seq<Event>, j: nat, k: nat, deps: Deps)
    requires Complete(script) && j < k < |script| && script[j].ItemStart? && DeltasBetween(script, j, k + 1)
    ensures SlotOf(script[..k + 1], deps) == SlotOf(script[..k], deps)
  {
    WritingJoins(script, j, k);
    PrefixGrows(script, k);
    SlotKept(script[..k], script[k], script[..k + 1], deps);
  }

  /** An event leaves the slot as it was. */
  ghost predicate SameSlot(script: seq<Event>, i: nat, deps: Deps)
    requires i < |script|
  {
    SlotOf(script[..i + 1], deps) == SlotOf(script[..i], deps)
  }

  lemma {:induction false} SlotsChain(script: seq<Event>, i: nat, k: nat, deps: Deps)
    requires i <= k <= |script| && forall x :: i <= x < k ==> SameSlot(script, x, deps)
    ensures SlotOf(script[..k], deps) == SlotOf(script[..i], deps)
    decreases k - i
  {
    if i < k {
      assert SameSlot(script, i, deps);
      SlotsChain(script, i + 1, k, deps);
    }
  }

  /** All of an item's records carry one slot: that of its start. */
  lemma SlotStays(script: seq<Event>, j: nat, k: nat, deps: Deps)
    requires Complete(script) && j < k <= |script| && script[j].ItemStart? && DeltasBetween(script, j, k)
    ensures SlotOf(script[..k], deps) == SlotOf(script[..j + 1], deps)
  {
    forall x | j + 1 <= x < k
      ensures SameSlot(script, x, deps)
    {
      SlotNext(script, j, x, deps);
    }
    SlotsChain(script, j + 1, k, deps);
  }

  /** The place of a slot is next after the outputs completed before the item began. */
  lemma SlotPlace(script: seq<Event>, j: nat, k: nat, deps: Deps)
    requires Complete(script) && j < k <= |script| && script[j].ItemStart? && DeltasBetween(script, j, k)
    ensures SlotOf(script[..k], deps).place == |CompletedOutputs(script[..j])|
  {
    SlotStays(script, j, k, deps);
    PrefixGrows(script, j);
    SlotBegins(script[..j], script[j], deps);
  }

  /** The id of an item is drawn from the generator by the item's place, after the response's own. */
  lemma SlotNamed(past: seq<Event>, deps: Deps)
    requires past != [] && past[0].ResponseCreated? && Writing(past).Some?
    ensures SlotOf(past, deps).id ==
            (if Writing(past).value.Message? then "msg_" else "fc_")
            + StripDashes(deps.ids((if past[0].id.Some? then 0 else 1) + SlotOf(past, deps).place))
  {
    assert "msg" + "_" == "msg_" && "fc" + "_" == "fc_";
  }

  // ----- The records that open a response, an item and a part -----

  /** The record that begins an item, with the item as yet empty. */
  predicate ItemAdded(r: Record, item: ItemInit, slot: Slot) {
    var added := if r.Terminator? then None else Prop(Some(r.data), "item");
    && r.Named? && r.name == "response.output_item.added"
    && NumProp(Some(r.data), "output_index") == Some(slot.place)
    && StrProp(added, "id") == Some(slot.id) && StrProp(added, "status") == Some("in_progress")
    && (item.MessageItem? ==>
          StrProp(added, "type") == Some("message") && StrProp(added, "role") == Some("assistant")
          && Prop(added, "content") == Some(Arr([])))
    && (item.CallItem? ==>
          StrProp(added, "type") == Some("function_call") && StrProp(added, "call_id") == Some(item.callId)
          && StrProp(added, "name") == Some(item.name) && StrProp(added, "arguments") == Some(""))
  }

  /** A record about the one part of a message, with the part's text. */
  predicate PartIs(r: Record, kind: string, text: string, slot: Slot) {
    && About(r, kind, slot) && NumProp(Some(r.data), "content_index") == Some(0)
    && Prop(Some(r.data), "part").Some?
    && ReadContent(Some(Arr([Prop(Some(r.data), "part").value]))) == Some(text)
  }

  lemma SkeletonReads(item: ItemInit, id: string)
    ensures var added := Some(Skeleton(item, id));
            && StrProp(added, "id") == Some(id) && StrProp(added, "status") == Some("in_progress")
            && (item.MessageItem? ==>
                  StrProp(added, "type") == Some("message") && StrProp(added, "role") == Some("assistant")
                  && Prop(added, "content") == Some(Arr([])))
            && (item.CallItem? ==>
                  StrProp(added, "type") == Some("function_call") && StrProp(added, "call_id") == Some(item.callId)
                  && StrProp(added, "name") == Some(item.name) && StrProp(added, "arguments") == Some(""))
  {
  }

  lemma PartReads(text: string)
    ensures ReadContent(Some(Arr([TextPart(text)]))) == Some(text)
  {
    var part := Some(TextPart(text));
    assert StrProp(part, "text") == Some(text);
  }

  lemma PartStamped(kind: string, id: string, place: nat, text: string, n: nat)
    ensures var f := Frame(kind, map["item_id" := Str(id), "output_index" := Num(place), "content_index" := Num(0),
                                     "part" := TextPart(text)]);
            PartIs(Stamp(f, n), kind, text, Slot(id, place))
  {
    var f := Frame(kind, map["item_id" := Str(id), "output_index" := Num(place), "content_index" := Num(0),
                             "part" := TextPart(text)]);
    StampAbout(f, n, Slot(id, place));
    StampKeeps(f, n, "content_index");
    StampKeeps(f, n, "part");
    PartReads(text);
  }

  lemma AddedRecords(s: EncoderState, e: Event, deps: Deps)
    requires e.ItemStart? && Violation(s, e).None?
    ensures var records, open := Records(Accepted(s, e), deps), After(s, e, deps).open.value;
            && |records| == (if e.item.MessageItem? then 2 else 1)
            && ItemAdded(records[0], e.item, Slot(open.id, open.index))
            && (e.item.MessageItem? ==>
                  PartIs(records[1], "response.content_part.added", "", Slot(open.id, open.index)))
  {
    var t := After(s, e, deps);
    var frames, open := Frames(s, t, e, deps), t.open.value;
    StampKeeps(frames[0], s.sequence, "output_index");
    StampKeeps(frames[0], s.sequence, "item");
    SkeletonReads(e.item, open.id);
    PartStamped("response.content_part.added", open.id, open.index, "", s.sequence + 1);
  }

  /** An item begins with a record of the empty item, and a message with a record of its empty part. */
  lemma ItemIsAdded(script: seq<Event>, j: nat, deps: Deps)
    requires Complete(script) && j < |script| && script[j].ItemStart?
    ensures EncodeStream(script, deps).Ok? && Position(script, j) < Position(script, j + 1)
    ensures Position(script, j + 1) <= |EncodeStream(script, deps).value|
    ensures var records, p := EncodeStream(script, deps).value, Position(script, j);
            && ItemAdded(records[p], script[j].item, SlotOf(script[..j + 1], deps))
            && (script[j].item.MessageItem? ==>
                  p + 1 < |records|
                  && PartIs(records[p + 1], "response.content_part.added", "", SlotOf(script[..j + 1], deps)))
  {
    var s := EncodedAt(script, j, deps);
    AddedRecords(s, script[j], deps);
    PrefixGrows(script, j);
    SlotAfterStart(s, script[..j], script[j], deps);
    Slices(EncodeStream(script, deps).value, Position(script, j), Position(script, j + 1),
           Records(Accepted(s, script[j]), deps));
  }

  lemma SlotAfterStart(s: EncoderState, past: seq<Event>, e: Event, deps: Deps)
    requires Summarises(s, deps, past) && e.ItemStart? && Violation(s, e).None?
    ensures var open := After(s, e, deps).open.value;
            SlotOf(past + [e], deps) == Slot(open.id, open.index)
  {
    StepSummarises(s, deps, past, e, 0);
    OpenSlot(After(s, e, deps).(sequence := 0), past + [e], deps);
  }

  lemma Slices(records: seq<Record>, i: nat, j: nat, here: seq<Record>)
    requires i < j <= |records| && records[i..j] == here
    ensures forall k :: 0 <= k < j - i ==> records[i + k] == here[k]
    ensures records[i] == here[0]
  {
  }

  lemma PartDoneRecord(s: EncoderState, deps: Deps)
    requires Violation(s, ItemStop).None? && s.open.value.output.Message?
    ensures var records, open := Records(Accepted(s, ItemStop), deps), s.open.value;
            && |records| == 3
            && PartIs(records[1], "response.content_part.done", open.output.text, Slot(open.id, open.index))
  {
    var open := s.open.value;
    PartStamped("response.content_part.done", open.id, open.index, open.output.text, s.sequence + 1);
  }

  /** A message's one part is done with the text written. */
  lemma PartIsDone(script: seq<Event>, k: nat, deps: Deps)
    requires Complete(script) && k < |script| && script[k].ItemStop?
    requires Writing(script[..k]).Some? && Writing(script[..k]).value.Message?
    ensures EncodeStream(script, deps).Ok? && Position(script, k) + 1 < |EncodeStream(script, deps).value|
    ensures PartIs(EncodeStream(script, deps).value[Position(script, k) + 1], "response.content_part.done",
                   Writing(script[..k]).value.text, SlotOf(script[..k], deps))
  {
    var s := EncodedAt(script, k, deps);
    OpenSlot(s, script[..k], deps);
    PartDoneRecord(s, deps);
    Slices(EncodeStream(script, deps).value, Position(script, k), Position(script, k + 1),
           Records(Accepted(s, script[k]), deps));
  }

  /** A record of the response as it is when it has just been created. */
  predicate Opens(r: Record, kind: string, model: string, id: Option<string>, deps: Deps) {
    && r.Named? && r.name == kind && Prop(Some(r.data), "response").Some?
    && ReadResponse(Prop(Some(r.data), "response").value) ==
       Some(AnswerFor(ResponseResult(id, model, InProgress, None, None, [], None), deps))
  }

  lemma CreatedRecords(s: EncoderState, e: Event, deps: Deps)
    requires s == INITIAL && e.ResponseCreated?
    ensures var records := Records(Accepted(s, e), deps);
            && |records| == 2 && Opens(records[0], "response.created", e.model, e.id, deps)
            && Opens(records[1], "response.in_progress", e.model, e.id, deps)
  {
    var frames := Frames(s, After(s, e, deps), e, deps);
    StampKeeps(frames[0], s.sequence, "response");
    StampKeeps(frames[1], s.sequence + 1, "response");
    BegunReads(e.id, e.model, deps);
  }

  lemma BegunReads(id: Option<string>, model: string, deps: Deps)
    ensures var begun := ResponseResult(None, model, InProgress, None, None, [], None);
            ReadResponse(Envelope(ResponseId(id, deps), begun, [], deps)) ==
            Some(AnswerFor(begun.(id := id), deps))
  {
    var begun := ResponseResult(id, model, InProgress, None, None, [], None);
    EnvelopeIgnoresId(ResponseId(id, deps), begun, [], deps);
    EnvelopeReads(ResponseId(id, deps), begun, [], deps, []);
    assert "resp" + "_" == "resp_";
  }

  /** A stream opens with two records of the empty response in progress. */
  lemma StreamOpens(script: seq<Event>, deps: Deps)
    requires Complete(script)
    ensures EncodeStream(script, deps).Ok? && |EncodeStream(script, deps).value| >= 2
    ensures var records := EncodeStream(script, deps).value;
            && Opens(records[0], "response.created", script[0].model, script[0].id, deps)
            && Opens(records[1], "response.in_progress", script[0].model, script[0].id, deps)
  {
    var s := EncodedAt(script, 0, deps);
    assert script[..0] == [];
    CreatedRecords(s, script[0], deps);
    Slices(EncodeStream(script, deps).value, Position(script, 0), Position(script, 1),
           Records(Accepted(s, script[0]), deps));
  }
}
