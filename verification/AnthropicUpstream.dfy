/**
 * The events an Anthropic upstream may send, whichever of their fields they carry, and what the decoder makes
 * of them; and what the encoder writes besides what the decoder reads.
 */
module AnthropicUpstream {
  import opened Base
  import opened Json
  import opened SseRecords
  import opened AnthropicStream

  function StrField(key: string, value: Option<string>): map<string, Json> {
    if value.Some? then map[key := Str(value.value)] else map[]
  }

  function NumField(key: string, value: Option<int>): map<string, Json> {
    if value.Some? then map[key := Num(value.value)] else map[]
  }

  function SentUsage(u: Usage): Json {
    Obj(NumField("input_tokens", u.input) + NumField("output_tokens", u.output)
        + NumField("cache_read_input_tokens", u.cacheRead) + NumField("cache_creation_input_tokens", u.cacheWrite))
  }

  function UsageField(usage: Option<Usage>): map<string, Json> {
    if usage.Some? then map["usage" := SentUsage(usage.value)] else map[]
  }

  function SentBlock(block: BlockInit): Json {
    match block
    case TextBlock => Obj(map["type" := Str("text"), "text" := Str("")])
    case ToolBlock(id, name) => Obj(map["type" := Str("tool_use"), "id" := Str(id), "name" := Str(name)])
    case ThinkingBlock => Obj(map["type" := Str("thinking"), "thinking" := Str("")])
  }

  function Delta(index: int, kind: string, key: string, value: string): Json {
    Obj(map["type" := Str("content_block_delta"), "index" := Num(index),
            "delta" := Obj(map["type" := Str(kind), key := Str(value)])])
  }

  /** The data of an upstream event. */
  function Sent(u: Upstream): Json {
    match u
    case UpMessageStart(id, model, usage) =>
      Obj(map["type" := Str("message_start"),
              "message" := Obj(StrField("id", id) + StrField("model", model) + UsageField(usage))])
    case UpBlockStart(index, block) =>
      Obj(map["type" := Str("content_block_start"), "index" := Num(index), "content_block" := SentBlock(block)])
    case UpText(index, text) => Delta(index, "text_delta", "text", text)
    case UpJson(index, partial) => Delta(index, "input_json_delta", "partial_json", partial)
    case UpThinking(index, text) => Delta(index, "thinking_delta", "thinking", text)
    case UpSignature(index, signature) => Delta(index, "signature_delta", "signature", signature)
    case UpBlockStop(index) => Obj(map["type" := Str("content_block_stop"), "index" := Num(index)])
    case UpMessageDelta(stopReason, usage) =>
      Obj(map["type" := Str("message_delta"), "delta" := Obj(StrField("stop_reason", stopReason))] + UsageField(usage))
    case UpMessageStop => Obj(map["type" := Str("message_stop")])
    case UpError(message) => Obj(map["type" := Str("error"), "error" := Obj(map["message" := Str(message)])])
  }

  /** A usage report that reports nothing is not seen. */
  predicate Reports(u: Upstream) {
    (u.UpMessageStart? || u.UpMessageDelta?) ==> u.usage != Some(Usage(None, None, None, None))
  }

  lemma UsageSentReads(u: Usage)
    requires u != Usage(None, None, None, None)
    ensures DecodeUsage(Some(SentUsage(u))) == Some(u)
  {
    var sent := Some(SentUsage(u));
    assert NumProp(sent, "input_tokens") == u.input && NumProp(sent, "output_tokens") == u.output;
    assert NumProp(sent, "cache_read_input_tokens") == u.cacheRead;
    assert NumProp(sent, "cache_creation_input_tokens") == u.cacheWrite;
  }

  lemma StartSentReads(u: Upstream)
    requires u.UpMessageStart? && Reports(u)
    ensures DecodeTyped("message_start", Some(Sent(u))) == Some(u)
  {
    var fields := StrField("id", u.id) + StrField("model", u.model) + UsageField(u.usage);
    var message := Some(Obj(fields));
    assert Prop(Some(Sent(u)), "message") == message;
    assert StrProp(message, "id") == u.id && StrProp(message, "model") == u.model;
    assert Prop(message, "usage") == if u.usage.Some? then Some(SentUsage(u.usage.value)) else None;
    if u.usage.Some? {
      UsageSentReads(u.usage.value);
    }
  }

  lemma DeltaSentReads(u: Upstream)
    requires u.UpMessageDelta? && Reports(u)
    ensures DecodeTyped("message_delta", Some(Sent(u))) == Some(u)
  {
    var data := Some(Sent(u));
    assert Prop(data, "delta") == Some(Obj(StrField("stop_reason", u.stopReason)));
    assert Prop(data, "usage") == if u.usage.Some? then Some(SentUsage(u.usage.value)) else None;
    if u.usage.Some? {
      UsageSentReads(u.usage.value);
    }
  }

  lemma ContentSentReads(index: int, kind: string, key: string, value: string)
    requires key != "type"
    ensures DecodeTyped("content_block_delta", Some(Delta(index, kind, key, value))) ==
            if kind == "text_delta" then Some(UpText(index, if key == "text" then value else ""))
            else if kind == "input_json_delta" then Some(UpJson(index, if key == "partial_json" then value else ""))
            else if kind == "thinking_delta" then Some(UpThinking(index, if key == "thinking" then value else ""))
            else if kind == "signature_delta" then Some(UpSignature(index, if key == "signature" then value else ""))
            else None
  {
    var data, delta := Some(Delta(index, kind, key, value)), Some(Obj(map["type" := Str(kind), key := Str(value)]));
    assert NumProp(data, "index") == Some(index) && Prop(data, "delta") == delta;
    assert StrProp(delta, "type") == Some(kind);
    assert forall k :: k != "type" ==> StrProp(delta, k) == if k == key then Some(value) else None;
  }

  lemma BlockSentReads(index: int, block: BlockInit)
    ensures DecodeTyped("content_block_start", Some(Sent(UpBlockStart(index, block)))) ==
            Some(UpBlockStart(index, block))
  {
    var data := Some(Sent(UpBlockStart(index, block)));
    assert NumProp(data, "index") == Some(index) && Prop(data, "content_block") == Some(SentBlock(block));
    assert DecodeBlock(Some(SentBlock(block))) == Some(block);
  }

  /** Every upstream event is decoded to itself, whatever name its record was given. */
  lemma SentReads(u: Upstream, event: string)
    requires Reports(u)
    ensures Decode(StreamEvent(event, Sent(u))) == Some(u)
  {
    if u.UpMessageStart? {
      StartSentReads(u);
    } else if u.UpMessageDelta? {
      DeltaSentReads(u);
    } else if u.UpBlockStart? {
      BlockSentReads(u.index, u.block);
    } else if u.UpText? {
      ContentSentReads(u.index, "text_delta", "text", u.text);
    } else if u.UpJson? {
      ContentSentReads(u.index, "input_json_delta", "partial_json", u.partial);
    } else if u.UpThinking? {
      ContentSentReads(u.index, "thinking_delta", "thinking", u.text);
    } else if u.UpSignature? {
      ContentSentReads(u.index, "signature_delta", "signature", u.signature);
    }
  }

  /** Data without a type is read by its record's name. */
  lemma NamedReads(event: string, other: string, fields: map<string, Json>)
    requires StrProp(Some(Obj(fields)), "type").None?
    ensures Decode(StreamEvent(event, Obj(fields))) == Decode(StreamEvent(other, Obj(fields["type" := Str(event)])))
  {
    var data, typed := Some(Obj(fields)), Some(Obj(fields["type" := Str(event)]));
    assert StrProp(typed, "type") == Some(event);
    assert Prop(data, "index") == Prop(typed, "index") && Prop(data, "message") == Prop(typed, "message");
    assert Prop(data, "content_block") == Prop(typed, "content_block") && Prop(data, "usage") == Prop(typed, "usage");
    assert Prop(data, "delta") == Prop(typed, "delta") && Prop(data, "error") == Prop(typed, "error");
  }

  /** Redacted thinking is a thinking block, an error may lack its message, and any other type says nothing. */
  lemma OthersRead(event: string, data: Json, kind: string)
    requires StrProp(Some(data), "type") == Some(kind)
    ensures (kind == "content_block_start"
             && StrProp(Prop(Some(data), "content_block"), "type") == Some("redacted_thinking")) ==>
              Decode(StreamEvent(event, data)) ==
              Some(UpBlockStart(if NumProp(Some(data), "index").Some? then NumProp(Some(data), "index").value else 0,
                                ThinkingBlock))
    ensures (kind == "error" && StrProp(Prop(Some(data), "error"), "message").None?) ==>
              Decode(StreamEvent(event, data)) == Some(UpError("upstream stream error"))
    ensures (kind !in ["message_start", "content_block_start", "content_block_delta", "content_block_stop",
                       "message_delta", "message_stop", "error"]) ==> Decode(StreamEvent(event, data)) == None
  {
  }

  // ----- What the encoder writes besides -----

  /** Every record is typed by its own name; a message opens empty, as the assistant's, and not yet stopped. */
  lemma RecordIs(e: Event, index: int, freshId: string)
    ensures var r := RecordOf(e, index, freshId);
            var data := Some(r.data);
            && r.Named? && r.data.Obj? && StrProp(data, "type") == Some(r.name)
            && (e.MessageStart? ==>
                  var message := Prop(data, "message");
                  && r.name == "message_start" && StrProp(message, "type") == Some("message")
                  && StrProp(message, "role") == Some("assistant") && Prop(message, "content") == Some(Arr([]))
                  && Prop(message, "stop_reason") == Some(Null) && Prop(message, "stop_sequence") == Some(Null))
            && (e.MessageDelta? ==>
                  && r.name == "message_delta"
                  && Prop(Prop(data, "delta"), "stop_sequence") ==
                     Some(if e.stopSequence.Some? then Str(e.stopSequence.value) else Null))
            && (e.Ping? ==> r.name == "ping")
  {
  }
}
