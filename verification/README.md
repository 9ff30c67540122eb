# Verified model of the gateway

A local gateway takes requests in three LLM protocols (Anthropic Messages, OpenAI Chat Completions, OpenAI
Responses), calls an upstream in whichever protocol it speaks, and answers in the client's own. This project models
its core in Dafny and proves what that core promises. `dafny verify dfyconfig.toml` checks all of it.

The files follow the program's structure.

- **Framing and text.** `Sse` splits server-sent events as sections 9.2.5 and 9.2.6 of the WHATWG HTML standard
  frame them (`\n` and `\r\n`, not a lone `\r`, as the code does). `SseRecords` has the three upstream parsers and the
  printed records. `Json` is a JSON tree; `JSON.stringify` and `JSON.parse` are a `Codec` of which only `Lawful` is
  assumed: parsing undoes printing, and an object prints as text between braces without a CR or LF.
- **The three protocols.** `AnthropicStream`, `ChatStream` and `ResponsesStream` hold each surface's encoder (a state
  machine that throws on illegal order), with the language it accepts described on scripts alone, and the decoders.
  `ChatUpstream` and `AnthropicUpstream` say what each record an upstream may send decodes to. `ResponsesItems` places
  every Responses event in the transcript and ties an item's records to each other; `ResponsesReading` is a client that
  reads a Responses object by its property names, and `ResponsesObserved` the observer of a forwarded transcript.
- **Translators.** `ChatToAnthropic`, `AnthropicToChat` and `ChatToResponses` (with `ChatHistory`, what a chat upstream
  reported before its terminator): what each emits for any decoded event
  sequence, well formed or not, is given by an independent description of the history (blocks, calls, outputs).
- **Agreement.** `ChatAgreement` and `ResponsesAgreement` compare each stream path with the batch translation;
  `ChatRoundTrip` goes there and back. `ChatResult`, `ChatCollector`, `AnthropicBlocks` and `BlockReading` are the
  vocabulary: completed results, what a client collects, messages as lists of content blocks.
- **Pipelines.** `StreamPipeline`, the three `...Pipeline` modules, `VerbatimStream` and `StreamCapture`: from chunks
  of a body to client text, with the usage and the bounded history copy reported at the end.
- **The attempt loop.** `Routing` (retry, rotation, fallback and the measure of what is left), `AttemptRules` (what one
  turn and one whole run come to, and what every run keeps), `AttemptRuns` (a run read off its history and the world's
  answers), `Lifecycle` (attempts, contexts, events), `AttemptLoop`.
- **Supporting machines.** `Outbox`, `Batcher`, `OutboxRuns` and `OutboxFates` (what each status makes of a row);
  `EventSinks`; `Redact` and `RedactShapes`; `JsonDepth`; `Cooldown`; `RateLimiter`; `Budget`.

Imperative code is imperative here: encoders, translators, the splitter, the queue, the table and the caches are
classes whose methods are proved equal to a specification function, and the theorems are about that function. Encoders
run under `Base.Run` (a step may throw) and translators under `Base.Feed`.

What the world decides is a parameter: chunks, ids, clocks, random numbers, the transport's replies, the classifier's
verdicts, the server's answers, which handlers throw, and the step at which a process dies.

Findings, each of them proved where noted:

- A sink with a queue limit below 1 counts drops that do not happen; the counters add up exactly when the limit is at
  least 1 or nothing was emitted (`EventSinks.CountersAgree`).
- The estimate limiter lets through at most 2·limit − 1 calls in any interval as long as a window, and reaches that
  number when the limit is at least 1 and the window at least 2 ms (`RateLimiter.FewerThanTwiceTheLimit`,
  `RateLimiter.BoundReached`).
- The history copy calls itself truncated when text was cut, and also when an empty delta arrives exactly at the cap;
  cut tool arguments do not count, although the comment at src/gateway/stream-pipeline.ts:262-268 says the
  reconstruction marks itself truncated (`StreamCapture.CaptureIs`).
- A chat stream always ends with a usage report: a message without a usage block is reported as 0 and 0, where the
  batch translation reports none (`ChatAgreement.StreamingAgreesWithBatch`).
- The overview of src/protocols/anthropic/stream-encoder.ts:4-11 shows one `message_delta`; the code accepts any number
  of them between blocks, and pings anywhere in the message (`AnthropicStream.AcceptedIffComplete`).
- A forwarded chat body is reported with the last cached count any of its usages gave, a translated one with that of
  its last usage only, so the two can differ (`VerbatimStream.CachedCountsDiffer`); they agree exactly when the last
  usage gives a cached count or none does (`VerbatimStream.ChatUsageEitherWay`).
- `redactValue` cleans every string value but leaves the keys of objects as they are, so a credential used as a key
  stays (`Redact.KeysAreLeft`); the redacted value is clean throughout exactly when no key left standing held one
  (`Redact.CleanThroughoutIffKeysClean`).
- Every client error but 401, 403, 408 and 429 counts as poison, 404 included: a server that answers every post so has
  each claimed row dead-lettered at its first attempt (`OutboxFates.AnsweredAlone`).
- An empty `reasoning_content` hides a `reasoning` beside it (`ChatUpstream.ChunkSays`).
- `reset()` deletes the day of the latest operation before it looks at the clock; that still clears the current windows
  (`Budget.ResetClears`).

## Model

| member | source | states |
|---|---|---|
| Sse.PiecesFree | src/gateway/sse.ts:21 | No piece of a split contains a separator. |
| Sse.SplitAppend | src/gateway/sse.ts:42-68 | Splitting a text that grew by a chunk re-splits only its last piece. |
| Sse.MarkMatches | src/gateway/sse.ts:21 | Each way of writing a separator, `\n` or `\r\n` for a line, two of them for a block, matches where it stands with its own length. |
| Sse.FreeIffUnbroken | src/gateway/sse.ts:21 | A text has no separator exactly when none of those marks stands anywhere in it. |
| Sse.SplitJoined | src/gateway/sse.ts:21 | Pieces that hold no mark come apart again exactly, whatever marks stand between them. |
| Sse.SseFrameSplitter.Push | src/gateway/sse.ts:42-68 | A chunk releases exactly the complete frames of buffer plus chunk and keeps the open one, which holds no separator. |
| Sse.SseFrameSplitter.Flush | src/gateway/sse.ts:73-77 | Finishing releases the unterminated frame if it is not blank, and empties the buffer. |
| Sse.FramesArrive | src/gateway/sse.ts:42-77 | One more chunk adds precisely the frames of the whole text that were not complete before. |
| Sse.SseFrames | src/gateway/sse.ts:86-98 | The frames of a body depend on its text alone, not on its chunk boundaries; none holds a separator or is blank. |
| Sse.TrimIs | src/providers/anthropic/adapter.ts:53-55 | Trimming removes the white space at either end, all of it and nothing else. |
| Sse.FramesJoined | src/gateway/sse.ts:42-98 | The frames of a body are its blocks that are not blank, whether its lines end in `\n`, `\r\n` or a mixture. |
| SseRecords.ParseAnthropicSse | src/providers/anthropic/adapter.ts:46-79 | The block loop computes the parse of the whole body, block by block. |
| SseRecords.ParseOpenAISse | src/providers/openai-compatible.ts:117-144 | Likewise for the chat dialect, with its `[DONE]` terminator. |
| SseRecords.ParseOpenAIStream | src/providers/openai/adapter.ts:46-84 | Likewise for OpenAI's own parser, which reads both its protocols. |
| SseRecords.FramesParse | src/gateway/stream-pipeline.ts:91-103 | Parsing a body frame by frame gives the events of parsing it at once. |
| SseRecords.BlockIsRead | src/providers/anthropic/adapter.ts:48-58 | A block of lines with any line ends is read as its last event field and its data fields, trimmed. |
| SseRecords.LinesJoined | src/providers/anthropic/adapter.ts:58 | Data lines are joined by line feeds. |
| SseRecords.NamedBlock | src/providers/anthropic/adapter.ts:48-79 | A named block gives one event, of that name except for the chat dialect, with the parsed data, or with the text when it does not parse. |
| SseRecords.UnnamedBlock | src/providers/openai/adapter.ts:48-84 | Without a name the data's own type names the event, or the dialect's default does. |
| SseRecords.AnyEndsParse | src/providers/openai-compatible.ts:117-144 | A transcript written with any line ends, in each of the three dialects, parses back to exactly its records. |
| SseRecords.TranscriptParses | src/protocols/openai-chat/stream-encoder.ts:203-205 | A printed transcript parses back to exactly its records, in each dialect that can read them. |
| AnthropicStream.AnthropicSseEncoder.Encode | src/protocols/anthropic/stream-encoder.ts:152-303 | Each event is written with its block index or rejected without changing the encoder, as the ordering rules say. |
| AnthropicStream.EncodeAnthropicStream | src/protocols/anthropic/stream-encoder.ts:470-483 | The script loop writes all records or reports the first violation, and a missing stop. |
| AnthropicStream.AcceptedIffComplete | src/protocols/anthropic/stream-encoder.ts:195-303 | A script is accepted exactly when every event is allowed by the history before it and the last is the stop. |
| AnthropicStream.RejectedFor | src/protocols/anthropic/stream-encoder.ts:152-303 | An event out of order is rejected with the error of the first rule it breaks, by the history before it. |
| AnthropicStream.WireRoundTrip | src/protocols/anthropic/stream-decoder.ts:67-183 | Printing, parsing and decoding an accepted script returns it with block indices 0, 1, 2, ..., normalised usage and no pings. |
| AnthropicUpstream.SentReads | src/protocols/anthropic/stream-decoder.ts:67-183 | Every event an upstream may send, with any of its optional fields, is decoded to itself. |
| AnthropicUpstream.NamedReads | src/protocols/anthropic/stream-decoder.ts:143-147 | Data without a type is read by the name of its record. |
| AnthropicUpstream.OthersRead | src/protocols/anthropic/stream-decoder.ts:84-183 | Redacted thinking opens a thinking block, an error may lack its message, and an unknown type says nothing. |
| AnthropicUpstream.RecordIs | src/protocols/anthropic/stream-encoder.ts:195-303 | Every record carries its own name as its type; a message opens empty, as the assistant's and not yet stopped. |
| AnthropicBlocks.BlocksStayBetween | src/protocols/anthropic/stream-encoder.ts:224-273 | Blocks that hold only deltas of their own kind keep a script in order and end between blocks. |
| AnthropicBlocks.WrapEncodes | src/protocols/anthropic/stream-encoder.ts:434-463 | A start, fitting blocks, a delta and a stop are always accepted. |
| ChatStream.ChatChunkEncoder.Encode | src/protocols/openai-chat/stream-encoder.ts:81-185 | Each event becomes its chunks, or is rejected without changing the encoder. |
| ChatStream.EncodeChatStream | src/protocols/openai-chat/stream-encoder.ts:243-256 | The script loop writes all chunks or reports the first violation, and a missing finish. |
| ChatStream.AcceptedIffInOrder | src/protocols/openai-chat/stream-encoder.ts:107-185 | A script is accepted exactly when it has one start, at the front, and one finish, at the end. |
| ChatStream.RejectedFor | src/protocols/openai-chat/stream-encoder.ts:81-185 | An event is rejected exactly when it follows the finish, starts twice or comes before the start, with that error. |
| ChatStream.DecodeToolCalls | src/protocols/openai-chat/stream-decoder.ts:81-105 | The tool-call loop yields each call's start and non-empty argument fragment in order. |
| ChatStream.WireRoundTrip | src/protocols/openai-chat/stream-decoder.ts:114-156 | Printing, parsing and decoding an accepted script returns it with empty deltas dropped. |
| ChatUpstream.ChunkSays | src/protocols/openai-chat/stream-decoder.ts:54-156 | Whatever fields a chunk carries, reasoning under either name and names, ids and arguments in one tool call included, exactly those are decoded, in order. |
| ChatUpstream.OthersSay | src/protocols/openai-chat/stream-decoder.ts:114-121 | The terminator ends the stream under either spelling; data that is no object says nothing. |
| ChatUpstream.EveryChunkStamped | src/protocols/openai-chat/stream-encoder.ts:81-185 | Every chunk of a transcript carries the start's id and model, the creation time, and at most the one choice numbered 0. |
| ChatResult.StreamEventsForChatResult | src/protocols/openai-chat/stream-encoder.ts:212-236 | The push loop expands a result into start, text, numbered calls and finish. |
| ChatResult.ResultEncodes | src/protocols/openai-chat/stream-encoder.ts:212-256 | Every expanded result is accepted by the encoder. |
| ChatResult.ResultOverTheWire | src/protocols/openai-chat/stream-decoder.ts:114-156 | A reader of an expanded result's transcript sees exactly that result. |
| ChatCollector.ResultCollects | src/protocols/openai-chat/stream-encoder.ts:212-236 | Joining the deltas of an expanded result gives the result back: text, indexed calls, reason and usage. |
| ResponsesStream.ResponsesSseEncoder.Encode | src/protocols/openai-responses/stream-encoder.ts:145-397 | Each event is written as its stamped records, or rejected without changing the encoder. |
| ResponsesStream.ResponsesSseEncoder.OnItemStop | src/protocols/openai-responses/stream-encoder.ts:301-357 | Closing an item writes its done records and moves it to the completed outputs and rendered items. |
| ResponsesStream.ResponsesSseEncoder.OnResponseDone | src/protocols/openai-responses/stream-encoder.ts:360-389 | The terminal event carries the snapshot of the completed outputs. |
| ResponsesStream.EncodeResponsesStream | src/protocols/openai-responses/stream-encoder.ts:444-459 | The script loop writes all records or reports the first violation, and a missing terminal event. |
| ResponsesStream.AcceptedIffComplete | src/protocols/openai-responses/stream-encoder.ts:173-389 | A script is accepted exactly when it opens with the creation, keeps the item rules and ends with the terminal event. |
| ResponsesStream.RejectedFor | src/protocols/openai-responses/stream-encoder.ts:145-389 | An event out of order is rejected with the error of the first rule it breaks, by the history before it. |
| ResponsesStream.SequenceIsGapless | src/protocols/openai-responses/stream-encoder.ts:392-397 | Sequence numbers run 0, 1, 2, ... over the whole transcript. |
| ResponsesStream.TerminalSnapshot | src/protocols/openai-responses/stream-encoder.ts:360-389 | For any complete script the terminal record carries the non-streaming object of the result the script describes. |
| ResponsesStream.ExpandedDescribes | src/protocols/openai-responses/stream-encoder.ts:405-437 | The script expanded from a result is complete and describes that result. |
| ResponsesStream.ExpandedSnapshot | src/protocols/openai-responses/response.ts:235-255 | Streaming a result ends in the same object as building it at once, with the same ids and clock. |
| ResponsesReading.ItemReads | src/protocols/openai-responses/response.ts:101-130 | A client reads a rendered item's id, text, call id, name and arguments back. |
| ResponsesReading.ObjectReads | src/protocols/openai-responses/response.ts:132-255 | Looked up by property names, the built object gives the result back: id, model, status, reason, error, items in order with their ids, text, and usage with its total. |
| ResponsesReading.TerminalReads | src/protocols/openai-responses/stream-encoder.ts:360-389 | The last record of any accepted stream is named by its status and read as the result its script describes. |
| ResponsesReading.LimitsEchoed | src/protocols/openai-responses/response.ts:202-203 | The request's instructions and token limit are repeated, or null. |
| ResponsesReading.ToolsEchoed | src/protocols/openai-responses/response.ts:207-210 | So are its tools and how they are chosen, or the defaults. |
| ResponsesReading.SamplingEchoed | src/protocols/openai-responses/response.ts:208-211 | So are temperature and top_p, or null. |
| ResponsesReading.OthersEchoed | src/protocols/openai-responses/response.ts:212-213 | So are reasoning and metadata, or the defaults. |
| ResponsesReading.DashesStripped | src/protocols/openai-responses/response.ts:96-98 | A generated id keeps every character but the dashes, in order. |
| ResponsesItems.EncodedAt | src/protocols/openai-responses/stream-encoder.ts:145-170 | The k-th event of a complete script has its own records, which stand after those of the events before it and nowhere else, encoded in the state that sums those up. |
| ResponsesItems.EveryRecordPlaced | src/protocols/openai-responses/stream-encoder.ts:444-459 | A transcript has no records but those of its events. |
| ResponsesItems.DoneCarriesDeltas | src/protocols/openai-responses/stream-encoder.ts:270-357 | The done record at the place of an item's end carries the concatenation of its deltas, under the item's id and output index. |
| ResponsesItems.ItemIsDone | src/protocols/openai-responses/stream-encoder.ts:301-357 | The last record of that end carries the item rendered, under the same id and index. |
| ResponsesItems.DeltaIsSent | src/protocols/openai-responses/stream-encoder.ts:270-298 | Every delta has a record at its own place, under the id and index of the item being written. |
| ResponsesItems.SlotStays | src/protocols/openai-responses/stream-encoder.ts:214-268 | The id and index of an item are the same in all its delta and done records: those of its start. |
| ResponsesItems.SlotPlace | src/protocols/openai-responses/stream-encoder.ts:214-268 | Its index is the number of outputs completed before it began. |
| ResponsesItems.SlotNamed | src/protocols/openai-responses/stream-encoder.ts:214-268 | Its id is drawn from the generator by that place, after the response's own, under the prefix of its kind. |
| ResponsesItems.StreamOpens | src/protocols/openai-responses/stream-encoder.ts:192-212 | A transcript opens with two records in which a client reads the empty response in progress. |
| ResponsesItems.ItemIsAdded | src/protocols/openai-responses/stream-encoder.ts:214-268 | An item begins with a record of the empty item, and a message with one of its empty part. |
| ResponsesItems.PartIsDone | src/protocols/openai-responses/stream-encoder.ts:301-357 | A message's one part is done with the text written, under the same id and index. |
| ChatToAnthropic.ChatToAnthropicTranslator.PushEvent | src/protocols/anthropic/stream-translate.ts:103-153 | One upstream event updates the fields and emits what the translation calls for. |
| ChatToAnthropic.ChatToAnthropicTranslator.EndStream | src/protocols/anthropic/stream-translate.ts:159-161 | Ending emits the terminal events once, closing what is open. |
| ChatToAnthropic.TranslationIs | src/protocols/anthropic/stream-translate.ts:103-216 | For any event sequence the translator emits one start, the history's deltas grouped into balanced blocks, one delta and one stop; nothing after a terminator counts. |
| ChatToAnthropic.BlocksFit | src/protocols/anthropic/stream-translate.ts:181-199 | Every block of that transcript holds deltas of its own kind only. |
| ChatToAnthropic.CallGathers | src/protocols/anthropic/stream-translate.ts:122-142 | A call's block holds the fragments that follow under its own upstream index, up to the next text, thought or call. |
| ChatToAnthropic.TypedBegins | src/protocols/anthropic/stream-translate.ts:110-121 | Text begins a block unless a text block is the last one, and so does thinking. |
| ChatToAnthropic.TypedGathers | src/protocols/anthropic/stream-translate.ts:110-121 | A block of either kind holds every later piece of its kind, up to the other kind or a call. |
| ChatToAnthropic.TranslationEnds | src/protocols/anthropic/stream-translate.ts:159-216 | The transcript opens with the counts reported before it was opened, the output count zero, and ends with the stop reason and the counts reported last. |
| ChatToAnthropic.ReportedBefore | src/protocols/anthropic/stream-translate.ts:163-178 | Those are the counts reported before the first event that opens the message. |
| ChatToAnthropic.StopReasonIs | src/protocols/anthropic/stream-translate.ts:33-61 | Which finish reasons become which stop reason, both ways. |
| ChatHistory.LastReported | src/protocols/anthropic/stream-translate.ts:146-148 | The usage reported last is the one that counts. |
| ChatHistory.LastReason | src/protocols/anthropic/stream-translate.ts:143-145 | The finish reason given last counts; a finish without one takes none back. |
| ChatToAnthropic.TranslationEncodes | src/protocols/anthropic/stream-encoder.ts:152-303 | The Anthropic encoder accepts the translation of any event sequence. |
| ChatToAnthropic.TextIsForwarded | src/protocols/anthropic/stream-translate.ts:103-153 | The visible text, and the reasoning text, reach the client unchanged and complete. |
| AnthropicToChat.AnthropicToChatTranslator.PushEvent | src/protocols/openai-chat/stream-translate.ts:86-142 | One upstream event updates the fields and emits what the translation calls for. |
| AnthropicToChat.AnthropicToChatTranslator.EndStream | src/protocols/openai-chat/stream-translate.ts:150-152 | Ending emits the finish once. |
| AnthropicToChat.TranslationIs | src/protocols/openai-chat/stream-translate.ts:86-188 | For any event sequence the translator emits one start, each event's delta by the history before it, and one finish with the merged usage. |
| AnthropicToChat.TranslationEnds | src/protocols/openai-chat/stream-translate.ts:150-188 | The script opens with the model and closes with the finish reason of the stop reason and the counts, absent ones being zero. |
| AnthropicToChat.LastCount | src/protocols/openai-chat/stream-translate.ts:86-142 | Each count is the one reported last, whatever reports came later without it. |
| AnthropicToChat.LastStop | src/protocols/openai-chat/stream-translate.ts:130-133 | The stop reason given last counts. |
| AnthropicToChat.FinishIs | src/protocols/openai-chat/translate.ts:201-212 | Which stop reasons become which finish reason, both ways. |
| AnthropicToChat.TranslationEncodes | src/protocols/openai-chat/stream-encoder.ts:81-185 | The chat encoder accepts the translation of any event sequence. |
| AnthropicToChat.TextIsForwarded | src/protocols/openai-chat/stream-translate.ts:110-122 | The text outside thinking blocks is forwarded unchanged and complete. |
| AnthropicToChat.CallsAreDense | src/protocols/openai-chat/stream-translate.ts:95-109 | Tool calls are numbered 0, 1, 2, ... whatever the upstream block indices. |
| ChatToResponses.ChatToResponsesTranslator.PushEvent | src/protocols/openai-responses/stream-translate.ts:88-136 | One upstream event updates the fields and emits what the translation calls for. |
| ChatToResponses.ChatToResponsesTranslator.EndStream | src/protocols/openai-responses/stream-translate.ts:144-153 | Ending emits the terminal event once, incomplete when no finish reason was seen. |
| ChatToResponses.TranslationDescribes | src/protocols/openai-responses/stream-translate.ts:88-208 | For any event sequence the script is complete and describes the history's outputs, status and usage. |
| ChatToResponses.CallGathers | src/protocols/openai-responses/stream-translate.ts:101-123 | A call's arguments are all the fragments after its start, joined, up to the next text or call. |
| ChatToResponses.MessageGathers | src/protocols/openai-responses/stream-translate.ts:95-100 | A message's text is all the text from its first piece on, joined, up to the next call. |
| ChatToResponses.AnyStreamSnapshot | src/protocols/openai-responses/stream-encoder.ts:360-389 | So any event sequence at all ends in a terminal snapshot equal to the object of that result. |
| ChatToResponses.AnyStreamReads | src/protocols/openai-responses/stream-translate.ts:88-208 | Whatever an upstream sends, the client's last record is named by the status and reads as the outputs and text that arrived, the last usage, and the status and reason the finish reason calls for. |
| ChatToResponses.TextIsForwarded | src/protocols/openai-responses/stream-translate.ts:88-136 | The snapshot's output text is the text that arrived before the terminator. |
| ResponsesAgreement.ChatResponseToCanonical | src/protocols/openai-responses/translate.ts:272-311 | The batch loop computes the canonical result: outputs in order, status, incomplete reason and usage. |
| ResponsesAgreement.StreamDescribesBatch | src/protocols/openai-responses/stream-translate.ts:46-208 | Translating the events of a completion describes exactly its batch result, id aside. |
| ResponsesAgreement.StreamingAgreesWithBatch | src/protocols/openai-responses/stream-encoder.ts:360-389 | For every completion, the chunk stream printed, parsed, decoded, translated and encoded ends in the object built from the batch translation. |
| ResponsesAgreement.ClientReadsCompletion | src/protocols/openai-responses/translate.ts:232-311 | Streamed or not, a client reads the completion's text, its calls in order, its usage, and the status and reason of its finish reason. |
| BlockReading.WrapTranslates | src/protocols/openai-chat/stream-translate.ts:86-188 | What a transcript of blocks, read off the wire, translates to: start, the blocks' deltas and calls, finish with the final usage. |
| BlockReading.MessageOverTheWire | src/protocols/openai-chat/stream-translate.ts:86-188 | What a chat client holds after a transcript of blocks went over the wire twice: its text, its calls in order, reason and usage. |
| ChatAgreement.AnthropicResponseToChat | src/protocols/openai-chat/translate.ts:267-301 | The batch loop joins text blocks and lists tool uses in order. |
| ChatAgreement.BlockEvents | src/protocols/anthropic/stream-encoder.ts:371-421 | One content block becomes its start, its non-empty deltas and its stop; a block of another type nothing. |
| ChatAgreement.ContentEvents | src/protocols/anthropic/stream-encoder.ts:371-421 | The loop expands all content blocks in order. |
| ChatAgreement.StreamingAgreesWithBatch | src/protocols/openai-chat/translate.ts:201-301 | For every message, the whole stream path collects to the batch result's text, calls and finish reason, and to its usage exactly when the message has a usage block. |
| ChatRoundTrip.StreamRelayed | src/gateway/stream-pipeline.ts:176-208 | Any chat body relayed through the Messages surface and back keeps its text, and the calls its blocks hold. |
| ChatRoundTrip.RoundTrip | src/protocols/anthropic/stream-translate.ts:33-61 | For every chat result: same text, same calls in order, same prompt and completion counts, and the same finish reason exactly when it is stop, length or tool_calls. |
| StreamCapture.ResponseAccumulator.AddText | src/gateway/stream-pipeline.ts:285-297 | A text delta is appended up to the cap. |
| StreamCapture.ResponseAccumulator.AddToolArgs | src/gateway/stream-pipeline.ts:305-314 | An argument fragment extends the latest call up to the cap. |
| StreamCapture.CaptureIs | src/gateway/stream-pipeline.ts:279-332 | The copy is the whole text and every call's whole arguments, each cut at the cap; when exactly it calls itself truncated. |
| StreamPipeline.ChatEvents | src/gateway/stream-pipeline.ts:156-165 | The decoded events of a body do not depend on its chunk boundaries. |
| StreamPipeline.AnthropicEvents | src/gateway/stream-pipeline.ts:91-103 | Likewise for an Anthropic body. |
| ChatToAnthropicPipeline.ChatToAnthropicStream | src/gateway/stream-pipeline.ts:176-208 | For any chunks no event is rejected, the client gets exactly the transcript of the whole body's translation, and the report is what the body said before its terminator. |
| ChatToAnthropicPipeline.LogHoldsClientText | src/gateway/stream-pipeline.ts:358-375 | The history copy's text is the text the client was sent, cut at the cap. |
| AnthropicToChatPipeline.AnthropicToChatStream | src/gateway/stream-pipeline.ts:113-148 | The same for the Anthropic to Chat pipeline. |
| ChatToResponsesPipeline.ChatToResponsesStream | src/gateway/stream-pipeline.ts:218-250 | The same for the Chat to Responses pipeline. |
| VerbatimStream.StreamObserver.Observe | src/gateway/stream-pipeline.ts:398-490 | One event is added to the usage and to the history copy as its protocol's observer says. |
| VerbatimStream.ObserveVerbatimStream | src/gateway/stream-pipeline.ts:503-533 | For every parser and protocol the client gets the very chunks, and the report is that of the whole body wherever the chunks break. |
| VerbatimStream.SameUsageEitherWay | src/gateway/stream-pipeline.ts:398-422 | A Messages body whose stop is not followed by more usage is reported alike whether forwarded or translated to chat. |
| VerbatimStream.ChatUsageEitherWay | src/gateway/stream-pipeline.ts:431-449 | A chat body whose terminator is not followed by usage is reported with the same input and output counts whether forwarded or translated; its cached count is the last one any usage gave, and agrees with the translators' exactly when the last usage gives one or none does. |
| VerbatimStream.CachedCountsDiffer | src/gateway/stream-pipeline.ts:431-449 | A body on which the cached counts differ: 5 forwarded, none translated. |
| VerbatimStream.TranslatorsReport | src/gateway/stream-pipeline.ts:176-250 | Both translated pipelines of a chat body report its last usage whole, cached count included. |
| ResponsesObserved.TranscriptObserved | src/gateway/stream-pipeline.ts:448-478 | A Responses transcript parses back to its records, and the observer reads the streamed text and the terminal event's usage out of them. |
| Routing.Backoff | src/routing/retry.ts:54-65 | A delay is at most the exponential one and the ceiling, and at least half the smaller of them. |
| Routing.WorkQueue.NextFallbackHop | src/gateway/server.ts:1065-1119 | After a failure the queue goes on to the next account, or to the next candidate linked to the failed hop, or not at all. |
| Routing.WorkQueue.AdvanceAfterFailure | src/gateway/server.ts:1006-1039 | A retryable failure within the policy puts the same hop back, linked to itself, after the backoff; otherwise as the fallback says. |
| Routing.AdvanceMovesOn | src/gateway/server.ts:1006-1119 | Whatever goes on is planned, linked to the failed hop and lexicographically smaller, and never follows a deterministic fault. |
| Routing.RetryIs | src/gateway/server.ts:1006-1030 | A lost connection or timeout before the stream, with a retry left, puts the same hop back with one more retry. |
| Routing.RotationIs | src/gateway/server.ts:1080-1100 | A refused account goes to exactly the provider's next account while there is one, and otherwise ends the request. |
| Routing.FallbackIs | src/gateway/server.ts:1101-1119 | Any other fault goes to the waiting candidate, on its own provider and model, exactly when it is one of the four reliability faults or came with a trigger status and is not deterministic. |
| AttemptRules.RuleMovesOn | src/gateway/server.ts:1306-1503 | The same for every turn of the loop, cooldown skips included. |
| AttemptRules.StoryLinked | src/gateway/server.ts:1065-1119 | Over a whole run, each hop popped after the first, skipped or attempted, carries a trigger and the model of the hop popped just before it, and the last one popped was attempted. |
| AttemptRules.StoryEvents | src/gateway/server.ts:1420-1565 | Over a whole run every attempt but the last has one event, of a fault that is not deterministic, under its index; then comes the logical-request event unless a stream is to emit it. |
| AttemptRules.EveryRun | src/gateway/server.ts:1305-1618 | All of that for every plan, and that calls and backoff stay within hops, spare accounts and retries. |
| AttemptRuns.EveryHop | src/gateway/server.ts:1305-1618 | Over a whole run, the hop popped next, or that there is none, is what the hops popped so far and the world's last answer call for, and the ending is read off the last turn. |
| AttemptRuns.EveryCost | src/gateway/server.ts:1305-1618 | Over a whole run, the events, calls, backoff and attempts made are read off its hops and the world's answers. |
| AttemptRuns.NextTried | src/gateway/server.ts:1065-1119 | Each next hop keeps to the plan's order and to the order of a provider's accounts. |
| AttemptRuns.FailsExhausted | src/gateway/server.ts:1065-1119 | A request fails for good only when nothing is left: after a reliability fault every planned hop was tried in turn and the last one's retries used up where permitted, after a refused account every other account of its provider. |
| Lifecycle.TerminalIs | src/gateway/server.ts:536-551 | Which faults have a terminal state of their own; all others are the upstream's. |
| Lifecycle.Attempt.Complete | src/lifecycle/attempt.ts:112-120 | Only the first completion counts. |
| Lifecycle.RequestContext.StartAttempt | src/lifecycle/request-context.ts:78-87 | A new attempt's index is its position. |
| Lifecycle.RequestContext.Complete | src/lifecycle/request-context.ts:95-101 | Only the first completion counts. |
| Lifecycle.StreamEnd.Completed | src/gateway/server.ts:902-931 | The first completion emits the event, later ones nothing. |
| Lifecycle.DrainStream | src/gateway/server.ts:902-931 | However often a stream completes its event is emitted once, and never when it does not. |
| AttemptLoop.Fail | src/gateway/server.ts:1420-1503 | A failed attempt is superseded with one attempt event, or ends the request with its logical-request event, as ruled. |
| AttemptLoop.Win | src/gateway/server.ts:1505-1565 | A buffered success is settled at once; a streamed one leaves its event to the end of the stream. |
| AttemptLoop.Cool | src/gateway/server.ts:1313-1341 | A cooling provider is skipped without an attempt, or ends the request as overloaded when it is the last. |
| AttemptLoop.TakeTurn | src/gateway/server.ts:1306-1615 | One turn does exactly what the ruling on the queue's head and the world's answers says. |
| AttemptLoop.HandleAttempts | src/gateway/server.ts:1305-1618 | The loop ends and its final throw is unreachable; every attempt is accounted for once, and the run is, hop by hop and event by event, the one its story tells, so it is linked and within its bounds. |
| AttemptLoop.SettleAtGate | src/gateway/server.ts:1201-1300 | A request settled by the cache, the budget or the tool policy has one attempt, no upstream call and one logical-request event. |
| AttemptLoop.HandleMessages | src/gateway/server.ts:1121-1618 | The same account, bounds included, for the handler as a whole, on the hops it plans from its route. |
| AttemptLoop.ServeMessages | src/gateway/server.ts:902-931 | A request and any number of completions of its stream emit together at most one logical-request event; it is the last event and the last attempt's, and missing only when a stream never completes. |
| AttemptLoop.PlannedHops | src/gateway/server.ts:1175-1198 | The plan is the primary, or what a budget downgrade swaps it for and marks as such, and then the fallbacks, none of them retried yet. |
| Outbox.UpdateEachAt | src/integrations/tokemetry/outbox.ts:120-133 | A transaction of distinct ids changes each of those rows once and no other. |
| Outbox.ClaimIsDue | src/integrations/tokemetry/outbox.ts:109-117 | A claim is a selection of due rows: all of them, or as many as the limit, the oldest first. |
| Outbox.TokemetryOutbox.Enqueue | src/integrations/tokemetry/outbox.ts:92-106 | An event becomes one pending row, due at once, under a fresh id. |
| Outbox.TokemetryOutbox.ClaimBatch | src/integrations/tokemetry/outbox.ts:109-117 | The query's loop selects the first due rows and changes none. |
| Outbox.TokemetryOutbox.MarkExported | src/integrations/tokemetry/outbox.ts:120-133 | The named rows become exported. |
| Outbox.TokemetryOutbox.MarkFailed | src/integrations/tokemetry/outbox.ts:136-154 | The named rows get one more attempt, their next time and the redacted error. |
| Outbox.TokemetryOutbox.MarkDead | src/integrations/tokemetry/outbox.ts:157-171 | The named rows become dead with the redacted error. |
| Outbox.TokemetryOutbox.PurgeExported | src/integrations/tokemetry/outbox.ts:186-192 | Only exported rows older than the time given are deleted. |
| Outbox.KeptAre | src/integrations/tokemetry/outbox.ts:186-192 | A purge leaves exactly the rows that are not exported or not older than its time. |
| Batcher.TokemetryBatcher.RetireByAttempts | src/integrations/tokemetry/batcher.ts:128-153 | Each row of a failed batch is put off or, out of attempts, dead; exactly the rows whose step the process lived to are changed; the counters say how many of each. |
| Batcher.TokemetryBatcher.Handle | src/integrations/tokemetry/batcher.ts:155-197 | For a process that lives so many steps: exactly which rows are settled, each by the reply that decides it, and exactly which posts were made. |
| Batcher.TokemetryBatcher.HandleEach | src/integrations/tokemetry/batcher.ts:175-184 | A rejected batch is handled row by row, two steps each, up to where the process dies. |
| Batcher.TokemetryBatcher.FlushOnce | src/integrations/tokemetry/batcher.ts:86-100 | A flush settles the due batch as far as the process lives; one that lives to its end satisfies claimed = exported + retried + dead. |
| Batcher.Evident | src/integrations/tokemetry/batcher.ts:155-184 | However soon a flush dies, a row it exported was in a post it made and the server stored. |
| Batcher.WholeFlush | src/integrations/tokemetry/batcher.ts:86-197 | A flush that lives to its end has settled every row it claimed and made every post. |
| OutboxFates.AnsweredTogether | src/integrations/tokemetry/batcher.ts:155-197 | After a whole flush answered 2xx, with an exception, or by any status that is not a 4xx, or by 401, 403, 408 or 429, there is one post; each claimed row is exported, put off with one more attempt and the doubled backoff, or, out of attempts, dead; no other row changes. |
| OutboxFates.RefusedIsSplit | src/integrations/tokemetry/batcher.ts:173-184 | A batch of more rows answered by another 4xx is posted again row by row, in order. |
| OutboxFates.AnsweredAlone | src/integrations/tokemetry/batcher.ts:173-184 | Each row of such a batch is treated by the status its own post was answered with. |
| OutboxFates.ChangedByAnswer | src/integrations/tokemetry/batcher.ts:128-197 | However soon a flush dies, a row it changed was pending and due; it died with attempts left only if refused alone by another 4xx, and was exported only if in a post answered 2xx. |
| OutboxFates.BackoffDoubles | src/integrations/tokemetry/batcher.ts:78-83 | The wait before the next attempt is the base doubled with each attempt, up to the longest. |
| OutboxFates.CountersMean | src/integrations/tokemetry/batcher.ts:128-197 | The counters of a flush say how many rows are exported, still pending and dead after it. |
| OutboxRuns.FlushKeeps | src/integrations/tokemetry/batcher.ts:86-197 | A flush, dying after any number of steps, keeps the run sound: no row lost, exported only if stored, claims bounded, stored errors free of credentials, posts answered by the server. |
| OutboxRuns.EveryRunSound | src/integrations/tokemetry/outbox.ts:92-192 | So does any run of enqueues, purges and flushes dying anywhere. |
| OutboxRuns.RunAll | src/integrations/tokemetry/outbox.ts:92-192 | The table and the posts after such a run are exactly those the run's operations come to. |
| OutboxRuns.NothingLost | src/integrations/tokemetry/outbox.ts:5-12 | After any run every event ever enqueued is in the table unexported, or was stored by the server; at most max(1, maxAttempts) flushes that lived to their end had claimed it. |
| OutboxRuns.StoredMeansSent | src/integrations/tokemetry/batcher.ts:101-126 | An event said to be stored was sent in a post that the server answered so. |
| OutboxRuns.PoisonIsIsolated | src/integrations/tokemetry/batcher.ts:173-184 | Against an all-or-nothing server one completed flush dead-letters exactly the poison, and each healthy row is stored exactly once. |
| OutboxRuns.StoredExactlyOnce | src/integrations/tokemetry/batcher.ts:86-197 | Over any run in which no flush is cut short, such a server has stored each healthy event exactly once, or not yet while its row is pending, and no poison, whose rows end dead. |
| EventSinks.Sink.Enqueue | src/lifecycle/event-sinks.ts:138-153 | An emission drops the oldest job of a full queue, queues the new one and wakes an idle worker. |
| EventSinks.Sink.Process | src/lifecycle/event-sinks.ts:155-173 | The worker runs to the next handler that waits, or empties the queue and goes idle. |
| EventSinks.Sink.Settle | src/lifecycle/event-sinks.ts:155-186 | A settled handler is counted once and the worker goes on. |
| EventSinks.RunRests | src/lifecycle/event-sinks.ts:129-187 | Every interleaving keeps the queue a suffix of what was emitted and the handled jobs a subsequence of what came before it, with at most one in flight. |
| EventSinks.CountersAgree | src/lifecycle/event-sinks.ts:138-186 | Emitted = delivered + errors + dropped + queued + in flight, exactly when the limit is at least 1 or nothing was emitted. |
| EventSinks.CountersMean | src/lifecycle/event-sinks.ts:138-186 | A drop is counted for each emission that found the queue full, a delivery for each handler that returned, an error for each that rejected or threw. |
| EventSinks.NoLostWakeUp | src/lifecycle/event-sinks.ts:113-127 | An idle worker has an empty queue, a busy one a handler in flight; the queue stays within its limit; handlers ran in emission order. |
| Redact.RedactString | src/config/redact.ts:38-44 | The pattern loop replaces the matches of each pattern in turn. |
| Redact.ReplaceClears | src/config/redact.ts:38-44 | Replacing a pattern's matches leaves none, not even across a replacement. |
| Redact.RedactedIsClean | src/config/redact.ts:23-44 | The output of redactString matches none of the seven patterns. |
| Redact.RedactsOnlyCredentials | src/config/redact.ts:38-44 | A text is left as it is exactly when it matches none. |
| Redact.RedactStringIdempotent | src/config/redact.ts:38-44 | Redacting a text twice is redacting it once. |
| RedactShapes.ClassesAre | src/config/redact.ts:24-30 | The characters of each pattern's class, spelled out. |
| RedactShapes.CleanIs | src/config/redact.ts:23-31 | A text is clean exactly when no part of it has one of the seven credential shapes. |
| RedactShapes.ReplacedWhole | src/config/redact.ts:38-44 | The first match of a pattern is replaced from its prefix to the last character it can take, and the search goes on after it. |
| RedactShapes.TokenReplaced | src/config/redact.ts:26 | A bearer token is replaced with its padding. |
| Redact.RedactedValueIsClean | src/config/redact.ts:57-81 | No string of a redacted value, however deep, holds a credential. |
| RedactShapes.FieldBecomes | src/config/redact.ts:57-81 | An entry stays null, is dropped under a sensitive key, or is redacted itself; keys, numbers and booleans stay. |
| Redact.KeysAreLeft | src/config/redact.ts:73-78 | A credential in a key is left, whichever keys are sensitive. |
| Redact.CleanThroughoutIffKeysClean | src/config/redact.ts:57-81 | A redacted value is free of credentials, keys included, exactly when no key left standing, that is none below a dropped entry, held one. |
| Redact.RedactValueIdempotent | src/config/redact.ts:51-81 | Redacting a value twice is redacting it once, whichever keys are sensitive. |
| JsonDepth.JsonNestingDepth | src/gateway/limits.ts:33-62 | The character loop computes the scanner's maximum. |
| JsonDepth.DepthMeasured | src/gateway/limits.ts:29-62 | For every JSON text (RFC 8259, sections 2 to 7), with any white space and escapes, that is the nesting depth of the value. |
| Cooldown.CooldownManager.RecordFailure | src/routing/cooldown.ts:59-72 | A failure is kept with the recent ones and may start a cooldown; no other provider changes. |
| Cooldown.CooldownManager.RecordSuccess | src/routing/cooldown.ts:75-81 | A success clears the provider. |
| Cooldown.CooldownManager.IsAvailable | src/routing/cooldown.ts:84-98 | The answer, and the healing of a provider whose cooldown is over. |
| Cooldown.AlwaysRemembers | src/routing/cooldown.ts:59-98 | After any operations the breaker holds the failures that can still count and the end of the last cooldown. |
| Cooldown.TripsIs | src/routing/cooldown.ts:59-72 | A failure trips the breaker exactly when, with it, at least the allowed number are less than a window old. |
| Cooldown.AnswersAsIfNothingPruned | src/routing/cooldown.ts:59-98 | A provider is unavailable exactly while the cooldown of some tripping failure since the last clear lasts. |
| RateLimiter.EstimateRateLimiter.Check | src/gateway/openai-endpoints.ts:212-227 | A call's answer and its client's new window; no other client changes. |
| RateLimiter.EstimateRateLimiter.Purge | src/gateway/openai-endpoints.ts:230-237 | Exactly the windows that are over are dropped. |
| RateLimiter.FewerThanTwiceTheLimit | src/gateway/openai-endpoints.ts:212-227 | In any interval as long as a window a client gets fewer than two windows' worth of calls. |
| RateLimiter.BoundReached | src/gateway/openai-endpoints.ts:212-227 | That bound is reached for every limit of at least 1 and every window of at least 2 ms. |
| RateLimiter.WaitIsEnough | src/gateway/openai-endpoints.ts:219-223 | A refused client is refused until exactly the time it was told. |
| RateLimiter.PurgeChangesNothing | src/gateway/openai-endpoints.ts:230-237 | Purges anywhere in a history change no answer. |
| Budget.BudgetManager.EnsureWindows | src/ops/budget/budget.ts:181-192 | A cache is summed anew when its window has changed. |
| Budget.BudgetManager.Check | src/ops/budget/budget.ts:211-251 | The breach found on the current windows, and whether it blocks. |
| Budget.BudgetManager.RecordSpend | src/ops/budget/budget.ts:267-280 | A positive spend is added to both caches and the ledger. |
| Budget.BudgetManager.Reset | src/ops/budget/budget.ts:336-342 | The key's day is deleted and the caches summed anew. |
| Budget.CachesAgree | src/ops/budget/budget.ts:172-204 | After any run on any stored ledger the caches are the ledger sums of their windows, and hourly is at most daily. |
| Budget.LedgerHoldsSpends | src/ops/budget/budget.ts:211-342 | After any run the ledger's sum for every day and every hour is what was stored for it and each positive amount recorded in it while enabled, since its day was last reset. |
| Budget.AdmissionIs | src/ops/budget/budget.ts:211-251 | A blocking manager admits a request exactly when its estimate is within the per-request ceiling and those sums are under theirs; the breach named is the first of the three. |
| Budget.OthersAdmit | src/ops/budget/budget.ts:211-251 | A disabled manager and one that does not block admit everything. |
| Budget.ShutUntilReset | src/ops/budget/budget.ts:211-342 | Once a window has cost its ceiling nothing is admitted in it until a reset. |
| Budget.OvershootBounded | src/ops/budget/budget.ts:211-280 | With a blocking ceiling, opened on a ledger within it, no hour and no day exceeds it by more than k waiting requests cost. |
| Budget.ResetClears | src/ops/budget/budget.ts:336-342 | After any run on a forward clock a reset leaves nothing spent in the current windows, even if the day turned unnoticed. |

## Left out

- HTTP serving, sockets, backpressure, UTF-8 decoding and timeouts: bodies are sequences of text chunks.
- Laziness of the generators: a pipeline here decodes a body before it translates it; what the client is sent and what
  is reported is the same, when each piece is sent is not modelled.
- A client that disconnects in the middle of a pipeline: its report covers the events read until then.
- JSON numbers that are not integers, and the text of JSON beyond what `Json.Lawful` says; `__proto__` keys.
- Strings are sequences of characters: cutting one at the cap may split a surrogate pair, which is not modelled.
- Gemini and Ollama adapters and their stream parsers.
- Fields the translations copy without looking at them (service tier, request ids, roles other than the assistant's).
- Route planning, downgrade tables and model aliases: a route is any primary, swap and list of fallbacks.
- Exceptions thrown by adapters while parsing or classifying, and registry errors of another kind, which the handler
  lets through; account lists that change while a request is under way.
- Handlers of the other two client surfaces, which make a single attempt.
- Events are emitted best-effort: a sink or outbox that throws is ignored by the gateway and is not modelled here.
- SQLite itself: a table is a sequence of rows and a statement or transaction is one step.
- Two flushes of the same outbox at once: flushes follow one another, with crashes between any two steps.
- Registration of sinks, the rate of their warnings, and the loop over sinks: sinks do not share state.
- The key pattern of `isSensitiveKey`: any predicate on keys; `serializeForDiagnostics`.
- A changed cooldown or budget configuration in the middle of a run; alert thresholds and percentages.
- Floating-point sums of money: amounts are exact reals.
- The response cache, the token pool, configuration loading, the dashboard, the CLI and service templates.
- AttemptLoop.HandleMessages: the gate's own checks (cache lookup, budget, tool policy) are a parameter.
- Batcher.TokemetryBatcher.Send: what a post contains is its rows; mapping, headers and JSON envelope are not modelled.
