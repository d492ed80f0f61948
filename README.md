# llm-msg-io, modelled in Dafny

llm-msg-io converts chat messages between a provider-neutral canonical form and the wire formats of several LLM APIs (Anthropic Claude, Google Gemini, OpenAI Chat Completions and Responses). It also stores conversations in two file formats: newline-delimited JSON, and STF, a line-oriented transcript format. This project models the sequential core of the library and proves what it promises.

- **Canonical messages** (`content.dfy`, `message.dfy`, `message_util.dfy`, `extra.dfy`):
  - message content is either a string or a list of parts;
  - `concatContents` and `concatContentsTo` merge contents. The merge is not associative part by part, so its text projection is what is proved;
  - per-provider `extra` namespaces;
  - copying helpers that strip or remap ids.
- **The streaming delta engine** (`stream_state.dfy`):
  - a `StepStreamState` class whose `ApplyDelta` and `Finalize` methods return the events the generators yield;
  - each method is proved against a specification function on the state's value.
- **The provider chunk folds that feed or re-implement the engine**:
  - Claude's event stream (`claude_stream.dfy`);
  - the OpenAI Chat chunk loop (`openai_chat_stream.dfy`). The same loop is copied in `src/msg-codec/openai/chat-stream.ts` with other type and handler names.
- **Request and response mappings**:
  - Claude (`claude_request.dfy`, `claude_response.dfy`);
  - Gemini (`gemini_request.dfy`, `gemini_response.dfy`);
  - OpenAI Chat, current and two older copies (`openai_chat.dfy`, `msgcodec_openai_chat.dfy`, `msgcodec_openai.dfy`);
  - OpenAI Responses (`msgcodec_response.dfy`).
  - Errors the code throws become `Err` results.
  - Image data URLs follow the `data:<type>;base64,<data>` subset of section 3 of RFC 2397.
- **File formats**:
  - the decoder's shape normaliser (`codec_decoder.dfy`);
  - ND-JSON framing with its round trip (`ndjson.dfy`);
  - STF:
    - the argument tokenizer (`stf_args.dfy`);
    - the decode state as a class (`stf_state.dfy`);
    - the command table and commands (`stf_commands.dfy`);
    - the line-classifier state machine with its comment depth and invoked-command slot (`stf_decoder.dfy`);
    - the encoder (`stf_encoder.dfy`);
    - the proof that the decoder reads back what the encoder writes, as far as the format carries it (`stf_roundtrip.dfy`, `stf_transcript.dfy`).

**Modelling conventions**
- Values are a JSON-like datatype with an explicit `Undefined` (`json.dfy`). Shared Option/Result types are in `wrappers.dfy`; string helpers are in `strings.dfy`; the index sort used by the stream folds is in `sorting.dfy`.
- Loops of the source are `method`s with invariants, each proved equal to a specification function. The lemmas state the source's promises about those functions.
- Foreign code is passed in as function parameters: JSON and JSON5 parsing and stringifying, and the unique-id supply.

**Where the code differs from its documentation, its evident intent or its tests, the model follows the code**
- The Gemini encoder returns `contents: []`.
- The engine's `refusal.delta` event carries `""`, while the OpenAI chunk loop's carries the fragment.
- The STF files come from two revisions:
  - `decoder.ts` uses `invoked`, `buffered_lines`, `flushBufferedLines` and `mode`;
  - `decode-state.ts` and `command/type.ts` declare other names.
  - The model has one `DecodeState` class holding both sets of fields.
  - `flushBufferedLines`, which `decode-state.ts` does not define, is specified by what the decoder's tests require: it appends the buffer to the current message and keeps that message current, and it drops a blank-only buffer when no message is current.
- The STF defects are listed under Findings. Each has its as-written form and a corrected one; the rest of the model uses the corrected one.

## Model

| member | source | states |
|---|---|---|
| Wrappers.MapResult | src/message/codec.ts:36-39 | `xs.map(f)` with a throwing `f`: succeeds exactly when every element does, keeps every result in order, and otherwise fails with the first element's error |
| Strings.Split | src/file-codec/ndjson.ts:32 | `s.split(c)` on one character: at least one piece, no piece holds the separator, and joining the pieces with it gives `s` back |
| Strings.SplitJoin | src/file-codec/ndjson.ts:25-32 | splitting separator-free lines joined with the separator gives the lines back |
| Strings.SplitLimit2 | src/api-codec/claude/request.ts:48 | `s.split(c, 2)`: the first piece, and the second exactly when `s` holds the separator |
| Strings.TrimStartShape | src/file-codec/ndjson.ts:39 | `trimStart` removes all leading whitespace and nothing else |
| Strings.TrimEndShape | src/file-codec/ndjson.ts:39 | `trimEnd` removes all trailing whitespace and nothing else |
| Strings.TrimEmptyIff | src/file-codec/ndjson.ts:39-43 | `trim()` gives `''` exactly for whitespace-only lines |
| Strings.IndexOf | src/api-codec/gemini/request.ts:48 | the index of the first occurrence of a character, or -1 exactly when there is none |
| Strings.NatToString | src/file-codec/stf/command/args.ts:124 | the decimal rendering of a number in a template literal: digits only, never empty |
| Strings.NatToStringValue | src/file-codec/stf/command/args.ts:124 | the rendered digits read back as the number, and start with `0` only for zero |
| Sorting.SortInts | src/message/stream/state.ts:121-124 | `.sort((a, b) => a - b)` on the indices: ascending, and a permutation of the input |
| Sorting.SortIntsSorted | src/message/stream/state.ts:121-124 | already ascending indices come back unchanged |
| Sorting.SortIntsMembers | src/message/stream/state.ts:121-124 | sorting keeps exactly the members |
| CodecDecoder.ValidateMessagesIsMap | src/message/codec/decoder.ts:33 | `MessageArray.assert` checks the elements in order and keeps them all: the message check mapped over the array |
| CodecDecoder.MessagesRoundTrip | src/message/codec/decoder.ts:33 | the untyped form of any list of messages passes `MessageArray.assert` unchanged |
| CodecDecoder.AsDecodedData | src/message/codec/decoder.ts:26-59 | null, undefined and primitives are a `TypeError`; an array is the message list; an object with `messages` gives the checked list plus `metadata` exactly when that key holds something other than `undefined`; any other object is one checked message |
| CodecDecoder.DecodedDataRoundTrip | src/message/codec/decoder.ts:41-53 | `{messages, metadata}` comes back as it was, for any metadata other than `undefined` |
| CodecDecoder.DecodedArrayRoundTrip | src/message/codec/decoder.ts:31-35 | a bare array of messages decodes to those messages without metadata |
| CodecDecoder.CreateRawDecoder | src/message/codec/decoder.ts:65-70 | applies the function itself, or the codec's `createDecoder`, to the options |
| CodecDecoder.RawDecoderShapeFree | src/message/codec/decoder.ts:62-70 | passing the function or an object holding it as `createDecoder` makes no difference |
| CodecDecoder.ValidatedMetadata | src/message/codec/decoder.ts:80 | without a validator the metadata is `undefined`; with one, it is the validator's result on the metadata (absent read as `undefined`) |
| CodecDecoder.Decode | src/message/codec/decoder.ts:73-87 | succeeds exactly when the raw decoder, `asDecodedData` and the metadata validator all do; keeps the messages, and sets `metadata` exactly when the validated value is not `undefined` |
| CodecDecoder.DecodeKeepsMetadata | src/message/codec/decoder.ts:73-87 | with a validator that accepts everything, the decoder returns exactly what `asDecodedData` found |
| CodecDecoder.ValidateMessageArray | src/message/codec.ts:36-39 | a non-array is an error naming its type; an array is checked element by element, the first failure being the result |
| CodecDecoder.AsDeserializedData | src/message/codec.ts:62-95 | as `asDecodedData`, except that an object with `messages` keeps `metadata` whenever the key exists, `undefined` included |
| CodecDecoder.DeserializedVsDecoded | src/message/codec.ts:62-95 | the two interfaces accept the same values and find the same messages; they differ only on a `metadata` key holding `undefined` |
| NDJSON.EncodedLines | src/file-codec/ndjson.ts:14-24 | one line per message, after a `{metadata}` line exactly when the metadata is truthy |
| NDJSON.Encode | src/file-codec/ndjson.ts:14-26 | the loop returns the encoded lines joined with `"\n"` |
| NDJSON.AsJsonObject | src/file-codec/ndjson.ts:7-11 | accepts exactly the objects, and rejects null, undefined, primitives and arrays with a `TypeError` |
| NDJSON.DecodeLine | src/file-codec/ndjson.ts:38-56 | one turn of the decoding loop: skip a blank line, parse it, check it is an object, take it as the metadata or as a message |
| NDJSON.Decode | src/file-codec/ndjson.ts:27-63 | the loop computes the decoding `DecodeRaw`; a non-string source is a `TypeError` |
| NDJSON.DecodeFoldErr | src/file-codec/ndjson.ts:45-46 | the first line that fails to parse or is not an object ends decoding with its error |
| NDJSON.NonBlank | src/file-codec/ndjson.ts:39-43 | the lines kept are the non-blank ones |
| NDJSON.BlankLinesSkipped | src/file-codec/ndjson.ts:39-43 | whitespace-only lines make no difference to the result |
| NDJSON.Classify | src/file-codec/ndjson.ts:48-55 | describes without a loop the state after a list of objects: `metadata_parsed` is set exactly when there was an object |
| NDJSON.ClassifySnoc | src/file-codec/ndjson.ts:48-55 | the loop's step on one more object agrees with that description |
| NDJSON.FoldNonBlank | src/file-codec/ndjson.ts:38-56 | on non-blank lines the loop parses every line and classifies the objects in order |
| NDJSON.DecodeFoldDirect | src/file-codec/ndjson.ts:38-56 | the loop computes the direct description: drop blank lines, parse all, classify |
| NDJSON.EncodedLineParses | src/file-codec/ndjson.ts:18-22 | every encoded line has no line feed, is not blank and parses back to its object |
| NDJSON.EncodedLinesParse | src/file-codec/ndjson.ts:14-24 | all encoded lines parse back to the encoded objects, in order |
| NDJSON.MessageKeys | src/file-codec/ndjson.ts:48 | a message has `role` and `content`, so it is never taken for the metadata line |
| NDJSON.ClassifyEncoded | src/file-codec/ndjson.ts:48-55 | classifying the encoded objects finds the metadata (when truthy) and the messages again |
| NDJSON.EncodedLinesBack | src/file-codec/ndjson.ts:14-56 | the decoding loop on the encoder's lines ends with the messages and the truthy metadata |
| NDJSON.RoundTrip | src/file-codec/ndjson.ts:13-63 | `asDecodedData(decode(encode(messages, metadata)))` gives back the messages, and the metadata exactly when it is truthy |
| Content.TextToContentPartArray | src/message/schema/content.ts:40-46 | `""` gives no part; any other string gives exactly one text part, and that part's text is the string |
| Content.TextArrayJoinsToText | src/message/schema/content.ts:51-67 | joining the array form `messageContentToTextArray` gives the text form `messageContentToText`, since non-text parts contribute `""` |
| Content.PartsTextSplit | src/message/schema/content.ts:53-58 | the text of a part list distributes over concatenation of part lists |
| Content.TextPartTextsAppend | src/message/schema/content.ts:62-67 | the array form keeps one entry per text part, in order, and distributes over concatenation |
| Content.ConcatContents | src/message/schema/content.ts:75-92 | no operand gives `""`; one operand is returned as is; the result is a string exactly when every operand is one; its text is the operands' texts concatenated |
| Content.FlatPartsConcat | src/message/schema/content.ts:85-91 | the mixed case lays the operands' parts side by side in argument order |
| Content.FlatPartsSingle | src/message/schema/content.ts:85-91 | one operand contributes its own parts: none for `""`, one text part for a non-empty string, and a part list contributes itself |
| Content.MixedConcat | src/message/schema/content.ts:75-92 | two or more operands, at least one a part list, give the flattened parts |
| Content.ConcatContentsNotAssociative | src/message/schema/content.ts:81-91 | merging is not associative: `"a"`,`"b"` merged first give one text part `"ab"`, all three at once give two text parts |
| Content.ConcatContentsTextAssociative | src/message/schema/content.ts:75-92 | the text of a merge is associative even though the merge is not |
| Content.ConcatContentsTo | src/message/schema/content.ts:104-128 | the loop's result equals the fold `ConcatInto` of the target over the operands |
| Content.ConcatIntoEmptyOperands | src/message/schema/content.ts:105-110 | no operands, or only empty ones, leave the target unchanged |
| Content.ConcatIntoKeepsParts | src/message/schema/content.ts:118-124 | a part-list target stays a part list and its original parts stay a prefix (appends only at the end) |
| Content.ConcatIntoPlainIff | src/message/schema/content.ts:109-125 | the result is a string exactly when the target is one and every non-empty operand is one |
| Content.ConcatStepText | src/message/schema/content.ts:110-124 | one step appends the operand's text to the target's text |
| Content.ConcatIntoText | src/message/schema/content.ts:104-128 | the result's text is the target's text followed by every operand's text |
| Content.ConcatStepParts | src/message/schema/content.ts:118-124 | one step on a part list appends exactly the parts a fresh `concatContents` takes from that operand |
| Content.ConcatIntoPartsFlat | src/message/schema/content.ts:104-128 | on a part-list target the operands' parts are appended in order |
| Content.ConcatIntoPartsIsConcat | src/message/schema/content.ts:75-128 | on a part-list target, `concatContentsTo` agrees with `concatContents` of the target and the operands |
| Messages.AsMessageArray | src/message/schema/message.ts:70-81 | an array of messages is returned as it is; a single message is wrapped in a one-element array |
| Messages.AttrsRoundTrip | src/message/schema/content.ts:9-30 | the optional file attributes of an image, audio or file part pass the part check and come back unchanged, with `type` set to the part's kind |
| Messages.ContentPartRoundTrip | src/message/schema/content.ts:32-36 | every content part, in its untyped form, passes the part check and comes back unchanged |
| Messages.ContentPartsRoundTrip | src/message/schema/content.ts:48 | every part list passes the `ContentPart.array()` check unchanged |
| Messages.ContentRoundTrip | src/message/schema/content.ts:48 | every content, string or part list, passes the `MessageContent` check and comes back unchanged |
| Messages.ToolCallRoundTrip | src/message/schema/message.ts:6-13 | every tool call passes the `ToolCall` check and comes back unchanged |
| Messages.ToolCallsRoundTrip | src/message/schema/message.ts:54 | every list of tool calls passes the `ToolCall.array()` check unchanged |
| Messages.MessageValueFields | src/message/schema/message.ts:16-42 | names where each field of a message lands in its untyped object form; an optional field is present as a key exactly when it is set |
| Messages.MessageRoundTrip | src/message/schema/message.ts:44-57 | every message, custom roles included, passes the `Message` check unchanged |
| Messages.MessageRequiresRoleAndContent | src/message/schema/message.ts:44-57 | a value the check accepts is an object with a string `role` and a `content`; `{role: "x", content: ""}` alone is accepted |
| Messages.UndefinedOptionalFields | src/message/schema/message.ts:6-13 | the message check treats an optional key set to `undefined` as missing; the tool-call check rejects `id` or `call_id` set to `undefined` |
| Messages.UndefinedVsAbsent | src/message/schema/message.ts:45-54 | setting a key to `undefined` and deleting it differ at that key only, and not there once `undefined` counts as missing |
| Messages.ValidateMessageOn | src/message/schema/message.ts:44-57 | the message check depends only on `role`, `content` and `extra` as given and on the other keys with `undefined` counted as missing |
| Messages.ToolCallRequiresNameAndArguments | src/message/schema/message.ts:6-13 | a tool call the check accepts has string `name` and `arguments` |
| MessageUtil.GetMessageExtra | src/message/util.ts:24-31 | without `init` the message is left alone and a falsy `extra` or entry gives nothing; with `init` the entry then exists, is truthy, and is the one returned; only `extra` ever changes; writing into a truthy primitive `extra` is an error (so is an array `extra`, see Left out) |
| MessageUtil.GetMessageExtraIdempotent | src/message/util.ts:26-31 | calling it twice with `init` gives the same message and entry as calling it once |
| MessageUtil.GetMessageExtraThenRead | src/message/util.ts:26-31 | a call without `init` after one with it finds the entry the first call made |
| MessageUtil.SetExtraField | src/message/util.ts:26-31 | writing a field into the entry `getMessageExtra(..., true)` returns lands in `message.extra[ns][field]`, leaves every other namespace and field as it was and changes nothing but `extra`; a truthy primitive (or, see Left out, an array) `extra` or namespace entry cannot take the write |
| MessageUtil.SetExtraFieldFresh | src/message/util.ts:27-30 | on a message without `extra` the write makes exactly `extra = {ns: {field: v}}` |
| MessageUtil.StripMessageId | src/message/util.ts:33-37 | the copy has no `id`, and putting the id back gives the original message |
| MessageUtil.StripMessageIds | src/message/util.ts:39-47 | keeps the shape of its argument (one message or an array of the same length) and strips each message |
| MessageUtil.MapMessageId | src/message/util.ts:49-59 | the id is replaced exactly when it is present and the map has an entry for it; nothing else changes |
| MessageUtil.MapMessageIds | src/message/util.ts:61-69 | keeps the shape of its argument and maps each message's id |
| MessageUtil.MapThenStrip | src/message/util.ts:33-59 | renaming ids makes no difference once they are stripped, and an empty map renames nothing |
| ProviderExtra.GetMessageExtraClaude | src/api-codec/claude/extra.ts:20-24 | `getMessageExtra` on the `claude` namespace: with `init` an entry exists under `claude` afterwards, and every other namespace is left as it was |
| ProviderExtra.GetMessageExtraGemini | src/api-codec/gemini/extra.ts:9-13 | `getMessageExtra` on the `gemini` namespace, with the same guarantees |
| ProviderExtra.WithThinkingBlocks | src/api-codec/claude/extra.ts:5-18 | storing thinking blocks on a message without `extra` sets exactly `extra = {claude: {thinking_blocks}}` and nothing else |
| ProviderExtra.WithThoughtSignatures | src/api-codec/gemini/extra.ts:5-7 | storing thought signatures on a message without `extra` sets exactly `extra = {gemini: {thought_signatures}}` and nothing else |
| ClaudeRequest.DataUrlImage | src/api-codec/claude/request.ts:47-59 | reads a `data:` URL whose second piece starts with `base64,` as a base64 source |
| ClaudeRequest.DataUrlOf | src/api-codec/claude/request.ts:47-58 | `data:<type>;base64,<payload>` gives exactly media type `<type>` and payload `<payload>` |
| ClaudeRequest.PartBlock | src/api-codec/claude/request.ts:42-87 | a text part gives a text block; an image gives an image block exactly when it has a non-empty `url` or `data` (data URL first, then URL source, then base64 with `image/<format>`, `png` by default); audio, file and an image without either are errors |
| ClaudeRequest.DataUrlImageBlock | src/api-codec/claude/request.ts:47-58 | a base64 data URL becomes a base64 source with its media type and payload, whatever `data` and `format` say |
| ClaudeRequest.PartsBlocks | src/api-codec/claude/request.ts:42-87 | one block per part, in order, or an error exactly when some part has none |
| ClaudeRequest.PartsBlocksFirstError | src/api-codec/claude/request.ts:42-87 | the error reported is that of the first part without a block |
| ClaudeRequest.ContentBlocks | src/api-codec/claude/request.ts:35-88 | an empty string gives no block, any other string one text block; a part list maps part by part; every block is a content block |
| ClaudeRequest.ContentBlocksText | src/api-codec/claude/request.ts:35-88 | the blocks carry exactly the text `messageContentToText` sees |
| ClaudeRequest.ThinkingParamsOf | src/api-codec/claude/request.ts:90-104 | no `claude` entry gives no blocks; every block given back is a thinking or redacted-thinking block |
| ClaudeRequest.ThinkingItemsErr | src/api-codec/claude/request.ts:94-100 | an entry that cannot be read stops the walk with its error |
| ClaudeRequest.ToClaudeThinkingBlocks | src/api-codec/claude/request.ts:90-104 | the loop over the stored entries computes `ThinkingParamsOf` |
| ClaudeRequest.ThinkingItemsRoundTrip | src/api-codec/claude/request.ts:94-100 | stored thinking blocks come back one for one, in order, as request blocks |
| ClaudeRequest.ThinkingReplay | src/api-codec/claude/request.ts:156-159 | the thinking blocks a response stored under `extra.claude.thinking_blocks` are the ones the next request replays |
| ClaudeRequest.MessageBlocks | src/api-codec/claude/request.ts:152-165 | fails exactly when the content or the stored thinking of an assistant message cannot be converted; blocks come thinking first, then content, then tool uses; non-assistant messages carry no thinking; the text is the content's text |
| ClaudeRequest.AssembledBlocks | src/api-codec/claude/request.ts:154-165 | thinking, content and tool-use blocks put side by side are in rank order and only the content carries text |
| ClaudeRequest.NewTurnContent | src/api-codec/claude/request.ts:176-179 | a new turn holds its blocks; it is a bare string exactly when there is one block and it is a text block |
| ClaudeRequest.Extended | src/api-codec/claude/request.ts:169-174 | appending to a turn always leaves a block list |
| ClaudeRequest.ClaudeFoldErr | src/api-codec/claude/request.ts:128-181 | the first message that cannot be converted ends the conversion with its error |
| ClaudeRequest.ClaudeMessageStep | src/api-codec/claude/request.ts:129-180 | one turn of the loop, with its array updates, computes the step function `ClaudeStep` |
| ClaudeRequest.ToClaudeMessages | src/api-codec/claude/request.ts:124-184 | the loop over the messages computes the fold `ClaudeFold` |
| ClaudeRequest.MergeTurnBlocks | src/api-codec/claude/request.ts:167-180 | merging or pushing a turn appends exactly the message's blocks to all blocks of the turns |
| ClaudeRequest.AddToolResultBlocks | src/api-codec/claude/request.ts:135-149 | a tool result, merged or in a new user turn, appends exactly one block to all blocks of the turns |
| ClaudeRequest.ClaudeFoldBlocks | src/api-codec/claude/request.ts:124-184 | nothing is lost or reordered: the turns hold exactly the blocks of the non-system messages in order, and the conversion fails exactly when one of those messages has no blocks |
| ClaudeRequest.ClaudeFoldSystem | src/api-codec/claude/request.ts:129-133 | `system` holds the non-empty texts of the system and developer messages, in order |
| ClaudeRequest.ReplaceLastWellFormed | src/api-codec/claude/request.ts:169-174 | extending the last turn keeps the turns well formed |
| ClaudeRequest.PushWellFormed | src/api-codec/claude/request.ts:175-180 | pushing a turn whose role differs from the last keeps the turns well formed |
| ClaudeRequest.MergeTurnWellFormed | src/api-codec/claude/request.ts:167-180 | the merge of consecutive same-role messages keeps the turns well formed |
| ClaudeRequest.AddToolResultWellFormed | src/api-codec/claude/request.ts:142-148 | adding a tool result keeps the turns well formed |
| ClaudeRequest.ClaudeFoldWellFormed | src/api-codec/claude/request.ts:124-184 | the turns alternate between `user` and `assistant`, except that a tool-result turn may follow a bare-string user turn |
| ClaudeRequest.AdjacentUserTurns | src/api-codec/claude/request.ts:142-148 | the user message `"hi"` followed by a tool result gives two adjacent user turns, because a bare-string turn cannot take the result |
| ClaudeRequest.Encode | src/api-codec/claude/request.ts:191-221 | succeeds exactly when the messages convert; the body has the converted turns, the model and `max_tokens` defaults, `stream: false`, the system texts joined with a blank line when there are any, one tool per function when there are functions, and the response schema when given |
| ClaudeResponse.FromClaudeUsage | src/api-codec/claude/response.ts:13-24 | the input and output counts carried over; the cache-read count exactly when the API reported one |
| ClaudeResponse.FromClaudeStopReason | src/api-codec/claude/response.ts:26-36 | one of four finish reasons: `length` exactly for `max_tokens`, `tool_calls` exactly for `tool_use`, `content_filter` exactly for `refusal`, else `stop` |
| ClaudeResponse.AssembleMessage | src/api-codec/claude/response.ts:69-87 | an assistant message with the collected text; `reasoning` (the thoughts joined with line feeds), `tool_calls` and `extra` present exactly when something was collected for them |
| ClaudeResponse.FromClaudeMessage | src/api-codec/claude/response.ts:38-88 | the loop over the blocks computes `FromClaudeMessageSpec` |
| ClaudeResponse.ResponseStep | src/api-codec/claude/response.ts:44-67 | what block `i` adds to the text, the thoughts, the stored thinking blocks and the tool calls |
| ClaudeResponse.DecodeStep | src/api-codec/claude/response.ts:90-98 | the step result holds the one decoded message and the converted usage, and no metadata |
| ClaudeResponse.ToolUsesReplay | src/api-codec/claude/response.ts:56-62 | tool uses decoded to tool calls convert back to the same tool-use blocks when the input survives stringify and parse |
| ClaudeResponse.ResponseReplay | src/api-codec/claude/response.ts:38-88 | sending a decoded response back replays its thinking blocks verbatim, then its text as one block, then its tool uses with the same ids, names and inputs |
| ClaudeStream.StartMetadata | src/api-codec/claude/stream.ts:32-34 | the `stream.start` metadata carries the id and the model exactly when each is non-empty |
| ClaudeStream.ChunkFoldEngine | src/api-codec/claude/stream.ts:27-139 | every raw event keeps the step-stream engine state well formed |
| ClaudeStream.ProcessChunk | src/api-codec/claude/stream.ts:28-138 | one raw event, against the engine object, computes the step function `ChunkStep`: new engine state, new decoder variables and events yielded |
| ClaudeStream.DecodeClaudeStream | src/api-codec/claude/stream.ts:13-167 | the decoder yields exactly the events of `DecodeSpec` and returns a result with its one message |
| ClaudeStream.FinishStream | src/api-codec/claude/stream.ts:141-166 | after the last raw event: flushes an unfinished thinking block, finalises the engine, stores the thinking blocks, closes the stream, as `FinishSpec` says |
| ClaudeStream.DecodeParts | src/api-codec/claude/stream.ts:141-166 | the end of the stream spelled out: the finalised message with the thinking blocks stored when there are any, and the events of the loop, then those of finalising, then a late `stream.start` when none came, then `stream.end` |
| ClaudeStream.ChunkStepBoundaries | src/api-codec/claude/stream.ts:29-44 | one raw event yields one `stream.start` exactly when it is `message_start`, and never `stream.end`; it sets `started` and maps a non-empty stop reason |
| ClaudeStream.ChunkFoldBoundaries | src/api-codec/claude/stream.ts:27-139 | before the end: one `stream.start` per `message_start`, no `stream.end`, and the finish reason mapped from the last stop reason |
| ClaudeStream.DecodeBoundaries | src/api-codec/claude/stream.ts:13-167 | the yielded events end with exactly one `stream.end`, carrying the mapped last stop reason (none when none came), and hold one `stream.start` per `message_start`, or one late one when none came |
| ClaudeStream.FinishBoundaries | src/api-codec/claude/stream.ts:150-164 | finishing adds a `stream.start` when none was seen and ends with the only `stream.end` |
| ClaudeStream.ChunkStepMessage | src/api-codec/claude/stream.ts:41-107 | one raw event adds its text delta to the content, its thinking delta to the reasoning, may set the role, and leaves refusal, tool calls and extra alone |
| ClaudeStream.ChunkFoldMessage | src/api-codec/claude/stream.ts:27-139 | before finalising: the content's text is the text deltas, the reasoning the thinking deltas, the role the last one announced, and nothing else is set |
| ClaudeStream.DecodeMessage | src/api-codec/claude/stream.ts:13-167 | the result's message: the concatenated text and thinking deltas, the announced role or `assistant`, no refusal, and `extra.claude.thinking_blocks` exactly when blocks were recorded, holding `FlushedBlocks(cs)`: the redacted and thinking blocks in the order recorded, each thinking block's text and signature the concatenated `thinking_delta` and `signature_delta` fragments between its start and its stop (or the end of the stream) |
| ClaudeStream.VarsStepCounter | src/api-codec/claude/stream.ts:58-60 | a `tool_use` start takes the next counter value and maps its block index to it; nothing else moves the counter |
| ClaudeStream.ChunkFoldCounter | src/api-codec/claude/stream.ts:21-22 | the counter is the number of `tool_use` starts, and the block map sends each started block to its number |
| ClaudeStream.ChunkStepTools | src/api-codec/claude/stream.ts:58-109 | one raw event keeps the invariant linking the engine's tool calls, the counter and the started tool blocks |
| ClaudeStream.StartToolInv | src/api-codec/claude/stream.ts:58-70 | a `tool_use` start adds call `n` with the block's id and name |
| ClaudeStream.ArgsToolInv | src/api-codec/claude/stream.ts:99-109 | an `input_json_delta` on a mapped block only grows that call's arguments |
| ClaudeStream.ChunkFoldTools | src/api-codec/claude/stream.ts:27-139 | the invariant holds after every prefix of the stream |
| ClaudeStream.ChunkStepArguments | src/api-codec/claude/stream.ts:99-109 | one raw event appends to call `k`'s arguments exactly the fragment of an `input_json_delta` on the block mapped to `k` |
| ClaudeStream.ChunkFoldArguments | src/api-codec/claude/stream.ts:99-109 | the arguments of tool call `k` are its block's fragments, in order |
| ClaudeStream.FinalizeNumbered | src/api-codec/claude/stream.ts:150 | finalising a table of calls numbered `0 .. n-1` lists them in index order |
| ClaudeStream.NumberedKeys | src/api-codec/claude/stream.ts:59 | a table numbered `0 .. n-1` in order lists its keys sorted, and is empty exactly when `n` is zero |
| ClaudeStream.DecodeToolCalls | src/api-codec/claude/stream.ts:13-167 | the message lists one tool call per `tool_use` block, in start order, with the block's id and name and its concatenated `input_json_delta` fragments; no list at all when no tool was used |
| ClaudeStream.VarsStepRedacted | src/api-codec/claude/stream.ts:55-57 | a `redacted_thinking` start stores its data; no other event stores a redacted block |
| ClaudeStream.ChunkFoldRedacted | src/api-codec/claude/stream.ts:27-139 | the redacted blocks stored are the `redacted_thinking` starts, in order |
| ClaudeStream.StoredRedacted | src/api-codec/claude/stream.ts:141-148 | flushing an unfinished thinking block adds no redacted block |
| ClaudeStream.ChunkFoldTypes | src/api-codec/claude/stream.ts:49 | the type recorded for a block index is the type its last `content_block_start` gave it, none before one |
| ClaudeStream.StartThinkingState | src/api-codec/claude/stream.ts:47-57 | a `thinking` start opens a new, empty pending block (dropping one still open); a `redacted_thinking` start stores its data at once |
| ClaudeStream.DeltaThinkingState | src/api-codec/claude/stream.ts:86-98 | `thinking_delta` and `signature_delta` fragments, whatever block index they name, extend the open block's text and signature, and are dropped when none is open |
| ClaudeStream.StopThinkingState | src/api-codec/claude/stream.ts:116-128 | a stop of a block last started as `thinking` stores the open block and closes it; any other stop changes nothing |
| ClaudeStream.MessageThinkingState | src/api-codec/claude/stream.ts:27-46 | message-level events leave the stored and pending blocks alone |
| ClaudeStream.VarsStepThinking | src/api-codec/claude/stream.ts:47-128 | every raw event keeps the decoder's stored list, its pending block and its block types equal to their definitions over the events read |
| ClaudeStream.ChunkFoldThinking | src/api-codec/claude/stream.ts:16-139 | after any run of events, the stored list is `StreamStoredBlocks`, and the pending block is open exactly when `OpenThinking` is, holding the fragments since its start |
| ClaudeStream.StoredThinking | src/api-codec/claude/stream.ts:141-148 | the list handed to the message is `FlushedBlocks`: the stored blocks, then the block still open at the end |
| StreamState.StepStreamState.constructor | src/message/stream/state.ts:13-19 | a new state: empty role, content `""`, no tool calls, none started |
| StreamState.InitialSnapshot | src/message/stream/state.ts:13-19 | the value of a new state: empty role, content `""`, no tool calls, none started |
| StreamState.StepStreamState.ToResult | src/message/stream/state.ts:21-25 | the result holds exactly the one message being built |
| StreamState.StepStreamState.ApplyDelta | src/message/stream/state.ts:30-109 | applying a delta to the object keeps it well formed, and its new value and the events yielded are those of `ApplySpec` |
| StreamState.StepStreamState.ApplyMessageFields | src/message/stream/state.ts:40-70 | the role, content, reasoning and refusal part of a delta updates the message only, as `ApplyToMessage` and `MessageEvents` say |
| StreamState.StepStreamState.ApplyToolCalls | src/message/stream/state.ts:72-108 | the loop over the tool-call deltas leaves the message alone and computes the table fold `TableFold` |
| StreamState.StepStreamState.ApplyToolCall | src/message/stream/state.ts:73-107 | one turn of that loop computes one table step `TableStep` |
| StreamState.StepStreamState.Finalize | src/message/stream/state.ts:111-126 | finalising keeps the object well formed, and its new value and events are those of `FinalizeSpec` |
| StreamState.Accumulate | src/message/stream/state.ts:82-84 | a non-empty id overwrites; non-empty name and argument fragments are appended; nothing else changes |
| StreamState.TableStepValid | src/message/stream/state.ts:73-107 | one tool-call delta keeps the table well formed: its order lists its keys once each, and started entries are entries |
| StreamState.TableFoldValid | src/message/stream/state.ts:72-108 | the table stays well formed over any sequence of deltas |
| StreamState.TableFoldEvents | src/message/stream/state.ts:72-108 | every event of the tool-call loop is a `tool_call.start` or a `tool_call.delta` |
| StreamState.TableStepStarts | src/message/stream/state.ts:86-98 | one step announces `tool_call.start` for an index exactly when it becomes started in that step; started indices stay started |
| StreamState.TableFoldStarts | src/message/stream/state.ts:72-108 | over any run of deltas, `tool_call.start` is announced at most once per index: once if the index became started during the run, otherwise never |
| StreamState.TableStepArguments | src/message/stream/state.ts:84 | one step appends to call `k`'s arguments exactly its fragment |
| StreamState.TableStepArgEvents | src/message/stream/state.ts:100-106 | one step yields a `tool_call.delta` for `k` exactly when it brings a non-empty fragment for `k` |
| StreamState.TableFoldArguments | src/message/stream/state.ts:72-108 | the arguments of every tool call are the concatenation of its fragments, in order |
| StreamState.TableFoldArgEvents | src/message/stream/state.ts:72-108 | the `tool_call.delta` events for `k` carry exactly those fragments, in order |
| StreamState.TableFoldOrder | src/message/stream/state.ts:75-80 | the table's order is the old order followed by the new indices in the order they were first seen |
| StreamState.TableFoldKeys | src/message/stream/state.ts:75-80 | the keys afterwards are the old keys and every index a delta mentions |
| StreamState.TableFoldAppend | src/message/stream/state.ts:72-108 | folding two runs of deltas is folding the first, then the second from where the first left the table |
| StreamState.Append | src/message/stream/state.ts:49 | one `concatContentsTo` operand grows the text by the operand's text |
| StreamState.ApplyNone | src/message/stream/state.ts:34-36 | a missing delta yields nothing and changes nothing |
| StreamState.ApplyMessage | src/message/stream/state.ts:40-70 | the role is set exactly when the delta brings a different non-empty one; the content, reasoning and refusal texts grow by the truthy fragments' texts; no other field changes |
| StreamState.ApplyEvents | src/message/stream/state.ts:40-70 | a `role` event exactly when the role changes; one `content.delta` or `reasoning.delta` carrying only the fragment; one `refusal.delta` carrying `""` whatever the fragment |
| StreamState.ApplyValid | src/message/stream/state.ts:30-109 | a delta keeps the table well formed |
| StreamState.ApplyNoBoundary | src/message/stream/state.ts:30-109 | the engine never yields `stream.start` or `stream.end` |
| StreamState.CallsAtPermutation | src/message/stream/state.ts:122-124 | permuting the keys permutes the tool calls |
| StreamState.FinalizeFacts | src/message/stream/state.ts:111-126 | after finalising the role is non-empty (`assistant` when it was empty), one `tool_call.end` is yielded per entry in first-seen order, the message gets the tool calls sorted by index when there are any, and nothing else changes |
| StreamState.FinalizeCalls | src/message/stream/state.ts:121-125 | the tool-call list written is the calls in ascending index order, or the message's own list when the table is empty |
| StreamState.FinalizeToolCalls | src/message/stream/state.ts:111-126 | the final tool-call list is sorted by index and, as a multiset, is exactly the tool calls the `tool_call.end` events carried |
| StreamState.StreamStartsAppend | src/message/stream/event.ts:1-20 | the number of `stream.start` events of two runs of events adds up |
| StreamState.ClosedStream | src/api-codec/claude/stream.ts:157-164 | events closed by a possibly late `stream.start` and one `stream.end`: the end comes last and only there, and the late start adds one |
| OpenAIChat.ToChatPart | src/api-codec/openai/chat.ts:22-64 | a text part becomes a text part; an image becomes an `image_url` part exactly when it has a non-empty `url` (used first) or `data` (a `data:image/<format>;base64,` URL, `png` by default); audio needs `data` (format `wav` by default); a file keeps its non-empty fields; the failures give the source's messages |
| OpenAIChat.ToChatContent | src/api-codec/openai/chat.ts:15-65 | a string passes through; a part list maps one to one, in order, failing exactly when a part does |
| OpenAIChat.ToChatToolCalls | src/api-codec/openai/chat.ts:108-117 | one `function` tool call per tool call, with the id (`""` when missing), name and arguments |
| OpenAIChat.ToChatMessage | src/api-codec/openai/chat.ts:138-165 | a `tool` message becomes `{role: 'tool', tool_call_id, content}` from `call_id`, then `id`, then `""`, and its text; any other message keeps its role and converted content, `name` when set, `tool_calls` when non-empty and `refusal` as text when set |
| OpenAIChat.EncodeChatMessages | src/api-codec/openai/chat.ts:136-169 | one API message per message, in order; fails exactly when a non-tool message's content cannot be converted |
| OpenAIChat.FromChatPart | src/api-codec/openai/chat/response.ts:26-43 | text and refusal parts become text parts; an `image_url` an image with that URL; `input_audio` an audio part with its data and format; a file part keeps only its non-empty fields; an unknown type is an error naming it |
| OpenAIChat.FromChatContent | src/api-codec/openai/chat/response.ts:13-44 | no content gives `""`; a string passes through; a lone text part collapses to its string; otherwise the parts map one to one and fail exactly on an unknown type |
| OpenAIChat.FromChatToolCall | src/api-codec/openai/chat/response.ts:46-61 | a function call and a custom call both give `{id, name, arguments}`, the custom call's `input` as arguments |
| OpenAIChat.FromChatMessage | src/api-codec/openai/chat/response.ts:65-80 | keeps the role and the converted content; `tool_calls` exactly when the API message has a non-empty list; `refusal` exactly when it is set; nothing else |
| OpenAIChat.DecodeChatMessages | src/api-codec/openai/chat/response.ts:63-86 | one message per API message, in order; fails exactly when some content cannot be converted |
| OpenAIChat.ChoiceMessages | src/api-codec/openai/chat/response.ts:96 | the messages of the choices, in order |
| OpenAIChat.DecodeChatCompletion | src/api-codec/openai/chat/response.ts:88-99 | the choices' messages, and the completion's id, creation time in milliseconds and model as metadata |
| OpenAIChat.PartRoundTrip | src/api-codec/openai/chat.ts:15-106 | a part the API form can carry (a URL image, audio with data and format, a file with non-empty fields) comes back as it went |
| OpenAIChat.ContentRoundTrip | src/api-codec/openai/chat.ts:15-106 | encoding then decoding a content keeps it, except that a lone text part comes back as its string |
| OpenAIChat.ChatToolCallRoundTrip | src/api-codec/openai/chat.ts:108-134 | a tool call with an id and no `call_id` or `extra` comes back as it went |
| OpenAIChat.MessageRoundTrip | src/api-codec/openai/chat.ts:136-194 | decoding what the encoder wrote gives the message back, for a message the API form can carry |
| MsgCodecOpenAIChat.ToTextOnlyPart | src/msg-codec/openai/chat.ts:17-23 | only text parts are encoded; any other part is an error naming its type |
| MsgCodecOpenAIChat.ToTextOnlyContent | src/msg-codec/openai/chat.ts:10-24 | a string passes through; a part list is encoded exactly when all its parts are text |
| MsgCodecOpenAIChat.ToLegacyChatMessage | src/msg-codec/openai/chat.ts:90-101 | keeps the role and content; the `name` key is always written (`undefined` when unset); `tool_calls` only when non-empty; a tool message gets no special treatment |
| MsgCodecOpenAIChat.EncodeLegacyChat | src/msg-codec/openai/chat.ts:87-104 | the encoder returns the message list itself, one per message, in order |
| MsgCodecOpenAIChat.FromLegacyChatMessage | src/msg-codec/openai/chat.ts:109-120 | role, content and non-empty tool calls; the refusal is not read |
| MsgCodecOpenAIChat.DecodeLegacyChat | src/msg-codec/openai/chat.ts:106-122 | one message per API message, in order |
| MsgCodecOpenAIChat.LegacyDecoderDropsRefusal | src/msg-codec/openai/chat.ts:106-122 | the deprecated decoder agrees with the current one, except that it drops the refusal |
| MsgCodecOpenAIChat.LegacyRoundTrip | src/msg-codec/openai/chat.ts:87-122 | decoding what the deprecated encoder wrote gives back a text-only message without name, refusal or ids |
| MsgCodecOpenAI.FromOldChatPart | src/msg-codec/openai.ts:33-42 | as the current mapping, except that a file copies its three fields whatever their value |
| MsgCodecOpenAI.FromOldChatContent | src/msg-codec/openai.ts:26-43 | no content gives `""`, a string passes through, and a part list always stays a part list |
| MsgCodecOpenAI.ToOldChatMessage | src/msg-codec/openai.ts:75-81 | `name` and `tool_calls` keys are always written, `tool_calls` mapped even when empty |
| MsgCodecOpenAI.EncodeOldChat | src/msg-codec/openai.ts:73-84 | one API message per message, in order; fails exactly when a content has a non-text part |
| MsgCodecOpenAI.FromOldChatMessage | src/msg-codec/openai.ts:88-94 | the tool calls are mapped whenever the key holds a list, an empty one included |
| MsgCodecOpenAI.DecodeOldChat | src/msg-codec/openai.ts:86-96 | one message per API message, in order |
| MsgCodecOpenAI.SingleTextNotCollapsed | src/msg-codec/openai.ts:26-43 | a lone text part stays a part list here, where the later mappings collapse it to a string |
| MsgCodecOpenAI.EmptyFileFieldKept | src/msg-codec/openai.ts:37 | an empty file field comes through here, where the later mappings drop it |
| MsgCodecOpenAI.OldRoundTrip | src/msg-codec/openai.ts:73-96 | decoding what this encoder wrote gives back a text-only message without name, refusal or ids |
| OpenAIChatStream.ApplyToolCallDelta | src/api-codec/openai/chat/stream.ts:67-94 | one tool-call delta, with the map and set updates of the source, is one step of the engine's table with a start needing both an id and a name |
| OpenAIChatStream.ApplyToolCallDeltas | src/api-codec/openai/chat/stream.ts:65-96 | the loop over one chunk's tool-call deltas is the table fold over them |
| OpenAIChatStream.ProcessChoice | src/api-codec/openai/chat/stream.ts:38-100 | the first choice of a chunk computes the step function `ChoiceStep` |
| OpenAIChatStream.ProcessChunk | src/api-codec/openai/chat/stream.ts:24-100 | one chunk computes the step function `ChunkStep`: `stream.start` on the first chunk, nothing more for a chunk without choices |
| OpenAIChatStream.ToolCallEnds | src/api-codec/openai/chat/stream.ts:103-109 | one `tool_call.end` per entry, in first-seen order |
| OpenAIChatStream.DecodeChatStream | src/api-codec/openai/chat/stream.ts:13-129 | the handlers receive exactly the events of `DecodeSpec`, and the result holds its one message |
| OpenAIChatStream.ChunkStepVars | src/api-codec/openai/chat/stream.ts:24-100 | after one chunk: started, the role announced (if any), content and refusal grown by the fragments, the finish reason replaced when non-empty, the table folded over the chunk's deltas |
| OpenAIChatStream.ChunkStepEvents | src/api-codec/openai/chat/stream.ts:24-100 | the events of one chunk, in order: start, role, content, refusal, then the tool-call events |
| OpenAIChatStream.ChunkBoundaries | src/api-codec/openai/chat/stream.ts:24-33 | one chunk yields `stream.start` first when it yields one at all, and never `stream.end` |
| OpenAIChatStream.ChunkFoldVars | src/api-codec/openai/chat/stream.ts:23-101 | after any chunks: the last announced role, the fragments concatenated, the last non-empty finish reason, and the table over every delta |
| OpenAIChatStream.ChunkFoldValid | src/api-codec/openai/chat/stream.ts:65-96 | the table stays well formed over the whole stream |
| OpenAIChatStream.ChunkFoldRoleEvents | src/api-codec/openai/chat/stream.ts:41-47 | one `role` event per announced role, in order, repeated roles included |
| OpenAIChatStream.ChunkFoldContentEvents | src/api-codec/openai/chat/stream.ts:49-55 | one `content.delta` per content fragment, in order |
| OpenAIChatStream.ChunkFoldRefusalEvents | src/api-codec/openai/chat/stream.ts:57-63 | one `refusal.delta` per refusal fragment, carrying the fragment |
| OpenAIChatStream.ChunkFoldToolEvents | src/api-codec/openai/chat/stream.ts:65-96 | the tool-call events of the stream are those of the table run over every delta of every chunk |
| OpenAIChatStream.ChunkFoldBoundaries | src/api-codec/openai/chat/stream.ts:23-101 | before the end: one `stream.start`, first, with the first chunk's id and model, when any chunk came; no `stream.end` |
| OpenAIChatStream.DecodeSpecParts | src/api-codec/openai/chat/stream.ts:103-128 | the result and events in terms of the loop: its events, then the `tool_call.end` events, then `stream.end` with the finish reason |
| OpenAIChatStream.CloseEvents | src/api-codec/openai/chat/stream.ts:103-114 | closing with the end events and `stream.end` puts `stream.end` last and only there |
| OpenAIChatStream.DecodeBoundaries | src/api-codec/openai/chat/stream.ts:13-129 | `stream.start` comes first and once when any chunk came (an empty stream yields none); `stream.end` comes last, once, with the last non-empty finish reason or `""` |
| OpenAIChatStream.DecodeMessage | src/api-codec/openai/chat/stream.ts:116-126 | the message: the last non-empty role or `assistant`, the content fragments concatenated, the refusal exactly when its fragments are non-empty, no other field but the tool calls |
| OpenAIChatStream.DecodeMessageEvents | src/api-codec/openai/chat/stream.ts:41-63 | the `role`, `content.delta` and `refusal.delta` events report every role and every fragment, in order |
| OpenAIChatStream.EndEventsAreEnds | src/api-codec/openai/chat/stream.ts:103-109 | the end events are `tool_call.end` events, one per entry in first-seen order |
| OpenAIChatStream.DecodeTable | src/api-codec/openai/chat/stream.ts:65-96 | the table is the fold over every delta of every chunk; its entries are in first-seen order and each one's arguments are its fragments concatenated |
| OpenAIChatStream.DecodeToolStarts | src/api-codec/openai/chat/stream.ts:78-86 | `tool_call.start` fires exactly once for an index whose id and name both became non-empty, and never otherwise |
| OpenAIChatStream.DecodeToolArgs | src/api-codec/openai/chat/stream.ts:88-94 | the `tool_call.delta` events for an index carry its fragments, in order |
| OpenAIChatStream.DecodeToolEnds | src/api-codec/openai/chat/stream.ts:103-109 | `tool_call.end` events come only at the end and list every entry once, in first-seen order |
| OpenAIChatStream.DecodeToolCalls | src/api-codec/openai/chat/stream.ts:122-126 | the final tool-call list is present exactly when some delta came, sorted by index, and a permutation of the entries |
| GeminiRequest.FirstSignature | src/api-codec/gemini/request.ts:17-19 | the signature to attach is the first stored thought signature, kept only when truthy; none without Gemini extra data |
| GeminiRequest.SignatureOfStored | src/api-codec/gemini/extra.ts:11-13 | a message without extra data has no signature; one whose signatures were stored gets back the first, when it is a non-empty string |
| GeminiRequest.InlineDataOf | src/api-codec/gemini/request.ts:43-59 | a URL not starting with `data:image` is refused with the data-URL error; any other failure is the base64 error; a result is inline data whose media type and data rebuild a prefix of the URL and hold no `;` |
| GeminiRequest.GeminiPartOf | src/api-codec/gemini/request.ts:39-64 | text becomes a text part with the signature, an image its inline data, audio and file parts their not-implemented errors |
| GeminiRequest.GeminiImageRoundTrip | src/api-codec/gemini/request.ts:42-59 | a base64 image data URL built from a media type and data without `;` gives both back |
| GeminiRequest.GeminiPartsOf | src/api-codec/gemini/request.ts:39-64 | the part list succeeds exactly when every part converts, and then holds each part's conversion in order |
| GeminiRequest.ToGeminiParts | src/api-codec/gemini/request.ts:29-65 | a string is one text part, even when empty; a part list converts part by part, failing exactly when some part fails |
| GeminiRequest.ToGeminiPartsSigned | src/api-codec/gemini/request.ts:17-27 | every text part carries the message's thought signature |
| GeminiRequest.GeminiContents | src/api-codec/gemini/request.ts:81-86 | one turn per message of the suffix |
| GeminiRequest.GeminiContentsOk | src/api-codec/gemini/request.ts:81-86 | the turns exist exactly when every message has Gemini parts |
| GeminiRequest.FirstTurn | src/api-codec/gemini/request.ts:72-79 | the index of the first non-system message: everything before it is `system` or `developer` |
| GeminiRequest.GeminiFoldFacts | src/api-codec/gemini/request.ts:72-87 | the loop collects exactly the system texts, and fails exactly when a message from the first non-system one on has no Gemini parts |
| GeminiRequest.SuffixContentsOk | src/api-codec/gemini/request.ts:81 | the turns of a suffix exist exactly when each of its messages has Gemini parts |
| GeminiRequest.Encode | src/api-codec/gemini/request.ts:68-101 | the loop computes the encoder function `EncodeSpec` |
| GeminiRequest.EncodeFacts | src/api-codec/gemini/request.ts:68-101 | the encoder fails exactly when a message from the first non-system one on has a part Gemini cannot take; otherwise the fixed model, empty contents, and the system instruction exactly when there are system texts |
| GeminiRequest.SuffixTurns | src/api-codec/gemini/request.ts:81-92 | two user messages make the loop build three turns, and the request still carries no contents |
| GeminiResponse.FromGeminiFinishReason | src/api-codec/gemini/response.ts:8-20 | `length` exactly for `MAX_TOKENS`, `content_filter` exactly for the five filter reasons, `stop` otherwise |
| GeminiResponse.FromGeminiBlob | src/api-codec/gemini/response.ts:22-31 | an image part with only a base64 data URL exactly when the media type starts with `image/`, nothing otherwise |
| GeminiResponse.BlobRoundTrip | src/api-codec/gemini/response.ts:22-31 | an image blob read back by the request encoder gives its media type and data, when neither holds a `;` |
| GeminiResponse.AssembleGemini | src/api-codec/gemini/response.ts:60-72 | an assistant message with the content, the reasoning exactly when thoughts came (joined by newlines) and the signatures under `extra.gemini` exactly when some came |
| GeminiResponse.FromGeminiContent | src/api-codec/gemini/response.ts:33-75 | the loop over the parts computes `FromGeminiContentSpec` |
| GeminiResponse.ContentFoldText | src/api-codec/gemini/response.ts:39-58 | the content's text is the non-thought texts, in order |
| GeminiResponse.ContentFoldParts | src/api-codec/gemini/response.ts:44-49 | the content is a part list exactly when an image came, and its non-text parts are the images in order |
| GeminiResponse.SignaturesNonEmpty | src/api-codec/gemini/response.ts:40-42 | only truthy signatures are collected |
| GeminiResponse.FromGeminiContentFacts | src/api-codec/gemini/response.ts:33-75 | the message: assistant role, answer text as content, images as its non-text parts, thoughts joined by newlines as reasoning, signatures only when there are any |
| GeminiResponse.SignatureReplay | src/api-codec/gemini/response.ts:69-72 | encoding the decoded message again attaches its first thought signature |
| GeminiResponse.DecodeStep | src/api-codec/gemini/response.ts:78-89 | at most one message: exactly when the first candidate has content, and then its parts decoded; no usage or metadata |
| MsgCodecOpenAIResponse.MakeTextInputContent | src/msg-codec/openai/response.ts:22-25 | output text exactly for the assistant, input text for anyone else, carrying the text |
| MsgCodecOpenAIResponse.ToInputPart | src/msg-codec/openai/response.ts:34-54 | text as `makeTextInputContent`; an image by its URL, else by its data as a `data:image/<format>;base64,` URL (`png` by default), else the url-or-data error; any other part fails |
| MsgCodecOpenAIResponse.ToResponseInputContent | src/msg-codec/openai/response.ts:27-55 | `""` gives no item, another string one text item, a part list one item per part; it fails exactly when some part cannot be encoded |
| MsgCodecOpenAIResponse.IdOr | src/msg-codec/openai/response.ts:80 | a present id is kept and draws nothing; a missing one is the prefix and the next uid |
| MsgCodecOpenAIResponse.ToolCallItems | src/msg-codec/openai/response.ts:73-88 | one `function_call` per tool call, in order, with its name and arguments, its `call_id` when it has one and otherwise `call_temp_` followed by the uid drawn for it (the draws going to the calls without a `call_id` in order), and its id only when present; exactly one uid drawn per tool call without a `call_id` |
| MsgCodecOpenAIResponse.MissingCallIdsZero | src/msg-codec/openai/response.ts:80 | no uid is drawn exactly when every tool call has a `call_id` |
| MsgCodecOpenAIResponse.MessageItem | src/msg-codec/openai/response.ts:126-151 | a non-assistant gets one role message; an assistant gets its message with its id or a fresh `msg_temp_` one, preceded by a reasoning item exactly when `extra.openai.reasoning_id` is truthy |
| MsgCodecOpenAIResponse.NonToolItems | src/msg-codec/openai/response.ts:124-155 | the message item when there is content or there are no tool calls, then one function call per tool call of an assistant |
| MsgCodecOpenAIResponse.MessageItems | src/msg-codec/openai/response.ts:106-155 | a tool message is one `function_call_output` with its text under `call_id`, else `id`, else a fresh id; any other message fails exactly when its content does |
| MsgCodecOpenAIResponse.EncodeResponseInput | src/msg-codec/openai/response.ts:103-161 | the loop computes the fold `EncodeFold`: its items, and its error when it fails |
| MsgCodecOpenAIResponse.EncodeFoldErr | src/msg-codec/openai/response.ts:106-156 | the first failing message's error is the encoder's error |
| MsgCodecOpenAIResponse.EncodeFoldOk | src/msg-codec/openai/response.ts:106-156 | the encoder fails exactly when some non-tool message has content it cannot encode |
| MsgCodecOpenAIResponse.FromOutputContent | src/msg-codec/openai/response.ts:57-71 | no items gives `""`; one unannotated output text collapses to its string; anything else is one text part per item, refusals included |
| MsgCodecOpenAIResponse.FromResponseToolCall | src/msg-codec/openai/response.ts:90-100 | `call_id`, name and arguments copied, the id only when non-empty |
| MsgCodecOpenAIResponse.DecodeResponseOutput | src/msg-codec/openai/response.ts:165-226 | the loop over `response.output` computes `DecodeOutput` |
| MsgCodecOpenAIResponse.FirstUnknownIff | src/msg-codec/openai/response.ts:217-219 | the first unknown item is found, and none only when every item is known |
| MsgCodecOpenAIResponse.SetReasoningId | src/msg-codec/openai/response.ts:213 | writing the reasoning id leaves exactly the new one under `extra.openai` |
| MsgCodecOpenAIResponse.DescriptionAppend | src/msg-codec/openai/response.ts:187-221 | one item more: a message item replaces the last message, a function call adds its tool call, a reasoning item adds its summaries and sets the reasoning id |
| MsgCodecOpenAIResponse.DecodeFoldDirect | src/msg-codec/openai/response.ts:187-225 | the decoder fails on the first item of an unknown type; otherwise no items give no message and some give the one described by the last message item, all calls, summaries and the last reasoning id |
| MsgCodecOpenAIResponse.DecodeOutputShape | src/msg-codec/openai/response.ts:165-226 | at most one message, exactly one when the output has items, and failure exactly when some item is unknown |
| MsgCodecOpenAIResponse.CallsBack | src/msg-codec/openai/response.ts:73-100 | the tool calls sent as function calls are read back unchanged |
| MsgCodecOpenAIResponse.HeadBack | src/msg-codec/openai/response.ts:126-151 | the echoed reasoning and message items decode to the turn without its tool calls |
| MsgCodecOpenAIResponse.EncodeDecodeRoundTrip | src/msg-codec/openai/response.ts:103-226 | an assistant turn that carries its ids encodes without drawing ids, and its echoed items decode back to exactly that turn |
| MsgCodecOpenAIResponse.EncodeTurn | src/msg-codec/openai/response.ts:124-155 | such a turn is sent as its head, then its calls |
| MsgCodecOpenAIResponse.DecodeJoin | src/msg-codec/openai/response.ts:198-205 | a decoded head followed by function calls carrying the turn's tool calls decodes to the turn |
| MsgCodecOpenAIResponse.DirectCalls | src/msg-codec/openai/response.ts:198-205 | trailing function calls only add their tool calls |
| STFArgs.BlankEnd | src/file-codec/stf/command/args.ts:5-8 | the first index from `i` on that is not a space or tab, or the end |
| STFArgs.NonBlankEnd | src/file-codec/stf/command/args.ts:10-13 | the first space or tab from `i` on, or the end |
| STFArgs.KeyEnd | src/file-codec/stf/command/args.ts:86-87 | the first index from `i` on that is not a letter, digit or `_`, or the end |
| STFArgs.ScanBlank | src/file-codec/stf/command/args.ts:5-8 | the loop stops at `BlankEnd` |
| STFArgs.ScanNonBlank | src/file-codec/stf/command/args.ts:10-13 | the loop stops at `NonBlankEnd` |
| STFArgs.QuoteEnd | src/file-codec/stf/command/args.ts:28-56 | a closing position is after the opening quote and holds the quote |
| STFArgs.ScanQuoted | src/file-codec/stf/command/args.ts:19-57 | the loop succeeds exactly when `QuoteEnd` does, with its end and the literal between the quotes inclusive, and fails with its error (a line feed or an unterminated literal) |
| STFArgs.ValueAt | src/file-codec/stf/command/args.ts:102-129 | a value read from `i` ends after `i` and within the text |
| STFArgs.PairAt | src/file-codec/stf/command/args.ts:77-129 | a pair read from `i` ends after `i` and within the text |
| STFArgs.PairAfterKey | src/file-codec/stf/command/args.ts:88-129 | the pair's key is the scanned key and it ends after it |
| STFArgs.ReadValue | src/file-codec/stf/command/args.ts:102-129 | the value branch computes `ValueAt` |
| STFArgs.ReadPair | src/file-codec/stf/command/args.ts:78-129 | one loop body, up to the duplicate check, computes `PairAt` |
| STFArgs.ReadAfterKey | src/file-codec/stf/command/args.ts:90-129 | the body after the key computes `PairAfterKey` |
| STFArgs.ParseCommandArgs | src/file-codec/stf/command/args.ts:59-139 | the method computes `ParseArgs`: trimming, the object form, the `key=value` loop with its duplicate check |
| STFArgs.TrimBlanksShape | src/file-codec/stf/command/args.ts:60 | only spaces and tabs are trimmed: the result is empty exactly for blank text, and otherwise starts and ends with something else |
| STFArgs.BlankArgs | src/file-codec/stf/command/args.ts:60-62 | empty or blank text gives no arguments |
| STFArgs.PairKey | src/file-codec/stf/command/args.ts:81-88 | every key read starts with a letter and continues with letters, digits or `_` |
| STFArgs.PairsFromStep | src/file-codec/stf/command/args.ts:131-135 | a pair with a new key is added and the loop goes on after it |
| STFArgs.ArgsKeys | src/file-codec/stf/command/args.ts:72-138 | the `key=value` form gives identifier keys and string values only |
| STFArgs.PairsText | src/file-codec/stf/command/args.ts:60-77 | text with nothing to trim that does not open an object goes to the `key=value` loop |
| STFArgs.MissingValue | src/file-codec/stf/command/args.ts:98-100 | `role=` is rejected |
| STFArgs.MissingKey | src/file-codec/stf/command/args.ts:82-84 | `=user` is rejected |
| STFArgs.KeyWithoutEquals | src/file-codec/stf/command/args.ts:90-93 | a key followed by anything but blanks and `=` is rejected |
| STFArgs.MissingEquals | src/file-codec/stf/command/args.ts:90-93 | `justa-key` is rejected |
| STFState.SetCurrent | src/file-codec/stf/decode-state.ts:72 | writing through the current message replaces only the last message |
| STFState.StartSpec | src/file-codec/stf/decode-state.ts:41-62 | succeeds exactly when a role is given or a message is current; the error names the given line, else the later of the last command and data lines, plus one; the new message (role, empty content, id and name when given) is appended and becomes current |
| STFState.FlushBufferedSpec | src/file-codec/stf/decoder.ts:113 | the buffered lines joined with line feeds are appended to the current message; with none current a blank buffer is dropped and any other is the no-role error; the buffer ends empty |
| STFState.FlushSpec | src/file-codec/stf/decoder.ts:138 | the buffer is flushed and no message is current any more |
| STFState.BlankBufferFlush | src/file-codec/stf/decode-state.ts:64-77 | a state holding only a blank buffered line: the flush in `decode-state.ts` rejects it, the corrected flush ends with no messages |
| STFState.FlushIdempotent | src/file-codec/stf/decode-state.ts:64-77 | flushing twice is flushing once |
| STFState.FlushBufferedText | src/file-codec/stf/decode-state.ts:66-73 | the messages before the current one are untouched, and the current one's text grows by exactly the joined buffer |
| STFState.DecodeState.constructor | src/file-codec/stf/decode-state.ts:20-31 | the fresh state: no messages, none current, line numbers 0, empty buffer |
| STFState.DecodeState.StartNewMessage | src/file-codec/stf/decode-state.ts:41-62 | the state moves to `StartSpec`, the returned message is the current one, errors are `StartSpec`'s |
| STFState.DecodeState.FlushBufferedLines | src/file-codec/stf/decoder.ts:113 | the state moves to `FlushBufferedSpec`, errors are its errors |
| STFState.DecodeState.FlushDecodeState | src/file-codec/stf/decoder.ts:138 | the state moves to `FlushSpec`, errors are its errors |
| STFCommands.OptStringArg | src/file-codec/stf/command/message.ts:7-10 | an optional string argument: accepted exactly when absent or a string, and then that string; otherwise a validation error naming the key |
| STFCommands.Merge | src/file-codec/stf/command/field.ts:16-20 | the shallow merge holds the keys of both objects, the new value winning |
| STFCommands.RoleParams | src/file-codec/stf/command/message.ts:24-35 | a role command's parameters: its own role, `id` and `name` when they validate |
| STFCommands.MessageParams | src/file-codec/stf/command/message.ts:12-22 | `message`'s parameters: `role`, `id` and `name` when they validate |
| STFCommands.RoleCommandRole | src/file-codec/stf/command/message.ts:28-34 | a role command starts a message with its own role whatever `role` is passed, and reads only `id` and `name` |
| STFCommands.MessageCommandRole | src/file-codec/stf/command/message.ts:41-44 | `message` takes its role from the arguments, else from the current message, and fails when there is neither |
| STFCommands.ExtraMerges | src/file-codec/stf/command/field.ts:7-24 | `extra` merges into the current message's `extra` when both are objects, replaces it otherwise, and changes nothing else |
| STFCommands.RawAppends | src/file-codec/stf/command/message.ts:50-53 | `raw` appends the message its buffer holds and leaves none current |
| STFCommands.Execute | src/file-codec/stf/command/message.ts:28-53 | each command's `execute` moves the state to `ExecuteSpec`, with its errors |
| STFCommands.ExecuteRole | src/file-codec/stf/command/message.ts:28-34 | a role command validates its arguments, then starts the message |
| STFCommands.ExecuteMessage | src/file-codec/stf/command/message.ts:41-44 | `message` validates its arguments, then starts the message |
| STFCommands.EntriesOf | src/file-codec/stf/command/index.ts:18-28 | a command registers its name, then its aliases in order |
| STFCommands.LookupOfOk | src/file-codec/stf/command/index.ts:11-30 | the table builds exactly when no name repeats |
| STFCommands.LookupOfContents | src/file-codec/stf/command/index.ts:11-30 | a table that builds maps every registered name to its command and holds nothing else |
| STFCommands.LookupKeys | src/file-codec/stf/command/index.ts:11-30 | a built table holds a name exactly when some entry registers it |
| STFCommands.CommandLookupAsWritten | src/file-codec/stf/command/index.ts:11-30 | the function builds the table but returns nothing |
| STFCommands.BuildLookup | src/file-codec/stf/command/index.ts:11-29 | the loop computes `LookupOf` of the commands' entries, failing on the first duplicate |
| STFCommands.Register | src/file-codec/stf/command/index.ts:14-28 | registering one command extends the table by its entries |
| STFCommands.RegisterStep | src/file-codec/stf/command/index.ts:14-26 | a clash fails the whole list with the duplicate's name, else the entry is added |
| STFCommands.NamesDistinct | src/file-codec/stf/command/message.ts:56-65 | the thirteen command names and aliases differ: those of the message commands, `extra` (command/field.ts:4-29) and `flush` (command/misc.ts:4-14) |
| STFCommands.AllCommandsTable | src/file-codec/stf/command/message.ts:56-65 | every message, field (command/field.ts:4-29) and misc (command/misc.ts:4-14) command registers without a clash, and each name and alias finds its command |
| STFCommands.CommandsOmitsFieldAndMisc | src/file-codec/stf/command/index.ts:7-9 | with `COMMANDS` as written, `extra` and `flush` are unknown names |
| STFDecoder.ParseDataLine | src/file-codec/stf/decoder.ts:8-18 | a line is a command line exactly when it starts with one `;` but not two |
| STFDecoder.NameEnd | src/file-codec/stf/decoder.ts:6 | the end of the command name's letters and digits |
| STFDecoder.MatchCommand | src/file-codec/stf/decoder.ts:6 | a match starts with `;`, then blanks, then the name, and says where the match ends |
| STFDecoder.DataLine | src/file-codec/stf/decoder.ts:33-58 | a data line moves the state to `DataStep`, with its errors |
| STFDecoder.EndCommand | src/file-codec/stf/decoder.ts:91-105 | `;end` moves the state to `EndStep`, with its errors |
| STFDecoder.InvokeCommand | src/file-codec/stf/decoder.ts:109-127 | any other command moves the state to `InvokeStep`, with its errors |
| STFDecoder.CommandLine | src/file-codec/stf/decoder.ts:60-127 | a command line moves the state and the comment depth to `CommandStep` |
| STFDecoder.ReadLine | src/file-codec/stf/decoder.ts:29-128 | one line moves the state and the comment depth to `LineStep` |
| STFDecoder.RunLines | src/file-codec/stf/decoder.ts:28-128 | the loop over the lines computes `Steps` from the fresh state |
| STFDecoder.FinishDecode | src/file-codec/stf/decoder.ts:130-142 | after the last line the checks and the flush compute `Finish` |
| STFDecoder.Decode | src/file-codec/stf/decoder.ts:20-143 | the decoder computes `DecodeRaw`: a non-string source is a type error |
| STFDecoder.RunErrStays | src/file-codec/stf/decoder.ts:29-128 | once a line fails the rest are never read |
| STFDecoder.RunAppend | src/file-codec/stf/decoder.ts:29-128 | running two blocks of lines is running the first, then the second from where it left off |
| STFDecoder.BlankLineBuffered | src/file-codec/stf/decoder.ts:52-57 | a blank line is buffered even before any message |
| STFDecoder.BlankSteps | src/file-codec/stf/decoder.ts:29-58 | blank lines are all buffered and nothing else happens |
| STFDecoder.BlankSourceDecodesEmpty | src/file-codec/stf/decoder.ts:20-143 | a transcript of spaces, tabs and line feeds decodes to no messages |
| STFDecoder.InsideComment | src/file-codec/stf/decoder.ts:36-38 | inside a block comment, data lines and other commands change nothing but the line numbers |
| STFDecoder.CommentMarks | src/file-codec/stf/decoder.ts:6 | `;/*` and `;*/` are command lines naming the comment marks |
| STFDecoder.CommentSteps | src/file-codec/stf/decoder.ts:73-85 | `;/*` opens one more level; `;*/` closes one, and is an error outside any comment |
| STFDecoder.CommentHides | src/file-codec/stf/decoder.ts:73-87 | a block comment around inert lines hides them: only the line numbers change |
| STFEncoder.EscapedLines | src/file-codec/stf/encoder.ts:26-28 | one data line per line of the text, each escaped |
| STFEncoder.Items | src/file-codec/stf/encoder.ts:51-57 | one `key=value` item per argument pair, in order |
| STFEncoder.Stringify | src/file-codec/stf/encoder.ts:30-64 | the method's pushes and joins compute `StringifySpec`: `;raw`, the JSON5, `;end` for a part list; else the command line, its values quoted by the corrected `quoteValue`, and the escaped text when non-empty |
| STFRoundTrip.DataLineRoundTrip | src/file-codec/stf/encoder.ts:21-24 | an escaped data line reads back as the line |
| STFRoundTrip.QuotedText | src/file-codec/stf/command/args.ts:28-54 | a `JSON.stringify`d string in a line is scanned up to its closing quote |
| STFRoundTrip.EscapeNoLineFeed | src/file-codec/stf/encoder.ts:15 | no line feed survives `JSON.stringify` |
| STFRoundTrip.QuoteValueShape | src/file-codec/stf/encoder.ts:13-19 | with the corrected `quoteValue` (see Findings), a quoted value is never empty, never starts or ends with a blank and holds no line feed |
| STFRoundTrip.QuotedValueRead | src/file-codec/stf/command/args.ts:104-118 | a quoted literal that `JSON5.parse` reads as a string is the value |
| STFRoundTrip.BareValueRead | src/file-codec/stf/command/args.ts:119-129 | a token without blanks or quotes is the value |
| STFRoundTrip.ValueAtQuoted | src/file-codec/stf/command/args.ts:102-129 | a value written by the corrected `quoteValue` and followed by a blank or the end reads back as the value |
| STFRoundTrip.PairAtItem | src/file-codec/stf/command/args.ts:78-129 | an item `key=value`, followed by a blank or the end, reads back as its key and value |
| STFRoundTrip.SpacedReads | src/file-codec/stf/command/args.ts:77-136 | the items the encoder writes, each after a space, read back as their pairs |
| STFRoundTrip.ParseArgsSpaced | src/file-codec/stf/command/args.ts:59-139 | the argument text the encoder writes parses back into its pairs |
| STFRoundTrip.ArgPairsArgs | src/file-codec/stf/encoder.ts:39-57 | a message's command line reads back as its name and id, and its role when no command names it |
| STFTranscript.CommandLineStep | src/file-codec/stf/decoder.ts:8-18 | a line starting with `;` but not `;;` is a command line |
| STFTranscript.NamedCommandStep | src/file-codec/stf/decoder.ts:109-127 | a named command outside comments, with no command waiting, is invoked |
| STFTranscript.EndCommandStep | src/file-codec/stf/decoder.ts:91-105 | `;end` outside comments runs the waiting command |
| STFTranscript.InvokeRuns | src/file-codec/stf/decoder.ts:113-121 | a command that takes no lines runs at once on the flushed state |
| STFTranscript.InvokeWaits | src/file-codec/stf/decoder.ts:122-127 | a command that takes its lines up to `;end` waits for them |
| STFTranscript.MatchName | src/file-codec/stf/decoder.ts:6 | `;`, a name, then the end or a blank: the pattern matches that name |
| STFTranscript.CommandNameLooksUp | src/file-codec/stf/encoder.ts:5-11 | every name the encoder writes finds a command that takes no lines and starts a message with the message's role |
| STFTranscript.RawLooksUp | src/file-codec/stf/command/message.ts:47-54 | `raw` waits for its lines |
| STFTranscript.PlainCommandStep | src/file-codec/stf/decoder.ts:109-127 | a plain message's command line flushes the buffer and starts a fresh, current message with nothing buffered |
| STFTranscript.RawEndStep | src/file-codec/stf/command/message.ts:50-53 | `;end` after `;raw` appends the message its lines parse to and leaves none current |
| STFTranscript.DataSteps | src/file-codec/stf/decoder.ts:52-57 | data lines where lines are buffered are each buffered in turn |
| STFTranscript.TextReady | src/file-codec/stf/decode-state.ts:66-73 | after a plain message's command line and data lines, the flushed message has exactly its text |
| STFTranscript.RawBlock | src/file-codec/stf/encoder.ts:31-37 | a part-list message's `;raw` block decodes to the message |
| STFTranscript.MessageBlock | src/file-codec/stf/encoder.ts:30-64 | any message's block, read between messages, appends what the transcript keeps of it |
| STFTranscript.StringifyLines | src/file-codec/stf/encoder.ts:30-64 | what `stringify` writes for a message is its lines joined with line feeds |
| STFTranscript.EncodeLines | src/file-codec/stf/encoder.ts:66-68 | the encoder's text is all the lines joined with line feeds |
| STFTranscript.AllLinesNoLineFeed | src/file-codec/stf/encoder.ts:13-28 | no line the encoder writes holds a line feed |
| STFTranscript.SplitEncode | src/file-codec/stf/decoder.ts:28 | the lines the decoder splits from the encoder's text are the lines the encoder wrote |
| STFTranscript.RoundTrip | src/file-codec/stf/decoder.ts:20-143 | decoding what the encoder writes, with every command in the table, gives back every message as far as the transcript form carries it |
| STFTranscript.KeptWhole | src/file-codec/stf/encoder.ts:30-64 | the transcript keeps all of a message exactly when its content is a part list or it has nothing beyond role, name, id and text; role, name, id and content are always kept |
| STFTranscript.NoLookupRejects | src/file-codec/stf/command/index.ts:11-30 | with the table as written, `;user` alone is a type error |
| STFTranscript.RawGuardAsWritten | src/file-codec/stf/decoder.ts:51-56 | after `;raw` is read at the start of a transcript, the data-line step as written throws "Unexpected data line before a message." on the line `{}`, while the corrected step buffers it for the raw command |
| STFTranscript.QuoteLineFeedAsWritten | src/file-codec/stf/encoder.ts:13-19 | as written, a name `a\nb` splits the command line in two; the corrected quoting keeps it on one line |

## Left out

- I/O and async delivery: the `for await` loops become loops over a sequence of chunk values. The `on`/`done` stream objects, handler registries and promise plumbing are not modelled. Events are returned as a sequence, in the order the handlers would be called.
- JSON and JSON5 parsing and stringifying are function parameters:
  - `JSON.stringify` of a string is modelled (the STF quoting needs it);
  - everything else about those formats is assumed only through the round-trip requirements the lemmas state.
- The unique-id supply (`getNextUID`) is a function from a counter to a string; the methods return the counter's next value.
- Validation by the schema library becomes a validity predicate, and its failures are `ValidationError`; its message texts are not modelled.
- Numbers are unbounded integers; floating-point values are not modelled.
- `Buffer`/`ArrayBuffer` data: binary image or audio data are not modelled; only string (base64) data are.
- JavaScript object details are not modelled:
  - the prototype chain (so `ROLE_COMMAND_MAP` lookups of keys such as `constructor` are not modelled);
  - object identity and aliasing between the state and the messages it returns;
  - key order within objects.
- Strings are sequences of characters. UTF-16 lone surrogates, which `JSON.stringify` escapes, are not distinguished.
- `asMessageArray`/`isMessageArray` appear three times in the source (`message.ts`, `util.ts`, `codec.ts`); they are modelled once.
- `src/msg-codec/openai/chat-stream.ts` is a copy of `src/api-codec/openai/chat/stream.ts` with other names. It is modelled once, as `OpenAIChatStream`.
- The `from*` readers of `src/api-codec/openai/chat.ts` repeat those of `src/api-codec/openai/chat/response.ts`. They are modelled once, in `OpenAIChat`.
- STFTranscript.RoundTrip: the STF form carries no `call_id`, `reasoning`, `refusal`, `tool_calls` or `extra` for a message with string content, so the round trip gives back what `Kept` keeps. `encoder.spec.ts` expects these fields to survive, but `stringify` does not write them.
- `src/api-codec/gemini/stream.ts`, the JSON and TOML file codecs, the step-codec dispatch layer and the identity codec are not part of this model. They depend on code not shown, or contain no behaviour beyond a call.
- MessageUtil.GetMessageExtra: the model's `Arr` carries no named properties, so with `init` an array `extra` is reported as a TypeError, where JavaScript adds the namespace as a named property of the array and returns `{}`.
- MessageUtil.SetExtraField: for the same reason, an array `extra` or an array namespace entry is reported as a TypeError, where JavaScript stores the field as a named property of the array.
- ClaudeStream.StartOther: stands only for block types other than `text`, `thinking`, `redacted_thinking` and `tool_use`. Those four always arrive as their own constructors. A `StartOther` carrying one of these names would record that type without taking that type's branch, which the source never does.
- Monadic STF commands: the decoder's monadic branch is modelled, but no command in the tables is monadic, so no lemma exercises it.

## Findings

| source | as written | input that shows it | evidently intended | confidence | as-written member | corrected member |
|---|---|---|---|---|---|---|
| src/file-codec/stf/command/index.ts:11-30 | the function that builds `COMMAND_LOOKUP` returns nothing, so the decoder's lookup of any command name reads a property of `undefined` | the transcript `;user` | the function returns the table it built | not executed | STFTranscript.NoLookupRejects | STFTranscript.RoundTrip |
| src/file-codec/stf/command/index.ts:7-9 | `COMMANDS` holds only the message commands, so `;extra` and `;flush` are unknown commands | a transcript using `;flush` | the field and misc commands are registered too | not executed | STFCommands.CommandsOmitsFieldAndMisc | STFCommands.AllCommandsTable |
| src/file-codec/stf/decoder.ts:52-54 | the data-before-message check also fires on the lines of a `;raw` block, which has no current message | `;raw`, `{}`, `;end` at the start of a transcript | the check applies only when no command is collecting lines | not executed | STFTranscript.RawGuardAsWritten | STFTranscript.RawBlock |
| src/file-codec/stf/decode-state.ts:64-77 | at the end of input, a buffer of blank lines with no current message starts a message without a role, which is an error | the transcript ` ` (one space) | a blank-only buffer with no message is dropped, so blank input decodes to no messages | not executed | STFState.BlankBufferFlush | STFDecoder.BlankSourceDecodesEmpty |
| src/file-codec/stf/encoder.ts:13-19 | `quoteValue` leaves a value containing a line feed unquoted, so the command line breaks across two lines and the second is read as data | a user message named `a` line feed `b` | values containing a line feed are quoted as well | not executed | STFTranscript.QuoteLineFeedAsWritten | STFRoundTrip.QuoteValueShape |
