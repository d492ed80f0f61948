/**
 Decoding a streamed Claude response into step-stream events. The raw
 stream events drive the shared step-stream engine (role, text, thinking
 and tool-call deltas); next to it the decoder keeps the type of each
 content block, the thinking blocks to store, the block that is still
 collecting a thinking text, a counter numbering the tool calls, and the
 finish reason.
 */
module ClaudeStream {
  import opened Wrappers
  import opened Json
  import opened Strings
  import opened Content
  import opened Messages
  import opened ProviderExtra
  import opened Step
  import opened StreamState
  import opened ClaudeResponse
  import opened Sorting

  /** What `content_block_start` announces. */
  datatype StartedBlock =
    | StartText
    | StartThinking
    | StartRedacted(data: string)
    | StartToolUse(id: string, name: string)
    // Any other block type; never one of the four names above.
    | StartOther(kind: string)

  function BlockTypeName(b: StartedBlock): string {
    match b
    case StartText => "text"
    case StartThinking => "thinking"
    case StartRedacted(_) => "redacted_thinking"
    case StartToolUse(_, _) => "tool_use"
    case StartOther(kind) => kind
  }

  /** What `content_block_delta` carries. */
  datatype ChunkDelta =
    | TextChunk(text: string)
    | ThinkingChunk(thinking: string)
    | SignatureChunk(signature: string)
    | InputJsonChunk(partial_json: string)
    | OtherDelta(kind: string)

  /** The raw stream events. */
  datatype ClaudeChunk =
    | MessageStart(id: string, model: string, role: string)
    | BlockStart(index: int, block: StartedBlock)
    | BlockDelta(index: int, delta: ChunkDelta)
    | BlockStop(index: int)
    | MessageDeltaChunk(stop_reason: Option<string>)
    | MessageStop

  datatype PendingThinking = PendingThinking(thinking: string, signature: string)

  /** The decoder's own variables, next to the engine state. */
  datatype DecoderVars = DecoderVars(
    blockTypes: map<int, string>,
    thinkingBlocks: seq<ClaudeThinkingBlock>,
    pending: Option<PendingThinking>,
    toolCallCounter: int,
    blockToTool: map<int, int>,
    started: bool,
    finishReason: string)

  const INITIAL_VARS: DecoderVars := DecoderVars(map[], [], None, 0, map[], false, "")

  /** The metadata of `stream.start`: id and model only when non-empty. */
  function StartMetadata(id: string, model: string): (r: StreamMetadata)
    ensures r.id.Some? <==> id != ""
    ensures r.model.Some? <==> model != ""
    ensures r.id.Some? ==> r.id.value == id
    ensures r.model.Some? ==> r.model.value == model
  {
    StreamMetadata(if id != "" then Some(id) else None, if model != "" then Some(model) else None)
  }

  function ToolStartDelta(tcIndex: int, id: string, name: string): MessageDelta {
    ToolCallsDelta([ToolCallDelta(tcIndex, Some(id), Some(name), None)])
  }

  function ToolArgsDelta(tcIndex: int, fragment: string): MessageDelta {
    ToolCallsDelta([ToolCallDelta(tcIndex, None, None, Some(fragment))])
  }

  /** One raw event: the engine state after the event's delta, the decoder
      variables, and the events yielded (a `stream.start` for
      `message_start`, then the engine's). */
  function ChunkStep(s: Snapshot, v: DecoderVars, c: ClaudeChunk): (Snapshot, DecoderVars, seq<StreamEvent>) {
    var (s2, es) := ApplySpec(s, EngineDelta(v, c));
    (s2, VarsStep(v, c), LeadEvents(c) + es)
  }

  /** The delta a raw event hands the engine: the role of `message_start`, a
      `tool_use` start numbered by the counter, a text or thinking delta, and
      an `input_json_delta` on a block mapped to a tool call. */
  function EngineDelta(v: DecoderVars, c: ClaudeChunk): Option<MessageDelta> {
    match c
    case MessageStart(_, _, role) => Some(RoleDelta(role))
    case BlockStart(_, b) => if b.StartToolUse? then Some(ToolStartDelta(v.toolCallCounter, b.id, b.name)) else None
    case BlockDelta(k, d) =>
      (match d
       case TextChunk(t) => Some(ContentOnlyDelta(Plain(t)))
       case ThinkingChunk(t) => Some(ReasoningOnlyDelta(Plain(t)))
       case InputJsonChunk(j) => if k in v.blockToTool then Some(ToolArgsDelta(v.blockToTool[k], j)) else None
       case _ => None)
    case _ => None
  }

  /** What a raw event yields ahead of the engine's events: `stream.start`
      for `message_start`. */
  function LeadEvents(c: ClaudeChunk): seq<StreamEvent> {
    if c.MessageStart? then [StreamStart(Some(StartMetadata(c.id, c.model)))] else []
  }

  /** What a raw event does to the decoder's own variables. */
  function VarsStep(v: DecoderVars, c: ClaudeChunk): DecoderVars {
    match c
    case MessageStart(_, _, _) => v.(started := true)
    case BlockStart(k, b) =>
      var v1 := v.(blockTypes := v.blockTypes[k := BlockTypeName(b)]);
      (match b
       case StartThinking => v1.(pending := Some(PendingThinking("", "")))
       case StartRedacted(d) => v1.(thinkingBlocks := v1.thinkingBlocks + [RedactedThinking(d)])
       case StartToolUse(_, _) =>
         v1.(toolCallCounter := v1.toolCallCounter + 1, blockToTool := v1.blockToTool[k := v1.toolCallCounter])
       case _ => v1)
    case BlockDelta(k, d) =>
      (match d
       case ThinkingChunk(t) =>
         if v.pending.Some? then v.(pending := Some(v.pending.value.(thinking := v.pending.value.thinking + t))) else v
       case SignatureChunk(sg) =>
         if v.pending.Some? then v.(pending := Some(v.pending.value.(signature := v.pending.value.signature + sg))) else v
       case _ => v)
    case BlockStop(k) =>
      if k in v.blockTypes && v.blockTypes[k] == "thinking" && v.pending.Some? then
        v.(thinkingBlocks := v.thinkingBlocks + [Thinking(v.pending.value.thinking, v.pending.value.signature)], pending := None)
      else v
    case MessageDeltaChunk(reason) =>
      if NonEmpty(reason) then v.(finishReason := FromClaudeStopReason(reason)) else v
    case MessageStop => v
  }

  /** The raw events applied one after another. */
  function ChunkFold(cs: seq<ClaudeChunk>): (Snapshot, DecoderVars, seq<StreamEvent>) {
    if |cs| == 0 then (InitialSnapshot(), INITIAL_VARS, [])
    else
      var (s1, v1, e1) := ChunkFold(cs[..|cs| - 1]);
      var (s2, v2, e2) := ChunkStep(s1, v1, cs[|cs| - 1]);
      (s2, v2, e1 + e2)
  }

  /** What holds of the engine state between raw events. */
  ghost predicate EngineOk(s: Snapshot) {
    TableValid(s.table, false) && s.message.extra.None?
  }

  lemma ApplyKeepsEngine(s: Snapshot, delta: Option<MessageDelta>)
    requires EngineOk(s)
    ensures EngineOk(ApplySpec(s, delta).0)
  {
    ApplyValid(s, delta);
    if delta.Some? {
      ApplyMessage(s, delta.value);
    }
  }

  lemma ChunkStepEngine(s: Snapshot, v: DecoderVars, c: ClaudeChunk)
    requires EngineOk(s)
    ensures EngineOk(ChunkStep(s, v, c).0)
  {
    ApplyKeepsEngine(s, EngineDelta(v, c));
  }

  lemma {:induction false} ChunkFoldEngine(cs: seq<ClaudeChunk>)
    ensures EngineOk(ChunkFold(cs).0)
  {
    if |cs| > 0 {
      ChunkFoldEngine(cs[..|cs| - 1]);
      var s1, v1 := ChunkFold(cs[..|cs| - 1]).0, ChunkFold(cs[..|cs| - 1]).1;
      ChunkStepEngine(s1, v1, cs[|cs| - 1]);
    }
  }

  /** The stored thinking blocks once an unfinished one is flushed. */
  function FlushedThinking(v: DecoderVars): seq<ClaudeThinkingBlock> {
    if v.pending.Some? then v.thinkingBlocks + [Thinking(v.pending.value.thinking, v.pending.value.signature)]
    else v.thinkingBlocks
  }

  /** After the last raw event: the finalised message with its thinking
      blocks, and the events of finalising, a late `stream.start` and
      `stream.end`. */
  function FinishSpec(s: Snapshot, v: DecoderVars): (Message, seq<StreamEvent>)
    requires EngineOk(s)
  {
    ValidKeysIn(s.table, false);
    FinalizeFacts(s);
    var (s2, endEvents) := FinalizeSpec(s);
    var flushed := FlushedThinking(v);
    var m := if |flushed| > 0 then WithThinkingBlocks(s2.message, flushed) else s2.message;
    (m, endEvents + (if !v.started then [StreamStart(None)] else [])
        + [StreamEnd(if v.finishReason != "" then Some(v.finishReason) else None)])
  }

  /** The whole stream: every event yielded, and the one message. */
  function DecodeSpec(cs: seq<ClaudeChunk>): (Message, seq<StreamEvent>) {
    var f := ChunkFold(cs);
    ChunkFoldEngine(cs);
    var fin := FinishSpec(f.0, f.1);
    (fin.0, f.2 + fin.1)
  }

  // ---------------------------------------------------------------------
  // The decoder

  /** One raw event against the engine object. */
  method ProcessChunk(state: StepStreamState, v: DecoderVars, c: ClaudeChunk) returns (v2: DecoderVars, events: seq<StreamEvent>)
    requires state.Valid()
    modifies state
    ensures state.Valid()
    ensures (state.Snap(), v2, events) == ChunkStep(old(state.Snap()), v, c)
  {
    ghost var s0 := state.Snap();
    ApplyNone(s0);
    v2 := v;
    events := [];
    match c {
    case MessageStart(id, model, role) =>
      v2 := v2.(started := true);
      var es := state.ApplyDelta(Some(RoleDelta(role)));
      events := [StreamStart(Some(StartMetadata(id, model)))] + es;
    case BlockStart(k, b) =>
      v2 := v2.(blockTypes := v2.blockTypes[k := BlockTypeName(b)]);
      match b {
        case StartThinking =>
          v2 := v2.(pending := Some(PendingThinking("", "")));
        case StartRedacted(d) =>
          v2 := v2.(thinkingBlocks := v2.thinkingBlocks + [RedactedThinking(d)]);
        case StartToolUse(id, name) =>
          var tcIndex := v2.toolCallCounter;
          v2 := v2.(toolCallCounter := tcIndex + 1, blockToTool := v2.blockToTool[k := tcIndex]);
          events := state.ApplyDelta(Some(ToolStartDelta(tcIndex, id, name)));
        case _ =>
      }
    case BlockDelta(k, d) =>
      match d {
        case TextChunk(t) =>
          events := state.ApplyDelta(Some(ContentOnlyDelta(Plain(t))));
        case ThinkingChunk(t) =>
          if v2.pending.Some? {
            v2 := v2.(pending := Some(v2.pending.value.(thinking := v2.pending.value.thinking + t)));
          }
          events := state.ApplyDelta(Some(ReasoningOnlyDelta(Plain(t))));
        case SignatureChunk(sg) =>
          if v2.pending.Some? {
            v2 := v2.(pending := Some(v2.pending.value.(signature := v2.pending.value.signature + sg)));
          }
        case InputJsonChunk(j) =>
          if k in v2.blockToTool {
            events := state.ApplyDelta(Some(ToolArgsDelta(v2.blockToTool[k], j)));
          }
        case OtherDelta(_) =>
      }
    case BlockStop(k) =>
      if k in v2.blockTypes && v2.blockTypes[k] == "thinking" && v2.pending.Some? {
        v2 := v2.(thinkingBlocks := v2.thinkingBlocks + [Thinking(v2.pending.value.thinking, v2.pending.value.signature)]);
        v2 := v2.(pending := None);
      }
    case MessageDeltaChunk(reason) =>
      if NonEmpty(reason) {
        v2 := v2.(finishReason := FromClaudeStopReason(reason));
      }
    case MessageStop =>
    }
    assert v2 == VarsStep(v, c);
    assert state.Snap() == ApplySpec(s0, EngineDelta(v, c)).0;
    assert events == LeadEvents(c) + ApplySpec(s0, EngineDelta(v, c)).1;
  }

  /** The stream decoder: the events it yields, in order, and the result it
      returns. */
  method DecodeClaudeStream(cs: seq<ClaudeChunk>) returns (events: seq<StreamEvent>, result: StepResult)
    ensures events == DecodeSpec(cs).1
    ensures result == StepResult([DecodeSpec(cs).0], None, None)
  {
    var state := new StepStreamState();
    var v := INITIAL_VARS;
    events := [];
    for i := 0 to |cs|
      invariant state.Valid()
      invariant ChunkFold(cs[..i]) == (state.Snap(), v, events)
    {
      assert cs[..i + 1][..i] == cs[..i];
      var v2, es := ProcessChunk(state, v, cs[i]);
      v := v2;
      events := events + es;
    }
    assert cs[..|cs|] == cs;
    ChunkFoldEngine(cs);
    var m, fin := FinishStream(state, v);
    events := events + fin;
    result := StepResult([m], None, None);
  }

  /** After the last raw event: flush an unfinished thinking block, finalise
      the engine state, store the thinking blocks, and close the stream. */
  method FinishStream(state: StepStreamState, v: DecoderVars) returns (m: Message, events: seq<StreamEvent>)
    requires state.Valid() && EngineOk(state.Snap())
    modifies state
    ensures (m, events) == FinishSpec(old(state.Snap()), v)
  {
    ghost var s := state.Snap();
    var flushed := v.thinkingBlocks;
    if v.pending.Some? {
      flushed := flushed + [Thinking(v.pending.value.thinking, v.pending.value.signature)];
    }
    assert flushed == FlushedThinking(v);
    events := state.Finalize();
    FinalizeFacts(s);
    ghost var m2 := state.message;
    assert m2 == FinalizeSpec(s).0.message;
    if |flushed| > 0 {
      state.message := WithThinkingBlocks(state.message, flushed);
    }
    ghost var late: seq<StreamEvent> := if !v.started then [StreamStart(None)] else [];
    if !v.started {
      events := events + [StreamStart(None)];
    }
    assert events == FinalizeSpec(s).1 + late;
    events := events + [StreamEnd(if v.finishReason != "" then Some(v.finishReason) else None)];
    m := state.ToResult()[0];
    assert m == (if |flushed| > 0 then WithThinkingBlocks(m2, flushed) else m2);
  }

  /** The end of the stream, spelled out. */
  lemma DecodeParts(cs: seq<ClaudeChunk>)
    ensures EngineOk(ChunkFold(cs).0)
    ensures KeysIn(ChunkFold(cs).0.table.calls, ChunkFold(cs).0.table.order)
    ensures FinalizeSpec(ChunkFold(cs).0).0.message.extra.None?
    ensures var s := ChunkFold(cs).0; var v := ChunkFold(cs).1;
      var m2 := FinalizeSpec(s).0.message;
      var flushed := FlushedThinking(v);
      DecodeSpec(cs).0 == (if |flushed| > 0 then WithThinkingBlocks(m2, flushed) else m2)
      && DecodeSpec(cs).1
         == ChunkFold(cs).2 + FinalizeSpec(s).1 + (if !v.started then [StreamStart(None)] else [])
            + [StreamEnd(if v.finishReason != "" then Some(v.finishReason) else None)]
  {
    ChunkFoldEngine(cs);
    FinishParts(ChunkFold(cs).0, ChunkFold(cs).1, ChunkFold(cs).2);
  }

  lemma FinishParts(s: Snapshot, v: DecoderVars, es: seq<StreamEvent>)
    requires EngineOk(s)
    ensures KeysIn(s.table.calls, s.table.order)
    ensures FinalizeSpec(s).0.message.extra.None?
    ensures var m2 := FinalizeSpec(s).0.message;
      var flushed := FlushedThinking(v);
      FinishSpec(s, v).0 == (if |flushed| > 0 then WithThinkingBlocks(m2, flushed) else m2)
      && es + FinishSpec(s, v).1
         == es + FinalizeSpec(s).1 + (if !v.started then [StreamStart(None)] else [])
            + [StreamEnd(if v.finishReason != "" then Some(v.finishReason) else None)]
  {
    assert KeysIn(s.table.calls, s.table.order) && FinalizeSpec(s).0.message.extra.None? by {
      FinalizeFacts(s);
    }
    var endEvents := FinalizeSpec(s).1;
    var late: seq<StreamEvent> := if !v.started then [StreamStart(None)] else [];
    var last := [StreamEnd(if v.finishReason != "" then Some(v.finishReason) else None)];
    assert FinishSpec(s, v).1 == endEvents + late + last;
    assert es + (endEvents + late + last) == es + endEvents + late + last;
  }

  // ---------------------------------------------------------------------
  // Stream boundaries

  /** The number of `message_start` events. */
  function MessageStarts(cs: seq<ClaudeChunk>): nat {
    if |cs| == 0 then 0
    else MessageStarts(cs[..|cs| - 1]) + (if cs[|cs| - 1].MessageStart? then 1 else 0)
  }

  /** The last non-empty `stop_reason` a `message_delta` brought. */
  function LastStopReason(cs: seq<ClaudeChunk>): Option<string> {
    if |cs| == 0 then None
    else
      var c := cs[|cs| - 1];
      if c.MessageDeltaChunk? && NonEmpty(c.stop_reason) then c.stop_reason
      else LastStopReason(cs[..|cs| - 1])
  }

  lemma ChunkStepBoundaries(s: Snapshot, v: DecoderVars, c: ClaudeChunk)
    ensures var es := ChunkStep(s, v, c).2;
      StreamStarts(es) == (if c.MessageStart? then 1 else 0)
      && (forall i :: 0 <= i < |es| ==> !es[i].StreamEnd?)
    ensures var v2 := ChunkStep(s, v, c).1;
      v2.started == (v.started || c.MessageStart?)
      && v2.finishReason
         == (if c.MessageDeltaChunk? && NonEmpty(c.stop_reason) then FromClaudeStopReason(c.stop_reason) else v.finishReason)
  {
    ApplyNoBoundary(s, EngineDelta(v, c));
    LeadBoundaries(LeadEvents(c), ApplySpec(s, EngineDelta(v, c)).1);
    VarsStepFlags(v, c);
  }

  lemma VarsStepFlags(v: DecoderVars, c: ClaudeChunk)
    ensures VarsStep(v, c).started == (v.started || c.MessageStart?)
    ensures VarsStep(v, c).finishReason
         == (if c.MessageDeltaChunk? && NonEmpty(c.stop_reason) then FromClaudeStopReason(c.stop_reason) else v.finishReason)
  {
  }

  lemma LeadBoundaries(lead: seq<StreamEvent>, es: seq<StreamEvent>)
    requires |lead| <= 1 && forall i :: 0 <= i < |lead| ==> lead[i].StreamStart?
    requires forall i :: 0 <= i < |es| ==> !Boundary(es[i])
    ensures StreamStarts(lead + es) == |lead|
    ensures forall i :: 0 <= i < |lead + es| ==> !(lead + es)[i].StreamEnd?
  {
    StreamStartsNone(es);
    StreamStartsAppend(lead, es);
    if |lead| > 0 {
      assert lead[..0] == [];
    }
  }

  /** Before the end of the stream: one `stream.start` per `message_start`,
      no `stream.end`, and the finish reason mapped from the last stop
      reason. */
  lemma {:induction false} ChunkFoldBoundaries(cs: seq<ClaudeChunk>)
    ensures var v := ChunkFold(cs).1; var es := ChunkFold(cs).2;
      StreamStarts(es) == MessageStarts(cs)
      && (forall i :: 0 <= i < |es| ==> !es[i].StreamEnd?)
      && v.started == (MessageStarts(cs) > 0)
      && v.finishReason == (if LastStopReason(cs).Some? then FromClaudeStopReason(LastStopReason(cs)) else "")
  {
    if |cs| > 0 {
      var init := cs[..|cs| - 1];
      ChunkFoldBoundaries(init);
      var s1, v1 := ChunkFold(init).0, ChunkFold(init).1;
      ChunkStepBoundaries(s1, v1, cs[|cs| - 1]);
      StreamStartsAppend(ChunkFold(init).2, ChunkStep(s1, v1, cs[|cs| - 1]).2);
    }
  }

  /** The decoded stream ends with exactly one `stream.end`, carrying the
      mapped last stop reason (none when no stop reason came), and holds one
      `stream.start` per `message_start`, or a single late one when none
      came. */
  lemma DecodeBoundaries(cs: seq<ClaudeChunk>)
    ensures var es := DecodeSpec(cs).1;
      |es| > 0
      && es[|es| - 1]
         == StreamEnd(if LastStopReason(cs).Some? then Some(FromClaudeStopReason(LastStopReason(cs))) else None)
      && (forall i :: 0 <= i < |es| - 1 ==> !es[i].StreamEnd?)
      && StreamStarts(es) == (if MessageStarts(cs) == 0 then 1 else MessageStarts(cs))
  {
    ChunkFoldBoundaries(cs);
    ChunkFoldEngine(cs);
    FinishBoundaries(ChunkFold(cs).0, ChunkFold(cs).1, ChunkFold(cs).2);
  }

  /** Finishing closes any events without a `stream.end`. */
  lemma FinishBoundaries(s: Snapshot, v: DecoderVars, es: seq<StreamEvent>)
    requires EngineOk(s)
    requires forall i :: 0 <= i < |es| ==> !es[i].StreamEnd?
    ensures var all := es + FinishSpec(s, v).1;
      |all| > 0
      && all[|all| - 1] == StreamEnd(if v.finishReason != "" then Some(v.finishReason) else None)
      && (forall i :: 0 <= i < |all| - 1 ==> !all[i].StreamEnd?)
      && StreamStarts(all) == StreamStarts(es) + (if !v.started then 1 else 0)
  {
    FinishParts(s, v, es);
    FinalizeFacts(s);
    ClosedStream(es, FinalizeSpec(s).1, !v.started, StreamEnd(if v.finishReason != "" then Some(v.finishReason) else None));
  }

  // ---------------------------------------------------------------------
  // The streamed message

  /** The text a raw event adds to the content: a `text_delta`'s text. */
  function ChunkText(c: ClaudeChunk): string {
    if c.BlockDelta? && c.delta.TextChunk? then c.delta.text else ""
  }

  /** The text a raw event adds to the reasoning: a `thinking_delta`'s text. */
  function ChunkThinking(c: ClaudeChunk): string {
    if c.BlockDelta? && c.delta.ThinkingChunk? then c.delta.thinking else ""
  }

  function StreamedText(cs: seq<ClaudeChunk>): string {
    if |cs| == 0 then "" else StreamedText(cs[..|cs| - 1]) + ChunkText(cs[|cs| - 1])
  }

  function StreamedThinking(cs: seq<ClaudeChunk>): string {
    if |cs| == 0 then "" else StreamedThinking(cs[..|cs| - 1]) + ChunkThinking(cs[|cs| - 1])
  }

  /** The last non-empty role a `message_start` announced, `""` for none. */
  function AnnouncedRole(cs: seq<ClaudeChunk>): string {
    if |cs| == 0 then ""
    else
      var c := cs[|cs| - 1];
      if c.MessageStart? && c.role != "" then c.role else AnnouncedRole(cs[..|cs| - 1])
  }

  lemma ChunkStepMessage(s: Snapshot, v: DecoderVars, c: ClaudeChunk)
    ensures var m := s.message; var m2 := ChunkStep(s, v, c).0.message;
      MessageContentToText(m2.content) == MessageContentToText(m.content) + ChunkText(c)
      && TextOf(m2.reasoning) == TextOf(m.reasoning) + ChunkThinking(c)
      && m2.role == (if c.MessageStart? && c.role != "" then c.role else m.role)
      && m2.refusal == m.refusal && m2.tool_calls == m.tool_calls && m2.extra == m.extra
  {
    EngineDeltaFields(s.message, v, c);
    if EngineDelta(v, c).Some? {
      ApplyMessage(s, EngineDelta(v, c).value);
    }
  }

  /** The fields of a raw event's delta, in terms of the raw event. */
  lemma EngineDeltaFields(m: Message, v: DecoderVars, c: ClaudeChunk)
    ensures var d := EngineDelta(v, c);
      (d.None? ==> ChunkText(c) == "" && ChunkThinking(c) == "" && !c.MessageStart?)
      && (d.Some? ==>
            (if ContentTruthy(d.value.content) then TextOf(d.value.content) else "") == ChunkText(c)
            && (if ContentTruthy(d.value.reasoning) then TextOf(d.value.reasoning) else "") == ChunkThinking(c)
            && !ContentTruthy(d.value.refusal)
            && (if RoleChanges(m, d.value) then d.value.role.value else m.role)
               == (if c.MessageStart? && c.role != "" then c.role else m.role))
  {
  }

  /** Before finalising: the content is the text deltas, the reasoning the
      thinking deltas, the role the last one announced, and nothing else is
      set. */
  lemma {:induction false} ChunkFoldMessage(cs: seq<ClaudeChunk>)
    ensures var m := ChunkFold(cs).0.message;
      MessageContentToText(m.content) == StreamedText(cs)
      && TextOf(m.reasoning) == StreamedThinking(cs)
      && m.role == AnnouncedRole(cs)
      && m.refusal.None? && m.tool_calls.None? && m.extra.None?
  {
    if |cs| > 0 {
      var init := cs[..|cs| - 1];
      ChunkFoldMessage(init);
      var s1, v1 := ChunkFold(init).0, ChunkFold(init).1;
      ChunkStepMessage(s1, v1, cs[|cs| - 1]);
    }
  }

  /** The decoded message: the concatenated text and thinking deltas, the
      announced role or `assistant`, no refusal, and the thinking blocks
      recorded (`FlushedBlocks`: each thinking block the fragments between
      its start and its stop, in the order shared with the redacted ones)
      under `extra.claude.thinking_blocks` exactly when there are any. */
  lemma DecodeMessage(cs: seq<ClaudeChunk>)
    ensures var m := DecodeSpec(cs).0; var blocks := FlushedBlocks(cs);
      MessageContentToText(m.content) == StreamedText(cs)
      && TextOf(m.reasoning) == StreamedThinking(cs)
      && m.role == (if AnnouncedRole(cs) != "" then AnnouncedRole(cs) else "assistant")
      && m.refusal.None?
      && (m.extra.Some? <==> |blocks| > 0)
      && (|blocks| > 0 ==>
            m.extra == Some(Obj(map[MESSAGE_EXTRA_CLAUDE := Obj(map["thinking_blocks" := ThinkingBlocksToValue(blocks)])])))
  {
    ChunkFoldMessage(cs);
    ChunkFoldEngine(cs);
    FinalizeFacts(ChunkFold(cs).0);
    StoredThinking(cs);
  }

  // ---------------------------------------------------------------------
  // Tool calls

  /** The `tool_use` blocks started, in order; each becomes the tool call
      numbered by its position. */
  function ToolStarts(cs: seq<ClaudeChunk>): seq<StartedBlock> {
    if |cs| == 0 then [] else ToolStarts(cs[..|cs| - 1]) + NewToolStart(cs[|cs| - 1])
  }

  function NewToolStart(c: ClaudeChunk): seq<StartedBlock> {
    if c.BlockStart? && c.block.StartToolUse? then [c.block] else []
  }

  /** Which tool call each content block feeds: the block index of a
      `tool_use` start is mapped to the number of earlier starts. */
  function BlockMap(cs: seq<ClaudeChunk>): map<int, int> {
    if |cs| == 0 then map[]
    else
      var init := cs[..|cs| - 1];
      var c := cs[|cs| - 1];
      if c.BlockStart? && c.block.StartToolUse? then BlockMap(init)[c.index := |ToolStarts(init)|]
      else BlockMap(init)
  }

  /** The non-empty `input_json_delta` fragment a raw event brings to tool
      call `k`, as a list of at most one. */
  function ChunkFragment(bm: map<int, int>, c: ClaudeChunk, k: int): seq<string> {
    if c.BlockDelta? && c.delta.InputJsonChunk? && c.index in bm && bm[c.index] == k && c.delta.partial_json != ""
    then [c.delta.partial_json]
    else []
  }

  function ToolFragments(cs: seq<ClaudeChunk>, k: int): seq<string> {
    if |cs| == 0 then []
    else ToolFragments(cs[..|cs| - 1], k) + ChunkFragment(BlockMap(cs[..|cs| - 1]), cs[|cs| - 1], k)
  }

  lemma VarsStepCounter(v: DecoderVars, c: ClaudeChunk)
    ensures var v2 := VarsStep(v, c);
      v2.toolCallCounter == v.toolCallCounter + |NewToolStart(c)|
      && v2.blockToTool
         == (if c.BlockStart? && c.block.StartToolUse? then v.blockToTool[c.index := v.toolCallCounter] else v.blockToTool)
  {
  }

  lemma {:induction false} ChunkFoldCounter(cs: seq<ClaudeChunk>)
    ensures ChunkFold(cs).1.toolCallCounter == |ToolStarts(cs)|
    ensures ChunkFold(cs).1.blockToTool == BlockMap(cs)
  {
    if |cs| > 0 {
      var init := cs[..|cs| - 1];
      ChunkFoldCounter(init);
      var v1 := ChunkFold(init).1;
      VarsStepCounter(v1, cs[|cs| - 1]);
    }
  }

  function Range(n: nat): (r: seq<int>)
    ensures |r| == n && forall i :: 0 <= i < n ==> r[i] == i
  {
    seq(n, i => i)
  }

  /** The table holds tool calls `0 .. n-1` in that order, one per started
      `tool_use` block, with that block's id and name. */
  ghost predicate ToolsInv(t: ToolCallTable, v: DecoderVars, starts: seq<StartedBlock>) {
    v.toolCallCounter == |starts|
    && t.order == Range(|starts|)
    && (forall k :: k in t.calls <==> 0 <= k < |starts|)
    && (forall b :: b in v.blockToTool ==> 0 <= v.blockToTool[b] < |starts|)
    && forall k :: 0 <= k < |starts| ==>
         starts[k].StartToolUse?
         && t.calls[k].id == Some(starts[k].id) && t.calls[k].name == starts[k].name
         && t.calls[k].call_id.None? && t.calls[k].extra.None?
  }

  lemma ChunkStepTools(s: Snapshot, v: DecoderVars, c: ClaudeChunk, starts: seq<StartedBlock>)
    requires ToolsInv(s.table, v, starts)
    ensures ToolsInv(ChunkStep(s, v, c).0.table, ChunkStep(s, v, c).1, starts + NewToolStart(c))
  {
    VarsStepCounter(v, c);
    if c.BlockStart? && c.block.StartToolUse? {
      StartToolInv(s.table, v, VarsStep(v, c), starts, c.index, c.block);
      assert NewToolStart(c) == [c.block];
    } else if c.BlockDelta? && c.delta.InputJsonChunk? && c.index in v.blockToTool {
      ArgsToolInv(s.table, v, VarsStep(v, c), starts, v.blockToTool[c.index], c.delta.partial_json);
      assert starts + NewToolStart(c) == starts;
    } else {
      assert ApplySpec(s, EngineDelta(v, c)).0.table == s.table;
      SameToolInv(s.table, v, VarsStep(v, c), starts);
      assert starts + NewToolStart(c) == starts;
    }
  }

  /** A `tool_use` start adds call `n` with the block's id and name. */
  lemma StartToolInv(t: ToolCallTable, v: DecoderVars, v2: DecoderVars, starts: seq<StartedBlock>, k: int, b: StartedBlock)
    requires b.StartToolUse? && ToolsInv(t, v, starts)
    requires v2.toolCallCounter == v.toolCallCounter + 1 && v2.blockToTool == v.blockToTool[k := v.toolCallCounter]
    ensures ToolsInv(TableFold(t, [ToolCallDelta(v.toolCallCounter, Some(b.id), Some(b.name), None)], false).0, v2, starts + [b])
  {
    var n := v.toolCallCounter;
    var tc := ToolCallDelta(n, Some(b.id), Some(b.name), None);
    TableFoldOne(t, tc, false);
    assert n !in t.calls;
    assert Range(n) + [n] == Range(n + 1);
    var u := Updated(t, tc);
    assert u.id == Some(b.id) && u.name == b.name;
  }

  /** An `input_json_delta` on a mapped block only grows that call's arguments. */
  lemma ArgsToolInv(t: ToolCallTable, v: DecoderVars, v2: DecoderVars, starts: seq<StartedBlock>, n: int, j: string)
    requires ToolsInv(t, v, starts) && n in t.calls
    requires v2.toolCallCounter == v.toolCallCounter && v2.blockToTool == v.blockToTool
    ensures ToolsInv(TableFold(t, [ToolCallDelta(n, None, None, Some(j))], false).0, v2, starts)
  {
    TableFoldOne(t, ToolCallDelta(n, None, None, Some(j)), false);
  }

  lemma SameToolInv(t: ToolCallTable, v: DecoderVars, v2: DecoderVars, starts: seq<StartedBlock>)
    requires ToolsInv(t, v, starts)
    requires v2.toolCallCounter == v.toolCallCounter && v2.blockToTool == v.blockToTool
    ensures ToolsInv(t, v2, starts)
  {
  }

  lemma {:induction false} ChunkFoldTools(cs: seq<ClaudeChunk>)
    ensures ToolsInv(ChunkFold(cs).0.table, ChunkFold(cs).1, ToolStarts(cs))
  {
    if |cs| > 0 {
      var init := cs[..|cs| - 1];
      ChunkFoldTools(init);
      var s1, v1 := ChunkFold(init).0, ChunkFold(init).1;
      ChunkStepTools(s1, v1, cs[|cs| - 1], ToolStarts(init));
    }
  }

  lemma ChunkStepArguments(s: Snapshot, v: DecoderVars, c: ClaudeChunk, k: int)
    ensures ArgumentsOf(ChunkStep(s, v, c).0.table, k) == ArgumentsOf(s.table, k) + Concat(ChunkFragment(v.blockToTool, c, k))
  {
    if c.BlockStart? && c.block.StartToolUse? {
      DeltaArguments(s.table, ToolCallDelta(v.toolCallCounter, Some(c.block.id), Some(c.block.name), None), k);
    } else if c.BlockDelta? && c.delta.InputJsonChunk? && c.index in v.blockToTool {
      var tc := ToolCallDelta(v.blockToTool[c.index], None, None, Some(c.delta.partial_json));
      DeltaArguments(s.table, tc, k);
      assert Fragment(tc, k) == ChunkFragment(v.blockToTool, c, k);
    } else {
      assert ApplySpec(s, EngineDelta(v, c)).0.table == s.table;
    }
  }

  lemma DeltaArguments(t: ToolCallTable, tc: ToolCallDelta, k: int)
    ensures ArgumentsOf(TableFold(t, [tc], false).0, k) == ArgumentsOf(t, k) + Concat(Fragment(tc, k))
  {
    TableFoldOne(t, tc, false);
    TableStepArguments(t, tc, false, k);
  }

  /** The arguments of tool call `k` are its block's fragments, in order. */
  lemma {:induction false} ChunkFoldArguments(cs: seq<ClaudeChunk>, k: int)
    ensures ArgumentsOf(ChunkFold(cs).0.table, k) == Concat(ToolFragments(cs, k))
  {
    if |cs| > 0 {
      var init := cs[..|cs| - 1];
      ChunkFoldArguments(init, k);
      ChunkFoldCounter(init);
      var s1, v1 := ChunkFold(init).0, ChunkFold(init).1;
      ChunkStepArguments(s1, v1, cs[|cs| - 1], k);
      ConcatSplit(ToolFragments(init, k), ChunkFragment(BlockMap(init), cs[|cs| - 1], k));
    }
  }

  /** Finalising a table of calls `0 .. n-1` lists them in index order. */
  lemma FinalizeNumbered(s: Snapshot, v: DecoderVars, ts: seq<StartedBlock>)
    requires EngineOk(s) && ToolsInv(s.table, v, ts)
    ensures KeysIn(s.table.calls, s.table.order)
    ensures var m2 := FinalizeSpec(s).0.message;
      (|ts| == 0 ==> m2.tool_calls == s.message.tool_calls)
      && (|ts| > 0 ==>
            m2.tool_calls.Some? && |m2.tool_calls.value| == |ts|
            && forall k :: 0 <= k < |ts| ==> m2.tool_calls.value[k] == s.table.calls[k])
  {
    NumberedKeys(s.table, |ts|);
    FinalizeCalls(s);
    if |ts| > 0 {
      SortIntsSorted(Range(|ts|));
    }
  }

  /** A table numbered `0 .. n-1` in order: its order lists its keys, and it
      is empty exactly when `n` is zero. */
  lemma NumberedKeys(t: ToolCallTable, n: nat)
    requires t.order == Range(n) && forall k :: k in t.calls <==> 0 <= k < n
    ensures KeysIn(t.calls, t.order)
    ensures SortedInts(t.order)
    ensures (|t.calls| > 0 <==> n > 0)
  {
    if n == 0 {
      assert forall k :: k !in t.calls;
      assert t.calls.Keys == {};
    } else {
      assert 0 in t.calls;
    }
  }

  /** The decoded message lists one tool call per `tool_use` block, in start
      order, with the block's id and name and its concatenated
      `input_json_delta` fragments as arguments; no list at all when no
      tool was used. */
  lemma DecodeToolCalls(cs: seq<ClaudeChunk>)
    ensures var m := DecodeSpec(cs).0; var ts := ToolStarts(cs);
      (m.tool_calls.Some? <==> |ts| > 0)
      && (|ts| > 0 ==>
            |m.tool_calls.value| == |ts|
            && forall k :: 0 <= k < |ts| ==>
                 ts[k].StartToolUse?
                 && m.tool_calls.value[k] == ToolCall(Some(ts[k].id), None, ts[k].name, Concat(ToolFragments(cs, k)), None))
  {
    var s := ChunkFold(cs).0;
    var v := ChunkFold(cs).1;
    var ts := ToolStarts(cs);
    ChunkFoldMessage(cs);
    DecodeParts(cs);
    ChunkFoldTools(cs);
    FinalizeNumbered(s, v, ts);
    forall k | 0 <= k < |ts|
      ensures s.table.calls[k] == ToolCall(Some(ts[k].id), None, ts[k].name, Concat(ToolFragments(cs, k)), None)
    {
      ChunkFoldArguments(cs, k);
    }
  }

  // ---------------------------------------------------------------------
  // Stored thinking blocks

  /** The data of the redacted blocks, in order. */
  function RedactedData(bs: seq<ClaudeThinkingBlock>): seq<string> {
    if |bs| == 0 then []
    else RedactedData(bs[..|bs| - 1]) + (if bs[|bs| - 1].RedactedThinking? then [bs[|bs| - 1].data] else [])
  }

  /** The data of the `redacted_thinking` blocks started, in order. */
  function RedactedStarts(cs: seq<ClaudeChunk>): seq<string> {
    if |cs| == 0 then []
    else
      var c := cs[|cs| - 1];
      RedactedStarts(cs[..|cs| - 1]) + (if c.BlockStart? && c.block.StartRedacted? then [c.block.data] else [])
  }

  lemma RedactedDataPush(bs: seq<ClaudeThinkingBlock>, b: ClaudeThinkingBlock)
    ensures RedactedData(bs + [b]) == RedactedData(bs) + (if b.RedactedThinking? then [b.data] else [])
  {
    assert (bs + [b])[..|bs|] == bs;
  }

  lemma VarsStepRedacted(v: DecoderVars, c: ClaudeChunk)
    ensures RedactedData(VarsStep(v, c).thinkingBlocks)
            == RedactedData(v.thinkingBlocks) + (if c.BlockStart? && c.block.StartRedacted? then [c.block.data] else [])
  {
    match c
    case BlockStart(k, b) =>
      if b.StartRedacted? {
        RedactedDataPush(v.thinkingBlocks, RedactedThinking(b.data));
      }
    case BlockStop(k) =>
      if k in v.blockTypes && v.blockTypes[k] == "thinking" && v.pending.Some? {
        RedactedDataPush(v.thinkingBlocks, Thinking(v.pending.value.thinking, v.pending.value.signature));
      }
    case _ =>
  }

  lemma {:induction false} ChunkFoldRedacted(cs: seq<ClaudeChunk>)
    ensures RedactedData(ChunkFold(cs).1.thinkingBlocks) == RedactedStarts(cs)
  {
    if |cs| > 0 {
      var init := cs[..|cs| - 1];
      ChunkFoldRedacted(init);
      var v1 := ChunkFold(init).1;
      VarsStepRedacted(v1, cs[|cs| - 1]);
    }
  }

  /** The redacted blocks stored are exactly the `redacted_thinking` blocks
      started, in order; flushing an unfinished thinking block adds none. */
  lemma StoredRedacted(cs: seq<ClaudeChunk>)
    ensures RedactedData(FlushedThinking(ChunkFold(cs).1)) == RedactedStarts(cs)
  {
    var v := ChunkFold(cs).1;
    ChunkFoldRedacted(cs);
    if v.pending.Some? {
      RedactedDataPush(v.thinkingBlocks, Thinking(v.pending.value.thinking, v.pending.value.signature));
    }
  }

  /** The text a raw event adds to a thinking block's signature: a
      `signature_delta`'s text. */
  function ChunkSignature(c: ClaudeChunk): string {
    if c.BlockDelta? && c.delta.SignatureChunk? then c.delta.signature else ""
  }

  function StreamedSignature(cs: seq<ClaudeChunk>): string {
    if |cs| == 0 then "" else StreamedSignature(cs[..|cs| - 1]) + ChunkSignature(cs[|cs| - 1])
  }

  /** The type the last `content_block_start` for index `k` gave that block. */
  function StartedType(cs: seq<ClaudeChunk>, k: int): Option<string> {
    if |cs| == 0 then None
    else
      var c := cs[|cs| - 1];
      if c.BlockStart? && c.index == k then Some(BlockTypeName(c.block)) else StartedType(cs[..|cs| - 1], k)
  }

  /** A `content_block_stop` after `cs` closes a thinking block when the
      block it names was last started as `thinking`. */
  predicate ClosesThinking(cs: seq<ClaudeChunk>, c: ClaudeChunk) {
    c.BlockStop? && StartedType(cs, c.index) == Some("thinking")
  }

  /** The raw events since the last `thinking` block start, while that block
      is open; `None` once a stop has closed it, or before any was started. */
  function OpenThinking(cs: seq<ClaudeChunk>): Option<seq<ClaudeChunk>> {
    if |cs| == 0 then None
    else
      var init, c := cs[..|cs| - 1], cs[|cs| - 1];
      if c.BlockStart? && c.block.StartThinking? then Some([])
      else if ClosesThinking(init, c) then None
      else if OpenThinking(init).Some? then Some(OpenThinking(init).value + [c])
      else None
  }

  /** The thinking block made of the raw events `body`: the concatenation of
      their `thinking_delta` fragments and of their `signature_delta`
      fragments. */
  function ThinkingFrom(body: seq<ClaudeChunk>): ClaudeThinkingBlock {
    Thinking(StreamedThinking(body), StreamedSignature(body))
  }

  /** The blocks recorded while the stream runs, in the order they were
      recorded: a redacted block when it starts, a thinking block when the
      stop that closes it arrives. */
  function StreamStoredBlocks(cs: seq<ClaudeChunk>): seq<ClaudeThinkingBlock> {
    if |cs| == 0 then []
    else
      var init, c := cs[..|cs| - 1], cs[|cs| - 1];
      StreamStoredBlocks(init)
      + (if c.BlockStart? && c.block.StartRedacted? then [RedactedThinking(c.block.data)]
         else if ClosesThinking(init, c) && OpenThinking(init).Some? then [ThinkingFrom(OpenThinking(init).value)]
         else [])
  }

  /** The stored blocks followed by the thinking block still open when the
      stream ends, if any. */
  function FlushedBlocks(cs: seq<ClaudeChunk>): seq<ClaudeThinkingBlock> {
    StreamStoredBlocks(cs) + (if OpenThinking(cs).Some? then [ThinkingFrom(OpenThinking(cs).value)] else [])
  }

  function TypeEntry(m: map<int, string>, k: int): Option<string> {
    if k in m then Some(m[k]) else None
  }

  lemma VarsStepTypes(v: DecoderVars, c: ClaudeChunk, k: int)
    ensures TypeEntry(VarsStep(v, c).blockTypes, k)
            == (if c.BlockStart? && c.index == k then Some(BlockTypeName(c.block)) else TypeEntry(v.blockTypes, k))
  {
  }

  lemma {:induction false} ChunkFoldTypes(cs: seq<ClaudeChunk>, k: int)
    ensures TypeEntry(ChunkFold(cs).1.blockTypes, k) == StartedType(cs, k)
  {
    if |cs| > 0 {
      var init := cs[..|cs| - 1];
      ChunkFoldTypes(init, k);
      var v1 := ChunkFold(init).1;
      VarsStepTypes(v1, cs[|cs| - 1], k);
    }
  }

  lemma StreamedPush(body: seq<ClaudeChunk>, c: ClaudeChunk)
    ensures StreamedThinking(body + [c]) == StreamedThinking(body) + ChunkThinking(c)
    ensures StreamedSignature(body + [c]) == StreamedSignature(body) + ChunkSignature(c)
  {
    assert (body + [c])[..|body|] == body;
  }

  /** The decoder's thinking bookkeeping after `cs`, in terms of `cs`. */
  predicate ThinkingState(v: DecoderVars, cs: seq<ClaudeChunk>) {
    v.thinkingBlocks == StreamStoredBlocks(cs)
    && (v.pending.Some? <==> OpenThinking(cs).Some?)
    && (v.pending.Some? ==>
          Thinking(v.pending.value.thinking, v.pending.value.signature) == ThinkingFrom(OpenThinking(cs).value))
  }

  /** `OpenThinking` and `StreamStoredBlocks` after one more raw event. */
  lemma ThinkingPush(init: seq<ClaudeChunk>, c: ClaudeChunk)
    ensures OpenThinking(init + [c])
            == (if c.BlockStart? && c.block.StartThinking? then Some([])
                else if ClosesThinking(init, c) then None
                else if OpenThinking(init).Some? then Some(OpenThinking(init).value + [c])
                else None)
    ensures StreamStoredBlocks(init + [c])
            == StreamStoredBlocks(init)
               + (if c.BlockStart? && c.block.StartRedacted? then [RedactedThinking(c.block.data)]
                  else if ClosesThinking(init, c) && OpenThinking(init).Some? then [ThinkingFrom(OpenThinking(init).value)]
                  else [])
  {
    var cs := init + [c];
    assert cs[..|cs| - 1] == init;
  }

  lemma VarsStepThinking(v: DecoderVars, init: seq<ClaudeChunk>, c: ClaudeChunk)
    requires ThinkingState(v, init)
    requires c.BlockStop? ==> TypeEntry(v.blockTypes, c.index) == StartedType(init, c.index)
    ensures ThinkingState(VarsStep(v, c), init + [c])
  {
    match c
    case BlockStart(k, b) => StartThinkingState(v, init, k, b);
    case BlockDelta(k, d) => DeltaThinkingState(v, init, k, d);
    case BlockStop(k) => StopThinkingState(v, init, k);
    case _ => MessageThinkingState(v, init, c);
  }

  lemma MessageThinkingState(v: DecoderVars, init: seq<ClaudeChunk>, c: ClaudeChunk)
    requires ThinkingState(v, init)
    requires c.MessageStart? || c.MessageDeltaChunk? || c.MessageStop?
    ensures ThinkingState(VarsStep(v, c), init + [c])
  {
    assert VarsStep(v, c).thinkingBlocks == v.thinkingBlocks && VarsStep(v, c).pending == v.pending;
    ThinkingPush(init, c);
    if OpenThinking(init).Some? {
      StreamedPush(OpenThinking(init).value, c);
    }
  }

  lemma StartThinkingState(v: DecoderVars, init: seq<ClaudeChunk>, k: int, b: StartedBlock)
    requires ThinkingState(v, init)
    ensures ThinkingState(VarsStep(v, BlockStart(k, b)), init + [BlockStart(k, b)])
  {
    ThinkingPush(init, BlockStart(k, b));
  }

  lemma DeltaThinkingState(v: DecoderVars, init: seq<ClaudeChunk>, k: int, d: ChunkDelta)
    requires ThinkingState(v, init)
    ensures ThinkingState(VarsStep(v, BlockDelta(k, d)), init + [BlockDelta(k, d)])
  {
    ThinkingPush(init, BlockDelta(k, d));
    if OpenThinking(init).Some? {
      StreamedPush(OpenThinking(init).value, BlockDelta(k, d));
    }
  }

  lemma StopThinkingState(v: DecoderVars, init: seq<ClaudeChunk>, k: int)
    requires ThinkingState(v, init)
    requires TypeEntry(v.blockTypes, k) == StartedType(init, k)
    ensures ThinkingState(VarsStep(v, BlockStop(k)), init + [BlockStop(k)])
  {
    ThinkingPush(init, BlockStop(k));
    if !ClosesThinking(init, BlockStop(k)) && OpenThinking(init).Some? {
      StreamedPush(OpenThinking(init).value, BlockStop(k));
    }
  }

  lemma {:induction false} ChunkFoldThinking(cs: seq<ClaudeChunk>)
    ensures ThinkingState(ChunkFold(cs).1, cs)
  {
    if |cs| > 0 {
      var init, c := cs[..|cs| - 1], cs[|cs| - 1];
      ChunkFoldThinking(init);
      if c.BlockStop? {
        ChunkFoldTypes(init, c.index);
      }
      VarsStepThinking(ChunkFold(init).1, init, c);
      assert init + [c] == cs;
    }
  }

  /** The list the decoder stores is the blocks recorded in order, each
      thinking block made of the fragments between its start and its stop,
      then the block still open at the end. */
  lemma StoredThinking(cs: seq<ClaudeChunk>)
    ensures FlushedThinking(ChunkFold(cs).1) == FlushedBlocks(cs)
  {
    ChunkFoldThinking(cs);
  }
}
