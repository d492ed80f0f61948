/**
 Decoding a Claude Messages API response: text blocks are concatenated into
 the content, thinking texts joined into the reasoning, tool uses turned
 into tool calls, and the thinking blocks kept under `extra.claude` so the
 next request can replay them.
 */
module ClaudeResponse {
  import opened Wrappers
  import opened Json
  import opened Strings
  import opened Content
  import opened Messages
  import opened ProviderExtra
  import opened Step
  import opened ClaudeRequest

  datatype ClaudeUsage = ClaudeUsage(input_tokens: int, output_tokens: int, cache_read_input_tokens: Option<int>)

  /** The content blocks of a response; block kinds the library does not read
      (server tool uses, search results, ...) are `OtherBlock`. */
  datatype ResponseBlock =
    | RespText(text: string)
    | RespThinking(thinking: string, signature: string)
    | RespRedacted(data: string)
    | RespToolUse(id: string, name: string, input: Value)
    | OtherBlock(kind: string)

  datatype ClaudeResponseMessage = ClaudeResponseMessage(content: seq<ResponseBlock>, usage: ClaudeUsage)

  /** `fromClaudeUsage`: the counts carried over, the cache-read count only
      when the API reported one. */
  function FromClaudeUsage(u: ClaudeUsage): (r: TokenUsage)
    ensures r.input_tokens == u.input_tokens && r.output_tokens == u.output_tokens
    ensures r.cache_read_tokens.Some? <==> u.cache_read_input_tokens.Some?
    ensures r.cache_read_tokens.Some? ==> r.cache_read_tokens.value == u.cache_read_input_tokens.value
  {
    var usage := TokenUsage(u.input_tokens, u.output_tokens, None);
    if u.cache_read_input_tokens.Some? then usage.(cache_read_tokens := u.cache_read_input_tokens) else usage
  }

  /** `fromClaudeStopReason`: one of four finish reasons; only `max_tokens`,
      `tool_use` and `refusal` give something other than `stop`, which is
      also what an absent or unknown reason gives. */
  function FromClaudeStopReason(reason: Option<string>): (r: string)
    ensures r == "stop" || r == "length" || r == "tool_calls" || r == "content_filter"
    ensures r == "length" <==> reason == Some("max_tokens")
    ensures r == "tool_calls" <==> reason == Some("tool_use")
    ensures r == "content_filter" <==> reason == Some("refusal")
  {
    if reason.None? then "stop"
    else match reason.value
      case "end_turn" => "stop"
      case "max_tokens" => "length"
      case "stop_sequence" => "stop"
      case "tool_use" => "tool_calls"
      case "pause_turn" => "stop"
      case "refusal" => "content_filter"
      case _ => "stop"
  }

  // ---------------------------------------------------------------------
  // What the blocks contribute, block kind by block kind

  /** The texts of the text blocks, in order. */
  function ResponseTexts(bs: seq<ResponseBlock>): seq<string> {
    if |bs| == 0 then []
    else ResponseTexts(bs[..|bs| - 1]) + (if bs[|bs| - 1].RespText? then [bs[|bs| - 1].text] else [])
  }

  /** The thinking texts, in order. */
  function Thoughts(bs: seq<ResponseBlock>): seq<string> {
    if |bs| == 0 then []
    else Thoughts(bs[..|bs| - 1]) + (if bs[|bs| - 1].RespThinking? then [bs[|bs| - 1].thinking] else [])
  }

  /** The thinking and redacted thinking blocks as they are stored. */
  function StoredBlock(b: ResponseBlock): seq<ClaudeThinkingBlock> {
    match b
    case RespThinking(t, s) => [Thinking(t, s)]
    case RespRedacted(d) => [RedactedThinking(d)]
    case _ => []
  }

  function StoredBlocks(bs: seq<ResponseBlock>): seq<ClaudeThinkingBlock> {
    if |bs| == 0 then [] else StoredBlocks(bs[..|bs| - 1]) + StoredBlock(bs[|bs| - 1])
  }

  /** A tool use as a tool call: its id, its name and its input serialised. */
  function ToolCallOf(b: ResponseBlock, stringify: Value -> string): ToolCall
    requires b.RespToolUse?
  {
    ToolCall(Some(b.id), None, b.name, stringify(b.input), None)
  }

  function ResponseToolCalls(bs: seq<ResponseBlock>, stringify: Value -> string): seq<ToolCall> {
    if |bs| == 0 then []
    else
      ResponseToolCalls(bs[..|bs| - 1], stringify)
      + (if bs[|bs| - 1].RespToolUse? then [ToolCallOf(bs[|bs| - 1], stringify)] else [])
  }

  /** The message built from the collected pieces: optional fields appear
      only when something was collected for them. */
  function AssembleMessage(text: string, thoughts: seq<string>, calls: seq<ToolCall>, stored: seq<ClaudeThinkingBlock>): (r: Message)
    ensures r.role == "assistant" && r.content == Plain(text)
    ensures r.reasoning.Some? <==> |thoughts| > 0
    ensures r.reasoning.Some? ==> r.reasoning.value == Plain(Join(thoughts, "\n"))
    ensures r.tool_calls.Some? <==> |calls| > 0
    ensures r.tool_calls.Some? ==> r.tool_calls.value == calls
    ensures r.extra.Some? <==> |stored| > 0
    ensures r.id.None? && r.call_id.None? && r.name.None? && r.refusal.None?
  {
    var m0 := NewMessage("assistant", Plain(text));
    var m1 := if |thoughts| > 0 then m0.(reasoning := Some(Plain(Join(thoughts, "\n")))) else m0;
    var m2 := if |calls| > 0 then m1.(tool_calls := Some(calls)) else m1;
    if |stored| > 0 then WithThinkingBlocks(m2, stored) else m2
  }

  /** `fromClaudeMessage` described block kind by block kind. */
  function FromClaudeMessageSpec(bs: seq<ResponseBlock>, stringify: Value -> string): Message {
    AssembleMessage(Concat(ResponseTexts(bs)), Thoughts(bs), ResponseToolCalls(bs, stringify), StoredBlocks(bs))
  }

  /** `fromClaudeMessage`: one pass over the blocks. */
  method FromClaudeMessage(bs: seq<ResponseBlock>, stringify: Value -> string) returns (m: Message)
    ensures m == FromClaudeMessageSpec(bs, stringify)
  {
    var thinkingBlocks: seq<ClaudeThinkingBlock> := [];
    var reasoningArr: seq<string> := [];
    var toolCalls: seq<ToolCall> := [];
    var content: MessageContent := Plain("");
    for i := 0 to |bs|
      invariant content == Plain(Concat(ResponseTexts(bs[..i])))
      invariant reasoningArr == Thoughts(bs[..i])
      invariant thinkingBlocks == StoredBlocks(bs[..i])
      invariant toolCalls == ResponseToolCalls(bs[..i], stringify)
    {
      ResponseStep(bs, i, stringify);
      ghost var texts := ResponseTexts(bs[..i]);
      assert texts + [] == texts;
      match bs[i]
      case RespText(t) =>
        content := ConcatContentsTo(content, [Plain(t)]);
        assert [Plain(t)][..0] == [];
        assert content == ConcatStep(Plain(Concat(texts)), Plain(t));
        assert content == Plain(Concat(texts) + t);
        ConcatAppend(texts, t);
      case RespThinking(t, s) =>
        thinkingBlocks := thinkingBlocks + [Thinking(t, s)];
        reasoningArr := reasoningArr + [t];
      case RespRedacted(d) =>
        thinkingBlocks := thinkingBlocks + [RedactedThinking(d)];
      case RespToolUse(id, name, input) =>
        toolCalls := toolCalls + [ToolCall(Some(id), None, name, stringify(input), None)];
      case OtherBlock(_) =>
    }
    assert bs[..|bs|] == bs;
    m := NewMessage("assistant", content);
    if |reasoningArr| > 0 {
      m := m.(reasoning := Some(Plain(Join(reasoningArr, "\n"))));
    }
    if |toolCalls| > 0 {
      m := m.(tool_calls := Some(toolCalls));
    }
    if |thinkingBlocks| > 0 {
      m := WithThinkingBlocks(m, thinkingBlocks);
    }
  }

  /** What block `i` adds to each collected piece. */
  lemma ResponseStep(bs: seq<ResponseBlock>, i: nat, stringify: Value -> string)
    requires i < |bs|
    ensures ResponseTexts(bs[..i + 1]) == ResponseTexts(bs[..i]) + (if bs[i].RespText? then [bs[i].text] else [])
    ensures Thoughts(bs[..i + 1]) == Thoughts(bs[..i]) + (if bs[i].RespThinking? then [bs[i].thinking] else [])
    ensures StoredBlocks(bs[..i + 1]) == StoredBlocks(bs[..i]) + StoredBlock(bs[i])
    ensures ResponseToolCalls(bs[..i + 1], stringify)
      == ResponseToolCalls(bs[..i], stringify) + (if bs[i].RespToolUse? then [ToolCallOf(bs[i], stringify)] else [])
  {
    assert bs[..i + 1][..i] == bs[..i];
  }

  /** The step decoder: the one message and the usage. */
  method DecodeStep(res: ClaudeResponseMessage, stringify: Value -> string) returns (r: StepResult)
    ensures |r.messages| == 1 && r.messages[0] == FromClaudeMessageSpec(res.content, stringify)
    ensures r.token_usage == Some(FromClaudeUsage(res.usage))
    ensures r.metadata.None?
  {
    var m := FromClaudeMessage(res.content, stringify);
    r := StepResult([m], Some(FromClaudeUsage(res.usage)), None);
  }

  // ---------------------------------------------------------------------
  // Replaying a decoded response

  /** The `tool_use` request blocks matching the response's tool uses. */
  function RequestToolUses(bs: seq<ResponseBlock>): seq<ClaudeBlock> {
    if |bs| == 0 then []
    else
      var b := bs[|bs| - 1];
      RequestToolUses(bs[..|bs| - 1]) + (if b.RespToolUse? then [ToolUseBlock(b.id, b.name, b.input)] else [])
  }

  /** Inputs that survive serialising and parsing. */
  predicate InputsRoundTrip(bs: seq<ResponseBlock>, stringify: Value -> string, parse: string -> Option<Value>) {
    forall i :: 0 <= i < |bs| && bs[i].RespToolUse? ==> parse(stringify(bs[i].input)) == Some(bs[i].input)
  }

  lemma {:induction false} ToolUsesReplay(bs: seq<ResponseBlock>, stringify: Value -> string, parse: string -> Option<Value>)
    requires InputsRoundTrip(bs, stringify, parse)
    ensures ToolUseBlocks(ResponseToolCalls(bs, stringify), parse) == RequestToolUses(bs)
  {
    if |bs| > 0 {
      var init := bs[..|bs| - 1];
      assert forall i :: 0 <= i < |init| ==> init[i] == bs[i];
      ToolUsesReplay(init, stringify, parse);
      var prev := ResponseToolCalls(init, stringify);
      var b := bs[|bs| - 1];
      if b.RespToolUse? {
        var tcs := prev + [ToolCallOf(b, stringify)];
        assert ToolUseBlockOf(ToolCallOf(b, stringify), parse) == ToolUseBlock(b.id, b.name, b.input);
        assert ToolUseBlocks(tcs, parse) == ToolUseBlocks(prev, parse) + [ToolUseBlockOf(ToolCallOf(b, stringify), parse)];
      } else {
        assert ResponseToolCalls(bs, stringify) == prev;
      }
    }
  }

  /** Sending a decoded response back to Claude replays its thinking blocks
      verbatim, then its text as one block, then its tool uses with the same
      ids, names and inputs. */
  lemma ResponseReplay(bs: seq<ResponseBlock>, stringify: Value -> string, parse: string -> Option<Value>)
    requires InputsRoundTrip(bs, stringify, parse)
    ensures var text := Concat(ResponseTexts(bs));
      MessageBlocks(FromClaudeMessageSpec(bs, stringify), parse)
      == Ok(ReplayedBlocks(StoredBlocks(bs)) + (if text == "" then [] else [TextBlock(text)]) + RequestToolUses(bs))
  {
    var text := Concat(ResponseTexts(bs));
    var thoughts := Thoughts(bs);
    var calls := ResponseToolCalls(bs, stringify);
    var stored := StoredBlocks(bs);
    var m0 := NewMessage("assistant", Plain(text));
    var m1 := if |thoughts| > 0 then m0.(reasoning := Some(Plain(Join(thoughts, "\n")))) else m0;
    var m2 := if |calls| > 0 then m1.(tool_calls := Some(calls)) else m1;
    var m := FromClaudeMessageSpec(bs, stringify);
    assert m == if |stored| > 0 then WithThinkingBlocks(m2, stored) else m2;
    if |stored| > 0 {
      ThinkingReplay(m2, stored);
    } else {
      assert ReplayedBlocks(stored) == [];
    }
    assert ThinkingParamsOf(GetMessageExtraClaude(m, false).value.1) == Ok(ReplayedBlocks(stored));
    ToolUsesReplay(bs, stringify, parse);
    if |calls| == 0 {
      assert RequestToolUses(bs) == [] by {
        assert ToolUseBlocks(calls, parse) == [];
      }
    }
  }
}
