/**
 The provider namespaces kept in `message.extra`: `claude` (thinking blocks
 to replay on the next request) and `gemini` (thought signatures).
 */
module ProviderExtra {
  import opened Wrappers
  import opened Json
  import opened Messages
  import opened MessageUtil

  const MESSAGE_EXTRA_CLAUDE: string := "claude"
  const MESSAGE_EXTRA_GEMINI: string := "gemini"

  /** A Claude thinking block, kept verbatim so it can be sent back. */
  datatype ClaudeThinkingBlock =
    | Thinking(thinking: string, signature: string)
    | RedactedThinking(data: string)

  function ThinkingBlockToValue(b: ClaudeThinkingBlock): Value {
    match b
    case Thinking(t, s) => Obj(map["type" := Str("thinking"), "thinking" := Str(t), "signature" := Str(s)])
    case RedactedThinking(d) => Obj(map["type" := Str("redacted_thinking"), "data" := Str(d)])
  }

  function ThinkingBlocksToValue(bs: seq<ClaudeThinkingBlock>): Value {
    Arr(seq(|bs|, i requires 0 <= i < |bs| => ThinkingBlockToValue(bs[i])))
  }

  /** `getMessageExtraClaude`: with `init` the result is an entry, and only
      the `claude` namespace is touched. */
  function GetMessageExtraClaude(m: Message, init: bool): (r: Result<(Message, Option<Value>)>)
    ensures !init ==> r.Ok? && r.value.0 == m
    ensures !init && !HasTruthyExtra(m) ==> r.value.1.None?
    ensures init && r.Ok? ==>
      r.value.1.Some? && r.value.0.extra.Some?
      && Get(r.value.0.extra.value, MESSAGE_EXTRA_CLAUDE) == r.value.1.value
    ensures r.Ok? && HasTruthyExtra(m) && m.extra.value.Obj? ==>
      r.value.0.extra.Some?
      && forall k :: k != MESSAGE_EXTRA_CLAUDE ==> Get(r.value.0.extra.value, k) == Get(m.extra.value, k)
  {
    GetMessageExtra(m, MESSAGE_EXTRA_CLAUDE, init)
  }

  /** `getMessageExtraGemini`: without `init` and without `extra` there is
      nothing; with `init` there is an entry under `gemini` only. */
  function GetMessageExtraGemini(m: Message, init: bool): (r: Result<(Message, Option<Value>)>)
    ensures !init ==> r.Ok? && r.value.0 == m
    ensures !init && !HasTruthyExtra(m) ==> r.value.1.None?
    ensures init && r.Ok? ==>
      r.value.1.Some? && r.value.0.extra.Some?
      && Get(r.value.0.extra.value, MESSAGE_EXTRA_GEMINI) == r.value.1.value
    ensures r.Ok? && HasTruthyExtra(m) && m.extra.value.Obj? ==>
      r.value.0.extra.Some?
      && forall k :: k != MESSAGE_EXTRA_GEMINI ==> Get(r.value.0.extra.value, k) == Get(m.extra.value, k)
  {
    GetMessageExtra(m, MESSAGE_EXTRA_GEMINI, init)
  }

  /** `getMessageExtraClaude(message, true).thinking_blocks = blocks` on a
      message that has no `extra` yet. */
  function WithThinkingBlocks(m: Message, blocks: seq<ClaudeThinkingBlock>): (r: Message)
    requires m.extra.None?
    ensures r.(extra := None) == m
    ensures r.extra == Some(Obj(map[MESSAGE_EXTRA_CLAUDE := Obj(map["thinking_blocks" := ThinkingBlocksToValue(blocks)])]))
  {
    SetExtraFieldFresh(m, MESSAGE_EXTRA_CLAUDE, "thinking_blocks", ThinkingBlocksToValue(blocks));
    SetExtraField(m, MESSAGE_EXTRA_CLAUDE, "thinking_blocks", ThinkingBlocksToValue(blocks)).value
  }

  /** `getMessageExtraGemini(message, true).thought_signatures = sigs` on a
      message that has no `extra` yet. */
  function WithThoughtSignatures(m: Message, sigs: seq<string>): (r: Message)
    requires m.extra.None?
    ensures r.(extra := None) == m
    ensures r.extra == Some(Obj(map[MESSAGE_EXTRA_GEMINI := Obj(map["thought_signatures" := StringsToValue(sigs)])]))
  {
    SetExtraFieldFresh(m, MESSAGE_EXTRA_GEMINI, "thought_signatures", StringsToValue(sigs));
    SetExtraField(m, MESSAGE_EXTRA_GEMINI, "thought_signatures", StringsToValue(sigs)).value
  }

  function StringsToValue(ss: seq<string>): Value {
    Arr(seq(|ss|, i requires 0 <= i < |ss| => Str(ss[i])))
  }
}
