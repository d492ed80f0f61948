/**
 Encoding a step request for the Claude Messages API: system and developer
 messages are lifted into the `system` text, tool results travel as user
 turns, consecutive messages of the same role are merged into one turn,
 and every message becomes a list of content blocks (replayed thinking,
 then content, then tool uses).
 */
module ClaudeRequest {
  import opened Wrappers
  import opened Json
  import opened Strings
  import opened Content
  import opened Messages
  import opened ProviderExtra
  import opened Step

  const DEFAULT_MODEL: string := "claude-sonnet-4-5-20250929"
  const DEFAULT_MAX_TOKENS: int := 8192

  datatype ImageSource = Base64Source(media_type: string, data: string) | UrlSource(url: string)

  /** The content blocks of a Claude request. Replayed thinking blocks carry
      whatever values the stored blocks held. */
  datatype ClaudeBlock =
    | TextBlock(text: string)
    | ImageBlock(source: ImageSource)
    | ToolResultBlock(tool_use_id: string, content: string)
    | ToolUseBlock(id: string, name: string, input: Value)
    | ThinkingParam(thinking: Value, signature: Value)
    | RedactedThinkingParam(data: Value)

  /** A turn's content: a bare string, or a list of blocks. */
  datatype TurnContent = TurnText(text: string) | TurnBlocks(blocks: seq<ClaudeBlock>)

  datatype ClaudeTurn = ClaudeTurn(role: string, content: TurnContent)

  /** What `toClaudeMessages` produces. */
  datatype ClaudeMessages = ClaudeMessages(system: seq<string>, turns: seq<ClaudeTurn>)

  datatype ClaudeTool = ClaudeTool(name: string, description: string, input_schema: Value)

  datatype ClaudeRequestBody = ClaudeRequestBody(
    model: string,
    max_tokens: int,
    messages: seq<ClaudeTurn>,
    stream: bool,
    system: Option<string>,
    tools: Option<seq<ClaudeTool>>,
    output_schema: Option<Value>)

  datatype EncodeOptions = EncodeOptions(model: Option<string>, max_tokens: Option<int>)

  predicate IsClaudeSystemRole(role: string) {
    role == "system" || role == "developer"
  }

  function ToClaudeTool(f: FunctionDefinition): ClaudeTool {
    ClaudeTool(f.name, f.description, f.parameters)
  }

  // ---------------------------------------------------------------------
  // Content parts

  /** The two pieces of `url.split(';', 2)` when `url` is a base64 data URL,
      as media type and payload. */
  function DataUrlImage(url: string): (r: Option<ImageSource>)
    ensures r.Some? ==> r.value.Base64Source?
  {
    if StartsWith(url, "data:") then
      var pieces := SplitLimit2(url, ';');
      SplitHeadPrefix(url, "data:", ';');
      if |pieces| == 2 && StartsWith(pieces[1], "base64,") then
        Some(Base64Source(pieces[0][5..], pieces[1][7..]))
      else None
    else None
  }

  /** One content part as a block. */
  function PartBlock(p: ContentPart): (r: Result<ClaudeBlock>)
    ensures p.Text? ==> r == Ok(TextBlock(p.text))
    ensures p.Image? ==> (r.Ok? <==> NonEmpty(p.attrs.url) || NonEmpty(p.attrs.data))
    ensures p.Image? && r.Ok? ==> r.value.ImageBlock?
    ensures p.Image? && NonEmpty(p.attrs.url) && DataUrlImage(p.attrs.url.value).Some? ==>
      r == Ok(ImageBlock(DataUrlImage(p.attrs.url.value).value))
    ensures p.Image? && NonEmpty(p.attrs.url) && DataUrlImage(p.attrs.url.value).None? ==>
      r == Ok(ImageBlock(UrlSource(p.attrs.url.value)))
    ensures p.Image? && !NonEmpty(p.attrs.url) && NonEmpty(p.attrs.data) ==>
      r == Ok(ImageBlock(Base64Source("image/" + p.attrs.format.GetOr("png"), p.attrs.data.value)))
    ensures p.Audio? || p.File? ==> r.Err?
  {
    match p
    case Text(t) => Ok(TextBlock(t))
    case Image(a) =>
      if a.url.Some? && DataUrlImage(a.url.value).Some? then Ok(ImageBlock(DataUrlImage(a.url.value).value))
      else if NonEmpty(a.url) then Ok(ImageBlock(UrlSource(a.url.value)))
      else if NonEmpty(a.data) then Ok(ImageBlock(Base64Source("image/" + a.format.GetOr("png"), a.data.value)))
      else Err(PlainError("Image content part must have url or data."))
    case Audio(_) => Err(PlainError("Claude does not support audio content parts."))
    case File(_) => Err(PlainError("Claude file content parts are not yet supported."))
  }

  /** A base64 data URL becomes a base64 source with its media type and
      payload, whatever `data` and `format` say. */
  lemma DataUrlImageBlock(mediaType: string, payload: string, a: FileAttrs)
    requires ';' !in mediaType && ';' !in payload
    requires a.url == Some("data:" + mediaType + ";base64," + payload)
    ensures PartBlock(Image(a)) == Ok(ImageBlock(Base64Source(mediaType, payload)))
  {
    DataUrlOf(mediaType, payload);
  }

  lemma DataUrlOf(mediaType: string, payload: string)
    requires ';' !in mediaType && ';' !in payload
    ensures DataUrlImage("data:" + mediaType + ";base64," + payload) == Some(Base64Source(mediaType, payload))
  {
    var url := "data:" + mediaType + ";base64," + payload;
    var head := "data:" + mediaType;
    var tail := "base64," + payload;
    assert url == head + [';'] + tail;
    assert ';' !in head;
    assert ';' !in tail;
    SplitLimit2At(head, tail, ';');
    assert url[..5] == "data:";
    assert tail[..7] == "base64,";
    assert head[5..] == mediaType;
    assert tail[7..] == payload;
  }

  /** `content.map(...)` over parts: one block per part, or the error of the
      first part that has none. */
  function PartsBlocks(ps: seq<ContentPart>): (r: Result<seq<ClaudeBlock>>)
    ensures r.Ok? <==> forall i :: 0 <= i < |ps| ==> PartBlock(ps[i]).Ok?
    ensures r.Ok? ==> |r.value| == |ps| && forall i :: 0 <= i < |ps| ==> r.value[i] == PartBlock(ps[i]).value
  {
    if |ps| == 0 then Ok([])
    else
      var init := ps[..|ps| - 1];
      assert forall i :: 0 <= i < |init| ==> ps[i] == init[i];
      var prev := PartsBlocks(init);
      if prev.Err? then Err(prev.error)
      else
        var b := PartBlock(ps[|ps| - 1]);
        if b.Err? then Err(b.error)
        else Ok(prev.value + [b.value])
  }

  /** The error reported is that of the first part without a block. */
  lemma {:induction false} PartsBlocksFirstError(ps: seq<ContentPart>)
    requires PartsBlocks(ps).Err?
    ensures exists i ::
      0 <= i < |ps| && PartBlock(ps[i]).Err? && PartsBlocks(ps).error == PartBlock(ps[i]).error
      && forall j :: 0 <= j < i ==> PartBlock(ps[j]).Ok?
  {
    var init := ps[..|ps| - 1];
    assert forall i :: 0 <= i < |init| ==> ps[i] == init[i];
    if PartsBlocks(init).Err? {
      PartsBlocksFirstError(init);
      var i :| 0 <= i < |init| && PartBlock(init[i]).Err? && PartsBlocks(init).error == PartBlock(init[i]).error
        && forall j :: 0 <= j < i ==> PartBlock(init[j]).Ok?;
      assert PartBlock(ps[i]).Err?;
    } else {
      assert PartBlock(ps[|ps| - 1]).Err?;
    }
  }

  /** The block kinds that message content maps to. */
  predicate IsContentBlock(b: ClaudeBlock) {
    b.TextBlock? || b.ImageBlock?
  }

  /** `toClaudeContentBlocks`: an empty string has no block, any other string
      one text block; a part list maps part by part. */
  function ContentBlocks(c: MessageContent): (r: Result<seq<ClaudeBlock>>)
    ensures c.Plain? ==>
      r.Ok? && (r.value == [] <==> c.s == "")
      && forall i :: 0 <= i < |r.value| ==> r.value[i] == TextBlock(c.s)
    ensures c.Parts? ==> r == PartsBlocks(c.parts)
    ensures r.Ok? ==> forall i :: 0 <= i < |r.value| ==> IsContentBlock(r.value[i])
  {
    match c
    case Plain(s) => if s != "" then Ok([TextBlock(s)]) else Ok([])
    case Parts(ps) => PartsBlocks(ps)
  }

  function BlockText(b: ClaudeBlock): string {
    if b.TextBlock? then b.text else ""
  }

  /** The text a block list carries, in order. */
  function BlocksText(bs: seq<ClaudeBlock>): string {
    Concat(seq(|bs|, i requires 0 <= i < |bs| => BlockText(bs[i])))
  }

  /** The blocks carry exactly the text `messageContentToText` sees. */
  lemma ContentBlocksText(c: MessageContent)
    requires ContentBlocks(c).Ok?
    ensures BlocksText(ContentBlocks(c).value) == MessageContentToText(c)
  {
    var bs := ContentBlocks(c).value;
    match c
    case Plain(s) =>
      if s != "" {
        assert seq(|bs|, i requires 0 <= i < |bs| => BlockText(bs[i])) == [s];
      } else {
        assert seq(|bs|, i requires 0 <= i < |bs| => BlockText(bs[i])) == [];
      }
    case Parts(ps) =>
      assert seq(|bs|, i requires 0 <= i < |bs| => BlockText(bs[i]))
        == seq(|ps|, i requires 0 <= i < |ps| => PartText(ps[i]));
  }

  // ---------------------------------------------------------------------
  // Replayed thinking blocks and tool uses

  /** What one stored thinking entry contributes; reading `.type` of null or
      undefined throws. */
  function ThinkingItem(v: Value): Result<seq<ClaudeBlock>> {
    if IsNullish(v) then Err(TypeError("Cannot read properties of " + (if v.Null? then "null" else "undefined") + " (reading 'type')"))
    else if Get(v, "type") == Str("thinking") then Ok([ThinkingParam(Get(v, "thinking"), Get(v, "signature"))])
    else if Get(v, "type") == Str("redacted_thinking") then Ok([RedactedThinkingParam(Get(v, "data"))])
    else Ok([])
  }

  /** The stored entries in order; entries of another type are skipped. */
  function ThinkingItems(items: seq<Value>): Result<seq<ClaudeBlock>> {
    if |items| == 0 then Ok([])
    else
      var prev :- ThinkingItems(items[..|items| - 1]);
      var b :- ThinkingItem(items[|items| - 1]);
      Ok(prev + b)
  }

  predicate IsThinkingBlock(b: ClaudeBlock) {
    b.ThinkingParam? || b.RedactedThinkingParam?
  }

  /** `toClaudeThinkingBlocks(claude_extra)`: a falsy `thinking_blocks` gives
      nothing; an array is walked entry by entry; a string iterates its
      characters, none of which has a `type`; anything else is not
      iterable. */
  function ThinkingParamsOf(claudeExtra: Option<Value>): (r: Result<seq<ClaudeBlock>>)
    ensures claudeExtra.None? ==> r == Ok([])
    ensures r.Ok? ==> forall i :: 0 <= i < |r.value| ==> IsThinkingBlock(r.value[i])
  {
    var tb := if claudeExtra.Some? then Get(claudeExtra.value, "thinking_blocks") else Undefined;
    if !Truthy(tb) then Ok([])
    else match tb
      case Arr(items) => ThinkingItemsKinds(items); ThinkingItems(items)
      case Str(_) => Ok([])
      case _ => Err(TypeError("claude_extra.thinking_blocks is not iterable"))
  }

  lemma {:induction false} ThinkingItemsKinds(items: seq<Value>)
    ensures ThinkingItems(items).Ok? ==>
      forall i :: 0 <= i < |ThinkingItems(items).value| ==> IsThinkingBlock(ThinkingItems(items).value[i])
  {
    if |items| > 0 {
      ThinkingItemsKinds(items[..|items| - 1]);
    }
  }

  /** An error in the first `n` entries is the error of all of them. */
  lemma {:induction false} ThinkingItemsErr(items: seq<Value>, n: nat)
    requires n <= |items|
    requires ThinkingItems(items[..n]).Err?
    ensures ThinkingItems(items) == ThinkingItems(items[..n])
    decreases |items| - n
  {
    if n < |items| {
      var m := n + 1;
      assert items[..m][..n] == items[..n];
      ThinkingItemsErr(items, m);
    } else {
      assert items[..n] == items;
    }
  }

  /** `toClaudeThinkingBlocks`, walking the stored entries with a loop. */
  method ToClaudeThinkingBlocks(claudeExtra: Option<Value>) returns (r: Result<seq<ClaudeBlock>>)
    ensures r == ThinkingParamsOf(claudeExtra)
  {
    var tb := if claudeExtra.Some? then Get(claudeExtra.value, "thinking_blocks") else Undefined;
    if !Truthy(tb) {
      return Ok([]);
    }
    if tb.Str? {
      return Ok([]);
    }
    if !tb.Arr? {
      return Err(TypeError("claude_extra.thinking_blocks is not iterable"));
    }
    var items := tb.items;
    var blocks: seq<ClaudeBlock> := [];
    for i := 0 to |items|
      invariant ThinkingItems(items[..i]) == Ok(blocks)
    {
      assert items[..i + 1][..i] == items[..i];
      var item := items[i];
      if IsNullish(item) {
        r := Err(TypeError("Cannot read properties of " + (if item.Null? then "null" else "undefined") + " (reading 'type')"));
        ThinkingItemsErr(items, i + 1);
        return;
      }
      if Get(item, "type") == Str("thinking") {
        assert ThinkingItem(item) == Ok([ThinkingParam(Get(item, "thinking"), Get(item, "signature"))]);
        blocks := blocks + [ThinkingParam(Get(item, "thinking"), Get(item, "signature"))];
      } else if Get(item, "type") == Str("redacted_thinking") {
        assert ThinkingItem(item) == Ok([RedactedThinkingParam(Get(item, "data"))]);
        blocks := blocks + [RedactedThinkingParam(Get(item, "data"))];
      } else {
        assert ThinkingItem(item) == Ok([]);
        assert blocks + [] == blocks;
      }
    }
    assert items[..|items|] == items;
    return Ok(blocks);
  }

  /** The request block a stored thinking block is replayed as. */
  function ReplayedBlock(b: ClaudeThinkingBlock): ClaudeBlock {
    match b
    case Thinking(t, s) => ThinkingParam(Str(t), Str(s))
    case RedactedThinking(d) => RedactedThinkingParam(Str(d))
  }

  function ReplayedBlocks(bs: seq<ClaudeThinkingBlock>): seq<ClaudeBlock> {
    seq(|bs|, i requires 0 <= i < |bs| => ReplayedBlock(bs[i]))
  }

  /** Stored thinking blocks come back one for one, in order. */
  lemma {:induction false} ThinkingItemsRoundTrip(bs: seq<ClaudeThinkingBlock>)
    ensures ThinkingItems(ThinkingBlocksToValue(bs).items) == Ok(ReplayedBlocks(bs))
  {
    var items := ThinkingBlocksToValue(bs).items;
    if |bs| > 0 {
      var init := bs[..|bs| - 1];
      assert items[..|items| - 1] == ThinkingBlocksToValue(init).items;
      ThinkingItemsRoundTrip(init);
      ThinkingItemOf(bs[|bs| - 1]);
      assert items[|items| - 1] == ThinkingBlockToValue(bs[|bs| - 1]);
      assert ReplayedBlocks(bs) == ReplayedBlocks(init) + [ReplayedBlock(bs[|bs| - 1])];
    }
  }

  lemma ThinkingItemOf(b: ClaudeThinkingBlock)
    ensures ThinkingItem(ThinkingBlockToValue(b)) == Ok([ReplayedBlock(b)])
  {
  }

  /** What a Claude response stored under `extra.claude.thinking_blocks` is
      what the next request replays. */
  lemma ThinkingReplay(m: Message, bs: seq<ClaudeThinkingBlock>)
    requires m.extra.None?
    ensures ThinkingParamsOf(GetMessageExtraClaude(WithThinkingBlocks(m, bs), false).value.1) == Ok(ReplayedBlocks(bs))
  {
    var m1 := WithThinkingBlocks(m, bs);
    var entry := Obj(map["thinking_blocks" := ThinkingBlocksToValue(bs)]);
    assert Get(m1.extra.value, MESSAGE_EXTRA_CLAUDE) == entry;
    assert GetMessageExtraClaude(m1, false).value.1 == Some(entry);
    ThinkingItemsRoundTrip(bs);
  }

  /** One tool call as a `tool_use` block; arguments that do not parse
      become `{}`. */
  function ToolUseBlockOf(tc: ToolCall, parse: string -> Option<Value>): ClaudeBlock {
    ToolUseBlock(tc.id.GetOr(""), tc.name, parse(tc.arguments).GetOr(EmptyObject()))
  }

  function ToolUseBlocks(tcs: seq<ToolCall>, parse: string -> Option<Value>): seq<ClaudeBlock> {
    seq(|tcs|, i requires 0 <= i < |tcs| => ToolUseBlockOf(tcs[i], parse))
  }

  predicate HasToolCalls(m: Message) {
    m.tool_calls.Some? && |m.tool_calls.value| > 0
  }

  /** Where a block sits inside one message's list. */
  function Rank(b: ClaudeBlock): int {
    if IsThinkingBlock(b) then 0 else if b.ToolUseBlock? then 2 else 1
  }

  /** The blocks of an ordinary message: its replayed thinking (assistant
      messages only), its content, then one tool use per tool call. */
  function MessageBlocks(m: Message, parse: string -> Option<Value>): (r: Result<seq<ClaudeBlock>>)
    ensures r.Ok? <==>
      ContentBlocks(m.content).Ok?
      && (m.role == "assistant" ==> ThinkingParamsOf(GetMessageExtraClaude(m, false).value.1).Ok?)
    ensures r.Ok? ==> forall i, j :: 0 <= i < j < |r.value| ==> Rank(r.value[i]) <= Rank(r.value[j])
    ensures r.Ok? && m.role != "assistant" ==> forall i :: 0 <= i < |r.value| ==> !IsThinkingBlock(r.value[i])
    ensures r.Ok? ==> BlocksText(r.value) == MessageContentToText(m.content)
  {
    var thinking :- if m.role == "assistant" then ThinkingParamsOf(GetMessageExtraClaude(m, false).value.1) else Ok([]);
    var content :- ContentBlocks(m.content);
    var uses := if HasToolCalls(m) then ToolUseBlocks(m.tool_calls.value, parse) else [];
    ContentBlocksText(m.content);
    AssembledBlocks(thinking, content, uses);
    Ok(thinking + content + uses)
  }

  /** Thinking, then content, then tool uses: ranked in order, and only the
      content carries text. */
  lemma AssembledBlocks(thinking: seq<ClaudeBlock>, content: seq<ClaudeBlock>, uses: seq<ClaudeBlock>)
    requires forall i :: 0 <= i < |thinking| ==> IsThinkingBlock(thinking[i])
    requires forall i :: 0 <= i < |content| ==> IsContentBlock(content[i])
    requires forall i :: 0 <= i < |uses| ==> uses[i].ToolUseBlock?
    ensures var r := thinking + content + uses;
      forall i, j :: 0 <= i < j < |r| ==> Rank(r[i]) <= Rank(r[j])
    ensures thinking == [] ==> forall i :: 0 <= i < |content + uses| ==> !IsThinkingBlock((content + uses)[i])
    ensures BlocksText(thinking + content + uses) == BlocksText(content)
  {
    var r := thinking + content + uses;
    assert forall i :: 0 <= i < |r| ==>
      Rank(r[i]) == (if i < |thinking| then 0 else if i < |thinking| + |content| then 1 else 2);
    BlocksTextSplit(thinking, content);
    BlocksTextSplit(thinking + content, uses);
    BlocksTextNone(thinking);
    BlocksTextNone(uses);
  }

  lemma BlocksTextSplit(a: seq<ClaudeBlock>, b: seq<ClaudeBlock>)
    ensures BlocksText(a + b) == BlocksText(a) + BlocksText(b)
  {
    var f := (bs: seq<ClaudeBlock>) => seq(|bs|, i requires 0 <= i < |bs| => BlockText(bs[i]));
    assert seq(|a + b|, i requires 0 <= i < |a + b| => BlockText((a + b)[i]))
      == seq(|a|, i requires 0 <= i < |a| => BlockText(a[i])) + seq(|b|, i requires 0 <= i < |b| => BlockText(b[i]));
    ConcatSplit(seq(|a|, i requires 0 <= i < |a| => BlockText(a[i])), seq(|b|, i requires 0 <= i < |b| => BlockText(b[i])));
  }

  lemma {:induction false} BlocksTextNone(bs: seq<ClaudeBlock>)
    requires forall i :: 0 <= i < |bs| ==> !bs[i].TextBlock?
    ensures BlocksText(bs) == ""
  {
    if |bs| > 0 {
      var init := bs[..|bs| - 1];
      BlocksTextNone(init);
      BlocksTextSplit(init, [bs[|bs| - 1]]);
      assert init + [bs[|bs| - 1]] == bs;
      assert seq(1, i requires 0 <= i < 1 => BlockText([bs[|bs| - 1]][i])) == [""];
    }
  }

  /** A tool message's result block: the call id (or the message id) and the
      content's text. */
  function ToolResultOf(m: Message): ClaudeBlock {
    ToolResultBlock(m.call_id.GetOr(m.id.GetOr("")), MessageContentToText(m.content))
  }

  function ClaudeRole(role: string): string {
    if role == "assistant" then "assistant" else "user"
  }

  // ---------------------------------------------------------------------
  // Turns

  /** The blocks a turn holds, a bare string counting as one text block. */
  function TurnContentBlocks(c: TurnContent): seq<ClaudeBlock> {
    match c
    case TurnText(t) => [TextBlock(t)]
    case TurnBlocks(bs) => bs
  }

  /** How a new turn stores its blocks: one text block becomes a bare
      string. */
  function NewTurnContent(blocks: seq<ClaudeBlock>): (r: TurnContent)
    ensures TurnContentBlocks(r) == blocks
    ensures r.TurnText? <==> |blocks| == 1 && blocks[0].TextBlock?
  {
    if |blocks| == 1 && blocks[0].TextBlock? then TurnText(blocks[0].text) else TurnBlocks(blocks)
  }

  /** Appending blocks to the last turn when it has the same role, else
      opening a turn. */
  function MergeTurn(turns: seq<ClaudeTurn>, role: string, blocks: seq<ClaudeBlock>): seq<ClaudeTurn> {
    if |turns| > 0 && turns[|turns| - 1].role == role then
      turns[..|turns| - 1] + [ClaudeTurn(role, Extended(turns[|turns| - 1].content, blocks))]
    else turns + [ClaudeTurn(role, NewTurnContent(blocks))]
  }

  /** A turn's content with blocks appended; a bare string becomes a text
      block first. */
  function Extended(c: TurnContent, blocks: seq<ClaudeBlock>): (r: TurnContent)
    ensures r.TurnBlocks?
  {
    match c
    case TurnText(t) => TurnBlocks([TextBlock(t)] + blocks)
    case TurnBlocks(bs) => TurnBlocks(bs + blocks)
  }

  /** A tool result joins a last user turn that holds a block list, and opens
      a user turn otherwise. */
  function AddToolResult(turns: seq<ClaudeTurn>, tr: ClaudeBlock): seq<ClaudeTurn> {
    if |turns| > 0 && turns[|turns| - 1].role == "user" && turns[|turns| - 1].content.TurnBlocks? then
      turns[..|turns| - 1] + [ClaudeTurn("user", TurnBlocks(turns[|turns| - 1].content.blocks + [tr]))]
    else turns + [ClaudeTurn("user", TurnBlocks([tr]))]
  }

  /** One message of `toClaudeMessages`'s loop. */
  function ClaudeStep(acc: ClaudeMessages, m: Message, parse: string -> Option<Value>): Result<ClaudeMessages> {
    if IsClaudeSystemRole(m.role) then
      var text := MessageContentToText(m.content);
      Ok(acc.(system := if text != "" then acc.system + [text] else acc.system))
    else if m.role == "tool" then
      Ok(acc.(turns := AddToolResult(acc.turns, ToolResultOf(m))))
    else
      var blocks :- MessageBlocks(m, parse);
      Ok(acc.(turns := MergeTurn(acc.turns, ClaudeRole(m.role), blocks)))
  }

  /** `toClaudeMessages` as a fold over the messages. */
  function ClaudeFold(ms: seq<Message>, parse: string -> Option<Value>): Result<ClaudeMessages> {
    if |ms| == 0 then Ok(ClaudeMessages([], []))
    else
      var acc :- ClaudeFold(ms[..|ms| - 1], parse);
      ClaudeStep(acc, ms[|ms| - 1], parse)
  }

  lemma {:induction false} ClaudeFoldErr(ms: seq<Message>, n: nat, parse: string -> Option<Value>)
    requires n <= |ms|
    requires ClaudeFold(ms[..n], parse).Err?
    ensures ClaudeFold(ms, parse) == ClaudeFold(ms[..n], parse)
    decreases |ms| - n
  {
    if n < |ms| {
      assert ms[..n + 1][..n] == ms[..n];
      ClaudeFoldErr(ms, n + 1, parse);
    } else {
      assert ms[..n] == ms;
    }
  }

  /** One message, with the array updates of the source. */
  method ClaudeMessageStep(system: seq<string>, turns: seq<ClaudeTurn>, m: Message, parse: string -> Option<Value>)
    returns (r: Result<ClaudeMessages>)
    ensures r == ClaudeStep(ClaudeMessages(system, turns), m, parse)
  {
    if IsClaudeSystemRole(m.role) {
      var text := MessageContentToText(m.content);
      if text != "" {
        return Ok(ClaudeMessages(system + [text], turns));
      }
      return Ok(ClaudeMessages(system, turns));
    }
    if m.role == "tool" {
      var toolResult := ToolResultOf(m);
      if |turns| > 0 && turns[|turns| - 1].role == "user" && turns[|turns| - 1].content.TurnBlocks? {
        var last := turns[|turns| - 1];
        return Ok(ClaudeMessages(system, turns[..|turns| - 1] + [ClaudeTurn("user", TurnBlocks(last.content.blocks + [toolResult]))]));
      }
      return Ok(ClaudeMessages(system, turns + [ClaudeTurn("user", TurnBlocks([toolResult]))]));
    }
    var role := ClaudeRole(m.role);
    var blocks: seq<ClaudeBlock> := [];
    if role == "assistant" {
      var thinking := ToClaudeThinkingBlocks(GetMessageExtraClaude(m, false).value.1);
      if thinking.Err? {
        return Err(thinking.error);
      }
      blocks := blocks + thinking.value;
      assert blocks == thinking.value;
    }
    ghost var thinking := blocks;
    var content := ContentBlocks(m.content);
    if content.Err? {
      return Err(content.error);
    }
    blocks := blocks + content.value;
    ghost var uses: seq<ClaudeBlock> := [];
    if HasToolCalls(m) {
      uses := ToolUseBlocks(m.tool_calls.value, parse);
      blocks := blocks + ToolUseBlocks(m.tool_calls.value, parse);
    } else {
      assert blocks == blocks + [];
    }
    assert blocks == thinking + content.value + uses;
    assert MessageBlocks(m, parse) == Ok(blocks);
    return Ok(ClaudeMessages(system, MergeTurn(turns, role, blocks)));
  }

  /** `toClaudeMessages`: the loop over the messages. */
  method ToClaudeMessages(ms: seq<Message>, parse: string -> Option<Value>) returns (r: Result<ClaudeMessages>)
    ensures r == ClaudeFold(ms, parse)
  {
    var system: seq<string> := [];
    var turns: seq<ClaudeTurn> := [];
    for i := 0 to |ms|
      invariant ClaudeFold(ms[..i], parse) == Ok(ClaudeMessages(system, turns))
    {
      assert ms[..i + 1][..i] == ms[..i];
      var step := ClaudeMessageStep(system, turns, ms[i], parse);
      if step.Err? {
        ClaudeFoldErr(ms, i + 1, parse);
        return step;
      }
      system := step.value.system;
      turns := step.value.turns;
    }
    assert ms[..|ms|] == ms;
    return Ok(ClaudeMessages(system, turns));
  }

  // ---------------------------------------------------------------------
  // Properties of the conversion

  /** The non-empty texts of the system and developer messages, in order. */
  function SystemTexts(ms: seq<Message>): seq<string> {
    if |ms| == 0 then []
    else
      var m := ms[|ms| - 1];
      SystemTexts(ms[..|ms| - 1])
        + (if IsClaudeSystemRole(m.role) && MessageContentToText(m.content) != "" then [MessageContentToText(m.content)] else [])
  }

  /** The blocks each non-system message contributes, concatenated in message
      order; a tool message contributes its tool result. */
  function FlatBlocks(ms: seq<Message>, parse: string -> Option<Value>): Result<seq<ClaudeBlock>> {
    if |ms| == 0 then Ok([])
    else
      var prev :- FlatBlocks(ms[..|ms| - 1], parse);
      var m := ms[|ms| - 1];
      if IsClaudeSystemRole(m.role) then Ok(prev)
      else if m.role == "tool" then Ok(prev + [ToolResultOf(m)])
      else
        var bs :- MessageBlocks(m, parse);
        Ok(prev + bs)
  }

  /** All blocks of all turns, in order. */
  function AllBlocks(turns: seq<ClaudeTurn>): seq<ClaudeBlock> {
    if |turns| == 0 then []
    else AllBlocks(turns[..|turns| - 1]) + TurnContentBlocks(turns[|turns| - 1].content)
  }

  lemma AllBlocksLast(turns: seq<ClaudeTurn>, t: ClaudeTurn)
    ensures AllBlocks(turns + [t]) == AllBlocks(turns) + TurnContentBlocks(t.content)
  {
    assert (turns + [t])[..|turns|] == turns;
  }

  lemma MergeTurnBlocks(turns: seq<ClaudeTurn>, role: string, blocks: seq<ClaudeBlock>)
    ensures AllBlocks(MergeTurn(turns, role, blocks)) == AllBlocks(turns) + blocks
  {
    if |turns| > 0 && turns[|turns| - 1].role == role {
      var init := turns[..|turns| - 1];
      var last := turns[|turns| - 1];
      var nt := ClaudeTurn(role, Extended(last.content, blocks));
      AllBlocksLast(init, nt);
      assert init + [last] == turns;
      AllBlocksLast(init, last);
      BlocksAssoc(AllBlocks(init), TurnContentBlocks(last.content), blocks);
    } else {
      AllBlocksLast(turns, ClaudeTurn(role, NewTurnContent(blocks)));
    }
  }

  lemma BlocksAssoc(a: seq<ClaudeBlock>, b: seq<ClaudeBlock>, c: seq<ClaudeBlock>)
    ensures a + (b + c) == (a + b) + c
  {
  }

  lemma AddToolResultBlocks(turns: seq<ClaudeTurn>, tr: ClaudeBlock)
    ensures AllBlocks(AddToolResult(turns, tr)) == AllBlocks(turns) + [tr]
  {
    if |turns| > 0 && turns[|turns| - 1].role == "user" && turns[|turns| - 1].content.TurnBlocks? {
      var init := turns[..|turns| - 1];
      var last := turns[|turns| - 1];
      AllBlocksLast(init, AddToolResult(turns, tr)[|turns| - 1]);
      assert init + [last] == turns;
      AllBlocksLast(init, last);
    } else {
      AllBlocksLast(turns, ClaudeTurn("user", TurnBlocks([tr])));
    }
  }

  /** Nothing is lost and nothing reordered: the turns hold exactly the
      blocks of the non-system messages in message order, and the
      conversion fails exactly when one of those messages has no blocks. */
  lemma {:induction false} ClaudeFoldBlocks(ms: seq<Message>, parse: string -> Option<Value>)
    ensures ClaudeFold(ms, parse).Ok? <==> FlatBlocks(ms, parse).Ok?
    ensures ClaudeFold(ms, parse).Ok? ==> AllBlocks(ClaudeFold(ms, parse).value.turns) == FlatBlocks(ms, parse).value
  {
    if |ms| > 0 {
      var init := ms[..|ms| - 1];
      var m := ms[|ms| - 1];
      ClaudeFoldBlocks(init, parse);
      if ClaudeFold(init, parse).Ok? {
        var acc := ClaudeFold(init, parse).value;
        if IsClaudeSystemRole(m.role) {
        } else if m.role == "tool" {
          AddToolResultBlocks(acc.turns, ToolResultOf(m));
        } else if MessageBlocks(m, parse).Ok? {
          MergeTurnBlocks(acc.turns, ClaudeRole(m.role), MessageBlocks(m, parse).value);
        }
      }
    }
  }

  /** `system` collects the non-empty texts of the system and developer
      messages in order, whatever the other messages are. */
  lemma {:induction false} ClaudeFoldSystem(ms: seq<Message>, parse: string -> Option<Value>)
    requires ClaudeFold(ms, parse).Ok?
    ensures ClaudeFold(ms, parse).value.system == SystemTexts(ms)
    ensures forall i :: 0 <= i < |SystemTexts(ms)| ==> SystemTexts(ms)[i] != ""
  {
    if |ms| > 0 {
      ClaudeFoldSystem(ms[..|ms| - 1], parse);
    }
  }

  /** Two neighbouring turns: different roles, or a user turn holding a bare
      string followed by a user turn opened by a tool result. */
  predicate NeighboursOk(a: ClaudeTurn, b: ClaudeTurn) {
    a.role != b.role
    || (a.role == "user" && a.content.TurnText? && b.content.TurnBlocks? && |b.content.blocks| > 0
        && b.content.blocks[0].ToolResultBlock?)
  }

  predicate IsClaudeRole(t: ClaudeTurn) {
    t.role == "user" || t.role == "assistant"
  }

  /** The turns Claude receives: every role is `user` or `assistant`, and
      two neighbours share a role only in the tool-result case. */
  predicate WellFormedTurns(turns: seq<ClaudeTurn>) {
    (forall i :: 0 <= i < |turns| ==> IsClaudeRole(turns[i]))
    && forall i :: 0 <= i < |turns| - 1 ==> NeighboursOk(turns[i], turns[i + 1])
  }

  /** Replacing the last turn by one with the same role and, when it opened
      with a tool result, the same first block. */
  lemma ReplaceLastWellFormed(turns: seq<ClaudeTurn>, t: ClaudeTurn)
    requires WellFormedTurns(turns) && |turns| > 0
    requires t.role == turns[|turns| - 1].role
    requires t.content.TurnBlocks?
    requires turns[|turns| - 1].content.TurnBlocks? && |turns[|turns| - 1].content.blocks| > 0 ==>
      |t.content.blocks| > 0 && t.content.blocks[0] == turns[|turns| - 1].content.blocks[0]
    ensures WellFormedTurns(turns[..|turns| - 1] + [t])
  {
    var n := |turns|;
    var r := turns[..n - 1] + [t];
    assert forall i :: 0 <= i < n - 1 ==> r[i] == turns[i];
    if n >= 2 {
      assert NeighboursOk(turns[n - 2], turns[n - 1]);
      assert NeighboursOk(r[n - 2], r[n - 1]);
    }
  }

  /** Appending a turn whose role differs from the last, or a tool-result turn
      after a bare-string user turn. */
  lemma PushWellFormed(turns: seq<ClaudeTurn>, t: ClaudeTurn)
    requires WellFormedTurns(turns) && IsClaudeRole(t)
    requires |turns| > 0 ==> NeighboursOk(turns[|turns| - 1], t)
    ensures WellFormedTurns(turns + [t])
  {
    var r := turns + [t];
    assert forall i :: 0 <= i < |turns| ==> r[i] == turns[i];
  }

  lemma MergeTurnWellFormed(turns: seq<ClaudeTurn>, role: string, blocks: seq<ClaudeBlock>)
    requires WellFormedTurns(turns)
    requires role == "user" || role == "assistant"
    ensures WellFormedTurns(MergeTurn(turns, role, blocks))
  {
    var n := |turns|;
    if n > 0 && turns[n - 1].role == role {
      ReplaceLastWellFormed(turns, MergeTurn(turns, role, blocks)[n - 1]);
      assert MergeTurn(turns, role, blocks) == turns[..n - 1] + [MergeTurn(turns, role, blocks)[n - 1]];
    } else {
      PushWellFormed(turns, ClaudeTurn(role, NewTurnContent(blocks)));
    }
  }

  lemma AddToolResultWellFormed(turns: seq<ClaudeTurn>, tr: ClaudeBlock)
    requires WellFormedTurns(turns)
    requires tr.ToolResultBlock?
    ensures WellFormedTurns(AddToolResult(turns, tr))
  {
    var n := |turns|;
    if n > 0 && turns[n - 1].role == "user" && turns[n - 1].content.TurnBlocks? {
      var t := ClaudeTurn("user", TurnBlocks(turns[n - 1].content.blocks + [tr]));
      ReplaceLastWellFormed(turns, t);
    } else {
      PushWellFormed(turns, ClaudeTurn("user", TurnBlocks([tr])));
    }
  }

  lemma {:induction false} ClaudeFoldWellFormed(ms: seq<Message>, parse: string -> Option<Value>)
    requires ClaudeFold(ms, parse).Ok?
    ensures WellFormedTurns(ClaudeFold(ms, parse).value.turns)
  {
    if |ms| > 0 {
      var init := ms[..|ms| - 1];
      var m := ms[|ms| - 1];
      ClaudeFoldWellFormed(init, parse);
      var acc := ClaudeFold(init, parse).value;
      if IsClaudeSystemRole(m.role) {
      } else if m.role == "tool" {
        AddToolResultWellFormed(acc.turns, ToolResultOf(m));
      } else {
        MergeTurnWellFormed(acc.turns, ClaudeRole(m.role), MessageBlocks(m, parse).value);
      }
    }
  }

  /** The one way two user turns end up adjacent: a plain user message
      followed by a tool result. */
  lemma AdjacentUserTurns(parse: string -> Option<Value>)
    ensures ClaudeFold([NewMessage("user", Plain("hi")), NewMessage("tool", Plain("42"))], parse)
      == Ok(ClaudeMessages([], [ClaudeTurn("user", TurnText("hi")), ClaudeTurn("user", TurnBlocks([ToolResultBlock("", "42")]))]))
  {
    var ms := [NewMessage("user", Plain("hi")), NewMessage("tool", Plain("42"))];
    assert ms[..1] == [NewMessage("user", Plain("hi"))];
    assert ms[..1][..0] == [];
    assert ContentBlocks(Plain("hi")) == Ok([TextBlock("hi")]);
    assert !HasToolCalls(ms[0]);
    assert [] + [TextBlock("hi")] + [] == [TextBlock("hi")];
    assert MessageBlocks(ms[0], parse) == Ok([TextBlock("hi")]);
    var first := ClaudeMessages([], [ClaudeTurn("user", TurnText("hi"))]);
    assert ClaudeFold(ms[..1][..0], parse) == Ok(ClaudeMessages([], []));
    assert MergeTurn([], "user", [TextBlock("hi")]) == [ClaudeTurn("user", TurnText("hi"))];
    assert ClaudeStep(ClaudeMessages([], []), ms[0], parse) == Ok(first);
    assert ClaudeFold(ms[..1], parse) == Ok(first);
    assert ToolResultOf(ms[1]) == ToolResultBlock("", "42");
    assert ms[..|ms| - 1] == ms[..1];
    assert !IsClaudeSystemRole(ms[1].role) && ms[1].role == "tool";
    assert AddToolResult(first.turns, ToolResultBlock("", "42"))
      == [ClaudeTurn("user", TurnText("hi")), ClaudeTurn("user", TurnBlocks([ToolResultBlock("", "42")]))];
    assert ClaudeStep(first, ms[1], parse)
      == Ok(ClaudeMessages([], [ClaudeTurn("user", TurnText("hi")), ClaudeTurn("user", TurnBlocks([ToolResultBlock("", "42")]))]));
  }

  // ---------------------------------------------------------------------
  // The request

  /** `createStepEncoder(options)(req)`. */
  method Encode(options: EncodeOptions, req: StepParams, parse: string -> Option<Value>) returns (r: Result<ClaudeRequestBody>)
    ensures r.Ok? <==> ClaudeFold(req.messages, parse).Ok?
    ensures r.Ok? ==>
      r.value.messages == ClaudeFold(req.messages, parse).value.turns
      && r.value.model == options.model.GetOr(DEFAULT_MODEL)
      && r.value.max_tokens == options.max_tokens.GetOr(DEFAULT_MAX_TOKENS)
      && !r.value.stream
    ensures r.Ok? ==> var sys := SystemTexts(req.messages);
      r.value.system == (if |sys| > 0 then Some(Join(sys, "\n\n")) else None)
    ensures r.Ok? ==> (r.value.tools.Some? <==> req.functions.Some? && |req.functions.value| > 0)
    ensures r.Ok? && r.value.tools.Some? ==>
      |r.value.tools.value| == |req.functions.value|
      && forall i :: 0 <= i < |req.functions.value| ==> r.value.tools.value[i] == ToClaudeTool(req.functions.value[i])
    ensures r.Ok? ==> r.value.output_schema == (if req.response_schema.Some? then Some(req.response_schema.value.schema) else None)
  {
    var converted := ToClaudeMessages(req.messages, parse);
    if converted.Err? {
      return Err(converted.error);
    }
    ClaudeFoldSystem(req.messages, parse);
    var body := ClaudeRequestBody(options.model.GetOr(DEFAULT_MODEL), options.max_tokens.GetOr(DEFAULT_MAX_TOKENS),
      converted.value.turns, false, None, None, None);
    if |converted.value.system| > 0 {
      body := body.(system := Some(Join(converted.value.system, "\n\n")));
    }
    if req.functions.Some? && |req.functions.value| > 0 {
      var fs := req.functions.value;
      body := body.(tools := Some(seq(|fs|, i requires 0 <= i < |fs| => ToClaudeTool(fs[i]))));
    }
    if req.response_schema.Some? {
      body := body.(output_schema := Some(req.response_schema.value.schema));
    }
    return Ok(body);
  }
}
