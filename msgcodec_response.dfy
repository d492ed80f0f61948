/**
 The OpenAI Responses mapping of the message codecs: canonical messages to
 Responses input items, and the output items of a response back to at most
 one assistant message.

 `getNextUID` is a supply of fresh ids: `uid(n)` is what it hands out the
 `n`-th time. The encoder takes the supply's position and gives back the
 position after the ids it drew.
 */
module MsgCodecOpenAIResponse {
  import opened Wrappers
  import opened Json
  import opened Strings
  import opened Content
  import opened Messages
  import opened MessageUtil
  import opened OpenAIChat
  import opened MsgCodecOpenAIChat

  const OPENAI_EXTRA_KEY := "openai"

  // ---------------------------------------------------------------------
  // Wire shapes (only the fields the mapping reads or writes)

  /** An input content item: `output_text` (with no annotations),
      `input_text`, or `input_image` (with `detail: 'auto'`). */
  datatype InputContentItem =
    | OutputText(text: string)
    | InputText(text: string)
    | InputImage(image_url: string)

  /** An input item. A reasoning item has an empty summary and an assistant
      message the status `completed`; `reasoning_id` and `fc_id` are the
      `id` keys of a reasoning item and of a function call. */
  datatype InputItem =
    | FunctionCallOutput(call_id: string, output: string)
    | ReasoningInput(reasoning_id: Value)
    | AssistantMessageInput(id: string, content: seq<InputContentItem>)
    | RoleMessageInput(role: string, content: seq<InputContentItem>)
    | FunctionCallInput(name: string, call_id: string, arguments: string, fc_id: Option<string>)

  /** The request: `{input}`. */
  datatype ResponseInput = ResponseInput(input: seq<InputItem>)

  /** An output content item; `annotations` is the length of its list. */
  datatype OutputContentItem =
    | OutputTextItem(text: string, annotations: nat)
    | RefusalItem(refusal: string)

  /** An output item. `content` and `summary` are `None` when null or
      missing; `kind` is the `type` of an item the decoder does not know.
      `fc_id` is a function call's own `id`. */
  datatype OutputItem =
    | MessageOutput(id: string, role: string, content: Option<seq<OutputContentItem>>)
    | FunctionCallItem(call_id: string, name: string, arguments: string, fc_id: Option<string>)
    | ReasoningOutput(id: string, summary: Option<seq<string>>)
    | OtherOutput(kind: string)

  function UnknownItem(kind: string): string {
    "Unknown response item type: '" + kind + "'!"
  }

  const CALL_TEMP := "call_temp_"
  const MSG_TEMP := "msg_temp_"

  // ---------------------------------------------------------------------
  // Encoding

  /** `makeTextInputContent`: an assistant's text is output text, anyone
      else's input text. */
  function MakeTextInputContent(role: string, text: string): (r: InputContentItem)
    ensures r.OutputText? <==> role == "assistant"
    ensures !r.InputImage? && r.text == text
  {
    if role == "assistant" then OutputText(text) else InputText(text)
  }

  /** One part of `toResponseInputContent`: an image by URL or by its data,
      text as `makeTextInputContent`, and nothing else. */
  function ToInputPart(role: string, p: ContentPart): (r: Result<InputContentItem>)
    ensures p.Text? ==> r == Ok(MakeTextInputContent(role, p.text))
    ensures p.Image? ==>
      (r.Ok? <==> NonEmpty(p.attrs.url) || NonEmpty(p.attrs.data))
      && (r.Err? ==> r.error == PlainError(ERR_IMAGE))
      && (NonEmpty(p.attrs.url) ==> r == Ok(InputImage(p.attrs.url.value)))
      && (!NonEmpty(p.attrs.url) && NonEmpty(p.attrs.data) ==>
            r == Ok(InputImage("data:image/" + p.attrs.format.GetOr("png") + ";base64," + p.attrs.data.value)))
    ensures (p.Audio? || p.File?) ==> r == Err(PlainError(UnknownType(PartKind(p))))
  {
    match p
    case Text(t) => Ok(MakeTextInputContent(role, t))
    case Image(a) =>
      if NonEmpty(a.url) then Ok(InputImage(a.url.value))
      else if NonEmpty(a.data) then Ok(InputImage("data:image/" + a.format.GetOr("png") + ";base64," + a.data.value))
      else Err(PlainError(ERR_IMAGE))
    case _ => Err(PlainError(UnknownType(PartKind(p))))
  }

  /** `toResponseInputContent`: `""` gives nothing, another string one text
      item, a part list one item per part. */
  function ToResponseInputContent(role: string, c: MessageContent): (r: Result<seq<InputContentItem>>)
    ensures c.Plain? ==> r.Ok? && (c.s == "" <==> r.value == [])
    ensures c.Plain? && c.s != "" ==> r.value == [MakeTextInputContent(role, c.s)]
    ensures r.Ok? <==> ContentEncodable(c)
    ensures c.Parts? && r.Ok? ==>
      |r.value| == |c.parts| && forall i :: 0 <= i < |c.parts| ==> r.value[i] == ToInputPart(role, c.parts[i]).value
  {
    match c
    case Plain(s) => if s == "" then Ok([]) else Ok([MakeTextInputContent(role, s)])
    case Parts(ps) => MapResult(ps, (p: ContentPart) => ToInputPart(role, p))
  }

  /** The parts the input content takes: text, and images with a URL or
      data. */
  predicate PartEncodable(p: ContentPart) {
    p.Text? || (p.Image? && (NonEmpty(p.attrs.url) || NonEmpty(p.attrs.data)))
  }

  /** Content the encoder can take, whoever sends it. */
  predicate ContentEncodable(c: MessageContent) {
    c.Plain? || forall i :: 0 <= i < |c.parts| ==> PartEncodable(c.parts[i])
  }

  /** `x ?? temp`: a present id, or the next one from the supply. */
  function IdOr(x: Option<string>, prefix: string, n: nat, uid: nat -> string): (r: (string, nat))
    ensures x.Some? ==> r == (x.value, n)
    ensures x.None? ==> r == (prefix + uid(n), n + 1)
  {
    if x.Some? then (x.value, n) else (prefix + uid(n), n + 1)
  }

  /** One tool call of `toResponseInputToolCalls`. */
  function ToolCallItem(tc: ToolCall, n: nat, uid: nat -> string): (InputItem, nat) {
    var (cid, n1) := IdOr(tc.call_id, CALL_TEMP, n, uid);
    (FunctionCallInput(tc.name, cid, tc.arguments, tc.id), n1)
  }

  /** `items` are the function calls for `tcs`, one per tool call and in
      order: name, arguments, the id when there is one, and `call_id` when
      the tool call has one. */
  predicate CallItemsFor(items: seq<InputItem>, tcs: seq<ToolCall>) {
    |items| == |tcs|
    && forall j :: 0 <= j < |tcs| ==>
         items[j].FunctionCallInput? && items[j].name == tcs[j].name && items[j].arguments == tcs[j].arguments
         && items[j].fc_id == tcs[j].id && (tcs[j].call_id.Some? ==> items[j].call_id == tcs[j].call_id.value)
  }

  /** The number of tool calls without a `call_id`. */
  function MissingCallIds(tcs: seq<ToolCall>): (k: nat)
    ensures k <= |tcs|
  {
    if |tcs| == 0 then 0
    else MissingCallIds(tcs[..|tcs| - 1]) + (if tcs[|tcs| - 1].call_id.None? then 1 else 0)
  }

  /** No tool call lacks a `call_id` exactly when the count is zero. */
  lemma {:induction false} MissingCallIdsZero(tcs: seq<ToolCall>)
    ensures MissingCallIds(tcs) == 0 <==> forall j :: 0 <= j < |tcs| ==> tcs[j].call_id.Some?
  {
    if |tcs| > 0 {
      var init := tcs[..|tcs| - 1];
      MissingCallIdsZero(init);
      assert forall j :: 0 <= j < |init| ==> init[j] == tcs[j];
    }
  }

  /** Item `j` is the function call for `tcs[j]`; without a `call_id` it
      gets `call_temp_` and the uid drawn for it, one draw for each call
      before it that lacked a `call_id`. */
  predicate FreshCallIdAt(items: seq<InputItem>, tcs: seq<ToolCall>, j: nat, n: nat, uid: nat -> string)
    requires j < |items| == |tcs|
  {
    tcs[j].call_id.None? ==>
      items[j].FunctionCallInput? && items[j].call_id == CALL_TEMP + uid(n + MissingCallIds(tcs[..j]))
  }

  /** Each tool call without a `call_id` gets `call_temp_` and the uid drawn
      for it: the draws go to those calls in order, one each. */
  predicate FreshCallIds(items: seq<InputItem>, tcs: seq<ToolCall>, n: nat, uid: nat -> string)
    requires |items| == |tcs|
  {
    forall j: nat :: j < |tcs| ==> FreshCallIdAt(items, tcs, j, n, uid)
  }

  lemma FreshCallIdsPush(items: seq<InputItem>, tcs: seq<ToolCall>, x: InputItem, tc: ToolCall, n: nat, uid: nat -> string)
    requires |items| == |tcs| && FreshCallIds(items, tcs, n, uid)
    requires tc.call_id.None? ==> x.FunctionCallInput? && x.call_id == CALL_TEMP + uid(n + MissingCallIds(tcs))
    ensures FreshCallIds(items + [x], tcs + [tc], n, uid)
  {
    var tcs2, items2 := tcs + [tc], items + [x];
    forall j: nat | j < |tcs2|
      ensures FreshCallIdAt(items2, tcs2, j, n, uid)
    {
      if j < |tcs| {
        assert FreshCallIdAt(items, tcs, j, n, uid);
        assert tcs2[..j] == tcs[..j];
        assert tcs2[j] == tcs[j] && items2[j] == items[j];
      } else {
        assert tcs2[..j] == tcs;
      }
    }
  }

  /** `toResponseInputToolCalls` on a non-empty list: one function call per
      tool call, in order, each drawing an id only when it has no
      `call_id`. */
  function ToolCallItems(tcs: seq<ToolCall>, n: nat, uid: nat -> string): (r: (seq<InputItem>, nat))
    ensures CallItemsFor(r.0, tcs)
    ensures FreshCallIds(r.0, tcs, n, uid)
    ensures r.1 == n + MissingCallIds(tcs)
    ensures n <= r.1 <= n + |tcs|
    ensures (forall j :: 0 <= j < |tcs| ==> tcs[j].call_id.Some?) ==> r.1 == n
  {
    if |tcs| == 0 then ([], n)
    else
      var init := tcs[..|tcs| - 1];
      var prev := ToolCallItems(init, n, uid);
      var last := ToolCallItem(tcs[|tcs| - 1], prev.1, uid);
      var items := prev.0 + [last.0];
      assert init + [tcs[|tcs| - 1]] == tcs;
      FreshCallIdsPush(prev.0, init, last.0, tcs[|tcs| - 1], n, uid);
      MissingCallIdsZero(tcs);
      (items, last.1)
  }

  /** The `reasoning_id` stored under `extra.openai`, when truthy. */
  function ReasoningIdOf(m: Message): Option<Value> {
    var e := GetMessageExtra(m, OPENAI_EXTRA_KEY, false).value.1;
    if e.Some? && Truthy(Get(e.value, "reasoning_id")) then Some(Get(e.value, "reasoning_id")) else None
  }

  predicate HasToolCalls(m: Message) {
    m.tool_calls.Some? && |m.tool_calls.value| > 0
  }

  /** The message item and, for an assistant, the reasoning item before it
      (when `extra.openai.reasoning_id` is truthy) and its id, drawn from the
      supply when the message has none. */
  function MessageItem(m: Message, content: seq<InputContentItem>, n: nat, uid: nat -> string): (r: (seq<InputItem>, nat))
    ensures m.role != "assistant" ==> r == ([RoleMessageInput(m.role, content)], n)
    ensures m.role == "assistant" ==>
      |r.0| == (if ReasoningIdOf(m).Some? then 2 else 1)
      && r.0[|r.0| - 1] == AssistantMessageInput(IdOr(m.id, MSG_TEMP, n, uid).0, content)
      && (ReasoningIdOf(m).Some? ==> r.0[0] == ReasoningInput(ReasoningIdOf(m).value))
      && r.1 == IdOr(m.id, MSG_TEMP, n, uid).1
  {
    if m.role == "assistant" then
      var lead := if ReasoningIdOf(m).Some? then [ReasoningInput(ReasoningIdOf(m).value)] else [];
      var (id, n1) := IdOr(m.id, MSG_TEMP, n, uid);
      (lead + [AssistantMessageInput(id, content)], n1)
    else ([RoleMessageInput(m.role, content)], n)
  }

  /** The tool calls an assistant message sends: all of them when it has
      any; nobody else's. */
  function SentCalls(m: Message): seq<ToolCall> {
    if m.role == "assistant" && HasToolCalls(m) then m.tool_calls.value else []
  }

  /** A message that is not a tool result, once its content is encoded: its
      message item when it has content or no tool calls, then, for an
      assistant only, one function call per tool call. */
  function NonToolItems(m: Message, content: seq<InputContentItem>, n: nat, uid: nat -> string): (r: (seq<InputItem>, nat))
    ensures n <= r.1
    ensures var lead := if |content| > 0 || !HasToolCalls(m) then MessageItem(m, content, n, uid).0 else [];
      lead <= r.0 && CallItemsFor(r.0[|lead|..], SentCalls(m))
    // No id is drawn when the message and all its tool calls have theirs.
    ensures m.id.Some? && (forall j :: 0 <= j < |SentCalls(m)| ==> SentCalls(m)[j].call_id.Some?) ==> r.1 == n
  {
    var head := if |content| > 0 || !HasToolCalls(m) then MessageItem(m, content, n, uid) else ([], n);
    var calls := ToolCallItems(SentCalls(m), head.1, uid);
    assert (head.0 + calls.0)[|head.0|..] == calls.0;
    (head.0 + calls.0, calls.1)
  }

  /** What one message contributes to `input`. A tool message is one
      `function_call_output` carrying its text, under `call_id`, else `id`,
      else a fresh temporary id; any other message fails exactly when its
      content does. */
  function MessageItems(m: Message, n: nat, uid: nat -> string): (r: Result<(seq<InputItem>, nat)>)
    ensures r.Ok? <==> Encodable(m)
    ensures r.Ok? ==> n <= r.value.1
    ensures m.role == "tool" ==>
      var items := r.value.0;
      |items| == 1 && items[0].FunctionCallOutput? && items[0].output == MessageContentToText(m.content)
      && (m.call_id.Some? ==> items[0].call_id == m.call_id.value && r.value.1 == n)
      && (m.call_id.None? && m.id.Some? ==> items[0].call_id == m.id.value && r.value.1 == n)
      && (m.call_id.None? && m.id.None? ==> items[0].call_id == CALL_TEMP + uid(n) && r.value.1 == n + 1)
  {
    if m.role == "tool" then
      var (cid, n1) := IdOr(if m.call_id.Some? then m.call_id else m.id, CALL_TEMP, n, uid);
      Ok(([FunctionCallOutput(cid, MessageContentToText(m.content))], n1))
    else
      var content :- ToResponseInputContent(m.role, m.content);
      Ok(NonToolItems(m, content, n, uid))
  }

  /** The encoder's loop over the messages, as a fold: the items so far and
      the supply's position. */
  function EncodeFold(ms: seq<Message>, n: nat, uid: nat -> string): (r: Result<(seq<InputItem>, nat)>)
    ensures r.Ok? ==> n <= r.value.1
  {
    if |ms| == 0 then Ok(([], n))
    else
      var prev := EncodeFold(ms[..|ms| - 1], n, uid);
      if prev.Err? then prev
      else
        var step := MessageItems(ms[|ms| - 1], prev.value.1, uid);
        if step.Err? then Err(step.error) else Ok((prev.value.0 + step.value.0, step.value.1))
  }

  /** `OpenAIResponseInputCodec.createEncoder()`, one message at a time. */
  method EncodeResponseInput(ms: seq<Message>, n0: nat, uid: nat -> string) returns (r: Result<ResponseInput>, next: nat)
    ensures r.Ok? <==> EncodeFold(ms, n0, uid).Ok?
    ensures r.Ok? ==> r.value == ResponseInput(EncodeFold(ms, n0, uid).value.0) && next == EncodeFold(ms, n0, uid).value.1
    ensures r.Err? ==> r.error == EncodeFold(ms, n0, uid).error
  {
    var items: seq<InputItem> := [];
    next := n0;
    for i := 0 to |ms|
      invariant EncodeFold(ms[..i], n0, uid) == Ok((items, next))
    {
      assert ms[..i + 1][..i] == ms[..i];
      var step := MessageItems(ms[i], next, uid);
      if step.Err? {
        EncodeFoldErr(ms, n0, uid, i + 1);
        return Err(step.error), next;
      }
      items := items + step.value.0;
      next := step.value.1;
    }
    assert ms[..|ms|] == ms;
    return Ok(ResponseInput(items)), next;
  }

  /** A failure in the first `i` messages is the failure of all of them. */
  lemma {:induction false} EncodeFoldErr(ms: seq<Message>, n: nat, uid: nat -> string, i: nat)
    requires i <= |ms| && EncodeFold(ms[..i], n, uid).Err?
    ensures EncodeFold(ms, n, uid) == EncodeFold(ms[..i], n, uid)
    decreases |ms| - i
  {
    if i < |ms| {
      assert ms[..i + 1][..i] == ms[..i];
      EncodeFoldErr(ms, n, uid, i + 1);
    } else {
      assert ms[..i] == ms;
    }
  }

  /** The encoder fails exactly when a non-tool message has a part it cannot
      encode. */
  lemma {:induction false} EncodeFoldOk(ms: seq<Message>, n: nat, uid: nat -> string)
    ensures EncodeFold(ms, n, uid).Ok? <==> forall i :: 0 <= i < |ms| ==> Encodable(ms[i])
  {
    if |ms| > 0 {
      var init := ms[..|ms| - 1];
      EncodeFoldOk(init, n, uid);
      EncodeFoldStepOk(ms, n, uid);
      AllEncodableSplit(ms, init);
    }
  }

  lemma AllEncodableSplit(ms: seq<Message>, init: seq<Message>)
    requires |ms| > 0 && init == ms[..|ms| - 1]
    ensures (forall i :: 0 <= i < |ms| ==> Encodable(ms[i])) <==>
      (forall i :: 0 <= i < |init| ==> Encodable(init[i])) && Encodable(ms[|ms| - 1])
  {
    assert forall i :: 0 <= i < |init| ==> init[i] == ms[i];
  }

  lemma EncodeFoldStepOk(ms: seq<Message>, n: nat, uid: nat -> string)
    requires |ms| > 0
    ensures EncodeFold(ms, n, uid).Ok? <==> EncodeFold(ms[..|ms| - 1], n, uid).Ok? && Encodable(ms[|ms| - 1])
  {
    var prev := EncodeFold(ms[..|ms| - 1], n, uid);
    if prev.Ok? {
      assert MessageItems(ms[|ms| - 1], prev.value.1, uid).Ok? <==> Encodable(ms[|ms| - 1]);
    }
  }

  /** A message the encoder can take: a tool result, or one whose content it
      can encode. */
  predicate Encodable(m: Message) {
    m.role == "tool" || ContentEncodable(m.content)
  }

  // ---------------------------------------------------------------------
  // Decoding

  /** `fromResponseOutputContent`: nothing gives `""`, a lone unannotated
      output text collapses to its string, anything else is one text part per
      item (a refusal's text included). */
  function FromOutputContent(cs: Option<seq<OutputContentItem>>): (r: MessageContent)
    ensures cs.None? || |cs.value| == 0 ==> r == Plain("")
    ensures cs.Some? && |cs.value| == 1 && cs.value[0].OutputTextItem? && cs.value[0].annotations == 0 ==>
      r == Plain(cs.value[0].text)
    ensures cs.Some? && |cs.value| > 0 && !(|cs.value| == 1 && cs.value[0].OutputTextItem? && cs.value[0].annotations == 0) ==>
      r.Parts? && |r.parts| == |cs.value|
      && forall i :: 0 <= i < |cs.value| ==>
           r.parts[i] == Text(if cs.value[i].OutputTextItem? then cs.value[i].text else cs.value[i].refusal)
  {
    if cs.None? || |cs.value| == 0 then Plain("")
    else if |cs.value| == 1 && cs.value[0].OutputTextItem? && cs.value[0].annotations == 0 then Plain(cs.value[0].text)
    else Parts(seq(|cs.value|, i requires 0 <= i < |cs.value| =>
                 Text(match cs.value[i] case OutputTextItem(t, _) => t case RefusalItem(t) => t)))
  }

  /** `fromResponseToolCall`: `call_id`, name and arguments, and the id only
      when non-empty. */
  function FromResponseToolCall(item: OutputItem): (r: ToolCall)
    requires item.FunctionCallItem?
    ensures r.call_id == Some(item.call_id) && r.name == item.name && r.arguments == item.arguments
    ensures r.id == (if NonEmpty(item.fc_id) then item.fc_id else None) && r.extra.None?
  {
    ToolCall(if NonEmpty(item.fc_id) then item.fc_id else None, Some(item.call_id), item.name, item.arguments, None)
  }

  function Plains(ss: seq<string>): seq<MessageContent> {
    seq(|ss|, i requires 0 <= i < |ss| => Plain(ss[i]))
  }

  /** What `getOrCreateMessage` creates. */
  function FreshMessage(): Message {
    NewMessage("assistant", Plain(""))
  }

  /** One iteration of the decoder's loop on the current message. */
  function DecodeStep(msg: Message, item: OutputItem): Result<Message> {
    match item
    case MessageOutput(id, role, content) => Ok(msg.(id := Some(id), role := role, content := FromOutputContent(content)))
    case FunctionCallItem(_, _, _, _) => Ok(msg.(tool_calls := Some(msg.tool_calls.GetOr([]) + [FromResponseToolCall(item)])))
    case ReasoningOutput(id, summary) =>
      SetExtraField(msg.(reasoning := NextReasoning(msg.reasoning, summary)), OPENAI_EXTRA_KEY, "reasoning_id", Str(id))
    case OtherOutput(kind) => Err(PlainError(UnknownItem(kind)))
  }

  /** The decoder's loop as a fold: the current message, if one was
      created. */
  function DecodeFold(items: seq<OutputItem>): Result<Option<Message>> {
    if |items| == 0 then Ok(None)
    else
      var prev := DecodeFold(items[..|items| - 1]);
      if prev.Err? then prev
      else
        var step := DecodeStep(prev.value.GetOr(FreshMessage()), items[|items| - 1]);
        if step.Err? then Err(step.error) else Ok(Some(step.value))
  }

  /** The messages the decoder returns: the current message, flushed once at
      the end. */
  function DecodeOutput(items: seq<OutputItem>): Result<seq<Message>> {
    var cur :- DecodeFold(items);
    Ok(if cur.Some? then [cur.value] else [])
  }

  /** `OpenAIResponseOutputCodec.createDecoder()`: one pass over
      `response.output`. */
  method DecodeResponseOutput(items: seq<OutputItem>) returns (r: Result<seq<Message>>)
    ensures r == DecodeOutput(items)
  {
    var cur: Option<Message> := None;
    for i := 0 to |items|
      invariant DecodeFold(items[..i]) == Ok(cur)
    {
      assert items[..i + 1][..i] == items[..i];
      var msg := if cur.Some? then cur.value else FreshMessage();
      var step := DecodeStep(msg, items[i]);
      if step.Err? {
        DecodeFoldErr(items, i + 1);
        return Err(step.error);
      }
      cur := Some(step.value);
    }
    assert items[..|items|] == items;
    assert DecodeFold(items) == Ok(cur);
    var messages: seq<Message> := [];
    if cur.Some? {
      messages := [cur.value];
    }
    return Ok(messages);
  }

  lemma {:induction false} DecodeFoldErr(items: seq<OutputItem>, i: nat)
    requires i <= |items| && DecodeFold(items[..i]).Err?
    ensures DecodeFold(items) == DecodeFold(items[..i])
    decreases |items| - i
  {
    if i < |items| {
      assert items[..i + 1][..i] == items[..i];
      DecodeFoldErr(items, i + 1);
    } else {
      assert items[..i] == items;
    }
  }

  // ---------------------------------------------------------------------
  // What the decoder computes, field by field

  /** The last `message` item, whose id, role and content win. */
  function LastMessage(items: seq<OutputItem>): (r: Option<OutputItem>)
    ensures r.Some? ==> r.value.MessageOutput? && r.value in items
  {
    if |items| == 0 then None
    else if items[|items| - 1].MessageOutput? then Some(items[|items| - 1])
    else LastMessage(items[..|items| - 1])
  }

  /** The tool calls of the `function_call` items, in order. */
  function Calls(items: seq<OutputItem>): (r: seq<ToolCall>)
    ensures |r| <= |items|
  {
    if |items| == 0 then []
    else
      var x := items[|items| - 1];
      Calls(items[..|items| - 1]) + (if x.FunctionCallItem? then [FromResponseToolCall(x)] else [])
  }

  /** Whether some reasoning item has a non-empty summary. */
  predicate Summarised(items: seq<OutputItem>) {
    exists i :: 0 <= i < |items| && items[i].ReasoningOutput? && items[i].summary.Some? && |items[i].summary.value| > 0
  }

  /** Every summary text, in order. */
  function SummaryTexts(items: seq<OutputItem>): seq<string> {
    if |items| == 0 then []
    else
      var x := items[|items| - 1];
      SummaryTexts(items[..|items| - 1]) + (if x.ReasoningOutput? && x.summary.Some? then x.summary.value else [])
  }

  /** The id of the last reasoning item. */
  function LastReasoningId(items: seq<OutputItem>): Option<string> {
    if |items| == 0 then None
    else if items[|items| - 1].ReasoningOutput? then Some(items[|items| - 1].id)
    else LastReasoningId(items[..|items| - 1])
  }

  /** `extra = {openai: {reasoning_id: id}}`. */
  function ReasoningExtra(id: string): Value {
    Obj(map[OPENAI_EXTRA_KEY := Obj(map["reasoning_id" := Str(id)])])
  }

  /** The message the decoder builds from items it knows, described field by
      field: the last message item's id, role and content, every function
      call, the summaries' text as reasoning, and the last reasoning id. */
  function Direct(items: seq<OutputItem>): Message {
    var last := LastMessage(items);
    var calls := Calls(items);
    var rid := LastReasoningId(items);
    Message(
      if last.Some? then Some(last.value.id) else None,
      None,
      if last.Some? then last.value.role else "assistant",
      None,
      if last.Some? then FromOutputContent(last.value.content) else Plain(""),
      if Summarised(items) then Some(Plain(Concat(SummaryTexts(items)))) else None,
      None,
      if |calls| > 0 then Some(calls) else None,
      if rid.Some? then Some(ReasoningExtra(rid.value)) else None)
  }

  /** The position of the first item of an unknown type. */
  function FirstUnknown(items: seq<OutputItem>): (r: Option<nat>)
    ensures r.Some? ==> r.value < |items| && items[r.value].OtherOutput?
  {
    if |items| == 0 then None
    else
      var prev := FirstUnknown(items[..|items| - 1]);
      if prev.Some? then prev
      else if items[|items| - 1].OtherOutput? then Some(|items| - 1)
      else None
  }

  /** `FirstUnknown` finds the first unknown item, and nothing when every
      item is known. */
  lemma {:induction false} FirstUnknownIff(items: seq<OutputItem>)
    ensures FirstUnknown(items).None? <==> forall i :: 0 <= i < |items| ==> !items[i].OtherOutput?
    ensures FirstUnknown(items).Some? ==>
      forall i :: 0 <= i < FirstUnknown(items).value ==> !items[i].OtherOutput?
  {
    if |items| > 0 {
      var init := items[..|items| - 1];
      FirstUnknownIff(init);
      assert forall i :: 0 <= i < |init| ==> init[i] == items[i];
    }
  }

  /** Text summaries appended to a string reasoning give the string joined
      with them. */
  lemma {:induction false} ConcatIntoPlains(x: string, ss: seq<string>)
    ensures ConcatInto(Plain(x), Plains(ss)) == Plain(x + Concat(ss))
  {
    if |ss| == 0 {
      assert Plains(ss) == [];
    } else {
      var init := ss[..|ss| - 1];
      assert Plains(ss)[..|ss| - 1] == Plains(init);
      ConcatIntoPlains(x, init);
      ConcatAppend(init, ss[|ss| - 1]);
      assert init + [ss[|ss| - 1]] == ss;
      StringAssoc(x, Concat(init), ss[|ss| - 1]);
    }
  }

  /** Without a non-empty summary there is no summary text. */
  lemma {:induction false} NoSummaryTexts(items: seq<OutputItem>)
    requires !Summarised(items)
    ensures SummaryTexts(items) == []
  {
    if |items| > 0 {
      var init := items[..|items| - 1];
      assert forall i :: 0 <= i < |init| ==> init[i] == items[i];
      NoSummaryTexts(init);
    }
  }

  /** Writing the reasoning id into no `extra`, or into one holding only an
      older reasoning id, leaves exactly the new one. */
  lemma SetReasoningId(m: Message, old_id: Option<string>, id: string)
    requires m.extra == if old_id.Some? then Some(ReasoningExtra(old_id.value)) else None
    ensures SetExtraField(m, OPENAI_EXTRA_KEY, "reasoning_id", Str(id)) == Ok(m.(extra := Some(ReasoningExtra(id))))
  {
    if old_id.None? {
      SetExtraFieldFresh(m, OPENAI_EXTRA_KEY, "reasoning_id", Str(id));
    } else {
      var inner := map["reasoning_id" := Str(old_id.value)];
      var outer := map[OPENAI_EXTRA_KEY := Obj(inner)];
      assert inner["reasoning_id" := Str(id)] == map["reasoning_id" := Str(id)];
      assert outer[OPENAI_EXTRA_KEY := Obj(inner["reasoning_id" := Str(id)])]
          == map[OPENAI_EXTRA_KEY := Obj(map["reasoning_id" := Str(id)])];
    }
  }

  lemma SummarisedAppend(init: seq<OutputItem>, x: OutputItem)
    ensures Summarised(init + [x]) <==>
      Summarised(init) || (x.ReasoningOutput? && x.summary.Some? && |x.summary.value| > 0)
  {
    var items := init + [x];
    assert forall i :: 0 <= i < |init| ==> items[i] == init[i];
    assert items[|init|] == x;
  }

  /** The field descriptions, one item further. */
  lemma DescriptionAppend(init: seq<OutputItem>, x: OutputItem)
    ensures LastMessage(init + [x]) == if x.MessageOutput? then Some(x) else LastMessage(init)
    ensures Calls(init + [x]) == Calls(init) + (if x.FunctionCallItem? then [FromResponseToolCall(x)] else [])
    ensures SummaryTexts(init + [x]) == SummaryTexts(init) + (if x.ReasoningOutput? && x.summary.Some? then x.summary.value else [])
    ensures LastReasoningId(init + [x]) == if x.ReasoningOutput? then Some(x.id) else LastReasoningId(init)
    ensures FirstUnknown(init + [x]) == if FirstUnknown(init).Some? then FirstUnknown(init)
      else if x.OtherOutput? then Some(|init|) else None
  {
    assert (init + [x])[..|init|] == init;
  }

  /** One known item moves the description from the items before it to the
      items with it. */
  lemma DirectStep(init: seq<OutputItem>, x: OutputItem)
    requires !x.OtherOutput?
    ensures DecodeStep(Direct(init), x) == Ok(Direct(init + [x]))
  {
    var items := init + [x];
    DescriptionAppend(init, x);
    SummarisedAppend(init, x);
    var d := Direct(init);
    if x.MessageOutput? {
      assert Calls(items) == Calls(init);
      assert SummaryTexts(items) == SummaryTexts(init);
    } else if x.FunctionCallItem? {
      assert SummaryTexts(items) == SummaryTexts(init);
    } else {
      assert Calls(items) == Calls(init);
      var m1 := d.(reasoning := NextReasoning(d.reasoning, x.summary));
      ReasoningStep(init, x);
      SetReasoningId(m1, LastReasoningId(init), x.id);
    }
  }

  /** What a reasoning item does to `reasoning`. */
  function NextReasoning(reasoning: Option<MessageContent>, summary: Option<seq<string>>): Option<MessageContent> {
    if summary.Some? && |summary.value| > 0
    then Some(ConcatInto(reasoning.GetOr(Plain("")), Plains(summary.value)))
    else reasoning
  }

  lemma ReasoningStep(init: seq<OutputItem>, x: OutputItem)
    requires x.ReasoningOutput?
    ensures NextReasoning(Direct(init).reasoning, x.summary) == Direct(init + [x]).reasoning
  {
    var items := init + [x];
    DescriptionAppend(init, x);
    SummarisedAppend(init, x);
    var summary := x.summary;
    if summary.Some? && |summary.value| > 0 {
      if !Summarised(init) {
        NoSummaryTexts(init);
      }
      ConcatIntoPlains(Concat(SummaryTexts(init)), summary.value);
      ConcatSplit(SummaryTexts(init), summary.value);
    } else if summary.Some? {
      assert SummaryTexts(init) + summary.value == SummaryTexts(init);
    } else {
      assert SummaryTexts(init) + [] == SummaryTexts(init);
    }
  }

  /** The decoder fails on the first item of an unknown type; otherwise it
      gives nothing for no items and the described message for some. */
  lemma {:induction false} DecodeFoldDirect(items: seq<OutputItem>)
    ensures DecodeFold(items) ==
      if FirstUnknown(items).Some? then Err(PlainError(UnknownItem(items[FirstUnknown(items).value].kind)))
      else if |items| == 0 then Ok(None)
      else Ok(Some(Direct(items)))
  {
    if |items| > 0 {
      var init := items[..|items| - 1];
      var x := items[|items| - 1];
      DecodeFoldDirect(init);
      assert init + [x] == items;
      DescriptionAppend(init, x);
      var k := FirstUnknown(init);
      var prev := DecodeFold(init);
      if k.Some? {
        assert items[k.value] == init[k.value];
        assert DecodeFold(items) == prev;
      } else if x.OtherOutput? {
        assert FirstUnknown(items) == Some(|init|);
        assert DecodeStep(prev.value.GetOr(FreshMessage()), x).Err?;
      } else {
        assert prev.value.GetOr(FreshMessage()) == Direct(init) by {
          assert Direct([]) == FreshMessage();
        }
        DirectStep(init, x);
        assert DecodeFold(items) == Ok(Some(Direct(items)));
      }
    }
  }

  /** The decoder returns at most one message, one exactly when the response
      has output items, and fails exactly when one of them has an unknown
      type. */
  lemma DecodeOutputShape(items: seq<OutputItem>)
    ensures DecodeOutput(items).Ok? <==> forall i :: 0 <= i < |items| ==> !items[i].OtherOutput?
    ensures DecodeOutput(items).Ok? ==>
      |DecodeOutput(items).value| == (if |items| == 0 then 0 else 1)
      && (|items| > 0 ==> DecodeOutput(items).value[0] == Direct(items))
  {
    DecodeFoldDirect(items);
    FirstUnknownIff(items);
  }

  // ---------------------------------------------------------------------
  // Encoding an assistant turn and reading it back

  /** The output item the Responses API reports for an input item it echoes:
      an assistant message of output text (unannotated), a reasoning item
      with a string id and the empty summary the encoder sent, a function
      call. Other input items have no output form. */
  function EchoItem(x: InputItem): Option<OutputItem> {
    match x
    case ReasoningInput(v) => if v.Str? then Some(ReasoningOutput(v.s, Some([]))) else None
    case AssistantMessageInput(id, cs) =>
      if forall i :: 0 <= i < |cs| ==> cs[i].OutputText?
      then Some(MessageOutput(id, "assistant", Some(seq(|cs|, i requires 0 <= i < |cs| => OutputTextItem(cs[i].text, 0)))))
      else None
    case FunctionCallInput(name, cid, args, fc) => Some(FunctionCallItem(cid, name, args, fc))
    case _ => None
  }

  predicate Echoable(items: seq<InputItem>) {
    forall i :: 0 <= i < |items| ==> EchoItem(items[i]).Some?
  }

  function Echo(items: seq<InputItem>): (r: seq<OutputItem>)
    requires Echoable(items)
    ensures |r| == |items|
  {
    seq(|items|, i requires 0 <= i < |items| => EchoItem(items[i]).value)
  }

  /** An assistant turn the Responses mapping carries unchanged: an id, text
      content (non-empty when there are tool calls, as the encoder drops an
      empty message item then), tool calls with a `call_id`, a non-empty id
      or none, and no `extra`, and at most a reasoning id in `extra`. */
  predicate RoundTrips(m: Message, rid: Option<string>) {
    && m.role == "assistant" && m.id.Some? && m.call_id.None? && m.name.None?
    && m.content.Plain? && m.reasoning.None? && m.refusal.None?
    && (m.content.s != "" || !HasToolCalls(m))
    && (m.tool_calls.Some? ==> HasToolCalls(m) && CallsRoundTrip(m.tool_calls.value))
    && m.extra == (if rid.Some? then Some(ReasoningExtra(rid.value)) else None)
    && (rid.Some? ==> rid.value != "")
  }

  predicate CallsRoundTrip(tcs: seq<ToolCall>) {
    forall j :: 0 <= j < |tcs| ==>
      tcs[j].call_id.Some? && tcs[j].extra.None? && (tcs[j].id.Some? ==> tcs[j].id.value != "")
  }

  /** Trailing function calls add their tool calls and change nothing else. */
  lemma {:induction false} DescriptionCalls(pre: seq<OutputItem>, calls: seq<OutputItem>)
    requires forall j :: 0 <= j < |calls| ==> calls[j].FunctionCallItem?
    ensures LastMessage(pre + calls) == LastMessage(pre)
    ensures SummaryTexts(pre + calls) == SummaryTexts(pre)
    ensures LastReasoningId(pre + calls) == LastReasoningId(pre)
    ensures FirstUnknown(pre + calls) == FirstUnknown(pre)
  {
    if |calls| > 0 {
      var init := calls[..|calls| - 1];
      var x := calls[|calls| - 1];
      DescriptionCalls(pre, init);
      assert pre + calls == (pre + init) + [x];
      DescriptionAppend(pre + init, x);
      assert SummaryTexts(pre + init) + [] == SummaryTexts(pre + init);
    } else {
      assert pre + calls == pre;
    }
  }

  lemma SummarisedCalls(pre: seq<OutputItem>, calls: seq<OutputItem>)
    requires forall j :: 0 <= j < |calls| ==> calls[j].FunctionCallItem?
    ensures Summarised(pre + calls) == Summarised(pre)
  {
    var all := pre + calls;
    assert forall i :: 0 <= i < |all| ==> all[i] == if i < |pre| then pre[i] else calls[i - |pre|];
  }

  /** `Calls` of a concatenation. */
  lemma {:induction false} CallsConcat(a: seq<OutputItem>, b: seq<OutputItem>)
    ensures Calls(a + b) == Calls(a) + Calls(b)
  {
    if |b| > 0 {
      var init := b[..|b| - 1];
      var x := b[|b| - 1];
      CallsConcat(a, init);
      assert a + b == (a + init) + [x];
      assert init + [x] == b;
      DescriptionAppend(a + init, x);
      DescriptionAppend(init, x);
      CallsAssoc(Calls(a), Calls(init), if x.FunctionCallItem? then [FromResponseToolCall(x)] else []);
    } else {
      assert a + b == a;
    }
  }

  lemma CallsAssoc(a: seq<ToolCall>, b: seq<ToolCall>, c: seq<ToolCall>)
    ensures (a + b) + c == a + (b + c)
  {
  }

  /** The tool calls read back from the function calls sent for `tcs`. */
  lemma {:induction false} CallsBack(tcs: seq<ToolCall>, items: seq<InputItem>)
    requires CallItemsFor(items, tcs) && CallsRoundTrip(tcs)
    ensures Echoable(items)
    ensures forall j :: 0 <= j < |items| ==> Echo(items)[j].FunctionCallItem?
    ensures Calls(Echo(items)) == tcs
  {
    if |tcs| > 0 {
      var k := |tcs| - 1;
      CallsBack(tcs[..k], items[..k]);
      var e := Echo(items);
      assert e[..k] == Echo(items[..k]);
      assert Calls(e) == Calls(e[..k]) + [FromResponseToolCall(e[k])];
      assert tcs[..k] + [tcs[k]] == tcs;
    }
  }

  /** The head the encoder sends for such a turn: its reasoning item, if
      any, then its message under its own id. */
  function TurnHead(m: Message, rid: Option<string>): seq<InputItem>
    requires RoundTrips(m, rid)
  {
    var content := if m.content.s == "" then [] else [OutputText(m.content.s)];
    (if rid.Some? then [ReasoningInput(Str(rid.value))] else []) + [AssistantMessageInput(m.id.value, content)]
  }

  lemma HeadItems(m: Message, rid: Option<string>, n: nat, uid: nat -> string)
    requires RoundTrips(m, rid)
    ensures MessageItem(m, ToResponseInputContent(m.role, m.content).value, n, uid) == (TurnHead(m, rid), n)
  {
    assert ReasoningIdOf(m) == if rid.Some? then Some(Str(rid.value)) else None;
  }

  /** The message item such a turn echoes as. */
  function TurnOutput(m: Message): OutputItem
    requires m.id.Some? && m.content.Plain?
  {
    MessageOutput(m.id.value, "assistant", Some(if m.content.s == "" then [] else [OutputTextItem(m.content.s, 0)]))
  }

  lemma TurnEcho(m: Message, rid: Option<string>)
    requires RoundTrips(m, rid)
    ensures Echoable(TurnHead(m, rid))
    ensures Echo(TurnHead(m, rid)) ==
      (if rid.Some? then [ReasoningOutput(rid.value, Some([]))] else []) + [TurnOutput(m)]
    ensures FromOutputContent(TurnOutput(m).content) == m.content
  {
    var head := TurnHead(m, rid);
    var cs := head[|head| - 1].content;
    var echoed := seq(|cs|, i requires 0 <= i < |cs| => OutputTextItem(cs[i].text, 0));
    assert echoed == TurnOutput(m).content.value by {
      if m.content.s != "" {
        assert cs == [OutputText(m.content.s)];
      }
    }
    assert EchoItem(head[|head| - 1]) == Some(TurnOutput(m));
  }

  /** The echoed head decodes to the turn without its tool calls. */
  lemma HeadBack(m: Message, rid: Option<string>)
    requires RoundTrips(m, rid)
    ensures Echoable(TurnHead(m, rid))
    ensures FirstUnknown(Echo(TurnHead(m, rid))).None?
    ensures Direct(Echo(TurnHead(m, rid))) == m.(tool_calls := None)
  {
    TurnEcho(m, rid);
    var out := TurnOutput(m);
    if rid.Some? {
      var r := ReasoningOutput(rid.value, Some([]));
      ReadBackReasoned(r, out);
    } else {
      assert [] + [out] == [out];
      DescriptionAppend([], out);
      SummarisedAppend([], out);
    }
  }

  lemma ReadBackReasoned(r: OutputItem, out: OutputItem)
    requires r.ReasoningOutput? && r.summary == Some([]) && out.MessageOutput?
    ensures FirstUnknown([r] + [out]).None?
    ensures Direct([r] + [out]) ==
      Message(Some(out.id), None, out.role, None, FromOutputContent(out.content), None, None, None, Some(ReasoningExtra(r.id)))
  {
    assert [] + [r] == [r];
    DescriptionAppend([], r);
    DescriptionAppend([r], out);
    SummarisedAppend([], r);
    SummarisedAppend([r], out);
  }

  /** One message encodes as its own items. */
  lemma EncodeOne(m: Message, n: nat, uid: nat -> string)
    ensures EncodeFold([m], n, uid) == MessageItems(m, n, uid)
  {
    assert [m][..0] == [];
    if MessageItems(m, n, uid).Ok? {
      assert [] + MessageItems(m, n, uid).value.0 == MessageItems(m, n, uid).value.0;
    }
  }

  /** Such a turn encodes without drawing an id, and the echoed items decode
      back to exactly that turn. */
  lemma EncodeDecodeRoundTrip(m: Message, rid: Option<string>, n: nat, uid: nat -> string)
    requires RoundTrips(m, rid)
    ensures EncodeFold([m], n, uid).Ok?
    ensures EncodeFold([m], n, uid).value.1 == n
    ensures Echoable(EncodeFold([m], n, uid).value.0)
    ensures DecodeOutput(Echo(EncodeFold([m], n, uid).value.0)) == Ok([m])
  {
    var items := EncodeTurn(m, rid, n, uid);
    RoundTripItems(m, rid, items);
  }

  /** What the encoder sends for such a turn: its head, then its calls. */
  lemma EncodeTurn(m: Message, rid: Option<string>, n: nat, uid: nat -> string) returns (items: seq<InputItem>)
    requires RoundTrips(m, rid)
    ensures EncodeFold([m], n, uid) == Ok((items, n))
    ensures TurnHead(m, rid) <= items && CallItemsFor(items[|TurnHead(m, rid)|..], SentCalls(m))
  {
    EncodeOne(m, n, uid);
    var content := ToResponseInputContent(m.role, m.content).value;
    assert |content| > 0 || !HasToolCalls(m);
    var sent := SentCalls(m);
    assert forall j :: 0 <= j < |sent| ==> sent[j].call_id.Some?;
    var r := NonToolItems(m, content, n, uid);
    assert MessageItems(m, n, uid) == Ok(r);
    HeadItems(m, rid, n, uid);
    items := r.0;
  }

  lemma RoundTripItems(m: Message, rid: Option<string>, items: seq<InputItem>)
    requires RoundTrips(m, rid)
    requires TurnHead(m, rid) <= items && CallItemsFor(items[|TurnHead(m, rid)|..], SentCalls(m))
    ensures Echoable(items) && DecodeOutput(Echo(items)) == Ok([m])
  {
    var head := TurnHead(m, rid);
    var calls := items[|head|..];
    assert items == head + calls;
    CallsBack(SentCalls(m), calls);
    HeadBack(m, rid);
    EchoConcat(head, calls);
    DecodeJoin(m, Echo(head), Echo(calls));
  }

  lemma EchoConcat(a: seq<InputItem>, b: seq<InputItem>)
    requires Echoable(a) && Echoable(b)
    ensures Echoable(a + b) && Echo(a + b) == Echo(a) + Echo(b)
  {
    var ab := a + b;
    assert forall i :: 0 <= i < |ab| ==> ab[i] == if i < |a| then a[i] else b[i - |a|];
  }

  /** A decoded head followed by function calls carrying the message's tool
      calls decodes to the message. */
  lemma DecodeJoin(m: Message, pre: seq<OutputItem>, calls: seq<OutputItem>)
    requires FirstUnknown(pre).None? && |pre| > 0 && Direct(pre) == m.(tool_calls := None)
    requires forall j :: 0 <= j < |calls| ==> calls[j].FunctionCallItem?
    requires m.tool_calls == if |Calls(calls)| > 0 then Some(Calls(calls)) else None
    ensures DecodeOutput(pre + calls) == Ok([m])
  {
    DirectCalls(pre, calls);
    assert Calls(pre) == [];
    assert Calls(pre) + Calls(calls) == Calls(calls);
    DecodeOutputShape(pre + calls);
    FirstUnknownIff(pre + calls);
  }

  /** The described message with trailing function calls. */
  lemma DirectCalls(pre: seq<OutputItem>, calls: seq<OutputItem>)
    requires forall j :: 0 <= j < |calls| ==> calls[j].FunctionCallItem?
    requires FirstUnknown(pre).None? && |pre| > 0
    ensures FirstUnknown(pre + calls).None?
    ensures Direct(pre + calls) ==
      Direct(pre).(tool_calls := if |Calls(pre) + Calls(calls)| > 0 then Some(Calls(pre) + Calls(calls)) else None)
  {
    DescriptionCalls(pre, calls);
    SummarisedCalls(pre, calls);
    CallsConcat(pre, calls);
  }
}
