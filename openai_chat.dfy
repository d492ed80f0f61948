/**
 The OpenAI Chat Completions mapping: canonical messages to Chat input
 messages, Chat output messages and completions back to canonical
 messages and a step result.
 */
module OpenAIChat {
  import opened Wrappers
  import opened Content
  import opened Messages
  import opened Step

  // ---------------------------------------------------------------------
  // Wire shapes (only the fields the mapping reads or writes)

  /** A key of a built object: left out, written as `undefined`, or set. */
  datatype Field<+T> = Absent | Undef | Present(value: T)

  datatype ChatPart =
    | TextChatPart(text: string)
    | RefusalChatPart(refusal: string)
    | ImageUrlPart(url: string)
    | InputAudioPart(data: string, format: string)
    | FileChatPart(file_id: Option<string>, filename: Option<string>, file_data: Option<string>)
    | UnknownChatPart(kind: string)

  /** `null`/`undefined`, a string, or a part array. */
  datatype ChatContent = NullContent | StrContent(s: string) | PartsContent(parts: seq<ChatPart>)

  datatype ChatToolCall =
    | FunctionCall(id: string, name: string, arguments: string)
    | CustomCall(id: string, name: string, input: string)

  /** An input message: a tool result, or any other role. */
  datatype ChatInputMessage =
    | ToolInput(tool_call_id: string, text: string)
    | RoleInput(
        role: string,
        name: Field<string>,
        content: ChatContent,
        tool_calls: Field<seq<ChatToolCall>>,
        refusal: Option<string>)

  /** An output message; `refusal` is `None` when absent or `null`. */
  datatype ChatOutputMessage = ChatOutputMessage(
    role: string,
    content: ChatContent,
    tool_calls: Option<seq<ChatToolCall>>,
    refusal: Option<string>)

  datatype ChatChoice = ChatChoice(message: ChatOutputMessage)

  /** `created` is in seconds since the epoch. */
  datatype ChatCompletion = ChatCompletion(id: string, created: int, model: string, choices: seq<ChatChoice>)

  const ERR_IMAGE := "Image content part must have url or data."
  const ERR_AUDIO := "Audio content part must have data."

  function UnknownType(kind: string): string {
    "Unknown type: '" + kind + "'"
  }

  // ---------------------------------------------------------------------
  // Encoding

  /** `toChatCompletionContent` on one part. */
  function ToChatPart(p: ContentPart): (r: Result<ChatPart>)
    ensures p.Text? ==> r == Ok(TextChatPart(p.text))
    ensures p.Image? ==>
      (r.Ok? <==> NonEmpty(p.attrs.url) || NonEmpty(p.attrs.data))
      && (r.Err? ==> r.error == PlainError(ERR_IMAGE))
      && (NonEmpty(p.attrs.url) ==> r == Ok(ImageUrlPart(p.attrs.url.value)))
      && (!NonEmpty(p.attrs.url) && NonEmpty(p.attrs.data) ==>
            r == Ok(ImageUrlPart("data:image/" + p.attrs.format.GetOr("png") + ";base64," + p.attrs.data.value)))
    ensures p.Audio? ==>
      (r.Ok? <==> NonEmpty(p.attrs.data))
      && (r.Err? ==> r.error == PlainError(ERR_AUDIO))
      && (r.Ok? ==> r.value == InputAudioPart(p.attrs.data.value, p.attrs.format.GetOr("wav")))
    ensures p.File? ==> r.Ok? && r.value.FileChatPart?
    ensures p.File? ==>
      (r.value.file_id.Some? <==> NonEmpty(p.attrs.file_id))
      && (r.value.filename.Some? <==> NonEmpty(p.attrs.name))
      && (r.value.file_data.Some? <==> NonEmpty(p.attrs.data))
  {
    match p
    case Text(t) => Ok(TextChatPart(t))
    case Image(a) =>
      if NonEmpty(a.url) then Ok(ImageUrlPart(a.url.value))
      else if NonEmpty(a.data) then Ok(ImageUrlPart("data:image/" + a.format.GetOr("png") + ";base64," + a.data.value))
      else Err(PlainError(ERR_IMAGE))
    case Audio(a) =>
      if !NonEmpty(a.data) then Err(PlainError(ERR_AUDIO))
      else Ok(InputAudioPart(a.data.value, a.format.GetOr("wav")))
    case File(a) =>
      Ok(FileChatPart(
        if NonEmpty(a.file_id) then a.file_id else None,
        if NonEmpty(a.name) then a.name else None,
        if NonEmpty(a.data) then a.data else None))
  }

  /** `toChatCompletionContent`: a string passes through, parts map one to
      one in order. */
  function ToChatContent(c: MessageContent): (r: Result<ChatContent>)
    ensures c.Plain? ==> r == Ok(StrContent(c.s))
    ensures c.Parts? ==> (r.Ok? <==> forall i :: 0 <= i < |c.parts| ==> ToChatPart(c.parts[i]).Ok?)
    ensures c.Parts? && r.Ok? ==>
      r.value.PartsContent? && |r.value.parts| == |c.parts|
      && forall i :: 0 <= i < |c.parts| ==> r.value.parts[i] == ToChatPart(c.parts[i]).value
  {
    match c
    case Plain(s) => Ok(StrContent(s))
    case Parts(ps) =>
      var q :- MapResult(ps, ToChatPart);
      Ok(PartsContent(q))
  }

  function ToChatToolCall(tc: ToolCall): ChatToolCall {
    FunctionCall(tc.id.GetOr(""), tc.name, tc.arguments)
  }

  function ToChatToolCalls(tcs: seq<ToolCall>): (r: seq<ChatToolCall>)
    ensures |r| == |tcs|
    ensures forall i :: 0 <= i < |tcs| ==>
      r[i] == FunctionCall(tcs[i].id.GetOr(""), tcs[i].name, tcs[i].arguments)
  {
    seq(|tcs|, i requires 0 <= i < |tcs| => ToChatToolCall(tcs[i]))
  }

  /** One message of `OpenAIChatInputCodec`'s encoder. */
  function ToChatMessage(m: Message): (r: Result<ChatInputMessage>)
    ensures m.role == "tool" ==>
      r == Ok(ToolInput(m.call_id.GetOr(m.id.GetOr("")), MessageContentToText(m.content)))
    ensures m.role != "tool" ==> (r.Ok? <==> ToChatContent(m.content).Ok?)
    ensures m.role != "tool" && r.Ok? ==>
      r.value.RoleInput? && r.value.role == m.role
      && r.value.content == ToChatContent(m.content).value
      && (r.value.name == if m.name.Some? then Present(m.name.value) else Absent)
      && (r.value.tool_calls.Present? <==> m.tool_calls.Some? && |m.tool_calls.value| > 0)
      && (r.value.tool_calls.Present? ==> r.value.tool_calls.value == ToChatToolCalls(m.tool_calls.value))
      && !r.value.tool_calls.Undef?
      && (r.value.refusal.Some? <==> m.refusal.Some?)
      && (r.value.refusal.Some? ==> r.value.refusal.value == MessageContentToText(m.refusal.value))
  {
    if m.role == "tool" then
      Ok(ToolInput(m.call_id.GetOr(m.id.GetOr("")), MessageContentToText(m.content)))
    else
      var content :- ToChatContent(m.content);
      Ok(RoleInput(
        m.role,
        if m.name.Some? then Present(m.name.value) else Absent,
        content,
        if m.tool_calls.Some? && |m.tool_calls.value| > 0 then Present(ToChatToolCalls(m.tool_calls.value)) else Absent,
        if m.refusal.Some? then Some(MessageContentToText(m.refusal.value)) else None))
  }

  /** `OpenAIChatInputCodec`'s encoder: the `messages` of the request. A tool
      message never fails, whatever parts its content holds. */
  function EncodeChatMessages(ms: seq<Message>): (r: Result<seq<ChatInputMessage>>)
    ensures r.Ok? <==> forall i :: 0 <= i < |ms| ==> ms[i].role == "tool" || ToChatContent(ms[i].content).Ok?
    ensures r.Ok? ==> |r.value| == |ms| && forall i :: 0 <= i < |ms| ==> r.value[i] == ToChatMessage(ms[i]).value
  {
    MapResult(ms, ToChatMessage)
  }

  // ---------------------------------------------------------------------
  // Decoding

  /** `fromChatCompletionContent` on one part: a refusal becomes text, a
      file keeps only its non-empty fields. */
  function FromChatPart(p: ChatPart): (r: Result<ContentPart>)
    ensures r.Ok? <==> !p.UnknownChatPart?
    ensures p.UnknownChatPart? ==> r == Err(PlainError(UnknownType(p.kind)))
    ensures p.TextChatPart? ==> r == Ok(Text(p.text))
    ensures p.RefusalChatPart? ==> r == Ok(Text(p.refusal))
    ensures p.ImageUrlPart? ==> r == Ok(Image(FileAttrs(None, None, None, Some(p.url), None)))
    ensures p.InputAudioPart? ==> r == Ok(Audio(FileAttrs(Some(p.format), None, None, None, Some(p.data))))
    ensures p.FileChatPart? ==> r.value.File? && r.value.attrs.format.None? && r.value.attrs.url.None?
    ensures p.FileChatPart? ==>
      (r.value.attrs.file_id.Some? <==> NonEmpty(p.file_id))
      && (r.value.attrs.name.Some? <==> NonEmpty(p.filename))
      && (r.value.attrs.data.Some? <==> NonEmpty(p.file_data))
  {
    match p
    case TextChatPart(t) => Ok(Text(t))
    case RefusalChatPart(t) => Ok(Text(t))
    case FileChatPart(fid, fname, fdata) =>
      Ok(File(FileAttrs(
        None,
        if NonEmpty(fid) then fid else None,
        if NonEmpty(fname) then fname else None,
        None,
        if NonEmpty(fdata) then fdata else None)))
    case ImageUrlPart(u) => Ok(Image(FileAttrs(None, None, None, Some(u), None)))
    case InputAudioPart(d, f) => Ok(Audio(FileAttrs(Some(f), None, None, None, Some(d))))
    case UnknownChatPart(k) => Err(PlainError(UnknownType(k)))
  }

  predicate IsSingleText(ps: seq<ChatPart>) {
    |ps| == 1 && ps[0].TextChatPart?
  }

  /** `fromChatCompletionContent`: no content gives `""`, a string passes
      through, a lone text part collapses to its string. */
  function FromChatContent(c: ChatContent): (r: Result<MessageContent>)
    ensures c.NullContent? ==> r == Ok(Plain(""))
    ensures c.StrContent? ==> r == Ok(Plain(c.s))
    ensures c.PartsContent? && IsSingleText(c.parts) ==> r == Ok(Plain(c.parts[0].text))
    ensures c.PartsContent? && !IsSingleText(c.parts) ==>
      (r.Ok? <==> forall i :: 0 <= i < |c.parts| ==> !c.parts[i].UnknownChatPart?)
      && (r.Ok? ==> r.value.Parts? && |r.value.parts| == |c.parts|
                    && forall i :: 0 <= i < |c.parts| ==> r.value.parts[i] == FromChatPart(c.parts[i]).value)
  {
    match c
    case NullContent => Ok(Plain(""))
    case StrContent(s) => Ok(Plain(s))
    case PartsContent(ps) =>
      if IsSingleText(ps) then Ok(Plain(ps[0].text))
      else
        var q :- MapResult(ps, FromChatPart);
        Ok(Parts(q))
  }

  /** `fromChatCompletionToolCall`: a function call and a custom call both
      give `{id, name, arguments}`. */
  function FromChatToolCall(tc: ChatToolCall): (r: ToolCall)
    ensures r.id == Some(tc.id) && r.call_id.None? && r.extra.None?
    ensures r.name == tc.name
    ensures r.arguments == if tc.FunctionCall? then tc.arguments else tc.input
  {
    match tc
    case FunctionCall(id, name, args) => ToolCall(Some(id), None, name, args, None)
    case CustomCall(id, name, input) => ToolCall(Some(id), None, name, input, None)
  }

  function FromChatToolCalls(tcs: seq<ChatToolCall>): (r: seq<ToolCall>)
    ensures |r| == |tcs|
    ensures forall i :: 0 <= i < |tcs| ==> r[i] == FromChatToolCall(tcs[i])
  {
    seq(|tcs|, i requires 0 <= i < |tcs| => FromChatToolCall(tcs[i]))
  }

  /** One message of `OpenAIChatMessagesCodec`'s decoder. */
  function FromChatMessage(api: ChatOutputMessage): (r: Result<Message>)
    ensures r.Ok? <==> FromChatContent(api.content).Ok?
    ensures r.Ok? ==>
      r.value.role == api.role && r.value.content == FromChatContent(api.content).value
      && r.value.id.None? && r.value.call_id.None? && r.value.name.None?
      && r.value.reasoning.None? && r.value.extra.None?
      && (r.value.tool_calls.Some? <==> api.tool_calls.Some? && |api.tool_calls.value| > 0)
      && (r.value.tool_calls.Some? ==> r.value.tool_calls.value == FromChatToolCalls(api.tool_calls.value))
      && (r.value.refusal.Some? <==> api.refusal.Some?)
      && (api.refusal.Some? ==> r.value.refusal == Some(Plain(api.refusal.value)))
  {
    var content :- FromChatContent(api.content);
    var m := NewMessage(api.role, content);
    var m := if api.tool_calls.Some? && |api.tool_calls.value| > 0 then m.(tool_calls := Some(FromChatToolCalls(api.tool_calls.value))) else m;
    Ok(if api.refusal.Some? then m.(refusal := Some(Plain(api.refusal.value))) else m)
  }

  /** `OpenAIChatMessagesCodec`'s decoder: one message per API message, in
      order. */
  function DecodeChatMessages(api: seq<ChatOutputMessage>): (r: Result<seq<Message>>)
    ensures r.Ok? <==> forall i :: 0 <= i < |api| ==> FromChatContent(api[i].content).Ok?
    ensures r.Ok? ==> |r.value| == |api| && forall i :: 0 <= i < |api| ==> r.value[i] == FromChatMessage(api[i]).value
  {
    MapResult(api, FromChatMessage)
  }

  function ChoiceMessages(choices: seq<ChatChoice>): (r: seq<ChatOutputMessage>)
    ensures |r| == |choices| && forall i :: 0 <= i < |choices| ==> r[i] == choices[i].message
  {
    seq(|choices|, i requires 0 <= i < |choices| => choices[i].message)
  }

  /** `OpenAIChatResponseCodec`'s step decoder: the choices' messages, and
      the completion's id, time in milliseconds and model as metadata. */
  function DecodeChatCompletion(res: ChatCompletion): (r: Result<StepResult>)
    ensures r.Ok? <==> DecodeChatMessages(ChoiceMessages(res.choices)).Ok?
    ensures r.Ok? ==>
      r.value.messages == DecodeChatMessages(ChoiceMessages(res.choices)).value
      && r.value.metadata == Some(ResultMetadata(res.id, res.created * 1000, res.model))
      && r.value.token_usage.None?
  {
    var messages :- DecodeChatMessages(ChoiceMessages(res.choices));
    Ok(StepResult(messages, None, Some(ResultMetadata(res.id, res.created * 1000, res.model))))
  }

  // ---------------------------------------------------------------------
  // Round trips

  /** The parts that come back from the wire as they went: text, an image
      given only by a URL, audio with data and format, a file without
      empty fields. */
  predicate ChatCanonical(p: ContentPart) {
    match p
    case Text(_) => true
    case Image(a) => a.url.Some? && a.url.value != "" && a == FileAttrs(None, None, None, a.url, None)
    case Audio(a) =>
      a.format.Some? && a.data.Some? && a.data.value != "" && a == FileAttrs(a.format, None, None, None, a.data)
    case File(a) =>
      a.format.None? && a.url.None?
      && (a.file_id.Some? ==> a.file_id.value != "")
      && (a.name.Some? ==> a.name.value != "")
      && (a.data.Some? ==> a.data.value != "")
  }

  lemma PartRoundTrip(p: ContentPart)
    requires ChatCanonical(p)
    ensures ToChatPart(p).Ok? && FromChatPart(ToChatPart(p).value) == Ok(p)
  {
  }

  /** Encoding then decoding a content keeps it, except that a lone text
      part comes back as its string. */
  lemma ContentRoundTrip(c: MessageContent)
    requires c.Parts? ==> forall i :: 0 <= i < |c.parts| ==> ChatCanonical(c.parts[i])
    ensures ToChatContent(c).Ok?
    ensures FromChatContent(ToChatContent(c).value)
            == Ok(if c.Parts? && |c.parts| == 1 && c.parts[0].Text? then Plain(c.parts[0].text) else c)
  {
    if c.Parts? {
      var ps := c.parts;
      forall i | 0 <= i < |ps| ensures ToChatPart(ps[i]).Ok? && FromChatPart(ToChatPart(ps[i]).value) == Ok(ps[i]) {
        PartRoundTrip(ps[i]);
      }
      var q := ToChatContent(c).value.parts;
      if !(|ps| == 1 && ps[0].Text?) {
        assert !IsSingleText(q) by {
          if |q| == 1 { assert q[0] == ToChatPart(ps[0]).value; }
        }
        var back := FromChatContent(PartsContent(q)).value.parts;
        assert back == ps;
      }
    }
  }

  /** A tool call with an id comes back as it went. */
  lemma ChatToolCallRoundTrip(tc: ToolCall)
    requires tc.id.Some? && tc.call_id.None? && tc.extra.None?
    ensures FromChatToolCall(ToChatToolCall(tc)) == tc
  {
  }

  /** An input message read back as the output message an API would echo. */
  function Echo(i: ChatInputMessage): ChatOutputMessage {
    match i
    case ToolInput(_, text) => ChatOutputMessage("tool", StrContent(text), None, None)
    case RoleInput(role, _, content, tcs, refusal) =>
      ChatOutputMessage(role, content, if tcs.Present? then Some(tcs.value) else None, refusal)
  }

  /** Which messages the Chat encoding carries through unchanged. */
  predicate ChatRoundTrips(m: Message) {
    && m.role != "tool"
    && m.id.None? && m.call_id.None? && m.name.None? && m.reasoning.None? && m.extra.None?
    && (m.content.Parts? ==>
          (forall i :: 0 <= i < |m.content.parts| ==> ChatCanonical(m.content.parts[i]))
          && !(|m.content.parts| == 1 && m.content.parts[0].Text?))
    && (m.refusal.Some? ==> m.refusal.value.Plain?)
    && (m.tool_calls.Some? ==>
          |m.tool_calls.value| > 0
          && forall k :: 0 <= k < |m.tool_calls.value| ==>
               m.tool_calls.value[k].id.Some? && m.tool_calls.value[k].call_id.None? && m.tool_calls.value[k].extra.None?)
  }

  /** Decoding what the encoder wrote gives the message back. */
  lemma MessageRoundTrip(m: Message)
    requires ChatRoundTrips(m)
    ensures ToChatMessage(m).Ok?
    ensures FromChatMessage(Echo(ToChatMessage(m).value)) == Ok(m)
  {
    ContentRoundTrip(m.content);
    if m.tool_calls.Some? {
      var tcs := m.tool_calls.value;
      var back := FromChatToolCalls(ToChatToolCalls(tcs));
      forall k | 0 <= k < |tcs| ensures back[k] == tcs[k] {
        ChatToolCallRoundTrip(tcs[k]);
      }
      assert back == tcs;
    }
  }
}
