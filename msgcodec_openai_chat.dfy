/**
 The deprecated Chat Completions mapping of the message codecs: text-only
 parts on the way out, a bare message list, and no refusal on the way in.
 Content decoding is the same as in the current mapping.
 */
module MsgCodecOpenAIChat {
  import opened Wrappers
  import opened Content
  import opened Messages
  import opened OpenAIChat

  function PartKind(p: ContentPart): string {
    match p
    case Text(_) => "text"
    case Image(_) => "image"
    case Audio(_) => "audio"
    case File(_) => "file"
  }

  /** Only text parts are encoded; any other part is an unknown type. */
  function ToTextOnlyPart(p: ContentPart): (r: Result<ChatPart>)
    ensures r.Ok? <==> p.Text?
    ensures p.Text? ==> r.value == TextChatPart(p.text)
    ensures !p.Text? ==> r == Err(PlainError(UnknownType(PartKind(p))))
  {
    if p.Text? then Ok(TextChatPart(p.text)) else Err(PlainError(UnknownType(PartKind(p))))
  }

  predicate AllText(ps: seq<ContentPart>) {
    forall i :: 0 <= i < |ps| ==> ps[i].Text?
  }

  function ToTextOnlyContent(c: MessageContent): (r: Result<ChatContent>)
    ensures c.Plain? ==> r == Ok(StrContent(c.s))
    ensures c.Parts? ==> (r.Ok? <==> AllText(c.parts))
    ensures c.Parts? && r.Ok? ==>
      r.value.PartsContent? && |r.value.parts| == |c.parts|
      && forall i :: 0 <= i < |c.parts| ==> r.value.parts[i] == TextChatPart(c.parts[i].text)
  {
    match c
    case Plain(s) => Ok(StrContent(s))
    case Parts(ps) =>
      var q :- MapResult(ps, ToTextOnlyPart);
      Ok(PartsContent(q))
  }

  /** One message of the deprecated encoder: the `name` key is always
      written, `tool_calls` only when there are any, and a tool message is
      not treated apart. */
  function ToLegacyChatMessage(m: Message): (r: Result<ChatInputMessage>)
    ensures r.Ok? <==> ToTextOnlyContent(m.content).Ok?
    ensures r.Ok? ==>
      r.value.RoleInput? && r.value.role == m.role
      && r.value.content == ToTextOnlyContent(m.content).value
      && (r.value.name == if m.name.Some? then Present(m.name.value) else Undef)
      && (r.value.tool_calls.Present? <==> m.tool_calls.Some? && |m.tool_calls.value| > 0)
      && (r.value.tool_calls.Present? ==> r.value.tool_calls.value == ToChatToolCalls(m.tool_calls.value))
      && !r.value.tool_calls.Undef? && r.value.refusal.None?
  {
    var content :- ToTextOnlyContent(m.content);
    Ok(RoleInput(
      m.role,
      if m.name.Some? then Present(m.name.value) else Undef,
      content,
      if m.tool_calls.Some? && |m.tool_calls.value| > 0 then Present(ToChatToolCalls(m.tool_calls.value)) else Absent,
      None))
  }

  /** The deprecated encoder returns the message list itself. */
  function EncodeLegacyChat(ms: seq<Message>): (r: Result<seq<ChatInputMessage>>)
    ensures r.Ok? <==> forall i :: 0 <= i < |ms| ==> ToTextOnlyContent(ms[i].content).Ok?
    ensures r.Ok? ==> |r.value| == |ms| && forall i :: 0 <= i < |ms| ==> r.value[i] == ToLegacyChatMessage(ms[i]).value
  {
    MapResult(ms, ToLegacyChatMessage)
  }

  /** One message of the deprecated decoder: role, content and non-empty
      tool calls; a refusal is not read. */
  function FromLegacyChatMessage(api: ChatOutputMessage): (r: Result<Message>)
    ensures r.Ok? <==> FromChatContent(api.content).Ok?
    ensures r.Ok? ==>
      r.value.role == api.role && r.value.content == FromChatContent(api.content).value
      && r.value.id.None? && r.value.call_id.None? && r.value.name.None?
      && r.value.reasoning.None? && r.value.refusal.None? && r.value.extra.None?
      && (r.value.tool_calls.Some? <==> api.tool_calls.Some? && |api.tool_calls.value| > 0)
      && (r.value.tool_calls.Some? ==> r.value.tool_calls.value == FromChatToolCalls(api.tool_calls.value))
  {
    var content :- FromChatContent(api.content);
    var m := NewMessage(api.role, content);
    Ok(if api.tool_calls.Some? && |api.tool_calls.value| > 0 then m.(tool_calls := Some(FromChatToolCalls(api.tool_calls.value))) else m)
  }

  function DecodeLegacyChat(api: seq<ChatOutputMessage>): (r: Result<seq<Message>>)
    ensures r.Ok? <==> forall i :: 0 <= i < |api| ==> FromChatContent(api[i].content).Ok?
    ensures r.Ok? ==> |r.value| == |api| && forall i :: 0 <= i < |api| ==> r.value[i] == FromLegacyChatMessage(api[i]).value
  {
    MapResult(api, FromLegacyChatMessage)
  }

  /** The deprecated decoder agrees with the current one except that it
      drops the refusal. */
  lemma LegacyDecoderDropsRefusal(api: ChatOutputMessage)
    ensures FromLegacyChatMessage(api).Ok? <==> FromChatMessage(api).Ok?
    ensures FromChatMessage(api).Ok? ==> FromLegacyChatMessage(api).value == FromChatMessage(api).value.(refusal := None)
  {
  }

  /** Which messages the deprecated mapping carries through unchanged. */
  predicate LegacyRoundTrips(m: Message) {
    && m.id.None? && m.call_id.None? && m.name.None? && m.reasoning.None? && m.refusal.None? && m.extra.None?
    && (m.content.Parts? ==> AllText(m.content.parts) && |m.content.parts| != 1)
    && (m.tool_calls.Some? ==>
          |m.tool_calls.value| > 0
          && forall k :: 0 <= k < |m.tool_calls.value| ==>
               m.tool_calls.value[k].id.Some? && m.tool_calls.value[k].call_id.None? && m.tool_calls.value[k].extra.None?)
  }

  lemma {:induction false} LegacyRoundTrip(m: Message)
    requires LegacyRoundTrips(m)
    ensures ToLegacyChatMessage(m).Ok?
    ensures FromLegacyChatMessage(Echo(ToLegacyChatMessage(m).value)) == Ok(m)
  {
    if m.content.Parts? {
      var ps := m.content.parts;
      var q := ToTextOnlyContent(m.content).value.parts;
      assert !IsSingleText(q);
      var back := FromChatContent(PartsContent(q)).value.parts;
      assert back == ps;
    }
    if m.tool_calls.Some? {
      var tcs := m.tool_calls.value;
      var back := FromChatToolCalls(ToChatToolCalls(tcs));
      forall k | 0 <= k < |tcs| ensures back[k] == tcs[k] {
        ChatToolCallRoundTrip(tcs[k]);
      }
      assert back == tcs;
    }
  }
}
