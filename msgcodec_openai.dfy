/**
 The oldest Chat Completions mapping: text-only parts on the way out, and
 on the way in a part list that never collapses to a string and file
 fields copied as they are; `tool_calls` is always written.
 */
module MsgCodecOpenAI {
  import opened Wrappers
  import opened Content
  import opened Messages
  import opened OpenAIChat
  import opened MsgCodecOpenAIChat

  /** One part: as in the current mapping, except that a file copies its
      three fields whatever their value. */
  function FromOldChatPart(p: ChatPart): (r: Result<ContentPart>)
    ensures r.Ok? <==> !p.UnknownChatPart?
    ensures !p.FileChatPart? ==> r == FromChatPart(p)
    ensures p.FileChatPart? ==> r == Ok(File(FileAttrs(None, p.file_id, p.filename, None, p.file_data)))
  {
    match p
    case FileChatPart(fid, fname, fdata) => Ok(File(FileAttrs(None, fid, fname, None, fdata)))
    case _ => FromChatPart(p)
  }

  function FromOldChatContent(c: ChatContent): (r: Result<MessageContent>)
    ensures c.NullContent? ==> r == Ok(Plain(""))
    ensures c.StrContent? ==> r == Ok(Plain(c.s))
    ensures c.PartsContent? ==>
      (r.Ok? <==> forall i :: 0 <= i < |c.parts| ==> !c.parts[i].UnknownChatPart?)
      && (r.Ok? ==> r.value.Parts? && |r.value.parts| == |c.parts|
                    && forall i :: 0 <= i < |c.parts| ==> r.value.parts[i] == FromOldChatPart(c.parts[i]).value)
  {
    match c
    case NullContent => Ok(Plain(""))
    case StrContent(s) => Ok(Plain(s))
    case PartsContent(ps) =>
      var q :- MapResult(ps, FromOldChatPart);
      Ok(Parts(q))
  }

  /** One message: `name` and `tool_calls` keys always written, `tool_calls`
      mapped even when empty. */
  function ToOldChatMessage(m: Message): (r: Result<ChatInputMessage>)
    ensures r.Ok? <==> ToTextOnlyContent(m.content).Ok?
    ensures r.Ok? ==>
      r.value.RoleInput? && r.value.role == m.role
      && r.value.content == ToTextOnlyContent(m.content).value
      && (r.value.name == if m.name.Some? then Present(m.name.value) else Undef)
      && (r.value.tool_calls == if m.tool_calls.Some? then Present(ToChatToolCalls(m.tool_calls.value)) else Undef)
      && r.value.refusal.None?
  {
    var content :- ToTextOnlyContent(m.content);
    Ok(RoleInput(
      m.role,
      if m.name.Some? then Present(m.name.value) else Undef,
      content,
      if m.tool_calls.Some? then Present(ToChatToolCalls(m.tool_calls.value)) else Undef,
      None))
  }

  function EncodeOldChat(ms: seq<Message>): (r: Result<seq<ChatInputMessage>>)
    ensures r.Ok? <==> forall i :: 0 <= i < |ms| ==> ToTextOnlyContent(ms[i].content).Ok?
    ensures r.Ok? ==> |r.value| == |ms| && forall i :: 0 <= i < |ms| ==> r.value[i] == ToOldChatMessage(ms[i]).value
  {
    MapResult(ms, ToOldChatMessage)
  }

  /** One message: the tool calls are mapped whenever the key holds a list,
      an empty one included. */
  function FromOldChatMessage(api: ChatOutputMessage): (r: Result<Message>)
    ensures r.Ok? <==> FromOldChatContent(api.content).Ok?
    ensures r.Ok? ==>
      r.value.role == api.role && r.value.content == FromOldChatContent(api.content).value
      && r.value.id.None? && r.value.call_id.None? && r.value.name.None?
      && r.value.reasoning.None? && r.value.refusal.None? && r.value.extra.None?
      && r.value.tool_calls == if api.tool_calls.Some? then Some(FromChatToolCalls(api.tool_calls.value)) else None
  {
    var content :- FromOldChatContent(api.content);
    var m := NewMessage(api.role, content);
    Ok(m.(tool_calls := if api.tool_calls.Some? then Some(FromChatToolCalls(api.tool_calls.value)) else None))
  }

  function DecodeOldChat(api: seq<ChatOutputMessage>): (r: Result<seq<Message>>)
    ensures r.Ok? <==> forall i :: 0 <= i < |api| ==> FromOldChatContent(api[i].content).Ok?
    ensures r.Ok? ==> |r.value| == |api| && forall i :: 0 <= i < |api| ==> r.value[i] == FromOldChatMessage(api[i]).value
  {
    MapResult(api, FromOldChatMessage)
  }

  /** A lone text part stays a part list here, where the later mappings
      collapse it to a string. */
  lemma SingleTextNotCollapsed(t: string)
    ensures FromOldChatContent(PartsContent([TextChatPart(t)])) == Ok(Parts([Text(t)]))
    ensures FromChatContent(PartsContent([TextChatPart(t)])) == Ok(Plain(t))
  {
    var r := FromOldChatContent(PartsContent([TextChatPart(t)]));
    assert r.value.parts[0] == Text(t);
    assert r.value.parts == [Text(t)];
  }

  /** An empty file field comes through here, where the later mappings
      drop it. */
  lemma EmptyFileFieldKept()
    ensures FromOldChatPart(FileChatPart(Some(""), None, None)) == Ok(File(FileAttrs(None, Some(""), None, None, None)))
    ensures FromChatPart(FileChatPart(Some(""), None, None)) == Ok(File(FileAttrs(None, None, None, None, None)))
  {
  }

  /** Which messages the oldest mapping carries through unchanged: any
      text-only content, an empty tool-call list included. */
  predicate OldRoundTrips(m: Message) {
    && m.id.None? && m.call_id.None? && m.name.None? && m.reasoning.None? && m.refusal.None? && m.extra.None?
    && (m.content.Parts? ==> AllText(m.content.parts))
    && (m.tool_calls.Some? ==>
          forall k :: 0 <= k < |m.tool_calls.value| ==>
            m.tool_calls.value[k].id.Some? && m.tool_calls.value[k].call_id.None? && m.tool_calls.value[k].extra.None?)
  }

  lemma {:induction false} OldRoundTrip(m: Message)
    requires OldRoundTrips(m)
    ensures ToOldChatMessage(m).Ok?
    ensures FromOldChatMessage(Echo(ToOldChatMessage(m).value)) == Ok(m)
  {
    if m.content.Parts? {
      var ps := m.content.parts;
      var q := ToTextOnlyContent(m.content).value.parts;
      var back := FromOldChatContent(PartsContent(q)).value.parts;
      assert back == ps;
    }
    if m.tool_calls.Some? {
      var tcs := m.tool_calls.value;
      var back := FromChatToolCalls(ToChatToolCalls(tcs));
      forall k | 0 <= k < |tcs| ensures back[k] == tcs[k] {
        ChatToolCallRoundTrip(tcs[k]);
      }
      assert back == tcs;
    }
  }
}
