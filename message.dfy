/**
 The canonical message: its shape, the runtime schema check that turns an
 untyped value into a message, and the conversion back.
 */
module Messages {
  import opened Wrappers
  import opened Json
  import opened Content

  datatype ToolCall = ToolCall(
    id: Option<string>,
    call_id: Option<string>,
    name: string,
    arguments: string,
    extra: Option<Value>)

  /** Optional fields that are present but `undefined` are identified with
      absent ones, except `extra`, whose value is kept whatever it is. */
  datatype Message = Message(
    id: Option<string>,
    call_id: Option<string>,
    role: string,
    name: Option<string>,
    content: MessageContent,
    reasoning: Option<MessageContent>,
    refusal: Option<MessageContent>,
    tool_calls: Option<seq<ToolCall>>,
    extra: Option<Value>)

  /** `{role, content}` and nothing else. */
  function NewMessage(role: string, content: MessageContent): Message {
    Message(None, None, role, None, content, None, None, None, None)
  }

  /** Either one message or an array of them. */
  datatype MessageArrayLike = Single(message: Message) | Many(messages: seq<Message>)

  predicate IsMessageArray(obj: MessageArrayLike) {
    obj.Many?
  }

  /** `asMessageArray`: an array is returned as it is, a message is wrapped. */
  function AsMessageArray(obj: MessageArrayLike): (r: seq<Message>)
    ensures IsMessageArray(obj) ==> r == obj.messages
    ensures !IsMessageArray(obj) ==> r == [obj.message]
  {
    if IsMessageArray(obj) then obj.messages else [obj.message]
  }

  // ---------------------------------------------------------------------------
  // Conversion to an untyped value

  function OptStr(f: map<string, Value>, key: string, v: Option<string>): map<string, Value> {
    if v.Some? then f[key := Str(v.value)] else f
  }

  function OptVal(f: map<string, Value>, key: string, v: Option<Value>): map<string, Value> {
    if v.Some? then f[key := v.value] else f
  }

  function AttrsToFields(a: FileAttrs, kind: string): map<string, Value> {
    var f := map["type" := Str(kind)];
    var f := OptStr(f, "format", a.format);
    var f := OptStr(f, "file_id", a.file_id);
    var f := OptStr(f, "name", a.name);
    var f := OptStr(f, "url", a.url);
    OptStr(f, "data", a.data)
  }

  function ContentPartToValue(p: ContentPart): Value {
    match p
    case Text(t) => Obj(map["type" := Str("text"), "text" := Str(t)])
    case Image(a) => Obj(AttrsToFields(a, "image"))
    case Audio(a) => Obj(AttrsToFields(a, "audio"))
    case File(a) => Obj(AttrsToFields(a, "file"))
  }

  function ContentToValue(c: MessageContent): Value {
    match c
    case Plain(s) => Str(s)
    case Parts(ps) => Arr(seq(|ps|, i requires 0 <= i < |ps| => ContentPartToValue(ps[i])))
  }

  function ToolCallToValue(tc: ToolCall): Value {
    var f := map["name" := Str(tc.name), "arguments" := Str(tc.arguments)];
    var f := OptStr(f, "id", tc.id);
    var f := OptStr(f, "call_id", tc.call_id);
    Obj(OptVal(f, "extra", tc.extra))
  }

  function OptContent(f: map<string, Value>, key: string, c: Option<MessageContent>): map<string, Value> {
    if c.Some? then f[key := ContentToValue(c.value)] else f
  }

  function ToolCallsToValue(tcs: seq<ToolCall>): Value {
    Arr(seq(|tcs|, i requires 0 <= i < |tcs| => ToolCallToValue(tcs[i])))
  }

  /** The required keys and the optional string keys of a message. */
  function MessageBaseFields(m: Message): map<string, Value> {
    var f := map["role" := Str(m.role), "content" := ContentToValue(m.content)];
    var f := OptStr(f, "id", m.id);
    var f := OptStr(f, "call_id", m.call_id);
    OptStr(f, "name", m.name)
  }

  function MessageToValue(m: Message): Value {
    var f := MessageBaseFields(m);
    var f := OptContent(f, "reasoning", m.reasoning);
    var f := OptContent(f, "refusal", m.refusal);
    var f := OptVal(f, "tool_calls", if m.tool_calls.Some? then Some(ToolCallsToValue(m.tool_calls.value)) else None);
    Obj(OptVal(f, "extra", m.extra))
  }

  // ---------------------------------------------------------------------------
  // Schema check (`Message.assert`, `ToolCall.assert`, `MessageContent`)

  /** A required string key. */
  function ReqString(f: map<string, Value>, key: string): Result<string> {
    if key in f && f[key].Str? then Ok(f[key].s) else Err(ValidationError(key))
  }

  /** An optional string key; `allowUndefined` says whether the schema also
      accepts the key with value `undefined` (`"string|undefined"`). */
  function OptString(f: map<string, Value>, key: string, allowUndefined: bool): Result<Option<string>> {
    if key !in f then Ok(None)
    else if f[key].Str? then Ok(Some(f[key].s))
    else if allowUndefined && f[key].Undefined? then Ok(None)
    else Err(ValidationError(key))
  }

  function ValidateAttrs(f: map<string, Value>): Result<FileAttrs> {
    var format :- OptString(f, "format", false);
    var file_id :- OptString(f, "file_id", false);
    var name :- OptString(f, "name", false);
    var url :- OptString(f, "url", false);
    var data :- OptString(f, "data", false);
    Ok(FileAttrs(format, file_id, name, url, data))
  }

  function ValidateContentPart(v: Value): Result<ContentPart> {
    if !v.Obj? || "type" !in v.fields then Err(ValidationError("type"))
    else
      var f := v.fields;
      match f["type"]
      case Str(t) =>
        if t == "text" then
          var text :- ReqString(f, "text");
          Ok(Text(text))
        else if t == "image" || t == "audio" || t == "file" then
          var a :- ValidateAttrs(f);
          Ok(if t == "image" then Image(a) else if t == "audio" then Audio(a) else File(a))
        else Err(ValidationError("type"))
      case _ => Err(ValidationError("type"))
  }

  function ValidateContentParts(items: seq<Value>): Result<seq<ContentPart>> {
    if |items| == 0 then Ok([])
    else
      var p :- ValidateContentPart(items[0]);
      var rest :- ValidateContentParts(items[1..]);
      Ok([p] + rest)
  }

  function ValidateContent(v: Value): Result<MessageContent> {
    match v
    case Str(s) => Ok(Plain(s))
    case Arr(items) =>
      var ps :- ValidateContentParts(items);
      Ok(Parts(ps))
    case _ => Err(ValidationError("content"))
  }

  function OptMessageContent(f: map<string, Value>, key: string): Result<Option<MessageContent>> {
    if key !in f || f[key].Undefined? then Ok(None)
    else
      var c :- ValidateContent(f[key]);
      Ok(Some(c))
  }

  function OptExtra(f: map<string, Value>): Option<Value> {
    if "extra" in f then Some(f["extra"]) else None
  }

  /** `ToolCall.assert`: `name` and `arguments` are required strings, `id`
      and `call_id` optional strings (not `undefined`), `extra` anything. */
  function ValidateToolCall(v: Value): Result<ToolCall> {
    if !v.Obj? then Err(ValidationError("tool_call"))
    else
      var f := v.fields;
      var id :- OptString(f, "id", false);
      var call_id :- OptString(f, "call_id", false);
      var name :- ReqString(f, "name");
      var arguments :- ReqString(f, "arguments");
      Ok(ToolCall(id, call_id, name, arguments, OptExtra(f)))
  }

  function ValidateToolCalls(items: seq<Value>): Result<seq<ToolCall>> {
    if |items| == 0 then Ok([])
    else
      var tc :- ValidateToolCall(items[0]);
      var rest :- ValidateToolCalls(items[1..]);
      Ok([tc] + rest)
  }

  /** `Message.assert`. */
  function ValidateMessage(v: Value): Result<Message> {
    if !v.Obj? then Err(ValidationError("message"))
    else
      var f := v.fields;
      var id :- OptString(f, "id", true);
      var call_id :- OptString(f, "call_id", true);
      var name :- OptString(f, "name", true);
      var role :- ReqString(f, "role");
      var content :- if "content" in f then ValidateContent(f["content"]) else Err(ValidationError("content"));
      var reasoning :- OptMessageContent(f, "reasoning");
      var refusal :- OptMessageContent(f, "refusal");
      var tool_calls :-
        if "tool_calls" !in f || f["tool_calls"].Undefined? then Ok(None)
        else if f["tool_calls"].Arr? then
          var tcs :- ValidateToolCalls(f["tool_calls"].items);
          Ok(Some(tcs))
        else Err(ValidationError("tool_calls"));
      Ok(Message(id, call_id, role, name, content, reasoning, refusal, tool_calls, OptExtra(f)))
  }

  /** `MessageArray.assert`. */
  function ValidateMessages(items: seq<Value>): Result<seq<Message>> {
    if |items| == 0 then Ok([])
    else
      var m :- ValidateMessage(items[0]);
      var rest :- ValidateMessages(items[1..]);
      Ok([m] + rest)
  }

  // ---------------------------------------------------------------------------
  // Properties of the schema

  /** Updating one key leaves every other key as it was. */
  lemma OptStrOther(f: map<string, Value>, key: string, v: Option<string>, k: string)
    requires k != key
    ensures k in OptStr(f, key, v) <==> k in f
    ensures k in f ==> OptStr(f, key, v)[k] == f[k]
  {
  }

  lemma OptStrSame(f: map<string, Value>, key: string, v: Option<string>, allowUndefined: bool)
    requires key !in f
    ensures OptString(OptStr(f, key, v), key, allowUndefined) == Ok(v)
  {
  }

  lemma AttrsRoundTrip(a: FileAttrs, kind: string)
    ensures ValidateAttrs(AttrsToFields(a, kind)) == Ok(a)
    ensures "type" in AttrsToFields(a, kind) && AttrsToFields(a, kind)["type"] == Str(kind)
  {
    var f0 := map["type" := Str(kind)];
    var f1 := OptStr(f0, "format", a.format);
    var f2 := OptStr(f1, "file_id", a.file_id);
    var f3 := OptStr(f2, "name", a.name);
    var f4 := OptStr(f3, "url", a.url);
    var f5 := OptStr(f4, "data", a.data);
    assert f5 == AttrsToFields(a, kind);
    assert "format" != "file_id" && "format" != "name" && "format" != "url" && "format" != "data" && "format" != "type";
    assert "file_id" != "name" && "file_id" != "url" && "file_id" != "data" && "file_id" != "type";
    assert "name" != "url" && "name" != "data" && "name" != "type";
    assert "url" != "data" && "url" != "type";
    assert "data" != "type";
    OptStrSame(f0, "format", a.format, false);
    OptStrOther(f1, "file_id", a.file_id, "format");
    OptStrOther(f2, "name", a.name, "format");
    OptStrOther(f3, "url", a.url, "format");
    OptStrOther(f4, "data", a.data, "format");
    OptStrSame(f1, "file_id", a.file_id, false);
    OptStrOther(f2, "name", a.name, "file_id");
    OptStrOther(f3, "url", a.url, "file_id");
    OptStrOther(f4, "data", a.data, "file_id");
    OptStrSame(f2, "name", a.name, false);
    OptStrOther(f3, "url", a.url, "name");
    OptStrOther(f4, "data", a.data, "name");
    OptStrSame(f3, "url", a.url, false);
    OptStrOther(f4, "data", a.data, "url");
    OptStrSame(f4, "data", a.data, false);
    OptStrOther(f1, "file_id", a.file_id, "type");
    OptStrOther(f2, "name", a.name, "type");
    OptStrOther(f3, "url", a.url, "type");
    OptStrOther(f4, "data", a.data, "type");
    OptStrOther(f0, "format", a.format, "type");
  }

  lemma ContentPartRoundTrip(p: ContentPart)
    ensures ValidateContentPart(ContentPartToValue(p)) == Ok(p)
  {
    match p
    case Text(t) =>
      assert "text" != "type";
    case Image(a) => AttrsRoundTrip(a, "image");
    case Audio(a) => AttrsRoundTrip(a, "audio");
    case File(a) => AttrsRoundTrip(a, "file");
  }

  lemma {:induction false} ContentPartsRoundTrip(ps: seq<ContentPart>)
    ensures ValidateContentParts(seq(|ps|, i requires 0 <= i < |ps| => ContentPartToValue(ps[i]))) == Ok(ps)
  {
    var vs := seq(|ps|, i requires 0 <= i < |ps| => ContentPartToValue(ps[i]));
    if |ps| > 0 {
      ContentPartRoundTrip(ps[0]);
      assert vs[1..] == seq(|ps[1..]|, i requires 0 <= i < |ps[1..]| => ContentPartToValue(ps[1..][i]));
      ContentPartsRoundTrip(ps[1..]);
      assert [ps[0]] + ps[1..] == ps;
    }
  }

  /** Every content, string or part list, passes the check and comes back
      unchanged. */
  lemma ContentRoundTrip(c: MessageContent)
    ensures ValidateContent(ContentToValue(c)) == Ok(c)
  {
    if c.Parts? {
      ContentPartsRoundTrip(c.parts);
    }
  }

  lemma ToolCallRoundTrip(tc: ToolCall)
    ensures ValidateToolCall(ToolCallToValue(tc)) == Ok(tc)
  {
  }

  lemma {:induction false} ToolCallsRoundTrip(tcs: seq<ToolCall>)
    ensures ValidateToolCalls(ToolCallsToValue(tcs).items) == Ok(tcs)
  {
    var vs := seq(|tcs|, i requires 0 <= i < |tcs| => ToolCallToValue(tcs[i]));
    if |tcs| > 0 {
      ToolCallRoundTrip(tcs[0]);
      assert vs[1..] == seq(|tcs[1..]|, i requires 0 <= i < |tcs[1..]| => ToolCallToValue(tcs[1..][i]));
      ToolCallsRoundTrip(tcs[1..]);
      assert [tcs[0]] + tcs[1..] == tcs;
    }
  }

  lemma MessageBaseFieldsFacts(m: Message)
    ensures var f := MessageBaseFields(m);
      && f.Keys <= {"role", "content", "id", "call_id", "name"}
      && OptString(f, "id", true) == Ok(m.id)
      && OptString(f, "call_id", true) == Ok(m.call_id)
      && OptString(f, "name", true) == Ok(m.name)
      && ReqString(f, "role") == Ok(m.role)
      && "content" in f && f["content"] == ContentToValue(m.content)
  {
    var f0 := map["role" := Str(m.role), "content" := ContentToValue(m.content)];
    var f1 := OptStr(f0, "id", m.id);
    var f2 := OptStr(f1, "call_id", m.call_id);
    OptStrOther(f1, "call_id", m.call_id, "id");
    OptStrOther(f2, "name", m.name, "id");
    OptStrOther(f2, "name", m.name, "call_id");
    OptStrOther(f0, "id", m.id, "role");
    OptStrOther(f1, "call_id", m.call_id, "role");
    OptStrOther(f2, "name", m.name, "role");
    OptStrOther(f0, "id", m.id, "content");
    OptStrOther(f1, "call_id", m.call_id, "content");
    OptStrOther(f2, "name", m.name, "content");
  }

  /** Where each field of a message lands in its untyped form. */
  lemma MessageValueFields(m: Message)
    ensures MessageToValue(m).Obj?
    ensures var f := MessageToValue(m).fields;
      && OptString(f, "id", true) == Ok(m.id)
      && OptString(f, "call_id", true) == Ok(m.call_id)
      && OptString(f, "name", true) == Ok(m.name)
      && ReqString(f, "role") == Ok(m.role)
      && "content" in f && f["content"] == ContentToValue(m.content)
      && (m.reasoning.Some? <==> "reasoning" in f)
      && (m.reasoning.Some? ==> f["reasoning"] == ContentToValue(m.reasoning.value))
      && (m.refusal.Some? <==> "refusal" in f)
      && (m.refusal.Some? ==> f["refusal"] == ContentToValue(m.refusal.value))
      && (m.tool_calls.Some? <==> "tool_calls" in f)
      && (m.tool_calls.Some? ==> f["tool_calls"] == ToolCallsToValue(m.tool_calls.value))
      && OptExtra(f) == m.extra
  {
    var tcv := if m.tool_calls.Some? then Some(ToolCallsToValue(m.tool_calls.value)) else None;
    MessageBaseFieldsFacts(m);
    ValueFieldsFrom(MessageBaseFields(m), m, tcv);
  }

  /** The base keys stay where they were and the later keys land as given. */
  lemma ValueFieldsFrom(f3: map<string, Value>, m: Message, tcv: Option<Value>)
    requires f3.Keys <= {"role", "content", "id", "call_id", "name"}
    requires OptString(f3, "id", true) == Ok(m.id)
    requires OptString(f3, "call_id", true) == Ok(m.call_id)
    requires OptString(f3, "name", true) == Ok(m.name)
    requires ReqString(f3, "role") == Ok(m.role)
    requires "content" in f3 && f3["content"] == ContentToValue(m.content)
    requires tcv == if m.tool_calls.Some? then Some(ToolCallsToValue(m.tool_calls.value)) else None
    ensures var f := OptVal(OptVal(OptContent(OptContent(f3, "reasoning", m.reasoning), "refusal", m.refusal), "tool_calls", tcv), "extra", m.extra);
      && OptString(f, "id", true) == Ok(m.id)
      && OptString(f, "call_id", true) == Ok(m.call_id)
      && OptString(f, "name", true) == Ok(m.name)
      && ReqString(f, "role") == Ok(m.role)
      && "content" in f && f["content"] == ContentToValue(m.content)
      && (m.reasoning.Some? <==> "reasoning" in f)
      && (m.reasoning.Some? ==> f["reasoning"] == ContentToValue(m.reasoning.value))
      && (m.refusal.Some? <==> "refusal" in f)
      && (m.refusal.Some? ==> f["refusal"] == ContentToValue(m.refusal.value))
      && (m.tool_calls.Some? <==> "tool_calls" in f)
      && (m.tool_calls.Some? ==> f["tool_calls"] == ToolCallsToValue(m.tool_calls.value))
      && OptExtra(f) == m.extra
  {
    LaterKeysPreserve(f3, m.reasoning, m.refusal, tcv, m.extra, "role");
    LaterKeysPreserve(f3, m.reasoning, m.refusal, tcv, m.extra, "content");
    LaterKeysPreserve(f3, m.reasoning, m.refusal, tcv, m.extra, "id");
    LaterKeysPreserve(f3, m.reasoning, m.refusal, tcv, m.extra, "call_id");
    LaterKeysPreserve(f3, m.reasoning, m.refusal, tcv, m.extra, "name");
    LaterKeys(f3, m.reasoning, m.refusal, tcv, m.extra);
  }

  /** Where the keys added after the base ones land. */
  lemma LaterKeys(f3: map<string, Value>, reasoning: Option<MessageContent>, refusal: Option<MessageContent>,
                  tcv: Option<Value>, extra: Option<Value>)
    requires "reasoning" !in f3 && "refusal" !in f3 && "tool_calls" !in f3 && "extra" !in f3
    ensures var f7 := OptVal(OptVal(OptContent(OptContent(f3, "reasoning", reasoning), "refusal", refusal), "tool_calls", tcv), "extra", extra);
      && (reasoning.Some? <==> "reasoning" in f7)
      && (reasoning.Some? ==> f7["reasoning"] == ContentToValue(reasoning.value))
      && (refusal.Some? <==> "refusal" in f7)
      && (refusal.Some? ==> f7["refusal"] == ContentToValue(refusal.value))
      && (tcv.Some? <==> "tool_calls" in f7)
      && (tcv.Some? ==> f7["tool_calls"] == tcv.value)
      && OptExtra(f7) == extra
  {
  }

  /** The keys added after the base ones leave the base ones alone. */
  lemma LaterKeysPreserve(f3: map<string, Value>, reasoning: Option<MessageContent>, refusal: Option<MessageContent>,
                          tcv: Option<Value>, extra: Option<Value>, k: string)
    requires k in {"role", "content", "id", "call_id", "name"}
    ensures var f7 := OptVal(OptVal(OptContent(OptContent(f3, "reasoning", reasoning), "refusal", refusal), "tool_calls", tcv), "extra", extra);
      (k in f7 <==> k in f3) && (k in f3 ==> f7[k] == f3[k])
  {
    assert k != "reasoning" && k != "refusal" && k != "tool_calls" && k != "extra";
  }

  /** Every message, custom roles included, passes the check unchanged:
      `role` and `content` are all that is required, and `reasoning` and
      `refusal` take the same shapes as `content`. */
  lemma MessageRoundTrip(m: Message)
    ensures ValidateMessage(MessageToValue(m)) == Ok(m)
  {
    MessageValueFields(m);
    ContentRoundTrip(m.content);
    if m.reasoning.Some? {
      ContentRoundTrip(m.reasoning.value);
    }
    if m.refusal.Some? {
      ContentRoundTrip(m.refusal.value);
    }
    if m.tool_calls.Some? {
      ToolCallsRoundTrip(m.tool_calls.value);
    }
  }

  /** A message needs a string `role` and a `content`; everything else may be
      missing. */
  lemma MessageRequiresRoleAndContent(v: Value)
    ensures ValidateMessage(v).Ok? ==> v.Obj? && "role" in v.fields && v.fields["role"].Str? && "content" in v.fields
    ensures ValidateMessage(Obj(map["role" := Str("x"), "content" := Str("")])) == Ok(NewMessage("x", Plain("")))
  {
  }

  /** The message schema accepts optional keys with value `undefined` and
      treats them as missing; the tool-call schema does not. */
  lemma UndefinedOptionalFields(f: map<string, Value>, key: string)
    requires key in {"id", "call_id", "name", "reasoning", "refusal", "tool_calls"}
    ensures ValidateMessage(Obj(f[key := Undefined])) == ValidateMessage(Obj(f - {key}))
    ensures key in {"id", "call_id"} ==> ValidateToolCall(Obj(f[key := Undefined])).Err?
  {
    var g := f[key := Undefined];
    var h := f - {key};
    UndefinedVsAbsent(f, key, "role");
    UndefinedVsAbsent(f, key, "content");
    UndefinedVsAbsent(f, key, "extra");
    UndefinedVsAbsent(f, key, "id");
    UndefinedVsAbsent(f, key, "call_id");
    UndefinedVsAbsent(f, key, "name");
    UndefinedVsAbsent(f, key, "reasoning");
    UndefinedVsAbsent(f, key, "refusal");
    UndefinedVsAbsent(f, key, "tool_calls");
    ValidateMessageOn(g, h);
  }

  /** Two field maps with the same entry under `k`. */
  ghost predicate SameKey(g: map<string, Value>, h: map<string, Value>, k: string) {
    (k in g <==> k in h) && (k in g ==> g[k] == h[k])
  }

  /** Two field maps that agree under `k` once `undefined` counts as
      missing. */
  ghost predicate SameUnlessUndefined(g: map<string, Value>, h: map<string, Value>, k: string) {
    ((k in g && !g[k].Undefined?) <==> (k in h && !h[k].Undefined?))
    && (k in g && !g[k].Undefined? ==> g[k] == h[k])
  }

  /** Setting `key` to `undefined` and removing it differ only at `key`, and
      not even there once `undefined` counts as missing. */
  lemma UndefinedVsAbsent(f: map<string, Value>, key: string, k: string)
    ensures SameUnlessUndefined(f[key := Undefined], f - {key}, k)
    ensures k != key ==> SameKey(f[key := Undefined], f - {key}, k)
  {
  }

  /** The message check reads `role`, `content` and `extra` as they are and
      every other key with `undefined` counted as missing. */
  lemma ValidateMessageOn(g: map<string, Value>, h: map<string, Value>)
    requires SameKey(g, h, "role") && SameKey(g, h, "content") && SameKey(g, h, "extra")
    requires SameUnlessUndefined(g, h, "id") && SameUnlessUndefined(g, h, "call_id") && SameUnlessUndefined(g, h, "name")
    requires SameUnlessUndefined(g, h, "reasoning") && SameUnlessUndefined(g, h, "refusal")
    requires SameUnlessUndefined(g, h, "tool_calls")
    ensures ValidateMessage(Obj(g)) == ValidateMessage(Obj(h))
  {
    assert OptString(g, "id", true) == OptString(h, "id", true);
    assert OptString(g, "call_id", true) == OptString(h, "call_id", true);
    assert OptString(g, "name", true) == OptString(h, "name", true);
    assert OptMessageContent(g, "reasoning") == OptMessageContent(h, "reasoning");
    assert OptMessageContent(g, "refusal") == OptMessageContent(h, "refusal");
  }

  /** A tool call needs string `name` and `arguments`. */
  lemma ToolCallRequiresNameAndArguments(v: Value)
    ensures ValidateToolCall(v).Ok? ==>
      v.Obj? && "name" in v.fields && v.fields["name"].Str?
      && "arguments" in v.fields && v.fields["arguments"].Str?
  {
  }
}
