/**
 Helpers over messages: the lazily created provider namespaces inside
 `extra`, and copying messages with their ids removed or renamed.

 Messages are values here. Where the library writes into `message.extra`
 (or into a namespace object it handed out), the functions return the
 updated message instead.
 */
module MessageUtil {
  import opened Wrappers
  import opened Json
  import opened Messages

  /** Whether `message.extra` is truthy. */
  predicate HasTruthyExtra(m: Message) {
    m.extra.Some? && Truthy(m.extra.value)
  }

  /** `getMessageExtra(message, key, init)`: the namespace entry `key` of
      `extra`, and the message as it is afterwards. With `init`, a falsy
      `extra` is replaced by `{}` and a falsy entry by `{}`. Writing a
      property into a truthy `extra` that is not an object fails; `Arr`
      has no named properties, so an array fails here too. */
  function GetMessageExtra(m: Message, key: string, init: bool): (r: Result<(Message, Option<Value>)>)
    // Without `init` the message is never touched.
    ensures !init ==> r.Ok? && r.value.0 == m
    ensures !init && !HasTruthyExtra(m) ==> r.value.1.None?
    ensures !init && HasTruthyExtra(m) ==>
      r.value.1 == (if Truthy(Get(m.extra.value, key)) then Some(Get(m.extra.value, key)) else None)
    // With `init` the entry exists afterwards and is the one returned.
    ensures init && (!HasTruthyExtra(m) || m.extra.value.Obj?) ==> r.Ok?
    ensures init && r.Ok? ==>
      r.value.1.Some? && Truthy(r.value.1.value)
      && r.value.0.extra.Some? && Get(r.value.0.extra.value, key) == r.value.1.value
    // Only `extra` can change, and in it only the entry `key`.
    ensures r.Ok? ==> r.value.0.(extra := m.extra) == m
    ensures r.Ok? && HasTruthyExtra(m) && m.extra.value.Obj? ==>
      r.value.0.extra.Some? && r.value.0.extra.value.Obj?
      && forall k :: k != key ==> Get(r.value.0.extra.value, k) == Get(m.extra.value, k)
  {
    if !HasTruthyExtra(m) && !init then Ok((m, None))
    else
      var m1 := if HasTruthyExtra(m) then m else m.(extra := Some(EmptyObject()));
      var ex := m1.extra.value;
      var entry := Get(ex, key);
      if Truthy(entry) then Ok((m1, Some(entry)))
      else if !init then Ok((m1, None))
      else if ex.Obj? then Ok((m1.(extra := Some(Obj(ex.fields[key := EmptyObject()]))), Some(EmptyObject())))
      else Err(TypeError("Cannot create property '" + key + "'"))
  }

  /** Asking twice with `init` gives the same message and entry as asking
      once. */
  lemma GetMessageExtraIdempotent(m: Message, key: string)
    requires GetMessageExtra(m, key, true).Ok?
    ensures var (m1, e1) := GetMessageExtra(m, key, true).value;
      GetMessageExtra(m1, key, true) == Ok((m1, e1))
  {
  }

  /** Asking without `init` after asking with it finds the entry. */
  lemma GetMessageExtraThenRead(m: Message, key: string)
    requires GetMessageExtra(m, key, true).Ok?
    ensures var (m1, e1) := GetMessageExtra(m, key, true).value;
      GetMessageExtra(m1, key, false) == Ok((m1, e1))
  {
  }

  /** `getMessageExtra(message, ns, true)[field] = v`: the namespace object is
      shared with the message, so the write lands in `message.extra[ns]`. A
      namespace entry that is not an object cannot take the write. */
  function SetExtraField(m: Message, ns: string, field: string, v: Value): (r: Result<Message>)
    ensures (!HasTruthyExtra(m) || (m.extra.value.Obj? && (!Truthy(Get(m.extra.value, ns)) || Get(m.extra.value, ns).Obj?)))
      ==> r.Ok?
    ensures r.Ok? ==> r.value.(extra := m.extra) == m
    ensures r.Ok? ==>
      r.value.extra.Some? && Get(Get(r.value.extra.value, ns), field) == v
    ensures r.Ok? && HasTruthyExtra(m) && m.extra.value.Obj? ==>
      (forall k :: k != ns ==> Get(r.value.extra.value, k) == Get(m.extra.value, k))
      && (forall k :: k != field ==> Get(Get(r.value.extra.value, ns), k) == Get(Get(m.extra.value, ns), k))
  {
    var (m1, entry) :- GetMessageExtra(m, ns, true);
    var e := entry.value;
    if e.Obj? && m1.extra.value.Obj? then
      Ok(m1.(extra := Some(Obj(m1.extra.value.fields[ns := Obj(e.fields[field := v])]))))
    else Err(TypeError("Cannot create property '" + field + "'"))
  }

  /** On a message without `extra`, the write produces exactly
      `extra = {ns: {field: v}}`. */
  lemma SetExtraFieldFresh(m: Message, ns: string, field: string, v: Value)
    requires m.extra.None?
    ensures SetExtraField(m, ns, field, v) == Ok(m.(extra := Some(Obj(map[ns := Obj(map[field := v])]))))
  {
    var empty: map<string, Value> := map[];
    assert empty[ns := EmptyObject()][ns := Obj(empty[field := v])] == map[ns := Obj(map[field := v])];
  }

  /** `stripMessageId`: a copy without `id`; putting the id back gives the
      original. */
  function StripMessageId(m: Message): (r: Message)
    ensures r.id.None?
    ensures r.(id := m.id) == m
  {
    m.(id := None)
  }

  /** `stripMessageIds` keeps the shape of its argument and returns a
      stripped copy of each message. */
  function StripMessageIds(ms: MessageArrayLike): (r: MessageArrayLike)
    ensures r.Single? <==> ms.Single?
    ensures r.Single? ==> r.message == StripMessageId(ms.message)
    ensures r.Many? ==>
      |r.messages| == |ms.messages|
      && forall i :: 0 <= i < |ms.messages| ==> r.messages[i] == StripMessageId(ms.messages[i])
  {
    match ms
    case Single(m) => Single(StripMessageId(m))
    case Many(xs) => Many(seq(|xs|, i requires 0 <= i < |xs| => StripMessageId(xs[i])))
  }

  /** `mapMessageId`: the id is replaced when it is present and the map has an
      entry for it; nothing else changes. */
  function MapMessageId(idMap: map<string, string>, m: Message): (r: Message)
    ensures r.(id := m.id) == m
    ensures r.id.Some? <==> m.id.Some?
    ensures m.id.Some? && m.id.value in idMap ==> r.id == Some(idMap[m.id.value])
    ensures m.id.None? || m.id.value !in idMap ==> r == m
  {
    if m.id.None? then m
    else if m.id.value in idMap then m.(id := Some(idMap[m.id.value]))
    else m
  }

  function MapMessageIds(idMap: map<string, string>, ms: MessageArrayLike): (r: MessageArrayLike)
    ensures r.Single? <==> ms.Single?
    ensures r.Single? ==> r.message == MapMessageId(idMap, ms.message)
    ensures r.Many? ==>
      |r.messages| == |ms.messages|
      && forall i :: 0 <= i < |ms.messages| ==> r.messages[i] == MapMessageId(idMap, ms.messages[i])
  {
    match ms
    case Single(m) => Single(MapMessageId(idMap, m))
    case Many(xs) => Many(seq(|xs|, i requires 0 <= i < |xs| => MapMessageId(idMap, xs[i])))
  }

  /** Renaming ids does not matter once they are stripped, and an empty map
      renames nothing. */
  lemma MapThenStrip(idMap: map<string, string>, m: Message)
    ensures StripMessageId(MapMessageId(idMap, m)) == StripMessageId(m)
    ensures MapMessageId(map[], m) == m
  {
  }
}
