/**
 Turning what a raw decoder produced into messages with optional metadata:
 `asDecodedData`, `createRawDecoder` and `createDecoder` of the current
 codec interface, and `validateMessageArray` and `asDeserializedData` of
 the deprecated one.

 A raw decoder is a function from the encoded form to a value, which may
 fail; decoder options are an opaque type parameter.
 */
module CodecDecoder {
  import opened Wrappers
  import opened Json
  import opened Messages

  /** `{metadata?, messages}`; `metadata` is `None` when the key is absent. */
  datatype DecodedData = DecodedData(metadata: Option<Value>, messages: seq<Message>)

  const ERR_DECODED := "`asDecodedData` expected an object or an array of messages."
  const ERR_DESERIALIZED := "`asDeserializedData` expected an object or an array of messages."

  /** `MessageArray.assert` checks every element, in order, and keeps them
      all. */
  lemma {:induction false} ValidateMessagesIsMap(items: seq<Value>)
    ensures ValidateMessages(items) == MapResult(items, ValidateMessage)
  {
    if |items| > 0 {
      ValidateMessagesIsMap(items[1..]);
    }
  }

  /** What an encoder hands over: every message as a value. */
  function MessagesToValues(ms: seq<Message>): (r: seq<Value>)
    ensures |r| == |ms|
  {
    seq(|ms|, i requires 0 <= i < |ms| => MessageToValue(ms[i]))
  }

  /** Validating the values of a message list gives back that list. */
  lemma MessagesRoundTrip(ms: seq<Message>)
    ensures ValidateMessages(MessagesToValues(ms)) == Ok(ms)
  {
    var vs := MessagesToValues(ms);
    ValidateMessagesIsMap(vs);
    forall i | 0 <= i < |ms| ensures ValidateMessage(vs[i]) == Ok(ms[i]) {
      MessageRoundTrip(ms[i]);
    }
    var r := MapResult(vs, ValidateMessage);
    assert r.Ok?;
    assert r.value == ms;
  }

  /** `asDecodedData`: null, undefined and primitives are rejected; an array
      is the message list; an object with `messages` is the list plus its
      `metadata` when that is present and not `undefined`; any other object
      is one message. */
  function AsDecodedData(v: Value): (r: Result<DecodedData>)
    ensures IsNullish(v) || v.Bool? || v.Num? || v.Str? ==> r == Err(TypeError(ERR_DECODED))
    ensures v.Arr? ==> (r.Ok? <==> ValidateMessages(v.items).Ok?)
    ensures v.Arr? && r.Ok? ==> r.value == DecodedData(None, ValidateMessages(v.items).value)
    ensures HasKey(v, "messages") ==>
      (r.Ok? <==> v.fields["messages"].Arr? && ValidateMessages(v.fields["messages"].items).Ok?)
    ensures HasKey(v, "messages") && r.Ok? ==>
      r.value.messages == ValidateMessages(v.fields["messages"].items).value
      && (r.value.metadata.Some? <==> HasKey(v, "metadata") && !v.fields["metadata"].Undefined?)
      && (r.value.metadata.Some? ==> r.value.metadata.value == v.fields["metadata"])
    ensures v.Obj? && !HasKey(v, "messages") ==>
      (r.Ok? <==> ValidateMessage(v).Ok?)
      && (r.Ok? ==> r.value == DecodedData(None, [ValidateMessage(v).value]))
    // `metadata` is never an explicit `undefined`.
    ensures r.Ok? ==> r.value.metadata != Some(Undefined)
  {
    match v
    case Arr(items) =>
      var ms :- ValidateMessages(items);
      Ok(DecodedData(None, ms))
    case Obj(f) =>
      if "messages" in f then
        var ms :- if f["messages"].Arr? then ValidateMessages(f["messages"].items) else Err(ValidationError("messages"));
        if "metadata" in f && !f["metadata"].Undefined? then Ok(DecodedData(Some(f["metadata"]), ms))
        else Ok(DecodedData(None, ms))
      else
        var m :- ValidateMessage(v);
        Ok(DecodedData(None, [m]))
    case _ => Err(TypeError(ERR_DECODED))
  }

  /** The value a codec's raw decoder gives for decoded data: the messages,
      and `metadata` when there is some. */
  function DecodedDataToValue(d: DecodedData): Value {
    var f := map["messages" := Arr(MessagesToValues(d.messages))];
    Obj(if d.metadata.Some? then f["metadata" := d.metadata.value] else f)
  }

  /** `asDecodedData` undoes that, whatever the messages and whatever
      metadata other than `undefined`. */
  lemma DecodedDataRoundTrip(d: DecodedData)
    requires d.metadata != Some(Undefined)
    ensures AsDecodedData(DecodedDataToValue(d)) == Ok(d)
  {
    MessagesRoundTrip(d.messages);
  }

  /** A bare array of messages decodes to those messages without
      metadata. */
  lemma DecodedArrayRoundTrip(ms: seq<Message>)
    ensures AsDecodedData(Arr(MessagesToValues(ms))) == Ok(DecodedData(None, ms))
  {
    MessagesRoundTrip(ms);
  }

  // ---------------------------------------------------------------------
  // createRawDecoder and createDecoder

  /** A codec on the decoding side: a function returning a raw decoder, or
      an object whose `createDecoder` is one. */
  datatype CodecDecoderLike<!E, !O> =
    | DecoderFunction(create: Option<O> -> E -> Result<Value>)
    | WithCreateDecoder(createDecoder: Option<O> -> E -> Result<Value>)

  /** `createRawDecoder`: the function itself, or the codec's
      `createDecoder`, applied to the options. */
  function CreateRawDecoder<E, O>(codec: CodecDecoderLike<E, O>, options: Option<O>): (r: E -> Result<Value>)
    ensures codec.DecoderFunction? ==> r == codec.create(options)
    ensures codec.WithCreateDecoder? ==> r == codec.createDecoder(options)
  {
    match codec
    case DecoderFunction(f) => f(options)
    case WithCreateDecoder(f) => f(options)
  }

  /** Handing over the function or an object holding it makes no
      difference. */
  lemma RawDecoderShapeFree<E, O>(f: Option<O> -> E -> Result<Value>, options: Option<O>, encoded: E)
    ensures CreateRawDecoder(DecoderFunction(f), options)(encoded)
         == CreateRawDecoder(WithCreateDecoder(f), options)(encoded)
  {
  }

  /** `(validateMetadata ? validateMetadata(metadata) : undefined)`, with
      absent metadata read as `undefined`. */
  function ValidatedMetadata(validate: Option<Value -> Result<Value>>, metadata: Option<Value>): (r: Result<Value>)
    ensures validate.None? ==> r == Ok(Undefined)
    ensures validate.Some? ==> r == validate.value(metadata.GetOr(Undefined))
  {
    if validate.Some? then validate.value(metadata.GetOr(Undefined)) else Ok(Undefined)
  }

  /** The decoder `createDecoder(codec, options, validateMetadata)` returns,
      applied to `encoded`. */
  function Decode<E, O>(codec: CodecDecoderLike<E, O>, options: Option<O>, validate: Option<Value -> Result<Value>>, encoded: E): (r: Result<DecodedData>)
    ensures r.Ok? <==>
      CreateRawDecoder(codec, options)(encoded).Ok?
      && AsDecodedData(CreateRawDecoder(codec, options)(encoded).value).Ok?
      && ValidatedMetadata(validate, AsDecodedData(CreateRawDecoder(codec, options)(encoded).value).value.metadata).Ok?
    ensures r.Ok? ==>
      var d := AsDecodedData(CreateRawDecoder(codec, options)(encoded).value).value;
      var vm := ValidatedMetadata(validate, d.metadata).value;
      r.value.messages == d.messages
      && r.value.metadata == (if vm.Undefined? then None else Some(vm))
    // Without a validator the metadata is always dropped.
    ensures r.Ok? && validate.None? ==> r.value.metadata.None?
  {
    var raw :- CreateRawDecoder(codec, options)(encoded);
    var d :- AsDecodedData(raw);
    var vm :- ValidatedMetadata(validate, d.metadata);
    Ok(DecodedData(if vm.Undefined? then None else Some(vm), d.messages))
  }

  /** With a validator that accepts everything, the decoder keeps exactly
      what `asDecodedData` found. */
  lemma DecodeKeepsMetadata<E, O>(codec: CodecDecoderLike<E, O>, options: Option<O>, encoded: E)
    ensures Decode(codec, options, Some((v: Value) => Ok(v)), encoded)
         == (var raw := CreateRawDecoder(codec, options)(encoded);
             if raw.Err? then Err(raw.error) else AsDecodedData(raw.value))
  {
    var raw := CreateRawDecoder(codec, options)(encoded);
    if raw.Ok? && AsDecodedData(raw.value).Ok? {
      var d := AsDecodedData(raw.value).value;
      assert d.metadata.Some? ==> !d.metadata.value.Undefined?;
    }
  }

  // ---------------------------------------------------------------------
  // The deprecated interface

  /** `typeof v`. */
  function TypeOf(v: Value): string {
    match v
    case Undefined => "undefined"
    case Null => "object"
    case Bool(_) => "boolean"
    case Num(_) => "number"
    case Str(_) => "string"
    case Arr(_) => "object"
    case Obj(_) => "object"
  }

  /** `validateMessageArray`: a non-array is rejected with its type named;
      an array is checked element by element with `validate`, the first
      failure being the result. */
  function ValidateMessageArray(validate: Value -> Result<Message>, v: Value): (r: Result<seq<Message>>)
    ensures !v.Arr? ==> r == Err(PlainError("Value of type " + TypeOf(v) + " is not an array!"))
    ensures v.Arr? ==> r == MapResult(v.items, validate)
  {
    if v.Arr? then MapResult(v.items, validate)
    else Err(PlainError("Value of type " + TypeOf(v) + " is not an array!"))
  }

  /** `asDeserializedData`: as `asDecodedData`, except that an object with
      `messages` keeps `metadata` whenever the key exists, `undefined`
      value included. */
  function AsDeserializedData(validate: Value -> Result<Message>, v: Value): (r: Result<DecodedData>)
    ensures IsNullish(v) || v.Bool? || v.Num? || v.Str? ==> r == Err(TypeError(ERR_DESERIALIZED))
    ensures v.Arr? ==> (r.Ok? <==> MapResult(v.items, validate).Ok?)
    ensures v.Arr? && r.Ok? ==> r.value == DecodedData(None, MapResult(v.items, validate).value)
    ensures HasKey(v, "messages") ==>
      (r.Ok? <==> ValidateMessageArray(validate, v.fields["messages"]).Ok?)
    ensures HasKey(v, "messages") && r.Ok? ==>
      r.value.messages == ValidateMessageArray(validate, v.fields["messages"]).value
      && (r.value.metadata.Some? <==> HasKey(v, "metadata"))
      && (r.value.metadata.Some? ==> r.value.metadata.value == v.fields["metadata"])
    ensures v.Obj? && !HasKey(v, "messages") ==>
      (r.Ok? <==> validate(v).Ok?) && (r.Ok? ==> r.value == DecodedData(None, [validate(v).value]))
  {
    match v
    case Arr(items) =>
      var ms :- ValidateMessageArray(validate, v);
      Ok(DecodedData(None, ms))
    case Obj(f) =>
      if "messages" in f then
        var ms :- ValidateMessageArray(validate, f["messages"]);
        if "metadata" in f then Ok(DecodedData(Some(f["metadata"]), ms))
        else Ok(DecodedData(None, ms))
      else
        var m :- validate(v);
        Ok(DecodedData(None, [m]))
    case _ => Err(TypeError(ERR_DESERIALIZED))
  }

  /** With the current message check, the two interfaces accept the same
      values and find the same messages; they differ only on a `metadata`
      key holding `undefined`, which the old one keeps. */
  lemma DeserializedVsDecoded(v: Value)
    ensures AsDeserializedData(ValidateMessage, v).Ok? <==> AsDecodedData(v).Ok?
    ensures AsDecodedData(v).Ok? ==>
      var old_d := AsDeserializedData(ValidateMessage, v).value;
      AsDecodedData(v).value
        == old_d.(metadata := if old_d.metadata == Some(Undefined) then None else old_d.metadata)
  {
    if v.Arr? {
      ValidateMessagesIsMap(v.items);
    } else if HasKey(v, "messages") && v.fields["messages"].Arr? {
      ValidateMessagesIsMap(v.fields["messages"].items);
    }
  }
}
