/**
 The NDJSON file codec: one JSON object per line, the first line optionally
 carrying `{metadata}`.

 `JSON.stringify` and `JSON.parse` are not part of this model; they come in
 as a `JsonText` pair, and the round trip asks of them only what they do
 for the values involved.
 */
module NDJSON {
  import opened Wrappers
  import opened Json
  import opened Strings
  import opened Messages
  import opened CodecDecoder

  /** `JSON.stringify` and `JSON.parse`. */
  datatype JsonText = JsonText(stringify: Value -> string, parse: string -> Result<Value>)

  const ERR_NOT_STRING := "`NDJSONCodec` expected serialized data to be a string."
  const ERR_NOT_OBJECT := "`NDJSONCodec` expected a JSON object on a line."

  // ---------------------------------------------------------------------
  // Encoder

  /** `{metadata}`. */
  function MetadataLine(metadata: Value): Value {
    Obj(map["metadata" := metadata])
  }

  /** The lines the encoder writes: `{metadata}` first when the metadata is
      truthy, then one line per message. */
  function EncodedLines(json: JsonText, ms: seq<Message>, metadata: Value): (r: seq<string>)
    ensures |r| == |ms| + (if Truthy(metadata) then 1 else 0)
  {
    var head := if Truthy(metadata) then [json.stringify(MetadataLine(metadata))] else [];
    head + seq(|ms|, i requires 0 <= i < |ms| => json.stringify(MessageToValue(ms[i])))
  }

  /** `NDJSONCodec.createEncoder()`, with `metadata` `undefined` when not
      given. */
  method Encode(json: JsonText, ms: seq<Message>, metadata: Value) returns (r: string)
    ensures r == Join(EncodedLines(json, ms, metadata), "\n")
  {
    var lines: seq<string> := [];
    if Truthy(metadata) {
      lines := lines + [json.stringify(MetadataLine(metadata))];
    }
    var head := lines;
    for i := 0 to |ms|
      invariant lines == head + seq(i, k requires 0 <= k < i => json.stringify(MessageToValue(ms[k])))
    {
      lines := lines + [json.stringify(MessageToValue(ms[i]))];
    }
    assert lines == EncodedLines(json, ms, metadata);
    r := Join(lines, "\n");
  }

  // ---------------------------------------------------------------------
  // Decoder

  /** The decoder's locals: the objects kept as messages, the metadata (or
      `undefined`), and whether the metadata line can no longer come. */
  datatype DecodeState = DecodeState(messages: seq<Value>, metadata: Value, metadata_parsed: bool)

  /** `assertJsonObject`. */
  function AsJsonObject(v: Value): (r: Result<Value>)
    ensures r.Ok? <==> v.Obj?
    ensures r.Ok? ==> r.value == v
    ensures r.Err? ==> r.error == TypeError(ERR_NOT_OBJECT)
  {
    if v.Obj? then Ok(v) else Err(TypeError(ERR_NOT_OBJECT))
  }

  /** An object whose only key is `metadata`. */
  predicate IsMetadataLine(v: Value) {
    v.Obj? && "metadata" in v.fields && |v.fields| == 1
  }

  /** A non-blank line as the decoder reads it: parsed, and an object. */
  function ParseLine(json: JsonText, line: string): Result<Value> {
    var v :- json.parse(Trim(line));
    AsJsonObject(v)
  }

  /** `ParseLine` as a function value. */
  function Parser(json: JsonText): string -> Result<Value> {
    (line: string) => ParseLine(json, line)
  }

  /** The decoder's state after it keeps one object: the first object read
      is the metadata when its only key is `metadata`, any other is a
      message. */
  function Accept(st: DecodeState, v: Value): DecodeState {
    if !st.metadata_parsed && IsMetadataLine(v) then DecodeState(st.messages, v.fields["metadata"], true)
    else DecodeState(st.messages + [v], st.metadata, true)
  }

  /** One iteration of the decoder's loop. */
  function DecodeStep(json: JsonText, st: DecodeState, line: string): Result<DecodeState> {
    if Trim(line) == "" then Ok(st)
    else
      var v :- ParseLine(json, line);
      Ok(Accept(st, v))
  }

  const Start := DecodeState([], Undefined, false)

  /** The loop over the lines as a fold. */
  function DecodeFold(json: JsonText, lines: seq<string>): Result<DecodeState> {
    if |lines| == 0 then Ok(Start)
    else
      var prev := DecodeFold(json, lines[..|lines| - 1]);
      if prev.Err? then prev else DecodeStep(json, prev.value, lines[|lines| - 1])
  }

  /** What the decoder returns: `{metadata, messages}` when the metadata is
      truthy, else `{messages}`. */
  function Output(st: DecodeState): Value {
    var f := map["messages" := Arr(st.messages)];
    Obj(if Truthy(st.metadata) then f["metadata" := st.metadata] else f)
  }

  /** The whole decoder on a value that may not be a string. */
  function DecodeRaw(json: JsonText, source: Value): Result<Value> {
    if !source.Str? then Err(TypeError(ERR_NOT_STRING))
    else
      var st :- DecodeFold(json, Split(source.s, '\n'));
      Ok(Output(st))
  }

  /** The body of the decoder's loop on one line. */
  method DecodeLine(json: JsonText, st: DecodeState, line: string) returns (r: Result<DecodeState>)
    ensures r == DecodeStep(json, st, line)
  {
    var trimmed := Trim(line);
    if trimmed == "" {
      return Ok(st);
    }
    var parsed := json.parse(trimmed);
    if parsed.Err? {
      return Err(parsed.error);
    }
    var value := parsed.value;
    if !value.Obj? {
      return Err(TypeError(ERR_NOT_OBJECT));
    }
    if !st.metadata_parsed && IsMetadataLine(value) {
      return Ok(DecodeState(st.messages, value.fields["metadata"], true));
    }
    return Ok(DecodeState(st.messages + [value], st.metadata, true));
  }

  /** `NDJSONCodec.createDecoder()`: one pass over the lines. */
  method Decode(json: JsonText, source: Value) returns (r: Result<Value>)
    ensures r == DecodeRaw(json, source)
  {
    if !source.Str? {
      return Err(TypeError(ERR_NOT_STRING));
    }
    var lines := Split(source.s, '\n');
    var st := Start;
    for i := 0 to |lines|
      invariant DecodeFold(json, lines[..i]) == Ok(st)
    {
      DecodeFoldSnoc(json, lines, i, st);
      var next := DecodeLine(json, st, lines[i]);
      if next.Err? {
        DecodeFoldErr(json, lines, i + 1);
        return Err(next.error);
      }
      st := next.value;
    }
    assert lines[..|lines|] == lines;
    var f := map["messages" := Arr(st.messages)];
    if Truthy(st.metadata) {
      return Ok(Obj(f["metadata" := st.metadata]));
    }
    return Ok(Obj(f));
  }

  /** One more line of the fold. */
  lemma DecodeFoldSnoc(json: JsonText, lines: seq<string>, i: nat, st: DecodeState)
    requires i < |lines| && DecodeFold(json, lines[..i]) == Ok(st)
    ensures DecodeFold(json, lines[..i + 1]) == DecodeStep(json, st, lines[i])
  {
    assert lines[..i + 1][..i] == lines[..i];
  }

  lemma {:induction false} DecodeFoldErr(json: JsonText, lines: seq<string>, i: nat)
    requires i <= |lines| && DecodeFold(json, lines[..i]).Err?
    ensures DecodeFold(json, lines) == DecodeFold(json, lines[..i])
    decreases |lines| - i
  {
    if i < |lines| {
      assert lines[..i + 1][..i] == lines[..i];
      DecodeFoldErr(json, lines, i + 1);
    } else {
      assert lines[..i] == lines;
    }
  }

  // ---------------------------------------------------------------------
  // What the decoder computes

  /** The lines that are not whitespace only, in order. */
  function NonBlank(lines: seq<string>): (r: seq<string>)
    ensures |r| <= |lines|
    ensures forall i :: 0 <= i < |r| ==> Trim(r[i]) != ""
  {
    if |lines| == 0 then []
    else NonBlank(lines[..|lines| - 1]) + (if Trim(lines[|lines| - 1]) == "" then [] else [lines[|lines| - 1]])
  }

  /** Whitespace-only lines make no difference. */
  lemma {:induction false} BlankLinesSkipped(json: JsonText, lines: seq<string>)
    ensures DecodeFold(json, lines) == DecodeFold(json, NonBlank(lines))
  {
    if |lines| > 0 {
      var init := lines[..|lines| - 1];
      var x := lines[|lines| - 1];
      BlankLinesSkipped(json, init);
      var nb := NonBlank(init);
      if Trim(x) != "" {
        assert NonBlank(lines) == nb + [x];
        assert (nb + [x])[..|nb|] == nb;
      } else {
        assert NonBlank(lines) == nb + [];
        assert nb + [] == nb;
      }
    }
  }

  /** The state after keeping the objects `vs` in order, described without
      a loop: the first is the metadata when its only key is `metadata`,
      the rest are the messages. */
  function Classify(vs: seq<Value>): (r: DecodeState)
    ensures r.metadata_parsed <==> |vs| > 0
  {
    if |vs| > 0 && IsMetadataLine(vs[0]) then DecodeState(vs[1..], vs[0].fields["metadata"], true)
    else DecodeState(vs, Undefined, |vs| > 0)
  }

  /** Keeping one more object. */
  lemma ClassifySnoc(vs: seq<Value>, v: Value)
    ensures Classify(vs + [v]) == Accept(Classify(vs), v)
  {
    if |vs| > 0 {
      assert (vs + [v])[0] == vs[0];
      assert (vs + [v])[1..] == vs[1..] + [v];
    }
  }

  /** The decoder's result described directly: every non-blank line parsed
      into an object (the first failure being the result), then
      classified. */
  function Direct(json: JsonText, lines: seq<string>): Result<DecodeState> {
    var vs :- MapResult(NonBlank(lines), Parser(json));
    Ok(Classify(vs))
  }

  /** Mapping one element further. */
  lemma MapResultSnoc<A, B>(xs: seq<A>, x: A, f: A -> Result<B>)
    ensures MapResult(xs + [x], f) ==
      (var m := MapResult(xs, f);
       if m.Err? then m else if f(x).Err? then Err(f(x).error) else Ok(m.value + [f(x).value]))
  {
    var all := xs + [x];
    assert forall i :: 0 <= i < |xs| ==> all[i] == xs[i];
    assert all[|xs|] == x;
    var m := MapResult(xs, f);
    var ma := MapResult(all, f);
    if m.Ok? && f(x).Ok? {
      assert ma.value == m.value + [f(x).value];
    } else if m.Err? {
      var i :| 0 <= i < |xs| && f(xs[i]) == Err(m.error) && forall j :: 0 <= j < i ==> f(xs[j]).Ok?;
      var k :| 0 <= k < |all| && f(all[k]) == Err(ma.error) && forall j :: 0 <= j < k ==> f(all[j]).Ok?;
      assert k == i;
    } else {
      var k :| 0 <= k < |all| && f(all[k]) == Err(ma.error) && forall j :: 0 <= j < k ==> f(all[j]).Ok?;
      assert k == |xs|;
    }
  }

  /** On non-blank lines, the fold parses every line and classifies the
      objects. */
  lemma {:induction false} FoldNonBlank(json: JsonText, nb: seq<string>)
    requires forall i :: 0 <= i < |nb| ==> Trim(nb[i]) != ""
    ensures DecodeFold(json, nb) ==
      (var m := MapResult(nb, Parser(json)); if m.Err? then Err(m.error) else Ok(Classify(m.value)))
  {
    if |nb| > 0 {
      var init := nb[..|nb| - 1];
      var x := nb[|nb| - 1];
      assert init + [x] == nb;
      FoldNonBlank(json, init);
      var p := Parser(json);
      MapResultSnoc(init, x, p);
      var prev := DecodeFold(json, init);
      assert DecodeFold(json, nb) == if prev.Err? then prev else DecodeStep(json, prev.value, x);
      assert p(x) == ParseLine(json, x);
      var m := MapResult(init, p);
      if m.Err? {
        assert prev == Err(m.error);
      } else if p(x).Err? {
        assert DecodeFold(json, nb) == Err(p(x).error);
      } else {
        ClassifySnoc(m.value, p(x).value);
        assert DecodeFold(json, nb) == Ok(Accept(Classify(m.value), p(x).value));
      }
    }
  }

  /** `NonBlank` of non-blank lines is the lines themselves. */
  lemma {:induction false} NonBlankIdem(lines: seq<string>)
    requires forall i :: 0 <= i < |lines| ==> Trim(lines[i]) != ""
    ensures NonBlank(lines) == lines
  {
    if |lines| > 0 {
      NonBlankIdem(lines[..|lines| - 1]);
      assert lines[..|lines| - 1] + [lines[|lines| - 1]] == lines;
    }
  }

  /** The decoder's loop computes the direct description. */
  lemma DecodeFoldDirect(json: JsonText, lines: seq<string>)
    ensures DecodeFold(json, lines) == Direct(json, lines)
  {
    BlankLinesSkipped(json, lines);
    FoldNonBlank(json, NonBlank(lines));
  }

  // ---------------------------------------------------------------------
  // Encoding then decoding

  /** What the round trip needs of `JSON.stringify` on a value: one line,
      nothing to trim, and `JSON.parse` gives the value back. */
  predicate Faithful(json: JsonText, v: Value) {
    var t := json.stringify(v);
    '\n' !in t && Trim(t) == t && t != "" && json.parse(t) == Ok(v)
  }

  /** The objects the encoder writes, in order. */
  function EncodedValues(ms: seq<Message>, metadata: Value): seq<Value> {
    (if Truthy(metadata) then [MetadataLine(metadata)] else []) + MessagesToValues(ms)
  }

  /** Every encoded line is its object's text. */
  lemma EncodedLineAt(json: JsonText, ms: seq<Message>, metadata: Value, i: nat)
    requires i < |ms| + (if Truthy(metadata) then 1 else 0)
    ensures |EncodedLines(json, ms, metadata)| == |EncodedValues(ms, metadata)|
    ensures EncodedLines(json, ms, metadata)[i] == json.stringify(EncodedValues(ms, metadata)[i])
  {
  }

  /** Every object written is faithful to `JSON.stringify`. */
  predicate AllFaithful(json: JsonText, ms: seq<Message>, metadata: Value) {
    && (Truthy(metadata) ==> Faithful(json, MetadataLine(metadata)))
    && (forall i :: 0 <= i < |ms| ==> Faithful(json, MessageToValue(ms[i])))
  }

  /** One encoded line parses back to its object. */
  lemma EncodedLineParses(json: JsonText, ms: seq<Message>, metadata: Value, i: nat)
    requires AllFaithful(json, ms, metadata)
    requires i < |EncodedLines(json, ms, metadata)|
    ensures var l := EncodedLines(json, ms, metadata)[i];
      '\n' !in l && Trim(l) != "" && ParseLine(json, l) == Ok(EncodedValues(ms, metadata)[i])
  {
    EncodedLineAt(json, ms, metadata, i);
    EncodedValueFaithful(json, ms, metadata, i);
  }

  lemma EncodedValueFaithful(json: JsonText, ms: seq<Message>, metadata: Value, i: nat)
    requires AllFaithful(json, ms, metadata)
    requires i < |ms| + (if Truthy(metadata) then 1 else 0)
    ensures Faithful(json, EncodedValues(ms, metadata)[i])
  {
    var vs := EncodedValues(ms, metadata);
    if Truthy(metadata) && i == 0 {
      assert vs[i] == MetadataLine(metadata);
    } else {
      var k := if Truthy(metadata) then i - 1 else i;
      assert vs[i] == MessageToValue(ms[k]);
    }
  }

  /** Each encoded line parses back to its object. */
  lemma EncodedLinesParse(json: JsonText, ms: seq<Message>, metadata: Value)
    requires AllFaithful(json, ms, metadata)
    ensures var lines := EncodedLines(json, ms, metadata);
      && (forall i :: 0 <= i < |lines| ==> '\n' !in lines[i] && Trim(lines[i]) != "")
      && MapResult(lines, Parser(json)) == Ok(EncodedValues(ms, metadata))
  {
    var lines := EncodedLines(json, ms, metadata);
    var vs := EncodedValues(ms, metadata);
    forall i | 0 <= i < |lines|
      ensures '\n' !in lines[i] && Trim(lines[i]) != "" && ParseLine(json, lines[i]) == Ok(vs[i])
    {
      EncodedLineParses(json, ms, metadata, i);
    }
    var m := MapResult(lines, Parser(json));
    assert m.Ok?;
    assert m.value == vs;
  }

  /** A message's value has its `role` and `content` keys, so it is never
      taken for the metadata line. */
  lemma MessageKeys(m: Message)
    ensures !IsMetadataLine(MessageToValue(m))
  {
    MessageValueFields(m);
    var f := MessageToValue(m).fields;
    assert "role" in f;
    var k := f.Keys;
    assert "role" in k - {"metadata"};
    assert |f| == |k|;
    assert |k| >= 2 || "metadata" !in k;
  }

  /** Classifying the encoded objects finds the metadata and the messages
      again. */
  lemma ClassifyEncoded(ms: seq<Message>, metadata: Value)
    ensures Classify(EncodedValues(ms, metadata))
         == DecodeState(MessagesToValues(ms), if Truthy(metadata) then metadata else Undefined,
                        |ms| > 0 || Truthy(metadata))
  {
    var vs := EncodedValues(ms, metadata);
    if Truthy(metadata) {
      assert vs[0] == MetadataLine(metadata);
      assert vs[1..] == MessagesToValues(ms);
    } else {
      assert vs == MessagesToValues(ms);
      if |ms| > 0 {
        MessageKeys(ms[0]);
      }
    }
  }

  /** The decoder's state on the encoder's lines. */
  lemma EncodedLinesBack(json: JsonText, ms: seq<Message>, metadata: Value)
    requires AllFaithful(json, ms, metadata)
    ensures DecodeFold(json, EncodedLines(json, ms, metadata))
         == Ok(DecodeState(MessagesToValues(ms), if Truthy(metadata) then metadata else Undefined,
                           |ms| > 0 || Truthy(metadata)))
  {
    EncodedLinesParse(json, ms, metadata);
    FoldNonBlank(json, EncodedLines(json, ms, metadata));
    ClassifyEncoded(ms, metadata);
  }

  /** The state the decoder ends in on the encoder's text. */
  function EncodedState(ms: seq<Message>, metadata: Value): DecodeState {
    DecodeState(MessagesToValues(ms), if Truthy(metadata) then metadata else Undefined, |ms| > 0 || Truthy(metadata))
  }

  /** The decoder's loop on the encoder's text, split into lines. */
  lemma EncodedTextBack(json: JsonText, ms: seq<Message>, metadata: Value)
    requires AllFaithful(json, ms, metadata)
    ensures DecodeFold(json, Split(Join(EncodedLines(json, ms, metadata), "\n"), '\n')) == Ok(EncodedState(ms, metadata))
  {
    var lines := EncodedLines(json, ms, metadata);
    var text := Join(lines, "\n");
    if |lines| == 0 {
      assert text == "";
      assert Split(text, '\n') == [""];
      assert DecodeFold(json, [""]) == Ok(Start) by {
        assert [""][..0] == [];
        assert Trim("") == "";
      }
      assert MessagesToValues(ms) == [];
    } else {
      EncodedLinesParse(json, ms, metadata);
      SplitJoin(lines, '\n');
      EncodedLinesBack(json, ms, metadata);
    }
  }

  /** Decoding what the encoder wrote gives back the messages, and the
      metadata when it is truthy. */
  lemma RoundTrip(json: JsonText, ms: seq<Message>, metadata: Value)
    requires AllFaithful(json, ms, metadata)
    ensures var text := Join(EncodedLines(json, ms, metadata), "\n");
      && DecodeRaw(json, Str(text)).Ok?
      && AsDecodedData(DecodeRaw(json, Str(text)).value)
         == Ok(DecodedData(if Truthy(metadata) then Some(metadata) else None, ms))
  {
    var text := Join(EncodedLines(json, ms, metadata), "\n");
    var d := DecodedData(if Truthy(metadata) then Some(metadata) else None, ms);
    var st := EncodedState(ms, metadata);
    EncodedTextBack(json, ms, metadata);
    assert DecodeRaw(json, Str(text)) == Ok(Output(st));
    assert Output(st) == DecodedDataToValue(d);
    DecodedDataRoundTrip(d);
  }
}
