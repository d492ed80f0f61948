/**
 Encoding a step request for the Gemini `generateContent` API: message
 content as Gemini parts (with the stored thought signature attached to
 text parts), and the request with its system instruction.

 The encoder builds the list of turns message by message, pushing the turns
 of the whole remaining suffix at every non-system index, and then returns a
 request whose `contents` is the empty list: the list it built is never
 attached. Building it can still fail on a part Gemini cannot take.
 */
module GeminiRequest {
  import opened Wrappers
  import opened Json
  import opened Strings
  import opened Content
  import opened Messages
  import opened ProviderExtra
  import opened Step

  const GEMINI_MODEL: string := "gemini-3-flash-preview"

  datatype GeminiPart =
    | TextPart(text: string, thoughtSignature: Option<Value>)
    | InlineData(mimeType: string, data: string)

  datatype GeminiContent = GeminiContent(role: string, parts: seq<GeminiPart>)

  datatype GeminiRequestBody = GeminiRequestBody(
    model: string,
    contents: seq<GeminiContent>,
    systemInstruction: Option<seq<string>>)

  predicate IsGeminiSystemRole(role: string) {
    role == "system" || role == "developer"
  }

  // ---------------------------------------------------------------------
  // Thought signatures

  /** `value?.[0]`: the first element of an array, the first character of a
      string, the `"0"` property of an object, and `undefined` for the rest. */
  function FirstOf(v: Value): Value {
    match v
    case Arr(items) => if |items| > 0 then items[0] else Undefined
    case Str(s) => if |s| > 0 then Str([s[0]]) else Undefined
    case Obj(_) => Get(v, "0")
    case _ => Undefined
  }

  /** `gemini_extra?.thought_signatures?.[0]`, kept only when truthy. */
  function FirstSignature(geminiExtra: Option<Value>): (r: Option<Value>)
    ensures geminiExtra.None? ==> r.None?
    ensures r.Some? ==> Truthy(r.value)
    ensures r.Some? ==> r.value == FirstOf(Get(geminiExtra.value, "thought_signatures"))
  {
    if geminiExtra.None? then None
    else
      var first := FirstOf(Get(geminiExtra.value, "thought_signatures"));
      if Truthy(first) then Some(first) else None
  }

  /** The signature `createWithThoughtSignature` attaches for a message. */
  function SignatureOf(m: Message): Option<Value> {
    FirstSignature(GetMessageExtraGemini(m, false).value.1)
  }

  /** A message without `extra` has no signature; one whose signatures were
      stored as a list of strings gets the first of them back, when it is
      non-empty. */
  lemma SignatureOfStored(m: Message, sigs: seq<string>)
    requires m.extra.None?
    ensures SignatureOf(m).None?
    ensures SignatureOf(WithThoughtSignatures(m, sigs))
            == (if |sigs| > 0 && sigs[0] != "" then Some(Str(sigs[0])) else None)
  {
    var m2 := WithThoughtSignatures(m, sigs);
    var ns := Obj(map["thought_signatures" := StringsToValue(sigs)]);
    assert Get(m2.extra.value, MESSAGE_EXTRA_GEMINI) == ns;
    assert GetMessageExtraGemini(m2, false).value.1 == Some(ns);
    assert Get(ns, "thought_signatures") == StringsToValue(sigs);
  }

  // ---------------------------------------------------------------------
  // Parts

  const ERR_NOT_DATA_URL: string := "toGeminiParts: image url must be a data url!"
  const ERR_NOT_BASE64: string := "toGeminiParts: image url must be a base64 data url!"

  /** An image URL as inline data: it must be a data URL `data:image...`
      whose piece after the first `;` starts with `base64,`; the media type
      is the header after `data:` and the data the piece after `base64,` up
      to the next `;`. */
  function InlineDataOf(url: string): (r: Result<GeminiPart>)
    ensures !StartsWith(url, "data:image") ==> r == Err(PlainError(ERR_NOT_DATA_URL))
    ensures StartsWith(url, "data:image") && r.Err? ==> r == Err(PlainError(ERR_NOT_BASE64))
    ensures r.Ok? ==>
      r.value.InlineData?
      && StartsWith(url, "data:" + r.value.mimeType + ";base64," + r.value.data)
      && StartsWith(r.value.mimeType, "image")
      && ';' !in r.value.mimeType && ';' !in r.value.data
  {
    if !StartsWith(url, "data:image") then Err(PlainError(ERR_NOT_DATA_URL))
    else
      var pieces := SplitLimit2(url, ';');
      SplitHeadPrefix(url, "data:image", ';');
      if |pieces| < 2 || !StartsWith(pieces[1], "base64,") then Err(PlainError(ERR_NOT_BASE64))
      else
        InlinePieces(url);
        Ok(InlineData(pieces[0][5..], pieces[1][7..]))
  }

  lemma InlinePieces(url: string)
    requires StartsWith(url, "data:image") && ';' in url
    requires StartsWith(SplitLimit2(url, ';')[1], "base64,")
    ensures var pieces := SplitLimit2(url, ';');
      |pieces[0]| >= 5 && |pieces[1]| >= 7
      && StartsWith(url, "data:" + pieces[0][5..] + ";base64," + pieces[1][7..])
      && StartsWith(pieces[0][5..], "image")
      && ';' !in pieces[0][5..] && ';' !in pieces[1][7..]
  {
    var pieces := SplitLimit2(url, ';');
    SplitHeadPrefix(url, "data:image", ';');
    SplitTwoPieces(url, ';');
    var header := pieces[0];
    var data := pieces[1];
    assert header[..10] == "data:image";
    assert header[5..][..5] == header[5..10];
    assert header == "data:" + header[5..];
    assert data == "base64," + data[7..];
    assert header + [';'] + data == "data:" + header[5..] + ";base64," + data[7..];
    assert ';' !in data[7..] by {
      assert forall i :: 0 <= i < |data[7..]| ==> data[7..][i] == data[i + 7];
    }
    assert ';' !in header[5..] by {
      assert forall i :: 0 <= i < |header[5..]| ==> header[5..][i] == header[i + 5];
    }
  }

  /** One content part as a Gemini part; only text and data-URL images have
      one. */
  function GeminiPartOf(p: ContentPart, sig: Option<Value>): (r: Result<GeminiPart>)
    ensures p.Text? ==> r == Ok(TextPart(p.text, sig))
    ensures p.Image? && p.attrs.url.None? ==> r == Err(PlainError(ERR_NOT_DATA_URL))
    ensures p.Image? && p.attrs.url.Some? ==> r == InlineDataOf(p.attrs.url.value)
    ensures p.Audio? ==> r == Err(PlainError("toGeminiParts: audio not yet implemented!"))
    ensures p.File? ==> r == Err(PlainError("toGeminiParts: file not yet implemented!"))
  {
    match p
    case Text(t) => Ok(TextPart(t, sig))
    case Image(a) =>
      if a.url.None? then Err(PlainError(ERR_NOT_DATA_URL))
      else InlineDataOf(a.url.value)
    case Audio(_) => Err(PlainError("toGeminiParts: audio not yet implemented!"))
    case File(_) => Err(PlainError("toGeminiParts: file not yet implemented!"))
  }

  /** The two pieces of a split at the first `c`, with the `c` between them,
      start the string. */
  lemma SplitTwoPieces(s: string, c: char)
    requires c in s
    ensures |SplitLimit2(s, c)| == 2
    ensures StartsWith(s, SplitLimit2(s, c)[0] + [c] + SplitLimit2(s, c)[1])
    ensures c !in SplitLimit2(s, c)[0] && c !in SplitLimit2(s, c)[1]
  {
    var k := IndexOf(s, c);
    var a := s[..k];
    var rest := s[k + 1..];
    assert s == a + [c] + rest;
    SplitAt(a, rest, c);
    SplitFirstPrefix(rest, c);
    PrefixExtend(a + [c], rest, Split(rest, c)[0]);
  }

  /** The first piece of a split starts the string. */
  lemma SplitFirstPrefix(s: string, c: char)
    ensures StartsWith(s, Split(s, c)[0])
  {
    var k := IndexOf(s, c);
    if k >= 0 {
      assert Split(s, c)[0] == s[..k];
    }
  }

  lemma PrefixExtend(x: string, s: string, p: string)
    requires StartsWith(s, p)
    ensures StartsWith(x + s, x + p)
  {
    assert (x + s)[..|x + p|] == x + s[..|p|];
  }

  /** A data URL built from a media type and base64 data that hold no `;`
      gives those two back. */
  lemma GeminiImageRoundTrip(mime: string, data: string, a: FileAttrs, sig: Option<Value>)
    requires StartsWith(mime, "image") && ';' !in mime && ';' !in data
    requires a.url == Some("data:" + mime + ";base64," + data)
    ensures GeminiPartOf(Image(a), sig) == Ok(InlineData(mime, data))
  {
    var url := a.url.value;
    var head := "data:" + mime;
    var tail := "base64," + data;
    assert url == head + [';'] + tail;
    assert StartsWith(url, "data:image") by {
      assert url[..10] == head[..10];
      assert head[..10] == "data:" + mime[..5];
    }
    assert ';' !in head;
    assert ';' !in tail;
    SplitLimit2At(head, tail, ';');
    assert tail[..7] == "base64,";
    assert head[5..] == mime;
    assert tail[7..] == data;
  }

  /** `content.map(...)` over parts: one Gemini part per content part, or
      the error of the first part that has none. */
  function GeminiPartsOf(ps: seq<ContentPart>, sig: Option<Value>): (r: Result<seq<GeminiPart>>)
    ensures r.Ok? <==> forall i :: 0 <= i < |ps| ==> GeminiPartOf(ps[i], sig).Ok?
    ensures r.Ok? ==> |r.value| == |ps| && forall i :: 0 <= i < |ps| ==> r.value[i] == GeminiPartOf(ps[i], sig).value
  {
    if |ps| == 0 then Ok([])
    else
      var init := ps[..|ps| - 1];
      assert forall i :: 0 <= i < |init| ==> ps[i] == init[i];
      var prev := GeminiPartsOf(init, sig);
      if prev.Err? then Err(prev.error)
      else
        var q := GeminiPartOf(ps[|ps| - 1], sig);
        if q.Err? then Err(q.error)
        else Ok(prev.value + [q.value])
  }

  /** `toGeminiParts`: a string is one text part, even when empty; every text
      part carries the message's thought signature. */
  function ToGeminiParts(m: Message): (r: Result<seq<GeminiPart>>)
    ensures m.content.Plain? ==> r == Ok([TextPart(m.content.s, SignatureOf(m))])
    ensures m.content.Parts? ==>
      (r.Ok? <==> forall i :: 0 <= i < |m.content.parts| ==> GeminiPartOf(m.content.parts[i], SignatureOf(m)).Ok?)
    ensures m.content.Parts? && r.Ok? ==>
      |r.value| == |m.content.parts|
      && forall i :: 0 <= i < |r.value| ==> r.value[i] == GeminiPartOf(m.content.parts[i], SignatureOf(m)).value
  {
    var sig := SignatureOf(m);
    match m.content
    case Plain(s) => Ok([TextPart(s, sig)])
    case Parts(ps) => GeminiPartsOf(ps, sig)
  }

  /** Every text part of a message's Gemini parts carries the message's
      signature. */
  lemma ToGeminiPartsSigned(m: Message)
    requires ToGeminiParts(m).Ok?
    ensures forall i :: 0 <= i < |ToGeminiParts(m).value| && ToGeminiParts(m).value[i].TextPart? ==>
      ToGeminiParts(m).value[i].thoughtSignature == SignatureOf(m)
  {
  }

  function GeminiRole(role: string): string {
    if role == "assistant" then "model" else "user"
  }

  function ToGeminiContent(m: Message): Result<GeminiContent> {
    var parts :- ToGeminiParts(m);
    Ok(GeminiContent(GeminiRole(m.role), parts))
  }

  /** The turns of a list of messages, or the error of the first one that
      has none. */
  function GeminiContents(ms: seq<Message>): (r: Result<seq<GeminiContent>>)
    ensures r.Ok? ==> |r.value| == |ms|
  {
    if |ms| == 0 then Ok([])
    else
      var init := ms[..|ms| - 1];
      var prev := GeminiContents(init);
      if prev.Err? then Err(prev.error)
      else
        var c := ToGeminiContent(ms[|ms| - 1]);
        if c.Err? then Err(c.error)
        else Ok(prev.value + [c.value])
  }

  /** The turns exist exactly when every message has Gemini parts. */
  lemma {:induction false} GeminiContentsOk(ms: seq<Message>)
    ensures GeminiContents(ms).Ok? <==> forall i :: 0 <= i < |ms| ==> ToGeminiParts(ms[i]).Ok?
  {
    if |ms| > 0 {
      var init := ms[..|ms| - 1];
      GeminiContentsOk(init);
      assert forall i :: 0 <= i < |init| ==> ms[i] == init[i];
    }
  }

  // ---------------------------------------------------------------------
  // The encoder

  /** The encoder's loop after the first `n` messages: the system texts
      collected and the turns pushed. */
  function GeminiFold(ms: seq<Message>, n: nat): Result<(seq<string>, seq<GeminiContent>)>
    requires n <= |ms|
  {
    if n == 0 then Ok(([], []))
    else
      var prev := GeminiFold(ms, n - 1);
      if prev.Err? then prev else GeminiStep(prev.value, ms, n - 1)
  }

  /** One message of the loop: a system message adds its texts, any other
      pushes the turns of the suffix from it on. */
  function GeminiStep(acc: (seq<string>, seq<GeminiContent>), ms: seq<Message>, i: nat): Result<(seq<string>, seq<GeminiContent>)>
    requires i < |ms|
  {
    var m := ms[i];
    if IsGeminiSystemRole(m.role) then Ok((acc.0 + MessageContentToTextArray(m.content), acc.1))
    else
      var suffix := GeminiContents(ms[i..]);
      if suffix.Err? then Err(suffix.error) else Ok((acc.0, acc.1 + suffix.value))
  }

  /** The request the encoder returns: the model, no contents, and the
      system texts when there are any. */
  function EncodeSpec(req: StepParams): Result<GeminiRequestBody> {
    var (sys, _) :- GeminiFold(req.messages, |req.messages|);
    Ok(GeminiRequestBody(GEMINI_MODEL, [], if |sys| > 0 then Some(sys) else None))
  }

  /** Once the loop has failed it stays failed with the same error. */
  lemma {:induction false} GeminiFoldErr(ms: seq<Message>, i: nat, n: nat)
    requires i <= n <= |ms| && GeminiFold(ms, i).Err?
    ensures GeminiFold(ms, n).Err? && GeminiFold(ms, n).error == GeminiFold(ms, i).error
    decreases n - i
  {
    if i < n {
      GeminiFoldErr(ms, i, n - 1);
    }
  }

  lemma GeminiFoldNext(ms: seq<Message>, i: nat, sys: seq<string>, turns: seq<GeminiContent>)
    requires i < |ms| && GeminiFold(ms, i) == Ok((sys, turns))
    ensures GeminiFold(ms, i + 1)
            == if IsGeminiSystemRole(ms[i].role) then Ok((sys + MessageContentToTextArray(ms[i].content), turns))
               else if GeminiContents(ms[i..]).Err? then Err(GeminiContents(ms[i..]).error)
               else Ok((sys, turns + GeminiContents(ms[i..]).value))
  {
  }

  /** `createStepEncoder()(req)`. */
  method Encode(req: StepParams) returns (r: Result<GeminiRequestBody>)
    ensures r == EncodeSpec(req)
  {
    var ms := req.messages;
    var sys: seq<string> := [];
    var turns: seq<GeminiContent> := [];
    for i := 0 to |ms|
      invariant GeminiFold(ms, i) == Ok((sys, turns))
    {
      var m := ms[i];
      GeminiFoldNext(ms, i, sys, turns);
      if IsGeminiSystemRole(m.role) {
        sys := sys + MessageContentToTextArray(m.content);
        continue;
      }
      var suffix := GeminiContents(ms[i..]);
      if suffix.Err? {
        GeminiFoldErr(ms, i + 1, |ms|);
        return Err(suffix.error);
      }
      turns := turns + suffix.value;
    }
    r := Ok(GeminiRequestBody(GEMINI_MODEL, [], if |sys| > 0 then Some(sys) else None));
  }

  // ---------------------------------------------------------------------
  // Properties

  /** The text strings of every system or developer message, in order. */
  function SystemTexts(ms: seq<Message>): seq<string> {
    if |ms| == 0 then []
    else
      var m := ms[|ms| - 1];
      SystemTexts(ms[..|ms| - 1]) + (if IsGeminiSystemRole(m.role) then MessageContentToTextArray(m.content) else [])
  }

  /** The index of the first message that is not a system message. */
  function FirstTurn(ms: seq<Message>): (r: nat)
    ensures r <= |ms|
    ensures forall i :: 0 <= i < r ==> IsGeminiSystemRole(ms[i].role)
    ensures r < |ms| ==> !IsGeminiSystemRole(ms[r].role)
  {
    if |ms| == 0 || !IsGeminiSystemRole(ms[0].role) then 0
    else
      var k := FirstTurn(ms[1..]);
      assert forall i :: 0 <= i < k ==> ms[1..][i] == ms[i + 1];
      1 + k
  }

  lemma FirstTurnPrefix(ms: seq<Message>, n: nat)
    requires n <= |ms|
    ensures FirstTurn(ms[..n]) == (if FirstTurn(ms) < n then FirstTurn(ms) else n)
  {
    var f := FirstTurn(ms);
    var g := FirstTurn(ms[..n]);
    assert forall i :: 0 <= i < n ==> ms[..n][i] == ms[i];
    if f < n {
      assert !IsGeminiSystemRole(ms[..n][f].role);
    }
  }

  /** The loop collects exactly the system texts, and fails exactly when a
      message from the first non-system one on has no Gemini parts. */
  lemma {:induction false} GeminiFoldFacts(ms: seq<Message>, n: nat)
    requires n <= |ms|
    ensures GeminiFold(ms, n).Ok? ==> GeminiFold(ms, n).value.0 == SystemTexts(ms[..n])
    ensures GeminiFold(ms, n).Ok?
            <==> (FirstTurn(ms) < n ==> forall j :: FirstTurn(ms) <= j < |ms| ==> ToGeminiParts(ms[j]).Ok?)
  {
    if n > 0 {
      GeminiFoldFacts(ms, n - 1);
      assert ms[..n][..n - 1] == ms[..n - 1];
      assert ms[..n][n - 1] == ms[n - 1];
      var f := FirstTurn(ms);
      if !IsGeminiSystemRole(ms[n - 1].role) {
        assert f <= n - 1;
        SuffixContentsOk(ms, n - 1);
      } else {
        assert f != n - 1;
      }
    }
  }

  /** The turns of a suffix exist exactly when each of its messages has
      Gemini parts. */
  lemma SuffixContentsOk(ms: seq<Message>, i: nat)
    requires i <= |ms|
    ensures GeminiContents(ms[i..]).Ok? <==> forall j :: i <= j < |ms| ==> ToGeminiParts(ms[j]).Ok?
  {
    var suffix := ms[i..];
    GeminiContentsOk(suffix);
    assert forall j :: i <= j < |ms| ==> ms[j] == suffix[j - i];
  }

  /** The encoder fails exactly when a message from the first non-system one
      on has a part Gemini cannot take; otherwise its request has the fixed
      model, empty contents, and the system texts only when there are any. */
  lemma EncodeFacts(req: StepParams)
    ensures var ms := req.messages; var r := EncodeSpec(req);
      (r.Ok? <==> forall j :: FirstTurn(ms) <= j < |ms| ==> ToGeminiParts(ms[j]).Ok?)
      && (r.Ok? ==>
            r.value.model == GEMINI_MODEL && r.value.contents == []
            && (r.value.systemInstruction.Some? <==> |SystemTexts(ms)| > 0)
            && (r.value.systemInstruction.Some? ==> r.value.systemInstruction.value == SystemTexts(ms)))
  {
    var ms := req.messages;
    GeminiFoldFacts(ms, |ms|);
    assert ms[..|ms|] == ms;
  }

  /** The turns the loop builds (and drops) repeat the suffix at every
      non-system index: two user messages give three turns. */
  lemma SuffixTurns()
    ensures var ms := [NewMessage("user", Plain("a")), NewMessage("user", Plain("b"))];
      GeminiFold(ms, 2) == Ok(([], [GeminiContent("user", [TextPart("a", None)]),
                                    GeminiContent("user", [TextPart("b", None)]),
                                    GeminiContent("user", [TextPart("b", None)])]))
      && EncodeSpec(StepParams(ms, None, None)) == Ok(GeminiRequestBody(GEMINI_MODEL, [], None))
  {
    var a := NewMessage("user", Plain("a"));
    var b := NewMessage("user", Plain("b"));
    var ms := [a, b];
    var ca := GeminiContent("user", [TextPart("a", None)]);
    var cb := GeminiContent("user", [TextPart("b", None)]);
    assert SignatureOf(a).None? && SignatureOf(b).None?;
    assert ToGeminiContent(a) == Ok(ca);
    assert ToGeminiContent(b) == Ok(cb);
    assert ms[1..] == [b];
    assert [b][..0] == [] && [a][..0] == [];
    assert GeminiContents([]) == Ok([]);
    assert [] + [cb] == [cb] && [] + [ca] == [ca];
    assert GeminiContents([b]) == Ok([cb]);
    assert ms[0..] == ms;
    assert ms[..1] == [a];
    assert GeminiContents([a]) == Ok([ca]);
    assert [ca] + [cb] == [ca, cb];
    assert GeminiContents(ms) == Ok([ca, cb]);
    var e: seq<string> := [];
    assert GeminiFold(ms, 0) == Ok((e, []));
    assert [] + [ca, cb] == [ca, cb];
    assert GeminiFold(ms, 1) == Ok((e, [ca, cb]));
    assert [ca, cb] + [cb] == [ca, cb, cb];
  }
}
