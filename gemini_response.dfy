/**
 Decoding a Gemini `generateContent` response: the finish-reason table,
 inline image data as a data-URL image part, and the candidate content as
 one assistant message (answer text and images in `content`, thought text
 in `reasoning`, thought signatures in `extra.gemini`).
 */
module GeminiResponse {
  import opened Wrappers
  import opened Json
  import opened Strings
  import opened Content
  import opened Messages
  import opened ProviderExtra
  import opened Step
  import opened GeminiRequest

  datatype Blob = Blob(mimeType: Option<string>, data: Option<string>)

  /** A response part; `thought` is `false` when absent. */
  datatype ResponsePart = ResponsePart(
    text: Option<string>,
    thought: bool,
    thoughtSignature: Option<string>,
    inlineData: Option<Blob>)

  datatype ResponseContent = ResponseContent(parts: Option<seq<ResponsePart>>)

  datatype Candidate = Candidate(content: Option<ResponseContent>)

  datatype GenerateContentResponse = GenerateContentResponse(candidates: Option<seq<Candidate>>)

  predicate IsContentFilterReason(reason: string) {
    reason == "SAFETY" || reason == "RECITATION" || reason == "BLOCKLIST"
    || reason == "PROHIBITED_CONTENT" || reason == "SPII"
  }

  /** `fromGeminiFinishReason`, as an OpenAI-style finish reason. */
  function FromGeminiFinishReason(reason: string): (r: string)
    ensures r == "stop" || r == "length" || r == "content_filter"
    ensures r == "length" <==> reason == "MAX_TOKENS"
    ensures r == "content_filter" <==> IsContentFilterReason(reason)
  {
    if reason == "MAX_TOKENS" then "length"
    else if IsContentFilterReason(reason) then "content_filter"
    else "stop"
  }

  /** A template literal shows a missing string as `undefined`. */
  function TemplateText(s: Option<string>): string {
    if s.Some? then s.value else "undefined"
  }

  /** `fromGeminiBlob`: a blob whose media type starts with `image/` as an image part holding a base64
      data URL, nothing for any other blob. */
  function FromGeminiBlob(b: Blob): (r: Option<ContentPart>)
    ensures r.Some? <==> b.mimeType.Some? && StartsWith(b.mimeType.value, "image/")
    ensures r.Some? ==>
      r.value.Image? && r.value.attrs.url.Some?
      && r.value.attrs == FileAttrs(None, None, None, r.value.attrs.url, None)
      && r.value.attrs.url.value == "data:" + b.mimeType.value + ";base64," + TemplateText(b.data)
  {
    if b.mimeType.Some? && StartsWith(b.mimeType.value, "image/") then
      Some(Image(FileAttrs(None, None, None, Some("data:" + b.mimeType.value + ";base64," + TemplateText(b.data)), None)))
    else None
  }

  /** An image blob read back by the request encoder gives the same media
      type and data, when neither holds a `;`. */
  lemma BlobRoundTrip(b: Blob, sig: Option<Value>)
    requires b.mimeType.Some? && StartsWith(b.mimeType.value, "image/") && b.data.Some?
    requires ';' !in b.mimeType.value && ';' !in b.data.value
    ensures FromGeminiBlob(b).Some?
    ensures GeminiPartOf(FromGeminiBlob(b).value, sig) == Ok(InlineData(b.mimeType.value, b.data.value))
  {
    var mime := b.mimeType.value;
    assert StartsWith(mime, "image") by {
      assert mime[..5] == mime[..6][..5];
    }
    GeminiImageRoundTrip(mime, b.data.value, FromGeminiBlob(b).value.attrs, sig);
  }

  // ---------------------------------------------------------------------
  // The candidate content

  /** The image part a response part adds, if any. */
  function BlobPart(p: ResponsePart): Option<ContentPart> {
    if p.inlineData.Some? then FromGeminiBlob(p.inlineData.value) else None
  }

  /** Whether a part's text is answer text, and whether it is thought text:
      a missing or empty text is neither. */
  predicate IsAnswer(p: ResponsePart) {
    NonEmpty(p.text) && !p.thought
  }

  predicate IsThought(p: ResponsePart) {
    NonEmpty(p.text) && p.thought
  }

  /** One part's effect on `content`: its image, then its answer text. */
  function ContentStep(content: MessageContent, p: ResponsePart): MessageContent {
    var c1 := if BlobPart(p).Some? then ConcatStep(content, Parts([BlobPart(p).value])) else content;
    if IsAnswer(p) then ConcatStep(c1, Plain(p.text.value)) else c1
  }

  function ContentFold(ps: seq<ResponsePart>): MessageContent {
    if |ps| == 0 then Plain("") else ContentStep(ContentFold(ps[..|ps| - 1]), ps[|ps| - 1])
  }

  function ThoughtTexts(ps: seq<ResponsePart>): seq<string> {
    if |ps| == 0 then []
    else
      var p := ps[|ps| - 1];
      ThoughtTexts(ps[..|ps| - 1]) + (if IsThought(p) then [p.text.value] else [])
  }

  function Signatures(ps: seq<ResponsePart>): seq<string> {
    if |ps| == 0 then []
    else
      var p := ps[|ps| - 1];
      Signatures(ps[..|ps| - 1]) + (if NonEmpty(p.thoughtSignature) then [p.thoughtSignature.value] else [])
  }

  /** The message built from the three accumulations. */
  function AssembleGemini(content: MessageContent, thoughts: seq<string>, sigs: seq<string>): (r: Message)
    ensures r.role == "assistant" && r.content == content
    ensures r.reasoning.Some? <==> |thoughts| > 0
    ensures r.reasoning.Some? ==> r.reasoning.value == Plain(Join(thoughts, "\n"))
    ensures r.extra.Some? <==> |sigs| > 0
    ensures |sigs| > 0 ==>
      r.extra == Some(Obj(map[MESSAGE_EXTRA_GEMINI := Obj(map["thought_signatures" := StringsToValue(sigs)])]))
    ensures r.id.None? && r.call_id.None? && r.name.None? && r.refusal.None? && r.tool_calls.None?
  {
    var m0 := NewMessage("assistant", content);
    var m1 := if |thoughts| > 0 then m0.(reasoning := Some(Plain(Join(thoughts, "\n")))) else m0;
    if |sigs| > 0 then WithThoughtSignatures(m1, sigs) else m1
  }

  function FromGeminiContentSpec(ps: seq<ResponsePart>): Message {
    AssembleGemini(ContentFold(ps), ThoughtTexts(ps), Signatures(ps))
  }

  /** `fromGeminiContent`: one pass over the parts. */
  method FromGeminiContent(ps: seq<ResponsePart>) returns (m: Message)
    ensures m == FromGeminiContentSpec(ps)
  {
    var thoughtSignatures: seq<string> := [];
    var content: MessageContent := Plain("");
    var reasoningArr: seq<string> := [];
    for i := 0 to |ps|
      invariant content == ContentFold(ps[..i])
      invariant reasoningArr == ThoughtTexts(ps[..i])
      invariant thoughtSignatures == Signatures(ps[..i])
    {
      assert ps[..i + 1][..i] == ps[..i];
      var part := ps[i];
      ghost var before := content;
      if NonEmpty(part.thoughtSignature) {
        thoughtSignatures := thoughtSignatures + [part.thoughtSignature.value];
      }
      if part.inlineData.Some? {
        var blobPart := FromGeminiBlob(part.inlineData.value);
        if blobPart.Some? {
          content := ConcatContentsTo(content, [Parts([blobPart.value])]);
          assert [Parts([blobPart.value])][..0] == [];
        }
      }
      ghost var withBlob := content;
      assert withBlob == (if BlobPart(part).Some? then ConcatStep(before, Parts([BlobPart(part).value])) else before);
      if !NonEmpty(part.text) {
        assert reasoningArr + [] == reasoningArr;
        continue;
      }
      if part.thought {
        reasoningArr := reasoningArr + [part.text.value];
      } else {
        content := ConcatContentsTo(content, [Plain(part.text.value)]);
        assert [Plain(part.text.value)][..0] == [];
        assert reasoningArr + [] == reasoningArr;
      }
    }
    assert ps[..|ps|] == ps;
    m := NewMessage("assistant", content);
    if |reasoningArr| > 0 {
      m := m.(reasoning := Some(Plain(Join(reasoningArr, "\n"))));
    }
    if |thoughtSignatures| > 0 {
      m := WithThoughtSignatures(m, thoughtSignatures);
    }
  }

  /** The step decoder: the message of the first candidate when it has
      content, no message otherwise. */
  method DecodeStep(res: GenerateContentResponse) returns (r: StepResult)
    ensures |r.messages| <= 1
    ensures |r.messages| == 1
            <==> res.candidates.Some? && |res.candidates.value| > 0 && res.candidates.value[0].content.Some?
    ensures |r.messages| == 1 ==>
      var parts := res.candidates.value[0].content.value.parts;
      r.messages[0] == FromGeminiContentSpec(if parts.Some? then parts.value else [])
    ensures r.token_usage.None? && r.metadata.None?
  {
    r := StepResult([], None, None);
    if res.candidates.Some? && |res.candidates.value| > 0 && res.candidates.value[0].content.Some? {
      var parts := res.candidates.value[0].content.value.parts;
      var m := FromGeminiContent(if parts.Some? then parts.value else []);
      r := r.(messages := [m]);
    }
  }

  // ---------------------------------------------------------------------
  // Properties

  /** The answer texts in part order. */
  function AnswerTexts(ps: seq<ResponsePart>): seq<string> {
    if |ps| == 0 then []
    else
      var p := ps[|ps| - 1];
      AnswerTexts(ps[..|ps| - 1]) + (if IsAnswer(p) then [p.text.value] else [])
  }

  /** The image parts in part order. */
  function BlobParts(ps: seq<ResponsePart>): seq<ContentPart> {
    if |ps| == 0 then []
    else
      var p := ps[|ps| - 1];
      BlobParts(ps[..|ps| - 1]) + (if BlobPart(p).Some? then [BlobPart(p).value] else [])
  }

  /** The parts of a part list that are not text. */
  function NonTextParts(ps: seq<ContentPart>): seq<ContentPart> {
    if |ps| == 0 then []
    else NonTextParts(ps[..|ps| - 1]) + (if ps[|ps| - 1].Text? then [] else [ps[|ps| - 1]])
  }

  lemma {:induction false} NonTextPartsAppend(a: seq<ContentPart>, b: seq<ContentPart>)
    ensures NonTextParts(a + b) == NonTextParts(a) + NonTextParts(b)
    decreases |b|
  {
    if |b| == 0 {
      assert a + b == a;
    } else {
      NonTextPartsAppend(a, b[..|b| - 1]);
      assert (a + b)[..|a + b| - 1] == a + b[..|b| - 1];
    }
  }

  lemma NonTextOfText(s: string)
    ensures NonTextParts(TextToContentPartArray(s)) == []
  {
    var q := TextToContentPartArray(s);
    if |q| == 1 {
      assert q[..0] == [];
    }
  }

  /** The content's text is the answer texts in order. */
  lemma {:induction false} ContentFoldText(ps: seq<ResponsePart>)
    ensures MessageContentToText(ContentFold(ps)) == Concat(AnswerTexts(ps))
  {
    if |ps| > 0 {
      var init := ps[..|ps| - 1];
      var p := ps[|ps| - 1];
      ContentFoldText(init);
      var c0 := ContentFold(init);
      var c1 := if BlobPart(p).Some? then ConcatStep(c0, Parts([BlobPart(p).value])) else c0;
      if BlobPart(p).Some? {
        ConcatStepText(c0, Parts([BlobPart(p).value]));
        assert PartsText([BlobPart(p).value]) == "" by {
          assert seq(1, i requires 0 <= i < 1 => PartText([BlobPart(p).value][i])) == [""];
        }
      }
      assert MessageContentToText(c1) == Concat(AnswerTexts(init));
      if IsAnswer(p) {
        ConcatStepText(c1, Plain(p.text.value));
        ConcatAppend(AnswerTexts(init), p.text.value);
      } else {
        assert AnswerTexts(ps) == AnswerTexts(init) + [];
        assert AnswerTexts(init) + [] == AnswerTexts(init);
      }
    }
  }

  /** The content is a part list exactly when an image came, and then its
      non-text parts are the images in order. */
  lemma {:induction false} ContentFoldParts(ps: seq<ResponsePart>)
    ensures ContentFold(ps).Parts? <==> |BlobParts(ps)| > 0
    ensures ContentFold(ps).Parts? ==> NonTextParts(ContentFold(ps).parts) == BlobParts(ps)
  {
    if |ps| > 0 {
      var init := ps[..|ps| - 1];
      var p := ps[|ps| - 1];
      ContentFoldParts(init);
      var c0 := ContentFold(init);
      var c1 := if BlobPart(p).Some? then ConcatStep(c0, Parts([BlobPart(p).value])) else c0;
      if BlobPart(p).Some? {
        BlobStep(c0, BlobPart(p).value, BlobParts(init));
      }
      if IsAnswer(p) {
        TextStep(c1, p.text.value, BlobParts(ps));
      }
    }
  }

  /** The shape `ContentFoldParts` keeps: a part list exactly when images
      came, and then its non-text parts are those images. */
  ghost predicate ShapedBy(c: MessageContent, blobs: seq<ContentPart>) {
    (c.Parts? <==> |blobs| > 0) && (c.Parts? ==> NonTextParts(c.parts) == blobs)
  }

  lemma BlobStep(c0: MessageContent, x: ContentPart, blobs: seq<ContentPart>)
    requires x.Image? && ShapedBy(c0, blobs)
    ensures ShapedBy(ConcatStep(c0, Parts([x])), blobs + [x])
  {
    assert [x][..0] == [];
    if c0.Plain? {
      NonTextOfText(c0.s);
      NonTextPartsAppend(TextToContentPartArray(c0.s), [x]);
    } else {
      NonTextPartsAppend(c0.parts, [x]);
    }
  }

  lemma TextStep(c1: MessageContent, t: string, blobs: seq<ContentPart>)
    requires t != "" && ShapedBy(c1, blobs)
    ensures ShapedBy(ConcatStep(c1, Plain(t)), blobs)
  {
    if c1.Parts? {
      assert [Text(t)][..0] == [];
      NonTextPartsAppend(c1.parts, [Text(t)]);
    }
  }

  lemma {:induction false} SignaturesNonEmpty(ps: seq<ResponsePart>)
    ensures forall i :: 0 <= i < |Signatures(ps)| ==> Signatures(ps)[i] != ""
  {
    if |ps| > 0 {
      SignaturesNonEmpty(ps[..|ps| - 1]);
    }
  }

  /** The decoded message: answer text as content, images as its non-text
      parts, thought texts joined by newlines as reasoning, and the
      signatures under `extra.gemini` only when there are any. */
  lemma FromGeminiContentFacts(ps: seq<ResponsePart>)
    ensures var m := FromGeminiContentSpec(ps);
      m.role == "assistant"
      && MessageContentToText(m.content) == Concat(AnswerTexts(ps))
      && (m.content.Parts? <==> |BlobParts(ps)| > 0)
      && (m.content.Parts? ==> NonTextParts(m.content.parts) == BlobParts(ps))
      && (m.reasoning.Some? <==> |ThoughtTexts(ps)| > 0)
      && (m.reasoning.Some? ==> MessageContentToText(m.reasoning.value) == Join(ThoughtTexts(ps), "\n"))
      && (m.extra.Some? <==> |Signatures(ps)| > 0)
  {
    ContentFoldText(ps);
    ContentFoldParts(ps);
  }

  /** Encoding the decoded message again attaches its first thought
      signature to the text parts. */
  lemma SignatureReplay(ps: seq<ResponsePart>)
    ensures var sigs := Signatures(ps);
      SignatureOf(FromGeminiContentSpec(ps)) == (if |sigs| > 0 then Some(Str(sigs[0])) else None)
  {
    var sigs := Signatures(ps);
    SignaturesNonEmpty(ps);
    var m0 := NewMessage("assistant", ContentFold(ps));
    var thoughts := ThoughtTexts(ps);
    var m1 := if |thoughts| > 0 then m0.(reasoning := Some(Plain(Join(thoughts, "\n")))) else m0;
    SignatureOfStored(m1, sigs);
  }
}
