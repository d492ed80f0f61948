/**
 Message content: either a plain string or a list of content parts, and the
 two ways of merging contents (a fresh concatenation and an accumulating
 append onto a target).
 */
module Content {
  import opened Wrappers
  import opened Strings

  /** The optional attributes shared by image, audio and file parts. Binary
      (`ArrayBuffer`) data is not modelled: `data` is always a string here. */
  datatype FileAttrs = FileAttrs(
    format: Option<string>,
    file_id: Option<string>,
    name: Option<string>,
    url: Option<string>,
    data: Option<string>)

  datatype ContentPart =
    | Text(text: string)
    | Image(attrs: FileAttrs)
    | Audio(attrs: FileAttrs)
    | File(attrs: FileAttrs)

  datatype MessageContent = Plain(s: string) | Parts(parts: seq<ContentPart>)

  /** `content.length`: characters of a string, parts of a list. */
  function Length(c: MessageContent): nat {
    match c
    case Plain(s) => |s|
    case Parts(ps) => |ps|
  }

  function TextToContentPart(text: string): ContentPart {
    Text(text)
  }

  /** The text contributed by one part to the text projection. */
  function PartText(p: ContentPart): string {
    if p.Text? then p.text else ""
  }

  /** `parts.map(p => p.type === 'text' ? p.text : "").join("")`. */
  function PartsText(ps: seq<ContentPart>): string {
    Concat(seq(|ps|, i requires 0 <= i < |ps| => PartText(ps[i])))
  }

  /** `parts.filter(p => p.type === 'text').map(p => p.text)`. */
  function TextPartTexts(ps: seq<ContentPart>): seq<string> {
    if |ps| == 0 then []
    else TextPartTexts(ps[..|ps| - 1]) + (if ps[|ps| - 1].Text? then [ps[|ps| - 1].text] else [])
  }

  /** An empty string gives no part, any other string exactly one text part
      holding it. */
  function TextToContentPartArray(text: string): (r: seq<ContentPart>)
    ensures |r| == (if text == "" then 0 else 1)
    ensures forall i :: 0 <= i < |r| ==> r[i].Text?
    ensures PartsText(r) == text
  {
    var r := if text != "" then [TextToContentPart(text)] else [];
    assert PartsText(r) == text by {
      if text != "" {
        assert seq(|r|, i requires 0 <= i < |r| => PartText(r[i])) == [text];
      }
    }
    r
  }

  /** `messageContentToText`. */
  function MessageContentToText(c: MessageContent): string {
    match c
    case Plain(s) => s
    case Parts(ps) => PartsText(ps)
  }

  /** `messageContentToText` on an optional content: absent stays absent. */
  function OptionalContentToText(c: Option<MessageContent>): Option<string> {
    match c
    case None => None
    case Some(c) => Some(MessageContentToText(c))
  }

  /** `messageContentToTextArray`. */
  function MessageContentToTextArray(c: MessageContent): seq<string> {
    match c
    case Plain(s) => [s]
    case Parts(ps) => TextPartTexts(ps)
  }

  lemma PartsTextAppend(ps: seq<ContentPart>, p: ContentPart)
    ensures PartsText(ps + [p]) == PartsText(ps) + PartText(p)
  {
    var m := seq(|ps|, i requires 0 <= i < |ps| => PartText(ps[i]));
    var q := ps + [p];
    assert seq(|q|, i requires 0 <= i < |q| => PartText(q[i])) == m + [PartText(p)];
    ConcatAppend(m, PartText(p));
  }

  lemma {:induction false} PartsTextSplit(a: seq<ContentPart>, b: seq<ContentPart>)
    ensures PartsText(a + b) == PartsText(a) + PartsText(b)
  {
    if |b| == 0 {
      assert a + b == a;
      assert PartsText(b) == "";
    } else {
      var b' := b[..|b| - 1];
      var p := b[|b| - 1];
      assert a + b == (a + b') + [p];
      assert b == b' + [p];
      PartsTextSplit(a, b');
      PartsTextAppend(a + b', p);
      PartsTextAppend(b', p);
    }
  }

  /** Joining the texts the array form keeps gives the text form: dropping the
      non-text parts loses nothing, since they contribute `""`. */
  lemma {:induction false} TextArrayJoinsToText(c: MessageContent)
    ensures Concat(MessageContentToTextArray(c)) == MessageContentToText(c)
  {
    match c
    case Plain(s) =>
    case Parts(ps) => TextPartTextsConcat(ps);
  }

  lemma {:induction false} TextPartTextsConcat(ps: seq<ContentPart>)
    ensures Concat(TextPartTexts(ps)) == PartsText(ps)
  {
    if |ps| == 0 {
    } else {
      var init := ps[..|ps| - 1];
      var p := ps[|ps| - 1];
      assert ps == init + [p];
      TextPartTextsConcat(init);
      PartsTextAppend(init, p);
      if p.Text? {
        ConcatAppend(TextPartTexts(init), p.text);
      } else {
        assert TextPartTexts(ps) == TextPartTexts(init);
      }
    }
  }

  /** Every text part contributes one entry to the array form, in order, and
      nothing else does. */
  lemma {:induction false} TextPartTextsAppend(a: seq<ContentPart>, b: seq<ContentPart>)
    ensures TextPartTexts(a + b) == TextPartTexts(a) + TextPartTexts(b)
  {
    if |b| == 0 {
      assert a + b == a;
    } else {
      var b' := b[..|b| - 1];
      assert a + b == (a + b') + [b[|b| - 1]];
      assert (a + b)[..|a + b| - 1] == a + b';
      assert b[..|b| - 1] == b';
      TextPartTextsAppend(a, b');
    }
  }

  // ---------------------------------------------------------------------------
  // concatContents

  /** The text projections of a list of contents. */
  function Texts(cs: seq<MessageContent>): seq<string> {
    seq(|cs|, i requires 0 <= i < |cs| => MessageContentToText(cs[i]))
  }

  predicate AllPlain(cs: seq<MessageContent>) {
    forall i :: 0 <= i < |cs| ==> cs[i].Plain?
  }

  /** The parts one operand contributes to a mixed concatenation. */
  function OperandParts(c: MessageContent): seq<ContentPart> {
    match c
    case Plain(s) => TextToContentPartArray(s)
    case Parts(ps) => ps
  }

  /** `contents.flatMap(...)` of the mixed case. */
  function FlatParts(cs: seq<MessageContent>): seq<ContentPart> {
    if |cs| == 0 then [] else FlatParts(cs[..|cs| - 1]) + OperandParts(cs[|cs| - 1])
  }

  /** `concatContents(...contents)`. The result is a string exactly when every
      operand is one, and its text is the operands' texts concatenated. */
  function ConcatContents(cs: seq<MessageContent>): (r: MessageContent)
    ensures |cs| == 0 ==> r == Plain("")
    ensures |cs| == 1 ==> r == cs[0]
    ensures r.Plain? <==> AllPlain(cs)
    ensures MessageContentToText(r) == Concat(Texts(cs))
  {
    var r :=
      if |cs| == 0 then Plain("")
      else if |cs| == 1 then cs[0]
      else if AllPlain(cs) then Plain(Concat(seq(|cs|, i requires 0 <= i < |cs| => cs[i].s)))
      else Parts(FlatParts(cs));
    assert MessageContentToText(r) == Concat(Texts(cs)) by {
      if |cs| == 0 {
      } else if |cs| == 1 {
        assert Texts(cs) == [MessageContentToText(cs[0])];
      } else if AllPlain(cs) {
        assert seq(|cs|, i requires 0 <= i < |cs| => cs[i].s) == Texts(cs);
      } else {
        FlatPartsText(cs);
      }
    }
    r
  }

  lemma {:induction false} FlatPartsText(cs: seq<MessageContent>)
    ensures PartsText(FlatParts(cs)) == Concat(Texts(cs))
  {
    if |cs| == 0 {
      assert Texts(cs) == [];
    } else {
      var init := cs[..|cs| - 1];
      var c := cs[|cs| - 1];
      FlatPartsText(init);
      PartsTextSplit(FlatParts(init), OperandParts(c));
      assert Texts(cs) == Texts(init) + [MessageContentToText(c)];
      ConcatAppend(Texts(init), MessageContentToText(c));
    }
  }

  /** The mixed case lays the operands' parts side by side in argument order:
      flattening distributes over `+`. */
  lemma {:induction false} FlatPartsConcat(a: seq<MessageContent>, b: seq<MessageContent>)
    ensures FlatParts(a + b) == FlatParts(a) + FlatParts(b)
  {
    if |b| == 0 {
      assert a + b == a;
    } else {
      var b' := b[..|b| - 1];
      var x := OperandParts(b[|b| - 1]);
      assert (a + b)[..|a + b| - 1] == a + b';
      assert (a + b)[|a + b| - 1] == b[|b| - 1];
      assert FlatParts(a + b) == FlatParts(a + b') + x;
      assert FlatParts(b) == FlatParts(b') + x;
      FlatPartsConcat(a, b');
      assert (FlatParts(a) + FlatParts(b')) + x == FlatParts(a) + (FlatParts(b') + x);
    }
  }

  /** A single operand contributes its own parts: none for `""`, one text part
      for any other string, and a part list contributes itself. */
  lemma FlatPartsSingle(c: MessageContent)
    ensures FlatParts([c]) == OperandParts(c)
    ensures c.Plain? ==> FlatParts([c]) == (if c.s == "" then [] else [Text(c.s)])
  {
    assert [c][..0] == [];
  }

  /** Part-level merging is not associative: merging `"a"` and `"b"` first
      coalesces them into one text part, merging all three at once does not. */
  lemma ConcatContentsNotAssociative()
    ensures
      var p := Image(FileAttrs(None, None, None, Some("u"), None));
      ConcatContents([ConcatContents([Plain("a"), Plain("b")]), Parts([p])]) == Parts([Text("ab"), p])
      && ConcatContents([Plain("a"), Plain("b"), Parts([p])]) == Parts([Text("a"), Text("b"), p])
  {
    var p := Image(FileAttrs(None, None, None, Some("u"), None));
    MergedFirst(p);
    MergedAtOnce(p);
  }

  lemma MergedFirst(p: ContentPart)
    ensures ConcatContents([ConcatContents([Plain("a"), Plain("b")]), Parts([p])]) == Parts([Text("ab"), p])
  {
    var ab := seq(2, i requires 0 <= i < 2 => [Plain("a"), Plain("b")][i].s);
    assert ab == ["a", "b"];
    Concat2("a", "b");
    assert ConcatContents([Plain("a"), Plain("b")]) == Plain("ab");
    var x := [Plain("ab"), Parts([p])];
    assert !AllPlain(x) by { assert !x[1].Plain?; }
    FlatPartsConcat([Plain("ab")], [Parts([p])]);
    FlatPartsSingle(Plain("ab"));
    FlatPartsSingle(Parts([p]));
    assert [Plain("ab")] + [Parts([p])] == x;
    assert FlatParts(x) == [Text("ab"), p];
  }

  lemma MergedAtOnce(p: ContentPart)
    ensures ConcatContents([Plain("a"), Plain("b"), Parts([p])]) == Parts([Text("a"), Text("b"), p])
  {
    var y := [Plain("a"), Plain("b"), Parts([p])];
    assert !y[2].Plain?;
    MixedConcat(y);
    assert y[..2] == [Plain("a"), Plain("b")];
    assert y[..2][..1] == [Plain("a")];
    FlatPartsSingle(Plain("a"));
    assert FlatParts(y[..2]) == [Text("a"), Text("b")];
  }

  /** Two or more operands, one of them a part list, give their parts in
      order. */
  lemma MixedConcat(cs: seq<MessageContent>)
    requires |cs| >= 2 && !AllPlain(cs)
    ensures ConcatContents(cs) == Parts(FlatParts(cs))
  {
  }

  /** What is associative is the text projection. */
  lemma ConcatContentsTextAssociative(a: MessageContent, b: MessageContent, c: MessageContent)
    ensures MessageContentToText(ConcatContents([ConcatContents([a, b]), c]))
         == MessageContentToText(ConcatContents([a, b, c]))
  {
    var ab := ConcatContents([a, b]);
    assert Texts([a, b]) == [MessageContentToText(a), MessageContentToText(b)];
    assert Texts([ab, c]) == [MessageContentToText(ab), MessageContentToText(c)];
    assert Texts([a, b, c]) == [MessageContentToText(a), MessageContentToText(b), MessageContentToText(c)];
    Concat2(MessageContentToText(a), MessageContentToText(b));
    Concat2(MessageContentToText(ab), MessageContentToText(c));
    Concat3(MessageContentToText(a), MessageContentToText(b), MessageContentToText(c));
  }

  // ---------------------------------------------------------------------------
  // concatContentsTo

  /** One iteration of the `concatContentsTo` loop. */
  function ConcatStep(target: MessageContent, c: MessageContent): MessageContent {
    if Length(c) == 0 then target
    else
      match (target, c)
      case (Plain(a), Plain(b)) => Plain(a + b)
      case (Plain(a), Parts(q)) => Parts(TextToContentPartArray(a) + q)
      case (Parts(p), Plain(b)) => Parts(p + [TextToContentPart(b)])
      case (Parts(p), Parts(q)) => Parts(p + q)
  }

  /** The value `concatContentsTo(target, ...cs)` returns. */
  function ConcatInto(target: MessageContent, cs: seq<MessageContent>): MessageContent {
    if |cs| == 0 then target else ConcatStep(ConcatInto(target, cs[..|cs| - 1]), cs[|cs| - 1])
  }

  /** `concatContentsTo`: appends each non-empty operand to the target. */
  method ConcatContentsTo(target: MessageContent, contents: seq<MessageContent>) returns (r: MessageContent)
    ensures r == ConcatInto(target, contents)
  {
    if |contents| == 0 {
      return target;
    }
    r := target;
    for i := 0 to |contents|
      invariant r == ConcatInto(target, contents[..i])
    {
      assert contents[..i + 1][..i] == contents[..i];
      var content := contents[i];
      if Length(content) == 0 {
        continue;
      }
      if r.Plain? {
        if content.Plain? {
          r := Plain(r.s + content.s);
        } else {
          r := Parts(TextToContentPartArray(r.s) + content.parts);
        }
      } else {
        if content.Plain? {
          r := Parts(r.parts + [TextToContentPart(content.s)]);
        } else {
          r := Parts(r.parts + content.parts);
        }
      }
    }
    assert contents[..|contents|] == contents;
  }

  /** Operands of length zero (including no operands at all) leave the target
      as it is. */
  lemma {:induction false} ConcatIntoEmptyOperands(target: MessageContent, cs: seq<MessageContent>)
    requires forall i :: 0 <= i < |cs| ==> Length(cs[i]) == 0
    ensures ConcatInto(target, cs) == target
  {
    if |cs| > 0 {
      ConcatIntoEmptyOperands(target, cs[..|cs| - 1]);
    }
  }

  /** A part-list target stays a part list, and its original parts stay a
      prefix (appends only ever happen at its end). */
  lemma {:induction false} ConcatIntoKeepsParts(target: MessageContent, cs: seq<MessageContent>)
    requires target.Parts?
    ensures ConcatInto(target, cs).Parts?
    ensures target.parts <= ConcatInto(target, cs).parts
  {
    if |cs| > 0 {
      ConcatIntoKeepsParts(target, cs[..|cs| - 1]);
    }
  }

  /** The result is a string exactly when the target is one and every
      operand that is not empty is one too. */
  lemma {:induction false} ConcatIntoPlainIff(target: MessageContent, cs: seq<MessageContent>)
    ensures ConcatInto(target, cs).Plain?
        <==> target.Plain? && forall i :: 0 <= i < |cs| && Length(cs[i]) > 0 ==> cs[i].Plain?
  {
    if |cs| > 0 {
      var init := cs[..|cs| - 1];
      ConcatIntoPlainIff(target, init);
      if target.Parts? {
        ConcatIntoKeepsParts(target, cs);
      } else if ConcatInto(target, cs).Plain? {
        assert ConcatInto(target, init).Plain?;
        forall i | 0 <= i < |cs| && Length(cs[i]) > 0 ensures cs[i].Plain? {
          if i < |cs| - 1 {
            assert cs[i] == init[i];
          }
        }
      }
    }
  }

  /** One step appends the operand's text. */
  lemma ConcatStepText(t: MessageContent, c: MessageContent)
    ensures MessageContentToText(ConcatStep(t, c)) == MessageContentToText(t) + MessageContentToText(c)
  {
    if Length(c) > 0 {
      match (t, c)
      case (Plain(a), Plain(b)) =>
      case (Plain(a), Parts(q)) => PartsTextSplit(TextToContentPartArray(a), q);
      case (Parts(p), Plain(b)) => PartsTextAppend(p, Text(b));
      case (Parts(p), Parts(q)) => PartsTextSplit(p, q);
    } else if c.Parts? {
      assert c.parts == [];
      assert PartsText(c.parts) == "";
    }
  }

  /** The text of the result is the target's text followed by every operand's
      text. */
  lemma {:induction false} ConcatIntoText(target: MessageContent, cs: seq<MessageContent>)
    ensures MessageContentToText(ConcatInto(target, cs))
         == MessageContentToText(target) + Concat(Texts(cs))
  {
    if |cs| == 0 {
      assert Texts(cs) == [];
    } else {
      var init := cs[..|cs| - 1];
      var c := cs[|cs| - 1];
      ConcatIntoText(target, init);
      assert Texts(cs) == Texts(init) + [MessageContentToText(c)];
      ConcatAppend(Texts(init), MessageContentToText(c));
      ConcatStepText(ConcatInto(target, init), c);
      StringAssoc(MessageContentToText(target), Concat(Texts(init)), MessageContentToText(c));
    }
  }

  lemma StringAssoc(a: string, b: string, c: string)
    ensures (a + b) + c == a + (b + c)
  {
  }

  /** One step on a part list appends exactly the parts a fresh concatenation
      would take from that operand. */
  lemma ConcatStepParts(t: MessageContent, c: MessageContent)
    requires t.Parts?
    ensures ConcatStep(t, c) == Parts(t.parts + OperandParts(c))
  {
    if Length(c) == 0 {
      assert OperandParts(c) == [];
      assert t.parts + [] == t.parts;
    }
  }

  /** On a part-list target, appending adds the operands' parts in order. */
  lemma {:induction false} ConcatIntoPartsFlat(target: MessageContent, cs: seq<MessageContent>)
    requires target.Parts?
    ensures ConcatInto(target, cs) == Parts(target.parts + FlatParts(cs))
  {
    if |cs| == 0 {
      assert target.parts + [] == target.parts;
    } else {
      var init := cs[..|cs| - 1];
      ConcatIntoPartsFlat(target, init);
      ConcatStepParts(ConcatInto(target, init), cs[|cs| - 1]);
    }
  }

  /** ... and so agrees exactly with a fresh concatenation of the target and
      the operands. */
  lemma ConcatIntoPartsIsConcat(target: MessageContent, cs: seq<MessageContent>)
    requires target.Parts? && |cs| >= 1
    ensures ConcatInto(target, cs) == ConcatContents([target] + cs)
  {
    ConcatIntoPartsFlat(target, cs);
    var all := [target] + cs;
    assert !AllPlain(all) by { assert all[0].Parts?; }
    FlatPartsConcat([target], cs);
    FlatPartsSingle(target);
  }
}
