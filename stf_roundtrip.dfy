/**
 What the STF encoder and decoder promise together: decoding what the
 encoder writes gives the messages back, as far as the transcript form
 carries them (a message with plain text keeps its role, name, id and
 text; a message with parts keeps everything, through its JSON5 form).

 `JSON5.parse` and `JSON5.stringify` come in as functions; the round trip
 needs only that `JSON5.parse` reads back a `JSON.stringify`d string and
 the `JSON5.stringify`d form of a message.
 */
module STFRoundTrip {
  import opened Wrappers
  import opened Json
  import opened Strings
  import opened Content
  import opened Messages
  import opened CodecDecoder
  import opened STFArgs
  import opened STFState
  import opened STFCommands
  import opened STFDecoder
  import opened STFEncoder

  // ---------------------------------------------------------------------
  // Data lines

  /** An escaped data line reads back as the line. */
  lemma DataLineRoundTrip(l: string)
    ensures ParseDataLine(EscapeDataLine(l)) == Some(l)
  {
    if |l| > 0 && l[0] == ';' {
      var e := ";" + l;
      assert e[..2] == ";;" by { assert e[1] == l[0]; }
    } else if |l| > 0 {
      assert l[..1] != ";" by { assert l[..1][0] == l[0]; }
    }
  }

  // ---------------------------------------------------------------------
  // Quoted values

  /** The quoted-literal scan walks over characters that are neither a
      quote, a backslash nor a line feed. */
  lemma {:induction false} QuoteEndPlain(s: string, j: nat, k: nat)
    requires j <= k <= |s| && forall x :: j <= x < k ==> s[x] != '"' && s[x] != '\\' && s[x] != '\n'
    ensures QuoteEnd(s, '"', j, false) == QuoteEnd(s, '"', k, false)
    decreases k - j
  {
    if j < k {
      QuoteEndPlain(s, j + 1, k);
    }
  }

  /** `t` occurs in `s` at `i`, character by character. */
  predicate At(s: string, i: nat, t: string)
    decreases |t|
  {
    i + |t| <= |s| && (|t| == 0 || (s[i] == t[0] && At(s, i + 1, t[1..])))
  }

  lemma {:induction false} AtChar(s: string, i: nat, t: string, x: nat)
    requires At(s, i, t) && x < |t|
    ensures i + x < |s| && s[i + x] == t[x]
    decreases x
  {
    if x > 0 {
      AtChar(s, i + 1, t[1..], x - 1);
    }
  }

  lemma {:induction false} AtEnd(s: string, i: nat, t: string)
    requires At(s, i, t)
    ensures i + |t| <= |s|
    decreases |t|
  {
    if |t| > 0 {
      AtEnd(s, i + 1, t[1..]);
    }
  }

  lemma {:induction false} AtSplit(s: string, i: nat, a: string, b: string)
    requires At(s, i, a + b)
    ensures At(s, i, a) && At(s, i + |a|, b)
    decreases |a|
  {
    if |a| == 0 {
      assert a + b == b;
    } else {
      assert (a + b)[0] == a[0];
      assert (a + b)[1..] == a[1..] + b;
      AtSplit(s, i + 1, a[1..], b);
    }
  }

  lemma AtSlice(s: string, i: nat, t: string)
    requires At(s, i, t)
    ensures i + |t| <= |s| && s[i..i + |t|] == t
  {
    AtEnd(s, i, t);
    forall x | 0 <= x < |t|
      ensures s[i..i + |t|][x] == t[x]
    {
      AtChar(s, i, t, x);
    }
  }

  lemma {:induction false} AtSuffix(s: string, i: nat)
    requires i <= |s|
    ensures At(s, i, s[i..])
    decreases |s| - i
  {
    if i < |s| {
      assert s[i..][1..] == s[i + 1..];
      AtSuffix(s, i + 1);
    }
  }

  /** The quoted-literal scan walks over one escaped character. */
  lemma QuoteEndChar(s: string, j: nat, c: char, k: nat)
    requires At(s, j, JsonEscapeChar(c)) && k == j + |JsonEscapeChar(c)|
    ensures QuoteEnd(s, '"', j, false) == QuoteEnd(s, '"', k, false)
  {
    var e := JsonEscapeChar(c);
    AtChar(s, j, e, 0);
    if |e| == 1 {
    } else if |e| == 2 {
      AtChar(s, j, e, 1);
    } else {
      var h1, h2 := HexDigit(c as int / 16), HexDigit(c as int % 16);
      assert e == "\\u00" + [h1, h2];
      assert e[1] == 'u' && e[2] == '0' && e[3] == '0' && e[4] == h1 && e[5] == h2;
      AtChar(s, j, e, 1);
      AtChar(s, j, e, 2);
      AtChar(s, j, e, 3);
      AtChar(s, j, e, 4);
      AtChar(s, j, e, 5);
      QuoteEndPlain(s, j + 2, j + 6);
    }
  }

  /** ... and over a whole escaped string. */
  lemma {:induction false} QuoteEndEscape(s: string, j: nat, v: string, k: nat)
    requires At(s, j, JsonEscape(v)) && k == j + |JsonEscape(v)|
    ensures QuoteEnd(s, '"', j, false) == QuoteEnd(s, '"', k, false)
    decreases |v|
  {
    if |v| > 0 {
      var e := JsonEscapeChar(v[0]);
      var j' := j + |e|;
      assert JsonEscape(v) == e + JsonEscape(v[1..]);
      AtSplit(s, j, e, JsonEscape(v[1..]));
      QuoteEndChar(s, j, v[0], j');
      QuoteEndEscape(s, j', v[1..], k);
    }
  }

  /** The scan stops at a closing quote just after it. */
  lemma QuoteEndClose(s: string, j: nat)
    requires j < |s| && s[j] == '"'
    ensures QuoteEnd(s, '"', j, false) == Ok(j + 1)
  {
  }

  /** A `JSON.stringify`d string in the text: it opens with a quote and
      the scan ends at its closing quote. */
  lemma QuotedText(s: string, i: nat, v: string, end: nat)
    requires At(s, i, JsonQuote(v)) && end == i + |JsonQuote(v)|
    ensures end <= |s| && s[i] == '"' && s[i..end] == JsonQuote(v)
    ensures QuoteEnd(s, '"', i + 1, false) == Ok(end)
  {
    var j := i + 1 + |JsonEscape(v)|;
    assert QuoteEnd(s, '"', i + 1, false) == Ok(end) by {
      QuoteParts(s, i, v, j);
      QuoteEndEscape(s, i + 1, v, j);
      QuoteEndClose(s, j);
    }
    assert end <= |s| && s[i..end] == JsonQuote(v) by {
      AtSlice(s, i, JsonQuote(v));
    }
    assert s[i] == '"' by {
      AtChar(s, i, JsonQuote(v), 0);
    }
  }

  /** The opening quote, the escaped text and the closing quote. */
  lemma QuoteParts(s: string, i: nat, v: string, j: nat)
    requires At(s, i, JsonQuote(v)) && j == i + 1 + |JsonEscape(v)|
    ensures s[i] == '"' && At(s, i + 1, JsonEscape(v)) && j < |s| && s[j] == '"'
  {
    var w := JsonEscape(v);
    AtSplit(s, i, "\"" + w, "\"");
    AtSplit(s, i, "\"", w);
    AtChar(s, i, "\"", 0);
    AtChar(s, j, "\"", 0);
  }

  /** No line feed survives `JSON.stringify`. */
  lemma {:induction false} EscapeNoLineFeed(v: string)
    ensures '\n' !in JsonEscape(v)
    decreases |v|
  {
    if |v| > 0 {
      EscapeNoLineFeed(v[1..]);
      var e := JsonEscapeChar(v[0]);
      assert '\n' !in e;
      assert JsonEscape(v) == e + JsonEscape(v[1..]);
    }
  }

  /** A quoted value is never empty, never starts or ends with a blank and
      has no line feed. */
  lemma QuoteValueShape(v: string)
    ensures var q := QuoteValue(v);
      && |q| > 0 && !IsBlank(q[0]) && !IsBlank(q[|q| - 1]) && '\n' !in q
      && (q == JsonQuote(v) || (q == v && forall k :: 0 <= k < |v| ==> !NeedsQuotes(v[k])))
  {
    var q := QuoteValue(v);
    if q == JsonQuote(v) {
      EscapeNoLineFeed(v);
      assert q == "\"" + JsonEscape(v) + "\"";
    } else {
      assert !NeedsQuotes(v[0]) && !NeedsQuotes(v[|v| - 1]);
    }
  }

  /** `JSON5.parse` reads any `JSON.stringify`d string back. */
  ghost predicate ReadsJsonStrings(json5: Json5Parse) {
    forall v :: json5(JsonQuote(v)) == Ok(Str(v))
  }

  lemma NonBlankEndAt(s: string, i: nat, e: nat)
    requires i <= e <= |s| && (forall k :: i <= k < e ==> !IsBlank(s[k])) && (e == |s| || IsBlank(s[e]))
    ensures NonBlankEnd(s, i) == e
  {
  }

  /** A quoted literal that `JSON5.parse` reads as a string is the value. */
  lemma QuotedValueRead(json5: Json5Parse, s: string, i: nat, end: nat, v: string, line: nat)
    requires i < end <= |s| && s[i] == '"' && QuoteEnd(s, '"', i + 1, false) == Ok(end)
    requires json5(s[i..end]) == Ok(Str(v))
    ensures ValueAt(json5, s, i, line) == Ok((v, end))
  {
  }

  /** A token without blanks or quotes is the value. */
  lemma BareValueRead(json5: Json5Parse, s: string, i: nat, e: nat, line: nat)
    requires i < e <= |s| && (forall k :: i <= k < e ==> !IsBlank(s[k]) && !IsQuote(s[k]))
    requires e == |s| || IsBlank(s[e])
    ensures ValueAt(json5, s, i, line) == Ok((s[i..e], e))
  {
    NonBlankEndAt(s, i, e);
  }

  /** A value `quoteValue` leaves bare sits in the text as a token
      without blanks or quotes. */
  lemma BareText(s: string, i: nat, v: string)
    requires At(s, i, v) && |v| > 0 && forall k :: 0 <= k < |v| ==> !NeedsQuotes(v[k])
    ensures i + |v| <= |s| && s[i..i + |v|] == v
    ensures forall k :: i <= k < i + |v| ==> !IsBlank(s[k]) && !IsQuote(s[k])
  {
    AtSlice(s, i, v);
    forall k | i <= k < i + |v|
      ensures !IsBlank(s[k]) && !IsQuote(s[k])
    {
      AtChar(s, i, v, k - i);
      assert !NeedsQuotes(v[k - i]);
    }
  }

  /** A value written by `quoteValue` and followed by a blank or the end
      reads back as the value. */
  lemma ValueAtQuoted(json5: Json5Parse, s: string, i: nat, v: string, n: nat, line: nat)
    requires json5(JsonQuote(v)) == Ok(Str(v))
    requires At(s, i, QuoteValue(v)) && n == i + |QuoteValue(v)|
    requires n == |s| || IsBlank(s[n])
    ensures i < |s| && !IsBlank(s[i])
    ensures ValueAt(json5, s, i, line) == Ok((v, n))
  {
    var q := QuoteValue(v);
    QuoteValueShape(v);
    AtChar(s, i, q, 0);
    if q == JsonQuote(v) {
      QuotedText(s, i, v, n);
      QuotedValueRead(json5, s, i, n, v, line);
    } else {
      BareText(s, i, v);
      BareValueRead(json5, s, i, n, line);
    }
  }

  // ---------------------------------------------------------------------
  // Arguments

  /** A key, `=` and a value read back as that pair. */
  lemma PairRead(json5: Json5Parse, s: string, i: nat, e: nat, k: string, v: string, n: nat, line: nat)
    requires i < e && e + 1 < |s| && IsKeyStart(s[i]) && (forall x :: i <= x < e ==> IsKeyChar(s[x]))
    requires s[e] == '=' && !IsBlank(s[e + 1]) && ValueAt(json5, s, e + 1, line) == Ok((v, n)) && s[i..e] == k
    ensures PairAt(json5, s, i, line) == Ok(Some((k, v, n)))
  {
    PairReadAt(json5, s, i, e, v, n, line);
  }

  lemma PairReadAt(json5: Json5Parse, s: string, i: nat, e: nat, v: string, n: nat, line: nat)
    requires i < e && e + 1 < |s| && IsKeyStart(s[i]) && (forall x :: i <= x < e ==> IsKeyChar(s[x]))
    requires s[e] == '=' && !IsBlank(s[e + 1]) && ValueAt(json5, s, e + 1, line) == Ok((v, n))
    ensures PairAt(json5, s, i, line) == Ok(Some((s[i..e], v, n)))
  {
    KeyEndAt(s, i + 1, e);
    assert BlankEnd(s, i) == i && BlankEnd(s, e) == e && BlankEnd(s, e + 1) == e + 1;
    assert PairAfterKey(json5, s, i, e, line) == Ok(Some((s[i..e], v, n)));
    assert PairFrom(json5, s, i, line) == PairAfterKey(json5, s, i, e, line);
  }

  /** An item `key=value` in the text: the key's characters, `=`, then the
      quoted value. */
  lemma ItemText(s: string, i: nat, p: (string, string))
    requires At(s, i, Item(p)) && IsKey(p.0)
    ensures var e := i + |p.0|;
      && e < |s| && IsKeyStart(s[i]) && (forall x :: i <= x < e ==> IsKeyChar(s[x]))
      && s[i..e] == p.0
  {
    var (k, v) := p;
    var e := i + |k|;
    assert Item(p) == k + ("=" + QuoteValue(v));
    AtSplit(s, i, k, "=" + QuoteValue(v));
    AtSlice(s, i, k);
    AtEnd(s, i, Item(p));
    AtChar(s, i, k, 0);
    forall x | i <= x < e
      ensures IsKeyChar(s[x])
    {
      AtChar(s, i, k, x - i);
    }
  }

  /** ... and after the key, `=` and the quoted value. */
  lemma ItemValueText(s: string, i: nat, p: (string, string), e: nat, n: nat)
    requires At(s, i, Item(p)) && e == i + |p.0| && n == i + |Item(p)|
    ensures e < |s| && s[e] == '=' && At(s, e + 1, QuoteValue(p.1)) && n == e + 1 + |QuoteValue(p.1)|
  {
    var (k, v) := p;
    assert Item(p) == (k + "=") + QuoteValue(v);
    AtSplit(s, i, k + "=", QuoteValue(v));
    AtSplit(s, i, k, "=");
    AtChar(s, e, "=", 0);
  }

  /** An item `key=value`, followed by a blank or the end, reads back as
      its key and value. */
  lemma PairAtItem(json5: Json5Parse, s: string, i: nat, p: (string, string), n: nat, line: nat)
    requires json5(JsonQuote(p.1)) == Ok(Str(p.1)) && IsKey(p.0)
    requires At(s, i, Item(p)) && n == i + |Item(p)|
    requires n == |s| || IsBlank(s[n])
    ensures PairAt(json5, s, i, line) == Ok(Some((p.0, p.1, n)))
  {
    var e := i + |p.0|;
    assert e + 1 < |s| && !IsBlank(s[e + 1]) && ValueAt(json5, s, e + 1, line) == Ok((p.1, n)) && s[e] == '=' by {
      ItemValueText(s, i, p, e, n);
      ValueAtQuoted(json5, s, e + 1, p.1, n, line);
    }
    assert IsKeyStart(s[i]) && (forall x :: i <= x < e ==> IsKeyChar(s[x])) && s[i..e] == p.0 by {
      ItemText(s, i, p);
    }
    PairRead(json5, s, i, e, p.0, p.1, n, line);
  }

  /** The arguments as the encoder writes them: each item after a space. */
  function SpacedItems(ps: seq<(string, string)>): string {
    if |ps| == 0 then "" else " " + Item(ps[0]) + SpacedItems(ps[1..])
  }

  /** The map the `key=value` loop builds from pairs read in order. */
  function AddPairs(acc: map<string, Value>, ps: seq<(string, string)>): map<string, Value>
    decreases |ps|
  {
    if |ps| == 0 then acc else AddPairs(acc[ps[0].0 := Str(ps[0].1)], ps[1..])
  }

  /** Good keys, all different and none read before. */
  predicate FreshKeys(acc: map<string, Value>, ps: seq<(string, string)>) {
    forall a :: 0 <= a < |ps| ==> IsKey(ps[a].0) && ps[a].0 !in acc && forall b :: a < b < |ps| ==> ps[a].0 != ps[b].0
  }

  lemma PairAtBlank(json5: Json5Parse, s: string, i: nat, line: nat)
    requires i < |s| && IsBlank(s[i])
    ensures PairAt(json5, s, i, line) == PairAt(json5, s, i + 1, line)
  {
    assert BlankEnd(s, i) == BlankEnd(s, i + 1);
  }

  /** The loop skips a blank before a pair. */
  lemma PairsFromBlank(json5: Json5Parse, s: string, i: nat, acc: map<string, Value>, line: nat)
    requires i < |s| && IsBlank(s[i])
    ensures PairsFrom(json5, s, i, acc, line) == PairsFrom(json5, s, i + 1, acc, line)
  {
    PairAtBlank(json5, s, i, line);
  }

  /** The spaced items in the text: a space, the first item, then the
      rest. */
  lemma SpacedHead(s: string, i: nat, ps: seq<(string, string)>, n: nat)
    requires |ps| > 0 && At(s, i, SpacedItems(ps)) && n == i + 1 + |Item(ps[0])|
    ensures i < |s| && s[i] == ' ' && At(s, i + 1, Item(ps[0])) && At(s, n, SpacedItems(ps[1..]))
    ensures i + |SpacedItems(ps)| == n + |SpacedItems(ps[1..])|
  {
    assert SpacedItems(ps) == " " + (Item(ps[0]) + SpacedItems(ps[1..]));
    AtSplit(s, i, " ", Item(ps[0]) + SpacedItems(ps[1..]));
    AtChar(s, i, " ", 0);
    AtSplit(s, i + 1, Item(ps[0]), SpacedItems(ps[1..]));
  }

  /** After an item comes the end of the text or a space. */
  lemma SpacedNext(s: string, n: nat, ps: seq<(string, string)>)
    requires At(s, n, SpacedItems(ps)) && n + |SpacedItems(ps)| == |s|
    ensures n == |s| || IsBlank(s[n])
  {
    if |ps| > 0 {
      SpacedHead(s, n, ps, n + 1 + |Item(ps[0])|);
    }
  }

  lemma FreshKeysTail(acc: map<string, Value>, ps: seq<(string, string)>)
    requires |ps| > 0 && FreshKeys(acc, ps)
    ensures IsKey(ps[0].0) && ps[0].0 !in acc && FreshKeys(acc[ps[0].0 := Str(ps[0].1)], ps[1..])
  {
    var rest := ps[1..];
    var acc' := acc[ps[0].0 := Str(ps[0].1)];
    forall a | 0 <= a < |rest|
      ensures IsKey(rest[a].0) && rest[a].0 !in acc' && forall b :: a < b < |rest| ==> rest[a].0 != rest[b].0
    {
      assert rest[a] == ps[a + 1];
      forall b | a < b < |rest| ensures rest[a].0 != rest[b].0 {
        assert rest[b] == ps[b + 1];
      }
    }
  }

  /** Reading pairs from `i` on gives `ps`, in order, and then nothing. */
  predicate ReadsPairs(json5: Json5Parse, s: string, i: nat, ps: seq<(string, string)>, line: nat)
    requires i <= |s|
    decreases |ps|
  {
    var p := PairAt(json5, s, i, line);
    if |ps| == 0 then p == Ok(None)
    else p.Ok? && p.value.Some? && p.value.value.0 == ps[0].0 && p.value.value.1 == ps[0].1
         && ReadsPairs(json5, s, p.value.value.2, ps[1..], line)
  }

  lemma ReadsPairsCons(json5: Json5Parse, s: string, i: nat, ps: seq<(string, string)>, n: nat, line: nat)
    requires i <= |s| && n <= |s| && |ps| > 0
    requires PairAt(json5, s, i, line) == Ok(Some((ps[0].0, ps[0].1, n))) && ReadsPairs(json5, s, n, ps[1..], line)
    ensures ReadsPairs(json5, s, i, ps, line)
  {
  }

  /** The `key=value` loop over pairs it reads, with fresh keys, adds them
      all. */
  lemma {:induction false} PairsFromReads(json5: Json5Parse, s: string, i: nat, ps: seq<(string, string)>, acc: map<string, Value>, line: nat)
    requires i <= |s| && ReadsPairs(json5, s, i, ps, line) && FreshKeys(acc, ps)
    ensures PairsFrom(json5, s, i, acc, line) == Ok(AddPairs(acc, ps))
    decreases |ps|
  {
    if |ps| > 0 {
      var n := PairAt(json5, s, i, line).value.value.2;
      var acc' := acc[ps[0].0 := Str(ps[0].1)];
      FreshKeysTail(acc, ps);
      PairsFromStep(json5, s, i, ps[0].0, ps[0].1, n, acc, line);
      PairsFromReads(json5, s, n, ps[1..], acc', line);
      assert AddPairs(acc, ps) == AddPairs(acc', ps[1..]);
    }
  }

  /** The items the encoder writes, each after a space, read back as their
      pairs. */
  lemma {:induction false} SpacedReads(json5: Json5Parse, s: string, i: nat, ps: seq<(string, string)>, line: nat)
    requires ReadsJsonStrings(json5) && forall a :: 0 <= a < |ps| ==> IsKey(ps[a].0)
    requires At(s, i, SpacedItems(ps)) && i + |SpacedItems(ps)| == |s|
    ensures ReadsPairs(json5, s, i, ps, line)
    decreases |ps|
  {
    if |ps| == 0 {
      assert BlankEnd(s, i) == i;
    } else {
      var n := i + 1 + |Item(ps[0])|;
      SpacedHead(s, i, ps, n);
      assert PairAt(json5, s, i, line) == Ok(Some((ps[0].0, ps[0].1, n))) by {
        SpacedNext(s, n, ps[1..]);
        assert json5(JsonQuote(ps[0].1)) == Ok(Str(ps[0].1));
        PairAtBlank(json5, s, i, line);
        PairAtItem(json5, s, i + 1, ps[0], n, line);
      }
      SpacedReads(json5, s, n, ps[1..], line);
      ReadsPairsCons(json5, s, i, ps, n, line);
    }
  }

  lemma {:induction false} SpacedItemsLast(ps: seq<(string, string)>)
    requires |ps| > 0
    ensures var t := SpacedItems(ps); |t| > 0 && !IsBlank(t[|t| - 1])
    decreases |ps|
  {
    var t := SpacedItems(ps);
    if |ps| == 1 {
      QuoteValueShape(ps[0].1);
      assert SpacedItems(ps[1..]) == "";
      assert t == " " + ps[0].0 + "=" + QuoteValue(ps[0].1);
    } else {
      SpacedItemsLast(ps[1..]);
      assert t == " " + Item(ps[0]) + SpacedItems(ps[1..]);
    }
  }

  /** The spaced items lose only their first space to trimming. */
  lemma SpacedTrim(ps: seq<(string, string)>)
    requires |ps| > 0 && IsKey(ps[0].0)
    ensures var t := SpacedItems(ps);
      && |t| > 1 && t[1..] == Item(ps[0]) + SpacedItems(ps[1..])
      && TrimBlanks(t) == t[1..] && t[1] != '{' && !IsBlank(t[1]) && !IsBlank(t[|t| - 1])
  {
    var t := SpacedItems(ps);
    var x := Item(ps[0]) + SpacedItems(ps[1..]);
    assert t == " " + x;
    assert t[1..] == x;
    assert x[0] == ps[0].0[0];
    SpacedItemsLast(ps);
    assert x[|x| - 1] == t[|t| - 1];
    assert TrimLeadBlanks(t) == TrimLeadBlanks(x);
    assert TrimLeadBlanks(x) == x;
    assert TrimTrailBlanks(x) == x;
  }

  /** The loop reads the trimmed items from the start. */
  lemma PairsFromText(json5: Json5Parse, x: string, ps: seq<(string, string)>, line: nat)
    requires ReadsJsonStrings(json5) && FreshKeys(map[], ps) && |ps| > 0
    requires x == Item(ps[0]) + SpacedItems(ps[1..])
    ensures PairsFrom(json5, x, 0, map[], line) == Ok(AddPairs(map[], ps))
  {
    var n := |Item(ps[0])|;
    AtSuffix(x, 0);
    assert x[0..] == x;
    AtSplit(x, 0, Item(ps[0]), SpacedItems(ps[1..]));
    SpacedNext(x, n, ps[1..]);
    assert json5(JsonQuote(ps[0].1)) == Ok(Str(ps[0].1));
    PairAtItem(json5, x, 0, ps[0], n, line);
    SpacedReads(json5, x, n, ps[1..], line);
    assert ReadsPairs(json5, x, 0, ps, line);
    PairsFromReads(json5, x, 0, ps, map[], line);
  }

  /** The argument text the encoder writes parses back into its pairs. */
  lemma ParseArgsSpaced(json5: Json5Parse, ps: seq<(string, string)>, line: nat)
    requires ReadsJsonStrings(json5) && FreshKeys(map[], ps)
    ensures ParseArgs(json5, SpacedItems(ps), line) == Ok(AddPairs(map[], ps))
  {
    if |ps| > 0 {
      var t := SpacedItems(ps);
      SpacedTrim(ps);
      PairsText(json5, t[1..], line);
      PairsFromText(json5, t[1..], ps, line);
    }
  }

  /** The command line is the command and the spaced items. */
  lemma {:induction false} JoinSpaced(a: string, ps: seq<(string, string)>)
    ensures Join([a] + Items(ps), " ") == a + SpacedItems(ps)
    decreases |ps|
  {
    if |ps| > 0 {
      var l := [a] + Items(ps);
      assert l[1..] == Items(ps) == [Item(ps[0])] + Items(ps[1..]);
      JoinSpaced(Item(ps[0]), ps[1..]);
    } else {
      assert [a] + Items(ps) == [a];
    }
  }

  lemma {:induction false} AddPairsAppend(acc: map<string, Value>, a: seq<(string, string)>, b: seq<(string, string)>)
    ensures AddPairs(acc, a + b) == AddPairs(AddPairs(acc, a), b)
    decreases |a|
  {
    if |a| == 0 {
      assert a + b == b;
    } else {
      assert (a + b)[1..] == a[1..] + b;
      AddPairsAppend(acc[a[0].0 := Str(a[0].1)], a[1..], b);
    }
  }

  lemma AddPairsOne(acc: map<string, Value>, p: (string, string))
    ensures AddPairs(acc, [p]) == acc[p.0 := Str(p.1)]
  {
    assert [p][1..] == [];
  }

  /** The keys the encoder writes, all different. */
  lemma ArgPairsFresh(m: Message)
    ensures FreshKeys(map[], ArgPairs(m))
  {
    assert "role"[0] != "name"[0] && "role"[0] != "id"[0] && "name"[0] != "id"[0];
    assert IsKey("role") && IsKey("name") && IsKey("id");
  }

  /** The map the encoder's arguments read back as. */
  lemma ArgPairsMap(m: Message)
    ensures var args := AddPairs(map[], ArgPairs(m));
      && ("role" in args <==> m.role !in ROLE_COMMAND_MAP) && ("role" in args ==> args["role"] == Str(m.role))
      && ("name" in args <==> m.name.Some?) && ("name" in args ==> args["name"] == Str(m.name.value))
      && ("id" in args <==> m.id.Some?) && ("id" in args ==> args["id"] == Str(m.id.value))
  {
    var r := if m.role in ROLE_COMMAND_MAP then [] else [("role", m.role)];
    var n := if m.name.Some? then [("name", m.name.value)] else [];
    var i := if m.id.Some? then [("id", m.id.value)] else [];
    assert ArgPairs(m) == r + n + i;
    AddPairsAppend(map[], r + n, i);
    AddPairsAppend(map[], r, n);
    var a0 := AddPairs(map[], r);
    if |r| > 0 { AddPairsOne(map[], r[0]); }
    var a1 := AddPairs(a0, n);
    if |n| > 0 { AddPairsOne(a0, n[0]); }
    if |i| > 0 { AddPairsOne(a1, i[0]); }
    assert "role" != "name" && "role" != "id" && "name" != "id";
  }

  /** The arguments of a message's command line, as read back: its name
      and id, and its role when no command names it. */
  lemma ArgPairsArgs(m: Message)
    ensures FreshKeys(map[], ArgPairs(m))
    ensures var args := AddPairs(map[], ArgPairs(m));
      && OptStringArg(args, "id") == Ok(m.id)
      && OptStringArg(args, "name") == Ok(m.name)
      && OptStringArg(args, "role") == Ok(if m.role in ROLE_COMMAND_MAP then None else Some(m.role))
  {
    ArgPairsFresh(m);
    ArgPairsMap(m);
  }
}
