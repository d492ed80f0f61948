/**
 The argument text after an STF command name: either a JSON5 object literal
 or blank-separated `key=value` pairs, where a value is a bare token or a
 quoted literal on one line.

 `JSON5.parse` is not part of this model; it comes in as a function.
 */
module STFArgs {
  import opened Wrappers
  import opened Json
  import opened Strings

  /** `JSON5.parse`. */
  type Json5Parse = string -> Result<Value>

  /** The message a thrown error carries, with the `Line N: ` prefix that
      transcript errors put in front. */
  function ErrorMessage(e: Error): string {
    match e
    case TypeError(m) => m
    case SyntaxError(line, m) => if line.Some? then "Line " + NatToString(line.value) + ": " + m else m
    case PlainError(m) => m
    case ValidationError(path) => path
  }

  /** Only space and tab separate arguments. */
  predicate IsBlank(c: char) {
    c == ' ' || c == '\t'
  }

  predicate IsKeyStart(c: char) {
    'a' <= c <= 'z' || 'A' <= c <= 'Z'
  }

  predicate IsKeyChar(c: char) {
    IsKeyStart(c) || '0' <= c <= '9' || c == '_'
  }

  predicate IsQuote(c: char) {
    c == '"' || c == '\''
  }

  // ---------------------------------------------------------------------
  // Scanners

  /** Where `scanBlank(s, i)` stops: the first index from `i` on that is not
      a blank, or the end. */
  function BlankEnd(s: string, i: nat): (r: nat)
    requires i <= |s|
    ensures i <= r <= |s|
    ensures forall k :: i <= k < r ==> IsBlank(s[k])
    ensures r == |s| || !IsBlank(s[r])
    decreases |s| - i
  {
    if i < |s| && IsBlank(s[i]) then BlankEnd(s, i + 1) else i
  }

  /** Where `scanNonBlank(s, i)` stops: the first blank from `i` on, or the
      end. */
  function NonBlankEnd(s: string, i: nat): (r: nat)
    requires i <= |s|
    ensures i <= r <= |s|
    ensures forall k :: i <= k < r ==> !IsBlank(s[k])
    ensures r == |s| || IsBlank(s[r])
    decreases |s| - i
  {
    if i < |s| && !IsBlank(s[i]) then NonBlankEnd(s, i + 1) else i
  }

  /** Where the key loop stops: the first index from `i` on that is not a
      key character, or the end. */
  function KeyEnd(s: string, i: nat): (r: nat)
    requires i <= |s|
    ensures i <= r <= |s|
    ensures forall k :: i <= k < r ==> IsKeyChar(s[k])
    ensures r == |s| || !IsKeyChar(s[r])
    decreases |s| - i
  {
    if i < |s| && IsKeyChar(s[i]) then KeyEnd(s, i + 1) else i
  }

  /** `scanBlank`. */
  method ScanBlank(s: string, i0: nat) returns (i: nat)
    requires i0 <= |s|
    ensures i == BlankEnd(s, i0)
  {
    i := i0;
    while i < |s| && (s[i] == ' ' || s[i] == '\t')
      invariant i0 <= i <= |s|
      invariant BlankEnd(s, i) == BlankEnd(s, i0)
    {
      i := i + 1;
    }
  }

  /** `scanNonBlank`. */
  method ScanNonBlank(s: string, i0: nat) returns (i: nat)
    requires i0 <= |s|
    ensures i == NonBlankEnd(s, i0)
  {
    i := i0;
    while i < |s| && s[i] != ' ' && s[i] != '\t'
      invariant i0 <= i <= |s|
      invariant NonBlankEnd(s, i) == NonBlankEnd(s, i0)
    {
      i := i + 1;
    }
  }

  const ERR_LINE_FEED := "Quoted value must be a single line; line feed not allowed."
  const ERR_UNTERMINATED := "Unterminated quoted string."

  /** The end of a quoted literal whose opening `quote` came before `j`:
      the index after the first unescaped `quote`, where a backslash
      escapes the character after it; a line feed or the end of the text
      first is an error. */
  function QuoteEnd(s: string, quote: char, j: nat, escaped: bool): (r: Result<nat>)
    requires j <= |s|
    ensures r.Ok? ==> j < r.value <= |s| && s[r.value - 1] == quote
    decreases |s| - j
  {
    if j == |s| then Err(SyntaxError(None, ERR_UNTERMINATED))
    else if s[j] == '\n' then Err(SyntaxError(None, ERR_LINE_FEED))
    else if escaped then QuoteEnd(s, quote, j + 1, false)
    else if s[j] == '\\' then QuoteEnd(s, quote, j + 1, true)
    else if s[j] == quote then Ok(j + 1)
    else QuoteEnd(s, quote, j + 1, false)
  }

  /** `scanQuoted`: the index after the closing quote and the literal with
      its quotes. The callers only ever start it on a quote. */
  method ScanQuoted(s: string, i: nat) returns (r: Result<(nat, string)>)
    requires i < |s| && IsQuote(s[i])
    ensures r.Ok? <==> QuoteEnd(s, s[i], i + 1, false).Ok?
    ensures r.Ok? ==> r.value.0 == QuoteEnd(s, s[i], i + 1, false).value && r.value.1 == s[i..r.value.0]
    ensures r.Err? ==> r.error == QuoteEnd(s, s[i], i + 1, false).error
  {
    var quote := s[i];
    var j := i + 1;
    var escaped := false;
    while j < |s|
      invariant i + 1 <= j <= |s|
      invariant QuoteEnd(s, quote, j, escaped) == QuoteEnd(s, quote, i + 1, false)
    {
      var ch := s[j];
      if ch == '\n' {
        return Err(SyntaxError(None, ERR_LINE_FEED));
      }
      if escaped {
        escaped := false;
        j := j + 1;
        continue;
      }
      if ch == '\\' {
        escaped := true;
        j := j + 1;
        continue;
      }
      if ch == quote {
        return Ok((j + 1, s[i..j + 1]));
      }
      j := j + 1;
    }
    return Err(SyntaxError(None, ERR_UNTERMINATED));
  }

  // ---------------------------------------------------------------------
  // parseCommandArgs

  /** Leading blanks removed. */
  function TrimLeadBlanks(s: string): (r: string)
    decreases |s|
  {
    if |s| > 0 && IsBlank(s[0]) then TrimLeadBlanks(s[1..]) else s
  }

  /** Trailing blanks removed. */
  function TrimTrailBlanks(s: string): (r: string)
    decreases |s|
  {
    if |s| > 0 && IsBlank(s[|s| - 1]) then TrimTrailBlanks(s[..|s| - 1]) else s
  }

  /** `replaceAll(/^[ \t]*|[ \t]*$/g, '')`: the text without its leading
      and trailing blanks. */
  function TrimBlanks(s: string): string {
    TrimTrailBlanks(TrimLeadBlanks(s))
  }

  /** A value after `=` starting at `i`: a quoted literal read by
      `JSON5.parse`, which must give a string, or a bare token up to the next
      blank that must not end with a quote. Gives the value and where it
      ends. */
  function ValueAt(json5: Json5Parse, s: string, i: nat, line: nat): (r: Result<(string, nat)>)
    requires i < |s| && !IsBlank(s[i])
    ensures r.Ok? ==> i < r.value.1 <= |s|
  {
    if IsQuote(s[i]) then QuotedValueAt(json5, s, i, line) else BareValueAt(s, i, line)
  }

  function QuotedValueAt(json5: Json5Parse, s: string, i: nat, line: nat): (r: Result<(string, nat)>)
    requires i < |s| && IsQuote(s[i])
    ensures r.Ok? ==> i < r.value.1 <= |s|
  {
    var end :- QuoteEnd(s, s[i], i + 1, false);
    var parsed := json5(s[i..end]);
    if parsed.Err? then Err(SyntaxError(Some(line + 1), "Invalid quoted string: " + ErrorMessage(parsed.error)))
    else if !parsed.value.Str? then
      Err(SyntaxError(Some(line + 1), "Invalid quoted string: " + ErrorMessage(SyntaxError(Some(line + 1), "Quoted value must be a string."))))
    else Ok((parsed.value.s, end))
  }

  function BareValueAt(s: string, i: nat, line: nat): (r: Result<(string, nat)>)
    requires i < |s| && !IsBlank(s[i])
    ensures r.Ok? ==> i < r.value.1 <= |s|
  {
    var j := NonBlankEnd(s, i);
    if IsQuote(s[j - 1]) then Err(SyntaxError(None, "Link " + NatToString(line + 1) + ": Unquoted value cannot end with quotes."))
    else Ok((s[i..j], j))
  }

  /** The next pair from index `i` on: none when only blanks are left,
      else its key, its value and where it ends. */
  function PairAt(json5: Json5Parse, s: string, i: nat, line: nat): (r: Result<Option<(string, string, nat)>>)
    requires i <= |s|
    ensures r.Ok? && r.value.Some? ==> i < r.value.value.2 <= |s|
  {
    PairFrom(json5, s, BlankEnd(s, i), line)
  }

  /** The next pair once the blanks before it are skipped. */
  function PairFrom(json5: Json5Parse, s: string, k0: nat, line: nat): (r: Result<Option<(string, string, nat)>>)
    requires k0 <= |s|
    ensures r.Ok? && r.value.Some? ==> k0 < r.value.value.2 <= |s|
  {
    if k0 == |s| then Ok(None)
    else if !IsKeyStart(s[k0]) then Err(SyntaxError(Some(line + 1), "Argument key must start with [a-z]."))
    else PairAfterKey(json5, s, k0, KeyEnd(s, k0 + 1), line)
  }

  /** The rest of a pair whose key is `s[k0..k1]`: `=` and the value, with
      blanks allowed around `=`. */
  function PairAfterKey(json5: Json5Parse, s: string, k0: nat, k1: nat, line: nat): (r: Result<Option<(string, string, nat)>>)
    requires k0 < k1 <= |s|
    ensures r.Ok? ==> r.value.Some? && r.value.value.0 == s[k0..k1] && k1 < r.value.value.2 <= |s|
  {
    var e := BlankEnd(s, k1);
    if e == |s| || s[e] != '=' then Err(SyntaxError(Some(line + 1), "Expected '=' after argument key."))
    else
      var v0 := BlankEnd(s, e + 1);
      if v0 == |s| then Err(SyntaxError(Some(line + 1), "Expected value after '='."))
      else
        var v :- ValueAt(json5, s, v0, line);
        Ok(Some((s[k0..k1], v.0, v.1)))
  }

  /** The `key=value` loop from index `i`, with the pairs read so far. */
  function PairsFrom(json5: Json5Parse, s: string, i: nat, acc: map<string, Value>, line: nat): Result<map<string, Value>>
    requires i <= |s|
    decreases |s| - i
  {
    var p := PairAt(json5, s, i, line);
    if p.Err? then Err(p.error)
    else if p.value.None? then Ok(acc)
    else
      var (key, value, next) := p.value.value;
      if key in acc then Err(SyntaxError(Some(line + 1), "Duplicate argument key '" + key + "'."))
      else PairsFrom(json5, s, next, acc[key := Str(value)], line)
  }

  /** What `parseCommandArgs(text, line)` returns. */
  function ParseArgs(json5: Json5Parse, text: string, line: nat): Result<map<string, Value>> {
    var t := TrimBlanks(text);
    if |t| == 0 then Ok(map[])
    else if t[0] == '{' then
      var parsed :- json5(t);
      if parsed.Obj? then Ok(parsed.fields)
      else Err(SyntaxError(Some(line + 1), "Expected object literal after command name."))
    else PairsFrom(json5, t, 0, map[], line)
  }

  /** One value after `=`, as the loop body reads it. */
  method ReadValue(json5: Json5Parse, s: string, i: nat, line: nat) returns (r: Result<(string, nat)>)
    requires i < |s| && !IsBlank(s[i])
    ensures r == ValueAt(json5, s, i, line)
  {
    var ch := s[i];
    if ch == '"' || ch == '\'' {
      var scanned := ScanQuoted(s, i);
      if scanned.Err? {
        return Err(scanned.error);
      }
      var end := scanned.value.0;
      var parsed := json5(scanned.value.1);
      if parsed.Err? {
        return Err(SyntaxError(Some(line + 1), "Invalid quoted string: " + ErrorMessage(parsed.error)));
      }
      if !parsed.value.Str? {
        var inner := SyntaxError(Some(line + 1), "Quoted value must be a string.");
        return Err(SyntaxError(Some(line + 1), "Invalid quoted string: " + ErrorMessage(inner)));
      }
      return Ok((parsed.value.s, end));
    }
    var j := ScanNonBlank(s, i);
    var token := s[i..j];
    if token[|token| - 1] == '"' || token[|token| - 1] == '\'' {
      return Err(SyntaxError(None, "Link " + NatToString(line + 1) + ": Unquoted value cannot end with quotes."));
    }
    return Ok((token, j));
  }

  /** `parseCommandArgs`. */
  method ParseCommandArgs(json5: Json5Parse, text: string, line: nat) returns (r: Result<map<string, Value>>)
    ensures r == ParseArgs(json5, text, line)
  {
    var t := TrimBlanks(text);
    if |t| == 0 {
      return Ok(map[]);
    }
    if t[0] == '{' {
      var parsed := json5(t);
      if parsed.Err? {
        return Err(parsed.error);
      }
      if !parsed.value.Obj? {
        return Err(SyntaxError(Some(line + 1), "Expected object literal after command name."));
      }
      return Ok(parsed.value.fields);
    }
    var args: map<string, Value> := map[];
    var i: nat := 0;
    var n := |t|;
    while i < n
      invariant i <= n
      invariant PairsFrom(json5, t, i, args, line) == PairsFrom(json5, t, 0, map[], line)
      decreases n - i
    {
      var pair := ReadPair(json5, t, i, line);
      if pair.Err? {
        return Err(pair.error);
      }
      if pair.value.None? {
        break;
      }
      var key := pair.value.value.0;
      if key in args {
        return Err(SyntaxError(Some(line + 1), "Duplicate argument key '" + key + "'."));
      }
      args := args[key := Str(pair.value.value.1)];
      i := pair.value.value.2;
    }
    if i >= n {
      assert PairAt(json5, t, i, line) == Ok(None);
    }
    return Ok(args);
  }

  /** One pass of the `key=value` loop's body, up to the duplicate check. */
  method ReadPair(json5: Json5Parse, t: string, i0: nat, line: nat) returns (r: Result<Option<(string, string, nat)>>)
    requires i0 <= |t|
    ensures r == PairAt(json5, t, i0, line)
  {
    var n := |t|;
    var i := ScanBlank(t, i0);
    assert PairAt(json5, t, i0, line) == PairFrom(json5, t, i, line);
    if i >= n {
      return Ok(None);
    }
    var keyStart := i;
    if !IsKeyStart(t[i]) {
      return Err(SyntaxError(Some(line + 1), "Argument key must start with [a-z]."));
    }
    i := i + 1;
    while i < n && IsKeyChar(t[i])
      invariant keyStart < i <= n
      invariant KeyEnd(t, i) == KeyEnd(t, keyStart + 1)
    {
      i := i + 1;
    }
    assert PairFrom(json5, t, keyStart, line) == PairAfterKey(json5, t, keyStart, i, line);
    r := ReadAfterKey(json5, t, keyStart, i, line);
  }

  /** The loop body after the key. */
  method ReadAfterKey(json5: Json5Parse, t: string, k0: nat, k1: nat, line: nat) returns (r: Result<Option<(string, string, nat)>>)
    requires k0 < k1 <= |t|
    ensures r == PairAfterKey(json5, t, k0, k1, line)
  {
    var n := |t|;
    var key := t[k0..k1];
    var i := ScanBlank(t, k1);
    if i >= n || t[i] != '=' {
      return Err(SyntaxError(Some(line + 1), "Expected '=' after argument key."));
    }
    i := ScanBlank(t, i + 1);
    if i >= n {
      return Err(SyntaxError(Some(line + 1), "Expected value after '='."));
    }
    var value := ReadValue(json5, t, i, line);
    if value.Err? {
      return Err(value.error);
    }
    return Ok(Some((key, value.value.0, value.value.1)));
  }

  // ---------------------------------------------------------------------
  // What parseCommandArgs promises

  lemma {:induction false} TrimLeadBlanksShape(s: string)
    ensures var r := TrimLeadBlanks(s);
      && |r| <= |s| && r == s[|s| - |r|..]
      && (|r| > 0 ==> !IsBlank(r[0]))
      && (forall k :: 0 <= k < |s| - |r| ==> IsBlank(s[k]))
    decreases |s|
  {
    if |s| > 0 && IsBlank(s[0]) {
      TrimLeadBlanksShape(s[1..]);
    }
  }

  lemma {:induction false} TrimTrailBlanksShape(s: string)
    ensures var r := TrimTrailBlanks(s);
      && |r| <= |s| && r == s[..|r|]
      && (|r| > 0 ==> !IsBlank(r[|r| - 1]))
      && (forall k :: |r| <= k < |s| ==> IsBlank(s[k]))
    decreases |s|
  {
    if |s| > 0 && IsBlank(s[|s| - 1]) {
      TrimTrailBlanksShape(s[..|s| - 1]);
    }
  }

  /** Only space and tab are trimmed: the result is empty exactly for text
      made of them, and otherwise begins and ends with something else. */
  lemma TrimBlanksShape(s: string)
    ensures TrimBlanks(s) == "" <==> forall k :: 0 <= k < |s| ==> IsBlank(s[k])
    ensures |TrimBlanks(s)| > 0 ==> !IsBlank(TrimBlanks(s)[0]) && !IsBlank(TrimBlanks(s)[|TrimBlanks(s)| - 1])
  {
    TrimLeadBlanksShape(s);
    var a := TrimLeadBlanks(s);
    TrimTrailBlanksShape(a);
    var r := TrimTrailBlanks(a);
    if |r| > 0 {
      assert r[0] == a[0];
    }
    if r != "" {
      assert !IsBlank(s[|s| - |a|]);
    }
  }

  /** Empty or blank-only text gives no arguments. */
  lemma BlankArgs(json5: Json5Parse, text: string, line: nat)
    requires forall k :: 0 <= k < |text| ==> IsBlank(text[k])
    ensures ParseArgs(json5, text, line) == Ok(map[])
  {
    TrimBlanksShape(text);
  }

  /** A key of the `key=value` form: a letter, then letters, digits and
      underscores. */
  predicate IsKey(k: string) {
    |k| > 0 && IsKeyStart(k[0]) && forall x :: 0 <= x < |k| ==> IsKeyChar(k[x])
  }

  /** Pairs add only identifier keys with string values. */
  predicate KeyValueMap(m: map<string, Value>) {
    forall k :: k in m ==> IsKey(k) && m[k].Str?
  }

  /** A pair's key is an identifier. */
  lemma PairKey(json5: Json5Parse, s: string, i: nat, line: nat)
    requires i <= |s|
    ensures var p := PairAt(json5, s, i, line);
      p.Ok? && p.value.Some? ==> IsKey(p.value.value.0)
  {
    var k0 := BlankEnd(s, i);
    if k0 < |s| && IsKeyStart(s[k0]) {
      var k1 := KeyEnd(s, k0 + 1);
      var key := s[k0..k1];
      forall x | 0 <= x < |key| ensures IsKeyChar(key[x]) {
        assert key[x] == s[k0 + x];
      }
    }
  }

  /** A pair read, then the rest of the loop. */
  lemma PairsFromStep(json5: Json5Parse, s: string, i: nat, k: string, v: string, n: nat, acc: map<string, Value>, line: nat)
    requires i <= n <= |s| && PairAt(json5, s, i, line) == Ok(Some((k, v, n))) && k !in acc
    ensures PairsFrom(json5, s, i, acc, line) == PairsFrom(json5, s, n, acc[k := Str(v)], line)
  {
  }

  lemma {:induction false} PairsFromKeys(json5: Json5Parse, s: string, i: nat, acc: map<string, Value>, line: nat)
    requires i <= |s| && KeyValueMap(acc)
    ensures var r := PairsFrom(json5, s, i, acc, line);
      r.Ok? ==> acc.Keys <= r.value.Keys && KeyValueMap(r.value)
    decreases |s| - i
  {
    var p := PairAt(json5, s, i, line);
    if p.Ok? && p.value.Some? {
      var (key, value, next) := p.value.value;
      if key !in acc {
        PairKey(json5, s, i, line);
        PairsFromStep(json5, s, i, key, value, next, acc, line);
        PairsFromKeys(json5, s, next, acc[key := Str(value)], line);
      } else {
        assert PairsFrom(json5, s, i, acc, line).Err?;
      }
    } else if p.Ok? {
      assert PairsFrom(json5, s, i, acc, line) == Ok(acc);
    } else {
      assert PairsFrom(json5, s, i, acc, line).Err?;
    }
  }

  /** The `key=value` form gives identifier keys and string values only;
      the object form is the only way to pass anything else. */
  lemma ArgsKeys(json5: Json5Parse, text: string, line: nat)
    requires ParseArgs(json5, text, line).Ok?
    requires |TrimBlanks(text)| > 0 ==> TrimBlanks(text)[0] != '{'
    ensures KeyValueMap(ParseArgs(json5, text, line).value)
  {
    var t := TrimBlanks(text);
    if |t| > 0 {
      PairsFromKeys(json5, t, 0, map[], line);
    }
  }

  /** Text with nothing to trim that does not open an object is read by
      the `key=value` loop. */
  lemma PairsText(json5: Json5Parse, t: string, line: nat)
    requires |t| > 0 && !IsBlank(t[0]) && !IsBlank(t[|t| - 1]) && t[0] != '{'
    ensures ParseArgs(json5, t, line) == PairsFrom(json5, t, 0, map[], line)
  {
    assert TrimLeadBlanks(t) == t;
    assert TrimTrailBlanks(t) == t;
  }

  lemma KeyEndAt(s: string, i: nat, e: nat)
    requires i <= e <= |s| && (forall x :: i <= x < e ==> IsKeyChar(s[x])) && (e == |s| || !IsKeyChar(s[e]))
    ensures KeyEnd(s, i) == e
  {
  }

  /** A key must be followed by `=` and a value: `role=` is rejected. */
  lemma MissingValue(json5: Json5Parse)
    ensures ParseArgs(json5, "role=", 0).Err?
  {
    var t := "role=";
    PairsText(json5, t, 0);
    assert t[1] == 'o' && t[2] == 'l' && t[3] == 'e' && t[4] == '=';
    KeyEndAt(t, 1, 4);
    assert BlankEnd(t, 4) == 4 && BlankEnd(t, 5) == 5 && BlankEnd(t, 0) == 0;
    assert PairAt(json5, t, 0, 0).Err?;
  }

  /** ... `=user` is rejected ... */
  lemma MissingKey(json5: Json5Parse)
    ensures ParseArgs(json5, "=user", 0).Err?
  {
    var t := "=user";
    PairsText(json5, t, 0);
    assert BlankEnd(t, 0) == 0;
    assert PairAt(json5, t, 0, 0).Err?;
  }

  /** A key followed by anything but blanks and `=` is rejected. */
  lemma KeyWithoutEquals(json5: Json5Parse, t: string, e: nat, line: nat)
    requires 0 < e < |t| && IsKeyStart(t[0]) && (forall x :: 1 <= x < e ==> IsKeyChar(t[x]))
    requires !IsKeyChar(t[e]) && !IsBlank(t[e]) && t[e] != '='
    ensures PairsFrom(json5, t, 0, map[], line).Err?
  {
    KeyEndAt(t, 1, e);
    assert BlankEnd(t, e) == e && BlankEnd(t, 0) == 0;
    assert PairAfterKey(json5, t, 0, e, line).Err?;
    assert PairFrom(json5, t, 0, line) == PairAfterKey(json5, t, 0, e, line);
  }

  /** ... and so is `justa-key`. */
  lemma MissingEquals(json5: Json5Parse)
    ensures ParseArgs(json5, "justa-key", 0).Err?
  {
    var t := "justa-key";
    assert t[1] == 'u' && t[2] == 's' && t[3] == 't' && t[4] == 'a' && t[5] == '-';
    KeyWithoutEquals(json5, t, 5, 0);
    PairsText(json5, t, 0);
  }
}
