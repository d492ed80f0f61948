/**
 The handful of JavaScript string operations the library leans on:
 `join`, `split` on a one-character separator, `startsWith`, `trim`,
 and decimal rendering of counters.
 */
module Strings {

  /** `ss.join(sep)`. */
  function Join(ss: seq<string>, sep: string): string {
    if |ss| == 0 then ""
    else if |ss| == 1 then ss[0]
    else ss[0] + sep + Join(ss[1..], sep)
  }

  /** `ss.join('')`. */
  function Concat(ss: seq<string>): string {
    Join(ss, "")
  }

  lemma {:induction false} JoinAppend(ss: seq<string>, t: string, sep: string)
    ensures Join(ss + [t], sep) == if |ss| == 0 then t else Join(ss, sep) + sep + t
  {
    if |ss| <= 1 {
    } else {
      assert (ss + [t])[1..] == ss[1..] + [t];
      JoinAppend(ss[1..], t, sep);
    }
  }

  /** Joining two non-empty lists is joining each and putting the
      separator between. */
  lemma {:induction false} JoinConcat(a: seq<string>, b: seq<string>, sep: string)
    requires |a| > 0 && |b| > 0
    ensures Join(a + b, sep) == Join(a, sep) + sep + Join(b, sep)
  {
    if |a| == 1 {
      assert (a + b)[1..] == b;
    } else {
      assert (a + b)[1..] == a[1..] + b;
      JoinConcat(a[1..], b, sep);
    }
  }

  lemma ConcatAppend(ss: seq<string>, t: string)
    ensures Concat(ss + [t]) == Concat(ss) + t
  {
    JoinAppend(ss, t, "");
  }

  lemma {:induction false} ConcatSplit(a: seq<string>, b: seq<string>)
    ensures Concat(a + b) == Concat(a) + Concat(b)
  {
    if |b| == 0 {
      assert a + b == a;
    } else {
      var b' := b[..|b| - 1];
      assert a + b == (a + b') + [b[|b| - 1]];
      assert b == b' + [b[|b| - 1]];
      ConcatSplit(a, b');
      ConcatAppend(a + b', b[|b| - 1]);
      ConcatAppend(b', b[|b| - 1]);
    }
  }

  lemma Concat2(x: string, y: string)
    ensures Concat([x, y]) == x + y
  {
    assert [x, y][1..] == [y];
    assert Join([x, y], "") == x + "" + Join([y], "");
    assert x + "" == x;
  }

  lemma Concat3(x: string, y: string, z: string)
    ensures Concat([x, y, z]) == x + y + z
  {
    assert [x, y, z][1..] == [y, z];
    Concat2(y, z);
  }

  predicate StartsWith(s: string, prefix: string) {
    |prefix| <= |s| && s[..|prefix|] == prefix
  }

  /** The index of the first `c` in `s`, if any. */
  function IndexOf(s: string, c: char): (r: int)
    ensures -1 <= r < |s|
    ensures r == -1 <==> c !in s
    ensures r >= 0 ==> s[r] == c && c !in s[..r]
  {
    if |s| == 0 then -1
    else if s[0] == c then 0
    else
      var k := IndexOf(s[1..], c);
      assert s[1..][..if k < 0 then 0 else k] == s[1..if k < 0 then 1 else k + 1];
      if k < 0 then -1 else k + 1
  }

  /** `s.split(c)` for a one-character separator: never empty, no piece contains
      the separator, and re-joining gives `s` back. */
  function Split(s: string, c: char): (r: seq<string>)
    ensures |r| >= 1
    ensures forall i :: 0 <= i < |r| ==> c !in r[i]
    ensures Join(r, [c]) == s
    decreases |s|
  {
    var k := IndexOf(s, c);
    if k < 0 then [s]
    else
      var rest := Split(s[k + 1..], c);
      assert s == s[..k] + [c] + s[k + 1..];
      [s[..k]] + rest
  }

  /** `s.split(c, 2)`: at most the first two pieces. */
  function SplitLimit2(s: string, c: char): (r: seq<string>)
    ensures 1 <= |r| <= 2
    ensures r[0] == Split(s, c)[0]
    ensures |r| == 2 <==> c in s
    ensures |r| == 2 ==> r[1] == Split(s, c)[1]
  {
    var pieces := Split(s, c);
    if |pieces| == 1 then
      assert c !in s by { SplitSingleNoSep(s, c); }
      pieces
    else
      assert c in s by { SplitManyHasSep(s, c); }
      pieces[..2]
  }

  /** The piece before the first `c` keeps a prefix that has no `c`. */
  lemma SplitHeadPrefix(s: string, prefix: string, c: char)
    requires StartsWith(s, prefix) && c !in prefix
    ensures StartsWith(SplitLimit2(s, c)[0], prefix)
  {
    var pieces := Split(s, c);
    var k := IndexOf(s, c);
    assert s[..|prefix|] == prefix;
    if k >= 0 {
      assert forall i :: 0 <= i < |prefix| ==> s[i] == prefix[i] && s[i] != c;
      assert k >= |prefix|;
      assert pieces[0] == s[..k];
      assert pieces[0][..|prefix|] == s[..|prefix|];
    }
  }


  /** A separator-free prefix and the first separator: the prefix is the first
      piece and the rest splits on its own. */
  lemma SplitAt(a: string, b: string, c: char)
    requires c !in a
    ensures Split(a + [c] + b, c) == [a] + Split(b, c)
  {
    var s := a + [c] + b;
    assert s[..|a|] == a;
    assert s[|a|] == c;
    assert s[|a| + 1..] == b;
  }

  /** Two separator-free pieces joined by one separator split back into them. */
  lemma SplitLimit2At(a: string, b: string, c: char)
    requires c !in a && c !in b
    ensures SplitLimit2(a + [c] + b, c) == [a, b]
  {
    SplitAt(a, b, c);
    SplitNoSep(b, c);
    assert c in a + [c] + b by { assert (a + [c] + b)[|a|] == c; }
  }

  lemma SplitNoSep(s: string, c: char)
    requires c !in s
    ensures Split(s, c) == [s]
  {
  }

  lemma SplitSingleNoSep(s: string, c: char)
    requires |Split(s, c)| == 1
    ensures c !in s
  {
  }

  lemma SplitManyHasSep(s: string, c: char)
    requires |Split(s, c)| > 1
    ensures c in s
  {
  }

  /** Splitting joined separator-free lines gives them back. */
  lemma {:induction false} SplitJoin(lines: seq<string>, c: char)
    requires |lines| > 0 && forall i :: 0 <= i < |lines| ==> c !in lines[i]
    ensures Split(Join(lines, [c]), c) == lines
  {
    if |lines| == 1 {
      SplitNoSep(lines[0], c);
    } else {
      SplitJoin(lines[1..], c);
      assert Join(lines, [c]) == lines[0] + [c] + Join(lines[1..], [c]);
      SplitAt(lines[0], Join(lines[1..], [c]), c);
      assert [lines[0]] + lines[1..] == lines;
    }
  }

  /** Every character of a piece is a character of the joined string. */
  lemma {:induction false} JoinPieceChar(ss: seq<string>, sep: string, i: nat, k: nat)
    requires i < |ss| && k < |ss[i]|
    ensures ss[i][k] in Join(ss, sep)
  {
    if |ss| > 1 {
      if i == 0 {
        assert Join(ss, sep)[k] == ss[0][k];
      } else {
        JoinPieceChar(ss[1..], sep, i - 1, k);
        var j :| 0 <= j < |Join(ss[1..], sep)| && Join(ss[1..], sep)[j] == ss[i][k];
        assert Join(ss, sep)[|ss[0] + sep| + j] == ss[i][k];
      }
    }
  }

  /** The characters `String.prototype.trim` removes. */
  predicate IsJsWhitespace(ch: char) {
    ch == ' ' || ch == '\t' || ch == '\n' || ch == '\r'
    || ch == '\U{000B}' || ch == '\U{000C}' || ch == '\U{00A0}' || ch == '\U{1680}'
    || ('\U{2000}' <= ch <= '\U{200A}') || ch == '\U{2028}' || ch == '\U{2029}'
    || ch == '\U{202F}' || ch == '\U{205F}' || ch == '\U{3000}' || ch == '\U{FEFF}'
  }

  function TrimStart(s: string): string {
    if |s| > 0 && IsJsWhitespace(s[0]) then TrimStart(s[1..]) else s
  }

  function TrimEnd(s: string): string {
    if |s| > 0 && IsJsWhitespace(s[|s| - 1]) then TrimEnd(s[..|s| - 1]) else s
  }

  /** `trimStart` removes leading whitespace only, and all of it. */
  lemma {:induction false} TrimStartShape(s: string)
    ensures var r := TrimStart(s);
      && |r| <= |s| && r == s[|s| - |r|..]
      && (|r| > 0 ==> !IsJsWhitespace(r[0]))
      && (forall i :: 0 <= i < |s| - |r| ==> IsJsWhitespace(s[i]))
  {
    if |s| > 0 && IsJsWhitespace(s[0]) {
      TrimStartShape(s[1..]);
    }
  }

  /** `trimEnd` removes trailing whitespace only, and all of it. */
  lemma {:induction false} TrimEndShape(s: string)
    ensures var r := TrimEnd(s);
      && |r| <= |s| && r == s[..|r|]
      && (|r| > 0 ==> !IsJsWhitespace(r[|r| - 1]))
      && (forall i :: |r| <= i < |s| ==> IsJsWhitespace(s[i]))
  {
    if |s| > 0 && IsJsWhitespace(s[|s| - 1]) {
      TrimEndShape(s[..|s| - 1]);
    }
  }

  /** `s.trim()`. */
  function Trim(s: string): string {
    TrimEnd(TrimStart(s))
  }

  /** The result of `trim` is empty exactly for whitespace-only lines. */
  lemma TrimEmptyIff(s: string)
    ensures Trim(s) == "" <==> forall i :: 0 <= i < |s| ==> IsJsWhitespace(s[i])
  {
    TrimStartShape(s);
    TrimEndShape(TrimStart(s));
  }

  function DigitChar(d: nat): char
    requires d < 10
  {
    "0123456789"[d]
  }

  /** Decimal rendering of a natural number, as template literals do. */
  function NatToString(n: nat): (r: string)
    ensures |r| >= 1
    ensures forall i :: 0 <= i < |r| ==> '0' <= r[i] <= '9'
  {
    if n < 10 then [DigitChar(n)] else NatToString(n / 10) + [DigitChar(n % 10)]
  }

  /** The number a string of decimal digits denotes. */
  function DigitsValue(s: string): int {
    if |s| == 0 then 0 else DigitsValue(s[..|s| - 1]) * 10 + (s[|s| - 1] as int - '0' as int)
  }

  lemma DigitCharValue(d: nat)
    requires d < 10
    ensures DigitChar(d) as int - '0' as int == d
  {
    assert "0123456789"[0] == '0' && "0123456789"[1] == '1' && "0123456789"[2] == '2' && "0123456789"[3] == '3'
        && "0123456789"[4] == '4' && "0123456789"[5] == '5' && "0123456789"[6] == '6' && "0123456789"[7] == '7'
        && "0123456789"[8] == '8' && "0123456789"[9] == '9';
  }

  /** The rendering reads back as the number, with no leading zero. */
  lemma {:induction false} NatToStringValue(n: nat)
    ensures DigitsValue(NatToString(n)) == n
    ensures NatToString(n)[0] == '0' <==> n == 0
  {
    var r := NatToString(n);
    if n < 10 {
      DigitCharValue(n);
      assert r[..0] == [];
    } else {
      NatToStringValue(n / 10);
      DigitCharValue(n % 10);
      assert r[..|r| - 1] == NatToString(n / 10);
    }
  }
}
