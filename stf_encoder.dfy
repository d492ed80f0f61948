/**
 The STF encoder: each message becomes a command line (`;user`, `;ai`,
 `;msg role=...`, with `name=` and `id=` arguments) followed by its text,
 one data line per line of text; a message whose content is a list of
 parts is written as JSON5 between `;raw` and `;end`.
 */
module STFEncoder {
  import opened Wrappers
  import opened Json
  import opened Strings
  import opened Content
  import opened Messages
  import opened STFArgs

  /** `ROLE_COMMAND_MAP`: the commands that name their role. */
  const ROLE_COMMAND_MAP: map<string, string> :=
    map["user" := "user", "assistant" := "ai", "system" := "sys", "developer" := "dev", "tool" := "tool"]

  // ---------------------------------------------------------------------
  // Quoting

  function HexDigit(d: nat): char
    requires d < 16
  {
    if d < 10 then ('0' as int + d) as char else ('a' as int + d - 10) as char
  }

  /** How `JSON.stringify` writes one character inside a string literal. */
  function JsonEscapeChar(c: char): string {
    if c == '"' then "\\\""
    else if c == '\\' then "\\\\"
    else if c as int == 8 then "\\b"
    else if c as int == 12 then "\\f"
    else if c == '\n' then "\\n"
    else if c == '\r' then "\\r"
    else if c == '\t' then "\\t"
    else if c as int < 32 then "\\u00" + [HexDigit(c as int / 16), HexDigit(c as int % 16)]
    else [c]
  }

  function JsonEscape(s: string): string {
    if |s| == 0 then "" else JsonEscapeChar(s[0]) + JsonEscape(s[1..])
  }

  /** `JSON.stringify` of a string. */
  function JsonQuote(s: string): string {
    "\"" + JsonEscape(s) + "\""
  }

  /** The characters that make `quoteValue` quote a value as written:
      spaces, tabs and quotes. */
  predicate NeedsQuotesAsWritten(c: char) {
    IsBlank(c) || IsQuote(c)
  }

  /** `quoteValue` as written: a line feed does not make it quote. */
  function QuoteValueAsWritten(value: string): string {
    if value == "" || exists k :: 0 <= k < |value| && NeedsQuotesAsWritten(value[k]) then JsonQuote(value) else value
  }

  /** A value must also be quoted when it holds a line feed, or it would
      end the command line. */
  predicate NeedsQuotes(c: char) {
    NeedsQuotesAsWritten(c) || c == '\n'
  }

  /** `quoteValue`, quoting line feeds as well. */
  function QuoteValue(value: string): string {
    if value == "" || exists k :: 0 <= k < |value| && NeedsQuotes(value[k]) then JsonQuote(value) else value
  }

  /** `escapeDataLine`: a line starting with `;` gets a second one. */
  function EscapeDataLine(line: string): string {
    if |line| > 0 && line[0] == ';' then ";" + line else line
  }

  /** The data lines that carry `s`: its lines, each escaped. */
  function EscapedLines(s: string): (r: seq<string>)
    ensures |r| == |Split(s, '\n')| && forall i :: 0 <= i < |r| ==> r[i] == EscapeDataLine(Split(s, '\n')[i])
  {
    var lines := Split(s, '\n');
    seq(|lines|, i requires 0 <= i < |lines| => EscapeDataLine(lines[i]))
  }

  /** `escapeDataLines`. */
  function EscapeDataLines(s: string): string {
    Join(EscapedLines(s), "\n")
  }

  // ---------------------------------------------------------------------
  // stringify

  /** The `key=value` arguments a message's command line carries, in
      order: `role` when no command names it, then `name`, then `id`. */
  function ArgPairs(m: Message): seq<(string, string)> {
    (if m.role in ROLE_COMMAND_MAP then [] else [("role", m.role)])
    + (if m.name.Some? then [("name", m.name.value)] else [])
    + (if m.id.Some? then [("id", m.id.value)] else [])
  }

  function Item(p: (string, string)): string {
    p.0 + "=" + QuoteValue(p.1)
  }

  /** The command a message's line starts with. */
  function CommandName(m: Message): string {
    if m.role in ROLE_COMMAND_MAP then ROLE_COMMAND_MAP[m.role] else "msg"
  }

  function Items(ps: seq<(string, string)>): (r: seq<string>)
    ensures |r| == |ps| && forall i :: 0 <= i < |ps| ==> r[i] == Item(ps[i])
  {
    if |ps| == 0 then [] else [Item(ps[0])] + Items(ps[1..])
  }

  /** One more `key=value` pushed onto the command parts. */
  lemma PushItem(parts: seq<string>, head: string, ps: seq<(string, string)>, p: (string, string))
    requires parts == [head] + Items(ps)
    ensures parts + [p.0 + "=" + QuoteValue(p.1)] == [head] + Items(ps + [p])
  {
    assert Items(ps + [p]) == Items(ps) + [Item(p)];
  }

  /** `command_parts`. */
  function CommandParts(m: Message): seq<string> {
    [";" + CommandName(m)] + Items(ArgPairs(m))
  }

  /** The text `stringify(message)` returns, with `json5s` standing for
      `JSON5.stringify(message, null, 2)`. */
  function StringifySpec(json5s: Value -> string, m: Message): string {
    if m.content.Parts? then Join([";raw", EscapeDataLines(json5s(MessageToValue(m))), ";end"], "\n")
    else
      var command_line := Join(CommandParts(m), " ");
      if m.content.s == "" then command_line else command_line + "\n" + EscapeDataLines(m.content.s)
  }

  /** `stringify`. */
  method Stringify(json5s: Value -> string, m: Message) returns (r: string)
    ensures r == StringifySpec(json5s, m)
  {
    if m.content.Parts? {
      return Join([";raw", EscapeDataLines(json5s(MessageToValue(m))), ";end"], "\n");
    }
    var command_parts: seq<string> := [];
    ghost var pairs: seq<(string, string)> := [];
    if m.role in ROLE_COMMAND_MAP {
      command_parts := command_parts + [";" + ROLE_COMMAND_MAP[m.role]];
    } else {
      command_parts := command_parts + [";msg", "role=" + QuoteValue(m.role)];
      pairs := [("role", m.role)];
      assert ";" + "msg" == ";msg" && "role" + "=" == "role=";
    }
    assert command_parts == [";" + CommandName(m)] + Items(pairs);
    if m.name.Some? {
      assert "name" + "=" == "name=";
      PushItem(command_parts, ";" + CommandName(m), pairs, ("name", m.name.value));
      command_parts := command_parts + ["name=" + QuoteValue(m.name.value)];
      pairs := pairs + [("name", m.name.value)];
    }
    assert command_parts == [";" + CommandName(m)] + Items(pairs);
    if m.id.Some? {
      assert "id" + "=" == "id=";
      PushItem(command_parts, ";" + CommandName(m), pairs, ("id", m.id.value));
      command_parts := command_parts + ["id=" + QuoteValue(m.id.value)];
      pairs := pairs + [("id", m.id.value)];
    }
    assert pairs == ArgPairs(m);
    assert command_parts == CommandParts(m);
    var command_line := Join(command_parts, " ");
    if m.content.s == "" {
      return command_line;
    }
    return command_line + "\n" + EscapeDataLines(m.content.s);
  }

  /** The encoder `createEncoder()` gives: the messages' texts, one after
      another on their own lines. */
  function Encode(json5s: Value -> string, ms: seq<Message>): string {
    Join(Stringified(json5s, ms), "\n")
  }

  /** `messages.map(stringify)`. */
  function Stringified(json5s: Value -> string, ms: seq<Message>): seq<string> {
    seq(|ms|, i requires 0 <= i < |ms| => StringifySpec(json5s, ms[i]))
  }
}
