/**
 The STF round trip on whole transcripts: the decoder, run with the table
 of every command on what the encoder writes for a list of messages, gives
 back each message as far as the transcript form carries it. A message
 with plain text keeps its role, name, id and text; a message with parts
 is written as JSON5 between `;raw` and `;end` and comes back whole.
 */
module STFTranscript {
  import opened Wrappers
  import opened Json
  import opened Strings
  import opened Content
  import opened Messages
  import opened STFArgs
  import opened STFState
  import opened STFCommands
  import opened STFDecoder
  import opened STFEncoder
  import opened STFRoundTrip

  // ---------------------------------------------------------------------
  // One line, layer by layer

  /** A line starting with `;` but not `;;` is a command line. */
  lemma CommandLineStep(lookup: Option<map<string, Command>>, json5: Json5Parse, m: Machine, n: nat, raw: string)
    requires StartsWith(raw, ";") && !StartsWith(raw, ";;")
    ensures LineStep(lookup, json5, m, n, raw) == CommandStep(lookup, json5, m, n, raw)
  {
  }

  /** An escaped data line hands its text to the data-line step. */
  lemma DataLineStep(lookup: Option<map<string, Command>>, json5: Json5Parse, m: Machine, n: nat, l: string)
    ensures LineStep(lookup, json5, m, n, EscapeDataLine(l)) == DataStep(json5, m, n, l)
  {
    DataLineRoundTrip(l);
  }

  /** A named command outside comments, with no command waiting, is
      invoked. */
  lemma NamedCommandStep(lookup: Option<map<string, Command>>, json5: Json5Parse, m: Machine, n: nat, raw: string, name: string, end: nat)
    requires MatchCommand(raw) == Some((name, end))
    requires name != "//" && name != "#" && name != "/*" && name != "*/" && name != "end"
    requires m.depth == 0 && m.s.invoked.None?
    ensures end <= |raw|
    ensures CommandStep(lookup, json5, m, n, raw) == InvokeStep(lookup, json5, m.s.(command_line_no := n), n, raw, name, end)
  {
  }

  /** `;end` outside comments runs the waiting command. */
  lemma EndCommandStep(lookup: Option<map<string, Command>>, json5: Json5Parse, m: Machine, n: nat, raw: string, end: nat)
    requires MatchCommand(raw) == Some(("end", end)) && m.depth == 0
    ensures CommandStep(lookup, json5, m, n, raw) == EndStep(json5, m.s.(command_line_no := n), n)
  {
    assert "end" != "//" && "end" != "#" && "end" != "/*" && "end" != "*/" by {
      assert "end"[0] == 'e';
    }
  }

  /** A command that takes no lines runs at once on the flushed state. */
  lemma InvokeRuns(lookup: Option<map<string, Command>>, json5: Json5Parse, s: Snapshot, n: nat, raw: string, name: string, end: nat,
                   f: Snapshot, args: map<string, Value>, u: Snapshot)
    requires end <= |raw| && FlushBufferedSpec(s) == Ok(f) && ParseArgs(json5, raw[end..], n) == Ok(args)
    requires lookup.Some? && name in lookup.value && lookup.value[name].mode == Niladic
    requires ExecuteSpec(json5, f, lookup.value[name], args) == Ok(u)
    ensures InvokeStep(lookup, json5, s, n, raw, name, end) == Ok(Machine(u, 0))
  {
  }

  /** A command that takes all lines up to `;end` waits for them. */
  lemma InvokeWaits(lookup: Option<map<string, Command>>, json5: Json5Parse, s: Snapshot, n: nat, raw: string, name: string, end: nat,
                    f: Snapshot, args: map<string, Value>)
    requires end <= |raw| && FlushBufferedSpec(s) == Ok(f) && ParseArgs(json5, raw[end..], n) == Ok(args)
    requires lookup.Some? && name in lookup.value && lookup.value[name].mode == Polyadic
    ensures InvokeStep(lookup, json5, s, n, raw, name, end) == Ok(Machine(f.(invoked := Some(Invoked(lookup.value[name], args))), 0))
  {
  }

  /** Where data lines are simply buffered: outside comments, with a
      current message or a command waiting for all its lines. */
  predicate Buffers(m: Machine) {
    && m.depth == 0
    && (m.s.invoked.Some? ==> m.s.invoked.value.command.mode == Polyadic)
    && (m.s.invoked.None? ==> Current(m.s).Some?)
  }

  lemma DataBuffered(json5: Json5Parse, m: Machine, n: nat, data: string)
    requires Buffers(m)
    ensures DataStep(json5, m, n, data) == Ok(Machine(m.s.(data_line_no := n, buffered_lines := m.s.buffered_lines + [data]), 0))
  {
  }

  // ---------------------------------------------------------------------
  // Command names

  predicate NameText(name: string) {
    |name| > 0 && IsNameStart(name[0]) && forall k :: 0 <= k < |name| ==> IsNameChar(name[k])
  }

  /** `;`, a name, then the end or a blank: the pattern matches that
      name. */
  lemma MatchName(name: string, rest: string)
    requires NameText(name) && (rest == "" || IsBlank(rest[0]))
    ensures var raw := ";" + name + rest;
      && StartsWith(raw, ";") && !StartsWith(raw, ";;")
      && MatchCommand(raw) == Some((name, 1 + |name|)) && raw[1 + |name|..] == rest
  {
    var raw := ";" + name + rest;
    var e := 1 + |name|;
    assert raw[0] == ';' && raw[1] == name[0];
    assert raw[..1] == ";";
    assert raw[..2] != ";;" by { assert raw[..2][1] == name[0]; }
    assert BlankEnd(raw, 1) == 1;
    assert 3 <= |raw| ==> raw[1..3] != "//" && raw[1..3] != "/*" && raw[1..3] != "*/" by {
      if 3 <= |raw| { assert raw[1..3][0] == name[0]; }
    }
    assert e < |raw| ==> !IsNameChar(raw[e]) by {
      if e < |raw| { assert raw[e] == rest[0]; }
    }
    assert NameEnd(raw, 2) == e by {
      assert forall k :: 2 <= k < e ==> raw[k] == name[k - 1];
      assert e == |raw| || raw[e] == rest[0];
    }
    assert raw[1..e] == name;
    assert raw[e..] == rest;
  }

  /** The command names the encoder writes. */
  lemma CommandNameText(m: Message)
    ensures NameText(CommandName(m))
  {
    var c := CommandName(m);
    assert c == "user" || c == "ai" || c == "sys" || c == "dev" || c == "tool" || c == "msg";
  }

  /** The table of every command, on the names the encoder writes: a
      command that takes no lines, starting a message with the message's
      role (`message` takes it from the arguments). */
  lemma CommandNameLooksUp(m: Message)
    ensures CommandName(m) in CommandLookup()
    ensures var c := CommandLookup()[CommandName(m)];
      && c.mode == Niladic && c.action == if m.role in ROLE_COMMAND_MAP then RoleAction(m.role) else MessageAction
  {
    AllTableOk();
    var t := CommandLookup();
    if m.role == "user" {
      assert ALL_NAMES[4] == "user";
    } else if m.role == "assistant" {
      assert ALL_NAMES[6] == "ai";
    } else if m.role == "system" {
      assert ALL_NAMES[1] == "sys";
    } else if m.role == "developer" {
      assert ALL_NAMES[3] == "dev";
    } else if m.role == "tool" {
      assert ALL_NAMES[7] == "tool";
    } else {
      assert ALL_NAMES[9] == "msg";
    }
  }

  /** `raw` in the same table: it waits for its lines. */
  lemma RawLooksUp()
    ensures "raw" in CommandLookup() && CommandLookup()["raw"] == Command(Polyadic, "raw", [], RawAction)
  {
    AllTableOk();
    assert ALL_NAMES[10] == "raw";
  }

  /** The names the encoder writes are none of the comment marks and not
      `end`. */
  lemma NameNotMark(name: string)
    requires NameText(name) && name != "end"
    ensures name != "//" && name != "#" && name != "/*" && name != "*/" && name != "end"
  {
    assert !IsNameStart('/') && !IsNameStart('#') && !IsNameStart('*');
  }

  lemma CommandNameNotEnd(m: Message)
    ensures CommandName(m) != "end"
  {
    assert "end"[0] == 'e';
    var c := CommandName(m);
    assert c == "user" || c == "ai" || c == "sys" || c == "dev" || c == "tool" || c == "msg";
  }

  // ---------------------------------------------------------------------
  // The lines of one message

  /** The `;raw` command of the table of every command. */
  const RAW_COMMAND := Command(Polyadic, "raw", [], RawAction)

  /** The command line the encoder writes for a message with plain text. */
  function CommandLineOf(m: Message): string {
    ";" + CommandName(m) + SpacedItems(ArgPairs(m))
  }

  /** Each of `lines` as a data line. */
  function EscapeAll(lines: seq<string>): (r: seq<string>)
    ensures |r| == |lines| && forall i :: 0 <= i < |lines| ==> r[i] == EscapeDataLine(lines[i])
  {
    seq(|lines|, i requires 0 <= i < |lines| => EscapeDataLine(lines[i]))
  }

  /** Flushing does not look at the last command line's number. */
  lemma FlushLineNo(s: Snapshot, n: nat)
    ensures FlushBufferedSpec(s.(command_line_no := n)) == (var f :- FlushBufferedSpec(s); Ok(f.(command_line_no := n)))
  {
  }

  /** What a successful flush keeps. */
  lemma FlushKeeps(s: Snapshot)
    requires FlushBufferedSpec(s).Ok?
    ensures var f := FlushBufferedSpec(s).value;
      && f.invoked == s.invoked && f.buffered_lines == [] && f.current == s.current && |f.messages| == |s.messages|
  {
  }

  /** A message's own command, on the arguments its command line carries,
      starts a fresh message with its role, id and name. */
  lemma StartPlain(json5: Json5Parse, f: Snapshot, m: Message, cmd: Command)
    requires cmd.action == if m.role in ROLE_COMMAND_MAP then RoleAction(m.role) else MessageAction
    ensures ExecuteSpec(json5, f, cmd, AddPairs(map[], ArgPairs(m)))
         == Ok(f.(messages := f.messages + [FreshMessage(m.role, m.id, m.name)], current := true))
  {
    ArgPairsArgs(m);
    var args := AddPairs(map[], ArgPairs(m));
    var p := NewMessageParams(None, Some(m.role), m.id, m.name);
    assert cmd.action.RoleAction? ==> RoleParams(cmd.action.role, args) == Ok(p);
    assert cmd.action.MessageAction? ==> MessageParams(args) == Ok(p);
    var r := StartSpec(f, p).value;
    assert r.messages == f.messages + [FreshMessage(m.role, m.id, m.name)] by {
      assert r.messages == r.messages[..|f.messages|] + [r.messages[|f.messages|]];
    }
  }

  /** The command line of a plain message, invoked on a state whose buffer
      flushes. */
  lemma PlainInvoke(json5: Json5Parse, s: Snapshot, n: nat, m: Message) returns (u: Snapshot)
    requires ReadsJsonStrings(json5) && FlushBufferedSpec(s).Ok?
    ensures 1 + |CommandName(m)| <= |CommandLineOf(m)|
    ensures InvokeStep(Some(CommandLookup()), json5, s, n, CommandLineOf(m), CommandName(m), 1 + |CommandName(m)|) == Ok(Machine(u, 0))
    ensures u == FlushBufferedSpec(s).value.(messages := FlushBufferedSpec(s).value.messages + [FreshMessage(m.role, m.id, m.name)], current := true)
  {
    var f := FlushBufferedSpec(s).value;
    var name := CommandName(m);
    var raw := CommandLineOf(m);
    var e := 1 + |name|;
    var ps := ArgPairs(m);
    assert raw[e..] == SpacedItems(ps) && e <= |raw|;
    assert ParseArgs(json5, raw[e..], n) == Ok(AddPairs(map[], ps)) by {
      ArgPairsFresh(m);
      ParseArgsSpaced(json5, ps, n);
    }
    CommandNameLooksUp(m);
    var cmd := CommandLookup()[name];
    StartPlain(json5, f, m, cmd);
    u := f.(messages := f.messages + [FreshMessage(m.role, m.id, m.name)], current := true);
    InvokeRuns(Some(CommandLookup()), json5, s, n, raw, name, e, f, AddPairs(map[], ps), u);
  }

  /** The command line of a plain message, read where no command waits
      and the buffer flushes: the flushed messages and a fresh one, current,
      with nothing buffered. */
  lemma PlainCommandStep(json5: Json5Parse, mc: Machine, n: nat, m: Message) returns (r: Machine)
    requires ReadsJsonStrings(json5) && mc.depth == 0 && mc.s.invoked.None? && FlushBufferedSpec(mc.s).Ok?
    ensures LineStep(Some(CommandLookup()), json5, mc, n, CommandLineOf(m)) == Ok(r)
    ensures r.depth == 0 && r.s.invoked.None? && r.s.buffered_lines == [] && r.s.current
    ensures r.s.messages == FlushBufferedSpec(mc.s).value.messages + [FreshMessage(m.role, m.id, m.name)]
  {
    var name := CommandName(m);
    var rest := SpacedItems(ArgPairs(m));
    var raw := CommandLineOf(m);
    var s := mc.s.(command_line_no := n);
    assert MatchCommand(raw) == Some((name, 1 + |name|)) && StartsWith(raw, ";") && !StartsWith(raw, ";;") by {
      CommandNameText(m);
      assert rest == "" || IsBlank(rest[0]);
      MatchName(name, rest);
    }
    CommandLineStep(Some(CommandLookup()), json5, mc, n, raw);
    assert CommandStep(Some(CommandLookup()), json5, mc, n, raw) == InvokeStep(Some(CommandLookup()), json5, s, n, raw, name, 1 + |name|) by {
      CommandNameText(m);
      CommandNameNotEnd(m);
      NameNotMark(name);
      NamedCommandStep(Some(CommandLookup()), json5, mc, n, raw, name, 1 + |name|);
    }
    FlushLineNo(mc.s, n);
    FlushKeeps(mc.s);
    var u := PlainInvoke(json5, s, n, m);
    r := Machine(u, 0);
  }

  /** `;raw` where no command waits and the buffer flushes: `raw` waits
      for its lines, with no arguments. */
  lemma RawOpenStep(json5: Json5Parse, mc: Machine, n: nat) returns (r: Machine)
    requires mc.depth == 0 && mc.s.invoked.None? && FlushBufferedSpec(mc.s).Ok?
    ensures LineStep(Some(CommandLookup()), json5, mc, n, ";raw") == Ok(r)
    ensures r.depth == 0 && r.s.invoked == Some(Invoked(RAW_COMMAND, map[])) && r.s.buffered_lines == []
    ensures r.s.messages == FlushBufferedSpec(mc.s).value.messages
  {
    var s := mc.s.(command_line_no := n);
    assert MatchCommand(";raw") == Some(("raw", 4)) && StartsWith(";raw", ";") && !StartsWith(";raw", ";;") by {
      assert NameText("raw") by { assert "raw"[0] == 'r' && "raw"[1] == 'a' && "raw"[2] == 'w'; }
      assert ";" + "raw" + "" == ";raw";
      MatchName("raw", "");
    }
    CommandLineStep(Some(CommandLookup()), json5, mc, n, ";raw");
    assert CommandStep(Some(CommandLookup()), json5, mc, n, ";raw") == InvokeStep(Some(CommandLookup()), json5, s, n, ";raw", "raw", 4) by {
      assert "raw"[0] == 'r';
      NamedCommandStep(Some(CommandLookup()), json5, mc, n, ";raw", "raw", 4);
    }
    FlushLineNo(mc.s, n);
    FlushKeeps(mc.s);
    var f := FlushBufferedSpec(s).value;
    assert ParseArgs(json5, ";raw"[4..], n) == Ok(map[]) by {
      BlankArgs(json5, ";raw"[4..], n);
    }
    RawLooksUp();
    InvokeWaits(Some(CommandLookup()), json5, s, n, ";raw", "raw", 4, f, map[]);
    r := Machine(f.(invoked := Some(Invoked(RAW_COMMAND, map[]))), 0);
  }

  /** `;end` while `raw` waits, on lines that parse to a message's value:
      that message is appended and no message is current. */
  lemma RawEndStep(json5: Json5Parse, mc: Machine, n: nat, m: Message) returns (r: Machine)
    requires mc.depth == 0 && mc.s.invoked == Some(Invoked(RAW_COMMAND, map[]))
    requires json5(Join(mc.s.buffered_lines, "\n")) == Ok(MessageToValue(m))
    ensures LineStep(Some(CommandLookup()), json5, mc, n, ";end") == Ok(r)
    ensures r.depth == 0 && r.s.invoked.None? && r.s.buffered_lines == [] && !r.s.current
    ensures r.s.messages == mc.s.messages + [m]
  {
    var s := mc.s.(command_line_no := n);
    assert MatchCommand(";end") == Some(("end", 4)) && StartsWith(";end", ";") && !StartsWith(";end", ";;") by {
      assert NameText("end") by { assert "end"[0] == 'e' && "end"[1] == 'n' && "end"[2] == 'd'; }
      assert ";" + "end" + "" == ";end";
      MatchName("end", "");
    }
    CommandLineStep(Some(CommandLookup()), json5, mc, n, ";end");
    EndCommandStep(Some(CommandLookup()), json5, mc, n, ";end", 4);
    RawAppends(json5, s, RAW_COMMAND, map[], m);
    var t := s.(current := false, messages := s.messages + [m]);
    r := Machine(t.(invoked := None, buffered_lines := []), 0);
  }

  /** An escaped data line where lines are buffered. */
  lemma DataLineBuffered(lookup: Option<map<string, Command>>, json5: Json5Parse, mc: Machine, n: nat, l: string)
    requires Buffers(mc)
    ensures LineStep(lookup, json5, mc, n, EscapeDataLine(l))
         == Ok(Machine(mc.s.(data_line_no := n, buffered_lines := mc.s.buffered_lines + [l]), 0))
  {
    DataLineStep(lookup, json5, mc, n, l);
    DataBuffered(json5, mc, n, l);
  }

  /** One more data line after data lines already buffered. */
  lemma DataSnoc(lookup: Option<map<string, Command>>, json5: Json5Parse, mc: Machine, raws: seq<string>, l: string, first: nat, n: nat, p: Machine)
    requires n == first + |raws| && Buffers(p) && Steps(lookup, json5, mc, raws, first) == Ok(p)
    ensures Steps(lookup, json5, mc, raws + [EscapeDataLine(l)], first)
         == Ok(Machine(p.s.(data_line_no := n, buffered_lines := p.s.buffered_lines + [l]), 0))
  {
    assert (raws + [EscapeDataLine(l)])[..|raws|] == raws;
    StepsSnoc(lookup, json5, mc, raws + [EscapeDataLine(l)], first);
    DataLineBuffered(lookup, json5, p, n, l);
  }

  /** Data lines where lines are buffered: each is buffered in turn. */
  lemma {:induction false} DataSteps(lookup: Option<map<string, Command>>, json5: Json5Parse, mc: Machine, lines: seq<string>, first: nat) returns (r: Machine)
    requires Buffers(mc)
    ensures Steps(lookup, json5, mc, EscapeAll(lines), first) == Ok(r)
    ensures r == Machine(mc.s.(data_line_no := r.s.data_line_no, buffered_lines := mc.s.buffered_lines + lines), 0)
    decreases |lines|
  {
    if |lines| == 0 {
      assert EscapeAll(lines) == [];
      r := mc;
      assert mc.s.buffered_lines + lines == mc.s.buffered_lines;
    } else {
      var k := |lines| - 1;
      assert mc.s.buffered_lines + lines == mc.s.buffered_lines + lines[..k] + [lines[k]] by {
        assert lines == lines[..k] + [lines[k]];
      }
      var p := DataSteps(lookup, json5, mc, lines[..k], first);
      r := Machine(p.s.(data_line_no := first + k, buffered_lines := p.s.buffered_lines + [lines[k]]), 0);
      assert Steps(lookup, json5, mc, EscapeAll(lines), first) == Ok(r) by {
        assert EscapeAll(lines) == EscapeAll(lines[..k]) + [EscapeDataLine(lines[k])];
        DataSnoc(lookup, json5, mc, EscapeAll(lines[..k]), lines[k], first, first + k, p);
      }
    }
  }

  /** One line that steps to `r`. */
  lemma StepsLine(lookup: Option<map<string, Command>>, json5: Json5Parse, m: Machine, raw: string, first: nat, r: Machine)
    requires LineStep(lookup, json5, m, first, raw) == Ok(r)
    ensures Steps(lookup, json5, m, [raw], first) == Ok(r)
  {
    StepsOne(lookup, json5, m, raw, first);
  }

  /** Lines `a` stepping to `p`, then lines `b` stepping from `p` to `r`. */
  lemma StepsThen(lookup: Option<map<string, Command>>, json5: Json5Parse, m: Machine, a: seq<string>, b: seq<string>, first: nat, mid: nat, p: Machine, r: Machine)
    requires mid == first + |a|
    requires Steps(lookup, json5, m, a, first) == Ok(p) && Steps(lookup, json5, p, b, mid) == Ok(r)
    ensures Steps(lookup, json5, m, a + b, first) == Ok(r)
  {
    StepsAppend(lookup, json5, m, a, b, first);
  }

  /** `PlainCommandStep` as a one-line run. */
  lemma PlainCommandLine(json5: Json5Parse, mc: Machine, n: nat, m: Message) returns (r: Machine)
    requires ReadsJsonStrings(json5) && mc.depth == 0 && mc.s.invoked.None? && FlushBufferedSpec(mc.s).Ok?
    ensures Steps(Some(CommandLookup()), json5, mc, [CommandLineOf(m)], n) == Ok(r)
    ensures r.depth == 0 && r.s.invoked.None? && r.s.buffered_lines == [] && r.s.current
    ensures r.s.messages == FlushBufferedSpec(mc.s).value.messages + [FreshMessage(m.role, m.id, m.name)]
  {
    r := PlainCommandStep(json5, mc, n, m);
    StepsLine(Some(CommandLookup()), json5, mc, CommandLineOf(m), n, r);
  }

  /** `RawOpenStep` as a one-line run. */
  lemma RawOpenLine(json5: Json5Parse, mc: Machine, n: nat) returns (r: Machine)
    requires mc.depth == 0 && mc.s.invoked.None? && FlushBufferedSpec(mc.s).Ok?
    ensures Steps(Some(CommandLookup()), json5, mc, [";raw"], n) == Ok(r)
    ensures r.depth == 0 && r.s.invoked == Some(Invoked(RAW_COMMAND, map[])) && r.s.buffered_lines == []
    ensures r.s.messages == FlushBufferedSpec(mc.s).value.messages
  {
    r := RawOpenStep(json5, mc, n);
    StepsLine(Some(CommandLookup()), json5, mc, ";raw", n, r);
  }

  /** `RawEndStep` as a one-line run. */
  lemma RawEndLine(json5: Json5Parse, mc: Machine, n: nat, m: Message) returns (r: Machine)
    requires mc.depth == 0 && mc.s.invoked == Some(Invoked(RAW_COMMAND, map[]))
    requires json5(Join(mc.s.buffered_lines, "\n")) == Ok(MessageToValue(m))
    ensures Steps(Some(CommandLookup()), json5, mc, [";end"], n) == Ok(r)
    ensures r.depth == 0 && r.s.invoked.None? && r.s.buffered_lines == [] && !r.s.current
    ensures r.s.messages == mc.s.messages + [m]
  {
    r := RawEndStep(json5, mc, n, m);
    StepsLine(Some(CommandLookup()), json5, mc, ";end", n, r);
  }

  // ---------------------------------------------------------------------
  // One message

  /** The lines the encoder writes for one message. */
  function MessageLines(json5s: Value -> string, m: Message): seq<string> {
    if m.content.Parts? then [";raw"] + EscapeAll(Split(json5s(MessageToValue(m)), '\n')) + [";end"]
    else if m.content.s == "" then [CommandLineOf(m)]
    else [CommandLineOf(m)] + EscapeAll(Split(m.content.s, '\n'))
  }

  /** What the transcript form carries of a message: all of it when its
      content is a list of parts; otherwise its role, name, id and text,
      and nothing else. */
  function Kept(m: Message): Message {
    if m.content.Parts? then m else FreshMessage(m.role, m.id, m.name).(content := m.content)
  }

  /** Between two messages: outside comments, no command waiting, and the
      buffer flushes to the messages `done`. */
  predicate Ready(mc: Machine, done: seq<Message>) {
    && mc.depth == 0 && mc.s.invoked.None? && FlushBufferedSpec(mc.s).Ok?
    && FlushBufferedSpec(mc.s).value.messages == done
  }

  /** Joining the lines of `s` gives `s` back. */
  lemma JoinSplit(s: string)
    ensures Join(Split(s, '\n'), "\n") == s
  {
    assert "\n" == ['\n'];
  }

  /** A fresh message's empty text followed by the lines of `text`. */
  lemma AppendedFresh(f: Message, text: string)
    requires f.content == Plain("") && text != ""
    ensures Appended(f, Split(text, '\n')) == f.(content := Plain(text))
  {
    var lines := Split(text, '\n');
    assert Join(lines, "\n") == text;
    var c := Plain(text);
    assert [c][..0] == [];
    assert ConcatInto(Plain(""), [c]) == ConcatStep(ConcatInto(Plain(""), []), c);
    assert "" + text == text;
  }

  /** A message with empty plain text: one command line. */
  lemma PlainBlockEmpty(json5: Json5Parse, json5s: Value -> string, mc: Machine, m: Message, done: seq<Message>, first: nat) returns (r: Machine)
    requires ReadsJsonStrings(json5) && Ready(mc, done) && m.content == Plain("")
    ensures Steps(Some(CommandLookup()), json5, mc, MessageLines(json5s, m), first) == Ok(r)
    ensures Ready(r, done + [Kept(m)])
  {
    assert MessageLines(json5s, m) == [CommandLineOf(m)];
    r := PlainCommandLine(json5, mc, first, m);
  }

  /** A message with non-empty plain text: its command line, then its
      lines as data lines. */
  lemma PlainBlockText(json5: Json5Parse, json5s: Value -> string, mc: Machine, m: Message, done: seq<Message>, first: nat) returns (r: Machine)
    requires ReadsJsonStrings(json5) && Ready(mc, done) && m.content.Plain? && m.content.s != ""
    ensures Steps(Some(CommandLookup()), json5, mc, MessageLines(json5s, m), first) == Ok(r)
    ensures Ready(r, done + [Kept(m)])
  {
    var lookup := Some(CommandLookup());
    var lines := Split(m.content.s, '\n');
    var cl := CommandLineOf(m);
    assert MessageLines(json5s, m) == [cl] + EscapeAll(lines);
    var p := PlainCommandLine(json5, mc, first, m);
    r := DataSteps(lookup, json5, p, lines, first + 1);
    StepsThen(lookup, json5, mc, [cl], EscapeAll(lines), first, first + 1, p, r);
    TextReady(p, r, m, done);
  }

  /** After a plain message's command line and its data lines, the buffer
      flushes to the message with its text. */
  lemma TextReady(p: Machine, r: Machine, m: Message, done: seq<Message>)
    requires m.content.Plain? && m.content.s != ""
    requires p.s.invoked.None? && p.s.buffered_lines == [] && p.s.current
    requires p.s.messages == done + [FreshMessage(m.role, m.id, m.name)]
    requires r == Machine(p.s.(data_line_no := r.s.data_line_no, buffered_lines := p.s.buffered_lines + Split(m.content.s, '\n')), 0)
    ensures Ready(r, done + [Kept(m)])
  {
    var f := FreshMessage(m.role, m.id, m.name);
    assert Current(r.s) == Some(f);
    AppendedFresh(f, m.content.s);
    assert r.s.buffered_lines == Split(m.content.s, '\n');
    assert FlushBufferedSpec(r.s).value == SetCurrent(r.s, Appended(f, r.s.buffered_lines)).(buffered_lines := []);
    assert r.s.messages[..|r.s.messages| - 1] == done;
  }

  /** A message with a list of parts: `;raw`, its JSON5 as data lines,
      `;end`. */
  lemma RawBlock(json5: Json5Parse, json5s: Value -> string, mc: Machine, m: Message, done: seq<Message>, first: nat) returns (r: Machine)
    requires Ready(mc, done) && m.content.Parts?
    requires json5(json5s(MessageToValue(m))) == Ok(MessageToValue(m))
    ensures Steps(Some(CommandLookup()), json5, mc, MessageLines(json5s, m), first) == Ok(r)
    ensures Ready(r, done + [Kept(m)])
  {
    var lookup := Some(CommandLookup());
    var lines := Split(json5s(MessageToValue(m)), '\n');
    var e := EscapeAll(lines);
    assert MessageLines(json5s, m) == ([";raw"] + e) + [";end"];
    var n: nat := first + 1 + |lines|;
    assert first + |[";raw"] + e| == n;
    var p1 := RawOpenLine(json5, mc, first);
    var p2 := DataSteps(lookup, json5, p1, lines, first + 1);
    StepsThen(lookup, json5, mc, [";raw"], e, first, first + 1, p1, p2);
    assert json5(Join(p2.s.buffered_lines, "\n")) == Ok(MessageToValue(m)) by {
      assert p2.s.buffered_lines == lines;
      JoinSplit(json5s(MessageToValue(m)));
    }
    r := RawEndLine(json5, p2, n, m);
    StepsThen(lookup, json5, mc, [";raw"] + e, [";end"], first, n, p2, r);
  }

  /** Any message, where the machine is between messages. */
  lemma MessageBlock(json5: Json5Parse, json5s: Value -> string, mc: Machine, m: Message, done: seq<Message>, first: nat) returns (r: Machine)
    requires ReadsJsonStrings(json5) && Ready(mc, done)
    requires m.content.Parts? ==> json5(json5s(MessageToValue(m))) == Ok(MessageToValue(m))
    ensures Steps(Some(CommandLookup()), json5, mc, MessageLines(json5s, m), first) == Ok(r)
    ensures Ready(r, done + [Kept(m)])
  {
    if m.content.Parts? {
      r := RawBlock(json5, json5s, mc, m, done, first);
    } else if m.content.s == "" {
      r := PlainBlockEmpty(json5, json5s, mc, m, done, first);
    } else {
      r := PlainBlockText(json5, json5s, mc, m, done, first);
    }
  }

  // ---------------------------------------------------------------------
  // Whole transcripts

  /** The lines the encoder writes for a list of messages. */
  function AllLines(json5s: Value -> string, ms: seq<Message>): seq<string>
    decreases |ms|
  {
    if |ms| == 0 then [] else AllLines(json5s, ms[..|ms| - 1]) + MessageLines(json5s, ms[|ms| - 1])
  }

  function Kepts(ms: seq<Message>): (r: seq<Message>)
    ensures |r| == |ms| && forall i :: 0 <= i < |ms| ==> r[i] == Kept(ms[i])
  {
    seq(|ms|, i requires 0 <= i < |ms| => Kept(ms[i]))
  }

  /** `json5` reads back what `json5s` writes for every message with a list
      of parts. */
  predicate PartsRead(json5: Json5Parse, json5s: Value -> string, ms: seq<Message>) {
    forall i :: 0 <= i < |ms| && ms[i].content.Parts? ==> json5(json5s(MessageToValue(ms[i]))) == Ok(MessageToValue(ms[i]))
  }

  /** The start state is between messages, with none so far. */
  lemma StartReady()
    ensures Ready(Start, [])
  {
  }

  /** All the lines, from the start: between messages, with every message
      kept. */
  lemma {:induction false} Blocks(json5: Json5Parse, json5s: Value -> string, ms: seq<Message>) returns (r: Machine)
    requires ReadsJsonStrings(json5) && PartsRead(json5, json5s, ms)
    ensures Steps(Some(CommandLookup()), json5, Start, AllLines(json5s, ms), 0) == Ok(r)
    ensures Ready(r, Kepts(ms))
    decreases |ms|
  {
    if |ms| == 0 {
      r := Start;
      assert AllLines(json5s, ms) == [];
      assert Kepts(ms) == [];
      StartReady();
    } else {
      var k := |ms| - 1;
      var init := ms[..k];
      assert PartsRead(json5, json5s, init) by {
        forall i | 0 <= i < |init| ensures init[i] == ms[i] { }
      }
      assert Kepts(ms) == Kepts(init) + [Kept(ms[k])];
      assert AllLines(json5s, ms) == AllLines(json5s, init) + MessageLines(json5s, ms[k]);
      var n: nat := |AllLines(json5s, init)|;
      var p := Blocks(json5, json5s, init);
      r := MessageBlock(json5, json5s, p, ms[k], Kepts(init), n);
      StepsThen(Some(CommandLookup()), json5, Start, AllLines(json5s, init), MessageLines(json5s, ms[k]), 0, n, p, r);
    }
  }

  // ---------------------------------------------------------------------
  // The encoder's text, line by line

  lemma EscapedLinesAll(s: string)
    ensures EscapedLines(s) == EscapeAll(Split(s, '\n'))
  {
  }

  /** The command line `stringify` joins from its parts. */
  lemma CommandLineJoin(m: Message)
    ensures Join(CommandParts(m), " ") == CommandLineOf(m)
  {
    JoinSpaced(";" + CommandName(m), ArgPairs(m));
  }

  /** What `stringify` writes for a message is its lines, joined with line
      feeds. */
  lemma StringifyLines(json5s: Value -> string, m: Message)
    ensures StringifySpec(json5s, m) == Join(MessageLines(json5s, m), "\n")
  {
    if m.content.Parts? {
      var j := json5s(MessageToValue(m));
      var e := EscapeAll(Split(j, '\n'));
      EscapedLinesAll(j);
      var x := EscapeDataLines(j);
      assert x == Join(e, "\n");
      assert Join([x, ";end"], "\n") == x + "\n" + ";end" by {
        assert [x, ";end"][1..] == [";end"];
      }
      assert Join([";raw", x, ";end"], "\n") == ";raw" + "\n" + (x + "\n" + ";end") by {
        assert [";raw", x, ";end"][1..] == [x, ";end"];
      }
      JoinConcat([";raw"], e, "\n");
      JoinConcat([";raw"] + e, [";end"], "\n");
      assert MessageLines(json5s, m) == [";raw"] + e + [";end"];
    } else {
      CommandLineJoin(m);
      if m.content.s != "" {
        EscapedLinesAll(m.content.s);
        JoinConcat([CommandLineOf(m)], EscapeAll(Split(m.content.s, '\n')), "\n");
      }
    }
  }

  lemma MessageLinesNonEmpty(json5s: Value -> string, m: Message)
    ensures |MessageLines(json5s, m)| > 0
  {
  }

  lemma {:induction false} AllLinesNonEmpty(json5s: Value -> string, ms: seq<Message>)
    requires |ms| > 0
    ensures |AllLines(json5s, ms)| > 0
  {
    MessageLinesNonEmpty(json5s, ms[|ms| - 1]);
  }

  /** The encoder's text for one more message. */
  lemma EncodeSnoc(json5s: Value -> string, ms: seq<Message>)
    requires |ms| > 0
    ensures var k := |ms| - 1;
      Encode(json5s, ms) == if k == 0 then StringifySpec(json5s, ms[k]) else Encode(json5s, ms[..k]) + "\n" + StringifySpec(json5s, ms[k])
  {
    var k := |ms| - 1;
    var before := Stringified(json5s, ms[..k]);
    var t := StringifySpec(json5s, ms[k]);
    StringifiedSnoc(json5s, ms);
    assert Join(before + [t], "\n") == if |before| == 0 then t else Join(before, "\n") + "\n" + t by {
      JoinAppend(before, t, "\n");
    }
  }

  lemma StringifiedSnoc(json5s: Value -> string, ms: seq<Message>)
    requires |ms| > 0
    ensures Encode(json5s, ms) == Join(Stringified(json5s, ms[..|ms| - 1]) + [StringifySpec(json5s, ms[|ms| - 1])], "\n")
    ensures Encode(json5s, ms[..|ms| - 1]) == Join(Stringified(json5s, ms[..|ms| - 1]), "\n")
  {
    assert Stringified(json5s, ms) == Stringified(json5s, ms[..|ms| - 1]) + [StringifySpec(json5s, ms[|ms| - 1])];
  }

  /** The encoder's text is all the lines joined with line feeds. */
  lemma {:induction false} EncodeLines(json5s: Value -> string, ms: seq<Message>)
    ensures Encode(json5s, ms) == Join(AllLines(json5s, ms), "\n")
    decreases |ms|
  {
    if |ms| > 0 {
      var k := |ms| - 1;
      var init := ms[..k];
      EncodeSnoc(json5s, ms);
      EncodeLines(json5s, init);
      StringifyLines(json5s, ms[k]);
      MessageLinesNonEmpty(json5s, ms[k]);
      if k > 0 {
        AllLinesNonEmpty(json5s, init);
        JoinConcat(AllLines(json5s, init), MessageLines(json5s, ms[k]), "\n");
      } else {
        assert AllLines(json5s, ms) == MessageLines(json5s, ms[k]);
      }
    }
  }

  /** Items hold no line feed: keys are identifiers and values with a line
      feed are quoted. */
  lemma {:induction false} SpacedNoLineFeed(ps: seq<(string, string)>)
    requires forall a :: 0 <= a < |ps| ==> IsKey(ps[a].0)
    ensures '\n' !in SpacedItems(ps)
    decreases |ps|
  {
    if |ps| > 0 {
      SpacedNoLineFeed(ps[1..]);
      QuoteValueShape(ps[0].1);
      var k := ps[0].0;
      assert '\n' !in k by {
        assert forall x :: 0 <= x < |k| ==> IsKeyChar(k[x]);
      }
      assert SpacedItems(ps) == " " + (k + "=" + QuoteValue(ps[0].1)) + SpacedItems(ps[1..]);
    }
  }

  lemma CommandLineNoLineFeed(m: Message)
    ensures '\n' !in CommandLineOf(m)
  {
    CommandNameText(m);
    ArgPairsFresh(m);
    SpacedNoLineFeed(ArgPairs(m));
    var c := CommandName(m);
    assert '\n' !in c by {
      assert forall x :: 0 <= x < |c| ==> IsNameChar(c[x]);
    }
  }

  lemma DataLinesNoLineFeed(s: string)
    ensures forall i :: 0 <= i < |EscapeAll(Split(s, '\n'))| ==> '\n' !in EscapeAll(Split(s, '\n'))[i]
  {
  }

  /** Lines without line feeds around lines without line feeds. */
  lemma FramedNoLineFeed(a: string, e: seq<string>, b: seq<string>)
    requires '\n' !in a && forall i :: 0 <= i < |e| ==> '\n' !in e[i]
    requires forall i :: 0 <= i < |b| ==> '\n' !in b[i]
    ensures forall i :: 0 <= i < |[a] + e + b| ==> '\n' !in ([a] + e + b)[i]
  {
    forall i | 0 <= i < |[a] + e + b|
      ensures '\n' !in ([a] + e + b)[i]
    {
      if i == 0 {
      } else if i <= |e| {
        assert ([a] + e + b)[i] == e[i - 1];
      } else {
        assert ([a] + e + b)[i] == b[i - 1 - |e|];
      }
    }
  }

  lemma MessageLinesNoLineFeed(json5s: Value -> string, m: Message)
    ensures forall i :: 0 <= i < |MessageLines(json5s, m)| ==> '\n' !in MessageLines(json5s, m)[i]
  {
    if m.content.Parts? {
      var e := EscapeAll(Split(json5s(MessageToValue(m)), '\n'));
      DataLinesNoLineFeed(json5s(MessageToValue(m)));
      FramedNoLineFeed(";raw", e, [";end"]);
    } else if m.content.s == "" {
      CommandLineNoLineFeed(m);
    } else {
      var e := EscapeAll(Split(m.content.s, '\n'));
      CommandLineNoLineFeed(m);
      DataLinesNoLineFeed(m.content.s);
      FramedNoLineFeed(CommandLineOf(m), e, []);
      assert [CommandLineOf(m)] + e + [] == MessageLines(json5s, m);
    }
  }

  lemma {:induction false} AllLinesNoLineFeed(json5s: Value -> string, ms: seq<Message>)
    ensures forall i :: 0 <= i < |AllLines(json5s, ms)| ==> '\n' !in AllLines(json5s, ms)[i]
    decreases |ms|
  {
    if |ms| > 0 {
      var a := AllLines(json5s, ms[..|ms| - 1]);
      var b := MessageLines(json5s, ms[|ms| - 1]);
      AllLinesNoLineFeed(json5s, ms[..|ms| - 1]);
      MessageLinesNoLineFeed(json5s, ms[|ms| - 1]);
      assert AllLines(json5s, ms) == a + b;
      forall i | 0 <= i < |a + b|
        ensures '\n' !in (a + b)[i]
      {
        if i >= |a| {
          assert (a + b)[i] == b[i - |a|];
        } else {
          assert (a + b)[i] == a[i];
        }
      }
    }
  }

  /** The lines the decoder reads from the encoder's text are the lines the
      encoder wrote. */
  lemma SplitEncode(json5s: Value -> string, ms: seq<Message>)
    requires |ms| > 0
    ensures Split(Encode(json5s, ms), '\n') == AllLines(json5s, ms)
  {
    EncodeLines(json5s, ms);
    AllLinesNonEmpty(json5s, ms);
    AllLinesNoLineFeed(json5s, ms);
    assert "\n" == ['\n'];
    SplitJoin(AllLines(json5s, ms), '\n');
  }

  // ---------------------------------------------------------------------
  // The round trip

  /** The decoder, with the table of every command and a JSON5 parser that
      reads back quoted strings and the JSON5 the encoder writes, gives
      back every message of what the encoder writes, each as far as the
      transcript form carries it. */
  lemma RoundTrip(json5: Json5Parse, json5s: Value -> string, ms: seq<Message>)
    requires ReadsJsonStrings(json5) && PartsRead(json5, json5s, ms)
    ensures DecodeMessages(Some(CommandLookup()), json5, Encode(json5s, ms)) == Ok(Kepts(ms))
  {
    if |ms| == 0 {
      assert Encode(json5s, ms) == "";
      BlankSourceDecodesEmpty(Some(CommandLookup()), json5, "");
      assert Kepts(ms) == [];
    } else {
      SplitEncode(json5s, ms);
      var r := Blocks(json5, json5s, ms);
      assert Finish(r) == Ok(Kepts(ms));
    }
  }

  // ---------------------------------------------------------------------
  // Where the source falls short of the round trip

  /** With `COMMAND_LOOKUP` as `command/index.ts` writes it, the very first
      command fails: `;user` alone is a type error. */
  lemma NoLookupRejects(json5: Json5Parse)
    ensures DecodeMessages(CommandLookupAsWritten(), json5, ";user") == Err(TypeError(ERR_NO_LOOKUP))
  {
    var lookup := CommandLookupAsWritten();
    assert ";user" == ";" + "user" + "";
    assert '\n' !in ";user";
    SplitNoSep(";user", '\n');
    assert NameText("user") by {
      assert "user"[0] == 'u' && "user"[1] == 's' && "user"[2] == 'e' && "user"[3] == 'r';
    }
    MatchName("user", "");
    assert "user"[0] == 'u';
    CommandLineStep(lookup, json5, Start, 0, ";user");
    NamedCommandStep(lookup, json5, Start, 0, ";user", "user", 5);
    BlankArgs(json5, ";user"[5..], 0);
    StepsOne(lookup, json5, Start, ";user", 0);
  }

  /** On the transcript `;raw`, `{}`, `;end`: once `;raw` is read from the
      start, the data-line step as written throws on `{}`, while the
      decoder's step buffers it for the raw command. */
  lemma RawGuardAsWritten(json5: Json5Parse)
    ensures var p := Steps(Some(CommandLookup()), json5, Start, [";raw"], 0);
      p.Ok? && ParseDataLine("{}") == Some("{}")
      && DataStepAsWritten(json5, p.value, 1, "{}") == Err(LineError(1, ERR_DATA_BEFORE_MESSAGE))
      && DataStep(json5, p.value, 1, "{}") == Ok(Machine(p.value.s.(data_line_no := 1, buffered_lines := ["{}"]), 0))
  {
    var r := RawOpenLine(json5, Start, 0);
    assert !BlankLine("{}") by { assert "{}"[0] == '{'; }
    assert !StartsWith("{}", ";") by { assert "{}"[0] == '{'; }
    assert Buffers(r);
    DataBuffered(json5, r, 1, "{}");
    assert r.s.buffered_lines + ["{}"] == ["{}"];
  }

  /** `quoteValue` as written leaves a line feed in a value bare, so the
      command line of a message named `a\nb` becomes two lines, the second
      a data line; quoting line feeds keeps it on one line. */
  lemma QuoteLineFeedAsWritten()
    ensures QuoteValueAsWritten("a\nb") == "a\nb"
    ensures Split(";user name=" + QuoteValueAsWritten("a\nb"), '\n') == [";user name=a", "b"]
    ensures '\n' !in QuoteValue("a\nb")
  {
    var v := "a\nb";
    assert !NeedsQuotesAsWritten(v[0]) && !NeedsQuotesAsWritten(v[1]) && !NeedsQuotesAsWritten(v[2]);
    assert forall k :: 0 <= k < |v| ==> !NeedsQuotesAsWritten(v[k]);
    assert ";user name=" + v == ";user name=a" + ['\n'] + "b";
    assert '\n' !in ";user name=a";
    SplitAt(";user name=a", "b", '\n');
    assert '\n' !in "b";
    SplitNoSep("b", '\n');
    QuoteValueShape(v);
  }

  /** What the transcript form keeps of a message is all of it exactly
      when its content is a list of parts or it has nothing beyond role,
      name, id and text. */
  lemma KeptWhole(m: Message)
    ensures Kept(m) == m <==>
      m.content.Parts? || (m.call_id.None? && m.reasoning.None? && m.refusal.None? && m.tool_calls.None? && m.extra.None?)
    ensures Kept(m).role == m.role && Kept(m).name == m.name && Kept(m).id == m.id && Kept(m).content == m.content
  {
  }
}
