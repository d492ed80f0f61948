/**
 The STF decoder: a transcript is split into lines; a line starting with
 `;` (but not `;;`) is a command line, any other line is a data line
 (`;;` escapes a data line that starts with `;`). Data lines are buffered
 and appended to the current message when the next command comes; block
 comments nest; a polyadic command collects its data lines up to `;end`.
 */
module STFDecoder {
  import opened Wrappers
  import opened Json
  import opened Strings
  import opened Content
  import opened Messages
  import opened CodecDecoder
  import opened STFArgs
  import opened STFState
  import opened STFCommands

  // ---------------------------------------------------------------------
  // Lines

  /** `parseDataLine`: the data a line carries, or nothing for a command
      line. */
  function ParseDataLine(raw: string): (r: Option<string>)
    ensures r.None? <==> StartsWith(raw, ";") && !StartsWith(raw, ";;")
  {
    if StartsWith(raw, ";;") then Some(raw[1..])
    else if !StartsWith(raw, ";") then Some(raw)
    else None
  }

  /** The letters and digits a command name is made of; the pattern is
      case-insensitive. */
  predicate IsNameStart(c: char) {
    'a' <= c <= 'z' || 'A' <= c <= 'Z'
  }

  predicate IsNameChar(c: char) {
    IsNameStart(c) || '0' <= c <= '9'
  }

  function NameEnd(s: string, i: nat): (r: nat)
    requires i <= |s|
    ensures i <= r <= |s|
    ensures forall k :: i <= k < r ==> IsNameChar(s[k])
    ensures r == |s| || !IsNameChar(s[r])
    decreases |s| - i
  {
    if i < |s| && IsNameChar(s[i]) then NameEnd(s, i + 1) else i
  }

  // `COMMAND_LINE_PATTERN`: `;`, blanks, then a line comment mark (`//` or
  // `#`), a block comment opener or closer, or a name. Gives the matched
  // name and where the match ends.
  function MatchCommand(raw: string): (r: Option<(string, nat)>)
    ensures r.Some? ==> StartsWith(raw, ";") && r.value.1 <= |raw|
    ensures r.Some? ==> 0 < |r.value.0| < r.value.1 && raw[r.value.1 - |r.value.0|..r.value.1] == r.value.0
    ensures r.Some? ==> forall k :: 1 <= k < r.value.1 - |r.value.0| ==> IsBlank(raw[k])
  {
    if !StartsWith(raw, ";") then None
    else
      var j := BlankEnd(raw, 1);
      if j + 2 <= |raw| && raw[j..j + 2] == "//" then Some(("//", j + 2))
      else if j + 2 <= |raw| && raw[j..j + 2] == "/*" then Some(("/*", j + 2))
      else if j + 2 <= |raw| && raw[j..j + 2] == "*/" then Some(("*/", j + 2))
      else if j < |raw| && raw[j] == '#' then Some(("#", j + 1))
      else if j < |raw| && IsNameStart(raw[j]) then
        var e := NameEnd(raw, j + 1);
        Some((raw[j..e], e))
      else None
  }

  // ---------------------------------------------------------------------
  // One line

  /** The state, with the depth of nested block comments. */
  datatype Machine = Machine(s: Snapshot, depth: nat)

  const Start := Machine(Fresh, 0)

  function LineError(line_no: nat, msg: string): Error {
    SyntaxError(Some(line_no + 1), msg)
  }

  const ERR_DATA_BEFORE_MESSAGE := "Unexpected data line before a message."

  /** The data-line check as `decoder.ts` writes it: a non-blank data line without a
      current message is an error, even while a command collects its
      lines. */
  predicate RejectsDataAsWritten(s: Snapshot, data: string) {
    Current(s).None? && !BlankLine(data)
  }

  /** The check as the decoder's own tests need it: a non-blank data line
      is an error only when there is no current message and no command
      collecting lines. */
  predicate RejectsData(s: Snapshot, data: string) {
    s.invoked.None? && RejectsDataAsWritten(s, data)
  }

  /** A data line: skipped inside a block comment; handed straight to a
      monadic command; otherwise buffered. */
  function DataStep(json5: Json5Parse, m: Machine, line_no: nat, data: string): Result<Machine> {
    var s := m.s.(data_line_no := line_no);
    if m.depth > 0 then Ok(Machine(s, m.depth))
    else if s.invoked.Some? && s.invoked.value.command.mode == Monadic then
      if |s.buffered_lines| > 0 then
        Err(PlainError("Line " + NatToString(line_no + 1) + ": Internal error; buffer not empty."))
      else
        var t :- ExecuteSpec(json5, s.(buffered_lines := [data]), s.invoked.value.command, s.invoked.value.args);
        Ok(Machine(t.(invoked := None, buffered_lines := []), 0))
    else if RejectsData(s, data) then Err(LineError(line_no, ERR_DATA_BEFORE_MESSAGE))
    else Ok(Machine(s.(buffered_lines := s.buffered_lines + [data]), 0))
  }

  /** The data-line step with the check as `decoder.ts` writes it: where
      that check fires it throws; everywhere else it agrees with
      `DataStep`. */
  function DataStepAsWritten(json5: Json5Parse, m: Machine, line_no: nat, data: string): Result<Machine> {
    var s := m.s.(data_line_no := line_no);
    if m.depth == 0 && !(s.invoked.Some? && s.invoked.value.command.mode == Monadic) && RejectsDataAsWritten(s, data) then
      Err(LineError(line_no, ERR_DATA_BEFORE_MESSAGE))
    else DataStep(json5, m, line_no, data)
  }

  /** `;end`: runs the polyadic command being invoked on its lines. */
  function EndStep(json5: Json5Parse, s: Snapshot, line_no: nat): Result<Machine> {
    if s.invoked.None? then Err(LineError(line_no, "Unexpected 'end' command."))
    else if s.invoked.value.command.mode != Polyadic then
      Err(LineError(line_no, "Unexpected 'end' command for a command '" + s.invoked.value.command.name + "'."))
    else
      var t :- ExecuteSpec(json5, s, s.invoked.value.command, s.invoked.value.args);
      Ok(Machine(t.(invoked := None, buffered_lines := []), 0))
  }

  /** What `COMMAND_LOOKUP.get` throws when the table is `undefined`. */
  const ERR_NO_LOOKUP := "Cannot read properties of undefined (reading 'get')"

  /** Any other command: the buffer is flushed, the arguments are parsed,
      and the command runs at once or waits for its lines. */
  function InvokeStep(lookup: Option<map<string, Command>>, json5: Json5Parse, s: Snapshot, line_no: nat, raw: string, name: string, end: nat): Result<Machine>
    requires end <= |raw|
  {
    var f :- FlushBufferedSpec(s);
    var args :- ParseArgs(json5, raw[end..], line_no);
    if lookup.None? then Err(TypeError(ERR_NO_LOOKUP))
    else if name !in lookup.value then Err(LineError(line_no, "Unknown command '" + name + "'."))
    else
      var cmd := lookup.value[name];
      if cmd.mode == Niladic then
        var t :- ExecuteSpec(json5, f, cmd, args);
        Ok(Machine(t, 0))
      else Ok(Machine(f.(invoked := Some(Invoked(cmd, args))), 0))
  }

  /** A command line. */
  function CommandStep(lookup: Option<map<string, Command>>, json5: Json5Parse, m: Machine, line_no: nat, raw: string): Result<Machine> {
    var s := m.s.(command_line_no := line_no);
    match MatchCommand(raw)
    case None => Err(LineError(line_no, "Unknown command line."))
    case Some((name, end)) =>
      if name == "//" || name == "#" then Ok(Machine(s, m.depth))
      else if name == "/*" then Ok(Machine(s, m.depth + 1))
      else if name == "*/" then
        if m.depth == 0 then Err(LineError(line_no, "Unexpected block comment end."))
        else Ok(Machine(s, m.depth - 1))
      else if m.depth > 0 then Ok(Machine(s, m.depth))
      else if name == "end" then EndStep(json5, s, line_no)
      else if s.invoked.Some? then
        Err(LineError(line_no, "Unexpected command '" + name + "' while a command '[object Object]' is being invoked."))
      else InvokeStep(lookup, json5, s, line_no, raw, name, end)
  }

  function LineStep(lookup: Option<map<string, Command>>, json5: Json5Parse, m: Machine, line_no: nat, raw: string): Result<Machine> {
    match ParseDataLine(raw)
    case Some(data) => DataStep(json5, m, line_no, data)
    case None => CommandStep(lookup, json5, m, line_no, raw)
  }

  /** What one line does to the machine. */
  type LineFn = (Machine, nat, string) -> Result<Machine>

  /** The lines `lines`, numbered from `first`, each run by `step` from
      `m`, stopping at the first error. */
  function Run(step: LineFn, m: Machine, lines: seq<string>, first: nat): Result<Machine> {
    if |lines| == 0 then Ok(m)
    else
      var p :- Run(step, m, lines[..|lines| - 1], first);
      step(p, first + |lines| - 1, lines[|lines| - 1])
  }

  /** The decoder's line loop. */
  function Steps(lookup: Option<map<string, Command>>, json5: Json5Parse, m: Machine, lines: seq<string>, first: nat): Result<Machine> {
    Run((p: Machine, n: nat, raw: string) => LineStep(lookup, json5, p, n, raw), m, lines, first)
  }

  /** The loop's last line. */
  lemma StepsSnoc(lookup: Option<map<string, Command>>, json5: Json5Parse, m: Machine, lines: seq<string>, first: nat)
    requires |lines| > 0
    ensures Steps(lookup, json5, m, lines, first) ==
      (var p :- Steps(lookup, json5, m, lines[..|lines| - 1], first); LineStep(lookup, json5, p, first + |lines| - 1, lines[|lines| - 1]))
  {
  }

  /** The end of the input: comments and commands must be closed, then the
      state is flushed. */
  function Finish(m: Machine): Result<seq<Message>> {
    if m.depth != 0 then Err(SyntaxError(None, "Unterminated block comment."))
    else if m.s.invoked.Some? then Err(SyntaxError(None, "Unterminated '" + m.s.invoked.value.command.name + "' command."))
    else
      var f :- FlushSpec(m.s);
      Ok(f.messages)
  }

  const ERR_NOT_STRING := "`STFCodec` expected serialized data to be a string."

  /** The messages a transcript decodes to. */
  function DecodeMessages(lookup: Option<map<string, Command>>, json5: Json5Parse, source: string): Result<seq<Message>> {
    var m :- Steps(lookup, json5, Start, Split(source, '\n'), 0);
    Finish(m)
  }

  /** The raw decoder: `{messages}`. */
  function DecodeRaw(lookup: Option<map<string, Command>>, json5: Json5Parse, source: Value): Result<Value> {
    if !source.Str? then Err(TypeError(ERR_NOT_STRING))
    else
      var ms :- DecodeMessages(lookup, json5, source.s);
      Ok(DecodedDataToValue(DecodedData(None, ms)))
  }

  /** The table the decoder is meant to consult: every command. */
  function CommandLookup(): map<string, Command> {
    AllCommandsTable();
    LookupOf(Entries(ALL_COMMANDS)).value
  }

  // ---------------------------------------------------------------------
  // The decoder on the state object

  /** Handling a data line. */
  method DataLine(json5: Json5Parse, st: DecodeState, depth: nat, line_no: nat, data: string) returns (r: Result<()>)
    requires st.Valid()
    modifies st
    ensures var spec := DataStep(json5, Machine(old(st.Snap()), depth), line_no, data);
      && (r.Ok? <==> spec.Ok?)
      && (r.Ok? ==> Machine(st.Snap(), depth) == spec.value && st.Valid())
      && (r.Err? ==> r.error == spec.error)
  {
    st.data_line_no := line_no;
    if depth > 0 {
      return Ok(());
    }
    if st.invoked.Some? && st.invoked.value.command.mode == Monadic {
      if |st.buffered_lines| > 0 {
        return Err(PlainError("Line " + NatToString(line_no + 1) + ": Internal error; buffer not empty."));
      }
      var invoked := st.invoked.value;
      st.buffered_lines := [data];
      assert st.Snap() == old(st.Snap()).(data_line_no := line_no, buffered_lines := [data]);
      var e := Execute(json5, st, invoked.command, invoked.args);
      if e.Err? {
        return Err(e.error);
      }
      st.invoked := None;
      st.buffered_lines := [];
      return Ok(());
    }
    if st.invoked.None? && !st.current && !(forall k :: 0 <= k < |data| ==> IsBlank(data[k])) {
      return Err(LineError(line_no, ERR_DATA_BEFORE_MESSAGE));
    }
    st.buffered_lines := st.buffered_lines + [data];
    return Ok(());
  }

  /** Handling `;end`. */
  method EndCommand(json5: Json5Parse, st: DecodeState, line_no: nat) returns (r: Result<()>)
    requires st.Valid()
    modifies st
    ensures var spec := EndStep(json5, old(st.Snap()), line_no);
      && (r.Ok? <==> spec.Ok?)
      && (r.Ok? ==> Machine(st.Snap(), 0) == spec.value && st.Valid())
      && (r.Err? ==> r.error == spec.error)
  {
    if st.invoked.None? {
      return Err(LineError(line_no, "Unexpected 'end' command."));
    }
    var invoked := st.invoked.value;
    if invoked.command.mode != Polyadic {
      return Err(LineError(line_no, "Unexpected 'end' command for a command '" + invoked.command.name + "'."));
    }
    var e := Execute(json5, st, invoked.command, invoked.args);
    if e.Err? {
      return Err(e.error);
    }
    st.invoked := None;
    st.buffered_lines := [];
    return Ok(());
  }

  /** Handling any other command. */
  method InvokeCommand(lookup: Option<map<string, Command>>, json5: Json5Parse, st: DecodeState, line_no: nat, raw: string, name: string, end: nat)
    returns (r: Result<()>)
    requires st.Valid() && end <= |raw|
    modifies st
    ensures var spec := InvokeStep(lookup, json5, old(st.Snap()), line_no, raw, name, end);
      && (r.Ok? <==> spec.Ok?)
      && (r.Ok? ==> Machine(st.Snap(), 0) == spec.value && st.Valid())
      && (r.Err? ==> r.error == spec.error)
  {
    var flushed := st.FlushBufferedLines();
    if flushed.Err? {
      return Err(flushed.error);
    }
    var args := ParseCommandArgs(json5, raw[end..], line_no);
    if args.Err? {
      return Err(args.error);
    }
    if lookup.None? {
      return Err(TypeError(ERR_NO_LOOKUP));
    }
    if name !in lookup.value {
      return Err(LineError(line_no, "Unknown command '" + name + "'."));
    }
    var command := lookup.value[name];
    if command.mode == Niladic {
      r := Execute(json5, st, command, args.value);
    } else {
      st.invoked := Some(Invoked(command, args.value));
      r := Ok(());
    }
  }

  /** Handling a command line; gives the new comment depth. */
  method CommandLine(lookup: Option<map<string, Command>>, json5: Json5Parse, st: DecodeState, depth: nat, line_no: nat, raw: string)
    returns (r: Result<nat>)
    requires st.Valid()
    modifies st
    ensures var spec := CommandStep(lookup, json5, Machine(old(st.Snap()), depth), line_no, raw);
      && (r.Ok? <==> spec.Ok?)
      && (r.Ok? ==> Machine(st.Snap(), r.value) == spec.value && st.Valid())
      && (r.Err? ==> r.error == spec.error)
  {
    st.command_line_no := line_no;
    var matched := MatchCommand(raw);
    if matched.None? {
      return Err(LineError(line_no, "Unknown command line."));
    }
    var (name, end) := matched.value;
    if name == "//" || name == "#" {
      return Ok(depth);
    }
    if name == "/*" {
      return Ok(depth + 1);
    }
    if name == "*/" {
      if depth == 0 {
        return Err(LineError(line_no, "Unexpected block comment end."));
      }
      return Ok(depth - 1);
    }
    if depth > 0 {
      return Ok(depth);
    }
    if name == "end" {
      var e := EndCommand(json5, st, line_no);
      return if e.Ok? then Ok(0) else Err(e.error);
    }
    if st.invoked.Some? {
      return Err(LineError(line_no, "Unexpected command '" + name + "' while a command '[object Object]' is being invoked."));
    }
    var e := InvokeCommand(lookup, json5, st, line_no, raw, name, end);
    return if e.Ok? then Ok(0) else Err(e.error);
  }

  /** Once a line fails, the rest are never read. */
  lemma {:induction false} RunErrStays(step: LineFn, m: Machine, lines: seq<string>, first: nat, i: nat)
    requires i <= |lines| && Run(step, m, lines[..i], first).Err?
    ensures Run(step, m, lines, first) == Run(step, m, lines[..i], first)
    decreases |lines| - i
  {
    if i == |lines| {
      assert lines[..i] == lines;
    } else {
      assert lines[..i + 1][..i] == lines[..i];
      RunErrStays(step, m, lines, first, i + 1);
    }
  }

  lemma StepsErrStays(lookup: Option<map<string, Command>>, json5: Json5Parse, m: Machine, lines: seq<string>, first: nat, i: nat)
    requires i <= |lines| && Steps(lookup, json5, m, lines[..i], first).Err?
    ensures Steps(lookup, json5, m, lines, first) == Steps(lookup, json5, m, lines[..i], first)
  {
    RunErrStays((p: Machine, n: nat, raw: string) => LineStep(lookup, json5, p, n, raw), m, lines, first, i);
  }

  /** One line of the loop; gives the new comment depth. */
  method ReadLine(lookup: Option<map<string, Command>>, json5: Json5Parse, st: DecodeState, depth: nat, line_no: nat, raw: string)
    returns (r: Result<nat>)
    requires st.Valid()
    modifies st
    ensures var spec := LineStep(lookup, json5, Machine(old(st.Snap()), depth), line_no, raw);
      && (r.Ok? <==> spec.Ok?)
      && (r.Ok? ==> Machine(st.Snap(), r.value) == spec.value && st.Valid())
      && (r.Err? ==> r.error == spec.error)
  {
    var data := ParseDataLine(raw);
    if data.Some? {
      var e := DataLine(json5, st, depth, line_no, data.value);
      return if e.Ok? then Ok(depth) else Err(e.error);
    }
    r := CommandLine(lookup, json5, st, depth, line_no, raw);
  }

  /** After the last line. */
  method FinishDecode(st: DecodeState, depth: nat) returns (r: Result<seq<Message>>)
    requires st.Valid()
    modifies st
    ensures r == Finish(Machine(old(st.Snap()), depth))
  {
    if depth != 0 {
      return Err(SyntaxError(None, "Unterminated block comment."));
    }
    if st.invoked.Some? {
      return Err(SyntaxError(None, "Unterminated '" + st.invoked.value.command.name + "' command."));
    }
    var flushed := st.FlushDecodeState();
    if flushed.Err? {
      return Err(flushed.error);
    }
    return Ok(st.messages);
  }

  /** The line loop. */
  method RunLines(lookup: Option<map<string, Command>>, json5: Json5Parse, st: DecodeState, lines: seq<string>) returns (r: Result<nat>)
    requires st.Snap() == Fresh
    modifies st
    ensures r.Ok? <==> Steps(lookup, json5, Start, lines, 0).Ok?
    ensures r.Ok? ==> Steps(lookup, json5, Start, lines, 0) == Ok(Machine(st.Snap(), r.value)) && st.Valid()
    ensures r.Err? ==> r.error == Steps(lookup, json5, Start, lines, 0).error
  {
    var depth := 0;
    for line_no := 0 to |lines|
      invariant st.Valid()
      invariant Steps(lookup, json5, Start, lines[..line_no], 0) == Ok(Machine(st.Snap(), depth))
    {
      assert lines[..line_no + 1][..line_no] == lines[..line_no];
      var e := ReadLine(lookup, json5, st, depth, line_no, lines[line_no]);
      if e.Err? {
        StepsErrStays(lookup, json5, Start, lines, 0, line_no + 1);
        return Err(e.error);
      }
      depth := e.value;
    }
    assert lines[..|lines|] == lines;
    return Ok(depth);
  }

  /** The decoder `createDecoder()` gives. */
  method Decode(lookup: Option<map<string, Command>>, json5: Json5Parse, source: Value) returns (r: Result<Value>)
    ensures r == DecodeRaw(lookup, json5, source)
  {
    if !source.Str? {
      return Err(TypeError(ERR_NOT_STRING));
    }
    var st := new DecodeState();
    var depth := RunLines(lookup, json5, st, Split(source.s, '\n'));
    if depth.Err? {
      return Err(depth.error);
    }
    var ms := FinishDecode(st, depth.value);
    if ms.Err? {
      return Err(ms.error);
    }
    return Ok(DecodedDataToValue(DecodedData(None, ms.value)));
  }

  // ---------------------------------------------------------------------
  // Properties of the line loop

  /** Running two blocks of lines is running the first, then the second
      from where the first left off. */
  lemma {:induction false} RunAppend(step: LineFn, m: Machine, a: seq<string>, b: seq<string>, first: nat)
    ensures Run(step, m, a + b, first) == (var p :- Run(step, m, a, first); Run(step, p, b, first + |a|))
    decreases |b|
  {
    if |b| == 0 {
      assert a + b == a;
    } else {
      assert (a + b)[..|a + b| - 1] == a + b[..|b| - 1];
      assert (a + b)[|a + b| - 1] == b[|b| - 1];
      RunAppend(step, m, a, b[..|b| - 1], first);
    }
  }

  lemma StepsAppend(lookup: Option<map<string, Command>>, json5: Json5Parse, m: Machine, a: seq<string>, b: seq<string>, first: nat)
    ensures Steps(lookup, json5, m, a + b, first) ==
      (var p :- Steps(lookup, json5, m, a, first); Steps(lookup, json5, p, b, first + |a|))
  {
    RunAppend((p: Machine, n: nat, raw: string) => LineStep(lookup, json5, p, n, raw), m, a, b, first);
  }

  /** A blank line is a data line and is buffered even before any
      message. */
  lemma BlankLineBuffered(lookup: Option<map<string, Command>>, json5: Json5Parse, m: Machine, line_no: nat, raw: string)
    requires BlankLine(raw) && m.depth == 0 && m.s.invoked.None?
    ensures LineStep(lookup, json5, m, line_no, raw) ==
      Ok(Machine(m.s.(data_line_no := line_no, buffered_lines := m.s.buffered_lines + [raw]), 0))
  {
    if |raw| > 0 {
      assert IsBlank(raw[0]);
      assert raw[..1] != ";" by { assert raw[..1][0] == raw[0]; }
    }
  }

  /** Blank lines only: they are all buffered, nothing else happens. */
  lemma {:induction false} BlankSteps(lookup: Option<map<string, Command>>, json5: Json5Parse, lines: seq<string>)
    requires forall i :: 0 <= i < |lines| ==> BlankLine(lines[i])
    ensures Steps(lookup, json5, Start, lines, 0) ==
      Ok(Machine(Fresh.(data_line_no := if |lines| == 0 then 0 else |lines| - 1, buffered_lines := lines), 0))
  {
    if |lines| > 0 {
      var init := lines[..|lines| - 1];
      BlankSteps(lookup, json5, init);
      var p := Machine(Fresh.(data_line_no := if |init| == 0 then 0 else |init| - 1, buffered_lines := init), 0);
      BlankLineBuffered(lookup, json5, p, |lines| - 1, lines[|lines| - 1]);
      assert init + [lines[|lines| - 1]] == lines;
      StepsSnoc(lookup, json5, Start, lines, 0);
    }
  }

  /** A transcript of spaces, tabs and line feeds decodes to no messages. */
  lemma BlankSourceDecodesEmpty(lookup: Option<map<string, Command>>, json5: Json5Parse, source: string)
    requires forall k :: 0 <= k < |source| ==> source[k] == ' ' || source[k] == '\t' || source[k] == '\n'
    ensures DecodeMessages(lookup, json5, source) == Ok([])
  {
    var lines := Split(source, '\n');
    forall i | 0 <= i < |lines|
      ensures BlankLine(lines[i])
    {
      forall k | 0 <= k < |lines[i]|
        ensures IsBlank(lines[i][k])
      {
        JoinPieceChar(lines, "\n", i, k);
        assert lines[i][k] != '\n';
      }
    }
    BlankSteps(lookup, json5, lines);
  }

  /** A line that leaves a block comment as it is: a data line, or a
      command line other than a comment opener or closer. */
  predicate Inert(raw: string) {
    ParseDataLine(raw).Some? || (MatchCommand(raw).Some? && MatchCommand(raw).value.0 != "/*" && MatchCommand(raw).value.0 != "*/")
  }

  /** Two states that differ at most in their line numbers. */
  predicate SameButLines(a: Snapshot, b: Snapshot) {
    a.(command_line_no := b.command_line_no, data_line_no := b.data_line_no) == b
  }

  /** Inside a block comment inert lines change nothing but the line
      numbers. */
  lemma {:induction false} InsideComment(lookup: Option<map<string, Command>>, json5: Json5Parse, m: Machine, body: seq<string>, first: nat)
    requires m.depth > 0 && forall i :: 0 <= i < |body| ==> Inert(body[i])
    ensures Steps(lookup, json5, m, body, first).Ok?
    ensures Steps(lookup, json5, m, body, first).value.depth == m.depth
    ensures SameButLines(Steps(lookup, json5, m, body, first).value.s, m.s)
  {
    if |body| > 0 {
      var init := body[..|body| - 1];
      InsideComment(lookup, json5, m, init, first);
      assert Inert(body[|body| - 1]);
    }
  }

  /** The comment opener and closer are command lines. */
  lemma CommentMarks()
    ensures ParseDataLine(";/*").None? && MatchCommand(";/*") == Some(("/*", 3))
    ensures ParseDataLine(";*/").None? && MatchCommand(";*/") == Some(("*/", 3))
    ensures "/*" != "//" && "/*" != "#" && "*/" != "//" && "*/" != "#" && "*/" != "/*"
  {
    assert "/*"[1] != "//"[1] && "*/"[0] != "//"[0] && "*/"[0] != "/*"[0];
    var op, cl := ";/*", ";*/";
    assert op[..2] != ";;" by { assert op[..2][1] == '/'; }
    assert cl[..2] != ";;" by { assert cl[..2][1] == '*'; }
    assert BlankEnd(op, 1) == 1 && BlankEnd(cl, 1) == 1;
    assert op[1..3] == "/*" && cl[1..3] == "*/";
    assert cl[1..3] != "//" by { assert cl[1..3][0] == '*'; }
    assert cl[1..3] != "/*" by { assert cl[1..3][0] == '*'; }
  }

  lemma StepsOne(lookup: Option<map<string, Command>>, json5: Json5Parse, m: Machine, raw: string, first: nat)
    ensures Steps(lookup, json5, m, [raw], first) == LineStep(lookup, json5, m, first, raw)
  {
    StepsSnoc(lookup, json5, m, [raw], first);
    assert [raw][..0] == [];
    assert Steps(lookup, json5, m, [], first) == Ok(m);
  }

  /** `;/*` opens one more level; `;*/` closes one, and is an error
      outside any comment. */
  lemma CommentSteps(lookup: Option<map<string, Command>>, json5: Json5Parse, m: Machine, line_no: nat)
    ensures LineStep(lookup, json5, m, line_no, ";/*") == Ok(Machine(m.s.(command_line_no := line_no), m.depth + 1))
    ensures LineStep(lookup, json5, m, line_no, ";*/") ==
      if m.depth == 0 then Err(LineError(line_no, "Unexpected block comment end."))
      else Ok(Machine(m.s.(command_line_no := line_no), m.depth - 1))
  {
    CommentMarks();
  }

  /** A comment opener as the only line: one level deeper. */
  lemma OpenStep(lookup: Option<map<string, Command>>, json5: Json5Parse, m: Machine, first: nat)
    ensures Steps(lookup, json5, m, [";/*"], first) == Ok(Machine(m.s.(command_line_no := first), m.depth + 1))
  {
    StepsOne(lookup, json5, m, ";/*", first);
    CommentSteps(lookup, json5, m, first);
  }

  /** An opened comment and inert lines: one level deeper, nothing else
      changed. */
  lemma OpenedComment(lookup: Option<map<string, Command>>, json5: Json5Parse, m: Machine, body: seq<string>, first: nat)
    requires forall i :: 0 <= i < |body| ==> Inert(body[i])
    ensures var r := Steps(lookup, json5, m, [";/*"] + body, first);
      r.Ok? && r.value.depth == m.depth + 1 && SameButLines(r.value.s, m.s)
  {
    OpenStep(lookup, json5, m, first);
    var o := Machine(m.s.(command_line_no := first), m.depth + 1);
    InsideComment(lookup, json5, o, body, first + 1);
    StepsAppend(lookup, json5, m, [";/*"], body, first);
  }

  /** A block comment around inert lines hides them: only the line numbers
      change. */
  lemma CommentHides(lookup: Option<map<string, Command>>, json5: Json5Parse, m: Machine, body: seq<string>, first: nat)
    requires forall i :: 0 <= i < |body| ==> Inert(body[i])
    ensures var r := Steps(lookup, json5, m, [";/*"] + body + [";*/"], first);
      r.Ok? && r.value.depth == m.depth && SameButLines(r.value.s, m.s)
  {
    OpenedComment(lookup, json5, m, body, first);
    var inner := Steps(lookup, json5, m, [";/*"] + body, first).value;
    var all := [";/*"] + body + [";*/"];
    assert all[..|all| - 1] == [";/*"] + body;
    assert all[|all| - 1] == ";*/";
    StepsSnoc(lookup, json5, m, all, first);
    CommentSteps(lookup, json5, inner, first + |all| - 1);
  }
}
