/**
 The STF decoder's state: the messages so far, the current message, the
 line numbers last seen, the buffered data lines and the command being
 invoked.

 The current message is the object `startNewMessage` pushed last, so it is
 always the last element of `messages`; the model keeps a flag for it and
 updates that last element where the source writes through the shared
 object.
 */
module STFState {
  import opened Wrappers
  import opened Json
  import opened Strings
  import opened Content
  import opened Messages
  import opened STFArgs

  /** How many data lines a command takes: none (it runs at once), the next
      one, or all up to `;end`. */
  datatype Mode = Niladic | Monadic | Polyadic

  /** What a command does when it runs. */
  datatype Action =
    | RoleAction(role: string)
    | MessageAction
    | RawAction
    | ExtraAction
    | FlushAction

  datatype Command = Command(mode: Mode, name: string, alias_list: seq<string>, action: Action)

  /** A command waiting for its data lines, with its arguments. */
  datatype Invoked = Invoked(command: Command, args: map<string, Value>)

  datatype Snapshot = Snapshot(
    messages: seq<Message>,
    current: bool,
    command_line_no: nat,
    data_line_no: nat,
    buffered_lines: seq<string>,
    invoked: Option<Invoked>)

  /** A current message exists only when some message does. */
  predicate SnapValid(s: Snapshot) {
    s.current ==> |s.messages| > 0
  }

  /** `createDecodeState()`. */
  const Fresh := Snapshot([], false, 0, 0, [], None)

  /** `state.curr_message`. */
  function Current(s: Snapshot): Option<Message> {
    if s.current && |s.messages| > 0 then Some(s.messages[|s.messages| - 1]) else None
  }

  /** Writing through `state.curr_message`. */
  function SetCurrent(s: Snapshot, m: Message): (r: Snapshot)
    requires s.current && |s.messages| > 0
    ensures |r.messages| == |s.messages| && r.messages[..|s.messages| - 1] == s.messages[..|s.messages| - 1]
    ensures Current(r) == Some(m)
  {
    s.(messages := s.messages[..|s.messages| - 1] + [m])
  }

  /** `Partial<NewMessageParams>`. */
  datatype NewMessageParams = NewMessageParams(line_no: Option<nat>, role: Option<string>, id: Option<string>, name: Option<string>)

  const ERR_NO_ROLE := "Attempt to create a new message without a role."

  /** `{role, content: ""}` with `id` and `name` when they are set. */
  function FreshMessage(role: string, id: Option<string>, name: Option<string>): Message {
    Message(id, None, role, name, Plain(""), None, None, None, None)
  }

  /** The line an error of `startNewMessage` names: the given one, else the
      later of the last command and data lines. */
  function LineOf(s: Snapshot, p: NewMessageParams): nat {
    p.line_no.GetOr(if s.command_line_no < s.data_line_no then s.data_line_no else s.command_line_no)
  }

  /** `startNewMessage`: the role is the given one, else the current
      message's; without either it is an error naming the 1-based line (the
      given one, else the later of the last command and data lines). The new
      message is appended and becomes the current one. */
  function StartSpec(s: Snapshot, p: NewMessageParams): (r: Result<Snapshot>)
    ensures r.Ok? <==> p.role.Some? || Current(s).Some?
    ensures r.Err? ==> r.error == SyntaxError(Some(LineOf(s, p) + 1), ERR_NO_ROLE)
    ensures r.Ok? ==>
      && |r.value.messages| == |s.messages| + 1
      && r.value.messages[..|s.messages|] == s.messages
      && Current(r.value) == Some(FreshMessage(if p.role.Some? then p.role.value else Current(s).value.role, p.id, p.name))
      && r.value == s.(messages := r.value.messages, current := true)
  {
    var line := LineOf(s, p);
    var role := if p.role.Some? then p.role else if Current(s).Some? then Some(Current(s).value.role) else None;
    if role.None? then Err(SyntaxError(Some(line + 1), ERR_NO_ROLE))
    else
      var m := FreshMessage(role.value, p.id, p.name);
      assert (s.messages + [m])[..|s.messages|] == s.messages;
      Ok(s.(messages := s.messages + [m], current := true))
  }

  /** `BLANK_LINE_PATTERN`: only spaces and tabs. */
  predicate BlankLine(line: string) {
    forall k :: 0 <= k < |line| ==> IsBlank(line[k])
  }

  predicate AllBlank(lines: seq<string>) {
    forall k :: 0 <= k < |lines| ==> BlankLine(lines[k])
  }

  /** The current message with the buffered lines appended to its
      content. */
  function Appended(m: Message, lines: seq<string>): Message {
    m.(content := ConcatInto(m.content, [Plain(Join(lines, "\n"))]))
  }

  /** `flushBufferedLines`: the buffered lines, joined with line feeds, are
      appended to the current message, which stays current; without a
      current message a buffer of blank lines is dropped and any other
      buffer is the no-role error. The buffer is empty afterwards. */
  function FlushBufferedSpec(s: Snapshot): (r: Result<Snapshot>)
    ensures r.Ok? <==> |s.buffered_lines| == 0 || Current(s).Some? || AllBlank(s.buffered_lines)
    ensures r.Err? ==> r.error == SyntaxError(Some(s.data_line_no + 1), ERR_NO_ROLE)
    ensures r.Ok? ==> r.value.buffered_lines == [] && r.value.current == s.current
    ensures r.Ok? && |s.buffered_lines| > 0 && Current(s).Some? ==>
      r.value == SetCurrent(s, Appended(Current(s).value, s.buffered_lines)).(buffered_lines := [])
    ensures r.Ok? && (|s.buffered_lines| == 0 || Current(s).None?) ==> r.value == s.(buffered_lines := [])
  {
    if |s.buffered_lines| == 0 then Ok(s)
    else if Current(s).Some? then Ok(SetCurrent(s, Appended(Current(s).value, s.buffered_lines)).(buffered_lines := []))
    else if AllBlank(s.buffered_lines) then Ok(s.(buffered_lines := []))
    else Err(SyntaxError(Some(s.data_line_no + 1), ERR_NO_ROLE))
  }

  /** `flushDecodeState`: the buffer is flushed and no message is current
      any more. */
  function FlushSpec(s: Snapshot): (r: Result<Snapshot>)
    ensures r.Ok? <==> FlushBufferedSpec(s).Ok?
    ensures r.Ok? ==> r.value == FlushBufferedSpec(s).value.(current := false)
  {
    var f :- FlushBufferedSpec(s);
    Ok(f.(current := false))
  }

  /** `flushDecodeState` as `decode-state.ts` writes it: a non-empty buffer
      without a current message asks `startNewMessage` for a message without
      a role, which fails, even when every buffered line is blank. */
  function FlushAsWritten(s: Snapshot): Result<Snapshot> {
    if |s.buffered_lines| == 0 then Ok(s.(current := false))
    else
      var t :- if Current(s).Some? then Ok(s) else StartSpec(s, NewMessageParams(Some(s.data_line_no), None, None, None));
      Ok(SetCurrent(t, Appended(Current(t).value, s.buffered_lines)).(buffered_lines := [], current := false))
  }

  /** Decoding ` ` leaves one blank buffered line and no message: the
      version in `decode-state.ts` rejects that state, the flush the decoder
      uses ends with no messages. */
  lemma BlankBufferFlush()
    ensures FlushAsWritten(Fresh.(buffered_lines := [" "])).Err?
    ensures FlushSpec(Fresh.(buffered_lines := [" "])) == Ok(Fresh)
  {
    assert BlankLine(" ");
  }

  /** Flushing twice is flushing once. */
  lemma FlushIdempotent(s: Snapshot)
    requires FlushSpec(s).Ok?
    ensures FlushSpec(FlushSpec(s).value) == FlushSpec(s)
  {
  }

  /** Flushing never touches the messages before the current one, and
      changes the current one only by appending the buffered text. */
  lemma FlushBufferedText(s: Snapshot)
    requires FlushBufferedSpec(s).Ok? && Current(s).Some? && |s.buffered_lines| > 0
    ensures var r := FlushBufferedSpec(s).value;
      && r.messages[..|s.messages| - 1] == s.messages[..|s.messages| - 1]
      && MessageContentToText(Current(r).value.content)
         == MessageContentToText(Current(s).value.content) + Join(s.buffered_lines, "\n")
  {
    var m := Current(s).value;
    var c := Plain(Join(s.buffered_lines, "\n"));
    assert [c][..0] == [];
    ConcatStepText(m.content, c);
    assert ConcatInto(m.content, [c]) == ConcatStep(ConcatInto(m.content, []), c);
  }

  // ---------------------------------------------------------------------
  // The state object

  class DecodeState {
    var messages: seq<Message>
    var current: bool
    var command_line_no: nat
    var data_line_no: nat
    var buffered_lines: seq<string>
    var invoked: Option<Invoked>

    function Snap(): Snapshot
      reads this
    {
      Snapshot(messages, current, command_line_no, data_line_no, buffered_lines, invoked)
    }

    ghost predicate Valid()
      reads this
    {
      SnapValid(Snap())
    }

    /** `createDecodeState()`. */
    constructor ()
      ensures Snap() == Fresh && Valid()
    {
      messages := [];
      current := false;
      command_line_no := 0;
      data_line_no := 0;
      buffered_lines := [];
      invoked := None;
    }

    /** Replaces the whole state with a snapshot. */
    method Load(s: Snapshot)
      modifies this
      ensures Snap() == s
    {
      messages, current, command_line_no, data_line_no, buffered_lines, invoked :=
        s.messages, s.current, s.command_line_no, s.data_line_no, s.buffered_lines, s.invoked;
    }

    /** `startNewMessage`. */
    method StartNewMessage(p: NewMessageParams) returns (r: Result<Message>)
      requires Valid()
      modifies this
      ensures r.Ok? <==> StartSpec(old(Snap()), p).Ok?
      ensures r.Ok? ==> Snap() == StartSpec(old(Snap()), p).value && Valid() && Some(r.value) == Current(Snap())
      ensures r.Err? ==> r.error == StartSpec(old(Snap()), p).error
    {
      var line := if p.line_no.Some? then p.line_no.value
        else if command_line_no < data_line_no then data_line_no else command_line_no;
      var role: string;
      if p.role.Some? {
        role := p.role.value;
      } else if current {
        role := messages[|messages| - 1].role;
      } else {
        return Err(SyntaxError(Some(line + 1), ERR_NO_ROLE));
      }
      var message := Message(None, None, role, None, Plain(""), None, None, None, None);
      if p.id.Some? {
        message := message.(id := p.id);
      }
      if p.name.Some? {
        message := message.(name := p.name);
      }
      current := true;
      messages := messages + [message];
      return Ok(message);
    }

    /** `flushBufferedLines`. */
    method FlushBufferedLines() returns (r: Result<()>)
      requires Valid()
      modifies this
      ensures r.Ok? <==> FlushBufferedSpec(old(Snap())).Ok?
      ensures r.Ok? ==> Snap() == FlushBufferedSpec(old(Snap())).value && Valid()
      ensures r.Err? ==> r.error == FlushBufferedSpec(old(Snap())).error
    {
      var lines := buffered_lines;
      if |lines| > 0 {
        if current {
          var m := messages[|messages| - 1];
          var content := ConcatContentsTo(m.content, [Plain(Join(lines, "\n"))]);
          messages := messages[..|messages| - 1] + [m.(content := content)];
        } else if !(forall k :: 0 <= k < |lines| ==> BlankLine(lines[k])) {
          return Err(SyntaxError(Some(data_line_no + 1), ERR_NO_ROLE));
        }
        buffered_lines := [];
      }
      return Ok(());
    }

    /** `flushDecodeState`, as the decoder's revision has it. */
    method FlushDecodeState() returns (r: Result<()>)
      requires Valid()
      modifies this
      ensures r.Ok? <==> FlushSpec(old(Snap())).Ok?
      ensures r.Ok? ==> Snap() == FlushSpec(old(Snap())).value && Valid()
      ensures r.Err? ==> r.error == FlushSpec(old(Snap())).error
    {
      r := FlushBufferedLines();
      if r.Ok? {
        current := false;
      }
    }
  }
}
