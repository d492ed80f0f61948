/**
 The STF commands: what each one does to the decode state, the command
 lists, and the name table built from them.
 */
module STFCommands {
  import opened Wrappers
  import opened Json
  import opened Strings
  import opened Content
  import opened Messages
  import opened STFArgs
  import opened STFState

  // ---------------------------------------------------------------------
  // Arguments

  /** An optional string argument (`"string?"`): absent, or a string. */
  function OptStringArg(args: map<string, Value>, key: string): (r: Result<Option<string>>)
    ensures r.Ok? <==> key !in args || args[key].Str?
    ensures r.Ok? ==> r.value == (if key in args then Some(args[key].s) else None)
    ensures r.Err? ==> r.error == ValidationError(key)
  {
    if key !in args then Ok(None)
    else if args[key].Str? then Ok(Some(args[key].s))
    else Err(ValidationError(key))
  }

  /** `{...existing, ...parsed}` on two plain objects: every key of either,
      the new value winning. */
  function Merge(existing: map<string, Value>, parsed: map<string, Value>): (r: map<string, Value>)
    ensures r.Keys == existing.Keys + parsed.Keys
    ensures forall k :: k in parsed ==> r[k] == parsed[k]
    ensures forall k :: k in existing && k !in parsed ==> r[k] == existing[k]
  {
    map k | k in existing.Keys + parsed.Keys :: if k in parsed then parsed[k] else existing[k]
  }

  /** The new `extra`: a shallow merge when both sides are plain objects,
      else the parsed value. */
  function MergeExtra(existing: Option<Value>, parsed: Value): Value {
    if existing.Some? && existing.value.Obj? && parsed.Obj? then Obj(Merge(existing.value.fields, parsed.fields))
    else parsed
  }

  /** A role command's arguments (`id?`, `name?`) as message parameters,
      the role being the command's own. */
  function RoleParams(role: string, args: map<string, Value>): (r: Result<NewMessageParams>)
    ensures r.Ok? <==> OptStringArg(args, "id").Ok? && OptStringArg(args, "name").Ok?
    ensures r.Ok? ==> r.value == NewMessageParams(None, Some(role), OptStringArg(args, "id").value, OptStringArg(args, "name").value)
  {
    var id :- OptStringArg(args, "id");
    var name :- OptStringArg(args, "name");
    Ok(NewMessageParams(None, Some(role), id, name))
  }

  /** `message`'s arguments (`id?`, `name?`, `role?`) as message
      parameters. */
  function MessageParams(args: map<string, Value>): (r: Result<NewMessageParams>)
    ensures r.Ok? <==> OptStringArg(args, "id").Ok? && OptStringArg(args, "name").Ok? && OptStringArg(args, "role").Ok?
    ensures r.Ok? ==> r.value == NewMessageParams(None, OptStringArg(args, "role").value, OptStringArg(args, "id").value, OptStringArg(args, "name").value)
  {
    var id :- OptStringArg(args, "id");
    var name :- OptStringArg(args, "name");
    var role :- OptStringArg(args, "role");
    Ok(NewMessageParams(None, role, id, name))
  }

  const ERR_EXTRA_NO_MESSAGE := "'extra' command requires an active message."

  /** `command.execute(state, args)`. */
  function ExecuteSpec(json5: Json5Parse, s: Snapshot, cmd: Command, args: map<string, Value>): Result<Snapshot> {
    match cmd.action
    case RoleAction(role) =>
      var p :- RoleParams(role, args);
      StartSpec(s, p)
    case MessageAction =>
      var p :- MessageParams(args);
      StartSpec(s, p)
    case RawAction =>
      var v :- json5(Join(s.buffered_lines, "\n"));
      var m :- ValidateMessage(v);
      Ok(s.(current := false, messages := s.messages + [m]))
    case ExtraAction =>
      if Current(s).None? then Err(SyntaxError(None, ERR_EXTRA_NO_MESSAGE))
      else
        var v :- json5(Join(s.buffered_lines, "\n"));
        var m := Current(s).value;
        Ok(SetCurrent(s, m.(extra := Some(MergeExtra(m.extra, v)))))
    case FlushAction => FlushSpec(s)
  }

  /** A role command starts a message with its own role, whatever `role`
      the arguments give, and reads only `id` and `name` from them. */
  lemma RoleCommandRole(json5: Json5Parse, s: Snapshot, cmd: Command, args: map<string, Value>)
    requires cmd.action.RoleAction?
    ensures var r := ExecuteSpec(json5, s, cmd, args);
      && r == ExecuteSpec(json5, s, cmd, map k | k in args && (k == "id" || k == "name") :: args[k])
      && (r.Ok? <==> OptStringArg(args, "id").Ok? && OptStringArg(args, "name").Ok?)
      && (r.Ok? ==> Current(r.value) == Some(FreshMessage(cmd.action.role,
                                                          OptStringArg(args, "id").value,
                                                          OptStringArg(args, "name").value)))
  {
    var kept := map k | k in args && (k == "id" || k == "name") :: args[k];
    assert OptStringArg(kept, "id") == OptStringArg(args, "id");
    assert OptStringArg(kept, "name") == OptStringArg(args, "name");
  }

  /** `message` takes its role from the arguments, else from the current
      message, and fails when there is neither. */
  lemma MessageCommandRole(json5: Json5Parse, s: Snapshot, cmd: Command, args: map<string, Value>)
    requires cmd.action.MessageAction?
    requires OptStringArg(args, "id").Ok? && OptStringArg(args, "name").Ok? && OptStringArg(args, "role").Ok?
    ensures var r := ExecuteSpec(json5, s, cmd, args);
      && (r.Ok? <==> "role" in args || Current(s).Some?)
      && (r.Ok? ==> Current(r.value).value.role == if "role" in args then args["role"].s else Current(s).value.role)
  {
  }

  /** `extra` merges into the current message's `extra` and changes nothing
      else. */
  lemma ExtraMerges(json5: Json5Parse, s: Snapshot, cmd: Command, args: map<string, Value>)
    requires cmd.action.ExtraAction? && Current(s).Some?
    requires json5(Join(s.buffered_lines, "\n")).Ok?
    ensures var r := ExecuteSpec(json5, s, cmd, args);
      var v := json5(Join(s.buffered_lines, "\n")).value;
      var old_extra := Current(s).value.extra;
      && r.Ok?
      && Current(r.value).value == Current(s).value.(extra := Current(r.value).value.extra)
      && (old_extra.Some? && old_extra.value.Obj? && v.Obj? ==>
            Current(r.value).value.extra.value.Obj?
            && Current(r.value).value.extra.value.fields.Keys == old_extra.value.fields.Keys + v.fields.Keys
            && forall k :: k in v.fields ==> Current(r.value).value.extra.value.fields[k] == v.fields[k])
      && (!(old_extra.Some? && old_extra.value.Obj? && v.Obj?) ==> Current(r.value).value.extra == Some(v))
  {
  }

  /** `raw` appends the message its buffer holds, and no message is current
      afterwards. */
  lemma RawAppends(json5: Json5Parse, s: Snapshot, cmd: Command, args: map<string, Value>, m: Message)
    requires cmd.action.RawAction?
    requires json5(Join(s.buffered_lines, "\n")) == Ok(MessageToValue(m))
    ensures ExecuteSpec(json5, s, cmd, args) == Ok(s.(current := false, messages := s.messages + [m]))
  {
    MessageRoundTrip(m);
  }

  /** `command.execute(state, args)` on the state object. */
  method Execute(json5: Json5Parse, st: DecodeState, cmd: Command, args: map<string, Value>) returns (r: Result<()>)
    requires st.Valid()
    modifies st
    ensures r.Ok? <==> ExecuteSpec(json5, old(st.Snap()), cmd, args).Ok?
    ensures r.Ok? ==> st.Snap() == ExecuteSpec(json5, old(st.Snap()), cmd, args).value && st.Valid()
    ensures r.Err? ==> r.error == ExecuteSpec(json5, old(st.Snap()), cmd, args).error
  {
    match cmd.action {
      case RoleAction(role) =>
        r := ExecuteRole(st, role, args);
      case MessageAction =>
        r := ExecuteMessage(st, args);
      case RawAction =>
        st.current := false;
        var parsed := json5(Join(st.buffered_lines, "\n"));
        if parsed.Err? {
          return Err(parsed.error);
        }
        var m := ValidateMessage(parsed.value);
        if m.Err? {
          return Err(m.error);
        }
        st.messages := st.messages + [m.value];
        return Ok(());
      case ExtraAction =>
        if !st.current {
          return Err(SyntaxError(None, ERR_EXTRA_NO_MESSAGE));
        }
        var parsed := json5(Join(st.buffered_lines, "\n"));
        if parsed.Err? {
          return Err(parsed.error);
        }
        var m := st.messages[|st.messages| - 1];
        st.messages := st.messages[..|st.messages| - 1] + [m.(extra := Some(MergeExtra(m.extra, parsed.value)))];
        return Ok(());
      case FlushAction =>
        r := st.FlushDecodeState();
    }
  }

  /** A role command's `execute`. */
  method ExecuteRole(st: DecodeState, role: string, args: map<string, Value>) returns (r: Result<()>)
    requires st.Valid()
    modifies st
    ensures var spec := (var p :- RoleParams(role, args); StartSpec(old(st.Snap()), p));
      && (r.Ok? <==> spec.Ok?)
      && (r.Ok? ==> st.Snap() == spec.value && st.Valid())
      && (r.Err? ==> r.error == spec.error)
  {
    var id := OptStringArg(args, "id");
    if id.Err? {
      return Err(id.error);
    }
    var name := OptStringArg(args, "name");
    if name.Err? {
      return Err(name.error);
    }
    // With a role of its own, starting the message cannot fail.
    var m := st.StartNewMessage(NewMessageParams(None, Some(role), id.value, name.value));
    return Ok(());
  }

  /** `message`'s `execute`. */
  method ExecuteMessage(st: DecodeState, args: map<string, Value>) returns (r: Result<()>)
    requires st.Valid()
    modifies st
    ensures var spec := (var p :- MessageParams(args); StartSpec(old(st.Snap()), p));
      && (r.Ok? <==> spec.Ok?)
      && (r.Ok? ==> st.Snap() == spec.value && st.Valid())
      && (r.Err? ==> r.error == spec.error)
  {
    var id := OptStringArg(args, "id");
    if id.Err? {
      return Err(id.error);
    }
    var name := OptStringArg(args, "name");
    if name.Err? {
      return Err(name.error);
    }
    var role := OptStringArg(args, "role");
    if role.Err? {
      return Err(role.error);
    }
    var m := st.StartNewMessage(NewMessageParams(None, role.value, id.value, name.value));
    if m.Err? {
      return Err(m.error);
    }
    return Ok(());
  }

  // ---------------------------------------------------------------------
  // The command lists

  function RoleCommand(name: string, alias_list: seq<string>): Command {
    Command(Niladic, name, alias_list, RoleAction(name))
  }

  const MESSAGE_COMMANDS: seq<Command> := [
    RoleCommand("system", ["sys"]),
    RoleCommand("developer", ["dev"]),
    RoleCommand("user", []),
    RoleCommand("assistant", ["ai"]),
    RoleCommand("tool", []),
    Command(Niladic, "message", ["msg"], MessageAction),
    Command(Polyadic, "raw", [], RawAction)
  ]

  const FIELD_COMMANDS: seq<Command> := [Command(Polyadic, "extra", [], ExtraAction)]

  const MISC_COMMANDS: seq<Command> := [Command(Niladic, "flush", [], FlushAction)]

  /** `COMMANDS` as written: the message commands only. */
  const COMMANDS: seq<Command> := MESSAGE_COMMANDS

  /** Every command the files define. */
  const ALL_COMMANDS: seq<Command> := MESSAGE_COMMANDS + FIELD_COMMANDS + MISC_COMMANDS

  // ---------------------------------------------------------------------
  // COMMAND_LOOKUP

  /** A command's name followed by its aliases. */
  function Names(c: Command): seq<string> {
    [c.name] + c.alias_list
  }

  /** The table entries one command contributes, in registration order. */
  function EntriesOf(c: Command): (r: seq<(string, Command)>)
    ensures |r| == |Names(c)| && forall j :: 0 <= j < |r| ==> r[j] == (Names(c)[j], c)
  {
    seq(|Names(c)|, j requires 0 <= j < |Names(c)| => (Names(c)[j], c))
  }

  function Entries(cs: seq<Command>): seq<(string, Command)> {
    if |cs| == 0 then [] else Entries(cs[..|cs| - 1]) + EntriesOf(cs[|cs| - 1])
  }

  /** The table after registering `es` in order; a name seen before is an
      error. */
  function LookupOf(es: seq<(string, Command)>): Result<map<string, Command>> {
    if |es| == 0 then Ok(map[]) else AddEntry(LookupOf(es[..|es| - 1]), es[|es| - 1])
  }

  /** The error a repeated name raises. */
  function DuplicateName(name: string): Error {
    PlainError("Duplicate STF command name: '" + name + "'.")
  }

  /** Registering one name: an error once a name repeats, and errors stay. */
  function AddEntry(prev: Result<map<string, Command>>, e: (string, Command)): Result<map<string, Command>> {
    if prev.Err? then prev
    else if e.0 in prev.value then Err(DuplicateName(e.0))
    else Ok(prev.value[e.0 := e.1])
  }

  /** No name is registered twice. */
  predicate DistinctNames(es: seq<(string, Command)>) {
    forall a, b :: 0 <= a < b < |es| ==> es[a].0 != es[b].0
  }

  /** The table builds exactly when no name repeats. */
  lemma {:induction false} LookupOfOk(es: seq<(string, Command)>)
    ensures LookupOf(es).Ok? <==> DistinctNames(es)
  {
    if |es| > 0 {
      var init := es[..|es| - 1];
      var last := es[|es| - 1];
      assert forall k :: 0 <= k < |init| ==> init[k] == es[k];
      LookupOfOk(init);
      var prev := LookupOf(init);
      if prev.Ok? {
        LookupOfContents(init);
        if last.0 in prev.value {
          var k :| 0 <= k < |init| && init[k].0 == last.0;
          assert es[k].0 == es[|es| - 1].0;
        } else {
          assert DistinctNames(es);
        }
      } else {
      }
    }
  }

  /** A table that builds maps every registered name to its command and
      holds nothing else. */
  lemma {:induction false} LookupOfContents(es: seq<(string, Command)>)
    requires LookupOf(es).Ok?
    ensures LookupOf(es).value.Keys == (set k | 0 <= k < |es| :: es[k].0)
    ensures forall k :: 0 <= k < |es| ==> LookupOf(es).value[es[k].0] == es[k].1
  {
    if |es| > 0 {
      var init := es[..|es| - 1];
      var last := es[|es| - 1];
      assert forall k :: 0 <= k < |init| ==> init[k] == es[k];
      LookupOfContents(init);
      assert (set k | 0 <= k < |es| :: es[k].0) == (set k | 0 <= k < |init| :: init[k].0) + {last.0};
    }
  }

  /** `COMMAND_LOOKUP` as the module writes it: the function builds the
      table but returns nothing, so the constant is `undefined`. */
  function CommandLookupAsWritten(): (r: Option<map<string, Command>>)
    ensures r.None?
  {
    None
  }

  /** The table's construction, with its duplicate checks. */
  method BuildLookup(cs: seq<Command>) returns (r: Result<map<string, Command>>)
    ensures r == LookupOf(Entries(cs))
  {
    var lookup: map<string, Command> := map[];
    for i := 0 to |cs|
      invariant LookupOf(Entries(cs[..i])) == Ok(lookup)
    {
      assert cs[..i + 1][..i] == cs[..i];
      var next := Register(lookup, Entries(cs[..i]), cs[i]);
      if next.Err? {
        LookupErrTail(cs, i + 1);
        return next;
      }
      lookup := next.value;
    }
    assert cs[..|cs|] == cs;
    return Ok(lookup);
  }

  /** Registers one command's name, then its aliases. */
  method Register(lookup: map<string, Command>, ghost prefix: seq<(string, Command)>, command: Command)
    returns (r: Result<map<string, Command>>)
    requires LookupOf(prefix) == Ok(lookup)
    ensures r == LookupOf(prefix + EntriesOf(command))
  {
    var es := EntriesOf(command);
    assert prefix + es[..0] == prefix;
    RegisterStep(prefix, es, 0, lookup);
    if command.name in lookup {
      return Err(DuplicateName(command.name));
    }
    var table := lookup[command.name := command];
    for j := 0 to |command.alias_list|
      invariant LookupOf(prefix + es[..j + 1]) == Ok(table)
    {
      var alias := command.alias_list[j];
      assert es[j + 1] == (alias, command);
      RegisterStep(prefix, es, j + 1, table);
      if alias in table {
        return Err(DuplicateName(alias));
      }
      table := table[alias := command];
    }
    assert es[..|command.alias_list| + 1] == es;
    return Ok(table);
  }

  /** Registering entry `j`: a clash fails the whole list, else the entry
      is added. */
  lemma RegisterStep(prefix: seq<(string, Command)>, es: seq<(string, Command)>, j: nat, table: map<string, Command>)
    requires j < |es| && LookupOf(prefix + es[..j]) == Ok(table)
    ensures es[j].0 in table ==> LookupOf(prefix + es) == Err(DuplicateName(es[j].0))
    ensures es[j].0 !in table ==> LookupOf(prefix + es[..j + 1]) == Ok(table[es[j].0 := es[j].1])
  {
    if es[j].0 in table {
      LookupPrefix(prefix, es, j + 1);
    } else {
      LookupStep(prefix, es, j);
    }
  }

  /** One entry further. */
  lemma LookupStep(prefix: seq<(string, Command)>, es: seq<(string, Command)>, j: nat)
    requires j < |es|
    ensures LookupOf(prefix + es[..j + 1]) == AddEntry(LookupOf(prefix + es[..j]), es[j])
  {
    var all := prefix + es[..j + 1];
    assert all[..|all| - 1] == prefix + es[..j];
    assert all[|all| - 1] == es[j];
  }

  /** Once an entry fails, the whole list does. */
  lemma {:induction false} LookupPrefix(prefix: seq<(string, Command)>, es: seq<(string, Command)>, j: nat)
    requires 0 < j <= |es| && LookupOf(prefix + es[..j - 1]).Ok? && es[j - 1].0 in LookupOf(prefix + es[..j - 1]).value
    ensures LookupOf(prefix + es) == Err(DuplicateName(es[j - 1].0))
    decreases |es| - j
  {
    LookupStep(prefix, es, j - 1);
    LookupErrStays(prefix + es[..j], es[j..]);
    assert prefix + es[..j] + es[j..] == prefix + es;
  }

  /** Once the commands before `i` fail, all of them do. */
  lemma {:induction false} LookupErrTail(cs: seq<Command>, i: nat)
    requires i <= |cs| && LookupOf(Entries(cs[..i])).Err?
    ensures LookupOf(Entries(cs)) == LookupOf(Entries(cs[..i]))
    decreases |cs| - i
  {
    if i == |cs| {
      assert cs[..i] == cs;
    } else {
      assert cs[..i + 1][..i] == cs[..i];
      LookupErrStays(Entries(cs[..i]), EntriesOf(cs[i]));
      LookupErrTail(cs, i + 1);
    }
  }

  lemma {:induction false} LookupErrStays(a: seq<(string, Command)>, b: seq<(string, Command)>)
    requires LookupOf(a).Err?
    ensures LookupOf(a + b) == LookupOf(a)
    decreases |b|
  {
    if |b| > 0 {
      var init := a + b[..|b| - 1];
      LookupErrStays(a, b[..|b| - 1]);
      assert (a + b)[..|a + b| - 1] == init;
    } else {
      assert a + b == a;
    }
  }

  // ---------------------------------------------------------------------
  // The tables the lists give

  lemma {:induction false} EntriesAppend(a: seq<Command>, b: seq<Command>)
    ensures Entries(a + b) == Entries(a) + Entries(b)
    decreases |b|
  {
    if |b| == 0 {
      assert a + b == a;
    } else {
      assert (a + b)[..|a + b| - 1] == a + b[..|b| - 1];
      EntriesAppend(a, b[..|b| - 1]);
    }
  }

  lemma EntriesOne(c: Command)
    ensures Entries([c]) == EntriesOf(c)
  {
    assert [c][..0] == [];
  }

  /** The names every command defines, in registration order. */
  const ALL_NAMES: seq<string> :=
    ["system", "sys", "developer", "dev", "user", "assistant", "ai", "tool", "message", "msg", "raw", "extra", "flush"]

  /** The command each of those names belongs to. */
  const OWNERS: seq<Command> := [
    MESSAGE_COMMANDS[0], MESSAGE_COMMANDS[0], MESSAGE_COMMANDS[1], MESSAGE_COMMANDS[1],
    MESSAGE_COMMANDS[2], MESSAGE_COMMANDS[3], MESSAGE_COMMANDS[3], MESSAGE_COMMANDS[4],
    MESSAGE_COMMANDS[5], MESSAGE_COMMANDS[5], MESSAGE_COMMANDS[6], FIELD_COMMANDS[0], MISC_COMMANDS[0]]

  /** The message commands' entries, command by command. */
  lemma {:induction false} MessageEntries()
    ensures var mc := MESSAGE_COMMANDS;
      Entries(mc) == EntriesOf(mc[0]) + EntriesOf(mc[1]) + EntriesOf(mc[2]) + EntriesOf(mc[3])
                     + EntriesOf(mc[4]) + EntriesOf(mc[5]) + EntriesOf(mc[6])
  {
    var mc := MESSAGE_COMMANDS;
    assert mc == [mc[0]] + [mc[1]] + [mc[2]] + [mc[3]] + [mc[4]] + [mc[5]] + [mc[6]];
    EntriesAppend([mc[0]] + [mc[1]] + [mc[2]] + [mc[3]] + [mc[4]] + [mc[5]], [mc[6]]);
    EntriesAppend([mc[0]] + [mc[1]] + [mc[2]] + [mc[3]] + [mc[4]], [mc[5]]);
    EntriesAppend([mc[0]] + [mc[1]] + [mc[2]] + [mc[3]], [mc[4]]);
    EntriesAppend([mc[0]] + [mc[1]] + [mc[2]], [mc[3]]);
    EntriesAppend([mc[0]] + [mc[1]], [mc[2]]);
    EntriesAppend([mc[0]], [mc[1]]);
    EntriesOne(mc[0]);
    EntriesOne(mc[1]);
    EntriesOne(mc[2]);
    EntriesOne(mc[3]);
    EntriesOne(mc[4]);
    EntriesOne(mc[5]);
    EntriesOne(mc[6]);
  }

  lemma {:induction false} AllEntries()
    ensures |Entries(ALL_COMMANDS)| == |ALL_NAMES| == |OWNERS|
    ensures forall k :: 0 <= k < |ALL_NAMES| ==> Entries(ALL_COMMANDS)[k] == (ALL_NAMES[k], OWNERS[k])
    ensures Entries(MESSAGE_COMMANDS) == Entries(ALL_COMMANDS)[..11]
  {
    MessageEntries();
    EntriesAppend(MESSAGE_COMMANDS, FIELD_COMMANDS);
    EntriesAppend(MESSAGE_COMMANDS + FIELD_COMMANDS, MISC_COMMANDS);
    EntriesOne(FIELD_COMMANDS[0]);
    EntriesOne(MISC_COMMANDS[0]);
    var es := Entries(ALL_COMMANDS);
    assert Entries(MESSAGE_COMMANDS) == es[..11];
  }

  /** The thirteen names differ from one another. */
  lemma NamesDistinct()
    ensures forall a, b :: 0 <= a < b < |ALL_NAMES| ==> ALL_NAMES[a] != ALL_NAMES[b]
  {
  }

  /** No name is defined twice. */
  lemma AllNamesDistinct()
    ensures DistinctNames(Entries(ALL_COMMANDS))
  {
    AllEntries();
    NamesDistinct();
  }

  /** The table builds and maps each name to its command. */
  lemma AllTableOk()
    ensures LookupOf(Entries(ALL_COMMANDS)).Ok?
    ensures forall k :: 0 <= k < |ALL_NAMES| ==>
      ALL_NAMES[k] in LookupOf(Entries(ALL_COMMANDS)).value && LookupOf(Entries(ALL_COMMANDS)).value[ALL_NAMES[k]] == OWNERS[k]
  {
    AllEntries();
    AllNamesDistinct();
    var es := Entries(ALL_COMMANDS);
    LookupOfOk(es);
    LookupOfContents(es);
    assert forall k :: 0 <= k < |ALL_NAMES| ==> es[k].0 == ALL_NAMES[k] && es[k].1 == OWNERS[k];
  }

  /** Every command registers without a clash, and each name, `flush` and
      `extra` among them, finds its command. */
  lemma AllCommandsTable()
    ensures LookupOf(Entries(ALL_COMMANDS)).Ok?
    ensures LookupOf(Entries(ALL_COMMANDS)).value.Keys == set k | 0 <= k < |ALL_NAMES| :: ALL_NAMES[k]
    ensures forall k :: 0 <= k < |ALL_NAMES| ==> LookupOf(Entries(ALL_COMMANDS)).value[ALL_NAMES[k]] == OWNERS[k]
    ensures "ai" in LookupOf(Entries(ALL_COMMANDS)).value && LookupOf(Entries(ALL_COMMANDS)).value["ai"] == RoleCommand("assistant", ["ai"])
    ensures "extra" in LookupOf(Entries(ALL_COMMANDS)).value && LookupOf(Entries(ALL_COMMANDS)).value["extra"] == FIELD_COMMANDS[0]
    ensures "flush" in LookupOf(Entries(ALL_COMMANDS)).value && LookupOf(Entries(ALL_COMMANDS)).value["flush"] == MISC_COMMANDS[0]
  {
    AllTableOk();
    AllEntries();
    var es := Entries(ALL_COMMANDS);
    LookupOfContents(es);
    assert (set k | 0 <= k < |es| :: es[k].0) == set k | 0 <= k < |ALL_NAMES| :: ALL_NAMES[k];
    assert ALL_NAMES[6] == "ai" && ALL_NAMES[11] == "extra" && ALL_NAMES[12] == "flush";
  }

  /** A built table holds a name exactly when some entry registers it. */
  lemma LookupKeys(es: seq<(string, Command)>, name: string)
    requires LookupOf(es).Ok?
    ensures name in LookupOf(es).value <==> exists k :: 0 <= k < |es| && es[k].0 == name
  {
    LookupOfContents(es);
  }

  /** With `COMMANDS` as written, `extra` and `flush` are unknown names. */
  lemma CommandsOmitsFieldAndMisc()
    ensures LookupOf(Entries(COMMANDS)).Ok?
    ensures "extra" !in LookupOf(Entries(COMMANDS)).value && "flush" !in LookupOf(Entries(COMMANDS)).value
  {
    AllEntries();
    AllNamesDistinct();
    var all := Entries(ALL_COMMANDS);
    var es := Entries(COMMANDS);
    assert es == all[..11];
    assert DistinctNames(es);
    LookupOfOk(es);
    LookupKeys(es, "extra");
    LookupKeys(es, "flush");
    assert all[11].0 == "extra" && all[12].0 == "flush";
    forall k | 0 <= k < 11
      ensures es[k].0 != "extra" && es[k].0 != "flush"
    {
      assert es[k] == all[k];
    }
  }
}
