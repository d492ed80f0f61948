/**
 The streaming delta engine: a step-stream state that accumulates message
 deltas into one message and reports what happened as a sequence of events.

 The generators of the library become methods that return the sequence of
 events they would yield. Each method is tied to a specification function
 on a snapshot of the state; the properties of the engine are lemmas about
 those functions.
 */
module StreamState {
  import opened Wrappers
  import opened Strings
  import opened Content
  import opened Messages
  import opened Sorting

  // ---------------------------------------------------------------------------
  // Deltas and events

  /** An incremental tool call: fragments for the call at `index`. */
  datatype ToolCallDelta = ToolCallDelta(
    index: int,
    id: Option<string>,
    name: Option<string>,
    arguments: Option<string>)

  /** The fields of a message delta the engine reads. */
  datatype MessageDelta = MessageDelta(
    role: Option<string>,
    content: Option<MessageContent>,
    reasoning: Option<MessageContent>,
    refusal: Option<MessageContent>,
    tool_calls: Option<seq<ToolCallDelta>>)

  function RoleDelta(role: string): MessageDelta {
    MessageDelta(Some(role), None, None, None, None)
  }

  function ContentOnlyDelta(c: MessageContent): MessageDelta {
    MessageDelta(None, Some(c), None, None, None)
  }

  function ReasoningOnlyDelta(c: MessageContent): MessageDelta {
    MessageDelta(None, None, Some(c), None, None)
  }

  function ToolCallsDelta(tcs: seq<ToolCallDelta>): MessageDelta {
    MessageDelta(None, None, None, None, Some(tcs))
  }

  datatype StreamMetadata = StreamMetadata(id: Option<string>, model: Option<string>)

  /** The step-stream events. */
  datatype StreamEvent =
    | StreamStart(metadata: Option<StreamMetadata>)
    | RoleSet(role: string)
    | ContentDelta(delta: MessageContent)
    | ReasoningDelta(delta: MessageContent)
    | RefusalDelta(delta: MessageContent)
    | ToolCallStart(index: int, name: string, id: Option<string>)
    | ToolCallArgs(index: int, fragment: string)
    | ToolCallEnd(index: int, toolCall: ToolCall)
    | StreamEnd(finishReason: Option<string>)

  /** A truthy optional content: a non-empty string, or any part list. */
  predicate ContentTruthy(c: Option<MessageContent>) {
    c.Some? && (c.value.Parts? || c.value.s != "")
  }

  // ---------------------------------------------------------------------------
  // Selecting events of one kind

  datatype Selector = Roles | Contents | Reasonings | Refusals | Starts(k: int) | Args(k: int) | Ends

  predicate Picks(sel: Selector, e: StreamEvent) {
    match sel
    case Roles => e.RoleSet?
    case Contents => e.ContentDelta?
    case Reasonings => e.ReasoningDelta?
    case Refusals => e.RefusalDelta?
    case Starts(k) => e.ToolCallStart? && e.index == k
    case Args(k) => e.ToolCallArgs? && e.index == k
    case Ends => e.ToolCallEnd?
  }

  /** The events of `es` that `sel` picks, in order. */
  function Select(es: seq<StreamEvent>, sel: Selector): seq<StreamEvent> {
    if |es| == 0 then []
    else Select(es[..|es| - 1], sel) + (if Picks(sel, es[|es| - 1]) then [es[|es| - 1]] else [])
  }

  lemma {:induction false} SelectAppend(a: seq<StreamEvent>, b: seq<StreamEvent>, sel: Selector)
    ensures Select(a + b, sel) == Select(a, sel) + Select(b, sel)
  {
    if |b| == 0 {
      assert a + b == a;
    } else {
      var b' := b[..|b| - 1];
      assert (a + b)[..|a + b| - 1] == a + b';
      SelectAppend(a, b', sel);
    }
  }

  lemma {:induction false} SelectNone(es: seq<StreamEvent>, sel: Selector)
    requires forall i :: 0 <= i < |es| ==> !Picks(sel, es[i])
    ensures Select(es, sel) == []
  {
    if |es| > 0 {
      SelectNone(es[..|es| - 1], sel);
    }
  }

  lemma SelectOne(e: StreamEvent, sel: Selector)
    ensures Select([e], sel) == if Picks(sel, e) then [e] else []
  {
    assert [e][..0] == [];
  }

  // ---------------------------------------------------------------------------
  // The tool-call table

  /** A fresh entry, as materialised on first touch. */
  const EMPTY_TOOL_CALL: ToolCall := ToolCall(Some(""), None, "", "", None)

  /** The accumulated tool calls keyed by index, the indices in the order
      they were first seen (the iteration order of the `Map`), and the
      indices whose start was announced. */
  datatype ToolCallTable = ToolCallTable(calls: map<int, ToolCall>, order: seq<int>, started: set<int>)

  /** When a start may be announced: a non-empty name, and with `requireId`
      also a non-empty id. */
  predicate Ready(tc: ToolCall, requireId: bool) {
    tc.name != "" && (requireId ==> NonEmpty(tc.id))
  }

  predicate Distinct(xs: seq<int>) {
    forall i, j :: 0 <= i < j < |xs| ==> xs[i] != xs[j]
  }

  /** The order lists each key once, and an index is started exactly when
      its entry is ready. */
  ghost predicate TableValid(t: ToolCallTable, requireId: bool) {
    Distinct(t.order)
    && (forall k :: k in t.calls <==> k in t.order)
    && (forall k :: k in t.started <==> k in t.calls && Ready(t.calls[k], requireId))
  }

  const EMPTY_TABLE: ToolCallTable := ToolCallTable(map[], [], {})

  /** One delta applied to an entry: a non-empty id overwrites, non-empty name
      and argument fragments are appended. */
  function Accumulate(existing: ToolCall, tc: ToolCallDelta): (r: ToolCall)
    ensures r.id == (if NonEmpty(tc.id) then tc.id else existing.id)
    ensures r.name == existing.name + (if NonEmpty(tc.name) then tc.name.value else "")
    ensures r.arguments == existing.arguments + (if NonEmpty(tc.arguments) then tc.arguments.value else "")
    ensures r.call_id == existing.call_id && r.extra == existing.extra
  {
    var e1 := if NonEmpty(tc.id) then existing.(id := tc.id) else existing;
    var e2 := if NonEmpty(tc.name) then e1.(name := e1.name + tc.name.value) else e1;
    if NonEmpty(tc.arguments) then e2.(arguments := e2.arguments + tc.arguments.value) else e2
  }

  /** One tool-call delta: the entry is materialised, updated, announced the
      first time it is ready, and its argument fragment is reported. */
  function TableStep(t: ToolCallTable, tc: ToolCallDelta, requireId: bool): (ToolCallTable, seq<StreamEvent>) {
    var ind := tc.index;
    var updated := Updated(t, tc);
    (ToolCallTable(
       t.calls[ind := updated],
       if ind in t.calls then t.order else t.order + [ind],
       if Fires(t, tc, requireId) then t.started + {ind} else t.started),
     StartEvents(t, tc, requireId) + FragmentEvents(tc))
  }

  /** The entry for the delta's index after the delta. */
  function Updated(t: ToolCallTable, tc: ToolCallDelta): ToolCall {
    Accumulate(if tc.index in t.calls then t.calls[tc.index] else EMPTY_TOOL_CALL, tc)
  }

  predicate Fires(t: ToolCallTable, tc: ToolCallDelta, requireId: bool) {
    tc.index !in t.started && Ready(Updated(t, tc), requireId)
  }

  function StartEvents(t: ToolCallTable, tc: ToolCallDelta, requireId: bool): seq<StreamEvent> {
    if Fires(t, tc, requireId) then [ToolCallStart(tc.index, Updated(t, tc).name, Updated(t, tc).id)] else []
  }

  function FragmentEvents(tc: ToolCallDelta): seq<StreamEvent> {
    if NonEmpty(tc.arguments) then [ToolCallArgs(tc.index, tc.arguments.value)] else []
  }

  /** The argument fragment of a delta for index `k`, as a list of at most one. */
  function Fragment(tc: ToolCallDelta, k: int): seq<string> {
    if tc.index == k && NonEmpty(tc.arguments) then [tc.arguments.value] else []
  }

  /** The deltas applied one after another. */
  function TableFold(t: ToolCallTable, tcs: seq<ToolCallDelta>, requireId: bool): (ToolCallTable, seq<StreamEvent>) {
    if |tcs| == 0 then (t, [])
    else
      var (t1, e1) := TableFold(t, tcs[..|tcs| - 1], requireId);
      var (t2, e2) := TableStep(t1, tcs[|tcs| - 1], requireId);
      (t2, e1 + e2)
  }

  lemma TableStepValid(t: ToolCallTable, tc: ToolCallDelta, requireId: bool)
    requires TableValid(t, requireId)
    ensures TableValid(TableStep(t, tc, requireId).0, requireId)
  {
    var t2 := TableStep(t, tc, requireId).0;
    if tc.index !in t.calls {
      assert tc.index !in t.order;
      forall i, j | 0 <= i < j < |t2.order| ensures t2.order[i] != t2.order[j] {
        if j == |t.order| {
          assert t.order[i] in t.order;
        }
      }
    }
  }

  /** The table stays well formed over any sequence of deltas. */
  lemma {:induction false} TableFoldValid(t: ToolCallTable, tcs: seq<ToolCallDelta>, requireId: bool)
    requires TableValid(t, requireId)
    ensures TableValid(TableFold(t, tcs, requireId).0, requireId)
  {
    if |tcs| > 0 {
      TableFoldValid(t, tcs[..|tcs| - 1], requireId);
      TableStepValid(TableFold(t, tcs[..|tcs| - 1], requireId).0, tcs[|tcs| - 1], requireId);
    }
  }

  /** Every event of the table is a start or an argument fragment. */
  lemma {:induction false} TableFoldEvents(t: ToolCallTable, tcs: seq<ToolCallDelta>, requireId: bool)
    ensures forall i :: 0 <= i < |TableFold(t, tcs, requireId).1| ==>
      TableFold(t, tcs, requireId).1[i].ToolCallStart? || TableFold(t, tcs, requireId).1[i].ToolCallArgs?
  {
    if |tcs| > 0 {
      var prev := TableFold(t, tcs[..|tcs| - 1], requireId);
      var last := TableStep(prev.0, tcs[|tcs| - 1], requireId);
      TableFoldEvents(t, tcs[..|tcs| - 1], requireId);
      ToolEventsAppend(prev.1, last.1);
    }
  }

  lemma ToolEventsAppend(a: seq<StreamEvent>, b: seq<StreamEvent>)
    requires forall i :: 0 <= i < |a| ==> a[i].ToolCallStart? || a[i].ToolCallArgs?
    requires forall i :: 0 <= i < |b| ==> b[i].ToolCallStart? || b[i].ToolCallArgs?
    ensures forall i :: 0 <= i < |a + b| ==> (a + b)[i].ToolCallStart? || (a + b)[i].ToolCallArgs?
  {
  }

  /** A start is announced for `k` in one step exactly when `k` becomes
      started in it; started indices stay started. */
  lemma TableStepStarts(t: ToolCallTable, tc: ToolCallDelta, requireId: bool, k: int)
    ensures var (t2, es) := TableStep(t, tc, requireId);
      t.started <= t2.started
      && |Select(es, Starts(k))| == (if k in t2.started && k !in t.started then 1 else 0)
  {
    var st := StartEvents(t, tc, requireId);
    var fr := FragmentEvents(tc);
    SelectAppend(st, fr, Starts(k));
    SelectNone(fr, Starts(k));
    if |st| > 0 {
      SelectOne(st[0], Starts(k));
    } else {
      SelectNone(st, Starts(k));
    }
  }

  /** Over any sequence of deltas, `tool_call.start` is announced at most once
      per index: once if the index became started during the run, otherwise
      never. */
  lemma {:induction false} TableFoldStarts(t: ToolCallTable, tcs: seq<ToolCallDelta>, requireId: bool, k: int)
    ensures var (t2, es) := TableFold(t, tcs, requireId);
      t.started <= t2.started
      && |Select(es, Starts(k))| == (if k in t2.started && k !in t.started then 1 else 0)
  {
    if |tcs| > 0 {
      var (t1, e1) := TableFold(t, tcs[..|tcs| - 1], requireId);
      var (t2, e2) := TableStep(t1, tcs[|tcs| - 1], requireId);
      TableFoldStarts(t, tcs[..|tcs| - 1], requireId, k);
      TableStepStarts(t1, tcs[|tcs| - 1], requireId, k);
      SelectAppend(e1, e2, Starts(k));
    }
  }

  /** The non-empty argument fragments the deltas carry for index `k`. */
  function ArgFragments(tcs: seq<ToolCallDelta>, k: int): seq<string> {
    if |tcs| == 0 then []
    else
      var tc := tcs[|tcs| - 1];
      ArgFragments(tcs[..|tcs| - 1], k) + Fragment(tc, k)
  }

  /** The fragments as the `tool_call.delta` events that report them. */
  function ArgEvents(k: int, frags: seq<string>): seq<StreamEvent> {
    seq(|frags|, i requires 0 <= i < |frags| => ToolCallArgs(k, frags[i]))
  }

  /** The arguments accumulated so far for `k`, `""` before the entry exists. */
  function ArgumentsOf(t: ToolCallTable, k: int): string {
    if k in t.calls then t.calls[k].arguments else ""
  }

  lemma TableStepArguments(t: ToolCallTable, tc: ToolCallDelta, requireId: bool, k: int)
    ensures ArgumentsOf(TableStep(t, tc, requireId).0, k) == ArgumentsOf(t, k) + Concat(Fragment(tc, k))
  {
    var frag := Fragment(tc, k);
    if |frag| == 1 {
      assert Concat(frag) == frag[0];
    } else {
      assert frag == [];
      assert Concat(frag) == "";
    }
  }

  lemma TableStepArgEvents(t: ToolCallTable, tc: ToolCallDelta, requireId: bool, k: int)
    ensures Select(TableStep(t, tc, requireId).1, Args(k)) == ArgEvents(k, Fragment(tc, k))
  {
    var st := StartEvents(t, tc, requireId);
    var fr := FragmentEvents(tc);
    assert TableStep(t, tc, requireId).1 == st + fr;
    SelectAppend(st, fr, Args(k));
    assert Select(st, Args(k)) == [] by {
      SelectNone(st, Args(k));
    }
    if NonEmpty(tc.arguments) {
      SelectOne(ToolCallArgs(tc.index, tc.arguments.value), Args(k));
      assert ArgEvents(k, Fragment(tc, k)) == (if tc.index == k then [ToolCallArgs(k, tc.arguments.value)] else []);
    } else {
      assert fr == [];
      assert Fragment(tc, k) == [];
    }
  }

  /** The arguments of every tool call are the concatenation of its
      fragments ... */
  lemma {:induction false} TableFoldArguments(t: ToolCallTable, tcs: seq<ToolCallDelta>, requireId: bool, k: int)
    ensures ArgumentsOf(TableFold(t, tcs, requireId).0, k) == ArgumentsOf(t, k) + Concat(ArgFragments(tcs, k))
  {
    if |tcs| == 0 {
      assert ArgumentsOf(t, k) + Concat([]) == ArgumentsOf(t, k);
    } else {
      var init := tcs[..|tcs| - 1];
      var tc := tcs[|tcs| - 1];
      var t1 := TableFold(t, init, requireId).0;
      TableFoldLast(t, tcs, requireId);
      TableFoldArguments(t, init, requireId, k);
      TableStepArguments(t1, tc, requireId, k);
      ConcatSplit(ArgFragments(init, k), Fragment(tc, k));
      StringAssoc(ArgumentsOf(t, k), Concat(ArgFragments(init, k)), Concat(Fragment(tc, k)));
    }
  }

  /** ... and the `tool_call.delta` events carry exactly those fragments, in
      order. */
  lemma {:induction false} TableFoldArgEvents(t: ToolCallTable, tcs: seq<ToolCallDelta>, requireId: bool, k: int)
    ensures Select(TableFold(t, tcs, requireId).1, Args(k)) == ArgEvents(k, ArgFragments(tcs, k))
  {
    if |tcs| > 0 {
      var init := tcs[..|tcs| - 1];
      var tc := tcs[|tcs| - 1];
      var t1 := TableFold(t, init, requireId).0;
      var e1 := TableFold(t, init, requireId).1;
      var e2 := TableStep(t1, tc, requireId).1;
      TableFoldLast(t, tcs, requireId);
      TableFoldArgEvents(t, init, requireId, k);
      TableStepArgEvents(t1, tc, requireId, k);
      SelectAppend(e1, e2, Args(k));
      ArgEventsAppend(k, ArgFragments(init, k), Fragment(tc, k));
    }
  }

  lemma ArgEventsAppend(k: int, f1: seq<string>, f2: seq<string>)
    ensures ArgEvents(k, f1 + f2) == ArgEvents(k, f1) + ArgEvents(k, f2)
  {
  }

  /** The indices not in `seen` in the order the deltas first mention them. */
  function NewIndices(seen: set<int>, tcs: seq<ToolCallDelta>): seq<int> {
    if |tcs| == 0 then []
    else
      var p := NewIndices(seen, tcs[..|tcs| - 1]);
      var k := tcs[|tcs| - 1].index;
      if k in seen || k in p then p else p + [k]
  }

  /** The table's order is the old order followed by the new indices in the
      order they were first seen. */
  lemma {:induction false} TableFoldOrder(t: ToolCallTable, tcs: seq<ToolCallDelta>, requireId: bool)
    requires TableValid(t, requireId)
    ensures TableFold(t, tcs, requireId).0.order == t.order + NewIndices(t.calls.Keys, tcs)
  {
    if |tcs| == 0 {
      assert t.order + [] == t.order;
    } else {
      var init := tcs[..|tcs| - 1];
      var tc := tcs[|tcs| - 1];
      var t1 := TableFold(t, init, requireId).0;
      var p := NewIndices(t.calls.Keys, init);
      assert t1.order == t.order + p by { TableFoldOrder(t, init, requireId); }
      assert TableValid(t1, requireId) by { TableFoldValid(t, init, requireId); }
      assert TableFold(t, tcs, requireId).0 == TableStep(t1, tc, requireId).0;
      assert tc.index in t1.calls <==> tc.index in t.calls.Keys || tc.index in p by {
        assert tc.index in t1.calls <==> tc.index in t1.order;
        assert tc.index in t.order <==> tc.index in t.calls;
      }
      if tc.index !in t1.calls {
        assert (t.order + p) + [tc.index] == t.order + (p + [tc.index]);
      }
    }
  }

  /** Whether some delta mentions index `k`. */
  predicate Mentions(tcs: seq<ToolCallDelta>, k: int) {
    |tcs| > 0 && (Mentions(tcs[..|tcs| - 1], k) || tcs[|tcs| - 1].index == k)
  }

  lemma {:induction false} MentionsIff(tcs: seq<ToolCallDelta>, k: int)
    ensures Mentions(tcs, k) <==> exists i :: 0 <= i < |tcs| && tcs[i].index == k
  {
    if |tcs| > 0 {
      var init := tcs[..|tcs| - 1];
      MentionsIff(init, k);
      if exists i :: 0 <= i < |init| && init[i].index == k {
        var i :| 0 <= i < |init| && init[i].index == k;
        assert tcs[i].index == k;
      }
      if exists i :: 0 <= i < |tcs| && tcs[i].index == k {
        var i :| 0 <= i < |tcs| && tcs[i].index == k;
        if i < |init| {
          assert init[i].index == k;
        }
      }
    }
  }

  /** The keys afterwards are the old keys and every index a delta
      mentions. */
  lemma {:induction false} TableFoldKeys(t: ToolCallTable, tcs: seq<ToolCallDelta>, requireId: bool, k: int)
    ensures k in TableFold(t, tcs, requireId).0.calls <==> k in t.calls || exists i :: 0 <= i < |tcs| && tcs[i].index == k
  {
    TableFoldMentions(t, tcs, requireId, k);
    MentionsIff(tcs, k);
  }

  lemma {:induction false} TableFoldMentions(t: ToolCallTable, tcs: seq<ToolCallDelta>, requireId: bool, k: int)
    ensures k in TableFold(t, tcs, requireId).0.calls <==> k in t.calls || Mentions(tcs, k)
  {
    if |tcs| > 0 {
      TableFoldLast(t, tcs, requireId);
      TableFoldMentions(t, tcs[..|tcs| - 1], requireId, k);
    }
  }

  // ---------------------------------------------------------------------------
  // The whole state

  /** The state of the engine as a value: the message being built and the
      tool-call table. */
  datatype Snapshot = Snapshot(message: Message, table: ToolCallTable)

  /** `createStepStreamState()`. */
  function InitialSnapshot(): (r: Snapshot)
    ensures r.message.role == "" && r.message.content == Plain("")
    ensures r.table.calls == map[] && r.table.order == [] && r.table.started == {}
  {
    Snapshot(NewMessage("", Plain("")), EMPTY_TABLE)
  }

  predicate RoleChanges(m: Message, d: MessageDelta) {
    NonEmpty(d.role) && d.role.value != m.role
  }

  /** `concatContentsTo(x, c)` with one operand: the text grows by the
      operand's text. */
  function Append(x: MessageContent, c: MessageContent): (r: MessageContent)
    ensures MessageContentToText(r) == MessageContentToText(x) + MessageContentToText(c)
  {
    assert [c][..0] == [];
    assert ConcatInto(x, [c]) == ConcatStep(x, c);
    ConcatStepText(x, c);
    ConcatInto(x, [c])
  }

  /** The message after one delta; the tool calls live in the table until the
      state is finalised. */
  function ApplyToMessage(m: Message, d: MessageDelta): Message {
    WithRefusal(WithReasoning(WithContent(WithRole(m, d), d), d), d)
  }

  function WithRole(m: Message, d: MessageDelta): Message {
    if RoleChanges(m, d) then m.(role := d.role.value) else m
  }

  function WithContent(m: Message, d: MessageDelta): Message {
    if ContentTruthy(d.content) then m.(content := Append(m.content, d.content.value)) else m
  }

  function WithReasoning(m: Message, d: MessageDelta): Message {
    if ContentTruthy(d.reasoning) then m.(reasoning := Some(Append(m.reasoning.GetOr(Plain("")), d.reasoning.value))) else m
  }

  function WithRefusal(m: Message, d: MessageDelta): Message {
    if ContentTruthy(d.refusal) then m.(refusal := Some(Append(m.refusal.GetOr(Plain("")), d.refusal.value))) else m
  }

  function RoleEvents(m: Message, d: MessageDelta): seq<StreamEvent> {
    if RoleChanges(m, d) then [RoleSet(d.role.value)] else []
  }

  function ContentEvents(d: MessageDelta): seq<StreamEvent> {
    if ContentTruthy(d.content) then [ContentDelta(d.content.value)] else []
  }

  function ReasoningEvents(d: MessageDelta): seq<StreamEvent> {
    if ContentTruthy(d.reasoning) then [ReasoningDelta(d.reasoning.value)] else []
  }

  /** The refusal event never carries the fragment. */
  function RefusalEvents(d: MessageDelta): seq<StreamEvent> {
    if ContentTruthy(d.refusal) then [RefusalDelta(Plain(""))] else []
  }

  function MessageEvents(m: Message, d: MessageDelta): seq<StreamEvent> {
    RoleEvents(m, d) + ContentEvents(d) + ReasoningEvents(d) + RefusalEvents(d)
  }

  function ApplyToTable(t: ToolCallTable, d: MessageDelta): (ToolCallTable, seq<StreamEvent>) {
    if d.tool_calls.Some? then TableFold(t, d.tool_calls.value, false) else (t, [])
  }

  /** `applyDeltaToStepStreamState`: the new state and the events yielded. */
  function ApplySpec(s: Snapshot, delta: Option<MessageDelta>): (Snapshot, seq<StreamEvent>) {
    if delta.None? then (s, [])
    else
      var tt := ApplyToTable(s.table, delta.value);
      (Snapshot(ApplyToMessage(s.message, delta.value), tt.0), MessageEvents(s.message, delta.value) + tt.1)
  }

  /** A missing delta yields nothing and changes nothing. */
  lemma ApplyNone(s: Snapshot)
    ensures ApplySpec(s, None) == (s, [])
  {
  }

  /** The text of `Some(c)`, `""` for none. */
  function TextOf(c: Option<MessageContent>): string {
    if c.Some? then MessageContentToText(c.value) else ""
  }

  /** What one delta does to the message: the role is set exactly when the
      delta brings a different non-empty one, the content, reasoning and
      refusal texts grow by the fragments' texts, and no other field
      changes. */
  lemma ApplyMessage(s: Snapshot, d: MessageDelta)
    ensures var m := ApplySpec(s, Some(d)).0.message;
      m.role == (if RoleChanges(s.message, d) then d.role.value else s.message.role)
      && MessageContentToText(m.content)
         == MessageContentToText(s.message.content) + (if ContentTruthy(d.content) then TextOf(d.content) else "")
      && TextOf(m.reasoning) == TextOf(s.message.reasoning) + (if ContentTruthy(d.reasoning) then TextOf(d.reasoning) else "")
      && TextOf(m.refusal) == TextOf(s.message.refusal) + (if ContentTruthy(d.refusal) then TextOf(d.refusal) else "")
      && m.(role := s.message.role, content := s.message.content, reasoning := s.message.reasoning, refusal := s.message.refusal)
         == s.message
      && (!ContentTruthy(d.content) ==> m.content == s.message.content)
      && (!ContentTruthy(d.reasoning) ==> m.reasoning == s.message.reasoning)
      && (!ContentTruthy(d.refusal) ==> m.refusal == s.message.refusal)
  {
    var m := ApplyToMessage(s.message, d);
    assert ApplySpec(s, Some(d)).0.message == m;
    if !ContentTruthy(d.content) {
      assert m.content == s.message.content;
    }
    if !ContentTruthy(d.reasoning) {
      assert m.reasoning == s.message.reasoning;
    }
    if !ContentTruthy(d.refusal) {
      assert m.refusal == s.message.refusal;
    }
  }

  lemma SelectSmall(xs: seq<StreamEvent>, sel: Selector)
    requires |xs| <= 1
    ensures Select(xs, sel) == if |xs| == 1 && Picks(sel, xs[0]) then xs else []
  {
    if |xs| == 1 {
      assert xs == [xs[0]];
      SelectOne(xs[0], sel);
    }
  }

  lemma Select4(r: seq<StreamEvent>, c: seq<StreamEvent>, q: seq<StreamEvent>, f: seq<StreamEvent>, sel: Selector)
    ensures Select(r + c + q + f, sel) == Select(r, sel) + Select(c, sel) + Select(q, sel) + Select(f, sel)
  {
    SelectAppend(r + c + q, f, sel);
    SelectAppend(r + c, q, sel);
    SelectAppend(r, c, sel);
  }

  lemma SelectKinds(m: Message, d: MessageDelta, sel: Selector)
    ensures Select(RoleEvents(m, d), sel) == if sel.Roles? then RoleEvents(m, d) else []
    ensures Select(ContentEvents(d), sel) == if sel.Contents? then ContentEvents(d) else []
    ensures Select(ReasoningEvents(d), sel) == if sel.Reasonings? then ReasoningEvents(d) else []
    ensures Select(RefusalEvents(d), sel) == if sel.Refusals? then RefusalEvents(d) else []
  {
    SelectSmall(RoleEvents(m, d), sel);
    SelectSmall(ContentEvents(d), sel);
    SelectSmall(ReasoningEvents(d), sel);
    SelectSmall(RefusalEvents(d), sel);
  }

  /** The message kinds are picked from the message events alone. */
  lemma SelectMessageKind(m: Message, d: MessageDelta, te: seq<StreamEvent>, sel: Selector)
    requires sel.Roles? || sel.Contents? || sel.Reasonings? || sel.Refusals?
    requires forall i :: 0 <= i < |te| ==> te[i].ToolCallStart? || te[i].ToolCallArgs?
    ensures sel.Roles? ==> Select(MessageEvents(m, d) + te, sel) == RoleEvents(m, d)
    ensures sel.Contents? ==> Select(MessageEvents(m, d) + te, sel) == ContentEvents(d)
    ensures sel.Reasonings? ==> Select(MessageEvents(m, d) + te, sel) == ReasoningEvents(d)
    ensures sel.Refusals? ==> Select(MessageEvents(m, d) + te, sel) == RefusalEvents(d)
  {
    var r, c, q, f := RoleEvents(m, d), ContentEvents(d), ReasoningEvents(d), RefusalEvents(d);
    var me := MessageEvents(m, d);
    SelectAppend(me, te, sel);
    SelectNone(te, sel);
    Select4(r, c, q, f, sel);
    SelectKinds(m, d, sel);
  }

  /** The events of one delta, by kind: a role event iff the role changes, one
      content or reasoning event carrying only the fragment, and one refusal
      event carrying `""` whatever the fragment. */
  lemma ApplyEvents(s: Snapshot, d: MessageDelta)
    ensures var es := ApplySpec(s, Some(d)).1;
      Select(es, Roles) == (if RoleChanges(s.message, d) then [RoleSet(d.role.value)] else [])
      && Select(es, Contents) == (if ContentTruthy(d.content) then [ContentDelta(d.content.value)] else [])
      && Select(es, Reasonings) == (if ContentTruthy(d.reasoning) then [ReasoningDelta(d.reasoning.value)] else [])
      && Select(es, Refusals) == (if ContentTruthy(d.refusal) then [RefusalDelta(Plain(""))] else [])
  {
    var te := ApplyToTable(s.table, d).1;
    if d.tool_calls.Some? {
      TableFoldEvents(s.table, d.tool_calls.value, false);
    }
    assert ApplySpec(s, Some(d)).1 == MessageEvents(s.message, d) + te;
    SelectMessageKind(s.message, d, te, Roles);
    SelectMessageKind(s.message, d, te, Contents);
    SelectMessageKind(s.message, d, te, Reasonings);
    SelectMessageKind(s.message, d, te, Refusals);
    assert RoleEvents(s.message, d) == (if RoleChanges(s.message, d) then [RoleSet(d.role.value)] else []);
  }

  /** A delta keeps the table well formed. */
  lemma ApplyValid(s: Snapshot, delta: Option<MessageDelta>)
    requires TableValid(s.table, false)
    ensures TableValid(ApplySpec(s, delta).0.table, false)
  {
    if delta.Some? && delta.value.tool_calls.Some? {
      TableFoldValid(s.table, delta.value.tool_calls.value, false);
    }
  }

  predicate KeysIn(calls: map<int, ToolCall>, ks: seq<int>) {
    forall i :: 0 <= i < |ks| ==> ks[i] in calls
  }

  lemma ValidKeysIn(t: ToolCallTable, requireId: bool)
    requires TableValid(t, requireId)
    ensures KeysIn(t.calls, t.order)
  {
    forall i | 0 <= i < |t.order| ensures t.order[i] in t.calls {
      assert t.order[i] in t.order;
    }
  }

  lemma SortedKeysIn(calls: map<int, ToolCall>, ks: seq<int>)
    requires KeysIn(calls, ks)
    ensures KeysIn(calls, SortInts(ks))
  {
    var sorted := SortInts(ks);
    forall i | 0 <= i < |sorted| ensures sorted[i] in calls {
      SortIntsMembers(ks, sorted[i]);
      var j :| 0 <= j < |ks| && ks[j] == sorted[i];
    }
  }

  /** The tool calls at the given keys. */
  function CallsAt(calls: map<int, ToolCall>, ks: seq<int>): seq<ToolCall>
    requires KeysIn(calls, ks)
  {
    seq(|ks|, i requires 0 <= i < |ks| => calls[ks[i]])
  }

  function EndEvents(t: ToolCallTable): seq<StreamEvent>
    requires KeysIn(t.calls, t.order)
  {
    seq(|t.order|, i requires 0 <= i < |t.order| => ToolCallEnd(t.order[i], t.calls[t.order[i]]))
  }

  /** `finalizeStepStreamState`: one `tool_call.end` per entry in first-seen
      order, `assistant` for an empty role, and the tool calls sorted by
      index when there are any. */
  function FinalizeSpec(s: Snapshot): (Snapshot, seq<StreamEvent>)
    requires KeysIn(s.table.calls, s.table.order)
  {
    var t := s.table;
    var m1 := if s.message.role == "" then s.message.(role := "assistant") else s.message;
    SortedKeysIn(t.calls, t.order);
    var m2 := if |t.calls| > 0 then m1.(tool_calls := Some(CallsAt(t.calls, SortInts(t.order)))) else m1;
    (Snapshot(m2, t), EndEvents(t))
  }

  function RemoveAt(ys: seq<int>, j: nat): seq<int>
    requires j < |ys|
  {
    ys[..j] + ys[j + 1..]
  }

  lemma RemoveAtFacts(calls: map<int, ToolCall>, ys: seq<int>, j: nat)
    requires j < |ys| && KeysIn(calls, ys)
    ensures multiset(RemoveAt(ys, j)) == multiset(ys) - multiset{ys[j]}
    ensures KeysIn(calls, RemoveAt(ys, j))
    ensures multiset(CallsAt(calls, ys)) == multiset(CallsAt(calls, RemoveAt(ys, j))) + multiset{calls[ys[j]]}
  {
    var ys' := RemoveAt(ys, j);
    assert ys == ys[..j] + [ys[j]] + ys[j + 1..];
    assert multiset(ys) == multiset(ys[..j]) + multiset{ys[j]} + multiset(ys[j + 1..]);
    forall i | 0 <= i < |ys'| ensures ys'[i] in calls {
      if i < j { assert ys'[i] == ys[i]; } else { assert ys'[i] == ys[i + 1]; }
    }
    assert CallsAt(calls, ys) == CallsAt(calls, ys[..j]) + [calls[ys[j]]] + CallsAt(calls, ys[j + 1..]);
    assert CallsAt(calls, ys') == CallsAt(calls, ys[..j]) + CallsAt(calls, ys[j + 1..]);
  }

  /** Permuting the keys permutes the tool calls. */
  lemma {:induction false} CallsAtPermutation(calls: map<int, ToolCall>, xs: seq<int>, ys: seq<int>)
    requires KeysIn(calls, xs) && KeysIn(calls, ys)
    requires multiset(xs) == multiset(ys)
    ensures multiset(CallsAt(calls, xs)) == multiset(CallsAt(calls, ys))
  {
    if |xs| == 0 {
      assert |ys| == |multiset(ys)| == 0;
    } else {
      var x := xs[0];
      assert x in multiset(ys) by { assert x in multiset(xs); }
      var j :| 0 <= j < |ys| && ys[j] == x;
      RemoveAtFacts(calls, ys, j);
      RemoveAtFacts(calls, xs, 0);
      assert RemoveAt(xs, 0) == xs[1..];
      CallsAtPermutation(calls, xs[1..], RemoveAt(ys, j));
    }
  }

  /** After finalising, the role is non-empty, the `tool_call.end` events list
      the entries in first-seen order, and the message carries the same tool
      calls (a permutation of them) sorted by ascending index, or no list at
      all when there were none. */
  lemma FinalizeFacts(s: Snapshot)
    requires TableValid(s.table, false)
    ensures KeysIn(s.table.calls, s.table.order)
    ensures var (s2, es) := FinalizeSpec(s);
      s2.message.role != ""
      && (s.message.role != "" ==> s2.message.role == s.message.role)
      && s2.table == s.table
      && |es| == |s.table.order|
      && (forall i :: 0 <= i < |es| ==>
            es[i].ToolCallEnd? && es[i].index == s.table.order[i] && es[i].toolCall == s.table.calls[s.table.order[i]])
      && (|s.table.calls| > 0 ==> s2.message.tool_calls.Some?)
      && (|s.table.calls| == 0 ==> s2.message.tool_calls == s.message.tool_calls)
      && s2.message.(role := s.message.role, tool_calls := s.message.tool_calls) == s.message
  {
    ValidKeysIn(s.table, false);
    var (s2, es) := FinalizeSpec(s);
    assert es == EndEvents(s.table);
  }

  /** The tool-call list finalisation writes: the calls in index order, or
      the message's own list when the table is empty. */
  lemma FinalizeCalls(s: Snapshot)
    requires KeysIn(s.table.calls, s.table.order)
    ensures KeysIn(s.table.calls, SortInts(s.table.order))
    ensures FinalizeSpec(s).0.message.tool_calls ==
      if |s.table.calls| > 0 then Some(CallsAt(s.table.calls, SortInts(s.table.order))) else s.message.tool_calls
  {
    SortedKeysIn(s.table.calls, s.table.order);
  }

  /** The final tool-call list is sorted by index and holds exactly the
      tool calls the `tool_call.end` events carried. */
  lemma FinalizeToolCalls(s: Snapshot)
    requires TableValid(s.table, false)
    ensures KeysIn(s.table.calls, s.table.order)
    ensures var (s2, es) := FinalizeSpec(s);
      |s.table.calls| > 0 ==>
        var keys := SortInts(s.table.order);
        KeysIn(s.table.calls, keys)
        && SortedInts(keys) && multiset(keys) == multiset(s.table.order)
        && s2.message.tool_calls.value == CallsAt(s.table.calls, keys)
        && multiset(s2.message.tool_calls.value)
           == multiset(seq(|es|, i requires 0 <= i < |es| => es[i].toolCall))
  {
    ValidKeysIn(s.table, false);
    var t := s.table;
    var (s2, es) := FinalizeSpec(s);
    SortedKeysIn(t.calls, t.order);
    var keys := SortInts(t.order);
    if |t.calls| > 0 {
      assert s2.message.tool_calls == Some(CallsAt(t.calls, keys));
      assert es == EndEvents(t);
      CallsAtPermutation(t.calls, keys, t.order);
      assert seq(|es|, i requires 0 <= i < |es| => es[i].toolCall) == CallsAt(t.calls, t.order);
    }
  }

  /** One tool-call delta on its own is one table step. */
  lemma TableFoldOne(t: ToolCallTable, tc: ToolCallDelta, requireId: bool)
    ensures TableFold(t, [tc], requireId) == TableStep(t, tc, requireId)
  {
    assert [tc][..0] == [];
    var e := TableStep(t, tc, requireId).1;
    assert [] + e == e;
  }

  lemma StringAssoc(x: string, y: string, z: string)
    ensures (x + y) + z == x + (y + z)
  {
  }

  /** The last delta of a run is one table step after the rest. */
  lemma TableFoldLast(t: ToolCallTable, tcs: seq<ToolCallDelta>, requireId: bool)
    requires |tcs| > 0
    ensures var prev := TableFold(t, tcs[..|tcs| - 1], requireId);
      var st := TableStep(prev.0, tcs[|tcs| - 1], requireId);
      TableFold(t, tcs, requireId) == (st.0, prev.1 + st.1)
  {
  }

  /** Folding two runs of deltas is folding the first, then the second from
      where the first left the table. */
  lemma {:induction false} TableFoldAppend(t: ToolCallTable, a: seq<ToolCallDelta>, b: seq<ToolCallDelta>, requireId: bool)
    ensures TableFold(t, a + b, requireId).0 == TableFold(TableFold(t, a, requireId).0, b, requireId).0
    ensures TableFold(t, a + b, requireId).1 == TableFold(t, a, requireId).1 + TableFold(TableFold(t, a, requireId).0, b, requireId).1
    decreases |b|
  {
    if |b| == 0 {
      assert a + b == a;
      assert TableFold(t, a, requireId).1 + [] == TableFold(t, a, requireId).1;
    } else {
      var ab := a + b;
      assert ab[..|ab| - 1] == a + b[..|b| - 1];
      assert ab[|ab| - 1] == b[|b| - 1];
      TableFoldAppend(t, a, b[..|b| - 1], requireId);
      TableFoldLast(t, ab, requireId);
      TableFoldLast(TableFold(t, a, requireId).0, b, requireId);
      AppendAssoc(TableFold(t, a, requireId).1,
                  TableFold(TableFold(t, a, requireId).0, b[..|b| - 1], requireId).1,
                  TableStep(TableFold(TableFold(t, a, requireId).0, b[..|b| - 1], requireId).0, b[|b| - 1], requireId).1);
    }
  }

  lemma AppendAssoc(x: seq<StreamEvent>, y: seq<StreamEvent>, z: seq<StreamEvent>)
    ensures (x + y) + z == x + (y + z)
  {
  }

  // ---------------------------------------------------------------------------
  // Stream boundaries

  /** `stream.start` and `stream.end` are the decoders' own events. */
  predicate Boundary(e: StreamEvent) {
    e.StreamStart? || e.StreamEnd?
  }

  /** The number of `stream.start` events. */
  function StreamStarts(es: seq<StreamEvent>): nat {
    if |es| == 0 then 0
    else StreamStarts(es[..|es| - 1]) + (if es[|es| - 1].StreamStart? then 1 else 0)
  }

  lemma {:induction false} StreamStartsAppend(a: seq<StreamEvent>, b: seq<StreamEvent>)
    ensures StreamStarts(a + b) == StreamStarts(a) + StreamStarts(b)
  {
    if |b| == 0 {
      assert a + b == a;
    } else {
      StreamStartsAppend(a, b[..|b| - 1]);
      assert (a + b)[..|a + b| - 1] == a + b[..|b| - 1];
    }
  }

  lemma {:induction false} StreamStartsNone(es: seq<StreamEvent>)
    requires forall i :: 0 <= i < |es| ==> !Boundary(es[i])
    ensures StreamStarts(es) == 0
  {
    if |es| > 0 {
      StreamStartsNone(es[..|es| - 1]);
    }
  }

  /** Events closed by a possibly late `stream.start` and one `stream.end`:
      the end comes last and only there, and the late start adds one. */
  lemma ClosedStream(es: seq<StreamEvent>, mid: seq<StreamEvent>, late: bool, last: StreamEvent)
    requires forall i :: 0 <= i < |es| ==> !es[i].StreamEnd?
    requires forall i :: 0 <= i < |mid| ==> !Boundary(mid[i])
    requires last.StreamEnd?
    ensures var all := es + mid + (if late then [StreamStart(None)] else []) + [last];
      |all| > 0 && all[|all| - 1] == last
      && (forall i :: 0 <= i < |all| - 1 ==> !all[i].StreamEnd?)
      && StreamStarts(all) == StreamStarts(es) + (if late then 1 else 0)
  {
    var ls: seq<StreamEvent> := if late then [StreamStart(None)] else [];
    StreamStartsNone(mid);
    StreamStartsAppend(es, mid);
    StreamStartsAppend(es + mid, ls);
    StreamStartsAppend(es + mid + ls, [last]);
    assert StreamStarts(ls) == (if late then 1 else 0) by {
      if late {
        assert ls[..0] == [];
      }
    }
    assert StreamStarts([last]) == 0 by {
      assert [last][..0] == [];
    }
  }

  /** The engine never yields a stream boundary. */
  lemma ApplyNoBoundary(s: Snapshot, delta: Option<MessageDelta>)
    ensures forall i :: 0 <= i < |ApplySpec(s, delta).1| ==> !Boundary(ApplySpec(s, delta).1[i])
  {
    if delta.Some? {
      var d := delta.value;
      var te := ApplyToTable(s.table, d).1;
      if d.tool_calls.Some? {
        TableFoldEvents(s.table, d.tool_calls.value, false);
      }
      MessageEventsNoBoundary(s.message, d, te);
    }
  }

  lemma MessageEventsNoBoundary(m: Message, d: MessageDelta, te: seq<StreamEvent>)
    requires forall i :: 0 <= i < |te| ==> te[i].ToolCallStart? || te[i].ToolCallArgs?
    ensures forall i :: 0 <= i < |MessageEvents(m, d) + te| ==> !Boundary((MessageEvents(m, d) + te)[i])
  {
  }

  // ---------------------------------------------------------------------------
  // The engine

  class StepStreamState {
    var message: Message
    var toolCalls: map<int, ToolCall>
    var order: seq<int>
    var started: set<int>

    function Snap(): Snapshot
      reads this
    {
      Snapshot(message, ToolCallTable(toolCalls, order, started))
    }

    ghost predicate Valid()
      reads this
    {
      TableValid(Snap().table, false)
    }

    /** `createStepStreamState()`. */
    constructor ()
      ensures Valid()
      ensures Snap() == InitialSnapshot()
    {
      message := NewMessage("", Plain(""));
      toolCalls := map[];
      order := [];
      started := {};
    }

    /** `stepStreamStateToResult`: exactly the one message being built. */
    function ToResult(): (r: seq<Message>)
      reads this
      ensures |r| == 1 && r[0] == message
    {
      [message]
    }

    /** `applyDeltaToStepStreamState`. */
    method ApplyDelta(delta: Option<MessageDelta>) returns (events: seq<StreamEvent>)
      requires Valid()
      modifies this
      ensures Valid()
      ensures (Snap(), events) == ApplySpec(old(Snap()), delta)
    {
      ApplyValid(Snap(), delta);
      if delta.None? {
        return [];
      }
      var d := delta.value;
      events := ApplyMessageFields(d);
      if d.tool_calls.Some? {
        var more := ApplyToolCalls(d.tool_calls.value);
        events := events + more;
      } else {
        assert events + [] == events;
      }
    }

    /** The role, content, reasoning and refusal part of a delta. */
    method ApplyMessageFields(d: MessageDelta) returns (events: seq<StreamEvent>)
      modifies this
      ensures message == ApplyToMessage(old(message), d)
      ensures toolCalls == old(toolCalls) && order == old(order) && started == old(started)
      ensures events == MessageEvents(old(message), d)
    {
      var m := message;
      events := [];
      if NonEmpty(d.role) && d.role.value != m.role {
        m := m.(role := d.role.value);
        events := events + [RoleSet(d.role.value)];
      }
      assert m == WithRole(old(message), d);
      assert events == RoleEvents(old(message), d);
      ghost var m1 := m;
      if ContentTruthy(d.content) {
        var c := ConcatContentsTo(m.content, [d.content.value]);
        m := m.(content := c);
        events := events + [ContentDelta(d.content.value)];
      }
      assert m == WithContent(m1, d);
      assert events == RoleEvents(old(message), d) + ContentEvents(d);
      ghost var m2 := m;
      if ContentTruthy(d.reasoning) {
        var c := ConcatContentsTo(m.reasoning.GetOr(Plain("")), [d.reasoning.value]);
        m := m.(reasoning := Some(c));
        events := events + [ReasoningDelta(d.reasoning.value)];
      }
      assert m == WithReasoning(m2, d);
      ghost var m3 := m;
      if ContentTruthy(d.refusal) {
        var c := ConcatContentsTo(m.refusal.GetOr(Plain("")), [d.refusal.value]);
        m := m.(refusal := Some(c));
        events := events + [RefusalDelta(Plain(""))];
      }
      assert m == WithRefusal(m3, d);
      message := m;
    }

    /** The `for (const tc of delta.tool_calls)` loop. */
    method ApplyToolCalls(tcs: seq<ToolCallDelta>) returns (events: seq<StreamEvent>)
      modifies this
      ensures message == old(message)
      ensures Snap().table == TableFold(old(Snap()).table, tcs, false).0
      ensures events == TableFold(old(Snap()).table, tcs, false).1
    {
      events := [];
      for i := 0 to |tcs|
        invariant message == old(message)
        invariant Snap().table == TableFold(old(Snap()).table, tcs[..i], false).0
        invariant events == TableFold(old(Snap()).table, tcs[..i], false).1
      {
        var more := ApplyToolCall(tcs[i]);
        events := events + more;
        assert tcs[..i + 1][..i] == tcs[..i];
        TableFoldLast(old(Snap()).table, tcs[..i + 1], false);
      }
      assert tcs[..|tcs|] == tcs;
    }

    /** The body of that loop for one delta. */
    method ApplyToolCall(tc: ToolCallDelta) returns (events: seq<StreamEvent>)
      modifies this
      ensures message == old(message)
      ensures Snap().table == TableStep(old(Snap()).table, tc, false).0
      ensures events == TableStep(old(Snap()).table, tc, false).1
    {
      ghost var tPre := Snap().table;
      var ind := tc.index;
      var existing := EMPTY_TOOL_CALL;
      if ind in toolCalls {
        existing := toolCalls[ind];
      } else {
        order := order + [ind];
      }
      if NonEmpty(tc.id) {
        existing := existing.(id := tc.id);
      }
      if NonEmpty(tc.name) {
        existing := existing.(name := existing.name + tc.name.value);
      }
      if NonEmpty(tc.arguments) {
        existing := existing.(arguments := existing.arguments + tc.arguments.value);
      }
      assert existing == Updated(tPre, tc);
      toolCalls := toolCalls[ind := existing];
      events := [];
      if ind !in started && existing.name != "" {
        started := started + {ind};
        events := [ToolCallStart(ind, existing.name, existing.id)];
      }
      assert events == StartEvents(tPre, tc, false);
      if NonEmpty(tc.arguments) {
        events := events + [ToolCallArgs(ind, tc.arguments.value)];
      }
    }

    /** `finalizeStepStreamState`. */
    method Finalize() returns (events: seq<StreamEvent>)
      requires Valid()
      modifies this
      ensures Valid()
      ensures KeysIn(old(toolCalls), old(order))
      ensures (Snap(), events) == FinalizeSpec(old(Snap()))
    {
      ValidKeysIn(Snap().table, false);
      events := [];
      for i := 0 to |order|
        invariant events == EndEvents(Snap().table)[..i]
      {
        assert EndEvents(Snap().table)[..i + 1] == EndEvents(Snap().table)[..i] + [ToolCallEnd(order[i], toolCalls[order[i]])];
        events := events + [ToolCallEnd(order[i], toolCalls[order[i]])];
      }
      assert EndEvents(Snap().table)[..|order|] == EndEvents(Snap().table);
      if message.role == "" {
        message := message.(role := "assistant");
      }
      if |toolCalls| > 0 {
        SortedKeysIn(toolCalls, order);
        var keys := SortInts(order);
        message := message.(tool_calls := Some(CallsAt(toolCalls, keys)));
      }
    }
  }
}
