/**
 Decoding a streamed Chat Completion into step-stream events. Unlike the
 Claude decoder this loop keeps its own role, content and refusal strings
 instead of driving the shared engine, but its tool-call table behaves as
 the engine's with a start needing both an id and a name.
 */
module OpenAIChatStream {
  import opened Wrappers
  import opened Strings
  import opened Content
  import opened Messages
  import opened Step
  import opened StreamState
  import opened Sorting

  /** What the decoder reads of a chunk's first choice. */
  datatype ChunkDelta = ChunkDelta(
    role: Option<string>,
    content: Option<string>,
    refusal: Option<string>,
    tool_calls: Option<seq<ToolCallDelta>>)

  datatype ChunkChoice = ChunkChoice(delta: ChunkDelta, finish_reason: Option<string>)

  datatype ChatChunk = ChatChunk(id: string, model: string, choices: seq<ChunkChoice>)

  /** The loop's variables. */
  datatype ChatStreamVars = ChatStreamVars(
    role: string,
    content: string,
    refusal: string,
    finishReason: string,
    started: bool,
    table: ToolCallTable)

  const INITIAL_CHAT_VARS: ChatStreamVars := ChatStreamVars("", "", "", "", false, EMPTY_TABLE)

  function ChunkMetadata(c: ChatChunk): StreamMetadata {
    StreamMetadata(Some(c.id), Some(c.model))
  }

  function RoleEventsOf(d: ChunkDelta): seq<StreamEvent> {
    if NonEmpty(d.role) then [RoleSet(d.role.value)] else []
  }

  function ContentEventsOf(d: ChunkDelta): seq<StreamEvent> {
    if NonEmpty(d.content) then [ContentDelta(Plain(d.content.value))] else []
  }

  function RefusalEventsOf(d: ChunkDelta): seq<StreamEvent> {
    if NonEmpty(d.refusal) then [RefusalDelta(Plain(d.refusal.value))] else []
  }

  function DeltaToolCalls(d: ChunkDelta): seq<ToolCallDelta> {
    if d.tool_calls.Some? then d.tool_calls.value else []
  }

  function Appended(acc: string, fragment: Option<string>): string {
    if NonEmpty(fragment) then acc + fragment.value else acc
  }

  /** The first choice of a chunk: a non-empty role overwrites, content and
      refusal fragments append, tool-call deltas go through the table, and
      a non-empty finish reason overwrites. */
  function ChoiceStep(v: ChatStreamVars, ch: ChunkChoice): (ChatStreamVars, seq<StreamEvent>) {
    var d := ch.delta;
    var tf := TableFold(v.table, DeltaToolCalls(d), true);
    (ChatStreamVars(
       if NonEmpty(d.role) then d.role.value else v.role,
       Appended(v.content, d.content),
       Appended(v.refusal, d.refusal),
       if NonEmpty(ch.finish_reason) then ch.finish_reason.value else v.finishReason,
       v.started,
       tf.0),
     RoleEventsOf(d) + ContentEventsOf(d) + RefusalEventsOf(d) + tf.1)
  }

  function StartOf(v: ChatStreamVars, c: ChatChunk): seq<StreamEvent> {
    if !v.started then [StreamStart(Some(ChunkMetadata(c)))] else []
  }

  /** One chunk: `stream.start` on the first one, whether or not it has a
      choice, then its first choice if there is one. */
  function ChunkStep(v: ChatStreamVars, c: ChatChunk): (ChatStreamVars, seq<StreamEvent>) {
    var v0 := v.(started := true);
    if |c.choices| == 0 then (v0, StartOf(v, c))
    else
      var r := ChoiceStep(v0, c.choices[0]);
      (r.0, StartOf(v, c) + r.1)
  }

  function ChunkFold(cs: seq<ChatChunk>): (ChatStreamVars, seq<StreamEvent>) {
    if |cs| == 0 then (INITIAL_CHAT_VARS, [])
    else
      var prev := ChunkFold(cs[..|cs| - 1]);
      var st := ChunkStep(prev.0, cs[|cs| - 1]);
      (st.0, prev.1 + st.1)
  }

  /** The final message: `assistant` for an empty role, the refusal only
      when non-empty, and the tool calls sorted by index when there are
      any. */
  function FinalMessage(v: ChatStreamVars): Message
    requires KeysIn(v.table.calls, v.table.order)
  {
    var m0 := NewMessage(if v.role == "" then "assistant" else v.role, Plain(v.content));
    var m1 := if v.refusal != "" then m0.(refusal := Some(Plain(v.refusal))) else m0;
    SortedKeysIn(v.table.calls, v.table.order);
    if |v.table.calls| > 0 then m1.(tool_calls := Some(CallsAt(v.table.calls, SortInts(v.table.order)))) else m1
  }

  /** The whole stream: the one message, and every event yielded. */
  function DecodeSpec(cs: seq<ChatChunk>): (Message, seq<StreamEvent>) {
    var f := ChunkFold(cs);
    ChunkFoldValid(cs);
    ValidKeysIn(f.0.table, true);
    (FinalMessage(f.0), f.1 + EndEvents(f.0.table) + [StreamEnd(Some(f.0.finishReason))])
  }

  // ---------------------------------------------------------------------
  // The decoder

  /** The inner loop over one chunk's tool-call deltas. */
  method ApplyToolCallDeltas(t: ToolCallTable, tcs: seq<ToolCallDelta>) returns (t2: ToolCallTable, events: seq<StreamEvent>)
    ensures (t2, events) == TableFold(t, tcs, true)
  {
    t2 := t;
    events := [];
    for j := 0 to |tcs|
      invariant (t2, events) == TableFold(t, tcs[..j], true)
    {
      var t3, more := ApplyToolCallDelta(t2, tcs[j]);
      t2, events := t3, events + more;
      assert tcs[..j + 1][..j] == tcs[..j];
      TableFoldLast(t, tcs[..j + 1], true);
    }
    assert tcs[..|tcs|] == tcs;
  }

  /** The body of that loop for one delta. */
  method ApplyToolCallDelta(t: ToolCallTable, tc: ToolCallDelta) returns (t2: ToolCallTable, events: seq<StreamEvent>)
    ensures (t2, events) == TableStep(t, tc, true)
  {
    var toolCalls := t.calls;
    var order := t.order;
    var toolCallStarted := t.started;
    var ind := tc.index;
    var existing := EMPTY_TOOL_CALL;
    if ind in toolCalls {
      existing := toolCalls[ind];
    } else {
      order := order + [ind];
    }
    if NonEmpty(tc.id) {
      existing := existing.(id := tc.id);
    }
    if NonEmpty(tc.name) {
      existing := existing.(name := existing.name + tc.name.value);
    }
    if NonEmpty(tc.arguments) {
      existing := existing.(arguments := existing.arguments + tc.arguments.value);
    }
    assert existing == Updated(t, tc);
    var fires := ind !in toolCallStarted && NonEmpty(existing.id) && existing.name != "";
    assert fires == Fires(t, tc, true);
    toolCalls := toolCalls[ind := existing];
    events := [];
    if fires {
      toolCallStarted := toolCallStarted + {ind};
      events := [ToolCallStart(ind, existing.name, existing.id)];
    }
    assert events == StartEvents(t, tc, true);
    if NonEmpty(tc.arguments) {
      events := events + [ToolCallArgs(ind, tc.arguments.value)];
    }
    assert events == StartEvents(t, tc, true) + FragmentEvents(tc);
    t2 := ToolCallTable(toolCalls, order, toolCallStarted);
  }

  /** One chunk of the loop. */
  method ProcessChunk(v: ChatStreamVars, chunk: ChatChunk) returns (v2: ChatStreamVars, events: seq<StreamEvent>)
    ensures (v2, events) == ChunkStep(v, chunk)
  {
    events := [];
    if !v.started {
      events := [StreamStart(Some(ChunkMetadata(chunk)))];
    }
    v2 := v.(started := true);
    if |chunk.choices| > 0 {
      var more;
      v2, more := ProcessChoice(v2, chunk.choices[0]);
      events := events + more;
    }
  }

  /** The first choice of a chunk. */
  method ProcessChoice(v: ChatStreamVars, choice: ChunkChoice) returns (v2: ChatStreamVars, events: seq<StreamEvent>)
    ensures (v2, events) == ChoiceStep(v, choice)
  {
    var delta := choice.delta;
    var role, content, refusal, finishReason, table := v.role, v.content, v.refusal, v.finishReason, v.table;
    events := [];
    if NonEmpty(delta.role) {
      role := delta.role.value;
      events := events + [RoleSet(role)];
    }
    assert events == RoleEventsOf(delta);
    if NonEmpty(delta.content) {
      content := content + delta.content.value;
      events := events + [ContentDelta(Plain(delta.content.value))];
    }
    assert events == RoleEventsOf(delta) + ContentEventsOf(delta);
    if NonEmpty(delta.refusal) {
      refusal := refusal + delta.refusal.value;
      events := events + [RefusalDelta(Plain(delta.refusal.value))];
    }
    assert events == RoleEventsOf(delta) + ContentEventsOf(delta) + RefusalEventsOf(delta);
    var toolEvents := [];
    if delta.tool_calls.Some? {
      table, toolEvents := ApplyToolCallDeltas(table, delta.tool_calls.value);
    } else {
      assert TableFold(table, [], true) == (table, []);
    }
    events := events + toolEvents;
    if NonEmpty(choice.finish_reason) {
      finishReason := choice.finish_reason.value;
    }
    v2 := ChatStreamVars(role, content, refusal, finishReason, v.started, table);
  }

  /** `tool_call.end` for every entry, in first-seen order. */
  method ToolCallEnds(t: ToolCallTable) returns (events: seq<StreamEvent>)
    requires KeysIn(t.calls, t.order)
    ensures events == EndEvents(t)
  {
    events := [];
    for j := 0 to |t.order|
      invariant events == EndEvents(t)[..j]
    {
      events := events + [ToolCallEnd(t.order[j], t.calls[t.order[j]])];
    }
  }

  /** The stream decoder: the events it yields, in order, and the result it
      returns. */
  method DecodeChatStream(cs: seq<ChatChunk>) returns (events: seq<StreamEvent>, result: StepResult)
    ensures events == DecodeSpec(cs).1
    ensures result == StepResult([DecodeSpec(cs).0], None, None)
  {
    var v := INITIAL_CHAT_VARS;
    events := [];
    for i := 0 to |cs|
      invariant ChunkFold(cs[..i]) == (v, events)
    {
      assert cs[..i + 1][..i] == cs[..i];
      var v2, es := ProcessChunk(v, cs[i]);
      v := v2;
      events := events + es;
    }
    assert cs[..|cs|] == cs;
    ChunkFoldValid(cs);
    ValidKeysIn(v.table, true);
    var ends := ToolCallEnds(v.table);
    events := events + ends + [StreamEnd(Some(v.finishReason))];
    var message := NewMessage(if v.role == "" then "assistant" else v.role, Plain(v.content));
    if v.refusal != "" {
      message := message.(refusal := Some(Plain(v.refusal)));
    }
    if |v.table.calls| > 0 {
      SortedKeysIn(v.table.calls, v.table.order);
      message := message.(tool_calls := Some(CallsAt(v.table.calls, SortInts(v.table.order))));
    }
    result := StepResult([message], None, None);
  }

  // ---------------------------------------------------------------------
  // Reference definitions over the chunks

  /** What a chunk's first choice carries, each as a list of at most one
      item; a chunk without choices carries nothing. */
  function ChunkRoles(c: ChatChunk): seq<string> {
    if |c.choices| > 0 && NonEmpty(c.choices[0].delta.role) then [c.choices[0].delta.role.value] else []
  }

  function ChunkContents(c: ChatChunk): seq<string> {
    if |c.choices| > 0 && NonEmpty(c.choices[0].delta.content) then [c.choices[0].delta.content.value] else []
  }

  function ChunkRefusals(c: ChatChunk): seq<string> {
    if |c.choices| > 0 && NonEmpty(c.choices[0].delta.refusal) then [c.choices[0].delta.refusal.value] else []
  }

  function ChunkFinishReasons(c: ChatChunk): seq<string> {
    if |c.choices| > 0 && NonEmpty(c.choices[0].finish_reason) then [c.choices[0].finish_reason.value] else []
  }

  function ChunkToolDeltas(c: ChatChunk): seq<ToolCallDelta> {
    if |c.choices| > 0 then DeltaToolCalls(c.choices[0].delta) else []
  }

  /** Every non-empty role the chunks announce, in order. */
  function AnnouncedRoles(cs: seq<ChatChunk>): seq<string> {
    if |cs| == 0 then [] else AnnouncedRoles(cs[..|cs| - 1]) + ChunkRoles(cs[|cs| - 1])
  }

  function ContentFragments(cs: seq<ChatChunk>): seq<string> {
    if |cs| == 0 then [] else ContentFragments(cs[..|cs| - 1]) + ChunkContents(cs[|cs| - 1])
  }

  function RefusalFragments(cs: seq<ChatChunk>): seq<string> {
    if |cs| == 0 then [] else RefusalFragments(cs[..|cs| - 1]) + ChunkRefusals(cs[|cs| - 1])
  }

  function FinishReasons(cs: seq<ChatChunk>): seq<string> {
    if |cs| == 0 then [] else FinishReasons(cs[..|cs| - 1]) + ChunkFinishReasons(cs[|cs| - 1])
  }

  /** All tool-call deltas of the chunks, in order. */
  function AllToolDeltas(cs: seq<ChatChunk>): seq<ToolCallDelta> {
    if |cs| == 0 then [] else AllToolDeltas(cs[..|cs| - 1]) + ChunkToolDeltas(cs[|cs| - 1])
  }

  /** The last string of a list, `""` for none. */
  function Last(ss: seq<string>): string {
    if |ss| == 0 then "" else ss[|ss| - 1]
  }

  function RoleSets(rs: seq<string>): (r: seq<StreamEvent>)
    ensures |r| == |rs| && forall i :: 0 <= i < |rs| ==> r[i] == RoleSet(rs[i])
  {
    seq(|rs|, i requires 0 <= i < |rs| => RoleSet(rs[i]))
  }

  function TextDeltas(fs: seq<string>, refusal: bool): (r: seq<StreamEvent>)
    ensures |r| == |fs|
    ensures forall i :: 0 <= i < |fs| ==> r[i] == if refusal then RefusalDelta(Plain(fs[i])) else ContentDelta(Plain(fs[i]))
  {
    seq(|fs|, i requires 0 <= i < |fs| => if refusal then RefusalDelta(Plain(fs[i])) else ContentDelta(Plain(fs[i])))
  }

  lemma LastAppendSmall(a: seq<string>, b: seq<string>)
    requires |b| <= 1
    ensures Last(a + b) == if |b| == 1 then b[0] else Last(a)
  {
    if |b| == 0 {
      assert a + b == a;
    }
  }

  lemma RoleSetsAppend(a: seq<string>, b: seq<string>)
    ensures RoleSets(a + b) == RoleSets(a) + RoleSets(b)
  {
  }

  lemma TextDeltasAppend(a: seq<string>, b: seq<string>, refusal: bool)
    ensures TextDeltas(a + b, refusal) == TextDeltas(a, refusal) + TextDeltas(b, refusal)
  {
  }

  // ---------------------------------------------------------------------
  // One chunk

  /** The variables after one chunk. */
  lemma ChunkStepVars(v: ChatStreamVars, c: ChatChunk)
    ensures var v2 := ChunkStep(v, c).0;
      v2.started
      && v2.role == (if |ChunkRoles(c)| == 1 then ChunkRoles(c)[0] else v.role)
      && v2.content == v.content + Concat(ChunkContents(c))
      && v2.refusal == v.refusal + Concat(ChunkRefusals(c))
      && v2.finishReason == (if |ChunkFinishReasons(c)| == 1 then ChunkFinishReasons(c)[0] else v.finishReason)
      && v2.table == TableFold(v.table, ChunkToolDeltas(c), true).0
  {
    if |c.choices| > 0 {
      var d := c.choices[0].delta;
      if NonEmpty(d.content) {
        assert Concat(ChunkContents(c)) == d.content.value;
      } else {
        assert v.content + Concat(ChunkContents(c)) == v.content;
      }
      if NonEmpty(d.refusal) {
        assert Concat(ChunkRefusals(c)) == d.refusal.value;
      } else {
        assert v.refusal + Concat(ChunkRefusals(c)) == v.refusal;
      }
    } else {
      assert v.content + Concat([]) == v.content;
      assert v.refusal + Concat([]) == v.refusal;
    }
  }

  /** The events of one chunk, part by part. */
  lemma ChunkStepEvents(v: ChatStreamVars, c: ChatChunk)
    ensures ChunkStep(v, c).1 == StartOf(v, c) + RoleSets(ChunkRoles(c)) + TextDeltas(ChunkContents(c), false)
      + TextDeltas(ChunkRefusals(c), true) + TableFold(v.table, ChunkToolDeltas(c), true).1
  {
    var s0 := StartOf(v, c);
    var r := RoleSets(ChunkRoles(c));
    var q := TextDeltas(ChunkContents(c), false);
    var f := TextDeltas(ChunkRefusals(c), true);
    var te := TableFold(v.table, ChunkToolDeltas(c), true).1;
    if |c.choices| > 0 {
      ChoiceEvents(c);
      assert ChoiceStep(v.(started := true), c.choices[0]).1 == r + q + f + te;
      assert ChunkStep(v, c).1 == s0 + (r + q + f + te);
      Assoc5(s0, r, q, f, te);
    } else {
      assert r == [] && q == [] && f == [] && te == [];
      assert s0 + r + q + f + te == s0;
    }
  }

  lemma Assoc5(s0: seq<StreamEvent>, r: seq<StreamEvent>, q: seq<StreamEvent>, f: seq<StreamEvent>, te: seq<StreamEvent>)
    ensures s0 + (r + q + f + te) == s0 + r + q + f + te
  {
  }

  lemma ChoiceEvents(c: ChatChunk)
    requires |c.choices| > 0
    ensures var d := c.choices[0].delta;
      RoleEventsOf(d) == RoleSets(ChunkRoles(c))
      && ContentEventsOf(d) == TextDeltas(ChunkContents(c), false)
      && RefusalEventsOf(d) == TextDeltas(ChunkRefusals(c), true)
  {
  }

  /** The events of one chunk in the order they are yielded: at most one
      `stream.start`, then role, content and refusal events, then table
      events. */
  predicate ChunkShaped(s0: seq<StreamEvent>, r: seq<StreamEvent>, q: seq<StreamEvent>, f: seq<StreamEvent>, te: seq<StreamEvent>) {
    |s0| <= 1 && (forall i :: 0 <= i < |s0| ==> s0[i].StreamStart?)
    && (forall i :: 0 <= i < |r| ==> r[i].RoleSet?)
    && (forall i :: 0 <= i < |q| ==> q[i].ContentDelta?)
    && (forall i :: 0 <= i < |f| ==> f[i].RefusalDelta?)
    && (forall i :: 0 <= i < |te| ==> te[i].ToolCallStart? || te[i].ToolCallArgs?)
  }

  lemma Select5(s0: seq<StreamEvent>, r: seq<StreamEvent>, q: seq<StreamEvent>, f: seq<StreamEvent>, te: seq<StreamEvent>, sel: Selector)
    ensures Select(s0 + r + q + f + te, sel) == Select(s0, sel) + Select(r, sel) + Select(q, sel) + Select(f, sel) + Select(te, sel)
  {
    SelectAppend(s0 + r + q + f, te, sel);
    Select4(s0, r, q, f, sel);
  }

  /** What the message selectors pick from one chunk's events. */
  lemma ChunkSelectMessage(s0: seq<StreamEvent>, r: seq<StreamEvent>, q: seq<StreamEvent>, f: seq<StreamEvent>, te: seq<StreamEvent>, sel: Selector)
    requires ChunkShaped(s0, r, q, f, te)
    requires sel.Roles? || sel.Contents? || sel.Refusals?
    ensures Select(s0 + r + q + f + te, sel) == if sel.Roles? then r else if sel.Contents? then q else f
  {
    Select5(s0, r, q, f, te, sel);
    SelectNone(s0, sel);
    SelectNone(te, sel);
    if sel.Roles? {
      SelectAll(r, sel);
      SelectNone(q, sel);
      SelectNone(f, sel);
      assert [] + r + [] + [] + [] == r;
    } else if sel.Contents? {
      SelectNone(r, sel);
      SelectAll(q, sel);
      SelectNone(f, sel);
      assert [] + [] + q + [] + [] == q;
    } else {
      SelectNone(r, sel);
      SelectNone(q, sel);
      SelectAll(f, sel);
      assert [] + [] + [] + f + [] == f;
    }
  }

  /** What the tool-call selectors pick from one chunk's events. */
  lemma ChunkSelectTool(s0: seq<StreamEvent>, r: seq<StreamEvent>, q: seq<StreamEvent>, f: seq<StreamEvent>, te: seq<StreamEvent>, sel: Selector)
    requires ChunkShaped(s0, r, q, f, te)
    requires ToolSelector(sel)
    ensures Select(s0 + r + q + f + te, sel) == Select(te, sel)
  {
    Select5(s0, r, q, f, te, sel);
    SelectNone(s0, sel);
    SelectNone(r, sel);
    SelectNone(q, sel);
    SelectNone(f, sel);
    assert [] + [] + [] + [] + Select(te, sel) == Select(te, sel);
  }

  /** One chunk yields `stream.start` first when it yields one at all, and
      never `stream.end`. */
  lemma ChunkBoundaries(s0: seq<StreamEvent>, r: seq<StreamEvent>, q: seq<StreamEvent>, f: seq<StreamEvent>, te: seq<StreamEvent>)
    requires ChunkShaped(s0, r, q, f, te)
    ensures var es := s0 + r + q + f + te;
      StreamStarts(es) == |s0|
      && (forall i :: 0 <= i < |es| ==> !es[i].StreamEnd?)
      && (|s0| > 0 ==> |es| > 0 && es[0] == s0[0])
  {
    var rest := r + q + f + te;
    assert s0 + r + q + f + te == s0 + rest;
    assert forall i :: 0 <= i < |rest| ==> !Boundary(rest[i]);
    StreamStartsNone(rest);
    StreamStartsAppend(s0, rest);
    if |s0| > 0 {
      assert s0 == [s0[0]];
      assert s0[..0] == [];
    }
  }

  /** The chunk's events have that shape. */
  lemma ChunkStepShaped(v: ChatStreamVars, c: ChatChunk)
    ensures ChunkShaped(StartOf(v, c), RoleSets(ChunkRoles(c)), TextDeltas(ChunkContents(c), false),
      TextDeltas(ChunkRefusals(c), true), TableFold(v.table, ChunkToolDeltas(c), true).1)
  {
    TableFoldEvents(v.table, ChunkToolDeltas(c), true);
  }

  lemma ChunkStepNoEnds(v: ChatStreamVars, c: ChatChunk)
    ensures forall i :: 0 <= i < |ChunkStep(v, c).1| ==> !ChunkStep(v, c).1[i].ToolCallEnd?
  {
    ChunkStepEvents(v, c);
    ChunkStepShaped(v, c);
    ShapedNoEnds(StartOf(v, c), RoleSets(ChunkRoles(c)), TextDeltas(ChunkContents(c), false),
      TextDeltas(ChunkRefusals(c), true), TableFold(v.table, ChunkToolDeltas(c), true).1);
  }

  lemma ShapedNoEnds(s0: seq<StreamEvent>, r: seq<StreamEvent>, q: seq<StreamEvent>, f: seq<StreamEvent>, te: seq<StreamEvent>)
    requires ChunkShaped(s0, r, q, f, te)
    ensures var es := s0 + r + q + f + te; forall i :: 0 <= i < |es| ==> !es[i].ToolCallEnd?
  {
  }

  // ---------------------------------------------------------------------
  // Properties of the fold

  lemma ChunkFoldLast(cs: seq<ChatChunk>)
    requires |cs| > 0
    ensures var prev := ChunkFold(cs[..|cs| - 1]); var st := ChunkStep(prev.0, cs[|cs| - 1]);
      ChunkFold(cs).0 == st.0 && ChunkFold(cs).1 == prev.1 + st.1
  {
  }

  /** The variables after any chunks: the last announced role, the
      fragments concatenated, the last finish reason, and the engine's table
      over every delta. */
  lemma {:induction false} ChunkFoldVars(cs: seq<ChatChunk>)
    ensures var v := ChunkFold(cs).0;
      v.started == (|cs| > 0)
      && v.role == Last(AnnouncedRoles(cs))
      && v.content == Concat(ContentFragments(cs))
      && v.refusal == Concat(RefusalFragments(cs))
      && v.finishReason == Last(FinishReasons(cs))
      && v.table == TableFold(EMPTY_TABLE, AllToolDeltas(cs), true).0
  {
    if |cs| > 0 {
      var init := cs[..|cs| - 1];
      var c := cs[|cs| - 1];
      var prev := ChunkFold(init).0;
      ChunkFoldVars(init);
      ChunkFoldLast(cs);
      ChunkStepVars(prev, c);
      LastAppendSmall(AnnouncedRoles(init), ChunkRoles(c));
      LastAppendSmall(FinishReasons(init), ChunkFinishReasons(c));
      ConcatSplit(ContentFragments(init), ChunkContents(c));
      ConcatSplit(RefusalFragments(init), ChunkRefusals(c));
      TableFoldAppend(EMPTY_TABLE, AllToolDeltas(init), ChunkToolDeltas(c), true);
    }
  }

  lemma {:induction false} ChunkFoldValid(cs: seq<ChatChunk>)
    ensures TableValid(ChunkFold(cs).0.table, true)
  {
    if |cs| > 0 {
      var prev := ChunkFold(cs[..|cs| - 1]).0;
      ChunkFoldValid(cs[..|cs| - 1]);
      ChunkFoldLast(cs);
      ChunkStepVars(prev, cs[|cs| - 1]);
      TableFoldValid(prev.table, ChunkToolDeltas(cs[|cs| - 1]), true);
    }
  }

  lemma {:induction false} ChunkFoldRoleEvents(cs: seq<ChatChunk>)
    ensures Select(ChunkFold(cs).1, Selector.Roles) == RoleSets(AnnouncedRoles(cs))
  {
    if |cs| > 0 {
      var init := cs[..|cs| - 1];
      var c := cs[|cs| - 1];
      var prev := ChunkFold(init);
      ChunkFoldRoleEvents(init);
      ChunkFoldLast(cs);
      SelectAppend(prev.1, ChunkStep(prev.0, c).1, Selector.Roles);
      ChunkStepEvents(prev.0, c);
      ChunkStepShaped(prev.0, c);
      ChunkSelectMessage(StartOf(prev.0, c), RoleSets(ChunkRoles(c)), TextDeltas(ChunkContents(c), false),
        TextDeltas(ChunkRefusals(c), true),
        TableFold(prev.0.table, ChunkToolDeltas(c), true).1, Selector.Roles);
      RoleSetsAppend(AnnouncedRoles(init), ChunkRoles(c));
    }
  }

  lemma {:induction false} ChunkFoldContentEvents(cs: seq<ChatChunk>)
    ensures Select(ChunkFold(cs).1, Contents) == TextDeltas(ContentFragments(cs), false)
  {
    if |cs| > 0 {
      var init := cs[..|cs| - 1];
      var c := cs[|cs| - 1];
      var prev := ChunkFold(init);
      ChunkFoldContentEvents(init);
      ChunkFoldLast(cs);
      SelectAppend(prev.1, ChunkStep(prev.0, c).1, Contents);
      ChunkStepEvents(prev.0, c);
      ChunkStepShaped(prev.0, c);
      ChunkSelectMessage(StartOf(prev.0, c), RoleSets(ChunkRoles(c)), TextDeltas(ChunkContents(c), false),
        TextDeltas(ChunkRefusals(c), true),
        TableFold(prev.0.table, ChunkToolDeltas(c), true).1, Contents);
      TextDeltasAppend(ContentFragments(init), ChunkContents(c), false);
    }
  }

  lemma {:induction false} ChunkFoldRefusalEvents(cs: seq<ChatChunk>)
    ensures Select(ChunkFold(cs).1, Refusals) == TextDeltas(RefusalFragments(cs), true)
  {
    if |cs| > 0 {
      var init := cs[..|cs| - 1];
      var c := cs[|cs| - 1];
      var prev := ChunkFold(init);
      ChunkFoldRefusalEvents(init);
      ChunkFoldLast(cs);
      SelectAppend(prev.1, ChunkStep(prev.0, c).1, Refusals);
      ChunkStepEvents(prev.0, c);
      ChunkStepShaped(prev.0, c);
      ChunkSelectMessage(StartOf(prev.0, c), RoleSets(ChunkRoles(c)), TextDeltas(ChunkContents(c), false),
        TextDeltas(ChunkRefusals(c), true),
        TableFold(prev.0.table, ChunkToolDeltas(c), true).1, Refusals);
      TextDeltasAppend(RefusalFragments(init), ChunkRefusals(c), true);
    }
  }

  /** The selectors that pick tool-call table events. */
  predicate ToolSelector(sel: Selector) {
    sel.Starts? || sel.Args?
  }

  /** The tool-call events of the stream are those of the engine's table run
      over every delta of every chunk. */
  lemma {:induction false} ChunkFoldToolEvents(cs: seq<ChatChunk>, sel: Selector)
    requires ToolSelector(sel)
    ensures Select(ChunkFold(cs).1, sel) == Select(TableFold(EMPTY_TABLE, AllToolDeltas(cs), true).1, sel)
  {
    if |cs| > 0 {
      var init := cs[..|cs| - 1];
      var c := cs[|cs| - 1];
      var prev := ChunkFold(init);
      ChunkFoldToolEvents(init, sel);
      ChunkFoldVars(init);
      ChunkFoldLast(cs);
      SelectAppend(prev.1, ChunkStep(prev.0, c).1, sel);
      ChunkStepEvents(prev.0, c);
      ChunkStepShaped(prev.0, c);
      ChunkSelectTool(StartOf(prev.0, c), RoleSets(ChunkRoles(c)), TextDeltas(ChunkContents(c), false),
        TextDeltas(ChunkRefusals(c), true),
        TableFold(prev.0.table, ChunkToolDeltas(c), true).1, sel);
      var a := AllToolDeltas(init);
      var b := ChunkToolDeltas(c);
      var t1 := TableFold(EMPTY_TABLE, a, true);
      TableFoldAppend(EMPTY_TABLE, a, b, true);
      SelectAppend(t1.1, TableFold(t1.0, b, true).1, sel);
    }
  }

  lemma {:induction false} ChunkFoldBoundaries(cs: seq<ChatChunk>)
    ensures var es := ChunkFold(cs).1;
      StreamStarts(es) == (if |cs| > 0 then 1 else 0)
      && (forall i :: 0 <= i < |es| ==> !es[i].StreamEnd?)
      && (|cs| > 0 ==> |es| > 0 && es[0] == StreamStart(Some(ChunkMetadata(cs[0]))))
  {
    if |cs| > 0 {
      var init := cs[..|cs| - 1];
      var c := cs[|cs| - 1];
      var prev := ChunkFold(init);
      var st := ChunkStep(prev.0, c);
      ChunkFoldBoundaries(init);
      ChunkFoldVars(init);
      ChunkFoldLast(cs);
      ChunkStepEvents(prev.0, c);
      ChunkStepShaped(prev.0, c);
      ChunkBoundaries(StartOf(prev.0, c), RoleSets(ChunkRoles(c)), TextDeltas(ChunkContents(c), false),
        TextDeltas(ChunkRefusals(c), true),
        TableFold(prev.0.table, ChunkToolDeltas(c), true).1);
      StreamStartsAppend(prev.1, st.1);
      if |init| == 0 {
        assert prev.1 == [];
        assert prev.1 + st.1 == st.1;
        assert cs[0] == c;
      } else {
        assert (prev.1 + st.1)[0] == prev.1[0];
        assert cs[0] == init[0];
      }
    }
  }

  lemma {:induction false} ChunkFoldNoEnds(cs: seq<ChatChunk>)
    ensures forall i :: 0 <= i < |ChunkFold(cs).1| ==> !ChunkFold(cs).1[i].ToolCallEnd?
  {
    if |cs| > 0 {
      var init := cs[..|cs| - 1];
      ChunkFoldNoEnds(init);
      var prev := ChunkFold(init);
      var st := ChunkStep(prev.0, cs[|cs| - 1]);
      ChunkStepNoEnds(prev.0, cs[|cs| - 1]);
      assert ChunkFold(cs).1 == prev.1 + st.1;
    }
  }

  lemma {:induction false} AnnouncedRolesNonEmpty(cs: seq<ChatChunk>)
    ensures forall i :: 0 <= i < |AnnouncedRoles(cs)| ==> AnnouncedRoles(cs)[i] != ""
  {
    if |cs| > 0 {
      AnnouncedRolesNonEmpty(cs[..|cs| - 1]);
    }
  }

  lemma {:induction false} SelectAll(es: seq<StreamEvent>, sel: Selector)
    requires forall i :: 0 <= i < |es| ==> Picks(sel, es[i])
    ensures Select(es, sel) == es
  {
    if |es| > 0 {
      SelectAll(es[..|es| - 1], sel);
    }
  }

  // ---------------------------------------------------------------------
  // Properties of the decoder

  /** The decoder's result and events in terms of the fold. */
  lemma DecodeSpecParts(cs: seq<ChatChunk>)
    ensures var f := ChunkFold(cs);
      TableValid(f.0.table, true) && KeysIn(f.0.table.calls, f.0.table.order)
      && DecodeSpec(cs).0 == FinalMessage(f.0)
      && DecodeSpec(cs).1 == f.1 + EndEvents(f.0.table) + [StreamEnd(Some(f.0.finishReason))]
      && (forall i :: 0 <= i < |EndEvents(f.0.table)| ==> EndEvents(f.0.table)[i].ToolCallEnd?)
  {
    ChunkFoldValid(cs);
    ValidKeysIn(ChunkFold(cs).0.table, true);
    EndEventsAreEnds(ChunkFold(cs).0.table);
  }

  /** Closing a stream that yielded no `stream.end`: the end events and
      then `stream.end`, last and once. */
  lemma CloseEvents(es: seq<StreamEvent>, ends: seq<StreamEvent>, last: StreamEvent)
    requires forall i :: 0 <= i < |es| ==> !es[i].StreamEnd?
    requires forall i :: 0 <= i < |ends| ==> ends[i].ToolCallEnd?
    requires last.StreamEnd?
    ensures var all := es + ends + [last];
      |all| > 0 && all[|all| - 1] == last
      && (forall i :: 0 <= i < |all| - 1 ==> !all[i].StreamEnd?)
      && StreamStarts(all) == StreamStarts(es)
      && (|es| > 0 ==> all[0] == es[0])
  {
    ClosedStream(es, ends, false, last);
    assert es + ends + [last] == es + ends + [] + [last];
  }

  /** `stream.start` comes first and exactly once when any chunk came (an
      empty stream yields none), and `stream.end` comes last, once, with the
      last non-empty finish reason or `""`. */
  lemma DecodeBoundaries(cs: seq<ChatChunk>)
    ensures var es := DecodeSpec(cs).1;
      |es| > 0 && es[|es| - 1] == StreamEnd(Some(Last(FinishReasons(cs))))
      && (forall i :: 0 <= i < |es| - 1 ==> !es[i].StreamEnd?)
      && StreamStarts(es) == (if |cs| > 0 then 1 else 0)
      && (|cs| > 0 ==> es[0] == StreamStart(Some(ChunkMetadata(cs[0]))))
  {
    var f := ChunkFold(cs);
    DecodeSpecParts(cs);
    ChunkFoldBoundaries(cs);
    ChunkFoldVars(cs);
    CloseEvents(f.1, EndEvents(f.0.table), StreamEnd(Some(f.0.finishReason)));
  }

  /** The message: the last non-empty role (or `assistant`), the content
      and refusal fragments concatenated, the refusal only when non-empty,
      nothing else set. */
  lemma DecodeMessage(cs: seq<ChatChunk>)
    ensures var m := DecodeSpec(cs).0;
      m.role == (if |AnnouncedRoles(cs)| == 0 then "assistant" else Last(AnnouncedRoles(cs)))
      && m.content == Plain(Concat(ContentFragments(cs)))
      && (m.refusal.Some? <==> Concat(RefusalFragments(cs)) != "")
      && (m.refusal.Some? ==> m.refusal.value == Plain(Concat(RefusalFragments(cs))))
      && m.id.None? && m.call_id.None? && m.name.None? && m.reasoning.None? && m.extra.None?
  {
    DecodeSpecParts(cs);
    ChunkFoldVars(cs);
    AnnouncedRolesNonEmpty(cs);
  }

  /** The closing events are picked only by `Ends`. */
  lemma SelectDropTail(es: seq<StreamEvent>, ends: seq<StreamEvent>, last: StreamEvent, sel: Selector)
    requires forall i :: 0 <= i < |ends| ==> ends[i].ToolCallEnd?
    requires last.StreamEnd? && !sel.Ends?
    ensures Select(es + ends + [last], sel) == Select(es, sel)
  {
    var tail := ends + [last];
    assert es + ends + [last] == es + tail;
    SelectAppend(es, tail, sel);
    SelectNone(tail, sel);
  }

  /** The end events of a table are `tool_call.end` events, one per entry
      in first-seen order. */
  lemma EndEventsAreEnds(t: ToolCallTable)
    requires KeysIn(t.calls, t.order)
    ensures forall i :: 0 <= i < |EndEvents(t)| ==> EndEvents(t)[i].ToolCallEnd? && EndEvents(t)[i].index == t.order[i]
  {
  }

  /** The `role`, `content.delta` and `refusal.delta` events report every
      role and every fragment, in order, without de-duplication. */
  lemma DecodeMessageEvents(cs: seq<ChatChunk>)
    ensures var es := DecodeSpec(cs).1;
      Select(es, Selector.Roles) == RoleSets(AnnouncedRoles(cs))
      && Select(es, Contents) == TextDeltas(ContentFragments(cs), false)
      && Select(es, Refusals) == TextDeltas(RefusalFragments(cs), true)
  {
    var f := ChunkFold(cs);
    DecodeSpecParts(cs);
    ChunkFoldRoleEvents(cs);
    ChunkFoldContentEvents(cs);
    ChunkFoldRefusalEvents(cs);
    SelectDropTail(f.1, EndEvents(f.0.table), StreamEnd(Some(f.0.finishReason)), Selector.Roles);
    SelectDropTail(f.1, EndEvents(f.0.table), StreamEnd(Some(f.0.finishReason)), Contents);
    SelectDropTail(f.1, EndEvents(f.0.table), StreamEnd(Some(f.0.finishReason)), Refusals);
  }

  /** The table is the engine's table over every delta of every chunk, its
      entries in first-seen order, each one's arguments the concatenation
      of its fragments. */
  lemma DecodeTable(cs: seq<ChatChunk>, k: int)
    ensures var t := ChunkFold(cs).0.table; var all := AllToolDeltas(cs);
      t == TableFold(EMPTY_TABLE, all, true).0
      && TableValid(t, true)
      && t.order == NewIndices({}, all)
      && ArgumentsOf(t, k) == Concat(ArgFragments(all, k))
  {
    var all := AllToolDeltas(cs);
    ChunkFoldVars(cs);
    ChunkFoldValid(cs);
    TableFoldArguments(EMPTY_TABLE, all, true, k);
    assert ArgumentsOf(EMPTY_TABLE, k) + Concat(ArgFragments(all, k)) == Concat(ArgFragments(all, k));
    TableFoldOrder(EMPTY_TABLE, all, true);
    assert EMPTY_TABLE.calls.Keys == {};
    assert EMPTY_TABLE.order + NewIndices({}, all) == NewIndices({}, all);
  }

  /** `tool_call.start` fires exactly once for an index whose id and name
      both became non-empty, and never otherwise. */
  lemma DecodeToolStarts(cs: seq<ChatChunk>, k: int)
    ensures var t := ChunkFold(cs).0.table;
      |Select(DecodeSpec(cs).1, Starts(k))| == (if k in t.calls && Ready(t.calls[k], true) then 1 else 0)
  {
    var f := ChunkFold(cs);
    var all := AllToolDeltas(cs);
    DecodeSpecParts(cs);
    ChunkFoldVars(cs);
    SelectDropTail(f.1, EndEvents(f.0.table), StreamEnd(Some(f.0.finishReason)), Starts(k));
    ChunkFoldToolEvents(cs, Starts(k));
    TableFoldStarts(EMPTY_TABLE, all, true, k);
  }

  /** The `tool_call.delta` events for an index carry its fragments, in
      order. */
  lemma DecodeToolArgs(cs: seq<ChatChunk>, k: int)
    ensures Select(DecodeSpec(cs).1, Args(k)) == ArgEvents(k, ArgFragments(AllToolDeltas(cs), k))
  {
    var f := ChunkFold(cs);
    DecodeSpecParts(cs);
    SelectDropTail(f.1, EndEvents(f.0.table), StreamEnd(Some(f.0.finishReason)), Args(k));
    ChunkFoldToolEvents(cs, Args(k));
    TableFoldArgEvents(EMPTY_TABLE, AllToolDeltas(cs), true, k);
  }

  /** `tool_call.end` events come only at the end of the stream and list
      every entry once, in first-seen order. */
  lemma DecodeToolEnds(cs: seq<ChatChunk>)
    ensures var t := ChunkFold(cs).0.table;
      KeysIn(t.calls, t.order) && Select(DecodeSpec(cs).1, Ends) == EndEvents(t)
  {
    var f := ChunkFold(cs);
    DecodeSpecParts(cs);
    ChunkFoldNoEnds(cs);
    EndsOfClose(f.1, EndEvents(f.0.table), StreamEnd(Some(f.0.finishReason)));
  }

  lemma EndsOfClose(es: seq<StreamEvent>, ends: seq<StreamEvent>, last: StreamEvent)
    requires forall i :: 0 <= i < |es| ==> !es[i].ToolCallEnd?
    requires forall i :: 0 <= i < |ends| ==> ends[i].ToolCallEnd?
    requires last.StreamEnd?
    ensures Select(es + ends + [last], Ends) == ends
  {
    var a := es + ends;
    SelectNone(es, Ends);
    SelectAll(ends, Ends);
    SelectAppend(es, ends, Ends);
    SelectOne(last, Ends);
    SelectAppend(a, [last], Ends);
  }

  /** The final tool-call list: present exactly when some delta came, sorted
      by index, and a permutation of the entries in first-seen order. */
  lemma DecodeToolCalls(cs: seq<ChatChunk>)
    ensures var t := ChunkFold(cs).0.table; var m := DecodeSpec(cs).0;
      KeysIn(t.calls, t.order)
      && (m.tool_calls.Some? <==> |AllToolDeltas(cs)| > 0)
      && (m.tool_calls.Some? ==>
            var keys := SortInts(t.order);
            KeysIn(t.calls, keys) && SortedInts(keys) && multiset(keys) == multiset(t.order)
            && m.tool_calls.value == CallsAt(t.calls, keys)
            && multiset(m.tool_calls.value) == multiset(CallsAt(t.calls, t.order)))
  {
    var t := ChunkFold(cs).0.table;
    var all := AllToolDeltas(cs);
    DecodeSpecParts(cs);
    ChunkFoldVars(cs);
    SortedKeysIn(t.calls, t.order);
    assert |t.calls| > 0 <==> |all| > 0 by {
      if |all| > 0 {
        TableFoldKeys(EMPTY_TABLE, all, true, all[0].index);
      } else {
        assert t == EMPTY_TABLE;
      }
    }
    if |t.calls| > 0 {
      CallsAtPermutation(t.calls, SortInts(t.order), t.order);
    }
  }
}
