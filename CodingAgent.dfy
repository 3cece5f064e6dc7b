/** The coding agent's OpenAI-compatible path: buffering of streamed tool-call
    fragments by index, tool execution with the tool registry as an oracle,
    conversion of its stored messages and tool definitions to the OpenAI
    format, and the bounded `run` loop with its event stream. */
module CodingAgent {
  import opened Common

  // ---------------------------------------------------------------------
  // Streamed fragments

  /** One tool-call fragment of a streamed delta. */
  datatype CallDelta = CallDelta(index: int, id: Option<string>, name: Option<string>, arguments: Option<string>)

  /** One streamed chunk: its delta, or nothing (no choices, or no delta). */
  datatype Chunk = Chunk(content: Option<string>, toolCalls: seq<CallDelta>) | NoDelta

  /** Python truthiness of an optional string. */
  predicate NonEmpty(s: Option<string>) {
    s.Some? && s.value != ""
  }

  function OrEmpty(s: Option<string>): string {
    if s.Some? then s.value else ""
  }

  /** All tool-call fragments of a stream, in arrival order. */
  function Deltas(chunks: seq<Chunk>): seq<CallDelta> {
    if |chunks| == 0 then []
    else
      var last := chunks[|chunks| - 1];
      Deltas(chunks[..|chunks| - 1]) + (if last.Chunk? then last.toolCalls else [])
  }

  /** The text of a stream: its non-empty content pieces joined. */
  function StreamText(chunks: seq<Chunk>): string {
    if |chunks| == 0 then ""
    else
      var last := chunks[|chunks| - 1];
      StreamText(chunks[..|chunks| - 1]) + (if last.Chunk? && NonEmpty(last.content) then last.content.value else "")
  }

  /** A buffered call: `{"id", "name", "arguments"}`. */
  datatype CallData = CallData(id: string, name: string, arguments: string)

  /** `tool_calls_data`: the indices in first-seen order and the call buffered
      for each. */
  datatype Buffer = Buffer(order: seq<int>, calls: map<int, CallData>)

  predicate Distinct(s: seq<int>) {
    forall j, k :: 0 <= j < k < |s| ==> s[j] != s[k]
  }

  predicate ValidBuffer(b: Buffer) {
    && Distinct(b.order)
    && (forall k :: 0 <= k < |b.order| ==> b.order[k] in b.calls)
    && (forall idx :: idx in b.calls ==> idx in b.order)
  }

  /** How one fragment updates the buffer: a new index starts a call with
      the fragment's id; a non-empty name replaces the name; non-empty
      arguments are appended. */
  function Absorb(b: Buffer, d: CallDelta): Buffer {
    var b1 := if d.index in b.calls then b
              else Buffer(b.order + [d.index], b.calls[d.index := CallData(OrEmpty(d.id), "", "")]);
    var c := b1.calls[d.index];
    var c1 := if NonEmpty(d.name) then c.(name := d.name.value) else c;
    var c2 := if NonEmpty(d.arguments) then c1.(arguments := c1.arguments + d.arguments.value) else c1;
    Buffer(b1.order, b1.calls[d.index := c2])
  }

  function AbsorbAll(ds: seq<CallDelta>): Buffer {
    if |ds| == 0 then Buffer([], map[]) else Absorb(AbsorbAll(ds[..|ds| - 1]), ds[|ds| - 1])
  }

  /** Absorbing one more fragment of a chunk. */
  lemma AbsorbStep(before: seq<CallDelta>, ds: seq<CallDelta>, j: nat)
    requires j < |ds|
    ensures AbsorbAll(before + ds[..j + 1]) == Absorb(AbsorbAll(before + ds[..j]), ds[j])
  {
    assert (before + ds[..j + 1])[..|before| + j] == before + ds[..j];
  }

  /** The fragments carrying index `idx`, in arrival order. */
  function Of(ds: seq<CallDelta>, idx: int): (r: seq<CallDelta>)
    ensures forall k :: 0 <= k < |r| ==> r[k].index == idx
  {
    if |ds| == 0 then []
    else Of(ds[..|ds| - 1], idx) + (if ds[|ds| - 1].index == idx then [ds[|ds| - 1]] else [])
  }

  /** The concatenation of the non-empty argument fragments. */
  function Fragments(fs: seq<CallDelta>): string {
    if |fs| == 0 then ""
    else Fragments(fs[..|fs| - 1]) + (if NonEmpty(fs[|fs| - 1].arguments) then fs[|fs| - 1].arguments.value else "")
  }

  /** The last non-empty name fragment, or "". */
  function LastName(fs: seq<CallDelta>): string {
    if |fs| == 0 then ""
    else if NonEmpty(fs[|fs| - 1].name) then fs[|fs| - 1].name.value
    else LastName(fs[..|fs| - 1])
  }

  /** The indices in the order they first appear. */
  function FirstSeen(ds: seq<CallDelta>): seq<int> {
    if |ds| == 0 then []
    else
      var prefix := FirstSeen(ds[..|ds| - 1]);
      prefix + (if |Of(ds[..|ds| - 1], ds[|ds| - 1].index)| == 0 then [ds[|ds| - 1].index] else [])
  }

  /** The buffer is well formed, lists the indices in first-seen order and
      holds a call exactly for the indices that appeared. */
  lemma {:induction false} AbsorbAllOrder(ds: seq<CallDelta>)
    ensures ValidBuffer(AbsorbAll(ds))
    ensures AbsorbAll(ds).order == FirstSeen(ds)
    ensures forall idx :: idx in AbsorbAll(ds).calls <==> |Of(ds, idx)| > 0
  {
    if |ds| > 0 {
      var pre := ds[..|ds| - 1];
      var d := ds[|ds| - 1];
      AbsorbAllOrder(pre);
      var b := AbsorbAll(pre);
      assert AbsorbAll(ds) == Absorb(b, d);
      AbsorbKeeps(b, d);
      assert |Of(pre, d.index)| == 0 <==> d.index !in b.calls;
      forall idx
        ensures idx in AbsorbAll(ds).calls <==> |Of(ds, idx)| > 0
      {
        if idx == d.index {
          assert |Of(ds, idx)| == |Of(pre, idx)| + 1;
        } else {
          assert Of(ds, idx) == Of(pre, idx);
        }
      }
    }
  }

  /** One fragment keeps the buffer well formed, appends its index to the
      order when it is new, and adds exactly that index to the calls. */
  lemma AbsorbKeeps(b: Buffer, d: CallDelta)
    requires ValidBuffer(b)
    ensures ValidBuffer(Absorb(b, d))
    ensures Absorb(b, d).order == b.order + (if d.index in b.calls then [] else [d.index])
    ensures Absorb(b, d).calls.Keys == b.calls.Keys + {d.index}
  {
  }

  /** The call buffered for an index that appeared: the first fragment's id,
      the last non-empty name and all argument fragments in order. */
  lemma {:induction false} AbsorbAllCall(ds: seq<CallDelta>, idx: int)
    requires |Of(ds, idx)| > 0
    ensures idx in AbsorbAll(ds).calls
    ensures AbsorbAll(ds).calls[idx] == CallData(OrEmpty(Of(ds, idx)[0].id), LastName(Of(ds, idx)), Fragments(Of(ds, idx)))
  {
    var pre := ds[..|ds| - 1];
    var d := ds[|ds| - 1];
    AbsorbAllOrder(pre);
    var o := Of(pre, idx);
    if |o| > 0 {
      AbsorbAllCall(pre, idx);
    }
    assert Of(ds, idx) == o + (if d.index == idx then [d] else []);
    AbsorbCallStep(AbsorbAll(pre), d, idx, o);
  }

  /** One fragment and the call buffered for `idx`, given the fragments `o`
      of `idx` seen before it. */
  lemma AbsorbCallStep(b: Buffer, d: CallDelta, idx: int, o: seq<CallDelta>)
    requires idx in b.calls <==> |o| > 0
    requires |o| > 0 ==> b.calls[idx] == CallData(OrEmpty(o[0].id), LastName(o), Fragments(o))
    requires |o| > 0 || d.index == idx
    ensures var q := o + (if d.index == idx then [d] else []);
      idx in Absorb(b, d).calls && Absorb(b, d).calls[idx] == CallData(OrEmpty(q[0].id), LastName(q), Fragments(q))
  {
    if d.index == idx {
      var q := o + [d];
      assert q[..|q| - 1] == o;
      if |o| > 0 {
        assert q[0] == o[0];
      } else {
        assert q == [d] && q[..0] == [];
      }
    } else {
      assert o + [] == o;
    }
  }

  /** What the buffer holds after a stream: a call for every index that
      appeared and no other, listed in first-seen order, whose id is that of
      the first fragment for the index, whose name is the last non-empty
      name fragment and whose arguments are all its argument fragments
      concatenated in arrival order. */
  lemma AbsorbAllMeaning(ds: seq<CallDelta>)
    ensures ValidBuffer(AbsorbAll(ds))
    ensures AbsorbAll(ds).order == FirstSeen(ds)
    ensures forall idx :: idx in AbsorbAll(ds).calls <==> |Of(ds, idx)| > 0
    ensures forall idx :: idx in AbsorbAll(ds).calls ==>
      AbsorbAll(ds).calls[idx] == CallData(OrEmpty(Of(ds, idx)[0].id), LastName(Of(ds, idx)), Fragments(Of(ds, idx)))
  {
    AbsorbAllOrder(ds);
    forall idx | idx in AbsorbAll(ds).calls
      ensures AbsorbAll(ds).calls[idx] == CallData(OrEmpty(Of(ds, idx)[0].id), LastName(Of(ds, idx)), Fragments(Of(ds, idx)))
    {
      AbsorbAllCall(ds, idx);
    }
  }

  /** Two fragments of one call's arguments arriving in separate chunks are
      joined into one JSON text. */
  lemma ArgumentsJoined()
    ensures var ds := [CallDelta(0, Some("call_1"), Some("search"), Some("{\"query\":")),
                       CallDelta(0, None, None, Some("\"hello\"}"))];
      AbsorbAll(ds).calls[0] == CallData("call_1", "search", "{\"query\":\"hello\"}")
  {
    var ds := [CallDelta(0, Some("call_1"), Some("search"), Some("{\"query\":")),
               CallDelta(0, None, None, Some("\"hello\"}"))];
    assert ds[..1] == [ds[0]];
    assert ds[..1][..0] == [];
  }

  /** The buffered calls in first-seen order. */
  function CallsOf(b: Buffer): (r: seq<CallData>)
    ensures |r| == |b.order|
  {
    seq(|b.order|, k requires 0 <= k < |b.order| =>
      if b.order[k] in b.calls then b.calls[b.order[k]] else CallData("", "", ""))
  }

  // ---------------------------------------------------------------------
  // Messages and their OpenAI form

  /** An item of a user message whose content is a list. */
  datatype Item = ToolResultItem(toolUseId: Option<string>, content: Option<Json>) | OtherItem(itemType: string)

  /** A message as the agent stores it. */
  datatype Stored =
    | UserText(text: string)
    | UserItems(items: seq<Item>)
    | Assistant(text: string, toolCalls: seq<CallData>)
    | ToolResult(toolCallId: string, result: Json)

  datatype FunctionCall = FunctionCall(id: string, name: string, arguments: string)

  /** A message in the OpenAI format; a tool call is always of type "function". */
  datatype OaMessage =
    | OaSystem(content: string)
    | OaUser(content: string)
    | OaAssistant(content: string, toolCalls: seq<FunctionCall>)
    | OaTool(toolCallId: string, result: Json)

  function ItemMessages(items: seq<Item>): (r: seq<OaMessage>)
    ensures |r| <= |items|
    ensures forall k :: 0 <= k < |r| ==> r[k].OaTool?
  {
    if |items| == 0 then []
    else
      var rest := ItemMessages(items[1..]);
      match items[0]
      case ToolResultItem(id, content) =>
        [OaTool(OrEmpty(id), if content.Some? then content.value else JStr(""))] + rest
      case OtherItem(_) => rest
  }

  function Wrap(c: CallData): FunctionCall {
    FunctionCall(c.id, c.name, c.arguments)
  }

  /** The OpenAI messages one stored message becomes. */
  function Convert(m: Stored): (r: seq<OaMessage>)
    ensures forall k :: 0 <= k < |r| ==> !r[k].OaSystem?
    ensures !m.UserItems? ==> |r| == 1
  {
    match m
    case UserText(t) => [OaUser(t)]
    case UserItems(items) => ItemMessages(items)
    case Assistant(t, calls) =>
      [OaAssistant(t, seq(|calls|, k requires 0 <= k < |calls| => Wrap(calls[k])))]
    case ToolResult(id, result) => [OaTool(id, result)]
  }

  function ConvertAll(ms: seq<Stored>): (r: seq<OaMessage>)
    ensures forall k :: 0 <= k < |r| ==> !r[k].OaSystem?
  {
    if |ms| == 0 then [] else ConvertAll(ms[..|ms| - 1]) + Convert(ms[|ms| - 1])
  }

  /** `_convert_to_openai_format`. */
  function ToOpenAi(prompt: string, ms: seq<Stored>): (r: seq<OaMessage>)
    ensures |r| >= 1 && r[0] == OaSystem(prompt)
    ensures forall k :: 1 <= k < |r| ==> !r[k].OaSystem?
  {
    [OaSystem(prompt)] + ConvertAll(ms)
  }

  /** A history written by the OpenAI path (no item lists) converts one
      message to one message: user text stays user text, assistant calls
      keep id, name and arguments, tool results keep their call id. */
  lemma {:induction false} ToOpenAiOneToOne(prompt: string, ms: seq<Stored>)
    requires forall k :: 0 <= k < |ms| ==> !ms[k].UserItems?
    ensures |ToOpenAi(prompt, ms)| == 1 + |ms|
    ensures forall k :: 0 <= k < |ms| ==> ToOpenAi(prompt, ms)[k + 1] == Convert(ms[k])[0]
  {
    ConvertAllOneToOne(ms);
    var c := ConvertAll(ms);
    assert ToOpenAi(prompt, ms) == [OaSystem(prompt)] + c;
    forall k | 0 <= k < |ms|
      ensures ToOpenAi(prompt, ms)[k + 1] == Convert(ms[k])[0]
    {
      assert ([OaSystem(prompt)] + c)[k + 1] == c[k];
    }
  }

  lemma {:induction false} ConvertAllOneToOne(ms: seq<Stored>)
    requires forall k :: 0 <= k < |ms| ==> !ms[k].UserItems?
    ensures |ConvertAll(ms)| == |ms|
    ensures forall k :: 0 <= k < |ms| ==> ConvertAll(ms)[k] == Convert(ms[k])[0]
  {
    if |ms| > 0 {
      ConvertAllOneToOne(ms[..|ms| - 1]);
    }
  }

  /** A user message with an item list becomes one tool message per
      `tool_result` item, in order; other items are dropped. */
  lemma {:induction false} ItemMessagesCount(items: seq<Item>)
    ensures |ItemMessages(items)| == |ToolResultItems(items)|
    ensures forall k :: 0 <= k < |ItemMessages(items)| ==>
      ItemMessages(items)[k].toolCallId == OrEmpty(ToolResultItems(items)[k].toolUseId)
  {
    if |items| > 0 {
      var rest := items[1..];
      ItemMessagesCount(rest);
      var ms, rs := ItemMessages(rest), ToolResultItems(rest);
      if items[0].ToolResultItem? {
        var m := OaTool(OrEmpty(items[0].toolUseId), if items[0].content.Some? then items[0].content.value else JStr(""));
        assert ItemMessages(items) == [m] + ms;
        assert ToolResultItems(items) == [items[0]] + rs;
      } else {
        assert ItemMessages(items) == ms;
        assert ToolResultItems(items) == [] + rs == rs;
      }
    }
  }

  function ToolResultItems(items: seq<Item>): (r: seq<Item>)
    ensures forall k :: 0 <= k < |r| ==> r[k].ToolResultItem?
  {
    if |items| == 0 then []
    else (if items[0].ToolResultItem? then [items[0]] else []) + ToolResultItems(items[1..])
  }

  /** A tool definition in the Anthropic format and in the OpenAI format. */
  datatype ToolSpec = ToolSpec(name: string, description: string, inputSchema: Json)
  datatype FunctionTool = FunctionTool(name: string, description: string, parameters: Json)

  /** `_convert_tools_to_openai_format`. */
  function ConvertTools(tools: seq<ToolSpec>): (r: seq<FunctionTool>)
    ensures |r| == |tools|
    ensures forall k :: 0 <= k < |tools| ==>
      r[k].name == tools[k].name && r[k].description == tools[k].description
      && r[k].parameters == tools[k].inputSchema
  {
    seq(|tools|, k requires 0 <= k < |tools| => FunctionTool(tools[k].name, tools[k].description, tools[k].inputSchema))
  }

  /** The conversion loses nothing: different definitions convert differently. */
  lemma ConvertToolsInjective(a: seq<ToolSpec>, b: seq<ToolSpec>)
    requires ConvertTools(a) == ConvertTools(b)
    ensures a == b
  {
    assert |a| == |b|;
    forall k | 0 <= k < |a| ensures a[k] == b[k] {
      assert ConvertTools(a)[k] == ConvertTools(b)[k];
    }
  }

  // ---------------------------------------------------------------------
  // One iteration and the run loop

  /** What the tool registry does with one call: a result dictionary, or an
      exception. */
  datatype ToolOutcome = Returned(result: Json) | Raised(message: string)

  /** The provider's side of one iteration: the streamed chunks, the
      exception the stream raised after them (if any), what `json.loads`
      makes of each buffered call's arguments, and each call's outcome. */
  datatype Turn = Turn(chunks: seq<Chunk>, failure: Option<string>, parsed: seq<Option<Json>>, outcomes: seq<ToolOutcome>)

  function TurnAt(turns: seq<Turn>, i: nat): Turn {
    if i < |turns| then turns[i] else Turn([], Some("no scripted reply"), [], [])
  }

  /** The input of the `k`-th call: malformed JSON becomes `{}`. */
  function InputAt(turn: Turn, k: nat): Json {
    if k < |turn.parsed| && turn.parsed[k].Some? then turn.parsed[k].value else JObj(map[])
  }

  /** The result dictionary of the `k`-th call; an exception becomes
      `{"error", "tool"}`. */
  function ResultAt(turn: Turn, k: nat, name: string): (r: Json)
    ensures k < |turn.outcomes| && turn.outcomes[k].Returned? ==> r == turn.outcomes[k].result
  {
    var outcome := if k < |turn.outcomes| then turn.outcomes[k] else Raised("no scripted result");
    match outcome
    case Returned(result) => result
    case Raised(m) => JObj(map["error" := JStr(m), "tool" := JStr(name)])
  }

  datatype Event =
    | UserMessageEvent(content: string, timestamp: string)
    | IterationStart(iteration: nat)
    | TextDelta(delta: string, accumulated: string)
    | ToolCallEvent(tool: string, input: Json)
    | ToolExecutionStart(tool: string, input: Json)
    | ToolExecutionComplete(tool: string, result: Json)
    | IterationEnd(iteration: nat)
    | Done(finalMessage: Stored)
    | ErrorEvent(error: string)
    | MaxIterationsReached(maxIterations: int)

  /** The events that end `run`. */
  predicate Terminal(e: Event) {
    e.Done? || e.ErrorEvent? || e.MaxIterationsReached?
  }

  function Last(events: seq<Event>): Event
    requires |events| >= 1
  {
    events[|events| - 1]
  }

  predicate NoTerminal(events: seq<Event>) {
    forall k :: 0 <= k < |events| ==> !Terminal(events[k])
  }

  /** The stream ends with a terminal event and has no other. */
  predicate Ends(events: seq<Event>) {
    |events| >= 1 && Terminal(Last(events)) && NoTerminal(events[..|events| - 1])
  }

  lemma EndsAfter(a: seq<Event>, b: seq<Event>)
    requires NoTerminal(a) && Ends(b)
    ensures Ends(a + b) && Last(a + b) == Last(b)
  {
    assert (a + b)[..|a + b| - 1] == a + b[..|b| - 1];
  }

  /** A `text_delta` event per non-empty content piece, with the text so far. */
  function TextEvents(chunks: seq<Chunk>): seq<Event> {
    if |chunks| == 0 then []
    else
      var last := chunks[|chunks| - 1];
      TextEvents(chunks[..|chunks| - 1])
      + (if last.Chunk? && NonEmpty(last.content) then [TextDelta(last.content.value, StreamText(chunks))] else [])
  }

  /** What one more chunk adds to the text, the text events and the
      fragments. */
  lemma ChunkStep(chunks: seq<Chunk>, i: nat)
    requires i < |chunks|
    ensures var c := chunks[i];
      var grows := c.Chunk? && NonEmpty(c.content);
      && StreamText(chunks[..i + 1]) == StreamText(chunks[..i]) + (if grows then c.content.value else "")
      && TextEvents(chunks[..i + 1])
         == TextEvents(chunks[..i]) + (if grows then [TextDelta(c.content.value, StreamText(chunks[..i + 1]))] else [])
      && Deltas(chunks[..i + 1]) == Deltas(chunks[..i]) + (if c.Chunk? then c.toolCalls else [])
  {
    assert chunks[..i + 1][..i] == chunks[..i];
  }

  /** Every text event carries a non-empty piece and the text accumulated
      up to and including it, which is a prefix of the whole text. */
  lemma {:induction false} TextEventsMeaning(chunks: seq<Chunk>)
    ensures forall k :: 0 <= k < |TextEvents(chunks)| ==>
      && TextEvents(chunks)[k].TextDelta?
      && TextEvents(chunks)[k].delta != ""
      && TextEvents(chunks)[k].accumulated <= StreamText(chunks)
  {
    if |chunks| > 0 {
      var pre := chunks[..|chunks| - 1];
      TextEventsMeaning(pre);
      assert StreamText(pre) <= StreamText(chunks);
    }
  }

  /** The three events of the `k`-th call. */
  function CallEvents(c: CallData, turn: Turn, k: nat): seq<Event> {
    [ToolCallEvent(c.name, InputAt(turn, k)), ToolExecutionStart(c.name, InputAt(turn, k)),
     ToolExecutionComplete(c.name, ResultAt(turn, k, c.name))]
  }

  /** The events of the first `n` calls. */
  function ExecEvents(calls: seq<CallData>, turn: Turn, n: nat): seq<Event>
    requires n <= |calls|
  {
    if n == 0 then [] else ExecEvents(calls, turn, n - 1) + CallEvents(calls[n - 1], turn, n - 1)
  }

  /** Three events per call, none of which ends the run; the `k`-th call's
      completion event carries its result. */
  lemma {:induction false} ExecEventsMeaning(calls: seq<CallData>, turn: Turn, n: nat)
    requires n <= |calls|
    ensures |ExecEvents(calls, turn, n)| == 3 * n
    ensures NoTerminal(ExecEvents(calls, turn, n))
    ensures forall k :: 0 <= k < n ==>
      ExecEvents(calls, turn, n)[3 * k + 2] == ToolExecutionComplete(calls[k].name, ResultAt(turn, k, calls[k].name))
  {
    if n > 0 {
      ExecEventsMeaning(calls, turn, n - 1);
    }
  }

  /** One tool message per call, in order, carrying the call's id. */
  function ToolMessages(calls: seq<CallData>, turn: Turn): seq<Stored> {
    seq(|calls|, k requires 0 <= k < |calls| => ToolResult(calls[k].id, ResultAt(turn, k, calls[k].name)))
  }

  /** Exactly one tool message per call, in call order, carrying the call's
      id and the result its completion event reported. */
  lemma ToolMessagesMeaning(calls: seq<CallData>, turn: Turn)
    ensures |ToolMessages(calls, turn)| == |calls|
    ensures |ExecEvents(calls, turn, |calls|)| == 3 * |calls|
    ensures forall k :: 0 <= k < |calls| ==>
      && ToolMessages(calls, turn)[k].toolCallId == calls[k].id
      && ExecEvents(calls, turn, |calls|)[3 * k + 2] == ToolExecutionComplete(calls[k].name, ToolMessages(calls, turn)[k].result)
  {
    ExecEventsMeaning(calls, turn, |calls|);
  }

  function HintMessage(hint: string): Stored {
    UserText("<system_hint>\n" + hint + "\n</system_hint>")
  }

  /** What one iteration yields, leaves in the history, and sends. */
  datatype StepResult = StepResult(events: seq<Event>, messages: seq<Stored>, stop: bool)

  /** One iteration of `run` on the OpenAI path, from history `ms`. */
  function Iteration(ms: seq<Stored>, turn: Turn, i: nat): (r: StepResult)
  {
    var opening := [IterationStart(i + 1)] + TextEvents(turn.chunks);
    if turn.failure.Some? then
      StepResult(opening + [ErrorEvent(turn.failure.value)], ms, true)
    else
      var calls := CallsOf(AbsorbAll(Deltas(turn.chunks)));
      var assistant := Assistant(StreamText(turn.chunks), calls);
      if |calls| == 0 then
        StepResult(opening + [Done(assistant)], ms + [assistant], true)
      else
        StepResult(opening + ExecEvents(calls, turn, |calls|) + [IterationEnd(i + 1)],
                   ms + [assistant] + ToolMessages(calls, turn), false)
  }

  /** An iteration opens with `iteration_start` and ends with a terminal
      event exactly when it stops the run: `error` when the stream raised
      (the history is then unchanged), `done` when no call was buffered;
      otherwise the history gains the assistant message with the buffered
      calls and one tool message per call. */
  lemma IterationEvents(ms: seq<Stored>, turn: Turn, i: nat)
    ensures var r := Iteration(ms, turn, i);
      && |r.events| >= 2 && r.events[0] == IterationStart(i + 1)
      && (r.stop ==> Ends(r.events) && !Last(r.events).MaxIterationsReached?)
      && (!r.stop ==> NoTerminal(r.events))
  {
    var r := Iteration(ms, turn, i);
    var opening := [IterationStart(i + 1)] + TextEvents(turn.chunks);
    TextEventsMeaning(turn.chunks);
    assert NoTerminal(opening);
    if turn.failure.Some? {
      assert r.events == opening + [ErrorEvent(turn.failure.value)];
    } else {
      var calls := CallsOf(AbsorbAll(Deltas(turn.chunks)));
      if |calls| == 0 {
        assert r.events == opening + [Done(Assistant(StreamText(turn.chunks), calls))];
      } else {
        var middle := ExecEvents(calls, turn, |calls|);
        ExecEventsMeaning(calls, turn, |calls|);
        assert r.events == (opening + middle) + [IterationEnd(i + 1)];
      }
    }
  }

  lemma IterationHistory(ms: seq<Stored>, turn: Turn, i: nat)
    ensures var r := Iteration(ms, turn, i);
      && (turn.failure.Some? ==> r.stop && r.messages == ms && r.events[|r.events| - 1] == ErrorEvent(turn.failure.value))
      && (turn.failure.None? ==>
            && ValidBuffer(AbsorbAll(Deltas(turn.chunks)))
            && var calls := CallsOf(AbsorbAll(Deltas(turn.chunks)));
            && r.messages == ms + [Assistant(StreamText(turn.chunks), calls)] + ToolMessages(calls, turn)
            && (r.stop <==> |calls| == 0))
  {
    AbsorbAllMeaning(Deltas(turn.chunks));
  }

  function HintAt(hints: seq<string>, i: nat): string {
    if i < |hints| then hints[i] else ""
  }

  /** `for iteration in range(max_iterations)` runs no pass for a bound of 0 or less. */
  function Bound(maxIterations: int): (b: nat)
    ensures maxIterations >= 0 ==> b == maxIterations
    ensures maxIterations < 0 ==> b == 0
  {
    if maxIterations < 0 then 0 else maxIterations
  }

  /** The events yielded, the history left, and for each pass the message
      list (history plus hint) that is converted with `ToOpenAi` and sent. */
  datatype Trace = Trace(events: seq<Event>, messages: seq<Stored>, requests: seq<seq<Stored>>)

  /** The rest of `run` from pass `i` on, with history `ms`, for a pass
      function `step` (history and pass number to what the pass does). */
  function RunWith(step: (seq<Stored>, nat) -> StepResult, ms: seq<Stored>, hints: seq<string>,
                   bound: nat, maxIterations: int, i: nat): Trace
    requires i <= bound
    decreases bound - i
  {
    if i == bound then Trace([MaxIterationsReached(maxIterations)], ms, [])
    else
      var s := step(ms, i);
      var request := ms + [HintMessage(HintAt(hints, i))];
      if s.stop then Trace(s.events, s.messages, [request])
      else
        var rest := RunWith(step, s.messages, hints, bound, maxIterations, i + 1);
        Trace(s.events + rest.events, rest.messages, [request] + rest.requests)
  }

  /** The pass function of the OpenAI path. */
  function Pass(turns: seq<Turn>): (seq<Stored>, nat) -> StepResult {
    (ms: seq<Stored>, j: nat) => Iteration(ms, TurnAt(turns, j), j)
  }

  /** The rest of `run` from pass `i` on. */
  function RunFrom(ms: seq<Stored>, turns: seq<Turn>, hints: seq<string>, maxIterations: int, i: nat): Trace
    requires i <= Bound(maxIterations)
  {
    RunWith(Pass(turns), ms, hints, Bound(maxIterations), maxIterations, i)
  }

  /** What every pass guarantees: it opens with `iteration_start`, ends
      with a terminal event (never `max_iterations_reached`) exactly when it
      stops the run, and only appends non-user messages to the history. */
  predicate PassShape(ms: seq<Stored>, r: StepResult, j: nat) {
    && |r.events| >= 2 && r.events[0] == IterationStart(j + 1)
    && (r.stop ==> Ends(r.events) && !Last(r.events).MaxIterationsReached?)
    && (!r.stop ==> NoTerminal(r.events))
    && GrowsWithoutUserText(ms, r.messages)
  }

  ghost predicate GoodPass(step: (seq<Stored>, nat) -> StepResult) {
    forall ms: seq<Stored>, j: nat :: PassShape(ms, step(ms, j), j)
  }

  lemma PassIsGood(turns: seq<Turn>)
    ensures GoodPass(Pass(turns))
  {
    forall ms: seq<Stored>, j: nat ensures PassShape(ms, Pass(turns)(ms, j), j) {
      IterationEvents(ms, TurnAt(turns, j), j);
      IterationGrows(ms, TurnAt(turns, j), j);
    }
  }

  lemma {:induction false} RunWithEvents(step: (seq<Stored>, nat) -> StepResult, ms: seq<Stored>, hints: seq<string>,
                                         bound: nat, maxIterations: int, i: nat)
    requires i <= bound && GoodPass(step)
    ensures var t := RunWith(step, ms, hints, bound, maxIterations, i);
      && |t.requests| <= bound - i
      && Ends(t.events)
      && (Last(t.events).MaxIterationsReached? ==> |t.requests| == bound - i)
      && GrowsWithoutUserText(ms, t.messages)
    decreases bound - i
  {
    var t := RunWith(step, ms, hints, bound, maxIterations, i);
    if i == bound {
      assert t.events[..0] == [];
    } else {
      var s := step(ms, i);
      assert PassShape(ms, s, i);
      if !s.stop {
        RunWithEvents(step, s.messages, hints, bound, maxIterations, i + 1);
        var rest := RunWith(step, s.messages, hints, bound, maxIterations, i + 1);
        EndsAfter(s.events, rest.events);
      }
    }
  }

  /** One pass of `RunWith`: its events come first, its request is the
      history plus its hint, and a pass that does not stop hands its history
      to the next. */
  lemma RunWithStep(step: (seq<Stored>, nat) -> StepResult, ms: seq<Stored>, hints: seq<string>,
                    bound: nat, maxIterations: int, i: nat)
    requires i < bound
    ensures var s := step(ms, i);
      var t := RunWith(step, ms, hints, bound, maxIterations, i);
      var request := ms + [HintMessage(HintAt(hints, i))];
      if s.stop then t == Trace(s.events, s.messages, [request])
      else var rest := RunWith(step, s.messages, hints, bound, maxIterations, i + 1);
        t == Trace(s.events + rest.events, rest.messages, [request] + rest.requests)
  {
  }

  /** What one pass adds to the events and requests gathered so far: the
      gathered lists followed by the rest of the run are unchanged. */
  lemma TraceStep(events: seq<Event>, requests: seq<seq<Stored>>, s: StepResult, request: seq<Stored>,
                  t: Trace, rest: Trace)
    requires s.stop ==> t == Trace(s.events, s.messages, [request])
    requires !s.stop ==> t == Trace(s.events + rest.events, rest.messages, [request] + rest.requests)
    ensures s.stop ==> events + s.events == events + t.events && requests + [request] == requests + t.requests
    ensures !s.stop ==>
      (events + s.events) + rest.events == events + t.events
      && (requests + [request]) + rest.requests == requests + t.requests
  {
    if !s.stop {
      AppendAssoc(events, s.events, rest.events);
      AppendAssoc(requests, [request], rest.requests);
    }
  }

  /** Each request ends with the hint of its pass, counting passes from `i`. */
  predicate HintsFrom(requests: seq<seq<Stored>>, hints: seq<string>, i: nat) {
    forall k :: 0 <= k < |requests| ==> EndsWithHint(requests[k], HintAt(hints, i + k))
  }

  lemma {:induction false} RunWithRequests(step: (seq<Stored>, nat) -> StepResult, ms: seq<Stored>, hints: seq<string>,
                                           bound: nat, maxIterations: int, i: nat)
    requires i <= bound
    ensures HintsFrom(RunWith(step, ms, hints, bound, maxIterations, i).requests, hints, i)
    decreases bound - i
  {
    if i < bound {
      var s := step(ms, i);
      var t := RunWith(step, ms, hints, bound, maxIterations, i);
      if !s.stop {
        RunWithRequests(step, s.messages, hints, bound, maxIterations, i + 1);
        var rest := RunWith(step, s.messages, hints, bound, maxIterations, i + 1);
        assert t.requests == [ms + [HintMessage(HintAt(hints, i))]] + rest.requests;
        forall k | 0 <= k < |t.requests| ensures EndsWithHint(t.requests[k], HintAt(hints, i + k)) {
          if k > 0 {
            assert t.requests[k] == rest.requests[k - 1];
            assert i + k == (i + 1) + (k - 1);
          }
        }
      }
    }
  }

  /** `run` makes at most `max_iterations` passes, one request per pass, and
      exactly one terminal event ends the stream: `done`, `error`, or
      `max_iterations_reached` — the last only when every pass ran and
      neither of the others ended it. The history only grows, by assistant
      and tool messages. */
  lemma RunEvents(ms: seq<Stored>, turns: seq<Turn>, hints: seq<string>, maxIterations: int)
    ensures var t := RunFrom(ms, turns, hints, maxIterations, 0);
      && |t.requests| <= Bound(maxIterations)
      && Ends(t.events)
      && (Last(t.events).MaxIterationsReached? ==> |t.requests| == Bound(maxIterations))
      && GrowsWithoutUserText(ms, t.messages)
  {
    PassIsGood(turns);
    RunWithEvents(Pass(turns), ms, hints, Bound(maxIterations), maxIterations, 0);
  }

  /** `ms2` is `ms` followed by messages none of which is user text. */
  predicate GrowsWithoutUserText(ms: seq<Stored>, ms2: seq<Stored>) {
    ms <= ms2 && forall k :: |ms| <= k < |ms2| ==> !ms2[k].UserText?
  }

  /** The pass's message list is the history followed by its hint, so the
      converted request ends with the hint as a user message. */
  predicate EndsWithHint(request: seq<Stored>, hint: string) {
    |request| >= 1 && request[|request| - 1] == HintMessage(hint)
  }

  /** The `k`-th request is the history followed by the `k`-th hint, and the
      hint never enters the history: a hint-free history stays hint-free. */
  lemma RunHint(ms: seq<Stored>, turns: seq<Turn>, hints: seq<string>, maxIterations: int)
    ensures HintsFrom(RunFrom(ms, turns, hints, maxIterations, 0).requests, hints, 0)
    ensures HintFree(ms) ==> HintFree(RunFrom(ms, turns, hints, maxIterations, 0).messages)
  {
    RunWithRequests(Pass(turns), ms, hints, Bound(maxIterations), maxIterations, 0);
    RunEvents(ms, turns, hints, maxIterations);
  }

  /** A hint message: user text wrapped in `<system_hint>` tags. */
  predicate IsHint(m: Stored) {
    m.UserText? && StartsWith(m.text, "<system_hint>\n")
  }

  predicate HintFree(ms: seq<Stored>) {
    forall k :: 0 <= k < |ms| ==> !IsHint(ms[k])
  }

  /** The request of a pass ends with the hint. */
  lemma HintRequest(prompt: string, ms: seq<Stored>, hint: string)
    ensures var r := ToOpenAi(prompt, ms + [HintMessage(hint)]);
      |r| >= 2 && r[|r| - 1] == OaUser(HintMessage(hint).text)
  {
    var ms' := ms + [HintMessage(hint)];
    assert ms'[..|ms'| - 1] == ms;
  }

  /** An iteration only appends assistant and tool messages. */
  lemma IterationGrows(ms: seq<Stored>, turn: Turn, i: nat)
    ensures GrowsWithoutUserText(ms, Iteration(ms, turn, i).messages)
  {
    IterationHistory(ms, turn, i);
  }

  class Agent {
    var messages: seq<Stored>
    const systemPrompt: string
    const tools: seq<ToolSpec>

    constructor(systemPrompt: string, tools: seq<ToolSpec>)
      ensures messages == [] && this.systemPrompt == systemPrompt && this.tools == tools
    {
      this.systemPrompt := systemPrompt;
      this.tools := tools;
      messages := [];
    }

    /** Reads the stream: accumulates the text, yields a `text_delta` per
        non-empty piece, and buffers the tool-call fragments by index. */
    method ReadStream(chunks: seq<Chunk>) returns (text: string, events: seq<Event>, buffer: Buffer)
      ensures text == StreamText(chunks)
      ensures events == TextEvents(chunks)
      ensures buffer == AbsorbAll(Deltas(chunks))
    {
      text, events, buffer := "", [], Buffer([], map[]);
      for i := 0 to |chunks|
        invariant text == StreamText(chunks[..i])
        invariant events == TextEvents(chunks[..i])
        invariant buffer == AbsorbAll(Deltas(chunks[..i]))
      {
        ChunkStep(chunks, i);
        var chunk := chunks[i];
        if chunk.NoDelta? {
          assert Deltas(chunks[..i + 1]) == Deltas(chunks[..i]);
          continue;
        }
        if NonEmpty(chunk.content) {
          text := text + chunk.content.value;
          events := events + [TextDelta(chunk.content.value, text)];
        }
        ghost var before := Deltas(chunks[..i]);
        assert before + chunk.toolCalls[..0] == before;
        for j := 0 to |chunk.toolCalls|
          invariant buffer == AbsorbAll(before + chunk.toolCalls[..j])
        {
          AbsorbStep(before, chunk.toolCalls, j);
          buffer := AbsorbOne(buffer, chunk.toolCalls[j]);
        }
        assert before + chunk.toolCalls[..|chunk.toolCalls|] == Deltas(chunks[..i + 1]);
      }
      assert chunks[..|chunks|] == chunks;
    }

    /** The buffer update for one fragment, step by step. */
    static method AbsorbOne(b: Buffer, d: CallDelta) returns (r: Buffer)
      ensures r == Absorb(b, d)
    {
      r := b;
      if d.index !in r.calls {
        r := Buffer(r.order + [d.index], r.calls[d.index := CallData(OrEmpty(d.id), "", "")]);
      }
      if NonEmpty(d.name) {
        r := r.(calls := r.calls[d.index := r.calls[d.index].(name := d.name.value)]);
      }
      if NonEmpty(d.arguments) {
        var c := r.calls[d.index];
        r := r.(calls := r.calls[d.index := c.(arguments := c.arguments + d.arguments.value)]);
      }
    }

    /** Runs the buffered calls in order: one `tool` message each. */
    method ExecuteCalls(calls: seq<CallData>, turn: Turn) returns (events: seq<Event>, results: seq<Stored>)
      ensures events == ExecEvents(calls, turn, |calls|)
      ensures results == ToolMessages(calls, turn)
    {
      events, results := [], [];
      for k := 0 to |calls|
        invariant events == ExecEvents(calls, turn, k)
        invariant results == ToolMessages(calls[..k], turn)
      {
        var c := calls[k];
        var input := InputAt(turn, k);
        var result := ResultAt(turn, k, c.name);
        events := events + [ToolCallEvent(c.name, input), ToolExecutionStart(c.name, input),
                            ToolExecutionComplete(c.name, result)];
        results := results + [ToolResult(c.id, result)];
      }
      assert calls[..|calls|] == calls;
    }

    /** `_run_openai_iteration` with the request it sends; `self.messages`
        is updated as `Iteration` says. */
    method RunIteration(turn: Turn, hint: string, i: nat) returns (events: seq<Event>, request: seq<Stored>, stop: bool)
      modifies this`messages
      ensures request == old(messages) + [HintMessage(hint)]
      ensures var s := Iteration(old(messages), turn, i);
        events == s.events && stop == s.stop && messages == s.messages
    {
      request := messages + [HintMessage(hint)];
      var text, textEvents, buffer := ReadStream(turn.chunks);
      events := [IterationStart(i + 1)] + textEvents;
      if turn.failure.Some? {
        return events + [ErrorEvent(turn.failure.value)], request, true;
      }
      var calls := CallsOf(buffer);
      var assistant := Assistant(text, calls);
      messages := messages + [assistant];
      if |calls| == 0 {
        return events + [Done(assistant)], request, true;
      }
      var callEvents, results := ExecuteCalls(calls, turn);
      messages := messages + results;
      events := events + callEvents + [IterationEnd(i + 1)];
      stop := false;
    }

    /** `run`: the user message is stored with its timestamp, then the
        passes run as `RunFrom` says. */
    method Run(userMessage: string, timestamp: string, maxIterations: int, turns: seq<Turn>, hints: seq<string>)
      returns (events: seq<Event>, requests: seq<seq<Stored>>)
      modifies this`messages
      ensures var t := RunFrom(old(messages) + [UserText("[" + timestamp + "] " + userMessage)], turns, hints, maxIterations, 0);
        events == [UserMessageEvent(userMessage, timestamp)] + t.events
        && requests == t.requests && messages == t.messages
    {
      messages := messages + [UserText("[" + timestamp + "] " + userMessage)];
      ghost var start := messages;
      ghost var step := Pass(turns);
      events := [UserMessageEvent(userMessage, timestamp)];
      requests := [];
      var bound := Bound(maxIterations);
      var i := 0;
      while i < bound
        invariant i <= bound
        invariant var t := RunWith(step, messages, hints, bound, maxIterations, i);
          var whole := RunWith(step, start, hints, bound, maxIterations, 0);
          && events + t.events == [UserMessageEvent(userMessage, timestamp)] + whole.events
          && requests + t.requests == whole.requests
          && t.messages == whole.messages
      {
        ghost var before := messages;
        ghost var t := RunWith(step, before, hints, bound, maxIterations, i);
        var stepEvents, request, stop := RunIteration(TurnAt(turns, i), HintAt(hints, i), i);
        ghost var s := step(before, i);
        assert s == Iteration(before, TurnAt(turns, i), i);
        RunWithStep(step, before, hints, bound, maxIterations, i);
        ghost var rest := RunWith(step, s.messages, hints, bound, maxIterations, i + 1);
        TraceStep(events, requests, s, request, t, rest);
        events := events + stepEvents;
        requests := requests + [request];
        i := i + 1;
        if stop {
          return;
        }
      }
      events := events + [MaxIterationsReached(maxIterations)];
    }

    /** `reset`. */
    method Reset()
      modifies this`messages
      ensures messages == []
    {
      messages := [];
    }
  }
}
