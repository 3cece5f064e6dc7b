/** The ReAct agent of the agentic RAG demo: the message list sent to the
    model (system prompt, a window of the conversation history, the query),
    the two knowledge-base tools and the shape of their results, the bounded
    query loop with the model as a script of replies, and character
    streaming of the final text. */
module RagAgent {
  import opened Common
  import KbTools

  /** A tool call as the model emits it. `parsed` is what `json.loads` makes
      of `arguments` (None when it does not parse); `response` and `backend`
      are what the knowledge-base backend answers for this call. */
  datatype ToolCall = ToolCall(
    id: string, callType: string, name: string, arguments: string,
    parsed: Option<Json>, response: Option<Json>, backend: Option<map<string, Json>>)

  /** The function-call record kept in an assistant message. */
  datatype CallRecord = CallRecord(id: string, callType: string, name: string, arguments: string)

  datatype RagMessage =
    | SystemMessage(content: string)
    | UserMessage(content: string)
    | AssistantMessage(content: string, toolCalls: seq<CallRecord>)
    | ToolMessage(toolCallId: string, result: Json)

  /** One scripted provider call: a completion, or the exception it raised. */
  datatype Reply = Completion(content: Option<string>, calls: seq<ToolCall>) | ProviderFailure(message: string)

  /** The knowledge base as the tools see it during one query. */
  datatype KbView = KbView(kind: KbTools.KbType, difyKeySet: bool, store: map<string, map<string, Json>>)

  // ---------------------------------------------------------------------
  // The message list

  /** `_build_messages` as written: `history[-limit:]` when the history is
      longer than the limit. */
  function BuildMessages(prompt: string, history: seq<RagMessage>, limit: int, query: string): seq<RagMessage> {
    [SystemMessage(prompt)]
    + (if |history| > limit then PySlice(history, -limit, |history|) else history)
    + [UserMessage(query)]
  }

  /** With a limit of 0 the slice `history[-0:]` is the whole history, so a
      limit meant to send no history sends all of it. */
  lemma BuildMessagesLimitZero(prompt: string, history: seq<RagMessage>, query: string)
    requires |history| > 0
    ensures BuildMessages(prompt, history, 0, query) == [SystemMessage(prompt)] + history + [UserMessage(query)]
    ensures |BuildMessages(prompt, history, 0, query)| == 2 + |history| > 2
  {
    assert PySlice(history, 0, |history|) == history;
  }

  /** The window the limit is meant to select: the last `limit` entries, none
      for a limit of 0 or less. */
  function HistoryWindow(history: seq<RagMessage>, limit: int): (w: seq<RagMessage>)
    ensures |w| == if limit <= 0 then 0 else if limit < |history| then limit else |history|
    ensures w == history[|history| - |w|..]
  {
    if limit <= 0 then []
    else if |history| > limit then history[|history| - limit..]
    else history
  }

  /** `_build_messages` with the window corrected: the system prompt first,
      the query last, and the last `limit` history entries between them. */
  function BuildMessagesWindowed(prompt: string, history: seq<RagMessage>, limit: int, query: string)
    : (r: seq<RagMessage>)
    ensures |r| == 2 + |HistoryWindow(history, limit)|
    ensures r[0] == SystemMessage(prompt) && r[|r| - 1] == UserMessage(query)
    ensures r[1..|r| - 1] == history[|history| - |r| + 2..]
  {
    var r := [SystemMessage(prompt)] + HistoryWindow(history, limit) + [UserMessage(query)];
    assert r[1..|r| - 1] == HistoryWindow(history, limit);
    r
  }

  /** For every positive limit the code as written already selects the
      intended window. */
  lemma BuildMessagesAgree(prompt: string, history: seq<RagMessage>, limit: int, query: string)
    requires limit > 0
    ensures BuildMessages(prompt, history, limit, query) == BuildMessagesWindowed(prompt, history, limit, query)
  {
    if |history| > limit {
      assert PySlice(history, -limit, |history|) == history[|history| - limit..];
    }
  }

  // ---------------------------------------------------------------------
  // Tools

  function StatusError(message: string): Json {
    JObj(map["status" := JStr("error"), "message" := JStr(message)])
  }

  /** Python's type name, as an `AttributeError` message shows it. */
  function PyTypeName(j: Json): string {
    match j
    case JNull => "NoneType"
    case JBool(_) => "bool"
    case JNum(n) => if n == n.Floor as real then "int" else "float"
    case JStr(_) => "str"
    case JArr(_) => "list"
    case JObj(_) => "dict"
  }

  datatype Shaped = Shaped(items: seq<Json>) | MissingKey(key: string)

  /** The first of `doc_id`, `chunk_id`, `text`, `score` missing from `r`. */
  function FirstMissing(r: map<string, Json>): (m: Option<string>)
    ensures m.None? <==> "doc_id" in r && "chunk_id" in r && "text" in r && "score" in r
    ensures m.Some? ==> m.value !in r
  {
    if "doc_id" !in r then Some("doc_id")
    else if "chunk_id" !in r then Some("chunk_id")
    else if "text" !in r then Some("text")
    else if "score" !in r then Some("score")
    else None
  }

  /** The formatting loop over the results: each becomes a dictionary of
      its four fields; a missing one raises `KeyError`. */
  function Shape(rs: seq<map<string, Json>>): (r: Shaped)
    ensures r.Shaped? <==> forall j :: 0 <= j < |rs| ==> FirstMissing(rs[j]).None?
    ensures r.Shaped? ==> |r.items| == |rs|
  {
    if |rs| == 0 then Shaped([])
    else if FirstMissing(rs[0]).Some? then MissingKey(FirstMissing(rs[0]).value)
    else
      var head := JObj(map["doc_id" := rs[0]["doc_id"], "chunk_id" := rs[0]["chunk_id"],
                           "text" := rs[0]["text"], "score" := rs[0]["score"]]);
      match Shape(rs[1..])
      case MissingKey(k) => MissingKey(k)
      case Shaped(items) => Shaped([head] + items)
  }

  /** Results the knowledge base returns always carry the four fields. */
  lemma NormalisedResultsShape(rs: seq<map<string, Json>>)
    requires forall j :: 0 <= j < |rs| ==> KbTools.Normalised(rs[j])
    ensures Shape(rs).Shaped?
  {
  }

  /** `_execute_tool`. `search` is what `knowledge_base_search` returned and
      `document` what `get_document` returned for this call. */
  function ExecuteTool(name: string, arguments: Json, search: seq<map<string, Json>>,
                       document: map<string, Json>): (r: Json)
  {
    if name != "knowledge_base_search" && name != "get_document" then
      StatusError("Unknown tool: " + name)
    else if !arguments.JObj? then
      StatusError("'" + PyTypeName(arguments) + "' object has no attribute 'get'")
    else if name == "knowledge_base_search" then
      if |search| == 0 then
        JObj(map["status" := JStr("no_results"), "message" := JStr("No relevant documents found")])
      else
        match Shape(if |search| <= 5 then search else search[..5])
        case MissingKey(k) => StatusError("'" + k + "'")
        case Shaped(items) =>
          JObj(map["status" := JStr("success"), "results" := JArr(items),
                   "total_found" := JNum(|search| as real)])
    else if "error" in document then
      JObj(map["status" := JStr("error"), "message" := document["error"]])
    else
      var docId := Get(arguments.fields, "doc_id", JStr(""));
      JObj(map["status" := JStr("success"), "document" := JObj(map[
        "doc_id" := Get(document, "doc_id", docId),
        "content" := Get(document, "content", JStr("")),
        "metadata" := Get(document, "metadata", JObj(map[]))])])
  }

  /** The status a tool result reports. */
  function Status(r: Json): string {
    if r.JObj? && "status" in r.fields && r.fields["status"].JStr? then r.fields["status"].s else ""
  }

  /** `_execute_tool` never raises: every outcome is a status dictionary; an
      unknown name is an error naming the tool; a search reports no results
      exactly when the backend found none, and otherwise at most five results
      with the full count. */
  lemma ExecuteToolOutcomes(name: string, arguments: Json, search: seq<map<string, Json>>,
                            document: map<string, Json>)
    ensures var r := ExecuteTool(name, arguments, search, document);
      Status(r) in {"success", "no_results", "error"}
    ensures name != "knowledge_base_search" && name != "get_document" ==>
      ExecuteTool(name, arguments, search, document) == StatusError("Unknown tool: " + name)
    ensures var r := ExecuteTool(name, arguments, search, document);
      name == "knowledge_base_search" && arguments.JObj? ==>
        (Status(r) == "no_results" <==> |search| == 0)
    ensures var r := ExecuteTool(name, arguments, search, document);
      Status(r) == "success" && name == "knowledge_base_search" ==>
        && r.fields["results"].JArr?
        && |r.fields["results"].items| == (if |search| <= 5 then |search| else 5)
        && r.fields["total_found"] == JNum(|search| as real)
    ensures var r := ExecuteTool(name, arguments, search, document);
      name == "get_document" && arguments.JObj? && "error" in document ==>
        Status(r) == "error" && r.fields["message"] == document["error"]
  {
  }

  /** The arguments a call runs with: malformed JSON becomes `{}`. */
  function Arguments(call: ToolCall): Json {
    if call.parsed.None? then JObj(map[]) else call.parsed.value
  }

  /** The tool message one call produces against the knowledge base `kb`. */
  function ToolMessageFor(call: ToolCall, kb: KbView): RagMessage {
    var args := Arguments(call);
    var docId := if args.JObj? then Get(args.fields, "doc_id", JStr("")) else JNull;
    ToolMessage(call.id, ExecuteTool(call.name, args,
      KbTools.Search(kb.kind, kb.difyKeySet, call.response),
      KbTools.Lookup(kb.store, docId, call.backend)))
  }

  /** One tool message per call, in order. */
  function ToolMessages(calls: seq<ToolCall>, kb: KbView): (r: seq<RagMessage>)
    ensures |r| == |calls|
    ensures forall k :: 0 <= k < |calls| ==> r[k].ToolMessage? && r[k].toolCallId == calls[k].id
  {
    MapCalls(call => ToolMessageFor(call, kb), calls)
  }

  /** `f` applied to each call, in order. */
  function MapCalls(f: ToolCall -> RagMessage, calls: seq<ToolCall>): (r: seq<RagMessage>)
    ensures |r| == |calls|
    ensures forall k :: 0 <= k < |calls| ==> r[k] == f(calls[k])
  {
    seq(|calls|, k requires 0 <= k < |calls| => f(calls[k]))
  }

  /** Mapping one more call extends the mapped prefix by its image. */
  lemma MapCallsSnoc(f: ToolCall -> RagMessage, calls: seq<ToolCall>, j: nat)
    requires j < |calls|
    ensures MapCalls(f, calls[..j + 1]) == MapCalls(f, calls[..j]) + [f(calls[j])]
  {
    assert forall k :: 0 <= k < j ==> calls[..j + 1][k] == calls[..j][k];
  }

  function Record(call: ToolCall): CallRecord {
    CallRecord(call.id, call.callType, call.name, call.arguments)
  }

  function Records(calls: seq<ToolCall>): (r: seq<CallRecord>)
    ensures |r| == |calls|
    ensures forall k :: 0 <= k < |calls| ==> r[k].id == calls[k].id && r[k].name == calls[k].name
  {
    seq(|calls|, k requires 0 <= k < |calls| => Record(calls[k]))
  }

  /** The messages one reply adds to the list sent to the model: nothing for
      a provider failure; otherwise the assistant message, then one tool
      message per call with the call's id. */
  function Appended(reply: Reply, kb: KbView): (r: seq<RagMessage>)
    ensures reply.ProviderFailure? ==> r == []
    ensures reply.Completion? ==>
      && |r| == 1 + |reply.calls|
      && r[0] == AssistantMessage(if reply.content.Some? then reply.content.value else "", Records(reply.calls))
      && forall k :: 0 <= k < |reply.calls| ==> r[1 + k].ToolMessage? && r[1 + k].toolCallId == reply.calls[k].id
  {
    match reply
    case ProviderFailure(_) => []
    case Completion(content, calls) =>
      var head := [AssistantMessage(if content.Some? then content.value else "", Records(calls))];
      var tools := ToolMessages(calls, kb);
      assert forall k :: 0 <= k < |calls| ==> (head + tools)[1 + k] == tools[k];
      head + tools
  }

  // ---------------------------------------------------------------------
  // The query loop

  /** The reply of the `k`-th provider call; once the script is exhausted the
      client raises. */
  function ReplyAt(replies: seq<Reply>, k: nat): Reply {
    if k < |replies| then replies[k] else ProviderFailure("no scripted reply")
  }

  /** `while iterations < max_iterations` makes no pass for a bound of 0 or less. */
  function Bound(maxIterations: int): (b: nat)
    ensures maxIterations >= 0 ==> b == maxIterations
    ensures maxIterations < 0 ==> b == 0
  {
    if maxIterations < 0 then 0 else maxIterations
  }

  datatype QueryOutcome =
    | Answered(content: string, iterations: nat)
    | Failed(message: string, iterations: nat)
    | OutOfIterations(iterations: nat)

  /** How the loop ends from pass `i` on: the first reply without tool calls
      answers, a provider exception fails, and otherwise the bound runs out. */
  function Outcome(replies: seq<Reply>, bound: nat, i: nat): QueryOutcome
    requires i <= bound
    decreases bound - i
  {
    if i == bound then OutOfIterations(bound)
    else
      match ReplyAt(replies, i)
      case ProviderFailure(m) => Failed(m, i + 1)
      case Completion(content, calls) =>
        if |calls| == 0 then Answered(if content.Some? then content.value else "", i + 1)
        else Outcome(replies, bound, i + 1)
  }

  /** The messages the first `n` replies add. */
  function Transcript(replies: seq<Reply>, n: nat, kb: KbView): seq<RagMessage> {
    if n == 0 then [] else Transcript(replies, n - 1, kb) + Appended(ReplyAt(replies, n - 1), kb)
  }

  /** Adding one more reply's messages to a list that ends with a transcript. */
  lemma TranscriptStep(start: seq<RagMessage>, replies: seq<Reply>, n: nat, kb: KbView)
    ensures start + Transcript(replies, n + 1, kb) == (start + Transcript(replies, n, kb)) + Appended(ReplyAt(replies, n), kb)
  {
    var done, next := Transcript(replies, n, kb), Appended(ReplyAt(replies, n), kb);
    assert Transcript(replies, n + 1, kb) == done + next;
    AppendAssoc(start, done, next);
  }

  const MoreIterationsText :=
    "I need more iterations to fully answer your question. Please try rephrasing or breaking down your query."

  /** The text `query` returns for an outcome. */
  function OutcomeText(o: QueryOutcome): string {
    match o
    case Answered(content, _) => content
    case Failed(m, _) => "Error processing query: " + m
    case OutOfIterations(_) => MoreIterationsText
  }

  /** At most `bound` provider calls are made; an answer comes from the last
      reply asked for, which has no tool calls, after replies that all had
      some; running out happens only after `bound` replies with tool calls. */
  lemma {:induction false} OutcomeMeaning(replies: seq<Reply>, bound: nat, i: nat)
    requires i <= bound
    ensures var o := Outcome(replies, bound, i);
      i <= o.iterations <= bound && (i < bound ==> i < o.iterations)
    ensures var o := Outcome(replies, bound, i);
      forall k :: i <= k < o.iterations - 1 ==>
        ReplyAt(replies, k).Completion? && |ReplyAt(replies, k).calls| > 0
    ensures var o := Outcome(replies, bound, i);
      o.Answered? ==> ReplyAt(replies, o.iterations - 1).Completion?
                      && |ReplyAt(replies, o.iterations - 1).calls| == 0
    ensures var o := Outcome(replies, bound, i);
      o.Failed? ==> ReplyAt(replies, o.iterations - 1) == ProviderFailure(o.message)
    ensures Outcome(replies, bound, i).OutOfIterations? ==> Outcome(replies, bound, i).iterations == bound
    decreases bound - i
  {
    if i < bound {
      var reply := ReplyAt(replies, i);
      if reply.Completion? && |reply.calls| > 0 {
        OutcomeMeaning(replies, bound, i + 1);
      }
    }
  }

  /** `_stream_response`: the content one character at a time. */
  function StreamResponse(content: string): (r: seq<string>)
    ensures |r| == |content|
    ensures forall k :: 0 <= k < |r| ==> r[k] == [content[k]]
  {
    seq(|content|, k requires 0 <= k < |content| => [content[k]])
  }

  /** Joining the streamed pieces gives the content back. */
  lemma {:induction false} StreamConcat(content: string)
    ensures Concat(StreamResponse(content)) == content
    decreases |content|
  {
    if |content| > 0 {
      StreamConcat(content[1..]);
      assert StreamResponse(content)[1..] == StreamResponse(content[1..]);
      assert content == [content[0]] + content[1..];
    }
  }

  datatype Response = Text(text: string) | Stream(chunks: seq<string>)

  /** What `query` hands back: the text, or its character stream. */
  function Respond(text: string, stream: bool): (r: Response)
    ensures r.Text? ==> r.text == text
    ensures r.Stream? ==> Concat(r.chunks) == text
  {
    StreamConcat(text);
    if stream then Stream(StreamResponse(text)) else Text(text)
  }

  class Agent {
    var conversationHistory: seq<RagMessage>
    const kb: KbTools.KnowledgeBaseTools
    const systemPrompt: string
    const historyLimit: int
    const maxIterations: int
    const streamByDefault: bool

    constructor(kb: KbTools.KnowledgeBaseTools, systemPrompt: string, historyLimit: int,
                maxIterations: int, streamByDefault: bool)
      ensures conversationHistory == []
      ensures this.kb == kb && this.systemPrompt == systemPrompt && this.historyLimit == historyLimit
      ensures this.maxIterations == maxIterations && this.streamByDefault == streamByDefault
    {
      this.kb := kb;
      this.systemPrompt := systemPrompt;
      this.historyLimit := historyLimit;
      this.maxIterations := maxIterations;
      this.streamByDefault := streamByDefault;
      conversationHistory := [];
    }

    function View(): KbView
      reads kb
    {
      KbView(kb.kbType, kb.difyKeySet, kb.documentStore)
    }

    /** Runs the tool calls of one reply in order. */
    method RunTools(calls: seq<ToolCall>, view: KbView) returns (messages: seq<RagMessage>)
      ensures messages == ToolMessages(calls, view)
    {
      var run := call => ToolMessageFor(call, view);
      messages := [];
      var j := 0;
      while j < |calls|
        invariant 0 <= j <= |calls|
        invariant messages == MapCalls(run, calls[..j])
      {
        MapCallsSnoc(run, calls, j);
        messages := messages + [run(calls[j])];
        j := j + 1;
      }
      assert calls[..j] == calls;
    }

    /** One pass of the loop: ask for the next reply, add the assistant
        message and the tool results to the message list, and stop on an
        answer (recording it in the history) or on a provider exception. */
    method Pass(userQuery: string, replies: seq<Reply>, bound: nat, i: nat, view: KbView,
                before: seq<RagMessage>)
      returns (after: seq<RagMessage>, stop: Option<QueryOutcome>)
      requires i < bound
      modifies this`conversationHistory
      ensures after == before + Appended(ReplyAt(replies, i), view)
      ensures stop.Some? ==> stop.value == Outcome(replies, bound, i) && stop.value.iterations == i + 1
      ensures stop.None? ==> Outcome(replies, bound, i + 1) == Outcome(replies, bound, i)
      ensures conversationHistory == (if stop.Some? && stop.value.Answered?
                                      then old(conversationHistory) + [UserMessage(userQuery), AssistantMessage(stop.value.content, [])]
                                      else old(conversationHistory))
    {
      var reply := ReplyAt(replies, i);
      if reply.ProviderFailure? {
        return before, Some(Failed(reply.message, i + 1));
      }
      var content := if reply.content.Some? then reply.content.value else "";
      var toolMessages := RunTools(reply.calls, view);
      after := before + ([AssistantMessage(content, Records(reply.calls))] + toolMessages);
      if |reply.calls| == 0 {
        conversationHistory := conversationHistory + [UserMessage(userQuery), AssistantMessage(content, [])];
        stop := Some(Answered(content, i + 1));
      } else {
        stop := None;
      }
    }

    /** The ReAct loop of `query`, from the first message list on. */
    method Loop(userQuery: string, replies: seq<Reply>, bound: nat, view: KbView, start: seq<RagMessage>)
      returns (outcome: QueryOutcome, messages: seq<RagMessage>)
      modifies this`conversationHistory
      ensures outcome == Outcome(replies, bound, 0)
      ensures messages == start + Transcript(replies, outcome.iterations, view)
      ensures conversationHistory == (if outcome.Answered?
                                      then old(conversationHistory) + [UserMessage(userQuery), AssistantMessage(outcome.content, [])]
                                      else old(conversationHistory))
    {
      messages := start;
      var iterations: nat := 0;
      while iterations < bound
        invariant iterations <= bound
        invariant Outcome(replies, bound, iterations) == Outcome(replies, bound, 0)
        invariant messages == start + Transcript(replies, iterations, view)
        invariant conversationHistory == old(conversationHistory)
      {
        var stop;
        TranscriptStep(start, replies, iterations, view);
        messages, stop := Pass(userQuery, replies, bound, iterations, view, messages);
        assert messages == start + Transcript(replies, iterations + 1, view);
        iterations := iterations + 1;
        if stop.Some? {
          return stop.value, messages;
        }
      }
      outcome := OutOfIterations(bound);
    }

    /** `query`: the outcome, the messages sent to the model and the history
        update are those `Outcome` and `Transcript` predict from the replies;
        the history gains the query and the answer only when the model
        answered. */
    method Query(userQuery: string, stream: Option<bool>, replies: seq<Reply>)
      returns (response: Response, messages: seq<RagMessage>)
      modifies this`conversationHistory
      ensures var o := Outcome(replies, Bound(maxIterations), 0);
        && response == Respond(OutcomeText(o), if stream.Some? then stream.value else streamByDefault)
        && messages == BuildMessagesWindowed(systemPrompt, old(conversationHistory), historyLimit, userQuery)
                       + Transcript(replies, o.iterations, View())
        && conversationHistory == (if o.Answered?
                                   then old(conversationHistory) + [UserMessage(userQuery), AssistantMessage(o.content, [])]
                                   else old(conversationHistory))
      ensures historyLimit > 0 ==>
        messages == BuildMessages(systemPrompt, old(conversationHistory), historyLimit, userQuery)
                    + Transcript(replies, Outcome(replies, Bound(maxIterations), 0).iterations, View())
    {
      var streaming := if stream.Some? then stream.value else streamByDefault;
      var outcome;
      outcome, messages := Loop(userQuery, replies, Bound(maxIterations), View(),
                                BuildMessagesWindowed(systemPrompt, conversationHistory, historyLimit, userQuery));
      response := Respond(OutcomeText(outcome), streaming);
      if historyLimit > 0 {
        BuildMessagesAgree(systemPrompt, old(conversationHistory), historyLimit, userQuery);
      }
    }

    /** `clear_history`. */
    method ClearHistory()
      modifies this`conversationHistory
      ensures conversationHistory == []
    {
      conversationHistory := [];
    }
  }
}
