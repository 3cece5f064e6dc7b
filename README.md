# Agent and live-audio demos, modelled in Dafny

This project models the deterministic core of a collection of LLM-agent and speech-pipeline demos, and proves properties of that model. Each language-model, HTTP, ONNX or torch call in the demos becomes an input: a scripted reply, a parsed response body, a speech probability, a token stream. What remains is bookkeeping over strings, sequences, maps and integers, with each event handler run to completion before the next one starts.

- **Event-triggered agent** (`EventAgent`, `EventTypes`). Covers:
  - the TODO list, with id allocation, status updates and reset;
  - tool dispatch, where an unknown tool or a failing handler becomes an error value;
  - the prioritised error-suggestion classifier;
  - the line window of partial file reads;
  - the event loop, which ends only on a `FINAL ANSWER:` marker;
  - the events themselves: how each is rendered as a user message, and the round trip through their dictionary form.
- **Agentic RAG** (`RagAgent`, `KbTools`). Covers:
  - the message list: system prompt, a window of the history, then the query;
  - the two knowledge-base tools and their error results;
  - the bounded ReAct loop, and character streaming of the answer;
  - normalisation of local, RAPTOR and GraphRAG answers into one record shape;
  - the in-memory document store that is consulted before any backend.
- **Contextual-retrieval configuration** (`RetrievalConfig`). Provider defaults, API-key lookup, the client settings, and overrides read from the environment.
- **Coding agent** (`CodingAgent`). Covers:
  - buffering of streamed tool-call fragments by index;
  - running the buffered calls;
  - conversion of stored messages and tool definitions to the OpenAI format;
  - the bounded `run` loop and its event stream.
- **Live-audio server** (`LiveServer`, `Bytes`, `AsrProviders`, `Vad`, `LlmProviders`, `SpeechToText`). Covers:
  - sentence boundaries for streaming speech synthesis;
  - delta synchronisation of the chat history with the browser, and the transcript update;
  - the server-sent-event line buffer of a streamed reply, a simplified reading of section 9.2 of the WHATWG HTML Standard;
  - the canonical 44-byte RIFF/WAVE header, both written and read back for the duration;
  - the voice-activity state machine;
  - the ASR and chat provider factories, request payloads and headers;
  - the audio-sufficiency check, error wrapping and stale-file selection of the speech-to-text service.
- **Text clean-up before speech synthesis** (`NumberWords`, `SpecialCharacters`, `TextProcessor`). Covers:
  - numbers spelled in English words, with an independent reader that gives the round trip;
  - markdown stripping and code blocks read out symbol by symbol;
  - stage-direction removal, special-character names, and the whole preprocessing pipeline.
- **Browser audio worklets** (`AudioWorklet`). The capture processor cuts 1024-sample frames. The playback processor is a queue state machine.
- **Perception tools** (`SearchTools`, `FilesystemTools`). Covers:
  - web-search validation;
  - knowledge-base snippet, relevance, ranking and top-k;
  - the read-file length cap;
  - the grep match cap with 1-based line numbers;
  - truncating and extractive summaries.
- **Orpheus text-to-speech token plumbing** (`Orpheus`). Covers:
  - prompt framing and left padding with attention masks;
  - cropping of generated tokens to the speech part;
  - redistribution of 7-code frames over the three SNAC codebook layers.
- **Evaluation scripts** (`EvaluateFromCache`, `PromptDistillation`). Covers:
  - GSM8K answer extraction (`\boxed{}`, `####`, last 200 characters);
  - number normalisation and the accuracy count;
  - parsing of a language label from a classifier's reply, and the prediction metrics.

`Common` holds the shared vocabulary. This is an optional type, parsed JSON values, and the Python and JavaScript string operations the sources rely on: find, split, strip, slicing, decimal printing and parsing. Python's `str.find`/`in`, `strip`, `lower`, `isdigit` and `isspace` are written out for the characters the model deals with.

Where a source file updates an object in place, the model is a class with those fields. Its methods change them under a `modifies` clause and are proved against a function of the old state. Examples are the TODO list, the RAG agent, the coding agent, the connection handler and SSE reader, the VAD, the speech-to-text service, the worklet processors and the counting loops. Pure formatting and parsing code is modelled as functions with lemmas.

## Model

| member | source | states |
|---|---|---|
| EventTypes.ParseType | week4/agent-with-event-trigger/event_types.py:11-23 | `EventType(s)` yields the member whose value is `s`; when it yields nothing, no member has that value |
| EventTypes.ParseTypeValue | week4/agent-with-event-trigger/event_types.py:11-23 | parsing an event type's value gives that type back |
| EventTypes.Meta | week4/agent-with-event-trigger/event_types.py:41-68 | `metadata.get(key, default)`: the stored value when the key is present, the default otherwise |
| EventTypes.Header | week4/agent-with-event-trigger/event_types.py:37-72 | each per-type header opens with "[" |
| EventTypes.ToUserMessage | week4/agent-with-event-trigger/event_types.py:35-72 | every message starts with "[" and ends with the event content |
| EventTypes.MessageDeterminedByContent | week4/agent-with-event-trigger/event_types.py:35-72 | two events of one type with the same metadata and the same message have the same content |
| EventTypes.ToDict | week4/agent-with-event-trigger/event_types.py:74-82 | the dictionary has exactly the five keys, the type's string value, and `None` for the id exactly when the event has none |
| EventTypes.FromDict | week4/agent-with-event-trigger/event_types.py:84-93 | a missing `event_type` or `content` is a KeyError and an unknown type a ValueError; absent metadata, timestamp and id default to `{}`, the clock reading and None |
| EventTypes.DictRoundTrip | week4/agent-with-event-trigger/event_types.py:74-93 | `from_dict(to_dict(e))` is `e`, field for field |
| EventTypes.FromDictToDict | week4/agent-with-event-trigger/event_types.py:74-93 | a five-key dictionary that loads is exactly the stored form of the event it loads to |
| EventAgent.ParseStatus | week4/agent-with-event-trigger/agent.py:35-40 | `TodoStatus(s)` yields the status whose value is `s`, and nothing when no status has it |
| EventAgent.KeptMembers | week4/agent-with-event-trigger/agent.py:951-954 | the kept items are exactly the completed or cancelled ones |
| EventAgent.KeptIds | week4/agent-with-event-trigger/agent.py:951-954 | keeping a sub-list keeps ids strictly increasing and below the bound |
| EventAgent.RewriteKeepsIds | week4/agent-with-event-trigger/agent.py:949-965 | after a rewrite the ids stay strictly increasing and below the new `next_todo_id` |
| EventAgent.FirstWithId | week4/agent-with-event-trigger/agent.py:982-987 | the position of the first item with the id, and none when no item has it |
| EventAgent.SetStatusFrame | week4/agent-with-event-trigger/agent.py:982-987 | only the first item with the id changes, and only its status and `updated_at`; an unknown id changes nothing |
| EventAgent.SymbolIdentifiesStatus | week4/agent-with-event-trigger/agent.py:474-479 | different statuses get different symbols |
| EventAgent.FormatTodoList | week4/agent-with-event-trigger/agent.py:467-483 | the listing starts with "TODO List:" |
| EventAgent.ContentText | week4/agent-with-event-trigger/agent.py:481 | a content shows as `str` does: a string as itself, a whole number as its decimal digits |
| EventAgent.FormatEmptyIff | week4/agent-with-event-trigger/agent.py:467-470 | the listing is "TODO List: Empty" exactly when the list is empty |
| EventAgent.SuggestionTextLengths | week4/agent-with-event-trigger/agent.py:754-772 | the length of each category's joined suggestions, and "" for no category |
| EventAgent.ErrorSuggestions | week4/agent-with-event-trigger/agent.py:748-772 | the suggestions are "" exactly when no category matches |
| EventAgent.SuggestionsIdentifyCategory | week4/agent-with-event-trigger/agent.py:748-772 | the suggestions name exactly one category, the first in the order permission, not found, syntax, timeout, import |
| EventAgent.DetailedError | week4/agent-with-event-trigger/agent.py:731-746 | the detailed error starts with "Tool '<name>' failed with <type>: <message>" |
| EventAgent.ReadLines | week4/agent-with-event-trigger/agent.py:809-856 | without a window the whole text; with one, a failure reporting the line count exactly when the start is past the end, otherwise `begin_line` = start + 1 |
| EventAgent.WindowContents | week4/agent-with-event-trigger/agent.py:814-838 | the window is lines `begin_line`..`end_line`, `end_line` = min(start + count, total), and `lines_read` = `end_line` − start |
| EventAgent.WindowsTile | week4/agent-with-event-trigger/agent.py:814-838 | reading lines 1..k and then from k + 1 gives the whole file back |
| EventAgent.NegativeCountReadsFromEnd | week4/agent-with-event-trigger/agent.py:820-830 | a count of −1 is not rejected: it reads every line but the last and reports `end_line` −1 |
| EventAgent.HasMarkerMeaning | week4/agent-with-event-trigger/agent.py:1061 | the stop test is a non-empty content containing "FINAL ANSWER:" |
| EventAgent.FinalAnswer | week4/agent-with-event-trigger/agent.py:1062 | the answer is the stripped text between the first marker and the next one |
| EventAgent.SliceError | week4/agent-with-event-trigger/agent.py:1111 | `value[:100]` raises exactly when the value is neither a string nor a list: "'<type>' object is not subscriptable" for None, a boolean or a number, "unhashable type: 'slice'" for a dict |
| EventAgent.LogRaises | week4/agent-with-event-trigger/agent.py:1088-1111 | the logging of a result raises only when there is no non-empty error text, the result is a dict whose "success" is False, "is_binary" is falsy and "error" is present, and then with the slicing error of that value; a present unsliceable "error" escapes only when "is_binary" is truthy |
| EventAgent.CommandLogging | week4/agent-with-event-trigger/agent.py:935-942 | the logging of an `execute_command` result raises "'NoneType' object is not subscriptable" exactly when the exit code is non-zero and stderr is empty |
| EventAgent.CallAbort | week4/agent-with-event-trigger/agent.py:1068-1111 | a call aborts the loop with its JSON decoding error, or, when its arguments parse, exactly when the logging of its result raises |
| EventAgent.FirstAbort | week4/agent-with-event-trigger/agent.py:1068-1111 | no abort exactly when no call aborts; any aborting call makes the batch abort |
| EventAgent.SilentFailureAborts | week4/agent-with-event-trigger/agent.py:1107-1152 | a reply whose first call is `execute_command` failing with empty stderr ends the loop with "'NoneType' object is not subscriptable" after that pass |
| EventAgent.MappingError | week4/agent-with-event-trigger/agent.py:703-714 | calling a handler with `**` on anything but a dict gives Python's "… argument after ** must be a mapping, not <type>" |
| EventAgent.Bound | week4/agent-with-event-trigger/agent.py:1041-1042 | the number of passes allowed is `max_iterations` when that is not negative |
| EventAgent.ExpectedBounds | week4/agent-with-event-trigger/agent.py:1041-1142 | the loop stops within `max_iterations` passes and runs at least one when allowed |
| EventAgent.ExpectedAnswer | week4/agent-with-event-trigger/agent.py:1061-1065 | success holds exactly when there is an answer; the answer comes from the last reply asked for, which carries the marker, and no earlier reply carries it |
| EventAgent.ExpectedExhausted | week4/agent-with-event-trigger/agent.py:1041-1142 | ending without an answer means all `max_iterations` passes ran and no reply carried the marker |
| EventAgent.ExpectedAbort | week4/agent-with-event-trigger/agent.py:1130-1152 | an aborted loop reports the provider's error, or the first call of the last reply whose arguments do not parse or whose result's logging raises |
| EventAgent.BumpAllCounts | week4/agent-with-event-trigger/agent.py:1073-1075 | each counter grows by the number of calls to that tool |
| EventAgent.ProgressExtend | week4/agent-with-event-trigger/agent.py:1067-1127 | the loop's bookkeeping (history prefix, tool-message ids in call order, counters, records) carries over from one reply to the next |
| EventAgent.Agent.constructor | week4/agent-with-event-trigger/agent.py:261-267 | a fresh agent has an empty TODO list, `next_todo_id` 1, no counters or records, and only the system prompt in its history |
| EventAgent.Agent.Reset | week4/agent-with-event-trigger/agent.py:1186-1197 | reset restores the empty TODO list, `next_todo_id` 1, no counters or records, and a history of only the system prompt |
| EventAgent.Agent.RewriteTodoList | week4/agent-with-event-trigger/agent.py:949-972 | the list becomes the finished items in order followed by one pending item per value looped over with consecutive ids from the old `next_todo_id`, which grows by the count; kept + new = total |
| EventAgent.Agent.SetFirstStatus | week4/agent-with-event-trigger/agent.py:982-987 | the list becomes the one with the first matching item updated; found exactly when an item has the id |
| EventAgent.Agent.UpdateTodoStatus | week4/agent-with-event-trigger/agent.py:974-993 | the new list, the number of entries applied and the exception raised are those of the reference run over the entries read from `updates`; it raises exactly when an entry is unreadable, after the earlier ones took effect; otherwise `updated_items` is the reference count of entries whose id an item carries and `total_items` the list length; length, ids and contents never change |
| EventAgent.ReadUpdate | week4/agent-with-event-trigger/agent.py:979-980 | one entry reads as its id key and status, or as the TypeError, KeyError or ValueError that `update["id"]`, `update["status"]` and `TodoStatus(...)` raise, checked in that order |
| EventAgent.Agent.ApplyUpdates | week4/agent-with-event-trigger/agent.py:978-987 | the loop over `updates` leaves the list, the count and the number applied equal to the reference run |
| EventAgent.RunUpdatesShape | week4/agent-with-event-trigger/agent.py:978-987 | the entries before the first unreadable one are all applied, the run stops exactly at that entry, and ids, contents and creation times are kept |
| EventAgent.RunUpdatesMeaning | week4/agent-with-event-trigger/agent.py:976-987 | with distinct ids every item ends with the status of the last applied entry naming its id, is stamped exactly when one exists, and the count is the number of applied entries whose id an item carries |
| EventAgent.FailureSticks | week4/agent-with-event-trigger/agent.py:978-980 | once an entry raised, the later entries change nothing |
| EventAgent.Agent.ExecuteTool | week4/agent-with-event-trigger/agent.py:676-729 | never raises: an unknown name gives `{"error": "Unknown tool: <name>"}` with that message and leaves the list alone; a file or command tool passes its result on, or its exception as the plain or detailed text; a built-in tool given anything but a dict raises the `**` mapping TypeError with the list unchanged; a TODO tool binds its keywords, loops over its one argument and changes the list as `Rewrote` or `Updated` say, and a raising handler gives the `{"error": …}` pair with the plain or detailed text carrying its traceback; the logging of the result raises exactly as `LogCrash` says of the call |
| EventAgent.BindError | week4/agent-with-event-trigger/agent.py:711-714 | calling a handler with `**arguments` fails exactly when the keywords are not its one parameter; an extra keyword is reported first (as a second value for `self` when it is named so), otherwise the missing argument |
| EventAgent.NotIterable | week4/agent-with-event-trigger/agent.py:957 | a `for` loop over the argument raises exactly when it is not a list, string or dictionary |
| EventAgent.ToolInputMeaning | week4/agent-with-event-trigger/agent.py:711-714 | a TODO handler is refused exactly when the keywords are wrong or its argument cannot be looped over, with Python's binding message first; a list yields its items, a string its characters, a dictionary each key once |
| EventAgent.StringIteratedByCharacter | week4/agent-with-event-trigger/agent.py:957-962 | rewriting with the string "ab" adds the two items "a" and "b" |
| EventAgent.KeyedUpdatesRaise | week4/agent-with-event-trigger/agent.py:978-979 | updating with a dictionary raises "string indices must be integers, not 'str'" at its first key, changing nothing, whatever the key order; an empty one applies nothing |
| EventAgent.KeysInOrder | week4/agent-with-event-trigger/agent.py:978 | the loop over a dictionary meets each of its keys exactly once |
| EventAgent.Agent.RewriteCall | week4/agent-with-event-trigger/agent.py:711-712 | `_tool_rewrite_todo_list(**arguments)` raises the binding or iteration TypeError with the list unchanged, or keeps the finished items, adds one pending item per value looped over with consecutive ids and returns the three counts |
| EventAgent.Agent.UpdateCall | week4/agent-with-event-trigger/agent.py:713-714 | `_tool_update_todo_status(**arguments)` raises the binding or iteration TypeError with the list unchanged, or leaves the list of the update run over the values looped over and raises its first bad entry or returns the counts |
| EventAgent.HandlerReply | week4/agent-with-event-trigger/agent.py:719-729 | a returned value is the result with no error; an exception becomes `{"error": text}` with that same text as the error |
| EventAgent.ToolHeader | week4/agent-with-event-trigger/agent.py:1129-1136 | the tool message gets a header exactly when timestamps or the call counter are enabled |
| EventAgent.Agent.CountCall | week4/agent-with-event-trigger/agent.py:1071-1076 | the tool's counter is bumped when counting is on, and the call number is the new count, or 1 without counting |
| EventAgent.Agent.Dispatch | week4/agent-with-event-trigger/agent.py:703-714 | a built-in handler called with a non-dict raises the mapping TypeError and changes nothing; a file or command handler gives its given outcome; a TODO handler acts as `Rewrote` or `Updated` say and reports success whenever it returns |
| EventAgent.Agent.RecordCall | week4/agent-with-event-trigger/agent.py:1118-1142 | one record is appended, holding the result unless the error text is non-empty, and one tool message with the call's id, header and result |
| EventAgent.Agent.AnswerCall | week4/agent-with-event-trigger/agent.py:1086-1142 | executing a counted call aborts exactly when `LogCrash` says, leaving records and history alone; otherwise it adds exactly one record for it, with its name, arguments and number, and one tool message with its id and header |
| EventAgent.Agent.RunToolCall | week4/agent-with-event-trigger/agent.py:1067-1127 | one call bumps its counter when counting is on; it aborts exactly when `LogCrash` says, after the bump and before any record or tool message; otherwise it adds one record and appends exactly one tool message with the call's id |
| EventAgent.Agent.RunToolCalls | week4/agent-with-event-trigger/agent.py:1067-1127 | the calls are answered in order with one tool message each, counters and records follow, and the batch aborts with `FirstAbort`: the first call whose arguments do not parse or whose logging raises |
| EventAgent.Agent.FinishReply | week4/agent-with-event-trigger/agent.py:1061-1065 | a reply with the marker is appended to the history and its answer extracted |
| EventAgent.Agent.ContinueReply | week4/agent-with-event-trigger/agent.py:1067-1130 | a reply without the marker has its calls answered in order, with counters and records following, and reports its first aborting call |
| EventAgent.Agent.HandleEvent | week4/agent-with-event-trigger/agent.py:995-1182 | the user message (with its timestamp prefix) is appended, then the loop's outcome is the reference outcome of the replies and the bound, with one tool message per call in order |
| EventAgent.Agent.EventLoop | week4/agent-with-event-trigger/agent.py:1038-1142 | the while loop reaches the reference outcome and keeps the history prefix |
| EventAgent.Agent.Step | week4/agent-with-event-trigger/agent.py:1041-1140 | one pass either stops with the reference outcome from that pass or leaves the reference outcome unchanged for the next |
| RagAgent.BuildMessagesLimitZero | week3/agentic-rag/agent.py:142-156 | as written, a history limit of 0 sends the whole non-empty history, because `history[-0:]` is the whole list |
| RagAgent.HistoryWindow | week3/agentic-rag/agent.py:146-151 | the window is the last min(limit, \|history\|) entries, and none for a limit of 0 or less |
| RagAgent.BuildMessagesWindowed | week3/agentic-rag/agent.py:142-156 | 2 + min(\|history\|, limit) messages: the system prompt first, the query last, the last history entries in order between them |
| RagAgent.BuildMessagesAgree | week3/agentic-rag/agent.py:142-156 | for every positive limit the code as written builds exactly the intended list |
| RagAgent.FirstMissing | week3/agentic-rag/agent.py:105-111 | the first of the four result keys the result lacks, and none exactly when it has all four |
| RagAgent.Shape | week3/agentic-rag/agent.py:104-111 | the formatting loop succeeds exactly when every result has the four keys, and keeps their number |
| RagAgent.NormalisedResultsShape | week3/agentic-rag/agent.py:104-111 | results from the knowledge-base tools always pass the formatting loop |
| RagAgent.ExecuteToolOutcomes | week3/agentic-rag/agent.py:93-140 | the tool never raises: every outcome has status success, no_results or error; an unknown name is an error naming it; no_results exactly when the search found nothing; at most 5 results with `total_found` the full count; a document error is passed on |
| RagAgent.ToolMessages | week3/agentic-rag/agent.py:217-236 | one tool message per call, in order, each with the call's id |
| RagAgent.Records | week3/agentic-rag/agent.py:202-212 | the assistant message lists every call with its id and name, in order |
| RagAgent.Appended | week3/agentic-rag/agent.py:198-236 | a reply adds one assistant message and then one tool message per call with its id; a provider exception adds nothing |
| RagAgent.Bound | week3/agentic-rag/agent.py:176-181 | the number of passes is `max_iterations`, and none when it is negative |
| RagAgent.OutcomeMeaning | week3/agentic-rag/agent.py:180-267 | at most `max_iterations` provider calls; an answer comes from the first reply without tool calls after replies that all had some; a failure carries the provider's message; running out happens after exactly `max_iterations` passes |
| RagAgent.StreamResponse | week3/agentic-rag/agent.py:269-273 | one chunk per character, in order |
| RagAgent.StreamConcat | week3/agentic-rag/agent.py:269-273 | the chunks concatenate to the content |
| RagAgent.Respond | week3/agentic-rag/agent.py:247-267 | the text is returned as is, or as a stream whose concatenation is that text |
| RagAgent.Agent.constructor | week3/agentic-rag/agent.py:31-47 | a new agent starts with an empty conversation history |
| RagAgent.Agent.RunTools | week3/agentic-rag/agent.py:216-236 | the tool messages of one reply are exactly the reference ones, in order |
| RagAgent.Agent.Pass | week3/agentic-rag/agent.py:181-258 | one pass appends the reply's messages, and either stops with the reference outcome or leaves it unchanged; the history gains the query and the answer only when the pass answers |
| RagAgent.Agent.Loop | week3/agentic-rag/agent.py:180-267 | the loop reaches the reference outcome, the messages are the start followed by the transcript of the replies used, and the history grows by exactly two entries only on an answer |
| RagAgent.Agent.Query | week3/agentic-rag/agent.py:158-267 | `query` builds the windowed message list, runs the loop to the reference outcome and returns its text, streamed when asked; the history changes only on an answer; for a positive history limit the messages are exactly those the as-written `history[-limit:]` window builds |
| RagAgent.Agent.ClearHistory | week3/agentic-rag/agent.py:360-362 | the history becomes empty |
| KbTools.ToDict | week3/agentic-rag/tools.py:23-30 | the dictionary has exactly the five keys and its metadata is never falsy but `{}` |
| KbTools.ToDictFields | week3/agentic-rag/tools.py:23-30 | the first four fields are stored under their keys |
| KbTools.DictRoundTrip | week3/agentic-rag/tools.py:23-30 | a result with metadata reads back unchanged; one without comes back with `{}` |
| KbTools.ItemsOf | week3/agentic-rag/tools.py:110 | iterating a list yields its items; an empty string or dictionary yields nothing |
| KbTools.LocalList | week3/agentic-rag/tools.py:101-107 | the reranked results, else the dense ones, else the sparse ones, taking the first that is not empty |
| KbTools.Normalise | week3/agentic-rag/tools.py:110-124 | the normalising loop succeeds exactly when every item is a dictionary, keeps their number, and normalises item j at position j |
| KbTools.Search | week3/agentic-rag/tools.py:57-138 | search never raises: a failed request or a Dify backend without a key gives `[]`, and every result is normalised |
| KbTools.LocalResultFields | week3/agentic-rag/tools.py:110-124 | a missing chunk id becomes "{doc_id}_chunk_{k}" for the position k, and the score is the rerank score, else the score, else 0.0 |
| KbTools.ResultsAt | week3/agentic-rag/tools.py:199-270 | position j of a RAPTOR or GraphRAG answer is the normalised item j |
| KbTools.RaptorItemFields | week3/agentic-rag/tools.py:200-217 | the chunk id is "{doc_id}_level_{level}" with level 0 by default, the summary is preferred over the text, and the source is "raptor" |
| KbTools.RaptorResultFields | week3/agentic-rag/tools.py:199-218 | the same facts hold of the normalised RAPTOR results |
| KbTools.GraphItemFields | week3/agentic-rag/tools.py:244-270 | an entity reads "{name}. {description}" with chunk id "{id}_{entity_type}", and every result records "graphrag" as its source |
| KbTools.GraphResultFields | week3/agentic-rag/tools.py:242-271 | the same facts hold of the normalised GraphRAG results |
| KbTools.StoredDocument | week3/agentic-rag/tools.py:446-452 | a stored document holds its id, its content and its metadata, or `{}` when none is given |
| KbTools.Lookup | week3/agentic-rag/tools.py:284-311 | the document store is consulted first, then the backend, and a failure reads "Document {id} not found" |
| KbTools.KnowledgeBaseTools.constructor | week3/agentic-rag/tools.py:36-47 | the tools start from the store they load |
| KbTools.KnowledgeBaseTools.KnowledgeBaseSearch | week3/agentic-rag/tools.py:57-80 | every result is normalised, and a failed request gives `[]` |
| KbTools.KnowledgeBaseTools.GetDocument | week3/agentic-rag/tools.py:284-297 | a stored document is returned without asking the backend |
| KbTools.KnowledgeBaseTools.AddDocument | week3/agentic-rag/tools.py:446-452 | the store gains the document under its id, and `get_document` then returns it whatever the backend would say |
| KbTools.ToolDefinitionShape | week3/agentic-rag/tools.py:457-495 | each definition is a function tool with its name, description and one required string parameter |
| KbTools.ToolDefinitionsDeclare | week3/agentic-rag/tools.py:457-495 | the two definitions name `knowledge_base_search` and `get_document`, in that order, requiring `query` and `doc_id` |
| RetrievalConfig.GetEnv | week3/contextual-retrieval/config.py:94 | the lookup yields a value exactly when the variable is present, and then its value |
| RetrievalConfig.ProvidersAgree | week3/contextual-retrieval/config.py:41-93 | the providers with defaults are exactly the providers with a key variable |
| RetrievalConfig.GetApiKey | week3/contextual-retrieval/config.py:81-94 | a known provider (by lower-cased name) reads its own variable; an unknown one reads the empty variable name |
| RetrievalConfig.ClientConfigKey | week3/contextual-retrieval/config.py:96-104 | resolution fails with ValueError exactly when neither the explicit key nor the provider's variable is set; an explicit key wins over the environment |
| RetrievalConfig.ClientConfigShape | week3/contextual-retrieval/config.py:106-116 | the model is the configured one, else the provider default, else none; the settings hold the key, hold the base URL exactly for providers with defaults, and never hold the model |
| RetrievalConfig.ClientConfigCaseInsensitive | week3/contextual-retrieval/config.py:98 | two provider names equal after lower-casing resolve to the same client settings |
| RetrievalConfig.ParseKbType | week3/contextual-retrieval/config.py:22-27 | a parsed backend has exactly the given value; no value of any backend matches a rejected string |
| RetrievalConfig.FromEnvOverrides | week3/contextual-retrieval/config.py:186-199 | each of LLM_PROVIDER, LLM_MODEL, KB_TYPE overrides its field only when non-empty, other fields keep their defaults (kimi, no model, local, 10 iterations, 20 history turns), and loading fails only for a KB_TYPE naming no backend |
| RetrievalConfig.KbTypeAnyCase | week3/contextual-retrieval/config.py:196-197 | every backend name is accepted in any ASCII case |
| CodingAgent.AbsorbStep | week5/coding-agent/agent.py:332-345 | absorbing one more fragment of a chunk is one buffer update on top of the fragments before it |
| CodingAgent.AbsorbAllOrder | week5/coding-agent/agent.py:332-340 | the buffer is well formed, lists call indices in first-seen order, and holds a call exactly for the indices that appeared |
| CodingAgent.AbsorbAllCall | week5/coding-agent/agent.py:334-345 | the call buffered for an index has the id of its first fragment, the last non-empty name fragment, and all its argument fragments joined in arrival order |
| CodingAgent.AbsorbAllMeaning | week5/coding-agent/agent.py:332-350 | both of the above together: order, membership and contents of `tool_calls_data` in terms of the fragments alone |
| CodingAgent.ArgumentsJoined | week5/coding-agent/agent.py:344-345 | an illustration on one input: the arguments `{"query":` and `"hello"}` streamed in two chunks of call `call_1` are joined into `{"query":"hello"}`, and the id and name of the first fragment are kept |
| CodingAgent.CallsOf | week5/coding-agent/agent.py:349-350 | one buffered call per index, in first-seen order |
| CodingAgent.ItemMessagesCount | week5/coding-agent/agent.py:429-437 | an item list becomes exactly one tool message per `tool_result` item, in order, each carrying that item's `tool_use_id` (or "") |
| CodingAgent.Convert | week5/coding-agent/agent.py:422-460 | no stored message becomes a system message, and every message other than an item list becomes exactly one |
| CodingAgent.ToOpenAi | week5/coding-agent/agent.py:412-462 | the converted list starts with the system prompt and has no other system message |
| CodingAgent.ToOpenAiOneToOne | week5/coding-agent/agent.py:412-462 | a history without item lists converts message for message, after the system prompt |
| CodingAgent.ConvertAllOneToOne | week5/coding-agent/agent.py:422-460 | a history without item lists converts to a list of the same length, position by position |
| CodingAgent.ConvertTools | week5/coding-agent/agent.py:464-478 | one function tool per definition, with the same name, description and the input schema as parameters |
| CodingAgent.ConvertToolsInjective | week5/coding-agent/agent.py:464-478 | the tool conversion loses nothing: equal conversions come from equal definitions |
| CodingAgent.ResultAt | week5/coding-agent/agent.py:381-390 | a call that returned reports its own result dictionary; one that raised reports `{"error", "tool"}` |
| CodingAgent.EndsAfter | week5/coding-agent/agent.py:158-165 | events with no terminal event followed by a stream that ends properly still end properly, with the same last event |
| CodingAgent.TextEventsMeaning | week5/coding-agent/agent.py:322-329 | every `text_delta` carries a non-empty piece and accumulated text that is a prefix of the whole reply |
| CodingAgent.ExecEventsMeaning | week5/coding-agent/agent.py:361-396 | three events per call (`tool_call`, `tool_execution_start`, `tool_execution_complete`), none terminal, the third carrying the call's result |
| CodingAgent.ToolMessagesMeaning | week5/coding-agent/agent.py:398-405 | exactly one tool message per call, in call order, with the call's id and the result its completion event reported |
| CodingAgent.IterationEvents | week5/coding-agent/agent.py:137-169 | an iteration opens with `iteration_start`, and ends with `done` or `error` exactly when it stops the run; otherwise it yields no terminal event |
| CodingAgent.IterationHistory | week5/coding-agent/agent.py:347-405 | a failed stream leaves the history unchanged and ends in `error`; otherwise the history gains the assistant message with the buffered calls and one tool message per call, and the run stops exactly when there was no call |
| CodingAgent.IterationGrows | week5/coding-agent/agent.py:352-405 | an iteration only appends assistant and tool messages to the history |
| CodingAgent.Bound | week5/coding-agent/agent.py:136 | `range(max_iterations)` runs `max_iterations` passes, none when it is negative |
| CodingAgent.PassIsGood | week5/coding-agent/agent.py:136-169 | every OpenAI pass opens with `iteration_start`, ends in a terminal event other than `max_iterations_reached` exactly when it stops, and only appends non-user messages |
| CodingAgent.RunWithEvents | week5/coding-agent/agent.py:136-173 | for any well-behaved pass: at most the bound of passes, exactly one terminal event and it is last, `max_iterations_reached` only after every pass ran, and the history only grows by non-user messages |
| CodingAgent.RunWithStep | week5/coding-agent/agent.py:136-165 | one pass of the loop: its events come first, its request is the history plus its hint, and a pass that does not stop hands its history to the next |
| CodingAgent.RunWithRequests | week5/coding-agent/agent.py:140-147 | the request of the k-th pass ends with the k-th system hint |
| CodingAgent.RunEvents | week5/coding-agent/agent.py:116-173 | `run` makes at most `max_iterations` requests and its stream ends with exactly one `done`, `error` or `max_iterations_reached`, the last only when every pass ran; the history only grows by assistant and tool messages |
| CodingAgent.RunHint | week5/coding-agent/agent.py:140-147 | every request ends with its pass's hint, and the hint never enters the stored history |
| CodingAgent.HintRequest | week5/coding-agent/agent.py:144-147 | the converted request ends with the hint as a user message |
| CodingAgent.Agent.constructor | week5/coding-agent/agent.py:21-56 | the agent starts with an empty history and the given prompt and tools |
| CodingAgent.Agent.ReadStream | week5/coding-agent/agent.py:313-345 | the stream loop yields the joined text, the `text_delta` events and the call buffer the fragment functions describe |
| CodingAgent.Agent.AbsorbOne | week5/coding-agent/agent.py:334-345 | the per-fragment update of the buffer is the one `Absorb` describes |
| CodingAgent.Agent.ExecuteCalls | week5/coding-agent/agent.py:360-405 | the execution loop yields the events and tool messages of `ExecEvents` and `ToolMessages` |
| CodingAgent.Agent.RunIteration | week5/coding-agent/agent.py:294-410 | one iteration sends the history plus the hint and updates `self.messages` as `Iteration` says |
| CodingAgent.Agent.Run | week5/coding-agent/agent.py:116-173 | `run` stores the timestamped user message, yields `user_message`, then runs the passes exactly as `RunFrom` says |
| CodingAgent.Agent.Reset | week5/coding-agent/agent.py:480-483 | the history is emptied |
| LiveServer.OpenCodeBlockIncomplete | week8/live-audio/backend/server.js:529-536 | text with an odd number of code fences is never a complete sentence |
| LiveServer.FunctionCallRule | week8/live-audio/backend/server.js:538-541 | outside an open code block, text holding `<function>` is complete exactly when `</function>` has arrived |
| LiveServer.BlankSentence | week8/live-audio/backend/server.js:543-546 | blank text is complete only through a raw trailing newline; the empty string never is |
| LiveServer.PeriodRule | week8/live-audio/backend/server.js:548-554 | a trailing period ends a sentence unless a digit precedes it (a list number) |
| LiveServer.FirstSentenceEager | week8/live-audio/backend/server.js:580-587 | whatever is complete as a later sentence is complete as the first, and the only extra cut of the first is a trailing comma |
| LiveServer.Apply | week8/live-audio/backend/server.js:1009-1016 | a delta keeps the first `startIndex` entries and appends the sent ones |
| LiveServer.ApplyDelta | week8/live-audio/backend/server.js:1001-1016 | the delta cut at the longest common prefix brings the browser's previous copy to the current history |
| LiveServer.LongestCommonPrefixUnique | week8/live-audio/backend/server.js:1001-1007 | the first differing index is unique, so the delta is determined |
| LiveServer.TranscriptUpdateShape | week8/live-audio/backend/server.js:302-320 | a new transcript replaces a trailing user or transcript entry, else it is appended; every earlier entry is kept and the last is the transcript as a user entry |
| LiveServer.LlmMessages | week8/live-audio/backend/server.js:359-364 | the request is the system prompt followed by the last 20 history entries (all if fewer), with roles and contents only |
| LiveServer.ExtendAppend | week8/live-audio/backend/server.js:419-420 | one more character changes only the last line of a split |
| LiveServer.SplitLinesMeaning | week8/live-audio/backend/server.js:420 | `split('\n')` gives pieces with no newline that join back to the text |
| LiveServer.SplitLinesSingle | week8/live-audio/backend/server.js:420 | a text without newlines splits into itself |
| LiveServer.SplitLinesAppend | week8/live-audio/backend/server.js:419-422 | splitting `x + y` is splitting `x`, then splitting its unfinished last line followed by `y` |
| LiveServer.LineContent | week8/live-audio/backend/server.js:424-432 | a line contributes content only when it is non-empty: blank, `[DONE]`, non-`data: `, unparsable and empty-content lines add nothing |
| LiveServer.Collect | week8/live-audio/backend/server.js:424-432 | the content pieces of a run of lines are at most one per line |
| LiveServer.CollectAppend | week8/live-audio/backend/server.js:424 | reading two runs of lines one after the other gives the pieces of both, in order |
| LiveServer.StreamPiecesAppend | week8/live-audio/backend/server.js:417-423 | the pieces read depend only on the text received, not on how it was cut into chunks, and the carried partial line is the same |
| LiveServer.SegmentMeaning | week8/live-audio/backend/server.js:442-453 | cutting loses and repeats nothing: sentences sent plus the current one are the text received; earlier sentences are kept; each sent sentence was complete when cut, the first judged as a first sentence |
| LiveServer.SegmentAppend | week8/live-audio/backend/server.js:442-453 | cutting two runs of pieces one after the other is cutting them together |
| LiveServer.StreamStep | week8/live-audio/backend/server.js:417-479 | one data event after stream text `x` leaves the reply as if `x` and the chunk had arrived at once |
| LiveServer.TailRepeatedAsWritten | week8/live-audio/backend/server.js:497-503 | as written, a reply "Hi" with no sentence end is stored as "HiHi"; counted once it is "Hi" |
| LiveServer.FinalContentIsReceived | week8/live-audio/backend/server.js:496-505 | with the tail counted once, the stored reply is all content received, except that a blank tail is not stored |
| LiveServer.AudioDurationRoundTrip | week8/live-audio/backend/server.js:613-627 | the duration read back from a WAV buffer built for a format is its data length in whole milliseconds at that format |
| LiveServer.DefaultAudioDuration | week8/live-audio/backend/server.js:613-627 | at 16 kHz mono 16-bit, the duration is the data length divided by 32 |
| LiveServer.RecordingHeader | week8/live-audio/backend/server.js:644-665 | the recording header is 44 bytes |
| LiveServer.RecordingHeaderIsWavHeader | week8/live-audio/backend/server.js:644-665 | the recording header is byte for byte the one the ASR client's WAV writer makes with its default options |
| LiveServer.ConnectionHandler.constructor | week8/live-audio/backend/server.js:27-45 | a connection starts with empty history, nothing synced or sent, no transcript and no recording |
| LiveServer.ConnectionHandler.DiffStart | week8/live-audio/backend/server.js:1001-1007 | the scan stops at the length of the longest common prefix |
| LiveServer.ConnectionHandler.SyncChatHistory | week8/live-audio/backend/server.js:997-1021 | one delta is sent, cut at the longest common prefix, and afterwards the browser's replayed copy equals the server's history |
| LiveServer.ConnectionHandler.OnTranscript | week8/live-audio/backend/server.js:276-324 | blank text and a repeat of the last transcript change nothing; otherwise the transcript is remembered, the history updated as `TranscriptUpdate` says and synced with one delta |
| LiveServer.ConnectionHandler.StartResponse | week8/live-audio/backend/server.js:359-399 | the request is built from the history before an empty assistant entry is appended and synced |
| LiveServer.ConnectionHandler.SetLastContent | week8/live-audio/backend/server.js:447-449 | only the last entry's content changes, and the browser is brought up to date |
| LiveServer.ConnectionHandler.OnAudio | week8/live-audio/backend/server.js:147-154 | a binary chunk starts a recording if none is running and is appended to it |
| LiveServer.ConnectionHandler.WriteRecordingHeader | week8/live-audio/backend/server.js:644-665 | the field-by-field writes produce `RecordingHeader` |
| LiveServer.ConnectionHandler.SaveRecording | week8/live-audio/backend/server.js:637-677 | nothing is saved for no chunks; a size that overflows the 32-bit field is a RangeError; otherwise the file is the header followed by the chunks |
| LiveServer.AiResponse.constructor | week8/live-audio/backend/server.js:346-415 | a reply starts with an empty synced assistant entry, an empty line buffer and no sentence |
| LiveServer.AiResponse.FeedPiece | week8/live-audio/backend/server.js:434-470 | one content piece advances the sentence cutter as `Feed` says, storing and syncing each completed sentence |
| LiveServer.AiResponse.OnLine | week8/live-audio/backend/server.js:424-474 | one complete line feeds its content, if any, to the cutter |
| LiveServer.AiResponse.OnData | week8/live-audio/backend/server.js:417-479 | a data event, run to completion, reads every complete line of buffer plus chunk and keeps the partial last line |
| LiveServer.AsWrittenRepeatsTail | week8/live-audio/backend/server.js:496-499 | the as-written stored reply is the received content followed by the remaining sentence once more when that sentence is not blank |
| LiveServer.AiResponse.OnEnd | week8/live-audio/backend/server.js:482-514 | run after every data handler has finished, an unreadable carried line aborts the end handler with the history unchanged; otherwise the reply entry holds everything received (tail counted once), and when the remaining sentence is blank it is exactly the entry the as-written code stores |
| LiveServer.FeedChunk | week8/live-audio/backend/server.js:417-479 | a data event after stream text `x` leaves buffer and cutter as if `x` and the chunk were one text |
| LiveServer.StreamChunks | week8/live-audio/backend/server.js:417-479 | when the data handlers run one after another, buffer and cutter after every data event depend only on the concatenated stream text |
| LiveServer.StreamReply | week8/live-audio/backend/server.js:415-514 | when the handlers run one after another, the stored reply depends only on the concatenated stream text, and the end aborts exactly when the carried line cannot be read; when the remaining sentence is blank the stored reply is the as-written one |
| AsrProviders.OrDefault | week8/live-audio/backend/utils/providers/asrProviders.js:22-24 | an option that is absent or 0 takes the default, any other value is kept |
| AsrProviders.WavHeader | week8/live-audio/backend/utils/providers/asrProviders.js:26-50 | the header is 44 bytes |
| AsrProviders.WavHeaderFields | week8/live-audio/backend/utils/providers/asrProviders.js:26-50 | reading the header back gives the four tags at offsets 0, 8, 12 and 36 and every numeric field (sizes, PCM tag, channels, rate, byte rate, block align, sample width) at its offset with the value written |
| AsrProviders.WriteRiff | week8/live-audio/backend/utils/providers/asrProviders.js:33-36 | the first writes lay down the RIFF tag, the RIFF size and the WAVE tag |
| AsrProviders.WriteFormat | week8/live-audio/backend/utils/providers/asrProviders.js:39-46 | the format-chunk writes extend the header to its first 36 bytes |
| AsrProviders.WriteHeader | week8/live-audio/backend/utils/providers/asrProviders.js:26-50 | the writes in place, in order, produce exactly `WavHeader` |
| AsrProviders.CreateWavBuffer | week8/live-audio/backend/utils/providers/asrProviders.js:21-53 | the buffer is built exactly when every field fits its width (otherwise RangeError); it is the header for the resolved format followed by the samples unchanged |
| AsrProviders.FormatFitsQuotients | week8/live-audio/backend/utils/providers/asrProviders.js:26-27 | the widths are checked on the unrounded byte rate and block align: the format fits exactly when the three fields and both quotients lie in their ranges, and then the rounded values fit too |
| AsrProviders.FractionalBlockAlignRefused | week8/live-audio/backend/utils/providers/asrProviders.js:44-45 | a block align of 65535.75, whose whole part fits 16 bits, is refused |
| AsrProviders.CreateProviderOutcomes | week8/live-audio/backend/utils/providers/asrProviders.js:243-266 | a provider is built exactly for a configured, supported name whose key is set, carrying that entry and key and of the named kind; an unconfigured name fails with its message |
| Vad.Frames | week8/live-audio/backend/utils/vad.js:151-155 | a buffer yields as many frames as whole 1024-byte blocks it holds |
| Vad.FramesMeaning | week8/live-audio/backend/utils/vad.js:148-155 | framing loses and invents nothing: the frames followed by the residual are the buffer, every frame is 1024 bytes, less than a frame is left |
| Vad.StepMeaning | week8/live-audio/backend/utils/vad.js:157-214 | one frame keeps the detector state well formed, emits at most one event, which carries the whole segment, lasts at least the minimum and leaves the detector idle; a frame whose inference cannot run changes nothing |
| Vad.VoicedFrame | week8/live-audio/backend/utils/vad.js:165-177 | a frame above the threshold opens a segment holding just that frame when idle, or extends the open one, and marks the time of speech |
| Vad.UnvoicedFrame | week8/live-audio/backend/utils/vad.js:179-209 | a frame at or below the threshold is ignored when idle, extends the segment within the silence limit, and past it closes the segment with an event exactly when it lasted long enough |
| Vad.FailureIsSilence | week8/live-audio/backend/utils/vad.js:127-130 | a failed inference counts exactly as probability 0.0 |
| Vad.RunMeaning | week8/live-audio/backend/utils/vad.js:153-217 | over a whole call the state stays well formed and every event is a non-empty whole-frame segment of at least the minimum duration, stamped with the call's time |
| Vad.QuietRun | week8/live-audio/backend/utils/vad.js:144-209 | a call in which any open segment was last voiced at the call's own time emits nothing |
| Vad.AtMostOneEnd | week8/live-audio/backend/utils/vad.js:144-217 | with one timestamp per call and a non-negative silence limit, a call ends at most one segment |
| Vad.VoiceActivityDetector.constructor | week8/live-audio/backend/utils/vad.js:7-24 | a loaded detector starts idle with nothing buffered |
| Vad.VoiceActivityDetector.ProcessAudioChunk | week8/live-audio/backend/utils/vad.js:138-218 | the chunk joins the buffer, every whole frame runs through the state machine in order as `Run` says, and the residual stays buffered |
| Vad.VoiceActivityDetector.FeedFrame | week8/live-audio/backend/utils/vad.js:157-214 | the loop body for one frame does what `Step` says |
| Vad.VoiceActivityDetector.ForceEndSpeech | week8/live-audio/backend/utils/vad.js:224-248 | an open segment long enough is returned and the detector goes idle keeping its residual; otherwise everything is reset and nothing returned |
| Vad.VoiceActivityDetector.Reset | week8/live-audio/backend/utils/vad.js:253-264 | no segment and no buffered audio remain |
| Vad.VoiceActivityDetector.GetState | week8/live-audio/backend/utils/vad.js:270-278 | the report gives the speaking flag, buffer size and threshold, and a duration of 0 when there is no (truthy) start time |
| NumberWords.HundredsText | week8/live-audio/backend/utils/textProcessor.js:50-53 | the hundreds of a group are spelled as a digit name and "hundred", each followed by a space, or nothing |
| NumberWords.TensText | week8/live-audio/backend/utils/textProcessor.js:55-65 | the last two digits are spelled as a tens name and maybe a digit, a teen, a digit, or nothing |
| NumberWords.ConvertGroup | week8/live-audio/backend/utils/textProcessor.js:47-68 | `convertGroup` appends each word of the group followed by a space, in order |
| NumberWords.GroupWordsSpellsWords | week8/live-audio/backend/utils/textProcessor.js:47-68 | a group spells as letters-only words, and says nothing exactly for 0 |
| NumberWords.WordListAreWords | week8/live-audio/backend/utils/textProcessor.js:73-80 | every word of a spelled number is a non-empty run of lower-case letters |
| NumberWords.WordListNonEmpty | week8/live-audio/backend/utils/textProcessor.js:73-80 | a positive number says at least one word |
| NumberWords.SpelledIsSpaced | week8/live-audio/backend/utils/textProcessor.js:70-80 | the text the loop builds is the word list, each word followed by a space, plus one extra space when the lowest group is non-zero (after its empty scale name) |
| NumberWords.TrimSpelled | week8/live-audio/backend/utils/textProcessor.js:82 | trimming the loop's text gives the words joined by single spaces; below 10^12 this is exactly what the as-written scale list (ending at billion) gives |
| NumberWords.SpokenBelowTrillion | week8/live-audio/backend/utils/textProcessor.js:43 | below 10^12 the corrected and the as-written scale lists speak every number alike |
| NumberWords.SpelledStep | week8/live-audio/backend/utils/textProcessor.js:73-80 | one loop pass moves one group, with its words and scale name, from what is left to spell to the front of the result |
| NumberWords.NumberToWords | week8/live-audio/backend/utils/textProcessor.js:39-83 | `numberToWords` returns "zero" for 0 and otherwise the spoken form: non-zero base-1000 groups, most significant first, each with its scale name, joined by single spaces |
| NumberWords.HundredsRead | week8/live-audio/backend/utils/textProcessor.js:50-53 | reading the hundreds words back adds 100 times the digit |
| NumberWords.TensRead | week8/live-audio/backend/utils/textProcessor.js:55-65 | reading the tens words back adds the two-digit value |
| NumberWords.GroupWordsReadBack | week8/live-audio/backend/utils/textProcessor.js:47-68 | reading a group's words back yields the group |
| NumberWords.ScalesClose | week8/live-audio/backend/utils/textProcessor.js:43 | each scale word closes the group read so far at its power of 1000 |
| NumberWords.AllGroupsRead | week8/live-audio/backend/utils/textProcessor.js:73-80 | reading the whole word list back gives the thousands part closed and the lowest group pending |
| NumberWords.NumberWordsRoundTrip | week8/live-audio/backend/utils/textProcessor.js:39-83 | below 10^18 the words of a number read back to that number |
| NumberWords.SpokenIsWords | week8/live-audio/backend/utils/textProcessor.js:39-83 | the spoken form of a positive number is a non-empty list of letter words joined by single spaces |
| NumberWords.TrillionAsWritten | week8/live-audio/backend/utils/textProcessor.js:43-76 | with the four scale names as written, 10^12 is spoken "one undefined", which reads back as no number |
| NumberWords.TrillionCorrected | week8/live-audio/backend/utils/textProcessor.js:43-76 | with the extended scale table, 10^12 is "one trillion" and reads back as 10^12 |
| NumberWords.SameBelowTrillion | week8/live-audio/backend/utils/textProcessor.js:43 | below 10^12 the extended table spells every number exactly as the four names do |
| SpecialCharacters.SpecialNamesGood | week8/live-audio/backend/utils/textProcessor.js:87-109 | the special-character table names each character once, with names spelled in letters, for characters that are not letters |
| SpecialCharacters.PunctuationNamesGood | week8/live-audio/backend/utils/textProcessor.js:111-123 | the same for the punctuation table |
| SpecialCharacters.PronounceKeepsOut | week8/live-audio/backend/utils/textProcessor.js:128-136 | naming a table's characters brings in no character other than letters and spaces |
| SpecialCharacters.PronounceGone | week8/live-audio/backend/utils/textProcessor.js:128-130 | after naming, no character of the table is left |
| SpecialCharacters.PronounceAbsent | week8/live-audio/backend/utils/textProcessor.js:128-130 | a text with none of the table's characters is left alone |
| SpecialCharacters.PronounceSpelling | week8/live-audio/backend/utils/textProcessor.js:128-130 | a text of letters and spaces is left alone |
| SpecialCharacters.PronounceEntry | week8/live-audio/backend/utils/textProcessor.js:128-130 | a table character on its own is read as its name between spaces |
| SpecialCharacters.PronounceSpecialKeepsOut | week8/live-audio/backend/utils/textProcessor.js:86-140 | `pronounceSpecialCharacters` brings in nothing but letters and spaces |
| SpecialCharacters.PronounceSpecialGone | week8/live-audio/backend/utils/textProcessor.js:86-140 | no special character is left, and in code no punctuation either |
| TextProcessor.LinksAbsent | week8/live-audio/backend/utils/textProcessor.js:14 | a text without "[" is left alone by the link rule |
| TextProcessor.LinkReplaced | week8/live-audio/backend/utils/textProcessor.js:14 | a link "[t](u)" is replaced by its text t |
| TextProcessor.LinksKeepOut | week8/live-audio/backend/utils/textProcessor.js:14 | the link rule brings in no new character |
| TextProcessor.StripMarksAbsent | week8/live-audio/backend/utils/textProcessor.js:17-30 | a text without the mark characters is left alone by the header, quote and list rules |
| TextProcessor.StripMarkedLine | week8/live-audio/backend/utils/textProcessor.js:17-30 | a line starting with marks and a space loses them |
| TextProcessor.StripMarksKeepOut | week8/live-audio/backend/utils/textProcessor.js:17-30 | the line-mark rules bring in no new character |
| TextProcessor.RulesAbsent | week8/live-audio/backend/utils/textProcessor.js:27 | a text without "-", "*" or "_" is left alone by the rule-line rule |
| TextProcessor.RuleRemoved | week8/live-audio/backend/utils/textProcessor.js:27 | a run of three or more rule characters is deleted |
| TextProcessor.RulesKeepOut | week8/live-audio/backend/utils/textProcessor.js:27 | the rule-line rule brings in no new character |
| TextProcessor.UnfenceNoFence | week8/live-audio/backend/utils/textProcessor.js:33 | after removing fences, no run of three backticks is left, even where a deletion brings backticks together |
| TextProcessor.UnfenceKeepsOut | week8/live-audio/backend/utils/textProcessor.js:33 | fence removal brings in no new character |
| TextProcessor.UnemphasiseClean | week8/live-audio/backend/utils/textProcessor.js:20-21 | after emphasis removal no star and no underscore is left |
| TextProcessor.UnemphasiseKeepsOut | week8/live-audio/backend/utils/textProcessor.js:20-21 | emphasis removal brings in no new character |
| TextProcessor.MarkdownClean | week8/live-audio/backend/utils/textProcessor.js:10-36 | the markdown-free text is trimmed and holds no star, no underscore and no run of three backticks |
| TextProcessor.MarkdownKeepsOut | week8/live-audio/backend/utils/textProcessor.js:10-36 | markdown stripping only deletes: a character absent from the input is absent from the output |
| TextProcessor.MarkdownPlain | week8/live-audio/backend/utils/textProcessor.js:10-36 | trimmed text without markdown characters comes through unchanged |
| TextProcessor.MarkdownLink | week8/live-audio/backend/utils/textProcessor.js:10-36 | a lone link "[t](u)" becomes "t" |
| TextProcessor.SpokenSpelling | week8/live-audio/backend/utils/textProcessor.js:39-83 | a spoken number is made of letters and spaces |
| TextProcessor.DigitValue | week8/live-audio/backend/utils/textProcessor.js:152 | a digit character's value is below 10 and is the digit it reads |
| TextProcessor.DigitWords | week8/live-audio/backend/utils/textProcessor.js:152 | one word per fraction digit |
| TextProcessor.NumberTextSpelling | week8/live-audio/backend/utils/textProcessor.js:150-154 | what a number is replaced by is made of letters and spaces |
| TextProcessor.DigitRun | week8/live-audio/backend/utils/textProcessor.js:146 | the leading digit run is maximal |
| TextProcessor.MatchNumber | week8/live-audio/backend/utils/textProcessor.js:146 | a match of `\d+\.?\d*` at a digit is non-empty, its integer and fraction parts are digits |
| TextProcessor.MatchInteger | week8/live-audio/backend/utils/textProcessor.js:146 | a digit run not followed by a dot matches as a whole number |
| TextProcessor.MatchDecimal | week8/live-audio/backend/utils/textProcessor.js:146 | digits, a dot and digits match as a decimal |
| TextProcessor.SpeakWithMatch | week8/live-audio/backend/utils/textProcessor.js:146-155 | the scan replaces the match at a digit with the callback's answer and continues after it |
| TextProcessor.PronounceNumbersNoDigit | week8/live-audio/backend/utils/textProcessor.js:143-156 | Chinese text is returned unchanged; for any other language no digit is left |
| TextProcessor.PronounceNumbersKeepsOut | week8/live-audio/backend/utils/textProcessor.js:143-156 | number spelling brings in only letters and spaces |
| TextProcessor.NumberReplaced | week8/live-audio/backend/utils/textProcessor.js:146-154 | a digit run not followed by a dot is spoken as its value, exactly as the as-written scale list speaks it when the value is below 10^12 |
| TextProcessor.DecimalReplaced | week8/live-audio/backend/utils/textProcessor.js:150-152 | a decimal is spoken as its integer part, "point", then its fraction digits one by one; below 10^12 the integer part is spoken exactly as with the as-written scale list |
| TextProcessor.SpeakNumbersPlain | week8/live-audio/backend/utils/textProcessor.js:146 | text without digits is left alone |
| TextProcessor.TrailingDot | week8/live-audio/backend/utils/textProcessor.js:150-152 | a number ending in a dot is read with nothing after "point" |
| TextProcessor.EmotionsAbsent | week8/live-audio/backend/utils/textProcessor.js:160 | a text without stars is left alone by the stage-direction rule |
| TextProcessor.EmotionDropped | week8/live-audio/backend/utils/textProcessor.js:160 | a stage direction "*w*" is deleted with its stars |
| TextProcessor.EmotionsKeepOut | week8/live-audio/backend/utils/textProcessor.js:160 | the stage-direction rule brings in no new character |
| TextProcessor.EmotionsIdempotent | week8/live-audio/backend/utils/textProcessor.js:159-161 | deleting stage directions is idempotent: a second pass changes nothing |
| TextProcessor.CodeBlocksAbsent | week8/live-audio/backend/utils/textProcessor.js:165 | a text without backticks is left alone by the code rule |
| TextProcessor.InlineCode | week8/live-audio/backend/utils/textProcessor.js:164-170 | inline code between single backticks is read as x with its punctuation named |
| TextProcessor.FencedCode | week8/live-audio/backend/utils/textProcessor.js:164-170 | a fenced block is read as its content with its punctuation named |
| TextProcessor.CodeBlocksKeepOut | week8/live-audio/backend/utils/textProcessor.js:164-170 | reading code aloud brings in only letters and spaces |
| TextProcessor.PreprocessKeepsOut | week8/live-audio/backend/utils/textProcessor.js:174-183 | the whole pipeline brings in only letters and spaces: a character that is neither and is absent from the sentence is absent from the result |
| TextProcessor.PreprocessClean | week8/live-audio/backend/utils/textProcessor.js:174-183 | the result is trimmed, has no special character left, and outside Chinese holds no digit |
| TextProcessor.EmotionsNeverFire | week8/live-audio/backend/utils/textProcessor.js:177-179 | inside the pipeline the stage-direction step only trims: markdown stripping already removed every star |
| TextProcessor.MarkdownStars | week8/live-audio/backend/utils/textProcessor.js:20 | markdown stripping turns "*w*" into "w" |
| TextProcessor.StageDirectionSpoken | week8/live-audio/backend/utils/textProcessor.js:174-183 | a stage direction such as "*smiles*" is read out as "smiles" |
| LlmProviders.KindOf | week8/live-audio/backend/utils/providers/llmProviders.js:214-224 | the class chosen for a name: OpenRouter for exactly the two OpenRouter names, OpenAI for "openai", ARK for "ark", none otherwise |
| LlmProviders.CreateProviderOutcomes | week8/live-audio/backend/utils/providers/llmProviders.js:202-225 | a provider is built exactly when the name is configured, its key is set and non-empty, and the name is supported; it carries that entry and key; an unknown name and a missing key raise their own messages, in that order |
| LlmProviders.ConfiguredKinds | week8/live-audio/backend/utils/providers/llmProviders.js:214-224 | both OpenRouter names share one class, and every configured name is supported |
| LlmProviders.Headers | week8/live-audio/backend/utils/providers/llmProviders.js:90-97 | every provider sends the bearer token and the JSON content type; OpenRouter alone adds its referrer and title, and no other header is sent |
| LlmProviders.OptionOr | week8/live-audio/backend/utils/providers/llmProviders.js:38 | an option's value is used when it is present and truthy in JavaScript's sense, the default otherwise |
| LlmProviders.PayloadFields | week8/live-audio/backend/utils/providers/llmProviders.js:33-41 | every option reaches the payload unchanged and wins over the defaults; each default (model, messages, streaming, 4096 tokens) shows only where no option names it; only ARK adds a temperature; nothing else is in the payload |
| LlmProviders.ArkKeepsZeroTemperature | week8/live-audio/backend/utils/providers/llmProviders.js:148-158 | an explicit temperature of 0 reaches ARK even though `0 \|\| 0.7` is 0.7, because the options are spread last |
| LlmProviders.ChatResultShape | week8/live-audio/backend/utils/providers/llmProviders.js:48-83 | a result holds a response exactly when it succeeded, an error exactly when it failed, and succeeds exactly when the post of this provider's request did; the error is the body's message when non-empty, the error's own message otherwise; the tag names the provider class |
| SpeechToText.SufficientAt16k | week8/live-audio/backend/utils/speechToText.js:110-127 | at the configured 16 kHz, a buffer is enough to transcribe exactly when it is present and holds at least 3200 bytes (a tenth of a second of 16-bit samples) |
| SpeechToText.SufficientGrows | week8/live-audio/backend/utils/speechToText.js:110-127 | appending audio to a sufficient buffer keeps it sufficient |
| SpeechToText.SurvivorsExactly | week8/live-audio/backend/utils/speechToText.js:81-103 | after a clean-up a file is still there exactly when it was there and is not older than ten minutes or could not be deleted |
| SpeechToText.SurvivorsFresh | week8/live-audio/backend/utils/speechToText.js:81-103 | when every deletion succeeds no stale file is left |
| SpeechToText.SpeechToTextService.constructor | week8/live-audio/backend/utils/speechToText.js:7-13 | a new service has no provider yet and sees the temporary directory's files |
| SpeechToText.SpeechToTextService.InitializeProvider | week8/live-audio/backend/utils/speechToText.js:18-27 | the configured provider name, "openai" when empty, is built by the factory and becomes the provider; a factory error is passed on and the provider stays as it was |
| SpeechToText.SpeechToTextService.SwitchProvider | week8/live-audio/backend/utils/speechToText.js:33-41 | the provider is replaced exactly when the factory builds the named one; otherwise the error is passed on and the old provider stays; the temporary files are untouched |
| SpeechToText.SpeechToTextService.TranscribeAudioWraps | week8/live-audio/backend/utils/speechToText.js:58-76 | transcription throws exactly when no provider is set; a provider's failure becomes an unsuccessful result with empty text and the provider's message; a provider's result is returned unchanged |
| SpeechToText.SpeechToTextService.ProviderInfoShape | week8/live-audio/backend/utils/speechToText.js:133-144 | without a provider the info says "none" and "not initialized"; with one it holds exactly the provider, model, address and "ready" status, with the provider's model and address |
| SpeechToText.SpeechToTextService.CleanupTempFiles | week8/live-audio/backend/utils/speechToText.js:81-103 | the directory's files become exactly the survivors of the clean-up, in order, and the provider is untouched |
| AudioWorklet.Frames | week8/live-audio/frontend/public/audioWorklet.js:28-31 | the frames taken off a buffer are each exactly 1024 samples long, as many as fit whole |
| AudioWorklet.Leftover | week8/live-audio/frontend/public/audioWorklet.js:28-30 | less than one frame stays behind |
| AudioWorklet.FramesCover | week8/live-audio/frontend/public/audioWorklet.js:28-31 | the frames, one after the other, followed by what stays behind, are the buffer: no sample is lost, repeated or reordered |
| AudioWorklet.Clamp | week8/live-audio/frontend/public/audioWorklet.js:35 | a sample is clamped into [-1, 1], and one already inside is unchanged |
| AudioWorklet.Truncate | week8/live-audio/frontend/public/audioWorklet.js:36 | storing into an `Int16Array` truncates toward zero |
| AudioWorklet.Pcm | week8/live-audio/frontend/public/audioWorklet.js:35-36 | a PCM value lies in the 16-bit range; full scale maps to 32767 and -32768; its sign is the sample's sign |
| AudioWorklet.PcmMonotone | week8/live-audio/frontend/public/audioWorklet.js:35-36 | a louder sample never gets a smaller PCM value |
| AudioWorklet.ConvertChunk | week8/live-audio/frontend/public/audioWorklet.js:33-37 | the conversion loop yields the PCM value of every sample of the frame, each within 16 bits |
| AudioWorklet.AudioProcessor.constructor | week8/live-audio/frontend/public/audioWorklet.js:2-8 | the capture processor starts with an empty buffer |
| AudioWorklet.AudioProcessor.Process | week8/live-audio/frontend/public/audioWorklet.js:10-44 | with no input nothing changes and nothing is posted; otherwise the new samples join the buffer, every whole frame of the joined buffer is posted in order as PCM, and less than one frame stays |
| AudioWorklet.Block | week8/live-audio/frontend/public/audioWorklet.js:127-149 | the block played from a position holds the queued samples from there on, and silence past the end of the queue |
| AudioWorklet.BlocksConsecutive | week8/live-audio/frontend/public/audioWorklet.js:127-149 | two blocks played one after the other within the queue play what one longer block plays: each queued sample is played once, in order |
| AudioWorklet.FillColumn | week8/live-audio/frontend/public/audioWorklet.js:130-132 | one sample is written into every channel at one offset, and nothing else changes |
| AudioWorklet.FillSilence | week8/live-audio/frontend/public/audioWorklet.js:108-110 | every channel is filled with silence |
| AudioWorklet.EchoProcessor.constructor | week8/live-audio/frontend/public/audioWorklet.js:48-58 | the playback processor starts with an empty queue, at position 0, neither playing nor muted, with no notification sent |
| AudioWorklet.EchoProcessor.OnMessage | week8/live-audio/frontend/public/audioWorklet.js:60-100 | samples are dropped while muted, start a new queue when nothing plays and join the queue otherwise, and turn playback on; "clear" and "mute" empty the queue, stop, mute and post `queue_empty`; "unmute" lifts only the mute and the notification flag; any other command changes nothing; muted never plays and the position stays within the queue |
| AudioWorklet.EchoProcessor.Process | week8/live-audio/frontend/public/audioWorklet.js:103-158 | muted, stopped or with an empty queue, every channel gets silence and a playback still on is stopped with one `queue_empty`; otherwise every channel gets the next block of the queue; a block that runs past the end empties the queue, stops and posts `queue_empty` once, and one within the queue moves the position by its length |
| SearchTools.ClampResults | week4/perception-tools/src/search_tools.py:65 | the number of results asked for is clamped into [1, 10], and one already inside is kept |
| SearchTools.CollectedExactly | week4/perception-tools/src/search_tools.py:91-112 | a result is collected exactly when it comes from one of the blocks read that has a title link, numbered by its position on the page |
| SearchTools.SearchWeb | week4/perception-tools/src/search_tools.py:61-158 | a missing or blank query and a failed request are reported with the "search_error" type; otherwise the first clamped number of blocks are read and each one with a title link becomes a result, so the count equals the number of results and never exceeds the clamped limit |
| SearchTools.Snippet | week4/perception-tools/src/search_tools.py:277-279 | a snippet is at most 300 characters long |
| SearchTools.HitForMeaning | week4/perception-tools/src/search_tools.py:270-285 | a file gives a hit exactly when it is a text, Markdown or JSON file that could be read and whose text contains the query, ignoring case; the hit names the file, counts at least one occurrence and has a snippet of at most 300 characters |
| SearchTools.HitsFrom | week4/perception-tools/src/search_tools.py:267-288 | the collected hits are exactly the hits of the walked entries, and each counts at least one occurrence |
| SearchTools.InsertKeeps | week4/perception-tools/src/search_tools.py:291 | inserting a hit into sorted hits adds exactly that hit and keeps the order among equally relevant hits |
| SearchTools.InsertSorted | week4/perception-tools/src/search_tools.py:291 | inserting a hit keeps the hits sorted by falling relevance |
| SearchTools.SortByRelevanceCorrect | week4/perception-tools/src/search_tools.py:291 | the stable sort orders the hits by falling relevance, is a permutation, and keeps the walk order among equally relevant hits |
| SearchTools.SearchKnowledgeBase | week4/perception-tools/src/search_tools.py:239-327 | a missing path and one that is not a directory are reported with the "kb_search_error" type; otherwise the hits of the walk are sorted and cut to `top_k` with Python slicing, and the reported total equals the number of kept hits |
| SearchTools.KbResultsRanked | week4/perception-tools/src/search_tools.py:267-302 | the kept hits come in falling relevance, and each comes from a searchable file containing the query and counts at least one occurrence |
| FilesystemTools.ReadFile | week4/perception-tools/src/filesystem_tools.py:38-84 | a missing path and one that is not a file are reported with the "file_read_error" type; otherwise `truncated` holds exactly when the text is longer than `max_length`, the text is then its first `max_length` characters and is otherwise whole, and the size is the file's |
| FilesystemTools.LineMatchesExactly | week4/perception-tools/src/filesystem_tools.py:136-143 | a match names its file, a 1-based line number of a line that matches and that line stripped, and every matching line is reported |
| FilesystemTools.LineMatchesPrefix | week4/perception-tools/src/filesystem_tools.py:136-143 | the matches of the first lines of a file are a prefix of the matches of the whole file |
| FilesystemTools.TakeAppend | week4/perception-tools/src/filesystem_tools.py:145-149 | taking the first matches of two runs one after the other takes from the first run first |
| FilesystemTools.ScanCapped | week4/perception-tools/src/filesystem_tools.py:130-149 | below the cap the loops return exactly the first matches of the whole walk, in order, up to the cap |
| FilesystemTools.GrepCapped | week4/perception-tools/src/filesystem_tools.py:145-149 | the intended grep returns no more than `max_results` matches and none beyond the walk's |
| FilesystemTools.GrepAgrees | week4/perception-tools/src/filesystem_tools.py:130-149 | for a positive cap the loops as written return exactly the intended first `max_results` matches |
| FilesystemTools.GrepOverCap | week4/perception-tools/src/filesystem_tools.py:138-149 | with a cap of 0 the loops as written still return one match, where the intended grep returns none |
| FilesystemTools.TruncatedWithoutDropping | week4/perception-tools/src/filesystem_tools.py:163 | when exactly `max_results` matches exist, all are returned and `truncated` is still set |
| FilesystemTools.ScanFile | week4/perception-tools/src/filesystem_tools.py:134-146 | the line loop over one file appends the file's matches in order until the cap check after an append stops it |
| FilesystemTools.GrepSearch | week4/perception-tools/src/filesystem_tools.py:109-190 | a missing directory, a path that is not a directory and a pattern that does not compile are reported with the "grep_error" type; otherwise the result is the first `max_results` matches of the walk in order (none for a cap below 1, as the corrected grep; for a cap of at least 1 exactly the as-written scan), the total is their count and `truncated` says whether the count reached `max_results` |
| FilesystemTools.SkipEnds | week4/perception-tools/src/filesystem_tools.py:219 | skipping a run of sentence ends leaves a text that does not start with one |
| FilesystemTools.SkipEndsWithout | week4/perception-tools/src/filesystem_tools.py:219 | skipping sentence ends loses no other character |
| FilesystemTools.SplitSentencesCover | week4/perception-tools/src/filesystem_tools.py:219 | splitting on runs of sentence ends gives pieces with no sentence end that, put together, are the text without its sentence ends |
| FilesystemTools.ExtractBounds | week4/perception-tools/src/filesystem_tools.py:220-224 | the extracted summary only grows from what it was and ends at most two characters past `max_length` |
| FilesystemTools.Truncation | week4/perception-tools/src/filesystem_tools.py:229 | a text within `max_length` is kept whole; a longer one becomes its first `max_length` characters and "..." |
| FilesystemTools.SummarizeText | week4/perception-tools/src/filesystem_tools.py:193-238 | the lengths reported are those of the text and of the summary; the model branch always falls back to truncation; the extractive branch gives the extracted sentences, or the truncation when not even the first piece fits |
| FilesystemTools.ExtractedLength | week4/perception-tools/src/filesystem_tools.py:217-225 | an extracted summary is never longer than `max_length` plus its closing ". " |
| Orpheus.Framed | week7/orpheus/inference.py:117-124 | a framed prompt is three tokens longer than the tokenized prompt |
| Orpheus.MaxLength | week7/orpheus/inference.py:127 | the width is the length of the longest framed row: no row is longer and one row has it |
| Orpheus.PaddingShape | week7/orpheus/inference.py:131-141 | a padded row ends with the row after nothing but pad tokens, and its mask is 0 over the padding and 1 over the row, adding up to the row's length |
| Orpheus.PrepareInputs | week7/orpheus/inference.py:108-148 | with no prompt nothing is prepared (Python's `max` of an empty list raises); otherwise every prompt, with its voice prefix, is tokenized, framed and padded on the left to the longest row, with its mask |
| Orpheus.PreparedRows | week7/orpheus/inference.py:108-148 | every prepared row has the common width, ends with the start-of-human token, the prompt's tokens, the end-of-text and end-of-human tokens, after nothing but padding, and its mask adds up to the token count plus three |
| Orpheus.Accepted | week7/orpheus/inference.py:216-236 | the frames kept are those before the first frame with a code outside its codebook |
| Orpheus.AcceptedStops | week7/orpheus/inference.py:226-236 | once a frame is rejected no later frame is kept |
| Orpheus.LayersSnoc | week7/orpheus/inference.py:218-244 | one more frame adds its first code to layer 1, its second and fifth to layer 2 and the other four to layer 3, each shifted by its codebook |
| Orpheus.Reassemble | week7/orpheus/inference.py:238-244 | rebuilding frames from the three layers gives seven codes per frame |
| Orpheus.ReassembleLayers | week7/orpheus/inference.py:216-244 | rebuilding the frames from the layers gives back the code list's first frames: redistribution loses and reorders nothing |
| Orpheus.LayersInRange | week7/orpheus/inference.py:226-244 | every code handed to the decoder lies in [0, 4095] |
| Orpheus.RedistributeShape | week7/orpheus/inference.py:209-258 | redistribution keeps exactly the frames before the first invalid one, with 1, 2 and 4 codes per frame in the three layers, all within the codebook, and gives silence exactly when no frame is kept |
| Orpheus.RedistributeAgrees | week7/orpheus/inference.py:216 | the loop as written and the intended one agree unless the length leaves 6 over 7 |
| Orpheus.SixCodesRaise | week7/orpheus/inference.py:216-224 | six codes make the loop as written read a seventh and raise, where the intended loop gives silence |
| Orpheus.RedistributeCodes | week7/orpheus/inference.py:209-258 | the loop as written computes the as-written redistribution: the index error, silence, or the layers of the frames it kept |
| Orpheus.LastIndexOf | week7/orpheus/inference.py:164-168 | the last occurrence of a token: no later occurrence follows it, and none exists when there is none |
| Orpheus.LastColumn | week7/orpheus/inference.py:164-168 | there is no crop column exactly when no row holds a start-of-speech token |
| Orpheus.CropSingleRow | week7/orpheus/inference.py:166-171 | for one row the crop keeps exactly what follows the last start-of-speech token, so none is left, and keeps the row whole when it has none |
| Orpheus.WithoutEndOfSpeech | week7/orpheus/inference.py:174-177 | removing end-of-speech tokens leaves none and leaves a row without any unchanged |
| Orpheus.CodeList | week7/orpheus/inference.py:181-186 | a code list holds whole frames of seven, drops fewer than seven tokens, and each code is its token minus the first audio token |
| Orpheus.DecodeAudio | week7/orpheus/inference.py:160-194 | one redistribution per generated row |
| Orpheus.DecodeNeverRaises | week7/orpheus/inference.py:160-194 | the code lists built from generated rows hold whole frames, so on them the loop as written never raises and agrees with the intended one |
| EvaluateFromCache.BoxedGroupMeaning | week7/Intuitor/evaluate_from_cache.py:27 | the boxed pattern matches at an index with a group exactly when `\boxed{`, a non-empty group without `}` and `}` occur there |
| EvaluateFromCache.BoxedMatch | week7/Intuitor/evaluate_from_cache.py:27 | the search finds the leftmost index where the boxed pattern matches, and none when it matches nowhere |
| EvaluateFromCache.ExtractBoxed | week7/Intuitor/evaluate_from_cache.py:14-31 | a boxed answer never holds `}` |
| EvaluateFromCache.ExtractBoxedFound | week7/Intuitor/evaluate_from_cache.py:14-31 | the leftmost boxed group is the answer, stripped |
| EvaluateFromCache.ExtractBoxedAbsent | week7/Intuitor/evaluate_from_cache.py:14-31 | there is no boxed answer exactly when no boxed group occurs anywhere |
| EvaluateFromCache.ExtractGsm8kSplit | week7/Intuitor/evaluate_from_cache.py:34-51 | with the `####` marker present the text splits into at least two parts, and the answer is the second part stripped; without it there is none |
| EvaluateFromCache.CleanedShape | week7/Intuitor/evaluate_from_cache.py:66-72 | cleaning leaves no brace, comma or space and keeps a digit exactly when the text had one |
| EvaluateFromCache.CleanedKeepsNumber | week7/Intuitor/evaluate_from_cache.py:66-72 | a text made only of digits, `-` and `.` is left unchanged by cleaning |
| EvaluateFromCache.SearchNumeralMeaning | week7/Intuitor/evaluate_from_cache.py:75 | the number pattern matches exactly when the text holds a digit; the match is spelled out where it starts, no earlier position can start a match, and the match cannot be extended |
| EvaluateFromCache.SpellingRoundTrip | week7/Intuitor/evaluate_from_cache.py:75 | searching a number's own spelling reads that number back from its first character |
| EvaluateFromCache.NormalizeNumberNone | week7/Intuitor/evaluate_from_cache.py:54-89 | normalisation yields a result exactly when the text holds a digit |
| EvaluateFromCache.RenderInteger | week7/Intuitor/evaluate_from_cache.py:80-85 | the integer rendering is chosen exactly when the value is an integer, and it spells that integer |
| EvaluateFromCache.CanonicalSpelling | week7/Intuitor/evaluate_from_cache.py:80-85 | every rendering is the spelling of a number that renders the same way |
| EvaluateFromCache.NormalizeSpelling | week7/Intuitor/evaluate_from_cache.py:54-89 | normalising a number's spelling gives its rendering |
| EvaluateFromCache.NormalizeIdempotent | week7/Intuitor/evaluate_from_cache.py:54-89 | normalisation is idempotent: what it returns, it returns again |
| EvaluateFromCache.CanonicalInteger | week7/Intuitor/evaluate_from_cache.py:82-83 | every integer's own decimal spelling is already normalised |
| EvaluateFromCache.Last200 | week7/Intuitor/evaluate_from_cache.py:114 | the fallback part is the text's last 200 characters, or the whole text when it is shorter |
| EvaluateFromCache.ExtractUsesBoxed | week7/Intuitor/evaluate_from_cache.py:104-118 | the leftmost boxed answer is used when it is not blank |
| EvaluateFromCache.ExtractUsesMarker | week7/Intuitor/evaluate_from_cache.py:107-118 | without a boxed answer, a non-blank `####` answer is used |
| EvaluateFromCache.ExtractFallsBack | week7/Intuitor/evaluate_from_cache.py:111-118 | with neither, the number is looked for in the last 200 characters |
| EvaluateFromCache.ExtractCanonical | week7/Intuitor/evaluate_from_cache.py:92-118 | whatever is extracted is already normalised |
| EvaluateFromCache.GoldCanonical | week7/Intuitor/evaluate_from_cache.py:135-140 | a gold answer is already normalised |
| EvaluateFromCache.GoldAnswers | week7/Intuitor/evaluate_from_cache.py:130-140 | the gold answers are keyed by exactly the dataset positions, each the normalised `####` answer of its solution |
| EvaluateFromCache.ParseIdRoundTrip | week7/Intuitor/evaluate_from_cache.py:183-189 | every integer's spelling parses back to it as a sample id |
| EvaluateFromCache.Excerpt | week7/Intuitor/evaluate_from_cache.py:218 | the excerpt of a model output is a prefix of it, or its first 200 characters and "..." |
| EvaluateFromCache.TallyMeaning | week7/Intuitor/evaluate_from_cache.py:178-225 | rows without a usable id or a gold answer are skipped; the total counts the graded rows, the correct count the rows whose extracted answer equals the gold one, every other graded row is an error whose prediction differs from the gold answer, and correct plus errors is the total |
| EvaluateFromCache.CrashSticks | week7/Intuitor/evaluate_from_cache.py:192 | once reading a row's output raised, the whole evaluation has raised |
| EvaluateFromCache.Accuracy | week7/Intuitor/evaluate_from_cache.py:228 | the accuracy is a percentage when answers were graded, and 0 when none was |
| EvaluateFromCache.EvaluateFromParquet | week7/Intuitor/evaluate_from_cache.py:153-253 | no gold answers means no report; the loop raises exactly when reading some row raises; otherwise the report holds the tally of the rows and its accuracy |
| EvaluateFromCache.ReportAccuracy | week7/Intuitor/evaluate_from_cache.py:227-228 | a report's accuracy lies between 0 and 100 |
| PromptDistillation.SpaceRunEnd | week7/prompt-distillation/evaluate.py:48-49 | the greedy `\s*` run ends at the first character that is not whitespace |
| PromptDistillation.PrefixedCode | week7/prompt-distillation/evaluate.py:48-49 | the search finds a code after the marker at some position, and none when no position gives one |
| PromptDistillation.PrefixPatternsNeverMatch | week7/prompt-distillation/evaluate.py:48-54 | the "Final Answer:" and "Language:" patterns never match, because the reply is lower-cased before they are tried and they hold capitals |
| PromptDistillation.NormalisedTrimmed | week7/prompt-distillation/evaluate.py:52 | the normalised reply neither starts nor ends with whitespace |
| PromptDistillation.ParseLabelMeaning | week7/prompt-distillation/evaluate.py:42-62 | the label is the stripped, lower-cased reply when that is exactly two letters, and there is none otherwise |
| PromptDistillation.CountSome | week7/prompt-distillation/evaluate.py:136 | the number of parsed predictions is at most the number of predictions |
| PromptDistillation.CountNone | week7/prompt-distillation/evaluate.py:137 | the number of unparseable predictions is at most the number of predictions |
| PromptDistillation.PredictedPlusUnparseable | week7/prompt-distillation/evaluate.py:133-138 | every prediction is parsed or unparseable, never both: the two counts add up to the total |
| PromptDistillation.Matches | week7/prompt-distillation/evaluate.py:117-121 | the correct count over the first predictions is at most their number |
| PromptDistillation.MatchesSnoc | week7/prompt-distillation/evaluate.py:117-121 | appending a prediction leaves the count over the earlier ones alone, and adds one comparison when it has a label |
| PromptDistillation.Evaluated | week7/prompt-distillation/evaluate.py:117 | the number of evaluated sentences is the smaller of the number of sentences and of labels |
| PromptDistillation.ParseAndCompare | week7/prompt-distillation/evaluate.py:75-130 | every reply is parsed in order, and each prediction that has a label is compared with it: the total is the number of labelled sentences, the correct count the number of matches among them |
| PromptDistillation.EvaluateModel | week7/prompt-distillation/evaluate.py:65-145 | the predictions are the parsed replies, one per sentence; parsed and unparseable predictions add up to the total; scores are present exactly when labels were given, and then count the evaluated sentences and the correct ones, with the accuracy their ratio, or 0 with nothing evaluated |

## Left out

- Language-model, HTTP, ONNX and torch calls are not modelled as code. Their results are inputs: scripted replies, parsed response bodies (None when the request failed), per-frame speech probabilities and tool outcomes.
- Host-side effects are not modelled: file writes, directory walks, temporary directories, trajectory saving, code and shell execution, and wall-clock time. The clock and file contents are parameters.
- Concurrency is not modelled: WebSocket wiring, the MCP server sessions and their thread bridge, the TTS queue with its timers and resampling, and the FastAPI server. VAD chunks are processed one call after another.
- The MCP tool branch of the event agent's dispatch, and its code interpreter and shell tools, are not modelled. Their handlers are outcomes supplied with each call.
- The coding agent's Anthropic path is not modelled. Its `input_json_delta` handling keeps the last fragment that parses on its own instead of accumulating them.
- The coding agent's system-hint bookkeeping is not modelled. The hint for each pass is an input.
- Image attachments in the live server's reply generation (`latestImage`) and `franc` language detection are not modelled.
- Speech synthesis, the speech-to-text providers' own requests, and connection cleanup handlers are not modelled.
- TextProcessor.RemoveEmoji: only trims; the emoji-regex character classes are not modelled, because that library's tables are not visible.
- NumberWords.NumberWordsRoundTrip: proved for integers below 10^18 (the corrected scales end at quadrillion). Digit runs are read as unbounded integers, so `parseInt`'s loss of precision above 2^53 is not modelled.
- Floating-point arithmetic is modelled with exact reals or left out. This covers worklet samples, the float32 rounding and NaN of PCM scaling, mono averaging of several input channels in the capture processor, `compression_ratio` in `summarize_text`, and Python's float rendering.
- EvaluateFromCache.NormalizeNumber: a non-integer value is rendered as its plain decimal without trailing zeros. Exponent forms such as "1e-05", rounding beyond 17 significant digits and integers above 2^53 are not modelled, nor are underscores accepted by `int()`.
- Unicode case mapping (`lower()`, `toLowerCase()`), `isalpha` and `isspace` are modelled for ASCII and Latin-1 only (Common.LowerChar maps A to Z and U+00C0 to U+00DE except U+00D7). Python's `\d` is modelled as the ASCII digits.
- AudioWorklet.EchoProcessor.Process: requires at least one output channel, as a Web Audio output always carries one. The source reads `output[0]` only when playing; the silent branch loops over however many channels there are, so a channel-less output is not modelled.
- SpeechToText.SpeechToTextService.constructor: the source constructor also creates the temporary directory and calls `initializeProvider`. The model runs InitializeProvider as its own step after construction.
- The Orpheus SNAC decode, the tokenizer and the model's generation are not modelled. Token ids are inputs, and decoding stops at the codes handed to the decoder.
- Evaluation glue is not modelled: dataset and parquet loading, byte decoding, verbose printing and model generation in `evaluate_model`. The reply to each sentence is an input.
- `download_file` in the search tools (a URL download and a file write), HTML parsing of web results, and URL validation are not modelled.
- EventTypes.FromDict: the model's event holds typed fields (content, timestamp and id as strings, metadata as a string map). A dictionary whose content or timestamp is not a string, whose metadata is not a dictionary, or whose id is a dictionary is reported as TypeMismatch, where `from_dict` passes such values through unchecked.
- EventAgent.ReadUpdate: a status that is not a string is reported as "value is not a valid TodoStatus" instead of with the value's `repr`.
- EventAgent.ContentText: a TODO content that is a fractional number, a list or a dictionary renders as the empty text instead of its `repr`.
- EventAgent.DetailedError: the `json.dumps(arguments, indent=2)` rendering of the arguments and the `traceback.format_exc()` text are inputs carried by each tool call (its `argsDump` and `trace`), not computed from the arguments or the exception.
- EventAgent.LogRaises: only the one line of the logging that can raise is modelled; the log text itself, and the logging of an error text or of a successful result, which never raise, are left out.
- EventAgent.Agent.ExecuteTool: a map does not keep the order of the keywords or of a dictionary's keys, so which extra keyword is named and the order in which a dictionary is looped over are chosen by the model.
- RagAgent.Agent.Query: builds the corrected history window (RagAgent.BuildMessagesWindowed). For a limit of 0 it sends no history where `history[-limit:]` sends all of it, and for a negative limit it sends none where the source drops the oldest entries. For a positive limit its ensures states it matches the as-written window.
- LiveServer.AiResponse.OnEnd: stores the received content with the remaining sentence once, where the source appends that sentence a second time ("Hi" is stored as "HiHi"). When the remaining sentence is blank its ensures states it matches the as-written entry; LiveServer.AsWrittenRepeatsTail states the difference otherwise.
- LiveServer.StreamReply: the same corrected stored reply as LiveServer.AiResponse.OnEnd, and the same agreement when the remaining sentence is blank.
- LiveServer.AiResponse.OnData: each `data` event is modelled as running to completion before the next event is handled. The source's handler is async. It splits the buffer at once, but it pauses at `await this.synthesizeAndStreamAudio(...)` after each completed sentence, and the stream does not wait for it. A later data handler, or the end handler, can then run while lines of the paused handler are still unread, so content can reach `currentSentence` and `accumulatedContent` out of stream order. That interleaving is not modelled.
- LiveServer.AiResponse.OnEnd: modelled as running after every data handler has finished. In the source it can run while a data handler is paused at the synthesis `await`, and then store the reply and send `ai_response_complete` before that handler's remaining lines are fed. Its own `await` before the final append also lets a paused data handler resume in between. Neither interleaving is modelled.
- LiveServer.StreamChunks: the result that buffer and cutter depend only on the concatenated stream text holds for data handlers run one after another. It is not promised when the source's async handlers interleave at the synthesis `await`.
- LiveServer.StreamReply: its chunk independence is likewise proved for handlers run one after another, not for handlers that interleave at the synthesis `await`.
- NumberWords.NumberToWords: uses the corrected scale list through quadrillion. From 10^12 the source's list, which ends at billion, speaks "undefined" for the scale. Below 10^12 its ensures states it matches the as-written list (NumberWords.SpokenBelowTrillion).
- TextProcessor.NumberText: speaks numbers with NumberWords.NumberToWords, so it differs from the source from 10^12 exactly as that member does; so do TextProcessor.PreprocessSentence and TextProcessor.SpeakNumbers.
- TextProcessor.NumberReplaced: differs from the source for values from 10^12 as NumberWords.NumberToWords does; below that its ensures states the as-written result.
- TextProcessor.DecimalReplaced: differs from the source for integer parts from 10^12 as NumberWords.NumberToWords does; below that its ensures states the as-written result.
- FilesystemTools.GrepSearch: uses the corrected cap (FilesystemTools.GrepCapped). A cap below 1 returns no match where the source returns the first one. For a cap of at least 1 its ensures states it matches the as-written scan.
- Default parameter values are not modelled. Every argument is passed explicitly.

## Findings

| source | as written | input that shows it | evidently intended | confidence | as-written member | corrected member |
|---|---|---|---|---|---|---|
| week8/live-audio/backend/server.js:499 | at stream end the remaining sentence is appended to the accumulated reply, which already holds it | a reply "Hi" with no sentence end is stored in the chat history as "HiHi" | the stored reply is exactly the content received | not executed | LiveServer.TailRepeatedAsWritten | LiveServer.FinalContentIsReceived |
| week3/agentic-rag/agent.py:142-156 | the history window is `history[-limit:]` | a limit of 0 sends the whole history, because `[-0:]` is the whole list | a limit of 0 sends no history | not executed | RagAgent.BuildMessagesLimitZero | RagAgent.BuildMessagesWindowed |
| week8/live-audio/backend/utils/textProcessor.js:43-76 | the scale names stop at billion, so the fifth group reads `scales[4]` | 10^12 is spoken "one undefined" | 10^12 is spoken "one trillion" | not executed | NumberWords.TrillionAsWritten | NumberWords.TrillionCorrected |
| week4/perception-tools/src/filesystem_tools.py:145-149 | the cap is checked only after a match is appended | `max_results` 0 with one matching line returns that match | no more than `max_results` matches | not executed | FilesystemTools.GrepOverCap | FilesystemTools.GrepCapped |
| week7/orpheus/inference.py:216 | frames are counted as `(len(codes) + 1) // 7` | 6 codes make one frame and index 6 raises IndexError; `_decode_audio` passes only whole frames, so this is latent | only whole frames are read | not executed | Orpheus.SixCodesRaise | Orpheus.RedistributeShape |
