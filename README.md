# rag-bot chat turn, modelled in Dafny

This project models the server side of one chat turn of rag-bot, a
retrieval-augmented chat service. A turn runs as follows:

1. The chat route reads the session's stored interactions back as messages.
2. It runs a four-stage agent:
   - retrieval searches the uploaded documents and the chat memory;
   - reasoning asks the model for a draft;
   - tool execution calls the web-search and date tools when keywords match;
   - the final response merges the tool results into the draft.
3. It lists the sources and stores the new interaction.

The upload path's text extraction (PDF pages, DOCX paragraphs, plain text,
XML trees) is modelled too.

There is one module per source file:

| module | file | source |
|---|---|---|
| `AgentGraph` | `agent_graph.dfy` | `graph.py` |
| `Retrieval` | `retrieval.dfy` | `retrival_node.py` |
| `Reasoning` | `reasoning.dfy` | `reasoning_node.py` |
| `ToolExecution` | `tool_execution.dfy` | `tool_execution_node.py` |
| `FinalResponse` | `final_response.dfy` | `final_response_node.py` |
| `DocumentSearch` | `document_search.dfy` | `document_search_tool.py` |
| `MemorySearch` | `memory_search.dfy` | `memory_retrival_tool.py` |
| `WebSearch` | `web_search.dfy` | `web_search_tool.py` |
| `DateRetrieval` | `date_retrieval.dfy` | `date_retrieval_tool.py` |
| `MemoryManager` | `memory_manager.dfy` | `MemoryManager.py` |
| `ChatRoute` | `chat.dfy` | `chat.py` |
| `DocumentProcessor` | `document_processor.dfy` | `document_processor.py` |

Four modules are shared:

- `State` holds `AgentState` and its records.
- `External` holds the shapes of the collaborators and the `Env` bundle of oracles.
- `Wrappers` holds `Option` and `Outcome`.
- `Text` holds Python's string operations: `in`, `lower`, `strip`, `split`, `replace`, `join`, slicing, and string comparison.

The collaborators the code only calls are inputs here:

- the two Chroma collections;
- the chat model;
- the DuckDuckGo API;
- `dateutil`;
- the clock and `uuid4`;
- the PDF, DOCX and XML parsers.

The index, the model, the web API, the date parser and the file readers
are total functions returning `Ok(value)` or `Err(message)`, where the
message is what `str(e)` of the raised exception would give. The clock
readings and the `uuid4` value are plain string parameters. Whether the
memory write succeeds is a boolean parameter, `added`.

The code works in two styles, and the model follows each:

- **Statements become methods.** Where the code builds a result step by
  step, the model is a method proved equal to a specification function.
  The loops carry their invariants: `ListResults`, `GetSessionHistory`,
  `BuildMessages`, `BuildSources`, `AccumulateLines` and `ExtractText`
  (a loop over the children inside a recursion). `ToolExecutionNode`,
  `DocumentSearchTool` and `ExtractTextFromFile` are straight-line
  methods with no loop, as in the code.
- **Expressions become functions.** Where the code is an expression, the
  model is a function, and lemmas state its properties.

The graph builder is a class whose methods update its node, edge and
entry-point fields. The compiled graph is a value, and it is walked to
find the order in which the stages run.

`chat.py` does not parse as written: its `try:` has no `except`, and
`AgentState` and `datetime` are not imported. The model follows the
route's evident straight-line logic and invents no error handling.

## Model

| member | source | states |
|---|---|---|
| WebSearch.WebSearchOutcome | server/src/core/agent/tools/web_search_tool.py:8-21 | A non-empty AbstractText gives "Search result: " + it. Otherwise a non-empty Answer gives "Answer: " + it. Otherwise the text is "No specific answer found for: " + query. A failed request gives "Search failed: " + reason. Each prefix occurs exactly in its own case. |
| DateRetrieval.DateRetrievalOutcome | server/src/core/agent/tools/date_retrieval_tool.py:9-16 | The text starts with "Current date and time: " exactly when the lower-cased input is "today", "now" or "current", and then carries the clock. Otherwise it is "Parsed date: " + the parse, or "Date parsing failed: " + reason exactly when parsing fails. |
| DateRetrieval.UpperCaseAlias | server/src/core/agent/tools/date_retrieval_tool.py:10-11 | "NOW" takes the current-time branch. |
| DateRetrieval.AliasIsWholeString | server/src/core/agent/tools/date_retrieval_tool.py:10-16 | "what is today" goes to the parser: the alias test is whole-string equality. |
| MemorySearch.JoinContains | server/src/core/agent/tools/memory_retrival_tool.py:17 | Every part of a `sep.join` appears in it verbatim. |
| MemorySearch.MemorySearchOutcome | server/src/core/agent/tools/memory_retrival_tool.py:9-21 | Failure gives "Memory search failed: " + reason. No results give "No relevant memories found.". The text starts with "Relevant memories: " exactly when there are results. It is then that label followed by the first min(3, \|memories\|) memories, in order, joined by "; ", so it contains each of them. |
| MemorySearch.MemoriesSplit | server/src/core/agent/tools/memory_retrival_tool.py:15-17 | When none of the first three memories holds a ';', splitting the listed text at ';' gives the first memory, then each further shown memory behind one space, at most three parts in all. |
| DocumentSearch.DocumentSearchTool | server/src/core/agent/tools/document_search_tool.py:8-27 | The tool's text equals the formatting of the five-result query for the user's text. |
| DocumentSearch.ListResults | server/src/core/agent/tools/document_search_tool.py:18-23 | The `+=` loop over `zip(docs[:3], sources[:3])` yields the header followed by the listed lines in order. |
| DocumentSearch.DocumentSearchOutcome | server/src/core/agent/tools/document_search_tool.py:9-27 | Failure gives "Document search failed: " + reason, and no results give "No relevant documents found.". The text starts with the header exactly when there are results. Then it is the header plus min(3, \|docs\|, \|sources\|) lines. Line i is "From " + its file name + ": " + the first 200 characters + "...\n". |
| DocumentSearch.HeaderOnlyWithoutMetadata | server/src/core/agent/tools/document_search_tool.py:16-23 | Results without metadata give the bare header. |
| DocumentSearch.FileNameUnknown | server/src/core/agent/tools/document_search_tool.py:20 | The file name is "Unknown" when the metadata is missing or has no "filename" key. Otherwise it is that key's value. |
| Retrieval.ContextSections | server/src/core/agent/nodes/retrival_node.py:17 | The context starts with "Document Context:\n" and contains both labels. The document text follows the first label, and the memory text ends the string. |
| Retrieval.RetrievalOutcome | server/src/core/agent/nodes/retrival_node.py:7-22 | The document index is queried first (five results, no filter) and the memory index second (five results, this session). Only `context` changes; it becomes the two labelled answers and holds both labels. |
| Reasoning.TranscriptLines | server/src/core/agent/nodes/reasoning_node.py:12-15 | There are min(5, \|messages\|) lines. Line i is "role: content" of the i-th of the last messages, in order. |
| Reasoning.TranscriptSplits | server/src/core/agent/nodes/reasoning_node.py:12-15 | When no role or content holds a newline, splitting the transcript at newlines gives back the lines. |
| Reasoning.PromptContainsInputs | server/src/core/agent/nodes/reasoning_node.py:18-31 | The prompt contains the query, the context and the transcript verbatim. |
| Reasoning.ReasoningOutcome | server/src/core/agent/nodes/reasoning_node.py:33-43 | On success the response is the model's content; on failure it is "Error generating response: " + reason. Every other field is unchanged. |
| ToolExecution.ToolExecutionNode | server/src/core/agent/nodes/tool_execution_node.py:9-38 | The append-built list equals the selected calls, and it replaces `tool_calls` outright. Nothing else changes, and there are at most two calls. |
| ToolExecution.ToolSelection | server/src/core/agent/nodes/tool_execution_node.py:13-33 | There is a web call exactly when a web keyword is a substring of the lower-cased query, and a date call exactly when a date keyword is. There is at most one of each, web first. Every call carries the query, one of the two tool names and that tool's answer. |
| ToolExecution.TodayTriggersBoth | server/src/core/agent/nodes/tool_execution_node.py:16-27 | A query containing "today" fires both tools, web first. |
| ToolExecution.SelectionIgnoresOtherFields | server/src/core/agent/nodes/tool_execution_node.py:9-27 | The calls depend only on `user_query`. |
| ToolExecution.LatestNewsToday | server/src/core/agent/nodes/tool_execution_node.py:16-33 | "What's the latest news today?" fires both tools, web first. |
| ToolExecution.KnowMatchesNow | server/src/core/agent/nodes/tool_execution_node.py:26-27 | "do you know" fires the date tool, since "now" is matched as a substring. |
| FinalResponse.ToolContextSplits | server/src/core/agent/nodes/final_response_node.py:13-16 | When no tool name or result holds a newline, splitting the tool context at newlines gives back the lines. |
| FinalResponse.PromptContainsDraftAndTools | server/src/core/agent/nodes/final_response_node.py:18-25 | The enhancement prompt contains the draft and the tool context verbatim. |
| FinalResponse.NoToolsPassThrough | server/src/core/agent/nodes/final_response_node.py:11-39 | With no tool calls the state is returned unchanged, whatever the model would say. |
| FinalResponse.FinalResponseOutcome | server/src/core/agent/nodes/final_response_node.py:11-37 | With tool calls, success gives the model's output. Failure gives draft + "\n\nNote: Tool enhancement failed: " + reason, with the draft as a prefix. Every other field is unchanged. |
| AgentGraph.StateGraph.constructor | server/src/core/agent/graph.py:11 | A new builder has no nodes, no edges and no entry point. |
| AgentGraph.StateGraph.AddNode | server/src/core/agent/graph.py:14-17 | Registers one node and changes nothing else. |
| AgentGraph.StateGraph.SetEntryPoint | server/src/core/agent/graph.py:20 | Sets the entry point and changes nothing else. |
| AgentGraph.StateGraph.AddEdge | server/src/core/agent/graph.py:21-24 | Sets one node's successor and changes nothing else. |
| AgentGraph.BuildAgent | server/src/core/agent/graph.py:11-27 | The module's builder calls compile to the four-node graph entered at "retriveal", ending at END after "final_response". |
| AgentGraph.Walk | server/src/core/agent/graph.py:20-24 | A successful walk starts at the named node and visits between one node and the fuel bound. |
| AgentGraph.AgentSchedule | server/src/core/agent/graph.py:20-24 | The compiled graph runs retrieval, reasoning, tool execution and final response, each once, in that order, and then ends. |
| AgentGraph.AgentInvoke | server/src/core/agent/graph.py:27 | Invoking the agent equals the composition of the four nodes in edge order. |
| AgentGraph.AgentRunsGraph | server/src/core/agent/graph.py:20-27 | Running the built graph succeeds, and its result equals the composition. |
| AgentGraph.AgentOutcome | server/src/core/agent/graph.py:14-24 | After a run, `messages`, `session_id` and `user_query` are as given, and `tool_calls` are exactly those the query selects. `context` is retrieval's labelled text and always holds "Document Context:". |
| AgentGraph.NoKeywordKeepsDraft | server/src/core/agent/graph.py:21-24 | A query with no keyword makes no tool call, and the answer is the reasoning draft unchanged. |
| AgentGraph.FinalKeepsPrefix | server/src/core/agent/nodes/final_response_node.py:33-39 | The final node keeps any prefix of the draft unless a successful enhancement replaces it. |
| AgentGraph.ReasoningFailureSurfaces | server/src/core/agent/graph.py:21-24 | When the reasoning call fails, and there are no tools or the enhancement also fails, the turn's answer starts with "Error generating response: " + reason. |
| MemoryManager.StoreInteractionOutcome | server/src/core/memory/MemoryManager.py:8-26 | A successful write appends one record: text "User: q\nAssistant: a", id starting "memory_" + session + "_", and exactly four metadata keys (session, user, timestamp, "chat_interaction"). A failed write leaves the collection as it was. |
| MemoryManager.Entries | server/src/core/memory/MemoryManager.py:38-45 | Zipping gives one entry per pair, with content, timestamp and type. It fails exactly when one of the zipped metadata entries is `None`. |
| MemoryManager.SortKeeps | server/src/core/memory/MemoryManager.py:47 | The insertion sort is a permutation (multiset equality) and is non-decreasing by timestamp string. |
| MemoryManager.SortedPairwise | server/src/core/memory/MemoryManager.py:47 | In a sorted history, any two entries, not only neighbours, are in timestamp-string order, and both carry a timestamp. |
| MemoryManager.GetSessionHistory | server/src/core/memory/MemoryManager.py:29-50 | The loop and sort return exactly the history specified for the session-filtered, `limit`-result query. |
| MemoryManager.SessionHistoryOutcome | server/src/core/memory/MemoryManager.py:38-50 | The history is [] on failure, no results, missing metadata, or a missing timestamp among two or more entries. Otherwise it is a permutation of the zipped entries, and it is always non-decreasing by timestamp string. |
| MemoryManager.HistoryWithinLimit | server/src/core/memory/MemoryManager.py:29-47 | If the index honours `n_results`, the history has at most `limit` entries, and each entry's content is a returned document. |
| ChatRoute.ParseInteractionOutcome | server/src/api/routes/chat.py:19-23 | An entry is used exactly when it contains both "User:" and "Assistant:". The user part is the text before the first "Assistant:" with every "User:" removed, stripped. The assistant part is what follows that "Assistant:", stripped. Both parts are stripped. |
| ChatRoute.StoredSplitPoint | server/src/api/routes/chat.py:20 | In a stored interaction whose user message has no "Assistant:", the first "Assistant:" opens the second line. |
| ChatRoute.StoredParts | server/src/api/routes/chat.py:20 | `split("Assistant:", 1)` of a stored interaction gives "User: q\n" and " a". |
| ChatRoute.StoredUserPart | server/src/api/routes/chat.py:22 | Removing "User:" from "User: q\n" leaves " q\n" when q has no "User:". |
| ChatRoute.ParseStoredInteraction | server/src/api/routes/chat.py:19-23 | Parsing "User: q\nAssistant: a" gives exactly (q, a) when q has neither tag and q and a are stripped. |
| ChatRoute.EntryMessages | server/src/api/routes/chat.py:19-27 | A parsed entry contributes a user and then an assistant message; a skipped one contributes none. |
| ChatRoute.ReplayMessages | server/src/api/routes/chat.py:18-27 | The replayed list has two messages per parsed entry. |
| ChatRoute.ReplayAlternates | server/src/api/routes/chat.py:24-27 | The replayed messages alternate user, assistant, user first. |
| ChatRoute.ReplayRecorded | server/src/api/routes/chat.py:17-27 | History written for replayable turns is replayed as exactly those turns' messages, in order. |
| ChatRoute.BuildMessages | server/src/api/routes/chat.py:17-30 | The loop over the last five entries, plus the final append, gives the replayed messages and then the new user message: 2·parsed + 1 messages. |
| ChatRoute.PreviewBound | server/src/api/routes/chat.py:51 | A tool preview is the result when it is at most 200 characters. Otherwise it is its first 200 characters + "...", at most 203 in all. |
| ChatRoute.BuildSources | server/src/api/routes/chat.py:46-59 | The loop and the conditional append give the specified source list. |
| ChatRoute.SourcesOutcome | server/src/api/routes/chat.py:46-59 | There is one tool source per call, in order, with the preview as content. The document source is added exactly when the context contains "Document Context:". |
| ChatRoute.Chat | server/src/api/routes/chat.py:14-74 | The response carries the agent's answer on the replayed history, the session id, the sources and the clock. The memory gains exactly the record of this exchange, or nothing when the write fails. |
| ChatRoute.TurnOutcome | server/src/api/routes/chat.py:33-59 | The agent starts from the replayed messages with the new query. The sources are the selected tool calls plus the document note, which is always last, since retrieval always writes the label. |
| ChatRoute.StoredTurnReplays | server/src/api/routes/chat.py:62-67 | The record one turn stores is read back by the next as that turn's user and assistant messages when the exchange is replayable. |
| DocumentProcessor.ExtensionOutcome | server/src/utils/document_processor.py:47 | The extension has no '.', ends the lower-cased name, and follows its last '.'. With no '.' it is the whole lower-cased name. |
| DocumentProcessor.KindDispatch | server/src/utils/document_processor.py:50-59 | "pdf" selects PDF, "doc"/"docx" DOCX, "txt" text and "xml" XML; every other extension is unsupported. |
| DocumentProcessor.AccumulateLines | server/src/utils/document_processor.py:12-17 | The `text += part + "\n"` loop gives each part followed by a line break, in order. |
| DocumentProcessor.LinesAreJoined | server/src/utils/document_processor.py:22-25 | The accumulated text is the parts joined by "\n" plus a final "\n", or "" when there are none. |
| DocumentProcessor.LinesSplit | server/src/utils/document_processor.py:12-25 | When no part holds a line break, splitting the text at line breaks gives the parts back, plus an empty last piece. |
| DocumentProcessor.ExtractText | server/src/utils/document_processor.py:37-43 | The recursive extraction equals ElementTree's itertext of the element followed by the element's own tail, so the root's tail is included. |
| DocumentProcessor.ProcessedText | server/src/utils/document_processor.py:11-43 | PDF pages and DOCX paragraphs give their texts joined by "\n" with one closing "\n", or "" when there are none. A reader's failure is passed on as the reason. A text file gives its contents. An XML file's text starts with the root's text, ends with the root's tail, and contains each child's itertext followed by its tail. |
| DocumentProcessor.DispatchOutcome | server/src/utils/document_processor.py:49-61 | Every failure has status 400 and a detail starting "Failed to process <filename>: ". An unsupported extension is named as "Unsupported file type: <ext>". A supported one succeeds exactly when its processor does, with that processor's text. |
| DocumentProcessor.ExtractTextFromFile | server/src/utils/document_processor.py:45-61 | The dispatch, calling the processors, returns exactly the specified outcome for the file's extension. |

## Left out

- `lower()` is modelled for ASCII letters only; Unicode case mapping is not modelled.
- `strip()` uses Python's `isspace` character set; other Unicode normalisation is not modelled.
- The model is one fixed oracle: a function from prompt to `Ok(content)` or `Err(reason)`. Sampling and temperature are not modelled.
- Chroma's similarity ranking, embeddings and persistence are out of scope. A query is data (`IndexQuery`: collection, text, `n_results`, session filter), and the index is a function of it.
- The order of the two retrieval calls is stated through `RetrievalQueries`, because the oracles are pure and could not observe it otherwise.
- The Chroma result's outer list (one list per query text) is collapsed to the single query's list. A `None` or empty outer list is one case, `None`, because every caller treats them alike. A result without the `documents` or `metadatas` key raises a `KeyError` in the caller; the model gives it as the index returning `Err`, which leads to the same "... search failed: ..." text or empty history.
- The DuckDuckGo HTTP request, its ten-second timeout and JSON decoding are one oracle call on the URL. The query is pasted into the URL unencoded, as in the code.
- `datetime.now().isoformat()`, `datetime.now().strftime(...)`, `datetime.now()` for the response, and `uuid.uuid4()` are string parameters.
- The langchain `@tool` wrapper around the web, date and document tools is treated as a plain call.
- A failed memory write is swallowed: its console message is not modelled. The same holds for a failed history read's console message.
- PyPDF2, python-docx and ElementTree parsing, and reading the file, are oracles of the file path. Only the accumulation and the recursion over what they return are modelled.
- The HTTP layer (FastAPI routing, the `async` endpoint, pydantic validation and serialisation) is not modelled.
- Concurrent turns in one session are not modelled.
- One turn uses one index oracle throughout, so the record a turn stores is not visible to the same turn's lookups. `StoredTurnReplays` states what the next turn reads back.
- AgentGraph.StateGraph: langgraph's checks (a duplicate node name, an edge to an unknown node, fan-out of several edges from one node) are not modelled. Each node has one successor, which is all this graph uses.
- AgentGraph.Schedule: the walk's fuel is the number of nodes. A cyclic graph would give `None` instead of running until langgraph's recursion limit.
- MemoryManager.GetSessionHistory: `limit` is a `nat`; a negative limit, which Chroma would reject, is not modelled.
- ChatRoute.Chat: the missing `except`, `AgentState` import and `datetime` import are not reproduced. Only the intended straight-line logic is modelled.
- Timestamps are compared only as strings. Chronological order is not claimed.
