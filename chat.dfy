/** server/src/api/routes/chat.py: one chat turn — replay the session's
    recent interactions as messages, run the agent, list the sources, and
    record the interaction. */
module ChatRoute {
  import opened Wrappers
  import opened Text
  import opened State
  import opened External
  import opened MemoryManager
  import AgentGraph
  import Retrieval
  import ToolExecution

  /** The request body. */
  datatype ChatMessage = ChatMessage(message: string, sessionId: string, userId: string)

  /** One entry of `sources`: a tool result preview, or the fixed document note. */
  datatype Source = ToolSource(toolName: string, content: string) | DocumentSource(content: string)

  /** The response body; `timestamp` is `datetime.now()`. */
  datatype ChatResponse = ChatResponse(response: string, sessionId: string, sources: seq<Source>, timestamp: string)

  const UserTag := "User:"
  const AssistantTag := "Assistant:"

  /** The user and assistant parts of a stored interaction, or None when
      the entry is skipped. */
  function ParseInteraction(content: string): Option<(string, string)> {
    if Contains(content, UserTag) && Contains(content, AssistantTag) then
      var parts := SplitOnce(content, AssistantTag);
      if |parts| == 2 then Some((Strip(Remove(parts[0], UserTag)), Strip(parts[1]))) else None
    else None
  }

  /** An entry is used exactly when it holds both tags. Both parts come back
      stripped: the user part is what precedes the first "Assistant:" with
      every "User:" removed, and the assistant part is what follows it. */
  lemma {:induction false} ParseInteractionOutcome(content: string)
    ensures ParseInteraction(content).Some? <==> Contains(content, UserTag) && Contains(content, AssistantTag)
    ensures ParseInteraction(content).Some? ==>
              var i := IndexOf(content, AssistantTag).value;
              && Stripped(ParseInteraction(content).value.0) && Stripped(ParseInteraction(content).value.1)
              && ParseInteraction(content).value.0 == Strip(Remove(content[..i], UserTag))
              && ParseInteraction(content).value.1 == Strip(content[i + |AssistantTag|..])
  {
    if Contains(content, UserTag) && Contains(content, AssistantTag) {
      var parts := SplitOnce(content, AssistantTag);
      StripIsStripped(Remove(parts[0], UserTag));
      StripIsStripped(parts[1]);
      assert content[|parts[0]| + |AssistantTag|..] == parts[1];
      assert content[..|parts[0]|] == parts[0];
    }
  }

  /** A user message fit to be read back: no tag inside it, nothing for
      `strip()` to remove. */
  predicate Replayable(userMessage: string) {
    !Contains(userMessage, UserTag) && !Contains(userMessage, AssistantTag) && Stripped(userMessage)
  }

  /** The first "Assistant:" of a stored interaction opens its second line
      when the user message has none: 'A' is not in "User: " and the line
      break is not in the tag. */
  lemma {:induction false} StoredSplitPoint(userMessage: string, botResponse: string)
    requires !Contains(userMessage, AssistantTag)
    ensures var head := "User: " + userMessage + "\n";
            IndexOf(InteractionText(userMessage, botResponse), AssistantTag) == Some(|head|)
  {
    var c := InteractionText(userMessage, botResponse);
    var head := "User: " + userMessage + "\n";
    var rest := "\n" + AssistantTag + " " + botResponse;
    assert c == "User: " + userMessage + rest;
    assert c[|head|..|head| + |AssistantTag|] == AssistantTag;
    forall j | 0 <= j < |head|
      ensures !MatchAt(c, AssistantTag, j)
    {
      NoMatchInFrame("User: ", userMessage, rest, AssistantTag, j);
    }
    IndexOfIs(c, AssistantTag, |head|);
  }

  /** The two parts `split("Assistant:", 1)` gives for a stored interaction. */
  lemma {:induction false} StoredParts(userMessage: string, botResponse: string)
    requires !Contains(userMessage, AssistantTag)
    ensures SplitOnce(InteractionText(userMessage, botResponse), AssistantTag) ==
              ["User: " + userMessage + "\n", " " + botResponse]
  {
    var c := InteractionText(userMessage, botResponse);
    var head := "User: " + userMessage + "\n";
    StoredSplitPoint(userMessage, botResponse);
    assert c == head + AssistantTag + " " + botResponse;
    var parts := SplitOnce(c, AssistantTag);
    assert parts[0] == c[..|head|] == head;
    assert parts[1] == c[|head| + |AssistantTag|..] == " " + botResponse;
  }

  /** Removing "User:" from the first part leaves the message between a
      space and the line break, when the message has no "User:". */
  lemma {:induction false} StoredUserPart(userMessage: string)
    requires !Contains(userMessage, UserTag)
    ensures Remove("User: " + userMessage + "\n", UserTag) == " " + userMessage + "\n"
  {
    var mid := " " + userMessage + "\n";
    assert "User: " + userMessage + "\n" == UserTag + mid;
    RemoveLeading(UserTag, mid);
    forall j | 0 <= j
      ensures !MatchAt(mid, UserTag, j)
    {
      if j <= 1 + |userMessage| {
        NoMatchInFrame(" ", userMessage, "\n", UserTag, j);
      }
    }
    RemoveAbsent(mid, UserTag);
  }

  /** Reading back what `store_interaction` wrote gives the two messages of
      that turn, when the user message is replayable and the response has no
      outer whitespace. */
  lemma {:induction false} ParseStoredInteraction(userMessage: string, botResponse: string)
    requires Replayable(userMessage) && Stripped(botResponse)
    ensures ParseInteraction(InteractionText(userMessage, botResponse)) == Some((userMessage, botResponse))
  {
    var c := InteractionText(userMessage, botResponse);
    assert c[..5] == UserTag;
    ContainsFromMatch(c, UserTag, 0);
    StoredSplitPoint(userMessage, botResponse);
    StoredParts(userMessage, botResponse);
    StoredUserPart(userMessage);
    StripWrapped(" ", userMessage, "\n");
    assert " " + botResponse == " " + botResponse + "";
    StripWrapped(" ", botResponse, "");
  }

  /** The messages one history entry contributes: its user and assistant
      parts when it parses, nothing otherwise. */
  function EntryMessages(content: string): (ms: seq<Message>)
    ensures |ms| == if ParseInteraction(content).Some? then 2 else 0
    ensures |ms| == 2 ==> ms[0].role == "user" && ms[1].role == "assistant"
  {
    match ParseInteraction(content)
    case None => []
    case Some((user, assistant)) => [Message("user", user), Message("assistant", assistant)]
  }

  /** How many entries hold both tags. */
  function ParsedCount(entries: seq<HistoryEntry>): (n: nat)
    ensures n <= |entries|
    decreases |entries|
  {
    if entries == [] then 0
    else ParsedCount(entries[..|entries| - 1]) + (if ParseInteraction(entries[|entries| - 1].content).Some? then 1 else 0)
  }

  /** The messages replayed for a list of history entries: a user and an
      assistant message per parsed entry, skipped entries contributing none. */
  function ReplayMessages(entries: seq<HistoryEntry>): (ms: seq<Message>)
    ensures |ms| == 2 * ParsedCount(entries)
    decreases |entries|
  {
    if entries == [] then []
    else ReplayMessages(entries[..|entries| - 1]) + EntryMessages(entries[|entries| - 1].content)
  }

  /** The replayed messages alternate user, assistant, starting with user. */
  lemma {:induction false} ReplayAlternates(entries: seq<HistoryEntry>)
    ensures var ms := ReplayMessages(entries);
            forall k :: 0 <= k < ParsedCount(entries) ==> ms[2 * k].role == "user" && ms[2 * k + 1].role == "assistant"
    decreases |entries|
  {
    if entries != [] {
      var front := entries[..|entries| - 1];
      ReplayAlternates(front);
      var earlier := ReplayMessages(front);
      var last := EntryMessages(entries[|entries| - 1].content);
      var ms := earlier + last;
      forall k | 0 <= k < ParsedCount(entries)
        ensures ms[2 * k].role == "user" && ms[2 * k + 1].role == "assistant"
      {
        if 2 * k < |earlier| {
          assert ms[2 * k] == earlier[2 * k] && ms[2 * k + 1] == earlier[2 * k + 1];
        } else {
          assert ms[2 * k] == last[0] && ms[2 * k + 1] == last[1];
        }
      }
    }
  }

  /** The two messages of each turn, in order. */
  function TurnMessages(turns: seq<(string, string)>): (ms: seq<Message>)
    ensures |ms| == 2 * |turns|
    ensures forall i :: 0 <= i < |turns| ==>
              ms[2 * i] == Message("user", turns[i].0) && ms[2 * i + 1] == Message("assistant", turns[i].1)
    decreases |turns|
  {
    if turns == [] then []
    else
      var n := |turns| - 1;
      var earlier := TurnMessages(turns[..n]);
      assert forall i :: 0 <= i < n ==> turns[..n][i] == turns[i];
      earlier + [Message("user", turns[n].0), Message("assistant", turns[n].1)]
  }

  /** History written by `store_interaction` for replayable turns comes back
      as exactly those turns, in order. */
  lemma {:induction false} ReplayRecorded(entries: seq<HistoryEntry>, turns: seq<(string, string)>)
    requires |entries| == |turns|
    requires forall i :: 0 <= i < |turns| ==>
               Replayable(turns[i].0) && Stripped(turns[i].1) && entries[i].content == InteractionText(turns[i].0, turns[i].1)
    ensures ReplayMessages(entries) == TurnMessages(turns)
    decreases |entries|
  {
    if entries != [] {
      var n := |entries| - 1;
      assert forall i :: 0 <= i < n ==> entries[..n][i] == entries[i] && turns[..n][i] == turns[i];
      ReplayRecorded(entries[..n], turns[..n]);
      ParseStoredInteraction(turns[n].0, turns[n].1);
    }
  }

  /** The message list the route builds, by the loop over `chat_history[-5:]`
      and the final append. */
  method BuildMessages(history: seq<HistoryEntry>, message: string) returns (messages: seq<Message>)
    ensures messages == ReplayMessages(Last(history, 5)) + [Message("user", message)]
    ensures |messages| == 2 * ParsedCount(Last(history, 5)) + 1
    ensures messages[|messages| - 1] == Message("user", message)
  {
    var recent := Last(history, 5);
    messages := [];
    var i := 0;
    while i < |recent|
      invariant 0 <= i <= |recent|
      invariant messages == ReplayMessages(recent[..i])
    {
      assert recent[..i + 1][..i] == recent[..i];
      var hist := recent[i];
      assert ReplayMessages(recent[..i + 1]) == messages + EntryMessages(hist.content);
      if Contains(hist.content, UserTag) && Contains(hist.content, AssistantTag) {
        var parts := SplitOnce(hist.content, AssistantTag);
        if |parts| == 2 {
          var userPart := Strip(Remove(parts[0], UserTag));
          var assistantPart := Strip(parts[1]);
          messages := messages + [Message("user", userPart), Message("assistant", assistantPart)];
        }
      }
      i := i + 1;
    }
    assert recent[..i] == recent;
    messages := messages + [Message("user", message)];
  }

  /** The state the graph is started from. */
  function InitialState(messages: seq<Message>, message: ChatMessage): AgentState {
    AgentState(messages, message.sessionId, message.message, "", "", [])
  }

  /** A tool result as listed: its first 200 characters and "..." when longer. */
  function Preview(result: string): string {
    if |result| > 200 then result[..200] + "..." else result
  }

  /** At most 203 characters, a prefix of the result followed by "...", or
      the whole result when it fits. */
  lemma PreviewBound(result: string)
    ensures |Preview(result)| <= 203
    ensures |result| <= 200 ==> Preview(result) == result
    ensures |result| > 200 ==> StartsWith(result, Preview(result)[..200]) && Preview(result)[200..] == "..."
  {
  }

  const DocumentNote := "Retrieved from uploaded documents"

  /** The sources listed for a final state: one per tool call, in order,
      then the document note when the context has the document label. */
  function Sources(final: AgentState): seq<Source> {
    seq(|final.toolCalls|, i requires 0 <= i < |final.toolCalls| =>
          ToolSource(final.toolCalls[i].tool, Preview(final.toolCalls[i].result))) +
    (if Contains(final.context, Retrieval.DocumentLabel) then [DocumentSource(DocumentNote)] else [])
  }

  /** The loop that appends a source per tool call, and the conditional append. */
  method BuildSources(final: AgentState) returns (sources: seq<Source>)
    ensures sources == Sources(final)
  {
    sources := [];
    var i := 0;
    while i < |final.toolCalls|
      invariant 0 <= i <= |final.toolCalls|
      invariant |sources| == i
      invariant forall k :: 0 <= k < i ==>
                  sources[k] == ToolSource(final.toolCalls[k].tool, Preview(final.toolCalls[k].result))
    {
      var call := final.toolCalls[i];
      sources := sources + [ToolSource(call.tool, Preview(call.result))];
      i := i + 1;
    }
    if Contains(final.context, Retrieval.DocumentLabel) {
      sources := sources + [DocumentSource(DocumentNote)];
    }
  }

  /** The final state of a turn, given the history the memory returned. */
  function TurnState(message: ChatMessage, history: seq<HistoryEntry>, env: Env): AgentState {
    var messages := ReplayMessages(Last(history, 5)) + [Message("user", message.message)];
    AgentGraph.AgentInvoke(InitialState(messages, message), env)
  }

  /** The route as the source writes it. `added` says whether the memory
      write went through, `storedAt` and `uuid` are the record's timestamp
      and id suffix, `now` is the response's timestamp. */
  method Chat(message: ChatMessage, env: Env, memory: seq<MemoryRecord>, added: bool,
              storedAt: string, uuid: string, now: string)
    returns (response: ChatResponse, memoryAfter: seq<MemoryRecord>)
    ensures var history := SessionHistory(env.index(HistoryQuery(message.sessionId, DefaultLimit)));
            var final := TurnState(message, history, env);
            && response == ChatResponse(final.response, message.sessionId, Sources(final), now)
            && memoryAfter == StoreInteraction(memory, message.sessionId, message.message, final.response,
                                               message.userId, storedAt, uuid, added)
  {
    var chatHistory := GetSessionHistory(message.sessionId, DefaultLimit, env.index);
    var messages := BuildMessages(chatHistory, message.message);
    var initialState := InitialState(messages, message);
    var finalState := AgentGraph.AgentInvoke(initialState, env);
    var sources := BuildSources(finalState);
    memoryAfter := StoreInteraction(memory, message.sessionId, message.message, finalState.response,
                                    message.userId, storedAt, uuid, added);
    response := ChatResponse(finalState.response, message.sessionId, sources, now);
  }

  /** Sources list the tool calls in order, then the document note exactly
      when the context has the document label. */
  lemma {:induction false} SourcesOutcome(final: AgentState)
    ensures var sources := Sources(final);
            var calls := final.toolCalls;
            && |sources| == |calls| + (if Contains(final.context, Retrieval.DocumentLabel) then 1 else 0)
            && (forall i :: 0 <= i < |calls| ==> sources[i] == ToolSource(calls[i].tool, Preview(calls[i].result)))
            && (Contains(final.context, Retrieval.DocumentLabel) <==> DocumentSource(DocumentNote) in sources)
  {
    var sources := Sources(final);
    var calls := final.toolCalls;
    if Contains(final.context, Retrieval.DocumentLabel) {
      assert sources[|calls|] == DocumentSource(DocumentNote);
    } else {
      assert forall i :: 0 <= i < |sources| ==> sources[i].ToolSource?;
    }
  }

  /** Every turn lists one source per selected tool, web before date, and
      ends with the document note, since retrieval always writes the label;
      the agent sees the replayed history followed by the new message. */
  lemma {:induction false} TurnOutcome(message: ChatMessage, history: seq<HistoryEntry>, env: Env)
    ensures var final := TurnState(message, history, env);
            var sources := Sources(final);
            && final.toolCalls == ToolExecution.SelectedToolCalls(message.message, env)
            && |sources| == |final.toolCalls| + 1
            && sources[|sources| - 1] == DocumentSource(DocumentNote)
            && final.messages == ReplayMessages(Last(history, 5)) + [Message("user", message.message)]
            && final.userQuery == message.message && final.sessionId == message.sessionId
  {
    var messages := ReplayMessages(Last(history, 5)) + [Message("user", message.message)];
    var final := TurnState(message, history, env);
    AgentGraph.AgentOutcome(InitialState(messages, message), env);
    assert Contains(final.context, Retrieval.DocumentLabel);
    SourcesOutcome(final);
  }

  /** What one turn records is read back by the next as that turn's two
      messages, whenever the exchange is replayable. */
  lemma {:induction false} StoredTurnReplays(message: ChatMessage, botResponse: string, storedAt: string, uuid: string)
    requires Replayable(message.message) && Stripped(botResponse)
    ensures var rec := InteractionRecord(message.sessionId, message.message, botResponse, message.userId, storedAt, uuid);
            ReplayMessages([HistoryEntry(rec.document, Some(storedAt), Some("chat_interaction"))]) ==
              [Message("user", message.message), Message("assistant", botResponse)]
  {
    ParseStoredInteraction(message.message, botResponse);
    var rec := InteractionRecord(message.sessionId, message.message, botResponse, message.userId, storedAt, uuid);
    var e := [HistoryEntry(rec.document, Some(storedAt), Some("chat_interaction"))];
    assert e[..0] == [];
  }
}
