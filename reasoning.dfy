/** server/src/core/agent/nodes/reasoning_node.py: one model call over the
    query, the retrieved context and the last five messages. */
module Reasoning {
  import opened Wrappers
  import opened Text
  import opened State

  /** `f"{msg['role']}: {msg['content']}"`. */
  function MessageLine(m: Message): string {
    m.role + ": " + m.content
  }

  /** One line per message of `messages[-5:]`. */
  function TranscriptLines(messages: seq<Message>): (lines: seq<string>)
    ensures |lines| == if |messages| < 5 then |messages| else 5
    ensures forall i :: 0 <= i < |lines| ==> lines[i] == MessageLine(messages[|messages| - |lines| + i])
  {
    var recent := Last(messages, 5);
    seq(|recent|, i requires 0 <= i < |recent| => MessageLine(recent[i]))
  }

  /** The chat transcript, lines joined by newlines. */
  function ChatContext(messages: seq<Message>): string {
    Join(TranscriptLines(messages), "\n")
  }

  // The fixed text of the prompt template, with its own line breaks and
  // four-space indentation, between the three interpolated values.
  const PromptIntro := "\n    You are a helpful AI assistant with access to uploaded documents and chat history.\n    \n    User Query: "
  const PromptContextLabel := "\n    \n    Retrieved Context:\n    "
  const PromptHistoryLabel := "\n    \n    Recent Chat History:\n    "
  const PromptInstructions := "\n    \n    Please provide a comprehensive response based on the available context and your knowledge.\n    If you need additional current information, you can use tools.\n    "

  /** The prompt f-string. */
  function ReasoningPrompt(query: string, context: string, chatContext: string): string {
    PromptIntro + query + PromptContextLabel + context + PromptHistoryLabel + chatContext + PromptInstructions
  }

  function ReasoningNode(s: AgentState, llm: string -> Outcome<string>): AgentState {
    match llm(ReasoningPrompt(s.userQuery, s.context, ChatContext(s.messages)))
    case Ok(content) => s.(response := content)
    case Err(e) => s.(response := "Error generating response: " + e)
  }

  /** The draft is the model's content, or on failure a sentence naming the
      reason; either way only `response` changes. */
  lemma ReasoningOutcome(s: AgentState, llm: string -> Outcome<string>)
    ensures var out := llm(ReasoningPrompt(s.userQuery, s.context, ChatContext(s.messages)));
            var r := ReasoningNode(s, llm);
            && r.messages == s.messages && r.sessionId == s.sessionId && r.userQuery == s.userQuery
            && r.context == s.context && r.toolCalls == s.toolCalls
            && (out.Ok? ==> r.response == out.value)
            && (out.Err? ==> r.response == "Error generating response: " + out.reason)
  {
  }

  /** The prompt holds the query, the context and the transcript verbatim. */
  lemma {:induction false} PromptContainsInputs(query: string, context: string, chatContext: string)
    ensures Contains(ReasoningPrompt(query, context, chatContext), query)
    ensures Contains(ReasoningPrompt(query, context, chatContext), context)
    ensures Contains(ReasoningPrompt(query, context, chatContext), chatContext)
  {
    ContainsTemplateParts(PromptIntro, query, PromptContextLabel, context, PromptHistoryLabel, chatContext, PromptInstructions);
  }

  /** When no role or content holds a newline, splitting the transcript at
      newlines gives back one "role: content" line per recent message. */
  lemma TranscriptSplits(messages: seq<Message>)
    requires messages != []
    requires forall i :: 0 <= i < |messages| ==> '\n' !in messages[i].role && '\n' !in messages[i].content
    ensures SplitOn(ChatContext(messages), '\n') == TranscriptLines(messages)
  {
    var lines := TranscriptLines(messages);
    forall i | 0 <= i < |lines| ensures '\n' !in lines[i] {
      LineHasNoNewline(messages[|messages| - |lines| + i]);
    }
    SplitJoin(lines, '\n');
  }

  lemma LineHasNoNewline(m: Message)
    requires '\n' !in m.role && '\n' !in m.content
    ensures '\n' !in MessageLine(m)
  {
    assert '\n' !in ": ";
  }
}
