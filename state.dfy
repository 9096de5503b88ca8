/** The per-turn record threaded through the agent pipeline
    (server/src/core/agent/state.py) and the records inside it. */
module State {

  /** One chat message, `{"role": ..., "content": ...}`. */
  datatype Message = Message(role: string, content: string)

  /** One tool invocation, `{"tool": ..., "query": ..., "result": ...}`. */
  datatype ToolCall = ToolCall(tool: string, query: string, result: string)

  /** The `AgentState` typed dictionary; every stage returns a copy with
      one field replaced, which is `s.(field := value)` here. */
  datatype AgentState = AgentState(
    messages: seq<Message>,
    sessionId: string,
    userQuery: string,
    context: string,
    response: string,
    toolCalls: seq<ToolCall>)
}
