/** server/src/core/agent/nodes/final_response_node.py: pass the draft
    through when no tool ran, otherwise ask the model to fold the tool
    results in, keeping the draft if that call fails. */
module FinalResponse {
  import opened Wrappers
  import opened Text
  import opened State

  /** `f"Tool {call['tool']}: {call['result']}"`. */
  function ToolLine(call: ToolCall): string {
    "Tool " + call.tool + ": " + call.result
  }

  function ToolLines(calls: seq<ToolCall>): (lines: seq<string>)
    ensures |lines| == |calls|
    ensures forall i :: 0 <= i < |calls| ==> lines[i] == ToolLine(calls[i])
  {
    seq(|calls|, i requires 0 <= i < |calls| => ToolLine(calls[i]))
  }

  /** One line per call, in call order, joined by newlines. */
  function ToolContext(calls: seq<ToolCall>): string {
    Join(ToolLines(calls), "\n")
  }

  // The fixed text of the enhancement template (eight-space indentation).
  const EnhanceIntro := "\n        Original response: "
  const EnhanceToolsLabel := "\n        \n        Additional tool results:\n        "
  const EnhanceInstructions := "\n        \n        Please provide a final comprehensive response incorporating all available information.\n        "
  const FailureNote := "\n\nNote: Tool enhancement failed: "

  function EnhancedPrompt(originalResponse: string, toolContext: string): string {
    EnhanceIntro + originalResponse + EnhanceToolsLabel + toolContext + EnhanceInstructions
  }

  function FinalResponseNode(s: AgentState, llm: string -> Outcome<string>): AgentState {
    if s.toolCalls != [] then
      match llm(EnhancedPrompt(s.response, ToolContext(s.toolCalls)))
      case Ok(content) => s.(response := content)
      case Err(e) => s.(response := s.response + FailureNote + e)
    else s
  }

  /** With no tool calls the state comes back untouched and the model is
      not consulted: any two models give the same result. */
  lemma NoToolsPassThrough(s: AgentState, llm1: string -> Outcome<string>, llm2: string -> Outcome<string>)
    requires s.toolCalls == []
    ensures FinalResponseNode(s, llm1) == s
    ensures FinalResponseNode(s, llm1) == FinalResponseNode(s, llm2)
  {
  }

  /** With tool calls: the model's answer on success; on failure the draft
      kept as a prefix, followed by the note and the reason. Only `response`
      ever changes. */
  lemma {:induction false} FinalResponseOutcome(s: AgentState, llm: string -> Outcome<string>)
    requires s.toolCalls != []
    ensures var out := llm(EnhancedPrompt(s.response, ToolContext(s.toolCalls)));
            var r := FinalResponseNode(s, llm);
            && r.messages == s.messages && r.sessionId == s.sessionId && r.userQuery == s.userQuery
            && r.context == s.context && r.toolCalls == s.toolCalls
            && (out.Ok? ==> r.response == out.value)
            && (out.Err? ==> StartsWith(r.response, s.response)
                             && r.response == s.response + FailureNote + out.reason)
  {
    var out := llm(EnhancedPrompt(s.response, ToolContext(s.toolCalls)));
    if out.Err? {
      assert s.response + FailureNote + out.reason == s.response + (FailureNote + out.reason);
      StartsWithTag(s.response, FailureNote + out.reason);
    }
  }

  /** The enhancement prompt holds the draft and the tool listing verbatim. */
  lemma PromptContainsDraftAndTools(originalResponse: string, toolContext: string)
    ensures Contains(EnhancedPrompt(originalResponse, toolContext), originalResponse)
    ensures Contains(EnhancedPrompt(originalResponse, toolContext), toolContext)
  {
    ContainsTemplateParts(EnhanceIntro, originalResponse, EnhanceToolsLabel, toolContext, EnhanceInstructions, "", "");
    assert EnhancedPrompt(originalResponse, toolContext) ==
           EnhanceIntro + originalResponse + EnhanceToolsLabel + toolContext + EnhanceInstructions + "" + "";
  }

  /** When no tool name or result holds a newline, splitting the listing at
      newlines gives back one "Tool name: result" line per call, in order. */
  lemma ToolContextSplits(calls: seq<ToolCall>)
    requires calls != []
    requires forall i :: 0 <= i < |calls| ==> '\n' !in calls[i].tool && '\n' !in calls[i].result
    ensures SplitOn(ToolContext(calls), '\n') == ToolLines(calls)
  {
    var lines := ToolLines(calls);
    forall i | 0 <= i < |lines| ensures '\n' !in lines[i] {
      assert '\n' !in "Tool " && '\n' !in ": ";
      assert lines[i] == "Tool " + calls[i].tool + ": " + calls[i].result;
    }
    SplitJoin(lines, '\n');
  }
}
