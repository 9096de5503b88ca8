/** server/src/core/agent/nodes/tool_execution_node.py: keyword dispatch to
    the web and date tools, building a fresh `tool_calls` list. */
module ToolExecution {
  import opened Wrappers
  import opened Text
  import opened State
  import opened External
  import opened WebSearch
  import opened DateRetrieval

  const WebKeywords: seq<string> := ["latest", "current", "today", "news", "recent", "2024", "2025"]
  const DateKeywords: seq<string> := ["when", "date", "time", "today", "now"]

  /** The web check: some keyword is a substring of the lower-cased query. */
  predicate WantsWeb(query: string) {
    ContainsAny(Lower(query), WebKeywords)
  }

  /** The date check, by substring too (so "know" matches "now"). */
  predicate WantsDate(query: string) {
    ContainsAny(Lower(query), DateKeywords)
  }

  function WebCall(query: string, env: Env): ToolCall {
    ToolCall("web_search", query, WebSearchTool(query, env.webApi))
  }

  function DateCall(query: string, env: Env): ToolCall {
    ToolCall("date_retrieval", query, DateRetrievalTool(query, env.clock, env.parseDate))
  }

  /** The calls the node makes for `query`: web first, then date. */
  function SelectedToolCalls(query: string, env: Env): seq<ToolCall> {
    (if WantsWeb(query) then [WebCall(query, env)] else []) +
    (if WantsDate(query) then [DateCall(query, env)] else [])
  }

  /** The node as a state transformer, for the pipeline. */
  function ToolExecutionStep(s: AgentState, env: Env): AgentState {
    s.(toolCalls := SelectedToolCalls(s.userQuery, env))
  }

  /** The node as the source writes it: an empty list grown by two
      independent checks, web first. */
  method ToolExecutionNode(s: AgentState, env: Env) returns (r: AgentState)
    ensures r == ToolExecutionStep(s, env)
    ensures r == s.(toolCalls := r.toolCalls)
    ensures |r.toolCalls| <= 2
  {
    var query := s.userQuery;
    var toolCalls: seq<ToolCall> := [];
    if ContainsAny(Lower(query), WebKeywords) {
      var searchResult := WebSearchTool(query, env.webApi);
      toolCalls := toolCalls + [ToolCall("web_search", query, searchResult)];
    }
    if ContainsAny(Lower(query), DateKeywords) {
      var dateResult := DateRetrievalTool(query, env.clock, env.parseDate);
      toolCalls := toolCalls + [ToolCall("date_retrieval", query, dateResult)];
    }
    r := s.(toolCalls := toolCalls);
  }

  /** A web call is present exactly when a web keyword occurs, a date call
      exactly when a date keyword occurs; there is at most one of each, web
      before date; every call carries the user's query verbatim and one of
      the two tool names, with that tool's answer as its result. */
  lemma {:induction false} ToolSelection(query: string, env: Env)
    ensures var calls := SelectedToolCalls(query, env);
            && ((exists i :: 0 <= i < |calls| && calls[i].tool == "web_search") <==> WantsWeb(query))
            && ((exists i :: 0 <= i < |calls| && calls[i].tool == "date_retrieval") <==> WantsDate(query))
            && |calls| == (if WantsWeb(query) then 1 else 0) + (if WantsDate(query) then 1 else 0)
            && (WantsWeb(query) && WantsDate(query) ==>
                  calls[0].tool == "web_search" && calls[1].tool == "date_retrieval")
            && (forall i :: 0 <= i < |calls| ==>
                  && calls[i].query == query
                  && (calls[i].tool == "web_search" || calls[i].tool == "date_retrieval")
                  && (calls[i].tool == "web_search" ==> calls[i].result == WebSearchTool(query, env.webApi))
                  && (calls[i].tool == "date_retrieval" ==>
                        calls[i].result == DateRetrievalTool(query, env.clock, env.parseDate)))
  {
    var calls := SelectedToolCalls(query, env);
    assert "web_search" != "date_retrieval" by { assert "web_search"[0] != "date_retrieval"[0]; }
    if WantsWeb(query) {
      assert calls[0] == WebCall(query, env);
    }
    if WantsDate(query) {
      assert calls[|calls| - 1] == DateCall(query, env);
    }
  }

  /** "today" is in both keyword lists, so it fires both tools, in order. */
  lemma TodayTriggersBoth(query: string, env: Env)
    requires Contains(Lower(query), "today")
    ensures var calls := SelectedToolCalls(query, env);
            |calls| == 2 && calls[0].tool == "web_search" && calls[1].tool == "date_retrieval"
  {
    assert WebKeywords[2] == "today" && DateKeywords[3] == "today";
  }

  /** The result depends only on the user's query: neither the draft
      response nor the calls of an earlier turn affect it. */
  lemma SelectionIgnoresOtherFields(s1: AgentState, s2: AgentState, env: Env)
    requires s1.userQuery == s2.userQuery
    ensures ToolExecutionStep(s1, env).toolCalls == ToolExecutionStep(s2, env).toolCalls
  {
  }

  /** "What's the latest news today?" fires both tools, web first. */
  lemma LatestNewsToday(env: Env)
    ensures var calls := SelectedToolCalls("What's the latest news today?", env);
            |calls| == 2 && calls[0].tool == "web_search" && calls[1].tool == "date_retrieval"
  {
    var l := Lower("What's the latest news today?");
    assert l == "what's the latest news today?";
    assert l[23..28] == "today";
    ContainsFromMatch(l, "today", 23);
    TodayTriggersBoth("What's the latest news today?", env);
  }

  /** The date check is by substring, not by word: "know" contains "now". */
  lemma KnowMatchesNow()
    ensures WantsDate("do you know")
  {
    var l := Lower("do you know");
    assert l == "do you know";
    assert l[8..11] == "now";
    ContainsFromMatch(l, "now", 8);
    assert DateKeywords[4] == "now";
  }
}
