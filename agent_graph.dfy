/** server/src/core/agent/graph.py: the four nodes registered on a state
    graph, chained by edges from the entry point to END, and the compiled
    agent that runs them in that order. */
module AgentGraph {
  import opened Wrappers
  import opened Text
  import opened State
  import opened External
  import DocumentSearch
  import MemorySearch
  import Retrieval
  import Reasoning
  import ToolExecution
  import FinalResponse

  /** The node functions the graph can hold. */
  datatype Stage = RetrieveStage | ReasonStage | ToolStage | FinalStage

  /** Where an edge leads: a named node, or END. */
  datatype Target = To(name: string) | End

  /** A compiled graph: its nodes by name, one outgoing edge per node, and
      the entry point if one was set. */
  datatype Graph = Graph(nodes: map<string, Stage>, edges: map<string, Target>, entry: Option<string>)

  /** The builder `StateGraph(AgentState)`, mutated by the calls that
      register nodes, edges and the entry point. */
  class StateGraph {
    var nodes: map<string, Stage>
    var edges: map<string, Target>
    var entry: Option<string>

    constructor ()
      ensures nodes == map[] && edges == map[] && entry == None
    {
      nodes := map[];
      edges := map[];
      entry := None;
    }

    method AddNode(name: string, stage: Stage)
      modifies this
      ensures nodes == old(nodes)[name := stage]
      ensures edges == old(edges) && entry == old(entry)
    {
      nodes := nodes[name := stage];
    }

    method AddEdge(source: string, target: Target)
      modifies this
      ensures edges == old(edges)[source := target]
      ensures nodes == old(nodes) && entry == old(entry)
    {
      edges := edges[source := target];
    }

    method SetEntryPoint(name: string)
      modifies this
      ensures entry == Some(name)
      ensures nodes == old(nodes) && edges == old(edges)
    {
      entry := Some(name);
    }

    function Compile(): Graph
      reads this
    {
      Graph(nodes, edges, entry)
    }
  }

  /** The graph the module builds, with the node names it uses (the first
      one spelled "retriveal"). */
  const Agent: Graph := Graph(
    map["retriveal" := RetrieveStage, "reasoning" := ReasonStage,
        "tool_execution" := ToolStage, "final_response" := FinalStage],
    map["retriveal" := To("reasoning"), "reasoning" := To("tool_execution"),
        "tool_execution" := To("final_response"), "final_response" := End],
    Some("retriveal"))

  /** The module-level construction: four nodes, the entry point, four edges. */
  method BuildAgent() returns (g: Graph)
    ensures g == Agent
  {
    var graph := new StateGraph();
    graph.AddNode("retriveal", RetrieveStage);
    graph.AddNode("reasoning", ReasonStage);
    graph.AddNode("tool_execution", ToolStage);
    graph.AddNode("final_response", FinalStage);
    graph.SetEntryPoint("retriveal");
    graph.AddEdge("retriveal", To("reasoning"));
    graph.AddEdge("reasoning", To("tool_execution"));
    graph.AddEdge("tool_execution", To("final_response"));
    graph.AddEdge("final_response", End);
    g := graph.Compile();
  }

  /** The stages visited from `name` by following edges until END, at most
      `fuel` of them; None when a name is unknown or the fuel runs out. */
  function Walk(g: Graph, name: string, fuel: nat): (r: Option<seq<Stage>>)
    ensures r.Some? ==> 1 <= |r.value| <= fuel && name in g.nodes && r.value[0] == g.nodes[name]
    decreases fuel
  {
    if fuel == 0 || name !in g.nodes || name !in g.edges then None
    else match g.edges[name]
      case End => Some([g.nodes[name]])
      case To(next) =>
        match Walk(g, next, fuel - 1)
        case None => None
        case Some(rest) => Some([g.nodes[name]] + rest)
  }

  /** The order in which the compiled graph runs its nodes: a walk from the
      entry point that visits no node twice can take at most one step per node. */
  function Schedule(g: Graph): Option<seq<Stage>> {
    match g.entry
    case None => None
    case Some(start) => Walk(g, start, |g.nodes|)
  }

  /** The agent runs retrieval, reasoning, tool execution and the final
      response, each once, in that order. */
  lemma AgentSchedule()
    ensures Schedule(Agent) == Some([RetrieveStage, ReasonStage, ToolStage, FinalStage])
  {
    assert |Agent.nodes| == 4;
    assert [RetrieveStage] + [ReasonStage, ToolStage, FinalStage] == [RetrieveStage, ReasonStage, ToolStage, FinalStage];
    assert Agent.edges["final_response"] == End;
    assert Walk(Agent, "final_response", 1) == Some([FinalStage]);
    assert Agent.edges["tool_execution"] == To("final_response");
    assert Walk(Agent, "tool_execution", 2) == Some([ToolStage] + [FinalStage]);
    assert Agent.edges["reasoning"] == To("tool_execution");
    assert [ToolStage] + [FinalStage] == [ToolStage, FinalStage];
    assert Walk(Agent, "reasoning", 3) == Some([ReasonStage] + [ToolStage, FinalStage]);
    assert Agent.edges["retriveal"] == To("reasoning");
    assert [ReasonStage] + [ToolStage, FinalStage] == [ReasonStage, ToolStage, FinalStage];
    assert Walk(Agent, "retriveal", 4) == Some([RetrieveStage] + [ReasonStage, ToolStage, FinalStage]);
  }

  /** One node applied to the shared state; the tool node is its pure form. */
  function RunStage(stage: Stage, s: AgentState, env: Env): AgentState {
    match stage
    case RetrieveStage => Retrieval.RetrievalNode(s, env.index)
    case ReasonStage => Reasoning.ReasoningNode(s, env.llm)
    case ToolStage => ToolExecution.ToolExecutionStep(s, env)
    case FinalStage => FinalResponse.FinalResponseNode(s, env.llm)
  }

  /** Each stage's output is the next one's input. */
  function RunStages(stages: seq<Stage>, s: AgentState, env: Env): AgentState
    decreases |stages|
  {
    if stages == [] then s else RunStages(stages[1..], RunStage(stages[0], s, env), env)
  }

  /** `graph.compile().invoke(state)`: None when the graph does not run. */
  function Invoke(g: Graph, s: AgentState, env: Env): Option<AgentState> {
    match Schedule(g)
    case None => None
    case Some(stages) => Some(RunStages(stages, s, env))
  }

  /** `agent.invoke(state)`: the four nodes composed in the order of the edges. */
  function AgentInvoke(s: AgentState, env: Env): (r: AgentState)
    ensures r == FinalResponse.FinalResponseNode(
                   ToolExecution.ToolExecutionStep(
                     Reasoning.ReasoningNode(Retrieval.RetrievalNode(s, env.index), env.llm), env), env.llm)
  {
    RunStages([RetrieveStage, ReasonStage, ToolStage, FinalStage], s, env)
  }

  /** The built graph always runs, and running it is `AgentInvoke`. */
  lemma {:induction false} AgentRunsGraph(s: AgentState, env: Env)
    ensures Invoke(Agent, s, env) == Some(AgentInvoke(s, env))
  {
    AgentSchedule();
  }

  /** The draft the reasoning node writes, from the retrieved state. */
  function Draft(s: AgentState, env: Env): string {
    Reasoning.ReasoningNode(Retrieval.RetrievalNode(s, env.index), env.llm).response
  }

  /** Across one run: the messages, the session and the query are as given;
      the tool calls are exactly those the query selects; the context is the
      two labelled search answers and always holds the document label. */
  lemma {:induction false} AgentOutcome(s: AgentState, env: Env)
    ensures var r := AgentInvoke(s, env);
            && r.messages == s.messages && r.sessionId == s.sessionId && r.userQuery == s.userQuery
            && r.toolCalls == ToolExecution.SelectedToolCalls(s.userQuery, env)
            && r.context == Retrieval.RetrievalContext(
                 DocumentSearch.FormatDocumentResults(env.index(DocumentSearch.DocumentQuery(s.userQuery))),
                 MemorySearch.FormatMemoryResults(env.index(MemorySearch.MemoryQuery(s.userQuery, s.sessionId))))
            && Contains(r.context, Retrieval.DocumentLabel)
  {
    var r1 := Retrieval.RetrievalNode(s, env.index);
    Retrieval.RetrievalOutcome(s, env.index);
    var r2 := Reasoning.ReasoningNode(r1, env.llm);
    Reasoning.ReasoningOutcome(r1, env.llm);
    var r3 := ToolExecution.ToolExecutionStep(r2, env);
    if r3.toolCalls != [] {
      FinalResponse.FinalResponseOutcome(r3, env.llm);
    }
    Retrieval.ContextSections(
      DocumentSearch.FormatDocumentResults(env.index(DocumentSearch.DocumentQuery(s.userQuery))),
      MemorySearch.FormatMemoryResults(env.index(MemorySearch.MemoryQuery(s.userQuery, s.sessionId))));
  }

  /** A query with no web or date keyword makes no tool call, and the
      answer is the reasoning draft unchanged. */
  lemma {:induction false} NoKeywordKeepsDraft(s: AgentState, env: Env)
    requires !ToolExecution.WantsWeb(s.userQuery) && !ToolExecution.WantsDate(s.userQuery)
    ensures AgentInvoke(s, env).toolCalls == []
    ensures AgentInvoke(s, env).response == Draft(s, env)
  {
    var r2 := Reasoning.ReasoningNode(Retrieval.RetrievalNode(s, env.index), env.llm);
    var r3 := ToolExecution.ToolExecutionStep(r2, env);
    assert r3.toolCalls == [];
    FinalResponse.NoToolsPassThrough(r3, env.llm, env.llm);
  }

  /** The final node keeps any prefix of the draft unless it replaces the
      draft with a successful enhancement. */
  lemma {:induction false} FinalKeepsPrefix(r: AgentState, llm: string -> Outcome<string>, prefix: string)
    requires StartsWith(r.response, prefix)
    requires r.toolCalls == [] || llm(FinalResponse.EnhancedPrompt(r.response, FinalResponse.ToolContext(r.toolCalls))).Err?
    ensures StartsWith(FinalResponse.FinalResponseNode(r, llm).response, prefix)
  {
    if r.toolCalls != [] {
      FinalResponse.FinalResponseOutcome(r, llm);
      var e := llm(FinalResponse.EnhancedPrompt(r.response, FinalResponse.ToolContext(r.toolCalls))).reason;
      var tail := FinalResponse.FailureNote + e;
      assert r.response + FinalResponse.FailureNote + e == r.response + tail;
      StartsWithTag(r.response, tail);
      StartsWithTrans(prefix, r.response, r.response + tail);
    }
  }

  /** Graceful degradation: when the reasoning call fails the turn still
      answers, with the failure sentence at the start of the response,
      unless tool results were added and the enhancement call succeeded. */
  lemma {:induction false} ReasoningFailureSurfaces(s: AgentState, env: Env, e: string)
    requires var s1 := Retrieval.RetrievalNode(s, env.index);
             env.llm(Reasoning.ReasoningPrompt(s1.userQuery, s1.context, Reasoning.ChatContext(s1.messages))) == Err(e)
    requires var r3 := ToolExecution.ToolExecutionStep(Reasoning.ReasoningNode(Retrieval.RetrievalNode(s, env.index), env.llm), env);
             r3.toolCalls == [] || env.llm(FinalResponse.EnhancedPrompt(r3.response, FinalResponse.ToolContext(r3.toolCalls))).Err?
    ensures StartsWith(AgentInvoke(s, env).response, "Error generating response: " + e)
  {
    var s1 := Retrieval.RetrievalNode(s, env.index);
    var r2 := Reasoning.ReasoningNode(s1, env.llm);
    Reasoning.ReasoningOutcome(s1, env.llm);
    var r3 := ToolExecution.ToolExecutionStep(r2, env);
    var msg := "Error generating response: " + e;
    assert r2.response == msg;
    assert r3.response == r2.response;
    FinalKeepsPrefix(r3, env.llm, msg);
    assert AgentInvoke(s, env) == FinalResponse.FinalResponseNode(r3, env.llm);
  }
}
