/** server/src/core/agent/nodes/retrival_node.py: search the documents,
    then the session's memories, and label both answers in `context`. */
module Retrieval {
  import opened Wrappers
  import opened Text
  import opened State
  import opened External
  import opened DocumentSearch
  import opened MemorySearch

  /** The two index queries in the order the node issues them. */
  function RetrievalQueries(s: AgentState): seq<IndexQuery> {
    [DocumentQuery(s.userQuery), MemoryQuery(s.userQuery, s.sessionId)]
  }

  /** The section label the chat route looks for. */
  const DocumentLabel := "Document Context:"
  const MemoryLabel := "\n\nMemory Context:\n"

  /** The labelled context string, `f"Document Context:\n{doc}\n\nMemory Context:\n{mem}"`. */
  function RetrievalContext(doc: string, mem: string): string {
    DocumentLabel + "\n" + doc + MemoryLabel + mem
  }

  function RetrievalNode(s: AgentState, index: IndexQuery -> Outcome<QueryResult>): AgentState {
    var queries := RetrievalQueries(s);
    var doc := FormatDocumentResults(index(queries[0]));
    var mem := FormatMemoryResults(index(queries[1]));
    s.(context := RetrievalContext(doc, mem))
  }

  /** Both labels are present whatever the two texts are; the document text
      follows the first label and the memory text ends the string. */
  lemma {:induction false} ContextSections(doc: string, mem: string)
    ensures var c := RetrievalContext(doc, mem);
            && StartsWith(c, DocumentLabel + "\n")
            && Contains(c, DocumentLabel) && Contains(c, MemoryLabel)
            && c[|DocumentLabel| + 1..|DocumentLabel| + 1 + |doc|] == doc
            && c[|c| - |mem|..] == mem
  {
    var c := RetrievalContext(doc, mem);
    var head := DocumentLabel + "\n";
    assert c == head + (doc + MemoryLabel + mem);
    StartsWithTag(head, doc + MemoryLabel + mem);
    assert c == "" + DocumentLabel + ("\n" + doc + MemoryLabel + mem);
    ContainsInfix("", DocumentLabel, "\n" + doc + MemoryLabel + mem);
    assert c == (head + doc) + MemoryLabel + mem;
    ContainsInfix(head + doc, MemoryLabel, mem);
  }

  /** The node asks the document index first (five results, no filter) and
      the chat-history index second (five results, only this session), both
      with the user's query, and changes nothing but `context`, which it
      sets to the labelled sections built from the two answers. */
  lemma {:induction false} RetrievalOutcome(s: AgentState, index: IndexQuery -> Outcome<QueryResult>)
    ensures var qs := RetrievalQueries(s);
            && |qs| == 2
            && qs[0] == IndexQuery(Documents, s.userQuery, 5, None)
            && qs[1] == IndexQuery(ChatHistory, s.userQuery, 5, Some(s.sessionId))
    ensures var r := RetrievalNode(s, index);
            var doc := FormatDocumentResults(index(RetrievalQueries(s)[0]));
            var mem := FormatMemoryResults(index(RetrievalQueries(s)[1]));
            && r.messages == s.messages && r.sessionId == s.sessionId && r.userQuery == s.userQuery
            && r.response == s.response && r.toolCalls == s.toolCalls
            && r.context == RetrievalContext(doc, mem)
            && Contains(r.context, DocumentLabel) && Contains(r.context, MemoryLabel)
  {
    var doc := FormatDocumentResults(index(RetrievalQueries(s)[0]));
    var mem := FormatMemoryResults(index(RetrievalQueries(s)[1]));
    ContextSections(doc, mem);
  }
}
