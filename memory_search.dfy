/** server/src/core/agent/tools/memory_retrival_tool.py: a session-filtered
    memory lookup turned into one line of text that never raises. */
module MemorySearch {
  import opened Wrappers
  import opened Text
  import opened External

  /** Five nearest chat-history records, restricted to one session. */
  function MemoryQuery(query: string, sessionId: string): IndexQuery {
    IndexQuery(ChatHistory, query, 5, Some(sessionId))
  }

  /** The text for one query outcome. */
  function FormatMemoryResults(result: Outcome<QueryResult>): string {
    match result
    case Err(e) => "Memory search failed: " + e
    case Ok(r) =>
      if r.documents.Some? && r.documents.value != [] then
        "Relevant memories: " + Join(Take(r.documents.value, 3), "; ")
      else "No relevant memories found."
  }

  /** `memory_search_tool(query, session_id)`. */
  function MemorySearchTool(query: string, sessionId: string, index: IndexQuery -> Outcome<QueryResult>): string {
    FormatMemoryResults(index(MemoryQuery(query, sessionId)))
  }

  /** Every part of a join appears in it verbatim. */
  lemma {:induction false} JoinContains(xs: seq<string>, sep: string, i: nat)
    requires i < |xs|
    ensures Contains(Join(xs, sep), xs[i])
    decreases |xs|
  {
    if |xs| == 1 {
      ContainsInfix("", xs[0], "");
      assert "" + xs[0] + "" == xs[0];
    } else if i == 0 {
      ContainsInfix("", xs[0], sep + Join(xs[1..], sep));
      assert "" + xs[0] + (sep + Join(xs[1..], sep)) == Join(xs, sep);
    } else {
      JoinContains(xs[1..], sep, i - 1);
      var j := MatchFromContains(Join(xs[1..], sep), xs[i]);
      var pre := xs[0] + sep;
      assert Join(xs, sep) == pre + Join(xs[1..], sep);
      assert (pre + Join(xs[1..], sep))[|pre| + j..|pre| + j + |xs[i]|] == Join(xs[1..], sep)[j..j + |xs[i]|];
      ContainsFromMatch(Join(xs, sep), xs[i], |pre| + j);
    }
  }

  /** The three outcomes are told apart by their text: a non-empty result
      lists its first three memories (fewer when there are fewer), in order,
      separated by "; "; an empty one says so, and a failed query says why. */
  lemma {:induction false} MemorySearchOutcome(result: Outcome<QueryResult>)
    ensures var r := FormatMemoryResults(result);
            && (result.Err? ==> r == "Memory search failed: " + result.reason)
            && (result.Ok? && (result.value.documents.None? || result.value.documents.value == []) ==>
                  r == "No relevant memories found.")
            && (StartsWith(r, "Relevant memories: ") <==>
                  result.Ok? && result.value.documents.Some? && result.value.documents.value != [])
            && (result.Ok? && result.value.documents.Some? ==>
                  forall i :: 0 <= i < |result.value.documents.value| && i < 3 ==>
                    Contains(r, result.value.documents.value[i]))
            && (result.Ok? && result.value.documents.Some? && result.value.documents.value != [] ==>
                  var ds := result.value.documents.value;
                  r == "Relevant memories: " + Join(ds[..if |ds| < 3 then |ds| else 3], "; "))
  {
    var listed, none, failed := "Relevant memories: ", "No relevant memories found.", "Memory search failed: ";
    match result
    case Err(e) =>
      StartsWithOtherTag(failed, e, listed, 0);
    case Ok(q) =>
      if q.documents.Some? && q.documents.value != [] {
        var ds := q.documents.value;
        var joined := Join(Take(ds, 3), "; ");
        StartsWithTag(listed, joined);
        forall i | 0 <= i < |ds| && i < 3
          ensures Contains(listed + joined, ds[i])
        {
          JoinContains(Take(ds, 3), "; ", i);
          var j := MatchFromContains(joined, ds[i]);
          assert (listed + joined)[|listed| + j..|listed| + j + |ds[i]|] == joined[j..j + |ds[i]|];
          ContainsFromMatch(listed + joined, ds[i], |listed| + j);
        }
      } else {
        StartsWithOtherTag(none, "", listed, 0);
        assert none + "" == none;
      }
  }

  /** Each listed memory after the first, as it follows a ';' of the list. */
  function Spaced(ms: seq<string>): (r: seq<string>)
    ensures |r| == |ms|
    ensures forall i :: 0 <= i < |ms| ==> r[i] == " " + ms[i]
  {
    seq(|ms|, i requires 0 <= i < |ms| => " " + ms[i])
  }

  lemma {:induction false} SpacedJoin(ms: seq<string>)
    requires ms != []
    ensures " " + Join(ms, "; ") == Join(Spaced(ms), ";")
    decreases |ms|
  {
    if |ms| > 1 {
      SpacedJoin(ms[1..]);
      assert Spaced(ms)[1..] == Spaced(ms[1..]);
      assert " " + Join(ms, "; ") == (" " + ms[0]) + ";" + (" " + Join(ms[1..], "; "));
    }
  }

  /** The listed text splits back into the memories: cutting what follows
      the label at each ';' gives the first memory, then each further one
      behind the space of its separator, at most three in all. */
  lemma {:induction false} MemoriesSplit(q: QueryResult)
    requires q.documents.Some? && q.documents.value != []
    requires forall i :: 0 <= i < |q.documents.value| && i < 3 ==> ';' !in q.documents.value[i]
    ensures var shown := Take(q.documents.value, 3);
            var r := FormatMemoryResults(Ok(q));
            && shown == q.documents.value[..|shown|] && |shown| <= 3
            && r == "Relevant memories: " + Join(shown, "; ")
            && SplitOn(Join(shown, "; "), ';') == [shown[0]] + Spaced(shown[1..])
  {
    var ds := q.documents.value;
    var shown := Take(ds, 3);
    var parts := [shown[0]] + Spaced(shown[1..]);
    if |shown| > 1 {
      SpacedJoin(shown[1..]);
      assert Join(shown, "; ") == shown[0] + ";" + (" " + Join(shown[1..], "; "));
      assert parts[1..] == Spaced(shown[1..]);
      assert Join(parts, ";") == shown[0] + ";" + Join(Spaced(shown[1..]), ";");
    } else {
      assert Join(shown, "; ") == shown[0] == Join(parts, ";");
    }
    forall i | 0 <= i < |parts| ensures ';' !in parts[i] {
      if i > 0 {
        assert parts[i] == " " + shown[i];
      }
    }
    SplitJoin(parts, ';');
  }
}
