/** server/src/core/agent/tools/web_search_tool.py: one DuckDuckGo
    instant-answer lookup turned into a sentence that never raises. */
module WebSearch {
  import opened Wrappers
  import opened Text
  import opened External

  /** The request URL, with the query pasted in as it is. */
  function SearchUrl(query: string): string {
    "https://api.duckduckgo.com/?q=" + query + "&format=json&no_html=1&skip_disambig=1"
  }

  /** The tool's answer for `query`, given what the API returns for its URL. */
  function WebSearchTool(query: string, api: string -> Outcome<WebData>): string {
    match api(SearchUrl(query))
    case Err(e) => "Search failed: " + e
    case Ok(data) =>
      if Truthy(data.abstractText) then "Search result: " + data.abstractText.value
      else if Truthy(data.answer) then "Answer: " + data.answer.value
      else "No specific answer found for: " + query
  }

  /** Each of the four outcomes carries its own prefix, so the text tells
      which one happened: AbstractText wins over Answer, Answer is used only
      when AbstractText is missing or empty, and a failed request or
      undecodable body still yields a sentence. */
  lemma {:induction false} WebSearchOutcome(query: string, api: string -> Outcome<WebData>)
    ensures var r := WebSearchTool(query, api);
            var out := api(SearchUrl(query));
            && (StartsWith(r, "Search result: ") <==> out.Ok? && Truthy(out.value.abstractText))
            && (StartsWith(r, "Answer: ") <==>
                  out.Ok? && !Truthy(out.value.abstractText) && Truthy(out.value.answer))
            && (StartsWith(r, "No specific answer found for: ") <==>
                  out.Ok? && !Truthy(out.value.abstractText) && !Truthy(out.value.answer))
            && (StartsWith(r, "Search failed: ") <==> out.Err?)
            && (out.Err? ==> r == "Search failed: " + out.reason)
            && (out.Ok? && Truthy(out.value.abstractText) ==>
                  r == "Search result: " + out.value.abstractText.value)
            && (out.Ok? && !Truthy(out.value.abstractText) && Truthy(out.value.answer) ==>
                  r == "Answer: " + out.value.answer.value)
            && (out.Ok? && !Truthy(out.value.abstractText) && !Truthy(out.value.answer) ==>
                  r == "No specific answer found for: " + query)
  {
    var found, answer, none, failed :=
      "Search result: ", "Answer: ", "No specific answer found for: ", "Search failed: ";
    match api(SearchUrl(query))
    case Err(e) =>
      StartsWithTag(failed, e);
      StartsWithOtherTag(failed, e, found, 7);
      StartsWithOtherTag(failed, e, answer, 0);
      StartsWithOtherTag(failed, e, none, 0);
    case Ok(data) =>
      if Truthy(data.abstractText) {
        var x := data.abstractText.value;
        StartsWithTag(found, x);
        StartsWithOtherTag(found, x, failed, 7);
        StartsWithOtherTag(found, x, answer, 0);
        StartsWithOtherTag(found, x, none, 0);
      } else if Truthy(data.answer) {
        var x := data.answer.value;
        StartsWithTag(answer, x);
        StartsWithOtherTag(answer, x, failed, 0);
        StartsWithOtherTag(answer, x, found, 0);
        StartsWithOtherTag(answer, x, none, 0);
      } else {
        StartsWithTag(none, query);
        StartsWithOtherTag(none, query, failed, 0);
        StartsWithOtherTag(none, query, found, 0);
        StartsWithOtherTag(none, query, answer, 0);
      }
  }
}
