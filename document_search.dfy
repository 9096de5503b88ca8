/** server/src/core/agent/tools/document_search_tool.py: the five nearest
    document chunks, of which the first three are listed, each cut to 200
    characters; never raises. */
module DocumentSearch {
  import opened Wrappers
  import opened Text
  import opened External

  const Header: string := "Document search results:\n"

  /** Five nearest chunks over all documents, with no filter. */
  function DocumentQuery(query: string): IndexQuery {
    IndexQuery(Documents, query, 5, None)
  }

  /** `source.get('filename', 'Unknown') if source else 'Unknown'`: a `None`
      or empty metadata dictionary, or one without the key, is "Unknown". */
  function FileName(source: Option<Metadata>): string {
    if source.None? || source.value == map[] then "Unknown"
    else if "filename" in source.value then source.value["filename"]
    else "Unknown"
  }

  /** One listed chunk; the ellipsis is written whether or not it was cut. */
  function ResultLine(doc: string, source: Option<Metadata>): string {
    "From " + FileName(source) + ": " + Take(doc, 200) + "...\n"
  }

  function Min(a: nat, b: nat): nat { if a <= b then a else b }

  /** The lines for `zip(docs[:3], sources[:3])`. */
  function ResultLines(docs: seq<string>, sources: seq<Option<Metadata>>): (lines: seq<string>)
    ensures |lines| == Min(3, Min(|docs|, |sources|))
  {
    seq(Min(3, Min(|docs|, |sources|)), i requires 0 <= i < Min(3, Min(|docs|, |sources|)) =>
      ResultLine(docs[i], sources[i]))
  }

  /** `results['metadatas'][0] if results['metadatas'] else []`. */
  function Sources(r: QueryResult): seq<Option<Metadata>> {
    if r.metadatas.Some? then r.metadatas.value else []
  }

  /** The text the tool returns for one query outcome. */
  function FormatDocumentResults(result: Outcome<QueryResult>): string {
    match result
    case Err(e) => "Document search failed: " + e
    case Ok(r) =>
      if r.documents.Some? && r.documents.value != [] then
        Header + Concat(ResultLines(r.documents.value, Sources(r)))
      else "No relevant documents found."
  }

  /** The tool as the source writes it: the text grows by one line per
      listed chunk. */
  method DocumentSearchTool(query: string, index: IndexQuery -> Outcome<QueryResult>) returns (response: string)
    ensures response == FormatDocumentResults(index(DocumentQuery(query)))
  {
    var result := index(DocumentQuery(query));
    if result.Err? {
      response := "Document search failed: " + result.reason;
    } else if result.value.documents.Some? && result.value.documents.value != [] {
      var docs := result.value.documents.value;
      var sources := if result.value.metadatas.Some? then result.value.metadatas.value else [];
      response := ListResults(docs, sources);
    } else {
      response := "No relevant documents found.";
    }
  }

  /** The `for` loop over `zip(docs[:3], sources[:3])`, which stops at the
      shorter of the two truncated lists. */
  method ListResults(docs: seq<string>, sources: seq<Option<Metadata>>) returns (response: string)
    ensures response == Header + Concat(ResultLines(docs, sources))
  {
    ghost var lines := ResultLines(docs, sources);
    var n := Min(3, Min(|docs|, |sources|));
    response := Header;
    var i := 0;
    while i < n
      invariant 0 <= i <= n == |lines|
      invariant response == Header + Concat(lines[..i])
    {
      var filename := FileName(sources[i]);
      var line := "From " + filename + ": " + Take(docs[i], 200) + "...\n";
      LinesStep(lines, i, line);
      response := response + line;
      i := i + 1;
    }
    assert lines[..i] == lines;
  }

  lemma LinesStep(lines: seq<string>, i: nat, line: string)
    requires i < |lines| && lines[i] == line
    ensures Concat(lines[..i + 1]) == Concat(lines[..i]) + line
  {
    assert lines[..i + 1][..i] == lines[..i];
  }

  /** What the text says for each outcome: a failure message, a
      no-results sentence, or the header followed by exactly
      min(3, |docs|, |sources|) lines, the i-th naming the i-th source
      (or "Unknown") and the first 200 characters of the i-th chunk. */
  lemma {:induction false} DocumentSearchOutcome(result: Outcome<QueryResult>)
    ensures var r := FormatDocumentResults(result);
            && (result.Err? ==> r == "Document search failed: " + result.reason)
            && (result.Ok? && (result.value.documents.None? || result.value.documents.value == []) ==>
                  r == "No relevant documents found.")
            && (StartsWith(r, Header) <==>
                  result.Ok? && result.value.documents.Some? && result.value.documents.value != [])
            && (result.Ok? && result.value.documents.Some? && result.value.documents.value != [] ==>
                  var docs := result.value.documents.value;
                  var sources := Sources(result.value);
                  exists lines: seq<string> ::
                    && r == Header + Concat(lines)
                    && |lines| == Min(3, Min(|docs|, |sources|))
                    && forall i :: 0 <= i < |lines| ==>
                         lines[i] == "From " + FileName(sources[i]) + ": " + docs[i][..Min(200, |docs[i]|)] + "...\n")
  {
    match result
    case Err(e) =>
      StartsWithOtherTag("Document search failed: ", e, Header, 16);
    case Ok(q) =>
      if q.documents.Some? && q.documents.value != [] {
        var lines := ResultLines(q.documents.value, Sources(q));
        StartsWithTag(Header, Concat(lines));
        assert forall i :: 0 <= i < |lines| ==>
          lines[i] == "From " + FileName(Sources(q)[i]) + ": " +
                      q.documents.value[i][..Min(200, |q.documents.value[i]|)] + "...\n";
      } else {
        StartsWithOtherTag("No relevant documents found.", "", Header, 0);
        assert "No relevant documents found." + "" == "No relevant documents found.";
      }
  }

  /** With chunks but no metadata the text is the bare header. */
  lemma HeaderOnlyWithoutMetadata(docs: seq<string>)
    requires docs != []
    ensures FormatDocumentResults(Ok(QueryResult(Some(docs), None))) == Header
  {
    assert ResultLines(docs, []) == [];
  }

  /** The file name falls back to "Unknown" exactly when the metadata is
      missing, empty or has no "filename" key. */
  lemma FileNameUnknown(source: Option<Metadata>)
    ensures (source.None? || "filename" !in source.value) ==> FileName(source) == "Unknown"
    ensures source.Some? && "filename" in source.value ==> FileName(source) == source.value["filename"]
  {
  }
}
