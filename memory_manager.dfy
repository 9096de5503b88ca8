/** server/src/core/memory/MemoryManager.py: one record per finished turn
    in the chat-history collection, and the session's records read back
    sorted by their timestamp strings. */
module MemoryManager {
  import opened Wrappers
  import opened Text
  import opened External

  /** What `memory_collection.add` receives for one turn. */
  datatype MemoryRecord = MemoryRecord(id: string, document: string, metadata: Metadata)

  /** One entry of the history list: `{"content", "timestamp", "type"}`,
      the last two read with `metadata.get`, so possibly `None`. */
  datatype HistoryEntry = HistoryEntry(content: string, timestamp: Option<string>, kind: Option<string>)

  /** `f"User: {user_message}\nAssistant: {bot_response}"`. */
  function InteractionText(userMessage: string, botResponse: string): string {
    "User: " + userMessage + "\nAssistant: " + botResponse
  }

  /** The record for one turn; `timestamp` is `datetime.now().isoformat()`
      and `uuid` is `str(uuid.uuid4())`. */
  function InteractionRecord(sessionId: string, userMessage: string, botResponse: string, userId: string,
                             timestamp: string, uuid: string): MemoryRecord {
    MemoryRecord(
      "memory_" + sessionId + "_" + uuid,
      InteractionText(userMessage, botResponse),
      map["session_id" := sessionId, "user_id" := userId, "timestamp" := timestamp, "type" := "chat_interaction"])
  }

  /** `store_interaction` over the collection's contents: `added` says
      whether the foreign write went through; a failed write is swallowed
      and leaves the collection as it was. */
  function StoreInteraction(collection: seq<MemoryRecord>, sessionId: string, userMessage: string,
                            botResponse: string, userId: string, timestamp: string, uuid: string,
                            added: bool): seq<MemoryRecord> {
    if added then collection + [InteractionRecord(sessionId, userMessage, botResponse, userId, timestamp, uuid)]
    else collection
  }

  /** The stored record carries the session, the user, the timestamp and the
      fixed kind, and its id starts with "memory_" and the session id; a
      write either appends exactly that record or changes nothing. */
  lemma {:induction false} StoreInteractionOutcome(collection: seq<MemoryRecord>, sessionId: string, userMessage: string,
                                                   botResponse: string, userId: string, timestamp: string,
                                                   uuid: string, added: bool)
    ensures var c := StoreInteraction(collection, sessionId, userMessage, botResponse, userId, timestamp, uuid, added);
            && (!added ==> c == collection)
            && (added ==> |c| == |collection| + 1 && c[..|collection|] == collection)
            && (added ==> var rec := c[|collection|];
                  && rec.document == InteractionText(userMessage, botResponse)
                  && StartsWith(rec.id, "memory_" + sessionId + "_")
                  && rec.metadata.Keys == {"session_id", "user_id", "timestamp", "type"}
                  && rec.metadata["session_id"] == sessionId && rec.metadata["user_id"] == userId
                  && rec.metadata["timestamp"] == timestamp && rec.metadata["type"] == "chat_interaction")
  {
    if added {
      var c := StoreInteraction(collection, sessionId, userMessage, botResponse, userId, timestamp, uuid, added);
      assert c[..|collection|] == collection;
      StartsWithTag("memory_" + sessionId + "_", uuid);
    }
  }

  // ---------------------------------------------------------------------
  // get_session_history

  const DefaultLimit: nat := 10

  /** The filtered lookup: a fixed query text, `limit` results, this session. */
  function HistoryQuery(sessionId: string, limit: nat): IndexQuery {
    IndexQuery(ChatHistory, "conversation history", limit, Some(sessionId))
  }

  /** `metadata.get(key)`. */
  function MetaGet(m: Metadata, key: string): Option<string> {
    if key in m then Some(m[key]) else None
  }

  /** The entries for `zip(docs, metas)[:n]`, or None when one of those
      metadata entries is `None` (its `.get` raises). */
  function Entries(docs: seq<string>, metas: seq<Option<Metadata>>, n: nat): (r: Option<seq<HistoryEntry>>)
    requires n <= |docs| && n <= |metas|
    ensures r.Some? ==> |r.value| == n
    ensures r.Some? ==> forall i :: 0 <= i < n ==>
              (metas[i].Some? && r.value[i] ==
                 HistoryEntry(docs[i], MetaGet(metas[i].value, "timestamp"), MetaGet(metas[i].value, "type")))
    ensures r.None? <==> exists i :: 0 <= i < n && metas[i].None?
  {
    if n == 0 then Some([])
    else match Entries(docs, metas, n - 1)
      case None => None
      case Some(es) =>
        if metas[n - 1].None? then None
        else Some(es + [HistoryEntry(docs[n - 1], MetaGet(metas[n - 1].value, "timestamp"),
                                     MetaGet(metas[n - 1].value, "type"))])
  }

  predicate AllStamped(es: seq<HistoryEntry>) {
    forall i :: 0 <= i < |es| ==> es[i].timestamp.Some?
  }

  /** Non-decreasing by timestamp string, as Python compares strings; the
      timestamps compared are all present. */
  predicate SortedByTimestamp(es: seq<HistoryEntry>) {
    |es| <= 1 ||
    (es[0].timestamp.Some? && es[1].timestamp.Some?
     && LexLe(es[0].timestamp.value, es[1].timestamp.value) && SortedByTimestamp(es[1..]))
  }

  /** Insert `e` before the first entry whose timestamp is not smaller. */
  function Insert(e: HistoryEntry, es: seq<HistoryEntry>): (r: seq<HistoryEntry>)
    requires e.timestamp.Some? && AllStamped(es)
    ensures |r| == |es| + 1 && AllStamped(r)
    ensures r[0] == e || (es != [] && r[0] == es[0])
    decreases |es|
  {
    if es == [] then [e]
    else if LexLe(e.timestamp.value, es[0].timestamp.value) then [e] + es
    else [es[0]] + Insert(e, es[1..])
  }

  lemma {:induction false} InsertKeeps(e: HistoryEntry, es: seq<HistoryEntry>)
    requires e.timestamp.Some? && AllStamped(es)
    ensures multiset(Insert(e, es)) == multiset(es) + multiset{e}
    ensures SortedByTimestamp(es) ==> SortedByTimestamp(Insert(e, es))
    decreases |es|
  {
    if es != [] && !LexLe(e.timestamp.value, es[0].timestamp.value) {
      LexLeTotal(e.timestamp.value, es[0].timestamp.value);
      InsertKeeps(e, es[1..]);
      assert es == [es[0]] + es[1..];
      var r := Insert(e, es);
      assert r[1..] == Insert(e, es[1..]);
    }
  }

  /** Insertion sort by timestamp. Each entry goes in front of the equal
      timestamps already placed, which all came later in the input, so the
      original order of equal timestamps is kept, as with `sorted`. */
  function SortEntries(es: seq<HistoryEntry>): (r: seq<HistoryEntry>)
    requires AllStamped(es)
    ensures |r| == |es| && AllStamped(r)
    decreases |es|
  {
    if es == [] then [] else Insert(es[0], SortEntries(es[1..]))
  }

  /** The sort is a permutation and its result is ordered. */
  lemma {:induction false} SortKeeps(es: seq<HistoryEntry>)
    requires AllStamped(es)
    ensures multiset(SortEntries(es)) == multiset(es)
    ensures SortedByTimestamp(SortEntries(es))
    decreases |es|
  {
    if es != [] {
      SortKeeps(es[1..]);
      InsertKeeps(es[0], SortEntries(es[1..]));
      assert es == [es[0]] + es[1..];
    }
  }

  /** A history sorted this way puts any two entries in timestamp order,
      not only neighbours. */
  lemma {:induction false} SortedPairwise(es: seq<HistoryEntry>, i: nat, j: nat)
    requires SortedByTimestamp(es) && i < j < |es|
    ensures es[i].timestamp.Some? && es[j].timestamp.Some?
    ensures LexLe(es[i].timestamp.value, es[j].timestamp.value)
    decreases |es|
  {
    if i > 0 {
      SortedPairwise(es[1..], i - 1, j - 1);
    } else if j > 1 {
      SortedPairwise(es[1..], 0, j - 1);
      LexLeTransitive(es[0].timestamp.value, es[1].timestamp.value, es[j].timestamp.value);
    }
  }

  /** `sorted(history, key=lambda x: x.get("timestamp", ""))`. Every entry
      has the key, so the default is never used; comparing a `None`
      timestamp raises, which happens as soon as there are two entries. */
  function SortHistory(es: seq<HistoryEntry>): Option<seq<HistoryEntry>> {
    if |es| <= 1 then Some(es)
    else if AllStamped(es) then Some(SortEntries(es))
    else None
  }

  /** The list `get_session_history` returns for one query outcome. */
  function SessionHistory(result: Outcome<QueryResult>): seq<HistoryEntry> {
    match result
    case Err(_) => []
    case Ok(r) =>
      if !(r.documents.Some? && r.documents.value != []) then []
      else if r.metadatas.None? then []
      else
        var docs, metas := r.documents.value, r.metadatas.value;
        var n := if |docs| <= |metas| then |docs| else |metas|;
        match Entries(docs, metas, n)
        case None => []
        case Some(es) =>
          match SortHistory(es)
          case None => []
          case Some(h) => h
  }

  /** The method as the source writes it: entries appended in a loop over
      the zipped lists, then sorted; any exception gives []. */
  method GetSessionHistory(sessionId: string, limit: nat, index: IndexQuery -> Outcome<QueryResult>)
    returns (history: seq<HistoryEntry>)
    ensures history == SessionHistory(index(HistoryQuery(sessionId, limit)))
  {
    var results := index(HistoryQuery(sessionId, limit));
    if results.Err? {
      return [];
    }
    var r := results.value;
    var collected: seq<HistoryEntry> := [];
    if r.documents.Some? && r.documents.value != [] {
      if r.metadatas.None? {
        return [];
      }
      var docs, metas := r.documents.value, r.metadatas.value;
      var n := if |docs| <= |metas| then |docs| else |metas|;
      var i := 0;
      while i < n
        invariant 0 <= i <= n
        invariant Entries(docs, metas, i) == Some(collected)
      {
        if metas[i].None? {
          return [];
        }
        var metadata := metas[i].value;
        collected := collected + [HistoryEntry(docs[i], MetaGet(metadata, "timestamp"), MetaGet(metadata, "type"))];
        i := i + 1;
      }
    }
    var sorted := SortHistory(collected);
    history := if sorted.Some? then sorted.value else [];
  }

  /** The history is empty on a failed query, on no results, on a missing
      metadata list or entry, and when a timestamp is missing among two or
      more entries; otherwise it is a permutation of the zipped entries,
      non-decreasing by timestamp string. */
  lemma {:induction false} SessionHistoryOutcome(result: Outcome<QueryResult>)
    ensures var h := SessionHistory(result);
            && (result.Err? ==> h == [])
            && (result.Ok? && (result.value.documents.None? || result.value.documents.value == []) ==> h == [])
            && (result.Ok? && result.value.metadatas.None? ==> h == [])
            && SortedByTimestamp(h)
            && (result.Ok? && result.value.documents.Some? && result.value.documents.value != []
                && result.value.metadatas.Some? ==>
                  var docs, metas := result.value.documents.value, result.value.metadatas.value;
                  var n := if |docs| <= |metas| then |docs| else |metas|;
                  var es := Entries(docs, metas, n);
                  && (es.None? ==> h == [])
                  && (es.Some? && (n <= 1 || AllStamped(es.value)) ==> multiset(h) == multiset(es.value))
                  && (es.Some? && n > 1 && !AllStamped(es.value) ==> h == []))
  {
    if result.Ok? && result.value.documents.Some? && result.value.documents.value != []
       && result.value.metadatas.Some? {
      var docs, metas := result.value.documents.value, result.value.metadatas.value;
      var n := if |docs| <= |metas| then |docs| else |metas|;
      var es := Entries(docs, metas, n);
      if es.Some? && n > 1 && AllStamped(es.value) {
        SortKeeps(es.value);
      }
    }
  }

  /** A permutation of entries taken from `docs` has as many entries, all taken from `docs`. */
  lemma PermutedEntries(h: seq<HistoryEntry>, es: seq<HistoryEntry>, docs: seq<string>)
    requires multiset(h) == multiset(es)
    requires |es| <= |docs| && forall i :: 0 <= i < |es| ==> es[i].content == docs[i]
    ensures |h| == |es|
    ensures forall i :: 0 <= i < |h| ==> h[i].content in docs
  {
    forall i | 0 <= i < |h|
      ensures h[i].content in docs
    {
      assert h[i] in multiset(es);
      var k :| 0 <= k < |es| && es[k] == h[i];
    }
    assert |h| == |multiset(h)| == |multiset(es)| == |es|;
  }

  /** When the index honours `n_results`, the history has at most `limit`
      entries, and each of them is one of the returned documents. */
  lemma {:induction false} HistoryWithinLimit(sessionId: string, limit: nat, index: IndexQuery -> Outcome<QueryResult>)
    requires var res := index(HistoryQuery(sessionId, limit));
             res.Ok? && res.value.documents.Some? ==> |res.value.documents.value| <= limit
    ensures var res := index(HistoryQuery(sessionId, limit));
            var h := SessionHistory(res);
            && |h| <= limit
            && (h != [] ==>
                  (res.Ok? && res.value.documents.Some?
                   && forall i :: 0 <= i < |h| ==> h[i].content in res.value.documents.value))
  {
    var res := index(HistoryQuery(sessionId, limit));
    var h := SessionHistory(res);
    if h != [] {
      var docs, metas := res.value.documents.value, res.value.metadatas.value;
      var n := if |docs| <= |metas| then |docs| else |metas|;
      var es := Entries(docs, metas, n).value;
      SessionHistoryOutcome(res);
      if n > 1 {
        SortKeeps(es);
      }
      PermutedEntries(h, es, docs);
    }
  }
}
