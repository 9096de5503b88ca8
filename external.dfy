/** The collaborators the core calls but does not contain: the two Chroma
    collections, the chat model, the DuckDuckGo instant-answer API, the
    `dateutil` parser and the clock. Each is an input here; a call that
    raises is an `Err` carrying the exception's message. */
module External {
  import opened Wrappers

  /** One Chroma metadata dictionary (every value the core reads is a string). */
  type Metadata = map<string, string>

  /** The two collections of server/src/db/vector/chroma_client.py. */
  datatype Collection = Documents | ChatHistory

  /** `collection.query(query_texts=[text], n_results=nResults, where=...)`;
      `sessionFilter` is the `{"session_id": ...}` equality filter. */
  datatype IndexQuery = IndexQuery(
    collection: Collection,
    text: string,
    nResults: nat,
    sessionFilter: Option<string>)

  /** The part of a Chroma query result the core reads, for the single query
      text it sends: `results['documents'][0]` and `results['metadatas'][0]`.
      `None` stands for a `None` or empty outer list, which every caller
      treats alike; a metadata entry itself may be `None`. A result without
      the key raises in the caller, which the index gives as `Err`. */
  datatype QueryResult = QueryResult(
    documents: Option<seq<string>>,
    metadatas: Option<seq<Option<Metadata>>>)

  /** The DuckDuckGo JSON fields the web tool reads. */
  datatype WebData = WebData(abstractText: Option<string>, answer: Option<string>)

  /** Everything one chat turn consults outside the model.
      `clock` is `datetime.now().strftime('%Y-%m-%d %H:%M:%S')` and
      `parseDate(s)` is `dateutil.parser.parse(s)` formatted the same way. */
  datatype Env = Env(
    index: IndexQuery -> Outcome<QueryResult>,
    llm: string -> Outcome<string>,
    webApi: string -> Outcome<WebData>,
    parseDate: string -> Outcome<string>,
    clock: string)

  /** A truthy JSON string field: present and non-empty. */
  predicate Truthy(field: Option<string>) {
    field.Some? && field.value != ""
  }
}
