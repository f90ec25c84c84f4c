/** The value types of types.go that the client core reads or builds: the memo
    identifier kinds, chat parameters and the request envelope, the streamed chat
    event with its references, and the API error with its status predicates. */
module Types {
  import opened Wrappers
  import opened Text

  // ---------------------------------------------------------------------------
  // Memo identifier kinds (types.go:11-18)
  // ---------------------------------------------------------------------------

  /** Like Go's `type IDType string`: every string is an IDType value, but only two
      of them are named constants. */
  type IDType = string

  const MemoUUID: IDType := "memo_uuid"
  const ReferenceID: IDType := "reference_id"

  /** The IDType values declared as constants. */
  predicate IsDeclaredIDType(t: IDType) {
    t == MemoUUID || t == ReferenceID
  }

  lemma DeclaredIDTypes(t: IDType)
    ensures IsDeclaredIDType(t) <==> t in {MemoUUID, ReferenceID}
    ensures MemoUUID != ReferenceID
  {
  }

  // ---------------------------------------------------------------------------
  // Filters and RAG configuration (types.go:62-91, 192-198); float fields left out
  // ---------------------------------------------------------------------------

  /** `Filter.Value` is a string or a list of strings. */
  datatype FilterValue = StringValue(text: string) | ListValue(items: seq<string>)

  datatype Filter = Filter(field: string, operator: string, value: FilterValue, filterType: string)

  datatype QueryRewriteConfig = QueryRewriteConfig(enabled: bool)
  datatype VectorSearchConfig = VectorSearchConfig(topK: int)
  datatype RerankingConfig = RerankingConfig(enabled: bool, topK: int)
  datatype ReferencesConfig = ReferencesConfig(enabled: bool)

  datatype RAGConfig = RAGConfig(
    llmProvider: string,
    queryRewrite: Option<QueryRewriteConfig>,
    vectorSearch: Option<VectorSearchConfig>,
    reranking: Option<RerankingConfig>,
    references: Option<ReferencesConfig>)

  // ---------------------------------------------------------------------------
  // Chat parameters and the request envelope (types.go:222-241)
  // ---------------------------------------------------------------------------

  /** What callers pass to Chat and StreamedChat. */
  datatype ChatParams = ChatParams(
    query: string,
    filters: seq<Filter>,
    systemPrompt: string,
    chatID: string,
    ragConfig: Option<RAGConfig>)

  /** The internal JSON body `chatRequest`. */
  datatype ChatRequest = ChatRequest(
    query: string,
    stream: bool,
    systemPrompt: string,
    filters: seq<Filter>,
    chatID: string,
    ragConfig: Option<RAGConfig>)

  /** The JSON keys present once a ChatRequest is marshalled: `query` and `stream`
      always, the `omitempty` fields only when they are not the zero value. */
  function ChatRequestKeys(r: ChatRequest): (keys: set<string>)
    ensures {"query", "stream"} <= keys
    ensures "system_prompt" in keys <==> r.systemPrompt != ""
    ensures "filters" in keys <==> |r.filters| > 0
    ensures "chat_id" in keys <==> r.chatID != ""
    ensures "rag_config" in keys <==> r.ragConfig.Some?
    ensures keys <= {"query", "stream", "system_prompt", "filters", "chat_id", "rag_config"}
  {
    {"query", "stream"}
    + (if r.systemPrompt != "" then {"system_prompt"} else {})
    + (if |r.filters| > 0 then {"filters"} else {})
    + (if r.chatID != "" then {"chat_id"} else {})
    + (if r.ragConfig.Some? then {"rag_config"} else {})
  }

  // ---------------------------------------------------------------------------
  // Listing parameters (types.go:178-182)
  // ---------------------------------------------------------------------------

  /** `ListMemosParams`: both fields are optional pointers. */
  datatype ListMemosParams = ListMemosParams(page: Option<int>, pageSize: Option<int>)

  // ---------------------------------------------------------------------------
  // Streamed chat events (types.go:93-100, 252-258)
  // ---------------------------------------------------------------------------

  datatype MemoReference = MemoReference(memoUUID: string, memoTitle: string)

  /** Citation number (as text) to the memo it cites. */
  type References = map<string, MemoReference>

  /** `ChatStreamEvent`; its `Type` field is called `kind` here. Any kind string is
      accepted, not only the ones the server is known to send. */
  datatype ChatStreamEvent = ChatStreamEvent(
    kind: string,
    content: Option<string>,
    chatID: string,
    references: References)

  // ---------------------------------------------------------------------------
  // API errors (types.go:288-312)
  // ---------------------------------------------------------------------------

  const ErrorPrefix := "skald API error ("
  const ErrorSeparator := "): "

  datatype APIError = APIError(statusCode: int, message: string) {

    /** `Error()`: the status in decimal, then the message. */
    function Error(): string {
      ErrorPrefix + FormatInt(statusCode) + ErrorSeparator + message
    }

    predicate IsNotFound() {
      statusCode == 404
    }

    predicate IsUnauthorized() {
      statusCode == 401
    }

    predicate IsBadRequest() {
      statusCode == 400
    }
  }

  /** Reads an error text of the shape `Error()` produces back into its parts. */
  function ParseErrorText(t: string): Option<APIError> {
    if !HasPrefix(t, ErrorPrefix) then None
    else
      var rest := t[|ErrorPrefix|..];
      var k := IndexOf(rest, ')');
      if !HasPrefix(rest[k..], ErrorSeparator) then None
      else
        match ParseInt(rest[..k])
        case None => None
        case Some(code) => Some(APIError(code, rest[k + |ErrorSeparator|..]))
  }

  /** The status code and the message can be read back out of `Error()`, whatever
      characters the message holds. */
  lemma ErrorTextRoundTrip(e: APIError)
    ensures ParseErrorText(e.Error()) == Some(e)
  {
    var f := FormatInt(e.statusCode);
    var t := e.Error();
    var rest := t[|ErrorPrefix|..];
    assert rest == f + (ErrorSeparator + e.message);
    IndexOfAfter(f, ErrorSeparator + e.message, ')');
    assert rest[..|f|] == f;
    assert rest[|f|..] == ErrorSeparator + e.message;
    FormatIntRoundTrip(e.statusCode);
  }

  /** Different errors have different texts. */
  lemma ErrorTextInjective(a: APIError, b: APIError)
    requires a.Error() == b.Error()
    ensures a == b
  {
    ErrorTextRoundTrip(a);
    ErrorTextRoundTrip(b);
  }

  /** Each status predicate holds of exactly one status code, and no two hold at once. */
  lemma StatusPredicates(e: APIError)
    ensures e.IsNotFound() <==> e.statusCode == 404
    ensures e.IsUnauthorized() <==> e.statusCode == 401
    ensures e.IsBadRequest() <==> e.statusCode == 400
    ensures !(e.IsNotFound() && e.IsUnauthorized())
    ensures !(e.IsNotFound() && e.IsBadRequest())
    ensures !(e.IsUnauthorized() && e.IsBadRequest())
  {
  }

  /** The predicates look only at the status code, never at the message. */
  lemma StatusPredicatesIgnoreMessage(code: int, m1: string, m2: string)
    ensures APIError(code, m1).IsNotFound() == APIError(code, m2).IsNotFound()
    ensures APIError(code, m1).IsUnauthorized() == APIError(code, m2).IsUnauthorized()
    ensures APIError(code, m1).IsBadRequest() == APIError(code, m2).IsBadRequest()
  {
  }
}
