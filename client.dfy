/** The request and response rules of client.go: base-URL normalisation in NewClient,
    the 2xx check, the idType rule shared by the memo operations, URL assembly in
    doRequest, the chat envelope, and the upload size gate. `url.PathEscape` and
    `url.Values.Encode` are library code and are passed in as `escape` and `encode`. */
module SkaldClient {
  import opened Wrappers
  import opened Text
  import opened Types

  // ---------------------------------------------------------------------------
  // Client construction (client.go:18-37)
  // ---------------------------------------------------------------------------

  const DefaultBaseURL := "https://api.useskald.com"

  /** The configuration a client keeps; the HTTP transport is not modelled. */
  datatype Client = Client(apiKey: string, baseURL: string)

  predicate EndsWithSlash(s: string) {
    s != [] && s[|s| - 1] == '/'
  }

  /** `strings.TrimRight(s, "/")`: drops every trailing '/', and nothing else. */
  function TrimTrailingSlashes(s: string): (r: string)
    ensures HasPrefix(s, r)
    ensures !EndsWithSlash(r)
    ensures forall i :: |r| <= i < |s| ==> s[i] == '/'
    decreases |s|
  {
    if EndsWithSlash(s) then TrimTrailingSlashes(s[..|s| - 1]) else s
  }

  /** `NewClient(apiKey, baseURL...)`: only the first optional base URL is read. */
  function NewClient(apiKey: string, baseURL: seq<string>): (c: Client)
    ensures c.apiKey == apiKey
    ensures |baseURL| == 0 || baseURL[0] == "" ==> c.baseURL == DefaultBaseURL
    ensures |baseURL| > 0 && baseURL[0] != "" ==>
      HasPrefix(baseURL[0], c.baseURL) &&
      forall i :: |c.baseURL| <= i < |baseURL[0]| ==> baseURL[0][i] == '/'
    ensures !EndsWithSlash(c.baseURL)
  {
    var url := if |baseURL| > 0 && baseURL[0] != "" then TrimTrailingSlashes(baseURL[0]) else DefaultBaseURL;
    Client(apiKey, url)
  }

  /** A base URL made only of '/' is stored as the empty URL, not replaced by the default. */
  lemma SlashOnlyBaseURL(apiKey: string)
    ensures NewClient(apiKey, ["///"]).baseURL == ""
  {
    assert "///"[..0] == "";
  }

  /** Trimming is idempotent, and a URL without a trailing '/' is kept as it is. */
  lemma TrimTrailingSlashesIdempotent(s: string)
    ensures TrimTrailingSlashes(TrimTrailingSlashes(s)) == TrimTrailingSlashes(s)
    ensures !EndsWithSlash(s) ==> TrimTrailingSlashes(s) == s
  {
  }

  /** Two base URLs that differ only in how many '/' they end with give the same client. */
  lemma {:induction false} TrailingSlashesDoNotMatter(apiKey: string, url: string, n: nat)
    requires url != ""
    ensures NewClient(apiKey, [url + Slashes(n)]) == NewClient(apiKey, [url])
    decreases n
  {
    var s := url + Slashes(n);
    if n == 0 {
      assert s == url;
    } else {
      assert s[|s| - 1] == '/';
      assert s[..|s| - 1] == url + Slashes(n - 1);
      TrailingSlashesDoNotMatter(apiKey, url, n - 1);
    }
  }

  function Slashes(n: nat): (s: string)
    ensures |s| == n && forall i :: 0 <= i < n ==> s[i] == '/'
  {
    seq(n, _ => '/')
  }

  /** Rebuilding a client from its own base URL gives it back, except when trimming
      left nothing (a base URL made only of '/'), which then falls back to the default. */
  lemma NewClientStable(apiKey: string, url: string)
    ensures var c := NewClient(apiKey, [url]);
      NewClient(apiKey, [c.baseURL]) == (if c.baseURL == "" then NewClient(apiKey, []) else c)
  {
  }

  // ---------------------------------------------------------------------------
  // Response status (client.go:439-447)
  // ---------------------------------------------------------------------------

  predicate IsSuccessStatus(status: int) {
    200 <= status && status < 300
  }

  /** `checkResponse`, given the status and the whole body text. */
  function CheckResponse(status: int, body: string): (r: Outcome<string>)
    ensures r.Pass? <==> 200 <= status < 300
    ensures r.Fail? ==> r.error == APIError(status, body).Error()
    ensures r.Fail? ==> ParseErrorText(r.error) == Some(APIError(status, body))
  {
    if status >= 200 && status < 300 then Pass
    else
      ErrorTextRoundTrip(APIError(status, body));
      Fail("skald API error (" + FormatInt(status) + "): " + body)
  }

  /** Every status an APIError predicate names is one that checkResponse rejects. */
  lemma StatusPredicatesAreFailures(e: APIError, body: string)
    requires e.IsNotFound() || e.IsUnauthorized() || e.IsBadRequest()
    ensures CheckResponse(e.statusCode, body).Fail?
  {
  }

  // ---------------------------------------------------------------------------
  // URL assembly (client.go:419-424)
  // ---------------------------------------------------------------------------

  /** `url.Values`: each key maps to its list of values. */
  type Values = map<string, seq<string>>

  /** Splits a URL at its first '?' into the part before and the query after. */
  function SplitQuery(url: string): (string, Option<string>) {
    var k := IndexOf(url, '?');
    if k == |url| then (url, None) else (url[..k], Some(url[k + 1..]))
  }

  /** `baseURL + path`, with `?` and the encoded parameters only when there are any.
      When base and path hold no '?', the query can be split back out unchanged. */
  function BuildURL(baseURL: string, path: string, params: Values, encode: Values -> string): (url: string)
    ensures HasPrefix(url, baseURL + path)
    ensures |params| == 0 <==> url == baseURL + path
    ensures '?' !in baseURL + path ==>
      SplitQuery(url) == (baseURL + path, if |params| == 0 then None else Some(encode(params)))
  {
    var u := baseURL + path;
    if |params| > 0 then
      var url := u + "?" + encode(params);
      assert url == u + ("?" + encode(params));
      assert '?' !in u ==> IndexOf(url, '?') == |u| by {
        if '?' !in u { IndexOfAfter(u, "?" + encode(params), '?'); }
      }
      assert url[..|u|] == u;
      assert url[|u| + 1..] == encode(params);
      url
    else
      assert '?' !in u ==> IndexOf(u, '?') == |u| by {
        if '?' !in u { IndexOfAbsent(u, '?'); }
      }
      u
  }

  /** The request doRequest hands to the transport: HTTP verb, URL and headers. */
  datatype Request = Request(verb: string, url: string, authorization: string, contentType: Option<string>)

  const JsonContentType := "application/json"

  /** `doRequest` up to the transport call; `hasBody` is `body != nil`. */
  function NewRequest(c: Client, verb: string, path: string, params: Values, hasBody: bool,
                      encode: Values -> string): (r: Request)
    ensures r.verb == verb
    ensures r.authorization == "Bearer " + c.apiKey
    ensures r.contentType == (if hasBody then Some(JsonContentType) else None)
    ensures r.url == BuildURL(c.baseURL, path, params, encode)
  {
    Request(verb, BuildURL(c.baseURL, path, params, encode), "Bearer " + c.apiKey,
            if hasBody then Some(JsonContentType) else None)
  }

  // ---------------------------------------------------------------------------
  // The idType rule of GetMemo, UpdateMemo, DeleteMemo, CheckMemoStatus
  // (client.go:153-165, 217-229, 256-268, 286-298)
  // ---------------------------------------------------------------------------

  const InvalidIDTypeError := "invalid idType: must be 'memo_uuid' or 'reference_id'"
  const IDTypeKey := "id_type"

  /** The query parameters for an optional idType, or the validation error. */
  function IDTypeParams(idType: seq<IDType>): (r: Result<Values, string>)
    ensures r.Failure? <==> |idType| > 0 && !IsDeclaredIDType(idType[0])
    ensures r.Failure? ==> r.error == InvalidIDTypeError
    ensures r.Success? ==> (IDTypeKey in r.value <==> |idType| > 0 && idType[0] == ReferenceID)
    ensures r.Success? ==> forall k :: k in r.value ==> k == IDTypeKey && r.value[k] == [ReferenceID]
  {
    var value := if |idType| > 0 then idType[0] else MemoUUID;
    if |idType| > 0 && value != MemoUUID && value != ReferenceID then Failure(InvalidIDTypeError)
    else if value != MemoUUID then Success(map[IDTypeKey := [value]])
    else Success(map[])
  }

  /** What the four memo operations promise of the request they build: it fails
      exactly for an unrecognised idType, and otherwise carries the HTTP verb, the headers,
      the path and the `id_type=reference_id` query only for a reference ID. */
  predicate MemoRequestBuilt(r: Result<Request, string>, c: Client, verb: string, path: string,
                             idType: seq<IDType>, hasBody: bool, encode: Values -> string)
  {
    && (r.Failure? <==> |idType| > 0 && !IsDeclaredIDType(idType[0]))
    && (r.Failure? ==> r.error == InvalidIDTypeError)
    && (r.Success? ==>
          && r.value.verb == verb
          && r.value.authorization == "Bearer " + c.apiKey
          && r.value.contentType == (if hasBody then Some(JsonContentType) else None)
          && HasPrefix(r.value.url, c.baseURL + path)
          && ('?' !in c.baseURL + path ==>
                SplitQuery(r.value.url) ==
                  (c.baseURL + path,
                   if |idType| > 0 && idType[0] == ReferenceID
                   then Some(encode(map[IDTypeKey := [ReferenceID]])) else None)))
  }

  /** The shared body of the four operations: validate idType, then build the request. */
  function MemoRequest(c: Client, verb: string, path: string, idType: seq<IDType>, hasBody: bool,
                       encode: Values -> string): (r: Result<Request, string>)
    ensures MemoRequestBuilt(r, c, verb, path, idType, hasBody, encode)
  {
    match IDTypeParams(idType)
    case Failure(e) => Failure(e)
    case Success(params) =>
      assert |params| == 0 || params == map[IDTypeKey := [ReferenceID]];
      Success(NewRequest(c, verb, path, params, hasBody, encode))
  }

  const MemoPathPrefix := "/api/v1/memo/"

  /** `GetMemo`: GET on the escaped memo path, no body. */
  function GetMemo(c: Client, memoID: string, idType: seq<IDType>, escape: string -> string,
                   encode: Values -> string): (r: Result<Request, string>)
    ensures MemoRequestBuilt(r, c, "GET", MemoPathPrefix + escape(memoID), idType, false, encode)
  {
    MemoRequest(c, "GET", MemoPathPrefix + escape(memoID), idType, false, encode)
  }

  /** `UpdateMemo`: PATCH with a JSON body; marshalling the update is not modelled. */
  function UpdateMemo(c: Client, memoID: string, idType: seq<IDType>, escape: string -> string,
                      encode: Values -> string): (r: Result<Request, string>)
    ensures MemoRequestBuilt(r, c, "PATCH", MemoPathPrefix + escape(memoID), idType, true, encode)
  {
    MemoRequest(c, "PATCH", MemoPathPrefix + escape(memoID), idType, true, encode)
  }

  /** `DeleteMemo`: DELETE on the escaped memo path, no body. */
  function DeleteMemo(c: Client, memoID: string, idType: seq<IDType>, escape: string -> string,
                      encode: Values -> string): (r: Result<Request, string>)
    ensures MemoRequestBuilt(r, c, "DELETE", MemoPathPrefix + escape(memoID), idType, false, encode)
  {
    MemoRequest(c, "DELETE", MemoPathPrefix + escape(memoID), idType, false, encode)
  }

  /** `CheckMemoStatus`: GET on the escaped memo path followed by `/status`. */
  function CheckMemoStatus(c: Client, memoID: string, idType: seq<IDType>, escape: string -> string,
                           encode: Values -> string): (r: Result<Request, string>)
    ensures MemoRequestBuilt(r, c, "GET", MemoPathPrefix + escape(memoID) + "/status", idType, false, encode)
  {
    MemoRequest(c, "GET", MemoPathPrefix + escape(memoID) + "/status", idType, false, encode)
  }

  /** Validation accepts exactly the two declared IDType constants, whichever memo
      operation performs it; omitting idType is the same as passing memo_uuid. */
  lemma IDTypeValidation(c: Client, memoID: string, t: IDType, escape: string -> string,
                         encode: Values -> string)
    ensures GetMemo(c, memoID, [t], escape, encode).Success? <==> IsDeclaredIDType(t)
    ensures GetMemo(c, memoID, [], escape, encode) == GetMemo(c, memoID, [MemoUUID], escape, encode)
    ensures DeleteMemo(c, memoID, [], escape, encode) == DeleteMemo(c, memoID, [MemoUUID], escape, encode)
    ensures UpdateMemo(c, memoID, [], escape, encode) == UpdateMemo(c, memoID, [MemoUUID], escape, encode)
    ensures CheckMemoStatus(c, memoID, [], escape, encode) == CheckMemoStatus(c, memoID, [MemoUUID], escape, encode)
  {
    assert IDTypeParams([]) == IDTypeParams([MemoUUID]);
  }

  // ---------------------------------------------------------------------------
  // The listing query of ListMemos (client.go:185-198)
  // ---------------------------------------------------------------------------

  const MemoPath := "/api/v1/memo"
  const PageKey := "page"
  const PageSizeKey := "page_size"

  /** The query `ListMemos` builds: `page` and `page_size`, each written with `%d` and
      present only when set, and none at all for nil parameters. */
  function ListMemosQuery(params: Option<ListMemosParams>): (q: Values)
    ensures forall k :: k in q ==> k == PageKey || k == PageSizeKey
    ensures PageKey in q <==> params.Some? && params.value.page.Some?
    ensures PageSizeKey in q <==> params.Some? && params.value.pageSize.Some?
    ensures PageKey in q ==> q[PageKey] == [FormatInt(params.value.page.value)]
    ensures PageSizeKey in q ==> q[PageSizeKey] == [FormatInt(params.value.pageSize.value)]
    ensures PageKey in q ==> ParseInt(q[PageKey][0]) == params.value.page
    ensures PageSizeKey in q ==> ParseInt(q[PageSizeKey][0]) == params.value.pageSize
  {
    match params
    case None => map[]
    case Some(p) =>
      assert p.page.Some? ==> ParseInt(FormatInt(p.page.value)) == p.page by {
        if p.page.Some? { FormatIntRoundTrip(p.page.value); }
      }
      assert p.pageSize.Some? ==> ParseInt(FormatInt(p.pageSize.value)) == p.pageSize by {
        if p.pageSize.Some? { FormatIntRoundTrip(p.pageSize.value); }
      }
      var withPage: Values := if p.page.Some? then map[PageKey := [FormatInt(p.page.value)]] else map[];
      if p.pageSize.Some? then withPage[PageSizeKey := [FormatInt(p.pageSize.value)]] else withPage
  }

  /** `ListMemos` up to the transport: GET on the memo collection, no body, with the
      listing query; the URL is the bare collection path exactly when neither field is set. */
  function ListMemos(c: Client, params: Option<ListMemosParams>, encode: Values -> string): (r: Request)
    ensures r.verb == "GET" && r.contentType.None?
    ensures r.authorization == "Bearer " + c.apiKey
    ensures r.url == c.baseURL + MemoPath <==>
      params.None? || (params.value.page.None? && params.value.pageSize.None?)
    ensures '?' !in c.baseURL ==>
      SplitQuery(r.url).0 == c.baseURL + MemoPath &&
      (SplitQuery(r.url).1.Some? ==> SplitQuery(r.url).1.value == encode(ListMemosQuery(params)))
  {
    var q := ListMemosQuery(params);
    assert params.Some? && params.value.page.Some? ==> PageKey in q;
    assert params.Some? && params.value.pageSize.Some? ==> PageSizeKey in q;
    NewRequest(c, "GET", MemoPath, q, false, encode)
  }

  // ---------------------------------------------------------------------------
  // The chat envelope (client.go:344-351, 384-390)
  // ---------------------------------------------------------------------------

  const ChatPath := "/api/v1/chat"

  /** The `chatRequest` literal: only query, system prompt and filters are copied. */
  function ChatEnvelope(params: ChatParams, stream: bool): ChatRequest {
    ChatRequest(query := params.query, stream := stream, systemPrompt := params.systemPrompt,
                filters := params.filters, chatID := "", ragConfig := None)
  }

  /** `Chat`'s envelope. */
  function ChatBody(params: ChatParams): (r: ChatRequest)
    ensures !r.stream
    ensures r.query == params.query && r.systemPrompt == params.systemPrompt && r.filters == params.filters
    ensures r.chatID == "" && r.ragConfig.None?
  {
    ChatEnvelope(params, false)
  }

  /** `StreamedChat`'s envelope. */
  function StreamedChatBody(params: ChatParams): (r: ChatRequest)
    ensures r.stream
    ensures r.query == params.query && r.systemPrompt == params.systemPrompt && r.filters == params.filters
    ensures r.chatID == "" && r.ragConfig.None?
  {
    ChatEnvelope(params, true)
  }

  /** The request `Chat` and `StreamedChat` hand to the transport (client.go:358, 398):
      POST on the chat path with no query parameters and a JSON body. */
  function ChatHTTPRequest(c: Client, encode: Values -> string): (r: Request)
    ensures r.verb == "POST"
    ensures r.url == c.baseURL + ChatPath
    ensures r.authorization == "Bearer " + c.apiKey
    ensures r.contentType == Some(JsonContentType)
  {
    NewRequest(c, "POST", ChatPath, map[], true, encode)
  }

  /** The session id and RAG configuration a caller sets never reach the request: two
      parameter sets that agree on query, system prompt and filters give the same body,
      and the two chat calls' bodies differ only in `stream`. */
  lemma ChatEnvelopeForwardsOnlyThreeFields(p: ChatParams, q: ChatParams)
    requires p.query == q.query && p.systemPrompt == q.systemPrompt && p.filters == q.filters
    ensures ChatBody(p) == ChatBody(q)
    ensures StreamedChatBody(p) == StreamedChatBody(q)
    ensures StreamedChatBody(p) == ChatBody(p).(stream := true)
  {
  }

  /** The marshalled body always has `query` and `stream`, has `filters` and
      `system_prompt` only when set, and never has `chat_id` or `rag_config`. */
  lemma ChatEnvelopeKeys(p: ChatParams, stream: bool)
    ensures var keys := ChatRequestKeys(ChatEnvelope(p, stream));
      && "query" in keys && "stream" in keys
      && ("filters" in keys <==> |p.filters| > 0)
      && ("system_prompt" in keys <==> p.systemPrompt != "")
      && "chat_id" !in keys && "rag_config" !in keys
  {
  }

  // ---------------------------------------------------------------------------
  // Upload size gate (client.go:86-90)
  // ---------------------------------------------------------------------------

  const MaxFileSize: int := 100 * 1024 * 1024
  const FileTooLargeError := "file size exceeds 100MB limit"

  /** The size check of CreateMemoFromFile: a file of exactly 100 MiB is accepted. */
  function CheckFileSize(size: int): (r: Outcome<string>)
    ensures r.Pass? <==> size <= 104857600
    ensures r.Fail? ==> r.error == FileTooLargeError
  {
    if size > MaxFileSize then Fail(FileTooLargeError) else Pass
  }
}
