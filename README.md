# Skald Go SDK: streaming reader and request rules, in Dafny

This project models the deterministic core of the Skald Go client library (`package skald`).

- **The server-sent-events reader `parseSSEStream`.** It reads a chat response body line by line. It skips empty lines and `:` keep-alive lines. It decodes only the lines that start with exactly `data: `, silently drops payloads that fail to decode, and sends the events in order. It stops right after the first event whose type is `done`. The accepted lines are a subset of the event-stream format of the WHATWG HTML Living Standard, section 9.2 "Server-sent events".
- **The sequential path of `StreamedChat`.** It marshals the envelope, sends it, checks the status and reads the stream. It delivers at most one error.
- **The request and response rules of the client.**
  - `NewClient` keeps a default base URL and otherwise strips every trailing `/`.
  - `checkResponse` accepts exactly the 2xx statuses.
  - `GetMemo`, `UpdateMemo`, `DeleteMemo` and `CheckMemoStatus` share one `idType` rule.
  - `doRequest` assembles the URL and sets the headers.
  - `Chat` and `StreamedChat` build the `chatRequest` envelope.
  - `CreateMemoFromFile` has a 100 MiB size gate.
  - `ListMemos` builds its `page` and `page_size` query.
- **The types these use.** These are `IDType` and its two constants, `ChatStreamEvent` with its references, `ChatParams` and `chatRequest`, and `APIError` with its message and status predicates.

Modules follow the source: `Types` is types.go, and `SkaldClient` and `EventStream` are client.go. `Text` holds the string helpers both need: `HasPrefix`, the `%d` formatting of `fmt`, and a first-occurrence search. `Wrappers` holds `Option`, `Result` and `Outcome`.

How the model represents the outside world:
- A response body is `Body(lines, readError)`. The lines are already split, and an optional read failure ends the body.
- JSON decoding of one payload is a parameter `decode: string -> Option<ChatStreamEvent>`. `None` stands for a payload that fails to unmarshal.
- `url.PathEscape` and `url.Values.Encode` are parameters `escape` and `encode`.
- The event channel is the sequence of events the reader returns, one append per send.

`ParseSSEStream` is the loop as the source writes it. Its `ensures` equates its results with the specification function `ParseSSE`. The properties of the stream are lemmas about `ScanLines` and `ParseSSE`. The main one is `EmittedAreDecodedThroughDone`: it relates `ScanLines` to an independent description, namely every decodable payload in order, cut right after the first `done`.

Points where the code's behaviour may be unexpected:
- `checkResponse` (client.go:440-447) returns an unstructured `fmt.Errorf` text, not an `*APIError`; client.go never constructs an `APIError`. The model returns that text. `CheckResponse` proves that it is exactly `APIError(status, body).Error()`, and that status and body can be read back from it (`ParseErrorText`).
- The `chatRequest` envelope built by `Chat` and `StreamedChat` (client.go:346-351, 385-390) does not carry the caller's `ChatID` or `RAGConfig`, although both `ChatParams` (types.go:224-230) and `chatRequest` (types.go:234-241) have those fields. The model builds the envelope as the code does, and `ChatEnvelopeKeys` shows that `chat_id` and `rag_config` never appear in the marshalled body.
- `/api/v1/generate` is not called anywhere in client.go, so no document generation call is part of this model.

`NewClient` with a base URL made only of `/` (say `"///"`) stores an empty base URL. It does not fall back to the default. `SlashOnlyBaseURL` states this for `"///"`, and `NewClientStable` states that rebuilding from such a client then gives the default.

## Model

| member | source | states |
|---|---|---|
| `Types.DeclaredIDTypes` | types.go:11-18 | exactly two IDType values are declared, `memo_uuid` and `reference_id`, and they differ |
| `Types.ChatRequestKeys` | types.go:234-241 | a marshalled envelope always has `query` and `stream`; `system_prompt`, `filters`, `chat_id`, `rag_config` appear exactly when non-empty, and no other key appears |
| `Types.ErrorTextRoundTrip` | types.go:295-297 | `Error()` text is `skald API error (<status>): <message>` in a form from which status code and message are both recovered unchanged, whatever the message holds |
| `Types.ErrorTextInjective` | types.go:295-297 | two APIErrors with the same `Error()` text are equal |
| `Types.StatusPredicates` | types.go:299-312 | IsNotFound, IsUnauthorized, IsBadRequest hold exactly for 404, 401, 400, and no two hold at once |
| `Types.StatusPredicatesIgnoreMessage` | types.go:299-312 | the status predicates depend only on the status code |
| `Text.FormatIntRoundTrip` | types.go:296 | the `%d` rendering of a status code reads back as the same integer, negatives included |
| `SkaldClient.TrimTrailingSlashes` | client.go:29 | the result is a prefix of the input, does not end in `/`, and everything removed is `/` |
| `SkaldClient.TrimTrailingSlashesIdempotent` | client.go:29 | trimming twice is trimming once; a string not ending in `/` is unchanged |
| `SkaldClient.NewClient` | client.go:26-37 | the API key is stored unchanged; no or an empty base URL gives `https://api.useskald.com`; otherwise the stored URL is the given one minus its trailing `/` run, and never ends in `/` |
| `SkaldClient.TrailingSlashesDoNotMatter` | client.go:28-30 | base URLs differing only in the number of trailing `/` give the same client |
| `SkaldClient.NewClientStable` | client.go:27-30 | rebuilding a client from its stored base URL gives the same client, except that an all-`/` URL, stored as empty, falls back to the default |
| `SkaldClient.SlashOnlyBaseURL` | client.go:28-30 | the base URL `///` is stored as the empty URL rather than the default |
| `SkaldClient.CheckResponse` | client.go:440-447 | no error exactly when 200 <= status < 300; otherwise the error text is the APIError text of status and body, from which both are recovered |
| `SkaldClient.StatusPredicatesAreFailures` | client.go:440-447 | every status an APIError predicate recognises is rejected by checkResponse |
| `SkaldClient.BuildURL` | client.go:421-424 | the URL starts with base + path; it equals base + path exactly when there are no parameters; when base and path hold no `?`, splitting at the first `?` gives back base + path and the encoded parameters, if any |
| `SkaldClient.NewRequest` | client.go:420-434 | the request has the given verb, `Authorization: Bearer <apiKey>`, `Content-Type: application/json` exactly when there is a body, and the assembled URL |
| `SkaldClient.IDTypeParams` | client.go:153-165 | fails, with the fixed message, exactly when an idType is given that is neither constant; otherwise the only possible parameter is `id_type=reference_id`, present exactly for `reference_id` |
| `SkaldClient.MemoRequest` | client.go:153-168 | an invalid idType fails before any request is built; otherwise the request has the verb, headers, path, and a query only for `reference_id` |
| `SkaldClient.GetMemo` | client.go:152-168 | GET on `/api/v1/memo/<escaped id>`, no body, under the idType rule |
| `SkaldClient.UpdateMemo` | client.go:216-237 | PATCH on `/api/v1/memo/<escaped id>` with a JSON body, under the idType rule |
| `SkaldClient.DeleteMemo` | client.go:255-271 | DELETE on `/api/v1/memo/<escaped id>`, no body, under the idType rule |
| `SkaldClient.CheckMemoStatus` | client.go:284-301 | GET on `/api/v1/memo/<escaped id>/status`, no body, under the idType rule |
| `SkaldClient.IDTypeValidation` | client.go:153-160 | the validation accepts exactly the two declared IDType values, and an omitted idType behaves as `memo_uuid` in all four operations |
| `SkaldClient.ChatBody` | client.go:346-351 | `Chat`'s envelope has `stream` false, copies query, system prompt and filters, and leaves session id and RAG config empty |
| `SkaldClient.StreamedChatBody` | client.go:385-390 | `StreamedChat`'s envelope has `stream` true, copies query, system prompt and filters, and leaves session id and RAG config empty |
| `SkaldClient.ChatEnvelopeForwardsOnlyThreeFields` | client.go:346-351 | parameters agreeing on query, system prompt and filters give the same envelopes, and the streamed one differs from the plain one only in `stream` |
| `SkaldClient.ChatEnvelopeKeys` | client.go:385-390 | the marshalled envelope always has `query` and `stream`, has `filters` and `system_prompt` only when set, and never has `chat_id` or `rag_config` |
| `SkaldClient.ListMemosQuery` | client.go:186-196 | the query has only `page` and `page_size`, each present exactly when set and holding exactly the `%d` text of the given number, which reads back as that number; nil parameters give no query |
| `SkaldClient.ListMemos` | client.go:185-198 | GET on `/api/v1/memo` with no body; the URL is the bare path exactly when neither field is set, and otherwise its query is the encoded listing query |
| `SkaldClient.ChatHTTPRequest` | client.go:398 | the chat request is a POST on `<baseURL>/api/v1/chat` with no query, the bearer header and a JSON body |
| `SkaldClient.CheckFileSize` | client.go:86-90 | a file passes exactly when its size is at most 104857600 bytes; otherwise the error is `file size exceeds 100MB limit` |
| `EventStream.ClassifyLine` | client.go:456-462 | a line carries a payload exactly when it starts with `data: `, and the payload is the rest of the line |
| `EventStream.LineFraming` | client.go:456-462 | empty, `: ping`, `data:x` and `event: token` lines are skipped; `data: ` alone carries an empty payload |
| `EventStream.DataLineEvent` | client.go:462-464 | a `data: ` line yields what its payload decodes to |
| `EventStream.ScanLines` | client.go:453-476 | no event before the last is `done`; the run stopped on done exactly when the last event is `done`; without done every line was consumed |
| `EventStream.ConsumedLinesSuffice` | client.go:453-476 | the read gives the same result on its consumed lines alone |
| `EventStream.DoneLineIsLastConsumed` | client.go:469-474 | a read that stopped on done consumed exactly through the line carrying that done event |
| `EventStream.ParseSSE` | client.go:450-483 | an error is returned exactly when the body has a read failure and no done stopped the read, and it is the failure wrapped as `error reading stream: ` |
| `EventStream.ParseSSEStream` | client.go:450-483 | the loop as written returns exactly the events and error of `ParseSSE` |
| `EventStream.EmittedAreDecodedThroughDone` | client.go:453-476 | the sent events are exactly the successfully decoded `data: ` payloads, in input order, up to and including the first done; the read stops on done exactly when one is decoded |
| `EventStream.ReadFailureOutcome` | client.go:478-482 | a read failure is reported exactly when no done event was decoded; the events are the same with or without the failure; a clean end is never an error |
| `EventStream.StopsAfterDone` | client.go:471-474 | once done is seen, no further lines and no later read failure change the result |
| `EventStream.SkippedLinesEmitNothing` | client.go:456-462 | a body of only empty, `:` and non-`data: ` lines gives no events and no error |
| `EventStream.MalformedPayloadSkipped` | client.go:463-467 | a `data: ` line whose payload fails to decode is passed over without error, and reading goes on with the next line |
| `EventStream.HelloWorldStream` | client_test.go:423-480 | the test body of two tokens and a done yields exactly those three events, in order, and no error |
| `EventStream.StreamedChatRun` | client.go:385-413 | the envelope marshalled is `StreamedChatBody(params)` and it is sent on the POST chat request; at most one error is delivered; a marshal failure or a transport failure yields no event and exactly that error; a non-2xx status yields no event and exactly the APIError text of status and body; on 2xx the events are exactly those of the stream read and the one error, if any, is exactly its error |

## Left out

- Concurrency is not modelled. This covers the goroutine, the unbuffered event channel, the depth-1 error channel, the deferred closes and context cancellation in `StreamedChat` (client.go:377-417). The model computes the same events and the same error sequentially. Blocking sends, backpressure and cancellation are not captured.
- The HTTP transport is not modelled: `http.NewRequestWithContext` (including its failure, "failed to create request"), `http.Client.Do` and response-body lifetime and closing. This is network I/O. `NewRequest` stops at the request value.
- `bufio.Scanner` line splitting is not modelled: CR stripping, the 64 KiB token limit and how a read error interrupts a partial line are library behaviour. The body arrives as lines, plus an abstract terminal failure.
- JSON marshal/unmarshal, `url.PathEscape` and `url.Values.Encode` are library calls. They are parameters of the model and are not defined.
- `EventStream.StreamedChatRun`: the status check reads the body as text, and the stream reader reads it as lines. The model takes both views as given and does not tie them together, because line splitting is left out.
- `CreateMemo` replaces a nil `Metadata` with an empty map before marshalling (client.go:40-44). This is not modelled, because `MemoData` and its untyped JSON metadata values are not modelled.
- `Search` (client.go:318-340) and the response decoding of every call are not modelled. They marshal, send, check with `checkResponse` and unmarshal, and the JSON steps are library calls.
- In `UpdateMemo`, the marshalling failure ("failed to marshal update data") is not modelled, because JSON encoding is abstract.
- In `CreateMemoFromFile` (client.go:72-150), file opening, stat and multipart form construction are not modelled. Only the size predicate is.
- The float fields `VectorSearchConfig.SimilarityThreshold` (types.go:71) and `SearchResult.Distance` (types.go:214) are not modelled. The memo, list, search and status response types of types.go are not modelled either, because the modelled core does not read them.
- Go strings are byte strings; the model's strings are sequences of characters. Every separator the modelled rules look for (`data: `, `:`, `/`, `?`) is ASCII, so these rules behave the same, but a body that is not valid UTF-8 cannot be represented.
- Integers are unbounded. Go's `int` status codes and `int64` file sizes never come near their limits in these rules.
- client_test.go and the repository's demo programs are tests and demos that do console and network I/O. They are not modelled, apart from the scenario lemma `HelloWorldStream`. Some of these programs call functions that client.go does not define.
