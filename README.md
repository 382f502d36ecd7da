# go-graphql-handler: persisted queries and request dispatch, in Dafny

This project models the core of a Go HTTP handler for GraphQL. The core has two parts.

- **The persisted-query resolver** (`persistedQueryCheck` in `persisted_query_check.go`). It follows the "automatic persisted queries" convention. The handler keeps a process-wide map from a query's SHA-256 hash to a `CacheEntry`. A request whose `extensions.persistedQuery.sha256Hash` is non-empty is then handled in one of two ways:
  - Without query text, it is a *lookup*. The query and operation name are filled in from the map. A miss fails with a fixed JSON error body.
  - With query text, it is a *registration*. The entry is stored under the hash, and the last write wins.
  Every other request passes through unchanged.
- **The request dispatch of `handler.go`**:
  - `getFromForm` and `NewRequestOptions` decide where a request's options come from: the URL query, the raw body, the posted form, or the JSON decoder.
  - `ContextHandler` fixes the order of outcomes: the persisted-query error first, then OPTIONS (204), then execution, then the GraphiQL or Playground page, then the JSON result.
  - `NewConfig` and `New` build the handler.

Files and modules:

- `go_values.dfy`, module `GoValues`: nil-or-value (`Option`), the values `encoding/json` decodes into `interface{}` (`Json`), and Go map indexing, where a missing key reads as `nil`.
- `request_options.dfy`, module `Options`: the `RequestOptions` record. It exists as a value (`Request`) and as the heap object the resolver mutates (`RequestOptions`).
- `persisted_query_check.dfy`, module `PersistedQuery`:
  - `CacheEntry`, the cache invariant, and the resolver as a function (`Resolve`).
  - The resolver as an imperative method on the cache object (`QueryCache.PersistedQueryCheck`). It is proved equal to `Resolve`.
  - Lemmas for each path of the protocol, and lemmas for any sequence of requests (`Replay`).
- `request_parsing.dfy`, module `RequestParsing`: `url.Values.Get`, `getFromForm`, the media type cut at `;`, and `NewRequestOptions`.
- `handler.dfy`, module `Handler`:
  - `NewConfig` and `New`.
  - `strings.Contains`, the error-formatting loop, and the decision function `Serve`.
  - A recording `ResponseWriter`, with `Emit` saying what each answer writes.
  - `ContextHandler` as an imperative method, proved against `Serve` and `Emit`.

Modelling choices:

- The package-level `cache` variable is an object (`QueryCache`) passed to the handler. Its `Valid()` says that every entry has a non-empty query and is filed under its own hash.
- Go panics are explicit outcomes, not preconditions:
  - `Panicked(fault)` for the three type assertions on the descriptor.
  - `Panic(message)` for `New` without a schema.
- A missing map key and a JSON `null` are the same value, as they are for `interface{}` in Go.
- The cache lookup is Go's zero-value read, `cache[sha].query == ""`, exactly as written. `EmptyQueryMeansAbsent` shows that under the cache invariant this test is exactly "the hash is not stored".
- Foreign code enters as function values. This covers the two uses of `json.Unmarshal` (`Decoders`), `graphql.Do`, `json.Marshal` and `json.MarshalIndent` (`Engine`), `rootObjectFn` and `formatErrorFn`.
- `http.ResponseWriter` is a recording object. It holds the headers, the first status written (a write with no status sends 200 first), the body, and which explorer page was rendered.

Behaviour of the code worth knowing:

- A request without a descriptor comes back with `HasPersistedParams` unchanged. The code never sets the flag to false.
- A malformed descriptor panics (a Go type assertion). It does not fall through to normal handling.
- A registration without a numeric `version` panics after `HasPersistedParams` is set and before anything is stored. A lookup never reads `version`.

Observations the proofs make explicit:

- `getFromForm` never returns nil. So every method other than POST takes its options from the URL query, and the test at `handler.go:80-82` can never succeed. `NewRequestOptions`' first ensures states this.
- `NewConfig` leaves the schema nil. So `New(nil)` always panics with "undefined GraphQL schema" (see `New`'s first ensures).
- The explorer pages are chosen only after the query has run. A GraphiQL or Playground page is rendered only for requests that `graphql.Do` has executed (see `Serve`).

## Model

| member | source | states |
|---|---|---|
| `PersistedQuery.Registration` | persisted_query_check.go:46-52 | a request stores an entry only when its hash and query are both non-empty; the entry holds that query, that operation name and that hash |
| `PersistedQuery.Resolve` | persisted_query_check.go:16-56 | one call removes no key and keeps the cache invariant; the only write is the registration's entry under its hash; without a non-empty hash the request and the cache are unchanged; `HasPersistedParams` is set exactly when the hash is non-empty, even on the error path; the call fails exactly on a lookup miss (non-empty hash, empty query, no stored query under the hash), and then with the fixed body; variables and extensions are never touched; `Persisted` changes only on a lookup hit, and the query then comes from the cache |
| `PersistedQuery.QueryCache.constructor` | persisted_query_check.go:14 | the cache starts empty and satisfies the invariant |
| `PersistedQuery.QueryCache.PersistedQueryCheck` | persisted_query_check.go:16-56 | the in-place version: the outcome, the mutated request object and the new map are exactly those of `Resolve`, and the invariant is kept |
| `PersistedQuery.PassThroughWithoutDescriptor` | persisted_query_check.go:17-25 | nil extensions or no `persistedQuery`: the same request, no error, the cache untouched |
| `PersistedQuery.PassThroughOnEmptyHash` | persisted_query_check.go:29-33 | an empty `sha256Hash` is a pass-through; `HasPersistedParams` is not raised |
| `PersistedQuery.LookupHit` | persisted_query_check.go:37-45 | an empty query with a stored hash: `Query` and `OperationName` are the entry's, `Persisted` and `HasPersistedParams` are true, the cache is unchanged |
| `PersistedQuery.LookupMiss` | persisted_query_check.go:37-40 | an empty query with an unknown hash fails with exactly `{"errors":[{"message":"PersistedQueryNotFound","extensions":{"code":"PERSISTED_QUERY_NOT_FOUND"}}]}`; the caller's struct keeps the raised flag; the cache is unchanged |
| `PersistedQuery.Registers` | persisted_query_check.go:46-55 | a non-empty query stores `{OperationName, Query, sha, version}` under the hash, overwriting; every other key keeps its entry; the request goes on with `Query`, `OperationName` and `Persisted` as sent |
| `PersistedQuery.RegistrationWithoutVersionPanics` | persisted_query_check.go:46-52 | a registration whose `version` is not a number panics after raising the flag and before storing |
| `PersistedQuery.EmptyQueryMeansAbsent` | persisted_query_check.go:38-39 | under the cache invariant, the zero-value test `query == ""` holds exactly when the hash is not stored |
| `PersistedQuery.RegisterThenLookup` | persisted_query_check.go:37-52 | registering `(h, q, op)` and then sending `h` with an empty query yields `q`, `op` and `Persisted` |
| `PersistedQuery.EndToEndExample` | persisted_query_check.go:35-52 | on concrete requests: registering `{ hello }` under `abc123` (version 1) raises `HasPersistedParams`, leaves `Persisted` false and stores the query; sending `abc123` alone then yields `{ hello }` with `Persisted` set; sending the unknown `unknown999` alone fails with the fixed body |
| `PersistedQuery.ReplayKeepsInvariant` | persisted_query_check.go:46-52 | over any sequence of requests, the cache invariant holds and no key is removed |
| `PersistedQuery.ReplayKeepsUntouchedKey` | persisted_query_check.go:46-52 | a hash that no request in a sequence registers keeps its entry, or stays absent |
| `PersistedQuery.LastRegistrationWins` | persisted_query_check.go:47-52 | after a sequence of requests, a hash maps to the entry of its last registration |
| `PersistedQuery.RegisteredQueriesRetrievable` | persisted_query_check.go:37-52 | after a sequence of registrations, a hash-only lookup of any hash that was not re-registered later yields that registration's query and operation name |
| `Options.RequestOptions.constructor` | handler.go:35-42 | the object holds exactly the given field values |
| `RequestParsing.GetFromForm` | handler.go:52-69 | never nil; query and operation name are the first form values; variables and extensions are the decoded form fields; both flags are false |
| `RequestParsing.MediaType` | handler.go:89-91 | the content type used for dispatch is a prefix of the header, contains no `;`, and ends at the first `;` or at the end of the header |
| `RequestParsing.MediaTypeUnique` | handler.go:89-91 | those three properties determine the media type uniquely |
| `RequestParsing.JsonWithCharset` | handler.go:89-93 | `application/json; charset=utf-8` dispatches as `application/json` |
| `RequestParsing.NewRequestOptions` | handler.go:72-131 | a method other than POST reads the URL query (lines 80-82 are dead); a POST without a body gets empty options; `application/graphql` gets the body verbatim as the query and nothing else, or empty options on a read error; form-encoded gets the posted fields, or empty options on a parse error; any other type, none included, gets the JSON decoder, or empty options on a read error |
| `RequestParsing.PostIgnoresUrlQuery` | handler.go:74-86 | a POST never uses the values parsed from the URL at line 74: its options are the same whatever `urlQuery` holds (a malformed URL query still matters through `ParseForm`, see "## Left out") |
| `RequestParsing.JsonCharsetBodyIsDecoded` | handler.go:89-129 | a POST with `application/json; charset=utf-8` takes the JSON path |
| `Handler.NewConfig` | handler.go:231-238 | defaults: no schema, pretty output and GraphiQL on, Playground off, no callbacks |
| `Handler.New` | handler.go:240-258 | a handler is built exactly when a config with a schema is given, so `New(nil)` always panics with "undefined GraphQL schema"; the handler copies the config's fields |
| `Handler.Contains` | handler.go:177 | `strings.Contains` holds exactly when the text occurs at some index |
| `Handler.FormatErrors` | handler.go:166-172 | the formatted slice has one entry per error, and entry `i` is `formatErrorFn` applied to error `i`'s original error |
| `Handler.Serve` | handler.go:135-211 | the cache afterwards is exactly the resolver's and keeps the invariant; the request aborts exactly when the check panics, and a failed check answers with its error (the fixed body) and executes nothing; a request that passes the check and is not OPTIONS is executed with the checked request's query, operation name and variables, the handler's schema and `rootObjectFn`'s object; OPTIONS never executes, and 204 is only for OPTIONS; the engine runs exactly when a page or JSON is written; GraphiQL is rendered whenever it is on and the request asks for an explorer, before Playground, which renders the request; otherwise the answer is JSON of the executed result after `formatErrorFn`, with the handler's pretty flag |
| `Handler.Emit` | handler.go:142-206 | a panic writes nothing; the persisted error sets `Content-Type: application/json`, appends the error text and sends status 200 implicitly; OPTIONS writes status 204 and no body and leaves the headers alone; the JSON result adds `application/json; charset=utf-8`, writes status 200 and appends `MarshalIndent` of the result when pretty and `Marshal` otherwise; GraphiQL renders a page with the execution parameters and Playground one with the request, and change nothing else; only the explorer answers render a page; the error and JSON answers change only the `Content-Type` header entry; a status already written is never overwritten |
| `Handler.ContextHandler` | handler.go:135-211 | the in-place handler: the new cache and everything written to the response are exactly those of `Serve` and `Emit`; a panic of the check is reported and nothing is written |
| `Handler.MissAnswersWithErrorBody` | handler.go:140-146 | on a lookup miss, a fresh response gets exactly the JSON content type, status 200 and the error body; nothing is executed |
| `Handler.OptionsGetsNoContent` | handler.go:148-151 | an OPTIONS request that passes the check gets a bare 204 and no execution |
| `Handler.GraphQLBodyBypassesPersistedQueries` | handler.go:94-101 | an `application/graphql` body carries no extensions, so it never raises the flag or changes the cache |
| `Handler.LookupExecutesRegisteredQuery` | handler.go:137-164 | a hash-only request for a stored hash executes the stored query and operation name |

## Left out

- HTTP I/O: reading the body, `r.ParseForm`, and the header and URL parsing of `net/http` are not modelled. The handler receives their results as the fields of `HttpRequest`. Header names are taken as already canonical.
- `r.ParseForm()` (handler.go:103) parses the URL query as well as the body. Its failure, which a malformed URL query also causes, enters only as `Body.postForm == None`; the model does not tie that to `urlQuery`.
- A nil `Handler.Schema`: the model assumes every handler comes from `New`, so its schema is never nil. A `Handler` built as a Go struct literal without a schema panics at handler.go:155 (`*h.Schema`) on every non-OPTIONS request that passes the check; the model's `Schema` field cannot express that panic.
- `encoding/json`, including the fallback for `variables` sent as a string (handler.go:116-129), is outside the model. It enters as `Decoders.decodeOptions`, an uninterpreted function. Form-field decoding enters as `Decoders.decodeMap`.
- `graphql.Do`, `json.Marshal` and `json.MarshalIndent` are foreign code. They enter as the functions of `Engine`. So does the user's `rootObjectFn`, and `formatErrorFn`, which is a function value on the handler.
- `resultCallbackFn` (handler.go:208-210) is not modelled. It is a user callback invoked after the response is written and does not change the response.
- `renderGraphiQL` and `renderPlayground` produce UI. The model records only which page was rendered, and with what.
- `context.Context` is not carried into the execution parameters. `ServeHTTP` (handler.go:214-216) only forwards the request's context and is not modelled.
- The `float64` `version` is kept as an opaque bit pattern. It is stored and never read, so no floating-point arithmetic is modelled.
- A Go panic is the `Panicked` outcome, or `ContextHandler`'s `panicked` result. How `net/http` recovers from it and closes the connection is not modelled.
- Concurrency: the source reads and writes the global map without a lock. The model is sequential: each call is one atomic step, and `Replay` runs the steps one after another.
- `Handler.Contains`: works on Dafny characters, not on the bytes that `strings.Contains` compares. The two agree on valid UTF-8 text.
