/** The HTTP entry point of handler.go: the handler built from a `Config`,
    and `ContextHandler`, which parses the request, runs the persisted-query
    check, executes the query and writes one of five responses. The GraphQL
    engine (`graphql.Do`), the JSON encoders and the user's callbacks are
    outside this model and enter as function values. */
module Handler {
  import opened GoValues
  import opened Options
  import opened PersistedQuery
  import opened RequestParsing

  /** A `*graphql.Schema`; the handler only passes it on to the engine. */
  datatype Schema = Schema(id: nat)

  /** An `error` value, and the `gqlerrors.FormattedError` that wraps one
      (its `OriginalError()` is `originalError`). */
  datatype GoError = GoError(text: string)
  datatype FormattedError = FormattedError(message: string, originalError: GoError)

  /** The `graphql.Params` the handler builds (the context is left out). */
  datatype ExecParams = ExecParams(
    schema: Schema,
    requestString: string,
    variableValues: Option<map<string, Json>>,
    operationName: string,
    rootObject: Option<map<string, Json>>)

  /** The `*graphql.Result` of an execution. */
  datatype ExecResult = ExecResult(data: Json, errors: seq<FormattedError>)

  datatype Config = Config(
    schema: Option<Schema>,
    pretty: bool,
    graphiQL: bool,
    playground: bool,
    rootObjectFn: Option<HttpRequest -> map<string, Json>>,
    formatErrorFn: Option<GoError -> FormattedError>)

  datatype Handler = Handler(
    schema: Schema,
    pretty: bool,
    graphiql: bool,
    playground: bool,
    rootObjectFn: Option<HttpRequest -> map<string, Json>>,
    formatErrorFn: Option<GoError -> FormattedError>)

  /** `NewConfig`: pretty output and GraphiQL on, Playground off, no schema. */
  function NewConfig(): (c: Config)
    ensures c.schema.None? && c.pretty && c.graphiQL && !c.playground
    ensures c.rootObjectFn.None? && c.formatErrorFn.None?
  {
    Config(None, true, true, false, None, None)
  }

  const UndefinedSchema: string := "undefined GraphQL schema"

  /** What `New` does: returns a handler, or panics. */
  datatype Construction = Built(handler: Handler) | Panic(message: string)

  /** `New(p)`: a nil config means the defaults; a config without a schema
      panics. Since the defaults have no schema, `New(nil)` always panics. */
  function New(p: Option<Config>): (c: Construction)
    ensures c.Built? <==> p.Some? && p.value.schema.Some?
    ensures c.Panic? ==> c.message == UndefinedSchema
    ensures c.Built? ==>
              && c.handler.schema == p.value.schema.value
              && c.handler.pretty == p.value.pretty
              && c.handler.graphiql == p.value.graphiQL
              && c.handler.playground == p.value.playground
              && c.handler.rootObjectFn == p.value.rootObjectFn
              && c.handler.formatErrorFn == p.value.formatErrorFn
  {
    var config := if p.None? then NewConfig() else p.value;
    if config.schema.None? then Panic(UndefinedSchema)
    else Built(Handler(config.schema.value, config.pretty, config.graphiQL, config.playground,
                       config.rootObjectFn, config.formatErrorFn))
  }

  /** `substr` occurs in `s` starting at index `i`. */
  predicate OccursAt(s: string, substr: string, i: nat)
  {
    i + |substr| <= |s| && s[i..i + |substr|] == substr
  }

  /** Dropping the first character of `s` shifts every occurrence left by one. */
  lemma OccursShift(s: string, substr: string)
    requires |s| > 0
    ensures forall i: nat :: OccursAt(s[1..], substr, i) ==> OccursAt(s, substr, i + 1)
    ensures forall i: nat :: 1 <= i && OccursAt(s, substr, i) ==> OccursAt(s[1..], substr, i - 1)
  {
  }

  /** `strings.Contains(s, substr)`. */
  function Contains(s: string, substr: string): (b: bool)
    ensures b <==> exists i: nat :: OccursAt(s, substr, i)
    decreases |s|
  {
    if |substr| > |s| then false
    else if s[..|substr|] == substr then assert OccursAt(s, substr, 0); true
    else
      assert !OccursAt(s, substr, 0);
      OccursShift(s, substr);
      Contains(s[1..], substr)
  }

  /** The test both explorers use: no `raw` URL parameter, and an `Accept`
      header that asks for HTML and not for JSON. */
  predicate ShowsExplorer(r: HttpRequest)
  {
    "raw" !in r.urlQuery && !Contains(r.accept, "application/json") && Contains(r.accept, "text/html")
  }

  /** Each error replaced by what `formatErrorFn` makes of its original error. */
  function FormatAll(errors: seq<FormattedError>, formatErrorFn: GoError -> FormattedError): seq<FormattedError>
  {
    seq(|errors|, i requires 0 <= i < |errors| => formatErrorFn(errors[i].originalError))
  }

  /** The loop of `ContextHandler` that fills the `formatted` slice. */
  method FormatErrors(errors: seq<FormattedError>, formatErrorFn: GoError -> FormattedError)
    returns (formatted: seq<FormattedError>)
    ensures |formatted| == |errors|
    ensures forall i :: 0 <= i < |errors| ==> formatted[i] == formatErrorFn(errors[i].originalError)
  {
    var a := new FormattedError[|errors|];
    for i := 0 to |errors|
      invariant forall k :: 0 <= k < i ==> a[k] == formatErrorFn(errors[k].originalError)
    {
      a[i] := formatErrorFn(errors[i].originalError);
    }
    formatted := a[..];
  }

  /** The foreign code the handler calls: the decoders of `NewRequestOptions`,
      `graphql.Do`, and `json.Marshal` / `json.MarshalIndent` of a result. */
  datatype Engine = Engine(
    decoders: Decoders,
    execute: ExecParams -> ExecResult,
    marshal: ExecResult -> string,
    marshalIndent: ExecResult -> string)

  /** The five ways `ContextHandler` answers, and the panic it lets through. */
  datatype Reply =
    | Aborted(fault: Fault)
    | PersistedError(message: string)
    | NoContent
    | GraphiQLPage(params: ExecParams)
    | PlaygroundPage(request: HttpRequest)
    | JsonResult(result: ExecResult, pretty: bool)

  /** One request: the answer, the cache afterwards, and the parameters the
      engine was called with, if it was called. */
  datatype Exchange = Exchange(reply: Reply, cache: map<string, CacheEntry>, executed: Option<ExecParams>)

  /** What `ContextHandler` decides for a request, in the order it decides it. */
  function Serve(h: Handler, r: HttpRequest, cache: map<string, CacheEntry>, env: Engine): (x: Exchange)
    ensures CacheInvariant(cache) ==> CacheInvariant(x.cache)
    // a failed check answers with its error and runs nothing
    ensures x.reply.PersistedError? ==> x.reply.message == NotFoundBody && x.executed.None?
    // OPTIONS never executes
    ensures r.httpMethod == "OPTIONS" ==> x.executed.None?
    ensures x.reply.NoContent? ==> r.httpMethod == "OPTIONS"
    // the engine runs exactly when a page or a JSON result is written
    ensures x.executed.Some? <==> x.reply.GraphiQLPage? || x.reply.PlaygroundPage? || x.reply.JsonResult?
    // GraphiQL is tried before Playground, and both need an HTML-only Accept without raw
    ensures x.reply.GraphiQLPage? ==> h.graphiql && ShowsExplorer(r) && x.executed == Some(x.reply.params)
    ensures x.reply.PlaygroundPage? ==> h.playground && !h.graphiql && ShowsExplorer(r)
    ensures x.reply.JsonResult? ==> !(ShowsExplorer(r) && (h.graphiql || h.playground)) && x.reply.pretty == h.pretty
    // what is executed is the request after the check, against the handler's schema
    ensures x.executed.Some? ==>
              var checked := Resolve(cache, NewRequestOptions(r, env.decoders));
              && checked.outcome.Proceed?
              && x.executed.value.schema == h.schema
              && x.executed.value.requestString == checked.request.query
              && x.executed.value.operationName == checked.request.operationName
              && x.executed.value.variableValues == checked.request.variables
    // the cache afterwards is the resolver's, and the check alone decides abort and error
    ensures
      var checked := Resolve(cache, NewRequestOptions(r, env.decoders));
      && x.cache == checked.cache
      && (x.reply.Aborted? <==> checked.outcome.Panicked?)
      && (checked.outcome.Panicked? ==> x.reply == Aborted(checked.outcome.fault))
      && (checked.outcome.Failed? ==> x.reply == PersistedError(checked.outcome.message))
    // a request that passes the check and is not OPTIONS is executed
    ensures
      var checked := Resolve(cache, NewRequestOptions(r, env.decoders));
      checked.outcome.Proceed? && r.httpMethod != "OPTIONS" ==>
        x.executed == Some(ParamsFor(h, r, checked.request))
    // GraphiQL wins whenever it is on and asked for; Playground shows the request
    ensures x.executed.Some? && h.graphiql && ShowsExplorer(r) ==> x.reply.GraphiQLPage?
    ensures x.executed.Some? && !h.graphiql && h.playground && ShowsExplorer(r) ==> x.reply == PlaygroundPage(r)
    // otherwise the JSON answer is the executed result after formatErrorFn
    ensures x.executed.Some? && !(ShowsExplorer(r) && (h.graphiql || h.playground)) ==>
              x.reply == JsonResult(Formatted(h, env.execute(x.executed.value)), h.pretty)
  {
    var check := Resolve(cache, NewRequestOptions(r, env.decoders));
    match check.outcome
    case Panicked(fault) => Exchange(Aborted(fault), check.cache, None)
    case Failed(message) => Exchange(PersistedError(message), check.cache, None)
    case Proceed =>
      if r.httpMethod == "OPTIONS" then Exchange(NoContent, check.cache, None)
      else
        var params := ParamsFor(h, r, check.request);
        Exchange(Answer(h, r, params, Formatted(h, env.execute(params))), check.cache, Some(params))
  }

  /** The `graphql.Params` built from the checked request. */
  function ParamsFor(h: Handler, r: HttpRequest, opts: Request): ExecParams
  {
    var rootObject := if h.rootObjectFn.Some? then Some(h.rootObjectFn.value(r)) else None;
    ExecParams(h.schema, opts.query, opts.variables, opts.operationName, rootObject)
  }

  /** The result with its errors passed through `formatErrorFn`, when there is one. */
  function Formatted(h: Handler, raw: ExecResult): ExecResult
  {
    if h.formatErrorFn.Some? && |raw.errors| > 0
    then raw.(errors := FormatAll(raw.errors, h.formatErrorFn.value))
    else raw
  }

  /** The answer to an executed request: an explorer page or the JSON result. */
  function Answer(h: Handler, r: HttpRequest, params: ExecParams, result: ExecResult): Reply
  {
    if h.graphiql && ShowsExplorer(r) then GraphiQLPage(params)
    else if h.playground && ShowsExplorer(r) then PlaygroundPage(r)
    else JsonResult(result, h.pretty)
  }

  // ---------------------------------------------------------------------
  // The response, as an `http.ResponseWriter` records it

  /** An explorer page written by `renderGraphiQL` / `renderPlayground`. */
  datatype Page = GraphiQL(params: ExecParams) | Playground(request: HttpRequest)

  /** Headers, the status (0 while none is written), the body and the page. */
  datatype Response = Response(header: map<string, seq<string>>, status: int, body: string, page: Option<Page>)

  /** `WriteHeader(code)`: only the first status written counts. */
  function WithStatus(resp: Response, code: int): Response
  {
    if resp.status == 0 then resp.(status := code) else resp
  }

  /** `Write(data)`: sends a 200 status first when none was written. */
  function Written(resp: Response, data: string): Response
  {
    WithStatus(resp, 200).(body := resp.body + data)
  }

  /** `Header().Set(key, value)`. */
  function HeaderSet(resp: Response, key: string, value: string): Response
  {
    resp.(header := resp.header[key := [value]])
  }

  /** `Header().Add(key, value)`. */
  function HeaderAdd(resp: Response, key: string, value: string): Response
  {
    resp.(header := resp.header[key := (if key in resp.header then resp.header[key] else []) + [value]])
  }

  const JsonUtf8: string := "application/json; charset=utf-8"

  /** The writes each reply makes, starting from the writer's state `before`. */
  function Emit(reply: Reply, before: Response, env: Engine): (after: Response)
    ensures reply.Aborted? ==> after == before
    ensures reply.PersistedError? ==>
              && "Content-Type" in after.header && after.header["Content-Type"] == [ContentTypeJSON]
              && after.body == before.body + reply.message
              && (before.status == 0 ==> after.status == 200)
    ensures reply.NoContent? ==> after.body == before.body && (before.status == 0 ==> after.status == 204)
    ensures reply.JsonResult? ==>
              && "Content-Type" in after.header
              && after.header["Content-Type"] ==
                 (if "Content-Type" in before.header then before.header["Content-Type"] else []) + [JsonUtf8]
              && (before.status == 0 ==> after.status == 200)
    ensures reply.JsonResult? ==>
              after.body == before.body +
                (if reply.pretty then env.marshalIndent(reply.result) else env.marshal(reply.result))
    ensures reply.NoContent? ==> after.header == before.header && after.page == before.page
    ensures reply.GraphiQLPage? ==> after == before.(page := Some(GraphiQL(reply.params)))
    ensures reply.PlaygroundPage? ==> after == before.(page := Some(Playground(reply.request)))
    ensures after.page != before.page ==> reply.GraphiQLPage? || reply.PlaygroundPage?
    // `Header().Set` and `Header().Add` touch one key; a second status is ignored
    ensures reply.PersistedError? ==> after.header == before.header["Content-Type" := [ContentTypeJSON]]
    ensures reply.JsonResult? ==>
              after.header == before.header["Content-Type" :=
                (if "Content-Type" in before.header then before.header["Content-Type"] else []) + [JsonUtf8]]
    ensures before.status != 0 ==> after.status == before.status
  {
    match reply
    case Aborted(_) => before
    case PersistedError(message) => Written(HeaderSet(before, "Content-Type", ContentTypeJSON), message)
    case NoContent => WithStatus(before, 204)
    case GraphiQLPage(params) => before.(page := Some(GraphiQL(params)))
    case PlaygroundPage(request) => before.(page := Some(Playground(request)))
    case JsonResult(result, pretty) =>
      var buff := if pretty then env.marshalIndent(result) else env.marshal(result);
      Written(WithStatus(HeaderAdd(before, "Content-Type", JsonUtf8), 200), buff)
  }

  class ResponseWriter {
    var header: map<string, seq<string>>
    var status: int
    var body: string
    var page: Option<Page>

    function State(): Response
      reads this
    {
      Response(header, status, body, page)
    }

    constructor ()
      ensures State() == Response(map[], 0, "", None)
    {
      header, status, body, page := map[], 0, "", None;
    }

    method SetHeader(key: string, value: string)
      modifies this
      ensures State() == HeaderSet(old(State()), key, value)
    {
      header := header[key := [value]];
    }

    method AddHeader(key: string, value: string)
      modifies this
      ensures State() == HeaderAdd(old(State()), key, value)
    {
      var values := if key in header then header[key] else [];
      header := header[key := values + [value]];
    }

    method WriteHeader(code: int)
      modifies this
      ensures State() == WithStatus(old(State()), code)
    {
      if status == 0 {
        status := code;
      }
    }

    method Write(data: string)
      modifies this
      ensures State() == Written(old(State()), data)
    {
      WriteHeader(200);
      body := body + data;
    }

    method Render(p: Page)
      modifies this
      ensures State() == old(State()).(page := Some(p))
    {
      page := Some(p);
    }
  }

  /** `ContextHandler(ctx, w, r)`: the persisted-query check first, then
      OPTIONS, then execution, then the explorer pages, then the JSON result.
      `panicked` reports a panic of the check, which Go would propagate. */
  method ContextHandler(h: Handler, w: ResponseWriter, r: HttpRequest, cache: QueryCache, env: Engine)
    returns (panicked: Option<Fault>)
    requires cache.Valid()
    modifies w, cache
    ensures cache.Valid()
    ensures var x := Serve(h, r, old(cache.entries), env);
            && cache.entries == x.cache
            && w.State() == Emit(x.reply, old(w.State()), env)
            && panicked == (if x.reply.Aborted? then Some(x.reply.fault) else None)
  {
    ghost var x := Serve(h, r, cache.entries, env);
    ghost var check := Resolve(cache.entries, NewRequestOptions(r, env.decoders));

    var opts := new RequestOptions(NewRequestOptions(r, env.decoders));
    var outcome := cache.PersistedQueryCheck(opts);
    assert outcome == check.outcome && opts.Value() == check.request && cache.entries == check.cache;
    if outcome.Panicked? {
      assert x.reply == Aborted(outcome.fault);
      return Some(outcome.fault);
    }
    if outcome.Failed? {
      w.SetHeader("Content-Type", ContentTypeJSON);
      w.Write(outcome.message);
      assert x.reply == PersistedError(outcome.message);
      return None;
    }
    if r.httpMethod == "OPTIONS" {
      w.WriteHeader(204);
      assert x.reply == NoContent;
      return None;
    }

    var rootObject := None;
    if h.rootObjectFn.Some? {
      rootObject := Some(h.rootObjectFn.value(r));
    }
    var params := ExecParams(h.schema, opts.query, opts.variables, opts.operationName, rootObject);
    assert params == ParamsFor(h, r, check.request);
    var result := env.execute(params);

    if h.formatErrorFn.Some? && |result.errors| > 0 {
      var formatted := FormatErrors(result.errors, h.formatErrorFn.value);
      assert formatted == FormatAll(result.errors, h.formatErrorFn.value);
      result := result.(errors := formatted);
    }
    assert result == Formatted(h, env.execute(params));
    assert x.reply == Answer(h, r, params, result);

    if h.graphiql {
      if ShowsExplorer(r) {
        w.Render(GraphiQL(params));
        return None;
      }
    }
    if h.playground {
      if ShowsExplorer(r) {
        w.Render(Playground(r));
        return None;
      }
    }

    w.AddHeader("Content-Type", JsonUtf8);
    var buff;
    if h.pretty {
      w.WriteHeader(200);
      buff := env.marshalIndent(result);
      w.Write(buff);
    } else {
      w.WriteHeader(200);
      buff := env.marshal(result);
      w.Write(buff);
    }
    return None;
  }

  // ---------------------------------------------------------------------
  // Properties of whole requests

  /** A lookup miss answers with exactly the error body as `application/json`
      (status 200, sent implicitly by the write) and executes nothing. */
  lemma MissAnswersWithErrorBody(h: Handler, r: HttpRequest, cache: map<string, CacheEntry>, env: Engine)
    requires Resolve(cache, NewRequestOptions(r, env.decoders)).outcome.Failed?
    ensures var x := Serve(h, r, cache, env);
            && x.reply == PersistedError(NotFoundBody)
            && x.executed.None?
            && x.cache == cache
            && Emit(x.reply, Response(map[], 0, "", None), env)
               == Response(map["Content-Type" := [ContentTypeJSON]], 200, NotFoundBody, None)
  {
  }

  /** An OPTIONS request that passes the check gets a bare 204. */
  lemma OptionsGetsNoContent(h: Handler, r: HttpRequest, cache: map<string, CacheEntry>, env: Engine)
    requires r.httpMethod == "OPTIONS"
    requires Resolve(cache, NewRequestOptions(r, env.decoders)).outcome.Proceed?
    ensures var x := Serve(h, r, cache, env);
            && x.reply == NoContent
            && x.executed.None?
            && Emit(x.reply, Response(map[], 0, "", None), env) == Response(map[], 204, "", None)
  {
  }

  /** A body sent as `application/graphql` carries no extensions, so it never
      enters the persisted-query protocol and never changes the cache. */
  lemma GraphQLBodyBypassesPersistedQueries(r: HttpRequest, cache: map<string, CacheEntry>, dec: Decoders)
    requires r.httpMethod == MethodPost && r.body.Some?
    requires MediaType(r.contentType) == ContentTypeGraphQL
    ensures var check := Resolve(cache, NewRequestOptions(r, dec));
            check.outcome.Proceed? && check.cache == cache && !check.request.hasPersistedParams
  {
  }

  /** A hash-only request for a registered hash executes the registered query. */
  lemma LookupExecutesRegisteredQuery(h: Handler, r: HttpRequest, cache: map<string, CacheEntry>, env: Engine, sha: string)
    requires CacheInvariant(cache) && sha in cache && sha != ""
    requires r.httpMethod != "OPTIONS"
    requires var opts := NewRequestOptions(r, env.decoders);
             opts.query == "" && DescriptorOf(opts.extensions).Present? && DescriptorOf(opts.extensions).sha == sha
    ensures var x := Serve(h, r, cache, env);
            && x.executed.Some?
            && x.executed.value.requestString == cache[sha].query
            && x.executed.value.operationName == cache[sha].operationName
  {
    LookupHit(cache, NewRequestOptions(r, env.decoders), sha);
  }
}
