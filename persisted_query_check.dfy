/** The automatic-persisted-query resolver of persisted_query_check.go: a
    process-wide map from a query's SHA-256 hash to the query text, filled by
    requests that carry both the text and the hash (registration) and read
    by requests that carry only the hash (lookup). */
module PersistedQuery {
  import opened GoValues
  import opened Options

  /** One remembered query. The source keeps `sha256Hash` beside the map key
      and the client's protocol `version`, which nothing ever reads. */
  datatype CacheEntry = CacheEntry(
    operationName: string,
    query: string,
    sha256Hash: string,
    version: Float64)

  /** The Go zero value `CacheEntry{}` that indexing a map with a missing key yields. */
  function ZeroEntry(): CacheEntry
  {
    CacheEntry("", "", "", Float64(0))
  }

  /** Go's `cache[sha]`: the stored entry, or the zero value when there is none. */
  function Get(cache: map<string, CacheEntry>, sha: string): CacheEntry
  {
    if sha in cache then cache[sha] else ZeroEntry()
  }

  /** What every reachable cache satisfies: entries hold a query and are
      filed under their own hash. */
  ghost predicate CacheInvariant(cache: map<string, CacheEntry>)
  {
    forall sha :: sha in cache ==> cache[sha].query != "" && cache[sha].sha256Hash == sha
  }

  /** The exact response body for a hash the cache does not know. */
  const NotFoundBody: string :=
    "{\"errors\":[{\"message\":\"PersistedQueryNotFound\",\"extensions\":{\"code\":\"PERSISTED_QUERY_NOT_FOUND\"}}]}"

  /** The Go type assertions that can panic while reading the descriptor. */
  datatype Fault =
    | DescriptorNotObject   // `persistedQuery.(map[string]interface{})`
    | HashNotString         // `values["sha256Hash"].(string)`
    | VersionNotNumber      // `values["version"].(float64)`

  /** How a call ends: it returns `opts` with a nil error, it returns a nil
      request with the error message, or it panics. */
  datatype CheckOutcome =
    | Proceed
    | Failed(message: string)
    | Panicked(fault: Fault)

  /** What `extensions.persistedQuery` holds, read as far as the source reads
      it before it branches on the hash. */
  datatype Descriptor =
    | Absent                                   // nil extensions, or no persistedQuery
    | NotObject                                // persistedQuery is not a JSON object
    | BadHash                                  // sha256Hash missing or not a string
    | Present(sha: string, values: map<string, Json>)

  function DescriptorOf(extensions: Option<map<string, Json>>): Descriptor
  {
    if extensions.None? then Absent
    else
      var persistedQuery := Index(extensions.value, "persistedQuery");
      if persistedQuery.JNull? then Absent
      else if !persistedQuery.JObject? then NotObject
      else
        var sha := Index(persistedQuery.fields, "sha256Hash");
        if !sha.JString? then BadHash
        else Present(sha.s, persistedQuery.fields)
  }

  /** The request names a non-empty hash: the protocol is in play. */
  predicate Active(opts: Request)
  {
    var d := DescriptorOf(opts.extensions);
    d.Present? && d.sha != ""
  }

  /** The entry a request stores, when it is a registration whose `version`
      is a number (the only registrations that do not panic). This is the
      registration branch of `Resolve` on its own, with no cache and no
      outcome: `Resolve` follows the Go branches statement by statement, and
      its contract is stated through this function, so the two definitions
      check each other. */
  function Registration(opts: Request): (e: Option<CacheEntry>)
    ensures e.Some? ==> Active(opts) && e.value.query == opts.query != ""
    ensures e.Some? ==> e.value.sha256Hash == DescriptorOf(opts.extensions).sha
    ensures e.Some? ==> e.value.operationName == opts.operationName
  {
    var d := DescriptorOf(opts.extensions);
    if d.Present? && d.sha != "" && opts.query != "" then
      var version := Index(d.values, "version");
      if version.JNumber? then Some(CacheEntry(opts.operationName, opts.query, d.sha, version.n))
      else None
    else None
  }

  /** The effect of one call: how it ends, the request it leaves behind (the
      caller's struct, mutated even when the call then fails), the new cache. */
  datatype Step = Step(outcome: CheckOutcome, request: Request, cache: map<string, CacheEntry>)

  /** `persistedQueryCheck` as a function of the cache and the request. */
  function Resolve(cache: map<string, CacheEntry>, opts: Request): (s: Step)
    // keys are never removed; the invariant is kept
    ensures cache.Keys <= s.cache.Keys
    ensures CacheInvariant(cache) ==> CacheInvariant(s.cache)
    // the only write is the registration's entry, under its hash
    ensures s.cache == (match Registration(opts)
                        case Some(e) => cache[e.sha256Hash := e]
                        case None => cache)
    // without a non-empty hash nothing changes
    ensures !Active(opts) ==> s.request == opts && s.cache == cache
    ensures !Active(opts) ==> s.outcome.Proceed? || s.outcome.Panicked?
    ensures s.request.hasPersistedParams == (opts.hasPersistedParams || Active(opts))
    // the one error is a lookup miss, reported with the fixed body
    ensures s.outcome.Failed? ==> s.outcome.message == NotFoundBody
    ensures s.outcome.Failed? <==>
              Active(opts) && opts.query == "" && Get(cache, DescriptorOf(opts.extensions).sha).query == ""
    // the fields the resolver never touches
    ensures s.request.variables == opts.variables && s.request.extensions == opts.extensions
    // a query is taken from the cache only on a lookup, and then it is the stored one
    ensures s.request.persisted != opts.persisted ==>
              s.outcome.Proceed? && opts.query == "" && s.request.persisted &&
              s.request.query == Get(cache, DescriptorOf(opts.extensions).sha).query != ""
  {
    match DescriptorOf(opts.extensions)
    case Absent => Step(Proceed, opts, cache)
    case NotObject => Step(Panicked(DescriptorNotObject), opts, cache)
    case BadHash => Step(Panicked(HashNotString), opts, cache)
    case Present(sha, values) =>
      if sha == "" then Step(Proceed, opts, cache)
      else
        var flagged := opts.(hasPersistedParams := true);
        if opts.query == "" then
          var cachedValue := Get(cache, sha);
          if cachedValue.query == "" then Step(Failed(NotFoundBody), flagged, cache)
          else
            Step(Proceed,
                 flagged.(operationName := cachedValue.operationName,
                          query := cachedValue.query,
                          persisted := true),
                 cache)
        else
          var version := Index(values, "version");
          if !version.JNumber? then Step(Panicked(VersionNotNumber), flagged, cache)
          else Step(Proceed, flagged, cache[sha := CacheEntry(opts.operationName, opts.query, sha, version.n)])
  }

  /** The package-level `cache` variable, as an object that owns the map. */
  class QueryCache {
    var entries: map<string, CacheEntry>

    ghost predicate Valid()
      reads this
    {
      CacheInvariant(entries)
    }

    /** `make(map[string]CacheEntry)` at program start. */
    constructor ()
      ensures Valid() && entries == map[]
    {
      entries := map[];
    }

    /** `persistedQueryCheck(opts)`: reads the hash from the request's
        extensions, then fills the request from the cache (lookup) or files
        the request's query under the hash (registration). */
    method PersistedQueryCheck(opts: RequestOptions) returns (outcome: CheckOutcome)
      requires Valid()
      modifies this, opts
      ensures Valid()
      ensures var s := Resolve(old(entries), old(opts.Value()));
              outcome == s.outcome && opts.Value() == s.request && entries == s.cache
    {
      if opts.extensions.None? {
        return Proceed;
      }
      var persistedQuery := Index(opts.extensions.value, "persistedQuery");
      if persistedQuery.JNull? {
        return Proceed;
      }
      if !persistedQuery.JObject? {
        return Panicked(DescriptorNotObject);
      }
      var values := persistedQuery.fields;
      var sha := Index(values, "sha256Hash");
      if !sha.JString? {
        return Panicked(HashNotString);
      }
      if sha.s == "" {
        return Proceed;
      }
      opts.hasPersistedParams := true;
      if opts.query == "" {
        var cachedValue := Get(entries, sha.s);
        if cachedValue.query == "" {
          return Failed(NotFoundBody);
        }
        opts.operationName := cachedValue.operationName;
        opts.query := cachedValue.query;
        opts.persisted := true;
        return Proceed;
      } else if opts.query != "" {
        var version := Index(values, "version");
        if !version.JNumber? {
          return Panicked(VersionNotNumber);
        }
        entries := entries[sha.s := CacheEntry(opts.operationName, opts.query, sha.s, version.n)];
      }
      return Proceed;
    }
  }

  // ---------------------------------------------------------------------
  // The protocol, path by path

  /** Nil extensions, or no `persistedQuery` in them: the request comes back as it was. */
  lemma PassThroughWithoutDescriptor(cache: map<string, CacheEntry>, opts: Request)
    requires opts.extensions.None? || Index(opts.extensions.value, "persistedQuery").JNull?
    ensures Resolve(cache, opts) == Step(Proceed, opts, cache)
  {
  }

  /** An empty hash counts as no descriptor: no flag is raised. */
  lemma PassThroughOnEmptyHash(cache: map<string, CacheEntry>, opts: Request)
    requires DescriptorOf(opts.extensions).Present? && DescriptorOf(opts.extensions).sha == ""
    ensures Resolve(cache, opts) == Step(Proceed, opts, cache)
    ensures Resolve(cache, opts).request.hasPersistedParams == opts.hasPersistedParams
  {
  }

  /** Lookup hit: query and operation name come from the entry, `persisted` is set. */
  lemma LookupHit(cache: map<string, CacheEntry>, opts: Request, sha: string)
    requires CacheInvariant(cache)
    requires DescriptorOf(opts.extensions).Present? && DescriptorOf(opts.extensions).sha == sha != ""
    requires opts.query == "" && sha in cache
    ensures var s := Resolve(cache, opts);
            && s.outcome == Proceed
            && s.request.query == cache[sha].query
            && s.request.operationName == cache[sha].operationName
            && s.request.persisted && s.request.hasPersistedParams
            && s.cache == cache
  {
  }

  /** Lookup miss: a nil request and the fixed error body; the flag is
      already set on the caller's struct. */
  lemma LookupMiss(cache: map<string, CacheEntry>, opts: Request, sha: string)
    requires DescriptorOf(opts.extensions).Present? && DescriptorOf(opts.extensions).sha == sha != ""
    requires opts.query == "" && sha !in cache
    ensures Resolve(cache, opts) == Step(Failed(NotFoundBody), opts.(hasPersistedParams := true), cache)
  {
  }

  /** Registration: the entry is written under the hash, last write wins,
      every other key keeps its entry, and the request goes on as sent. */
  lemma Registers(cache: map<string, CacheEntry>, opts: Request, sha: string, version: Float64)
    requires DescriptorOf(opts.extensions).Present? && DescriptorOf(opts.extensions).sha == sha != ""
    requires Index(DescriptorOf(opts.extensions).values, "version") == JNumber(version)
    requires opts.query != ""
    ensures var s := Resolve(cache, opts);
            && s.outcome == Proceed
            && s.request == opts.(hasPersistedParams := true)
            && sha in s.cache && s.cache[sha] == CacheEntry(opts.operationName, opts.query, sha, version)
            && (forall k :: k in cache && k != sha ==> k in s.cache && s.cache[k] == cache[k])
            && s.cache.Keys == cache.Keys + {sha}
  {
  }

  /** A registration whose `version` is not a number panics before the store,
      after the flag was raised. A lookup never reads `version`. */
  lemma RegistrationWithoutVersionPanics(cache: map<string, CacheEntry>, opts: Request)
    requires Active(opts) && opts.query != ""
    requires !Index(DescriptorOf(opts.extensions).values, "version").JNumber?
    ensures Resolve(cache, opts) == Step(Panicked(VersionNotNumber), opts.(hasPersistedParams := true), cache)
  {
  }

  /** Under the invariant, the zero-value test the source uses (`query == ""`)
      is exactly "the hash is not in the map". */
  lemma EmptyQueryMeansAbsent(cache: map<string, CacheEntry>, sha: string)
    requires CacheInvariant(cache)
    ensures Get(cache, sha).query == "" <==> sha !in cache
  {
  }

  /** Registering `(sha, q, op)` and then asking for `sha` alone gives back `q` and `op`. */
  lemma RegisterThenLookup(cache: map<string, CacheEntry>, register: Request, lookup: Request, sha: string)
    requires DescriptorOf(register.extensions).Present? && DescriptorOf(register.extensions).sha == sha != ""
    requires Index(DescriptorOf(register.extensions).values, "version").JNumber?
    requires register.query != ""
    requires DescriptorOf(lookup.extensions).Present? && DescriptorOf(lookup.extensions).sha == sha
    requires lookup.query == ""
    ensures var s := Resolve(Resolve(cache, register).cache, lookup);
            && s.outcome == Proceed
            && s.request.query == register.query
            && s.request.operationName == register.operationName
            && s.request.persisted
  {
  }

  /** The request `{"extensions":{"persistedQuery":{"sha256Hash":sha,"version":1}}}`
      plus the given query text. */
  function HashRequest(sha: string, query: string): Request
  {
    var descriptor := JObject(map["sha256Hash" := JString(sha), "version" := JNumber(Float64(0x3FF0_0000_0000_0000))]);
    Request(query, None, "", Some(map["persistedQuery" := descriptor]), false, false)
  }

  /** Registering `{ hello }` under `abc123` flags the request and stores it;
      sending `abc123` alone then yields `{ hello }` as a persisted query;
      sending the unknown `unknown999` alone fails with the fixed body. */
  lemma EndToEndExample()
    ensures var first := Resolve(map[], HashRequest("abc123", "{ hello }"));
            && first.outcome == Proceed
            && first.request.hasPersistedParams && !first.request.persisted
            && first.request.query == "{ hello }"
            && var second := Resolve(first.cache, HashRequest("abc123", ""));
               && second.outcome == Proceed
               && second.request.query == "{ hello }" && second.request.persisted
               && Resolve(second.cache, HashRequest("unknown999", "")).outcome == Failed(NotFoundBody)
  {
  }

  // ---------------------------------------------------------------------
  // Many requests, one after another

  /** The cache after the requests were checked in order. */
  function Replay(cache: map<string, CacheEntry>, requests: seq<Request>): map<string, CacheEntry>
    decreases |requests|
  {
    if requests == [] then cache
    else Replay(Resolve(cache, requests[0]).cache, requests[1..])
  }

  /** Whether checking `opts` stores an entry under `sha`. */
  predicate RegistersAt(opts: Request, sha: string)
  {
    Registration(opts).Some? && Registration(opts).value.sha256Hash == sha
  }

  /** Any sequence of calls keeps the invariant and removes no key. */
  lemma {:induction false} ReplayKeepsInvariant(cache: map<string, CacheEntry>, requests: seq<Request>)
    requires CacheInvariant(cache)
    ensures CacheInvariant(Replay(cache, requests))
    ensures cache.Keys <= Replay(cache, requests).Keys
    decreases |requests|
  {
    if requests != [] {
      ReplayKeepsInvariant(Resolve(cache, requests[0]).cache, requests[1..]);
    }
  }

  /** A key that no request registers keeps its entry, or stays absent. */
  lemma {:induction false} ReplayKeepsUntouchedKey(cache: map<string, CacheEntry>, requests: seq<Request>, sha: string)
    requires forall j :: 0 <= j < |requests| ==> !RegistersAt(requests[j], sha)
    ensures (sha in Replay(cache, requests)) == (sha in cache)
    ensures sha in cache ==> Replay(cache, requests)[sha] == cache[sha]
    decreases |requests|
  {
    if requests != [] {
      assert !RegistersAt(requests[0], sha);
      var rest := requests[1..];
      assert forall j :: 0 <= j < |rest| ==> rest[j] == requests[j + 1];
      ReplayKeepsUntouchedKey(Resolve(cache, requests[0]).cache, rest, sha);
    }
  }

  /** Last write wins: the entry under a hash is the one from the last
      registration of that hash, whatever came before or after. */
  lemma {:induction false} LastRegistrationWins(cache: map<string, CacheEntry>, requests: seq<Request>, i: nat)
    requires i < |requests| && Registration(requests[i]).Some?
    requires forall j :: i < j < |requests| ==>
               !RegistersAt(requests[j], Registration(requests[i]).value.sha256Hash)
    ensures var e := Registration(requests[i]).value;
            e.sha256Hash in Replay(cache, requests) && Replay(cache, requests)[e.sha256Hash] == e
    decreases i
  {
    var e := Registration(requests[i]).value;
    var next := Resolve(cache, requests[0]).cache;
    var rest := requests[1..];
    assert forall j :: 0 <= j < |rest| ==> rest[j] == requests[j + 1];
    if i == 0 {
      ReplayKeepsUntouchedKey(next, rest, e.sha256Hash);
    } else {
      LastRegistrationWins(next, rest, i - 1);
    }
  }

  /** Registrations checked one after another are all retrievable afterwards:
      a lookup of the hash of registration `i` that no later request
      re-registers gives back registration `i`'s query. */
  lemma RegisteredQueriesRetrievable(cache: map<string, CacheEntry>, requests: seq<Request>, i: nat, lookup: Request)
    requires i < |requests| && Registration(requests[i]).Some?
    requires forall j :: i < j < |requests| ==>
               !RegistersAt(requests[j], Registration(requests[i]).value.sha256Hash)
    requires DescriptorOf(lookup.extensions).Present?
    requires DescriptorOf(lookup.extensions).sha == Registration(requests[i]).value.sha256Hash
    requires lookup.query == ""
    ensures var s := Resolve(Replay(cache, requests), lookup);
            && s.outcome == Proceed
            && s.request.query == requests[i].query
            && s.request.operationName == requests[i].operationName
            && s.request.persisted
  {
    LastRegistrationWins(cache, requests, i);
  }
}
