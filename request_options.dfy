/** The `RequestOptions` record of handler.go: the parsed GraphQL request.
    `Request` is its value; `RequestOptions` is the heap object that
    `persistedQueryCheck` receives by pointer and overwrites field by field. */
module Options {
  import opened GoValues

  /** A nil map is `None`; a non-nil (possibly empty) map is `Some`. */
  datatype Request = Request(
    query: string,
    variables: Option<map<string, Json>>,
    operationName: string,
    extensions: Option<map<string, Json>>,
    persisted: bool,
    hasPersistedParams: bool)

  /** `&RequestOptions{}`: every field at its Go zero value. */
  function EmptyOptions(): Request
  {
    Request("", None, "", None, false, false)
  }

  class RequestOptions {
    var query: string
    var variables: Option<map<string, Json>>
    var operationName: string
    var extensions: Option<map<string, Json>>
    var persisted: bool
    var hasPersistedParams: bool

    /** The record the object currently holds. */
    function Value(): Request
      reads this
    {
      Request(query, variables, operationName, extensions, persisted, hasPersistedParams)
    }

    /** Allocates a struct holding `v`, as `&opts` does for a decoded value. */
    constructor (v: Request)
      ensures Value() == v
    {
      query := v.query;
      variables := v.variables;
      operationName := v.operationName;
      extensions := v.extensions;
      persisted := v.persisted;
      hasPersistedParams := v.hasPersistedParams;
    }
  }
}
