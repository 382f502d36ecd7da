/** How handler.go turns an HTTP request into `RequestOptions`
    (`getFromForm` and `NewRequestOptions`). Everything the Go code reads from
    the request arrives here already read: the method, the parsed URL query,
    the `Content-Type` and `Accept` header values, and what reading or
    form-parsing the body produced. JSON decoding is `encoding/json`, outside
    this model, and enters as the functions of `Decoders`. */
module RequestParsing {
  import opened GoValues
  import opened Options

  const ContentTypeJSON: string := "application/json"
  const ContentTypeGraphQL: string := "application/graphql"
  const ContentTypeFormURLEncoded: string := "application/x-www-form-urlencoded"
  const MethodPost: string := "POST"

  /** `url.Values`: each key with the values given for it, in order. */
  type FormValues = map<string, seq<string>>

  /** `values.Get(key)`: the first value for the key, or "" when there is none. */
  function FormGet(values: FormValues, key: string): string
  {
    if key in values && |values[key]| > 0 then values[key][0] else ""
  }

  /** A non-nil request body, as far as the handler looks at it: what
      `ioutil.ReadAll` returned (None when it failed), and `r.PostForm` after
      `r.ParseForm()` (None when parsing failed). */
  datatype Body = Body(content: Option<string>, postForm: Option<FormValues>)

  datatype HttpRequest = HttpRequest(
    httpMethod: string,
    urlQuery: FormValues,     // r.URL.Query()
    contentType: string,      // r.Header.Get("Content-Type")
    accept: string,           // r.Header.Get("Accept")
    body: Option<Body>)       // None when r.Body is nil

  /** The two uses of `json.Unmarshal`: into a freshly made map (a form field;
      the map is nil afterwards only for the text `null`), and into a zero
      `RequestOptions` (a JSON body, with the fallback that decodes
      `variables` sent as a string). */
  datatype Decoders = Decoders(
    decodeMap: string -> Option<map<string, Json>>,
    decodeOptions: string -> Request)

  /** `getFromForm`: the four request fields from form values. It returns a
      pointer, and that pointer is never nil. */
  function GetFromForm(values: FormValues, dec: Decoders): (r: Option<Request>)
    ensures r.Some?
    ensures r.value.query == FormGet(values, "query")
    ensures r.value.operationName == FormGet(values, "operationName")
    ensures r.value.variables == dec.decodeMap(FormGet(values, "variables"))
    ensures r.value.extensions == dec.decodeMap(FormGet(values, "extensions"))
    ensures !r.value.persisted && !r.value.hasPersistedParams
  {
    var query := FormGet(values, "query");
    var variablesStr := FormGet(values, "variables");
    var extensionsStr := FormGet(values, "extensions");
    Some(Request(query, dec.decodeMap(variablesStr), FormGet(values, "operationName"),
                 dec.decodeMap(extensionsStr), false, false))
  }

  /** `strings.Split(s, ";")[0]`: the media type in front of any parameters. */
  function MediaType(s: string): (m: string)
    ensures m <= s
    ensures ';' !in m
    ensures |m| < |s| ==> s[|m|] == ';'
    decreases |s|
  {
    if s == [] || s[0] == ';' then [] else [s[0]] + MediaType(s[1..])
  }

  /** The three properties above pin the media type down: any string that has
      them is `MediaType(s)`. */
  lemma MediaTypeUnique(s: string, m: string)
    requires m <= s && ';' !in m && (|m| < |s| ==> s[|m|] == ';')
    ensures m == MediaType(s)
  {
  }

  /** A charset parameter does not change the dispatch: the JSON path is taken. */
  lemma JsonWithCharset()
    ensures MediaType("application/json; charset=utf-8") == ContentTypeJSON
  {
    MediaTypeUnique("application/json; charset=utf-8", ContentTypeJSON);
  }

  /** `NewRequestOptions`: where the request's options come from, decided by
      the method, whether there is a body, and the media type. */
  function NewRequestOptions(r: HttpRequest, dec: Decoders): (o: Request)
    // every method but POST reads the URL query; the test at line 80 never fires
    ensures r.httpMethod != MethodPost ==> o == GetFromForm(r.urlQuery, dec).value
    ensures r.httpMethod == MethodPost && r.body.None? ==> o == EmptyOptions()
    // application/graphql: the body verbatim is the query, nothing else is set
    ensures r.httpMethod == MethodPost && r.body.Some? && MediaType(r.contentType) == ContentTypeGraphQL ==>
              o == (match r.body.value.content
                   case Some(text) => EmptyOptions().(query := text)
                   case None => EmptyOptions())
    // form-encoded: the posted fields
    ensures r.httpMethod == MethodPost && r.body.Some? && MediaType(r.contentType) == ContentTypeFormURLEncoded ==>
              o == (match r.body.value.postForm
                   case Some(form) => GetFromForm(form, dec).value
                   case None => EmptyOptions())
    // any other media type, none included: the JSON decoder
    ensures r.httpMethod == MethodPost && r.body.Some? &&
            MediaType(r.contentType) != ContentTypeGraphQL && MediaType(r.contentType) != ContentTypeFormURLEncoded ==>
              o == (match r.body.value.content
                   case Some(text) => dec.decodeOptions(text)
                   case None => EmptyOptions())
  {
    var reqOpt := GetFromForm(r.urlQuery, dec);
    if r.httpMethod != "POST" && reqOpt.Some? then reqOpt.value
    else if r.httpMethod != MethodPost then EmptyOptions()
    else if r.body.None? then EmptyOptions()
    else
      var contentType := MediaType(r.contentType);
      if contentType == ContentTypeGraphQL then
        match r.body.value.content
        case None => EmptyOptions()
        case Some(body) => Request(body, None, "", None, false, false)
      else if contentType == ContentTypeFormURLEncoded then
        match r.body.value.postForm
        case None => EmptyOptions()
        case Some(form) =>
          var posted := GetFromForm(form, dec);
          if posted.Some? then posted.value else EmptyOptions()
      else
        match r.body.value.content
        case None => EmptyOptions()
        case Some(body) => dec.decodeOptions(body)
  }

  /** A POST never uses the values parsed from the URL query: its options
      are the same whatever `urlQuery` holds. (A failed `ParseForm`, which a
      malformed URL query also causes, arrives as `postForm == None`.) */
  lemma PostIgnoresUrlQuery(r: HttpRequest, other: FormValues, dec: Decoders)
    requires r.httpMethod == MethodPost
    ensures NewRequestOptions(r.(urlQuery := other), dec) == NewRequestOptions(r, dec)
  {
  }

  /** A JSON body with a charset parameter is decoded as JSON. */
  lemma JsonCharsetBodyIsDecoded(r: HttpRequest, dec: Decoders, text: string)
    requires r.httpMethod == MethodPost && r.contentType == "application/json; charset=utf-8"
    requires r.body.Some? && r.body.value.content == Some(text)
    ensures NewRequestOptions(r, dec) == dec.decodeOptions(text)
  {
    JsonWithCharset();
  }
}
