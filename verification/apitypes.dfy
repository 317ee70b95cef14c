/** The state of one `ScraperAPI` instance (its own fields and those of the
    three traits it uses), the foreign functions it relies on, and the part
    of the world its requests touch: the cache store, the network calls and
    the pagination callback's invocations. */
module ApiTypes {
  import opened Base
  import opened Strings
  import opened Arrays
  import opened Csrf

  /** A URL parameter value: a string, or the integer page number. */
  datatype Param = Text(text: string) | Number(number: int)

  type Params = Assoc<Param>

  /** The argument of `paginate`: the sentinel 'all', or a page count. */
  datatype PageArg = AllPages | PageCount(count: int)

  /** What a subclass's `parse()` yields for one response: the records to
      append, and the amount it added to the count through `incCount`. */
  datatype Parsed = Parsed(records: seq<Value>, counted: int)

  /** The foreign functions: `md5`, `http_build_query`, the HTTP call (verb
      and URI to body), the subclass's `parse()` of a body on a given page,
      and the DOM lookup of a selector in a document. */
  datatype ApiEnv = ApiEnv(
    md5: string -> string,
    buildQuery: Params -> string,
    fetch: (string, string) -> string,
    parse: (string, int) -> Parsed,
    select: (string, string) -> Option<Node>)

  /** One network call: verb, URI, and the API's page number at the time. */
  datatype Fetch = Fetch(verb: string, uri: string, page: int)

  /** One invocation of a pagination callback (identified by number) with
      a page number. */
  datatype CallbackCall = CallbackCall(callback: nat, page: int)

  /** The cache store (key to result list), the calls made so far and the
      callback invocations so far. */
  datatype World = World(cache: map<string, seq<Value>>, fetches: seq<Fetch>, callbacks: seq<CallbackCall>)

  /** What a concrete API subclass declares: the property defaults it
      overrides. */
  datatype ApiClass = ApiClass(
    apiName: Option<string>,
    apiUrl: Option<string>,
    requiresAuth: bool,
    verb: string,
    urlParams: Params,
    csrfFilter: FilterArray)

  /** The base class's defaults: no name or URL, method GET, no
      authentication, no parameters, and a CSRF filter array whose three
      keys are all null. */
  function BaseClass(): (c: ApiClass)
    ensures c.verb == "GET" && !c.requiresAuth && c.urlParams == []
    ensures c.apiName.None? && c.apiUrl.None? && c.csrfFilter == NullFields
  {
    ApiClass(None, None, false, "GET", [], NullFields)
  }

  /** An API instance. `csrfToken` is the last value `getCsrfToken`
      returned; `callback` is the registered pagination callback. */
  datatype Api = Api(
    apiName: Option<string>,
    apiUrl: Option<string>,
    requiresAuth: bool,
    verb: string,
    page: int,
    urlParams: Params,
    csrfFilter: FilterArray,
    csrfToken: Option<Extracted>,
    shouldCache: bool,
    cacheKey: Option<string>,
    cacheMinutes: int,
    shouldPaginate: bool,
    totalPages: Option<PageArg>,
    callback: Option<nat>,
    results: seq<Value>,
    count: int)

  /** `new $class($webScraper)`: the class's declared fields plus the
      defaults of the base class and traits. */
  function Instantiate(c: ApiClass): (a: Api)
    ensures a.apiName == c.apiName && a.apiUrl == c.apiUrl && a.verb == c.verb
    ensures a.requiresAuth == c.requiresAuth && a.urlParams == c.urlParams && a.csrfFilter == c.csrfFilter
    ensures a.page == 1 && a.csrfToken.None?
    ensures !a.shouldCache && a.cacheKey.None? && a.cacheMinutes == 60
    ensures !a.shouldPaginate && a.totalPages.None? && a.callback.None?
    ensures a.results == [] && a.count == 0
  {
    Api(c.apiName, c.apiUrl, c.requiresAuth, c.verb, 1, c.urlParams, c.csrfFilter, None,
        false, None, 60, false, None, None, [], 0)
  }

  datatype ApiError =
    | MissingApiUrl          // a request with a null URI: PHP's type check on `string $uri`
    | CsrfFilterNotSet       // 'CSRF token filter not set'
}
