/** `ScraperAPI`'s own operations: merging URL parameters, attaching them
    to the URL (with the page number while paginating), and fetching a
    page to look up its CSRF token through the shared scraper. */
module ScraperApi {
  import opened Base
  import opened Strings
  import opened Arrays
  import opened Csrf
  import opened ApiTypes
  import Scraping

  /** `params`: the given parameters are merged in by key. */
  function WithParams(st: Api, p: Params): (r: Api)
    ensures r == st.(urlParams := r.urlParams)
    ensures |r.urlParams| >= |st.urlParams|
    ensures forall i :: 0 <= i < |st.urlParams| ==> r.urlParams[i].0 == st.urlParams[i].0
  {
    st.(urlParams := Merge(st.urlParams, p))
  }

  /** Given keys override, every other parameter is kept, and a
      well-formed parameter array stays well formed. */
  lemma WithParamsGet(st: Api, p: Params, k: string)
    requires Distinct(p)
    ensures Get(WithParams(st, p).urlParams, k) == if Has(p, k) then Get(p, k) else Get(st.urlParams, k)
    ensures Distinct(st.urlParams) ==> Distinct(WithParams(st, p).urlParams)
  {
    MergeGet(st.urlParams, p, k);
    if Distinct(st.urlParams) {
      MergeDistinct(st.urlParams, p);
    }
  }

  /** `attachUrlParams`: the API (whose `page` parameter may have been set)
      and the URL. With no parameters the URL is returned as it is, even
      while paginating; otherwise `?` and the query string of the
      parameters are appended, after `page` is set to the current page when
      paginating. */
  function AttachUrlParams(env: ApiEnv, st: Api, url: string): (r: (Api, string))
    ensures r.0 == st.(urlParams := r.0.urlParams)
    ensures |st.urlParams| == 0 ==> r == (st, url)
    ensures |st.urlParams| > 0 ==> r.1 == url + "?" + env.buildQuery(r.0.urlParams)
    ensures !(st.shouldPaginate && |st.urlParams| > 0) ==> r.0.urlParams == st.urlParams
    ensures st.shouldPaginate && |st.urlParams| > 0 ==>
              && Get(r.0.urlParams, "page") == Some(Number(st.page))
              && (forall k :: k != "page" ==> Get(r.0.urlParams, k) == Get(st.urlParams, k))
  {
    if |st.urlParams| == 0 then (st, url)
    else
      PutSpec(st.urlParams, "page", Number(st.page));
      var st1 := if st.shouldPaginate then st.(urlParams := Put(st.urlParams, "page", Number(st.page))) else st;
      (st1, url + "?" + env.buildQuery(st1.urlParams))
  }

  /** The page parameter is overwritten, not accumulated: attaching for one
      page and then for another leaves the parameters as attaching for the
      second page alone would. */
  lemma AttachTwice(env: ApiEnv, st: Api, url1: string, url2: string, page2: int)
    requires st.shouldPaginate
    ensures var once := AttachUrlParams(env, st, url1).0;
            AttachUrlParams(env, once.(page := page2), url2) == AttachUrlParams(env, st.(page := page2), url2)
  {
    if |st.urlParams| > 0 {
      PutPut(st.urlParams, "page", Number(st.page), Number(page2));
    }
  }

  /** `setApiUrl`: the stored URL is exactly the attached one. */
  function SetApiUrl(env: ApiEnv, st: Api, url: string): (r: Api)
    ensures r.apiUrl.Some?
    ensures url <= r.apiUrl.value
    ensures |st.urlParams| == 0 ==> r == st.(apiUrl := Some(url))
    ensures r == st.(apiUrl := r.apiUrl, urlParams := r.urlParams)
    ensures (r.urlParams, r.apiUrl.value) == (AttachUrlParams(env, st, url).0.urlParams, AttachUrlParams(env, st, url).1)
  {
    var (st1, full) := AttachUrlParams(env, st, url);
    st1.(apiUrl := Some(full))
  }

  /** The outcome of the API's token lookup. */
  datatype CsrfLookup = CsrfLookup(api: Api, world: World, scraper: Scraping.Scraper, token: Extracted)

  /** The filter array `getCsrfToken` works with when called without one:
      the API's own, or the scraper's whole filter when the API's selector
      is null or missing. */
  function OwnFilter(st: Api, sc: Scraping.Scraper): FilterArray {
    if SelectorOf(Fields(st.csrfFilter)).None? then AsFields(sc.csrfFilter) else st.csrfFilter
  }

  /** `getCsrfToken`: resolve the filter array (adopting the scraper's when
      neither an argument nor an own selector is given), refuse a null
      selector before any request, then GET the page and let the scraper
      look the token up in its body, with the resolved array merged into
      its own filter key by key. */
  function GetCsrfToken(env: ApiEnv, st: Api, w: World, sc: Scraping.Scraper, uri: string,
                        filter: Option<FilterArray>): (r: Result<CsrfLookup, ApiError>)
    ensures r.Failure? <==> SelectorOf(Fields(if filter.None? then OwnFilter(st, sc) else filter.value)).None?
    ensures r.Failure? ==> r.error == CsrfFilterNotSet
    ensures r.Success? ==> r.value.api == st.(csrfFilter := r.value.api.csrfFilter, csrfToken := Some(r.value.token))
    ensures r.Success? ==> r.value.api.csrfFilter == if filter.None? then OwnFilter(st, sc) else st.csrfFilter
    ensures r.Success? ==> r.value.world == w.(fetches := w.fetches + [Fetch("GET", uri, st.page)])
    ensures r.Success? ==>
              r.value.scraper.csrfFilter == SetFilter(sc.csrfFilter, Fields(if filter.None? then OwnFilter(st, sc) else filter.value))
    ensures r.Success? ==>
              var f := r.value.scraper.csrfFilter;
              r.value.token == Extract(f, env.select(OrEmpty(f.filter), env.fetch("GET", uri)))
  {
    var st1 := if filter.None? then st.(csrfFilter := OwnFilter(st, sc)) else st;
    var arg := Fields(if filter.Some? then filter.value else st1.csrfFilter);
    if SelectorOf(arg).None? then Failure(CsrfFilterNotSet)
    else
      var body := env.fetch("GET", uri);
      var lookup := Scraping.GetCsrfToken(env.select, sc, Some(arg), Some(body));
      Success(CsrfLookup(st1.(csrfToken := Some(lookup.result)), w.(fetches := w.fetches + [Fetch("GET", uri, st.page)]),
                         lookup.scraper, lookup.result))
  }

  /** Without an argument and without an own selector, the lookup runs on
      the scraper's filter exactly as it stands. An own array that gives
      only some keys overrides those keys and leaves the scraper's other
      keys in place, so a selector-only array keeps the scraper's attribute
      and field name. */
  lemma OwnFilterMerge(env: ApiEnv, st: Api, w: World, sc: Scraping.Scraper, uri: string)
    requires GetCsrfToken(env, st, w, sc, uri, None).Success?
    ensures var f := GetCsrfToken(env, st, w, sc, uri, None).value.scraper.csrfFilter;
            && (SelectorOf(Fields(st.csrfFilter)).None? ==> f == sc.csrfFilter)
            && (SelectorOf(Fields(st.csrfFilter)).Some? ==>
                  && f.filter == SelectorOf(Fields(st.csrfFilter))
                  && (st.csrfFilter.attr.None? ==> f.attr == sc.csrfFilter.attr)
                  && (st.csrfFilter.name.None? ==> f.name == sc.csrfFilter.name))
  {
  }

  /** A lookup that goes through leaves the scraper holding exactly the
      token the API stored, when an attribute is configured and a node was
      found; so a later login submits it. */
  lemma CsrfLookupSharesToken(env: ApiEnv, st: Api, w: World, sc: Scraping.Scraper, uri: string, filter: Option<FilterArray>)
    requires GetCsrfToken(env, st, w, sc, uri, filter).Success?
    requires GetCsrfToken(env, st, w, sc, uri, filter).value.token.AttrValue?
    ensures var r := GetCsrfToken(env, st, w, sc, uri, filter).value;
            r.scraper.csrfToken == Some(r.token.value) && r.api.csrfToken == Some(r.token)
  {
  }
}
