/** The `PaginatesResults` trait: `paginate` requests pages 1, 2, ... up to
    a limit, stopping at once on a cache hit and after the first page that
    does not raise the count, calling the registered callback after every
    page it fetched. `PaginateFrom` is the reference definition of the loop
    and `Paginate` the loop itself. */
module Pagination {
  import opened Base
  import opened Strings
  import opened Arrays
  import opened ApiTypes
  import opened ScraperApi
  import opened Caching
  import opened Results

  /** The stand-in for "all pages". */
  const AllPagesLimit: int := 9999

  /** The last page `paginate` will request: 9999 for 'all', the given
      count otherwise. */
  function Limit(pages: PageArg): (n: int)
    ensures pages == AllPages ==> n == AllPagesLimit
    ensures pages.PageCount? ==> n == pages.count
  {
    match pages
    case AllPages => AllPagesLimit
    case PageCount(n) => n
  }

  /** `paginateCallback`: the callback is replaced. */
  function SetCallback(st: Api, callback: nat): (r: Api)
    ensures r.callback == Some(callback)
    ensures r.(callback := st.callback) == st
  {
    st.(callback := Some(callback))
  }

  /** Registering a second callback discards the first. */
  lemma SetCallbackTwice(st: Api, c1: nat, c2: nat)
    ensures SetCallback(SetCallback(st, c1), c2) == SetCallback(st, c2)
  {
  }

  /** The state on entry to the loop: paginating, with the raw argument
      kept as the total page count. */
  function StartPagination(st: Api, pages: PageArg): (r: Api)
    ensures r.shouldPaginate && r.totalPages == Some(pages)
    ensures r.(shouldPaginate := st.shouldPaginate, totalPages := st.totalPages) == st
  {
    st.(shouldPaginate := true, totalPages := Some(pages))
  }

  /** Leaving the loop, by any path: pagination off, then `getResults`. */
  function Finish(st: Api, w: World): (r: Outcome)
    ensures !r.api.shouldPaginate && r.api == st.(shouldPaginate := false)
    ensures r.world.fetches == w.fetches && r.world.callbacks == w.callbacks
  {
    var st' := st.(shouldPaginate := false);
    var (results, w') := GetResults(st', w);
    Outcome(st', w', results)
  }

  /** What leaving the loop answers: without caching, the accumulated
      results, with the world untouched; with caching, the list stored
      under the key, which is the accumulated results, stored there now,
      when the key was not stored yet. */
  lemma FinishAnswers(st: Api, w: World)
    ensures var r := Finish(st, w);
            && (!st.shouldCache ==> r.results == st.results && r.world == w)
            && (st.shouldCache ==> RememberKey(r.api) in r.world.cache && r.world.cache[RememberKey(r.api)] == r.results)
            && (st.shouldCache && RememberKey(st) !in w.cache ==>
                  r.results == st.results && r.world.cache == w.cache[RememberKey(st) := st.results])
            && (st.shouldCache && RememberKey(st) in w.cache ==> r.results == w.cache[RememberKey(st)] && r.world == w)
  {
    assert RememberKey(st.(shouldPaginate := false)) == RememberKey(st);
  }

  /** The callback, if one is registered, is called with the page number. */
  function Notify(st: Api, w: World, page: int): (r: World)
    ensures r.fetches == w.fetches && r.cache == w.cache
    ensures st.callback.None? ==> r == w
    ensures st.callback.Some? ==> r.callbacks == w.callbacks + [CallbackCall(st.callback.value, page)]
  {
    if st.callback.Some? then w.(callbacks := w.callbacks + [CallbackCall(st.callback.value, page)]) else w
  }

  /** How many pages remain from `page` to `limit`. */
  function Budget(page: int, limit: int): nat {
    if page <= limit then limit - page + 1 else 0
  }

  /** One `request` as the loop sees it: from the API and the world to the
      outcome. */
  type Requester = (Api, World) -> Result<Outcome, ApiError>

  /** `request($apiUrl)` with the loop's URL argument fixed. */
  function RequestFor(env: ApiEnv, apiUrl: Option<string>): Requester {
    (a: Api, w: World) => Request(env, a, w, apiUrl)
  }

  /** Reference definition of the loop from `page` on: set the page, make
      the request, return at once on a cache hit, call the callback, and
      stop when the count did not rise or the limit is passed. */
  function PaginateFrom(req: Requester, st: Api, w: World, page: int, limit: int): (r: Result<Outcome, ApiError>)
    ensures r.Success? ==> !r.value.api.shouldPaginate
    decreases Budget(page, limit)
  {
    if page > limit then Success(Finish(st, w))
    else
      var st1 := st.(page := page);
      var out :- req(st1, w);
      if Hit(out.api, out.world) then Success(Finish(out.api, out.world))
      else
        var w2 := Notify(out.api, out.world, page);
        if out.api.count == st1.count then Success(Finish(out.api, w2))
        else PaginateFrom(req, out.api, w2, page + 1, limit)
  }

  /** What the subclass's parser makes of a fetched page. */
  function Yield(env: ApiEnv, f: Fetch): Parsed {
    env.parse(env.fetch(f.verb, f.uri), f.page)
  }

  /** The URI requested for a page: the URL given to `paginate` with the
      parameters and the page number attached, or the bare URL when there
      are no parameters, for every page alike. */
  function PageUri(env: ApiEnv, params: Params, url: string, page: int): string {
    if |params| == 0 then url else url + "?" + env.buildQuery(Put(params, "page", Number(page)))
  }

  /** The URI a run requests for a page, given the parameters and the
      stored URL: with a URL argument, that page's own URI; without one,
      the stored URL. */
  function UriFor(env: ApiEnv, apiUrl: Option<string>, params: Params, stored: Option<string>, page: int): Option<string> {
    if apiUrl.Some? then Some(PageUri(env, params, apiUrl.value, page)) else stored
  }

  /** What one request made while paginating keeps, as far as the loop is
      concerned: the pagination state, the callback and the caching switch
      stay, nothing is written to the cache and no callback is called; it
      is either answered from the cache with no call (which only happens
      with caching on), or makes exactly one call, for the current page,
      with the API's method. */
  ghost predicate Keeps(a: Api, w: World, out: Outcome) {
    && out.api.shouldPaginate
    && out.api.callback == a.callback
    && out.api.shouldCache == a.shouldCache
    && out.api.totalPages == a.totalPages
    && out.api.verb == a.verb
    && out.world.callbacks == w.callbacks
    && out.world.cache == w.cache
    && out.results == out.api.results
    && w.fetches <= out.world.fetches
    && (!a.shouldCache ==> !Hit(out.api, out.world))
    && (Hit(out.api, out.world) ==> out.world.fetches == w.fetches)
    && (!Hit(out.api, out.world) ==>
          && |out.world.fetches| == |w.fetches| + 1
          && out.world.fetches[|w.fetches|].verb == a.verb
          && out.world.fetches[|w.fetches|].page == a.page)
  }

  /** A request that made a call added what the parser yields for the
      fetched page to the count and to the results. */
  ghost predicate Counts(env: ApiEnv, a: Api, w: World, out: Outcome) {
    |out.world.fetches| == |w.fetches| + 1 ==>
      && out.api.count == a.count + Yield(env, out.world.fetches[|w.fetches|]).counted
      && out.api.results == a.results + Yield(env, out.world.fetches[|w.fetches|]).records
  }

  /** Two states give every page the same URI: with a URL argument, their
      parameters differ at most in `page`; without one, they store the same
      URL. */
  ghost predicate SameUris(apiUrl: Option<string>, b: Api, a: Api) {
    if apiUrl.None? then b.apiUrl == a.apiUrl
    else (|b.urlParams| == 0) == (|a.urlParams| == 0) && Put(b.urlParams, "page", Number(0)) == Put(a.urlParams, "page", Number(0))
  }

  /** States that give every page the same URI give each page the same URI. */
  lemma SameUrisAt(env: ApiEnv, apiUrl: Option<string>, b: Api, a: Api, q: int)
    requires SameUris(apiUrl, b, a)
    ensures UriFor(env, apiUrl, b.urlParams, b.apiUrl, q) == UriFor(env, apiUrl, a.urlParams, a.apiUrl, q)
  {
    if apiUrl.Some? && |a.urlParams| > 0 {
      PutPut(a.urlParams, "page", Number(0), Number(q));
      PutPut(b.urlParams, "page", Number(0), Number(q));
    }
  }

  /** Where a request sends its call: to the URI `UriFor` gives for the
      current page; and what it changes (the page parameter) leaves the
      URI of every page as it was. */
  ghost predicate Addresses(env: ApiEnv, apiUrl: Option<string>, a: Api, w: World, out: Outcome) {
    && (|out.world.fetches| == |w.fetches| + 1 ==>
          Some(out.world.fetches[|w.fetches|].uri) == UriFor(env, apiUrl, a.urlParams, a.apiUrl, a.page))
    && SameUris(apiUrl, out.api, a)
  }

  /** The facts about one request, each guarded by the request having been
      made while paginating and having gone through. */
  ghost predicate KeepsAt(req: Requester, a: Api, w: World) {
    a.shouldPaginate && req(a, w).Success? ==> Keeps(a, w, req(a, w).value)
  }

  ghost predicate CountsAt(env: ApiEnv, req: Requester, a: Api, w: World) {
    a.shouldPaginate && req(a, w).Success? ==> Counts(env, a, w, req(a, w).value)
  }

  ghost predicate AddressesAt(env: ApiEnv, apiUrl: Option<string>, req: Requester, a: Api, w: World) {
    a.shouldPaginate && req(a, w).Success? ==> Addresses(env, apiUrl, a, w, req(a, w).value)
  }

  /** Every request `req` makes while paginating keeps and counts as one
      `request` does. */
  ghost predicate Steps(env: ApiEnv, req: Requester) {
    && (forall a: Api, w: World :: KeepsAt(req, a, w))
    && (forall a: Api, w: World :: CountsAt(env, req, a, w))
  }

  /** Every request `req` makes while paginating goes to the URI `UriFor`
      gives for its page, as `request($apiUrl)` does. */
  ghost predicate Addressed(env: ApiEnv, apiUrl: Option<string>, req: Requester) {
    forall a: Api, w: World :: AddressesAt(env, apiUrl, req, a, w)
  }

  /** A paginating request that starts with a key set, caching on, ends
      with the same key. */
  ghost predicate KeyKeptAt(req: Requester, a: Api, w: World) {
    a.shouldPaginate && a.shouldCache && TruthyOpt(a.cacheKey) && req(a, w).Success? ==>
      req(a, w).value.api.cacheKey == a.cacheKey
  }

  ghost predicate KeepsKeys(req: Requester) {
    forall a: Api, w: World :: KeyKeptAt(req, a, w)
  }

  /** A paginating request leaves a key set that is not stored. */
  ghost predicate MissesAt(req: Requester, a: Api, w: World) {
    a.shouldPaginate && req(a, w).Success? ==>
      TruthyOpt(req(a, w).value.api.cacheKey) && req(a, w).value.api.cacheKey.value !in w.cache
  }

  /** No page of a run from `page` on is answered from the cache: caching
      is off, or the requester keeps keys and the request for `page`
      misses (nothing is stored while paginating, so every later one
      misses too). */
  ghost predicate NoHits(req: Requester, st: Api, w: World, page: int) {
    !st.shouldCache || (KeepsKeys(req) && MissesAt(req, st.(page := page), w))
  }

  /** One `request` made while paginating keeps what the loop relies on. */
  lemma RequestKeeps(env: ApiEnv, apiUrl: Option<string>, a: Api, w: World)
    requires a.shouldPaginate && Request(env, a, w, apiUrl).Success?
    ensures Keeps(a, w, Request(env, a, w, apiUrl).value)
  {
    var out := Request(env, a, w, apiUrl).value;
    var u := UrlStep(env, a, apiUrl);
    var k := KeyStep(env, u, u.apiUrl);
    assert out.api.cacheKey == k.cacheKey && out.world.cache == w.cache;
    assert Hit(out.api, out.world) == Hit(k, w);
  }

  /** One `request` that made a call counted and collected that page. */
  lemma RequestCounts(env: ApiEnv, apiUrl: Option<string>, a: Api, w: World)
    requires a.shouldPaginate && Request(env, a, w, apiUrl).Success?
    ensures Counts(env, a, w, Request(env, a, w, apiUrl).value)
  {
    var out := Request(env, a, w, apiUrl).value;
    var u := UrlStep(env, a, apiUrl);
    var k := KeyStep(env, u, u.apiUrl);
    assert Hit(k, w) ==> out.world.fetches == w.fetches;
  }

  /** One `request` goes to its page's URI, and the page parameter it sets
      is overwritten by the next page's. */
  lemma RequestAddresses(env: ApiEnv, apiUrl: Option<string>, a: Api, w: World)
    requires a.shouldPaginate && Request(env, a, w, apiUrl).Success?
    ensures Addresses(env, apiUrl, a, w, Request(env, a, w, apiUrl).value)
  {
    var out := Request(env, a, w, apiUrl).value;
    var u := UrlStep(env, a, apiUrl);
    var k := KeyStep(env, u, u.apiUrl);
    assert Hit(k, w) ==> out.world.fetches == w.fetches;
    if apiUrl.Some? && |a.urlParams| > 0 {
      PutPut(a.urlParams, "page", Number(a.page), Number(0));
    }
  }

  /** `request` behaves as a step for every API and world. */
  lemma RequestSteps(env: ApiEnv, apiUrl: Option<string>)
    ensures Steps(env, RequestFor(env, apiUrl))
    ensures Addressed(env, apiUrl, RequestFor(env, apiUrl))
  {
    var req := RequestFor(env, apiUrl);
    forall a: Api, w: World
      ensures KeepsAt(req, a, w) && CountsAt(env, req, a, w) && AddressesAt(env, apiUrl, req, a, w)
    {
      if a.shouldPaginate && Request(env, a, w, apiUrl).Success? {
        RequestKeeps(env, apiUrl, a, w);
        RequestCounts(env, apiUrl, a, w);
        RequestAddresses(env, apiUrl, a, w);
      }
    }
  }

  /** `paginate($pages, $apiUrl)`, as a reference definition. */
  function PaginateSpec(env: ApiEnv, st: Api, w: World, pages: PageArg, apiUrl: Option<string>): (r: Result<Outcome, ApiError>)
    ensures r.Success? ==> !r.value.api.shouldPaginate
  {
    PaginateFrom(RequestFor(env, apiUrl), StartPagination(st, pages), w, 1, Limit(pages))
  }

  /** The loop of `paginate` over pages 1..limit, for any requester. */
  method PaginateWith(req: Requester, st: Api, w: World, pages: PageArg) returns (r: Result<Outcome, ApiError>)
    ensures r == PaginateFrom(req, StartPagination(st, pages), w, 1, Limit(pages))
    ensures r.Success? ==> !r.value.api.shouldPaginate
  {
    var limit := Limit(pages);
    var cur := StartPagination(st, pages);
    var world := w;
    var page := 1;
    while page <= limit
      invariant PaginateFrom(req, cur, world, page, limit) == PaginateFrom(req, StartPagination(st, pages), w, 1, limit)
      decreases Budget(page, limit)
    {
      var st1 := cur.(page := page);
      var out := req(st1, world);
      if out.Failure? {
        return Failure(out.error);
      }
      var o := out.value;
      if Hit(o.api, o.world) {
        return Success(Finish(o.api, o.world));
      }
      var w2 := Notify(o.api, o.world, page);
      if o.api.count == st1.count {
        return Success(Finish(o.api, w2));
      }
      cur, world, page := o.api, w2, page + 1;
    }
    return Success(Finish(cur, world));
  }

  /** `paginate`: the loop with `request($apiUrl)` as the requester. */
  method Paginate(env: ApiEnv, st: Api, w: World, pages: PageArg, apiUrl: Option<string>) returns (r: Result<Outcome, ApiError>)
    ensures r == PaginateSpec(env, st, w, pages, apiUrl)
    ensures r.Success? ==> !r.value.api.shouldPaginate
  {
    r := PaginateWith(RequestFor(env, apiUrl), st, w, pages);
  }

  // ---------------------------------------------------------------------
  // What a run does, page by page, for any requester that behaves as a
  // request does.

  /** The records of the given fetches, in order. */
  function RecordsOf(env: ApiEnv, fs: seq<Fetch>): seq<Value>
    decreases |fs|
  {
    if |fs| == 0 then [] else Yield(env, fs[0]).records + RecordsOf(env, fs[1..])
  }

  /** The calls of a run: appended to the log, at most one per remaining
      page, for pages `page`, `page + 1`, ... in order, with the API's
      method; the run keeps the total page count, the callback and the
      caching switch. */
  lemma {:induction false} PaginateShape(env: ApiEnv, req: Requester, st: Api, w: World, page: int, limit: int)
    requires Steps(env, req) && st.shouldPaginate
    requires PaginateFrom(req, st, w, page, limit).Success?
    ensures var r := PaginateFrom(req, st, w, page, limit).value;
            && w.fetches <= r.world.fetches
            && |r.world.fetches| - |w.fetches| <= Budget(page, limit)
            && (forall i :: |w.fetches| <= i < |r.world.fetches| ==>
                  r.world.fetches[i].page == page + (i - |w.fetches|) && r.world.fetches[i].verb == st.verb)
            && r.api.totalPages == st.totalPages && r.api.callback == st.callback && r.api.shouldCache == st.shouldCache
    decreases Budget(page, limit)
  {
    if page <= limit {
      var st1 := st.(page := page);
      assert KeepsAt(req, st1, w);
      var out := req(st1, w).value;
      if !Hit(out.api, out.world) && out.api.count != st1.count {
        PaginateShape(env, req, out.api, Notify(out.api, out.world, page), page + 1, limit);
      }
    }
  }

  /** The callback, when one is registered, is called once for every page
      that made a call, with that page's number, in order, and for no other
      page (in particular, not for a page answered from the cache). */
  lemma {:induction false} PaginateCallbacks(env: ApiEnv, req: Requester, st: Api, w: World, page: int, limit: int)
    requires Steps(env, req) && st.shouldPaginate
    requires PaginateFrom(req, st, w, page, limit).Success?
    ensures var r := PaginateFrom(req, st, w, page, limit).value;
            && w.fetches <= r.world.fetches
            && w.callbacks <= r.world.callbacks
            && (st.callback.None? ==> r.world.callbacks == w.callbacks)
            && (st.callback.Some? ==>
                  && |r.world.callbacks| - |w.callbacks| == |r.world.fetches| - |w.fetches|
                  && forall i :: |w.callbacks| <= i < |r.world.callbacks| ==>
                       r.world.callbacks[i] == CallbackCall(st.callback.value, page + (i - |w.callbacks|)))
    decreases Budget(page, limit)
  {
    if page <= limit {
      var st1 := st.(page := page);
      assert KeepsAt(req, st1, w);
      var out := req(st1, w).value;
      if !Hit(out.api, out.world) && out.api.count != st1.count {
        PaginateCallbacks(env, req, out.api, Notify(out.api, out.world, page), page + 1, limit);
      }
    }
  }

  /** When no page is answered from the cache (caching off, or every
      request misses), the run is decided by the parser's counts alone:
      every page but the last raised the count, a run with pages left made
      at least one call, and a run that stopped before the limit stopped
      at a page that did not raise the count. */
  lemma {:induction false} PaginateStops(env: ApiEnv, req: Requester, st: Api, w: World, page: int, limit: int)
    requires Steps(env, req) && st.shouldPaginate && NoHits(req, st, w, page)
    requires PaginateFrom(req, st, w, page, limit).Success?
    ensures var r := PaginateFrom(req, st, w, page, limit).value;
            var n := |r.world.fetches| - |w.fetches|;
            && w.fetches <= r.world.fetches
            && (forall i :: |w.fetches| <= i < |r.world.fetches| - 1 ==> Yield(env, r.world.fetches[i]).counted != 0)
            && (page <= limit ==> n >= 1)
            && (1 <= n < Budget(page, limit) ==> Yield(env, r.world.fetches[|r.world.fetches| - 1]).counted == 0)
    decreases Budget(page, limit)
  {
    if page <= limit {
      var st1 := st.(page := page);
      assert KeepsAt(req, st1, w) && CountsAt(env, req, st1, w);
      var out := req(st1, w).value;
      if out.api.count != st1.count {
        var w2 := Notify(out.api, out.world, page);
        if st.shouldCache {
          assert KeyKeptAt(req, out.api.(page := page + 1), w2);
        }
        PaginateStops(env, req, out.api, w2, page + 1, limit);
      }
    }
  }

  /** Without caching, the run returns, after the results it started with,
      the records of every page it fetched, in page order. */
  lemma {:induction false} PaginateCollects(env: ApiEnv, req: Requester, st: Api, w: World, page: int, limit: int)
    requires Steps(env, req) && st.shouldPaginate && !st.shouldCache
    requires PaginateFrom(req, st, w, page, limit).Success?
    ensures var r := PaginateFrom(req, st, w, page, limit).value;
            && w.fetches <= r.world.fetches
            && r.results == st.results + RecordsOf(env, r.world.fetches[|w.fetches|..])
    decreases Budget(page, limit)
  {
    var r := PaginateFrom(req, st, w, page, limit).value;
    if page > limit {
      assert r.world.fetches[|w.fetches|..] == [];
    } else {
      var st1 := st.(page := page);
      assert KeepsAt(req, st1, w) && CountsAt(env, req, st1, w);
      var out := req(st1, w).value;
      var w2 := Notify(out.api, out.world, page);
      var f := out.world.fetches[|w.fetches|];
      if out.api.count != st1.count {
        PaginateCollects(env, req, out.api, w2, page + 1, limit);
        var tail := r.world.fetches[|w.fetches|..];
        assert tail[0] == f;
        assert tail[1..] == r.world.fetches[|w2.fetches|..];
      } else {
        assert r.world.fetches[|w.fetches|..] == [f];
      }
    }
  }

  /** With caching on, the run ends by remembering its answer under the
      key; and when that key was not stored before the run, nothing was
      answered from the cache along the way, so what is stored and returned
      is the results it started with followed by the records of every page
      it fetched, in page order. */
  lemma {:induction false} PaginateStoresOnMiss(env: ApiEnv, req: Requester, st: Api, w: World, page: int, limit: int)
    requires Steps(env, req) && st.shouldPaginate && st.shouldCache
    requires PaginateFrom(req, st, w, page, limit).Success?
    ensures var r := PaginateFrom(req, st, w, page, limit).value;
            && w.fetches <= r.world.fetches
            && RememberKey(r.api) in r.world.cache && r.world.cache[RememberKey(r.api)] == r.results
            && (RememberKey(r.api) !in w.cache ==>
                  && r.results == st.results + RecordsOf(env, r.world.fetches[|w.fetches|..])
                  && r.world.cache == w.cache[RememberKey(r.api) := r.results])
    decreases Budget(page, limit)
  {
    var r := PaginateFrom(req, st, w, page, limit).value;
    if page > limit {
      FinishAnswers(st, w);
      assert r.world.fetches[|w.fetches|..] == [];
    } else {
      var st1 := st.(page := page);
      assert KeepsAt(req, st1, w) && CountsAt(env, req, st1, w);
      var out := req(st1, w).value;
      var w2 := Notify(out.api, out.world, page);
      if Hit(out.api, out.world) {
        FinishAnswers(out.api, out.world);
        assert RememberKey(r.api) in w.cache;
      } else {
        var f := out.world.fetches[|w.fetches|];
        FinishAnswers(out.api, w2);
        if out.api.count != st1.count {
          PaginateStoresOnMiss(env, req, out.api, w2, page + 1, limit);
          var tail := r.world.fetches[|w.fetches|..];
          assert tail[0] == f;
          assert tail[1..] == r.world.fetches[|w2.fetches|..];
        } else {
          assert r.world.fetches[|w.fetches|..] == [f];
        }
      }
    }
  }

  /** Every call of a run goes to the URI `UriFor` gives for its page. */
  lemma {:induction false} PaginateUris(env: ApiEnv, apiUrl: Option<string>, req: Requester, st: Api, w: World, page: int, limit: int)
    requires Steps(env, req) && Addressed(env, apiUrl, req) && st.shouldPaginate
    requires PaginateFrom(req, st, w, page, limit).Success?
    ensures var r := PaginateFrom(req, st, w, page, limit).value;
            && w.fetches <= r.world.fetches
            && forall i :: |w.fetches| <= i < |r.world.fetches| ==>
                 Some(r.world.fetches[i].uri) == UriFor(env, apiUrl, st.urlParams, st.apiUrl, page + (i - |w.fetches|))
    decreases Budget(page, limit)
  {
    if page <= limit {
      var st1 := st.(page := page);
      assert KeepsAt(req, st1, w) && AddressesAt(env, apiUrl, req, st1, w);
      var out := req(st1, w).value;
      if !Hit(out.api, out.world) && out.api.count != st1.count {
        var w1 := Notify(out.api, out.world, page);
        PaginateUris(env, apiUrl, req, out.api, w1, page + 1, limit);
        var r := PaginateFrom(req, st, w, page, limit).value;
        forall i | |w1.fetches| <= i < |r.world.fetches|
          ensures Some(r.world.fetches[i].uri) == UriFor(env, apiUrl, st.urlParams, st.apiUrl, page + (i - |w.fetches|))
        {
          SameUrisAt(env, apiUrl, out.api, st1, page + 1 + (i - |w1.fetches|));
        }
      }
    }
  }

  // ---------------------------------------------------------------------
  // The behaviour of whole runs of `paginate`.

  /** A run requests pages 1, 2, ... in order, at most `limit` of them,
      with the API's method, and leaves pagination off with the raw page
      argument kept. */
  lemma RunPages(env: ApiEnv, st: Api, w: World, pages: PageArg, apiUrl: Option<string>)
    ensures PaginateSpec(env, st, w, pages, apiUrl).Success? ==>
            var r := PaginateSpec(env, st, w, pages, apiUrl).value;
            && w.fetches <= r.world.fetches
            && |r.world.fetches| - |w.fetches| <= Budget(1, Limit(pages))
            && !r.api.shouldPaginate && r.api.totalPages == Some(pages)
            && forall i :: |w.fetches| <= i < |r.world.fetches| ==>
                 r.world.fetches[i].page == 1 + (i - |w.fetches|) && r.world.fetches[i].verb == st.verb
  {
    if PaginateSpec(env, st, w, pages, apiUrl).Success? {
      RequestSteps(env, apiUrl);
      PaginateShape(env, RequestFor(env, apiUrl), StartPagination(st, pages), w, 1, Limit(pages));
    }
  }

  /** From page 1, for any requester that behaves as `request($apiUrl)`
      does (as `RequestSteps` shows `request` itself does), each call goes
      to the URI for its page: the URL argument with the parameters and
      that page number attached, the bare URL argument for every page when
      there are no parameters, and the stored URL for every page when
      there is no URL argument. */
  lemma RunUris(env: ApiEnv, req: Requester, st: Api, w: World, pages: PageArg, apiUrl: Option<string>)
    requires Steps(env, req) && Addressed(env, apiUrl, req)
    requires PaginateFrom(req, StartPagination(st, pages), w, 1, Limit(pages)).Success?
    ensures var r := PaginateFrom(req, StartPagination(st, pages), w, 1, Limit(pages)).value;
            && w.fetches <= r.world.fetches
            && forall i :: |w.fetches| <= i < |r.world.fetches| ==>
                 Some(r.world.fetches[i].uri) ==
                   (if apiUrl.None? then st.apiUrl
                    else if |st.urlParams| == 0 then apiUrl
                    else Some(apiUrl.value + "?" + env.buildQuery(Put(st.urlParams, "page", Number(1 + (i - |w.fetches|))))))
  {
    RunUrisFor(env, req, st, w, pages, apiUrl);
    UrisOfPages(env, apiUrl, st, w, PaginateFrom(req, StartPagination(st, pages), w, 1, Limit(pages)).value);
  }

  /** `RunUris` with each page's URI given by `UriFor`. */
  lemma RunUrisFor(env: ApiEnv, req: Requester, st: Api, w: World, pages: PageArg, apiUrl: Option<string>)
    requires Steps(env, req) && Addressed(env, apiUrl, req)
    requires PaginateFrom(req, StartPagination(st, pages), w, 1, Limit(pages)).Success?
    ensures var r := PaginateFrom(req, StartPagination(st, pages), w, 1, Limit(pages)).value;
            && w.fetches <= r.world.fetches
            && forall i :: |w.fetches| <= i < |r.world.fetches| ==>
                 Some(r.world.fetches[i].uri) == UriFor(env, apiUrl, st.urlParams, st.apiUrl, 1 + (i - |w.fetches|))
  {
    PaginateUris(env, apiUrl, req, StartPagination(st, pages), w, 1, Limit(pages));
  }

  /** Spelling `UriFor` out for each page of an outcome. */
  lemma UrisOfPages(env: ApiEnv, apiUrl: Option<string>, st: Api, w: World, r: Outcome)
    requires forall i :: |w.fetches| <= i < |r.world.fetches| ==>
               Some(r.world.fetches[i].uri) == UriFor(env, apiUrl, st.urlParams, st.apiUrl, 1 + (i - |w.fetches|))
    ensures forall i :: |w.fetches| <= i < |r.world.fetches| ==>
              Some(r.world.fetches[i].uri) ==
                (if apiUrl.None? then st.apiUrl
                 else if |st.urlParams| == 0 then apiUrl
                 else Some(apiUrl.value + "?" + env.buildQuery(Put(st.urlParams, "page", Number(1 + (i - |w.fetches|))))))
  {
  }

  /** From page 1, with a producer whose pages 1..n each raise the count
      and whose page n + 1 does not, and with no page answered from the
      cache: a run with n + 1 within the limit makes exactly n + 1 calls. */
  lemma ExactlyOneEmptyPageFrom(env: ApiEnv, req: Requester, st: Api, w: World, limit: int, n: nat)
    requires Steps(env, req) && st.shouldPaginate && NoHits(req, st, w, 1)
    requires n + 1 <= limit
    requires forall body, p :: 1 <= p <= n + 1 ==> (env.parse(body, p).counted == 0 <==> p == n + 1)
    requires PaginateFrom(req, st, w, 1, limit).Success?
    ensures |PaginateFrom(req, st, w, 1, limit).value.world.fetches| == |w.fetches| + n + 1
  {
    PaginateShape(env, req, st, w, 1, limit);
    PaginateStops(env, req, st, w, 1, limit);
    var fs := PaginateFrom(req, st, w, 1, limit).value.world.fetches;
    // The last call, and the call for page n + 1 when there are more calls
    // than that (the first call otherwise).
    var last, probed := fs[|fs| - 1], fs[|w.fetches| + if |fs| > |w.fetches| + n + 1 then n else 0];
  }

  /** From page 1, with a producer whose every page raises the count and
      no page answered from the cache: a run makes exactly as many calls
      as the limit allows. */
  lemma ExactlyLimitPagesFrom(env: ApiEnv, req: Requester, st: Api, w: World, limit: int)
    requires Steps(env, req) && st.shouldPaginate && NoHits(req, st, w, 1)
    requires forall body, p :: env.parse(body, p).counted != 0
    requires PaginateFrom(req, st, w, 1, limit).Success?
    ensures |PaginateFrom(req, st, w, 1, limit).value.world.fetches| == |w.fetches| + Budget(1, limit)
  {
    PaginateShape(env, req, st, w, 1, limit);
    PaginateStops(env, req, st, w, 1, limit);
  }

  /** `paginate` over a producer whose pages 1..n each raise the count and
      whose page n + 1 does not, with n + 1 within the limit and the first
      page not answered from the cache (caching off, or its key not
      stored), makes exactly n + 1 calls. */
  lemma ExactlyOneEmptyPage(env: ApiEnv, st: Api, w: World, pages: PageArg, apiUrl: Option<string>, n: nat)
    requires !st.shouldCache || !Hit(FirstPageApi(env, st, pages, apiUrl), w)
    requires n + 1 <= Limit(pages)
    requires forall body, p :: 1 <= p <= n + 1 ==> (env.parse(body, p).counted == 0 <==> p == n + 1)
    ensures PaginateSpec(env, st, w, pages, apiUrl).Success? ==>
            |PaginateSpec(env, st, w, pages, apiUrl).value.world.fetches| == |w.fetches| + n + 1
  {
    if PaginateSpec(env, st, w, pages, apiUrl).Success? {
      RequestSteps(env, apiUrl);
      FirstPageMisses(env, st, w, pages, apiUrl);
      ExactlyOneEmptyPageFrom(env, RequestFor(env, apiUrl), StartPagination(st, pages), w, Limit(pages), n);
    }
  }

  /** `paginate` over a producer whose every page raises the count, with
      the first page not answered from the cache (caching off, or its key
      not stored), makes exactly as many calls as the limit allows:
      `pages` of them, or 9999 for 'all'. */
  lemma ExactlyLimitPages(env: ApiEnv, st: Api, w: World, pages: PageArg, apiUrl: Option<string>)
    requires !st.shouldCache || !Hit(FirstPageApi(env, st, pages, apiUrl), w)
    requires forall body, p :: env.parse(body, p).counted != 0
    ensures PaginateSpec(env, st, w, pages, apiUrl).Success? ==>
            |PaginateSpec(env, st, w, pages, apiUrl).value.world.fetches| == |w.fetches| + Budget(1, Limit(pages))
  {
    if PaginateSpec(env, st, w, pages, apiUrl).Success? {
      RequestSteps(env, apiUrl);
      FirstPageMisses(env, st, w, pages, apiUrl);
      ExactlyLimitPagesFrom(env, RequestFor(env, apiUrl), StartPagination(st, pages), w, Limit(pages));
    }
  }

  /** `request` never replaces a key once it is set. */
  lemma RequestKeepsKeys(env: ApiEnv, apiUrl: Option<string>)
    ensures KeepsKeys(RequestFor(env, apiUrl))
  {
    forall a: Api, w: World ensures KeyKeptAt(RequestFor(env, apiUrl), a, w) {
      if a.shouldPaginate && a.shouldCache && TruthyOpt(a.cacheKey) && Request(env, a, w, apiUrl).Success? {
        var u := UrlStep(env, a, apiUrl);
        assert KeyStep(env, u, u.apiUrl) == u;
      }
    }
  }

  /** When caching is off, or the first page's key is not stored, no page
      of `paginate` is answered from the cache. */
  lemma FirstPageMisses(env: ApiEnv, st: Api, w: World, pages: PageArg, apiUrl: Option<string>)
    requires !st.shouldCache || !Hit(FirstPageApi(env, st, pages, apiUrl), w)
    ensures NoHits(RequestFor(env, apiUrl), StartPagination(st, pages), w, 1)
  {
    RequestKeepsKeys(env, apiUrl);
  }

  /** The API as the first page's request sees it once the key is set. */
  function FirstPageApi(env: ApiEnv, st: Api, pages: PageArg, apiUrl: Option<string>): Api {
    var u := UrlStep(env, StartPagination(st, pages).(page := 1), apiUrl);
    KeyStep(env, u, u.apiUrl)
  }

  /** When caching is on and the first page's key is already stored, the
      run makes no call, calls no callback, and returns the stored list. */
  lemma CacheHitShortCircuits(env: ApiEnv, st: Api, w: World, pages: PageArg, apiUrl: Option<string>)
    requires st.shouldCache && 1 <= Limit(pages)
    requires Hit(FirstPageApi(env, st, pages, apiUrl), w)
    ensures PaginateSpec(env, st, w, pages, apiUrl).Success?
    ensures var r := PaginateSpec(env, st, w, pages, apiUrl).value;
            && r.world.fetches == w.fetches
            && r.world.callbacks == w.callbacks
            && r.results == w.cache[FirstPageApi(env, st, pages, apiUrl).cacheKey.value]
  {
    var k := FirstPageApi(env, st, pages, apiUrl);
    var out := Request(env, StartPagination(st, pages).(page := 1), w, apiUrl).value;
    assert out.api.cacheKey == k.cacheKey;
    assert Hit(out.api, out.world);
  }

  /** With caching on, a run always leaves its answer stored under the key;
      when the key was not stored beforehand (no page was answered from the
      cache), it stores and returns the records of the pages it fetched, in
      order: the counterpart of `CacheHitShortCircuits`. */
  lemma CacheMissStores(env: ApiEnv, st: Api, w: World, pages: PageArg, apiUrl: Option<string>)
    requires st.shouldCache
    ensures PaginateSpec(env, st, w, pages, apiUrl).Success? ==>
            var r := PaginateSpec(env, st, w, pages, apiUrl).value;
            && w.fetches <= r.world.fetches
            && RememberKey(r.api) in r.world.cache && r.world.cache[RememberKey(r.api)] == r.results
            && (RememberKey(r.api) !in w.cache ==>
                  && r.results == st.results + RecordsOf(env, r.world.fetches[|w.fetches|..])
                  && r.world.cache == w.cache[RememberKey(r.api) := r.results])
  {
    if PaginateSpec(env, st, w, pages, apiUrl).Success? {
      RequestSteps(env, apiUrl);
      PaginateStoresOnMiss(env, RequestFor(env, apiUrl), StartPagination(st, pages), w, 1, Limit(pages));
    }
  }

  /** Without caching, a run returns the records of the pages it fetched,
      in order, and the callback, if any, saw each of those pages once, in
      order. */
  lemma RunSummary(env: ApiEnv, st: Api, w: World, pages: PageArg, apiUrl: Option<string>)
    requires !st.shouldCache
    ensures PaginateSpec(env, st, w, pages, apiUrl).Success? ==>
            var r := PaginateSpec(env, st, w, pages, apiUrl).value;
            && w.fetches <= r.world.fetches
            && r.results == st.results + RecordsOf(env, r.world.fetches[|w.fetches|..])
            && w.callbacks <= r.world.callbacks
            && (st.callback.None? ==> r.world.callbacks == w.callbacks)
            && (st.callback.Some? ==>
                  && |r.world.callbacks| - |w.callbacks| == |r.world.fetches| - |w.fetches|
                  && forall i :: |w.callbacks| <= i < |r.world.callbacks| ==>
                       r.world.callbacks[i] == CallbackCall(st.callback.value, 1 + (i - |w.callbacks|)))
  {
    if PaginateSpec(env, st, w, pages, apiUrl).Success? {
      RequestSteps(env, apiUrl);
      PaginateCollects(env, RequestFor(env, apiUrl), StartPagination(st, pages), w, 1, Limit(pages));
      PaginateCallbacks(env, RequestFor(env, apiUrl), StartPagination(st, pages), w, 1, Limit(pages));
    }
  }
}
