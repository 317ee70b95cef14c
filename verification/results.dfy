/** The `HandlesResults` trait: the accumulated results and their count,
    the cache gate in front of the network call, and `request`, which
    fetches, parses and accumulates one page. */
module Results {
  import opened Base
  import opened Strings
  import opened Arrays
  import opened ApiTypes
  import opened ScraperApi
  import opened Caching

  /** `incCount($n)`. */
  function IncCount(st: Api, n: int): (r: Api)
    ensures r.count == st.count + n
    ensures r.(count := st.count) == st
  {
    st.(count := st.count + n)
  }

  /** `setResults($results)`: the new results after the existing ones; the
      count is not touched. */
  function SetResults(st: Api, rs: seq<Value>): (r: Api)
    ensures |r.results| == |st.results| + |rs|
    ensures r.results[..|st.results|] == st.results && r.results[|st.results|..] == rs
    ensures r.(results := st.results) == st
  {
    st.(results := st.results + rs)
  }

  /** The cache gate: caching on, a truthy key, and that key stored. */
  predicate Hit(st: Api, w: World) {
    st.shouldCache && TruthyOpt(st.cacheKey) && st.cacheKey.value in w.cache
  }

  /** The key `getResults` remembers under (a null key as ""). */
  function RememberKey(st: Api): string {
    OrEmpty(st.cacheKey)
  }

  /** `getResults`: through compute-if-absent when caching and not
      paginating (the stored list if there is one, else the accumulated
      results, which are then stored); the accumulated results otherwise. */
  function GetResults(st: Api, w: World): (r: (seq<Value>, World))
    ensures r.1.fetches == w.fetches && r.1.callbacks == w.callbacks
    ensures !(st.shouldCache && !st.shouldPaginate) ==> r == (st.results, w)
    ensures st.shouldCache && !st.shouldPaginate ==>
              && RememberKey(st) in r.1.cache && r.1.cache[RememberKey(st)] == r.0
              && (RememberKey(st) in w.cache ==> r.1 == w)
              && (RememberKey(st) !in w.cache ==> r.0 == st.results && r.1.cache == w.cache[RememberKey(st) := st.results])
  {
    if st.shouldCache && !st.shouldPaginate then
      var key := RememberKey(st);
      if key in w.cache then (w.cache[key], w)
      else (st.results, w.(cache := w.cache[key := st.results]))
    else (st.results, w)
  }

  /** Asking again gives the same answer and changes nothing further. */
  lemma GetResultsStable(st: Api, w: World)
    ensures GetResults(st, GetResults(st, w).1) == GetResults(st, w)
  {
  }

  /** The state after `makeApiRequest`, and the body it fetched (none on a
      cache hit, where it returns early). */
  datatype Made = Made(api: Api, world: World, body: Option<string>)

  /** The API after the key step: caching computes the key only when none
      is set yet. */
  function KeyStep(env: ApiEnv, st: Api, uri: Option<string>): (r: Api)
    ensures st.shouldCache && !TruthyOpt(st.cacheKey) ==> r == SetCacheKey(env, st, uri)
    ensures !(st.shouldCache && !TruthyOpt(st.cacheKey)) ==> r == st
    ensures st.shouldCache ==> TruthyOpt(r.cacheKey)
    ensures r == st.(cacheKey := r.cacheKey)
    ensures r.count == st.count && r.results == st.results && r.page == st.page && r.verb == st.verb && r.apiUrl == st.apiUrl
  {
    if st.shouldCache && !TruthyOpt(st.cacheKey) then SetCacheKey(env, st, uri) else st
  }

  /** `makeApiRequest`: on a cache hit the stored results are appended and
      no call is made; otherwise the URI is fetched (a null URI is an
      error). */
  function MakeApiRequest(env: ApiEnv, st: Api, w: World, verb: string, uri: Option<string>): (r: Result<Made, ApiError>)
    ensures Hit(KeyStep(env, st, uri), w) ==>
              r == Success(Made(SetResults(KeyStep(env, st, uri), w.cache[KeyStep(env, st, uri).cacheKey.value]), w, None))
    ensures !Hit(KeyStep(env, st, uri), w) ==> (r.Failure? <==> uri.None?)
    ensures r.Failure? ==> r.error == MissingApiUrl
    ensures r.Success? ==> (Hit(r.value.api, r.value.world) <==> Hit(KeyStep(env, st, uri), w))
    ensures r.Success? ==> (r.value.body.Some? <==> !Hit(KeyStep(env, st, uri), w))
    ensures !Hit(KeyStep(env, st, uri), w) && r.Success? ==>
              && r.value.api == KeyStep(env, st, uri)
              && r.value.body == Some(env.fetch(verb, uri.value))
              && r.value.world == w.(fetches := w.fetches + [Fetch(verb, uri.value, st.page)])
  {
    var st1 := KeyStep(env, st, uri);
    if Hit(st1, w) then Success(Made(SetResults(st1, w.cache[st1.cacheKey.value]), w, None))
    else if uri.None? then Failure(MissingApiUrl)
    else Success(Made(st1, w.(fetches := w.fetches + [Fetch(verb, uri.value, st.page)]), Some(env.fetch(verb, uri.value))))
  }

  /** The result of `request`: the API, the world and the returned list. */
  datatype Outcome = Outcome(api: Api, world: World, results: seq<Value>)

  /** The rest of `request` once the call is made: unless the cache
      answered, parse the body (which adds to the count) and append what
      it yields; the answer comes from `getResults`. */
  function Conclude(env: ApiEnv, made: Made): (o: Outcome)
    requires !Hit(made.api, made.world) ==> made.body.Some?
    ensures o.world.fetches == made.world.fetches && o.world.callbacks == made.world.callbacks
    ensures Hit(made.api, made.world) ==> o.api == made.api
    ensures !Hit(made.api, made.world) ==>
              var parsed := env.parse(made.body.value, made.api.page);
              o.api == made.api.(count := made.api.count + parsed.counted, results := made.api.results + parsed.records)
    ensures made.api.shouldPaginate ==> o.world.cache == made.world.cache && o.results == o.api.results
    ensures made.api.shouldCache && !made.api.shouldPaginate ==>
              RememberKey(o.api) in o.world.cache && o.world.cache[RememberKey(o.api)] == o.results
  {
    if Hit(made.api, made.world) then
      var (results, w') := GetResults(made.api, made.world);
      Outcome(made.api, w', results)
    else
      var parsed := env.parse(made.body.value, made.api.page);
      var st2 := SetResults(IncCount(made.api, parsed.counted), parsed.records);
      var (results, w') := GetResults(st2, made.world);
      Outcome(st2, w', results)
  }

  /** The API as `request` first leaves it: the URL set when one is given. */
  function UrlStep(env: ApiEnv, st: Api, apiUrl: Option<string>): (r: Api)
    ensures r == st.(apiUrl := r.apiUrl, urlParams := r.urlParams)
    ensures r.count == st.count && r.results == st.results && r.page == st.page && r.verb == st.verb
    ensures apiUrl.None? ==> r == st
    ensures apiUrl.Some? ==> r.apiUrl.Some?
  {
    if apiUrl.Some? then SetApiUrl(env, st, apiUrl.value) else st
  }

  /** `request`: optionally set the URL, make the request, and, unless the
      cache answered, parse the body (which adds to the count) and append
      what it yields; the answer comes from `getResults`. */
  function Request(env: ApiEnv, st: Api, w: World, apiUrl: Option<string>): (r: Result<Outcome, ApiError>)
    ensures var u := UrlStep(env, st, apiUrl);
            var k := KeyStep(env, u, u.apiUrl);
            && (r.Failure? <==> !Hit(k, w) && u.apiUrl.None?)
            && (r.Success? ==>
                  && r.value.api == k.(results := r.value.api.results, count := r.value.api.count)
                  && r.value.world.callbacks == w.callbacks
                  && (Hit(k, w) ==>
                        && r.value.world.fetches == w.fetches
                        && r.value.api.count == st.count
                        && r.value.api.results == st.results + w.cache[k.cacheKey.value])
                  && (!Hit(k, w) ==>
                        var parsed := env.parse(env.fetch(st.verb, u.apiUrl.value), st.page);
                        && r.value.world.fetches == w.fetches + [Fetch(st.verb, u.apiUrl.value, st.page)]
                        && r.value.api.count == st.count + parsed.counted
                        && r.value.api.results == st.results + parsed.records))
    ensures r.Success? && st.shouldPaginate ==>
              && r.value.world.cache == w.cache
              && r.value.results == r.value.api.results
              && (Hit(r.value.api, r.value.world) <==> r.value.world.fetches == w.fetches)
    ensures r.Success? && st.shouldCache && !st.shouldPaginate ==>
              && TruthyOpt(r.value.api.cacheKey)
              && r.value.api.cacheKey.value in r.value.world.cache
              && r.value.world.cache[r.value.api.cacheKey.value] == r.value.results
  {
    var st1 := UrlStep(env, st, apiUrl);
    var made :- MakeApiRequest(env, st1, w, st1.verb, st1.apiUrl);
    Success(Conclude(env, made))
  }

  /** A request that went through while caching (and not paginating) is
      answered from the cache the next time: no call, the same results,
      the world unchanged, whatever URL the second request names. */
  lemma RepeatIsServedFromCache(env: ApiEnv, st: Api, w: World, apiUrl: Option<string>, again: Option<string>)
    requires st.shouldCache && !st.shouldPaginate
    requires Request(env, st, w, apiUrl).Success?
    ensures var first := Request(env, st, w, apiUrl).value;
            && Request(env, first.api, first.world, again).Success?
            && Request(env, first.api, first.world, again).value.world == first.world
            && Request(env, first.api, first.world, again).value.results == first.results
  {
    var first := Request(env, st, w, apiUrl).value;
    var u := UrlStep(env, first.api, again);
    assert u.cacheKey == first.api.cacheKey;
    assert KeyStep(env, u, u.apiUrl) == u;
    assert Hit(u, first.world);
  }
}
