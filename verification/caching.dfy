/** The `CachesResults` trait: switching caching on, and the cache key,
    built from fixed pieces in a fixed order and separated by dots. */
module Caching {
  import opened Base
  import opened Strings
  import opened Arrays
  import opened ApiTypes

  /** `cache($minutes)`: caching on, with the given lifetime. */
  function Cache(st: Api, minutes: int): (r: Api)
    ensures r.shouldCache && r.cacheMinutes == minutes
    ensures r.(shouldCache := st.shouldCache, cacheMinutes := st.cacheMinutes) == st
  {
    st.(shouldCache := true, cacheMinutes := minutes)
  }

  /** Calling `cache` again only changes the lifetime. */
  lemma CacheTwice(st: Api, m1: int, m2: int)
    ensures Cache(Cache(st, m1), m2) == Cache(st, m2)
    ensures Cache(Cache(st, m1), m2).shouldCache == Cache(st, m1).shouldCache
  {
  }

  /** `'' . $this->totalPages`: the raw `paginate` argument as text. */
  function PagesText(p: Option<PageArg>): (t: string)
    ensures '.' !in t
    ensures p == Some(AllPages) ==> t == "all"
  {
    match p
    case None => ""
    case Some(AllPages) => "all"
    case Some(PageCount(n)) => IntToString(n)
  }

  const KeyPrefix: string := "ScraperAPI"

  /** The hash of the URL: of the URI passed in when it is truthy, else of
      the stored API URL (null hashing as ""). */
  function UrlHash(env: ApiEnv, st: Api, uri: Option<string>): string {
    if TruthyOpt(uri) then env.md5(uri.value) else env.md5(OrEmpty(st.apiUrl))
  }

  /** The key `setCacheKey` builds: prefix, API name and URL hash; then
      the hash of the query string when there are parameters (in their
      insertion order); then the raw page argument when paginating. */
  function KeyFor(env: ApiEnv, st: Api, uri: Option<string>): (k: string)
    ensures |k| > |KeyPrefix|
    ensures k[..|KeyPrefix|] == KeyPrefix
  {
    var base := KeyPrefix + "." + OrEmpty(st.apiName) + "." + UrlHash(env, st, uri);
    var withParams := if |st.urlParams| > 0 then base + "." + env.md5(env.buildQuery(st.urlParams)) else base;
    if st.shouldPaginate then withParams + "." + PagesText(st.totalPages) else withParams
  }

  /** Reference definition: the pieces of the key, in order. */
  function KeySegments(env: ApiEnv, st: Api, uri: Option<string>): seq<string> {
    [KeyPrefix, OrEmpty(st.apiName), UrlHash(env, st, uri)]
      + (if |st.urlParams| > 0 then [env.md5(env.buildQuery(st.urlParams))] else [])
      + (if st.shouldPaginate then [PagesText(st.totalPages)] else [])
  }

  /** `setCacheKey`: the key is replaced, never extended. */
  function SetCacheKey(env: ApiEnv, st: Api, uri: Option<string>): (r: Api)
    ensures r.(cacheKey := st.cacheKey) == st
    ensures r.cacheKey == Some(KeyFor(env, st.(cacheKey := None), uri))
    ensures TruthyOpt(r.cacheKey)
  {
    st.(cacheKey := Some(KeyFor(env, st, uri)))
  }

  /** Setting the key twice leaves only the second. */
  lemma SetCacheKeyTwice(env: ApiEnv, st: Api, u1: Option<string>, u2: Option<string>)
    ensures SetCacheKey(env, SetCacheKey(env, st, u1), u2) == SetCacheKey(env, st, u2)
  {
  }

  /** `md5` yields hex digests, which never contain a dot. */
  ghost predicate HexDigests(env: ApiEnv) {
    forall s :: '.' !in env.md5(s)
  }

  /** The key is its pieces joined by dots. */
  lemma KeyIsJoin(env: ApiEnv, st: Api, uri: Option<string>)
    ensures KeyFor(env, st, uri) == Implode('.', KeySegments(env, st, uri))
  {
    var name := OrEmpty(st.apiName);
    var hash := UrlHash(env, st, uri);
    ImplodeSnoc('.', [KeyPrefix], name);
    assert [KeyPrefix] + [name] == [KeyPrefix, name];
    ImplodeSnoc('.', [KeyPrefix, name], hash);
    assert [KeyPrefix, name] + [hash] == [KeyPrefix, name, hash];
    var first := [KeyPrefix, name, hash];
    var withParams := first + (if |st.urlParams| > 0 then [env.md5(env.buildQuery(st.urlParams))] else []);
    if |st.urlParams| > 0 {
      ImplodeSnoc('.', first, env.md5(env.buildQuery(st.urlParams)));
    } else {
      assert withParams == first;
    }
    if st.shouldPaginate {
      ImplodeSnoc('.', withParams, PagesText(st.totalPages));
    } else {
      assert KeySegments(env, st, uri) == withParams;
    }
  }

  /** With a dot-free API name and hex digests, splitting the key at its
      dots gives back exactly its pieces. */
  lemma KeyDecodes(env: ApiEnv, st: Api, uri: Option<string>)
    requires HexDigests(env)
    requires '.' !in OrEmpty(st.apiName)
    ensures Explode('.', KeyFor(env, st, uri)) == KeySegments(env, st, uri)
  {
    KeyIsJoin(env, st, uri);
    var segs := KeySegments(env, st, uri);
    forall i | 0 <= i < |segs|
      ensures '.' !in segs[i]
    {
      assert '.' !in env.md5(env.buildQuery(st.urlParams));
      assert '.' !in UrlHash(env, st, uri);
      assert '.' !in PagesText(st.totalPages);
    }
    ExplodeImplode('.', segs);
  }

  /** Equal keys (under the same conditions) come from the same API name
      and the same URL hash, and, when both or neither carry a query hash,
      from the same query hash and the same pagination state. */
  lemma KeyDetermines(env: ApiEnv, st1: Api, uri1: Option<string>, st2: Api, uri2: Option<string>)
    requires HexDigests(env)
    requires '.' !in OrEmpty(st1.apiName) && '.' !in OrEmpty(st2.apiName)
    requires KeyFor(env, st1, uri1) == KeyFor(env, st2, uri2)
    ensures OrEmpty(st1.apiName) == OrEmpty(st2.apiName)
    ensures UrlHash(env, st1, uri1) == UrlHash(env, st2, uri2)
    ensures (|st1.urlParams| > 0) == (|st2.urlParams| > 0) ==>
              && st1.shouldPaginate == st2.shouldPaginate
              && (|st1.urlParams| > 0 ==> env.md5(env.buildQuery(st1.urlParams)) == env.md5(env.buildQuery(st2.urlParams)))
              && (st1.shouldPaginate ==> PagesText(st1.totalPages) == PagesText(st2.totalPages))
  {
    KeyDecodes(env, st1, uri1);
    KeyDecodes(env, st2, uri2);
    var s1 := KeySegments(env, st1, uri1);
    var s2 := KeySegments(env, st2, uri2);
    assert s1 == s2;
    assert s1[1] == OrEmpty(st1.apiName) && s2[1] == OrEmpty(st2.apiName);
    assert s1[2] == UrlHash(env, st1, uri1) && s2[2] == UrlHash(env, st2, uri2);
    if (|st1.urlParams| > 0) == (|st2.urlParams| > 0) {
      if |st1.urlParams| > 0 {
        assert s1[3] == env.md5(env.buildQuery(st1.urlParams));
        assert s2[3] == env.md5(env.buildQuery(st2.urlParams));
      }
      if st1.shouldPaginate {
        assert s1[|s1| - 1] == PagesText(st1.totalPages);
      }
      if st2.shouldPaginate {
        assert s2[|s2| - 1] == PagesText(st2.totalPages);
      }
    }
  }

  /** A paginated run and a single request on the same state never share a
      key: the paginated key has one more piece. */
  lemma PaginationChangesKey(env: ApiEnv, st: Api, uri: Option<string>)
    requires HexDigests(env)
    requires '.' !in OrEmpty(st.apiName)
    ensures KeyFor(env, st.(shouldPaginate := true), uri) != KeyFor(env, st.(shouldPaginate := false), uri)
  {
    KeyDecodes(env, st.(shouldPaginate := true), uri);
    KeyDecodes(env, st.(shouldPaginate := false), uri);
  }
}
