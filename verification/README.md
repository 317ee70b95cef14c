# web-scraper, modelled in Dafny

This project models the orchestration logic of the PHP package `web-scraper`.
The package is a thin layer over an HTTP client, a DOM parser, an encrypter and a cache store.
What it owns, and what is modelled here, is:

- **pagination**: `PaginatesResults::paginate`, a bounded loop over pages 1..limit. It stops at a cache hit, or after the first page that does not raise the running count, and it calls a per-page callback.
- **cache key and cache gate**: `CachesResults` and the cache branches of `HandlesResults`. The key is composed from a fixed prefix, the API name, URL and parameter hashes, and the page argument. A stored key answers without a network call.
- **result accumulation**: `setResults` appends records, `incCount` raises the separate count, and `getResults` goes through a compute-if-absent cache step.
- **URL parameters**: `ScraperAPI::params`, `attachUrlParams` and `setApiUrl`, including the `page` parameter set while paginating.
- **the session**: `Scraper`. This covers:
  - how the CSRF token filter is merged;
  - what a token lookup returns;
  - the injection of the token into form data, with the field name taken from the `[name="..."]` capture of the selector;
  - `checkIfLoggedIn` and `login`.
- **cookie files**: `CookieHandler`. This covers the file name template (`{domain}`, `{username}`, the `unauthenticated` fallback, `basename`) and the write/read round trip.
- **the API registry**: `Dispatcher`, a name-to-instance map.
- **the facade**: `WebScraper`, with its shallow option merge and the Laravel CSRF preset.

State is immutable. Each PHP object is a datatype, each mutating method is a pure function from the old state to the new one, and `paginate` is also a `while` loop proved equal to its reference definition (`PaginateFrom`).

Foreign calls are function-valued fields of environment records (`CookieEnv`, `SessionEnv`, `ApiEnv`). Calls made on the outside world are appended to a log, so that properties can count them and inspect them. The foreign calls are:

- `parse_url`'s host;
- `serialize` and `unserialize`;
- `Crypt::encrypt` and `Crypt::decrypt`;
- the Guzzle transport;
- the DomCrawler lookup;
- the `preg_match` of the login test;
- `md5` and `http_build_query`;
- the API's network call;
- the subclass's `parse()`.

The filesystem is a map from path to contents, and the cache store is a map from key to result list.

PHP conventions are written out:

- null is `None`;
- falsiness of strings (`""` and `"0"`) is `Truthy`;
- string-keyed arrays with `array_merge` are association lists (`Arrays.Put`, `Arrays.Merge`);
- a thrown exception is a `Failure`.

Modules follow the source. The model files map to the source as follows:

| model file | source |
|---|---|
| `cookies.dfy` | `CookieHandler` |
| `csrf.dfy` and `scraping.dfy` | `Scraper` |
| `apitypes.dfy` and `scraper_api.dfy` | `ScraperAPI` |
| `caching.dfy` | `CachesResults` |
| `results.dfy` | `HandlesResults` |
| `pagination.dfy` | `PaginatesResults` |
| `dispatch.dfy` | `Dispatcher` |
| `facade.dfy` | `WebScraper` |

`base.dfy`, `strings.dfy` and `arrays.dfy` hold `Option`/`Result` and the PHP built-ins used.

Two points about the code:

- The cache key hashes the URL parameters in insertion order, as `http_build_query` sees them. They are not sorted.
- The key is computed only while none is set, and is never cleared. It is therefore reused by every later request of the same instance, not just within one pagination run.

## Model

| member | source | states |
|---|---|---|
| Pagination.Limit | src/API/PaginatesResults.php:31-32 | The last page requested is 9999 for 'all' and the given count otherwise. |
| Pagination.StartPagination | src/API/PaginatesResults.php:28-31 | Entering the loop turns pagination on and keeps the raw page argument as the total page count; nothing else changes. |
| Pagination.SetCallbackTwice | src/API/PaginatesResults.php:72-76 | Registering a second callback replaces the first. |
| Pagination.SetCallback | src/API/PaginatesResults.php:72-76 | `paginateCallback` makes the given closure the callback, and nothing else changes. |
| Pagination.Notify | src/API/PaginatesResults.php:46-50 | The callback, when registered, is called once with the page number; without one nothing happens; no call or cache write is made. |
| Pagination.Finish | src/API/PaginatesResults.php:58-60 | Every exit of the loop turns pagination off and makes no network call and no callback. |
| Pagination.FinishAnswers | src/API/HandlesResults.php:126-135 | Leaving the loop without caching returns the accumulated results and leaves the world untouched. With caching, the list under the key is returned. If the key was absent, that list is the accumulated results, stored now; if it was present, the stored list comes back and the world is untouched. |
| Pagination.PaginateFrom | src/API/PaginatesResults.php:34-60 | A loop that goes through always leaves pagination off. |
| Pagination.PaginateWith | src/API/PaginatesResults.php:26-61 | The loop, for any requester, computes exactly the reference run from page 1 with pagination started (the state it keeps is, at every step, the rest of that run), and leaves pagination off on success. |
| Pagination.Paginate | src/API/PaginatesResults.php:26-61 | `paginate` with `request($apiUrl)` as the requester equals the reference run `PaginateSpec` and leaves pagination off. |
| Pagination.RequestKeeps | src/API/HandlesResults.php:34-49 | One request while paginating keeps the pagination state, the callback and the caching switch, writes nothing to the cache, and either is a cache hit with no call (only with caching on) or makes exactly one call for the current page, with the API's method. |
| Pagination.RequestCounts | src/API/HandlesResults.php:40-48 | A request that makes a call adds that page's parsed records and count to the running totals. |
| Pagination.RequestAddresses | src/API/ScraperAPI.php:119-130 | The call a request makes goes to the URI for its page: the URL argument with `?` and the query of the parameters with `page` set, the bare URL without parameters, the stored URL without a URL argument. The parameters it leaves behind differ at most in `page`, so every page's URI is unchanged. |
| Pagination.RequestSteps | src/API/HandlesResults.php:34-49 | `request($apiUrl)` keeps, counts and addresses every page as above, for every API state and world, so the run lemmas apply to `paginate` itself. |
| Pagination.PaginateShape | src/API/PaginatesResults.php:34-39 | The calls of a run are appended to the log, at most one per page up to the limit, for consecutive pages in increasing order, with the API's method. The total page count, callback and caching switch are kept. |
| Pagination.PaginateCallbacks | src/API/PaginatesResults.php:41-55 | The callback is called exactly once per page that made a call, in order, with that page's number, including the final page that did not raise the count. It is never called for a page answered from the cache. Without a callback none is recorded. |
| Pagination.PaginateStops | src/API/PaginatesResults.php:53-55 | When no page is answered from the cache (caching off, or a requester that keeps a set key and whose first request misses), every fetched page except the last raised the count. A run with pages left makes at least one call. A run that ends before the limit ends at a page that did not raise the count. |
| Pagination.PaginateCollects | src/API/PaginatesResults.php:34-56 | Without caching, the results are the initial results followed by the parsed records of every fetched page, in page order. |
| Pagination.PaginateUris | src/API/PaginatesResults.php:35-39 | For any requester that addresses its calls as `request($apiUrl)` does, every call of a run goes to the URI of its own page, although each request rewrites the `page` parameter. |
| Pagination.PaginateStoresOnMiss | src/API/PaginatesResults.php:34-60 | With caching on, a run ends with its answer stored under the key. If the key was not stored before, the answer is the initial results followed by every fetched page's records, in page order, and it is the one new cache entry. |
| Pagination.RunPages | src/API/PaginatesResults.php:28-39 | `paginate` requests pages 1, 2, ... in order, at most `limit` of them, with the API's method, and returns with pagination off and the raw page argument kept. |
| Pagination.RunUris | src/API/PaginatesResults.php:35-39 | For any requester that behaves like `request($apiUrl)`, page i goes to one of three URIs. With a URL argument and parameters, it is the URL plus `?` plus the query of the parameters with `page` set to i. With a URL argument and no parameters, it is the bare URL for every page. Without a URL argument, it is the stored URL. |
| Pagination.ExactlyOneEmptyPageFrom | src/API/PaginatesResults.php:34-56 | From page 1, with no page answered from the cache: if pages 1..n raise the count, page n+1 does not, and n+1 is within the limit, exactly n+1 calls are made. |
| Pagination.ExactlyOneEmptyPage | src/API/PaginatesResults.php:34-56 | `paginate` makes exactly n+1 calls under the same conditions, whenever the first page is not a cache hit: caching off, or caching on with the first page's key not stored. |
| Pagination.ExactlyLimitPagesFrom | src/API/PaginatesResults.php:34-56 | From page 1, with no page answered from the cache: if every page raises the count, exactly as many calls are made as the limit allows. |
| Pagination.ExactlyLimitPages | src/API/PaginatesResults.php:31-56 | `paginate` then makes exactly `pages` calls, or 9999 for 'all', whenever the first page is not a cache hit: caching off, or caching on with the first page's key not stored. |
| Pagination.RequestKeepsKeys | src/API/HandlesResults.php:62-65 | A paginating `request` that starts with a key set ends with the same key: the key is computed only while none is set. |
| Pagination.FirstPageMisses | src/API/PaginatesResults.php:39-44 | With caching off, or with the first page's key not stored, no page of `paginate` is answered from the cache. The first request sets that key. The key is never replaced, and nothing is stored while paginating (src/API/HandlesResults.php:128), so every later request misses too. |
| Pagination.CacheMissStores | src/API/PaginatesResults.php:34-60 | The counterpart of a hit: with caching on, `paginate` leaves its answer stored under the key. When the key was not stored before, it returns and stores the initial results followed by the records of every fetched page, in page order. |
| Pagination.CacheHitShortCircuits | src/API/PaginatesResults.php:39-44 | With caching on and the first page's key stored, `paginate` makes no call, calls no callback, and returns the stored list. |
| Pagination.RunSummary | src/API/PaginatesResults.php:34-60 | Without caching, `paginate` returns the records of the fetched pages in order. The callback saw pages 1, 2, ... once each, one per call. |
| Caching.Cache | src/API/CachesResults.php:18-24 | `cache(m)` turns caching on and sets the TTL to m; nothing else changes. |
| Caching.CacheTwice | src/API/CachesResults.php:18-24 | Calling `cache` again changes only the TTL. |
| Caching.PagesText | src/API/CachesResults.php:57-59 | The page segment is `all` for 'all'. It never contains the separator. |
| Caching.KeyFor | src/API/CachesResults.php:49-59 | Every key starts with the `ScraperAPI` prefix and is longer than it. |
| Caching.SetCacheKey | src/API/CachesResults.php:47-60 | The key is replaced, not extended: it does not depend on the previous key, and it is always truthy. Nothing else changes. |
| Caching.SetCacheKeyTwice | src/API/CachesResults.php:51 | Setting the key twice leaves only the second key. |
| Caching.KeyIsJoin | src/API/CachesResults.php:49-59 | The key is the segments joined with `.`, in a fixed order: the prefix, the API name, the md5 of the URI (or of the stored URL when the URI is falsy), the md5 of the query when there are parameters, and the page argument when paginating. |
| Caching.KeyDecodes | src/API/CachesResults.php:49-59 | With md5 digests free of `.` and a dot-free API name, splitting the key on `.` gives back exactly those segments. |
| Caching.KeyDetermines | src/API/CachesResults.php:49-59 | Under the same assumptions, equal keys mean an equal API name and an equal URL hash. When both keys carry a query hash, or neither does, they also have the same pagination state, equal query hashes and equal page segments. |
| Caching.PaginationChangesKey | src/API/CachesResults.php:57-59 | For one and the same API state and URI, the key while paginating differs from the key while not paginating: it has one more segment. |
| Results.IncCount | src/API/HandlesResults.php:104-109 | `incCount(n)` adds n to the count and changes nothing else. |
| Results.SetResults | src/API/HandlesResults.php:116-121 | `setResults` appends the new records after the existing ones, removes none, and leaves the count alone. |
| Results.GetResults | src/API/HandlesResults.php:126-135 | With caching on and not paginating, `getResults` goes through compute-if-absent. It returns the stored list if there is one, and otherwise stores and returns the accumulated results. In every other case it returns the accumulated results and touches nothing. |
| Results.GetResultsStable | src/API/HandlesResults.php:126-135 | Asking for the results again gives the same answer and changes nothing further. |
| Results.KeyStep | src/API/HandlesResults.php:62-65 | With caching on, the key is computed only when none is set, and is kept otherwise. After this step a caching API always has a truthy key. |
| Results.MakeApiRequest | src/API/HandlesResults.php:60-87 | On a cache hit, the stored list is appended and no call is made. Otherwise the URI is fetched with the given method, once. A null URI is an error. |
| Results.Request | src/API/HandlesResults.php:34-49 | `request` fails exactly when there is no hit and no URL. On a hit, no call is made and the stored records are appended to the results, with the count unchanged. Otherwise there is exactly one call, the parsed records are appended and the count rises by what the parser counted. A caching, non-paginating request leaves its answer stored under its key. |
| Results.RepeatIsServedFromCache | src/API/HandlesResults.php:60-72 | After a request that went through with caching on, the next request is answered from the cache: no call, the same results and an unchanged world. |
| ApiTypes.Instantiate | src/API/ScraperAPI.php:19-31 | A new instance has its class's declared name, URL, method, authentication flag, parameters and filter, and page 1. Caching is off, with no key and 60 minutes. It is not paginating, has no callback, has no results, and the count is 0. |
| ScraperApi.WithParamsGet | src/API/ScraperAPI.php:105-110 | `params` merges by key: given keys override, every other parameter is kept, and the array stays free of duplicate keys. |
| ScraperApi.WithParams | src/API/ScraperAPI.php:105-110 | `params` changes only the parameters. No parameter is dropped, and the old keys keep their positions; the value under each key is stated by ScraperApi.WithParamsGet. |
| ScraperApi.AttachUrlParams | src/API/ScraperAPI.php:119-130 | With no parameters the URL is returned unchanged, even while paginating. Otherwise the result is the URL, `?` and the query of the parameters, and `page` is set to the current page only while paginating. |
| ScraperApi.AttachTwice | src/API/ScraperAPI.php:125-127 | The `page` parameter is overwritten, not accumulated: attaching for a second page gives what attaching for that page alone gives. |
| ScraperApi.SetApiUrl | src/API/ScraperAPI.php:91-96 | The stored URL and parameters are exactly those `attachUrlParams` produced; nothing else changes. |
| ScraperApi.GetCsrfToken | src/API/ScraperAPI.php:142-162 | Without a filter argument, the API's own filter array is used, or the scraper's whole filter when the array's selector is null or missing; the API keeps the array it used. A null or missing selector is an error before any request. Otherwise there is one GET of the page, and the token is looked up after the resolved array is merged key by key into the scraper's filter. |
| ScraperApi.OwnFilterMerge | src/Scraper/Scraper.php:146-155 | Without an own selector the lookup uses the scraper's filter unchanged. An own array that omits `attr` or `name` keeps the scraper's value for that key. |
| ScraperApi.CsrfLookupSharesToken | src/API/ScraperAPI.php:142-162 | When an attribute value is found, the scraper holds exactly the token the API stored. |
| Csrf.SetFilter | src/Scraper/Scraper.php:146-155 | A string changes only the selector. An array is merged shallowly, each present key overriding. |
| Scraping.SetCsrfTokenFilter | src/Scraper/Scraper.php:146-155 | `setCsrfTokenFilter` changes only the scraper's filter. How the filter changes is stated by Csrf.SetFilter. |
| Csrf.Extract | src/Scraper/Scraper.php:179-185 | The attribute value is returned exactly when an attribute is configured and a node was found; otherwise the node, or none, is returned. |
| Csrf.FieldNameIsLeftmostShortest | src/Scraper/Scraper.php:294-297 | The field name is the capture of the leftmost, shortest match of `[name="(.+?)"]`, where `.` excludes a line feed. There is none only when the pattern matches nowhere. |
| Csrf.LaravelFieldName | src/Scraper/Scraper.php:294-297 | The selector `[name="_token"]` names the field `_token`. |
| Csrf.AddTokenToFormData | src/Scraper/Scraper.php:289-302 | Without a truthy token the data is unchanged. With a configured name, that field is set. Otherwise the captured field is set, or the data is unchanged when nothing matches. |
| Csrf.InjectionTouchesOneField | src/Scraper/Scraper.php:289-302 | The injection sets exactly one field to the token and leaves every other field as it was. |
| Scraping.NewScraper | src/Scraper/Scraper.php:51-65 | A new scraper has an empty jar and no cookie path, no filter, no token, and is not logged in. |
| Scraping.Request | src/Scraper/Scraper.php:77-97 | The call is appended to the log. The cookie path becomes that of the URI's host, and the call is sent with the jar re-read from that host's file. The handler keeps the jar the reply leaves, and that jar is written to the path. The reply's body becomes the document, and nothing else in the scraper changes. The request fails exactly when the cookie file cannot be decrypted. |
| Scraping.RequestPersistsJar | src/Scraper/Scraper.php:77-97 | After a request, reading that host's cookie file gives back the jar the request left. This holds under the inverse-pair assumption. |
| Scraping.GetCsrfToken | src/Scraper/Scraper.php:166-186 | A filter argument is merged in first, and the document defaults to the last response. The attribute value is returned and stored exactly when an attribute is configured and a node is found. Otherwise the node comes back and the stored token is kept. |
| Scraping.CheckIfLoggedIn | src/Scraper/Scraper.php:247-270 | With a falsy test URL, the answer is false and no request is made. Otherwise the URL is fetched with redirects followed, using the jar re-read for its host. The answer is whether the `see` pattern matches the body of that reply, and that body becomes the document. The flag is set to the answer. |
| Scraping.PostOptionsGet | src/Scraper/Scraper.php:229-232 | Each POST option is the caller's client option when given. Otherwise `form_params` is the form data and `allow_redirects` is true. Nothing else is added. |
| Scraping.WithToken | src/Scraper/Scraper.php:222-224 | Without a selector the scraper is unchanged. With one, the token becomes the configured attribute of the node the selector finds in the current document, and stays as it was when no attribute is configured or no node is found. Only the token changes. |
| Scraping.SubmitLogin | src/Scraper/Scraper.php:207-237 | A submission makes exactly two calls: a GET of the login page, then a POST to `postUri`, which defaults to the login page. The POST carries the form data with the token injected. The session is then marked logged in. |
| Scraping.Login | src/Scraper/Scraper.php:199-238 | A login that goes through leaves the session marked logged in. |
| Scraping.LoginSkipsWhenLoggedIn | src/Scraper/Scraper.php:201-205 | When the probe reports logged in, `login` returns after the probe, with no further request. |
| Scraping.LoginPostsForm | src/Scraper/Scraper.php:207-237 | After a negative probe, `login` makes exactly a GET of the login page and a POST to `postUri` (the login page by default). The POST options are the client's, over the defaults `form_params` (with the token) and `allow_redirects`. |
| Scraping.LoginPostsPageToken | src/Scraper/Scraper.php:220-234 | After a negative probe, the token a login posts is the one its own GET of the login page finds. With a selector, an attribute and a matching node, the stored token becomes the node's attribute value. The POST's options are built from the form data with that token injected. Without a selector, the token held before the login is posted. |
| Cookies.DomainSegment | src/Cookie/CookieHandler.php:98-102 | The domain segment holds no `/`. It is "" without a host, and the host itself when the host has no `/`. |
| Cookies.UsernameSegment | src/Cookie/CookieHandler.php:100-103 | The username segment holds no `/`. A falsy username (null, "" or "0") becomes `unauthenticated`. |
| Cookies.FileNameShape | src/Cookie/CookieHandler.php:94-106 | For a template `a{domain}b{username}c`, the name is a, the domain segment, b, the username segment and c. |
| Cookies.FormatFileName | src/Cookie/CookieHandler.php:94-106 | The template with every `{domain}` replaced, then every `{username}`. Its result is stated by Cookies.FileNameShape and the DefaultFileName lemmas. |
| Cookies.SetFilePath | src/Cookie/CookieHandler.php:77-81 | `setFilePath` gives the handler a path inside the configured directory and changes nothing else. |
| Cookies.DefaultFileName | src/Cookie/CookieHandler.php:94-106 | The shipped template `{domain}-{username}.dat` gives the domain segment, a dash, the username segment and `.dat`, when the domain has no brace. |
| Cookies.DefaultFileNameForUser | src/Cookie/CookieHandler.php:94-106 | The shipped template gives `example.com-<name>.dat`. |
| Cookies.DefaultFileNameUnauthenticated | src/Cookie/CookieHandler.php:94-106 | The shipped template with a falsy username gives `example.com-unauthenticated.dat`. |
| Cookies.NewHandler | src/Cookie/CookieHandler.php:22-33 | The constructor computes a path exactly when a URL is given, and reads nothing. |
| Cookies.Write | src/Cookie/CookieHandler.php:38-50 | The serialised jar, encrypted when configured, is stored at the handler's path, and no other file changes. Without a path, `fopen` fails and the write is an error. |
| Cookies.Read | src/Cookie/CookieHandler.php:57-70 | With no file, the handler is unchanged. Otherwise only the jar changes, to the unsealed contents. A decryption failure is an error. |
| Cookies.SetUrl | src/Cookie/CookieHandler.php:129-135 | The URL changes, the username and configuration are kept, and the path is recomputed from the new URL. The file at the new path is then re-read. With no file the jar is kept; otherwise the jar becomes the unsealed contents. The call fails exactly when those contents cannot be decrypted. |
| Cookies.SetUsername | src/Cookie/CookieHandler.php:142-148 | The username changes, the URL and configuration are kept, and the path is recomputed from the new username. The file at the new path is then re-read, as for `setUrl`. |
| Cookies.WriteReadRoundTrip | src/Cookie/CookieHandler.php:38-70 | Under the inverse-pair assumption, writing and then reading the same path restores the written jar, whatever is held in between. |
| Cookies.SameHostRestoresJar | src/Cookie/CookieHandler.php:129-135 | A later handler for the same host, username and configuration gets back the jar an earlier one wrote. |
| Cookies.SwitchUserRestoresJar | src/Cookie/CookieHandler.php:142-148 | Switching a handler on the same URL to a username restores the jar that user's session wrote, whatever the handler held before. |
| Dispatch.Classes | src/API/Dispatcher.php:33-35 | A single class counts as a list of one. |
| Dispatch.Register | src/API/Dispatcher.php:39-41 | A class is instantiated and filed under its own name. Every other name keeps its instance. |
| Dispatch.RegisterAllGet | src/API/Dispatcher.php:37-42 | After a list is registered, each name holds the instance of the last class in the list with that name, or what it held before. |
| Dispatch.RegisterAllDistinct | src/API/Dispatcher.php:37-42 | Registration keeps one instance per name. |
| Dispatch.AddOneApi | src/API/Dispatcher.php:31-45 | Adding one class files it under its name and leaves every other name unchanged. |
| Dispatch.AddApi | src/API/Dispatcher.php:31-45 | `addApi` registers each class of its argument in order. Its effect on each name is stated by Dispatch.RegisterAllGet (the last class with that name wins), Dispatch.AddOneApi and Dispatch.LookupAfterAdd. |
| Dispatch.Lookup | src/API/Dispatcher.php:54-65 | Lookup succeeds exactly for a registered name, with its instance. Otherwise it is an error naming the key. |
| Dispatch.LookupAfterAdd | src/API/Dispatcher.php:31-65 | After `addApi`, a name in the argument yields an instance of the last class with that name. Any other name yields what it did before, which on a new dispatcher is an error. |
| Facade.SetOptionsGet | src/WebScraper.php:88-93 | The merge is shallow: a given key replaces the whole old value, `authTest` included, and every other key is kept. |
| Facade.SetOptions | src/WebScraper.php:88-93 | `setOptions` changes only the options. No option is dropped, and the old keys keep their positions; the value under each key is stated by Facade.SetOptionsGet. |
| Facade.New | src/WebScraper.php:28-33 | The options are merged over the defaults before the scraper and an empty dispatcher are built. |
| Facade.DefaultProbeIsLoggedOut | src/WebScraper.php:17-22 | The default `authTest` has null `url` and `see`, so a new facade's login probe makes no request and reports logged out. |
| Facade.Laravel | src/WebScraper.php:71-81 | The preset sets the selector `[name="_token"]` and attribute `value`, keeps the field name, and marks the facade Laravel. |
| Facade.LaravelPostsToken | src/WebScraper.php:71-81 | With the preset's filter and no configured field name, injecting a held token sets the `_token` field to it, and no other field changes. |
| Facade.LaravelPostOptions | src/WebScraper.php:71-81 | The preset's filter selects the `[name="_token"]` node and reads its `value` attribute. With a truthy token and client options that do not set `form_params`, the login POST options carry as `form_params` the caller's form with `_token` set to the token and every other field unchanged. Combined with Scraping.LoginPostsPageToken, the `_token` a login posts is the `value` of that node on the login page it fetched. |

## Left out

- **The HTTP transport.**
  - `Scraper::request`'s `array_merge_recursive` of the default options is not modelled (src/Scraper/Scraper.php:81-88). The user agent and the cookie jar option are absent too.
  - A call is an abstract function from the call and jar to a body and a new jar.
- **The API's network call.** In the package, the API calls `WebScraper::request`, which goes through the scraper and its cookies. In this model it is the abstract `ApiEnv.fetch`, logged in `World.fetches`. The scraper's cookie handling is modelled separately on `Scraping.Request`.
- **Foreign functions.** DomCrawler, `preg_match` of the login test, `Crypt`, `serialize`/`unserialize`, `parse_url`, `md5` and `http_build_query` are function parameters. A round trip is stated under the explicit inverse-pair assumption (`Cookies.SealInverts`). The key lemmas assume md5 digests hold no `.` (`Caching.HexDigests`).
- **The cache store.** The TTL clock (`now()->addMinutes`) is not modelled: the store is a map that never expires. `cacheMinutes` is kept as a number.
- **The CSRF header branch** of `makeApiRequest` (src/API/HandlesResults.php:74-81) is left out. It applies when the API's filter array has a non-null selector and a `type` key equal to `Scraper::CSRF_TYPE_HEADER` (src/Scraper/Scraper.php:48-49). Neither default filter declares `type`, but `setCsrfTokenFilter` merges any key (src/Scraper/Scraper.php:151), and a subclass may declare one. Two behaviours are not modelled. The first is the header the branch adds. The second is the read of a missing `type` key next to a non-null selector: under Laravel's error handler it raises an `ErrorException` on every request that is not a cache hit.
- **`Dispatcher::__get`** on an unknown name calls `trigger_error` with `E_USER_ERROR` (src/API/Dispatcher.php:61-62). That halts the script, or Laravel's handler throws an `ErrorException`. The `return null` at line 64 is reached only under a handler that swallows the error. The model's `NoApiConfigured` error stands for this usual behaviour.
- Dispatch.Lookup: `__get` returns the stored instance itself (src/API/Dispatcher.php:56-57), and every instance holds the one shared `WebScraper` (line 39). So whatever one access leaves is seen by the next: the caching switch, key, results, count, the `page` parameter, and the scraper's filter and token. The model passes values instead. Lookup always returns the instance as registered, no member files an updated `Api` back into the dispatcher, and the scraper that ScraperApi.GetCsrfToken returns is not written back into `Facade.WebScraper`. A caller that wants the shared behaviour threads the returned values itself.
- **Exceptions.** A thrown exception is a `Failure` that ends the modelled call. Whatever the PHP object changed before the throw is not kept:
  - Results.MakeApiRequest: with caching on and no key, PHP stores a key built from `md5(null)` (src/API/HandlesResults.php:62-65) before `WebScraper::request` rejects the null URI with its `string $uri` type check (src/WebScraper.php:45). That key is never cleared, so later requests of the same instance reuse it. The model returns `MissingApiUrl` without that key.
  - Pagination.PaginateFrom: a throw inside the loop (src/API/PaginatesResults.php:39) skips line 58, so PHP leaves `shouldPaginate` true. The model has no state after a failure.
  - ScraperApi.GetCsrfToken: PHP adopts the scraper's filter (src/API/ScraperAPI.php:146) before the throw at line 153. The model's failure carries no state.
- **Undefined array keys.** PHP reads a missing array key as null with a notice, and Laravel's error handler turns that notice into an `ErrorException`. The model reads such keys as null:
  - Scraping.CheckIfLoggedIn: a missing `authTest` entry, or a missing `url` or `see` key in it, is read as null (src/Scraper/Scraper.php:251,257,263). Under Laravel the read raises instead. The shallow `setOptions` merge makes this reachable: `['authTest' => ['url' => ...]]` replaces the whole default entry and drops `see`. A value that is not a string is also read as null.
  - ScraperApi.GetCsrfToken: a filter array without a `filter` key is treated as one whose selector is null (src/API/ScraperAPI.php:145,152). Under Laravel the read raises instead.
- **Failing calls.** `SessionEnv.send` and `ApiEnv.fetch` always answer. Guzzle throws on transport errors and, by default, on 4xx/5xx replies (src/Scraper/Scraper.php:75,197). So Scraping.Login's "leaves the session marked logged in" never meets a rejected POST, and no run of `paginate` fails on the network.
- Pagination.Notify: the callback is an arbitrary closure, and it runs before the count is compared at src/API/PaginatesResults.php:53. The model only logs the call and assumes it changes nothing, so PaginateStops and the Exactly* lemmas hold only for callbacks that leave the API alone.
- **Numeric array keys.** Arrays.Merge, and with it ScraperApi.WithParams and Facade.SetOptions, assumes every key is a non-numeric string. PHP turns a numeric-string key such as `'0'` into an integer, and `array_merge` renumbers and appends integer keys instead of overriding them (src/API/ScraperAPI.php:107, src/WebScraper.php:90).
- ScraperApi.WithParamsGet: states that a given key overrides the old value; with a numeric-string key, PHP keeps both values instead.
- Facade.SetOptionsGet: states that a given key replaces the old value; with a numeric-string key, PHP keeps both values instead.
- ApiTypes.Instantiate: only the six `ApiClass` fields (name, URL, method, authentication flag, parameters and CSRF filter) vary per class. A subclass that redeclares another inherited property, such as `$shouldCache = true` or `$cacheMinutes = 5`, is not representable; every instance starts with caching off and 60 minutes.
- **`parse()` results** are a list of records. String keys in a subclass's result array, which `array_merge` would overwrite, are not modelled.
- **The page argument.**
  - `paginate`'s argument is 'all' or an integer. `(int)` of another string (e.g. "abc" → 0) is not modelled.
  - Caching.PagesText: for a non-'all' argument, the segment is the decimal digits of the integer. PHP would print a string argument as written.
- **File I/O details.** `mkdir` and the `@`-suppressed `fwrite`/`fclose` failures (src/Cookie/CookieHandler.php:48-49,84-86) are not modelled: the filesystem is a map and a write with a path always succeeds. Paths join the directory and the file name with `/`, the `DIRECTORY_SEPARATOR` of a Unix system (src/Cookie/CookieHandler.php:81).
- Cookies.Write: a handler without a path gives the error `NoCookiePath`. In PHP, `fopen(null)` raises a warning (an `ErrorException` under Laravel's handler) or, on PHP 8, a `ValueError`. `Scraper::request` always sets a path before writing, so that branch is never reached from there.
- **Configuration plumbing.**
  - `WebScraperServiceProvider` is not modelled.
  - `config()` is not modelled; configuration values are passed in as a `CookieConfig`.
  - The user-agent configuration and `setUserAgent` are not modelled. The user agent is only carried along.
- **Getters** are field reads of the datatypes and have no members of their own: `getCount`, `shouldCache`, `shouldPaginate`, `getCacheKey`, `getApiName`, `getApiUrl`, `requiresAuth`, `getCsrfTokenFilter`, `isLoggedIn`, `getOptions`, `getScraper`, `getCookieJar`. The same goes for the setters `setCookieJar` and `setIsLoggedIn`, and for `WebScraper::api`.
- **`ScraperAPI::parse`'s default** is not modelled. It returns the `Crawler` held in `$this->parser` (src/API/ScraperAPI.php:55-58), and `setResults(array)` rejects that with a `TypeError` (src/API/HandlesResults.php:46). In the model, `parse` is always the subclass's function parameter, which yields a list of records.
- **Dispatch.KeyOf** files a class with a null name under "". PHP turns a null array key into "" in the same way.
