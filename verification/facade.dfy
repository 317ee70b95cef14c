/** `WebScraper`, the entry point: its options (merged shallowly over the
    defaults), the scraper and the API dispatcher it builds, and the
    Laravel preset for the CSRF token filter. */
module Facade {
  import opened Base
  import opened Strings
  import opened Arrays
  import opened Cookies
  import opened Csrf
  import opened Scraping
  import opened Dispatch

  datatype WebScraper = WebScraper(options: Assoc<Value>, scraper: Scraper, apis: Dispatcher, isLaravel: bool)

  /** The default options: an `authTest` entry whose `url` and `see` are
      both null. */
  const DefaultOptions: Assoc<Value> := [("authTest", Arr([("url", Null), ("see", Null)]))]

  /** `setOptions`: a shallow `array_merge` over the current options. */
  function SetOptions(ws: WebScraper, options: Assoc<Value>): (r: WebScraper)
    ensures r == ws.(options := r.options)
    ensures |r.options| >= |ws.options|
    ensures forall i :: 0 <= i < |ws.options| ==> r.options[i].0 == ws.options[i].0
  {
    ws.(options := Merge(ws.options, options))
  }

  /** The merge is shallow: a key that is given replaces the whole old value
      (an `authTest` array included, so keys of the old array it lacks are
      gone); every other key keeps its value, and a well-formed option array
      stays well formed. */
  lemma SetOptionsGet(ws: WebScraper, options: Assoc<Value>, k: string)
    requires Distinct(options)
    ensures Get(SetOptions(ws, options).options, k) == if Has(options, k) then Get(options, k) else Get(ws.options, k)
    ensures Distinct(ws.options) ==> Distinct(SetOptions(ws, options).options)
  {
    MergeGet(ws.options, options, k);
    if Distinct(ws.options) {
      MergeDistinct(ws.options, options);
    }
  }

  /** The constructor: the options are applied to the defaults first, then
      the scraper and an empty dispatcher are built. */
  function New(env: SessionEnv, config: CookieConfig, userAgent: string, options: Assoc<Value>): (r: WebScraper)
    ensures r.options == Merge(DefaultOptions, options)
    ensures r.scraper == NewScraper(env, config, userAgent)
    ensures r.apis == NoApis && !r.isLaravel
  {
    var ws := WebScraper(DefaultOptions, NewScraper(env, config, userAgent), NoApis, false);
    SetOptions(ws, options)
  }

  /** `checkIfLoggedIn` as the scraper runs it, with the facade's options. */
  function LoginProbe(env: SessionEnv, ws: WebScraper, net: Net): Result<Scraping.Probe, SessionError> {
    CheckIfLoggedIn(env, Session(ws.scraper, net), ws.options)
  }

  /** With the default `authTest` (no `authTest` among the given options),
      a new facade's login probe makes no request and reports the session
      logged out. */
  lemma DefaultProbeIsLoggedOut(env: SessionEnv, config: CookieConfig, userAgent: string, options: Assoc<Value>, net: Net)
    requires Distinct(options) && !Has(options, "authTest")
    ensures var ws := New(env, config, userAgent, options);
            LoginProbe(env, ws, net) == Success(Scraping.Probe(Session(ws.scraper, net), false))
  {
    var ws := New(env, config, userAgent, options);
    MergeGet(DefaultOptions, options, "authTest");
    assert Get(ws.options, "authTest") == Some(Arr([("url", Null), ("see", Null)]));
    assert AuthTestField(ws.options, "url").None?;
  }

  /** The filter argument `laravel` passes: selector and attribute, no
      field name. */
  const LaravelFilter: FilterArg := Fields(FilterArray(Some(Some("[name=\"_token\"]")), Some(Some("value")), None))

  /** `laravel`: the scraper's filter becomes the `_token` input's `value`,
      its field name is left as it was, and the facade is marked Laravel. */
  function Laravel(ws: WebScraper): (r: WebScraper)
    ensures r.isLaravel
    ensures r.scraper.csrfFilter == Filter(Some("[name=\"_token\"]"), Some("value"), ws.scraper.csrfFilter.name)
    ensures r == ws.(isLaravel := true, scraper := ws.scraper.(csrfFilter := r.scraper.csrfFilter))
  {
    ws.(isLaravel := true, scraper := SetCsrfTokenFilter(ws.scraper, LaravelFilter))
  }

  /** With the Laravel preset's filter and no field name configured,
      injecting a held token sets the `_token` field and leaves every other
      field alone. */
  lemma LaravelPostsToken(ws: WebScraper, token: string, postData: Assoc<string>, k: string)
    requires !TruthyOpt(ws.scraper.csrfFilter.name) && Truthy(token)
    ensures var form := AddTokenToFormData(Laravel(ws).scraper.csrfFilter, Some(token), postData);
            && Get(form, "_token") == Some(token)
            && (k != "_token" ==> Get(form, k) == Get(postData, k))
  {
    LaravelFieldName();
    InjectionTouchesOneField(Laravel(ws).scraper.csrfFilter, token, postData, k);
  }

  /** The preset's filter selects the `[name="_token"]` node and reads its
      `value`. With a truthy token, the login POST options built from the
      form data carry, as `form_params`, a form whose `_token` is the token
      and whose other fields are the caller's. Together with
      `Scraping.LoginPostsPageToken`, the `_token` a login posts is the
      `value` of that node on the login page. */
  lemma LaravelPostOptions(ws: WebScraper, token: string, postData: Assoc<string>, client: Assoc<Value>, k: string)
    requires !TruthyOpt(ws.scraper.csrfFilter.name) && Truthy(token)
    requires Distinct(client) && !Has(client, "form_params")
    ensures var f := Laravel(ws).scraper.csrfFilter;
            && TruthyOpt(f.filter) && OrEmpty(f.filter) == "[name=\"_token\"]" && f.attr == Some("value")
            && var form := AddTokenToFormData(f, Some(token), postData);
               && Get(PostOptions(form, client), "form_params") == Some(FormValue(form))
               && Get(form, "_token") == Some(token)
               && (k != "_token" ==> Get(form, k) == Get(postData, k))
  {
    LaravelPostsToken(ws, token, postData, k);
    PostOptionsGet(AddTokenToFormData(Laravel(ws).scraper.csrfFilter, Some(token), postData), client, "form_params");
  }
}
