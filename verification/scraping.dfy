/** The HTTP session wrapper (`Scraper`): every request re-targets the
    cookie handler, sends the call with the jar, stores the jar the reply
    leaves and keeps the reply body as the current document. On top of it:
    the stateful CSRF lookup, the authentication probe and login. The
    transport, the DOM lookup and the regex test are parameters. */
module Scraping {
  import opened Base
  import opened Strings
  import opened Arrays
  import opened Cookies
  import opened Csrf

  /** One HTTP call as the caller issued it. */
  datatype Call = Call(verb: string, uri: string, options: Assoc<Value>)

  /** What the transport gives back: the body, and the jar as the
      response's cookies left it. */
  datatype Reply = Reply(body: string, jar: Jar)

  datatype SessionEnv = SessionEnv(
    cookies: CookieEnv,
    send: (Call, Jar) -> Reply,
    select: (string, string) -> Option<Node>,
    matches: (string, string) -> bool)

  /** The outside world the session touches: the filesystem and the calls
      made so far. */
  datatype Net = Net(fs: Files, calls: seq<Call>)

  datatype Scraper = Scraper(
    cookieHandler: CookieHandler,
    userAgent: string,
    csrfFilter: Filter,
    csrfToken: Option<string>,
    isLoggedIn: bool,
    document: string)

  datatype Session = Session(scraper: Scraper, net: Net)

  datatype SessionError = CookieFailure(error: CookieError)

  /** The constructor: an empty jar whose handler has no URL (so no path),
      the configured user agent, no filter, no token, not logged in, and an
      empty document. */
  function NewScraper(env: SessionEnv, config: CookieConfig, userAgent: string): (s: Scraper)
    ensures s.cookieHandler.filePath.None? && s.cookieHandler.jar == CookieJar([])
    ensures s.csrfFilter == NoFilter && s.csrfToken.None? && !s.isLoggedIn
  {
    Scraper(NewHandler(env.cookies, config, CookieJar([]), None, None), userAgent, NoFilter, None, false, "")
  }

  /** `request`: the cookie handler is pointed at the URI (re-reading that
      host's file), the call is sent with its jar, the resulting jar is
      written back to the same file, and the body becomes the document.
      A cookie file that cannot be decrypted aborts before anything is sent. */
  function Request(env: SessionEnv, s: Session, verb: string, uri: string, options: Assoc<Value>): (r: Result<Session, SessionError>)
    ensures r.Success? ==> r.value.net.calls == s.net.calls + [Call(verb, uri, options)]
    ensures r.Success? ==>
              && r.value.scraper.cookieHandler.filePath == Some(FilePathFor(env.cookies, s.scraper.cookieHandler.config, Some(uri), s.scraper.cookieHandler.username))
              && r.value.net.fs == s.net.fs[r.value.scraper.cookieHandler.filePath.value :=
                                             Seal(env.cookies, s.scraper.cookieHandler.config, r.value.scraper.cookieHandler.jar)]
    ensures r.Success? ==> r.value.scraper == s.scraper.(cookieHandler := r.value.scraper.cookieHandler, document := r.value.scraper.document)
    ensures r.Failure? <==> SetUrl(env.cookies, s.scraper.cookieHandler, s.net.fs, Some(uri)).Failure?
    ensures r.Success? ==>
              var h := SetUrl(env.cookies, s.scraper.cookieHandler, s.net.fs, Some(uri)).value;
              var reply := env.send(Call(verb, uri, options), h.jar);
              && r.value.scraper.document == reply.body
              && r.value.scraper.cookieHandler == h.(jar := reply.jar)
  {
    match SetUrl(env.cookies, s.scraper.cookieHandler, s.net.fs, Some(uri))
    case Failure(e) => Failure(CookieFailure(e))
    case Success(handler) =>
      var call := Call(verb, uri, options);
      var reply := env.send(call, handler.jar);
      var handler' := handler.(jar := reply.jar);
      var fs' := Write(env.cookies, handler', s.net.fs).value;
      Success(Session(s.scraper.(cookieHandler := handler', document := reply.body), Net(fs', s.net.calls + [call])))
  }

  /** The jar a request leaves behind is what a later read of that host's
      file gives back, under the inverse-pair assumption. */
  lemma RequestPersistsJar(env: SessionEnv, s: Session, verb: string, uri: string, options: Assoc<Value>)
    requires Request(env, s, verb, uri, options).Success?
    requires SealInverts(env.cookies, s.scraper.cookieHandler.config,
                         Request(env, s, verb, uri, options).value.scraper.cookieHandler.jar)
    ensures var after := Request(env, s, verb, uri, options).value;
            Read(env.cookies, after.scraper.cookieHandler.(jar := CookieJar([])), after.net.fs) == Success(after.scraper.cookieHandler)
  {
    var after := Request(env, s, verb, uri, options).value;
    var h := after.scraper.cookieHandler;
    WriteReadRoundTrip(env.cookies, h, s.net.fs, CookieJar([]));
  }

  /** `setCsrfTokenFilter`. */
  function SetCsrfTokenFilter(s: Scraper, arg: FilterArg): (r: Scraper)
    ensures r == s.(csrfFilter := r.csrfFilter)
  {
    s.(csrfFilter := SetFilter(s.csrfFilter, arg))
  }

  /** The outcome of a token lookup: the scraper after it and the value. */
  datatype Lookup = Lookup(scraper: Scraper, result: Extracted)

  /** `getCsrfToken`: an optional filter argument is merged in first; the
      document defaults to the last response. The attribute value is
      returned and stored exactly when an attribute is configured and a
      node is found; otherwise the node (or none) comes back and the stored
      token is left alone. */
  function GetCsrfToken(select: (string, string) -> Option<Node>, s: Scraper,
                        arg: Option<FilterArg>, doc: Option<string>): (r: Lookup)
    ensures r.scraper.csrfFilter == (if arg.Some? then SetFilter(s.csrfFilter, arg.value) else s.csrfFilter)
    ensures var node := select(OrEmpty(r.scraper.csrfFilter.filter), doc.GetOr(s.document));
            && (r.result.AttrValue? <==> TruthyOpt(r.scraper.csrfFilter.attr) && node.Some?)
            && (r.result.AttrValue? ==>
                  r.result.value == GetAttribute(node.value, r.scraper.csrfFilter.attr.value) && r.scraper.csrfToken == Some(r.result.value))
            && (r.result.NodeValue? ==> r.result.node == node && r.scraper.csrfToken == s.csrfToken)
    ensures r.scraper == s.(csrfFilter := r.scraper.csrfFilter, csrfToken := r.scraper.csrfToken)
  {
    var s1 := if arg.Some? then SetCsrfTokenFilter(s, arg.value) else s;
    var node := select(OrEmpty(s1.csrfFilter.filter), doc.GetOr(s.document));
    var result := Extract(s1.csrfFilter, node);
    if result.AttrValue? then Lookup(s1.(csrfToken := Some(result.value)), result)
    else Lookup(s1, result)
  }

  /** `$options['authTest'][$key]` as a string, null when missing or not a
      string. */
  function AuthTestField(options: Assoc<Value>, key: string): Option<string> {
    var test := Get(options, "authTest");
    if test.Some? && test.value.Arr? then
      var v := Get(test.value.entries, key);
      if v.Some? && v.value.Str? then Some(v.value.text) else None
    else None
  }

  /** The options sent with the probe request. */
  const FollowRedirects: Assoc<Value> := [("allow_redirects", Bool(true))]

  datatype Probe = Probe(session: Session, loggedIn: bool)

  /** `checkIfLoggedIn`: with a falsy test URL the answer is false and no
      request is made; otherwise the test URL is fetched and the answer is
      whether the expected pattern occurs in the body. Either way the
      scraper's flag is set to the answer. */
  function CheckIfLoggedIn(env: SessionEnv, s: Session, options: Assoc<Value>): (r: Result<Probe, SessionError>)
    ensures !TruthyOpt(AuthTestField(options, "url")) ==>
              r == Success(Probe(Session(s.scraper.(isLoggedIn := false), s.net), false))
    ensures TruthyOpt(AuthTestField(options, "url")) && r.Success? ==>
              r.value.session.net.calls == s.net.calls + [Call("GET", AuthTestField(options, "url").value, FollowRedirects)]
    ensures TruthyOpt(AuthTestField(options, "url")) && r.Success? ==>
              var url := AuthTestField(options, "url").value;
              && Request(env, s, "GET", url, FollowRedirects).Success?
              && var h := SetUrl(env.cookies, s.scraper.cookieHandler, s.net.fs, Some(url)).value;
                 var body := env.send(Call("GET", url, FollowRedirects), h.jar).body;
                 && r.value.session.scraper.document == body
                 && r.value.loggedIn == env.matches(OrEmpty(AuthTestField(options, "see")), body)
    ensures r.Success? ==> r.value.session.scraper.isLoggedIn == r.value.loggedIn
    ensures r.Success? ==> r.value.session.scraper.csrfFilter == s.scraper.csrfFilter
                           && r.value.session.scraper.csrfToken == s.scraper.csrfToken
  {
    var url := AuthTestField(options, "url");
    if !TruthyOpt(url) then
      Success(Probe(Session(s.scraper.(isLoggedIn := false), s.net), false))
    else
      var s1 :- Request(env, s, "GET", url.value, FollowRedirects);
      var loggedIn := env.matches(OrEmpty(AuthTestField(options, "see")), s1.scraper.document);
      Success(Probe(Session(s1.scraper.(isLoggedIn := loggedIn), s1.net), loggedIn))
  }

  /** The keys `login` reads from its `$options` argument: the `client`
      options handed to the transport and the URI to post to. */
  datatype LoginOptions = LoginOptions(client: Option<Assoc<Value>>, postUri: Option<string>)

  /** Form data as a transport option value. */
  function FormValue(postData: Assoc<string>): (v: Value)
    ensures v.Arr? && |v.entries| == |postData|
    ensures forall i :: 0 <= i < |postData| ==> v.entries[i] == (postData[i].0, Str(postData[i].1))
  {
    Arr(seq(|postData|, i requires 0 <= i < |postData| => (postData[i].0, Str(postData[i].1))))
  }

  /** The transport options of the login POST: form data and redirects
      first, overridden by the caller's client options. */
  function PostOptions(postData: Assoc<string>, client: Assoc<Value>): Assoc<Value> {
    Merge([("form_params", FormValue(postData)), ("allow_redirects", Bool(true))], client)
  }

  /** Each POST option is the client's when it sets it, and the default
      otherwise; nothing else is added. */
  lemma PostOptionsGet(postData: Assoc<string>, client: Assoc<Value>, key: string)
    requires Distinct(client)
    ensures Get(PostOptions(postData, client), key) ==
              (if Has(client, key) then Get(client, key)
               else if key == "form_params" then Some(FormValue(postData))
               else if key == "allow_redirects" then Some(Bool(true))
               else None)
  {
    MergeGet([("form_params", FormValue(postData)), ("allow_redirects", Bool(true))], client, key);
  }

  /** The scraper after the login page: the token is looked up only when a
      selector is configured. */
  function WithToken(env: SessionEnv, sc: Scraper): (r: Scraper)
    ensures r.csrfFilter == sc.csrfFilter
    ensures !TruthyOpt(sc.csrfFilter.filter) ==> r == sc
    ensures r == sc.(csrfToken := r.csrfToken)
    ensures TruthyOpt(sc.csrfFilter.filter) ==>
              var node := env.select(sc.csrfFilter.filter.value, sc.document);
              r.csrfToken == if TruthyOpt(sc.csrfFilter.attr) && node.Some?
                             then Some(GetAttribute(node.value, sc.csrfFilter.attr.value))
                             else sc.csrfToken
  {
    if TruthyOpt(sc.csrfFilter.filter) then GetCsrfToken(env.select, sc, None, None).scraper else sc
  }

  /** `login` once the probe has said no: fetch the login page, look up the
      token, post the form (by default to the login page itself), and count
      the session as logged in whatever the response said. */
  function SubmitLogin(env: SessionEnv, probe: Session, loginPageUri: string,
                       postData: Assoc<string>, loginOptions: LoginOptions): (r: Result<Session, SessionError>)
    ensures r.Success? ==> r.value.scraper.isLoggedIn
    ensures r.Success? ==> Request(env, probe, "GET", loginPageUri, []).Success?
    ensures r.Success? ==>
              var page := Request(env, probe, "GET", loginPageUri, []).value;
              var sc := WithToken(env, page.scraper);
              && |r.value.net.calls| == |probe.net.calls| + 2
              && r.value.net.calls[..|probe.net.calls|] == probe.net.calls
              && r.value.net.calls[|probe.net.calls|] == Call("GET", loginPageUri, [])
              && r.value.net.calls[|probe.net.calls| + 1] ==
                   Call("POST", loginOptions.postUri.GetOr(loginPageUri),
                        PostOptions(AddTokenToFormData(sc.csrfFilter, sc.csrfToken, postData), loginOptions.client.GetOr([])))
  {
    var page :- Request(env, probe, "GET", loginPageUri, []);
    var sc := WithToken(env, page.scraper);
    var form := AddTokenToFormData(sc.csrfFilter, sc.csrfToken, postData);
    var posted :- Request(env, Session(sc, page.net), "POST", loginOptions.postUri.GetOr(loginPageUri),
                          PostOptions(form, loginOptions.client.GetOr([])));
    Success(posted.(scraper := posted.scraper.(isLoggedIn := true)))
  }

  /** `login`: nothing beyond the probe when it reports logged in, the full
      submission otherwise. */
  function Login(env: SessionEnv, s: Session, options: Assoc<Value>, loginPageUri: string,
                 postData: Assoc<string>, loginOptions: LoginOptions): (r: Result<Session, SessionError>)
    ensures r.Success? ==> r.value.scraper.isLoggedIn
  {
    var probe :- CheckIfLoggedIn(env, s, options);
    if probe.loggedIn then Success(probe.session)
    else SubmitLogin(env, probe.session, loginPageUri, postData, loginOptions)
  }

  /** When the probe reports the session logged in, `login` returns after
      the probe: at most the probe's own request is made. */
  lemma LoginSkipsWhenLoggedIn(env: SessionEnv, s: Session, options: Assoc<Value>, loginPageUri: string,
                               postData: Assoc<string>, loginOptions: LoginOptions)
    requires CheckIfLoggedIn(env, s, options).Success?
    requires CheckIfLoggedIn(env, s, options).value.loggedIn
    ensures Login(env, s, options, loginPageUri, postData, loginOptions) == Success(CheckIfLoggedIn(env, s, options).value.session)
    ensures Login(env, s, options, loginPageUri, postData, loginOptions).value.net.calls ==
              s.net.calls + [Call("GET", AuthTestField(options, "url").value, FollowRedirects)]
  {
  }

  /** A login that goes through makes, after the probe, exactly two calls:
      a GET of the login page and a POST to the post URI (the login page
      unless overridden), whose form data carries the token the scraper
      holds, and whose options default `form_params` and `allow_redirects`
      unless the client options set them. */
  lemma LoginPostsForm(env: SessionEnv, s: Session, options: Assoc<Value>, loginPageUri: string,
                       postData: Assoc<string>, loginOptions: LoginOptions, key: string)
    requires CheckIfLoggedIn(env, s, options).Success?
    requires !CheckIfLoggedIn(env, s, options).value.loggedIn
    requires Login(env, s, options, loginPageUri, postData, loginOptions).Success?
    requires Distinct(loginOptions.client.GetOr([]))
    ensures var probe := CheckIfLoggedIn(env, s, options).value.session;
            var done := Login(env, s, options, loginPageUri, postData, loginOptions).value;
            var client := loginOptions.client.GetOr([]);
            var form := AddTokenToFormData(done.scraper.csrfFilter, done.scraper.csrfToken, postData);
            && |done.net.calls| == |probe.net.calls| + 2
            && done.net.calls[|probe.net.calls|] == Call("GET", loginPageUri, [])
            && done.net.calls[|probe.net.calls| + 1].verb == "POST"
            && done.net.calls[|probe.net.calls| + 1].uri == loginOptions.postUri.GetOr(loginPageUri)
            && Get(done.net.calls[|probe.net.calls| + 1].options, key) ==
                 (if Has(client, key) then Get(client, key)
                  else if key == "form_params" then Some(FormValue(form))
                  else if key == "allow_redirects" then Some(Bool(true))
                  else None)
  {
    var probe := CheckIfLoggedIn(env, s, options).value.session;
    var done := SubmitLogin(env, probe, loginPageUri, postData, loginOptions);
    var page := Request(env, probe, "GET", loginPageUri, []).value;
    var sc := WithToken(env, page.scraper);
    var posted := Request(env, Session(sc, page.net), "POST", loginOptions.postUri.GetOr(loginPageUri),
                          PostOptions(AddTokenToFormData(sc.csrfFilter, sc.csrfToken, postData), loginOptions.client.GetOr([]))).value;
    assert done.value.scraper.csrfFilter == sc.csrfFilter && done.value.scraper.csrfToken == sc.csrfToken;
    PostOptionsGet(AddTokenToFormData(sc.csrfFilter, sc.csrfToken, postData), loginOptions.client.GetOr([]), key);
  }

  /** The token a login posts is the one its own GET of the login page
      finds: with a selector and an attribute configured and a node on that
      page, the scraper's token becomes the node's attribute value and the
      POST's options are built from the form data with that token injected.
      Without a selector the token held before the login is posted. */
  lemma LoginPostsPageToken(env: SessionEnv, s: Session, options: Assoc<Value>, loginPageUri: string,
                            postData: Assoc<string>, loginOptions: LoginOptions)
    requires CheckIfLoggedIn(env, s, options).Success?
    requires !CheckIfLoggedIn(env, s, options).value.loggedIn
    requires Login(env, s, options, loginPageUri, postData, loginOptions).Success?
    ensures var probe := CheckIfLoggedIn(env, s, options).value.session;
            var done := Login(env, s, options, loginPageUri, postData, loginOptions).value;
            var f := s.scraper.csrfFilter;
            var client := loginOptions.client.GetOr([]);
            && |done.net.calls| == |probe.net.calls| + 2
            && Request(env, probe, "GET", loginPageUri, []).Success?
            && var h := SetUrl(env.cookies, probe.scraper.cookieHandler, probe.net.fs, Some(loginPageUri)).value;
               var page := env.send(Call("GET", loginPageUri, []), h.jar).body;
               var node := env.select(OrEmpty(f.filter), page);
               && (TruthyOpt(f.filter) && TruthyOpt(f.attr) && node.Some? ==>
                     var token := GetAttribute(node.value, f.attr.value);
                     && done.scraper.csrfToken == Some(token)
                     && done.net.calls[|probe.net.calls| + 1].options ==
                          PostOptions(AddTokenToFormData(f, Some(token), postData), client))
               && (!TruthyOpt(f.filter) ==>
                     && done.scraper.csrfToken == s.scraper.csrfToken
                     && done.net.calls[|probe.net.calls| + 1].options ==
                          PostOptions(AddTokenToFormData(f, s.scraper.csrfToken, postData), client))
  {
  }
}
