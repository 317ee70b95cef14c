/** The cookie handler: it names one cookie file per (domain, username)
    pair, writes the session's cookie jar to it (serialised, optionally
    encrypted) and reads it back. The filesystem is a map from path to file
    contents; serialisation, encryption and URL parsing are parameters. */
module Cookies {
  import opened Base
  import opened Strings

  /** The `cookies` section of the package configuration. `stateless` is
      read by nobody and kept only for completeness. */
  datatype CookieConfig = CookieConfig(stateless: bool, encrypt: bool, directory: string, fileName: string)

  /** The file name template shipped in the package configuration. */
  const DefaultTemplate: string := "{domain}-{username}.dat"

  /** The placeholders of the file name template. */
  const DomainPlaceholder: string := "{domain}"
  const UsernamePlaceholder: string := "{username}"

  /** The username used in the file name when none is set. */
  const Unauthenticated: string := "unauthenticated"

  /** The package's default cookie configuration, under a given directory. */
  function DefaultConfig(directory: string): CookieConfig {
    CookieConfig(false, true, directory, DefaultTemplate)
  }

  datatype Cookie = Cookie(name: string, value: string, domain: string, path: string,
                           expires: Option<int>, secure: bool, httpOnly: bool)

  /** A cookie jar, or `Unreadable` for the `false` PHP's `unserialize`
      yields on a blob it cannot decode. */
  datatype Jar = CookieJar(cookies: seq<Cookie>) | Unreadable

  /** The foreign functions the handler calls. `decrypt` answers None where
      the encrypter throws (wrong key, corrupt payload). */
  datatype CookieEnv = CookieEnv(
    host: string -> Option<string>,
    serialize: Jar -> string,
    unserialize: string -> Jar,
    encrypt: string -> string,
    decrypt: string -> Option<string>)

  /** The filesystem: path to contents. */
  type Files = map<string, string>

  datatype CookieHandler = CookieHandler(
    config: CookieConfig,
    jar: Jar,
    filePath: Option<string>,
    url: Option<string>,
    username: Option<string>)

  datatype CookieError =
    | DecryptFailed(path: string)   // the encrypter threw on the file's contents
    | NoCookiePath                  // `fopen` of a null path (a handler built without a URL)

  /** The `{domain}` segment: the basename of the URL's host ("" when the
      URL has none). It never holds a directory separator. */
  function DomainSegment(env: CookieEnv, url: Option<string>): (r: string)
    ensures '/' !in r
    ensures env.host(OrEmpty(url)).None? ==> r == ""
    ensures env.host(OrEmpty(url)).Some? && '/' !in env.host(OrEmpty(url)).value ==>
              r == env.host(OrEmpty(url)).value
  {
    Basename(OrEmpty(env.host(OrEmpty(url))))
  }

  /** The `{username}` segment: the basename of the username, with a falsy
      username (null, "" or "0") replaced by "unauthenticated". */
  function UsernameSegment(username: Option<string>): (r: string)
    ensures '/' !in r
    ensures !TruthyOpt(username) ==> r == Unauthenticated
    ensures TruthyOpt(username) && '/' !in username.value ==> r == username.value
  {
    assert '/' !in Unauthenticated;
    Basename(if TruthyOpt(username) then username.value else Unauthenticated)
  }

  /** `formatFileName`: every `{domain}` in the template replaced first,
      then every `{username}`. */
  function FormatFileName(env: CookieEnv, config: CookieConfig, url: Option<string>, username: Option<string>): string {
    var withDomain := Replace(config.fileName, DomainPlaceholder, DomainSegment(env, url));
    Replace(withDomain, UsernamePlaceholder, UsernameSegment(username))
  }

  /** The cookie file of a (url, username) pair: directory, separator, name. */
  function FilePathFor(env: CookieEnv, config: CookieConfig, url: Option<string>, username: Option<string>): string {
    config.directory + "/" + FormatFileName(env, config, url, username)
  }

  /** `setFilePath`. */
  function SetFilePath(env: CookieEnv, h: CookieHandler): (r: CookieHandler)
    ensures r == h.(filePath := r.filePath) && r.filePath.Some?
    ensures |r.filePath.value| > |h.config.directory| && r.filePath.value[..|h.config.directory| + 1] == h.config.directory + "/"
  {
    h.(filePath := Some(FilePathFor(env, h.config, h.url, h.username)))
  }

  /** The constructor: the path is computed only when a URL is given, and
      nothing is read yet. */
  function NewHandler(env: CookieEnv, config: CookieConfig, jar: Jar, url: Option<string>, username: Option<string>): (h: CookieHandler)
    ensures h.jar == jar && h.url == url && h.username == username && h.config == config
    ensures h.filePath.Some? <==> url.Some?
    ensures url.Some? ==> h.filePath == Some(FilePathFor(env, config, url, username))
  {
    var h := CookieHandler(config, jar, None, url, username);
    if url.Some? then SetFilePath(env, h) else h
  }

  /** What `write` puts in the file: the serialised jar, encrypted when the
      configuration says so. */
  function Seal(env: CookieEnv, config: CookieConfig, jar: Jar): string {
    var data := env.serialize(jar);
    if config.encrypt then env.encrypt(data) else data
  }

  /** The inverse of `Seal`, failing where decryption throws. */
  function Unseal(env: CookieEnv, config: CookieConfig, contents: string): Option<Jar> {
    if config.encrypt then
      match env.decrypt(contents)
      case Some(data) => Some(env.unserialize(data))
      case None => None
    else Some(env.unserialize(contents))
  }

  /** `write`: the jar goes to the handler's file. Without a path `fopen`
      is handed null and throws, so nothing is written. */
  function Write(env: CookieEnv, h: CookieHandler, fs: Files): (r: Result<Files, CookieError>)
    ensures r.Success? <==> h.filePath.Some?
    ensures r.Success? ==> r.value == fs[h.filePath.value := Seal(env, h.config, h.jar)]
    ensures r.Failure? ==> r.error == NoCookiePath
  {
    match h.filePath
    case Some(path) => Success(fs[path := Seal(env, h.config, h.jar)])
    case None => Failure(NoCookiePath)
  }

  /** `read`: when the handler's file exists its contents replace the jar;
      otherwise the handler is unchanged. Only the jar ever changes, and a
      decryption failure is an error, never an empty jar. */
  function Read(env: CookieEnv, h: CookieHandler, fs: Files): (r: Result<CookieHandler, CookieError>)
    ensures (h.filePath.None? || h.filePath.value !in fs) ==> r == Success(h)
    ensures r.Success? ==> r.value == h.(jar := r.value.jar)
    ensures r.Failure? <==>
              h.filePath.Some? && h.filePath.value in fs && Unseal(env, h.config, fs[h.filePath.value]).None?
    ensures r.Success? && h.filePath.Some? && h.filePath.value in fs ==>
              Some(r.value.jar) == Unseal(env, h.config, fs[h.filePath.value])
  {
    if h.filePath.Some? && h.filePath.value in fs then
      var path := h.filePath.value;
      match Unseal(env, h.config, fs[path])
      case Some(jar) => Success(h.(jar := jar))
      case None => Failure(DecryptFailed(path))
    else Success(h)
  }

  /** What re-reading the file at `path` does to a handler holding `jar`:
      no file keeps the jar, a file that unseals replaces it, and one that
      does not is a decryption failure. */
  predicate RereadAt(env: CookieEnv, config: CookieConfig, jar: Jar, fs: Files, path: string,
                     r: Result<CookieHandler, CookieError>) {
    && (r.Failure? <==> path in fs && Unseal(env, config, fs[path]).None?)
    && (r.Failure? ==> r.error == DecryptFailed(path))
    && (r.Success? && path !in fs ==> r.value.jar == jar)
    && (r.Success? && path in fs ==> Some(r.value.jar) == Unseal(env, config, fs[path]))
  }

  /** `setUrl`: new URL, new path, then a read-through. */
  function SetUrl(env: CookieEnv, h: CookieHandler, fs: Files, url: Option<string>): (r: Result<CookieHandler, CookieError>)
    ensures r.Success? ==> r.value.url == url && r.value.username == h.username && r.value.config == h.config
    ensures r.Success? ==> r.value.filePath == Some(FilePathFor(env, h.config, url, h.username))
    ensures RereadAt(env, h.config, h.jar, fs, FilePathFor(env, h.config, url, h.username), r)
  {
    Read(env, SetFilePath(env, h.(url := url)), fs)
  }

  /** `setUsername`: new username, new path, then a read-through. */
  function SetUsername(env: CookieEnv, h: CookieHandler, fs: Files, username: Option<string>): (r: Result<CookieHandler, CookieError>)
    ensures r.Success? ==> r.value.username == username && r.value.url == h.url && r.value.config == h.config
    ensures r.Success? ==> r.value.filePath == Some(FilePathFor(env, h.config, h.url, username))
    ensures RereadAt(env, h.config, h.jar, fs, FilePathFor(env, h.config, h.url, username), r)
  {
    Read(env, SetFilePath(env, h.(username := username)), fs)
  }

  /** The assumption under which a jar survives the disk: decrypting what
      was encrypted, and unserialising what was serialised, give it back. */
  predicate SealInverts(env: CookieEnv, config: CookieConfig, jar: Jar) {
    && env.unserialize(env.serialize(jar)) == jar
    && (config.encrypt ==> env.decrypt(env.encrypt(env.serialize(jar))) == Some(env.serialize(jar)))
  }

  /** Writing the jar and reading it back through the same path restores
      the written jar, whatever the handler holds in between. */
  lemma WriteReadRoundTrip(env: CookieEnv, h: CookieHandler, fs: Files, other: Jar)
    requires h.filePath.Some?
    requires SealInverts(env, h.config, h.jar)
    ensures Read(env, h.(jar := other), Write(env, h, fs).value) == Success(h)
  {
    var fs' := Write(env, h, fs).value;
    assert fs'[h.filePath.value] == Seal(env, h.config, h.jar);
    assert Unseal(env, h.config, Seal(env, h.config, h.jar)) == Some(h.jar);
  }

  /** A later session for the same host and username (any URL on that host,
      any jar in memory) gets back the jar an earlier session wrote. */
  lemma SameHostRestoresJar(env: CookieEnv, h: CookieHandler, fs: Files, later: CookieHandler, url: string)
    requires h.url.Some? && h.filePath == Some(FilePathFor(env, h.config, h.url, h.username))
    requires SealInverts(env, h.config, h.jar)
    requires later.config == h.config && later.username == h.username
    requires env.host(url) == env.host(h.url.value)
    ensures SetUrl(env, later, Write(env, h, fs).value, Some(url)).Success?
    ensures SetUrl(env, later, Write(env, h, fs).value, Some(url)).value.jar == h.jar
  {
    assert FilePathFor(env, h.config, Some(url), h.username) == h.filePath.value;
    var fs' := Write(env, h, fs).value;
    assert fs'[h.filePath.value] == Seal(env, h.config, h.jar);
  }

  /** Switching a handler on the same URL back to a username restores the
      jar that user's session wrote, whatever the handler held before. */
  lemma SwitchUserRestoresJar(env: CookieEnv, h: CookieHandler, fs: Files, later: CookieHandler)
    requires h.filePath == Some(FilePathFor(env, h.config, h.url, h.username))
    requires SealInverts(env, h.config, h.jar)
    requires later.config == h.config && later.url == h.url
    ensures SetUsername(env, later, Write(env, h, fs).value, h.username).Success?
    ensures SetUsername(env, later, Write(env, h, fs).value, h.username).value.jar == h.jar
  {
    var fs' := Write(env, h, fs).value;
    assert fs'[h.filePath.value] == Seal(env, h.config, h.jar);
  }

  /** A text that does not start with the pattern, and holds the pattern's
      first character nowhere else, is left alone. */
  lemma ReplaceMissesFront(x: string, pat: string, rep: string)
    requires 0 < |pat| <= |x|
    requires x[..|pat|] != pat
    requires pat[0] !in x[1..]
    ensures Replace(x, pat, rep) == x
  {
    ReplaceSkipsFree(x[1..], "", pat, rep);
    assert x[1..] + "" == x[1..];
    assert [x[0]] + x[1..] == x;
  }

  /** `{username}` followed by brace-free text has no `{domain}` in it. */
  lemma NoDomainInUsernameTail(c: string, d: string)
    requires '{' !in c
    ensures Replace(UsernamePlaceholder + c, DomainPlaceholder, d) == UsernamePlaceholder + c
  {
    var x := UsernamePlaceholder + c;
    assert x[1] == 'u';
    assert DomainPlaceholder[1] == 'd';
    assert x[1..] == UsernamePlaceholder[1..] + c;
    assert '{' !in UsernamePlaceholder[1..];
    ReplaceMissesFront(x, DomainPlaceholder, d);
  }

  /** The first pass of `formatFileName` on a two-placeholder template. */
  lemma DomainPass(a: string, b: string, c: string, d: string)
    requires '{' !in a && '{' !in b && '{' !in c
    ensures Replace(a + DomainPlaceholder + b + UsernamePlaceholder + c, DomainPlaceholder, d)
            == a + d + b + UsernamePlaceholder + c
  {
    var D := DomainPlaceholder;
    var U := UsernamePlaceholder;
    var t := b + (U + c);
    assert D[0] == '{';
    calc {
      Replace(a + D + b + U + c, D, d);
      { assert a + D + b + U + c == a + (D + t); }
      Replace(a + (D + t), D, d);
      { ReplaceSkipsFree(a, D + t, D, d); }
      a + Replace(D + t, D, d);
      { ReplaceAtFront(t, D, d); }
      a + (d + Replace(t, D, d));
      { ReplaceSkipsFree(b, U + c, D, d); }
      a + (d + (b + Replace(U + c, D, d)));
      { NoDomainInUsernameTail(c, d); }
      a + (d + (b + (U + c)));
      a + d + b + U + c;
    }
  }

  /** The second pass of `formatFileName`. */
  lemma UsernamePass(x: string, c: string, u: string)
    requires '{' !in x && '{' !in c
    ensures Replace(x + UsernamePlaceholder + c, UsernamePlaceholder, u) == x + u + c
  {
    var U := UsernamePlaceholder;
    assert x + U + c == x + (U + c);
    ReplaceSkipsFree(x, U + c, U, u);
    ReplaceAtFront(c, U, u);
    ReplaceSkipsFree(c, "", U, u);
    assert c + "" == c;
  }

  /** The shape of a file name: for a template `a{domain}b{username}c` whose
      fixed parts hold no brace, the name is `a`, the domain segment, `b`,
      the username segment and `c`, provided the domain segment holds no
      brace either (a `{username}` inside the host would be replaced too). */
  lemma FileNameShape(env: CookieEnv, config: CookieConfig, url: Option<string>, username: Option<string>,
                      a: string, b: string, c: string)
    requires config.fileName == a + DomainPlaceholder + b + UsernamePlaceholder + c
    requires '{' !in a && '{' !in b && '{' !in c
    requires '{' !in DomainSegment(env, url)
    ensures FormatFileName(env, config, url, username) ==
              a + DomainSegment(env, url) + b + UsernameSegment(username) + c
  {
    var d := DomainSegment(env, url);
    DomainPass(a, b, c, d);
    assert a + d + b + UsernamePlaceholder + c == (a + d + b) + UsernamePlaceholder + c;
    UsernamePass(a + d + b, c, UsernameSegment(username));
  }

  /** The shipped template splits around its two placeholders. */
  lemma DefaultTemplateParts()
    ensures DefaultTemplate == "" + DomainPlaceholder + "-" + UsernamePlaceholder + ".dat"
  {
  }

  /** With the shipped template, the name is the domain segment, `-`, the
      username segment and `.dat`, for any host free of braces. */
  lemma DefaultFileName(env: CookieEnv, config: CookieConfig, url: Option<string>, username: Option<string>)
    requires config.fileName == DefaultTemplate
    requires '{' !in DomainSegment(env, url)
    ensures FormatFileName(env, config, url, username) == DomainSegment(env, url) + "-" + UsernameSegment(username) + ".dat"
  {
    DefaultTemplateParts();
    FileNameShape(env, config, url, username, "", "-", ".dat");
    assert "" + DomainSegment(env, url) == DomainSegment(env, url);
  }

  /** The host used in the examples below is its own domain segment. */
  lemma ExampleDomain(env: CookieEnv, url: string)
    requires env.host(url) == Some("example.com")
    ensures DomainSegment(env, Some(url)) == "example.com"
    ensures '{' !in DomainSegment(env, Some(url))
  {
    assert '/' !in "example.com";
  }

  /** The shipped template with `example.com` and a plain username such as
      `alice` gives `example.com-alice.dat`. */
  lemma DefaultFileNameForUser(env: CookieEnv, config: CookieConfig, url: string, name: string)
    requires config.fileName == DefaultTemplate
    requires env.host(url) == Some("example.com")
    requires Truthy(name) && '/' !in name
    ensures FormatFileName(env, config, Some(url), Some(name)) == "example.com" + "-" + name + ".dat"
  {
    ExampleDomain(env, url);
    DefaultFileName(env, config, Some(url), Some(name));
  }

  /** The shipped template with `example.com` and a falsy username (null,
      "" or "0") gives `example.com-unauthenticated.dat`. */
  lemma DefaultFileNameUnauthenticated(env: CookieEnv, config: CookieConfig, url: string, username: Option<string>)
    requires config.fileName == DefaultTemplate
    requires env.host(url) == Some("example.com")
    requires !TruthyOpt(username)
    ensures FormatFileName(env, config, Some(url), username) == "example.com" + "-" + Unauthenticated + ".dat"
  {
    ExampleDomain(env, url);
    DefaultFileName(env, config, Some(url), username);
  }
}
