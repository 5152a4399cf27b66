/**
 * The request builder of gorest.go: a `RestClient` record that chained calls
 * update in place, the helpers that turn it into an HTTP request
 * (`addQueryStructs`, `addHeaders`), and the status test of `Receive`.
 */
module Gorest {
  import opened Wrappers
  import Multimap
  import opened Library

  type Values = Multimap.Values

  // =====================================================================
  // Headers: http.Header.Add and http.Header.Set on canonical keys
  // =====================================================================

  /** Every key of `h` is already in canonical form. */
  ghost predicate CanonicalKeys(canon: Canonicalizer, h: Values)
  {
    forall k | k in h :: canon(k) == k
  }

  /** `h.Add(key, value)`: appends `value` to the values of the canonical key. */
  function HeaderAdd(canon: Canonicalizer, h: Values, key: string, value: string): (r: Values)
    ensures Multimap.Get(r, canon(key)) == Multimap.Get(h, canon(key)) + [value]
    ensures forall k :: k != canon(key) ==> Multimap.Get(r, k) == Multimap.Get(h, k)
    ensures r.Keys == h.Keys + {canon(key)}
    ensures CanonicalKeys(canon, h) ==> CanonicalKeys(canon, r)
  {
    Multimap.AddValue(h, canon(key), value)
  }

  /** `h.Set(key, value)`: the canonical key's values become exactly `[value]`. */
  function HeaderSet(canon: Canonicalizer, h: Values, key: string, value: string): (r: Values)
    ensures Multimap.Get(r, canon(key)) == [value]
    ensures forall k :: k != canon(key) ==> Multimap.Get(r, k) == Multimap.Get(h, k)
    ensures r.Keys == h.Keys + {canon(key)}
    ensures CanonicalKeys(canon, h) ==> CanonicalKeys(canon, r)
  {
    h[canon(key) := [value]]
  }

  /** `Set` discards whatever `Add` put under the same header before it. */
  lemma SetOverridesAdd(canon: Canonicalizer, h: Values, key: string, key': string, v: string, v': string)
    requires canon(key) == canon(key')
    ensures HeaderSet(canon, HeaderAdd(canon, h, key, v), key', v') == HeaderSet(canon, h, key', v')
  {
  }

  // =====================================================================
  // Basic authentication: basicAuth
  // =====================================================================

  /** The string basicAuth encodes: `username + ":" + password`. */
  function Credentials(username: string, password: string): string
  {
    username + ":" + password
  }

  /** basicAuth: the base64 encoding of the credentials. */
  function BasicAuth(lib: Lib, username: string, password: string): string
  {
    lib.base64(Credentials(username, password))
  }

  /**
   * What a server recovers from decoded credentials (RFC 7617, section 2):
   * the user-id ends at the first colon.
   */
  function SplitCredentials(s: string): Option<(string, string)>
  {
    if s == [] then None
    else if s[0] == ':' then Some(([], s[1..]))
    else
      match SplitCredentials(s[1..])
      case None => None
      case Some(pair) => Some(([s[0]] + pair.0, pair.1))
  }

  /** The credentials basicAuth encodes give back the user name and password, as long as the name has no colon. */
  lemma {:induction false} CredentialsRoundTrip(username: string, password: string)
    requires ':' !in username
    ensures SplitCredentials(Credentials(username, password)) == Some((username, password))
  {
    if username == [] {
      assert Credentials(username, password) == [':'] + password;
    } else {
      var s := Credentials(username, password);
      assert s[0] == username[0];
      assert s[1..] == Credentials(username[1..], password);
      CredentialsRoundTrip(username[1..], password);
      assert [username[0]] + username[1..] == username;
    }
  }

  /** A name with a colon makes the credentials ambiguous: two different pairs encode alike. */
  lemma ColonInUsernameIsAmbiguous()
    ensures Credentials("a:b", "c") == Credentials("a", "b:c")
    ensures SplitCredentials(Credentials("a:b", "c")) == Some(("a", "b:c"))
  {
    assert Credentials("a:b", "c") == "a:b:c";
    assert "a:b:c"[1..] == ":b:c";
    assert ":b:c"[1..] == "b:c";
    assert SplitCredentials(":b:c") == Some(([], "b:c"));
    assert ['a'] + [] == "a";
  }

  // =====================================================================
  // URLs: Path resolves against the current raw URL, failing soft
  // =====================================================================

  /**
   * The raw URL after `Path(path)`: the resolution of `path` against the
   * current raw URL when both parse, otherwise the current raw URL.
   */
  function ResolvePath(lib: Lib, rawURL: string, path: string): string
  {
    match (lib.parseURL(rawURL), lib.parseURL(path))
    case (Success(baseURL), Success(pathURL)) => lib.format(lib.resolve(baseURL, pathURL))
    case _ => rawURL
  }

  /** The raw URL after a chain of `Path` calls. */
  function ResolvePaths(lib: Lib, rawURL: string, paths: seq<string>): string
    decreases |paths|
  {
    if paths == [] then rawURL else ResolvePaths(lib, ResolvePath(lib, rawURL, paths[0]), paths[1..])
  }

  /** The paths of `paths` that parse, in order. */
  function Parsable(lib: Lib, paths: seq<string>): (r: seq<string>)
    ensures forall p :: p in r <==> p in paths && lib.parseURL(p).Success?
  {
    if paths == [] then []
    else (if lib.parseURL(paths[0]).Success? then [paths[0]] else []) + Parsable(lib, paths[1..])
  }

  /** In a chain of `Path` calls, a path that fails to parse is skipped: the chain ends where the parsable paths alone lead. */
  lemma {:induction false} UnparsablePathsSkipped(lib: Lib, rawURL: string, paths: seq<string>)
    ensures ResolvePaths(lib, rawURL, paths) == ResolvePaths(lib, rawURL, Parsable(lib, paths))
    decreases |paths|
  {
    if paths != [] {
      var next := ResolvePath(lib, rawURL, paths[0]);
      UnparsablePathsSkipped(lib, next, paths[1..]);
      if lib.parseURL(paths[0]).Success? {
        assert Parsable(lib, paths) == [paths[0]] + Parsable(lib, paths[1..]);
        assert Parsable(lib, paths)[1..] == Parsable(lib, paths[1..]);
      } else {
        assert Parsable(lib, paths) == Parsable(lib, paths[1..]);
      }
    }
  }

  /** A raw URL that fails to parse stays as it is through every chain of `Path` calls. */
  lemma {:induction false} UnparsableBaseIsKept(lib: Lib, rawURL: string, paths: seq<string>)
    requires lib.parseURL(rawURL).Failure?
    ensures ResolvePaths(lib, rawURL, paths) == rawURL
    decreases |paths|
  {
    if paths != [] {
      UnparsableBaseIsKept(lib, rawURL, paths[1..]);
    }
  }

  // =====================================================================
  // addQueryStructs
  // =====================================================================

  /**
   * go-querystring's conversion of each query struct, in list order: the
   * converted multimaps, or the error of the first struct that fails.
   */
  function EncodeStructs(lib: Lib, queryStructs: seq<Handle>): Result<seq<Values>, string>
  {
    if queryStructs == [] then Success([])
    else
      match EncodeStructs(lib, queryStructs[..|queryStructs| - 1])
      case Failure(e) => Failure(e)
      case Success(init) =>
        match lib.queryValues(queryStructs[|queryStructs| - 1])
        case Failure(e) => Failure(e)
        case Success(last) => Success(init + [last])
  }

  /**
   * Conversion succeeds with one multimap per struct exactly when every
   * struct converts; otherwise it fails with the error of the first struct
   * that does not.
   */
  lemma {:induction false} EncodeStructsMeaning(lib: Lib, queryStructs: seq<Handle>)
    ensures EncodeStructs(lib, queryStructs).Success? ==>
      var vs := EncodeStructs(lib, queryStructs).value;
      |vs| == |queryStructs| &&
      forall i :: 0 <= i < |queryStructs| ==> lib.queryValues(queryStructs[i]) == Success(vs[i])
    ensures EncodeStructs(lib, queryStructs).Failure? ==>
      exists i :: 0 <= i < |queryStructs| &&
        lib.queryValues(queryStructs[i]) == Failure(EncodeStructs(lib, queryStructs).error) &&
        forall j :: 0 <= j < i ==> lib.queryValues(queryStructs[j]).Success?
  {
    if queryStructs != [] {
      var n := |queryStructs| - 1;
      var init := queryStructs[..n];
      EncodeStructsMeaning(lib, init);
      match EncodeStructs(lib, init)
      case Failure(e) =>
        var i :| 0 <= i < |init| && lib.queryValues(init[i]) == Failure(e) &&
          forall j :: 0 <= j < i ==> lib.queryValues(init[j]).Success?;
        assert queryStructs[i] == init[i];
        assert forall j :: 0 <= j < i ==> queryStructs[j] == init[j];
      case Success(vs) =>
        assert forall j :: 0 <= j < n ==> queryStructs[j] == init[j];
        match lib.queryValues(queryStructs[n])
        case Failure(e) =>
          assert forall j :: 0 <= j < n ==> lib.queryValues(queryStructs[j]).Success?;
        case Success(last) =>
    }
  }

  /** Once a prefix of the struct list fails to convert, the whole list fails with the same error. */
  lemma {:induction false} EncodeStructsFailurePersists(lib: Lib, queryStructs: seq<Handle>, i: nat)
    requires i <= |queryStructs|
    requires EncodeStructs(lib, queryStructs[..i]).Failure?
    ensures EncodeStructs(lib, queryStructs) == EncodeStructs(lib, queryStructs[..i])
    decreases |queryStructs| - i
  {
    if i < |queryStructs| {
      assert queryStructs[..i + 1][..i] == queryStructs[..i];
      EncodeStructsFailurePersists(lib, queryStructs, i + 1);
    } else {
      assert queryStructs[..i] == queryStructs;
    }
  }

  /**
   * The URL addQueryStructs leaves behind: the raw query parsed, every
   * struct's values added after the existing ones, and the whole encoded
   * back into the raw query; or the first error met.
   */
  function QueryResult(lib: Lib, reqURL: URL, queryStructs: seq<Handle>): Result<URL, string>
  {
    match lib.parseQuery(reqURL.rawQuery)
    case Failure(e) => Failure(e)
    case Success(urlValues) =>
      match EncodeStructs(lib, queryStructs)
      case Failure(e) => Failure(e)
      case Success(vs) => Success(reqURL.(rawQuery := lib.encodeQuery(Multimap.MergeAll(urlValues, vs))))
  }

  /**
   * addQueryStructs. The URL is a local of `Request` reached through a
   * pointer; here it is passed in and the updated URL handed back.
   */
  method AddQueryStructs(lib: Lib, reqURL: URL, queryStructs: seq<Handle>) returns (u: URL, err: Option<string>)
    ensures err.None? ==> QueryResult(lib, reqURL, queryStructs) == Success(u)
    ensures err.Some? ==> QueryResult(lib, reqURL, queryStructs) == Failure(err.value) && u == reqURL
  {
    var parsed := lib.parseQuery(reqURL.rawQuery);
    if parsed.Failure? {
      return reqURL, Some(parsed.error);
    }
    var urlValues := parsed.value;
    ghost var done: seq<Values> := [];
    var i := 0;
    while i < |queryStructs|
      invariant 0 <= i <= |queryStructs|
      invariant EncodeStructs(lib, queryStructs[..i]) == Success(done)
      invariant urlValues == Multimap.MergeAll(parsed.value, done)
    {
      var converted := lib.queryValues(queryStructs[i]);
      assert queryStructs[..i + 1][..i] == queryStructs[..i];
      if converted.Failure? {
        EncodeStructsFailurePersists(lib, queryStructs, i + 1);
        return reqURL, Some(converted.error);
      }
      var queryValues := converted.value;
      urlValues := Multimap.AddEach(urlValues, queryValues);
      done := done + [queryValues];
      i := i + 1;
    }
    assert queryStructs[..i] == queryStructs;
    u := reqURL.(rawQuery := lib.encodeQuery(urlValues));
    err := None;
  }

  // =====================================================================
  // Requests: addHeaders and Request
  // =====================================================================

  /** The `*http.Request` a builder produces; only its header is changed after creation. */
  class HttpRequest {
    const httpMethod: string
    const url: string
    const body: Option<Handle>
    var header: Values

    /** http.NewRequest on a method, URL and body that it accepts: no header yet. */
    constructor (httpMethod: string, url: string, body: Option<Handle>)
      ensures this.httpMethod == httpMethod && this.url == url && this.body == body && header == map[]
    {
      this.httpMethod := httpMethod;
      this.url := url;
      this.body := body;
      header := map[];
    }

    /** The request as a value. */
    function Value(): RequestValue
      reads this
    {
      RequestValue(httpMethod, url, body, header)
    }
  }

  datatype RequestValue = RequestValue(httpMethod: string, url: string, body: Option<Handle>, header: Values)

  /**
   * addHeaders: every value of the builder's header is added to the
   * request's header under the same key, after the values already there.
   * The builder's keys are canonical, so the request's own canonicalisation
   * leaves them as they are.
   */
  method AddHeaders(lib: Lib, req: HttpRequest, header: Values)
    requires CanonicalKeys(lib.canonicalKey, header)
    modifies req`header
    ensures req.header == Multimap.AddAll(old(req.header), header)
  {
    var keys := header.Keys;
    ghost var visited: set<string> := {};
    assert Multimap.Restrict(header, visited) == map[];
    Multimap.AddAllEmpty(req.header);
    while keys != {}
      invariant keys + visited == header.Keys && keys !! visited
      invariant req.header == Multimap.AddAll(old(req.header), Multimap.Restrict(header, visited))
      decreases keys
    {
      var key :| key in keys;
      var values := header[key];
      ghost var start := req.header;
      var j := 0;
      while j < |values|
        invariant 0 <= j <= |values|
        invariant req.header == Multimap.AddValues(start, key, values[..j])
      {
        Multimap.AddValuesStep(start, key, values, j);
        req.header := HeaderAdd(lib.canonicalKey, req.header, key, values[j]);
        j := j + 1;
      }
      assert values[..j] == values;
      Multimap.AddAllStep(old(req.header), header, visited, key);
      keys := keys - {key};
      visited := visited + {key};
    }
    assert visited == header.Keys;
    Multimap.RestrictAll(header);
  }

  /**
   * The request built from a builder's fields, or the first error: an
   * unparsable raw URL, a failing query struct, a failing body provider, or
   * a request `http.NewRequest` refuses.
   */
  function BuildRequest(lib: Lib, httpMethod: string, rawURL: string, header: Values,
                        queryStructs: seq<Handle>, bodyProvider: Option<Provider>): Result<RequestValue, string>
  {
    match lib.parseURL(rawURL)
    case Failure(e) => Failure(e)
    case Success(parsed) =>
      match QueryResult(lib, parsed, queryStructs)
      case Failure(e) => Failure(e)
      case Success(reqURL) =>
        var body := if bodyProvider.None? then Success(None) else
          match lib.body(bodyProvider.value)
          case Failure(e) => Failure(e)
          case Success(b) => Success(Some(b));
        match body
        case Failure(e) => Failure(e)
        case Success(b) =>
          var url := lib.format(reqURL);
          match lib.newRequestError(httpMethod, url)
          case Some(e) => Failure(e)
          case None => Success(RequestValue(httpMethod, url, b, Multimap.AddAll(map[], header)))
  }

  /** A built request carries exactly the builder's method and header. */
  lemma BuiltRequestCarriesBuilder(lib: Lib, httpMethod: string, rawURL: string, header: Values,
                                   queryStructs: seq<Handle>, bodyProvider: Option<Provider>)
    requires forall k | k in header :: header[k] != []
    requires BuildRequest(lib, httpMethod, rawURL, header, queryStructs, bodyProvider).Success?
    ensures BuildRequest(lib, httpMethod, rawURL, header, queryStructs, bodyProvider).value.httpMethod == httpMethod
    ensures BuildRequest(lib, httpMethod, rawURL, header, queryStructs, bodyProvider).value.header == header
  {
    var built := Multimap.AddAll(map[], header);
    forall k | k in header
      ensures k in built && built[k] == header[k]
    {
      Multimap.AddAllGet(map[], header, k);
    }
  }

  // =====================================================================
  // Receive: the status classification
  // =====================================================================

  /** The status codes Receive treats as success: 2XX. */
  predicate IsSuccess(code: int)
  {
    200 <= code <= 299
  }

  /** The errors Receive returns once a response has been read. */
  datatype ReceiveError =
    | APIError(body: string)                      // a failure status: the message is the body itself
    | DecodeError(cause: string, body: string)    // the success destination did not decode

  /** `s` ends with `t`. */
  predicate EndsWith(s: string, t: string)
  {
    |t| <= |s| && s[|s| - |t|..] == t
  }

  /** The text of each error, with the decode message's fixed wording. */
  function ErrorMessage(e: ReceiveError): string
  {
    match e
    case APIError(body) => body
    case DecodeError(cause, body) => "parse message body err: " + cause + ", message: " + body
  }

  /**
   * The outcome of Receive for a response with status `code` and body
   * `body`. `value` is the success destination (None for nil) and
   * `unmarshal` gives json.Unmarshal's error, if any.
   */
  function CheckResponse(code: int, body: string, value: Option<Handle>,
                         unmarshal: (string, Handle) -> Option<string>): (r: Option<ReceiveError>)
    ensures r.None? <==> IsSuccess(code) && (value.None? || unmarshal(body, value.value).None?)
    ensures !IsSuccess(code) ==> r == Some(APIError(body))
    ensures r.Some? ==> EndsWith(ErrorMessage(r.value), body)
    ensures r.Some? && IsSuccess(code) ==> r.value.DecodeError? && value.Some?
  {
    if code < 200 || code > 299 then Some(APIError(body))
    else if value.Some? then
      match unmarshal(body, value.value)
      case Some(cause) => Some(DecodeError(cause, body))
      case None => None
    else None
  }

  // =====================================================================
  // The builder
  // =====================================================================

  /** The header value a body provider adds: its content type, when it has one. */
  function WithContentType(lib: Lib, h: Values, provider: Provider): Values
  {
    var ct := lib.contentType(provider);
    if ct != "" then HeaderSet(lib.canonicalKey, h, lib.contentTypeHeader, ct) else h
  }

  /** RestClient: an HTTP request builder whose chained calls update it in place and return it. */
  class RestClient {
    var httpClient: Doer
    var httpMethod: string
    var rawURL: string
    var header: Values
    var queryStructs: seq<Handle>
    var bodyProvider: Option<Provider>

    /** Every header key is canonical and carries at least one value. */
    ghost predicate Valid(canon: Canonicalizer)
      reads this
    {
      CanonicalKeys(canon, header) && forall k | k in header :: header[k] != []
    }

    /** New: a GET builder on the default client, with no URL, header, query or body. */
    constructor ()
      ensures httpClient == DefaultClient && httpMethod == "GET" && rawURL == ""
      ensures header == map[] && queryStructs == [] && bodyProvider == None
    {
      httpClient := DefaultClient;
      httpMethod := "GET";
      rawURL := "";
      header := map[];
      queryStructs := [];
      bodyProvider := None;
    }

    /** (*RestClient).New: a new builder with the same fields and its own header map and query list. */
    method New() returns (c: RestClient)
      ensures fresh(c)
      ensures c.httpClient == httpClient && c.httpMethod == httpMethod && c.rawURL == rawURL
      ensures c.header == header && c.queryStructs == queryStructs && c.bodyProvider == bodyProvider
    {
      var headerCopy: Values := map[];
      var keys := header.Keys;
      while keys != {}
        invariant keys <= header.Keys
        invariant headerCopy == map k | k in header && k !in keys :: header[k]
        decreases keys
      {
        var k :| k in keys;
        headerCopy := headerCopy[k := header[k]];
        keys := keys - {k};
      }
      c := new RestClient();
      c.httpClient := httpClient;
      c.httpMethod := httpMethod;
      c.rawURL := rawURL;
      c.header := headerCopy;
      c.queryStructs := queryStructs;
      c.bodyProvider := bodyProvider;
    }

    /** Client: the given *http.Client, or http.DefaultClient for nil. */
    method Client(client: Option<Handle>) returns (r: RestClient)
      modifies this`httpClient
      ensures r == this
      ensures httpClient == if client.Some? then HTTPClient(client.value) else DefaultClient
    {
      if client.None? {
        r := Doer(Some(DefaultClient));
      } else {
        r := Doer(Some(HTTPClient(client.value)));
      }
    }

    /** Doer: the given Doer, or http.DefaultClient for nil. */
    method Doer(doer: Option<Library.Doer>) returns (r: RestClient)
      modifies this`httpClient
      ensures r == this
      ensures httpClient == if doer.Some? then doer.value else DefaultClient
    {
      if doer.None? {
        httpClient := DefaultClient;
      } else {
        httpClient := doer.value;
      }
      r := this;
    }

    /** Head: method HEAD, then Path(pathURL). */
    method Head(lib: Lib, pathURL: string) returns (r: RestClient)
      modifies this`httpMethod, this`rawURL
      ensures r == this && httpMethod == "HEAD" && rawURL == ResolvePath(lib, old(rawURL), pathURL)
    {
      httpMethod := "HEAD";
      r := Path(lib, pathURL);
    }

    /** Get: method GET, then Path(pathURL). */
    method Get(lib: Lib, pathURL: string) returns (r: RestClient)
      modifies this`httpMethod, this`rawURL
      ensures r == this && httpMethod == "GET" && rawURL == ResolvePath(lib, old(rawURL), pathURL)
    {
      httpMethod := "GET";
      r := Path(lib, pathURL);
    }

    /** Post: method POST, then Path(pathURL). */
    method Post(lib: Lib, pathURL: string) returns (r: RestClient)
      modifies this`httpMethod, this`rawURL
      ensures r == this && httpMethod == "POST" && rawURL == ResolvePath(lib, old(rawURL), pathURL)
    {
      httpMethod := "POST";
      r := Path(lib, pathURL);
    }

    /** Put: method PUT, then Path(pathURL). */
    method Put(lib: Lib, pathURL: string) returns (r: RestClient)
      modifies this`httpMethod, this`rawURL
      ensures r == this && httpMethod == "PUT" && rawURL == ResolvePath(lib, old(rawURL), pathURL)
    {
      httpMethod := "PUT";
      r := Path(lib, pathURL);
    }

    /** Patch: method PATCH, then Path(pathURL). */
    method Patch(lib: Lib, pathURL: string) returns (r: RestClient)
      modifies this`httpMethod, this`rawURL
      ensures r == this && httpMethod == "PATCH" && rawURL == ResolvePath(lib, old(rawURL), pathURL)
    {
      httpMethod := "PATCH";
      r := Path(lib, pathURL);
    }

    /** Delete: method DELETE, then Path(pathURL). */
    method Delete(lib: Lib, pathURL: string) returns (r: RestClient)
      modifies this`httpMethod, this`rawURL
      ensures r == this && httpMethod == "DELETE" && rawURL == ResolvePath(lib, old(rawURL), pathURL)
    {
      httpMethod := "DELETE";
      r := Path(lib, pathURL);
    }

    /** Add: appends a header value under the canonical key. */
    method Add(lib: Lib, key: string, value: string) returns (r: RestClient)
      requires Valid(lib.canonicalKey)
      modifies this`header
      ensures r == this && Valid(lib.canonicalKey)
      ensures header == HeaderAdd(lib.canonicalKey, old(header), key, value)
    {
      header := HeaderAdd(lib.canonicalKey, header, key, value);
      r := this;
    }

    /** Set: replaces the canonical key's header values with `value`. */
    method Set(lib: Lib, key: string, value: string) returns (r: RestClient)
      requires Valid(lib.canonicalKey)
      modifies this`header
      ensures r == this && Valid(lib.canonicalKey)
      ensures header == HeaderSet(lib.canonicalKey, old(header), key, value)
    {
      header := HeaderSet(lib.canonicalKey, header, key, value);
      r := this;
    }

    /** SetBasicAuth: Set("Authorization", "Basic " + basicAuth(username, password)). */
    method SetBasicAuth(lib: Lib, username: string, password: string) returns (r: RestClient)
      requires Valid(lib.canonicalKey)
      modifies this`header
      ensures r == this && Valid(lib.canonicalKey)
      ensures header == HeaderSet(lib.canonicalKey, old(header), "Authorization", "Basic " + BasicAuth(lib, username, password))
    {
      r := Set(lib, "Authorization", "Basic " + BasicAuth(lib, username, password));
    }

    /** Base: sets the raw URL unconditionally. */
    method Base(rawURL: string) returns (r: RestClient)
      modifies this`rawURL
      ensures r == this && this.rawURL == rawURL
    {
      this.rawURL := rawURL;
      r := this;
    }

    /** Path: resolves `path` against the raw URL; leaves it unchanged when either fails to parse. */
    method Path(lib: Lib, path: string) returns (r: RestClient)
      modifies this`rawURL
      ensures r == this && rawURL == ResolvePath(lib, old(rawURL), path)
    {
      var baseURL := lib.parseURL(rawURL);
      var pathURL := lib.parseURL(path);
      if baseURL.Success? && pathURL.Success? {
        rawURL := lib.format(lib.resolve(baseURL.value, pathURL.value));
        return this;
      }
      return this;
    }

    /** QueryStruct: appends a non-nil query struct; nil changes nothing. */
    method QueryStruct(queryStruct: Option<Handle>) returns (r: RestClient)
      modifies this`queryStructs
      ensures r == this
      ensures queryStructs == old(queryStructs) + if queryStruct.Some? then [queryStruct.value] else []
    {
      if queryStruct.Some? {
        queryStructs := queryStructs + [queryStruct.value];
      }
      r := this;
    }

    /** Body: a non-nil reader becomes the body provider; nil changes nothing. */
    method Body(lib: Lib, body: Option<Handle>) returns (r: RestClient)
      requires Valid(lib.canonicalKey)
      modifies this`bodyProvider, this`header
      ensures r == this && Valid(lib.canonicalKey)
      ensures body.None? ==> bodyProvider == old(bodyProvider) && header == old(header)
      ensures body.Some? ==> bodyProvider == Some(ReaderBody(body.value))
      ensures body.Some? ==> header == WithContentType(lib, old(header), ReaderBody(body.value))
    {
      if body.None? {
        return this;
      }
      r := BodyProvider(lib, Some(ReaderBody(body.value)));
    }

    /**
     * BodyProvider: a non-nil provider becomes the body provider and, when
     * its content type is not empty, the Content-Type header is set to it;
     * nil changes nothing.
     */
    method BodyProvider(lib: Lib, body: Option<Provider>) returns (r: RestClient)
      requires Valid(lib.canonicalKey)
      modifies this`bodyProvider, this`header
      ensures r == this && Valid(lib.canonicalKey)
      ensures body.None? ==> bodyProvider == old(bodyProvider) && header == old(header)
      ensures body.Some? ==> bodyProvider == body && header == WithContentType(lib, old(header), body.value)
    {
      if body.None? {
        return this;
      }
      bodyProvider := body;
      var ct := lib.contentType(body.value);
      if ct != "" {
        var _ := Set(lib, lib.contentTypeHeader, ct);
      }
      r := this;
    }

    /** BodyJSON: a non-nil payload becomes a JSON body provider; nil changes nothing. */
    method BodyJSON(lib: Lib, bodyJSON: Option<Handle>) returns (r: RestClient)
      requires Valid(lib.canonicalKey)
      modifies this`bodyProvider, this`header
      ensures r == this && Valid(lib.canonicalKey)
      ensures bodyJSON.None? ==> bodyProvider == old(bodyProvider) && header == old(header)
      ensures bodyJSON.Some? ==> bodyProvider == Some(JSONBody(bodyJSON.value))
      ensures bodyJSON.Some? ==> header == WithContentType(lib, old(header), JSONBody(bodyJSON.value))
    {
      if bodyJSON.None? {
        return this;
      }
      r := BodyProvider(lib, Some(JSONBody(bodyJSON.value)));
    }

    /** BodyForm: a non-nil payload becomes a form body provider; nil changes nothing. */
    method BodyForm(lib: Lib, bodyForm: Option<Handle>) returns (r: RestClient)
      requires Valid(lib.canonicalKey)
      modifies this`bodyProvider, this`header
      ensures r == this && Valid(lib.canonicalKey)
      ensures bodyForm.None? ==> bodyProvider == old(bodyProvider) && header == old(header)
      ensures bodyForm.Some? ==> bodyProvider == Some(FormBody(bodyForm.value))
      ensures bodyForm.Some? ==> header == WithContentType(lib, old(header), FormBody(bodyForm.value))
    {
      if bodyForm.None? {
        return this;
      }
      r := BodyProvider(lib, Some(FormBody(bodyForm.value)));
    }

    /** Request: a new request built from the builder's fields, or the first error. */
    method Request(lib: Lib) returns (r: Result<HttpRequest, string>)
      requires Valid(lib.canonicalKey)
      ensures r.Failure? ==> BuildRequest(lib, httpMethod, rawURL, header, queryStructs, bodyProvider) == Failure(r.error)
      ensures r.Success? ==>
        fresh(r.value) && BuildRequest(lib, httpMethod, rawURL, header, queryStructs, bodyProvider) == Success(r.value.Value())
    {
      var parsed := lib.parseURL(rawURL);
      if parsed.Failure? {
        return Failure(parsed.error);
      }
      var reqURL, err := AddQueryStructs(lib, parsed.value, queryStructs);
      if err.Some? {
        return Failure(err.value);
      }
      var body: Option<Handle> := None;
      if bodyProvider.Some? {
        var b := lib.body(bodyProvider.value);
        if b.Failure? {
          return Failure(b.error);
        }
        body := Some(b.value);
      }
      var url := lib.format(reqURL);
      var refused := lib.newRequestError(httpMethod, url);
      if refused.Some? {
        return Failure(refused.value);
      }
      var req := new HttpRequest(httpMethod, url, body);
      AddHeaders(lib, req, header);
      r := Success(req);
    }
  }

  // =====================================================================
  // Clones are independent of their parent
  // =====================================================================

  /**
   * A clone's Set and QueryStruct change only the clone: the parent is not
   * in any frame here, and the clone ends with the parent's fields plus the
   * edits.
   */
  method EditCloneOnly(lib: Lib, parent: RestClient, key: string, value: string, queryStruct: Handle)
    returns (child: RestClient)
    requires parent.Valid(lib.canonicalKey)
    ensures child != parent
    ensures child.header == HeaderSet(lib.canonicalKey, parent.header, key, value)
    ensures child.queryStructs == parent.queryStructs + [queryStruct]
    ensures child.httpMethod == parent.httpMethod && child.rawURL == parent.rawURL
    ensures child.httpClient == parent.httpClient && child.bodyProvider == parent.bodyProvider
  {
    child := parent.New();
    var _ := child.Set(lib, key, value);
    var _ := child.QueryStruct(Some(queryStruct));
  }

  /** The parent's Set and QueryStruct after cloning leave the clone as the parent was. */
  method EditParentAfterClone(lib: Lib, parent: RestClient, key: string, value: string, queryStruct: Handle)
    returns (child: RestClient)
    requires parent.Valid(lib.canonicalKey)
    modifies parent
    ensures fresh(child)
    ensures child.header == old(parent.header) && child.queryStructs == old(parent.queryStructs)
    ensures parent.header == HeaderSet(lib.canonicalKey, old(parent.header), key, value)
    ensures parent.queryStructs == old(parent.queryStructs) + [queryStruct]
  {
    child := parent.New();
    var _ := parent.Set(lib, key, value);
    var _ := parent.QueryStruct(Some(queryStruct));
  }
}
