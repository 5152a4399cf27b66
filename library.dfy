/**
 * The library calls the request builder makes, kept abstract. Each is a
 * function-valued field of `Lib`, so the model states the builder's own rules
 * for every behaviour of the libraries rather than for one implementation.
 */
module Library {
  import opened Wrappers
  import opened Multimap

  /** A non-nil Go value the builder only stores and passes on (a pointer to a query struct, an io.Reader, an *http.Client). */
  type Handle = nat

  /**
   * A parsed `*url.URL`. `location` stands for every component except the
   * raw query (scheme, user info, host, path, fragment), which the builder
   * never inspects; `rawQuery` is the `RawQuery` field that the builder
   * rewrites.
   */
  datatype URL = URL(location: string, rawQuery: string)

  /**
   * `http.CanonicalHeaderKey`: any key function, provided canonicalising a
   * canonical key leaves it as it is (true of the real function).
   */
  type Canonicalizer = f: string -> string | forall k :: f(f(k)) == f(k)
    witness k => k

  /** The `BodyProvider` values the builder creates or is given. */
  datatype Provider =
    | ReaderBody(reader: Handle)       // bodyProvider{body}, from Body
    | JSONBody(payload: Handle)        // jsonBodyProvider{payload}, from BodyJSON
    | FormBody(payload: Handle)        // formBodyProvider{payload}, from BodyForm
    | CustomBody(provider: Handle)     // any other implementation passed to BodyProvider

  /** The `Doer` a builder sends through: `http.DefaultClient`, an `*http.Client`, or another `Doer`. */
  datatype Doer = DefaultClient | HTTPClient(client: Handle) | CustomDoer(doer: Handle)

  datatype Lib = Lib(
    parseURL: string -> Result<URL, string>,            // url.Parse
    resolve: (URL, URL) -> URL,                         // (*url.URL).ResolveReference (RFC 3986, section 5.2)
    format: URL -> string,                              // (*url.URL).String
    parseQuery: string -> Result<Values, string>,       // url.ParseQuery
    encodeQuery: Values -> string,                      // url.Values.Encode
    queryValues: Handle -> Result<Values, string>,      // go-querystring's query.Values
    canonicalKey: Canonicalizer,                        // http.CanonicalHeaderKey
    base64: string -> string,                           // base64.StdEncoding.EncodeToString
    contentType: Provider -> string,                    // BodyProvider.ContentType
    body: Provider -> Result<Handle, string>,           // BodyProvider.Body
    newRequestError: (string, string) -> Option<string>, // the error http.NewRequest returns for a method and URL, if any
    contentTypeHeader: string                           // the package constant contentType, a header name
  )
}
