# gorest request builder, modelled in Dafny

gorest is a fluent HTTP request builder for Go. A `RestClient` holds a small
record: the `Doer` that sends requests, the HTTP method, a raw URL string, a
header multimap, an ordered list of query structs and a body provider.
Chained calls (`Get`, `Path`, `Add`, `Set`, `QueryStruct`, `BodyJSON`, ...)
update that record in place and return the same builder. `Request` turns the
record into an `*http.Request`: it parses the raw URL, merges every query
struct into the query string (`addQueryStructs`), asks the body provider for
the body and copies the header onto the request (`addHeaders`). `Receive`
sends the request and classifies the response status.

The model keeps that shape:

- `wrappers.dfy` (`Wrappers`): `Option` for Go's nil, `Result` for
  `(value, err)` returns.
- `multimap.dfy` (`Multimap`): `url.Values` / `http.Header` as
  `map<string, seq<string>>`; `AddValue` is one `Add`, `AddAll` the additive
  merge, `MergeAll` the merge of a list of multimaps, and the loop `AddEach`
  that performs one merge the way the Go code does.
- `library.dfy` (`Library`): the library calls the builder makes, as
  function-valued fields of a `Lib` record that every operation takes as a
  parameter: URL parsing, reference resolution and formatting, query parsing
  and encoding, go-querystring's struct conversion, header-key
  canonicalisation (any function that is idempotent, as the real one is),
  base64, and the body provider's content type and body.
- `gorest.dfy` (`Gorest`): the `RestClient` class with one method per
  builder call, `HttpRequest`, `AddQueryStructs`, `AddHeaders`, the
  specification functions they are proved against (`QueryResult`,
  `BuildRequest`, `ResolvePath`, `HeaderAdd`, `HeaderSet`) and the lemmas
  about them, and `CheckResponse` for the status branch of `Receive`.
- `slice_header.dfy` (`SliceHeader`): the header map with Go's slice
  semantics (shared backing arrays, in-place `append`), used to show the
  aliasing in `(*RestClient).New` listed under Findings.

`RestClient.Valid` says every header key is canonical and holds at least one
value. The constructor and `New` establish it and every method keeps it; the
header methods require it, as the source never builds a header any other way.
Header values are sequences, so a copy of the header map is a deep copy: the
`RestClient` model follows the behaviour `New` evidently intends, and
`SliceHeader` shows where the code as written departs from it.

Query structs are merged additively, value after value, and that is what the
model states. `BodyProvider` sets `Content-Type` when the provider's content
type is not empty. The success range of `Receive` is the inclusive 200–299
range.

## Model

| member | source | states |
|---|---|---|
| `Gorest.RestClient.constructor` | gorest.go:40-47 | a new builder uses the default client, method "GET", an empty raw URL, an empty header, an empty query-struct list and no body provider |
| `Gorest.RestClient.New` | gorest.go:61-75 | the clone is a new object whose client, method, raw URL, header, query-struct list and body provider equal the parent's |
| `Gorest.EditCloneOnly` | gorest.go:61-75 | after cloning, `Set` and `QueryStruct` on the clone change only the clone: it ends with the parent's header with the key set and the parent's list plus the struct, while the parent is outside every frame |
| `Gorest.EditParentAfterClone` | gorest.go:61-75 | after cloning, `Set` and `QueryStruct` on the parent leave the clone's header and query list as the parent's were at cloning time |
| `Gorest.RestClient.Client` | gorest.go:81-86 | the client becomes the given `*http.Client`, or the default client for nil; the builder is returned |
| `Gorest.RestClient.Doer` | gorest.go:90-97 | the client becomes the given `Doer`, or the default client for nil; the builder is returned |
| `Gorest.RestClient.Head` | gorest.go:102-105 | method becomes "HEAD" and the raw URL becomes what `Path` gives for the argument; nothing else changes |
| `Gorest.RestClient.Get` | gorest.go:108-111 | method becomes "GET" and the raw URL becomes what `Path` gives for the argument; nothing else changes |
| `Gorest.RestClient.Post` | gorest.go:114-117 | method becomes "POST" and the raw URL becomes what `Path` gives for the argument; nothing else changes |
| `Gorest.RestClient.Put` | gorest.go:120-123 | method becomes "PUT" and the raw URL becomes what `Path` gives for the argument; nothing else changes |
| `Gorest.RestClient.Patch` | gorest.go:126-129 | method becomes "PATCH" and the raw URL becomes what `Path` gives for the argument; nothing else changes |
| `Gorest.RestClient.Delete` | gorest.go:132-135 | method becomes "DELETE" and the raw URL becomes what `Path` gives for the argument; nothing else changes |
| `Gorest.HeaderAdd` | gorest.go:139-144 | the canonical key's values become its old values followed by the new one; every other key keeps its values; canonical keys stay canonical |
| `Gorest.RestClient.Add` | gorest.go:141-144 | the header becomes `HeaderAdd` of the old header; only the header changes and the builder invariant holds |
| `Gorest.HeaderSet` | gorest.go:146-151 | the canonical key's values become exactly the one new value; every other key keeps its values; canonical keys stay canonical |
| `Gorest.RestClient.Set` | gorest.go:148-151 | the header becomes `HeaderSet` of the old header; only the header changes and the builder invariant holds |
| `Gorest.SetOverridesAdd` | gorest.go:139-151 | a `Set` after an `Add` on a key with the same canonical form leaves no trace of the `Add` |
| `Gorest.RestClient.SetBasicAuth` | gorest.go:156-158 | the header becomes `Set("Authorization", "Basic " + basicAuth(username, password))` of the old header |
| `Gorest.CredentialsRoundTrip` | gorest.go:162-165 | the string basicAuth encodes, `username:password`, splits back at its first colon into the same user name and password whenever the user name has no colon |
| `Gorest.ColonInUsernameIsAmbiguous` | gorest.go:162-165 | a colon in the user name makes two different credential pairs encode to the same string |
| `Gorest.RestClient.Base` | gorest.go:171-174 | the raw URL becomes the argument unconditionally; nothing else changes |
| `Gorest.RestClient.Path` | gorest.go:178-186 | the raw URL becomes the resolution of the path against it when both parse, and is left unchanged otherwise; nothing else changes |
| `Gorest.UnparsablePathsSkipped` | gorest.go:178-186 | in any chain of `Path` calls, the paths that fail to parse change nothing: the chain ends where the parsable paths alone lead |
| `Gorest.UnparsableBaseIsKept` | gorest.go:178-186 | a raw URL that fails to parse stays unchanged through every chain of `Path` calls |
| `Gorest.RestClient.QueryStruct` | gorest.go:193-198 | nil leaves the query-struct list as it is; any other value is appended at its end, earlier entries kept in order |
| `Gorest.RestClient.Body` | gorest.go:206-211 | a nil reader changes nothing; otherwise the body provider becomes a reader provider and the header gains its content type when not empty |
| `Gorest.RestClient.BodyProvider` | gorest.go:214-226 | a nil provider changes nothing; otherwise it becomes the body provider and, when its content type is not empty, the Content-Type header is set to it |
| `Gorest.RestClient.BodyJSON` | gorest.go:232-237 | a nil payload changes nothing; otherwise the body provider becomes a JSON provider of the payload, with its content type set as by `BodyProvider` |
| `Gorest.RestClient.BodyForm` | gorest.go:243-248 | a nil payload changes nothing; otherwise the body provider becomes a form provider of the payload, with its content type set as by `BodyProvider` |
| `Gorest.RestClient.Request` | gorest.go:255-279 | the request is new and equals `BuildRequest` of the builder's fields, or the error is the first one `BuildRequest` meets (raw URL, query structs, body, request creation) |
| `Gorest.BuiltRequestCarriesBuilder` | gorest.go:273-278 | a built request has exactly the builder's method and header |
| `Gorest.AddQueryStructs` | gorest.go:284-304 | on success the URL's raw query becomes the encoding of the parsed query merged with every struct's values; on error the error is the first met and the URL is returned unmodified |
| `Gorest.EncodeStructsMeaning` | gorest.go:290-294 | struct conversion succeeds with one multimap per struct iff every struct converts; otherwise its error is that of the first struct that fails |
| `Gorest.EncodeStructsFailurePersists` | gorest.go:290-294 | once a prefix of the struct list fails, the whole list fails with the same error, whatever follows |
| `Multimap.AddValue` | gorest.go:297 | one `Add`: the key's values gain the value at the end, no other key changes, the key is present afterwards |
| `Multimap.AddEach` | gorest.go:295-299 | adding every value of one multimap, key by key in any order, yields `AddAll`: each key's values followed by the added ones |
| `Multimap.MergeAllGet` | gorest.go:284-300 | the merge is additive: under every key the merged values are the URL's existing values followed by each struct's values in struct-list order |
| `Multimap.MergeAllKeys` | gorest.go:284-300 | a key is present after the merge iff the URL's query had it or some struct gives it a value |
| `Multimap.MergeAllAppend` | gorest.go:290-300 | merging a list in two parts equals merging the first part and then the second, so a struct appended by `QueryStruct` adds its values after all earlier ones |
| `Multimap.MergeKeepsEarlier` | gorest.go:290-300 | values merged from earlier structs stay, as a prefix, under every key: a later struct never replaces them |
| `Gorest.AddHeaders` | gorest.go:308-314 | the request's header becomes its old header with every builder value appended under the same key, values already there kept first |
| `Gorest.CheckResponse` | gorest.go:339-353 | no error iff the status is in 200–299 and the success destination is nil or decodes; a status outside it yields an error whose message is the raw body; every error's message ends with the raw body |
| `SliceHeader.Add` | gorest.go:141-144 | `h[key] = append(h[key], v)` with Go slices: the values gain `v`; the append reuses the shared array while it has spare capacity and allocates a larger one otherwise |
| `SliceHeader.CloneShared` | gorest.go:62-66 | the header copy `New` makes holds, under every key, a slice over the parent's own backing array |
| `SliceHeader.SharedCloneLosesChildAdd` | gorest.go:61-75 | with the copy as written, a parent with three values under "X", cloned, then the clone adding "c" and the parent adding "p", leaves the clone with ["1", "2", "3", "p"] |
| `SliceHeader.CloneDeep` | gorest.go:62-66 | the intended copy has the same keys and values, each in a new array of its own |
| `SliceHeader.DeepCloneKeepsChildAdd` | gorest.go:61-75 | with the intended copy the same steps leave the clone with ["1", "2", "3", "c"] |
| `SliceHeader.CloneDeepThenAdd` | gorest.go:61-75 | the intended copy followed by a clone-side `Add`: every value list of the clone lives in a fresh array, the key gains the value at the end and every other key keeps the values it had at cloning time |
| `SliceHeader.DeepCloneIsIndependent` | gorest.go:61-75 | with the intended copy, for every header, when the clone adds `w` and then the parent adds `v` under the same key, the clone's values are the values at cloning time followed by `w` and the parent's are those followed by `v`: neither side overwrites the other |

## Findings

| source | as written | input that shows it | evidently intended | confidence | as-written member | corrected member |
|---|---|---|---|---|---|---|
| gorest.go:62-66 | `New` copies the header map entry by entry, so each value slice of the clone shares its backing array with the parent's; an `Add` on either side appends in place while the slice has spare capacity | parent `Add("X","1")`, `Add("X","2")`, `Add("X","3")` (length 3, capacity 4); `clone := parent.New()`; `clone.Add("X","c")`; `parent.Add("X","p")`: the clone's "X" values read `["1","2","3","p"]` | the clone's header is independent of the parent's (each value list copied), so the clone keeps `["1","2","3","c"]` | not executed; high (follows from Go's `append` semantics) | `SliceHeader.SharedCloneLosesChildAdd` | `SliceHeader.DeepCloneIsIndependent` |

## Left out

- Sending the request through `Doer.Do`, reading the response body and closing it (the I/O of `Receive`, gorest.go:323-336) are not modelled; `CheckResponse` starts from the status code and the body already read.
- JSON decoding in `Receive` is the parameter `unmarshal` of `CheckResponse`; the decode of a failure response into the optional failure destination (gorest.go:340-342) is not modelled, as its error is discarded and it does not change what `Receive` returns.
- URL parsing, reference resolution (RFC 3986, section 5.2), URL formatting, `url.ParseQuery`, `url.Values.Encode` (sorting and percent-encoding), go-querystring's struct conversion, `http.CanonicalHeaderKey` and base64 are abstract functions of `Lib`: the model states the builder's rules for every behaviour of these libraries.
- `http.NewRequest` is reduced to its error (`Lib.newRequestError`) and to a new request with the given method, URL and body and an empty header.
- The `BodyProvider` implementations and the `contentType` constant are not part of this model: their content types and bodies come from `Lib.contentType` and `Lib.body`, the header name from `Lib.contentTypeHeader`.
- `http.DefaultClient` is the tag `DefaultClient`, not shared global state.
- Query structs, readers and payloads are opaque handles: that a struct mutated after `QueryStruct` changes every builder holding it is not modelled.
- Go's random map iteration order is modelled by picking any remaining key at each step; all orders give the same result, which the loops prove.
- `SliceHeader.Grown` doubles the capacity of a full slice; this matches Go for the capacities the finding's example reaches (0, 1, 2, 4), but Go also rounds a new capacity up to an allocator size class, which the model does not.
- `Gorest.RestClient.New`: the class keeps header values as sequences, copied by value, so an `Add` after `New` does not reproduce the shared-array overwrite of the code as written; that behaviour is modelled only in `SliceHeader` (see Findings).
- Key canonicalisation is left out of `SliceHeader`, whose keys are taken as already canonical.
