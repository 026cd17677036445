# eBay API client: request/response pipeline

A Dafny model of the decisions the Go eBay API client (`ebay.go`) makes around
every call: validating a custom base URL, building a request (the
leading-slash check, URL resolution, the optional JSON body, the functional
options run on the finished request), classifying a response
(`CheckResponse`), sequencing a call (`Do`), and matching API error codes
(`IsError`). The network, the JSON codec, URL resolution and the request
dump are foreign library calls. They appear as parameters: function values
and outcomes that may fail.

Modules, one file each:

- `Wrappers` (`wrappers.dfy`): `Option` (a Go value that may be nil) and `Result` (a `(value, error)` pair).
- `Strings` (`strings.dfy`): Go's `strings.HasPrefix` and `strings.HasSuffix`.
- `Http` (`http.dfy`): bytes, the response (status and body), the 2xx test.
- `Errors` (`errors.dfy`): the `Error`/`ErrorData` records, every error kind the client returns, and `IsError` as a nested loop proved against the predicate `Matches`.
- `Clients` (`clients.dfy`): the production and sandbox base URLs and client construction.
- `Requests` (`requests.dfy`): the `Request` class whose headers and query the options mutate in place, `ApplyAll` (the options folded left to right), `Prepare` (the building steps before the options) and the `NewRequest` method with its option loop.
- `Responses` (`responses.dfy`): `CheckResponse` and `Do` over abstract transport and decoder outcomes.

## Model

| member | source | states |
|---|---|---|
| `Clients.MakeClient` | ebay.go:67-77 | the client keeps the given base URL; a nil HTTP client is replaced by the default client, and a supplied one is kept |
| `Clients.NewClient` | ebay.go:47-49 | the client targets the production base URL, which ends in "/" |
| `Clients.NewSandboxClient` | ebay.go:53-55 | the client targets the sandbox base URL, which ends in "/" |
| `Clients.NewCustomClient` | ebay.go:60-65 | fails, with an error naming the URL, exactly when the base URL's last character is not "/"; otherwise the client's base is that URL and its HTTP client is the supplied one or the default |
| `Clients.BuiltInBasesAccepted` | ebay.go:19-20 | both built-in base URLs pass the custom-client check, and a custom client on either is the client NewClient or NewSandboxClient builds |
| `Strings.HasSuffixChar` | ebay.go:61 | the trailing-slash test inspects only the last character |
| `Strings.HasPrefixChar` | ebay.go:89 | the leading-slash test inspects only the first character |
| `Requests.Prepare` | ebay.go:88-109 | the leading-slash error happens exactly when the path's first character is "/", whatever resolution and encoding would do; the request is built exactly when the path has no leading "/", resolution succeeds, the body is absent or encodes, and http.NewRequest accepts; each later error (URL, encoding, request) happens exactly when all earlier steps succeeded and its own step fails; on success the request has the resolved location and query, no headers, the method (empty meaning GET), and a body exactly when one was supplied, namely its encoding |
| `Requests.NewRequest` | ebay.go:88-114 | fails exactly when a building step fails, with that step's error; otherwise returns a fresh request whose method, location and body are the built ones and whose headers and query are the options applied in order, each once, to the fresh request |
| `Requests.Request.constructor` | ebay.go:106 | the new request holds the built method, location, body, headers and query |
| `Requests.Request.Apply` | ebay.go:110-112 | running one option replaces the headers and query by the option's result; method, location and body cannot change |
| `Requests.ApplyAllAppend` | ebay.go:110-112 | applying the options `a + b` is applying `a`, then `b` to the result |
| `Requests.ApplyAllPair` | ebay.go:110-112 | applying `[A, B]` equals applying A and then B to the fresh request |
| `Requests.OptionsAppliedOnceInOrder` | ebay.go:110-112 | options that each append one value to a header leave exactly those values, in list order, after the header's previous values; no other header and no query parameter changes |
| `Responses.CheckResponse` | ebay.go:166-173 | no error exactly when 200 <= status < 300; otherwise an `ErrorData` error carrying the response status and the request dump, whose entries are what the decoder wrote, and empty when the body failed to decode |
| `Responses.Do` | ebay.go:117-131 | a transport failure is returned with the destination unchanged; a non-2xx status returns CheckResponse's error with the destination unchanged; a nil destination with a 2xx status returns no error; otherwise the destination receives the decoded value and the error is a decoding error exactly when the decoder failed; no error exactly when the status is 2xx and the destination is nil or decodes |
| `Responses.CheckedErrorMatches` | ebay.go:166-194 | for a non-2xx response, IsError on CheckResponse's error with one code holds exactly when a decoded entry carries that code |
| `Responses.DoMatchesOnlyApiErrors` | ebay.go:117-131 | when IsError holds of the error Do returns, the response arrived with a non-2xx status and its decoded entries contain a queried code: transport and decoding errors never match |
| `Errors.IsError` | ebay.go:178-194 | true exactly when the error is an `ErrorData` and some entry's code equals some queried code; false for no error, for every other error kind, for no codes and for no entries |
| `Errors.MatchesConcat` | ebay.go:178-194 | querying the codes `a + b` matches exactly when querying `a` or querying `b` matches |

## Left out

- Sending the request, the request dump (`httputil.DumpRequest`) and context cancellation or deadlines are network I/O and library calls. `Do` takes the dump as a string and the HTTP client's result as an `Outcome`: a response, or a transport error whose cause is a string.
- JSON encoding (with HTML escaping off) and decoding belong to `encoding/json`. They are the function values `encode`, `decodeErrors` and `decode`, each of which may fail.
- URL reference resolution (section 5.2 of RFC 3986) is the function value `resolve`. Its result is split into the location and the query map that options may rewrite. Rendering them back to a URL string is not modelled.
- `http.NewRequest` is modelled by the predicate `accepts`, plus its rule that an empty method means GET.
- The base URL is kept as a string. `newClient` ignores a `url.Parse` failure of the base. A base that ends in "/" but does not parse would leave a nil URL and make `NewRequest` panic. That case is not modelled.
- `ErrorData.Error()` string formatting is presentation only.
- `ErrorData` keeps the whole `*http.Response`; the model keeps only its status, the one field read.
- `CheckResponse` takes the request as a parameter but never reads it, so the model drops it.
- `CheckResponse` fills a freshly allocated `ErrorData` in place through the decoder. The model is a value whose entries are those the decoder returns.
- Closing the response body (`defer resp.Body.Close()`) is resource handling and is not modelled.
- `errors.WithStack` stack traces are not modelled, only the error kinds. That `errors.WithStack(nil)` is nil is modelled: a successful decode gives no error.
- A Go `Opt` receives the whole `*http.Request` and could change anything. The model gives an option only the headers and query parameters, the part its documented use touches.
- Go's typed-nil interface cases (a nil `*ErrorData` inside a non-nil `error`, a nil pointer passed as a body) are not modelled.
- The `Buy.Browse` service namespace, its endpoint methods and `OptBrowseContextualLocation` live in a browse service file that is not part of this model; `browse_test.go` tests them.
- The OAuth2 token source wrapper (`TokenSource`) and the grant flows of `test/integration/grant_flow_test.go` are not part of this model. `ScopeRoot` is declared as a constant only.
- A `Client` holds no per-call mutable state, so concurrent use has nothing to model.
- Responses.Do: "the body is not decoded" is stated as "the destination comes back unchanged". The decoder is a pure function here, so whether it ran cannot be observed.
- Requests.NewRequest: "no option runs after a failed step" is stated as "the result is the step's error and holds no request". The options are pure functions here, so a call that left no trace cannot be observed.
- Responses.CheckResponse: the code does not leave the entries empty on every decoding failure. `encoding/json` stops before writing anything when the body is empty or not JSON, but a well-formed body with mismatched types can leave some entries filled. The model allows any entry list the decoder returns (`Some`). It guarantees empty entries only when the decoder wrote nothing (`None`).
