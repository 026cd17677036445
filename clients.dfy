/** Client construction: the two built-in base URLs and the trailing-slash
    check on a custom one. */
module Clients {
  import opened Wrappers
  import opened Strings
  import opened Errors

  /** Production REST endpoint. */
  const BaseURL: string := "https://api.ebay.com/"

  /** Sandbox REST endpoint. */
  const SandboxBaseURL: string := "https://api.sandbox.ebay.com/"

  /** OAuth scope granting access to the public APIs. */
  const ScopeRoot: string := "https://api.ebay.com/oauth/api_scope"

  /** A handle on the `*http.Client` that sends the requests. */
  datatype HttpClient = HttpClient(handle: nat)

  /** `http.DefaultClient`, used when the caller passes nil. */
  const DefaultClient: HttpClient := HttpClient(0)

  /** A client: the HTTP client it sends through and the base URL every
      relative path is resolved against. Neither changes after construction. */
  datatype Client = Client(http: HttpClient, baseURL: string)

  /** The base URL ends in the path separator. */
  predicate EndsWithSlash(s: string)
  {
    |s| > 0 && s[|s| - 1] == '/'
  }

  /** ebay.go newClient: a nil HTTP client is replaced by the default one. */
  function MakeClient(httpclient: Option<HttpClient>, baseURL: string): (c: Client)
    ensures c.baseURL == baseURL
    ensures httpclient.None? ==> c.http == DefaultClient
    ensures httpclient.Some? ==> c.http == httpclient.value
  {
    Client(if httpclient.None? then DefaultClient else httpclient.value, baseURL)
  }

  /** ebay.go NewClient: a client for the production endpoint. */
  function NewClient(httpclient: Option<HttpClient>): (c: Client)
    ensures c.baseURL == BaseURL && EndsWithSlash(c.baseURL)
  {
    MakeClient(httpclient, BaseURL)
  }

  /** ebay.go NewSandboxClient: a client for the sandbox endpoint. */
  function NewSandboxClient(httpclient: Option<HttpClient>): (c: Client)
    ensures c.baseURL == SandboxBaseURL && EndsWithSlash(c.baseURL)
  {
    MakeClient(httpclient, SandboxBaseURL)
  }

  /** ebay.go NewCustomClient: fails exactly when the base URL does not end
      in "/"; otherwise the client resolves against that very URL. */
  function NewCustomClient(httpclient: Option<HttpClient>, baseURL: string): (r: Result<Client, Error>)
    ensures r.Failure? <==> !EndsWithSlash(baseURL)
    ensures r.Failure? ==> r.error == MissingTrailingSlash(baseURL)
    ensures r.Success? ==> r.value.baseURL == baseURL
    ensures r.Success? && httpclient.Some? ==> r.value.http == httpclient.value
    ensures r.Success? && httpclient.None? ==> r.value.http == DefaultClient
  {
    HasSuffixChar(baseURL, '/');
    if !HasSuffix(baseURL, "/") then Failure(MissingTrailingSlash(baseURL))
    else Success(MakeClient(httpclient, baseURL))
  }

  /** The built-in endpoints pass the custom-client check: a custom client on
      either of them is the client NewClient or NewSandboxClient builds. */
  lemma BuiltInBasesAccepted(httpclient: Option<HttpClient>)
    ensures NewCustomClient(httpclient, BaseURL) == Success(NewClient(httpclient))
    ensures NewCustomClient(httpclient, SandboxBaseURL) == Success(NewSandboxClient(httpclient))
  {
  }
}
