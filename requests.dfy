/** Request building (ebay.go NewRequest): the leading-slash check, URL
    resolution, the optional JSON body, and the functional options that
    mutate the finished request in place. */
module Requests {
  import opened Wrappers
  import opened Strings
  import opened Http
  import opened Errors
  import opened Clients

  /** Header or query values: each key maps to its list of values. */
  type Values = map<string, seq<string>>

  /** The parts of a request an option may change: its headers and its
      query parameters. */
  datatype Params = Params(header: Values, query: Values)

  /** ebay.go Opt: a functional option, applied to the finished request. */
  type Opt = Params -> Params

  /** A resolved URL: everything but the query, and the query parameters. */
  datatype Url = Url(location: string, query: Values)

  /** The library calls NewRequest makes, whose behaviour is not modelled:
      `resolve` is (*url.URL).Parse of a reference against the base URL,
      `encode` the JSON encoder (HTML escaping off) applied to a body, and
      `accepts` whether http.NewRequest takes the method and the URL. */
  datatype Library<!B> = Library(
    resolve: (string, string) -> Option<Url>,
    encode: B -> Option<Bytes>,
    accepts: (string, Url) -> bool)

  /** A request as http.NewRequest returns it, before any option runs. */
  datatype Draft = Draft(verb: string, location: string, body: Option<Bytes>, params: Params)

  /** The outgoing request. Verb (HTTP method), URL location and body are fixed when it
      is built; options rewrite its headers and query. */
  class Request {
    const verb: string
    const location: string
    const body: Option<Bytes>
    var header: Values
    var query: Values

    /** The part of the request options act on. */
    function Parameters(): Params
      reads this
    {
      Params(header, query)
    }

    constructor (d: Draft)
      ensures verb == d.verb && location == d.location && body == d.body
      ensures Parameters() == d.params
    {
      verb, location, body := d.verb, d.location, d.body;
      header, query := d.params.header, d.params.query;
    }

    /** `opt(req)`: run one option on this request. */
    method Apply(opt: Opt)
      modifies this
      ensures Parameters() == opt(old(Parameters()))
    {
      var p := opt(Params(header, query));
      header, query := p.header, p.query;
    }
  }

  /** The options applied left to right, each once, to `p`. */
  function ApplyAll(opts: seq<Opt>, p: Params): Params
  {
    if opts == [] then p else ApplyAll(opts[1..], opts[0](p))
  }

  /** Applying a concatenation of option lists is applying the first list,
      then the second to its result. */
  lemma {:induction false} ApplyAllAppend(a: seq<Opt>, b: seq<Opt>, p: Params)
    ensures ApplyAll(a + b, p) == ApplyAll(b, ApplyAll(a, p))
  {
    if a == [] {
      assert a + b == b;
    } else {
      assert (a + b)[1..] == a[1..] + b;
      ApplyAllAppend(a[1..], b, a[0](p));
    }
  }

  /** Applying [A, B] is the same as applying A, then B, to the fresh request. */
  lemma ApplyAllPair(A: Opt, B: Opt, p: Params)
    ensures ApplyAll([A, B], p) == B(A(p))
  {
    assert ApplyAll([A, B], p) == ApplyAll([B], A(p)) by {
      assert [A, B][1..] == [B];
    }
    assert ApplyAll([B], A(p)) == ApplyAll([], B(A(p))) by {
      assert [B][1..] == [];
    }
  }

  /** The values stored under `k`, none when the key is absent. */
  function ValuesOf(m: Values, k: string): seq<string>
  {
    if k in m then m[k] else []
  }

  /** The option that appends `v` under header key `k`, taken verbatim
      (http.Header.Add with a key that is already canonical). */
  function AddHeader(k: string, v: string): Opt
  {
    (p: Params) => Params(p.header[k := ValuesOf(p.header, k) + [v]], p.query)
  }

  /** One AddHeader option per value, in the order of `vs`. */
  function AddHeaders(k: string, vs: seq<string>): (opts: seq<Opt>)
    ensures |opts| == |vs|
  {
    if vs == [] then [] else [AddHeader(k, vs[0])] + AddHeaders(k, vs[1..])
  }

  /** Options are applied in order and each exactly once: a list of options
      that each append one value to a header leaves exactly those values,
      in list order, after what the header held; no other header and no
      query parameter changes. */
  lemma {:induction false} OptionsAppliedOnceInOrder(k: string, vs: seq<string>, p: Params)
    ensures var q := ApplyAll(AddHeaders(k, vs), p);
      && ValuesOf(q.header, k) == ValuesOf(p.header, k) + vs
      && (forall k' :: k' != k ==> (k' in q.header <==> k' in p.header))
      && (forall k' :: k' != k && k' in p.header ==> q.header[k'] == p.header[k'])
      && q.query == p.query
  {
    if vs == [] {
      assert AddHeaders(k, vs) == [];
    } else {
      var opts := AddHeaders(k, vs);
      var p' := AddHeader(k, vs[0])(p);
      assert p'.header == p.header[k := ValuesOf(p.header, k) + [vs[0]]];
      assert opts[0] == AddHeader(k, vs[0]);
      assert opts[1..] == AddHeaders(k, vs[1..]);
      assert ApplyAll(opts, p) == ApplyAll(AddHeaders(k, vs[1..]), p');
      OptionsAppliedOnceInOrder(k, vs[1..], p');
      assert ValuesOf(p'.header, k) == ValuesOf(p.header, k) + [vs[0]];
      assert ValuesOf(p.header, k) + [vs[0]] + vs[1..] == ValuesOf(p.header, k) + vs;
    }
  }

  /** The relative path starts with the path separator. */
  predicate StartsWithSlash(path: string)
  {
    |path| > 0 && path[0] == '/'
  }

  /** http.NewRequest reads an empty method as GET. */
  function DefaultVerb(verb: string): string
  {
    if verb == "" then "GET" else verb
  }

  /** The steps of ebay.go NewRequest before the options: reject a path with
      a leading slash, resolve it against the base URL, encode the body when
      there is one, and let http.NewRequest build the request. Each failure
      is reported only when every earlier step succeeded, so a leading slash
      is rejected whatever resolution and encoding would have done. */
  function Prepare<B>(c: Client, lib: Library<B>, verb: string, path: string, body: Option<B>): (r: Result<Draft, Error>)
    ensures r == Failure(LeadingSlash) <==> StartsWithSlash(path)
    ensures r.Success?
      <==> !StartsWithSlash(path) && lib.resolve(c.baseURL, path).Some?
           && (body.None? || lib.encode(body.value).Some?)
           && lib.accepts(DefaultVerb(verb), lib.resolve(c.baseURL, path).value)
    ensures r == Failure(UrlError)
      <==> !StartsWithSlash(path) && lib.resolve(c.baseURL, path).None?
    ensures r == Failure(EncodingError)
      <==> !StartsWithSlash(path) && lib.resolve(c.baseURL, path).Some?
           && body.Some? && lib.encode(body.value).None?
    ensures r == Failure(RequestError)
      <==> !StartsWithSlash(path) && lib.resolve(c.baseURL, path).Some?
           && (body.None? || lib.encode(body.value).Some?)
           && !lib.accepts(DefaultVerb(verb), lib.resolve(c.baseURL, path).value)
    ensures r.Success? ==> lib.resolve(c.baseURL, path).Some?
    ensures r.Success? ==> r.value.verb == DefaultVerb(verb)
    ensures r.Success? ==> r.value.location == lib.resolve(c.baseURL, path).value.location
    ensures r.Success? ==> r.value.params == Params(map[], lib.resolve(c.baseURL, path).value.query)
    ensures r.Success? ==> (r.value.body.None? <==> body.None?)
    ensures r.Success? && body.Some? ==> r.value.body == lib.encode(body.value)
  {
    HasPrefixChar(path, '/');
    if HasPrefix(path, "/") then Failure(LeadingSlash)
    else
      match lib.resolve(c.baseURL, path)
      case None => Failure(UrlError)
      case Some(u) =>
        if body.Some? && lib.encode(body.value).None? then Failure(EncodingError)
        else
          var buf := if body.None? then None else lib.encode(body.value);
          if !lib.accepts(DefaultVerb(verb), u) then Failure(RequestError)
          else Success(Draft(DefaultVerb(verb), u.location, buf, Params(map[], u.query)))
  }

  /** ebay.go NewRequest: build the request, then run the options on it in
      the order given, each once. A failure of any building step returns
      before an option runs; options change headers and query only. */
  method NewRequest<B>(c: Client, lib: Library<B>, verb: string, path: string, body: Option<B>, opts: seq<Opt>)
    returns (r: Result<Request, Error>)
    ensures var d := Prepare(c, lib, verb, path, body);
      && (r.Failure? <==> d.Failure?)
      && (r.Failure? ==> r.error == d.error)
      && (r.Success? ==> && fresh(r.value)
                         && r.value.verb == d.value.verb
                         && r.value.location == d.value.location
                         && r.value.body == d.value.body
                         && r.value.Parameters() == ApplyAll(opts, d.value.params))
  {
    var d := Prepare(c, lib, verb, path, body);
    if d.Failure? {
      return Failure(d.error);
    }
    var req := new Request(d.value);
    for i := 0 to |opts|
      invariant req.Parameters() == ApplyAll(opts[..i], d.value.params)
    {
      ApplyAllAppend(opts[..i], [opts[i]], d.value.params);
      assert opts[..i + 1] == opts[..i] + [opts[i]];
      assert ApplyAll([opts[i]], ApplyAll(opts[..i], d.value.params))
          == opts[i](ApplyAll(opts[..i], d.value.params)) by {
        assert [opts[i]][1..] == [];
      }
      req.Apply(opts[i]);
    }
    assert opts[..|opts|] == opts;
    return Success(req);
  }
}
