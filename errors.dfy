/** The errors the client returns: the typed API error payload (`Error`,
    `ErrorData`) and every other failure kind, plus `IsError`, which tests
    whether an error carries one of a given set of API error codes. */
module Errors {
  import opened Wrappers

  /** One name/value pair of an API error's `parameters` list. */
  datatype Parameter = Parameter(name: string, value: string)

  /** One error entry of an API error response (ebay.go `Error`). */
  datatype ApiError = ApiError(
    errorId: int,
    domain: string,
    subDomain: string,
    category: string,
    message: string,
    longMessage: string,
    inputRefIds: seq<string>,
    outputRefIds: seq<string>,
    parameters: seq<Parameter>)

  /** The error returned for a non-2xx response (ebay.go `ErrorData`): the
      decoded entries, the status of the response it came from and the dump
      of the request that caused it. */
  datatype ErrorData = ErrorData(errors: seq<ApiError>, status: int, requestDump: string)

  /** Every error value the client can return. A Go `error` that may be nil
      is an `Option<Error>`. */
  datatype Error =
    | MissingTrailingSlash(baseURL: string)  // NewCustomClient: base URL without a trailing "/"
    | LeadingSlash                           // NewRequest: relative path starting with "/"
    | UrlError                               // NewRequest: base URL could not resolve the path
    | EncodingError                          // NewRequest: the JSON encoder rejected the body
    | RequestError                           // NewRequest: http.NewRequest refused the request
    | TransportError(cause: string)          // Do: the HTTP client returned an error
    | DecodingError                          // Do: a 2xx body did not decode into the destination
    | Api(data: ErrorData)                   // CheckResponse: the response status was not 2xx

  /** Some entry's code equals some queried code. */
  predicate ContainsCode(errors: seq<ApiError>, codes: seq<int>)
  {
    exists i, j :: 0 <= i < |errors| && 0 <= j < |codes| && errors[i].errorId == codes[j]
  }

  /** The meaning of IsError: `err` is an API error payload and it contains
      one of `codes`. */
  predicate Matches(err: Option<Error>, codes: seq<int>)
  {
    err.Some? && err.value.Api? && ContainsCode(err.value.data.errors, codes)
  }

  /** ebay.go IsError: a nested search over the entries and the codes that
      stops at the first match. */
  method IsError(err: Option<Error>, codes: seq<int>) returns (found: bool)
    ensures found <==> Matches(err, codes)
    ensures err.None? ==> !found
    ensures err.Some? && !err.value.Api? ==> !found
    ensures codes == [] ==> !found
    ensures err.Some? && err.value.Api? && err.value.data.errors == [] ==> !found
  {
    if err.None? {
      return false;
    }
    if !err.value.Api? {
      return false;
    }
    var errors := err.value.data.errors;
    for i := 0 to |errors|
      invariant forall i', j :: 0 <= i' < i && 0 <= j < |codes| ==> errors[i'].errorId != codes[j]
    {
      for j := 0 to |codes|
        invariant forall j' :: 0 <= j' < j ==> errors[i].errorId != codes[j']
      {
        if errors[i].errorId == codes[j] {
          return true;
        }
      }
    }
    return false;
  }

  /** Querying several codes at once is the same as querying each group and
      taking the disjunction: IsError(err, a..., b...) == IsError(err, a...) || IsError(err, b...). */
  lemma MatchesConcat(err: Option<Error>, a: seq<int>, b: seq<int>)
    ensures Matches(err, a + b) <==> Matches(err, a) || Matches(err, b)
  {
    if err.Some? && err.value.Api? {
      var es := err.value.data.errors;
      if ContainsCode(es, a + b) {
        var i, j :| 0 <= i < |es| && 0 <= j < |a + b| && es[i].errorId == (a + b)[j];
        if j < |a| {
          assert es[i].errorId == a[j];
        } else {
          assert es[i].errorId == b[j - |a|];
        }
      }
      if ContainsCode(es, a) {
        var i, j :| 0 <= i < |es| && 0 <= j < |a| && es[i].errorId == a[j];
        assert (a + b)[j] == a[j];
      }
      if ContainsCode(es, b) {
        var i, j :| 0 <= i < |es| && 0 <= j < |b| && es[i].errorId == b[j];
        assert (a + b)[|a| + j] == b[j];
      }
    }
  }
}
