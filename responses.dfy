/** Response handling: ebay.go CheckResponse, which turns a non-2xx response
    into an ErrorData, and Do, which sequences sending, checking and
    decoding. The transport and the JSON decoders are given as outcomes and
    functions. */
module Responses {
  import opened Wrappers
  import opened Http
  import opened Errors

  /** The JSON decoder run on an error body into a fresh ErrorData: None when
      it writes nothing (the body is empty or not JSON), Some(es) when it
      leaves `es` in the Errors field. Its own error is discarded. */
  type ErrorDecoder = Bytes -> Option<seq<ApiError>>

  /** What the HTTP client's Do returned: a response, or an error (network
      failure, cancelled or expired context). */
  datatype Outcome = Delivered(resp: Response) | TransportFailed(cause: string)

  /** What decoding a 2xx body into the destination left there, and whether
      the decoder reported success. */
  datatype Decoded<V> = Decoded(value: V, ok: bool)

  /** Do's error, and the destination's value afterwards (None: nil). */
  datatype DoResult<V> = DoResult(err: Option<Error>, dest: Option<V>)

  /** The entries an error body yields: what the decoder wrote, or none. */
  function DecodedEntries(decodeErrors: ErrorDecoder, body: Bytes): seq<ApiError>
  {
    match decodeErrors(body)
    case None => []
    case Some(es) => es
  }

  /** ebay.go CheckResponse: no error exactly for a 2xx status; otherwise an
      ErrorData holding the status and the request dump, whose entries are
      whatever the decoder wrote, and none when it wrote nothing. */
  function CheckResponse(resp: Response, dump: string, decodeErrors: ErrorDecoder): (r: Option<Error>)
    ensures r.None? <==> 200 <= resp.status < 300
    ensures r.Some? ==> r.value.Api?
    ensures r.Some? ==> r.value.data.status == resp.status && r.value.data.requestDump == dump
    ensures r.Some? && decodeErrors(resp.body).None? ==> r.value.data.errors == []
    ensures r.Some? && decodeErrors(resp.body).Some? ==> r.value.data.errors == decodeErrors(resp.body).value
  {
    if IsSuccess(resp.status) then None
    else Some(Api(ErrorData(DecodedEntries(decodeErrors, resp.body), resp.status, dump)))
  }

  /** ebay.go Do. A transport failure is returned at once; a non-2xx status
      returns CheckResponse's error; a nil destination with a 2xx status
      returns success; only then is the body decoded into the destination.
      `dump` is the request dump taken before sending. */
  function Do<V>(dump: string, outcome: Outcome, dest: Option<V>,
                 decodeErrors: ErrorDecoder, decode: (Bytes, V) -> Decoded<V>): (r: DoResult<V>)
    ensures outcome.TransportFailed? ==> r == DoResult(Some(TransportError(outcome.cause)), dest)
    ensures outcome.Delivered? && !IsSuccess(outcome.resp.status) ==>
      r.err == CheckResponse(outcome.resp, dump, decodeErrors) && r.dest == dest
    ensures outcome.Delivered? && IsSuccess(outcome.resp.status) && dest.None? ==>
      r == DoResult(None, None)
    ensures outcome.Delivered? && IsSuccess(outcome.resp.status) && dest.Some? ==>
      var d := decode(outcome.resp.body, dest.value);
      r.dest == Some(d.value) && r.err == (if d.ok then None else Some(DecodingError))
    ensures r.err.None? <==> outcome.Delivered? && IsSuccess(outcome.resp.status)
                             && (dest.None? || decode(outcome.resp.body, dest.value).ok)
  {
    match outcome
    case TransportFailed(cause) => DoResult(Some(TransportError(cause)), dest)
    case Delivered(resp) =>
      var checked := CheckResponse(resp, dump, decodeErrors);
      if checked.Some? then DoResult(checked, dest)
      else if dest.None? then DoResult(None, dest)
      else
        var d := decode(resp.body, dest.value);
        DoResult(if d.ok then None else Some(DecodingError), Some(d.value))
  }

  /** For a non-2xx response, IsError on CheckResponse's result with a single
      code holds exactly when some decoded entry carries that code. */
  lemma CheckedErrorMatches(resp: Response, dump: string, decodeErrors: ErrorDecoder, code: int)
    requires !IsSuccess(resp.status)
    ensures Matches(CheckResponse(resp, dump, decodeErrors), [code])
        <==> exists e :: e in DecodedEntries(decodeErrors, resp.body) && e.errorId == code
  {
    var es := DecodedEntries(decodeErrors, resp.body);
    if exists e :: e in es && e.errorId == code {
      var e :| e in es && e.errorId == code;
      var i :| 0 <= i < |es| && es[i] == e;
      assert es[i].errorId == [code][0];
    }
  }

  /** Only an API error response can match a code: the error Do returns for
      a transport failure or a failed decode never does. */
  lemma DoMatchesOnlyApiErrors<V>(dump: string, outcome: Outcome, dest: Option<V>,
                                  decodeErrors: ErrorDecoder, decode: (Bytes, V) -> Decoded<V>, codes: seq<int>)
    requires Matches(Do(dump, outcome, dest, decodeErrors, decode).err, codes)
    ensures outcome.Delivered? && !IsSuccess(outcome.resp.status)
    ensures ContainsCode(DecodedEntries(decodeErrors, outcome.resp.body), codes)
  {
  }
}
