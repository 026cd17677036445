/** The few `net/http` values the client's decisions depend on. */
module Http {

  newtype byte = x: int | 0 <= x < 256

  /** A request or response body, as raw bytes. */
  type Bytes = seq<byte>

  /** An HTTP response as the client inspects it: its status code and its body. */
  datatype Response = Response(status: int, body: Bytes)

  /** Status codes in [200, 300) are successes. */
  predicate IsSuccess(status: int)
  {
    200 <= status < 300
  }
}
