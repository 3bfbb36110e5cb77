/**
  The HTTP boundary, reduced to data. A GET either fails in transport (the
  Ktor client throws) or yields a status code and a body that the JSON decoder
  either turns into the expected type or rejects. Kotlin exceptions become
  `Threw`, and every operation reports the requests it issued.
 */
module Http {

  /** The body of a reply, as the content-negotiation decoder sees it. */
  datatype Body<+T> = Decoded(value: T) | Malformed

  /** What one GET produces. */
  datatype Response<+T> = Response(status: int, body: Body<T>) | TransportFailure

  /** A Kotlin call either returns a value or throws. */
  datatype Outcome<+T> = Returned(value: T) | Threw

  /** One issued GET: the URL and the value of its Authorization header. */
  datatype Request = Get(url: string, authorization: string)

  /** The outcome of an operation together with the requests it issued, in order. */
  datatype Call<+T> = Call(result: Outcome<T>, requests: seq<Request>)

  /** Ktor's `HttpStatusCode.isSuccess()`: the 2xx range. */
  predicate IsSuccess(status: int) {
    200 <= status <= 299
  }

  /** `response.body()`: the decoded value, or the decoder's exception. */
  function BodyOf<T>(b: Body<T>): (r: Outcome<T>)
    ensures r.Returned? <==> b.Decoded?
    ensures r.Returned? ==> r.value == b.value
  {
    match b
    case Decoded(v) => Returned(v)
    case Malformed => Threw
  }
}
