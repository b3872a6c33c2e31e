/** The fetch-and-decode primitive: one GET through an injected URL session,
    then a guard chain over the response that yields the decoded value or
    throws. It keeps no state. */
module NetworkService {
  import opened Errors
  import opened Endpoint

  type Bytes = seq<bv8>

  /** `JSONDecoder().decode(T.self, from:)`, left uninterpreted: None when the
      body does not have the requested shape. */
  type Decoder<T> = Bytes -> Option<T>

  /** The response object the session hands back: an `HTTPURLResponse` with
      its status code, or some other `URLResponse`. */
  datatype Response = NonHTTPResponse | HTTPResponse(statusCode: int)

  /** What `session.data(from:delegate:)` does: return a body and a response,
      or throw. */
  datatype SessionOutcome = Received(data: Bytes, response: Response) | Threw(error: Error)

  predicate IsSuccessStatus(statusCode: int) {
    200 <= statusCode < 300
  }

  /** `fetch(url:)` once the session has answered with `outcome`. */
  function Fetch<T>(outcome: SessionOutcome, decode: Decoder<T>): (r: Result<T>)
    // a transport error is rethrown as it is, not wrapped
    ensures outcome.Threw? ==> r == Failure(outcome.error)
    // a response that is not HTTP
    ensures outcome.Received? && outcome.response.NonHTTPResponse? ==> r == Failure(Network(NoData))
    // a status outside [200, 300) fails with that status, whatever the body
    ensures (outcome.Received? && outcome.response.HTTPResponse? && !IsSuccessStatus(outcome.response.statusCode))
            ==> r == Failure(Network(ServerError(outcome.response.statusCode)))
    // a 2xx status with a body of the wrong shape
    ensures (outcome.Received? && outcome.response.HTTPResponse? && IsSuccessStatus(outcome.response.statusCode)
             && decode(outcome.data).None?) ==> r == Failure(Network(DecodingError))
  {
    match outcome
    case Threw(error) => Failure(error)
    case Received(data, response) =>
      match response
      case NonHTTPResponse => Failure(Network(NoData))
      case HTTPResponse(statusCode) =>
        if statusCode < 200 || statusCode >= 300 then Failure(Network(ServerError(statusCode)))
        else match decode(data)
          case Some(value) => Success(value)
          case None => Failure(Network(DecodingError))
  }

  /** The network service as the repository sees it: the session is asked for
      the URL and its answer is classified. */
  function Service<T>(session: Url -> SessionOutcome, decode: Decoder<T>): Url -> Result<T> {
    url => Fetch(session(url), decode)
  }

  /** `fetch` succeeds exactly on a 2xx HTTP response with a decodable body,
      and then returns the decoded value itself. */
  lemma FetchSucceedsIff<T>(outcome: SessionOutcome, decode: Decoder<T>)
    ensures Fetch(outcome, decode).Success? <==>
              outcome.Received? && outcome.response.HTTPResponse?
              && IsSuccessStatus(outcome.response.statusCode) && decode(outcome.data).Some?
    ensures Fetch(outcome, decode).Success? ==> Fetch(outcome, decode).value == decode(outcome.data).value
  {
  }

  /** The status is checked before the body is decoded: for a response that
      is not 2xx, the decoder makes no difference. */
  lemma StatusCheckedBeforeDecoding<T>(data: Bytes, statusCode: int, d1: Decoder<T>, d2: Decoder<T>)
    requires !IsSuccessStatus(statusCode)
    ensures Fetch(Received(data, HTTPResponse(statusCode)), d1) == Fetch(Received(data, HTTPResponse(statusCode)), d2)
    ensures Fetch(Received(data, HTTPResponse(statusCode)), d1) == Failure(Network(ServerError(statusCode)))
  {
  }

  /** Every error `fetch` throws is either the session's own error or one of
      `noData`, `serverError` with a non-2xx status, or `decodingError`; it
      never throws `invalidURL` or `unknown` of its own accord. */
  lemma FetchErrorKinds<T>(outcome: SessionOutcome, decode: Decoder<T>)
    ensures Fetch(outcome, decode).Failure? ==>
              (outcome.Threw? && Fetch(outcome, decode).error == outcome.error)
              || (outcome.Received? && Fetch(outcome, decode).error.Network?
                  && var e := Fetch(outcome, decode).error.err;
                     e == NoData || e == DecodingError || (e.ServerError? && !IsSuccessStatus(e.status)))
  {
  }
}
