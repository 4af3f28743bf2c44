/**
  The transport boundary: the result a client hands to its completion, and the
  way `URLSessionHTTPClient` classifies the `(data, response, error)` triple
  that URLSession reports for a finished data task.
 */
module HttpClient {
  import opened Values

  /** `HTTPURLResponse`: the URL it answers and its status code. */
  datatype HttpUrlResponse = HttpUrlResponse(url: Url, statusCode: int)

  /** `URLResponse`: either a plain response or an HTTP one. */
  datatype UrlResponse = Plain(url: Url) | Http(http: HttpUrlResponse)

  /**
    The `Error` a client can fail with: whatever the system reported
    (an `NSError`, identified by its domain and code), or the client's own
    `UnvalidResponseError` for an outcome that is neither an error nor a
    usable response.
   */
  datatype ClientError = SystemError(domain: string, code: int) | UnvalidResponseError

  /** `HTTPClientResult`. */
  datatype HttpClientResult =
    | Success(data: Bytes, response: HttpUrlResponse)
    | Failure(error: ClientError)

  /** The response is present and is an HTTP response (`response as? HTTPURLResponse`). */
  predicate IsHttp(response: Option<UrlResponse>)
  {
    response.Some? && response.value.Http?
  }

  /**
    The completion closure of `URLSessionHTTPClient.get`: an error wins over
    everything else; otherwise data together with an HTTP response is a
    success, whatever its status code; anything else is `UnvalidResponseError`.
    Being a function, it yields exactly one result per finished task.
   */
  function Classify(data: Option<Bytes>, response: Option<UrlResponse>, error: Option<ClientError>)
    : (r: HttpClientResult)
    // an error is passed through unchanged, whatever the data and the response are
    ensures error.Some? ==> r == Failure(error.value)
    // success exactly when there is no error, there is data and the response is HTTP
    ensures r.Success? <==> error.None? && data.Some? && IsHttp(response)
    // on success both the data and the HTTP response are passed through unchanged
    ensures r.Success? ==> Some(r.data) == data && Some(Http(r.response)) == response
    // without an error, every failure is the client's own UnvalidResponseError
    ensures error.None? && r.Failure? ==> r.error == UnvalidResponseError
  {
    if error.Some? then
      Failure(error.value)
    else if data.Some? && response.Some? && response.value.Http? then
      Success(data.value, response.value.http)
    else
      Failure(UnvalidResponseError)
  }

  /** The status code is never inspected: any HTTP status, 0 included, classifies as success. */
  lemma StatusCodeNotInspected(data: Bytes, url: Url, statusCode: int)
    ensures Classify(Some(data), Some(Http(HttpUrlResponse(url, statusCode))), None)
         == Success(data, HttpUrlResponse(url, statusCode))
  {
  }

  /**
    The three branches are exhaustive and mutually exclusive, stated on the
    result: it is either the reported error passed through, or a success, or
    (with no error reported) the client's own `UnvalidResponseError`, and
    never two of these at once.
   */
  lemma ClassifyOutcomesPartition(data: Option<Bytes>, response: Option<UrlResponse>, error: Option<ClientError>)
    ensures var r := Classify(data, response, error);
            var passedError := error.Some? && r == Failure(error.value);
            var succeeded := r.Success?;
            var unvalid := error.None? && r == Failure(UnvalidResponseError);
            && (passedError || succeeded || unvalid)
            && !(passedError && succeeded)
            && !(passedError && unvalid)
            && !(succeeded && unvalid)
  {
  }
}
