/**
 * What an HTTP request made with `requests.get` can come back with, reduced to
 * what the builder's code inspects: the status code and whether `r.json()`
 * produced a body of the expected shape.
 */
module Http {
  import opened Wrappers

  /**
   * One request: a response with its status and its decoded JSON body (`None`
   * when `r.json()` raises), or an exception raised by `requests.get` itself
   * (connection error, timeout).
   */
  datatype Reply<B> = Response(status: int, body: Option<B>) | RequestFailed

  /** A request and the one retry made after a 429; the retry is only sent when needed. */
  datatype Exchange<B> = Exchange(first: Reply<B>, retry: Reply<B>)

  /** The retry the source sends after an HTTP 429 (Too Many Requests). */
  const TooManyRequests := 429

  /** `raise_for_status()` raises `HTTPError` for client and server error statuses. */
  predicate RaisesForStatus(status: int)
  {
    400 <= status < 600
  }

  /** A JSON value as `float()` or `sum()` sees it: a number, or something they reject. */
  datatype Number = Num(value: real) | NotANumber

  /** A member of a JSON object: missing, or present with its value (`null` being `None` in `T`). */
  datatype Member<T> = Missing | Present(content: T)
}
