/**
 * The shapes of what the backend and the HTTP client hand to the core: the
 * `{code, data, message}` envelope, the axios response that carries it, the
 * error object a failed call rejects with, and the outcome of an awaited call.
 */
module Api {

  import opened Wrappers

  /** The body of every API response; each field may be absent. */
  datatype Envelope<T> = Envelope(code: Option<int>, data: Option<T>, message: Option<string>)

  /** An axios response: HTTP status and the parsed body, which may be absent. */
  datatype Response<T> = Response(status: int, data: Option<Envelope<T>>)

  /** What an error's `response` holds that the core reads: the status and `response.data.message`. */
  datatype ErrorResponse = ErrorResponse(status: int, message: Option<string>)

  /**
   * A rejected call's error: its `message`, the response if one arrived and
   * whether a request went out (`error.request` is set).
   */
  datatype HttpError = HttpError(message: string, response: Option<ErrorResponse>, request: bool)

  /** How an awaited call settles: it resolves with a value or rejects with an error. */
  datatype Outcome<T> = Ok(value: T) | Fail(error: HttpError)

  /** `res.data?.code === 0 && res.data?.data`, for payload kinds where any present value is truthy. */
  function Succeeded<T>(res: Response<T>): (r: bool)
    ensures r <==> res.data.Some? && res.data.value.code == Some(0) && res.data.value.data.Some?
  {
    res.data.Some? && res.data.value.code == Some(0) && res.data.value.data.Some?
  }

  /** The payload of a response for which `Succeeded` holds. */
  function Payload<T>(res: Response<T>): T
    requires Succeeded(res)
  {
    res.data.value.data.value
  }
}
