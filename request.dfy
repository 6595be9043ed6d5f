/**
 * The interceptors of the shared axios instance (src/utils/request.ts): the
 * request side adds the bearer token, the response side lets envelope code 0
 * through and turns everything else into a rejection, and the error side
 * drops the stored token on status 40100.
 */
module Request {

  import opened Wrappers
  import opened Api
  import Storage

  const AuthorizationHeader := "Authorization"
  const BearerPrefix := "Bearer "
  const UnauthorizedStatus := 40100
  /** Fallback text of the rejection when the envelope carries no message. */
  const DefaultErrorMessage := "Error"
  /**
   * The TypeError that `res.data.code` throws when the response has no body.
   * The text is illustrative: it is V8's wording for an undefined body; a
   * `null` body reads "of null", and other engines word it differently.
   */
  const MissingBodyMessage := "Cannot read properties of undefined (reading 'code')"

  /** The part of an axios request config the interceptor looks at and must preserve. */
  datatype Config = Config(url: string, verb: string, headers: map<string, string>)

  /**
   * The request interceptor: with a non-empty stored token the headers gain
   * `Authorization: Bearer <token>` (replacing a caller's value under that
   * exact name) and keep every other header; otherwise the config passes as is.
   */
  function OnRequest(storage: Storage.LocalStorage, config: Config): (r: Config)
    reads storage
    ensures !Truthy(storage.GetItem(Storage.TokenKey)) ==> r == config
    ensures Truthy(storage.GetItem(Storage.TokenKey)) ==>
      && r.url == config.url && r.verb == config.verb
      && r.headers.Keys == config.headers.Keys + {AuthorizationHeader}
      && r.headers[AuthorizationHeader] == BearerPrefix + storage.items[Storage.TokenKey]
      && forall h :: h in config.headers && h != AuthorizationHeader ==> r.headers[h] == config.headers[h]
  {
    var token := storage.GetItem(Storage.TokenKey);
    if Truthy(token) then
      config.(headers := config.headers[AuthorizationHeader := BearerPrefix + token.value])
    else
      config
  }

  /** The request interceptor's error side: the setup error is passed on as the rejection. */
  function OnRequestError(error: HttpError): (r: Outcome<Config>)
    ensures r.Fail? && r.error == error
  {
    Fail(error)
  }

  /**
   * The response interceptor: code 0 resolves with the response untouched;
   * any other code (or none) rejects with an `Error` whose message is the
   * envelope's message, or "Error" when that is empty or absent.
   */
  function OnResponse<T>(res: Response<T>): (r: Outcome<Response<T>>)
    ensures r.Ok? <==> res.data.Some? && res.data.value.code == Some(0)
    ensures r.Ok? ==> r.value == res
    ensures res.data.Some? && res.data.value.code != Some(0) ==>
      && r.Fail? && r.error.response.None? && !r.error.request
      && (Truthy(res.data.value.message) ==> r.error.message == res.data.value.message.value)
      && (!Truthy(res.data.value.message) ==> r.error.message == DefaultErrorMessage)
    ensures res.data.None? ==> r == Fail(HttpError(MissingBodyMessage, None, false))
  {
    match res.data
    case None => Fail(HttpError(MissingBodyMessage, None, false))
    case Some(envelope) =>
      if envelope.code == Some(0) then Ok(res)
      else Fail(HttpError(OrElse(envelope.message, DefaultErrorMessage), None, false))
  }

  /** Status codes an HTTP response carries: 100 to 599. */
  predicate IsHttpStatus(status: int)
  {
    100 <= status <= 599
  }

  /** The one status on which the error side changes storage. */
  function IsUnauthorized(error: HttpError): (r: bool)
    ensures r <==> error.response.Some? && error.response.value.status == UnauthorizedStatus
    ensures r ==> !IsHttpStatus(error.response.value.status)
  {
    error.response.Some? && error.response.value.status == UnauthorizedStatus
  }

  /**
   * The response interceptor's error side: status 40100 removes the stored
   * token; 40300, 40400, 50000 and every other status only log; a missing
   * response does nothing. The call always rejects with the original error.
   */
  method OnResponseError<T>(storage: Storage.LocalStorage, error: HttpError) returns (r: Outcome<T>)
    modifies storage
    ensures IsUnauthorized(error) ==> storage.items == old(storage.items) - {Storage.TokenKey}
    ensures !IsUnauthorized(error) ==> storage.items == old(storage.items)
    ensures r == Fail(error)
  {
    if error.response.Some? {
      match error.response.value.status
      case 40100 =>
        storage.RemoveItem(Storage.TokenKey);
      case 40300 =>
        // logs "No permission"
      case 40400 =>
        // logs "Resource not found"
      case 50000 =>
        // logs "Server error"
      case _ =>
        // logs the status
    }
    r := Fail(error);
  }

  // ---------------------------------------------------------------------------
  // The token is never cleared as written
  // ---------------------------------------------------------------------------

  /**
   * As written, the error side compares the HTTP status with the five-digit
   * business code 40100, which no HTTP response carries: for every status from
   * 100 to 599 `OnResponseError` leaves storage alone.
   */
  lemma UnauthorizedNeverMatchesHttpStatus(error: HttpError)
    requires error.response.Some? && IsHttpStatus(error.response.value.status)
    ensures !IsUnauthorized(error)
  {
  }

  /**
   * The business code 40100 arrives inside an HTTP 200 envelope and is
   * rejected by the success side, which never touches storage, so the stale
   * token survives: the concrete envelope `{code: 40100, message: "未登录"}`.
   */
  lemma NotLoggedInEnvelopeKeepsToken()
    ensures var res: Response<int> := Response(200, Some(Envelope(Some(UnauthorizedStatus), None, Some("未登录"))));
      OnResponse(res) == Fail(HttpError("未登录", None, false))
  {
  }

  /** A response that `Succeeded` describes is one the success side passes through untouched. */
  lemma SucceededPassesInterceptor<T>(res: Response<T>)
    requires Succeeded(res)
    ensures OnResponse(res) == Ok(res)
  {
  }

  /**
   * The success side as evidently intended: the same classification as
   * `OnResponse`, and an envelope with code 40100 also removes the stored
   * token; every other response leaves storage unchanged.
   */
  method OnResponseClearingToken<T>(storage: Storage.LocalStorage, res: Response<T>) returns (r: Outcome<Response<T>>)
    modifies storage
    ensures r == OnResponse(res)
    ensures res.data.Some? && res.data.value.code == Some(UnauthorizedStatus) ==>
      storage.items == old(storage.items) - {Storage.TokenKey} && Storage.TokenKey !in storage.items
    ensures !(res.data.Some? && res.data.value.code == Some(UnauthorizedStatus)) ==>
      storage.items == old(storage.items)
  {
    r := OnResponse(res);
    if res.data.Some? && res.data.value.code == Some(UnauthorizedStatus) {
      storage.RemoveItem(Storage.TokenKey);
    }
  }
}
