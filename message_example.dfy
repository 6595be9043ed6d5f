/**
 * `handleApiError` (src/utils/messageExample.ts): the notification shown for a
 * failed API call, chosen from the response status, else from whether a
 * request went out, else from the error's own message.
 */
module MessageExample {

  import opened Wrappers
  import opened Api
  import opened Message
  import Strings

  const NetworkTitle := "网络错误"
  const NetworkDescription := "无法连接到服务器，请检查您的网络连接"
  const RequestTitle := "请求错误"
  const UnknownDescription := "发生未知错误"
  const HttpErrorPrefix := "HTTP错误: "

  /** The fixed pair for the four statuses the switch names, if `status` is one of them. */
  function KnownStatus(status: int): (r: Option<(string, string)>)
    ensures r.Some? <==> status in {401, 403, 404, 500}
  {
    match status
    case 401 => Some(("未授权", "请先登录"))
    case 403 => Some(("权限不足", "您没有权限执行此操作"))
    case 404 => Some(("资源不存在", "请求的资源不存在"))
    case 500 => Some(("服务器错误", "服务器发生错误，请稍后再试"))
    case _ => None
  }

  /**
   * The one notification `handleApiError(error)` shows; it is always an error
   * with a description.
   */
  function HandleApiError(error: HttpError): (n: Notification)
    ensures n.kind == ErrorKind && n.description.Some?
    ensures error.response.Some? && KnownStatus(error.response.value.status).Some? ==>
      (n.title, n.description.value) == KnownStatus(error.response.value.status).value
    ensures error.response.Some? && KnownStatus(error.response.value.status).None? ==>
      n.title == RequestTitle && n.description.value == HttpErrorPrefix + Strings.IntToString(error.response.value.status)
    ensures error.response.None? && error.request ==> n == ErrorWith(NetworkTitle, NetworkDescription)
    ensures error.response.None? && !error.request ==>
      n == ErrorWith(RequestTitle, if error.message != "" then error.message else UnknownDescription)
  {
    match error.response
    case Some(response) =>
      (match KnownStatus(response.status)
       case Some(pair) => ErrorWith(pair.0, pair.1)
       case None => ErrorWith(RequestTitle, HttpErrorPrefix + Strings.IntToString(response.status)))
    case None =>
      if error.request then ErrorWith(NetworkTitle, NetworkDescription)
      else ErrorWith(RequestTitle, OrElse(Some(error.message), UnknownDescription))
  }

  /** A present response decides alone: the request flag and the message play no part. */
  lemma ResponseTakesPrecedence(error: HttpError, request: bool, message: string)
    requires error.response.Some?
    ensures HandleApiError(error.(request := request, message := message)) == HandleApiError(error)
  {
  }

  /** 401 asks the user to log in. */
  lemma UnauthorizedAsksForLogin(error: HttpError)
    requires error.response.Some? && error.response.value.status == 401
    ensures HandleApiError(error) == ErrorWith("未授权", "请先登录")
  {
  }

  /** For any other status the description carries the status, which can be read back from it. */
  lemma OtherStatusIsReported(error: HttpError)
    requires error.response.Some? && KnownStatus(error.response.value.status).None?
    ensures var d := HandleApiError(error).description.value;
      |HttpErrorPrefix| <= |d| && d[..|HttpErrorPrefix|] == HttpErrorPrefix
      && Strings.DecimalValue(d[|HttpErrorPrefix|..]) == error.response.value.status
  {
    var d := HandleApiError(error).description.value;
    assert d[|HttpErrorPrefix|..] == Strings.IntToString(error.response.value.status);
    Strings.IntToStringValue(error.response.value.status);
  }
}
