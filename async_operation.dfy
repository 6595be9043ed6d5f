/**
 * The async-operation wrapper (src/composables/useAsyncOperation.ts): it
 * raises a loading flag around one awaited operation, turns a failure into
 * `null` plus one error notification, and reports success when asked to.
 */
module AsyncOperation {

  import opened Wrappers
  import opened Api
  import opened Message

  /** The fallback of last resort for the error notification. */
  const GenericFailure := "操作失败"

  datatype Options = Options(successMessage: Option<string>, errorMessage: Option<string>)

  /** `error?.response?.data?.message || options.errorMessage || '操作失败'`. */
  function FailureMessage(error: HttpError, options: Options): (m: string)
    ensures m != ""
    ensures error.response.Some? && Truthy(error.response.value.message) ==> m == error.response.value.message.value
    ensures !(error.response.Some? && Truthy(error.response.value.message)) && Truthy(options.errorMessage) ==>
      m == options.errorMessage.value
    ensures !(error.response.Some? && Truthy(error.response.value.message)) && !Truthy(options.errorMessage) ==>
      m == GenericFailure
  {
    var fromServer := if error.response.Some? then error.response.value.message else None;
    OrElse(fromServer, OrElse(options.errorMessage, GenericFailure))
  }

  /** What `execute` resolves with and the notifications it shows. */
  datatype Settled<T> = Settled(result: Option<T>, shown: seq<Notification>)

  /**
   * How `execute` ends: a success returns the operation's value and shows the
   * success message only when one is configured; a failure never propagates,
   * returns null and shows exactly one error notification.
   */
  function Settle<T>(outcome: Outcome<T>, options: Options): (r: Settled<T>)
    ensures outcome.Ok? ==> r.result == Some(outcome.value)
    ensures outcome.Ok? && Truthy(options.successMessage) ==> r.shown == [Success(options.successMessage.value)]
    ensures outcome.Ok? && !Truthy(options.successMessage) ==> r.shown == []
    ensures outcome.Fail? ==> r.result.None? && r.shown == [Error(FailureMessage(outcome.error, options))]
    ensures forall n :: n in r.shown ==> n.kind != WarningKind && n.kind != InfoKind
  {
    match outcome
    case Ok(value) =>
      Settled(Some(value), if Truthy(options.successMessage) then [Success(options.successMessage.value)] else [])
    case Fail(error) =>
      Settled(None, [Error(FailureMessage(error, options))])
  }

  class Operation {
    var isLoading: bool
    const options: Options

    constructor (options: Options)
      ensures this.options == options && !isLoading
    {
      this.options := options;
      isLoading := false;
    }

    /**
     * `execute(...)`, with the awaited operation's outcome given. The flag is
     * up while the operation runs (`loadingWhileRunning`) and down afterwards,
     * in both outcomes.
     */
    method Execute<T>(outcome: Outcome<T>) returns (result: Option<T>, shown: seq<Notification>, ghost loadingWhileRunning: bool)
      modifies this
      ensures loadingWhileRunning && !isLoading
      ensures Settled(result, shown) == Settle(outcome, options)
    {
      isLoading := true;
      loadingWhileRunning := isLoading;
      match outcome {
        case Ok(value) =>
          shown := if Truthy(options.successMessage) then [Success(options.successMessage.value)] else [];
          result := Some(value);
        case Fail(error) =>
          var errorMsg := FailureMessage(error, options);
          shown := [Error(errorMsg)];
          result := None;
      }
      isLoading := false;
    }
  }
}
