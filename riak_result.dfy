/** The uniform result value every client operation returns. */
module RiakResults {
  import opened Clr

  /** Machine-readable outcome codes. Only `Success`, `NotFound`,
      `InvalidResponse` and `BatchException` are produced by the modelled
      client code; `NoConnections` is what the stand-in endpoint reports when
      its pool is exhausted. */
  datatype ResultCode =
    | Success
    | ShuttingDown
    | NotFound
    | CommunicationError
    | InvalidResponse
    | ClusterOffline
    | NoConnections
    | BatchException
    | NoRetries
    | HttpError
    | InvalidRequest

  /** `RiakResult<T>`: a success carrying a value and the optional paging
      state (`Done`, `Continuation`), or an error carrying its code, message
      and whether the node was found offline. */
  datatype RiakResult<+T> =
    | Ok(value: T, done: Option<bool>, continuation: Option<string>)
    | Error(code: ResultCode, errorMessage: string, nodeOffline: bool)
  {
    predicate IsSuccess() { Ok? }

    /** `ResultCode`: a success reports `Success`. */
    function Code(): ResultCode { if Ok? then Success else code }

    /** `NodeOffline`: a success is never offline. */
    function NodeOffline(): bool { Error? && nodeOffline }

    /** The same error (code, message, offline flag) at another value type. */
    function PropagateError<U>(): (r: RiakResult<U>)
      requires Error?
      ensures r.Error? && r.code == code && r.errorMessage == errorMessage && r.nodeOffline == nodeOffline
    {
      Error(code, errorMessage, nodeOffline)
    }

    /** A success whose value is `f` applied to this one's; errors are kept. */
    function Map<U>(f: T -> U): (r: RiakResult<U>)
      ensures r.IsSuccess() == IsSuccess()
      ensures Ok? ==> r.value == f(value) && r.done == done && r.continuation == continuation
      ensures Error? ==> r == PropagateError()
    {
      match this
      case Ok(v, d, c) => Ok(f(v), d, c)
      case Error(c, m, o) => Error(c, m, o)
    }
  }

  /** `RiakResult<T>.Success(value)`: no paging state. */
  function SuccessOf<T>(value: T): RiakResult<T>
  {
    Ok(value, None, None)
  }
}
