/**
 * The part of Kubernetes' API error package the aggregator inspects: a
 * `StatusError` carries an API `Status` (HTTP code, machine-readable reason,
 * message); any other Go `error` is just a message.
 */
module KubeErrors {

  datatype StatusReason =
    | NotFound
    | AlreadyExists
    | Conflict
    | Invalid
    | InternalError
    | OtherReason(reason: string)

  datatype Status = Status(code: int, reason: StatusReason, message: string)

  datatype Error =
    | StatusError(status: Status)
    | PlainError(message: string)
  {
    /** `err.Error()`: a StatusError prints its status message. */
    function Text(): string
    {
      match this
      case StatusError(s) => s.message
      case PlainError(m) => m
    }
  }

  /** `kapierrors.IsNotFound(err)`: a StatusError whose reason is NotFound. */
  predicate IsNotFound(err: Error)
  {
    err.StatusError? && err.status.reason == NotFound
  }
}
