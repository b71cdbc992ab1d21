/**
 * The error values the server core inspects: Kubernetes API errors with
 * their status reason, other errors, and gRPC status errors; and the gRPC
 * status codes and statuses it builds.
 */
module KubeErrors {

  /** The gRPC status codes the core uses. */
  datatype Code = OK | InvalidArgument | NotFound | AlreadyExists | PermissionDenied | Unauthenticated | Internal

  /** `codes.Code.String()`. */
  function CodeString(c: Code): string
  {
    match c
    case OK => "OK"
    case InvalidArgument => "InvalidArgument"
    case NotFound => "NotFound"
    case AlreadyExists => "AlreadyExists"
    case PermissionDenied => "PermissionDenied"
    case Unauthenticated => "Unauthenticated"
    case Internal => "Internal"
  }

  /** The `metav1.StatusReason` values the core tests; the unknown reason is the empty string. */
  const ReasonNotFound: string := "NotFound"
  const ReasonAlreadyExists: string := "AlreadyExists"
  const ReasonForbidden: string := "Forbidden"
  const ReasonUnknown: string := ""

  /** A gRPC status: a code and a message. */
  datatype Status = Status(code: Code, message: string)

  /**
   * An error as the core sees it: a `*k8serrors.StatusError`, another value
   * implementing the `APIStatus` interface (it reports a status reason too),
   * a gRPC status error, or any other error.
   */
  datatype Error =
    | KubeStatusError(reason: string, message: string)
    | OtherAPIStatus(reason: string, message: string)
    | GrpcStatusError(status: Status)
    | PlainError(message: string)

  /** Whether the error implements `APIStatus`. */
  predicate IsAPIStatus(e: Error)
  {
    e.KubeStatusError? || e.OtherAPIStatus?
  }

  /** `reasonForError`: the status reason of an `APIStatus` error, the unknown reason for any other. */
  function ReasonForError(e: Error): (r: string)
    ensures IsAPIStatus(e) ==> r == e.reason
    ensures !IsAPIStatus(e) ==> r == ReasonUnknown
  {
    if IsAPIStatus(e) then e.reason else ReasonUnknown
  }

  /** A Kubernetes NotFound error, as a lookup reports it. */
  predicate IsNotFound(e: Error)
  {
    ReasonForError(e) == ReasonNotFound
  }
}
