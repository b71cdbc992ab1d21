/**
 * The older conversion of Kubernetes API errors to gRPC statuses
 * (pkg/apiserver/internal/status/status.go).
 */
module InternalStatus {
  import opened Wrappers
  import opened KubeErrors

  /** `FromError`: NotFound and AlreadyExists keep their meaning; every other reason is Internal. */
  function FromError(err: Error): (s: Status)
    ensures ReasonForError(err) == ReasonNotFound ==> s == Status(NotFound, "not found")
    ensures ReasonForError(err) == ReasonAlreadyExists ==> s == Status(AlreadyExists, "already exists")
    ensures ReasonForError(err) !in {ReasonNotFound, ReasonAlreadyExists} ==> s == Status(Internal, "internal error")
  {
    var reason := ReasonForError(err);
    if reason == ReasonNotFound then Status(NotFound, "not found")
    else if reason == ReasonAlreadyExists then Status(AlreadyExists, "already exists")
    else Status(Internal, "internal error")
  }

  /** `status.Status.Err()`: no error for OK, otherwise the status as an error. */
  function Err(s: Status): (e: Option<Error>)
    ensures e.None? <==> s.code == OK
    ensures e.Some? ==> e.value.GrpcStatusError? && e.value.status == s
  {
    if s.code == OK then None else Some(GrpcStatusError(s))
  }

  /** `Error`: the error form of `FromError`; it is never nil. */
  function StatusErr(err: Error): (e: Option<Error>)
    ensures e == Err(FromError(err)) && e.Some?
  {
    Err(FromError(err))
  }

  /**
   * Forbidden, unlike in the API server's own status package, is Internal
   * here; an `APIStatus` error of any type is mapped by its reason, and an
   * error without a reason is Internal.
   */
  lemma ForbiddenAndPlainAreInternal(message: string, reason: string)
    ensures FromError(KubeStatusError(ReasonForbidden, message)).code == Internal
    ensures FromError(OtherAPIStatus(ReasonNotFound, message)).code == NotFound
    ensures FromError(PlainError(message)) == Status(Internal, "internal error")
    ensures FromError(GrpcStatusError(Status(NotFound, message))) == Status(Internal, "internal error")
  {
  }
}
