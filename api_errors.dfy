/**
 * The API server's own error values (pkg/apiserver/errors/errors.go): three
 * shared values with an HTTP-like code and a message, chosen by the status
 * reason of an error.
 */
module ApiErrors {
  import opened KubeErrors
  import InternalStatus

  /** `StatusError`: a code and a message. */
  datatype ApiserverError = ApiserverError(code: int, msg: string)

  const NotFoundError: ApiserverError := ApiserverError(404, "not found")
  const AlreadyExistsError: ApiserverError := ApiserverError(302, "already exists")
  const InternalError: ApiserverError := ApiserverError(500, "internal error")

  /** `NewApiserverError`: the shared value for the error's reason, `InternalError` for any other. */
  function NewApiserverError(err: Error): (e: ApiserverError)
    ensures ReasonForError(err) == ReasonNotFound ==> e == NotFoundError
    ensures ReasonForError(err) == ReasonAlreadyExists ==> e == AlreadyExistsError
    ensures ReasonForError(err) !in {ReasonNotFound, ReasonAlreadyExists} ==> e == InternalError
  {
    var reason := ReasonForError(err);
    if reason == ReasonNotFound then NotFoundError
    else if reason == ReasonAlreadyExists then AlreadyExistsError
    else InternalError
  }

  /** `Error()`: the message. */
  function ErrorMessage(e: ApiserverError): string
  {
    e.msg
  }

  /** For every error, the message is the one the older status conversion gives, and the code is 404, 302 or 500. */
  lemma AgreesWithInternalStatus(err: Error)
    ensures ErrorMessage(NewApiserverError(err)) == InternalStatus.FromError(err).message
    ensures NewApiserverError(err).code in {404, 302, 500}
  {
  }
}
