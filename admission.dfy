/**
 * The admission responses the validating webhooks build
 * (`admission.ErrorResponse` and `admission.ValidationResponse`) and the
 * response selection their `Handle` methods share.
 */
module Admission {
  import opened Wrappers

  const StatusBadRequest: int := 400
  const StatusInternalServerError: int := 500

  /** A decision: allowed or not, the reason, and the error (its messages; `None` for nil). */
  datatype Decision = Decision(allowed: bool, reason: string, err: Option<seq<string>>)

  /** A response: an error with an HTTP status code and the error's messages, or a validation verdict with its reason. */
  datatype Response =
    | ErrorResponse(code: int, messages: seq<string>)
    | ValidationResponse(allowed: bool, reason: string)

  /** A metadata check's error: nil for no message, otherwise the aggregate of the messages. */
  function AsError(problems: seq<string>): (e: Option<seq<string>>)
    ensures e.None? <==> problems == []
    ensures e.Some? ==> e.value == problems
  {
    if problems == [] then None else Some(problems)
  }

  /**
   * The selection of every `Handle`: a decoding error is a 400 response; a
   * decision with an error is a 500 response; otherwise the decision's verdict
   * and reason.
   */
  function Respond(decodeError: Option<string>, d: Decision): (r: Response)
    ensures decodeError.Some? ==> r == ErrorResponse(StatusBadRequest, [decodeError.value])
    ensures decodeError.None? && d.err.Some? ==> r == ErrorResponse(StatusInternalServerError, d.err.value)
    ensures decodeError.None? && d.err.None? ==> r == ValidationResponse(d.allowed, d.reason)
  {
    match decodeError
    case Some(msg) => ErrorResponse(StatusBadRequest, [msg])
    case None =>
      match d.err
      case Some(msgs) => ErrorResponse(StatusInternalServerError, msgs)
      case None => ValidationResponse(d.allowed, d.reason)
  }
}
