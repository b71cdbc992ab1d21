/**
 * The gRPC status errors of the API server (pkg/apiserver/status/status.go):
 * a status plus the list of underlying errors, the conversion of an error to
 * such a status, and the per-code constructors.
 */
module ApiStatus {
  import opened Wrappers
  import opened KubeErrors

  /** `k8sErrorMap`: the three Kubernetes reasons that have a gRPC code of their own. */
  function K8sCode(reason: string): (c: Option<Code>)
    ensures c.Some? <==> reason in {ReasonNotFound, ReasonAlreadyExists, ReasonForbidden}
  {
    if reason == ReasonNotFound then Some(NotFound)
    else if reason == ReasonAlreadyExists then Some(AlreadyExists)
    else if reason == ReasonForbidden then Some(PermissionDenied)
    else None
  }

  /** A status with the errors that caused it; `Because` adds to the errors in place. */
  class StatusError {
    var status: Status
    var errors: seq<Error>

    constructor (status: Status, errors: seq<Error>)
      ensures this.status == status && this.errors == errors
    {
      this.status := status;
      this.errors := errors;
    }

    /** `Because`: appends the given errors, in order, after the existing ones and returns the same status error. */
    method Because(errs: seq<Error>) returns (r: StatusError)
      modifies this
      ensures r == this
      ensures errors == old(errors) + errs && status == old(status)
    {
      errors := errors + errs;
      r := this;
    }
  }

  /**
   * The status `FromError` chooses: the code of the reason when the error is
   * a `*k8serrors.StatusError` with a mapped reason, named by the code;
   * Internal "internal error" otherwise.
   */
  function FromErrorStatus(err: Error): (s: Status)
    ensures err.KubeStatusError? && K8sCode(err.reason).Some? ==>
      s == Status(K8sCode(err.reason).value, CodeString(K8sCode(err.reason).value))
    ensures !(err.KubeStatusError? && K8sCode(err.reason).Some?) ==> s == Status(Internal, "internal error")
  {
    match err
    case KubeStatusError(reason, _) =>
      (match K8sCode(reason)
       case Some(code) => Status(code, CodeString(code))
       case None => Status(Internal, "internal error"))
    case _ => Status(Internal, "internal error")
  }

  /** `FromError`: a new status error whose only cause is `err`. */
  method FromError(err: Error) returns (s: StatusError)
    ensures fresh(s) && s.status == FromErrorStatus(err) && s.errors == [err]
  {
    s := new StatusError(Status(Internal, "internal error"), [err]);
    if err.KubeStatusError? {
      var code := K8sCode(err.reason);
      if code.Some? {
        s.status := Status(code.value, CodeString(code.value));
      }
    }
  }

  /**
   * NotFound, AlreadyExists and Forbidden become NotFound, AlreadyExists and
   * PermissionDenied; any other reason, any other error type, and an
   * `APIStatus` value that is not a `*k8serrors.StatusError` are Internal.
   */
  lemma FromErrorCodes(reason: string, message: string)
    ensures FromErrorStatus(KubeStatusError(ReasonNotFound, message)).code == NotFound
    ensures FromErrorStatus(KubeStatusError(ReasonAlreadyExists, message)).code == AlreadyExists
    ensures FromErrorStatus(KubeStatusError(ReasonForbidden, message)).code == PermissionDenied
    ensures reason !in {ReasonNotFound, ReasonAlreadyExists, ReasonForbidden} ==>
      FromErrorStatus(KubeStatusError(reason, message)) == Status(Internal, "internal error")
    ensures FromErrorStatus(OtherAPIStatus(reason, message)) == Status(Internal, "internal error")
    ensures FromErrorStatus(PlainError(message)) == Status(Internal, "internal error")
  {
  }

  /** `FromError` never reports success. */
  lemma FromErrorNeverOK(err: Error)
    ensures FromErrorStatus(err).code != OK
  {
  }

  /** A constructor: a new status error with `code`, the already formatted message, and no causes. */
  method New(code: Code, message: string) returns (s: StatusError)
    ensures fresh(s) && s.status == Status(code, message) && s.errors == []
  {
    s := new StatusError(Status(code, message), []);
  }

  /** `InvalidArgumentf`. */
  method InvalidArgumentf(message: string) returns (s: StatusError)
    ensures fresh(s) && s.status == Status(InvalidArgument, message) && s.errors == []
  {
    s := New(InvalidArgument, message);
  }

  /** `InvalidArgument`: the code's name as the message. */
  method InvalidArgumentError() returns (s: StatusError)
    ensures fresh(s) && s.status == Status(InvalidArgument, "InvalidArgument") && s.errors == []
  {
    s := InvalidArgumentf(CodeString(InvalidArgument));
  }

  /** `Unauthenticatedf`. */
  method Unauthenticatedf(message: string) returns (s: StatusError)
    ensures fresh(s) && s.status == Status(Unauthenticated, message) && s.errors == []
  {
    s := New(Unauthenticated, message);
  }

  /** `Unauthenticated`: the code's name as the message. */
  method UnauthenticatedError() returns (s: StatusError)
    ensures fresh(s) && s.status == Status(Unauthenticated, "Unauthenticated") && s.errors == []
  {
    s := Unauthenticatedf(CodeString(Unauthenticated));
  }

  /** `NotFoundf`. */
  method NotFoundf(message: string) returns (s: StatusError)
    ensures fresh(s) && s.status == Status(NotFound, message) && s.errors == []
  {
    s := New(NotFound, message);
  }

  /** `NotFound`: the code's name as the message. */
  method NotFoundError() returns (s: StatusError)
    ensures fresh(s) && s.status == Status(NotFound, "NotFound") && s.errors == []
  {
    s := NotFoundf(CodeString(NotFound));
  }

  /** `InternalErrorf`. */
  method InternalErrorf(message: string) returns (s: StatusError)
    ensures fresh(s) && s.status == Status(Internal, message) && s.errors == []
  {
    s := New(Internal, message);
  }

  /** `InternalError`: the code's name as the message. */
  method InternalError() returns (s: StatusError)
    ensures fresh(s) && s.status == Status(Internal, "Internal") && s.errors == []
  {
    s := InternalErrorf(CodeString(Internal));
  }
}
