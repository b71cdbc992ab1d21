/**
 * The webhook validating a namespace on creation as a project namespace
 * (pkg/webhook/default_server/project/validating/project_create_handler.go).
 * The decoder is not part of this model: its outcome is a parameter.
 */
module ProjectWebhook {
  import opened Wrappers
  import opened Labels
  import opened KubeMeta
  import opened Admission
  import InternalProjectNs

  /** A decoded namespace: its labels and annotations. */
  datatype Namespace = Namespace(labels: LabelSet, annotations: LabelSet)

  /**
   * `validatingNamespaceFn`: a namespace of another kind is let through
   * unchecked; a project namespace is refused with the check's messages when
   * the check fails, and admitted otherwise.
   */
  function Decide(ns: Namespace): (d: Decision)
    ensures Get(ns.labels, KindLabel) != "project" ==> d == Decision(true, "not a project, skipping validation", None)
    ensures Get(ns.labels, KindLabel) == "project" && InternalProjectNs.Problems(ns.labels, ns.annotations) != [] ==>
      d == Decision(false, "validation failed", Some(InternalProjectNs.Problems(ns.labels, ns.annotations)))
    ensures Get(ns.labels, KindLabel) == "project" && InternalProjectNs.Problems(ns.labels, ns.annotations) == [] ==>
      d == Decision(true, "allowed to be admitted", None)
  {
    if Get(ns.labels, KindLabel) != "project" then Decision(true, "not a project, skipping validation", None)
    else
      match AsError(InternalProjectNs.Problems(ns.labels, ns.annotations))
      case Some(err) => Decision(false, "validation failed", Some(err))
      case None => Decision(true, "allowed to be admitted", None)
  }

  /** `Handle`: the decoder's outcome (an error message or the namespace) and the decision, as a response. */
  function Handle(decoded: Result<Namespace, string>): (r: Response)
    ensures decoded.Err? ==> r == ErrorResponse(StatusBadRequest, [decoded.error])
    ensures decoded.Ok? ==> r == Respond(None, Decide(decoded.value))
  {
    match decoded
    case Err(msg) => Respond(Some(msg), Decision(true, "", None))
    case Ok(ns) => Respond(None, Decide(ns))
  }

  /**
   * The webhook never answers with a plain refusal: an invalid project
   * namespace gets a 500 error response, and every other decoded namespace
   * is allowed.
   */
  lemma NeverPlainDenial(decoded: Result<Namespace, string>)
    ensures !Handle(decoded).ValidationResponse? || Handle(decoded).allowed
    ensures decoded.Ok? ==>
      (Handle(decoded).ErrorResponse? <==>
        Get(decoded.value.labels, KindLabel) == "project" &&
        InternalProjectNs.Problems(decoded.value.labels, decoded.value.annotations) != [])
  {
  }

  /** A namespace of the project kind is admitted exactly when its labels are valid and the creator is set. */
  lemma AdmitsValidProjects(ns: Namespace)
    requires Get(ns.labels, KindLabel) == "project"
    ensures Handle(Ok(ns)) == ValidationResponse(true, "allowed to be admitted") <==>
      InternalProjectNs.ValidLabels(ns.labels) && Present(ns.annotations, CreatedByAnnotation)
  {
    InternalProjectNs.ProblemsEmptyIff(ns.labels, ns.annotations);
  }
}
