/**
 * The webhook validating a namespace on creation as an organization namespace
 * (pkg/webhook/default_server/organization/validating/organization_create_handler.go).
 * The decoder is not part of this model: its outcome is a parameter.
 */
module OrganizationWebhook {
  import opened Wrappers
  import opened Labels
  import opened KubeMeta
  import opened Admission
  import InternalOrganization

  /** A decoded namespace: its labels and annotations. */
  datatype Namespace = Namespace(labels: LabelSet, annotations: LabelSet)

  /**
   * `validatingNamespaceFn`: a namespace of another kind is let through
   * unchecked; an organization namespace is refused with the check's messages
   * when the check fails, and admitted otherwise.
   */
  function Decide(ns: Namespace): (d: Decision)
    ensures Get(ns.labels, KindLabel) != "organization" ==>
      d == Decision(true, "not an organization, skipping validation", None)
    ensures Get(ns.labels, KindLabel) == "organization" && InternalOrganization.Problems(ns.labels, ns.annotations) != [] ==>
      d == Decision(false, "validation failed", Some(InternalOrganization.Problems(ns.labels, ns.annotations)))
    ensures Get(ns.labels, KindLabel) == "organization" && InternalOrganization.Problems(ns.labels, ns.annotations) == [] ==>
      d == Decision(true, "allowed to be admitted", None)
  {
    if Get(ns.labels, KindLabel) != "organization" then Decision(true, "not an organization, skipping validation", None)
    else
      match AsError(InternalOrganization.Problems(ns.labels, ns.annotations))
      case Some(err) => Decision(false, "validation failed", Some(err))
      case None => Decision(true, "allowed to be admitted", None)
  }

  /** `Handle`: the decoder's outcome (an error message or the namespace) and the decision, as a response. */
  function Handle(decoded: Result<Namespace, string>): (r: Response)
    ensures decoded.Err? ==> r == ErrorResponse(StatusBadRequest, [decoded.error])
    ensures decoded.Ok? ==> r == Respond(None, Decide(decoded.value))
  {
    match decoded
    case Err(msg) => Respond(Some(msg), Decision(true, "", None))
    case Ok(ns) => Respond(None, Decide(ns))
  }

  /**
   * A decoded organization namespace is admitted exactly when its
   * organization label and creator are set, and answered with a 500 error
   * otherwise; a plain refusal never happens.
   */
  lemma AdmitsValidOrganizations(ns: Namespace)
    requires Get(ns.labels, KindLabel) == "organization"
    ensures Handle(Ok(ns)) == ValidationResponse(true, "allowed to be admitted") <==>
      Present(ns.labels, OrganizationLabel) && Present(ns.annotations, CreatedByAnnotation)
    ensures Handle(Ok(ns)) != ValidationResponse(true, "allowed to be admitted") ==>
      Handle(Ok(ns)).ErrorResponse? && Handle(Ok(ns)).code == StatusInternalServerError
  {
    InternalOrganization.ProblemsEmptyIff(ns.labels, ns.annotations);
  }

  /** Any other kind is let through whatever its metadata. */
  lemma SkipsOtherKinds(ns: Namespace)
    requires Get(ns.labels, KindLabel) != "organization"
    ensures Handle(Ok(ns)) == ValidationResponse(true, "not an organization, skipping validation")
  {
  }
}
