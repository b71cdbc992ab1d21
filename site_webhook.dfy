/**
 * The webhook validating a site (`Wordpress` object) on creation
 * (pkg/webhook/default_server/site/validating/site_create_handler.go). There
 * is no kind filter: every object is checked. The decoder is not part of this
 * model: its outcome is a parameter.
 */
module SiteWebhook {
  import opened Wrappers
  import opened Labels
  import opened KubeMeta
  import opened Admission
  import InternalSite

  /** A decoded site: its labels and annotations. */
  datatype Site = Site(labels: LabelSet, annotations: LabelSet)

  /** `validatingWordpressFn`: refused with the check's messages when the check fails, admitted otherwise. */
  function Decide(s: Site): (d: Decision)
    ensures InternalSite.Problems(s.labels, s.annotations) != [] ==>
      d == Decision(false, "validation failed", Some(InternalSite.Problems(s.labels, s.annotations)))
    ensures InternalSite.Problems(s.labels, s.annotations) == [] ==> d == Decision(true, "allowed to be admitted", None)
  {
    match AsError(InternalSite.Problems(s.labels, s.annotations))
    case Some(err) => Decision(false, "validation failed", Some(err))
    case None => Decision(true, "allowed to be admitted", None)
  }

  /** `Handle`: the decoder's outcome (an error message or the site) and the decision, as a response. */
  function Handle(decoded: Result<Site, string>): (r: Response)
    ensures decoded.Err? ==> r == ErrorResponse(StatusBadRequest, [decoded.error])
    ensures decoded.Ok? ==> r == Respond(None, Decide(decoded.value))
  {
    match decoded
    case Err(msg) => Respond(Some(msg), Decision(true, "", None))
    case Ok(s) => Respond(None, Decide(s))
  }

  /**
   * A decoded site is admitted exactly when its organization and project
   * labels and its creator are set, and answered with a 500 error otherwise.
   */
  lemma AdmitsValidSites(s: Site)
    ensures Handle(Ok(s)) == ValidationResponse(true, "allowed to be admitted") <==>
      Present(s.labels, OrganizationLabel) && Present(s.labels, ProjectLabel) && Present(s.annotations, CreatedByAnnotation)
    ensures Handle(Ok(s)) != ValidationResponse(true, "allowed to be admitted") ==>
      Handle(Ok(s)) == ErrorResponse(StatusInternalServerError, InternalSite.Problems(s.labels, s.annotations))
  {
    InternalSite.ProblemsEmptyIff(s.labels, s.annotations);
  }
}
