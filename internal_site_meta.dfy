/**
 * The metadata a site's dependent objects carry (pkg/internal/site/meta.go):
 * the site, project and organization labels and the creator annotation,
 * how they are set from a site, and how they are checked.
 */
module InternalSiteMeta {
  import opened Labels
  import opened KubeMeta

  const RequiredLabels: seq<string> := [OrganizationLabel, ProjectLabel, SiteLabel]
  const RequiredAnnotations: seq<string> := [CreatedByAnnotation]

  /** The labels `SetMetadata` leaves: the site's name, project and organization written over `labels`. */
  function MetadataLabels(labels: LabelSet, siteName: string, siteLabels: LabelSet): (l: LabelSet)
    ensures l.Keys == labels.Keys + {SiteLabel, ProjectLabel, OrganizationLabel}
    ensures l[SiteLabel] == siteName
    ensures l[ProjectLabel] == Get(siteLabels, ProjectLabel) && l[OrganizationLabel] == Get(siteLabels, OrganizationLabel)
    ensures forall k :: k in labels && k != SiteLabel && k != ProjectLabel && k != OrganizationLabel ==> l[k] == labels[k]
  {
    labels[SiteLabel := siteName][ProjectLabel := Get(siteLabels, ProjectLabel)][OrganizationLabel := Get(siteLabels, OrganizationLabel)]
  }

  /**
   * `SetMetadata`: writes the three labels and the creator annotation into
   * the object's maps in place; nothing else of the object changes.
   */
  method SetMetadata(obj: Object, siteName: string, siteLabels: LabelSet, createdBy: string)
    modifies obj
    ensures obj.labels == MetadataLabels(old(obj.labels), siteName, siteLabels)
    ensures obj.annotations == old(obj.annotations)[CreatedByAnnotation := createdBy]
    ensures obj.name == old(obj.name) && obj.namespace == old(obj.namespace)
  {
    obj.labels := obj.labels[SiteLabel := siteName];
    obj.labels := obj.labels[ProjectLabel := Get(siteLabels, ProjectLabel)];
    obj.labels := obj.labels[OrganizationLabel := Get(siteLabels, OrganizationLabel)];
    obj.annotations := obj.annotations[CreatedByAnnotation := createdBy];
  }

  /** The messages `ValidateMetadata` reports for a site. */
  function Problems(siteLabels: LabelSet, annotations: LabelSet): seq<string>
  {
    Missing(siteLabels, RequiredLabels, "label") + Missing(annotations, RequiredAnnotations, "annotation")
  }

  /**
   * `ValidateMetadata`: one message per missing or empty required label,
   * then annotation; valid exactly when all four keys are set.
   */
  method ValidateMetadata(siteLabels: LabelSet, annotations: LabelSet) returns (errs: seq<string>)
    ensures errs == Problems(siteLabels, annotations)
    ensures errs == [] <==>
      Present(siteLabels, OrganizationLabel) && Present(siteLabels, ProjectLabel) && Present(siteLabels, SiteLabel) &&
      Present(annotations, CreatedByAnnotation)
  {
    var labelErrs := CollectMissing(siteLabels, RequiredLabels, "label");
    var annotationErrs := CollectMissing(annotations, RequiredAnnotations, "annotation");
    errs := labelErrs + annotationErrs;
    MissingEmptyIff(siteLabels, RequiredLabels, "label");
    MissingEmptyIff(annotations, RequiredAnnotations, "annotation");
    assert labelErrs == [] <==>
      Present(siteLabels, OrganizationLabel) && Present(siteLabels, ProjectLabel) && Present(siteLabels, SiteLabel)
    by {
      assert RequiredLabels[0] == OrganizationLabel && RequiredLabels[1] == ProjectLabel && RequiredLabels[2] == SiteLabel;
    }
  }

  /** Metadata set from a site with a name, a project, an organization and a creator passes the check. */
  lemma SetMetadataValidates(labels: LabelSet, annotations: LabelSet, siteName: string, siteLabels: LabelSet, createdBy: string)
    requires siteName != "" && createdBy != ""
    requires Present(siteLabels, ProjectLabel) && Present(siteLabels, OrganizationLabel)
    ensures Problems(MetadataLabels(labels, siteName, siteLabels), annotations[CreatedByAnnotation := createdBy]) == []
  {
    var l := MetadataLabels(labels, siteName, siteLabels);
    MissingEmptyIff(l, RequiredLabels, "label");
    MissingEmptyIff(annotations[CreatedByAnnotation := createdBy], RequiredAnnotations, "annotation");
  }
}
