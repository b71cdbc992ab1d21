/**
 * The metadata a project's dependent objects carry
 * (pkg/internal/project/meta.go): the organization and project labels and
 * the creator annotation, the project's namespace name, and the check.
 */
module InternalProjectMeta {
  import opened Labels
  import opened KubeMeta

  const RequiredLabels: seq<string> := [OrganizationLabel, ProjectLabel]
  const RequiredAnnotations: seq<string> := [CreatedByAnnotation]

  /** `GetNamespaceName`: the project's namespace, `proj-<project name>`. */
  function GetNamespaceName(projectName: string): string
  {
    "proj-" + projectName
  }

  /** Distinct projects get distinct namespaces. */
  lemma NamespaceNameInjective(p1: string, p2: string)
    requires GetNamespaceName(p1) == GetNamespaceName(p2)
    ensures p1 == p2
  {
    assert p1 == GetNamespaceName(p1)[5..];
  }

  /** The labels `SetMetadata` leaves: the organization and project name written over `labels`. */
  function MetadataLabels(labels: LabelSet, projectName: string, org: string): (l: LabelSet)
    ensures l.Keys == labels.Keys + {OrganizationLabel, ProjectLabel}
    ensures l[OrganizationLabel] == org && l[ProjectLabel] == projectName
    ensures forall k :: k in labels && k != OrganizationLabel && k != ProjectLabel ==> l[k] == labels[k]
  {
    labels[OrganizationLabel := org][ProjectLabel := projectName]
  }

  /** `SetMetadata`: writes the two labels and the creator annotation in place; nothing else changes. */
  method SetMetadata(obj: Object, projectName: string, org: string, createdBy: string)
    modifies obj
    ensures obj.labels == MetadataLabels(old(obj.labels), projectName, org)
    ensures obj.annotations == old(obj.annotations)[CreatedByAnnotation := createdBy]
    ensures obj.name == old(obj.name) && obj.namespace == old(obj.namespace)
  {
    obj.labels := obj.labels[OrganizationLabel := org];
    obj.labels := obj.labels[ProjectLabel := projectName];
    obj.annotations := obj.annotations[CreatedByAnnotation := createdBy];
  }

  /** The messages `ValidateMetadata` reports for a project. */
  function Problems(projectLabels: LabelSet, annotations: LabelSet): seq<string>
  {
    Missing(projectLabels, RequiredLabels, "label") + Missing(annotations, RequiredAnnotations, "annotation")
  }

  /**
   * `ValidateMetadata`: one message per missing or empty required key; no
   * kind check. Valid exactly when the organization and project labels and
   * the creator annotation are set.
   */
  method ValidateMetadata(projectLabels: LabelSet, annotations: LabelSet) returns (errs: seq<string>)
    ensures errs == Problems(projectLabels, annotations)
    ensures errs == [] <==>
      Present(projectLabels, OrganizationLabel) && Present(projectLabels, ProjectLabel) && Present(annotations, CreatedByAnnotation)
  {
    var labelErrs := CollectMissing(projectLabels, RequiredLabels, "label");
    var annotationErrs := CollectMissing(annotations, RequiredAnnotations, "annotation");
    errs := labelErrs + annotationErrs;
    MissingEmptyIff(projectLabels, RequiredLabels, "label");
    MissingEmptyIff(annotations, RequiredAnnotations, "annotation");
  }

  /** Metadata set with a non-empty organization, project name and creator passes the check. */
  lemma SetMetadataValidates(labels: LabelSet, annotations: LabelSet, projectName: string, org: string, createdBy: string)
    requires projectName != "" && org != "" && createdBy != ""
    ensures Problems(MetadataLabels(labels, projectName, org), annotations[CreatedByAnnotation := createdBy]) == []
  {
    MissingEmptyIff(MetadataLabels(labels, projectName, org), RequiredLabels, "label");
    MissingEmptyIff(annotations[CreatedByAnnotation := createdBy], RequiredAnnotations, "annotation");
  }
}
