/**
 * The project wrapper (pkg/internal/project/project.go). Its display name,
 * label sets, component names and metadata check are written out again in
 * the source, line for line as in the project namespace wrapper; each
 * member here says that it agrees with the namespace wrapper's.
 */
module InternalProject {
  import opened Labels
  import opened KubeMeta
  import InternalProjectNs

  const RequiredLabels: seq<string> := [OrganizationLabel, ProjectLabel, KindLabel]
  const RequiredAnnotations: seq<string> := [CreatedByAnnotation]

  /** `UpdateDisplayName`: the given display name, or the project label when it is empty; nothing else changes. */
  method UpdateDisplayName(p: Object, displayName: string)
    modifies p
    ensures p.annotations == old(p.annotations)[DisplayNameAnnotation := InternalProjectNs.DisplayName(displayName, old(p.labels))]
    ensures p.labels == old(p.labels) && p.name == old(p.name) && p.namespace == old(p.namespace)
  {
    if |displayName| == 0 {
      p.annotations := p.annotations[DisplayNameAnnotation := Get(p.labels, ProjectLabel)];
    } else {
      p.annotations := p.annotations[DisplayNameAnnotation := displayName];
    }
  }

  /** `Labels`: the project label, and the organization label when present; the same set as the namespace wrapper's. */
  function ProjectLabels(projectLabels: LabelSet): (l: LabelSet)
    ensures l == InternalProjectNs.ProjectNsLabels(projectLabels)
    ensures ProjectLabel in l && (OrganizationLabel in l <==> OrganizationLabel in projectLabels)
  {
    var l := map[ProjectLabel := Get(projectLabels, ProjectLabel)];
    if OrganizationLabel in projectLabels then l[OrganizationLabel := projectLabels[OrganizationLabel]] else l
  }

  /** `ComponentLabels`: the project labels extended with the component keys of non-empty fields. */
  function ComponentLabels(projectLabels: LabelSet, c: Component): (l: LabelSet)
    ensures l == InternalProjectNs.ComponentLabels(projectLabels, c)
    ensures Contains(l, ProjectLabels(projectLabels))
  {
    InternalProjectNs.ComponentLabelsExtendLabels(projectLabels, c);
    WithComponent(ProjectLabels(projectLabels), c)
  }

  /** `ComponentName`: the fixed name for an empty format, otherwise the format applied to the project label. */
  function ProjectComponentName(projectLabels: LabelSet, c: Component): (n: string)
    ensures n == InternalProjectNs.ProjectNsComponentName(projectLabels, c)
  {
    match c.nameFormat
    case Fixed => c.objName
    case Around(before, after) => before + Get(projectLabels, ProjectLabel) + after
  }

  /**
   * `ValidateMetadata`: the same messages as the namespace wrapper's check;
   * valid exactly when the organization, project and kind labels and the
   * creator annotation are set and the kind is `project`.
   */
  method ValidateMetadata(projectLabels: LabelSet, annotations: LabelSet) returns (errs: seq<string>)
    ensures errs == InternalProjectNs.Problems(projectLabels, annotations)
    ensures errs == [] <==> InternalProjectNs.ValidLabels(projectLabels) && Present(annotations, CreatedByAnnotation)
  {
    var labelErrs := CollectMissing(projectLabels, RequiredLabels, "label");
    var kindErrs := if Get(projectLabels, KindLabel) != "project" then [InternalProjectNs.WrongKindMessage] else [];
    var annotationErrs := CollectMissing(annotations, RequiredAnnotations, "annotation");
    errs := labelErrs + kindErrs + annotationErrs;
    MissingEmptyIff(projectLabels, RequiredLabels, "label");
    MissingEmptyIff(annotations, RequiredAnnotations, "annotation");
    assert labelErrs == [] <==>
      Present(projectLabels, OrganizationLabel) && Present(projectLabels, ProjectLabel) && Present(projectLabels, KindLabel)
    by {
      assert RequiredLabels[0] == OrganizationLabel && RequiredLabels[1] == ProjectLabel && RequiredLabels[2] == KindLabel;
    }
  }
}
