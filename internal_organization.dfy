/**
 * The organization wrapper (pkg/internal/organization/organization.go): the
 * organization label set, the owner and member role objects' names and
 * namespaces, and the metadata check.
 */
module InternalOrganization {
  import opened Labels
  import opened KubeMeta

  const RequiredLabels: seq<string> := [OrganizationLabel, KindLabel]
  const RequiredAnnotations: seq<string> := [CreatedByAnnotation]

  /** A component of an organization: its name parts, and a namespace format next to the name format. */
  datatype OrgComponent = OrgComponent(base: Component, namespaceFormat: NameFormat, objNamespace: string)

  const OwnerClusterRole: OrgComponent :=
    OrgComponent(Component("", "", Around("dashboard.presslabs.com:organization:", ":owner"), ""), Fixed, "")
  const OwnerClusterRoleBinding: OrgComponent :=
    OrgComponent(Component("", "", Around("dashboard.presslabs.com:organization:", ":owners"), ""), Fixed, "")
  const MemberRoleBinding: OrgComponent :=
    OrgComponent(Component("", "", Fixed, "members"), Around("", ""), "")

  /** `Labels`: exactly the organization label, empty when the namespace lacks it. */
  function OrganizationLabels(orgLabels: LabelSet): (l: LabelSet)
    ensures l.Keys == {OrganizationLabel} && l[OrganizationLabel] == Get(orgLabels, OrganizationLabel)
  {
    map[OrganizationLabel := Get(orgLabels, OrganizationLabel)]
  }

  /** `ComponentLabels`: the organization label plus the component keys of non-empty fields. */
  function ComponentLabels(orgLabels: LabelSet, c: OrgComponent): LabelSet
  {
    WithComponent(OrganizationLabels(orgLabels), c.base)
  }

  /** The component labels keep the organization label and add only the component keys of non-empty fields. */
  lemma ComponentLabelsExtendLabels(orgLabels: LabelSet, c: OrgComponent)
    ensures Contains(ComponentLabels(orgLabels, c), OrganizationLabels(orgLabels))
    ensures ComponentLabels(orgLabels, c).Keys == {OrganizationLabel} +
      (if |c.base.app| > 0 then {AppNameLabel} else {}) + (if |c.base.name| > 0 then {AppComponentLabel} else {})
  {
  }

  /** `ComponentName`: the fixed name, or the format applied to the organization label. */
  function OrgComponentName(orgLabels: LabelSet, c: OrgComponent): string
  {
    ComponentName(c.base, Get(orgLabels, OrganizationLabel))
  }

  /** `ComponentNamespace`: the fixed namespace for an empty format, or the format applied to the object's name. */
  function ComponentNamespace(objName: string, c: OrgComponent): string
  {
    match c.namespaceFormat
    case Fixed => c.objNamespace
    case Around(before, after) => before + objName + after
  }

  /**
   * The owner cluster role and its binding are named after the organization
   * and cluster-scoped (empty namespace); the member binding is `members`,
   * in the namespace named after the organization object.
   */
  lemma ComponentNamesAndNamespaces(orgLabels: LabelSet, objName: string)
    ensures OrgComponentName(orgLabels, OwnerClusterRole) ==
      "dashboard.presslabs.com:organization:" + Get(orgLabels, OrganizationLabel) + ":owner"
    ensures OrgComponentName(orgLabels, OwnerClusterRoleBinding) ==
      "dashboard.presslabs.com:organization:" + Get(orgLabels, OrganizationLabel) + ":owners"
    ensures OrgComponentName(orgLabels, OwnerClusterRole) != OrgComponentName(orgLabels, OwnerClusterRoleBinding)
    ensures ComponentNamespace(objName, OwnerClusterRole) == "" && ComponentNamespace(objName, OwnerClusterRoleBinding) == ""
    ensures OrgComponentName(orgLabels, MemberRoleBinding) == "members"
    ensures ComponentNamespace(objName, MemberRoleBinding) == objName
  {
    assert "" + objName + "" == objName;
  }

  /** Two organizations never share an owner cluster role. */
  lemma OwnerRoleNamesDistinct(l1: LabelSet, l2: LabelSet)
    requires Get(l1, OrganizationLabel) != Get(l2, OrganizationLabel)
    ensures OrgComponentName(l1, OwnerClusterRole) != OrgComponentName(l2, OwnerClusterRole)
  {
    if OrgComponentName(l1, OwnerClusterRole) == OrgComponentName(l2, OwnerClusterRole) {
      ComponentNameInjective(OwnerClusterRole.base, Get(l1, OrganizationLabel), Get(l2, OrganizationLabel));
    }
  }

  /** The messages `ValidateMetadata` reports for an organization. */
  function Problems(orgLabels: LabelSet, annotations: LabelSet): seq<string>
  {
    Missing(orgLabels, RequiredLabels, "label") + Missing(annotations, RequiredAnnotations, "annotation")
  }

  /**
   * `ValidateMetadata`: valid exactly when the organization and kind labels
   * and the creator annotation are set; the kind's value is not tested.
   */
  method ValidateMetadata(orgLabels: LabelSet, annotations: LabelSet) returns (errs: seq<string>)
    ensures errs == Problems(orgLabels, annotations)
    ensures errs == [] <==>
      Present(orgLabels, OrganizationLabel) && Present(orgLabels, KindLabel) && Present(annotations, CreatedByAnnotation)
  {
    var labelErrs := CollectMissing(orgLabels, RequiredLabels, "label");
    var annotationErrs := CollectMissing(annotations, RequiredAnnotations, "annotation");
    errs := labelErrs + annotationErrs;
    ProblemsEmptyIff(orgLabels, annotations);
  }

  /** No message exactly when the required labels and the creator annotation are set. */
  lemma ProblemsEmptyIff(orgLabels: LabelSet, annotations: LabelSet)
    ensures Problems(orgLabels, annotations) == [] <==>
      Present(orgLabels, OrganizationLabel) && Present(orgLabels, KindLabel) && Present(annotations, CreatedByAnnotation)
  {
    MissingEmptyIff(orgLabels, RequiredLabels, "label");
    MissingEmptyIff(annotations, RequiredAnnotations, "annotation");
  }
}
