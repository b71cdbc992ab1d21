/**
 * The project namespace wrapper (pkg/internal/projectns/projectns.go): the
 * display name, the label sets and object names of a project's components,
 * and the metadata check with its kind test.
 */
module InternalProjectNs {
  import opened Labels
  import opened KubeMeta

  const RequiredLabels: seq<string> := [OrganizationLabel, ProjectLabel, KindLabel]
  const RequiredAnnotations: seq<string> := [CreatedByAnnotation]

  /** The message of the kind test. */
  const WrongKindMessage: string := "label \"presslabs.com/kind\" should be \"project\""

  const Namespace: Component := Component("", "", Around("proj-", ""), "")
  const LimitRange: Component := Component("", "", Fixed, "presslabs-dashboard")
  const ResourceQuota: Component := Component("", "", Fixed, "presslabs-dashboard")
  const PrometheusServiceAccount: Component := Component("", "prometheus", Fixed, "prometheus")
  const PrometheusRoleBinding: Component := Component("", "prometheus", Fixed, "dashboard.presslabs.com:project:prometheus")
  const Prometheus: Component := Component("", "prometheus", Fixed, "prometheus")
  const OwnerRoleBinding: Component := Component("", "", Fixed, "dashboard.presslabs.com:project:owners")
  const MemberRoleBinding: Component := Component("", "", Fixed, "dashboard.presslabs.com:project:members")
  const WordpressServiceMonitor: Component := Component("", "prometheus", Fixed, "wordpress")
  const MysqlServiceMonitor: Component := Component("", "prometheus", Fixed, "mysql")
  const MemcachedServiceMonitor: Component := Component("", "prometheus", Fixed, "memcached")
  const SMTPSecret: Component := Component("", "", Fixed, "default-smtp-credentials")

  /** The display name `UpdateDisplayName` stores: the given one, or the project label when it is empty. */
  function DisplayName(displayName: string, nsLabels: LabelSet): (d: string)
    ensures |displayName| > 0 ==> d == displayName
    ensures |displayName| == 0 ==> d == Get(nsLabels, ProjectLabel)
  {
    if |displayName| == 0 then Get(nsLabels, ProjectLabel) else displayName
  }

  /** `UpdateDisplayName`: sets the display-name annotation in place and changes nothing else. */
  method UpdateDisplayName(ns: Object, displayName: string)
    modifies ns
    ensures ns.annotations == old(ns.annotations)[DisplayNameAnnotation := DisplayName(displayName, old(ns.labels))]
    ensures ns.labels == old(ns.labels) && ns.name == old(ns.name) && ns.namespace == old(ns.namespace)
  {
    if |displayName| == 0 {
      ns.annotations := ns.annotations[DisplayNameAnnotation := Get(ns.labels, ProjectLabel)];
    } else {
      ns.annotations := ns.annotations[DisplayNameAnnotation := displayName];
    }
  }

  /** `Labels`: always the project label (empty when absent), and the organization label when the namespace carries it. */
  function ProjectNsLabels(nsLabels: LabelSet): (l: LabelSet)
    ensures l.Keys == {ProjectLabel} + (nsLabels.Keys * {OrganizationLabel})
    ensures l[ProjectLabel] == Get(nsLabels, ProjectLabel)
    ensures OrganizationLabel in nsLabels ==> l[OrganizationLabel] == nsLabels[OrganizationLabel]
  {
    var l := map[ProjectLabel := Get(nsLabels, ProjectLabel)];
    if OrganizationLabel in nsLabels then l[OrganizationLabel := nsLabels[OrganizationLabel]] else l
  }

  /** `ComponentLabels`: the namespace labels plus the component's name and component labels. */
  function ComponentLabels(nsLabels: LabelSet, c: Component): LabelSet
  {
    WithComponent(ProjectNsLabels(nsLabels), c)
  }

  /** The component labels keep every namespace label and add only the component keys of non-empty fields. */
  lemma ComponentLabelsExtendLabels(nsLabels: LabelSet, c: Component)
    ensures Contains(ComponentLabels(nsLabels, c), ProjectNsLabels(nsLabels))
    ensures ComponentLabels(nsLabels, c).Keys == ProjectNsLabels(nsLabels).Keys +
      (if |c.app| > 0 then {AppNameLabel} else {}) + (if |c.name| > 0 then {AppComponentLabel} else {})
  {
    var l := ProjectNsLabels(nsLabels);
    assert AppNameLabel !in l && AppComponentLabel !in l;
  }

  /** `ComponentName`: a component's object name, formatted with the project label. */
  function ProjectNsComponentName(nsLabels: LabelSet, c: Component): string
  {
    ComponentName(c, Get(nsLabels, ProjectLabel))
  }

  /** The namespace is `proj-<project label>`; the other components keep their fixed names. */
  lemma ComponentNames(nsLabels: LabelSet)
    ensures ProjectNsComponentName(nsLabels, Namespace) == "proj-" + Get(nsLabels, ProjectLabel)
    ensures ProjectNsComponentName(nsLabels, ResourceQuota) == "presslabs-dashboard"
    ensures ProjectNsComponentName(nsLabels, PrometheusRoleBinding) == "dashboard.presslabs.com:project:prometheus"
    ensures ProjectNsComponentName(nsLabels, MemberRoleBinding) == "dashboard.presslabs.com:project:members"
  {
    assert "proj-" + Get(nsLabels, ProjectLabel) + "" == "proj-" + Get(nsLabels, ProjectLabel);
  }

  /** The messages `ValidateMetadata` reports: missing labels, the kind test, missing annotations, in that order. */
  function Problems(nsLabels: LabelSet, annotations: LabelSet): seq<string>
  {
    Missing(nsLabels, RequiredLabels, "label") +
    (if Get(nsLabels, KindLabel) != "project" then [WrongKindMessage] else []) +
    Missing(annotations, RequiredAnnotations, "annotation")
  }

  /** The required labels are set and the kind is `project`. */
  predicate ValidLabels(nsLabels: LabelSet)
  {
    Present(nsLabels, OrganizationLabel) && Present(nsLabels, ProjectLabel) && Get(nsLabels, KindLabel) == "project"
  }

  /**
   * `ValidateMetadata`: valid exactly when the organization, project and
   * kind labels and the creator annotation are set and the kind is `project`.
   */
  method ValidateMetadata(nsLabels: LabelSet, annotations: LabelSet) returns (errs: seq<string>)
    ensures errs == Problems(nsLabels, annotations)
    ensures errs == [] <==> ValidLabels(nsLabels) && Present(annotations, CreatedByAnnotation)
  {
    var labelErrs := CollectMissing(nsLabels, RequiredLabels, "label");
    var kindErrs := if Get(nsLabels, KindLabel) != "project" then [WrongKindMessage] else [];
    var annotationErrs := CollectMissing(annotations, RequiredAnnotations, "annotation");
    errs := labelErrs + kindErrs + annotationErrs;
    ProblemsEmptyIff(nsLabels, annotations);
  }

  /** No message exactly when the labels are valid and the creator is set. */
  lemma ProblemsEmptyIff(nsLabels: LabelSet, annotations: LabelSet)
    ensures Problems(nsLabels, annotations) == [] <==> ValidLabels(nsLabels) && Present(annotations, CreatedByAnnotation)
  {
    MissingEmptyIff(nsLabels, RequiredLabels, "label");
    MissingEmptyIff(annotations, RequiredAnnotations, "annotation");
    assert Missing(nsLabels, RequiredLabels, "label") == [] <==>
      Present(nsLabels, OrganizationLabel) && Present(nsLabels, ProjectLabel) && Present(nsLabels, KindLabel)
    by {
      assert RequiredLabels[0] == OrganizationLabel && RequiredLabels[1] == ProjectLabel && RequiredLabels[2] == KindLabel;
    }
  }

  /** A namespace without the kind label gets both the missing-label and the wrong-kind message. */
  lemma MissingKindReportedTwice(nsLabels: LabelSet, annotations: LabelSet)
    requires KindLabel !in nsLabels
    ensures MissingMessage("label", KindLabel) in Problems(nsLabels, annotations)
    ensures WrongKindMessage in Problems(nsLabels, annotations)
  {
    assert KindLabel in RequiredLabels;
    MissingReportsKey(nsLabels, RequiredLabels, "label", KindLabel);
  }
}
