/**
 * The helpers the project controller's syncers share
 * (pkg/controller/project/internal/sync/common.go): the same namespace name,
 * domain name and labels as the `Project` resource's own helpers.
 */
module ProjectSyncCommon {
  import opened Labels
  import ProjectFunctions

  type Project = ProjectFunctions.Project

  /** `getNamespaceName`: the same name as the resource's `GetNamespaceName`. */
  function NamespaceName(p: Project): (n: string)
    ensures n == ProjectFunctions.NamespaceName(p)
  {
    "proj-" + p.namespace + "-" + p.name
  }

  /** `getProjectDomainName`: the same name as the resource's `GetProjectDomainName`. */
  function DomainName(p: Project): (d: string)
    ensures d == ProjectFunctions.DomainName(p)
  {
    p.name + "-" + p.namespace
  }

  /** `getProjectLabel`: the one project-name label. */
  function ProjectLabelSet(p: Project): (l: LabelSet)
    ensures l == ProjectFunctions.ProjectLabelSet(p)
    ensures l.Keys == {ProjectFunctions.ProjectNameLabel} && l[ProjectFunctions.ProjectNameLabel] == p.name
  {
    map["project.dashboard.presslabs.com/project" := p.name]
  }

  /** `getDeployManagerLabel`: the one deploy-manager label, whatever the project. */
  function DeployManagerLabelSet(p: Project): (l: LabelSet)
    ensures l == ProjectFunctions.DeployManagerLabelSet(p)
  {
    map["app.kubernetes.io/deploy-manager" := "project-controller.dashboard.presslabs.com"]
  }

  /** `getDefaultLabels`: exactly the two labels, as the resource's `GetDefaultLabels`. */
  function DefaultLabels(p: Project): (l: LabelSet)
    ensures l == ProjectFunctions.DefaultLabels(p)
    ensures |l.Keys| == 2
  {
    var l := Merge(ProjectLabelSet(p), DeployManagerLabelSet(p));
    assert l.Keys == {ProjectFunctions.ProjectNameLabel, ProjectFunctions.DeployManagerLabel};
    l
  }
}
