/**
 * The helpers of the `Project` resource (pkg/apis/dashboard/v1alpha1/project_functions.go):
 * the project's namespace and DNS names, its label sets, and the keys of the
 * objects the project controller manages. A project lives in the namespace
 * of its organization.
 */
module ProjectFunctions {
  import opened Labels
  import opened KubeMeta

  /** A `Project` resource: the organization namespace it lives in, and its name. */
  datatype Project = Project(namespace: string, name: string)

  const ProjectNameLabel: string := "project.dashboard.presslabs.com/project"
  const DeployManagerLabel: string := "app.kubernetes.io/deploy-manager"
  const DeployManager: string := "project-controller.dashboard.presslabs.com"

  const PrometheusName: string := "prometheus"
  const GiteaSecretName: string := "gitea-conf"
  const GiteaName: string := "gitea"

  /** `GetNamespaceName`: `proj-<organization>-<name>`. */
  function NamespaceName(p: Project): (n: string)
    ensures |n| == 6 + |p.namespace| + |p.name|
    ensures n[..5] == "proj-" && n[5..5 + |p.namespace|] == p.namespace
    ensures n[5 + |p.namespace|] == '-' && n[6 + |p.namespace|..] == p.name
  {
    var n := "proj-" + p.namespace + "-" + p.name;
    assert n[5..5 + |p.namespace|] == p.namespace;
    n
  }

  /** Within one organization, distinct projects get distinct namespaces. */
  lemma NamespaceNameInjectiveInName(org: string, name1: string, name2: string)
    requires NamespaceName(Project(org, name1)) == NamespaceName(Project(org, name2))
    ensures name1 == name2
  {
    var n := NamespaceName(Project(org, name1));
    assert name1 == n[6 + |org|..] == name2;
  }

  /**
   * Across organizations the names can meet: with dashes in names, project
   * `y-z` of organization `x` and project `z` of organization `x-y` share a
   * namespace name.
   */
  lemma NamespaceNameAmbiguous(x: string, y: string, z: string)
    ensures NamespaceName(Project(x, y + "-" + z)) == NamespaceName(Project(x + "-" + y, z))
  {
    assert "proj-" + x + "-" + (y + "-" + z) == "proj-" + (x + "-" + y) + "-" + z;
  }

  /** `GetNamespaceKey`: the cluster-scoped key of the project's namespace. */
  function NamespaceKey(p: Project): (k: ObjectKey)
    ensures k.namespace == "" && k.name == NamespaceName(p)
  {
    ObjectKey("", NamespaceName(p))
  }

  /** `GetOrganizationName`: the organization is the namespace the project lives in. */
  function OrganizationName(p: Project): (o: string)
    ensures o == p.namespace
  {
    p.namespace
  }

  /** `GetProjectDomainName`: `<name>-<organization>`, the namespace name's parts in the other order. */
  function DomainName(p: Project): (d: string)
    ensures |d| == |p.name| + 1 + |p.namespace|
    ensures d[..|p.name|] == p.name && d[|p.name|] == '-' && d[|p.name| + 1..] == p.namespace
  {
    var d := p.name + "-" + p.namespace;
    assert d[..|p.name|] == p.name;
    d
  }

  /** `GetGiteaDomain`: the project's domain name under the Git base domain (a command-line option, here a parameter). */
  function GiteaDomain(p: Project, gitBaseDomain: string): (d: string)
    ensures d == DomainName(p) + "." + gitBaseDomain
    ensures d[..|p.name|] == p.name
  {
    var d := DomainName(p) + "." + gitBaseDomain;
    assert d[..|p.name|] == DomainName(p)[..|p.name|];
    d
  }

  /** `GetProjectLabel`: the one project-name label. */
  function ProjectLabelSet(p: Project): (l: LabelSet)
    ensures l.Keys == {ProjectNameLabel} && l[ProjectNameLabel] == p.name
  {
    map[ProjectNameLabel := p.name]
  }

  /** `GetDeployManagerLabel`: the one deploy-manager label. */
  function DeployManagerLabelSet(p: Project): (l: LabelSet)
    ensures l.Keys == {DeployManagerLabel} && l[DeployManagerLabel] == DeployManager
  {
    map[DeployManagerLabel := DeployManager]
  }

  /** `GetDefaultLabels`: the two labels together, exactly two keys. */
  function DefaultLabels(p: Project): (l: LabelSet)
    ensures l.Keys == {ProjectNameLabel, DeployManagerLabel}
    ensures l[ProjectNameLabel] == p.name && l[DeployManagerLabel] == DeployManager
    ensures Contains(l, ProjectLabelSet(p)) && Contains(l, DeployManagerLabelSet(p))
  {
    Merge(ProjectLabelSet(p), DeployManagerLabelSet(p))
  }

  /** The managed objects whose keys the project hands out. */
  datatype Managed = Prometheus | ResourceQuota | GiteaSecret | GiteaPVC | GiteaDeployment | GiteaService | GiteaIngress

  /** The `Get<X>Name` helpers: fixed names, except the quota, named after the project. */
  function ManagedName(p: Project, m: Managed): string
  {
    match m
    case Prometheus => PrometheusName
    case ResourceQuota => p.name
    case GiteaSecret => GiteaSecretName
    case _ => GiteaName
  }

  /** The `Get<X>Key` helpers: each object lives in the project's namespace under its name. */
  function ManagedKey(p: Project, m: Managed): (k: ObjectKey)
    ensures k.namespace == NamespaceName(p) && k.name == ManagedName(p, m)
  {
    ObjectKey(NamespaceName(p), ManagedName(p, m))
  }

  /**
   * Every key is in the project's namespace; the Gitea PVC, deployment,
   * service and ingress share the key `gitea`; the secret, the Prometheus and
   * the quota have their own names.
   */
  lemma ManagedKeys(p: Project, m: Managed)
    ensures ManagedKey(p, m).namespace == NamespaceName(p)
    ensures m in {GiteaPVC, GiteaDeployment, GiteaService, GiteaIngress} ==> ManagedKey(p, m).name == GiteaName
    ensures ManagedKey(p, Prometheus).name == "prometheus" && ManagedKey(p, GiteaSecret).name == "gitea-conf"
    ensures ManagedKey(p, ResourceQuota).name == p.name
  {
  }
}
