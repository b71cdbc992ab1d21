/**
 * The project service of the API server
 * (pkg/apiserver/controller/project/project.go): the parsing of
 * fully-qualified project and organization names, the checks and the
 * metadata of CreateProject, the owner filter of ListProjects, and the
 * conversion of a project namespace to the API's project.
 */
module ProjectApi {
  import opened Wrappers
  import opened Text
  import opened Labels
  import opened KubeErrors
  import opened KubeMeta
  import InternalProjectNs
  import InternalProjectMeta

  const ProjPrefix: string := "project/"
  const OrgPrefix: string := "orgs/"

  /** A project as the API returns it. */
  datatype Project = Project(name: string, organization: string, displayName: string)

  /** A project namespace: its name, labels and annotations. */
  datatype Namespace = Namespace(name: string, labels: LabelSet, annotations: LabelSet)

  /** `resolveName`: the part after `project/`, which must be non-empty; slashes are allowed in it. */
  function ResolveName(path: string): (r: Result<string, Status>)
    ensures r.Ok? <==> StartsWith(path, ProjPrefix) && |path| > |ProjPrefix|
    ensures r.Ok? ==> ProjPrefix + r.value == path && r.value != ""
    ensures r.Err? ==> r.error == Status(InvalidArgument,
      "project fully-qualified name must be in form project/PROJECT-NAME, '" + path + "' given")
  {
    if !StartsWith(path, ProjPrefix) || |path[|ProjPrefix|..]| == 0 then
      Err(Status(InvalidArgument, "project fully-qualified name must be in form project/PROJECT-NAME, '" + path + "' given"))
    else
      assert ProjPrefix + path[|ProjPrefix|..] == path;
      Ok(path[|ProjPrefix|..])
  }

  /** `resolveParent`: the part after `orgs/`, which must be non-empty. */
  function ResolveParent(path: string): (r: Result<string, Status>)
    ensures r.Ok? <==> StartsWith(path, OrgPrefix) && |path| > |OrgPrefix|
    ensures r.Ok? ==> OrgPrefix + r.value == path && r.value != ""
    ensures !StartsWith(path, OrgPrefix) ==> r == Err(Status(InvalidArgument,
      "parent organization fully-qualified name must be in form orgs/ORGANIZATION-NAME"))
    ensures StartsWith(path, OrgPrefix) && r.Err? ==> r.error == Status(InvalidArgument,
      "parent organization fully-qualified name must be in form orgs/ORGANIZATION_NAME, '" + path + "' given")
  {
    if !StartsWith(path, OrgPrefix) then
      Err(Status(InvalidArgument, "parent organization fully-qualified name must be in form orgs/ORGANIZATION-NAME"))
    else if |path[|OrgPrefix|..]| == 0 then
      Err(Status(InvalidArgument, "parent organization fully-qualified name must be in form orgs/ORGANIZATION_NAME, '" + path + "' given"))
    else
      assert OrgPrefix + path[|OrgPrefix|..] == path;
      Ok(path[|OrgPrefix|..])
  }

  /** `resolveName` undoes the `project/` prefix of every non-empty name. */
  lemma ResolveNamePrefixed(name: string)
    requires name != ""
    ensures ResolveName(ProjPrefix + name) == Ok(name)
  {
    var path := ProjPrefix + name;
    assert path[..|ProjPrefix|] == ProjPrefix;
    assert path[|ProjPrefix|..] == name;
  }

  /** `resolveParent` undoes the `orgs/` prefix of every non-empty name. */
  lemma ResolveParentPrefixed(name: string)
    requires name != ""
    ensures ResolveParent(OrgPrefix + name) == Ok(name)
  {
    var path := OrgPrefix + name;
    assert path[..|OrgPrefix|] == OrgPrefix;
    assert path[|OrgPrefix|..] == name;
  }

  /** `newProjectFromK8s`: `project/<project label>`, the organization label and the display-name annotation. */
  function NewProjectFromK8s(ns: Namespace): (p: Project)
    ensures p.organization == Get(ns.labels, OrganizationLabel)
    ensures p.displayName == Get(ns.annotations, DisplayNameAnnotation)
    ensures p.name == ProjPrefix + Get(ns.labels, ProjectLabel)
  {
    Project(ProjPrefix + Get(ns.labels, ProjectLabel), Get(ns.labels, OrganizationLabel), Get(ns.annotations, DisplayNameAnnotation))
  }

  /** The name of a listed project resolves back to its project label. */
  lemma NewProjectNameResolves(ns: Namespace)
    requires Get(ns.labels, ProjectLabel) != ""
    ensures ResolveName(NewProjectFromK8s(ns).name) == Ok(Get(ns.labels, ProjectLabel))
  {
    ResolveNamePrefixed(Get(ns.labels, ProjectLabel));
  }

  /**
   * The checks and the namespace of `CreateProject`: the name comes from
   * `resolveName` when one is given, else it is the slug of the display name
   * (`slugged`, the result of `slug.Make`); an empty name is refused; the
   * parent is resolved only after the name. The namespace is named
   * `proj-<name>`, labelled with kind `project`, the name and the
   * organization, and annotated with the creator and the display name.
   */
  function CreateProject(userID: string, projectName: string, displayName: string, slugged: string, parent: string)
    : (r: Result<Namespace, Status>)
    ensures |projectName| > 0 && ResolveName(projectName).Err? ==> r == Err(ResolveName(projectName).error)
    ensures |projectName| == 0 && slugged == "" ==> r == Err(Status(InvalidArgument, "project name cannot be empty"))
    ensures r.Ok? ==> ResolveParent(parent).Ok?
    ensures r.Ok? ==>
      var name := if |projectName| > 0 then ResolveName(projectName).value else slugged;
      var labels := map[KindLabel := "project", ProjectLabel := name, OrganizationLabel := ResolveParent(parent).value];
      name != "" && r.value == Namespace(InternalProjectMeta.GetNamespaceName(name), labels,
        map[CreatedByAnnotation := userID, DisplayNameAnnotation := InternalProjectNs.DisplayName(displayName, labels)])
  {
    var nameResult := if |projectName| > 0 then ResolveName(projectName) else Ok(slugged);
    match nameResult
    case Err(e) => Err(e)
    case Ok(name) =>
      if |name| == 0 then Err(Status(InvalidArgument, "project name cannot be empty"))
      else
        match ResolveParent(parent)
        case Err(e) => Err(e)
        case Ok(org) =>
          var labels := map[KindLabel := "project", ProjectLabel := name, OrganizationLabel := org];
          Ok(Namespace(InternalProjectMeta.GetNamespaceName(name), labels, map[CreatedByAnnotation := userID, DisplayNameAnnotation := InternalProjectNs.DisplayName(displayName, labels)]))
  }

  /** A project namespace `CreateProject` builds for a known user passes the project namespace check. */
  lemma CreatedProjectIsValid(userID: string, projectName: string, displayName: string, slugged: string, parent: string)
    requires userID != ""
    requires CreateProject(userID, projectName, displayName, slugged, parent).Ok?
    ensures var ns := CreateProject(userID, projectName, displayName, slugged, parent).value;
      InternalProjectNs.Problems(ns.labels, ns.annotations) == []
  {
    var ns := CreateProject(userID, projectName, displayName, slugged, parent).value;
    MissingEmptyIff(ns.labels, InternalProjectNs.RequiredLabels, "label");
    MissingEmptyIff(ns.annotations, InternalProjectNs.RequiredAnnotations, "annotation");
  }

  /** Reading back a created project gives `project/<name>` under the parent organization. */
  lemma CreatedProjectReadsBack(userID: string, projectName: string, displayName: string, parent: string)
    requires CreateProject(userID, projectName, displayName, "", parent).Ok? && |projectName| > 0
    ensures var p := NewProjectFromK8s(CreateProject(userID, projectName, displayName, "", parent).value);
      p.name == projectName && OrgPrefix + p.organization == parent
  {
    var name := ResolveName(projectName).value;
    ResolveNamePrefixed(name);
  }

  /** The projects of the namespaces created by `userID`, in list order. */
  function OwnedBy(items: seq<Namespace>, userID: string): (ps: seq<Project>)
    ensures |ps| <= |items|
    decreases |items|
  {
    if |items| == 0 then []
    else
      var last := items[|items| - 1];
      OwnedBy(items[..|items| - 1], userID) +
      (if Get(last.annotations, CreatedByAnnotation) == userID then [NewProjectFromK8s(last)] else [])
  }

  /** The loop of `ListProjects`: keeps the namespaces whose created-by annotation is the caller. */
  method ListProjects(items: seq<Namespace>, userID: string) returns (projects: seq<Project>)
    ensures projects == OwnedBy(items, userID)
  {
    projects := [];
    var i := 0;
    while i < |items|
      invariant 0 <= i <= |items|
      invariant projects == OwnedBy(items[..i], userID)
    {
      assert items[..i + 1][..i] == items[..i];
      if Get(items[i].annotations, CreatedByAnnotation) == userID {
        projects := projects + [NewProjectFromK8s(items[i])];
      }
      i := i + 1;
    }
    assert items[..i] == items;
  }

  /** Every listed project comes from a namespace the caller created, and every such namespace is listed. */
  lemma {:induction false} OwnedByExact(items: seq<Namespace>, userID: string)
    ensures forall p :: p in OwnedBy(items, userID) ==>
      exists i :: 0 <= i < |items| && Get(items[i].annotations, CreatedByAnnotation) == userID && NewProjectFromK8s(items[i]) == p
    ensures forall i :: 0 <= i < |items| && Get(items[i].annotations, CreatedByAnnotation) == userID ==>
      NewProjectFromK8s(items[i]) in OwnedBy(items, userID)
    decreases |items|
  {
    if |items| > 0 {
      var init := items[..|items| - 1];
      OwnedByExact(init, userID);
      assert forall i :: 0 <= i < |init| ==> init[i] == items[i];
    }
  }

  /** A caller who created nothing lists nothing. */
  lemma {:induction false} OwnedByNone(items: seq<Namespace>, userID: string)
    requires forall i :: 0 <= i < |items| ==> Get(items[i].annotations, CreatedByAnnotation) != userID
    ensures OwnedBy(items, userID) == []
    decreases |items|
  {
    if |items| > 0 {
      OwnedByNone(items[..|items| - 1], userID);
    }
  }
}
