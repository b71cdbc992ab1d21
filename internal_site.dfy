/**
 * The site wrapper of the server (pkg/internal/site/site.go): fully-qualified
 * site names `project/<project>/site/<site>` and their resolution, the label
 * sets and object names of a site's components, and the metadata check.
 */
module InternalSite {
  import opened Wrappers
  import opened Text
  import opened Labels
  import opened Paths
  import opened KubeMeta

  const RequiredLabels: seq<string> := [OrganizationLabel, ProjectLabel]
  const RequiredAnnotations: seq<string> := [CreatedByAnnotation]

  const PartOfLabel: string := "app.kubernetes.io/part-of"
  const InstanceLabel: string := "app.kubernetes.io/instance"

  const MysqlCluster: Component := Component("database", "mysql", Around("", ""), "")
  const MysqlClusterSecret: Component := Component("database", "mysql", Around("", "-mysql"), "")
  const MemcachedService: Component := Component("cache", "memcached", Around("", "-memcached"), "")
  const MemcachedStatefulSet: Component := Component("cache", "memcached", Around("", "-memcached"), "")

  /** The one error `Resolve` reports, whatever is wrong with the name. */
  const FormError: string := "site resources fully-qualified name must be in form project/PROJECT-NAME/site/SITE-NAME"

  /** The pattern `project/STAR/site/STAR` (STAR being the `*` wildcard). */
  const SitePattern: Pattern := [Some("project"), None, Some("site"), None]

  // ---------------------------------------------------------------------------
  // Fully-qualified names

  /**
   * `FQName`: `path.Join` of the project's fully-qualified name
   * `project/<project>`, `site` and the site name. `path.Join` drops the
   * empty elements, so an empty project or site name leaves no empty segment.
   */
  function FQName(projName: string, siteName: string): (n: string)
    ensures projName != "" && siteName != "" ==> n == "project/" + projName + "/site/" + siteName
    ensures siteName == "" ==> n == (if projName == "" then "project" else "project/" + projName) + "/site"
    ensures projName == "" && siteName != "" ==> n == "project/site/" + siteName
  {
    var head := if projName == "" then "project" else "project/" + projName;
    var tail := if siteName == "" then "" else "/" + siteName;
    assert projName != "" && siteName != "" ==> head + "/site" + tail == "project/" + projName + "/site/" + siteName;
    assert siteName == "" ==> head + "/site" + tail == head + "/site";
    head + "/site" + tail
  }

  /**
   * `Resolve`: a name unchanged by `path.Clean` that matches
   * the pattern `SitePattern` yields (site name, project name), the fourth and the
   * second segment; any other name is refused with `FormError`.
   */
  function Resolve(name: string): (r: Result<(string, string), string>)
    ensures r.Ok? <==> IsClean(name) && Matches(SitePattern, name)
    ensures r.Ok? ==> r.value == (Segments(name)[3], Segments(name)[1])
    ensures r.Ok? ==> CleanSegment(r.value.0) && CleanSegment(r.value.1) && '/' !in r.value.0 && '/' !in r.value.1
    ensures r.Err? ==> r.error == FormError
  {
    if !IsClean(name) then Err(FormError)
    else if !Matches(SitePattern, name) then Err(FormError)
    else
      var names := Segments(name);
      FirstSegment(name);
      assert DotDotRun(names) == 0;
      Ok((names[3], names[1]))
  }

  /** The name of a site with non-empty names splits into exactly its four segments. */
  lemma FQNameSegments(projName: string, siteName: string)
    requires projName != "" && siteName != ""
    requires '/' !in projName && '/' !in siteName
    ensures Segments(FQName(projName, siteName)) == ["project", projName, "site", siteName]
  {
    var parts := ["project", projName, "site", siteName];
    Join4("project", projName, "site", siteName, "/");
    assert "project" + "/" + projName + "/" + "site" + "/" + siteName == FQName(projName, siteName);
    SplitJoin(parts, '/');
  }

  /** Resolving the fully-qualified name of a site gives back its site and project names. */
  lemma ResolveFQName(projName: string, siteName: string)
    requires CleanSegment(projName) && CleanSegment(siteName) && '/' !in projName && '/' !in siteName
    ensures Resolve(FQName(projName, siteName)) == Ok((siteName, projName))
  {
    var name := FQName(projName, siteName);
    FQNameSegments(projName, siteName);
    CleanRelative(name);
  }

  /** Every name `Resolve` accepts is the fully-qualified name of what it returns. */
  lemma FQNameOfResolved(name: string)
    requires Resolve(name).Ok?
    ensures FQName(Resolve(name).value.1, Resolve(name).value.0) == name
  {
    var segs := Segments(name);
    JoinSplit(name, '/');
    assert segs == [segs[0], segs[1], segs[2], segs[3]];
    Join4(segs[0], segs[1], segs[2], segs[3], "/");
  }

  /** An empty project or site segment is refused, as in `project//site/x` and `project/p/site/`. */
  lemma ResolveRejectsEmptySegment(projName: string, siteName: string)
    requires '/' !in projName && '/' !in siteName
    requires projName == "" || siteName == ""
    ensures Resolve("project/" + projName + "/site/" + siteName) == Err(FormError)
  {
    var parts := ["project", projName, "site", siteName];
    Join4("project", projName, "site", siteName, "/");
    assert "project" + "/" + projName + "/" + "site" + "/" + siteName == "project/" + projName + "/site/" + siteName;
    SplitJoin(parts, '/');
  }

  /**
   * The name `FQName` gives for an empty project or site name has only
   * three segments, so `Resolve` refuses it: no site has an empty name.
   */
  lemma ResolveRejectsEmptyName(projName: string, siteName: string)
    requires '/' !in projName && '/' !in siteName
    requires projName == "" || siteName == ""
    ensures Resolve(FQName(projName, siteName)) == Err(FormError)
  {
    var n := FQName(projName, siteName);
    var parts: seq<string>;
    if projName == "" && siteName == "" {
      parts := ["project", "site"];
      assert Join(parts, "/") == n by { assert parts[1..] == ["site"]; }
    } else if projName == "" {
      parts := ["project", "site", siteName];
      assert Join(parts, "/") == n by {
        assert parts[1..] == ["site", siteName] && parts[1..][1..] == [siteName];
        assert Join(parts[1..], "/") == "site" + "/" + siteName;
        assert "project" + "/" + ("site" + "/" + siteName) == "project/site/" + siteName;
      }
    } else {
      parts := ["project", projName, "site"];
      assert Join(parts, "/") == n by {
        assert parts[1..] == [projName, "site"] && parts[1..][1..] == ["site"];
        assert Join(parts[1..], "/") == projName + "/" + "site";
        assert "project" + "/" + (projName + "/" + "site") == "project/" + projName + "/site";
      }
    }
    SplitJoin(parts, '/');
    assert |Segments(n)| == |parts| < 4;
  }

  // ---------------------------------------------------------------------------
  // Labels and component names

  /**
   * `Labels`: part-of `wordpress` and instance `<site name>`, plus the
   * organization and project labels of the site when it carries them.
   */
  function SiteLabels(siteName: string, siteLabels: LabelSet): (l: LabelSet)
    ensures l.Keys == {PartOfLabel, InstanceLabel} + (siteLabels.Keys * {OrganizationLabel, ProjectLabel})
    ensures l[PartOfLabel] == "wordpress" && l[InstanceLabel] == siteName
    ensures OrganizationLabel in siteLabels ==> l[OrganizationLabel] == siteLabels[OrganizationLabel]
    ensures ProjectLabel in siteLabels ==> l[ProjectLabel] == siteLabels[ProjectLabel]
  {
    var l := map[PartOfLabel := "wordpress", InstanceLabel := siteName];
    var l := if OrganizationLabel in siteLabels then l[OrganizationLabel := siteLabels[OrganizationLabel]] else l;
    if ProjectLabel in siteLabels then l[ProjectLabel := siteLabels[ProjectLabel]] else l
  }

  /** `ComponentLabels`: the site labels plus the component's name and component labels. */
  function ComponentLabels(siteName: string, siteLabels: LabelSet, c: Component): LabelSet
  {
    WithComponent(SiteLabels(siteName, siteLabels), c)
  }

  /** The component labels keep every site label and add only the two component keys, each for a non-empty field. */
  lemma ComponentLabelsExtendLabels(siteName: string, siteLabels: LabelSet, c: Component)
    ensures Contains(ComponentLabels(siteName, siteLabels, c), SiteLabels(siteName, siteLabels))
    ensures ComponentLabels(siteName, siteLabels, c).Keys == SiteLabels(siteName, siteLabels).Keys +
      (if |c.app| > 0 then {AppNameLabel} else {}) + (if |c.name| > 0 then {AppComponentLabel} else {})
  {
    var l := SiteLabels(siteName, siteLabels);
    assert AppNameLabel !in l && AppComponentLabel !in l;
  }

  /** `ComponentName`: the component's object name for a site. */
  function SiteComponentName(siteName: string, c: Component): string
  {
    ComponentName(c, siteName)
  }

  /**
   * The cluster takes the site's name, the secret `<name>-mysql` and both
   * memcached objects `<name>-memcached`; the cluster and its secret never
   * share a name.
   */
  lemma ComponentNames(siteName: string)
    ensures SiteComponentName(siteName, MysqlCluster) == siteName
    ensures SiteComponentName(siteName, MysqlClusterSecret) == siteName + "-mysql"
    ensures SiteComponentName(siteName, MemcachedService) == siteName + "-memcached"
    ensures SiteComponentName(siteName, MemcachedStatefulSet) == SiteComponentName(siteName, MemcachedService)
    ensures SiteComponentName(siteName, MysqlCluster) != SiteComponentName(siteName, MysqlClusterSecret)
  {
    assert "" + siteName + "" == siteName;
    assert "" + siteName + "-mysql" == siteName + "-mysql";
    assert "" + siteName + "-memcached" == siteName + "-memcached";
  }

  // ---------------------------------------------------------------------------
  // Metadata

  /** The messages `ValidateMetadata` reports for a site's labels and annotations. */
  function Problems(siteLabels: LabelSet, annotations: LabelSet): seq<string>
  {
    Missing(siteLabels, RequiredLabels, "label") + Missing(annotations, RequiredAnnotations, "annotation")
  }

  /**
   * `ValidateMetadata`: one message per required label, then per required
   * annotation, that is missing or empty; valid exactly when the
   * organization and project labels and the created-by annotation are set.
   */
  method ValidateMetadata(siteLabels: LabelSet, annotations: LabelSet) returns (errs: seq<string>)
    ensures errs == Problems(siteLabels, annotations)
    ensures errs == [] <==>
      Present(siteLabels, OrganizationLabel) && Present(siteLabels, ProjectLabel) && Present(annotations, CreatedByAnnotation)
  {
    var labelErrs := CollectMissing(siteLabels, RequiredLabels, "label");
    var annotationErrs := CollectMissing(annotations, RequiredAnnotations, "annotation");
    errs := labelErrs + annotationErrs;
    ProblemsEmptyIff(siteLabels, annotations);
  }

  /** No message exactly when the required labels and the creator annotation are set. */
  lemma ProblemsEmptyIff(siteLabels: LabelSet, annotations: LabelSet)
    ensures Problems(siteLabels, annotations) == [] <==>
      Present(siteLabels, OrganizationLabel) && Present(siteLabels, ProjectLabel) && Present(annotations, CreatedByAnnotation)
  {
    MissingEmptyIff(siteLabels, RequiredLabels, "label");
    MissingEmptyIff(annotations, RequiredAnnotations, "annotation");
  }
}
