/**
 * Site name resolution as the API server reports it
 * (pkg/apiserver/internal/site/site.go): the same accepted names as the
 * internal site wrapper, refused with a gRPC InvalidArgument status, and the
 * object key of a site, found through its project's namespace.
 */
module ApiserverSite {
  import opened Wrappers
  import opened Paths
  import opened KubeErrors
  import opened KubeMeta
  import InternalSite

  /** `Resolve`: (site name, project name), or InvalidArgument with the expected form as message. */
  function Resolve(name: string): (r: Result<(string, string), Status>)
    ensures r.Ok? <==> IsClean(name) && Matches(InternalSite.SitePattern, name)
    ensures r.Ok? ==> r.value == (Segments(name)[3], Segments(name)[1])
    ensures r.Ok? ==> CleanSegment(r.value.0) && CleanSegment(r.value.1) && '/' !in r.value.0 && '/' !in r.value.1
    ensures r.Err? ==> r.error == Status(InvalidArgument, InternalSite.FormError)
  {
    if !IsClean(name) then Err(Status(InvalidArgument, InternalSite.FormError))
    else if !Matches(InternalSite.SitePattern, name) then Err(Status(InvalidArgument, InternalSite.FormError))
    else
      var names := Segments(name);
      FirstSegment(name);
      assert DotDotRun(names) == 0;
      Ok((names[3], names[1]))
  }

  /** The API server accepts the same names as the internal wrapper and returns the same pair. */
  lemma SameAsInternal(name: string)
    ensures Resolve(name).Ok? <==> InternalSite.Resolve(name).Ok?
    ensures Resolve(name).Ok? ==> Resolve(name).value == InternalSite.Resolve(name).value
  {
  }

  /** A short name like `project/a`, and a wrong third segment, are refused. */
  lemma WrongShapesRefused(name: string)
    requires |Segments(name)| != 4 || Segments(name)[0] != "project" || Segments(name)[2] != "site"
    ensures Resolve(name) == Err(Status(InvalidArgument, InternalSite.FormError))
  {
  }

  /**
   * The project namespace lookup (`projectns.Lookup`), which lists
   * namespaces: for a project and an organization, the namespace's name or
   * the error of the listing.
   */
  type Lookup = (string, string) -> Result<string, Error>

  /**
   * `ResolveToObjectKey`: a Resolve error as it is; a NotFound lookup error
   * as NotFound "project not found"; any other lookup error as Internal; the
   * site's name in the namespace found otherwise.
   */
  function ResolveToObjectKey(lookup: Lookup, fqSiteName: string, orgName: string): (r: Result<ObjectKey, Status>)
    ensures Resolve(fqSiteName).Err? ==> r == Err(Resolve(fqSiteName).error)
    ensures Resolve(fqSiteName).Ok? ==>
      var (siteName, projName) := Resolve(fqSiteName).value;
      match lookup(projName, orgName)
      case Ok(ns) => r == Ok(ObjectKey(ns, siteName))
      case Err(e) => r == Err(if IsNotFound(e) then Status(NotFound, "project not found") else Status(Internal, "Internal"))
  {
    match Resolve(fqSiteName)
    case Err(e) => Err(e)
    case Ok((siteName, projName)) =>
      match lookup(projName, orgName)
      case Err(e) =>
        if IsNotFound(e) then Err(Status(NotFound, "project not found")) else Err(Status(Internal, CodeString(Internal)))
      case Ok(ns) => Ok(ObjectKey(ns, siteName))
  }

  /** A name that does not resolve is refused the same way whatever the lookup would say: no lookup is made. */
  lemma RefusedBeforeLookup(l1: Lookup, l2: Lookup, fqSiteName: string, orgName: string)
    requires Resolve(fqSiteName).Err?
    ensures ResolveToObjectKey(l1, fqSiteName, orgName) == ResolveToObjectKey(l2, fqSiteName, orgName)
    ensures ResolveToObjectKey(l1, fqSiteName, orgName).error.code == InvalidArgument
  {
  }

  /** The key of a site named by its fully-qualified name is the site's name in its project's namespace. */
  lemma KeyOfFQName(lookup: Lookup, projName: string, siteName: string, orgName: string)
    requires CleanSegment(projName) && CleanSegment(siteName) && '/' !in projName && '/' !in siteName
    requires lookup(projName, orgName).Ok?
    ensures ResolveToObjectKey(lookup, InternalSite.FQName(projName, siteName), orgName) ==
      Ok(ObjectKey(lookup(projName, orgName).value, siteName))
  {
    InternalSite.ResolveFQName(projName, siteName);
  }
}
