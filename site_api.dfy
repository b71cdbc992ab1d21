/**
 * The site service of the API server (pkg/apiserver/controller/site/site.go):
 * the field-mask driven updates of a site's primary domain and image, the
 * checks and the object of CreateSite, and the conversion of a site object to
 * the API's site.
 */
module SiteApi {
  import opened Wrappers
  import opened Text
  import opened Labels
  import opened Paths
  import opened KubeErrors
  import opened KubeMeta
  import InternalSite
  import InternalSiteMeta
  import ApiserverSite
  import ApiStatus

  const PrimaryDomainPath: string := "site.primary_domain"
  const WordpressImagePath: string := "site.wordpress_image"

  /** The part of a `Wordpress` object the service writes: its metadata, domains and image. */
  class Wordpress {
    var name: string
    var namespace: string
    var labels: LabelSet
    var annotations: LabelSet
    var domains: seq<string>
    var image: string

    constructor (name: string, namespace: string, labels: LabelSet, annotations: LabelSet, domains: seq<string>, image: string)
      ensures this.name == name && this.namespace == namespace && this.labels == labels
      ensures this.annotations == annotations && this.domains == domains && this.image == image
    {
      this.name := name;
      this.namespace := namespace;
      this.labels := labels;
      this.annotations := annotations;
      this.domains := domains;
      this.image := image;
    }
  }

  /** A site as the API returns it (endpoints aside). */
  datatype Site = Site(name: string, primaryDomain: string, wordpressImage: string)

  /** `containsString`: whether some element equals `e`. */
  method ContainsString(s: seq<string>, e: string) returns (found: bool)
    ensures found <==> e in s
  {
    var i := 0;
    while i < |s|
      invariant 0 <= i <= |s|
      invariant e !in s[..i]
    {
      if s[i] == e {
        return true;
      }
      assert s[..i + 1] == s[..i] + [s[i]];
      i := i + 1;
    }
    assert s[..i] == s;
    return false;
  }

  /** A field is to be updated when the mask is empty or names it. */
  predicate Selected(mask: seq<string>, path: string)
  {
    |mask| == 0 || path in mask
  }

  /**
   * `updatePrimaryDomain`: when the mask selects the primary domain, an
   * empty domain is an error and changes nothing, and any other replaces the
   * first domain only; otherwise nothing changes. The source indexes the
   * first domain, so a replacement needs one.
   */
  method UpdatePrimaryDomain(wp: Wordpress, domain: string, mask: seq<string>) returns (err: Option<string>)
    requires Selected(mask, PrimaryDomainPath) && domain != "" ==> |wp.domains| > 0
    modifies wp
    ensures Selected(mask, PrimaryDomainPath) && domain == "" ==> err == Some("primary domain cannot be empty")
    ensures Selected(mask, PrimaryDomainPath) && domain != "" ==> err.None? && wp.domains == old(wp.domains)[0 := domain]
    ensures !(Selected(mask, PrimaryDomainPath) && domain != "") ==> wp.domains == old(wp.domains)
    ensures !Selected(mask, PrimaryDomainPath) ==> err.None?
    ensures wp.image == old(wp.image) && wp.labels == old(wp.labels) && wp.annotations == old(wp.annotations)
    ensures wp.name == old(wp.name) && wp.namespace == old(wp.namespace)
  {
    var named := ContainsString(mask, PrimaryDomainPath);
    if |mask| == 0 || named {
      if |domain| == 0 {
        return Some("primary domain cannot be empty");
      } else {
        wp.domains := wp.domains[0 := domain];
      }
    }
    return None;
  }

  /** `updateWordpressImage`: sets the image when the mask is empty or names it; never fails and touches nothing else. */
  method UpdateWordpressImage(wp: Wordpress, image: string, mask: seq<string>) returns (err: Option<string>)
    modifies wp
    ensures err.None?
    ensures wp.image == if Selected(mask, WordpressImagePath) then image else old(wp.image)
    ensures wp.domains == old(wp.domains) && wp.labels == old(wp.labels) && wp.annotations == old(wp.annotations)
    ensures wp.name == old(wp.name) && wp.namespace == old(wp.namespace)
  {
    var named := ContainsString(mask, WordpressImagePath);
    if |mask| == 0 || named {
      wp.image := image;
    }
    return None;
  }

  /** `newSiteFromK8s`: the fully-qualified name from the project label and the object name, the first domain, the image. */
  function NewSiteFromK8s(name: string, labels: LabelSet, domains: seq<string>, image: string): (s: Site)
    requires |domains| > 0
    ensures s.primaryDomain == domains[0] && s.wordpressImage == image
    ensures s.name == InternalSite.FQName(Get(labels, ProjectLabel), name)
  {
    Site(InternalSite.FQName(Get(labels, ProjectLabel), name), domains[0], image)
  }

  /** The object CreateSite creates: name and namespace, labels, annotations, domains and image. */
  datatype NewWordpress = NewWordpress(name: string, namespace: string, labels: LabelSet, annotations: LabelSet,
                                       domains: seq<string>, image: string)

  /**
   * The checks of `CreateSite`, in order: the parent must resolve to a
   * project (`parentProject`, the result of the project name resolver); the
   * project's namespace must be found (`lookup`); the primary domain must be
   * non-empty; a missing name is generated under the project from
   * `generated` (the label and random suffix of `generateNameFromDomain`);
   * the name must start with the parent, resolve, and name the same project.
   */
  function CreateSite(parentProject: Result<string, string>, lookup: ApiserverSite.Lookup, org: string, userID: string,
                      parent: string, name: string, primaryDomain: string, image: string, generated: string)
    : (r: Result<NewWordpress, Status>)
    ensures parentProject.Err? ==> r == Err(Status(InvalidArgument, parentProject.error))
    ensures r.Ok? ==> primaryDomain != "" && parentProject.Ok? && lookup(parentProject.value, org).Ok?
    ensures r.Ok? && |name| > 0 ==>
      StartsWith(name, parent) && ApiserverSite.Resolve(name) == Ok((r.value.name, parentProject.value))
    ensures parentProject.Ok? && lookup(parentProject.value, org).Ok? && primaryDomain != "" && |name| > 0 &&
            !StartsWith(name, parent) ==>
              r == Err(Status(InvalidArgument, "parent and project are not matching"))
    ensures r.Ok? ==> CleanSegment(r.value.name) && CleanSegment(parentProject.value)
    ensures r.Ok? ==> r.value.namespace == lookup(parentProject.value, org).value
    ensures r.Ok? ==> r.value.labels == map[KindLabel := "site", SiteLabel := r.value.name,
      ProjectLabel := parentProject.value, OrganizationLabel := org]
    ensures r.Ok? ==> r.value.annotations == map[CreatedByAnnotation := userID]
    ensures r.Ok? ==> r.value.domains == [primaryDomain] && r.value.image == image
  {
    match parentProject
    case Err(msg) => Err(Status(InvalidArgument, msg))
    case Ok(proj) =>
      match lookup(proj, org)
      case Err(e) => if IsNotFound(e) then Err(Status(NotFound, "project not found")) else Err(Status(Internal, CodeString(Internal)))
      case Ok(ns) =>
        if |primaryDomain| == 0 then Err(Status(InvalidArgument, "primary domain cannot be empty"))
        else
          var fullName := if |name| == 0 then InternalSite.FQName(proj, generated) else name;
          if !StartsWith(fullName, parent) then Err(Status(InvalidArgument, "parent and project are not matching"))
          else
            match ApiserverSite.Resolve(fullName)
            case Err(e) => Err(e)
            case Ok((siteName, projName)) =>
              if proj != projName then Err(Status(InvalidArgument, "parent and project are not matching"))
              else
                Ok(NewWordpress(siteName, ns,
                  map[KindLabel := "site", SiteLabel := siteName, ProjectLabel := proj, OrganizationLabel := org],
                  map[CreatedByAnnotation := userID], [primaryDomain], image))
  }

  /** An empty primary domain is refused once the parent and its namespace are found. */
  lemma EmptyDomainRefused(proj: string, lookup: ApiserverSite.Lookup, org: string, userID: string,
                           parent: string, name: string, image: string, generated: string)
    requires lookup(proj, org).Ok?
    ensures CreateSite(Ok(proj), lookup, org, userID, parent, name, "", image, generated) ==
      Err(Status(InvalidArgument, "primary domain cannot be empty"))
  {
  }

  /** A given name that does not start with the parent is refused once the parent and its namespace are found. */
  lemma PrefixMismatchRefused(proj: string, lookup: ApiserverSite.Lookup, org: string, userID: string,
                              parent: string, name: string, primaryDomain: string, image: string, generated: string)
    requires lookup(proj, org).Ok? && primaryDomain != "" && |name| > 0 && !StartsWith(name, parent)
    ensures CreateSite(Ok(proj), lookup, org, userID, parent, name, primaryDomain, image, generated) ==
      Err(Status(InvalidArgument, "parent and project are not matching"))
  {
  }

  /** A name under another project than the parent's is refused, even when the parent is a prefix of it. */
  lemma OtherProjectRefused(proj: string, lookup: ApiserverSite.Lookup, org: string, userID: string,
                            parent: string, name: string, primaryDomain: string, image: string, generated: string)
    requires lookup(proj, org).Ok? && primaryDomain != "" && |name| > 0
    requires ApiserverSite.Resolve(name).Ok? && ApiserverSite.Resolve(name).value.1 != proj
    ensures CreateSite(Ok(proj), lookup, org, userID, parent, name, primaryDomain, image, generated) ==
      Err(Status(InvalidArgument, "parent and project are not matching"))
  {
  }

  /** A created site reads back under the name it was created with, with its primary domain and image. */
  lemma CreatedSiteReadsBack(parentProject: Result<string, string>, lookup: ApiserverSite.Lookup, org: string, userID: string,
                             parent: string, name: string, primaryDomain: string, image: string, generated: string)
    requires |name| > 0
    requires CreateSite(parentProject, lookup, org, userID, parent, name, primaryDomain, image, generated).Ok?
    ensures var wp := CreateSite(parentProject, lookup, org, userID, parent, name, primaryDomain, image, generated).value;
      NewSiteFromK8s(wp.name, wp.labels, wp.domains, wp.image) == Site(name, primaryDomain, image)
  {
    InternalSite.FQNameOfResolved(name);
  }

  /** The labels and annotations of a created site satisfy the site check when the caller and organization are known. */
  lemma CreatedSiteIsValid(parentProject: Result<string, string>, lookup: ApiserverSite.Lookup, org: string, userID: string,
                           parent: string, name: string, primaryDomain: string, image: string, generated: string)
    requires org != "" && userID != ""
    requires CreateSite(parentProject, lookup, org, userID, parent, name, primaryDomain, image, generated).Ok?
    ensures var wp := CreateSite(parentProject, lookup, org, userID, parent, name, primaryDomain, image, generated).value;
      InternalSiteMeta.Problems(wp.labels, wp.annotations) == []
  {
    var wp := CreateSite(parentProject, lookup, org, userID, parent, name, primaryDomain, image, generated).value;
    SiteMetadataValid(wp.name, parentProject.value, org, userID);
  }

  /** The labels and annotations CreateSite writes pass the site check for non-empty values. */
  lemma SiteMetadataValid(siteName: string, proj: string, org: string, userID: string)
    requires siteName != "" && proj != "" && org != "" && userID != ""
    ensures InternalSiteMeta.Problems(
      map[KindLabel := "site", SiteLabel := siteName, ProjectLabel := proj, OrganizationLabel := org],
      map[CreatedByAnnotation := userID]) == []
  {
    var labels := map[KindLabel := "site", SiteLabel := siteName, ProjectLabel := proj, OrganizationLabel := org];
    var annotations := map[CreatedByAnnotation := userID];
    MissingEmptyIff(labels, InternalSiteMeta.RequiredLabels, "label");
    MissingEmptyIff(annotations, InternalSiteMeta.RequiredAnnotations, "annotation");
  }

  // ---------------------------------------------------------------------------
  // Endpoints of a site

  /** A load-balancer address in the status of the site's ingress. */
  datatype LoadBalancerIngress = LoadBalancerIngress(ip: string, hostname: string)

  /** An endpoint of a site as the API returns it. */
  datatype Endpoint = Endpoint(ip: string, host: string)

  /** How a Go call ends: it returns a value, or it panics. */
  datatype Call<T> = Returns(value: T) | Panics(reason: string)

  /**
   * `getEndpoints` as written. `ingress` is the outcome of reading the site's
   * ingress. `make` fills the slice of endpoint references with nil and the loop
   * then writes `Ip` and `Host` through `endp[i]`, so the first address
   * dereferences nil: only an ingress without addresses gets through.
   */
  function EndpointsAsWritten(ingress: Result<seq<LoadBalancerIngress>, Error>): (r: Call<Result<seq<Endpoint>, Status>>)
    ensures ingress.Err? ==> r == Returns(Err(ApiStatus.FromErrorStatus(ingress.error)))
    ensures r.Panics? <==> ingress.Ok? && |ingress.value| > 0
  {
    match ingress
    case Err(e) => Returns(Err(ApiStatus.FromErrorStatus(e)))
    case Ok(addrs) => if |addrs| == 0 then Returns(Ok([])) else Panics("invalid memory address: nil dereference")
  }

  /** The endpoints the loop is meant to build: one per address, in order, with its IP and host name. */
  function Endpoints(addrs: seq<LoadBalancerIngress>): (endp: seq<Endpoint>)
    ensures |endp| == |addrs|
    ensures forall i :: 0 <= i < |addrs| ==> endp[i] == Endpoint(addrs[i].ip, addrs[i].hostname)
  {
    seq(|addrs|, i requires 0 <= i < |addrs| => Endpoint(addrs[i].ip, addrs[i].hostname))
  }

  /**
   * `getEndpoints` with each endpoint allocated before it is filled: a read
   * error is converted by `status.FromError`, otherwise every address becomes
   * an endpoint.
   */
  method GetEndpoints(ingress: Result<seq<LoadBalancerIngress>, Error>) returns (r: Result<seq<Endpoint>, Status>)
    ensures ingress.Err? ==> r == Err(ApiStatus.FromErrorStatus(ingress.error))
    ensures ingress.Ok? ==> r == Ok(Endpoints(ingress.value))
  {
    if ingress.Err? {
      return Err(ApiStatus.FromErrorStatus(ingress.error));
    }
    var addrs := ingress.value;
    var endp: seq<Endpoint> := [];
    var i := 0;
    while i < |addrs|
      invariant 0 <= i <= |addrs|
      invariant endp == Endpoints(addrs[..i])
    {
      endp := endp + [Endpoint(addrs[i].ip, addrs[i].hostname)];
      i := i + 1;
    }
    assert addrs[..i] == addrs;
    return Ok(endp);
  }

  /** One address is enough: the code as written panics where the corrected loop returns that address as an endpoint. */
  lemma OneAddressPanicsAsWritten(a: LoadBalancerIngress)
    ensures EndpointsAsWritten(Ok([a])).Panics?
    ensures Endpoints([a]) == [Endpoint(a.ip, a.hostname)]
  {
  }
}
