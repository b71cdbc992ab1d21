/**
 * The organization service of the API server
 * (pkg/apiserver/controller/organization/organization.go): the user index of
 * role-binding subjects, the checks and the namespace of CreateOrganization,
 * the member-binding filter and label selector of ListOrganizations, and the
 * conversion of an organization namespace to the API's organization.
 *
 * `organization.Resolve`, `organization.FQName` and
 * `organization.NamespaceName` are not part of this model: their results are
 * parameters.
 */
module OrganizationApi {
  import opened Wrappers
  import opened Text
  import opened Labels
  import opened KubeErrors
  import opened KubeMeta
  import opened KubeRbac
  import ApiStatus
  import InternalOrganization

  const MembersBinding: string := "members"

  /** An organization as the API returns it. */
  datatype Organization = Organization(name: string, displayName: string)

  /** An organization namespace: its name, labels and annotations. */
  datatype Namespace = Namespace(name: string, labels: LabelSet, annotations: LabelSet)

  /** A role binding: its name, its labels and its subjects. */
  datatype RoleBinding = RoleBinding(name: string, labels: LabelSet, subjects: seq<Subject>)

  // ---------------------------------------------------------------------------
  // The `subject.user` index

  /** A subject that names a user of the RBAC API group. */
  predicate IsUser(s: Subject)
  {
    s.apiGroup == RbacGroup && s.kind == UserKind
  }

  /** The names of the user subjects, in order. */
  function Users(subjects: seq<Subject>): (users: seq<string>)
    ensures |users| <= |subjects|
    decreases |subjects|
  {
    if |subjects| == 0 then []
    else
      var last := subjects[|subjects| - 1];
      Users(subjects[..|subjects| - 1]) + (if IsUser(last) then [last.name] else [])
  }

  /** The indexer both `IndexField` closures install: the names of the user subjects of a binding. */
  method IndexUsers(subjects: seq<Subject>) returns (users: seq<string>)
    ensures users == Users(subjects)
  {
    users := [];
    var i := 0;
    while i < |subjects|
      invariant 0 <= i <= |subjects|
      invariant users == Users(subjects[..i])
    {
      assert subjects[..i + 1][..i] == subjects[..i];
      var sub := subjects[i];
      if sub.apiGroup == RbacGroup && sub.kind == UserKind {
        users := users + [sub.name];
      }
      i := i + 1;
    }
    assert subjects[..i] == subjects;
  }

  /** A name is indexed exactly when some user subject carries it. */
  lemma {:induction false} UsersExact(subjects: seq<Subject>, u: string)
    ensures u in Users(subjects) <==> exists i :: 0 <= i < |subjects| && IsUser(subjects[i]) && subjects[i].name == u
    decreases |subjects|
  {
    if |subjects| > 0 {
      var init := subjects[..|subjects| - 1];
      UsersExact(init, u);
      assert forall i :: 0 <= i < |init| ==> init[i] == subjects[i];
      assert subjects == init + [subjects[|subjects| - 1]];
    }
  }

  // ---------------------------------------------------------------------------
  // CreateOrganization

  /**
   * The checks and the namespace of `CreateOrganization`: a given name is
   * resolved (`resolved`, the resolver's result on it; its error becomes
   * InvalidArgument), a missing one is the slug of the display name
   * (`slugged`); an empty name is refused through `status.FromError` of a
   * plain error, that is Internal. The namespace is named by
   * `namespaceName`, labelled with kind `organization` and the name, and
   * annotated with the creator.
   */
  function CreateOrganization(userID: string, requestName: string, resolved: Result<string, string>, slugged: string,
                              namespaceName: string -> string): (r: Result<Namespace, Status>)
    ensures |requestName| > 0 && resolved.Err? ==> r == Err(Status(InvalidArgument, resolved.error))
    ensures r.Err? && !(|requestName| > 0 && resolved.Err?) ==> r.error == Status(Internal, "internal error")
    ensures r.Ok? <==>
      (if |requestName| > 0 then resolved.Ok? && resolved.value != "" else slugged != "")
    ensures r.Ok? ==>
      var name := if |requestName| > 0 then resolved.value else slugged;
      r.value == Namespace(namespaceName(name), map[KindLabel := "organization", OrganizationLabel := name],
        map[CreatedByAnnotation := userID])
  {
    var nameResult := if |requestName| > 0 then resolved else Ok(slugged);
    match nameResult
    case Err(e) => Err(Status(InvalidArgument, e))
    case Ok(name) =>
      if |name| == 0 then Err(ApiStatus.FromErrorStatus(PlainError("organization name cannot be empty")))
      else Ok(Namespace(namespaceName(name), map[KindLabel := "organization", OrganizationLabel := name],
        map[CreatedByAnnotation := userID]))
  }

  /** The namespace created for a known user passes the organization metadata check. */
  lemma CreatedOrganizationIsValid(userID: string, requestName: string, resolved: Result<string, string>, slugged: string,
                                   namespaceName: string -> string)
    requires userID != ""
    requires CreateOrganization(userID, requestName, resolved, slugged, namespaceName).Ok?
    ensures var ns := CreateOrganization(userID, requestName, resolved, slugged, namespaceName).value;
      InternalOrganization.Problems(ns.labels, ns.annotations) == []
  {
    var ns := CreateOrganization(userID, requestName, resolved, slugged, namespaceName).value;
    MissingEmptyIff(ns.labels, InternalOrganization.RequiredLabels, "label");
    MissingEmptyIff(ns.annotations, InternalOrganization.RequiredAnnotations, "annotation");
  }

  /**
   * `newOrganizationFromK8s`: the fully-qualified name (`fqName`) of the
   * organization label, and the display-name annotation.
   */
  function NewOrganizationFromK8s(ns: Namespace, fqName: string -> string): (o: Organization)
    ensures o.name == fqName(Get(ns.labels, OrganizationLabel))
    ensures o.displayName == Get(ns.annotations, DisplayNameAnnotation)
  {
    Organization(fqName(Get(ns.labels, OrganizationLabel)), Get(ns.annotations, DisplayNameAnnotation))
  }

  /** A created organization reads back under the fully-qualified form of the name it was created with. */
  lemma CreatedOrganizationReadsBack(userID: string, requestName: string, resolved: Result<string, string>, slugged: string,
                                     namespaceName: string -> string, fqName: string -> string)
    requires CreateOrganization(userID, requestName, resolved, slugged, namespaceName).Ok?
    ensures var ns := CreateOrganization(userID, requestName, resolved, slugged, namespaceName).value;
      NewOrganizationFromK8s(ns, fqName).name == fqName(if |requestName| > 0 then resolved.value else slugged)
  {
  }

  // ---------------------------------------------------------------------------
  // ListOrganizations

  /** The bindings the field selector `subject.user=<userID>` lists: those whose index holds the user. */
  function BoundTo(bindings: seq<RoleBinding>, userID: string): (bs: seq<RoleBinding>)
    ensures |bs| <= |bindings|
    ensures forall b :: b in bs ==> b in bindings && userID in Users(b.subjects)
    decreases |bindings|
  {
    if |bindings| == 0 then []
    else
      var last := bindings[|bindings| - 1];
      BoundTo(bindings[..|bindings| - 1], userID) + (if userID in Users(last.subjects) then [last] else [])
  }

  /** The filter of `ListOrganizations`: a `members` binding with labels and a non-empty organization label. */
  predicate IsMemberBinding(b: RoleBinding)
  {
    b.name == MembersBinding && |b.labels| > 0 && |Get(b.labels, OrganizationLabel)| > 0
  }

  /** The label check is redundant: a non-empty organization label already makes the label map non-empty. */
  lemma MemberBindingNeedsOnlyOrgLabel(b: RoleBinding)
    ensures IsMemberBinding(b) <==> b.name == MembersBinding && Get(b.labels, OrganizationLabel) != ""
  {
    if Get(b.labels, OrganizationLabel) != "" {
      assert OrganizationLabel in b.labels.Keys;
    }
  }

  /** The organization names of the member bindings, in order. */
  function MemberOrgs(items: seq<RoleBinding>): (names: seq<string>)
    ensures |names| <= |items|
    decreases |items|
  {
    if |items| == 0 then []
    else
      var last := items[|items| - 1];
      MemberOrgs(items[..|items| - 1]) + (if IsMemberBinding(last) then [Get(last.labels, OrganizationLabel)] else [])
  }

  /** The loop that collects `orgNames`. */
  method CollectMemberOrgs(items: seq<RoleBinding>) returns (orgNames: seq<string>)
    ensures orgNames == MemberOrgs(items)
  {
    orgNames := [];
    var i := 0;
    while i < |items|
      invariant 0 <= i <= |items|
      invariant orgNames == MemberOrgs(items[..i])
    {
      assert items[..i + 1][..i] == items[..i];
      var b := items[i];
      if b.name == MembersBinding && |b.labels| > 0 && |Get(b.labels, OrganizationLabel)| > 0 {
        orgNames := orgNames + [Get(b.labels, OrganizationLabel)];
      }
      i := i + 1;
    }
    assert items[..i] == items;
  }

  /** An organization is collected exactly when some member binding is labelled with it; none is empty. */
  lemma {:induction false} MemberOrgsExact(items: seq<RoleBinding>, org: string)
    ensures org in MemberOrgs(items) <==>
      exists i :: 0 <= i < |items| && IsMemberBinding(items[i]) && Get(items[i].labels, OrganizationLabel) == org
    ensures org in MemberOrgs(items) ==> org != ""
    decreases |items|
  {
    if |items| > 0 {
      var init := items[..|items| - 1];
      MemberOrgsExact(init, org);
      assert forall i :: 0 <= i < |init| ==> init[i] == items[i];
      assert items == init + [items[|items| - 1]];
    }
  }

  const SelectorPrefix: string := "presslabs.com/kind=organization, presslabs.com/organization in ("

  /** The label selector text: kind `organization` and the organization label among the names, joined by ", ". */
  function Selector(orgNames: seq<string>): (s: string)
    ensures StartsWith(s, SelectorPrefix) && |s| > |SelectorPrefix| && s[|s| - 1] == ')'
    ensures s[|SelectorPrefix|..|s| - 1] == Join(orgNames, ", ")
  {
    var s := SelectorPrefix + Join(orgNames, ", ") + ")";
    assert s[..|SelectorPrefix|] == SelectorPrefix;
    s
  }

  /** What the selector asks of a namespace's labels: kind `organization` and an organization label among the names. */
  predicate SelectedBy(orgNames: seq<string>, labels: LabelSet)
  {
    KindLabel in labels && labels[KindLabel] == "organization" &&
    OrganizationLabel in labels && labels[OrganizationLabel] in orgNames
  }

  /** The namespaces the selector lists, in order. */
  function Selected(namespaces: seq<Namespace>, orgNames: seq<string>): (ns: seq<Namespace>)
    ensures |ns| <= |namespaces|
    decreases |namespaces|
  {
    if |namespaces| == 0 then []
    else
      var last := namespaces[|namespaces| - 1];
      Selected(namespaces[..|namespaces| - 1], orgNames) + (if SelectedBy(orgNames, last.labels) then [last] else [])
  }

  /** The organizations `ListOrganizations` returns for a user: the selected namespaces, converted in order. */
  function Listed(bindings: seq<RoleBinding>, namespaces: seq<Namespace>, userID: string, fqName: string -> string)
    : seq<Organization>
  {
    var selected := Selected(namespaces, MemberOrgs(BoundTo(bindings, userID)));
    seq(|selected|, i requires 0 <= i < |selected| => NewOrganizationFromK8s(selected[i], fqName))
  }

  /**
   * `ListOrganizations`: lists the bindings of the user, collects the
   * organizations of the member bindings, lists the namespaces the selector
   * picks and converts each. The two list calls are the functions `BoundTo`
   * and `Selected`.
   */
  method ListOrganizations(bindings: seq<RoleBinding>, namespaces: seq<Namespace>, userID: string, fqName: string -> string)
    returns (orgs: seq<Organization>)
    ensures orgs == Listed(bindings, namespaces, userID, fqName)
  {
    var memberLists := BoundTo(bindings, userID);
    var orgNames := CollectMemberOrgs(memberLists);
    var items := Selected(namespaces, orgNames);
    orgs := [];
    var i := 0;
    while i < |items|
      invariant 0 <= i <= |items|
      invariant orgs == seq(i, j requires 0 <= j < i => NewOrganizationFromK8s(items[j], fqName))
    {
      orgs := orgs + [NewOrganizationFromK8s(items[i], fqName)];
      i := i + 1;
    }
  }

  /** The selection keeps exactly the namespaces the selector asks for. */
  lemma {:induction false} SelectedExact(namespaces: seq<Namespace>, orgNames: seq<string>, n: Namespace)
    ensures n in Selected(namespaces, orgNames) <==> n in namespaces && SelectedBy(orgNames, n.labels)
    decreases |namespaces|
  {
    if |namespaces| > 0 {
      var init := namespaces[..|namespaces| - 1];
      SelectedExact(init, orgNames, n);
      assert namespaces == init + [namespaces[|namespaces| - 1]];
    }
  }

  /** A binding is listed for the user exactly when one of its user subjects names the user. */
  lemma {:induction false} BoundToExact(bindings: seq<RoleBinding>, userID: string, b: RoleBinding)
    ensures b in BoundTo(bindings, userID) <==> b in bindings && userID in Users(b.subjects)
    decreases |bindings|
  {
    if |bindings| > 0 {
      var init := bindings[..|bindings| - 1];
      BoundToExact(init, userID, b);
      assert bindings == init + [bindings[|bindings| - 1]];
    }
  }

  /** Some `members` binding labelled with `org` lists `userID` among its user subjects. */
  predicate MemberOf(bindings: seq<RoleBinding>, userID: string, org: string)
  {
    exists b :: b in bindings && userID in Users(b.subjects) && IsMemberBinding(b) && Get(b.labels, OrganizationLabel) == org
  }

  /**
   * A user is shown the organization namespaces whose organization label
   * names an organization of which some `members` binding lists the user as
   * a subject, and no other namespace.
   */
  lemma ListedNamespacesExact(bindings: seq<RoleBinding>, namespaces: seq<Namespace>, userID: string, n: Namespace)
    ensures n in Selected(namespaces, MemberOrgs(BoundTo(bindings, userID))) <==>
      n in namespaces && KindLabel in n.labels && n.labels[KindLabel] == "organization" && OrganizationLabel in n.labels &&
      MemberOf(bindings, userID, n.labels[OrganizationLabel])
  {
    var bound := BoundTo(bindings, userID);
    SelectedExact(namespaces, MemberOrgs(bound), n);
    if OrganizationLabel in n.labels {
      var org := n.labels[OrganizationLabel];
      MemberOrgsExact(bound, org);
      if org in MemberOrgs(bound) {
        var i :| 0 <= i < |bound| && IsMemberBinding(bound[i]) && Get(bound[i].labels, OrganizationLabel) == org;
        BoundToExact(bindings, userID, bound[i]);
      }
      if MemberOf(bindings, userID, org) {
        var b :| b in bindings && userID in Users(b.subjects) && IsMemberBinding(b) && Get(b.labels, OrganizationLabel) == org;
        BoundToExact(bindings, userID, b);
        var i :| 0 <= i < |bound| && bound[i] == b;
      }
    }
  }
}
