/**
 * The organization controller's syncer of the `members` RoleBinding
 * (pkg/controller/organization/internal/sync/member_role_binding.go): the
 * organization labels, the organization's creator as the first member when
 * the binding is new, and the organization member cluster role. The
 * controller's own labels are not part of this model: they are the
 * parameter `controllerLabels`.
 */
module OrganizationMemberBinding {
  import opened Labels
  import opened KubeMeta
  import opened KubeRbac
  import InternalOrganization
  import OrganizationApi

  const MemberRole: string := "dashboard.presslabs.com:organization::member"

  /**
   * The subjects a member-binding syncer leaves: a binding not yet created
   * gets the creator appended as a user; an existing one keeps its list.
   */
  function MemberSubjects(created: bool, subjects: seq<Subject>, creator: string): (r: seq<Subject>)
    ensures created ==> r == subjects
    ensures !created ==> |r| == |subjects| + 1 && r[..|subjects|] == subjects && r[|subjects|] == Subject("", UserKind, creator)
  {
    if created then subjects else subjects + [Subject("", UserKind, creator)]
  }

  /** The creator is added once: a second sync, on the binding now created, adds no one. */
  lemma CreatorAddedOnce(subjects: seq<Subject>, creator: string)
    ensures MemberSubjects(true, MemberSubjects(false, subjects, creator), creator) == MemberSubjects(false, subjects, creator)
  {
  }

  /** The syncer's closure: labels merged, the creator added to a new binding, the role set; it never fails. */
  method Sync(out: RoleBinding, orgLabels: LabelSet, orgAnnotations: map<string, string>, controllerLabels: LabelSet)
    modifies out
    ensures out.created == old(out.created)
    ensures out.labels == Relabel(old(out.labels), InternalOrganization.OrganizationLabels(orgLabels), controllerLabels)
    ensures out.subjects == MemberSubjects(old(out.created), old(out.subjects), Get(orgAnnotations, CreatedByAnnotation))
    ensures out.roleRef == ClusterRole(MemberRole)
  {
    out.labels := Relabel(out.labels, InternalOrganization.OrganizationLabels(orgLabels), controllerLabels);
    if !out.created {
      var member := Subject("", UserKind, Get(orgAnnotations, CreatedByAnnotation));
      out.subjects := out.subjects + [member];
    }
    out.roleRef := RoleRef(RbacGroup, ClusterRoleKind, MemberRole);
  }

  /**
   * Re-running the syncer on the binding it has just written, which is then
   * created, changes nothing further: not the labels, not the subjects, and
   * the role is the same constant.
   */
  lemma SecondSyncChangesNothing(existing: LabelSet, created: bool, subjects: seq<Subject>,
      orgLabels: LabelSet, orgAnnotations: map<string, string>, controllerLabels: LabelSet)
    ensures var own := InternalOrganization.OrganizationLabels(orgLabels);
      var creator := Get(orgAnnotations, CreatedByAnnotation);
      var labels1 := Relabel(existing, own, controllerLabels);
      var subjects1 := MemberSubjects(created, subjects, creator);
      Relabel(labels1, own, controllerLabels) == labels1 && MemberSubjects(true, subjects1, creator) == subjects1
  {
    RelabelIdempotent(existing, InternalOrganization.OrganizationLabels(orgLabels), controllerLabels);
  }

  /**
   * The binding a first sync writes, once the API server has defaulted its
   * subjects and the API server lists it: the creator is one of its users
   * and it is a member binding of the organization, so the organization is
   * among those `ListOrganizations` selects for the creator.
   */
  lemma {:induction false} CreatorFindsOrganization(bindings: seq<OrganizationApi.RoleBinding>, existingLabels: LabelSet,
      orgLabels: LabelSet, controllerLabels: LabelSet, subjects: seq<Subject>, creator: string)
    requires Get(orgLabels, OrganizationLabel) != "" && OrganizationLabel !in controllerLabels
    requires OrganizationApi.RoleBinding(OrganizationApi.MembersBinding,
      Relabel(existingLabels, InternalOrganization.OrganizationLabels(orgLabels), controllerLabels),
      DefaultSubjects(MemberSubjects(false, subjects, creator))) in bindings
    ensures Get(orgLabels, OrganizationLabel) in OrganizationApi.MemberOrgs(OrganizationApi.BoundTo(bindings, creator))
  {
    var b := OrganizationApi.RoleBinding(OrganizationApi.MembersBinding,
      Relabel(existingLabels, InternalOrganization.OrganizationLabels(orgLabels), controllerLabels),
      DefaultSubjects(MemberSubjects(false, subjects, creator)));
    var org := Get(orgLabels, OrganizationLabel);
    var n := |subjects|;
    assert b.subjects[n] == Subject(RbacGroup, UserKind, creator);
    OrganizationApi.UsersExact(b.subjects, creator);
    OrganizationApi.BoundToExact(bindings, creator, b);
    var items := OrganizationApi.BoundTo(bindings, creator);
    var i :| 0 <= i < |items| && items[i] == b;
    assert Get(b.labels, OrganizationLabel) == org;
    OrganizationApi.MemberBindingNeedsOnlyOrgLabel(b);
    OrganizationApi.MemberOrgsExact(items, org);
  }
}
