/**
 * The project controller's syncer of the project members RoleBinding
 * (pkg/controller/project/internal/sync/member_role_binding.go): the
 * project labels with the kind `project-member-list`, the project's
 * creator as the first member when the binding is new, and the project
 * member cluster role. The controller's own labels are the parameter
 * `controllerLabels`.
 */
module ProjectMemberBinding {
  import opened Labels
  import opened KubeMeta
  import opened KubeRbac
  import InternalProject
  import OrganizationMemberBinding

  const MemberRole: string := "dashboard.presslabs.com:project::member"
  const MemberListKind: string := "project-member-list"

  /** The labels the syncer writes: the merged labels, with the kind over any earlier value. */
  function BindingLabels(existing: LabelSet, projectLabels: LabelSet, controllerLabels: LabelSet): (l: LabelSet)
    ensures l.Keys == existing.Keys + InternalProject.ProjectLabels(projectLabels).Keys + controllerLabels.Keys + {KindLabel}
    ensures l[KindLabel] == MemberListKind
    ensures ProjectLabel !in controllerLabels ==> l[ProjectLabel] == Get(projectLabels, ProjectLabel)
  {
    Relabel(existing, InternalProject.ProjectLabels(projectLabels), controllerLabels)[KindLabel := MemberListKind]
  }

  /**
   * The syncer's closure: labels merged and the kind set, the creator added
   * to a new binding (as the organization syncer does), the role set; it
   * never fails.
   */
  method Sync(out: RoleBinding, projectLabels: LabelSet, projectAnnotations: map<string, string>, controllerLabels: LabelSet)
    modifies out
    ensures out.created == old(out.created)
    ensures out.labels == BindingLabels(old(out.labels), projectLabels, controllerLabels)
    ensures out.subjects ==
      OrganizationMemberBinding.MemberSubjects(old(out.created), old(out.subjects), Get(projectAnnotations, CreatedByAnnotation))
    ensures out.roleRef == ClusterRole(MemberRole)
  {
    out.labels := Relabel(out.labels, InternalProject.ProjectLabels(projectLabels), controllerLabels);
    out.labels := out.labels[KindLabel := MemberListKind];
    if !out.created {
      var member := Subject("", UserKind, Get(projectAnnotations, CreatedByAnnotation));
      out.subjects := out.subjects + [member];
    }
    out.roleRef := RoleRef(RbacGroup, ClusterRoleKind, MemberRole);
  }
}
