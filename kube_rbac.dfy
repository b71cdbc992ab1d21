/**
 * The parts of Kubernetes RBAC objects (`rbacv1`) the role-binding syncers
 * write and the API server reads: subjects, role references and role
 * bindings, and the defaulting the Kubernetes API server applies to a
 * subject when it stores it (which is Kubernetes' behaviour, not this
 * repository's).
 */
module KubeRbac {
  import opened Labels

  const RbacGroup: string := "rbac.authorization.k8s.io"
  const UserKind: string := "User"
  const GroupKind: string := "Group"
  const ServiceAccountKind: string := "ServiceAccount"
  const ClusterRoleKind: string := "ClusterRole"

  /** A subject of a role binding. */
  datatype Subject = Subject(apiGroup: string, kind: string, name: string)

  /** The role a binding grants. */
  datatype RoleRef = RoleRef(apiGroup: string, kind: string, name: string)

  /** A cluster role of the RBAC group, as every syncer here refers to one. */
  function ClusterRole(name: string): (r: RoleRef)
    ensures r.apiGroup == RbacGroup && r.kind == ClusterRoleKind && r.name == name
  {
    RoleRef(RbacGroup, ClusterRoleKind, name)
  }

  /** A role binding object: whether it exists in the cluster, its labels, subjects and role. */
  class RoleBinding {
    var created: bool
    var labels: LabelSet
    var subjects: seq<Subject>
    var roleRef: RoleRef

    constructor (created: bool, labels: LabelSet, subjects: seq<Subject>, roleRef: RoleRef)
      ensures this.created == created && this.labels == labels
      ensures this.subjects == subjects && this.roleRef == roleRef
    {
      this.created := created;
      this.labels := labels;
      this.subjects := subjects;
      this.roleRef := roleRef;
    }
  }

  /**
   * The API server's defaulting of a stored subject: a user or group
   * without an API group gets the RBAC group; anything else is kept.
   */
  function DefaultSubject(s: Subject): (d: Subject)
    ensures d.kind == s.kind && d.name == s.name
    ensures s.apiGroup == "" && (s.kind == UserKind || s.kind == GroupKind) ==> d.apiGroup == RbacGroup
    ensures s.apiGroup != "" || (s.kind != UserKind && s.kind != GroupKind) ==> d == s
  {
    if s.apiGroup == "" && (s.kind == UserKind || s.kind == GroupKind) then s.(apiGroup := RbacGroup) else s
  }

  /** The defaulting applied to every subject of a list. */
  function DefaultSubjects(subjects: seq<Subject>): (d: seq<Subject>)
    ensures |d| == |subjects|
    ensures forall i :: 0 <= i < |subjects| ==> d[i] == DefaultSubject(subjects[i])
  {
    seq(|subjects|, i requires 0 <= i < |subjects| => DefaultSubject(subjects[i]))
  }
}
