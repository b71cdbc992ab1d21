/**
 * The project-namespace controller's syncer of the Prometheus RoleBinding
 * (pkg/controller/projectns/internal/sync/prometheus_role_binding.go): the
 * component labels, the Prometheus cluster role chosen when the binding is
 * created (a binding's role cannot change afterwards), and the project's
 * Prometheus service account as the only subject. The controller's own
 * labels are the parameter `controllerLabels`.
 */
module PrometheusRoleBinding {
  import opened Labels
  import opened KubeRbac
  import InternalProjectNs

  const PrometheusRole: string := "dashboard.presslabs.com:project::prometheus"

  /** The only subject: the service account of the project's Prometheus. */
  function PrometheusSubjects(nsLabels: LabelSet): (s: seq<Subject>)
    ensures s == [Subject("", ServiceAccountKind, "prometheus")]
  {
    [Subject("", ServiceAccountKind, InternalProjectNs.ProjectNsComponentName(nsLabels, InternalProjectNs.PrometheusServiceAccount))]
  }

  /**
   * The syncer's closure: labels merged; a binding not yet created gets the
   * Prometheus role and an existing one keeps its role; the subjects are
   * replaced by the service account; it never fails.
   */
  method Sync(out: RoleBinding, nsLabels: LabelSet, controllerLabels: LabelSet)
    modifies out
    ensures out.created == old(out.created)
    ensures out.labels ==
      Relabel(old(out.labels), InternalProjectNs.ComponentLabels(nsLabels, InternalProjectNs.PrometheusRoleBinding), controllerLabels)
    ensures !old(out.created) ==> out.roleRef == ClusterRole(PrometheusRole)
    ensures old(out.created) ==> out.roleRef == old(out.roleRef)
    ensures out.subjects == PrometheusSubjects(nsLabels)
  {
    var objLabels := InternalProjectNs.ComponentLabels(nsLabels, InternalProjectNs.PrometheusRoleBinding);
    out.labels := Relabel(out.labels, objLabels, controllerLabels);
    if !out.created {
      out.roleRef := RoleRef(RbacGroup, ClusterRoleKind, PrometheusRole);
    }
    out.subjects := PrometheusSubjects(nsLabels);
  }

  /**
   * Re-running the syncer on the binding it has just written, which is then
   * created, changes nothing further: the labels are relabelled to
   * themselves, and `Sync` keeps the role of a created binding and writes
   * the same subjects again.
   */
  lemma SecondSyncChangesNothing(existing: LabelSet, nsLabels: LabelSet, controllerLabels: LabelSet)
    ensures var own := InternalProjectNs.ComponentLabels(nsLabels, InternalProjectNs.PrometheusRoleBinding);
      Relabel(Relabel(existing, own, controllerLabels), own, controllerLabels) == Relabel(existing, own, controllerLabels)
  {
    RelabelIdempotent(existing, InternalProjectNs.ComponentLabels(nsLabels, InternalProjectNs.PrometheusRoleBinding), controllerLabels);
  }
}
