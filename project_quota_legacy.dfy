/**
 * The older resource quota syncer of the project controller
 * (pkg/controller/project/sync/resource_quota.go): the same hard limits, the
 * project's default labels, and the controller reference to the project.
 */
module ProjectQuotaLegacy {
  import opened Wrappers
  import opened Labels
  import opened Quantity
  import ProjectQuota
  import ProjectFunctions
  import ControllerUtil

  const EventReasonResourceQuotaFailed: string := "ResourceQuotaFailed"
  const EventReasonResourceQuotaUpdated: string := "ResourceQuotaUpdated"

  /** `defaultOrMaxValue`, written again with the same defaults: it picks what the newer syncer picks. */
  function DefaultOrMaxValue(rl: ProjectQuota.ResourceList, resource: string): (q: Quantity)
    ensures q == ProjectQuota.DefaultOrMaxValue(rl, resource)
  {
    var def := ProjectQuota.DefaultFor(resource);
    if resource !in rl then def
    else if Value(def) > Value(rl[resource]) then def
    else rl[resource]
  }

  /** The quota object: labels, hard limits and owner references. */
  class ResourceQuota {
    var labels: LabelSet
    var hard: ProjectQuota.ResourceList
    const owned: ControllerUtil.OwnedObject

    constructor (labels: LabelSet, hard: ProjectQuota.ResourceList, owned: ControllerUtil.OwnedObject)
      ensures this.labels == labels && this.hard == hard && this.owned == owned
    {
      this.labels := labels;
      this.hard := hard;
      this.owned := owned;
    }
  }

  /**
   * `T`: the labels become the project's default labels, the hard limits the
   * quota hard limits of those in place, and the project is appended as the
   * controller owner; a scheme error is returned after the labels and the
   * limits were written.
   */
  method T(out: ResourceQuota, proj: ProjectFunctions.Project, owner: ControllerUtil.Owner,
           gvk: Result<ControllerUtil.GroupVersionKind, string>) returns (err: Option<string>)
    modifies out, out.owned
    ensures out.labels == ProjectFunctions.DefaultLabels(proj)
    ensures out.hard == ProjectQuota.QuotaHard(old(out.hard))
    ensures err == (if gvk.Err? then Some(gvk.error) else None)
    ensures gvk.Ok? ==>
      out.owned.ownerReferences == old(out.owned.ownerReferences) + [ControllerUtil.ControllerRef(owner, gvk.value)]
    ensures gvk.Err? ==> out.owned.ownerReferences == old(out.owned.ownerReferences)
  {
    out.labels := ProjectFunctions.DefaultLabels(proj);
    out.hard := map[
      ProjectQuota.RequestsCPU := DefaultOrMaxValue(out.hard, ProjectQuota.RequestsCPU),
      ProjectQuota.RequestsMemory := DefaultOrMaxValue(out.hard, ProjectQuota.RequestsMemory),
      ProjectQuota.LimitsCPU := DefaultOrMaxValue(out.hard, ProjectQuota.LimitsCPU),
      ProjectQuota.LimitsMemory := DefaultOrMaxValue(out.hard, ProjectQuota.LimitsMemory),
      ProjectQuota.Pods := DefaultOrMaxValue(out.hard, ProjectQuota.Pods)];
    err := ControllerUtil.SetControllerReference(owner, out.owned, gvk);
  }

  /** `GetErrorEventReason`: the failure reason exactly when there is an error. */
  function GetErrorEventReason(err: Option<string>): (reason: string)
    ensures reason == EventReasonResourceQuotaFailed <==> err.Some?
    ensures reason == EventReasonResourceQuotaUpdated <==> err.None?
  {
    if err.Some? then EventReasonResourceQuotaFailed else EventReasonResourceQuotaUpdated
  }
}
