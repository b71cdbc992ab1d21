/**
 * The resource quota syncer of the project controller
 * (pkg/controller/project/internal/sync/resource_quota.go): every project
 * namespace gets a quota whose hard limits are the defaults, raised to the
 * values already in place where those are larger.
 */
module ProjectQuota {
  import opened Wrappers
  import opened Labels
  import opened KubeMeta
  import opened Quantity
  import InternalProject
  import InternalProjectNs

  /** A resource list: quantities by resource name. */
  type ResourceList = map<string, Quantity>

  const RequestsCPU: string := "requests.cpu"
  const RequestsMemory: string := "requests.memory"
  const LimitsCPU: string := "limits.cpu"
  const LimitsMemory: string := "limits.memory"
  const Pods: string := "pods"

  const QuotaKeys: set<string> := {RequestsCPU, RequestsMemory, LimitsCPU, LimitsMemory, Pods}

  /** `defaultQuotaValues`: 4 CPUs and 15Gi requested, 8 CPUs and 32Gi as limits, 20 pods. */
  const Defaults: ResourceList := map[
    RequestsCPU := Units(4), RequestsMemory := Units(15 * Gi),
    LimitsCPU := Units(8), LimitsMemory := Units(32 * Gi),
    Pods := Units(20)]

  /** The default of a resource: its entry in the defaults, the zero quantity for any other resource. */
  function DefaultFor(resource: string): Quantity
  {
    if resource in Defaults then Defaults[resource] else Quantity(0)
  }

  /**
   * `defaultOrMaxValue`: the default when the list lacks the resource;
   * otherwise the default when its value is strictly larger, else the
   * quantity in place (a tie keeps the quantity in place).
   */
  function DefaultOrMaxValue(rl: ResourceList, resource: string): (q: Quantity)
    ensures resource !in rl ==> q == DefaultFor(resource)
    ensures resource in rl ==> q == DefaultFor(resource) || q == rl[resource]
    ensures resource in rl && Value(DefaultFor(resource)) <= Value(rl[resource]) ==> q == rl[resource]
    ensures Value(q) >= Value(DefaultFor(resource))
    ensures resource in rl ==> Value(q) >= Value(rl[resource])
  {
    var def := DefaultFor(resource);
    if resource !in rl then def
    else if Value(def) > Value(rl[resource]) then def
    else rl[resource]
  }

  /** The hard limits the syncer writes: exactly the five quota resources, each the default or the larger value in place. */
  function QuotaHard(hard: ResourceList): (r: ResourceList)
    ensures r.Keys == QuotaKeys
    ensures forall k :: k in QuotaKeys ==> r[k] == DefaultOrMaxValue(hard, k)
  {
    map[RequestsCPU := DefaultOrMaxValue(hard, RequestsCPU),
        RequestsMemory := DefaultOrMaxValue(hard, RequestsMemory),
        LimitsCPU := DefaultOrMaxValue(hard, LimitsCPU),
        LimitsMemory := DefaultOrMaxValue(hard, LimitsMemory),
        Pods := DefaultOrMaxValue(hard, Pods)]
  }

  /** Running the syncer on its own output leaves the hard limits as they are. */
  lemma QuotaHardIdempotent(hard: ResourceList)
    ensures QuotaHard(QuotaHard(hard)) == QuotaHard(hard)
  {
    var once := QuotaHard(hard);
    forall k | k in QuotaKeys
      ensures QuotaHard(once)[k] == once[k]
    {
      assert Value(once[k]) >= Value(DefaultFor(k));
    }
  }

  /** Keys other than the five quota resources are dropped; a fresh quota gets the defaults. */
  lemma QuotaHardOfEmpty()
    ensures QuotaHard(map[]) == Defaults
  {
  }

  /** The quota object: its name and namespace, labels and hard limits. */
  class ResourceQuota {
    var name: string
    var namespace: string
    var labels: LabelSet
    var hard: ResourceList

    constructor (name: string, namespace: string, labels: LabelSet, hard: ResourceList)
      ensures this.name == name && this.namespace == namespace && this.labels == labels && this.hard == hard
    {
      this.name := name;
      this.namespace := namespace;
      this.labels := labels;
      this.hard := hard;
    }
  }

  /** The key of the quota of a project: `presslabs-dashboard` in the project's namespace `proj-<project>`. */
  function QuotaKey(projectLabels: LabelSet): (k: ObjectKey)
    ensures k == ObjectKey("proj-" + Get(projectLabels, ProjectLabel), "presslabs-dashboard")
  {
    ObjectKey(InternalProject.ProjectComponentName(projectLabels, InternalProjectNs.Namespace),
              InternalProject.ProjectComponentName(projectLabels, InternalProjectNs.ResourceQuota))
  }

  /**
   * The syncer's closure: the labels become those in place merged with the
   * quota component's labels (`objLabels`) and then with the controller's
   * labels (later ones winning), and the spec is replaced by the quota hard
   * limits. It never fails.
   */
  method Sync(out: ResourceQuota, objLabels: LabelSet, controllerLabels: LabelSet) returns (err: Option<string>)
    modifies out
    ensures err.None?
    ensures out.labels == Relabel(old(out.labels), objLabels, controllerLabels)
    ensures out.hard == QuotaHard(old(out.hard))
    ensures out.name == old(out.name) && out.namespace == old(out.namespace)
  {
    out.labels := Relabel(out.labels, objLabels, controllerLabels);
    out.hard := QuotaHard(out.hard);
    return None;
  }
}
