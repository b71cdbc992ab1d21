/**
 * The syncer of a site's memcached StatefulSet
 * (pkg/controller/site/internal/sync/memcached_statefulset.go): one replica,
 * a selector and a service name that cannot change once the object exists,
 * and a pod spec with a memcached container sized from the site's
 * annotation and a metrics exporter beside it. Parsing the memory quantity
 * is the parameter `parse`; merging the generated pod spec into the
 * existing one is the parameter `merge`.
 */
module MemcachedStatefulSet {
  import opened Wrappers
  import opened Labels
  import opened Quantity
  import opened Text
  import opened KubePod
  import InternalSite

  const MemoryAnnotation: string := "memcached.provisioner.presslabs.com/memory"
  const DefaultMemcachedMemory: string := "512Mi"
  const MemcachedImage: string := "docker.io/library/memcached:1.5.9-alpine"
  const MemcachedImagePullPolicy: string := "IfNotPresent"
  const MemcachedExporterImage: string := "quay.io/prometheus/memcached-exporter:v0.4.1"
  const MemcachedPort: int := 11211
  const MemcachedExporterPort: int := 9150
  const MemcachedReplicas: int := 1
  /** `100m`, a tenth of a CPU. */
  const MemcachedCPU: Quantity := Quantity(100)

  const SelectorImmutable: string := "statefullset selector is immutable"
  const ServiceImmutable: string := "statefullset service is immutable"

  /** The stateful set: whether it exists, labels, replicas, selector, service name and pod template. */
  class StatefulSet {
    var created: bool
    var labels: LabelSet
    var replicas: Option<int>
    var selector: Option<LabelSelector>
    var serviceName: string
    var templateLabels: LabelSet
    var podSpec: PodSpec

    constructor (created: bool, labels: LabelSet, replicas: Option<int>, selector: Option<LabelSelector>,
                 serviceName: string, templateLabels: LabelSet, podSpec: PodSpec)
      ensures this.created == created && this.labels == labels && this.replicas == replicas
      ensures this.selector == selector && this.serviceName == serviceName
      ensures this.templateLabels == templateLabels && this.podSpec == podSpec
    {
      this.created := created;
      this.labels := labels;
      this.replicas := replicas;
      this.selector := selector;
      this.serviceName := serviceName;
      this.templateLabels := templateLabels;
      this.podSpec := podSpec;
    }
  }

  /** The memory text: the annotation when present (even empty), else 512Mi. */
  function MemoryText(annotations: map<string, string>): (m: string)
    ensures MemoryAnnotation in annotations ==> m == annotations[MemoryAnnotation]
    ensures MemoryAnnotation !in annotations ==> m == DefaultMemcachedMemory
  {
    if MemoryAnnotation in annotations then annotations[MemoryAnnotation] else DefaultMemcachedMemory
  }

  /** The `-m` argument: the byte count divided by 1024 twice, each time truncating toward zero. */
  function MemoryArg(bytes: int): int
  {
    GoDiv(GoDiv(bytes, 1024), 1024)
  }

  /** For a non-negative byte count the argument is the whole number of MiB it holds. */
  lemma {:induction false} MemoryArgIsMiB(bytes: int)
    requires bytes >= 0
    ensures MemoryArg(bytes) * Mi <= bytes < (MemoryArg(bytes) + 1) * Mi
  {
    var k := bytes / 1024;
    var m := k / 1024;
    assert m * 1024 <= k < (m + 1) * 1024;
    assert k * 1024 <= bytes < (k + 1) * 1024;
    assert m * Mi == (m * 1024) * 1024;
    assert (m + 1) * Mi == ((m + 1) * 1024) * 1024;
  }

  /** A whole number of MiB is passed on exactly. */
  lemma {:induction false} MemoryArgOfMiB(n: nat)
    ensures MemoryArg(n * Mi) == n
  {
    MemoryArgIsMiB(n * Mi);
    var a := MemoryArg(n * Mi);
    assert a * Mi <= n * Mi < (a + 1) * Mi;
  }

  /** The memcached container for a memory quantity and its `-m` argument. */
  function MemcachedContainer(memory: Quantity, arg: int): Container
  {
    Container("memcached", MemcachedImage, MemcachedImagePullPolicy,
      map["memory" := memory, "cpu" := MemcachedCPU], map["memory" := memory, "cpu" := MemcachedCPU],
      ["memcached"], ["-m", FormatInt(arg)], [EnvVar("MY_POD_NAMESPACE", Literal("default"))],
      [ContainerPort("memcached", "TCP", MemcachedPort)])
  }

  /** The exporter container beside memcached. */
  const ExporterContainer: Container :=
    Container("memcached-exporter", MemcachedExporterImage, MemcachedImagePullPolicy, map[], map[],
      [], [], [], [ContainerPort("prometheus", "TCP", MemcachedExporterPort)])

  /**
   * `getMemcachedPodSpec`: the memory text must parse and its quantity be a
   * whole number within 64 bits; the spec then holds memcached, whose
   * requests equal its limits, and the exporter.
   */
  function MemcachedPodSpec(annotations: map<string, string>, parse: Parser): (r: Result<PodSpec, string>)
    ensures parse(MemoryText(annotations)).Err? ==> r == Err(parse(MemoryText(annotations)).error)
    ensures parse(MemoryText(annotations)).Ok? && AsInt64(parse(MemoryText(annotations)).value).None? ==>
      r == Err("Cannot convert " + MemoryText(annotations) + " into int64")
    ensures r.Ok? <==> parse(MemoryText(annotations)).Ok? && AsInt64(parse(MemoryText(annotations)).value).Some?
    ensures r.Ok? ==>
      var memory := parse(MemoryText(annotations)).value;
      |r.value.containers| == 2 &&
      r.value.containers[0].name == "memcached" && r.value.containers[1].name == "memcached-exporter" &&
      r.value.containers[0].requests == r.value.containers[0].limits &&
      r.value.containers[0].requests == map["memory" := memory, "cpu" := MemcachedCPU] &&
      r.value.containers[0].args == ["-m", FormatInt(MemoryArg(AsInt64(memory).value))]
  {
    var memory := MemoryText(annotations);
    match parse(memory)
    case Err(e) => Err(e)
    case Ok(q) =>
      match AsInt64(q)
      case None => Err("Cannot convert " + memory + " into int64")
      case Some(n) => Ok(PodSpec([MemcachedContainer(q, MemoryArg(n)), ExporterContainer]))
  }

  /**
   * The `-m` argument read back as a number is the memory rounded down to
   * whole MiB: with a quantity of `n` MiB it is `n`.
   */
  lemma MemoryArgumentReadsBack(annotations: map<string, string>, parse: Parser, n: nat)
    requires parse(MemoryText(annotations)) == Ok(Units(n * Mi))
    requires n * Mi <= MaxInt64
    ensures MemcachedPodSpec(annotations, parse).Ok?
    ensures ParseDecimal(MemcachedPodSpec(annotations, parse).value.containers[0].args[1]) == n
  {
    assert AsInt64(Units(n * Mi)) == Some(n * Mi);
    MemoryArgOfMiB(n);
    FormatIntRoundTrip(n);
  }

  /** The labels of the stateful set's pods and of its selector: the memcached service component labels. */
  function PodLabels(siteName: string, siteLabels: LabelSet): LabelSet
  {
    InternalSite.ComponentLabels(siteName, siteLabels, InternalSite.MemcachedService)
  }

  /** The pods the stateful set makes are the ones the memcached service selects. */
  lemma ServiceSelectsPods(siteName: string, siteLabels: LabelSet)
    ensures Contains(PodLabels(siteName, siteLabels),
      InternalSite.ComponentLabels(siteName, siteLabels, InternalSite.MemcachedStatefulSet))
  {
  }

  /** The service the stateful set is governed by: the memcached service's component name. */
  function ServiceName(siteName: string): (n: string)
    ensures n == siteName + "-memcached"
  {
    InternalSite.ComponentNames(siteName);
    InternalSite.SiteComponentName(siteName, InternalSite.MemcachedService)
  }

  /** The object would fail on `field` differing: it exists and the value it holds is not the wanted one. */
  predicate Blocked<T(==)>(created: bool, current: T, wanted: T)
  {
    created && current != wanted
  }

  /**
   * The syncer's closure. Labels and replicas are written first; then a
   * differing selector, then a differing service name, is set on an object
   * not yet created and is an immutability error on one that exists. Past
   * those, the template labels become the pod labels and the generated pod
   * spec is merged into the existing one; an error from either step is
   * returned and leaves the pod spec as it was.
   */
  method Sync(out: StatefulSet, siteName: string, siteLabels: LabelSet, controllerLabels: LabelSet,
              annotations: map<string, string>, parse: Parser, merge: Merger)
    returns (err: Option<string>)
    modifies out
    ensures out.created == old(out.created)
    ensures out.labels == Relabel(old(out.labels), PodLabels(siteName, siteLabels), controllerLabels)
    ensures out.replicas == Some(MemcachedReplicas)
    ensures Blocked(old(out.created), old(out.selector), Some(SetAsLabelSelector(PodLabels(siteName, siteLabels)))) ==>
      err == Some(SelectorImmutable) && out.selector == old(out.selector) && out.serviceName == old(out.serviceName) &&
      out.templateLabels == old(out.templateLabels) && out.podSpec == old(out.podSpec)
    ensures !Blocked(old(out.created), old(out.selector), Some(SetAsLabelSelector(PodLabels(siteName, siteLabels)))) ==>
      out.selector == Some(SetAsLabelSelector(PodLabels(siteName, siteLabels)))
    ensures
      !Blocked(old(out.created), old(out.selector), Some(SetAsLabelSelector(PodLabels(siteName, siteLabels)))) &&
      Blocked(old(out.created), old(out.serviceName), siteName + "-memcached")
      ==>
      err == Some(ServiceImmutable) && out.serviceName == old(out.serviceName) &&
      out.templateLabels == old(out.templateLabels) && out.podSpec == old(out.podSpec)
    ensures
      !Blocked(old(out.created), old(out.selector), Some(SetAsLabelSelector(PodLabels(siteName, siteLabels)))) &&
      !Blocked(old(out.created), old(out.serviceName), siteName + "-memcached")
      ==>
      out.serviceName == siteName + "-memcached" && out.templateLabels == PodLabels(siteName, siteLabels) &&
      MergeOutcome(old(out.podSpec), MemcachedPodSpec(annotations, parse), merge) == (err, out.podSpec)
  {
    var objLabels := PodLabels(siteName, siteLabels);
    out.labels := Relabel(out.labels, objLabels, controllerLabels);
    out.replicas := Some(MemcachedReplicas);
    err := SyncIdentity(out, SetAsLabelSelector(objLabels), ServiceName(siteName));
    if err.None? {
      err := SyncTemplate(out, objLabels, annotations, parse, merge);
    }
  }

  /**
   * The selector, then the service name: each is set when it differs on an
   * object not yet created, and is an immutability error when it differs on
   * one that exists.
   */
  method SyncIdentity(out: StatefulSet, selector: LabelSelector, serviceName: string) returns (err: Option<string>)
    modifies out
    ensures Blocked(old(out.created), old(out.selector), Some(selector)) ==>
      err == Some(SelectorImmutable) && out.selector == old(out.selector) && out.serviceName == old(out.serviceName)
    ensures !Blocked(old(out.created), old(out.selector), Some(selector)) ==> out.selector == Some(selector)
    ensures !Blocked(old(out.created), old(out.selector), Some(selector)) && Blocked(old(out.created), old(out.serviceName), serviceName) ==>
      err == Some(ServiceImmutable) && out.serviceName == old(out.serviceName)
    ensures !Blocked(old(out.created), old(out.selector), Some(selector)) && !Blocked(old(out.created), old(out.serviceName), serviceName) ==>
      err.None? && out.serviceName == serviceName
    ensures out.created == old(out.created) && out.labels == old(out.labels) && out.replicas == old(out.replicas)
    ensures out.templateLabels == old(out.templateLabels) && out.podSpec == old(out.podSpec)
  {
    if Some(selector) != out.selector {
      if !out.created {
        out.selector := Some(selector);
      } else {
        return Some(SelectorImmutable);
      }
    }
    if out.serviceName != serviceName {
      if !out.created {
        out.serviceName := serviceName;
      } else {
        return Some(ServiceImmutable);
      }
    }
    return None;
  }

  /** The last part of the closure: the template labels, then the generated pod spec merged in. */
  method SyncTemplate(out: StatefulSet, objLabels: LabelSet, annotations: map<string, string>, parse: Parser, merge: Merger)
    returns (err: Option<string>)
    modifies out
    ensures out.templateLabels == objLabels
    ensures (err, out.podSpec) == MergeOutcome(old(out.podSpec), MemcachedPodSpec(annotations, parse), merge)
    ensures out.created == old(out.created) && out.labels == old(out.labels) && out.replicas == old(out.replicas)
    ensures out.selector == old(out.selector) && out.serviceName == old(out.serviceName)
  {
    out.templateLabels := objLabels;
    var spec := MemcachedPodSpec(annotations, parse);
    if spec.Err? {
      return Some(spec.error);
    }
    var merged := merge(out.podSpec, spec.value);
    if merged.Err? {
      return Some(merged.error);
    }
    out.podSpec := merged.value;
    return None;
  }
}
