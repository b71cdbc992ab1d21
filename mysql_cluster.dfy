/**
 * The syncer of a site's MySQL cluster
 * (pkg/controller/site/internal/sync/mysql_cluster.go): the volume size and
 * the pod's memory and CPU come from the site's annotations or from the
 * defaults; the replica count is at least one; the credentials secret is
 * `<site>-mysql`. Parsing a quantity is not part of this model: the parser
 * is the parameter `parse`. The site's label helper (`getSiteLabels`) is not
 * part of this model either: its result is the parameter `siteLabels`.
 */
module MysqlCluster {
  import opened Wrappers
  import opened Labels
  import opened Quantity

  const StorageAnnotation: string := "mysql.provisioner.presslabs.com/storage"
  const MemoryAnnotation: string := "mysql.provisioner.presslabs.com/memory"
  const CPUAnnotation: string := "mysql.provisioner.presslabs.com/cpu"

  const DefaultMysqlVolumeStorage: string := "8Gi"
  const DefaultMysqlPodMemory: string := "512Mi"
  const DefaultMysqlPodCPU: string := "200m"

  const ResourceMemory: string := "memory"
  const ResourceCPU: string := "cpu"
  const ResourceStorage: string := "storage"

  /** The cluster: labels, pod resource requests, replicas, volume requests and the secret's name. */
  class Cluster {
    var labels: LabelSet
    var podRequests: map<string, Quantity>
    var replicas: int
    var storageRequests: map<string, Quantity>
    var secretName: string

    constructor (labels: LabelSet, podRequests: map<string, Quantity>, replicas: int,
                 storageRequests: map<string, Quantity>, secretName: string)
      ensures this.labels == labels && this.podRequests == podRequests && this.replicas == replicas
      ensures this.storageRequests == storageRequests && this.secretName == secretName
    {
      this.labels := labels;
      this.podRequests := podRequests;
      this.replicas := replicas;
      this.storageRequests := storageRequests;
      this.secretName := secretName;
    }
  }

  /**
   * One setting: the annotation's text when the annotation is present (even
   * when empty), the default text otherwise, parsed.
   */
  function Setting(annotations: map<string, string>, key: string, default: string, parse: Parser)
    : (r: Result<Quantity, string>)
    ensures key in annotations ==> r == parse(annotations[key])
    ensures key !in annotations ==> r == parse(default)
  {
    parse(if key in annotations then annotations[key] else default)
  }

  /** The three settings in the order the closure parses them; the first unparseable one is the error. */
  function Settings(annotations: map<string, string>, parse: Parser): (r: Result<(Quantity, Quantity, Quantity), string>)
    ensures r.Ok? <==>
      (Setting(annotations, StorageAnnotation, DefaultMysqlVolumeStorage, parse).Ok? &&
       Setting(annotations, MemoryAnnotation, DefaultMysqlPodMemory, parse).Ok? &&
       Setting(annotations, CPUAnnotation, DefaultMysqlPodCPU, parse).Ok?)
    ensures r.Ok? ==> r.value == (Setting(annotations, StorageAnnotation, DefaultMysqlVolumeStorage, parse).value,
      Setting(annotations, MemoryAnnotation, DefaultMysqlPodMemory, parse).value,
      Setting(annotations, CPUAnnotation, DefaultMysqlPodCPU, parse).value)
    ensures Setting(annotations, StorageAnnotation, DefaultMysqlVolumeStorage, parse).Err? ==>
      r == Err(Setting(annotations, StorageAnnotation, DefaultMysqlVolumeStorage, parse).error)
  {
    match Setting(annotations, StorageAnnotation, DefaultMysqlVolumeStorage, parse)
    case Err(e) => Err(e)
    case Ok(storage) =>
      match Setting(annotations, MemoryAnnotation, DefaultMysqlPodMemory, parse)
      case Err(e) => Err(e)
      case Ok(memory) =>
        match Setting(annotations, CPUAnnotation, DefaultMysqlPodCPU, parse)
        case Err(e) => Err(e)
        case Ok(cpu) => Ok((storage, memory, cpu))
  }

  /** The replica count the closure leaves: 1 in place of 0, any other count kept. */
  function Replicas(replicas: int): (r: int)
    ensures r != 0 && (replicas != 0 ==> r == replicas)
  {
    if replicas == 0 then 1 else replicas
  }

  /**
   * The syncer's closure: every setting is parsed before anything is
   * written, and a parse error leaves the cluster as it was. Otherwise the
   * labels become the site's, the pod requests exactly memory and CPU, the
   * replica count at least one, the volume's storage request the storage
   * setting (other volume requests kept), and the secret `<site>-mysql`.
   */
  method Sync(out: Cluster, siteName: string, annotations: map<string, string>, siteLabels: LabelSet, parse: Parser)
    returns (err: Option<string>)
    modifies out
    ensures Settings(annotations, parse).Err? ==>
      err == Some(Settings(annotations, parse).error) &&
      out.labels == old(out.labels) && out.podRequests == old(out.podRequests) && out.replicas == old(out.replicas) &&
      out.storageRequests == old(out.storageRequests) && out.secretName == old(out.secretName)
    ensures Settings(annotations, parse).Ok? ==>
      var (storage, memory, cpu) := Settings(annotations, parse).value;
      err.None? && out.labels == siteLabels &&
      out.podRequests == map[ResourceMemory := memory, ResourceCPU := cpu] &&
      out.replicas == Replicas(old(out.replicas)) &&
      out.storageRequests == old(out.storageRequests)[ResourceStorage := storage] &&
      out.secretName == siteName + "-mysql"
  {
    var volumeStorage := if StorageAnnotation in annotations then annotations[StorageAnnotation] else DefaultMysqlVolumeStorage;
    var resVolumeStorage := parse(volumeStorage);
    if resVolumeStorage.Err? {
      return Some(resVolumeStorage.error);
    }
    var memory := if MemoryAnnotation in annotations then annotations[MemoryAnnotation] else DefaultMysqlPodMemory;
    var resPodMemory := parse(memory);
    if resPodMemory.Err? {
      return Some(resPodMemory.error);
    }
    var cpu := if CPUAnnotation in annotations then annotations[CPUAnnotation] else DefaultMysqlPodCPU;
    var resPodCPU := parse(cpu);
    if resPodCPU.Err? {
      return Some(resPodCPU.error);
    }
    out.labels := siteLabels;
    out.podRequests := map[ResourceMemory := resPodMemory.value, ResourceCPU := resPodCPU.value];
    if out.replicas == 0 {
      out.replicas := 1;
    }
    out.storageRequests := out.storageRequests[ResourceStorage := resVolumeStorage.value];
    out.secretName := siteName + "-mysql";
    return None;
  }

  /** Without annotations the defaults 8Gi, 512Mi and 200m are used. */
  lemma DefaultsWithoutAnnotations(parse: Parser)
    requires parse(DefaultMysqlVolumeStorage) == Ok(Units(8 * Gi))
    requires parse(DefaultMysqlPodMemory) == Ok(Units(512 * Mi))
    requires parse(DefaultMysqlPodCPU) == Ok(Quantity(200))
    ensures Settings(map[], parse) == Ok((Units(8 * Gi), Units(512 * Mi), Quantity(200)))
  {
  }

  /** An annotation that does not parse is an error even when the other two are fine. */
  lemma UnparseableAnnotationFails(annotations: map<string, string>, parse: Parser)
    requires MemoryAnnotation in annotations && parse(annotations[MemoryAnnotation]).Err?
    ensures Settings(annotations, parse).Err?
  {
  }
}
