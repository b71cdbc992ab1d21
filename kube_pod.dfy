/**
 * The parts of Kubernetes workload objects the syncers write: label
 * selectors, environment variables, containers and pod specs. Merging a
 * generated pod spec into an existing one (`mergo.Merge` with the pod-spec
 * transformers) is not part of this model: it is a `Merger` parameter.
 */
module KubePod {
  import opened Wrappers
  import opened Labels
  import opened Quantity

  /** `metav1.LabelSelector`: the label map and the set-based requirements (kept as text). */
  datatype LabelSelector = LabelSelector(matchLabels: LabelSet, matchExpressions: seq<string>)

  /** `metav1.SetAsLabelSelector`: a selector of exactly these labels. */
  function SetAsLabelSelector(l: LabelSet): (s: LabelSelector)
    ensures s.matchLabels == l && s.matchExpressions == []
  {
    LabelSelector(l, [])
  }

  /** Where an environment variable's value comes from: a literal, or a key of a secret. */
  datatype EnvSource = Literal(value: string) | SecretKey(secretName: string, key: string)
  datatype EnvVar = EnvVar(name: string, source: EnvSource)

  datatype ContainerPort = ContainerPort(name: string, protocol: string, containerPort: int)

  /** A container as far as the generated specs fill it in; probes and volume mounts are not part of this model. */
  datatype Container = Container(
    name: string, image: string, imagePullPolicy: string,
    requests: map<string, Quantity>, limits: map<string, Quantity>,
    command: seq<string>, args: seq<string>, env: seq<EnvVar>, ports: seq<ContainerPort>)

  datatype PodSpec = PodSpec(containers: seq<Container>)

  type Merger = (PodSpec, PodSpec) -> Result<PodSpec, string>

  /** What merging a generated spec leaves: the error, if any, and the pod spec, kept as it was on an error. */
  function MergeOutcome(current: PodSpec, spec: Result<PodSpec, string>, merge: Merger): (r: (Option<string>, PodSpec))
    ensures spec.Err? ==> r == (Some(spec.error), current)
    ensures spec.Ok? && merge(current, spec.value).Err? ==> r == (Some(merge(current, spec.value).error), current)
    ensures spec.Ok? && merge(current, spec.value).Ok? ==> r == (None, merge(current, spec.value).value)
  {
    match spec
    case Err(e) => (Some(e), current)
    case Ok(s) =>
      match merge(current, s)
      case Err(e) => (Some(e), current)
      case Ok(m) => (None, m)
  }
}
