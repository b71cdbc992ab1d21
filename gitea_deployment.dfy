/**
 * The project controller's syncer of the Gitea Deployment
 * (pkg/controller/project/internal/sync/gitea_deployment.go): its labels,
 * the selector that cannot change once it exists, and its pod template.
 * The Gitea components of the project namespace are not part of this
 * model: the component labels are the parameter `objLabels`. The generated
 * pod spec (volumes, init container, Gitea container) is not part of this
 * model either: it is the parameter `spec`, handed to `merge`.
 */
module GiteaDeployment {
  import opened Wrappers
  import opened Labels
  import opened KubePod
  import KubeService

  const VersionLabel: string := "app.kubernetes.io/version"
  const GiteaVersion: string := "1.5.2"

  /** The deployment: whether it exists, labels, selector, pod template metadata and spec. */
  class Deployment {
    var created: bool
    var labels: LabelSet
    var selector: Option<LabelSelector>
    var templateLabels: LabelSet
    var templateAnnotations: map<string, string>
    var podSpec: PodSpec

    constructor (created: bool, labels: LabelSet, selector: Option<LabelSelector>,
                 templateLabels: LabelSet, templateAnnotations: map<string, string>, podSpec: PodSpec)
      ensures this.created == created && this.labels == labels && this.selector == selector
      ensures this.templateLabels == templateLabels && this.templateAnnotations == templateAnnotations
      ensures this.podSpec == podSpec
    {
      this.created := created;
      this.labels := labels;
      this.selector := selector;
      this.templateLabels := templateLabels;
      this.templateAnnotations := templateAnnotations;
      this.podSpec := podSpec;
    }
  }

  /** The labels the syncer writes: the merged labels, with the Gitea version over any earlier value. */
  function DeploymentLabels(existing: LabelSet, objLabels: LabelSet, controllerLabels: LabelSet): (l: LabelSet)
    ensures l.Keys == existing.Keys + objLabels.Keys + controllerLabels.Keys + {VersionLabel}
    ensures l[VersionLabel] == GiteaVersion
    ensures forall k :: k in controllerLabels && k != VersionLabel ==> l[k] == controllerLabels[k]
    ensures forall k :: k in objLabels && k !in controllerLabels && k != VersionLabel ==> l[k] == objLabels[k]
  {
    Relabel(existing, objLabels, controllerLabels)[VersionLabel := GiteaVersion]
  }

  /** Relabelling is idempotent: a second sync leaves the labels as the first one left them. */
  lemma DeploymentLabelsIdempotent(existing: LabelSet, objLabels: LabelSet, controllerLabels: LabelSet)
    ensures DeploymentLabels(DeploymentLabels(existing, objLabels, controllerLabels), objLabels, controllerLabels) ==
      DeploymentLabels(existing, objLabels, controllerLabels)
  {
  }

  /** An existing deployment whose selector's labels are not the component labels cannot be synced. */
  predicate Blocked(created: bool, selector: Option<LabelSelector>, objLabels: LabelSet)
  {
    created && selector.Some? && selector.value.matchLabels != objLabels
  }

  /**
   * The syncer's closure. The labels are written first. A deployment not
   * yet created gets a selector of exactly the component labels; one that
   * exists keeps its selector, and fails (with the service syncers'
   * message) when its labels differ. Past that, the template metadata is
   * replaced by just the component labels and the spec merged in.
   * The closure reads the selector of an existing deployment without a
   * check, so a deployment that exists must have one.
   */
  method Sync(out: Deployment, objLabels: LabelSet, controllerLabels: LabelSet, spec: PodSpec, merge: Merger)
    returns (err: Option<string>)
    requires out.created ==> out.selector.Some?
    modifies out
    ensures out.created == old(out.created)
    ensures out.labels == DeploymentLabels(old(out.labels), objLabels, controllerLabels)
    ensures !old(out.created) ==> out.selector == Some(LabelSelector(objLabels, []))
    ensures old(out.created) ==> out.selector == old(out.selector)
    ensures Blocked(old(out.created), old(out.selector), objLabels) ==>
      err == Some(KubeService.SelectorImmutable) && out.templateLabels == old(out.templateLabels) && out.templateAnnotations == old(out.templateAnnotations) &&
      out.podSpec == old(out.podSpec)
    ensures !Blocked(old(out.created), old(out.selector), objLabels) ==>
      out.templateLabels == objLabels && out.templateAnnotations == map[] &&
      (err, out.podSpec) == MergeOutcome(old(out.podSpec), Ok(spec), merge)
  {
    out.labels := DeploymentLabels(out.labels, objLabels, controllerLabels);
    if !out.created {
      out.selector := Some(LabelSelector(objLabels, []));
    } else if out.selector.value.matchLabels != objLabels {
      return Some(KubeService.SelectorImmutable);
    }
    out.templateLabels, out.templateAnnotations := objLabels, map[];
    var merged := merge(out.podSpec, spec);
    if merged.Err? {
      return Some(merged.error);
    }
    out.podSpec := merged.value;
    return None;
  }
}
