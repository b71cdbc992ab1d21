/**
 * Kubernetes label sets (`labels.Set`, a `map[string]string`) and the
 * operations of `k8s.io/apimachinery/pkg/labels` that the core uses.
 * A nil map and an empty map are the same value here, as `labels.Equals`
 * treats them.
 */
module Labels {
  type LabelSet = map<string, string>

  /** `labels.Merge(a, b)`: every key of both, values from `b` where both have one. */
  function Merge(a: LabelSet, b: LabelSet): (m: LabelSet)
    ensures m.Keys == a.Keys + b.Keys
    ensures forall k :: k in b ==> m[k] == b[k]
    ensures forall k :: k in a && k !in b ==> m[k] == a[k]
  {
    a + b
  }

  /** Go's map index: a missing key reads as the empty string. */
  function Get(m: map<string, string>, k: string): string
  {
    if k in m then m[k] else ""
  }

  /** `m` holds every pair of `sub`. */
  predicate Contains(m: LabelSet, sub: LabelSet)
  {
    forall k :: k in sub ==> k in m && m[k] == sub[k]
  }

  /**
   * The labels every syncer writes: the existing labels, then the object's
   * own labels over them, then the controller's labels over both.
   */
  function Relabel(existing: LabelSet, own: LabelSet, controller: LabelSet): LabelSet
  {
    Merge(Merge(existing, own), controller)
  }

  /**
   * The relabelled object carries every controller label, every own label
   * the controller does not override, and keeps the existing labels no one
   * else sets.
   */
  lemma RelabelContains(existing: LabelSet, own: LabelSet, controller: LabelSet)
    ensures Contains(Relabel(existing, own, controller), controller)
    ensures forall k :: k in own && k !in controller ==> k in Relabel(existing, own, controller) && Relabel(existing, own, controller)[k] == own[k]
    ensures Relabel(existing, own, controller).Keys == existing.Keys + own.Keys + controller.Keys
  {
  }

  /** Relabelling is idempotent: a second sync leaves the labels as the first one left them. */
  lemma RelabelIdempotent(existing: LabelSet, own: LabelSet, controller: LabelSet)
    ensures Relabel(Relabel(existing, own, controller), own, controller) == Relabel(existing, own, controller)
  {
  }
}
