/**
 * The event filter that lets through only objects of one kind
 * (pkg/internal/predicate/kind.go). An object is seen through its labels.
 */
module KindPredicate {
  import opened Labels
  import opened KubeMeta

  /** `KindPredicate`: the kind to let through. */
  datatype Predicate = Predicate(kind: string)

  /** The four events a controller filters: create, delete and generic carry one object, update the old and the new. */
  datatype Event =
    | CreateEvent(meta: LabelSet)
    | DeleteEvent(meta: LabelSet)
    | UpdateEvent(metaOld: LabelSet, metaNew: LabelSet)
    | GenericEvent(meta: LabelSet)

  /** `NewKindPredicate`. */
  function NewKindPredicate(kind: string): (p: Predicate)
    ensures p.kind == kind
  {
    Predicate(kind)
  }

  /** `isOfKind`: the kind label equals the kind; a missing label reads as empty, so it matches the empty kind only. */
  predicate IsOfKind(p: Predicate, labels: LabelSet)
  {
    Get(labels, KindLabel) == p.kind
  }

  /** The kind test holds when the label carries the kind, or when it is missing and the kind is empty, and only then. */
  lemma IsOfKindMeaning(p: Predicate, labels: LabelSet)
    ensures IsOfKind(p, labels) <==>
      (KindLabel in labels && labels[KindLabel] == p.kind) || (KindLabel !in labels && p.kind == "")
  {
  }

  /** `Create`, `Delete`, `Update` and `Generic`: the kind test on the event's object, the new one for an update. */
  function Accepts(p: Predicate, e: Event): (b: bool)
    ensures e.UpdateEvent? ==> (b <==> IsOfKind(p, e.metaNew))
    ensures !e.UpdateEvent? ==> (b <==> IsOfKind(p, e.meta))
  {
    match e
    case CreateEvent(meta) => IsOfKind(p, meta)
    case DeleteEvent(meta) => IsOfKind(p, meta)
    case UpdateEvent(_, metaNew) => IsOfKind(p, metaNew)
    case GenericEvent(meta) => IsOfKind(p, meta)
  }

  /** An update is decided by the new object alone: the old object's labels do not matter. */
  lemma UpdateIgnoresOld(p: Predicate, old1: LabelSet, old2: LabelSet, metaNew: LabelSet)
    ensures Accepts(p, UpdateEvent(old1, metaNew)) == Accepts(p, UpdateEvent(old2, metaNew))
  {
  }

  /** The four events agree when they carry the same object. */
  lemma EventsAgree(p: Predicate, meta: LabelSet, metaOld: LabelSet)
    ensures Accepts(p, CreateEvent(meta)) == Accepts(p, DeleteEvent(meta)) ==
      Accepts(p, UpdateEvent(metaOld, meta)) == Accepts(p, GenericEvent(meta))
  {
  }
}
