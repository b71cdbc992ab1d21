/**
 * The organization controller's event filter
 * (pkg/controller/organization/predicate.go): only namespaces of kind
 * `organization` pass. It is the kind filter for `organization`.
 */
module OrganizationPredicate {
  import opened Labels
  import opened KubeMeta
  import KindPredicate

  /** `IsObjectOrganization`: the kind label is `organization`, exactly as the kind filter for `organization` decides. */
  predicate IsObjectOrganization(labels: LabelSet)
    ensures IsObjectOrganization(labels) <==> KindLabel in labels && labels[KindLabel] == "organization"
  {
    Get(labels, KindLabel) == "organization"
  }

  /** The four event methods: the test on the event's object, the new one for an update. */
  function Accepts(e: KindPredicate.Event): (b: bool)
    ensures b == KindPredicate.Accepts(KindPredicate.NewKindPredicate("organization"), e)
  {
    match e
    case CreateEvent(meta) => IsObjectOrganization(meta)
    case DeleteEvent(meta) => IsObjectOrganization(meta)
    case UpdateEvent(_, metaNew) => IsObjectOrganization(metaNew)
    case GenericEvent(meta) => IsObjectOrganization(meta)
  }
}
