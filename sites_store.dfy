/**
 * The sites slice of the client store (app/src/redux/sites.ts): exactly the
 * generic table for `sites`, and the selector that picks a project's sites by
 * name prefix.
 */
module SitesStore {
  import opened Wrappers
  import opened Text
  import opened Messages
  import opened ApiStore

  /** The reducer: the generic reducer for `sites`, with nothing added. */
  function Reduce(state: Table, action: Action): Table
  {
    ApiStore.Reduce(Sites, state, action)
  }

  /** Actions of the other resources leave the sites table as it is. */
  lemma OtherResourcesIgnored(state: Table, r: Resource, q: RequestKind, s: StatusKind, payload: Payload)
    requires r != Sites
    ensures Reduce(state, Action(ActionTypeOf(r, q, s), payload)) == state
  {
    forall q' ensures ActionTypeOf(r, q, s) != ActionTypeOf(Sites, q', Succeeded) {
      if ActionTypeOf(r, q, s) == ActionTypeOf(Sites, q', Succeeded) {
        ActionTypesDistinct(r, q, s, Sites, q', Succeeded);
      }
    }
    ReduceOther(Sites, state, Action(ActionTypeOf(r, q, s), payload));
  }

  /** `getForProject`: the entries whose `name` starts with the given string, under their keys. */
  function GetForProject(t: Table, project: string): (sub: Table)
    ensures forall k :: k in sub <==> k in t && StartsWith(t[k].name, project)
    ensures forall k :: k in sub ==> sub[k] == t[k]
  {
    map k | k in t && StartsWith(t[k].name, project) :: t[k]
  }

  /**
   * The match is a raw string prefix, not a path segment: the project
   * `project/a` also selects a site of the project `project/ab`.
   */
  lemma RawPrefixSelectsSiblingProject(t: Table, k: string, e: Entity)
    requires k in t && t[k] == e && e.name == "project/ab/site/x"
    ensures k in GetForProject(t, "project/a")
  {
    assert e.name[..|"project/a"|] == "project/a";
  }
}
