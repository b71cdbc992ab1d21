/**
 * The projects slice of the client store (app/src/redux/projects.ts): the
 * generic table for `projects`, emptied when an organization is deleted, and
 * the selectors that pick the projects of one organization.
 */
module ProjectsStore {
  import opened Wrappers
  import opened Messages
  import opened ApiStore
  import OrganizationsStore

  /** The type that empties the slice: the organizations' DESTROY_SUCCEEDED. */
  function OrganizationDeleted(): string
  {
    ActionTypeOf(Organizations, Destroy, Succeeded)
  }

  /** The reducer: an organization deletion resets to the initial (empty) table; all else is the generic reducer. */
  function Reduce(state: Table, action: Action): Table
  {
    if action.kind == OrganizationDeleted() then map[]
    else ApiStore.Reduce(Projects, state, action)
  }

  /** Deleting an organization empties the slice, whatever it held. */
  lemma OrganizationDeleteResets(state: Table, payload: Payload)
    ensures Reduce(state, Action(OrganizationDeleted(), payload)) == map[]
  {
  }

  /**
   * The projects' own action types differ from the organizations' deletion, so
   * each reaches the generic reducer; in particular deleting a project removes
   * that project only.
   */
  lemma ProjectActionsUseGenericReducer(state: Table, q: RequestKind, s: StatusKind, payload: Payload)
    ensures Reduce(state, Action(ActionTypeOf(Projects, q, s), payload)) ==
      ApiStore.Reduce(Projects, state, Action(ActionTypeOf(Projects, q, s), payload))
  {
    if ActionTypeOf(Projects, q, s) == OrganizationDeleted() {
      ActionTypesDistinct(Projects, q, s, Organizations, Destroy, Succeeded);
    }
  }

  /** The `{ organization }` matcher of `pickBy`: the instance's `organization` field equals the name. */
  predicate BelongsTo(e: Entity, organization: string)
  {
    "organization" in e.fields && e.fields["organization"] == Text(organization)
  }

  /** `getForOrganization`: the entries whose `organization` field is the given name, under their keys. */
  function GetForOrganization(t: Table, organization: string): (sub: Table)
    ensures forall k :: k in sub <==> k in t && BelongsTo(t[k], organization)
    ensures forall k :: k in sub ==> sub[k] == t[k]
  {
    map k | k in t && BelongsTo(t[k], organization) :: t[k]
  }

  /** `getForCurrentOrganization`: `{}` when no organization is current, else the current one's projects. */
  function GetForCurrentOrganization(organizations: OrganizationsStore.State, projects: Table): (sub: Table)
    ensures OrganizationsStore.GetCurrent(organizations).None? ==> sub == map[]
    ensures OrganizationsStore.GetCurrent(organizations).Some? ==>
      sub == GetForOrganization(projects, OrganizationsStore.GetCurrent(organizations).value.name)
  {
    match OrganizationsStore.GetCurrent(organizations)
    case None => map[]
    case Some(org) => GetForOrganization(projects, org.name)
  }

  /** The projects of different organizations never overlap, and together they are a part of the table. */
  lemma OrganizationsPartition(t: Table, o1: string, o2: string)
    requires o1 != o2
    ensures GetForOrganization(t, o1).Keys !! GetForOrganization(t, o2).Keys
    ensures GetForOrganization(t, o1).Keys + GetForOrganization(t, o2).Keys <= t.Keys
  {
  }
}
