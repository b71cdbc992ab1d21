/**
 * The organizations slice of the client store (app/src/redux/organizations.ts):
 * the generic entity table plus the name of the current organization, the
 * SELECTED action that sets it, the `getCurrent` selector, and the metadata
 * header a selection is meant to install.
 */
module OrganizationsStore {
  import opened Wrappers
  import opened Text
  import opened Messages
  import opened ApiStore
  import Transport

  const SELECTED: string := "@ organizations / SELECTED"

  /** The slice: the entity table and `current`, where `None` stands for null or undefined. */
  datatype State = State(entries: Table, current: Option<string>)

  const InitialState: State := State(map[], None)

  /**
   * The reducer: SELECTED stores the payload's `name` (undefined when the
   * payload is not an instance); every other action goes to the generic
   * reducer, whose spread of the old state keeps `current`.
   */
  function Reduce(state: State, action: Action): State
  {
    if action.kind == SELECTED then
      State(state.entries, if action.payload.EntityPayload? then Some(action.payload.entity.name) else None)
    else
      State(ApiStore.Reduce(Organizations, state.entries, action), state.current)
  }

  /** SELECTED sets `current` to the selected name and leaves the table alone. */
  lemma SelectSetsCurrent(state: State, org: Entity)
    ensures Reduce(state, Action(SELECTED, EntityPayload(org))) == State(state.entries, Some(org.name))
  {
  }

  /** Every other action keeps `current` and updates the table as the generic reducer does. */
  lemma OtherActionsKeepCurrent(state: State, action: Action)
    requires action.kind != SELECTED
    ensures Reduce(state, action).current == state.current
    ensures Reduce(state, action).entries == ApiStore.Reduce(Organizations, state.entries, action)
  {
  }

  /** SELECTED is none of the 15 resource action types, so it never reaches the generic reducer's cases. */
  lemma SelectedIsNoResourceType(q: RequestKind, s: StatusKind)
    ensures SELECTED != ActionTypeOf(Organizations, q, s)
  {
    // Every descriptor is longer than `SELECTED`.
    assert |Descriptor(q, s)| >= |"GET_FAILED"| by {
      match q case List => case Get => case Create => case Update => case Destroy =>
    }
  }

  /** The reducer keeps every key equal to its value's name. */
  lemma ReducePreservesKeys(state: State, action: Action)
    requires KeyedByName(state.entries)
    ensures KeyedByName(Reduce(state, action).entries)
  {
    if action.kind != SELECTED {
      ApiStore.ReducePreservesKeys(Organizations, state.entries, action);
    }
  }

  /**
   * `getCurrent`: null while `current` is null or empty; otherwise the stored
   * organization of that name, or null. The source searches the values for
   * `name == current`; on the tables the reducer builds, whose keys are their
   * values' names, that is a lookup by key (GetCurrentFinds).
   */
  function GetCurrent(state: State): (e: Option<Entity>)
    ensures e.Some? ==> state.current.Some? && state.current.value != "" && state.current.value in state.entries
  {
    match state.current
    case None => None
    case Some(name) => if name == "" then None else GetByName(state.entries, name)
  }

  /** On a table keyed by name, `getCurrent` finds an organization exactly when one carries the current name. */
  lemma GetCurrentFinds(state: State)
    requires KeyedByName(state.entries)
    ensures GetCurrent(state).Some? <==>
      state.current.Some? && state.current.value != "" &&
      exists k :: k in state.entries && state.entries[k].name == state.current.value
    ensures GetCurrent(state).Some? ==> GetCurrent(state).value.name == state.current.value
  {
    if state.current.Some? && state.current.value != "" {
      var name := state.current.value;
      if exists k :: k in state.entries && state.entries[k].name == name {
        var k :| k in state.entries && state.entries[k].name == name;
        assert k == name;
      }
    }
  }

  /** The initial state has no current organization, so nothing is current. */
  lemma InitialHasNoCurrent()
    ensures InitialState.entries == map[] && GetCurrent(InitialState).None?
  {
  }

  // ---------------------------------------------------------------------------
  // Metadata on selection

  /** A call of `setMetadata`: the key and the value its two parameters receive. */
  datatype MetadataCall = MetadataCall(key: string, value: Option<string>)

  /**
   * `setGRPCOrganizationMetadata` as written: it passes one object
   * `{key, value}` to the two-parameter `setMetadata`, so the key parameter is
   * that object, which becomes the header name "[object Object]", and the
   * value parameter is undefined.
   */
  function SelectionMetadataAsWritten(org: Entity): (c: MetadataCall)
    ensures c.key != "organization" && c.value.None?
  {
    MetadataCall("[object Object]", None)
  }

  /** The intended call: header `organization` set to the selected name. */
  function SelectionMetadata(org: Entity): (c: MetadataCall)
    ensures c.key == "organization" && c.value == Some(org.name)
  {
    MetadataCall("organization", Some(org.name))
  }

  /** As written, selecting an organization leaves the `organization` header as it was. */
  lemma SelectionMetadataAsWrittenMissesHeader(headers: Transport.Headers, org: Entity)
    ensures var c := SelectionMetadataAsWritten(org);
      var h := Transport.SetMetadata(headers, c.key, c.value);
      ("organization" in h <==> "organization" in headers) &&
      ("organization" in h ==> h["organization"] == headers["organization"])
  {
  }

  /** The intended call sets the `organization` header to the selected name and no other header. */
  lemma SelectionMetadataSetsHeader(headers: Transport.Headers, org: Entity)
    ensures var c := SelectionMetadata(org);
      var h := Transport.SetMetadata(headers, c.key, c.value);
      "organization" in h && h["organization"] == Some(org.name) &&
      forall k :: k != "organization" ==> (k in h <==> k in headers) && (k in h ==> h[k] == headers[k])
  {
  }
}
