/**
 * The `grpc` slice of the client store (app/src/redux/grpc.ts): the list of
 * requests in flight. INVOKED appends the request; SUCCEEDED and FAILED remove
 * the first entry structurally equal to the echoed request (lodash `isEqual`,
 * which is `==` on these values).
 */
module GrpcStore {
  import opened Messages

  const INVOKED: string := "@ grpc / INVOKED"
  const SUCCEEDED: string := "@ grpc / SUCCEEDED"
  const FAILED: string := "@ grpc / FAILED"

  datatype State = State(ongoingRequests: seq<GrpcRequest>)

  const InitialState: State := State([])

  /** lodash `findIndex`: the first position holding `r`, or -1. */
  function FindIndex(s: seq<GrpcRequest>, r: GrpcRequest): (i: int)
    ensures -1 <= i < |s|
    ensures i == -1 <==> r !in s
    ensures i >= 0 ==> s[i] == r && r !in s[..i]
    decreases |s|
  {
    if |s| == 0 then -1
    else if s[0] == r then 0
    else
      var j := FindIndex(s[1..], r);
      if j < 0 then -1 else j + 1
  }

  /** The grpc reducer; an action whose payload does not have its type's shape changes nothing. */
  function Reduce(state: State, action: Action): State
  {
    if action.kind == INVOKED then
      if action.payload.RequestPayload? then
        State(state.ongoingRequests + [action.payload.request])
      else state
    else if action.kind == SUCCEEDED || action.kind == FAILED then
      if action.payload.ResponsePayload? then
        var i := FindIndex(state.ongoingRequests, action.payload.response.request);
        if i < 0 then state
        else State(state.ongoingRequests[..i] + state.ongoingRequests[i + 1..])
      else state
    else state
  }

  /** `isLoading`: some request is in flight. */
  function IsLoading(state: State): (loading: bool)
    ensures loading <==> |state.ongoingRequests| > 0
  {
    state.ongoingRequests != []
  }

  /** INVOKED appends at the end; earlier entries and their order are unchanged. */
  lemma InvokedAppends(state: State, r: GrpcRequest)
    ensures Reduce(state, Action(INVOKED, RequestPayload(r))).ongoingRequests == state.ongoingRequests + [r]
    ensures IsLoading(Reduce(state, Action(INVOKED, RequestPayload(r))))
  {
  }

  /**
   * A completion whose request is in flight removes exactly the first equal
   * entry: one fewer entry, the ones before it untouched, the ones after it
   * shifted down by one; a completion for a request not in flight changes nothing.
   */
  lemma CompletionRemovesFirstEqual(state: State, resp: GrpcResponse, failed: bool)
    ensures var s := state.ongoingRequests;
      var s' := Reduce(state, Action(if failed then FAILED else SUCCEEDED, ResponsePayload(resp))).ongoingRequests;
      (resp.request !in s ==> s' == s) &&
      (resp.request in s ==>
        exists i :: 0 <= i < |s| && s[i] == resp.request && resp.request !in s[..i] &&
          |s'| == |s| - 1 && s'[..i] == s[..i] && s'[i..] == s[i + 1..])
  {
    var s := state.ongoingRequests;
    if resp.request in s {
      var i := FindIndex(s, resp.request);
      var s' := s[..i] + s[i + 1..];
      assert s'[..i] == s[..i];
      assert s'[i..] == s[i + 1..];
    }
  }

  /** With two equal requests in flight, one completion leaves exactly one of them. */
  lemma {:induction false} DuplicateCompletionLeavesOne(before: seq<GrpcRequest>, r: GrpcRequest, after: seq<GrpcRequest>, resp: GrpcResponse)
    requires r !in before && r !in after && resp.request == r
    ensures var s' := Reduce(State(before + [r, r] + after), Action(SUCCEEDED, ResponsePayload(resp))).ongoingRequests;
      s' == before + [r] + after && multiset(s')[r] == 1
  {
    var s := before + [r, r] + after;
    var i := FindIndex(s, r);
    assert s[|before|] == r;
    assert s[..|before|] == before;
    assert i == |before|;
    assert s[..i] + s[i + 1..] == before + [r] + after by {
      assert s[i + 1..] == [r] + after;
    }
    assert multiset(before + [r] + after)[r] == multiset(before)[r] + 1 + multiset(after)[r];
  }

  /** INVOKED r followed by a completion for r restores the original list. */
  lemma {:induction false} InvokeThenCompleteRestores(state: State, resp: GrpcResponse, failed: bool)
    requires resp.request !in state.ongoingRequests
    ensures Reduce(Reduce(state, Action(INVOKED, RequestPayload(resp.request))),
                   Action(if failed then FAILED else SUCCEEDED, ResponsePayload(resp))) == state
  {
    var s := state.ongoingRequests + [resp.request];
    var i := FindIndex(s, resp.request);
    assert s[|state.ongoingRequests|] == resp.request;
    assert i == |state.ongoingRequests|;
    assert s[..i] == state.ongoingRequests;
  }

  /** Actions other than the three grpc types leave the state unchanged. */
  lemma OtherActionsIgnored(state: State, action: Action)
    requires action.kind != INVOKED && action.kind != SUCCEEDED && action.kind != FAILED
    ensures Reduce(state, action) == state
  {
  }
}
