/** Snapshot builders used to set up a reconciler: the ranked candidate list,
    the node-info map and the execution set keyed by execution ID.  A Go nil
    slice or map is `None`; an empty but non-nil one is `Some` of an empty
    collection. */
module Builders {
  import opened Types

  /** Every listed node, in order, at rank 1; nil stays nil. */
  function NodeRanks(nodeIds: Option<seq<NodeId>>): (r: Option<seq<NodeRank>>)
    ensures r.None? <==> nodeIds.None?
    ensures r.Some? ==> |r.value| == |nodeIds.value|
    ensures r.Some? ==> forall i :: 0 <= i < |r.value| ==> r.value[i].nodeId == nodeIds.value[i] && r.value[i].rank == 1
  {
    match nodeIds
    case None => None
    case Some(ids) => Some(seq(|ids|, i requires 0 <= i < |ids| => NodeRank(ids[i], 1)))
  }

  method BuildNodeRanks(nodeIds: Option<seq<NodeId>>) returns (r: Option<seq<NodeRank>>)
    ensures r == NodeRanks(nodeIds)
  {
    if nodeIds.None? {
      return None;
    }
    var ids := nodeIds.value;
    var result: seq<NodeRank> := [];
    for i := 0 to |ids|
      invariant |result| == i
      invariant forall k :: 0 <= k < i ==> result[k] == NodeRank(ids[k], 1)
    {
      result := result + [NodeRank(ids[i], 1)];
    }
    var expected := NodeRanks(nodeIds).value;
    assert forall k :: 0 <= k < |result| ==> result[k] == expected[k];
    assert result == expected;
    r := Some(result);
  }

  /** The state reported for a node of the map. */
  function ReportedState(states: map<NodeId, ConnectionState>, id: NodeId): ConnectionState
    requires id in states
  {
    states[id]
  }

  /** One node record per reported state, keyed by its own ID; nil stays nil. */
  function NodeInfos(nodeStates: Option<map<NodeId, ConnectionState>>): (r: Option<map<NodeId, Node>>)
    ensures r.None? <==> nodeStates.None?
    ensures r.Some? ==> r.value.Keys == nodeStates.value.Keys
    ensures r.Some? ==> forall id :: id in r.value ==> r.value[id].id == id && r.value[id].connectionState == nodeStates.value[id]
  {
    match nodeStates
    case None => None
    case Some(states) => Some(map id | id in states :: Node(id, ReportedState(states, id)))
  }

  method BuildNodeInfosWithStates(nodeStates: Option<map<NodeId, ConnectionState>>) returns (r: Option<map<NodeId, Node>>)
    ensures r == NodeInfos(nodeStates)
  {
    if nodeStates.None? {
      return None;
    }
    var states := nodeStates.value;
    var result: map<NodeId, Node> := map[];
    var remaining := states.Keys;
    while remaining != {}
      invariant remaining <= states.Keys
      invariant result.Keys == states.Keys - remaining
      invariant forall id :: id in result ==> result[id] == Node(id, states[id])
      decreases remaining
    {
      var id :| id in remaining;
      result := result[id := Node(id, states[id])];
      remaining := remaining - {id};
    }
    var expected := NodeInfos(nodeStates).value;
    assert forall id :: id in result ==> result[id] == expected[id];
    assert result == expected;
    r := Some(result);
  }

  /** True when no execution after position i carries the same ID as execs[i]. */
  predicate LastWithId(execs: seq<Execution>, i: nat)
    requires i < |execs|
  {
    forall j :: i < j < |execs| ==> execs[j].id != execs[i].id
  }

  /** The execution set keyed by ID; a later execution with the same ID
      replaces an earlier one. */
  function ExecSet(execs: seq<Execution>): (m: map<ExecId, Execution>)
    ensures m.Keys == set e | e in execs :: e.id
    ensures forall id :: id in m ==> m[id].id == id && m[id] in execs
    decreases |execs|
  {
    if execs == [] then map[]
    else
      var init, e := execs[..|execs| - 1], execs[|execs| - 1];
      assert execs == init + [e];
      assert (set x | x in execs :: x.id) == (set x | x in init :: x.id) + {e.id};
      ExecSet(init)[e.id := e]
  }

  /** An execution that no later one shadows is the one stored under its ID. */
  lemma {:induction false} ExecSetKeepsLast(execs: seq<Execution>, i: nat)
    requires i < |execs| && LastWithId(execs, i)
    ensures execs[i].id in ExecSet(execs) && ExecSet(execs)[execs[i].id] == execs[i]
    decreases |execs|
  {
    var init := execs[..|execs| - 1];
    if i < |init| {
      assert LastWithId(init, i) by {
        forall j | i < j < |init| ensures init[j].id != init[i].id {
          assert init[j] == execs[j];
        }
      }
      ExecSetKeepsLast(init, i);
      assert execs[|execs| - 1].id != execs[i].id;
    }
  }

  method BuildExecSet(executions: seq<Execution>) returns (execSet: map<ExecId, Execution>)
    ensures execSet == ExecSet(executions)
  {
    execSet := map[];
    for i := 0 to |executions|
      invariant execSet == ExecSet(executions[..i])
    {
      assert executions[..i + 1][..i] == executions[..i];
      execSet := execSet[executions[i].id := executions[i]];
    }
    assert executions[..|executions|] == executions;
  }
}
