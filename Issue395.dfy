/** The stuck-pending scenarios of issue #395, each stated over the snapshot
    the suite builds for it and over any plan reconciled from that snapshot.
    Every snapshot uses the no-op rate limiter (which always allows) and an
    arbitrary generator of execution IDs. */
module Issue395 {
  import opened Types
  import opened Builders
  import opened Decisions
  import opened Planning

  /** An execution whose dispatch was lost: placed for the job's current
      version, Pending with desired state Running, created ten minutes ago. */
  function PendingExecWithDesiredRunning(job: Job, nodeId: NodeId, id: ExecId, now: int): (e: Execution)
    ensures AwaitingDispatch(job, e) && e.id == id && e.nodeId == nodeId
    ensures now - e.createdAt == 10
  {
    Execution(id, job.id, job.version, nodeId, Pending, DesiredRunning, now - 10, now - 10)
  }

  /** An execution of the job's current version that has started. */
  function RunningExec(job: Job, nodeId: NodeId, id: ExecId, now: int): (e: Execution)
    ensures Live(job, e) && !AwaitingDispatch(job, e) && e.id == id && e.nodeId == nodeId
  {
    Execution(id, job.id, job.version, nodeId, Running, DesiredRunning, now, now)
  }

  /** A running execution of the current version is left alone and keeps
      its node from a second execution, whatever the node's state. */
  lemma RunningExecHoldsItsNode(p: ReconcilerParams, nodeId: NodeId, id: ExecId, now: int)
    requires id in p.allExecutions && p.allExecutions[id] == RunningExec(p.job, nodeId, id, now)
    ensures Decide(p, p.allExecutions[id]) == NoAction
    ensures nodeId in AvoidSet(p)
  {
    assert Occupies(p, p.allExecutions[id]);
  }

  /** The snapshot createReconcilerWithNodeStates builds: the executions
      keyed by ID, the builders' candidate list and node-info map, an
      evaluation "test-eval" triggered by a node joining, and the no-op rate
      limiter, which always allows. */
  function TestParams(
    job: Job, executions: seq<Execution>, matchingNodes: Option<seq<NodeId>>,
    nodeStates: Option<map<NodeId, ConnectionState>>, now: int, timeout: nat,
    newExecId: NodeId -> ExecId): (p: ReconcilerParams)
    ensures p.job == job && p.evaluation.id != "" && p.evaluation.jobId == job.id && p.limiterAllows
    ensures p.allExecutions.Keys == set e | e in executions :: e.id
    ensures p.nodeInfos.Some? <==> nodeStates.Some?
    ensures |Candidates(p)| == if matchingNodes.Some? then |matchingNodes.value| else 0
  {
    ReconcilerParams(
      job, Evaluation("test-eval", job.id, NodeJoin), ExecSet(executions),
      NodeRanks(matchingNodes), NodeInfos(nodeStates), now, timeout, true, newExecId)
  }

  /** How many updates of the plan mark an execution Failed. */
  function FailedCount(updates: map<ExecId, ExecutionUpdate>): (n: nat)
    ensures n <= |updates|
    ensures n == 0 <==> forall id :: id in updates ==> updates[id].computeState != Failed
  {
    var failed := set id | id in updates && updates[id].computeState == Failed;
    SubsetNoLarger(failed, updates.Keys);
    assert (forall id :: id in updates ==> updates[id].computeState != Failed) ==> failed == {};
    assert forall id :: id in updates && updates[id].computeState == Failed ==> |failed| != 0 by {
      forall id | id in updates && updates[id].computeState == Failed
        ensures |failed| != 0
      {
        assert id in failed;
      }
    }
    |failed|
  }

  lemma {:induction false} SubsetNoLarger(a: set<ExecId>, b: set<ExecId>)
    requires a <= b
    ensures |a| <= |b|
    decreases |a|
  {
    if a != {} {
      var x :| x in a;
      SubsetNoLarger(a - {x}, b - {x});
    }
  }

  /** The snapshot of one stuck execution on a reconnected node, shared by
      the reconnect, same-job, age-detection and acceptance scenarios. */
  function OneStuckParams(job: Job, id: ExecId, now: int, timeout: nat, newExecId: NodeId -> ExecId): ReconcilerParams {
    TestParams(job, [PendingExecWithDesiredRunning(job, "node0", id, now)],
      Some(["node0"]), Some(map["node0" := Connected]), now, timeout, newExecId)
  }

  /** In that snapshot the execution is stuck and holds the only candidate
      node. */
  lemma OneStuckSnapshot(job: Job, id: ExecId, now: int, timeout: nat, newExecId: NodeId -> ExecId)
    requires timeout < 10
    ensures var p := OneStuckParams(job, id, now, timeout, newExecId);
      && p.allExecutions.Keys == {id}
      && (forall x :: x in p.allExecutions ==>
            AwaitingDispatch(p.job, p.allExecutions[x]) && DispatchPresumedLost(p, p.allExecutions[x]))
      && (forall c :: c in Candidates(p) ==> c.nodeId in AvoidSet(p))
  {
    var e := PendingExecWithDesiredRunning(job, "node0", id, now);
    var p := OneStuckParams(job, id, now, timeout, newExecId);
    ExecSetKeepsLast([e], 0);
    assert "node0" in AvoidSet(p) by {
      assert Occupies(p, e);
    }
    assert forall c :: c in Candidates(p) ==> c.nodeId == "node0";
  }

  /** A stuck execution on a node that has reconnected gets one re-dispatch
      request and nothing else: no new execution (the node stays avoided), no
      update, and a non-empty plan. */
  lemma ReconnectedStuckPendingIsRedispatched(
    job: Job, id: ExecId, now: int, timeout: nat, newExecId: NodeId -> ExecId, plan: Plan)
    requires timeout < 10
    requires Reconciled(OneStuckParams(job, id, now, timeout, newExecId), plan)
    ensures plan.newExecutions == [] && plan.updatedExecutions == map[]
    ensures plan.newEvaluations == [EvalRequest(job.id, id, Redispatch)]
  {
    var p := OneStuckParams(job, id, now, timeout, newExecId);
    OneStuckSnapshot(job, id, now, timeout, newExecId);
    AllStuckYieldsOnlyRedispatches(p, plan);
    assert |p.allExecutions| == |p.allExecutions.Keys| == 1;
    assert plan.newEvaluations[0] in plan.newEvaluations;
  }

  /** The snapshot of two stuck executions on two reconnected nodes. */
  function TwoStuckParams(job: Job, id0: ExecId, id1: ExecId, now: int, timeout: nat, newExecId: NodeId -> ExecId): ReconcilerParams {
    TestParams(job,
      [PendingExecWithDesiredRunning(job, "node0", id0, now), PendingExecWithDesiredRunning(job, "node1", id1, now)],
      Some(["node0", "node1"]), Some(map["node0" := Connected, "node1" := Connected]), now, timeout, newExecId)
  }

  /** In that snapshot both executions are stuck and hold the two candidate
      nodes. */
  lemma TwoStuckSnapshot(job: Job, id0: ExecId, id1: ExecId, now: int, timeout: nat, newExecId: NodeId -> ExecId)
    requires timeout < 10 && id0 != id1
    ensures var p := TwoStuckParams(job, id0, id1, now, timeout, newExecId);
      && p.allExecutions.Keys == {id0, id1}
      && (forall id :: id in p.allExecutions ==>
            AwaitingDispatch(p.job, p.allExecutions[id]) && DispatchPresumedLost(p, p.allExecutions[id]))
      && (forall c :: c in Candidates(p) ==> c.nodeId in AvoidSet(p))
  {
    var e0 := PendingExecWithDesiredRunning(job, "node0", id0, now);
    var e1 := PendingExecWithDesiredRunning(job, "node1", id1, now);
    var p := TwoStuckParams(job, id0, id1, now, timeout, newExecId);
    ExecSetKeepsLast([e0, e1], 0);
    ExecSetKeepsLast([e0, e1], 1);
    assert p.allExecutions.Keys == {id0, id1};
    assert {"node0", "node1"} <= AvoidSet(p) by {
      assert Occupies(p, e0) && Occupies(p, e1);
    }
    assert forall c :: c in Candidates(p) ==> c.nodeId in {"node0", "node1"};
  }

  /** Two stuck executions on two reconnected nodes: no new or updated
      execution, one re-dispatch request for each. */
  lemma MultipleStuckPendingAcrossNodes(
    job: Job, id0: ExecId, id1: ExecId, now: int, timeout: nat, newExecId: NodeId -> ExecId, plan: Plan)
    requires timeout < 10 && id0 != id1
    requires Reconciled(TwoStuckParams(job, id0, id1, now, timeout, newExecId), plan)
    ensures plan.newExecutions == [] && plan.updatedExecutions == map[]
    ensures |plan.newEvaluations| == 2
    ensures EvalRequest(job.id, id0, Redispatch) in plan.newEvaluations
    ensures EvalRequest(job.id, id1, Redispatch) in plan.newEvaluations
  {
    var p := TwoStuckParams(job, id0, id1, now, timeout, newExecId);
    TwoStuckSnapshot(job, id0, id1, now, timeout, newExecId);
    AllStuckYieldsOnlyRedispatches(p, plan);
    assert |p.allExecutions| == |p.allExecutions.Keys| == 2;
  }

  /** A new job places on a reconnected node although another job's stuck
      execution sits there. */
  lemma OtherJobsStuckExecutionDoesNotBlock(
    jobA: Job, jobB: Job, id: ExecId, now: int, timeout: nat, newExecId: NodeId -> ExecId, plan: Plan)
    requires jobA.id != jobB.id
    requires Reconciled(TestParams(jobB, [PendingExecWithDesiredRunning(jobA, "node0", id, now)],
      Some(["node0"]), Some(map["node0" := Connected]), now, timeout, newExecId), plan)
    ensures |plan.newExecutions| == 1
    ensures var e := plan.newExecutions[0];
      e.nodeId == "node0" && e.jobId == jobB.id && e.jobVersion == jobB.version
    ensures plan.updatedExecutions == map[] && plan.newEvaluations == []
  {
    var p := TestParams(jobB, [PendingExecWithDesiredRunning(jobA, "node0", id, now)],
      Some(["node0"]), Some(map["node0" := Connected]), now, timeout, newExecId);
    JobWithoutExecutionsPlacesEverywhere(p, plan);
    assert Candidates(p) == [NodeRank("node0", 1)];
    assert CandidateNodes(Candidates(p)) == {"node0"};
    assert plan.newExecutions[0] in plan.newExecutions;
  }

  /** A job updated to version 2 cancels its stuck version-1 execution and
      places a version-2 execution on the same node. */
  lemma VersionUpdateReplacesStuckPending(
    job: Job, id: ExecId, now: int, timeout: nat, newExecId: NodeId -> ExecId, plan: Plan)
    requires job.version == 2
    requires Reconciled(TestParams(job,
      [PendingExecWithDesiredRunning(job, "node0", id, now).(jobVersion := 1)],
      Some(["node0"]), Some(map["node0" := Connected]), now, timeout, newExecId), plan)
    ensures id in plan.updatedExecutions && plan.updatedExecutions[id].computeState == Cancelled
    ensures |plan.newExecutions| == 1
    ensures plan.newExecutions[0].jobVersion == 2 && plan.newExecutions[0].nodeId == "node0"
  {
    var e := PendingExecWithDesiredRunning(job, "node0", id, now).(jobVersion := 1);
    var p := TestParams(job, [e], Some(["node0"]), Some(map["node0" := Connected]), now, timeout, newExecId);
    assert p.allExecutions == map[id := e];
    OutdatedExecutionIsReplaced(p, plan, id);
    assert Candidates(p) == [NodeRank("node0", 1)];
  }

  /** A job with no executions deploys onto the node that looks Connected. */
  lemma DeployDuringUndetectedDisconnect(
    job: Job, now: int, timeout: nat, newExecId: NodeId -> ExecId, plan: Plan)
    requires Reconciled(TestParams(job, [], Some(["node0"]), Some(map["node0" := Connected]),
      now, timeout, newExecId), plan)
    ensures |plan.newExecutions| == 1
    ensures var e := plan.newExecutions[0];
      && e.nodeId == "node0" && e.jobId == job.id && e.jobVersion == job.version
      && e.computeState == Pending && e.desiredState == DesiredRunning && e.createdAt == now
  {
    var p := TestParams(job, [], Some(["node0"]), Some(map["node0" := Connected]), now, timeout, newExecId);
    JobWithoutExecutionsPlacesEverywhere(p, plan);
    assert Candidates(p) == [NodeRank("node0", 1)];
    assert CandidateNodes(Candidates(p)) == {"node0"};
    assert plan.newExecutions[0] in plan.newExecutions;
  }

  /** An ops-like job fails its pending execution on a Disconnected node. */
  lemma OpsJobFailsPendingOnDisconnectedNode(
    job: Job, id: ExecId, now: int, timeout: nat, newExecId: NodeId -> ExecId, plan: Plan)
    requires job.jobType == Query
    requires Reconciled(TestParams(job, [PendingExecWithDesiredRunning(job, "node0", id, now)],
      Some([]), Some(map["node0" := Disconnected]), now, timeout, newExecId), plan)
    ensures FailedCount(plan.updatedExecutions) == 1
  {
    var e := PendingExecWithDesiredRunning(job, "node0", id, now);
    var p := TestParams(job, [e], Some([]), Some(map["node0" := Disconnected]), now, timeout, newExecId);
    assert p.allExecutions == map[id := e];
    assert Decide(p, e) == FailPending;
    assert plan.updatedExecutions == map[id := ExecutionUpdate(Failed, now)];
    assert (set x | x in plan.updatedExecutions && plan.updatedExecutions[x].computeState == Failed) == {id};
  }

  /** A daemon-like job leaves its pending execution on a Disconnected node
      alone. */
  lemma DaemonJobToleratesDisconnectedNode(
    job: Job, id: ExecId, now: int, timeout: nat, newExecId: NodeId -> ExecId, plan: Plan)
    requires job.jobType == Pipeline
    requires Reconciled(TestParams(job, [PendingExecWithDesiredRunning(job, "node0", id, now)],
      Some([]), Some(map["node0" := Disconnected]), now, timeout, newExecId), plan)
    ensures FailedCount(plan.updatedExecutions) == 0
    ensures plan == EmptyPlan
  {
    var e := PendingExecWithDesiredRunning(job, "node0", id, now);
    var p := TestParams(job, [e], Some([]), Some(map["node0" := Disconnected]), now, timeout, newExecId);
    assert p.allExecutions == map[id := e];
    assert Decide(p, e) == NoAction;
    assert Occupies(p, e);
    IdleSnapshotYieldsEmptyPlan(p, plan);
  }

  /** Any job fails its pending execution on a node missing from the node
      information (a Lost node). */
  lemma PendingOnLostNodeFails(
    job: Job, id: ExecId, now: int, timeout: nat, newExecId: NodeId -> ExecId, plan: Plan)
    requires Reconciled(TestParams(job, [PendingExecWithDesiredRunning(job, "node0", id, now)],
      Some([]), Some(map[]), now, timeout, newExecId), plan)
    ensures FailedCount(plan.updatedExecutions) == 1
  {
    var e := PendingExecWithDesiredRunning(job, "node0", id, now);
    var p := TestParams(job, [e], Some([]), Some(map[]), now, timeout, newExecId);
    assert p.allExecutions == map[id := e];
    assert Decide(p, e) == FailPending;
    assert plan.updatedExecutions == map[id := ExecutionUpdate(Failed, now)];
    assert (set x | x in plan.updatedExecutions && plan.updatedExecutions[x].computeState == Failed) == {id};
  }
}
