/** What one reconciliation pass must produce from a snapshot: the updates of
    outdated cancellation and stuck-pending handling, the re-dispatch
    requests of stuck-pending handling, the nodes to avoid and the
    placements, and the properties the resulting Plan has. */
module Planning {
  import opened Types
  import opened Decisions

  /** Outdated cancellation or stuck-pending handling changes the compute
      state of this execution. */
  predicate Transitions(p: ReconcilerParams, e: Execution) {
    Decide(p, e) == CancelOutdated || Decide(p, e) == FailPending
  }

  /** The update recorded for the execution stored under `id`. */
  function UpdateOf(p: ReconcilerParams, id: ExecId): ExecutionUpdate
    requires id in p.allExecutions
  {
    ExecutionUpdate(PostState(p, p.allExecutions[id]), p.now)
  }

  /** The updates for the executions whose IDs are in `ids`. */
  function UpdatesFor(p: ReconcilerParams, ids: set<ExecId>): (u: map<ExecId, ExecutionUpdate>)
    ensures forall id :: id in u <==>
      && id in ids && id in p.allExecutions
      && (|| Outdated(p.job, p.allExecutions[id])
          || (&& AwaitingDispatch(p.job, p.allExecutions[id])
              && UnreachableFor(p.job, Classify(p.allExecutions[id].nodeId, p.nodeInfos))))
    ensures forall id :: id in u ==>
      && !IsTerminal(p.allExecutions[id].computeState)
      && u[id].updatedAt == p.now
      && u[id].computeState == (if Outdated(p.job, p.allExecutions[id]) then Cancelled else Failed)
  {
    map id | id in ids && id in p.allExecutions && Transitions(p, p.allExecutions[id])
      :: UpdateOf(p, id)
  }

  function Updates(p: ReconcilerParams): map<ExecId, ExecutionUpdate> {
    UpdatesFor(p, p.allExecutions.Keys)
  }

  /** The executions among `ids` whose dispatch is retried. */
  function RedispatchFor(p: ReconcilerParams, ids: set<ExecId>): (r: set<ExecId>)
    ensures forall id :: id in r <==>
      && id in ids && id in p.allExecutions
      && AwaitingDispatch(p.job, p.allExecutions[id])
      && DispatchPresumedLost(p, p.allExecutions[id])
      && p.limiterAllows
    ensures r !! UpdatesFor(p, ids).Keys
    ensures forall id :: id in r ==> Occupies(p, p.allExecutions[id])
  {
    set id | id in ids && id in p.allExecutions && Decide(p, p.allExecutions[id]) == RequestRedispatch
  }

  /** Nodes that still hold a non-terminal execution of the job after the
      updates of this pass (the nodesToAvoid of the scheduler). */
  function AvoidFor(p: ReconcilerParams, ids: set<ExecId>): set<NodeId> {
    set id | id in ids && id in p.allExecutions && Occupies(p, p.allExecutions[id])
      :: p.allExecutions[id].nodeId
  }

  function AvoidSet(p: ReconcilerParams): set<NodeId> {
    AvoidFor(p, p.allExecutions.Keys)
  }

  /** One Redispatch request per execution of `ids` whose dispatch is retried,
      in any order. */
  ghost predicate RedispatchRequests(p: ReconcilerParams, ids: set<ExecId>, evals: seq<EvalRequest>) {
    && |evals| == |RedispatchFor(p, ids)|
    && forall r :: r in evals <==>
         r == EvalRequest(p.job.id, r.executionId, Redispatch) && r.executionId in RedispatchFor(p, ids)
  }

  function Candidates(p: ReconcilerParams): seq<NodeRank> {
    match p.matchingNodes
    case None => []
    case Some(ranks) => ranks
  }

  /** A new execution of the job's current version on `nodeId`. */
  function NewExecution(p: ReconcilerParams, nodeId: NodeId): Execution {
    Execution(p.newExecId(nodeId), p.job.id, p.job.version, nodeId, Pending, DesiredRunning, p.now, p.now)
  }

  function CandidateNodes(cands: seq<NodeRank>): set<NodeId> {
    set c | c in cands :: c.nodeId
  }

  function PlacedNodes(execs: seq<Execution>): set<NodeId> {
    set e | e in execs :: e.nodeId
  }

  /** Placement: one new execution per candidate node that is not avoided, in
      candidate order; a node listed twice is placed on once. */
  function Place(p: ReconcilerParams, cands: seq<NodeRank>, avoid: set<NodeId>): (r: seq<Execution>)
    ensures |r| <= |cands|
    ensures r == [] <==> CandidateNodes(cands) <= avoid
    ensures forall e :: e in r ==> e == NewExecution(p, e.nodeId) && e.nodeId !in avoid
    ensures PlacedNodes(r) == CandidateNodes(cands) - avoid
    ensures forall j, k :: 0 <= j < k < |r| ==> r[j].nodeId != r[k].nodeId
    decreases |cands|
  {
    if cands == [] then []
    else
      var n, rest := cands[0].nodeId, cands[1..];
      CandidateNodesUncons(cands);
      if n in avoid then Place(p, rest, avoid)
      else
        var tail := Place(p, rest, avoid + {n});
        var r := [NewExecution(p, n)] + tail;
        PlacedNodesCons(NewExecution(p, n), tail);
        r
  }

  lemma CandidateNodesUncons(cands: seq<NodeRank>)
    requires cands != []
    ensures CandidateNodes(cands) == {cands[0].nodeId} + CandidateNodes(cands[1..])
  {
    assert cands == [cands[0]] + cands[1..];
  }

  lemma PlacedNodesCons(x: Execution, tail: seq<Execution>)
    ensures forall e :: e in [x] + tail <==> e == x || e in tail
    ensures PlacedNodes([x] + tail) == {x.nodeId} + PlacedNodes(tail)
    ensures forall k :: 0 < k < |tail| + 1 ==> ([x] + tail)[k] == tail[k - 1]
  {
    assert forall e :: e in [x] + tail <==> e == x || e in tail;
  }

  /** The Plan that one pass over `p` produces (its re-dispatch requests in
      the map's iteration order, which is unspecified). */
  ghost predicate Reconciled(p: ReconcilerParams, plan: Plan) {
    && plan.newExecutions == Place(p, Candidates(p), AvoidSet(p))
    && plan.updatedExecutions == Updates(p)
    && RedispatchRequests(p, p.allExecutions.Keys, plan.newEvaluations)
  }

  /** Visiting one more execution extends the updates by at most its own. */
  lemma UpdatesForStep(p: ReconcilerParams, done: set<ExecId>, id: ExecId)
    requires id in p.allExecutions && id !in done
    ensures UpdatesFor(p, done + {id}) ==
      if Transitions(p, p.allExecutions[id]) then UpdatesFor(p, done)[id := UpdateOf(p, id)]
      else UpdatesFor(p, done)
  {
    var e := p.allExecutions[id];
    var before, after := UpdatesFor(p, done), UpdatesFor(p, done + {id});
    if Transitions(p, e) {
      assert after.Keys == before.Keys + {id};
    } else {
      assert after.Keys == before.Keys;
    }
  }

  /** Visiting one more execution adds one request exactly when its dispatch
      is retried. */
  lemma RedispatchRequestsStep(p: ReconcilerParams, done: set<ExecId>, id: ExecId, evals: seq<EvalRequest>)
    requires id in p.allExecutions && id !in done
    requires RedispatchRequests(p, done, evals)
    ensures RedispatchRequests(p, done + {id},
      if Decide(p, p.allExecutions[id]) == RequestRedispatch
      then evals + [EvalRequest(p.job.id, id, Redispatch)] else evals)
  {
    var before, after := RedispatchFor(p, done), RedispatchFor(p, done + {id});
    if Decide(p, p.allExecutions[id]) == RequestRedispatch {
      assert after == before + {id};
      assert id !in before;
    } else {
      assert after == before;
    }
  }

  /** An execution as it stands once the plan's updates are applied. */
  function Applied(id: ExecId, e: Execution, updates: map<ExecId, ExecutionUpdate>): Execution {
    if id in updates then e.(computeState := updates[id].computeState, updatedAt := updates[id].updatedAt)
    else e
  }

  /** A non-terminal execution of the job's current version. */
  predicate Live(job: Job, e: Execution) {
    e.jobId == job.id && e.jobVersion == job.version && !IsTerminal(e.computeState)
  }

  /** Applying a plan never leaves two non-terminal executions of the job's
      current version on one node: the new executions are live, on distinct
      nodes, and on none that keeps a live execution. */
  lemma PlanKeepsOneLiveExecutionPerNode(p: ReconcilerParams, plan: Plan)
    requires Reconciled(p, plan)
    ensures forall k :: 0 <= k < |plan.newExecutions| ==> Live(p.job, plan.newExecutions[k])
    ensures forall j, k :: 0 <= j < k < |plan.newExecutions| ==>
      plan.newExecutions[j].nodeId != plan.newExecutions[k].nodeId
    ensures forall id, k ::
      && id in p.allExecutions && 0 <= k < |plan.newExecutions|
      && Live(p.job, Applied(id, p.allExecutions[id], plan.updatedExecutions))
      ==> p.allExecutions[id].nodeId != plan.newExecutions[k].nodeId
  {
    var placed := plan.newExecutions;
    forall k | 0 <= k < |placed| ensures Live(p.job, placed[k]) {
      assert placed[k] in placed;
    }
    forall id, k | id in p.allExecutions && 0 <= k < |placed|
      && Live(p.job, Applied(id, p.allExecutions[id], plan.updatedExecutions))
      ensures p.allExecutions[id].nodeId != placed[k].nodeId
    {
      var e := p.allExecutions[id];
      assert id !in plan.updatedExecutions;
      assert Occupies(p, e);
      assert e.nodeId in AvoidSet(p);
      assert placed[k] in placed;
    }
  }

  /** A stuck execution (waiting for dispatch on a Connected node past the
      timeout) gets one Redispatch request, keeps its compute state and keeps
      its node from receiving a second execution of the job. */
  lemma StuckPendingIsRedispatched(p: ReconcilerParams, plan: Plan, id: ExecId)
    requires Reconciled(p, plan)
    requires id in p.allExecutions
    requires AwaitingDispatch(p.job, p.allExecutions[id]) && DispatchPresumedLost(p, p.allExecutions[id])
    requires p.limiterAllows
    ensures EvalRequest(p.job.id, id, Redispatch) in plan.newEvaluations
    ensures id !in plan.updatedExecutions
    ensures p.allExecutions[id].nodeId !in PlacedNodes(plan.newExecutions)
  {
    assert id in RedispatchFor(p, p.allExecutions.Keys);
    assert p.allExecutions[id].nodeId in AvoidSet(p);
  }

  /** When every execution of the snapshot is stuck and every candidate node
      already holds one, the pass only asks for re-dispatches: one per
      execution, with no new and no updated execution. */
  lemma AllStuckYieldsOnlyRedispatches(p: ReconcilerParams, plan: Plan)
    requires Reconciled(p, plan) && p.limiterAllows
    requires forall id :: id in p.allExecutions ==>
      AwaitingDispatch(p.job, p.allExecutions[id]) && DispatchPresumedLost(p, p.allExecutions[id])
    requires forall c :: c in Candidates(p) ==> c.nodeId in AvoidSet(p)
    ensures plan.newExecutions == [] && plan.updatedExecutions == map[]
    ensures |plan.newEvaluations| == |p.allExecutions|
    ensures forall id :: id in p.allExecutions ==> EvalRequest(p.job.id, id, Redispatch) in plan.newEvaluations
  {
    assert CandidateNodes(Candidates(p)) <= AvoidSet(p);
    assert RedispatchFor(p, p.allExecutions.Keys) == p.allExecutions.Keys;
    assert Updates(p).Keys == {};
  }

  /** With nothing outdated, nothing waiting on a bad node or past the
      timeout, and every candidate node already holding a live execution of
      the job, the plan is empty. */
  lemma IdleSnapshotYieldsEmptyPlan(p: ReconcilerParams, plan: Plan)
    requires Reconciled(p, plan)
    requires forall id :: id in p.allExecutions ==> Decide(p, p.allExecutions[id]) == NoAction
    requires forall c :: c in Candidates(p) ==> c.nodeId in AvoidSet(p)
    ensures plan == EmptyPlan
  {
    var placed := plan.newExecutions;
    assert CandidateNodes(Candidates(p)) <= AvoidSet(p);
    assert RedispatchFor(p, p.allExecutions.Keys) == {};
    assert |plan.newEvaluations| == 0;
    assert plan.updatedExecutions == map[];
  }

  /** A Pending execution of the job's current version whose node is not
      treated as unreachable keeps its node: the pass places no second
      execution of the job there. */
  lemma PendingExecutionBlocksItsNode(p: ReconcilerParams, plan: Plan, id: ExecId)
    requires Reconciled(p, plan)
    requires id in p.allExecutions
    requires var e := p.allExecutions[id];
      e.jobId == p.job.id && e.jobVersion == p.job.version && e.computeState == Pending
    requires !UnreachableFor(p.job, Classify(p.allExecutions[id].nodeId, p.nodeInfos))
    ensures p.allExecutions[id].nodeId !in PlacedNodes(plan.newExecutions)
  {
    assert Occupies(p, p.allExecutions[id]);
  }

  /** An outdated execution is cancelled, and when its node is a candidate
      that no other execution of the job keeps, an execution of the current
      version is placed on that node in the same pass. */
  lemma OutdatedExecutionIsReplaced(p: ReconcilerParams, plan: Plan, id: ExecId)
    requires Reconciled(p, plan)
    requires id in p.allExecutions && Outdated(p.job, p.allExecutions[id])
    requires p.allExecutions[id].nodeId in CandidateNodes(Candidates(p))
    requires forall other :: other in p.allExecutions && Occupies(p, p.allExecutions[other]) ==>
      p.allExecutions[other].nodeId != p.allExecutions[id].nodeId
    ensures id in plan.updatedExecutions && plan.updatedExecutions[id].computeState == Cancelled
    ensures NewExecution(p, p.allExecutions[id].nodeId) in plan.newExecutions
  {
    var n := p.allExecutions[id].nodeId;
    assert n !in AvoidSet(p);
    assert n in PlacedNodes(plan.newExecutions);
  }

  /** A job none of whose executions are in the snapshot changes nothing and
      places one execution on every candidate node. */
  lemma JobWithoutExecutionsPlacesEverywhere(p: ReconcilerParams, plan: Plan)
    requires Reconciled(p, plan)
    requires forall id :: id in p.allExecutions ==> p.allExecutions[id].jobId != p.job.id
    ensures plan.updatedExecutions == map[] && plan.newEvaluations == []
    ensures PlacedNodes(plan.newExecutions) == CandidateNodes(Candidates(p))
  {
    assert AvoidSet(p) == {};
    assert RedispatchFor(p, p.allExecutions.Keys) == {};
  }

  /** Placement depends on the job, the clock and the ID generator, not on
      the execution set. */
  lemma {:induction false} PlaceIgnoresExecutions(
    p: ReconcilerParams, execs: map<ExecId, Execution>, cands: seq<NodeRank>, avoid: set<NodeId>)
    ensures Place(p.(allExecutions := execs), cands, avoid) == Place(p, cands, avoid)
    decreases |cands|
  {
    if cands != [] {
      var n := cands[0].nodeId;
      PlaceIgnoresExecutions(p, execs, cands[1..], avoid);
      PlaceIgnoresExecutions(p, execs, cands[1..], avoid + {n});
    }
  }

  /** Jobs are independent: adding executions of other jobs to the snapshot
      changes none of the plan's updates, re-dispatches, avoided nodes or
      placements. */
  lemma ForeignExecutionsIgnored(p: ReconcilerParams, foreign: map<ExecId, Execution>)
    requires foreign.Keys !! p.allExecutions.Keys
    requires forall id :: id in foreign ==> foreign[id].jobId != p.job.id
    ensures var q := p.(allExecutions := p.allExecutions + foreign);
      && Updates(q) == Updates(p)
      && RedispatchFor(q, q.allExecutions.Keys) == RedispatchFor(p, p.allExecutions.Keys)
      && AvoidSet(q) == AvoidSet(p)
      && Place(q, Candidates(q), AvoidSet(q)) == Place(p, Candidates(p), AvoidSet(p))
  {
    var q := p.(allExecutions := p.allExecutions + foreign);
    ForeignUpdatesUnchanged(p, foreign);
    ForeignRedispatchesUnchanged(p, foreign);
    ForeignAvoidUnchanged(p, foreign);
    PlaceIgnoresExecutions(p, q.allExecutions, Candidates(p), AvoidSet(p));
  }

  lemma ForeignUpdatesUnchanged(p: ReconcilerParams, foreign: map<ExecId, Execution>)
    requires foreign.Keys !! p.allExecutions.Keys
    requires forall id :: id in foreign ==> foreign[id].jobId != p.job.id
    ensures Updates(p.(allExecutions := p.allExecutions + foreign)) == Updates(p)
  {
    var q := p.(allExecutions := p.allExecutions + foreign);
    ForeignDecisionsUnchanged(p, foreign);
    assert Updates(q).Keys == Updates(p).Keys;
  }

  lemma ForeignRedispatchesUnchanged(p: ReconcilerParams, foreign: map<ExecId, Execution>)
    requires foreign.Keys !! p.allExecutions.Keys
    requires forall id :: id in foreign ==> foreign[id].jobId != p.job.id
    ensures var q := p.(allExecutions := p.allExecutions + foreign);
      RedispatchFor(q, q.allExecutions.Keys) == RedispatchFor(p, p.allExecutions.Keys)
  {
    ForeignDecisionsUnchanged(p, foreign);
  }

  lemma ForeignAvoidUnchanged(p: ReconcilerParams, foreign: map<ExecId, Execution>)
    requires foreign.Keys !! p.allExecutions.Keys
    requires forall id :: id in foreign ==> foreign[id].jobId != p.job.id
    ensures AvoidSet(p.(allExecutions := p.allExecutions + foreign)) == AvoidSet(p)
  {
    ForeignDecisionsUnchanged(p, foreign);
  }

  /** Every execution of the larger snapshot is decided as in the smaller
      one, and those of other jobs are left alone and hold no node. */
  lemma ForeignDecisionsUnchanged(p: ReconcilerParams, foreign: map<ExecId, Execution>)
    requires forall id :: id in foreign ==> foreign[id].jobId != p.job.id
    ensures var q := p.(allExecutions := p.allExecutions + foreign);
      forall id :: id in q.allExecutions ==>
        && Decide(q, q.allExecutions[id]) == Decide(p, q.allExecutions[id])
        && PostState(q, q.allExecutions[id]) == PostState(p, q.allExecutions[id])
        && (id in foreign ==> Decide(p, q.allExecutions[id]) == NoAction && !Occupies(p, q.allExecutions[id]))
        && (id !in foreign ==> q.allExecutions[id] == p.allExecutions[id])
  {
    var q := p.(allExecutions := p.allExecutions + foreign);
    forall id | id in q.allExecutions
      ensures Decide(q, q.allExecutions[id]) == Decide(p, q.allExecutions[id])
      ensures PostState(q, q.allExecutions[id]) == PostState(p, q.allExecutions[id])
    {
      DecideIgnoresExecutions(p, q.allExecutions, q.allExecutions[id]);
    }
  }

  /** What a pass does with one execution does not depend on the others. */
  lemma DecideIgnoresExecutions(p: ReconcilerParams, execs: map<ExecId, Execution>, e: Execution)
    ensures Decide(p.(allExecutions := execs), e) == Decide(p, e)
    ensures PostState(p.(allExecutions := execs), e) == PostState(p, e)
  {
  }
}
