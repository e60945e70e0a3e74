/** The reconciler object: built from a frozen snapshot, it fills its plan in
    one call to Reconcile: outdated cancellation, stuck-pending handling,
    the nodes to avoid, then placement. */
module Reconciliation {
  import opened Types
  import opened Decisions
  import opened Planning

  class Reconciler {
    const params: ReconcilerParams
    var plan: Plan

    /** A reconciler over the snapshot, with an empty plan. */
    constructor (params: ReconcilerParams)
      ensures this.params == params && plan == EmptyPlan
    {
      this.params := params;
      plan := EmptyPlan;
    }

    /** Outdated cancellation and stuck-pending handling for one execution: cancel it when outdated, fail it
        when it waits on an unreachable node, or request a re-dispatch when
        its dispatch is presumed lost. */
    method ResolveExecution(ghost done: set<ExecId>, id: ExecId,
                            updates: map<ExecId, ExecutionUpdate>, evals: seq<EvalRequest>)
      returns (updates': map<ExecId, ExecutionUpdate>, evals': seq<EvalRequest>)
      requires id in params.allExecutions && id !in done
      requires updates == UpdatesFor(params, done) && RedispatchRequests(params, done, evals)
      ensures updates' == UpdatesFor(params, done + {id})
      ensures RedispatchRequests(params, done + {id}, evals')
    {
      var e := params.allExecutions[id];
      UpdatesForStep(params, done, id);
      RedispatchRequestsStep(params, done, id, evals);
      updates', evals' := updates, evals;
      match Decide(params, e) {
        case CancelOutdated =>
          updates' := updates[id := ExecutionUpdate(Cancelled, params.now)];
        case FailPending =>
          updates' := updates[id := ExecutionUpdate(Failed, params.now)];
        case RequestRedispatch =>
          evals' := evals + [EvalRequest(params.job.id, id, Redispatch)];
        case NoAction =>
      }
    }

    /** Outdated cancellation and stuck-pending handling over the whole snapshot, visiting the executions in an
        unspecified order. */
    method ResolveExecutions() returns (updates: map<ExecId, ExecutionUpdate>, evals: seq<EvalRequest>)
      ensures updates == Updates(params)
      ensures RedispatchRequests(params, params.allExecutions.Keys, evals)
    {
      updates, evals := map[], [];
      var remaining := params.allExecutions.Keys;
      ghost var done: set<ExecId> := {};
      while remaining != {}
        invariant remaining !! done && remaining + done == params.allExecutions.Keys
        invariant updates == UpdatesFor(params, done)
        invariant RedispatchRequests(params, done, evals)
        decreases remaining
      {
        var id :| id in remaining;
        updates, evals := ResolveExecution(done, id, updates, evals);
        remaining := remaining - {id};
        done := done + {id};
      }
    }

    /** Nodes to avoid: the nodes that keep a non-terminal execution of the
        job once the updates apply. */
    method NodesToAvoid() returns (avoid: set<NodeId>)
      ensures avoid == AvoidSet(params)
    {
      var execs := params.allExecutions;
      avoid := {};
      var remaining := execs.Keys;
      ghost var done: set<ExecId> := {};
      while remaining != {}
        invariant remaining !! done && remaining + done == execs.Keys
        invariant avoid == AvoidFor(params, done)
        decreases remaining
      {
        var id :| id in remaining;
        var e := execs[id];
        if e.jobId == params.job.id && !IsTerminal(PostState(params, e)) {
          avoid := avoid + {e.nodeId};
        }
        remaining := remaining - {id};
        done := done + {id};
      }
    }

    /** Placement: walk the ranked candidates and place one new execution on
        each node not avoided and not yet used in this pass. */
    method PlaceExecutions(avoid: set<NodeId>) returns (placed: seq<Execution>)
      ensures placed == Place(params, Candidates(params), avoid)
    {
      var cands := Candidates(params);
      var blocked := avoid;
      placed := [];
      for i := 0 to |cands|
        invariant placed + Place(params, cands[i..], blocked) == Place(params, cands, avoid)
      {
        assert cands[i..][1..] == cands[i + 1..];
        var n := cands[i].nodeId;
        if n !in blocked {
          placed := placed + [NewExecution(params, n)];
          blocked := blocked + {n};
        }
      }
    }

    /** Runs the pass.  A snapshot without a job or evaluation ID is refused
        and leaves the plan as it was; otherwise the plan becomes the one the
        snapshot calls for. */
    method Reconcile() returns (err: Option<ReconcileError>)
      modifies this
      ensures err.Some? <==> params.job.id == "" || params.evaluation.id == ""
      ensures err.Some? ==> plan == old(plan)
      ensures err.None? ==> Reconciled(params, plan)
    {
      if params.job.id == "" || params.evaluation.id == "" {
        return Some(InvalidSnapshot);
      }
      var updates, evals := ResolveExecutions();
      var avoid := NodesToAvoid();
      var placed := PlaceExecutions(avoid);
      plan := Plan(placed, updates, evals);
      err := None;
    }
  }
}
