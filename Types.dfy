/** Data model of the scheduler's reconciliation pass: jobs, executions,
    node connectivity, the reconciler's input snapshot and its Plan. */
module Types {

  datatype Option<+T> = None | Some(value: T)

  type JobId = string
  type ExecId = string
  type NodeId = string

  /** Pipeline jobs are long-running (daemon-like); Query jobs are bounded (ops-like). */
  datatype JobType = Pipeline | Query

  datatype Job = Job(id: JobId, jobType: JobType, version: nat)

  /** Completed, Failed and Cancelled are terminal; Pending and Running are not. */
  datatype ComputeState = Pending | Running | Completed | Failed | Cancelled

  datatype DesiredState = DesiredRunning | DesiredStopped

  /** Timestamps are integer clock readings in minutes. */
  datatype Execution = Execution(
    id: ExecId,
    jobId: JobId,
    jobVersion: nat,
    nodeId: NodeId,
    computeState: ComputeState,
    desiredState: DesiredState,
    createdAt: int,
    updatedAt: int)

  /** A node absent from the node-info snapshot is classified Lost. */
  datatype ConnectionState = Connected | Disconnected | Lost

  /** Node information as reported to the orchestrator. */
  datatype Node = Node(id: NodeId, connectionState: ConnectionState)

  /** One entry of the ranked candidate list; only the node's ID is filled in. */
  datatype NodeRank = NodeRank(nodeId: NodeId, rank: int)

  datatype Trigger = JobCreate | JobUpdate | NodeJoin | NodeReconnect | PeriodicRecheck | Redispatch

  datatype Evaluation = Evaluation(id: string, jobId: JobId, triggeredBy: Trigger)

  /** A follow-up evaluation requested by a plan, for one execution of one job. */
  datatype EvalRequest = EvalRequest(jobId: JobId, executionId: ExecId, triggeredBy: Trigger)

  /** Field-level update of an existing execution. */
  datatype ExecutionUpdate = ExecutionUpdate(computeState: ComputeState, updatedAt: int)

  datatype Plan = Plan(
    newExecutions: seq<Execution>,
    updatedExecutions: map<ExecId, ExecutionUpdate>,
    newEvaluations: seq<EvalRequest>)

  const EmptyPlan := Plan([], map[], [])

  datatype ReconcileError = InvalidSnapshot

  /** The frozen snapshot a reconciler is built from.  The clock is the reading
      `now`; the rate limiter is its verdict for this job in this pass; the
      generator of fresh execution IDs is `newExecId`. */
  datatype ReconcilerParams = ReconcilerParams(
    job: Job,
    evaluation: Evaluation,
    allExecutions: map<ExecId, Execution>,
    matchingNodes: Option<seq<NodeRank>>,
    nodeInfos: Option<map<NodeId, Node>>,
    now: int,
    stuckPendingTimeout: nat,
    limiterAllows: bool,
    newExecId: NodeId -> ExecId)
}
