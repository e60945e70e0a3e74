/** Per-execution decisions of one reconciliation pass: node classification,
    outdated-version cancellation and the handling of pending work that is
    waiting for its dispatch. */
module Decisions {
  import opened Types

  predicate IsTerminal(s: ComputeState) {
    s == Completed || s == Failed || s == Cancelled
  }

  /** Query (ops-like) jobs fail pending work on a Disconnected node;
      Pipeline (daemon-like) jobs tolerate the disconnect. */
  predicate FailsFastOnDisconnect(t: JobType) {
    t == Query
  }

  /** A node present in the node-info map has the state it reports; a node
      absent from it, or a nil map, means the node is Lost. */
  function Classify(nodeId: NodeId, nodeInfos: Option<map<NodeId, Node>>): (c: ConnectionState)
    ensures nodeInfos.None? ==> c == Lost
    ensures nodeInfos.Some? && nodeId !in nodeInfos.value ==> c == Lost
    ensures nodeInfos.Some? && nodeId in nodeInfos.value ==> c == nodeInfos.value[nodeId].connectionState
  {
    match nodeInfos
    case None => Lost
    case Some(infos) => if nodeId in infos then infos[nodeId].connectionState else Lost
  }

  /** A still-Pending execution of the job created for an older job version;
      outdated cancellation stops only pending work. */
  predicate Outdated(job: Job, e: Execution) {
    e.jobId == job.id && e.jobVersion < job.version && e.computeState == Pending
  }

  /** A current-version execution that was placed but has not started. */
  predicate AwaitingDispatch(job: Job, e: Execution) {
    && e.jobId == job.id
    && e.jobVersion == job.version
    && e.computeState == Pending
    && e.desiredState == DesiredRunning
  }

  /** The node of a waiting execution can no longer be trusted to run it. */
  predicate UnreachableFor(job: Job, state: ConnectionState) {
    state == Lost || (state == Disconnected && FailsFastOnDisconnect(job.jobType))
  }

  /** The execution has waited longer than the timeout on a Connected node,
      so its dispatch message is presumed lost. */
  predicate DispatchPresumedLost(p: ReconcilerParams, e: Execution) {
    Classify(e.nodeId, p.nodeInfos) == Connected && p.now - e.createdAt > p.stuckPendingTimeout
  }

  datatype Action = NoAction | CancelOutdated | FailPending | RequestRedispatch

  /** What one pass does with one execution of the snapshot. */
  function Decide(p: ReconcilerParams, e: Execution): (a: Action)
    ensures a == CancelOutdated <==> Outdated(p.job, e)
    ensures a == FailPending <==>
      AwaitingDispatch(p.job, e) && UnreachableFor(p.job, Classify(e.nodeId, p.nodeInfos))
    ensures a == RequestRedispatch <==>
      AwaitingDispatch(p.job, e) && DispatchPresumedLost(p, e) && p.limiterAllows
    ensures e.jobId != p.job.id ==> a == NoAction
  {
    if Outdated(p.job, e) then CancelOutdated
    else if !AwaitingDispatch(p.job, e) then NoAction
    else
      match Classify(e.nodeId, p.nodeInfos)
      case Lost => FailPending
      case Disconnected => if FailsFastOnDisconnect(p.job.jobType) then FailPending else NoAction
      case Connected =>
        if p.now - e.createdAt > p.stuckPendingTimeout && p.limiterAllows then RequestRedispatch else NoAction
  }

  /** The compute state the execution has once the pass's updates apply. */
  function PostState(p: ReconcilerParams, e: Execution): (s: ComputeState)
    ensures s == Cancelled || s == Failed || s == e.computeState
    ensures IsTerminal(s) <==>
      IsTerminal(e.computeState) || Decide(p, e) == CancelOutdated || Decide(p, e) == FailPending
  {
    match Decide(p, e)
    case CancelOutdated => Cancelled
    case FailPending => Failed
    case _ => e.computeState
  }

  /** The execution still holds its node for the job after this pass. */
  predicate Occupies(p: ReconcilerParams, e: Execution) {
    e.jobId == p.job.id && !IsTerminal(PostState(p, e))
  }
}
