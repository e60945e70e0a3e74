# Reconciliation pass of the job scheduler (issue #395)

This project models one pass of the scheduler's reconciler. It is written
against the decision rules that `tests/issue395_test.go` pins down. The
reconciler is built from a frozen snapshot:

- a job with an ID, a type and a version;
- its executions, keyed by ID;
- a ranked list of candidate nodes;
- a node-info map from node ID to connection state;
- a clock reading.

One call to `Reconcile` fills the reconciler's `Plan`, which has three parts:

- new executions to place;
- updates to existing executions, keyed by execution ID;
- new evaluations to enqueue.

The rules of the pass:

- A node missing from the node-info map is Lost.
- A Pending execution of an older job version is cancelled.
  The node it frees can receive an execution of the current version in the
  same pass.
- Some executions of the current version are still Pending with desired state
  Running:
  - on a Lost node, the execution is failed, whatever the job type;
  - on a Disconnected node, it is failed for a Query (ops-like) job and left
    alone for a Pipeline (daemon-like) job;
  - on a Connected node, once its age exceeds the stuck-pending timeout and
    the rate limiter allows it, one `Redispatch` evaluation is requested. Its
    compute state does not change.
- The nodes that still hold a non-terminal execution of the job once those
  updates apply are avoided. Every other candidate node gets one new Pending
  execution, and a node listed twice is used once.

The Dafny modules follow that structure:

- `Types`: the entities (job, execution, node, evaluation, plan) and the
  snapshot `ReconcilerParams`.
- `Builders`: the snapshot constructors of the suite. These are the ranked
  candidate list, the node-info map and the execution set. Each is a loop
  method proved against a function.
- `Decisions`: the per-execution rules: `Classify`, `Decide` and `PostState`.
- `Planning`: the specification of a whole pass. `UpdatesFor`, `RedispatchFor`,
  `AvoidSet` and `Place` specify it, and `Reconciled(p, plan)` relates a
  snapshot to the plan a pass must produce. The lemmas state the properties of
  that plan.
- `Reconciliation`: the `Reconciler` class. It holds its snapshot and a `plan`
  field, and its methods loop over the executions and candidates. `Reconcile`
  ends in a state that satisfies `Reconciled`.
- `Issue395`: the suite's scenarios, each stated over the snapshot its test
  builds and any plan reconciled from it.

Go maps iterate in an unspecified order. The re-dispatch requests are
therefore fixed only up to order: the right members, each exactly once.

Where the suite disagrees with itself, the model follows the fixed behaviour.
The first subtest, at `tests/issue395_test.go:193`, asserts that the plan for
a stuck execution on a reconnected node is empty. That assertion documents the
defect. The acceptance test at `tests/issue395_test.go:565-596`, which is
skipped, requires some corrective action. The model takes the action
described above: a re-dispatch evaluation and nothing else. This satisfies
every other assertion of the suite, for example `:221-222`, `:306` and `:440`.

## Model

| member | source | states |
|---|---|---|
| Builders.NodeRanks | tests/issue395_test.go:85-97 | A nil ID list gives nil. Otherwise the result has the same length and order as the IDs, and every entry is at rank 1. |
| Builders.BuildNodeRanks | tests/issue395_test.go:85-97 | The appending loop returns exactly `NodeRanks` of its input. |
| Builders.NodeInfos | tests/issue395_test.go:99-113 | A nil state map gives nil. Otherwise the result has the same key set, and each record carries its key as ID and the reported state of that key. |
| Builders.BuildNodeInfosWithStates | tests/issue395_test.go:99-113 | The map-filling loop returns exactly `NodeInfos` of its input. |
| Builders.ExecSet | tests/issue395_test.go:66-69 | The key set is the set of the executions' IDs. Each stored execution is one of the inputs and sits under its own ID. |
| Builders.ExecSetKeepsLast | tests/issue395_test.go:66-69 | An execution that no later one shadows is the one stored under its ID, since a later execution with the same ID overwrites. |
| Builders.BuildExecSet | tests/issue395_test.go:66-69 | The keyed-insertion loop returns exactly `ExecSet` of its input. |
| Decisions.Classify | tests/issue395_test.go:532-535 | A node absent from the node-info map is Lost. A present node has the state it reports. |
| Decisions.Decide | tests/issue395_test.go:451-555 | Each action holds exactly when its condition holds. Cancel exactly when the execution is outdated, that is, a Pending execution of an older job version. Fail exactly when it awaits dispatch on an unreachable node (Lost, or Disconnected for a Query job). Re-dispatch exactly when it awaits dispatch on a Connected node past the timeout and the limiter allows it. Another job's execution gets no action. |
| Decisions.PostState | tests/issue395_test.go:346-353 | After the pass the state is Cancelled, Failed or unchanged. It is terminal exactly when it already was or the execution is cancelled or failed. |
| Planning.UpdatesFor | tests/issue395_test.go:451-555 | An execution is updated exactly when it is outdated or awaits dispatch on an unreachable node. Every update starts from a non-terminal state and is stamped with the clock. It is Cancelled for an outdated execution and Failed otherwise. |
| Planning.RedispatchFor | tests/issue395_test.go:565-596 | Exactly the stuck executions (pending past the timeout on a Connected node, with the limiter allowing) are re-dispatched. None of them is also updated, and each keeps its node. |
| Planning.Place | tests/issue395_test.go:364-391 | Each placement is a new Pending current-version execution on a candidate node outside the avoid set. Nodes are placed on at most once. Every non-avoided candidate is placed on. The result is empty exactly when every candidate is avoided. |
| Planning.PlanKeepsOneLiveExecutionPerNode | tests/issue395_test.go:277-306 | Once a plan applies, no node holds two live executions of the job's current version: the new ones are live, on distinct nodes, and never on a node whose execution stays live. |
| Planning.StuckPendingIsRedispatched | tests/issue395_test.go:565-596 | A stuck execution gets a Redispatch evaluation and no update, and no new execution is placed on its node. |
| Planning.AllStuckYieldsOnlyRedispatches | tests/issue395_test.go:196-223 | When every execution is stuck and every candidate node is occupied, the plan has no new and no updated execution, and exactly one re-dispatch request per execution. |
| Planning.IdleSnapshotYieldsEmptyPlan | tests/issue395_test.go:488-521 | When no execution calls for an action and every candidate node is occupied, the plan is empty. |
| Planning.PendingExecutionBlocksItsNode | tests/issue395_test.go:277-313 | A Pending current-version execution on a node that is not unreachable keeps that node from a new execution of the job. |
| Planning.OutdatedExecutionIsReplaced | tests/issue395_test.go:315-354 | An outdated execution is cancelled. When no other execution of the job holds its candidate node, a current-version execution is placed there in the same pass. |
| Planning.JobWithoutExecutionsPlacesEverywhere | tests/issue395_test.go:234-275 | A job none of whose executions is in the snapshot has no updates and no requests, and places on every candidate node. |
| Planning.PlaceIgnoresExecutions | tests/issue395_test.go:234-275 | Placement does not depend on the execution set. |
| Planning.ForeignExecutionsIgnored | tests/issue395_test.go:244-262 | Adding other jobs' executions to the snapshot changes none of the updates, re-dispatches, avoided nodes or placements: jobs are independent. |
| Reconciliation.Reconciler.constructor | tests/issue395_test.go:71-82 | The reconciler holds the snapshot it is given and an empty plan. |
| Reconciliation.Reconciler.ResolveExecution | tests/issue395_test.go:346-353 | Visiting one execution extends the updates and the re-dispatch requests exactly as `UpdatesFor` and `RedispatchRequests` prescribe for one more ID. |
| Reconciliation.Reconciler.ResolveExecutions | tests/issue395_test.go:170-187 | The loop over the execution set yields exactly `Updates(params)` and one re-dispatch request per stuck execution, in any order. |
| Reconciliation.Reconciler.NodesToAvoid | tests/issue395_test.go:228-231 | The loop yields exactly the nodes that hold a non-terminal execution of the job once the updates apply. |
| Reconciliation.Reconciler.PlaceExecutions | tests/issue395_test.go:364-391 | The loop over the ranked candidates yields exactly `Place` over the candidates and the avoided nodes. |
| Reconciliation.Reconciler.Reconcile | tests/issue395_test.go:170-187 | A snapshot with an empty job or evaluation ID is refused and the plan is left unchanged. Otherwise the call succeeds and the plan is the one `Reconciled` prescribes. |
| Issue395.PendingExecWithDesiredRunning | tests/issue395_test.go:117-124 | The execution awaits dispatch and was created ten minutes before the clock reading. |
| Issue395.RunningExec | tests/issue395_test.go:126-133 | The execution is live and no longer awaits dispatch. |
| Issue395.RunningExecHoldsItsNode | tests/issue395_test.go:126-133 | A running execution gets no action and keeps its node avoided. |
| Issue395.TestParams | tests/issue395_test.go:61-83 | The snapshot holds the given job, the executions keyed by their IDs (`ExecSet`), the builders' candidate list (`NodeRanks`) and node-info map (`NodeInfos`), an evaluation "test-eval" of the job triggered by a node joining, and the no-op rate limiter, which always allows. |
| Issue395.FailedCount | tests/issue395_test.go:479-484 | The number of updates that mark an execution Failed. It is at most the number of updates, and zero exactly when no update marks one Failed. |
| Issue395.OneStuckSnapshot | tests/issue395_test.go:151-168 | In the single-stuck snapshot the one execution is stuck and holds the only candidate node. |
| Issue395.ReconnectedStuckPendingIsRedispatched | tests/issue395_test.go:151-194 | The plan has exactly one evaluation, a Redispatch of the stuck execution, and no new or updated execution. The same snapshot is used at `:277-313`, `:403-442` and `:565-596`, so it also covers them: no placement, no update, a non-empty plan. |
| Issue395.TwoStuckSnapshot | tests/issue395_test.go:196-218 | In the two-node snapshot both executions are stuck and hold the two candidate nodes. |
| Issue395.MultipleStuckPendingAcrossNodes | tests/issue395_test.go:196-223 | No new or updated execution, and exactly two evaluations, one Redispatch per stuck execution. |
| Issue395.OtherJobsStuckExecutionDoesNotBlock | tests/issue395_test.go:234-275 | A new job places exactly one current-version execution on the reconnected node, even with another job's stuck execution there. It has no updates and no evaluations. |
| Issue395.VersionUpdateReplacesStuckPending | tests/issue395_test.go:315-354 | The version-1 execution is Cancelled, and exactly one version-2 execution is placed, on node0. |
| Issue395.DeployDuringUndetectedDisconnect | tests/issue395_test.go:364-401 | Exactly one new execution is placed on the node that looks Connected: Pending, desired Running, current version, created at the clock reading. |
| Issue395.OpsJobFailsPendingOnDisconnectedNode | tests/issue395_test.go:452-486 | A Query job's pending execution on a Disconnected node gets exactly one Failed update. |
| Issue395.DaemonJobToleratesDisconnectedNode | tests/issue395_test.go:488-521 | A Pipeline job's pending execution on a Disconnected node gets no Failed update, and the whole plan is empty. |
| Issue395.PendingOnLostNodeFails | tests/issue395_test.go:523-555 | A pending execution on a node missing from the node-info map gets exactly one Failed update, for any job type. |

## Left out

- The reconciler's own source, `newReconciler` and its `Reconcile`, is not part of this model. The pass is modelled from the assertions of the suite and the design it states in its comments.
- Rank sorting and replica counts: the suite always gives rank 1 and wants one execution per eligible node, so placement walks the candidates in the given order and places on every eligible one.
- The execution IDs that `types.NewExecution` generates are drawn from a generator the snapshot supplies (`newExecId`); UUID generation is not modelled, and neither is freshness: nothing requires the generated IDs to be distinct from each other or from the IDs already in the snapshot, and no stated property depends on it.
- The rate limiter is a boolean in the snapshot (`limiterAllows`). The suite's no-op limiter always allows, and its algorithm is not modelled.
- The clock is an integer reading in minutes; `time.Time`, the mock clock and `time.Duration` are not modelled.
- The stuck-pending timeout is a snapshot parameter; the suite gives no value, and its scenarios need only that it is below ten minutes.
- Evaluation IDs and priorities of the requested evaluations, the job's lifecycle state (`JobStateDeploying`) and the node fields other than ID and connection state are left out; no assertion reads them.
- The context, the metrics recorder, the test-suite plumbing and subtest skipping carry no decision and are not modelled.
- Dispatch over the transport, acknowledgement tracking and message loss happen outside the pass and are not modelled.
- Edge-side reconciliation on reconnect (`tests/issue395_test.go:598-608`) needs code that does not exist and is left out.
- The pre-fix assertion at `tests/issue395_test.go:193` (empty plan) is not modelled: it contradicts the acceptance test, which the model follows.
- Planning.AvoidSet: a node is avoided while it holds a non-terminal execution of the job, of any version, once the updates apply. An outdated Running execution is not cancelled, so it keeps its node. Avoiding only on current-version executions is not modelled.
- Issue395.OtherJobsStuckExecutionDoesNotBlock: the suite passes job B an empty execution set; the lemma puts job A's stuck execution into job B's snapshot as well, which `ForeignExecutionsIgnored` shows makes no difference.
- Decisions.Outdated: only Pending executions of an older version are cancelled, as the step name `cancelPendingOutdated` at `tests/issue395_test.go:341` says. An outdated Running execution gets no action and keeps its node. The suite shows only a pending one.
- Decisions.Classify and Planning.Candidates: a nil node-info map or a nil candidate list is treated like an empty one, so every node is Lost and there are no candidates. The suite never passes nil. The reconciler's possible lookup of data that was not preloaded (`PreloadedMatchingNodes`, `PreloadedNodeInfos` at `tests/issue395_test.go:80-81`) is not modelled.
- Planning.Place: the contracts fix the set of placed nodes and their distinctness, not their order. The definition and the loop walk the candidates in order.
- Failing a Running execution on a Lost node is not modelled; only pending work awaiting dispatch is failed, which is all the suite asserts.
