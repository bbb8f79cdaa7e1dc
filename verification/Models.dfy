/** Durable run, lease, checkpoint, interrupt and event values, and the status
    transition table (src/rath/runtime/models.py).  Identifiers are natural
    numbers, JSON documents are opaque texts, clock readings are integers. */
module Models {
  datatype Option<+T> = None | Some(value: T)

  datatype Error =
    | Conflict
    | InvalidTransition(source: RunStatus, target: RunStatus)
    | NotFound
    | InvalidArgument
    | Integrity
    | ToolFailed

  datatype Result<+T> = Ok(value: T) | Err(error: Error)

  type RunId = nat
  type InterruptId = nat
  type PlanId = nat
  type SessionId = nat
  type TenantId = string
  type WorkerId = string
  type NodeId = string
  type State = string
  type Time = int

  datatype RunStatus =
    Queued | Running | Waiting | Succeeded | Failed | Cancelled | TimedOut | NeedsReview

  predicate Terminal(s: RunStatus) {
    s in {Succeeded, Failed, Cancelled, TimedOut}
  }

  /** The transition table. */
  function Targets(s: RunStatus): set<RunStatus> {
    match s
    case Queued => {Running, Cancelled, TimedOut}
    case Running => {Queued, Waiting, Succeeded, Failed, Cancelled, TimedOut, NeedsReview}
    case Waiting => {Queued, Cancelled, TimedOut, Failed}
    case NeedsReview => {Queued, Failed, Cancelled}
    case Succeeded => {}
    case Failed => {}
    case Cancelled => {}
    case TimedOut => {}
  }

  predicate Allowed(source: RunStatus, target: RunStatus) {
    target in Targets(source)
  }

  /** The same table read the other way: what may become this status. */
  function SourcesOf(target: RunStatus): set<RunStatus> {
    match target
    case Running => {Queued}
    case Waiting => {Running}
    case Succeeded => {Running}
    case NeedsReview => {Running}
    case Queued => {Running, Waiting, NeedsReview}
    case TimedOut => {Queued, Running, Waiting}
    case Failed => {Running, Waiting, NeedsReview}
    case Cancelled => {Queued, Running, Waiting, NeedsReview}
  }

  /** The table: a run is claimed from the queue only; it parks, succeeds and goes to review from
      running only; anything live can be cancelled; nothing terminal changes. */
  lemma TableBothWays(source: RunStatus, target: RunStatus)
    ensures Allowed(source, target) <==> source in SourcesOf(target)
    ensures Terminal(source) <==> forall t :: !Allowed(source, t)
  {
    assert !Terminal(source) ==> Allowed(source, Cancelled);
  }

  datatype Run = Run(
    id: RunId,
    planId: PlanId,
    revisionId: nat,
    sessionId: SessionId,
    tenantId: TenantId,
    status: RunStatus,
    state: State,
    nextNodes: seq<NodeId>,
    createdAt: Time,
    version: nat,
    idempotencyKey: Option<string>,
    priority: int)

  /** What the request hash covers; the hash itself is taken to be injective. */
  datatype Fingerprint = Fingerprint(
    planId: PlanId,
    revisionId: nat,
    sessionId: SessionId,
    tenantId: TenantId,
    state: State,
    nextNodes: seq<NodeId>,
    priority: int)

  function FingerprintOf(run: Run): Fingerprint {
    Fingerprint(run.planId, run.revisionId, run.sessionId, run.tenantId, run.state, run.nextNodes, run.priority)
  }

  datatype Lease = Lease(holder: WorkerId, expiresAt: Time, token: nat, active: bool)

  datatype Checkpoint = Checkpoint(
    sequence: nat, planHash: string, state: State, nextNodes: seq<NodeId>, watermark: nat)

  datatype InterruptKind = Approval | Input | Review

  datatype DecisionKind = Approve | Edit | Reject | Respond

  datatype Decision = Decision(kind: DecisionKind, actor: string, reason: string, payload: string)

  /** `nodeId` and `checkpointSequence` are the two keys the runtime adds to the request. */
  datatype Interrupt = Interrupt(
    runId: RunId,
    kind: InterruptKind,
    request: string,
    nodeId: NodeId,
    checkpointSequence: nat,
    expiresAt: Option<Time>,
    decision: Option<Decision>)

  datatype EventKind =
    | Created(status: RunStatus)
    | StateChanged(source: RunStatus, target: RunStatus)
    | CheckpointCreated(checkpoint: nat)
    | ExecutionCompleted(result: RunStatus)
    | ExecutionFailed(message: string)
    | InterruptCreated(created: InterruptId)
    | InterruptExpired(expired: InterruptId)
    | InterruptDecided(decided: InterruptId, answer: DecisionKind)
    | Claimed(worker: WorkerId, token: nat)
    | LeaseExpired(lost: nat)
    | AttemptFailed(nodeId: NodeId, attempt: nat)

  datatype Event = Event(sequence: nat, kind: EventKind)
}
