/** The store's transactions, one run at a time (src/rath/runtime/sqlite.py).
    A `Record` gathers every row that belongs to one run; a transaction either
    fails and leaves the record alone or yields the record it commits. */
module Records {
  import opened Models

  datatype Record = Record(
    run: Run,
    fingerprint: Fingerprint,
    lease: Option<Lease>,
    checkpoints: seq<Checkpoint>,
    interrupts: map<InterruptId, Interrupt>,
    events: seq<Event>)

  type Db = map<RunId, Record>

  /** MAX(sequence) over the checkpoint rows, 0 if there are none. */
  function LatestSequence(rows: seq<Checkpoint>): nat {
    if rows == [] then 0
    else
      var rest := LatestSequence(rows[..|rows| - 1]);
      var last := rows[|rows| - 1].sequence;
      if last > rest then last else rest
  }

  /** MAX(sequence) over the event rows, 0 if there are none. */
  function LastEvent(rows: seq<Event>): nat {
    if rows == [] then 0
    else
      var rest := LastEvent(rows[..|rows| - 1]);
      var last := rows[|rows| - 1].sequence;
      if last > rest then last else rest
  }

  function AppendEvent(events: seq<Event>, kind: EventKind): seq<Event> {
    events + [Event(LastEvent(events) + 1, kind)]
  }

  predicate LeaseHeld(lease: Option<Lease>, worker: WorkerId, token: nat, now: Time) {
    && lease.Some?
    && lease.value.active
    && lease.value.holder == worker
    && lease.value.token == token
    && now < lease.value.expiresAt
  }

  function Token(lease: Option<Lease>): nat {
    if lease.Some? then lease.value.token else 0
  }

  function Deactivate(lease: Option<Lease>): Option<Lease> {
    if lease.Some? then Some(lease.value.(active := false)) else None
  }

  function SetStatus(run: Run, target: RunStatus): Run {
    run.(status := target, version := run.version + 1)
  }

  function NewRecord(run: Run): Record {
    Record(run, FingerprintOf(run), None, [], map[], AppendEvent([], Created(run.status)))
  }

  function TransitionRun(
    rec: Record, expected: nat, target: RunStatus, state: Option<State>, next: Option<seq<NodeId>>
  ): Result<Record> {
    if rec.run.version != expected then Err(Conflict)
    else if !Allowed(rec.run.status, target) then Err(InvalidTransition(rec.run.status, target))
    else Ok(rec.(
        run := SetStatus(rec.run, target).(
          state := if state.Some? then state.value else rec.run.state,
          nextNodes := if next.Some? then next.value else rec.run.nextNodes),
        events := AppendEvent(rec.events, StateChanged(rec.run.status, target))))
  }

  function AppendRunEvent(rec: Record, kind: EventKind): Record {
    rec.(events := AppendEvent(rec.events, kind))
  }

  function CommitCheckpoint(
    rec: Record, ck: Checkpoint, worker: WorkerId, token: nat, expected: nat, now: Time
  ): Result<Record> {
    if !LeaseHeld(rec.lease, worker, token, now) then Err(Conflict)
    else if rec.run.version != expected then Err(Conflict)
    else if rec.run.status != Running then Err(Conflict)
    else if ck.sequence != LatestSequence(rec.checkpoints) + 1 then Err(Conflict)
    else Ok(rec.(
        checkpoints := rec.checkpoints + [ck],
        run := rec.run.(state := ck.state, nextNodes := ck.nextNodes, version := rec.run.version + 1),
        events := AppendEvent(rec.events, CheckpointCreated(ck.sequence))))
  }

  /** `failure` is the message of a failed execution; without one the event reports the target. */
  function FinishClaim(
    rec: Record, worker: WorkerId, token: nat, expected: nat, target: RunStatus, failure: Option<string>, now: Time
  ): Result<Record> {
    if !LeaseHeld(rec.lease, worker, token, now) then Err(Conflict)
    else if rec.run.version != expected then Err(Conflict)
    else if !Allowed(rec.run.status, target) then Err(InvalidTransition(rec.run.status, target))
    else Ok(rec.(
        run := SetStatus(rec.run, target),
        lease := Deactivate(rec.lease),
        events := AppendEvent(rec.events,
          if failure.Some? then ExecutionFailed(failure.value) else ExecutionCompleted(target))))
  }

  function CreateInterrupt(rec: Record, id: InterruptId, ask: Interrupt, expected: nat): Result<Record> {
    if rec.run.version != expected then Err(Conflict)
    else if !Allowed(rec.run.status, Waiting) then Err(InvalidTransition(rec.run.status, Waiting))
    else if id in rec.interrupts then Err(Integrity)
    else Ok(rec.(
        interrupts := rec.interrupts[id := ask],
        run := SetStatus(rec.run, Waiting),
        lease := Deactivate(rec.lease),
        events := AppendEvent(rec.events, InterruptCreated(id))))
  }

  function DecideInterrupt(rec: Record, id: InterruptId, decision: Decision, expected: nat): Result<Record> {
    if id !in rec.interrupts then Err(NotFound)
    else if rec.interrupts[id].decision.Some? then Err(Conflict)
    else if rec.run.version != expected then Err(Conflict)
    else if !Allowed(rec.run.status, Queued) then Err(InvalidTransition(rec.run.status, Queued))
    else Ok(rec.(
        interrupts := rec.interrupts[id := rec.interrupts[id].(decision := Some(decision))],
        run := SetStatus(rec.run, Queued),
        events := AppendEvent(rec.events, InterruptDecided(id, decision.kind))))
  }

  function Expired(): Decision {
    Decision(Reject, "openrath-system", "interrupt deadline expired", "{}")
  }

  predicate Overdue(ask: Interrupt, now: Time) {
    ask.decision.None? && ask.expiresAt.Some? && ask.expiresAt.value <= now
  }

  /** One row of an `expire_interrupts` batch: the interrupt is decided, and a waiting run times out. */
  function ExpireInterrupt(rec: Record, id: InterruptId): Record
    requires id in rec.interrupts
  {
    var decided := rec.(interrupts := rec.interrupts[id := rec.interrupts[id].(decision := Some(Expired()))]);
    if rec.run.status != Waiting then decided
    else decided.(
        run := SetStatus(rec.run, TimedOut),
        events := AppendEvent(rec.events, InterruptExpired(id)))
  }

  /** The whole batch as it acts on one run that has at most one pending interrupt. */
  ghost function ExpireRecord(rec: Record, now: Time): Record {
    if exists id :: id in rec.interrupts && Overdue(rec.interrupts[id], now) then
      var id :| id in rec.interrupts && Overdue(rec.interrupts[id], now);
      ExpireInterrupt(rec, id)
    else rec
  }

  function ClaimRun(rec: Record, worker: WorkerId, now: Time, leaseSeconds: nat): Record {
    var token := Token(rec.lease) + 1;
    rec.(
      run := SetStatus(rec.run, Running),
      lease := Some(Lease(worker, now + leaseSeconds, token, true)),
      events := AppendEvent(rec.events, Claimed(worker, token)))
  }

  /** `clock` is the reading the lease check takes, `now` the caller's. */
  function RenewLease(
    rec: Record, worker: WorkerId, token: nat, leaseSeconds: nat, now: Time, clock: Time
  ): Result<Record> {
    if !LeaseHeld(rec.lease, worker, token, clock) then Err(Conflict)
    else Ok(rec.(lease := Some(rec.lease.value.(expiresAt := now + leaseSeconds))))
  }

  predicate LeaseOverdue(lease: Option<Lease>, now: Time) {
    lease.Some? && lease.value.active && lease.value.expiresAt <= now
  }

  /** One row of a `requeue_expired_leases` batch. */
  function RequeueRecord(rec: Record, now: Time): Record {
    if !LeaseOverdue(rec.lease, now) then rec
    else if rec.run.status != Running then rec.(lease := Deactivate(rec.lease))
    else rec.(
        run := SetStatus(rec.run, Queued),
        lease := Deactivate(rec.lease),
        events := AppendEvent(rec.events, LeaseExpired(rec.lease.value.token)))
  }
}
