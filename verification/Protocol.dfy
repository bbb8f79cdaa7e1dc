/** The durable run protocol as a state machine.  Workers (src/rath/runtime/local.py)
    take many store steps per claim, interleave freely, crash, lose leases and are
    recovered; operators act on rows they read earlier; clock readings are arbitrary. */
module Protocol {
  import opened Models
  import opened Records
  import opened Sequential
  import opened RecordInvariant
  import Effects

  /** What a worker keeps of its claim: its lease and its local copy of the run. */
  datatype Claim = Claim(r: RunId, worker: WorkerId, token: nat, version: nat, state: State, next: seq<NodeId>)

  /** Where a worker is between two store accesses of `work_once`. */
  datatype Thread =
    | Idle
    | Looping(c: Claim)
    | Checked(c: Claim)
    | Handling(c: Claim, sequence: nat)
    | Asking(c: Claim, sequence: nat)
    | Answered(c: Claim, sequence: nat, decision: Decision)
    | Computed(c: Claim, sequence: nat, after: State, successors: seq<NodeId>)
    | Committing(c: Claim, sequence: nat, after: State, successors: seq<NodeId>, watermark: nat)
    | Failing(c: Claim)
    | Reporting(c: Claim, seen: nat)

  /** A status change requested on the strength of a row read earlier. */
  datatype Intent = Intent(seen: Run, target: RunStatus)

  datatype Sys = Sys(db: Db, ledger: Effects.Ledger, threads: map<nat, Thread>, intents: set<Intent>)

  type Registry = PlanId -> Program

  datatype Label =
    | Submit(run: Run)
    | ClaimNext(slot: nat, r: RunId, worker: WorkerId, now: Time, leaseSeconds: nat)
    | Renew(r: RunId, worker: WorkerId, token: nat, leaseSeconds: nat, now: Time, clock: Time)
    | Requeue(now: Time, rows: set<RunId>)
    | Expire(now: Time, rows: set<RunId>)
    | Decide(r: RunId, id: InterruptId, decision: Decision, expected: nat)
    | Observe(intent: Intent)
    | Apply(intent: Intent)
    | LogAttempt(r: RunId, nodeId: NodeId, attempt: nat)
    | Effect(action: Effects.Action, now: Time, ledger: Effects.Ledger)
    | CheckRun(slot: nat)
    | ReadCheckpoint(slot: nat)
    | CallHandler(slot: nat, found: InterruptId)
    | CreateAsk(slot: nat, id: InterruptId, createdAt: Time)
    | ResumeHandler(slot: nat)
    | Retry(slot: nat)
    | ReadWatermark(slot: nat)
    | Commit(slot: nat, now: Time)
    | Finish(slot: nat, now: Time)
    | Raise(slot: nat)
    | ReadFailed(slot: nat)
    | Report(slot: nat, target: RunStatus, message: string, now: Time)
    | Stop(slot: nat)

  // ---------------------------------------------------------------- steps

  function ThreadAt(s: Sys, slot: nat): Thread {
    if slot in s.threads then s.threads[slot] else Idle
  }

  function Goto(s: Sys, slot: nat, th: Thread): Sys {
    s.(threads := s.threads[slot := th])
  }

  function Put(s: Sys, r: RunId, rec: Record): Sys {
    s.(db := s.db[r := rec])
  }

  predicate SameSession(a: Run, b: Run) {
    a.sessionId == b.sessionId && !Terminal(a.status) && !Terminal(b.status)
  }

  predicate SameRequest(a: Run, b: Run) {
    a.tenantId == b.tenantId && a.idempotencyKey.Some? && a.idempotencyKey == b.idempotencyKey
  }

  /** create_run inserts unless the id, the idempotency key or the session is taken. */
  ghost predicate Insertable(db: Db, run: Run) {
    && run.id !in db
    && (forall r :: r in db ==> !SameRequest(run, db[r].run))
    && (forall r :: r in db ==> !SameSession(run, db[r].run))
  }

  ghost function DoSubmit(s: Sys, run: Run): Sys {
    if run.status == Queued && run.version == 0 && Insertable(s.db, run) then Put(s, run.id, NewRecord(run)) else s
  }

  function DoClaim(s: Sys, slot: nat, r: RunId, worker: WorkerId, now: Time, leaseSeconds: nat): Sys {
    if ThreadAt(s, slot).Idle? && r in s.db && s.db[r].run.status == Queued then
      var rec := ClaimRun(s.db[r], worker, now, leaseSeconds);
      Goto(Put(s, r, rec), slot,
           Looping(Claim(r, worker, Token(rec.lease), rec.run.version, rec.run.state, rec.run.nextNodes)))
    else s
  }

  function DoRenew(s: Sys, r: RunId, worker: WorkerId, token: nat, leaseSeconds: nat, now: Time, clock: Time): Sys {
    if r !in s.db then s
    else match RenewLease(s.db[r], worker, token, leaseSeconds, now, clock)
      case Ok(rec) => Put(s, r, rec)
      case Err(_) => s
  }

  /** `rows` is what the batch gets to see: every run in SQLite, the unlocked ones in Postgres. */
  function RequeueAll(db: Db, now: Time, rows: set<RunId>): Db {
    map r | r in db :: if r in rows then RequeueRecord(db[r], now) else db[r]
  }

  ghost function ExpireAll(db: Db, now: Time, rows: set<RunId>): Db {
    map r | r in db :: if r in rows then ExpireRecord(db[r], now) else db[r]
  }

  function DoDecide(s: Sys, r: RunId, id: InterruptId, decision: Decision, expected: nat): Sys {
    if r !in s.db then s
    else match DecideInterrupt(s.db[r], id, decision, expected)
      case Ok(rec) => Put(s, r, rec)
      case Err(_) => s
  }

  /** cancel, resume (only a row read in review) and the reconciler (only a row read running). */
  predicate Requestable(seen: Run, target: RunStatus) {
    || target == Cancelled
    || (target == Queued && seen.status == NeedsReview)
    || (target == NeedsReview && seen.status == Running)
  }

  function DoObserve(s: Sys, intent: Intent): Sys {
    if intent.seen.id in s.db && s.db[intent.seen.id].run == intent.seen && Requestable(intent.seen, intent.target)
    then s.(intents := s.intents + {intent}) else s
  }

  function DoApply(s: Sys, intent: Intent): Sys {
    if intent !in s.intents || intent.seen.id !in s.db then s
    else match TransitionRun(s.db[intent.seen.id], intent.seen.version, intent.target, None, None)
      case Ok(rec) => Put(s, intent.seen.id, rec)
      case Err(_) => s
  }

  function DoLog(s: Sys, r: RunId, nodeId: NodeId, attempt: nat): Sys {
    if r in s.db then Put(s, r, AppendRunEvent(s.db[r], AttemptFailed(nodeId, attempt))) else s
  }

  ghost function DoEffect(s: Sys, action: Effects.Action, now: Time, ledger: Effects.Ledger): Sys {
    if Effects.Transacts(s.ledger, action, now, ledger) then s.(ledger := ledger) else s
  }

  /** The head of the loop: stop on a terminal row, give up on a changed one. */
  function DoCheck(s: Sys, slot: nat): Sys {
    match ThreadAt(s, slot)
    case Looping(c) =>
      if c.next == [] || c.r !in s.db then s
      else if Terminal(s.db[c.r].run.status) then Goto(s, slot, Idle)
      else if s.db[c.r].run.version != c.version then Goto(s, slot, Failing(c))
      else Goto(s, slot, Checked(c))
    case _ => s
  }

  function DoReadCheckpoint(s: Sys, slot: nat): Sys {
    match ThreadAt(s, slot)
    case Checked(c) =>
      if c.r !in s.db then s else Goto(s, slot, Handling(c, LatestSequence(s.db[c.r].checkpoints) + 1))
    case _ => s
  }

  predicate Matches(ask: Interrupt, nodeId: NodeId, sequence: nat) {
    ask.nodeId == nodeId && ask.checkpointSequence == sequence
  }

  /** A node's output becomes a checkpoint to commit, or a new local position. */
  function Settle(p: Program, c: Claim, sequence: nat, out: Output): Thread
    requires c.next != [] && c.next[0] in p.nodes
  {
    match Interpret(p, c.next[0], c.state, out)
    case None => Failing(c)
    case Some((after, successors)) =>
      if p.nodes[c.next[0]].checkpoint || successors == [] then Computed(c, sequence, after, successors)
      else Looping(c.(state := after, next := successors))
  }

  /** The handler runs; if it asks, the interrupts are listed and searched for this node and
      checkpoint.  `found` is the interrupt the search meets first. */
  ghost function AfterCall(p: Program, rec: Record, c: Claim, sequence: nat, found: InterruptId): Thread {
    if c.next == [] || c.next[0] !in p.nodes then Failing(c)
    else
      var id := c.next[0];
      if p.nodes[id].kind.RouterNode? then Settle(p, c, sequence, p.route(id, c.state))
      else match p.call(id, c.state)
        case Returns(out) => Settle(p, c, sequence, out)
        case Asks(_, _, _) =>
          if Unasked(rec.interrupts, id, sequence) then Asking(c, sequence)
          else if found in rec.interrupts && Matches(rec.interrupts[found], id, sequence) then
            match rec.interrupts[found].decision
            case Some(decision) => Answered(c, sequence, decision)
            case None => Idle
          else Handling(c, sequence)
  }

  ghost function DoCall(env: Registry, s: Sys, slot: nat, found: InterruptId): Sys {
    match ThreadAt(s, slot)
    case Handling(c, sequence) =>
      if c.r !in s.db then s
      else Goto(s, slot, AfterCall(env(s.db[c.r].run.planId), s.db[c.r], c, sequence, found))
    case _ => s
  }

  /** The interrupt a handler asks for, created at this time. */
  function AskOf(p: Program, c: Claim, sequence: nat, createdAt: Time): Interrupt
    requires c.next != []
  {
    match p.call(c.next[0], c.state)
    case Asks(kind, request, timeout) =>
      Interrupt(c.r, kind, request, c.next[0], sequence, if timeout.Some? then Some(createdAt + timeout.value) else None, None)
    case Returns(_) => Interrupt(c.r, Approval, "", c.next[0], sequence, None, None)
  }

  /** The insert is guarded by the version the worker knows.  If it is refused, the error surfaces
      in the step executor, which calls the handler again or lets it escape. */
  function DoCreateAsk(env: Registry, s: Sys, slot: nat, id: InterruptId, createdAt: Time): Sys {
    match ThreadAt(s, slot)
    case Asking(c, sequence) =>
      if c.r !in s.db || c.next == [] then s
      else
        (match CreateInterrupt(s.db[c.r], id, AskOf(env(s.db[c.r].run.planId), c, sequence, createdAt), c.version)
         case Ok(rec) => Goto(Put(s, c.r, rec), slot, Idle)
         case Err(_) => Goto(s, slot, Handling(c, sequence)))
    case _ => s
  }

  function DoResume(env: Registry, s: Sys, slot: nat): Sys {
    match ThreadAt(s, slot)
    case Answered(c, sequence, decision) =>
      if c.r !in s.db || c.next == [] || c.next[0] !in env(s.db[c.r].run.planId).nodes then s
      else
        var p := env(s.db[c.r].run.planId);
        Goto(s, slot, Settle(p, c, sequence, p.resume(c.next[0], c.state, decision)))
    case _ => s
  }

  /** Another attempt: an exception inside the handler is caught by the step executor, which calls
      the handler again with the same, possibly stale, claim. */
  function DoRetry(s: Sys, slot: nat): Sys {
    match ThreadAt(s, slot)
    case Handling(c, sequence) => s
    case Asking(c, sequence) => Goto(s, slot, Handling(c, sequence))
    case Answered(c, sequence, _) => Goto(s, slot, Handling(c, sequence))
    case _ => s
  }

  ghost function DoReadWatermark(s: Sys, slot: nat): Sys {
    match ThreadAt(s, slot)
    case Computed(c, sequence, after, successors) =>
      Goto(s, slot, Committing(c, sequence, after, successors, Effects.Watermark(s.ledger, c.r)))
    case _ => s
  }

  function DoCommit(env: Registry, s: Sys, slot: nat, now: Time): Sys {
    match ThreadAt(s, slot)
    case Committing(c, sequence, after, successors, watermark) =>
      if c.r !in s.db then s
      else
        var ck := Checkpoint(sequence, env(s.db[c.r].run.planId).hash, after, successors, watermark);
        (match CommitCheckpoint(s.db[c.r], ck, c.worker, c.token, c.version, now)
         case Ok(rec) =>
           Goto(Put(s, c.r, rec), slot, Looping(c.(version := rec.run.version, state := rec.run.state, next := rec.run.nextNodes)))
         case Err(_) => Goto(s, slot, Failing(c)))
    case _ => s
  }

  function DoFinish(s: Sys, slot: nat, now: Time): Sys {
    match ThreadAt(s, slot)
    case Looping(c) =>
      if c.r !in s.db || c.next != [] then s
      else
        (match FinishClaim(s.db[c.r], c.worker, c.token, c.version, Succeeded, None, now)
         case Ok(rec) => Goto(Put(s, c.r, rec), slot, Idle)
         case Err(_) => Goto(s, slot, Failing(c)))
    case _ => s
  }

  /** An exception anywhere in the claim. */
  function DoRaise(s: Sys, slot: nat): Sys {
    var th := ThreadAt(s, slot);
    if th.Idle? || th.Reporting? then s else Goto(s, slot, Failing(th.c))
  }

  function DoReadFailed(s: Sys, slot: nat): Sys {
    match ThreadAt(s, slot)
    case Failing(c) =>
      if c.r !in s.db then s
      else if Terminal(s.db[c.r].run.status) then Goto(s, slot, Idle)
      else Goto(s, slot, Reporting(c, s.db[c.r].run.version))
    case _ => s
  }

  function DoReport(s: Sys, slot: nat, target: RunStatus, message: string, now: Time): Sys {
    match ThreadAt(s, slot)
    case Reporting(c, seen) =>
      if c.r !in s.db || !(target == Failed || target == TimedOut) then s
      else
        (match FinishClaim(s.db[c.r], c.worker, c.token, seen, target, Some(message), now)
         case Ok(rec) => Goto(Put(s, c.r, rec), slot, Idle)
         case Err(_) => Goto(s, slot, Idle))
    case _ => s
  }

  /** The successor under a label; a label that is not enabled changes nothing. */
  ghost function Next(env: Registry, s: Sys, l: Label): Sys {
    match l
    case Submit(run) => DoSubmit(s, run)
    case ClaimNext(slot, r, worker, now, leaseSeconds) => DoClaim(s, slot, r, worker, now, leaseSeconds)
    case Renew(r, worker, token, leaseSeconds, now, clock) => DoRenew(s, r, worker, token, leaseSeconds, now, clock)
    case Requeue(now, rows) => s.(db := RequeueAll(s.db, now, rows))
    case Expire(now, rows) => s.(db := ExpireAll(s.db, now, rows))
    case Decide(r, id, decision, expected) => DoDecide(s, r, id, decision, expected)
    case Observe(intent) => DoObserve(s, intent)
    case Apply(intent) => DoApply(s, intent)
    case LogAttempt(r, nodeId, attempt) => DoLog(s, r, nodeId, attempt)
    case Effect(action, now, ledger) => DoEffect(s, action, now, ledger)
    case CheckRun(slot) => DoCheck(s, slot)
    case ReadCheckpoint(slot) => DoReadCheckpoint(s, slot)
    case CallHandler(slot, found) => DoCall(env, s, slot, found)
    case CreateAsk(slot, id, createdAt) => DoCreateAsk(env, s, slot, id, createdAt)
    case ResumeHandler(slot) => DoResume(env, s, slot)
    case Retry(slot) => DoRetry(s, slot)
    case ReadWatermark(slot) => DoReadWatermark(s, slot)
    case Commit(slot, now) => DoCommit(env, s, slot, now)
    case Finish(slot, now) => DoFinish(s, slot, now)
    case Raise(slot) => DoRaise(s, slot)
    case ReadFailed(slot) => DoReadFailed(s, slot)
    case Report(slot, target, message, now) => DoReport(s, slot, target, message, now)
    case Stop(slot) => Goto(s, slot, Idle)
  }

  // ---------------------------------------------------------------- invariant

  /** What a worker may rely on while the row still has the version it knows. */
  ghost predicate Current(p: Program, rec: Record, th: Thread)
    requires !th.Idle?
  {
    && rec.run.status == Running
    && rec.lease.Some? && rec.lease.value.token == th.c.token && rec.lease.value.holder == th.c.worker
    && UniqueAsks(rec.interrupts)
    && Placed(p, rec, th)
  }

  /** The worker's local position lies on the sequential trace, between the latest checkpoint and the next. */
  ghost predicate Placed(p: Program, rec: Record, th: Thread)
    requires !th.Idle? && UniqueAsks(rec.interrupts)
  {
    var c := th.c;
    var n := |rec.checkpoints|;
    var here := Config(n, c.state, c.next);
    var d := DecisionsOf(rec.interrupts);
    && Reaches(p, d, Base(rec, n), here)
    && (c.next == [] ==> c.state == rec.run.state && rec.run.nextNodes == [])
    && match th
       case Handling(_, sequence) => sequence == n + 1
       case Asking(_, sequence) => sequence == n + 1 && c.next != [] && Unasked(rec.interrupts, c.next[0], n + 1)
       case Answered(_, sequence, decision) =>
         && sequence == n + 1 && c.next != [] && c.next[0] in p.nodes
         && p.nodes[c.next[0]].kind.StepNode? && p.call(c.next[0], c.state).Asks?
         && (c.next[0], n + 1) in d && d[(c.next[0], n + 1)] == decision
       case Computed(_, sequence, after, successors) =>
         sequence == n + 1 && Step(p, d, here) == Some(Config(n + 1, after, successors))
       case Committing(_, sequence, after, successors, watermark) =>
         && sequence == n + 1 && Step(p, d, here) == Some(Config(n + 1, after, successors))
         && (forall k :: 0 <= k < n ==> rec.checkpoints[k].watermark <= watermark)
       case _ => true
  }

  /** The local next nodes resolve whenever the submitted ones do. */
  ghost predicate Lookups(p: Program, submitted: seq<NodeId>, next: seq<NodeId>) {
    Closed(p) && Resolvable(p, submitted) ==> Resolvable(p, next)
  }

  /** The decision handed to a handler is one that is recorded for its node and checkpoint. */
  ghost predicate Heard(m: map<InterruptId, Interrupt>, th: Thread) {
    th.Answered? ==>
      && th.c.next != []
      && exists i :: i in m && Matches(m[i], th.c.next[0], th.sequence) && m[i].decision == Some(th.decision)
  }

  /** Holds of current and stale workers alike; `Current` is for the former. */
  ghost predicate ThreadInv(env: Registry, db: Db, ledger: Effects.Ledger, th: Thread) {
    th.Idle? ||
    (&& th.c.r in db
     && th.c.version <= db[th.c.r].run.version
     && th.c.token <= Token(db[th.c.r].lease)
     && (th.Committing? ==> th.watermark <= Effects.Watermark(ledger, th.c.r))
     && Lookups(env(db[th.c.r].run.planId), db[th.c.r].fingerprint.nextNodes, th.c.next)
     && Heard(db[th.c.r].interrupts, th)
     && (th.c.version == db[th.c.r].run.version ==> Current(env(db[th.c.r].run.planId), db[th.c.r], th)))
  }

  /** A row read earlier is still the row if the version is still the version. */
  ghost predicate IntentInv(db: Db, intent: Intent) {
    && intent.seen.id in db
    && intent.seen.version <= db[intent.seen.id].run.version
    && (intent.seen.version == db[intent.seen.id].run.version ==> db[intent.seen.id].run == intent.seen)
    && Requestable(intent.seen, intent.target)
  }

  /** At most one live run per session, at most one run per tenant and idempotency key. */
  ghost predicate Exclusive(db: Db) {
    && (forall q, r :: q in db && r in db && SameSession(db[q].run, db[r].run) ==> q == r)
    && (forall q, r :: q in db && r in db && SameRequest(db[q].run, db[r].run) ==> q == r)
  }

  ghost predicate RecordsInv(env: Registry, db: Db, ledger: Effects.Ledger) {
    forall r :: r in db ==> db[r].run.id == r && RecInv(env(db[r].run.planId), Effects.Watermark(ledger, r), db[r])
  }

  ghost predicate Inv(env: Registry, s: Sys) {
    && RecordsInv(env, s.db, s.ledger)
    && Exclusive(s.db)
    && Effects.WellFormed(s.ledger)
    && (forall slot :: slot in s.threads ==> ThreadInv(env, s.db, s.ledger, s.threads[slot]))
    && (forall intent :: intent in s.intents ==> IntentInv(s.db, intent))
  }

  predicate Init(s: Sys) {
    s.db == map[] && s.ledger == map[] && s.threads == map[] && s.intents == {}
  }
}
