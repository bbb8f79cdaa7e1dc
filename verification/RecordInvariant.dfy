/** What every store transaction keeps about the rows of one run, and how a
    record may evolve.  Each lemma below takes one transaction as its callers use it. */
module RecordInvariant {
  import opened Models
  import opened Records
  import opened Sequential

  // ---------------------------------------------------------------- rows

  /** Checkpoint sequences are 1, 2, ..., n. */
  ghost predicate Numbered(rows: seq<Checkpoint>) {
    forall k :: 0 <= k < |rows| ==> rows[k].sequence == k + 1
  }

  /** Event sequences are 1, 2, ..., n. */
  ghost predicate NumberedEvents(rows: seq<Event>) {
    forall k :: 0 <= k < |rows| ==> rows[k].sequence == k + 1
  }

  lemma {:induction false} LatestIsLength(rows: seq<Checkpoint>)
    requires Numbered(rows)
    ensures LatestSequence(rows) == |rows|
  {
    if rows != [] {
      LatestIsLength(rows[..|rows| - 1]);
    }
  }

  lemma {:induction false} LastIsLength(rows: seq<Event>)
    requires NumberedEvents(rows)
    ensures LastEvent(rows) == |rows|
  {
    if rows != [] {
      LastIsLength(rows[..|rows| - 1]);
    }
  }

  /** The configuration a run resumes from after k checkpoints: the submitted one if k is 0. */
  function Base(rec: Record, k: nat): Config
    requires k <= |rec.checkpoints|
  {
    if k == 0 then Config(0, rec.fingerprint.state, rec.fingerprint.nextNodes)
    else Config(k, rec.checkpoints[k - 1].state, rec.checkpoints[k - 1].nextNodes)
  }

  /** Sequences without gaps, and the run row holds its latest checkpoint. */
  ghost predicate Rows(rec: Record) {
    && Numbered(rec.checkpoints)
    && NumberedEvents(rec.events)
    && Base(rec, |rec.checkpoints|) == Config(|rec.checkpoints|, rec.run.state, rec.run.nextNodes)
    && rec.fingerprint.planId == rec.run.planId
    && rec.fingerprint.sessionId == rec.run.sessionId
  }

  /** A running run has an active lease row; a succeeded run has nothing left to do. */
  predicate Holding(rec: Record) {
    && (rec.run.status == Running ==> rec.lease.Some? && rec.lease.value.active)
    && (rec.lease.Some? ==> 1 <= rec.lease.value.token)
    && (rec.run.status == Succeeded ==> rec.run.nextNodes == [])
  }

  // ---------------------------------------------------------------- interrupts

  ghost predicate UniqueAsks(m: map<InterruptId, Interrupt>) {
    forall i, j :: i in m && j in m && m[i].nodeId == m[j].nodeId && m[i].checkpointSequence == m[j].checkpointSequence
      ==> i == j
  }

  ghost predicate OnePending(m: map<InterruptId, Interrupt>) {
    forall i, j :: i in m && j in m && m[i].decision.None? && m[j].decision.None? ==> i == j
  }

  ghost predicate HasPending(m: map<InterruptId, Interrupt>) {
    exists i :: i in m && m[i].decision.None?
  }

  /** A live run waits exactly when it has a pending interrupt, and there is never a second one. */
  ghost predicate Waits(rec: Record) {
    && UniqueAsks(rec.interrupts)
    && OnePending(rec.interrupts)
    && (!Terminal(rec.run.status) ==> (rec.run.status == Waiting <==> HasPending(rec.interrupts)))
  }

  ghost function DecisionsOf(m: map<InterruptId, Interrupt>): Decisions
    requires UniqueAsks(m)
  {
    map i | i in m && m[i].decision.Some? :: (m[i].nodeId, m[i].checkpointSequence) := m[i].decision.value
  }

  predicate AskEvolves(a: Interrupt, b: Interrupt) {
    && b == a.(decision := b.decision)
    && (a.decision.Some? ==> b.decision == a.decision)
  }

  /** Interrupts are never removed, and a decision is written once. */
  ghost predicate AsksEvolve(m: map<InterruptId, Interrupt>, m': map<InterruptId, Interrupt>) {
    forall i :: i in m ==> i in m' && AskEvolves(m[i], m'[i])
  }

  lemma DecisionsGrow(m: map<InterruptId, Interrupt>, m': map<InterruptId, Interrupt>)
    requires UniqueAsks(m) && UniqueAsks(m') && AsksEvolve(m, m')
    ensures forall k :: k in DecisionsOf(m) ==> k in DecisionsOf(m') && DecisionsOf(m')[k] == DecisionsOf(m)[k]
  {
    forall k | k in DecisionsOf(m)
      ensures k in DecisionsOf(m') && DecisionsOf(m')[k] == DecisionsOf(m)[k]
    {
      var i :| i in m && m[i].decision.Some? && k == (m[i].nodeId, m[i].checkpointSequence);
      assert AskEvolves(m[i], m'[i]);
    }
  }

  // ---------------------------------------------------------------- event log

  /** `failed` and `timed_out` leave the same trace in the log. */
  function Blur(s: RunStatus): RunStatus {
    if s == TimedOut then Failed else s
  }

  datatype Summary = Summary(status: RunStatus, token: nat, checkpoint: nat, version: nat)

  function Fold(s: Summary, kind: EventKind): Summary {
    match kind
    case Created(status) => s.(status := Blur(status))
    case StateChanged(_, target) => s.(status := Blur(target), version := s.version + 1)
    case CheckpointCreated(n) => s.(checkpoint := n, version := s.version + 1)
    case ExecutionCompleted(result) => s.(status := Blur(result), version := s.version + 1)
    case ExecutionFailed(_) => s.(status := Failed, version := s.version + 1)
    case InterruptCreated(_) => s.(status := Waiting, version := s.version + 1)
    case InterruptExpired(_) => s.(status := Failed, version := s.version + 1)
    case InterruptDecided(_, _) => s.(status := Queued, version := s.version + 1)
    case Claimed(_, token) => s.(status := Running, token := token, version := s.version + 1)
    case LeaseExpired(_) => s.(status := Queued, version := s.version + 1)
    case AttemptFailed(_, _) => s
  }

  function Replay(events: seq<Event>): Summary {
    if events == [] then Summary(Queued, 0, 0, 0)
    else Fold(Replay(events[..|events| - 1]), events[|events| - 1].kind)
  }

  /** Folding the event log gives back the row. */
  predicate Logged(rec: Record) {
    Replay(rec.events)
      == Summary(Blur(rec.run.status), Token(rec.lease), |rec.checkpoints|, rec.run.version)
  }

  lemma ReplayAppend(events: seq<Event>, kind: EventKind)
    requires NumberedEvents(events)
    ensures Replay(AppendEvent(events, kind)) == Fold(Replay(events), kind)
    ensures NumberedEvents(AppendEvent(events, kind))
    ensures events <= AppendEvent(events, kind)
  {
    LastIsLength(events);
    assert AppendEvent(events, kind)[..|events|] == events;
  }

  // ---------------------------------------------------------------- sequential trace

  /** Every checkpoint is reached by sequential execution from the one before it. */
  ghost predicate Traced(p: Program, rec: Record)
    requires UniqueAsks(rec.interrupts)
  {
    && (forall k :: 0 <= k < |rec.checkpoints| ==> rec.checkpoints[k].planHash == p.hash)
    && (forall k :: 0 <= k < |rec.checkpoints| ==> Reaches(p, DecisionsOf(rec.interrupts), Base(rec, k), Base(rec, k + 1)))
  }

  /** Watermarks never decrease and none exceeds what the ledger reports now. */
  ghost predicate Marked(rec: Record, watermark: nat) {
    && (forall k :: 0 <= k < |rec.checkpoints| ==> rec.checkpoints[k].watermark <= watermark)
    && (forall j, k :: 0 <= j < k < |rec.checkpoints| ==> rec.checkpoints[j].watermark <= rec.checkpoints[k].watermark)
  }

  ghost predicate RecInv(p: Program, watermark: nat, rec: Record) {
    Rows(rec) && Holding(rec) && Waits(rec) && Logged(rec) && Traced(p, rec) && Marked(rec, watermark)
  }

  // ---------------------------------------------------------------- evolution

  predicate SameHold(a: Option<Lease>, b: Option<Lease>) {
    a.Some? == b.Some? &&
    (a.Some? ==> b.value == a.value.(expiresAt := b.value.expiresAt))
  }

  /** How a record may differ from an earlier one of the same run.  Reflexive and transitive. */
  ghost predicate Evolves(a: Record, b: Record) {
    && b.fingerprint == a.fingerprint
    && b.run == a.run.(status := b.run.status, state := b.run.state, nextNodes := b.run.nextNodes, version := b.run.version)
    && a.run.version <= b.run.version
    && (a.run.version == b.run.version ==>
        && b.run == a.run && b.checkpoints == a.checkpoints && Token(b.lease) == Token(a.lease)
        && (a.run.status == Running ==> b.interrupts == a.interrupts && SameHold(a.lease, b.lease)))
    && (Terminal(a.run.status) ==> b.run == a.run)
    && (a.lease.Some? ==> b.lease.Some?)
    && Token(a.lease) <= Token(b.lease)
    && a.checkpoints <= b.checkpoints
    && a.events <= b.events
    && AsksEvolve(a.interrupts, b.interrupts)
  }

  lemma EvolvesTransitive(a: Record, b: Record, c: Record)
    requires Evolves(a, b) && Evolves(b, c)
    ensures Evolves(a, c)
  {
    assert forall i :: i in a.interrupts ==> AskEvolves(a.interrupts[i], b.interrupts[i]);
    assert forall i :: i in b.interrupts ==> AskEvolves(b.interrupts[i], c.interrupts[i]);
  }

  /** A single transaction: it evolves the record, bumps the version at most once and follows the table. */
  ghost predicate Steps(a: Record, b: Record) {
    && Evolves(a, b)
    && b.run.version <= a.run.version + 1
    && (b.run.status == a.run.status || Allowed(a.run.status, b.run.status))
  }

  /** Transactions that leave the checkpoints alone keep them on the trace. */
  lemma TracedGrows(p: Program, a: Record, b: Record)
    requires UniqueAsks(a.interrupts) && UniqueAsks(b.interrupts)
    requires Traced(p, a)
    requires AsksEvolve(a.interrupts, b.interrupts)
    requires b.checkpoints == a.checkpoints && b.fingerprint == a.fingerprint
    ensures Traced(p, b)
  {
    DecisionsGrow(a.interrupts, b.interrupts);
    forall k | 0 <= k < |b.checkpoints|
      ensures Reaches(p, DecisionsOf(b.interrupts), Base(b, k), Base(b, k + 1))
    {
      ReachesGrows(p, DecisionsOf(a.interrupts), DecisionsOf(b.interrupts), Base(a, k), Base(a, k + 1));
    }
  }

  /** A plan whose successors resolve keeps resolving from checkpoint to checkpoint. */
  lemma {:induction false} BaseResolvable(p: Program, rec: Record, k: nat)
    requires UniqueAsks(rec.interrupts) && Traced(p, rec) && k <= |rec.checkpoints|
    requires Closed(p) && Resolvable(p, rec.fingerprint.nextNodes)
    ensures Resolvable(p, Base(rec, k).next)
  {
    if k > 0 {
      BaseResolvable(p, rec, k - 1);
      var d := DecisionsOf(rec.interrupts);
      assert Reaches(p, d, Base(rec, k - 1), Base(rec, k - 1 + 1));
      var n: nat :| After(p, d, Base(rec, k - 1), n) == Some(Base(rec, k));
      AfterResolvable(p, d, Base(rec, k - 1), n);
    }
  }

  lemma WatermarkGrows(p: Program, low: nat, high: nat, rec: Record)
    requires RecInv(p, low, rec) && low <= high
    ensures RecInv(p, high, rec)
  {
  }

  // ---------------------------------------------------------------- transactions

  lemma NewRecordKeeps(p: Program, watermark: nat, run: Run)
    requires run.status == Queued && run.version == 0
    ensures RecInv(p, watermark, NewRecord(run))
  {
    var rec := NewRecord(run);
    ReplayAppend([], Created(run.status));
    assert !HasPending(rec.interrupts);
  }

  /** Transitions as the server and the reconciler request them. */
  predicate CallerTarget(source: RunStatus, target: RunStatus) {
    target == Cancelled || target == NeedsReview || (target == Queued && source == NeedsReview)
  }

  lemma TransitionKeeps(p: Program, watermark: nat, rec: Record, expected: nat, target: RunStatus, rec': Record)
    requires RecInv(p, watermark, rec)
    requires CallerTarget(rec.run.status, target)
    requires TransitionRun(rec, expected, target, None, None) == Ok(rec')
    ensures RecInv(p, watermark, rec') && Steps(rec, rec')
  {
    hide Reaches, DecisionsOf, UniqueAsks, OnePending, HasPending, LastEvent, Replay;
    ReplayAppend(rec.events, StateChanged(rec.run.status, target));
    assert Rows(rec');
    assert Evolves(rec, rec');
    TracedGrows(p, rec, rec');
  }

  lemma AppendEventKeeps(p: Program, watermark: nat, rec: Record, id: NodeId, attempt: nat)
    requires RecInv(p, watermark, rec)
    ensures RecInv(p, watermark, AppendRunEvent(rec, AttemptFailed(id, attempt)))
    ensures Steps(rec, AppendRunEvent(rec, AttemptFailed(id, attempt)))
  {
    hide Reaches, DecisionsOf, UniqueAsks, OnePending, HasPending, LastEvent, Replay;
    var rec' := AppendRunEvent(rec, AttemptFailed(id, attempt));
    ReplayAppend(rec.events, AttemptFailed(id, attempt));
    assert Rows(rec');
    TracedGrows(p, rec, rec');
  }

  /** A committed checkpoint extends the trace. */
  lemma CommitTraced(p: Program, rec: Record, ck: Checkpoint, rec': Record)
    requires UniqueAsks(rec.interrupts) && Traced(p, rec)
    requires rec'.interrupts == rec.interrupts && rec'.fingerprint == rec.fingerprint
    requires rec'.checkpoints == rec.checkpoints + [ck]
    requires ck.planHash == p.hash
    requires Reaches(p, DecisionsOf(rec.interrupts), Base(rec, |rec.checkpoints|), Config(|rec.checkpoints| + 1, ck.state, ck.nextNodes))
    ensures Traced(p, rec')
  {
    var d := DecisionsOf(rec.interrupts);
    forall k | 0 <= k < |rec'.checkpoints|
      ensures Reaches(p, d, Base(rec', k), Base(rec', k + 1))
    {
      assert Base(rec', k) == Base(rec, k);
      if k < |rec.checkpoints| {
        assert rec'.checkpoints[k] == rec.checkpoints[k];
        assert Base(rec', k + 1) == Base(rec, k + 1);
        assert Reaches(p, d, Base(rec, k), Base(rec, k + 1));
      } else {
        assert rec'.checkpoints[k] == ck;
      }
    }
  }

  lemma CommitMarked(rec: Record, watermark: nat, ck: Checkpoint, rec': Record)
    requires Marked(rec, watermark)
    requires rec'.checkpoints == rec.checkpoints + [ck]
    requires ck.watermark <= watermark
    requires forall k :: 0 <= k < |rec.checkpoints| ==> rec.checkpoints[k].watermark <= ck.watermark
    ensures Marked(rec', watermark)
  {
  }

  lemma CommitRows(
    rec: Record, ck: Checkpoint, worker: WorkerId, token: nat, expected: nat, now: Time, rec': Record
  )
    requires Rows(rec) && Holding(rec) && Waits(rec) && Logged(rec)
    requires CommitCheckpoint(rec, ck, worker, token, expected, now) == Ok(rec')
    ensures Rows(rec') && Holding(rec') && Waits(rec') && Logged(rec') && Steps(rec, rec')
  {
    hide Reaches, DecisionsOf, UniqueAsks, OnePending, HasPending, LastEvent, Replay;
    LatestIsLength(rec.checkpoints);
    ReplayAppend(rec.events, CheckpointCreated(ck.sequence));
    assert Numbered(rec'.checkpoints);
  }

  /** A committed checkpoint must extend the trace and carry a watermark between the last one and now. */
  lemma CommitKeeps(
    p: Program, watermark: nat, rec: Record, ck: Checkpoint, worker: WorkerId, token: nat, expected: nat, now: Time, rec': Record
  )
    requires RecInv(p, watermark, rec)
    requires CommitCheckpoint(rec, ck, worker, token, expected, now) == Ok(rec')
    requires ck.planHash == p.hash
    requires ck.watermark <= watermark
    requires forall k :: 0 <= k < |rec.checkpoints| ==> rec.checkpoints[k].watermark <= ck.watermark
    requires Reaches(p, DecisionsOf(rec.interrupts), Base(rec, |rec.checkpoints|), Config(|rec.checkpoints| + 1, ck.state, ck.nextNodes))
    ensures RecInv(p, watermark, rec') && Steps(rec, rec')
  {
    CommitRows(rec, ck, worker, token, expected, now, rec');
    CommitTraced(p, rec, ck, rec');
    CommitMarked(rec, watermark, ck, rec');
  }

  /** Finishing as succeeded needs an empty queue; finishing otherwise reports a failure. */
  lemma FinishKeeps(
    p: Program, watermark: nat, rec: Record, worker: WorkerId, token: nat, expected: nat, target: RunStatus, failure: Option<string>, now: Time, rec': Record
  )
    requires RecInv(p, watermark, rec)
    requires FinishClaim(rec, worker, token, expected, target, failure, now) == Ok(rec')
    requires if failure.Some? then target == Failed || target == TimedOut else target == Succeeded && rec.run.nextNodes == []
    ensures RecInv(p, watermark, rec') && Steps(rec, rec')
  {
    hide Reaches, DecisionsOf, UniqueAsks, OnePending, HasPending, LastEvent, Replay;
    ReplayAppend(rec.events, if failure.Some? then ExecutionFailed(failure.value) else ExecutionCompleted(target));
    assert Rows(rec');
    TracedGrows(p, rec, rec');
  }

  /** No interrupt of this record was asked at this node and checkpoint. */
  ghost predicate Unasked(m: map<InterruptId, Interrupt>, nodeId: NodeId, sequence: nat) {
    forall i :: i in m ==> !(m[i].nodeId == nodeId && m[i].checkpointSequence == sequence)
  }

  lemma CreateAsks(m: map<InterruptId, Interrupt>, id: InterruptId, ask: Interrupt)
    requires UniqueAsks(m) && !HasPending(m)
    requires id !in m && ask.decision.None? && Unasked(m, ask.nodeId, ask.checkpointSequence)
    ensures UniqueAsks(m[id := ask]) && OnePending(m[id := ask]) && HasPending(m[id := ask]) && AsksEvolve(m, m[id := ask])
  {
    assert m[id := ask][id].decision.None?;
  }

  lemma CreateInterruptKeeps(p: Program, watermark: nat, rec: Record, id: InterruptId, ask: Interrupt, expected: nat, rec': Record)
    requires RecInv(p, watermark, rec)
    requires CreateInterrupt(rec, id, ask, expected) == Ok(rec')
    requires ask.decision.None? && Unasked(rec.interrupts, ask.nodeId, ask.checkpointSequence)
    ensures RecInv(p, watermark, rec') && Steps(rec, rec')
  {
    hide Reaches, DecisionsOf, Unasked, UniqueAsks, OnePending, HasPending, LastEvent;
    ReplayAppend(rec.events, InterruptCreated(id));
    CreateAsks(rec.interrupts, id, ask);
    TracedGrows(p, rec, rec');
    assert Rows(rec');
  }

  /** Deciding the pending interrupt leaves none pending. */
  lemma DecideAsks(m: map<InterruptId, Interrupt>, id: InterruptId, decision: Decision)
    requires UniqueAsks(m) && OnePending(m)
    requires id in m && m[id].decision.None?
    ensures var m' := m[id := m[id].(decision := Some(decision))];
      UniqueAsks(m') && OnePending(m') && AsksEvolve(m, m') && !HasPending(m')
  {
  }

  lemma DecideKeeps(p: Program, watermark: nat, rec: Record, id: InterruptId, decision: Decision, expected: nat, rec': Record)
    requires RecInv(p, watermark, rec)
    requires DecideInterrupt(rec, id, decision, expected) == Ok(rec')
    ensures RecInv(p, watermark, rec') && Steps(rec, rec')
  {
    hide Reaches, DecisionsOf, UniqueAsks, OnePending, LastEvent, Replay;
    ReplayAppend(rec.events, InterruptDecided(id, decision.kind));
    DecideAsks(rec.interrupts, id, decision);
    TracedGrows(p, rec, rec');
    assert HasPending(rec.interrupts);
    assert Rows(rec');
  }

  lemma ExpireInterruptKeeps(p: Program, watermark: nat, rec: Record, id: InterruptId)
    requires RecInv(p, watermark, rec)
    requires id in rec.interrupts && rec.interrupts[id].decision.None?
    ensures RecInv(p, watermark, ExpireInterrupt(rec, id)) && Steps(rec, ExpireInterrupt(rec, id))
    ensures !HasPending(ExpireInterrupt(rec, id).interrupts)
  {
    hide Reaches, DecisionsOf, UniqueAsks, OnePending, LastEvent, Replay;
    var rec' := ExpireInterrupt(rec, id);
    ReplayAppend(rec.events, InterruptExpired(id));
    DecideAsks(rec.interrupts, id, Expired());
    TracedGrows(p, rec, rec');
    assert HasPending(rec.interrupts);
    assert Rows(rec');
    assert rec.run.status == Waiting || Terminal(rec.run.status);
  }

  lemma ExpireKeeps(p: Program, watermark: nat, rec: Record, now: Time)
    requires RecInv(p, watermark, rec)
    ensures RecInv(p, watermark, ExpireRecord(rec, now)) && Steps(rec, ExpireRecord(rec, now))
  {
    if exists id :: id in rec.interrupts && Overdue(rec.interrupts[id], now) {
      var id :| id in rec.interrupts && Overdue(rec.interrupts[id], now) && ExpireRecord(rec, now) == ExpireInterrupt(rec, id);
      ExpireInterruptKeeps(p, watermark, rec, id);
    }
  }

  lemma ClaimKeeps(p: Program, watermark: nat, rec: Record, worker: WorkerId, now: Time, leaseSeconds: nat)
    requires RecInv(p, watermark, rec)
    requires rec.run.status == Queued
    ensures RecInv(p, watermark, ClaimRun(rec, worker, now, leaseSeconds)) && Steps(rec, ClaimRun(rec, worker, now, leaseSeconds))
  {
    hide Reaches, DecisionsOf, UniqueAsks, OnePending, HasPending, LastEvent, Replay;
    var rec' := ClaimRun(rec, worker, now, leaseSeconds);
    ReplayAppend(rec.events, Claimed(worker, Token(rec.lease) + 1));
    assert Rows(rec');
    TracedGrows(p, rec, rec');
  }

  lemma RenewKeeps(
    p: Program, watermark: nat, rec: Record, worker: WorkerId, token: nat, leaseSeconds: nat, now: Time, clock: Time, rec': Record
  )
    requires RecInv(p, watermark, rec)
    requires RenewLease(rec, worker, token, leaseSeconds, now, clock) == Ok(rec')
    ensures RecInv(p, watermark, rec') && Steps(rec, rec')
  {
    hide Reaches, DecisionsOf, UniqueAsks, OnePending, HasPending, LastEvent, Replay;
    assert Rows(rec');
    TracedGrows(p, rec, rec');
  }

  lemma RequeueKeeps(p: Program, watermark: nat, rec: Record, now: Time)
    requires RecInv(p, watermark, rec)
    ensures RecInv(p, watermark, RequeueRecord(rec, now)) && Steps(rec, RequeueRecord(rec, now))
  {
    hide Reaches, DecisionsOf, UniqueAsks, OnePending, HasPending, LastEvent, Replay;
    var rec' := RequeueRecord(rec, now);
    ReplayAppend(rec.events, LeaseExpired(Token(rec.lease)));
    assert Rows(rec');
    TracedGrows(p, rec, rec');
  }
}
