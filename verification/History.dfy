/** Theorems about whole histories of the durable protocol: every interleaving of
    submissions, workers, crashes, lease losses, interrupts, operators and effects. */
module History {
  import opened Models
  import opened Records
  import opened Sequential
  import opened RecordInvariant
  import opened Protocol
  import opened ProtocolProof
  import opened WorkerProof
  import Effects

  /** `states[i + 1]` is what `labels[i]` makes of `states[i]`. */
  datatype Behaviour = Behaviour(states: seq<Sys>, labels: seq<Label>)

  ghost predicate IsBehaviour(env: Registry, b: Behaviour) {
    && |b.states| == |b.labels| + 1
    && Init(b.states[0])
    && forall i :: 0 <= i < |b.labels| ==> b.states[i + 1] == Next(env, b.states[i], b.labels[i])
  }

  lemma InitInv(env: Registry, s: Sys)
    requires Init(s)
    ensures Inv(env, s)
  {
  }

  lemma {:induction false} AlwaysInv(env: Registry, b: Behaviour, i: nat)
    requires IsBehaviour(env, b) && i < |b.states|
    ensures Inv(env, b.states[i])
  {
    hide Next, Inv, Init;
    if i == 0 {
      InitInv(env, b.states[0]);
    } else {
      AlwaysInv(env, b, i - 1);
      StepKeeps(env, b.states[i - 1], b.labels[i - 1]);
      assert b.states[i - 1 + 1] == Next(env, b.states[i - 1], b.labels[i - 1]);
    }
  }

  /** Every run's rows evolve along a history. */
  lemma {:induction false} AlwaysEvolves(env: Registry, b: Behaviour, i: nat, j: nat, r: RunId)
    requires IsBehaviour(env, b) && i <= j < |b.states| && r in b.states[i].db
    ensures r in b.states[j].db && Evolves(b.states[i].db[r], b.states[j].db[r])
  {
    hide Next, Inv;
    if i == j {
      StepsSelf(b.states[i].db[r]);
    } else {
      AlwaysEvolves(env, b, i, j - 1, r);
      AlwaysInv(env, b, j - 1);
      StepKeeps(env, b.states[j - 1], b.labels[j - 1]);
      assert b.states[j - 1 + 1] == Next(env, b.states[j - 1], b.labels[j - 1]);
      assert Steps(b.states[j - 1].db[r], b.states[j].db[r]);
      EvolvesTransitive(b.states[i].db[r], b.states[j - 1].db[r], b.states[j].db[r]);
    }
  }

  // ---------------------------------------------------------------- crash-safe refinement

  /** Checkpoint k is where sequential execution from `start` is after at[k] nodes. */
  ghost predicate OnTrace(p: Program, d: Decisions, start: Config, rows: seq<Checkpoint>, at: seq<nat>) {
    && |at| == |rows|
    && (forall k :: 0 <= k < |rows| ==> After(p, d, start, at[k]) == Some(Config(k + 1, rows[k].state, rows[k].nextNodes)))
    && (forall j, k :: 0 <= j < k < |at| ==> at[j] < at[k])
  }

  lemma HopOf(p: Program, rec: Record, k: nat) returns (steps: nat)
    requires UniqueAsks(rec.interrupts) && Traced(p, rec) && k < |rec.checkpoints|
    ensures steps > 0 && After(p, DecisionsOf(rec.interrupts), Base(rec, k), steps) == Some(Base(rec, k + 1))
  {
    hide Step, DecisionsOf, UniqueAsks;
    assert Reaches(p, DecisionsOf(rec.interrupts), Base(rec, k), Base(rec, k + 1));
    steps :| After(p, DecisionsOf(rec.interrupts), Base(rec, k), steps) == Some(Base(rec, k + 1));
  }

  lemma {:induction false} TraceOf(p: Program, rec: Record, n: nat) returns (at: seq<nat>)
    requires UniqueAsks(rec.interrupts) && Traced(p, rec) && n <= |rec.checkpoints|
    ensures OnTrace(p, DecisionsOf(rec.interrupts), Base(rec, 0), rec.checkpoints[..n], at)
  {
    hide Step, DecisionsOf, UniqueAsks, Traced, Reaches;
    var d := DecisionsOf(rec.interrupts);
    if n == 0 {
      at := [];
    } else {
      var before := TraceOf(p, rec, n - 1);
      var steps := HopOf(p, rec, n - 1);
      var done := 0;
      if n > 1 {
        done := before[n - 2];
        assert rec.checkpoints[..n - 1][n - 2] == rec.checkpoints[n - 2];
      }
      assert After(p, d, Base(rec, 0), done) == Some(Base(rec, n - 1));
      AfterCompose(p, d, Base(rec, 0), Base(rec, n - 1), done, steps);
      assert rec.checkpoints[..n][..n - 1] == rec.checkpoints[..n - 1];
      at := before + [done + steps];
      Extends(p, d, Base(rec, 0), rec.checkpoints[..n], before, done + steps);
    }
  }

  lemma Extends(p: Program, d: Decisions, start: Config, rows: seq<Checkpoint>, before: seq<nat>, last: nat)
    requires rows != []
    requires OnTrace(p, d, start, rows[..|rows| - 1], before)
    requires After(p, d, start, last) == Some(Config(|rows|, rows[|rows| - 1].state, rows[|rows| - 1].nextNodes))
    requires before == [] || before[|before| - 1] < last
    ensures OnTrace(p, d, start, rows, before + [last])
  {
    hide After;
    var at := before + [last];
    forall k | 0 <= k < |rows|
      ensures After(p, d, start, at[k]) == Some(Config(k + 1, rows[k].state, rows[k].nextNodes))
    {
      if k < |rows| - 1 {
        assert rows[..|rows| - 1][k] == rows[k];
      }
    }
  }

  /** The submission at step i was accepted. */
  ghost predicate Submitted(b: Behaviour, i: nat, run: Run) {
    i < |b.labels| && i + 1 < |b.states| && b.labels[i] == Submit(run) && run.id !in b.states[i].db && run.id in b.states[i + 1].db
  }

  /** Crash-safe refinement.  Whatever happened since a run was submitted, its checkpoints are
      successive points of plain sequential execution from the submitted state under the recorded
      decisions, the row holds the latest of them, and a succeeded run holds the sequential result. */
  lemma CrashSafeRefinement(env: Registry, b: Behaviour, i: nat, j: nat, run: Run) returns (at: seq<nat>)
    requires IsBehaviour(env, b) && i < j < |b.states| && Submitted(b, i, run)
    ensures run.id in b.states[j].db && UniqueAsks(b.states[j].db[run.id].interrupts)
    ensures var rec := b.states[j].db[run.id];
      var p, d, start := env(run.planId), DecisionsOf(rec.interrupts), Config(0, run.state, run.nextNodes);
      && OnTrace(p, d, start, rec.checkpoints, at)
      && After(p, d, start, if at == [] then 0 else at[|at| - 1]) == Some(Config(|at|, rec.run.state, rec.run.nextNodes))
      && (rec.run.status == Succeeded ==> rec.run.nextNodes == [] && Halts(p, d, start, rec.run.state))
  {
    AlwaysInv(env, b, j);
    assert b.states[i + 1] == Next(env, b.states[i], b.labels[i]);
    AlwaysEvolves(env, b, i + 1, j, run.id);
    at := RefinementOf(env, b.states[j], run.id);
  }

  lemma RefinementOf(env: Registry, s: Sys, r: RunId) returns (at: seq<nat>)
    requires Inv(env, s) && r in s.db
    ensures UniqueAsks(s.db[r].interrupts)
    ensures var rec := s.db[r];
      var p, d, start := env(rec.run.planId), DecisionsOf(rec.interrupts), Base(rec, 0);
      && OnTrace(p, d, start, rec.checkpoints, at)
      && After(p, d, start, if at == [] then 0 else at[|at| - 1]) == Some(Config(|at|, rec.run.state, rec.run.nextNodes))
      && (rec.run.status == Succeeded ==> rec.run.nextNodes == [] && Halts(p, d, start, rec.run.state))
  {
    hide ThreadInv, IntentInv, Exclusive, Effects.WellFormed, Logged, Marked, UniqueAsks, OnePending, HasPending, Interpret, OutputAt;
    var rec := s.db[r];
    var p := env(rec.run.planId);
    assert RecInv(p, Effects.Watermark(s.ledger, r), rec);
    at := TraceOf(p, rec, |rec.checkpoints|);
    assert rec.checkpoints[..|rec.checkpoints|] == rec.checkpoints;
  }

  /** Every hop between the submission and the latest checkpoint follows the plan: a router goes to
      the successor its handler named, a step to its only successor with what its handler returned. */
  lemma HopsByRules(env: Registry, b: Behaviour, i: nat, j: nat, run: Run, m: nat) returns (at: seq<nat>)
    requires IsBehaviour(env, b) && i < j < |b.states| && Submitted(b, i, run)
    ensures run.id in b.states[j].db && UniqueAsks(b.states[j].db[run.id].interrupts)
    ensures var rec := b.states[j].db[run.id];
      var p, d, start := env(run.planId), DecisionsOf(rec.interrupts), Config(0, run.state, run.nextNodes);
      && OnTrace(p, d, start, rec.checkpoints, at)
      && (at != [] && m < at[|at| - 1] ==>
          && After(p, d, start, m).Some? && After(p, d, start, m + 1).Some?
          && Moves(p, d, After(p, d, start, m).value, After(p, d, start, m + 1).value))
  {
    hide IsBehaviour, Submitted, DecisionsOf, Moves;
    at := CrashSafeRefinement(env, b, i, j, run);
    var rec := b.states[j].db[run.id];
    if at != [] && m < at[|at| - 1] {
      TraceByRules(env(run.planId), DecisionsOf(rec.interrupts), Config(0, run.state, run.nextNodes), m, at[|at| - 1]);
    }
  }

  // ---------------------------------------------------------------- fencing

  datatype Write = Write(r: RunId, token: nat)

  /** The token a claim mints. */
  function Minted(s: Sys, l: Label): Option<Write> {
    match l
    case ClaimNext(slot, r, _, _, _) =>
      if ThreadAt(s, slot).Idle? && r in s.db && s.db[r].run.status == Queued then Some(Write(r, Token(s.db[r].lease) + 1)) else None
    case _ => None
  }

  /** The run and token of a checkpoint, finish or renewal that the store accepts. */
  function FencedWrite(env: Registry, s: Sys, l: Label): Option<Write> {
    match l
    case Renew(r, worker, token, leaseSeconds, now, clock) =>
      if r in s.db && RenewLease(s.db[r], worker, token, leaseSeconds, now, clock).Ok? then Some(Write(r, token)) else None
    case Commit(slot, now) =>
      var th := ThreadAt(s, slot);
      if th.Committing? && th.c.r in s.db
         && CommitCheckpoint(s.db[th.c.r], Checkpoint(th.sequence, env(s.db[th.c.r].run.planId).hash, th.after, th.successors, th.watermark),
                             th.c.worker, th.c.token, th.c.version, now).Ok?
      then Some(Write(th.c.r, th.c.token)) else None
    case Finish(slot, now) =>
      var th := ThreadAt(s, slot);
      if th.Looping? && th.c.r in s.db && th.c.next == []
         && FinishClaim(s.db[th.c.r], th.c.worker, th.c.token, th.c.version, Succeeded, None, now).Ok?
      then Some(Write(th.c.r, th.c.token)) else None
    case Report(slot, target, message, now) =>
      var th := ThreadAt(s, slot);
      if th.Reporting? && th.c.r in s.db && (target == Failed || target == TimedOut)
         && FinishClaim(s.db[th.c.r], th.c.worker, th.c.token, th.seen, target, Some(message), now).Ok?
      then Some(Write(th.c.r, th.c.token)) else None
    case _ => None
  }

  /** Fencing over whole histories.  Tokens strictly increase; once a token is minted no write with
      a smaller one is accepted; the tokens of accepted writes never decrease. */
  lemma Fencing(env: Registry, b: Behaviour, i: nat, j: nat, r: RunId, early: nat, late: nat)
    requires IsBehaviour(env, b) && i < j < |b.labels|
    ensures Minted(b.states[i], b.labels[i]) == Some(Write(r, early)) && FencedWrite(env, b.states[j], b.labels[j]) == Some(Write(r, late))
      ==> early <= late
    ensures Minted(b.states[i], b.labels[i]) == Some(Write(r, early)) && Minted(b.states[j], b.labels[j]) == Some(Write(r, late))
      ==> early < late
    ensures FencedWrite(env, b.states[i], b.labels[i]) == Some(Write(r, early)) && FencedWrite(env, b.states[j], b.labels[j]) == Some(Write(r, late))
      ==> early <= late
  {
    hide Inv, Evolves;
    if r in b.states[i].db {
      assert b.states[i + 1] == Next(env, b.states[i], b.labels[i]);
      TokenAlong(env, b, i, j, r);
      if Minted(b.states[i], b.labels[i]) == Some(Write(r, early)) {
        assert Token(b.states[i + 1].db[r].lease) == early;
        TokenAlong(env, b, i + 1, j, r);
      }
    }
  }

  lemma TokenAlong(env: Registry, b: Behaviour, i: nat, j: nat, r: RunId)
    requires IsBehaviour(env, b) && i <= j < |b.states| && r in b.states[i].db
    ensures r in b.states[j].db && Token(b.states[i].db[r].lease) <= Token(b.states[j].db[r].lease)
  {
    AlwaysEvolves(env, b, i, j, r);
  }

  /** The sequence an accepted commit writes. */
  function CommittedSequence(env: Registry, s: Sys, l: Label): Option<nat> {
    if l.Commit? && FencedWrite(env, s, l).Some? then Some(ThreadAt(s, l.slot).sequence) else None
  }

  /** In sequence order, the tokens of a run's checkpoints never decrease, and no sequence is written twice. */
  lemma CheckpointTokensAscend(env: Registry, b: Behaviour, i: nat, j: nat)
    requires IsBehaviour(env, b) && i < j < |b.labels|
    requires CommittedSequence(env, b.states[i], b.labels[i]).Some? && CommittedSequence(env, b.states[j], b.labels[j]).Some?
    requires FencedWrite(env, b.states[i], b.labels[i]).value.r == FencedWrite(env, b.states[j], b.labels[j]).value.r
    ensures CommittedSequence(env, b.states[i], b.labels[i]).value < CommittedSequence(env, b.states[j], b.labels[j]).value
    ensures FencedWrite(env, b.states[i], b.labels[i]).value.token <= FencedWrite(env, b.states[j], b.labels[j]).value.token
  {
    hide Inv, Evolves, Steps;
    var first, second := FencedWrite(env, b.states[i], b.labels[i]).value, FencedWrite(env, b.states[j], b.labels[j]).value;
    Fencing(env, b, i, j, first.r, first.token, second.token);
    assert b.states[i + 1] == Next(env, b.states[i], b.labels[i]);
    CheckpointsAlong(env, b, i, i, first.r);
    CheckpointsAlong(env, b, i + 1, j, first.r);
  }

  lemma CheckpointsAlong(env: Registry, b: Behaviour, i: nat, j: nat, r: RunId)
    requires IsBehaviour(env, b) && i <= j < |b.states| && r in b.states[i].db
    ensures r in b.states[j].db && b.states[i].db[r].checkpoints <= b.states[j].db[r].checkpoints
    ensures LatestSequence(b.states[j].db[r].checkpoints) == |b.states[j].db[r].checkpoints|
  {
    hide ThreadInv, IntentInv, Exclusive, Effects.WellFormed, Holding, Waits, Logged, Traced, Marked;
    AlwaysEvolves(env, b, i, j, r);
    AlwaysInv(env, b, j);
    assert Rows(b.states[j].db[r]);
    LatestIsLength(b.states[j].db[r].checkpoints);
  }

  // ---------------------------------------------------------------- versions

  /** Two observations of a run with the same version are the same row. */
  lemma VersionDeterminesRow(env: Registry, b: Behaviour, i: nat, j: nat, r: RunId)
    requires IsBehaviour(env, b) && i <= j < |b.states| && r in b.states[i].db
    ensures r in b.states[j].db && b.states[i].db[r].run.version <= b.states[j].db[r].run.version
    ensures b.states[i].db[r].run.version == b.states[j].db[r].run.version ==>
      b.states[i].db[r].run == b.states[j].db[r].run && b.states[i].db[r].checkpoints == b.states[j].db[r].checkpoints
  {
    AlwaysEvolves(env, b, i, j, r);
  }

  /** Every status change of every step follows the table, here read from the target's side, and
      terminal rows never change again. */
  lemma TransitionTable(env: Registry, b: Behaviour, i: nat, j: nat, r: RunId)
    requires IsBehaviour(env, b) && i < j < |b.states| && r in b.states[i].db
    ensures r in b.states[i + 1].db && r in b.states[j].db
    ensures b.states[i + 1].db[r].run.status != b.states[i].db[r].run.status ==>
      Allowed(b.states[i].db[r].run.status, b.states[i + 1].db[r].run.status) && b.states[i].db[r].run.status in SourcesOf(b.states[i + 1].db[r].run.status)
    ensures b.states[i].db[r].run.status in {Succeeded, Failed, Cancelled, TimedOut} ==> b.states[j].db[r].run == b.states[i].db[r].run
  {
    hide Next, Inv, Allowed, SourcesOf;
    AlwaysInv(env, b, i);
    AlwaysEvolves(env, b, i, j, r);
    StepKeeps(env, b.states[i], b.labels[i]);
    assert b.states[i + 1] == Next(env, b.states[i], b.labels[i]);
    assert Steps(b.states[i].db[r], b.states[i + 1].db[r]);
    TableBothWays(b.states[i].db[r].run.status, b.states[i + 1].db[r].run.status);
  }

  /** At most one live run per session and one run per tenant and idempotency key, at all times. */
  lemma OneRunPerSessionAndKey(env: Registry, b: Behaviour, i: nat, q: RunId, r: RunId)
    requires IsBehaviour(env, b) && i < |b.states| && q in b.states[i].db && r in b.states[i].db
    requires var x, y := b.states[i].db[q].run, b.states[i].db[r].run;
      (x.sessionId == y.sessionId && x.status in {Queued, Running, Waiting, NeedsReview} && y.status in {Queued, Running, Waiting, NeedsReview}) ||
      (x.tenantId == y.tenantId && x.idempotencyKey.Some? && x.idempotencyKey == y.idempotencyKey)
    ensures q == r
  {
    hide RecordsInv, ThreadInv, IntentInv, Effects.WellFormed, Next;
    AlwaysInv(env, b, i);
  }

  // ---------------------------------------------------------------- interrupts

  /** One interrupt per node and checkpoint, whose decision is written once and stays. */
  lemma InterruptsAreUnique(env: Registry, b: Behaviour, i: nat, j: nat, r: RunId, x: InterruptId, y: InterruptId)
    requires IsBehaviour(env, b) && i <= j < |b.states| && r in b.states[i].db
    requires x in b.states[i].db[r].interrupts
    ensures r in b.states[j].db && x in b.states[j].db[r].interrupts
    ensures y in b.states[j].db[r].interrupts
        && Matches(b.states[j].db[r].interrupts[y], b.states[i].db[r].interrupts[x].nodeId, b.states[i].db[r].interrupts[x].checkpointSequence)
      ==> x == y
    ensures b.states[i].db[r].interrupts[x].decision.Some? ==>
      b.states[j].db[r].interrupts[x].decision == b.states[i].db[r].interrupts[x].decision
  {
    hide ThreadInv, IntentInv, Exclusive, Effects.WellFormed, Holding, Rows, Logged, Traced, Marked;
    AlwaysEvolves(env, b, i, j, r);
    AlwaysInv(env, b, j);
    assert AskEvolves(b.states[i].db[r].interrupts[x], b.states[j].db[r].interrupts[x]);
    assert RecInv(env(b.states[j].db[r].run.planId), Effects.Watermark(b.states[j].ledger, r), b.states[j].db[r]);
  }

  /** Every replay of a node, by any worker current or stale, is handed the same decision. */
  lemma ReplaysHearTheSame(env: Registry, b: Behaviour, i: nat, j: nat, m: nat, n: nat)
    requires IsBehaviour(env, b) && i <= j < |b.states|
    requires ThreadAt(b.states[i], m).Answered? && ThreadAt(b.states[j], n).Answered?
    requires var t, u := ThreadAt(b.states[i], m), ThreadAt(b.states[j], n);
      t.c.r == u.c.r && t.sequence == u.sequence && t.c.next != [] && u.c.next != [] && t.c.next[0] == u.c.next[0]
    ensures ThreadAt(b.states[i], m).decision == ThreadAt(b.states[j], n).decision
  {
    hide RecInv, IntentInv, Exclusive, Effects.WellFormed, Current, Evolves, Lookups;
    var t, u := ThreadAt(b.states[i], m), ThreadAt(b.states[j], n);
    AlwaysInv(env, b, i);
    AlwaysInv(env, b, j);
    ThreadOf(env, b.states[i], m);
    ThreadOf(env, b.states[j], n);
    var x :| x in b.states[i].db[t.c.r].interrupts && Matches(b.states[i].db[t.c.r].interrupts[x], t.c.next[0], t.sequence)
      && b.states[i].db[t.c.r].interrupts[x].decision == Some(t.decision);
    var y :| y in b.states[j].db[t.c.r].interrupts && Matches(b.states[j].db[t.c.r].interrupts[y], t.c.next[0], t.sequence)
      && b.states[j].db[t.c.r].interrupts[y].decision == Some(u.decision);
    InterruptsAreUnique(env, b, i, j, t.c.r, x, y);
  }

  /** The step decides this interrupt: it had no decision, the version was the current one. */
  ghost predicate Decides(b: Behaviour, i: nat, r: RunId, id: InterruptId, decision: Decision) {
    i < |b.labels| && i + 1 < |b.states| && b.labels[i].Decide? && b.labels[i].r == r && b.labels[i].id == id && b.labels[i].decision == decision &&
    r in b.states[i].db && id in b.states[i].db[r].interrupts && b.states[i].db[r].interrupts[id].decision.None? &&
    b.labels[i].expected == b.states[i].db[r].run.version && b.states[i].db[r].run.status in {Running, Waiting, NeedsReview}
  }

  /** What was decided is what is stored ever after, and what every worker is handed that replays
      the node at that checkpoint. */
  lemma DecisionsReachHandlers(env: Registry, b: Behaviour, i: nat, j: nat, r: RunId, id: InterruptId, decision: Decision, slot: nat)
    requires IsBehaviour(env, b) && i < j < |b.states| && Decides(b, i, r, id, decision)
    ensures r in b.states[j].db && id in b.states[j].db[r].interrupts && b.states[j].db[r].interrupts[id].decision == Some(decision)
    ensures var th := ThreadAt(b.states[j], slot); var ask := b.states[i].db[r].interrupts[id];
      th.Answered? && th.c.r == r && th.c.next != [] && th.c.next[0] == ask.nodeId && th.sequence == ask.checkpointSequence ==> th.decision == decision
  {
    DecidedNow(env, b, i, r, id, decision);
    hide RecInv, IntentInv, Exclusive, Effects.WellFormed, Current, Evolves, Lookups, Next, Decides;
    InterruptsAreUnique(env, b, i + 1, j, r, id, id);
    AlwaysEvolves(env, b, i + 1, j, r);
    var th := ThreadAt(b.states[j], slot);
    var ask := b.states[i].db[r].interrupts[id];
    if th.Answered? && th.c.r == r && th.c.next != [] && th.c.next[0] == ask.nodeId && th.sequence == ask.checkpointSequence {
      AlwaysInv(env, b, j);
      ThreadOf(env, b.states[j], slot);
      var x :| x in b.states[j].db[r].interrupts && Matches(b.states[j].db[r].interrupts[x], th.c.next[0], th.sequence)
        && b.states[j].db[r].interrupts[x].decision == Some(th.decision);
      InterruptsAreUnique(env, b, i + 1, j, r, id, x);
    }
  }

  lemma DecidedNow(env: Registry, b: Behaviour, i: nat, r: RunId, id: InterruptId, decision: Decision)
    requires IsBehaviour(env, b) && Decides(b, i, r, id, decision)
    ensures r in b.states[i + 1].db && b.states[i + 1].db[r].interrupts == b.states[i].db[r].interrupts[id := b.states[i].db[r].interrupts[id].(decision := Some(decision))]
    ensures b.states[i + 1].db[r].run == b.states[i].db[r].run.(status := Queued, version := b.states[i].db[r].run.version + 1)
  {
    TableBothWays(b.states[i].db[r].run.status, Queued);
    assert b.states[i + 1] == Next(env, b.states[i], b.labels[i]);
    hide AppendEvent, Allowed;
  }

  /** An interrupt that a worker creates carries what the handler asked, for the node and checkpoint
      at which it asked, with a deadline counted from its creation. */
  lemma AsksAreTheHandlers(env: Registry, b: Behaviour, i: nat, slot: nat, id: InterruptId, createdAt: Time, kind: InterruptKind, request: string, timeout: Option<Seconds>)
    requires IsBehaviour(env, b) && i < |b.labels| && b.labels[i] == CreateAsk(slot, id, createdAt) && ThreadAt(b.states[i], slot).Asking?
    requires ThreadAt(b.states[i], slot).c.r in b.states[i].db && ThreadAt(b.states[i], slot).c.next != []
    requires id !in b.states[i].db[ThreadAt(b.states[i], slot).c.r].interrupts
    requires var th := ThreadAt(b.states[i], slot);
      env(b.states[i].db[th.c.r].run.planId).call(th.c.next[0], th.c.state) == Asks(kind, request, timeout)
    ensures var th := ThreadAt(b.states[i], slot); var after := b.states[i + 1].db;
      th.c.r in after && id in after[th.c.r].interrupts ==>
        after[th.c.r].interrupts[id] == Interrupt(th.c.r, kind, request, th.c.next[0], th.sequence,
          if timeout.Some? then Some(createdAt + timeout.value) else None, None)
  {
    assert b.states[i + 1] == Next(env, b.states[i], b.labels[i]);
    hide AppendEvent, Allowed;
  }

  /** A live run waits exactly when it has a pending interrupt, and no run ever has two. */
  lemma WaitingMeansPending(env: Registry, b: Behaviour, i: nat, r: RunId)
    requires IsBehaviour(env, b) && i < |b.states| && r in b.states[i].db
    ensures !Terminal(b.states[i].db[r].run.status) ==>
      (b.states[i].db[r].run.status == Waiting <==> HasPending(b.states[i].db[r].interrupts))
    ensures OnePending(b.states[i].db[r].interrupts)
  {
    AlwaysInv(env, b, i);
    assert Waits(b.states[i].db[r]);
  }

  // ---------------------------------------------------------------- event log and rows

  /** The event log has no gaps and folds back into the row. */
  lemma EventLogIsFaithful(env: Registry, b: Behaviour, i: nat, r: RunId)
    requires IsBehaviour(env, b) && i < |b.states| && r in b.states[i].db
    ensures var rec := b.states[i].db[r];
      && (forall k :: 0 <= k < |rec.events| ==> rec.events[k].sequence == k + 1)
      && Replay(rec.events) == Summary(Blur(rec.run.status), Token(rec.lease), LatestSequence(rec.checkpoints), rec.run.version)
  {
    AlwaysInv(env, b, i);
    assert RecInv(env(b.states[i].db[r].run.planId), Effects.Watermark(b.states[i].ledger, r), b.states[i].db[r]);
    LatestIsLength(b.states[i].db[r].checkpoints);
  }

  /** Checkpoints are numbered without gaps, their watermarks never decrease, and the ledger's
      invocation sequences are unique per run. */
  lemma CheckpointsAndWatermarks(env: Registry, b: Behaviour, i: nat, r: RunId)
    requires IsBehaviour(env, b) && i < |b.states| && r in b.states[i].db
    ensures var rows := b.states[i].db[r].checkpoints;
      && (forall k :: 0 <= k < |rows| ==> rows[k].sequence == k + 1 && rows[k].watermark <= Effects.Watermark(b.states[i].ledger, r))
      && (forall j, k :: 0 <= j < k < |rows| ==> rows[j].watermark <= rows[k].watermark)
    ensures Effects.WellFormed(b.states[i].ledger)
  {
    AlwaysInv(env, b, i);
    assert RecInv(env(b.states[i].db[r].run.planId), Effects.Watermark(b.states[i].ledger, r), b.states[i].db[r]);
  }

  /** No orphaned run: a running run's lease is active, a requeue at or after its expiry queues the
      run, and the next claim resumes exactly the latest checkpoint, or the submission without one. */
  lemma NoOrphan(env: Registry, b: Behaviour, i: nat, r: RunId, now: Time, rows: set<RunId>, slot: nat, worker: WorkerId, later: Time, leaseSeconds: nat)
    requires IsBehaviour(env, b) && i < |b.states| && r in b.states[i].db && r in rows
    requires b.states[i].db[r].run.status == Running
    ensures var lease := b.states[i].db[r].lease; lease.Some? && lease.value.active
    ensures b.states[i].db[r].lease.value.expiresAt <= now ==>
      var queued := Next(env, b.states[i], Requeue(now, rows));
      && r in queued.db && queued.db[r].run.status == Queued
      && (ThreadAt(queued, slot).Idle? ==>
          var claimed := Next(env, queued, ClaimNext(slot, r, worker, later, leaseSeconds));
          var th := ThreadAt(claimed, slot);
          && th.Looping? && th.c.r == r
          && Config(|b.states[i].db[r].checkpoints|, th.c.state, th.c.next) == Base(b.states[i].db[r], |b.states[i].db[r].checkpoints|))
  {
    hide ThreadInv, IntentInv, Exclusive, Effects.WellFormed, Waits, Logged, Traced, Marked;
    AlwaysInv(env, b, i);
    assert RecInv(env(b.states[i].db[r].run.planId), Effects.Watermark(b.states[i].ledger, r), b.states[i].db[r]);
  }

  /** Whoever claims a run, whenever in a history, resumes exactly the latest checkpoint, or the
      submission without one. */
  lemma ClaimsResume(env: Registry, b: Behaviour, i: nat, r: RunId)
    requires IsBehaviour(env, b) && i < |b.labels| && b.labels[i].ClaimNext? && b.labels[i].r == r
    requires Minted(b.states[i], b.labels[i]).Some?
    ensures r in b.states[i].db && r in b.states[i + 1].db && b.states[i + 1].db[r].checkpoints == b.states[i].db[r].checkpoints
    ensures var rec := b.states[i].db[r]; var th := ThreadAt(b.states[i + 1], b.labels[i].slot);
      th.Looping? && th.c.r == r && Config(|rec.checkpoints|, th.c.state, th.c.next) == Base(rec, |rec.checkpoints|) &&
      th.c.token == Token(rec.lease) + 1 && th.c.version == rec.run.version + 1
  {
    hide ThreadInv, IntentInv, Exclusive, Effects.WellFormed, Waits, Logged, Traced, Marked;
    AlwaysInv(env, b, i);
    assert b.states[i + 1] == Next(env, b.states[i], b.labels[i]);
    assert RecInv(env(b.states[i].db[r].run.planId), Effects.Watermark(b.states[i].ledger, r), b.states[i].db[r]);
  }

  /** A step with two successors never completes: a run whose next node is one gets no further
      checkpoint and never succeeds, whatever happens later. */
  lemma ForksNeverComplete(env: Registry, b: Behaviour, i: nat, j: nat, r: RunId)
    requires IsBehaviour(env, b) && i <= j < |b.states| && r in b.states[i].db
    requires Forked(env(b.states[i].db[r].run.planId), b.states[i].db[r].run.nextNodes)
    ensures r in b.states[j].db && b.states[j].db[r].checkpoints == b.states[i].db[r].checkpoints
    ensures b.states[j].db[r].run.nextNodes == b.states[i].db[r].run.nextNodes && b.states[j].db[r].run.status != Succeeded
  {
    AlwaysInv(env, b, i);
    AlwaysInv(env, b, j);
    AlwaysEvolves(env, b, i, j, r);
    var p := env(b.states[i].db[r].run.planId);
    assert RecInv(p, Effects.Watermark(b.states[i].ledger, r), b.states[i].db[r]);
    assert RecInv(p, Effects.Watermark(b.states[j].ledger, r), b.states[j].db[r]);
    hide Inv;
    ForkStays(p, b.states[i].db[r], b.states[j].db[r]);
  }

  /** The next node is a step with several successors. */
  predicate Forked(p: Program, next: seq<NodeId>) {
    next != [] && next[0] in p.nodes && p.nodes[next[0]].kind.StepNode? && |p.nodes[next[0]].successors| > 1
  }

  lemma ForkStays(p: Program, a: Record, b: Record)
    requires Rows(a) && Rows(b) && Holding(b) && UniqueAsks(b.interrupts) && Traced(p, b) && Evolves(a, b) && Forked(p, a.run.nextNodes)
    ensures b.checkpoints == a.checkpoints && b.run.nextNodes == a.run.nextNodes && b.run.status != Succeeded
  {
    var n := |a.checkpoints|;
    assert b.checkpoints[..n] == a.checkpoints;
    assert n > 0 ==> b.checkpoints[n - 1] == a.checkpoints[n - 1];
    assert Base(b, n) == Base(a, n);
    if n < |b.checkpoints| {
      var steps := HopOf(p, b, n);
      var d := DecisionsOf(b.interrupts);
      ForkStuck(p, d, Base(b, n), steps);
    }
  }

  lemma ForkStuck(p: Program, d: Decisions, c: Config, n: nat)
    requires Forked(p, c.next) && n > 0
    ensures After(p, d, c, n).None?
  {
    assert After(p, d, c, 0) == Some(c);
    assert Step(p, d, c).None?;
    assert After(p, d, c, 1).None?;
    if n > 1 { StuckStaysStuck(p, d, c, 1, n); }
  }

  /** The executor's node lookup never fails for a plan whose successors resolve, submitted at a
      resolvable entry, and its next-node tuple never has a second entry to drop. */
  lemma LookupsNeverFail(env: Registry, b: Behaviour, i: nat, slot: nat)
    requires IsBehaviour(env, b) && i < |b.states| && !ThreadAt(b.states[i], slot).Idle?
    ensures ThreadAt(b.states[i], slot).c.r in b.states[i].db
    ensures var th := ThreadAt(b.states[i], slot);
      var rec := b.states[i].db[th.c.r];
      Closed(env(rec.run.planId)) && Resolvable(env(rec.run.planId), rec.fingerprint.nextNodes) ==>
        Resolvable(env(rec.run.planId), th.c.next)
  {
    hide RecInv, IntentInv, Exclusive, Effects.WellFormed, Current;
    AlwaysInv(env, b, i);
    ThreadOf(env, b.states[i], slot);
  }

  // ---------------------------------------------------------------- Postgres

  /** Postgres's transition_run: the checks run on a row read without a lock, the update is guarded
      by the version alone and writes the state and next nodes given, or else those read. */
  function UnlockedTransition(
    seen: Run, now: Record, expected: nat, target: RunStatus, state: Option<State>, next: Option<seq<NodeId>>
  ): Result<Record> {
    if seen.version != expected then Err(Conflict)
    else if !Allowed(seen.status, target) then Err(InvalidTransition(seen.status, target))
    else if now.run.version != expected then Err(Conflict)
    else Ok(now.(
        run := SetStatus(now.run, target).(
          state := if state.Some? then state.value else seen.state,
          nextNodes := if next.Some? then next.value else seen.nextNodes),
        events := AppendEvent(now.events, StateChanged(seen.status, target))))
  }

  /** However much happens between the read and the update, the pair is the one exclusive step: at
      update time if the read passed its checks, at read time if it did not. */
  lemma UnlockedReadRefines(
    env: Registry, b: Behaviour, i: nat, j: nat, r: RunId, expected: nat, target: RunStatus, state: Option<State>, next: Option<seq<NodeId>>
  )
    requires IsBehaviour(env, b) && i <= j < |b.states| && r in b.states[i].db
    ensures r in b.states[j].db
    ensures var seen, now := b.states[i].db[r], b.states[j].db[r];
      var outcome := UnlockedTransition(seen.run, now, expected, target, state, next);
      if TransitionRun(seen, expected, target, state, next).Ok?
      then outcome == TransitionRun(now, expected, target, state, next)
      else outcome == TransitionRun(seen, expected, target, state, next)
  {
    VersionDeterminesRow(env, b, i, j, r);
    hide IsBehaviour, TransitionRun, UnlockedTransition;
    UnlockedIsExclusive(b.states[i].db[r], b.states[j].db[r], expected, target, state, next);
  }

  lemma UnlockedIsExclusive(seen: Record, now: Record, expected: nat, target: RunStatus, state: Option<State>, next: Option<seq<NodeId>>)
    requires seen.run.version == now.run.version ==> seen.run == now.run
    ensures var outcome := UnlockedTransition(seen.run, now, expected, target, state, next);
      if TransitionRun(seen, expected, target, state, next).Ok?
      then outcome == TransitionRun(now, expected, target, state, next)
      else outcome == TransitionRun(seen, expected, target, state, next)
  {
    hide AppendEvent, Allowed;
  }
}
