/** Recoverability of the durable protocol: whatever has happened to a queued or running run, if
    sequential execution from its latest checkpoint ends, some continuation completes it. */
module Recovery {
  import opened Models
  import opened Records
  import opened Sequential
  import opened RecordInvariant
  import opened Protocol
  import opened WorkerProof
  import History
  import ToolExecution
  import Effects

  /** The state after these further steps. */
  ghost function Execute(env: Registry, s: Sys, labels: seq<Label>): Sys
    decreases |labels|
  {
    if labels == [] then s else Execute(env, Next(env, s, labels[0]), labels[1..])
  }

  lemma {:induction false} ExecuteJoined(env: Registry, s: Sys, first: seq<Label>, second: seq<Label>)
    ensures Execute(env, s, first + second) == Execute(env, Execute(env, s, first), second)
    decreases |first|
  {
    hide Next;
    if first == [] {
      assert first + second == second;
    } else {
      ExecuteJoined(env, Next(env, s, first[0]), first[1..], second);
      assert (first + second)[1..] == first[1..] + second;
    }
  }

  lemma {:induction false} ExecuteKeeps(env: Registry, s: Sys, labels: seq<Label>)
    requires Inv(env, s)
    ensures Inv(env, Execute(env, s, labels))
    decreases |labels|
  {
    hide Next, Inv;
    if labels != [] {
      StepKeeps(env, s, labels[0]);
      ExecuteKeeps(env, Next(env, s, labels[0]), labels[1..]);
    }
  }

  lemma ExecuteOne(env: Registry, s: Sys, l: Label)
    ensures Execute(env, s, [l]) == Next(env, s, l)
  {
    hide Next;
    assert [l][1..] == [];
  }

  // ---------------------------------------------------------------- one worker, one node

  /** The thread in this slot holds the run under an unexpired lease and knows its version. */
  ghost predicate Holds(s: Sys, slot: nat, th: Thread, expiry: Time) {
    && ThreadAt(s, slot) == th && !th.Idle? && th.c.r in s.db
    && s.db[th.c.r].run.status == Running && s.db[th.c.r].run.version == th.c.version
    && s.db[th.c.r].lease == Some(Lease(th.c.worker, expiry, th.c.token, true))
  }

  /** A step that moves the thread and no row. */
  ghost predicate Moves(s: Sys, after: Sys, slot: nat, th: Thread) {
    after.db == s.db && after.ledger == s.ledger && ThreadAt(after, slot) == th
  }

  function Here(rec: Record, c: Claim): Config {
    Config(|rec.checkpoints|, c.state, c.next)
  }

  /** The interrupt that carries a recorded decision. */
  lemma Recorded(m: map<InterruptId, Interrupt>, node: NodeId, sequence: nat) returns (found: InterruptId)
    requires UniqueAsks(m) && (node, sequence) in DecisionsOf(m)
    ensures found in m && Matches(m[found], node, sequence) && m[found].decision == Some(DecisionsOf(m)[(node, sequence)]) && !Unasked(m, node, sequence)
  {
    found :| found in m && m[found].decision.Some? && (node, sequence) == (m[found].nodeId, m[found].checkpointSequence);
  }

  /** Calling the handler where its output is known leads to that output, at once or through the recorded decision. */
  lemma CallLeads(p: Program, rec: Record, c: Claim, out: Output) returns (found: InterruptId)
    requires UniqueAsks(rec.interrupts) && c.next != [] && c.next[0] in p.nodes
    requires OutputAt(p, DecisionsOf(rec.interrupts), Here(rec, c)) == Some(out)
    ensures var th := AfterCall(p, rec, c, |rec.checkpoints| + 1, found);
      th == Settle(p, c, |rec.checkpoints| + 1, out) ||
      (th.Answered? && th.c == c && th.sequence == |rec.checkpoints| + 1 && p.resume(c.next[0], c.state, th.decision) == out)
  {
    hide DecisionsOf, UniqueAsks, Unasked, Settle;
    found := 0;
    var id := c.next[0];
    if !p.nodes[id].kind.RouterNode? && p.call(id, c.state).Asks? {
      found := Recorded(rec.interrupts, id, |rec.checkpoints| + 1);
    }
  }

  lemma SettleLeads(p: Program, d: Decisions, rec: Record, c: Claim, out: Output, b: Config)
    requires c.next != [] && c.next[0] in p.nodes && OutputAt(p, d, Here(rec, c)) == Some(out) && Step(p, d, Here(rec, c)) == Some(b)
    ensures var th := Settle(p, c, |rec.checkpoints| + 1, out);
      if b.committed == |rec.checkpoints| then th == Looping(c.(state := b.state, next := b.next))
      else b.committed == |rec.checkpoints| + 1 && th == Computed(c, |rec.checkpoints| + 1, b.state, b.next)
  {
  }

  lemma StepNeedsOutput(p: Program, d: Decisions, c: Config)
    requires Step(p, d, c).Some?
    ensures c.next != [] && c.next[0] in p.nodes && OutputAt(p, d, c).Some?
  {
  }

  /** From the loop head to the handler's result. */
  lemma ReachResult(env: Registry, s: Sys, slot: nat, c: Claim, expiry: Time, b: Config) returns (labels: seq<Label>, th: Thread)
    requires Inv(env, s) && Holds(s, slot, Looping(c), expiry) && UniqueAsks(s.db[c.r].interrupts)
    requires Step(env(s.db[c.r].run.planId), DecisionsOf(s.db[c.r].interrupts), Here(s.db[c.r], c)) == Some(b)
    ensures Moves(s, Execute(env, s, labels), slot, th)
    ensures var n := |s.db[c.r].checkpoints|;
      if b.committed == n then th == Looping(c.(state := b.state, next := b.next))
      else b.committed == n + 1 && th == Computed(c, n + 1, b.state, b.next)
  {
    hide Inv, Next, Settle, AfterCall, OutputAt, Step, DecisionsOf, UniqueAsks, Execute;
    var rec := s.db[c.r];
    var p, d, n := env(rec.run.planId), DecisionsOf(rec.interrupts), |rec.checkpoints|;
    StepNeedsOutput(p, d, Here(rec, c));
    var out := OutputAt(p, d, Here(rec, c)).value;
    var found := CallLeads(p, rec, c, out);
    SettleLeads(p, d, rec, c, out, b);
    labels := [CheckRun(slot), ReadCheckpoint(slot), CallHandler(slot, found)];
    ToHandler(env, s, slot, c, expiry, found);
    var called := Execute(env, s, labels);
    th := AfterCall(p, rec, c, n + 1, found);
    if th != Settle(p, c, n + 1, out) {
      Resumes(env, called, slot, th);
      ExecuteJoined(env, s, labels, [ResumeHandler(slot)]);
      ExecuteOne(env, called, ResumeHandler(slot));
      labels := labels + [ResumeHandler(slot)];
      th := Settle(p, c, n + 1, out);
    }
  }

  /** Check the row, read the checkpoint sequence, call the handler. */
  lemma ToHandler(env: Registry, s: Sys, slot: nat, c: Claim, expiry: Time, found: InterruptId)
    requires Inv(env, s) && Holds(s, slot, Looping(c), expiry) && c.next != []
    ensures Moves(s, Execute(env, s, [CheckRun(slot), ReadCheckpoint(slot), CallHandler(slot, found)]), slot,
                  AfterCall(env(s.db[c.r].run.planId), s.db[c.r], c, |s.db[c.r].checkpoints| + 1, found))
  {
    hide Inv, Next, AfterCall, LatestSequence, Execute;
    Latest(env, s, c.r);
    Checks(env, s, slot, c, expiry);
    var s1 := Next(env, s, CheckRun(slot));
    ReadsCheckpoint(env, s1, slot, c);
    var s2 := Next(env, s1, ReadCheckpoint(slot));
    Calls(env, s2, slot, c, |s.db[c.r].checkpoints| + 1, found);
    ThreeSteps(env, s, [CheckRun(slot), ReadCheckpoint(slot), CallHandler(slot, found)]);
  }

  lemma Checks(env: Registry, s: Sys, slot: nat, c: Claim, expiry: Time)
    requires Holds(s, slot, Looping(c), expiry) && c.next != []
    ensures Moves(s, Next(env, s, CheckRun(slot)), slot, Checked(c))
  {
  }

  lemma ReadsCheckpoint(env: Registry, s: Sys, slot: nat, c: Claim)
    requires ThreadAt(s, slot) == Checked(c) && c.r in s.db
    ensures Moves(s, Next(env, s, ReadCheckpoint(slot)), slot, Handling(c, LatestSequence(s.db[c.r].checkpoints) + 1))
  {
    hide LatestSequence;
  }

  lemma Calls(env: Registry, s: Sys, slot: nat, c: Claim, sequence: nat, found: InterruptId)
    requires ThreadAt(s, slot) == Handling(c, sequence) && c.r in s.db
    ensures Moves(s, Next(env, s, CallHandler(slot, found)), slot, AfterCall(env(s.db[c.r].run.planId), s.db[c.r], c, sequence, found))
  {
    hide AfterCall;
  }

  lemma Resumes(env: Registry, s: Sys, slot: nat, th: Thread)
    requires ThreadAt(s, slot) == th && th.Answered? && th.c.r in s.db && th.c.next != [] && th.c.next[0] in env(s.db[th.c.r].run.planId).nodes
    ensures var p := env(s.db[th.c.r].run.planId);
      Moves(s, Next(env, s, ResumeHandler(slot)), slot, Settle(p, th.c, th.sequence, p.resume(th.c.next[0], th.c.state, th.decision)))
  {
    hide Settle;
  }

  lemma Latest(env: Registry, s: Sys, r: RunId)
    requires Inv(env, s) && r in s.db
    ensures LatestSequence(s.db[r].checkpoints) == |s.db[r].checkpoints|
  {
    hide ThreadInv, IntentInv, Exclusive, Effects.WellFormed, Holding, Waits, Logged, Traced, Marked;
    assert RecInv(env(s.db[r].run.planId), Effects.Watermark(s.ledger, r), s.db[r]);
    LatestIsLength(s.db[r].checkpoints);
  }

  lemma ThreeSteps(env: Registry, s: Sys, labels: seq<Label>)
    requires |labels| == 3
    ensures Execute(env, s, labels) == Next(env, Next(env, Next(env, s, labels[0]), labels[1]), labels[2])
  {
    hide Next;
    var a := Next(env, s, labels[0]);
    var b := Next(env, a, labels[1]);
    assert Execute(env, s, labels) == Execute(env, a, labels[1..]);
    assert Execute(env, a, labels[1..]) == Execute(env, b, labels[2..]) by { assert labels[1..][1..] == labels[2..]; }
    assert Execute(env, b, labels[2..]) == Next(env, b, labels[2]) by { assert labels[2..][1..] == []; }
  }

  /** Commit a computed result: the worker is at the loop head again, one checkpoint later. */
  lemma CommitResult(env: Registry, s: Sys, slot: nat, c: Claim, expiry: Time, after: State, successors: seq<NodeId>) returns (c': Claim)
    requires Inv(env, s) && c.r in s.db && Holds(s, slot, Computed(c, |s.db[c.r].checkpoints| + 1, after, successors), expiry)
    ensures var end := Execute(env, s, [ReadWatermark(slot), Commit(slot, expiry - 1)]); var n := |s.db[c.r].checkpoints|;
      Holds(end, slot, Looping(c'), expiry) && c'.r == c.r && Here(end.db[c.r], c') == Config(n + 1, after, successors) &&
      end.db[c.r].interrupts == s.db[c.r].interrupts && end.db[c.r].run.planId == s.db[c.r].run.planId
  {
    hide Inv, Next, LatestSequence, Execute, Effects.Watermark, ThreadInv, RecordsInv, RecInv;
    Latest(env, s, c.r);
    var n := |s.db[c.r].checkpoints|;
    var mark := Effects.Watermark(s.ledger, c.r);
    ReadsWatermark(env, s, slot, c, n + 1, after, successors);
    var s1 := Next(env, s, ReadWatermark(slot));
    assert Holds(s1, slot, Committing(c, n + 1, after, successors, mark), expiry);
    c' := Commits(env, s1, slot, c, expiry, after, successors, mark);
    TwoSteps(env, s, ReadWatermark(slot), Commit(slot, expiry - 1));
  }

  lemma TwoSteps(env: Registry, s: Sys, k: Label, l: Label)
    ensures Execute(env, s, [k, l]) == Next(env, Next(env, s, k), l)
  {
    hide Next;
    assert [k, l][1..] == [l];
    ExecuteOne(env, Next(env, s, k), l);
  }

  lemma ReadsWatermark(env: Registry, s: Sys, slot: nat, c: Claim, sequence: nat, after: State, successors: seq<NodeId>)
    requires ThreadAt(s, slot) == Computed(c, sequence, after, successors)
    ensures Moves(s, Next(env, s, ReadWatermark(slot)), slot, Committing(c, sequence, after, successors, Effects.Watermark(s.ledger, c.r)))
  {
  }

  lemma Commits(env: Registry, s: Sys, slot: nat, c: Claim, expiry: Time, after: State, successors: seq<NodeId>, mark: nat) returns (c': Claim)
    requires c.r in s.db && LatestSequence(s.db[c.r].checkpoints) == |s.db[c.r].checkpoints|
    requires Holds(s, slot, Committing(c, |s.db[c.r].checkpoints| + 1, after, successors, mark), expiry)
    ensures var end := Next(env, s, Commit(slot, expiry - 1)); var n := |s.db[c.r].checkpoints|;
      Holds(end, slot, Looping(c'), expiry) && c'.r == c.r && Here(end.db[c.r], c') == Config(n + 1, after, successors) &&
      end.db[c.r].interrupts == s.db[c.r].interrupts && end.db[c.r].run.planId == s.db[c.r].run.planId
  {
    hide LatestSequence, AppendEvent;
    c' := c.(version := c.version + 1, state := after, next := successors);
  }

  /** One sequential step, made by the worker. */
  lemma NodeForward(env: Registry, s: Sys, slot: nat, c: Claim, expiry: Time, b: Config) returns (labels: seq<Label>, c': Claim)
    requires Inv(env, s) && Holds(s, slot, Looping(c), expiry) && UniqueAsks(s.db[c.r].interrupts)
    requires Step(env(s.db[c.r].run.planId), DecisionsOf(s.db[c.r].interrupts), Here(s.db[c.r], c)) == Some(b)
    ensures var end := Execute(env, s, labels);
      Inv(env, end) && Holds(end, slot, Looping(c'), expiry) && c'.r == c.r && Here(end.db[c.r], c') == b &&
      end.db[c.r].interrupts == s.db[c.r].interrupts && end.db[c.r].run.planId == s.db[c.r].run.planId
  {
    hide Inv, Next, Execute, Step, DecisionsOf, UniqueAsks;
    var th;
    labels, th := ReachResult(env, s, slot, c, expiry, b);
    var mid := Execute(env, s, labels);
    ExecuteKeeps(env, s, labels);
    if th.Looping? {
      c' := th.c;
    } else {
      c' := CommitResult(env, mid, slot, c, expiry, b.state, b.next);
      var more := [ReadWatermark(slot), Commit(slot, expiry - 1)];
      ExecuteJoined(env, s, labels, more);
      ExecuteKeeps(env, mid, more);
      labels := labels + more;
    }
  }

  // ---------------------------------------------------------------- to the end

  lemma FinishRun(env: Registry, s: Sys, slot: nat, c: Claim, expiry: Time)
    requires Inv(env, s) && Holds(s, slot, Looping(c), expiry) && c.next == []
    ensures var end := Execute(env, s, [Finish(slot, expiry - 1)]);
      c.r in end.db && end.db[c.r].run.status == Succeeded && end.db[c.r].run.state == c.state && end.db[c.r].run.nextNodes == []
  {
    hide Next, Execute;
    ExecuteOne(env, s, Finish(slot, expiry - 1));
    AtEnd(env, s, slot, c);
    Finishes(env, s, slot, c, expiry);
  }

  lemma AtEnd(env: Registry, s: Sys, slot: nat, c: Claim)
    requires Inv(env, s) && ThreadAt(s, slot) == Looping(c) && c.r in s.db && s.db[c.r].run.version == c.version && c.next == []
    ensures s.db[c.r].run.state == c.state && s.db[c.r].run.nextNodes == []
  {
    ThreadOf(env, s, slot);
    hide Inv, Reaches, DecisionsOf;
  }

  lemma Finishes(env: Registry, s: Sys, slot: nat, c: Claim, expiry: Time)
    requires Holds(s, slot, Looping(c), expiry) && c.next == []
    ensures var end := Next(env, s, Finish(slot, expiry - 1));
      c.r in end.db && end.db[c.r].run == SetStatus(s.db[c.r].run, Succeeded)
  {
    hide AppendEvent;
  }

  lemma {:induction false} RunToEnd(env: Registry, s: Sys, slot: nat, c: Claim, expiry: Time, n: nat, end: Config) returns (labels: seq<Label>)
    requires Inv(env, s) && Holds(s, slot, Looping(c), expiry) && UniqueAsks(s.db[c.r].interrupts) && end.next == []
    requires After(env(s.db[c.r].run.planId), DecisionsOf(s.db[c.r].interrupts), Here(s.db[c.r], c), n) == Some(end)
    ensures var s' := Execute(env, s, labels);
      c.r in s'.db && s'.db[c.r].run.status == Succeeded && s'.db[c.r].run.state == end.state && s'.db[c.r].run.nextNodes == []
    decreases n
  {
    hide Inv, Next, Execute, DecisionsOf, UniqueAsks;
    var p, d, here := env(s.db[c.r].run.planId), DecisionsOf(s.db[c.r].interrupts), Here(s.db[c.r], c);
    if n == 0 {
      labels := [Finish(slot, expiry - 1)];
      FinishRun(env, s, slot, c, expiry);
    } else {
      var b := FirstStep(p, d, here, n);
      hide Step, After;
      var first, c' := NodeForward(env, s, slot, c, expiry, b);
      var mid := Execute(env, s, first);
      var rest := RunToEnd(env, mid, slot, c', expiry, n - 1, end);
      ExecuteJoined(env, s, first, rest);
      labels := first + rest;
    }
  }

  lemma FirstStep(p: Program, d: Decisions, c: Config, n: nat) returns (b: Config)
    requires n > 0 && After(p, d, c, n).Some?
    ensures Step(p, d, c) == Some(b) && After(p, d, b, n - 1) == After(p, d, c, n)
  {
    hide Step;
    assert After(p, d, c, 0) == Some(c) && After(p, d, c, 1) == Step(p, d, c);
    if Step(p, d, c).None? {
      b := c;
      StuckStaysStuck(p, d, c, 1, n);
    } else {
      b := Step(p, d, c).value;
      AfterCompose(p, d, c, b, 1, n - 1);
    }
  }

  /** Put the run back on the queue if a worker has it, as the recovery of its lease does. */
  lemma Queue(env: Registry, s: Sys, r: RunId) returns (labels: seq<Label>)
    requires Inv(env, s) && r in s.db && (s.db[r].run.status == Queued || s.db[r].run.status == Running)
    ensures var q := Execute(env, s, labels);
      r in q.db && q.db[r].run.status == Queued && q.db[r].checkpoints == s.db[r].checkpoints && q.db[r].interrupts == s.db[r].interrupts
      && q.db[r].fingerprint == s.db[r].fingerprint && q.db[r].run.planId == s.db[r].run.planId && q.db[r].run.id == s.db[r].run.id
  {
    labels := [];
    if s.db[r].run.status == Running {
      hide Next, Inv;
      RecordFacts(env, s, r);
      var now := s.db[r].lease.value.expiresAt;
      labels := [Requeue(now, {r})];
      ExecuteOne(env, s, labels[0]);
      Requeues(env, s, r, now);
    }
  }

  lemma RecordFacts(env: Registry, s: Sys, r: RunId)
    requires Inv(env, s) && r in s.db
    ensures s.db[r].run.id == r && UniqueAsks(s.db[r].interrupts)
    ensures s.db[r].run.status == Running ==> s.db[r].lease.Some? && s.db[r].lease.value.active
    ensures var rec := s.db[r]; Config(|rec.checkpoints|, rec.run.state, rec.run.nextNodes) == Base(rec, |rec.checkpoints|)
  {
    hide ThreadInv, IntentInv, Exclusive, Effects.WellFormed, Logged, Traced, Marked;
    assert RecInv(env(s.db[r].run.planId), Effects.Watermark(s.ledger, r), s.db[r]);
  }

  lemma Requeues(env: Registry, s: Sys, r: RunId, now: Time)
    requires r in s.db && s.db[r].run.status == Running && LeaseOverdue(s.db[r].lease, now)
    ensures var q := Next(env, s, Requeue(now, {r}));
      r in q.db && q.db[r].run == SetStatus(s.db[r].run, Queued) && q.db[r].checkpoints == s.db[r].checkpoints
      && q.db[r].interrupts == s.db[r].interrupts && q.db[r].fingerprint == s.db[r].fingerprint
  {
    hide AppendEvent;
  }

  /** Claim a queued run in a free slot. */
  lemma Take(env: Registry, s: Sys, r: RunId) returns (slot: nat, c: Claim)
    requires Inv(env, s) && r in s.db && s.db[r].run.status == Queued
    ensures var end := Execute(env, s, [ClaimNext(slot, r, "worker", 0, 1)]);
      Holds(end, slot, Looping(c), 1) && c.r == r && Here(end.db[r], c) == Base(s.db[r], |s.db[r].checkpoints|) &&
      end.db[r].interrupts == s.db[r].interrupts && end.db[r].run.planId == s.db[r].run.planId && UniqueAsks(s.db[r].interrupts)
  {
    hide Next, Inv, UniqueAsks;
    slot := ToolExecution.Above(s.threads.Keys);
    ExecuteOne(env, s, ClaimNext(slot, r, "worker", 0, 1));
    RecordFacts(env, s, r);
    c := Claims(env, s, slot, r);
  }

  lemma Claims(env: Registry, s: Sys, slot: nat, r: RunId) returns (c: Claim)
    requires r in s.db && s.db[r].run.status == Queued && ThreadAt(s, slot).Idle?
    ensures var end := Next(env, s, ClaimNext(slot, r, "worker", 0, 1)); var rec := s.db[r];
      Holds(end, slot, Looping(c), 1) && c.r == r && c.state == rec.run.state && c.next == rec.run.nextNodes &&
      end.db[r].checkpoints == rec.checkpoints && end.db[r].interrupts == rec.interrupts && end.db[r].run.planId == rec.run.planId
  {
    hide AppendEvent;
    var rec := s.db[r];
    c := Claim(r, "worker", Token(rec.lease) + 1, rec.run.version + 1, rec.run.state, rec.run.nextNodes);
  }

  /** Sequential execution from the record's latest checkpoint ends there after n nodes (interrupts
      are unique in every reachable state). */
  ghost predicate EndsAt(p: Program, rec: Record, n: nat, end: Config) {
    UniqueAsks(rec.interrupts) && end.next == [] && After(p, DecisionsOf(rec.interrupts), Base(rec, |rec.checkpoints|), n) == Some(end)
  }

  /** Recoverability.  In every reachable state, a queued or running run whose sequential execution
      from its latest checkpoint ends within some number of nodes has a continuation in which it
      succeeds with the sequential result, whatever workers, leases and requests are around. */
  lemma Recoverable(env: Registry, b: History.Behaviour, i: nat, r: RunId, n: nat, end: Config) returns (labels: seq<Label>)
    requires History.IsBehaviour(env, b) && i < |b.states| && r in b.states[i].db
    requires b.states[i].db[r].run.status == Queued || b.states[i].db[r].run.status == Running
    requires EndsAt(env(b.states[i].db[r].run.planId), b.states[i].db[r], n, end)
    ensures var s := Execute(env, b.states[i], labels);
      r in s.db && s.db[r].run.status == Succeeded && s.db[r].run.state == end.state && s.db[r].run.nextNodes == []
  {
    hide Inv, Next, Execute, DecisionsOf, UniqueAsks, After;
    History.AlwaysInv(env, b, i);
    var s := b.states[i];
    var first := Queue(env, s, r);
    var queued := Execute(env, s, first);
    ExecuteKeeps(env, s, first);
    var slot, c := Take(env, queued, r);
    var second := [ClaimNext(slot, r, "worker", 0, 1)];
    var held := Execute(env, queued, second);
    ExecuteKeeps(env, queued, second);
    var third := RunToEnd(env, held, slot, c, 1, n, end);
    ExecuteJoined(env, s, first, second + third);
    ExecuteJoined(env, queued, second, third);
    labels := first + (second + third);
  }
}
