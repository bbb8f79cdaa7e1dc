/** The worker's own steps keep the invariant, and with them every step does. */
module WorkerProof {
  import opened Models
  import opened Records
  import opened Sequential
  import opened RecordInvariant
  import opened Protocol
  import opened ProtocolProof
  import Effects

  lemma ThreadOf(env: Registry, s: Sys, slot: nat)
    requires Inv(env, s)
    ensures ThreadInv(env, s.db, s.ledger, ThreadAt(s, slot))
  {
    hide RecInv, Current, IntentInv, Exclusive, Effects.WellFormed;
  }

  /** What a handler's output does locally is what sequential execution does. */
  lemma SettlePlaced(p: Program, rec: Record, th: Thread, sequence: nat, out: Output)
    requires !th.Idle? && Current(p, rec, th)
    requires sequence == |rec.checkpoints| + 1
    requires th.c.next != [] && th.c.next[0] in p.nodes
    requires OutputAt(p, DecisionsOf(rec.interrupts), Config(|rec.checkpoints|, th.c.state, th.c.next)) == Some(out)
    ensures var to := Settle(p, th.c, sequence, out);
      !to.Idle? && Current(p, rec, to) && to.c == th.c.(state := to.c.state, next := to.c.next) && !to.Committing?
  {
    var d := DecisionsOf(rec.interrupts);
    var here := Config(|rec.checkpoints|, th.c.state, th.c.next);
    var to := Settle(p, th.c, sequence, out);
    if to.Looping? {
      var there := Config(|rec.checkpoints|, to.c.state, to.c.next);
      assert Step(p, d, here) == Some(there);
      ReachesStep(p, d, Base(rec, |rec.checkpoints|), here, there);
    }
  }

  /** A thread that keeps its claim and whose new state is right whenever it is current. */
  lemma MoveKeeps(env: Registry, s: Sys, slot: nat, th: Thread, to: Thread)
    requires Inv(env, s)
    requires !th.Idle? && !to.Idle? && ThreadInv(env, s.db, s.ledger, th)
    requires to.c.r == th.c.r && to.c.version == th.c.version && to.c.token == th.c.token
    requires Lookups(env(s.db[th.c.r].run.planId), s.db[th.c.r].fingerprint.nextNodes, to.c.next)
    requires Heard(s.db[th.c.r].interrupts, to)
    requires to.Committing? ==> to.watermark <= Effects.Watermark(s.ledger, to.c.r)
    requires th.c.version == s.db[th.c.r].run.version ==> Current(env(s.db[th.c.r].run.planId), s.db[th.c.r], to)
    ensures Inv(env, Goto(s, slot, to))
  {
    hide RecInv, Current, IntentInv, Exclusive, Effects.WellFormed, Lookups, Heard;
    GotoKeeps(env, s, slot, to);
  }

  /** A worker that keeps its claim and promises nothing more. */
  lemma PlainCurrent(p: Program, rec: Record, th: Thread, to: Thread)
    requires !th.Idle? && Current(p, rec, th)
    requires (to.Looping? || to.Checked? || to.Failing? || to.Reporting?) && to.c == th.c
    ensures Current(p, rec, to)
  {
    hide Reaches;
  }

  lemma PlainKeeps(env: Registry, s: Sys, slot: nat, th: Thread, to: Thread)
    requires Inv(env, s)
    requires !th.Idle? && ThreadInv(env, s.db, s.ledger, th)
    requires (to.Looping? || to.Checked? || to.Failing? || to.Reporting?) && to.c == th.c
    ensures Inv(env, Goto(s, slot, to))
  {
    hide RecInv, IntentInv, Exclusive, Effects.WellFormed, Current;
    if th.c.version == s.db[th.c.r].run.version {
      PlainCurrent(env(s.db[th.c.r].run.planId), s.db[th.c.r], th, to);
    }
    MoveKeeps(env, s, slot, th, to);
  }

  lemma CheckKeeps(env: Registry, s: Sys, slot: nat)
    requires Inv(env, s)
    ensures Inv(env, DoCheck(s, slot))
  {
    hide RecInv, IntentInv, Exclusive, Effects.WellFormed, Current;
    ThreadOf(env, s, slot);
    var th := ThreadAt(s, slot);
    if th.Looping? && th.c.next != [] && th.c.r in s.db {
      PlainKeeps(env, s, slot, th, Failing(th.c));
      PlainKeeps(env, s, slot, th, Checked(th.c));
      GotoKeeps(env, s, slot, Idle);
    }
  }

  lemma ReadCheckpointCurrent(p: Program, watermark: nat, rec: Record, th: Thread)
    requires RecInv(p, watermark, rec) && th.Checked? && Current(p, rec, th)
    ensures Current(p, rec, Handling(th.c, LatestSequence(rec.checkpoints) + 1))
  {
    hide Waits, Holding, Logged, Traced, Marked, Reaches;
    LatestIsLength(rec.checkpoints);
  }

  lemma ReadCheckpointKeeps(env: Registry, s: Sys, slot: nat)
    requires Inv(env, s)
    ensures Inv(env, DoReadCheckpoint(s, slot))
  {
    hide RecInv, IntentInv, Exclusive, Effects.WellFormed, Current;
    ThreadOf(env, s, slot);
    var th := ThreadAt(s, slot);
    if th.Checked? && th.c.r in s.db {
      var r := th.c.r;
      if th.c.version == s.db[r].run.version {
        ReadCheckpointCurrent(env(s.db[r].run.planId), Effects.Watermark(s.ledger, r), s.db[r], th);
      }
      MoveKeeps(env, s, slot, th, Handling(th.c, LatestSequence(s.db[r].checkpoints) + 1));
    }
  }

  lemma AfterCallCurrent(p: Program, rec: Record, th: Thread, found: InterruptId)
    requires th.Handling? && Current(p, rec, th)
    ensures var to := AfterCall(p, rec, th.c, th.sequence, found);
      to.Idle? || (Current(p, rec, to) && !to.Committing?)
  {
    var c, sequence := th.c, th.sequence;
    var d := DecisionsOf(rec.interrupts);
    var here := Config(|rec.checkpoints|, c.state, c.next);
    if c.next != [] && c.next[0] in p.nodes {
      var id := c.next[0];
      var out := OutputAt(p, d, here);
      if p.nodes[id].kind.RouterNode? || p.call(id, c.state).Returns? {
        SettlePlaced(p, rec, th, sequence, out.value);
      } else if found in rec.interrupts && Matches(rec.interrupts[found], id, sequence) && rec.interrupts[found].decision.Some? {
        assert (id, sequence) in d && d[(id, sequence)] == rec.interrupts[found].decision.value;
      }
    }
  }

  lemma SettleLookups(p: Program, submitted: seq<NodeId>, c: Claim, sequence: nat, out: Output)
    requires c.next != [] && c.next[0] in p.nodes
    requires Lookups(p, submitted, c.next)
    ensures var to := Settle(p, c, sequence, out);
      && !to.Idle? && !to.Committing? && !to.Answered?
      && to.c == c.(state := to.c.state, next := to.c.next) && Lookups(p, submitted, to.c.next)
  {
    if Closed(p) && Interpret(p, c.next[0], c.state, out).Some? {
      InterpretResolvable(p, c.next[0], c.state, out);
    }
  }

  lemma AfterCallClaim(p: Program, rec: Record, c: Claim, sequence: nat, found: InterruptId)
    requires Lookups(p, rec.fingerprint.nextNodes, c.next)
    ensures var to := AfterCall(p, rec, c, sequence, found);
      to.Idle? ||
      (&& to.c == c.(state := to.c.state, next := to.c.next) && !to.Committing?
       && Lookups(p, rec.fingerprint.nextNodes, to.c.next) && Heard(rec.interrupts, to))
  {
    hide Lookups, Settle;
    if c.next != [] && c.next[0] in p.nodes {
      var id := c.next[0];
      if p.nodes[id].kind.RouterNode? {
        SettleLookups(p, rec.fingerprint.nextNodes, c, sequence, p.route(id, c.state));
      } else if p.call(id, c.state).Returns? {
        SettleLookups(p, rec.fingerprint.nextNodes, c, sequence, p.call(id, c.state).output);
      }
    }
  }

  lemma CallKeeps(env: Registry, s: Sys, slot: nat, found: InterruptId)
    requires Inv(env, s)
    ensures Inv(env, DoCall(env, s, slot, found))
  {
    hide RecInv, IntentInv, Exclusive, Effects.WellFormed, Current, AfterCall, Lookups, Heard;
    ThreadOf(env, s, slot);
    var th := ThreadAt(s, slot);
    if th.Handling? && th.c.r in s.db {
      var p, rec := env(s.db[th.c.r].run.planId), s.db[th.c.r];
      var to := AfterCall(p, rec, th.c, th.sequence, found);
      AfterCallClaim(p, rec, th.c, th.sequence, found);
      if to.Idle? {
        GotoKeeps(env, s, slot, to);
      } else {
        if th.c.version == rec.run.version {
          AfterCallCurrent(p, rec, th, found);
        }
        MoveKeeps(env, s, slot, th, to);
      }
    }
  }

  lemma ResumeCurrent(p: Program, rec: Record, th: Thread)
    requires th.Answered? && Current(p, rec, th)
    ensures var to := Settle(p, th.c, th.sequence, p.resume(th.c.next[0], th.c.state, th.decision));
      !to.Idle? && Current(p, rec, to) && !to.Committing?
  {
    SettlePlaced(p, rec, th, th.sequence, p.resume(th.c.next[0], th.c.state, th.decision));
  }

  lemma ResumeKeeps(env: Registry, s: Sys, slot: nat)
    requires Inv(env, s)
    ensures Inv(env, DoResume(env, s, slot))
  {
    hide RecInv, IntentInv, Exclusive, Effects.WellFormed, Current, Lookups, Settle;
    ThreadOf(env, s, slot);
    var th := ThreadAt(s, slot);
    if th.Answered? && th.c.r in s.db && th.c.next != [] && th.c.next[0] in env(s.db[th.c.r].run.planId).nodes {
      var p := env(s.db[th.c.r].run.planId);
      if th.c.version == s.db[th.c.r].run.version {
        ResumeCurrent(p, s.db[th.c.r], th);
      }
      SettleLookups(p, s.db[th.c.r].fingerprint.nextNodes, th.c, th.sequence, p.resume(th.c.next[0], th.c.state, th.decision));
      MoveKeeps(env, s, slot, th, Settle(p, th.c, th.sequence, p.resume(th.c.next[0], th.c.state, th.decision)));
    }
  }

  lemma WatermarkCurrent(p: Program, watermark: nat, rec: Record, th: Thread)
    requires RecInv(p, watermark, rec) && th.Computed? && Current(p, rec, th)
    ensures Current(p, rec, Committing(th.c, th.sequence, th.after, th.successors, watermark))
  {
    hide Waits, Holding, Logged, Traced, Rows, Reaches, Step;
  }

  lemma ReadWatermarkKeeps(env: Registry, s: Sys, slot: nat)
    requires Inv(env, s)
    ensures Inv(env, DoReadWatermark(s, slot))
  {
    hide RecInv, IntentInv, Exclusive, Effects.WellFormed, Current;
    ThreadOf(env, s, slot);
    var th := ThreadAt(s, slot);
    if th.Computed? {
      var r := th.c.r;
      var watermark := Effects.Watermark(s.ledger, r);
      if th.c.version == s.db[r].run.version {
        WatermarkCurrent(env(s.db[r].run.planId), watermark, s.db[r], th);
      }
      MoveKeeps(env, s, slot, th, Committing(th.c, th.sequence, th.after, th.successors, watermark));
    }
  }

  lemma FailKeeps(env: Registry, s: Sys, slot: nat)
    requires Inv(env, s) && !ThreadAt(s, slot).Idle?
    ensures Inv(env, Goto(s, slot, Failing(ThreadAt(s, slot).c)))
  {
    hide RecInv, IntentInv, Exclusive, Effects.WellFormed, Current;
    ThreadOf(env, s, slot);
    PlainKeeps(env, s, slot, ThreadAt(s, slot), Failing(ThreadAt(s, slot).c));
  }

  lemma ReadFailedKeeps(env: Registry, s: Sys, slot: nat)
    requires Inv(env, s)
    ensures Inv(env, DoReadFailed(s, slot))
  {
    hide RecInv, IntentInv, Exclusive, Effects.WellFormed, Current;
    ThreadOf(env, s, slot);
    var th := ThreadAt(s, slot);
    if th.Failing? && th.c.r in s.db {
      PlainKeeps(env, s, slot, th, Reporting(th.c, s.db[th.c.r].run.version));
      GotoKeeps(env, s, slot, Idle);
    }
  }

  lemma AskingCurrent(p: Program, rec: Record, th: Thread)
    requires th.Asking? && Current(p, rec, th)
    ensures th.c.next != [] && Unasked(rec.interrupts, th.c.next[0], th.sequence)
  {
    hide Reaches;
  }

  /** Nobody can have asked in between: asking bumps the version. */
  lemma CreateAskKeeps(env: Registry, s: Sys, slot: nat, id: InterruptId, createdAt: Time)
    requires Inv(env, s)
    ensures Inv(env, DoCreateAsk(env, s, slot, id, createdAt)) && DbSteps(s.db, DoCreateAsk(env, s, slot, id, createdAt).db)
  {
    hide RecInv, IntentInv, Exclusive, Effects.WellFormed, Steps, Evolves, Unasked, Current, Lookups, Heard;
    DbSelf(s.db);
    ThreadOf(env, s, slot);
    var th := ThreadAt(s, slot);
    if th.Asking? && th.c.r in s.db && th.c.next != [] {
      var r := th.c.r;
      var p := env(s.db[r].run.planId);
      var ask := AskOf(p, th.c, th.sequence, createdAt);
      match CreateInterrupt(s.db[r], id, ask, th.c.version) {
        case Ok(rec) =>
          AskingCurrent(p, s.db[r], th);
          CreateInterruptKeeps(p, Effects.Watermark(s.ledger, r), s.db[r], id, ask, th.c.version, rec);
          PutAndGoKeeps(env, s, r, rec, slot, Idle);
        case Err(_) =>
          AgainKeeps(env, s, slot, th);
      }
    }
  }

  /** Back in front of the handler, a worker knows what it knew before. */
  lemma AgainCurrent(p: Program, rec: Record, th: Thread)
    requires (th.Asking? || th.Answered?) && Current(p, rec, th)
    ensures Current(p, rec, Handling(th.c, th.sequence))
  {
    hide Reaches;
  }

  lemma AgainKeeps(env: Registry, s: Sys, slot: nat, th: Thread)
    requires Inv(env, s) && (th.Asking? || th.Answered?) && ThreadInv(env, s.db, s.ledger, th)
    ensures Inv(env, Goto(s, slot, Handling(th.c, th.sequence)))
  {
    hide RecInv, IntentInv, Exclusive, Effects.WellFormed, Current;
    if th.c.version == s.db[th.c.r].run.version {
      AgainCurrent(env(s.db[th.c.r].run.planId), s.db[th.c.r], th);
    }
    MoveKeeps(env, s, slot, th, Handling(th.c, th.sequence));
  }

  lemma RetryKeeps(env: Registry, s: Sys, slot: nat)
    requires Inv(env, s)
    ensures Inv(env, DoRetry(s, slot)) && DbSteps(s.db, DoRetry(s, slot).db)
  {
    hide RecInv, IntentInv, Exclusive, Effects.WellFormed, Current, Steps;
    DbSelf(s.db);
    ThreadOf(env, s, slot);
    var th := ThreadAt(s, slot);
    if th.Asking? || th.Answered? { AgainKeeps(env, s, slot, th); }
  }

  lemma CommitCurrent(p: Program, watermark: nat, rec: Record, th: Thread, now: Time, rec': Record)
    requires RecInv(p, watermark, rec) && th.Committing? && Current(p, rec, th) && th.watermark <= watermark
    requires CommitCheckpoint(rec, Checkpoint(th.sequence, p.hash, th.after, th.successors, th.watermark), th.c.worker, th.c.token, th.c.version, now) == Ok(rec')
    ensures RecInv(p, watermark, rec') && Steps(rec, rec')
    ensures Current(p, rec', Looping(th.c.(version := rec'.run.version, state := rec'.run.state, next := rec'.run.nextNodes)))
    ensures Lookups(p, rec'.fingerprint.nextNodes, rec'.run.nextNodes)
  {
    hide Rows, Holding, Waits, Logged, Traced, Marked;
    var ck := Checkpoint(th.sequence, p.hash, th.after, th.successors, th.watermark);
    var d := DecisionsOf(rec.interrupts);
    var here := Config(|rec.checkpoints|, th.c.state, th.c.next);
    ReachesStep(p, d, Base(rec, |rec.checkpoints|), here, Config(|rec.checkpoints| + 1, th.after, th.successors));
    CommitKeeps(p, watermark, rec, ck, th.c.worker, th.c.token, th.c.version, now, rec');
    FreshCopy(p, watermark, rec', th.c.(version := rec'.run.version, state := rec'.run.state, next := rec'.run.nextNodes));
  }

  lemma CommitLabelKeeps(env: Registry, s: Sys, slot: nat, now: Time)
    requires Inv(env, s)
    ensures Inv(env, DoCommit(env, s, slot, now)) && DbSteps(s.db, DoCommit(env, s, slot, now).db)
  {
    hide RecInv, IntentInv, Exclusive, Effects.WellFormed, Evolves, Current, Lookups;
    DbSelf(s.db);
    ThreadOf(env, s, slot);
    var th := ThreadAt(s, slot);
    if th.Committing? && th.c.r in s.db {
      var r := th.c.r;
      var p := env(s.db[r].run.planId);
      var ck := Checkpoint(th.sequence, p.hash, th.after, th.successors, th.watermark);
      match CommitCheckpoint(s.db[r], ck, th.c.worker, th.c.token, th.c.version, now) {
        case Ok(rec) =>
          CommitCurrent(p, Effects.Watermark(s.ledger, r), s.db[r], th, now, rec);
          PutAndGoKeeps(env, s, r, rec, slot, Looping(th.c.(version := rec.run.version, state := rec.run.state, next := rec.run.nextNodes)));
        case Err(_) =>
          FailKeeps(env, s, slot);
      }
    }
  }

  lemma FinishLabelKeeps(env: Registry, s: Sys, slot: nat, now: Time)
    requires Inv(env, s)
    ensures Inv(env, DoFinish(s, slot, now)) && DbSteps(s.db, DoFinish(s, slot, now).db)
  {
    hide RecInv, IntentInv, Exclusive, Effects.WellFormed, Steps, Evolves, Reaches;
    DbSelf(s.db);
    ThreadOf(env, s, slot);
    var th := ThreadAt(s, slot);
    if th.Looping? && th.c.r in s.db && th.c.next == [] {
      var r := th.c.r;
      match FinishClaim(s.db[r], th.c.worker, th.c.token, th.c.version, Succeeded, None, now) {
        case Ok(rec) =>
          FinishKeeps(env(s.db[r].run.planId), Effects.Watermark(s.ledger, r), s.db[r], th.c.worker, th.c.token, th.c.version, Succeeded, None, now, rec);
          PutAndGoKeeps(env, s, r, rec, slot, Idle);
        case Err(_) =>
          FailKeeps(env, s, slot);
      }
    }
  }

  lemma ReportKeeps(env: Registry, s: Sys, slot: nat, target: RunStatus, message: string, now: Time)
    requires Inv(env, s)
    ensures Inv(env, DoReport(s, slot, target, message, now)) && DbSteps(s.db, DoReport(s, slot, target, message, now).db)
  {
    hide RecInv, IntentInv, Exclusive, Effects.WellFormed, Steps, Evolves, Current;
    DbSelf(s.db);
    ThreadOf(env, s, slot);
    var th := ThreadAt(s, slot);
    if th.Reporting? && th.c.r in s.db && (target == Failed || target == TimedOut) {
      var r := th.c.r;
      match FinishClaim(s.db[r], th.c.worker, th.c.token, th.seen, target, Some(message), now) {
        case Ok(rec) =>
          FinishKeeps(env(s.db[r].run.planId), Effects.Watermark(s.ledger, r), s.db[r], th.c.worker, th.c.token, th.seen, target, Some(message), now, rec);
          PutAndGoKeeps(env, s, r, rec, slot, Idle);
        case Err(_) =>
          GotoKeeps(env, s, slot, Idle);
      }
    }
  }

  /** The steps of the store, its callers and the ledger. */
  predicate OfStore(l: Label) {
    l.Submit? || l.ClaimNext? || l.Renew? || l.Requeue? || l.Expire? || l.Decide? || l.Observe? || l.Apply? || l.LogAttempt? || l.Effect?
  }

  lemma StoreStepKeeps(env: Registry, s: Sys, l: Label)
    requires Inv(env, s) && OfStore(l)
    ensures Inv(env, Next(env, s, l)) && DbSteps(s.db, Next(env, s, l).db)
  {
    hide Inv, Steps, RequeueAll, ExpireAll, ClaimRun, TransitionRun, DecideInterrupt, RenewLease;
    DbSelf(s.db);
    match l {
      case Submit(run) => SubmitKeeps(env, s, run);
      case ClaimNext(slot, r, worker, now, leaseSeconds) => ClaimNextKeeps(env, s, slot, r, worker, now, leaseSeconds);
      case Renew(r, worker, token, leaseSeconds, now, clock) => RenewLabelKeeps(env, s, r, worker, token, leaseSeconds, now, clock);
      case Requeue(now, rows) => RequeueLabelKeeps(env, s, now, rows);
      case Expire(now, rows) => ExpireLabelKeeps(env, s, now, rows);
      case Decide(r, id, decision, expected) => DecideLabelKeeps(env, s, r, id, decision, expected);
      case Observe(intent) => ObserveKeeps(env, s, intent);
      case Apply(intent) => ApplyKeeps(env, s, intent);
      case LogAttempt(r, nodeId, attempt) => LogKeeps(env, s, r, nodeId, attempt);
      case Effect(action, now, ledger) => EffectKeeps(env, s, action, now, ledger);
    }
  }

  lemma WorkerStepKeeps(env: Registry, s: Sys, l: Label)
    requires Inv(env, s) && !OfStore(l)
    ensures Inv(env, Next(env, s, l)) && DbSteps(s.db, Next(env, s, l).db)
  {
    hide Inv, Steps, AfterCall, Settle, CommitCheckpoint, FinishClaim, CreateInterrupt;
    DbSelf(s.db);
    match l {
      case CheckRun(slot) => CheckKeeps(env, s, slot);
      case ReadCheckpoint(slot) => ReadCheckpointKeeps(env, s, slot);
      case CallHandler(slot, found) => CallKeeps(env, s, slot, found);
      case CreateAsk(slot, id, createdAt) => CreateAskKeeps(env, s, slot, id, createdAt);
      case ResumeHandler(slot) => ResumeKeeps(env, s, slot);
      case Retry(slot) => RetryKeeps(env, s, slot);
      case ReadWatermark(slot) => ReadWatermarkKeeps(env, s, slot);
      case Commit(slot, now) => CommitLabelKeeps(env, s, slot, now);
      case Finish(slot, now) => FinishLabelKeeps(env, s, slot, now);
      case Raise(slot) =>
        if !ThreadAt(s, slot).Idle? {
          FailKeeps(env, s, slot);
        }
      case ReadFailed(slot) => ReadFailedKeeps(env, s, slot);
      case Report(slot, target, message, now) => ReportKeeps(env, s, slot, target, message, now);
      case Stop(slot) => GotoKeeps(env, s, slot, Idle);
    }
  }

  /** Every step keeps the invariant and moves every record by at most one transaction. */
  lemma StepKeeps(env: Registry, s: Sys, l: Label)
    requires Inv(env, s)
    ensures Inv(env, Next(env, s, l)) && DbSteps(s.db, Next(env, s, l).db)
  {
    hide Inv, Next, DbSteps;
    if OfStore(l) { StoreStepKeeps(env, s, l); } else { WorkerStepKeeps(env, s, l); }
  }
}
