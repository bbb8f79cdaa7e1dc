/** Every step of the protocol keeps its invariant and evolves every record. */
module ProtocolProof {
  import opened Models
  import opened Records
  import opened Sequential
  import opened RecordInvariant
  import opened Protocol
  import Effects

  /** Every run's rows take a step; no run disappears. */
  ghost predicate DbSteps(db: Db, db': Db) {
    forall r :: r in db ==> r in db' && Steps(db[r], db'[r])
  }

  ghost predicate DbEvolves(db: Db, db': Db) {
    forall r :: r in db ==> r in db' && Evolves(db[r], db'[r])
  }

  lemma PlacedStable(p: Program, a: Record, b: Record, th: Thread)
    requires !th.Idle? && UniqueAsks(a.interrupts) && Placed(p, a, th)
    requires b.run == a.run && b.checkpoints == a.checkpoints && b.interrupts == a.interrupts && b.fingerprint == a.fingerprint
    ensures Placed(p, b, th)
  {
    assert Base(b, |b.checkpoints|) == Base(a, |a.checkpoints|);
  }

  lemma HeardStable(m: map<InterruptId, Interrupt>, m': map<InterruptId, Interrupt>, th: Thread)
    requires Heard(m, th) && AsksEvolve(m, m')
    ensures Heard(m', th)
  {
    if th.Answered? {
      var i :| i in m && Matches(m[i], th.c.next[0], th.sequence) && m[i].decision == Some(th.decision);
      assert AskEvolves(m[i], m'[i]);
    }
  }

  /** A worker's knowledge survives whatever others do to the run. */
  lemma ThreadStable(env: Registry, db: Db, db': Db, ledger: Effects.Ledger, ledger': Effects.Ledger, th: Thread)
    requires ThreadInv(env, db, ledger, th)
    requires DbEvolves(db, db') && Effects.LedgerEvolves(ledger, ledger')
    ensures ThreadInv(env, db', ledger', th)
  {
    if !th.Idle? {
      var r := th.c.r;
      Effects.WatermarkMonotone(ledger, ledger', r);
      var a, b := db[r], db'[r];
      assert Evolves(a, b);
      HeardStable(a.interrupts, b.interrupts, th);
      if th.c.version == b.run.version {
        PlacedStable(env(a.run.planId), a, b, th);
      }
    }
  }

  lemma IntentStable(db: Db, db': Db, intent: Intent)
    requires IntentInv(db, intent) && DbEvolves(db, db')
    ensures IntentInv(db', intent)
  {
    assert Evolves(db[intent.seen.id], db'[intent.seen.id]);
  }

  lemma ExclusiveStable(db: Db, db': Db)
    requires Exclusive(db) && db'.Keys == db.Keys && DbEvolves(db, db')
    ensures Exclusive(db')
  {
    forall q, r | q in db' && r in db' && SameSession(db'[q].run, db'[r].run) ensures q == r {
      assert Evolves(db[q], db'[q]) && Evolves(db[r], db'[r]);
      assert SameSession(db[q].run, db[r].run);
    }
    forall q, r | q in db' && r in db' && SameRequest(db'[q].run, db'[r].run) ensures q == r {
      assert Evolves(db[q], db'[q]) && Evolves(db[r], db'[r]);
      assert SameRequest(db[q].run, db[r].run);
    }
  }

  /** The invariant after a step, from what the step did to the records and to the threads it moved. */
  lemma Assemble(env: Registry, s: Sys, s': Sys)
    requires Inv(env, s)
    requires DbEvolves(s.db, s'.db) && Effects.LedgerEvolves(s.ledger, s'.ledger) && Effects.WellFormed(s'.ledger)
    requires RecordsInv(env, s'.db, s'.ledger) && Exclusive(s'.db)
    requires s'.intents == s.intents
    requires forall slot :: slot in s'.threads ==>
      || (slot in s.threads && s'.threads[slot] == s.threads[slot])
      || ThreadInv(env, s'.db, s'.ledger, s'.threads[slot])
    ensures Inv(env, s')
  {
    hide RecInv, Current, Exclusive, IntentInv, Steps, Evolves;
    forall slot | slot in s'.threads ensures ThreadInv(env, s'.db, s'.ledger, s'.threads[slot]) {
      if slot in s.threads && s'.threads[slot] == s.threads[slot] {
        ThreadStable(env, s.db, s'.db, s.ledger, s'.ledger, s.threads[slot]);
      }
    }
    forall intent | intent in s'.intents ensures IntentInv(s'.db, intent) {
      IntentStable(s.db, s'.db, intent);
    }
  }

  lemma LedgerSelf(ledger: Effects.Ledger)
    ensures Effects.LedgerEvolves(ledger, ledger)
  {
  }

  lemma RecordsPut(env: Registry, db: Db, ledger: Effects.Ledger, r: RunId, rec: Record)
    requires RecordsInv(env, db, ledger)
    requires rec.run.id == r && RecInv(env(rec.run.planId), Effects.Watermark(ledger, r), rec)
    ensures RecordsInv(env, db[r := rec], ledger)
  {
    forall q | q in db[r := rec]
      ensures db[r := rec][q].run.id == q
      ensures RecInv(env(db[r := rec][q].run.planId), Effects.Watermark(ledger, q), db[r := rec][q])
    {
    }
  }

  lemma DbStepsPut(db: Db, r: RunId, rec: Record)
    requires r in db && Steps(db[r], rec)
    ensures DbSteps(db, db[r := rec]) && DbEvolves(db, db[r := rec]) && db[r := rec].Keys == db.Keys
  {
  }

  lemma SameIdentity(a: Record, b: Record)
    requires Steps(a, b)
    ensures b.run.id == a.run.id && b.run.planId == a.run.planId
  {
  }

  /** One record changes by a transaction that keeps the record invariant; threads move only to
      states they are entitled to. */
  lemma PutKeeps(env: Registry, s: Sys, r: RunId, rec: Record, threads: map<nat, Thread>)
    requires Inv(env, s) && r in s.db
    requires Steps(s.db[r], rec)
    requires RecInv(env(s.db[r].run.planId), Effects.Watermark(s.ledger, r), rec)
    requires forall slot :: slot in threads ==>
      || (slot in s.threads && threads[slot] == s.threads[slot])
      || ThreadInv(env, s.db[r := rec], s.ledger, threads[slot])
    ensures Inv(env, Put(s, r, rec).(threads := threads))
    ensures DbSteps(s.db, s.db[r := rec])
  {
    hide RecInv, Current, Exclusive, IntentInv, Evolves, Steps, Effects.WellFormed, Effects.LedgerEvolves, ThreadInv;
    DbStepsPut(s.db, r, rec);
    SameIdentity(s.db[r], rec);
    RecordsPut(env, s.db, s.ledger, r, rec);
    ExclusiveStable(s.db, s.db[r := rec]);
    LedgerSelf(s.ledger);
    Assemble(env, s, Put(s, r, rec).(threads := threads));
  }

  /** A transaction by a process other than the workers. */
  lemma PutAloneKeeps(env: Registry, s: Sys, r: RunId, rec: Record)
    requires Inv(env, s) && r in s.db
    requires Steps(s.db[r], rec)
    requires RecInv(env(s.db[r].run.planId), Effects.Watermark(s.ledger, r), rec)
    ensures Inv(env, Put(s, r, rec))
    ensures DbSteps(s.db, s.db[r := rec])
  {
    hide RecInv, Current, Exclusive, IntentInv, Evolves, Steps, Effects.WellFormed, ThreadInv;
    PutKeeps(env, s, r, rec, s.threads);
    assert Put(s, r, rec).(threads := s.threads) == Put(s, r, rec);
  }

  /** A worker's transaction. */
  lemma PutAndGoKeeps(env: Registry, s: Sys, r: RunId, rec: Record, slot: nat, th: Thread)
    requires Inv(env, s) && r in s.db
    requires Steps(s.db[r], rec)
    requires RecInv(env(s.db[r].run.planId), Effects.Watermark(s.ledger, r), rec)
    requires ThreadInv(env, s.db[r := rec], s.ledger, th)
    ensures Inv(env, Goto(Put(s, r, rec), slot, th))
    ensures DbSteps(s.db, s.db[r := rec])
  {
    hide RecInv, Current, Exclusive, IntentInv, Evolves, Steps, Effects.WellFormed, ThreadInv;
    PutKeeps(env, s, r, rec, s.threads[slot := th]);
  }

  /** A thread moves and nothing else does. */
  lemma GotoKeeps(env: Registry, s: Sys, slot: nat, th: Thread)
    requires Inv(env, s)
    requires ThreadInv(env, s.db, s.ledger, th)
    ensures Inv(env, Goto(s, slot, th))
  {
    hide RecInv, Current, Exclusive, IntentInv, ThreadInv;
  }

  lemma DbSelf(db: Db)
    ensures DbSteps(db, db)
  {
  }

  // ---------------------------------------------------------------- one lemma per label

  lemma InsertFrame(db: Db, r: RunId, rec: Record)
    requires r !in db
    ensures DbSteps(db, db[r := rec]) && DbEvolves(db, db[r := rec])
  {
    DbSelf(db);
  }

  lemma InsertExclusive(db: Db, rec: Record)
    requires Exclusive(db) && Insertable(db, rec.run)
    ensures Exclusive(db[rec.run.id := rec])
  {
    var db' := db[rec.run.id := rec];
    assert forall q :: q in db ==> db'[q] == db[q];
  }

  lemma SubmitKeeps(env: Registry, s: Sys, run: Run)
    requires Inv(env, s)
    ensures Inv(env, DoSubmit(s, run)) && DbSteps(s.db, DoSubmit(s, run).db)
  {
    hide RecInv, Current, IntentInv, Evolves, Steps, Exclusive, Effects.WellFormed, Effects.LedgerEvolves, ThreadInv;
    DbSelf(s.db);
    if run.status == Queued && run.version == 0 && Insertable(s.db, run) {
      var rec := NewRecord(run);
      NewRecordKeeps(env(run.planId), Effects.Watermark(s.ledger, run.id), run);
      RecordsPut(env, s.db, s.ledger, run.id, rec);
      LedgerSelf(s.ledger);
      InsertFrame(s.db, run.id, rec);
      InsertExclusive(s.db, rec);
      Assemble(env, s, Put(s, run.id, rec));
    }
  }

  /** The local copy made by a claim or a commit starts exactly at the row. */
  lemma FreshCopy(p: Program, watermark: nat, rec: Record, c: Claim)
    requires RecInv(p, watermark, rec) && rec.run.status == Running
    requires rec.lease.Some? && rec.lease.value.token == c.token && rec.lease.value.holder == c.worker
    requires c.state == rec.run.state && c.next == rec.run.nextNodes
    ensures Current(p, rec, Looping(c)) && Lookups(p, rec.fingerprint.nextNodes, c.next)
  {
    hide Holding, Logged, Marked;
    if Closed(p) && Resolvable(p, rec.fingerprint.nextNodes) {
      BaseResolvable(p, rec, |rec.checkpoints|);
    }
    ReachesSelf(p, DecisionsOf(rec.interrupts), Base(rec, |rec.checkpoints|));
  }

  lemma ClaimNextKeeps(env: Registry, s: Sys, slot: nat, r: RunId, worker: WorkerId, now: Time, leaseSeconds: nat)
    requires Inv(env, s)
    ensures Inv(env, DoClaim(s, slot, r, worker, now, leaseSeconds))
    ensures DbSteps(s.db, DoClaim(s, slot, r, worker, now, leaseSeconds).db)
  {
    hide RecInv, Current, IntentInv, Evolves, Exclusive, Effects.WellFormed, Lookups;
    DbSelf(s.db);
    if ThreadAt(s, slot).Idle? && r in s.db && s.db[r].run.status == Queued {
      var rec := ClaimRun(s.db[r], worker, now, leaseSeconds);
      var p := env(s.db[r].run.planId);
      var c := Claim(r, worker, Token(rec.lease), rec.run.version, rec.run.state, rec.run.nextNodes);
      ClaimKeeps(p, Effects.Watermark(s.ledger, r), s.db[r], worker, now, leaseSeconds);
      FreshCopy(p, Effects.Watermark(s.ledger, r), rec, c);
      PutAndGoKeeps(env, s, r, rec, slot, Looping(c));
    }
  }

  lemma RenewLabelKeeps(env: Registry, s: Sys, r: RunId, worker: WorkerId, token: nat, leaseSeconds: nat, now: Time, clock: Time)
    requires Inv(env, s)
    ensures Inv(env, DoRenew(s, r, worker, token, leaseSeconds, now, clock))
    ensures DbSteps(s.db, DoRenew(s, r, worker, token, leaseSeconds, now, clock).db)
  {
    hide RecInv, Current, IntentInv, Evolves, Exclusive, Effects.WellFormed, ThreadInv, Steps;
    DbSelf(s.db);
    if r in s.db && RenewLease(s.db[r], worker, token, leaseSeconds, now, clock).Ok? {
      var rec := RenewLease(s.db[r], worker, token, leaseSeconds, now, clock).value;
      RenewKeeps(env(s.db[r].run.planId), Effects.Watermark(s.ledger, r), s.db[r], worker, token, leaseSeconds, now, clock, rec);
      PutAloneKeeps(env, s, r, rec);
    }
  }

  /** A batch: every record takes its own step. */
  lemma BatchKeeps(env: Registry, s: Sys, db': Db)
    requires Inv(env, s)
    requires db'.Keys == s.db.Keys
    requires forall r :: r in s.db ==>
      Steps(s.db[r], db'[r]) && RecInv(env(s.db[r].run.planId), Effects.Watermark(s.ledger, r), db'[r])
    ensures Inv(env, s.(db := db')) && DbSteps(s.db, db')
  {
    hide RecInv, Current, IntentInv, Evolves, Exclusive, Effects.WellFormed, ThreadInv, Steps, Effects.LedgerEvolves;
    forall r | r in s.db ensures Evolves(s.db[r], db'[r]) {
      StepsEvolve(s.db[r], db'[r]);
    }
    forall r | r in db'
      ensures db'[r].run.id == r && RecInv(env(db'[r].run.planId), Effects.Watermark(s.ledger, r), db'[r])
    {
      SameIdentity(s.db[r], db'[r]);
    }
    ExclusiveStable(s.db, db');
    LedgerSelf(s.ledger);
    Assemble(env, s, s.(db := db'));
  }

  lemma StepsEvolve(a: Record, b: Record)
    requires Steps(a, b)
    ensures Evolves(a, b)
  {
  }

  lemma RequeueLabelKeeps(env: Registry, s: Sys, now: Time, rows: set<RunId>)
    requires Inv(env, s)
    ensures Inv(env, s.(db := RequeueAll(s.db, now, rows))) && DbSteps(s.db, RequeueAll(s.db, now, rows))
  {
    hide RecInv, Current, IntentInv, Evolves, Exclusive, Effects.WellFormed, ThreadInv, Steps;
    forall r | r in s.db
      ensures Steps(s.db[r], RequeueAll(s.db, now, rows)[r])
      ensures RecInv(env(s.db[r].run.planId), Effects.Watermark(s.ledger, r), RequeueAll(s.db, now, rows)[r])
    {
      StepsSelf(s.db[r]);
      RequeueKeeps(env(s.db[r].run.planId), Effects.Watermark(s.ledger, r), s.db[r], now);
    }
    BatchKeeps(env, s, RequeueAll(s.db, now, rows));
  }

  lemma StepsSelf(rec: Record)
    ensures Steps(rec, rec)
  {
  }

  lemma ExpireLabelKeeps(env: Registry, s: Sys, now: Time, rows: set<RunId>)
    requires Inv(env, s)
    ensures Inv(env, s.(db := ExpireAll(s.db, now, rows))) && DbSteps(s.db, ExpireAll(s.db, now, rows))
  {
    hide RecInv, Current, IntentInv, Evolves, Exclusive, Effects.WellFormed, ThreadInv, Steps, ExpireRecord;
    forall r | r in s.db
      ensures Steps(s.db[r], ExpireAll(s.db, now, rows)[r])
      ensures RecInv(env(s.db[r].run.planId), Effects.Watermark(s.ledger, r), ExpireAll(s.db, now, rows)[r])
    {
      StepsSelf(s.db[r]);
      ExpireKeeps(env(s.db[r].run.planId), Effects.Watermark(s.ledger, r), s.db[r], now);
    }
    BatchKeeps(env, s, ExpireAll(s.db, now, rows));
  }

  lemma DecideLabelKeeps(env: Registry, s: Sys, r: RunId, id: InterruptId, decision: Decision, expected: nat)
    requires Inv(env, s)
    ensures Inv(env, DoDecide(s, r, id, decision, expected)) && DbSteps(s.db, DoDecide(s, r, id, decision, expected).db)
  {
    hide RecInv, Current, IntentInv, Evolves, Exclusive, Effects.WellFormed, ThreadInv, Steps;
    DbSelf(s.db);
    if r in s.db && DecideInterrupt(s.db[r], id, decision, expected).Ok? {
      var rec := DecideInterrupt(s.db[r], id, decision, expected).value;
      DecideKeeps(env(s.db[r].run.planId), Effects.Watermark(s.ledger, r), s.db[r], id, decision, expected, rec);
      PutAloneKeeps(env, s, r, rec);
    }
  }

  lemma ObserveKeeps(env: Registry, s: Sys, intent: Intent)
    requires Inv(env, s)
    ensures Inv(env, DoObserve(s, intent))
  {
    hide RecInv, Current, Exclusive, Effects.WellFormed, ThreadInv;
  }

  /** The row an operator read is still the row, so the table and the caller's own test still apply. */
  lemma ApplyKeeps(env: Registry, s: Sys, intent: Intent)
    requires Inv(env, s)
    ensures Inv(env, DoApply(s, intent)) && DbSteps(s.db, DoApply(s, intent).db)
  {
    hide RecInv, Current, Evolves, Exclusive, Effects.WellFormed, ThreadInv, Steps;
    DbSelf(s.db);
    var r := intent.seen.id;
    if intent in s.intents && r in s.db && TransitionRun(s.db[r], intent.seen.version, intent.target, None, None).Ok? {
      var rec := TransitionRun(s.db[r], intent.seen.version, intent.target, None, None).value;
      assert IntentInv(s.db, intent);
      TransitionKeeps(env(s.db[r].run.planId), Effects.Watermark(s.ledger, r), s.db[r], intent.seen.version, intent.target, rec);
      PutAloneKeeps(env, s, r, rec);
    }
  }

  lemma LogKeeps(env: Registry, s: Sys, r: RunId, nodeId: NodeId, attempt: nat)
    requires Inv(env, s)
    ensures Inv(env, DoLog(s, r, nodeId, attempt)) && DbSteps(s.db, DoLog(s, r, nodeId, attempt).db)
  {
    hide RecInv, Current, IntentInv, Evolves, Exclusive, Effects.WellFormed, ThreadInv, Steps;
    DbSelf(s.db);
    if r in s.db {
      AppendEventKeeps(env(s.db[r].run.planId), Effects.Watermark(s.ledger, r), s.db[r], nodeId, attempt);
      PutAloneKeeps(env, s, r, AppendRunEvent(s.db[r], AttemptFailed(nodeId, attempt)));
    }
  }

  lemma EffectKeeps(env: Registry, s: Sys, action: Effects.Action, now: Time, ledger: Effects.Ledger)
    requires Inv(env, s)
    ensures Inv(env, DoEffect(s, action, now, ledger))
  {
    hide RecInv, Current, IntentInv, Evolves, Exclusive, Effects.WellFormed, ThreadInv, Steps, Effects.Transacts, Effects.LedgerEvolves;
    if Effects.Transacts(s.ledger, action, now, ledger) {
      Effects.TransactionEvolves(s.ledger, action, now, ledger);
      Effects.TransactionWellFormed(s.ledger, action, now, ledger);
      forall r | r in s.db
        ensures RecInv(env(s.db[r].run.planId), Effects.Watermark(ledger, r), s.db[r])
      {
        Effects.WatermarkMonotone(s.ledger, ledger, r);
        WatermarkGrows(env(s.db[r].run.planId), Effects.Watermark(s.ledger, r), Effects.Watermark(ledger, r), s.db[r]);
      }
      DbSelf(s.db);
      forall r | r in s.db ensures Evolves(s.db[r], s.db[r]) {
        StepsSelf(s.db[r]);
        StepsEvolve(s.db[r], s.db[r]);
      }
      Assemble(env, s, s.(ledger := ledger));
    }
  }
}
