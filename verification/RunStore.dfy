/** The SQLite run store (src/rath/runtime/sqlite.py): tables changed in place, one
    transaction per method.  Each method is proved to do to the rows of its run exactly
    what the transaction function of `Records` says, and nothing to any other run. */
module RunStore {
  import opened Models
  import opened Records
  import opened RecordInvariant
  import Protocol

  datatype ClaimedRun = ClaimedRun(run: Run, lease: Lease)

  /** The tables as one value. */
  datatype Tables = Tables(
    runs: map<RunId, Run>,
    fingerprints: map<RunId, Fingerprint>,
    leases: map<RunId, Lease>,
    checkpoints: map<RunId, seq<Checkpoint>>,
    interrupts: map<InterruptId, Interrupt>,
    events: map<RunId, seq<Event>>)

  /** Primary and foreign keys. */
  ghost predicate Keyed(t: Tables) {
    && t.fingerprints.Keys == t.runs.Keys && t.checkpoints.Keys == t.runs.Keys && t.events.Keys == t.runs.Keys
    && t.leases.Keys <= t.runs.Keys
    && (forall r :: r in t.runs ==> t.runs[r].id == r)
    && (forall i :: i in t.interrupts ==> t.interrupts[i].runId in t.runs)
  }

  ghost function InterruptsOf(t: Tables, r: RunId): map<InterruptId, Interrupt> {
    map i | i in t.interrupts && t.interrupts[i].runId == r :: t.interrupts[i]
  }

  function LeaseOf(leases: map<RunId, Lease>, r: RunId): Option<Lease> {
    if r in leases then Some(leases[r]) else None
  }

  ghost function RecordIn(t: Tables, r: RunId): Record
    requires Keyed(t) && r in t.runs
  {
    Record(t.runs[r], t.fingerprints[r], LeaseOf(t.leases, r), t.checkpoints[r], InterruptsOf(t, r), t.events[r])
  }

  ghost function DbOf(t: Tables): Db
    requires Keyed(t)
  {
    map r | r in t.runs :: RecordIn(t, r)
  }

  /** The rows of one run, all but its interrupts, overwritten. */
  ghost function Written(
    t: Tables, id: RunId, run: Run, lease: Option<Lease>, rows: seq<Checkpoint>, log: seq<Event>
  ): Tables {
    t.(runs := t.runs[id := run],
       leases := if lease.Some? then t.leases[id := lease.value] else t.leases,
       checkpoints := t.checkpoints[id := rows],
       events := t.events[id := log])
  }

  lemma DbPointwise(t: Tables, t': Tables, id: RunId, rec: Record)
    requires Keyed(t) && Keyed(t') && id in t'.runs && t'.runs.Keys == t.runs.Keys + {id}
    requires RecordIn(t', id) == rec
    requires forall r :: r in t.runs && r != id ==> RecordIn(t', r) == RecordIn(t, r)
    ensures DbOf(t') == DbOf(t)[id := rec]
  {
    hide RecordIn;
  }

  lemma SameAsks(t: Tables, t': Tables, r: RunId)
    requires t'.interrupts == t.interrupts
    ensures InterruptsOf(t', r) == InterruptsOf(t, r)
  {
  }

  lemma WrittenKeyed(t: Tables, id: RunId, run: Run, lease: Option<Lease>, rows: seq<Checkpoint>, log: seq<Event>)
    requires Keyed(t) && id in t.runs && run.id == id
    ensures Keyed(Written(t, id, run, lease, rows, log)) && Written(t, id, run, lease, rows, log).runs.Keys == t.runs.Keys
  {
  }

  lemma WrittenDb(t: Tables, id: RunId, run: Run, lease: Option<Lease>, rows: seq<Checkpoint>, log: seq<Event>)
    requires Keyed(t) && id in t.runs && run.id == id && (lease.None? ==> id !in t.leases)
    ensures Keyed(Written(t, id, run, lease, rows, log))
    ensures DbOf(Written(t, id, run, lease, rows, log))
      == DbOf(t)[id := RecordIn(t, id).(run := run, lease := lease, checkpoints := rows, events := log)]
  {
    hide DbOf, InterruptsOf, Keyed;
    var t' := Written(t, id, run, lease, rows, log);
    WrittenKeyed(t, id, run, lease, rows, log);
    RowKeys(t, id);
    SameAsks(t, t', id);
    forall r | r in t.runs && r != id ensures RecordIn(t', r) == RecordIn(t, r) {
      RowKeys(t, r);
      SameAsks(t, t', r);
    }
    DbPointwise(t, t', id, RecordIn(t, id).(run := run, lease := lease, checkpoints := rows, events := log));
  }

  lemma OtherAsks(t: Tables, i: InterruptId, ask: Interrupt, r: RunId)
    requires i in t.interrupts ==> t.interrupts[i].runId == ask.runId
    ensures var t' := t.(interrupts := t.interrupts[i := ask]);
      InterruptsOf(t', r) == if r == ask.runId then InterruptsOf(t, r)[i := ask] else InterruptsOf(t, r)
  {
  }

  lemma InterruptKeyed(t: Tables, i: InterruptId, ask: Interrupt)
    requires Keyed(t) && ask.runId in t.runs
    ensures Keyed(t.(interrupts := t.interrupts[i := ask]))
  {
  }

  /** One interrupt of run id written. */
  lemma InterruptDb(t: Tables, id: RunId, i: InterruptId, ask: Interrupt)
    requires Keyed(t) && id in t.runs && ask.runId == id && (i in t.interrupts ==> t.interrupts[i].runId == id)
    ensures var t' := t.(interrupts := t.interrupts[i := ask]);
      && Keyed(t')
      && RecordIn(t', id) == RecordIn(t, id).(interrupts := InterruptsOf(t, id)[i := ask])
      && DbOf(t') == DbOf(t)[id := RecordIn(t, id).(interrupts := InterruptsOf(t, id)[i := ask])]
  {
    hide DbOf, InterruptsOf, Keyed;
    var t' := t.(interrupts := t.interrupts[i := ask]);
    InterruptKeyed(t, i, ask);
    RowKeys(t, id);
    OtherAsks(t, i, ask, id);
    forall r | r in t.runs && r != id ensures RecordIn(t', r) == RecordIn(t, r) {
      RowKeys(t, r);
      OtherAsks(t, i, ask, r);
    }
    DbPointwise(t, t', id, RecordIn(t, id).(interrupts := InterruptsOf(t, id)[i := ask]));
  }

  lemma RowKeys(t: Tables, id: RunId)
    requires Keyed(t)
    ensures id in t.runs ==> id in t.fingerprints && id in t.checkpoints && id in t.events && t.runs[id].id == id
    ensures id in t.leases ==> id in t.runs
  {
  }

  lemma DbKeys(t: Tables)
    requires Keyed(t)
    ensures DbOf(t).Keys == t.runs.Keys
  {
  }

  lemma LeasesKeyed(t: Tables)
    requires Keyed(t)
    ensures t.leases.Keys <= t.runs.Keys
  {
  }

  lemma InterruptOf(t: Tables, r: RunId, i: InterruptId)
    ensures i in InterruptsOf(t, r) <==> i in t.interrupts && t.interrupts[i].runId == r
    ensures i in InterruptsOf(t, r) ==> InterruptsOf(t, r)[i] == t.interrupts[i]
  {
  }

  lemma RecordAsk(t: Tables, r: RunId, i: InterruptId)
    requires Keyed(t) && r in t.runs && i in t.interrupts && t.interrupts[i].runId == r
    ensures i in RecordIn(t, r).interrupts
  {
  }

  lemma DbAt(t: Tables, r: RunId)
    requires Keyed(t) && r in t.runs
    ensures DbOf(t).Keys == t.runs.Keys && DbOf(t)[r] == RecordIn(t, r)
  {
  }

  /** The tables with a new run's rows. */
  ghost function WithRun(t: Tables, run: Run): Tables {
    t.(runs := t.runs[run.id := run], fingerprints := t.fingerprints[run.id := FingerprintOf(run)],
       checkpoints := t.checkpoints[run.id := []], events := t.events[run.id := AppendEvent([], Created(run.status))])
  }

  lemma WithRunKeyed(t: Tables, run: Run)
    requires Keyed(t) && run.id !in t.runs
    ensures Keyed(WithRun(t, run))
  {
    hide AppendEvent;
  }

  lemma WithRunOther(t: Tables, run: Run, r: RunId)
    requires Keyed(t) && Keyed(WithRun(t, run)) && run.id !in t.runs && r in t.runs
    ensures RecordIn(WithRun(t, run), r) == RecordIn(t, r)
  {
    hide AppendEvent;
    assert InterruptsOf(WithRun(t, run), r) == InterruptsOf(t, r);
  }

  lemma WithRunNew(t: Tables, run: Run)
    requires Keyed(t) && Keyed(WithRun(t, run)) && run.id !in t.runs
    ensures RecordIn(WithRun(t, run), run.id) == NewRecord(run)
  {
    hide AppendEvent;
    assert InterruptsOf(WithRun(t, run), run.id) == map[];
  }

  lemma WithRunDb(t: Tables, run: Run)
    requires Keyed(t) && run.id !in t.runs
    ensures Keyed(WithRun(t, run)) && DbOf(WithRun(t, run)) == DbOf(t)[run.id := NewRecord(run)]
  {
    hide DbOf, AppendEvent, RecordIn, Keyed;
    WithRunKeyed(t, run);
    forall r | r in t.runs ensures RecordIn(WithRun(t, run), r) == RecordIn(t, r) {
      WithRunOther(t, run, r);
    }
    WithRunNew(t, run);
    DbPointwise(t, WithRun(t, run), run.id, NewRecord(run));
  }

  // ---------------------------------------------------------------- batches

  lemma RequeueSkips(db: Db, now: Time, rows: set<RunId>)
    requires forall r :: r in db && r in rows ==> !LeaseOverdue(db[r].lease, now)
    ensures Protocol.RequeueAll(db, now, rows) == db
  {
  }

  lemma RequeueOne(db: Db, now: Time, rows: set<RunId>, r: RunId)
    requires r in db && r !in rows
    ensures Protocol.RequeueAll(db, now, rows + {r}) == Protocol.RequeueAll(db, now, rows)[r := RequeueRecord(db[r], now)]
  {
    hide RequeueRecord;
  }

  lemma RequeueUntouched(db: Db, now: Time, rows: set<RunId>, r: RunId)
    requires r in db && r !in rows
    ensures r in Protocol.RequeueAll(db, now, rows) && Protocol.RequeueAll(db, now, rows)[r] == db[r]
  {
  }

  lemma RequeueStart(t: Tables, now: Time, rows: set<RunId>)
    requires Keyed(t)
    requires rows == set r | r in t.leases && LeaseOverdue(LeaseOf(t.leases, r), now)
    ensures Protocol.RequeueAll(DbOf(t), now, t.runs.Keys - rows) == DbOf(t)
  {
    forall r | r in DbOf(t) && r in t.runs.Keys - rows ensures !LeaseOverdue(DbOf(t)[r].lease, now) {
      DbAt(t, r);
    }
    RequeueSkips(DbOf(t), now, t.runs.Keys - rows);
  }

  lemma OverdueHasLease(leases: map<RunId, Lease>, now: Time)
    ensures forall r :: LeaseOverdue(LeaseOf(leases, r), now) <==> r in leases && leases[r].active && leases[r].expiresAt <= now
  {
  }

  ghost predicate AllOnePending(db: Db) {
    forall r :: r in db ==> OnePending(db[r].interrupts)
  }

  /** The runs these interrupts belong to. */
  ghost function Owners(asks: map<InterruptId, Interrupt>, ids: set<InterruptId>): set<RunId> {
    set i | i in ids && i in asks :: asks[i].runId
  }

  lemma OwnersEmpty(asks: map<InterruptId, Interrupt>)
    ensures Owners(asks, {}) == {}
  {
  }

  /** A run of the batch as it is afterwards. */
  function Touched(run: Run, mine: bool): Run {
    if mine && run.status == Waiting then run.(status := TimedOut, version := run.version + 1) else run
  }

  /** The interrupts whose turn is over are expired, and so are the waiting runs they belong to. */
  ghost predicate Halfway(
    asks: map<InterruptId, Interrupt>, selected: map<RunId, Run>, ended: set<InterruptId>, interrupts: map<InterruptId, Interrupt>, runs: map<RunId, Run>
  ) {
    (forall i :: i in asks ==> i in interrupts && interrupts[i] == if i in ended then asks[i].(decision := Some(Expired())) else asks[i]) &&
    (forall q :: q in selected ==> q in runs && runs[q] == Touched(selected[q], q in Owners(asks, ended)))
  }

  lemma HalfwayStart(asks: map<InterruptId, Interrupt>, selected: map<RunId, Run>)
    ensures Halfway(asks, selected, {}, asks, selected)
  {
  }

  lemma HalfwayOn(
    asks: map<InterruptId, Interrupt>, selected: map<RunId, Run>, ended: set<InterruptId>, interrupts: map<InterruptId, Interrupt>, runs: map<RunId, Run>,
    i: InterruptId, runs': map<RunId, Run>
  )
    requires Halfway(asks, selected, ended, interrupts, runs) && i in asks && i !in ended && asks[i].runId in selected
    requires var id := asks[i].runId; var row := selected[id];
      (row.status == Waiting ==> runs[id].version == row.version) &&
      runs' == if row.status == Waiting then runs[id := runs[id].(status := TimedOut, version := runs[id].version + 1)] else runs
    ensures Halfway(asks, selected, ended + {i}, interrupts[i := interrupts[i].(decision := Some(Expired()))], runs')
  {
    assert Owners(asks, ended + {i}) == Owners(asks, ended) + {asks[i].runId};
  }

  lemma ExpireUntouched(db: Db, now: Time, rows: set<RunId>, r: RunId)
    requires r in db && r !in rows
    ensures r in Protocol.ExpireAll(db, now, rows) && Protocol.ExpireAll(db, now, rows)[r] == db[r]
  {
  }

  lemma ExpireStart(t: Tables, now: Time, rows: set<InterruptId>)
    requires Keyed(t)
    requires rows == set i | i in t.interrupts && Overdue(t.interrupts[i], now)
    ensures Protocol.ExpireAll(DbOf(t), now, t.runs.Keys - Owners(t.interrupts, rows)) == DbOf(t)
    ensures Owners(t.interrupts, rows) <= t.runs.Keys
  {
    forall r, i | r in DbOf(t) && r in t.runs.Keys - Owners(t.interrupts, rows) && i in DbOf(t)[r].interrupts
      ensures !Overdue(DbOf(t)[r].interrupts[i], now)
    {
      DbAt(t, r);
      InterruptOf(t, r, i);
      assert t.interrupts[i].runId == r;
      assert i in rows ==> r in Owners(t.interrupts, rows);
    }
    ExpireSkips(DbOf(t), now, t.runs.Keys - Owners(t.interrupts, rows));
  }

  /** With one pending interrupt per run, taking an interrupt out of the batch takes its run out. */
  lemma OwnersShrink(t: Tables, now: Time, rest: set<InterruptId>, i: InterruptId)
    requires Keyed(t) && AllOnePending(DbOf(t)) && i in rest
    requires forall k :: k in rest ==> k in t.interrupts && Overdue(t.interrupts[k], now)
    ensures Owners(t.interrupts, rest - {i}) == Owners(t.interrupts, rest) - {t.interrupts[i].runId}
    ensures t.interrupts[i].runId in Owners(t.interrupts, rest)
  {
    var id := t.interrupts[i].runId;
    DbAt(t, id);
    InterruptOf(t, id, i);
    forall k | k in rest && t.interrupts[k].runId == id ensures k == i {
      InterruptOf(t, id, k);
      assert OnePending(DbOf(t)[id].interrupts);
    }
  }

  lemma ExpireSkips(db: Db, now: Time, rows: set<RunId>)
    requires forall r, i :: r in db && r in rows && i in db[r].interrupts ==> !Overdue(db[r].interrupts[i], now)
    ensures Protocol.ExpireAll(db, now, rows) == db
  {
    forall r | r in db && r in rows ensures ExpireRecord(db[r], now) == db[r] {
    }
  }

  lemma ExpireOne(db: Db, now: Time, rows: set<RunId>, r: RunId, id: InterruptId)
    requires r in db && r !in rows && OnePending(db[r].interrupts)
    requires id in db[r].interrupts && Overdue(db[r].interrupts[id], now)
    ensures Protocol.ExpireAll(db, now, rows + {r}) == Protocol.ExpireAll(db, now, rows)[r := ExpireInterrupt(db[r], id)]
  {
    assert ExpireRecord(db[r], now) == ExpireInterrupt(db[r], id);
    hide ExpireRecord, ExpireInterrupt;
  }

  /** The rows a transaction leaves behind, and what its caller gets. */
  ghost predicate Effected(before: Db, after: Db, id: RunId, outcome: Result<Record>, r: Result<Run>) {
    match outcome
    case Ok(rec) => after == before[id := rec] && r == Ok(rec.run)
    case Err(e) => after == before && r == Err(e)
  }

  /** ORDER BY priority DESC, created_at, id. */
  predicate Precedes(a: Run, b: Run) {
    || a.priority > b.priority
    || (a.priority == b.priority && a.createdAt < b.createdAt)
    || (a.priority == b.priority && a.createdAt == b.createdAt && a.id <= b.id)
  }

  predicate Blank(s: string) {
    forall k :: 0 <= k < |s| ==> s[k] in {' ', '\t', '\n', '\r'}
  }

  /** A stored run with the request's tenant and idempotency key. */
  ghost predicate Resubmits(t: Tables, run: Run, q: RunId) {
    q in t.runs && Protocol.SameRequest(run, t.runs[q])
  }

  lemma OneStored(t: Tables, run: Run, q: RunId)
    requires Keyed(t) && Resubmits(t, run, q)
    ensures Protocol.Exclusive(DbOf(t)) ==> forall p :: Resubmits(t, run, p) ==> p == q
  {
    forall p | Resubmits(t, run, p) && Protocol.Exclusive(DbOf(t)) ensures p == q {
      DbAt(t, p);
      DbAt(t, q);
      assert Protocol.SameRequest(DbOf(t)[p].run, DbOf(t)[q].run);
    }
  }

  lemma InsertableRows(t: Tables, run: Run)
    requires Keyed(t)
    ensures Protocol.Insertable(DbOf(t), run) <==>
      && run.id !in t.runs
      && (forall q :: q in t.runs ==> !Protocol.SameRequest(run, t.runs[q]))
      && (forall q :: q in t.runs ==> !Protocol.SameSession(run, t.runs[q]))
  {
    hide Protocol.SameRequest, Protocol.SameSession;
    assert DbOf(t).Keys == t.runs.Keys;
    assert forall q :: q in t.runs ==> DbOf(t)[q].run == t.runs[q];
  }

  lemma RunsKeyed(t: Tables)
    requires Keyed(t)
    ensures forall i :: i in t.interrupts ==> t.interrupts[i].runId in t.runs
  {
  }

  /** A run whose turn has not come is as it was, so its turn does to it what the batch promises. */
  lemma ExpireTurn(t: Tables, t': Tables, now: Time, rows: set<RunId>, i: InterruptId)
    requires Keyed(t) && Keyed(t') && AllOnePending(DbOf(t))
    requires DbOf(t') == Protocol.ExpireAll(DbOf(t), now, rows)
    requires i in t.interrupts && i in t'.interrupts && t'.interrupts[i] == t.interrupts[i] && Overdue(t.interrupts[i], now)
    requires t.interrupts[i].runId !in rows && t.interrupts[i].runId in t'.runs
    ensures var id := t.interrupts[i].runId;
      && RecordIn(t', id) == DbOf(t)[id] && i in RecordIn(t', id).interrupts
      && DbOf(t')[id := ExpireInterrupt(RecordIn(t', id), i)] == Protocol.ExpireAll(DbOf(t), now, rows + {id})
  {
    hide ExpireInterrupt, Protocol.ExpireAll, Keyed;
    var id := t.interrupts[i].runId;
    RunsKeyed(t);
    DbKeys(t);
    DbAt(t', id);
    InterruptOf(t', id, i);
    ExpireUntouched(DbOf(t), now, rows, id);
    ExpireOne(DbOf(t), now, rows, id, i);
  }

  /** The batch so far: the runs whose turn is over are expired, the others are untouched. */
  ghost predicate Expiring(t: Tables, now: Time, rest: set<InterruptId>, current: Tables)
    requires Keyed(t) && Keyed(current)
  {
    AllOnePending(DbOf(t)) ==>
      && Owners(t.interrupts, rest) <= t.runs.Keys
      && (forall q :: q in Owners(t.interrupts, rest) ==> q in current.runs && current.runs[q] == t.runs[q])
      && DbOf(current) == Protocol.ExpireAll(DbOf(t), now, t.runs.Keys - Owners(t.interrupts, rest))
  }

  lemma ExpiringStart(t: Tables, now: Time, rows: set<InterruptId>)
    requires Keyed(t) && rows == set i | i in t.interrupts && Overdue(t.interrupts[i], now)
    ensures Expiring(t, now, rows, t)
  {
    ExpireStart(t, now, rows);
    hide DbOf, Protocol.ExpireAll, Keyed;
  }

  lemma ExpiringEnd(t: Tables, now: Time, current: Tables)
    requires Keyed(t) && Keyed(current) && Expiring(t, now, {}, current) && AllOnePending(DbOf(t))
    ensures DbOf(current) == Protocol.ExpireAll(DbOf(t), now, t.runs.Keys)
  {
    hide DbOf, Protocol.ExpireAll, Keyed, AllOnePending;
    OwnersEmpty(t.interrupts);
    assert t.runs.Keys - {} == t.runs.Keys;
  }

  lemma ExpiringTurn(t: Tables, now: Time, rest: set<InterruptId>, current: Tables, i: InterruptId, after: Tables)
    requires Keyed(t) && Keyed(current) && Keyed(after) && Expiring(t, now, rest, current) && i in rest
    requires forall k :: k in rest ==> k in t.interrupts && Overdue(t.interrupts[k], now)
    requires i in current.interrupts && current.interrupts[i] == t.interrupts[i]
    requires t.interrupts[i].runId in t.runs && t.runs.Keys == current.runs.Keys == after.runs.Keys
    requires forall q :: q in current.runs && q != t.interrupts[i].runId ==> after.runs[q] == current.runs[q]
    requires i in RecordIn(current, t.interrupts[i].runId).interrupts
    requires t.runs[t.interrupts[i].runId] == current.runs[t.interrupts[i].runId] ==>
      DbOf(after) == DbOf(current)[t.interrupts[i].runId := ExpireInterrupt(RecordIn(current, t.interrupts[i].runId), i)]
    ensures Expiring(t, now, rest - {i}, after)
    ensures AllOnePending(DbOf(t)) ==> current.runs[t.interrupts[i].runId] == t.runs[t.interrupts[i].runId]
  {
    hide DbOf, Protocol.ExpireAll, Keyed, AllOnePending, ExpireInterrupt, Owners, RecordIn, Overdue;
    if AllOnePending(DbOf(t)) {
      var id := t.interrupts[i].runId;
      OwnersShrink(t, now, rest, i);
      ExpireTurn(t, current, now, t.runs.Keys - Owners(t.interrupts, rest), i);
      assert t.runs.Keys - Owners(t.interrupts, rest - {i}) == t.runs.Keys - Owners(t.interrupts, rest) + {id};
    }
  }

  /** One event of this kind was appended, numbered one above the largest sequence. */
  ghost predicate Appended(before: map<RunId, seq<Event>>, after: map<RunId, seq<Event>>, id: RunId, kind: EventKind) {
    id in before && id in after && after == before[id := after[id]] && OneMore(before[id], after[id], kind)
  }

  ghost predicate OneMore(before: seq<Event>, after: seq<Event>, kind: EventKind) {
    |after| == |before| + 1 && after[..|before|] == before &&
    var last := after[|before|];
    last.kind == kind &&
    (forall k :: 0 <= k < |before| ==> before[k].sequence < last.sequence) &&
    (last.sequence == 1 || exists k :: 0 <= k < |before| && before[k].sequence == last.sequence - 1)
  }

  lemma {:induction false} LargestEvent(rows: seq<Event>)
    ensures forall k :: 0 <= k < |rows| ==> rows[k].sequence <= LastEvent(rows)
    ensures LastEvent(rows) == 0 || exists k :: 0 <= k < |rows| && rows[k].sequence == LastEvent(rows)
  {
    if rows != [] {
      var front := rows[..|rows| - 1];
      LargestEvent(front);
      assert forall k :: 0 <= k < |front| ==> front[k] == rows[k];
    }
  }

  lemma {:induction false} LargestCheckpoint(rows: seq<Checkpoint>)
    ensures forall k :: 0 <= k < |rows| ==> rows[k].sequence <= LatestSequence(rows)
    ensures LatestSequence(rows) == 0 || exists k :: 0 <= k < |rows| && rows[k].sequence == LatestSequence(rows)
  {
    if rows != [] {
      var front := rows[..|rows| - 1];
      LargestCheckpoint(front);
      assert forall k :: 0 <= k < |front| ==> front[k] == rows[k];
    }
  }

  /** This sequence is one above the largest of the rows. */
  ghost predicate IsNext(rows: seq<Checkpoint>, sequence: nat) {
    (forall k :: 0 <= k < |rows| ==> rows[k].sequence < sequence) &&
    (sequence == 1 || exists k :: 0 <= k < |rows| && rows[k].sequence == sequence - 1)
  }

  lemma NextSequence(rows: seq<Checkpoint>, sequence: nat)
    ensures IsNext(rows, sequence) <==> sequence == LatestSequence(rows) + 1
  {
    LargestCheckpoint(rows);
  }

  /** The lease row lets this worker write now: it is active, its own, of this token and unexpired. */
  predicate MayWrite(leases: map<RunId, Lease>, id: RunId, worker: WorkerId, token: nat, now: Time) {
    id in leases && leases[id].active && leases[id].holder == worker && leases[id].token == token && now < leases[id].expiresAt
  }

  /** The request hash stored for a run is that of this submission. */
  predicate SameSubmission(f: Fingerprint, run: Run) {
    f.planId == run.planId && f.revisionId == run.revisionId && f.sessionId == run.sessionId && f.tenantId == run.tenantId &&
    f.state == run.state && f.nextNodes == run.nextNodes && f.priority == run.priority
  }

  lemma HashesAgree(f: Fingerprint, run: Run)
    ensures f == FingerprintOf(run) <==> SameSubmission(f, run)
  {
  }

  predicate Live(status: RunStatus) {
    status in {Queued, Running, Waiting, NeedsReview}
  }

  /** Another run was submitted by this tenant under this idempotency key. */
  predicate Repeats(other: Run, run: Run) {
    run.idempotencyKey.Some? && other.idempotencyKey == run.idempotencyKey && other.tenantId == run.tenantId
  }

  /** A live run has the session that a live submission asks for. */
  predicate Occupies(other: Run, run: Run) {
    other.sessionId == run.sessionId && Live(other.status) && Live(run.status)
  }

  lemma LiveOrTerminal(status: RunStatus)
    ensures Live(status) <==> !Terminal(status)
  {
    assert status == Queued || status == Running || status == Waiting || status == NeedsReview ||
           status == Succeeded || status == Failed || status == Cancelled || status == TimedOut;
  }

  lemma Conflicts(other: Run, run: Run)
    ensures Protocol.SameRequest(run, other) <==> Repeats(other, run)
    ensures Protocol.SameSession(run, other) <==> Occupies(other, run)
  {
    LiveOrTerminal(run.status);
    LiveOrTerminal(other.status);
  }

  /** An overdue lease is released and its run, if running, queued; otherwise the rows are as they were. */
  ghost predicate RowRequeued(t: Tables, t': Tables, now: Time, r: RunId) {
    r in t.runs && r in t'.runs && r in t.checkpoints && r in t'.checkpoints && t'.checkpoints[r] == t.checkpoints[r] &&
    var expired := r in t.leases && t.leases[r].active && t.leases[r].expiresAt <= now;
    (r in t.leases <==> r in t'.leases) &&
    (r in t.leases ==> t'.leases[r] == if expired then t.leases[r].(active := false) else t.leases[r]) &&
    InterruptsOf(t', r) == InterruptsOf(t, r) && r in t.events && r in t'.events &&
    if expired && t.runs[r].status == Running
    then t'.runs[r] == t.runs[r].(status := Queued, version := t.runs[r].version + 1) && OneMore(t.events[r], t'.events[r], LeaseExpired(t.leases[r].token))
    else t'.runs[r] == t.runs[r] && t'.events[r] == t.events[r]
  }

  ghost predicate Requeued(t: Tables, t': Tables, now: Time) {
    t'.runs.Keys == t.runs.Keys && forall r :: r in t.runs ==> RowRequeued(t, t', now, r)
  }

  lemma RequeuedRow(t: Tables, t': Tables, now: Time, r: RunId)
    requires Keyed(t) && Keyed(t') && r in t.runs && r in t'.runs && RecordIn(t', r) == RequeueRecord(RecordIn(t, r), now)
    ensures RowRequeued(t, t', now, r)
  {
    RowKeys(t, r);
    RowKeys(t', r);
    LargestEvent(t.events[r]);
    hide InterruptsOf, Keyed, LastEvent;
  }

  lemma RequeuedRows(t: Tables, t': Tables, now: Time)
    requires Keyed(t) && Keyed(t') && DbOf(t') == Protocol.RequeueAll(DbOf(t), now, t.runs.Keys)
    ensures Requeued(t, t', now)
  {
    hide DbOf, Keyed, InterruptsOf, Protocol.RequeueAll, RecordIn, RequeueRecord, RowRequeued;
    DbKeys(t);
    DbKeys(t');
    RequeueKeys(DbOf(t), now, t.runs.Keys);
    forall r | r in t.runs ensures RowRequeued(t, t', now, r) {
      DbAt(t, r);
      DbAt(t', r);
      RequeuedRow(t, t', now, r);
    }
  }

  /** An interrupt whose deadline has passed without a decision is rejected by the system; any other is left alone. */
  function AskAfter(ask: Interrupt, now: Time): Interrupt {
    if ask.decision.None? && ask.expiresAt.Some? && ask.expiresAt.value <= now
    then ask.(decision := Some(Decision(Reject, "openrath-system", "interrupt deadline expired", "{}")))
    else ask
  }

  /** A waiting run with such an interrupt times out; any other is left alone. */
  ghost predicate RunAfter(before: Run, after: Run, asks: map<InterruptId, Interrupt>, now: Time) {
    if before.status == Waiting && exists i :: i in asks && asks[i].runId == before.id && AskAfter(asks[i], now) != asks[i]
    then after == before.(status := TimedOut, version := before.version + 1)
    else after == before
  }

  lemma OverdueAsks(asks: map<InterruptId, Interrupt>, now: Time)
    ensures forall i :: i in asks ==> (Overdue(asks[i], now) <==> AskAfter(asks[i], now) != asks[i])
    ensures forall i :: i in asks && Overdue(asks[i], now) ==> AskAfter(asks[i], now) == asks[i].(decision := Some(Expired()))
  {
  }

  /** Higher priority, or as high and older, or as old and with the smaller id. */
  predicate ComesFirst(runs: map<RunId, Run>, a: RunId, b: RunId)
    requires a in runs && b in runs
  {
    runs[a].priority > runs[b].priority ||
    (runs[a].priority == runs[b].priority &&
       (runs[a].createdAt < runs[b].createdAt || (runs[a].createdAt == runs[b].createdAt && a < b)))
  }

  lemma RowIds(t: Tables)
    requires Keyed(t)
    ensures forall r :: r in t.runs ==> t.runs[r].id == r
  {
  }

  lemma RequeueKeys(db: Db, now: Time, rows: set<RunId>)
    ensures Protocol.RequeueAll(db, now, rows).Keys == db.Keys
    ensures forall r :: r in db && r in rows ==> Protocol.RequeueAll(db, now, rows)[r] == RequeueRecord(db[r], now)
  {
  }

  class SQLiteRunStore {
    var runs: map<RunId, Run>
    var fingerprints: map<RunId, Fingerprint>
    var leases: map<RunId, Lease>
    var checkpoints: map<RunId, seq<Checkpoint>>
    var interrupts: map<InterruptId, Interrupt>
    var events: map<RunId, seq<Event>>

    ghost function Content(): Tables
      reads this
    {
      Tables(runs, fingerprints, leases, checkpoints, interrupts, events)
    }

    ghost predicate Valid()
      reads this
    {
      Keyed(Content())
    }

    ghost function Snapshot(): Db
      requires Valid()
      reads this
    {
      DbOf(Content())
    }

    ghost function RecordOf(r: RunId): Record
      requires Valid() && r in runs
      reads this
    {
      RecordIn(Content(), r)
    }

    /** Nothing but the run, lease, checkpoint and event rows of run id differs from the tables t. */
    lemma Rewritten(t: Tables, id: RunId)
      requires Keyed(t) && id in t.runs && id in runs && runs[id].id == id
      requires runs == t.runs[id := runs[id]] && fingerprints == t.fingerprints && interrupts == t.interrupts
      requires leases == t.leases || (id in leases && leases == t.leases[id := leases[id]])
      requires id in checkpoints && checkpoints == t.checkpoints[id := checkpoints[id]]
      requires id in events && events == t.events[id := events[id]]
      ensures Valid()
      ensures Snapshot() == DbOf(t)[id := RecordIn(t, id).(
        run := runs[id], lease := LeaseOf(leases, id), checkpoints := checkpoints[id], events := events[id])]
    {
      hide DbOf, RecordIn, Keyed;
      RowKeys(t, id);
      WrittenDb(t, id, runs[id], LeaseOf(leases, id), checkpoints[id], events[id]);
      assert id in leases ==> leases == t.leases[id := leases[id]];
      assert Content() == Written(t, id, runs[id], LeaseOf(leases, id), checkpoints[id], events[id]);
    }

    /** As `Rewritten`, with one interrupt of the run written as well. */
    lemma RewrittenAsk(t: Tables, id: RunId, i: InterruptId)
      requires Keyed(t) && id in t.runs && id in runs && runs[id].id == id
      requires runs == t.runs[id := runs[id]] && fingerprints == t.fingerprints && checkpoints == t.checkpoints
      requires leases == t.leases || (id in leases && leases == t.leases[id := leases[id]])
      requires id in events && events == t.events[id := events[id]]
      requires i in interrupts && interrupts == t.interrupts[i := interrupts[i]]
      requires interrupts[i].runId == id && (i in t.interrupts ==> t.interrupts[i].runId == id)
      ensures Valid()
      ensures Snapshot() == DbOf(t)[id := RecordIn(t, id).(
        run := runs[id], lease := LeaseOf(leases, id), events := events[id], interrupts := InterruptsOf(t, id)[i := interrupts[i]])]
    {
      hide DbOf, InterruptsOf, Keyed;
      RowKeys(t, id);
      InterruptDb(t, id, i, interrupts[i]);
      var asked := t.(interrupts := interrupts);
      assert checkpoints == asked.checkpoints[id := checkpoints[id]];
      Rewritten(asked, id);
    }

    constructor ()
      ensures Valid() && Snapshot() == map[]
    {
      runs, fingerprints, leases, checkpoints, interrupts, events := map[], map[], map[], map[], map[], map[];
    }

    method TransitionRun(id: RunId, expected: nat, target: RunStatus, state: Option<State>, next: Option<seq<NodeId>>)
      returns (r: Result<Run>)
      requires Valid()
      modifies this
      ensures Valid()
      ensures id !in old(runs) ==> r == Err(NotFound) && Snapshot() == old(Snapshot())
      ensures id in old(runs) ==>
        Effected(old(Snapshot()), Snapshot(), id, Records.TransitionRun(old(RecordOf(id)), expected, target, state, next), r)
      ensures r.Ok? <==> id in old(runs) && old(runs)[id].version == expected && old(runs)[id].status in SourcesOf(target)
      ensures r.Ok? ==>
        runs == old(runs)[id := old(runs)[id].(status := target, version := expected + 1,
          state := if state.Some? then state.value else old(runs)[id].state,
          nextNodes := if next.Some? then next.value else old(runs)[id].nextNodes)] && r == Ok(runs[id]) &&
        leases == old(leases) && checkpoints == old(checkpoints) && interrupts == old(interrupts) &&
        Appended(old(events), events, id, StateChanged(old(runs)[id].status, target))
      ensures r.Err? ==> Content() == old(Content())
      ensures r.Err? && id in old(runs) ==>
        r == Err(if old(runs)[id].version == expected then InvalidTransition(old(runs)[id].status, target) else Conflict)
    {
      hide DbOf, InterruptsOf, Keyed;
      RowKeys(Content(), id);
      if id !in runs { return Err(NotFound); }
      var current := runs[id];
      TableBothWays(current.status, target);
      if current.version != expected { return Err(Conflict); }
      if !Allowed(current.status, target) { return Err(InvalidTransition(current.status, target)); }
      var nextState := if state.Some? then state.value else current.state;
      var nextQueue := if next.Some? then next.value else current.nextNodes;
      runs := runs[id := current.(status := target, state := nextState, nextNodes := nextQueue, version := current.version + 1)];
      LogEvent(id, StateChanged(current.status, target));
      Rewritten(old(Content()), id);
      return Ok(runs[id]);
    }

    /** `_append_event`, inside a transaction. */
    method LogEvent(id: RunId, kind: EventKind)
      requires id in events
      modifies this`events
      ensures events == old(events)[id := AppendEvent(old(events)[id], kind)]
      ensures Appended(old(events), events, id, kind)
    {
      LargestEvent(events[id]);
      var sequence := LastEvent(events[id]) + 1;
      events := events[id := events[id] + [Event(sequence, kind)]];
    }

    method CommitCheckpoint(id: RunId, ck: Checkpoint, worker: WorkerId, token: nat, expected: nat, now: Time)
      returns (r: Result<Run>)
      requires Valid()
      modifies this
      ensures Valid()
      ensures id !in old(runs) ==> r == Err(Conflict) && Snapshot() == old(Snapshot())
      ensures id in old(runs) ==>
        Effected(old(Snapshot()), Snapshot(), id, Records.CommitCheckpoint(old(RecordOf(id)), ck, worker, token, expected, now), r)
      ensures r.Ok? <==>
        MayWrite(old(leases), id, worker, token, now) && id in old(runs) && old(runs)[id].version == expected && old(runs)[id].status == Running &&
        id in old(checkpoints) && IsNext(old(checkpoints)[id], ck.sequence)
      ensures r.Ok? ==>
        runs == old(runs)[id := old(runs)[id].(state := ck.state, nextNodes := ck.nextNodes, version := expected + 1)] && r == Ok(runs[id]) &&
        checkpoints == old(checkpoints)[id := old(checkpoints)[id] + [ck]] && leases == old(leases) && interrupts == old(interrupts) &&
        Appended(old(events), events, id, CheckpointCreated(ck.sequence))
      ensures r.Err? ==> r == Err(Conflict) && Content() == old(Content())
    {
      hide DbOf, InterruptsOf, Keyed;
      RowKeys(Content(), id);
      if !LeaseHeld(LeaseOf(leases, id), worker, token, now) { return Err(Conflict); }
      var current := runs[id];
      NextSequence(checkpoints[id], ck.sequence);
      if current.version != expected { return Err(Conflict); }
      if current.status != Running { return Err(Conflict); }
      if ck.sequence != LatestSequence(checkpoints[id]) + 1 { return Err(Conflict); }
      checkpoints := checkpoints[id := checkpoints[id] + [ck]];
      runs := runs[id := current.(state := ck.state, nextNodes := ck.nextNodes, version := current.version + 1)];
      LogEvent(id, CheckpointCreated(ck.sequence));
      Rewritten(old(Content()), id);
      return Ok(runs[id]);
    }

    method FinishClaim(id: RunId, worker: WorkerId, token: nat, expected: nat, target: RunStatus, failure: Option<string>, now: Time)
      returns (r: Result<Run>)
      requires Valid()
      modifies this
      ensures Valid()
      ensures id !in old(runs) ==> r == Err(Conflict) && Snapshot() == old(Snapshot())
      ensures id in old(runs) ==>
        Effected(old(Snapshot()), Snapshot(), id, Records.FinishClaim(old(RecordOf(id)), worker, token, expected, target, failure, now), r)
      ensures r.Ok? <==>
        MayWrite(old(leases), id, worker, token, now) && id in old(runs) && old(runs)[id].version == expected && old(runs)[id].status in SourcesOf(target)
      ensures r.Ok? ==>
        runs == old(runs)[id := old(runs)[id].(status := target, version := expected + 1)] && r == Ok(runs[id]) &&
        leases == old(leases)[id := old(leases)[id].(active := false)] && checkpoints == old(checkpoints) && interrupts == old(interrupts) &&
        Appended(old(events), events, id, if failure.Some? then ExecutionFailed(failure.value) else ExecutionCompleted(target))
      ensures r.Err? ==> Content() == old(Content())
    {
      hide DbOf, InterruptsOf, Keyed, OneMore, Allowed, AppendEvent;
      RowKeys(Content(), id);
      if !LeaseHeld(LeaseOf(leases, id), worker, token, now) { return Err(Conflict); }
      var current := runs[id];
      TableBothWays(current.status, target);
      if current.version != expected { return Err(Conflict); }
      if !Allowed(current.status, target) { return Err(InvalidTransition(current.status, target)); }
      runs := runs[id := SetStatus(current, target)];
      leases := leases[id := leases[id].(active := false)];
      LogEvent(id, if failure.Some? then ExecutionFailed(failure.value) else ExecutionCompleted(target));
      assert checkpoints == old(checkpoints)[id := checkpoints[id]];
      Rewritten(old(Content()), id);
      return Ok(runs[id]);
    }

    method AppendRunEvent(id: RunId, kind: EventKind) returns (r: Result<Run>)
      requires Valid()
      modifies this
      ensures Valid()
      ensures id !in old(runs) ==> r == Err(NotFound) && Snapshot() == old(Snapshot())
      ensures id in old(runs) ==>
        Effected(old(Snapshot()), Snapshot(), id, Ok(Records.AppendRunEvent(old(RecordOf(id)), kind)), r)
      ensures r.Ok? <==> id in old(runs)
      ensures r.Ok? ==>
        runs == old(runs) && r == Ok(runs[id]) && leases == old(leases) && checkpoints == old(checkpoints) && interrupts == old(interrupts) &&
        Appended(old(events), events, id, kind)
    {
      hide DbOf, InterruptsOf, Keyed;
      RowKeys(Content(), id);
      if id !in runs { return Err(NotFound); }
      LogEvent(id, kind);
      assert runs == old(runs)[id := runs[id]] && checkpoints == old(checkpoints)[id := checkpoints[id]];
      Rewritten(old(Content()), id);
      return Ok(runs[id]);
    }

    method RenewLease(id: RunId, worker: WorkerId, token: nat, leaseSeconds: nat, now: Time, clock: Time) returns (r: Result<Run>)
      requires Valid()
      modifies this
      ensures Valid()
      ensures leaseSeconds == 0 ==> r == Err(InvalidArgument) && Snapshot() == old(Snapshot())
      ensures leaseSeconds > 0 && id !in old(runs) ==> r == Err(Conflict) && Snapshot() == old(Snapshot())
      ensures leaseSeconds > 0 && id in old(runs) ==>
        Effected(old(Snapshot()), Snapshot(), id, Records.RenewLease(old(RecordOf(id)), worker, token, leaseSeconds, now, clock), r)
      ensures r.Ok? <==> leaseSeconds > 0 && MayWrite(old(leases), id, worker, token, clock)
      ensures r.Ok? ==>
        leases == old(leases)[id := old(leases)[id].(expiresAt := now + leaseSeconds)] && runs == old(runs) &&
        checkpoints == old(checkpoints) && interrupts == old(interrupts) && events == old(events)
      ensures r.Err? ==> Content() == old(Content())
    {
      hide DbOf, InterruptsOf, Keyed;
      RowKeys(Content(), id);
      if leaseSeconds == 0 { return Err(InvalidArgument); }
      if !LeaseHeld(LeaseOf(leases, id), worker, token, clock) { return Err(Conflict); }
      leases := leases[id := leases[id].(expiresAt := now + leaseSeconds)];
      assert runs == old(runs)[id := runs[id]] && checkpoints == old(checkpoints)[id := checkpoints[id]];
      assert events == old(events)[id := events[id]];
      Rewritten(old(Content()), id);
      return Ok(runs[id]);
    }

    method CreateInterrupt(interruptId: InterruptId, ask: Interrupt, expected: nat) returns (r: Result<Run>)
      requires Valid()
      modifies this
      ensures Valid()
      ensures ask.runId !in old(runs) ==> r == Err(NotFound) && Snapshot() == old(Snapshot())
      ensures interruptId in old(interrupts) ==> r.Err? && Snapshot() == old(Snapshot())
      ensures ask.runId in old(runs) && (interruptId in old(interrupts) ==> old(interrupts)[interruptId].runId == ask.runId) ==>
        Effected(old(Snapshot()), Snapshot(), ask.runId, Records.CreateInterrupt(old(RecordOf(ask.runId)), interruptId, ask, expected), r)
      ensures r.Ok? <==>
        ask.runId in old(runs) && old(runs)[ask.runId].version == expected && old(runs)[ask.runId].status == Running && interruptId !in old(interrupts)
      ensures r.Ok? ==> var id := ask.runId;
        interrupts == old(interrupts)[interruptId := ask] && checkpoints == old(checkpoints) &&
        runs == old(runs)[id := old(runs)[id].(status := Waiting, version := expected + 1)] && r == Ok(runs[id]) &&
        leases == (if id in old(leases) then old(leases)[id := old(leases)[id].(active := false)] else old(leases)) &&
        Appended(old(events), events, id, InterruptCreated(interruptId))
      ensures r.Err? ==> Content() == old(Content())
    {
      hide DbOf, InterruptsOf, LastEvent, Keyed;
      RowKeys(Content(), ask.runId);
      var id := ask.runId;
      if id !in runs { return Err(NotFound); }
      InterruptOf(Content(), id, interruptId);
      var current := runs[id];
      TableBothWays(current.status, Waiting);
      if current.version != expected { return Err(Conflict); }
      if !Allowed(current.status, Waiting) { return Err(InvalidTransition(current.status, Waiting)); }
      if interruptId in interrupts { return Err(Integrity); }
      interrupts := interrupts[interruptId := ask];
      runs := runs[id := SetStatus(current, Waiting)];
      if id in leases {
        leases := leases[id := leases[id].(active := false)];
      }
      LogEvent(id, InterruptCreated(interruptId));
      RewrittenAsk(old(Content()), id, interruptId);
      return Ok(runs[id]);
    }

    method DecideInterrupt(interruptId: InterruptId, decision: Decision, expected: nat) returns (r: Result<Run>)
      requires Valid()
      modifies this
      ensures Valid()
      ensures interruptId !in old(interrupts) ==> r == Err(NotFound) && Snapshot() == old(Snapshot())
      ensures interruptId in old(interrupts) ==>
        var id := old(interrupts)[interruptId].runId;
        Effected(old(Snapshot()), Snapshot(), id, Records.DecideInterrupt(old(RecordOf(id)), interruptId, decision, expected), r)
      ensures r.Ok? <==>
        interruptId in old(interrupts) && old(interrupts)[interruptId].decision.None? && old(interrupts)[interruptId].runId in old(runs) &&
        old(runs)[old(interrupts)[interruptId].runId].version == expected &&
        old(runs)[old(interrupts)[interruptId].runId].status in {Running, Waiting, NeedsReview}
      ensures r.Ok? ==> var id := old(interrupts)[interruptId].runId;
        interrupts == old(interrupts)[interruptId := old(interrupts)[interruptId].(decision := Some(decision))] &&
        runs == old(runs)[id := old(runs)[id].(status := Queued, version := expected + 1)] && r == Ok(runs[id]) &&
        leases == old(leases) && checkpoints == old(checkpoints) &&
        Appended(old(events), events, id, InterruptDecided(interruptId, decision.kind))
      ensures r.Err? ==> Content() == old(Content())
    {
      hide DbOf, InterruptsOf, LastEvent, Keyed;
      RunsKeyed(Content());
      if interruptId !in interrupts { return Err(NotFound); }
      var row := interrupts[interruptId];
      InterruptOf(Content(), row.runId, interruptId);
      RowKeys(Content(), row.runId);
      if row.decision.Some? { return Err(Conflict); }
      var id := row.runId;
      var current := runs[id];
      TableBothWays(current.status, Queued);
      if current.version != expected { return Err(Conflict); }
      if !Allowed(current.status, Queued) { return Err(InvalidTransition(current.status, Queued)); }
      interrupts := interrupts[interruptId := row.(decision := Some(decision))];
      runs := runs[id := SetStatus(current, Queued)];
      LogEvent(id, InterruptDecided(interruptId, decision.kind));
      RewrittenAsk(old(Content()), id, interruptId);
      return Ok(runs[id]);
    }

    method GetRun(id: RunId) returns (r: Result<Run>)
      requires Valid()
      ensures r == if id in Snapshot() then Ok(Snapshot()[id].run) else Err(NotFound)
    {
      if id !in runs { return Err(NotFound); }
      return Ok(runs[id]);
    }

    /** A resubmission under the same idempotency key returns the stored run if the request is the
        same and is refused otherwise; a new run needs a free id, key and session. */
    method CreateRun(run: Run) returns (r: Result<Run>)
      requires Valid()
      modifies this
      ensures Valid()
      ensures forall q :: Resubmits(old(Content()), run, q) && Protocol.Exclusive(old(Snapshot())) ==>
        Snapshot() == old(Snapshot()) && r == if old(fingerprints)[q] == FingerprintOf(run) then Ok(old(runs)[q]) else Err(Conflict)
      ensures Protocol.Insertable(old(Snapshot()), run) ==> Snapshot() == old(Snapshot())[run.id := NewRecord(run)] && r == Ok(run)
      ensures !Protocol.Insertable(old(Snapshot()), run) ==> Snapshot() == old(Snapshot())
      ensures !Protocol.Insertable(old(Snapshot()), run) && (forall q: RunId :: !Resubmits(old(Content()), run, q)) ==> r == Err(Conflict)
      ensures run.id !in old(runs) && (forall q :: q in old(runs) ==> !Repeats(old(runs)[q], run) && !Occupies(old(runs)[q], run)) ==>
        r == Ok(run) && runs == old(runs)[run.id := run] && run.id in fingerprints && SameSubmission(fingerprints[run.id], run) &&
        run.id in checkpoints && checkpoints[run.id] == [] && run.id in events && OneMore([], events[run.id], Created(run.status)) &&
        leases == old(leases) && interrupts == old(interrupts)
      ensures !(run.id !in old(runs) && (forall q :: q in old(runs) ==> !Repeats(old(runs)[q], run) && !Occupies(old(runs)[q], run))) ==>
        Content() == old(Content())
      ensures r.Ok? && run.id !in old(runs) && Content() == old(Content()) ==>
        exists q :: q in old(runs) && Repeats(old(runs)[q], run) && SameSubmission(old(fingerprints)[q], run) && r == Ok(old(runs)[q])
    {
      hide DbOf, RecordIn, Protocol.Exclusive, Protocol.SameSession, Protocol.SameRequest;
      InsertableRows(Content(), run);
      forall q | q in runs ensures Protocol.SameRequest(run, runs[q]) <==> Repeats(runs[q], run)
                           ensures Protocol.SameSession(run, runs[q]) <==> Occupies(runs[q], run)
      {
        Conflicts(runs[q], run);
      }
      if q :| q in runs && Protocol.SameRequest(run, runs[q]) {
        assert Resubmits(Content(), run, q);
        HashesAgree(fingerprints[q], run);
        OneStored(Content(), run, q);
        if fingerprints[q] != FingerprintOf(run) { return Err(Conflict); }
        return Ok(runs[q]);
      }
      if run.id in runs || exists q :: q in runs && Protocol.SameSession(run, runs[q]) {
        return Err(Conflict);
      }
      InsertRun(run);
      return Ok(run);
    }

    method InsertRun(run: Run)
      requires Valid() && run.id !in runs
      modifies this
      ensures Valid() && Snapshot() == old(Snapshot())[run.id := NewRecord(run)]
      ensures runs == old(runs)[run.id := run] && fingerprints == old(fingerprints)[run.id := fingerprints[run.id]] && SameSubmission(fingerprints[run.id], run)
      ensures checkpoints == old(checkpoints)[run.id := []] && leases == old(leases) && interrupts == old(interrupts)
      ensures events == old(events)[run.id := events[run.id]] && OneMore([], events[run.id], Created(run.status))
    {
      HashesAgree(FingerprintOf(run), run);
      hide DbOf, RecordIn, Keyed, InterruptsOf, NewRecord;
      runs := runs[run.id := run];
      fingerprints := fingerprints[run.id := FingerprintOf(run)];
      checkpoints := checkpoints[run.id := []];
      events := events[run.id := []];
      LogEvent(run.id, Created(run.status));
      WithRunDb(old(Content()), run);
      assert Content() == WithRun(old(Content()), run);
    }

    /** The queued run that comes first is claimed under the next fencing token. */
    method ClaimNext(worker: WorkerId, leaseSeconds: int, now: Time) returns (r: Result<Option<ClaimedRun>>)
      requires Valid()
      modifies this
      ensures Valid()
      ensures Blank(worker) || leaseSeconds <= 0 ==> r == Err(InvalidArgument) && Snapshot() == old(Snapshot())
      ensures !(Blank(worker) || leaseSeconds <= 0) ==> r.Ok?
      ensures r == Ok(None) ==> Snapshot() == old(Snapshot()) && forall q :: q in old(runs) ==> old(runs)[q].status != Queued
      ensures r.Ok? && r.value.Some? ==>
        var claimed := r.value.value;
        var id := claimed.run.id;
        && leaseSeconds > 0 && id in old(runs) && old(runs)[id].status == Queued
        && (forall q :: q in old(runs) && old(runs)[q].status == Queued ==> Precedes(old(runs)[id], old(runs)[q]))
        && var rec := ClaimRun(old(RecordOf(id)), worker, now, leaseSeconds);
           Snapshot() == old(Snapshot())[id := rec] && claimed.run == rec.run && rec.lease == Some(claimed.lease)
      ensures r.Ok? && r.value.Some? ==>
        var claimed := r.value.value; var c := claimed.run.id;
        c in old(runs) && old(runs)[c].status == Queued &&
        (forall q :: q in old(runs) && old(runs)[q].status == Queued && q != c ==> ComesFirst(old(runs), c, q)) &&
        runs == old(runs)[c := old(runs)[c].(status := Running, version := old(runs)[c].version + 1)] &&
        leases == old(leases)[c := Lease(worker, now + leaseSeconds, (if c in old(leases) then old(leases)[c].token else 0) + 1, true)] &&
        checkpoints == old(checkpoints) && interrupts == old(interrupts) && Appended(old(events), events, c, Claimed(worker, leases[c].token)) &&
        claimed.run == runs[c] && claimed.lease == leases[c]
      ensures r == Ok(None) || r.Err? ==> Content() == old(Content())
      ensures r == Err(InvalidArgument) <==>
        leaseSeconds <= 0 || forall k :: 0 <= k < |worker| ==> worker[k] == ' ' || worker[k] == '\t' || worker[k] == '\n' || worker[k] == '\r'
    {
      hide DbOf, RecordIn, ClaimRun, Precedes, ComesFirst, Appended, Keyed;
      if Blank(worker) || leaseSeconds <= 0 { return Err(InvalidArgument); }
      var first := FirstQueued();
      if first.None? { return Ok(None); }
      var claimed := Claim(first.value, worker, leaseSeconds, now);
      return Ok(Some(claimed));
    }

    method Claim(id: RunId, worker: WorkerId, leaseSeconds: nat, now: Time) returns (claimed: ClaimedRun)
      requires Valid() && id in runs
      modifies this
      ensures Valid() && claimed.run.id == id
      ensures var rec := ClaimRun(old(RecordOf(id)), worker, now, leaseSeconds);
        Snapshot() == old(Snapshot())[id := rec] && claimed.run == rec.run && rec.lease == Some(claimed.lease)
      ensures runs == old(runs)[id := old(runs)[id].(status := Running, version := old(runs)[id].version + 1)] &&
        leases == old(leases)[id := Lease(worker, now + leaseSeconds, (if id in old(leases) then old(leases)[id].token else 0) + 1, true)] &&
        checkpoints == old(checkpoints) && interrupts == old(interrupts) && Appended(old(events), events, id, Claimed(worker, leases[id].token)) &&
        claimed.run == runs[id] && claimed.lease == leases[id]
    {
      hide DbOf, InterruptsOf, LastEvent, Keyed;
      RowKeys(Content(), id);
      runs := runs[id := SetStatus(runs[id], Running)];
      var token := if id in leases then leases[id].token + 1 else 1;
      leases := leases[id := Lease(worker, now + leaseSeconds, token, true)];
      LogEvent(id, Claimed(worker, token));
      assert checkpoints == old(checkpoints)[id := checkpoints[id]];
      Rewritten(old(Content()), id);
      claimed := ClaimedRun(runs[id], leases[id]);
    }

    /** SELECT ... WHERE status = 'queued' ORDER BY priority DESC, created_at, id LIMIT 1. */
    method FirstQueued() returns (first: Option<RunId>)
      requires Valid()
      ensures first.None? ==> forall q :: q in runs ==> runs[q].status != Queued
      ensures first.Some? ==>
        && first.value in runs && runs[first.value].status == Queued
        && (forall q :: q in runs && runs[q].status == Queued ==> Precedes(runs[first.value], runs[q]))
        && forall q :: q in runs && runs[q].status == Queued && q != first.value ==> ComesFirst(runs, first.value, q)
    {
      RowIds(Content());
      hide Keyed;
      first := None;
      var rest := runs.Keys;
      while rest != {}
        invariant rest <= runs.Keys
        invariant first.Some? ==> first.value in runs && runs[first.value].status == Queued
        invariant forall q :: q in runs && q !in rest && runs[q].status == Queued ==> first.Some? && Precedes(runs[first.value], runs[q])
        decreases rest
      {
        var q :| q in rest;
        rest := rest - {q};
        if runs[q].status == Queued && (first.None? || !Precedes(runs[first.value], runs[q])) {
          first := Some(q);
        }
      }
    }

    /** One row of the batch, as selected. */
    method RequeueRow(id: RunId, now: Time, row: Run)
      requires Valid() && id in runs && row == runs[id] && LeaseOverdue(LeaseOf(leases, id), now)
      modifies this
      ensures Valid() && runs.Keys == old(runs).Keys
      ensures Snapshot() == old(Snapshot())[id := RequeueRecord(old(RecordOf(id)), now)]
      ensures forall q :: q in old(runs) && q != id ==> runs[q] == old(runs)[q] && LeaseOf(leases, q) == LeaseOf(old(leases), q)
    {
      hide DbOf, InterruptsOf, LastEvent, Keyed;
      RowKeys(Content(), id);
      if row.status == Running {
        if runs[id].version == row.version {
          runs := runs[id := SetStatus(runs[id], Queued)];
        }
        LogEvent(id, LeaseExpired(leases[id].token));
      }
      leases := leases[id := leases[id].(active := false)];
      assert runs == old(runs)[id := runs[id]] && events == old(events)[id := events[id]];
      assert checkpoints == old(checkpoints)[id := checkpoints[id]];
      Rewritten(old(Content()), id);
    }

    /** Every run whose active lease has expired: a running one is queued again, any other only loses
        the lease.  The ids of the queued ones are returned. */
    method RequeueExpiredLeases(now: Time) returns (recovered: seq<RunId>)
      requires Valid()
      modifies this
      ensures Valid()
      ensures Snapshot() == Protocol.RequeueAll(old(Snapshot()), now, old(runs).Keys)
      ensures forall r :: r in recovered <==>
        r in old(runs) && old(runs)[r].status == Running && LeaseOverdue(LeaseOf(old(leases), r), now)
      ensures Requeued(old(Content()), Content(), now)
      ensures forall r :: r in recovered <==>
        r in old(runs) && old(runs)[r].status == Running && r in old(leases) && old(leases)[r].active && old(leases)[r].expiresAt <= now
    {
      hide DbOf, RecordIn, Keyed, Protocol.RequeueAll, LeaseOverdue, LeaseOf, Requeued;
      OverdueHasLease(leases, now);
      LeasesKeyed(Content());
      var rows := set r | r in leases && LeaseOverdue(LeaseOf(leases, r), now);
      recovered := RequeueRows(rows, now);
      RequeuedRows(old(Content()), Content(), now);
    }

    /** The loop over the overdue leases. */
    method RequeueRows(rows: set<RunId>, now: Time) returns (recovered: seq<RunId>)
      requires Valid() && rows == set r | r in leases && LeaseOverdue(LeaseOf(leases, r), now)
      modifies this
      ensures Valid() && Snapshot() == Protocol.RequeueAll(old(Snapshot()), now, old(runs).Keys)
      ensures forall r :: r in recovered <==> r in rows && r in old(runs) && old(runs)[r].status == Running
    {
      hide DbOf, RecordIn, RequeueRecord, Keyed, Protocol.RequeueAll, LeaseOverdue, LeaseOf;
      LeasesKeyed(Content());
      DbKeys(Content());
      ghost var db, all := Snapshot(), runs.Keys;
      var selected := runs;
      recovered := [];
      var rest := rows;
      RequeueStart(Content(), now, rows);
      while rest != {}
        invariant rest <= rows <= all && Valid() && runs.Keys == all
        invariant Snapshot() == Protocol.RequeueAll(db, now, all - rest)
        invariant forall r :: r in rest ==> runs[r] == selected[r] && LeaseOverdue(LeaseOf(leases, r), now)
        invariant forall r :: r in recovered <==> r in rows && r !in rest && selected[r].status == Running
        decreases rest
      {
        var r :| r in rest;
        DbAt(Content(), r);
        RequeueUntouched(db, now, all - rest, r);
        RequeueOne(db, now, all - rest, r);
        assert all - (rest - {r}) == all - rest + {r};
        rest := rest - {r};
        RequeueRow(r, now, selected[r]);
        recovered := if selected[r].status == Running then recovered + [r] else recovered;
      }
      assert all - rest == all;
    }

    /** One row of the batch: `row` is the run as the batch selected it. */
    method ExpireRow(i: InterruptId, id: RunId, row: Run) returns (conflict: bool)
      requires Valid() && i in interrupts && interrupts[i].decision.None? && interrupts[i].runId == id && id in runs
      requires i in RecordOf(id).interrupts
      modifies this
      ensures Valid() && runs.Keys == old(runs).Keys && interrupts.Keys == old(interrupts).Keys
      ensures forall k :: k in interrupts && k != i ==> interrupts[k] == old(interrupts)[k]
      ensures forall q :: q in runs && q != id ==> runs[q] == old(runs)[q]
      ensures conflict <==> row.status == Waiting && old(runs)[id].version != row.version
      ensures row == old(runs)[id] ==> Snapshot() == old(Snapshot())[id := ExpireInterrupt(old(RecordOf(id)), i)]
      ensures interrupts == old(interrupts)[i := old(interrupts)[i].(decision := Some(Expired()))]
      ensures runs == if row.status == Waiting && !conflict then old(runs)[id := old(runs)[id].(status := TimedOut, version := old(runs)[id].version + 1)] else old(runs)
      ensures leases == old(leases) && checkpoints == old(checkpoints)
    {
      hide DbOf, InterruptsOf, LastEvent, Keyed;
      RowKeys(Content(), id);
      InterruptOf(Content(), id, i);
      conflict := row.status == Waiting && runs[id].version != row.version;
      interrupts := interrupts[i := interrupts[i].(decision := Some(Expired()))];
      if row.status == Waiting && !conflict {
        runs := runs[id := SetStatus(runs[id], TimedOut)];
        LogEvent(id, InterruptExpired(i));
      }
      assert runs == old(runs)[id := runs[id]] && events == old(events)[id := events[id]];
      RewrittenAsk(old(Content()), id, i);
    }

    method Rollback(
      runRows: map<RunId, Run>, prints: map<RunId, Fingerprint>, leaseRows: map<RunId, Lease>,
      checkpointRows: map<RunId, seq<Checkpoint>>, asks: map<InterruptId, Interrupt>, log: map<RunId, seq<Event>>)
      modifies this
      ensures Content() == Tables(runRows, prints, leaseRows, checkpointRows, asks, log)
    {
      runs, fingerprints, leases, checkpoints, interrupts, events := runRows, prints, leaseRows, checkpointRows, asks, log;
    }

    /** One turn of the loop over the overdue interrupts. */
    method ExpireTurn(
      i: InterruptId, selected: map<RunId, Run>, asks: map<InterruptId, Interrupt>, ghost t: Tables, ghost rows: set<InterruptId>, ghost rest: set<InterruptId>, ghost now: Time
    )
      returns (conflict: bool)
      requires Valid() && Keyed(t) && t.runs == selected && t.interrupts == asks && runs.Keys == selected.Keys && interrupts.Keys == asks.Keys
      requires i in rest && rest <= rows && forall k :: k in rows ==> k in asks && Overdue(asks[k], now)
      requires Expiring(t, now, rest, Content()) && Halfway(asks, selected, rows - rest, interrupts, runs)
      modifies this
      ensures Valid() && runs.Keys == selected.Keys && interrupts.Keys == asks.Keys && leases == old(leases) && checkpoints == old(checkpoints)
      ensures !conflict ==> Expiring(t, now, rest - {i}, Content()) && Halfway(asks, selected, rows - (rest - {i}), interrupts, runs)
      ensures AllOnePending(DbOf(t)) ==> !conflict
    {
      hide DbOf, RecordIn, Keyed, Protocol.ExpireAll, ExpireInterrupt, AllOnePending, InterruptsOf, Expiring, Overdue;
      RunsKeyed(t);
      var id := asks[i].runId;
      ghost var current := Content();
      assert interrupts[i] == asks[i];
      hide Halfway;
      RecordAsk(current, id, i);
      assert asks[i].decision.None? by { OverdueIsPending(asks[i], now); }
      conflict := ExpireRow(i, id, selected[id]);
      ExpiringTurn(t, now, rest, current, i, Content());
      if conflict { return; }
      HalfwayOn(asks, selected, rows - rest, current.interrupts, current.runs, i, runs);
      assert rows - (rest - {i}) == rows - rest + {i};
    }

    /** The loop over the overdue interrupts, up to a version conflict. */
    method ExpireRows(rows: set<InterruptId>, now: Time) returns (conflict: bool, expired: seq<InterruptId>)
      requires Valid() && rows == set i | i in interrupts && Overdue(interrupts[i], now)
      modifies this
      ensures Valid() && (!conflict ==> Expiring(old(Content()), now, {}, Content()) && forall i :: i in expired <==> i in rows)
      ensures AllOnePending(old(Snapshot())) ==> !conflict
      ensures leases == old(leases) && checkpoints == old(checkpoints) && interrupts.Keys == old(interrupts).Keys && runs.Keys == old(runs).Keys
      ensures !conflict ==> Halfway(old(interrupts), old(runs), rows, interrupts, runs)
    {
      hide DbOf, RecordIn, Keyed, Protocol.ExpireAll, AllOnePending, InterruptsOf, Expiring, Overdue, Halfway;
      ghost var t := Content();
      var selected, asks := runs, interrupts;
      conflict, expired := false, [];
      var rest := rows;
      ExpiringStart(t, now, rows);
      HalfwayStart(asks, selected);
      assert rows - rest == {};
      while rest != {}
        invariant rest <= rows && Valid() && runs.Keys == selected.Keys && interrupts.Keys == asks.Keys
        invariant Expiring(t, now, rest, Content()) && Halfway(asks, selected, rows - rest, interrupts, runs)
        invariant leases == old(leases) && checkpoints == old(checkpoints)
        invariant forall i :: i in expired <==> i in rows && i !in rest
        decreases rest
      {
        var i :| i in rest;
        conflict := ExpireTurn(i, selected, asks, t, rows, rest, now);
        if conflict { return; }
        rest, expired := rest - {i}, expired + [i];
      }
      assert rows - rest == rows;
    }

    /** Every overdue interrupt is rejected and its waiting run times out.  With at most one pending
        interrupt per run the batch never meets a version conflict; if it does it rolls back. */
    method ExpireInterrupts(now: Time) returns (r: Result<seq<InterruptId>>)
      requires Valid()
      modifies this
      ensures Valid()
      ensures r.Err? ==> r == Err(Conflict) && Snapshot() == old(Snapshot())
      ensures r.Ok? ==> forall i :: i in r.value <==> i in old(interrupts) && Overdue(old(interrupts)[i], now)
      ensures AllOnePending(old(Snapshot())) ==>
        r.Ok? && Snapshot() == Protocol.ExpireAll(old(Snapshot()), now, old(runs).Keys)
      ensures r.Ok? ==> interrupts.Keys == old(interrupts).Keys && forall i :: i in old(interrupts) ==> interrupts[i] == AskAfter(old(interrupts)[i], now)
      ensures r.Ok? ==> runs.Keys == old(runs).Keys && forall q :: q in old(runs) ==> RunAfter(old(runs)[q], runs[q], old(interrupts), now)
      ensures r.Ok? ==> leases == old(leases) && checkpoints == old(checkpoints)
    {
      hide DbOf, RecordIn, Keyed, Protocol.ExpireAll, AllOnePending, InterruptsOf, Expiring, Overdue, AskAfter, RunAfter, Owners;
      var begun := (runs, fingerprints, leases, checkpoints, interrupts, events);
      var rows := set i | i in interrupts && Overdue(interrupts[i], now);
      OverdueAsks(interrupts, now);
      RowIds(Content());
      var conflict, expired := ExpireRows(rows, now);
      if conflict {
        Rollback(begun.0, begun.1, begun.2, begun.3, begun.4, begun.5);
        return Err(Conflict);
      }
      forall q | q in old(runs) ensures RunAfter(old(runs)[q], runs[q], old(interrupts), now) {
        TouchedRun(old(runs)[q], old(interrupts), rows, now);
      }
      if AllOnePending(old(Snapshot())) { ExpiringEnd(old(Content()), now, Content()); }
      return Ok(expired);
    }
  }

  lemma TouchedRun(run: Run, asks: map<InterruptId, Interrupt>, rows: set<InterruptId>, now: Time)
    requires rows == set i | i in asks && Overdue(asks[i], now)
    ensures RunAfter(run, Touched(run, run.id in Owners(asks, rows)), asks, now)
  {
    OverdueAsks(asks, now);
    hide Overdue, AskAfter;
    if run.id in Owners(asks, rows) {
      var i :| i in rows && i in asks && asks[i].runId == run.id;
      assert AskAfter(asks[i], now) != asks[i];
    }
  }

  lemma OverdueIsPending(ask: Interrupt, now: Time)
    requires Overdue(ask, now)
    ensures ask.decision.None?
  {
  }
}
