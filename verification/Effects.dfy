/** The side-effect ledger (src/rath/runtime/effects.py): one row per prepared
    invocation, each transaction a function of the table. */
module Effects {
  import opened Models

  type InvocationId = nat

  datatype EffectClass = NoEffect | ReadOnly | Idempotent | NonIdempotent

  datatype InvocationStatus = Prepared | Dispatched | Done | Faulted | Ambiguous

  datatype Invocation = Invocation(
    runId: RunId,
    tool: string,
    effect: EffectClass,
    digest: string,
    key: Option<string>,
    status: InvocationStatus,
    result: Option<string>,
    error: Option<string>,
    sequence: nat,
    updatedAt: Time)

  type Ledger = map<InvocationId, Invocation>

  /** A request to prepare an invocation. */
  datatype Request = Request(runId: RunId, tool: string, effect: EffectClass, digest: string, key: Option<string>)

  predicate SameKey(row: Invocation, q: Request) {
    row.runId == q.runId && row.key.Some? && row.key == q.key
  }

  predicate SameInput(row: Invocation, q: Request) {
    row.digest == q.digest && row.tool == q.tool
  }

  /** `bound` is MAX(invocation_sequence) over the run's rows, 0 if there are none. */
  ghost predicate IsLargestSequence(l: Ledger, runId: RunId, bound: nat) {
    && (forall i :: i in l && l[i].runId == runId ==> l[i].sequence <= bound)
    && (bound == 0 || exists i :: i in l && l[i].runId == runId && l[i].sequence == bound)
  }

  /** `bound` is the largest sequence of the run's succeeded rows, 0 if there are none. */
  ghost predicate IsWatermark(l: Ledger, runId: RunId, bound: nat) {
    && (forall i :: i in l && l[i].runId == runId && l[i].status.Done? ==> l[i].sequence <= bound)
    && (bound == 0 || exists i :: i in l && l[i].runId == runId && l[i].status.Done? && l[i].sequence == bound)
  }

  /** Where a stale dispatched row goes. */
  function ReconcileTarget(row: Invocation): InvocationStatus {
    if row.effect.NoEffect? || row.effect.ReadOnly? || (row.effect.Idempotent? && row.key.Some?)
    then Prepared else Ambiguous
  }

  predicate Stale(row: Invocation, olderThan: Time) {
    row.status.Dispatched? && row.updatedAt <= olderThan
  }

  function ReconcileRow(row: Invocation, olderThan: Time, now: Time): Invocation {
    if Stale(row, olderThan) then row.(status := ReconcileTarget(row), updatedAt := now) else row
  }

  function ReconcileStale(l: Ledger, olderThan: Time, now: Time): Ledger {
    map i | i in l :: ReconcileRow(l[i], olderThan, now)
  }

  function FreshRow(q: Request, sequence: nat, now: Time): Invocation {
    Invocation(q.runId, q.tool, q.effect, q.digest, q.key, Prepared, None, None, sequence, now)
  }

  /** The ledger after a prepare that had to insert, given the fresh id. */
  ghost predicate Inserted(l: Ledger, l': Ledger, q: Request, id: InvocationId, now: Time) {
    && id !in l
    && (forall i :: i in l ==> !SameKey(l[i], q))
    && exists top: nat :: IsLargestSequence(l, q.runId, top) && l' == l[id := FreshRow(q, top + 1, now)]
  }

  predicate CanMark(l: Ledger, id: InvocationId) {
    id in l && l[id].status.Prepared?
  }

  predicate CanSettle(l: Ledger, id: InvocationId) {
    id in l && (l[id].status.Prepared? || l[id].status.Dispatched?)
  }

  /** `_transition` overwrites the result and the error with whatever it was given. */
  function Mark(l: Ledger, id: InvocationId, now: Time): Ledger
    requires CanMark(l, id)
  {
    l[id := l[id].(status := Dispatched, result := None, error := None, updatedAt := now)]
  }

  function Complete(l: Ledger, id: InvocationId, result: Option<string>, now: Time): Ledger
    requires CanSettle(l, id)
  {
    l[id := l[id].(status := Done, result := result, error := None, updatedAt := now)]
  }

  function Fail(l: Ledger, id: InvocationId, error: string, now: Time): Ledger
    requires CanSettle(l, id)
  {
    l[id := l[id].(status := Faulted, result := None, error := Some(error), updatedAt := now)]
  }

  /** Any one ledger transaction that changes the table. */
  datatype Action =
    | Prepare(q: Request, id: InvocationId)
    | MarkDispatched(id: InvocationId)
    | Succeed(id: InvocationId, result: Option<string>)
    | Abort(id: InvocationId, error: string)
    | Reconcile(olderThan: Time)

  ghost predicate Transacts(l: Ledger, a: Action, now: Time, l': Ledger) {
    match a
    case Prepare(q, id) => Inserted(l, l', q, id, now)
    case MarkDispatched(id) => CanMark(l, id) && l' == Mark(l, id, now)
    case Succeed(id, result) => CanSettle(l, id) && l' == Complete(l, id, result, now)
    case Abort(id, error) => CanSettle(l, id) && l' == Fail(l, id, error, now)
    case Reconcile(olderThan) => l' == ReconcileStale(l, olderThan, now)
  }

  /** What any history of ledger transactions keeps about a row. */
  predicate RowEvolves(a: Invocation, b: Invocation) {
    && b.runId == a.runId && b.tool == a.tool && b.effect == a.effect
    && b.digest == a.digest && b.key == a.key && b.sequence == a.sequence
    && (a.status.Done? ==> b.status.Done? && b.result == a.result)
    && (a.status.Faulted? ==> b.status.Faulted?)
    && (a.status.Ambiguous? ==> b.status.Ambiguous?)
  }

  ghost predicate LedgerEvolves(l: Ledger, l': Ledger) {
    forall i :: i in l ==> i in l' && RowEvolves(l[i], l'[i])
  }

  /** One row per (run, key), one row per (run, sequence), sequences from 1. */
  ghost predicate WellFormed(l: Ledger) {
    && (forall i, j :: i in l && j in l && l[i].runId == l[j].runId && l[i].key.Some? && l[i].key == l[j].key ==> i == j)
    && (forall i, j :: i in l && j in l && l[i].runId == l[j].runId && l[i].sequence == l[j].sequence ==> i == j)
    && (forall i :: i in l ==> 1 <= l[i].sequence)
  }

  lemma TransactionEvolves(l: Ledger, a: Action, now: Time, l': Ledger)
    requires Transacts(l, a, now, l')
    ensures LedgerEvolves(l, l')
  {
  }

  lemma InsertWellFormed(l: Ledger, l': Ledger, q: Request, id: InvocationId, now: Time)
    requires WellFormed(l)
    requires Inserted(l, l', q, id, now)
    ensures WellFormed(l')
  {
    var top: nat :| IsLargestSequence(l, q.runId, top) && l' == l[id := FreshRow(q, top + 1, now)];
    forall i, j | i in l' && j in l' && l'[i].runId == l'[j].runId && l'[i].sequence == l'[j].sequence
      ensures i == j
    {
      assert i != id ==> i in l && l'[i] == l[i];
      assert j != id ==> j in l && l'[j] == l[j];
    }
    forall i, j | i in l' && j in l' && l'[i].runId == l'[j].runId && l'[i].key.Some? && l'[i].key == l'[j].key
      ensures i == j
    {
      assert i != id ==> i in l && l'[i] == l[i] && !SameKey(l[i], q);
      assert j != id ==> j in l && l'[j] == l[j] && !SameKey(l[j], q);
    }
  }

  lemma UpdateWellFormed(l: Ledger, l': Ledger)
    requires WellFormed(l)
    requires l'.Keys == l.Keys && LedgerEvolves(l, l')
    ensures WellFormed(l')
  {
    assert forall i :: i in l' ==> i in l && RowEvolves(l[i], l'[i]);
  }

  lemma TransactionWellFormed(l: Ledger, a: Action, now: Time, l': Ledger)
    requires WellFormed(l)
    requires Transacts(l, a, now, l')
    ensures WellFormed(l')
  {
    TransactionEvolves(l, a, now, l');
    if a.Prepare? {
      InsertWellFormed(l, l', a.q, a.id, now);
    } else {
      assert l'.Keys == l.Keys;
      UpdateWellFormed(l, l');
    }
  }

  /** The largest sequence of the chosen rows. */
  lemma {:induction false} LargestExists(l: Ledger, ids: set<InvocationId>) returns (bound: nat)
    requires forall i :: i in ids ==> i in l
    ensures forall i :: i in ids ==> l[i].sequence <= bound
    ensures bound == 0 || exists i :: i in ids && l[i].sequence == bound
  {
    bound := 0;
    if ids != {} {
      var x :| x in ids;
      var rest := LargestExists(l, ids - {x});
      bound := if l[x].sequence > rest then l[x].sequence else rest;
      forall i | i in ids ensures l[i].sequence <= bound {
        assert i == x || i in ids - {x};
      }
    }
  }

  lemma WatermarkExists(l: Ledger, runId: RunId)
    ensures exists bound: nat :: IsWatermark(l, runId, bound)
  {
    var ids := set i | i in l && l[i].runId == runId && l[i].status.Done?;
    var bound := LargestExists(l, ids);
    if bound != 0 {
      var i :| i in ids && l[i].sequence == bound;
    }
    assert IsWatermark(l, runId, bound);
  }

  /** The `watermark` query. */
  ghost function Watermark(l: Ledger, runId: RunId): (bound: nat)
    ensures IsWatermark(l, runId, bound)
  {
    WatermarkExists(l, runId);
    var bound: nat :| IsWatermark(l, runId, bound);
    bound
  }

  /** A watermark read earlier never exceeds one read later. */
  lemma WatermarkMonotone(l: Ledger, l': Ledger, runId: RunId)
    requires LedgerEvolves(l, l')
    ensures Watermark(l, runId) <= Watermark(l', runId)
  {
    var low := Watermark(l, runId);
    if low != 0 {
      var i :| i in l && l[i].runId == runId && l[i].status.Done? && l[i].sequence == low;
      assert RowEvolves(l[i], l'[i]);
    }
  }
}
