/** The ledger's table changed in place (src/rath/runtime/effects.py), one call of
    `ToolExecutor.execute` against it, and the reconciliation of stale rows. */
module EffectLedger {
  import opened Models
  import opened Effects
  import opened ToolExecution
  import opened RunStore
  import Records

  /** A row that answers for this run and key. */
  predicate OfKey(row: Invocation, q: Request) {
    row.key.Some? && row.key == q.key && row.runId == q.runId
  }

  predicate IsNew(row: Invocation, q: Request, now: Time) {
    row.runId == q.runId && row.tool == q.tool && row.effect == q.effect && row.digest == q.digest && row.key == q.key &&
    row.status.Prepared? && row.result == None && row.error == None && row.updatedAt == now
  }

  /** One above the largest sequence of the run. */
  ghost predicate IsNextOf(l: Ledger, runId: RunId, sequence: nat) {
    (forall i :: i in l && l[i].runId == runId ==> l[i].sequence < sequence) &&
    (sequence == 1 || exists i :: i in l && l[i].runId == runId && l[i].sequence == sequence - 1)
  }

  /** A dispatched row not touched since is prepared again if repeating it is harmless, or keyed and
      idempotent, and else ambiguous; any other row is left alone. */
  predicate ReconciledAs(before: Invocation, after: Invocation, olderThan: Time, now: Time) {
    if before.status.Dispatched? && before.updatedAt <= olderThan then
      after == before.(updatedAt := now, status :=
        match before.effect
        case NoEffect => Prepared
        case ReadOnly => Prepared
        case Idempotent => if before.key.Some? then Prepared else Ambiguous
        case NonIdempotent => Ambiguous)
    else after == before
  }

  class SQLiteEffectLedger {
    var rows: Ledger

    constructor ()
      ensures rows == map[]
    {
      rows := map[];
    }

    /** SELECT COALESCE(MAX(invocation_sequence), 0) ... WHERE run_id = ?. */
    method LargestSequence(runId: RunId) returns (top: nat)
      ensures IsLargestSequence(rows, runId, top)
    {
      top := 0;
      var rest := rows.Keys;
      while rest != {}
        invariant rest <= rows.Keys
        invariant forall i :: i in rows && i !in rest && rows[i].runId == runId ==> rows[i].sequence <= top
        invariant top == 0 || exists i :: i in rows && rows[i].runId == runId && rows[i].sequence == top
        decreases rest
      {
        var i :| i in rest;
        rest := rest - {i};
        if rows[i].runId == runId && rows[i].sequence > top {
          top := rows[i].sequence;
        }
      }
    }

    /** The largest sequence of the run's succeeded rows. */
    method ReadWatermark(runId: RunId) returns (bound: nat)
      ensures bound == Watermark(rows, runId)
      ensures forall i :: i in rows && rows[i].runId == runId && rows[i].status.Done? ==> rows[i].sequence <= bound
      ensures bound == 0 || exists i :: i in rows && rows[i].runId == runId && rows[i].status.Done? && rows[i].sequence == bound
    {
      bound := 0;
      var rest := rows.Keys;
      while rest != {}
        invariant rest <= rows.Keys
        invariant forall i :: i in rows && i !in rest && rows[i].runId == runId && rows[i].status.Done? ==> rows[i].sequence <= bound
        invariant bound == 0 || exists i :: i in rows && rows[i].runId == runId && rows[i].status.Done? && rows[i].sequence == bound
        decreases rest
      {
        var i :| i in rest;
        rest := rest - {i};
        if rows[i].runId == runId && rows[i].status.Done? && rows[i].sequence > bound {
          bound := rows[i].sequence;
        }
      }
      assert IsWatermark(rows, runId, bound);
    }

    /** `id` is the new row's identifier, which no row has yet. */
    method Prepare(q: Request, id: InvocationId, now: Time) returns (r: Result<InvocationId>)
      requires id !in rows
      modifies this
      ensures (forall i: InvocationId :: !Stored(old(rows), q, i)) ==> r == Ok(id) && Inserted(old(rows), rows, q, id, now)
      ensures forall i: InvocationId :: Stored(old(rows), q, i) && WellFormed(old(rows)) ==>
        rows == old(rows) && r == if SameInput(rows[i], q) then Ok(i) else Err(Conflict)
      ensures forall i :: i in old(rows) && OfKey(old(rows)[i], q) && (old(rows)[i].tool != q.tool || old(rows)[i].digest != q.digest) && WellFormed(old(rows)) ==>
        r == Err(Conflict) && rows == old(rows)
      ensures forall i :: i in old(rows) && OfKey(old(rows)[i], q) && old(rows)[i].tool == q.tool && old(rows)[i].digest == q.digest && WellFormed(old(rows)) ==>
        r == Ok(i) && rows == old(rows)
      ensures (forall i :: i in old(rows) ==> !OfKey(old(rows)[i], q)) ==>
        r == Ok(id) && id in rows && rows == old(rows)[id := rows[id]] && IsNew(rows[id], q, now) && IsNextOf(old(rows), q.runId, rows[id].sequence)
    {
      if i :| i in rows && SameKey(rows[i], q) {
        assert Stored(rows, q, i);
        if !SameInput(rows[i], q) { return Err(Conflict); }
        return Ok(i);
      }
      var top := LargestSequence(q.runId);
      rows := rows[id := FreshRow(q, top + 1, now)];
      return Ok(id);
    }

    method MarkDispatched(id: InvocationId, now: Time) returns (r: Result<InvocationId>)
      modifies this
      ensures id !in old(rows) ==> r == Err(NotFound) && rows == old(rows)
      ensures id in old(rows) && !CanMark(old(rows), id) ==> r == Err(Conflict) && rows == old(rows)
      ensures CanMark(old(rows), id) ==> r == Ok(id) && rows == Mark(old(rows), id, now)
      ensures r.Ok? <==> id in old(rows) && old(rows)[id].status.Prepared?
      ensures r.Ok? ==> rows == old(rows)[id := old(rows)[id].(status := Dispatched, result := None, error := None, updatedAt := now)]
      ensures r.Err? ==> rows == old(rows)
    {
      if id !in rows { return Err(NotFound); }
      if !rows[id].status.Prepared? { return Err(Conflict); }
      rows := rows[id := rows[id].(status := Dispatched, result := None, error := None, updatedAt := now)];
      return Ok(id);
    }

    method CompleteRow(id: InvocationId, result: Option<string>, now: Time) returns (r: Result<InvocationId>)
      modifies this
      ensures id !in old(rows) ==> r == Err(NotFound) && rows == old(rows)
      ensures id in old(rows) && !CanSettle(old(rows), id) ==> r == Err(Conflict) && rows == old(rows)
      ensures CanSettle(old(rows), id) ==> r == Ok(id) && rows == Complete(old(rows), id, result, now)
      ensures r.Ok? <==> id in old(rows) && (old(rows)[id].status.Prepared? || old(rows)[id].status.Dispatched?)
      ensures r.Ok? ==> rows == old(rows)[id := old(rows)[id].(status := Done, result := result, error := None, updatedAt := now)]
      ensures r.Err? ==> rows == old(rows)
    {
      if id !in rows { return Err(NotFound); }
      if !(rows[id].status.Prepared? || rows[id].status.Dispatched?) { return Err(Conflict); }
      rows := rows[id := rows[id].(status := Done, result := result, error := None, updatedAt := now)];
      return Ok(id);
    }

    method FailRow(id: InvocationId, error: string, now: Time) returns (r: Result<InvocationId>)
      modifies this
      ensures id !in old(rows) ==> r == Err(NotFound) && rows == old(rows)
      ensures id in old(rows) && !CanSettle(old(rows), id) ==> r == Err(Conflict) && rows == old(rows)
      ensures CanSettle(old(rows), id) ==> r == Ok(id) && rows == Fail(old(rows), id, error, now)
      ensures r.Ok? <==> id in old(rows) && (old(rows)[id].status.Prepared? || old(rows)[id].status.Dispatched?)
      ensures r.Ok? ==> rows == old(rows)[id := old(rows)[id].(status := Faulted, result := None, error := Some(error), updatedAt := now)]
      ensures r.Err? ==> rows == old(rows)
    {
      if id !in rows { return Err(NotFound); }
      if !(rows[id].status.Prepared? || rows[id].status.Dispatched?) { return Err(Conflict); }
      rows := rows[id := rows[id].(status := Faulted, result := None, error := Some(error), updatedAt := now)];
      return Ok(id);
    }

    /** Every stale dispatched row is classified; the classified ids are returned. */
    method ReconcileStale(olderThan: Time, now: Time) returns (output: seq<InvocationId>)
      modifies this
      ensures rows == Effects.ReconcileStale(old(rows), olderThan, now)
      ensures forall i :: i in output <==> i in old(rows) && Stale(old(rows)[i], olderThan)
      ensures rows.Keys == old(rows).Keys && forall i :: i in old(rows) ==> ReconciledAs(old(rows)[i], rows[i], olderThan, now)
      ensures forall i :: i in output <==> i in old(rows) && old(rows)[i].status.Dispatched? && old(rows)[i].updatedAt <= olderThan
    {
      var selected := set i | i in rows && Stale(rows[i], olderThan);
      output := [];
      var rest := selected;
      while rest != {}
        invariant rest <= selected && rows.Keys == old(rows).Keys
        invariant forall i :: i in rows ==>
          rows[i] == if i in rest then old(rows)[i] else ReconcileRow(old(rows)[i], olderThan, now)
        invariant forall i :: i in output <==> i in selected && i !in rest
        decreases rest
      {
        var i :| i in rest;
        rest := rest - {i};
        rows := rows[i := rows[i].(status := ReconcileTarget(rows[i]), updatedAt := now)];
        output := output + [i];
      }
    }
  }

  /** How the handler call ends, as `execute` tells the cases apart. */
  datatype Ending = Value(result: Option<string>) | Oversized(error: string) | Exception(error: string) | Timeout | Rejected

  /** The row once the handler call has ended. */
  function Settled(row: Invocation, q: Request, ending: Ending, now: Time): Invocation {
    match ending
    case Value(result) => row.(status := Done, result := result, error := None, updatedAt := now)
    case Oversized(error) => row.(status := Faulted, result := None, error := Some(error), updatedAt := now)
    case Exception(error) =>
      if q.effect.NonIdempotent? then row
      else row.(status := Faulted, result := None, error := Some(error), updatedAt := now)
    case Timeout => row
    case Rejected => row
  }

  /** A prepared row after its handler was called: succeeded with the value, failed with the error,
      or still dispatched where the outcome may not be known. */
  predicate After(before: Invocation, after: Invocation, q: Request, ending: Ending, now: Time) {
    after.runId == before.runId && after.tool == before.tool && after.effect == before.effect && after.digest == before.digest &&
    after.key == before.key && after.sequence == before.sequence && after.updatedAt == now &&
    match ending
    case Value(result) => after.status.Done? && after.result == result && after.error == None
    case Oversized(error) => after.status.Faulted? && after.result == None && after.error == Some(error)
    case Exception(error) =>
      if q.effect.NonIdempotent? then after.status.Dispatched? && after.result == None && after.error == None
      else after.status.Faulted? && after.result == None && after.error == Some(error)
    case Timeout => after.status.Dispatched? && after.result == None && after.error == None
    case Rejected => after.status.Dispatched? && after.result == None && after.error == None
  }

  /** A row dispatched for this request. */
  predicate ForRequest(row: Invocation, q: Request) {
    row.status.Dispatched? && SameInput(row, q) && row.runId == q.runId && row.key == q.key
  }

  /** The invocation the handler may be called for: a new row, or a stored one still prepared. */
  ghost predicate Callable(l: Ledger, q: Request, id: InvocationId) {
    if exists i: InvocationId :: Stored(l, q, i) then Stored(l, q, id) && SameInput(l[id], q) && l[id].status.Prepared?
    else id !in l
  }

  /** One undisturbed call.  The handler runs exactly when the row is new or still prepared; a stored
      success is returned as it is; a non-idempotent failure stays dispatched for the reconciler. */
  method Execute(ledger: SQLiteEffectLedger, q: Request, newId: InvocationId, ending: Ending, now: Time)
    returns (r: Result<Option<string>>, called: bool, ghost id: InvocationId)
    requires WellFormed(ledger.rows) && newId !in ledger.rows
    modifies ledger
    ensures called <==> Callable(old(ledger.rows), q, id)
    ensures id == newId || Stored(old(ledger.rows), q, id)
    ensures !called ==> ledger.rows == old(ledger.rows) && id in ledger.rows
    ensures !called && SameInput(ledger.rows[id], q) && ledger.rows[id].status.Done? ==> r == Ok(ledger.rows[id].result)
    ensures !called && !(SameInput(ledger.rows[id], q) && ledger.rows[id].status.Done?) ==> r.Err?
    ensures called ==>
      && id in ledger.rows && r == (if ending.Value? then Ok(ending.result) else Err(ToolFailed))
      && (exists row :: ForRequest(row, q) && ledger.rows[id] == Settled(row, q, ending, now))
      && (forall i :: i in old(ledger.rows) && i != id ==> i in ledger.rows && ledger.rows[i] == old(ledger.rows)[i])
    ensures forall i :: i in old(ledger.rows) && OfKey(old(ledger.rows)[i], q) ==>
      var row := old(ledger.rows)[i];
      if row.tool != q.tool || row.digest != q.digest then r == Err(Conflict) && !called && ledger.rows == old(ledger.rows)
      else match row.status
        case Done => r == Ok(row.result) && !called && ledger.rows == old(ledger.rows)
        case Prepared => called && i in ledger.rows && After(row, ledger.rows[i], q, ending, now)
        case _ => r == Err(Conflict) && !called && ledger.rows == old(ledger.rows)
    ensures (forall i :: i in old(ledger.rows) ==> !OfKey(old(ledger.rows)[i], q)) ==>
      called && newId in ledger.rows && exists row :: IsNew(row, q, now) && After(row, ledger.rows[newId], q, ending, now)
    ensures called ==> r == match ending case Value(result) => Ok(result) case _ => Err(ToolFailed)
  {
    hide WellFormed, IsNextOf, IsLargestSequence, Inserted, After, Settled;
    called := false;
    ghost var before := ledger.rows;
    KeysAgree(before, q);
    var prepared := ledger.Prepare(q, newId, now);
    id := if exists i: InvocationId :: Stored(before, q, i) then (var i: InvocationId :| Stored(before, q, i); i) else newId;
    assert id in ledger.rows;
    OneOfKey(before, q, id);
    if prepared.Err? { return Err(prepared.error), false, id; }
    assert prepared == Ok(id);
    var row := ledger.rows[prepared.value];
    if row.status.Done? { return Ok(row.result), false, id; }
    if row.status.Ambiguous? || row.status.Dispatched? { return Err(Conflict), false, id; }
    var marked := ledger.MarkDispatched(prepared.value, now);
    if marked.Err? { return Err(marked.error), false, id; }
    called := true;
    ghost var dispatched := ledger.rows[id];
    r := Conclude(ledger, prepared.value, q, ending, now);
    SettledAfter(row, dispatched, q, ending, now);
    assert ForRequest(dispatched, q);
  }

  /** What follows the handler call. */
  method Conclude(ledger: SQLiteEffectLedger, id: InvocationId, q: Request, ending: Ending, now: Time) returns (r: Result<Option<string>>)
    requires id in ledger.rows && ledger.rows[id].status.Dispatched? && ledger.rows[id].updatedAt == now
    modifies ledger
    ensures ledger.rows == old(ledger.rows)[id := Settled(old(ledger.rows)[id], q, ending, now)]
    ensures r == match ending case Value(result) => Ok(result) case _ => Err(ToolFailed)
  {
    match ending {
      case Value(result) =>
        var done := ledger.CompleteRow(id, result, now);
        r := Ok(result);
      case Oversized(error) =>
        var failed := ledger.FailRow(id, error, now);
        r := Err(ToolFailed);
      case Exception(error) =>
        if !q.effect.NonIdempotent? {
          var failed := ledger.FailRow(id, error, now);
        }
        r := Err(ToolFailed);
      case Timeout =>
        r := Err(ToolFailed);
      case Rejected =>
        r := Err(ToolFailed);
    }
  }

  lemma SettledAfter(prepared: Invocation, dispatched: Invocation, q: Request, ending: Ending, now: Time)
    requires dispatched == prepared.(status := Dispatched, result := None, error := None, updatedAt := now)
    ensures After(prepared, Settled(dispatched, q, ending, now), q, ending, now)
  {
  }

  lemma KeysAgree(l: Ledger, q: Request)
    ensures forall i: InvocationId :: Stored(l, q, i) <==> i in l && OfKey(l[i], q)
  {
  }

  lemma OneOfKey(l: Ledger, q: Request, id: InvocationId)
    requires WellFormed(l)
    ensures Stored(l, q, id) ==> forall i: InvocationId :: Stored(l, q, i) ==> i == id
  {
  }

  ghost function RunsOf(l: Ledger, ids: seq<InvocationId>): set<RunId> {
    set i | i in ids && i in l :: l[i].runId
  }

  /** Exactly the running runs among these moved to review. */
  ghost predicate Reviewed(before: Records.Db, after: Records.Db, runs: set<RunId>) {
    && after.Keys == before.Keys
    && forall q :: q in before ==>
         if q in runs && before[q].run.status == Running
         then after[q].run == before[q].run.(status := NeedsReview, version := before[q].run.version + 1)
         else after[q] == before[q]
  }

  lemma ReviewOne(before: Records.Db, middle: Records.Db, after: Records.Db, l: Ledger, ids: seq<InvocationId>, i: InvocationId)
    requires Reviewed(before, middle, RunsOf(l, ids)) && i in l && Reviewed(middle, after, {l[i].runId})
    ensures Reviewed(before, after, RunsOf(l, ids + [i]))
  {
    assert RunsOf(l, ids + [i]) == RunsOf(l, ids) + {l[i].runId};
  }

  /** An interrupted call of this row must not be repeated: non-idempotent, or idempotent without a key. */
  predicate MustReview(row: Invocation) {
    row.effect.NonIdempotent? || (row.effect.Idempotent? && row.key.None?)
  }

  /** The loop over the reconciled rows. */
  method Classify(rows: Ledger, stale: seq<InvocationId>, store: SQLiteRunStore)
    returns (retryable: seq<InvocationId>, needsReview: seq<InvocationId>)
    requires store.Valid() && (forall i :: i in stale ==> i in rows && rows[i].runId in store.Snapshot())
    modifies store
    ensures store.Valid() && Reviewed(old(store.Snapshot()), store.Snapshot(), RunsOf(rows, needsReview))
    ensures forall i :: i in retryable <==> i in stale && rows[i].status.Prepared?
    ensures forall i :: i in needsReview <==> i in stale && !rows[i].status.Prepared?
  {
    hide DbOf, Keyed, Reviewed, RunsOf, RecordIn;
    ghost var db := store.Snapshot();
    retryable, needsReview := [], [];
    ReviewNone(db, rows);
    for k := 0 to |stale|
      invariant store.Valid() && store.Snapshot().Keys == db.Keys
      invariant forall i :: i in retryable <==> i in stale[..k] && rows[i].status.Prepared?
      invariant forall i :: i in needsReview <==> i in stale[..k] && !rows[i].status.Prepared?
      invariant Reviewed(db, store.Snapshot(), RunsOf(rows, needsReview))
    {
      var i := stale[k];
      assert i in stale && stale[..k + 1] == stale[..k] + [i];
      if rows[i].status.Prepared? {
        retryable := retryable + [i];
      } else {
        ghost var middle := store.Snapshot();
        ReviewRun(store, rows[i].runId);
        ReviewOne(db, middle, store.Snapshot(), rows, needsReview, i);
        needsReview := needsReview + [i];
      }
    }
    assert stale[..|stale|] == stale;
  }

  /** Stale rows are classified, and exactly the running runs of the ambiguous ones move to NEEDS_REVIEW. */
  method ReconcileStaleEffects(ledger: SQLiteEffectLedger, store: SQLiteRunStore, olderThan: Time, now: Time)
    returns (retryable: seq<InvocationId>, needsReview: seq<InvocationId>)
    requires store.Valid() && (forall i :: i in ledger.rows ==> ledger.rows[i].runId in store.runs)
    modifies ledger, store
    ensures store.Valid() && ledger.rows == Effects.ReconcileStale(old(ledger.rows), olderThan, now)
    ensures forall i :: i in retryable <==> i in ledger.rows && Stale(old(ledger.rows)[i], olderThan) && ledger.rows[i].status.Prepared?
    ensures forall i :: i in needsReview <==> i in ledger.rows && Stale(old(ledger.rows)[i], olderThan) && ledger.rows[i].status.Ambiguous?
    ensures Reviewed(old(store.Snapshot()), store.Snapshot(), RunsOf(ledger.rows, needsReview))
    ensures ledger.rows.Keys == old(ledger.rows).Keys && forall i :: i in old(ledger.rows) ==> ReconciledAs(old(ledger.rows)[i], ledger.rows[i], olderThan, now)
    ensures forall i :: i in needsReview <==>
      i in old(ledger.rows) && old(ledger.rows)[i].status.Dispatched? && old(ledger.rows)[i].updatedAt <= olderThan && MustReview(old(ledger.rows)[i])
    ensures forall i :: i in retryable <==>
      i in old(ledger.rows) && old(ledger.rows)[i].status.Dispatched? && old(ledger.rows)[i].updatedAt <= olderThan && !MustReview(old(ledger.rows)[i])
  {
    DbKeys(store.Content());
    hide DbOf, Keyed, Reviewed, RunsOf, ReconcileRow, Effects.ReconcileStale, RecordIn, Stale, ReconciledAs, MustReview;
    ReconciledRows(ledger.rows, olderThan, now);
    ClassifiedRows(ledger.rows, olderThan, now);
    var stale := ledger.ReconcileStale(olderThan, now);
    retryable, needsReview := Classify(ledger.rows, stale, store);
  }

  lemma ClassifiedRows(l: Ledger, olderThan: Time, now: Time)
    ensures var l' := Effects.ReconcileStale(l, olderThan, now);
      forall i :: i in l && Stale(l[i], olderThan) ==> i in l' && (l'[i].status.Prepared? <==> !MustReview(l[i])) && (l'[i].status.Ambiguous? <==> MustReview(l[i]))
    ensures forall i :: i in l ==> (Stale(l[i], olderThan) <==> l[i].status.Dispatched? && l[i].updatedAt <= olderThan)
  {
  }

  lemma ReconciledRows(l: Ledger, olderThan: Time, now: Time)
    ensures var l' := Effects.ReconcileStale(l, olderThan, now);
      && l'.Keys == l.Keys
      && forall i :: i in l ==> l'[i].runId == l[i].runId && (Stale(l[i], olderThan) ==> l'[i].status.Prepared? || l'[i].status.Ambiguous?)
  {
  }

  lemma ReviewNone(db: Records.Db, l: Ledger)
    ensures Reviewed(db, db, RunsOf(l, []))
  {
  }

  lemma ReviewPut(db: Records.Db, id: RunId)
    requires id in db
    ensures db[id].run.status != Running ==> Reviewed(db, db, {id})
    ensures db[id].run.status == Running ==>
      var moved := Records.TransitionRun(db[id], db[id].run.version, NeedsReview, None, None);
      moved.Ok? && Reviewed(db, db[id := moved.value], {id})
  {
    hide Records.AppendEvent;
  }

  /** get_run, then a transition on the version read; a conflict is ignored. */
  method ReviewRun(store: SQLiteRunStore, id: RunId)
    requires store.Valid() && id in store.Snapshot()
    modifies store
    ensures store.Valid() && store.Snapshot().Keys == old(store.Snapshot()).Keys
    ensures Reviewed(old(store.Snapshot()), store.Snapshot(), {id})
  {
    DbKeys(store.Content());
    DbAt(store.Content(), id);
    hide DbOf, RecordIn, Keyed, Reviewed, Records.TransitionRun;
    ReviewPut(store.Snapshot(), id);
    var run := store.GetRun(id);
    if run.value.status == Running {
      var moved := store.TransitionRun(id, run.value.version, NeedsReview, None, None);
    }
  }
}
