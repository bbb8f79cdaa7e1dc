/** Tool execution around the ledger (src/rath/adapters/tool.py:151-242) as a state
    machine: executors interleave freely, crash anywhere, and stale rows are
    reconciled at any time.  It decides how often a handler may be called. */
module ToolExecution {
  import opened Models
  import opened Effects

  /** Where a call of `execute` is between two ledger transactions. */
  datatype Executor =
    | Free
    | Preparing(q: Request)
    | Marking(q: Request, id: InvocationId)
    | Armed(q: Request, id: InvocationId)
    | Called(q: Request, id: InvocationId)
    | Returned(q: Request, id: InvocationId, value: Option<string>)
    | Raised

  /** `calls` is the history of handler calls, `resets` counts the rows reconciled back to prepared. */
  datatype Tools = Tools(
    ledger: Ledger,
    executors: map<nat, Executor>,
    calls: seq<InvocationId>,
    resets: multiset<InvocationId>)

  datatype Label =
    | Begin(slot: nat, q: Request)
    | PrepareRow(slot: nat, id: InvocationId, now: Time)
    | MarkRow(slot: nat, now: Time)
    | CallHandler(slot: nat)
    | CompleteRow(slot: nat, result: Option<string>, now: Time)
    | FailRow(slot: nat, error: string, tooLarge: bool, now: Time)
    | Escape(slot: nat)
    | ReconcileRows(olderThan: Time, now: Time)
    | Crash(slot: nat)

  function At(s: Tools, slot: nat): Executor {
    if slot in s.executors then s.executors[slot] else Free
  }

  function Go(s: Tools, slot: nat, e: Executor): Tools {
    s.(executors := s.executors[slot := e])
  }

  /** What `execute` does with the row `prepare` gave it. */
  function AfterPrepare(q: Request, id: InvocationId, row: Invocation): Executor {
    if !SameInput(row, q) then Raised
    else match row.status
      case Done => Returned(q, id, row.result)
      case Ambiguous => Raised
      case Dispatched => Raised
      case Prepared => Marking(q, id)
      case Faulted => Marking(q, id)
  }

  ghost predicate Stored(l: Ledger, q: Request, id: InvocationId) {
    id in l && SameKey(l[id], q)
  }

  ghost function DoPrepare(s: Tools, slot: nat, id: InvocationId, now: Time): Tools {
    match At(s, slot)
    case Preparing(q) =>
      if exists i :: Stored(s.ledger, q, i) then
        if Stored(s.ledger, q, id) then Go(s, slot, AfterPrepare(q, id, s.ledger[id])) else s
      else if id in s.ledger then s
      else
        LargestSequenceExists(s.ledger, q.runId);
        var top: nat :| IsLargestSequence(s.ledger, q.runId, top);
        Go(s.(ledger := s.ledger[id := FreshRow(q, top + 1, now)]), slot, Marking(q, id))
    case _ => s
  }

  lemma LargestSequenceExists(l: Ledger, runId: RunId)
    ensures exists top: nat :: IsLargestSequence(l, runId, top)
  {
    var ids := set i | i in l && l[i].runId == runId;
    var bound := LargestExists(l, ids);
    if bound != 0 {
      var i :| i in ids && l[i].sequence == bound;
    }
    assert IsLargestSequence(l, runId, bound);
  }

  /** Only a prepared row can be marked; a faulted one makes the call raise. */
  function DoMark(s: Tools, slot: nat, now: Time): Tools {
    match At(s, slot)
    case Marking(q, id) =>
      if CanMark(s.ledger, id) then Go(s.(ledger := Mark(s.ledger, id, now)), slot, Armed(q, id))
      else Go(s, slot, Raised)
    case _ => s
  }

  function DoCall(s: Tools, slot: nat): Tools {
    match At(s, slot)
    case Armed(q, id) => Go(s.(calls := s.calls + [id]), slot, Called(q, id))
    case _ => s
  }

  function DoComplete(s: Tools, slot: nat, result: Option<string>, now: Time): Tools {
    match At(s, slot)
    case Called(q, id) =>
      if CanSettle(s.ledger, id) then Go(s.(ledger := Complete(s.ledger, id, result, now)), slot, Returned(q, id, result))
      else Go(s, slot, Raised)
    case _ => s
  }

  /** A handler exception is recorded unless the tool is non-idempotent (or it timed out, which is
      `Escape`); an oversized output is recorded always. */
  function DoFail(s: Tools, slot: nat, error: string, tooLarge: bool, now: Time): Tools {
    match At(s, slot)
    case Called(q, id) =>
      if !tooLarge && q.effect.NonIdempotent? then s
      else if CanSettle(s.ledger, id) then Go(s.(ledger := Fail(s.ledger, id, error, now)), slot, Raised)
      else Go(s, slot, Raised)
    case _ => s
  }

  /** An exception that leaves the ledger alone: a timeout, a rejected output, a non-idempotent failure. */
  function DoEscape(s: Tools, slot: nat): Tools {
    match At(s, slot)
    case Armed(_, _) => Go(s, slot, Raised)
    case Called(_, _) => Go(s, slot, Raised)
    case _ => s
  }

  predicate ResetNow(row: Invocation, olderThan: Time) {
    Stale(row, olderThan) && ReconcileTarget(row).Prepared?
  }

  function DoReconcile(s: Tools, olderThan: Time, now: Time): Tools {
    var reset := set i | i in s.ledger && ResetNow(s.ledger[i], olderThan);
    s.(ledger := ReconcileStale(s.ledger, olderThan, now), resets := s.resets + multiset(reset))
  }

  ghost function Next(s: Tools, l: Label): Tools {
    match l
    case Begin(slot, q) => if At(s, slot).Free? || At(s, slot).Returned? || At(s, slot).Raised? then Go(s, slot, Preparing(q)) else s
    case PrepareRow(slot, id, now) => DoPrepare(s, slot, id, now)
    case MarkRow(slot, now) => DoMark(s, slot, now)
    case CallHandler(slot) => DoCall(s, slot)
    case CompleteRow(slot, result, now) => DoComplete(s, slot, result, now)
    case FailRow(slot, error, tooLarge, now) => DoFail(s, slot, error, tooLarge, now)
    case Escape(slot) => DoEscape(s, slot)
    case ReconcileRows(olderThan, now) => DoReconcile(s, olderThan, now)
    case Crash(slot) => Go(s, slot, Free)
  }

  // ---------------------------------------------------------------- invariant

  /** Executors entitled to one handler call on this row. */
  ghost function ArmedFor(executors: map<nat, Executor>, id: InvocationId): set<nat> {
    set slot | slot in executors && executors[slot].Armed? && executors[slot].id == id
  }

  /** Calls made and calls still owed never exceed one more than the resets; while the row is
      prepared they do not exceed the resets. */
  ghost predicate Budget(s: Tools, id: InvocationId)
    requires id in s.ledger
  {
    && multiset(s.calls)[id] + |ArmedFor(s.executors, id)| <= s.resets[id] + (if s.ledger[id].status.Prepared? then 0 else 1)
    && (s.resets[id] > 0 ==> ReconcileTarget(s.ledger[id]).Prepared?)
  }

  /** The row is of this request's run and key, tool and arguments. */
  predicate IsFor(l: Ledger, id: InvocationId, q: Request) {
    id in l && l[id].runId == q.runId && l[id].key == q.key && l[id].tool == q.tool && l[id].digest == q.digest
  }

  /** An executor works on, or has answered from, a row of its own request; an answer is the row's result. */
  predicate Knows(l: Ledger, e: Executor) {
    match e
    case Marking(q, id) => IsFor(l, id, q)
    case Armed(q, id) => IsFor(l, id, q)
    case Called(q, id) => IsFor(l, id, q)
    case Returned(q, id, value) => IsFor(l, id, q) && l[id].status.Done? && l[id].result == value
    case _ => true
  }

  lemma KnowsOn(l: Ledger, l': Ledger, e: Executor)
    requires Knows(l, e) && LedgerEvolves(l, l')
    ensures Knows(l', e)
  {
    if e.Marking? || e.Armed? || e.Called? || e.Returned? {
      assert RowEvolves(l[e.id], l'[e.id]);
    }
  }

  ghost predicate Inv(s: Tools) {
    && WellFormed(s.ledger)
    && (forall i :: i in s.ledger ==> Budget(s, i))
    && (forall i :: i in s.calls ==> i in s.ledger)
    && (forall i :: i in s.resets ==> i in s.ledger)
    && (forall slot :: slot in s.executors ==> Knows(s.ledger, s.executors[slot]))
  }

  lemma ArmedSame(s: Tools, slot: nat, e: Executor, id: InvocationId)
    requires !(At(s, slot).Armed? && At(s, slot).id == id) && !(e.Armed? && e.id == id)
    ensures ArmedFor(Go(s, slot, e).executors, id) == ArmedFor(s.executors, id)
  {
  }

  lemma ArmedLess(s: Tools, slot: nat, e: Executor, id: InvocationId)
    requires At(s, slot).Armed? && At(s, slot).id == id && !(e.Armed? && e.id == id)
    ensures |ArmedFor(Go(s, slot, e).executors, id)| == |ArmedFor(s.executors, id)| - 1
  {
    assert ArmedFor(Go(s, slot, e).executors, id) == ArmedFor(s.executors, id) - {slot};
  }

  lemma ArmedMore(s: Tools, slot: nat, e: Executor, id: InvocationId)
    requires !(At(s, slot).Armed? && At(s, slot).id == id) && e.Armed? && e.id == id
    ensures |ArmedFor(Go(s, slot, e).executors, id)| == |ArmedFor(s.executors, id)| + 1
  {
    assert ArmedFor(Go(s, slot, e).executors, id) == ArmedFor(s.executors, id) + {slot};
  }

  /** A move that arms nobody keeps every budget. */
  lemma GoKeeps(s: Tools, slot: nat, e: Executor)
    requires Inv(s) && !e.Armed? && Knows(s.ledger, e)
    ensures Inv(Go(s, slot, e))
  {
    hide WellFormed, ArmedFor;
    forall i | i in s.ledger ensures Budget(Go(s, slot, e), i) {
      assert Budget(s, i);
      if At(s, slot).Armed? && At(s, slot).id == i {
        ArmedLess(s, slot, e, i);
      } else {
        ArmedSame(s, slot, e, i);
      }
    }
  }

  /** The ledger changes, with the same rows; every budget holds anew. */
  lemma LedgerKeeps(s: Tools, l: Ledger, resets: multiset<InvocationId>)
    requires Inv(s) && WellFormed(l) && l.Keys == s.ledger.Keys && LedgerEvolves(s.ledger, l)
    requires forall i :: i in resets ==> i in l
    requires forall i :: i in l ==> Budget(s.(ledger := l, resets := resets), i)
    ensures Inv(s.(ledger := l, resets := resets))
  {
    hide WellFormed, Budget, Knows, LedgerEvolves;
    forall slot | slot in s.executors ensures Knows(l, s.executors[slot]) {
      KnowsOn(s.ledger, l, s.executors[slot]);
    }
  }

  /** A ledger transaction on one existing row. */
  lemma RowTransaction(l: Ledger, a: Action, now: Time, l': Ledger)
    requires WellFormed(l) && (a.MarkDispatched? || a.Succeed? || a.Abort?) && Transacts(l, a, now, l')
    ensures WellFormed(l') && LedgerEvolves(l, l') && l'.Keys == l.Keys && a.id in l
    ensures !l'[a.id].status.Prepared? && ReconcileTarget(l'[a.id]) == ReconcileTarget(l[a.id])
    ensures forall i :: i in l && i != a.id ==> l'[i] == l[i]
  {
    hide WellFormed;
    TransactionWellFormed(l, a, now, l');
    TransactionEvolves(l, a, now, l');
  }

  /** A row settles; budgets can only widen. */
  lemma SettleKeeps(s: Tools, a: Action, now: Time, l: Ledger)
    requires Inv(s) && (a.Succeed? || a.Abort?) && Transacts(s.ledger, a, now, l)
    ensures Inv(s.(ledger := l)) && LedgerEvolves(s.ledger, l) && l.Keys == s.ledger.Keys
  {
    hide WellFormed, ArmedFor, Transacts, LedgerEvolves, ReconcileTarget;
    RowTransaction(s.ledger, a, now, l);
    forall i | i in l ensures Budget(s.(ledger := l, resets := s.resets), i) {
      assert Budget(s, i);
    }
    LedgerKeeps(s, l, s.resets);
  }

  lemma InsertKeeps(s: Tools, q: Request, id: InvocationId, now: Time, l: Ledger)
    requires Inv(s) && Inserted(s.ledger, l, q, id, now)
    ensures Inv(s.(ledger := l)) && IsFor(l, id, q) && LedgerEvolves(s.ledger, l)
  {
    hide WellFormed;
    InsertWellFormed(s.ledger, l, q, id, now);
    TransactionEvolves(s.ledger, Prepare(q, id), now, l);
    assert id !in s.calls && id !in s.resets;
    forall slot | slot in s.executors ensures Knows(s.ledger, s.executors[slot]) && Knows(l, s.executors[slot]) {
      KnowsOn(s.ledger, l, s.executors[slot]);
    }
    assert ArmedFor(s.executors, id) == {};
    hide ArmedFor;
    forall i | i in l ensures Budget(s.(ledger := l), i) {
      assert i != id ==> Budget(s, i);
    }
  }

  /** The ledger after a prepare that finds no row of its key. */
  lemma PrepareInserts(s: Tools, slot: nat, id: InvocationId, now: Time)
    requires At(s, slot).Preparing? && id !in s.ledger && !exists i :: Stored(s.ledger, At(s, slot).q, i)
    ensures var q := At(s, slot).q;
      var after := DoPrepare(s, slot, id, now);
      Inserted(s.ledger, after.ledger, q, id, now) && after == Go(s.(ledger := after.ledger), slot, Marking(q, id))
  {
    var q := At(s, slot).q;
    LargestSequenceExists(s.ledger, q.runId);
    forall i | i in s.ledger ensures !SameKey(s.ledger[i], q) {
      assert !Stored(s.ledger, q, i);
    }
  }

  lemma PrepareKeeps(s: Tools, slot: nat, id: InvocationId, now: Time)
    requires Inv(s)
    ensures Inv(DoPrepare(s, slot, id, now)) && LedgerEvolves(s.ledger, DoPrepare(s, slot, id, now).ledger)
  {
    hide ArmedFor, WellFormed, Budget, IsLargestSequence, Inserted, FreshRow;
    if At(s, slot).Preparing? {
      var q := At(s, slot).q;
      if exists i :: Stored(s.ledger, q, i) {
        if Stored(s.ledger, q, id) {
          GoKeeps(s, slot, AfterPrepare(q, id, s.ledger[id]));
        }
      } else if id !in s.ledger {
        PrepareInserts(s, slot, id, now);
        var l := DoPrepare(s, slot, id, now).ledger;
        InsertKeeps(s, q, id, now, l);
        GoKeeps(s.(ledger := l), slot, Marking(q, id));
      }
    }
  }

  lemma MarkedKeeps(s: Tools, slot: nat, now: Time)
    requires Inv(s) && At(s, slot).Marking? && CanMark(s.ledger, At(s, slot).id)
    ensures Inv(DoMark(s, slot, now)) && LedgerEvolves(s.ledger, DoMark(s, slot, now).ledger)
  {
    hide ArmedFor, WellFormed, LedgerEvolves, ReconcileTarget;
    var q, id := At(s, slot).q, At(s, slot).id;
    var l := Mark(s.ledger, id, now);
    RowTransaction(s.ledger, MarkDispatched(id), now, l);
    hide Mark;
    var s' := Go(s.(ledger := l), slot, Armed(q, id));
    forall i | i in l ensures Budget(s', i) {
      assert Budget(s, i);
      if i == id {
        ArmedMore(s, slot, Armed(q, id), i);
      } else {
        ArmedSame(s, slot, Armed(q, id), i);
      }
    }
    assert Knows(s.ledger, s.executors[slot]);
    KnowsOn(s.ledger, l, s.executors[slot]);
    forall other | other in s'.executors ensures Knows(l, s'.executors[other]) {
      if other != slot { KnowsOn(s.ledger, l, s.executors[other]); }
    }
  }

  lemma MarkKeeps(s: Tools, slot: nat, now: Time)
    requires Inv(s)
    ensures Inv(DoMark(s, slot, now)) && LedgerEvolves(s.ledger, DoMark(s, slot, now).ledger)
  {
    hide ArmedFor, WellFormed, Budget, Mark;
    if At(s, slot).Marking? {
      if CanMark(s.ledger, At(s, slot).id) {
        MarkedKeeps(s, slot, now);
      } else {
        GoKeeps(s, slot, Raised);
      }
    }
  }

  lemma CallKeeps(s: Tools, slot: nat)
    requires Inv(s)
    ensures Inv(DoCall(s, slot))
  {
    hide ArmedFor, WellFormed;
    if At(s, slot).Armed? {
      var q, id := At(s, slot).q, At(s, slot).id;
      var s' := DoCall(s, slot);
      assert id in s.ledger by { assert Knows(s.ledger, s.executors[slot]); }
      assert multiset(s'.calls) == multiset(s.calls) + multiset{id};
      forall i | i in s.ledger ensures Budget(s', i) {
        assert Budget(s, i);
        if i == id {
          ArmedLess(s, slot, Called(q, id), i);
        } else {
          ArmedSame(s, slot, Called(q, id), i);
        }
      }
    }
  }

  lemma ReconcileKeeps(s: Tools, olderThan: Time, now: Time)
    requires Inv(s)
    ensures Inv(DoReconcile(s, olderThan, now)) && LedgerEvolves(s.ledger, DoReconcile(s, olderThan, now).ledger)
  {
    hide ArmedFor, WellFormed, LedgerEvolves;
    var s' := DoReconcile(s, olderThan, now);
    TransactionWellFormed(s.ledger, Reconcile(olderThan), now, s'.ledger);
    TransactionEvolves(s.ledger, Reconcile(olderThan), now, s'.ledger);
    forall i | i in s.ledger ensures Budget(s', i) {
      assert Budget(s, i);
    }
    LedgerKeeps(s, s'.ledger, s'.resets);
  }

  lemma CompleteKeeps(s: Tools, slot: nat, result: Option<string>, now: Time)
    requires Inv(s)
    ensures Inv(DoComplete(s, slot, result, now)) && LedgerEvolves(s.ledger, DoComplete(s, slot, result, now).ledger)
  {
    hide ArmedFor, WellFormed, Budget;
    if At(s, slot).Called? {
      var id := At(s, slot).id;
      if CanSettle(s.ledger, id) {
        var l := Complete(s.ledger, id, result, now);
        SettleKeeps(s, Succeed(id, result), now, l);
        assert Knows(s.ledger, s.executors[slot]);
        KnowsOn(s.ledger, l, s.executors[slot]);
        GoKeeps(s.(ledger := l), slot, Returned(At(s, slot).q, id, result));
      } else {
        GoKeeps(s, slot, Raised);
      }
    }
  }

  lemma FailKeeps(s: Tools, slot: nat, error: string, tooLarge: bool, now: Time)
    requires Inv(s)
    ensures Inv(DoFail(s, slot, error, tooLarge, now)) && LedgerEvolves(s.ledger, DoFail(s, slot, error, tooLarge, now).ledger)
  {
    hide ArmedFor, WellFormed, Budget;
    if At(s, slot).Called? {
      var id := At(s, slot).id;
      if CanSettle(s.ledger, id) {
        var l := Fail(s.ledger, id, error, now);
        SettleKeeps(s, Abort(id, error), now, l);
        GoKeeps(s.(ledger := l), slot, Raised);
      } else {
        GoKeeps(s, slot, Raised);
      }
    }
  }

  lemma StepKeeps(s: Tools, l: Label)
    requires Inv(s)
    ensures Inv(Next(s, l)) && LedgerEvolves(s.ledger, Next(s, l).ledger)
  {
    hide Inv, DoPrepare, DoMark, DoComplete, DoFail, DoReconcile;
    match l {
      case Begin(slot, q) => GoKeeps(s, slot, Preparing(q));
      case PrepareRow(slot, id, now) => PrepareKeeps(s, slot, id, now);
      case MarkRow(slot, now) => MarkKeeps(s, slot, now);
      case CallHandler(slot) => CallKeeps(s, slot);
      case CompleteRow(slot, result, now) => CompleteKeeps(s, slot, result, now);
      case FailRow(slot, error, tooLarge, now) => FailKeeps(s, slot, error, tooLarge, now);
      case Escape(slot) => GoKeeps(s, slot, Raised);
      case ReconcileRows(olderThan, now) => ReconcileKeeps(s, olderThan, now);
      case Crash(slot) => GoKeeps(s, slot, Free);
    }
  }

  // ---------------------------------------------------------------- theorems

  datatype Behaviour = Behaviour(states: seq<Tools>, labels: seq<Label>)

  ghost predicate IsBehaviour(b: Behaviour) {
    && |b.states| == |b.labels| + 1
    && b.states[0] == Tools(map[], map[], [], multiset{})
    && forall i :: 0 <= i < |b.labels| ==> b.states[i + 1] == Next(b.states[i], b.labels[i])
  }

  lemma {:induction false} AlwaysInv(b: Behaviour, i: nat)
    requires IsBehaviour(b) && i < |b.states|
    ensures Inv(b.states[i])
  {
    hide Inv, Next;
    if i > 0 {
      AlwaysInv(b, i - 1);
      StepKeeps(b.states[i - 1], b.labels[i - 1]);
      assert b.states[i - 1 + 1] == Next(b.states[i - 1], b.labels[i - 1]);
    } else {
      InitInv();
    }
  }

  lemma InitInv()
    ensures Inv(Tools(map[], map[], [], multiset{}))
  {
  }

  lemma {:induction false} AlwaysEvolves(b: Behaviour, i: nat, j: nat, id: InvocationId)
    requires IsBehaviour(b) && i <= j < |b.states| && id in b.states[i].ledger
    ensures id in b.states[j].ledger && RowEvolves(b.states[i].ledger[id], b.states[j].ledger[id])
  {
    hide Inv, Next;
    if i < j {
      AlwaysEvolves(b, i, j - 1, id);
      AlwaysInv(b, j - 1);
      StepKeeps(b.states[j - 1], b.labels[j - 1]);
      assert b.states[j - 1 + 1] == Next(b.states[j - 1], b.labels[j - 1]);
    }
  }

  /** In every reachable state an executor that works on a row, or has answered from one, holds a
      request for that row's run, key, tool and arguments, and an answer is the row's result. */
  lemma AnswersMatchRequests(b: Behaviour, i: nat, slot: nat)
    requires IsBehaviour(b) && i < |b.states|
    ensures var l := b.states[i].ledger;
      match At(b.states[i], slot)
      case Marking(q, id) => id in l && l[id].runId == q.runId && l[id].key == q.key && l[id].tool == q.tool && l[id].digest == q.digest
      case Armed(q, id) => id in l && l[id].runId == q.runId && l[id].key == q.key && l[id].tool == q.tool && l[id].digest == q.digest
      case Called(q, id) => id in l && l[id].runId == q.runId && l[id].key == q.key && l[id].tool == q.tool && l[id].digest == q.digest
      case Returned(q, id, value) =>
        id in l && l[id].runId == q.runId && l[id].key == q.key && l[id].tool == q.tool && l[id].digest == q.digest &&
        l[id].status.Done? && l[id].result == value
      case _ => true
  {
    AlwaysInv(b, i);
    hide WellFormed, Budget;
    assert slot in b.states[i].executors ==> Knows(b.states[i].ledger, b.states[i].executors[slot]);
  }

  lemma {:induction false} TwiceCounted(calls: seq<InvocationId>, m: nat, n: nat)
    requires m < n < |calls| && calls[m] == calls[n]
    ensures multiset(calls)[calls[m]] >= 2
  {
    assert calls == calls[..n] + calls[n..];
    assert calls[m] in multiset(calls[..n]) by { assert calls[..n][m] == calls[m]; }
    assert calls[m] in multiset(calls[n..]) by { assert calls[n..][0] == calls[n]; }
  }

  /** At-most-once effects: over all retries, executors, crashes and reconciliations, the handler of a
      keyed non-idempotent invocation is called at most once per run and key. */
  lemma AtMostOnce(b: Behaviour, i: nat, m: nat, n: nat)
    requires IsBehaviour(b) && i < |b.states|
    requires m < |b.states[i].calls| && n < |b.states[i].calls|
    ensures b.states[i].calls[m] in b.states[i].ledger && b.states[i].calls[n] in b.states[i].ledger
    ensures var first, second := b.states[i].ledger[b.states[i].calls[m]], b.states[i].ledger[b.states[i].calls[n]];
      first.runId == second.runId && first.key.Some? && first.key == second.key && first.effect.NonIdempotent? ==> m == n
  {
    AlwaysInv(b, i);
    var s := b.states[i];
    var x, y := s.calls[m], s.calls[n];
    assert x in s.ledger && y in s.ledger;
    assert Budget(s, x);
    if m < n && x == y {
      TwiceCounted(s.calls, m, n);
    } else if n < m && x == y {
      TwiceCounted(s.calls, n, m);
    }
  }

  /** A keyed idempotent row is called at most once more than it was reset; any row that reconciling
      cannot reset is called at most once. */
  lemma CallsBoundedByResets(b: Behaviour, i: nat, id: InvocationId)
    requires IsBehaviour(b) && i < |b.states| && id in b.states[i].ledger
    ensures multiset(b.states[i].calls)[id] <= 1 + b.states[i].resets[id]
    ensures ReconcileTarget(b.states[i].ledger[id]).Ambiguous? ==> multiset(b.states[i].calls)[id] <= 1
  {
    AlwaysInv(b, i);
    assert Budget(b.states[i], id);
  }

  /** Any continuation. */
  ghost function RunOn(s: Tools, labels: seq<Label>): Tools
    decreases |labels|
  {
    if labels == [] then s else RunOn(Next(s, labels[0]), labels[1..])
  }

  lemma {:induction false} RunOnEvolves(s: Tools, labels: seq<Label>, id: InvocationId)
    requires Inv(s) && id in s.ledger
    ensures var end := RunOn(s, labels); Inv(end) && id in end.ledger && RowEvolves(s.ledger[id], end.ledger[id])
    decreases |labels|
  {
    hide Inv, Next;
    if labels != [] {
      StepKeeps(s, labels[0]);
      RunOnEvolves(Next(s, labels[0]), labels[1..], id);
    }
  }

  lemma {:induction false} RunOnJoined(s: Tools, first: seq<Label>, second: seq<Label>)
    ensures RunOn(s, first + second) == RunOn(RunOn(s, first), second)
    decreases |first|
  {
    hide Next;
    if first == [] {
      assert first + second == second;
    } else {
      RunOnJoined(Next(s, first[0]), first[1..], second);
      assert (first + second)[1..] == first[1..] + second;
    }
  }

  /** Reconcile, begin a matching request, prepare, mark and call. */
  function Again(id: InvocationId, slot: nat, q: Request, updatedAt: Time, now: Time): seq<Label> {
    [ReconcileRows(updatedAt, now), Begin(slot, q), PrepareRow(slot, id, now), MarkRow(slot, now), CallHandler(slot)]
  }

  /** A stored row that reconciliation can reset lets any matching request call the handler once more. */
  lemma CalledAgain(s: Tools, id: InvocationId, slot: nat, q: Request, now: Time)
    requires id in s.ledger && s.ledger[id].status.Dispatched? && !s.ledger[id].effect.NonIdempotent?
    requires At(s, slot).Free? && SameKey(s.ledger[id], q) && SameInput(s.ledger[id], q)
    ensures var end := RunOn(s, Again(id, slot, q, s.ledger[id].updatedAt, now));
      end.calls == s.calls + [id] && id in end.ledger && end.ledger[id].status.Dispatched? && RowEvolves(s.ledger[id], end.ledger[id]) &&
      At(end, slot) == Called(q, id) && forall other: nat :: other != slot ==> At(end, other) == At(s, other)
  {
    hide Next;
    var labels := Again(id, slot, q, s.ledger[id].updatedAt, now);
    Resets(s, id, now);
    var reset := Next(s, labels[0]);
    PreparesStored(reset, id, slot, q, now);
    var prepared := Next(Next(reset, labels[1]), labels[2]);
    MarksAndCalls(prepared, id, slot, q, now);
    var end := Next(Next(prepared, labels[3]), labels[4]);
    FiveSteps(s, labels);
  }

  lemma FiveSteps(s: Tools, labels: seq<Label>)
    requires |labels| == 5
    ensures RunOn(s, labels) == Next(Next(Next(Next(Next(s, labels[0]), labels[1]), labels[2]), labels[3]), labels[4])
  {
    hide Next;
    var a, b, c := Next(s, labels[0]), Next(Next(s, labels[0]), labels[1]), Next(Next(Next(s, labels[0]), labels[1]), labels[2]);
    var d := Next(c, labels[3]);
    assert RunOn(s, labels) == RunOn(a, labels[1..]);
    assert RunOn(a, labels[1..]) == RunOn(b, labels[2..]) by { assert labels[1..][1..] == labels[2..]; }
    assert RunOn(b, labels[2..]) == RunOn(c, labels[3..]) by { assert labels[2..][1..] == labels[3..]; }
    assert RunOn(c, labels[3..]) == RunOn(d, labels[4..]) by { assert labels[3..][1..] == labels[4..]; }
    assert RunOn(d, labels[4..]) == Next(d, labels[4]) by { assert labels[4..][1..] == []; }
  }

  /** Some executor is free. */
  lemma FreeSlot(s: Tools) returns (slot: nat)
    ensures At(s, slot).Free?
  {
    slot := Above(s.executors.Keys);
  }

  lemma {:induction false} Above(keys: set<nat>) returns (bound: nat)
    ensures forall k :: k in keys ==> k < bound
  {
    bound := 0;
    if keys != {} {
      var k :| k in keys;
      var rest := Above(keys - {k});
      assert forall j :: j in keys ==> j == k || j in keys - {k};
      bound := if rest <= k then k + 1 else rest;
    }
  }

  /** A non-idempotent request for what the row was prepared for. */
  function Matching(row: Invocation): Request {
    Request(row.runId, row.tool, NonIdempotent, row.digest, row.key)
  }

  /** A stored row answers for the class it was first prepared with: prepare compares tool and
      arguments only.  So from every reachable state, the handler behind a keyed dispatched row is
      called at most once in every continuation if and only if the row is stored as
      non-idempotent, whatever class later requests state. */
  lemma StoredClassDecides(b: Behaviour, i: nat, id: InvocationId)
    requires IsBehaviour(b) && i < |b.states| && id in b.states[i].ledger
    requires b.states[i].ledger[id].status.Dispatched? && b.states[i].ledger[id].key.Some?
    ensures (forall labels: seq<Label> :: multiset(RunOn(b.states[i], labels).calls)[id] <= 1) <==> b.states[i].ledger[id].effect.NonIdempotent?
  {
    AlwaysInv(b, i);
    hide Inv, Next;
    var s := b.states[i];
    if s.ledger[id].effect.NonIdempotent? {
      forall labels: seq<Label> ensures multiset(RunOn(s, labels).calls)[id] <= 1 {
        RunOnEvolves(s, labels, id);
        CalledOnce(RunOn(s, labels), id);
      }
    } else {
      var labels := CalledTwice(s, id);
      assert multiset(RunOn(s, labels).calls)[id] >= 2;
    }
  }

  lemma CalledOnce(s: Tools, id: InvocationId)
    requires Inv(s) && id in s.ledger && s.ledger[id].effect.NonIdempotent?
    ensures multiset(s.calls)[id] <= 1
  {
    assert Budget(s, id);
  }

  /** Two more calls, both for non-idempotent requests. */
  lemma CalledTwice(s: Tools, id: InvocationId) returns (labels: seq<Label>)
    requires id in s.ledger && s.ledger[id].status.Dispatched? && s.ledger[id].key.Some? && !s.ledger[id].effect.NonIdempotent?
    ensures RunOn(s, labels).calls == s.calls + [id, id]
    ensures exists x: nat, y: nat :: x != y && At(RunOn(s, labels), x) == Called(Matching(s.ledger[id]), id) && At(RunOn(s, labels), y) == Called(Matching(s.ledger[id]), id)
  {
    hide Next;
    var q := Matching(s.ledger[id]);
    var x := FreeSlot(s);
    var first := Again(id, x, q, s.ledger[id].updatedAt, 0);
    CalledAgain(s, id, x, q, 0);
    var middle := RunOn(s, first);
    var y := FreeSlot(middle);
    var second := Again(id, y, q, middle.ledger[id].updatedAt, 0);
    CalledAgain(middle, id, y, q, 0);
    RunOnJoined(s, first, second);
    labels := first + second;
    assert s.calls + [id] + [id] == s.calls + [id, id];
    assert At(RunOn(s, labels), x) == Called(q, id) && At(RunOn(s, labels), y) == Called(q, id);
  }

  /** It happens: an idempotent request prepares and dispatches the row and crashes; then two
      non-idempotent requests under the same run and key both have their handler called. */
  lemma NonIdempotentTwice() returns (labels: seq<Label>)
    ensures var end := RunOn(Tools(map[], map[], [], multiset{}), labels);
      end.calls == [0, 0] && 0 in end.ledger && end.ledger[0].key == Some("key") &&
      exists x: nat, y: nat, q: Request :: x != y && q.effect.NonIdempotent? && At(end, x) == Called(q, 0) && At(end, y) == Called(q, 0)
  {
    var q := Request(0, "tool", Idempotent, "", Some("key"));
    var s := Tools(map[], map[], [], multiset{});
    var s1 := Next(s, Begin(0, q));
    var s2 := Next(s1, PrepareRow(0, 0, 0));
    var s3 := Next(s2, MarkRow(0, 0));
    assert s2.ledger[0] == FreshRow(q, s2.ledger[0].sequence, 0);
    var first := [Begin(0, q), PrepareRow(0, 0, 0), MarkRow(0, 0)];
    assert RunOn(s, first) == s3 by {
      assert first[1..] == [first[1], first[2]] && first[1..][1..] == [first[2]] && first[1..][1..][1..] == [];
      assert RunOn(s2, [first[2]]) == s3 by { assert [first[2]][1..] == []; }
      assert RunOn(s1, [first[1], first[2]]) == s3 by { assert [first[1], first[2]][1..] == [first[2]]; }
    }
    var second := CalledTwice(s3, 0);
    RunOnJoined(s, first, second);
    labels := first + second;
    InitInv();
    hide Next, Inv;
    RunKeepsInv(s, first);
    RunOnEvolves(s3, second, 0);
    assert [] + [0, 0] == [0, 0];
  }

  lemma {:induction false} RunKeepsInv(s: Tools, labels: seq<Label>)
    requires Inv(s)
    ensures Inv(RunOn(s, labels))
    decreases |labels|
  {
    hide Inv, Next;
    if labels != [] {
      StepKeeps(s, labels[0]);
      RunKeepsInv(Next(s, labels[0]), labels[1..]);
    }
  }

  lemma Resets(s: Tools, id: InvocationId, now: Time)
    requires id in s.ledger && s.ledger[id].status.Dispatched? && s.ledger[id].key.Some?
    ensures var reset := Next(s, ReconcileRows(s.ledger[id].updatedAt, now));
      id in reset.ledger && reset.ledger[id] == s.ledger[id].(status := if s.ledger[id].effect.NonIdempotent? then Ambiguous else Prepared, updatedAt := now)
      && reset.executors == s.executors && reset.calls == s.calls
  {
  }

  lemma PreparesStored(s: Tools, id: InvocationId, slot: nat, q: Request, now: Time)
    requires At(s, slot).Free? && id in s.ledger && SameKey(s.ledger[id], q) && SameInput(s.ledger[id], q)
    requires s.ledger[id].status.Prepared? || s.ledger[id].status.Ambiguous?
    ensures var after := Next(Next(s, Begin(slot, q)), PrepareRow(slot, id, now));
      after.ledger == s.ledger && after.calls == s.calls && At(after, slot) == (if s.ledger[id].status.Prepared? then Marking(q, id) else Raised) &&
      forall other: nat :: other != slot ==> At(after, other) == At(s, other)
  {
    var begun := Next(s, Begin(slot, q));
    assert Stored(begun.ledger, q, id);
  }

  lemma MarksAndCalls(s: Tools, id: InvocationId, slot: nat, q: Request, now: Time)
    requires id in s.ledger && s.ledger[id].status.Prepared? && At(s, slot) == Marking(q, id)
    ensures var end := Next(Next(s, MarkRow(slot, now)), CallHandler(slot));
      end.calls == s.calls + [id] && id in end.ledger && end.ledger[id] == s.ledger[id].(status := Dispatched, result := None, error := None, updatedAt := now) &&
      At(end, slot) == Called(q, id) && forall other: nat :: other != slot ==> At(end, other) == At(s, other)
  {
  }

  /** A request under a stored run and key that differs in tool or arguments is refused: no row
      changes, no handler runs. */
  lemma OtherInputIsRefused(b: Behaviour, j: nat, id: InvocationId, slot: nat, now: Time)
    requires IsBehaviour(b) && j < |b.states| && id in b.states[j].ledger && At(b.states[j], slot).Preparing?
    requires var row, q := b.states[j].ledger[id], At(b.states[j], slot).q;
      row.runId == q.runId && row.key.Some? && row.key == q.key && (row.tool != q.tool || row.digest != q.digest)
    ensures var after := Next(b.states[j], PrepareRow(slot, id, now));
      At(after, slot) == Raised && after.ledger == b.states[j].ledger && after.calls == b.states[j].calls
  {
    assert Stored(b.states[j].ledger, At(b.states[j], slot).q, id);
  }

  /** After a recorded success every matching request gets the stored result, and no handler runs. */
  lemma SuccessIsReplayed(b: Behaviour, i: nat, j: nat, id: InvocationId, slot: nat, now: Time)
    requires IsBehaviour(b) && i <= j < |b.states|
    requires id in b.states[i].ledger && b.states[i].ledger[id].status.Done?
    requires At(b.states[j], slot).Preparing?
    requires var row, q := b.states[i].ledger[id], At(b.states[j], slot).q;
      row.runId == q.runId && row.key.Some? && row.key == q.key && row.tool == q.tool && row.digest == q.digest
    ensures var after := Next(b.states[j], PrepareRow(slot, id, now));
      At(after, slot) == Returned(At(b.states[j], slot).q, id, b.states[i].ledger[id].result) && after.calls == b.states[j].calls
    ensures var l, q := b.states[j].ledger, At(b.states[j], slot).q;
      forall other :: other in l && l[other].runId == q.runId && l[other].key == q.key ==> other == id
  {
    AlwaysEvolves(b, i, j, id);
    AlwaysInv(b, j);
    assert Stored(b.states[j].ledger, At(b.states[j], slot).q, id);
  }

  ghost predicate OneTransaction(l: Ledger, l': Ledger) {
    exists a, now :: Transacts(l, a, now, l')
  }

  /** Every step of every executor changes the ledger by at most one of the transactions that the
      run protocol's effect step allows, so its histories are covered by that protocol. */
  lemma StepIsTransaction(s: Tools, l: Label)
    ensures Next(s, l).ledger == s.ledger || OneTransaction(s.ledger, Next(s, l).ledger)
  {
    hide ReconcileStale, FreshRow;
    var l' := Next(s, l).ledger;
    match l {
      case PrepareRow(slot, id, now) =>
        if l' != s.ledger {
          assert forall i :: i in s.ledger ==> Stored(s.ledger, At(s, slot).q, i) || !SameKey(s.ledger[i], At(s, slot).q);
          assert Inserted(s.ledger, l', At(s, slot).q, id, now);
          assert Transacts(s.ledger, Prepare(At(s, slot).q, id), now, l');
        }
      case MarkRow(slot, now) =>
        if l' != s.ledger { assert Transacts(s.ledger, MarkDispatched(At(s, slot).id), now, l'); }
      case CompleteRow(slot, result, now) =>
        if l' != s.ledger { assert Transacts(s.ledger, Succeed(At(s, slot).id, result), now, l'); }
      case FailRow(slot, error, tooLarge, now) =>
        if l' != s.ledger { assert Transacts(s.ledger, Abort(At(s, slot).id, error), now, l'); }
      case ReconcileRows(olderThan, now) =>
        assert Transacts(s.ledger, Reconcile(olderThan), now, l');
      case _ =>
    }
  }
}
