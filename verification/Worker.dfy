/** The worker's own loop over the store (src/rath/runtime/local.py:199-479), undisturbed by
    other actors.  `Protocol` covers every interleaving; here the whole of `work_once` is run
    to its end and its outcome is the fate of plain sequential execution. */
module Worker {
  import opened Models
  import opened Records
  import opened Sequential
  import opened RecordInvariant
  import opened RunStore
  import opened Protocol

  // ---------------------------------------------------------------- reference

  /** What at most n nodes of sequential execution come to. */
  datatype Fate =
    | Completes(at: Config)
    | Suspends(at: Config)
    | Breaks(at: Config)
    | Pauses(at: Config)

  /** A handler asks for a decision that is not recorded. */
  predicate Unanswered(p: Program, d: Decisions, c: Config) {
    c.next != [] && c.next[0] in p.nodes && OutputAt(p, d, c).None?
  }

  function FateOf(p: Program, d: Decisions, c: Config, n: nat): Fate
    decreases n
  {
    if c.next == [] then Completes(c)
    else if n == 0 then Pauses(c)
    else match Step(p, d, c)
      case Some(b) => FateOf(p, d, b, n - 1)
      case None => if Unanswered(p, d, c) then Suspends(c) else Breaks(c)
  }

  /** The fate is read off the sequential trace: where it ends, after how many nodes, and why. */
  lemma {:induction false} FateIsSequential(p: Program, d: Decisions, c: Config, n: nat) returns (k: nat)
    ensures k <= n && After(p, d, c, k) == Some(FateOf(p, d, c, n).at)
    ensures match FateOf(p, d, c, n)
      case Completes(at) => at.next == []
      case Pauses(at) => at.next != [] && k == n
      case Suspends(at) => Unanswered(p, d, at) && After(p, d, c, k + 1).None?
      case Breaks(at) => at.next != [] && !Unanswered(p, d, at) && After(p, d, c, k + 1).None?
    decreases n
  {
    hide OutputAt, Interpret;
    if c.next == [] || n == 0 || Step(p, d, c).None? {
      k := 0;
      assert After(p, d, c, 0) == Some(c) && After(p, d, c, 1) == Step(p, d, c);
    } else {
      var b := Step(p, d, c).value;
      assert After(p, d, c, 1) == Some(b) by { assert After(p, d, c, 0) == Some(c); }
      hide After, Step, Unanswered;
      var rest := FateIsSequential(p, d, b, n - 1);
      AfterCompose(p, d, c, b, 1, rest);
      AfterCompose(p, d, c, b, 1, rest + 1);
      k := rest + 1;
    }
  }

  /** Sequential execution that ends within n nodes is completed. */
  lemma HaltsWithin(p: Program, d: Decisions, c: Config, n: nat, m: nat, end: Config)
    requires m <= n && After(p, d, c, m) == Some(end) && end.next == []
    ensures FateOf(p, d, c, n) == Completes(end)
  {
    var k := FateIsSequential(p, d, c, n);
    if k < m {
      Defined(p, d, c, k + 1, m);
      if After(p, d, c, k).value.next == [] { StuckStaysStuck(p, d, c, k, m); }
    } else if m < k {
      StuckStaysStuck(p, d, c, m, k);
    }
  }

  // ---------------------------------------------------------------- a worker's position

  function Here(rec: Record, c: Claim): Config {
    Config(|rec.checkpoints|, c.state, c.next)
  }

  /** The worker holds the run under lease and stands on the sequential trace. */
  ghost predicate At(p: Program, mark: nat, first: Record, rec: Record, c: Claim, expiry: Time) {
    && RecInv(p, mark, rec)
    && Evolves(first, rec)
    && rec.run.status == Running && rec.run.version == c.version
    && rec.lease == Some(Lease(c.worker, expiry, c.token, true))
    && rec.interrupts == first.interrupts
    && Reaches(p, DecisionsOf(rec.interrupts), Base(rec, |rec.checkpoints|), Here(rec, c))
    && (c.next == [] ==> c.state == rec.run.state && rec.run.nextNodes == [])
  }

  predicate SameLease(a: Claim, b: Claim) {
    a.r == b.r && a.worker == b.worker && a.token == b.token
  }

  function Claimed(rec: Record, worker: WorkerId): Claim {
    Claim(rec.run.id, worker, Token(rec.lease), rec.run.version, rec.run.state, rec.run.nextNodes)
  }

  lemma ClaimAt(p: Program, mark: nat, first: Record, worker: WorkerId, now: Time, leaseSeconds: nat)
    requires RecInv(p, mark, first) && first.run.status == Queued
    ensures var rec := ClaimRun(first, worker, now, leaseSeconds); var c := Claimed(rec, worker);
      At(p, mark, first, rec, c, now + leaseSeconds) && Here(rec, c) == Base(first, |first.checkpoints|)
  {
    hide Reaches, Replay, UniqueAsks, OnePending, HasPending, LastEvent;
    var rec := ClaimRun(first, worker, now, leaseSeconds);
    ClaimKeeps(p, mark, first, worker, now, leaseSeconds);
    ReachesSelf(p, DecisionsOf(rec.interrupts), Base(rec, |rec.checkpoints|));
    hide DecisionsOf;
  }

  /** A node without a checkpoint moves the worker only. */
  lemma MoveAt(p: Program, mark: nat, later: nat, first: Record, rec: Record, c: Claim, expiry: Time, b: Config)
    requires At(p, mark, first, rec, c, expiry) && mark <= later
    requires Step(p, DecisionsOf(rec.interrupts), Here(rec, c)) == Some(b) && b.committed == |rec.checkpoints|
    ensures At(p, later, first, rec, c.(state := b.state, next := b.next), expiry)
  {
    var d := DecisionsOf(rec.interrupts);
    ReachesStep(p, d, Base(rec, |rec.checkpoints|), Here(rec, c), b);
    WatermarkGrows(p, mark, later, rec);
    StepCommits(p, d, Here(rec, c));
    hide Reaches, Replay, UniqueAsks, OnePending, HasPending, LastEvent, DecisionsOf, Step, RecInv, Evolves;
  }

  /** A node that leaves nothing to do always commits. */
  lemma StepCommits(p: Program, d: Decisions, c: Config)
    requires Step(p, d, c).Some?
    ensures Step(p, d, c).value.next == [] ==> Step(p, d, c).value.committed == c.committed + 1
  {
  }

  lemma CommitAt(
    p: Program, mark: nat, later: nat, first: Record, rec: Record, c: Claim, expiry: Time, ck: Checkpoint, now: Time, rec': Record
  )
    requires At(p, mark, first, rec, c, expiry) && mark <= later
    requires Step(p, DecisionsOf(rec.interrupts), Here(rec, c)) == Some(Config(|rec.checkpoints| + 1, ck.state, ck.nextNodes))
    requires ck.planHash == p.hash && ck.watermark == later
    requires CommitCheckpoint(rec, ck, c.worker, c.token, c.version, now) == Ok(rec')
    ensures var c' := c.(version := rec'.run.version, state := ck.state, next := ck.nextNodes);
      At(p, later, first, rec', c', expiry) && Here(rec', c') == Config(|rec.checkpoints| + 1, ck.state, ck.nextNodes)
  {
    var d := DecisionsOf(rec.interrupts);
    ReachesStep(p, d, Base(rec, |rec.checkpoints|), Here(rec, c), Config(|rec.checkpoints| + 1, ck.state, ck.nextNodes));
    WatermarkGrows(p, mark, later, rec);
    CommitKeeps(p, later, rec, ck, c.worker, c.token, c.version, now, rec');
    EvolvesTransitive(first, rec, rec');
    ReachesSelf(p, d, Base(rec', |rec'.checkpoints|));
    hide Reaches, Replay, UniqueAsks, OnePending, HasPending, LastEvent, DecisionsOf, Step, Evolves, RecInv, LatestSequence;
  }

  lemma LogAt(p: Program, mark: nat, first: Record, rec: Record, c: Claim, expiry: Time, id: NodeId, attempt: nat)
    requires At(p, mark, first, rec, c, expiry)
    ensures At(p, mark, first, AppendRunEvent(rec, AttemptFailed(id, attempt)), c, expiry)
  {
    AppendEventKeeps(p, mark, rec, id, attempt);
    EvolvesTransitive(first, rec, AppendRunEvent(rec, AttemptFailed(id, attempt)));
    hide Reaches, Replay, UniqueAsks, OnePending, HasPending, LastEvent, DecisionsOf, Evolves, RecInv;
  }

  lemma LaterAt(p: Program, mark: nat, later: nat, first: Record, rec: Record, c: Claim, expiry: Time)
    requires At(p, mark, first, rec, c, expiry) && mark <= later
    ensures At(p, later, first, rec, c, expiry)
  {
    WatermarkGrows(p, mark, later, rec);
    hide RecInv, Evolves, Reaches;
  }

  /** The run waits for the decision its node asked for. */
  ghost predicate Parked(p: Program, mark: nat, first: Record, rec: Record, node: NodeId) {
    && RecInv(p, mark, rec) && Evolves(first, rec) && rec.run.status == Waiting
    && exists i :: i in rec.interrupts && rec.interrupts[i].decision.None? && Matches(rec.interrupts[i], node, |rec.checkpoints| + 1)
  }

  lemma AskParks(
    p: Program, mark: nat, later: nat, first: Record, rec: Record, c: Claim, expiry: Time, id: InterruptId, ask: Interrupt, rec': Record
  )
    requires At(p, mark, first, rec, c, expiry) && mark <= later
    requires CreateInterrupt(rec, id, ask, c.version) == Ok(rec')
    requires ask.decision.None? && ask.checkpointSequence == |rec.checkpoints| + 1 && Unasked(rec.interrupts, ask.nodeId, ask.checkpointSequence)
    ensures Parked(p, later, first, rec', ask.nodeId)
  {
    WatermarkGrows(p, mark, later, rec);
    CreateInterruptKeeps(p, later, rec, id, ask, c.version, rec');
    EvolvesTransitive(first, rec, rec');
    hide RecInv, Evolves, Reaches, LastEvent, DecisionsOf;
    assert rec'.interrupts[id] == ask;
  }

  /** A run that is being worked on has no pending interrupt, and no interrupt under a fresh id. */
  lemma RunningHasNoPending(p: Program, mark: nat, first: Record, rec: Record, c: Claim, expiry: Time)
    requires At(p, mark, first, rec, c, expiry)
    ensures !HasPending(rec.interrupts) && UniqueAsks(rec.interrupts) && LatestSequence(rec.checkpoints) == |rec.checkpoints|
  {
    LatestIsLength(rec.checkpoints);
  }

  lemma FinishedAt(p: Program, mark: nat, first: Record, rec: Record, c: Claim, expiry: Time, target: RunStatus, failure: Option<string>, now: Time)
    requires At(p, mark, first, rec, c, expiry)
    requires if failure.Some? then target == Failed || target == TimedOut else target == Succeeded && c.next == []
    ensures var r := FinishClaim(rec, c.worker, c.token, c.version, target, failure, now);
      if now < expiry then r.Ok? && RecInv(p, mark, r.value) && Evolves(first, r.value) && r.value.run.status == target && r.value.run.state == rec.run.state
      else r.Err?
  {
    var r := FinishClaim(rec, c.worker, c.token, c.version, target, failure, now);
    if now < expiry {
      FinishKeeps(p, mark, rec, c.worker, c.token, c.version, target, failure, now, r.value);
      EvolvesTransitive(first, rec, r.value);
    }
    hide RecInv, Evolves, Reaches, DecisionsOf, LastEvent;
  }

  // ---------------------------------------------------------------- the worker

  /** What the worker cannot control: clock readings (one more when a failure is reported), the
      request deadline, ledger watermarks, the id and time of a new interrupt, retry limits, and which failures are timeouts. */
  datatype Surroundings = Surroundings(
    clock: nat -> Time,
    reported: Time,
    active: nat -> bool,
    marks: (RunId, nat) -> nat,
    askId: InterruptId,
    askedAt: Time,
    attempts: NodeId -> nat,
    timeouts: NodeId -> bool)

  ghost predicate MarksGrow(w: Surroundings) {
    forall r, i, j :: i <= j ==> w.marks(r, i) <= w.marks(r, j)
  }

  /** The deadline is never passed and the lease never runs out. */
  ghost predicate Healthy(w: Surroundings, expiry: Time) {
    w.reported < expiry && forall k: nat :: w.active(k) && w.clock(k) < expiry
  }

  /** No row of any run uses this interrupt id. */
  ghost predicate Unused(db: Db, id: InterruptId) {
    forall r :: r in db ==> id !in db[r].interrupts
  }

  /** No other run's rows differ. */
  ghost predicate Only(before: Db, after: Db, r: RunId) {
    before.Keys == after.Keys && forall q :: q in before && q != r ==> after[q] == before[q]
  }

  /** The node's handler raises, and what it raises is a timeout. */
  ghost predicate TimesOut(p: Program, d: Decisions, a: Config, w: Surroundings) {
    a.next != [] && a.next[0] in p.nodes && w.timeouts(a.next[0]) &&
    if p.nodes[a.next[0]].kind.RouterNode? then p.route(a.next[0], a.state) == Output.Raised else Answers(p, d, a, Output.Raised)
  }

  /** The interrupt the handler asked for was stored, with its deadline counted from now, and no other changed. */
  ghost predicate AskedAs(p: Program, c: Claim, sequence: nat, w: Surroundings, was: Record, rec: Record) {
    c.next != [] && w.askId in rec.interrupts && rec.interrupts == was.interrupts[w.askId := rec.interrupts[w.askId]] && rec.checkpoints == was.checkpoints &&
    var ask := rec.interrupts[w.askId];
    ask.runId == c.r && ask.nodeId == c.next[0] && ask.checkpointSequence == sequence && ask.decision == None &&
    match p.call(c.next[0], c.state)
    case Asks(kind, request, timeout) =>
      ask.kind == kind && ask.request == request && ask.expiresAt == (if timeout.Some? then Some(w.askedAt + timeout.value) else None)
    case Returns(_) => true
  }

  /** The rows gained exactly this checkpoint. */
  ghost predicate CommittedAs(p: Program, was: Record, rec: Record, b: Config, mark: nat) {
    rec.checkpoints == was.checkpoints + [Checkpoint(|was.checkpoints| + 1, p.hash, b.state, b.next, mark)] &&
    rec.run.state == b.state && rec.run.nextNodes == b.next && rec.interrupts == was.interrupts
  }

  datatype Fetched = Gave(out: Output) | Missing | StillPending

  datatype NodeEnd = Moved(c: Claim) | Parks | Threw(target: RunStatus)

  datatype Exit = Returned | Suspended | Failure(target: RunStatus)

  class LocalRuntime {
    const store: SQLiteRunStore
    var registrations: map<PlanId, Program>

    constructor (s: SQLiteRunStore)
      ensures store == s && registrations == map[]
    {
      store, registrations := s, map[];
    }

    /** The handler's output; a handler that asks is given the decision recorded for its node and checkpoint. */
    method Fetch(p: Program, c: Claim, sequence: nat) returns (f: Fetched)
      requires store.Valid() && c.r in store.runs && c.next != [] && c.next[0] in p.nodes
      requires UniqueAsks(store.RecordOf(c.r).interrupts) && sequence == |store.RecordOf(c.r).checkpoints| + 1
      ensures var rec := store.RecordOf(c.r); var d := DecisionsOf(rec.interrupts);
        match f
        case Gave(out) =>
          OutputAt(p, d, Here(rec, c)) == Some(out) &&
          if p.nodes[c.next[0]].kind.RouterNode? then out == p.route(c.next[0], c.state) else Answers(p, d, Here(rec, c), out)
        case Missing => (c.next[0], sequence) !in d && Unanswered(p, d, Here(rec, c)) && Unasked(rec.interrupts, c.next[0], sequence) && p.nodes[c.next[0]].kind.StepNode? && p.call(c.next[0], c.state).Asks?
        case StillPending => HasPending(rec.interrupts)
    {
      hide Keyed, HasPending, DecisionsOf, UniqueAsks, InterruptsOf, Unasked;
      var id := c.next[0];
      if p.nodes[id].kind.RouterNode? { return Gave(p.route(id, c.state)); }
      var reply := p.call(id, c.state);
      if reply.Returns? { return Gave(reply.output); }
      ghost var asks := store.RecordOf(c.r).interrupts;
      AsksOfRun(store.Content(), c.r);
      if i :| i in store.interrupts && store.interrupts[i].runId == c.r && Matches(store.interrupts[i], id, sequence) {
        if store.interrupts[i].decision.None? {
          PendingExists(asks, i);
          return StillPending;
        }
        DecisionRecorded(asks, i);
        return Gave(p.resume(id, c.state, store.interrupts[i].decision.value));
      }
      NotAsked(asks, id, sequence);
      return Missing;
    }

    /** Every failed attempt is logged; the last one's exception leaves the executor. */
    method LogAttempts(c: Claim, id: NodeId, attempts: nat, ghost p: Program, ghost mark: nat, ghost first: Record, ghost expiry: Time)
      requires store.Valid() && c.r in store.runs && At(p, mark, first, store.RecordOf(c.r), c, expiry)
      modifies store
      ensures store.Valid() && c.r in store.runs && At(p, mark, first, store.RecordOf(c.r), c, expiry)
      ensures Only(old(store.Snapshot()), store.Snapshot(), c.r)
      ensures |store.RecordOf(c.r).checkpoints| == |old(store.RecordOf(c.r)).checkpoints|
      ensures |store.RecordOf(c.r).events| == |old(store.RecordOf(c.r)).events| + attempts
      ensures forall e :: |old(store.RecordOf(c.r)).events| <= e < |old(store.RecordOf(c.r)).events| + attempts ==> store.RecordOf(c.r).events[e].kind == AttemptFailed(id, e - |old(store.RecordOf(c.r)).events| + 1)
    {
      hide Keyed, At, DbOf, RecordIn, LastEvent;
      DbAt(store.Content(), c.r);
      for attempt := 1 to attempts + 1
        invariant store.Valid() && c.r in store.runs && At(p, mark, first, store.RecordOf(c.r), c, expiry)
        invariant Only(old(store.Snapshot()), store.Snapshot(), c.r)
        invariant |store.RecordOf(c.r).checkpoints| == |old(store.RecordOf(c.r)).checkpoints|
        invariant |store.RecordOf(c.r).events| == |old(store.RecordOf(c.r)).events| + attempt - 1
        invariant forall e :: |old(store.RecordOf(c.r)).events| <= e < |old(store.RecordOf(c.r)).events| + attempt - 1 ==> store.RecordOf(c.r).events[e].kind == AttemptFailed(id, e - |old(store.RecordOf(c.r)).events| + 1)
      {
        LogAt(p, mark, first, store.RecordOf(c.r), c, expiry, id, attempt);
        DbKeys(store.Content());
        var logged := store.AppendRunEvent(c.r, AttemptFailed(id, attempt));
        DbKeys(store.Content());
        DbAt(store.Content(), c.r);
      }
    }

    /** request_interrupt when the node has not asked before. */
    method Ask(p: Program, c: Claim, sequence: nat, k: nat, w: Surroundings, ghost first: Record, ghost expiry: Time) returns (end: NodeEnd)
      requires store.Valid() && c.r in store.runs && c.next != [] && MarksGrow(w)
      requires At(p, w.marks(c.r, k), first, store.RecordOf(c.r), c, expiry)
      requires Unused(store.Snapshot(), w.askId)
      requires sequence == |store.RecordOf(c.r).checkpoints| + 1 && Unasked(store.RecordOf(c.r).interrupts, c.next[0], sequence)
      modifies store
      ensures store.Valid() && c.r in store.runs && Only(old(store.Snapshot()), store.Snapshot(), c.r)
      ensures end == Parks && Parked(p, w.marks(c.r, k + 1), first, store.RecordOf(c.r), c.next[0])
      ensures AskedAs(p, c, sequence, w, old(store.RecordOf(c.r)), store.RecordOf(c.r))
    {
      hide Keyed, At, DbOf, RecordIn, Parked, Unasked, AppendEvent;
      ghost var rec := store.RecordOf(c.r);
      var ask := AskOf(p, c, sequence, w.askedAt);
      DbKeys(store.Content());
      DbAt(store.Content(), c.r);
      assert w.askId !in store.interrupts by { UnusedInTable(store.Content(), w.askId); }
      Grants(p, w.marks(c.r, k), first, rec, c, expiry, w.askId, ask);
      var created := store.CreateInterrupt(w.askId, ask, c.version);
      DbKeys(store.Content());
      DbAt(store.Content(), c.r);
      AskParks(p, w.marks(c.r, k), w.marks(c.r, k + 1), first, rec, c, expiry, w.askId, ask, store.RecordOf(c.r));
      return Parks;
    }

    /** Commit a node's result under the worker's token. */
    method Commit(p: Program, c: Claim, after: State, successors: seq<NodeId>, sequence: nat, k: nat, w: Surroundings, ghost first: Record, ghost expiry: Time)
      returns (end: NodeEnd)
      requires store.Valid() && c.r in store.runs && MarksGrow(w)
      requires At(p, w.marks(c.r, k), first, store.RecordOf(c.r), c, expiry)
      requires UniqueAsks(store.RecordOf(c.r).interrupts) && sequence == |store.RecordOf(c.r).checkpoints| + 1
      requires Step(p, DecisionsOf(store.RecordOf(c.r).interrupts), Here(store.RecordOf(c.r), c)) == Some(Config(sequence, after, successors))
      modifies store
      ensures store.Valid() && c.r in store.runs && Only(old(store.Snapshot()), store.Snapshot(), c.r)
      ensures if w.clock(k) < expiry
        then end.Moved? && At(p, w.marks(c.r, k + 1), first, store.RecordOf(c.r), end.c, expiry)
          && Here(store.RecordOf(c.r), end.c) == Config(sequence, after, successors) && SameLease(end.c, c)
          && CommittedAs(p, old(store.RecordOf(c.r)), store.RecordOf(c.r), Config(sequence, after, successors), w.marks(c.r, k + 1))
        else end == Threw(Failed) && At(p, w.marks(c.r, k + 1), first, store.RecordOf(c.r), c, expiry)
    {
      hide Keyed, At, DbOf, RecordIn, Step, UniqueAsks, DecisionsOf, AppendEvent;
      ghost var rec := store.RecordOf(c.r);
      var ck := Checkpoint(sequence, p.hash, after, successors, w.marks(c.r, k + 1));
      DbKeys(store.Content());
      DbAt(store.Content(), c.r);
      Accepts(p, w.marks(c.r, k), first, rec, c, expiry, ck, w.clock(k));
      var committed := store.CommitCheckpoint(c.r, ck, c.worker, c.token, c.version, w.clock(k));
      DbKeys(store.Content());
      DbAt(store.Content(), c.r);
      if committed.Err? {
        LaterAt(p, w.marks(c.r, k), w.marks(c.r, k + 1), first, rec, c, expiry);
        return Threw(Failed);
      }
      CommitAt(p, w.marks(c.r, k), w.marks(c.r, k + 1), first, rec, c, expiry, ck, w.clock(k), store.RecordOf(c.r));
      return Moved(c.(version := committed.value.version, state := committed.value.state, next := committed.value.nextNodes));
    }

    /** One node of the loop: it moves the worker on by exactly one sequential step, parks the
        run on an unanswered question, or raises where sequential execution breaks or the lease is over. */
    method HandleNode(p: Program, c: Claim, k: nat, w: Surroundings, ghost first: Record, ghost expiry: Time) returns (end: NodeEnd)
      requires store.Valid() && c.r in store.runs && c.next != [] && MarksGrow(w)
      requires At(p, w.marks(c.r, k), first, store.RecordOf(c.r), c, expiry) && UniqueAsks(store.RecordOf(c.r).interrupts)
      requires Unused(store.Snapshot(), w.askId)
      modifies store
      ensures store.Valid() && c.r in store.runs && Only(old(store.Snapshot()), store.Snapshot(), c.r)
      ensures var was := old(store.RecordOf(c.r)); var rec := store.RecordOf(c.r); var d := DecisionsOf(was.interrupts); var mark := w.marks(c.r, k + 1);
        match end
        case Moved(c') => SameLease(c', c) && At(p, mark, first, rec, c', expiry) && Step(p, d, Here(was, c)) == Some(Here(rec, c'))
        case Parks => Parked(p, mark, first, rec, c.next[0]) && Step(p, d, Here(was, c)).None? && Unanswered(p, d, Here(was, c))
        case Threw(target) =>
          At(p, mark, first, rec, c, expiry) && (target == Failed || target == TimedOut) &&
          (w.clock(k) < expiry ==> Step(p, d, Here(was, c)).None? && !Unanswered(p, d, Here(was, c)))
      ensures var was := old(store.RecordOf(c.r)); var rec := store.RecordOf(c.r); var d := DecisionsOf(was.interrupts);
        match end
        case Moved(c') =>
          Moves(p, d, Here(was, c), Here(rec, c')) &&
          if p.nodes[c.next[0]].checkpoint || c'.next == [] then CommittedAs(p, was, rec, Here(rec, c'), w.marks(c.r, k + 1)) else rec == was
        case Parks =>
          c.next[0] in p.nodes && p.nodes[c.next[0]].kind.StepNode? && p.call(c.next[0], c.state).Asks? &&
          (c.next[0], |was.checkpoints| + 1) !in d && AskedAs(p, c, |was.checkpoints| + 1, w, was, rec)
        case Threw(target) =>
          w.clock(k) < expiry ==> (target == TimedOut <==> TimesOut(p, d, Here(was, c), w)) && forall b :: !Moves(p, d, Here(was, c), b)
    {
      hide Keyed, At, DbOf, Step, UniqueAsks, DecisionsOf, Unanswered, Interpret, OutputAt, HasPending, Unasked, Unused, MarksGrow, Parked, LatestSequence, Moves, AskedAs, CommittedAs, Answers;
      ghost var rec := store.RecordOf(c.r);
      ghost var d := DecisionsOf(rec.interrupts);
      NoRule(p, d, Here(rec, c));
      forall b ensures Step(p, d, Here(rec, c)) == Some(b) <==> Moves(p, d, Here(rec, c), b) { StepByRules(p, d, Here(rec, c), b); }
      var id := c.next[0];
      MarkGrows(w, c.r, k);
      LaterAt(p, w.marks(c.r, k), w.marks(c.r, k + 1), first, rec, c, expiry);
      if id !in p.nodes {
        NoNode(p, d, Here(rec, c));
        assert !TimesOut(p, d, Here(rec, c), w);
        return Threw(Failed);
      }
      RunningHasNoPending(p, w.marks(c.r, k), first, rec, c, expiry);
      RowKeys(store.Content(), c.r);
      var sequence := LatestSequence(store.checkpoints[c.r]) + 1;
      var fetched := Fetch(p, c, sequence);
      if fetched.StillPending? { return Parks; }
      if fetched.Missing? {
        NoOutput(p, d, Here(rec, c));
        end := Ask(p, c, sequence, k, w, first, expiry);
        return;
      }
      var out := fetched.out;
      StepOf(p, d, Here(rec, c), out);
      RaisesOnce(p, d, Here(rec, c), out, w);
      if out.Raised? {
        LogAttempts(c, id, w.attempts(id), p, w.marks(c.r, k + 1), first, expiry);
        return Threw(if w.timeouts(id) then TimedOut else Failed);
      }
      var result := Interpret(p, id, c.state, out);
      if result.None? { return Threw(Failed); }
      var (after, successors) := result.value;
      if p.nodes[id].checkpoint || successors == [] {
        end := Commit(p, c, after, successors, sequence, k, w, first, expiry);
      } else {
        MoveAt(p, w.marks(c.r, k), w.marks(c.r, k + 1), first, rec, c, expiry, Config(|rec.checkpoints|, after, successors));
        end := Moved(c.(state := after, next := successors));
      }
    }

    /** The loop over nodes, and the finish when none is left.  `first` is the record as it was queued.
        Without a step limit the sequential execution must come to something, after `limit` nodes. */
    method ExecuteClaim(p: Program, claim: Claim, maxSteps: Option<nat>, w: Surroundings, ghost limit: nat, ghost first: Record, ghost expiry: Time)
      returns (end: Exit)
      requires store.Valid() && claim.r in store.runs && MarksGrow(w) && UniqueAsks(first.interrupts)
      requires At(p, w.marks(claim.r, 0), first, store.RecordOf(claim.r), claim, expiry)
      requires Unused(store.Snapshot(), w.askId)
      requires Bounded(maxSteps, limit, FateOf(p, DecisionsOf(first.interrupts), Here(store.RecordOf(claim.r), claim), limit))
      modifies store
      ensures store.Valid() && claim.r in store.runs && Only(old(store.Snapshot()), store.Snapshot(), claim.r)
      ensures var rec := store.RecordOf(claim.r); var mark := w.marks(claim.r, limit);
        var fate := FateOf(p, DecisionsOf(first.interrupts), Here(old(store.RecordOf(claim.r)), claim), limit);
        match end
        case Returned =>
          RecInv(p, mark, rec) && Evolves(first, rec) &&
          if rec.run.status == Succeeded then fate.Completes? && rec.run.state == fate.at.state else rec.run.status == Running && fate.Pauses?
        case Suspended =>
          fate.Suspends? && fate.at.next != [] && Parked(p, mark, first, rec, fate.at.next[0])
        case Failure(target) =>
          (target == Failed || target == TimedOut) && Held(p, mark, first, rec, claim, expiry) &&
          (Healthy(w, expiry) ==> fate.Breaks? && (target == TimedOut <==> TimesOut(p, DecisionsOf(first.interrupts), fate.at, w)))
    {
      hide Keyed, At, DbOf, Step, UniqueAsks, DecisionsOf, Unanswered, Unused, MarksGrow, Parked, RecInv, Evolves, Held, Only, Moves, AskedAs, CommittedAs, TimesOut;
      ghost var d := DecisionsOf(first.interrupts);
      ghost var fate := FateOf(p, d, Here(store.RecordOf(claim.r), claim), limit);
      var c := claim;
      var k := 0;
      SameRows(store.Snapshot(), claim.r);
      while c.next != [] && (maxSteps.None? || k < maxSteps.value)
        invariant k <= limit && SameLease(c, claim) && store.Valid() && c.r in store.runs
        invariant Only(old(store.Snapshot()), store.Snapshot(), c.r) && Unused(store.Snapshot(), w.askId)
        invariant At(p, w.marks(c.r, k), first, store.RecordOf(c.r), c, expiry)
        invariant fate == FateOf(p, d, Here(store.RecordOf(c.r), c), limit - k)
        decreases limit - k
      {
        AtFacts(p, w.marks(c.r, k), first, store.RecordOf(c.r), c, expiry);
        if !w.active(k) {
          HeldBy(p, w, k, limit, first, store.RecordOf(c.r), c, expiry);
          return Failure(TimedOut);
        }
        ghost var before := store.Snapshot();
        DbAt(store.Content(), c.r);
        var durable := store.GetRun(c.r);
        if Terminal(durable.value.status) { return Returned; }
        if durable.value.version != c.version { return Failure(Failed); }
        var step := HandleNode(p, c, k, w, first, expiry);
        OnlyTwice(old(store.Snapshot()), before, store.Snapshot(), c.r);
        if step.Parks? {
          LaterParked(p, w, k + 1, limit, first, store.RecordOf(c.r), c.next[0], c.r);
          return Suspended;
        }
        if step.Threw? {
          HeldBy(p, w, k + 1, limit, first, store.RecordOf(c.r), c, expiry);
          return Failure(step.target);
        }
        DbAt(store.Content(), c.r);
        AtFacts(p, w.marks(c.r, k + 1), first, store.RecordOf(c.r), step.c, expiry);
        StillUnused(before, store.Snapshot(), c.r, w.askId);
        c, k := step.c, k + 1;
      }
      HeldBy(p, w, k, limit, first, store.RecordOf(c.r), c, expiry);
      if c.next != [] { return Returned; }
      ghost var rec := store.RecordOf(c.r);
      ghost var before := store.Snapshot();
      FinishedAt(p, w.marks(c.r, limit), first, rec, c, expiry, Succeeded, None, w.clock(k));
      DbAt(store.Content(), c.r);
      var finished := store.FinishClaim(c.r, c.worker, c.token, c.version, Succeeded, None, w.clock(k));
      DbKeys(store.Content());
      DbAt(store.Content(), c.r);
      OneRow(before, store.Snapshot(), c.r);
      OnlyTwice(old(store.Snapshot()), before, store.Snapshot(), c.r);
      if finished.Err? { return Failure(Failed); }
      return Returned;
    }

    /** Report a failure under the version read now; a worker whose lease is over reports nothing. */
    method Report(claim: Claim, target: RunStatus, now: Time, ghost p: Program, ghost mark: nat, ghost first: Record, ghost expiry: Time)
      requires store.Valid() && claim.r in store.runs && (target == Failed || target == TimedOut)
      requires Held(p, mark, first, store.RecordOf(claim.r), claim, expiry)
      modifies store
      ensures store.Valid() && claim.r in store.runs && Only(old(store.Snapshot()), store.Snapshot(), claim.r)
      ensures RecInv(p, mark, store.RecordOf(claim.r)) && Evolves(first, store.RecordOf(claim.r))
      ensures store.RecordOf(claim.r).run.status == if now < expiry then target else Running
    {
      hide Keyed, DbOf, RecInv, Evolves, RecordIn, Reaches, Only;
      ghost var rec := store.RecordOf(claim.r);
      ghost var before := store.Snapshot();
      ghost var c: Claim :| SameLease(c, claim) && At(p, mark, first, rec, c, expiry);
      DbAt(store.Content(), claim.r);
      SameRows(before, claim.r);
      var current := store.GetRun(claim.r);
      FinishedAt(p, mark, first, rec, c, expiry, target, Some("error"), now);
      var failed := store.FinishClaim(claim.r, claim.worker, claim.token, current.value.version, target, Some("error"), now);
      DbKeys(store.Content());
      DbAt(store.Content(), claim.r);
      OneRow(before, store.Snapshot(), claim.r);
    }

    /** What follows a successful claim. */
    method WorkOn(claim: Claim, planId: PlanId, maxSteps: Option<nat>, w: Surroundings, ghost limit: nat, ghost p: Program, ghost first: Record, ghost expiry: Time)
      requires store.Valid() && claim.r in store.runs && claim.r == first.run.id && MarksGrow(w) && UniqueAsks(first.interrupts)
      requires At(p, w.marks(claim.r, 0), first, store.RecordOf(claim.r), claim, expiry)
      requires Here(store.RecordOf(claim.r), claim) == Base(first, |first.checkpoints|)
      requires Unused(store.Snapshot(), w.askId) && (planId in registrations ==> registrations[planId] == p)
      requires planId in registrations ==> Bounded(maxSteps, limit, FateOf(p, DecisionsOf(first.interrupts), Base(first, |first.checkpoints|), limit))
      modifies store
      ensures store.Valid() && claim.r in store.runs && Only(old(store.Snapshot()), store.Snapshot(), claim.r)
      ensures Worked(p, planId in registrations, w, limit, expiry, first, store.RecordOf(claim.r))
    {
      hide Keyed, DbOf, RecInv, Evolves, RecordIn, At, Held, Only, Unused, MarksGrow, Worked, Parked, Healthy, FateOf, DecisionsOf, UniqueAsks, Base;
      HeldBy(p, w, 0, limit, first, store.RecordOf(claim.r), claim, expiry);
      if planId !in registrations {
        Report(claim, Failed, w.reported, p, w.marks(claim.r, limit), first, expiry);
        WorkedUnregistered(p, w, limit, expiry, first, store.RecordOf(claim.r));
        return;
      }
      var end := ExecuteClaim(registrations[planId], claim, maxSteps, w, limit, first, expiry);
      ghost var middle := store.Snapshot();
      if end.Failure? {
        Report(claim, end.target, w.reported, p, w.marks(claim.r, limit), first, expiry);
        OnlyTwice(old(store.Snapshot()), middle, store.Snapshot(), claim.r);
      }
      WorkedRegistered(p, w, limit, expiry, first, store.RecordOf(claim.r), end);
    }

    /** Claim the first queued run and work on it.  Whatever the clock does, only that run's rows
        change and they stay sound; with an unexpired lease the run ends in the status, and with
        the state, that sequential execution from its latest checkpoint comes to within the step limit;
        without a limit that execution must come to something, after some number of nodes. */
    method WorkOnce(
      worker: WorkerId, leaseSeconds: int, maxSteps: Option<nat>, now: Time, w: Surroundings, ghost env: Registry, ghost bounds: RunId -> nat)
      returns (r: Result<Option<RunId>>)
      requires store.Valid() && MarksGrow(w) && Unused(store.Snapshot(), w.askId)
      requires forall plan :: plan in registrations ==> registrations[plan] == env(plan)
      requires forall q :: q in store.Snapshot() ==> RecInv(env(store.Snapshot()[q].run.planId), w.marks(q, 0), store.Snapshot()[q])
      requires maxSteps.None? ==>
        forall q :: q in store.Snapshot() && store.Snapshot()[q].run.status == Queued && store.Snapshot()[q].run.planId in registrations ==>
        ComesToSomething(env(store.Snapshot()[q].run.planId), store.Snapshot()[q], bounds(q))
      modifies store
      ensures store.Valid()
      ensures r.Err? <==> Blank(worker) || leaseSeconds <= 0
      ensures r.Err? || r.value.None? ==> store.Snapshot() == old(store.Snapshot())
      ensures r == Ok(None) ==> forall q :: q in old(store.runs) ==> old(store.runs)[q].status != Queued
      ensures r.Ok? && r.value.Some? ==>
        var id := r.value.value;
        && id in old(store.Snapshot()) && id in store.Snapshot() && Only(old(store.Snapshot()), store.Snapshot(), id)
        && var first, rec := old(store.Snapshot())[id], store.Snapshot()[id];
           first.run.status == Queued && Worked(env(first.run.planId), first.run.planId in registrations, w, Limit(maxSteps, bounds(id)), now + leaseSeconds, first, rec)
    {
      hide Keyed, DbOf, RecInv, Evolves, RecordIn, At, Only, Unused, MarksGrow, Worked, Precedes, ClaimRun, Blank, UniqueAsks, Base, FateOf;
      ghost var before := store.Snapshot();
      DbRuns(store.Content());
      var claimed := store.ClaimNext(worker, leaseSeconds, now);
      if claimed.Err? { return Err(claimed.error); }
      if claimed.value.None? { return Ok(None); }
      var run, lease := claimed.value.value.run, claimed.value.value.lease;
      ghost var first := before[run.id];
      ghost var p := env(first.run.planId);
      ClaimFacts(p, w.marks(run.id, 0), first, worker, now, leaseSeconds);
      DbKeys(store.Content());
      DbAt(store.Content(), run.id);
      OneRow(before, store.Snapshot(), run.id);
      StillUnused(before, store.Snapshot(), run.id, w.askId);
      ghost var middle := store.Snapshot();
      var claim := Claim(run.id, worker, lease.token, run.version, run.state, run.nextNodes);
      WorkOn(claim, run.planId, maxSteps, w, Limit(maxSteps, bounds(run.id)), p, first, now + leaseSeconds);
      DbAt(store.Content(), run.id);
      OnlyTwice(before, middle, store.Snapshot(), run.id);
      return Ok(Some(run.id));
    }
  }

  /** The status that reports a fate. */
  predicate Reports(status: RunStatus, fate: Fate) {
    match fate
    case Completes(_) => status == Succeeded
    case Suspends(_) => status == Waiting
    case Breaks(_) => status == Failed || status == TimedOut
    case Pauses(_) => status == Running
  }

  /** The node count at which the fate is read: the step limit if there is one. */
  function Limit(maxSteps: Option<nat>, bound: nat): nat {
    if maxSteps.Some? then maxSteps.value else bound
  }

  predicate Bounded(maxSteps: Option<nat>, limit: nat, fate: Fate) {
    if maxSteps.Some? then limit == maxSteps.value else !fate.Pauses?
  }

  /** Sequential execution from the record's latest checkpoint completes, asks or breaks within n nodes. */
  ghost predicate ComesToSomething(p: Program, rec: Record, n: nat) {
    UniqueAsks(rec.interrupts) && !FateOf(p, DecisionsOf(rec.interrupts), Base(rec, |rec.checkpoints|), n).Pauses?
  }

  /** What work_once makes of the record it claimed. */
  ghost predicate Worked(p: Program, registered: bool, w: Surroundings, limit: nat, expiry: Time, first: Record, rec: Record) {
    && RecInv(p, w.marks(first.run.id, limit), rec) && Evolves(first, rec) && UniqueAsks(first.interrupts)
    && (!registered && Healthy(w, expiry) ==> rec.run.status == Failed)
    && var fate := FateOf(p, DecisionsOf(first.interrupts), Base(first, |first.checkpoints|), limit);
       && (registered && Healthy(w, expiry) ==> Reports(rec.run.status, fate))
       && (registered && Healthy(w, expiry) && fate.Breaks? ==> (rec.run.status == TimedOut <==> TimesOut(p, DecisionsOf(first.interrupts), fate.at, w)))
       && (registered && rec.run.status == Succeeded ==> fate.Completes? && rec.run.state == fate.at.state)
       && (rec.run.status == Waiting ==>
             fate.Suspends? && fate.at.next != [] && Parked(p, w.marks(first.run.id, limit), first, rec, fate.at.next[0]))
  }

  lemma DbRuns(t: Tables)
    requires Keyed(t)
    ensures DbOf(t).Keys == t.runs.Keys && forall q :: q in t.runs ==> DbOf(t)[q] == RecordIn(t, q) && DbOf(t)[q].run == t.runs[q]
  {
  }

  lemma ClaimFacts(p: Program, mark: nat, first: Record, worker: WorkerId, now: Time, leaseSeconds: nat)
    requires RecInv(p, mark, first) && first.run.status == Queued
    ensures var rec := ClaimRun(first, worker, now, leaseSeconds); var c := Claimed(rec, worker);
      At(p, mark, first, rec, c, now + leaseSeconds) && Here(rec, c) == Base(first, |first.checkpoints|)
      && rec.run.id == first.run.id && rec.run.planId == first.run.planId && rec.interrupts == first.interrupts
      && rec.lease.Some? && rec.lease.value.token == Token(rec.lease)
    ensures UniqueAsks(first.interrupts)
  {
    ClaimAt(p, mark, first, worker, now, leaseSeconds);
    hide At, Evolves, Traced, Marked, Logged, Rows, UniqueAsks, OnePending, HasPending, Base;
  }

  lemma WorkedUnregistered(p: Program, w: Surroundings, limit: nat, expiry: Time, first: Record, rec: Record)
    requires RecInv(p, w.marks(first.run.id, limit), rec) && Evolves(first, rec) && UniqueAsks(first.interrupts)
    requires rec.run.status == if w.reported < expiry then Failed else Running
    ensures Worked(p, false, w, limit, expiry, first, rec)
  {
    hide RecInv, Evolves, UniqueAsks, DecisionsOf, FateOf, TimesOut;
  }

  lemma WorkedRegistered(p: Program, w: Surroundings, limit: nat, expiry: Time, first: Record, rec: Record, end: Exit)
    requires UniqueAsks(first.interrupts)
    requires var mark := w.marks(first.run.id, limit);
      var fate := FateOf(p, DecisionsOf(first.interrupts), Base(first, |first.checkpoints|), limit);
      match end
      case Returned =>
        RecInv(p, mark, rec) && Evolves(first, rec) &&
        if rec.run.status == Succeeded then fate.Completes? && rec.run.state == fate.at.state else rec.run.status == Running && fate.Pauses?
      case Suspended =>
        fate.Suspends? && fate.at.next != [] && Parked(p, mark, first, rec, fate.at.next[0])
      case Failure(target) =>
        RecInv(p, mark, rec) && Evolves(first, rec) && (target == Failed || target == TimedOut) &&
        rec.run.status == (if w.reported < expiry then target else Running) &&
        (Healthy(w, expiry) ==> fate.Breaks? && (target == TimedOut <==> TimesOut(p, DecisionsOf(first.interrupts), fate.at, w)))
    ensures Worked(p, true, w, limit, expiry, first, rec)
  {
    hide RecInv, Evolves, UniqueAsks, DecisionsOf, FateOf, TimesOut;
  }

  /** The worker still holds the run, wherever it stands. */
  ghost predicate Held(p: Program, mark: nat, first: Record, rec: Record, claim: Claim, expiry: Time) {
    exists c: Claim :: SameLease(c, claim) && At(p, mark, first, rec, c, expiry)
  }

  /** A handler has one output. */
  lemma RaisesOnce(p: Program, d: Decisions, a: Config, out: Output, w: Surroundings)
    requires a.next != [] && a.next[0] in p.nodes
    requires if p.nodes[a.next[0]].kind.RouterNode? then out == p.route(a.next[0], a.state) else Answers(p, d, a, out)
    ensures TimesOut(p, d, a, w) <==> out.Raised? && w.timeouts(a.next[0])
  {
  }

  lemma MarkGrows(w: Surroundings, r: RunId, k: nat)
    requires MarksGrow(w)
    ensures w.marks(r, k) <= w.marks(r, k + 1)
  {
  }

  lemma HeldBy(p: Program, w: Surroundings, k: nat, top: nat, first: Record, rec: Record, c: Claim, expiry: Time)
    requires MarksGrow(w) && k <= top && At(p, w.marks(c.r, k), first, rec, c, expiry)
    ensures At(p, w.marks(c.r, top), first, rec, c, expiry)
    ensures RecInv(p, w.marks(c.r, top), rec) && Evolves(first, rec) && rec.run.status == Running
    ensures c.next == [] ==> c.state == rec.run.state
    ensures forall claim: Claim :: SameLease(c, claim) ==> Held(p, w.marks(c.r, top), first, rec, claim, expiry)
  {
    LaterAt(p, w.marks(c.r, k), w.marks(c.r, top), first, rec, c, expiry);
    hide RecInv, Evolves;
  }

  lemma LaterParked(p: Program, w: Surroundings, k: nat, top: nat, first: Record, rec: Record, node: NodeId, r: RunId)
    requires MarksGrow(w) && k <= top && Parked(p, w.marks(r, k), first, rec, node)
    ensures Parked(p, w.marks(r, top), first, rec, node)
  {
    WatermarkGrows(p, w.marks(r, k), w.marks(r, top), rec);
    hide RecInv, Evolves;
  }

  lemma AtFacts(p: Program, mark: nat, first: Record, rec: Record, c: Claim, expiry: Time)
    requires At(p, mark, first, rec, c, expiry)
    ensures UniqueAsks(rec.interrupts) && rec.interrupts == first.interrupts
    ensures rec.run.status == Running && rec.run.version == c.version
  {
  }

  lemma SameRows(db: Db, r: RunId)
    ensures Only(db, db, r)
  {
  }

  lemma OneRow(before: Db, after: Db, r: RunId)
    requires r in before && r in after && (after == before || after == before[r := after[r]])
    ensures Only(before, after, r)
  {
  }

  lemma OnlyTwice(a: Db, b: Db, c: Db, r: RunId)
    requires Only(a, b, r) && Only(b, c, r)
    ensures Only(a, c, r)
  {
  }

  lemma StillUnused(before: Db, after: Db, r: RunId, id: InterruptId)
    requires Only(before, after, r) && Unused(before, id) && r in before && after[r].interrupts == before[r].interrupts
    ensures Unused(after, id)
  {
  }

  lemma NoNode(p: Program, d: Decisions, c: Config)
    requires c.next != [] && c.next[0] !in p.nodes
    ensures Step(p, d, c).None? && !Unanswered(p, d, c)
  {
  }

  lemma NoOutput(p: Program, d: Decisions, c: Config)
    requires Unanswered(p, d, c)
    ensures Step(p, d, c).None?
  {
  }

  lemma StepOf(p: Program, d: Decisions, c: Config, out: Output)
    requires c.next != [] && c.next[0] in p.nodes && OutputAt(p, d, c) == Some(out)
    ensures !Unanswered(p, d, c) && (out.Raised? ==> Interpret(p, c.next[0], c.state, out).None?)
    ensures match Interpret(p, c.next[0], c.state, out)
      case None => Step(p, d, c).None?
      case Some((after, successors)) =>
        Step(p, d, c) == Some(Config(if p.nodes[c.next[0]].checkpoint || successors == [] then c.committed + 1 else c.committed, after, successors))
  {
  }

  lemma UnusedInTable(t: Tables, id: InterruptId)
    requires Keyed(t) && Unused(DbOf(t), id)
    ensures id !in t.interrupts
  {
    if id in t.interrupts {
      DbAt(t, t.interrupts[id].runId);
      RecordAsk(t, t.interrupts[id].runId, id);
    }
  }

  /** The store lets a worker in this position ask. */
  lemma Grants(p: Program, mark: nat, first: Record, rec: Record, c: Claim, expiry: Time, id: InterruptId, ask: Interrupt)
    requires At(p, mark, first, rec, c, expiry) && id !in rec.interrupts
    ensures CreateInterrupt(rec, id, ask, c.version).Ok?
  {
  }

  /** The store lets a worker in this position commit exactly while its lease lasts. */
  lemma Accepts(p: Program, mark: nat, first: Record, rec: Record, c: Claim, expiry: Time, ck: Checkpoint, now: Time)
    requires At(p, mark, first, rec, c, expiry) && ck.sequence == |rec.checkpoints| + 1
    ensures CommitCheckpoint(rec, ck, c.worker, c.token, c.version, now).Ok? <==> now < expiry
  {
    LatestIsLength(rec.checkpoints);
  }

  lemma AsksOfRun(t: Tables, r: RunId)
    requires Keyed(t) && r in t.runs
    ensures forall i :: i in RecordIn(t, r).interrupts <==> i in t.interrupts && t.interrupts[i].runId == r
    ensures forall i :: i in RecordIn(t, r).interrupts ==> RecordIn(t, r).interrupts[i] == t.interrupts[i]
  {
  }

  lemma PendingExists(m: map<InterruptId, Interrupt>, i: InterruptId)
    requires i in m && m[i].decision.None?
    ensures HasPending(m)
  {
  }

  lemma DecisionRecorded(m: map<InterruptId, Interrupt>, i: InterruptId)
    requires UniqueAsks(m) && i in m && m[i].decision.Some?
    ensures var k := (m[i].nodeId, m[i].checkpointSequence); k in DecisionsOf(m) && DecisionsOf(m)[k] == m[i].decision.value
  {
  }

  lemma NotAsked(m: map<InterruptId, Interrupt>, node: NodeId, sequence: nat)
    requires UniqueAsks(m) && forall i :: i in m ==> !Matches(m[i], node, sequence)
    ensures Unasked(m, node, sequence) && (node, sequence) !in DecisionsOf(m)
  {
  }
}
