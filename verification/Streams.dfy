/** FIFO streams joined by events (src/rath/backend/stream.py).  Every operation put on any
    queue gets the next ticket; a ticket also names the future or event made with it.
    Worker threads interleave freely with each other and with submitters. */
module Streams {
  import opened Models
  import opened Sums

  type StreamId = nat
  type Ticket = nat

  datatype Op =
    | Call(call: string)
    | Record
    | Wait(event: Ticket, timed: bool)
    | Sync
    | Stop

  datatype Submission = Submission(stream: StreamId, op: Op)

  /** How an operation ended.  Dropped: its worker met a fatal error before it was handled; its
      future raises that error, and an event to be recorded is never signalled. */
  datatype Outcome = Value(text: string) | Raised(error: string) | Signalled | Expired | Dropped

  /** Failing: the worker met a fatal error and is failing what is still queued.
      Exited and Dead: the thread has ended, by the stop marker or by a fatal error. */
  datatype Life = Unstarted | Alive | Failing | Exited | Dead

  /** What the worker has in hand.  The busy flag is up from Busy on and is lowered only after
      the outcome is set. */
  datatype Hand = Empty | Popped(t: Ticket) | Busy(t: Ticket) | Settled(t: Ticket)

  datatype Worker = Worker(queue: seq<Ticket>, hand: Hand, closed: bool, life: Life)

  datatype Sys = Sys(ops: seq<Submission>, settled: seq<Option<Outcome>>, workers: seq<Worker>)

  /** What the sandbox answers a dispatched call; `Fatal` is an exception outside Exception. */
  datatype Reply = Answer(text: string) | Ordinary(error: string) | Fatal(error: string)

  datatype Move =
    | Open
    | Enter(stream: StreamId)
    | Submit(stream: StreamId, op: Op)
    | Exit(stream: StreamId)
    | Work(stream: StreamId, reply: Reply)

  // ---------------------------------------------------------------- submitters

  /** A wait names an event that record_event returned. */
  predicate Submittable(s: Sys, op: Op) {
    match op
    case Wait(e, _) => e < |s.ops| && s.ops[e].op.Record?
    case Stop => false
    case _ => true
  }

  function Put(s: Sys, w: StreamId, op: Op): Sys
    requires w < |s.workers|
  {
    Sys(s.ops + [Submission(w, op)], s.settled + [None],
        s.workers[w := s.workers[w].(queue := s.workers[w].queue + [|s.ops|], closed := s.workers[w].closed || op.Stop?)])
  }

  // ---------------------------------------------------------------- workers

  predicate EventSet(s: Sys, e: Ticket) {
    e < |s.settled| && s.settled[e] == Some(Signalled)
  }

  /** The handler of this operation can return: only a wait can block, on an event not yet
      signalled, and not for ever if it has a timeout. */
  predicate Unblocked(s: Sys, t: Ticket) {
    t < |s.ops| &&
    (s.ops[t].op.Wait? ==> s.ops[t].op.timed || EventSet(s, s.ops[t].op.event))
  }

  /** The stream's thread runs and is not blocked. */
  predicate Ready(s: Sys, w: StreamId)
    requires w < |s.workers|
  {
    var worker := s.workers[w];
    (worker.life.Alive? || worker.life.Failing?) &&
    match worker.hand
    case Empty => worker.queue != [] || worker.life.Failing?
    case Busy(t) => Unblocked(s, t)
    case _ => true
  }

  predicate Fits(s: Sys) {
    |s.settled| == |s.ops| &&
    forall w :: 0 <= w < |s.workers| ==>
      (forall t: Ticket :: t in s.workers[w].queue ==> t < |s.ops|) &&
      (!s.workers[w].hand.Empty? ==> s.workers[w].hand.t < |s.ops|)
  }

  /** What the operation in hand ends with. */
  function Ending(s: Sys, t: Ticket, reply: Reply): Outcome
    requires t < |s.ops|
  {
    match s.ops[t].op
    case Call(_) => (match reply case Answer(text) => Value(text) case Ordinary(e) => Raised(e) case Fatal(e) => Raised(e))
    case Wait(e, _) => if EventSet(s, e) then Signalled else Expired
    case _ => Signalled
  }

  predicate Kills(s: Sys, t: Ticket, reply: Reply)
    requires t < |s.ops|
  {
    s.ops[t].op.Call? && reply.Fatal?
  }

  /** What one step of a worker does: at most one outcome is set, and the worker moves on. */
  datatype Effect = Effect(worker: Worker, ends: Option<Ticket>, outcome: Outcome)

  /** The next step of a ready worker: pop (the stop marker ends the thread), raise the flag,
      set the outcome, lower the flag; or, while failing, pop, fail what was popped, and end. */
  function EffectOf(s: Sys, w: StreamId, reply: Reply): Effect
    requires Fits(s) && w < |s.workers|
  {
    var worker := s.workers[w];
    match worker.hand
    case Empty =>
      if worker.queue == [] then Effect(worker.(life := Dead), None, Dropped)
      else
        var t := worker.queue[0];
        assert t in worker.queue;
        var rest := worker.(queue := worker.queue[1..]);
        if s.ops[t].op.Stop? then Effect(rest.(life := if worker.life.Alive? then Exited else Dead), Some(t), Signalled)
        else Effect(rest.(hand := Popped(t)), None, Dropped)
    case Popped(t) =>
      if worker.life.Alive? then Effect(worker.(hand := Busy(t)), None, Dropped)
      else Effect(worker.(hand := Empty), Some(t), Dropped)
    case Busy(t) =>
      Effect(worker.(hand := Settled(t), life := if Kills(s, t, reply) then Failing else worker.life), Some(t), Ending(s, t, reply))
    case Settled(_) => Effect(worker.(hand := Empty), None, Dropped)
  }

  function Worked(s: Sys, w: StreamId, reply: Reply): Sys
    requires Fits(s) && w < |s.workers|
  {
    var e := EffectOf(s, w, reply);
    Sys(s.ops,
        if e.ends.Some? && e.ends.value < |s.settled| then s.settled[e.ends.value := Some(e.outcome)] else s.settled,
        s.workers[w := e.worker])
  }

  /** A stream may be entered when no thread serves it and it is open. */
  predicate Enterable(worker: Worker) {
    !worker.closed && (worker.life.Unstarted? || worker.life.Dead?)
  }

  /** One step of one thread; a step that is not possible, or that the source refuses, changes nothing. */
  function Next(s: Sys, move: Move): Sys
    requires Fits(s)
  {
    if move.Open? then s.(workers := s.workers + [Worker([], Empty, false, Unstarted)])
    else if move.stream >= |s.workers| then s
    else
      var w := move.stream;
      var worker := s.workers[w];
      match move
      case Enter(_) => if Enterable(worker) then s.(workers := s.workers[w := worker.(life := Alive)]) else s
      case Submit(_, op) => if worker.closed || !Submittable(s, op) then s else Put(s, w, op)
      case Exit(_) => if worker.closed then s else Put(s, w, Stop)
      case Work(_, reply) => if Ready(s, w) then Worked(s, w, reply) else s
  }

  function Initial(): Sys { Sys([], [], []) }

  // ---------------------------------------------------------------- invariant

  ghost predicate Ascending(q: seq<Ticket>) {
    forall a, b :: 0 <= a < b < |q| ==> q[a] < q[b]
  }

  /** The worker holds an operation that has not ended. */
  predicate Holds(worker: Worker, t: Ticket) {
    worker.hand == Popped(t) || worker.hand == Busy(t)
  }

  /** The operation is queued on, or unfinished in the hands of, its stream's worker. */
  predicate Pending(s: Sys, w: StreamId, t: Ticket)
    requires w < |s.workers|
  {
    t in s.workers[w].queue || Holds(s.workers[w], t)
  }

  /** The operation was handed to its worker's handler, or is about to be. */
  predicate Begun(s: Sys, t: Ticket)
    requires Fits(s) && t < |s.ops|
  {
    if s.settled[t].Some? then s.settled[t].value != Dropped
    else s.ops[t].stream < |s.workers| && Holds(s.workers[s.ops[t].stream], t) && s.workers[s.ops[t].stream].life.Alive?
  }

  ghost predicate WorkerOk(s: Sys, w: StreamId)
    requires Fits(s) && w < |s.workers|
  {
    var worker := s.workers[w];
    Ascending(worker.queue) &&
    (forall t: Ticket :: Pending(s, w, t) ==> t < |s.ops| && s.ops[t].stream == w && s.settled[t].None?) &&
    (forall t: Ticket :: Holds(worker, t) ==> !s.ops[t].op.Stop? && forall u :: u in worker.queue ==> t < u) &&
    (!worker.hand.Empty? ==> worker.life.Alive? || worker.life.Failing?) &&
    (worker.hand.Busy? ==> worker.life.Alive?) &&
    (worker.hand.Settled? ==> s.ops[worker.hand.t].stream == w && s.settled[worker.hand.t].Some?) &&
    (worker.life.Exited? ==> worker.closed && worker.queue == [])
  }

  ghost predicate TicketOk(s: Sys, t: Ticket)
    requires Fits(s) && t < |s.ops|
  {
    var w := s.ops[t].stream;
    w < |s.workers| &&
    (s.settled[t].None? ==> Pending(s, w, t)) &&
    (s.settled[t].Some? ==> forall u: Ticket :: Pending(s, w, u) ==> t < u) &&
    (s.ops[t].op.Wait? ==> s.ops[t].op.event < t && s.ops[s.ops[t].op.event].op.Record?) &&
    (s.ops[t].op.Stop? ==> s.workers[w].closed) &&
    OutcomeFits(s, t)
  }

  /** A recorded event is signalled or dropped, and an untimed wait ends only after its event is
      signalled or by being dropped itself. */
  predicate OutcomeFits(s: Sys, t: Ticket)
    requires Fits(s) && t < |s.ops|
  {
    s.settled[t].None? || s.settled[t].value.Dropped? ||
    match s.ops[t].op
    case Call(_) => s.settled[t].value.Value? || s.settled[t].value.Raised?
    case Wait(e, timed) => if s.settled[t].value.Signalled? then EventSet(s, e) else timed && s.settled[t].value.Expired?
    case _ => s.settled[t].value.Signalled?
  }

  /** Nothing follows the stop marker. */
  ghost predicate StopIsLast(s: Sys) {
    forall t: Ticket, u: Ticket {:trigger s.ops[t], s.ops[u]} ::
      t < u < |s.ops| && s.ops[t].stream == s.ops[u].stream ==> !s.ops[t].op.Stop?
  }

  ghost predicate Inv(s: Sys) {
    Fits(s) &&
    (forall w: StreamId :: w < |s.workers| ==> WorkerOk(s, w)) &&
    (forall t: Ticket :: t < |s.ops| ==> TicketOk(s, t)) &&
    StopIsLast(s)
  }

  /** What any later state keeps: submissions, and every outcome once set. */
  ghost predicate Extends(a: Sys, b: Sys) {
    |a.ops| <= |b.ops| && |a.settled| <= |b.settled| && |a.workers| <= |b.workers| &&
    (forall t: Ticket :: t < |a.ops| ==> b.ops[t] == a.ops[t]) &&
    (forall t: Ticket :: t < |a.settled| && a.settled[t].Some? ==> b.settled[t] == a.settled[t])
  }

  // ---------------------------------------------------------------- every step keeps it

  lemma PutWorker(s: Sys, w: StreamId, op: Op, v: StreamId)
    requires Inv(s) && w < |s.workers| && v < |s.workers|
    ensures Fits(Put(s, w, op)) && (!s.workers[w].closed ==> WorkerOk(Put(s, w, op), v))
  {
    var after := Put(s, w, op);
    assert WorkerOk(s, v) && WorkerOk(s, w);
    assert Fits(after);
    assert forall a :: 0 <= a < |s.workers[v].queue| ==> s.workers[v].queue[a] in s.workers[v].queue;
    hide Inv, TicketOk;
    assert forall t: Ticket :: Pending(after, v, t) ==> Pending(s, v, t) || (v == w && t == |s.ops|);
  }

  lemma PutTicket(s: Sys, w: StreamId, op: Op, t: Ticket)
    requires Inv(s) && w < |s.workers| && (op.Stop? || Submittable(s, op)) && t <= |s.ops| && Fits(Put(s, w, op))
    ensures TicketOk(Put(s, w, op), t)
  {
    var after := Put(s, w, op);
    if t < |s.ops| {
      assert TicketOk(s, t);
      hide Inv, WorkerOk;
      assert forall u: Ticket :: Pending(after, after.ops[t].stream, u) ==> Pending(s, s.ops[t].stream, u) || u == |s.ops|;
    }
  }

  lemma PutKeeps(s: Sys, w: StreamId, op: Op)
    requires Inv(s) && w < |s.workers| && !s.workers[w].closed && (op.Stop? || Submittable(s, op))
    ensures Inv(Put(s, w, op)) && Extends(s, Put(s, w, op))
  {
    var after := Put(s, w, op);
    PutWorker(s, w, op, w);
    forall v: StreamId | v < |after.workers| ensures WorkerOk(after, v) { PutWorker(s, w, op, v); }
    forall t: Ticket | t < |after.ops| ensures TicketOk(after, t) { PutTicket(s, w, op, t); }
    forall t: Ticket, u: Ticket | t < u < |after.ops| && after.ops[t].stream == after.ops[u].stream ensures !after.ops[t].op.Stop? {
      assert TicketOk(s, t);
    }
    hide WorkerOk, TicketOk;
  }

  /** The operation a worker's step can end is the earliest of its stream that has not ended. */
  ghost predicate First(s: Sys, w: StreamId, t: Ticket)
    requires w < |s.workers|
  {
    Pending(s, w, t) && forall u: Ticket :: Pending(s, w, u) ==> t <= u
  }

  predicate Keeps(worker: Worker, t: Ticket) {
    t in worker.queue || Holds(worker, t)
  }

  lemma PopFacts(s: Sys, w: StreamId)
    requires Inv(s) && w < |s.workers| && s.workers[w].hand.Empty? && s.workers[w].queue != []
    ensures var q := s.workers[w].queue;
      First(s, w, q[0]) && q[0] < |s.ops| && s.settled[q[0]].None? &&
      (forall t: Ticket :: t in q <==> t == q[0] || t in q[1..]) && forall t :: t in q[1..] ==> q[0] < t
  {
    hide TicketOk, StopIsLast;
    var q := s.workers[w].queue;
    assert WorkerOk(s, w) && Pending(s, w, q[0]);
  }

  lemma HandFacts(s: Sys, w: StreamId)
    requires Inv(s) && w < |s.workers| && (s.workers[w].hand.Popped? || s.workers[w].hand.Busy?)
    ensures var t := s.workers[w].hand.t; First(s, w, t) && t < |s.ops| && s.settled[t].None? && t !in s.workers[w].queue
  {
    hide TicketOk, StopIsLast;
    assert WorkerOk(s, w) && Holds(s.workers[w], s.workers[w].hand.t) && Pending(s, w, s.workers[w].hand.t);
  }

  /** A step ends at most the first pending operation, and its worker keeps exactly the others. */
  lemma EffectFacts(s: Sys, w: StreamId, reply: Reply)
    requires Inv(s) && w < |s.workers| && Ready(s, w)
    ensures var e := EffectOf(s, w, reply);
      e.worker.closed == s.workers[w].closed &&
      (e.worker.hand.Empty? || e.worker.hand.t < |s.ops|) &&
      (e.ends.Some? ==> First(s, w, e.ends.value) && e.ends.value < |s.ops| && s.settled[e.ends.value].None?) &&
      forall t: Ticket :: Keeps(e.worker, t) <==> Keeps(s.workers[w], t) && e.ends != Some(t)
  {
    if s.workers[w].hand.Empty? && s.workers[w].queue != [] { PopFacts(s, w); }
    if s.workers[w].hand.Popped? || s.workers[w].hand.Busy? { HandFacts(s, w); }
    hide WorkerOk, TicketOk, StopIsLast, Ending, Kills, First;
  }

  /** What a worker's step changes: at most one outcome, that of the first pending operation,
      which then is no longer pending. */
  lemma WorkFacts(s: Sys, w: StreamId, reply: Reply)
    requires Inv(s) && w < |s.workers| && Ready(s, w)
    ensures var e := EffectOf(s, w, reply); var after := Worked(s, w, reply);
      Fits(after) && after.ops == s.ops && |after.workers| == |s.workers| && after.workers[w] == e.worker &&
      e.worker.closed == s.workers[w].closed &&
      (forall v :: 0 <= v < |s.workers| && v != w ==> after.workers[v] == s.workers[v]) &&
      (e.ends.None? ==> after.settled == s.settled && forall t: Ticket :: Pending(after, w, t) <==> Pending(s, w, t)) &&
      (e.ends.Some? ==>
         First(s, w, e.ends.value) && e.ends.value < |s.ops| && s.settled[e.ends.value].None? &&
         after.settled == s.settled[e.ends.value := Some(e.outcome)] &&
         forall t: Ticket :: Pending(after, w, t) <==> Pending(s, w, t) && t != e.ends.value)
  {
    EffectFacts(s, w, reply);
    hide WorkerOk, TicketOk, StopIsLast, EffectOf, First;
    var e, after := EffectOf(s, w, reply), Worked(s, w, reply);
    assert forall t: Ticket :: Pending(after, w, t) <==> Keeps(e.worker, t);
    assert forall t: Ticket :: Pending(s, w, t) <==> Keeps(s.workers[w], t);
    forall t: Ticket | t in e.worker.queue ensures t < |s.ops| {
      assert Keeps(e.worker, t);
    }
  }

  lemma WorkOwn(s: Sys, w: StreamId, reply: Reply)
    requires Inv(s) && w < |s.workers| && Ready(s, w)
    ensures Fits(Worked(s, w, reply)) && WorkerOk(Worked(s, w, reply), w)
  {
    var worker := s.workers[w];
    WorkFacts(s, w, reply);
    assert WorkerOk(s, w);
    if worker.hand.Empty? && worker.queue != [] {
      PopFacts(s, w);
      StopHasNoTail(s, w);
    }
    if worker.hand.Popped? || worker.hand.Busy? { HandFacts(s, w); }
    hide TicketOk, Inv, Ending, Kills, First, Worked;
    var after := Worked(s, w, reply);
    assert forall t: Ticket :: Pending(after, w, t) ==> Pending(s, w, t);
  }

  lemma WorkOther(s: Sys, w: StreamId, reply: Reply, v: StreamId)
    requires Inv(s) && w < |s.workers| && Ready(s, w) && v < |s.workers| && v != w
    ensures Fits(Worked(s, w, reply)) && WorkerOk(Worked(s, w, reply), v)
  {
    var e, after := EffectOf(s, w, reply), Worked(s, w, reply);
    WorkFacts(s, w, reply);
    assert WorkerOk(s, v) && WorkerOk(s, w);
    assert e.ends.Some? ==> Pending(s, w, e.ends.value);
    hide TicketOk, Inv, EffectOf, Worked, First;
    assert forall t: Ticket :: Pending(after, v, t) <==> Pending(s, v, t);
  }

  lemma StopHasNoTail(s: Sys, w: StreamId)
    requires Inv(s) && w < |s.workers| && s.workers[w].queue != [] && s.workers[w].queue[0] < |s.ops|
    ensures s.ops[s.workers[w].queue[0]].op.Stop? ==> s.workers[w].queue[1..] == [] && s.workers[w].closed
  {
    hide TicketOk;
    var q := s.workers[w].queue;
    assert WorkerOk(s, w) && Pending(s, w, q[0]);
    assert TicketOk(s, q[0]) && (s.ops[q[0]].op.Stop? ==> s.workers[w].closed) by { StopCloses(s, q[0]); }
    if |q| > 1 {
      assert Pending(s, w, q[1]);
    }
  }

  lemma StopCloses(s: Sys, t: Ticket)
    requires Inv(s) && t < |s.ops|
    ensures TicketOk(s, t) && (s.ops[t].op.Stop? ==> s.ops[t].stream < |s.workers| && s.workers[s.ops[t].stream].closed)
  {
  }

  lemma WorkTicket(s: Sys, w: StreamId, reply: Reply, t: Ticket)
    requires Inv(s) && w < |s.workers| && Ready(s, w) && t < |s.ops|
    ensures Fits(Worked(s, w, reply)) && TicketOk(Worked(s, w, reply), t)
  {
    var after := Worked(s, w, reply);
    var e := EffectOf(s, w, reply);
    WorkFacts(s, w, reply);
    assert TicketOk(s, t) && WorkerOk(s, w);
    EndingFits(s, w, reply);
    hide Inv, WorkerOk, EffectOf, Worked, Ready;
    assert forall u: Ticket :: Pending(after, s.ops[t].stream, u) ==> Pending(s, s.ops[t].stream, u);
  }

  /** A step ends its operation with an outcome that fits it. */
  lemma EndingFits(s: Sys, w: StreamId, reply: Reply)
    requires Inv(s) && w < |s.workers| && Ready(s, w)
    ensures var e := EffectOf(s, w, reply); var after := Worked(s, w, reply);
      Fits(after) && (e.ends.Some? ==> e.ends.value < |after.ops| && OutcomeFits(after, e.ends.value))
  {
    WorkFacts(s, w, reply);
    assert WorkerOk(s, w);
    if s.workers[w].hand.Busy? { assert TicketOk(s, s.workers[w].hand.t); }
    hide WorkerOk, TicketOk, StopIsLast;
  }

  lemma WorkKeeps(s: Sys, w: StreamId, reply: Reply)
    requires Inv(s) && w < |s.workers| && Ready(s, w)
    ensures Inv(Worked(s, w, reply)) && Extends(s, Worked(s, w, reply))
  {
    var after := Worked(s, w, reply);
    WorkFacts(s, w, reply);
    forall v: StreamId | v < |after.workers| ensures WorkerOk(after, v) { if v == w { WorkOwn(s, w, reply); } else { WorkOther(s, w, reply, v); } }
    forall t: Ticket | t < |after.ops| ensures TicketOk(after, t) { WorkTicket(s, w, reply, t); }
    hide WorkerOk, TicketOk, EffectOf, Worked, First;
  }

  /** Starting a worker moves no operation. */
  lemma EnterKeeps(s: Sys, w: StreamId)
    requires Inv(s) && w < |s.workers| && Enterable(s.workers[w])
    ensures Inv(Next(s, Enter(w))) && Extends(s, Next(s, Enter(w)))
  {
    var after := Next(s, Enter(w));
    assert forall v, t: Ticket :: 0 <= v < |s.workers| ==> (Pending(after, v, t) <==> Pending(s, v, t));
    forall v: StreamId | v < |after.workers| ensures WorkerOk(after, v) { assert WorkerOk(s, v); }
    forall t: Ticket | t < |after.ops| ensures TicketOk(after, t) { assert TicketOk(s, t); }
  }

  lemma OpenKeeps(s: Sys)
    requires Inv(s)
    ensures Inv(Next(s, Open)) && Extends(s, Next(s, Open))
  {
    var after := Next(s, Open);
    assert Fits(after);
    assert forall v, t: Ticket :: 0 <= v < |s.workers| ==> (Pending(after, v, t) <==> Pending(s, v, t));
    forall v: StreamId | v < |after.workers| ensures WorkerOk(after, v) { assert v < |s.workers| ==> WorkerOk(s, v); }
    forall t: Ticket | t < |after.ops| ensures TicketOk(after, t) { assert TicketOk(s, t); }
  }

  /** Every step of every thread keeps the invariant, keeps what was submitted and never
      touches an outcome that is set. */
  lemma StepKeeps(s: Sys, move: Move)
    requires Inv(s)
    ensures Inv(Next(s, move)) && Extends(s, Next(s, move))
  {
    hide WorkerOk, TicketOk, StopIsLast, Worked, Put;
    if move.Open? {
      OpenKeeps(s);
    } else if move.stream < |s.workers| {
      var w := move.stream;
      var worker := s.workers[w];
      match move {
        case Enter(_) => if Enterable(worker) { EnterKeeps(s, w); }
        case Submit(_, op) => if !worker.closed && Submittable(s, op) { PutKeeps(s, w, op); }
        case Exit(_) => if !worker.closed { PutKeeps(s, w, Stop); }
        case Work(_, reply) => if Ready(s, w) { WorkKeeps(s, w, reply); }
      }
    }
  }

  // ---------------------------------------------------------------- every run

  lemma ExtendsOn(a: Sys, b: Sys, c: Sys)
    requires Extends(a, b) && Extends(b, c)
    ensures Extends(a, c)
  {
    forall t: Ticket | t < |a.settled| && a.settled[t].Some? ensures c.settled[t] == a.settled[t] {
      assert b.settled[t] == a.settled[t];
    }
    forall t: Ticket | t < |a.ops| ensures c.ops[t] == a.ops[t] {
      assert b.ops[t] == a.ops[t];
    }
  }

  /** Any interleaving of any submissions and worker steps.  Its contract says a set outcome,
      of a future or an event, is never set again. */
  ghost function RunFrom(s: Sys, moves: seq<Move>): (end: Sys)
    requires Inv(s)
    ensures Inv(end) && Extends(s, end)
    decreases |moves|
  {
    if moves == [] then s
    else
      StepKeeps(s, moves[0]);
      var end := RunFrom(Next(s, moves[0]), moves[1..]);
      ExtendsOn(s, Next(s, moves[0]), end);
      end
  }

  lemma {:induction false} RunJoined(s: Sys, first: seq<Move>, second: seq<Move>)
    requires Inv(s)
    ensures RunFrom(s, first + second) == RunFrom(RunFrom(s, first), second)
    decreases |first|
  {
    hide WorkerOk, TicketOk, StopIsLast, Next, Extends;
    if first == [] {
      assert first + second == second;
    } else {
      StepKeeps(s, first[0]);
      RunJoined(Next(s, first[0]), first[1..], second);
      assert (first + second)[1..] == first[1..] + second;
    }
  }

  lemma InitialInv()
    ensures Inv(Initial())
  {
  }

  ghost function Reached(moves: seq<Move>): (end: Sys)
    ensures Inv(end)
  {
    InitialInv();
    RunFrom(Initial(), moves)
  }

  // ---------------------------------------------------------------- order

  /** Within a stream, nothing begins or ends before everything put on it earlier has ended. */
  lemma Ordered(s: Sys, t: Ticket, u: Ticket)
    requires Inv(s) && t < u < |s.ops| && s.ops[t].stream == s.ops[u].stream && (s.settled[u].Some? || Begun(s, u))
    ensures s.settled[t].Some?
  {
    assert TicketOk(s, t) && TicketOk(s, u) && WorkerOk(s, s.ops[u].stream);
  }

  /** Operations end in submission order: when one has ended, so has every earlier one of its
      stream.  For a Sync this is what synchronize promises. */
  lemma EndsInOrder(moves: seq<Move>, t: Ticket, u: Ticket)
    requires t < u < |Reached(moves).ops| && Reached(moves).ops[t].stream == Reached(moves).ops[u].stream
    requires Reached(moves).settled[u].Some?
    ensures Reached(moves).settled[t].Some?
  {
    Ordered(Reached(moves), t, u);
  }

  /** The submissions c, e to one stream and w, o to another are joined by w waiting for e. */
  predicate Joined(s: Sys, c: Ticket, e: Ticket, w: Ticket, o: Ticket) {
    c < e < |s.ops| && s.ops[c].stream == s.ops[e].stream &&
    w < o < |s.ops| && s.ops[w].stream == s.ops[o].stream &&
    s.ops[w].op.Wait? && s.ops[w].op.event == e
  }

  /** Happens-before, at every moment of every run: if o has begun, then the wait before it has
      ended, and unless it timed out or was dropped with a dying worker the event is signalled and
      everything put on the other stream before it has ended. */
  lemma HappensBefore(moves: seq<Move>, c: Ticket, e: Ticket, w: Ticket, o: Ticket)
    requires Joined(Reached(moves), c, e, w, o) && Begun(Reached(moves), o)
    ensures var s := Reached(moves);
      s.settled[w].Some? && (!s.ops[w].op.timed ==> s.settled[w] == Some(Signalled) || s.settled[w] == Some(Dropped)) &&
      (s.settled[w] == Some(Signalled) ==> EventSet(s, e) && s.settled[c].Some?)
  {
    OrderedAcross(Reached(moves), c, e, w, o);
  }

  lemma OrderedAcross(s: Sys, c: Ticket, e: Ticket, w: Ticket, o: Ticket)
    requires Inv(s) && Joined(s, c, e, w, o) && Begun(s, o)
    ensures s.settled[w].Some? && (!s.ops[w].op.timed ==> s.settled[w] == Some(Signalled) || s.settled[w] == Some(Dropped))
    ensures s.settled[w] == Some(Signalled) ==> EventSet(s, e) && s.settled[c].Some?
  {
    Ordered(s, w, o);
    assert TicketOk(s, w);
    if s.settled[w] == Some(Signalled) { Ordered(s, c, e); }
  }

  /** ... and it had ended before the very step in which o began. */
  lemma EndedBeforeBeginning(moves: seq<Move>, last: Move, c: Ticket, e: Ticket, w: Ticket, o: Ticket)
    requires Joined(Reached(moves), c, e, w, o) && !Begun(Reached(moves), o)
    requires Fits(Next(Reached(moves), last)) && |Next(Reached(moves), last).ops| > o && Begun(Next(Reached(moves), last), o)
    ensures var s := Reached(moves);
      s.settled[w].Some? && (s.settled[w] == Some(Signalled) ==> EventSet(s, e) && s.settled[c].Some?)
  {
    var s := Reached(moves);
    var after := Next(s, last);
    StepKeeps(s, last);
    assert after.ops[o] == s.ops[o] && after.ops[w] == s.ops[w] && after.ops[e] == s.ops[e] && after.ops[c] == s.ops[c];
    OrderedAcross(after, c, e, w, o);
    assert TicketOk(s, w);
    BeginningSettlesNothingElse(s, last, o);
  }

  /** The step in which an operation begins sets no other outcome. */
  lemma BeginningSettlesNothingElse(s: Sys, move: Move, o: Ticket)
    requires Inv(s) && o < |s.ops| && !Begun(s, o)
    requires Inv(Next(s, move)) && |Next(s, move).ops| > o && Begun(Next(s, move), o)
    ensures forall t: Ticket :: t < |s.ops| && t != o ==> Next(s, move).settled[t] == s.settled[t]
  {
    assert TicketOk(s, o);
    if move.Work? && move.stream < |s.workers| && Ready(s, move.stream) {
      WorkFacts(s, move.stream, move.reply);
      assert WorkerOk(s, s.ops[o].stream);
      hide TicketOk, WorkerOk, StopIsLast;
    }
  }

  // ---------------------------------------------------------------- no deadlock

  /** Every stream that still owes an operation has a live worker, and no awaited event was dropped. */
  ghost predicate Served(s: Sys) {
    |s.settled| == |s.ops| &&
    forall t: Ticket :: t < |s.ops| && s.settled[t].None? ==>
      s.ops[t].stream < |s.workers| && s.workers[s.ops[t].stream].life.Alive? &&
      (s.ops[t].op.Wait? && s.ops[t].op.event < |s.settled| ==> s.settled[s.ops[t].op.event] != Some(Dropped))
  }

  ghost predicate Drained(s: Sys) {
    forall t: Ticket :: t < |s.settled| ==> s.settled[t].Some?
  }

  ghost predicate Earliest(s: Sys, t: Ticket)
    requires |s.settled| == |s.ops|
  {
    t < |s.ops| && s.settled[t].None? && forall u: Ticket :: u < t ==> s.settled[u].Some?
  }

  lemma {:induction false} EarliestExists(s: Sys, bound: Ticket) returns (t: Ticket)
    requires |s.settled| == |s.ops| && bound < |s.ops| && s.settled[bound].None?
    ensures Earliest(s, t)
  {
    t := bound;
    if u: Ticket :| u < bound && s.settled[u].None? { t := EarliestExists(s, u); }
  }

  /** The operation enqueued earliest among those not yet ended can always move. */
  lemma EarliestIsReady(s: Sys, t: Ticket)
    requires Inv(s) && Served(s) && Earliest(s, t)
    ensures s.ops[t].stream < |s.workers| && Ready(s, s.ops[t].stream)
  {
    var w := s.ops[t].stream;
    assert TicketOk(s, t) && WorkerOk(s, w);
    var worker := s.workers[w];
    if worker.hand.Busy? {
      var h := worker.hand.t;
      assert Holds(worker, h) && Pending(s, w, h) && h == t;
      if s.ops[t].op.Wait? {
        var e := s.ops[t].op.event;
        assert TicketOk(s, e);
        assert s.settled[e].Some?;
      }
    }
  }

  /** Deadlock freedom: in every reachable state either everything has ended or a worker can step. */
  lemma NeverDeadlocks(moves: seq<Move>)
    requires Served(Reached(moves))
    ensures Drained(Reached(moves)) || exists w :: 0 <= w < |Reached(moves).workers| && Ready(Reached(moves), w)
  {
    var s := Reached(moves);
    if !Drained(s) {
      var u: Ticket :| u < |s.settled| && s.settled[u].None?;
      var t := EarliestExists(s, u);
      EarliestIsReady(s, t);
    }
  }

  /** The steps still to be made for an operation, weighted so that setting an outcome pays for
      what the worker has to do afterwards. */
  ghost function TurnsLeft(s: Sys, t: Ticket): nat
    requires |s.settled| == |s.ops| && t < |s.ops|
  {
    if s.settled[t].Some? then 0
    else if s.ops[t].stream >= |s.workers| then 6
    else if s.workers[s.ops[t].stream].hand == Popped(t) then 5
    else if s.workers[s.ops[t].stream].hand == Busy(t) then 4
    else 6
  }

  /** What a worker has to do besides: lower its flag, fail its queue, be started. */
  ghost function Chores(worker: Worker): nat {
    (if worker.hand.Settled? then 1 else 0) + (if worker.life.Failing? then 2 else if Enterable(worker) then 1 else 0)
  }

  ghost function Left(s: Sys): seq<nat>
    requires |s.settled| == |s.ops|
  {
    seq(|s.ops|, t requires 0 <= t < |s.ops| && |s.settled| == |s.ops| => TurnsLeft(s, t))
  }

  ghost function AllChores(s: Sys): seq<nat> {
    seq(|s.workers|, w requires 0 <= w < |s.workers| => Chores(s.workers[w]))
  }

  ghost function Measure(s: Sys): nat
    requires |s.settled| == |s.ops|
  {
    Sum(Left(s)) + Sum(AllChores(s))
  }

  lemma ChoresChange(s: Sys, after: Sys, w: StreamId)
    requires w < |s.workers| && |after.workers| == |s.workers|
    requires forall v :: 0 <= v < |s.workers| && v != w ==> after.workers[v] == s.workers[v]
    ensures Sum(AllChores(after)) == Sum(AllChores(s)) - Chores(s.workers[w]) + Chores(after.workers[w])
  {
    SumUpdated(AllChores(s), w, Chores(after.workers[w]));
    assert AllChores(after) == AllChores(s)[w := Chores(after.workers[w])];
  }

  /** The operation whose remaining steps a worker's step changes, if any. */
  function Moves(s: Sys, w: StreamId): Option<Ticket>
    requires w < |s.workers|
  {
    match s.workers[w].hand
    case Empty => if s.workers[w].queue == [] then None else Some(s.workers[w].queue[0])
    case Settled(_) => None
    case Popped(t) => Some(t)
    case Busy(t) => Some(t)
  }

  lemma OtherTurns(s: Sys, w: StreamId, reply: Reply, t: Ticket)
    requires Inv(s) && w < |s.workers| && Ready(s, w) && t < |s.ops|
    ensures Fits(Worked(s, w, reply)) && Worked(s, w, reply).ops == s.ops
    ensures Moves(s, w) != Some(t) ==> TurnsLeft(Worked(s, w, reply), t) == TurnsLeft(s, t)
    ensures Moves(s, w) == Some(t) ==>
      TurnsLeft(Worked(s, w, reply), t) + Chores(Worked(s, w, reply).workers[w]) < TurnsLeft(s, t) + Chores(s.workers[w])
  {
    WorkFacts(s, w, reply);
    assert WorkerOk(s, w) && TicketOk(s, t);
    if Moves(s, w) == Some(t) { assert Pending(s, w, t); }
    hide Inv, WorkerOk, TicketOk, Ending, Kills, First, StopIsLast;
  }

  /** The remaining steps of all operations change by those of the one the step moves. */
  lemma LeftChange(s: Sys, w: StreamId, reply: Reply)
    requires Inv(s) && w < |s.workers| && Ready(s, w)
    ensures var after := Worked(s, w, reply);
      Fits(after) && after.ops == s.ops &&
      if Moves(s, w).None? then Left(after) == Left(s)
      else
        var h := Moves(s, w).value;
        h < |s.ops| && Sum(Left(after)) == Sum(Left(s)) - TurnsLeft(s, h) + TurnsLeft(after, h) &&
        TurnsLeft(after, h) + Chores(after.workers[w]) < TurnsLeft(s, h) + Chores(s.workers[w])
  {
    hide EffectOf, Worked, WorkerOk, TicketOk, StopIsLast, Ready, Chores;
    var after := Worked(s, w, reply);
    WorkFrame(s, w, reply);
    MovesFit(s, w);
    forall t: Ticket | t < |s.ops| && Moves(s, w) != Some(t) ensures TurnsLeft(after, t) == TurnsLeft(s, t) { OtherTurns(s, w, reply, t); }
    if Moves(s, w).Some? {
      var h := Moves(s, w).value;
      OtherTurns(s, w, reply, h);
      hide TurnsLeft, Moves;
      SumUpdated(Left(s), h, TurnsLeft(after, h));
      assert Left(after) == Left(s)[h := TurnsLeft(after, h)];
    } else {
      hide TurnsLeft, Moves;
      assert Left(after) == Left(s);
    }
  }

  lemma WorkFrame(s: Sys, w: StreamId, reply: Reply)
    requires Inv(s) && w < |s.workers| && Ready(s, w)
    ensures var after := Worked(s, w, reply);
      Fits(s) && Fits(after) && after.ops == s.ops && |after.workers| == |s.workers| &&
      forall v :: 0 <= v < |s.workers| && v != w ==> after.workers[v] == s.workers[v]
  {
    WorkFacts(s, w, reply);
    hide WorkerOk, TicketOk, StopIsLast, EffectOf, First;
  }

  /** A step that moves no operation does one of the worker's chores. */
  lemma ChoreDone(s: Sys, w: StreamId, reply: Reply)
    requires Inv(s) && w < |s.workers| && Ready(s, w) && Moves(s, w).None?
    ensures Fits(s) && w < |Worked(s, w, reply).workers| && Chores(Worked(s, w, reply).workers[w]) < Chores(s.workers[w])
  {
    assert WorkerOk(s, w);
    hide Inv, WorkerOk, TicketOk;
  }

  /** Every step of every worker uses up some of the work, so the queues drain whatever the scheduling. */
  lemma WorkProgresses(s: Sys, w: StreamId, reply: Reply)
    requires Inv(s) && w < |s.workers| && Ready(s, w)
    ensures var after := Next(s, Work(w, reply)); Inv(after) && after.ops == s.ops && Measure(after) < Measure(s)
  {
    var after := Worked(s, w, reply);
    WorkKeeps(s, w, reply);
    WorkFrame(s, w, reply);
    ChoresChange(s, after, w);
    LeftChange(s, w, reply);
    if Moves(s, w).None? { ChoreDone(s, w, reply); }
    hide WorkerOk, TicketOk, StopIsLast, EffectOf, Worked, Chores, TurnsLeft, Moves, Left, AllChores;
  }

  lemma MovesFit(s: Sys, w: StreamId)
    requires Fits(s) && w < |s.workers|
    ensures Moves(s, w).Some? ==> Moves(s, w).value < |s.ops|
  {
    assert s.workers[w].queue != [] ==> s.workers[w].queue[0] in s.workers[w].queue;
  }

  /** An ordinary step of a live worker drops nothing and leaves it alive, or done. */
  lemma OrdinaryStep(s: Sys, w: StreamId, reply: Reply)
    requires Inv(s) && w < |s.workers| && Ready(s, w) && s.workers[w].life.Alive? && !reply.Fatal?
    ensures var e := EffectOf(s, w, reply);
      (e.ends.Some? ==> e.outcome != Dropped) && (e.worker.life.Alive? || (e.worker.life.Exited? && e.worker.queue == [] && e.worker.hand.Empty?))
  {
    if s.workers[w].hand.Empty? && s.workers[w].queue != [] {
      PopFacts(s, w);
      StopHasNoTail(s, w);
    }
    hide Inv, WorkerOk, TicketOk, First;
  }

  /** A worker that serves nothing and is failing moves no operation. */
  lemma ServedWorker(s: Sys, w: StreamId)
    requires Inv(s) && Served(s) && w < |s.workers| && Ready(s, w) && !s.workers[w].life.Alive?
    ensures forall t: Ticket :: !Pending(s, w, t)
  {
    assert WorkerOk(s, w);
    hide Inv, TicketOk;
  }

  /** Ordinary worker steps keep every stream served. */
  lemma WorkServes(s: Sys, w: StreamId, reply: Reply)
    requires Inv(s) && Served(s) && w < |s.workers| && Ready(s, w) && !reply.Fatal?
    ensures Served(Next(s, Work(w, reply)))
  {
    var after := Worked(s, w, reply);
    var e := EffectOf(s, w, reply);
    WorkFacts(s, w, reply);
    WorkKeeps(s, w, reply);
    if s.workers[w].life.Alive? { OrdinaryStep(s, w, reply); } else { ServedWorker(s, w); }
    forall t: Ticket | t < |after.ops| && after.settled[t].None?
      ensures after.ops[t].stream < |after.workers| && after.workers[after.ops[t].stream].life.Alive?
      ensures after.ops[t].op.Wait? && after.ops[t].op.event < |after.settled| ==> after.settled[after.ops[t].op.event] != Some(Dropped)
    {
      assert TicketOk(after, t) && s.settled[t].None?;
      hide Inv, WorkerOk, TicketOk, EffectOf, Worked, Ready;
      assert e.ends.Some? ==> Pending(s, w, e.ends.value);
    }
  }

  // ---------------------------------------------------------------- query

  /** What query answers: the queue is empty and the busy flag is down. */
  predicate QueryAnswer(s: Sys, w: StreamId)
    requires w < |s.workers|
  {
    s.workers[w].queue == [] && !s.workers[w].hand.Busy? && !s.workers[w].hand.Settled?
  }

  /** Everything put on the stream has ended. */
  ghost predicate Ended(s: Sys, w: StreamId) {
    |s.settled| == |s.ops| && forall t: Ticket :: t < |s.ops| && s.ops[t].stream == w ==> s.settled[t].Some?
  }

  /** The last operation of the stream has been taken by its worker, alive or failing its queue,
      and is neither marked busy nor ended; everything else put on the stream has ended. */
  ghost predicate LastPopped(s: Sys, w: StreamId) {
    |s.settled| == |s.ops| && w < |s.workers| && s.workers[w].hand.Popped? &&
    forall t: Ticket :: t < |s.ops| && s.ops[t].stream == w ==> (s.settled[t].None? <==> t == s.workers[w].hand.t)
  }

  /** Everything has ended, and the flag of the operation that ended last is still up. */
  ghost predicate FlagStillUp(s: Sys, w: StreamId) {
    Ended(s, w) && w < |s.workers| && s.workers[w].hand.Settled?
  }

  /** query is exact but for two moments: it says idle too early exactly while the last operation is
      popped and not yet marked busy or failed, and too late exactly while the flag of the last,
      ended, operation is still up. */
  lemma QueryExact(moves: seq<Move>, w: StreamId)
    requires w < |Reached(moves).workers|
    ensures var s := Reached(moves);
      (QueryAnswer(s, w) && !Ended(s, w) <==> LastPopped(s, w)) &&
      (!QueryAnswer(s, w) && Ended(s, w) <==> FlagStillUp(s, w))
  {
    QueryMeaning(Reached(moves), w);
  }

  lemma QueryMeaning(s: Sys, w: StreamId)
    requires Inv(s) && w < |s.workers|
    ensures QueryAnswer(s, w) && !Ended(s, w) <==> LastPopped(s, w)
    ensures !QueryAnswer(s, w) && Ended(s, w) <==> FlagStillUp(s, w)
    ensures QueryAnswer(s, w) <==> (Ended(s, w) && !FlagStillUp(s, w)) || LastPopped(s, w)
  {
    var worker := s.workers[w];
    assert WorkerOk(s, w);
    if Holdable(worker) {
      assert Holds(worker, worker.hand.t) && Pending(s, w, worker.hand.t);
    }
    if worker.queue != [] {
      assert Pending(s, w, worker.queue[0]);
    }
    forall t: Ticket | t < |s.ops| && s.ops[t].stream == w && s.settled[t].None? ensures Pending(s, w, t) {
      assert TicketOk(s, t);
    }
    hide TicketOk, StopIsLast, Inv;
  }

  predicate Holdable(worker: Worker) {
    worker.hand.Popped? || worker.hand.Busy?
  }
}
