/** Which operations never end (src/rath/backend/stream.py).  The stream documentation promises
    that no future hangs; this module says exactly, from any reachable state, which do.  A stream
    is served by one worker at a time: none is entered while its worker still runs. */
module StreamHangs {
  import opened Models
  import opened Sums
  import opened Streams

  /** No thread serves this stream and none can be started any more. */
  predicate Abandoned(worker: Worker) {
    worker.closed && (worker.life.Unstarted? || worker.life.Dead?)
  }

  ghost predicate SameStream(s: Sys, t: Ticket, u: Ticket) {
    t < |s.ops| && u < |s.ops| && s.ops[t].stream == s.ops[u].stream
  }

  /** The event will never be signalled: it was dropped, or its stream is abandoned, or its
      worker is failing its queue, or an earlier wait of its stream is stuck. */
  ghost predicate Mute(s: Sys, e: Ticket)
    requires Fits(s)
    decreases e, 1
  {
    e < |s.ops| && s.ops[e].stream < |s.workers| &&
    if s.settled[e].Some? then s.settled[e].value != Signalled
    else
      Abandoned(s.workers[s.ops[e].stream]) || s.workers[s.ops[e].stream].life.Failing? ||
      exists u: Ticket :: u < e && SameStream(s, u, e) && Stuck(s, u)
  }

  /** A wait without a timeout that has not ended and whose event will never be signalled. */
  ghost predicate Stuck(s: Sys, u: Ticket)
    requires Fits(s)
    decreases u, 0
  {
    u < |s.ops| && s.settled[u].None? && s.ops[u].op.Wait? && !s.ops[u].op.timed && s.ops[u].op.event < u &&
    Mute(s, s.ops[u].op.event)
  }

  /** Every call put on the stream before u has ended, so nothing can kill the worker before u. */
  ghost predicate NoCallBefore(s: Sys, u: Ticket)
    requires Fits(s)
  {
    forall v: Ticket :: v < u && SameStream(s, v, u) && s.ops[v].op.Call? ==> s.settled[v].Some?
  }

  /** The wait u blocks its stream for ever. */
  ghost predicate Blocks(s: Sys, u: Ticket)
    requires Fits(s)
  {
    Stuck(s, u) && NoCallBefore(s, u) && s.ops[u].stream < |s.workers| && !s.workers[s.ops[u].stream].life.Failing?
  }

  /** The operation hangs: its stream is abandoned, or a wait at or before it is stuck and
      no unfinished call before that wait can still bring the worker down. */
  ghost predicate Doomed(s: Sys, t: Ticket)
    requires Fits(s)
  {
    t < |s.ops| && s.settled[t].None? && s.ops[t].stream < |s.workers| &&
    (Abandoned(s.workers[s.ops[t].stream]) || exists u: Ticket :: u <= t && SameStream(s, u, t) && Blocks(s, u))
  }

  // ---------------------------------------------------------------- doom stays

  /** What is needed about one step, for the operations there are: outcomes only get set, each by
      the stream's own worker on its first pending operation. */
  ghost predicate Stepped(s: Sys, after: Sys)
    requires Fits(s) && Fits(after)
  {
    Extends(s, after) &&
    (forall w :: 0 <= w < |s.workers| && s.workers[w].closed ==> after.workers[w].closed) &&
    (forall w :: 0 <= w < |s.workers| && Abandoned(s.workers[w]) ==> after.workers[w].life == s.workers[w].life) &&
    (forall t: Ticket :: t < |s.ops| && s.settled[t].None? && after.settled[t].Some? ==> EndedNow(s, after, t)) &&
    forall w :: 0 <= w < |s.workers| ==> LifeStepped(s, after, w)
  }

  /** t is the first pending operation of its stream and its worker, alive, had it in its handler,
      unblocked, or it popped the stop marker, or it was failing its queue. */
  ghost predicate EndedNow(s: Sys, after: Sys, t: Ticket)
    requires Fits(s) && Fits(after) && t < |s.ops| && t < |after.ops| && after.settled[t].Some?
  {
    var w := s.ops[t].stream;
    w < |s.workers| && First(s, w, t) && !Abandoned(s.workers[w]) &&
    if s.workers[w].life.Failing? then s.ops[t].op.Stop? || (after.settled[t].value == Dropped && w < |after.workers| && after.workers[w].life.Failing?)
    else Unblocked(s, t) && after.settled[t].value != Dropped
  }

  /** A worker starts failing only while handling a call, and stops only when nothing is left. */
  ghost predicate LifeStepped(s: Sys, after: Sys, w: StreamId)
    requires Fits(s) && w < |s.workers|
  {
    w < |after.workers| &&
    (!s.workers[w].life.Failing? && after.workers[w].life.Failing? ==>
       s.workers[w].hand.Busy? && s.ops[s.workers[w].hand.t].op.Call?) &&
    (s.workers[w].life.Failing? && !after.workers[w].life.Failing? ==>
       forall t: Ticket :: Pending(s, w, t) ==> t < |s.ops| && s.ops[t].op.Stop?)
  }

  lemma StepFacts(s: Sys, move: Move)
    requires Inv(s)
    ensures Inv(Next(s, move)) && Stepped(s, Next(s, move))
  {
    StepKeeps(s, move);
    if move.Work? && move.stream < |s.workers| && Ready(s, move.stream) {
      WorkStepFacts(s, move.stream, move.reply);
    } else {
      hide Inv, WorkerOk, TicketOk, Worked;
    }
  }

  lemma WorkStepFacts(s: Sys, w: StreamId, reply: Reply)
    requires Inv(s) && w < |s.workers| && Ready(s, w)
    ensures var after := Worked(s, w, reply); Inv(after) && Extends(s, after) && Stepped(s, after)
  {
    var after := Worked(s, w, reply);
    WorkKeeps(s, w, reply);
    WorkFacts(s, w, reply);
    assert WorkerOk(s, w);
    var worker := s.workers[w];
    var e := EffectOf(s, w, reply);
    if worker.hand.Empty? && worker.queue != [] { StopHasNoTail(s, w); }
    hide Inv, TicketOk, StopIsLast, Worked, Ending, Extends;
  }

  /** An event that will never be signalled stays so. */
  lemma {:induction false} MuteStays(s: Sys, after: Sys, e: Ticket)
    requires Inv(s) && Inv(after) && Stepped(s, after) && e < |s.ops| && s.ops[e].op.Record? && Mute(s, e)
    ensures Mute(after, e)
    decreases e
  {
    assert TicketOk(s, e) && after.ops[e] == s.ops[e];
    var w := s.ops[e].stream;
    assert LifeStepped(s, after, w);
    if s.settled[e].None? && !Abandoned(s.workers[w]) && !s.workers[w].life.Failing? {
      var u: Ticket :| u < e && SameStream(s, u, e) && Stuck(s, u);
      assert TicketOk(s, u) && after.ops[u] == s.ops[u];
      StuckUnended(s, after, u);
      MuteStays(s, after, s.ops[u].op.event);
      assert Stuck(after, u) && SameStream(after, u, e);
    }
    hide Inv, WorkerOk, StopIsLast;
  }

  /** A stuck wait ends only with the queue of a failing worker. */
  lemma StuckUnended(s: Sys, after: Sys, u: Ticket)
    requires Inv(s) && Fits(after) && Stepped(s, after) && Stuck(s, u) && s.ops[u].stream < |s.workers| && !s.workers[s.ops[u].stream].life.Failing?
    ensures u < |after.settled| && after.settled[u].None?
  {
    hide Inv, LifeStepped;
  }

  lemma DoomStays(s: Sys, after: Sys, t: Ticket)
    requires Inv(s) && Inv(after) && Stepped(s, after) && Doomed(s, t)
    ensures Doomed(after, t)
  {
    assert TicketOk(s, t) && after.ops[t] == s.ops[t];
    var w := s.ops[t].stream;
    if !Abandoned(s.workers[w]) {
      var u: Ticket :| u <= t && SameStream(s, u, t) && Blocks(s, u);
      BlocksStays(s, after, u);
      assert TicketOk(s, u) && after.ops[u] == s.ops[u];
      assert SameStream(after, u, t) && Blocks(after, u);
      hide Inv, WorkerOk, Blocks, LifeStepped;
      assert after.settled[t].Some? ==> u == t;
    }
    hide Inv, WorkerOk, Blocks, LifeStepped;
  }

  lemma BlocksStays(s: Sys, after: Sys, u: Ticket)
    requires Inv(s) && Inv(after) && Stepped(s, after) && Blocks(s, u)
    ensures Blocks(after, u) && after.settled[u].None?
  {
    var w := s.ops[u].stream;
    assert TicketOk(s, u) && after.ops[u] == s.ops[u] && WorkerOk(s, w) && LifeStepped(s, after, w);
    StuckUnended(s, after, u);
    assert TicketOk(s, s.ops[u].op.event);
    MuteStays(s, after, s.ops[u].op.event);
    if s.workers[w].hand.Busy? {
      var c := s.workers[w].hand.t;
      assert Holds(s.workers[w], c) && Pending(s, w, c) && SameStream(s, c, u);
    }
    hide Inv, TicketOk, Mute;
    forall v: Ticket | v < u && SameStream(after, v, u) && after.ops[v].op.Call? ensures after.settled[v].Some? {
      assert after.ops[v] == s.ops[v] && SameStream(s, v, u);
    }
  }

  /** A doomed operation ends in no continuation. */
  lemma {:induction false} DoomedForever(s: Sys, t: Ticket, moves: seq<Move>)
    requires Inv(s) && Doomed(s, t)
    ensures t < |RunFrom(s, moves).settled| && RunFrom(s, moves).settled[t].None?
    decreases |moves|
  {
    hide WorkerOk, TicketOk, StopIsLast, Next, Stepped;
    if moves != [] {
      StepFacts(s, moves[0]);
      DoomStays(s, Next(s, moves[0]), t);
      DoomedForever(Next(s, moves[0]), t, moves[1..]);
    }
  }

  // ---------------------------------------------------------------- the others can end

  /** A step in which nobody closes a stream, submits, or meets a fatal error. */
  ghost predicate Calm(s: Sys, after: Sys)
    requires Fits(s) && Fits(after)
  {
    Stepped(s, after) && after.ops == s.ops && |after.workers| == |s.workers| &&
    forall w :: 0 <= w < |s.workers| ==> CalmWorker(s.workers[w], after.workers[w])
  }

  predicate CalmWorker(a: Worker, b: Worker) {
    b.closed == a.closed && (b.life.Failing? ==> a.life.Failing?) && (Abandoned(b) ==> Abandoned(a) || a.life.Failing?)
  }

  lemma CalmEnter(s: Sys, w: StreamId)
    requires Inv(s) && w < |s.workers| && Enterable(s.workers[w])
    ensures var after := Next(s, Enter(w)); Inv(after) && Calm(s, after) && Measure(after) < Measure(s) && after.settled == s.settled
  {
    var after := Next(s, Enter(w));
    StepFacts(s, Enter(w));
    ChoresChange(s, after, w);
    assert WorkerOk(s, w);
    assert Left(after) == Left(s);
    hide Inv, WorkerOk, Stepped;
  }

  lemma CalmWork(s: Sys, w: StreamId, reply: Reply)
    requires Inv(s) && w < |s.workers| && Ready(s, w) && !reply.Fatal?
    ensures var after := Next(s, Work(w, reply)); Inv(after) && Calm(s, after) && Measure(after) < Measure(s)
  {
    StepFacts(s, Work(w, reply));
    WorkFacts(s, w, reply);
    WorkProgresses(s, w, reply);
    hide Inv, Stepped, Measure, First;
  }

  /** A calm step silences no event that could still be signalled. */
  lemma {:induction false} MuteBack(s: Sys, after: Sys, e: Ticket)
    requires Inv(s) && Inv(after) && Calm(s, after) && e < |s.ops| && s.ops[e].op.Record? && Mute(after, e)
    ensures Mute(s, e)
    decreases e
  {
    assert TicketOk(s, e) && TicketOk(after, e);
    var w := s.ops[e].stream;
    assert LifeStepped(s, after, w) && CalmWorker(s.workers[w], after.workers[w]);
    if after.settled[e].None? && !Abandoned(after.workers[w]) && !after.workers[w].life.Failing? {
      var u: Ticket :| u < e && SameStream(after, u, e) && Stuck(after, u);
      assert TicketOk(s, u);
      MuteBack(s, after, s.ops[u].op.event);
      assert Stuck(s, u) && SameStream(s, u, e);
    }
    hide Inv, WorkerOk, StopIsLast;
  }

  /** What a calm run keeps from its start. */
  ghost predicate CalmRun(s: Sys, q: Sys)
    requires Inv(s) && Inv(q)
  {
    Extends(s, q) && q.ops == s.ops && |q.workers| == |s.workers| &&
    (forall e: Ticket :: e < |s.ops| && s.ops[e].op.Record? && Mute(q, e) ==> Mute(s, e)) &&
    forall w :: 0 <= w < |s.workers| && !s.workers[w].life.Failing? ==>
      !q.workers[w].life.Failing? && (Abandoned(q.workers[w]) ==> Abandoned(s.workers[w]))
  }

  lemma CalmRunSelf(s: Sys)
    requires Inv(s)
    ensures CalmRun(s, s)
  {
    hide Inv, Mute;
  }

  lemma CalmRunOn(s: Sys, next: Sys, q: Sys)
    requires Inv(s) && Inv(next) && Inv(q) && Calm(s, next) && CalmRun(next, q)
    ensures CalmRun(s, q)
  {
    ExtendsOn(s, next, q);
    forall e: Ticket | e < |s.ops| && s.ops[e].op.Record? && Mute(q, e) ensures Mute(s, e) {
      MuteBack(s, next, e);
    }
    hide Inv, Mute, Extends;
    forall w | 0 <= w < |s.workers| && !s.workers[w].life.Failing?
      ensures !q.workers[w].life.Failing? && (Abandoned(q.workers[w]) ==> Abandoned(s.workers[w]))
    {
      assert CalmWorker(s.workers[w], next.workers[w]);
    }
  }

  /** A worker has this operation in its handler. */
  predicate InHand(s: Sys, w: StreamId, hold: Option<Ticket>)
    requires w < |s.workers|
  {
    hold.Some? && s.workers[w].hand == Busy(hold.value)
  }

  /** No stream can be entered, and only the worker that handles `hold` can step. */
  ghost predicate Quiet(s: Sys, hold: Option<Ticket>) {
    forall w: StreamId :: w < |s.workers| ==> !Enterable(s.workers[w]) && (Ready(s, w) ==> InHand(s, w, hold))
  }

  /** The call to hold back has not ended, and its worker is not failing its queue. */
  ghost predicate Holdable(s: Sys, hold: Option<Ticket>) {
    hold.Some? ==>
      hold.value < |s.ops| && |s.settled| == |s.ops| && s.settled[hold.value].None? && s.ops[hold.value].op.Call? &&
      s.ops[hold.value].stream < |s.workers| && !s.workers[s.ops[hold.value].stream].life.Failing?
  }

  lemma HoldStays(s: Sys, after: Sys, hold: Option<Ticket>)
    requires Inv(s) && Fits(after) && Calm(s, after) && Holdable(s, hold)
    requires hold.Some? ==> after.settled[hold.value].None?
    ensures Holdable(after, hold)
  {
    hide Inv, Stepped;
    if hold.Some? { assert CalmWorker(s.workers[s.ops[hold.value].stream], after.workers[s.ops[hold.value].stream]); }
  }

  /** A step of a worker that does not handle the call leaves it unfinished. */
  lemma HoldUnended(s: Sys, w: StreamId, hold: Option<Ticket>)
    requires Inv(s) && w < |s.workers| && Ready(s, w) && Holdable(s, hold) && hold.Some? && !InHand(s, w, hold)
    ensures Fits(Next(s, Work(w, Answer("")))) && Next(s, Work(w, Answer(""))).settled[hold.value].None?
  {
    WorkFacts(s, w, Answer(""));
    assert WorkerOk(s, w) && TicketOk(s, hold.value);
    hide Inv, First, Ending, TicketOk, StopIsLast;
  }

  /** Start every stream that can be started and let the workers step, but for the held call, until nothing moves. */
  lemma {:induction false} Quiesce(s: Sys, hold: Option<Ticket>) returns (moves: seq<Move>)
    requires Inv(s) && Holdable(s, hold)
    ensures var q := RunFrom(s, moves); Quiet(q, hold) && CalmRun(s, q) && Holdable(q, hold)
    decreases Measure(s)
  {
    hide WorkerOk, TicketOk, StopIsLast, Next, Calm, CalmRun, Holdable, Measure, Ready, Extends;
    var move: Option<Move> := None;
    if w: StreamId :| w < |s.workers| && Enterable(s.workers[w]) {
      CalmEnter(s, w);
      HoldAfterEnter(s, w, hold);
      move := Some(Enter(w));
    } else if w: StreamId :| w < |s.workers| && Ready(s, w) && !InHand(s, w, hold) {
      CalmWork(s, w, Answer(""));
      HoldAfterWork(s, w, hold);
      move := Some(Work(w, Answer("")));
    }
    if move.None? {
      moves := [];
      CalmRunSelf(s);
    } else {
      var next := Next(s, move.value);
      var rest := Quiesce(next, hold);
      moves := [move.value] + rest;
      assert moves[1..] == rest;
      CalmRunOn(s, next, RunFrom(next, rest));
    }
  }

  lemma HoldAfterEnter(s: Sys, w: StreamId, hold: Option<Ticket>)
    requires Inv(s) && w < |s.workers| && Enterable(s.workers[w]) && Holdable(s, hold)
    ensures Holdable(Next(s, Enter(w)), hold)
  {
    hide Inv;
  }

  lemma HoldAfterWork(s: Sys, w: StreamId, hold: Option<Ticket>)
    requires Inv(s) && w < |s.workers| && Ready(s, w) && !InHand(s, w, hold) && Holdable(s, hold)
    ensures Holdable(Next(s, Work(w, Answer(""))), hold)
  {
    CalmWork(s, w, Answer(""));
    if hold.Some? { HoldUnended(s, w, hold); }
    HoldStays(s, Next(s, Work(w, Answer(""))), hold);
  }

  // ---------------------------------------------------------------- when nothing moves

  /** Where nothing moves, an unfinished operation's stream is abandoned or its worker is blocked
      at or before it, in a wait for an event that is not signalled. */
  lemma StillBlocked(q: Sys, t: Ticket) returns (u: Ticket)
    requires Inv(q) && t < |q.ops| && q.settled[t].None?
    requires q.ops[t].stream < |q.workers| ==> !Enterable(q.workers[q.ops[t].stream]) && !Ready(q, q.ops[t].stream)
    ensures q.ops[t].stream < |q.workers| && !q.workers[q.ops[t].stream].life.Failing?
    ensures Abandoned(q.workers[q.ops[t].stream]) ||
      (u <= t && SameStream(q, u, t) && q.settled[u].None? && q.ops[u].op.Wait? && !q.ops[u].op.timed &&
       q.ops[u].op.event < u && q.ops[q.ops[u].op.event].op.Record? && !EventSet(q, q.ops[u].op.event) && First(q, q.ops[t].stream, u))
  {
    var w := q.ops[t].stream;
    assert TicketOk(q, t) && WorkerOk(q, w);
    u := t;
    if q.workers[w].hand.Busy? {
      u := q.workers[w].hand.t;
      assert Holds(q.workers[w], u) && Pending(q, w, u) && TicketOk(q, u);
    }
    hide Inv, StopIsLast;
  }

  /** Where nothing moves, an event that is not signalled never will be. */
  lemma {:induction false} StillMute(q: Sys, e: Ticket)
    requires Inv(q) && Quiet(q, None) && e < |q.ops| && q.ops[e].op.Record? && !EventSet(q, e)
    ensures Mute(q, e)
    decreases e
  {
    hide WorkerOk, StopIsLast;
    assert TicketOk(q, e);
    if q.settled[e].None? {
      var u := StillBlocked(q, e);
      if !Abandoned(q.workers[q.ops[e].stream]) {
        StillMute(q, q.ops[u].op.event);
        assert Stuck(q, u);
      }
    }
  }

  // ---------------------------------------------------------------- dying workers

  /** A worker that was failing its queue and has ended leaves nothing of its stream unfinished. */
  lemma DyingSettlesAll(s: Sys, move: Move, w: StreamId)
    requires Inv(s) && w < |s.workers| && s.workers[w].life.Failing?
    ensures Inv(Next(s, move)) && w < |Next(s, move).workers|
    ensures !Next(s, move).workers[w].life.Failing? ==> Next(s, move).workers[w].life.Dead? && Ended(Next(s, move), w)
  {
    StepKeeps(s, move);
    var after := Next(s, move);
    if !after.workers[w].life.Failing? {
      assert move.Work? && move.stream == w && Ready(s, w);
      WorkFacts(s, w, move.reply);
      assert WorkerOk(s, w);
      if s.workers[w].queue != [] { StopHasNoTail(s, w); }
      forall t: Ticket | t < |s.ops| && s.ops[t].stream == w ensures after.settled[t].Some? {
        assert TicketOk(after, t);
      }
      hide Inv, TicketOk, WorkerOk;
    }
  }

  /** A failing worker left to itself ends, and everything of its stream with it. */
  lemma {:induction false} FailOut(s: Sys, w: StreamId) returns (moves: seq<Move>)
    requires Inv(s) && w < |s.workers| && s.workers[w].life.Failing?
    ensures Ended(RunFrom(s, moves), w) && RunFrom(s, moves).ops == s.ops
    decreases Measure(s)
  {
    hide TicketOk, StopIsLast, Next, Measure, Extends, Ended;
    var move := Work(w, Answer(""));
    FailingIsReady(s, w);
    var after := Next(s, move);
    WorkProgresses(s, w, Answer(""));
    DyingSettlesAll(s, move, w);
    if after.workers[w].life.Failing? {
      var rest := FailOut(after, w);
      moves := [move] + rest;
      assert moves[1..] == rest;
    } else {
      moves := [move];
      assert moves[1..] == [] && RunFrom(after, []) == after;
    }
  }

  lemma FailingIsReady(s: Sys, w: StreamId)
    requires Inv(s) && w < |s.workers| && s.workers[w].life.Failing?
    ensures Ready(s, w)
  {
    assert WorkerOk(s, w);
  }

  // ---------------------------------------------------------------- exactly which operations hang

  /** An unfinished call at or before t on its stream that could bring the worker down. */
  ghost predicate Lever(s: Sys, t: Ticket, v: Ticket)
    requires Fits(s)
  {
    v <= t && SameStream(s, v, t) && s.ops[v].op.Call? && s.settled[v].None?
  }

  lemma {:induction false} FirstLever(s: Sys, t: Ticket, bound: Ticket) returns (v: Ticket)
    requires Fits(s) && Lever(s, t, bound)
    ensures Lever(s, t, v) && forall x: Ticket :: Lever(s, t, x) ==> v <= x
    decreases bound
  {
    v := bound;
    if x: Ticket :| x < bound && Lever(s, t, x) { v := FirstLever(s, t, x); }
  }

  /** An operation that is still unfinished where nothing moves, and before which no call was
      unfinished to begin with, was doomed to begin with. */
  lemma StillDoomed(s: Sys, q: Sys, t: Ticket, top: Ticket)
    requires Inv(s) && Inv(q) && CalmRun(s, q) && Quiet(q, None) && t <= top < |s.ops| && SameStream(s, t, top)
    requires q.settled[t].None? && s.settled[top].None? && s.ops[t].stream < |s.workers| && !s.workers[s.ops[t].stream].life.Failing?
    requires forall v: Ticket :: v < t && SameStream(s, v, t) && s.ops[v].op.Call? ==> s.settled[v].Some?
    ensures Doomed(s, top)
  {
    hide WorkerOk, TicketOk, StopIsLast, Mute;
    var u := StillBlocked(q, t);
    if !Abandoned(q.workers[q.ops[t].stream]) {
      StillMute(q, s.ops[u].op.event);
      assert Stuck(s, u);
      assert Blocks(s, u) && SameStream(s, u, top);
    }
  }

  /** Wherever no worker can step and no stream can be entered, everything unfinished is doomed:
      there is no deadlock but the unavoidable ones. */
  lemma NoOtherDeadlock(moves: seq<Move>, t: Ticket)
    requires Quiet(Reached(moves), None) && t < |Reached(moves).ops| && Reached(moves).settled[t].None?
    ensures Doomed(Reached(moves), t)
  {
    var q := Reached(moves);
    hide WorkerOk, StopIsLast, Mute;
    var u := StillBlocked(q, t);
    if !Abandoned(q.workers[q.ops[t].stream]) {
      StillMute(q, q.ops[u].op.event);
      forall v: Ticket | v < u && SameStream(q, v, u) && q.ops[v].op.Call? ensures q.settled[v].Some? {
        assert TicketOk(q, v);
      }
      assert Blocks(q, u);
    }
  }

  /** Every other operation ends in some continuation: if a call can still bring its worker down
      it ends with the queue, otherwise it is reached. */
  lemma Escapes(s: Sys, t: Ticket) returns (moves: seq<Move>)
    requires Inv(s) && t < |s.ops| && s.settled[t].None? && !Doomed(s, t)
    ensures RunFrom(s, moves).settled[t].Some?
  {
    hide WorkerOk, StopIsLast, Mute, Next, Extends, CalmRun, Doomed, Quiet, Measure;
    assert TicketOk(s, t);
    var w := s.ops[t].stream;
    if s.workers[w].life.Failing? {
      moves := FailOut(s, w);
    } else if bound: Ticket :| Lever(s, t, bound) {
      var v := FirstLever(s, t, bound);
      moves := EscapesByDeath(s, t, v);
    } else {
      moves := Quiesce(s, None);
      var q := RunFrom(s, moves);
      RunKeepsOp(s, moves, t);
      if q.settled[t].None? {
        forall v: Ticket | v < t && SameStream(s, v, t) && s.ops[v].op.Call? ensures s.settled[v].Some? {
          assert !Lever(s, t, v);
        }
        StillDoomed(s, q, t, t);
      }
    }
  }

  lemma EscapesByDeath(s: Sys, t: Ticket, v: Ticket) returns (moves: seq<Move>)
    requires Inv(s) && t < |s.ops| && s.settled[t].None? && !Doomed(s, t)
    requires s.ops[t].stream < |s.workers| && !s.workers[s.ops[t].stream].life.Failing?
    requires Lever(s, t, v) && forall x: Ticket :: Lever(s, t, x) ==> v <= x
    ensures RunFrom(s, moves).settled[t].Some?
  {
    hide WorkerOk, TicketOk, StopIsLast, Mute, Next, CalmRun, Doomed, Quiet, Measure, Ready;
    var w := s.ops[t].stream;
    var first := Quiesce(s, Some(v));
    var q := RunFrom(s, first);
    CalmRunFacts(s, q);
    if InHand(q, w, Some(v)) {
      var death := Work(w, Fatal(""));
      FatalFails(q, w, v);
      var after := Next(q, death);
      var rest := FailOut(after, w);
      moves := first + ([death] + rest);
      RunJoined(s, first, [death] + rest);
      assert ([death] + rest)[1..] == rest;
      assert Ended(RunFrom(after, rest), w);
      RunKeepsOp(s, moves, t);
    } else {
      assert Quiet(q, None) by { QuietAlone(q, w, v); }
      forall x: Ticket | x < v && SameStream(s, x, v) && s.ops[x].op.Call? ensures s.settled[x].Some? {
        assert !Lever(s, t, x);
      }
      StillDoomed(s, q, v, t);
      moves := [];
    }
  }

  lemma CalmRunFacts(s: Sys, q: Sys)
    requires Inv(s) && Inv(q) && CalmRun(s, q)
    ensures q.ops == s.ops && |q.workers| == |s.workers|
  {
  }

  lemma RunKeepsOp(s: Sys, moves: seq<Move>, t: Ticket)
    requires Inv(s) && t < |s.ops|
    ensures t < |RunFrom(s, moves).ops| && RunFrom(s, moves).ops[t] == s.ops[t]
  {
    hide Inv;
  }

  lemma FatalFails(q: Sys, w: StreamId, v: Ticket)
    requires Inv(q) && w < |q.workers| && InHand(q, w, Some(v)) && v < |q.ops| && q.ops[v].op.Call?
    ensures var after := Next(q, Work(w, Fatal(""))); Inv(after) && w < |after.workers| && after.workers[w].life.Failing? && after.ops == q.ops
  {
    StepKeeps(q, Work(w, Fatal("")));
    assert WorkerOk(q, w);
    hide Inv, TicketOk, Ending;
  }

  /** If its own worker does not handle the held call, nobody does. */
  lemma QuietAlone(q: Sys, w: StreamId, v: Ticket)
    requires Inv(q) && Quiet(q, Some(v)) && w < |q.workers| && v < |q.ops| && q.ops[v].stream == w && !InHand(q, w, Some(v))
    ensures Quiet(q, None)
  {
    hide TicketOk, StopIsLast, Ready;
    forall x: StreamId | x < |q.workers| ensures !InHand(q, x, Some(v)) {
      assert WorkerOk(q, x);
      assert Pending(q, x, v) ==> x == w;
    }
  }

  /** The operation ends in no continuation. */
  ghost predicate Hangs(s: Sys, t: Ticket)
    requires Inv(s)
  {
    forall moves: seq<Move> :: t < |RunFrom(s, moves).settled| && RunFrom(s, moves).settled[t].None?
  }

  /** In every reachable state, an unfinished operation hangs if and only if it is doomed.  Here, and
      in all runs, no stream is entered while its worker still runs. */
  lemma HangsExactly(moves: seq<Move>, t: Ticket)
    requires t < |Reached(moves).ops| && Reached(moves).settled[t].None?
    ensures Hangs(Reached(moves), t) <==> Doomed(Reached(moves), t)
  {
    hide Inv, Doomed;
    var s := Reached(moves);
    Counted(s);
    if Doomed(s, t) {
      forall rest: seq<Move> ensures t < |RunFrom(s, rest).settled| && RunFrom(s, rest).settled[t].None? {
        DoomedForever(s, t, rest);
      }
    } else {
      var rest := Escapes(s, t);
      assert RunFrom(s, rest).settled[t].Some?;
    }
  }

  lemma Counted(s: Sys)
    requires Inv(s)
    ensures |s.settled| == |s.ops| && Fits(s)
  {
  }

  /** After a regular exit nothing put on the stream is unfinished. */
  lemma ExitLeavesNothing(moves: seq<Move>, w: StreamId)
    requires w < |Reached(moves).workers| && Reached(moves).workers[w].life.Exited?
    ensures Ended(Reached(moves), w)
  {
    var s := Reached(moves);
    assert WorkerOk(s, w);
    forall t: Ticket | t < |s.ops| && s.ops[t].stream == w ensures s.settled[t].Some? {
      assert TicketOk(s, t);
    }
  }
}
