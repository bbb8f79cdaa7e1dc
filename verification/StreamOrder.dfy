/** Happens-before across streams (src/rath/backend/stream.py): when a wait without a timeout ends
    by its event, and what then has ended before anything after the wait begins. */
module StreamOrder {
  import opened Models
  import opened Streams
  import opened StreamHangs

  /** No call of this stream met a fatal error in the run. */
  ghost predicate OrdinaryOn(moves: seq<Move>, b: StreamId) {
    forall k :: 0 <= k < |moves| && moves[k].Work? && moves[k].stream == b ==> !moves[k].reply.Fatal?
  }

  /** The stream's worker is not failing its queue and has dropped nothing. */
  ghost predicate Unharmed(s: Sys, b: StreamId)
    requires Fits(s)
  {
    (b < |s.workers| ==> !s.workers[b].life.Failing?) &&
    forall t: Ticket :: t < |s.ops| && s.ops[t].stream == b ==> s.settled[t] != Some(Dropped)
  }

  lemma UnharmedStep(s: Sys, move: Move, b: StreamId)
    requires Inv(s) && Unharmed(s, b) && (move.Work? && move.stream == b ==> !move.reply.Fatal?)
    ensures Inv(Next(s, move)) && Unharmed(Next(s, move), b)
  {
    var after := Next(s, move);
    StepFacts(s, move);
    hide WorkerOk, TicketOk, StopIsLast;
    forall t: Ticket | t < |after.ops| && after.ops[t].stream == b ensures after.settled[t] != Some(Dropped) {
      if t < |s.ops| {
        assert after.ops[t] == s.ops[t];
        assert s.settled[t].None? && after.settled[t].Some? ==> EndedNow(s, after, t);
        hide Next;
      }
    }
    if move.Work? && move.stream < |s.workers| && Ready(s, move.stream) {
      WorkFacts(s, move.stream, move.reply);
      hide First;
    }
  }

  lemma {:induction false} UnharmedRun(s: Sys, moves: seq<Move>, b: StreamId)
    requires Inv(s) && Unharmed(s, b) && OrdinaryOn(moves, b)
    ensures Unharmed(RunFrom(s, moves), b)
    decreases |moves|
  {
    hide WorkerOk, TicketOk, StopIsLast, Next, Unharmed, Extends;
    if moves != [] {
      UnharmedStep(s, moves[0], b);
      assert OrdinaryOn(moves[1..], b) by {
        assert forall k :: 0 <= k < |moves[1..]| ==> moves[1..][k] == moves[k + 1];
      }
      UnharmedRun(Next(s, moves[0]), moves[1..], b);
    }
  }

  lemma UnharmedReached(moves: seq<Move>, b: StreamId)
    requires OrdinaryOn(moves, b)
    ensures Unharmed(Reached(moves), b)
  {
    InitialInv();
    UnharmedRun(Initial(), moves, b);
  }

  /** Happens-before: without a timeout, and with only ordinary exceptions on the waiting stream,
      once o has begun the wait before it has ended by its event, and everything put on the other
      stream before the event has ended. */
  lemma HappensBeforeOrdinary(moves: seq<Move>, c: Ticket, e: Ticket, w: Ticket, o: Ticket)
    requires Joined(Reached(moves), c, e, w, o) && Begun(Reached(moves), o)
    requires !Reached(moves).ops[w].op.timed && OrdinaryOn(moves, Reached(moves).ops[w].stream)
    ensures var s := Reached(moves); s.settled[w] == Some(Signalled) && EventSet(s, e) && s.settled[c].Some?
  {
    hide Inv;
    UnharmedReached(moves, Reached(moves).ops[w].stream);
    HappensBefore(moves, c, e, w, o);
  }

  /** ... and so it was before the very step in which o began. */
  lemma EndedBeforeOrdinary(moves: seq<Move>, last: Move, c: Ticket, e: Ticket, w: Ticket, o: Ticket)
    requires Joined(Reached(moves), c, e, w, o) && !Begun(Reached(moves), o)
    requires Fits(Next(Reached(moves), last)) && |Next(Reached(moves), last).ops| > o && Begun(Next(Reached(moves), last), o)
    requires !Reached(moves).ops[w].op.timed && OrdinaryOn(moves, Reached(moves).ops[w].stream)
    ensures var s := Reached(moves); s.settled[w] == Some(Signalled) && EventSet(s, e) && s.settled[c].Some?
  {
    UnharmedReached(moves, Reached(moves).ops[w].stream);
    EndedBeforeBeginning(moves, last, c, e, w, o);
    assert TicketOk(Reached(moves), w);
    hide Inv, Next, Begun;
  }

  // ---------------------------------------------------------------- exactly

  /** At some moment of the run the operation was unfinished on its stream and the stream's worker
      was failing its queue. */
  ghost predicate Caught(moves: seq<Move>, t: Ticket) {
    exists k :: 0 <= k <= |moves| && CaughtIn(Reached(moves[..k]), t)
  }

  ghost predicate CaughtIn(s: Sys, t: Ticket) {
    t < |s.ops| && t < |s.settled| && s.settled[t].None? && s.ops[t].stream < |s.workers| && s.workers[s.ops[t].stream].life.Failing?
  }

  lemma OneFurther(moves: seq<Move>, k: nat)
    requires k < |moves|
    ensures Fits(Reached(moves[..k])) && Reached(moves[..k + 1]) == Next(Reached(moves[..k]), moves[k])
  {
    InitialInv();
    var s := Reached(moves[..k]);
    assert moves[..k + 1] == moves[..k] + [moves[k]];
    RunJoined(Initial(), moves[..k], [moves[k]]);
    StepKeeps(s, moves[k]);
    assert [moves[k]][1..] == [];
    hide WorkerOk, TicketOk, StopIsLast, Next;
  }

  /** An operation caught stays caught until it is dropped. */
  lemma CaughtStep(s: Sys, move: Move, t: Ticket)
    requires Inv(s) && CaughtIn(s, t) && !s.ops[t].op.Stop?
    ensures Inv(Next(s, move)) && t < |Next(s, move).settled| && (CaughtIn(Next(s, move), t) || Next(s, move).settled[t] == Some(Dropped))
  {
    StepFacts(s, move);
    var after := Next(s, move);
    assert TicketOk(s, t) && LifeStepped(s, after, s.ops[t].stream) && after.ops[t] == s.ops[t];
    hide Inv, WorkerOk, Next;
  }

  lemma {:induction false} CaughtDrops(moves: seq<Move>, k: nat, t: Ticket)
    requires k <= |moves| && CaughtIn(Reached(moves[..k]), t) && !Reached(moves[..k]).ops[t].op.Stop?
    ensures t < |Reached(moves).settled| && (CaughtIn(Reached(moves), t) || Reached(moves).settled[t] == Some(Dropped))
    decreases |moves| - k
  {
    if k == |moves| {
      assert moves[..k] == moves;
    } else {
      hide WorkerOk, TicketOk, StopIsLast, Next, Reached;
      var s := Reached(moves[..k]);
      OneFurther(moves, k);
      CaughtStep(s, moves[k], t);
      StepKeeps(s, moves[k]);
      if CaughtIn(Next(s, moves[k]), t) {
        CaughtDrops(moves, k + 1, t);
      } else {
        SettledStays(moves, k + 1, t);
      }
    }
  }

  lemma SettledStays(moves: seq<Move>, k: nat, t: Ticket)
    requires k <= |moves| && t < |Reached(moves[..k]).settled| && Reached(moves[..k]).settled[t].Some?
    ensures t < |Reached(moves).settled| && Reached(moves).settled[t] == Reached(moves[..k]).settled[t]
  {
    hide Inv;
    InitialInv();
    assert moves == moves[..k] + moves[k..];
    RunJoined(Initial(), moves[..k], moves[k..]);
  }

  lemma {:induction false} DroppedWasCaught(moves: seq<Move>, k: nat, t: Ticket)
    requires k <= |moves| && t < |Reached(moves[..k]).settled| && Reached(moves[..k]).settled[t] == Some(Dropped)
    ensures Caught(moves, t)
    decreases k
  {
    assert moves[..0] == [];
    if k > 0 {
      hide WorkerOk, TicketOk, StopIsLast, Next, Reached;
      var s := Reached(moves[..k - 1]);
      OneFurther(moves, k - 1);
      StepFacts(s, moves[k - 1]);
      DropStep(s, moves[k - 1], t);
      if t < |s.settled| && s.settled[t] == Some(Dropped) {
        DroppedWasCaught(moves, k - 1, t);
      }
    }
  }

  lemma DropStep(s: Sys, move: Move, t: Ticket)
    requires Inv(s) && Inv(Next(s, move)) && t < |Next(s, move).settled| && Next(s, move).settled[t] == Some(Dropped)
    ensures (t < |s.settled| && s.settled[t] == Some(Dropped)) || CaughtIn(s, t)
  {
    StepFacts(s, move);
    var after := Next(s, move);
    if t < |s.ops| {
      assert s.settled[t].None? ==> EndedNow(s, after, t);
      hide Inv, Next;
    } else {
      hide WorkerOk, TicketOk, StopIsLast, Worked;
    }
  }

  /** The exact condition.  When o has begun, the untimed wait before it ended by its event if and
      only if it was never caught on the queue of a failing worker; otherwise it was dropped. */
  lemma HappensBeforeExactly(moves: seq<Move>, c: Ticket, e: Ticket, w: Ticket, o: Ticket)
    requires Joined(Reached(moves), c, e, w, o) && Begun(Reached(moves), o) && !Reached(moves).ops[w].op.timed
    ensures var s := Reached(moves);
      (s.settled[w] == Some(Signalled) <==> !Caught(moves, w)) && (s.settled[w] == Some(Dropped) <==> Caught(moves, w)) &&
      (!Caught(moves, w) ==> EventSet(s, e) && s.settled[c].Some?)
  {
    HappensBefore(moves, c, e, w, o);
    hide Inv, Reached, Begun;
    assert moves[..|moves|] == moves;
    if Reached(moves).settled[w] == Some(Dropped) { DroppedWasCaught(moves, |moves|, w); }
    if Caught(moves, w) {
      var k :| 0 <= k <= |moves| && CaughtIn(Reached(moves[..k]), w);
      SameOp(moves, k, w);
      CaughtDrops(moves, k, w);
    }
  }

  lemma SameOp(moves: seq<Move>, k: nat, t: Ticket)
    requires k <= |moves| && t < |Reached(moves[..k]).ops|
    ensures t < |Reached(moves).ops| && Reached(moves).ops[t] == Reached(moves[..k]).ops[t]
  {
    hide Inv;
    InitialInv();
    assert moves == moves[..k] + moves[k..];
    RunJoined(Initial(), moves[..k], moves[k..]);
  }

  // ---------------------------------------------------------------- outcomes of calls

  /** The outcome of a call is the reply of the one step that ended it, made by its own worker while
      it had the call in its handler; or the call was dropped while its worker was failing. */
  lemma {:induction false} CallsEndWithReplies(moves: seq<Move>, n: nat, t: Ticket) returns (k: nat)
    requires n <= |moves| && t < |Reached(moves[..n]).ops| && Reached(moves[..n]).ops[t].op.Call? && Reached(moves[..n]).settled[t].Some?
    ensures k < n && EndedBy(Reached(moves[..k]), moves[k], t, Reached(moves[..n]).settled[t].value)
    decreases n
  {
    assert moves[..0] == [];
    if n == 0 {
      InitialInv();
      assert false;
    } else {
      hide WorkerOk, TicketOk, StopIsLast, Next, Reached;
      var s := Reached(moves[..n - 1]);
      OneFurther(moves, n - 1);
      StepKeeps(s, moves[n - 1]);
      if t < |s.ops| && s.settled[t].Some? {
        k := CallsEndWithReplies(moves, n - 1, t);
      } else {
        k := n - 1;
        EndsWithReply(s, moves[k], t);
      }
    }
  }

  ghost predicate EndedBy(s: Sys, move: Move, t: Ticket, outcome: Outcome) {
    t < |s.ops| && t < |s.settled| && s.settled[t].None? && move.Work? && move.stream == s.ops[t].stream && move.stream < |s.workers| &&
    if s.workers[move.stream].life.Failing? then outcome == Dropped
    else
      s.workers[move.stream].hand == Busy(t) &&
      outcome == match move.reply case Answer(x) => Value(x) case Ordinary(e) => Raised(e) case Fatal(e) => Raised(e)
  }

  lemma EndsWithReply(s: Sys, move: Move, t: Ticket)
    requires Inv(s) && Inv(Next(s, move)) && t < |Next(s, move).ops| && Next(s, move).ops[t].op.Call? && Next(s, move).settled[t].Some?
    requires t < |s.ops| ==> s.settled[t].None?
    ensures EndedBy(s, move, t, Next(s, move).settled[t].value)
  {
    var after := Next(s, move);
    StepKeeps(s, move);
    if t < |s.ops| {
      assert after.ops[t] == s.ops[t];
      if move.Work? && move.stream < |s.workers| && Ready(s, move.stream) {
        WorkFacts(s, move.stream, move.reply);
        assert WorkerOk(s, move.stream) && TicketOk(s, t);
        hide Inv, First;
      }
    }
  }
}
