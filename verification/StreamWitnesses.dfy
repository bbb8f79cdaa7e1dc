/** Short runs that reach the states in which a stream (src/rath/backend/stream.py) does not do
    what one would expect: query answering wrongly, a wait timing out, a wait hanging. */
module StreamWitnesses {
  import opened Models
  import opened Streams
  import opened StreamHangs

  /** A run through given states. */
  lemma {:induction false} Through(moves: seq<Move>, states: seq<Sys>)
    requires |states| == |moves| + 1 && Inv(states[0])
    requires forall k :: 0 <= k < |moves| ==> Fits(states[k]) && Next(states[k], moves[k]) == states[k + 1]
    ensures RunFrom(states[0], moves) == states[|moves|]
    decreases |moves|
  {
    hide WorkerOk, TicketOk, StopIsLast, Next;
    if moves != [] {
      assert Next(states[0], moves[0]) == states[1];
      StepKeeps(states[0], moves[0]);
      Through(moves[1..], states[1..]);
    }
  }

  // ---------------------------------------------------------------- steps by name

  function With(s: Sys, w: StreamId, worker: Worker): Sys
    requires w < |s.workers|
  {
    s.(workers := s.workers[w := worker])
  }

  /** The worker of stream w, if there is one. */
  predicate Has(s: Sys, w: StreamId, queue: seq<Ticket>, hand: Hand, life: Life) {
    Fits(s) && w < |s.workers| && s.workers[w] == Worker(queue, hand, false, life)
  }

  lemma Pops(s: Sys, w: StreamId, queue: seq<Ticket>, life: Life, reply: Reply)
    requires queue != [] && Has(s, w, queue, Empty, life) && (life.Alive? || life.Failing?)
    requires queue[0] < |s.ops| && !s.ops[queue[0]].op.Stop?
    ensures Next(s, Work(w, reply)) == With(s, w, Worker(queue[1..], Popped(queue[0]), false, life))
  {
  }

  lemma Starts(s: Sys, w: StreamId, queue: seq<Ticket>, t: Ticket, reply: Reply)
    requires Has(s, w, queue, Popped(t), Alive)
    ensures Next(s, Work(w, reply)) == With(s, w, Worker(queue, Busy(t), false, Alive))
  {
  }

  lemma Ends(s: Sys, w: StreamId, queue: seq<Ticket>, t: Ticket, reply: Reply)
    requires Has(s, w, queue, Busy(t), Alive) && Unblocked(s, t)
    ensures Next(s, Work(w, reply)) == With(s.(settled := s.settled[t := Some(Ending(s, t, reply))]), w,
                                            Worker(queue, Settled(t), false, if Kills(s, t, reply) then Failing else Alive))
  {
    hide Ending, Kills;
  }

  lemma Lowers(s: Sys, w: StreamId, queue: seq<Ticket>, t: Ticket, life: Life, reply: Reply)
    requires Has(s, w, queue, Settled(t), life) && (life.Alive? || life.Failing?)
    ensures Next(s, Work(w, reply)) == With(s, w, Worker(queue, Empty, false, life))
  {
  }

  lemma Drops(s: Sys, w: StreamId, queue: seq<Ticket>, t: Ticket, reply: Reply)
    requires Has(s, w, queue, Popped(t), Failing)
    ensures Next(s, Work(w, reply)) == With(s.(settled := s.settled[t := Some(Dropped)]), w, Worker(queue, Empty, false, Failing))
  {
  }

  lemma Dies(s: Sys, w: StreamId, reply: Reply)
    requires Has(s, w, [], Empty, Failing)
    ensures Next(s, Work(w, reply)) == With(s, w, Worker([], Empty, false, Dead))
  {
  }

  lemma Enters(s: Sys, w: StreamId, queue: seq<Ticket>, life: Life)
    requires Has(s, w, queue, Empty, life) && (life.Unstarted? || life.Dead?)
    ensures Next(s, Enter(w)) == With(s, w, Worker(queue, Empty, false, Alive))
  {
  }

  lemma Puts(s: Sys, w: StreamId, queue: seq<Ticket>, hand: Hand, life: Life, op: Op)
    requires Has(s, w, queue, hand, life) && Submittable(s, op)
    ensures Next(s, Submit(w, op))
      == With(Sys(s.ops + [Submission(w, op)], s.settled + [None], s.workers), w, Worker(queue + [|s.ops|], hand, false, life))
  {
  }

  // ---------------------------------------------------------------- query

  const A: Submission := Submission(0, Call("a"))
  const B: Submission := Submission(0, Call("b"))
  const Idly: Reply := Answer("")
  const Start: seq<Move> := [Open, Enter(0), Submit(0, Call("a")), Work(0, Idly), Work(0, Idly)]

  function One(ops: seq<Submission>, settled: seq<Option<Outcome>>, queue: seq<Ticket>, hand: Hand, life: Life): Sys {
    Sys(ops, settled, [Worker(queue, hand, false, life)])
  }

  /** The states of a stream that is opened and entered, given a call, and that pops and starts it. */
  function Starting(k: nat): Sys {
    if k == 0 then Initial()
    else if k == 1 then One([], [], [], Empty, Unstarted)
    else if k == 2 then One([], [], [], Empty, Alive)
    else if k == 3 then One([A], [None], [0], Empty, Alive)
    else if k == 4 then One([A], [None], [], Popped(0), Alive)
    else One([A], [None], [], Busy(0), Alive)
  }

  lemma StartingHops(k: nat)
    requires k < 5
    ensures Fits(Starting(k)) && Next(Starting(k), Start[k]) == Starting(k + 1)
  {
    var s := Starting(k);
    if k == 0 {
      assert Next(s, Open).workers == [Worker([], Empty, false, Unstarted)];
    } else {
      hide Next;
      if k == 1 { Enters(s, 0, [], Unstarted); }
      else if k == 2 { Puts(s, 0, [], Empty, Alive, Call("a")); }
      else if k == 3 { Pops(s, 0, [0], Alive, Idly); }
      else { Starts(s, 0, [], 0, Idly); }
    }
    var got, after := Next(s, Start[k]), Starting(k + 1);
    assert got.ops == after.ops && got.settled == after.settled && |got.workers| == |after.workers|;
    assert forall w :: 0 <= w < |got.workers| ==> got.workers[w].queue == after.workers[w].queue;
    assert got.workers == after.workers;
  }

  lemma StartingReached(k: nat)
    requires k <= 5
    ensures Reached(Start[..k]) == Starting(k)
  {
    hide WorkerOk, TicketOk, StopIsLast, Next, RunFrom;
    InitialInv();
    var states := seq(k + 1, j requires 0 <= j <= k => Starting(j));
    forall j | 0 <= j < k ensures Fits(states[j]) && Next(states[j], Start[..k][j]) == states[j + 1] { StartingHops(j); }
    assert states[0] == Initial() && states[k] == Starting(k);
    hide Starting;
    Through(Start[..k], states);
  }

  /** query says idle while the only operation, popped and not yet marked busy, has not ended. */
  lemma IdleTooEarly()
    ensures var s := Reached(Start[..4]); |s.workers| == 1 && QueryAnswer(s, 0) && LastPopped(s, 0) && !Ended(s, 0)
  {
    hide Reached, Inv, RunFrom, Fits;
    StartingReached(4);
    assert Starting(4).settled[0].None?;
  }

  lemma OneMore(s: Sys, move: Move)
    requires Inv(s)
    ensures Fits(s) && RunFrom(s, [move]) == Next(s, move)
  {
    StepKeeps(s, move);
    assert [move][1..] == [];
    hide WorkerOk, TicketOk, StopIsLast, Next;
  }

  /** A run that goes on from one that reached s. */
  lemma Onward(moves: seq<Move>, more: seq<Move>, states: seq<Sys>)
    requires |states| == |more| + 1 && states[0] == Reached(moves)
    requires forall k :: 0 <= k < |more| ==> Fits(states[k]) && Next(states[k], more[k]) == states[k + 1]
    ensures Reached(moves + more) == states[|more|]
  {
    hide Next, WorkerOk, TicketOk, StopIsLast;
    InitialInv();
    RunJoined(Initial(), moves, more);
    Through(more, states);
  }

  /** query says busy when everything has ended and the flag is not yet lowered. */
  lemma BusyTooLong()
    ensures var s := Reached(Start + [Work(0, Idly)]); |s.workers| == 1 && !QueryAnswer(s, 0) && FlagStillUp(s, 0) && Ended(s, 0)
  {
    hide Inv, RunFrom, Next, Reached;
    StartingReached(5);
    assert Start[..5] == Start;
    var s := Starting(5);
    Ends(s, 0, [], 0, Idly);
    var after := With(s.(settled := s.settled[0 := Some(Value(""))]), 0, Worker([], Settled(0), false, Alive));
    Onward(Start, [Work(0, Idly)], [s, after]);
  }

  const Death: seq<Move> := [Submit(0, Call("b")), Work(0, Fatal("")), Work(0, Idly), Work(0, Idly)]

  /** The states of the same stream when a second call arrives, the first one meets a fatal error
      and the worker pops the second to fail it. */
  function Dying(k: nat): Sys {
    if k == 0 then Starting(5)
    else if k == 1 then One([A, B], [None, None], [1], Busy(0), Alive)
    else if k == 2 then One([A, B], [Some(Raised("")), None], [1], Settled(0), Failing)
    else if k == 3 then One([A, B], [Some(Raised("")), None], [1], Empty, Failing)
    else One([A, B], [Some(Raised("")), None], [], Popped(1), Failing)
  }

  lemma DyingHops(k: nat)
    requires k < 4
    ensures Fits(Dying(k)) && Next(Dying(k), Death[k]) == Dying(k + 1)
  {
    hide Next;
    var s := Dying(k);
    if k == 0 { Puts(s, 0, [], Busy(0), Alive, Call("b")); }
    else if k == 1 { Ends(s, 0, [1], 0, Fatal("")); }
    else if k == 2 { Lowers(s, 0, [1], 0, Failing, Idly); }
    else { Pops(s, 0, [1], Failing, Idly); }
    var got, after := Next(s, Death[k]), Dying(k + 1);
    assert got.ops == after.ops && got.settled == after.settled && |got.workers| == |after.workers|;
    assert forall w :: 0 <= w < |got.workers| ==> got.workers[w].queue == after.workers[w].queue;
    assert got.workers == after.workers;
  }

  /** query says idle while a failing worker has popped the last operation and not yet failed it. */
  lemma IdleWhileFailing()
    ensures var s := Reached(Start + Death); |s.workers| == 1 && QueryAnswer(s, 0) && LastPopped(s, 0) && !Ended(s, 0) && s.workers[0].life.Failing?
  {
    hide Inv, Next, RunFrom, Reached, Fits;
    StartingReached(5);
    assert Start[..5] == Start;
    var states := seq(5, j requires 0 <= j <= 4 => Dying(j));
    forall j | 0 <= j < 4 ensures Fits(states[j]) && Next(states[j], Death[j]) == states[j + 1] { DyingHops(j); }
    Onward(Start, Death, states);
    assert Dying(4).settled[1].None?;
  }

  // ---------------------------------------------------------------- waits

  /** A call and an event on the first stream, which is not entered; a wait for the event and a call
      on the second. */
  function Ops(timed: bool): seq<Submission> {
    [Submission(0, Call("a")), Submission(0, Record), Submission(1, Wait(1, timed)), Submission(1, Call("b"))]
  }

  const Pair: seq<Move> := [Open, Open, Enter(1), Submit(0, Call("a")), Submit(0, Record)]

  function Two(ops: seq<Submission>, settled: seq<Option<Outcome>>, a: Worker, b: Worker): Sys {
    Sys(ops, settled, [a, b])
  }

  const Fresh: Worker := Worker([], Empty, false, Unstarted)
  const Live: Worker := Worker([], Empty, false, Alive)
  const Loaded: Worker := Worker([0, 1], Empty, false, Unstarted)

  function Pairing(k: nat): Sys {
    if k == 0 then Initial()
    else if k == 1 then Sys([], [], [Fresh])
    else if k == 2 then Two([], [], Fresh, Fresh)
    else if k == 3 then Two([], [], Fresh, Live)
    else if k == 4 then Two([A], [None], Worker([0], Empty, false, Unstarted), Live)
    else Two([A, Submission(0, Record)], [None, None], Loaded, Live)
  }

  lemma PairingHops(k: nat)
    requires k < 5
    ensures Fits(Pairing(k)) && Next(Pairing(k), Pair[k]) == Pairing(k + 1)
  {
    var s := Pairing(k);
    if k < 2 {
      assert Next(s, Open).workers == Pairing(k + 1).workers;
    } else {
      hide Next;
      if k == 2 { Enters(s, 1, [], Unstarted); }
      else if k == 3 { Puts(s, 0, [], Empty, Unstarted, Call("a")); }
      else { Puts(s, 0, [0], Empty, Unstarted, Record); }
    }
    var got, after := Next(s, Pair[k]), Pairing(k + 1);
    assert got.ops == after.ops && got.settled == after.settled && |got.workers| == |after.workers|;
    assert forall w :: 0 <= w < |got.workers| ==> got.workers[w].queue == after.workers[w].queue;
    assert got.workers == after.workers;
  }

  lemma PairReached()
    ensures Reached(Pair) == Pairing(5)
  {
    hide WorkerOk, TicketOk, StopIsLast, Next, RunFrom;
    InitialInv();
    var states := seq(6, j requires 0 <= j <= 5 => Pairing(j));
    forall j | 0 <= j < 5 ensures Fits(states[j]) && Next(states[j], Pair[j]) == states[j + 1] { PairingHops(j); }
    assert states[0] == Initial() && states[5] == Pairing(5);
    hide Pairing;
    Through(Pair, states);
  }

  /** The second stream gets a wait and a call and enters the wait. */
  function Waits(timed: bool): seq<Move> {
    [Submit(1, Wait(1, timed)), Submit(1, Call("b")), Work(1, Idly), Work(1, Idly)]
  }

  const Nones: seq<Option<Outcome>> := [None, None, None, None]
  const Blocked: Worker := Worker([3], Busy(2), false, Alive)

  function Waited(timed: bool, k: nat): Sys {
    if k == 0 then Pairing(5)
    else if k == 1 then Two(Ops(timed)[..3], [None, None, None], Loaded, Worker([2], Empty, false, Alive))
    else if k == 2 then Two(Ops(timed), Nones, Loaded, Worker([2, 3], Empty, false, Alive))
    else if k == 3 then Two(Ops(timed), Nones, Loaded, Worker([3], Popped(2), false, Alive))
    else Two(Ops(timed), Nones, Loaded, Blocked)
  }

  lemma WaitedSubmits(timed: bool, k: nat)
    requires k < 2
    ensures Fits(Waited(timed, k)) && Next(Waited(timed, k), Waits(timed)[k]) == Waited(timed, k + 1)
  {
    hide Next;
    var s := Waited(timed, k);
    if k == 0 { Puts(s, 1, [], Empty, Alive, Wait(1, timed)); } else { Puts(s, 1, [2], Empty, Alive, Call("b")); }
    var got, after := Next(s, Waits(timed)[k]), Waited(timed, k + 1);
    assert got.ops == after.ops && got.settled == after.settled && |got.workers| == |after.workers|;
    assert forall w :: 0 <= w < |got.workers| ==> got.workers[w].queue == after.workers[w].queue;
    assert got.workers == after.workers;
  }

  lemma WaitedServes(timed: bool, k: nat)
    requires 2 <= k < 4
    ensures Fits(Waited(timed, k)) && Next(Waited(timed, k), Waits(timed)[k]) == Waited(timed, k + 1)
  {
    hide Next;
    var s := Waited(timed, k);
    if k == 2 { Pops(s, 1, [2, 3], Alive, Idly); } else { Starts(s, 1, [3], 2, Idly); }
    var got, after := Next(s, Waits(timed)[k]), Waited(timed, k + 1);
    assert got.ops == after.ops && got.settled == after.settled && |got.workers| == |after.workers|;
    assert forall w :: 0 <= w < |got.workers| ==> got.workers[w].queue == after.workers[w].queue;
    assert got.workers == after.workers;
  }

  lemma WaitedReached(timed: bool)
    ensures Reached(Pair + Waits(timed)) == Waited(timed, 4)
  {
    hide Inv, Next, RunFrom, Reached, Fits;
    PairReached();
    var states := seq(5, j requires 0 <= j <= 4 => Waited(timed, j));
    forall j | 0 <= j < 4 ensures Fits(states[j]) && Next(states[j], Waits(timed)[j]) == states[j + 1] {
      if j < 2 { WaitedSubmits(timed, j); } else { WaitedServes(timed, j); }
    }
    hide Waited;
    Onward(Pair, Waits(timed), states);
  }

  /** A timed wait in its handler, its event unset, with a call behind it: TimeoutOvertakes applies. */
  lemma TimeoutHappens()
    ensures var s := Reached(Pair + Waits(true));
      |s.workers| == 2 && Ready(s, 1) && s.workers[1] == Worker([3], Busy(2), false, Alive) &&
      Joined(s, 0, 1, 2, 3) && !EventSet(s, 1) && s.settled[0].None?
  {
    hide Reached, Inv, RunFrom, Fits;
    WaitedReached(true);
  }

  /** Then the first stream starts, and its call meets a fatal error. */
  const Crash: seq<Move> := [Enter(0), Work(0, Idly), Work(0, Idly), Work(0, Fatal(""))]

  function Crashed(k: nat): Sys {
    if k == 0 then Waited(false, 4)
    else if k == 1 then Two(Ops(false), Nones, Worker([0, 1], Empty, false, Alive), Blocked)
    else if k == 2 then Two(Ops(false), Nones, Worker([1], Popped(0), false, Alive), Blocked)
    else if k == 3 then Two(Ops(false), Nones, Worker([1], Busy(0), false, Alive), Blocked)
    else Two(Ops(false), [Some(Raised("")), None, None, None], Worker([1], Settled(0), false, Failing), Blocked)
  }

  lemma CrashedHops(k: nat)
    requires k < 4
    ensures Fits(Crashed(k)) && Next(Crashed(k), Crash[k]) == Crashed(k + 1)
  {
    hide Next;
    var s := Crashed(k);
    if k == 0 { Enters(s, 0, [0, 1], Unstarted); }
    else if k == 1 { Pops(s, 0, [0, 1], Alive, Idly); }
    else if k == 2 { Starts(s, 0, [1], 0, Idly); }
    else { Ends(s, 0, [1], 0, Fatal("")); }
    var got, after := Next(s, Crash[k]), Crashed(k + 1);
    assert got.ops == after.ops && got.settled == after.settled && |got.workers| == |after.workers|;
    assert forall w :: 0 <= w < |got.workers| ==> got.workers[w].queue == after.workers[w].queue;
    assert got.workers == after.workers;
  }

  /** An untimed wait on a stream that is entered, open and alive hangs once the other stream's
      worker meets a fatal error before recording the event, and so does what is behind it. */
  lemma WaitHangs()
    ensures var s := Reached(Pair + Waits(false) + Crash);
      |s.workers| == 2 && s.workers[1].life.Alive? && !s.workers[1].closed && Hangs(s, 2) && Hangs(s, 3)
  {
    hide Reached, Doomed, Hangs, Inv, Fits, Next, RunFrom;
    WaitedReached(false);
    var states := seq(5, j requires 0 <= j <= 4 => Crashed(j));
    forall j | 0 <= j < 4 ensures Fits(states[j]) && Next(states[j], Crash[j]) == states[j + 1] { CrashedHops(j); }
    Onward(Pair + Waits(false), Crash, states);
    CrashedDoomed();
    HangsExactly(Pair + Waits(false) + Crash, 2);
    HangsExactly(Pair + Waits(false) + Crash, 3);
  }

  lemma CrashedDoomed()
    ensures var s := Crashed(4); Fits(s) && Doomed(s, 2) && Doomed(s, 3)
  {
    var s := Crashed(4);
    assert Mute(s, 1);
    assert Stuck(s, 2);
    assert Blocks(s, 2);
    assert SameStream(s, 2, 2) && SameStream(s, 2, 3);
  }

  // ---------------------------------------------------------------- order lost

  /** The second stream gets a call and a wait; the call meets a fatal error, the worker drops the
      wait and ends; the stream is entered again and given another call, which is popped. */
  const Reentry: seq<Move> :=
    [Submit(1, Call("x")), Submit(1, Wait(1, false)), Work(1, Idly), Work(1, Idly), Work(1, Fatal("")), Work(1, Idly),
     Work(1, Idly), Work(1, Idly), Work(1, Idly), Enter(1), Submit(1, Call("b")), Work(1, Idly)]

  const Late: seq<Submission> :=
    [Submission(0, Call("a")), Submission(0, Record), Submission(1, Call("x")), Submission(1, Wait(1, false)), Submission(1, Call("b"))]

  const Hit: seq<Option<Outcome>> := [None, None, Some(Raised("")), None]
  const Lost: seq<Option<Outcome>> := [None, None, Some(Raised("")), Some(Dropped)]

  function Reentered(k: nat): Sys {
    if k == 0 then Pairing(5)
    else if k == 1 then Two(Late[..3], [None, None, None], Loaded, Worker([2], Empty, false, Alive))
    else if k == 2 then Two(Late[..4], Nones, Loaded, Worker([2, 3], Empty, false, Alive))
    else if k == 3 then Two(Late[..4], Nones, Loaded, Worker([3], Popped(2), false, Alive))
    else if k == 4 then Two(Late[..4], Nones, Loaded, Worker([3], Busy(2), false, Alive))
    else if k == 5 then Two(Late[..4], Hit, Loaded, Worker([3], Settled(2), false, Failing))
    else if k == 6 then Two(Late[..4], Hit, Loaded, Worker([3], Empty, false, Failing))
    else if k == 7 then Two(Late[..4], Hit, Loaded, Worker([], Popped(3), false, Failing))
    else if k == 8 then Two(Late[..4], Lost, Loaded, Worker([], Empty, false, Failing))
    else if k == 9 then Two(Late[..4], Lost, Loaded, Worker([], Empty, false, Dead))
    else if k == 10 then Two(Late[..4], Lost, Loaded, Live)
    else if k == 11 then Two(Late, Lost + [None], Loaded, Worker([4], Empty, false, Alive))
    else Two(Late, Lost + [None], Loaded, Worker([], Popped(4), false, Alive))
  }

  lemma ReentrySubmits(k: nat)
    requires k < 2
    ensures Fits(Reentered(k)) && Next(Reentered(k), Reentry[k]) == Reentered(k + 1)
  {
    hide Next;
    var s := Reentered(k);
    if k == 0 { Puts(s, 1, [], Empty, Alive, Call("x")); } else { Puts(s, 1, [2], Empty, Alive, Wait(1, false)); }
    var got, after := Next(s, Reentry[k]), Reentered(k + 1);
    assert got.ops == after.ops && got.settled == after.settled && |got.workers| == |after.workers|;
    assert forall w :: 0 <= w < |got.workers| ==> got.workers[w].queue == after.workers[w].queue;
    assert got.workers == after.workers;
  }

  lemma ReentryServes(k: nat)
    requires 2 <= k < 6
    ensures Fits(Reentered(k)) && Next(Reentered(k), Reentry[k]) == Reentered(k + 1)
  {
    hide Next;
    var s := Reentered(k);
    if k == 2 { Pops(s, 1, [2, 3], Alive, Idly); }
    else if k == 3 { Starts(s, 1, [3], 2, Idly); }
    else if k == 4 { Ends(s, 1, [3], 2, Fatal("")); }
    else { Lowers(s, 1, [3], 2, Failing, Idly); }
    var got, after := Next(s, Reentry[k]), Reentered(k + 1);
    assert got.ops == after.ops && got.settled == after.settled && |got.workers| == |after.workers|;
    assert forall w :: 0 <= w < |got.workers| ==> got.workers[w].queue == after.workers[w].queue;
    assert got.workers == after.workers;
  }

  lemma ReentryFails(k: nat)
    requires 6 <= k < 12
    ensures Fits(Reentered(k)) && Next(Reentered(k), Reentry[k]) == Reentered(k + 1)
  {
    hide Next;
    var s := Reentered(k);
    if k == 6 { Pops(s, 1, [3], Failing, Idly); }
    else if k == 7 { Drops(s, 1, [], 3, Idly); }
    else if k == 8 { Dies(s, 1, Idly); }
    else if k == 9 { Enters(s, 1, [], Dead); }
    else if k == 10 { Puts(s, 1, [], Empty, Alive, Call("b")); }
    else { Pops(s, 1, [4], Alive, Idly); }
    var got, after := Next(s, Reentry[k]), Reentered(k + 1);
    assert got.ops == after.ops && got.settled == after.settled && |got.workers| == |after.workers|;
    assert forall w :: 0 <= w < |got.workers| ==> got.workers[w].queue == after.workers[w].queue;
    assert got.workers == after.workers;
  }

  /** A fatal error on the waiting stream loses the order: an operation put on it after an untimed
      wait begins with the event unset and the call before the event unfinished. */
  lemma ReentryLosesOrder()
    ensures var s := Reached(Pair + Reentry);
      Joined(s, 0, 1, 3, 4) && !s.ops[3].op.timed && Begun(s, 4) && !EventSet(s, 1) && s.settled[0].None?
  {
    hide Reached, Inv, Next, RunFrom;
    PairReached();
    var states := seq(13, j requires 0 <= j <= 12 => Reentered(j));
    forall j | 0 <= j < 12 ensures Fits(states[j]) && Next(states[j], Reentry[j]) == states[j + 1] {
      if j < 2 { ReentrySubmits(j); } else if j < 6 { ReentryServes(j); } else { ReentryFails(j); }
    }
    Onward(Pair, Reentry, states);
  }

  /** When a wait times out, the next operation of its stream begins with the event still unset. */
  lemma TimeoutOvertakes(s: Sys, w: StreamId)
    requires Inv(s) && w < |s.workers| && s.workers[w].hand.Busy? && Ready(s, w) && s.workers[w].queue != []
    requires s.ops[s.workers[w].hand.t].op.Wait? && !EventSet(s, s.ops[s.workers[w].hand.t].op.event)
    ensures var e := s.ops[s.workers[w].hand.t].op.event; var o := s.workers[w].queue[0];
      var end := RunFrom(s, [Work(w, Answer("")), Work(w, Answer("")), Work(w, Answer(""))]);
      o < |end.ops| && Begun(end, o) && !EventSet(end, e)
  {
    var move := Work(w, Answer(""));
    var e := s.ops[s.workers[w].hand.t].op.event;
    var left, idle := Next(s, move), Next(Next(s, move), move);
    LeavesWait(s, w);
    LowersFlag(left, w, e);
    TakesNext(idle, w, e);
    hide WorkerOk, TicketOk, StopIsLast, Next, Ready, Begun, EventSet;
    assert [move, move, move][1..] == [move, move] && [move, move][1..] == [move];
    OneMore(idle, move);
    assert RunFrom(left, [move, move]) == RunFrom(idle, [move]);
  }

  lemma LeavesWait(s: Sys, w: StreamId)
    requires Inv(s) && w < |s.workers| && s.workers[w].hand.Busy? && Ready(s, w) && s.workers[w].queue != []
    requires s.ops[s.workers[w].hand.t].op.Wait? && !EventSet(s, s.ops[s.workers[w].hand.t].op.event)
    ensures var left := Next(s, Work(w, Answer(""))); var e := s.ops[s.workers[w].hand.t].op.event;
      Inv(left) && left.ops == s.ops && w < |left.workers| && left.workers[w].queue == s.workers[w].queue && left.workers[w].hand.Settled?
      && left.workers[w].life.Alive? && !EventSet(left, e) && e < |s.ops| && s.ops[e].op.Record?
  {
    StepKeeps(s, Work(w, Answer("")));
    WorkFacts(s, w, Answer(""));
    assert WorkerOk(s, w) && TicketOk(s, s.workers[w].hand.t);
    hide Inv, WorkerOk, StopIsLast, First;
  }

  lemma LowersFlag(s: Sys, w: StreamId, e: Ticket)
    requires Inv(s) && w < |s.workers| && s.workers[w].hand.Settled? && s.workers[w].life.Alive? && !EventSet(s, e)
    ensures var idle := Next(s, Work(w, Answer("")));
      Inv(idle) && idle.ops == s.ops && w < |idle.workers| && idle.workers[w].queue == s.workers[w].queue && idle.workers[w].hand.Empty?
      && idle.workers[w].life.Alive? && !EventSet(idle, e)
  {
    StepKeeps(s, Work(w, Answer("")));
    hide WorkerOk, TicketOk, StopIsLast;
  }

  lemma TakesNext(s: Sys, w: StreamId, e: Ticket)
    requires Inv(s) && w < |s.workers| && s.workers[w].queue != [] && s.workers[w].hand.Empty? && s.workers[w].life.Alive? && !EventSet(s, e)
    requires e < |s.ops| && s.ops[e].op.Record?
    ensures var after := Next(s, Work(w, Answer(""))); var o := s.workers[w].queue[0];
      Inv(after) && after.ops == s.ops && o < |s.ops| && Begun(after, o) && !EventSet(after, e)
  {
    StepKeeps(s, Work(w, Answer("")));
    WorkFacts(s, w, Answer(""));
    assert WorkerOk(s, w) && Pending(s, w, s.workers[w].queue[0]);
    hide Inv, TicketOk, StopIsLast, First;
  }
}
