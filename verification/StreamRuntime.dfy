/** The public methods of a stream and its worker loop (src/rath/backend/stream.py), over the
    queues, flags, futures and events that the threads of one process share. */
module StreamRuntime {
  import opened Models
  import opened Sums
  import opened Streams

  class StreamSet {
    var ops: seq<Submission>
    var settled: seq<Option<Outcome>>
    var workers: seq<Worker>

    ghost function State(): Sys
      reads this
    {
      Sys(ops, settled, workers)
    }

    ghost predicate Valid()
      reads this
    {
      Inv(State())
    }

    constructor ()
      ensures Valid() && State() == Initial()
    {
      ops, settled, workers := [], [], [];
      new;
      InitialInv();
    }

    /** Submit, record_event, wait_event and the first half of synchronize put an operation under
        the stream's lock; None is the "stream is closed" error. */
    method Enqueue(w: StreamId, op: Op) returns (t: Option<Ticket>)
      requires Valid() && w < |workers| && Submittable(State(), op)
      modifies this
      ensures Valid() && State() == Next(old(State()), Submit(w, op))
      ensures t == if old(workers[w].closed) then None else Some(|old(ops)|)
      ensures t.Some? ==>
        ops == old(ops) + [Submission(w, op)] && settled == old(settled) + [None] &&
        workers == old(workers)[w := old(workers[w]).(queue := old(workers[w]).queue + [t.value])]
      ensures t.None? ==> State() == old(State())
    {
      StepKeeps(State(), Submit(w, op));
      if workers[w].closed { return None; }
      t := Some(|ops|);
      workers := workers[w := workers[w].(queue := workers[w].queue + [|ops|])];
      ops, settled := ops + [Submission(w, op)], settled + [None];
    }

    /** wait_stream: record an event on the other stream, then wait for it here.  When only this
        stream is closed the call fails but the event has been put on the other one. */
    method WaitStream(w: StreamId, other: StreamId) returns (t: Option<Ticket>)
      requires Valid() && w < |workers| && other < |workers|
      modifies this
      ensures Valid()
      ensures t.Some? <==> !old(workers[w].closed) && !old(workers[other].closed)
      ensures old(workers[other].closed) ==> State() == old(State())
      ensures !old(workers[other].closed) ==> |ops| > |old(ops)| && ops[|old(ops)|] == Submission(other, Record)
      ensures t.Some? ==> t.value == |old(ops)| + 1 && ops == old(ops) + [Submission(other, Record), Submission(w, Wait(|old(ops)|, false))]
      ensures Extends(old(State()), State())
    {
      ghost var before := State();
      StepKeeps(before, Submit(other, Record));
      var event := Enqueue(other, Record);
      ghost var middle := State();
      if event.None? { return None; }
      StepKeeps(middle, Submit(w, Wait(event.value, false)));
      t := Enqueue(w, Wait(event.value, false));
      ExtendsOn(before, middle, State());
    }

    /** A new stream: nothing queued, no thread yet. */
    method Add() returns (w: StreamId)
      requires Valid()
      modifies this
      ensures Valid() && State() == Next(old(State()), Open) && w == |old(workers)| && w < |workers| && Ended(State(), w)
    {
      hide WorkerOk, StopIsLast, TicketOk;
      StepKeeps(State(), Open);
      StreamsExist(State());
      w := |workers|;
      workers := workers + [Worker([], Empty, false, Unstarted)];
    }

    /** __enter__ on a stream that no thread serves: refused exactly when the stream is closed. */
    method StartWorker(w: StreamId) returns (ok: bool)
      requires Valid() && w < |workers| && (workers[w].closed || Enterable(workers[w]))
      modifies this
      ensures Valid() && State() == Next(old(State()), Enter(w))
      ensures ok <==> !old(workers[w].closed)
      ensures ok ==> workers[w].life.Alive?
      ensures ops == old(ops) && settled == old(settled) && workers == if ok then old(workers)[w := old(workers[w]).(life := Alive)] else old(workers)
    {
      StepKeeps(State(), Enter(w));
      if workers[w].closed { return false; }
      workers := workers[w := workers[w].(life := Alive)];
      return true;
    }

    /** A closed stream raises.  Otherwise the answer is yes when everything put on the stream has
        ended, unless the flag of the last operation is still up, and also, wrongly, while the last
        operation has been popped and is neither marked busy nor ended. */
    method Query(w: StreamId) returns (idle: Option<bool>)
      requires Valid() && w < |workers|
      ensures idle.None? <==> workers[w].closed
      ensures idle == Some(true) ==> Ended(State(), w) || LastPopped(State(), w)
      ensures idle == Some(false) ==> !Ended(State(), w) || FlagStillUp(State(), w)
      ensures idle.Some? && LastPopped(State(), w) ==> idle == Some(true)
      ensures idle.Some? && FlagStillUp(State(), w) ==> idle == Some(false)
    {
      QueryMeaning(State(), w);
      if workers[w].closed { return None; }
      idle := Some(workers[w].queue == [] && !workers[w].hand.Busy? && !workers[w].hand.Settled?);
    }

    /** __exit__ up to joining the worker: close and put the stop marker, once. */
    method Close(w: StreamId)
      requires Valid() && w < |workers|
      modifies this
      ensures Valid() && State() == Next(old(State()), Exit(w)) && workers[w].closed
      ensures old(workers[w].closed) ==> State() == old(State())
      ensures !old(workers[w].closed) ==>
        ops == old(ops) + [Submission(w, Stop)] && settled == old(settled) + [None] &&
        workers == old(workers)[w := old(workers[w]).(queue := old(workers[w]).queue + [|old(ops)|], closed := true)]
    {
      StepKeeps(State(), Exit(w));
      if workers[w].closed { return; }
      workers := workers[w := workers[w].(queue := workers[w].queue + [|ops|], closed := true)];
      ops, settled := ops + [Submission(w, Stop)], settled + [None];
    }

    /** One step of a worker thread that is not blocked, whatever the sandbox replies: pop, raise
        the flag, set the outcome, lower the flag; while failing, pop, fail what was popped, end. */
    method Advance(w: StreamId, reply: Reply)
      requires Valid() && w < |workers| && Ready(State(), w)
      modifies this
      ensures Valid() && State() == Next(old(State()), Work(w, reply)) && Measure(State()) < Measure(old(State()))
      ensures ops == old(ops) && |workers| == |old(workers)| && forall v :: 0 <= v < |workers| && v != w ==> workers[v] == old(workers)[v]
      ensures workers[w].closed == old(workers)[w].closed
      ensures old(workers)[w].hand.Busy? ==> var t := old(workers)[w].hand.t; var wk := workers[w];
        t < |ops| && |settled| == |old(settled)| && wk.hand == Settled(t) && wk.queue == old(workers)[w].queue &&
        settled == old(settled)[t := settled[t]] && settled[t].Some? &&
        match ops[t].op
        case Call(_) =>
          (forall x :: settled[t] == Some(Value(x)) <==> reply == Answer(x)) &&
          (forall e :: settled[t] == Some(Raised(e)) <==> reply == Ordinary(e) || reply == Fatal(e)) &&
          wk.life == if reply.Fatal? then Failing else Alive
        case Wait(e, _) => wk.life.Alive? && e < |settled| && settled[t].value == if old(settled)[e] == Some(Signalled) then Signalled else Expired
        case _ => wk.life.Alive? && settled[t].value == Signalled
      ensures old(workers)[w].hand.Popped? ==> var t := old(workers)[w].hand.t; var wk := workers[w];
        wk.queue == old(workers)[w].queue && wk.life == old(workers)[w].life &&
        if wk.life.Alive? then wk.hand == Busy(t) && settled == old(settled)
        else wk.hand == Empty && t < |old(settled)| && settled == old(settled)[t := Some(Dropped)]
      ensures old(workers)[w].hand.Settled? ==>
        workers[w] == old(workers)[w].(hand := Empty) && settled == old(settled)
      ensures old(workers)[w].hand.Empty? && old(workers)[w].queue == [] ==>
        workers[w] == old(workers)[w].(life := Dead) && settled == old(settled)
      ensures old(workers)[w].hand.Empty? && old(workers)[w].queue != [] ==> var q := old(workers)[w].queue; var wk := workers[w];
        q[0] < |ops| && wk.queue == q[1..] &&
        if ops[q[0]].op.Stop?
        then wk.hand == Empty && wk.life == (if old(workers)[w].life.Alive? then Exited else Dead) && q[0] < |old(settled)| && settled == old(settled)[q[0] := Some(Signalled)]
        else wk.hand == Popped(q[0]) && wk.life == old(workers)[w].life && settled == old(settled)
    {
      hide WorkerOk, TicketOk, StopIsLast, Measure, Ending, Kills;
      WorkProgresses(State(), w, reply);
      HandOfLive(State(), w);
      var worker := workers[w];
      match worker.hand {
        case Empty =>
          if worker.queue == [] {
            workers := workers[w := worker.(life := Dead)];
          } else {
            Pop(w, reply);
          }
        case Popped(t) =>
          if worker.life.Alive? {
            workers := workers[w := worker.(hand := Busy(t))];
          } else {
            settled := settled[t := Some(Dropped)];
            workers := workers[w := worker.(hand := Empty)];
          }
        case Busy(t) =>
          Handle(w, t, reply);
        case Settled(_) =>
          workers := workers[w := worker.(hand := Empty)];
      }
    }

    /** Take the next operation off the queue; the stop marker ends the thread. */
    method Pop(w: StreamId, reply: Reply)
      requires Fits(State()) && w < |workers| && workers[w].hand.Empty? && workers[w].queue != []
      modifies this
      ensures State() == Worked(old(State()), w, reply) && ops == old(ops)
      ensures old(workers)[w].queue[0] < |ops| && |settled| == |old(settled)|
      ensures var q := old(workers)[w].queue;
        if ops[q[0]].op.Stop?
        then workers == old(workers)[w := old(workers)[w].(queue := q[1..], life := if old(workers)[w].life.Alive? then Exited else Dead)]
          && settled == old(settled)[q[0] := Some(Signalled)]
        else workers == old(workers)[w := old(workers)[w].(queue := q[1..], hand := Popped(q[0]))] && settled == old(settled)
    {
      var worker := workers[w];
      var t, rest := worker.queue[0], worker.queue[1..];
      assert t in worker.queue;
      if ops[t].op.Stop? {
        settled := settled[t := Some(Signalled)];
        workers := workers[w := worker.(queue := rest, life := if worker.life.Alive? then Exited else Dead)];
      } else {
        workers := workers[w := worker.(queue := rest, hand := Popped(t))];
      }
    }

    /** Run the handler of the operation in hand to its end. */
    method Handle(w: StreamId, t: Ticket, reply: Reply)
      requires Fits(State()) && w < |workers| && workers[w].hand == Busy(t) && workers[w].life.Alive? && (ops[t].op.Wait? ==> ops[t].op.event < t)
      modifies this
      ensures State() == Worked(old(State()), w, reply) && ops == old(ops)
      ensures t < |settled| == |old(settled)| && settled == old(settled)[t := settled[t]] && settled[t].Some?
      ensures workers == old(workers)[w := old(workers)[w].(hand := Settled(t), life := if ops[t].op.Call? && reply.Fatal? then Failing else Alive)]
      ensures match ops[t].op
        case Call(_) =>
          (forall x :: settled[t] == Some(Value(x)) <==> reply == Answer(x)) &&
          (forall e :: settled[t] == Some(Raised(e)) <==> reply == Ordinary(e) || reply == Fatal(e))
        case Wait(e, _) => e < |settled| && settled[t].value == if old(settled)[e] == Some(Signalled) then Signalled else Expired
        case _ => settled[t].value == Signalled
    {
      var worker := workers[w];
      var outcome, life := Signalled, worker.life;
      match ops[t].op {
        case Call(_) =>
          outcome := if reply.Answer? then Value(reply.text) else Raised(reply.error);
          life := if reply.Fatal? then Failing else worker.life;
        case Wait(e, _) => outcome := if e < |settled| && settled[e] == Some(Signalled) then Signalled else Expired;
        case _ =>
      }
      settled := settled[t := Some(outcome)];
      workers := workers[w := worker.(hand := Settled(t), life := life)];
    }

    /** Let the workers run, in any order, until all of them block.  With waits only on recorded
        events and dispatches that return or raise ordinary errors, everything submitted has then ended. */
    method Drain(sandbox: Ticket -> Reply)
      requires Valid() && Served(State()) && forall t :: !sandbox(t).Fatal?
      modifies this
      ensures Valid() && ops == old(ops) && Drained(State()) && Extends(old(State()), State())
      ensures |settled| == |old(settled)| && forall t: Ticket :: t < |ops| && ops[t].op.Call? && old(settled)[t].None? ==>
        settled[t] == Some(match sandbox(t) case Answer(x) => Value(x) case Ordinary(e) => Raised(e) case Fatal(e) => Raised(e))
    {
      hide WorkerOk, TicketOk, StopIsLast, Served, Drained, Extends, Ready, Measure;
      SameExtends(State());
      while exists w :: 0 <= w < |workers| && Ready(Sys(ops, settled, workers), w)
        invariant Valid() && Served(State()) && ops == old(ops) && Extends(old(State()), State())
        invariant |settled| == |old(settled)| && forall t: Ticket :: t < |ops| ==> Told(ops, old(settled), settled, sandbox, t)
        decreases Measure(State())
      {
        var w :| 0 <= w < |workers| && Ready(Sys(ops, settled, workers), w);
        ghost var before := State();
        var reply := Answer("");
        if workers[w].hand.Busy? { reply := sandbox(workers[w].hand.t); }
        StepKeeps(before, Work(w, reply));
        WorkServes(before, w, reply);
        WorkProgresses(before, w, reply);
        ExtendsOn(old(State()), before, Next(before, Work(w, reply)));
        ServedAlive(before, w);
        Advance(w, reply);
        forall t: Ticket | t < |ops| ensures Told(ops, old(settled), settled, sandbox, t) {
          assert Told(ops, old(settled), before.settled, sandbox, t);
        }
      }
      BlockedMeansDrained(State());
      AllEnded(State());
      forall t: Ticket | t < |ops| && ops[t].op.Call? && old(settled)[t].None?
        ensures settled[t] == Some(match sandbox(t) case Answer(x) => Value(x) case Ordinary(e) => Raised(e) case Fatal(e) => Raised(e))
      {
        assert Told(ops, old(settled), settled, sandbox, t) && State().settled[t].Some?;
      }
    }
  }

  /** A call that was unfinished has ended, if at all, with what the sandbox answered. */
  predicate Told(ops: seq<Submission>, was: seq<Option<Outcome>>, now: seq<Option<Outcome>>, sandbox: Ticket -> Reply, t: Ticket)
    requires t < |ops| && |ops| <= |was| == |now|
  {
    ops[t].op.Call? && was[t].None? && now[t].Some? ==>
      now[t] == Some(match sandbox(t) case Answer(x) => Value(x) case Ordinary(e) => Raised(e) case Fatal(e) => Raised(e))
  }

  /** A handler runs on a live worker, for a wait on an earlier event. */
  lemma HandOfLive(s: Sys, w: StreamId)
    requires Inv(s) && w < |s.workers| && Ready(s, w)
    ensures Fits(s)
    ensures s.workers[w].hand.Busy? ==> s.workers[w].life.Alive? && s.workers[w].hand.t < |s.ops|
    ensures s.workers[w].hand.Busy? && s.ops[s.workers[w].hand.t].op.Wait? ==> s.ops[s.workers[w].hand.t].op.event < s.workers[w].hand.t
  {
    assert WorkerOk(s, w);
    if s.workers[w].hand.Busy? { assert TicketOk(s, s.workers[w].hand.t); }
  }

  lemma AllEnded(s: Sys)
    requires Drained(s)
    ensures forall t: Ticket :: t < |s.settled| ==> s.settled[t].Some?
  {
  }

  /** Where every unfinished operation has a live worker, a failing worker has nothing in hand or queue. */
  lemma ServedAlive(s: Sys, w: StreamId)
    requires Inv(s) && Served(s) && w < |s.workers| && Ready(s, w)
    ensures s.workers[w].life.Alive? || (s.workers[w].queue == [] && (s.workers[w].hand.Empty? || s.workers[w].hand.Settled?))
  {
    assert WorkerOk(s, w);
    if !s.workers[w].life.Alive? {
      ServedWorker(s, w);
      assert s.workers[w].queue != [] ==> Pending(s, w, s.workers[w].queue[0]);
      assert s.workers[w].hand.Popped? ==> Pending(s, w, s.workers[w].hand.t);
    }
    hide Inv, TicketOk, Served;
  }

  lemma StreamsExist(s: Sys)
    requires Inv(s)
    ensures forall t: Ticket :: t < |s.ops| ==> s.ops[t].stream < |s.workers|
  {
    forall t: Ticket | t < |s.ops| ensures s.ops[t].stream < |s.workers| { assert TicketOk(s, t); }
  }

  lemma SameExtends(s: Sys)
    ensures Extends(s, s)
  {
  }

  lemma BlockedMeansDrained(s: Sys)
    requires Inv(s) && Served(s) && forall w :: 0 <= w < |s.workers| ==> !Ready(s, w)
    ensures Drained(s)
  {
    if u: Ticket :| u < |s.settled| && s.settled[u].None? {
      var t := EarliestExists(s, u);
      EarliestIsReady(s, t);
    }
  }
}
