/** One round of resource-keyed parallel tool dispatch (src/rath/_async/aloop.py:238-321).
    A running tool takes many steps, each on the slice of its own resource key; the
    queues of distinct keys interleave freely.  The reference is running the calls one
    after the other in transcript order. */
module Dispatch {
  import opened Models
  import opened Sums

  datatype Key = Key(parts: seq<string>)
  type Slice = string
  type Local = string

  datatype Body = Summary(text: string) | ToolError(kind: string, message: string, detail: string)

  datatype Progress = More(local: Local, slice: Slice) | Finished(body: Body, slice: Slice)

  /** `resourceKey` gives Err when it raises; a body that raises finishes with a ToolError.
      `rank` bounds the steps a running body still takes. */
  datatype Tool = Tool(
    resourceKey: string -> Result<Key>,
    start: string -> Local,
    step: (Local, Slice) -> Progress,
    rank: Local -> nat)

  /** `parsed` is None when the arguments did not parse. */
  datatype Call = Call(id: string, name: string, raw: string, parsed: Option<string>)

  datatype Row =
    | SystemRow(content: string)
    | UserRow(content: string)
    | AssistantRow(calls: seq<Call>, text: Option<string>)
    | ToolRow(id: string, name: string, body: Body)
    | OtherRow(content: string)

  /** What the session writer was given: a row and its index. */
  type Writes = seq<(nat, Row)>

  /** The writer was given every row, in order, under indices 0, 1, 2, ... */
  ghost predicate Persisted(writes: Writes, rows: seq<Row>) {
    |writes| == |rows| && forall i :: 0 <= i < |rows| ==> writes[i] == (i, rows[i])
  }

  type Table = map<string, Tool>

  /** Tools terminate. */
  ghost predicate Terminating(table: Table) {
    forall name, l, s :: name in table && table[name].step(l, s).More? ==> table[name].rank(table[name].step(l, s).local) < table[name].rank(l)
  }

  function Clipped(raw: string): string {
    if |raw| > 2000 then raw[..2000] + "...(truncated)" else raw
  }

  /** The error a call gets before anything runs. */
  function PreError(table: Table, call: Call): Option<Body> {
    if call.parsed.None? then Some(ToolError("invalid_tool_arguments", call.name, Clipped(call.raw)))
    else if call.name !in table then Some(ToolError("unknown_tool", call.name, ""))
    else if table[call.name].resourceKey(call.parsed.value).Err? then Some(ToolError("tool_execution_exception", call.name, ""))
    else None
  }

  /** The call runs, in the queue of this key. */
  predicate Mine(table: Table, call: Call, key: Key) {
    PreError(table, call).None? && table[call.name].resourceKey(call.parsed.value) == Ok(key)
  }

  function KeyOf(table: Table, call: Call): (key: Key)
    requires PreError(table, call).None?
    ensures forall k :: Mine(table, call, k) <==> k == key
  {
    table[call.name].resourceKey(call.parsed.value).value
  }

  function SliceOf(resources: map<Key, Slice>, key: Key): Slice {
    if key in resources then resources[key] else ""
  }

  // ---------------------------------------------------------------- reference

  /** Run a body from here to its end. */
  ghost function Finish(table: Table, name: string, l: Local, s: Slice): (Body, Slice)
    requires Terminating(table) && name in table
    decreases table[name].rank(l)
  {
    match table[name].step(l, s)
    case Finished(body, after) => (body, after)
    case More(next, after) => Finish(table, name, next, after)
  }

  ghost function RunCall(table: Table, call: Call, s: Slice): (Body, Slice)
    requires Terminating(table) && PreError(table, call).None?
  {
    Finish(table, call.name, table[call.name].start(call.parsed.value), s)
  }

  /** The resources after the first n calls have run one after the other. */
  ghost function SerialResources(table: Table, calls: seq<Call>, resources: map<Key, Slice>, n: nat): map<Key, Slice>
    requires Terminating(table) && n <= |calls|
  {
    if n == 0 then resources
    else
      var before := SerialResources(table, calls, resources, n - 1);
      if PreError(table, calls[n - 1]).Some? then before
      else
        var key := KeyOf(table, calls[n - 1]);
        before[key := RunCall(table, calls[n - 1], SliceOf(before, key)).1]
  }

  /** What call i answers when the calls run one after the other. */
  ghost function SerialBody(table: Table, calls: seq<Call>, resources: map<Key, Slice>, i: nat): Body
    requires Terminating(table) && i < |calls|
  {
    if PreError(table, calls[i]).Some? then PreError(table, calls[i]).value
    else RunCall(table, calls[i], SliceOf(SerialResources(table, calls, resources, i), KeyOf(table, calls[i]))).0
  }

  /** The serial slice of a key before call n. */
  ghost function SerialSlice(table: Table, calls: seq<Call>, resources: map<Key, Slice>, n: nat, key: Key): Slice
    requires Terminating(table) && n <= |calls|
  {
    SliceOf(SerialResources(table, calls, resources, n), key)
  }

  /** Only the calls of a key move its slice. */
  lemma {:induction false} SliceUntouched(table: Table, calls: seq<Call>, resources: map<Key, Slice>, m: nat, n: nat, key: Key)
    requires Terminating(table) && m <= n <= |calls|
    requires forall i: nat :: m <= i < n ==> !Mine(table, calls[i], key)
    ensures SerialSlice(table, calls, resources, n, key) == SerialSlice(table, calls, resources, m, key)
  {
    if m < n {
      assert !Mine(table, calls[n - 1], key);
      SliceUntouched(table, calls, resources, m, n - 1, key);
    }
  }

  // ---------------------------------------------------------------- the round as a machine

  /** `queues[key]` holds the indices not yet finished; the head is running when `key in running`.
      `started` is the history of tool calls made. */
  datatype Round = Round(
    queues: map<Key, seq<nat>>,
    running: map<Key, Local>,
    resources: map<Key, Slice>,
    bodies: seq<Option<Body>>,
    started: seq<nat>)

  predicate Enabled(r: Round, key: Key) {
    key in r.queues && r.queues[key] != []
  }

  /** Every queued index is a call of that key. */
  predicate Fits(table: Table, calls: seq<Call>, r: Round) {
    |r.bodies| == |calls| &&
    forall key :: key in r.queues ==> forall i: nat :: i in r.queues[key] ==> i < |calls| && Mine(table, calls[i], key)
  }

  /** One step of the coroutine that serves a key: start its head call, or step the running body. */
  function Advance(table: Table, calls: seq<Call>, r: Round, key: Key): Round
    requires Fits(table, calls, r) && Enabled(r, key)
  {
    var i := r.queues[key][0];
    assert i in r.queues[key];
    var tool := table[calls[i].name];
    if key !in r.running then
      r.(running := r.running[key := tool.start(calls[i].parsed.value)], started := r.started + [i])
    else
      match tool.step(r.running[key], SliceOf(r.resources, key))
      case More(l, s) => r.(running := r.running[key := l], resources := r.resources[key := s])
      case Finished(body, s) =>
        Round(r.queues[key := r.queues[key][1..]], r.running - {key}, r.resources[key := s], r.bodies[i := Some(body)], r.started)
  }

  /** The index at which a key stands: its head call, or the end. */
  function Head(r: Round, key: Key, n: nat): nat {
    if Enabled(r, key) then r.queues[key][0] else n
  }

  ghost predicate Ascending(q: seq<nat>) {
    forall a, b :: 0 <= a < b < |q| ==> q[a] < q[b]
  }

  /** A queue holds exactly the calls of its key from its head on. */
  ghost predicate QueueSound(table: Table, calls: seq<Call>, r: Round, key: Key) {
    (key in r.queues ==> Ascending(r.queues[key])) &&
    forall i: nat :: Head(r, key, |calls|) <= i < |calls| && Mine(table, calls[i], key) ==> key in r.queues && i in r.queues[key]
  }

  /** A key's slice is where serial execution has it, give or take the body that is running. */
  ghost predicate SliceSound(table: Table, calls: seq<Call>, resources: map<Key, Slice>, r: Round, key: Key)
    requires Terminating(table) && Fits(table, calls, r)
  {
    var h := Head(r, key, |calls|);
    if key in r.running then
      Enabled(r, key) && h in r.queues[key] &&
      Finish(table, calls[h].name, r.running[key], SliceOf(r.resources, key))
        == RunCall(table, calls[h], SerialSlice(table, calls, resources, h, key))
    else (Enabled(r, key) ==> h in r.queues[key]) && SliceOf(r.resources, key) == SerialSlice(table, calls, resources, h, key)
  }

  /** The call has been handed to its tool. */
  ghost predicate Begun(table: Table, calls: seq<Call>, r: Round, i: nat)
    requires i < |calls|
  {
    PreError(table, calls[i]).None? &&
    var key := KeyOf(table, calls[i]);
    i < Head(r, key, |calls|) || (key in r.running && i == Head(r, key, |calls|))
  }

  /** An answer is missing exactly while its call is queued, and otherwise is the serial one;
      a call was handed to its tool once if it has begun and never otherwise. */
  ghost predicate BodySound(table: Table, calls: seq<Call>, resources: map<Key, Slice>, r: Round, i: nat)
    requires Terminating(table) && Fits(table, calls, r) && i < |calls|
  {
    multiset(r.started)[i] == (if Begun(table, calls, r, i) then 1 else 0) &&
    if r.bodies[i].Some? then
      r.bodies[i].value == SerialBody(table, calls, resources, i) &&
      (PreError(table, calls[i]).None? ==> i < Head(r, KeyOf(table, calls[i]), |calls|))
    else
      PreError(table, calls[i]).None? && Head(r, KeyOf(table, calls[i]), |calls|) <= i
  }

  ghost predicate Coherent(table: Table, calls: seq<Call>, resources: map<Key, Slice>, r: Round)
    requires Terminating(table)
  {
    Fits(table, calls, r) &&
    (forall key :: QueueSound(table, calls, r, key)) &&
    (forall key :: SliceSound(table, calls, resources, r, key)) &&
    forall i: nat :: i < |calls| ==> BodySound(table, calls, resources, r, i)
  }

  ghost predicate SameResources(a: map<Key, Slice>, b: map<Key, Slice>) {
    forall key :: SliceOf(a, key) == SliceOf(b, key)
  }

  /** Nothing is left to run: gather has returned. */
  ghost predicate Idle(r: Round) {
    forall key :: !Enabled(r, key)
  }

  lemma AdvanceFits(table: Table, calls: seq<Call>, r: Round, key: Key)
    requires Fits(table, calls, r) && Enabled(r, key)
    ensures Fits(table, calls, Advance(table, calls, r, key))
    ensures var after := Advance(table, calls, r, key);
      forall other :: other != key ==>
        (other in after.queues <==> other in r.queues) && (other in r.queues ==> after.queues[other] == r.queues[other])
        && (other in after.running <==> other in r.running) && (other in r.running ==> after.running[other] == r.running[other])
        && SliceOf(after.resources, other) == SliceOf(r.resources, other)
  {
    assert forall i: nat :: i in r.queues[key][1..] ==> i in r.queues[key];
  }

  /** A finished head moves the key on to the next call of the same key. */
  lemma HeadMoves(table: Table, calls: seq<Call>, r: Round, key: Key, after: Round)
    requires Fits(table, calls, r) && Enabled(r, key) && QueueSound(table, calls, r, key)
    requires after.queues == r.queues[key := r.queues[key][1..]]
    ensures QueueSound(table, calls, after, key)
    ensures r.queues[key][0] in r.queues[key] && r.queues[key][0] < Head(after, key, |calls|) <= |calls|
    ensures forall i: nat :: r.queues[key][0] < i < Head(after, key, |calls|) ==> !Mine(table, calls[i], key)
  {
    var q := r.queues[key];
    assert q[0] in q;
    assert forall i :: i in q ==> i == q[0] || i in q[1..];
    if |q| > 1 {
      assert q[1] in q && q[1..][0] == q[1];
    }
    forall i: nat | Head(after, key, |calls|) <= i < |calls| && Mine(table, calls[i], key) ensures i in q[1..] {
      assert i in q;
    }
    assert forall i: nat :: i in q && i != q[0] ==> Head(after, key, |calls|) <= i;
  }

  /** Every step of every coroutine keeps the round coherent with serial execution. */
  lemma AdvanceKeeps(table: Table, calls: seq<Call>, resources: map<Key, Slice>, r: Round, key: Key)
    requires Terminating(table) && Coherent(table, calls, resources, r) && Enabled(r, key)
    ensures Coherent(table, calls, resources, Advance(table, calls, r, key))
  {
    var after := Advance(table, calls, r, key);
    AdvanceFits(table, calls, r, key);
    OwnLane(table, calls, resources, r, key);
    forall other ensures QueueSound(table, calls, after, other) && SliceSound(table, calls, resources, after, other) {
      if other != key { OtherLane(table, calls, resources, r, key, other); }
    }
    forall i: nat | i < |calls| ensures BodySound(table, calls, resources, after, i) {
      BodyKept(table, calls, resources, r, key, i);
    }
  }

  lemma OtherLane(table: Table, calls: seq<Call>, resources: map<Key, Slice>, r: Round, key: Key, other: Key)
    requires Terminating(table) && Fits(table, calls, r) && Enabled(r, key) && other != key
    requires QueueSound(table, calls, r, other) && SliceSound(table, calls, resources, r, other)
    ensures var after := Advance(table, calls, r, key);
      Fits(table, calls, after) && QueueSound(table, calls, after, other) && SliceSound(table, calls, resources, after, other)
  {
    hide Finish, RunCall, SerialSlice, Advance;
    AdvanceFits(table, calls, r, key);
  }

  lemma OwnLane(table: Table, calls: seq<Call>, resources: map<Key, Slice>, r: Round, key: Key)
    requires Terminating(table) && Fits(table, calls, r) && Enabled(r, key)
    requires QueueSound(table, calls, r, key) && SliceSound(table, calls, resources, r, key)
    ensures var after := Advance(table, calls, r, key);
      Fits(table, calls, after) && QueueSound(table, calls, after, key) && SliceSound(table, calls, resources, after, key)
  {
    AdvanceFits(table, calls, r, key);
    var after := Advance(table, calls, r, key);
    var h := r.queues[key][0];
    if key in r.running && table[calls[h].name].step(r.running[key], SliceOf(r.resources, key)).Finished? {
      HeadMoves(table, calls, r, key, after);
      SliceUntouched(table, calls, resources, h + 1, Head(after, key, |calls|), key);
    }
  }

  lemma BodyKept(table: Table, calls: seq<Call>, resources: map<Key, Slice>, r: Round, key: Key, i: nat)
    requires Terminating(table) && Fits(table, calls, r) && Enabled(r, key) && i < |calls|
    requires QueueSound(table, calls, r, key) && SliceSound(table, calls, resources, r, key)
    requires BodySound(table, calls, resources, r, i)
    ensures var after := Advance(table, calls, r, key);
      Fits(table, calls, after) && BodySound(table, calls, resources, after, i)
  {
    AdvanceFits(table, calls, r, key);
    var after := Advance(table, calls, r, key);
    var h := r.queues[key][0];
    if key in r.running && table[calls[h].name].step(r.running[key], SliceOf(r.resources, key)).Finished? {
      HeadMoves(table, calls, r, key, after);
    }
  }

  /** When nothing is left to run, the round has done what serial execution does. */
  lemma IdleIsSerial(table: Table, calls: seq<Call>, resources: map<Key, Slice>, r: Round)
    requires Terminating(table) && Coherent(table, calls, resources, r) && Idle(r)
    ensures SerialOutcome(table, calls, resources, r)
  {
    forall key ensures SliceOf(r.resources, key) == SliceOf(SerialResources(table, calls, resources, |calls|), key) {
      assert SliceSound(table, calls, resources, r, key) && !Enabled(r, key);
    }
    forall i: nat | i < |calls|
      ensures r.bodies[i] == Some(SerialBody(table, calls, resources, i))
      ensures multiset(r.started)[i] == (if PreError(table, calls[i]).None? then 1 else 0)
    {
      assert BodySound(table, calls, resources, r, i);
      assert PreError(table, calls[i]).None? ==> !Enabled(r, KeyOf(table, calls[i]));
    }
  }

  /** Same resources and same answers as running the calls in order, each runnable call handed
      to its tool exactly once and each other call never. */
  ghost predicate SerialOutcome(table: Table, calls: seq<Call>, resources: map<Key, Slice>, r: Round)
    requires Terminating(table)
  {
    SameResources(r.resources, SerialResources(table, calls, resources, |calls|)) &&
    |r.bodies| == |calls| &&
    (forall i: nat :: i < |calls| ==> r.bodies[i] == Some(SerialBody(table, calls, resources, i))) &&
    forall i: nat :: i < |calls| ==> multiset(r.started)[i] == if PreError(table, calls[i]).None? then 1 else 0
  }

  // ---------------------------------------------------------------- the start of a round

  /** The queues built from the first n calls. */
  function QueuesTo(table: Table, calls: seq<Call>, n: nat): map<Key, seq<nat>>
    requires n <= |calls|
  {
    if n == 0 then map[]
    else if PreError(table, calls[n - 1]).Some? then QueuesTo(table, calls, n - 1)
    else Enqueued(QueuesTo(table, calls, n - 1), KeyOf(table, calls[n - 1]), n - 1)
  }

  function Enqueued(queues: map<Key, seq<nat>>, key: Key, i: nat): map<Key, seq<nat>> {
    queues[key := (if key in queues then queues[key] else []) + [i]]
  }

  function Begin(table: Table, calls: seq<Call>, resources: map<Key, Slice>): Round {
    Round(QueuesTo(table, calls, |calls|), map[], resources, seq(|calls|, i requires 0 <= i < |calls| => PreError(table, calls[i])), [])
  }

  lemma {:induction false} QueuesHold(table: Table, calls: seq<Call>, n: nat, key: Key)
    requires n <= |calls|
    ensures Holds(table, calls, n, key, QueuesTo(table, calls, n))
  {
    if n > 0 {
      QueuesHold(table, calls, n - 1, key);
      if PreError(table, calls[n - 1]).None? {
        EnqueuedHolds(table, calls, n - 1, key, QueuesTo(table, calls, n - 1));
      }
    }
  }

  /** The queue of this key holds exactly the calls of this key below n, in order. */
  ghost predicate Holds(table: Table, calls: seq<Call>, n: nat, key: Key, queues: map<Key, seq<nat>>)
    requires n <= |calls|
  {
    (forall i: nat :: key in queues && i in queues[key] <==> i < n && Mine(table, calls[i], key)) &&
    (key in queues ==> Ascending(queues[key]) && queues[key] != [])
  }

  lemma AscendingAppend(q: seq<nat>, n: nat)
    requires Ascending(q) && forall i :: i in q ==> i < n
    ensures Ascending(q + [n]) && forall i: nat :: i in q + [n] <==> i in q || i == n
  {
    assert forall a :: 0 <= a < |q| ==> q[a] in q;
  }

  lemma EnqueuedHolds(table: Table, calls: seq<Call>, n: nat, key: Key, queues: map<Key, seq<nat>>)
    requires n < |calls| && PreError(table, calls[n]).None? && Holds(table, calls, n, key, queues)
    ensures Holds(table, calls, n + 1, key, Enqueued(queues, KeyOf(table, calls[n]), n))
  {
    hide PreError;
    if KeyOf(table, calls[n]) == key {
      var q := if key in queues then queues[key] else [];
      AscendingAppend(q, n);
    } else {
      assert !Mine(table, calls[n], key);
    }
  }

  lemma BeginCoherent(table: Table, calls: seq<Call>, resources: map<Key, Slice>)
    requires Terminating(table)
    ensures Coherent(table, calls, resources, Begin(table, calls, resources))
  {
    var r := Begin(table, calls, resources);
    forall key ensures key in r.queues ==> forall i: nat :: i in r.queues[key] ==> i < |calls| && Mine(table, calls[i], key) {
      QueuesHold(table, calls, |calls|, key);
    }
    forall key ensures QueueSound(table, calls, r, key) && SliceSound(table, calls, resources, r, key) {
      FirstHead(table, calls, resources, key);
      SliceUntouched(table, calls, resources, 0, Head(r, key, |calls|), key);
    }
    forall i: nat | i < |calls| ensures BodySound(table, calls, resources, r, i) {
      if PreError(table, calls[i]).None? {
        FirstHead(table, calls, resources, KeyOf(table, calls[i]));
      }
    }
  }

  /** A fresh queue holds all calls of its key, so no earlier call has that key. */
  lemma FirstHead(table: Table, calls: seq<Call>, resources: map<Key, Slice>, key: Key)
    ensures var r := Begin(table, calls, resources);
      QueueSound(table, calls, r, key) && Head(r, key, |calls|) <= |calls| &&
      (Enabled(r, key) ==> Head(r, key, |calls|) in r.queues[key]) &&
      forall i: nat :: i < Head(r, key, |calls|) && i < |calls| ==> !Mine(table, calls[i], key)
  {
    var r := Begin(table, calls, resources);
    QueuesHold(table, calls, |calls|, key);
    if Enabled(r, key) {
      assert r.queues[key][0] in r.queues[key];
      assert forall i: nat :: i in r.queues[key] ==> r.queues[key][0] <= i;
    }
  }

  // ---------------------------------------------------------------- every interleaving

  /** Give the steps of a schedule to the named coroutines; a key with nothing to do passes. */
  function Perform(table: Table, calls: seq<Call>, r: Round, schedule: seq<Key>): Round
    requires Fits(table, calls, r)
    decreases |schedule|
  {
    if schedule == [] then r
    else if Enabled(r, schedule[0]) then
      AdvanceFits(table, calls, r, schedule[0]);
      Perform(table, calls, Advance(table, calls, r, schedule[0]), schedule[1..])
    else Perform(table, calls, r, schedule[1..])
  }

  /** Confluence: whatever the interleaving, a round that has ended is serial execution. */
  lemma {:induction false} Confluence(table: Table, calls: seq<Call>, resources: map<Key, Slice>, schedule: seq<Key>)
    requires Terminating(table)
    ensures Coherent(table, calls, resources, Begin(table, calls, resources))
    ensures var end := Perform(table, calls, Begin(table, calls, resources), schedule);
      Idle(end) ==> SerialOutcome(table, calls, resources, end)
  {
    BeginCoherent(table, calls, resources);
    PerformKeeps(table, calls, resources, Begin(table, calls, resources), schedule);
    var end := Perform(table, calls, Begin(table, calls, resources), schedule);
    if Idle(end) { IdleIsSerial(table, calls, resources, end); }
  }

  lemma {:induction false} PerformKeeps(table: Table, calls: seq<Call>, resources: map<Key, Slice>, r: Round, schedule: seq<Key>)
    requires Terminating(table) && Coherent(table, calls, resources, r)
    ensures Coherent(table, calls, resources, Perform(table, calls, r, schedule))
    decreases |schedule|
  {
    if schedule != [] {
      if Enabled(r, schedule[0]) {
        AdvanceKeeps(table, calls, resources, r, schedule[0]);
        PerformKeeps(table, calls, resources, Advance(table, calls, r, schedule[0]), schedule[1..]);
      } else {
        PerformKeeps(table, calls, resources, r, schedule[1..]);
      }
    }
  }

  // ---------------------------------------------------------------- the round ends

  /** The steps call i can still take. */
  ghost function StepsLeft(table: Table, calls: seq<Call>, r: Round, i: nat): nat
    requires i < |calls| && |r.bodies| == |calls|
  {
    if r.bodies[i].Some? || PreError(table, calls[i]).Some? then 0
    else
      var key := KeyOf(table, calls[i]);
      var tool := table[calls[i].name];
      if key in r.running && Head(r, key, |calls|) == i then 1 + tool.rank(r.running[key])
      else 2 + tool.rank(tool.start(calls[i].parsed.value))
  }

  ghost function Left(table: Table, calls: seq<Call>, r: Round): seq<nat>
    requires |r.bodies| == |calls|
  {
    seq(|calls|, i requires 0 <= i < |calls| && |r.bodies| == |calls| => StepsLeft(table, calls, r, i))
  }

  /** Every step of every coroutine uses up some of the work, so no schedule runs for ever. */
  lemma AdvanceProgresses(table: Table, calls: seq<Call>, resources: map<Key, Slice>, r: Round, key: Key)
    requires Terminating(table) && Coherent(table, calls, resources, r) && Enabled(r, key)
    ensures var after := Advance(table, calls, r, key);
      |after.bodies| == |calls| && Sum(Left(table, calls, after)) < Sum(Left(table, calls, r))
  {
    var after := Advance(table, calls, r, key);
    AdvanceFits(table, calls, r, key);
    var h := r.queues[key][0];
    assert h in r.queues[key];
    assert QueueSound(table, calls, r, key) && BodySound(table, calls, resources, r, h);
    var before, later := Left(table, calls, r), Left(table, calls, after);
    forall i: nat | i < |calls| ensures if i == h then later[i] < before[i] else later[i] == before[i] {
      StepUses(table, calls, resources, r, key, i);
    }
    assert later == before[h := later[h]];
    SumUpdated(before, h, later[h]);
  }

  lemma StepUses(table: Table, calls: seq<Call>, resources: map<Key, Slice>, r: Round, key: Key, i: nat)
    requires Terminating(table) && Fits(table, calls, r) && Enabled(r, key) && i < |calls|
    requires QueueSound(table, calls, r, key) && SliceSound(table, calls, resources, r, key) && BodySound(table, calls, resources, r, i)
    ensures var after := Advance(table, calls, r, key); |after.bodies| == |calls|
    ensures var after := Advance(table, calls, r, key);
      if i == r.queues[key][0] then StepsLeft(table, calls, after, i) < StepsLeft(table, calls, r, i)
      else StepsLeft(table, calls, after, i) == StepsLeft(table, calls, r, i)
  {
    hide Finish, RunCall, SerialSlice, SerialBody;
    AdvanceFits(table, calls, r, key);
    var h := r.queues[key][0];
    assert h in r.queues[key];
    var after := Advance(table, calls, r, key);
    if key in r.running && table[calls[h].name].step(r.running[key], SliceOf(r.resources, key)).Finished? {
      HeadMoves(table, calls, r, key, after);
    }
  }

  // ---------------------------------------------------------------- the round as a method

  /** The rows a round appends: the serial answers, in call order. */
  ghost function SerialRows(table: Table, calls: seq<Call>, resources: map<Key, Slice>): (rows: seq<Row>)
    requires Terminating(table)
    ensures |rows| == |calls|
  {
    seq(|calls|, i requires 0 <= i < |calls| && Terminating(table) => ToolRow(calls[i].id, calls[i].name, SerialBody(table, calls, resources, i)))
  }

  // ---------------------------------------------------------------- what a round answers

  /** A body run on a slice: it starts from the arguments, each step goes on from the one before, and
      the last one finishes with this answer and slice. */
  ghost predicate Traces(tool: Tool, arguments: string, before: Slice, body: Body, after: Slice) {
    exists run: seq<(Local, Slice)> :: RunsFrom(tool, run, tool.start(arguments), before, body, after)
  }

  ghost predicate RunsFrom(tool: Tool, run: seq<(Local, Slice)>, l: Local, before: Slice, body: Body, after: Slice) {
    run != [] && run[0] == (l, before) &&
    (forall k :: 0 <= k < |run| - 1 ==> tool.step(run[k].0, run[k].1) == More(run[k + 1].0, run[k + 1].1)) &&
    tool.step(run[|run| - 1].0, run[|run| - 1].1) == Finished(body, after)
  }

  lemma {:induction false} FinishRuns(table: Table, name: string, l: Local, s: Slice) returns (run: seq<(Local, Slice)>)
    requires Terminating(table) && name in table
    ensures RunsFrom(table[name], run, l, s, Finish(table, name, l, s).0, Finish(table, name, l, s).1)
    decreases table[name].rank(l)
  {
    match table[name].step(l, s) {
      case Finished(_, _) => run := [(l, s)];
      case More(next, after) =>
        var rest := FinishRuns(table, name, next, after);
        run := [(l, s)] + rest;
    }
  }

  /** The call has parsed arguments, a known tool, and this resource key. */
  predicate RunsUnder(table: Table, call: Call, key: Key) {
    call.parsed.Some? && call.name in table && table[call.name].resourceKey(call.parsed.value) == Ok(key)
  }

  /** The answer to call i, given the slices before and after each call: an error for arguments that
      did not parse (cut after 2000 characters), for an unknown tool, or for a raising resource key;
      otherwise what its tool's body gives on the slice it finds. */
  ghost predicate Answered(table: Table, call: Call, row: Row, before: Slice, after: Slice) {
    row.ToolRow? && row.id == call.id && row.name == call.name &&
    if call.parsed.None? then
      row.body == ToolError("invalid_tool_arguments", call.name, if |call.raw| > 2000 then call.raw[..2000] + "...(truncated)" else call.raw)
    else if call.name !in table then row.body == ToolError("unknown_tool", call.name, "")
    else if table[call.name].resourceKey(call.parsed.value).Err? then row.body == ToolError("tool_execution_exception", call.name, "")
    else Traces(table[call.name], call.parsed.value, before, row.body, after)
  }

  /** The slice a call finds is the one the last call of its key left, or the initial one. */
  ghost predicate Chained(table: Table, calls: seq<Call>, resources: map<Key, Slice>, before: seq<Slice>, after: seq<Slice>, i: nat, key: Key)
    requires i < |calls| == |before| == |after|
  {
    RunsUnder(table, calls[i], key) ==>
      ((forall m: nat :: m < i ==> !RunsUnder(table, calls[m], key)) ==> before[i] == SliceOf(resources, key)) &&
      forall j: nat :: j < i && RunsUnder(table, calls[j], key) && (forall m: nat :: j < m < i ==> !RunsUnder(table, calls[m], key)) ==> before[i] == after[j]
  }

  /** The rows answer the calls one by one in order, each on what the earlier calls of its key left. */
  ghost predicate AnsweredInOrder(table: Table, calls: seq<Call>, resources: map<Key, Slice>, rows: seq<Row>, before: seq<Slice>, after: seq<Slice>) {
    |rows| == |calls| && |before| == |calls| && |after| == |calls| &&
    (forall i: nat :: i < |calls| ==> Answered(table, calls[i], rows[i], before[i], after[i])) &&
    forall i: nat, key :: i < |calls| ==> Chained(table, calls, resources, before, after, i, key)
  }

  ghost function SliceAt(table: Table, calls: seq<Call>, resources: map<Key, Slice>, i: nat, n: nat): Slice
    requires Terminating(table) && i < |calls| && n <= |calls|
  {
    if PreError(table, calls[i]).Some? then "" else SerialSlice(table, calls, resources, n, KeyOf(table, calls[i]))
  }

  lemma SerialAnswered(table: Table, calls: seq<Call>, resources: map<Key, Slice>, i: nat)
    requires Terminating(table) && i < |calls|
    ensures Answered(table, calls[i], ToolRow(calls[i].id, calls[i].name, SerialBody(table, calls, resources, i)),
                     SliceAt(table, calls, resources, i, i), SliceAt(table, calls, resources, i, i + 1))
  {
    if PreError(table, calls[i]).None? {
      var s := SliceAt(table, calls, resources, i, i);
      var run := FinishRuns(table, calls[i].name, table[calls[i].name].start(calls[i].parsed.value), s);
      hide Finish;
    }
  }

  lemma RunnableKey(table: Table, call: Call, key: Key)
    ensures RunsUnder(table, call, key) <==> Mine(table, call, key)
  {
  }

  lemma SerialChained(
    table: Table, calls: seq<Call>, resources: map<Key, Slice>, before: seq<Slice>, after: seq<Slice>, i: nat, key: Key
  )
    requires Terminating(table) && i < |calls| == |before| == |after|
    requires forall m: nat :: m < |calls| ==> before[m] == SliceAt(table, calls, resources, m, m) && after[m] == SliceAt(table, calls, resources, m, m + 1)
    ensures Chained(table, calls, resources, before, after, i, key)
  {
    forall m: nat | m < |calls| ensures RunsUnder(table, calls[m], key) <==> Mine(table, calls[m], key) { RunnableKey(table, calls[m], key); }
    if RunsUnder(table, calls[i], key) {
      hide RunsUnder, PreError;
      if forall m: nat :: m < i ==> !RunsUnder(table, calls[m], key) {
        SliceUntouched(table, calls, resources, 0, i, key);
      }
      forall j: nat | j < i && RunsUnder(table, calls[j], key) && (forall m: nat :: j < m < i ==> !RunsUnder(table, calls[m], key))
        ensures before[i] == after[j]
      {
        SliceUntouched(table, calls, resources, j + 1, i, key);
      }
    }
  }

  /** The serial rows are answers in order. */
  lemma SerialRowsAnswer(table: Table, calls: seq<Call>, resources: map<Key, Slice>) returns (before: seq<Slice>, after: seq<Slice>)
    requires Terminating(table)
    ensures AnsweredInOrder(table, calls, resources, SerialRows(table, calls, resources), before, after)
    ensures forall i: nat :: i < |calls| ==> after[i] == SliceAt(table, calls, resources, i, i + 1)
  {
    hide Chained, Answered, SerialBody, PreError, SliceAt;
    before := seq(|calls|, i requires 0 <= i < |calls| && Terminating(table) => SliceAt(table, calls, resources, i, i));
    after := seq(|calls|, i requires 0 <= i < |calls| && Terminating(table) => SliceAt(table, calls, resources, i, i + 1));
    var rows := SerialRows(table, calls, resources);
    assert forall i: nat :: i < |calls| ==> rows[i] == ToolRow(calls[i].id, calls[i].name, SerialBody(table, calls, resources, i));
    assert forall m: nat :: m < |calls| ==> before[m] == SliceAt(table, calls, resources, m, m) && after[m] == SliceAt(table, calls, resources, m, m + 1);
    hide SerialRows, Terminating;
    forall i: nat | i < |calls| ensures Answered(table, calls[i], rows[i], before[i], after[i]) {
      SerialAnswered(table, calls, resources, i);
    }
    forall i: nat, key | i < |calls| ensures Chained(table, calls, resources, before, after, i, key) {
      SerialChained(table, calls, resources, before, after, i, key);
    }
  }

  /** The resources a round leaves: for each key what its last call left, or what was there. */
  ghost predicate LeftBy(table: Table, calls: seq<Call>, resources: map<Key, Slice>, after: seq<Slice>, final: map<Key, Slice>, key: Key)
    requires |after| == |calls|
  {
    ((forall m: nat :: m < |calls| ==> !RunsUnder(table, calls[m], key)) ==> SliceOf(final, key) == SliceOf(resources, key)) &&
    forall j: nat :: j < |calls| && RunsUnder(table, calls[j], key) && (forall m: nat :: j < m < |calls| ==> !RunsUnder(table, calls[m], key)) ==>
      SliceOf(final, key) == after[j]
  }

  lemma SerialLeaves(table: Table, calls: seq<Call>, resources: map<Key, Slice>, after: seq<Slice>, final: map<Key, Slice>, key: Key)
    requires Terminating(table) && |after| == |calls| && SameResources(final, SerialResources(table, calls, resources, |calls|))
    requires forall m: nat :: m < |calls| ==> after[m] == SliceAt(table, calls, resources, m, m + 1)
    ensures LeftBy(table, calls, resources, after, final, key)
  {
    forall m: nat | m < |calls| ensures RunsUnder(table, calls[m], key) <==> Mine(table, calls[m], key) { RunnableKey(table, calls[m], key); }
    assert SliceOf(final, key) == SerialSlice(table, calls, resources, |calls|, key);
    hide RunsUnder, PreError, SameResources;
    if forall m: nat :: m < |calls| ==> !RunsUnder(table, calls[m], key) {
      SliceUntouched(table, calls, resources, 0, |calls|, key);
    }
    forall j: nat | j < |calls| && RunsUnder(table, calls[j], key) && (forall m: nat :: j < m < |calls| ==> !RunsUnder(table, calls[m], key))
      ensures SliceOf(final, key) == after[j]
    {
      SliceUntouched(table, calls, resources, j + 1, |calls|, key);
    }
  }

  /** The whole round.  The scheduler may wake any coroutine that has work; whichever it
      wakes, the rows appended are the serial answers in call order. */
  method DispatchRound(table: Table, calls: seq<Call>, resources: map<Key, Slice>, rows: seq<Row>, persist: bool, writes: Writes)
    returns (rowsAfter: seq<Row>, writesAfter: Writes, resourcesAfter: map<Key, Slice>, started: seq<nat>, ghost before: seq<Slice>, ghost after: seq<Slice>)
    requires Terminating(table)
    ensures |rowsAfter| == |rows| + |calls| && rowsAfter[..|rows|] == rows
    ensures AnsweredInOrder(table, calls, resources, rowsAfter[|rows|..], before, after)
    ensures forall key :: LeftBy(table, calls, resources, after, resourcesAfter, key)
    ensures forall i: nat :: i < |calls| ==> multiset(started)[i] == if exists key :: RunsUnder(table, calls[i], key) then 1 else 0
    ensures rowsAfter == rows + SerialRows(table, calls, resources)
    ensures SameResources(resourcesAfter, SerialResources(table, calls, resources, |calls|))
    ensures forall i: nat :: i < |calls| ==> multiset(started)[i] == if PreError(table, calls[i]).None? then 1 else 0
    ensures if persist then Persisted(writes, rows) ==> Persisted(writesAfter, rowsAfter) else writesAfter == writes
  {
    hide Coherent, SerialBody;
    var round := Enlist(table, calls, resources);
    BeginCoherent(table, calls, resources);
    round := Gather(table, calls, resources, round);
    IdleIsSerial(table, calls, resources, round);
    resourcesAfter, started := round.resources, round.started;
    rowsAfter, writesAfter := Stitch(calls, round.bodies, rows, persist, writes);
    before, after := SerialRowsAnswer(table, calls, resources);
    forall key ensures LeftBy(table, calls, resources, after, resourcesAfter, key) { SerialLeaves(table, calls, resources, after, resourcesAfter, key); }
    forall i: nat | i < |calls| ensures PreError(table, calls[i]).None? <==> exists key :: RunsUnder(table, calls[i], key) { Runnable(table, calls[i]); }
    hide PreError, SerialResources, Persisted, SameResources, AnsweredInOrder, LeftBy, RunsUnder, SliceAt;
    assert rowsAfter[|rows|..] == SerialRows(table, calls, resources);
  }

  lemma Runnable(table: Table, call: Call)
    ensures PreError(table, call).None? <==> exists key :: RunsUnder(table, call, key)
  {
    if PreError(table, call).None? { assert RunsUnder(table, call, KeyOf(table, call)); }
  }

  /** The loop over the calls that fills the queues and the pre-errors. */
  method Enlist(table: Table, calls: seq<Call>, resources: map<Key, Slice>) returns (round: Round)
    ensures round == Begin(table, calls, resources)
  {
    var bodies: seq<Option<Body>> := [];
    var queues: map<Key, seq<nat>> := map[];
    var idx := 0;
    while idx < |calls|
      invariant idx <= |calls| && |bodies| == idx
      invariant queues == QueuesTo(table, calls, idx)
      invariant forall i: nat :: i < idx ==> bodies[i] == PreError(table, calls[i])
    {
      var error := PreError(table, calls[idx]);
      bodies := bodies + [error];
      if error.None? {
        queues := Enqueued(queues, KeyOf(table, calls[idx]), idx);
      }
      idx := idx + 1;
    }
    round := Round(queues, map[], resources, bodies, []);
    assert bodies == Begin(table, calls, resources).bodies;
  }

  /** Append the answers in call order. */
  method Stitch(calls: seq<Call>, bodies: seq<Option<Body>>, rows: seq<Row>, persist: bool, writes: Writes)
    returns (rowsAfter: seq<Row>, writesAfter: Writes)
    requires |bodies| == |calls| && forall i :: 0 <= i < |calls| ==> bodies[i].Some?
    ensures |rowsAfter| == |rows| + |calls| && rowsAfter[..|rows|] == rows
    ensures forall i :: 0 <= i < |calls| ==> rowsAfter[|rows| + i] == ToolRow(calls[i].id, calls[i].name, bodies[i].value)
    ensures if persist then Persisted(writes, rows) ==> Persisted(writesAfter, rowsAfter) else writesAfter == writes
  {
    rowsAfter, writesAfter := rows, writes;
    var idx := 0;
    while idx < |calls|
      invariant idx <= |calls| && |rowsAfter| == |rows| + idx && rowsAfter[..|rows|] == rows
      invariant forall i :: 0 <= i < idx ==> rowsAfter[|rows| + i] == ToolRow(calls[i].id, calls[i].name, bodies[i].value)
      invariant if persist then Persisted(writes, rows) ==> Persisted(writesAfter, rowsAfter) else writesAfter == writes
    {
      var body := if bodies[idx].Some? then bodies[idx].value else ToolError("internal_missing_result", "", "");
      var row := ToolRow(calls[idx].id, calls[idx].name, body);
      rowsAfter := rowsAfter + [row];
      if persist { writesAfter := writesAfter + [(|rowsAfter| - 1, row)]; }
      idx := idx + 1;
    }
  }

  /** Wake coroutines, in any order, until none has work. */
  method Gather(table: Table, calls: seq<Call>, ghost resources: map<Key, Slice>, begun: Round) returns (round: Round)
    requires Terminating(table) && Coherent(table, calls, resources, begun)
    ensures Coherent(table, calls, resources, round) && Idle(round)
  {
    hide SliceSound, BodySound, QueueSound, StepsLeft, Left, Advance;
    round := begun;
    while exists key :: key in round.queues && Enabled(round, key)
      invariant Coherent(table, calls, resources, round)
      decreases Sum(Left(table, calls, round))
    {
      var key :| key in round.queues && Enabled(round, key);
      AdvanceKeeps(table, calls, resources, round, key);
      AdvanceProgresses(table, calls, resources, round, key);
      round := Advance(table, calls, round, key);
    }
  }

  /** Serial execution looks at resources only slice by slice. */
  lemma {:induction false} SerialAgrees(table: Table, calls: seq<Call>, a: map<Key, Slice>, b: map<Key, Slice>, n: nat)
    requires Terminating(table) && SameResources(a, b) && n <= |calls|
    ensures SameResources(SerialResources(table, calls, a, n), SerialResources(table, calls, b, n))
  {
    if n > 0 {
      SerialAgrees(table, calls, a, b, n - 1);
      var x, y := SerialResources(table, calls, a, n - 1), SerialResources(table, calls, b, n - 1);
      if PreError(table, calls[n - 1]).None? {
        var key := KeyOf(table, calls[n - 1]);
        assert SliceOf(x, key) == SliceOf(y, key);
        var s := RunCall(table, calls[n - 1], SliceOf(x, key)).1;
        hide RunCall, PreError, SerialResources;
        var x', y' := x[key := s], y[key := s];
        forall k ensures SliceOf(x', k) == SliceOf(y', k) {
          assert SliceOf(x, k) == SliceOf(y, k);
        }
      }
    }
  }

  lemma SerialRowsAgree(table: Table, calls: seq<Call>, a: map<Key, Slice>, b: map<Key, Slice>)
    requires Terminating(table) && SameResources(a, b)
    ensures SerialRows(table, calls, a) == SerialRows(table, calls, b)
  {
    forall i: nat | i < |calls| ensures SerialBody(table, calls, a, i) == SerialBody(table, calls, b, i) {
      SerialAgrees(table, calls, a, b, i);
    }
  }
}
