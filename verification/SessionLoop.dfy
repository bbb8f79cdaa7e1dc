/** The session loop (src/rath/_async/aloop.py:324-475): completions, resource-keyed dispatch
    and an incrementally rendered message tail.  The reference re-renders the whole transcript
    before each completion and runs the tool calls of a round one after the other. */
module SessionLoop {
  import opened Models
  import opened Dispatch

  datatype Message = Message(role: string, content: Option<string>, calls: seq<Call>, callId: string)

  datatype Completion = Completion(calls: seq<Call>, content: Option<string>, finishReason: string)

  /** The model's answer to the n-th request; None when the request, or the token budget, raises. */
  type Model = (nat, seq<Message>) -> Option<Completion>

  /** The text of a tool result. */
  type Dump = Body -> string

  function RenderRow(dump: Dump, row: Row): seq<Message> {
    match row
    case SystemRow(content) => [Message("system", Some(content), [], "")]
    case UserRow(content) => [Message("user", Some(content), [], "")]
    case AssistantRow(calls, text) => [Message("assistant", text, calls, "")]
    case ToolRow(id, _, body) => [Message("tool", Some(dump(body)), [], id)]
    case OtherRow(_) => []
  }

  function Render(dump: Dump, rows: seq<Row>): seq<Message> {
    if rows == [] then [] else Render(dump, rows[..|rows| - 1]) + RenderRow(dump, rows[|rows| - 1])
  }

  lemma RenderLast(dump: Dump, rows: seq<Row>, row: Row)
    ensures Render(dump, rows + [row]) == Render(dump, rows) + RenderRow(dump, row)
  {
    assert (rows + [row])[..|rows|] == rows;
  }

  /** Rendering only what is new and appending it is rendering everything. */
  lemma {:induction false} RenderIncremental(dump: Dump, rows: seq<Row>, more: seq<Row>)
    ensures Render(dump, rows + more) == Render(dump, rows) + Render(dump, more)
  {
    hide Render, RenderRow;
    if more == [] {
      EmptyRendered(dump, more);
      assert rows + more == rows && more[..0] == more;
    } else {
      var n := |more| - 1;
      var front, last := more[..n], more[n];
      RenderIncremental(dump, rows, front);
      RenderLast(dump, front, last);
      RenderLast(dump, rows + front, last);
      assert more == front + [last];
      assert rows + more == rows + front + [last];
      var x, y, z := Render(dump, rows), Render(dump, front), RenderRow(dump, last);
      assert x + y + z == x + (y + z);
    }
  }

  // ---------------------------------------------------------------- reference

  /** `completions` counts requests; `raised` means an exception left the loop. */
  datatype Outcome = Outcome(rows: seq<Row>, finished: bool, completions: nat, raised: bool)

  datatype Setting = Setting(table: Table, head: seq<Message>, model: Model, dump: Dump)

  /** The answer to a request that carries the whole transcript. */
  function Ask(w: Setting, rows: seq<Row>, used: nat): Option<Completion> {
    w.model(used, w.head + Render(w.dump, rows))
  }

  /** The transcript after a completion and its tool calls, run one after the other. */
  ghost function RowsAfter(w: Setting, rows: seq<Row>, resources: map<Key, Slice>, c: Completion): seq<Row>
    requires Terminating(w.table)
  {
    rows + ([AssistantRow(c.calls, c.content)] + SerialRows(w.table, c.calls, resources))
  }

  ghost function ResourcesAfter(w: Setting, resources: map<Key, Slice>, c: Completion): map<Key, Slice>
    requires Terminating(w.table)
  {
    SerialResources(w.table, c.calls, resources, |c.calls|)
  }

  predicate Final(c: Completion) {
    c.calls == [] && c.finishReason in {"stop", "length", "content_filter"}
  }

  /** At most `rounds` further rounds, after `used`. */
  ghost function Simple(w: Setting, rows: seq<Row>, resources: map<Key, Slice>, used: nat, rounds: nat): Outcome
    requires Terminating(w.table)
    decreases rounds
  {
    if rounds == 0 then Outcome(rows, false, used, false)
    else
      var reply := Ask(w, rows, used);
      if reply.None? then Outcome(rows, false, used + 1, true)
      else if Final(reply.value) then Outcome(RowsAfter(w, rows, resources, reply.value), true, used + 1, false)
      else Simple(w, RowsAfter(w, rows, resources, reply.value), ResourcesAfter(w, resources, reply.value), used + 1, rounds - 1)
  }

  lemma AfterAgrees(w: Setting, rows: seq<Row>, a: map<Key, Slice>, b: map<Key, Slice>, c: Completion)
    requires Terminating(w.table) && SameResources(a, b)
    ensures RowsAfter(w, rows, a, c) == RowsAfter(w, rows, b, c) && SameResources(ResourcesAfter(w, a, c), ResourcesAfter(w, b, c))
  {
    SerialRowsAgree(w.table, c.calls, a, b);
    SerialAgrees(w.table, c.calls, a, b, |c.calls|);
  }

  lemma {:induction false} SimpleAgrees(w: Setting, rows: seq<Row>, a: map<Key, Slice>, b: map<Key, Slice>, used: nat, rounds: nat)
    requires Terminating(w.table) && SameResources(a, b)
    ensures Simple(w, rows, a, used, rounds) == Simple(w, rows, b, used, rounds)
    decreases rounds
  {
    hide Ask, RowsAfter, ResourcesAfter, SameResources, Terminating, Final;
    if rounds > 0 && Ask(w, rows, used).Some? {
      var c := Ask(w, rows, used).value;
      AfterAgrees(w, rows, a, b, c);
      SimpleAgrees(w, RowsAfter(w, rows, a, c), ResourcesAfter(w, a, c), ResourcesAfter(w, b, c), used + 1, rounds - 1);
    }
  }

  // ---------------------------------------------------------------- transcript shape

  /** Tool rows answer these calls, one each and in order. */
  predicate Answers(calls: seq<Call>, rows: seq<Row>) {
    |rows| == |calls| &&
    forall k :: 0 <= k < |calls| ==> rows[k].ToolRow? && rows[k].id == calls[k].id && rows[k].name == calls[k].name
  }

  /** Each assistant row is followed by exactly one tool row per call, in the same order. */
  predicate Paired(rows: seq<Row>)
    decreases |rows|
  {
    rows == [] ||
    (rows[0].AssistantRow? && |rows| >= 1 + |rows[0].calls| &&
     Answers(rows[0].calls, rows[1..1 + |rows[0].calls|]) && Paired(rows[1 + |rows[0].calls|..]))
  }

  lemma PairedRound(assistant: Row, answers: seq<Row>, rest: seq<Row>)
    requires assistant.AssistantRow? && Answers(assistant.calls, answers) && Paired(rest)
    ensures Paired([assistant] + answers + rest)
  {
    hide Answers;
    var rows := [assistant] + answers + rest;
    assert |answers| == |assistant.calls| by { AnswersLength(assistant.calls, answers); }
    assert rows[0] == assistant && rows[1..1 + |answers|] == answers && rows[1 + |answers|..] == rest;
  }

  lemma AnswersLength(calls: seq<Call>, rows: seq<Row>)
    requires Answers(calls, rows)
    ensures |rows| == |calls|
  {
  }

  lemma Regrouped<T>(rows: seq<T>, n: nat, more: seq<T>)
    requires 1 <= n <= |rows|
    ensures [rows[0]] + rows[1..n] + (rows[n..] + more) == rows + more
  {
  }

  lemma {:induction false} PairedAppend(rows: seq<Row>, assistant: Row, answers: seq<Row>)
    requires Paired(rows) && assistant.AssistantRow? && Answers(assistant.calls, answers)
    ensures Paired(rows + ([assistant] + answers))
    decreases |rows|
  {
    hide Answers;
    var round := [assistant] + answers;
    if rows == [] {
      PairedRound(assistant, answers, []);
      assert rows + round == [assistant] + answers + [];
    } else {
      var n := 1 + |rows[0].calls|;
      PairedAppend(rows[n..], assistant, answers);
      PairedRound(rows[0], rows[1..n], rows[n..] + round);
      hide Paired;
      Regrouped(rows, n, round);
    }
  }

  /** The transcript is the seed followed by paired rows. */
  ghost predicate Grown(seed: seq<Row>, rows: seq<Row>) {
    seed <= rows && Paired(rows[|seed|..])
  }

  /** What the outcome of some rounds says about the transcript that followed the seed. */
  ghost predicate Shaped(end: Outcome, seed: seq<Row>, used: nat, rounds: nat) {
    Grown(seed, end.rows) &&
    used <= end.completions <= used + rounds &&
    (end.finished ==> !end.raised) &&
    (!end.raised && !end.finished ==> end.completions == used + rounds)
  }

  /** After any number of rounds the new part of the transcript is paired, the old part is
      untouched, no more completions were asked for than rounds allowed, and a loop that was
      not left by an exception either finished or used every round. */
  lemma {:induction false} SimpleShape(w: Setting, seed: seq<Row>, rows: seq<Row>, resources: map<Key, Slice>, used: nat, rounds: nat)
    requires Terminating(w.table) && Grown(seed, rows)
    ensures Shaped(Simple(w, rows, resources, used, rounds), seed, used, rounds)
    decreases rounds
  {
    hide Ask, RowsAfter, ResourcesAfter, Terminating, Final, Grown;
    if rounds > 0 && Ask(w, rows, used).Some? {
      var c := Ask(w, rows, used).value;
      RoundGrows(w, seed, rows, resources, c);
      SimpleShape(w, seed, RowsAfter(w, rows, resources, c), ResourcesAfter(w, resources, c), used + 1, rounds - 1);
    }
  }

  lemma RoundGrows(w: Setting, seed: seq<Row>, rows: seq<Row>, resources: map<Key, Slice>, c: Completion)
    requires Terminating(w.table) && Grown(seed, rows)
    ensures Grown(seed, RowsAfter(w, rows, resources, c))
  {
    hide Paired, SerialBody;
    var assistant, answers := AssistantRow(c.calls, c.content), SerialRows(w.table, c.calls, resources);
    var added := rows[|seed|..];
    PairedAppend(added, assistant, answers);
    hide SerialRows;
    assert rows == seed + added;
    assert (seed + added + ([assistant] + answers))[|seed|..] == added + ([assistant] + answers);
  }

  // ---------------------------------------------------------------- what the model sees

  /** The message that shows a row. */
  predicate Shows(dump: Dump, row: Row, m: Message) {
    match row
    case SystemRow(content) => m.role == "system" && m.content == Some(content) && m.calls == [] && m.callId == ""
    case UserRow(content) => m.role == "user" && m.content == Some(content) && m.calls == [] && m.callId == ""
    case AssistantRow(calls, text) => m.role == "assistant" && m.content == text && m.calls == calls && m.callId == ""
    case ToolRow(id, _, body) => m.role == "tool" && m.content == Some(dump(body)) && m.calls == [] && m.callId == id
    case OtherRow(_) => false
  }

  /** The messages show the system, user, assistant and tool rows, each once and in order. */
  ghost predicate Rendered(dump: Dump, rows: seq<Row>, ms: seq<Message>) {
    exists at: seq<nat> :: RenderedAt(dump, rows, ms, at)
  }

  ghost predicate RenderedAt(dump: Dump, rows: seq<Row>, ms: seq<Message>, at: seq<nat>) {
    |at| == |ms| &&
    (forall k :: 0 <= k < |at| ==> at[k] < |rows| && Shows(dump, rows[at[k]], ms[k])) &&
    (forall j, k :: 0 <= j < k < |at| ==> at[j] < at[k]) &&
    forall i: nat :: i < |rows| && !rows[i].OtherRow? ==> i in at
  }

  lemma {:induction false} RenderIsFaithful(dump: Dump, rows: seq<Row>) returns (at: seq<nat>)
    ensures RenderedAt(dump, rows, Render(dump, rows), at)
  {
    if rows == [] {
      at := [];
    } else {
      var n := |rows| - 1;
      var front, row := rows[..n], rows[n];
      at := RenderIsFaithful(dump, front);
      RenderLast(dump, front, row);
      RowShown(dump, row);
      hide Render, RenderRow, RenderedAt, Shows;
      assert rows == front + [row];
      if row.OtherRow? {
        RenderedSkips(dump, front, Render(dump, front), at, row);
        assert Render(dump, front) + [] == Render(dump, front);
      } else {
        RenderedAppends(dump, front, Render(dump, front), at, row, RenderRow(dump, row)[0]);
        at := at + [n];
      }
    }
  }

  /** One message for every row the model sees, none for another. */
  lemma RowShown(dump: Dump, row: Row)
    ensures if row.OtherRow? then RenderRow(dump, row) == []
      else |RenderRow(dump, row)| == 1 && RenderRow(dump, row) == [RenderRow(dump, row)[0]] && Shows(dump, row, RenderRow(dump, row)[0])
  {
  }

  lemma RenderedSkips(dump: Dump, front: seq<Row>, ms: seq<Message>, at: seq<nat>, row: Row)
    requires RenderedAt(dump, front, ms, at) && row.OtherRow?
    ensures RenderedAt(dump, front + [row], ms, at)
  {
    hide Shows;
  }

  lemma RenderedAppends(dump: Dump, front: seq<Row>, ms: seq<Message>, at: seq<nat>, row: Row, m: Message)
    requires RenderedAt(dump, front, ms, at) && Shows(dump, row, m)
    ensures RenderedAt(dump, front + [row], ms + [m], at + [|front|])
  {
    hide Shows;
    assert forall i: nat :: i in at ==> i in at + [|front|];
  }

  /** The completion ends the loop: no tool calls, and the model says it is done. */
  predicate Concludes(c: Completion) {
    c.calls == [] && (c.finishReason == "stop" || c.finishReason == "length" || c.finishReason == "content_filter")
  }

  /** Reply k was the answer to the transcript before it, and stands in it as an assistant row at
      marks[k], followed by one tool row per call. */
  ghost predicate Stands(w: Setting, rows: seq<Row>, reply: Completion, k: nat, from: nat, to: nat) {
    to == from + 1 + |reply.calls| && to <= |rows| &&
    rows[from].AssistantRow? && rows[from].calls == reply.calls && rows[from].text == reply.content &&
    Answers(reply.calls, rows[from + 1..to]) &&
    exists ms :: Rendered(w.dump, rows[..from], ms) && w.model(k, w.head + ms) == Some(reply)
  }

  ghost predicate Transcript(w: Setting, seed: seq<Row>, rows: seq<Row>, replies: seq<Completion>, marks: seq<nat>) {
    seed <= rows && |marks| == |replies| + 1 && marks[0] == |seed| && marks[|replies|] == |rows| &&
    (forall k :: 0 <= k < |replies| ==> Stands(w, rows, replies[k], k, marks[k], marks[k + 1])) &&
    forall k :: 0 <= k < |replies| - 1 ==> !Concludes(replies[k])
  }

  lemma TranscriptStart(w: Setting, seed: seq<Row>)
    ensures Transcript(w, seed, seed, [], [|seed|])
  {
  }

  lemma StandsOn(w: Setting, rows: seq<Row>, more: seq<Row>, reply: Completion, k: nat, from: nat, to: nat)
    requires Stands(w, rows, reply, k, from, to)
    ensures Stands(w, rows + more, reply, k, from, to)
  {
    assert (rows + more)[..from] == rows[..from] && (rows + more)[from + 1..to] == rows[from + 1..to];
  }

  lemma TranscriptOn(w: Setting, seed: seq<Row>, rows: seq<Row>, replies: seq<Completion>, marks: seq<nat>, c: Completion, resources: map<Key, Slice>)
    requires Terminating(w.table) && Transcript(w, seed, rows, replies, marks) && Ask(w, rows, |replies|) == Some(c)
    requires replies != [] ==> !Concludes(replies[|replies| - 1])
    ensures var after := RowsAfter(w, rows, resources, c); Transcript(w, seed, after, replies + [c], marks + [|after|])
  {
    var more := [AssistantRow(c.calls, c.content)] + SerialRows(w.table, c.calls, resources);
    var after := RowsAfter(w, rows, resources, c);
    assert after == rows + more;
    StandsNew(w, rows, c, |replies|, resources);
    hide Stands, SerialRows, RowsAfter, Terminating, Ask, Concludes;
    forall k | 0 <= k < |replies| ensures Stands(w, after, replies[k], k, marks[k], marks[k + 1]) {
      StandsOn(w, rows, more, replies[k], k, marks[k], marks[k + 1]);
    }
  }

  lemma StandsNew(w: Setting, rows: seq<Row>, c: Completion, k: nat, resources: map<Key, Slice>)
    requires Terminating(w.table) && Ask(w, rows, k) == Some(c)
    ensures var after := RowsAfter(w, rows, resources, c); Stands(w, after, c, k, |rows|, |after|)
  {
    AskSees(w, rows, k);
    SerialAnswers(w.table, c.calls, resources);
    var assistant, answers := AssistantRow(c.calls, c.content), SerialRows(w.table, c.calls, resources);
    AnswersLength(c.calls, answers);
    Slices(rows, assistant, answers);
    hide Ask, SerialRows, Rendered, Answers, Terminating;
  }

  lemma Slices<T>(rows: seq<T>, one: T, more: seq<T>)
    ensures var all := rows + ([one] + more); all[..|rows|] == rows && all[|rows|] == one && all[|rows| + 1..|all|] == more
  {
  }

  lemma AskSees(w: Setting, rows: seq<Row>, k: nat)
    ensures exists ms :: Rendered(w.dump, rows, ms) && w.model(k, w.head + ms) == Ask(w, rows, k)
  {
    var at := RenderIsFaithful(w.dump, rows);
    hide RenderedAt, Render;
    assert Rendered(w.dump, rows, Render(w.dump, rows));
  }

  lemma SerialAnswers(table: Table, calls: seq<Call>, resources: map<Key, Slice>)
    requires Terminating(table)
    ensures Answers(calls, SerialRows(table, calls, resources))
  {
    hide SerialBody;
  }

  // ---------------------------------------------------------------- the loop

  ghost predicate Kept(persist: bool, writes: Writes, rows: seq<Row>) {
    if persist then Persisted(writes, rows) else writes == []
  }

  /** The loop as it runs: parallel dispatch, incremental rendering, row-by-row persistence.
      It makes of the transcript exactly what the simple loop makes of it. */
  method RunSessionLoop(w: Setting, seed: seq<Row>, resources: map<Key, Slice>, maxRounds: int, persist: bool)
    returns (rows: seq<Row>, writes: Writes, completions: nat, raised: bool, truncated: bool, ghost replies: seq<Completion>, ghost marks: seq<nat>)
    requires Terminating(w.table)
    ensures Transcript(w, seed, rows, replies, marks) && |replies| == completions - (if raised then 1 else 0)
    ensures !raised ==> (truncated <==> replies == [] || !Concludes(replies[|replies| - 1]))
    ensures !raised && truncated ==> completions == if maxRounds < 0 then 0 else maxRounds
    ensures completions <= if maxRounds < 0 then 0 else maxRounds
    ensures raised ==> exists ms :: Rendered(w.dump, rows, ms) && w.model(completions - 1, w.head + ms) == None
    ensures var limit := if maxRounds < 0 then 0 else maxRounds; var end := Simple(w, seed, resources, 0, limit);
      rows == end.rows && completions == end.completions && raised == end.raised && (!raised ==> (truncated <==> !end.finished)) &&
      Shaped(end, seed, 0, limit)
    ensures Kept(persist, writes, rows)
  {
    hide Render, RenderRow, Shaped, Terminating, Persisted, RowsAfter, ResourcesAfter, Kept, Transcript, RenderedAt, Stands;
    ghost var limit := if maxRounds < 0 then 0 else maxRounds;
    ghost var end := Simple(w, seed, resources, 0, limit);
    assert Grown(seed, seed) by { SeedGrown(seed); }
    SimpleShape(w, seed, seed, resources, 0, limit);
    writes := Seeded(seed, persist);
    rows := seed;
    var state := resources;
    var rendered, messages := 0, [];
    EmptyRendered(w.dump, rows);
    completions, raised, truncated := 0, false, false;
    var finished := false;
    replies, marks := [], [|seed|];
    TranscriptStart(w, seed);
    while completions < maxRounds && !finished
      invariant Transcript(w, seed, rows, replies, marks) && |replies| == completions
      invariant finished <==> replies != [] && Concludes(replies[|replies| - 1])
      invariant completions <= limit && !raised && rendered <= |rows|
      invariant messages == Render(w.dump, rows[..rendered])
      invariant Kept(persist, writes, rows)
      invariant finished ==> end == Outcome(rows, true, completions, false)
      invariant !finished ==> end == Simple(w, rows, state, completions, limit - completions)
      decreases limit - completions, !finished
    {
      messages := Refreshed(w.dump, rows, rendered, messages);
      rendered := |rows|;
      var reply := w.model(completions, w.head + messages);
      assert reply == Ask(w, rows, completions);
      completions := completions + 1;
      if reply.None? {
        raised := true;
        ghost var at := RenderIsFaithful(w.dump, rows);
        assert Rendered(w.dump, rows, Render(w.dump, rows));
        return;
      }
      ghost var before := rows;
      TranscriptOn(w, seed, rows, replies, marks, reply.value, state);
      rows, writes, state, finished := OneRound(w, reply.value, rows, state, persist, writes, completions, limit - completions);
      replies, marks := replies + [reply.value], marks + [|rows|];
      assert rows[..rendered] == before;
    }
    truncated := !finished;
  }

  /** Extend the rendered tail with the rows it lacks. */
  method Refreshed(dump: Dump, rows: seq<Row>, rendered: nat, messages: seq<Message>) returns (all: seq<Message>)
    requires rendered <= |rows| && messages == Render(dump, rows[..rendered])
    ensures all == Render(dump, rows)
  {
    all := messages;
    assert rows[..rendered] + rows[rendered..] == rows;
    if |rows| > rendered {
      RenderIncremental(dump, rows[..rendered], rows[rendered..]);
      all := messages + Render(dump, rows[rendered..]);
    } else {
      assert rows[..rendered] == rows;
    }
  }

  /** What follows one completion: the assistant row, the dispatch of its calls, the finishing test. */
  method OneRound(
    w: Setting, c: Completion, rows: seq<Row>, resources: map<Key, Slice>, persist: bool, writes: Writes, ghost used: nat, ghost rounds: nat
  )
    returns (rowsAfter: seq<Row>, writesAfter: Writes, resourcesAfter: map<Key, Slice>, finished: bool)
    requires Terminating(w.table) && Kept(persist, writes, rows)
    ensures rows <= rowsAfter && Kept(persist, writesAfter, rowsAfter)
    ensures finished <==> Final(c)
    ensures rowsAfter == RowsAfter(w, rows, resources, c)
    ensures Simple(w, rowsAfter, resourcesAfter, used, rounds) == Simple(w, rowsAfter, ResourcesAfter(w, resources, c), used, rounds)
  {
    hide Simple, SerialBody, AnsweredInOrder, LeftBy, RunsUnder, PreError;
    var assistant := AssistantRow(c.calls, c.content);
    rowsAfter, writesAfter, resourcesAfter := rows + [assistant], writes, resources;
    if persist { writesAfter := writesAfter + [(|rowsAfter| - 1, assistant)]; }
    finished := Final(c);
    if c.calls != [] {
      var started;
      ghost var before, after;
      rowsAfter, writesAfter, resourcesAfter, started, before, after := DispatchRound(w.table, c.calls, resources, rowsAfter, persist, writesAfter);
    }
    assert c.calls == [] ==> SerialRows(w.table, c.calls, resources) == [];
    SimpleAgrees(w, rowsAfter, resourcesAfter, ResourcesAfter(w, resources, c), used, rounds);
    hide SerialRows, Persisted, SameResources;
  }

  lemma SeedGrown(seed: seq<Row>)
    ensures Grown(seed, seed)
  {
    assert seed[|seed|..] == [];
  }

  lemma EmptyRendered(dump: Dump, rows: seq<Row>)
    ensures Render(dump, rows[..0]) == []
  {
  }

  /** The writer is first given the seed rows. */
  method Seeded(seed: seq<Row>, persist: bool) returns (writes: Writes)
    ensures Kept(persist, writes, seed)
  {
    writes := [];
    if persist {
      for i := 0 to |seed|
        invariant Persisted(writes, seed[..i])
      {
        writes := writes + [(i, seed[i])];
      }
      assert seed[..|seed|] == seed;
    }
  }
}
