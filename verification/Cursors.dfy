/** Cursor replay (src/rath/server/app.py list_runs, events, stream; src/rath/runtime/sqlite.py
    list_runs, list_run_events). */
module Cursors {
  import opened Models
  import opened RecordInvariant

  // ---------------------------------------------------------------- pages of runs

  /** The columns of a run row that order it; the rest of the row goes with the id. */
  datatype Entry = Entry(createdAt: Time, id: RunId)

  /** ORDER BY created_at, id. */
  predicate Before(a: Entry, b: Entry) {
    a.createdAt < b.createdAt || (a.createdAt == b.createdAt && a.id < b.id)
  }

  ghost predicate Least(pool: set<Entry>, m: Entry) {
    m in pool && forall x :: x in pool ==> x == m || Before(m, x)
  }

  lemma {:induction false} LeastExists(pool: set<Entry>)
    requires pool != {}
    ensures exists m :: Least(pool, m)
  {
    var x :| x in pool;
    assert forall y :: y in pool ==> y == x || y in pool - {x};
    if pool - {x} != {} {
      LeastExists(pool - {x});
      var m :| Least(pool - {x}, m);
      assert if Before(x, m) then Least(pool, x) else Least(pool, m);
    } else {
      assert Least(pool, x);
    }
  }

  ghost predicate InOrder(rows: seq<Entry>) {
    forall i, j :: 0 <= i < j < |rows| ==> Before(rows[i], rows[j])
  }

  ghost predicate Holds(rows: seq<Entry>, pool: set<Entry>) {
    forall x :: x in rows <==> x in pool
  }

  /** The rows in query order: all of them, each once. */
  ghost function Listed(pool: set<Entry>): (rows: seq<Entry>)
    ensures Holds(rows, pool) && InOrder(rows) && |rows| == |pool|
  {
    if pool == {} then []
    else
      LeastExists(pool);
      var m :| Least(pool, m);
      [m] + Listed(pool - {m})
  }

  /** The rows strictly after a cursor row. */
  ghost function Beyond(pool: set<Entry>, cursor: Option<Entry>): set<Entry> {
    match cursor case None => pool case Some(c) => set x | x in pool && Before(c, x)
  }

  /** There is one listing of a set of rows. */
  lemma {:induction false} OneListing(a: seq<Entry>, b: seq<Entry>, pool: set<Entry>)
    requires Holds(a, pool) && Holds(b, pool) && InOrder(a) && InOrder(b)
    ensures a == b
  {
    assert (a != [] ==> a[0] in a) && (b != [] ==> b[0] in b);
    if pool != {} {
      var x :| x in pool;
      assert x in a && x in b;
      assert a[0] in a && b[0] in b;
      assert a[0] in b && b[0] in a;
      assert forall y :: y in a[1..] <==> y in pool - {a[0]};
      assert forall y :: y in b[1..] <==> y in pool - {b[0]};
      OneListing(a[1..], b[1..], pool - {a[0]});
      assert a == [a[0]] + a[1..] && b == [b[0]] + b[1..];
    }
  }

  /** The rows beyond the k-th are the rest of the listing. */
  lemma RestHolds(rows: seq<Entry>, pool: set<Entry>, k: nat)
    requires Holds(rows, pool) && InOrder(rows) && k < |rows|
    ensures Holds(rows[k + 1..], Beyond(pool, Some(rows[k]))) && InOrder(rows[k + 1..])
  {
    var rest := rows[k + 1..];
    assert rows == rows[..k] + [rows[k]] + rest;
    forall x ensures x in rest <==> x in Beyond(pool, Some(rows[k])) {
      assert x in pool <==> x in rows[..k] || x == rows[k] || x in rest;
      assert x in rows[..k] ==> Before(x, rows[k]);
    }
  }

  lemma BeyondIsRest(pool: set<Entry>, k: nat)
    requires k < |Listed(pool)|
    ensures Listed(Beyond(pool, Some(Listed(pool)[k]))) == Listed(pool)[k + 1..]
  {
    hide Beyond, Holds, InOrder;
    var rows := Listed(pool);
    var later := Beyond(pool, Some(rows[k]));
    RestHolds(rows, pool, k);
    OneListing(rows[k + 1..], Listed(later), later);
  }

  function Clamp(limit: int, most: nat): nat
    requires most >= 1
  {
    if limit < 1 then 1 else if limit > most then most else limit
  }

  function Take<T>(rows: seq<T>, n: nat): seq<T> {
    if |rows| <= n then rows else rows[..n]
  }

  datatype Page = Page(items: seq<Entry>, next: Option<Entry>)

  /** The handler asks for one row more than it shows, to know whether there is a next page. */
  ghost function PageOf(pool: set<Entry>, after: Option<Entry>, limit: nat): Page
    requires limit >= 1
  {
    var values := Take(Listed(Beyond(pool, after)), limit + 1);
    var page := Take(values, limit);
    Page(page, if |values| > limit then Some(page[|page| - 1]) else None)
  }

  /** Follow `next` to the end. */
  ghost function Follow(pool: set<Entry>, after: Option<Entry>, limit: nat): seq<Entry>
    requires limit >= 1
    decreases |Beyond(pool, after)|
  {
    var page := PageOf(pool, after, limit);
    if page.next.None? then page.items
    else
      NextIsLater(pool, after, limit);
      page.items + Follow(pool, page.next, limit)
  }

  lemma PageIsPrefix(rest: seq<Entry>, limit: nat)
    requires limit >= 1
    ensures Take(Take(rest, limit + 1), limit) == Take(rest, limit)
    ensures |Take(rest, limit + 1)| > limit <==> |rest| > limit
  {
  }

  lemma BeyondTwice(pool: set<Entry>, after: Option<Entry>, c: Entry)
    requires c in Beyond(pool, after)
    ensures Beyond(Beyond(pool, after), Some(c)) == Beyond(pool, Some(c))
  {
  }

  /** The next cursor is a row of the listing, and what lies beyond it is what the page left out. */
  lemma NextIsLater(pool: set<Entry>, after: Option<Entry>, limit: nat)
    requires limit >= 1 && PageOf(pool, after, limit).next.Some?
    ensures var rest := Listed(Beyond(pool, after)); var page := PageOf(pool, after, limit);
      |rest| > limit && page.items == rest[..limit] && Listed(Beyond(pool, page.next)) == rest[limit..]
      && |Beyond(pool, page.next)| < |Beyond(pool, after)|
  {
    var inner := Beyond(pool, after);
    var rest := Listed(inner);
    PageIsPrefix(rest, limit);
    BeyondIsRest(inner, limit - 1);
    assert rest[limit - 1] in rest;
    BeyondTwice(pool, after, rest[limit - 1]);
    hide Beyond, InOrder, Listed;
  }

  lemma {:induction false} FollowIsRest(pool: set<Entry>, after: Option<Entry>, limit: nat)
    requires limit >= 1
    ensures Follow(pool, after, limit) == Listed(Beyond(pool, after))
    decreases |Beyond(pool, after)|
  {
    hide Beyond, InOrder, Listed, Holds;
    var page := PageOf(pool, after, limit);
    var rest := Listed(Beyond(pool, after));
    if page.next.Some? {
      NextIsLater(pool, after, limit);
      FollowIsRest(pool, page.next, limit);
      assert rest == rest[..limit] + rest[limit..];
    } else {
      PageIsPrefix(rest, limit);
    }
  }

  /** Following `next` over a fixed store lists every run once, in order, whatever the page size. */
  lemma PagesAreExact(pool: set<Entry>, limit: int)
    ensures var rows := Follow(pool, None, Clamp(limit, 200));
      (forall x :: x in rows <==> x in pool) && |rows| == |pool| &&
      forall i, j :: 0 <= i < j < |rows| ==> rows[i].createdAt < rows[j].createdAt || (rows[i].createdAt == rows[j].createdAt && rows[i].id < rows[j].id)
  {
    FollowIsRest(pool, None, Clamp(limit, 200));
  }

  /** A page shows between one and 200 rows, as many as asked for in that range, and names a next
      cursor exactly when more rows follow. */
  lemma PageSize(pool: set<Entry>, after: Option<Entry>, limit: int)
    ensures var page := PageOf(pool, after, Clamp(limit, 200)); var rest := |Listed(Beyond(pool, after))|;
      var size := if limit < 1 then 1 else if limit > 200 then 200 else limit;
      |page.items| == (if rest <= size then rest else size) && (page.next.Some? <==> rest > size) &&
      (page.next.Some? ==> page.next.value == page.items[size - 1])
  {
    PageIsPrefix(Listed(Beyond(pool, after)), Clamp(limit, 200));
  }

  // ---------------------------------------------------------------- pages of events

  /** Where a read of at most `limit` events after `cursor` ends. */
  function EndOf(length: nat, cursor: nat, limit: nat): nat {
    if length <= cursor then cursor else if length - cursor <= limit then length else cursor + limit
  }

  /** WHERE sequence > cursor ORDER BY sequence LIMIT limit, over a log numbered from 1. */
  function Read(log: seq<Event>, cursor: nat, limit: nat): (items: seq<Event>)
    requires NumberedEvents(log)
    ensures items == [] <==> |log| <= cursor || limit == 0
    ensures items != [] ==> items[|items| - 1].sequence == EndOf(|log|, cursor, limit) == cursor + |items| <= |log|
    ensures items != [] ==> items == log[cursor..EndOf(|log|, cursor, limit)]
    ensures |items| == if |log| <= cursor then 0 else if |log| - cursor <= limit then |log| - cursor else limit
  {
    if cursor >= |log| then [] else log[cursor..EndOf(|log|, cursor, limit)]
  }

  /** Follow the events handler's `next`: a full page names its last sequence. */
  function FollowEvents(log: seq<Event>, cursor: nat, limit: nat): seq<Event>
    requires NumberedEvents(log) && limit >= 1
    decreases if cursor < |log| then |log| - cursor else 0
  {
    var items := Read(log, cursor, limit);
    if |items| == limit then items + FollowEvents(log, items[|items| - 1].sequence, limit) else items
  }

  lemma SliceJoin<T>(s: seq<T>, a: nat, b: nat, c: nat)
    requires a <= b <= c <= |s|
    ensures s[a..c] == s[a..b] + s[b..c]
  {
  }

  /** One page: everything left, or a full page and what follows it. */
  lemma OnePage(log: seq<Event>, cursor: nat, limit: nat)
    requires NumberedEvents(log) && limit >= 1
    ensures |log| < cursor + limit ==> FollowEvents(log, cursor, limit) == if cursor <= |log| then log[cursor..|log|] else []
    ensures cursor + limit <= |log| ==> FollowEvents(log, cursor, limit) == log[cursor..cursor + limit] + FollowEvents(log, cursor + limit, limit)
  {
    hide NumberedEvents;
    var items := Read(log, cursor, limit);
    if cursor + limit <= |log| {
      assert items == log[cursor..cursor + limit] && |items| == limit;
    } else {
      assert items == (if cursor <= |log| then log[cursor..|log|] else []) && |items| != limit;
    }
    hide Read;
  }

  lemma {:induction false} EventPagesAreExact(log: seq<Event>, cursor: nat, limit: nat)
    requires NumberedEvents(log) && limit >= 1
    ensures FollowEvents(log, cursor, limit) == if cursor <= |log| then log[cursor..|log|] else []
    decreases if cursor < |log| then |log| - cursor else 0
  {
    hide NumberedEvents, Read, FollowEvents;
    OnePage(log, cursor, limit);
    if cursor + limit <= |log| {
      EventPagesAreExact(log, cursor + limit, limit);
      SliceJoin(log, cursor, cursor + limit, |log|);
    }
  }

  // ---------------------------------------------------------------- server-sent events

  /** The log as successive reads see it: it only grows. */
  ghost predicate Growing(views: seq<seq<Event>>) {
    views != [] && (forall i :: 0 <= i < |views| ==> NumberedEvents(views[i])) &&
    forall i, j :: 0 <= i < j < |views| ==> views[i] <= views[j]
  }

  /** What a client that had seen `start` events received: everything up to `cursor`, once and in order. */
  ghost predicate Received(emitted: seq<Event>, log: seq<Event>, start: nat, cursor: nat) {
    if emitted == [] then cursor == start
    else start < cursor <= |log| && emitted == log[start..cursor]
  }

  lemma ReceivedLater(emitted: seq<Event>, log: seq<Event>, later: seq<Event>, start: nat, cursor: nat)
    requires Received(emitted, log, start, cursor) && log <= later
    ensures Received(emitted, later, start, cursor)
  {
    if emitted != [] { assert log[start..cursor] == later[start..cursor]; }
  }

  lemma ReceivedMore(emitted: seq<Event>, more: seq<Event>, log: seq<Event>, start: nat, middle: nat, cursor: nat)
    requires Received(emitted, log, start, middle) && Received(more, log, middle, cursor)
    ensures Received(emitted + more, log, start, cursor)
  {
    if more == [] { assert emitted + more == emitted; }
    else if emitted == [] { assert emitted + more == more; }
    else { assert log[start..cursor] == log[start..middle] + log[middle..cursor]; }
  }

  /** The first page takes the query parameter before the header; the loop takes the header before the parameter. */
  function PageCursor(header: Option<nat>, query: Option<nat>): nat {
    if query.Some? then query.value else if header.Some? then header.value else 0
  }

  function LoopCursor(header: Option<nat>, query: Option<nat>): nat {
    if header.Some? then header.value else if query.Some? then query.value else 0
  }

  /** Where the emitted events start. */
  function StartOf(header: Option<nat>, query: Option<nat>, firstRead: seq<Event>): nat {
    if PageCursor(header, query) < |firstRead| then PageCursor(header, query) else LoopCursor(header, query)
  }

  /** Yield events one by one; the connection may break after `room` of them. */
  method Yield(items: seq<Event>, cursor: nat, room: Option<nat>) returns (sent: seq<Event>, next: nat, cut: bool)
    ensures sent <= items && (cut <==> room.Some? && room.value < |items|) && |sent| == (if cut then room.value else |items|)
    ensures next == if sent == [] then cursor else sent[|sent| - 1].sequence
  {
    sent, next, cut := [], cursor, false;
    var k := 0;
    while k < |items|
      invariant k <= |items| && sent == items[..k] && !cut && (room.Some? ==> k <= room.value)
      invariant next == if k == 0 then cursor else items[k - 1].sequence
    {
      if room == Some(k) { return sent, next, true; }
      sent, next, k := sent + [items[k]], items[k].sequence, k + 1;
    }
  }

  function RoomLeft(most: Option<nat>, sent: nat): Option<nat> {
    if most.Some? then Some(if sent <= most.value then most.value - sent else 0) else None
  }

  /** One connection, which may break between any two events or after any number of reads;
      views[0] is what the first page read, `most` how many events get through. */
  method Generate(header: Option<nat>, query: Option<nat>, limit: int, follow: bool, views: seq<seq<Event>>, most: Option<nat>)
    returns (emitted: seq<Event>, cursor: nat)
    requires Growing(views)
    ensures Received(emitted, views[|views| - 1], StartOf(header, query, views[0]), cursor)
    ensures most.Some? ==> |emitted| <= most.value
  {
    ghost var final := views[|views| - 1];
    var start := StartOf(header, query, views[0]);
    assert forall i :: 0 <= i < |views| ==> views[i] <= final;
    hide NumberedEvents, Received, Read;
    var initial := Read(views[0], PageCursor(header, query), Clamp(limit, 1000));
    var cut;
    emitted, cursor, cut := Yield(initial, start, most);
    YieldReceived(views[0], final, start, Clamp(limit, 1000), emitted, cursor);
    if cut || (initial != [] && !follow) { return; }
    var k := 1;
    while k < |views|
      invariant 1 <= k <= |views|
      invariant Received(emitted, final, start, cursor) && (most.Some? ==> |emitted| <= most.value)
    {
      var items := Read(views[k], cursor, 200);
      var sent, next;
      sent, next, cut := Yield(items, cursor, RoomLeft(most, |emitted|));
      YieldReceived(views[k], final, cursor, 200, sent, next);
      ReceivedMore(emitted, sent, final, start, cursor, next);
      emitted, cursor, k := emitted + sent, next, k + 1;
      if cut || !follow { return; }
    }
  }

  /** What gets through of one read is what follows the cursor. */
  lemma YieldReceived(log: seq<Event>, later: seq<Event>, cursor: nat, limit: nat, sent: seq<Event>, next: nat)
    requires NumberedEvents(log) && log <= later
    requires sent != [] ==> sent <= Read(log, cursor, limit)
    requires next == if sent == [] then cursor else sent[|sent| - 1].sequence
    ensures Received(sent, later, cursor, next)
  {
    if sent != [] {
      var items := Read(log, cursor, limit);
      assert sent == items[..|sent|];
      assert items[..|sent|] == log[cursor..cursor + |sent|];
      assert sent[|sent| - 1] == log[cursor + |sent| - 1];
    }
    ReceivedLater(sent, log, later, cursor, next);
  }

  /** With a single cursor, or two that agree, the events start right after it; with two that
      differ they do exactly when the query parameter points past what the first page saw. */
  lemma ResumesAtHeader(header: Option<nat>, query: Option<nat>, firstRead: seq<Event>)
    ensures header.None? ==> StartOf(header, query, firstRead) == if query.Some? then query.value else 0
    ensures header.Some? ==>
      (StartOf(header, query, firstRead) == header.value <==> query.None? || query.value == header.value || |firstRead| <= query.value)
  {
  }

  ghost function Final(views: seq<seq<Event>>): seq<Event>
    requires views != []
  {
    views[|views| - 1]
  }

  /** Successive connections, each reading the log later than the one before. */
  ghost predicate Successive(connections: seq<seq<seq<Event>>>) {
    connections != [] &&
    (forall c :: 0 <= c < |connections| ==> Growing(connections[c])) &&
    forall c :: 0 < c < |connections| ==> Final(connections[c - 1]) <= connections[c][0]
  }

  /** A client that reconnects with the last id it received sees one gap-free, repeat-free
      stretch of the growing log, however often and wherever the connection breaks. */
  method Reconnect(query: nat, limit: int, follow: bool, connections: seq<seq<seq<Event>>>, breaks: nat -> Option<nat>)
    returns (received: seq<Event>, cursor: nat)
    requires Successive(connections)
    ensures Received(received, Final(connections[|connections| - 1]), query, cursor)
  {
    hide Received;
    received, cursor := Generate(None, Some(query), limit, follow, connections[0], breaks(0));
    var c := 1;
    while c < |connections|
      invariant 1 <= c <= |connections|
      invariant Received(received, Final(connections[c - 1]), query, cursor)
    {
      var views := connections[c];
      assert Final(connections[c - 1]) <= views[0] && views[0] <= Final(views);
      var emitted, next := Generate(Some(cursor), None, limit, follow, views, breaks(c));
      ReceivedLater(received, Final(connections[c - 1]), Final(views), query, cursor);
      ReceivedMore(received, emitted, Final(views), query, cursor, next);
      received, cursor, c := received + emitted, next, c + 1;
    }
  }
}
