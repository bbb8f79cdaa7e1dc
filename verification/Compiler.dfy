/** The workflow compiler's checks (src/rath/definition/compiler.py).  Acceptance is stated
    over paths in the declared graph and is then carried to the durable runtime. */
module Compiler {
  import opened Models
  import opened Sequential
  import Protocol
  import History

  datatype Kind = StepKind | RouterKind | OpaqueKind

  datatype NodeSpec = NodeSpec(id: NodeId, kind: Kind, isAsync: bool, timeout: Option<nat>, checkpoint: bool, successors: seq<NodeId>)

  datatype DefinitionError =
    | EntryCount(found: nat)
    | DuplicateIds
    | SynchronousTimeout(id: NodeId)
    | UnknownSuccessor(id: NodeId, successor: NodeId)
    | RouterWithoutSuccessors(id: NodeId)
    | Unreachable(ids: set<NodeId>)

  datatype Verdict = Accepted | Rejected(error: DefinitionError)

  // ---------------------------------------------------------------- what acceptance means

  function IdsOf(nodes: seq<NodeSpec>): set<NodeId> {
    set k | 0 <= k < |nodes| :: nodes[k].id
  }

  ghost predicate UniqueIds(nodes: seq<NodeSpec>) {
    forall j, k :: 0 <= j < k < |nodes| ==> nodes[j].id != nodes[k].id
  }

  ghost predicate Edge(nodes: seq<NodeSpec>, a: NodeId, b: NodeId) {
    exists k :: 0 <= k < |nodes| && nodes[k].id == a && b in nodes[k].successors
  }

  ghost predicate Path(nodes: seq<NodeSpec>, p: seq<NodeId>) {
    p != [] && forall i :: 0 <= i < |p| - 1 ==> Edge(nodes, p[i], p[i + 1])
  }

  ghost predicate Connects(nodes: seq<NodeSpec>, p: seq<NodeId>, a: NodeId, b: NodeId) {
    Path(nodes, p) && p[0] == a && p[|p| - 1] == b
  }

  ghost predicate Reachable(nodes: seq<NodeSpec>, a: NodeId, b: NodeId) {
    exists p :: Connects(nodes, p, a, b)
  }

  /** What is wrong with one node, in the order in which it is looked for. */
  function NodeProblem(node: NodeSpec, ids: set<NodeId>, production: bool): (r: Option<DefinitionError>)
    ensures r.None? <==>
      !(production && !node.isAsync && node.timeout.Some?) &&
      (forall t :: t in node.successors ==> t in ids) &&
      (node.kind.RouterKind? ==> node.successors != [])
  {
    if production && !node.isAsync && node.timeout.Some? then Some(SynchronousTimeout(node.id))
    else if FirstUnknown(node.successors, ids).Some? then Some(UnknownSuccessor(node.id, FirstUnknown(node.successors, ids).value))
    else if node.kind.RouterKind? && node.successors == [] then Some(RouterWithoutSuccessors(node.id))
    else None
  }

  function FirstUnknown(targets: seq<NodeId>, ids: set<NodeId>): (r: Option<NodeId>)
    ensures r.None? <==> forall t :: t in targets ==> t in ids
    ensures r.Some? ==> r.value in targets && r.value !in ids
  {
    if targets == [] then None
    else if targets[0] !in ids then Some(targets[0])
    else FirstUnknown(targets[1..], ids)
  }

  /** The nodes are exactly those reachable from the entry and each is sound on its own. */
  ghost predicate Sound(nodes: seq<NodeSpec>, entry: NodeId, production: bool) {
    UniqueIds(nodes) &&
    (forall k :: 0 <= k < |nodes| ==> NodeProblem(nodes[k], IdsOf(nodes), production).None?) &&
    forall id :: id in IdsOf(nodes) <==> Reachable(nodes, entry, id)
  }

  // ---------------------------------------------------------------- facts about the graph

  lemma IdsOfFront(nodes: seq<NodeSpec>, n: nat)
    requires |nodes| == n + 1
    ensures IdsOf(nodes) == IdsOf(nodes[..n]) + {nodes[n].id}
  {
    forall id | id in IdsOf(nodes[..n]) ensures id in IdsOf(nodes) {
      var k :| 0 <= k < n && nodes[..n][k].id == id;
      assert nodes[k].id == id;
    }
    forall id | id in IdsOf(nodes) ensures id in IdsOf(nodes[..n]) || id == nodes[n].id {
      var k :| 0 <= k <= n && nodes[k].id == id;
      assert k < n ==> nodes[..n][k].id == id;
    }
  }

  lemma UniqueFront(nodes: seq<NodeSpec>, n: nat)
    requires |nodes| == n + 1
    ensures UniqueIds(nodes) <==> UniqueIds(nodes[..n]) && nodes[n].id !in IdsOf(nodes[..n])
  {
    var front := nodes[..n];
    assert forall k :: 0 <= k < n ==> front[k] == nodes[k];
    assert nodes[n].id in IdsOf(front) <==> exists k :: 0 <= k < n && front[k].id == nodes[n].id;
  }

  /** The size test on the id set is the uniqueness test. */
  lemma {:induction false} UniqueBySize(nodes: seq<NodeSpec>)
    ensures |IdsOf(nodes)| <= |nodes|
    ensures |IdsOf(nodes)| == |nodes| <==> UniqueIds(nodes)
  {
    if nodes != [] {
      var n := |nodes| - 1;
      UniqueBySize(nodes[..n]);
      IdsOfFront(nodes, n);
      UniqueFront(nodes, n);
      hide IdsOf, UniqueIds;
    }
  }

  lemma ReachableStep(nodes: seq<NodeSpec>, a: NodeId, b: NodeId, c: NodeId)
    requires Reachable(nodes, a, b) && Edge(nodes, b, c)
    ensures Reachable(nodes, a, c)
  {
    var p :| Connects(nodes, p, a, b);
    var q := p + [c];
    forall i | 0 <= i < |q| - 1 ensures Edge(nodes, q[i], q[i + 1]) {
      assert i < |p| - 1 ==> Edge(nodes, p[i], p[i + 1]);
    }
    assert Connects(nodes, q, a, c);
  }

  lemma ReachableSelf(nodes: seq<NodeSpec>, a: NodeId)
    ensures Reachable(nodes, a, a)
  {
    assert Connects(nodes, [a], a, a);
  }

  /** A set that holds the start and is closed under edges holds every end of a path. */
  lemma {:induction false} ClosedHoldsPaths(nodes: seq<NodeSpec>, inside: set<NodeId>, p: seq<NodeId>)
    requires Path(nodes, p) && p[0] in inside
    requires forall a, b :: a in inside && Edge(nodes, a, b) ==> b in inside
    ensures p[|p| - 1] in inside
  {
    if |p| > 1 {
      assert Edge(nodes, p[0], p[1]);
      assert forall i :: 0 <= i < |p[1..]| - 1 ==> p[1..][i] == p[i + 1] && Edge(nodes, p[i + 1], p[i + 2]);
      ClosedHoldsPaths(nodes, inside, p[1..]);
    }
  }

  // ---------------------------------------------------------------- the worklist

  /** The node of an id, as the last writer of the by-id dictionary; ids are unique here. */
  function ById(nodes: seq<NodeSpec>): (m: map<NodeId, NodeSpec>)
    ensures m.Keys == IdsOf(nodes)
    ensures forall k :: 0 <= k < |nodes| && UniqueIds(nodes) ==> m[nodes[k].id] == nodes[k]
    ensures forall id :: id in m ==> m[id] in nodes && m[id].id == id
  {
    map id | id in IdsOf(nodes) :: Named(nodes, id)
  }

  function Named(nodes: seq<NodeSpec>, id: NodeId): (node: NodeSpec)
    requires id in IdsOf(nodes)
    ensures node in nodes && node.id == id
  {
    var n := |nodes| - 1;
    if nodes[n].id == id then nodes[n]
    else
      assert id in IdsOf(nodes[..n]) by {
        var k :| 0 <= k < |nodes| && nodes[k].id == id;
        assert nodes[..n][k].id == id;
      }
      Named(nodes[..n], id)
  }

  /** A node's successors all resolve. */
  ghost predicate SuccessorsKnown(nodes: seq<NodeSpec>) {
    forall k, t :: 0 <= k < |nodes| && t in nodes[k].successors ==> t in IdsOf(nodes)
  }

  ghost predicate Worklist(nodes: seq<NodeSpec>, entry: NodeId, reachable: set<NodeId>, pending: seq<NodeId>) {
    (forall id :: id in pending || id in reachable ==> id in IdsOf(nodes) && Reachable(nodes, entry, id)) &&
    (entry in reachable || entry in pending) &&
    forall a, b :: a in reachable && Edge(nodes, a, b) ==> b in reachable || b in pending
  }

  /** Visiting a node moves it from the worklist to the set and lists its successors. */
  lemma VisitKeeps(nodes: seq<NodeSpec>, entry: NodeId, reachable: set<NodeId>, rest: seq<NodeId>, node: NodeSpec)
    requires UniqueIds(nodes) && SuccessorsKnown(nodes) && node in nodes
    requires Worklist(nodes, entry, reachable, rest + [node.id])
    ensures Worklist(nodes, entry, reachable + {node.id}, rest + node.successors)
  {
    SuccessorsAreEdges(nodes, node);
    assert node.id in rest + [node.id];
    hide IdsOf, UniqueIds, SuccessorsKnown, Edge, Reachable;
    forall t | t in node.successors ensures Reachable(nodes, entry, t) {
      ReachableStep(nodes, entry, node.id, t);
    }
    forall a, b | a in reachable + {node.id} && Edge(nodes, a, b) ensures b in reachable + {node.id} || b in rest + node.successors {
      assert a != node.id ==> b in reachable || b in rest + [node.id];
    }
  }

  /** A node already visited is dropped from the worklist. */
  lemma SkipKeeps(nodes: seq<NodeSpec>, entry: NodeId, reachable: set<NodeId>, rest: seq<NodeId>, id: NodeId)
    requires Worklist(nodes, entry, reachable, rest + [id]) && id in reachable
    ensures Worklist(nodes, entry, reachable, rest)
  {
    hide IdsOf, Edge, Reachable;
    assert forall x :: x in rest + [id] <==> x in rest || x == id;
  }

  lemma WorklistStart(nodes: seq<NodeSpec>, entry: NodeId)
    requires entry in IdsOf(nodes)
    ensures Worklist(nodes, entry, {}, [entry])
  {
    ReachableSelf(nodes, entry);
  }

  lemma WorklistEnd(nodes: seq<NodeSpec>, entry: NodeId, reachable: set<NodeId>, id: NodeId)
    requires Worklist(nodes, entry, reachable, [])
    ensures id in reachable <==> Reachable(nodes, entry, id)
  {
    if Reachable(nodes, entry, id) {
      var p :| Connects(nodes, p, entry, id);
      ClosedHoldsPaths(nodes, reachable, p);
    }
  }

  /** The loop over `pending`: what it collects is exactly what the entry reaches. */
  method Collect(nodes: seq<NodeSpec>, entry: NodeId) returns (reachable: set<NodeId>)
    requires UniqueIds(nodes) && SuccessorsKnown(nodes) && entry in IdsOf(nodes)
    ensures reachable <= IdsOf(nodes)
    ensures forall id :: id in reachable <==> Reachable(nodes, entry, id)
  {
    hide IdsOf, Reachable, Edge, UniqueIds, SuccessorsKnown;
    var ids := IdsOf(nodes);
    var byId := ById(nodes);
    reachable := {};
    var pending := [entry];
    WorklistStart(nodes, entry);
    while pending != []
      invariant Worklist(nodes, entry, reachable, pending)
      decreases |ids - reachable|, |pending|
    {
      var current, rest := pending[|pending| - 1], pending[..|pending| - 1];
      assert pending == rest + [current] && current in pending;
      if current in reachable {
        SkipKeeps(nodes, entry, reachable, rest, current);
        pending := rest;
      } else {
        VisitKeeps(nodes, entry, reachable, rest, byId[current]);
        Shrinks(ids - (reachable + {current}), ids - reachable, current);
        reachable, pending := reachable + {current}, rest + byId[current].successors;
      }
    }
    forall id ensures id in reachable <==> Reachable(nodes, entry, id) {
      WorklistEnd(nodes, entry, reachable, id);
    }
  }

  lemma Shrinks(a: set<NodeId>, b: set<NodeId>, x: NodeId)
    requires a <= b && x in b && x !in a
    ensures |a| < |b|
  {
    assert b == a + (b - a) && x in b - a;
    assert |b| == |a| + |b - a|;
  }

  lemma SuccessorsAreEdges(nodes: seq<NodeSpec>, node: NodeSpec)
    requires UniqueIds(nodes) && SuccessorsKnown(nodes) && node in nodes
    ensures forall t :: Edge(nodes, node.id, t) <==> t in node.successors
    ensures forall t :: t in node.successors ==> t in IdsOf(nodes)
  {
    var k :| 0 <= k < |nodes| && nodes[k] == node;
  }

  // ---------------------------------------------------------------- validation

  /** The whole of _validate: it accepts exactly the sound graphs, and names the first problem otherwise. */
  method Validate(nodes: seq<NodeSpec>, entry: NodeId, production: bool) returns (v: Verdict)
    requires entry in IdsOf(nodes)
    ensures v.Accepted? <==> Sound(nodes, entry, production)
    ensures v == Rejected(DuplicateIds) <==> !UniqueIds(nodes)
    ensures v.Rejected? && v.error.Unreachable? ==>
      v.error.ids != {} && forall id :: id in v.error.ids <==> id in IdsOf(nodes) && !Reachable(nodes, entry, id)
    ensures v.Rejected? && !v.error.DuplicateIds? && !v.error.Unreachable? ==> FirstProblem(nodes, production, v.error)
    ensures v.Rejected? ==> Justified(nodes, production, v.error)
    ensures v.Rejected? ==> !v.error.EntryCount?
  {
    hide IdsOf;
    var ids := IdsOf(nodes);
    UniqueBySize(nodes);
    if |ids| != |nodes| { return Rejected(DuplicateIds); }
    var k := 0;
    while k < |nodes|
      invariant 0 <= k <= |nodes|
      invariant forall j :: 0 <= j < k ==> NodeProblem(nodes[j], ids, production).None?
    {
      var problem := NodeProblem(nodes[k], ids, production);
      if problem.Some? {
        ProblemJustified(nodes, production, k);
        return Rejected(problem.value);
      }
      k := k + 1;
    }
    var reachable := Collect(nodes, entry);
    if ids - reachable != {} {
      return Rejected(Unreachable(ids - reachable));
    }
    assert forall id :: id in ids ==> id in reachable || id in ids - reachable;
    return Accepted;
  }

  /** The error says what is wrong: a node with that id has the fault that the error names. */
  ghost predicate Justified(nodes: seq<NodeSpec>, production: bool, e: DefinitionError) {
    match e
    case SynchronousTimeout(id) => production && exists k :: 0 <= k < |nodes| && nodes[k].id == id && !nodes[k].isAsync && nodes[k].timeout.Some?
    case UnknownSuccessor(id, t) =>
      (exists k :: 0 <= k < |nodes| && nodes[k].id == id && t in nodes[k].successors) && forall k :: 0 <= k < |nodes| ==> nodes[k].id != t
    case RouterWithoutSuccessors(id) => exists k :: 0 <= k < |nodes| && nodes[k].id == id && nodes[k].kind.RouterKind? && nodes[k].successors == []
    case _ => true
  }

  lemma ProblemJustified(nodes: seq<NodeSpec>, production: bool, k: nat)
    requires k < |nodes| && NodeProblem(nodes[k], IdsOf(nodes), production).Some?
    ensures Justified(nodes, production, NodeProblem(nodes[k], IdsOf(nodes), production).value)
    ensures var e := NodeProblem(nodes[k], IdsOf(nodes), production).value; e.SynchronousTimeout? || e.UnknownSuccessor? || e.RouterWithoutSuccessors?
  {
  }

  /** The error belongs to the first node that has one. */
  ghost predicate FirstProblem(nodes: seq<NodeSpec>, production: bool, e: DefinitionError) {
    exists k :: 0 <= k < |nodes| && NodeProblem(nodes[k], IdsOf(nodes), production) == Some(e)
      && forall j :: 0 <= j < k ==> NodeProblem(nodes[j], IdsOf(nodes), production).None?
  }

  // ---------------------------------------------------------------- compilation

  /** A decorated method of the workflow class. */
  datatype Declared = Declared(node: NodeSpec, entry: bool)

  datatype EdgeSpec = EdgeSpec(source: NodeId, target: NodeId)

  datatype Compiled = Plan(nodes: seq<NodeSpec>, entry: NodeId, edges: seq<EdgeSpec>, durable: bool) | Refused(error: DefinitionError)

  function NodesOf(declared: seq<Declared>): seq<NodeSpec> {
    seq(|declared|, k requires 0 <= k < |declared| => declared[k].node)
  }

  function EntriesOf(declared: seq<Declared>): seq<NodeId> {
    if declared == [] then []
    else
      var n := |declared| - 1;
      EntriesOf(declared[..n]) + if declared[n].entry then [declared[n].node.id] else []
  }

  /** The single opaque node of a workflow that declares no steps. */
  function Legacy(isAsync: bool): NodeSpec {
    NodeSpec("legacy.forward", OpaqueKind, isAsync, None, false, [])
  }

  /** One edge per declared successor, in declaration order. */
  function EdgesOf(nodes: seq<NodeSpec>): (edges: seq<EdgeSpec>)
    ensures forall a, b :: EdgeSpec(a, b) in edges <==> Edge(nodes, a, b)
  {
    if nodes == [] then []
    else
      var n := |nodes| - 1;
      var here := seq(|nodes[n].successors|, k requires 0 <= k < |nodes[n].successors| => EdgeSpec(nodes[n].id, nodes[n].successors[k]));
      assert forall a, b :: EdgeSpec(a, b) in here <==> a == nodes[n].id && b in nodes[n].successors by {
        forall b | b in nodes[n].successors ensures EdgeSpec(nodes[n].id, b) in here {
          var k :| 0 <= k < |nodes[n].successors| && nodes[n].successors[k] == b;
          assert here[k] == EdgeSpec(nodes[n].id, b);
        }
      }
      EdgeOfFront(nodes, n);
      EdgesOf(nodes[..n]) + here
  }

  lemma EdgeOfFront(nodes: seq<NodeSpec>, n: nat)
    requires |nodes| == n + 1
    ensures forall a, b :: Edge(nodes, a, b) <==> Edge(nodes[..n], a, b) || (a == nodes[n].id && b in nodes[n].successors)
  {
    assert forall k :: 0 <= k < n ==> nodes[..n][k] == nodes[k];
  }

  lemma {:induction false} EntriesAreDeclared(declared: seq<Declared>)
    ensures forall id :: id in EntriesOf(declared) <==> exists k :: 0 <= k < |declared| && declared[k].entry && declared[k].node.id == id
    ensures forall id :: id in EntriesOf(declared) ==> id in IdsOf(NodesOf(declared))
  {
    if declared != [] {
      var n := |declared| - 1;
      EntriesAreDeclared(declared[..n]);
      assert forall k :: 0 <= k < n ==> declared[..n][k] == declared[k];
    }
    forall k | 0 <= k < |declared| ensures declared[k].node.id in IdsOf(NodesOf(declared)) {
      assert NodesOf(declared)[k] == declared[k].node;
    }
  }

  /** A workflow compiles exactly when it declares no step at all, or one entry from which
      exactly its steps are reachable, each sound on its own. */
  method Compile(declared: seq<Declared>, asyncForward: bool, production: bool) returns (r: Compiled)
    ensures declared == [] ==> r == Plan([Legacy(asyncForward)], "legacy.forward", [], false)
    ensures declared != [] ==>
      (r.Plan? <==> |EntriesOf(declared)| == 1 && Sound(NodesOf(declared), EntriesOf(declared)[0], production))
    ensures declared != [] && r.Plan? ==>
      r.nodes == NodesOf(declared) && r.entry == EntriesOf(declared)[0] && r.durable && r.edges == EdgesOf(r.nodes)
    ensures declared != [] && |EntriesOf(declared)| != 1 ==> r == Refused(EntryCount(|EntriesOf(declared)|))
    ensures r.Plan? ==> Sound(r.nodes, r.entry, production)
    ensures declared == [] ==> r == Plan([NodeSpec("legacy.forward", OpaqueKind, asyncForward, None, false, [])], "legacy.forward", [], false)
    ensures forall n :: r == Refused(EntryCount(n)) ==> n != 1 && n == |set k: nat | k < |declared| && declared[k].entry|
    ensures declared != [] && r.Plan? ==>
      |r.nodes| == |declared| && (forall k :: 0 <= k < |declared| ==> r.nodes[k] == declared[k].node) &&
      (exists k :: 0 <= k < |declared| && declared[k].entry && declared[k].node.id == r.entry) &&
      (forall j, k :: 0 <= j < k < |declared| ==> !(declared[j].entry && declared[k].entry)) &&
      forall a, b :: EdgeSpec(a, b) in r.edges <==> exists k :: 0 <= k < |declared| && declared[k].node.id == a && b in declared[k].node.successors
  {
    if declared == [] {
      LegacyIsSound(asyncForward, production);
      var verdict := Validate([Legacy(asyncForward)], "legacy.forward", production);
      return Plan([Legacy(asyncForward)], "legacy.forward", [], false);
    }
    var nodes, entries := [], [];
    var k := 0;
    while k < |declared|
      invariant 0 <= k <= |declared|
      invariant nodes == NodesOf(declared[..k]) && entries == EntriesOf(declared[..k])
    {
      assert declared[..k + 1][..k] == declared[..k];
      if declared[k].entry { entries := entries + [declared[k].node.id]; }
      nodes := nodes + [declared[k].node];
      k := k + 1;
    }
    assert declared[..k] == declared;
    EntriesAreDeclared(declared);
    EntriesCounted(declared);
    if |entries| != 1 { return Refused(EntryCount(|entries|)); }
    assert entries[0] in entries;
    var verdict := Validate(nodes, entries[0], production);
    if verdict.Rejected? { return Refused(verdict.error); }
    SingleEntry(declared);
    assert forall a, b :: Edge(nodes, a, b) <==> exists k :: 0 <= k < |declared| && declared[k].node.id == a && b in declared[k].node.successors by {
      EdgesDeclared(declared);
    }
    return Plan(nodes, entries[0], EdgesOf(nodes), true);
  }

  lemma EdgesDeclared(declared: seq<Declared>)
    ensures forall a, b :: Edge(NodesOf(declared), a, b) <==> exists k :: 0 <= k < |declared| && declared[k].node.id == a && b in declared[k].node.successors
  {
    assert forall k :: 0 <= k < |declared| ==> NodesOf(declared)[k] == declared[k].node;
  }

  function EntrySet(declared: seq<Declared>): set<nat> {
    set k: nat | k < |declared| && declared[k].entry
  }

  lemma EntrySetGrows(declared: seq<Declared>, n: nat)
    requires |declared| == n + 1
    ensures EntrySet(declared) == EntrySet(declared[..n]) + (if declared[n].entry then {n} else {}) && n !in EntrySet(declared[..n])
  {
    assert forall k :: 0 <= k < n ==> declared[..n][k] == declared[k];
  }

  lemma {:induction false} EntriesCounted(declared: seq<Declared>)
    ensures |EntriesOf(declared)| == |EntrySet(declared)|
  {
    if declared != [] {
      var n := |declared| - 1;
      EntriesCounted(declared[..n]);
      EntrySetGrows(declared, n);
      hide EntrySet;
    }
  }

  /** Two declared entries would be found as two. */
  lemma {:induction false} SingleEntry(declared: seq<Declared>)
    ensures |EntriesOf(declared)| == 0 ==> forall k :: 0 <= k < |declared| ==> !declared[k].entry
    ensures |EntriesOf(declared)| <= 1 ==> forall j, k :: 0 <= j < k < |declared| ==> !(declared[j].entry && declared[k].entry)
  {
    if declared != [] {
      var front := declared[..|declared| - 1];
      SingleEntry(front);
      assert forall k :: 0 <= k < |front| ==> front[k] == declared[k];
    }
  }

  lemma LegacyIsSound(isAsync: bool, production: bool)
    ensures "legacy.forward" in IdsOf([Legacy(isAsync)]) && Sound([Legacy(isAsync)], "legacy.forward", production)
  {
    var nodes := [Legacy(isAsync)];
    assert nodes[0].id == "legacy.forward";
    ReachableSelf(nodes, "legacy.forward");
    forall id | Reachable(nodes, "legacy.forward", id) ensures id in IdsOf(nodes) {
      var p :| Connects(nodes, p, "legacy.forward", id);
      assert |p| > 1 ==> Edge(nodes, p[0], p[1]);
    }
  }

  // ---------------------------------------------------------------- at run time

  /** The registered program runs these nodes. */
  ghost predicate Runs(p: Program, nodes: seq<NodeSpec>) {
    p.nodes.Keys == IdsOf(nodes) &&
    forall k :: 0 <= k < |nodes| ==>
      nodes[k].id in p.nodes &&
      p.nodes[nodes[k].id] == Node(if nodes[k].kind.RouterKind? then RouterNode else StepNode, nodes[k].checkpoint, nodes[k].successors)
  }

  lemma AcceptedResolves(p: Program, nodes: seq<NodeSpec>, entry: NodeId, production: bool)
    requires Runs(p, nodes) && Sound(nodes, entry, production)
    ensures Closed(p) && Resolvable(p, [entry])
  {
    ReachableSelf(nodes, entry);
    forall id, t | id in p.nodes && t in p.nodes[id].successors ensures t in p.nodes {
      var k :| 0 <= k < |nodes| && nodes[k].id == id;
      assert NodeProblem(nodes[k], IdsOf(nodes), production).None?;
    }
  }

  /** In every history, a worker executing a run of a compiled plan submitted at its entry has
      at most one next node and finds it in the plan. */
  lemma AcceptedPlansAreFollowed(env: Protocol.Registry, b: History.Behaviour, i: nat, slot: nat, nodes: seq<NodeSpec>, entry: NodeId, production: bool)
    requires History.IsBehaviour(env, b) && i < |b.states| && !Protocol.ThreadAt(b.states[i], slot).Idle?
    requires Sound(nodes, entry, production)
    ensures Protocol.ThreadAt(b.states[i], slot).c.r in b.states[i].db
    ensures var th := Protocol.ThreadAt(b.states[i], slot); var rec := b.states[i].db[th.c.r];
      Runs(env(rec.run.planId), nodes) && rec.fingerprint.nextNodes == [entry] ==>
        |th.c.next| <= 1 && (th.c.next != [] ==> th.c.next[0] in IdsOf(nodes))
  {
    History.LookupsNeverFail(env, b, i, slot);
    var th := Protocol.ThreadAt(b.states[i], slot);
    var rec := b.states[i].db[th.c.r];
    if Runs(env(rec.run.planId), nodes) && rec.fingerprint.nextNodes == [entry] {
      AcceptedResolves(env(rec.run.planId), nodes, entry, production);
    }
  }

  /** Acceptance does not make every step executable: a step can complete if and only if it
      declares at most one successor (and some state is acceptable). */
  lemma StepCompletes(p: Program, nodes: seq<NodeSpec>, entry: NodeId, production: bool, k: nat)
    requires Runs(p, nodes) && Sound(nodes, entry, production) && k < |nodes| && !nodes[k].kind.RouterKind?
    ensures (exists state, out :: Interpret(p, nodes[k].id, state, out).Some?) <==> |nodes[k].successors| <= 1 && exists state :: p.accepts(state)
  {
    if |nodes[k].successors| <= 1 && exists state :: p.accepts(state) {
      var state :| p.accepts(state);
      assert Interpret(p, nodes[k].id, state, Nothing).Some?;
    }
  }

  /** In every history, a run of an accepted plan that has come to a step with two successors gets
      no further checkpoint and never succeeds. */
  lemma AcceptedForksNeverComplete(env: Protocol.Registry, b: History.Behaviour, i: nat, j: nat, r: RunId, nodes: seq<NodeSpec>, entry: NodeId, production: bool, k: nat)
    requires History.IsBehaviour(env, b) && i <= j < |b.states| && r in b.states[i].db
    requires Sound(nodes, entry, production) && Runs(env(b.states[i].db[r].run.planId), nodes)
    requires k < |nodes| && !nodes[k].kind.RouterKind? && |nodes[k].successors| > 1
    requires b.states[i].db[r].run.nextNodes == [nodes[k].id]
    ensures r in b.states[j].db && b.states[j].db[r].checkpoints == b.states[i].db[r].checkpoints && b.states[j].db[r].run.status != Succeeded
  {
    History.ForksNeverComplete(env, b, i, j, r);
  }

  /** Such a plan: a step with two successors is accepted. */
  lemma ForkIsAccepted()
    ensures var fork := [NodeSpec("a", StepKind, true, None, true, ["b", "c"]), NodeSpec("b", StepKind, true, None, true, []),
                         NodeSpec("c", StepKind, true, None, true, [])];
      Sound(fork, "a", true) && |fork[0].successors| == 2
  {
    var fork := [NodeSpec("a", StepKind, true, None, true, ["b", "c"]), NodeSpec("b", StepKind, true, None, true, []),
                 NodeSpec("c", StepKind, true, None, true, [])];
    assert fork[0].id == "a" && fork[1].id == "b" && fork[2].id == "c";
    assert IdsOf(fork) == {"a", "b", "c"};
    assert forall t :: t in fork[0].successors <==> t == "b" || t == "c";
    ReachableSelf(fork, "a");
    ReachableStep(fork, "a", "a", "b");
    ReachableStep(fork, "a", "a", "c");
    forall id | Reachable(fork, "a", id) ensures id in IdsOf(fork) {
      var p :| Connects(fork, p, "a", id);
      ClosedHoldsPaths(fork, IdsOf(fork), p);
    }
  }
}
