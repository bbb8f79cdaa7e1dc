/** Plain sequential execution of a compiled plan: no workers, no store, no
    crashes.  It is the reference the durable protocol is compared with. */
module Sequential {
  import opened Models

  /** A timeout of an interrupt; asking with any other raises, as a handler may. */
  type Seconds = n: nat | 0 < n witness 1

  datatype NodeKind = StepNode | RouterNode

  datatype Node = Node(kind: NodeKind, checkpoint: bool, successors: seq<NodeId>)

  datatype Output = Nothing | Mapping(value: State) | Choice(target: NodeId) | Malformed | Raised

  datatype Reply = Returns(output: Output) | Asks(kind: InterruptKind, request: string, timeout: Option<Seconds>)

  /** A registered workflow.  `call` is a handler up to its first interrupt, `resume`
      the same handler once the recorded decision is known (a handler that asks again
      at the same node and checkpoint is handed that decision again).  Routers receive
      no context and therefore cannot ask. */
  datatype Program = Program(
    hash: string,
    nodes: map<NodeId, Node>,
    route: (NodeId, State) -> Output,
    call: (NodeId, State) -> Reply,
    resume: (NodeId, State, Decision) -> Output,
    accepts: State -> bool)

  /** Decisions by node and checkpoint sequence. */
  type Decisions = map<(NodeId, nat), Decision>

  /** `committed` counts the checkpoints taken so far. */
  datatype Config = Config(committed: nat, state: State, next: seq<NodeId>)

  /** What a node's result makes of the state and the next nodes; None is an exception. */
  function Interpret(p: Program, id: NodeId, state: State, out: Output): Option<(State, seq<NodeId>)>
    requires id in p.nodes
  {
    var node := p.nodes[id];
    if node.kind.RouterNode? then
      if out.Choice? && out.target in node.successors && p.accepts(state)
      then Some((state, [out.target])) else None
    else if !(out.Nothing? || out.Mapping?) || |node.successors| > 1 then None
    else
      var after := if out.Mapping? then out.value else state;
      if p.accepts(after) then Some((after, node.successors)) else None
  }

  /** The handler's output at a configuration, None while a decision is missing. */
  function OutputAt(p: Program, d: Decisions, c: Config): Option<Output>
    requires c.next != []
  {
    var id := c.next[0];
    if id !in p.nodes then None
    else if p.nodes[id].kind.RouterNode? then Some(p.route(id, c.state))
    else match p.call(id, c.state)
      case Returns(out) => Some(out)
      case Asks(_, _, _) =>
        if (id, c.committed + 1) in d then Some(p.resume(id, c.state, d[(id, c.committed + 1)])) else None
  }

  /** One node: it ends in a checkpoint when it is marked so or when it is the last. */
  function Step(p: Program, d: Decisions, c: Config): Option<Config> {
    if c.next == [] then None
    else match OutputAt(p, d, c)
      case None => None
      case Some(out) =>
        match Interpret(p, c.next[0], c.state, out)
        case None => None
        case Some((state, next)) =>
          Some(Config(if p.nodes[c.next[0]].checkpoint || next == [] then c.committed + 1 else c.committed,
                      state, next))
  }

  /** The configuration after n nodes. */
  function After(p: Program, d: Decisions, c: Config, n: nat): Option<Config> {
    if n == 0 then Some(c)
    else match After(p, d, c, n - 1)
      case None => None
      case Some(b) => Step(p, d, b)
  }

  ghost predicate Reaches(p: Program, d: Decisions, a: Config, b: Config) {
    exists n: nat :: After(p, d, a, n) == Some(b)
  }

  /** The sequential execution from c ends with this state. */
  ghost predicate Halts(p: Program, d: Decisions, c: Config, state: State) {
    exists n: nat :: After(p, d, c, n).Some? && After(p, d, c, n).value.next == [] && After(p, d, c, n).value.state == state
  }

  /** Every successor is a node of the plan. */
  ghost predicate Closed(p: Program) {
    forall id, t :: id in p.nodes && t in p.nodes[id].successors ==> t in p.nodes
  }

  /** At most one next node, and the plan has it. */
  predicate Resolvable(p: Program, next: seq<NodeId>) {
    |next| <= 1 && (next != [] ==> next[0] in p.nodes)
  }

  lemma InterpretResolvable(p: Program, id: NodeId, state: State, out: Output)
    requires Closed(p) && id in p.nodes && Interpret(p, id, state, out).Some?
    ensures Resolvable(p, Interpret(p, id, state, out).value.1)
  {
  }

  lemma {:induction false} AfterResolvable(p: Program, d: Decisions, a: Config, n: nat)
    requires Closed(p) && Resolvable(p, a.next) && After(p, d, a, n).Some?
    ensures Resolvable(p, After(p, d, a, n).value.next)
  {
    if n > 0 {
      AfterResolvable(p, d, a, n - 1);
      var b := After(p, d, a, n - 1).value;
      InterpretResolvable(p, b.next[0], b.state, OutputAt(p, d, b).value);
    }
  }

  lemma {:induction false} AfterCompose(p: Program, d: Decisions, a: Config, b: Config, m: nat, n: nat)
    requires After(p, d, a, m) == Some(b)
    ensures After(p, d, a, m + n) == After(p, d, b, n)
  {
    if n > 0 {
      AfterCompose(p, d, a, b, m, n - 1);
    }
  }

  lemma ReachesStep(p: Program, d: Decisions, a: Config, b: Config, c: Config)
    requires Reaches(p, d, a, b)
    requires Step(p, d, b) == Some(c)
    ensures Reaches(p, d, a, c)
  {
    var m: nat :| After(p, d, a, m) == Some(b);
    assert After(p, d, a, m + 1) == Some(c);
  }

  lemma ReachesSelf(p: Program, d: Decisions, a: Config)
    ensures Reaches(p, d, a, a)
  {
    assert After(p, d, a, 0) == Some(a);
  }

  /** More recorded decisions never change what already ran. */
  lemma {:induction false} AfterGrows(p: Program, d: Decisions, e: Decisions, a: Config, n: nat)
    requires forall k :: k in d ==> k in e && e[k] == d[k]
    requires After(p, d, a, n).Some?
    ensures After(p, e, a, n) == After(p, d, a, n)
  {
    if n > 0 {
      AfterGrows(p, d, e, a, n - 1);
    }
  }

  lemma ReachesGrows(p: Program, d: Decisions, e: Decisions, a: Config, b: Config)
    requires forall k :: k in d ==> k in e && e[k] == d[k]
    requires Reaches(p, d, a, b)
    ensures Reaches(p, e, a, b)
  {
    var n: nat :| After(p, d, a, n) == Some(b);
    AfterGrows(p, d, e, a, n);
  }

  lemma {:induction false} StuckStaysStuck(p: Program, d: Decisions, a: Config, m: nat, n: nat)
    requires m <= n
    requires After(p, d, a, m).None? || After(p, d, a, m).value.next == []
    ensures m < n ==> After(p, d, a, n).None?
  {
    if m < n - 1 {
      StuckStaysStuck(p, d, a, m, n - 1);
    }
  }

  /** Sequential execution has at most one result. */
  lemma HaltsOnce(p: Program, d: Decisions, c: Config, s: State, t: State)
    requires Halts(p, d, c, s) && Halts(p, d, c, t)
    ensures s == t
  {
    var m: nat :| After(p, d, c, m).Some? && After(p, d, c, m).value.next == [] && After(p, d, c, m).value.state == s;
    var n: nat :| After(p, d, c, n).Some? && After(p, d, c, n).value.next == [] && After(p, d, c, n).value.state == t;
    if m < n {
      StuckStaysStuck(p, d, c, m, n);
    } else if n < m {
      StuckStaysStuck(p, d, c, n, m);
    }
  }

  // ---------------------------------------------------------------- the rules of one step

  /** A router goes to the successor its handler names, with the state as it was. */
  ghost predicate RouterMoves(p: Program, a: Config, b: Config) {
    a.next != [] && a.next[0] in p.nodes && p.nodes[a.next[0]].kind.RouterNode? && p.accepts(a.state) &&
    exists t :: p.route(a.next[0], a.state) == Choice(t) && t in p.nodes[a.next[0]].successors && b.next == [t] && b.state == a.state
  }

  /** What a step's handler ends with, once the decision it asks for is recorded. */
  ghost predicate Answers(p: Program, d: Decisions, a: Config, out: Output) {
    a.next != [] &&
    match p.call(a.next[0], a.state)
    case Returns(result) => out == result
    case Asks(_, _, _) => (a.next[0], a.committed + 1) in d && out == p.resume(a.next[0], a.state, d[(a.next[0], a.committed + 1)])
  }

  /** A step goes to its only successor, if it has one, with the mapping its handler returned, or
      with the state as it was when it returned nothing. */
  ghost predicate StepMoves(p: Program, d: Decisions, a: Config, b: Config) {
    a.next != [] && a.next[0] in p.nodes && p.nodes[a.next[0]].kind.StepNode? &&
    |p.nodes[a.next[0]].successors| <= 1 && b.next == p.nodes[a.next[0]].successors && p.accepts(b.state) &&
    (Answers(p, d, a, Mapping(b.state)) || (Answers(p, d, a, Nothing) && b.state == a.state))
  }

  /** The node commits exactly when it is marked so or nothing follows it. */
  ghost predicate Counts(p: Program, a: Config, b: Config) {
    a.next != [] && a.next[0] in p.nodes &&
    b.committed == a.committed + if p.nodes[a.next[0]].checkpoint || b.next == [] then 1 else 0
  }

  ghost predicate Moves(p: Program, d: Decisions, a: Config, b: Config) {
    (RouterMoves(p, a, b) || StepMoves(p, d, a, b)) && Counts(p, a, b)
  }

  /** Sequential execution steps exactly by these rules: anything else a handler does raises. */
  lemma StepByRules(p: Program, d: Decisions, a: Config, b: Config)
    ensures Step(p, d, a) == Some(b) <==> Moves(p, d, a, b)
  {
  }

  /** Where a sequential step is refused, no rule applies. */
  lemma NoRule(p: Program, d: Decisions, a: Config)
    ensures Step(p, d, a).None? <==> forall b :: !Moves(p, d, a, b)
  {
    hide Step, Moves;
    if Step(p, d, a).Some? { StepByRules(p, d, a, Step(p, d, a).value); }
    forall b ensures Moves(p, d, a, b) ==> Step(p, d, a) == Some(b) { StepByRules(p, d, a, b); }
  }

  /** Every hop of a trace is one of the rules. */
  lemma TraceByRules(p: Program, d: Decisions, start: Config, m: nat, n: nat)
    requires m < n && After(p, d, start, n).Some?
    ensures After(p, d, start, m).Some? && After(p, d, start, m + 1).Some?
    ensures Moves(p, d, After(p, d, start, m).value, After(p, d, start, m + 1).value)
  {
    hide Step, Moves;
    Defined(p, d, start, m, n);
    Defined(p, d, start, m + 1, n);
    StepByRules(p, d, After(p, d, start, m).value, After(p, d, start, m + 1).value);
  }

  lemma {:induction false} Defined(p: Program, d: Decisions, c: Config, k: nat, m: nat)
    requires k <= m && After(p, d, c, m).Some?
    ensures After(p, d, c, k).Some?
  {
    if k < m { Defined(p, d, c, k, m - 1); }
  }
}
