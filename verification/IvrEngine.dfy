/** The IVR flow interpreter and its sub-flow handler (internal/application/ivr). Node handlers are an
    oracle: they may return any exit name, rewrite the session variables in any way, or fail. */
module IvrEngine {
  import opened Options
  import opened Routing
  import opened Text
  import opened Interpolation

  datatype NodeVisit = NodeVisit(id: string, typ: NodeType, exit: string)

  datatype ExecError =
    | NoStart
    | NoHandler(typ: NodeType)
    | HandlerFailed(id: string)
    | NoExit(id: string, exit: string)
    | TargetMissing(id: string, target: string)
    | TooManySteps

  datatype HandlerResult = Exit(name: string, vars: Vars) | Fails(vars: Vars)

  type Flows = map<int, Graph>

  // What a run meets outside the flow, indexed by a tick so that it may differ on every call: handler
  // outcomes and map iteration orders. An order that enumerates the keys is a real one; nothing below
  // depends on that. loader holds the graphs the flow loader can deliver.
  datatype World = World(handlers: set<NodeType>,
                         loader: Option<Flows>,
                         handle: (nat, FlowNode, Vars) -> HandlerResult,
                         order: (nat, set<string>) -> seq<string>)

  const MAX_STEPS: nat := 1000

  // history and visits are those of the run itself; visits also counts the nodes of nested flows.
  datatype Outcome = Outcome(err: Option<ExecError>, vars: Vars, history: seq<NodeVisit>, t: nat, visits: nat)

  datatype Handled = Handled(result: HandlerResult, t: nat, visits: nat)

  // ---------------------------------------------------------------------------
  // What a run computes
  // ---------------------------------------------------------------------------

  function NodeMap(g: Graph, n: nat): map<string, FlowNode>
    requires n <= |g|
  {
    if n == 0 then map[] else NodeMap(g, n - 1)[g[n - 1].id := g[n - 1]]
  }

  function StartNode(g: Graph, n: nat): Option<FlowNode>
    requires n <= |g|
  {
    if n == 0 then None
    else if g[n - 1].typ == Start then Some(g[n - 1])
    else StartNode(g, n - 1)
  }

  lemma {:induction false} NodeMapHoldsNodes(g: Graph, n: nat)
    requires n <= |g|
    ensures forall id :: id in NodeMap(g, n) ==> id == NodeMap(g, n)[id].id && NodeMap(g, n)[id] in g
    ensures forall i :: 0 <= i < n ==> g[i].id in NodeMap(g, n)
    ensures StartNode(g, n).Some? ==> StartNode(g, n).value in g && StartNode(g, n).value.typ == Start
    ensures StartNode(g, n).None? ==> forall i :: 0 <= i < n ==> g[i].typ != Start
  {
    if n > 0 {
      NodeMapHoldsNodes(g, n - 1);
    }
  }

  // The graph a sub-flow node runs, if its id parses and the loader delivers it.
  function SubGraph(loader: Option<Flows>, node: FlowNode): Option<Graph> {
    var id := ParseInt(node.config.flowId);
    if node.typ.SubFlow? && loader.Some? && id.Some? && id.value in loader.value then Some(loader.value[id.value])
    else None
  }

  function InputVar(k: string): string {
    "subflow_" + k
  }

  // Input variables are set one by one, so a later one sees the earlier ones.
  function SetInputs(w: World, inputs: map<string, string>, keys: seq<string>, vars: Vars, t: nat): Vars
    decreases |keys|
  {
    if keys == [] then vars
    else SetInputs(w, inputs, keys[1..], SetInput(w, inputs, keys[0], vars, t), t + 1)
  }

  function SetInput(w: World, inputs: map<string, string>, k: string, vars: Vars, t: nat): Vars {
    if k in inputs then vars[InputVar(k) := Interpolate(inputs[k], w.order(t, vars.Keys), vars)] else vars
  }

  // The parent's variables, and those the sub-flow starts with, after the inputs are set.
  function Prepared(w: World, cfg: NodeConfig, vars: Vars, t: nat): Vars {
    SetInputs(w, cfg.inputs, w.order(t, cfg.inputs.Keys), vars, t + 1)["subflow_id" := cfg.flowId]
  }

  function PreparedTick(w: World, cfg: NodeConfig, t: nat): nat {
    t + 1 + |w.order(t, cfg.inputs.Keys)|
  }

  function CopyOutputs(names: seq<string>, from: Vars, to: Vars): Vars
    decreases |names|
  {
    if names == [] then to
    else CopyOutputs(names[1..], from, if names[0] in from then to[names[0] := from[names[0]]] else to)
  }

  // None: sub-flows nest deeper than the fuel.
  function RunSubFlow(w: World, node: FlowNode, vars: Vars, t: nat, fuel: nat): Option<Handled>
    requires node.typ.SubFlow?
    decreases fuel, 0, 0
  {
    var vars1, t1 := Prepared(w, node.config, vars, t), PreparedTick(w, node.config, t);
    if w.loader.None? then Some(Handled(Exit("default", vars1), t1, 0))
    else
      var sub := SubGraph(w.loader, node);
      if sub.None? then Some(Handled(Exit("error", vars1), t1, 0))
      else if fuel == 0 then None
      else
        match Exec(w, sub.value, vars1, t1, fuel - 1)
        case None => None
        case Some(o) =>
          if o.err.Some? then Some(Handled(Exit("error", vars1), o.t, o.visits))
          else Some(Handled(Exit("default", CopyOutputs(node.config.outputs, o.vars, vars1)), o.t, o.visits))
  }

  function Handle(w: World, node: FlowNode, vars: Vars, t: nat, fuel: nat): Option<Handled>
    decreases fuel, 0, 1
  {
    if node.typ.SubFlow? then RunSubFlow(w, node, vars, t, fuel)
    else Some(Handled(w.handle(t, node, vars), t + 1, 0))
  }

  // The exit followed for an exit name: that exit, else "default".
  function Target(node: FlowNode, exit: string): Option<string> {
    if exit in node.exits then Some(node.exits[exit])
    else if "default" in node.exits then Some(node.exits["default"])
    else None
  }

  // One turn of the interpreter: the run ends, or goes on at another node, or the fuel is not enough.
  datatype Turn =
    | Stop(o: Outcome)
    | Go(visit: NodeVisit, next: FlowNode, vars: Vars, t: nat, visits: nat)
    | Unended

  function TakeTurn(w: World, byId: map<string, FlowNode>, current: FlowNode, vars: Vars, t: nat, fuel: nat): Turn
    decreases fuel, 0, 2
  {
    if current.typ == End then Stop(Outcome(None, vars, [NodeVisit(current.id, End, "")], t, 1))
    else if current.typ !in w.handlers then Stop(Outcome(Some(NoHandler(current.typ)), vars, [], t, 1))
    else
      match Handle(w, current, vars, t, fuel)
      case None => Unended
      case Some(h) => FollowExit(byId, current, h)
  }

  function FollowExit(byId: map<string, FlowNode>, current: FlowNode, h: Handled): (turn: Turn)
    ensures !turn.Unended?
  {
    var vars1 := h.result.vars;
    if h.result.Fails? then Stop(Outcome(Some(HandlerFailed(current.id)), vars1, [], h.t, 1 + h.visits))
    else
      var exit := h.result.name;
      var visit := NodeVisit(current.id, current.typ, exit);
      var next := Target(current, exit);
      if next.None? then Stop(Outcome(Some(NoExit(current.id, exit)), vars1, [visit], h.t, 1 + h.visits))
      else if next.value !in byId then
        Stop(Outcome(Some(TargetMissing(current.id, next.value)), vars1, [visit], h.t, 1 + h.visits))
      else Go(visit, byId[next.value], vars1, h.t, 1 + h.visits)
  }

  function Prefixed(seen: seq<NodeVisit>, visits: nat, o: Outcome): Outcome {
    o.(history := seen + o.history, visits := visits + o.visits)
  }

  function Walk(w: World, byId: map<string, FlowNode>, current: FlowNode, vars: Vars, t: nat, left: nat, fuel: nat)
    : Option<Outcome>
    decreases fuel, 1, left
  {
    if left == 0 then Some(Outcome(Some(TooManySteps), vars, [], t, 0))
    else
      match TakeTurn(w, byId, current, vars, t, fuel)
      case Stop(o) => Some(o)
      case Unended => None
      case Go(visit, next, vars1, t1, n) =>
        match Walk(w, byId, next, vars1, t1, left - 1, fuel)
        case None => None
        case Some(o) => Some(Prefixed([visit], n, o))
  }

  function Exec(w: World, g: Graph, vars: Vars, t: nat, fuel: nat): Option<Outcome>
    decreases fuel, 2, 0
  {
    var start := StartNode(g, |g|);
    if start.None? then Some(Outcome(Some(NoStart), vars, [], t, 0))
    else Walk(w, NodeMap(g, |g|), start.value, vars, t, MAX_STEPS, fuel)
  }

  // ---------------------------------------------------------------------------
  // The interpreter
  // ---------------------------------------------------------------------------

  class Session {
    var variables: Vars
    var history: seq<NodeVisit>

    constructor (vars: Vars)
      ensures variables == vars && history == []
    {
      variables, history := vars, [];
    }
  }

  /** Execute: runs a graph to completion in a session, for every run that ends. */
  method Execute(w: World, sess: Session, g: Graph, t: nat, ghost fuel: nat)
    returns (err: Option<ExecError>, t': nat, ghost visits: nat)
    requires Exec(w, g, sess.variables, t, fuel).Some?
    modifies sess
    ensures var o := Exec(w, g, old(sess.variables), t, fuel).value;
      && err == o.err && t' == o.t && visits == o.visits
      && sess.variables == o.vars
      && sess.history == old(sess.history) + o.history
    decreases fuel, 4
  {
    var byId, start := IndexNodes(g);
    if start.None? {
      return Some(NoStart), t, 0;
    }
    err, t', visits := RunFrom(w, sess, byId, start.value, t, fuel);
  }

  // What is left of a run whose whole outcome is known.
  ghost predicate Remains(whole: Outcome, seen: seq<NodeVisit>, visits: nat, rest: Option<Outcome>) {
    rest.Some? && whole == Prefixed(seen, visits, rest.value)
  }

  lemma WalkStep(w: World, byId: map<string, FlowNode>, current: FlowNode, vars: Vars, t: nat, left: nat, fuel: nat,
                 whole: Outcome, seen: seq<NodeVisit>, visits: nat)
    requires left > 0 && Remains(whole, seen, visits, Walk(w, byId, current, vars, t, left, fuel))
    ensures match TakeTurn(w, byId, current, vars, t, fuel)
      case Stop(o) => whole == Prefixed(seen, visits, o)
      case Unended => false
      case Go(visit, next, vars1, t1, n) =>
        Remains(whole, seen + [visit], visits + n, Walk(w, byId, next, vars1, t1, left - 1, fuel))
  {
    var turn := TakeTurn(w, byId, current, vars, t, fuel);
    hide TakeTurn;
    if turn.Go? {
      var o := Walk(w, byId, turn.next, turn.vars, turn.t, left - 1, fuel).value;
      assert seen + ([turn.visit] + o.history) == (seen + [turn.visit]) + o.history;
    }
  }

  /** The interpreter's loop: at most 1000 turns. */
  method RunFrom(w: World, sess: Session, byId: map<string, FlowNode>, start: FlowNode, t: nat, ghost fuel: nat)
    returns (err: Option<ExecError>, t': nat, ghost visits: nat)
    requires Walk(w, byId, start, sess.variables, t, MAX_STEPS, fuel).Some?
    modifies sess
    ensures var o := Walk(w, byId, start, old(sess.variables), t, MAX_STEPS, fuel).value;
      && err == o.err && t' == o.t && visits == o.visits
      && sess.variables == o.vars
      && sess.history == old(sess.history) + o.history
    decreases fuel, 3
  {
    hide Walk, TakeTurn;
    var current := start;
    t', visits := t, 0;
    ghost var whole := Walk(w, byId, start, sess.variables, t, MAX_STEPS, fuel).value;
    ghost var seen: seq<NodeVisit> := [];
    assert whole == Prefixed([], 0, whole);
    for step := 0 to MAX_STEPS
      invariant sess.history == old(sess.history) + seen
      invariant Remains(whole, seen, visits, Walk(w, byId, current, sess.variables, t', MAX_STEPS - step, fuel))
    {
      var finished;
      ghost var turn;
      WalkStep(w, byId, current, sess.variables, t', MAX_STEPS - step, fuel, whole, seen, visits);
      finished, err, current, t', turn := DoTurn(w, sess, byId, current, t', fuel);
      if finished {
        visits := visits + turn.o.visits;
        return;
      }
      seen, visits := seen + [turn.visit], visits + turn.visits;
    }
    WalkOver(w, byId, current, sess.variables, t', fuel);
    err := Some(TooManySteps);
  }

  lemma WalkOver(w: World, byId: map<string, FlowNode>, current: FlowNode, vars: Vars, t: nat, fuel: nat)
    ensures Walk(w, byId, current, vars, t, 0, fuel) == Some(Outcome(Some(TooManySteps), vars, [], t, 0))
  {
  }

  /** The index of the nodes by id and the start node, as the loop leaves them: later entries win. */
  method IndexNodes(g: Graph) returns (byId: map<string, FlowNode>, start: Option<FlowNode>)
    ensures byId == NodeMap(g, |g|) && start == StartNode(g, |g|)
  {
    byId, start := map[], None;
    for i := 0 to |g|
      invariant byId == NodeMap(g, i) && start == StartNode(g, i)
    {
      byId := byId[g[i].id := g[i]];
      if g[i].typ == Start {
        start := Some(g[i]);
      }
    }
  }

  /** The body of the interpreter's loop. */
  method DoTurn(w: World, sess: Session, byId: map<string, FlowNode>, current: FlowNode, t: nat, ghost fuel: nat)
    returns (finished: bool, err: Option<ExecError>, next: FlowNode, t': nat, ghost turn: Turn)
    requires !TakeTurn(w, byId, current, sess.variables, t, fuel).Unended?
    modifies sess
    ensures turn == TakeTurn(w, byId, current, old(sess.variables), t, fuel)
    ensures finished <==> turn.Stop?
    ensures turn.Stop? ==>
      && err == turn.o.err && t' == turn.o.t && sess.variables == turn.o.vars
      && sess.history == old(sess.history) + turn.o.history
    ensures turn.Go? ==>
      && next == turn.next && t' == turn.t && sess.variables == turn.vars
      && sess.history == old(sess.history) + [turn.visit]
    decreases fuel, 2
  {
    turn := TakeTurn(w, byId, current, sess.variables, t, fuel);
    finished, err, next, t' := true, None, current, t;
    if current.typ == End {
      sess.history := sess.history + [NodeVisit(current.id, current.typ, "")];
      return;
    }
    if current.typ !in w.handlers {
      err := Some(NoHandler(current.typ));
      return;
    }
    var exit;
    ghost var nested;
    exit, t', nested := HandleNode(w, sess, current, t, fuel);
    if exit.None? {
      err := Some(HandlerFailed(current.id));
      return;
    }
    var exitName := exit.value;
    sess.history := sess.history + [NodeVisit(current.id, current.typ, exitName)];
    var nextId;
    if exitName in current.exits {
      nextId := current.exits[exitName];
    } else if "default" in current.exits {
      nextId := current.exits["default"];
    } else {
      err := Some(NoExit(current.id, exitName));
      return;
    }
    if nextId !in byId {
      err := Some(TargetMissing(current.id, nextId));
      return;
    }
    finished, next := false, byId[nextId];
  }

  /** Dispatch to a node's handler; None when it fails. */
  method HandleNode(w: World, sess: Session, node: FlowNode, t: nat, ghost fuel: nat)
    returns (exit: Option<string>, t': nat, ghost visits: nat)
    requires Handle(w, node, sess.variables, t, fuel).Some?
    modifies sess
    ensures var h := Handle(w, node, old(sess.variables), t, fuel).value;
      && exit == (if h.result.Exit? then Some(h.result.name) else None)
      && t' == h.t && visits == h.visits && sess.variables == h.result.vars
    ensures sess.history == old(sess.history)
    decreases fuel, 1
  {
    if node.typ.SubFlow? {
      var name;
      name, t', visits := HandleSubFlow(w, sess, node, t, fuel);
      exit := Some(name);
    } else {
      var r := w.handle(t, node, sess.variables);
      sess.variables := r.vars;
      exit := if r.Exit? then Some(r.name) else None;
      t', visits := t + 1, 0;
    }
  }

  /** SubFlowHandler.Handle: runs another flow in a session of its own, on a copy of the variables. */
  method HandleSubFlow(w: World, sess: Session, node: FlowNode, t: nat, ghost fuel: nat)
    returns (exit: string, t': nat, ghost visits: nat)
    requires node.typ.SubFlow? && RunSubFlow(w, node, sess.variables, t, fuel).Some?
    modifies sess
    ensures var h := RunSubFlow(w, node, old(sess.variables), t, fuel).value;
      && h.result == Exit(exit, sess.variables) && t' == h.t && visits == h.visits
    ensures sess.history == old(sess.history)
    decreases fuel, 0
  {
    var cfg := node.config;
    t' := AssignInputs(w, sess, cfg, t);
    visits := 0;
    if w.loader.None? {
      return "default", t', visits;
    }
    var flowId := ParseInt(cfg.flowId);
    if flowId.None? || flowId.value !in w.loader.value {
      return "error", t', visits;
    }
    var subSess := new Session(sess.variables);
    var err;
    err, t', visits := Execute(w, subSess, w.loader.value[flowId.value], t', fuel - 1);
    if err.Some? {
      return "error", t', visits;
    }
    sess.variables := TakeOutputs(cfg.outputs, subSess.variables, sess.variables);
    exit := "default";
  }

  /** The handler's first part: input variables, interpolated one by one, then the flow id. */
  method AssignInputs(w: World, sess: Session, cfg: NodeConfig, t: nat) returns (t': nat)
    modifies sess`variables
    ensures sess.variables == Prepared(w, cfg, old(sess.variables), t)
    ensures t' == PreparedTick(w, cfg, t)
  {
    var keys := w.order(t, cfg.inputs.Keys);
    ghost var vars1 := SetInputs(w, cfg.inputs, keys, sess.variables, t + 1);
    for i := 0 to |keys|
      invariant vars1 == SetInputs(w, cfg.inputs, keys[i..], sess.variables, t + 1 + i)
    {
      if keys[i] in cfg.inputs {
        var order := w.order(t + 1 + i, sess.variables.Keys);
        var value := InterpolateVars(cfg.inputs[keys[i]], order, sess.variables);
        sess.variables := sess.variables[InputVar(keys[i]) := value];
      }
      assert keys[i..][1..] == keys[i + 1..];
    }
    sess.variables := sess.variables["subflow_id" := cfg.flowId];
    t' := t + 1 + |keys|;
  }

  /** The handler's last part: declared output variables that the sub-flow holds are copied back. */
  method TakeOutputs(names: seq<string>, from: Vars, to: Vars) returns (vars: Vars)
    ensures vars == CopyOutputs(names, from, to)
  {
    vars := to;
    for i := 0 to |names|
      invariant CopyOutputs(names, from, to) == CopyOutputs(names[i..], from, vars)
    {
      if names[i] in from {
        vars := vars[names[i] := from[names[i]]];
      }
      assert names[i..][1..] == names[i + 1..];
    }
  }

  // ---------------------------------------------------------------------------
  // What every run keeps
  // ---------------------------------------------------------------------------

  // h visits nodes of byId one after the other, from current, along the exits taken or "default".
  ghost predicate WalkFrom(byId: map<string, FlowNode>, current: FlowNode, h: seq<NodeVisit>)
    decreases |h|
  {
    h == [] ||
    (&& h[0].id == current.id && h[0].typ == current.typ
     && (current.typ == End ==> |h| == 1 && h[0].exit == "")
     && (|h| > 1 ==>
           var exit := if h[0].exit in current.exits then h[0].exit else "default";
           && exit in current.exits && current.exits[exit] in byId
           && WalkFrom(byId, byId[current.exits[exit]], h[1..])))
  }

  // Errors an accepted flow cannot meet: they are about the flow's structure, not its handlers.
  predicate StructuralError(e: ExecError) {
    e.NoStart? || e.NoHandler? || e.TargetMissing?
  }

  // Visits so far of a run of at most left turns, and whether it succeeded, fit together.
  ghost predicate GoodRun(byId: map<string, FlowNode>, current: FlowNode, left: nat, o: Outcome) {
    var h := o.history;
    && WalkFrom(byId, current, h) && |h| <= left
    && (o.err.None? <==> |h| > 0 && h[|h| - 1].typ == End)
    && (o.err == Some(TooManySteps) ==> |h| == left)
  }

  lemma GoodRunStep(byId: map<string, FlowNode>, current: FlowNode, left: nat, exit: string, n: nat, o: Outcome)
    requires current.typ != End && Target(current, exit).Some? && Target(current, exit).value in byId
    requires GoodRun(byId, byId[Target(current, exit).value], left, o)
    ensures GoodRun(byId, current, left + 1, Prefixed([NodeVisit(current.id, current.typ, exit)], n, o))
  {
    var h := [NodeVisit(current.id, current.typ, exit)] + o.history;
    assert h[1..] == o.history;
  }

  lemma TurnIsGood(w: World, byId: map<string, FlowNode>, current: FlowNode, vars: Vars, t: nat, fuel: nat)
    ensures match TakeTurn(w, byId, current, vars, t, fuel)
      case Stop(o) => GoodRun(byId, current, 1, o) && o.err != Some(TooManySteps)
      case Unended => true
      case Go(visit, next, _, _, _) =>
        && current.typ != End && visit == NodeVisit(current.id, current.typ, visit.exit)
        && Target(current, visit.exit).Some? && Target(current, visit.exit).value in byId
        && next == byId[Target(current, visit.exit).value]
  {
    hide Handle;
  }

  lemma StoppedRun(byId: map<string, FlowNode>, current: FlowNode, left: nat, o: Outcome)
    requires GoodRun(byId, current, 1, o) && o.err != Some(TooManySteps) && left > 0
    ensures GoodRun(byId, current, left, o)
  {
  }

  lemma {:induction false} WalkIsGoodRun(w: World, byId: map<string, FlowNode>, current: FlowNode,
                                         vars: Vars, t: nat, left: nat, fuel: nat)
    ensures var o := Walk(w, byId, current, vars, t, left, fuel); o.Some? ==> GoodRun(byId, current, left, o.value)
    decreases left
  {
    var turn := TakeTurn(w, byId, current, vars, t, fuel);
    if left > 0 {
      TurnIsGood(w, byId, current, vars, t, fuel);
      hide TakeTurn, GoodRun;
      match turn {
        case Unended =>
        case Stop(o) => StoppedRun(byId, current, left, o);
        case Go(visit, next, vars1, t1, n) =>
          WalkIsGoodRun(w, byId, next, vars1, t1, left - 1, fuel);
          var rest := Walk(w, byId, next, vars1, t1, left - 1, fuel);
          if rest.Some? {
            GoodRunStep(byId, current, left - 1, visit.exit, n, rest.value);
          }
      }
    }
  }

  lemma TurnMeetsNoStructuralError(w: World, byId: map<string, FlowNode>, current: FlowNode, vars: Vars, t: nat, fuel: nat)
    requires VALID_NODE_TYPES <= w.handlers && Sound(byId, current)
    ensures match TakeTurn(w, byId, current, vars, t, fuel)
      case Stop(o) => o.err.Some? ==> !StructuralError(o.err.value)
      case Unended => true
      case Go(_, next, _, _, _) => exists id :: id in byId && next == byId[id]
  {
    hide Handle;
  }

  lemma {:induction false} WalkMeetsNoStructuralError(w: World, byId: map<string, FlowNode>, current: FlowNode,
                                                      vars: Vars, t: nat, left: nat, fuel: nat)
    requires VALID_NODE_TYPES <= w.handlers
    requires forall id :: id in byId ==> Sound(byId, byId[id])
    requires Sound(byId, current)
    ensures var o := Walk(w, byId, current, vars, t, left, fuel);
      o.Some? && o.value.err.Some? ==> !StructuralError(o.value.err.value)
    decreases left
  {
    if left > 0 {
      var turn := TakeTurn(w, byId, current, vars, t, fuel);
      TurnMeetsNoStructuralError(w, byId, current, vars, t, fuel);
      hide TakeTurn, Sound;
      if turn.Go? {
        WalkMeetsNoStructuralError(w, byId, turn.next, turn.vars, turn.t, left - 1, fuel);
      }
    }
  }

  // A node of a known type whose exits all lead to nodes.
  ghost predicate Sound(byId: map<string, FlowNode>, node: FlowNode) {
    node.typ in VALID_NODE_TYPES && forall e :: e in node.exits ==> node.exits[e] in byId
  }

  lemma WellFormedNodesAreSound(g: Graph)
    requires AllTypesKnown(g) && ExitsClosed(g)
    ensures forall node :: node in g ==> Sound(NodeMap(g, |g|), node)
  {
    NodeMapHoldsNodes(g, |g|);
    var byId := NodeMap(g, |g|);
    forall i | 0 <= i < |g|
      ensures Sound(byId, g[i])
    {
      assert !g[i].typ.Unknown?;
      forall e | e in g[i].exits
        ensures g[i].exits[e] in byId
      {
        assert IsId(g, g[i].exits[e]);
      }
    }
  }

  lemma StartIsTheStart(g: Graph, s: nat)
    requires WellFormed(g) && s < |g| && g[s].typ == Start
    ensures StartNode(g, |g|) == Some(g[s])
  {
    NodeMapHoldsNodes(g, |g|);
    var start := StartNode(g, |g|).value;
    var i :| 0 <= i < |g| && g[i] == start;
  }

  /** A flow the validator accepts never goes wrong structurally, whatever its handlers and its sub-flows do:
      a run that ends started at the one start node, walked along exits, recorded at most 1000 visits, and
      succeeded exactly when its last visit is an end node. */
  lemma AcceptedFlowRunsSoundly(w: World, g: Graph, vars: Vars, t: nat, fuel: nat, s: nat)
    requires VALID_NODE_TYPES <= w.handlers
    requires WellFormed(g) && s < |g| && g[s].typ == Start
    ensures Exec(w, g, vars, t, fuel).Some? ==>
      var o := Exec(w, g, vars, t, fuel).value;
      && WalkFrom(NodeMap(g, |g|), g[s], o.history)
      && |o.history| <= 1000 && (o.err == Some(TooManySteps) ==> |o.history| == 1000)
      && (o.err.None? <==> |o.history| > 0 && o.history[|o.history| - 1].typ == End)
      && (o.err.Some? ==> !StructuralError(o.err.value))
  {
    NodeMapHoldsNodes(g, |g|);
    WellFormedNodesAreSound(g);
    StartIsTheStart(g, s);
    hide Walk, WellFormed, NodeMap, StartNode, Sound;
    WalkIsGoodRun(w, NodeMap(g, |g|), g[s], vars, t, MAX_STEPS, fuel);
    WalkMeetsNoStructuralError(w, NodeMap(g, |g|), g[s], vars, t, MAX_STEPS, fuel);
  }

  // ---------------------------------------------------------------------------
  // What a sub-flow node does to its parent
  // ---------------------------------------------------------------------------

  lemma {:induction false} InputsTouchOnlySubflowKeys(w: World, inputs: map<string, string>, keys: seq<string>,
                                                      vars: Vars, t: nat, k: string)
    requires !("subflow_" <= k)
    ensures SameAt(SetInputs(w, inputs, keys, vars, t), vars, k)
    decreases |keys|
  {
    if keys != [] {
      InputsTouchOnlySubflowKeys(w, inputs, keys[1..], SetInput(w, inputs, keys[0], vars, t), t + 1, k);
    }
  }

  ghost predicate SameAt(v: Vars, u: Vars, k: string) {
    (k in v <==> k in u) && (k in u ==> v[k] == u[k])
  }

  lemma {:induction false} OutputsCopied(names: seq<string>, from: Vars, to: Vars, k: string)
    ensures var v := CopyOutputs(names, from, to);
      if k in names && k in from then k in v && v[k] == from[k]
      else SameAt(v, to, k)
    decreases |names|
  {
    if names != [] {
      OutputsCopied(names[1..], from, if names[0] in from then to[names[0] := from[names[0]]] else to, k);
    }
  }

  /** A sub-flow node leaves every parent variable alone except the "subflow_" ones and the declared outputs;
      and a declared output changes only when the sub-flow succeeded. */
  lemma SubFlowFramesParent(w: World, node: FlowNode, vars: Vars, t: nat, fuel: nat, k: string)
    requires node.typ.SubFlow? && RunSubFlow(w, node, vars, t, fuel).Some?
    requires !("subflow_" <= k)
    ensures var h := RunSubFlow(w, node, vars, t, fuel).value.result;
      && h.Exit? && (h.name == "default" || h.name == "error")
      && (k !in node.config.outputs || h.name == "error" ==> SameAt(h.vars, vars, k))
  {
    var cfg := node.config;
    InputsTouchOnlySubflowKeys(w, cfg.inputs, w.order(t, cfg.inputs.Keys), vars, t + 1, k);
    var vars1 := Prepared(w, cfg, vars, t);
    var sub := SubGraph(w.loader, node);
    if sub.Some? {
      var o := Exec(w, sub.value, vars1, PreparedTick(w, cfg, t), fuel - 1).value;
      OutputsCopied(cfg.outputs, o.vars, vars1, k);
    }
  }

  /** The sub-flow's success decides the exit, and a declared output it holds at its end arrives in the parent. */
  lemma SubFlowDeliversOutputs(w: World, node: FlowNode, vars: Vars, t: nat, fuel: nat, k: string)
    requires node.typ.SubFlow? && RunSubFlow(w, node, vars, t, fuel).Some?
    requires SubGraph(w.loader, node).Some? && k in node.config.outputs
    ensures fuel > 0
    ensures var o := Exec(w, SubGraph(w.loader, node).value, Prepared(w, node.config, vars, t),
                          PreparedTick(w, node.config, t), fuel - 1);
      var h := RunSubFlow(w, node, vars, t, fuel).value.result;
      && o.Some?
      && (h.name == "default" <==> o.value.err.None?)
      && (o.value.err.None? && k in o.value.vars ==> k in h.vars && h.vars[k] == o.value.vars[k])
  {
    var vars1 := Prepared(w, node.config, vars, t);
    var o := Exec(w, SubGraph(w.loader, node).value, vars1, PreparedTick(w, node.config, t), fuel - 1).value;
    OutputsCopied(node.config.outputs, o.vars, vars1, k);
  }

  /** The engine: its handler table, built by registration. */
  class Engine {
    var handlers: set<NodeType>

    constructor NewEngine()
      ensures handlers == {}
    {
      handlers := {};
    }

    /** DefaultEngine: every node type the validator admits has a handler. */
    constructor DefaultEngine()
      ensures forall t :: t in handlers <==> t in VALID_NODE_TYPES
    {
      handlers := {};
      new;
      RegisterBasicNodes();
      RegisterIntegrationNodes();
      RegisterRoutingNodes();
    }

    method RegisterBasicNodes()
      modifies this
      ensures handlers == old(handlers) + {Start, Play, CollectDTMF, Branch, SetVariable, HangupReason, End}
    {
      RegisterHandler(Start);
      RegisterHandler(Play);
      RegisterHandler(CollectDTMF);
      RegisterHandler(Branch);
      RegisterHandler(SetVariable);
      RegisterHandler(HangupReason);
      RegisterHandler(End);
    }

    method RegisterIntegrationNodes()
      modifies this
      ensures handlers == old(handlers)
        + {NodeType.Function, HTTPRequest, JSONParser, SMS, SatisfactionRating, ASR, Voicemail}
    {
      RegisterHandler(NodeType.Function);
      RegisterHandler(HTTPRequest);
      RegisterHandler(JSONParser);
      RegisterHandler(SMS);
      RegisterHandler(SatisfactionRating);
      RegisterHandler(ASR);
      RegisterHandler(Voicemail);
    }

    method RegisterRoutingNodes()
      modifies this
      ensures handlers == old(handlers)
        + {TransferToAgent, TransferToExternal, BlindTransfer, NodeType.SubFlow, DigitalEmployee, Callback}
        + {NLU, QueuePosition, SentimentGate, CustomerLookup}
    {
      RegisterHandler(TransferToAgent);
      RegisterHandler(TransferToExternal);
      RegisterHandler(BlindTransfer);
      RegisterHandler(NodeType.SubFlow);
      RegisterHandler(DigitalEmployee);
      RegisterHandler(Callback);
      RegisterHandler(NLU);
      RegisterHandler(QueuePosition);
      RegisterHandler(SentimentGate);
      RegisterHandler(CustomerLookup);
    }

    method RegisterHandler(t: NodeType)
      modifies this
      ensures handlers == old(handlers) + {t}
    {
      handlers := handlers + {t};
    }
  }
}
