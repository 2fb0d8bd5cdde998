/** What a run of the interpreter does turn by turn, said of the nodes' own exits and of the handlers' own
    answers, and what a sub-flow is given (internal/application/ivr). */
module IvrTrace {
  import opened Interpolation
  import opened IvrEngine
  import opened Options
  import opened Routing
  import opened Text

  // Where a run is before a turn.
  datatype Stage = Stage(node: FlowNode, vars: Vars, t: nat)

  // The node's handler answers so, and the run goes on at tick t'.
  ghost predicate Answered(w: World, s: Stage, fuel: nat, answer: HandlerResult, t': nat) {
    if s.node.typ.SubFlow? then
      var h := RunSubFlow(w, s.node, s.vars, s.t, fuel);
      h.Some? && h.value.result == answer && h.value.t == t'
    else answer == w.handle(s.t, s.node, s.vars) && t' == s.t + 1
  }

  // The id an exit leads to: that of the exit, or of "default" only when the node has no such exit.
  ghost predicate LeadsTo(node: FlowNode, exit: string, id: string) {
    && (exit in node.exits ==> id == node.exits[exit])
    && (exit !in node.exits ==> "default" in node.exits && id == node.exits["default"])
  }

  // One turn that goes on: the handler's exit is recorded and followed.
  ghost predicate Turned(w: World, byId: map<string, FlowNode>, a: Stage, v: NodeVisit, b: Stage, fuel: nat) {
    && a.node.typ != End && a.node.typ in w.handlers
    && Answered(w, a, fuel, Exit(v.exit, b.vars), b.t)
    && v.id == a.node.id && v.typ == a.node.typ
    && Enters(byId, a.node, v.exit, b.node)
  }

  ghost predicate Enters(byId: map<string, FlowNode>, node: FlowNode, exit: string, next: FlowNode) {
    exists id :: LeadsTo(node, exit, id) && id in byId && next == byId[id]
  }

  // The turn that ends the run, with the visit it records, if any.
  ghost predicate Stopped(w: World, byId: map<string, FlowNode>, a: Stage, o: Outcome, fuel: nat, last: Option<NodeVisit>) {
    match o.err
    case None => a.node.typ == End && o.vars == a.vars && last == Some(NodeVisit(a.node.id, End, ""))
    case Some(NoHandler(typ)) => a.node.typ == typ != End && typ !in w.handlers && o.vars == a.vars && last == None
    case Some(HandlerFailed(id)) => id == a.node.id && Answered(w, a, fuel, Fails(o.vars), o.t) && last == None
    case Some(NoExit(id, exit)) =>
      && id == a.node.id && Answered(w, a, fuel, Exit(exit, o.vars), o.t)
      && exit !in a.node.exits && "default" !in a.node.exits
      && last == Some(NodeVisit(a.node.id, a.node.typ, exit))
    case Some(TargetMissing(id, target)) =>
      && id == a.node.id && last.Some? && last.value.id == a.node.id && last.value.typ == a.node.typ
      && Answered(w, a, fuel, Exit(last.value.exit, o.vars), o.t)
      && LeadsTo(a.node, last.value.exit, target) && target !in byId
    case Some(TooManySteps) => o.vars == a.vars && last == None
    case Some(NoStart) => false
  }


  // The stages of a run of at most left turns, one visit recorded in each turn that goes on.
  ghost predicate Traced(w: World, byId: map<string, FlowNode>, stages: seq<Stage>, left: nat, o: Outcome, fuel: nat) {
    && 0 < |stages| <= left + 1 && |stages| - 1 <= |o.history| <= |stages|
    && (forall k :: 0 <= k < |stages| - 1 ==> Turned(w, byId, stages[k], o.history[k], stages[k + 1], fuel))
    && (o.err == Some(TooManySteps) <==> |stages| == left + 1)
    && Stopped(w, byId, stages[|stages| - 1], o, fuel,
               if |o.history| == |stages| then Some(o.history[|stages| - 1]) else None)
  }

  lemma TurnIsTraced(w: World, byId: map<string, FlowNode>, a: Stage, fuel: nat)
    ensures var turn := TakeTurn(w, byId, a.node, a.vars, a.t, fuel);
      && (turn.Stop? ==>
            && turn.o.err != Some(TooManySteps) && |turn.o.history| <= 1
            && Stopped(w, byId, a, turn.o, fuel, if turn.o.history == [] then None else Some(turn.o.history[0])))
      && (turn.Go? ==> Turned(w, byId, a, turn.visit, Stage(turn.next, turn.vars, turn.t), fuel))
  {
    hide RunSubFlow;
    var turn := TakeTurn(w, byId, a.node, a.vars, a.t, fuel);
    if turn.Go? {
      var id := if turn.visit.exit in a.node.exits then a.node.exits[turn.visit.exit] else a.node.exits["default"];
      assert LeadsTo(a.node, turn.visit.exit, id);
    }
  }

  lemma TracedAfter(w: World, byId: map<string, FlowNode>, a: Stage, v: NodeVisit, n: nat, rest: seq<Stage>, left: nat,
                    o: Outcome, fuel: nat)
    requires Traced(w, byId, rest, left, o, fuel) && Turned(w, byId, a, v, rest[0], fuel)
    ensures Traced(w, byId, [a] + rest, left + 1, Prefixed([v], n, o), fuel)
  {
    hide Turned;
    var stages, p := [a] + rest, Prefixed([v], n, o);
    forall k | 0 <= k < |stages| - 1
      ensures Turned(w, byId, stages[k], p.history[k], stages[k + 1], fuel)
    {
      assert k > 0 ==> Turned(w, byId, rest[k - 1], o.history[k - 1], rest[k], fuel);
    }
    StopDependsOn(w, byId, rest[|rest| - 1], o, p, fuel);
    hide Stopped;
  }

  lemma TracedStop(w: World, byId: map<string, FlowNode>, a: Stage, left: nat, o: Outcome, fuel: nat)
    requires left > 0 && o.err != Some(TooManySteps) && |o.history| <= 1
    requires Stopped(w, byId, a, o, fuel, if o.history == [] then None else Some(o.history[0]))
    ensures Traced(w, byId, [a], left, o, fuel)
  {
    hide Stopped;
  }

  lemma TracedNothing(w: World, byId: map<string, FlowNode>, a: Stage, fuel: nat)
    ensures Traced(w, byId, [a], 0, Outcome(Some(TooManySteps), a.vars, [], a.t, 0), fuel)
  {
  }

  lemma {:induction false} WalkIsTraced(w: World, byId: map<string, FlowNode>, a: Stage, left: nat, fuel: nat)
    returns (stages: seq<Stage>)
    requires Walk(w, byId, a.node, a.vars, a.t, left, fuel).Some?
    ensures Traced(w, byId, stages, left, Walk(w, byId, a.node, a.vars, a.t, left, fuel).value, fuel)
    ensures stages != [] && stages[0] == a
    decreases left
  {
    stages := [a];
    if left == 0 {
      TracedNothing(w, byId, a, fuel);
    } else {
      var turn := TakeTurn(w, byId, a.node, a.vars, a.t, fuel);
      TurnIsTraced(w, byId, a, fuel);
      hide TakeTurn, Turned, Stopped, Traced;
      if turn.Go? {
        var b := Stage(turn.next, turn.vars, turn.t);
        var rest := WalkIsTraced(w, byId, b, left - 1, fuel);
        var o := Walk(w, byId, b.node, b.vars, b.t, left - 1, fuel).value;
        TracedAfter(w, byId, a, turn.visit, turn.visits, rest, left - 1, o, fuel);
        stages := [a] + rest;
      } else {
        TracedStop(w, byId, a, left, turn.o, fuel);
      }
    }
  }

  lemma StopDependsOn(w: World, byId: map<string, FlowNode>, a: Stage, o: Outcome, p: Outcome, fuel: nat)
    requires o.err == p.err && o.vars == p.vars && o.t == p.t
    ensures forall last :: Stopped(w, byId, a, o, fuel, last) <==> Stopped(w, byId, a, p, fuel, last)
  {
  }

  // The stages of a whole run.
  ghost predicate Runs(w: World, g: Graph, vars: Vars, t: nat, fuel: nat, stages: seq<Stage>, o: Outcome) {
    && Traced(w, NodeMap(g, |g|), stages, 1000, o, fuel)
    && stages[0].vars == vars && stages[0].t == t && StartNode(g, |g|) == Some(stages[0].node)
  }

  /** Every run that ends, of any graph: it begins at the start node with the session's variables; each turn
      calls the handler of the node with the variables the turn before it left, records the exit it answers and
      goes where that exit leads, or "default" when the node has no such exit; and it stops at an end node, at
      a node without a handler, when a handler fails, when a node has neither exit, when no node has the
      target's id, or after 1000 turns and no sooner. */
  lemma RunIsTraced(w: World, g: Graph, vars: Vars, t: nat, fuel: nat)
    requires Exec(w, g, vars, t, fuel).Some?
    ensures var o := Exec(w, g, vars, t, fuel).value;
      if StartNode(g, |g|).None? then o.err == Some(NoStart) && o.history == [] && o.vars == vars
      else exists stages :: Runs(w, g, vars, t, fuel, stages, o)
  {
    var start := StartNode(g, |g|);
    if start.Some? {
      hide Walk, Traced, NodeMap;
      var stages := WalkIsTraced(w, NodeMap(g, |g|), Stage(start.value, vars, t), 1000, fuel);
      assert Runs(w, g, vars, t, fuel, stages, Exec(w, g, vars, t, fuel).value);
    }
  }

  // Which node a visit of a run is of: the start, or the one its id stands for.
  function Visited(g: Graph, h: seq<NodeVisit>, k: nat): Option<FlowNode>
    requires k < |h|
  {
    if k == 0 then StartNode(g, |g|)
    else if h[k].id in NodeMap(g, |g|) then Some(NodeMap(g, |g|)[h[k].id])
    else None
  }

  lemma StageIsVisited(w: World, g: Graph, vars: Vars, t: nat, fuel: nat, stages: seq<Stage>, o: Outcome, k: nat)
    requires Runs(w, g, vars, t, fuel, stages, o) && k < |o.history| && k < |stages|
    ensures Visited(g, o.history, k) == Some(stages[k].node)
    ensures o.history[k].id == stages[k].node.id
  {
    NodeMapHoldsNodes(g, |g|);
    hide StartNode, NodeMap, Answered;
    if k > 0 {
      assert Turned(w, NodeMap(g, |g|), stages[k - 1], o.history[k - 1], stages[k], fuel);
    }
    if k < |stages| - 1 {
      assert Turned(w, NodeMap(g, |g|), stages[k], o.history[k], stages[k + 1], fuel);
    }
  }

  /** So every next visit is of the node the recorded exit leads to, by "default" only when the node visited
      has no such exit; and a run fails for want of an exit only at a node that has neither. */
  lemma ExitsAreFollowed(w: World, g: Graph, vars: Vars, t: nat, fuel: nat, k: nat)
    requires Exec(w, g, vars, t, fuel).Some? && k < |Exec(w, g, vars, t, fuel).value.history|
    ensures var o := Exec(w, g, vars, t, fuel).value; var h := o.history;
      var node := Visited(g, h, k);
      && node.Some? && node.value.id == h[k].id
      && (k + 1 < |h| && h[k].exit in node.value.exits ==> h[k + 1].id == node.value.exits[h[k].exit])
      && (k + 1 < |h| && h[k].exit !in node.value.exits ==>
            "default" in node.value.exits && h[k + 1].id == node.value.exits["default"])
      && (k + 1 == |h| && o.err.Some? && o.err.value.NoExit? ==>
            && o.err.value == NoExit(h[k].id, h[k].exit)
            && h[k].exit !in node.value.exits && "default" !in node.value.exits)
  {
    var o := Exec(w, g, vars, t, fuel).value;
    RunIsTraced(w, g, vars, t, fuel);
    NodeMapHoldsNodes(g, |g|);
    hide Exec, StartNode, NodeMap, Answered;
    var stages :| Runs(w, g, vars, t, fuel, stages, o);
    StageIsVisited(w, g, vars, t, fuel, stages, o, k);
    if k + 1 < |o.history| {
      assert Turned(w, NodeMap(g, |g|), stages[k], o.history[k], stages[k + 1], fuel);
      StageIsVisited(w, g, vars, t, fuel, stages, o, k + 1);
    }
  }

  /** In a graph whose ids are distinct, as the validator demands, the visited node is the graph's own. */
  lemma VisitsAreOfTheGraph(g: Graph, h: seq<NodeVisit>, k: nat, i: nat)
    requires DistinctIds(g) && k < |h| && i < |g| && g[i].id == h[k].id
    requires Visited(g, h, k).Some? && Visited(g, h, k).value.id == h[k].id
    ensures Visited(g, h, k) == Some(g[i])
  {
    NodeMapHoldsNodes(g, |g|);
    var node := Visited(g, h, k).value;
    assert node in g;
    var j :| 0 <= j < |g| && g[j] == node;
  }

  /** A later node replaces an earlier one of the same id, and a later start node an earlier one. */
  lemma {:induction false} LaterNodesWin(g: Graph, n: nat, i: nat)
    requires i < n <= |g|
    ensures (forall j :: i < j < n ==> g[j].id != g[i].id) ==> g[i].id in NodeMap(g, n) && NodeMap(g, n)[g[i].id] == g[i]
    ensures g[i].typ == Start && (forall j :: i < j < n ==> g[j].typ != Start) ==> StartNode(g, n) == Some(g[i])
  {
    if i < n - 1 {
      LaterNodesWin(g, n - 1, i);
    }
  }

  // ---------------------------------------------------------------------------
  // Sub-flows
  // ---------------------------------------------------------------------------

  /** A sub-flow node answers "default" without a loader or when the nested run succeeds, and "error" when its
      flow cannot be loaded or the nested run fails; but for the outputs of a success, the parent's variables
      are those it had once its inputs were set. */
  lemma SubFlowExits(w: World, node: FlowNode, vars: Vars, t: nat, fuel: nat)
    requires node.typ.SubFlow? && RunSubFlow(w, node, vars, t, fuel).Some?
    ensures var h := RunSubFlow(w, node, vars, t, fuel).value.result;
      var id := ParseInt(node.config.flowId);
      var ready := Prepared(w, node.config, vars, t);
      && (w.loader.None? ==> h == Exit("default", ready))
      && (w.loader.Some? && (id.None? || id.value !in w.loader.value) ==> h == Exit("error", ready))
      && (w.loader.Some? && id.Some? && id.value in w.loader.value ==>
            var o := Exec(w, w.loader.value[id.value], ready, PreparedTick(w, node.config, t), fuel - 1);
            && o.Some?
            && (o.value.err.Some? ==> h == Exit("error", ready))
            && (o.value.err.None? ==> h.Exit? && h.name == "default"))
  {
    hide Prepared, CopyOutputs, Exec;
  }

  // Every order the world gives is a real one.
  ghost predicate RealOrders(w: World) {
    forall t, keys :: Enumerates(w.order(t, keys), keys)
  }

  // The template is text and variables of the parent's own.
  ghost predicate Ready(tpl: seq<Piece>, vars: Vars) {
    CleanTemplate(tpl) && forall i :: 0 <= i < |tpl| && tpl[i].Hole? ==> tpl[i].key in vars && !("subflow_" <= tpl[i].key)
  }

  // now has the parent's variables, and clean "subflow_" ones.
  ghost predicate SameParent(vars: Vars, now: Vars) {
    CleanVars(now) && forall k :: !("subflow_" <= k) ==> SameAt(now, vars, k)
  }

  lemma {:induction false} FilledIsFree(tpl: seq<Piece>)
    requires CleanTemplate(tpl) && forall i :: 0 <= i < |tpl| ==> tpl[i].Literal?
    ensures Free(Render(tpl), '$')
  {
    if tpl != [] {
      assert CleanPiece(tpl[0]);
      FilledIsFree(tpl[1..]);
    }
  }

  lemma ParentStays(vars: Vars, now: Vars, k: string, value: string)
    requires SameParent(vars, now) && Free("subflow_" + k, '$') && Free("subflow_" + k, '}') && Free(value, '$')
    ensures SameParent(vars, now["subflow_" + k := value])
  {
    var next := now["subflow_" + k := value];
    forall j | !("subflow_" <= j)
      ensures SameAt(next, vars, j)
    {
      assert "subflow_" <= "subflow_" + k;
      assert SameAt(now, vars, j);
    }
  }

  lemma InputIsEvaluated(w: World, inputs: map<string, string>, k: string, tpl: seq<Piece>, vars: Vars, now: Vars, t: nat)
    requires RealOrders(w) && SameParent(vars, now) && Ready(tpl, vars)
    requires k in inputs && inputs[k] == Render(tpl) && Free(k, '$') && Free(k, '}')
    ensures SetInput(w, inputs, k, now, t) == now["subflow_" + k := Render(Substitute(tpl, vars))]
    ensures SameParent(vars, SetInput(w, inputs, k, now, t))
  {
    InterpolationIsOrderIndependent(tpl, w.order(t, now.Keys), now);
    assert Substitute(tpl, now) == Substitute(tpl, vars) by {
      forall i | 0 <= i < |tpl|
        ensures Fill(tpl[i], now) == Fill(tpl[i], vars)
      {
        assert tpl[i].Hole? ==> SameAt(now, vars, tpl[i].key);
      }
    }
    var filled := Substitute(tpl, now);
    forall i | 0 <= i < |filled|
      ensures filled[i].Literal? && CleanPiece(filled[i])
    {
      assert CleanPiece(tpl[i]);
      assert tpl[i].Hole? ==> SameAt(now, vars, tpl[i].key);
    }
    FilledIsFree(filled);
    assert Free("subflow_" + k, '$') && Free("subflow_" + k, '}');
    ParentStays(vars, now, k, Render(filled));
  }

  // The inputs' templates, piece by piece.
  ghost predicate Templates(inputs: map<string, string>, tpls: map<string, seq<Piece>>, vars: Vars) {
    forall k :: k in inputs ==>
      k in tpls && inputs[k] == Render(tpls[k]) && Ready(tpls[k], vars) && Free(k, '$') && Free(k, '}')
  }

  lemma {:induction false} InputsArrive(w: World, inputs: map<string, string>, tpls: map<string, seq<Piece>>, keys: seq<string>,
                                        vars: Vars, now: Vars, t: nat, k: string)
    requires RealOrders(w) && SameParent(vars, now) && Templates(inputs, tpls, vars) && k in inputs
    requires forall j :: j in keys ==> j in inputs
    ensures var v := SetInputs(w, inputs, keys, now, t);
      && SameParent(vars, v)
      && (k in keys ==> "subflow_" + k in v && v["subflow_" + k] == Render(Substitute(tpls[k], vars)))
      && (k !in keys ==> SameAt(v, now, "subflow_" + k))
    decreases |keys|
  {
    if keys != [] {
      var j, next := keys[0], SetInput(w, inputs, keys[0], now, t);
      InputIsEvaluated(w, inputs, j, tpls[j], vars, now, t);
      assert j != k ==> "subflow_" + j != "subflow_" + k by {
        assert ("subflow_" + j)[8..] == j && ("subflow_" + k)[8..] == k;
      }
      hide SetInput, SameParent;
      InputsArrive(w, inputs, tpls, keys[1..], vars, next, t + 1, k);
    }
  }

  /** The nested run starts with the parent's variables, the flow's id, and for each input a "subflow_" variable
      that holds its template over the parent's variables, whatever orders the maps are iterated in. */
  lemma InputsAreEvaluated(w: World, cfg: NodeConfig, tpls: map<string, seq<Piece>>, vars: Vars, t: nat)
    requires RealOrders(w) && CleanVars(vars) && Templates(cfg.inputs, tpls, vars)
    ensures var v := Prepared(w, cfg, vars, t);
      && (forall k :: k in cfg.inputs && k != "id" ==>
            "subflow_" + k in v && v["subflow_" + k] == Render(Substitute(tpls[k], vars)))
      && "subflow_id" in v && v["subflow_id"] == cfg.flowId
      && (forall k :: k in vars && !("subflow_" <= k) ==> k in v && v[k] == vars[k])
  {
    var keys := w.order(t, cfg.inputs.Keys);
    assert Enumerates(keys, cfg.inputs.Keys);
    var v := SetInputs(w, cfg.inputs, keys, vars, t + 1);
    forall k | k in cfg.inputs && k != "id"
      ensures "subflow_" + k in v && v["subflow_" + k] == Render(Substitute(tpls[k], vars)) && "subflow_" + k != "subflow_id"
    {
      InputsArrive(w, cfg.inputs, tpls, keys, vars, vars, t + 1, k);
      assert ("subflow_" + k)[8..] == k && "subflow_id"[8..] == "id";
    }
    forall k | k in vars && !("subflow_" <= k)
      ensures k in v && v[k] == vars[k] && k != "subflow_id"
    {
      InputsTouchOnlySubflowKeys(w, cfg.inputs, keys, vars, t + 1, k);
      assert "subflow_" <= "subflow_id";
    }
  }
}
