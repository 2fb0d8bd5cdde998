/** Nested sub-flows: how many visits a run makes, which reference graphs bound the nesting, and which runs
    nest without end (internal/application/ivr). */
module IvrNesting {
  import opened IvrEngine
  import opened Options
  import opened Routing
  import opened Text
  import opened Interpolation

  // ---------------------------------------------------------------------------
  // Visits
  // ---------------------------------------------------------------------------

  function Power(b: nat, e: nat): nat {
    if e == 0 then 1 else b * Power(b, e - 1)
  }

  // 1000 + 1000^2 + ... + 1000^n
  function GeometricSum(n: nat): nat {
    if n == 0 then 0 else GeometricSum(n - 1) + Power(MAX_STEPS, n)
  }

  lemma {:induction false} GeometricSumStep(n: nat)
    ensures GeometricSum(n + 1) == MAX_STEPS * (1 + GeometricSum(n))
  {
    if n > 0 {
      GeometricSumStep(n - 1);
    } else {
      assert Power(MAX_STEPS, 1) == MAX_STEPS * Power(MAX_STEPS, 0);
    }
  }

  lemma {:induction false} WalkVisitsBounded(w: World, byId: map<string, FlowNode>, current: FlowNode,
                                             vars: Vars, t: nat, left: nat, fuel: nat)
    ensures var o := Walk(w, byId, current, vars, t, left, fuel);
      o.Some? ==> o.value.visits <= left * (1 + GeometricSum(fuel))
    decreases fuel, 2, left
  {
    if left > 0 {
      TurnVisitsBounded(w, byId, current, vars, t, fuel);
      var turn, n := TakeTurn(w, byId, current, vars, t, fuel), 1 + GeometricSum(fuel);
      assert left * n == (left - 1) * n + n;
      assert (left - 1) * n >= 0;
      hide TakeTurn;
      if turn.Go? {
        WalkVisitsBounded(w, byId, turn.next, turn.vars, turn.t, left - 1, fuel);
      }
    }
  }

  lemma {:induction false} TurnVisitsBounded(w: World, byId: map<string, FlowNode>, current: FlowNode,
                                             vars: Vars, t: nat, fuel: nat)
    ensures match TakeTurn(w, byId, current, vars, t, fuel)
      case Stop(o) => o.visits <= 1 + GeometricSum(fuel)
      case Unended => true
      case Go(_, _, _, _, n) => n <= 1 + GeometricSum(fuel)
    decreases fuel, 1, 0
  {
    if current.typ.SubFlow? {
      SubFlowVisitsBounded(w, current, vars, t, fuel);
      assert Handle(w, current, vars, t, fuel) == RunSubFlow(w, current, vars, t, fuel);
    }
    hide RunSubFlow;
  }

  lemma {:induction false} SubFlowVisitsBounded(w: World, node: FlowNode, vars: Vars, t: nat, fuel: nat)
    requires node.typ.SubFlow?
    ensures var h := RunSubFlow(w, node, vars, t, fuel); h.Some? ==> h.value.visits <= GeometricSum(fuel)
    decreases fuel, 0, 0
  {
    var sub := SubGraph(w.loader, node);
    if sub.Some? && fuel > 0 {
      ExecVisitsBounded(w, sub.value, Prepared(w, node.config, vars, t), PreparedTick(w, node.config, t), fuel - 1);
    }
    hide Exec, Prepared, PreparedTick;
  }

  /** A run that nests sub-flows at most d deep makes at most 1000 + 1000^2 + ... + 1000^(d+1) node visits in
      all. */
  lemma {:induction false} ExecVisitsBounded(w: World, g: Graph, vars: Vars, t: nat, d: nat)
    ensures var o := Exec(w, g, vars, t, d); o.Some? ==> o.value.visits <= GeometricSum(d + 1)
    decreases d, 3, 0
  {
    GeometricSumStep(d);
    var start := StartNode(g, |g|);
    if start.Some? {
      WalkVisitsBounded(w, NodeMap(g, |g|), start.value, vars, t, MAX_STEPS, d);
    }
  }

  // ---------------------------------------------------------------------------
  // References
  // ---------------------------------------------------------------------------

  // Sub-flow references from g nest at most d deep.
  ghost predicate DepthAtMost(loader: Option<Flows>, g: Graph, d: nat)
    decreases d
  {
    forall i :: 0 <= i < |g| && SubGraph(loader, g[i]).Some? ==>
      d > 0 && DepthAtMost(loader, SubGraph(loader, g[i]).value, d - 1)
  }

  ghost predicate NodeDepth(loader: Option<Flows>, node: FlowNode, d: nat) {
    SubGraph(loader, node).Some? ==> d > 0 && DepthAtMost(loader, SubGraph(loader, node).value, d - 1)
  }

  ghost predicate MapDepth(loader: Option<Flows>, byId: map<string, FlowNode>, d: nat) {
    forall id :: id in byId ==> NodeDepth(loader, byId[id], d)
  }

  lemma GraphDepthIsMapDepth(loader: Option<Flows>, g: Graph, d: nat)
    requires DepthAtMost(loader, g, d)
    ensures MapDepth(loader, NodeMap(g, |g|), d)
    ensures StartNode(g, |g|).Some? ==> NodeDepth(loader, StartNode(g, |g|).value, d)
  {
    NodeMapHoldsNodes(g, |g|);
  }

  // rank decreases along every sub-flow reference between loadable flows.
  ghost predicate Ranked(flows: Flows, rank: map<int, nat>) {
    forall id, i :: id in flows && 0 <= i < |flows[id]| && SubGraph(Some(flows), flows[id][i]).Some? ==>
      var sub := ParseInt(flows[id][i].config.flowId).value;
      id in rank && sub in rank && rank[sub] < rank[id]
  }

  /** Acyclic references have a depth: a rank that decreases along them bounds it. */
  lemma {:induction false} RankedFlowsHaveDepth(flows: Flows, rank: map<int, nat>, id: int, d: nat)
    requires Ranked(flows, rank) && id in flows && (id in rank ==> rank[id] <= d)
    ensures DepthAtMost(Some(flows), flows[id], d)
    decreases d
  {
    forall i | 0 <= i < |flows[id]| && SubGraph(Some(flows), flows[id][i]).Some?
      ensures d > 0 && DepthAtMost(Some(flows), SubGraph(Some(flows), flows[id][i]).value, d - 1)
    {
      var sub := ParseInt(flows[id][i].config.flowId).value;
      RankedFlowsHaveDepth(flows, rank, sub, d - 1);
    }
  }

  ghost predicate Refers(flows: Flows, id: int, sub: int) {
    id in flows && exists i ::
      && 0 <= i < |flows[id]|
      && SubGraph(Some(flows), flows[id][i]).Some?
      && ParseInt(flows[id][i].config.flowId) == Some(sub)
  }

  ghost predicate RefersInto(flows: Flows, id: int, group: set<int>) {
    exists sub :: sub in group && Refers(flows, id, sub)
  }

  // Every flow of the group has a sub-flow node that runs a flow of the group.
  ghost predicate Cyclic(flows: Flows, group: set<int>) {
    forall id :: id in group ==> RefersInto(flows, id, group)
  }

  lemma RunningNeedsDepth(flows: Flows, id: int, sub: int, d: nat)
    requires Refers(flows, id, sub) && DepthAtMost(Some(flows), flows[id], d)
    ensures d > 0 && sub in flows && DepthAtMost(Some(flows), flows[sub], d - 1)
  {
  }

  lemma NextInGroup(flows: Flows, group: set<int>, id: int) returns (sub: int)
    requires RefersInto(flows, id, group)
    ensures sub in group && Refers(flows, id, sub) && id in flows
  {
    sub :| sub in group && Refers(flows, id, sub);
    hide SubGraph;
  }

  /** Cyclic references have none: no bound on the nesting exists for a flow of a cycle. */
  lemma {:induction false} CyclicFlowsHaveNoDepth(flows: Flows, group: set<int>, id: int, d: nat)
    ensures Cyclic(flows, group) && id in group ==> id in flows && !DepthAtMost(Some(flows), flows[id], d)
    decreases d
  {
    if Cyclic(flows, group) && id in group {
      hide RefersInto;
      assert RefersInto(flows, id, group);
      hide *;
      var sub := NextInGroup(flows, group, id);
      if DepthAtMost(Some(flows), flows[id], d) {
        RunningNeedsDepth(flows, id, sub, d);
        CyclicFlowsHaveNoDepth(flows, group, sub, d - 1);
      }
    }
  }

  lemma {:induction false} DeeperIsEnough(loader: Option<Flows>, g: Graph, d: nat, e: nat)
    requires DepthAtMost(loader, g, d) && d <= e
    ensures DepthAtMost(loader, g, e)
    decreases d
  {
    forall i | 0 <= i < |g| && SubGraph(loader, g[i]).Some?
      ensures e > 0 && DepthAtMost(loader, SubGraph(loader, g[i]).value, e - 1)
    {
      DeeperIsEnough(loader, SubGraph(loader, g[i]).value, d - 1, e - 1);
    }
  }

  // Some bound on the nesting exists.
  ghost predicate Bounded(flows: Flows, g: Graph) {
    exists d: nat :: DepthAtMost(Some(flows), g, d)
  }

  // One bound for all the flows that the first n nodes run.
  lemma {:induction false} CommonDepth(flows: Flows, g: Graph, n: nat) returns (d: nat)
    requires n <= |g|
    requires forall i :: 0 <= i < n && SubGraph(Some(flows), g[i]).Some? ==> Bounded(flows, SubGraph(Some(flows), g[i]).value)
    ensures forall i :: 0 <= i < n && SubGraph(Some(flows), g[i]).Some? ==>
      DepthAtMost(Some(flows), SubGraph(Some(flows), g[i]).value, d)
  {
    hide DepthAtMost, SubGraph;
    d := 0;
    if n > 0 {
      d := CommonDepth(flows, g, n - 1);
      var last := SubGraph(Some(flows), g[n - 1]);
      if last.Some? {
        var e: nat :| DepthAtMost(Some(flows), last.value, e);
        var most := if d < e then e else d;
        DeeperIsEnough(Some(flows), last.value, e, most);
        forall i | 0 <= i < n - 1 && SubGraph(Some(flows), g[i]).Some?
          ensures DepthAtMost(Some(flows), SubGraph(Some(flows), g[i]).value, most)
        {
          DeeperIsEnough(Some(flows), SubGraph(Some(flows), g[i]).value, d, most);
        }
        d := most;
      }
    }
  }

  // A graph that runs bounded flows only is bounded.
  lemma BoundedFromSubs(flows: Flows, g: Graph)
    requires forall i :: 0 <= i < |g| && SubGraph(Some(flows), g[i]).Some? ==> Bounded(flows, SubGraph(Some(flows), g[i]).value)
    ensures Bounded(flows, g)
  {
    var d := CommonDepth(flows, g, |g|);
    assert DepthAtMost(Some(flows), g, d + 1);
  }

  // The flows without a bound.
  ghost function Endless(flows: Flows): set<int> {
    set id | id in flows && !Bounded(flows, flows[id])
  }

  lemma EndlessIsCyclic(flows: Flows)
    ensures Cyclic(flows, Endless(flows))
  {
    forall id | id in Endless(flows)
      ensures RefersInto(flows, id, Endless(flows))
    {
      var g := flows[id];
      if forall i :: 0 <= i < |g| && SubGraph(Some(flows), g[i]).Some? ==> Bounded(flows, SubGraph(Some(flows), g[i]).value) {
        BoundedFromSubs(flows, g);
      } else {
        var i :| 0 <= i < |g| && SubGraph(Some(flows), g[i]).Some? && !Bounded(flows, SubGraph(Some(flows), g[i]).value);
        var sub := ParseInt(g[i].config.flowId).value;
        hide Bounded;
        assert sub in Endless(flows) && Refers(flows, id, sub);
      }
    }
  }

  ghost predicate InCycle(flows: Flows, id: int) {
    exists group :: id in group && Cyclic(flows, group)
  }

  /** The exact condition: the nesting from a flow has a bound exactly when no group of flows that run each
      other contains it. */
  lemma BoundedIff(flows: Flows, id: int)
    requires id in flows
    ensures Bounded(flows, flows[id]) <==> !InCycle(flows, id)
  {
    hide DepthAtMost, Cyclic;
    EndlessIsCyclic(flows);
    if Bounded(flows, flows[id]) {
      var d: nat :| DepthAtMost(Some(flows), flows[id], d);
      forall group | id in group
        ensures !Cyclic(flows, group)
      {
        CyclicFlowsHaveNoDepth(flows, group, id, d);
      }
    } else {
      assert id in Endless(flows);
    }
  }

  /** So a graph, stored or not, is bounded exactly when none of its sub-flow nodes runs a flow of a cycle. */
  lemma GraphBoundedIff(flows: Flows, g: Graph)
    ensures Bounded(flows, g) <==> forall i :: 0 <= i < |g| && SubGraph(Some(flows), g[i]).Some? ==>
      !InCycle(flows, ParseInt(g[i].config.flowId).value)
  {
    forall i | 0 <= i < |g| && SubGraph(Some(flows), g[i]).Some?
      ensures Bounded(flows, SubGraph(Some(flows), g[i]).value) <==> !InCycle(flows, ParseInt(g[i].config.flowId).value)
      ensures Bounded(flows, g) ==> Bounded(flows, SubGraph(Some(flows), g[i]).value)
    {
      BoundedIff(flows, ParseInt(g[i].config.flowId).value);
      if Bounded(flows, g) {
        var d: nat :| DepthAtMost(Some(flows), g, d);
        assert DepthAtMost(Some(flows), SubGraph(Some(flows), g[i]).value, d - 1);
      }
    }
    hide InCycle;
    if forall i :: 0 <= i < |g| && SubGraph(Some(flows), g[i]).Some? ==> !InCycle(flows, ParseInt(g[i].config.flowId).value) {
      BoundedFromSubs(flows, g);
    }
  }

  // ---------------------------------------------------------------------------
  // Runs that end
  // ---------------------------------------------------------------------------

  // More fuel changes no run that ends.
  lemma {:induction false} MoreFuelSubFlow(w: World, node: FlowNode, vars: Vars, t: nat, d: nat, e: nat)
    requires node.typ.SubFlow? && d <= e && RunSubFlow(w, node, vars, t, d).Some?
    ensures RunSubFlow(w, node, vars, t, e) == RunSubFlow(w, node, vars, t, d)
    decreases d, 0, 0
  {
    var sub := SubGraph(w.loader, node);
    if sub.Some? {
      MoreFuel(w, sub.value, Prepared(w, node.config, vars, t), PreparedTick(w, node.config, t), d - 1, e - 1);
    }
    hide Exec, Prepared, PreparedTick;
  }

  lemma {:induction false} MoreFuelTurn(w: World, byId: map<string, FlowNode>, current: FlowNode, vars: Vars, t: nat, d: nat, e: nat)
    requires d <= e && !TakeTurn(w, byId, current, vars, t, d).Unended?
    ensures TakeTurn(w, byId, current, vars, t, e) == TakeTurn(w, byId, current, vars, t, d)
    decreases d, 1, 0
  {
    if current.typ.SubFlow? && current.typ in w.handlers {
      MoreFuelSubFlow(w, current, vars, t, d, e);
    }
    hide RunSubFlow, FollowExit;
  }

  lemma {:induction false} MoreFuelWalk(w: World, byId: map<string, FlowNode>, current: FlowNode, vars: Vars, t: nat,
                                        left: nat, d: nat, e: nat)
    requires d <= e && Walk(w, byId, current, vars, t, left, d).Some?
    ensures Walk(w, byId, current, vars, t, left, e) == Walk(w, byId, current, vars, t, left, d)
    decreases d, 2, left
  {
    if left > 0 {
      var turn := TakeTurn(w, byId, current, vars, t, d);
      MoreFuelTurn(w, byId, current, vars, t, d, e);
      hide TakeTurn;
      if turn.Go? {
        MoreFuelWalk(w, byId, turn.next, turn.vars, turn.t, left - 1, d, e);
      }
    }
  }

  lemma {:induction false} MoreFuel(w: World, g: Graph, vars: Vars, t: nat, d: nat, e: nat)
    requires d <= e && Exec(w, g, vars, t, d).Some?
    ensures Exec(w, g, vars, t, e) == Exec(w, g, vars, t, d)
    decreases d, 3, 0
  {
    var start := StartNode(g, |g|);
    if start.Some? {
      MoreFuelWalk(w, NodeMap(g, |g|), start.value, vars, t, MAX_STEPS, d, e);
    }
  }

  // What an execution starts from.
  datatype Config = Config(g: Graph, vars: Vars, t: nat)

  ghost predicate Ends(w: World, c: Config) {
    exists d: nat :: Exec(w, c.g, c.vars, c.t, d).Some?
  }

  // The sub-flow a node runs.
  function Nested(w: World, node: FlowNode, vars: Vars, t: nat): Config
    requires SubGraph(w.loader, node).Some?
  {
    Config(SubGraph(w.loader, node).value, Prepared(w, node.config, vars, t), PreparedTick(w, node.config, t))
  }

  // After some turns that end, the walk comes to a node that runs the sub-flow c.
  ghost predicate Invokes(w: World, byId: map<string, FlowNode>, current: FlowNode, vars: Vars, t: nat, left: nat, c: Config)
    decreases left
  {
    && left > 0
    && (|| (current.typ in w.handlers && SubGraph(w.loader, current).Some? && c == Nested(w, current, vars, t))
        || exists d: nat ::
             var turn := TakeTurn(w, byId, current, vars, t, d);
             turn.Go? && Invokes(w, byId, turn.next, turn.vars, turn.t, left - 1, c))
  }

  ghost predicate Calls(w: World, c: Config, sub: Config) {
    var start := StartNode(c.g, |c.g|);
    start.Some? && Invokes(w, NodeMap(c.g, |c.g|), start.value, c.vars, c.t, MAX_STEPS, sub)
  }

  lemma TurnsAgree(w: World, byId: map<string, FlowNode>, current: FlowNode, vars: Vars, t: nat, d: nat, e: nat)
    requires !TakeTurn(w, byId, current, vars, t, d).Unended? && !TakeTurn(w, byId, current, vars, t, e).Unended?
    ensures TakeTurn(w, byId, current, vars, t, d) == TakeTurn(w, byId, current, vars, t, e)
  {
    hide TakeTurn;
    if d <= e {
      MoreFuelTurn(w, byId, current, vars, t, d, e);
    } else {
      MoreFuelTurn(w, byId, current, vars, t, e, d);
    }
  }

  lemma SubFlowRuns(w: World, node: FlowNode, vars: Vars, t: nat, d: nat)
    requires node.typ.SubFlow?
    ensures RunSubFlow(w, node, vars, t, d).Some? <==>
      SubGraph(w.loader, node).Some? ==>
        var c := Nested(w, node, vars, t); d > 0 && Exec(w, c.g, c.vars, c.t, d - 1).Some?
  {
    hide Exec, Prepared, PreparedTick, CopyOutputs;
  }

  lemma HandledTurn(w: World, byId: map<string, FlowNode>, current: FlowNode, vars: Vars, t: nat, d: nat)
    ensures TakeTurn(w, byId, current, vars, t, d).Unended? <==>
      current.typ.SubFlow? && current.typ in w.handlers && RunSubFlow(w, current, vars, t, d).None?
  {
    assert current.typ.SubFlow? ==> Handle(w, current, vars, t, d) == RunSubFlow(w, current, vars, t, d);
    assert !current.typ.SubFlow? ==> Handle(w, current, vars, t, d).Some?;
    hide RunSubFlow, Handle, FollowExit;
  }

  // A turn at a sub-flow node ends exactly when the sub-flow does, with one unit of fuel less.
  lemma SubFlowTurn(w: World, byId: map<string, FlowNode>, current: FlowNode, vars: Vars, t: nat, d: nat)
    requires current.typ in w.handlers && SubGraph(w.loader, current).Some?
    ensures var c := Nested(w, current, vars, t);
      !TakeTurn(w, byId, current, vars, t, d).Unended? <==> d > 0 && Exec(w, c.g, c.vars, c.t, d - 1).Some?
  {
    assert current.typ.SubFlow?;
    HandledTurn(w, byId, current, vars, t, d);
    SubFlowRuns(w, current, vars, t, d);
    hide *;
  }

  // A walk that ends with some fuel leaves one unit less to every sub-flow it runs.
  lemma {:induction false} InvokedEnds(w: World, byId: map<string, FlowNode>, current: FlowNode, vars: Vars, t: nat,
                                       left: nat, d: nat, c: Config)
    requires Walk(w, byId, current, vars, t, left, d).Some? && Invokes(w, byId, current, vars, t, left, c)
    ensures d > 0 && Exec(w, c.g, c.vars, c.t, d - 1).Some?
    decreases left
  {
    hide TakeTurn, Exec, Nested;
    if current.typ in w.handlers && SubGraph(w.loader, current).Some? && c == Nested(w, current, vars, t) {
      SubFlowTurn(w, byId, current, vars, t, d);
    } else {
      var e: nat :| var turn := TakeTurn(w, byId, current, vars, t, e);
        turn.Go? && Invokes(w, byId, turn.next, turn.vars, turn.t, left - 1, c);
      TurnsAgree(w, byId, current, vars, t, d, e);
      var turn := TakeTurn(w, byId, current, vars, t, d);
      InvokedEnds(w, byId, turn.next, turn.vars, turn.t, left - 1, d, c);
    }
  }

  // Enough fuel for the turn at this node.
  lemma TurnEnds(w: World, byId: map<string, FlowNode>, current: FlowNode, vars: Vars, t: nat) returns (d: nat)
    requires current.typ in w.handlers && SubGraph(w.loader, current).Some? ==> Ends(w, Nested(w, current, vars, t))
    ensures !TakeTurn(w, byId, current, vars, t, d).Unended?
  {
    hide Nested, Exec;
    if current.typ in w.handlers && SubGraph(w.loader, current).Some? {
      var c := Nested(w, current, vars, t);
      var e: nat :| Exec(w, c.g, c.vars, c.t, e).Some?;
      d := e + 1;
      SubFlowTurn(w, byId, current, vars, t, d);
    } else {
      d := 0;
      hide FollowExit;
    }
  }

  lemma {:induction false} WalkEnds(w: World, byId: map<string, FlowNode>, current: FlowNode, vars: Vars, t: nat,
                                    left: nat) returns (d: nat)
    requires forall c :: Invokes(w, byId, current, vars, t, left, c) ==> Ends(w, c)
    ensures Walk(w, byId, current, vars, t, left, d).Some?
    decreases left
  {
    if left == 0 {
      d := 0;
    } else {
      if current.typ in w.handlers && SubGraph(w.loader, current).Some? {
        assert Invokes(w, byId, current, vars, t, left, Nested(w, current, vars, t));
      }
      d := TurnEnds(w, byId, current, vars, t);
      hide TakeTurn, Nested, Ends;
      var turn := TakeTurn(w, byId, current, vars, t, d);
      if turn.Go? {
        forall c | Invokes(w, byId, turn.next, turn.vars, turn.t, left - 1, c)
          ensures Ends(w, c)
        {
          assert Invokes(w, byId, current, vars, t, left, c);
        }
        var e := WalkEnds(w, byId, turn.next, turn.vars, turn.t, left - 1);
        var most := if d < e then e else d;
        MoreFuelTurn(w, byId, current, vars, t, d, most);
        MoreFuelWalk(w, byId, turn.next, turn.vars, turn.t, left - 1, e, most);
        d := most;
      }
    }
  }

  lemma CallsEnd(w: World, c: Config, sub: Config)
    requires Ends(w, c) && Calls(w, c, sub)
    ensures Ends(w, sub)
  {
    var d: nat :| Exec(w, c.g, c.vars, c.t, d).Some?;
    var start := StartNode(c.g, |c.g|).value;
    hide Walk, NodeMap, StartNode, Invokes;
    InvokedEnds(w, NodeMap(c.g, |c.g|), start, c.vars, c.t, MAX_STEPS, d, sub);
  }

  lemma EndsIfCallsDo(w: World, c: Config)
    requires forall sub :: Calls(w, c, sub) ==> Ends(w, sub)
    ensures Ends(w, c)
  {
    var start := StartNode(c.g, |c.g|);
    hide Walk, NodeMap, StartNode, Invokes;
    if start.Some? {
      var byId := NodeMap(c.g, |c.g|);
      forall sub | Invokes(w, byId, start.value, c.vars, c.t, MAX_STEPS, sub)
        ensures Ends(w, sub)
      {
        assert Calls(w, c, sub);
      }
      var d := WalkEnds(w, byId, start.value, c.vars, c.t, MAX_STEPS);
      assert Exec(w, c.g, c.vars, c.t, d).Some?;
    } else {
      assert Exec(w, c.g, c.vars, c.t, 0).Some?;
    }
  }

  /** Nesting is the only way not to end: an execution ends exactly when every sub-flow it runs does. */
  lemma EndsIff(w: World, c: Config)
    ensures Ends(w, c) <==> forall sub :: Calls(w, c, sub) ==> Ends(w, sub)
  {
    hide Ends, Calls;
    forall sub | Ends(w, c) && Calls(w, c, sub)
      ensures Ends(w, sub)
    {
      CallsEnd(w, c, sub);
    }
    if forall sub :: Calls(w, c, sub) ==> Ends(w, sub) {
      EndsIfCallsDo(w, c);
    }
  }

  // Each execution of the set runs a sub-flow whose execution is in the set.
  ghost predicate Recurs(w: World, cs: iset<Config>) {
    forall c :: c in cs ==> CallsInto(w, c, cs)
  }

  ghost predicate CallsInto(w: World, c: Config, cs: iset<Config>) {
    exists sub :: sub in cs && Calls(w, c, sub)
  }

  lemma {:induction false} RecurringNeverEnds(w: World, cs: iset<Config>, c: Config, d: nat)
    requires Recurs(w, cs) && c in cs
    ensures Exec(w, c.g, c.vars, c.t, d).None?
    decreases d
  {
    hide CallsInto, Calls, Walk;
    assert CallsInto(w, c, cs);
    hide Recurs;
    var sub := CalledInto(w, c, cs);
    if Exec(w, c.g, c.vars, c.t, d).Some? {
      CalledEnds(w, c, sub, d);
      hide Exec;
      RecurringNeverEnds(w, cs, sub, d - 1);
    }
  }

  lemma CalledInto(w: World, c: Config, cs: iset<Config>) returns (sub: Config)
    requires CallsInto(w, c, cs)
    ensures sub in cs && Calls(w, c, sub)
  {
    sub :| sub in cs && Calls(w, c, sub);
    hide Calls;
  }

  lemma CalledEnds(w: World, c: Config, sub: Config, d: nat)
    requires Exec(w, c.g, c.vars, c.t, d).Some? && Calls(w, c, sub)
    ensures d > 0 && Exec(w, sub.g, sub.vars, sub.t, d - 1).Some?
  {
    var start := StartNode(c.g, |c.g|).value;
    hide Walk, NodeMap, StartNode, Invokes;
    InvokedEnds(w, NodeMap(c.g, |c.g|), start, c.vars, c.t, MAX_STEPS, d, sub);
  }

  ghost predicate HeadsNesting(w: World, c: Config) {
    exists cs: iset<Config> :: c in cs && Recurs(w, cs)
  }

  lemma UnendedRecur(w: World)
    ensures Recurs(w, iset x: Config | !Ends(w, x))
  {
    var cs := iset x: Config | !Ends(w, x);
    forall x | x in cs
      ensures CallsInto(w, x, cs)
    {
      EndsIff(w, x);
      hide Ends, Calls;
      var sub :| Calls(w, x, sub) && !Ends(w, sub);
      assert sub in cs;
    }
  }

  /** So an execution never ends exactly when it heads an endless nesting: it belongs to executions each of
      which runs a sub-flow whose execution is among them. */
  lemma NeverEndsIff(w: World, c: Config)
    ensures !Ends(w, c) <==> HeadsNesting(w, c)
  {
    if HeadsNesting(w, c) {
      var cs: iset<Config> :| c in cs && Recurs(w, cs);
      forall d: nat
        ensures Exec(w, c.g, c.vars, c.t, d).None?
      {
        RecurringNeverEnds(w, cs, c, d);
      }
      hide Exec, Recurs;
    } else {
      UnendedRecur(w);
      assert c !in iset x: Config | !Ends(w, x);
      hide Ends, Recurs;
    }
  }

  // ---------------------------------------------------------------------------
  // References and runs
  // ---------------------------------------------------------------------------

  /** A reference graph that nests at most d deep lets every execution end, within that nesting. */
  lemma {:induction false} DepthLetsRunsEnd(w: World, g: Graph, vars: Vars, t: nat, d: nat)
    requires DepthAtMost(w.loader, g, d)
    ensures Exec(w, g, vars, t, d).Some?
    decreases d, 3, 0
  {
    GraphDepthIsMapDepth(w.loader, g, d);
    var start := StartNode(g, |g|);
    if start.Some? {
      DepthLetsWalksEnd(w, NodeMap(g, |g|), start.value, vars, t, MAX_STEPS, d);
    }
  }

  lemma {:induction false} DepthLetsWalksEnd(w: World, byId: map<string, FlowNode>, current: FlowNode, vars: Vars, t: nat,
                                             left: nat, d: nat)
    requires MapDepth(w.loader, byId, d) && NodeDepth(w.loader, current, d)
    ensures Walk(w, byId, current, vars, t, left, d).Some?
    decreases d, 2, left
  {
    if left > 0 {
      if current.typ in w.handlers && SubGraph(w.loader, current).Some? {
        var c := Nested(w, current, vars, t);
        DepthLetsRunsEnd(w, c.g, c.vars, c.t, d - 1);
        SubFlowTurn(w, byId, current, vars, t, d);
      }
      TurnStaysIn(w, byId, current, vars, t, d);
      var turn := TakeTurn(w, byId, current, vars, t, d);
      hide TakeTurn, Nested;
      if turn.Go? {
        assert NodeDepth(w.loader, turn.next, d);
        DepthLetsWalksEnd(w, byId, turn.next, turn.vars, turn.t, left - 1, d);
      }
    }
  }

  // A turn without a sub-flow ends, and a turn that goes on stays among the nodes.
  lemma TurnStaysIn(w: World, byId: map<string, FlowNode>, current: FlowNode, vars: Vars, t: nat, d: nat)
    ensures match TakeTurn(w, byId, current, vars, t, d)
      case Stop(_) => true
      case Unended => current.typ in w.handlers && SubGraph(w.loader, current).Some?
      case Go(_, next, _, _, _) => exists id :: id in byId && next == byId[id]
  {
    HandledTurn(w, byId, current, vars, t, d);
    if current.typ.SubFlow? {
      SubFlowRuns(w, current, vars, t, d);
    }
    hide Handle, RunSubFlow, Nested, Exec;
  }

  // A flow whose only step is to run the flow with this id.
  function Caller(id: Int64): Graph {
    var none := NodeConfig("", map[], []);
    [FlowNode("s", Start, none, map["default" := "f"]),
     FlowNode("f", NodeType.SubFlow, NodeConfig(FormatInt(id), map[], []), map["default" := "e"]),
     FlowNode("e", End, none, map[])]
  }

  lemma CallerNodes(id: Int64)
    ensures var g, byId := Caller(id), NodeMap(Caller(id), 3);
      && |g| == 3 && StartNode(g, 3) == Some(g[0])
      && "s" in byId && byId["s"] == g[0] && "f" in byId && byId["f"] == g[1] && "e" in byId && byId["e"] == g[2]
  {
    var g := Caller(id);
    assert NodeMap(g, 1) == map["s" := g[0]] && StartNode(g, 1) == Some(g[0]);
    assert NodeMap(g, 2) == map["s" := g[0], "f" := g[1]] && StartNode(g, 2) == Some(g[0]);
    assert NodeMap(g, 3) == map["s" := g[0], "f" := g[1], "e" := g[2]];
  }

  /** The validator accepts it, also when it is stored under that very id. */
  lemma CallerIsAccepted(id: Int64)
    ensures WellFormed(Caller(id))
  {
    var g := Caller(id);
    hide FormatInt;
    assert g[0].typ == Start && g[2].typ == End;
    assert AllTypesKnown(g) && HasType(g, End) && OneStart(g) && DistinctIds(g);
    assert IsId(g, "f") by {
      assert g[1].id == "f";
    }
    assert IsId(g, "e") by {
      assert g[2].id == "e";
    }
    assert ExitsClosed(g);
    assert Path(g, ["s"]);
    assert Reachable(g, "s");
    assert "default" in g[0].exits && "default" in g[1].exits;
    assert Edge(g, "s", "f") && Edge(g, "f", "e");
    ExtendPath(g, "s", "f");
    ExtendPath(g, "f", "e");
    hide Reachable;
  }

  lemma CallerCallsItself(w: World, id: Int64, c: Config)
    requires w.loader.Some? && id in w.loader.value && w.loader.value[id] == Caller(id) && c.g == Caller(id)
    requires Start in w.handlers && NodeType.SubFlow in w.handlers && w.handle(c.t, c.g[0], c.vars).Exit?
    ensures exists sub: Config :: sub.g == Caller(id) && Calls(w, c, sub)
  {
    CallerNodes(id);
    ParseUndoesFormat(id);
    var byId, g := NodeMap(c.g, 3), c.g;
    assert g[1].config.flowId == FormatInt(id) && SubGraph(w.loader, g[1]) == Some(Caller(id));
    assert Target(g[0], w.handle(c.t, g[0], c.vars).name) == Some("f");
    var turn := TakeTurn(w, byId, g[0], c.vars, c.t, 0);
    assert turn.Go? && turn.next == g[1];
    var sub := Nested(w, g[1], turn.vars, turn.t);
    hide NodeMap, Nested, TakeTurn, StartNode, FormatInt, SubGraph, Exec;
    assert Invokes(w, byId, g[1], turn.vars, turn.t, MAX_STEPS - 1, sub);
    assert Invokes(w, byId, g[0], c.vars, c.t, MAX_STEPS, sub);
    assert Calls(w, c, sub);
  }

  /** There is no depth guard: an accepted flow that runs itself never ends, with any variables and at any
      time, unless its start fails. */
  lemma SelfCallNeverEnds(w: World, id: Int64, vars: Vars, t: nat)
    requires w.loader.Some? && id in w.loader.value && w.loader.value[id] == Caller(id)
    requires Start in w.handlers && NodeType.SubFlow in w.handlers
    requires forall t, vars :: w.handle(t, Caller(id)[0], vars).Exit?
    ensures WellFormed(Caller(id)) && !Ends(w, Config(Caller(id), vars, t))
  {
    CallerIsAccepted(id);
    var cs := iset c: Config | c.g == Caller(id);
    forall c | c in cs
      ensures CallsInto(w, c, cs)
    {
      CallerCallsItself(w, id, c);
      hide Caller, Calls;
    }
    assert Recurs(w, cs);
    hide Recurs, Caller, Ends;
    assert Config(Caller(id), vars, t) in cs;
    NeverEndsIff(w, Config(Caller(id), vars, t));
  }
}
