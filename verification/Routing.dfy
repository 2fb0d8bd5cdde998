/** The IVR flow graph and its structural validator (internal/domain/routing). */
module Routing {

  import opened Options

  // The node type strings the program knows; any other string is Unknown.
  datatype NodeType =
    | Start | Play | CollectDTMF | Branch | TransferToAgent | TransferToExternal | BlindTransfer
    | SetVariable | Voicemail | HangupReason | Function | HTTPRequest | JSONParser | SMS
    | SatisfactionRating | ASR | SubFlow | DigitalEmployee | Callback | NLU | QueuePosition
    | SentimentGate | CustomerLookup | End
    | Unknown(name: string)

  const VALID_NODE_TYPES: set<NodeType> := {
    Start, Play, CollectDTMF, Branch, TransferToAgent, TransferToExternal, BlindTransfer,
    SetVariable, Voicemail, HangupReason, Function, HTTPRequest, JSONParser, SMS,
    SatisfactionRating, ASR, SubFlow, DigitalEmployee, Callback, NLU, QueuePosition,
    SentimentGate, CustomerLookup, End}

  // The decoded configuration of a sub-flow node; other node types do not read it here.
  datatype NodeConfig = NodeConfig(flowId: string, inputs: map<string, string>, outputs: seq<string>)

  datatype FlowNode = FlowNode(id: string, typ: NodeType, config: NodeConfig, exits: map<string, string>)

  type Graph = seq<FlowNode>

  datatype GraphError = InvalidGraph | InvalidNodeType | NoStartNode | NoEndNode | DisconnectedNode

  datatype Validated = Accepted(graph: Graph) | Rejected(error: GraphError)

  // ---------------------------------------------------------------------------
  // What a flow author is promised about an accepted graph
  // ---------------------------------------------------------------------------

  ghost predicate AllTypesKnown(g: Graph) {
    forall i :: 0 <= i < |g| ==> !g[i].typ.Unknown?
  }

  ghost predicate HasType(g: Graph, t: NodeType) {
    exists i :: 0 <= i < |g| && g[i].typ == t
  }

  ghost predicate OneStart(g: Graph) {
    && HasType(g, Start)
    && forall i, j :: 0 <= i < |g| && 0 <= j < |g| && g[i].typ == Start && g[j].typ == Start ==> i == j
  }

  ghost predicate DistinctIds(g: Graph) {
    forall i, j :: 0 <= i < j < |g| ==> g[i].id != g[j].id
  }

  ghost predicate IsId(g: Graph, id: string) {
    exists i :: 0 <= i < |g| && g[i].id == id
  }

  ghost predicate ExitsClosed(g: Graph) {
    forall i, e :: 0 <= i < |g| && e in g[i].exits ==> IsId(g, g[i].exits[e])
  }

  ghost predicate Edge(g: Graph, a: string, b: string) {
    exists i, e :: 0 <= i < |g| && g[i].id == a && e in g[i].exits && g[i].exits[e] == b
  }

  // p is a walk along exits from the start node's id.
  ghost predicate Path(g: Graph, p: seq<string>) {
    && |p| > 0
    && (exists i :: 0 <= i < |g| && g[i].typ == Start && g[i].id == p[0])
    && forall k :: 1 <= k < |p| ==> Edge(g, p[k - 1], p[k])
  }

  ghost predicate Reachable(g: Graph, id: string) {
    exists p :: Path(g, p) && p[|p| - 1] == id
  }

  ghost predicate AllReachable(g: Graph) {
    forall i :: 0 <= i < |g| ==> Reachable(g, g[i].id)
  }

  ghost predicate WellFormed(g: Graph) {
    && AllTypesKnown(g)
    && OneStart(g)
    && HasType(g, End)
    && DistinctIds(g)
    && ExitsClosed(g)
    && AllReachable(g)
  }

  // ---------------------------------------------------------------------------
  // Counting
  // ---------------------------------------------------------------------------

  // Positions below n whose node has type t.
  ghost function Typed(g: Graph, t: NodeType, n: int): set<int>
    requires n <= |g|
  {
    set i | 0 <= i < n && g[i].typ == t
  }

  lemma TypedStep(g: Graph, t: NodeType, n: nat)
    requires n < |g|
    ensures |Typed(g, t, n + 1)| == |Typed(g, t, n)| + if g[n].typ == t then 1 else 0
  {
    assert Typed(g, t, n + 1) == if g[n].typ == t then Typed(g, t, n) + {n} else Typed(g, t, n);
  }

  lemma CountDecidesTypes(g: Graph)
    ensures OneStart(g) <==> |Typed(g, Start, |g|)| == 1
    ensures HasType(g, End) <==> |Typed(g, End, |g|)| >= 1
  {
    var starts, ends := Typed(g, Start, |g|), Typed(g, End, |g|);
    if OneStart(g) {
      var i :| 0 <= i < |g| && g[i].typ == Start;
      assert starts == {i};
    }
    if |starts| == 1 {
      var i :| i in starts;
      SubsetOfSameSize({i}, starts);
      assert forall k :: 0 <= k < |g| && g[k].typ == Start ==> k in starts;
    }
    if HasType(g, End) {
      var i :| 0 <= i < |g| && g[i].typ == End;
      assert i in ends;
    }
    if |ends| >= 1 {
      var i :| i in ends;
    }
  }

  lemma SubsetOfSameSize<T>(a: set<T>, b: set<T>)
    requires a <= b
    ensures |a| <= |b|
    ensures |a| >= |b| ==> a == b
  {
    assert a + (b - a) == b;
  }

  ghost function IdsUpTo(g: Graph, n: int): set<string>
    requires n <= |g|
  {
    set i | 0 <= i < n :: g[i].id
  }

  ghost predicate DistinctUpTo(g: Graph, n: int)
    requires n <= |g|
  {
    forall i, j :: 0 <= i < j < n ==> g[i].id != g[j].id
  }

  lemma IdsStep(g: Graph, n: nat)
    requires n < |g|
    ensures IdsUpTo(g, n + 1) == IdsUpTo(g, n) + {g[n].id}
    ensures DistinctUpTo(g, n + 1) <==> DistinctUpTo(g, n) && g[n].id !in IdsUpTo(g, n)
  {
    if g[n].id in IdsUpTo(g, n) {
      var i :| 0 <= i < n && g[i].id == g[n].id;
    } else {
      assert forall i :: 0 <= i < n ==> g[i].id in IdsUpTo(g, n);
    }
  }

  // Comparing the number of distinct ids with the number of nodes detects a repeated id.
  lemma {:induction false} DistinctIdsByCounting(g: Graph, n: nat)
    requires n <= |g|
    ensures |IdsUpTo(g, n)| <= n
    ensures |IdsUpTo(g, n)| == n <==> DistinctUpTo(g, n)
  {
    if n == 0 {
      assert IdsUpTo(g, 0) == {};
    } else {
      DistinctIdsByCounting(g, n - 1);
      IdsStep(g, n - 1);
      hide *;
      OneMoreElement(IdsUpTo(g, n - 1), g[n - 1].id);
    }
  }

  lemma OneMoreElement<T>(s: set<T>, x: T)
    ensures |s + {x}| == if x in s then |s| else |s| + 1
  {
    if x in s {
      assert s + {x} == s;
    }
  }

  // ---------------------------------------------------------------------------
  // Reachability
  // ---------------------------------------------------------------------------

  lemma ExtendPath(g: Graph, a: string, b: string)
    requires Reachable(g, a) && Edge(g, a, b)
    ensures Reachable(g, b)
  {
    var p :| Path(g, p) && p[|p| - 1] == a;
    var q := p + [b];
    forall k | 1 <= k < |q|
      ensures Edge(g, q[k - 1], q[k])
    {
      if k < |p| {
        assert Edge(g, p[k - 1], p[k]);
      }
    }
    assert Path(g, q) && q[|q| - 1] == b;
  }

  // A set that holds the start id and is closed under exits holds the end of every path.
  lemma {:induction false} ClosedSetHoldsPath(g: Graph, s: set<string>, p: seq<string>)
    requires Path(g, p)
    requires forall i :: 0 <= i < |g| && g[i].typ == Start ==> g[i].id in s
    requires forall a, b :: a in s && Edge(g, a, b) ==> b in s
    ensures p[|p| - 1] in s
  {
    if |p| > 1 {
      var q := p[..|p| - 1];
      forall k | 1 <= k < |q|
        ensures Edge(g, q[k - 1], q[k])
      {
        assert Edge(g, p[k - 1], p[k]);
      }
      ClosedSetHoldsPath(g, s, q);
      assert Edge(g, p[|p| - 2], p[|p| - 1]);
    }
  }

  // i is the first node carrying the id: the one whose exits the search follows.
  ghost predicate FirstWith(g: Graph, id: string, i: int) {
    0 <= i < |g| && g[i].id == id && forall j :: 0 <= j < i ==> g[j].id != id
  }

  // Every exit the search follows from an id in s leads into t.
  ghost predicate Leads(g: Graph, s: set<string>, t: set<string>) {
    forall id, i, e :: id in s && FirstWith(g, id, i) && e in g[i].exits ==> g[i].exits[e] in t
  }

  ghost predicate SearchResult(g: Graph, start: string, reachable: set<string>) {
    && start in reachable
    && (forall id :: id in reachable ==> IsId(g, id) && Reachable(g, id))
    && Leads(g, reachable, reachable)
  }

  lemma SearchIsComplete(g: Graph, start: int, reachable: set<string>)
    requires OneStart(g) && DistinctIds(g) && AllReachable(g)
    requires 0 <= start < |g| && g[start].typ == Start && SearchResult(g, g[start].id, reachable)
    ensures IdsUpTo(g, |g|) <= reachable
  {
    forall a, b | a in reachable && Edge(g, a, b)
      ensures b in reachable
    {
      var i, e :| 0 <= i < |g| && g[i].id == a && e in g[i].exits && g[i].exits[e] == b;
      assert FirstWith(g, a, i);
    }
    forall i | 0 <= i < |g|
      ensures g[i].id in reachable
    {
      var p :| Path(g, p) && p[|p| - 1] == g[i].id;
      ClosedSetHoldsPath(g, reachable, p);
    }
  }

  // The search visited as many ids as there are nodes iff ids are distinct and all nodes are reachable.
  lemma CardinalityTestDecides(g: Graph, start: int, reachable: set<string>)
    requires OneStart(g)
    requires 0 <= start < |g| && g[start].typ == Start && SearchResult(g, g[start].id, reachable)
    ensures |reachable| == |g| <==> DistinctIds(g) && AllReachable(g)
  {
    var ids := IdsUpTo(g, |g|);
    DistinctIdsByCounting(g, |g|);
    assert reachable <= ids;
    SubsetOfSameSize(reachable, ids);
    if |reachable| == |g| {
      assert forall i :: 0 <= i < |g| ==> g[i].id in ids;
      assert DistinctIds(g);
    }
    if DistinctIds(g) && AllReachable(g) {
      SearchIsComplete(g, start, reachable);
      assert reachable == ids;
    }
  }

  // ---------------------------------------------------------------------------
  // The validator
  // ---------------------------------------------------------------------------

  // The first complaint about a decoded graph, in the order the validator checks; None when it has none.
  ghost function Complaint(decoded: Option<Graph>): Option<GraphError> {
    if decoded.None? || |decoded.value| == 0 then
      Some(InvalidGraph)
    else
      var g := decoded.value;
      if !AllTypesKnown(g) then Some(InvalidNodeType)
      else if !OneStart(g) then Some(NoStartNode)
      else if !HasType(g, End) then Some(NoEndNode)
      else if !(ExitsClosed(g) && DistinctIds(g) && AllReachable(g)) then Some(DisconnectedNode)
      else None
  }

  /** ValidateGraph, with the JSON decoder's result as its input. It accepts exactly the well-formed
      graphs, unchanged, and names the first violated requirement otherwise. */
  method ValidateGraph(decoded: Option<Graph>) returns (r: Validated)
    ensures r.Accepted? <==> decoded.Some? && WellFormed(decoded.value)
    ensures r.Accepted? ==> r.graph == decoded.value
    ensures r.Rejected? ==> Complaint(decoded) == Some(r.error)
  {
    if decoded.None? || |decoded.value| == 0 {
      return Rejected(InvalidGraph);
    }
    var g := decoded.value;
    var known, startCount, endCount, nodeIds := Tally(g);
    if !known {
      return Rejected(InvalidNodeType);
    }
    CountDecidesTypes(g);
    if startCount != 1 {
      return Rejected(NoStartNode);
    }
    if endCount < 1 {
      return Rejected(NoEndNode);
    }
    var closed := CheckExits(g, nodeIds);
    if !closed {
      return Rejected(DisconnectedNode);
    }
    var start := 0;
    while g[start].typ != Start
      invariant 0 <= start < |g|
      invariant forall k :: 0 <= k < start ==> g[k].typ != Start
      decreases |g| - start
    {
      start := start + 1;
    }
    var reachable := Search(g, start);
    CardinalityTestDecides(g, start, reachable);
    if |reachable| != |g| {
      return Rejected(DisconnectedNode);
    }
    return Accepted(g);
  }

  /** The first loop: type check, id set, start and end counts. It stops at an unknown type. */
  method Tally(g: Graph) returns (known: bool, startCount: int, endCount: int, nodeIds: set<string>)
    ensures known <==> AllTypesKnown(g)
    ensures known ==> startCount == |Typed(g, Start, |g|)| && endCount == |Typed(g, End, |g|)|
    ensures known ==> nodeIds == IdsUpTo(g, |g|)
  {
    known, startCount, endCount, nodeIds := true, 0, 0, {};
    assert Typed(g, Start, 0) == {} && Typed(g, End, 0) == {};
    for i := 0 to |g|
      invariant forall k :: 0 <= k < i ==> !g[k].typ.Unknown?
      invariant startCount == |Typed(g, Start, i)| && endCount == |Typed(g, End, i)|
      invariant nodeIds == IdsUpTo(g, i)
    {
      if g[i].typ !in VALID_NODE_TYPES {
        return false, startCount, endCount, nodeIds;
      }
      nodeIds := nodeIds + {g[i].id};
      TypedStep(g, Start, i);
      TypedStep(g, End, i);
      match g[i].typ {
        case Start => startCount := startCount + 1;
        case End => endCount := endCount + 1;
        case _ =>
      }
    }
  }

  /** The second loop: every exit target is a node id, exits taken in any order. */
  method CheckExits(g: Graph, nodeIds: set<string>) returns (closed: bool)
    requires nodeIds == IdsUpTo(g, |g|)
    ensures closed <==> ExitsClosed(g)
  {
    for i := 0 to |g|
      invariant forall k, e :: 0 <= k < i && e in g[k].exits ==> IsId(g, g[k].exits[e])
    {
      var names := g[i].exits.Keys;
      while names != {}
        invariant names <= g[i].exits.Keys
        invariant forall e :: e in g[i].exits && e !in names ==> IsId(g, g[i].exits[e])
      {
        var e :| e in names;
        if g[i].exits[e] !in nodeIds {
          assert !IsId(g, g[i].exits[e]);
          return false;
        }
        names := names - {e};
      }
    }
    return true;
  }

  /** The breadth-first search from the start node. */
  method Search(g: Graph, start: nat) returns (reachable: set<string>)
    requires start < |g| && g[start].typ == Start && ExitsClosed(g)
    ensures SearchResult(g, g[start].id, reachable)
  {
    reachable := {};
    var queue := [g[start].id];
    assert Path(g, [g[start].id]);
    ghost var ids := IdsUpTo(g, |g|);
    while |queue| > 0
      invariant g[start].id in reachable || g[start].id in queue
      invariant forall id :: id in reachable || id in queue ==> IsId(g, id) && Reachable(g, id)
      invariant Leads(g, reachable, Open(reachable, queue))
      decreases ids - reachable, |queue|
    {
      var current := queue[0];
      ghost var open := Open(reachable, queue);
      assert IsId(g, current);
      assert queue == [current] + queue[1..];
      queue := queue[1..];
      if current in reachable {
        assert open == Open(reachable, queue);
      } else {
        ghost var before := reachable;
        reachable := reachable + {current};
        queue := Expand(g, current, reachable, queue);
        assert open <= Open(reachable, queue);
        LeadsStep(g, before, current, open, Open(reachable, queue));
        assert current in ids - before;
      }
    }
    assert Open(reachable, queue) == reachable;
  }

  ghost function Open(reachable: set<string>, queue: seq<string>): set<string> {
    reachable + set id | id in queue
  }

  lemma LeadsStep(g: Graph, s: set<string>, current: string, t: set<string>, t': set<string>)
    requires Leads(g, s, t) && t <= t' && Leads(g, {current}, t')
    ensures Leads(g, s + {current}, t')
  {
    forall id, i, e | id in s + {current} && FirstWith(g, id, i) && e in g[i].exits
      ensures g[i].exits[e] in t'
    {
      if id == current {
        assert id in {current};
      } else {
        assert g[i].exits[e] in t;
      }
    }
  }

  /** The body of the search for one id: append the unvisited exit targets of the first node carrying it. */
  method Expand(g: Graph, current: string, reachable: set<string>, queue: seq<string>) returns (queue': seq<string>)
    requires IsId(g, current) && Reachable(g, current) && ExitsClosed(g)
    requires forall id :: id in queue ==> IsId(g, id) && Reachable(g, id)
    ensures queue <= queue'
    ensures forall id :: id in queue' ==> IsId(g, id) && Reachable(g, id)
    ensures Leads(g, {current}, Open(reachable, queue'))
  {
    queue' := queue;
    var i := 0;
    while g[i].id != current
      invariant 0 <= i < |g|
      invariant forall j :: 0 <= j < i ==> g[j].id != current
      decreases |g| - i
    {
      i := i + 1;
    }
    var names := g[i].exits.Keys;
    while names != {}
      invariant names <= g[i].exits.Keys
      invariant queue <= queue'
      invariant forall id :: id in queue' ==> IsId(g, id) && Reachable(g, id)
      invariant forall e :: e in g[i].exits && e !in names ==> g[i].exits[e] in reachable || g[i].exits[e] in queue'
    {
      var e :| e in names;
      var target := g[i].exits[e];
      if target !in reachable {
        assert Edge(g, current, target);
        ExtendPath(g, current, target);
        queue' := queue' + [target];
      }
      names := names - {e};
    }
  }
}
