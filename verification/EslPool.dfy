/** The ESL connection pool (internal/infrastructure/esl). Every atomic operation and every channel
    operation is one step; the steps of any number of goroutines interleave freely. */
module EslPool {
  import opened CircuitBreaker
  import opened Sums

  // maxPool is also the channel's capacity. Goroutines have numbers; those below shrinkers may call Shrink.
  datatype Limits = Limits(minPool: int, maxPool: int, shrinkers: nat)

  // idle is the channel's content; out holds the connections in the hands of Acquire's callers.
  // growing: goroutines past Grow's compare-and-swap; drawn: those that also drew their connection's id;
  // shrinking: goroutines past Shrink's compare-and-swap.
  datatype Pool = Pool(size: int, nextId: int, idle: seq<int>, out: set<int>,
                       growing: set<int>, drawn: map<int, int>, shrinking: set<int>)

  // cur is the pool size the goroutine read before its compare-and-swap.
  datatype Action =
    | GrowCas(me: int, cur: int)
    | GrowDraw(me: int)
    | GrowPush(me: int)
    | ShrinkCas(me: int, cur: int)
    | ShrinkPop(me: int)
    | Take
    | Return(id: int)

  predicate Inside(p: Pool, me: int) {
    me in p.growing || me in p.drawn || me in p.shrinking
  }

  // A disabled step is a goroutine that fails its test, or blocks on the channel: nothing changes.
  function Step(lim: Limits, p: Pool, a: Action): Pool {
    match a
    case GrowCas(me, cur) =>
      if !Inside(p, me) && cur < lim.maxPool && cur == p.size
      then p.(size := p.size + 1, growing := p.growing + {me}) else p
    case GrowDraw(me) =>
      if me in p.growing
      then p.(nextId := p.nextId + 1, growing := p.growing - {me}, drawn := p.drawn[me := p.nextId]) else p
    case GrowPush(me) =>
      if me in p.drawn && |p.idle| < lim.maxPool
      then p.(idle := p.idle + [p.drawn[me]], drawn := p.drawn - {me}) else p
    case ShrinkCas(me, cur) =>
      if !Inside(p, me) && cur > lim.minPool && cur == p.size && 0 <= me < lim.shrinkers
      then p.(size := p.size - 1, shrinking := p.shrinking + {me}) else p
    case ShrinkPop(me) =>
      if me !in p.shrinking then p
      else if |p.idle| > 0 then p.(idle := p.idle[1..], shrinking := p.shrinking - {me})
      else p.(size := p.size + 1, shrinking := p.shrinking - {me})
    case Take =>
      if |p.idle| > 0 then p.(idle := p.idle[1..], out := p.out + {p.idle[0]}) else p
    case Return(id) =>
      if id in p.out && |p.idle| < lim.maxPool then p.(idle := p.idle + [id], out := p.out - {id}) else p
  }

  function Run(lim: Limits, p: Pool, acts: seq<Action>): Pool
    decreases |acts|
  {
    if acts == [] then p else Run(lim, Step(lim, p, acts[0]), acts[1..])
  }

  function Connections(p: Pool): int {
    |p.idle| + |p.out| + |p.growing| + |p.drawn.Keys|
  }

  // ---------------------------------------------------------------------------
  // The invariant
  // ---------------------------------------------------------------------------

  ghost predicate Conserved(p: Pool) {
    Connections(p) == p.size + |p.shrinking|
  }

  // An id is carried by at most one idle, checked-out or about-to-be-pushed connection.
  ghost predicate DistinctConnections(p: Pool) {
    && (forall i, j :: 0 <= i < j < |p.idle| ==> p.idle[i] != p.idle[j])
    && (forall i :: 0 <= i < |p.idle| ==> p.idle[i] !in p.out && p.idle[i] < p.nextId)
    && (forall t :: t in p.drawn ==> p.drawn[t] !in p.idle && p.drawn[t] !in p.out && p.drawn[t] < p.nextId)
    && (forall t, u :: t in p.drawn && u in p.drawn && t != u ==> p.drawn[t] != p.drawn[u])
    && (forall id :: id in p.out ==> id < p.nextId)
  }

  ghost predicate OnePlaceEach(p: Pool) {
    p.growing !! p.drawn.Keys && p.growing !! p.shrinking && p.drawn.Keys !! p.shrinking
  }

  ghost predicate Bounded(lim: Limits, floor: int, p: Pool) {
    && floor <= p.size
    && p.shrinking <= Upto(0, lim.shrinkers)
    && p.size + |p.shrinking| <= lim.maxPool + lim.shrinkers
    && |p.idle| <= lim.maxPool
  }

  // floor: a size the pool does not fall below, at most the minimum.
  ghost predicate Inv(lim: Limits, floor: int, p: Pool) {
    Conserved(p) && DistinctConnections(p) && OnePlaceEach(p) && Bounded(lim, floor, p)
  }

  /** The channel is first in, first out: a step takes the oldest idle connection or adds one behind the others;
      a caller gets the one taken, and gives back the one it had. */
  lemma ChannelIsFifo(lim: Limits, p: Pool, a: Action)
    ensures var q := Step(lim, p, a);
      && (|q.idle| < |p.idle| ==> q.idle == p.idle[1..] && (a.Take? || a.ShrinkPop?))
      && (|q.idle| > |p.idle| ==>
            && (a.Return? || a.GrowPush?) && |p.idle| < lim.maxPool
            && q.idle == p.idle + [if a.Return? then a.id else if a.GrowPush? && a.me in p.drawn then p.drawn[a.me] else 0])
      && (|q.idle| == |p.idle| ==> q.idle == p.idle)
      && (a.Take? && p.idle != [] ==> q == p.(idle := p.idle[1..], out := p.out + {p.idle[0]}))
      && (a.Return? && a.id in p.out && |p.idle| < lim.maxPool ==> q == p.(idle := p.idle + [a.id], out := p.out - {a.id}))
      && (a.GrowPush? && a.me in p.drawn && |p.idle| < lim.maxPool ==> |q.idle| > |p.idle|)
      && (a.ShrinkPop? && a.me in p.shrinking && p.idle != [] ==> |q.idle| < |p.idle|)
  {
  }

  lemma StepKeepsPlaces(lim: Limits, p: Pool, a: Action)
    requires OnePlaceEach(p)
    ensures OnePlaceEach(Step(lim, p, a))
  {
    var q := Step(lim, p, a);
    if a.GrowPush? && q != p {
      assert q.drawn.Keys == p.drawn.Keys - {a.me};
    }
    if a.GrowDraw? && q != p {
      assert q.drawn.Keys == p.drawn.Keys + {a.me};
    }
  }

  lemma StepConserves(lim: Limits, p: Pool, a: Action)
    requires Conserved(p) && OnePlaceEach(p)
    requires |p.idle| > 0 ==> p.idle[0] !in p.out
    ensures Conserved(Step(lim, p, a))
  {
    if a.GrowDraw? {
      DrawConserves(lim, p, a.me);
    } else if a.GrowPush? {
      PushConserves(lim, p, a.me);
    }
  }

  lemma DrawConserves(lim: Limits, p: Pool, me: int)
    requires Conserved(p) && OnePlaceEach(p)
    ensures Conserved(Step(lim, p, GrowDraw(me)))
  {
    var q := Step(lim, p, GrowDraw(me));
    assert me in p.growing ==> q.drawn.Keys == p.drawn.Keys + {me};
  }

  lemma PushConserves(lim: Limits, p: Pool, me: int)
    requires Conserved(p)
    ensures Conserved(Step(lim, p, GrowPush(me)))
  {
    var q := Step(lim, p, GrowPush(me));
    assert q != p ==> q.drawn.Keys == p.drawn.Keys - {me};
  }

  lemma StepKeepsIdsDistinct(lim: Limits, p: Pool, a: Action)
    requires DistinctConnections(p)
    ensures DistinctConnections(Step(lim, p, a))
  {
    if a.Take? && |p.idle| > 0 {
      assert forall i :: 1 <= i < |p.idle| ==> p.idle[i] != p.idle[0];
    }
  }

  lemma StepKeepsBounds(lim: Limits, floor: int, p: Pool, a: Action)
    requires Conserved(p) && OnePlaceEach(p) && DistinctConnections(p) && Bounded(lim, floor, p) && floor <= lim.minPool
    ensures Bounded(lim, floor, Step(lim, p, a))
  {
    FewShrinkers(lim, p);
  }

  lemma FewShrinkers(lim: Limits, p: Pool)
    requires p.shrinking <= Upto(0, lim.shrinkers)
    ensures |p.shrinking| <= lim.shrinkers
  {
    var all := Upto(0, lim.shrinkers);
    assert p.shrinking + (all - p.shrinking) == all;
  }

  lemma {:induction false} InvLasts(lim: Limits, floor: int, p: Pool, acts: seq<Action>)
    requires Inv(lim, floor, p) && floor <= lim.minPool
    ensures Inv(lim, floor, Run(lim, p, acts))
    decreases |acts|
  {
    if acts != [] {
      StepKeepsPlaces(lim, p, acts[0]);
      StepConserves(lim, p, acts[0]);
      StepKeepsIdsDistinct(lim, p, acts[0]);
      StepKeepsBounds(lim, floor, p, acts[0]);
      InvLasts(lim, floor, Step(lim, p, acts[0]), acts[1..]);
    }
  }

  // ---------------------------------------------------------------------------
  // NewClient
  // ---------------------------------------------------------------------------

  // The configuration after NewClient's defaults.
  datatype Sizes = Sizes(poolSize: int, minPool: int, maxPool: int)

  function WithDefaults(c: Sizes): Sizes {
    var poolSize := if c.poolSize <= 0 then 5 else c.poolSize;
    var minPool := if c.minPool <= 0 then poolSize else c.minPool;
    var maxPool := if c.maxPool <= 0 then poolSize * 4 else c.maxPool;
    Sizes(poolSize, minPool, if maxPool < poolSize then poolSize else maxPool)
  }

  /** The configured sizes hold where they are positive; otherwise five connections, as few as the pool starts
      with, and four times as many at most. The maximum is never below the size. */
  lemma DefaultsApply(c: Sizes)
    ensures var d := WithDefaults(c);
      && d.poolSize == (if c.poolSize > 0 then c.poolSize else 5)
      && d.minPool == (if c.minPool > 0 then c.minPool else d.poolSize)
      && (c.maxPool <= 0 ==> d.maxPool == 4 * d.poolSize)
      && (c.maxPool > 0 ==> d.maxPool == if c.maxPool >= d.poolSize then c.maxPool else d.poolSize)
      && 0 < d.poolSize <= d.maxPool && 0 < d.minPool
  {
  }

  function NewPool(c: Sizes): Pool {
    var n := WithDefaults(c).poolSize;
    Pool(n, n, seq(n, i => i), {}, {}, map[], {})
  }

  function LimitsOf(c: Sizes, shrinkers: nat): Limits {
    Limits(WithDefaults(c).minPool, WithDefaults(c).maxPool, shrinkers)
  }

  // What the size does not fall below: the minimum, or the initial size when that is less.
  function Floor(c: Sizes): int {
    var d := WithDefaults(c);
    if d.minPool <= d.poolSize then d.minPool else d.poolSize
  }

  lemma FreshPoolIsValid(c: Sizes, shrinkers: nat)
    ensures Inv(LimitsOf(c, shrinkers), Floor(c), NewPool(c))
  {
  }

  /** Whatever the interleaving from a fresh client of any configuration: idle, checked-out and growing
      connections together equal the pool size plus the shrinks in flight, live ids are distinct, the size
      falls below neither the minimum nor, when that is less, the initial size, and at most maxPool plus the
      number of concurrent shrinkers connections exist. */
  lemma RunKeepsInv(c: Sizes, shrinkers: nat, acts: seq<Action>)
    ensures var q := Run(LimitsOf(c, shrinkers), NewPool(c), acts);
      && |q.idle| + |q.out| + |q.growing| + |q.drawn.Keys| == q.size + |q.shrinking|
      && DistinctConnections(q)
      && Floor(c) <= q.size
      && Connections(q) <= WithDefaults(c).maxPool + shrinkers
  {
    FreshPoolIsValid(c, shrinkers);
    InvLasts(LimitsOf(c, shrinkers), Floor(c), NewPool(c), acts);
    hide Run, NewPool, DistinctConnections;
  }

  /** The size stays at or above the minimum over every run exactly when a client does not start below it: the
      constructor never checks MinPool against PoolSize. */
  lemma MinimumHoldsIff(c: Sizes, shrinkers: nat)
    ensures (forall acts :: WithDefaults(c).minPool <= Run(LimitsOf(c, shrinkers), NewPool(c), acts).size)
       <==> WithDefaults(c).minPool <= WithDefaults(c).poolSize
    ensures c.minPool <= 0 ==> WithDefaults(c).minPool <= WithDefaults(c).poolSize
  {
    hide Run;
    RunNothing(LimitsOf(c, shrinkers), NewPool(c));
    assert Run(LimitsOf(c, shrinkers), NewPool(c), []).size == WithDefaults(c).poolSize;
    if WithDefaults(c).minPool <= WithDefaults(c).poolSize {
      forall acts
        ensures WithDefaults(c).minPool <= Run(LimitsOf(c, shrinkers), NewPool(c), acts).size
      {
        RunKeepsInv(c, shrinkers, acts);
      }
    }
  }

  // ---------------------------------------------------------------------------
  // The bound is sharp
  // ---------------------------------------------------------------------------

  lemma {:induction false} RunAppend(lim: Limits, p: Pool, acts: seq<Action>, a: Action)
    ensures Run(lim, p, acts + [a]) == Step(lim, Run(lim, p, acts), a)
    decreases |acts|
  {
    if acts == [] {
      assert acts + [a] == [a];
    } else {
      assert (acts + [a])[1..] == acts[1..] + [a];
      RunAppend(lim, Step(lim, p, acts[0]), acts[1..], a);
    }
  }

  // A fresh pool of n idle connections.
  function Fresh(n: nat): Pool {
    Pool(n, n, seq(n, i => i), {}, {}, map[], {})
  }

  // The pool after callers took n of m connections.
  function Taken(m: nat, n: nat): Pool
    requires n <= m
  {
    Pool(m, m, seq(m - n, i => n + i), Upto(0, n), {}, map[], {})
  }

  // ... took all m, and n of k shrinkers decremented, each followed by a grower that refilled the counter.
  function Swapped(m: nat, k: nat, n: nat): Pool {
    Pool(m, m, [], Upto(0, m), Upto(k, k + n), map[], Upto(0, n))
  }

  // ... all k did, and n shrinkers, finding nothing idle, put their decrement back.
  function Restored(m: nat, k: nat, n: nat): Pool
    requires n <= k
  {
    Pool(m + n, m, [], Upto(0, m), Upto(k, k + k), map[], Upto(n, k))
  }

  // One connection added to a fresh pool.
  lemma GrowFresh(lim: Limits, n: nat)
    requires n < lim.maxPool
    ensures Step(lim, Step(lim, Step(lim, Fresh(n), GrowCas(0, n)), GrowDraw(0)), GrowPush(0)) == Fresh(n + 1)
  {
    var p := Fresh(n);
    var p1 := Step(lim, p, GrowCas(0, n));
    assert p1 == p.(size := n + 1, growing := {0});
    var p2 := Step(lim, p1, GrowDraw(0));
    assert p2 == p.(size := n + 1, nextId := n + 1, drawn := map[0 := n]);
    assert p.idle + [n] == Fresh(n + 1).idle;
    assert map[0 := n] - {0} == map[];
  }

  lemma TakeOne(lim: Limits, m: nat, n: nat)
    requires n < m
    ensures Step(lim, Taken(m, n), Take) == Taken(m, n + 1)
  {
    assert Taken(m, n).idle[1..] == Taken(m, n + 1).idle;
  }

  // ... and one more shrinker decremented.
  function HalfSwapped(m: nat, k: nat, n: nat): Pool {
    Swapped(m, k, n).(size := m - 1, shrinking := Upto(0, n + 1))
  }

  lemma SwapOut(lim: Limits, m: nat, k: nat, n: nat)
    requires n < k <= lim.shrinkers && lim.minPool < m
    ensures Step(lim, Swapped(m, k, n), ShrinkCas(n, m)) == HalfSwapped(m, k, n)
  {
  }

  lemma SwapIn(lim: Limits, m: nat, k: nat, n: nat)
    requires n < k && m <= lim.maxPool
    ensures Step(lim, HalfSwapped(m, k, n), GrowCas(k + n, m - 1)) == Swapped(m, k, n + 1)
  {
  }

  lemma RestoreOne(lim: Limits, m: nat, k: nat, n: nat)
    requires n < k
    ensures Step(lim, Restored(m, k, n), ShrinkPop(n)) == Restored(m, k, n + 1)
  {
    assert Upto(n, k) - {n} == Upto(n + 1, k);
  }

  // Each phase starts where the one before it ends.
  lemma PhasesJoin(m: nat, k: nat)
    ensures Taken(m, 0) == Fresh(m) && Swapped(m, k, 0) == Taken(m, m) && Restored(m, k, 0) == Swapped(m, k, k)
  {
    assert Taken(m, 0).idle == Fresh(m).idle;
  }

  lemma RunNothing(lim: Limits, p: Pool)
    ensures Run(lim, p, []) == p
  {
  }

  lemma {:induction false} GrowAll(lim: Limits, from: nat, m: nat) returns (acts: seq<Action>)
    requires from <= m <= lim.maxPool
    ensures Run(lim, Fresh(from), acts) == Fresh(m)
  {
    hide *;
    RunNothing(lim, Fresh(from));
    acts := [];
    if from < m {
      acts := GrowAll(lim, from, m - 1);
      RunAppend(lim, Fresh(from), acts, GrowCas(0, m - 1));
      RunAppend(lim, Fresh(from), acts + [GrowCas(0, m - 1)], GrowDraw(0));
      RunAppend(lim, Fresh(from), acts + [GrowCas(0, m - 1)] + [GrowDraw(0)], GrowPush(0));
      GrowFresh(lim, m - 1);
      acts := acts + [GrowCas(0, m - 1)] + [GrowDraw(0)] + [GrowPush(0)];
    }
  }

  lemma {:induction false} TakeAll(lim: Limits, from: nat, m: nat, n: nat) returns (acts: seq<Action>)
    requires from <= m <= lim.maxPool && n <= m
    ensures Run(lim, Fresh(from), acts) == Taken(m, n)
  {
    hide *;
    if n == 0 {
      acts := GrowAll(lim, from, m);
      PhasesJoin(m, 0);
    } else {
      acts := TakeAll(lim, from, m, n - 1);
      RunAppend(lim, Fresh(from), acts, Take);
      TakeOne(lim, m, n - 1);
      acts := acts + [Take];
    }
  }

  lemma {:induction false} SwapAll(lim: Limits, from: nat, m: nat, k: nat, n: nat) returns (acts: seq<Action>)
    requires from <= m && n <= k <= lim.shrinkers && lim.minPool < m <= lim.maxPool
    ensures Run(lim, Fresh(from), acts) == Swapped(m, k, n)
  {
    hide *;
    PhasesJoin(m, k);
    if n == 0 {
      acts := TakeAll(lim, from, m, m);
    } else {
      acts := SwapAll(lim, from, m, k, n - 1);
      SwapOut(lim, m, k, n - 1);
      SwapIn(lim, m, k, n - 1);
      RunAppend(lim, Fresh(from), acts, ShrinkCas(n - 1, m));
      RunAppend(lim, Fresh(from), acts + [ShrinkCas(n - 1, m)], GrowCas(k + (n - 1), m - 1));
      acts := acts + [ShrinkCas(n - 1, m)] + [GrowCas(k + (n - 1), m - 1)];
    }
  }

  lemma {:induction false} RestoreAll(lim: Limits, from: nat, m: nat, k: nat, n: nat) returns (acts: seq<Action>)
    requires from <= m && n <= k <= lim.shrinkers && lim.minPool < m <= lim.maxPool
    ensures Run(lim, Fresh(from), acts) == Restored(m, k, n)
  {
    hide *;
    PhasesJoin(m, k);
    if n == 0 {
      acts := SwapAll(lim, from, m, k, k);
    } else {
      acts := RestoreAll(lim, from, m, k, n - 1);
      RunAppend(lim, Fresh(from), acts, ShrinkPop(n - 1));
      RestoreOne(lim, m, k, n - 1);
      acts := acts + [ShrinkPop(n - 1)];
    }
  }

  lemma RestoredConnections(m: nat, k: nat)
    ensures Connections(Restored(m, k, k)) == m + k
  {
  }

  /** As soon as the maximum is above the minimum, any k concurrent shrinkers can leave k connections too
      many: callers hold every connection, each shrinker's decrement is refilled by a grower, and then the
      shrinkers find nothing idle and put their decrements back. */
  lemma OvershootIsReachable(c: Sizes, k: nat)
    requires WithDefaults(c).minPool < WithDefaults(c).maxPool
    ensures exists acts ::
      Connections(Run(LimitsOf(c, k), NewPool(c), acts)) == WithDefaults(c).maxPool + k
  {
    var d := WithDefaults(c);
    var acts := RestoreAll(LimitsOf(c, k), d.poolSize, d.maxPool, k, k);
    assert NewPool(c) == Fresh(d.poolSize);
    RestoredConnections(d.maxPool, k);
  }

  // The invariant of a pool that never shrinks.
  ghost predicate Unshrunk(lim: Limits, p: Pool) {
    && Conserved(p) && DistinctConnections(p) && OnePlaceEach(p)
    && p.shrinking == {} && p.size <= lim.maxPool
  }

  lemma NothingShrinks(lim: Limits, p: Pool, a: Action)
    requires p.shrinking == {} && p.size <= lim.maxPool && (lim.shrinkers == 0 || lim.minPool >= lim.maxPool)
    ensures Step(lim, p, a).shrinking == {} && Step(lim, p, a).size <= lim.maxPool
  {
  }

  lemma UnshrunkStep(lim: Limits, p: Pool, a: Action)
    requires Unshrunk(lim, p) && (lim.shrinkers == 0 || lim.minPool >= lim.maxPool)
    ensures Unshrunk(lim, Step(lim, p, a))
  {
    assert |p.idle| > 0 ==> p.idle[0] !in p.out;
    hide Step, Conserved, DistinctConnections, OnePlaceEach;
    NothingShrinks(lim, p, a);
    StepKeepsPlaces(lim, p, a);
    StepConserves(lim, p, a);
    StepKeepsIdsDistinct(lim, p, a);
  }

  lemma {:induction false} UnshrunkRun(lim: Limits, p: Pool, acts: seq<Action>)
    requires Unshrunk(lim, p) && (lim.shrinkers == 0 || lim.minPool >= lim.maxPool)
    ensures Unshrunk(lim, Run(lim, p, acts))
    decreases |acts|
  {
    if acts != [] {
      hide Step, Unshrunk;
      UnshrunkStep(lim, p, acts[0]);
      UnshrunkRun(lim, Step(lim, p, acts[0]), acts[1..]);
    }
  }

  /** The exact condition for maxPool to bound the connections over every run of a fresh client: nobody
      shrinks, or the effective minimum is not below the maximum. */
  lemma MaxPoolBoundsIff(c: Sizes, k: nat)
    ensures (forall acts :: Connections(Run(LimitsOf(c, k), NewPool(c), acts)) <= WithDefaults(c).maxPool)
       <==> k == 0 || WithDefaults(c).minPool >= WithDefaults(c).maxPool
  {
    if k == 0 || WithDefaults(c).minPool >= WithDefaults(c).maxPool {
      forall acts
        ensures Connections(Run(LimitsOf(c, k), NewPool(c), acts)) <= WithDefaults(c).maxPool
      {
        assert Unshrunk(LimitsOf(c, k), NewPool(c));
        UnshrunkRun(LimitsOf(c, k), NewPool(c), acts);
        hide Run, NewPool;
      }
    } else {
      OvershootIsReachable(c, k);
    }
  }

  // ---------------------------------------------------------------------------
  // The client
  // ---------------------------------------------------------------------------

  lemma {:induction false} RunConcat(lim: Limits, p: Pool, a: seq<Action>, b: seq<Action>)
    ensures Run(lim, p, a + b) == Run(lim, Run(lim, p, a), b)
    decreases |a|
  {
    if a == [] {
      assert a + b == b;
    } else {
      assert (a + b)[1..] == a[1..] + b;
      RunConcat(lim, Step(lim, p, a[0]), a[1..], b);
    }
  }

  predicate By(a: Action, me: int) {
    !a.Take? && !a.Return? && a.me == me
  }

  ghost predicate ByOthers(batch: seq<Action>, me: int) {
    forall i :: 0 <= i < |batch| ==> !By(batch[i], me)
  }

  ghost predicate SchedulesOthers(others: seq<seq<Action>>, me: int) {
    forall j :: 0 <= j < |others| ==> ByOthers(others[j], me)
  }

  datatype Job = Growing | Shrinking

  // A step of Grow or of Shrink as goroutine me runs it.
  predicate Own(a: Action, job: Job, me: int) {
    match job
    case Growing => (a.GrowCas? || a.GrowDraw? || a.GrowPush?) && a.me == me
    case Shrinking => (a.ShrinkCas? || a.ShrinkPop?) && a.me == me
  }

  ghost predicate Scheduled(a: Action, others: seq<seq<Action>>) {
    exists j :: 0 <= j < |others| && a in others[j]
  }

  // The step pushes me's new connection, or pops an idle one for me.
  predicate Counts(lim: Limits, p: Pool, a: Action, job: Job, me: int) {
    match job
    case Growing => a == GrowPush(me) && me in p.drawn && |p.idle| < lim.maxPool
    case Shrinking => a == ShrinkPop(me) && me in p.shrinking && |p.idle| > 0
  }

  // How many connections the run pushes or pops for me.
  function Tally(lim: Limits, p: Pool, acts: seq<Action>, job: Job, me: int): nat
    decreases |acts|
  {
    if acts == [] then 0
    else (if Counts(lim, p, acts[0], job, me) then 1 else 0) + Tally(lim, Step(lim, p, acts[0]), acts[1..], job, me)
  }

  lemma {:induction false} TallyConcat(lim: Limits, p: Pool, a: seq<Action>, b: seq<Action>, job: Job, me: int)
    ensures Tally(lim, p, a + b, job, me) == Tally(lim, p, a, job, me) + Tally(lim, Run(lim, p, a), b, job, me)
    decreases |a|
  {
    hide Step;
    if a == [] {
      assert a + b == b;
    } else {
      assert (a + b)[1..] == a[1..] + b;
      TallyConcat(lim, Step(lim, p, a[0]), a[1..], b, job, me);
    }
  }

  lemma {:induction false} OthersDoNotCount(lim: Limits, p: Pool, batch: seq<Action>, job: Job, me: int)
    requires ByOthers(batch, me)
    ensures Tally(lim, p, batch, job, me) == 0
    decreases |batch|
  {
    hide Step;
    if batch != [] {
      assert !By(batch[0], me);
      OthersDoNotCount(lim, Step(lim, p, batch[0]), batch[1..], job, me);
    }
  }

  lemma TallyOne(lim: Limits, p: Pool, a: Action, job: Job, me: int)
    ensures Tally(lim, p, [a], job, me) == if Counts(lim, p, a, job, me) then 1 else 0
  {
    hide Step;
    assert [a][1..] == [];
  }

  // Every step is one of the job's own or comes from the schedule.
  ghost predicate Traced(log: seq<Action>, job: Job, me: int, others: seq<seq<Action>>) {
    forall a :: a in log ==> Own(a, job, me) || Scheduled(a, others)
  }

  ghost predicate SamePlace(p: Pool, q: Pool, me: int) {
    && (me in p.growing <==> me in q.growing)
    && (me in p.shrinking <==> me in q.shrinking)
    && (me in p.drawn <==> me in q.drawn)
    && (me in p.drawn ==> p.drawn[me] == q.drawn[me])
  }

  lemma {:induction false} OthersLeaveMeAlone(lim: Limits, p: Pool, batch: seq<Action>, me: int)
    requires ByOthers(batch, me)
    ensures SamePlace(p, Run(lim, p, batch), me)
    decreases |batch|
  {
    if batch != [] {
      assert !By(batch[0], me);
      assert SamePlace(p, Step(lim, p, batch[0]), me);
      OthersLeaveMeAlone(lim, Step(lim, p, batch[0]), batch[1..], me);
    }
  }

  /** The client, with the goroutines' places and the connections in callers' hands as further fields. */
  class Client {
    const lim: Limits
    var poolSize: int
    var nextID: int
    var pool: seq<int>
    var out: set<int>
    var growing: set<int>
    var drawn: map<int, int>
    var shrinking: set<int>

    ghost function View(): Pool
      reads this
    {
      Pool(poolSize, nextID, pool, out, growing, drawn, shrinking)
    }

    constructor NewClient(c: Sizes, shrinkers: nat)
      ensures lim == LimitsOf(c, shrinkers) && View() == NewPool(c)
    {
      var size := if c.poolSize <= 0 then 5 else c.poolSize;
      var minPool := if c.minPool <= 0 then size else c.minPool;
      var maxPool := if c.maxPool <= 0 then size * 4 else c.maxPool;
      if maxPool < size {
        maxPool := size;
      }
      lim := Limits(minPool, maxPool, shrinkers);
      poolSize, nextID := size, size;
      out, growing, drawn, shrinking := {}, {}, map[], {};
      var conns: seq<int> := [];
      for i := 0 to size
        invariant conns == seq(i, k => k)
      {
        conns := conns + [i];
      }
      pool := conns;
    }

    /** One atomic operation of any goroutine. */
    method Atomic(a: Action)
      modifies this
      ensures View() == Step(lim, old(View()), a)
    {
      match a {
        case GrowCas(me, cur) =>
          if me !in growing && me !in drawn && me !in shrinking && cur < lim.maxPool && cur == poolSize {
            poolSize, growing := poolSize + 1, growing + {me};
          }
        case GrowDraw(me) =>
          if me in growing {
            growing, drawn, nextID := growing - {me}, drawn[me := nextID], nextID + 1;
          }
        case GrowPush(me) =>
          if me in drawn && |pool| < lim.maxPool {
            pool, drawn := pool + [drawn[me]], drawn - {me};
          }
        case ShrinkCas(me, cur) =>
          if me !in growing && me !in drawn && me !in shrinking && cur > lim.minPool && cur == poolSize
             && 0 <= me < lim.shrinkers {
            poolSize, shrinking := poolSize - 1, shrinking + {me};
          }
        case ShrinkPop(me) =>
          if me in shrinking {
            shrinking := shrinking - {me};
            if |pool| > 0 {
              pool := pool[1..];
            } else {
              poolSize := poolSize + 1;
            }
          }
        case Take =>
          if |pool| > 0 {
            pool, out := pool[1..], out + {pool[0]};
          }
        case Return(id) =>
          if id in out && |pool| < lim.maxPool {
            pool, out := pool + [id], out - {id};
          }
      }
    }

    /** The other goroutines' steps in the j-th gap between this goroutine's own. */
    method Yield(others: seq<seq<Action>>, j: nat, ghost me: int) returns (j': nat, ghost log: seq<Action>)
      requires SchedulesOthers(others, me)
      modifies this
      ensures View() == Run(lim, old(View()), log) && SamePlace(old(View()), View(), me)
      ensures j' == j + 1 && log == if j < |others| then others[j] else []
    {
      j', log := j + 1, [];
      if j < |others| {
        var batch := others[j];
        for i := 0 to |batch|
          invariant View() == Run(lim, old(View()), batch[..i])
        {
          assert batch[..i + 1] == batch[..i] + [batch[i]];
          RunAppend(lim, old(View()), batch[..i], batch[i]);
          Atomic(batch[i]);
        }
        assert batch[..|batch|] == batch;
        log := batch;
        OthersLeaveMeAlone(lim, old(View()), batch, me);
      }
    }

    /** Grow: up to n connections, among other goroutines' steps; blocked when the channel stays full. A
        lost compare-and-swap costs one of the n turns. */
    method Grow(me: int, n: int, others: seq<seq<Action>>)
      returns (added: int, blocked: bool, ghost log: seq<Action>)
      requires !Inside(View(), me) && SchedulesOthers(others, me)
      modifies this
      ensures View() == Run(lim, old(View()), log) && Traced(log, Growing, me, others)
      ensures 0 <= added <= (if n > 0 then n else 0) && added == Tally(lim, old(View()), log, Growing, me)
      ensures !blocked ==> !Inside(View(), me)
      ensures others == [] && |old(pool)| <= old(poolSize) ==> !blocked
      ensures others == [] && !blocked ==>
        && added == Fitting(n, lim.maxPool - old(poolSize)) && View() == GrownBy(old(View()), added)
        && (added == n || poolSize >= lim.maxPool || n <= 0) && pool[..|old(pool)|] == old(pool)
    {
      added, blocked, log := 0, false, [];
      var j := 0;
      for i := 0 to if n > 0 then n else 0
        invariant View() == Run(lim, old(View()), log) && Traced(log, Growing, me, others)
        invariant 0 <= added <= i && !Inside(View(), me) && added == Tally(lim, old(View()), log, Growing, me)
        invariant others == [] ==> added == i && (i > 0 ==> poolSize <= lim.maxPool)
        invariant others == [] ==> View() == GrownBy(old(View()), added)
      {
        var turn;
        turn, j, log := GrowOne(me, others, j, old(View()), log);
        match turn {
          case Full => break;
          case Lost =>
          case Blocked => blocked := true; return;
          case Added => added := added + 1;
        }
      }
    }

    /** One turn of Grow's loop. */
    method GrowOne(me: int, others: seq<seq<Action>>, j: nat, ghost origin: Pool, ghost log: seq<Action>)
      returns (turn: GrowTurn, j': nat, ghost log': seq<Action>)
      requires !Inside(View(), me) && SchedulesOthers(others, me)
      requires View() == Run(lim, origin, log) && Traced(log, Growing, me, others)
      modifies this
      ensures View() == Run(lim, origin, log') && Traced(log', Growing, me, others)
      ensures Tally(lim, origin, log', Growing, me)
           == Tally(lim, origin, log, Growing, me) + if turn == Added then 1 else 0
      ensures turn != Blocked ==> !Inside(View(), me)
      ensures turn == Full <==> old(poolSize) >= lim.maxPool
      ensures turn == Full ==> View() == old(View())
      ensures others == [] ==> turn != Lost
      ensures others == [] && turn == Added ==> View() == GrownBy(old(View()), 1)
      ensures others == [] && |old(pool)| <= old(poolSize) ==> turn != Blocked
    {
      j', log' := j, log;
      var cur := poolSize;
      if cur >= lim.maxPool {
        return Full, j', log';
      }
      j', log' := YieldLogged(others, j', me, Growing, origin, log');
      var swapped := poolSize == cur;
      log' := AtomicLogged(GrowCas(me, cur), Growing, me, others, origin, log');
      if !swapped {
        return Lost, j', log';
      }
      var blocked;
      blocked, j', log' := AddConnection(me, others, j', origin, log');
      turn := if blocked then Blocked else Added;
    }

    /** After a won compare-and-swap: draw an id, then push the new connection. */
    method AddConnection(me: int, others: seq<seq<Action>>, j: nat, ghost origin: Pool, ghost log: seq<Action>)
      returns (blocked: bool, j': nat, ghost log': seq<Action>)
      requires me in growing && me !in drawn && me !in shrinking
      requires SchedulesOthers(others, me) && View() == Run(lim, origin, log) && Traced(log, Growing, me, others)
      modifies this
      ensures View() == Run(lim, origin, log') && Traced(log', Growing, me, others)
      ensures Tally(lim, origin, log', Growing, me)
           == Tally(lim, origin, log, Growing, me) + if blocked then 0 else 1
      ensures !blocked ==> !Inside(View(), me)
      ensures others == [] ==> (blocked <==> |old(pool)| >= lim.maxPool)
      ensures others == [] && !blocked ==> View() == old(View()).(nextId := old(nextID) + 1,
        growing := old(growing) - {me}, idle := old(pool) + [old(nextID)])
    {
      j', log' := YieldLogged(others, j, me, Growing, origin, log);
      log' := AtomicLogged(GrowDraw(me), Growing, me, others, origin, log');
      j', log' := YieldLogged(others, j', me, Growing, origin, log');
      blocked, j', log' := AwaitRoom(me, others, j', origin, log');
      if !blocked {
        log' := AtomicLogged(GrowPush(me), Growing, me, others, origin, log');
        assert others == [] ==> drawn == old(drawn);
      }
    }

    /** A send on the full channel waits for the other goroutines. */
    method AwaitRoom(me: int, others: seq<seq<Action>>, j: nat, ghost origin: Pool, ghost log: seq<Action>)
      returns (blocked: bool, j': nat, ghost log': seq<Action>)
      requires SchedulesOthers(others, me) && View() == Run(lim, origin, log) && Traced(log, Growing, me, others)
      modifies this
      ensures View() == Run(lim, origin, log') && Traced(log', Growing, me, others) && SamePlace(old(View()), View(), me)
      ensures Tally(lim, origin, log', Growing, me) == Tally(lim, origin, log, Growing, me)
      ensures blocked <==> |pool| >= lim.maxPool
      ensures others == [] ==> View() == old(View())
    {
      j', log' := j, log;
      while |pool| >= lim.maxPool && j' < |others|
        invariant View() == Run(lim, origin, log') && Traced(log', Growing, me, others) && SamePlace(old(View()), View(), me)
        invariant Tally(lim, origin, log', Growing, me) == Tally(lim, origin, log, Growing, me)
        invariant others == [] ==> View() == old(View())
        decreases |others| - j'
      {
        j', log' := YieldLogged(others, j', me, Growing, origin, log');
      }
      blocked := |pool| >= lim.maxPool;
    }

    // The pool with n fresh connections at its tail.
    ghost function GrownBy(p: Pool, n: nat): Pool {
      p.(size := p.size + n, nextId := p.nextId + n, idle := p.idle + seq(n, k requires k >= 0 => p.nextId + k))
    }

    ghost function Fitting(n: int, room: int): (r: int)
      ensures 0 <= r && (r == 0 || (r <= n && r <= room)) && (r >= n || r >= room)
    {
      if n <= 0 || room <= 0 then 0 else if n < room then n else room
    }

    method YieldLogged(others: seq<seq<Action>>, j: nat, ghost me: int, ghost job: Job,
                       ghost origin: Pool, ghost log: seq<Action>)
      returns (j': nat, ghost log': seq<Action>)
      requires SchedulesOthers(others, me) && View() == Run(lim, origin, log) && Traced(log, job, me, others)
      modifies this
      ensures View() == Run(lim, origin, log') && Traced(log', job, me, others) && SamePlace(old(View()), View(), me)
      ensures Tally(lim, origin, log', job, me) == Tally(lim, origin, log, job, me)
      ensures j' == j + 1 && (j >= |others| ==> View() == old(View()))
    {
      ghost var more;
      j', more := Yield(others, j, me);
      hide Step, Run, Tally;
      RunConcat(lim, origin, log, more);
      TallyConcat(lim, origin, log, more, job, me);
      OthersDoNotCount(lim, old(View()), more, job, me);
      log' := log + more;
    }

    method AtomicLogged(a: Action, ghost job: Job, ghost me: int, ghost others: seq<seq<Action>>,
                        ghost origin: Pool, ghost log: seq<Action>)
      returns (ghost log': seq<Action>)
      requires View() == Run(lim, origin, log) && Traced(log, job, me, others) && Own(a, job, me)
      modifies this
      ensures View() == Step(lim, old(View()), a) && View() == Run(lim, origin, log') && Traced(log', job, me, others)
      ensures Tally(lim, origin, log', job, me)
           == Tally(lim, origin, log, job, me) + if Counts(lim, old(View()), a, job, me) then 1 else 0
    {
      hide Step, Run, Tally, Counts;
      TallyConcat(lim, origin, log, [a], job, me);
      TallyOne(lim, View(), a, job, me);
      Atomic(a);
      RunAppend(lim, origin, log, a);
      log' := log + [a];
    }

    /** Shrink: removes up to n idle connections, among other goroutines' steps; a lost compare-and-swap
        is retried. */
    method Shrink(me: int, n: int, others: seq<seq<Action>>) returns (removed: int, ghost log: seq<Action>)
      requires !Inside(View(), me) && SchedulesOthers(others, me) && 0 <= me < lim.shrinkers
      modifies this
      ensures View() == Run(lim, old(View()), log) && Traced(log, Shrinking, me, others)
      ensures 0 <= removed <= (if n > 0 then n else 0) && removed == Tally(lim, old(View()), log, Shrinking, me)
      ensures !Inside(View(), me)
      ensures others == [] ==>
        && removed == Fitting(Fitting(n, old(poolSize) - lim.minPool), |old(pool)|)
        && View() == old(View()).(size := old(poolSize) - removed, idle := old(pool)[removed..])
    {
      removed, log := 0, [];
      var j := 0;
      var i := 0;
      while i < n
        invariant View() == Run(lim, old(View()), log) && Traced(log, Shrinking, me, others)
        invariant 0 <= removed == i <= (if n > 0 then n else 0) && !Inside(View(), me)
        invariant removed == Tally(lim, old(View()), log, Shrinking, me)
        invariant others == [] ==> removed <= |old(pool)| && (removed > 0 ==> poolSize >= lim.minPool)
        invariant others == [] ==>
          View() == old(View()).(size := old(poolSize) - removed, idle := old(pool)[removed..])
        decreases if j < |others| then |others| - j else 0, n - i
      {
        var turn;
        turn, j, log := ShrinkOne(me, others, j, old(View()), log);
        match turn {
          case AtMinimum => break;
          case Overtaken =>
          case NoneIdle => return;
          case Removed => removed, i := removed + 1, i + 1;
        }
      }
    }

    /** One turn of Shrink's loop. */
    method ShrinkOne(me: int, others: seq<seq<Action>>, j: nat, ghost origin: Pool, ghost log: seq<Action>)
      returns (turn: ShrinkTurn, j': nat, ghost log': seq<Action>)
      requires !Inside(View(), me) && SchedulesOthers(others, me) && 0 <= me < lim.shrinkers
      requires View() == Run(lim, origin, log) && Traced(log, Shrinking, me, others)
      modifies this
      ensures View() == Run(lim, origin, log') && Traced(log', Shrinking, me, others) && !Inside(View(), me)
      ensures Tally(lim, origin, log', Shrinking, me)
           == Tally(lim, origin, log, Shrinking, me) + if turn == Removed then 1 else 0
      ensures turn == AtMinimum <==> old(poolSize) <= lim.minPool
      ensures turn == AtMinimum ==> View() == old(View())
      ensures j <= j' && (turn == Overtaken ==> j < |others| && j < j')
      ensures others == [] && turn == NoneIdle ==> old(pool) == [] && View() == old(View())
      ensures others == [] && turn == Removed ==>
        old(pool) != [] && View() == old(View()).(size := old(poolSize) - 1, idle := old(pool)[1..])
    {
      j', log' := j, log;
      var cur := poolSize;
      if cur <= lim.minPool {
        return AtMinimum, j', log';
      }
      j', log' := YieldLogged(others, j', me, Shrinking, origin, log');
      var swapped := poolSize == cur;
      log' := AtomicLogged(ShrinkCas(me, cur), Shrinking, me, others, origin, log');
      if !swapped {
        return Overtaken, j', log';
      }
      j', log' := YieldLogged(others, j', me, Shrinking, origin, log');
      var found := |pool| > 0;
      log' := AtomicLogged(ShrinkPop(me), Shrinking, me, others, origin, log');
      turn := if found then Removed else NoneIdle;
    }

    /** Acquire, for one goroutine alone and before Close: stale says whether the popped connection must be
        (re)connected, connects whether that succeeds; ended says that the caller's context has ended and
        the select takes that although a connection is idle. A connection that fails to connect goes back to
        the tail of the pool and counts as a failure. grows tells whether Grow(2) is started on its way. */
    method Acquire(breaker: Breaker, ended: bool, stale: bool, connects: bool, now: int) returns (r: Acquired, grows: bool)
      requires |pool| <= lim.maxPool
      modifies this, breaker
      ensures r.Refused? <==> old(breaker.state) == Open && now - old(breaker.lastFailure) <= 30
      ensures r.Ended? <==> !r.Refused? && (ended || old(pool) == [])
      ensures r.Refused? || r.Ended? ==> View() == old(View()) && breaker.history == old(breaker.history) + [Asked(now)]
      ensures r.ConnectFailed? <==> !r.Refused? && !r.Ended? && stale && !connects
      ensures r.ConnectFailed? ==>
        && View() == old(View()).(idle := old(pool)[1..] + [old(pool)[0]], out := old(out) - {old(pool)[0]})
        && breaker.history == old(breaker.history) + [Asked(now)] + [Failure(now)]
      ensures r.Conn? ==>
        && old(pool) != [] && r.id == old(pool)[0] && (stale ==> connects)
        && View() == Step(lim, old(View()), Take)
        && pool == old(pool)[1..] && out == old(out) + {r.id} && poolSize == old(poolSize)
        && breaker.history == old(breaker.history) + [Asked(now)] + (if stale then [Success(now)] else [])
      ensures grows <==> r.Conn? && old(poolSize) > 0 && (|old(pool)| - 1) * 5 < old(poolSize)
    {
      var allowed := breaker.Allow(now);
      if !allowed {
        return Refused, false;
      }
      if ended || |pool| == 0 {
        return Ended, false;
      }
      var id := pool[0];
      pool, out := pool[1..], out + {id};
      if stale {
        if !connects {
          pool, out := pool + [id], out - {id};
          breaker.RecordFailure(now);
          return ConnectFailed, false;
        }
        breaker.RecordSuccess(now);
      }
      r := Conn(id);
      grows := poolSize > 0 && |pool| * 5 < poolSize;
    }
  }

  datatype GrowTurn = Full | Lost | Blocked | Added

  datatype ShrinkTurn = AtMinimum | Overtaken | NoneIdle | Removed

  // Ended: the caller's context ended before a connection was taken.
  datatype Acquired = Conn(id: int) | Refused | Ended | ConnectFailed
}
