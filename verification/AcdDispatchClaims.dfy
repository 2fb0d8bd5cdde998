/** Agent claims of concurrent dispatchers: exclusive while dispatches finish in time. */
module AcdDispatchClaims {
  import opened AcdDispatch
  import AcdDispatcher
  import AcdDispatchLimit
  import AcdDispatchRoom
  import opened AcdQueue
  import opened Options
  import opened Sums

  predicate Holding(f: Phase) {
    f.Claimed? || f.Removed? || f.Beaten? || f.Failed?
  }

  // Every claim holder is still inside its claim's time to live.
  ghost predicate Timely(p: Acd) {
    forall w :: w in p.workers && Holding(p.workers[w]) ==> p.now < p.workers[w].since + CLAIM_TTL
  }

  ghost predicate AlwaysTimely(s: Setup, p: Acd, acts: seq<Action>)
    decreases |acts|
  {
    Timely(p) && (acts == [] || AlwaysTimely(s, Step(s, p, acts[0]), acts[1..]))
  }

  ghost predicate Exclusive(workers: map<int, Phase>) {
    forall v, w :: v in workers && w in workers && v != w && Holding(workers[v]) && Holding(workers[w]) ==>
      workers[v].agent != workers[w].agent
  }

  ghost predicate Stands(f: Phase, now: int, claims: map<int, int>, rang: map<int, int>) {
    Holding(f) ==>
      && f.since <= now && f.agent in claims && claims[f.agent] == f.since + CLAIM_TTL
      && (f.agent in rang ==> rang[f.agent] + CLAIM_TTL <= f.since)
  }

  ghost predicate Rested(g: int, now: int, claims: map<int, int>, rang: map<int, int>)
    requires g in rang
  {
    now < rang[g] + CLAIM_TTL ==> g in claims && claims[g] == rang[g] + CLAIM_TTL
  }

  // Holders' claims are theirs and not older than the agent's last ring; a ringing agent's claim stands.
  ghost predicate ClaimsStand(p: Acd) {
    && (forall w :: w in p.workers ==> Stands(p.workers[w], p.now, p.claims, p.rang))
    && (forall g :: g in p.rang ==> Rested(g, p.now, p.claims, p.rang))
  }

  // A step that neither touches claims nor makes a holder.
  lemma QuietKeepsClaims(p: Acd, q: Acd)
    requires Exclusive(p.workers) && ClaimsStand(p)
    requires q.now == p.now && q.claims == p.claims && q.rang == p.rang
    requires forall w :: w in q.workers && Holding(q.workers[w]) ==> w in p.workers && q.workers[w] == p.workers[w]
    ensures Exclusive(q.workers) && ClaimsStand(q)
  {
  }

  lemma ClaimKeepsClaims(p: Acd, w: int, ok: bool)
    requires Exclusive(p.workers) && ClaimsStand(p) && w in p.workers && p.workers[w].Chose?
    ensures Exclusive(ClaimStep(p, w, ok).workers) && ClaimsStand(ClaimStep(p, w, ok))
  {
  }

  lemma RemoveKeepsClaims(p: Acd, w: int, ok: bool)
    requires Exclusive(p.workers) && ClaimsStand(p) && w in p.workers && p.workers[w].Claimed?
    ensures Exclusive(RemoveStep(p, w, ok).workers) && ClaimsStand(RemoveStep(p, w, ok))
  {
  }

  lemma RingKeepsClaims(p: Acd, w: int, ok: bool)
    requires Exclusive(p.workers) && ClaimsStand(p) && w in p.workers && p.workers[w].Removed?
    ensures Exclusive(RingStep(p, w, ok).workers) && ClaimsStand(RingStep(p, w, ok))
  {
  }

  lemma ReleaseKeepsClaims(p: Acd, w: int, ok: bool)
    requires Exclusive(p.workers) && ClaimsStand(p) && w in p.workers && (p.workers[w].Beaten? || p.workers[w].Failed?)
    ensures Exclusive(ReleaseStep(p, w, ok).workers) && ClaimsStand(ReleaseStep(p, w, ok))
  {
  }

  lemma TickKeepsStanding(p: Acd, q: Acd, w: int)
    requires ClaimsStand(p) && Timely(q) && q.workers == p.workers && q.rang == p.rang && p.now <= q.now
    requires q.claims == Unlapsed(p.claims, q.now) && w in p.workers
    ensures Stands(q.workers[w], q.now, q.claims, q.rang)
  {
    assert Stands(p.workers[w], p.now, p.claims, p.rang);
    hide ClaimsStand, Unlapsed;
  }

  lemma TickKeepsClaims(s: Setup, p: Acd, elapsed: nat)
    requires Exclusive(p.workers) && ClaimsStand(p) && Timely(Step(s, p, Tick(elapsed)))
    ensures Exclusive(Step(s, p, Tick(elapsed)).workers) && ClaimsStand(Step(s, p, Tick(elapsed)))
  {
    var q := Step(s, p, Tick(elapsed));
    assert q.workers == p.workers && q.rang == p.rang && q.now == p.now + elapsed;
    assert q.claims == Unlapsed(p.claims, q.now);
    hide Step, Exclusive, Unlapsed, Stands, Timely;
    forall w | w in q.workers
      ensures Stands(q.workers[w], q.now, q.claims, q.rang)
    {
      TickKeepsStanding(p, q, w);
    }
  }

  predicate TouchesClaims(a: Action) {
    a.TryClaim? || a.Remove? || a.Ring? || a.Release? || a.Tick?
  }

  lemma OthersAreQuiet(s: Setup, p: Acd, a: Action)
    requires !TouchesClaims(a)
    ensures var q := Step(s, p, a);
      && q.now == p.now && q.claims == p.claims && q.rang == p.rang
      && forall w :: w in q.workers && Holding(q.workers[w]) ==> w in p.workers && q.workers[w] == p.workers[w]
  {
    var q := Step(s, p, a);
    StepFrame(s, p, a);
    NoNewHolder(s, p, a);
    hide IsHead, Malformed, Full, Overdue, NewEntry, Score, HeldBy, Holding;
    assert q.now == p.now && q.claims == p.claims && q.rang == p.rang;
    hide Step;
  }

  lemma NoNewHolder(s: Setup, p: Acd, a: Action)
    requires !TouchesClaims(a)
    ensures var q := Step(s, p, a);
      Actor(a) in q.workers && Holding(q.workers[Actor(a)]) ==>
        Actor(a) in p.workers && q.workers[Actor(a)] == p.workers[Actor(a)]
  {
    hide IsHead, Malformed, Full, Overdue, NewEntry, Score, HeldBy, Unlapsed;
  }

  lemma StepKeepsClaims(s: Setup, p: Acd, a: Action)
    requires Exclusive(p.workers) && ClaimsStand(p) && Timely(Step(s, p, a))
    ensures Exclusive(Step(s, p, a).workers) && ClaimsStand(Step(s, p, a))
  {
    hide Exclusive, ClaimsStand, Timely, ClaimStep, RemoveStep, RingStep, ReleaseStep;
    if !TouchesClaims(a) {
      hide Step;
      OthersAreQuiet(s, p, a);
      QuietKeepsClaims(p, Step(s, p, a));
    } else if a.Tick? {
      TickKeepsClaims(s, p, a.elapsed);
    } else if Step(s, p, a) != p {
      match a {
        case TryClaim(w, ok) => ClaimKeepsClaims(p, w, ok);
        case Remove(w, ok) => RemoveKeepsClaims(p, w, ok);
        case Ring(w, ok) => RingKeepsClaims(p, w, ok);
        case Release(w, ok) => ReleaseKeepsClaims(p, w, ok);
      }
    }
  }

  lemma {:induction false} RunKeepsClaims(s: Setup, p: Acd, acts: seq<Action>)
    requires Exclusive(p.workers) && ClaimsStand(p) && AlwaysTimely(s, p, acts)
    ensures Exclusive(Run(s, p, acts).workers) && ClaimsStand(Run(s, p, acts))
    decreases |acts|
  {
    if acts != [] {
      hide Step, Exclusive, ClaimsStand, Timely;
      StepKeepsClaims(s, p, acts[0]);
      RunKeepsClaims(s, Step(s, p, acts[0]), acts[1..]);
    }
  }

  /** While every claim holder finishes inside the claim's time to live, no two workers hold the same agent,
      and an agent whose call rang is not claimed again before that claim has run out. */
  lemma NoAgentIsClaimedTwice(s: Setup, queue: Queues, now: int, acts: seq<Action>)
    requires AlwaysTimely(s, Start(queue, now), acts)
    ensures var q := Run(s, Start(queue, now), acts);
      && (forall v, w :: v in q.workers && w in q.workers && v != w && Holding(q.workers[v]) && Holding(q.workers[w]) ==>
            q.workers[v].agent != q.workers[w].agent)
      && (forall w :: w in q.workers && Holding(q.workers[w]) && q.workers[w].agent in q.rang ==>
            q.rang[q.workers[w].agent] + 30_000 <= q.workers[w].since)
  {
    assert Exclusive(Start(queue, now).workers) && ClaimsStand(Start(queue, now));
    RunKeepsClaims(s, Start(queue, now), acts);
    var q := Run(s, Start(queue, now), acts);
    assert forall w :: w in q.workers ==> Stands(q.workers[w], q.now, q.claims, q.rang);
    hide Run, AlwaysTimely;
  }

  /** The time to live is the exact limit: a worker that waits for the agent another worker holds gets the
      same agent exactly when the holder is not done within its claim's time to live. */
  lemma SharedIffLate(s: Setup, p: Acd, holder: int, other: int, elapsed: nat)
    requires Exclusive(p.workers) && ClaimsStand(p) && holder in p.workers && other in p.workers
    requires Holding(p.workers[holder]) && p.workers[other].Chose?
    requires p.workers[other].agent == p.workers[holder].agent
    ensures var q := Run(s, p, [Tick(elapsed), TryClaim(other, true)]);
      Exclusive(q.workers) <==> p.now + elapsed < p.workers[holder].since + 30_000
  {
    var mid := Step(s, p, Tick(elapsed));
    assert Stands(p.workers[holder], p.now, p.claims, p.rang);
    assert mid.workers == p.workers && mid.claims == Unlapsed(p.claims, p.now + elapsed);
    var q := Step(s, mid, TryClaim(other, true));
    assert Run(s, p, [Tick(elapsed), TryClaim(other, true)]) == q by {
      assert [Tick(elapsed), TryClaim(other, true)][1..] == [TryClaim(other, true)];
      assert Run(s, mid, [TryClaim(other, true)]) == Run(s, q, []);
      hide Step;
    }
    assert q == ClaimStep(mid, other, true);
    hide Step, Run, Unlapsed;
    if p.now + elapsed >= p.workers[holder].since + CLAIM_TTL {
      assert holder in q.workers && other in q.workers && Holding(q.workers[holder]) && Holding(q.workers[other]);
    }
  }

  // ---------------------------------------------------------------------------
  // Without a time limit on the holders
  // ---------------------------------------------------------------------------

  lemma {:induction false} RunKeepsNumbers(s: Setup, p: Acd, acts: seq<Action>)
    requires AcdDispatchRoom.Numbered(s, p)
    ensures AcdDispatchRoom.Numbered(s, Run(s, p, acts))
    decreases |acts|
  {
    if acts != [] {
      hide Step, AcdDispatchRoom.Numbered;
      AcdDispatchRoom.StepKeepsNumbers(s, p, acts[0]);
      RunKeepsNumbers(s, Step(s, p, acts[0]), acts[1..]);
    }
  }

  lemma OneWorkerIsExclusive(s: Setup, queue: Queues, now: int, acts: seq<Action>)
    requires s.workers <= 1
    ensures Exclusive(Run(s, Start(queue, now), acts).workers)
  {
    hide Run;
    RunKeepsNumbers(s, Start(queue, now), acts);
  }

  // w reads the head and claims the agent.
  function Claiming(w: int, e: Entry, agent: int): seq<Action> {
    [Read(w, e, agent)] + [TryClaim(w, true)]
  }

  lemma Claims(s: Setup, p: Acd, w: int, e: Entry, agent: int)
    requires Free(s, p, w) && IsHead(p.queue, e) && !Malformed(e) && agent != 0 && agent !in p.claims
    ensures var q := Run(s, p, Claiming(w, e, agent));
      && q.queue == p.queue && q.now == p.now && q.claims == p.claims[agent := p.now + CLAIM_TTL]
      && q.workers == p.workers[w := Claimed(e, p.queue[e], agent, p.now)]
  {
    var mid := Put(p, w, Chose(e, p.queue[e], agent));
    AcdDispatcher.ReadIs(s, p, w, e, agent);
    AcdDispatcher.StepIs(s, mid, w, true);
    AcdDispatchLimit.RunOne(s, p, Read(w, e, agent));
    RunAppend(s, p, [Read(w, e, agent)], TryClaim(w, true));
    hide Run, Step, IsHead, Malformed;
  }

  lemma Waits(s: Setup, p: Acd)
    ensures var q := Run(s, p, [Tick(CLAIM_TTL)]);
      q.queue == p.queue && q.workers == p.workers && q.claims == Unlapsed(p.claims, p.now + CLAIM_TTL)
  {
    AcdDispatchLimit.RunOne(s, p, Tick(CLAIM_TTL));
    hide Run, Unlapsed;
  }

  // Two workers read the same head, and the second claims the agent when the first one's claim has lapsed.
  lemma TwoWorkersShare(s: Setup, queue: Queues, now: int, e: Entry) returns (acts: seq<Action>)
    requires s.workers >= 2 && IsHead(queue, e) && !Malformed(e)
    ensures !Exclusive(Run(s, Start(queue, now), acts).workers)
  {
    hide Run, IsHead, Malformed, Claiming;
    var p := Start(queue, now);
    var first, late, second := Claiming(0, e, 1), [Tick(CLAIM_TTL)], Claiming(1, e, 1);
    Claims(s, p, 0, e, 1);
    var p1 := Run(s, p, first);
    Waits(s, p1);
    var p2 := Run(s, p1, late);
    Claims(s, p2, 1, e, 1);
    var q := Run(s, p2, second);
    RunConcat(s, p, first, late);
    RunConcat(s, p, first + late, second);
    acts := first + late + second;
    assert 0 in q.workers && 1 in q.workers && Holding(q.workers[0]) && Holding(q.workers[1]);
    assert q.workers[0].agent == q.workers[1].agent;
  }

  /** Without that condition on the holders, agents stay exclusive over every run of every stored queues
      exactly when at most one worker is inside an operation at a time. */
  lemma AlwaysExclusiveIff(s: Setup, now: int)
    ensures (forall queue, acts :: Exclusive(Run(s, Start(queue, now), acts).workers)) <==> s.workers <= 1
  {
    if s.workers <= 1 {
      forall queue, acts
        ensures Exclusive(Run(s, Start(queue, now), acts).workers)
      {
        OneWorkerIsExclusive(s, queue, now, acts);
      }
    } else {
      var e := Entry(1, MemberFor(1, 1));
      var queue := map[e := 0];
      ParseUndoesMember(1, 1);
      assert IsHead(queue, e);
      hide Run, Exclusive, IsHead;
      var acts := TwoWorkersShare(s, queue, now, e);
    }
  }
}
