/** The distributor's dispatch and expiry loops (internal/application/acd/service.go), run among any other
    workers' steps. */
module AcdDispatcher {
  import opened AcdDispatch
  import AcdDispatchCalls
  import opened AcdQueue
  import opened Options
  import opened Sums
  import opened Text

  ghost predicate By(a: Action, me: int) {
    !a.Drop? && !a.Tick? && a.w == me
  }

  ghost predicate ByOthers(batch: seq<Action>, me: int) {
    forall i :: 0 <= i < |batch| ==> !By(batch[i], me)
  }

  ghost predicate SchedulesOthers(others: seq<seq<Action>>, me: int) {
    forall j :: 0 <= j < |others| ==> ByOthers(others[j], me)
  }

  // A step of dispatchOne or expireQueued as worker me runs it.
  predicate Own(a: Action, me: int) {
    a.Drop? || ((a.Read? || Dispatching(a) || a.Take? || a.Ended?) && a.w == me)
  }

  ghost predicate Scheduled(a: Action, others: seq<seq<Action>>) {
    exists j :: 0 <= j < |others| && a in others[j]
  }

  // Every step is one of the worker's own or comes from the schedule.
  ghost predicate Traced(log: seq<Action>, me: int, others: seq<seq<Action>>) {
    forall a :: a in log ==> Own(a, me) || Scheduled(a, others)
  }

  ghost predicate SamePlace(p: Acd, q: Acd, me: int) {
    (me in p.workers <==> me in q.workers) && (me in p.workers ==> p.workers[me] == q.workers[me])
  }

  lemma {:induction false} OthersLeaveMeAlone(s: Setup, p: Acd, batch: seq<Action>, me: int)
    requires ByOthers(batch, me)
    ensures SamePlace(p, Run(s, p, batch), me)
    decreases |batch|
  {
    if batch != [] {
      StepFrame(s, p, batch[0]);
      hide Step;
      assert !By(batch[0], me);
      assert SamePlace(p, Step(s, p, batch[0]), me);
      OthersLeaveMeAlone(s, Step(s, p, batch[0]), batch[1..], me);
    }
  }

  // The worker's own steps of a log.
  ghost function Mine(log: seq<Action>, me: int): seq<Action> {
    if log == [] then []
    else Mine(log[..|log| - 1], me) + if By(log[|log| - 1], me) then [log[|log| - 1]] else []
  }

  lemma MineAppend(log: seq<Action>, a: Action, me: int)
    ensures Mine(log + [a], me) == Mine(log, me) + if By(a, me) then [a] else []
  {
    assert (log + [a])[..|log|] == log;
  }

  lemma {:induction false} MineSkips(log: seq<Action>, batch: seq<Action>, me: int)
    requires ByOthers(batch, me)
    ensures Mine(log + batch, me) == Mine(log, me)
    decreases |batch|
  {
    if batch == [] {
      assert log + batch == log;
    } else {
      var n := |batch| - 1;
      MineSkips(log, batch[..n], me);
      assert log + batch == (log + batch[..n]) + [batch[n]];
      MineAppend(log + batch[..n], batch[n], me);
    }
  }

  // From log to log' the worker took these steps.
  ghost predicate Took(log: seq<Action>, log': seq<Action>, me: int, steps: seq<Action>) {
    Mine(log', me) == Mine(log, me) + steps
  }

  lemma TookThen(log: seq<Action>, mid: seq<Action>, log': seq<Action>, me: int, a: seq<Action>, b: seq<Action>)
    requires Took(log, mid, me, a) && Took(mid, log', me, b)
    ensures Took(log, log', me, a + b)
    ensures b == [] ==> Took(log, log', me, a)
  {
    hide Mine;
    assert b == [] ==> a + b == a;
  }

  lemma TookAll(log: seq<Action>, me: int, steps: seq<Action>)
    requires Took([], log, me, steps)
    ensures Mine(log, me) == steps
  {
    assert [] + steps == steps;
  }

  // Whether each of dispatchOne's commands succeeds.
  datatype Replies = Replies(claim: bool, remove: bool, ring: bool, release: bool, requeue: bool)

  // e is the head dispatchOne read. AgentTaken: no claim. Beaten: a claim, but the call was not removed.
  // Routed: the call rings. Returned: it could not ring and is back in the queue. Gone: nor could it be put back.
  datatype Dispatch = Empty | BadHead(e: Entry) | NoAgent | AgentTaken(e: Entry) | Beaten(e: Entry)
    | Routed(e: Entry) | Returned(e: Entry) | Gone(e: Entry)

  // The worker's own steps on its way to each result, from a won ZREM, from the claim, and from the start.
  function FromRing(r: Dispatch, w: int, ok: Replies): seq<Action> {
    match r
    case Routed(_) => [Ring(w, true)]
    case Returned(_) => [Ring(w, false)] + ([Release(w, ok.release)] + [Requeue(w, true)])
    case Gone(_) => [Ring(w, false)] + ([Release(w, ok.release)] + [Requeue(w, false)])
    case _ => []
  }

  function FromRemove(r: Dispatch, w: int, ok: Replies): seq<Action> {
    if r.Beaten? then [Remove(w, ok.remove)] + [Release(w, ok.release)] else [Remove(w, true)] + FromRing(r, w, ok)
  }

  function FromClaim(r: Dispatch, w: int, ok: Replies): seq<Action> {
    if r.AgentTaken? then [TryClaim(w, ok.claim)] else [TryClaim(w, true)] + FromRemove(r, w, ok)
  }

  function Course(r: Dispatch, w: int, agent: int, ok: Replies): seq<Action> {
    if r.Empty? || r.BadHead? || r.NoAgent? then [] else [Read(w, r.e, agent)] + FromClaim(r, w, ok)
  }

  // Where the call is when dispatchOne returns, whatever the other workers did before its last step.
  ghost predicate Shows(r: Dispatch, ok: Replies, q: Acd) {
    match r
    case Routed(e) => ok.ring && e in q.done.dispatched
    case Returned(e) => !ok.ring && e in q.queue
    case Gone(e) => !ok.ring && e in q.lost
    case BadHead(e) => ok.remove ==> e !in q.queue
    case _ => true
  }

  lemma NothingToShow(r: Dispatch, ok: Replies, q: Acd)
    requires r.AgentTaken? || r.Beaten?
    ensures Shows(r, ok, q)
  {
  }

  // What dispatchOne does to the state when no other worker moves. A claim lasts 30 s unless it is released.
  ghost predicate DispatchedAlone(p: Acd, sg: int, agent: int, ok: Replies, r: Dispatch, q: Acd) {
    var claimed := p.claims[agent := p.now + 30_000];
    var given := if ok.release then p.claims else claimed;
    match r
    case Empty => q == p && Members(p.queue, sg) == {}
    case BadHead(e) => e.sg == sg && IsHead(p.queue, e) && Malformed(e) && q == if ok.remove then DropStep(p, e) else p
    case NoAgent => q == p && agent == 0
    case AgentTaken(_) => q == p && (!ok.claim || agent in p.claims)
    case Beaten(_) => ok.claim && !ok.remove && agent !in p.claims && q == p.(claims := given)
    case Routed(e) =>
      && e.sg == sg && IsHead(p.queue, e) && !Malformed(e) && agent !in p.claims && ok.claim && ok.remove && ok.ring
      && q == p.(queue := p.queue - {e}, claims := claimed,
                 done := p.done.(dispatched := p.done.dispatched + {e}), rang := p.rang[agent := p.now])
    case Returned(e) =>
      && e.sg == sg && IsHead(p.queue, e) && !Malformed(e) && agent !in p.claims && ok.claim && ok.remove && !ok.ring
      && ok.requeue && q == p.(claims := given)
    case Gone(e) =>
      && e.sg == sg && IsHead(p.queue, e) && !Malformed(e) && agent !in p.claims && ok.claim && ok.remove && !ok.ring
      && !ok.requeue
      && q == p.(queue := p.queue - {e}, claims := given, lost := p.lost + {e})
  }

  ghost predicate ClaimedAlone(p: Acd, w: int, ok: Replies, r: Dispatch, q: Acd)
    requires w in p.workers && p.workers[w].Chose?
  {
    var f := p.workers[w];
    var given := if ok.release then p.claims else p.claims[f.agent := p.now + CLAIM_TTL];
    if !ok.claim || f.agent in p.claims then r == AgentTaken(f.e) && q == Leave(p, w)
    else if !ok.remove || f.e !in p.queue then
      r == Dispatch.Beaten(f.e) && q == Leave(p, w).(claims := given)
    else if ok.ring then
      && r == Routed(f.e)
      && q == Leave(p, w).(queue := p.queue - {f.e}, claims := p.claims[f.agent := p.now + CLAIM_TTL],
                           done := p.done.(dispatched := p.done.dispatched + {f.e}), rang := p.rang[f.agent := p.now])
    else if ok.requeue then
      && r == Returned(f.e)
      && q == Leave(p, w).(queue := p.queue[f.e := f.score], claims := given)
    else
      && r == Gone(f.e)
      && q == Leave(p, w).(queue := p.queue - {f.e}, claims := given, lost := p.lost + {f.e})
  }

  ghost predicate RemovedAlone(p: Acd, w: int, ok: Replies, r: Dispatch, q: Acd)
    requires w in p.workers && p.workers[w].Claimed?
  {
    var mid := RemoveStep(p, w, ok.remove);
    if mid.workers[w].Beaten? then r == Dispatch.Beaten(p.workers[w].e) && q == ReleaseStep(mid, w, ok.release)
    else RungAlone(mid, w, ok, r, q)
  }

  ghost predicate RungAlone(p: Acd, w: int, ok: Replies, r: Dispatch, q: Acd)
    requires w in p.workers && p.workers[w].Removed?
  {
    var f := p.workers[w];
    var claims := if ok.release then p.claims - {f.agent} else p.claims;
    if ok.ring then
      && r == Routed(f.e)
      && q == Leave(p, w).(done := p.done.(dispatched := p.done.dispatched + {f.e}), rang := p.rang[f.agent := f.since])
    else if ok.requeue then
      r == Returned(f.e) && q == Leave(p, w).(claims := claims, queue := p.queue[f.e := f.score])
    else r == Gone(f.e) && q == Leave(p, w).(claims := claims, lost := p.lost + {f.e})
  }

  lemma StepIs(s: Setup, p: Acd, w: int, ok: bool)
    requires w in p.workers
    ensures p.workers[w].Chose? ==> Step(s, p, TryClaim(w, ok)) == ClaimStep(p, w, ok)
    ensures p.workers[w].Claimed? ==> Step(s, p, Remove(w, ok)) == RemoveStep(p, w, ok)
    ensures p.workers[w].Removed? ==> Step(s, p, Ring(w, ok)) == RingStep(p, w, ok)
    ensures p.workers[w].Beaten? || p.workers[w].Failed? ==> Step(s, p, Release(w, ok)) == ReleaseStep(p, w, ok)
    ensures p.workers[w].Requeuing? ==> Step(s, p, Requeue(w, ok)) == RequeueStep(p, w, ok)
  {
    hide ClaimStep, RemoveStep, RingStep, ReleaseStep, RequeueStep;
  }

  lemma RemoveParts(p: Acd, w: int, ok: bool)
    requires w in p.workers && p.workers[w].Claimed?
    ensures var q := RemoveStep(p, w, ok);
      && w in q.workers
      && if ok && p.workers[w].e in p.queue then q.workers[w].Removed? && q.workers[w].e == p.workers[w].e
         else q.workers[w].Beaten?
  {
  }

  lemma BeatenLeaves(p: Acd, w: int, ok: bool)
    requires w in p.workers && p.workers[w].Beaten?
    ensures w !in ReleaseStep(p, w, ok).workers
  {
  }

  lemma RingParts(p: Acd, w: int, ok: bool)
    requires w in p.workers && p.workers[w].Removed?
    ensures var q := RingStep(p, w, ok);
      if ok then w !in q.workers && p.workers[w].e in q.done.dispatched
      else w in q.workers && q.workers[w].Failed? && q.workers[w].e == p.workers[w].e
  {
  }

  lemma ClaimParts(p: Acd, w: int, ok: bool)
    requires w in p.workers && p.workers[w].Chose?
    ensures var q := ClaimStep(p, w, ok);
      if ok && p.workers[w].agent !in p.claims
      then w in q.workers && q.workers[w].Claimed? && q.workers[w].e == p.workers[w].e
      else q == Leave(p, w) && w !in q.workers
  {
  }

  lemma RingEnds(p: Acd, w: int, ok: Replies)
    requires w in p.workers && p.workers[w].Removed?
    ensures ok.ring ==> RungAlone(p, w, ok, Routed(p.workers[w].e), RingStep(p, w, true))
    ensures var failed := RingStep(p, w, false);
      && w in failed.workers && failed.workers[w].Failed? && failed.workers[w].e == p.workers[w].e
      && (!ok.ring ==>
            RungAlone(p, w, ok, if ok.requeue then Returned(p.workers[w].e) else Gone(p.workers[w].e),
                      RequeueStep(ReleaseStep(failed, w, ok.release), w, ok.requeue)))
  {
    assert ReleaseStep(RingStep(p, w, false), w, ok.release).workers - {w} == p.workers - {w};
  }

  lemma ReadIs(s: Setup, p: Acd, w: int, e: Entry, agent: int)
    requires Free(s, p, w) && IsHead(p.queue, e) && !Malformed(e) && agent != 0
    ensures Step(s, p, Read(w, e, agent)) == Put(p, w, Chose(e, p.queue[e], agent))
  {
  }

  lemma DropIs(s: Setup, p: Acd, e: Entry)
    ensures Step(s, p, Drop(e)) == if e in p.queue && Malformed(e) then DropStep(p, e) else p
  {
  }

  lemma TakeIs(s: Setup, p: Acd, w: int, e: Entry, asOf: int)
    requires Free(s, p, w) && asOf <= p.now
    ensures Step(s, p, Take(w, e, asOf)) == if e in p.queue && Overdue(s.groups, e, asOf) then TakeStep(p, w, e) else p
  {
  }

  lemma EndedIs(s: Setup, p: Acd, w: int)
    requires w in p.workers && p.workers[w].Expiring?
    ensures Step(s, p, Ended(w)) == EndedStep(p, w)
  {
  }

  // The state after a won claim and the ZREM that follows it.
  lemma ClaimedAndRemoved(p: Acd, w: int, ok: bool)
    requires w in p.workers && p.workers[w].Chose? && p.workers[w].agent !in p.claims
    ensures var f, q := p.workers[w], RemoveStep(ClaimStep(p, w, true), w, ok);
      && q == p.(queue := q.queue, claims := q.claims, workers := q.workers)
      && q.claims == p.claims[f.agent := p.now + CLAIM_TTL] && q.claims - {f.agent} == p.claims
      && w in q.workers && q.workers - {w} == p.workers - {w}
      && if ok && f.e in p.queue
         then q.queue == p.queue - {f.e} && q.workers[w] == Removed(f.e, f.score, f.agent, p.now)
         else q.queue == p.queue && q.workers[w] == Phase.Beaten(f.agent, p.now)
  {
  }

  lemma ClaimThenRemove(p: Acd, w: int, ok: Replies, r: Dispatch, q: Acd)
    requires w in p.workers && p.workers[w].Chose? && p.workers[w].agent !in p.claims && ok.claim
    requires ClaimStep(p, w, true).workers[w].Claimed? && ClaimStep(p, w, true).workers[w].e == p.workers[w].e
    requires RemovedAlone(ClaimStep(p, w, true), w, ok, r, q)
    ensures ClaimedAlone(p, w, ok, r, q)
  {
    ClaimedAndRemoved(p, w, ok.remove);
    hide ClaimStep, RemoveStep;
  }

  lemma ReadThenClaim(p: Acd, w: int, e: Entry, agent: int, ok: Replies, r: Dispatch, q: Acd)
    requires w !in p.workers && IsHead(p.queue, e) && !Malformed(e)
    requires ClaimedAlone(Put(p, w, Chose(e, p.queue[e], agent)), w, ok, r, q)
    ensures DispatchedAlone(p, e.sg, agent, ok, r, q)
  {
    hide Malformed;
    assert e in p.queue;
    hide IsHead;
    assert Put(p, w, Chose(e, p.queue[e], agent)).workers - {w} == p.workers;
    assert p.queue[e := p.queue[e]] == p.queue;
  }

  // One member of the group, when no other worker moves.
  function ExpireStep(groups: Groups, p: Acd, e: Entry, asOf: int): Acd {
    if Malformed(e) then DropStep(p, e)
    else if Overdue(groups, e, asOf) then
      p.(queue := p.queue - {e}, done := p.done.(expired := p.done.expired + {e}))
    else p
  }

  lemma TakenAndEnded(groups: Groups, p: Acd, w: int, e: Entry, asOf: int)
    requires w !in p.workers
    ensures TakeStep(p, w, e).workers[w].Expiring?
    ensures !Malformed(e) && Overdue(groups, e, asOf) ==> EndedStep(TakeStep(p, w, e), w) == ExpireStep(groups, p, e, asOf)
    ensures !Malformed(e) && !Overdue(groups, e, asOf) ==> p == ExpireStep(groups, p, e, asOf)
    ensures Malformed(e) ==> DropStep(p, e) == ExpireStep(groups, p, e, asOf)
  {
    hide Malformed, Overdue;
    assert TakeStep(p, w, e).workers - {w} == p.workers;
  }

  // What expireQueued did when no other worker moves and the members in rest are still to be seen, or could
  // not be removed.
  ghost predicate ExpiredAlone(groups: Groups, p: Acd, sg: int, rest: set<Entry>, q: Acd) {
    if sg !in groups || groups[sg].maxWaitSec <= 0 then q == p
    else
      && (forall e :: e in q.queue <==>
            e in p.queue && (e.sg != sg || e in rest || (!Malformed(e) && !Overdue(groups, e, p.now))))
      && (forall e :: e in q.queue ==> q.queue[e] == p.queue[e])
      && (forall e :: e in q.done.expired <==>
            e in p.done.expired || (e in p.queue && e.sg == sg && e !in rest && Overdue(groups, e, p.now)))
      && (forall e :: e in q.done.dropped <==>
            e in p.done.dropped || (e in p.queue && e.sg == sg && e !in rest && Malformed(e)))
      && q == p.(queue := q.queue, done := p.done.(expired := q.done.expired, dropped := q.done.dropped))
  }

  // The worker's own steps for one member: an overdue one is taken, and ended when it was still there.
  ghost predicate Sweeps(groups: Groups, w: int, e: Entry, asOf: int, more: seq<Action>) {
    if Overdue(groups, e, asOf) then more == [Take(w, e, asOf)] || more == [Take(w, e, asOf), Ended(w)] else more == []
  }

  // The steps of a pass that has still to see the members in rest, or whose ZREM fails.
  ghost predicate Swept(groups: Groups, p: Acd, w: int, sg: int, rest: set<Entry>, log: seq<Action>) {
    && (forall e :: Take(w, e, p.now) in Mine(log, w) <==>
          e in p.queue && e.sg == sg && e !in rest && Overdue(groups, e, p.now))
    && (forall a :: a in Mine(log, w) ==> a == Ended(w) || (a.Take? && a.asOf == p.now))
    && (forall e :: e in p.queue && e.sg == sg && e !in rest && Malformed(e) ==> Drop(e) in log)
  }

  // A readable member of the group leaves the queue, and is expired, exactly when it waited the whole limit.
  ghost predicate ExpiredOnTime(groups: Groups, p: Acd, sg: int, failing: set<Entry>, q: Acd) {
    sg in groups && groups[sg].maxWaitSec > 0 ==>
      forall id: Int64, ms: Int64 :: ms > 0 && Waiting(p, failing, Entry(sg, MemberFor(id, ms))) ==>
        var e, due := Entry(sg, MemberFor(id, ms)), p.now - ms >= groups[sg].maxWaitSec * 1000;
        (e !in q.queue <==> due) && (e in q.done.expired <==> due || e in p.done.expired)
  }

  // The worker takes such a member exactly then, whatever the others do.
  ghost predicate TakesOnTime(groups: Groups, p: Acd, w: int, sg: int, failing: set<Entry>, log: seq<Action>) {
    sg in groups && groups[sg].maxWaitSec > 0 ==>
      forall id: Int64, ms: Int64 :: ms > 0 && Waiting(p, failing, Entry(sg, MemberFor(id, ms))) ==>
        (Take(w, Entry(sg, MemberFor(id, ms)), p.now) in Mine(log, w) <==> p.now - ms >= groups[sg].maxWaitSec * 1000)
  }

  predicate Waiting(p: Acd, failing: set<Entry>, e: Entry) {
    e in p.queue && e !in failing
  }

  lemma AloneIsOnTime(groups: Groups, p: Acd, sg: int, failing: set<Entry>, q: Acd)
    requires ExpiredAlone(groups, p, sg, failing, q)
    ensures ExpiredOnTime(groups, p, sg, failing, q)
  {
    if sg in groups && groups[sg].maxWaitSec > 0 {
      forall id: Int64, ms: Int64 | ms > 0 && Waiting(p, failing, Entry(sg, MemberFor(id, ms)))
        ensures var e, due := Entry(sg, MemberFor(id, ms)), p.now - ms >= groups[sg].maxWaitSec * 1000;
          (e !in q.queue <==> due) && (e in q.done.expired <==> due || e in p.done.expired)
      {
        TooOldIff(sg, id, ms, p.now, groups[sg].maxWaitSec);
        hide MemberFor, TooOld, Malformed;
      }
    }
  }

  lemma SweptIsOnTime(groups: Groups, p: Acd, w: int, sg: int, failing: set<Entry>, log: seq<Action>)
    requires sg in groups && groups[sg].maxWaitSec > 0 && Swept(groups, p, w, sg, failing, log)
    ensures TakesOnTime(groups, p, w, sg, failing, log)
  {
    forall id: Int64, ms: Int64 | ms > 0 && Waiting(p, failing, Entry(sg, MemberFor(id, ms)))
      ensures Take(w, Entry(sg, MemberFor(id, ms)), p.now) in Mine(log, w)
         <==> p.now - ms >= groups[sg].maxWaitSec * 1000
    {
      TooOldIff(sg, id, ms, p.now, groups[sg].maxWaitSec);
      hide MemberFor, TooOld, Malformed, Mine;
    }
  }

  lemma SweptNext(groups: Groups, p: Acd, w: int, sg: int, rest: set<Entry>, e: Entry, log: seq<Action>,
                  more: seq<Action>, log': seq<Action>)
    requires e in p.queue && e !in rest && Swept(groups, p, w, sg, rest + {e}, log) && log <= log'
    requires if e.sg == sg then Took(log, log', w, more) && Sweeps(groups, w, e, p.now, more) else log' == log
    requires e.sg == sg && Malformed(e) ==> Drop(e) in log'
    ensures Swept(groups, p, w, sg, rest, log')
  {
    hide Mine, Malformed, Overdue;
    assert forall a :: a in log ==> a in log';
  }

  lemma ExpireNext(groups: Groups, p: Acd, sg: int, rest: set<Entry>, e: Entry, mid: Acd)
    requires sg in groups && groups[sg].maxWaitSec > 0 && e in p.queue && e !in rest
    requires ExpiredAlone(groups, p, sg, rest + {e}, mid)
    ensures ExpiredAlone(groups, p, sg, rest, if e.sg == sg then ExpireStep(groups, mid, e, p.now) else mid)
  {
    assert Malformed(e) ==> !Overdue(groups, e, p.now);
    hide Malformed, Overdue;
  }

  lemma RunNone(s: Setup, p: Acd)
    ensures Run(s, p, []) == p
  {
  }

  lemma StepTime(s: Setup, p: Acd, a: Action)
    ensures Step(s, p, a).now >= p.now
  {
    if a.Tick? {
      hide Unlapsed;
    } else if AcdDispatchCalls.Settles(a) {
      hide AddStep, ClaimStep, RemoveStep, ReleaseStep, RequeueStep, TakeStep, CrashStep, IsHead, Full, Overdue, Malformed;
    } else {
      AcdDispatchCalls.NothingSettles(s, p, a);
      hide Step;
    }
  }

  lemma {:induction false} TimeNeverFalls(s: Setup, p: Acd, batch: seq<Action>)
    ensures Run(s, p, batch).now >= p.now
    decreases |batch|
  {
    if batch != [] {
      hide Step;
      StepTime(s, p, batch[0]);
      TimeNeverFalls(s, Step(s, p, batch[0]), batch[1..]);
    }
  }

  /** The shared Redis state, with the workers' places and the calls' histories as further fields. */
  class Dispatcher {
    const setup: Setup
    var now: int
    var queue: Queues
    var claims: map<int, int>
    var workers: map<int, Phase>
    ghost var queued: map<Entry, int>
    ghost var done: Done
    ghost var lost: set<Entry>
    ghost var rang: map<int, int>

    ghost function View(): Acd
      reads this
    {
      Acd(now, queue, claims, workers, queued, done, lost, rang)
    }

    constructor (setup: Setup, queue: Queues, now: int)
      ensures this.setup == setup && View() == Start(queue, now)
    {
      this.setup, this.queue, this.now := setup, queue, now;
      claims, workers := map[], map[];
      queued, done, lost, rang := queue, Done({}, {}, {}), {}, map[];
    }

    method FindRoom(w: int, callId: int, priority: int, sg: int)
      modifies this
      ensures View() == Step(setup, old(View()), Check(w, callId, priority, sg))
      ensures w in workers && w !in old(workers) ==> workers[w] == Admitted(callId, priority, sg)
    {
      if 0 <= w < setup.workers && w !in workers {
        var full := false;
        if sg in setup.groups && setup.groups[sg].maxQueueSize > 0 {
          var size := ZCard(queue, sg);
          full := size >= setup.groups[sg].maxQueueSize;
        }
        if !full {
          workers := workers[w := Admitted(callId, priority, sg)];
        }
      }
    }

    method ZAdd(w: int, ms: int, ok: bool)
      modifies this
      ensures View() == Step(setup, old(View()), Add(w, ms, ok))
    {
      if w in workers && workers[w].Admitted? && 0 < ms <= now {
        var f := workers[w];
        workers := workers - {w};
        if ok {
          var e, score := Entry(f.sg, MemberFor(f.callId, ms)), Score(f.priority, ms);
          queue, queued := queue[e := score], queued[e := score];
        }
      }
    }

    method ReadHead(w: int, e: Entry, agent: int)
      modifies this
      ensures View() == Step(setup, old(View()), Read(w, e, agent))
    {
      var head := ZRangeHead(queue, e.sg);
      assert IsHead(queue, e) ==> head == Some(e) by {
        if IsHead(queue, e) {
          OneHead(queue, e, head.value);
        }
      }
      hide IsHead;
      if 0 <= w < setup.workers && w !in workers && head == Some(e) && ParseMember(e.member).ok && agent != 0 {
        workers := workers[w := Chose(e, queue[e], agent)];
      }
    }

    method SetNX(w: int, ok: bool)
      modifies this
      ensures View() == Step(setup, old(View()), TryClaim(w, ok))
    {
      if w in workers && workers[w].Chose? {
        var f := workers[w];
        if !ok || f.agent in claims {
          workers := workers - {w};
        } else {
          workers, claims := workers[w := Claimed(f.e, f.score, f.agent, now)], claims[f.agent := now + CLAIM_TTL];
        }
      }
    }

    method ZRem(w: int, ok: bool)
      modifies this
      ensures View() == Step(setup, old(View()), Remove(w, ok))
    {
      if w in workers && workers[w].Claimed? {
        var f := workers[w];
        if ok && f.e in queue {
          queue, workers := queue - {f.e}, workers[w := Removed(f.e, f.score, f.agent, f.since)];
        } else {
          workers := workers[w := Phase.Beaten(f.agent, f.since)];
        }
      }
    }

    method TransitionToRinging(w: int, ok: bool)
      modifies this
      ensures View() == Step(setup, old(View()), Ring(w, ok))
    {
      if w in workers && workers[w].Removed? {
        var f := workers[w];
        if ok {
          workers := workers - {w};
          done, rang := done.(dispatched := done.dispatched + {f.e}), rang[f.agent := f.since];
        } else {
          workers := workers[w := Failed(f.e, f.score, f.agent, f.since)];
        }
      }
    }

    method Del(w: int, ok: bool)
      modifies this
      ensures View() == Step(setup, old(View()), Release(w, ok))
    {
      if w in workers && (workers[w].Beaten? || workers[w].Failed?) {
        var f := workers[w];
        if ok {
          claims := claims - {f.agent};
        }
        workers := if f.Beaten? then workers - {w} else workers[w := Requeuing(f.e, f.score)];
      }
    }

    method ZAddBack(w: int, ok: bool)
      modifies this
      ensures View() == Step(setup, old(View()), Requeue(w, ok))
    {
      if w in workers && workers[w].Requeuing? {
        var f := workers[w];
        workers := workers - {w};
        if ok {
          queue := queue[f.e := f.score];
        } else {
          lost := lost + {f.e};
        }
      }
    }

    method ZRemOverdue(w: int, e: Entry, asOf: int)
      modifies this
      ensures View() == Step(setup, old(View()), Take(w, e, asOf))
    {
      if 0 <= w < setup.workers && w !in workers && e in queue && asOf <= now && Overdue(setup.groups, e, asOf) {
        queue, workers := queue - {e}, workers[w := Expiring(e)];
      }
    }

    method EndCall(w: int)
      modifies this
      ensures View() == Step(setup, old(View()), Ended(w))
    {
      if w in workers && workers[w].Expiring? {
        done := done.(expired := done.expired + {workers[w].e});
        workers := workers - {w};
      }
    }

    method Die(w: int)
      modifies this
      ensures View() == Step(setup, old(View()), Crash(w))
    {
      if w in workers {
        lost := lost + HeldBy(workers[w]);
        workers := workers - {w};
      }
    }

    method ZRemMalformed(e: Entry)
      modifies this
      ensures View() == Step(setup, old(View()), Drop(e))
    {
      if e in queue && !ParseMember(e.member).ok {
        queue, done := queue - {e}, done.(dropped := done.dropped + {e});
      }
    }

    method Wait(elapsed: nat)
      modifies this
      ensures View() == Step(setup, old(View()), Tick(elapsed))
    {
      now := now + elapsed;
      claims := Unlapsed(claims, now);
    }

    /** One Redis command of any worker. */
    method Atomic(a: Action)
      modifies this
      ensures View() == Step(setup, old(View()), a)
    {
      hide Step;
      match a {
        case Check(w, callId, priority, sg) => FindRoom(w, callId, priority, sg);
        case Add(w, ms, ok) => ZAdd(w, ms, ok);
        case Read(w, e, agent) => ReadHead(w, e, agent);
        case TryClaim(w, ok) => SetNX(w, ok);
        case Remove(w, ok) => ZRem(w, ok);
        case Ring(w, ok) => TransitionToRinging(w, ok);
        case Release(w, ok) => Del(w, ok);
        case Requeue(w, ok) => ZAddBack(w, ok);
        case Take(w, e, asOf) => ZRemOverdue(w, e, asOf);
        case Ended(w) => EndCall(w);
        case Crash(w) => Die(w);
        case Drop(e) => ZRemMalformed(e);
        case Tick(elapsed) => Wait(elapsed);
      }
    }

    method AtomicLogged(a: Action, ghost me: int, ghost others: seq<seq<Action>>, ghost origin: Acd, ghost log: seq<Action>)
      returns (ghost log': seq<Action>)
      requires View() == Run(setup, origin, log) && Traced(log, me, others) && Own(a, me)
      modifies this
      ensures View() == Step(setup, old(View()), a) && View() == Run(setup, origin, log') && Traced(log', me, others)
      ensures log' == log + [a] && Took(log, log', me, if By(a, me) then [a] else [])
    {
      hide Step, Run, Mine;
      Atomic(a);
      RunAppend(setup, origin, log, a);
      MineAppend(log, a, me);
      log' := log + [a];
    }

    /** A step of dispatchOne. */
    method StepLogged(a: Action, ghost me: int, ghost others: seq<seq<Action>>, ghost origin: Acd, ghost log: seq<Action>)
      returns (ghost log': seq<Action>)
      requires View() == Run(setup, origin, log) && Traced(log, me, others) && (a.Read? || Dispatching(a)) && a.w == me
      modifies this
      ensures View() == Step(setup, old(View()), a) && View() == Run(setup, origin, log') && Traced(log', me, others)
      ensures Took(log, log', me, [a])
    {
      hide Step, Run, Took, Traced;
      log' := AtomicLogged(a, me, others, origin, log);
    }

    /** The other workers' steps in the j-th gap between this worker's own. */
    method Yield(others: seq<seq<Action>>, j: nat, ghost me: int, ghost origin: Acd, ghost log: seq<Action>)
      returns (j': nat, ghost log': seq<Action>)
      requires SchedulesOthers(others, me) && View() == Run(setup, origin, log) && Traced(log, me, others)
      modifies this
      ensures View() == Run(setup, origin, log') && Traced(log', me, others)
      ensures (me in workers <==> me in old(workers)) && (me in workers ==> workers[me] == old(workers)[me])
      ensures now >= old(now) && log <= log' && Took(log, log', me, [])
      ensures j' == j + 1 && (j >= |others| ==> View() == old(View()))
    {
      j', log' := j + 1, log;
      if j < |others| {
        var batch := others[j];
        hide Step, Mine;
        ghost var start := View();
        for i := 0 to |batch|
          invariant View() == Run(setup, start, batch[..i])
        {
          assert batch[..i + 1] == batch[..i] + [batch[i]];
          RunAppend(setup, start, batch[..i], batch[i]);
          Atomic(batch[i]);
        }
        assert batch[..|batch|] == batch;
        log' := log + batch;
        hide Run;
        RunConcat(setup, origin, log, batch);
        MineSkips(log, batch, me);
        OthersLeaveMeAlone(setup, start, batch, me);
        TimeNeverFalls(setup, start, batch);
      }
    }

    /** dispatchOne, among the other workers' steps: agent is pickAgent's choice (0 for none), ok says which of
        its commands succeed. The result tells which steps it took, in which order, and where the call is. */
    method DispatchOne(w: int, sg: int, agent: int, ok: Replies, others: seq<seq<Action>>)
      returns (r: Dispatch, ghost log: seq<Action>)
      requires 0 <= w < setup.workers && w !in workers && SchedulesOthers(others, w)
      modifies this
      ensures View() == Run(setup, old(View()), log) && Traced(log, w, others) && w !in workers
      ensures Mine(log, w) == Course(r, w, agent, ok) && Shows(r, ok, View())
      ensures r.Empty? <==> Members(old(queue), sg) == {}
      ensures !r.Empty? && !r.NoAgent? ==> r.e.sg == sg && IsHead(old(queue), r.e) && (r.BadHead? <==> Malformed(r.e))
      ensures !r.Empty? && !r.BadHead? ==> (r.NoAgent? <==> agent == 0)
      ensures others == [] ==> DispatchedAlone(old(View()), sg, agent, ok, r, View())
    {
      ghost var start := View();
      log := [];
      assert View() == Run(setup, start, log) && Mine(log, w) == [];
      var head := ZRangeHead(queue, sg);
      if head.None? {
        return Empty, log;
      }
      var e, j := head.value, 0;
      assert e in Members(queue, sg);
      if !ParseMember(e.member).ok {
        if ok.remove {
          j, log := DropHead(w, e, others, start, log);
        }
        return BadHead(e), log;
      }
      if agent == 0 {
        return NoAgent, log;
      }
      ReadIs(setup, start, w, e, agent);
      hide Step, Run, SchedulesOthers, Traced, Took, Mine, Members, FromClaim, Shows, DispatchedAlone, ClaimedAlone;
      log := StepLogged(Read(w, e, agent), w, others, start, []);
      ghost var read := log;
      j, log := Yield(others, j, w, start, log);
      TookThen([], read, log, w, [Read(w, e, agent)], []);
      ghost var met := log;
      r, log := ClaimAndRing(w, ok, others, j, start, log);
      TookThen([], met, log, w, [Read(w, e, agent)], FromClaim(r, w, ok));
      TookAll(log, w, [Read(w, e, agent)] + FromClaim(r, w, ok));
      if others == [] {
        hide IsHead, Malformed;
        ReadThenClaim(start, w, e, agent, ok, r, View());
      }
    }

    method DropHead(w: int, e: Entry, others: seq<seq<Action>>, ghost origin: Acd, ghost log: seq<Action>)
      returns (j: nat, ghost log': seq<Action>)
      requires w !in workers && SchedulesOthers(others, w) && View() == Run(setup, origin, log) && Traced(log, w, others)
      requires Malformed(e) && e in queue
      modifies this
      ensures View() == Run(setup, origin, log') && Traced(log', w, others) && w !in workers && e !in queue
      ensures Took(log, log', w, [])
      ensures others == [] ==> View() == DropStep(old(View()), e)
    {
      hide Step, Run, SchedulesOthers, Traced, Malformed, Took;
      j, log' := Yield(others, 0, w, origin, log);
      ghost var mid := log';
      DropIs(setup, View(), e);
      log' := AtomicLogged(Drop(e), w, others, origin, log');
      TookThen(log, mid, log', w, [], []);
    }

    /** From SETNX on. */
    method ClaimAndRing(w: int, ok: Replies, others: seq<seq<Action>>, j: nat,
                        ghost origin: Acd, ghost log: seq<Action>)
      returns (r: Dispatch, ghost log': seq<Action>)
      requires w in workers && workers[w].Chose? && SchedulesOthers(others, w)
      requires View() == Run(setup, origin, log) && Traced(log, w, others)
      modifies this
      ensures View() == Run(setup, origin, log') && Traced(log', w, others) && w !in workers
      ensures !r.Empty? && !r.BadHead? && !r.NoAgent? && r.e == old(workers[w].e)
      ensures Took(log, log', w, FromClaim(r, w, ok)) && Shows(r, ok, View())
      ensures others == [] ==> ClaimedAlone(old(View()), w, ok, r, View())
    {
      var j', f := j, workers[w];
      var free := ok.claim && f.agent !in claims;
      StepIs(setup, View(), w, ok.claim);
      ClaimParts(View(), w, ok.claim);
      hide Step, Run, SchedulesOthers, Traced, RemovedAlone, ClaimStep, Took, FromRemove, Shows;
      log' := StepLogged(TryClaim(w, ok.claim), w, others, origin, log);
      if !free {
        NothingToShow(AgentTaken(f.e), ok, View());
        return AgentTaken(f.e), log';
      }
      ghost var mid := log';
      j', log' := Yield(others, j', w, origin, log');
      TookThen(log, mid, log', w, [TryClaim(w, true)], []);
      mid := log';
      r, log' := RemoveAndRing(w, ok, others, j', origin, log');
      TookThen(log, mid, log', w, [TryClaim(w, true)], FromRemove(r, w, ok));
      if others == [] {
        ClaimThenRemove(old(View()), w, ok, r, View());
      }
    }

    /** From ZREM on. */
    method RemoveAndRing(w: int, ok: Replies, others: seq<seq<Action>>, j: nat,
                         ghost origin: Acd, ghost log: seq<Action>)
      returns (r: Dispatch, ghost log': seq<Action>)
      requires w in workers && workers[w].Claimed? && SchedulesOthers(others, w)
      requires View() == Run(setup, origin, log) && Traced(log, w, others)
      modifies this
      ensures View() == Run(setup, origin, log') && Traced(log', w, others) && w !in workers
      ensures r.Beaten? || r.Routed? || r.Returned? || r.Gone?
      ensures r.e == old(workers[w].e)
      ensures Took(log, log', w, FromRemove(r, w, ok)) && Shows(r, ok, View())
      ensures others == [] ==> RemovedAlone(old(View()), w, ok, r, View())
    {
      var j', e := j, workers[w].e;
      var first := ok.remove && e in queue;
      StepIs(setup, View(), w, ok.remove);
      RemoveParts(View(), w, ok.remove);
      hide Step, Run, SchedulesOthers, RungAlone, Traced, Took, FromRing, RemoveStep, ReleaseStep, Shows;
      log' := StepLogged(Remove(w, ok.remove), w, others, origin, log);
      ghost var mid := log';
      j', log' := Yield(others, j', w, origin, log');
      TookThen(log, mid, log', w, [Remove(w, ok.remove)], []);
      mid := log';
      if !first {
        log' := Withdraw(w, ok.release, others, origin, log');
        TookThen(log, mid, log', w, [Remove(w, ok.remove)], [Release(w, ok.release)]);
        NothingToShow(Dispatch.Beaten(e), ok, View());
        return Dispatch.Beaten(e), log';
      }
      r, log' := RingOrReturn(w, ok, others, j', origin, log');
      TookThen(log, mid, log', w, [Remove(w, true)], FromRing(r, w, ok));
    }

    /** After a ZREM that removed nothing. */
    method Withdraw(w: int, ok: bool, others: seq<seq<Action>>, ghost origin: Acd, ghost log: seq<Action>)
      returns (ghost log': seq<Action>)
      requires w in workers && workers[w].Beaten?
      requires View() == Run(setup, origin, log) && Traced(log, w, others)
      modifies this
      ensures View() == Run(setup, origin, log') && Traced(log', w, others) && w !in workers
      ensures Took(log, log', w, [Release(w, ok)]) && View() == ReleaseStep(old(View()), w, ok)
    {
      StepIs(setup, View(), w, ok);
      BeatenLeaves(View(), w, ok);
      hide Step, Run, Traced, Took, ReleaseStep;
      log' := StepLogged(Release(w, ok), w, others, origin, log);
    }

    /** After a won ZREM. */
    method RingOrReturn(w: int, ok: Replies, others: seq<seq<Action>>, j: nat,
                        ghost origin: Acd, ghost log: seq<Action>)
      returns (r: Dispatch, ghost log': seq<Action>)
      requires w in workers && workers[w].Removed? && SchedulesOthers(others, w)
      requires View() == Run(setup, origin, log) && Traced(log, w, others)
      modifies this
      ensures View() == Run(setup, origin, log') && Traced(log', w, others) && w !in workers
      ensures r.Routed? || r.Returned? || r.Gone?
      ensures r.e == old(workers[w].e)
      ensures Took(log, log', w, FromRing(r, w, ok)) && Shows(r, ok, View())
      ensures others == [] ==> RungAlone(old(View()), w, ok, r, View())
    {
      var j', e := j, workers[w].e;
      RingEnds(View(), w, ok);
      StepIs(setup, View(), w, ok.ring);
      RingParts(View(), w, ok.ring);
      hide Step, Run, SchedulesOthers, Traced, RungAlone, RingStep, ReleaseStep, RequeueStep, Took;
      log' := StepLogged(Ring(w, ok.ring), w, others, origin, log);
      if ok.ring {
        return Routed(e), log';
      }
      ghost var mid := log';
      j', log' := Yield(others, j', w, origin, log');
      TookThen(log, mid, log', w, [Ring(w, false)], []);
      mid := log';
      log' := PutBack(w, ok, others, j', origin, log');
      TookThen(log, mid, log', w, [Ring(w, false)], [Release(w, ok.release)] + [Requeue(w, ok.requeue)]);
      r := if ok.requeue then Returned(e) else Gone(e);
    }

    /** After a failed ring: the claim is released, then the call goes back. */
    method PutBack(w: int, ok: Replies, others: seq<seq<Action>>, j: nat, ghost origin: Acd, ghost log: seq<Action>)
      returns (ghost log': seq<Action>)
      requires w in workers && workers[w].Failed? && SchedulesOthers(others, w)
      requires View() == Run(setup, origin, log) && Traced(log, w, others)
      modifies this
      ensures View() == Run(setup, origin, log') && Traced(log', w, others) && w !in workers
      ensures Took(log, log', w, [Release(w, ok.release)] + [Requeue(w, ok.requeue)])
      ensures if ok.requeue then old(workers[w].e) in queue else old(workers[w].e) in lost
      ensures others == [] ==> View() == RequeueStep(ReleaseStep(old(View()), w, ok.release), w, ok.requeue)
    {
      StepIs(setup, View(), w, ok.release);
      hide Step, Run, SchedulesOthers, Traced, Took;
      log' := StepLogged(Release(w, ok.release), w, others, origin, log);
      ghost var mid := log';
      var j';
      j', log' := Yield(others, j, w, origin, log');
      TookThen(log, mid, log', w, [Release(w, ok.release)], []);
      mid := log';
      StepIs(setup, View(), w, ok.requeue);
      log' := StepLogged(Requeue(w, ok.requeue), w, others, origin, log');
      TookThen(log, mid, log', w, [Release(w, ok.release)], [Requeue(w, ok.requeue)]);
    }

    /** expireQueued, among the other workers' steps, over the members read at its start; for the members in
        failing the ZREM fails. It takes the overdue members and drops the malformed ones. */
    method ExpireQueued(w: int, sg: int, failing: set<Entry>, others: seq<seq<Action>>) returns (ghost log: seq<Action>)
      requires 0 <= w < setup.workers && w !in workers && SchedulesOthers(others, w)
      modifies this
      ensures View() == Run(setup, old(View()), log) && Traced(log, w, others) && w !in workers
      ensures sg in setup.groups && setup.groups[sg].maxWaitSec > 0 ==>
        Swept(setup.groups, old(View()), w, sg, failing, log)
      ensures TakesOnTime(setup.groups, old(View()), w, sg, failing, log)
      ensures others == [] ==> ExpiredAlone(setup.groups, old(View()), sg, failing, View())
      ensures others == [] ==> ExpiredOnTime(setup.groups, old(View()), sg, failing, View())
    {
      log := [];
      if sg !in setup.groups || setup.groups[sg].maxWaitSec <= 0 {
        return;
      }
      var asOf, rest, j := now, queue.Keys, 0;
      assert ExpiredAlone(setup.groups, View(), sg, rest + failing, View());
      assert Swept(setup.groups, View(), w, sg, rest + failing, []);
      hide *;
      RunNone(setup, View());
      while rest != {}
        invariant rest <= old(queue).Keys && asOf == old(now) <= now && w !in workers
        invariant View() == Run(setup, old(View()), log) && Traced(log, w, others)
        invariant Swept(setup.groups, old(View()), w, sg, rest + failing, log)
        invariant others == [] ==> ExpiredAlone(setup.groups, old(View()), sg, rest + failing, View())
        decreases rest
      {
        var e := Choose(rest);
        ghost var all := rest + failing;
        rest := rest - {e};
        if e in failing {
          assert rest + failing == all;
        } else {
          assert rest + failing + {e} == all;
          ghost var before, was, more := View(), log, [];
          if e.sg == sg {
            j, log, more := ExpireOne(w, e, asOf, others, j, old(View()), log);
          }
          SweptNext(setup.groups, old(View()), w, sg, rest + failing, e, was, more, log);
          if others == [] {
            ExpireNext(setup.groups, old(View()), sg, rest + failing, e, before);
          }
        }
      }
      assert rest + failing == failing;
      SweptIsOnTime(setup.groups, old(View()), w, sg, failing, log);
      if others == [] {
        AloneIsOnTime(setup.groups, old(View()), sg, failing, View());
      }
    }

    /** One member of expireQueued's loop. */
    method ExpireOne(w: int, e: Entry, asOf: int, others: seq<seq<Action>>, j: nat,
                     ghost origin: Acd, ghost log: seq<Action>)
      returns (j': nat, ghost log': seq<Action>, ghost more: seq<Action>)
      requires 0 <= w < setup.workers && w !in workers && SchedulesOthers(others, w)
      requires View() == Run(setup, origin, log) && Traced(log, w, others) && asOf <= now
      requires e.sg in setup.groups && setup.groups[e.sg].maxWaitSec > 0
      modifies this
      ensures View() == Run(setup, origin, log') && Traced(log', w, others) && w !in workers && now >= old(now)
      ensures log <= log' && (Malformed(e) ==> Drop(e) in log')
      ensures Took(log, log', w, more) && Sweeps(setup.groups, w, e, asOf, more)
      ensures others == [] && e in old(queue) ==> View() == ExpireStep(setup.groups, old(View()), e, asOf)
    {
      var p := ParseMember(e.member);
      assert p.ok <==> !Malformed(e);
      assert Overdue(setup.groups, e, asOf) <==>
        (p.ok && p.ms != 0 && p.ms <= asOf - setup.groups[e.sg].maxWaitSec * 1000);
      TakenAndEnded(setup.groups, View(), w, e, asOf);
      hide Step, Run, SchedulesOthers, Traced, Malformed, Overdue, Took, ExpireStep, TakeStep, EndedStep, DropStep;
      j', log' := Yield(others, j, w, origin, log);
      ghost var mid := log';
      more := [];
      if !p.ok {
        DropIs(setup, View(), e);
        log' := AtomicLogged(Drop(e), w, others, origin, log');
        TookThen(log, mid, log', w, [], []);
      } else if p.ms != 0 && p.ms <= asOf - setup.groups[e.sg].maxWaitSec * 1000 {
        j', log', more := TakeAndEnd(w, e, asOf, others, j', origin, log');
        TookThen(log, mid, log', w, [], more);
        assert [] + more == more;
      }
    }

    /** An overdue member. */
    method TakeAndEnd(w: int, e: Entry, asOf: int, others: seq<seq<Action>>, j: nat,
                      ghost origin: Acd, ghost log: seq<Action>)
      returns (j': nat, ghost log': seq<Action>, ghost more: seq<Action>)
      requires 0 <= w < setup.workers && w !in workers && SchedulesOthers(others, w)
      requires View() == Run(setup, origin, log) && Traced(log, w, others) && asOf <= now
      requires Overdue(setup.groups, e, asOf)
      modifies this
      ensures View() == Run(setup, origin, log') && Traced(log', w, others) && w !in workers && now >= old(now)
      ensures log <= log' && Took(log, log', w, more)
      ensures more == if e in old(queue) then [Take(w, e, asOf), Ended(w)] else [Take(w, e, asOf)]
      ensures others == [] && e in old(queue) ==> View() == EndedStep(TakeStep(old(View()), w, e), w)
    {
      TakeIs(setup, View(), w, e, asOf);
      hide Step, Run, SchedulesOthers, Traced, Overdue, Took;
      var there := e in queue;
      j' := j;
      log' := AtomicLogged(Take(w, e, asOf), w, others, origin, log);
      more := [Take(w, e, asOf)];
      if there {
        ghost var mid := log';
        j', log' := Yield(others, j', w, origin, log');
        TookThen(log, mid, log', w, more, []);
        mid := log';
        EndedIs(setup, View(), w);
        log' := AtomicLogged(Ended(w), w, others, origin, log');
        TookThen(log, mid, log', w, more, [Ended(w)]);
        more := more + [Ended(w)];
      }
    }
  }
}
