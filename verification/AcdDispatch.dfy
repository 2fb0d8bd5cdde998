/** Any number of concurrent enqueuers, dispatchers and expirers over the call distributor's shared sorted
    sets and agent claims (internal/application/acd). Every Redis command is one step; the steps of
    different workers interleave freely. Times are milliseconds. */
module AcdDispatch {
  import opened AcdQueue
  import opened Options
  import opened Sums

  const CLAIM_TTL: int := 30_000

  // Workers are numbered from 0; there are as many as may be inside an operation at once.
  datatype Setup = Setup(groups: Groups, workers: nat)

  /** What a worker carries between two Redis commands.
      Admitted: Enqueue found room. Chose: dispatchOne read the head and picked an agent. Claimed: it holds
      the agent's claim. Removed: its ZREM removed the head. Beaten: another worker's ZREM came first, or its
      own failed.
      Failed: the call could not be rung. Requeuing: the claim is released, the call is to go back.
      Expiring: expireQueued removed the call and is to end it. */
  datatype Phase =
    | Admitted(callId: int, priority: int, sg: int)
    | Chose(e: Entry, score: int, agent: int)
    | Claimed(e: Entry, score: int, agent: int, since: int)
    | Removed(e: Entry, score: int, agent: int, since: int)
    | Beaten(agent: int, since: int)
    | Failed(e: Entry, score: int, agent: int, since: int)
    | Requeuing(e: Entry, score: int)
    | Expiring(e: Entry)

  // The calls that left the distributor for good.
  datatype Done = Done(dispatched: set<Entry>, expired: set<Entry>, dropped: set<Entry>)

  // claims: agent to the time its claim lapses. queued: every entry ever queued, with its score.
  // rang: agent to the time of the claim under which a call last rang there.
  datatype Acd = Acd(now: int, queue: Queues, claims: map<int, int>, workers: map<int, Phase>,
                     queued: map<Entry, int>, done: Done, lost: set<Entry>, rang: map<int, int>)

  datatype Action =
    | Check(w: int, callId: int, priority: int, sg: int)
    | Add(w: int, ms: int, ok: bool)
    | Read(w: int, e: Entry, agent: int)
    | TryClaim(w: int, ok: bool)
    | Remove(w: int, ok: bool)
    | Ring(w: int, ok: bool)
    | Release(w: int, ok: bool)
    | Requeue(w: int, ok: bool)
    | Take(w: int, e: Entry, asOf: int)
    | Ended(w: int)
    | Crash(w: int)
    | Drop(e: Entry)
    | Tick(elapsed: nat)

  predicate Free(s: Setup, p: Acd, w: int) {
    0 <= w < s.workers && w !in p.workers
  }

  // The workers other than w are where they were.
  ghost predicate Others(p: Acd, q: Acd, w: int) {
    forall v :: v != w ==> (v in q.workers <==> v in p.workers) && (v in q.workers ==> q.workers[v] == p.workers[v])
  }

  function Put(p: Acd, w: int, phase: Phase): Acd {
    p.(workers := p.workers[w := phase])
  }

  function Leave(p: Acd, w: int): Acd {
    p.(workers := p.workers - {w})
  }

  predicate Overdue(groups: Groups, e: Entry, asOf: int) {
    e.sg in groups && groups[e.sg].maxWaitSec > 0 && TooOld(e, asOf - groups[e.sg].maxWaitSec * 1000)
  }

  function Unlapsed(claims: map<int, int>, now: int): (r: map<int, int>)
    ensures forall g :: g in r <==> g in claims && claims[g] > now
    ensures forall g :: g in r ==> r[g] == claims[g]
  {
    map g | g in claims && claims[g] > now :: claims[g]
  }

  // The entry a worker took out of the queue.
  function HeldBy(f: Phase): set<Entry> {
    if f.Removed? || f.Failed? || f.Requeuing? || f.Expiring? then {f.e} else {}
  }

  // A disabled step changes nothing: the worker is elsewhere or its test fails. ok says whether the command
  // succeeds; a failed ZRANGE, or ZREM outside a dispatch, is no step.
  ghost function Step(s: Setup, p: Acd, a: Action): Acd {
    match a
    case Check(w, callId, priority, sg) =>
      if Free(s, p, w) && !Full(s.groups, p.queue, sg) then Put(p, w, Admitted(callId, priority, sg)) else p
    case Add(w, ms, ok) =>
      if w in p.workers && p.workers[w].Admitted? && 0 < ms <= p.now then AddStep(p, w, ms, ok) else p
    case Read(w, e, agent) =>
      if Free(s, p, w) && IsHead(p.queue, e) && !Malformed(e) && agent != 0
      then Put(p, w, Chose(e, p.queue[e], agent)) else p
    case TryClaim(w, ok) =>
      if w in p.workers && p.workers[w].Chose? then ClaimStep(p, w, ok) else p
    case Remove(w, ok) =>
      if w in p.workers && p.workers[w].Claimed? then RemoveStep(p, w, ok) else p
    case Ring(w, ok) =>
      if w in p.workers && p.workers[w].Removed? then RingStep(p, w, ok) else p
    case Release(w, ok) =>
      if w in p.workers && (p.workers[w].Beaten? || p.workers[w].Failed?) then ReleaseStep(p, w, ok) else p
    case Requeue(w, ok) =>
      if w in p.workers && p.workers[w].Requeuing? then RequeueStep(p, w, ok) else p
    case Take(w, e, asOf) =>
      if Free(s, p, w) && e in p.queue && asOf <= p.now && Overdue(s.groups, e, asOf)
      then TakeStep(p, w, e) else p
    case Ended(w) =>
      if w in p.workers && p.workers[w].Expiring? then EndedStep(p, w) else p
    case Crash(w) =>
      if w in p.workers then CrashStep(p, w) else p
    case Drop(e) =>
      if e in p.queue && Malformed(e) then DropStep(p, e) else p
    case Tick(elapsed) =>
      p.(now := p.now + elapsed, claims := Unlapsed(p.claims, p.now + elapsed))
  }

  function NewEntry(f: Phase, ms: int): Entry
    requires f.Admitted?
  {
    Entry(f.sg, MemberFor(f.callId, ms))
  }

  // ZADD; it may fail.
  function AddStep(p: Acd, w: int, ms: int, ok: bool): (q: Acd)
    requires w in p.workers && p.workers[w].Admitted?
    ensures Others(p, q, w)
  {
    var f := p.workers[w];
    var e, score := NewEntry(f, ms), Score(f.priority, ms);
    if ok then Leave(p, w).(queue := p.queue[e := score], queued := p.queued[e := score]) else Leave(p, w)
  }

  // SETNX; when it fails the agent counts as taken.
  function ClaimStep(p: Acd, w: int, ok: bool): (q: Acd)
    requires w in p.workers && p.workers[w].Chose?
    ensures Others(p, q, w)
  {
    var f := p.workers[w];
    if !ok || f.agent in p.claims then Leave(p, w)
    else Put(p, w, Claimed(f.e, f.score, f.agent, p.now)).(claims := p.claims[f.agent := p.now + CLAIM_TTL])
  }

  // ZREM; when it fails the entry stays where it is.
  function RemoveStep(p: Acd, w: int, ok: bool): (q: Acd)
    requires w in p.workers && p.workers[w].Claimed?
    ensures Others(p, q, w)
  {
    var f := p.workers[w];
    if ok && f.e in p.queue then Put(p, w, Removed(f.e, f.score, f.agent, f.since)).(queue := p.queue - {f.e})
    else Put(p, w, Beaten(f.agent, f.since))
  }

  // TransitionCallToRinging; after a success the claim stays until it lapses.
  function RingStep(p: Acd, w: int, ok: bool): (q: Acd)
    requires w in p.workers && p.workers[w].Removed?
    ensures Others(p, q, w)
  {
    var f := p.workers[w];
    if ok then Leave(p, w).(done := p.done.(dispatched := p.done.dispatched + {f.e}), rang := p.rang[f.agent := f.since])
    else Put(p, w, Failed(f.e, f.score, f.agent, f.since))
  }

  // DEL, whoever set the claim; its error is ignored, and the claim then stays until it lapses.
  function ReleaseStep(p: Acd, w: int, ok: bool): (q: Acd)
    requires w in p.workers && (p.workers[w].Beaten? || p.workers[w].Failed?)
    ensures Others(p, q, w)
  {
    var f := p.workers[w];
    var claims := if ok then p.claims - {f.agent} else p.claims;
    if f.Beaten? then Leave(p, w).(claims := claims)
    else Put(p, w, Requeuing(f.e, f.score)).(claims := claims)
  }

  // ZADD with the score that was read; its error is ignored.
  function RequeueStep(p: Acd, w: int, ok: bool): (q: Acd)
    requires w in p.workers && p.workers[w].Requeuing?
    ensures Others(p, q, w)
  {
    var f := p.workers[w];
    if ok then Leave(p, w).(queue := p.queue[f.e := f.score]) else Leave(p, w).(lost := p.lost + {f.e})
  }

  // ZREM of an entry that waited too long.
  function TakeStep(p: Acd, w: int, e: Entry): (q: Acd)
    ensures Others(p, q, w)
  {
    Put(p, w, Expiring(e)).(queue := p.queue - {e})
  }

  // ZREM of a member that cannot be read.
  function DropStep(p: Acd, e: Entry): Acd {
    p.(queue := p.queue - {e}, done := p.done.(dropped := p.done.dropped + {e}))
  }

  // EndCall; its error is only logged.
  function EndedStep(p: Acd, w: int): (q: Acd)
    requires w in p.workers && p.workers[w].Expiring?
    ensures Others(p, q, w)
  {
    Leave(p, w).(done := p.done.(expired := p.done.expired + {p.workers[w].e}))
  }

  // What a process held when it ended is in no other place.
  function CrashStep(p: Acd, w: int): (q: Acd)
    requires w in p.workers
    ensures Others(p, q, w)
  {
    Leave(p, w).(lost := p.lost + HeldBy(p.workers[w]))
  }

  // The worker a step belongs to; Drop and Tick belong to none.
  function Actor(a: Action): int {
    if a.Drop? || a.Tick? then -1 else a.w
  }

  lemma StepFrame(s: Setup, p: Acd, a: Action)
    ensures Others(p, Step(s, p, a), Actor(a))
    ensures a.Drop? || a.Tick? ==> Step(s, p, a).workers == p.workers
  {
    hide IsHead, Malformed, Full, Overdue, Unlapsed, Leave;
    hide AddStep, ClaimStep, RemoveStep, RingStep, ReleaseStep, RequeueStep, TakeStep, EndedStep, CrashStep;
  }

  ghost function Run(s: Setup, p: Acd, acts: seq<Action>): Acd
    decreases |acts|
  {
    if acts == [] then p else Run(s, Step(s, p, acts[0]), acts[1..])
  }

  // The sorted sets as found, no claim set and no worker inside an operation.
  function Start(queue: Queues, now: int): Acd {
    Acd(now, queue, map[], map[], queue, Done({}, {}, {}), {}, map[])
  }

  lemma {:induction false} RunAppend(s: Setup, p: Acd, acts: seq<Action>, a: Action)
    ensures Run(s, p, acts + [a]) == Step(s, Run(s, p, acts), a)
    decreases |acts|
  {
    hide Step;
    if acts == [] {
      assert acts + [a] == [a];
      assert Run(s, p, [a]) == Run(s, Step(s, p, a), []);
    } else {
      assert (acts + [a])[1..] == acts[1..] + [a];
      RunAppend(s, Step(s, p, acts[0]), acts[1..], a);
    }
  }

  lemma {:induction false} RunConcat(s: Setup, p: Acd, a: seq<Action>, b: seq<Action>)
    ensures Run(s, p, a + b) == Run(s, Run(s, p, a), b)
    decreases |a|
  {
    hide Step;
    if a == [] {
      assert a + b == b;
    } else {
      assert (a + b)[1..] == a[1..] + b;
      RunConcat(s, Step(s, p, a[0]), a[1..], b);
    }
  }

  // The steps of dispatchOne after the head is read.
  predicate Dispatching(a: Action) {
    a.TryClaim? || a.Remove? || a.Ring? || a.Release? || a.Requeue?
  }

  // The steps that may change the sorted sets.
  predicate TouchesQueue(a: Action) {
    a.Add? || a.Remove? || a.Requeue? || a.Take? || a.Drop?
  }

  lemma QueueUntouched(s: Setup, p: Acd, a: Action)
    requires !TouchesQueue(a)
    ensures Step(s, p, a).queue == p.queue
  {
    hide IsHead, Malformed, Full, Overdue, NewEntry, Score, HeldBy, Unlapsed;
  }
}
