/** How far a bounded group's queue really gets over its limit: failed dispatches put calls back into room
    that new calls have taken, even when every enqueuer checks and adds without a break. */
module AcdDispatchLimit {
  import opened AcdDispatch
  import opened AcdDispatchRoom
  import AcdDispatcher
  import opened AcdQueue
  import opened Options
  import opened Sums
  import opened Text

  // Every Check is followed at once by the same worker's Add.
  ghost predicate Unbroken(acts: seq<Action>)
    decreases |acts|
  {
    acts == [] || (
      if acts[0].Check? then |acts| > 1 && acts[1].Add? && acts[1].w == acts[0].w && Unbroken(acts[2..])
      else Unbroken(acts[1..])
    )
  }

  lemma {:induction false} UnbrokenConcat(a: seq<Action>, b: seq<Action>)
    requires Unbroken(a) && Unbroken(b)
    ensures Unbroken(a + b)
    decreases |a|
  {
    if a == [] {
      assert a + b == b;
    } else if a[0].Check? {
      assert (a + b)[2..] == a[2..] + b && (a + b)[0] == a[0] && (a + b)[1] == a[1];
      UnbrokenConcat(a[2..], b);
    } else {
      assert (a + b)[1..] == a[1..] + b && (a + b)[0] == a[0];
      UnbrokenConcat(a[1..], b);
    }
  }

  lemma {:induction false} WithoutChecks(acts: seq<Action>)
    requires forall a :: a in acts ==> !a.Check?
    ensures Unbroken(acts)
  {
    if acts != [] {
      assert acts[0] in acts;
      WithoutChecks(acts[1..]);
    }
  }

  // ---------------------------------------------------------------------------
  // A line of calls
  // ---------------------------------------------------------------------------

  // The c-th call of the line, queued at time 1.
  function Caller(sg: int, c: nat): Entry {
    Entry(sg, MemberFor(c, 1))
  }

  lemma CallersDiffer(sg: int, a: nat, b: nat)
    requires Caller(sg, a) == Caller(sg, b)
    ensures a == b
  {
    NoColonInInt(a);
    NoColonInInt(b);
    FirstColonAfter(FormatInt(a), FormatInt(1));
    FirstColonAfter(FormatInt(b), FormatInt(1));
    var x, y := FormatInt(a), FormatInt(b);
    assert x == (x + ":" + FormatInt(1))[..|x|];
    assert y == (y + ":" + FormatInt(1))[..|y|];
    DigitsValueOfDigits(a);
    DigitsValueOfDigits(b);
  }

  // Later calls have lower priority.
  function Place(c: nat): int {
    Score(0 - c, 1)
  }

  // The queue of calls a up to b - 1.
  function Line(sg: int, a: nat, b: nat): Queues {
    if b <= a then map[] else Line(sg, a, b - 1)[Caller(sg, b - 1) := Place(b - 1)]
  }

  lemma {:induction false} LineHolds(sg: int, a: nat, b: nat)
    ensures forall e :: e in Line(sg, a, b) ==> e.sg == sg && exists c: nat :: a <= c < b && e == Caller(sg, c)
    ensures forall c: nat :: a <= c < b ==> Caller(sg, c) in Line(sg, a, b) && Line(sg, a, b)[Caller(sg, c)] == Place(c)
  {
    if a < b {
      LineHolds(sg, a, b - 1);
      forall c: nat | a <= c < b
        ensures Caller(sg, c) in Line(sg, a, b) && Line(sg, a, b)[Caller(sg, c)] == Place(c)
      {
        if Caller(sg, c) == Caller(sg, b - 1) {
          CallersDiffer(sg, c, b - 1);
        }
      }
    }
  }

  lemma NotInLine(sg: int, a: nat, b: nat, c: nat)
    requires !(a <= c < b)
    ensures Caller(sg, c) !in Line(sg, a, b)
  {
    LineHolds(sg, a, b);
    if Caller(sg, c) in Line(sg, a, b) {
      var d: nat :| a <= d < b && Caller(sg, c) == Caller(sg, d);
      CallersDiffer(sg, c, d);
    }
  }

  lemma {:induction false} LineCounts(sg: int, a: nat, b: nat)
    requires a <= b
    ensures |Members(Line(sg, a, b), sg)| == b - a
  {
    if a < b {
      LineCounts(sg, a, b - 1);
      NotInLine(sg, a, b - 1, b - 1);
      assert Members(Line(sg, a, b), sg) == Members(Line(sg, a, b - 1), sg) + {Caller(sg, b - 1)};
    } else {
      assert Members(Line(sg, a, b), sg) == {};
    }
  }

  lemma FirstIsHead(sg: int, a: nat, b: nat)
    requires a < b
    ensures IsHead(Line(sg, a, b), Caller(sg, a)) && Line(sg, a, b)[Caller(sg, a)] == Place(a)
  {
    LineHolds(sg, a, b);
    var q := Line(sg, a, b);
    forall e | e in q && e.sg == sg && e != Caller(sg, a)
      ensures Before(q, Caller(sg, a), e)
    {
      var c: nat :| a <= c < b && e == Caller(sg, c);
      assert Place(a) < Place(c);
    }
  }

  // A line is also extended at its front.
  lemma {:induction false} LineFront(sg: int, a: nat, b: nat)
    requires a < b
    ensures Line(sg, a, b) == Line(sg, a + 1, b)[Caller(sg, a) := Place(a)]
    ensures Line(sg, a, b) - {Caller(sg, a)} == Line(sg, a + 1, b)
  {
    if a + 1 < b {
      LineFront(sg, a, b - 1);
      if Caller(sg, a) == Caller(sg, b - 1) {
        CallersDiffer(sg, a, b - 1);
      }
    } else {
      assert Line(sg, a, a) == map[] == Line(sg, b, b);
    }
    NotInLine(sg, a + 1, b, a);
  }

  // ---------------------------------------------------------------------------
  // Two operations, each without a break
  // ---------------------------------------------------------------------------

  function Failing(w: int, e: Entry, agent: int): seq<Action> {
    [Read(w, e, agent)] + [TryClaim(w, true)] + [Remove(w, true)] + [Ring(w, false)] + [Release(w, true)]
  }

  lemma FailingStages(p: Acd, w: int, e: Entry, agent: int)
    requires w !in p.workers && e in p.queue && agent !in p.claims
    ensures var p1 := Put(p, w, Chose(e, p.queue[e], agent));
      var p2 := ClaimStep(p1, w, true);
      && p2.workers[w] == Claimed(e, p.queue[e], agent, p.now)
      && var p3 := RemoveStep(p2, w, true);
         && p3.workers[w] == Removed(e, p.queue[e], agent, p.now)
         && var p4 := RingStep(p3, w, false);
            && p4.workers[w] == Failed(e, p.queue[e], agent, p.now)
            && ReleaseStep(p4, w, true) == Put(p, w, Requeuing(e, p.queue[e])).(queue := p.queue - {e})
  {
    assert p.claims[agent := p.now + CLAIM_TTL] - {agent} == p.claims;
  }

  // A dispatch whose call cannot ring takes the call out, and leaves it to be put back.
  lemma FailedDispatch(s: Setup, p: Acd, w: int, e: Entry, agent: int)
    requires Free(s, p, w) && IsHead(p.queue, e) && !Malformed(e) && agent != 0 && agent !in p.claims
    ensures Run(s, p, Failing(w, e, agent)) == Put(p, w, Requeuing(e, p.queue[e])).(queue := p.queue - {e})
    ensures Unbroken(Failing(w, e, agent))
  {
    AcdDispatcher.ReadIs(s, p, w, e, agent);
    FailingStages(p, w, e, agent);
    var p1 := Put(p, w, Chose(e, p.queue[e], agent));
    var p2 := ClaimStep(p1, w, true);
    var p3 := RemoveStep(p2, w, true);
    var p4 := RingStep(p3, w, false);
    AcdDispatcher.StepIs(s, p1, w, true);
    AcdDispatcher.StepIs(s, p2, w, true);
    AcdDispatcher.StepIs(s, p3, w, false);
    AcdDispatcher.StepIs(s, p4, w, true);
    var a := [Read(w, e, agent)];
    WithoutChecks(Failing(w, e, agent));
    hide Unbroken, Step, IsHead, Malformed, ClaimStep, RemoveStep, RingStep, ReleaseStep, Put;
    RunOne(s, p, Read(w, e, agent));
    hide Run;
    RunAppend(s, p, a, TryClaim(w, true));
    RunAppend(s, p, a + [TryClaim(w, true)], Remove(w, true));
    RunAppend(s, p, a + [TryClaim(w, true)] + [Remove(w, true)], Ring(w, false));
    RunAppend(s, p, a + [TryClaim(w, true)] + [Remove(w, true)] + [Ring(w, false)], Release(w, true));
  }

  lemma RunOne(s: Setup, p: Acd, a: Action)
    ensures Run(s, p, [a]) == Step(s, p, a)
  {
    hide Step;
    assert Run(s, Step(s, p, a), []) == Step(s, p, a);
  }

  function Calling(sg: int, c: nat): seq<Action> {
    [Check(0, c, 0 - c, sg)] + [Add(0, 1, true)]
  }

  lemma CallQueued(s: Setup, p: Acd, sg: int, c: nat)
    requires Free(s, p, 0) && !Full(s.groups, p.queue, sg) && p.now >= 1
    ensures Run(s, p, Calling(sg, c))
         == p.(queue := p.queue[Caller(sg, c) := Place(c)], queued := p.queued[Caller(sg, c) := Place(c)])
    ensures Unbroken(Calling(sg, c))
  {
    var p1 := Put(p, 0, Admitted(c, 0 - c, sg));
    assert Step(s, p, Check(0, c, 0 - c, sg)) == p1;
    assert p1.workers - {0} == p.workers;
    assert Step(s, p1, Add(0, 1, true)) == AddStep(p1, 0, 1, true);
    RunOne(s, p, Check(0, c, 0 - c, sg));
    RunAppend(s, p, [Check(0, c, 0 - c, sg)], Add(0, 1, true));
    hide Step, Run, MemberFor, Score, Full;
  }

  // ---------------------------------------------------------------------------
  // The run
  // ---------------------------------------------------------------------------

  // Workers 1 to k each hold a call that they are about to put back.
  function Parked(sg: int, k: nat): map<int, Phase> {
    if k == 0 then map[] else Parked(sg, k - 1)[k := Requeuing(Caller(sg, k - 1), Place(k - 1))]
  }

  lemma {:induction false} ParkedHolds(sg: int, k: nat)
    ensures forall w: int :: w in Parked(sg, k) <==> 1 <= w <= k
  {
    if k > 0 {
      ParkedHolds(sg, k - 1);
    }
  }

  // The first k calls are parked, and m others queue.
  function Crowded(sg: int, now: int, m: nat, k: nat): Acd {
    Acd(now, Line(sg, k, k + m), map[], Parked(sg, k), Line(sg, 0, k + m), Done({}, {}, {}), {}, map[])
  }

  // All but i of k parked calls are back in the queue.
  function Returning(sg: int, now: int, m: nat, k: nat, i: nat): Acd {
    Crowded(sg, now, m, k).(queue := Line(sg, i, k + m), workers := Parked(sg, i))
  }

  lemma LineHasRoom(s: Setup, sg: int, a: nat, b: nat)
    requires sg in s.groups && a <= b && b - a < s.groups[sg].maxQueueSize
    ensures !Full(s.groups, Line(sg, a, b), sg)
  {
    LineCounts(sg, a, b);
  }

  lemma {:induction false} FillUp(s: Setup, sg: int, now: int, m: nat) returns (acts: seq<Action>)
    requires sg in s.groups && m <= s.groups[sg].maxQueueSize && s.workers > 0 && now >= 1
    ensures Run(s, Start(map[], now), acts) == Crowded(sg, now, m, 0) && Unbroken(acts)
  {
    if m == 0 {
      acts := [];
      assert Run(s, Start(map[], now), []) == Start(map[], now);
    } else {
      acts := FillUp(s, sg, now, m - 1);
      LineHasRoom(s, sg, 0, m - 1);
      var p := Crowded(sg, now, m - 1, 0);
      CallQueued(s, p, sg, m - 1);
      assert p.(queue := Line(sg, 0, m), queued := Line(sg, 0, m)) == Crowded(sg, now, m, 0);
      hide *;
      RunConcat(s, Start(map[], now), acts, Calling(sg, m - 1));
      UnbrokenConcat(acts, Calling(sg, m - 1));
      acts := acts + Calling(sg, m - 1);
    }
  }

  lemma OneIsParked(s: Setup, sg: int, now: int, m: nat, k: nat)
    requires m > 0 && k + 1 < s.workers && k < MAX_INT64
    ensures var p := Crowded(sg, now, m, k);
      Run(s, p, Failing(k + 1, Caller(sg, k), k + 1)) == p.(queue := Line(sg, k + 1, k + m), workers := Parked(sg, k + 1))
    ensures Unbroken(Failing(k + 1, Caller(sg, k), k + 1))
  {
    ParkedHolds(sg, k);
    FirstIsHead(sg, k, k + m);
    ParseUndoesMember(k, 1);
    assert !Malformed(Caller(sg, k));
    FailedDispatch(s, Crowded(sg, now, m, k), k + 1, Caller(sg, k), k + 1);
    LineFront(sg, k, k + m);
    hide Run, Failing, Unbroken, IsHead, Malformed, MemberFor;
  }

  lemma RoomIsTaken(s: Setup, sg: int, now: int, m: nat, k: nat)
    requires sg in s.groups && m == s.groups[sg].maxQueueSize > 0 && s.workers > 0 && now >= 1
    ensures var p := Crowded(sg, now, m, k).(queue := Line(sg, k + 1, k + m), workers := Parked(sg, k + 1));
      Run(s, p, Calling(sg, k + m)) == Crowded(sg, now, m, k + 1)
    ensures Unbroken(Calling(sg, k + m))
  {
    ParkedHolds(sg, k + 1);
    LineHasRoom(s, sg, k + 1, k + m);
    CallQueued(s, Crowded(sg, now, m, k).(queue := Line(sg, k + 1, k + m), workers := Parked(sg, k + 1)), sg, k + m);
    hide Run, Calling, Unbroken, Full, MemberFor;
    assert Line(sg, k + 1, k + 1 + m) == Line(sg, k + 1, k + m)[Caller(sg, k + m) := Place(k + m)];
    assert Line(sg, 0, k + 1 + m) == Line(sg, 0, k + m)[Caller(sg, k + m) := Place(k + m)];
  }

  // A failed dispatch and a new call.
  lemma OneMoreParked(s: Setup, sg: int, now: int, m: nat, k: nat) returns (acts: seq<Action>)
    requires sg in s.groups && m == s.groups[sg].maxQueueSize > 0 && k + 1 < s.workers && k < MAX_INT64 && now >= 1
    ensures Run(s, Crowded(sg, now, m, k), acts) == Crowded(sg, now, m, k + 1) && Unbroken(acts)
  {
    hide *;
    OneIsParked(s, sg, now, m, k);
    RoomIsTaken(s, sg, now, m, k);
    RunConcat(s, Crowded(sg, now, m, k), Failing(k + 1, Caller(sg, k), k + 1), Calling(sg, k + m));
    UnbrokenConcat(Failing(k + 1, Caller(sg, k), k + 1), Calling(sg, k + m));
    acts := Failing(k + 1, Caller(sg, k), k + 1) + Calling(sg, k + m);
  }

  lemma {:induction false} ParkAll(s: Setup, sg: int, now: int, k: nat) returns (acts: seq<Action>)
    requires sg in s.groups && s.groups[sg].maxQueueSize > 0 && k < s.workers && k <= MAX_INT64 && now >= 1
    ensures Run(s, Start(map[], now), acts) == Crowded(sg, now, s.groups[sg].maxQueueSize, k) && Unbroken(acts)
  {
    var m := s.groups[sg].maxQueueSize;
    hide *;
    if k == 0 {
      acts := FillUp(s, sg, now, m);
    } else {
      acts := ParkAll(s, sg, now, k - 1);
      var more := OneMoreParked(s, sg, now, m, k - 1);
      RunConcat(s, Start(map[], now), acts, more);
      UnbrokenConcat(acts, more);
      acts := acts + more;
    }
  }

  lemma OneReturns(s: Setup, sg: int, now: int, m: nat, k: nat, i: nat)
    requires 0 < i <= k && m > 0
    ensures Run(s, Returning(sg, now, m, k, i), [Requeue(i, true)]) == Returning(sg, now, m, k, i - 1)
    ensures Unbroken([Requeue(i, true)])
  {
    var p := Returning(sg, now, m, k, i);
    ParkedHolds(sg, i);
    ParkedHolds(sg, i - 1);
    assert p.workers[i] == Requeuing(Caller(sg, i - 1), Place(i - 1));
    AcdDispatcher.StepIs(s, p, i, true);
    LineFront(sg, i - 1, k + m);
    assert Parked(sg, i) - {i} == Parked(sg, i - 1);
    RunOne(s, p, Requeue(i, true));
    assert Unbroken([Requeue(i, true)]);
    hide Step, Run, MemberFor, Unbroken;
  }

  lemma {:induction false} AllReturn(s: Setup, sg: int, now: int, k: nat, i: nat) returns (acts: seq<Action>)
    requires sg in s.groups && s.groups[sg].maxQueueSize > 0 && i <= k < s.workers && k <= MAX_INT64 && now >= 1
    ensures Run(s, Start(map[], now), acts) == Returning(sg, now, s.groups[sg].maxQueueSize, k, i) && Unbroken(acts)
    decreases k - i
  {
    var m := s.groups[sg].maxQueueSize;
    if i == k {
      acts := ParkAll(s, sg, now, k);
    } else {
      hide *;
      acts := AllReturn(s, sg, now, k, i + 1);
      OneReturns(s, sg, now, m, k, i + 1);
      RunConcat(s, Start(map[], now), acts, [Requeue(i + 1, true)]);
      UnbrokenConcat(acts, [Requeue(i + 1, true)]);
      acts := acts + [Requeue(i + 1, true)];
    }
  }

  // A run from empty queues that keeps every check and its add together.
  ghost predicate Reaches(s: Setup, now: int, acts: seq<Action>, sg: int, size: nat) {
    Unbroken(acts) && |Members(Run(s, Start(map[], now), acts).queue, sg)| == size
  }

  /** The bound is met, for every limit and up to every number k of workers besides one: even when each
      enqueuer checks and adds without a break, k failed dispatches can leave k calls more than the limit. */
  lemma LimitIsExceeded(s: Setup, now: int, sg: int, k: nat)
    requires sg in s.groups && s.groups[sg].maxQueueSize > 0 && k < s.workers && k <= MAX_INT64
    ensures var size := s.groups[sg].maxQueueSize + k; exists acts :: Reaches(s, now, acts, sg, size)
  {
    var wait := if now < 1 then 1 - now else 0;
    var later := now + wait;
    var acts := AllReturn(s, sg, later, k, 0);
    LineCounts(sg, 0, k + s.groups[sg].maxQueueSize);
    assert Step(s, Start(map[], now), Tick(wait)) == Start(map[], later) by {
      assert Unlapsed(map[], later) == map[];
    }
    RunOne(s, Start(map[], now), Tick(wait));
    WithoutChecks([Tick(wait)]);
    hide Step, Run, Unbroken;
    RunConcat(s, Start(map[], now), [Tick(wait)], acts);
    UnbrokenConcat([Tick(wait)], acts);
    assert Reaches(s, now, [Tick(wait)] + acts, sg, s.groups[sg].maxQueueSize + k);
  }

  /** The exact condition for a group's limit to hold over every run from empty queues, and over those whose
      checks and adds are unbroken: at most one worker is inside an operation at a time. */
  lemma LimitHoldsIff(s: Setup, now: int, sg: int)
    requires sg in s.groups && s.groups[sg].maxQueueSize > 0
    ensures (forall acts :: |Members(Run(s, Start(map[], now), acts).queue, sg)| <= s.groups[sg].maxQueueSize)
       <==> s.workers <= 1
    ensures (forall acts :: Unbroken(acts) ==>
               |Members(Run(s, Start(map[], now), acts).queue, sg)| <= s.groups[sg].maxQueueSize)
       <==> s.workers <= 1
  {
    if s.workers <= 1 {
      assert Members(map[], sg) == {};
      forall acts
        ensures |Members(Run(s, Start(map[], now), acts).queue, sg)| <= s.groups[sg].maxQueueSize
      {
        QueuesStayBounded(s, map[], now, acts, sg);
      }
    } else {
      LimitIsExceeded(s, now, sg, 1);
      var size := s.groups[sg].maxQueueSize + 1;
      var acts :| Reaches(s, now, acts, sg, size);
      assert Unbroken(acts) && |Members(Run(s, Start(map[], now), acts).queue, sg)| > s.groups[sg].maxQueueSize;
      hide Run, Members, Unbroken;
    }
  }
}
