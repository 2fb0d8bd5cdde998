/** Where the calls of concurrent dispatchers are, with which score, and why they leave. */
module AcdDispatchCalls {
  import opened AcdDispatch
  import opened AcdQueue
  import opened Options
  import opened Sums

  datatype Place = InQueue | InHands(w: int) | Dispatched | Expired | Dropped | Lost

  function Hands(p: Acd, w: int): set<Entry> {
    if w in p.workers then HeldBy(p.workers[w]) else {}
  }

  ghost predicate IsAt(p: Acd, e: Entry, place: Place) {
    match place
    case InQueue => e in p.queue
    case InHands(w) => e in Hands(p, w)
    case Dispatched => e in p.done.dispatched
    case Expired => e in p.done.expired
    case Dropped => e in p.done.dropped
    case Lost => e in p.lost
  }

  ghost predicate Somewhere(p: Acd, e: Entry) {
    exists place :: IsAt(p, e, place)
  }

  ghost predicate Placed(p: Acd) {
    && (forall e, x, y :: IsAt(p, e, x) && IsAt(p, e, y) ==> x == y)
    && (forall e :: e in p.queued ==> Somewhere(p, e))
    && (forall e, x :: IsAt(p, e, x) ==> e in p.queued)
  }

  // The entries that a worker will put back keep the score they were queued with.
  ghost predicate ScoresKept(p: Acd) {
    && (forall e :: e in p.queue ==> e in p.queued && p.queue[e] == p.queued[e])
    && (forall w :: w in p.workers ==> ScoreKept(p.workers[w], p.queued))
  }

  ghost predicate ScoreKept(f: Phase, queued: map<Entry, int>) {
    (f.Chose? || f.Claimed? || f.Removed? || f.Failed? || f.Requeuing?) ==> f.e in queued && f.score == queued[f.e]
  }

  // The step does not queue a member a second time.
  ghost predicate New(p: Acd, a: Action) {
    a.Add? && a.w in p.workers && p.workers[a.w].Admitted? ==> NewEntry(p.workers[a.w], a.ms) !in p.queued
  }

  ghost predicate AllNew(s: Setup, p: Acd, acts: seq<Action>)
    decreases |acts|
  {
    acts == [] || (New(p, acts[0]) && AllNew(s, Step(s, p, acts[0]), acts[1..]))
  }

  ghost predicate SamePlaces(p: Acd, q: Acd) {
    q.queued == p.queued && forall e, x :: IsAt(q, e, x) <==> IsAt(p, e, x)
  }

  // e went to place; nothing else moved.
  ghost predicate Moved(p: Acd, q: Acd, e: Entry, place: Place) {
    forall e', x :: IsAt(q, e', x) <==> (if e' == e then x == place else IsAt(p, e', x))
  }

  lemma MovingKeepsPlaced(p: Acd, q: Acd, e: Entry, place: Place)
    requires Placed(p) && Moved(p, q, e, place) && q.queued.Keys == p.queued.Keys + {e}
    ensures Placed(q)
  {
    assert IsAt(q, e, place);
    forall x | x in q.queued
      ensures Somewhere(q, x)
    {
      if x != e {
        var at :| IsAt(p, x, at);
        assert IsAt(q, x, at);
      }
    }
  }

  lemma StayingKeepsPlaced(p: Acd, q: Acd)
    requires Placed(p) && SamePlaces(p, q)
    ensures Placed(q)
  {
    forall x | x in q.queued
      ensures Somewhere(q, x)
    {
      var at :| IsAt(p, x, at);
      assert IsAt(q, x, at);
    }
  }

  // Steps that move no entry.
  predicate Stays(p: Acd, a: Action) {
    || a.Check? || a.Read? || a.TryClaim? || a.Release? || a.Tick?
    || (a.Add? && !a.ok)
    || (a.Ring? && !a.ok)
    || (a.Remove? && a.w in p.workers && p.workers[a.w].Claimed? && !(a.ok && p.workers[a.w].e in p.queue))
    || (a.Crash? && a.w in p.workers && HeldBy(p.workers[a.w]) == {})
  }

  ghost predicate Unmoved(p: Acd, q: Acd) {
    && q.queue == p.queue && q.queued == p.queued && q.done == p.done && q.lost == p.lost
    && SameHands(p, q)
  }

  ghost predicate SameHands(p: Acd, q: Acd) {
    forall w :: Hands(q, w) == Hands(p, w)
  }

  lemma HandsFrame(p: Acd, q: Acd, w: int)
    requires Others(p, q, w) && Hands(q, w) == Hands(p, w)
    ensures SameHands(p, q)
  {
  }

  lemma ClaimUnmoved(s: Setup, p: Acd, a: Action)
    requires (a.TryClaim? || a.Remove?) && Stays(p, a)
    ensures Unmoved(p, Step(s, p, a))
  {
    var q := Step(s, p, a);
    StepFrame(s, p, a);
    hide Others, SameHands, IsHead, Malformed, Full, Overdue, NewEntry, Score, Unlapsed;
    assert Hands(q, Actor(a)) == Hands(p, Actor(a));
    HandsFrame(p, q, Actor(a));
  }

  lemma ReleaseUnmoved(s: Setup, p: Acd, a: Action)
    requires (a.Ring? || a.Release?) && Stays(p, a)
    ensures Unmoved(p, Step(s, p, a))
  {
    var q := Step(s, p, a);
    StepFrame(s, p, a);
    hide Others, SameHands, IsHead, Malformed, Full, Overdue, NewEntry, Score, Unlapsed;
    assert Hands(q, Actor(a)) == Hands(p, Actor(a));
    HandsFrame(p, q, Actor(a));
  }

  lemma OtherUnmoved(s: Setup, p: Acd, a: Action)
    requires !a.TryClaim? && !a.Remove? && !a.Ring? && !a.Release? && Stays(p, a)
    ensures Unmoved(p, Step(s, p, a))
  {
    var q := Step(s, p, a);
    StepFrame(s, p, a);
    hide Others, SameHands, IsHead, Malformed, Full, Unlapsed, NewEntry, Score;
    assert Hands(q, Actor(a)) == Hands(p, Actor(a));
    HandsFrame(p, q, Actor(a));
  }

  lemma StepUnmoved(s: Setup, p: Acd, a: Action)
    requires Stays(p, a) || Step(s, p, a) == p
    ensures Unmoved(p, Step(s, p, a))
  {
    if Step(s, p, a) != p {
      hide *;
      if a.TryClaim? || a.Remove? {
        ClaimUnmoved(s, p, a);
      } else if a.Ring? || a.Release? {
        ReleaseUnmoved(s, p, a);
      } else {
        OtherUnmoved(s, p, a);
      }
    }
  }

  lemma UnmovedStays(p: Acd, q: Acd)
    requires Unmoved(p, q)
    ensures SamePlaces(p, q)
  {
    hide Hands;
  }

  lemma OnlyThere(p: Acd, e: Entry, at: Place)
    requires Placed(p) && IsAt(p, e, at)
    ensures (e in p.queue <==> at == InQueue) && (e in p.done.dispatched <==> at == Dispatched)
    ensures (e in p.done.expired <==> at == Expired) && (e in p.done.dropped <==> at == Dropped) && (e in p.lost <==> at == Lost)
    ensures forall v :: e in Hands(p, v) <==> at == InHands(v)
    ensures e in p.queued
  {
    hide Somewhere;
    assert e in p.queue <==> IsAt(p, e, InQueue);
    assert e in p.done.dispatched <==> IsAt(p, e, Dispatched);
    assert e in p.done.expired <==> IsAt(p, e, Expired);
    assert e in p.done.dropped <==> IsAt(p, e, Dropped);
    assert e in p.lost <==> IsAt(p, e, Lost);
    assert forall v :: e in Hands(p, v) <==> IsAt(p, e, InHands(v));
  }

  lemma Nowhere(p: Acd, e: Entry)
    requires Placed(p) && e !in p.queued
    ensures e !in p.queue && e !in p.done.dispatched && e !in p.done.expired && e !in p.done.dropped && e !in p.lost
    ensures forall v :: e !in Hands(p, v)
  {
    assert !IsAt(p, e, InQueue) && !IsAt(p, e, Dispatched) && !IsAt(p, e, Expired);
    assert !IsAt(p, e, Dropped) && !IsAt(p, e, Lost);
    assert forall v :: e in Hands(p, v) <==> IsAt(p, e, InHands(v));
  }

  // t is s with e added or taken away.
  ghost predicate Differ(s: set<Entry>, t: set<Entry>, e: Entry, there: bool) {
    t == s - {e} + if there then {e} else {}
  }

  lemma MovedByFields(p: Acd, q: Acd, e: Entry, place: Place, w: int)
    requires Others(p, q, w) && (place.InHands? ==> place.w == w)
    requires forall v :: v != w ==> e !in Hands(p, v)
    requires Differ(Hands(p, w), Hands(q, w), e, place.InHands?)
    requires Differ(p.queue.Keys, q.queue.Keys, e, place.InQueue?)
    requires Differ(p.done.dispatched, q.done.dispatched, e, place.Dispatched?)
    requires Differ(p.done.expired, q.done.expired, e, place.Expired?)
    requires Differ(p.done.dropped, q.done.dropped, e, place.Dropped?)
    requires Differ(p.lost, q.lost, e, place.Lost?)
    ensures Moved(p, q, e, place)
  {
    forall e', x
      ensures IsAt(q, e', x) <==> (if e' == e then x == place else IsAt(p, e', x))
    {
      if x.InHands? && x.w != w {
        assert Hands(q, x.w) == Hands(p, x.w);
      }
    }
  }

  lemma AddMoves(p: Acd, w: int, ms: int)
    requires Placed(p) && w in p.workers && p.workers[w].Admitted? && NewEntry(p.workers[w], ms) !in p.queued
    ensures Moved(p, AddStep(p, w, ms, true), NewEntry(p.workers[w], ms), InQueue)
    ensures AddStep(p, w, ms, true).queued.Keys == p.queued.Keys + {NewEntry(p.workers[w], ms)}
  {
    Nowhere(p, NewEntry(p.workers[w], ms));
    hide Placed, Moved, NewEntry, Score;
    MovedByFields(p, AddStep(p, w, ms, true), NewEntry(p.workers[w], ms), InQueue, w);
  }

  lemma RemoveMoves(p: Acd, w: int)
    requires Placed(p) && w in p.workers && p.workers[w].Claimed? && p.workers[w].e in p.queue
    ensures Moved(p, RemoveStep(p, w, true), p.workers[w].e, InHands(w))
    ensures RemoveStep(p, w, true).queued.Keys == p.queued.Keys + {p.workers[w].e}
  {
    OnlyThere(p, p.workers[w].e, InQueue);
    hide Placed, Moved, NewEntry, Score;
    MovedByFields(p, RemoveStep(p, w, true), p.workers[w].e, InHands(w), w);
  }

  lemma RingMoves(p: Acd, w: int)
    requires Placed(p) && w in p.workers && p.workers[w].Removed?
    ensures Moved(p, RingStep(p, w, true), p.workers[w].e, Dispatched)
    ensures RingStep(p, w, true).queued.Keys == p.queued.Keys + {p.workers[w].e}
  {
    OnlyThere(p, p.workers[w].e, InHands(w));
    hide Placed, Moved, NewEntry, Score;
    MovedByFields(p, RingStep(p, w, true), p.workers[w].e, Dispatched, w);
  }

  lemma RequeueMoves(p: Acd, w: int, ok: bool)
    requires Placed(p) && w in p.workers && p.workers[w].Requeuing?
    ensures Moved(p, RequeueStep(p, w, ok), p.workers[w].e, if ok then InQueue else Lost)
    ensures RequeueStep(p, w, ok).queued.Keys == p.queued.Keys + {p.workers[w].e}
  {
    OnlyThere(p, p.workers[w].e, InHands(w));
    hide Placed, Moved, NewEntry, Score;
    MovedByFields(p, RequeueStep(p, w, ok), p.workers[w].e, if ok then InQueue else Lost, w);
  }

  lemma TakeMoves(p: Acd, w: int, e: Entry)
    requires Placed(p) && w !in p.workers && e in p.queue
    ensures Moved(p, TakeStep(p, w, e), e, InHands(w))
    ensures TakeStep(p, w, e).queued.Keys == p.queued.Keys + {e}
  {
    OnlyThere(p, e, InQueue);
    hide Placed, Moved, NewEntry, Score;
    MovedByFields(p, TakeStep(p, w, e), e, InHands(w), w);
  }

  lemma EndedMoves(p: Acd, w: int)
    requires Placed(p) && w in p.workers && p.workers[w].Expiring?
    ensures Moved(p, EndedStep(p, w), p.workers[w].e, Expired)
    ensures EndedStep(p, w).queued.Keys == p.queued.Keys + {p.workers[w].e}
  {
    OnlyThere(p, p.workers[w].e, InHands(w));
    hide Placed, Moved, NewEntry, Score;
    MovedByFields(p, EndedStep(p, w), p.workers[w].e, Expired, w);
  }

  lemma CrashMoves(p: Acd, w: int)
    requires Placed(p) && w in p.workers && HeldBy(p.workers[w]) != {}
    ensures Moved(p, CrashStep(p, w), p.workers[w].e, Lost)
    ensures CrashStep(p, w).queued.Keys == p.queued.Keys + {p.workers[w].e}
  {
    OnlyThere(p, p.workers[w].e, InHands(w));
    hide Placed, Moved, NewEntry, Score;
    MovedByFields(p, CrashStep(p, w), p.workers[w].e, Lost, w);
  }

  lemma DropMoves(p: Acd, e: Entry)
    requires Placed(p) && e in p.queue
    ensures Moved(p, DropStep(p, e), e, Dropped)
    ensures DropStep(p, e).queued.Keys == p.queued.Keys + {e}
  {
    OnlyThere(p, e, InQueue);
    hide Placed, Moved;
    MovedByFields(p, DropStep(p, e), e, Dropped, -1);
  }

  // Where the other steps move an entry.
  lemma StepMoves(s: Setup, p: Acd, a: Action) returns (e: Entry, place: Place)
    requires Placed(p) && New(p, a) && !Stays(p, a) && Step(s, p, a) != p
    ensures Moved(p, Step(s, p, a), e, place)
    ensures Step(s, p, a).queued.Keys == p.queued.Keys + {e}
  {
    hide IsHead, Malformed, Full, Overdue, Moved, Placed, NewEntry;
    hide AddStep, TakeStep, EndedStep, CrashStep, DropStep, ClaimStep, RemoveStep, RingStep, ReleaseStep, RequeueStep;
    match a {
      case Add(w, ms, ok) => e, place := NewEntry(p.workers[w], ms), InQueue; AddMoves(p, w, ms);
      case Remove(w, ok) => e, place := p.workers[w].e, InHands(w); RemoveMoves(p, w);
      case Ring(w, ok) => e, place := p.workers[w].e, Dispatched; RingMoves(p, w);
      case Requeue(w, ok) => e, place := p.workers[w].e, if ok then InQueue else Lost; RequeueMoves(p, w, ok);
      case Take(w, x, asOf) => e, place := x, InHands(w); TakeMoves(p, w, x);
      case Ended(w) => e, place := p.workers[w].e, Expired; EndedMoves(p, w);
      case Crash(w) => e, place := p.workers[w].e, Lost; CrashMoves(p, w);
      case Drop(x) => e, place := x, Dropped; DropMoves(p, x);
    }
  }

  lemma StepKeepsPlaced(s: Setup, p: Acd, a: Action)
    requires Placed(p) && New(p, a)
    ensures Placed(Step(s, p, a))
  {
    hide *;
    if Stays(p, a) || Step(s, p, a) == p {
      StepUnmoved(s, p, a);
      UnmovedStays(p, Step(s, p, a));
      StayingKeepsPlaced(p, Step(s, p, a));
    } else {
      var e, place := StepMoves(s, p, a);
      MovingKeepsPlaced(p, Step(s, p, a), e, place);
    }
  }

  ghost predicate Extends(p: Acd, q: Acd) {
    forall e :: e in p.queued ==> e in q.queued && q.queued[e] == p.queued[e]
  }

  lemma ScoresAfter(p: Acd, q: Acd, w: int)
    requires ScoresKept(p) && Others(p, q, w) && (w in q.workers ==> ScoreKept(q.workers[w], q.queued))
    requires Extends(p, q)
    requires forall e :: e in q.queue ==>
      (e in p.queue && q.queue[e] == p.queue[e]) || (e in q.queued && q.queue[e] == q.queued[e])
    ensures ScoresKept(q)
  {
  }

  lemma AddKeepsScores(p: Acd, w: int, ms: int, ok: bool)
    requires ScoresKept(p) && New(p, Add(w, ms, ok)) && w in p.workers && p.workers[w].Admitted?
    ensures ScoresKept(AddStep(p, w, ms, ok)) && Extends(p, AddStep(p, w, ms, ok))
  {
    hide NewEntry, Score;
    ScoresAfter(p, AddStep(p, w, ms, ok), w);
  }

  lemma RemoveKeepsScores(p: Acd, w: int, ok: bool)
    requires ScoresKept(p) && w in p.workers && p.workers[w].Claimed?
    ensures ScoresKept(RemoveStep(p, w, ok))
  {
    assert ScoreKept(p.workers[w], p.queued);
    ScoresAfter(p, RemoveStep(p, w, ok), w);
  }

  lemma RequeueKeepsScores(p: Acd, w: int, ok: bool)
    requires ScoresKept(p) && w in p.workers && p.workers[w].Requeuing?
    ensures ScoresKept(RequeueStep(p, w, ok))
  {
    assert ScoreKept(p.workers[w], p.queued);
    ScoresAfter(p, RequeueStep(p, w, ok), w);
  }

  lemma TakeKeepsScores(p: Acd, w: int, e: Entry)
    requires ScoresKept(p)
    ensures ScoresKept(TakeStep(p, w, e))
  {
    ScoresAfter(p, TakeStep(p, w, e), w);
  }

  lemma DropKeepsScores(s: Setup, p: Acd, e: Entry)
    requires ScoresKept(p)
    ensures ScoresKept(Step(s, p, Drop(e)))
  {
  }

  lemma OthersKeepScores(s: Setup, p: Acd, a: Action)
    requires ScoresKept(p) && !TouchesQueue(a)
    ensures ScoresKept(Step(s, p, a))
  {
    var q := Step(s, p, a);
    StepFrame(s, p, a);
    QueueUntouched(s, p, a);
    QueuedUntouched(s, p, a);
    if Dispatching(a) {
      DispatchKeepsScore(s, p, a);
    } else {
      OtherKeepsScore(s, p, a);
    }
    hide Step, ScoreKept, ScoresKept, Others;
    SameQueueScores(p, q, Actor(a));
  }

  lemma QueuedUntouched(s: Setup, p: Acd, a: Action)
    requires !TouchesQueue(a)
    ensures Step(s, p, a).queued == p.queued
  {
    hide IsHead, Malformed, Full, Overdue, NewEntry, Score, HeldBy, Unlapsed;
  }

  lemma DispatchKeepsScore(s: Setup, p: Acd, a: Action)
    requires ScoresKept(p) && !TouchesQueue(a) && Dispatching(a)
    ensures var q := Step(s, p, a); Actor(a) in q.workers ==> ScoreKept(q.workers[Actor(a)], q.queued)
  {
    assert Actor(a) in p.workers ==> ScoreKept(p.workers[Actor(a)], p.queued);
    hide ScoresKept, IsHead, Malformed, Full, Overdue, NewEntry, Score, HeldBy, Unlapsed;
  }

  lemma OtherKeepsScore(s: Setup, p: Acd, a: Action)
    requires ScoresKept(p) && !TouchesQueue(a) && !Dispatching(a)
    ensures var q := Step(s, p, a); Actor(a) in q.workers ==> ScoreKept(q.workers[Actor(a)], q.queued)
  {
    assert Actor(a) in p.workers ==> ScoreKept(p.workers[Actor(a)], p.queued);
    assert a.Read? && IsHead(p.queue, a.e) ==> a.e in p.queued && p.queue[a.e] == p.queued[a.e];
    hide IsHead, Malformed, Full, HeldBy, Unlapsed, ScoresKept;
  }

  lemma SameQueueScores(p: Acd, q: Acd, w: int)
    requires ScoresKept(p) && Others(p, q, w) && (w in q.workers ==> ScoreKept(q.workers[w], q.queued))
    requires q.queue == p.queue && q.queued == p.queued
    ensures ScoresKept(q)
  {
    ScoresAfter(p, q, w);
  }

  lemma StepKeepsScores(s: Setup, p: Acd, a: Action)
    requires ScoresKept(p) && New(p, a)
    ensures ScoresKept(Step(s, p, a)) && Extends(p, Step(s, p, a))
  {
    StepExtends(s, p, a);
    hide ScoresKept, Extends, New, Malformed, Overdue, IsHead, Full;
    hide AddStep, ClaimStep, RemoveStep, RingStep, ReleaseStep, RequeueStep, TakeStep, EndedStep, CrashStep;
    if !TouchesQueue(a) {
      OthersKeepScores(s, p, a);
    } else if Step(s, p, a) != p {
      match a {
        case Add(w, ms, ok) => AddKeepsScores(p, w, ms, ok);
        case Remove(w, ok) => RemoveKeepsScores(p, w, ok);
        case Requeue(w, ok) => RequeueKeepsScores(p, w, ok);
        case Take(w, e, asOf) => TakeKeepsScores(p, w, e);
        case Drop(e) => DropKeepsScores(s, p, e);
      }
    }
  }

  lemma StepExtends(s: Setup, p: Acd, a: Action)
    requires New(p, a)
    ensures Extends(p, Step(s, p, a))
  {
    hide IsHead, Malformed, Full, Overdue, NewEntry, Score, HeldBy, Unlapsed;
  }

  lemma {:induction false} RunKeepsPlaced(s: Setup, p: Acd, acts: seq<Action>)
    requires Placed(p) && ScoresKept(p) && AllNew(s, p, acts)
    ensures Placed(Run(s, p, acts)) && ScoresKept(Run(s, p, acts)) && Extends(p, Run(s, p, acts))
    decreases |acts|
  {
    if acts != [] {
      hide Step, Placed, ScoresKept, IsAt;
      StepKeepsPlaced(s, p, acts[0]);
      StepKeepsScores(s, p, acts[0]);
      RunKeepsPlaced(s, Step(s, p, acts[0]), acts[1..]);
    }
  }

  lemma StartIsPlaced(queue: Queues, now: int)
    ensures Placed(Start(queue, now)) && ScoresKept(Start(queue, now))
  {
    var p := Start(queue, now);
    forall e | e in p.queued
      ensures Somewhere(p, e)
    {
      assert IsAt(p, e, InQueue);
    }
  }

  /** Whatever the interleaving, from any stored queues: each member queued once is in exactly one place (the
      queue, one worker's hands, dispatched, expired, dropped, lost), and whenever it is in the queue, also
      after a failed ring, it stands there with the score it was first given. */
  lemma EveryCallIsInOnePlace(s: Setup, queue: Queues, now: int, acts: seq<Action>)
    requires AllNew(s, Start(queue, now), acts)
    ensures var q := Run(s, Start(queue, now), acts);
      && (forall e :: e in q.queued ==> exists x :: IsAt(q, e, x) && forall y :: IsAt(q, e, y) ==> y == x)
      && (forall e :: e in q.queue ==> e in q.queued && q.queue[e] == q.queued[e])
      && (forall e :: e in queue ==> e in q.queued && q.queued[e] == queue[e])
  {
    StartIsPlaced(queue, now);
    RunKeepsPlaced(s, Start(queue, now), acts);
    var q := Run(s, Start(queue, now), acts);
    hide Run, IsAt;
    forall e | e in q.queued
      ensures exists x :: IsAt(q, e, x) && forall y :: IsAt(q, e, y) ==> y == x
    {
      assert Somewhere(q, e);
      var x :| IsAt(q, e, x);
    }
  }

  // A step that can lose a call: a failed write of a call being put back, or the end of a worker's process.
  predicate Careful(a: Action) {
    !a.Crash? && (a.Requeue? ==> a.ok)
  }

  // ---------------------------------------------------------------------------
  // Calls leave for the right reason
  // ---------------------------------------------------------------------------

  ghost predicate Justified(s: Setup, p: Acd) {
    && (forall e :: e in p.done.dropped ==> Malformed(e))
    && (forall e :: e in p.done.dispatched ==> !Malformed(e))
    && (forall e :: e in p.done.expired ==> Overdue(s.groups, e, p.now))
    && (forall w :: w in p.workers ==> Rightful(s, p.workers[w], p.now))
  }

  ghost predicate Rightful(s: Setup, f: Phase, now: int) {
    && ((f.Chose? || f.Claimed? || f.Removed? || f.Failed? || f.Requeuing?) ==> !Malformed(f.e))
    && (f.Expiring? ==> Overdue(s.groups, f.e, now))
  }

  lemma OverdueLater(groups: Groups, e: Entry, asOf: int, now: int)
    requires Overdue(groups, e, asOf) && asOf <= now
    ensures Overdue(groups, e, now)
  {
  }

  lemma TickKeepsJustified(s: Setup, p: Acd, elapsed: nat)
    requires Justified(s, p)
    ensures Justified(s, Step(s, p, Tick(elapsed)))
  {
    var q := Step(s, p, Tick(elapsed));
    assert q.workers == p.workers && q.now == p.now + elapsed;
    assert q.done == p.done;
    hide Step, Malformed, Overdue;
    forall e | Overdue(s.groups, e, p.now)
      ensures Overdue(s.groups, e, q.now)
    {
      OverdueLater(s.groups, e, p.now, q.now);
    }
  }

  lemma JustifiedAfter(s: Setup, p: Acd, q: Acd, w: int)
    requires Justified(s, p) && Others(p, q, w) && q.now == p.now && (w in q.workers ==> Rightful(s, q.workers[w], q.now))
    requires forall e :: e in q.done.dropped ==> e in p.done.dropped || Malformed(e)
    requires forall e :: e in q.done.dispatched ==> e in p.done.dispatched || !Malformed(e)
    requires forall e :: e in q.done.expired ==> e in p.done.expired || Overdue(s.groups, e, p.now)
    ensures Justified(s, q)
  {
    hide Malformed, Overdue, Rightful;
  }

  predicate Settles(a: Action) {
    a.Ring? || a.Ended? || a.Drop?
  }

  lemma RingKeepsJustified(s: Setup, p: Acd, w: int, ok: bool)
    requires Justified(s, p) && w in p.workers && p.workers[w].Removed?
    ensures Justified(s, RingStep(p, w, ok))
  {
    assert Rightful(s, p.workers[w], p.now);
    hide Malformed, Overdue, Justified;
    JustifiedAfter(s, p, RingStep(p, w, ok), w);
  }

  lemma EndedKeepsJustified(s: Setup, p: Acd, w: int)
    requires Justified(s, p) && w in p.workers && p.workers[w].Expiring?
    ensures Justified(s, EndedStep(p, w))
  {
    assert Rightful(s, p.workers[w], p.now);
    hide Malformed, Overdue, Justified;
    JustifiedAfter(s, p, EndedStep(p, w), w);
  }

  lemma DropKeepsJustified(s: Setup, p: Acd, e: Entry)
    requires Justified(s, p) && Malformed(e)
    ensures Justified(s, DropStep(p, e))
  {
    hide Malformed, Overdue;
  }

  lemma SettlingKeepsJustified(s: Setup, p: Acd, a: Action)
    requires Justified(s, p) && Settles(a)
    ensures Justified(s, Step(s, p, a))
  {
    hide Malformed, Justified, IsHead, Full, Overdue;
    hide AddStep, ClaimStep, RemoveStep, RingStep, ReleaseStep, RequeueStep, TakeStep, EndedStep, CrashStep, DropStep;
    if Step(s, p, a) != p {
      match a {
        case Ring(w, ok) => RingKeepsJustified(s, p, w, ok);
        case Ended(w) => EndedKeepsJustified(s, p, w);
        case Drop(e) => DropKeepsJustified(s, p, e);
      }
    }
  }

  lemma StepKeepsJustified(s: Setup, p: Acd, a: Action)
    requires Justified(s, p)
    ensures Justified(s, Step(s, p, a))
  {
    if a.Tick? {
      TickKeepsJustified(s, p, a.elapsed);
    } else if Settles(a) {
      SettlingKeepsJustified(s, p, a);
    } else {
      OthersKeepJustified(s, p, a);
    }
  }

  lemma OthersKeepJustified(s: Setup, p: Acd, a: Action)
    requires Justified(s, p) && !a.Tick? && !Settles(a)
    ensures Justified(s, Step(s, p, a))
  {
    var q := Step(s, p, a);
    StepFrame(s, p, a);
    NothingSettles(s, p, a);
    if Dispatching(a) {
      DispatchStaysRightful(s, p, a);
    } else {
      OtherStaysRightful(s, p, a);
    }
    hide Step, Justified, Others, Rightful;
    JustifiedAfter(s, p, q, Actor(a));
  }

  lemma NothingSettles(s: Setup, p: Acd, a: Action)
    requires !a.Tick? && !Settles(a)
    ensures var q := Step(s, p, a);
      q.now == p.now && q.done == p.done
  {
    hide IsHead, Malformed, Full, Overdue, NewEntry, Score, HeldBy, Unlapsed;
    if Dispatching(a) {
      hide AddStep, TakeStep, CrashStep;
      match a {
        case TryClaim(w, ok) =>
        case Remove(w, ok) =>
        case Release(w, ok) =>
        case Requeue(w, ok) =>
      }
    }
  }

  lemma DispatchStaysRightful(s: Setup, p: Acd, a: Action)
    requires Justified(s, p) && Dispatching(a)
    ensures var q := Step(s, p, a); Actor(a) in q.workers ==> Rightful(s, q.workers[Actor(a)], q.now)
  {
    assert Actor(a) in p.workers ==> Rightful(s, p.workers[Actor(a)], p.now);
    hide Justified, Rightful;
    if a.TryClaim? || a.Remove? {
      hide Step;
      ClaimingStaysRightful(s, p, a);
    } else {
      hide Step;
      ReleasingStaysRightful(s, p, a);
    }
  }

  lemma ClaimingStaysRightful(s: Setup, p: Acd, a: Action)
    requires (a.TryClaim? || a.Remove?) && (a.w in p.workers ==> Rightful(s, p.workers[a.w], p.now))
    ensures var q := Step(s, p, a); a.w in q.workers ==> Rightful(s, q.workers[a.w], q.now)
  {
    hide IsHead, Malformed, Full, Overdue, NewEntry, Score, HeldBy, Unlapsed;
  }

  lemma ReleasingStaysRightful(s: Setup, p: Acd, a: Action)
    requires (a.Ring? || a.Release? || a.Requeue?) && (a.w in p.workers ==> Rightful(s, p.workers[a.w], p.now))
    ensures var q := Step(s, p, a); a.w in q.workers ==> Rightful(s, q.workers[a.w], q.now)
  {
    hide IsHead, Malformed, Full, Overdue, NewEntry, Score, HeldBy, Unlapsed;
  }

  lemma OtherStaysRightful(s: Setup, p: Acd, a: Action)
    requires Justified(s, p) && !Dispatching(a) && !a.Tick?
    ensures var q := Step(s, p, a); Actor(a) in q.workers ==> Rightful(s, q.workers[Actor(a)], q.now)
  {
    assert Actor(a) in p.workers ==> Rightful(s, p.workers[Actor(a)], p.now);
    if a.Take? && a.asOf <= p.now && Overdue(s.groups, a.e, a.asOf) {
      OverdueLater(s.groups, a.e, a.asOf, p.now);
    }
    hide Justified, Malformed, Overdue, IsHead, Full, NewEntry, Score, HeldBy;
  }

  lemma StepLosesNone(s: Setup, p: Acd, a: Action)
    requires Careful(a)
    ensures Step(s, p, a).lost == p.lost
  {
    hide IsHead, Malformed, Full, Overdue, NewEntry, Unlapsed, Score;
  }

  lemma {:induction false} RunKeepsJustified(s: Setup, p: Acd, acts: seq<Action>)
    requires Justified(s, p)
    ensures Justified(s, Run(s, p, acts))
    ensures (forall i :: 0 <= i < |acts| ==> Careful(acts[i])) ==> Run(s, p, acts).lost == p.lost
    decreases |acts|
  {
    if acts != [] {
      hide Step, Justified;
      StepKeepsJustified(s, p, acts[0]);
      RunKeepsJustified(s, Step(s, p, acts[0]), acts[1..]);
      if forall i :: 0 <= i < |acts| ==> Careful(acts[i]) {
        StepLosesNone(s, p, acts[0]);
        assert forall i :: 0 <= i < |acts[1..]| ==> acts[1..][i] == acts[i + 1];
      }
    }
  }

  /** Only members that do not parse are dropped, and they are never dispatched; a call expires only after the
      whole limit of its group, in seconds, since the time its member shows; and no call is lost while requeuing
      succeeds and no worker crashes. */
  lemma CallsLeaveForCause(s: Setup, queue: Queues, now: int, acts: seq<Action>)
    ensures var q := Run(s, Start(queue, now), acts);
      && (forall e :: e in q.done.dropped ==> !ParseMember(e.member).ok)
      && (forall e :: e in q.done.dispatched ==> ParseMember(e.member).ok)
      && (forall e :: e in q.done.expired ==>
            && e.sg in s.groups && s.groups[e.sg].maxWaitSec > 0
            && ParseMember(e.member).ok && ParseMember(e.member).ms != 0
            && q.now - ParseMember(e.member).ms >= s.groups[e.sg].maxWaitSec * 1000)
      && ((forall i :: 0 <= i < |acts| ==> !acts[i].Crash? && (acts[i].Requeue? ==> acts[i].ok)) ==> q.lost == {})
  {
    assert Justified(s, Start(queue, now));
    RunKeepsJustified(s, Start(queue, now), acts);
    hide Run, ParseMember;
  }
}
