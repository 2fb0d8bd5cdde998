/** The size of a bounded group's queue under concurrent enqueuers and dispatchers. */
module AcdDispatchRoom {
  import opened AcdDispatch
  import opened AcdQueue
  import opened Options
  import opened Sums

  predicate MayAdd(f: Phase, sg: int) {
    || (f.Admitted? && f.sg == sg)
    || ((f.Removed? || f.Failed? || f.Requeuing?) && f.e.sg == sg)
  }

  // Workers that may yet add a member to the group's queue.
  ghost function Adders(workers: map<int, Phase>, sg: int): set<int> {
    set w | w in workers && MayAdd(workers[w], sg)
  }

  ghost predicate Numbered(s: Setup, p: Acd) {
    p.workers.Keys <= Upto(0, s.workers)
  }

  ghost function Load(p: Acd, sg: int): int {
    |Members(p.queue, sg)| + |Adders(p.workers, sg)|
  }

  // Workers besides one.
  function Spare(s: Setup): nat {
    if s.workers == 0 then 0 else s.workers - 1
  }

  ghost predicate WithinRoom(s: Setup, p: Acd, sg: int) {
    sg in s.groups && s.groups[sg].maxQueueSize > 0 ==> Load(p, sg) <= s.groups[sg].maxQueueSize + Spare(s)
  }

  function One(b: bool): int {
    if b then 1 else 0
  }

  lemma AddersFrame(p: Acd, q: Acd, w: int, sg: int)
    requires Others(p, q, w)
    ensures |Adders(q.workers, sg)| ==
            |Adders(p.workers, sg)| - One(w in p.workers && MayAdd(p.workers[w], sg))
            + One(w in q.workers && MayAdd(q.workers[w], sg))
  {
    hide MayAdd;
    var a, b := Adders(p.workers, sg), Adders(q.workers, sg);
    forall v
      ensures v in a - {w} <==> v in b - {w}
    {
      assert v != w ==> (v in q.workers <==> v in p.workers);
    }
    assert a - {w} == b - {w};
    hide Others;
    CountWithout(a, w);
    CountWithout(b, w);
  }

  lemma MembersPlus(queue: Queues, e: Entry, score: int, sg: int)
    ensures |Members(queue[e := score], sg)| <= |Members(queue, sg)| + One(e.sg == sg)
  {
    var a, b := Members(queue, sg), Members(queue[e := score], sg);
    assert b == if e.sg == sg then a + {e} else a;
  }

  lemma MembersMinus(queue: Queues, e: Entry, sg: int)
    requires e in queue
    ensures |Members(queue - {e}, sg)| == |Members(queue, sg)| - One(e.sg == sg)
  {
    var a, b := Members(queue, sg), Members(queue - {e}, sg);
    assert b == a - {e};
  }

  // A step that changes no queue: no worker becomes an adder.
  ghost predicate NoNewAdder(p: Acd, q: Acd, w: int, sg: int) {
    w in q.workers && MayAdd(q.workers[w], sg) ==> w in p.workers && MayAdd(p.workers[w], sg)
  }

  lemma DispatchAddsNone(s: Setup, p: Acd, a: Action, sg: int)
    requires a.TryClaim? || a.Ring? || a.Release?
    ensures NoNewAdder(p, Step(s, p, a), a.w, sg)
  {
    hide IsHead, Malformed, Full, Overdue, NewEntry, Score, HeldBy, Unlapsed;
  }

  lemma OtherAddsNone(s: Setup, p: Acd, a: Action, sg: int)
    requires !TouchesQueue(a) && !a.Check? && !Dispatching(a)
    ensures NoNewAdder(p, Step(s, p, a), Actor(a), sg)
  {
    hide IsHead, Malformed, Full, Overdue, NewEntry, Score, HeldBy, Unlapsed;
  }

  lemma OthersAddNoLoad(s: Setup, p: Acd, a: Action, sg: int)
    requires !TouchesQueue(a) && !a.Check?
    ensures Load(Step(s, p, a), sg) <= Load(p, sg)
  {
    if Dispatching(a) {
      DispatchAddsNone(s, p, a, sg);
    } else {
      OtherAddsNone(s, p, a, sg);
    }
    QueueUntouched(s, p, a);
    StepFrame(s, p, a);
    hide Step, MayAdd, Others;
    AddersFrame(p, Step(s, p, a), Actor(a), sg);
  }

  lemma AddLoad(p: Acd, w: int, ms: int, ok: bool, sg: int)
    requires w in p.workers && p.workers[w].Admitted?
    ensures Load(AddStep(p, w, ms, ok), sg) <= Load(p, sg)
  {
    var f := p.workers[w];
    AddersFrame(p, AddStep(p, w, ms, ok), w, sg);
    MembersPlus(p.queue, NewEntry(f, ms), Score(f.priority, ms), sg);
    hide Members, Adders, Score, MemberFor;
  }

  lemma RemoveLoad(p: Acd, w: int, ok: bool, sg: int)
    requires w in p.workers && p.workers[w].Claimed?
    ensures Load(RemoveStep(p, w, ok), sg) <= Load(p, sg)
  {
    AddersFrame(p, RemoveStep(p, w, ok), w, sg);
    if p.workers[w].e in p.queue {
      MembersMinus(p.queue, p.workers[w].e, sg);
    }
    hide Members, Adders;
  }

  lemma RequeueLoad(p: Acd, w: int, ok: bool, sg: int)
    requires w in p.workers && p.workers[w].Requeuing?
    ensures Load(RequeueStep(p, w, ok), sg) <= Load(p, sg)
  {
    AddersFrame(p, RequeueStep(p, w, ok), w, sg);
    MembersPlus(p.queue, p.workers[w].e, p.workers[w].score, sg);
    hide Members, Adders;
  }

  lemma TakeLoad(p: Acd, w: int, e: Entry, sg: int)
    requires w !in p.workers && e in p.queue
    ensures Load(TakeStep(p, w, e), sg) <= Load(p, sg)
  {
    AddersFrame(p, TakeStep(p, w, e), w, sg);
    MembersMinus(p.queue, e, sg);
    hide Members, Adders;
  }

  lemma DropLoad(p: Acd, e: Entry, sg: int)
    requires e in p.queue
    ensures Load(DropStep(p, e), sg) <= Load(p, sg)
  {
    MembersMinus(p.queue, e, sg);
  }

  // Only finding room can raise the number of calls in the queue or on their way into it.
  lemma OnlyCheckAddsLoad(s: Setup, p: Acd, a: Action, sg: int)
    requires !a.Check?
    ensures Load(Step(s, p, a), sg) <= Load(p, sg)
  {
    hide IsHead, Malformed, Full, Overdue, Load;
    hide AddStep, ClaimStep, RemoveStep, RingStep, ReleaseStep, RequeueStep, TakeStep, EndedStep, CrashStep, DropStep;
    if !TouchesQueue(a) {
      OthersAddNoLoad(s, p, a, sg);
    } else if Step(s, p, a) != p {
      match a {
        case Add(w, ms, ok) => AddLoad(p, w, ms, ok, sg);
        case Remove(w, ok) => RemoveLoad(p, w, ok, sg);
        case Requeue(w, ok) => RequeueLoad(p, w, ok, sg);
        case Take(w, e, asOf) => TakeLoad(p, w, e, sg);
        case Drop(e) => DropLoad(p, e, sg);
      }
    }
  }

  lemma StepKeepsNumbers(s: Setup, p: Acd, a: Action)
    requires Numbered(s, p)
    ensures Numbered(s, Step(s, p, a))
  {
    StepFrame(s, p, a);
    hide IsHead, Malformed, Full, Overdue, NewEntry, Score, HeldBy, Unlapsed;
    assert Actor(a) in Step(s, p, a).workers ==> Actor(a) in p.workers || 0 <= Actor(a) < s.workers;
    hide Step;
  }

  lemma AddersAreFew(s: Setup, p: Acd, sg: int)
    requires Numbered(s, p)
    ensures |Adders(p.workers, sg)| <= s.workers
  {
    var all, few := Upto(0, s.workers), Adders(p.workers, sg);
    assert few + (all - few) == all;
  }

  lemma CheckKeepsRoom(s: Setup, p: Acd, a: Action, sg: int)
    requires a.Check? && Numbered(s, p) && WithinRoom(s, p, sg)
    ensures WithinRoom(s, Step(s, p, a), sg)
  {
    var q := Step(s, p, a);
    StepKeepsNumbers(s, p, a);
    AddersAreFew(s, q, sg);
    StepFrame(s, p, a);
    AddersFrame(p, q, a.w, sg);
    hide Members, Adders;
  }

  lemma {:induction false} RunKeepsRoom(s: Setup, p: Acd, acts: seq<Action>, sg: int)
    requires Numbered(s, p) && WithinRoom(s, p, sg)
    ensures Numbered(s, Run(s, p, acts)) && WithinRoom(s, Run(s, p, acts), sg)
    decreases |acts|
  {
    if acts != [] {
      StepKeepsNumbers(s, p, acts[0]);
      if acts[0].Check? {
        CheckKeepsRoom(s, p, acts[0], sg);
      } else {
        OnlyCheckAddsLoad(s, p, acts[0], sg);
      }
      RunKeepsRoom(s, Step(s, p, acts[0]), acts[1..], sg);
    }
  }

  /** However many enqueuers and dispatchers interleave, a bounded group that starts within its limit never
      holds more calls than its limit and one less than the workers: with one enqueuer at a time and k
      dispatchers, its limit + k. */
  lemma QueuesStayBounded(s: Setup, queue: Queues, now: int, acts: seq<Action>, sg: int)
    requires sg in s.groups && s.groups[sg].maxQueueSize > 0 && |Members(queue, sg)| <= s.groups[sg].maxQueueSize
    ensures |Members(Run(s, Start(queue, now), acts).queue, sg)| <= s.groups[sg].maxQueueSize + Spare(s)
  {
    assert Adders(map[], sg) == {};
    RunKeepsRoom(s, Start(queue, now), acts, sg);
  }
}
