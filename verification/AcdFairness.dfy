/** The call a dispatcher picks, over every run: what each queued call was given, and who is served first. */
module AcdFairness {
  import opened AcdDispatch
  import opened AcdDispatchCalls
  import opened AcdQueue
  import opened Options

  // Each successful Add issues a ticket.
  function Issue(p: Acd, a: Action, tickets: map<Entry, Ticket>): map<Entry, Ticket> {
    if a.Add? && a.ok && a.w in p.workers && p.workers[a.w].Admitted? && 0 < a.ms <= p.now
    then tickets[Entry(p.workers[a.w].sg, MemberFor(p.workers[a.w].callId, a.ms)) := Ticket(p.workers[a.w].priority, a.ms)]
    else tickets
  }

  // The tickets of all calls ever queued in the run.
  ghost function Issued(s: Setup, p: Acd, acts: seq<Action>, tickets: map<Entry, Ticket>): map<Entry, Ticket>
    decreases |acts|
  {
    if acts == [] then tickets else Issued(s, Step(s, p, acts[0]), acts[1..], Issue(p, acts[0], tickets))
  }

  lemma IssueKeepsTickets(s: Setup, p: Acd, a: Action, tickets: map<Entry, Ticket>)
    requires Ticketed(p.queued, tickets)
    ensures Ticketed(Step(s, p, a).queued, Issue(p, a, tickets))
  {
    if !TouchesQueue(a) {
      QueuedUntouched(s, p, a);
      hide Step;
    }
    hide IsHead, Malformed, Full, Overdue, NewEntry, Score, HeldBy, Unlapsed;
  }

  lemma {:induction false} RunKeepsTickets(s: Setup, p: Acd, acts: seq<Action>, tickets: map<Entry, Ticket>)
    requires Ticketed(p.queued, tickets)
    ensures Ticketed(Run(s, p, acts).queued, Issued(s, p, acts, tickets))
    decreases |acts|
  {
    if acts != [] {
      hide Step, Ticketed, Issue;
      IssueKeepsTickets(s, p, acts[0], tickets);
      RunKeepsTickets(s, Step(s, p, acts[0]), acts[1..], Issue(p, acts[0], tickets));
    }
  }

  // The sorted set of one group, and the tickets of its members.
  function Lane(queues: Queues, sg: int): Queues {
    map e | e in queues && e.sg == sg :: queues[e]
  }

  function Waiting(queues: Queues, tickets: map<Entry, Ticket>, sg: int): map<Entry, Ticket>
    requires Ticketed(queues, tickets)
  {
    map e | e in queues && e.sg == sg :: tickets[e]
  }

  lemma LaneHead(queues: Queues, tickets: map<Entry, Ticket>, h: Entry)
    requires Ticketed(queues, tickets) && IsHead(queues, h)
    ensures IsHead(Lane(queues, h.sg), h) && QueueOf(Lane(queues, h.sg), Waiting(queues, tickets, h.sg), h.sg)
  {
    assert forall e :: e in queues && e.sg == h.sg && e != h ==> Before(queues, h, e);
    hide Score;
  }

  lemma Reached(s: Setup, queue: Queues, now: int, acts: seq<Action>, tickets: map<Entry, Ticket>)
    requires Ticketed(queue, tickets) && AllNew(s, Start(queue, now), acts)
    ensures Ticketed(Run(s, Start(queue, now), acts).queue, Issued(s, Start(queue, now), acts, tickets))
  {
    EveryCallIsInOnePlace(s, queue, now, acts);
    RunKeepsTickets(s, Start(queue, now), acts, tickets);
    hide Run, AllNew, Score;
  }

  /** Whatever the interleaving, a dispatcher that picks a call in a reachable state picks one of the highest
      priority in its group and, among those, the one queued first, provided that the calls waiting there were
      queued in time. The priorities and times are those the calls were queued with, also for calls that a
      failed ring put back. */
  lemma PickedCallIsFairest(s: Setup, queue: Queues, now: int, acts: seq<Action>, tickets: map<Entry, Ticket>,
                            w: int, e: Entry, agent: int)
    requires Ticketed(queue, tickets) && AllNew(s, Start(queue, now), acts)
    ensures var q, t := Run(s, Start(queue, now), acts), Issued(s, Start(queue, now), acts, tickets);
      && Ticketed(q.queue, t)
      && (Step(s, q, Read(w, e, agent)) != q && InTime(Waiting(q.queue, t, e.sg), e.sg) ==>
            forall x :: x in q.queue && x.sg == e.sg ==>
              && t[x].priority <= t[e].priority
              && (t[x].priority == t[e].priority ==> t[e].ms <= t[x].ms))
  {
    var q, t := Run(s, Start(queue, now), acts), Issued(s, Start(queue, now), acts, tickets);
    Reached(s, queue, now, acts, tickets);
    assert Step(s, q, Read(w, e, agent)) != q ==> IsHead(q.queue, e);
    hide Run, Issued, Step, AllNew;
    if IsHead(q.queue, e) && InTime(Waiting(q.queue, t, e.sg), e.sg) {
      var waiting := Waiting(q.queue, t, e.sg);
      LaneHead(q.queue, t, e);
      AlwaysFairIff(waiting, e.sg);
      assert Fairest(Lane(q.queue, e.sg), waiting, e);
      hide InTime, AlwaysFair, IsHead, Ticketed;
      forall x | x in q.queue && x.sg == e.sg
        ensures t[x].priority <= t[e].priority && (t[x].priority == t[e].priority ==> t[e].ms <= t[x].ms)
      {
        assert x in Lane(q.queue, e.sg) && waiting[x] == t[x] && waiting[e] == t[e];
      }
    }
  }

  /** Calls queued within the priority window of each other are in time. */
  lemma WindowIsInTime(tickets: map<Entry, Ticket>, sg: int)
    requires forall x, y :: x in tickets && y in tickets && x.sg == sg && y.sg == sg ==> tickets[x].ms - tickets[y].ms < WINDOW
    ensures InTime(tickets, sg)
  {
    forall x, y | x in tickets && y in tickets && x.sg == sg && y.sg == sg && tickets[x].priority > tickets[y].priority
      ensures Wins(tickets, x, y)
    {
      assert (tickets[x].priority - tickets[y].priority) * WINDOW >= WINDOW;
    }
  }
}
