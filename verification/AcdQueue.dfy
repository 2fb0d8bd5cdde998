/** The queues of the call distributor (internal/application/acd): one sorted set per skill group, its
    ordering by priority and time, member strings, expiry and overflow. Times are milliseconds. */
module AcdQueue {
  import opened Options
  import opened Sums
  import opened Text

  // An element of a skill group's sorted set.
  datatype Entry = Entry(sg: int, member: string)

  // All sorted sets together: element to score.
  type Queues = map<Entry, int>

  // ---------------------------------------------------------------------------
  // Scores
  // ---------------------------------------------------------------------------

  const WINDOW: int := 10_000_000_000

  function Score(priority: int, ms: int): int {
    -priority * WINDOW + ms
  }

  /** The exact condition for priority to win: a call of higher priority sorts first exactly when it was
      queued less than 10^10 ms per priority point after the other. */
  lemma PriorityWinsIff(p: int, ms: int, q: int, ms': int)
    requires p > q
    ensures Score(p, ms) < Score(q, ms') <==> ms - ms' < (p - q) * 10_000_000_000
    ensures ms - ms' < 10_000_000_000 ==> Score(p, ms) < Score(q, ms')
  {
    assert (p - q) * WINDOW >= WINDOW;
  }

  // Redis orders equal scores by member, byte by byte.
  predicate LexBefore(a: string, b: string) {
    if b == "" then false
    else if a == "" then true
    else if a[0] != b[0] then a[0] < b[0]
    else LexBefore(a[1..], b[1..])
  }

  /** That is: one is a proper beginning of the other, or smaller where they first differ. */
  lemma {:induction false} LexBeforeIff(a: string, b: string, k: nat)
    requires k <= |a| && k <= |b| && a[..k] == b[..k]
    requires k == |a| || k == |b| || a[k] != b[k]
    ensures LexBefore(a, b) <==> k < |b| && (k == |a| || a[k] < b[k])
    decreases k
  {
    if k > 0 {
      assert a[0] == a[..k][0] == b[..k][0] == b[0];
      assert a[1..][..k - 1] == a[..k][1..] == b[..k][1..] == b[1..][..k - 1];
      LexBeforeIff(a[1..], b[1..], k - 1);
    }
  }

  ghost predicate Before(queues: Queues, x: Entry, y: Entry)
    requires x in queues && y in queues
  {
    queues[x] < queues[y] || (queues[x] == queues[y] && LexBefore(x.member, y.member))
  }

  // The element ZRANGE 0 0 returns.
  ghost predicate IsHead(queues: Queues, h: Entry) {
    h in queues && forall e :: e in queues && e.sg == h.sg && e != h ==> Before(queues, h, e)
  }

  // What the elements of a group were queued with.
  datatype Ticket = Ticket(priority: int, ms: int)

  ghost predicate Ticketed(queues: Queues, tickets: map<Entry, Ticket>) {
    forall e :: e in queues ==> e in tickets && queues[e] == Score(tickets[e].priority, tickets[e].ms)
  }

  ghost predicate WithinWindow(queues: Queues, tickets: map<Entry, Ticket>, sg: int)
    requires Ticketed(queues, tickets)
  {
    forall x, y :: x in queues && y in queues && x.sg == sg && y.sg == sg ==> tickets[x].ms - tickets[y].ms < WINDOW
  }

  /** While a group's calls were queued within WINDOW ms of each other, the head is a call of the highest
      priority and, among those, the one queued first. */
  lemma HeadIsFairest(queues: Queues, tickets: map<Entry, Ticket>, h: Entry)
    requires Ticketed(queues, tickets) && WithinWindow(queues, tickets, h.sg) && IsHead(queues, h)
    ensures forall e :: e in queues && e.sg == h.sg ==>
      && tickets[e].priority <= tickets[h].priority
      && (tickets[e].priority == tickets[h].priority ==> tickets[h].ms <= tickets[e].ms)
  {
    forall e | e in queues && e.sg == h.sg
      ensures tickets[e].priority <= tickets[h].priority
      ensures tickets[e].priority == tickets[h].priority ==> tickets[h].ms <= tickets[e].ms
    {
      assert e == h || Before(queues, h, e);
      if tickets[e].priority > tickets[h].priority {
        PriorityWinsIff(tickets[e].priority, tickets[e].ms, tickets[h].priority, tickets[h].ms);
      }
    }
  }

  /** Outside the window it fails: a call without priority that has waited 10^10 ms and one more is served
      before one of priority 1. */
  lemma OldCallBeatsPriority()
    ensures var a, b := Entry(1, "7:1000"), Entry(1, "8:10000001001");
      IsHead(map[a := Score(0, 1000), b := Score(1, 10_000_001_001)], a)
  {
  }

  lemma {:induction false} LexTotal(a: string, b: string)
    requires a != b
    ensures LexBefore(a, b) != LexBefore(b, a)
  {
    if a != "" && b != "" && a[0] == b[0] {
      assert a == [a[0]] + a[1..] && b == [b[0]] + b[1..];
      LexTotal(a[1..], b[1..]);
    }
  }

  lemma {:induction false} LexTransitive(a: string, b: string, c: string)
    requires LexBefore(a, b) && LexBefore(b, c)
    ensures LexBefore(a, c)
  {
    if a != "" && b != "" && c != "" && a[0] == b[0] == c[0] {
      LexTransitive(a[1..], b[1..], c[1..]);
    }
  }

  // The queue of some of the ticketed calls of a group.
  ghost predicate QueueOf(queues: Queues, tickets: map<Entry, Ticket>, sg: int) {
    Ticketed(queues, tickets) && forall e :: e in queues ==> e.sg == sg
  }

  // No call of the queue has a higher priority than h, or the same and an earlier time.
  ghost predicate Fairest(queues: Queues, tickets: map<Entry, Ticket>, h: Entry)
    requires Ticketed(queues, tickets)
  {
    h in queues && forall e :: e in queues ==>
      && tickets[e].priority <= tickets[h].priority
      && (tickets[e].priority == tickets[h].priority ==> tickets[h].ms <= tickets[e].ms)
  }

  // x sorts before y by score, or by member when the scores are the same.
  ghost predicate Wins(tickets: map<Entry, Ticket>, x: Entry, y: Entry)
    requires x in tickets && y in tickets
  {
    var lead, late := (tickets[x].priority - tickets[y].priority) * WINDOW, tickets[x].ms - tickets[y].ms;
    late < lead || (late == lead && LexBefore(x.member, y.member))
  }

  // Among these calls every higher priority wins: none came too late for it.
  ghost predicate InTime(tickets: map<Entry, Ticket>, sg: int) {
    forall x, y :: x in tickets && y in tickets && x.sg == sg && y.sg == sg && tickets[x].priority > tickets[y].priority ==>
      Wins(tickets, x, y)
  }

  ghost predicate AlwaysFair(tickets: map<Entry, Ticket>, sg: int) {
    forall queues, h :: QueueOf(queues, tickets, sg) && IsHead(queues, h) ==> Fairest(queues, tickets, h)
  }

  // A queue of two calls is headed by the late one of higher priority's rival.
  lemma RivalHeads(tickets: map<Entry, Ticket>, x: Entry, y: Entry) returns (queues: Queues)
    requires x in tickets && y in tickets && x.sg == y.sg
    requires tickets[x].priority > tickets[y].priority && !Wins(tickets, x, y)
    ensures QueueOf(queues, tickets, x.sg) && IsHead(queues, y) && x in queues
  {
    var a, b := Score(tickets[x].priority, tickets[x].ms), Score(tickets[y].priority, tickets[y].ms);
    queues := map[x := a, y := b];
    assert b <= a;
    assert x.member != y.member by {
      assert x != y;
    }
    LexTotal(x.member, y.member);
    assert Before(queues, y, x);
  }

  /** The exact condition: whichever of these calls are queued, the head is a call of the highest priority and
      among those the one queued first, exactly when each call of higher priority was queued in time to win. */
  lemma AlwaysFairIff(tickets: map<Entry, Ticket>, sg: int)
    ensures AlwaysFair(tickets, sg) <==> InTime(tickets, sg)
  {
    if InTime(tickets, sg) {
      forall queues, h | QueueOf(queues, tickets, sg) && IsHead(queues, h)
        ensures Fairest(queues, tickets, h)
      {
        forall e | e in queues
          ensures tickets[e].priority <= tickets[h].priority
          ensures tickets[e].priority == tickets[h].priority ==> tickets[h].ms <= tickets[e].ms
        {
          assert e == h || Before(queues, h, e);
          if tickets[e].priority > tickets[h].priority {
            assert Wins(tickets, e, h);
            LexTotal(e.member, h.member);
          }
        }
      }
    } else {
      var x, y :| x in tickets && y in tickets && x.sg == sg && y.sg == sg
                  && tickets[x].priority > tickets[y].priority && !Wins(tickets, x, y);
      var queues := RivalHeads(tickets, x, y);
      assert !Fairest(queues, tickets, y);
    }
  }

  lemma OneHead(queues: Queues, x: Entry, y: Entry)
    requires IsHead(queues, x) && IsHead(queues, y) && x.sg == y.sg
    ensures x == y
  {
    if x != y {
      assert Before(queues, x, y) && Before(queues, y, x);
      LexTotal(x.member, y.member);
    }
  }

  /** ZRANGE 0 0 of one group: every group with elements has a head. */
  method ZRangeHead(queues: Queues, sg: int) returns (head: Option<Entry>)
    ensures head.Some? ==> IsHead(queues, head.value) && head.value.sg == sg
    ensures head.None? ==> forall e :: e in queues ==> e.sg != sg
  {
    head := None;
    var rest := queues.Keys;
    while rest != {}
      invariant rest <= queues.Keys
      invariant head.None? ==> forall e :: e in queues && e !in rest ==> e.sg != sg
      invariant head.Some? ==> head.value in queues && head.value !in rest && head.value.sg == sg
      invariant head.Some? ==>
        forall e :: e in queues && e !in rest && e.sg == sg && e != head.value ==> Before(queues, head.value, e)
      decreases rest
    {
      var e := Choose(rest);
      rest := rest - {e};
      if e.sg == sg {
        if head.None? {
          head := Some(e);
        } else {
          var h := head.value;
          LexTotal(h.member, e.member);
          if queues[e] < queues[h] || (queues[e] == queues[h] && LexBefore(e.member, h.member)) {
            forall x | x in queues && x !in rest && x.sg == sg && x != e
              ensures Before(queues, e, x)
            {
              if x != h && queues[e] == queues[h] == queues[x] {
                LexTransitive(e.member, h.member, x.member);
              }
            }
            head := Some(e);
          }
        }
      }
    }
  }

  // ---------------------------------------------------------------------------
  // Member strings
  // ---------------------------------------------------------------------------

  function MemberFor(callId: int, ms: int): string {
    FormatInt(callId) + ":" + FormatInt(ms)
  }

  datatype Parsed = Parsed(callId: int, ms: int, ok: bool)

  // The position of the first ':', or the length.
  function FirstColon(s: string): nat {
    if s == "" || s[0] == ':' then 0 else 1 + FirstColon(s[1..])
  }

  lemma {:induction false} FirstColonIsFirst(s: string)
    ensures FirstColon(s) <= |s| && ':' !in s[..FirstColon(s)]
    ensures FirstColon(s) < |s| ==> s[FirstColon(s)] == ':'
  {
    if s != "" && s[0] != ':' {
      FirstColonIsFirst(s[1..]);
      assert s[..FirstColon(s)] == [s[0]] + s[1..][..FirstColon(s[1..])];
    }
  }

  function ParseMember(s: string): Parsed {
    FirstColonIsFirst(s);
    var i := FirstColon(s);
    var id := ParseInt(s[..i]);
    if id.None? then Parsed(0, 0, false)
    else if i == |s| then Parsed(id.value, 0, true)
    else
      var ms := ParseInt(s[i + 1..]);
      if ms.None? then Parsed(id.value, 0, false) else Parsed(id.value, ms.value, true)
  }

  lemma NoColonInInt(n: int)
    ensures ':' !in FormatInt(n)
  {
    var s := Digits(if n < 0 then -n else n);
    assert forall i :: 0 <= i < |s| ==> IsDigit(s[i]);
  }

  lemma {:induction false} FirstColonAfter(a: string, b: string)
    requires ':' !in a
    ensures FirstColon(a + ":" + b) == |a|
  {
    var s := a + ":" + b;
    if a != "" {
      assert s[0] == a[0] && a[0] in a;
      assert s[1..] == a[1..] + ":" + b;
      FirstColonAfter(a[1..], b);
    }
  }

  /** A member is read exactly when what stands before its first ':' is a 64-bit number and what follows, if it
      has a ':', is another. */
  lemma ParseMemberIff(a: string, b: string)
    requires ':' !in a
    ensures ParseMember(a + ":" + b).ok <==> ParseInt(a).Some? && ParseInt(b).Some?
    ensures ParseMember(a + ":" + b).ok ==> ParseMember(a + ":" + b) == Parsed(ParseInt(a).value, ParseInt(b).value, true)
    ensures ParseMember(a).ok <==> ParseInt(a).Some?
    ensures ParseMember(a).ok ==> ParseMember(a) == Parsed(ParseInt(a).value, 0, true)
  {
    FirstColonAfter(a, b);
    FirstColonIsFirst(a);
    var s := a + ":" + b;
    assert s[..|a|] == a && s[|a| + 1..] == b;
    assert FirstColon(a) == |a| && a[..|a|] == a;
    hide FirstColon, ParseInt;
  }

  /** parseMember undoes memberFor, for every call id and time. */
  lemma ParseUndoesMember(callId: Int64, ms: Int64)
    ensures ParseMember(MemberFor(callId, ms)) == Parsed(callId, ms, true)
  {
    NoColonInInt(callId);
    FirstColonAfter(FormatInt(callId), FormatInt(ms));
    var s := MemberFor(callId, ms);
    assert s[..|FormatInt(callId)|] == FormatInt(callId);
    assert s[|FormatInt(callId)| + 1..] == FormatInt(ms);
    ParseUndoesFormat(callId);
    ParseUndoesFormat(ms);
  }

  /** A member without a ':' is read as a call of unknown age. */
  lemma ParseLegacyMember(callId: Int64)
    ensures ParseMember(FormatInt(callId)) == Parsed(callId, 0, true)
  {
    NoColonInInt(callId);
    var s := FormatInt(callId);
    FirstColonIsFirst(s);
    assert FirstColon(s) == |s|;
    assert s[..|s|] == s;
    ParseUndoesFormat(callId);
  }

  // ---------------------------------------------------------------------------
  // Expiry
  // ---------------------------------------------------------------------------

  predicate Malformed(e: Entry) {
    !ParseMember(e.member).ok
  }

  predicate TooOld(e: Entry, deadline: int) {
    var p := ParseMember(e.member);
    p.ok && p.ms != 0 && p.ms <= deadline
  }

  /** A queued call is too old exactly when it waited maxWaitSec seconds. */
  lemma TooOldIff(sg: int, callId: Int64, ms: Int64, now: int, maxWaitSec: int)
    requires ms > 0
    ensures TooOld(Entry(sg, MemberFor(callId, ms)), now - maxWaitSec * 1000) <==> now - ms >= maxWaitSec * 1000
    ensures !Malformed(Entry(sg, MemberFor(callId, ms)))
  {
    ParseUndoesMember(callId, ms);
  }

  // ---------------------------------------------------------------------------
  // Overflow
  // ---------------------------------------------------------------------------

  datatype Group = Group(maxQueueSize: int, overflow: Option<int>, maxWaitSec: int)

  // The skill groups that can be looked up.
  type Groups = map<int, Group>

  ghost function Members(queues: Queues, sg: int): set<Entry> {
    set e | e in queues && e.sg == sg
  }

  ghost predicate Full(groups: Groups, queues: Queues, sg: int) {
    sg in groups && groups[sg].maxQueueSize > 0 && |Members(queues, sg)| >= groups[sg].maxQueueSize
  }

  function Next(groups: Groups, sg: int): Option<int> {
    if sg in groups then groups[sg].overflow else None
  }

  // A walk along overflow groups whose members before the last are all full.
  ghost predicate OverflowPath(groups: Groups, queues: Queues, path: seq<int>)
    decreases |path|
  {
    && |path| > 0
    && (|path| > 1 ==>
          Full(groups, queues, path[0]) && Next(groups, path[0]) == Some(path[1]) && OverflowPath(groups, queues, path[1..]))
  }

  // Every group of the ring is full and overflows into the ring.
  ghost predicate FullRing(groups: Groups, queues: Queues, ring: set<int>) {
    forall sg :: sg in ring ==>
      Full(groups, queues, sg) && groups[sg].overflow.Some? && groups[sg].overflow.value in ring
  }

  /** On a ring of full groups overflow finds no end: every walk from it, however long, stops at a full group
      that overflows further. */
  lemma {:induction false} FullRingNeverEnds(groups: Groups, queues: Queues, ring: set<int>, path: seq<int>)
    requires FullRing(groups, queues, ring) && OverflowPath(groups, queues, path) && path[0] in ring
    ensures var last := path[|path| - 1]; Full(groups, queues, last) && Next(groups, last).Some?
    ensures path[|path| - 1] in ring
  {
    if |path| > 1 {
      FullRingNeverEnds(groups, queues, ring, path[1..]);
    }
  }

  ghost predicate OnFullRing(groups: Groups, queues: Queues, sg: int) {
    exists ring :: sg in ring && FullRing(groups, queues, ring)
  }

  // A walk from sg that ends at a group with room, or at one that overflows nowhere.
  ghost predicate EndsAt(groups: Groups, queues: Queues, sg: int, path: seq<int>) {
    && OverflowPath(groups, queues, path) && path[0] == sg
    && var last := path[|path| - 1]; !Full(groups, queues, last) || Next(groups, last).None?
  }

  // The groups an overflow went through: full, and each overflowing among them or to sg.
  ghost predicate Passed(groups: Groups, queues: Queues, seen: set<int>, sg: int) {
    forall g :: g in seen ==>
      Full(groups, queues, g) && groups[g].overflow.Some? && groups[g].overflow.value in seen + {sg}
  }

  // Off every ring an overflow step leads to a group that was not passed and is off every ring too.
  lemma OverflowProgress(groups: Groups, queues: Queues, seen: set<int>, sg: int)
    requires Passed(groups, queues, seen, sg) && !OnFullRing(groups, queues, sg)
    ensures sg !in seen
    ensures Full(groups, queues, sg) && Next(groups, sg).Some? ==>
      Passed(groups, queues, seen + {sg}, Next(groups, sg).value) && !OnFullRing(groups, queues, Next(groups, sg).value)
  {
    hide Full;
    assert sg in seen ==> FullRing(groups, queues, seen);
    if Full(groups, queues, sg) && Next(groups, sg).Some? {
      var next := Next(groups, sg).value;
      forall ring | next in ring
        ensures FullRing(groups, queues, ring) ==> FullRing(groups, queues, ring + {sg})
      {
      }
    }
  }

  lemma {:induction false} OverflowEnds(groups: Groups, queues: Queues, seen: set<int>, sg: int) returns (path: seq<int>)
    requires Passed(groups, queues, seen, sg) && !OnFullRing(groups, queues, sg) && seen <= groups.Keys
    ensures EndsAt(groups, queues, sg, path)
    decreases groups.Keys - seen
  {
    path := [sg];
    OverflowProgress(groups, queues, seen, sg);
    if Full(groups, queues, sg) && Next(groups, sg).Some? {
      var rest := OverflowEnds(groups, queues, seen + {sg}, Next(groups, sg).value);
      path := [sg] + rest;
      assert path[1..] == rest;
    }
  }

  /** The exact condition: overflow from a group ends, at a group with room or at the end of the chain, exactly
      when the group is on no ring of full groups. */
  lemma OverflowEndsIff(groups: Groups, queues: Queues, sg: int)
    ensures (exists path :: EndsAt(groups, queues, sg, path)) <==> !OnFullRing(groups, queues, sg)
  {
    if OnFullRing(groups, queues, sg) {
      var ring :| sg in ring && FullRing(groups, queues, ring);
      forall path | OverflowPath(groups, queues, path) && path[0] == sg
        ensures !EndsAt(groups, queues, sg, path)
      {
        FullRingNeverEnds(groups, queues, ring, path);
      }
    } else {
      var path := OverflowEnds(groups, queues, {}, sg);
    }
  }

  /** ZCARD of one group's sorted set. */
  method ZCard(queues: Queues, sg: int) returns (n: nat)
    ensures n == |Members(queues, sg)|
  {
    n := 0;
    var rest := queues.Keys;
    ghost var counted: set<Entry> := {};
    while rest != {}
      invariant rest <= queues.Keys && n == |counted|
      invariant counted == set e | e in queues && e !in rest && e.sg == sg
      decreases rest
    {
      var e := Choose(rest);
      ghost var before := counted;
      rest := rest - {e};
      if e.sg == sg {
        n := n + 1;
        counted := before + {e};
      }
    }
    assert counted == Members(queues, sg);
  }

  datatype EnqueueResult = Queued | QueueFull | ZAddFailed | RegisterFailed

  /** Enqueue's side of the service, for one process alone. */
  class AcdService {
    const groups: Groups
    var queues: Queues
    var active: set<int>

    constructor (groups: Groups)
      ensures this.groups == groups && queues == map[] && active == {}
    {
      this.groups := groups;
      queues, active := map[], {};
    }

    /** Enqueue: the call goes to the first group along the overflow chain that is not full, and is refused
        only at the end of a chain of full groups. Redis may refuse either write. seen holds the groups an
        overflow came through, none for an outside caller. */
    method Enqueue(callId: int, sg: int, priority: int, now: int, zaddOk: bool, saddOk: bool, ghost seen: set<int> := {})
      returns (r: EnqueueResult, ghost path: seq<int>)
      requires !OnFullRing(groups, queues, sg) && Passed(groups, queues, seen, sg) && seen <= groups.Keys
      modifies this`queues, this`active
      ensures OverflowPath(groups, old(queues), path) && path[0] == sg
      ensures var last := path[|path| - 1];
        && (r == QueueFull <==> Full(groups, old(queues), last))
        && (r == QueueFull ==> Next(groups, last).None?)
        && (if r == Queued || r == RegisterFailed
            then queues == old(queues)[Entry(last, MemberFor(callId, now)) := Score(priority, now)]
            else queues == old(queues))
        && active == (if r == Queued then old(active) + {last} else old(active))
      decreases groups.Keys - seen
    {
      OverflowProgress(groups, queues, seen, sg);
      hide OnFullRing, Passed, Members, FullRing;
      if sg in groups && groups[sg].maxQueueSize > 0 {
        var size := ZCard(queues, sg);
        if size >= groups[sg].maxQueueSize {
          if groups[sg].overflow.Some? {
            ghost var rest;
            r, rest := Enqueue(callId, groups[sg].overflow.value, priority, now, zaddOk, saddOk, seen + {sg});
            path := [sg] + rest;
            return;
          }
          return QueueFull, [sg];
        }
      }
      path := [sg];
      if !zaddOk {
        return ZAddFailed, path;
      }
      queues := queues[Entry(sg, MemberFor(callId, now)) := Score(priority, now)];
      if !saddOk {
        return RegisterFailed, path;
      }
      active := active + {sg};
      r := Queued;
    }
  }
}
