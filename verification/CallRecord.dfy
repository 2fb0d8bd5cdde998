/** A call's status machine, its event log, and the durations folded from that log (internal/domain/call,
    internal/application/lifecycle). Times are nanoseconds. */
module CallRecord {
  import opened Clock
  import opened Options

  datatype CallStatus = IVR | Queue | Ringing | Active | Held | Consulting | Conference | Completed | Failed

  datatype Kind = CallCreated | IvrCompleted | QueueEntered | AgentRinging | CallAnswered | Other(name: string)

  datatype Event = Event(kind: Kind, at: int)

  datatype Call = Call(status: CallStatus, startedAt: int, answeredAt: Option<int>, endedAt: Option<int>,
                       ivrSec: int, queueSec: int, ringSec: int, waitSec: int, durationSec: int,
                       holds: int, transfers: int, agent: Option<int>, group: Option<int>)

  datatype Record = Record(call: Call, log: seq<Event>)

  datatype Operation =
    | TransitionToQueue(group: int)
    | TransitionToRinging(agent: int)
    | TransitionToActive
    | AnswerCall(agent: int)
    | HoldCall
    | RetrieveCall
    | BlindTransfer(target: string)
    | AttendedTransfer(target: string)
    | InitiateConsult(target: string)
    | CompleteConsultTransfer
    | CancelConsult
    | StartConference
    | Annotate(name: string)
    | EndCall

  // media says whether the telephony command of the operation succeeds; an event may be lost, because the
  // service ignores errors when it stores one.
  datatype Request = Request(op: Operation, at: int, media: bool, logged: bool)

  // ---------------------------------------------------------------------------
  // The status machine
  // ---------------------------------------------------------------------------

  // The call after an accepted operation; None when its status, target or media command rejects it.
  function Accept(c: Call, r: Request): Option<Call> {
    match r.op
    case TransitionToQueue(g) =>
      if c.status != IVR then None else Some(c.(status := Queue, group := Some(g)))
    case TransitionToRinging(a) =>
      if c.status != Queue && c.status != IVR then None else Some(c.(status := Ringing, agent := Some(a)))
    case TransitionToActive =>
      if c.status != Ringing && c.status != Queue then None
      else Some(c.(status := Active, answeredAt := if c.answeredAt.None? then Some(r.at) else c.answeredAt,
                   ringSec := Secs(r.at - c.startedAt) - c.queueSec - c.ivrSec))
    case AnswerCall(a) =>
      if c.status != Ringing && c.status != IVR && c.status != Queue then None
      else Some(c.(status := Active, answeredAt := Some(r.at), agent := Some(a), waitSec := Secs(r.at - c.startedAt)))
    case HoldCall =>
      if c.status != Active || !r.media then None else Some(c.(status := Held, holds := c.holds + 1))
    case RetrieveCall =>
      if c.status != Held || !r.media then None else Some(c.(status := Active))
    case BlindTransfer(target) =>
      if c.status == Completed || c.status == Failed || target == "" || !r.media then None
      else Some(c.(transfers := c.transfers + 1))
    case AttendedTransfer(target) =>
      if (c.status != Active && c.status != Held) || target == "" || !r.media then None
      else Some(c.(transfers := c.transfers + 1))
    case InitiateConsult(target) =>
      if c.status != Active || target == "" || !r.media then None else Some(c.(status := Consulting))
    case CompleteConsultTransfer =>
      if c.status != Consulting then None else Some(c.(transfers := c.transfers + 1, status := Active))
    case CancelConsult =>
      if c.status != Consulting then None else Some(c.(status := Active))
    case StartConference =>
      if (c.status != Active && c.status != Consulting) || !r.media then None else Some(c.(status := Conference))
    case Annotate(_) => Some(c)
    case EndCall =>
      if c.status == Completed then None
      else Some(c.(status := Completed, endedAt := Some(r.at), durationSec := Secs(r.at - c.startedAt),
                   waitSec := Secs((if c.answeredAt.Some? then c.answeredAt.value else r.at) - c.startedAt)))
  }

  function EventKind(op: Operation): Kind {
    match op
    case TransitionToQueue(_) => QueueEntered
    case TransitionToRinging(_) => AgentRinging
    case TransitionToActive => Other("call_bridged")
    case AnswerCall(_) => CallAnswered
    case HoldCall => Other("call_held")
    case RetrieveCall => Other("call_retrieved")
    case BlindTransfer(_) => Other("blind_transfer")
    case AttendedTransfer(_) => Other("attended_transfer")
    case InitiateConsult(_) => Other("consult_initiated")
    case CompleteConsultTransfer => Other("consult_transfer_completed")
    case CancelConsult => Other("consult_cancelled")
    case StartConference => Other("conference_started")
    case Annotate(name) => Other(name)
    case EndCall => Other("call_ended")
  }

  function Step(s: Record, r: Request): Record {
    var c := Accept(s.call, r);
    if c.None? then s
    else Record(c.value, if r.logged then s.log + [Event(EventKind(r.op), r.at)] else s.log)
  }

  function Run(s: Record, rs: seq<Request>): Record
    decreases |rs|
  {
    if rs == [] then s else Run(Step(s, rs[0]), rs[1..])
  }

  function NewCall(status: CallStatus, at: int): Call {
    Call(status, at, None, None, 0, 0, 0, 0, 0, 0, 0, None, None)
  }

  // Inbound calls start in the IVR, outbound and internal ones ringing.
  function Created(status: CallStatus, at: int, logged: bool): Record {
    Record(NewCall(status, at), if logged then [Event(CallCreated, at)] else [])
  }

  // ---------------------------------------------------------------------------
  // The duration fold
  // ---------------------------------------------------------------------------

  datatype Fold = Fold(ivrStart: Option<int>, queueStart: Option<int>, ringStart: Option<int>,
                       ivrSec: int, queueSec: int, ringSec: int)

  function Between(since: Option<int>, at: int, otherwise: int): int {
    if since.Some? then Secs(at - since.value) else otherwise
  }

  function FoldEvent(f: Fold, e: Event): Fold {
    match e.kind
    case CallCreated => f.(ivrStart := Some(e.at))
    case IvrCompleted => f.(ivrSec := Between(f.ivrStart, e.at, f.ivrSec), queueStart := Some(e.at))
    case QueueEntered => f.(queueStart := Some(e.at))
    case AgentRinging => f.(queueSec := Between(f.queueStart, e.at, f.queueSec), ringStart := Some(e.at))
    case CallAnswered => f.(ringSec := Between(f.ringStart, e.at, f.ringSec))
    case Other(_) => f
  }

  function FoldLog(c: Call, log: seq<Event>): Fold {
    if log == [] then Fold(None, None, None, c.ivrSec, c.queueSec, c.ringSec)
    else FoldEvent(FoldLog(c, log[..|log| - 1]), log[|log| - 1])
  }

  function WithDurations(c: Call, log: seq<Event>): Call {
    var f := FoldLog(c, log);
    c.(ivrSec := f.ivrSec, queueSec := f.queueSec, ringSec := f.ringSec)
  }

  /** CalculateDurations. */
  method CalculateDurations(c: Call, events: seq<Event>) returns (d: Call)
    ensures d == WithDurations(c, events)
  {
    d := c;
    var ivrStart, queueStart, ringStart: Option<int> := None, None, None;
    for i := 0 to |events|
      invariant FoldLog(c, events[..i]) == Fold(ivrStart, queueStart, ringStart, d.ivrSec, d.queueSec, d.ringSec)
      invariant d == c.(ivrSec := d.ivrSec, queueSec := d.queueSec, ringSec := d.ringSec)
    {
      assert events[..i + 1][..i] == events[..i];
      var e := events[i];
      match e.kind {
        case CallCreated =>
          ivrStart := Some(e.at);
        case IvrCompleted =>
          if ivrStart.Some? {
            d := d.(ivrSec := Secs(e.at - ivrStart.value));
          }
          queueStart := Some(e.at);
        case QueueEntered =>
          queueStart := Some(e.at);
        case AgentRinging =>
          if queueStart.Some? {
            d := d.(queueSec := Secs(e.at - queueStart.value));
          }
          ringStart := Some(e.at);
        case CallAnswered =>
          if ringStart.Some? {
            d := d.(ringSec := Secs(e.at - ringStart.value));
          }
        case Other(_) =>
      }
    }
    assert events[..|events|] == events;
  }

  // ---------------------------------------------------------------------------
  // Ordered logs
  // ---------------------------------------------------------------------------

  // The events the fold reads, in the order a call goes through them.
  function Rank(k: Kind): int {
    match k
    case CallCreated => 0
    case IvrCompleted => 1
    case QueueEntered => 2
    case AgentRinging => 3
    case CallAnswered => 4
    case Other(_) => -1
  }

  predicate Milestone(k: Kind) {
    !k.Other?
  }

  // Each milestone at most once, in order, and no event before an earlier one.
  ghost predicate Ordered(log: seq<Event>) {
    && (forall i, j :: 0 <= i < j < |log| && Milestone(log[i].kind) && Milestone(log[j].kind) ==>
          Rank(log[i].kind) < Rank(log[j].kind))
    && (forall i, j :: 0 <= i < j < |log| ==> log[i].at <= log[j].at)
  }

  // When the milestone happened, if it is in the log.
  ghost function When(log: seq<Event>, k: Kind): Option<int> {
    if log == [] then None
    else if log[|log| - 1].kind == k then Some(log[|log| - 1].at)
    else When(log[..|log| - 1], k)
  }

  ghost function QueueSince(log: seq<Event>): Option<int> {
    if When(log, QueueEntered).Some? then When(log, QueueEntered) else When(log, IvrCompleted)
  }

  ghost function Span(since: Option<int>, until: Option<int>): int {
    if since.Some? && until.Some? then Secs(until.value - since.value) else 0
  }

  lemma {:induction false} WhenIsInLog(log: seq<Event>, k: Kind)
    ensures When(log, k).Some? <==> exists i :: 0 <= i < |log| && log[i].kind == k
    ensures When(log, k).Some? ==> exists i :: 0 <= i < |log| && log[i] == Event(k, When(log, k).value)
  {
    if log != [] {
      var h := log[..|log| - 1];
      WhenIsInLog(h, k);
      if When(h, k).Some? {
        var i :| 0 <= i < |h| && h[i] == Event(k, When(h, k).value);
        assert log[i] == h[i];
      }
      if i :| 0 <= i < |log| && log[i].kind == k && i < |h| {
        assert h[i].kind == k;
      }
    }
  }

  lemma OrderedPrefix(log: seq<Event>)
    requires Ordered(log) && log != []
    ensures Ordered(log[..|log| - 1])
    ensures forall k :: Milestone(k) && When(log[..|log| - 1], k).Some? ==>
      && When(log[..|log| - 1], k).value <= log[|log| - 1].at
      && (Milestone(log[|log| - 1].kind) ==> Rank(k) < Rank(log[|log| - 1].kind))
  {
    var h := log[..|log| - 1];
    forall k | Milestone(k) && When(h, k).Some?
      ensures When(h, k).value <= log[|log| - 1].at
      ensures Milestone(log[|log| - 1].kind) ==> Rank(k) < Rank(log[|log| - 1].kind)
    {
      WhenIsInLog(h, k);
      var i :| 0 <= i < |h| && h[i] == Event(k, When(h, k).value);
      assert log[i] == h[i];
    }
  }

  // A milestone does not come before one of its own or a lower rank.
  lemma NotYet(log: seq<Event>, k: Kind)
    requires Ordered(log) && log != [] && Milestone(k)
    ensures Milestone(log[|log| - 1].kind) && Rank(k) >= Rank(log[|log| - 1].kind) ==> When(log[..|log| - 1], k).None?
  {
    OrderedPrefix(log);
  }

  // Milestone times follow milestone order.
  lemma {:induction false} MilestoneTimesOrdered(log: seq<Event>, j: Kind, k: Kind)
    requires Ordered(log) && Milestone(j) && Milestone(k) && Rank(j) < Rank(k)
    requires When(log, j).Some? && When(log, k).Some?
    ensures When(log, j).value <= When(log, k).value
  {
    OrderedPrefix(log);
    if log[|log| - 1].kind != k && log[|log| - 1].kind != j {
      MilestoneTimesOrdered(log[..|log| - 1], j, k);
    }
  }

  /** On an ordered log the fold measures the spans between the milestones: a span with a missing end keeps
      the value the call had. */
  lemma {:induction false} FoldMeasuresSpans(c: Call, log: seq<Event>)
    requires Ordered(log)
    ensures var f := FoldLog(c, log);
      && f.ivrStart == When(log, CallCreated) && f.queueStart == QueueSince(log) && f.ringStart == When(log, AgentRinging)
      && f.ivrSec == (if When(log, CallCreated).Some? && When(log, IvrCompleted).Some?
                      then Span(When(log, CallCreated), When(log, IvrCompleted)) else c.ivrSec)
      && f.queueSec == (if QueueSince(log).Some? && When(log, AgentRinging).Some?
                        then Span(QueueSince(log), When(log, AgentRinging)) else c.queueSec)
      && f.ringSec == (if When(log, AgentRinging).Some? && When(log, CallAnswered).Some?
                       then Span(When(log, AgentRinging), When(log, CallAnswered)) else c.ringSec)
  {
    if log != [] {
      var h, e := log[..|log| - 1], log[|log| - 1];
      OrderedPrefix(log);
      FoldMeasuresSpans(c, h);
      assert When(log, CallCreated) == if e.kind == CallCreated then Some(e.at) else When(h, CallCreated);
      assert When(log, IvrCompleted) == if e.kind == IvrCompleted then Some(e.at) else When(h, IvrCompleted);
      assert When(log, QueueEntered) == if e.kind == QueueEntered then Some(e.at) else When(h, QueueEntered);
      assert When(log, AgentRinging) == if e.kind == AgentRinging then Some(e.at) else When(h, AgentRinging);
      assert When(log, CallAnswered) == if e.kind == CallAnswered then Some(e.at) else When(h, CallAnswered);
      NotYet(log, CallAnswered);
      NotYet(log, AgentRinging);
      NotYet(log, QueueEntered);
      NotYet(log, IvrCompleted);
      NotYet(log, CallCreated);
    }
  }

  lemma FloorsAdd(a: int, b: int, c: int)
    requires a >= 0 && b >= 0 && c >= 0
    ensures Secs(a) + Secs(b) + Secs(c) <= Secs(a + b + c)
    ensures Secs(a) >= 0
  {
  }

  lemma SecsMonotone(a: int, b: int)
    requires 0 <= a <= b
    ensures 0 <= Secs(a) <= Secs(b)
  {
  }

  // ---------------------------------------------------------------------------
  // What every run keeps
  // ---------------------------------------------------------------------------

  // The highest milestone a call in this status may have logged.
  function Reached(status: CallStatus): int {
    match status
    case IVR => 0
    case Queue => 2
    case Ringing => 3
    case _ => 4
  }

  predicate Unanswered(status: CallStatus) {
    status == IVR || status == Queue || status == Ringing
  }

  // The instant by which all milestones of the call lie.
  function Horizon(c: Call, now: int): int {
    if c.answeredAt.Some? then c.answeredAt.value else if c.endedAt.Some? then c.endedAt.value else now
  }

  ghost predicate LogFits(s: Record, now: int) {
    && Ordered(s.log)
    && (forall i :: 0 <= i < |s.log| ==> s.call.startedAt <= s.log[i].at <= now)
    && (forall i :: 0 <= i < |s.log| && Milestone(s.log[i].kind) ==>
          && Rank(s.log[i].kind) <= Reached(s.call.status) && s.log[i].kind != IvrCompleted
          && s.log[i].at <= Horizon(s.call, now))
  }

  // bridged: the call became active through TransitionToActive.
  ghost predicate CallFits(c: Call, bridged: bool, now: int) {
    && c.startedAt <= now
    && c.ivrSec == 0 && c.queueSec == 0
    && (Unanswered(c.status) ==> c.answeredAt.None? && !bridged)
    && (c.status != Completed && !Unanswered(c.status) ==> c.answeredAt.Some?)
    && (c.answeredAt.Some? ==> c.startedAt <= c.answeredAt.value <= now)
    && c.ringSec == (if bridged && c.answeredAt.Some? then Secs(c.answeredAt.value - c.startedAt) else 0)
    && (bridged ==> c.answeredAt.Some?)
    && (c.endedAt.Some? <==> c.status == Completed)
    && (c.endedAt.Some? ==>
          && c.startedAt <= c.endedAt.value <= now
          && (c.answeredAt.Some? ==> c.answeredAt.value <= c.endedAt.value)
          && c.durationSec == Secs(c.endedAt.value - c.startedAt)
          && c.waitSec == Secs((if c.answeredAt.Some? then c.answeredAt.value else c.endedAt.value) - c.startedAt))
  }

  ghost predicate NotAnsweredByAgent(log: seq<Event>) {
    forall i :: 0 <= i < |log| ==> log[i].kind != CallAnswered
  }

  ghost predicate Inv(s: Record, bridged: bool, now: int) {
    CallFits(s.call, bridged, now) && LogFits(s, now) && (bridged ==> NotAnsweredByAgent(s.log))
  }

  predicate Bridges(c: Call, r: Request) {
    r.op.TransitionToActive? && Accept(c, r).Some?
  }

  lemma CreatedFits(status: CallStatus, at: int, logged: bool)
    requires status == IVR || status == Ringing
    ensures Inv(Created(status, at, logged), false, at)
  {
  }

  lemma StepKeepsCall(c: Call, bridged: bool, now: int, r: Request)
    requires CallFits(c, bridged, now) && now <= r.at && Accept(c, r).Some?
    ensures CallFits(Accept(c, r).value, bridged || Bridges(c, r), r.at)
  {
    hide Secs;
  }

  // The accepted operations move a call forward, and each milestone belongs to one move.
  lemma AcceptedMoves(c: Call, bridged: bool, now: int, r: Request)
    requires CallFits(c, bridged, now) && now <= r.at && Accept(c, r).Some?
    ensures var d := Accept(c, r).value; var k := EventKind(r.op);
      && d.startedAt == c.startedAt
      && Reached(c.status) <= Reached(d.status)
      && (Milestone(k) ==> Reached(c.status) < Rank(k) <= Reached(d.status) && k != IvrCompleted)
      && (Milestone(k) ==> r.at <= Horizon(d, r.at))
      && (Horizon(c, now) <= Horizon(d, r.at))
      && (k == CallAnswered ==> !bridged)
  {
  }

  lemma AppendKeepsOrdered(log: seq<Event>, e: Event)
    requires Ordered(log) && forall i :: 0 <= i < |log| ==> log[i].at <= e.at
    requires Milestone(e.kind) ==> forall i :: 0 <= i < |log| && Milestone(log[i].kind) ==> Rank(log[i].kind) < Rank(e.kind)
    ensures Ordered(log + [e])
  {
  }

  lemma StepKeepsLog(s: Record, bridged: bool, now: int, r: Request)
    requires Inv(s, bridged, now) && now <= r.at
    ensures LogFits(Step(s, r), r.at)
    ensures bridged || Bridges(s.call, r) ==> NotAnsweredByAgent(Step(s, r).log)
  {
    if Accept(s.call, r).Some? {
      AcceptedMoves(s.call, bridged, now, r);
      if Bridges(s.call, r) {
        assert Reached(s.call.status) < 4;
        assert NotAnsweredByAgent(s.log);
      }
      if r.logged {
        AppendKeepsOrdered(s.log, Event(EventKind(r.op), r.at));
      }
      hide Accept, CallFits, Ordered;
    } else {
      assert Horizon(s.call, now) <= Horizon(s.call, r.at);
    }
  }

  ghost predicate InOrder(rs: seq<Request>, now: int) {
    && (forall i :: 0 <= i < |rs| ==> now <= rs[i].at)
    && (forall i, j :: 0 <= i < j < |rs| ==> rs[i].at <= rs[j].at)
  }

  function EverBridged(s: Record, rs: seq<Request>): bool
    decreases |rs|
  {
    rs != [] && (Bridges(s.call, rs[0]) || EverBridged(Step(s, rs[0]), rs[1..]))
  }

  lemma {:induction false} RunKeepsInv(s: Record, bridged: bool, now: int, rs: seq<Request>) returns (later: int)
    requires Inv(s, bridged, now) && InOrder(rs, now)
    ensures Inv(Run(s, rs), bridged || EverBridged(s, rs), later)
    ensures later == if rs == [] then now else rs[|rs| - 1].at
    decreases |rs|
  {
    later := now;
    if rs != [] {
      var r := rs[0];
      StepKeepsLog(s, bridged, now, r);
      if Accept(s.call, r).Some? {
        StepKeepsCall(s.call, bridged, now, r);
      }
      assert Inv(Step(s, r), bridged || Bridges(s.call, r), r.at) by {
        hide LogFits, NotAnsweredByAgent;
        assert Accept(s.call, r).None? ==> CallFits(s.call, bridged, r.at);
      }
      assert InOrder(rs[1..], r.at);
      hide Inv, Step, Bridges;
      later := RunKeepsInv(Step(s, r), bridged || Bridges(s.call, r), r.at, rs[1..]);
    }
  }

  /** Completed is final: nothing reopens a completed call, changes its end or its computed times. */
  lemma {:induction false} CompletedIsFinal(s: Record, rs: seq<Request>)
    requires s.call.status == Completed
    ensures Run(s, rs).call == s.call
    decreases |rs|
  {
    if rs != [] && Accept(s.call, rs[0]).Some? {
      assert rs[0].op.Annotate?;
    }
    if rs != [] {
      CompletedIsFinal(Step(s, rs[0]), rs[1..]);
    }
  }

  /** For every run: until it ends, a call is answered exactly when it is past the IVR, the queue and ringing. */
  lemma AnsweredIffConnected(status: CallStatus, at: int, logged: bool, rs: seq<Request>)
    requires (status == IVR || status == Ringing) && InOrder(rs, at)
    ensures var c := Run(Created(status, at, logged), rs).call;
      c.status != Completed ==> (c.answeredAt.Some? <==> c.status in {Active, Held, Consulting, Conference, Failed})
  {
    CreatedFits(status, at, logged);
    var later := RunKeepsInv(Created(status, at, logged), false, at, rs);
  }

  /** A hold that is retrieved, and a consultation that is cancelled, leave the call as it was before, but for
      the hold's count; while away it cannot be put away again. */
  lemma DetoursReturn(c: Call, away: Request, back: Request)
    requires (away.op.HoldCall? && back.op.RetrieveCall?) || (away.op.InitiateConsult? && back.op.CancelConsult?)
    requires Accept(c, away).Some? && back.media
    ensures Accept(Accept(c, away).value, back) == Some(c.(holds := c.holds + if away.op.HoldCall? then 1 else 0))
    ensures Accept(Accept(c, away).value, away).None?
  {
  }

  const HOLDS: set<Kind> := {Other("call_held")}
  const TRANSFERS: set<Kind> := {Other("blind_transfer"), Other("attended_transfer"), Other("consult_transfer_completed")}

  function CountOf(log: seq<Event>, kinds: set<Kind>): nat {
    if log == [] then 0
    else CountOf(log[..|log| - 1], kinds) + if log[|log| - 1].kind in kinds then 1 else 0
  }

  // Other events, such as dispositions, do not use the counted names.
  ghost predicate PlainNotes(rs: seq<Request>) {
    forall i :: 0 <= i < |rs| && rs[i].op.Annotate? ==> EventKind(rs[i].op) !in HOLDS + TRANSFERS
  }

  lemma CountAppend(log: seq<Event>, e: Event, kinds: set<Kind>)
    ensures CountOf(log + [e], kinds) == CountOf(log, kinds) + if e.kind in kinds then 1 else 0
  {
    assert (log + [e])[..|log|] == log;
  }

  // Of the accepted operations exactly those with a counted event name count.
  lemma AcceptCounts(c: Call, r: Request)
    requires Accept(c, r).Some? && (r.op.Annotate? ==> EventKind(r.op) !in HOLDS + TRANSFERS)
    ensures var d, k := Accept(c, r).value, EventKind(r.op);
      && d.holds == c.holds + (if k in HOLDS then 1 else 0)
      && d.transfers == c.transfers + (if k in TRANSFERS then 1 else 0)
  {
    hide Secs;
  }

  lemma StepCounts(s: Record, r: Request)
    requires r.op.Annotate? ==> EventKind(r.op) !in HOLDS + TRANSFERS
    ensures var t := Step(s, r);
      var holds, transfers := CountOf(t.log, HOLDS) - CountOf(s.log, HOLDS), CountOf(t.log, TRANSFERS) - CountOf(s.log, TRANSFERS);
      && t.call.holds - s.call.holds >= holds && t.call.transfers - s.call.transfers >= transfers
      && (r.logged ==> t.call.holds - s.call.holds == holds && t.call.transfers - s.call.transfers == transfers)
  {
    if Accept(s.call, r).Some? {
      AcceptCounts(s.call, r);
      var e := Event(EventKind(r.op), r.at);
      CountAppend(s.log, e, HOLDS);
      CountAppend(s.log, e, TRANSFERS);
    }
    hide Accept, EventKind, CountOf;
  }

  /** For every run: the hold and transfer counts are what the log tells, and never less when events are lost. */
  lemma {:induction false} CountersFollowLog(s: Record, rs: seq<Request>)
    requires PlainNotes(rs)
    ensures var t := Run(s, rs);
      var holds, transfers := CountOf(t.log, HOLDS) - CountOf(s.log, HOLDS), CountOf(t.log, TRANSFERS) - CountOf(s.log, TRANSFERS);
      && t.call.holds - s.call.holds >= holds && t.call.transfers - s.call.transfers >= transfers
      && ((forall i :: 0 <= i < |rs| ==> rs[i].logged) ==>
            t.call.holds - s.call.holds == holds && t.call.transfers - s.call.transfers == transfers)
    decreases |rs|
  {
    if rs != [] {
      StepCounts(s, rs[0]);
      hide Step, CountOf, EventKind;
      CountersFollowLog(Step(s, rs[0]), rs[1..]);
    }
  }

  // The status an event stands for.
  function Means(k: Kind): Option<CallStatus> {
    match k
    case QueueEntered => Some(Queue)
    case AgentRinging => Some(Ringing)
    case CallAnswered => Some(Active)
    case Other(name) =>
      if name in {"call_bridged", "call_retrieved", "consult_transfer_completed", "consult_cancelled"} then Some(Active)
      else if name == "call_held" then Some(Held)
      else if name == "consult_initiated" then Some(Consulting)
      else if name == "conference_started" then Some(Conference)
      else if name == "call_ended" then Some(Completed)
      else None
    case _ => None
  }

  // The status the last such event of the log tells, or the first one without any.
  function Told(log: seq<Event>, first: CallStatus): CallStatus {
    if log == [] then first
    else if Means(log[|log| - 1].kind).Some? then Means(log[|log| - 1].kind).value
    else Told(log[..|log| - 1], first)
  }

  // All events are stored, and other events, such as dispositions, do not use the names of status events.
  ghost predicate Faithful(rs: seq<Request>) {
    forall i :: 0 <= i < |rs| ==> rs[i].logged && (rs[i].op.Annotate? ==> Means(Other(rs[i].op.name)).None?)
  }

  lemma AcceptTells(c: Call, r: Request)
    requires Accept(c, r).Some? && (r.op.Annotate? ==> Means(Other(r.op.name)).None?)
    ensures Accept(c, r).value.status
      == if Means(EventKind(r.op)).Some? then Means(EventKind(r.op)).value else c.status
  {
    hide Secs;
  }

  lemma ToldAfter(log: seq<Event>, e: Event, first: CallStatus)
    ensures Told(log + [e], first) == if Means(e.kind).Some? then Means(e.kind).value else Told(log, first)
  {
    assert (log + [e])[..|log|] == log;
    hide Means;
  }

  lemma {:induction false} RunTells(s: Record, rs: seq<Request>, first: CallStatus)
    requires s.call.status == Told(s.log, first) && Faithful(rs)
    ensures Run(s, rs).call.status == Told(Run(s, rs).log, first)
    decreases |rs|
  {
    if rs != [] {
      if Accept(s.call, rs[0]).Some? {
        AcceptTells(s.call, rs[0]);
        ToldAfter(s.log, Event(EventKind(rs[0].op), rs[0].at), first);
      }
      hide Accept, Told, Means, EventKind;
      assert Faithful(rs[1..]);
      RunTells(Step(s, rs[0]), rs[1..], first);
    }
  }

  /** Over every run whose events are all stored, the status is what the last status event tells: active after
      an answer, a bridge, a retrieval or the end of a consultation, held after a hold alone, consulting and in a
      conference after their own events, queued, ringing and completed after theirs. */
  lemma StatusFollowsLog(status: CallStatus, at: int, logged: bool, rs: seq<Request>)
    requires Faithful(rs)
    ensures var e := Run(Created(status, at, logged), rs); e.call.status == Told(e.log, status)
  {
    assert logged ==> [Event(CallCreated, at)][..0] == [];
    RunTells(Created(status, at, logged), rs, status);
  }

  // ---------------------------------------------------------------------------
  // Ending a call
  // ---------------------------------------------------------------------------

  // lifecycle.EndCall: end, then fold the events stored by then into the call.
  function Finalized(s: Record): Call {
    if s.log == [] then s.call else WithDurations(s.call, s.log)
  }

  lemma SpansFit(start: int, q: int, r: int, a: int, horizon: int)
    requires start <= q <= r <= a <= horizon
    ensures Secs(r - q) + Secs(a - r) <= Secs(horizon - start)
  {
    FloorsAdd(r - q, a - r, 0);
    SecsMonotone(a - q, horizon - start);
  }

  // Queue and ring spans of a fitting log lie one after the other between start and horizon.
  lemma SpansOfLog(s: Record, now: int)
    requires LogFits(s, now)
    ensures When(s.log, IvrCompleted).None?
    ensures var q, r, a := When(s.log, QueueEntered), When(s.log, AgentRinging), When(s.log, CallAnswered);
      && (q.Some? ==> s.call.startedAt <= q.value <= Horizon(s.call, now))
      && (r.Some? ==> s.call.startedAt <= r.value <= Horizon(s.call, now))
      && (a.Some? ==> s.call.startedAt <= a.value <= Horizon(s.call, now))
      && (q.Some? && r.Some? ==> q.value <= r.value)
      && (r.Some? && a.Some? ==> r.value <= a.value)
  {
    var log := s.log;
    WhenIsInLog(log, IvrCompleted);
    WhenIsInLog(log, QueueEntered);
    WhenIsInLog(log, AgentRinging);
    WhenIsInLog(log, CallAnswered);
    if When(log, QueueEntered).Some? && When(log, AgentRinging).Some? {
      MilestoneTimesOrdered(log, QueueEntered, AgentRinging);
    }
    if When(log, AgentRinging).Some? && When(log, CallAnswered).Some? {
      MilestoneTimesOrdered(log, AgentRinging, CallAnswered);
    }
  }

  lemma FinalizedSpans(s: Record, bridged: bool, now: int)
    requires Inv(s, bridged, now) && s.call.status == Completed
    ensures var d := Finalized(s);
      && d.endedAt.Some? && d.ivrSec == 0 && d.queueSec >= 0 && d.ringSec >= 0
      && d.queueSec == Span(When(s.log, QueueEntered), When(s.log, AgentRinging))
      && d.queueSec <= d.waitSec <= d.durationSec
      && d.durationSec == Secs(d.endedAt.value - d.startedAt)
      && d.waitSec == Secs((if d.answeredAt.Some? then d.answeredAt.value else d.endedAt.value) - d.startedAt)
      && (!bridged ==> d.ringSec == Span(When(s.log, AgentRinging), When(s.log, CallAnswered)))
      && (!bridged ==> d.queueSec + d.ringSec <= d.waitSec)
      && (bridged ==> d.ringSec == d.waitSec)
  {
    var c, log := s.call, s.log;
    var start, horizon := c.startedAt, Horizon(c, now);
    SecsMonotone(horizon - start, c.endedAt.value - start);
    if log != [] {
      FoldMeasuresSpans(c, log);
      SpansOfLog(s, now);
      WhenIsInLog(log, CallAnswered);
      var q, r, a := When(log, QueueEntered), When(log, AgentRinging), When(log, CallAnswered);
      var q' := if q.Some? then q.value else if r.Some? then r.value else start;
      var r' := if r.Some? then r.value else q';
      var a' := if a.Some? then a.value else r';
      if a.Some? && r.None? {
        SpansFit(start, q', r', r', horizon);
      } else {
        SpansFit(start, q', r', a', horizon);
      }
    }
  }

  /** For every run of a call, with any stored events lost: the durations stored at its end are the whole seconds
      of the call, of its wait until the answer or the end, between entering the queue and ringing, and, unless
      it was bridged, between ringing and the answer, and zero where the log lacks either. */
  lemma DurationsAreSpans(status: CallStatus, at: int, logged: bool, rs: seq<Request>)
    requires (status == IVR || status == Ringing) && InOrder(rs, at)
    requires Run(Created(status, at, logged), rs).call.status == Completed
    ensures var e := Run(Created(status, at, logged), rs);
      var d := Finalized(e);
      && d.endedAt.Some? && d.ivrSec == 0
      && d.durationSec == Secs(d.endedAt.value - d.startedAt)
      && d.waitSec == Secs((if d.answeredAt.Some? then d.answeredAt.value else d.endedAt.value) - d.startedAt)
      && d.queueSec == Span(When(e.log, QueueEntered), When(e.log, AgentRinging))
      && (!EverBridged(Created(status, at, logged), rs) ==>
            d.ringSec == Span(When(e.log, AgentRinging), When(e.log, CallAnswered)))
  {
    var s := Created(status, at, logged);
    hide *;
    CreatedFits(status, at, logged);
    var later := RunKeepsInv(s, false, at, rs);
    FinalizedSpans(Run(s, rs), EverBridged(s, rs), later);
  }

  /** So none of them is negative, queue time fits in the waiting time and the waiting time in the call. IVR,
      queue and ring time together fit in the waiting time exactly when the call was not bridged, or its log does
      not show a whole second between entering the queue and ringing. */
  lemma DurationsPartitionIff(status: CallStatus, at: int, logged: bool, rs: seq<Request>)
    requires (status == IVR || status == Ringing) && InOrder(rs, at)
    requires Run(Created(status, at, logged), rs).call.status == Completed
    ensures var e := Run(Created(status, at, logged), rs);
      var d := Finalized(e);
      && d.endedAt.Some?
      && d.ivrSec >= 0 && d.queueSec >= 0 && d.ringSec >= 0
      && d.queueSec <= d.waitSec <= d.durationSec
      && (d.ivrSec + d.queueSec + d.ringSec <= d.waitSec <==>
            !EverBridged(Created(status, at, logged), rs)
            || Span(When(e.log, QueueEntered), When(e.log, AgentRinging)) == 0)
  {
    var s := Created(status, at, logged);
    CreatedFits(status, at, logged);
    var later := RunKeepsInv(s, false, at, rs);
    FinalizedSpans(Run(s, rs), EverBridged(s, rs), later);
  }

  /** For every run: the log has each milestone at most once and in order, and the end time is set exactly
      when the call is completed. */
  lemma LogIsOrdered(status: CallStatus, at: int, logged: bool, rs: seq<Request>)
    requires (status == IVR || status == Ringing) && InOrder(rs, at)
    ensures var e := Run(Created(status, at, logged), rs);
      Ordered(e.log) && (e.call.endedAt.Some? <==> e.call.status == Completed)
  {
    CreatedFits(status, at, logged);
    var later := RunKeepsInv(Created(status, at, logged), false, at, rs);
  }

  /** A bridged call can exceed even its whole duration: ten seconds of queue counted once as queue and once
      as ringing. */
  lemma BridgedCallCountsQueueTwice()
    ensures var rs := [Request(TransitionToQueue(1), 0, true, true), Request(TransitionToRinging(2), 10 * SECOND, true, true),
                       Request(TransitionToActive, 10 * SECOND, true, true), Request(EndCall, 12 * SECOND, true, true)];
      var d := Finalized(Run(Created(IVR, 0, true), rs));
      d.queueSec == 10 && d.ringSec == 10 && d.durationSec == 12
  {
    var r0, r1 := Request(TransitionToQueue(1), 0, true, true), Request(TransitionToRinging(2), 10 * SECOND, true, true);
    var r2, r3 := Request(TransitionToActive, 10 * SECOND, true, true), Request(EndCall, 12 * SECOND, true, true);
    var s4 := BridgedRun(r0, r1, r2, r3);
    var e0, e1, e2 := Event(CallCreated, 0), Event(QueueEntered, 0), Event(AgentRinging, 10 * SECOND);
    var e3, e4 := Event(Other("call_bridged"), 10 * SECOND), Event(Other("call_ended"), 12 * SECOND);
    var l2, l3, l4, l5 := [e0, e1], [e0, e1, e2], [e0, e1, e2, e3], [e0, e1, e2, e3, e4];
    assert [e0][..0] == [] && l2[..1] == [e0] && l3[..2] == l2 && l4[..3] == l3 && l5[..4] == l4;
    var f0 := FoldLog(s4.call, [e0]);
    assert FoldLog(s4.call, []) == Fold(None, None, None, 0, 0, 10);
    assert f0 == FoldEvent(FoldLog(s4.call, []), e0);
    assert f0 == Fold(Some(0), None, None, 0, 0, 10);
    var f1 := FoldLog(s4.call, l2);
    assert f1 == f0.(queueStart := Some(0));
    var f2 := FoldLog(s4.call, l3);
    assert f2.queueSec == 10 && f2.ringSec == 10;
    assert FoldLog(s4.call, l4) == f2;
    assert FoldLog(s4.call, l5) == f2;
  }

  lemma BridgedRun(r0: Request, r1: Request, r2: Request, r3: Request) returns (s4: Record)
    requires r0 == Request(TransitionToQueue(1), 0, true, true)
    requires r1 == Request(TransitionToRinging(2), 10 * SECOND, true, true)
    requires r2 == Request(TransitionToActive, 10 * SECOND, true, true)
    requires r3 == Request(EndCall, 12 * SECOND, true, true)
    ensures Run(Created(IVR, 0, true), [r0, r1, r2, r3]) == s4
    ensures s4.call.ivrSec == 0 && s4.call.queueSec == 0 && s4.call.ringSec == 10 && s4.call.durationSec == 12
    ensures s4.log == [Event(CallCreated, 0), Event(QueueEntered, 0), Event(AgentRinging, 10 * SECOND),
                       Event(Other("call_bridged"), 10 * SECOND), Event(Other("call_ended"), 12 * SECOND)]
  {
    var s1 := Step(Created(IVR, 0, true), r0);
    var s2 := Step(s1, r1);
    var s3 := Step(s2, r2);
    s4 := Step(s3, r3);
    var c := NewCall(IVR, 0);
    assert s1.call == c.(status := Queue, group := Some(1));
    assert s2.call == s1.call.(status := Ringing, agent := Some(2));
    assert s3.call == s2.call.(status := Active, answeredAt := Some(10 * SECOND), ringSec := 10);
    assert s4.call.ivrSec == 0 && s4.call.queueSec == 0 && s4.call.ringSec == 10 && s4.call.durationSec == 12;
    assert s2.log == [Event(CallCreated, 0), Event(QueueEntered, 0), Event(AgentRinging, 10 * SECOND)];
    assert s4.log == s2.log + [Event(Other("call_bridged"), 10 * SECOND), Event(Other("call_ended"), 12 * SECOND)];
    hide Step;
    assert [r0, r1, r2, r3][1..] == [r1, r2, r3] && [r1, r2, r3][1..] == [r2, r3] && [r2, r3][1..] == [r3] && [r3][1..] == [];
    assert Run(s3, [r3]) == s4;
    assert Run(s2, [r2, r3]) == s4;
    assert Run(s1, [r1, r2, r3]) == s4;
  }

  // ---------------------------------------------------------------------------
  // The service
  // ---------------------------------------------------------------------------

  /** One stored call and its stored events, as the call service's methods change them. */
  class StoredCall {
    var call: Call
    var events: seq<Event>

    ghost function View(): Record
      reads this
    {
      Record(call, events)
    }

    /** CreateInboundCall, or CreateOutboundCall and CreateInternalCall for a ringing one. */
    constructor (inbound: bool, now: int, logged: bool)
      ensures View() == Created(if inbound then IVR else Ringing, now, logged)
    {
      call := NewCall(if inbound then IVR else Ringing, now);
      events := if logged then [Event(CallCreated, now)] else [];
    }

    method Append(kind: Kind, now: int, logged: bool)
      modifies this`events
      ensures events == if logged then old(events) + [Event(kind, now)] else old(events)
    {
      if logged {
        events := events + [Event(kind, now)];
      }
    }

    method ToQueue(group: int, now: int, logged: bool) returns (ok: bool)
      modifies this
      ensures View() == Step(old(View()), Request(TransitionToQueue(group), now, true, logged))
      ensures ok <==> old(call.status) == IVR
      ensures ok ==> call == old(call).(status := Queue, group := Some(group))
      ensures events == old(events) + if ok && logged then [Event(QueueEntered, now)] else []
      ensures !ok ==> call == old(call)
    {
      if call.status != IVR {
        return false;
      }
      call := call.(status := Queue, group := Some(group));
      Append(QueueEntered, now, logged);
      return true;
    }

    method ToRinging(agent: int, now: int, logged: bool) returns (ok: bool)
      modifies this
      ensures View() == Step(old(View()), Request(TransitionToRinging(agent), now, true, logged))
      ensures ok <==> old(call.status) == Queue || old(call.status) == IVR
      ensures ok ==> call == old(call).(status := Ringing, agent := Some(agent))
      ensures events == old(events) + if ok && logged then [Event(AgentRinging, now)] else []
      ensures !ok ==> call == old(call)
    {
      if call.status != Queue && call.status != IVR {
        return false;
      }
      call := call.(status := Ringing, agent := Some(agent));
      Append(AgentRinging, now, logged);
      return true;
    }

    method ToActive(now: int, logged: bool) returns (ok: bool)
      modifies this
      ensures View() == Step(old(View()), Request(TransitionToActive, now, true, logged))
      ensures ok <==> old(call.status) == Ringing || old(call.status) == Queue
      ensures ok ==> call == old(call).(status := Active, answeredAt := if old(call.answeredAt).Some? then old(call.answeredAt) else Some(now),
        ringSec := Secs(now - old(call.startedAt)) - old(call.queueSec) - old(call.ivrSec))
      ensures events == old(events) + if ok && logged then [Event(Other("call_bridged"), now)] else []
      ensures !ok ==> call == old(call)
    {
      if call.status != Ringing && call.status != Queue {
        return false;
      }
      call := call.(status := Active);
      if call.answeredAt.None? {
        call := call.(answeredAt := Some(now));
      }
      call := call.(ringSec := Secs(now - call.startedAt) - call.queueSec - call.ivrSec);
      Append(Other("call_bridged"), now, logged);
      return true;
    }

    method Answer(agent: int, now: int, logged: bool) returns (ok: bool)
      modifies this
      ensures View() == Step(old(View()), Request(AnswerCall(agent), now, true, logged))
      ensures ok <==> Unanswered(old(call.status))
      ensures ok ==> call == old(call).(status := Active, answeredAt := Some(now), agent := Some(agent),
        waitSec := Secs(now - old(call.startedAt)))
      ensures events == old(events) + if ok && logged then [Event(CallAnswered, now)] else []
      ensures !ok ==> call == old(call)
    {
      if call.status != Ringing && call.status != IVR && call.status != Queue {
        return false;
      }
      call := call.(status := Active, answeredAt := Some(now), agent := Some(agent));
      call := call.(waitSec := Secs(now - call.startedAt));
      Append(CallAnswered, now, logged);
      return true;
    }

    method Hold(media: bool, now: int, logged: bool) returns (ok: bool)
      modifies this
      ensures View() == Step(old(View()), Request(HoldCall, now, media, logged))
      ensures ok <==> old(call.status) == Active && media
      ensures ok ==> call == old(call).(status := Held, holds := old(call.holds) + 1)
      ensures events == old(events) + if ok && logged then [Event(Other("call_held"), now)] else []
      ensures !ok ==> call == old(call)
    {
      if call.status != Active {
        return false;
      }
      var c := call.(status := Held, holds := call.holds + 1);
      if !media {
        return false;
      }
      call := c;
      Append(Other("call_held"), now, logged);
      return true;
    }

    method Retrieve(media: bool, now: int, logged: bool) returns (ok: bool)
      modifies this
      ensures View() == Step(old(View()), Request(RetrieveCall, now, media, logged))
      ensures ok <==> old(call.status) == Held && media
      ensures ok ==> call == old(call).(status := Active)
      ensures events == old(events) + if ok && logged then [Event(Other("call_retrieved"), now)] else []
      ensures !ok ==> call == old(call)
    {
      if call.status != Held || !media {
        return false;
      }
      call := call.(status := Active);
      Append(Other("call_retrieved"), now, logged);
      return true;
    }

    method Consult(target: string, media: bool, now: int, logged: bool) returns (ok: bool)
      modifies this
      ensures View() == Step(old(View()), Request(InitiateConsult(target), now, media, logged))
      ensures ok <==> old(call.status) == Active && target != "" && media
      ensures ok ==> call == old(call).(status := Consulting)
      ensures events == old(events) + if ok && logged then [Event(Other("consult_initiated"), now)] else []
      ensures !ok ==> call == old(call)
    {
      if call.status != Active || target == "" || !media {
        return false;
      }
      call := call.(status := Consulting);
      Append(Other("consult_initiated"), now, logged);
      return true;
    }

    method CompleteConsult(now: int, logged: bool) returns (ok: bool)
      modifies this
      ensures View() == Step(old(View()), Request(CompleteConsultTransfer, now, true, logged))
      ensures ok <==> old(call.status) == Consulting
      ensures ok ==> call == old(call).(status := Active, transfers := old(call.transfers) + 1)
      ensures events == old(events) + if ok && logged then [Event(Other("consult_transfer_completed"), now)] else []
      ensures !ok ==> call == old(call)
    {
      if call.status != Consulting {
        return false;
      }
      call := call.(transfers := call.transfers + 1, status := Active);
      Append(Other("consult_transfer_completed"), now, logged);
      return true;
    }

    method AbandonConsult(now: int, logged: bool) returns (ok: bool)
      modifies this
      ensures View() == Step(old(View()), Request(CancelConsult, now, true, logged))
      ensures ok <==> old(call.status) == Consulting
      ensures ok ==> call == old(call).(status := Active)
      ensures events == old(events) + if ok && logged then [Event(Other("consult_cancelled"), now)] else []
      ensures !ok ==> call == old(call)
    {
      if call.status != Consulting {
        return false;
      }
      call := call.(status := Active);
      Append(Other("consult_cancelled"), now, logged);
      return true;
    }

    method Confer(media: bool, now: int, logged: bool) returns (ok: bool)
      modifies this
      ensures View() == Step(old(View()), Request(StartConference, now, media, logged))
      ensures ok <==> (old(call.status) == Active || old(call.status) == Consulting) && media
      ensures ok ==> call == old(call).(status := Conference)
      ensures events == old(events) + if ok && logged then [Event(Other("conference_started"), now)] else []
      ensures !ok ==> call == old(call)
    {
      if (call.status != Active && call.status != Consulting) || !media {
        return false;
      }
      call := call.(status := Conference);
      Append(Other("conference_started"), now, logged);
      return true;
    }

    method Transfer(target: string, attended: bool, media: bool, now: int, logged: bool) returns (ok: bool)
      modifies this
      ensures View() == Step(old(View()),
        Request(if attended then AttendedTransfer(target) else BlindTransfer(target), now, media, logged))
      ensures ok <==> (target != "" && media
        && if attended then old(call.status) in {Active, Held} else old(call.status) !in {Completed, Failed})
      ensures ok ==> call == old(call).(transfers := old(call.transfers) + 1)
      ensures events == old(events)
        + if ok && logged then [Event(Other(if attended then "attended_transfer" else "blind_transfer"), now)] else []
      ensures !ok ==> call == old(call)
    {
      if attended {
        if call.status != Active && call.status != Held {
          return false;
        }
      } else if call.status == Completed || call.status == Failed {
        return false;
      }
      if target == "" || !media {
        return false;
      }
      call := call.(transfers := call.transfers + 1);
      Append(Other(if attended then "attended_transfer" else "blind_transfer"), now, logged);
      return true;
    }

    /** CallService.EndCall. */
    method End(now: int, logged: bool) returns (ok: bool)
      modifies this
      ensures View() == Step(old(View()), Request(EndCall, now, true, logged))
      ensures ok <==> old(call.status) != Completed
      ensures ok ==> call == old(call).(status := Completed, endedAt := Some(now), durationSec := Secs(now - old(call.startedAt)),
        waitSec := Secs((if old(call.answeredAt).Some? then old(call.answeredAt.value) else now) - old(call.startedAt)))
      ensures events == old(events) + if ok && logged then [Event(Other("call_ended"), now)] else []
      ensures !ok ==> call == old(call)
    {
      if call.status == Completed {
        return false;
      }
      call := call.(status := Completed, endedAt := Some(now), durationSec := Secs(now - call.startedAt));
      if call.answeredAt.Some? {
        call := call.(waitSec := Secs(call.answeredAt.value - call.startedAt));
      } else {
        call := call.(waitSec := Secs(now - call.startedAt));
      }
      Append(Other("call_ended"), now, logged);
      return true;
    }

    /** lifecycle.EndCall: end the call, list its events, compute the durations and store them. */
    method Finish(now: int, logged: bool) returns (ok: bool)
      modifies this
      ensures ok <==> old(call.status) != Completed
      ensures !ok ==> View() == old(View())
      ensures ok ==>
        && events == Step(old(View()), Request(EndCall, now, true, logged)).log
        && call == Finalized(Step(old(View()), Request(EndCall, now, true, logged)))
    {
      ok := End(now, logged);
      if ok && |events| > 0 {
        call := CalculateDurations(call, events);
      }
    }
  }
}
