/** Agent presence (internal/domain/identity): the status machine with its transition table, the log that
    accounts for an agent's time, ghost resets, and the after-call-work timers. Times are nanoseconds. */
module Presence {
  import opened Clock
  import opened Options

  datatype Status = Offline | Online | Idle | Break | Talking | ACW | Dialing

  datatype Row = Row(status: Status, subState: string, workMode: string, breakReason: string, disposition: string,
                     callId: Option<int>, acwSeconds: int, checkedInAt: int, lastStatusAt: int, updatedAt: int)

  datatype LogEntry = LogEntry(status: Status, breakReason: string, durationSec: int, at: int)

  // One agent: the stored row, the log, and the log's length at the last check-in.
  datatype Agent = Agent(row: Option<Row>, log: seq<LogEntry>, shift: nat)

  datatype Operation =
    | CheckIn(workMode: string)
    | CheckOut
    | TransitionTo(to: Status)
    | SetSubState(subState: string)
    | SwitchWorkMode(workMode: string)
    | SetBreak(reason: string)
    | SetACW(disposition: string, resolved: int)
    | ResetGhost(maxDuration: int)

  const VALID_TRANSITIONS: map<Status, set<Status>> := map[
    Offline := {Online},
    Online := {Idle, Offline},
    Idle := {Dialing, Talking, Break, Offline},
    Dialing := {Talking, ACW, Idle, Offline},
    Talking := {ACW, Idle, Offline},
    ACW := {Idle, Offline},
    Break := {Idle, Offline}]

  predicate IsValidTransition(from: Status, to: Status) {
    from in VALID_TRANSITIONS && to in VALID_TRANSITIONS[from]
  }

  const WORK_MODES: set<string> := {"on_site", "off_site", "office"}

  /** The table read backwards: what may come before each status. */
  lemma TableIs(from: Status, to: Status)
    ensures to == Offline ==> (IsValidTransition(from, to) <==> from != Offline)
    ensures to == Online ==> (IsValidTransition(from, to) <==> from == Offline)
    ensures to == Idle ==> (IsValidTransition(from, to) <==> from in {Online, Dialing, Talking, ACW, Break})
    ensures to == Dialing || to == Break ==> (IsValidTransition(from, to) <==> from == Idle)
    ensures to == Talking ==> (IsValidTransition(from, to) <==> from in {Idle, Dialing})
    ensures to == ACW ==> (IsValidTransition(from, to) <==> from in {Dialing, Talking})
  {
  }

  // ---------------------------------------------------------------------------
  // The steps
  // ---------------------------------------------------------------------------

  function Logged(a: Agent, row: Row, now: int): seq<LogEntry> {
    a.log + [LogEntry(row.status, row.breakReason, Secs(now - row.lastStatusAt), now)]
  }

  function Moved(row: Row, to: Status, now: int): Row {
    var r1 := row.(status := to, updatedAt := now, lastStatusAt := now);
    var r2 := if to != Talking then r1.(subState := "") else r1;
    if to == Idle || to == Offline then r2.(callId := None, disposition := "", breakReason := "") else r2
  }

  function Transition(a: Agent, to: Status, now: int): Agent {
    if a.row.None? || !IsValidTransition(a.row.value.status, to) then a
    else a.(row := Some(Moved(a.row.value, to, now)), log := Logged(a, a.row.value, now))
  }

  predicate MayTransition(a: Agent, to: Status) {
    a.row.Some? && IsValidTransition(a.row.value.status, to)
  }

  // The status a ghost reset gives a stale row; None when the row is not stale.
  function GhostStatus(row: Row, maxDuration: int, now: int): Option<Status> {
    if (row.status == Talking || row.status == Dialing) && now - row.lastStatusAt > maxDuration then Some(Idle)
    else if (row.status == Online || row.status == Idle || row.status == ACW) && now - row.updatedAt > 3 * maxDuration
    then Some(Offline)
    else None
  }

  function Swept(a: Agent, maxDuration: int, now: int): Agent {
    if a.row.None? then a
    else
      var row := a.row.value;
      var to := GhostStatus(row, maxDuration, now);
      if to.None? then a
      else a.(row := Some(row.(status := to.value, subState := "", callId := None, updatedAt := now, lastStatusAt := now)),
              log := Logged(a, row, now))
  }

  function Step(a: Agent, op: Operation, now: int): Agent {
    match op
    case CheckIn(mode) => Agent(Some(Row(Online, "", mode, "", "", None, 0, now, now, now)), a.log, |a.log|)
    case CheckOut =>
      if a.row.None? then a
      else a.(row := Some(a.row.value.(status := Offline, subState := "", callId := None, updatedAt := now, lastStatusAt := now)),
              log := Logged(a, a.row.value, now))
    case TransitionTo(to) => Transition(a, to, now)
    case SetSubState(s) => if a.row.None? then a else a.(row := Some(a.row.value.(subState := s, updatedAt := now)))
    case SwitchWorkMode(m) =>
      if m !in WORK_MODES || a.row.None? then a else a.(row := Some(a.row.value.(workMode := m, updatedAt := now)))
    case SetBreak(reason) =>
      var b := Transition(a, Break, now);
      if !MayTransition(a, Break) then a else b.(row := Some(b.row.value.(breakReason := reason, updatedAt := now)))
    case SetACW(disposition, resolved) =>
      var b := Transition(a, ACW, now);
      if !MayTransition(a, ACW) then a
      else b.(row := Some(b.row.value.(disposition := disposition, updatedAt := now,
                                       acwSeconds := if resolved > 0 then resolved else b.row.value.acwSeconds)))
    case ResetGhost(maxDuration) => Swept(a, maxDuration, now)
  }

  datatype Timed = Timed(op: Operation, at: int)

  function Run(a: Agent, ops: seq<Timed>): Agent
    decreases |ops|
  {
    if ops == [] then a else Run(Step(a, ops[0].op, ops[0].at), ops[1..])
  }

  // ---------------------------------------------------------------------------
  // What every step keeps
  // ---------------------------------------------------------------------------

  /** Apart from check-in, a step logs exactly when it moves the status along the transition table, or checks
      out an agent who is already offline; every other step leaves the status alone. */
  lemma StepFollowsTable(a: Agent, op: Operation, now: int)
    requires a.row.Some? && !op.CheckIn?
    ensures var b := Step(a, op, now);
      && b.row.Some?
      && (if b.log == a.log then b.row.value.status == a.row.value.status && b.row.value.lastStatusAt == a.row.value.lastStatusAt
          else
            && b.log == Logged(a, a.row.value, now) && b.row.value.lastStatusAt == now
            && (|| IsValidTransition(a.row.value.status, b.row.value.status)
                || (op.CheckOut? && a.row.value.status == Offline && b.row.value.status == Offline)))
  {
    assert |Logged(a, a.row.value, now)| == |a.log| + 1;
  }

  /** A ghost reset makes an agent idle who talks or dials for longer than the limit, takes one offline who is
      online, idle or in after-call work and was not heard of for more than three times the limit, and leaves
      every other agent as it is. */
  lemma GhostResetIff(a: Agent, maxDuration: int, now: int)
    requires a.row.Some?
    ensures var row, b := a.row.value, Step(a, ResetGhost(maxDuration), now);
      var quiet := row.status in {Talking, Dialing} && now - row.lastStatusAt > maxDuration;
      var gone := row.status in {Online, Idle, ACW} && now - row.updatedAt > 3 * maxDuration;
      && (quiet ==> b.row.Some? && b.row.value.status == Idle)
      && (gone ==> b.row.Some? && b.row.value.status == Offline)
      && (quiet || gone ==>
            && b.row.value == row.(status := b.row.value.status, subState := "", callId := None, updatedAt := now, lastStatusAt := now)
            && b.log == a.log + [LogEntry(row.status, row.breakReason, Secs(now - row.lastStatusAt), now)])
      && (!quiet && !gone ==> b == a)
  {
  }

  /** What the other status changes leave in the row: a sub-state only while talking, and no call, disposition or
      break reason in the statuses between calls. */
  lemma TransitionClears(a: Agent, to: Status, now: int)
    requires a.row.Some? && IsValidTransition(a.row.value.status, to)
    ensures var row, b := a.row.value, Step(a, TransitionTo(to), now).row;
      && b.Some? && b.value.status == to && b.value.lastStatusAt == now && b.value.updatedAt == now
      && b.value.subState == (if to == Talking then row.subState else "")
      && (to in {Idle, Offline} ==> b.value.callId == None && b.value.disposition == "" && b.value.breakReason == "")
      && (to !in {Idle, Offline} ==>
            b.value.(status := row.status, subState := "", lastStatusAt := 0, updatedAt := 0)
              == row.(subState := "", lastStatusAt := 0, updatedAt := 0))
      && b.value.workMode == row.workMode && b.value.acwSeconds == row.acwSeconds && b.value.checkedInAt == row.checkedInAt
  {
  }

  /** Checking out ends any status, keeping the disposition and the break reason. */
  lemma CheckOutRow(a: Agent, now: int)
    requires a.row.Some?
    ensures Step(a, CheckOut, now) == a.(
      row := Some(a.row.value.(status := Offline, subState := "", callId := None, updatedAt := now, lastStatusAt := now)),
      log := a.log + [LogEntry(a.row.value.status, a.row.value.breakReason, Secs(now - a.row.value.lastStatusAt), now)])
  {
  }

  // Only agents on a break, or who went offline from one, carry a reason.
  ghost predicate ReasonFits(row: Row) {
    row.status == Idle || row.status == Dialing || row.status == Talking || row.status == ACW ==> row.breakReason == ""
  }

  // Entries of the current shift follow one another from the check-in to the last status change.
  ghost predicate Accounted(a: Agent)
    requires a.row.Some? && a.shift <= |a.log|
  {
    && (forall i :: a.shift <= i < |a.log| ==>
          && Since(a, i) <= a.log[i].at
          && a.log[i].durationSec == Secs(a.log[i].at - Since(a, i)))
    && a.row.value.lastStatusAt == Since(a, |a.log|)
  }

  // When the span of entry i began.
  ghost function Since(a: Agent, i: int): int
    requires a.row.Some? && a.shift <= i <= |a.log|
  {
    if i == a.shift then a.row.value.checkedInAt else a.log[i - 1].at
  }

  ghost predicate Inv(a: Agent, now: int) {
    a.row.Some? ==>
      && a.shift <= |a.log|
      && ReasonFits(a.row.value) && Accounted(a)
      && a.row.value.lastStatusAt <= now
  }

  lemma StepKeepsInv(a: Agent, op: Operation, before: int, now: int)
    requires Inv(a, before) && before <= now
    ensures Inv(Step(a, op, now), now)
  {
    if a.row.Some? && !op.CheckIn? {
      StepFollowsTable(a, op, now);
      StepKeepsReason(a, op, now);
      var b := Step(a, op, now);
      assert b.shift == a.shift && b.row.value.checkedInAt == a.row.value.checkedInAt;
      hide Step, ReasonFits, IsValidTransition;
      if b.log != a.log {
        AppendKeepsAccounted(a, b, now);
      } else {
        SameLogKeepsAccounted(a, b);
      }
    }
  }

  lemma StepKeepsReason(a: Agent, op: Operation, now: int)
    requires a.row.Some? && ReasonFits(a.row.value)
    ensures ReasonFits(Step(a, op, now).row.value)
  {
  }

  lemma SameLogKeepsAccounted(a: Agent, b: Agent)
    requires a.row.Some? && a.shift <= |a.log| && Accounted(a)
    requires b.row.Some? && b.shift == a.shift && b.log == a.log
    requires b.row.value.checkedInAt == a.row.value.checkedInAt && b.row.value.lastStatusAt == a.row.value.lastStatusAt
    ensures Accounted(b)
  {
    assert forall i :: a.shift <= i <= |a.log| ==> Since(b, i) == Since(a, i);
  }

  lemma AppendKeepsAccounted(a: Agent, b: Agent, now: int)
    requires a.row.Some? && a.shift <= |a.log| && Accounted(a) && a.row.value.lastStatusAt <= now
    requires b.row.Some? && b.shift == a.shift && b.log == Logged(a, a.row.value, now)
    requires b.row.value.checkedInAt == a.row.value.checkedInAt && b.row.value.lastStatusAt == now
    ensures Accounted(b)
  {
    forall i | b.shift <= i < |b.log|
      ensures Since(b, i) <= b.log[i].at && b.log[i].durationSec == Secs(b.log[i].at - Since(b, i))
    {
      assert Since(b, i) == Since(a, i);
    }
  }

  ghost predicate InOrder(ops: seq<Timed>, now: int) {
    && (forall i :: 0 <= i < |ops| ==> now <= ops[i].at)
    && (forall i, j :: 0 <= i < j < |ops| ==> ops[i].at <= ops[j].at)
  }

  lemma {:induction false} RunKeepsInv(a: Agent, ops: seq<Timed>, now: int)
    requires Inv(a, now) && InOrder(ops, now)
    ensures Inv(Run(a, ops), if ops == [] then now else ops[|ops| - 1].at)
    decreases |ops|
  {
    if ops != [] {
      StepKeepsInv(a, ops[0].op, now, ops[0].at);
      RunKeepsInv(Step(a, ops[0].op, ops[0].at), ops[1..], ops[0].at);
    }
  }

  // Total of the logged seconds of the entries from..n.
  ghost function LoggedSeconds(log: seq<LogEntry>, from: nat, n: nat): int
    requires from <= n <= |log|
    decreases n
  {
    if from == n then 0 else LoggedSeconds(log, from, n - 1) + log[n - 1].durationSec
  }

  lemma {:induction false} SpansTelescope(a: Agent, n: nat)
    requires a.row.Some? && a.shift <= n <= |a.log| && Accounted(a)
    ensures var spans := Since(a, n) - a.row.value.checkedInAt;
      && LoggedSeconds(a.log, a.shift, n) * SECOND <= spans
      && spans <= LoggedSeconds(a.log, a.shift, n) * SECOND + (n - a.shift) * (SECOND - 1)
    decreases n
  {
    if n > a.shift {
      SpansTelescope(a, n - 1);
      var d := a.log[n - 1].at - Since(a, n - 1);
      assert d >= 0 && Secs(d) * SECOND <= d <= Secs(d) * SECOND + SECOND - 1;
    }
  }

  /** Over every run of an agent's presence: Idle, Dialing, Talking and ACW carry no break reason; and at any
      later instant the logged seconds since check-in plus the current span make up the elapsed time, short
      by less than one second for each entry. */
  lemma TimeIsAccountedFor(ops: seq<Timed>, start: int, now: int)
    requires InOrder(ops, start) && Run(Agent(None, [], 0), ops).row.Some?
    requires forall i :: 0 <= i < |ops| ==> ops[i].at <= now
    ensures var a := Run(Agent(None, [], 0), ops);
      && ReasonFits(a.row.value)
      && a.shift <= |a.log| && a.row.value.checkedInAt <= a.row.value.lastStatusAt <= now
      && var entries := |a.log| - a.shift;
         var missing := (now - a.row.value.checkedInAt)
           - (LoggedSeconds(a.log, a.shift, |a.log|) * SECOND + (now - a.row.value.lastStatusAt));
         0 <= missing <= entries * (SECOND - 1)
  {
    var a := Run(Agent(None, [], 0), ops);
    RunKeepsInv(Agent(None, [], 0), ops, start);
    SpansTelescope(a, |a.log|);
    SinceAfterCheckIn(a, |a.log|);
    assert ops != [];
  }

  lemma {:induction false} SinceAfterCheckIn(a: Agent, i: nat)
    requires a.row.Some? && a.shift <= i <= |a.log| && Accounted(a)
    ensures a.row.value.checkedInAt <= Since(a, i)
    decreases i
  {
    if i > a.shift {
      SinceAfterCheckIn(a, i - 1);
    }
  }

  // The status after that of entry i.
  function After(a: Agent, i: int): Status
    requires a.row.Some? && 0 <= i < |a.log|
  {
    if i + 1 < |a.log| then a.log[i + 1].status else a.row.value.status
  }

  // The logged statuses of the shift lead, one by one, from online to the present one.
  ghost predicate LogLeads(a: Agent) {
    a.row.Some? ==>
      && a.shift <= |a.log|
      && (if a.shift < |a.log| then a.log[a.shift].status else a.row.value.status) == Online
      && (forall i :: a.shift <= i < |a.log| ==>
            IsValidTransition(a.log[i].status, After(a, i)) || (a.log[i].status == Offline && After(a, i) == Offline))
  }

  lemma StepLeads(a: Agent, op: Operation, now: int)
    requires LogLeads(a)
    ensures LogLeads(Step(a, op, now))
  {
    if a.row.Some? && !op.CheckIn? {
      StepFollowsTable(a, op, now);
      var b := Step(a, op, now);
      assert b.shift == a.shift;
      hide Step, IsValidTransition;
      forall i | b.shift <= i < |b.log|
        ensures IsValidTransition(b.log[i].status, After(b, i)) || (b.log[i].status == Offline && After(b, i) == Offline)
      {
        if i < |a.log| {
          assert b.log[i] == a.log[i] && After(b, i) == After(a, i);
        }
      }
    }
  }

  lemma {:induction false} RunLeads(a: Agent, ops: seq<Timed>)
    requires LogLeads(a)
    ensures LogLeads(Run(a, ops))
    decreases |ops|
  {
    if ops != [] {
      StepLeads(a, ops[0].op, ops[0].at);
      hide Step, LogLeads;
      RunLeads(Step(a, ops[0].op, ops[0].at), ops[1..]);
    }
  }

  /** Over every run: the log of a shift holds the statuses the agent had, in their order, from online to the one
      before the present; each follows from the one before by the transition table, but for checking out again. */
  lemma LogIsThePath(ops: seq<Timed>)
    ensures LogLeads(Run(Agent(None, [], 0), ops))
  {
    RunLeads(Agent(None, [], 0), ops);
  }

  ghost predicate OnBreak(a: Agent) {
    a.row.Some? && a.row.value.status == Break
  }

  // Whether the agent's last break of the run so far ended with a check-out; was is the answer before the run.
  function CheckedOut(a: Agent, was: bool, ops: seq<Timed>): bool
    decreases |ops|
  {
    if ops == [] then was
    else
      var b := Step(a, ops[0].op, ops[0].at);
      var on := a.row.Some? && a.row.value.status == Break;
      var still := b.row.Some? && b.row.value.status == Break;
      CheckedOut(b, if still then false else if on then ops[0].op.CheckOut? else was, ops[1..])
  }

  ghost predicate ReasonHasCause(a: Agent, out: bool) {
    a.row.Some? && a.row.value.status != Break && a.row.value.breakReason != "" ==> out
  }

  lemma {:induction false} ReasonKeepsCause(a: Agent, was: bool, ops: seq<Timed>)
    requires ReasonHasCause(a, was)
    ensures ReasonHasCause(Run(a, ops), CheckedOut(a, was, ops))
    decreases |ops|
  {
    if ops != [] {
      var b := Step(a, ops[0].op, ops[0].at);
      var was' := if OnBreak(b) then false else if OnBreak(a) then ops[0].op.CheckOut? else was;
      assert ReasonHasCause(b, was');
      hide Step;
      ReasonKeepsCause(b, was', ops[1..]);
    }
  }

  /** Over every run: an agent who is not on a break carries a break reason only when the last break ended with
      a check-out. */
  lemma OnlyCheckOutKeepsReasons(ops: seq<Timed>)
    ensures var a := Run(Agent(None, [], 0), ops);
      a.row.Some? && a.row.value.status != Break && a.row.value.breakReason != "" ==>
        CheckedOut(Agent(None, [], 0), false, ops)
  {
    ReasonKeepsCause(Agent(None, [], 0), false, ops);
  }

  /** Checking out during a break does keep it: the offline row holds the reason, and coming online again
      holds it too, until the agent is idle. */
  lemma CheckOutKeepsBreakReason(a: Agent, t0: int, t1: int, t2: int)
    requires a.row.Some? && a.row.value.status == Break
    ensures var off := Step(a, CheckOut, t0);
      var on := Step(off, TransitionTo(Online), t1);
      && off.row.value.breakReason == a.row.value.breakReason == on.row.value.breakReason
      && on.row.value.status == Online
      && Step(on, TransitionTo(Idle), t2).row.value.breakReason == ""
  {
  }

  // ---------------------------------------------------------------------------
  // The service
  // ---------------------------------------------------------------------------

  // The listed agents that a ghost reset changes.
  ghost function Stale(agents: map<int, Agent>, ids: seq<int>, maxDuration: int, now: int): set<int> {
    set id | id in ids && IsStale(agents, id, maxDuration, now)
  }

  predicate IsStale(agents: map<int, Agent>, id: int, maxDuration: int, now: int) {
    id in agents && agents[id].row.Some? && GhostStatus(agents[id].row.value, maxDuration, now).Some?
  }

  lemma StaleStep(agents: map<int, Agent>, ids: seq<int>, id: int, maxDuration: int, now: int)
    requires id !in ids
    ensures |Stale(agents, ids + [id], maxDuration, now)|
         == |Stale(agents, ids, maxDuration, now)| + if IsStale(agents, id, maxDuration, now) then 1 else 0
  {
    var s, t := Stale(agents, ids, maxDuration, now), Stale(agents, ids + [id], maxDuration, now);
    assert t == if IsStale(agents, id, maxDuration, now) then s + {id} else s;
  }

  /** AgentPresenceService. acwTimers holds, for each agent, the stop channel of the running timer; channels
      are numbered, and closed holds those that were closed. */
  class AgentPresenceService {
    var agents: map<int, Agent>
    var acwTimers: map<int, int>
    var closed: set<int>
    var nextChannel: int

    ghost predicate Valid()
      reads this
    {
      && (forall a :: a in acwTimers ==> acwTimers[a] < nextChannel && acwTimers[a] !in closed)
      && (forall a, b :: a in acwTimers && b in acwTimers && a != b ==> acwTimers[a] != acwTimers[b])
      && (forall ch :: ch in closed ==> ch < nextChannel)
    }

    function Get(id: int): Agent
      reads this
    {
      if id in agents then agents[id] else Agent(None, [], 0)
    }

    constructor ()
      ensures Valid() && agents == map[]
    {
      agents, acwTimers, closed, nextChannel := map[], map[], {}, 0;
    }

    // The agent's running timer, as the channel that stops it.
    function Channels(id: int): set<int>
      reads this
    {
      if id in acwTimers then {acwTimers[id]} else {}
    }

    // Closing a closed channel would panic.
    method Close(ch: int)
      requires ch !in closed
      modifies this`closed
      ensures closed == old(closed) + {ch}
    {
      closed := closed + {ch};
    }

    method CancelACWTimer(id: int)
      requires Valid()
      modifies this`acwTimers, this`closed
      ensures Valid() && acwTimers == old(acwTimers) - {id} && closed == old(closed) + old(Channels(id))
    {
      if id in acwTimers {
        Close(acwTimers[id]);
        acwTimers := acwTimers - {id};
      }
    }

    method ScheduleACWTimeout(id: int)
      requires Valid()
      modifies this`acwTimers, this`closed, this`nextChannel
      ensures Valid() && id in acwTimers && acwTimers == old(acwTimers)[id := acwTimers[id]]
      ensures acwTimers[id] == old(nextChannel) && nextChannel == old(nextChannel) + 1 && closed == old(closed) + old(Channels(id))
    {
      if id in acwTimers {
        Close(acwTimers[id]);
      }
      acwTimers := acwTimers[id := nextChannel];
      nextChannel := nextChannel + 1;
    }

    /** The end of a timer's goroutine: it forgets whatever timer the agent has by then. */
    method TimerEnds(id: int, fired: bool, now: int)
      requires Valid()
      modifies this
      ensures Valid() && acwTimers == old(acwTimers) - {id}
      ensures Get(id) == if fired then Step(old(Get(id)), TransitionTo(Idle), now) else old(Get(id))
    {
      if fired {
        var _ := ChangeStatus(id, Idle, now);
      }
      acwTimers := acwTimers - {id};
    }

    method Store(id: int, a: Agent)
      modifies this`agents
      ensures agents == old(agents)[id := a] && Get(id) == a
    {
      agents := agents[id := a];
    }

    method CheckInAgent(id: int, workMode: string, now: int)
      requires Valid()
      modifies this`agents
      ensures agents == old(agents)[id := Step(old(Get(id)), CheckIn(workMode), now)]
      ensures Get(id) == Agent(Some(Row(Online, "", workMode, "", "", None, 0, now, now, now)), old(Get(id)).log, |old(Get(id)).log|)
    {
      var log := Get(id).log;
      Store(id, Agent(Some(Row(Online, "", workMode, "", "", None, 0, now, now, now)), log, |log|));
    }

    method CheckOutAgent(id: int, now: int) returns (ok: bool)
      modifies this`agents
      ensures ok <==> old(Get(id)).row.Some?
      ensures Get(id) == Step(old(Get(id)), CheckOut, now)
      ensures forall other :: other != id ==> Get(other) == old(Get(other))
    {
      var a := Get(id);
      if a.row.None? {
        return false;
      }
      var row := a.row.value;
      a := a.(log := a.log + [LogEntry(row.status, row.breakReason, Secs(now - row.lastStatusAt), now)]);
      row := row.(status := Offline, subState := "", callId := None, updatedAt := now, lastStatusAt := now);
      Store(id, a.(row := Some(row)));
      return true;
    }

    /** TransitionTo. */
    method ChangeStatus(id: int, to: Status, now: int) returns (ok: bool)
      requires Valid()
      modifies this
      ensures Valid() && (ok <==> MayTransition(old(Get(id)), to))
      ensures Get(id) == Step(old(Get(id)), TransitionTo(to), now)
      ensures forall other :: other != id ==> Get(other) == old(Get(other))
      ensures acwTimers == (if ok then old(acwTimers) - {id} else old(acwTimers))
      ensures closed == old(closed) + if ok then old(Channels(id)) else {}
    {
      var a := Get(id);
      if a.row.None? || !IsValidTransition(a.row.value.status, to) {
        return false;
      }
      var row := a.row.value;
      a := a.(log := a.log + [LogEntry(row.status, row.breakReason, Secs(now - row.lastStatusAt), now)]);
      CancelACWTimer(id);
      row := row.(status := to);
      if to != Talking {
        row := row.(subState := "");
      }
      if to == Idle || to == Offline {
        row := row.(callId := None, disposition := "", breakReason := "");
      }
      row := row.(updatedAt := now, lastStatusAt := now);
      Store(id, a.(row := Some(row)));
      return true;
    }

    method StartBreak(id: int, reason: string, now: int) returns (ok: bool)
      requires Valid()
      modifies this
      ensures Valid() && (ok <==> MayTransition(old(Get(id)), Break))
      ensures Get(id) == Step(old(Get(id)), SetBreak(reason), now)
      ensures ok ==> Get(id).row.Some? && Get(id).row.value.status == Break && Get(id).row.value.breakReason == reason
    {
      ok := ChangeStatus(id, Break, now);
      if ok {
        var a := Get(id);
        Store(id, a.(row := Some(a.row.value.(breakReason := reason, updatedAt := now))));
      }
    }

    /** SetACW: a positive number of seconds starts the timer that ends the after-call work. */
    method StartACW(id: int, disposition: string, resolved: int, now: int) returns (ok: bool)
      requires Valid()
      modifies this
      ensures Valid() && (ok <==> MayTransition(old(Get(id)), ACW))
      ensures Get(id) == Step(old(Get(id)), SetACW(disposition, resolved), now)
      ensures ok ==> (id in acwTimers <==> Get(id).row.value.acwSeconds > 0) && closed == old(closed) + old(Channels(id))
      ensures ok ==> Get(id).row.value.status == ACW && Get(id).row.value.disposition == disposition
      ensures ok ==>
        Get(id).row.value.acwSeconds == if resolved > 0 then resolved else old(Get(id)).row.value.acwSeconds
    {
      ok := ChangeStatus(id, ACW, now);
      if ok {
        var a := Get(id);
        var row := a.row.value.(disposition := disposition);
        if resolved > 0 {
          row := row.(acwSeconds := resolved);
        }
        Store(id, a.(row := Some(row.(updatedAt := now))));
        if row.acwSeconds > 0 {
          ScheduleACWTimeout(id);
        }
      }
    }

    /** ResetGhostAgents over the tenant's agents, each listed once; every stale row is corrected. */
    method ResetGhostAgents(ids: seq<int>, maxDuration: int, now: int) returns (resets: nat)
      requires forall i, j :: 0 <= i < j < |ids| ==> ids[i] != ids[j]
      modifies this`agents
      ensures forall id :: Get(id) == if id in ids then Step(old(Get(id)), ResetGhost(maxDuration), now) else old(Get(id))
      ensures resets == |Stale(old(agents), ids, maxDuration, now)|
    {
      assert Stale(old(agents), ids[..0], maxDuration, now) == {};
      resets := 0;
      for k := 0 to |ids|
        invariant forall id ::
          Get(id) == if id in ids[..k] then Step(old(Get(id)), ResetGhost(maxDuration), now) else old(Get(id))
        invariant resets == |Stale(old(agents), ids[..k], maxDuration, now)|
      {
        var id := ids[k];
        assert id !in ids[..k];
        assert ids[..k + 1] == ids[..k] + [id];
        StaleStep(old(agents), ids[..k], id, maxDuration, now);
        var a := Get(id);
        if a.row.Some? {
          var row := a.row.value;
          if (row.status == Talking || row.status == Dialing) && now - row.lastStatusAt > maxDuration {
            Store(id, a.(log := Logged(a, row, now), row := Some(row.(status := Idle, subState := "", callId := None,
                                                                      updatedAt := now, lastStatusAt := now))));
            resets := resets + 1;
          } else if (row.status == Online || row.status == Idle || row.status == ACW)
                    && now - row.updatedAt > 3 * maxDuration {
            Store(id, a.(log := Logged(a, row, now), row := Some(row.(status := Offline, subState := "", callId := None,
                                                                      updatedAt := now, lastStatusAt := now))));
            resets := resets + 1;
          }
        }
      }
      assert ids[..|ids|] == ids;
    }
  }
}
