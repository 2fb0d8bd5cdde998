/** The outbound dialer's counters within one dialing session (internal/application/dialer). The dial loop
    and the dial tasks it spawns take the service's mutex for one short section at a time; any order of
    those sections is possible. */
module Dialer {

  datatype Mode = Predictive | Preview | Progressive | Power

  // What one batch reads from the campaign; the limit is the session's.
  datatype Batch = Batch(ratio: real, maxAbandonRate: real)

  // tasks: dialCase tasks in flight; finished: tasks that recorded their result; slots: calls the dial
  // loop has still to place in its current batch.
  datatype Session = Session(active: int, abandoned: int, dialed: int, tasks: nat, finished: nat, slots: int)

  const FRESH: Session := Session(0, 0, 0, 0, 0, 0)

  datatype Action =
    | Plan(batch: Batch)
    | Place(found: bool)
    | Finish(connected: bool)

  // ---------------------------------------------------------------------------
  // Slots
  // ---------------------------------------------------------------------------

  // Conversion of a float to an integer: toward zero.
  function Trunc(x: real): int {
    if x >= 0.0 then x.Floor else -((-x).Floor)
  }

  function Percent(part: int, total: int): real {
    if total == 0 then 0.0 else part as real / total as real * 100.0
  }

  function Capped(ratio: real, limit: int, active: int): int {
    var slots := Trunc(ratio) - active;
    if limit > 0 && slots > limit - active then limit - active else slots
  }

  function Throttled(slots: int, overshoot: real): int
    requires overshoot > 0.0
  {
    if overshoot >= 2.0 then 0
    else
      var scaled := Trunc(slots as real / overshoot);
      if scaled < 1 then 1 else scaled
  }

  function PredictiveSlots(s: Session, b: Batch, limit: int): int {
    var rate := Percent(s.abandoned, s.dialed);
    if limit > 0 && s.active >= limit then 0
    else if b.maxAbandonRate > 0.0 && rate > b.maxAbandonRate then
      Throttled(Capped(b.ratio, limit, s.active), rate / b.maxAbandonRate)
    else Capped(b.ratio, limit, s.active)
  }

  function PowerSlots(s: Session, b: Batch, limit: int): int {
    if limit > 0 && s.active >= limit then 0 else Capped(b.ratio, limit, s.active)
  }

  function Slots(mode: Mode, s: Session, b: Batch, limit: int): int {
    match mode
    case Predictive => PredictiveSlots(s, b, limit)
    case Preview => 0
    case Progressive => if s.active >= 1 then 0 else 1
    case Power => PowerSlots(s, b, limit)
  }

  // ---------------------------------------------------------------------------
  // The interleaved steps
  // ---------------------------------------------------------------------------

  function Step(mode: Mode, limit: int, s: Session, a: Action): Session {
    Apply(s, a, if a.Plan? then Slots(mode, s, a.batch, limit) else 0)
  }

  // planned: the slots a plan comes to.
  function Apply(s: Session, a: Action, planned: int): Session {
    match a
    case Plan(_) => if s.slots > 0 then s else s.(slots := AtLeastZero(planned))
    case Place(found) =>
      if s.slots <= 0 then s
      else if !found then s.(slots := 0)
      else s.(active := s.active + 1, dialed := s.dialed + 1, tasks := s.tasks + 1, slots := s.slots - 1)
    case Finish(connected) =>
      if s.tasks == 0 then s
      else s.(active := if s.active - 1 < 0 then 0 else s.active - 1,
              abandoned := if connected then s.abandoned else s.abandoned + 1,
              tasks := s.tasks - 1, finished := s.finished + 1)
  }

  function AtLeastZero(n: int): nat {
    if n < 0 then 0 else n
  }

  function Run(mode: Mode, limit: int, s: Session, acts: seq<Action>): Session
    decreases |acts|
  {
    if acts == [] then s else Run(mode, limit, Step(mode, limit, s, acts[0]), acts[1..])
  }

  ghost predicate Accounts(s: Session) {
    && s.active == s.tasks
    && s.dialed == s.active + s.finished
    && 0 <= s.abandoned <= s.finished
  }

  ghost predicate WithinLimit(mode: Mode, limit: int, s: Session) {
    && s.slots >= 0
    && (mode == Progressive ==> s.active + s.slots <= 1)
    && (mode == Preview ==> s.active + s.slots <= 0)
    && ((mode == Power || mode == Predictive) && limit > 0 ==> s.active + s.slots <= limit)
  }

  lemma ShrinkingDivides(slots: int, overshoot: real)
    requires slots > 0 && overshoot >= 1.0
    ensures Trunc(slots as real / overshoot) <= slots
  {
    var q := slots as real / overshoot;
    assert q * overshoot == slots as real;
    assert q <= slots as real;
  }

  lemma ShrinkingDividesNegative(slots: int, overshoot: real)
    requires slots <= 0 && overshoot > 0.0
    ensures Trunc(slots as real / overshoot) <= 0
  {
    var q := slots as real / overshoot;
    assert q * overshoot == slots as real;
    assert q <= 0.0;
  }

  lemma OvershootAboveOne(rate: real, most: real)
    requires 0.0 < most < rate
    ensures rate / most > 1.0
  {
    var q := rate / most;
    assert q * most == rate;
  }

  /** Slots never take the active calls over a positive limit, even when throttling raises them to one. */
  lemma SlotsFitLimit(mode: Mode, s: Session, b: Batch, limit: int)
    requires (mode == Predictive || mode == Power) && limit > 0 && s.active <= limit
    ensures s.active + Slots(mode, s, b, limit) <= limit
  {
    var rate := Percent(s.abandoned, s.dialed);
    if mode == Predictive && s.active < limit && b.maxAbandonRate > 0.0 && rate > b.maxAbandonRate {
      var slots := Capped(b.ratio, limit, s.active);
      OvershootAboveOne(rate, b.maxAbandonRate);
      if slots > 0 {
        ShrinkingDivides(slots, rate / b.maxAbandonRate);
      } else {
        ShrinkingDividesNegative(slots, rate / b.maxAbandonRate);
      }
    }
  }

  /** What predictive dialing plans below its limit: up to the ratio, or the limit if that is less. At twice
      the tolerated abandon rate it plans nothing; between once and twice, at least one call and, when more
      than one was due, no more than were due. */
  lemma PlannedSlots(s: Session, b: Batch, limit: int)
    requires !(limit > 0 && s.active >= limit)
    ensures var rate, n := Percent(s.abandoned, s.dialed), PredictiveSlots(s, b, limit);
      var goal := if limit > 0 && Trunc(b.ratio) > limit then limit else Trunc(b.ratio);
      && (b.maxAbandonRate <= 0.0 || rate <= b.maxAbandonRate ==> s.active + n == goal)
      && (b.maxAbandonRate > 0.0 && rate >= 2.0 * b.maxAbandonRate ==> n == 0)
      && (b.maxAbandonRate > 0.0 && b.maxAbandonRate < rate < 2.0 * b.maxAbandonRate ==>
            n >= 1 && (n == 1 || s.active + n <= goal))
  {
    var rate, most := Percent(s.abandoned, s.dialed), b.maxAbandonRate;
    hide Percent, Trunc;
    if most > 0.0 && rate > most {
      QuotientAgainstTwo(rate, most);
      OvershootAboveOne(rate, most);
      var due := Capped(b.ratio, limit, s.active);
      if due > 0 {
        ShrinkingDivides(due, rate / most);
      } else {
        ShrinkingDividesNegative(due, rate / most);
      }
    }
  }

  /** Between once and twice the tolerated rate the plan is the due calls scaled down by the overshoot, in whole
      calls, but at least one. */
  lemma ThrottledExactly(s: Session, b: Batch, limit: int)
    requires !(limit > 0 && s.active >= limit)
    requires 0.0 < b.maxAbandonRate < Percent(s.abandoned, s.dialed) < 2.0 * b.maxAbandonRate
    ensures var rate, n := Percent(s.abandoned, s.dialed), PredictiveSlots(s, b, limit);
      var due := (if limit > 0 && Trunc(b.ratio) > limit then limit else Trunc(b.ratio)) - s.active;
      Scaled(due, rate, b.maxAbandonRate, n)
  {
    var rate, most := Percent(s.abandoned, s.dialed), b.maxAbandonRate;
    var due := Capped(b.ratio, limit, s.active);
    hide Percent, Trunc;
    QuotientAgainstTwo(rate, most);
    OvershootAboveOne(rate, most);
    ScaledDown(due, rate, most);
  }

  lemma ScaledDown(due: int, rate: real, most: real)
    requires 0.0 < most < rate
    ensures Scaled(due, rate, most, Throttled(due, rate / most)) || rate >= 2.0 * most
  {
    var over := rate / most;
    QuotientAgainstTwo(rate, most);
    OvershootAboveOne(rate, most);
    var q := due as real / over;
    assert over * most == rate && q * over == due as real;
    Regroup(q, over, most, rate, due as real);
    TruncIs(q);
    var m := Throttled(due, over);
    hide Trunc;
    if rate < 2.0 * most {
      assert m == if Trunc(q) < 1 then 1 else Trunc(q);
      ScaledFrom(due, rate, most, q, m);
      hide Scaled, Throttled;
    }
  }

  lemma ScaledFrom(due: int, rate: real, most: real, q: real, m: int)
    requires rate > 0.0 && due as real * most == q * rate && m >= 1 && q < m as real + 1.0 && (m > 1 ==> m as real <= q)
    ensures Scaled(due, rate, most, m)
  {
    WithinOne(due as real * most, q, m as real, rate);
  }

  lemma WithinOne(p: real, q: real, x: real, rate: real)
    requires rate > 0.0 && p == q * rate && q < x + 1.0
    ensures p < x * rate + rate
    ensures x <= q ==> x * rate <= p
  {
    var over, under := x + 1.0 - q, q - x;
    ProductSign(over, rate);
    assert over * rate == x * rate + rate - p;
    ProductSign(under, rate);
    assert under * rate == p - x * rate;
  }

  lemma ProductSign(x: real, y: real)
    requires y > 0.0
    ensures x > 0.0 ==> x * y > 0.0
    ensures x >= 0.0 ==> x * y >= 0.0
  {
  }

  // m calls are the due ones scaled down, in whole calls, but at least one.
  predicate Scaled(due: int, rate: real, most: real, m: int) {
    && m >= 1
    && (m > 1 ==> m as real * rate <= due as real * most)
    && due as real * most < m as real * rate + rate
  }

  lemma Regroup(q: real, over: real, most: real, rate: real, due: real)
    requires over * most == rate && q * over == due
    ensures due * most == q * rate
  {
    assert q * over * most == q * (over * most);
  }

  lemma TruncIs(x: real)
    ensures x >= 0.0 ==> Trunc(x) as real <= x < Trunc(x) as real + 1.0
    ensures x < 0.0 ==> Trunc(x) as real - 1.0 < x <= Trunc(x) as real
  {
  }

  lemma PercentIs(part: int, total: int)
    ensures total == 0 ==> Percent(part, total) == 0.0
    ensures total > 0 ==> Percent(part, total) * total as real == 100.0 * part as real
  {
    if total > 0 {
      var q := part as real / total as real;
      assert q * total as real == part as real;
    }
  }

  /** What the other modes plan: power dialing exactly up to the ratio, or the limit if that is less, and
      nothing at the limit; progressive dialing one call when none is active; preview none by itself. */
  lemma OtherModesPlan(s: Session, b: Batch, limit: int)
    ensures limit > 0 && s.active >= limit ==> Slots(Power, s, b, limit) == 0
    ensures !(limit > 0 && s.active >= limit) ==>
      s.active + Slots(Power, s, b, limit) == if limit > 0 && Trunc(b.ratio) > limit then limit else Trunc(b.ratio)
    ensures Slots(Progressive, s, b, limit) == if s.active < 1 then 1 else 0
    ensures Slots(Preview, s, b, limit) == 0
  {
    hide Trunc;
  }

  lemma QuotientAgainstTwo(x: real, y: real)
    requires y > 0.0
    ensures x / y >= 2.0 <==> x >= 2.0 * y
  {
    assert x == (x / y) * y;
    if x / y >= 2.0 {
      assert (x / y - 2.0) * y >= 0.0;
    } else {
      assert (2.0 - x / y) * y > 0.0;
    }
  }

  // A session in which so many calls may be planned.
  ghost predicate Fits(mode: Mode, limit: int, s: Session, planned: int) {
    && (mode == Progressive ==> s.active + planned <= 1 || planned <= 0)
    && (mode == Preview ==> planned <= 0)
    && ((mode == Power || mode == Predictive) && limit > 0 ==> s.active + planned <= limit || planned <= 0)
  }

  lemma SlotsFit(mode: Mode, limit: int, s: Session, b: Batch)
    requires Accounts(s) && WithinLimit(mode, limit, s)
    ensures s.slots <= 0 ==> Fits(mode, limit, s, Slots(mode, s, b, limit))
  {
    if s.slots <= 0 && limit > 0 && (mode == Power || mode == Predictive) {
      SlotsFitLimit(mode, s, b, limit);
    }
    hide PredictiveSlots, PowerSlots;
  }

  lemma ApplyKeeps(mode: Mode, limit: int, s: Session, a: Action, planned: int)
    requires Accounts(s) && WithinLimit(mode, limit, s) && (a.Plan? && s.slots <= 0 ==> Fits(mode, limit, s, planned))
    ensures Accounts(Apply(s, a, planned)) && WithinLimit(mode, limit, Apply(s, a, planned))
  {
  }

  lemma {:induction false} RunKeepsAccounts(mode: Mode, limit: int, s: Session, acts: seq<Action>)
    requires Accounts(s) && WithinLimit(mode, limit, s)
    ensures Accounts(Run(mode, limit, s, acts)) && WithinLimit(mode, limit, Run(mode, limit, s, acts))
    decreases |acts|
  {
    if acts != [] {
      if acts[0].Plan? {
        SlotsFit(mode, limit, s, acts[0].batch);
        ApplyKeeps(mode, limit, s, acts[0], Slots(mode, s, acts[0].batch, limit));
      } else {
        ApplyKeeps(mode, limit, s, acts[0], 0);
      }
      hide Slots, Apply;
      RunKeepsAccounts(mode, limit, Step(mode, limit, s, acts[0]), acts[1..]);
    }
  }

  /** In every interleaving of a session's dial loop with its finishing calls: the active calls are the tasks
      in flight, every dialed call is active or finished, abandoned calls are among the finished, progressive
      dialing has at most one call, and power and predictive dialing respect a positive limit. */
  lemma SessionAccounts(mode: Mode, limit: int, acts: seq<Action>)
    ensures var e := Run(mode, limit, FRESH, acts);
      && e.active == e.tasks && e.dialed == e.active + e.finished && 0 <= e.abandoned <= e.finished
      && (mode == Progressive ==> e.active <= 1)
      && ((mode == Power || mode == Predictive) && limit > 0 ==> e.active <= limit)
  {
    hide *;
    FreshFits(mode, limit);
    RunKeepsAccounts(mode, limit, FRESH, acts);
    AccountsMean(mode, limit, Run(mode, limit, FRESH, acts));
  }

  lemma FreshFits(mode: Mode, limit: int)
    ensures Accounts(FRESH) && WithinLimit(mode, limit, FRESH)
  {
  }

  lemma AccountsMean(mode: Mode, limit: int, e: Session)
    requires Accounts(e) && WithinLimit(mode, limit, e)
    ensures e.active == e.tasks && e.dialed == e.active + e.finished && 0 <= e.abandoned <= e.finished
    ensures mode == Progressive ==> e.active <= 1
    ensures (mode == Power || mode == Predictive) && limit > 0 ==> e.active <= limit
  {
  }

  // What a step of the session does, if anything: places a call, or records a result of one in flight.
  datatype Fact = Dialed | Connected | Lost

  predicate Counts(s: Session, a: Action, f: Fact) {
    match f
    case Dialed => a == Place(true) && s.slots > 0
    case Connected => a == Finish(true) && s.tasks > 0
    case Lost => a == Finish(false) && s.tasks > 0
  }

  function Count(mode: Mode, limit: int, s: Session, acts: seq<Action>, f: Fact): nat
    decreases |acts|
  {
    if acts == [] then 0
    else (if Counts(s, acts[0], f) then 1 else 0) + Count(mode, limit, Step(mode, limit, s, acts[0]), acts[1..], f)
  }

  lemma {:induction false} RunCounts(mode: Mode, limit: int, s: Session, acts: seq<Action>)
    ensures var e := Run(mode, limit, s, acts);
      var placed, won, lost := Count(mode, limit, s, acts, Dialed), Count(mode, limit, s, acts, Connected),
        Count(mode, limit, s, acts, Lost);
      && e.dialed == s.dialed + placed && e.abandoned == s.abandoned + lost && e.finished == s.finished + won + lost
      && e.tasks == s.tasks + placed - won - lost
    decreases |acts|
  {
    if acts != [] {
      var t := Step(mode, limit, s, acts[0]);
      assert t.dialed == s.dialed + (if Counts(s, acts[0], Dialed) then 1 else 0);
      assert t.abandoned == s.abandoned + (if Counts(s, acts[0], Lost) then 1 else 0);
      hide Slots;
      RunCounts(mode, limit, t, acts[1..]);
    }
  }

  /** Over every interleaving the counters are those of the run: dialed the calls placed, abandoned the results
      that were recorded without a connection, active the calls placed whose result is still out. */
  lemma CountersFollowRun(mode: Mode, limit: int, acts: seq<Action>)
    ensures var e := Run(mode, limit, FRESH, acts);
      var placed, won, lost := Count(mode, limit, FRESH, acts, Dialed), Count(mode, limit, FRESH, acts, Connected),
        Count(mode, limit, FRESH, acts, Lost);
      && e.dialed == placed && e.abandoned == lost && e.active == placed - won - lost
  {
    RunCounts(mode, limit, FRESH, acts);
    SessionAccounts(mode, limit, acts);
    hide Run, Count;
  }

  // ---------------------------------------------------------------------------
  // Without a positive limit
  // ---------------------------------------------------------------------------

  lemma {:induction false} RunConcat(mode: Mode, limit: int, s: Session, a: seq<Action>, b: seq<Action>)
    ensures Run(mode, limit, s, a + b) == Run(mode, limit, Run(mode, limit, s, a), b)
    decreases |a|
  {
    if a == [] {
      assert a + b == b;
    } else {
      assert (a + b)[1..] == a[1..] + b;
      RunConcat(mode, limit, Step(mode, limit, s, a[0]), a[1..], b);
    }
  }

  // All batches of the run read the same campaign.
  ghost predicate Steady(acts: seq<Action>, b: Batch) {
    forall a :: a in acts && a.Plan? ==> a.batch == b
  }

  lemma {:induction false} RunAppend(mode: Mode, limit: int, s: Session, acts: seq<Action>, a: Action)
    ensures Run(mode, limit, s, acts + [a]) == Step(mode, limit, Run(mode, limit, s, acts), a)
  {
    RunConcat(mode, limit, s, acts, [a]);
    assert [a][1..] == [];
  }

  lemma CompareScaled(x: real, y: real, t: real)
    requires t > 0.0
    ensures x < y <==> x * t < y * t
  {
    if x < y {
      assert (y - x) * t > 0.0;
    } else {
      assert (x - y) * t >= 0.0;
    }
  }

  // The session can come to this state when all its batches read the campaign b.
  ghost predicate Reaches(limit: int, b: Batch, s: Session) {
    exists acts :: Steady(acts, b) && Run(Predictive, limit, FRESH, acts) == s
  }

  lemma ReachesNext(limit: int, b: Batch, s: Session, a: Action)
    requires Reaches(limit, b, s) && (a.Plan? ==> a.batch == b)
    ensures Reaches(limit, b, Step(Predictive, limit, s, a))
  {
    hide Step, Run;
    var acts :| Steady(acts, b) && Run(Predictive, limit, FRESH, acts) == s;
    RunAppend(Predictive, limit, FRESH, acts, a);
    assert Steady(acts + [a], b);
  }

  lemma ReachesFresh(limit: int, b: Batch)
    ensures Reaches(limit, b, FRESH)
  {
    assert Steady([], b) && Run(Predictive, limit, FRESH, []) == FRESH;
  }

  // x calls are active, a were abandoned and k connected; the dial loop is between two batches.
  function Between(x: nat, a: nat, k: nat): Session {
    Session(x, a, x + a + k, x, a + k, 0)
  }

  // The tolerated number of abandoned ones among d calls, in hundredths.
  function Tolerated(b: Batch, d: int): real {
    b.maxAbandonRate * d as real
  }

  lemma ToleratedAdds(b: Batch, d: int, e: int)
    ensures Tolerated(b, d + e) == Tolerated(b, d) + Tolerated(b, e)
    ensures Tolerated(b, 1) == b.maxAbandonRate
  {
  }

  lemma ToleratedGrows(b: Batch, d: nat, e: nat)
    requires b.maxAbandonRate >= 0.0 && d <= e
    ensures Tolerated(b, d) <= Tolerated(b, e)
  {
  }

  lemma RateAbove(part: int, total: int, most: real)
    requires total > 0
    ensures Percent(part, total) > most <==> 100.0 * part as real > most * total as real
  {
    var q, t := part as real / total as real, total as real;
    assert q * t == part as real;
    assert q * 100.0 * t == 100.0 * (q * t);
    CompareScaled(most, q * 100.0, t);
  }

  // Some multiple of a positive number exceeds any other number.
  lemma Exceeds(x: real, y: real) returns (n: nat)
    requires x > 0.0
    ensures n as real * x > y
  {
    if y < 0.0 {
      n := 0;
    } else {
      n := (y / x).Floor + 1;
      CompareScaled(y / x, n as real, x);
    }
  }

  // A batch that has a slot but then finds no second case.
  lemma PlaceOne(limit: int, b: Batch, x: nat, a: nat, k: nat)
    requires Reaches(limit, b, Between(x, a, k)) && PredictiveSlots(Between(x, a, k), b, limit) >= 1
    ensures Reaches(limit, b, Between(x + 1, a, k))
  {
    var s := Between(x, a, k);
    var n := PredictiveSlots(s, b, limit);
    assert Step(Predictive, limit, s, Plan(b)) == s.(slots := n);
    ReachesNext(limit, b, s, Plan(b));
    hide Reaches, PredictiveSlots;
    ReachesNext(limit, b, s.(slots := n), Place(true));
    ReachesNext(limit, b, Between(x + 1, a, k).(slots := n - 1), Place(false));
  }

  lemma FinishOne(limit: int, b: Batch, x: nat, a: nat, k: nat)
    requires Reaches(limit, b, Between(x + 1, a, k))
    ensures Reaches(limit, b, Between(x, a, k + 1)) && Reaches(limit, b, Between(x, a + 1, k))
  {
    ReachesNext(limit, b, Between(x + 1, a, k), Finish(true));
    ReachesNext(limit, b, Between(x + 1, a, k), Finish(false));
    hide Reaches;
  }

  // Not above the tolerated rate and with nothing active, there is a slot.
  lemma PlaceBelow(limit: int, b: Batch, a: nat, k: nat)
    requires limit <= 0 && Trunc(b.ratio) >= 1 && Reaches(limit, b, Between(0, a, k))
    requires b.maxAbandonRate >= 0.0 && 100.0 * a as real <= Tolerated(b, a + k)
    ensures Reaches(limit, b, Between(1, a, k))
  {
    hide Reaches, Trunc;
    if a + k > 0 {
      RateAbove(a, a + k, b.maxAbandonRate);
    }
    PlannedSlots(Between(0, a, k), b, limit);
    PlaceOne(limit, b, 0, a, k);
  }

  // Above the tolerated rate and below twice that, there is a slot however many calls are active.
  lemma PlaceThrottled(limit: int, b: Batch, x: nat, a: nat, k: nat)
    requires limit <= 0 && Reaches(limit, b, Between(x, a, k)) && x + a + k > 0 && b.maxAbandonRate > 0.0
    requires var t := Tolerated(b, x + a + k); t < 100.0 * a as real < t + t
    ensures Reaches(limit, b, Between(x + 1, a, k))
  {
    hide Reaches;
    var d := x + a + k;
    RateAbove(a, d, b.maxAbandonRate);
    RateBelow(a, d, 2.0 * b.maxAbandonRate);
    assert 2.0 * b.maxAbandonRate * d as real == 2.0 * Tolerated(b, d);
    PlannedSlots(Between(x, a, k), b, limit);
    PlaceOne(limit, b, x, a, k);
  }

  lemma RateBelow(part: int, total: int, most: real)
    requires total > 0
    ensures Percent(part, total) < most <==> 100.0 * part as real < most * total as real
  {
    var q, t := part as real / total as real, total as real;
    assert q * t == part as real;
    assert q * 100.0 * t == 100.0 * (q * t);
    CompareScaled(q * 100.0, most, t);
  }

  // Any number of calls is placed and connects, one after the other.
  lemma {:induction false} ConnectMany(limit: int, b: Batch, k: nat)
    requires limit <= 0 && Trunc(b.ratio) >= 1 && b.maxAbandonRate >= 0.0
    ensures Reaches(limit, b, Between(0, 0, k))
  {
    hide Reaches, Trunc;
    if k == 0 {
      ReachesFresh(limit, b);
    } else {
      ConnectMany(limit, b, k - 1);
      ToleratedGrows(b, 0, k - 1);
      PlaceBelow(limit, b, 0, k - 1);
      FinishOne(limit, b, 0, 0, k - 1);
    }
  }

  // Just above the tolerated rate, by at most one call.
  predicate JustAbove(b: Batch, x: nat, a: nat, k: nat) {
    Tolerated(b, x + a + k) < 100.0 * a as real <= Tolerated(b, x + a + k) + 100.0
  }

  // Then calls are abandoned, one after the other, until the rate is just above the tolerated one.
  lemma {:induction false} AbandonUntilAbove(limit: int, b: Batch, a: nat, k: nat, n: nat) returns (above: nat)
    requires limit <= 0 && Trunc(b.ratio) >= 1 && b.maxAbandonRate >= 0.0 && Reaches(limit, b, Between(0, a, k))
    requires 100.0 * a as real <= Tolerated(b, a + k) && a <= n && 100.0 * n as real > Tolerated(b, n + k)
    ensures Reaches(limit, b, Between(0, above, k)) && JustAbove(b, 0, above, k)
    decreases n - a
  {
    hide Reaches, Trunc, Tolerated;
    PlaceBelow(limit, b, a, k);
    FinishOne(limit, b, 0, a, k);
    ToleratedGrows(b, a + k, a + 1 + k);
    if 100.0 * (a + 1) as real > Tolerated(b, a + 1 + k) {
      above := a + 1;
    } else {
      above := AbandonUntilAbove(limit, b, a + 1, k, n);
    }
  }

  // And then a call is placed in each batch, and one abandoned only when the rate would fall too low.
  lemma {:induction false} StayAbove(limit: int, b: Batch, a: nat, k: nat, n: nat) returns (x: nat, a': nat)
    requires limit <= 0 && 0.0 < b.maxAbandonRate < 100.0 && Tolerated(b, k) > 100.0
    requires Reaches(limit, b, Between(0, a, k)) && JustAbove(b, 0, a, k)
    ensures Reaches(limit, b, Between(x, a', k)) && JustAbove(b, x, a', k) && x + a' == a + n
  {
    hide Reaches, Tolerated;
    if n == 0 {
      x, a' := 0, a;
    } else {
      x, a' := StayAbove(limit, b, a, k, n - 1);
      ToleratedGrows(b, k, x + a' + k);
      PlaceThrottled(limit, b, x, a', k);
      ToleratedAdds(b, x + a' + k, 1);
      if 100.0 * a' as real > Tolerated(b, x + a' + k + 1) {
        x := x + 1;
      } else {
        FinishOne(limit, b, x, a', k);
        a' := a' + 1;
      }
    }
  }

  // The rest, up to all of d calls.
  function Spare(b: Batch, d: int): real {
    d as real * (100.0 - b.maxAbandonRate)
  }

  lemma SpareIsRest(b: Batch, d: int)
    ensures Tolerated(b, d) + Spare(b, d) == 100.0 * d as real
  {
  }

  lemma SpareGrows(b: Batch, d: nat, e: nat)
    requires b.maxAbandonRate < 100.0 && d <= e
    ensures Spare(b, d) <= Spare(b, e)
  {
    var x, y, t := d as real, e as real, 100.0 - b.maxAbandonRate;
    assert x <= y && Spare(b, d) == x * t && Spare(b, e) == y * t;
    hide Spare;
    CompareScaled(y, x, t);
  }

  // Where the rate stays just above the tolerated one, the active calls grow with the dialed ones.
  lemma ActiveGrow(b: Batch, x: nat, a: nat, k: nat, n: nat, most: nat)
    requires JustAbove(b, x, a, k) && n <= x + a && b.maxAbandonRate < 100.0
    requires Spare(b, n) > 100.0 + Tolerated(b, k) + 100.0 * most as real
    ensures x > most
  {
    ToleratedAdds(b, x + a, k);
    SpareGrows(b, n, x + a);
    SpareIsRest(b, x + a);
    hide Tolerated, Spare;
    assert (x + a) as real == x as real + a as real;
  }

  /** Without a positive limit throttling itself raises the slots to one, so any number of active calls is
      exceeded by every campaign that dials at all and tolerates more than none and less than all calls to be
      abandoned. */
  lemma ThrottlingWithoutLimitIsUnbounded(limit: int, b: Batch, most: nat)
    requires limit <= 0 && 0.0 < b.maxAbandonRate < 100.0 && Trunc(b.ratio) >= 1
    ensures exists acts :: Steady(acts, b) && Run(Predictive, limit, FRESH, acts).active > most
  {
    hide Run, Trunc;
    var m := b.maxAbandonRate;
    var k := Exceeds(m, 100.0);
    assert Tolerated(b, k) > 100.0;
    ConnectMany(limit, b, k);
    var turns := Exceeds(100.0 - m, Tolerated(b, k));
    assert Spare(b, turns) > Tolerated(b, k);
    ToleratedAdds(b, turns, k);
    SpareIsRest(b, turns);
    var rounds := Exceeds(100.0 - m, 100.0 + Tolerated(b, k) + 100.0 * most as real);
    assert Spare(b, rounds) > 100.0 + Tolerated(b, k) + 100.0 * most as real;
    hide Tolerated, Spare, Reaches;
    var above := AbandonUntilAbove(limit, b, 0, k, turns);
    var x, a := StayAbove(limit, b, above, k, rounds);
    ActiveGrow(b, x, a, k, rounds, most);
    ReachedByRun(limit, b, Between(x, a, k));
  }

  lemma ReachedByRun(limit: int, b: Batch, s: Session)
    requires Reaches(limit, b, s)
    ensures exists acts :: Steady(acts, b) && Run(Predictive, limit, FRESH, acts).active == s.active
  {
    hide Run;
  }

  // A session of this campaign never has more than so many active calls.
  ghost predicate BoundedBy(limit: int, b: Batch, most: int) {
    forall acts :: Steady(acts, b) ==> Run(Predictive, limit, FRESH, acts).active <= most
  }

  ghost predicate SomeBound(limit: int, b: Batch) {
    exists most :: BoundedBy(limit, b, most)
  }

  lemma PercentBounds(part: int, total: int)
    requires 0 <= part <= total && total > 0
    ensures 0.0 <= Percent(part, total) <= 100.0
    ensures Percent(part, total) + Percent(total - part, total) == 100.0
  {
    var t := total as real;
    var x, y := part as real / t, (total - part) as real / t;
    assert x * t == part as real && y * t == (total - part) as real;
    assert (x + y) * t == x * t + y * t;
    assert x + y == 1.0;
    assert x >= 0.0 && y >= 0.0;
  }

  // The predictive session of one campaign that no throttling touches.
  ghost predicate WithinRatio(b: Batch, s: Session) {
    Accounts(s) && 0 <= s.slots && s.active + s.slots <= AtLeastZero(Trunc(b.ratio))
  }

  predicate NeverThrottled(b: Batch) {
    b.maxAbandonRate <= 0.0 || b.maxAbandonRate >= 100.0
  }

  lemma UnthrottledStep(limit: int, b: Batch, s: Session, a: Action)
    requires limit <= 0 && NeverThrottled(b) && WithinRatio(b, s) && (a.Plan? ==> a.batch == b)
    ensures WithinRatio(b, Step(Predictive, limit, s, a))
  {
    if s.dialed > 0 {
      PercentBounds(s.abandoned, s.dialed);
    }
    PlannedSlots(s, b, limit);
    hide PredictiveSlots, Percent, Trunc;
  }

  lemma {:induction false} UnthrottledRun(limit: int, b: Batch, s: Session, acts: seq<Action>)
    requires limit <= 0 && NeverThrottled(b) && WithinRatio(b, s) && Steady(acts, b)
    ensures WithinRatio(b, Run(Predictive, limit, s, acts))
    decreases |acts|
  {
    if acts != [] {
      hide Step, WithinRatio;
      assert acts[0].Plan? ==> acts[0].batch == b;
      UnthrottledStep(limit, b, s, acts[0]);
      UnthrottledRun(limit, b, Step(Predictive, limit, s, acts[0]), acts[1..]);
    }
  }

  // A campaign whose ratio is below one never dials.
  lemma {:induction false} NothingDialed(limit: int, b: Batch, acts: seq<Action>)
    requires limit <= 0 && Trunc(b.ratio) <= 0 && Steady(acts, b)
    ensures Run(Predictive, limit, FRESH, acts) == FRESH
    decreases |acts|
  {
    if acts != [] {
      assert acts[0].Plan? ==> acts[0].batch == b;
      assert Step(Predictive, limit, FRESH, acts[0]) == FRESH;
      NothingDialed(limit, b, acts[1..]);
    }
  }

  lemma PositiveLimitBounds(limit: int, b: Batch)
    requires limit > 0
    ensures BoundedBy(limit, b, limit)
  {
    hide Run;
    forall acts | Steady(acts, b)
      ensures Run(Predictive, limit, FRESH, acts).active <= limit
    {
      SessionAccounts(Predictive, limit, acts);
    }
  }

  lemma RatioBounds(limit: int, b: Batch)
    requires limit <= 0 && NeverThrottled(b)
    ensures BoundedBy(limit, b, AtLeastZero(Trunc(b.ratio)))
  {
    hide Run, Trunc;
    forall acts | Steady(acts, b)
      ensures Run(Predictive, limit, FRESH, acts).active <= AtLeastZero(Trunc(b.ratio))
    {
      UnthrottledRun(limit, b, FRESH, acts);
    }
  }

  lemma NoRatioBounds(limit: int, b: Batch)
    requires limit <= 0 && Trunc(b.ratio) <= 0
    ensures BoundedBy(limit, b, 0)
  {
    hide Run, Trunc;
    forall acts | Steady(acts, b)
      ensures Run(Predictive, limit, FRESH, acts).active <= 0
    {
      NothingDialed(limit, b, acts);
    }
  }

  lemma ThrottledHasNoBound(limit: int, b: Batch)
    requires limit <= 0 && 0.0 < b.maxAbandonRate < 100.0 && Trunc(b.ratio) >= 1
    ensures !SomeBound(limit, b)
  {
    hide Run, Trunc;
    forall most
      ensures !BoundedBy(limit, b, most)
    {
      ThrottlingWithoutLimitIsUnbounded(limit, b, AtLeastZero(most));
    }
  }

  /** Predictive dialing keeps the active calls of a campaign below some bound exactly when the limit is
      positive, or the campaign is never throttled, or it dials nothing. The bound is the limit, the truncated
      ratio, or zero. */
  lemma LimitBoundsIff(limit: int, b: Batch)
    ensures SomeBound(limit, b)
       <==> limit > 0 || b.maxAbandonRate <= 0.0 || b.maxAbandonRate >= 100.0 || Trunc(b.ratio) <= 0
    ensures limit > 0 ==> BoundedBy(limit, b, limit)
    ensures limit <= 0 && NeverThrottled(b) ==> BoundedBy(limit, b, AtLeastZero(Trunc(b.ratio)))
    ensures limit <= 0 && Trunc(b.ratio) <= 0 ==> BoundedBy(limit, b, 0)
  {
    hide BoundedBy, Trunc;
    if limit > 0 {
      PositiveLimitBounds(limit, b);
    } else if NeverThrottled(b) {
      RatioBounds(limit, b);
    } else if Trunc(b.ratio) >= 1 {
      ThrottledHasNoBound(limit, b);
    }
    if limit <= 0 && Trunc(b.ratio) <= 0 {
      NoRatioBounds(limit, b);
    }
  }

  // ---------------------------------------------------------------------------
  // Statistics
  // ---------------------------------------------------------------------------

  datatype Stats = Stats(active: int, dialed: int, connected: int, abandoned: int, abandonRate: real, connectRate: real)

  function GetStats(s: Session): Stats {
    var connected := if s.dialed - s.abandoned < 0 then 0 else s.dialed - s.abandoned;
    Stats(s.active, s.dialed, connected, s.abandoned, Percent(s.abandoned, s.dialed), Percent(connected, s.dialed))
  }

  /** In a session the statistics add up: the clamp at zero never applies, calls in flight are reported as
      connected, and the two rates are percentages that sum to 100 once a call was dialed. */
  lemma StatsAddUp(s: Session)
    requires Accounts(s)
    ensures var t := GetStats(s);
      && t.connected + t.abandoned == t.dialed && t.connected >= t.active
      && (s.dialed > 0 ==> 0.0 <= t.abandonRate <= 100.0 && 0.0 <= t.connectRate <= 100.0
                           && t.abandonRate + t.connectRate == 100.0)
      && t.abandonRate == Percent(s.abandoned, s.dialed)
      && t.active == s.active && t.dialed == s.dialed && t.abandoned == s.abandoned
  {
    if s.dialed > 0 {
      PercentBounds(s.abandoned, s.dialed);
      PercentBounds(s.dialed - s.abandoned, s.dialed);
    }
  }

  // ---------------------------------------------------------------------------
  // The dial loop
  // ---------------------------------------------------------------------------

  lemma RunNothing(mode: Mode, limit: int, s: Session)
    ensures Run(mode, limit, s, []) == s
  {
  }

  // The calls a batch places: a case must be found for each, and the first miss ends the batch.
  function Placed(slots: int, found: seq<bool>): nat {
    if slots <= 0 || found == [] || !found[0] then 0 else 1 + Placed(slots - 1, found[1..])
  }

  function Finishes(results: seq<bool>): seq<Action> {
    if results == [] then [] else [Finish(results[0])] + Finishes(results[1..])
  }

  lemma {:induction false} FinishesAppend(results: seq<bool>, r: bool)
    ensures Finishes(results + [r]) == Finishes(results) + [Finish(r)]
  {
    if results == [] {
      assert results + [r] == [r];
    } else {
      assert (results + [r])[1..] == results[1..] + [r];
      FinishesAppend(results[1..], r);
    }
  }

  // The interleaved steps of a batch's placing loop.
  function Placing(slots: int, found: seq<bool>, gaps: seq<seq<bool>>): seq<Action>
    decreases slots
  {
    if slots <= 0 then []
    else
      var hit := found != [] && found[0];
      Finishes(First(gaps)) + [Place(hit)] + if hit then Placing(slots - 1, Rest(found), Rest(gaps)) else []
  }

  // After this log and this many placed calls, the rest of the loop completes all of them.
  ghost predicate Remains(slots: int, found: seq<bool>, gaps: seq<seq<bool>>, log: seq<Action>, placed: int,
                          all: seq<Action>, total: int) {
    log + Placing(slots, found, gaps) == all && placed + Placed(slots, found) == total
  }

  lemma RemainsNext(slots: int, found: seq<bool>, gaps: seq<seq<bool>>, log: seq<Action>, placed: int,
                    all: seq<Action>, total: int)
    requires slots > 0 && Remains(slots, found, gaps, log, placed, all, total)
    ensures var hit := found != [] && found[0];
      Remains(if hit then slots - 1 else 0, Rest(found), Rest(gaps),
              log + Finishes(First(gaps)) + [Place(hit)], placed + (if hit then 1 else 0), all, total)
  {
    hide Finishes;
  }

  lemma RemainsNone(slots: int, found: seq<bool>, gaps: seq<seq<bool>>, log: seq<Action>, placed: int,
                    all: seq<Action>, total: int)
    requires slots <= 0 && Remains(slots, found, gaps, log, placed, all, total)
    ensures log == all && placed == total
  {
  }

  function First(gaps: seq<seq<bool>>): seq<bool> {
    if gaps == [] then [] else gaps[0]
  }

  function Rest<T>(s: seq<T>): seq<T> {
    if s == [] then [] else s[1..]
  }

  /** dialerState, with the dial tasks in flight and the loop's remaining slots as further fields. */
  class DialerState {
    const mode: Mode
    const limit: int
    var activeCalls: int
    var abandonCount: int
    var totalDialed: int
    var tasks: nat
    var finished: nat
    var slots: int

    ghost function View(): Session
      reads this
    {
      Session(activeCalls, abandonCount, totalDialed, tasks, finished, slots)
    }

    constructor (mode: Mode, limit: int)
      ensures this.mode == mode && this.limit == limit && View() == FRESH
    {
      this.mode, this.limit := mode, limit;
      activeCalls, abandonCount, totalDialed, tasks, finished, slots := 0, 0, 0, 0, 0, 0;
    }

    /** RecordCallResult's locked section, run by a finishing dial task. */
    method RecordCallResult(connected: bool)
      requires tasks > 0
      modifies this
      ensures View() == Step(mode, limit, old(View()), Finish(connected))
      ensures abandonCount == old(abandonCount) + (if connected then 0 else 1)
      ensures activeCalls == (if old(activeCalls) > 0 then old(activeCalls) - 1 else 0) && totalDialed == old(totalDialed)
    {
      activeCalls := activeCalls - 1;
      if activeCalls < 0 {
        activeCalls := 0;
      }
      if !connected {
        abandonCount := abandonCount + 1;
      }
      tasks, finished := tasks - 1, finished + 1;
    }

    /** dialPredictive's first locked section. */
    method PlanPredictive(b: Batch)
      requires slots == 0
      modifies this`slots
      ensures slots == PredictiveSlots(old(View()), b, limit)
    {
      var abandonRate := Percent(abandonCount, totalDialed);
      var n := Trunc(b.ratio) - activeCalls;
      if limit > 0 && activeCalls >= limit {
        slots := 0;
        return;
      }
      if limit > 0 && n > limit - activeCalls {
        n := limit - activeCalls;
      }
      if b.maxAbandonRate > 0.0 && abandonRate > b.maxAbandonRate {
        OvershootAboveOne(abandonRate, b.maxAbandonRate);
        var overshoot := abandonRate / b.maxAbandonRate;
        if overshoot >= 2.0 {
          n := 0;
        } else {
          n := Trunc(n as real / overshoot);
          if n < 1 {
            n := 1;
          }
        }
      }
      slots := n;
    }

    /** dialPower's first locked section. */
    method PlanPower(b: Batch)
      requires slots == 0
      modifies this`slots
      ensures slots == AtLeastZero(PowerSlots(old(View()), b, limit))
    {
      var n := Trunc(b.ratio) - activeCalls;
      if limit > 0 && activeCalls >= limit {
        return;
      }
      if limit > 0 && n > limit - activeCalls {
        n := limit - activeCalls;
      }
      if n <= 0 {
        return;
      }
      slots := n;
    }

    /** One batch of the dial loop. found[i] tells whether a case is pending when the loop asks for the i-th
        time, gaps[i] lists the results of the tasks that finish before the loop takes the mutex again; results
        beyond the tasks in flight are nobody's. */
    method DialBatch(b: Batch, found: seq<bool>, gaps: seq<seq<bool>>) returns (ghost log: seq<Action>)
      requires slots == 0 && Accounts(View()) && WithinLimit(mode, limit, View())
      modifies this
      ensures log == [Plan(b)] + Placing(Slots(mode, old(View()), b, limit), found, gaps)
      ensures View() == Run(mode, limit, old(View()), log)
      ensures slots == 0 && Accounts(View()) && WithinLimit(mode, limit, View())
      ensures totalDialed == old(totalDialed) + Placed(Slots(mode, old(View()), b, limit), found)
    {
      ghost var before := View();
      PlanBatch(b);
      SlotsFit(mode, limit, before, b);
      ApplyKeeps(mode, limit, before, Plan(b), Slots(mode, before, b, limit));
      ghost var planned := View();
      assert Run(mode, limit, before, [Plan(b)]) == planned by {
        assert [Plan(b)][1..] == [];
      }
      hide Slots;
      ghost var more := PlaceCalls(found, gaps);
      RunConcat(mode, limit, before, [Plan(b)], more);
      log := [Plan(b)] + more;
    }

    method PlanBatch(b: Batch)
      requires slots == 0
      modifies this`slots
      ensures View() == Step(mode, limit, old(View()), Plan(b))
    {
      match mode {
        case Predictive => PlanPredictive(b);
        case Preview =>
        case Progressive => slots := if activeCalls >= 1 then 0 else 1;
        case Power => PlanPower(b);
      }
      if slots < 0 {
        slots := 0;
      }
    }

    /** The batch's placing loop. */
    method PlaceCalls(found: seq<bool>, gaps: seq<seq<bool>>) returns (ghost log: seq<Action>)
      requires Accounts(View()) && WithinLimit(mode, limit, View())
      modifies this
      ensures log == Placing(old(slots), found, gaps) && View() == Run(mode, limit, old(View()), log)
      ensures slots == 0 && Accounts(View()) && WithinLimit(mode, limit, View())
      ensures totalDialed == old(totalDialed) + Placed(old(slots), found)
    {
      log := [];
      ghost var before := View();
      ghost var all, total := Placing(slots, found, gaps), totalDialed + Placed(slots, found);
      var cases, rest := found, gaps;
      assert slots >= 0 && Remains(slots, found, gaps, [], totalDialed, all, total);
      hide *;
      RunNothing(mode, limit, before);
      while slots > 0
        invariant slots >= 0 && Remains(slots, cases, rest, log, totalDialed, all, total)
        invariant View() == Run(mode, limit, before, log) && Accounts(View()) && WithinLimit(mode, limit, View())
        decreases slots
      {
        RemainsNext(slots, cases, rest, log, totalDialed, all, total);
        log := FinishSome(First(rest), before, log);
        var hit := cases != [] && cases[0];
        log := PlaceNext(hit, before, log);
        cases, rest := Rest(cases), Rest(rest);
      }
      RemainsNone(slots, cases, rest, log, totalDialed, all, total);
    }

    method PlaceNext(hit: bool, ghost before: Session, ghost log: seq<Action>) returns (ghost log': seq<Action>)
      requires slots > 0
      requires View() == Run(mode, limit, before, log) && Accounts(View()) && WithinLimit(mode, limit, View())
      modifies this
      ensures log' == log + [Place(hit)] && slots == (if hit then old(slots) - 1 else 0)
      ensures totalDialed == old(totalDialed) + if hit then 1 else 0
      ensures View() == Run(mode, limit, before, log') && Accounts(View()) && WithinLimit(mode, limit, View())
    {
      RunAppend(mode, limit, before, log, Place(hit));
      ApplyKeeps(mode, limit, View(), Place(hit), 0);
      log' := log + [Place(hit)];
      if !hit {
        slots := 0;
      } else {
        activeCalls, totalDialed, tasks, slots := activeCalls + 1, totalDialed + 1, tasks + 1, slots - 1;
      }
    }

    /** Results recorded by dial tasks while the dial loop is between two locked sections. */
    method FinishSome(results: seq<bool>, ghost before: Session, ghost log: seq<Action>) returns (ghost log': seq<Action>)
      requires View() == Run(mode, limit, before, log) && Accounts(View()) && WithinLimit(mode, limit, View())
      modifies this
      ensures log' == log + Finishes(results)
      ensures View() == Run(mode, limit, before, log') && Accounts(View()) && WithinLimit(mode, limit, View())
      ensures slots == old(slots) && totalDialed == old(totalDialed)
    {
      log' := log;
      assert Finishes([]) == [];
      hide Run, Accounts, WithinLimit, Finishes;
      for k := 0 to |results|
        invariant log' == log + Finishes(results[..k])
        invariant View() == Run(mode, limit, before, log') && Accounts(View()) && WithinLimit(mode, limit, View())
        invariant slots == old(slots) && totalDialed == old(totalDialed)
      {
        assert results[..k + 1] == results[..k] + [results[k]];
        FinishesAppend(results[..k], results[k]);
        RunAppend(mode, limit, before, log', Finish(results[k]));
        ApplyKeeps(mode, limit, View(), Finish(results[k]), 0);
        log' := log' + [Finish(results[k])];
        if tasks > 0 {
          RecordCallResult(results[k]);
        }
      }
      assert results[..|results|] == results;
    }
  }
}
