/** The circuit breaker in front of the ESL connections (internal/infrastructure/esl): three states that
    stand for a simple question about the history of successes and failures. */
module CircuitBreaker {

  datatype BreakerState = Closed | Open | HalfOpen

  datatype Event = Failure(at: int) | Success(at: int) | Asked(at: int)

  // ---------------------------------------------------------------------------
  // The history specification
  // ---------------------------------------------------------------------------

  // Failures since the last success.
  function FailureRun(h: seq<Event>): nat {
    if h == [] then 0
    else match h[|h| - 1]
      case Failure(_) => FailureRun(h[..|h| - 1]) + 1
      case Success(_) => 0
      case Asked(_) => FailureRun(h[..|h| - 1])
  }

  function LastFailure(h: seq<Event>): int {
    if h == [] then 0
    else match h[|h| - 1]
      case Failure(at) => at
      case _ => LastFailure(h[..|h| - 1])
  }

  // The failures that no success follows.
  ghost function Unredeemed(h: seq<Event>): set<int> {
    set i | 0 <= i < |h| && h[i].Failure? && forall j :: i < j < |h| ==> !h[j].Success?
  }

  lemma UnredeemedStep(h: seq<Event>)
    requires h != []
    ensures var n := |h| - 1; var before := Unredeemed(h[..n]);
      && n !in before
      && Unredeemed(h) == match h[n] case Failure(_) => before + {n} case Success(_) => {} case Asked(_) => before
  {
    var n := |h| - 1;
    var g := h[..n];
    forall i | 0 <= i < n
      ensures i in Unredeemed(h) <==> i in Unredeemed(g) && !h[n].Success?
    {
      assert forall j :: i < j < n ==> g[j] == h[j];
    }
  }

  /** The run of failures counts exactly the failures that no success follows. */
  lemma {:induction false} FailureRunCounts(h: seq<Event>)
    ensures FailureRun(h) == |Unredeemed(h)|
  {
    if h != [] {
      FailureRunCounts(h[..|h| - 1]);
      UnredeemedStep(h);
      hide Unredeemed;
    } else {
      assert Unredeemed(h) == {};
    }
  }

  /** The last failure's time is that of the failure behind all others. */
  lemma {:induction false} LastFailureIsLast(h: seq<Event>, i: nat)
    requires i < |h| && h[i].Failure? && forall j :: i < j < |h| ==> !h[j].Failure?
    ensures LastFailure(h) == h[i].at
  {
    if i < |h| - 1 {
      LastFailureIsLast(h[..|h| - 1], i);
    }
  }

  // Clock readings never go back.
  ghost predicate Monotone(h: seq<Event>) {
    forall i, j :: 0 <= i < j < |h| ==> h[i].at <= h[j].at
  }

  ghost predicate MayRefuse(h: seq<Event>, threshold: int, resetTimeout: int, now: int) {
    FailureRun(h) >= threshold && now - LastFailure(h) <= resetTimeout
  }

  // ---------------------------------------------------------------------------
  // The three-state machine
  // ---------------------------------------------------------------------------

  datatype Machine = Machine(failures: int, state: BreakerState, lastFailure: int)

  function Allows(m: Machine, resetTimeout: int, now: int): bool {
    m.state != Open || now - m.lastFailure > resetTimeout
  }

  function Next(m: Machine, threshold: int, resetTimeout: int, e: Event): Machine {
    match e
    case Failure(at) =>
      Machine(m.failures + 1, if m.failures + 1 >= threshold then Open else m.state, at)
    case Success(_) => m.(failures := 0, state := Closed)
    case Asked(at) => if m.state == Open && at - m.lastFailure > resetTimeout then m.(state := HalfOpen) else m
  }

  function After(h: seq<Event>, threshold: int, resetTimeout: int): Machine {
    if h == [] then Machine(0, Closed, 0)
    else Next(After(h[..|h| - 1], threshold, resetTimeout), threshold, resetTimeout, h[|h| - 1])
  }

  lemma {:induction false} MachineFollowsHistory(h: seq<Event>, threshold: int, resetTimeout: int)
    requires threshold > 0 && Monotone(h)
    ensures var m := After(h, threshold, resetTimeout);
      && m.failures == FailureRun(h)
      && (FailureRun(h) > 0 ==> m.lastFailure == LastFailure(h))
      && (m.state == Closed <==> FailureRun(h) < threshold)
      && (m.state == HalfOpen ==> |h| > 0 && h[|h| - 1].at - LastFailure(h) > resetTimeout)
  {
    if h != [] {
      var g := h[..|h| - 1];
      MachineFollowsHistory(g, threshold, resetTimeout);
    }
  }

  /** With a monotone clock the breaker refuses exactly when the run of failures since the last success has
      reached the threshold and the last failure is no more than resetTimeout old; it is closed exactly
      while that run is below the threshold. */
  lemma BreakerRefinesHistory(h: seq<Event>, threshold: int, resetTimeout: int, now: int)
    requires threshold > 0 && Monotone(h + [Asked(now)])
    ensures var m := After(h, threshold, resetTimeout);
      && (!Allows(m, resetTimeout, now) <==> MayRefuse(h, threshold, resetTimeout, now))
      && (m.state == Closed <==> FailureRun(h) < threshold)
  {
    var g := h + [Asked(now)];
    forall i, j | 0 <= i < j < |h|
      ensures h[i].at <= h[j].at
    {
      assert g[i].at <= g[j].at;
    }
    MachineFollowsHistory(h, threshold, resetTimeout);
    if h != [] {
      assert g[|h| - 1].at <= g[|h|].at;
    }
  }

  /** circuitBreaker, with the history of calls kept beside its fields. Times are in seconds. */
  class Breaker {
    const threshold: int := 5
    const resetTimeout: int := 30
    var failures: int
    var state: BreakerState
    var lastFailure: int
    ghost var history: seq<Event>

    ghost predicate Valid()
      reads this
    {
      After(history, threshold, resetTimeout) == Machine(failures, state, lastFailure)
    }

    constructor ()
      ensures Valid() && history == []
    {
      failures, state, lastFailure := 0, Closed, 0;
      history := [];
    }

    method Allow(now: int) returns (allowed: bool)
      modifies this
      ensures history == old(history) + [Asked(now)]
      ensures old(Valid()) ==> Valid()
      ensures allowed <==> old(state) != Open || now - old(lastFailure) > 30
      ensures old(Valid()) && Monotone(history) ==>
        (allowed <==> !(FailureRun(old(history)) >= 5 && now - LastFailure(old(history)) <= 30))
    {
      ghost var before := history;
      history := history + [Asked(now)];
      assert history[..|history| - 1] == before;
      if Monotone(history) {
        BreakerRefinesHistory(before, threshold, resetTimeout, now);
      }
      match state {
        case Open =>
          if now - lastFailure > resetTimeout {
            state := HalfOpen;
            return true;
          }
          return false;
        case _ =>
          return true;
      }
    }

    method RecordFailure(now: int)
      modifies this
      ensures history == old(history) + [Failure(now)]
      ensures old(Valid()) ==> Valid()
    {
      ghost var before := history;
      history := history + [Failure(now)];
      assert history[..|history| - 1] == before;
      failures := failures + 1;
      lastFailure := now;
      if failures >= threshold {
        state := Open;
      }
    }

    method RecordSuccess(now: int)
      modifies this
      ensures history == old(history) + [Success(now)]
      ensures old(Valid()) ==> Valid()
    {
      ghost var before := history;
      history := history + [Success(now)];
      assert history[..|history| - 1] == before;
      failures := 0;
      state := Closed;
    }
  }
}
