/** Erlang C staffing (internal/domain/report) over the reals: the probability of queuing, and the search
    for the least staffing that meets a service level. */
module ErlangC {

  // ---------------------------------------------------------------------------
  // The closed formula
  // ---------------------------------------------------------------------------

  function Power(a: real, k: nat): real {
    if k == 0 then 1.0 else a * Power(a, k - 1)
  }

  function Factorial(k: nat): (r: real)
    ensures r >= 1.0
  {
    if k == 0 then 1.0 else k as real * Factorial(k - 1)
  }

  // a^k / k!
  function Weight(a: real, k: nat): real {
    Power(a, k) / Factorial(k)
  }

  // The sum of a^k / k! for k < n.
  function WeightSum(a: real, n: nat): real {
    if n == 0 then 0.0 else WeightSum(a, n - 1) + Weight(a, n - 1)
  }

  // The weight of all states in which a call has to wait.
  function Tail(a: real, n: nat): real
    requires a < n as real
  {
    Waiting(Weight(a, n), a, n as real)
  }

  function Waiting(w: real, a: real, n: real): real
    requires a < n
  {
    w * n / (n - a)
  }

  // The Erlang C formula, with the program's answers outside its domain.
  function Queued(a: real, n: int): real {
    if n <= 0 || a <= 0.0 then 0.0
    else if n as real <= a then 1.0
    else
      DenominatorPositive(a, n);
      Tail(a, n) / (WeightSum(a, n) + Tail(a, n))
  }

  // ---------------------------------------------------------------------------
  // Its properties
  // ---------------------------------------------------------------------------

  lemma DivideProduct(x: real, y: real)
    requires y != 0.0
    ensures x / y * y == x
  {
  }

  lemma DivisionsCompare(x: real, y: real, u: real, v: real)
    requires y > 0.0 && v > 0.0 && x * v <= u * y
    ensures x / y <= u / v
  {
    var p, q := x / y, u / v;
    assert p * y == x && q * v == u;
    assert p * (y * v) == x * v && q * (y * v) == u * y;
    assert y * v > 0.0;
    CancelFactor(p, q, y * v);
  }

  lemma CancelFactor(p: real, q: real, k: real)
    requires k > 0.0 && p * k <= q * k
    ensures p <= q
  {
  }

  lemma ScaleBoth(x: real, y: real, t: real)
    requires x <= y && t >= 0.0
    ensures x * t <= y * t
  {
  }

  // Each weight is the previous one times a/k: how the program computes them.
  lemma {:induction false} WeightStep(a: real, k: nat)
    requires k > 0
    ensures Weight(a, k) == Weight(a, k - 1) * (a / k as real)
  {
    var p, f, r := Power(a, k - 1), Factorial(k - 1), k as real;
    var w, q := p / f, a / r;
    assert w * f == p && q * r == a;
    assert (w * q) * (r * f) == (w * f) * (q * r);
    assert (w * q) * (r * f) == a * p;
    DivideProduct(a * p, r * f);
    SameQuotient(a * p, r * f, w * q);
  }

  lemma SameQuotient(x: real, y: real, q: real)
    requires y > 0.0 && q * y == x
    ensures x / y == q
  {
  }

  lemma {:induction false} WeightPositive(a: real, k: nat)
    requires a > 0.0
    ensures Weight(a, k) > 0.0
  {
    if k > 0 {
      WeightPositive(a, k - 1);
      WeightStep(a, k);
      assert a / k as real > 0.0;
    }
  }

  lemma {:induction false} WeightSumPositive(a: real, n: nat)
    requires a > 0.0 && n > 0
    ensures WeightSum(a, n) > 0.0
  {
    WeightPositive(a, n - 1);
    if n > 1 {
      WeightSumPositive(a, n - 1);
    }
  }

  lemma TailPositive(a: real, n: nat)
    requires 0.0 < a < n as real
    ensures Tail(a, n) > 0.0
  {
    WeightPositive(a, n);
    DivideProduct(Weight(a, n) * n as real, n as real - a);
  }

  // One more agent: the tail shrinks.
  lemma TailShrinks(a: real, n: nat)
    requires 0.0 < a < n as real
    ensures Tail(a, n + 1) <= Tail(a, n)
  {
    var w, r := Weight(a, n), n as real;
    WeightPositive(a, n);
    WeightStep(a, n + 1);
    var q := a / (r + 1.0);
    assert q * (r + 1.0) == a;
    assert Weight(a, n + 1) * (r + 1.0) == w * a by {
      assert w * q * (r + 1.0) == w * (q * (r + 1.0));
    }
    TailCompare(w, a, r);
    DivisionsCompare(w * a, r + 1.0 - a, w * r, r - a);
  }

  lemma TailCompare(w: real, a: real, r: real)
    requires w > 0.0 && 0.0 < a < r
    ensures (w * a) * (r - a) <= (w * r) * (r + 1.0 - a)
  {
    assert a * (r - a) <= r * (r - a);
    assert r * (r - a) <= r * (r + 1.0 - a);
    assert w * (a * (r - a)) <= w * (r * (r + 1.0 - a));
  }

  /** The queuing probability lies between 0 and 1 and never rises with one more agent. */
  lemma QueuedIsMonotoneProbability(a: real, n: int)
    requires n > 0
    ensures 0.0 <= Queued(a, n) <= 1.0
    ensures Queued(a, n + 1) <= Queued(a, n)
  {
    if a > 0.0 {
      if n as real > a {
        QueuedWithin(a, n);
        QueuedWithin(a, n + 1);
        var s, t, t' := WeightSum(a, n), Tail(a, n), Tail(a, n + 1);
        var s' := WeightSum(a, n + 1);
        WeightSumPositive(a, n);
        WeightPositive(a, n);
        TailPositive(a, n);
        TailPositive(a, n + 1);
        TailShrinks(a, n);
        CrossProducts(s, t, s', t');
        DivisionsCompare(t', s' + t', t, s + t);
      } else if (n + 1) as real > a {
        QueuedWithin(a, n + 1);
      }
    }
  }

  lemma CrossProducts(s: real, t: real, s': real, t': real)
    requires 0.0 < s <= s' && 0.0 < t' <= t
    ensures t' * (s + t) <= t * (s' + t')
  {
    assert t' * s <= t * s;
    assert t * s <= t * s';
    assert t' * (s + t) == t' * s + t' * t;
    assert t * (s' + t') == t * s' + t * t';
  }

  lemma DenominatorPositive(a: real, n: nat)
    requires 0.0 < a < n as real
    ensures WeightSum(a, n) + Tail(a, n) > 0.0
  {
    WeightSumPositive(a, n);
    TailPositive(a, n);
  }

  lemma QueuedWithin(a: real, n: nat)
    requires 0.0 < a < n as real
    ensures 0.0 <= Queued(a, n) <= 1.0
  {
    DenominatorPositive(a, n);
    TailPositive(a, n);
    WeightSumPositive(a, n);
    var x, y := Tail(a, n), WeightSum(a, n) + Tail(a, n);
    DivisionsCompare(x, y, 1.0, 1.0);
    DivisionsCompare(0.0, 1.0, x, y);
  }

  lemma {:induction false} QueuedNeverRises(a: real, n: int, m: int)
    requires 0 < n <= m
    ensures Queued(a, m) <= Queued(a, n)
    decreases m - n
  {
    if n < m {
      QueuedIsMonotoneProbability(a, m - 1);
      QueuedNeverRises(a, n, m - 1);
    }
  }

  /** erlangCProb: the loop computes the closed formula. */
  method ErlangCProb(a: real, n: int) returns (p: real)
    ensures p == Queued(a, n)
  {
    if n <= 0 || a <= 0.0 {
      return 0.0;
    }
    var sumTerm, term := Accumulate(a, n);
    // Over the reals the quotient below is defined only past this test, which the program makes after it.
    if n as real <= a {
      return 1.0;
    }
    DenominatorPositive(a, n);
    hide Weight, WeightSum;
    var last := Waiting(term, a, n as real);
    return last / (sumTerm + last);
  }

  method Accumulate(a: real, n: nat) returns (sumTerm: real, term: real)
    requires n > 0
    ensures term == Weight(a, n) && sumTerm == WeightSum(a, n)
  {
    sumTerm, term := 1.0, 1.0;
    FirstTerms(a);
    hide *;
    for k := 1 to n + 1
      invariant term == Weight(a, k - 1)
      invariant sumTerm == WeightSum(a, if k <= n then k else n)
    {
      WeightStep(a, k);
      WeightSumStep(a, k);
      term := term * (a / k as real);
      if k < n {
        sumTerm := sumTerm + term;
      }
    }
  }

  lemma FirstTerms(a: real)
    ensures Weight(a, 0) == 1.0 && WeightSum(a, 1) == 1.0
  {
    assert WeightSum(a, 1) == WeightSum(a, 0) + Weight(a, 0);
  }

  lemma WeightSumStep(a: real, k: nat)
    ensures WeightSum(a, k + 1) == WeightSum(a, k) + Weight(a, k)
  {
  }

  // ---------------------------------------------------------------------------
  // Staffing
  // ---------------------------------------------------------------------------

  datatype Input = Input(callsPerHour: real, avgHandleSec: real, serviceLevelPct: real, targetAnswerSec: real)

  datatype Staffing = Staffing(traffic: real, minAgents: int, recommended: int, expectedSL: real)

  // What the search uses of the exponential function.
  ghost predicate LikeExp(exp: real -> real) {
    && (forall x :: exp(x) > 0.0)
    && (forall x, y :: x <= y ==> exp(x) <= exp(y))
  }

  function Ceil(x: real): int {
    -((-x).Floor)
  }

  function Traffic(i: Input): real {
    i.callsPerHour * i.avgHandleSec / 3600.0
  }

  function MinAgents(i: Input): int {
    if Ceil(Traffic(i)) < 1 then 1 else Ceil(Traffic(i))
  }

  function Exponent(i: Input, spare: int): real
    requires i.avgHandleSec > 0.0
  {
    -(spare as real) * i.targetAnswerSec / i.avgHandleSec
  }

  function ServiceLevel(i: Input, exp: real -> real, n: int): real
    requires i.avgHandleSec > 0.0
  {
    AtLeastZero(1.0 - Times(Queued(Traffic(i), n), exp(Exponent(i, n - Ceil(Traffic(i))))))
  }

  function Times(x: real, y: real): real {
    x * y
  }

  function AtLeastZero(x: real): real {
    if x < 0.0 then 0.0 else x
  }

  ghost predicate Meets(i: Input, exp: real -> real, n: int)
    requires i.avgHandleSec > 0.0
  {
    ServiceLevel(i, exp, n) * 100.0 >= i.serviceLevelPct
  }

  // math.Round(x*10000)/100 for x >= 0.
  function RoundPct(x: real): real {
    (x * 10000.0 + 0.5).Floor as real / 100.0
  }

  lemma ExponentFalls(i: Input, spare: int, more: int)
    requires i.avgHandleSec > 0.0 && i.targetAnswerSec >= 0.0 && spare <= more
    ensures Exponent(i, more) <= Exponent(i, spare)
  {
    var x, y, t := -(more as real), -(spare as real), i.targetAnswerSec;
    ScaleBoth(x, y, t);
    ScaleBoth(x * t, y * t, i.avgHandleSec);
    DivisionsCompare(x * t, i.avgHandleSec, y * t, i.avgHandleSec);
  }

  lemma ProductFalls(x: real, y: real, u: real, v: real)
    requires 0.0 <= x <= y && 0.0 < u <= v
    ensures Times(x, u) <= Times(y, v)
  {
    assert x * u <= y * u;
    assert y * u <= y * v;
  }

  lemma ServiceLevelNeverFalls(i: Input, exp: real -> real, n: int, m: int)
    requires i.avgHandleSec > 0.0 && i.targetAnswerSec >= 0.0 && LikeExp(exp) && 0 < n <= m
    ensures ServiceLevel(i, exp, n) <= ServiceLevel(i, exp, m)
  {
    var c, a := Ceil(Traffic(i)), Traffic(i);
    ExponentFalls(i, n - c, m - c);
    QueuedNeverRises(a, n, m);
    QueuedIsMonotoneProbability(a, m);
    assert exp(Exponent(i, m - c)) <= exp(Exponent(i, n - c));
    hide Queued, Exponent, Traffic, LikeExp, Ceil, Times;
    ProductFalls(Queued(a, m), Queued(a, n), exp(Exponent(i, m - c)), exp(Exponent(i, n - c)));
  }

  lemma EnoughStaysEnough(i: Input, exp: real -> real, n: int)
    requires i.avgHandleSec > 0.0 && i.targetAnswerSec >= 0.0 && LikeExp(exp) && 0 < n
    requires Meets(i, exp, n)
    ensures forall m :: n <= m ==> Meets(i, exp, m)
  {
    forall m | n <= m
      ensures Meets(i, exp, m)
    {
      ServiceLevelNeverFalls(i, exp, n, m);
    }
  }

  /** The Erlang C formula itself: of all weights a^k / k! up to n, the last one stretched by n / (n - a), the
      share of that last one. */
  lemma QueuedIsErlangC(a: real, n: nat) returns (last: real)
    requires 0.0 < a < n as real
    ensures last * (n as real - a) == Power(a, n) / Factorial(n) * n as real
    ensures Queued(a, n) * (WeightSum(a, n) + last) == last
  {
    last := Tail(a, n);
    DenominatorPositive(a, n);
    DivideProduct(Weight(a, n) * n as real, n as real - a);
    DivideProduct(last, WeightSum(a, n) + last);
  }

  lemma CeilIs(x: real)
    ensures x <= Ceil(x) as real < x + 1.0
  {
  }

  /** The level in terms of the input: one less the probability of queuing under callsPerHour * avgHandleSec / 3600
      erlangs, times the exponential of minus the spare agents' target answer time over the handle time. */
  lemma LevelOfInput(i: Input, exp: real -> real, n: int) returns (a: real, x: real)
    requires i.avgHandleSec > 0.0
    ensures a * 3600.0 == i.callsPerHour * i.avgHandleSec
    ensures x * i.avgHandleSec == -((n - Ceil(a)) as real) * i.targetAnswerSec
    ensures var level := 1.0 - Queued(a, n) * exp(x); ServiceLevel(i, exp, n) == if level >= 0.0 then level else 0.0
  {
    a, x := Traffic(i), Exponent(i, n - Ceil(Traffic(i)));
    DivideProduct(-((n - Ceil(a)) as real) * i.targetAnswerSec, i.avgHandleSec);
    assert Times(Queued(a, n), exp(x)) == Queued(a, n) * exp(x);
    hide Queued, Ceil, Times;
  }

  lemma MeetsIff(i: Input, exp: real -> real, n: int)
    requires i.avgHandleSec > 0.0
    ensures Meets(i, exp, n) <==> ServiceLevel(i, exp, n) >= i.serviceLevelPct / 100.0
  {
    hide ServiceLevel;
  }

  /** What is reported is within half of a hundredth of a percent of the level. */
  lemma ReportIsRounded(level: real)
    ensures RoundPct(level) - 0.005 <= 100.0 * level <= RoundPct(level) + 0.005
  {
    var x := level * 10000.0 + 0.5;
    assert x.Floor as real <= x < x.Floor as real + 1.0;
  }

  // What a negative target needs besides: both hold of the exponential function.
  ghost predicate GrowsLikeExp(exp: real -> real) {
    LikeExp(exp) && exp(0.0) == 1.0 && forall x :: exp(x) >= 1.0 + x
  }

  // From the least admissible staffing on, adding agents to a staffing that meets the target never misses it.
  ghost predicate NeverRevoked(i: Input, exp: real -> real)
    requires i.avgHandleSec > 0.0
  {
    forall n, m :: MinAgents(i) <= n <= m && Meets(i, exp, n) ==> Meets(i, exp, m)
  }

  // Below the traffic the weights up to k are at most this many times the last one.
  function Crowd(a: real, k: nat, j: nat): real
    requires j > 0
  {
    if k as real <= a - a / j as real then j as real + 1.0 else j as real + 2.0 + (k as real - a + a / j as real)
  }

  lemma CrowdStep(a: real, k: nat, j: nat)
    requires 0.0 < a && k > 0 && k as real <= a && j > 0
    ensures 1.0 + Times(Crowd(a, k - 1, j), k as real / a) <= Crowd(a, k, j)
  {
    var q, r, x := k as real / a, j as real, a / j as real;
    assert q * a == k as real && x * r == a;
    if k as real <= a - x {
      FewerThanWhole(k as real, a, r, x, q);
    } else {
      var c := Crowd(a, k - 1, j);
      assert c >= 0.0 && q <= 1.0;
      assert c * q <= c;
    }
  }

  lemma FewerThanWhole(k: real, a: real, r: real, x: real, q: real)
    requires a > 0.0 && r >= 1.0 && q * a == k && x * r == a && k <= a - x
    ensures 1.0 + (r + 1.0) * q <= r + 1.0
  {
    assert k * r <= (a - x) * r;
    assert (a - x) * r == a * r - a;
    assert (q * r) * a == k * r;
    assert (r - 1.0) * a == a * r - a;
    CancelFactor(q * r, r - 1.0, a);
    assert q * a <= 1.0 * a;
    CancelFactor(q, 1.0, a);
    assert (r + 1.0) * q == q * r + q;
  }

  lemma TimesOne(c: real)
    ensures Times(1.0, c) == c
  {
  }

  lemma CrowdAtZero(a: real, j: nat)
    requires 0.0 < a && j > 0
    ensures Crowd(a, 0, j) >= 1.0
  {
    var x, r := a / j as real, j as real;
    assert x * r == a;
    if x > a {
      ScaleBoth(1.0, r, x);
    }
  }

  lemma {:induction false} WeightsCrowd(a: real, k: nat, j: nat)
    requires 0.0 < a && k as real <= a && j > 0
    ensures WeightSum(a, k + 1) <= Times(Weight(a, k), Crowd(a, k, j))
  {
    WeightSumStep(a, k);
    WeightPositive(a, k);
    hide *;
    if k == 0 {
      FirstTerms(a);
      CrowdAtZero(a, j);
      TimesOne(Crowd(a, k, j));
    } else {
      WeightsCrowd(a, k - 1, j);
      WeightStep(a, k);
      WeightPositive(a, k - 1);
      CrowdStep(a, k, j);
      CrowdSum(WeightSum(a, k), Weight(a, k - 1), Weight(a, k), k as real / a, a, Crowd(a, k - 1, j), Crowd(a, k, j), k as real);
    }
  }

  lemma CrowdSum(sum: real, before: real, w: real, q: real, a: real, c: real, d: real, k: real)
    requires before > 0.0 && w > 0.0 && a > 0.0 && k > 0.0 && q == k / a && w == before * (a / k)
    requires sum <= Times(before, c) && 1.0 + Times(c, q) <= d
    ensures sum + w <= Times(w, d)
  {
    InverseQuotients(a, k);
    assert w * q == before * ((a / k) * q);
    assert before * c == (w * q) * c;
    assert (w * q) * c == w * (c * q);
    assert w * (1.0 + c * q) == w + w * (c * q);
    ScaleBoth(1.0 + c * q, d, w);
    assert (1.0 + c * q) * w == w * (1.0 + c * q);
  }

  lemma InverseQuotients(a: real, k: real)
    requires a > 0.0 && k > 0.0
    ensures (a / k) * (k / a) == 1.0
  {
    var x, y := a / k, k / a;
    assert x * k == a && y * a == k;
    assert (x * y) * a == x * k;
    assert 1.0 * a == a == x * k;
    CancelFactor(x * y, 1.0, a);
    CancelFactor(1.0, x * y, a);
  }
  // Heavy traffic: half an agent's work short of j * j agents.
  function Heavy(j: nat): real {
    (j * j) as real - 0.5
  }

  lemma HeavyBounds(j: nat, u: real, p: real)
    requires j >= 2 && u * j as real >= 12.0 && p * 1.5 == Heavy(j)
    ensures var a, r := Heavy(j), j as real;
      a > 3.0 && (j * j) as real <= 2.0 * a && a / r <= r && u * p >= 4.0 * r + 4.0
  {
    var a, r := Heavy(j), j as real;
    assert a == r * r - 0.5 && r * r >= 2.0 * r;
    hide Heavy;
    DivisionsCompare(a, r, r, 1.0);
    HeavyExponent(a, p, r, u);
  }

  lemma HeavyExponent(a: real, p: real, r: real, u: real)
    requires r >= 2.0 && u * r >= 12.0 && a == r * r - 0.5 && p * 1.5 == a
    ensures u * p >= 4.0 * r + 4.0
  {
    var square, x, y := r * r, u * r, u * p;
    ScaleBoth(2.0, r, r);
    ScaleBoth(12.0, x, p);
    RoomLeft(square, r, p, x * p);
    assert x * p == y * r;
    assert (4.0 * r + 4.0) * r == 4.0 * square + 4.0 * r;
    CancelFactor(4.0 * r + 4.0, y, r);
  }

  lemma RoomLeft(square: real, r: real, p: real, total: real)
    requires p * 1.5 == square - 0.5 && square >= 2.0 * r && r >= 2.0 && total >= 12.0 * p
    ensures 4.0 * square + 4.0 * r <= total
  {
  }

  // In heavy traffic one spare agent leaves most calls queuing.
  lemma HeavyStillQueues(j: nat, u: real)
    requires j >= 2 && u * j as real >= 12.0
    ensures var n := j * j; Heavy(j) > 0.0 && Times(Queued(Heavy(j), n + 1), 1.0 + u) >= 1.0
  {
    var a, n, r := Heavy(j), j * j, j as real;
    var p := a / 1.5;
    HeavyBounds(j, u, p);
    var w, c := Weight(a, n), Crowd(a, n - 1, j);
    assert c <= 2.0 * r + 1.5;
    WeightsCrowd(a, n - 1, j);
    WeightStep(a, n);
    WeightStep(a, n + 1);
    WeightSumStep(a, n);
    WeightPositive(a, n - 1);
    WeightPositive(a, n);
    DenominatorPositive(a, n + 1);
    hide Crowd, Weight, WeightSum;
    HeavySum(WeightSum(a, n), Weight(a, n - 1), w, a, n as real, c, r);
    HeavyTail(w, Weight(a, n + 1), a, (n + 1) as real, p);
    hide Waiting;
    HeavyShare(WeightSum(a, n + 1), Tail(a, n + 1), w, p, u, r);
  }

  lemma HeavySum(sum: real, before: real, w: real, a: real, n: real, c: real, r: real)
    requires before > 0.0 && a > 0.0 && 0.0 < n <= 2.0 * a && sum <= Times(before, c) && w == before * (a / n)
    requires c <= 2.0 * r + 1.5 && r > 0.0
    ensures sum + w <= w * (4.0 * r + 4.0)
  {
    InverseQuotients(a, n);
    assert before == w * (n / a) by {
      assert w * (n / a) == before * ((a / n) * (n / a));
    }
    DivisionsCompare(n, a, 2.0, 1.0);
    assert w > 0.0 by {
      assert a / n > 0.0;
    }
    ScaleBoth(n / a, 2.0, w);
    assert before <= 2.0 * w;
    ScaleBoth(c, 2.0 * r + 1.5, before);
    assert c * before == before * c;
    ScaleBoth(before, 2.0 * w, 2.0 * r + 1.5);
    assert (2.0 * w) * (2.0 * r + 1.5) + w == w * (4.0 * r + 4.0);
  }

  lemma HeavyTail(w: real, after: real, a: real, n: real, p: real)
    requires n > 0.0 && n - a == 1.5 && after == w * (a / n) && p * 1.5 == a
    ensures Waiting(after, a, n) == w * p
  {
    assert (a / n) * n == a;
    assert after * n == w * ((a / n) * n);
  }

  lemma HeavyShare(sum: real, tail: real, w: real, p: real, u: real, r: real)
    requires w > 0.0 && sum <= w * (4.0 * r + 4.0) && tail == w * p && u * p >= 4.0 * r + 4.0
    requires sum + tail > 0.0
    ensures tail / (sum + tail) * (1.0 + u) >= 1.0
  {
    ScaleBoth(4.0 * r + 4.0, u * p, w);
    assert u * p * w == u * tail;
    assert (4.0 * r + 4.0) * w == w * (4.0 * r + 4.0);
    assert tail * (1.0 + u) == tail + u * tail;
    var q := tail / (sum + tail);
    assert q * (sum + tail) == tail;
    assert q * (1.0 + u) * (sum + tail) == tail * (1.0 + u);
    CancelFactor(1.0, q * (1.0 + u), sum + tail);
  }

  lemma QueuedBelowOne(a: real, n: nat)
    requires 0.0 < a < n as real
    ensures Queued(a, n) < 1.0
  {
    WeightSumPositive(a, n);
    TailPositive(a, n);
    var sum, tail := WeightSum(a, n), Tail(a, n);
    var q := tail / (sum + tail);
    assert q * (sum + tail) == tail;
    if q >= 1.0 {
      ScaleBoth(1.0, q, sum + tail);
    }
  }

  // Traffic of just under j * j agents, and the service level those agents reach.
  function Witness(h: real, target: real, j: nat): Input
    requires h > 0.0
  {
    Input(Heavy(j) * 3600.0 / h, h, (1.0 - Queued(Heavy(j), j * j)) * 100.0, target)
  }

  lemma WitnessTraffic(h: real, target: real, j: nat)
    requires h > 0.0 && j >= 2
    ensures Traffic(Witness(h, target, j)) == Heavy(j) && MinAgents(Witness(h, target, j)) == j * j == Ceil(Heavy(j))
  {
    var a := Heavy(j);
    DivideProduct(a * 3600.0, h);
    assert j * j >= 1;
  }

  lemma NegativeTargetRevokes(h: real, target: real, exp: real -> real) returns (i: Input)
    requires h > 0.0 && target < 0.0 && GrowsLikeExp(exp)
    ensures i.avgHandleSec == h && i.targetAnswerSec == target && i.callsPerHour > 0.0 && !NeverRevoked(i, exp)
  {
    var u := -target / h;
    assert u * h == -target && u > 0.0;
    var j := LargeEnough(u);
    i := Witness(h, target, j);
    WitnessTraffic(h, target, j);
    HeavyStillQueues(j, u);
    var a, n := Heavy(j), j * j;
    QueuedBelowOne(a, n);
    assert Exponent(i, 0) == 0.0 && Exponent(i, 1) == u;
    hide Queued, Heavy, Exponent, Traffic, Ceil, Times;
    var q, q' := Queued(a, n), Queued(a, n + 1);
    ProductStays(q', 1.0 + u, exp(u));
    OneTimes(q);
    assert ServiceLevel(i, exp, n) == 1.0 - q && ServiceLevel(i, exp, n + 1) == 0.0;
    assert Meets(i, exp, n) && !Meets(i, exp, n + 1);
  }

  lemma ProductStays(q: real, x: real, y: real)
    requires Times(q, x) >= 1.0 && 0.0 < x <= y
    ensures Times(q, y) >= 1.0
  {
    if q <= 0.0 {
      ScaleBoth(q, 0.0, x);
    }
    ScaleBoth(x, y, q);
  }

  lemma OneTimes(q: real)
    ensures Times(q, 1.0) == q
  {
  }

  lemma LargeEnough(u: real) returns (j: nat)
    requires u > 0.0
    ensures j >= 2 && u * j as real >= 12.0
  {
    var x := 12.0 / u;
    assert x * u == 12.0 && x > 0.0;
    j := x.Floor + 2;
    ScaleBoth(x, j as real, u);
  }

  /** The exact condition: for a given handle time and target answer time, adding agents never revokes a met
      service level, for any traffic and any level, exactly when the target answer time is not negative. */
  lemma NeverRevokedIff(h: real, target: real, exp: real -> real)
    requires h > 0.0 && GrowsLikeExp(exp)
    ensures (forall i: Input :: i.avgHandleSec == h && i.targetAnswerSec == target ==> NeverRevoked(i, exp))
       <==> target >= 0.0
  {
    if target >= 0.0 {
      forall i: Input, n, m | i.avgHandleSec == h && i.targetAnswerSec == target && MinAgents(i) <= n <= m && Meets(i, exp, n)
        ensures Meets(i, exp, m)
      {
        EnoughStaysEnough(i, exp, n);
      }
    } else {
      var i := NegativeTargetRevokes(h, target, exp);
    }
  }

  // Some staffing in the range the search looks at meets the target.
  ghost predicate Attainable(i: Input, exp: real -> real)
    requires i.avgHandleSec > 0.0
  {
    exists n :: MinAgents(i) <= n <= MinAgents(i) + 200 && Meets(i, exp, n)
  }

  /** ErlangC: when some staffing in the search range meets the target, the recommendation is the least one
      from the minimum on, and with a target answer time that is not negative every larger staffing meets it
      too; otherwise it is the end of the range with no expected level. */
  method ComputeStaffing(i: Input, exp: real -> real) returns (r: Staffing)
    requires LikeExp(exp)
    ensures i.callsPerHour <= 0.0 || i.avgHandleSec <= 0.0 ==> r == Staffing(0.0, 0, 0, 0.0)
    ensures i.callsPerHour > 0.0 && i.avgHandleSec > 0.0 ==>
      && r.traffic == Traffic(i) && r.minAgents == MinAgents(i)
      && r.minAgents as real >= r.traffic && r.minAgents >= 1
      && (r.minAgents > 1 ==> (r.minAgents - 1) as real < r.traffic)
      && r.minAgents <= r.recommended <= r.minAgents + 200
      && (forall n :: r.minAgents <= n < r.recommended ==> !Meets(i, exp, n))
    ensures i.callsPerHour > 0.0 && i.avgHandleSec > 0.0 && Attainable(i, exp) ==>
      && Meets(i, exp, r.recommended)
      && (i.targetAnswerSec >= 0.0 ==> forall n :: r.recommended <= n ==> Meets(i, exp, n))
      && r.expectedSL == RoundPct(ServiceLevel(i, exp, r.recommended))
    ensures i.callsPerHour > 0.0 && i.avgHandleSec > 0.0 && !Attainable(i, exp) ==>
      r.recommended == r.minAgents + 200 && r.expectedSL == 0.0
  {
    if i.callsPerHour <= 0.0 || i.avgHandleSec <= 0.0 {
      return Staffing(0.0, 0, 0, 0.0);
    }
    var a := i.callsPerHour * i.avgHandleSec / 3600.0;
    assert a == Traffic(i);
    hide Traffic, Queued, Exponent, Times;
    var minN := Ceil(a);
    if minN < 1 {
      minN := 1;
    }
    for n := minN to minN + 201
      invariant forall m :: minN <= m < n ==> !Meets(i, exp, m)
    {
      var ec := ErlangCProb(a, n);
      var sl := 1.0 - Times(ec, exp(Exponent(i, n - Ceil(a))));
      if sl < 0.0 {
        sl := 0.0;
      }
      assert sl == ServiceLevel(i, exp, n);
      if sl * 100.0 >= i.serviceLevelPct {
        if i.targetAnswerSec >= 0.0 {
          EnoughStaysEnough(i, exp, n);
        }
        assert Meets(i, exp, n);
        return Staffing(a, minN, n, RoundPct(sl));
      }
    }
    return Staffing(a, minN, minN + 200, 0.0);
  }
}
