/** `compute_backoff` over the reals, and the delay that `dispatch_one` derives from it. */
module Backoff {
  import opened State

  // chrono::Duration holds at most i64::MAX milliseconds.
  const CHRONO_MAX_SECONDS := 9223372036854775.807
  const ONE_DAY := 86400.0

  function Min(a: real, b: real): real { if a <= b then a else b }
  function Max(a: real, b: real): real { if a >= b then a else b }

  function Power(b: real, e: nat): real {
    if e == 0 then 1.0 else b * Power(b, e - 1)
  }

  function Uncapped(attempt: int, p: RetryPolicy): real
    requires attempt >= 1
  {
    p.initialBackoff * Power(p.multiplier, attempt - 1)
  }

  // The clamped base delay of an attempt, before jitter.
  function Base(attempt: int, p: RetryPolicy): real
    requires attempt >= 1
  {
    Min(Uncapped(attempt, p), p.maxBackoff)
  }

  // `draw` is the value of the random generator, in [0, 1).
  function JitterFactor(jitter: real, draw: real): real {
    Max(if jitter > 0.0 then 1.0 + (draw * (2.0 * jitter) - jitter) else 1.0, 0.0)
  }

  function Clamp(delay: real, cap: real): real {
    Min(Max(Min(delay, cap), 0.0), cap)
  }

  // The base spread by the jitter fraction, then clamped.
  function Spread(base: real, p: RetryPolicy, draw: real): real {
    Clamp(base * JitterFactor(p.jitter, draw), p.maxBackoff)
  }

  // This is the release build: the debug assertions on the arguments are absent.
  function ComputeBackoff(attempt: int, p: RetryPolicy, draw: real): real {
    if attempt <= 0 then p.initialBackoff
    else if p.multiplier <= 0.0 then Min(p.initialBackoff, p.maxBackoff)
    else Spread(Base(attempt, p), p, draw)
  }

  // How long after a failure the next attempt is due.
  function RetryDelay(attempt: int, p: RetryPolicy, draw: real): real {
    var backoff := ComputeBackoff(attempt, p, draw);
    if backoff > CHRONO_MAX_SECONDS then ONE_DAY else backoff
  }

  lemma {:induction false} PowerPositive(b: real, e: nat)
    requires b > 0.0
    ensures Power(b, e) > 0.0
  {
    if e > 0 { PowerPositive(b, e - 1); }
  }

  /** A retry delay is never negative; it exceeds the cap only on the unclamped path for attempt <= 0. */
  lemma BackoffCapped(attempt: int, p: RetryPolicy, draw: real)
    requires p.initialBackoff >= 0.0 && p.maxBackoff >= 0.0
    ensures ComputeBackoff(attempt, p, draw) >= 0.0
    ensures ComputeBackoff(attempt, p, draw) <= p.maxBackoff <==> attempt >= 1 || p.initialBackoff <= p.maxBackoff
    ensures attempt >= 1 ==> 0.0 <= RetryDelay(attempt, p, draw) <= p.maxBackoff
  {
  }

  /** Jitter moves the result at most the configured fraction away from the clamped base. */
  lemma BackoffWithinJitter(attempt: int, p: RetryPolicy, draw: real)
    requires attempt >= 1 && p.multiplier > 0.0
    requires p.initialBackoff >= 0.0 && p.maxBackoff >= 0.0
    requires 0.0 <= p.jitter <= 1.0 && 0.0 <= draw < 1.0
    ensures var b := Base(attempt, p);
            b * (1.0 - p.jitter) <= ComputeBackoff(attempt, p, draw) <= Min(b * (1.0 + p.jitter), p.maxBackoff)
    ensures p.jitter == 0.0 ==> ComputeBackoff(attempt, p, draw) == Base(attempt, p)
  {
    PowerPositive(p.multiplier, attempt - 1);
    NonNegative(p.initialBackoff, Power(p.multiplier, attempt - 1));
    SpreadBounds(Base(attempt, p), p, draw);
    if p.jitter == 0.0 { assert JitterFactor(p.jitter, draw) == 1.0; }
  }

  lemma SpreadBounds(b: real, p: RetryPolicy, draw: real)
    requires 0.0 <= b <= p.maxBackoff
    requires 0.0 <= p.jitter <= 1.0 && 0.0 <= draw < 1.0
    ensures b * (1.0 - p.jitter) <= Spread(b, p, draw) <= Min(b * (1.0 + p.jitter), p.maxBackoff)
  {
    JitterFactorBounds(p.jitter, draw);
    ScaledAndClamped(b, 1.0 - p.jitter, JitterFactor(p.jitter, draw), 1.0 + p.jitter, p.maxBackoff);
  }

  lemma ScaledAndClamped(b: real, low: real, factor: real, high: real, cap: real)
    requires 0.0 <= b <= cap
    requires 0.0 <= low <= factor <= high && low <= 1.0
    ensures b * low <= Clamp(b * factor, cap) <= Min(b * high, cap)
  {
    Scale(b, low, factor);
    Scale(b, factor, high);
    Scale(b, low, 1.0);
    NonNegative(b, factor);
    ClampBetween(b * low, b * factor, b * high, cap);
  }

  lemma ClampBetween(low: real, x: real, high: real, cap: real)
    requires 0.0 <= x && low <= x <= high && low <= cap
    ensures low <= Clamp(x, cap) <= Min(high, cap)
  {
  }

  lemma JitterFactorBounds(jitter: real, draw: real)
    requires 0.0 <= jitter <= 1.0 && 0.0 <= draw < 1.0
    ensures 1.0 - jitter <= JitterFactor(jitter, draw) <= 1.0 + jitter
  {
    NonNegative(draw, 2.0 * jitter);
    NonNegative(1.0 - draw, 2.0 * jitter);
  }

  lemma Scale(c: real, x: real, y: real)
    requires c >= 0.0 && x <= y
    ensures c * x <= c * y
  {
  }

  lemma NonNegative(x: real, y: real)
    requires x >= 0.0 && y >= 0.0
    ensures x * y >= 0.0
  {
  }

  lemma PowerGrows(b: real, e: nat)
    requires b >= 1.0
    ensures Power(b, e) <= Power(b, e + 1)
  {
    PowerPositive(b, e);
    Scale(Power(b, e), 1.0, b);
  }

  lemma {:induction false} UncappedMonotone(k: int, n: int, p: RetryPolicy)
    requires 1 <= k <= n && p.multiplier >= 1.0 && p.initialBackoff >= 0.0
    ensures Uncapped(k, p) <= Uncapped(n, p)
    decreases n - k
  {
    if k < n {
      UncappedMonotone(k, n - 1, p);
      PowerGrows(p.multiplier, n - 2);
      Scale(p.initialBackoff, Power(p.multiplier, n - 2), Power(p.multiplier, n - 1));
    }
  }

  /** Without jitter the delays never shrink when the multiplier is at least one,
      and once an attempt reaches the cap every later one stays there. */
  lemma BackoffMonotone(k: int, n: int, p: RetryPolicy, draw: real, draw': real)
    requires 1 <= k <= n && p.multiplier >= 1.0 && p.jitter == 0.0
    requires p.initialBackoff >= 0.0 && p.maxBackoff >= 0.0
    requires 0.0 <= draw < 1.0 && 0.0 <= draw' < 1.0
    ensures ComputeBackoff(k, p, draw) <= ComputeBackoff(n, p, draw')
    ensures ComputeBackoff(k, p, draw) == p.maxBackoff ==> ComputeBackoff(n, p, draw') == p.maxBackoff
  {
    BackoffWithinJitter(k, p, draw);
    BackoffWithinJitter(n, p, draw');
    UncappedMonotone(k, n, p);
  }

  // initial_backoff, multiplied once for each failure after the first.
  function Raw(k: nat, p: RetryPolicy): real
    requires k >= 1
  {
    if k == 1 then p.initialBackoff else Raw(k - 1, p) * p.multiplier
  }

  // The delay after the k-th failure without jitter; a multiplier of zero or less falls back to initial_backoff.
  function Steady(k: nat, p: RetryPolicy): real
    requires k >= 1
  {
    var d := if p.multiplier <= 0.0 then p.initialBackoff else Raw(k, p);
    if d <= p.maxBackoff then d else p.maxBackoff
  }

  lemma {:induction false} RawIsUncapped(k: nat, p: RetryPolicy)
    requires k >= 1
    ensures Raw(k, p) == Uncapped(k, p)
  {
    if k > 1 {
      RawIsUncapped(k - 1, p);
      Regroup(p.initialBackoff, Power(p.multiplier, k - 2), p.multiplier);
    }
  }

  lemma Regroup(x: real, y: real, z: real)
    ensures x * y * z == x * (z * y)
  {
  }

  lemma SteadyBounds(k: nat, p: RetryPolicy)
    requires k >= 1 && p.initialBackoff >= 0.0 && p.maxBackoff >= 0.0
    ensures 0.0 <= Steady(k, p) <= p.maxBackoff
    ensures p.multiplier > 0.0 ==> Steady(k, p) == Base(k, p) && Raw(k, p) >= 0.0
  {
    if p.multiplier > 0.0 {
      RawIsUncapped(k, p);
      PowerPositive(p.multiplier, k - 1);
      NonNegative(p.initialBackoff, Power(p.multiplier, k - 1));
    }
  }

  lemma UnspreadIsBase(k: nat, p: RetryPolicy, draw: real)
    requires k >= 1 && p.multiplier > 0.0 && p.jitter == 0.0 && 0.0 <= Base(k, p) <= p.maxBackoff
    ensures ComputeBackoff(k, p, draw) == Base(k, p)
  {
    assert JitterFactor(p.jitter, draw) == 1.0;
  }

  /** Without jitter, or with a multiplier that switches it off, the scheduled delay is the steady one, unless chrono
      cannot hold it, when it is one day. */
  lemma DelayIsSteady(k: nat, p: RetryPolicy, draw: real)
    requires k >= 1 && (p.jitter == 0.0 || p.multiplier <= 0.0) && p.initialBackoff >= 0.0 && p.maxBackoff >= 0.0
    ensures RetryDelay(k, p, draw) == if Steady(k, p) > 9223372036854775.807 then 86400.0 else Steady(k, p)
  {
    SteadyBounds(k, p);
    if p.multiplier > 0.0 { UnspreadIsBase(k, p, draw); }
  }

  /** The first delay, whatever the multiplier: the smaller of initial_backoff and max_backoff. */
  lemma FirstDelay(p: RetryPolicy, draw: real)
    requires p.initialBackoff >= 0.0 && p.maxBackoff >= 0.0 && p.jitter == 0.0
    ensures var d := if p.initialBackoff <= p.maxBackoff then p.initialBackoff else p.maxBackoff;
            RetryDelay(1, p, draw) == if d > 9223372036854775.807 then 86400.0 else d
  {
    DelayIsSteady(1, p, draw);
  }

  lemma GrowthPastCap(x: real, m: real, cap: real)
    requires x > cap >= 0.0 && m >= 1.0
    ensures cap * m >= cap && x * m > cap
  {
    Scale(cap, 1.0, m);
    Scale(x, 1.0, m);
  }

  lemma Shrinks(x: real, m: real, y: real, bound: real)
    requires 0.0 <= x <= bound && 0.0 < m < 1.0 && y == x * m
    ensures 0.0 <= y <= bound
  {
    NonNegative(x, m);
    Scale(x, m, 1.0);
  }

  lemma NextRaw(k: nat, p: RetryPolicy)
    requires k >= 1
    ensures Raw(k + 1, p) == Raw(k, p) * p.multiplier
  {
  }

  lemma {:induction false} ShrinkingStaysBelow(k: nat, p: RetryPolicy)
    requires k >= 1 && 0.0 < p.multiplier < 1.0 && p.initialBackoff >= 0.0
    ensures 0.0 <= Raw(k, p) <= p.initialBackoff
  {
    if k == 1 {
      assert Raw(1, p) == p.initialBackoff;
    } else {
      var x, y := Raw(k - 1, p), Raw(k, p);
      ShrinkingStaysBelow(k - 1, p);
      NextRaw(k - 1, p);
      Shrinks(x, p.multiplier, y, p.initialBackoff);
    }
  }

  lemma CappedGrowth(x: real, m: real, cap: real)
    requires 0.0 <= x && 0.0 <= cap && m > 0.0 && (m >= 1.0 || x <= cap)
    ensures Min(x * m, cap) == Min(Min(x, cap) * m, cap)
  {
    if x > cap { GrowthPastCap(x, m, cap); }
  }

  // The policies whose capped delay is multiplied at each failure: a multiplier below one shrinks the uncapped delay.
  predicate Compounds(p: RetryPolicy) {
    p.multiplier >= 1.0 || (p.multiplier > 0.0 && p.initialBackoff <= p.maxBackoff)
  }

  /** Each further steady delay is the multiple of the one before, up to the cap. */
  lemma NextSteady(k: nat, p: RetryPolicy)
    requires k >= 1 && p.initialBackoff >= 0.0 && p.maxBackoff >= 0.0
    requires Compounds(p)
    ensures var d := Steady(k, p) * p.multiplier;
            Steady(k + 1, p) == if d <= p.maxBackoff then d else p.maxBackoff
  {
    SteadyBounds(k, p);
    if p.multiplier < 1.0 { ShrinkingStaysBelow(k, p); }
    NextRaw(k, p);
    CappedGrowth(Raw(k, p), p.multiplier, p.maxBackoff);
  }

  // The fraction of the steady delay that a draw from [0, 1) stands for.
  function Fraction(jitter: real, draw: real): real { 1.0 - jitter + 2.0 * jitter * draw }

  lemma FractionIsFactor(jitter: real, draw: real)
    requires 0.0 <= jitter <= 1.0 && 0.0 <= draw < 1.0
    ensures JitterFactor(jitter, draw) == Fraction(jitter, draw) >= 0.0
  {
    NonNegative(draw, 2.0 * jitter);
    Regroup(2.0, jitter, draw);
    JitterFactorBounds(jitter, draw);
  }

  /** With jitter the scheduled delay is that fraction of the steady one, capped. */
  lemma DelayIsSpread(k: nat, p: RetryPolicy, draw: real)
    requires k >= 1 && p.multiplier > 0.0 && 0.0 <= p.initialBackoff && 0.0 <= p.maxBackoff <= 9223372036854775.807
    requires 0.0 <= p.jitter <= 1.0 && 0.0 <= draw < 1.0
    ensures var d := Steady(k, p) * Fraction(p.jitter, draw);
            RetryDelay(k, p, draw) == if d <= p.maxBackoff then d else p.maxBackoff
  {
    SteadyBounds(k, p);
    FractionIsFactor(p.jitter, draw);
    NonNegative(Steady(k, p), Fraction(p.jitter, draw));
  }

  // What is promised of the delay after the k-th failure: it lies within the jitter of the steady delay, above and
  // below, and within the cap; or it is one day, because the backoff was more than chrono can hold.
  ghost predicate Fits(delay: real, k: nat, p: RetryPolicy)
    requires k >= 1
  {
    FitsAround(delay, Steady(k, p), p)
  }

  predicate FitsAround(delay: real, d: real, p: RetryPolicy) {
    var high := Min(d * (1.0 + p.jitter), p.maxBackoff);
    d * (1.0 - p.jitter) <= delay <= high || (delay == 86400.0 && high > 9223372036854775.807)
  }

  // The conversion to chrono's type.
  lemma SaturatedFits(backoff: real, d: real, p: RetryPolicy)
    requires d * (1.0 - p.jitter) <= backoff <= Min(d * (1.0 + p.jitter), p.maxBackoff)
    ensures FitsAround(if backoff > CHRONO_MAX_SECONDS then ONE_DAY else backoff, d, p)
  {
  }

  lemma AroundItself(d: real, p: RetryPolicy)
    requires 0.0 <= d <= p.maxBackoff && p.jitter >= 0.0
    ensures d * (1.0 - p.jitter) <= d <= Min(d * (1.0 + p.jitter), p.maxBackoff)
  {
    Scale(d, 1.0 - p.jitter, 1.0);
    Scale(d, 1.0, 1.0 + p.jitter);
  }

  lemma BackoffAroundSteady(k: nat, p: RetryPolicy, draw: real)
    requires k >= 1 && p.initialBackoff >= 0.0 && p.maxBackoff >= 0.0
    ensures ComputeBackoff(k, p, draw) == if p.multiplier > 0.0 then Spread(Steady(k, p), p, draw) else Steady(k, p)
  {
    SteadyBounds(k, p);
  }

  lemma DelayOf(k: nat, p: RetryPolicy, draw: real, backoff: real)
    requires k >= 1 && backoff == ComputeBackoff(k, p, draw) && FitsAround(if backoff > CHRONO_MAX_SECONDS then ONE_DAY else backoff, Steady(k, p), p)
    ensures Fits(RetryDelay(k, p, draw), k, p)
  {
  }

  lemma SteadyFits(k: nat, p: RetryPolicy, draw: real, d: real, backoff: real)
    requires k >= 1 && p.initialBackoff >= 0.0 && p.maxBackoff >= 0.0 && d == Steady(k, p)
    requires 0.0 <= p.jitter <= 1.0 && 0.0 <= draw < 1.0
    requires backoff == if p.multiplier > 0.0 then Spread(d, p, draw) else d
    ensures FitsAround(if backoff > CHRONO_MAX_SECONDS then ONE_DAY else backoff, d, p)
  {
    SteadyBounds(k, p);
    if p.multiplier > 0.0 {
      SpreadBounds(d, p, draw);
    } else {
      AroundItself(d, p);
    }
    SaturatedFits(backoff, d, p);
  }

  /** Every policy, every draw: the scheduled delay is as promised. */
  lemma DelayFits(k: nat, p: RetryPolicy, draw: real)
    requires k >= 1 && p.initialBackoff >= 0.0 && p.maxBackoff >= 0.0
    requires 0.0 <= p.jitter <= 1.0 && 0.0 <= draw < 1.0
    ensures Fits(RetryDelay(k, p, draw), k, p)
  {
    var d, backoff := Steady(k, p), ComputeBackoff(k, p, draw);
    BackoffAroundSteady(k, p, draw);
    SteadyFits(k, p, draw, d, backoff);
    DelayOf(k, p, draw, backoff);
  }

  /** The two together, as `dispatch_one` needs them. */
  lemma DelayKept(attempt: int, p: RetryPolicy, draw: real)
    requires p.initialBackoff >= 0.0 && p.maxBackoff >= 0.0 && 0.0 <= p.jitter <= 1.0
    ensures attempt >= 1 && 0.0 <= draw < 1.0 ==> Fits(RetryDelay(attempt, p, draw), attempt, p)
    ensures attempt == 1 && p.jitter == 0.0 && p.maxBackoff <= 9223372036854775.807 ==>
      RetryDelay(attempt, p, draw) == if p.initialBackoff <= p.maxBackoff then p.initialBackoff else p.maxBackoff
  {
    if attempt >= 1 && 0.0 <= draw < 1.0 { DelayFits(attempt, p, draw); }
    if attempt == 1 && p.jitter == 0.0 { FirstDelay(p, draw); }
  }
}
