/**
 * The trend indicator: an exponential moving average seeded with the simple
 * average of the first `period` prices, and the three-way trend classifier.
 */
module Ema {
  import opened Wrappers
  import opened Types

  datatype Trend = UP | DOWN | NEUTRAL

  /** Sum of the prices of the first `n` candles. */
  function PrefixSum(cs: seq<Candle>, n: nat): real
    requires n <= |cs|
  {
    if n == 0 then 0.0 else PrefixSum(cs, n - 1) + cs[n - 1].price
  }

  /** The smoothing factor 2 / (period + 1). */
  function Multiplier(period: nat): (k: real)
    ensures 0.0 < k <= 1.0 || period == 0
  {
    2.0 / (period as real + 1.0)
  }

  /** One step of the recurrence: move `ema` towards `price` by the smoothing factor. */
  function Smooth(ema: real, price: real, period: nat): real {
    (price - ema) * Multiplier(period) + ema
  }

  /** The simple average of the first `period` prices. */
  function Seed(cs: seq<Candle>, period: nat): real
    requires 1 <= period <= |cs|
  {
    PrefixSum(cs, period) / period as real
  }

  /** The average after the recurrence has consumed the candles before index `i`. */
  function EmaAt(cs: seq<Candle>, period: nat, i: nat): real
    requires 1 <= period <= i <= |cs|
    decreases i
  {
    if i == period then Seed(cs, period)
    else Smooth(EmaAt(cs, period, i - 1), cs[i - 1].price, period)
  }

  /** The indicator value of a window: none while it holds fewer than `period` candles. */
  function Ema(cs: seq<Candle>, period: nat): (r: Option<real>)
    requires period >= 1
    ensures r.None? <==> |cs| < period
  {
    if |cs| < period then None else Some(EmaAt(cs, period, |cs|))
  }

  /** The indicator, computed with a seed loop and a recurrence loop, as `calculateEMA` does. */
  method CalculateEMA(candles: seq<Candle>, period: nat) returns (r: Option<real>)
    requires period >= 1
    ensures r == Ema(candles, period)
  {
    if |candles| < period {
      return None;
    }
    var multiplier := 2.0 / (period as real + 1.0);
    var sum := 0.0;
    for i := 0 to period
      invariant sum == PrefixSum(candles, i)
    {
      sum := sum + candles[i].price;
    }
    var ema := sum / period as real;
    for i := period to |candles|
      invariant ema == EmaAt(candles, period, i)
    {
      ema := (candles[i].price - ema) * multiplier + ema;
    }
    return Some(ema);
  }

  /** A window of exactly `period` candles yields their simple average. */
  lemma ExactWindowIsAverage(cs: seq<Candle>)
    requires |cs| >= 1
    ensures Ema(cs, |cs|) == Some(PrefixSum(cs, |cs|) / |cs| as real)
  {
  }

  /** The sum of `n` prices that all lie in [lo, hi] lies in [n*lo, n*hi]. */
  lemma {:induction false} PrefixSumBounds(cs: seq<Candle>, n: nat, lo: real, hi: real)
    requires n <= |cs|
    requires forall k :: 0 <= k < n ==> lo <= cs[k].price <= hi
    ensures n as real * lo <= PrefixSum(cs, n) <= n as real * hi
  {
    if n > 0 {
      PrefixSumBounds(cs, n - 1, lo, hi);
    }
  }

  /** A step of the recurrence between two values in [lo, hi] stays in [lo, hi]. */
  lemma SmoothBounds(ema: real, price: real, period: nat, lo: real, hi: real)
    requires period >= 1
    requires lo <= ema <= hi && lo <= price <= hi
    ensures lo <= Smooth(ema, price, period) <= hi
  {
    var k := Multiplier(period);
    assert Smooth(ema, price, period) == (1.0 - k) * ema + k * price;
    assert (1.0 - k) * lo <= (1.0 - k) * ema <= (1.0 - k) * hi;
    assert k * lo <= k * price <= k * hi;
  }

  /** The average of the seed lies between the smallest and largest seed price. */
  lemma SeedBounds(cs: seq<Candle>, period: nat, lo: real, hi: real)
    requires 1 <= period <= |cs|
    requires forall k :: 0 <= k < period ==> lo <= cs[k].price <= hi
    ensures lo <= Seed(cs, period) <= hi
  {
    PrefixSumBounds(cs, period, lo, hi);
    var p := period as real;
    assert Seed(cs, period) * p == PrefixSum(cs, period);
  }

  /** Every intermediate average lies within the range of the prices consumed so far. */
  lemma {:induction false} EmaAtBounds(cs: seq<Candle>, period: nat, i: nat, lo: real, hi: real)
    requires 1 <= period <= i <= |cs|
    requires forall k :: 0 <= k < i ==> lo <= cs[k].price <= hi
    ensures lo <= EmaAt(cs, period, i) <= hi
  {
    if i == period {
      SeedBounds(cs, period, lo, hi);
    } else {
      EmaAtBounds(cs, period, i - 1, lo, hi);
      SmoothBounds(EmaAt(cs, period, i - 1), cs[i - 1].price, period, lo, hi);
    }
  }

  /** The indicator never leaves the range of the window's prices. */
  lemma EmaWithinPriceRange(cs: seq<Candle>, period: nat, lo: real, hi: real)
    requires period >= 1
    requires forall k :: 0 <= k < |cs| ==> lo <= cs[k].price <= hi
    ensures Ema(cs, period).Some? ==> lo <= Ema(cs, period).value <= hi
  {
    if |cs| >= period {
      EmaAtBounds(cs, period, |cs|, lo, hi);
    }
  }

  /** Prices strictly increase along the window. */
  ghost predicate StrictlyRising(cs: seq<Candle>) {
    forall j, k :: 0 <= j < k < |cs| ==> cs[j].price < cs[k].price
  }

  /** On strictly rising prices each step after the seed strictly raises the average. */
  lemma {:induction false} RisingEmaAboveSeed(cs: seq<Candle>, period: nat, i: nat)
    requires 1 <= period < i <= |cs|
    requires StrictlyRising(cs)
    ensures EmaAt(cs, period, i) > Seed(cs, period)
  {
    var prev := EmaAt(cs, period, i - 1);
    EmaAtBounds(cs, period, i - 1, cs[0].price, cs[i - 2].price);
    assert prev < cs[i - 1].price;
    assert Smooth(prev, cs[i - 1].price, period) > prev by {
      assert (cs[i - 1].price - prev) * Multiplier(period) > 0.0;
    }
    if i - 1 > period {
      RisingEmaAboveSeed(cs, period, i - 1);
    }
  }

  /** Directional sanity: on a strictly rising window longer than the period, the EMA exceeds the seed average. */
  lemma RisingWindowEmaExceedsAverage(cs: seq<Candle>, period: nat)
    requires 1 <= period < |cs|
    requires StrictlyRising(cs)
    ensures Ema(cs, period).Some? && Ema(cs, period).value > PrefixSum(cs, period) / period as real
  {
    RisingEmaAboveSeed(cs, period, |cs|);
  }

  /** The trend: UP when fast > slow, DOWN when fast < slow, NEUTRAL when equal or either is missing. */
  function DetermineTrend(emaFast: Option<real>, emaSlow: Option<real>): (t: Trend)
    ensures t == UP <==> emaFast.Some? && emaSlow.Some? && emaFast.value > emaSlow.value
    ensures t == DOWN <==> emaFast.Some? && emaSlow.Some? && emaFast.value < emaSlow.value
    ensures t == NEUTRAL <==> emaFast.None? || emaSlow.None? || emaFast.value == emaSlow.value
  {
    if emaFast.None? || emaSlow.None? then NEUTRAL
    else if emaFast.value > emaSlow.value then UP
    else if emaFast.value < emaSlow.value then DOWN
    else NEUTRAL
  }

  /** Swapping the two averages swaps UP and DOWN and keeps NEUTRAL. */
  lemma TrendAntisymmetric(a: Option<real>, b: Option<real>)
    ensures DetermineTrend(a, b) == UP <==> DetermineTrend(b, a) == DOWN
    ensures DetermineTrend(a, b) == NEUTRAL <==> DetermineTrend(b, a) == NEUTRAL
  {
  }

  /** The trend of the current window, as the tick computes it. */
  function WindowTrend(cs: seq<Candle>, config: Config): Trend
    requires config.HasPeriods()
  {
    DetermineTrend(Ema(cs, config.emaFast), Ema(cs, config.emaSlow))
  }

  /** A window shorter than either period has no trend. */
  lemma ShortWindowIsNeutral(cs: seq<Candle>, config: Config)
    requires config.HasPeriods()
    requires |cs| < config.emaFast || |cs| < config.emaSlow
    ensures WindowTrend(cs, config) == NEUTRAL
  {
  }
}
