/**
 * The trend estimator: an exponential moving average over a window of a
 * sector's price history, and the short/long comparison that drives momentum.
 */
module Trend {

  const SHORT_PERIOD: nat := 3
  const LONG_PERIOD: nat := 7

  /** The trailing n entries of s, or all of s when it is shorter (JavaScript slice(-n), n > 0). */
  function LastN(s: seq<int>, n: nat): (r: seq<int>)
    requires n > 0
    ensures |r| == if |s| < n then |s| else n
  {
    if |s| <= n then s else s[|s| - n..]
  }

  /** The window is the trailing part of the sequence, in order. */
  lemma LastNIsSuffix(s: seq<int>, n: nat)
    requires n > 0
    ensures LastN(s, n) == s[|s| - |LastN(s, n)|..]
  {
    if |s| <= n {
      assert s[0..] == s;
    }
  }

  /** The smoothing factor k = 2 / (period + 1). */
  function Smoothing(period: nat): (k: real)
    requires period >= 1
    ensures 0.0 < k <= 1.0
  {
    2.0 / (period + 1) as real
  }

  /**
   * The running average after folding prices[0..n): seeded with prices[0],
   * each later price p updates it to p * k + ema * (1 - k).
   */
  function EmaFold(prices: seq<int>, k: real, n: nat): real
    requires 1 <= n <= |prices|
    decreases n
  {
    if n == 1 then prices[0] as real
    else prices[n - 1] as real * k + EmaFold(prices, k, n - 1) * (1.0 - k)
  }

  /**
   * calculateEMA: the last price when there are fewer prices than the
   * period (0 when there are none), otherwise the full left fold.
   */
  function Ema(prices: seq<int>, period: nat): real
    requires period >= 1
  {
    if |prices| < period then
      (if |prices| == 0 then 0.0 else prices[|prices| - 1] as real)
    else
      EmaFold(prices, Smoothing(period), |prices|)
  }

  /** The imperative calculateEMA: one reassignment of the average per price. */
  method CalculateEMA(prices: seq<int>, period: nat) returns (ema: real)
    requires period >= 1
    ensures ema == Ema(prices, period)
    ensures |prices| == 0 ==> ema == 0.0
    ensures 0 < |prices| < period ==> ema == prices[|prices| - 1] as real
    ensures |prices| >= period ==> ema == EmaFold(prices, 2.0 / (period + 1) as real, |prices|)
  {
    if |prices| < period {
      if |prices| == 0 {
        return 0.0;
      }
      return prices[|prices| - 1] as real;
    }
    var k := 2.0 / (period + 1) as real;
    ema := prices[0] as real;
    for i := 1 to |prices|
      invariant ema == EmaFold(prices, k, i)
    {
      ema := prices[i] as real * k + ema * (1.0 - k);
    }
  }

  /** With 0 <= k <= 1 every step is a convex combination, so the fold stays within the prices' bounds. */
  lemma {:induction false} EmaFoldWithin(prices: seq<int>, k: real, n: nat, lo: int, hi: int)
    requires 1 <= n <= |prices|
    requires 0.0 <= k <= 1.0
    requires forall i :: 0 <= i < n ==> lo <= prices[i] <= hi
    ensures lo as real <= EmaFold(prices, k, n) <= hi as real
    decreases n
  {
    if n > 1 {
      EmaFoldWithin(prices, k, n - 1, lo, hi);
      assert lo <= prices[n - 1] <= hi;
      ConvexStep(prices[n - 1] as real, EmaFold(prices, k, n - 1), k, lo as real, hi as real);
    }
  }

  /** One update p * k + e * (1 - k) with both p and e in [lo, hi] stays in [lo, hi]. */
  lemma ConvexStep(p: real, e: real, k: real, lo: real, hi: real)
    requires lo <= p <= hi && lo <= e <= hi
    requires 0.0 <= k <= 1.0
    ensures lo <= p * k + e * (1.0 - k) <= hi
  {
    assert (p - lo) * k >= 0.0;
    assert (e - lo) * (1.0 - k) >= 0.0;
    assert (hi - p) * k >= 0.0;
    assert (hi - e) * (1.0 - k) >= 0.0;
  }

  /** The average of a non-empty window never leaves the range of its prices. */
  lemma EmaWithinRange(prices: seq<int>, period: nat, lo: int, hi: int)
    requires period >= 1
    requires |prices| > 0
    requires forall i :: 0 <= i < |prices| ==> lo <= prices[i] <= hi
    ensures lo as real <= Ema(prices, period) <= hi as real
  {
    if |prices| >= period {
      EmaFoldWithin(prices, Smoothing(period), |prices|, lo, hi);
    }
  }

  /** The short-window (3) average of a price history. */
  function ShortEma(history: seq<int>): real
  {
    Ema(LastN(history, SHORT_PERIOD), SHORT_PERIOD)
  }

  /** The long-window (7) average of a price history. */
  function LongEma(history: seq<int>): real
  {
    Ema(LastN(history, LONG_PERIOD), LONG_PERIOD)
  }

  /** The trend test `shortEMA > longEMA`. */
  predicate TrendingUp(history: seq<int>)
  {
    ShortEma(history) > LongEma(history)
  }

  /** A history of one repeated price (such as the initial [100]) never trends up. */
  lemma FlatHistoryNotTrending(history: seq<int>, c: int)
    requires |history| > 0
    requires forall i :: 0 <= i < |history| ==> history[i] == c
    ensures ShortEma(history) == c as real && LongEma(history) == c as real
    ensures !TrendingUp(history)
  {
    var s, l := LastN(history, SHORT_PERIOD), LastN(history, LONG_PERIOD);
    EmaWithinRange(s, SHORT_PERIOD, c, c);
    EmaWithinRange(l, LONG_PERIOD, c, c);
  }

  /** With fewer than three prices both windows fall back to the last price. */
  lemma ShortHistoryNotTrending(history: seq<int>)
    requires |history| < SHORT_PERIOD
    ensures ShortEma(history) == LongEma(history)
    ensures !TrendingUp(history)
  {
  }

  /**
   * With three to six prices the long window falls back to the last price
   * while the short window averages the last three with weights 1/4, 1/4, 1/2;
   * so the test reports a rise exactly when the two earlier prices sum to more
   * than twice the latest one, that is, when the latest price fell below their mean.
   */
  lemma MidHistoryTrend(history: seq<int>)
    requires SHORT_PERIOD <= |history| < LONG_PERIOD
    ensures LongEma(history) == history[|history| - 1] as real
    ensures TrendingUp(history) <==>
              history[|history| - 3] + history[|history| - 2] > 2 * history[|history| - 1]
  {
    var n := |history|;
    var w := LastN(history, SHORT_PERIOD);
    assert w == [history[n - 3], history[n - 2], history[n - 1]];
    assert Smoothing(SHORT_PERIOD) == 0.5;
    var a, b, c := history[n - 3] as real, history[n - 2] as real, history[n - 1] as real;
    assert EmaFold(w, 0.5, 2) == b * 0.5 + a * 0.5;
    assert ShortEma(history) == c * 0.5 + (b * 0.5 + a * 0.5) * 0.5;
  }
}
