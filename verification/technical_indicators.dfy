/** The technical indicators computed from an asset's price history. */
module TechnicalIndicators {
  import opened Util
  import opened Types
  import opened Series
  import Sorting

  /** The price change from each point to the next. */
  function Changes(ps: seq<real>): (r: seq<real>)
    ensures |r| == if |ps| == 0 then 0 else |ps| - 1
    ensures forall i :: 0 <= i < |r| ==> r[i] == ps[i + 1] - ps[i]
  {
    if |ps| < 2 then [] else [ps[1] - ps[0]] + Changes(ps[1..])
  }

  function Gains(changes: seq<real>): real
  {
    Sum(Filter(changes, (c: real) => c > 0.0))
  }

  /** The size of the losses (the sum of the falls, made positive). */
  function Losses(changes: seq<real>): real
  {
    Abs(Sum(Filter(changes, (c: real) => c < 0.0)))
  }

  /** The last 14 changes of a history of at least 15 points. */
  function RecentChanges(h: seq<PricePoint>): (r: seq<real>)
    requires |h| >= 15
    ensures |r| == 14
    ensures forall j :: 0 <= j < 14 ==> r[j] == h[|h| - 14 + j].price - h[|h| - 15 + j].price
  {
    LastN(Changes(Prices(h)), 14)
  }

  lemma {:induction false} GainsAndLosses(changes: seq<real>)
    ensures Gains(changes) >= 0.0 && Losses(changes) >= 0.0
    ensures Losses(changes) == 0.0 <==> forall i :: 0 <= i < |changes| ==> changes[i] >= 0.0
  {
    var ups := Filter(changes, (c: real) => c > 0.0);
    var downs := Filter(changes, (c: real) => c < 0.0);
    SumNonNegative(ups);
    FilterMembers(changes, (c: real) => c < 0.0);
    if |downs| > 0 {
      SumNegative(downs);
      assert downs[0] in downs;
    } else {
      forall i | 0 <= i < |changes| ensures changes[i] >= 0.0 {
        assert changes[i] in changes;
      }
    }
  }

  /** The RSI formula on the summed rises `g` and falls `l` of 14 changes. */
  function RsiFormula(g: real, l: real): (r: real)
    requires g >= 0.0 && l >= 0.0
  {
    var gains, losses := g / 14.0, l / 14.0;
    if losses == 0.0 then 100.0
    else
      var rs := gains / losses;
      100.0 - 100.0 / (1.0 + rs)
  }

  /** The formula lies in [0, 100], is 100 exactly when nothing fell, and is
      above 50 exactly when the rises outweigh the falls. */
  lemma {:induction false} RsiFormulaRange(g: real, l: real)
    requires g >= 0.0 && l >= 0.0
    ensures 0.0 <= RsiFormula(g, l) <= 100.0
    ensures RsiFormula(g, l) == 100.0 <==> l == 0.0
    ensures l > 0.0 ==> (RsiFormula(g, l) > 50.0 <==> g > l)
  {
    if l > 0.0 {
      var rs := (g / 14.0) / (l / 14.0);
      assert rs == g / l;
      assert rs * l == g;
      var d := 1.0 + rs;
      QuotientBounds(100.0, d, 0.0, 100.0);
      assert 100.0 / d * d == 100.0;
      if g > l {
        assert rs > 1.0;
        assert 100.0 / d < 50.0;
      } else {
        assert rs <= 1.0;
        assert 100.0 / d >= 50.0;
      }
    }
  }

  /** `calculateRSI` over the last 14 changes: 50 on a short history, 100
      when nothing fell, otherwise `100 - 100 / (1 + gains / losses)`. */
  function RSI(h: seq<PricePoint>): (r: real)
    ensures |h| < 15 ==> r == 50.0
    ensures 0.0 <= r <= 100.0
    ensures |h| >= 15 ==>
      (r == 100.0 <==> forall i :: |h| - 15 <= i < |h| - 1 ==> h[i].price <= h[i + 1].price)
  {
    if |h| < 15 then 50.0
    else
      var recent := RecentChanges(h);
      GainsAndLosses(recent);
      RsiFormulaRange(Gains(recent), Losses(recent));
      NoFallsInRecent(h);
      RsiFormula(Gains(recent), Losses(recent))
  }

  lemma NoFallsInRecent(h: seq<PricePoint>)
    requires |h| >= 15
    ensures (forall j :: 0 <= j < |RecentChanges(h)| ==> RecentChanges(h)[j] >= 0.0) <==>
            (forall i :: |h| - 15 <= i < |h| - 1 ==> h[i].price <= h[i + 1].price)
  {
    var recent := RecentChanges(h);
    if forall j :: 0 <= j < |recent| ==> recent[j] >= 0.0 {
      forall i | |h| - 15 <= i < |h| - 1 ensures h[i].price <= h[i + 1].price {
        assert recent[i - (|h| - 15)] >= 0.0;
      }
    }
  }

  /** Above 50 exactly when the recent rises outweigh the recent falls. */
  lemma {:induction false} RsiAboveHalfIffGainsWin(h: seq<PricePoint>)
    requires |h| >= 15
    requires Losses(RecentChanges(h)) > 0.0
    ensures RSI(h) > 50.0 <==> Gains(RecentChanges(h)) > Losses(RecentChanges(h))
  {
    GainsAndLosses(RecentChanges(h));
    RsiFormulaRange(Gains(RecentChanges(h)), Losses(RecentChanges(h)));
  }

  // ---------------------------------------------------------------------------
  // Trend

  datatype Trend = StrongUptrend | Uptrend | Neutral | Downtrend | StrongDowntrend

  /** The trend a percentage difference stands for: above 2 % strong, above
      0.5 % mild, and the same on the way down. */
  function ClassifyTrend(diff: Extended): Trend
  {
    match diff
    case Finite(d) =>
      if d > 2.0 then StrongUptrend
      else if d > 0.5 then Uptrend
      else if d < -2.0 then StrongDowntrend
      else if d < -0.5 then Downtrend
      else Neutral
    case PosInf => StrongUptrend
    case NegInf => StrongDowntrend
    case NaN => Neutral
  }

  function TrendRank(t: Trend): int
  {
    match t
    case StrongDowntrend => -2
    case Downtrend => -1
    case Neutral => 0
    case Uptrend => 1
    case StrongUptrend => 2
  }

  /** A larger difference never gives a weaker trend, and the thresholds
      are symmetric. */
  lemma {:induction false} ClassifyTrendMonotone(a: real, b: real)
    requires a <= b
    ensures TrendRank(ClassifyTrend(Finite(a))) <= TrendRank(ClassifyTrend(Finite(b)))
    ensures TrendRank(ClassifyTrend(Finite(-a))) == -TrendRank(ClassifyTrend(Finite(a)))
  {
  }

  /** The mean price of a non-empty list of points. */
  function AveragePrice(h: seq<PricePoint>): real
    requires |h| > 0
  {
    Mean(Prices(h))
  }

  /** `detectTrend`: the last 10 points against the 10 before them. */
  function DetectTrend(h: seq<PricePoint>): (t: Trend)
    ensures |h| <= 10 ==> t == Neutral
    ensures |h| > 10 && AveragePrice(SliceFromEnd(h, 20, 10)) > 0.0 ==>
      var recent, older := AveragePrice(LastN(h, 10)), AveragePrice(SliceFromEnd(h, 20, 10));
      (TrendRank(t) > 0 <==> recent > older * 1.005) && (TrendRank(t) < 0 <==> recent < older * 0.995)
  {
    if |h| < 3 then Neutral
    else
      var recent := LastN(h, 10);
      var older := SliceFromEnd(h, 20, 10);
      if |recent| == 0 || |older| == 0 then Neutral
      else
        var ra, oa := AveragePrice(recent), AveragePrice(older);
        var t := ClassifyTrend(Percent(Divide(ra - oa, oa)));
        if oa > 0.0 then
          DiffThresholds(ra, oa);
          t
        else t
  }

  /** Percent difference against a positive base, versus the thresholds. */
  lemma DiffThresholds(ra: real, oa: real)
    requires oa > 0.0
    ensures (ra - oa) / oa * 100.0 > 0.5 <==> ra > oa * 1.005
    ensures (ra - oa) / oa * 100.0 < -0.5 <==> ra < oa * 0.995
  {
    assert (ra - oa) / oa * oa == ra - oa;
  }

  // ---------------------------------------------------------------------------
  // Momentum, support and resistance, strength

  /** `calculateMomentum`: the last 5 points against the 5 before them, in
      percent; 0 below 10 points. `None` is a non-finite result. */
  function Momentum(h: seq<PricePoint>): (r: Option<real>)
    ensures |h| < 10 ==> r == Some(0.0)
    ensures |h| >= 10 ==>
      var recent, older := AveragePrice(h[|h| - 5..]), AveragePrice(h[|h| - 10..|h| - 5]);
      && (r.Some? <==> older != 0.0)
      && IsPercentOf(r, recent - older, older)
      && (older > 0.0 ==> (r.value > 0.0 <==> recent > older) && (r.value == 0.0 <==> recent == older))
  {
    if |h| < 10 then Some(0.0)
    else
      var recent := LastN(h, 5);
      var older := SliceFromEnd(h, 10, 5);
      assert recent == h[|h| - 5..] && older == h[|h| - 10..|h| - 5];
      var ra, oa := AveragePrice(recent), AveragePrice(older);
      var r := PercentOf(ra - oa, oa);
      if oa > 0.0 then
        SignOfPercent(ra - oa, oa);
        r
      else r
  }

  lemma SignOfPercent(a: real, b: real)
    requires b > 0.0
    ensures PercentOf(a, b).value > 0.0 <==> a > 0.0
    ensures PercentOf(a, b).value == 0.0 <==> a == 0.0
  {
    var r := PercentOf(a, b).value;
    if r > 0.0 { assert r * b > 0.0; }
    if r < 0.0 { assert r * b < 0.0; }
  }

  datatype Levels = Levels(support: real, resistance: real, distanceFromSupport: Option<real>, distanceFromResistance: Option<real>)

  /** A price `v` is at position `k` of the ascending order of `prices`: at
      most `k` prices are below it and more than `k` are not above it. */
  predicate RankedAt(prices: seq<real>, k: int, v: real)
  {
    Count(prices, Sorting.Below(v)) <= k < Count(prices, Sorting.AtMost(v))
  }

  /** The price at position `k` of the ascending sort of `prices`. */
  function Level(prices: seq<real>, k: nat): (v: real)
    requires k < |prices|
    ensures v in prices && RankedAt(prices, k, v)
  {
    var sorted := Sorting.SortAscending(prices);
    Sorting.OrderStatistic(prices, k);
    assert sorted[k] in multiset(sorted);
    sorted[k]
  }

  lemma {:induction false} LevelMonotone(prices: seq<real>, i: nat, j: nat)
    requires i <= j < |prices|
    ensures Level(prices, i) <= Level(prices, j)
  {
    Sorting.SortAscendingIsOrdered(prices);
  }

  /** The 10th and 90th percentile positions lie inside a list of `n`. */
  lemma PercentilePositions(n: nat)
    requires n > 0
    ensures 0 <= (n as real * 0.1).Floor <= (n as real * 0.9).Floor < n
  {
  }

  /** The levels of a history of at least 20 points: the prices at
      positions ⌊0.1 n⌋ and ⌊0.9 n⌋ of its ascending sort, and the distances
      to them in percent of the support and of the current price. */
  function PercentileLevels(h: seq<PricePoint>, currentPrice: real): (r: Levels)
    requires |h| >= 20
    ensures r.support in Prices(h) && r.resistance in Prices(h)
    ensures RankedAt(Prices(h), (|h| as real * 0.1).Floor, r.support)
    ensures RankedAt(Prices(h), (|h| as real * 0.9).Floor, r.resistance)
    ensures r.support <= r.resistance
    ensures IsPercentOf(r.distanceFromSupport, currentPrice - r.support, r.support)
    ensures IsPercentOf(r.distanceFromResistance, r.resistance - currentPrice, currentPrice)
  {
    var n := |h|;
    var lo, hi := (n as real * 0.1).Floor, (n as real * 0.9).Floor;
    PercentilePositions(n);
    var support, resistance := Level(Prices(h), lo), Level(Prices(h), hi);
    LevelMonotone(Prices(h), lo, hi);
    Levels(support, resistance,
      PercentOf(currentPrice - support, support),
      PercentOf(resistance - currentPrice, currentPrice))
  }

  /** `calculateSupportResistance`: below 20 points a 5 % band around the
      current price; otherwise the percentile levels. `None` is a non-finite
      distance. */
  function SupportResistance(h: seq<PricePoint>, currentPrice: real): (r: Levels)
    ensures |h| < 20 ==> r == Levels(currentPrice * 0.95, currentPrice * 1.05, Some(5.0), Some(5.0))
    ensures |h| >= 20 ==>
      && r.support in Prices(h) && r.resistance in Prices(h)
      && RankedAt(Prices(h), (|h| as real * 0.1).Floor, r.support)
      && RankedAt(Prices(h), (|h| as real * 0.9).Floor, r.resistance)
      && r.support <= r.resistance
      && IsPercentOf(r.distanceFromSupport, currentPrice - r.support, r.support)
      && IsPercentOf(r.distanceFromResistance, r.resistance - currentPrice, currentPrice)
  {
    if |h| < 20 then Levels(currentPrice * 0.95, currentPrice * 1.05, Some(5.0), Some(5.0))
    else PercentileLevels(h, currentPrice)
  }

  /** The levels depend on the prices seen, not on their order: two
      histories with the same prices in any order give the same levels. */
  lemma {:induction false} LevelsIgnoreOrder(h: seq<PricePoint>, g: seq<PricePoint>, currentPrice: real)
    requires multiset(Prices(h)) == multiset(Prices(g))
    ensures SupportResistance(h, currentPrice) == SupportResistance(g, currentPrice)
  {
    LevelsSameOrder(h, g, currentPrice);
    SameLevelsSameResult(h, g, currentPrice);
  }

  lemma SameLevelsSameResult(h: seq<PricePoint>, g: seq<PricePoint>, currentPrice: real)
    requires |h| == |g|
    requires SupportResistance(h, currentPrice).support == SupportResistance(g, currentPrice).support
    requires SupportResistance(h, currentPrice).resistance == SupportResistance(g, currentPrice).resistance
    ensures SupportResistance(h, currentPrice) == SupportResistance(g, currentPrice)
  {
    DistancesFromLevels(h, currentPrice);
    DistancesFromLevels(g, currentPrice);
  }

  /** With at least 20 points, the distances are read off the two levels. */
  lemma DistancesFromLevels(h: seq<PricePoint>, currentPrice: real)
    ensures var r := SupportResistance(h, currentPrice);
      |h| >= 20 ==> r == Levels(r.support, r.resistance,
        PercentOf(currentPrice - r.support, r.support), PercentOf(r.resistance - currentPrice, currentPrice))
  {
  }

  lemma {:induction false} LevelsSameOrder(h: seq<PricePoint>, g: seq<PricePoint>, currentPrice: real)
    requires multiset(Prices(h)) == multiset(Prices(g))
    ensures |h| == |g|
    ensures SupportResistance(h, currentPrice).support == SupportResistance(g, currentPrice).support
    ensures SupportResistance(h, currentPrice).resistance == SupportResistance(g, currentPrice).resistance
  {
    assert |h| == |Prices(h)| == |multiset(Prices(h))| == |multiset(Prices(g))| == |g|;
    if |h| >= 20 {
      var a, b := SupportResistance(h, currentPrice), SupportResistance(g, currentPrice);
      var lo, hi := (|h| as real * 0.1).Floor, (|h| as real * 0.9).Floor;
      Sorting.CountPermutation(Prices(h), Prices(g), Sorting.Below(a.support));
      Sorting.CountPermutation(Prices(h), Prices(g), Sorting.AtMost(a.support));
      Sorting.OrderStatisticUnique(Prices(g), lo, a.support, b.support);
      Sorting.CountPermutation(Prices(h), Prices(g), Sorting.Below(a.resistance));
      Sorting.CountPermutation(Prices(h), Prices(g), Sorting.AtMost(a.resistance));
      Sorting.OrderStatisticUnique(Prices(g), hi, a.resistance, b.resistance);
    }
  }

  datatype Strength = StrongBullish | Bullish | NeutralStrength | Bearish | StrongBearish

  /** The thresholds of `calculatePriceStrength` on the share of rises. */
  function ClassifyStrength(strength: real): Strength
  {
    if strength >= 0.75 then StrongBullish
    else if strength >= 0.6 then Bullish
    else if strength <= 0.25 then StrongBearish
    else if strength <= 0.4 then Bearish
    else NeutralStrength
  }

  /** Number of rises between consecutive points. */
  function Rises(h: seq<PricePoint>): (n: nat)
    ensures n <= if |h| == 0 then 0 else |h| - 1
  {
    if |h| < 2 then 0 else (if h[1].price > h[0].price then 1 else 0) + Rises(h[1..])
  }

  /** `calculatePriceStrength`: the share of rises among the last four
      moves. With four moves only quarters occur, so the mild classes are
      never reached. */
  function PriceStrength(h: seq<PricePoint>): (s: Strength)
    ensures |h| < 5 ==> s == NeutralStrength
    ensures s != Bullish && s != Bearish
    ensures |h| >= 5 ==>
      && (s == StrongBullish <==> Rises(h[|h| - 5..]) >= 3)
      && (s == StrongBearish <==> Rises(h[|h| - 5..]) <= 1)
      && (s == NeutralStrength <==> Rises(h[|h| - 5..]) == 2)
  {
    if |h| < 5 then NeutralStrength
    else
      var recent := LastN(h, 5);
      assert recent == h[|h| - 5..];
      ClassifyStrength(Rises(recent) as real / 4.0)
  }

  // ---------------------------------------------------------------------------
  // Moving averages

  /** The exponential smoothing loop of `calculateEMA` from index `i` on. */
  function Smooth(prices: seq<real>, i: nat, ema: real, multiplier: real): real
    requires i <= |prices|
    decreases |prices| - i
  {
    if i == |prices| then ema
    else Smooth(prices, i + 1, (prices[i] - ema) * multiplier + ema, multiplier)
  }

  /** `calculateEMA`: below `period` prices, the last price (0 for none);
      otherwise the mean of the first `period` prices, smoothed over the
      rest with multiplier `2 / (period + 1)`. */
  function EMA(prices: seq<real>, period: nat): (r: real)
    requires period > 0
    ensures |prices| == 0 ==> r == 0.0
    ensures 0 < |prices| < period ==> r == prices[|prices| - 1]
    ensures |prices| >= period ==> r == Smooth(prices, period, Mean(prices[..period]), 2.0 / (period as real + 1.0))
  {
    if |prices| < period then (if |prices| == 0 then 0.0 else prices[|prices| - 1])
    else Smooth(prices, period, Mean(prices[..period]), 2.0 / (period as real + 1.0))
  }

  /** One smoothing step stays between the old average and the new price. */
  lemma SmoothStepBounds(p: real, ema: real, m: real, lo: real, hi: real)
    requires 0.0 < m <= 1.0
    requires lo <= p <= hi && lo <= ema <= hi
    ensures lo <= (p - ema) * m + ema <= hi
  {
    assert (p - ema) * m + ema - lo == m * (p - lo) + (1.0 - m) * (ema - lo);
    assert hi - ((p - ema) * m + ema) == m * (hi - p) + (1.0 - m) * (hi - ema);
    MulNonNegative(m, p - lo);
    MulNonNegative(1.0 - m, ema - lo);
    MulNonNegative(m, hi - p);
    MulNonNegative(1.0 - m, hi - ema);
  }

  lemma {:induction false} SmoothBounds(prices: seq<real>, i: nat, ema: real, m: real, lo: real, hi: real)
    requires i <= |prices|
    requires 0.0 < m <= 1.0
    requires forall j :: 0 <= j < |prices| ==> lo <= prices[j] <= hi
    requires lo <= ema <= hi
    ensures lo <= Smooth(prices, i, ema, m) <= hi
    decreases |prices| - i
  {
    if i < |prices| {
      SmoothStepBounds(prices[i], ema, m, lo, hi);
      SmoothBounds(prices, i + 1, (prices[i] - ema) * m + ema, m, lo, hi);
    }
  }

  /** The average of prices in a range stays in that range. */
  lemma {:induction false} EmaBounds(prices: seq<real>, period: nat, lo: real, hi: real)
    requires period > 0 && |prices| > 0
    requires forall j :: 0 <= j < |prices| ==> lo <= prices[j] <= hi
    ensures lo <= EMA(prices, period) <= hi
  {
    if |prices| >= period {
      MeanBounds(prices[..period], lo, hi);
      var m := 2.0 / (period as real + 1.0);
      QuotientBounds(2.0, period as real + 1.0, 0.0, 1.0);
      SmoothBounds(prices, period, Mean(prices[..period]), m, lo, hi);
    }
  }

  /** Smoothing one more price is one more step of the loop. */
  lemma {:induction false} SmoothAppend(prices: seq<real>, x: real, i: nat, ema: real, multiplier: real)
    requires i <= |prices|
    ensures Smooth(prices + [x], i, ema, multiplier)
      == (x - Smooth(prices, i, ema, multiplier)) * multiplier + Smooth(prices, i, ema, multiplier)
    decreases |prices| - i
  {
    assert (prices + [x])[i] == (if i == |prices| then x else prices[i]);
    if i < |prices| {
      SmoothAppend(prices, x, i + 1, (prices[i] - ema) * multiplier + ema, multiplier);
    }
  }

  /** From `period` prices on, a new price updates the EMA incrementally:
      it moves by the multiplier times its distance from the old EMA. */
  lemma {:induction false} EmaAppend(prices: seq<real>, period: nat, x: real)
    requires period > 0 && |prices| >= period
    ensures EMA(prices + [x], period) == (x - EMA(prices, period)) * (2.0 / (period as real + 1.0)) + EMA(prices, period)
  {
    assert (prices + [x])[..period] == prices[..period];
    SmoothAppend(prices, x, period, Mean(prices[..period]), 2.0 / (period as real + 1.0));
  }

  /** The EMA of a constant list is that constant. */
  lemma {:induction false} EmaOfConstant(prices: seq<real>, period: nat, c: real)
    requires period > 0 && |prices| > 0
    requires forall j :: 0 <= j < |prices| ==> prices[j] == c
    ensures EMA(prices, period) == c
  {
    EmaBounds(prices, period, c, c);
  }

  datatype Macd = Macd(macd: real, signal: real, histogram: real)

  /** `calculateMACD`. Its signal line is the EMA of a one-element list,
      which is that element, so the signal equals the MACD and the
      histogram is always 0. */
  function MACD(h: seq<PricePoint>): (r: Macd)
    ensures |h| < 26 ==> r == Macd(0.0, 0.0, 0.0)
    ensures |h| >= 26 ==> r.macd == EMA(Prices(h), 12) - EMA(Prices(h), 26)
    ensures r.signal == r.macd && r.histogram == 0.0
  {
    if |h| < 26 then Macd(0.0, 0.0, 0.0)
    else
      var prices := Prices(h);
      var macd := EMA(prices, 12) - EMA(prices, 26);
      var signal := EMA([macd], 9);
      Macd(macd, signal, macd - signal)
  }

  /** Over prices in `[lo, hi]`, the MACD is at most the width of the range. */
  lemma {:induction false} MacdBounded(h: seq<PricePoint>, lo: real, hi: real)
    requires forall i :: 0 <= i < |h| ==> lo <= h[i].price <= hi
    requires lo <= hi
    ensures -(hi - lo) <= MACD(h).macd <= hi - lo
  {
    if |h| >= 26 {
      EmaBounds(Prices(h), 12, lo, hi);
      EmaBounds(Prices(h), 26, lo, hi);
    }
  }

  // ---------------------------------------------------------------------------
  // Bollinger bands

  function SquaredDeviations(values: seq<real>, avg: real): (r: seq<real>)
    ensures |r| == |values|
    ensures forall i :: 0 <= i < |r| ==> r[i] == (values[i] - avg) * (values[i] - avg)
  {
    if |values| == 0 then [] else [(values[0] - avg) * (values[0] - avg)] + SquaredDeviations(values[1..], avg)
  }

  /** The population variance that `calculateStdDev` takes the root of. */
  function Variance(values: seq<real>): (v: real)
    requires |values| > 0
    ensures v >= 0.0
  {
    var dev := SquaredDeviations(values, Mean(values));
    SumNonNegative(dev);
    Sum(dev) / |values| as real
  }

  datatype Bands = Bands(upper: real, middle: real, lower: real)

  /** `calculateBollingerBands`; `root` is the square root of the variance of
      the window (the source's `Math.sqrt`). Below `period` points the bands
      are 2 % around the last price, or all 0 with no price. */
  function BollingerBands(h: seq<PricePoint>, period: nat, multiplier: real, root: real): (b: Bands)
    requires period > 0
    requires |h| >= period ==> root >= 0.0 && root * root == Variance(Prices(LastN(h, period)))
    ensures |h| < period ==>
      var p := if |h| == 0 then 0.0 else h[|h| - 1].price;
      b == Bands(p * 1.02, p, p * 0.98)
    ensures |h| >= period ==> b.middle == Mean(Prices(h[|h| - period..]))
    ensures |h| >= period ==> b.upper == b.middle + root * multiplier && b.lower == b.middle - root * multiplier
    ensures |h| >= period ==> b.upper - b.middle == b.middle - b.lower
    ensures |h| >= period && multiplier >= 0.0 ==> b.lower <= b.middle <= b.upper
  {
    if |h| < period then
      var p := if |h| == 0 then 0.0 else h[|h| - 1].price;
      Bands(p * 1.02, p, p * 0.98)
    else
      var window := Prices(LastN(h, period));
      assert LastN(h, period) == h[|h| - period..];
      var sma := Sum(window) / period as real;
      Bands(sma + root * multiplier, sma, sma - root * multiplier)
  }

  /** The middle band lies within the prices of the window. */
  lemma {:induction false} BollingerMiddleInRange(h: seq<PricePoint>, period: nat, multiplier: real, root: real, lo: real, hi: real)
    requires period > 0 && |h| >= period
    requires root >= 0.0 && root * root == Variance(Prices(LastN(h, period)))
    requires forall i :: 0 <= i < |h| ==> lo <= h[i].price <= hi
    ensures lo <= BollingerBands(h, period, multiplier, root).middle <= hi
  {
    var window := Prices(LastN(h, period));
    MeanBounds(window, lo, hi);
  }
}
