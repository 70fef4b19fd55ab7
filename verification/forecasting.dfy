/** The pure parts of the price forecast: the figures shown to the model,
    the predicted path, and the forecast record built from the model's
    reply. */
module Forecasting {
  import opened Util
  import opened Types
  import opened Series
  import TechnicalIndicators

  /** `detectTrend` of the forecaster, as written: it has no guard for an
      empty older slice, whose average is then 0 / 0 = NaN, and NaN fails
      every comparison. */
  function ForecastTrend(h: seq<PricePoint>): (t: TechnicalIndicators.Trend)
    // from 3 to 10 points the older slice is empty and the NaN falls to neutral
    ensures |h| <= 10 ==> t == TechnicalIndicators.Neutral
  {
    assert |h| <= 10 ==> Prices(SliceFromEnd(h, 20, 10)) == [];
    if |h| < 3 then TechnicalIndicators.Neutral
    else
      var recent := LastN(h, 10);
      var older := SliceFromEnd(h, 20, 10);
      var ra := TechnicalIndicators.AveragePrice(recent);
      var oa := Divide(Sum(Prices(older)), |older| as real);
      var diff := match oa
        case Finite(o) => Percent(Divide(ra - o, o))
        case _ => NaN;
      TechnicalIndicators.ClassifyTrend(diff)
  }

  /** The missing guard changes nothing: the forecaster's trend is the
      indicator's trend on every history. */
  lemma {:induction false} ForecastTrendIsIndicatorTrend(h: seq<PricePoint>)
    ensures ForecastTrend(h) == TechnicalIndicators.DetectTrend(h)
  {
    if |h| >= 3 {
      var older := SliceFromEnd(h, 20, 10);
      if |older| == 0 {
        assert Prices(older) == [];
      }
    }
  }

  const PeriodMs: int := 5 * 60 * 1000

  /** The predicted points from step `i` on, the running price being `price`
      before the step. `draw(i)` is the `Math.random()` of step `i`. The
      running price takes the noise unfloored; only the emitted price is
      floored at 70 % of the start price. */
  function PredictFrom(startPrice: real, change: real, volatility: real, periods: nat, i: nat, price: real,
                       now: int, draw: nat -> real): (r: seq<PricePoint>)
    requires 1 <= i <= periods + 1
    ensures |r| == periods + 1 - i
    ensures forall k :: 0 <= k < |r| ==> r[k].timestamp == now + (i + k) * PeriodMs
    ensures forall k :: 0 <= k < |r| ==> r[k].price >= startPrice * 0.7
    decreases periods + 1 - i
  {
    if i > periods then []
    else
      var next := price + change + (draw(i) - 0.5) * volatility * price * 0.5;
      [PricePoint(now + i * PeriodMs, Max(next, startPrice * 0.7))]
        + PredictFrom(startPrice, change, volatility, periods, i + 1, next, now, draw)
  }

  /** The price `generatePredictionPoints` aims at. */
  function Target(startPrice: real, expectedChangePercent: real): real
  {
    startPrice * (1.0 + expectedChangePercent / 100.0)
  }

  /** `generatePredictionPoints`: `periods` points five minutes apart after
      `now`, drifting linearly towards the target. With no periods the loop
      never runs and the (then non-finite) step size is not used. */
  function PredictionPoints(startPrice: real, expectedChangePercent: real, volatility: real, periods: nat,
                            now: int, draw: nat -> real): (r: seq<PricePoint>)
    ensures |r| == periods
    ensures forall k :: 0 <= k < periods ==> r[k].timestamp == now + (k + 1) * PeriodMs
    ensures forall k :: 0 <= k < periods ==> r[k].price >= startPrice * 0.7
  {
    var change := if periods == 0 then 0.0 else (Target(startPrice, expectedChangePercent) - startPrice) / periods as real;
    PredictFrom(startPrice, change, volatility, periods, 1, startPrice, now, draw)
  }

  lemma {:induction false} PredictionTimesIncrease(startPrice: real, expectedChangePercent: real, volatility: real,
                                                   periods: nat, now: int, draw: nat -> real)
    ensures var r := PredictionPoints(startPrice, expectedChangePercent, volatility, periods, now, draw);
      forall j, k :: 0 <= j < k < |r| ==> r[j].timestamp < r[k].timestamp
  {
    var r := PredictionPoints(startPrice, expectedChangePercent, volatility, periods, now, draw);
    forall j, k | 0 <= j < k < |r| ensures r[j].timestamp < r[k].timestamp {
      assert (j + 1) * PeriodMs < (k + 1) * PeriodMs;
    }
  }

  function LastPrice(r: seq<PricePoint>): real
    requires |r| > 0
  {
    r[|r| - 1].price
  }

  /** `n` equal steps of size `c`. */
  function Steps(n: nat, c: real): real
  {
    if n == 0 then 0.0 else c + Steps(n - 1, c)
  }

  lemma {:induction false} StepsAreProduct(n: nat, c: real)
    ensures Steps(n, c) == n as real * c
  {
    if n > 0 {
      StepsAreProduct(n - 1, c);
    }
  }

  /** Without noise the running price walks in equal steps, so the last
      point is the floored price after all remaining steps. */
  lemma {:induction false} NoNoiseFrom(startPrice: real, change: real, periods: nat, i: nat, price: real, now: int, draw: nat -> real)
    requires 1 <= i <= periods
    ensures LastPrice(PredictFrom(startPrice, change, 0.0, periods, i, price, now, draw))
      == Max(price + Steps(periods + 1 - i, change), startPrice * 0.7)
    decreases periods - i
  {
    var noise := (draw(i) - 0.5) * 0.0;
    assert noise == 0.0;
    assert noise * price * 0.5 == 0.0;
    var next := price + change + noise * price * 0.5;
    var r := PredictFrom(startPrice, change, 0.0, periods, i, price, now, draw);
    var rest := PredictFrom(startPrice, change, 0.0, periods, i + 1, next, now, draw);
    assert r == [PricePoint(now + i * PeriodMs, Max(next, startPrice * 0.7))] + rest;
    if i < periods {
      NoNoiseFrom(startPrice, change, periods, i + 1, next, now, draw);
      assert LastPrice(r) == LastPrice(rest);
    }
  }

  lemma {:induction false} NoNoiseReachesTarget(startPrice: real, expectedChangePercent: real, periods: nat,
                                                now: int, draw: nat -> real)
    requires periods > 0
    ensures var r := PredictionPoints(startPrice, expectedChangePercent, 0.0, periods, now, draw);
      r[periods - 1].price == Max(Target(startPrice, expectedChangePercent), startPrice * 0.7)
  {
    var target := Target(startPrice, expectedChangePercent);
    var change := (target - startPrice) / periods as real;
    assert periods as real * change == target - startPrice;
    StepsAreProduct(periods, change);
    NoNoiseFrom(startPrice, change, periods, 1, startPrice, now, draw);
  }

  /** The fields of the model's JSON reply that the forecast reads; `None`
      is a missing field. A present zero is kept here and read as falsy
      where the code defaults it (a zero confidence becomes 50). */
  datatype ForecastReply = ForecastParsed(confidence: Option<real>, expectedChange: Option<real>) | ForecastFailed

  /** `generateForecast` once the model has answered: ten predicted points
      and a confidence clamped to [0, 100] (50 when missing); a failed call
      forecasts no change with confidence 50. */
  function GenerateForecast(asset: Asset, reply: ForecastReply, now: int, draw: nat -> real): (f: Forecast)
    ensures f.assetId == asset.id && f.currentPrice == asset.currentPrice && f.timestamp == now
    ensures |f.predictions| == 10 && 0.0 <= f.confidence <= 100.0
    ensures forall k :: 0 <= k < 10 ==> f.predictions[k].price >= asset.currentPrice * 0.7
    ensures reply.ForecastFailed? ==>
      f.confidence == 50.0 && f.predictions == PredictionPoints(asset.currentPrice, 0.0, asset.volatility, 10, now, draw)
    ensures reply.ForecastParsed? ==>
      && f.predictions == PredictionPoints(asset.currentPrice, OrElse(reply.expectedChange, 0.0), asset.volatility, 10, now, draw)
      && (reply.confidence.None? || reply.confidence.value == 0.0 ==> f.confidence == 50.0)
      && (reply.confidence.Some? && 0.0 < reply.confidence.value <= 100.0 ==> f.confidence == reply.confidence.value)
      && (reply.confidence.Some? && reply.confidence.value < 0.0 ==> f.confidence == 0.0)
      && (reply.confidence.Some? && reply.confidence.value > 100.0 ==> f.confidence == 100.0)
  {
    match reply
    case ForecastFailed =>
      Forecast(asset.id, asset.currentPrice, PredictionPoints(asset.currentPrice, 0.0, asset.volatility, 10, now, draw), 50.0, now)
    case ForecastParsed(confidence, expectedChange) =>
      Forecast(asset.id, asset.currentPrice,
        PredictionPoints(asset.currentPrice, OrElse(expectedChange, 0.0), asset.volatility, 10, now, draw),
        Min(Max(OrElse(confidence, 50.0), 0.0), 100.0), now)
  }

  /** A failed model call forecasts exactly what an empty reply does. */
  lemma {:induction false} FailureIsEmptyReply(asset: Asset, now: int, draw: nat -> real)
    ensures GenerateForecast(asset, ForecastFailed, now, draw) == GenerateForecast(asset, ForecastParsed(None, None), now, draw)
  {
  }

  /** For an asset with no volatility the forecast's last point is the
      model's target, floored at 70 % of the current price. */
  lemma {:induction false} CalmForecastReachesTarget(asset: Asset, reply: ForecastReply, now: int, draw: nat -> real)
    requires asset.volatility == 0.0
    ensures var change := if reply.ForecastParsed? then OrElse(reply.expectedChange, 0.0) else 0.0;
      GenerateForecast(asset, reply, now, draw).predictions[9].price
        == Max(Target(asset.currentPrice, change), asset.currentPrice * 0.7)
  {
    var change := if reply.ForecastParsed? then OrElse(reply.expectedChange, 0.0) else 0.0;
    NoNoiseReachesTarget(asset.currentPrice, change, 10, now, draw);
  }

  /** The figures the forecast prompt shows: the return and the trend of the
      last 20 points. The prompt text itself is not modelled. */
  function PromptFigures(asset: Asset): (r: (Option<real>, TechnicalIndicators.Trend))
    ensures var h, n := asset.priceHistory, IntMin(20, |asset.priceHistory|);
      && (n < 2 ==> r.0 == Some(0.0))
      && (n >= 2 ==> IsPercentOf(r.0, h[|h| - 1].price - h[|h| - n].price, h[|h| - n].price))
    ensures r.1 == TechnicalIndicators.DetectTrend(LastN(asset.priceHistory, 20))
  {
    var recent := LastN(asset.priceHistory, 20);
    ForecastTrendIsIndicatorTrend(recent);
    (Returns(recent), ForecastTrend(recent))
  }
}
