/** The simulated market: a generated start-up history and the random price
    tick. `Math.random()` enters as the `draw` values. */
module MarketSimulator {
  import opened Util
  import opened Types

  const PeriodMs: int := 5 * 60 * 1000

  /** The points of `initializePriceHistory` from loop step `j` on (the loop
      counts `i = periods - j` down to 0). Each step moves the running price
      by the noise but never below half of it. */
  function SimulateFrom(volatility: real, periods: nat, j: nat, price: real, now: int, draw: nat -> real): (r: seq<PricePoint>)
    requires j <= periods + 1
    ensures |r| == periods + 1 - j
    ensures forall k :: 0 <= k < |r| ==> r[k].timestamp == now - (periods - j - k) * PeriodMs
    ensures |r| > 0 ==> r[0].price >= price * 0.5
    ensures forall k :: 0 <= k < |r| - 1 ==> r[k + 1].price >= r[k].price * 0.5
    decreases periods + 1 - j
  {
    if j > periods then []
    else
      var change := (draw(j) - 0.5) * 2.0 * volatility * price;
      var next := Max(price + change, price * 0.5);
      var rest := SimulateFrom(volatility, periods, j + 1, next, now, draw);
      [PricePoint(now - (periods - j) * PeriodMs, next)] + rest
  }

  /** `initializePriceHistory`: `periods + 1` points five minutes apart
      ending at `now`, starting from 90 % of the current price. */
  function InitializePriceHistory(asset: Asset, periods: nat, now: int, draw: nat -> real): (h: seq<PricePoint>)
    ensures |h| == periods + 1
    ensures h[periods].timestamp == now
    ensures forall k :: 0 <= k < |h| ==> h[k].timestamp == now - (periods - k) * PeriodMs
    ensures h[0].price >= asset.currentPrice * 0.9 * 0.5
    ensures forall k :: 0 <= k < |h| - 1 ==> h[k + 1].price >= h[k].price * 0.5
  {
    SimulateFrom(asset.volatility, periods, 0, asset.currentPrice * 0.9, now, draw)
  }

  lemma {:induction false} HistoryTimesIncrease(asset: Asset, periods: nat, now: int, draw: nat -> real)
    ensures var h := InitializePriceHistory(asset, periods, now, draw);
      forall j, k :: 0 <= j < k < |h| ==> h[j].timestamp < h[k].timestamp
  {
    var h := InitializePriceHistory(asset, periods, now, draw);
    forall j, k | 0 <= j < k < |h| ensures h[j].timestamp < h[k].timestamp {
      assert (periods - k) * PeriodMs < (periods - j) * PeriodMs;
    }
  }

  /** A positive current price gives a positive history. */
  lemma {:induction false} HistoryStaysPositive(asset: Asset, periods: nat, now: int, draw: nat -> real)
    requires asset.currentPrice > 0.0
    ensures var h := InitializePriceHistory(asset, periods, now, draw);
      forall k :: 0 <= k < |h| ==> h[k].price > 0.0
  {
    var h := InitializePriceHistory(asset, periods, now, draw);
    var k := 0;
    while k < |h|
      invariant 0 <= k <= |h|
      invariant forall m :: 0 <= m < k ==> h[m].price > 0.0
    {
      if k > 0 {
        assert h[k].price >= h[k - 1].price * 0.5;
      }
      k := k + 1;
    }
  }

  /** `generatePriceUpdate`: the tick drifts slightly upwards (the draw is
      centred on 0.48) and never falls below 80 % of the current price. */
  function GeneratePriceUpdate(currentPrice: real, volatility: real, draw: real): (p: real)
    ensures p >= currentPrice * 0.8
    ensures p >= currentPrice + (draw - 0.48) * volatility * currentPrice
    ensures p == currentPrice + (draw - 0.48) * volatility * currentPrice || p == currentPrice * 0.8
  {
    var change := (draw - 0.48) * volatility * currentPrice;
    Max(currentPrice + change, currentPrice * 0.8)
  }

  /** For a draw in [0, 1), a non-negative volatility and price, the tick
      rises by at most 52 % of the volatility. */
  lemma {:induction false} PriceUpdateBounded(currentPrice: real, volatility: real, draw: real)
    requires 0.0 <= draw < 1.0 && volatility >= 0.0 && currentPrice >= 0.0
    ensures GeneratePriceUpdate(currentPrice, volatility, draw) <= currentPrice * (1.0 + 0.52 * volatility)
  {
    var vc := volatility * currentPrice;
    assert vc >= 0.0;
    assert (draw - 0.48) * vc <= 0.52 * vc;
    assert (draw - 0.48) * volatility * currentPrice == (draw - 0.48) * vc;
    assert currentPrice * 0.8 <= currentPrice * (1.0 + 0.52 * volatility);
  }
}
