/** The pure parts of the Coinbase price feed: folding a fetched price into
    an asset and the volatility estimate. The HTTP calls are not modelled. */
module CoinbaseApi {
  import opened Util
  import opened Types
  import opened Series
  import TechnicalIndicators

  const HistoryLimit: nat := 100

  /** `updatePriceWithRealData`: the new price becomes current and is
      appended to the history, of which the last 100 points are kept. */
  function UpdatePriceWithRealData(asset: Asset, newPrice: real, now: int): (r: Asset)
    ensures r == asset.(currentPrice := newPrice, priceHistory := r.priceHistory)
    ensures |r.priceHistory| == IntMin(|asset.priceHistory| + 1, HistoryLimit)
    ensures r.priceHistory[|r.priceHistory| - 1] == PricePoint(now, newPrice)
    ensures KeepsNewest(asset.priceHistory, r.priceHistory)
  {
    var kept := LastN(asset.priceHistory + [PricePoint(now, newPrice)], HistoryLimit);
    KeptFromHistory(asset.priceHistory, PricePoint(now, newPrice), HistoryLimit);
    asset.(currentPrice := newPrice, priceHistory := kept)
  }

  /** Every point of `kept` but its last is one of the newest points of `h`,
      in order. */
  ghost predicate KeepsNewest<T>(h: seq<T>, kept: seq<T>)
  {
    |kept| <= |h| + 1 &&
    forall i :: 0 <= i < |kept| - 1 ==> kept[i] == h[|h| + 1 - |kept| + i]
  }

  /** The window after appending `x` is the new point preceded by the
      newest retained points of `h`. */
  lemma {:induction false} KeptFromHistory<T>(h: seq<T>, x: T, k: nat)
    requires k > 0
    ensures var kept := LastN(h + [x], k);
      && kept[|kept| - 1] == x
      && KeepsNewest(h, kept)
  {
    var kept := LastN(h + [x], k);
    var start := |h| + 1 - |kept|;
    assert kept == (h + [x])[start..];
    forall i | 0 <= i < |kept| - 1
      ensures kept[i] == h[start + i]
    {
      assert kept[i] == (h + [x])[start + i];
    }
  }

  /** A short history is only extended; nothing is dropped. */
  lemma {:induction false} ShortHistoryIsExtended(asset: Asset, newPrice: real, now: int)
    requires |asset.priceHistory| < HistoryLimit
    ensures UpdatePriceWithRealData(asset, newPrice, now).priceHistory == asset.priceHistory + [PricePoint(now, newPrice)]
  {
  }

  /** The window keeps its bound under any sequence of updates. */
  lemma {:induction false} UpdatesStayBounded(asset: Asset, prices: seq<real>, now: int)
    requires |asset.priceHistory| <= HistoryLimit
    ensures |Replay(asset, prices, now).priceHistory| <= HistoryLimit
    ensures |prices| > 0 ==> Replay(asset, prices, now).currentPrice == prices[|prices| - 1]
    decreases |prices|
  {
    if |prices| > 0 {
      var next := UpdatePriceWithRealData(asset, prices[0], now);
      var later := prices[1..];
      assert |next.priceHistory| <= HistoryLimit;
      UpdatesStayBounded(next, later, now);
      assert Replay(asset, prices, now) == Replay(next, later, now);
      if |later| > 0 {
        assert later[|later| - 1] == prices[|prices| - 1];
      }
    }
  }

  /** Folds a list of fetched prices into an asset, one update each. */
  function Replay(asset: Asset, prices: seq<real>, now: int): Asset
    decreases |prices|
  {
    if |prices| == 0 then asset else Replay(UpdatePriceWithRealData(asset, prices[0], now), prices[1..], now)
  }

  /** The relative move from each point to the next. */
  function RelativeReturns(h: seq<PricePoint>): (r: seq<real>)
    requires forall i :: 0 <= i < |h| - 1 ==> h[i].price != 0.0
    ensures |r| == if |h| == 0 then 0 else |h| - 1
    ensures forall i :: 0 <= i < |r| ==> r[i] == (h[i + 1].price - h[i].price) / h[i].price
  {
    if |h| < 2 then [] else [(h[1].price - h[0].price) / h[0].price] + RelativeReturns(h[1..])
  }

  /** No price but the last is zero, so every return is finite. */
  predicate FiniteReturns(h: seq<PricePoint>)
  {
    forall i :: 0 <= i < |h| - 1 ==> h[i].price != 0.0
  }

  /** `calculateVolatility`: the standard deviation of the relative returns,
      clamped to [0.01, 0.05]; 0.02 below two points. `root` is the square
      root of the variance (the source's `Math.sqrt`). A zero price makes a
      return non-finite, and the source then returns NaN: `None` here. */
  function Volatility(h: seq<PricePoint>, root: real): (r: Option<real>)
    requires |h| >= 2 && FiniteReturns(h) ==>
      root >= 0.0 && root * root == TechnicalIndicators.Variance(RelativeReturns(h))
    ensures |h| < 2 ==> r == Some(0.02)
    ensures |h| >= 2 ==> (r.Some? <==> FiniteReturns(h))
    ensures r.Some? ==> 0.01 <= r.value <= 0.05
    ensures |h| >= 2 && r.Some? && 0.01 <= root <= 0.05 ==> r.value == root
    ensures |h| >= 2 && r.Some? && root > 0.05 ==> r.value == 0.05
    ensures |h| >= 2 && r.Some? && root < 0.01 ==> r.value == 0.01
  {
    if |h| < 2 then Some(0.02)
    else if !FiniteReturns(h) then None
    else Some(Max(0.01, Min(0.05, root)))
  }

  /** The history with every price multiplied by `k` (the same market quoted
      in another unit). */
  function Rescale(h: seq<PricePoint>, k: real): (r: seq<PricePoint>)
    ensures |r| == |h|
    ensures forall i :: 0 <= i < |h| ==> r[i] == PricePoint(h[i].timestamp, h[i].price * k)
  {
    if |h| == 0 then [] else [PricePoint(h[0].timestamp, h[0].price * k)] + Rescale(h[1..], k)
  }

  lemma RelativeMoveIsScaleFree(x: real, y: real, a: real, b: real, k: real)
    requires a != 0.0 && k != 0.0 && x == a * k && y == b * k
    ensures (y - x) / x == (b - a) / a
  {
    var q := (b - a) / a;
    assert q * a == b - a;
    assert q * x == y - x;
  }

  lemma FiniteReturnsScaleFree(h: seq<PricePoint>, k: real)
    requires k != 0.0
    ensures FiniteReturns(Rescale(h, k)) <==> FiniteReturns(h)
  {
    var g := Rescale(h, k);
    forall i | 0 <= i < |h| - 1 ensures g[i].price != 0.0 <==> h[i].price != 0.0 {
      assert g[i].price == h[i].price * k;
    }
  }

  lemma ReturnAt(h: seq<PricePoint>, i: nat)
    requires FiniteReturns(h) && i + 1 < |h|
    ensures RelativeReturns(h)[i] == (h[i + 1].price - h[i].price) / h[i].price
  {
  }

  lemma MoveAtScaleFree(h: seq<PricePoint>, k: real, i: nat)
    requires k != 0.0 && FiniteReturns(h) && i + 1 < |h|
    ensures Rescale(h, k)[i].price != 0.0
    ensures (Rescale(h, k)[i + 1].price - Rescale(h, k)[i].price) / Rescale(h, k)[i].price
      == (h[i + 1].price - h[i].price) / h[i].price
  {
    var g := Rescale(h, k);
    var x, y, a, b := g[i].price, g[i + 1].price, h[i].price, h[i + 1].price;
    assert x == a * k && y == b * k;
    RelativeMoveIsScaleFree(x, y, a, b, k);
  }

  lemma ReturnAtScaleFree(h: seq<PricePoint>, k: real, i: nat)
    requires k != 0.0 && FiniteReturns(h) && i + 1 < |h|
    ensures FiniteReturns(Rescale(h, k))
    ensures RelativeReturns(Rescale(h, k))[i] == RelativeReturns(h)[i]
  {
    FiniteReturnsScaleFree(h, k);
    MoveAtScaleFree(h, k, i);
    ReturnAt(Rescale(h, k), i);
    ReturnAt(h, i);
  }

  lemma {:induction false} ReturnsAreScaleFree(h: seq<PricePoint>, k: real)
    requires k != 0.0
    ensures FiniteReturns(Rescale(h, k)) <==> FiniteReturns(h)
    ensures FiniteReturns(h) ==> RelativeReturns(Rescale(h, k)) == RelativeReturns(h)
  {
    FiniteReturnsScaleFree(h, k);
    if FiniteReturns(h) {
      var rg, rh := RelativeReturns(Rescale(h, k)), RelativeReturns(h);
      forall i | 0 <= i < |rh| ensures rg[i] == rh[i] {
        ReturnAtScaleFree(h, k, i);
      }
      assert rg == rh;
    }
  }

  /** Returns are relative, so a change of unit leaves the volatility as it
      was. */
  lemma {:induction false} VolatilityIsScaleFree(h: seq<PricePoint>, k: real, root: real)
    requires k != 0.0
    requires |h| >= 2 && FiniteReturns(h) ==>
      root >= 0.0 && root * root == TechnicalIndicators.Variance(RelativeReturns(h))
    ensures |Rescale(h, k)| >= 2 && FiniteReturns(Rescale(h, k)) ==>
      root >= 0.0 && root * root == TechnicalIndicators.Variance(RelativeReturns(Rescale(h, k)))
    ensures Volatility(Rescale(h, k), root) == Volatility(h, root)
  {
    ReturnsAreScaleFree(h, k);
  }
}
