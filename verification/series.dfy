/** Helpers shared by the price-series code: JavaScript's negative `slice`
    bounds, IEEE division where a classifier looks at the result, and the
    percentage return of a history. */
module Series {
  import opened Util
  import opened Types

  /** `s.slice(-k)` for `k > 0`, the only case the code uses: the last `k`
      elements, or all of them. (JavaScript's `slice(-0)` would return the
      whole list, where this returns none.) */
  function LastN<T>(s: seq<T>, k: nat): (r: seq<T>)
    ensures |r| == IntMin(k, |s|)
    ensures forall i :: 0 <= i < |r| ==> r[i] == s[|s| - |r| + i]
  {
    s[IntMax(0, |s| - k)..]
  }

  /** `s.slice(-from, -to)` for `from >= to`: the elements from `from` back
      up to `to` back, clipped at the start. */
  function SliceFromEnd<T>(s: seq<T>, from: nat, to: nat): (r: seq<T>)
    requires to <= from
    ensures |r| == IntMax(0, |s| - to) - IntMax(0, |s| - from)
    ensures forall i :: 0 <= i < |r| ==> r[i] == s[IntMax(0, |s| - from) + i]
  {
    s[IntMax(0, |s| - from)..IntMax(0, |s| - to)]
  }

  /** A JavaScript number where infinities and NaN matter. */
  datatype Extended = Finite(v: real) | PosInf | NegInf | NaN

  /** IEEE `a / b`: a non-zero number over zero is an infinity of its sign,
      zero over zero is NaN. */
  function Divide(a: real, b: real): (r: Extended)
    ensures b != 0.0 ==> r == Finite(a / b)
    ensures b == 0.0 ==> (r == PosInf <==> a > 0.0) && (r == NegInf <==> a < 0.0) && (r == NaN <==> a == 0.0)
  {
    if b != 0.0 then Finite(a / b)
    else if a > 0.0 then PosInf
    else if a < 0.0 then NegInf
    else NaN
  }

  /** Multiplication by 100, which leaves infinities and NaN as they are. */
  function Percent(x: Extended): (r: Extended)
    ensures x.Finite? <==> r.Finite?
    ensures x.Finite? ==> r.v == x.v * 100.0
    ensures !x.Finite? ==> r == x
  {
    match x
    case Finite(v) => Finite(v * 100.0)
    case _ => x
  }

  /** `d` is `a` in percent of `b`, and non-finite exactly when `b` is 0. */
  predicate IsPercentOf(d: Option<real>, a: real, b: real)
  {
    (d.Some? <==> b != 0.0) && (d.Some? ==> d.value * b == a * 100.0)
  }

  /** `(a / b) * 100` where `None` stands for a non-finite result. */
  function PercentOf(a: real, b: real): (r: Option<real>)
    ensures r.Some? <==> b != 0.0
    ensures r.Some? ==> r.value * b == a * 100.0
    ensures IsPercentOf(r, a, b)
  {
    if b == 0.0 then None
    else
      assert a / b * b == a;
      Some(a / b * 100.0)
  }

  /** `calculateReturns`: the change from the first to the last price, in
      percent of the first; 0 with fewer than two points. */
  function Returns(h: seq<PricePoint>): (r: Option<real>)
    ensures |h| < 2 ==> r == Some(0.0)
    ensures |h| >= 2 ==> (r.Some? <==> h[0].price != 0.0)
  {
    if |h| < 2 then Some(0.0) else PercentOf(h[|h| - 1].price - h[0].price, h[0].price)
  }

  /** The return is the inverse of compounding: growing the first price by
      it gives back the last one, and its sign is the direction of travel
      from a positive first price. */
  lemma {:induction false} ReturnsRecoverLastPrice(h: seq<PricePoint>)
    requires |h| >= 2 && h[0].price != 0.0
    ensures var r := Returns(h).value;
      && h[0].price * (1.0 + r / 100.0) == h[|h| - 1].price
      && (h[0].price > 0.0 ==> (r > 0.0 <==> h[|h| - 1].price > h[0].price))
      && (h[0].price > 0.0 ==> (r == 0.0 <==> h[|h| - 1].price == h[0].price))
  {
    var first, last := h[0].price, h[|h| - 1].price;
    var r := Returns(h).value;
    assert r * first == (last - first) * 100.0;
    if first > 0.0 {
      if r > 0.0 { assert r * first > 0.0; }
      if r < 0.0 { assert r * first < 0.0; }
    }
  }
}
