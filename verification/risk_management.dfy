/** The figures of the risk dashboard. */
module RiskManagement {
  import opened Util
  import opened Types

  datatype RiskLevel = High | Medium | Low

  /** `riskLevel`, read off the current drawdown: above 15 % high, above
      10 % medium, otherwise low. */
  function RiskLevelOf(p: Portfolio): (r: RiskLevel)
    ensures r == High <==> p.currentDrawdown > 15.0
    ensures r == Medium <==> 10.0 < p.currentDrawdown <= 15.0
    ensures r == Low <==> p.currentDrawdown <= 10.0
  {
    var drawdown := p.currentDrawdown;
    if drawdown > 15.0 then High else if drawdown > 10.0 then Medium else Low
  }

  /** The risk level never falls as the drawdown deepens. */
  lemma {:induction false} RiskLevelMonotone(p: Portfolio, q: Portfolio)
    requires p.currentDrawdown <= q.currentDrawdown
    ensures RiskLevelOf(p) == High ==> RiskLevelOf(q) == High
    ensures RiskLevelOf(q) == Low ==> RiskLevelOf(p) == Low
  {
  }

  function LeverageOf(ps: seq<Position>): (r: seq<real>)
    ensures |r| == |ps|
    ensures forall i :: 0 <= i < |ps| ==> r[i] == ps[i].leverage
  {
    if |ps| == 0 then [] else [ps[0].leverage] + LeverageOf(ps[1..])
  }

  predicate Leveraged(p: Position)
  {
    p.leverage > 1.0
  }

  /** The average leverage of the leveraged positions; 1 when there are none. */
  function AverageLeverage(ps: seq<Position>): (r: real)
    ensures r >= 1.0
    ensures r > 1.0 <==> exists i :: 0 <= i < |ps| && Leveraged(ps[i])
    ensures var ls := LeverageOf(Filter(ps, Leveraged));
      && (|ls| == 0 ==> r == 1.0)
      && (|ls| > 0 ==> IsMeanOf(r, ls))
  {
    var leveraged := Filter(ps, Leveraged);
    FilterMembers(ps, Leveraged);
    if |leveraged| > 0 then
      assert leveraged[0] in leveraged;
      MeanOfLeverages(LeverageOf(leveraged))
    else
      assert forall i :: 0 <= i < |ps| ==> !Leveraged(ps[i]) by {
        forall i | 0 <= i < |ps| ensures !Leveraged(ps[i]) {
          assert ps[i] in ps;
        }
      }
      1.0
  }

  /** The mean of leverages that are all above 1 is above 1. */
  function MeanOfLeverages(ls: seq<real>): (m: real)
    requires |ls| > 0
    requires forall i :: 0 <= i < |ls| ==> ls[i] > 1.0
    ensures m > 1.0 && IsMeanOf(m, ls)
  {
    SumAboveOne(ls);
    MeanAboveOne(Sum(ls), |ls| as real);
    Sum(ls) / |ls| as real
  }

  /** A position at a leverage of 1 or less, added anywhere, leaves the
      average where it was. */
  lemma {:induction false} UnleveragedPositionIgnored(xs: seq<Position>, q: Position, ys: seq<Position>)
    requires !Leveraged(q)
    ensures AverageLeverage(xs + [q] + ys) == AverageLeverage(xs + ys)
  {
    FilterAppend(xs + [q], ys, Leveraged);
    FilterAppend(xs, [q], Leveraged);
    FilterAppend(xs, ys, Leveraged);
    assert Filter([q], Leveraged) == [];
    assert Filter(xs + [q] + ys, Leveraged) == Filter(xs + ys, Leveraged);
  }

  lemma MeanAboveOne(total: real, n: real)
    requires n > 0.0 && total > n
    ensures total / n > 1.0 && total / n * n == total
  {
    var q := total / n;
    assert q * n == total;
    assert (q - 1.0) * n == total - n;
  }

  lemma {:induction false} SumAboveOne(s: seq<real>)
    requires |s| > 0
    requires forall i :: 0 <= i < |s| ==> s[i] > 1.0
    ensures Sum(s) > |s| as real
  {
    if |s| > 1 {
      SumAboveOne(s[1..]);
    }
  }

  function Exposures(ps: seq<Position>): (r: seq<real>)
    ensures |r| == |ps|
    ensures forall i :: 0 <= i < |ps| ==> r[i] == ps[i].quantity * ps[i].currentPrice
  {
    if |ps| == 0 then [] else [ps[0].quantity * ps[0].currentPrice] + Exposures(ps[1..])
  }

  /** `exposurePercent`: the marked value of the positions, unleveraged, in
      percent of the total value; 0 unless the total value is positive. */
  function ExposurePercent(ps: seq<Position>, totalValue: real): (r: real)
    ensures totalValue <= 0.0 ==> r == 0.0
    ensures totalValue > 0.0 ==> r * totalValue == Sum(Exposures(ps)) * 100.0
  {
    if totalValue > 0.0 then
      var e := Sum(Exposures(ps));
      assert e / totalValue * totalValue == e;
      e / totalValue * 100.0
    else 0.0
  }

  /** Long exposure with non-negative quantities and prices is non-negative. */
  lemma {:induction false} ExposureNonNegative(ps: seq<Position>, totalValue: real)
    requires forall i :: 0 <= i < |ps| ==> ps[i].quantity >= 0.0 && ps[i].currentPrice >= 0.0
    ensures ExposurePercent(ps, totalValue) >= 0.0
  {
    var e := Exposures(ps);
    forall i | 0 <= i < |e| ensures e[i] >= 0.0 {
      assert e[i] == ps[i].quantity * ps[i].currentPrice;
    }
    SumNonNegative(e);
    if totalValue > 0.0 {
      var r := ExposurePercent(ps, totalValue);
      if r < 0.0 { assert r * totalValue < 0.0; }
    }
  }

  /** `pnlPercent`: the gain over the starting balance in percent; 0 unless
      the starting balance is positive. */
  function PnlPercent(p: Portfolio, totalValue: real): (r: real)
    ensures p.startingBalance <= 0.0 ==> r == 0.0
    ensures p.startingBalance > 0.0 ==> r * p.startingBalance == (totalValue - p.startingBalance) * 100.0
    ensures p.startingBalance > 0.0 ==> (r > 0.0 <==> totalValue > p.startingBalance)
  {
    if p.startingBalance > 0.0 then
      var d := totalValue - p.startingBalance;
      var r := d / p.startingBalance * 100.0;
      assert d / p.startingBalance * p.startingBalance == d;
      if r > 0.0 then
        assert r * p.startingBalance > 0.0;
        r
      else
        assert r * p.startingBalance <= 0.0;
        r
    else 0.0
  }
}
