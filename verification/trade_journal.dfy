/** The figures of the trade journal: the latest trades and the win/loss
    statistics over the whole log. */
module TradeJournal {
  import opened Util
  import opened Types

  const RecentLimit: nat := 50

  /** `recentTrades`: the newest 50 trades, newest first. */
  function RecentTrades(trades: seq<Trade>): (r: seq<Trade>)
    ensures |r| == IntMin(RecentLimit, |trades|)
    ensures forall i :: 0 <= i < |r| ==> r[i] == trades[|trades| - 1 - i]
  {
    Reverse(trades)[..IntMin(RecentLimit, |trades|)]
  }

  /** `t.pnl && t.pnl > 0`: a missing or zero P&L is neither a win nor a loss. */
  predicate Win(t: Trade)
  {
    t.pnl.Some? && t.pnl.value != 0.0 && t.pnl.value > 0.0
  }

  predicate Loss(t: Trade)
  {
    t.pnl.Some? && t.pnl.value != 0.0 && t.pnl.value < 0.0
  }

  datatype Stats = Stats(total: nat, profitable: nat, losses: nat, avgPnL: real, totalVolume: real)

  function PnLs(trades: seq<Trade>): (r: seq<real>)
    ensures |r| == |trades|
    ensures forall i :: 0 <= i < |trades| ==> r[i] == OrElse(trades[i].pnl, 0.0)
  {
    if |trades| == 0 then [] else [OrElse(trades[0].pnl, 0.0)] + PnLs(trades[1..])
  }

  function Totals(trades: seq<Trade>): (r: seq<real>)
    ensures |r| == |trades|
    ensures forall i :: 0 <= i < |trades| ==> r[i] == trades[i].total
  {
    if |trades| == 0 then [] else [trades[0].total] + Totals(trades[1..])
  }

  /** `stats`: counts of wins and losses, the mean P&L (missing P&L as 0;
      0 with no trades) and the traded volume. */
  function ComputeStats(trades: seq<Trade>): (s: Stats)
    ensures s.total == |trades|
    ensures s.profitable == Count(trades, Win) && s.losses == Count(trades, Loss)
    ensures s.profitable + s.losses <= s.total
    ensures s.profitable == 0 <==> forall i :: 0 <= i < |trades| ==> !Win(trades[i])
    ensures |trades| == 0 ==> s.avgPnL == 0.0
    ensures s.avgPnL * |trades| as real == Sum(PnLs(trades))
    ensures s.totalVolume == Sum(Totals(trades))
  {
    CountDisjoint(trades, Win, Loss);
    CountZero(trades, Win);
    Stats(|trades|, Count(trades, Win), Count(trades, Loss),
      if |trades| > 0 then Sum(PnLs(trades)) / |trades| as real else 0.0,
      Sum(Totals(trades)))
  }

  /** `winRate`: the share of winning trades in percent, 0 with no trades. */
  function WinRate(s: Stats): (r: real)
    requires s.profitable <= s.total
    ensures 0.0 <= r <= 100.0
    ensures s.total == 0 ==> r == 0.0
    ensures s.total > 0 ==> r * s.total as real == s.profitable as real * 100.0
    ensures r == 100.0 <==> s.total > 0 && s.profitable == s.total
  {
    if s.total > 0 then
      QuotientBounds(s.profitable as real, s.total as real, -1.0, 1.0);
      var q := s.profitable as real / s.total as real;
      assert q * s.total as real == s.profitable as real;
      q * 100.0
    else 0.0
  }

  /** Every trade a winner exactly when the win rate is 100 %. */
  lemma {:induction false} FullWinRateIffAllWin(trades: seq<Trade>)
    requires |trades| > 0
    ensures WinRate(ComputeStats(trades)) == 100.0 <==> forall i :: 0 <= i < |trades| ==> Win(trades[i])
  {
    CountAll(trades, Win);
  }

  lemma {:induction false} PnLsAppend(a: seq<Trade>, b: seq<Trade>)
    ensures PnLs(a + b) == PnLs(a) + PnLs(b) && Totals(a + b) == Totals(a) + Totals(b)
  {
    PnLsOfAppend(a, b);
    TotalsOfAppend(a, b);
  }

  lemma {:induction false} PnLsOfAppend(a: seq<Trade>, b: seq<Trade>)
    ensures PnLs(a + b) == PnLs(a) + PnLs(b)
  {
    forall i | 0 <= i < |a + b| ensures PnLs(a + b)[i] == (PnLs(a) + PnLs(b))[i] {
      if i >= |a| { assert (a + b)[i] == b[i - |a|]; }
    }
  }

  lemma {:induction false} TotalsOfAppend(a: seq<Trade>, b: seq<Trade>)
    ensures Totals(a + b) == Totals(a) + Totals(b)
  {
    forall i | 0 <= i < |a + b| ensures Totals(a + b)[i] == (Totals(a) + Totals(b))[i] {
      if i >= |a| { assert (a + b)[i] == b[i - |a|]; }
    }
  }

  lemma MeanTimesCount(trades: seq<Trade>, total: real)
    requires Sum(PnLs(trades)) == total
    ensures ComputeStats(trades).avgPnL * |trades| as real == total
  {
  }

  /** The mean P&L of two journals put together is their trade-weighted
      mean. */
  lemma {:induction false} MeanOfAppend(a: seq<Trade>, b: seq<Trade>)
    ensures ComputeStats(a + b).avgPnL * |a + b| as real
      == ComputeStats(a).avgPnL * |a| as real + ComputeStats(b).avgPnL * |b| as real
  {
    var sa, sb := Sum(PnLs(a)), Sum(PnLs(b));
    assert ComputeStats(a + b).avgPnL * |a + b| as real == sa + sb by {
      assert Sum(PnLs(a + b)) == sa + sb by {
        PnLsAppend(a, b);
        SumAppend(PnLs(a), PnLs(b));
      }
      MeanTimesCount(a + b, sa + sb);
    }
    MeanTimesCount(a, sa);
    MeanTimesCount(b, sb);
  }

  /** The statistics of two journals put together: wins, losses and volume
      add up. */
  lemma {:induction false} StatsOfAppend(a: seq<Trade>, b: seq<Trade>)
    ensures var s, sa, sb := ComputeStats(a + b), ComputeStats(a), ComputeStats(b);
      && s.total == sa.total + sb.total
      && s.profitable == sa.profitable + sb.profitable
      && s.losses == sa.losses + sb.losses
      && s.totalVolume == sa.totalVolume + sb.totalVolume
  {
    CountAppend(a, b, Win);
    CountAppend(a, b, Loss);
    PnLsAppend(a, b);
    SumAppend(Totals(a), Totals(b));
  }
}
