/** The unified agent: every enabled agent votes, the votes are weighted by
    the agent's mode and the portfolio's state, and one signal with an
    execute / wait / skip recommendation comes out. The agents' signals come
    from `AiAgents.GenerateTradingSignal` on the reply each model gave. */
module UnifiedAgent {
  import opened Util
  import opened Types
  import AiAgents

  datatype Vote = Vote(agentId: string, agentName: string, vote: TradingSignal, weight: real)

  datatype Consensus = Consensus(
    totalAgents: nat,
    buyVotes: nat,
    sellVotes: nat,
    holdVotes: nat,
    averageConfidence: real,
    isUnanimous: bool,
    conflictingOpinions: bool)

  datatype Recommendation = Execute | Wait | Skip

  /** A unified decision; its free-text reasoning is not modelled. */
  datatype Decision = Decision(
    signal: TradingSignal,
    votes: seq<Vote>,
    consensus: Consensus,
    recommendation: Recommendation)

  // ---------------------------------------------------------------------------
  // Weights

  /** `calculateAgentWeight`: conservative agents count more in a drawdown,
      aggressive ones after a good run. */
  function AgentWeight(agent: AgentConfig, p: Portfolio): (w: real)
    ensures w == 1.5 <==> agent.mode == Conservative && p.currentDrawdown > 10.0
    ensures w == 1.2 <==> agent.mode == Aggressive && p.totalPnL > p.startingBalance * 0.1
    ensures w == 1.0 <==>
      !(agent.mode == Conservative && p.currentDrawdown > 10.0)
      && !(agent.mode == Aggressive && p.totalPnL > p.startingBalance * 0.1)
    ensures w >= 1.0
  {
    var w := 1.0;
    var w := if agent.mode == Conservative && p.currentDrawdown > 10.0 then w * 1.5 else w;
    if agent.mode == Aggressive && p.totalPnL > p.startingBalance * 0.1 then w * 1.2 else w
  }

  function TotalWeight(votes: seq<Vote>): real
  {
    if |votes| == 0 then 0.0 else votes[0].weight + TotalWeight(votes[1..])
  }

  /** The sum of `weight * confidence` over the votes for action `a`. */
  function WeightedScore(votes: seq<Vote>, a: Action): real
  {
    if |votes| == 0 then 0.0
    else
      var head := if votes[0].vote.action == a then votes[0].weight * votes[0].vote.confidence else 0.0;
      head + WeightedScore(votes[1..], a)
  }

  predicate WeightsAtLeastOne(votes: seq<Vote>)
  {
    forall i :: 0 <= i < |votes| ==> votes[i].weight >= 1.0
  }

  predicate ConfidencesInRange(votes: seq<Vote>)
  {
    forall i :: 0 <= i < |votes| ==> 0.0 <= votes[i].vote.confidence <= 100.0
  }

  /** With every weight at least 1 the total weight is at least the number of
      votes, so it is positive whenever somebody voted. */
  lemma {:induction false} TotalWeightAtLeastCount(votes: seq<Vote>)
    requires WeightsAtLeastOne(votes)
    ensures TotalWeight(votes) >= |votes| as real
  {
    if |votes| > 0 {
      TotalWeightAtLeastCount(votes[1..]);
    }
  }

  /** The buy and sell scores together are at most a full-confidence score. */
  lemma {:induction false} ScoresWithinTotal(votes: seq<Vote>)
    requires WeightsAtLeastOne(votes) && ConfidencesInRange(votes)
    ensures 0.0 <= WeightedScore(votes, Action.Buy)
    ensures 0.0 <= WeightedScore(votes, Action.Sell)
    ensures WeightedScore(votes, Action.Buy) + WeightedScore(votes, Action.Sell) <= 100.0 * TotalWeight(votes)
  {
    if |votes| > 0 {
      ScoresWithinTotal(votes[1..]);
      var w, c := votes[0].weight, votes[0].vote.confidence;
      assert 0.0 <= w * c <= 100.0 * w by {
        assert w * (100.0 - c) >= 0.0;
      }
      var hb := if votes[0].vote.action == Action.Buy then w * c else 0.0;
      var hs := if votes[0].vote.action == Action.Sell then w * c else 0.0;
      assert hb + hs <= 100.0 * w;
      assert WeightedScore(votes, Action.Buy) == hb + WeightedScore(votes[1..], Action.Buy);
      assert WeightedScore(votes, Action.Sell) == hs + WeightedScore(votes[1..], Action.Sell);
      assert TotalWeight(votes) == w + TotalWeight(votes[1..]);
    }
  }

  // ---------------------------------------------------------------------------
  // Counting votes

  function ActionIs(a: Action): Vote -> bool
  {
    (v: Vote) => v.vote.action == a
  }

  function VoteCount(votes: seq<Vote>, a: Action): nat
  {
    Count(votes, ActionIs(a))
  }

  /** Every vote is for exactly one of the four actions. */
  lemma {:induction false} VoteCountsAddUp(votes: seq<Vote>)
    ensures VoteCount(votes, Action.Buy) + VoteCount(votes, Action.Sell)
      + VoteCount(votes, Hold) + VoteCount(votes, Close) == |votes|
  {
    if |votes| > 0 {
      VoteCountsAddUp(votes[1..]);
    }
  }

  /** `votes.every(v => v.vote.action === votes[0].vote.action)`. */
  predicate AllSameAction(votes: seq<Vote>)
  {
    forall i :: 0 <= i < |votes| ==> votes[i].vote.action == votes[0].vote.action
  }

  /** A non-empty vote is unanimous exactly when one action got every vote. */
  lemma {:induction false} UnanimousIffOneActionTakesAll(votes: seq<Vote>)
    requires |votes| > 0
    ensures AllSameAction(votes) <==> exists a: Action :: VoteCount(votes, a) == |votes|
  {
    var first := votes[0].vote.action;
    CountAll(votes, ActionIs(first));
    if AllSameAction(votes) {
      assert VoteCount(votes, first) == |votes|;
    }
    if a: Action :| VoteCount(votes, a) == |votes| {
      CountAll(votes, ActionIs(a));
      assert votes[0].vote.action == a;
    }
  }

  /** Conflict: two of buy, sell and close are both present. */
  predicate HasConflict(buys: nat, sells: nat, closes: nat)
  {
    (buys > 0 && sells > 0) || (buys > 0 && closes > 0) || (sells > 0 && closes > 0)
  }

  /** There is no conflict exactly when all votes other than holds agree. */
  lemma {:induction false} NoConflictIffActiveVotesAgree(votes: seq<Vote>)
    ensures !HasConflict(VoteCount(votes, Action.Buy), VoteCount(votes, Action.Sell), VoteCount(votes, Close)) <==>
      forall i, j :: 0 <= i < |votes| && 0 <= j < |votes| && votes[i].vote.action != Hold && votes[j].vote.action != Hold ==>
        votes[i].vote.action == votes[j].vote.action
  {
    CountZero(votes, ActionIs(Action.Buy));
    CountZero(votes, ActionIs(Action.Sell));
    CountZero(votes, ActionIs(Close));
  }

  // ---------------------------------------------------------------------------
  // The final action

  function Signals(votes: seq<Vote>): (r: seq<TradingSignal>)
    ensures |r| == |votes|
    ensures forall i :: 0 <= i < |votes| ==> r[i] == votes[i].vote
  {
    if |votes| == 0 then [] else [votes[0].vote] + Signals(votes[1..])
  }

  function AverageConfidence(votes: seq<Vote>): real
    requires |votes| > 0
  {
    Mean(AiAgents.Confidences(Signals(votes)))
  }

  /** The action and confidence of the unified signal: a weighted buy or sell
      score above half of the full score wins (with its score per unit of
      weight as confidence); otherwise a strict majority of close votes
      closes; otherwise hold. Close and hold keep the average confidence. */
  function FinalAction(votes: seq<Vote>): (r: (Action, real))
    requires |votes| > 0
    requires TotalWeight(votes) > 0.0
    ensures var wb, ws, tw := WeightedScore(votes, Action.Buy), WeightedScore(votes, Action.Sell), TotalWeight(votes);
      && (r.0 == Action.Buy <==> wb > ws && wb > tw * 50.0)
      && (r.0 == Action.Sell <==> !(wb > ws && wb > tw * 50.0) && ws > wb && ws > tw * 50.0)
      && (r.0 == Close <==>
            (!(wb > ws && wb > tw * 50.0) && !(ws > wb && ws > tw * 50.0)
             && VoteCount(votes, Close) as real > |votes| as real / 2.0))
      && (r.0 == Action.Buy ==> r.1 == wb / tw)
      && (r.0 == Action.Sell ==> r.1 == ws / tw)
      && (r.0 == Hold || r.0 == Close ==> r.1 == AverageConfidence(votes))
  {
    var wb, ws, tw := WeightedScore(votes, Action.Buy), WeightedScore(votes, Action.Sell), TotalWeight(votes);
    if wb > ws && wb > tw * 50.0 then (Action.Buy, wb / tw)
    else if ws > wb && ws > tw * 50.0 then (Action.Sell, ws / tw)
    else if VoteCount(votes, Close) as real > |votes| as real / 2.0 then (Close, AverageConfidence(votes))
    else (Hold, AverageConfidence(votes))
  }

  /** With weights of at least 1 and confidences in [0, 100], the comparison
      of the two scores is redundant: buy wins exactly when its score passes
      half the full score (and likewise sell), a buy or sell is always more
      than 50 % confident, and every final confidence lies in [0, 100]. */
  lemma {:induction false} FinalActionByThreshold(votes: seq<Vote>)
    requires |votes| > 0
    requires WeightsAtLeastOne(votes) && ConfidencesInRange(votes)
    ensures TotalWeight(votes) > 0.0
    ensures var r := FinalAction(votes); var tw := TotalWeight(votes);
      && (r.0 == Action.Buy <==> WeightedScore(votes, Action.Buy) > tw * 50.0)
      && (r.0 == Action.Sell <==> WeightedScore(votes, Action.Sell) > tw * 50.0)
      && (r.0 == Action.Buy || r.0 == Action.Sell ==> 50.0 < r.1 <= 100.0)
      && 0.0 <= r.1 <= 100.0
  {
    TotalWeightAtLeastCount(votes);
    ScoresWithinTotal(votes);
    var wb, ws, tw := WeightedScore(votes, Action.Buy), WeightedScore(votes, Action.Sell), TotalWeight(votes);
    var r := FinalAction(votes);
    AiAgents.MultiModelConfidenceBounded(Signals(votes));
    MeanBounds(AiAgents.Confidences(Signals(votes)), 0.0, 100.0);
    if r.0 == Action.Buy {
      QuotientBounds(wb, tw, 50.0, 100.0);
    } else if r.0 == Action.Sell {
      QuotientBounds(ws, tw, 50.0, 100.0);
    }
  }

  // ---------------------------------------------------------------------------
  // Size, leverage, recommendation

  function SuggestedQuantities(votes: seq<Vote>): (r: seq<real>)
    ensures |r| == |votes|
    ensures forall i :: 0 <= i < |votes| ==> r[i] == votes[i].vote.suggestedQuantity
  {
    if |votes| == 0 then [] else [votes[0].vote.suggestedQuantity] + SuggestedQuantities(votes[1..])
  }

  /** The largest quantity the unified agent ever suggests: a tenth of the
      cash at a reference price of 50 000. */
  function MaxSafeQuantity(cash: real): real
  {
    cash * 0.1 / 50000.0
  }

  predicate IsPositive(x: real)
  {
    x > 0.0
  }

  /** The positive suggested quantities, in vote order. */
  function PositiveSuggestions(votes: seq<Vote>): (r: seq<real>)
    ensures forall x :: x in r <==> x in SuggestedQuantities(votes) && x > 0.0
    ensures forall i :: 0 <= i < |r| ==> r[i] > 0.0
  {
    FilterMembers(SuggestedQuantities(votes), IsPositive);
    Filter(SuggestedQuantities(votes), IsPositive)
  }

  /** `calculateUnifiedQuantity`: the mean of the positive suggestions, capped
      by `MaxSafeQuantity`; 0 when nobody suggests a positive quantity. The
      value is stated without division: `q` times the number of positive
      suggestions is at most their sum, with equality unless the cap binds. */
  function UnifiedQuantity(votes: seq<Vote>, cash: real): (q: real)
    ensures (forall i :: 0 <= i < |votes| ==> votes[i].vote.suggestedQuantity <= 0.0) ==> q == 0.0
    ensures (exists i :: 0 <= i < |votes| && votes[i].vote.suggestedQuantity > 0.0) ==>
      q <= MaxSafeQuantity(cash) && (cash > 0.0 ==> q > 0.0)
    ensures var pos := PositiveSuggestions(votes);
      && (|pos| == 0 ==> q == 0.0)
      && (|pos| > 0 ==> IsCappedMeanOf(q, pos, MaxSafeQuantity(cash)))
  {
    var positive := PositiveSuggestions(votes);
    if |positive| == 0 then
      assert forall i :: 0 <= i < |votes| ==> votes[i].vote.suggestedQuantity <= 0.0 by {
        forall i | 0 <= i < |votes| ensures votes[i].vote.suggestedQuantity <= 0.0 {
          assert SuggestedQuantities(votes)[i] in SuggestedQuantities(votes);
        }
      }
      0.0
    else
      assert positive[0] in positive;
      CappedPositiveMean(positive, MaxSafeQuantity(cash))
  }

  /** `q` is `min(mean(pos), cap)`, stated without division: `q` times the
      length of `pos` is at most the sum of `pos`, with equality unless `q`
      is the cap. */
  predicate IsCappedMeanOf(q: real, pos: seq<real>, cap: real)
  {
    && q * |pos| as real <= Sum(pos)
    && (q == cap || q * |pos| as real == Sum(pos))
  }

  /** The mean of some positive numbers, capped by `cap`. */
  function CappedPositiveMean(pos: seq<real>, cap: real): (q: real)
    requires |pos| > 0
    requires forall i :: 0 <= i < |pos| ==> pos[i] > 0.0
    ensures q <= cap && (cap > 0.0 ==> q > 0.0)
    ensures IsCappedMeanOf(q, pos, cap)
  {
    SumPositive(pos);
    CappedMean(Sum(pos), |pos| as real, cap);
    Min(Mean(pos), cap)
  }

  /** `min(total / n, cap)` times `n` is at most `total`, and equal to it
      unless the cap is taken. */
  lemma CappedMean(total: real, n: real, cap: real)
    requires n > 0.0
    ensures Min(total / n, cap) * n <= total
    ensures Min(total / n, cap) == cap || Min(total / n, cap) * n == total
  {
    var m := total / n;
    assert m * n == total;
    if cap < m {
      assert (m - cap) * n > 0.0;
    }
  }

  /** The unified quantity never exceeds the largest suggestion. */
  lemma {:induction false} UnifiedQuantityBelowLargest(votes: seq<Vote>, cash: real, hi: real)
    requires hi >= 0.0
    requires forall i :: 0 <= i < |votes| ==> votes[i].vote.suggestedQuantity <= hi
    ensures UnifiedQuantity(votes, cash) <= hi
  {
    var positive := PositiveSuggestions(votes);
    if |positive| > 0 {
      forall i | 0 <= i < |positive| ensures 0.0 <= positive[i] <= hi {
        assert positive[i] in positive;
      }
      MeanBounds(positive, 0.0, hi);
    }
  }

  function Leverages(votes: seq<Vote>): (r: seq<real>)
    ensures |r| == |votes|
    ensures forall i :: 0 <= i < |votes| ==> r[i] == votes[i].vote.leverage
  {
    if |votes| == 0 then [] else [votes[0].vote.leverage] + Leverages(votes[1..])
  }

  /** `calculateUnifiedLeverage`: the mean leverage, capped at 3 and rounded
      as `Math.round` does. */
  function UnifiedLeverage(votes: seq<Vote>): (l: int)
    requires |votes| > 0
    ensures l <= 3
  {
    Round(Min(Mean(Leverages(votes)), 3.0))
  }

  /** Agents that all ask for at least `lo` (and `lo` is between 1 and 3)
      get a unified leverage within half a unit of `lo` or above. */
  lemma {:induction false} UnifiedLeverageBounds(votes: seq<Vote>, lo: real, hi: real)
    requires |votes| > 0
    requires lo <= hi
    requires forall i :: 0 <= i < |votes| ==> lo <= votes[i].vote.leverage <= hi
    ensures Min(lo, 3.0) - 0.5 < UnifiedLeverage(votes) as real <= Min(hi, 3.0) + 0.5
  {
    MeanBounds(Leverages(votes), lo, hi);
  }

  /** `determineExecutionRecommendation`, read as a ladder: hold and a deep
      drawdown skip; a unanimous 80 or more executes; a conflict below 75
      waits; 70 or more executes; 60 or more waits; the rest is skipped. */
  function ExecutionRecommendation(signal: TradingSignal, hasConflict: bool, isUnanimous: bool, currentDrawdown: real): (r: Recommendation)
    ensures var c := signal.confidence;
      && (r == Execute <==>
            (signal.action != Hold && currentDrawdown <= 15.0
             && ((isUnanimous && c >= 80.0) || (!(hasConflict && c < 75.0) && c >= 70.0))))
      && (r == Wait <==>
            (signal.action != Hold && currentDrawdown <= 15.0 && !(isUnanimous && c >= 80.0)
             && ((hasConflict && c < 75.0) || 60.0 <= c < 70.0)))
  {
    var c := signal.confidence;
    if signal.action == Hold then Skip
    else if currentDrawdown > 15.0 then Skip
    else if isUnanimous && c >= 80.0 then Execute
    else if hasConflict && c < 75.0 then Wait
    else if c >= 70.0 then Execute
    else if c >= 60.0 then Wait
    else Skip
  }

  function Rank(r: Recommendation): nat
  {
    match r
    case Skip => 0
    case Wait => 1
    case Execute => 2
  }

  /** More confidence never weakens the recommendation. */
  lemma {:induction false} RecommendationMonotone(signal: TradingSignal, confidence: real, hasConflict: bool, isUnanimous: bool, currentDrawdown: real)
    requires confidence >= signal.confidence
    ensures Rank(ExecutionRecommendation(signal, hasConflict, isUnanimous, currentDrawdown))
      <= Rank(ExecutionRecommendation(signal.(confidence := confidence), hasConflict, isUnanimous, currentDrawdown))
  {
  }

  /** `createDefaultSignal`: the same hold signal a single agent falls back
      to when its model fails. */
  function DefaultSignal(asset: Asset, now: int): (s: TradingSignal)
    ensures s.action == Hold && s.assetId == asset.id && s.confidence == 0.0
    ensures s.positionType == Long && s.suggestedQuantity == 0.0 && s.leverage == 1.0
    ensures s.takeProfit.None? && s.stopLoss.None? && s.timestamp == now
  {
    AiAgents.ErrorSignal(asset, now)
  }

  // ---------------------------------------------------------------------------
  // The decision

  /** The votes of the enabled agents, in their order, each on the reply
      its model gave (`ask`). */
  function CastVotes(asset: Asset, agents: seq<AgentConfig>, p: Portfolio, ask: AgentConfig -> AiAgents.Reply, now: int): (votes: seq<Vote>)
    ensures |votes| == |agents|
    ensures forall i :: 0 <= i < |agents| ==>
      && votes[i].agentId == agents[i].id && votes[i].agentName == agents[i].name
      && votes[i].vote == AiAgents.GenerateTradingSignal(asset, agents[i], ask(agents[i]), now)
      && votes[i].weight == AgentWeight(agents[i], p)
    ensures WeightsAtLeastOne(votes) && ConfidencesInRange(votes)
  {
    seq(|agents|, i requires 0 <= i < |agents| =>
      Vote(agents[i].id, agents[i].name, AiAgents.GenerateTradingSignal(asset, agents[i], ask(agents[i]), now), AgentWeight(agents[i], p)))
  }

  /** The consensus record of a non-empty list of votes. */
  function Tally(votes: seq<Vote>): (c: Consensus)
    requires |votes| > 0
    requires ConfidencesInRange(votes)
    ensures c.totalAgents == |votes|
    ensures c.buyVotes == VoteCount(votes, Action.Buy)
    ensures c.sellVotes == VoteCount(votes, Action.Sell)
    ensures c.holdVotes == VoteCount(votes, Hold)
    ensures c.buyVotes + c.sellVotes + c.holdVotes <= |votes|
    ensures c.averageConfidence == AverageConfidence(votes)
    ensures 0.0 <= c.averageConfidence <= 100.0
    ensures c.isUnanimous <==> exists a: Action :: VoteCount(votes, a) == |votes|
    ensures c.conflictingOpinions ==
      HasConflict(VoteCount(votes, Action.Buy), VoteCount(votes, Action.Sell), VoteCount(votes, Close))
  {
    VoteCountsAddUp(votes);
    UnanimousIffOneActionTakesAll(votes);
    MeanBounds(AiAgents.Confidences(Signals(votes)), 0.0, 100.0);
    var buys, sells, closes := VoteCount(votes, Action.Buy), VoteCount(votes, Action.Sell), VoteCount(votes, Close);
    Consensus(|votes|, buys, sells, VoteCount(votes, Hold), AverageConfidence(votes), AllSameAction(votes),
      HasConflict(buys, sells, closes))
  }

  /** The index of the vote whose levels the unified signal takes: the first
      of the most confident. */
  function BestVote(votes: seq<Vote>): (i: nat)
    requires |votes| > 0
    ensures i < |votes|
    ensures forall j :: 0 <= j < |votes| ==> votes[j].vote.confidence <= votes[i].vote.confidence
    ensures forall j :: 0 <= j < i ==> votes[j].vote.confidence < votes[i].vote.confidence
  {
    FirstMax(AiAgents.Confidences(Signals(votes)))
  }

  /** The unified signal: the final action and confidence, the best vote's
      direction and levels, the unified size and leverage. */
  function UnifiedSignal(asset: Asset, votes: seq<Vote>, cash: real, now: int): (s: TradingSignal)
    requires |votes| > 0
    requires WeightsAtLeastOne(votes) && ConfidencesInRange(votes)
    ensures TotalWeight(votes) > 0.0 && (s.action, s.confidence) == FinalAction(votes)
    ensures s.action == Action.Buy <==> WeightedScore(votes, Action.Buy) > TotalWeight(votes) * 50.0
    ensures s.action == Action.Sell <==> WeightedScore(votes, Action.Sell) > TotalWeight(votes) * 50.0
    ensures 0.0 <= s.confidence <= 100.0
    ensures s.suggestedQuantity == UnifiedQuantity(votes, cash)
    ensures s.leverage == UnifiedLeverage(votes) as real && s.leverage <= 3.0
    ensures var best := votes[BestVote(votes)].vote;
      && s.positionType == best.positionType
      && s.takeProfit == best.takeProfit && s.stopLoss == best.stopLoss
    ensures s.assetId == asset.id && s.timestamp == now
  {
    FinalActionByThreshold(votes);
    var final := FinalAction(votes);
    var best := votes[BestVote(votes)].vote;
    TradingSignal(
      final.0, asset.id, final.1, best.positionType, UnifiedQuantity(votes, cash),
      best.takeProfit, best.stopLoss, UnifiedLeverage(votes) as real, now)
  }

  /** The decision on a non-empty list of votes: the consensus counts the
      votes, the signal carries the final action and the best vote's levels,
      and the recommendation is read off the signal and the consensus; an
      execute needs an active, confident signal in a shallow drawdown. */
  function Decide(asset: Asset, votes: seq<Vote>, p: Portfolio, now: int): (d: Decision)
    requires |votes| > 0
    requires WeightsAtLeastOne(votes) && ConfidencesInRange(votes)
    ensures d.votes == votes
    ensures d.consensus == Tally(votes)
    ensures d.signal == UnifiedSignal(asset, votes, p.cash, now)
    ensures d.recommendation ==
      ExecutionRecommendation(d.signal, d.consensus.conflictingOpinions, d.consensus.isUnanimous, p.currentDrawdown)
    ensures 0.0 <= d.signal.confidence <= 100.0
    ensures d.signal.suggestedQuantity == 0.0 || d.signal.suggestedQuantity <= MaxSafeQuantity(p.cash)
    ensures d.recommendation == Execute ==>
      d.signal.action != Hold && p.currentDrawdown <= 15.0 && d.signal.confidence >= 70.0
  {
    var signal := UnifiedSignal(asset, votes, p.cash, now);
    var consensus := Tally(votes);
    Decision(signal, votes, consensus,
      ExecutionRecommendation(signal, consensus.conflictingOpinions, consensus.isUnanimous, p.currentDrawdown))
  }

  predicate IsEnabled(agent: AgentConfig)
  {
    agent.enabled
  }

  /** `getUnifiedAgentDecision`, with each model's reply given by `ask`. */
  function GetUnifiedDecision(asset: Asset, agents: seq<AgentConfig>, p: Portfolio, ask: AgentConfig -> AiAgents.Reply, now: int): (d: Decision)
    ensures (forall i :: 0 <= i < |agents| ==> !agents[i].enabled) ==>
      && d.recommendation == Skip && d.votes == [] && d.signal == DefaultSignal(asset, now)
      && d.consensus == Consensus(0, 0, 0, 0, 0.0, false, false)
    ensures d.signal.assetId == asset.id && d.signal.timestamp == now
    ensures 0.0 <= d.signal.confidence <= 100.0 && d.signal.leverage <= 3.0
    ensures |d.votes| == Count(agents, IsEnabled)
    ensures d.votes == CastVotes(asset, Filter(agents, IsEnabled), p, ask, now)
    ensures |d.votes| > 0 ==> d == Decide(asset, d.votes, p, now)
    ensures forall i :: 0 <= i < |d.votes| ==> d.votes[i].weight >= 1.0
    ensures d.recommendation == Execute ==>
      d.signal.action != Hold && p.currentDrawdown <= 15.0 && d.signal.confidence >= 70.0
  {
    CountIsFilterLength(agents, IsEnabled);
    FilterMembers(agents, IsEnabled);
    var enabled := Filter(agents, IsEnabled);
    assert |enabled| > 0 ==> enabled[0] in enabled;
    if |enabled| == 0 then
      Decision(DefaultSignal(asset, now), [], Consensus(0, 0, 0, 0, 0.0, false, false), Skip)
    else
      Decide(asset, CastVotes(asset, enabled, p, ask, now), p, now)
  }

  // ---------------------------------------------------------------------------
  // Laws of the decision

  /** A disabled agent has no say: removing it anywhere in the list leaves
      the decision as it was. */
  lemma {:induction false} DisabledAgentIgnored(asset: Asset, xs: seq<AgentConfig>, a: AgentConfig, ys: seq<AgentConfig>,
                                                p: Portfolio, ask: AgentConfig -> AiAgents.Reply, now: int)
    requires !a.enabled
    ensures GetUnifiedDecision(asset, xs + [a] + ys, p, ask, now) == GetUnifiedDecision(asset, xs + ys, p, ask, now)
  {
    FilterAppend(xs + [a], ys, IsEnabled);
    FilterAppend(xs, [a], IsEnabled);
    FilterAppend(xs, ys, IsEnabled);
    assert Filter([a], IsEnabled) == [];
    assert Filter(xs + [a] + ys, IsEnabled) == Filter(xs + ys, IsEnabled);
  }

  predicate AllConfidentBuys(votes: seq<Vote>)
  {
    forall i :: 0 <= i < |votes| ==> votes[i].vote.action == Action.Buy && votes[i].vote.confidence > 50.0
  }

  lemma {:induction false} ConfidentBuysScore(votes: seq<Vote>)
    requires |votes| > 0 && WeightsAtLeastOne(votes) && AllConfidentBuys(votes)
    ensures WeightedScore(votes, Action.Buy) > TotalWeight(votes) * 50.0
  {
    var w, c := votes[0].weight, votes[0].vote.confidence;
    assert w * (c - 50.0) > 0.0;
    if |votes| > 1 {
      ConfidentBuysScore(votes[1..]);
    }
  }

  /** When every vote is a buy above 50 % confidence, the decision is a
      unanimous buy. */
  lemma {:induction false} ConfidentBuysDecideBuy(asset: Asset, votes: seq<Vote>, p: Portfolio, now: int)
    requires |votes| > 0
    requires WeightsAtLeastOne(votes) && ConfidencesInRange(votes) && AllConfidentBuys(votes)
    ensures var d := Decide(asset, votes, p, now);
      && d.signal.action == Action.Buy && d.consensus.isUnanimous && d.consensus.buyVotes == |votes|
      && !d.consensus.conflictingOpinions
  {
    ConfidentBuysScore(votes);
    CountAll(votes, ActionIs(Action.Buy));
    CountZero(votes, ActionIs(Action.Sell));
    CountZero(votes, ActionIs(Close));
  }
}
