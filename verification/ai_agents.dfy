/** The pure parts of the AI agents: turning a parsed model reply into a
    trading signal, the multi-model consensus, the model-name mapping, the
    stop-loss / take-profit scan and the performance-based strategy update.
    The model call itself is an input: a `Reply`. */
module AiAgents {
  import opened Util
  import opened Types
  import Trading

  /** The fields of the JSON object a model returned; `None` stands for a
      missing field. A present field keeps its value, zero included: the
      signal built from it reads only the truthiness of the numbers it
      defaults. */
  datatype RawSignal = RawSignal(
    action: Option<Action>,
    confidence: Option<real>,
    positionType: Option<PositionType>,
    suggestedQuantity: Option<real>,
    takeProfit: Option<real>,
    stopLoss: Option<real>,
    leverage: Option<real>)

  /** A model call either yields a parsed object or fails (network error,
      unparsable JSON, a non-object result). */
  datatype Reply = Parsed(raw: RawSignal) | Failed

  /** The signal returned when the model call or parsing fails. */
  function ErrorSignal(asset: Asset, now: int): (s: TradingSignal)
    ensures s.action == Hold && s.assetId == asset.id && s.confidence == 0.0
    ensures s.positionType == Long && s.suggestedQuantity == 0.0 && s.leverage == 1.0
    ensures s.takeProfit.None? && s.stopLoss.None? && s.timestamp == now
  {
    TradingSignal(Hold, asset.id, 0.0, Long, 0.0, None, None, 1.0, now)
  }

  /** `generateTradingSignal` after the model has answered with `reply` at time `now`. */
  function GenerateTradingSignal(asset: Asset, config: AgentConfig, reply: Reply, now: int): (s: TradingSignal)
    ensures s.assetId == asset.id && s.timestamp == now
    ensures 0.0 <= s.confidence <= 100.0
    ensures reply.Failed? ==> s == ErrorSignal(asset, now)
    ensures reply.Parsed? ==>
      var raw := reply.raw;
      && s.action == (if raw.action.Some? then raw.action.value else Hold)
      && s.positionType == (if raw.positionType.Some? then raw.positionType.value else Long)
      && (raw.confidence.None? || raw.confidence.value == 0.0 ==> s.confidence == 50.0)
      && (raw.confidence.Some? && 0.0 < raw.confidence.value <= 100.0 ==> s.confidence == raw.confidence.value)
      && (raw.confidence.Some? && raw.confidence.value < 0.0 ==> s.confidence == 0.0)
      && (raw.confidence.Some? && raw.confidence.value > 100.0 ==> s.confidence == 100.0)
      && s.leverage <= config.maxLeverage
      && (raw.leverage.Some? && raw.leverage.value != 0.0 && raw.leverage.value <= config.maxLeverage ==>
            s.leverage == raw.leverage.value)
      && (raw.leverage.None? || raw.leverage.value == 0.0 ==> s.leverage == Min(1.0, config.maxLeverage))
      && (raw.leverage.Some? && raw.leverage.value > config.maxLeverage ==> s.leverage == config.maxLeverage)
      && (raw.suggestedQuantity.Some? && raw.suggestedQuantity.value != 0.0 ==> s.suggestedQuantity == raw.suggestedQuantity.value)
      && (raw.suggestedQuantity.None? || raw.suggestedQuantity.value == 0.0 ==> s.suggestedQuantity == 0.0)
      && s.takeProfit == raw.takeProfit && s.stopLoss == raw.stopLoss
  {
    match reply
    case Failed => ErrorSignal(asset, now)
    case Parsed(raw) =>
      TradingSignal(
        if raw.action.Some? then raw.action.value else Hold,
        asset.id,
        Clamp(OrElse(raw.confidence, 50.0), 0.0, 100.0),
        if raw.positionType.Some? then raw.positionType.value else Long,
        OrElse(raw.suggestedQuantity, 0.0),
        raw.takeProfit,
        raw.stopLoss,
        Min(OrElse(raw.leverage, 1.0), config.maxLeverage),
        now)
  }

  /** The fields of a signal, read back as a reply. */
  function AsRaw(s: TradingSignal): RawSignal
  {
    RawSignal(Some(s.action), Some(s.confidence), Some(s.positionType), Some(s.suggestedQuantity),
      s.takeProfit, s.stopLoss, Some(s.leverage))
  }

  /** A reply that names every field, with a non-zero confidence in range, a
      non-zero quantity and a non-zero leverage within the agent's cap, comes
      back unchanged: the defaults and the clamps only touch missing,
      falsy or out-of-range fields. */
  lemma {:induction false} ValidReplyRoundTrips(asset: Asset, config: AgentConfig, raw: RawSignal, now: int)
    requires raw.action.Some? && raw.positionType.Some?
    requires raw.confidence.Some? && 0.0 < raw.confidence.value <= 100.0
    requires raw.suggestedQuantity.Some? && raw.suggestedQuantity.value != 0.0
    requires raw.leverage.Some? && raw.leverage.value != 0.0 && raw.leverage.value <= config.maxLeverage
    ensures var s := GenerateTradingSignal(asset, config, Parsed(raw), now);
      AsRaw(s) == raw && s.assetId == asset.id && s.timestamp == now
  {
  }

  /** Rebuilding the signal from its own fields gives it back whenever its
      confidence is positive and its quantity and leverage are set. */
  lemma {:induction false} SignalRoundTrips(asset: Asset, config: AgentConfig, raw: RawSignal, now: int)
    requires raw.confidence.Some? && raw.confidence.value > 0.0
    requires raw.suggestedQuantity.Some? && raw.suggestedQuantity.value != 0.0
    requires raw.leverage.Some? && raw.leverage.value != 0.0 && config.maxLeverage != 0.0
    ensures var s := GenerateTradingSignal(asset, config, Parsed(raw), now);
      GenerateTradingSignal(asset, config, Parsed(AsRaw(s)), now) == s
  {
    var s := GenerateTradingSignal(asset, config, Parsed(raw), now);
    assert s.confidence > 0.0;
  }

  // ---------------------------------------------------------------------------
  // Multi-model consensus

  function Confidences(signals: seq<TradingSignal>): (r: seq<real>)
    ensures |r| == |signals|
    ensures forall i :: 0 <= i < |signals| ==> r[i] == signals[i].confidence
  {
    if |signals| == 0 then [] else [signals[0].confidence] + Confidences(signals[1..])
  }

  function CountAction(signals: seq<TradingSignal>, a: Action): nat
  {
    Count(signals, (s: TradingSignal) => s.action == a)
  }

  /** The consensus of `generateMultiModelSignal` over the signals of all
      models: the most confident signal (the first of equals), with the
      action decided by majority and the average confidence. An empty list
      has no consensus (the source's `reduce` throws there). */
  function MultiModelDecision(signals: seq<TradingSignal>): (r: Option<TradingSignal>)
    ensures r.None? <==> |signals| == 0
    ensures r.Some? ==>
      var n := |signals| as real;
      var avg := Mean(Confidences(signals));
      var best := signals[FirstMax(Confidences(signals))];
      && r.value == best.(action := r.value.action, confidence := avg)
      && (r.value.action == Action.Buy <==> CountAction(signals, Action.Buy) as real > n / 2.0 && avg > 70.0)
      && (r.value.action == Action.Sell <==>
            !(CountAction(signals, Action.Buy) as real > n / 2.0) && CountAction(signals, Action.Sell) as real > n / 2.0 && avg > 70.0)
      && (r.value.action == Action.Buy || r.value.action == Action.Sell || r.value.action == Hold)
  {
    if |signals| == 0 then None
    else
      var n := |signals| as real;
      var avg := Mean(Confidences(signals));
      var buys := CountAction(signals, Action.Buy);
      var sells := CountAction(signals, Action.Sell);
      var action :=
        if buys as real > n / 2.0 && avg > 70.0 then Action.Buy
        else if sells as real > n / 2.0 && avg > 70.0 then Action.Sell
        else Hold;
      var best := signals[FirstMax(Confidences(signals))];
      Some(best.(action := action, confidence := avg))
  }

  /** At most one side can hold a strict majority, so the buy test never
      shadows a sell majority. */
  lemma {:induction false} MajoritiesExclude(signals: seq<TradingSignal>)
    ensures !(CountAction(signals, Action.Buy) as real > |signals| as real / 2.0
              && CountAction(signals, Action.Sell) as real > |signals| as real / 2.0)
  {
    CountDisjoint(signals, (s: TradingSignal) => s.action == Action.Buy, (s: TradingSignal) => s.action == Action.Sell);
  }

  /** The consensus confidence is that of a clamped signal, hence in [0, 100]. */
  lemma {:induction false} MultiModelConfidenceBounded(signals: seq<TradingSignal>)
    requires |signals| > 0
    requires forall i :: 0 <= i < |signals| ==> 0.0 <= signals[i].confidence <= 100.0
    ensures 0.0 <= MultiModelDecision(signals).value.confidence <= 100.0
  {
    MeanBounds(Confidences(signals), 0.0, 100.0);
  }

  /** `generateMultiModelSignal`: every model is asked (`ask`) and the
      consensus is taken. */
  function GenerateMultiModelSignal(asset: Asset, configs: seq<AgentConfig>, ask: AgentConfig -> Reply, now: int): (r: Option<TradingSignal>)
    ensures r == MultiModelDecision(AskAll(asset, configs, ask, now))
    ensures r.None? <==> |configs| == 0
    ensures r.Some? ==> r.value.assetId == asset.id && 0.0 <= r.value.confidence <= 100.0
  {
    var signals := AskAll(asset, configs, ask, now);
    if |signals| == 0 then None
    else
      MultiModelConfidenceBounded(signals);
      assert signals[FirstMax(Confidences(signals))].assetId == asset.id;
      MultiModelDecision(signals)
  }

  /** One signal per model, in the order the models are listed. */
  function AskAll(asset: Asset, configs: seq<AgentConfig>, ask: AgentConfig -> Reply, now: int): (r: seq<TradingSignal>)
    ensures |r| == |configs|
    ensures forall i :: 0 <= i < |configs| ==> r[i] == GenerateTradingSignal(asset, configs[i], ask(configs[i]), now)
  {
    seq(|configs|, i requires 0 <= i < |configs| => GenerateTradingSignal(asset, configs[i], ask(configs[i]), now))
  }

  // ---------------------------------------------------------------------------
  // Model names, protective orders, strategy adjustment

  /** `getModelName`: only GPT-4o is served by its own model; every other
      model is served by GPT-4o mini. */
  function ModelName(model: AIModel): (name: string)
    ensures name == "gpt-4o" <==> model == Gpt4o
    ensures name == "gpt-4o" || name == "gpt-4o-mini"
  {
    match model
    case Gpt4o => "gpt-4o"
    case Gpt4oMini => "gpt-4o-mini"
    case DeepSeek => "gpt-4o-mini"
    case Qwen => "gpt-4o-mini"
  }

  /** The log lines `checkStopLossAndTakeProfit` writes. */
  datatype Alert = StopLossHit(symbol: string, price: real) | TakeProfitHit(symbol: string, price: real)

  predicate StopLossTriggered(pos: Position, price: real)
  {
    pos.stopLoss.Some? && pos.stopLoss.value != 0.0 && price <= pos.stopLoss.value
  }

  predicate TakeProfitTriggered(pos: Position, price: real)
  {
    pos.takeProfit.Some? && pos.takeProfit.value != 0.0 && price >= pos.takeProfit.value
  }

  function Alerts(ps: seq<Position>, prices: map<string, real>): (r: seq<Alert>)
    ensures |r| <= 2 * |ps|
  {
    if |ps| == 0 then []
    else
      var pos := ps[0];
      var price := Trading.Mark(pos, prices);
      (if StopLossTriggered(pos, price) then [StopLossHit(pos.symbol, price)] else [])
      + (if TakeProfitTriggered(pos, price) then [TakeProfitHit(pos.symbol, price)] else [])
      + Alerts(ps[1..], prices)
  }

  /** `checkStopLossAndTakeProfit`: only reports; the portfolio comes back as it was. */
  function CheckStopLossAndTakeProfit(p: Portfolio, prices: map<string, real>): (r: (Portfolio, seq<Alert>))
    ensures r.0 == p
    ensures |r.1| <= 2 * |p.positions|
  {
    (p, Alerts(p.positions, prices))
  }

  /** Every triggered level of every position is reported. */
  lemma {:induction false} TriggeredLevelsAreReported(ps: seq<Position>, prices: map<string, real>, i: nat)
    requires i < |ps|
    ensures StopLossTriggered(ps[i], Trading.Mark(ps[i], prices)) ==>
      StopLossHit(ps[i].symbol, Trading.Mark(ps[i], prices)) in Alerts(ps, prices)
    ensures TakeProfitTriggered(ps[i], Trading.Mark(ps[i], prices)) ==>
      TakeProfitHit(ps[i].symbol, Trading.Mark(ps[i], prices)) in Alerts(ps, prices)
    decreases i
  {
    if i > 0 {
      TriggeredLevelsAreReported(ps[1..], prices, i - 1);
      assert ps[1..][i - 1] == ps[i];
    }
  }

  /** Every report comes from a position whose level was crossed. */
  lemma {:induction false} ReportsAreTriggered(ps: seq<Position>, prices: map<string, real>, a: Alert)
    requires a in Alerts(ps, prices)
    ensures exists i :: (0 <= i < |ps| && ps[i].symbol == a.symbol && a.price == Trading.Mark(ps[i], prices)
      && (if a.StopLossHit? then StopLossTriggered(ps[i], a.price) else TakeProfitTriggered(ps[i], a.price)))
  {
    var pos := ps[0];
    var price := Trading.Mark(pos, prices);
    var head := (if StopLossTriggered(pos, price) then [StopLossHit(pos.symbol, price)] else [])
      + (if TakeProfitTriggered(pos, price) then [TakeProfitHit(pos.symbol, price)] else []);
    assert Alerts(ps, prices) == head + Alerts(ps[1..], prices);
    if a !in head {
      ReportsAreTriggered(ps[1..], prices, a);
      var j :| 0 <= j < |ps[1..]| && ps[1..][j].symbol == a.symbol && a.price == Trading.Mark(ps[1..][j], prices)
        && (if a.StopLossHit? then StopLossTriggered(ps[1..][j], a.price) else TakeProfitTriggered(ps[1..][j], a.price));
      assert ps[j + 1] == ps[1..][j];
    } else {
      assert ps[0].symbol == a.symbol;
    }
  }

  /** `adjustStrategyBasedOnPerformance`. Each rule reads the ORIGINAL config;
      the drawdown rule overrides the poor-win-rate rule. */
  function AdjustStrategy(config: AgentConfig, recentTrades: real, winRate: real, currentDrawdown: real): (r: AgentConfig)
    ensures r.(maxLeverage := config.maxLeverage, maxPositionSize := config.maxPositionSize) == config
    ensures currentDrawdown > 15.0 ==>
      r.maxLeverage == 1.0 && r.maxPositionSize == Max(3.0, config.maxPositionSize * 0.5)
    ensures winRate < 0.4 && recentTrades > 5.0 && currentDrawdown <= 15.0 ==>
      r.maxLeverage == Max(1.0, config.maxLeverage - 1.0) && r.maxPositionSize == Max(5.0, config.maxPositionSize - 5.0)
    ensures winRate > 0.6 && currentDrawdown < 5.0 ==>
      r.maxLeverage == Min(10.0, config.maxLeverage + 1.0) && r.maxPositionSize == config.maxPositionSize
    ensures !(winRate < 0.4 && recentTrades > 5.0) && currentDrawdown <= 15.0 && !(winRate > 0.6 && currentDrawdown < 5.0) ==>
      r == config
  {
    var cut :=
      if winRate < 0.4 && recentTrades > 5.0 then
        config.(maxLeverage := Max(1.0, config.maxLeverage - 1.0), maxPositionSize := Max(5.0, config.maxPositionSize - 5.0))
      else config;
    var capped :=
      if currentDrawdown > 15.0 then cut.(maxLeverage := 1.0, maxPositionSize := Max(3.0, config.maxPositionSize * 0.5))
      else cut;
    if winRate > 0.6 && currentDrawdown < 5.0 then capped.(maxLeverage := Min(10.0, config.maxLeverage + 1.0))
    else capped
  }

  /** From a leverage of at least 1, leverage only grows after a winning
      streak in a shallow drawdown, and an allowed range of [1, 10] is kept. */
  lemma {:induction false} AdjustKeepsLeverageRange(config: AgentConfig, recentTrades: real, winRate: real, currentDrawdown: real)
    ensures var r := AdjustStrategy(config, recentTrades, winRate, currentDrawdown);
      && (1.0 <= config.maxLeverage && r.maxLeverage > config.maxLeverage ==> winRate > 0.6 && currentDrawdown < 5.0)
      && (1.0 <= config.maxLeverage <= 10.0 ==> 1.0 <= r.maxLeverage <= 10.0)
  {
  }
}
