/** The data model of the trading simulator (the records of `src/lib/types.ts`). */
module Types {
  import opened Util

  datatype PositionType = Long | Short

  /** The side of an executed order. */
  datatype TradeType = Buy | Sell

  /** What a trading signal recommends. */
  datatype Action = Buy | Sell | Hold | Close

  datatype PricePoint = PricePoint(timestamp: int, price: real)

  datatype Asset = Asset(
    id: string,
    symbol: string,
    name: string,
    currentPrice: real,
    priceHistory: seq<PricePoint>,
    volatility: real)

  /** One open exposure to an asset in one direction. */
  datatype Position = Position(
    assetId: string,
    symbol: string,
    quantity: real,
    avgEntryPrice: real,
    currentPrice: real,
    kind: PositionType,
    leverage: real,
    takeProfit: Option<real>,
    stopLoss: Option<real>,
    openedAt: int,
    unrealizedPnL: real)

  /** One executed order, as kept in the append-only trade log. */
  datatype Trade = Trade(
    id: string,
    assetId: string,
    symbol: string,
    side: TradeType,
    positionType: PositionType,
    quantity: real,
    price: real,
    timestamp: int,
    total: real,
    leverage: real,
    pnl: Option<real>,
    agentId: Option<string>,
    reason: Option<string>)

  datatype Portfolio = Portfolio(
    cash: real,
    positions: seq<Position>,
    trades: seq<Trade>,
    startingBalance: real,
    maxDrawdown: real,
    currentDrawdown: real,
    totalPnL: real)

  datatype TradingMode = Conservative | Moderate | Aggressive

  datatype AIModel = Gpt4o | Gpt4oMini | DeepSeek | Qwen

  /** A trading signal; its free-text `reasoning` is not modelled. */
  datatype TradingSignal = TradingSignal(
    action: Action,
    assetId: string,
    confidence: real,
    positionType: PositionType,
    suggestedQuantity: real,
    takeProfit: Option<real>,
    stopLoss: Option<real>,
    leverage: real,
    timestamp: int)

  datatype AgentConfig = AgentConfig(
    id: string,
    name: string,
    model: AIModel,
    mode: TradingMode,
    enabled: bool,
    maxLeverage: real,
    maxPositionSize: real,
    stopLossPercent: real,
    takeProfitPercent: real,
    riskRewardRatio: real,
    volatilityThreshold: real,
    canCommunicate: bool)

  /** A short-term price forecast; its free-text `reasoning` is not modelled. */
  datatype Forecast = Forecast(
    assetId: string,
    currentPrice: real,
    predictions: seq<PricePoint>,
    confidence: real,
    timestamp: int)

  /** The prices of a history, in order. */
  function Prices(h: seq<PricePoint>): (r: seq<real>)
    ensures |r| == |h|
    ensures forall i :: 0 <= i < |h| ==> r[i] == h[i].price
  {
    if |h| == 0 then [] else [h[0].price] + Prices(h[1..])
  }
}
