/** The portfolio ledger of `src/lib/trading.ts`: valuation, per-position P&L,
    the pre-trade feasibility check, trade execution with drawdown tracking,
    and marking positions to fresh prices. The source mutates the matched
    position in place; here every operation returns a new portfolio. */
module Trading {
  import opened Util
  import opened Types

  /** The price a valuation uses for `pos`: the fresh price from `prices`, unless
      it is missing or zero, in which case the last mark is kept. */
  function Mark(pos: Position, prices: map<string, real>): (r: real)
    ensures pos.assetId in prices && prices[pos.assetId] != 0.0 ==> r == prices[pos.assetId]
    ensures !(pos.assetId in prices && prices[pos.assetId] != 0.0) ==> r == pos.currentPrice
  {
    OrElse(Get(prices, pos.assetId), pos.currentPrice)
  }

  /** What one position adds to the portfolio value at `price`. A short is valued
      as `quantity * (2 * avgEntryPrice - price) * leverage`. */
  function PositionValue(pos: Position, price: real): real
  {
    match pos.kind
    case Long => pos.quantity * price * pos.leverage
    case Short => pos.quantity * (2.0 * pos.avgEntryPrice - price) * pos.leverage
  }

  function PositionsValue(ps: seq<Position>, prices: map<string, real>): real
  {
    if |ps| == 0 then 0.0 else PositionValue(ps[0], Mark(ps[0], prices)) + PositionsValue(ps[1..], prices)
  }

  /** `calculatePortfolioValue`: cash plus the value of every open position. */
  function PortfolioValue(p: Portfolio, prices: map<string, real>): (v: real)
    ensures |p.positions| == 0 ==> v == p.cash
  {
    p.cash + PositionsValue(p.positions, prices)
  }

  lemma {:induction false} PositionsValueAppend(a: seq<Position>, b: seq<Position>, prices: map<string, real>)
    ensures PositionsValue(a + b, prices) == PositionsValue(a, prices) + PositionsValue(b, prices)
  {
    if |a| == 0 {
      assert a + b == b;
    } else {
      assert (a + b)[1..] == a[1..] + b;
      PositionsValueAppend(a[1..], b, prices);
    }
  }

  /** Opening a position adds exactly its own value to the portfolio's. */
  lemma {:induction false} PortfolioValueOfAppended(p: Portfolio, pos: Position, prices: map<string, real>)
    ensures PortfolioValue(p.(positions := p.positions + [pos]), prices)
         == PortfolioValue(p, prices) + PositionValue(pos, Mark(pos, prices))
  {
    PositionsValueAppend(p.positions, [pos], prices);
  }

  function CostBasis(pos: Position): real
  {
    pos.quantity * pos.avgEntryPrice * pos.leverage
  }

  /** Result of `calculatePositionPnL`. `pnlPercent` is absent where the source
      divides by a zero cost basis (a non-finite number there). */
  datatype PnL = PnL(pnl: real, pnlPercent: Option<real>)

  /** `calculatePositionPnL`: the P&L of the whole position at its current mark. */
  function PositionPnL(pos: Position): (r: PnL)
    ensures pos.kind == Long ==> r.pnl == pos.quantity * pos.leverage * (pos.currentPrice - pos.avgEntryPrice)
    ensures pos.kind == Short ==> r.pnl == pos.quantity * pos.leverage * (pos.avgEntryPrice - pos.currentPrice)
    ensures r.pnlPercent.Some? <==> CostBasis(pos) != 0.0
    ensures r.pnlPercent.Some? ==> r.pnlPercent.value * CostBasis(pos) == r.pnl * 100.0
    ensures CostBasis(pos) > 0.0 ==> (r.pnlPercent.value > 0.0 <==> r.pnl > 0.0)
    ensures CostBasis(pos) > 0.0 ==> (r.pnlPercent.value < 0.0 <==> r.pnl < 0.0)
  {
    var costBasis := CostBasis(pos);
    var currentValue := pos.quantity * pos.currentPrice * pos.leverage;
    var pnl := if pos.kind == Long then currentValue - costBasis else costBasis - currentValue;
    PnL(pnl, if costBasis == 0.0 then None else Some(pnl / costBasis * 100.0))
  }

  /** A long and a short of the same size, entry and mark have opposite P&L. */
  lemma {:induction false} LongShortPnLOpposite(pos: Position)
    ensures PositionPnL(pos.(kind := Long)).pnl == -PositionPnL(pos.(kind := Short)).pnl
  {
  }

  // ---------------------------------------------------------------------------
  // Pre-trade feasibility

  datatype Rejection =
    | NonPositiveQuantity
    | InsufficientFunds(need: real, have: real)
    | InsufficientHoldings(have: real, selling: real)

  datatype Verdict = Allowed | Rejected(why: Rejection)

  /** Index of the first position on `assetId`, of either direction. */
  function FirstOnAsset(ps: seq<Position>, assetId: string): (r: Option<nat>)
    ensures r.Some? ==> r.value < |ps| && ps[r.value].assetId == assetId
    ensures r.Some? ==> forall j :: 0 <= j < r.value ==> ps[j].assetId != assetId
    ensures r.None? ==> forall j :: 0 <= j < |ps| ==> ps[j].assetId != assetId
  {
    FindFirst(ps, (pos: Position) => pos.assetId == assetId)
  }

  /** `canExecuteTrade`. A buy is checked against cash at full notional, without
      regard to leverage; a sell is checked against the first position on the
      asset, whatever its direction. */
  function CanExecuteTrade(p: Portfolio, side: TradeType, assetId: string, quantity: real, price: real): (r: Verdict)
    ensures quantity <= 0.0 ==> r == Rejected(NonPositiveQuantity)
    ensures quantity > 0.0 && side == TradeType.Buy ==> (r.Allowed? <==> p.cash >= quantity * price)
    ensures quantity > 0.0 && side == TradeType.Buy && r.Rejected? ==> r.why == InsufficientFunds(quantity * price, p.cash)
    ensures quantity > 0.0 && side == TradeType.Sell ==>
      (r.Allowed? <==>
        exists i :: 0 <= i < |p.positions| && p.positions[i].assetId == assetId && quantity <= p.positions[i].quantity
          && forall j :: 0 <= j < i ==> p.positions[j].assetId != assetId)
    ensures quantity > 0.0 && side == TradeType.Sell && (forall j :: 0 <= j < |p.positions| ==> p.positions[j].assetId != assetId)
      ==> r == Rejected(InsufficientHoldings(0.0, quantity))
  {
    if quantity <= 0.0 then Rejected(NonPositiveQuantity)
    else if side == TradeType.Buy then
      var cost := quantity * price;
      if p.cash < cost then Rejected(InsufficientFunds(cost, p.cash)) else Allowed
    else
      match FirstOnAsset(p.positions, assetId)
      case None => Rejected(InsufficientHoldings(0.0, quantity))
      case Some(i) =>
        if p.positions[i].quantity < quantity
        then Rejected(InsufficientHoldings(OrElse(Some(p.positions[i].quantity), 0.0), quantity))
        else Allowed
  }

  // ---------------------------------------------------------------------------
  // Trade execution

  predicate HasKey(pos: Position, assetId: string, kind: PositionType)
  {
    pos.assetId == assetId && pos.kind == kind
  }

  /** Index of the first position keyed by `(assetId, kind)`. */
  function FindKey(ps: seq<Position>, assetId: string, kind: PositionType): (r: Option<nat>)
    ensures r.Some? ==> r.value < |ps| && HasKey(ps[r.value], assetId, kind)
    ensures r.Some? ==> forall j :: 0 <= j < r.value ==> !HasKey(ps[j], assetId, kind)
    ensures r.None? ==> forall j :: 0 <= j < |ps| ==> !HasKey(ps[j], assetId, kind)
  {
    FindFirst(ps, (pos: Position) => HasKey(pos, assetId, kind))
  }

  /** The divisions `executeTrade` performs are by non-zero numbers: the leverage,
      the starting balance and, when buying into an open position, the merged
      quantity. (In the source a zero divisor yields a non-finite number.) */
  predicate Executable(p: Portfolio, side: TradeType, assetId: string, kind: PositionType, quantity: real, leverage: real)
  {
    && leverage != 0.0
    && p.startingBalance != 0.0
    && (side == TradeType.Buy && FindKey(p.positions, assetId, kind).Some? ==>
          p.positions[FindKey(p.positions, assetId, kind).value].quantity + quantity != 0.0)
  }

  /** Buying `quantity` at `price` into an open position: quantities add, the
      entry price becomes the volume-weighted average, the mark moves to `price`
      and the unrealised P&L is recomputed. */
  function MergeBuy(pos: Position, quantity: real, price: real): (r: Position)
    requires pos.quantity + quantity != 0.0
    ensures r.quantity == pos.quantity + quantity
    ensures r.quantity * r.avgEntryPrice == pos.quantity * pos.avgEntryPrice + quantity * price
    ensures r.currentPrice == price
    ensures r.(quantity := pos.quantity, avgEntryPrice := pos.avgEntryPrice, currentPrice := pos.currentPrice,
               unrealizedPnL := pos.unrealizedPnL) == pos
  {
    var totalQuantity := pos.quantity + quantity;
    var totalCost := pos.quantity * pos.avgEntryPrice + quantity * price;
    var merged := pos.(quantity := totalQuantity, avgEntryPrice := totalCost / totalQuantity, currentPrice := price);
    merged.(unrealizedPnL := PositionPnL(merged).pnl)
  }

  /** The merged position carries the P&L of its new size, entry and mark. */
  lemma {:induction false} MergeBuyRevaluesPnL(pos: Position, quantity: real, price: real)
    requires pos.quantity + quantity != 0.0
    ensures MergeBuy(pos, quantity, price).unrealizedPnL == PositionPnL(MergeBuy(pos, quantity, price)).pnl
  {
  }

  /** The position a first buy on `(assetId, kind)` opens. */
  function Opened(assetId: string, symbol: string, quantity: real, price: real, kind: PositionType, leverage: real, now: int): Position
  {
    Position(assetId, symbol, quantity, price, price, kind, leverage, None, None, now, 0.0)
  }

  /** The cash and positions after a buy (drawdown not yet recomputed). */
  function BookBuy(p: Portfolio, assetId: string, symbol: string, quantity: real, price: real,
                   kind: PositionType, leverage: real, now: int): (r: Portfolio)
    requires Executable(p, TradeType.Buy, assetId, kind, quantity, leverage)
    ensures r.cash == p.cash - quantity * price / leverage
    ensures r.trades == p.trades && r.totalPnL == p.totalPnL && r.startingBalance == p.startingBalance
    ensures r.maxDrawdown == p.maxDrawdown && r.currentDrawdown == p.currentDrawdown
    ensures FindKey(p.positions, assetId, kind).None? ==>
      r.positions == p.positions + [Opened(assetId, symbol, quantity, price, kind, leverage, now)]
    ensures FindKey(p.positions, assetId, kind).Some? ==>
      var i := FindKey(p.positions, assetId, kind).value;
      r.positions == p.positions[i := MergeBuy(p.positions[i], quantity, price)]
  {
    var cash := p.cash - quantity * price / leverage;
    match FindKey(p.positions, assetId, kind)
    case None =>
      p.(cash := cash, positions := p.positions + [Opened(assetId, symbol, quantity, price, kind, leverage, now)])
    case Some(i) =>
      p.(cash := cash, positions := p.positions[i := MergeBuy(p.positions[i], quantity, price)])
  }

  /** The cash, P&L and positions after a sell, and the realised P&L to stamp on
      the trade. The P&L is that of the WHOLE matched position at its current
      mark, taken before the position is reduced. With no position on
      `(assetId, kind)` nothing changes. */
  function BookSell(p: Portfolio, assetId: string, kind: PositionType, quantity: real, price: real,
                    leverage: real): (r: (Portfolio, Option<real>))
    requires leverage != 0.0
    ensures r.0.trades == p.trades && r.0.startingBalance == p.startingBalance
    ensures r.0.maxDrawdown == p.maxDrawdown && r.0.currentDrawdown == p.currentDrawdown
    ensures FindKey(p.positions, assetId, kind).None? ==> r == (p, None)
    ensures FindKey(p.positions, assetId, kind).Some? ==>
      var i := FindKey(p.positions, assetId, kind).value;
      var pos := p.positions[i];
      && r.1 == Some(PositionPnL(pos).pnl)
      && r.0.cash == p.cash + quantity * price / leverage
      && r.0.totalPnL == p.totalPnL + PositionPnL(pos).pnl
      && (pos.quantity - quantity > 0.0 ==> r.0.positions == p.positions[i := pos.(quantity := pos.quantity - quantity)])
      && (pos.quantity - quantity <= 0.0 ==> r.0.positions == Filter(p.positions, (q: Position) => !HasKey(q, assetId, kind)))
  {
    match FindKey(p.positions, assetId, kind)
    case None => (p, None)
    case Some(i) =>
      var pos := p.positions[i];
      var pnl := PositionPnL(pos).pnl;
      var remaining := pos.quantity - quantity;
      // The source reduces the position in place and then filters the key out
      // when nothing is left; filtering the original list gives the same result.
      var positions :=
        if remaining <= 0.0 then Filter(p.positions, (q: Position) => !HasKey(q, assetId, kind))
        else p.positions[i := pos.(quantity := remaining)];
      (p.(cash := p.cash + quantity * price / leverage, totalPnL := p.totalPnL + pnl, positions := positions), Some(pnl))
  }

  /** Recomputes the drawdown statistics from the portfolio's own marks. */
  function Revalue(p: Portfolio): (r: Portfolio)
    requires p.startingBalance != 0.0
    ensures r.(currentDrawdown := p.currentDrawdown, maxDrawdown := p.maxDrawdown) == p
    ensures r.currentDrawdown >= 0.0
    ensures p.startingBalance > 0.0 ==> (r.currentDrawdown > 0.0 <==> PortfolioValue(p, map[]) < p.startingBalance)
    ensures PortfolioValue(p, map[]) < p.startingBalance && p.startingBalance > 0.0 ==>
      r.currentDrawdown * p.startingBalance == (p.startingBalance - PortfolioValue(p, map[])) * 100.0
    ensures r.maxDrawdown >= p.maxDrawdown && r.maxDrawdown >= r.currentDrawdown
    ensures r.maxDrawdown == p.maxDrawdown || r.maxDrawdown == r.currentDrawdown
  {
    var value := PortfolioValue(p, map[]);
    var drawdown := (p.startingBalance - value) / p.startingBalance * 100.0;
    var current := Max(0.0, drawdown);
    p.(currentDrawdown := current, maxDrawdown := Max(OrElse(Some(p.maxDrawdown), 0.0), current))
  }

  /** The trade record `executeTrade` appends, with its realised P&L. */
  function TradeRecord(id: string, assetId: string, symbol: string, side: TradeType, kind: PositionType,
                       quantity: real, price: real, now: int, leverage: real, pnl: Option<real>): Trade
  {
    Trade(id, assetId, symbol, side, kind, quantity, price, now, quantity * price, leverage, pnl, None, None)
  }

  /** `executeTrade`. `now` and `id` stand for the clock reading and the random
      trade id the source generates. */
  function ExecuteTrade(p: Portfolio, side: TradeType, assetId: string, symbol: string, quantity: real, price: real,
                        kind: PositionType, leverage: real, now: int, id: string): (r: Portfolio)
    requires Executable(p, side, assetId, kind, quantity, leverage)
    // the trade log grows by exactly one record at its end
    ensures |r.trades| == |p.trades| + 1 && r.trades[..|p.trades|] == p.trades
    ensures var t := r.trades[|p.trades|];
      && t.id == id && t.assetId == assetId && t.symbol == symbol && t.side == side && t.positionType == kind
      && t.quantity == quantity && t.price == price && t.timestamp == now && t.total == quantity * price
      && t.leverage == leverage && t.agentId.None? && t.reason.None?
    ensures r.startingBalance == p.startingBalance
    // drawdown is recomputed from the new marks and the maximum never decreases
    ensures r.currentDrawdown >= 0.0
    ensures r.maxDrawdown >= p.maxDrawdown && r.maxDrawdown >= r.currentDrawdown
    ensures r.maxDrawdown == Max(p.maxDrawdown, r.currentDrawdown)
    ensures r.startingBalance > 0.0 ==> (r.currentDrawdown > 0.0 <==> PortfolioValue(r, map[]) < r.startingBalance)
    ensures r.startingBalance > 0.0 && PortfolioValue(r, map[]) < r.startingBalance ==>
      r.currentDrawdown * r.startingBalance == (r.startingBalance - PortfolioValue(r, map[])) * 100.0
    // a buy pays for the notional divided by the leverage
    ensures side == TradeType.Buy ==>
      && r.cash == p.cash - quantity * price / leverage
      && r.totalPnL == p.totalPnL && r.trades[|p.trades|].pnl.None?
    // a sell against an open position realises the P&L of the whole position
    ensures side == TradeType.Sell && FindKey(p.positions, assetId, kind).Some? ==>
      var pos := p.positions[FindKey(p.positions, assetId, kind).value];
      && r.trades[|p.trades|].pnl == Some(PositionPnL(pos).pnl)
      && r.cash == p.cash + quantity * price / leverage
      && r.totalPnL == p.totalPnL + PositionPnL(pos).pnl
    // a sell with nothing to sell only records the trade
    ensures side == TradeType.Sell && FindKey(p.positions, assetId, kind).None? ==>
      && r.cash == p.cash && r.positions == p.positions && r.totalPnL == p.totalPnL
      && r.trades[|p.trades|].pnl.None?
  {
    if side == TradeType.Buy then
      var booked := BookBuy(p, assetId, symbol, quantity, price, kind, leverage, now);
      var t := TradeRecord(id, assetId, symbol, side, kind, quantity, price, now, leverage, None);
      Revalue(booked.(trades := p.trades + [t]))
    else
      var (booked, pnl) := BookSell(p, assetId, kind, quantity, price, leverage);
      var t := TradeRecord(id, assetId, symbol, side, kind, quantity, price, now, leverage, pnl);
      Revalue(booked.(trades := p.trades + [t]))
  }
}

module TradingLaws {
  import opened Util
  import opened Types
  import opened Trading

  // ---------------------------------------------------------------------------
  // Marking positions to fresh prices

  /** `updatePositionPrices`: every position is re-marked to its fresh price; a
      missing or zero price keeps the old mark. Nothing else changes. */
  function UpdatePositionPrices(p: Portfolio, prices: map<string, real>): (r: Portfolio)
    ensures r.(positions := p.positions) == p
    ensures |r.positions| == |p.positions|
    ensures forall i :: 0 <= i < |p.positions| ==>
      r.positions[i].(currentPrice := p.positions[i].currentPrice) == p.positions[i]
    ensures forall i :: 0 <= i < |p.positions| ==>
      var a := p.positions[i].assetId;
      && (a in prices && prices[a] != 0.0 ==> r.positions[i].currentPrice == prices[a])
      && (!(a in prices && prices[a] != 0.0) ==> r.positions[i].currentPrice == p.positions[i].currentPrice)
  {
    p.(positions := seq(|p.positions|, i requires 0 <= i < |p.positions| =>
                          p.positions[i].(currentPrice := Mark(p.positions[i], prices))))
  }

  /** Marking twice with the same prices is the same as marking once. */
  lemma {:induction false} MarkingIsIdempotent(p: Portfolio, prices: map<string, real>)
    ensures UpdatePositionPrices(UpdatePositionPrices(p, prices), prices) == UpdatePositionPrices(p, prices)
  {
  }

  lemma {:induction false} MarkedPositionsValue(ps: seq<Position>, marked: seq<Position>, prices: map<string, real>)
    requires |marked| == |ps|
    requires forall i :: 0 <= i < |ps| ==> marked[i] == ps[i].(currentPrice := Mark(ps[i], prices))
    ensures PositionsValue(marked, map[]) == PositionsValue(ps, prices)
  {
    if |ps| > 0 {
      MarkedPositionsValue(ps[1..], marked[1..], prices);
    }
  }

  /** Valuing the marked portfolio with no fresh prices gives the same number
      as valuing the unmarked portfolio with the fresh prices. */
  lemma {:induction false} ValueAfterMarking(p: Portfolio, prices: map<string, real>)
    ensures PortfolioValue(UpdatePositionPrices(p, prices), map[]) == PortfolioValue(p, prices)
  {
    MarkedPositionsValue(p.positions, UpdatePositionPrices(p, prices).positions, prices);
  }

  // ---------------------------------------------------------------------------
  // The ledger invariant

  /** At most one position per `(assetId, type)`. */
  ghost predicate UniqueKeys(ps: seq<Position>)
  {
    forall i, j :: 0 <= i < j < |ps| ==> !HasKey(ps[j], ps[i].assetId, ps[i].kind)
  }

  /** Every listed position is open. */
  ghost predicate AllOpen(ps: seq<Position>)
  {
    forall i :: 0 <= i < |ps| ==> ps[i].quantity > 0.0
  }

  ghost predicate WellFormed(p: Portfolio)
  {
    UniqueKeys(p.positions) && AllOpen(p.positions) && p.startingBalance > 0.0
  }

  /** With unique keys, removing every position on a key removes exactly the
      one at its index and keeps the others in order. */
  lemma {:induction false} FilterRemovesOnlyMatch(ps: seq<Position>, i: nat, assetId: string, kind: PositionType)
    requires UniqueKeys(ps) && i < |ps| && HasKey(ps[i], assetId, kind)
    ensures Filter(ps, (q: Position) => !HasKey(q, assetId, kind)) == ps[..i] + ps[i + 1..]
  {
    var keep := (q: Position) => !HasKey(q, assetId, kind);
    var before, after := ps[..i], ps[i + 1..];
    assert ps == before + [ps[i]] + after;
    assert Filter([ps[i]], keep) == [] by {
      assert [ps[i]][1..] == [];
    }
    FilterAppend(before + [ps[i]], after, keep);
    FilterAppend(before, [ps[i]], keep);
    FilterKeepsAll(before, keep);
    FilterKeepsAll(after, keep);
  }

  /** The gate and the execution agree on cash: a buy the gate allows, at a
      leverage of at least 1 and a non-negative price, leaves the cash
      non-negative. */
  lemma {:induction false} AllowedBuyKeepsCash(p: Portfolio, assetId: string, symbol: string, quantity: real, price: real,
                                               kind: PositionType, leverage: real, now: int, id: string)
    requires Executable(p, TradeType.Buy, assetId, kind, quantity, leverage)
    requires CanExecuteTrade(p, TradeType.Buy, assetId, quantity, price).Allowed?
    requires leverage >= 1.0 && price >= 0.0
    ensures ExecuteTrade(p, TradeType.Buy, assetId, symbol, quantity, price, kind, leverage, now, id).cash >= 0.0
  {
    var cost := quantity * price;
    assert cost >= 0.0;
    assert cost / leverage <= cost by {
      assert cost / leverage * leverage == cost;
      MulNonNegative(cost / leverage, leverage - 1.0);
    }
  }

  /** A sell the gate allows has an open position on the asset that covers
      it; a sell of an asset with no position is always refused. */
  lemma {:induction false} AllowedSellIsCovered(p: Portfolio, assetId: string, quantity: real, price: real)
    ensures CanExecuteTrade(p, TradeType.Sell, assetId, quantity, price).Allowed? ==>
      quantity > 0.0 && FirstOnAsset(p.positions, assetId).Some?
      && quantity <= p.positions[FirstOnAsset(p.positions, assetId).value].quantity
    ensures FirstOnAsset(p.positions, assetId).None? ==> CanExecuteTrade(p, TradeType.Sell, assetId, quantity, price).Rejected?
  {
  }

  /** A buy on `(assetId, kind)` with no open position appends one new position. */
  lemma {:induction false} BuyOpensPosition(p: Portfolio, assetId: string, symbol: string, quantity: real, price: real,
                         kind: PositionType, leverage: real, now: int, id: string)
    requires Executable(p, TradeType.Buy, assetId, kind, quantity, leverage)
    requires FindKey(p.positions, assetId, kind).None?
    ensures ExecuteTrade(p, TradeType.Buy, assetId, symbol, quantity, price, kind, leverage, now, id).positions
         == p.positions + [Position(assetId, symbol, quantity, price, price, kind, leverage, None, None, now, 0.0)]
  {
  }

  /** A buy into the open position on `(assetId, kind)` changes that position
      only: quantities add, the entry price becomes the volume-weighted average
      and the mark moves to the trade price; leverage, direction and opening
      time are kept and no position is added. */
  lemma {:induction false} BuyMergesIntoPosition(p: Portfolio, assetId: string, symbol: string, quantity: real, price: real,
                              kind: PositionType, leverage: real, now: int, id: string)
    requires Executable(p, TradeType.Buy, assetId, kind, quantity, leverage)
    requires FindKey(p.positions, assetId, kind).Some?
    ensures var r := ExecuteTrade(p, TradeType.Buy, assetId, symbol, quantity, price, kind, leverage, now, id);
      var i := FindKey(p.positions, assetId, kind).value;
      var old_ := p.positions[i];
      && |r.positions| == |p.positions|
      && (forall j :: 0 <= j < |p.positions| && j != i ==> r.positions[j] == p.positions[j])
      && var new_ := r.positions[i];
      && new_.quantity == old_.quantity + quantity
      && new_.avgEntryPrice == (old_.quantity * old_.avgEntryPrice + quantity * price) / (old_.quantity + quantity)
      && new_.currentPrice == price
      && new_.assetId == old_.assetId && new_.kind == old_.kind && new_.leverage == old_.leverage
      && new_.openedAt == old_.openedAt && new_.symbol == old_.symbol
  {
    var i := FindKey(p.positions, assetId, kind).value;
    var merged := MergeBuy(p.positions[i], quantity, price);
    assert merged.avgEntryPrice
        == (p.positions[i].quantity * p.positions[i].avgEntryPrice + quantity * price) / (p.positions[i].quantity + quantity);
  }

  /** A partial sell lowers the quantity of the matched position and nothing else. */
  lemma {:induction false} SellReducesPosition(p: Portfolio, assetId: string, symbol: string, quantity: real, price: real,
                            kind: PositionType, leverage: real, now: int, id: string)
    requires Executable(p, TradeType.Sell, assetId, kind, quantity, leverage)
    requires FindKey(p.positions, assetId, kind).Some?
    requires p.positions[FindKey(p.positions, assetId, kind).value].quantity > quantity
    ensures var i := FindKey(p.positions, assetId, kind).value;
      ExecuteTrade(p, TradeType.Sell, assetId, symbol, quantity, price, kind, leverage, now, id).positions
        == p.positions[i := p.positions[i].(quantity := p.positions[i].quantity - quantity)]
  {
  }

  /** A sell of at least the whole quantity closes the position: no position on
      `(assetId, kind)` is left and, when keys are unique, the others are kept in
      order. */
  lemma {:induction false} SellClosesPosition(p: Portfolio, assetId: string, symbol: string, quantity: real, price: real,
                           kind: PositionType, leverage: real, now: int, id: string)
    requires Executable(p, TradeType.Sell, assetId, kind, quantity, leverage)
    requires FindKey(p.positions, assetId, kind).Some?
    requires p.positions[FindKey(p.positions, assetId, kind).value].quantity <= quantity
    ensures var r := ExecuteTrade(p, TradeType.Sell, assetId, symbol, quantity, price, kind, leverage, now, id);
      && (forall j :: 0 <= j < |r.positions| ==> !HasKey(r.positions[j], assetId, kind))
      && (forall x :: x in r.positions <==> x in p.positions && !HasKey(x, assetId, kind))
      && (UniqueKeys(p.positions) ==>
            var i := FindKey(p.positions, assetId, kind).value;
            r.positions == p.positions[..i] + p.positions[i + 1..])
  {
    var i := FindKey(p.positions, assetId, kind).value;
    FilterMembers(p.positions, (q: Position) => !HasKey(q, assetId, kind));
    if UniqueKeys(p.positions) {
      FilterRemovesOnlyMatch(p.positions, i, assetId, kind);
    }
  }

  lemma {:induction false} OpenKeepsWellFormed(ps: seq<Position>, x: Position)
    requires UniqueKeys(ps) && AllOpen(ps) && x.quantity > 0.0
    requires FindKey(ps, x.assetId, x.kind).None?
    ensures UniqueKeys(ps + [x]) && AllOpen(ps + [x])
  {
  }

  lemma {:induction false} UpdateKeepsWellFormed(ps: seq<Position>, i: nat, x: Position)
    requires UniqueKeys(ps) && AllOpen(ps) && x.quantity > 0.0
    requires i < |ps| && x.assetId == ps[i].assetId && x.kind == ps[i].kind
    ensures UniqueKeys(ps[i := x]) && AllOpen(ps[i := x])
  {
  }

  lemma {:induction false} RemoveKeepsWellFormed(ps: seq<Position>, i: nat)
    requires UniqueKeys(ps) && AllOpen(ps) && i < |ps|
    ensures UniqueKeys(ps[..i] + ps[i + 1..]) && AllOpen(ps[..i] + ps[i + 1..])
  {
    var r := ps[..i] + ps[i + 1..];
    assert forall j :: 0 <= j < |r| ==> r[j] == ps[if j < i then j else j + 1];
  }

  /** A trade that passes the quantity check keeps the ledger well formed: the
      positions stay open and unique per `(assetId, type)`. */
  lemma {:induction false} ExecutePreservesWellFormed(p: Portfolio, side: TradeType, assetId: string, symbol: string,
                                   quantity: real, price: real, kind: PositionType, leverage: real, now: int, id: string)
    requires WellFormed(p) && quantity > 0.0 && leverage != 0.0
    ensures Executable(p, side, assetId, kind, quantity, leverage)
    ensures WellFormed(ExecuteTrade(p, side, assetId, symbol, quantity, price, kind, leverage, now, id))
  {
    var ps := p.positions;
    match FindKey(ps, assetId, kind)
    case None =>
      if side == TradeType.Buy {
        BuyOpensPosition(p, assetId, symbol, quantity, price, kind, leverage, now, id);
        OpenKeepsWellFormed(ps, Opened(assetId, symbol, quantity, price, kind, leverage, now));
      }
    case Some(i) =>
      if side == TradeType.Buy {
        var merged := MergeBuy(ps[i], quantity, price);
        assert ExecuteTrade(p, side, assetId, symbol, quantity, price, kind, leverage, now, id).positions == ps[i := merged];
        UpdateKeepsWellFormed(ps, i, merged);
      } else if ps[i].quantity > quantity {
        SellReducesPosition(p, assetId, symbol, quantity, price, kind, leverage, now, id);
        UpdateKeepsWellFormed(ps, i, ps[i].(quantity := ps[i].quantity - quantity));
      } else {
        SellClosesPosition(p, assetId, symbol, quantity, price, kind, leverage, now, id);
        RemoveKeepsWellFormed(ps, i);
      }
  }

  // ---------------------------------------------------------------------------
  // Sequences of orders

  datatype Order = Order(side: TradeType, assetId: string, symbol: string, quantity: real, price: real,
                         kind: PositionType, leverage: real, time: int, id: string)

  /** What the feasibility check guarantees about every order it lets through. */
  predicate Valid(o: Order)
  {
    o.quantity > 0.0 && o.leverage != 0.0
  }

  function Execute(p: Portfolio, o: Order): (r: Portfolio)
    requires WellFormed(p) && Valid(o)
    ensures WellFormed(r)
  {
    ExecutePreservesWellFormed(p, o.side, o.assetId, o.symbol, o.quantity, o.price, o.kind, o.leverage, o.time, o.id);
    ExecuteTrade(p, o.side, o.assetId, o.symbol, o.quantity, o.price, o.kind, o.leverage, o.time, o.id)
  }

  /** Executes the orders one after the other from `p`. */
  function ApplyOrders(p: Portfolio, os: seq<Order>): (r: Portfolio)
    requires WellFormed(p) && forall k :: 0 <= k < |os| ==> Valid(os[k])
    ensures WellFormed(r)
    decreases |os|
  {
    if |os| == 0 then p else ApplyOrders(Execute(p, os[0]), os[1..])
  }

  /** Over any run of orders the trade log only grows at its end, by one
      record per order, and the maximum drawdown never decreases nor falls
      below the current one. */
  lemma {:induction false} OrdersKeepHistory(p: Portfolio, os: seq<Order>)
    requires WellFormed(p) && forall k :: 0 <= k < |os| ==> Valid(os[k])
    ensures var r := ApplyOrders(p, os);
      && |r.trades| == |p.trades| + |os|
      && r.trades[..|p.trades|] == p.trades
      && r.maxDrawdown >= p.maxDrawdown
      && r.startingBalance == p.startingBalance
      && (|os| > 0 ==> r.currentDrawdown >= 0.0 && r.maxDrawdown >= r.currentDrawdown)
    decreases |os|
  {
    if |os| > 0 {
      var q := Execute(p, os[0]);
      OrdersKeepHistory(q, os[1..]);
      var r := ApplyOrders(q, os[1..]);
      assert r.trades[..|p.trades|] == r.trades[..|q.trades|][..|p.trades|];
      if |os| > 1 {
        assert r.maxDrawdown >= r.currentDrawdown;
      }
    }
  }

  function Volume(os: seq<Order>): real
  {
    if |os| == 0 then 0.0 else os[0].quantity + Volume(os[1..])
  }

  function Notional(os: seq<Order>): real
  {
    if |os| == 0 then 0.0 else os[0].quantity * os[0].price + Notional(os[1..])
  }

  predicate BuysOn(os: seq<Order>, assetId: string, kind: PositionType)
  {
    forall k :: 0 <= k < |os| ==> os[k].side == TradeType.Buy && os[k].assetId == assetId && os[k].kind == kind
  }

  lemma {:induction false} FindKeyAfterUpdate(ps: seq<Position>, i: nat, x: Position)
    requires FindKey(ps, x.assetId, x.kind) == Some(i)
    ensures FindKey(ps[i := x], x.assetId, x.kind) == Some(i)
  {
    assert ps[i := x][i] == x;
  }

  lemma {:induction false} FindKeyAfterOpen(ps: seq<Position>, x: Position)
    requires FindKey(ps, x.assetId, x.kind).None?
    ensures FindKey(ps + [x], x.assetId, x.kind) == Some(|ps|)
  {
    assert (ps + [x])[|ps|] == x;
  }

  /** Quantity times average entry price: what a position has paid in. */
  function Cost(pos: Position): real
  {
    pos.quantity * pos.avgEntryPrice
  }

  /** Reference definition: the position that buying each order's quantity at
      its price into `pos`, one after the other, leaves. */
  function Accrue(pos: Position, os: seq<Order>): (r: Position)
    requires pos.quantity > 0.0 && forall k :: 0 <= k < |os| ==> os[k].quantity > 0.0
    ensures r.quantity > 0.0
    decreases |os|
  {
    if |os| == 0 then pos else Accrue(MergeBuy(pos, os[0].quantity, os[0].price), os[1..])
  }

  /** Accruing buys adds their volume to the quantity and their notional to the cost. */
  lemma {:induction false} AccrueTotals(pos: Position, os: seq<Order>)
    requires pos.quantity > 0.0 && forall k :: 0 <= k < |os| ==> os[k].quantity > 0.0
    ensures Accrue(pos, os).quantity == pos.quantity + Volume(os)
    ensures Cost(Accrue(pos, os)) == Cost(pos) + Notional(os)
    decreases |os|
  {
    if |os| > 0 {
      var merged := MergeBuy(pos, os[0].quantity, os[0].price);
      assert Cost(merged) == Cost(pos) + os[0].quantity * os[0].price;
      AccrueTotals(merged, os[1..]);
    }
  }

  /** Buys into an open position merge into it in place: its index does not
      move and it ends up as the reference accrual of the orders. */
  lemma {:induction false} BuysAccumulate(p: Portfolio, os: seq<Order>, assetId: string, kind: PositionType)
    requires WellFormed(p) && forall k :: 0 <= k < |os| ==> Valid(os[k])
    requires BuysOn(os, assetId, kind)
    requires FindKey(p.positions, assetId, kind).Some?
    ensures var i := FindKey(p.positions, assetId, kind).value;
      && FindKey(ApplyOrders(p, os).positions, assetId, kind) == Some(i)
      && ApplyOrders(p, os).positions[i] == Accrue(p.positions[i], os)
    decreases |os|
  {
    if |os| > 0 {
      var o := os[0];
      var q := Execute(p, o);
      var i := FindKey(p.positions, assetId, kind).value;
      var merged := MergeBuy(p.positions[i], o.quantity, o.price);
      assert q.positions == p.positions[i := merged];
      FindKeyAfterUpdate(p.positions, i, merged);
      BuysAccumulate(q, os[1..], assetId, kind);
    }
  }

  /** The volume-weighted average: after a run of buys on a key with no open
      position, the position holds the total bought volume, and its average
      entry price times its quantity is the total notional bought. */
  lemma {:induction false} BuysAverageIn(p: Portfolio, os: seq<Order>, assetId: string, kind: PositionType)
    requires WellFormed(p) && forall k :: 0 <= k < |os| ==> Valid(os[k])
    requires |os| > 0 && BuysOn(os, assetId, kind)
    requires FindKey(p.positions, assetId, kind).None?
    ensures var r := ApplyOrders(p, os);
      && FindKey(r.positions, assetId, kind) == Some(|p.positions|)
      && var pos := r.positions[|p.positions|];
      && pos.quantity == Volume(os)
      && Cost(pos) == Notional(os)
      && pos.avgEntryPrice == Notional(os) / Volume(os)
  {
    var o := os[0];
    assert forall k :: 0 <= k < |os| ==> os[k].quantity > 0.0;
    var acc := Accrue(Opened(assetId, o.symbol, o.quantity, o.price, kind, o.leverage, o.time), os[1..]);
    OpenedCost(assetId, o.symbol, o.quantity, o.price, kind, o.leverage, o.time);
    AccrueFromOpen(Opened(assetId, o.symbol, o.quantity, o.price, kind, o.leverage, o.time), os);
    AverageIsCostPerUnit(acc, Volume(os), Notional(os));
    BuysOpenThenAccrue(p, os, assetId, kind);
  }

  /** The first buy on a fresh key opens the position at the end of the list;
      the later ones accrue into it. */
  lemma {:induction false} BuysOpenThenAccrue(p: Portfolio, os: seq<Order>, assetId: string, kind: PositionType)
    requires WellFormed(p) && forall k :: 0 <= k < |os| ==> Valid(os[k])
    requires |os| > 0 && BuysOn(os, assetId, kind)
    requires FindKey(p.positions, assetId, kind).None?
    ensures var r := ApplyOrders(p, os);
      && FindKey(r.positions, assetId, kind) == Some(|p.positions|)
      && var o := os[0];
      && r.positions[|p.positions|] == Accrue(Opened(assetId, o.symbol, o.quantity, o.price, kind, o.leverage, o.time), os[1..])
  {
    var o := os[0];
    var q := Execute(p, o);
    var first := Opened(assetId, o.symbol, o.quantity, o.price, kind, o.leverage, o.time);
    assert q.positions == p.positions + [first];
    FindKeyAfterOpen(p.positions, first);
    BuysAccumulate(q, os[1..], assetId, kind);
    assert ApplyOrders(p, os) == ApplyOrders(q, os[1..]);
  }

  /** The arithmetic half of `BuysAverageIn`, on positions alone: a position
      opened by the first order and accrued by the rest holds the volume and
      the notional of all of them. */
  lemma {:induction false} AccrueFromOpen(first: Position, os: seq<Order>)
    requires |os| > 0 && forall k :: 0 <= k < |os| ==> os[k].quantity > 0.0
    requires first.quantity == os[0].quantity && Cost(first) == os[0].quantity * os[0].price
    ensures Accrue(first, os[1..]).quantity == Volume(os)
    ensures Cost(Accrue(first, os[1..])) == Notional(os)
  {
    AccrueTotals(first, os[1..]);
  }

  lemma OpenedCost(assetId: string, symbol: string, quantity: real, price: real, kind: PositionType, leverage: real, now: int)
    ensures Opened(assetId, symbol, quantity, price, kind, leverage, now).quantity == quantity
    ensures Cost(Opened(assetId, symbol, quantity, price, kind, leverage, now)) == quantity * price
  {
  }

  lemma AverageIsCostPerUnit(pos: Position, volume: real, notional: real)
    requires pos.quantity == volume && volume > 0.0 && Cost(pos) == notional
    ensures pos.avgEntryPrice == notional / volume
  {
  }
}
