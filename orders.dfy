/** How the advisor fills in the trade requests it submits: the opening deal
    with its protective levels, and the closing deal that offsets an existing
    position. */
module Orders {
  import opened Market

  /** A buy enters at the ask, a sell at the bid. */
  function EntryPrice(ot: OrderType, q: Quote): real
  {
    if ot == OrderBuy then q.ask else q.bid
  }

  /** The stop-loss lies stopLoss points against the trade. */
  function StopLossPrice(ot: OrderType, price: real, stopLoss: int, point: real): real
  {
    if ot == OrderBuy then price - stopLoss as real * point else price + stopLoss as real * point
  }

  /** The take-profit lies takeProfit points in favour of the trade. */
  function TakeProfitPrice(ot: OrderType, price: real, takeProfit: int, point: real): real
  {
    if ot == OrderBuy then price + takeProfit as real * point else price - takeProfit as real * point
  }

  /** The fill-or-kill market deal that opens a position of type ot. */
  function OpenRequest(ot: OrderType, q: Quote, symbol: string, point: real, cfg: Config): (r: TradeRequest)
    ensures r.action == TradeActionDeal && r.symbol == symbol && r.otype == ot
    ensures r.volume == cfg.lotSize && r.deviation == cfg.slippage
    ensures r.magic == cfg.magicNumber && r.filling == FillOrKill
  {
    var price := EntryPrice(ot, q);
    TradeRequest(TradeActionDeal, symbol, cfg.lotSize, ot, price,
                 StopLossPrice(ot, price, cfg.stopLoss, point),
                 TakeProfitPrice(ot, price, cfg.takeProfit, point),
                 cfg.slippage, cfg.magicNumber, FillOrKill)
  }

  /** The fill-or-kill market deal that offsets position p: the opposite
      direction, the position's whole volume, priced at the bid when a buy is
      closed and at the ask when a sell is closed. Stop-loss and take-profit
      stay at their zero default, and no ticket is attached. */
  function CloseRequest(p: Position, q: Quote, symbol: string, cfg: Config): (r: TradeRequest)
    ensures r.action == TradeActionDeal && r.symbol == symbol
    ensures r.otype == ClosingOrderType(p.ptype) && r.otype != OpeningOrderType(p.ptype)
    ensures r.volume == p.volume
    ensures r.price == (if p.ptype == PositionBuy then q.bid else q.ask)
    ensures r.sl == 0.0 && r.tp == 0.0
    ensures r.deviation == cfg.slippage && r.magic == cfg.magicNumber && r.filling == FillOrKill
  {
    var ot := if p.ptype == PositionBuy then OrderSell else OrderBuy;
    TradeRequest(TradeActionDeal, symbol, p.volume, ot,
                 if ot == OrderSell then q.bid else q.ask,
                 0.0, 0.0, cfg.slippage, cfg.magicNumber, FillOrKill)
  }

  /** With positive distances and a positive point size the protective levels
      bracket the entry: sl < price < tp for a buy at the ask, tp < price < sl
      for a sell at the bid, each exactly its configured number of points away. */
  lemma ProtectiveLevelsBracketEntry(ot: OrderType, q: Quote, symbol: string, point: real, cfg: Config)
    requires point > 0.0 && cfg.stopLoss > 0 && cfg.takeProfit > 0
    ensures var r := OpenRequest(ot, q, symbol, point, cfg);
            var d := cfg.stopLoss as real * point;
            var e := cfg.takeProfit as real * point;
            && (ot == OrderBuy ==> r.price == q.ask && r.sl < r.price < r.tp &&
                                   r.price - r.sl == d && r.tp - r.price == e)
            && (ot == OrderSell ==> r.price == q.bid && r.tp < r.price < r.sl &&
                                    r.sl - r.price == d && r.price - r.tp == e)
  {
  }

  /** With a point of 0.0001, a stop-loss of 10 points and a take-profit of 15,
      a buy at 1.2000 gets sl 1.1990 and tp 1.2015, a sell at 1.2000 gets sl
      1.2010 and tp 1.1985. */
  lemma LevelsExample(symbol: string, cfg: Config)
    requires cfg.stopLoss == 10 && cfg.takeProfit == 15
    ensures var buy := OpenRequest(OrderBuy, Quote(1.1998, 1.2000), symbol, 0.0001, cfg);
            buy.price == 1.2000 && buy.sl == 1.1990 && buy.tp == 1.2015
    ensures var sell := OpenRequest(OrderSell, Quote(1.2000, 1.2002), symbol, 0.0001, cfg);
            sell.price == 1.2000 && sell.sl == 1.2010 && sell.tp == 1.1985
  {
  }
}
