/** Vocabulary shared by the whole expert advisor: the trading enumerations,
    the records exchanged with the broker, the input parameters and the
    band snapshot read from the Bollinger indicator. Prices are exact reals;
    bar open times are whole seconds. */
module Market {

  /** The value the indicator factory returns when it cannot create a handle. */
  const InvalidHandle: int := -1

  /** Number of values copied from each band line on every processed bar. */
  const BandDepth: nat := 3

  /** Side of an open position, as the broker reports it. */
  datatype PositionType = PositionBuy | PositionSell

  /** Direction of a market deal request. */
  datatype OrderType = OrderBuy | OrderSell

  /** The only trade action the advisor ever requests: an immediate market deal. */
  datatype TradeAction = TradeActionDeal

  /** The only filling policy the advisor ever requests: fill-or-kill. */
  datatype Filling = FillOrKill

  /** An open position held by the broker on the trading account: the account may
      carry positions of other instruments and of other strategies too. */
  datatype Position = Position(
    ticket: nat,
    symbol: string,
    magic: int,
    ptype: PositionType,
    volume: real)

  /** A trade request as filled in before submission. A request that the advisor
      leaves at its zero default (stop-loss and take-profit of a closing deal)
      carries 0.0 there. */
  datatype TradeRequest = TradeRequest(
    action: TradeAction,
    symbol: string,
    volume: real,
    otype: OrderType,
    price: real,
    sl: real,
    tp: real,
    deviation: int,
    magic: int,
    filling: Filling)

  /** Current best prices of the instrument. */
  datatype Quote = Quote(bid: real, ask: real)

  /** The advisor's input parameters. riskPercent is accepted and never read. */
  datatype Config = Config(
    bbPeriod: int,
    bbDeviation: real,
    lotSize: real,
    takeProfit: int,
    stopLoss: int,
    slippage: int,
    magicNumber: int,
    riskPercent: real)

  /** The three band lines as copied from the indicator; index 1 of each is the
      last fully closed bar. */
  datatype BandSnapshot = BandSnapshot(middle: seq<real>, upper: seq<real>, lower: seq<real>) {
    /** Every line delivered exactly BandDepth values. */
    predicate Complete() {
      |middle| == BandDepth && |upper| == BandDepth && |lower| == BandDepth
    }
  }

  /** The order type that opens a position of side t. */
  function OpeningOrderType(t: PositionType): (o: OrderType)
    ensures (o == OrderBuy) <==> (t == PositionBuy)
  {
    match t
    case PositionBuy => OrderBuy
    case PositionSell => OrderSell
  }

  /** The order type of the deal that offsets a position of side t. */
  function ClosingOrderType(t: PositionType): (o: OrderType)
    ensures o != OpeningOrderType(t)
  {
    match t
    case PositionBuy => OrderSell
    case PositionSell => OrderBuy
  }

  /** The side of the position an opening order of type o creates. */
  function OpenedPositionType(o: OrderType): (t: PositionType)
    ensures OpeningOrderType(t) == o
  {
    match o
    case OrderBuy => PositionBuy
    case OrderSell => PositionSell
  }

  /** The position an accepted opening deal adds to the account, under the
      broker-assigned ticket: the deal's instrument, magic number and volume,
      on the side its order type opens. */
  function NewPosition(req: TradeRequest, ticket: nat): (p: Position)
    ensures p.ticket == ticket && p.symbol == req.symbol && p.magic == req.magic && p.volume == req.volume
    ensures OpeningOrderType(p.ptype) == req.otype
  {
    Position(ticket, req.symbol, req.magic, OpenedPositionType(req.otype), req.volume)
  }
}
