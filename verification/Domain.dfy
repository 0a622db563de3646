/** The entities the components of the bot exchange. */
module Domain {

  datatype Option<+T> = None | Some(value: T)

  datatype Side = Long | Short

  datatype OrderSide = Buy | Sell

  datatype OrderType = Market | Limit | StopMarket | TakeProfitMarket

  datatype OrderStatus = Pending | Filled | Cancelled | Rejected

  /** The broker's string identifier of an order: "paper-n" and "paper-db-n" are the ones it makes itself. */
  datatype OrderKey = Blank | Paper(n: int) | PaperDb(n: int) | Named(text: string)

  datatype Order = Order(
    id: int,
    key: OrderKey,
    symbol: string,
    side: OrderSide,
    orderType: OrderType,
    qty: real,
    price: Option<real>,
    stopPrice: Option<real>,
    status: OrderStatus,
    intendedSL: real,
    intendedTP: real)

  datatype Position = Position(
    id: int,
    symbol: string,
    side: Side,
    entryPrice: real,
    size: real,
    leverage: real,
    margin: real,
    stopLoss: real,
    takeProfit: real,
    slOrderID: Option<int>,
    tpOrderID: Option<int>,
    realizedPnL: real,
    open: bool)

  datatype OrderRequest = OrderRequest(
    symbol: string,
    side: OrderSide,
    orderType: OrderType,
    qty: real,
    price: Option<real>,
    stopPrice: Option<real>,
    reduceOnly: bool,
    stopLoss: real,
    takeProfit: real)

  datatype Candle = Candle(symbol: string, openTime: int, open: real, high: real, low: real, close: real, volume: real)

  datatype PaperConfig = PaperConfig(
    startingBalance: real,
    feeMakerBps: real,
    feeTakerBps: real,
    slippageBps: real,
    leverage: real)
  {
    /** What the configuration loader insists on. */
    predicate Valid() {
      startingBalance > 0.0 && feeMakerBps >= 0.0 && feeTakerBps >= 0.0 && slippageBps >= 0.0 && leverage > 0.0
    }
  }

  type ValidConfig = c: PaperConfig | c.Valid() witness PaperConfig(1.0, 0.0, 0.0, 0.0, 1.0)
}
