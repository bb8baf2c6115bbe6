/** The vocabulary shared by strategies, the risk gate and the ledgers. */
module Types {

  datatype Option<+T> = None | Some(value: T)

  datatype Side = BUY | SELL

  datatype OrderType = MARKET | LIMIT | STOP | STOP_LIMIT | BRACKET

  /** An instant together with the Central-time minute of the day it falls in. */
  datatype Timestamp = Timestamp(instant: int, ctMinute: nat)

  datatype Bar = Bar(symbol: string, open: real, high: real, low: real, close: real, volume: int, timestamp: Timestamp)

  datatype Bracket = Bracket(stopLossTicks: int, takeProfitTicks: int)

  /** The parts of a client order id, before they are rendered as text. */
  datatype OrderId = OrderId(origin: string, day: int, number: nat, tag: string)

  datatype OrderIntent = OrderIntent(
    symbol: string,
    side: Side,
    quantity: int,
    orderType: OrderType,
    clientOrderId: OrderId,
    timestamp: Timestamp,
    limitPrice: Option<real>,
    stopPrice: Option<real>,
    bracket: Option<Bracket>)
  {
    function SignedQty(): int {
      if side == BUY then quantity else -quantity
    }

    /** True iff applying this intent would grow the absolute position on its symbol. */
    predicate IncreasesExposure(openPositions: map<string, int>) {
      var current := Held(openPositions, symbol);
      Abs(current + SignedQty()) > Abs(current)
    }

    predicate MarketOrLimitOpen() {
      orderType == MARKET || orderType == LIMIT || orderType == BRACKET
    }

    function WithStop(ticks: int): OrderIntent
      requires bracket.Some?
    {
      this.(bracket := Some(bracket.value.(stopLossTicks := ticks)))
    }
  }

  datatype OrderStatus = PENDING | FILLED | CANCELED

  datatype OrderEvent = OrderEvent(
    clientOrderId: OrderId, brokerOrderId: nat, status: OrderStatus,
    filledQuantity: int, avgFillPrice: Option<real>, timestamp: Timestamp)

  datatype AccountState = AccountState(
    equity: real,
    realizedToday: real,
    unrealized: real,
    openPositions: map<string, int>,
    highWater: real,
    isCombine: bool,
    timestamp: Timestamp,
    isLocked: bool,
    lockPoint: Option<real>,
    startBalance: real)

  function Opposite(side: Side): Side {
    if side == BUY then SELL else BUY
  }

  function Abs(x: int): (r: int)
    ensures r >= 0 && (r == x || r == -x)
  {
    if x < 0 then -x else x
  }

  function Max(x: real, y: real): real {
    if x < y then y else x
  }

  function Min(x: real, y: real): real {
    if y < x then y else x
  }

  /** `dict.get(symbol, 0)` on a position book. */
  function Held(positions: map<string, int>, symbol: string): int {
    if symbol in positions then positions[symbol] else 0
  }

  /** Python's `int(x)` on a float: truncation toward zero. */
  function Truncate(x: real): (r: int)
    ensures -1.0 < r as real - x < 1.0
    ensures if x >= 0.0 then 0.0 <= r as real <= x else x <= r as real <= 0.0
  {
    if x >= 0.0 then x.Floor else -((-x).Floor)
  }

  /** Python's `round(x)`: to the nearest integer, ties to the even one. */
  function RoundHalfEven(x: real): (r: int)
    ensures -0.5 <= r as real - x <= 0.5
    ensures r as real - x == 0.5 || r as real - x == -0.5 ==> r % 2 == 0
  {
    var down := x.Floor;
    var fraction := x - down as real;
    if fraction < 0.5 then down
    else if fraction > 0.5 then down + 1
    else if down % 2 == 0 then down
    else down + 1
  }
}
