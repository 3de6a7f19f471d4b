// The entities of the exchange: orders, trades, markets and requests, as the
// rows of the order tables and the fields of the request body describe them.

module Models {

  type UserId = string
  type MarketId = string
  type Asset = string

  // Order ids are UUIDs. Only equality and the byte order of their text are ever
  // used (Redis breaks score ties by member), so a natural number stands for the
  // place of the text in that order.
  type OrderId = nat

  const USD: Asset := "USD"

  datatype Side = Buy | Sell

  datatype Kind = Limit | Market

  datatype Status = Open | Filled | PartiallyFilled | Cancelled | Closed | Pending

  datatype Order = Order(
    id: OrderId,
    userId: UserId,
    marketId: MarketId,
    kind: Kind,
    side: Side,
    price: real,
    quantity: real,
    status: Status,
    createdAt: int,
    filled: real)
  {
    function Remaining(): real { quantity - filled }

    predicate Resting() { status == Open || status == PartiallyFilled }
  }

  // The buyer and the seller are known only once the trade has been inserted
  // and joined with the order rows; the matching loops leave them empty.
  datatype Trade = Trade(
    buyOrderId: OrderId,
    sellOrderId: OrderId,
    price: real,
    quantity: real,
    base: Asset,
    quote: Asset,
    buyer: UserId,
    seller: UserId)

  // What the unique index over the order table holds of a row. The database keeps the
  // time of an insert in microseconds; everything else uses its milliseconds.
  datatype Stamp = Stamp(userId: UserId, marketId: MarketId, at: int)

  function Millis(at: int): int { at / 1000 }

  datatype MarketRow = MarketRow(base: Asset, quote: Asset, active: bool)

  datatype Request = Request(
    marketId: MarketId,
    kind: Kind,
    side: Side,
    price: real,
    quantity: real,
    base: Asset,
    quote: Asset,
    amount: real)

  // NoRows is what the store answers for a missing row and for a failed balance
  // guard alike; CheckViolation, ForeignKey and DuplicateKey are schema constraints.
  datatype Error =
    | BadRequest
    | InvalidMarket
    | InvalidCost
    | NoRows
    | CheckViolation
    | ForeignKey
    | DuplicateKey

  datatype Outcome = Pass | Fail(error: Error)

  datatype Option<+T> = None | Some(value: T)

  datatype Result<+T> = Ok(value: T) | Err(error: Error)
  {
    predicate IsFailure() { Err? }

    function PropagateFailure<U>(): Result<U>
      requires Err?
    {
      Err(error)
    }

    function Extract(): T
      requires Ok?
    {
      value
    }
  }

  function Min(x: real, y: real): real { if x < y then x else y }

  // Two rows that differ at most in the columns an update may touch.
  predicate SameCore(a: Order, b: Order) {
    a == b.(status := a.status, filled := a.filled)
  }
}
