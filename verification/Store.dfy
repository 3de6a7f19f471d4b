// The order and trade tables and the statements on them (db/queries/order.go,
// db/queries/trades.go).

module Store {
  import opened Models
  import opened Ledger
  import opened Settlement
  import opened Coverage
  import opened Exchange

  class OrderTable {
    var orders: map<OrderId, Order>
    var stamps: set<Stamp>
    var trades: seq<Trade>

    constructor (orders: map<OrderId, Order>, stamps: set<Stamp>, trades: seq<Trade>)
      ensures this.orders == orders && this.stamps == stamps && this.trades == trades
    {
      this.orders, this.stamps, this.trades := orders, stamps, trades;
    }

    // INSERT .. RETURNING. The id and the creation time, in microseconds, are the database's.
    method CreateOrderTx(users: Balances, userId: UserId, req: Request, id: OrderId, now: int)
      returns (r: Result<Order>)
      modifies this`orders, this`stamps
      ensures match old(InsertOrder(users.Contents(), orders, NewOrder(req, userId, id, now)))
              case Err(e) => orders == old(orders) && stamps == old(stamps) && r == Err(e)
              case Ok(rows) =>
                match old(InsertStamp(stamps, NewOrder(req, userId, id, now), now))
                case Err(e) => orders == old(orders) && stamps == old(stamps) && r == Err(e)
                case Ok(marks) => orders == rows && stamps == marks && r == Ok(NewOrder(req, userId, id, now))
    {
      var o := Order(id, userId, req.marketId, req.kind, req.side, req.price, req.quantity, Pending, Millis(now), 0.0);
      if req.quantity <= 0.0 || req.price < 0.0 { return Err(CheckViolation); }
      if id in orders { return Err(DuplicateKey); }
      if Cash(userId) !in users.rows { return Err(ForeignKey); }
      var stamp := Stamp(userId, req.marketId, now);
      if stamp in stamps { return Err(DuplicateKey); }
      orders, stamps := orders[id := o], stamps + {stamp};
      r := Ok(o);
    }

    // UPDATE .. FROM markets .. RETURNING: whatever the status was before.
    method UpdateOrderStatusTx(markets: Markets, id: OrderId, status: Status) returns (r: Result<Order>)
      modifies this`orders
      ensures if id in old(orders) && old(orders)[id].marketId in markets
              then r == Ok(old(orders)[id].(status := status)) && orders == old(orders)[id := r.value]
              else r == Err(NoRows) && orders == old(orders)
    {
      if id !in orders || orders[id].marketId !in markets { return Err(NoRows); }
      orders := orders[id := orders[id].(status := status)];
      r := Ok(orders[id]);
    }

    method UpdateOrderStatusAndQuantityTx(order: Order)
      modifies this`orders
      ensures orders == UpdateRow(old(orders), order)
    {
      if order.id in orders {
        orders := orders[order.id := orders[order.id].(status := order.status, filled := order.filled)];
      }
    }

    method InsertTradeTx(assets: set<Asset>, trade: Trade) returns (r: Result<Trade>)
      modifies this`trades
      ensures r == InsertTrade(assets, orders, trade)
      ensures trades == if r.Ok? then old(trades) + [r.value] else old(trades)
    {
      if trade.quantity <= 0.0 || trade.price <= 0.0 { return Err(CheckViolation); }
      if trade.buyOrderId !in orders || trade.sellOrderId !in orders { return Err(ForeignKey); }
      if trade.base !in assets || trade.quote !in assets { return Err(ForeignKey); }
      var joined := trade.(buyer := orders[trade.buyOrderId].userId, seller := orders[trade.sellOrderId].userId);
      trades := trades + [joined];
      r := Ok(joined);
    }
  }
}
