// The request handlers (internal/controllers/order.go, internal/controllers/balance.go):
// each runs the statements of one transaction and then syncs the book, and leaves the
// state that the step of the exchange specifies, or, on an error, the state it found.

module Controllers {
  import opened Models
  import opened Ledger
  import opened OrderBook
  import opened Matching
  import opened Coverage
  import opened Execution
  import opened Exchange
  import opened ReadTimes
  import opened Accounting
  import opened Requests
  import opened Store
  import opened Engine

  // The execution of an order reads no more of the state than the markets, the trades and
  // the book.
  lemma ExecuteReads(mode: ReadMode, times: TimeRead, s: State, t: State, f: Funds, orders: map<OrderId, Order>,
                     stamps: set<Stamp>, o: Order, pair: Pair)
    requires LiveBook(s.book) && t.markets == s.markets && t.trades == s.trades && t.book == s.book
    ensures Execute(mode, times, t, f, orders, stamps, o, pair) == Execute(mode, times, s, f, orders, stamps, o, pair)
  {
  }

  class Handlers {
    const markets: Markets
    const balances: Balances
    const db: OrderTable
    const rdb: RedisBook
    const engine: MatchingEngine

    constructor (markets: Markets, balances: Balances, db: OrderTable, rdb: RedisBook)
      ensures Wired()
      ensures Contents() == State(markets, balances.Contents(), db.orders, db.stamps, db.trades, rdb.Contents())
    {
      this.markets, this.balances, this.db, this.rdb := markets, balances, db, rdb;
      engine := new MatchingEngine(rdb, db, balances);
    }

    predicate Wired() {
      engine.rdb == rdb && engine.db == db && engine.balances == balances
    }

    function Contents(): State
      reads balances, db, rdb
    {
      State(markets, balances.Contents(), db.orders, db.stamps, db.trades, rdb.Contents())
    }

    // What the transaction would have to restore.
    function Begin(): (map<Slot, Account>, map<OrderId, Order>, set<Stamp>, seq<Trade>)
      reads balances, db
    {
      (balances.rows, db.orders, db.stamps, db.trades)
    }

    method Rollback(saved: (map<Slot, Account>, map<OrderId, Order>, set<Stamp>, seq<Trade>))
      modifies balances, db
      ensures Begin() == saved
    {
      balances.rows := saved.0;
      db.orders, db.stamps, db.trades := saved.1, saved.2, saved.3;
    }

    // A step that went through, or that failed and left everything as it was.
    twostate predicate Stepped(spec: Result<State>, r: Outcome)
      reads balances, db, rdb
    {
      match spec
      case Ok(t) => r == Pass && Contents() == t
      case Err(e) => r == Fail(e) && Contents() == old(Contents())
    }

    // The checks before the transaction: what the request is taken to be, and what it
    // has to lock.
    method CheckRequest(request: Request) returns (r: Result<Charge>)
      ensures r == Checked(markets, request)
      ensures match Refused(markets, request)
              case Some(e) => r == Err(e)
              case None =>
                && r.Ok? && r.value.amount == FundsAsked(request)
                && r.value.req == request.(price := PriceAsked(request), quantity := QuantityAsked(request))
                && var market := markets[request.marketId];
                   r.value.asset == if request.side == Buy then market.quote else market.base
    {
      AskedIs(request);
      if request.marketId == "" || request.base == "" || request.quote == "" { return Err(BadRequest); }
      if request.kind == Limit && (request.price == 0.0 || request.quantity == 0.0) { return Err(BadRequest); }
      var req := request;
      if req.amount != 0.0 { req := req.(price := req.amount); }
      if req.kind == Market && req.side == Buy { req := req.(quantity := MARKET_BUY_QUANTITY, price := req.amount); }
      assert req == Effective(request);
      if req.marketId !in markets || !markets[req.marketId].active { return Err(InvalidMarket); }
      var market := markets[req.marketId];
      if req.side == Buy {
        var amount := if req.kind == Market then req.amount else req.price * req.quantity;
        assert amount == LockAmount(Effective(request));
        if amount <= 0.0 { return Err(InvalidCost); }
        r := Ok(Charge(req, market.quote, amount));
      } else {
        r := Ok(Charge(req, market.base, req.quantity));
      }
    }

    method CreateOrder(mode: ReadMode, times: TimeRead, userId: UserId, request: Request, id: OrderId, now: int)
      returns (r: Outcome)
      requires Wired() && Consistent(Contents()) && LiveBook(rdb.Contents())
      modifies balances, db, rdb
      ensures Stepped(old(Create(mode, times, Contents(), userId, request, id, now)), r)
    {
      var checked := CheckRequest(request);
      if checked.Err? { return Fail(checked.error); }
      r := OpenOrder(mode, times, userId, checked.value, Pair(request.base, request.quote), id, now);
    }

    method OpenOrder(mode: ReadMode, times: TimeRead, userId: UserId, charge: Charge, pair: Pair, id: OrderId, now: int)
      returns (r: Outcome)
      requires Wired() && Consistent(Contents()) && LiveBook(rdb.Contents())
      modifies balances, db, rdb
      ensures Stepped(old(Transact(mode, times, Contents(), userId, charge, pair, id, now)), r)
    {
      var saved := Begin();
      r := balances.LockBalanceTx(userId, charge.asset, charge.amount);
      if r != Pass { return; }
      var order := db.CreateOrderTx(balances, userId, charge.req, id, now);
      if order.Err? { Rollback(saved); return Fail(order.error); }
      ExecuteReads(mode, times, old(Contents()), Contents(), balances.Contents(), db.orders, db.stamps, order.value,
                   pair);
      r := ExecuteOrder(mode, times, order.value, pair, old(Stored(Contents()).orders));
      if r != Pass { Rollback(saved); }
    }

    // The rest of the transaction, and the sync after its commit.
    method ExecuteOrder(mode: ReadMode, times: TimeRead, order: Order, pair: Pair, ghost orders: map<OrderId, Order>)
      returns (r: Outcome)
      requires Wired() && order.filled == 0.0 && order.quantity >= 0.0 && order.price >= 0.0
      requires Agrees(orders, rdb.Contents()) && LiveBook(rdb.Contents())
      modifies balances, db, rdb
      ensures match old(Execute(mode, times, Contents(), balances.Contents(), db.orders, db.stamps, order, pair))
              case Ok(t) => r == Pass && Contents() == t
              case Err(e) => r == Fail(e) && rdb.Contents() == old(rdb.Contents())
    {
      var result := MatchOrder(mode, times, order, pair, orders);
      ghost var view := AllAsRead(times, Levels(rdb.Contents(), OppositeKey(order)));
      SameEffectApplies(engine.Contents(), rdb.Contents(), result, Match(mode, order, view, pair), pair);
      r := engine.ApplyOrderResultToDBTx(result, pair);
      if r != Pass { return; }
      engine.ApplyOrderResultToRedis(result);
    }

    method MatchOrder(mode: ReadMode, times: TimeRead, order: Order, pair: Pair, ghost orders: map<OrderId, Order>)
      returns (result: OrderResult)
      requires Wired() && order.filled == 0.0 && order.quantity >= 0.0 && order.price >= 0.0
      requires Agrees(orders, rdb.Contents()) && LiveBook(rdb.Contents())
      ensures var view := old(AllAsRead(times, Levels(rdb.Contents(), OppositeKey(order))));
        Live(view) && SameEffect(result, Match(mode, order, view, pair))
    {
      if order.kind == Market {
        result := engine.MatchMarketOrders(mode, times, order, pair, orders);
      } else {
        result := engine.MatchLimitOrders(mode, times, order, pair, orders);
      }
    }

    method CancelOrder(id: OrderId) returns (r: Outcome)
      requires Wired()
      modifies balances, db, rdb
      ensures Stepped(old(Cancel(Contents(), id)), r)
    {
      var saved := Begin();
      var row := db.UpdateOrderStatusTx(markets, id, Cancelled);
      if row.Err? { return Fail(row.error); }
      var order := row.value;
      var amount := CancelAmount(order);
      if order.side == Sell {
        r := balances.UnlockTx(Holding(order.userId, markets[order.marketId].base), amount);
      } else {
        r := balances.UnlockTx(Cash(order.userId), amount);
      }
      if r != Pass { Rollback(saved); return; }
      rdb.UpdateOrderInRedis(order);
    }

    method Deposit(userId: UserId, asset: Asset, amount: real) returns (r: Outcome)
      requires Wired()
      modifies balances
      ensures Stepped(old(Exchange.Deposit(Contents(), userId, asset, amount)), r)
    {
      if amount <= 0.0 { return Fail(BadRequest); }
      if asset == USD {
        balances.CreditUSDTx(userId, amount);
        r := Pass;
      } else {
        r := balances.CreditBalanceTx(userId, asset, amount);
      }
    }
  }
}
