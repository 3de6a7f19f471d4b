// The exchange as a state machine: creating an order, cancelling one, depositing
// (internal/controllers/order.go, internal/controllers/balance.go). Every step is
// one transaction over the tables followed by the sync of the book; a step that
// fails leaves the state as it was.

module Exchange {
  import opened Models
  import opened Ledger
  import opened OrderBook
  import opened Matching
  import opened Settlement
  import opened Coverage

  datatype State = State(
    markets: Markets,
    funds: Funds,
    orders: map<OrderId, Order>,
    stamps: set<Stamp>,
    trades: seq<Trade>,
    book: Book)

  datatype Op =
    | CreateOp(user: UserId, req: Request, id: OrderId, now: int)
    | CancelOp(target: OrderId)
    | DepositOp(owner: UserId, asset: Asset, amount: real)

  const MARKET_BUY_QUANTITY: real := 100000.0

  // --- Creating an order --------------------------------------------------------

  // The binding rules: required fields are those that are not zero and not empty.
  predicate Bound(req: Request) {
    && req.marketId != "" && req.base != "" && req.quote != ""
    && (req.kind == Limit ==> req.price != 0.0 && req.quantity != 0.0)
  }

  // A non-zero amount replaces the price, of limit orders too; a market buy gets a
  // nominal quantity and always has the amount for its price.
  function Effective(req: Request): Request {
    if req.kind == Market && req.side == Buy then req.(quantity := MARKET_BUY_QUANTITY, price := req.amount)
    else if req.amount != 0.0 then req.(price := req.amount)
    else req
  }

  function LockAmount(r: Request): real {
    if r.side == Sell then r.quantity
    else if r.kind == Market then r.amount
    else r.price * r.quantity
  }

  function LockAsset(m: MarketRow, side: Side): Asset { if side == Buy then m.quote else m.base }

  function NewOrder(r: Request, user: UserId, id: OrderId, now: int): Order {
    Order(id, user, r.marketId, r.kind, r.side, r.price, r.quantity, Pending, Millis(now), 0.0)
  }

  function InsertOrder(f: Funds, orders: map<OrderId, Order>, o: Order): Result<map<OrderId, Order>> {
    if o.quantity <= 0.0 || o.price < 0.0 then Err(CheckViolation)
    else if o.id in orders then Err(DuplicateKey)
    else if Cash(o.userId) !in f.rows then Err(ForeignKey)
    else Ok(orders[o.id := o])
  }

  // UNIQUE (user_id, market_id, created_at)
  function InsertStamp(stamps: set<Stamp>, o: Order, now: int): Result<set<Stamp>> {
    var stamp := Stamp(o.userId, o.marketId, now);
    if stamp in stamps then Err(DuplicateKey) else Ok(stamps + {stamp})
  }

  function OppositeKey(o: Order): BookKey { BookKey(o.marketId, Opposite(o.side)) }

  // A checked request: its effective form, and what to lock for it.
  datatype Charge = Charge(req: Request, asset: Asset, amount: real)

  function Checked(markets: Markets, request: Request): Result<Charge> {
    var r := Effective(request);
    if !Bound(request) then Err(BadRequest)
    else if r.marketId !in markets || !markets[r.marketId].active then Err(InvalidMarket)
    else if r.side == Buy && LockAmount(r) <= 0.0 then Err(InvalidCost)
    else Ok(Charge(r, LockAsset(markets[r.marketId], r.side), LockAmount(r)))
  }

  // An order whose funds are locked and whose row is inserted: matched, settled, synced.
  function Execute(mode: ReadMode, times: TimeRead, s: State, funds: Funds, orders: map<OrderId, Order>,
                   stamps: set<Stamp>, o: Order, pair: Pair): Result<State>
    requires LiveBook(s.book)
  {
    var result := Match(mode, o, AllAsRead(times, Levels(s.book, OppositeKey(o))), pair);
    var db :- ApplyToTables(Tables(funds, orders, s.trades), result, pair);
    Ok(State(s.markets, db.funds, db.orders, stamps, db.trades, ApplyToBook(s.book, result)))
  }

  function Transact(mode: ReadMode, times: TimeRead, s: State, user: UserId, charge: Charge, pair: Pair, id: OrderId,
                    now: int): Result<State>
    requires LiveBook(s.book)
  {
    var funds :- LockBalance(s.funds, user, charge.asset, charge.amount);
    var o := NewOrder(charge.req, user, id, now);
    var orders :- InsertOrder(funds, s.orders, o);
    var stamps :- InsertStamp(s.stamps, o, now);
    Execute(mode, times, s, funds, orders, stamps, o, pair)
  }

  // The checks, the transaction, and the sync after its commit.
  function Create(mode: ReadMode, times: TimeRead, s: State, user: UserId, req: Request, id: OrderId,
                  now: int): Result<State>
    requires LiveBook(s.book)
  {
    var charge :- Checked(s.markets, req);
    Transact(mode, times, s, user, charge, Pair(req.base, req.quote), id, now)
  }

  // The order a request would make, and the levels it would meet.
  function OrderOf(user: UserId, req: Request, id: OrderId, now: int): Order { NewOrder(Effective(req), user, id, now) }

  function LevelsFor(s: State, user: UserId, req: Request, id: OrderId, now: int): seq<Order> {
    Levels(s.book, OppositeKey(OrderOf(user, req, id, now)))
  }

  // --- Cancelling and depositing --------------------------------------------------

  // The update of the status has no guard on the status it replaces.
  function Cancel(s: State, id: OrderId): Result<State> {
    if id !in s.orders || s.orders[id].marketId !in s.markets then Err(NoRows)
    else
      var o := s.orders[id].(status := Cancelled);
      var funds :- Unlock(s.funds, CancelSlot(s.markets, o), CancelAmount(o));
      Ok(s.(funds := funds, orders := s.orders[id := o], book := Update(s.book, o)))
  }

  function CancelSlot(markets: Markets, o: Order): Slot
    requires o.marketId in markets
  {
    if o.side == Sell then Holding(o.userId, markets[o.marketId].base) else Cash(o.userId)
  }

  function CancelAmount(o: Order): real {
    if o.side == Sell then o.Remaining() else o.price * o.Remaining()
  }

  function Deposit(s: State, user: UserId, asset: Asset, amount: real): Result<State> {
    if amount <= 0.0 then Err(BadRequest)
    else if asset == USD then Ok(s.(funds := CreditUSD(s.funds, user, amount)))
    else
      var funds :- CreditBalance(s.funds, user, asset, amount);
      Ok(s.(funds := funds))
  }

  function Perform(mode: ReadMode, times: TimeRead, s: State, op: Op): Result<State>
    requires LiveBook(s.book)
  {
    match op
    case CreateOp(user, req, id, now) => Create(mode, times, s, user, req, id, now)
    case CancelOp(id) => Cancel(s, id)
    case DepositOp(user, asset, amount) => Deposit(s, user, asset, amount)
  }

  function Step(mode: ReadMode, times: TimeRead, s: State, op: Op): State
    requires LiveBook(s.book)
  {
    match Perform(mode, times, s, op)
    case Ok(t) => t
    case Err(_) => s
  }

  // --- What holds in every state, whichever way the book is read --------------------

  ghost predicate LiveBook(b: Book) {
    forall key :: Live(Levels(b, key))
  }

  // A row as the schema and the matching loops leave it. The status of a limit order
  // is the one its fill determines, unless it has been cancelled.
  predicate RowOk(markets: Markets, id: OrderId, o: Order) {
    && o.id == id && o.marketId in markets
    && o.quantity > 0.0 && o.price >= 0.0 && o.filled >= 0.0
    && match o.kind
       case Limit => o.price > 0.0 && o.filled <= o.quantity && (o.status == Cancelled || o.status == LimitStatus(o))
       case Market => (o.status == Filled || o.status == Cancelled) && (o.side == Sell ==> o.filled <= o.quantity)
  }

  // A trade row joins a buy and a sell, and honours the limits of both.
  predicate TradeOk(orders: map<OrderId, Order>, t: Trade) {
    && t.quantity > 0.0 && t.price > 0.0
    && t.buyOrderId in orders && t.sellOrderId in orders
    && var buy, sell := orders[t.buyOrderId], orders[t.sellOrderId];
    && buy.side == Buy && sell.side == Sell
    && t.buyer == buy.userId && t.seller == sell.userId
    && (buy.kind == Limit ==> t.price <= buy.price)
    && (sell.kind == Limit ==> t.price >= sell.price)
  }

  ghost predicate Valid(s: State) {
    && Sound(s.funds)
    && UsersKnown(s.funds, s.orders)
    && (forall id :: id in s.orders ==> RowOk(s.markets, id, s.orders[id]))
    && (forall t :: t in s.trades ==> TradeOk(s.orders, t))
    && Agrees(s.orders, s.book)
  }

  lemma ValidIsLive(s: State)
    requires Valid(s)
    ensures LiveBook(s.book) && RestingRows(s.orders)
  {
    forall key ensures Live(Levels(s.book, key)) {
      LevelsAreListing(s.orders, s.book, key);
    }
  }

  // --- What a match leaves behind ----------------------------------------------------

  // The incoming order at the end of a match, in one statement for all its kinds.
  lemma MatchFacts(mode: ReadMode, o: Order, view: seq<Order>, pair: Pair)
    requires Live(view) && o.filled == 0.0 && o.quantity > 0.0 && o.price >= 0.0
    ensures var r := Match(mode, o, view, pair);
      var i := r.incoming;
      && Sweeps(mode, TakerOf(o), view, r.updated, r.trades, pair)
      && Live(r.rest)
      && i == o.(filled := Volume(r.trades), status := i.status, price := i.price, quantity := i.quantity)
      && (!(o.kind == Market && o.side == Buy) ==>
          i.price == o.price && i.quantity == o.quantity && i.filled <= o.quantity)
      && (o.kind == Market && o.side == Buy ==> i.price == o.price - Cost(r.trades) && i.price >= 0.0)
      && (o.kind == Limit ==> i.status == LimitStatus(i))
      && (o.kind == Market ==>
            i.status == if i.filled == (if o.side == Sell then o.quantity else 1000000000000000000.0) then Filled
                        else Cancelled)
      && (o.kind == Limit && i.status != Filled ==> r.rest == [] || !Crosses(o, r.rest[0]))
  {
    if o.kind == Market && o.side == Buy {
      BudgetFacts(mode, o.(quantity := INFINITE_QUANTITY), view, pair);
    } else {
      QuantityFacts(mode, o, view, pair);
    }
  }

  // A level after one or more fills.
  predicate IsBump(level: Order, row: Order) {
    && SameCore(level, row)
    && level.filled < row.filled <= level.quantity
    && row.status == (if row.filled == row.quantity then Filled else PartiallyFilled)
  }

  ghost predicate Bumped(view: seq<Order>, row: Order) {
    exists i :: 0 <= i < |view| && IsBump(view[i], row)
  }

  // The levels are rows of the table up to their fill.
  ghost predicate CoreView(orders: map<OrderId, Order>, view: seq<Order>, incoming: OrderId) {
    forall i :: 0 <= i < |view| ==>
      view[i].id in orders && view[i].id != incoming && SameCore(orders[view[i].id], view[i])
  }

  lemma UpdateLevelsHead(b: Book, updated: seq<Order>, incoming: OrderId)
    requires |updated| >= 2 && updated[0].id == incoming && updated[1].id != incoming
    ensures UpdateLevels(b, updated, incoming) == UpdateLevels(Update(b, updated[1]), updated[2..], incoming)
  {
    assert updated[1..][0] == updated[1] && updated[1..][1..] == updated[2..];
  }

  // The first update of a sweep: the row and the book entry of the first level.
  lemma FirstUpdate(mode: ReadMode, taker: Taker, view: seq<Order>, updated: seq<Order>, trades: seq<Trade>, pair: Pair,
                    orders: map<OrderId, Order>, book: Book)
    returns (hit: Order, next: map<OrderId, Order>, tail: seq<Order>)
    requires trades != [] && Sweeps(mode, taker, view, updated, trades, pair)
    requires CoreView(orders, view, taker.id) && Agrees(orders, book)
    ensures view != [] && IsBump(view[0], hit) && next == orders[hit.id := hit] && hit.id in orders
    ensures tail == if mode == Stale then view else view[1..]
    ensures |updated| >= 2 && Sweeps(mode, taker, tail, updated[2..], trades[1..], pair)
    ensures UpdateRows(orders, updated, taker.id) == UpdateRows(next, updated[2..], taker.id)
    ensures UpdateLevels(book, updated, taker.id) == UpdateLevels(Update(book, hit), updated[2..], taker.id)
    ensures CoreView(next, tail, taker.id) && Agrees(next, Update(book, hit))
  {
    hit := updated[1];
    next := orders[hit.id := hit];
    tail := if mode == Stale then view else view[1..];
    UpdateRowsHead(orders, updated, taker.id);
    UpdateLevelsHead(book, updated, taker.id);
    if Done(hit) { RemoveAgrees(orders, book, hit); } else { InsertAgrees(orders, book, hit); }
  }

  lemma BumpedByTail(mode: ReadMode, view: seq<Order>, row: Order)
    requires view != [] && Bumped(if mode == Stale then view else view[1..], row)
    ensures Bumped(view, row)
  {
    if mode == Fresh {
      var i :| 0 <= i < |view| - 1 && IsBump(view[1..][i], row);
      assert IsBump(view[i + 1], row);
    }
  }

  // Only rows of levels move in a sweep, and they only gain.
  lemma {:induction false} RowsOfSweep(mode: ReadMode, taker: Taker, view: seq<Order>, updated: seq<Order>,
                                       trades: seq<Trade>, pair: Pair, orders: map<OrderId, Order>)
    requires Sweeps(mode, taker, view, updated, trades, pair) && CoreView(orders, view, taker.id) && Keyed(orders)
    ensures var rows := UpdateRows(orders, updated, taker.id);
      && rows.Keys == orders.Keys && Keyed(rows)
      && forall id :: id in orders ==> rows[id] == orders[id] || Bumped(view, rows[id])
    decreases |trades|
  {
    if trades != [] {
      var hit := updated[1];
      var next := orders[hit.id := hit];
      var tail := if mode == Stale then view else view[1..];
      UpdateRowsHead(orders, updated, taker.id);
      assert CoreView(next, tail, taker.id) by { assert forall i :: 0 <= i < |tail| ==> tail[i] in view; }
      RowsOfSweep(mode, taker, tail, updated[2..], trades[1..], pair, next);
      assert IsBump(view[0], hit);
      var rows := UpdateRows(orders, updated, taker.id);
      forall id | id in orders ensures rows[id] == orders[id] || Bumped(view, rows[id]) {
        if Bumped(tail, rows[id]) { BumpedByTail(mode, view, rows[id]); }
      }
    }
  }

  // Rows and book move together through the updates of a sweep.
  lemma {:induction false} SweepAgrees(mode: ReadMode, taker: Taker, view: seq<Order>, updated: seq<Order>,
                                       trades: seq<Trade>, pair: Pair, orders: map<OrderId, Order>, book: Book)
    requires Sweeps(mode, taker, view, updated, trades, pair)
    requires CoreView(orders, view, taker.id) && Agrees(orders, book)
    ensures Agrees(UpdateRows(orders, updated, taker.id), UpdateLevels(book, updated, taker.id))
    decreases |trades|
  {
    if trades != [] {
      var hit, next, tail := FirstUpdate(mode, taker, view, updated, trades, pair, orders, book);
      SweepAgrees(mode, taker, tail, updated[2..], trades[1..], pair, next, Update(book, hit));
    }
  }
}
