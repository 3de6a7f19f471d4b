// Settling a match: the transaction over the trade, order and balance tables
// (ApplyOrderResultToDBTx) and the sync of the book after it has committed
// (ApplyOrderResultToRedis).

module Settlement {
  import opened Models
  import opened Ledger
  import opened OrderBook
  import opened Matching

  datatype Tables = Tables(funds: Funds, orders: map<OrderId, Order>, trades: seq<Trade>)

  function UserOf(orders: map<OrderId, Order>, id: OrderId): UserId {
    if id in orders then orders[id].userId else ""
  }

  // The inserted trade comes back joined with the users of its two orders.
  function Joined(orders: map<OrderId, Order>, t: Trade): Trade {
    t.(buyer := UserOf(orders, t.buyOrderId), seller := UserOf(orders, t.sellOrderId))
  }

  function AllJoined(orders: map<OrderId, Order>, trades: seq<Trade>): seq<Trade> {
    if trades == [] then [] else [Joined(orders, trades[0])] + AllJoined(orders, trades[1..])
  }

  function InsertTrade(assets: set<Asset>, orders: map<OrderId, Order>, t: Trade): Result<Trade> {
    if t.quantity <= 0.0 || t.price <= 0.0 then Err(CheckViolation)
    else if t.buyOrderId !in orders || t.sellOrderId !in orders then Err(ForeignKey)
    else if t.base !in assets || t.quote !in assets then Err(ForeignKey)
    else Ok(Joined(orders, t))
  }

  function InsertTrades(assets: set<Asset>, orders: map<OrderId, Order>, trades: seq<Trade>): Result<seq<Trade>> {
    if trades == [] then Ok([])
    else
      var first :- InsertTrade(assets, orders, trades[0]);
      var rest :- InsertTrades(assets, orders, trades[1..]);
      Ok([first] + rest)
  }

  // UpdateOrderStatusAndQuantityTx: an unknown id touches no row.
  function UpdateRow(orders: map<OrderId, Order>, o: Order): map<OrderId, Order> {
    if o.id in orders then orders[o.id := orders[o.id].(status := o.status, filled := o.filled)] else orders
  }

  // The loop over the updated orders leaves out the incoming one.
  function UpdateRows(orders: map<OrderId, Order>, updated: seq<Order>, incoming: OrderId): map<OrderId, Order> {
    if updated == [] then orders
    else UpdateRows(if updated[0].id == incoming then orders else UpdateRow(orders, updated[0]), updated[1..], incoming)
  }

  // The settlement of the resting side, trade by trade; cost is price * quantity.
  function SettleMaker(f: Funds, taker: Side, t: Trade, cost: real): Result<Funds> {
    match taker
    case Buy =>
      var g :- Debit(f, Holding(t.seller, t.base), t.quantity);
      Ok(CreditUSD(g, t.seller, cost))
    case Sell =>
      var g :- CreditBalance(f, t.buyer, t.base, t.quantity);
      Debit(g, Cash(t.buyer), cost)
  }

  function SettleMakers(f: Funds, taker: Side, trades: seq<Trade>): Result<Funds>
    decreases |trades|
  {
    if trades == [] then Ok(f)
    else
      var g :- SettleMaker(f, taker, trades[0], trades[0].price * trades[0].quantity);
      SettleMakers(g, taker, trades[1..])
  }

  // The settlement of the incoming order with the accumulated totals; a market
  // order also gets back what it did not use.
  function SettleTaker(f: Funds, o: Order, pair: Pair, volume: real, cost: real): Result<Funds> {
    match o.side
    case Buy =>
      var g :- CreditBalance(f, o.userId, pair.base, volume);
      var h :- Debit(g, Cash(o.userId), cost);
      if o.kind == Market then Unlock(h, Cash(o.userId), o.price) else Ok(h)
    case Sell =>
      var g := CreditUSD(f, o.userId, cost);
      var h :- Debit(g, Holding(o.userId, pair.base), volume);
      if o.kind == Market then Unlock(h, Holding(o.userId, pair.base), o.Remaining()) else Ok(h)
  }

  function Settle(f: Funds, o: Order, pair: Pair, trades: seq<Trade>): Result<Funds> {
    var g :- SettleMakers(f, o.side, trades);
    SettleTaker(g, o, pair, Volume(trades), Cost(trades))
  }

  function RowsAfter(orders: map<OrderId, Order>, r: OrderResult): map<OrderId, Order> {
    UpdateRow(UpdateRows(orders, r.updated, r.incoming.id), r.incoming)
  }

  function ApplyToTables(db: Tables, r: OrderResult, pair: Pair): Result<Tables> {
    var inserted :- InsertTrades(db.funds.assets, db.orders, r.trades);
    var funds :- Settle(db.funds, r.incoming, pair, inserted);
    Ok(Tables(funds, RowsAfter(db.orders, r), db.trades + inserted))
  }

  function UpdateLevels(b: Book, updated: seq<Order>, incoming: OrderId): Book
    decreases |updated|
  {
    if updated == [] then b
    else UpdateLevels(if updated[0].id == incoming then b else Update(b, updated[0]), updated[1..], incoming)
  }

  function ApplyToBook(b: Book, r: OrderResult): Book {
    var c := UpdateLevels(b, r.updated, r.incoming.id);
    if r.incoming.status != Filled && r.incoming.kind == Limit then Insert(c, r.incoming) else c
  }

  // --- Inserting -----------------------------------------------------------------

  lemma {:induction false} InsertTradesJoins(assets: set<Asset>, orders: map<OrderId, Order>, trades: seq<Trade>)
    ensures InsertTrades(assets, orders, trades).Ok? <==>
      forall t :: t in trades ==> InsertTrade(assets, orders, t).Ok?
    ensures InsertTrades(assets, orders, trades).Ok? ==>
      InsertTrades(assets, orders, trades).value == AllJoined(orders, trades)
  {
    if trades != [] {
      InsertTradesJoins(assets, orders, trades[1..]);
      assert forall t :: t in trades <==> t == trades[0] || t in trades[1..];
    }
  }

  lemma {:induction false} JoinedTotals(orders: map<OrderId, Order>, trades: seq<Trade>)
    ensures Volume(AllJoined(orders, trades)) == Volume(trades)
    ensures Cost(AllJoined(orders, trades)) == Cost(trades)
    ensures |AllJoined(orders, trades)| == |trades|
    ensures forall i :: 0 <= i < |trades| ==> AllJoined(orders, trades)[i] == Joined(orders, trades[i])
  {
    if trades != [] {
      JoinedTotals(orders, trades[1..]);
      TotalsThen(Joined(orders, trades[0]), AllJoined(orders, trades[1..]));
      TotalsThen(trades[0], trades[1..]);
      assert trades == [trades[0]] + trades[1..];
    }
  }

  // Only the users of the rows matter for the join, and no update changes them.
  lemma {:induction false} JoinedSame(a: map<OrderId, Order>, b: map<OrderId, Order>, trades: seq<Trade>)
    requires forall id :: UserOf(a, id) == UserOf(b, id)
    ensures AllJoined(a, trades) == AllJoined(b, trades)
  {
    if trades != [] { JoinedSame(a, b, trades[1..]); }
  }

  // --- Conservation ----------------------------------------------------------------

  // Trades as the tables accept them, between users that exist.
  ghost predicate Settleable(f: Funds, base: Asset, trades: seq<Trade>) {
    forall t :: t in trades ==>
      && t.quantity > 0.0 && t.price > 0.0 && t.base == base
      && Cash(t.buyer) in f.rows && Cash(t.seller) in f.rows
  }

  // What the resting side gives up in a column, the taker has yet to receive.
  function MakerShare(c: Column, base: Asset, taker: Side, volume: real, cost: real): real {
    match c
    case CashColumn => if taker == Buy then cost else -cost
    case HoldingColumn(a) => if a != base then 0.0 else if taker == Buy then -volume else volume
  }

  lemma MakerHeld(f: Funds, taker: Side, t: Trade, cost: real, c: Column)
    requires Sound(f) && t.quantity > 0.0 && cost >= 0.0
    requires Cash(t.buyer) in f.rows && Cash(t.seller) in f.rows && SettleMaker(f, taker, t, cost).Ok?
    ensures var g := SettleMaker(f, taker, t, cost).value;
      Kept(f, g) && Held(g, c) == Held(f, c) + MakerShare(c, t.base, taker, t.quantity, cost)
  {
    if taker == Buy {
      DebitHeld(f, Holding(t.seller, t.base), t.quantity, c);
      CreditUSDHeld(Debit(f, Holding(t.seller, t.base), t.quantity).value, t.seller, cost, c);
    } else {
      CreditHeld(f, t.buyer, t.base, t.quantity, c);
      DebitHeld(CreditBalance(f, t.buyer, t.base, t.quantity).value, Cash(t.buyer), cost, c);
    }
  }

  // The first trade taken off the totals, its cost as a number, ...
  lemma FirstCost(trades: seq<Trade>) returns (cost: real)
    requires trades != []
    ensures cost == trades[0].price * trades[0].quantity
    ensures Volume(trades) == trades[0].quantity + Volume(trades[1..]) && Cost(trades) == cost + Cost(trades[1..])
  {
    cost := trades[0].price * trades[0].quantity;
    TotalsThen(trades[0], trades[1..]);
    assert trades == [trades[0]] + trades[1..];
  }

  // ... and off a settlement.
  lemma FirstTrade(f: Funds, taker: Side, trades: seq<Trade>) returns (cost: real)
    requires trades != []
    ensures cost == trades[0].price * trades[0].quantity
    ensures Volume(trades) == trades[0].quantity + Volume(trades[1..])
    ensures Cost(trades) == cost + Cost(trades[1..])
    ensures SettleMakers(f, taker, trades) ==
      match SettleMaker(f, taker, trades[0], cost)
      case Err(e) => Err(e)
      case Ok(g) => SettleMakers(g, taker, trades[1..])
  {
    cost := FirstCost(trades);
  }

  lemma CostPositive(t: Trade)
    requires t.price > 0.0 && t.quantity > 0.0
    ensures t.price * t.quantity > 0.0
  {
  }

  lemma {:induction false} MakersHeld(f: Funds, taker: Side, base: Asset, trades: seq<Trade>, c: Column)
    requires Sound(f) && Settleable(f, base, trades) && SettleMakers(f, taker, trades).Ok?
    ensures var g := SettleMakers(f, taker, trades).value;
      Kept(f, g) && Held(g, c) == Held(f, c) + MakerShare(c, base, taker, Volume(trades), Cost(trades))
    decreases |trades|
  {
    if trades != [] {
      var t := trades[0];
      assert t in trades;
      var cost := FirstTrade(f, taker, trades);
      CostPositive(t);
      MakerHeld(f, taker, t, cost, c);
      var g := SettleMaker(f, taker, t, cost).value;
      assert forall s :: s in trades[1..] ==> s in trades;
      MakersHeld(g, taker, base, trades[1..], c);
    }
  }

  lemma TakerHeld(f: Funds, o: Order, pair: Pair, volume: real, cost: real, c: Column)
    requires Sound(f) && Cash(o.userId) in f.rows && volume >= 0.0 && cost >= 0.0
    requires SettleTaker(f, o, pair, volume, cost).Ok?
    ensures var g := SettleTaker(f, o, pair, volume, cost).value;
      Kept(f, g) && Held(g, c) == Held(f, c) - MakerShare(c, pair.base, o.side, volume, cost)
  {
    var cash, holding := Cash(o.userId), Holding(o.userId, pair.base);
    if o.side == Buy {
      var g := CreditBalance(f, o.userId, pair.base, volume).value;
      CreditHeld(f, o.userId, pair.base, volume, c);
      DebitHeld(g, cash, cost, c);
      if o.kind == Market { UnlockConserves(Debit(g, cash, cost).value, cash, o.price, c); }
    } else {
      var g := CreditUSD(f, o.userId, cost);
      CreditUSDHeld(f, o.userId, cost, c);
      DebitHeld(g, holding, volume, c);
      if o.kind == Market { UnlockConserves(Debit(g, holding, volume).value, holding, o.Remaining(), c); }
    }
  }

  lemma {:induction false} TotalsPositive(f: Funds, base: Asset, trades: seq<Trade>)
    requires Settleable(f, base, trades)
    ensures Volume(trades) >= 0.0 && Cost(trades) >= 0.0
  {
    if trades != [] {
      assert trades[0] in trades;
      assert forall t :: t in trades[1..] ==> t in trades;
      TotalsPositive(f, base, trades[1..]);
      assert trades[0].price * trades[0].quantity > 0.0;
      TotalsThen(trades[0], trades[1..]);
      assert trades == [trades[0]] + trades[1..];
    }
  }

  // A settlement that goes through moves money and makes none: whatever trades it
  // is given, each column holds the same total before and after.
  lemma SettleConserves(f: Funds, o: Order, pair: Pair, trades: seq<Trade>, c: Column)
    requires Sound(f) && Settleable(f, pair.base, trades) && Cash(o.userId) in f.rows
    requires Settle(f, o, pair, trades).Ok?
    ensures var g := Settle(f, o, pair, trades).value;
      Kept(f, g) && Held(g, c) == Held(f, c)
  {
    TotalsPositive(f, pair.base, trades);
    MakersHeld(f, o.side, pair.base, trades, c);
    TakerHeld(SettleMakers(f, o.side, trades).value, o, pair, Volume(trades), Cost(trades), c);
  }
}
