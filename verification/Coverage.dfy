// Locked balances against resting orders: every unit that is locked is owed to a
// resting order (or has been kept back as price improvement), and a fresh match
// settles without any balance guard ever refusing.

module Coverage {
  import opened Models
  import opened Sums
  import opened Ledger
  import opened OrderBook
  import opened Matching
  import opened Execution
  import opened Settlement

  type Markets = map<MarketId, MarketRow>

  predicate HasBase(markets: Markets, id: MarketId, a: Asset) {
    id in markets && markets[id].base == a
  }

  // What one order row accounts for in user u's locked holding of asset a, ...
  function BaseTerm(markets: Markets, u: UserId, a: Asset): (OrderId, Order) -> real {
    (id: OrderId, o: Order) =>
      if o.Resting() && o.side == Sell && o.userId == u && HasBase(markets, o.marketId, a) then o.Remaining() else 0.0
  }

  // ... and in u's locked dollars.
  function CashTerm(u: UserId): (OrderId, Order) -> real {
    (id: OrderId, o: Order) =>
      if o.Resting() && o.side == Buy && o.userId == u then o.price * o.Remaining() else 0.0
  }

  ghost predicate HoldingsCovered(markets: Markets, f: Funds, orders: map<OrderId, Order>) {
    forall u, a :: LockedAt(f, Holding(u, a)) == Sum(orders, BaseTerm(markets, u, a))
  }

  // Dollars may also be kept back for price improvement that was never refunded.
  ghost predicate CashCovered(f: Funds, orders: map<OrderId, Order>, kept: UserId -> real) {
    forall u :: LockedAt(f, Cash(u)) == Sum(orders, CashTerm(u)) + kept(u)
  }

  ghost predicate RestingRows(orders: map<OrderId, Order>) {
    && Keyed(orders)
    && forall id :: id in orders && orders[id].Resting() ==> LiveLevel(orders[id])
  }

  ghost predicate UsersKnown(f: Funds, orders: map<OrderId, Order>) {
    forall id :: id in orders ==> Cash(orders[id].userId) in f.rows
  }

  // A view whose levels are the current rows of one side of a market with this base.
  ghost predicate MakerView(markets: Markets, orders: map<OrderId, Order>, view: seq<Order>, side: Side, base: Asset) {
    && DistinctIds(view)
    && forall i :: 0 <= i < |view| ==>
         && view[i].id in orders && orders[view[i].id] == view[i]
         && view[i].Resting() && view[i].side == side && HasBase(markets, view[i].marketId, base)
  }

  lemma MakerViewTail(markets: Markets, orders: map<OrderId, Order>, view: seq<Order>, side: Side, base: Asset,
                      hit: Order)
    requires MakerView(markets, orders, view, side, base) && view != [] && hit.id == view[0].id
    ensures MakerView(markets, orders[hit.id := hit], view[1..], side, base)
  {
    forall i | 0 <= i < |view| - 1
      ensures view[1..][i].id in orders && orders[hit.id := hit][view[1..][i].id] == view[1..][i]
    {
      assert view[1..][i] == view[i + 1];
      assert view[0].id != view[i + 1].id;
    }
  }

  // A fill changes the row of its level by the quantity, in one user's term only.
  lemma HitTerm(markets: Markets, orders: map<OrderId, Order>, l: Order, q: real, u: UserId, a: Asset)
    requires l.id in orders && orders[l.id] == l && l.Resting() && 0.0 < q <= l.Remaining()
    ensures var gone := if l.side == Sell && l.userId == u && HasBase(markets, l.marketId, a) then q else 0.0;
      Sum(orders[l.id := Hit(l, q)], BaseTerm(markets, u, a)) == Sum(orders, BaseTerm(markets, u, a)) - gone
  {
    SumUpdate(orders, l.id, Hit(l, q), BaseTerm(markets, u, a));
  }

  lemma HitCashTerm(orders: map<OrderId, Order>, l: Order, q: real, cost: real, u: UserId)
    requires l.id in orders && orders[l.id] == l && l.Resting() && 0.0 < q <= l.Remaining()
    requires cost == l.price * q
    ensures var gone := if l.side == Buy && l.userId == u then cost else 0.0;
      Sum(orders[l.id := Hit(l, q)], CashTerm(u)) == Sum(orders, CashTerm(u)) - gone
  {
    SumUpdate(orders, l.id, Hit(l, q), CashTerm(u));
    HitOwes(l, q, cost, u);
  }

  lemma HitOwes(l: Order, q: real, cost: real, u: UserId)
    requires l.Resting() && 0.0 < q <= l.Remaining() && cost == l.price * q
    ensures CashTerm(u)(l.id, Hit(l, q)) == CashTerm(u)(l.id, l) - if l.side == Buy && l.userId == u then cost else 0.0
  {
    PriceSplits(l.price, l.Remaining(), q);
    assert Hit(l, q).Remaining() == l.Remaining() - q;
  }

  lemma PriceSplits(price: real, whole: real, part: real)
    ensures price * (whole - part) == price * whole - price * part
  {
  }

  // The locked balance covers each single resting order.
  lemma BaseCoversOrder(markets: Markets, f: Funds, orders: map<OrderId, Order>, id: OrderId, a: Asset)
    requires RestingRows(orders) && HoldingsCovered(markets, f, orders)
    requires id in orders && orders[id].Resting() && orders[id].side == Sell && HasBase(markets, orders[id].marketId, a)
    ensures LockedAt(f, Holding(orders[id].userId, a)) >= orders[id].Remaining()
  {
    SumAtLeast(orders, id, BaseTerm(markets, orders[id].userId, a));
  }

  lemma CashCoversOrder(f: Funds, orders: map<OrderId, Order>, kept: UserId -> real, id: OrderId)
    requires RestingRows(orders) && CashCovered(f, orders, kept)
    requires id in orders && orders[id].Resting() && orders[id].side == Buy && kept(orders[id].userId) >= 0.0
    ensures LockedAt(f, Cash(orders[id].userId)) >= orders[id].price * orders[id].Remaining()
  {
    SumAtLeast(orders, id, CashTerm(orders[id].userId));
  }

  // One trade of a buying taker: the seller's lock is there, and stays covered.
  lemma SellerSettles(markets: Markets, f: Funds, orders: map<OrderId, Order>, l: Order, t: Trade, cost: real)
    requires Sound(f) && RestingRows(orders) && HoldingsCovered(markets, f, orders)
    requires l.id in orders && orders[l.id] == l && l.Resting() && l.side == Sell
    requires HasBase(markets, l.marketId, t.base)
    requires t.seller == l.userId && 0.0 < t.quantity <= l.Remaining() && cost >= 0.0
    requires Cash(l.userId) in f.rows
    ensures var s, rows := SettleMaker(f, Buy, t, cost), orders[l.id := Hit(l, t.quantity)];
      && s.Ok? && Kept(f, s.value)
      && RestingRows(rows) && HoldingsCovered(markets, s.value, rows)
      && (forall u :: LockedAt(s.value, Cash(u)) == LockedAt(f, Cash(u)))
  {
    BaseCoversOrder(markets, f, orders, l.id, t.base);
    forall u, a { HitTerm(markets, orders, l, t.quantity, u, a); }
    assert LiveLevel(l);
    SellerGives(f, t, cost);
  }

  lemma SellerGives(f: Funds, t: Trade, cost: real)
    requires Sound(f) && Cash(t.seller) in f.rows && cost >= 0.0
    requires 0.0 < t.quantity <= LockedAt(f, Holding(t.seller, t.base))
    ensures var s := SettleMaker(f, Buy, t, cost);
      && s.Ok? && Kept(f, s.value)
      && forall k :: LockedAt(s.value, k) == LockedAt(f, k) - if k == Holding(t.seller, t.base) then t.quantity else 0.0
  {
  }

  // One trade of a selling taker: the buyer's dollars are there, ...
  lemma BuyerCanPay(f: Funds, orders: map<OrderId, Order>, kept: UserId -> real, l: Order, q: real, cost: real)
    requires RestingRows(orders) && CashCovered(f, orders, kept)
    requires l.id in orders && orders[l.id] == l && l.Resting() && l.side == Buy && kept(l.userId) >= 0.0
    requires 0.0 < q <= l.Remaining() && cost == l.price * q
    ensures 0.0 < cost <= LockedAt(f, Cash(l.userId))
  {
    CashCoversOrder(f, orders, kept, l.id);
    assert LiveLevel(l);
    CheaperThanWhole(l.price, q, l.Remaining());
  }

  // ... and stay covered.
  lemma BuyerSettles(f: Funds, orders: map<OrderId, Order>, rows: map<OrderId, Order>, kept: UserId -> real, t: Trade,
                     cost: real)
    requires Sound(f) && CashCovered(f, orders, kept)
    requires 0.0 < cost <= LockedAt(f, Cash(t.buyer)) && t.quantity > 0.0
    requires Cash(t.buyer) in f.rows && t.base in f.assets
    requires forall u :: Sum(rows, CashTerm(u)) == Sum(orders, CashTerm(u)) - if u == t.buyer then cost else 0.0
    ensures var s := SettleMaker(f, Sell, t, cost);
      && s.Ok? && Kept(f, s.value)
      && CashCovered(s.value, rows, kept)
      && (forall u, a :: LockedAt(s.value, Holding(u, a)) == LockedAt(f, Holding(u, a)))
  {
  }

  lemma FirstBuyerSettles(f: Funds, orders: map<OrderId, Order>, kept: UserId -> real, l: Order, t: Trade, cost: real)
    requires Sound(f) && RestingRows(orders) && CashCovered(f, orders, kept)
    requires l.id in orders && orders[l.id] == l && l.Resting() && l.side == Buy && kept(l.userId) >= 0.0
    requires t.buyer == l.userId && t.price == l.price && 0.0 < t.quantity <= l.Remaining()
    requires cost == t.price * t.quantity && Cash(l.userId) in f.rows && t.base in f.assets
    ensures var s, rows := SettleMaker(f, Sell, t, cost), orders[l.id := Hit(l, t.quantity)];
      && s.Ok? && Kept(f, s.value)
      && RestingRows(rows) && CashCovered(s.value, rows, kept)
      && (forall u, a :: LockedAt(s.value, Holding(u, a)) == LockedAt(f, Holding(u, a)))
  {
    var rows := orders[l.id := Hit(l, t.quantity)];
    BuyerCanPay(f, orders, kept, l, t.quantity, cost);
    forall u { HitCashTerm(orders, l, t.quantity, cost, u); }
    BuyerSettles(f, orders, rows, kept, t, cost);
    assert LiveLevel(l);
  }

  lemma CheaperThanWhole(price: real, part: real, whole: real)
    requires price > 0.0 && 0.0 < part <= whole
    ensures 0.0 < price * part <= price * whole
  {
    assert price * (whole - part) >= 0.0;
  }

  // --- The rows after a sweep ------------------------------------------------------

  lemma UpdateRowsHead(orders: map<OrderId, Order>, updated: seq<Order>, incoming: OrderId)
    requires |updated| >= 2 && updated[0].id == incoming && updated[1].id != incoming
    requires updated[1].id in orders && SameCore(orders[updated[1].id], updated[1])
    ensures UpdateRows(orders, updated, incoming)
         == UpdateRows(orders[updated[1].id := updated[1]], updated[2..], incoming)
  {
    assert updated[1..][0] == updated[1] && updated[1..][1..] == updated[2..];
    assert UpdateRow(orders, updated[1]) == orders[updated[1].id := updated[1]];
  }

  lemma JoinedTail(orders: map<OrderId, Order>, hit: Order, trades: seq<Trade>)
    requires trades != [] && hit.id in orders && orders[hit.id].userId == hit.userId
    ensures AllJoined(orders, trades)[1..] == AllJoined(orders[hit.id := hit], trades[1..])
  {
    JoinedSame(orders, orders[hit.id := hit], trades[1..]);
  }

  // The first fill of a fresh sweep taken off: the level it hits, its trade as inserted,
  // and what is left to be swept.
  lemma FirstFill(markets: Markets, f: Funds, orders: map<OrderId, Order>, side: Side, taker: Taker, view: seq<Order>,
                  updated: seq<Order>, trades: seq<Trade>, pair: Pair)
    returns (l: Order, t: Trade, cost: real, rows: map<OrderId, Order>)
    requires trades != [] && side == Opposite(taker.side) && Sweeps(Fresh, taker, view, updated, trades, pair)
    requires MakerView(markets, orders, view, side, pair.base)
    requires forall i :: 0 <= i < |view| ==> view[i].id != taker.id
    requires UsersKnown(f, orders)
    ensures view != [] && |updated| >= 2 && l == view[0] && rows == orders[l.id := Hit(l, t.quantity)]
    ensures l.id in orders && orders[l.id] == l && l.Resting() && l.side == side && HasBase(markets, l.marketId, t.base)
    ensures t.price == l.price && 0.0 < t.quantity <= l.Remaining() && t.base == pair.base
    ensures (if side == Sell then t.seller else t.buyer) == l.userId && Cash(l.userId) in f.rows
    ensures cost == t.price * t.quantity
    ensures SettleMakers(f, taker.side, AllJoined(orders, trades)) ==
      match SettleMaker(f, taker.side, t, cost)
      case Err(e) => Err(e)
      case Ok(g) => SettleMakers(g, taker.side, AllJoined(rows, trades[1..]))
    ensures UpdateRows(orders, updated, taker.id) == UpdateRows(rows, updated[2..], taker.id)
    ensures MakerView(markets, rows, view[1..], side, pair.base)
    ensures Sweeps(Fresh, taker, view[1..], updated[2..], trades[1..], pair)
    ensures UsersKnown(f, rows)
  {
    l, t := view[0], Joined(orders, trades[0]);
    var hit := updated[1];
    rows := orders[hit.id := hit];
    cost := FirstTrade(f, taker.side, AllJoined(orders, trades));
    UpdateRowsHead(orders, updated, taker.id);
    JoinedTail(orders, hit, trades);
    MakerViewTail(markets, orders, view, side, pair.base, hit);
  }

  // A fresh sweep that is about to be settled.
  ghost predicate Filling(markets: Markets, f: Funds, orders: map<OrderId, Order>, taker: Taker, view: seq<Order>,
                          updated: seq<Order>, trades: seq<Trade>, pair: Pair) {
    && Sweeps(Fresh, taker, view, updated, trades, pair)
    && MakerView(markets, orders, view, Opposite(taker.side), pair.base)
    && (forall i :: 0 <= i < |view| ==> view[i].id != taker.id)
    && Sound(f) && RestingRows(orders) && UsersKnown(f, orders)
  }

  // Its first fill settled: what is left is the settlement of the rest.
  ghost predicate FirstSettled(f: Funds, orders: map<OrderId, Order>, taker: Taker, updated: seq<Order>,
                               trades: seq<Trade>, g: Funds, rows: map<OrderId, Order>)
    requires trades != [] && |updated| >= 2
  {
    && Kept(f, g)
    && SettleMakers(f, taker.side, AllJoined(orders, trades))
       == SettleMakers(g, taker.side, AllJoined(rows, trades[1..]))
    && UpdateRows(orders, updated, taker.id) == UpdateRows(rows, updated[2..], taker.id)
  }

  lemma SellersStep(markets: Markets, f: Funds, orders: map<OrderId, Order>, taker: Taker, view: seq<Order>,
                    updated: seq<Order>, trades: seq<Trade>, pair: Pair)
    returns (g: Funds, rows: map<OrderId, Order>)
    requires trades != [] && taker.side == Buy && Filling(markets, f, orders, taker, view, updated, trades, pair)
    requires HoldingsCovered(markets, f, orders)
    ensures view != [] && |updated| >= 2 && FirstSettled(f, orders, taker, updated, trades, g, rows)
    ensures Filling(markets, g, rows, taker, view[1..], updated[2..], trades[1..], pair)
    ensures HoldingsCovered(markets, g, rows) && forall u :: LockedAt(g, Cash(u)) == LockedAt(f, Cash(u))
  {
    var l, t, cost, next := FirstFill(markets, f, orders, Sell, taker, view, updated, trades, pair);
    assert LiveLevel(l);
    CheaperThanWhole(l.price, t.quantity, l.Remaining());
    SellerSettles(markets, f, orders, l, t, cost);
    g, rows := SettleMaker(f, Buy, t, cost).value, next;
  }

  lemma BuyersStep(markets: Markets, f: Funds, orders: map<OrderId, Order>, kept: UserId -> real, taker: Taker,
                   view: seq<Order>, updated: seq<Order>, trades: seq<Trade>, pair: Pair)
    returns (g: Funds, rows: map<OrderId, Order>)
    requires trades != [] && taker.side == Sell && Filling(markets, f, orders, taker, view, updated, trades, pair)
    requires CashCovered(f, orders, kept) && pair.base in f.assets && forall u :: kept(u) >= 0.0
    ensures view != [] && |updated| >= 2 && FirstSettled(f, orders, taker, updated, trades, g, rows)
    ensures Filling(markets, g, rows, taker, view[1..], updated[2..], trades[1..], pair)
    ensures CashCovered(g, rows, kept) && pair.base in g.assets
    ensures forall u, a :: LockedAt(g, Holding(u, a)) == LockedAt(f, Holding(u, a))
  {
    var l, t, cost, next := FirstFill(markets, f, orders, Buy, taker, view, updated, trades, pair);
    FirstBuyerSettles(f, orders, kept, l, t, cost);
    g, rows := SettleMaker(f, Sell, t, cost).value, next;
  }

  // A buying taker: reading fresh, the settlement of the sellers goes through trade
  // by trade, and afterwards the locked holdings cover the updated rows.
  lemma {:induction false} SellersSettle(markets: Markets, f: Funds, orders: map<OrderId, Order>, taker: Taker,
                                         view: seq<Order>, updated: seq<Order>, trades: seq<Trade>, pair: Pair)
    requires taker.side == Buy && Sweeps(Fresh, taker, view, updated, trades, pair)
    requires MakerView(markets, orders, view, Sell, pair.base)
    requires forall i :: 0 <= i < |view| ==> view[i].id != taker.id
    requires Sound(f) && RestingRows(orders) && UsersKnown(f, orders) && HoldingsCovered(markets, f, orders)
    ensures var s, rows := SettleMakers(f, Buy, AllJoined(orders, trades)), UpdateRows(orders, updated, taker.id);
      && s.Ok? && Kept(f, s.value)
      && RestingRows(rows) && HoldingsCovered(markets, s.value, rows)
      && (forall u :: LockedAt(s.value, Cash(u)) == LockedAt(f, Cash(u)))
    decreases |trades|
  {
    if trades != [] {
      var g, rows := SellersStep(markets, f, orders, taker, view, updated, trades, pair);
      SellersSettle(markets, g, rows, taker, view[1..], updated[2..], trades[1..], pair);
    }
  }

  // A selling taker likewise: the buyers' locked dollars, at their own prices.
  lemma {:induction false} BuyersSettle(markets: Markets, f: Funds, orders: map<OrderId, Order>, kept: UserId -> real,
                                        taker: Taker, view: seq<Order>, updated: seq<Order>, trades: seq<Trade>,
                                        pair: Pair)
    requires taker.side == Sell && Sweeps(Fresh, taker, view, updated, trades, pair)
    requires MakerView(markets, orders, view, Buy, pair.base) && pair.base in f.assets
    requires forall i :: 0 <= i < |view| ==> view[i].id != taker.id
    requires forall u :: kept(u) >= 0.0
    requires Sound(f) && RestingRows(orders) && UsersKnown(f, orders) && CashCovered(f, orders, kept)
    ensures var s, rows := SettleMakers(f, Sell, AllJoined(orders, trades)), UpdateRows(orders, updated, taker.id);
      && s.Ok? && Kept(f, s.value)
      && RestingRows(rows) && CashCovered(s.value, rows, kept)
      && (forall u, a :: LockedAt(s.value, Holding(u, a)) == LockedAt(f, Holding(u, a)))
    decreases |trades|
  {
    if trades != [] {
      var g, rows := BuyersStep(markets, f, orders, kept, taker, view, updated, trades, pair);
      BuyersSettle(markets, g, rows, kept, taker, view[1..], updated[2..], trades[1..], pair);
    }
  }
}
