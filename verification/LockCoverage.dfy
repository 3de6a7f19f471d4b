// Lock coverage over runs: reading fresh, settlement never gets stuck, and every
// locked unit is accounted for by a resting order or by price improvement that was
// kept back.

module LockCoverage {
  import opened Models
  import opened Sums
  import opened Ledger
  import opened OrderBook
  import opened Matching
  import opened Settlement
  import opened Coverage
  import opened Exchange
  import opened Validity

  // --- Price improvement -------------------------------------------------------------

  // Only market orders get anything unlocked when they settle, so what a limit buy
  // saved against its limit in a trade stays locked.
  function KeptTerm(orders: map<OrderId, Order>, u: UserId): Trade -> real {
    (t: Trade) =>
      if t.buyer == u && t.buyOrderId in orders && orders[t.buyOrderId].kind == Limit
      then (orders[t.buyOrderId].price - t.price) * t.quantity
      else 0.0
  }

  function KeptBack(orders: map<OrderId, Order>, trades: seq<Trade>): UserId -> real {
    (u: UserId) => Total(trades, KeptTerm(orders, u))
  }

  ghost predicate Covered(s: State) {
    && HoldingsCovered(s.markets, s.funds, s.orders)
    && CashCovered(s.funds, s.orders, KeptBack(s.orders, s.trades))
  }

  lemma SavingNonNegative(limit: real, price: real, quantity: real)
    requires price <= limit && quantity >= 0.0
    ensures (limit - price) * quantity >= 0.0
  {
  }

  lemma KeptNonNegative(orders: map<OrderId, Order>, trades: seq<Trade>, u: UserId)
    requires forall t :: t in trades ==> TradeOk(orders, t)
    ensures KeptBack(orders, trades)(u) >= 0.0
  {
    forall t | t in trades ensures KeptTerm(orders, u)(t) >= 0.0 {
      if orders[t.buyOrderId].kind == Limit {
        SavingNonNegative(orders[t.buyOrderId].price, t.price, t.quantity);
      }
    }
    TotalNonNegative(trades, KeptTerm(orders, u));
  }

  lemma KeptSame(orders: map<OrderId, Order>, rows: map<OrderId, Order>, trades: seq<Trade>, u: UserId)
    requires SameCores(orders, rows) && forall t :: t in trades ==> TradeOk(orders, t)
    ensures KeptBack(orders, trades)(u) == KeptBack(rows, trades)(u)
  {
    TotalSame(trades, KeptTerm(orders, u), KeptTerm(rows, u));
  }

  // Resting buys trade at their own price and save nothing.
  lemma KeptOfMakers(rows: map<OrderId, Order>, inserted: seq<Trade>, u: UserId)
    requires forall x :: x in inserted ==> x.buyOrderId in rows && rows[x.buyOrderId].price == x.price
    ensures KeptBack(rows, inserted)(u) == 0.0
  {
    TotalSame(inserted, KeptTerm(rows, u), (t: Trade) => 0.0);
    TotalZero(inserted);
  }

  lemma {:induction false} TotalZero(trades: seq<Trade>)
    ensures Total(trades, (t: Trade) => 0.0) == 0.0
  {
    if trades != [] { TotalZero(trades[1..]); }
  }

  // An incoming limit buy saves its limit times the volume, less the cost.
  lemma {:induction false} KeptOfTaker(rows: map<OrderId, Order>, o: Order, inserted: seq<Trade>, u: UserId)
    requires o.id in rows && SameCore(o, rows[o.id])
    requires forall x :: x in inserted ==> x.buyOrderId == o.id && x.buyer == o.userId
    ensures KeptBack(rows, inserted)(u)
         == if u == o.userId && o.kind == Limit then o.price * Volume(inserted) - Cost(inserted) else 0.0
  {
    if inserted != [] {
      var x := inserted[0];
      assert x in inserted;
      assert forall y :: y in inserted[1..] ==> y in inserted;
      KeptOfTaker(rows, o, inserted[1..], u);
      TotalsThen(x, inserted[1..]);
      assert inserted == [x] + inserted[1..];
      if u == o.userId && o.kind == Limit {
        Distribute(o.price, x.price, x.quantity, Volume(inserted[1..]));
      }
    }
  }

  lemma Distribute(limit: real, price: real, quantity: real, volume: real)
    ensures (limit - price) * quantity + limit * volume == limit * (quantity + volume) - price * quantity
  {
  }

  // --- The taker settles ------------------------------------------------------------------

  // A buying taker that has locked what it spends and hands back.
  lemma BuyingTakerSettles(f: Funds, o: Order, pair: Pair, volume: real, cost: real, back: real)
    requires Sound(f) && o.side == Buy && Cash(o.userId) in f.rows && pair.base in f.assets
    requires volume >= 0.0 && cost >= 0.0 && back >= 0.0
    requires back == if o.kind == Market then o.price else 0.0
    requires LockedAt(f, Cash(o.userId)) >= cost + back
    ensures var s := SettleTaker(f, o, pair, volume, cost);
      && s.Ok? && Kept(f, s.value)
      && (forall u :: LockedAt(s.value, Cash(u)) == LockedAt(f, Cash(u)) - if u == o.userId then cost + back else 0.0)
      && (forall u, a :: LockedAt(s.value, Holding(u, a)) == LockedAt(f, Holding(u, a)))
  {
    TakerHeld(f, o, pair, volume, cost, CashColumn);
  }

  lemma SellingTakerSettles(f: Funds, o: Order, pair: Pair, volume: real, cost: real, back: real)
    requires Sound(f) && o.side == Sell && Cash(o.userId) in f.rows
    requires volume >= 0.0 && cost >= 0.0 && back >= 0.0
    requires back == if o.kind == Market then o.Remaining() else 0.0
    requires LockedAt(f, Holding(o.userId, pair.base)) >= volume + back
    ensures var s := SettleTaker(f, o, pair, volume, cost);
      && s.Ok? && Kept(f, s.value)
      && (forall u, a :: LockedAt(s.value, Holding(u, a))
            == LockedAt(f, Holding(u, a)) - if u == o.userId && a == pair.base then volume + back else 0.0)
      && (forall u :: LockedAt(s.value, Cash(u)) == LockedAt(f, Cash(u)))
  {
    TakerHeld(f, o, pair, volume, cost, CashColumn);
  }

  // --- The terms of the rows -----------------------------------------------------------------

  // A row that does not rest weighs nothing; the incoming order weighs what is left
  // of it once it rests.
  lemma RowWeighs(markets: Markets, rows: map<OrderId, Order>, last: Order, u: UserId, a: Asset)
    requires last.id in rows ==> !rows[last.id].Resting()
    ensures Sum(rows[last.id := last], BaseTerm(markets, u, a))
         == Sum(rows, BaseTerm(markets, u, a)) + BaseTerm(markets, u, a)(last.id, last)
    ensures Sum(rows[last.id := last], CashTerm(u)) == Sum(rows, CashTerm(u)) + CashTerm(u)(last.id, last)
  {
    SumUpdate(rows, last.id, last, BaseTerm(markets, u, a));
    SumUpdate(rows, last.id, last, CashTerm(u));
  }

  // Fills on one side do not touch the terms of the other.
  lemma OtherSideWeighs(markets: Markets, pending: map<OrderId, Order>, rows: map<OrderId, Order>, view: seq<Order>,
                        side: Side, u: UserId, a: Asset)
    requires rows.Keys == pending.Keys && Keyed(rows)
    requires forall i :: 0 <= i < |view| ==>
      view[i].id in pending && pending[view[i].id] == view[i] && view[i].side == side
    requires forall k :: k in pending ==> rows[k] == pending[k] || Bumped(view, rows[k])
    ensures side == Sell ==> Sum(pending, CashTerm(u)) == Sum(rows, CashTerm(u))
    ensures side == Buy ==> Sum(pending, BaseTerm(markets, u, a)) == Sum(rows, BaseTerm(markets, u, a))
  {
    forall k | k in pending ensures rows[k] == pending[k] || rows[k].side == pending[k].side == side {
      if rows[k] != pending[k] {
        var i :| 0 <= i < |view| && IsBump(view[i], rows[k]);
      }
    }
    if side == Sell {
      SumAcross(pending, rows, CashTerm(u));
    } else {
      SumAcross(pending, rows, BaseTerm(markets, u, a));
    }
  }

  // --- A whole creation ------------------------------------------------------------------------

  // A match of the new order o, about to be settled.
  ghost predicate Ready(mode: ReadMode, markets: Markets, f: Funds, pending: map<OrderId, Order>, o: Order,
                        view: seq<Order>, pair: Pair, r: OrderResult)
  {
    && MatchedAs(mode, o, view, pair, r)
    && r.incoming.userId == o.userId && r.incoming.side == o.side
    && (o.kind == Market && o.side == Buy ==> r.incoming.price == o.price - Cost(r.trades) && r.incoming.price >= 0.0)
    && (o.side == Sell ==> r.incoming.quantity == o.quantity)
    && o.id in pending && pending[o.id] == o && o.status == Pending && o.price >= 0.0
    && MakerView(markets, pending, view, Opposite(o.side), pair.base)
    && (forall i :: 0 <= i < |view| ==> view[i].id != o.id)
    && HasBase(markets, o.marketId, pair.base) && pair.base in f.assets
    && Sound(f) && RestingRows(pending) && UsersKnown(f, pending)
    && (forall x :: x in AllJoined(pending, r.trades) ==> TradeOk(pending, x))
  }

  // The rows of a match that is ready, before and after the incoming row is written.
  lemma ReadyRows(mode: ReadMode, markets: Markets, f: Funds, pending: map<OrderId, Order>, o: Order, view: seq<Order>,
                  pair: Pair, r: OrderResult)
    requires Ready(mode, markets, f, pending, o, view, pair, r)
    ensures var rows := UpdateRows(pending, r.updated, o.id);
      && rows.Keys == pending.Keys && Keyed(rows) && rows[o.id] == o
      && (forall k :: k in pending ==> rows[k] == pending[k] || Bumped(view, rows[k]))
      && RowsAfter(pending, r) == rows[o.id := o.(status := r.incoming.status, filled := r.incoming.filled)]
      && SameCores(pending, RowsAfter(pending, r))
  {
    RowsOfSweep(mode, TakerOf(o), view, r.updated, r.trades, pair, pending);
    var rows := UpdateRows(pending, r.updated, o.id);
    assert rows[o.id].id == o.id;
    BumpedSameCore(pending, rows, view);
  }

  // Who the inserted trades are between.
  lemma InsertedBy(mode: ReadMode, pending: map<OrderId, Order>, taker: Taker, view: seq<Order>, updated: seq<Order>,
                   trades: seq<Trade>, pair: Pair)
    requires Sweeps(mode, taker, view, updated, trades, pair)
    ensures taker.side == Buy ==>
      forall x :: x in AllJoined(pending, trades) ==> x.buyOrderId == taker.id && x.buyer == UserOf(pending, taker.id)
    ensures taker.side == Sell ==>
      forall x :: x in AllJoined(pending, trades) ==>
        exists i :: 0 <= i < |view| && x.buyOrderId == view[i].id && x.price == view[i].price
  {
    SweepTrades(mode, taker, view, updated, trades, pair);
    forall x | x in AllJoined(pending, trades)
      ensures taker.side == Buy ==> x.buyOrderId == taker.id && x.buyer == UserOf(pending, taker.id)
      ensures taker.side == Sell ==>
        exists i :: 0 <= i < |view| && x.buyOrderId == view[i].id && x.price == view[i].price
    {
      JoinedMember(pending, trades, x);
      var y :| y in trades && x == Joined(pending, y);
      var i :| 0 <= i < |view| && IsTradeOn(taker, view[i], y, pair);
    }
  }

  // What a new order locks: a sell its quantity, a limit buy its limit times its
  // quantity, a market buy its amount.
  function LockOf(o: Order): real {
    if o.side == Sell then o.quantity
    else if o.kind == Market then o.price
    else o.price * o.quantity
  }

  // The limit of an incoming buy covers what its trades cost.
  lemma CostWithinLimit(rows: map<OrderId, Order>, o: Order, inserted: seq<Trade>)
    requires o.id in rows && SameCore(o, rows[o.id]) && o.kind == Limit
    requires forall x :: x in inserted ==> TradeOk(rows, x) && x.buyOrderId == o.id && x.buyer == o.userId
    ensures Cost(inserted) <= o.price * Volume(inserted)
  {
    KeptOfTaker(rows, o, inserted, o.userId);
    KeptNonNegative(rows, inserted, o.userId);
  }

  // A buy settles out of what it locked: a limit buy its limit times its quantity, a
  // market buy its amount.
  lemma BuyFunded(mode: ReadMode, markets: Markets, f: Funds, pending: map<OrderId, Order>, o: Order, view: seq<Order>,
                  pair: Pair, r: OrderResult, locked: real)
    returns (back: real)
    requires Ready(mode, markets, f, pending, o, view, pair, r) && o.side == Buy
    requires locked == LockOf(o)
    ensures back == if o.kind == Market then r.incoming.price else 0.0
    ensures 0.0 <= back && 0.0 <= Cost(r.trades) && Cost(r.trades) + back <= locked
    ensures o.kind == Market ==> Cost(r.trades) + back == locked
  {
    var inserted := AllJoined(pending, r.trades);
    JoinedTotals(pending, r.trades);
    InsertedBy(mode, pending, TakerOf(o), view, r.updated, r.trades, pair);
    CostNonNegative(inserted, pending);
    back := if o.kind == Market then r.incoming.price else 0.0;
    if o.kind == Limit {
      CostWithinLimit(pending, o, inserted);
      WithinWhole(o.price, Volume(r.trades), o.quantity);
    }
  }

  lemma WithinWhole(price: real, part: real, whole: real)
    requires price >= 0.0 && part <= whole
    ensures price * part <= price * whole
  {
    assert price * (whole - part) >= 0.0;
  }

  lemma {:induction false} CostNonNegative(inserted: seq<Trade>, rows: map<OrderId, Order>)
    requires forall x :: x in inserted ==> TradeOk(rows, x)
    ensures Cost(inserted) >= 0.0
  {
    forall x | x in inserted ensures CostOf()(x) >= 0.0 {
      SavingNonNegative(x.price, 0.0, x.quantity);
    }
    TotalNonNegative(inserted, CostOf());
  }

  // A new buy order, settled: nothing refuses, and the holdings stay covered.
  lemma BuySettles(markets: Markets, f: Funds, pending: map<OrderId, Order>, o: Order, view: seq<Order>, pair: Pair,
                   r: OrderResult, locked: real)
    returns (back: real)
    requires Ready(Fresh, markets, f, pending, o, view, pair, r) && o.side == Buy
    requires locked == LockOf(o)
    requires HoldingsCovered(markets, f, pending)
    requires LockedAt(f, Cash(o.userId)) >= locked
    ensures back == if o.kind == Market then r.incoming.price else 0.0
    ensures o.kind == Market ==> Cost(r.trades) + back == locked
    ensures var s := Settle(f, r.incoming, pair, AllJoined(pending, r.trades));
      && s.Ok? && Kept(f, s.value)
      && HoldingsCovered(markets, s.value, UpdateRows(pending, r.updated, o.id))
      && (forall u :: LockedAt(s.value, Cash(u)) ==
            LockedAt(f, Cash(u)) - if u == o.userId then Cost(r.trades) + back else 0.0)
  {
    back := BuyFunded(Fresh, markets, f, pending, o, view, pair, r, locked);
    SellersSettle(markets, f, pending, TakerOf(o), view, r.updated, r.trades, pair);
    JoinedTotals(pending, r.trades);
    var g := SettleMakers(f, Buy, AllJoined(pending, r.trades)).value;
    BuyingTakerSettles(g, r.incoming, pair, Volume(r.trades), Cost(r.trades), back);
  }

  // A new sell order likewise, out of its quantity.
  lemma SellSettles(markets: Markets, f: Funds, pending: map<OrderId, Order>, kept: UserId -> real, o: Order,
                    view: seq<Order>, pair: Pair, r: OrderResult)
    returns (back: real)
    requires Ready(Fresh, markets, f, pending, o, view, pair, r) && o.side == Sell
    requires CashCovered(f, pending, kept) && forall u :: kept(u) >= 0.0
    requires LockedAt(f, Holding(o.userId, pair.base)) >= o.quantity
    ensures back == if o.kind == Market then o.quantity - r.incoming.filled else 0.0
    ensures var s := Settle(f, r.incoming, pair, AllJoined(pending, r.trades));
      && s.Ok? && Kept(f, s.value)
      && CashCovered(s.value, UpdateRows(pending, r.updated, o.id), kept)
      && (forall u, a :: LockedAt(s.value, Holding(u, a)) ==
            LockedAt(f, Holding(u, a)) - if u == o.userId && a == pair.base then r.incoming.filled + back else 0.0)
  {
    back := if o.kind == Market then o.quantity - r.incoming.filled else 0.0;
    BuyersSettle(markets, f, pending, kept, TakerOf(o), view, r.updated, r.trades, pair);
    JoinedTotals(pending, r.trades);
    CostNonNegative(AllJoined(pending, r.trades), pending);
    var g := SettleMakers(f, Sell, AllJoined(pending, r.trades)).value;
    SellingTakerSettles(g, r.incoming, pair, Volume(r.trades), Cost(r.trades), back);
  }

  // What a new limit order leaves locked is what it owes while it rests, and what a
  // buy has saved.
  lemma LimitOwes(mode: ReadMode, o: Order, r: OrderResult, view: seq<Order>, pair: Pair)
    requires MatchedAs(mode, o, view, pair, r) && o.kind == Limit
    ensures var last := o.(status := r.incoming.status, filled := r.incoming.filled);
      && (!last.Resting() ==> last.Remaining() == 0.0)
      && o.price * last.Remaining() == o.price * o.quantity - o.price * r.incoming.filled
  {
  }

  // Coverage with the new order's lock on top.
  ghost predicate CashLocked(f: Funds, orders: map<OrderId, Order>, kept: UserId -> real, who: UserId, extra: real) {
    forall u :: LockedAt(f, Cash(u)) == Sum(orders, CashTerm(u)) + kept(u) + (if u == who then extra else 0.0)
  }

  ghost predicate HoldingsLocked(markets: Markets, f: Funds, orders: map<OrderId, Order>, who: UserId, base: Asset,
                                 extra: real) {
    forall u, a :: LockedAt(f, Holding(u, a))
                == Sum(orders, BaseTerm(markets, u, a)) + (if u == who && a == base then extra else 0.0)
  }

  lemma CashTermNonNegative(orders: map<OrderId, Order>, u: UserId, id: OrderId)
    requires RestingRows(orders) && id in orders
    ensures CashTerm(u)(id, orders[id]) >= 0.0
  {
    if orders[id].Resting() {
      assert LiveLevel(orders[id]);
      SavingNonNegative(orders[id].price, 0.0, orders[id].Remaining());
    }
  }

  lemma CashNonNegative(orders: map<OrderId, Order>, u: UserId)
    requires RestingRows(orders)
    ensures Sum(orders, CashTerm(u)) >= 0.0
  {
    forall id | id in orders { CashTermNonNegative(orders, u, id); }
    SumNonNegative(orders, CashTerm(u));
  }

  lemma BaseNonNegative(markets: Markets, orders: map<OrderId, Order>, u: UserId, a: Asset)
    requires RestingRows(orders)
    ensures Sum(orders, BaseTerm(markets, u, a)) >= 0.0
  {
    SumNonNegative(orders, BaseTerm(markets, u, a));
  }

  // Where the trades inserted for the order o come from: an incoming buy is the buyer
  // in all of them, and against an incoming sell the buyers trade at their own price.
  ghost predicate Origin(pending: map<OrderId, Order>, rows: map<OrderId, Order>, o: Order, inserted: seq<Trade>) {
    && SameCores(pending, rows)
    && o.id in rows && SameCore(o, rows[o.id])
    && (o.side == Buy ==> forall x :: x in inserted ==> x.buyOrderId == o.id && x.buyer == o.userId)
    && (o.side == Sell ==> forall x :: x in inserted ==> x.buyOrderId in rows && rows[x.buyOrderId].price == x.price)
  }

  // What a new order has saved against its limit.
  function SavedBy(o: Order, volume: real, cost: real, u: UserId): real {
    if o.side == Buy && o.kind == Limit && u == o.userId then o.price * volume - cost else 0.0
  }

  // What is left of a new limit buy, at its limit.
  function OwedBy(o: Order, filled: real, u: UserId): real {
    if o.side == Buy && o.kind == Limit && u == o.userId then o.price * o.quantity - o.price * filled else 0.0
  }

  // Together they are what it locked and did not spend.
  lemma OwedAndSaved(o: Order, filled: real, cost: real, u: UserId)
    ensures OwedBy(o, filled, u) + SavedBy(o, filled, cost, u)
         == if o.side == Buy && o.kind == Limit && u == o.userId then o.price * o.quantity - cost else 0.0
  {
  }

  // The improvement kept back after a step: the new order adds what it saved.
  lemma KeptGrows(pending: map<OrderId, Order>, rows: map<OrderId, Order>, trades: seq<Trade>, inserted: seq<Trade>,
                  u: UserId)
    requires SameCores(pending, rows) && forall t :: t in trades ==> TradeOk(pending, t)
    ensures KeptBack(rows, trades + inserted)(u) == KeptBack(pending, trades)(u) + KeptBack(rows, inserted)(u)
  {
    KeptSame(pending, rows, trades, u);
    TotalAppend(trades, inserted, KeptTerm(rows, u));
  }

  lemma KeptNew(pending: map<OrderId, Order>, rows: map<OrderId, Order>, o: Order, inserted: seq<Trade>, u: UserId)
    requires Origin(pending, rows, o, inserted)
    ensures KeptBack(rows, inserted)(u) == SavedBy(o, Volume(inserted), Cost(inserted), u)
  {
    if o.side == Buy { KeptOfTaker(rows, o, inserted, u); } else { KeptOfMakers(rows, inserted, u); }
  }

  lemma InsertedOrigin(mode: ReadMode, markets: Markets, f: Funds, pending: map<OrderId, Order>, o: Order,
                       view: seq<Order>, pair: Pair, r: OrderResult)
    requires Ready(mode, markets, f, pending, o, view, pair, r)
    ensures var inserted := AllJoined(pending, r.trades);
      && Origin(pending, RowsAfter(pending, r), o, inserted)
      && Volume(inserted) == r.incoming.filled && Cost(inserted) == Cost(r.trades)
  {
    ReadyRows(mode, markets, f, pending, o, view, pair, r);
    InsertedBy(mode, pending, TakerOf(o), view, r.updated, r.trades, pair);
    JoinedTotals(pending, r.trades);
  }

  lemma KeptAfterMatch(mode: ReadMode, markets: Markets, f: Funds, trades: seq<Trade>, pending: map<OrderId, Order>,
                       o: Order, view: seq<Order>, pair: Pair, r: OrderResult, u: UserId)
    requires Ready(mode, markets, f, pending, o, view, pair, r)
    requires forall t :: t in trades ==> TradeOk(pending, t)
    ensures KeptBack(RowsAfter(pending, r), trades + AllJoined(pending, r.trades))(u)
      == KeptBack(pending, trades)(u) + SavedBy(o, r.incoming.filled, Cost(r.trades), u)
  {
    var inserted, rows := AllJoined(pending, r.trades), RowsAfter(pending, r);
    assert KeptBack(rows, inserted)(u) == SavedBy(o, r.incoming.filled, Cost(r.trades), u) by {
      InsertedOrigin(mode, markets, f, pending, o, view, pair, r);
      KeptNew(pending, rows, o, inserted, u);
    }
    ReadyRows(mode, markets, f, pending, o, view, pair, r);
    KeptGrows(pending, rows, trades, inserted, u);
  }

  // The dollars' terms: a limit buy adds what is left of it, a sell nothing.
  lemma CashWeighs(mode: ReadMode, markets: Markets, f: Funds, pending: map<OrderId, Order>, o: Order, view: seq<Order>,
                   pair: Pair, r: OrderResult, u: UserId)
    requires Ready(mode, markets, f, pending, o, view, pair, r)
    ensures var swept, rows := UpdateRows(pending, r.updated, o.id), RowsAfter(pending, r);
      && Sum(rows, CashTerm(u)) == Sum(swept, CashTerm(u)) + OwedBy(o, r.incoming.filled, u)
      && (o.side == Buy ==> Sum(swept, CashTerm(u)) == Sum(pending, CashTerm(u)))
  {
    ReadyRows(mode, markets, f, pending, o, view, pair, r);
    var swept := UpdateRows(pending, r.updated, o.id);
    RowWeighs(markets, swept, o.(status := r.incoming.status, filled := r.incoming.filled), u, USD);
    if o.side == Buy { OtherSideWeighs(markets, pending, swept, view, Sell, u, USD); }
    LastCashTerm(mode, o, view, pair, r, u);
  }

  lemma LastCashTerm(mode: ReadMode, o: Order, view: seq<Order>, pair: Pair, r: OrderResult, u: UserId)
    requires MatchedAs(mode, o, view, pair, r)
    ensures CashTerm(u)(o.id, o.(status := r.incoming.status, filled := r.incoming.filled))
         == OwedBy(o, r.incoming.filled, u)
  {
    if o.kind == Limit { LimitOwes(mode, o, r, view, pair); }
  }

  // The holdings' terms: a buy adds none of its own, a sell what is left of it.
  lemma HoldingsWeigh(mode: ReadMode, markets: Markets, f: Funds, pending: map<OrderId, Order>, o: Order,
                      view: seq<Order>, pair: Pair, r: OrderResult, u: UserId, a: Asset)
    requires Ready(mode, markets, f, pending, o, view, pair, r)
    ensures var swept, rows := UpdateRows(pending, r.updated, o.id), RowsAfter(pending, r);
      var mine := o.side == Sell && o.kind == Limit && u == o.userId && a == pair.base;
      && Sum(rows, BaseTerm(markets, u, a))
         == Sum(swept, BaseTerm(markets, u, a)) + (if mine then o.quantity - r.incoming.filled else 0.0)
      && (o.side == Sell ==> Sum(swept, BaseTerm(markets, u, a)) == Sum(pending, BaseTerm(markets, u, a)))
  {
    ReadyRows(mode, markets, f, pending, o, view, pair, r);
    var swept := UpdateRows(pending, r.updated, o.id);
    RowWeighs(markets, swept, o.(status := r.incoming.status, filled := r.incoming.filled), u, a);
    LastTerm(mode, markets, f, pending, o, view, pair, r, u, a);
    if o.side == Sell { OtherSideWeighs(markets, pending, swept, view, Buy, u, a); }
  }

  lemma LastTerm(mode: ReadMode, markets: Markets, f: Funds, pending: map<OrderId, Order>, o: Order, view: seq<Order>,
                 pair: Pair, r: OrderResult, u: UserId, a: Asset)
    requires Ready(mode, markets, f, pending, o, view, pair, r)
    ensures BaseTerm(markets, u, a)(o.id, o.(status := r.incoming.status, filled := r.incoming.filled))
         == if o.side == Sell && o.kind == Limit && u == o.userId && a == pair.base
            then o.quantity - r.incoming.filled else 0.0
  {
  }

  // What a step adds to the dollars that have to be locked.
  lemma StepWeighs(mode: ReadMode, markets: Markets, f: Funds, trades: seq<Trade>, pending: map<OrderId, Order>,
                   o: Order, view: seq<Order>, pair: Pair, r: OrderResult, u: UserId)
    requires Ready(mode, markets, f, pending, o, view, pair, r)
    requires forall t :: t in trades ==> TradeOk(pending, t)
    ensures var swept, rows := UpdateRows(pending, r.updated, o.id), RowsAfter(pending, r);
      && (o.side == Buy ==> Sum(swept, CashTerm(u)) == Sum(pending, CashTerm(u)))
      && Sum(rows, CashTerm(u)) + KeptBack(rows, trades + AllJoined(pending, r.trades))(u)
         == Sum(swept, CashTerm(u)) + KeptBack(pending, trades)(u)
          + (OwedBy(o, r.incoming.filled, u) + SavedBy(o, r.incoming.filled, Cost(r.trades), u))
  {
    CashWeighs(mode, markets, f, pending, o, view, pair, r, u);
    KeptAfterMatch(mode, markets, f, trades, pending, o, view, pair, r, u);
  }

  // A new buy order: the settlement goes through, and everything is covered after it.
  lemma BuyCovered(markets: Markets, f: Funds, trades: seq<Trade>, pending: map<OrderId, Order>, o: Order,
                   view: seq<Order>, pair: Pair, r: OrderResult, locked: real)
    requires Ready(Fresh, markets, f, pending, o, view, pair, r) && o.side == Buy
    requires forall t :: t in trades ==> TradeOk(pending, t)
    requires locked == LockOf(o)
    requires HoldingsCovered(markets, f, pending)
    requires CashLocked(f, pending, KeptBack(pending, trades), o.userId, locked)
    ensures var s, rows := Settle(f, r.incoming, pair, AllJoined(pending, r.trades)), RowsAfter(pending, r);
      && s.Ok? && Kept(f, s.value)
      && HoldingsCovered(markets, s.value, rows)
      && CashCovered(s.value, rows, KeptBack(rows, trades + AllJoined(pending, r.trades)))
  {
    CashNonNegative(pending, o.userId);
    KeptNonNegative(pending, trades, o.userId);
    var back := BuySettles(markets, f, pending, o, view, pair, r, locked);
    var inserted, rows := AllJoined(pending, r.trades), RowsAfter(pending, r);
    var g := Settle(f, r.incoming, pair, inserted).value;
    forall u ensures LockedAt(g, Cash(u)) == Sum(rows, CashTerm(u)) + KeptBack(rows, trades + inserted)(u) {
      StepWeighs(Fresh, markets, f, trades, pending, o, view, pair, r, u);
      OwedAndSaved(o, r.incoming.filled, Cost(r.trades), u);
    }
    forall u, a ensures LockedAt(g, Holding(u, a)) == Sum(rows, BaseTerm(markets, u, a)) {
      HoldingsWeigh(Fresh, markets, f, pending, o, view, pair, r, u, a);
    }
  }

  // A new sell order likewise.
  lemma SellCovered(markets: Markets, f: Funds, trades: seq<Trade>, pending: map<OrderId, Order>, o: Order,
                    view: seq<Order>, pair: Pair, r: OrderResult)
    requires Ready(Fresh, markets, f, pending, o, view, pair, r) && o.side == Sell
    requires forall t :: t in trades ==> TradeOk(pending, t)
    requires CashCovered(f, pending, KeptBack(pending, trades))
    requires HoldingsLocked(markets, f, pending, o.userId, pair.base, LockOf(o))
    ensures var s, rows := Settle(f, r.incoming, pair, AllJoined(pending, r.trades)), RowsAfter(pending, r);
      && s.Ok? && Kept(f, s.value)
      && HoldingsCovered(markets, s.value, rows)
      && CashCovered(s.value, rows, KeptBack(rows, trades + AllJoined(pending, r.trades)))
  {
    var kept := KeptBack(pending, trades);
    forall u ensures kept(u) >= 0.0 { KeptNonNegative(pending, trades, u); }
    BaseNonNegative(markets, pending, o.userId, pair.base);
    var back := SellSettles(markets, f, pending, kept, o, view, pair, r);
    var inserted, rows := AllJoined(pending, r.trades), RowsAfter(pending, r);
    var g := Settle(f, r.incoming, pair, inserted).value;
    SellCash(markets, f, trades, pending, o, view, pair, r, g);
    SellHoldings(markets, f, pending, o, view, pair, r, g, back);
  }

  lemma SellHoldings(markets: Markets, f: Funds, pending: map<OrderId, Order>, o: Order, view: seq<Order>, pair: Pair,
                     r: OrderResult, g: Funds, back: real)
    requires Ready(Fresh, markets, f, pending, o, view, pair, r) && o.side == Sell
    requires HoldingsLocked(markets, f, pending, o.userId, pair.base, LockOf(o))
    requires back == if o.kind == Market then o.quantity - r.incoming.filled else 0.0
    requires forall u, a :: (
      LockedAt(g, Holding(u, a))
      == LockedAt(f, Holding(u, a)) - (if u == o.userId && a == pair.base then r.incoming.filled + back else 0.0))
    ensures HoldingsCovered(markets, g, RowsAfter(pending, r))
  {
    var rows := RowsAfter(pending, r);
    forall u, a ensures LockedAt(g, Holding(u, a)) == Sum(rows, BaseTerm(markets, u, a)) {
      HoldingsWeigh(Fresh, markets, f, pending, o, view, pair, r, u, a);
    }
  }

  lemma SellCash(markets: Markets, f: Funds, trades: seq<Trade>, pending: map<OrderId, Order>, o: Order,
                 view: seq<Order>, pair: Pair, r: OrderResult, g: Funds)
    requires Ready(Fresh, markets, f, pending, o, view, pair, r) && o.side == Sell
    requires forall t :: t in trades ==> TradeOk(pending, t)
    requires CashCovered(g, UpdateRows(pending, r.updated, o.id), KeptBack(pending, trades))
    ensures var rows := RowsAfter(pending, r);
      CashCovered(g, rows, KeptBack(rows, trades + AllJoined(pending, r.trades)))
  {
    var inserted, rows := AllJoined(pending, r.trades), RowsAfter(pending, r);
    forall u ensures LockedAt(g, Cash(u)) == Sum(rows, CashTerm(u)) + KeptBack(rows, trades + inserted)(u) {
      StepWeighs(Fresh, markets, f, trades, pending, o, view, pair, r, u);
    }
  }
}
