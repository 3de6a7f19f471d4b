// The exchange in which every read of one match serves the same level, as the code is
// written: when its settlement goes through, and when it leaves the locks covered.

module StaleLocks {
  import opened Models
  import opened Sums
  import opened Ledger
  import opened OrderBook
  import opened Matching
  import opened Execution
  import opened Settlement
  import opened Coverage
  import opened Exchange
  import opened Validity
  import opened ReadTimes
  import opened LockCoverage
  import opened Demands
  import opened Creations
  import opened Solvency
  import opened Accounting

  // --- Many trades with one maker -----------------------------------------------------------

  // Inserted trades that all take the one level, the taker being on the given side.
  ghost predicate OneMaker(f: Funds, taker: Side, l: Order, base: Asset, inserted: seq<Trade>) {
    && l.price > 0.0 && Cash(l.userId) in f.rows && base in f.assets
    && forall x :: x in inserted ==>
         && x.quantity > 0.0 && x.price == l.price && x.base == base
         && (if taker == Buy then x.seller else x.buyer) == l.userId
         && Cash(x.buyer) in f.rows && Cash(x.seller) in f.rows
  }

  ghost predicate OnePrice(price: real, trades: seq<Trade>) {
    price > 0.0 && forall x :: x in trades ==> x.price == price && x.quantity > 0.0
  }

  lemma {:induction false} OnePriceCosts(price: real, trades: seq<Trade>)
    requires OnePrice(price, trades)
    ensures Volume(trades) >= 0.0 && Cost(trades) >= 0.0
    ensures Cost(trades) == price * Volume(trades)
  {
    if trades != [] {
      assert trades[0] in trades;
      assert forall y :: y in trades[1..] ==> y in trades;
      OnePriceCosts(price, trades[1..]);
      var cost := FirstCost(trades);
      PriceAdds(price, trades[0].quantity, cost, Volume(trades[1..]), Cost(trades[1..]), Volume(trades));
    }
  }

  lemma OneMakerTotals(f: Funds, taker: Side, l: Order, base: Asset, inserted: seq<Trade>)
    requires OneMaker(f, taker, l, base, inserted)
    ensures Volume(inserted) >= 0.0 && Cost(inserted) >= 0.0
    ensures Cost(inserted) == l.price * Volume(inserted)
  {
    OnePriceCosts(l.price, inserted);
  }

  lemma PriceAdds(price: real, quantity: real, cost: real, volume: real, total: real, whole: real)
    requires price > 0.0 && quantity > 0.0 && cost == price * quantity && total == price * volume
    requires whole == quantity + volume
    ensures cost > 0.0 && cost + total == price * whole
  {
  }

  // --- The sweep of one level ----------------------------------------------------------------

  // The rows end with the last fill of the level alone.
  lemma {:induction false} StaleRow(taker: Taker, view: seq<Order>, updated: seq<Order>, trades: seq<Trade>, pair: Pair,
                                    orders: map<OrderId, Order>)
    requires Sweeps(Stale, taker, view, updated, trades, pair) && trades != []
    requires CoreView(orders, view, taker.id)
    ensures UpdateRows(orders, updated, taker.id) == orders[view[0].id := Hit(view[0], trades[|trades| - 1].quantity)]
    ensures 0.0 < trades[|trades| - 1].quantity <= view[0].Remaining()
    decreases |trades|
  {
    var hit := updated[1];
    UpdateRowsHead(orders, updated, taker.id);
    var next := orders[hit.id := hit];
    if |trades| > 1 {
      StaleRow(taker, view, updated[2..], trades[1..], pair, next);
      assert next[view[0].id := Hit(view[0], trades[|trades| - 1].quantity)]
          == orders[view[0].id := Hit(view[0], trades[|trades| - 1].quantity)];
    }
  }

  lemma {:induction false} StaleMaker(f: Funds, taker: Taker, view: seq<Order>, updated: seq<Order>, trades: seq<Trade>,
                                      pair: Pair, orders: map<OrderId, Order>)
    requires Sweeps(Stale, taker, view, updated, trades, pair) && view != []
    requires CoreView(orders, view, taker.id) && UsersKnown(f, orders) && taker.id in orders
    requires view[0].price > 0.0 && pair.base in f.assets
    ensures OneMaker(f, taker.side, view[0], pair.base, AllJoined(orders, trades))
    decreases |trades|
  {
    if trades != [] {
      StaleMaker(f, taker, view, updated[2..], trades[1..], pair, orders);
      forall x | x in AllJoined(orders, trades)
        ensures x == Joined(orders, trades[0]) || x in AllJoined(orders, trades[1..])
      {
      }
    }
  }

  // What a stale match that needs more than the level has takes from its owner: the
  // whole order, at the level's price, however little of it the level has left.
  function StaleDemand(o: Order, l: Order): real
    requires l.price > 0.0
  {
    if o.side == Sell then l.price * o.quantity
    else if o.kind == Limit then o.quantity
    else o.price / l.price
  }

  lemma StaleTotals(o: Order, view: seq<Order>, pair: Pair)
    requires Live(view) && DistinctIds(view) && o.filled == 0.0 && o.quantity > 0.0 && o.price >= 0.0
    requires !FirstReadSuffices(o, view)
    ensures var r := Match(Stale, o, view, pair);
      && |r.trades| > 1
      && (if o.kind == Market && o.side == Buy then Cost(r.trades) == o.price else Volume(r.trades) == o.quantity)
  {
    StaleMatches(o, view, pair);
    assert LiveLevel(view[0]);
    if o.kind == Market && o.side == Buy {
      StaleSpendsAll(o.(quantity := INFINITE_QUANTITY), view, pair);
    } else {
      StaleRepeats(o, view, pair);
    }
  }

  function MakerSlot(taker: Side, l: Order, base: Asset): Slot {
    if taker == Buy then Holding(l.userId, base) else Cash(l.userId)
  }

  // What the trades demand of the maker.
  function Demanded(taker: Side, inserted: seq<Trade>): real {
    if taker == Buy then Volume(inserted) else Cost(inserted)
  }

  lemma DemandedIs(f: Funds, o: Order, l: Order, base: Asset, inserted: seq<Trade>)
    requires OneMaker(f, o.side, l, base, inserted)
    requires if o.kind == Market && o.side == Buy then Cost(inserted) == o.price else Volume(inserted) == o.quantity
    ensures Demanded(o.side, inserted) == StaleDemand(o, l)
  {
    OneMakerTotals(f, o.side, l, base, inserted);
    if o.side == Buy && o.kind == Market {
      QuotientIs(Volume(inserted), Cost(inserted), l.price);
    }
  }

  // --- What a stale match asks for ------------------------------------------------------------------

  lemma {:induction false} OneMakerAsks(f: Funds, taker: Side, l: Order, base: Asset, inserted: seq<Trade>, k: Slot)
    requires OneMaker(f, taker, l, base, inserted)
    ensures MakersAsk(taker, k, inserted) == if k == MakerSlot(taker, l, base) then Demanded(taker, inserted) else 0.0
  {
    if inserted != [] {
      assert inserted[0] in inserted;
      assert forall x :: x in inserted[1..] ==> x in inserted;
      OneMakerAsks(f, taker, l, base, inserted[1..], k);
      var cost := FirstCost(inserted);
      FirstAsks(taker, k, inserted, cost);
    }
  }

  // A stale match that needs more than its level, its trades inserted.
  ghost predicate OneLevel(s: State, o: Order, view: seq<Order>, base: Asset, r: OrderResult, inserted: seq<Trade>) {
    && view != [] && OneMaker(s.funds, o.side, view[0], base, inserted) && |r.trades| > 1
    && inserted == AllJoined(s.orders[o.id := o], r.trades)
    && Demanded(o.side, inserted) == StaleDemand(o, view[0])
    && r.incoming.userId == o.userId && r.incoming.side == o.side && r.incoming.kind == o.kind
  }

  lemma StaleMatchIsOneLevel(s: State, o: Order, view: seq<Order>, pair: Pair, r: OrderResult)
    returns (inserted: seq<Trade>)
    requires Valid(s) && o.id !in s.orders && o.filled == 0.0 && o.quantity > 0.0 && o.price >= 0.0
    requires Cash(o.userId) in s.funds.rows
    requires view == Levels(s.book, OppositeKey(o)) && Live(view) && DistinctIds(view) && !FirstReadSuffices(o, view)
    requires r == Match(Stale, o, view, pair) && pair.base in s.funds.assets
    ensures OneLevel(s, o, view, pair.base, r, inserted)
    ensures Volume(inserted) == Volume(r.trades) && Cost(inserted) == Cost(r.trades)
  {
    var pending := s.orders[o.id := o];
    inserted := AllJoined(pending, r.trades);
    MatchFacts(Stale, o, view, pair);
    StaleTotals(o, view, pair);
    JoinedTotals(pending, r.trades);
    StaleOneMaker(s, o, view, pair, r);
    DemandedIs(s.funds, o, view[0], pair.base, inserted);
  }

  lemma StaleOneMaker(s: State, o: Order, view: seq<Order>, pair: Pair, r: OrderResult)
    requires Valid(s) && o.id !in s.orders && Cash(o.userId) in s.funds.rows && pair.base in s.funds.assets
    requires view == Levels(s.book, OppositeKey(o)) && Live(view) && view != []
    requires Sweeps(Stale, TakerOf(o), view, r.updated, r.trades, pair)
    ensures OneMaker(s.funds, o.side, view[0], pair.base, AllJoined(s.orders[o.id := o], r.trades))
  {
    ViewRows(s, o, s.orders[o.id := o], view);
    assert LiveLevel(view[0]);
    StaleMaker(s.funds, TakerOf(o), view, r.updated, r.trades, pair, s.orders[o.id := o]);
  }

  // What it asks of the taker: of a sell all of its quantity, of a limit buy that at the
  // level's price, of a market buy its amount.
  function TakerDemand(o: Order, l: Order): real {
    if o.side == Sell then o.quantity else if o.kind == Limit then l.price * o.quantity else o.price
  }

  lemma StaleTakerAsks(o: Order, view: seq<Order>, pair: Pair, base: Asset)
    requires Live(view) && DistinctIds(view) && o.filled == 0.0 && o.quantity > 0.0 && o.price >= 0.0
    requires !FirstReadSuffices(o, view)
    ensures var r := Match(Stale, o, view, pair);
      && TakerSlot(r.incoming, base) == TakerSlot(o, base)
      && TakerAsks(r.incoming, base, Volume(r.trades), Cost(r.trades), TakerSlot(o, base)) == TakerDemand(o, view[0])
  {
    MatchFacts(Stale, o, view, pair);
    StaleTotals(o, view, pair);
    assert LiveLevel(view[0]);
    if o.side == Buy && o.kind == Limit { StaleCostIs(o, view, pair); }
  }

  lemma StaleCostIs(o: Order, view: seq<Order>, pair: Pair)
    requires Live(view) && view != [] && LiveLevel(view[0]) && o.kind == Limit && o.side == Buy
    requires o.filled == 0.0 && o.quantity > 0.0 && Crosses(o, view[0])
    requires Volume(Match(Stale, o, view, pair).trades) == o.quantity
    ensures Cost(Match(Stale, o, view, pair).trades) == view[0].price * o.quantity
  {
    StaleRepeats(o, view, pair);
    var r := MatchByQuantity(Stale, o, view, pair);
    OneLevelPrices(o, view[0], pair, r);
    OnePriceCosts(view[0].price, r.trades);
  }

  lemma OneLevelPrices(o: Order, level: Order, pair: Pair, r: OrderResult)
    requires TakesOneLevel(o, level, pair, r) && level.price > 0.0
    ensures OnePrice(level.price, r.trades)
  {
    forall x | x in r.trades ensures x.price == level.price && x.quantity > 0.0 {
      var i :| 0 <= i < |r.trades| && r.trades[i] == x;
      assert IsHit(TakerOf(o), level, r.trades[i], r.updated[2 * i + 1], pair);
    }
  }

  // The owner of the best level has locked, for all of its orders together, what the match
  // is going to take from it in the asset that the request names; and so has the taker, the
  // lock of the request included.
  predicate SlotsAfford(s: State, user: UserId, req: Request, o: Order, view: seq<Order>)
    requires req.marketId in s.markets
  {
    && view != [] && view[0].price > 0.0
    && StaleDemand(o, view[0]) <= Backing(s, user, req, MakerSlot(o.side, view[0], req.base))
    && TakerDemand(o, view[0]) <= Backing(s, user, req, TakerSlot(o, req.base))
  }

  predicate StaleAffords(s: State, user: UserId, req: Request, o: Order, view: seq<Order>)
    requires req.marketId in s.markets
  {
    req.base in s.funds.assets && req.quote in s.funds.assets && SlotsAfford(s, user, req, o, view)
  }

  // --- When a stale creation goes through ---------------------------------------------------------------

  lemma LockIsLockOf(s: State, user: UserId, req: Request, id: OrderId, now: int)
    requires Admissible(s, user, req, id, now)
    ensures LockAmount(Effective(req)) == LockOf(OrderOf(user, req, id, now)) > 0.0
  {
  }

  // Asked of one slot by the makers, of one by the taker, and of no other.
  lemma TwoSlotsDecide(s: State, user: UserId, req: Request, i: Order, l: Order, trades: seq<Trade>, lock: Slot,
                       amount: real, maker: real)
    requires Sound(s.funds) && req.marketId in s.markets && amount >= 0.0
    requires lock == SlotFor(user, LockAsset(s.markets[req.marketId], req.side)) && amount == LockAmount(Effective(req))
    requires forall k :: MakersAsk(i.side, k, trades) == if k == MakerSlot(i.side, l, req.base) then maker else 0.0
    requires MakerSlot(i.side, l, req.base) != TakerSlot(i, req.base)
    ensures (forall k :: Asked(i, req.base, trades, k) <= Backing(s, user, req, k)) <==>
      && maker <= Backing(s, user, req, MakerSlot(i.side, l, req.base))
      && TakerAsks(i, req.base, Volume(trades), Cost(trades), TakerSlot(i, req.base))
          <= Backing(s, user, req, TakerSlot(i, req.base))
  {
    var m, t := MakerSlot(i.side, l, req.base), TakerSlot(i, req.base);
    assert Asked(i, req.base, trades, m) == maker;
    assert Asked(i, req.base, trades, t) == TakerAsks(i, req.base, Volume(trades), Cost(trades), t);
    forall k | k != m && k != t ensures Asked(i, req.base, trades, k) == 0.0 <= Backing(s, user, req, k) {
    }
  }

  ghost predicate AllBacked(s: State, user: UserId, req: Request, id: OrderId, now: int)
    requires LiveBook(s.book) && req.marketId in s.markets
  {
    var r, trades := MatchFor(Stale, s, user, req, id, now), TradesFor(Stale, s, user, req, id, now);
    forall k :: Asked(r.incoming, req.base, trades, k) <= Backing(s, user, req, k)
  }

  lemma OneLevelAsks(s: State, o: Order, view: seq<Order>, base: Asset, r: OrderResult, inserted: seq<Trade>)
    requires OneLevel(s, o, view, base, r, inserted)
    ensures forall k :: MakersAsk(r.incoming.side, k, inserted)
                     == if k == MakerSlot(o.side, view[0], base) then StaleDemand(o, view[0]) else 0.0
  {
    forall k
      ensures MakersAsk(r.incoming.side, k, inserted)
           == if k == MakerSlot(o.side, view[0], base) then StaleDemand(o, view[0]) else 0.0
    {
      OneMakerAsks(s.funds, o.side, view[0], base, inserted, k);
    }
  }

  lemma StaleSlots(s: State, user: UserId, req: Request, id: OrderId, now: int)
    requires Valid(s) && LiveBook(s.book) && Admissible(s, user, req, id, now)
    requires req.base in s.funds.assets
    requires !FirstReadSuffices(OrderOf(user, req, id, now), LevelsFor(s, user, req, id, now))
    requires DistinctIds(LevelsFor(s, user, req, id, now))
    ensures TradesFor(Stale, s, user, req, id, now) != []
    ensures AllBacked(s, user, req, id, now) <==>
      SlotsAfford(s, user, req, OrderOf(user, req, id, now), LevelsFor(s, user, req, id, now))
  {
    var o, view, pair := OrderOf(user, req, id, now), LevelsFor(s, user, req, id, now), Pair(req.base, req.quote);
    var r := MatchFor(Stale, s, user, req, id, now);
    var inserted := StaleMatchIsOneLevel(s, o, view, pair, r);
    StaleTakerAsks(o, view, pair, req.base);
    LockIsLockOf(s, user, req, id, now);
    JoinedEmpty(s.orders[id := o], r.trades);
    OneLevelAsks(s, o, view, req.base, r, inserted);
    TwoSlotsDecide(s, user, req, r.incoming, view[0], inserted,
                   SlotFor(user, LockAsset(s.markets[req.marketId], req.side)),
                   LockAmount(Effective(req)), StaleDemand(o, view[0]));
  }

  lemma ValidStaleSucceedsIff(s: State, user: UserId, req: Request, id: OrderId, now: int)
    requires Valid(s) && LiveBook(s.book)
    requires !FirstReadSuffices(OrderOf(user, req, id, now), LevelsFor(s, user, req, id, now))
    requires DistinctIds(LevelsFor(s, user, req, id, now))
    ensures Create(Stale, Decoded, s, user, req, id, now).Ok? <==>
      && Admissible(s, user, req, id, now)
      && StaleAffords(s, user, req, OrderOf(user, req, id, now), LevelsFor(s, user, req, id, now))
  {
    ValidCreateSucceedsIff(Stale, s, user, req, id, now);
    if Admissible(s, user, req, id, now) {
      if req.base in s.funds.assets {
        StaleSlots(s, user, req, id, now);
      } else {
        StaleTrades(s, user, req, id, now);
      }
    }
  }

  lemma StaleTrades(s: State, user: UserId, req: Request, id: OrderId, now: int)
    requires Valid(s) && LiveBook(s.book) && Admissible(s, user, req, id, now)
    requires !FirstReadSuffices(OrderOf(user, req, id, now), LevelsFor(s, user, req, id, now))
    requires DistinctIds(LevelsFor(s, user, req, id, now))
    ensures TradesFor(Stale, s, user, req, id, now) != []
  {
    var o, view, pair := OrderOf(user, req, id, now), LevelsFor(s, user, req, id, now), Pair(req.base, req.quote);
    StaleTotals(o, view, pair);
    JoinedEmpty(s.orders[id := o], MatchFor(Stale, s, user, req, id, now).trades);
  }

  // In a consistent state, whichever way the times are read, a stale creation goes through
  // exactly when the fresh one would, if its first read suffices; and otherwise exactly when
  // it is admissible, its assets are registered, and the owner of the level read happens to
  // have enough locked for the whole order, and so has the taker.
  lemma StaleCreateSucceedsIff(times: TimeRead, s: State, user: UserId, req: Request, id: OrderId, now: int)
    requires Consistent(s) && LiveBook(s.book)
    ensures var o, view := OrderOf(user, req, id, now), LevelsFor(s, user, req, id, now);
      Create(Stale, times, s, user, req, id, now).Ok? <==>
        && Admissible(s, user, req, id, now)
        && if FirstReadSuffices(o, view) then Affords(Fresh, s, user, req, id, now)
           else StaleAffords(s, user, req, o, view)
  {
    var o, view := OrderOf(user, req, id, now), LevelsFor(s, user, req, id, now);
    if FirstReadSuffices(o, view) {
      SufficientReadIsFresh(times, s, user, req, id, now);
      CreateSucceedsIff(Fresh, times, s, user, req, id, now);
    } else {
      StaleSucceedsOnStored(times, s, user, req, id, now);
    }
  }

  lemma StaleSucceedsOnStored(times: TimeRead, s: State, user: UserId, req: Request, id: OrderId, now: int)
    requires Consistent(s) && LiveBook(s.book)
    requires !FirstReadSuffices(OrderOf(user, req, id, now), LevelsFor(s, user, req, id, now))
    ensures Create(Stale, times, s, user, req, id, now).Ok? <==>
      && Admissible(s, user, req, id, now)
      && StaleAffords(s, user, req, OrderOf(user, req, id, now), LevelsFor(s, user, req, id, now))
  {
    CreateAlike(Stale, times, s, user, req, id, now);
    AffordsBlind(Stale, s, user, req, id, now);
    LevelsForAreDistinct(s, user, req, id, now);
    ValidStaleSucceedsIff(Stored(s), user, req, id, now);
  }

  // --- What it leaves ------------------------------------------------------------------------------------

  // A stale match of a request that names its market's base, its trades inserted.
  ghost predicate StaleReady(s: State, o: Order, pair: Pair, f: Funds, k: Slot, amount: real, view: seq<Order>,
                             r: OrderResult, inserted: seq<Trade>) {
    && Opened(s, o, pair, f, k, amount)
    && Ready(Stale, s.markets, f, s.orders[o.id := o], o, view, pair, r)
    && OneLevel(s, o, view, pair.base, r, inserted)
    && Volume(inserted) == Volume(r.trades) && Cost(inserted) == Cost(r.trades)
    && CoreView(s.orders[o.id := o], view, o.id)
    && view[0].id in s.orders && s.orders[view[0].id] == view[0] && view[0].Resting()
    && KeyOf(view[0]) == OppositeKey(o)
  }

  // What the one row loses of its claim is the last fill alone, ...
  lemma StaleClaim(s: State, o: Order, pair: Pair, f: Funds, k: Slot, amount: real, view: seq<Order>, r: OrderResult,
                   inserted: seq<Trade>, q: real)
    requires StaleReady(s, o, pair, f, k, amount, view, r, inserted)
    requires q == r.trades[|r.trades| - 1].quantity
    ensures UpdateRows(s.orders[o.id := o], r.updated, o.id) == s.orders[o.id := o][view[0].id := Hit(view[0], q)]
    ensures 0.0 < q <= view[0].Remaining() && q < Volume(inserted)
    ensures SameCores(s.orders, s.orders[o.id := o])
    ensures forall t :: t in s.trades ==> TradeOk(s.orders[o.id := o], t)
  {
    var pending := s.orders[o.id := o];
    StaleRow(TakerOf(o), view, r.updated, r.trades, pair, pending);
    StaleSweepFills(TakerOf(o), view, r.updated, r.trades, pair, pending);
    PendingRests(s, o, pending, f);
  }

  // ... which is less than what was taken: of a seller's holding, ...
  lemma StaleSellerShort(s: State, o: Order, pair: Pair, f: Funds, k: Slot, amount: real, view: seq<Order>,
                         r: OrderResult, inserted: seq<Trade>)
    requires StaleReady(s, o, pair, f, k, amount, view, r, inserted) && Covered(s) && o.side == Buy
    ensures LockedAt(s.funds, Holding(view[0].userId, pair.base)) - Volume(inserted)
          < Sum(RowsAfter(s.orders[o.id := o], r), BaseTerm(s.markets, view[0].userId, pair.base))
  {
    var pending, q, l := s.orders[o.id := o], r.trades[|r.trades| - 1].quantity, view[0];
    StaleClaim(s, o, pair, f, k, amount, view, r, inserted, q);
    HoldingsWeigh(Stale, s.markets, f, pending, o, view, pair, r, l.userId, pair.base);
    HitTerm(s.markets, pending, l, q, l.userId, pair.base);
    PendingWeighs(s, o, pending, l.userId, pair.base);
  }

  // ... of a buyer's dollars.
  lemma StaleBuyerShort(s: State, o: Order, pair: Pair, f: Funds, k: Slot, amount: real, view: seq<Order>,
                        r: OrderResult, inserted: seq<Trade>)
    requires StaleReady(s, o, pair, f, k, amount, view, r, inserted) && Covered(s) && o.side == Sell
    ensures var rows, u := RowsAfter(s.orders[o.id := o], r), view[0].userId;
      LockedAt(s.funds, Cash(u)) - Cost(inserted) < Sum(rows, CashTerm(u)) + KeptBack(rows, s.trades + inserted)(u)
  {
    var pending, q, l := s.orders[o.id := o], r.trades[|r.trades| - 1].quantity, view[0];
    StaleClaim(s, o, pair, f, k, amount, view, r, inserted, q);
    StepWeighs(Stale, s.markets, f, s.trades, pending, o, view, pair, r, l.userId);
    PendingWeighs(s, o, pending, l.userId, USD);
    var part := ClaimPart(s.funds, pending, l, pair.base, inserted, q);
  }

  lemma ClaimPart(f: Funds, orders: map<OrderId, Order>, l: Order, base: Asset, inserted: seq<Trade>, q: real)
    returns (part: real)
    requires OneMaker(f, Sell, l, base, inserted) && 0.0 < q <= l.Remaining() && q < Volume(inserted)
    requires l.id in orders && orders[l.id] == l && l.Resting() && l.side == Buy
    ensures part < Cost(inserted)
    ensures Sum(orders[l.id := Hit(l, q)], CashTerm(l.userId)) == Sum(orders, CashTerm(l.userId)) - part
  {
    part := l.price * q;
    HitCashTerm(orders, l, q, part, l.userId);
    OneMakerTotals(f, Sell, l, base, inserted);
    CheaperPart(l.price, q, Volume(inserted));
  }

  lemma CheaperPart(price: real, part: real, whole: real)
    requires price > 0.0 && part < whole
    ensures price * part < price * whole
  {
    assert price * (whole - part) > 0.0;
  }

  lemma StaleOpens(s: State, user: UserId, req: Request, id: OrderId, now: int) returns (f: Funds, k: Slot)
    requires Valid(s) && LiveBook(s.book) && LocksOwn(s, req) && NamesBase(s, req)
    requires Admissible(s, user, req, id, now) && req.base in s.funds.assets && req.quote in s.funds.assets
    ensures Opened(s, OrderOf(user, req, id, now), Pair(req.base, req.quote), f, k, LockAmount(Effective(req)))
  {
    f := AdmissibleLocks(s, user, req, id, now);
    k := LockedOpens(s, user, req, id, now, f, Pair(req.base, req.quote));
  }

  lemma OpenedOneLevel(s: State, o: Order, pair: Pair, f: Funds, k: Slot, amount: real, view: seq<Order>,
                       r: OrderResult)
    returns (inserted: seq<Trade>)
    requires Opened(s, o, pair, f, k, amount) && view == Levels(s.book, OppositeKey(o))
    requires DistinctIds(view) && !FirstReadSuffices(o, view) && r == Match(Stale, o, view, pair)
    ensures inserted == AllJoined(s.orders[o.id := o], r.trades) && OneLevel(s, o, view, pair.base, r, inserted)
    ensures Volume(inserted) == Volume(r.trades) && Cost(inserted) == Cost(r.trades)
  {
    inserted := StaleMatchIsOneLevel(s, o, view, pair, r);
  }

  lemma FirstLevelIsRow(s: State, o: Order, view: seq<Order>)
    requires Valid(s) && o.id !in s.orders && view == Levels(s.book, OppositeKey(o)) && view != []
    ensures CoreView(s.orders[o.id := o], view, o.id)
    ensures view[0].id in s.orders && s.orders[view[0].id] == view[0] && view[0].Resting()
    ensures KeyOf(view[0]) == OppositeKey(o)
  {
    ViewRows(s, o, s.orders[o.id := o], view);
  }

  lemma OpenedIsStale(s: State, o: Order, pair: Pair, f: Funds, k: Slot, amount: real, view: seq<Order>, r: OrderResult)
    returns (inserted: seq<Trade>)
    requires Opened(s, o, pair, f, k, amount) && view == Levels(s.book, OppositeKey(o))
    requires DistinctIds(view) && !FirstReadSuffices(o, view) && r == Match(Stale, o, view, pair)
    ensures inserted == AllJoined(s.orders[o.id := o], r.trades)
    ensures StaleReady(s, o, pair, f, k, amount, view, r, inserted)
  {
    inserted := OpenedOneLevel(s, o, pair, f, k, amount, view, r);
    OpenedReady(Stale, s, o, pair, f, k, amount, r);
    FirstLevelIsRow(s, o, view);
  }

  lemma StaleParts(s: State, user: UserId, req: Request, id: OrderId, now: int, o: Order, view: seq<Order>,
                   r: OrderResult)
    returns (f: Funds, k: Slot, inserted: seq<Trade>)
    requires Valid(s) && LiveBook(s.book) && LocksOwn(s, req) && NamesBase(s, req)
    requires Admissible(s, user, req, id, now) && req.base in s.funds.assets && req.quote in s.funds.assets
    requires o == OrderOf(user, req, id, now) && view == LevelsFor(s, user, req, id, now)
    requires r == MatchFor(Stale, s, user, req, id, now) && !FirstReadSuffices(o, view) && DistinctIds(view)
    ensures inserted == TradesFor(Stale, s, user, req, id, now) && o.side == req.side
    ensures OneLevel(s, o, view, req.base, r, inserted)
    ensures StaleReady(s, o, Pair(req.base, req.quote), f, k, LockAmount(Effective(req)), view, r, inserted)
  {
    f, k := StaleOpens(s, user, req, id, now);
    inserted := OpenedIsStale(s, o, Pair(req.base, req.quote), f, k, LockAmount(Effective(req)), view, r);
  }

  lemma StaleNamedUncovers(s: State, user: UserId, req: Request, id: OrderId, now: int, t: State)
    requires Valid(s) && LiveBook(s.book) && Covered(s) && LocksOwn(s, req) && NamesBase(s, req)
    requires Create(Stale, Decoded, s, user, req, id, now) == Ok(t)
    requires !FirstReadSuffices(OrderOf(user, req, id, now), LevelsFor(s, user, req, id, now))
    requires DistinctIds(LevelsFor(s, user, req, id, now))
    ensures !Covered(t)
  {
    ValidStaleSucceedsIff(s, user, req, id, now);
    var o, view := OrderOf(user, req, id, now), LevelsFor(s, user, req, id, now);
    var r := MatchFor(Stale, s, user, req, id, now);
    var f, k, inserted := StaleParts(s, user, req, id, now, o, view, r);
    StaleEnds(s, user, req, id, now, t, o, view, r, inserted);
    StaleShort(s, o, Pair(req.base, req.quote), f, k, LockAmount(Effective(req)), view, r, inserted, t);
  }

  lemma StaleEnds(s: State, user: UserId, req: Request, id: OrderId, now: int, t: State, o: Order, view: seq<Order>,
                  r: OrderResult, inserted: seq<Trade>)
    requires Valid(s) && LiveBook(s.book) && LocksOwn(s, req) && Create(Stale, Decoded, s, user, req, id, now) == Ok(t)
    requires o == OrderOf(user, req, id, now) && o.side == req.side
    requires r == MatchFor(Stale, s, user, req, id, now) && inserted == TradesFor(Stale, s, user, req, id, now)
    requires OneLevel(s, o, view, req.base, r, inserted)
    ensures t.markets == s.markets && t.orders == RowsAfter(s.orders[o.id := o], r) && t.trades == s.trades + inserted
    ensures LockedAt(t.funds, MakerSlot(o.side, view[0], req.base))
         == LockedAt(s.funds, MakerSlot(o.side, view[0], req.base)) - Demanded(o.side, inserted)
  {
    StaleTakes(s, user, req, id, now, t, o, view, r, inserted);
    CreatedIs(Stale, s, user, req, id, now, t, r, inserted);
  }

  lemma StaleShort(s: State, o: Order, pair: Pair, f: Funds, k: Slot, amount: real, view: seq<Order>, r: OrderResult,
                   inserted: seq<Trade>, t: State)
    requires StaleReady(s, o, pair, f, k, amount, view, r, inserted) && Covered(s)
    requires t.markets == s.markets && t.orders == RowsAfter(s.orders[o.id := o], r) && t.trades == s.trades + inserted
    requires LockedAt(t.funds, MakerSlot(o.side, view[0], pair.base))
          == LockedAt(s.funds, MakerSlot(o.side, view[0], pair.base)) - Demanded(o.side, inserted)
    ensures !Covered(t)
  {
    if o.side == Buy {
      StaleSellerShort(s, o, pair, f, k, amount, view, r, inserted);
    } else {
      StaleBuyerShort(s, o, pair, f, k, amount, view, r, inserted);
    }
  }

  // What the owner of the level has lost after the creation.
  lemma StaleTakes(s: State, user: UserId, req: Request, id: OrderId, now: int, t: State, o: Order, view: seq<Order>,
                   r: OrderResult, inserted: seq<Trade>)
    requires Valid(s) && LiveBook(s.book) && LocksOwn(s, req) && Create(Stale, Decoded, s, user, req, id, now) == Ok(t)
    requires o == OrderOf(user, req, id, now) && o.side == req.side
    requires r == MatchFor(Stale, s, user, req, id, now) && inserted == TradesFor(Stale, s, user, req, id, now)
    requires OneLevel(s, o, view, req.base, r, inserted)
    ensures LockedAt(t.funds, MakerSlot(o.side, view[0], req.base))
         == LockedAt(s.funds, MakerSlot(o.side, view[0], req.base)) - Demanded(o.side, inserted)
  {
    CreatedWasAdmissible(Stale, Decoded, s, user, req, id, now);
    ValidCreateSucceedsIff(Stale, s, user, req, id, now);
    OneMakerAsks(s.funds, o.side, view[0], req.base, inserted, MakerSlot(o.side, view[0], req.base));
  }

  lemma CreatedIs(mode: ReadMode, s: State, user: UserId, req: Request, id: OrderId, now: int, t: State, r: OrderResult,
                  inserted: seq<Trade>)
    requires LiveBook(s.book) && Create(mode, Decoded, s, user, req, id, now) == Ok(t)
    requires r == MatchFor(mode, s, user, req, id, now) && inserted == TradesFor(mode, s, user, req, id, now)
    ensures t.markets == s.markets && t.orders == RowsAfter(s.orders[id := OrderOf(user, req, id, now)], r)
    ensures t.trades == s.trades + inserted
  {
    var o, view, pair, q := CreateParts(mode, Decoded, s, user, req, id, now, t);
    PartsAre(mode, s, t, o, view, pair, q);
  }

  lemma PartsAre(mode: ReadMode, s: State, t: State, o: Order, view: seq<Order>, pair: Pair, r: OrderResult)
    requires Parts(mode, Decoded, s, t, o, view, pair, r)
    ensures r == Match(mode, o, Levels(s.book, OppositeKey(o)), pair) && t.markets == s.markets
    ensures t.orders == RowsAfter(s.orders[o.id := o], r)
    ensures t.trades == s.trades + AllJoined(s.orders[o.id := o], r.trades)
  {
  }

  lemma ValidStaleCoveredIff(s: State, user: UserId, req: Request, id: OrderId, now: int, t: State)
    requires Valid(s) && LiveBook(s.book) && Covered(s)
    requires Create(Stale, Decoded, s, user, req, id, now) == Ok(t)
    requires DistinctIds(LevelsFor(s, user, req, id, now))
    requires !FirstReadSuffices(OrderOf(user, req, id, now), LevelsFor(s, user, req, id, now))
    ensures !Covered(t)
  {
    if !LocksOwn(s, req) {
      ForeignUncovers(Stale, s, user, req, id, now, t);
    } else if NamesBase(s, req) {
      StaleNamedUncovers(s, user, req, id, now, t);
    } else {
      MisnamedUncovers(Stale, s, user, req, id, now, t);
    }
  }

  // And one that goes through leaves the locks covered exactly when its one read suffices and
  // its request is harmless; otherwise somebody has lost more, or less, than the rows show.
  lemma StaleCreateCoveredIff(times: TimeRead, s: State, user: UserId, req: Request, id: OrderId, now: int, t: State)
    requires Consistent(s) && LiveBook(s.book) && Covered(s) && Registered(s)
    requires Create(Stale, times, s, user, req, id, now) == Ok(t)
    ensures var o, view := OrderOf(user, req, id, now), LevelsFor(s, user, req, id, now);
      Covered(t) <==> FirstReadSuffices(o, view) && Harmless(s, req, o, view)
  {
    if FirstReadSuffices(OrderOf(user, req, id, now), LevelsFor(s, user, req, id, now)) {
      SufficientReadIsFresh(times, s, user, req, id, now);
      CreateCoveredIff(times, s, user, req, id, now, t);
    } else {
      var k := CreateOnStored(Stale, times, s, user, req, id, now, t);
      StoredIsCovered(s);
      LevelsForAreDistinct(s, user, req, id, now);
      ValidStaleCoveredIff(Stored(s), user, req, id, now, k);
      CoveredBlind(k, t);
    }
  }
}
