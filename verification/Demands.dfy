// When a settlement goes through. Settling only ever takes away from what is locked, so
// none of its guards refuses exactly when no slot is asked for more, in all, than it has
// locked: whatever assets a request names, whichever way the book is read, and however
// often a counterparty appears in the trades.

module Demands {
  import opened Models
  import opened Sums
  import opened Ledger
  import opened OrderBook
  import opened Matching
  import opened Settlement
  import opened Exchange
  import opened Validity

  // --- What is asked of a slot ------------------------------------------------------------

  function MakerAsks(taker: Side, k: Slot, t: Trade, cost: real): real {
    if taker == Buy then (if k == Holding(t.seller, t.base) then t.quantity else 0.0)
    else (if k == Cash(t.buyer) then cost else 0.0)
  }

  function MakerAsksTerm(taker: Side, k: Slot): Trade -> real {
    (t: Trade) => MakerAsks(taker, k, t, t.price * t.quantity)
  }

  function MakersAsk(taker: Side, k: Slot, trades: seq<Trade>): real { Total(trades, MakerAsksTerm(taker, k)) }

  function Unspent(o: Order): real {
    if o.kind == Limit then 0.0 else if o.side == Buy then o.price else o.Remaining()
  }

  function TakerSlot(o: Order, base: Asset): Slot {
    if o.side == Buy then Cash(o.userId) else Holding(o.userId, base)
  }

  function TakerAsks(o: Order, base: Asset, volume: real, cost: real, k: Slot): real {
    if k == TakerSlot(o, base) then (if o.side == Buy then cost else volume) + Unspent(o) else 0.0
  }

  function Asked(o: Order, base: Asset, trades: seq<Trade>, k: Slot): real {
    MakersAsk(o.side, k, trades) + TakerAsks(o, base, Volume(trades), Cost(trades), k)
  }

  // --- The resting side ------------------------------------------------------------------------

  ghost predicate Tradable(f: Funds, base: Asset, trades: seq<Trade>) {
    Settleable(f, base, trades) && (trades != [] ==> base in f.assets)
  }

  lemma TradableTail(f: Funds, g: Funds, base: Asset, trades: seq<Trade>)
    requires Tradable(f, base, trades) && trades != [] && Kept(f, g)
    ensures Tradable(g, base, trades[1..])
  {
    assert forall t :: t in trades[1..] ==> t in trades;
  }

  lemma MakerSettlesIff(f: Funds, taker: Side, t: Trade, cost: real)
    requires Sound(f) && t.quantity > 0.0 && cost > 0.0 && t.base in f.assets
    requires Cash(t.buyer) in f.rows && Cash(t.seller) in f.rows
    ensures var s := SettleMaker(f, taker, t, cost);
      var k := if taker == Buy then Holding(t.seller, t.base) else Cash(t.buyer);
      && (s.Ok? <==> MakerAsks(taker, k, t, cost) <= LockedAt(f, k))
      && (s.Ok? ==> Kept(f, s.value))
      && (s.Ok? ==> forall j :: LockedAt(s.value, j) == LockedAt(f, j) - MakerAsks(taker, j, t, cost))
      && MakerAsks(taker, k, t, cost) > 0.0 && (forall j :: j != k ==> MakerAsks(taker, j, t, cost) == 0.0)
  {
    if SettleMaker(f, taker, t, cost).Ok? { MakerHeld(f, taker, t, cost, CashColumn); }
  }

  lemma FirstAsks(taker: Side, k: Slot, trades: seq<Trade>, cost: real)
    requires trades != [] && cost == trades[0].price * trades[0].quantity
    ensures MakersAsk(taker, k, trades) == MakerAsks(taker, k, trades[0], cost) + MakersAsk(taker, k, trades[1..])
  {
    assert MakerAsksTerm(taker, k)(trades[0]) == MakerAsks(taker, k, trades[0], cost);
  }

  lemma {:induction false} MakersAskNonNegative(f: Funds, taker: Side, base: Asset, trades: seq<Trade>, k: Slot)
    requires Tradable(f, base, trades) && Sound(f)
    ensures MakersAsk(taker, k, trades) >= 0.0
  {
    if trades != [] {
      assert trades[0] in trades;
      var cost := FirstCost(trades);
      CostPositive(trades[0]);
      FirstAsks(taker, k, trades, cost);
      TradableTail(f, f, base, trades);
      MakersAskNonNegative(f, taker, base, trades[1..], k);
    }
  }

  ghost predicate MakersHave(f: Funds, taker: Side, trades: seq<Trade>) {
    forall k :: MakersAsk(taker, k, trades) <= LockedAt(f, k)
  }

  // A settlement of the resting side goes through exactly when every slot has what it is
  // asked for, and takes exactly that.
  ghost predicate MakersSettle(f: Funds, taker: Side, trades: seq<Trade>, r: Result<Funds>) {
    match r
    case Err(_) => !MakersHave(f, taker, trades)
    case Ok(g) =>
      && MakersHave(f, taker, trades) && Kept(f, g)
      && forall k :: LockedAt(g, k) == LockedAt(f, k) - MakersAsk(taker, k, trades)
  }

  lemma MakersSettleThen(f: Funds, g: Funds, taker: Side, t: Trade, cost: real, trades: seq<Trade>, r: Result<Funds>)
    requires trades != [] && t == trades[0] && cost == t.price * t.quantity && Kept(f, g)
    requires forall k :: LockedAt(g, k) == LockedAt(f, k) - MakerAsks(taker, k, t, cost)
    requires MakersSettle(g, taker, trades[1..], r)
    ensures MakersSettle(f, taker, trades, r)
  {
    MakersHaveThen(f, g, taker, t, cost, trades);
  }

  lemma FirstRefuses(f: Funds, taker: Side, base: Asset, trades: seq<Trade>, cost: real, k: Slot)
    requires Sound(f) && Tradable(f, base, trades) && trades != [] && cost == trades[0].price * trades[0].quantity
    requires !(MakerAsks(taker, k, trades[0], cost) <= LockedAt(f, k))
    ensures !MakersHave(f, taker, trades)
  {
    TradableTail(f, f, base, trades);
    MakersAskNonNegative(f, taker, base, trades[1..], k);
    FirstAsks(taker, k, trades, cost);
    assert !(MakersAsk(taker, k, trades) <= LockedAt(f, k));
  }

  lemma FirstSettles(f: Funds, taker: Side, base: Asset, trades: seq<Trade>) returns (cost: real, first: Result<Funds>)
    requires Sound(f) && Tradable(f, base, trades) && trades != []
    ensures cost == trades[0].price * trades[0].quantity
    ensures SettleMakers(f, taker, trades) == if first.Ok? then SettleMakers(first.value, taker, trades[1..]) else first
    ensures first.Err? ==> !MakersHave(f, taker, trades)
    ensures first.Ok? ==> Kept(f, first.value) && Tradable(first.value, base, trades[1..])
    ensures first.Ok? ==> forall k :: LockedAt(first.value, k) == LockedAt(f, k) - MakerAsks(taker, k, trades[0], cost)
  {
    var t := trades[0];
    assert t in trades;
    cost := FirstTrade(f, taker, trades);
    CostPositive(t);
    MakerSettlesIff(f, taker, t, cost);
    first := SettleMaker(f, taker, t, cost);
    if first.Ok? {
      TradableTail(f, first.value, base, trades);
    } else {
      FirstRefuses(f, taker, base, trades, cost, if taker == Buy then Holding(t.seller, t.base) else Cash(t.buyer));
    }
  }

  lemma {:induction false} MakersSettleIff(f: Funds, taker: Side, base: Asset, trades: seq<Trade>)
    requires Sound(f) && Tradable(f, base, trades)
    ensures MakersSettle(f, taker, trades, SettleMakers(f, taker, trades))
    decreases |trades|
  {
    if trades == [] {
      assert forall k :: MakersAsk(taker, k, []) == 0.0 <= LockedAt(f, k);
    } else {
      var cost, first := FirstSettles(f, taker, base, trades);
      if first.Ok? {
        MakersSettleIff(first.value, taker, base, trades[1..]);
        MakersSettleThen(f, first.value, taker, trades[0], cost, trades, SettleMakers(first.value, taker, trades[1..]));
      }
    }
  }

  lemma MakersHaveThen(f: Funds, g: Funds, taker: Side, t: Trade, cost: real, trades: seq<Trade>)
    requires trades != [] && t == trades[0] && cost == t.price * t.quantity
    requires forall k :: LockedAt(g, k) == LockedAt(f, k) - MakerAsks(taker, k, t, cost)
    ensures MakersHave(f, taker, trades) <==> MakersHave(g, taker, trades[1..])
    ensures forall k ::
      LockedAt(g, k) - MakersAsk(taker, k, trades[1..]) == LockedAt(f, k) - MakersAsk(taker, k, trades)
  {
    forall k ensures LockedAt(g, k) - MakersAsk(taker, k, trades[1..]) == LockedAt(f, k) - MakersAsk(taker, k, trades) {
      FirstAsks(taker, k, trades, cost);
    }
    forall k
      ensures MakersAsk(taker, k, trades) <= LockedAt(f, k) <==> MakersAsk(taker, k, trades[1..]) <= LockedAt(g, k)
    {
      FirstAsks(taker, k, trades, cost);
    }
  }

  // --- The incoming side ------------------------------------------------------------------------

  lemma BuyerSettlesIff(f: Funds, o: Order, pair: Pair, volume: real, cost: real)
    requires Sound(f) && Cash(o.userId) in f.rows && volume >= 0.0 && cost >= 0.0 && Unspent(o) >= 0.0
    requires o.side == Buy && (volume > 0.0 ==> pair.base in f.assets)
    ensures var s := SettleTaker(f, o, pair, volume, cost);
      && (s.Ok? <==> cost + Unspent(o) <= LockedAt(f, Cash(o.userId)))
      && (s.Ok? ==> forall j ::
            LockedAt(s.value, j) == LockedAt(f, j) - if j == Cash(o.userId) then cost + Unspent(o) else 0.0)
  {
  }

  lemma SellerSettlesIff(f: Funds, o: Order, pair: Pair, volume: real, cost: real)
    requires Sound(f) && Cash(o.userId) in f.rows && volume >= 0.0 && cost >= 0.0 && Unspent(o) >= 0.0
    requires o.side == Sell
    ensures var s, k := SettleTaker(f, o, pair, volume, cost), Holding(o.userId, pair.base);
      && (s.Ok? <==> volume + Unspent(o) <= LockedAt(f, k))
      && (s.Ok? ==> forall j :: LockedAt(s.value, j) == LockedAt(f, j) - if j == k then volume + Unspent(o) else 0.0)
  {
  }

  lemma TakerSettlesIff(f: Funds, o: Order, pair: Pair, volume: real, cost: real)
    requires Sound(f) && Cash(o.userId) in f.rows && volume >= 0.0 && cost >= 0.0 && Unspent(o) >= 0.0
    requires volume > 0.0 ==> pair.base in f.assets
    ensures var s, k := SettleTaker(f, o, pair, volume, cost), TakerSlot(o, pair.base);
      && (s.Ok? <==> TakerAsks(o, pair.base, volume, cost, k) <= LockedAt(f, k))
      && (s.Ok? ==> Kept(f, s.value))
      && (s.Ok? ==> forall j :: LockedAt(s.value, j) == LockedAt(f, j) - TakerAsks(o, pair.base, volume, cost, j))
  {
    if SettleTaker(f, o, pair, volume, cost).Ok? { TakerHeld(f, o, pair, volume, cost, CashColumn); }
    if o.side == Buy { BuyerSettlesIff(f, o, pair, volume, cost); } else { SellerSettlesIff(f, o, pair, volume, cost); }
  }

  // --- The settlement -----------------------------------------------------------------------------

  ghost predicate AllHave(f: Funds, o: Order, base: Asset, trades: seq<Trade>) {
    forall k :: Asked(o, base, trades, k) <= LockedAt(f, k)
  }

  // A settlement goes through if and only if no slot is asked for more than it has locked;
  // and then it takes from what is locked exactly what was asked.
  lemma SettlesIff(f: Funds, o: Order, pair: Pair, trades: seq<Trade>)
    requires Sound(f) && Cash(o.userId) in f.rows && Tradable(f, pair.base, trades) && Unspent(o) >= 0.0
    ensures var s := Settle(f, o, pair, trades);
      && (s.Ok? <==> AllHave(f, o, pair.base, trades))
      && (s.Ok? ==> Kept(f, s.value))
      && (s.Ok? ==> forall k :: LockedAt(s.value, k) == LockedAt(f, k) - Asked(o, pair.base, trades, k))
  {
    TotalsPositive(f, pair.base, trades);
    MakersSettleIff(f, o.side, pair.base, trades);
    var m := SettleMakers(f, o.side, trades);
    if m.Ok? {
      VolumeNeedsTrades(trades);
      TakerSettlesIff(m.value, o, pair, Volume(trades), Cost(trades));
      BothHave(f, m.value, o, pair.base, trades);
    } else {
      MakersAreAsked(f, o, pair.base, trades);
    }
  }

  lemma VolumeNeedsTrades(trades: seq<Trade>)
    ensures Volume(trades) != 0.0 ==> trades != []
  {
  }

  lemma TakerAsksNonNegative(o: Order, base: Asset, trades: seq<Trade>, k: Slot)
    requires Volume(trades) >= 0.0 && Cost(trades) >= 0.0 && Unspent(o) >= 0.0
    ensures TakerAsks(o, base, Volume(trades), Cost(trades), k) >= 0.0
  {
  }

  lemma MakersAreAsked(f: Funds, o: Order, base: Asset, trades: seq<Trade>)
    requires Volume(trades) >= 0.0 && Cost(trades) >= 0.0 && Unspent(o) >= 0.0 && !MakersHave(f, o.side, trades)
    ensures !AllHave(f, o, base, trades)
  {
    var k :| !(MakersAsk(o.side, k, trades) <= LockedAt(f, k));
    TakerAsksNonNegative(o, base, trades, k);
    assert !(Asked(o, base, trades, k) <= LockedAt(f, k));
  }

  lemma BothHave(f: Funds, g: Funds, o: Order, base: Asset, trades: seq<Trade>)
    requires MakersHave(f, o.side, trades)
    requires forall k :: LockedAt(g, k) == LockedAt(f, k) - MakersAsk(o.side, k, trades)
    ensures var k := TakerSlot(o, base);
      TakerAsks(o, base, Volume(trades), Cost(trades), k) <= LockedAt(g, k) <==> AllHave(f, o, base, trades)
  {
    var k := TakerSlot(o, base);
    assert Asked(o, base, trades, k) <= LockedAt(f, k) <==>
      TakerAsks(o, base, Volume(trades), Cost(trades), k) <= LockedAt(g, k);
    forall j | j != k ensures Asked(o, base, trades, j) <= LockedAt(f, j) {
      assert MakersAsk(o.side, j, trades) <= LockedAt(f, j);
    }
  }

  // --- A creation ----------------------------------------------------------------------------------

  // What can be checked of a creation without matching it.
  predicate Admissible(s: State, user: UserId, req: Request, id: OrderId, now: int) {
    var r := Effective(req);
    && Bound(req)
    && r.marketId in s.markets && s.markets[r.marketId].active
    && (r.side == Buy ==> LockAmount(r) > 0.0)
    && r.quantity > 0.0 && r.price >= 0.0 && id !in s.orders && Stamp(user, r.marketId, now) !in s.stamps
    && var k := SlotFor(user, LockAsset(s.markets[r.marketId], r.side));
       k in s.funds.rows && s.funds.rows[k].available >= LockAmount(r)
  }

  // The match that a request would make, and its trades with their users.
  function MatchFor(mode: ReadMode, s: State, user: UserId, req: Request, id: OrderId, now: int): OrderResult
    requires LiveBook(s.book)
  {
    Match(mode, OrderOf(user, req, id, now), LevelsFor(s, user, req, id, now), Pair(req.base, req.quote))
  }

  function TradesFor(mode: ReadMode, s: State, user: UserId, req: Request, id: OrderId, now: int): seq<Trade>
    requires LiveBook(s.book)
  {
    AllJoined(s.orders[id := OrderOf(user, req, id, now)], MatchFor(mode, s, user, req, id, now).trades)
  }

  // What a slot has locked once the request has locked its own.
  function Backing(s: State, user: UserId, req: Request, k: Slot): real
    requires req.marketId in s.markets
  {
    LockedAt(s.funds, k)
    + if k == SlotFor(user, LockAsset(s.markets[req.marketId], req.side)) then LockAmount(Effective(req)) else 0.0
  }

  // The assets named in trades are registered, and no slot is asked for more than it has.
  ghost predicate Affords(mode: ReadMode, s: State, user: UserId, req: Request, id: OrderId, now: int)
    requires LiveBook(s.book) && req.marketId in s.markets
  {
    var r, trades := MatchFor(mode, s, user, req, id, now), TradesFor(mode, s, user, req, id, now);
    && (trades == [] || (req.base in s.funds.assets && req.quote in s.funds.assets))
    && forall k :: Asked(r.incoming, req.base, trades, k) <= Backing(s, user, req, k)
  }

  lemma CreatedWasAdmissible(mode: ReadMode, times: TimeRead, s: State, user: UserId, req: Request, id: OrderId,
                             now: int)
    requires LiveBook(s.book) && Create(mode, times, s, user, req, id, now).Ok?
    ensures Admissible(s, user, req, id, now)
  {
  }

  lemma CreatedLocks(mode: ReadMode, times: TimeRead, s: State, user: UserId, req: Request, id: OrderId, now: int)
    returns (f: Funds)
    requires LiveBook(s.book) && Create(mode, times, s, user, req, id, now).Ok?
    ensures Admissible(s, user, req, id, now) && Cash(user) in f.rows
    ensures LockBalance(s.funds, user, LockAsset(s.markets[req.marketId], req.side), LockAmount(Effective(req)))
         == Ok(f)
  {
    f := LockBalance(s.funds, user, LockAsset(s.markets[req.marketId], req.side), LockAmount(Effective(req))).value;
  }

  // Once its funds are locked, an admissible creation is executed.
  lemma CreateIsExecute(mode: ReadMode, times: TimeRead, s: State, user: UserId, req: Request, id: OrderId, now: int,
                        f: Funds)
    requires LiveBook(s.book) && Admissible(s, user, req, id, now) && Cash(user) in f.rows
    requires LockBalance(s.funds, user, LockAsset(s.markets[req.marketId], req.side), LockAmount(Effective(req)))
         == Ok(f)
    ensures var o := OrderOf(user, req, id, now);
      Create(mode, times, s, user, req, id, now)
        == Execute(mode, times, s, f, s.orders[id := o], s.stamps + {Stamp(user, req.marketId, now)}, o,
                   Pair(req.base, req.quote))
  {
  }

  // The funds and the rows of an admissible creation when it comes to be matched.
  ghost predicate Locked(s: State, user: UserId, req: Request, id: OrderId, now: int, f: Funds) {
    && Admissible(s, user, req, id, now)
    && LockBalance(s.funds, user, LockAsset(s.markets[req.marketId], req.side), LockAmount(Effective(req))) == Ok(f)
    && InsertOrder(f, s.orders, OrderOf(user, req, id, now)) == Ok(s.orders[id := OrderOf(user, req, id, now)])
    && Kept(s.funds, f) && Cash(user) in f.rows && f.assets == s.funds.assets
    && forall k :: LockedAt(f, k) == Backing(s, user, req, k)
  }

  lemma AdmissibleLocks(s: State, user: UserId, req: Request, id: OrderId, now: int) returns (f: Funds)
    requires Valid(s) && Admissible(s, user, req, id, now)
    ensures Locked(s, user, req, id, now, f)
  {
    var asset, amount := LockAsset(s.markets[req.marketId], req.side), LockAmount(Effective(req));
    f := Post(s.funds, SlotFor(user, asset), -amount, amount);
    assert LockBalance(s.funds, user, asset, amount) == Ok(f);
    LockConserves(s.funds, user, asset, amount, CashColumn);
  }

  lemma CreateExecutes(mode: ReadMode, times: TimeRead, s: State, user: UserId, req: Request, id: OrderId, now: int,
                       f: Funds)
    requires LiveBook(s.book) && Locked(s, user, req, id, now, f)
    ensures var o := OrderOf(user, req, id, now);
      Create(mode, times, s, user, req, id, now)
        == Execute(mode, times, s, f, s.orders[id := o], s.stamps + {Stamp(user, req.marketId, now)}, o,
                   Pair(req.base, req.quote))
  {
    CreateIsExecute(mode, times, s, user, req, id, now, f);
  }

  // The trades of a match can be inserted exactly when their assets are registered.
  lemma InsertsIff(assets: set<Asset>, pending: map<OrderId, Order>, trades: seq<Trade>, pair: Pair)
    requires forall y :: y in trades ==>
      TradeOk(pending, Joined(pending, y)) && y.base == pair.base && y.quote == pair.quote
    ensures InsertTrades(assets, pending, trades).Ok? <==> trades == [] || (pair.base in assets && pair.quote in assets)
    ensures InsertTrades(assets, pending, trades).Ok? ==>
      InsertTrades(assets, pending, trades).value == AllJoined(pending, trades)
  {
    InsertTradesJoins(assets, pending, trades);
    if trades != [] { assert trades[0] in trades; }
  }

  lemma JoinedEmpty(orders: map<OrderId, Order>, trades: seq<Trade>)
    ensures AllJoined(orders, trades) == [] <==> trades == []
  {
    JoinedTotals(orders, trades);
  }

  // A match about to be settled, the assets of its trades registered.
  ghost predicate Settling(s: State, f: Funds, o: Order, r: OrderResult, pair: Pair, inserted: seq<Trade>) {
    && Sound(f) && Cash(o.userId) in f.rows && r.incoming.userId == o.userId && Unspent(r.incoming) >= 0.0
    && inserted == AllJoined(s.orders[o.id := o], r.trades) && Settleable(f, pair.base, inserted)
  }

  lemma MatchInserts(mode: ReadMode, s: State, assets: set<Asset>, o: Order, view: seq<Order>, pair: Pair,
                     r: OrderResult)
    requires Valid(s) && o.id !in s.orders && o.filled == 0.0 && o.quantity > 0.0 && o.price >= 0.0
    requires view == Levels(s.book, OppositeKey(o)) && Live(view) && r == Match(mode, o, view, pair)
    ensures var pending := s.orders[o.id := o];
      var inserted := AllJoined(pending, r.trades);
      && (forall x :: x in inserted ==> TradeOk(pending, x) && x.base == pair.base)
      && (InsertTrades(assets, pending, r.trades).Ok? <==>
            inserted == [] || (pair.base in assets && pair.quote in assets))
      && (InsertTrades(assets, pending, r.trades).Ok? ==> InsertTrades(assets, pending, r.trades).value == inserted)
  {
    var pending := s.orders[o.id := o];
    MatchFacts(mode, o, view, pair);
    NewTradesOk(mode, s, o, pending, view, pair, r);
    InsertsIff(assets, pending, r.trades, pair);
    JoinedEmpty(pending, r.trades);
  }

  lemma MatchSettles(mode: ReadMode, s: State, f: Funds, o: Order, view: seq<Order>, pair: Pair, r: OrderResult)
    returns (inserted: seq<Trade>)
    requires Valid(s) && o.id !in s.orders && o.filled == 0.0 && o.quantity > 0.0 && o.price >= 0.0
    requires view == Levels(s.book, OppositeKey(o)) && Live(view) && r == Match(mode, o, view, pair)
    requires Kept(s.funds, f) && Cash(o.userId) in f.rows
    ensures Settling(s, f, o, r, pair, inserted)
    ensures InsertTrades(f.assets, s.orders[o.id := o], r.trades).Ok?
       <==> inserted == [] || (pair.base in f.assets && pair.quote in f.assets)
    ensures InsertTrades(f.assets, s.orders[o.id := o], r.trades).Ok? ==>
      InsertTrades(f.assets, s.orders[o.id := o], r.trades).value == inserted
  {
    var pending := s.orders[o.id := o];
    inserted := AllJoined(pending, r.trades);
    MatchFacts(mode, o, view, pair);
    MatchInserts(mode, s, f.assets, o, view, pair, r);
    InsertedSettleable(f, pending, pair.base, inserted);
  }

  lemma ExecuteIff(mode: ReadMode, s: State, f: Funds, o: Order, stamps: set<Stamp>, pair: Pair)
    requires Valid(s) && LiveBook(s.book) && o.id !in s.orders && o.filled == 0.0 && o.quantity > 0.0 && o.price >= 0.0
    requires Kept(s.funds, f) && Cash(o.userId) in f.rows
    ensures var r := Match(mode, o, Levels(s.book, OppositeKey(o)), pair);
      var inserted := AllJoined(s.orders[o.id := o], r.trades);
      var x := Execute(mode, Decoded, s, f, s.orders[o.id := o], stamps, o, pair);
      && (x.Ok? <==>
            && (inserted == [] || (pair.base in f.assets && pair.quote in f.assets))
            && AllHave(f, r.incoming, pair.base, inserted))
      && (x.Ok? ==> forall k ::
            LockedAt(x.value.funds, k) == LockedAt(f, k) - Asked(r.incoming, pair.base, inserted, k))
  {
    var view := Levels(s.book, OppositeKey(o));
    var r := Match(mode, o, view, pair);
    var inserted := MatchSettles(mode, s, f, o, view, pair, r);
    if inserted == [] || (pair.base in f.assets && pair.quote in f.assets) {
      SettlesIff(f, r.incoming, pair, inserted);
    }
  }

  // In any state and in either mode, a creation succeeds if and only if it is admissible,
  // the assets it names in trades are registered, and none of the slots it settles from is
  // asked for more than it will have locked. What stays locked is the difference.
  lemma ValidCreateSucceedsIff(mode: ReadMode, s: State, user: UserId, req: Request, id: OrderId, now: int)
    requires Valid(s) && LiveBook(s.book)
    ensures Create(mode, Decoded, s, user, req, id, now).Ok?
       <==> Admissible(s, user, req, id, now) && Affords(mode, s, user, req, id, now)
    ensures Create(mode, Decoded, s, user, req, id, now).Ok? ==>
      var r, trades := MatchFor(mode, s, user, req, id, now), TradesFor(mode, s, user, req, id, now);
      forall k :: LockedAt(Create(mode, Decoded, s, user, req, id, now).value.funds, k)
               == Backing(s, user, req, k) - Asked(r.incoming, req.base, trades, k)
  {
    if Create(mode, Decoded, s, user, req, id, now).Ok? { CreatedWasAdmissible(mode, Decoded, s, user, req, id, now); }
    if Admissible(s, user, req, id, now) {
      var f := AdmissibleLocks(s, user, req, id, now);
      CreateExecutes(mode, Decoded, s, user, req, id, now, f);
      ExecuteIff(mode, s, f, OrderOf(user, req, id, now), s.stamps + {Stamp(user, req.marketId, now)},
                 Pair(req.base, req.quote));
    }
  }
}
