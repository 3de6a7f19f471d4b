// What the handlers make of a request, in the request's own fields: which row a creation
// inserts and what it locks for it, what a cancellation gives back, what a deposit adds, and
// which of them are refused, with which error.

module Requests {
  import opened Models
  import opened Ledger
  import opened Score
  import opened OrderBook
  import opened Matching
  import opened Settlement
  import opened Coverage
  import opened Exchange
  import opened Validity
  import opened ReadTimes
  import opened Demands

  // --- What a request asks for -----------------------------------------------------------

  // The fields that have to be there; zero counts as missing.
  predicate Complete(req: Request) {
    && req.marketId != "" && req.base != "" && req.quote != ""
    && !(req.kind == Limit && (req.price == 0.0 || req.quantity == 0.0))
  }

  // A market buy is priced at its amount, and so is any other request that has one.
  function PriceAsked(req: Request): real {
    if (req.kind == Market && req.side == Buy) || req.amount != 0.0 then req.amount else req.price
  }

  function QuantityAsked(req: Request): real {
    if req.kind == Market && req.side == Buy then 100000.0 else req.quantity
  }

  // A sell locks its quantity, a market buy its amount, a limit buy its price times its quantity.
  function FundsAsked(req: Request): real {
    match (req.side, req.kind)
    case (Sell, _) => req.quantity
    case (Buy, Market) => req.amount
    case (Buy, Limit) => PriceAsked(req) * req.quantity
  }

  // They come out of the dollars, or out of the holding of the market's quote or base asset.
  function FundsSlot(markets: Markets, user: UserId, req: Request): Slot
    requires req.marketId in markets
  {
    var asset := if req.side == Buy then markets[req.marketId].quote else markets[req.marketId].base;
    if asset == "USD" then Cash(user) else Holding(user, asset)
  }

  // The row that is inserted for it. The time of the insert is kept in microseconds, and the
  // row's is the millisecond.
  function Inserted(user: UserId, req: Request, id: OrderId, now: int): Order {
    Order(id, user, req.marketId, req.kind, req.side, PriceAsked(req), QuantityAsked(req), Pending, now / 1000, 0.0)
  }

  lemma AskedIs(req: Request)
    ensures Effective(req) == req.(price := PriceAsked(req), quantity := QuantityAsked(req))
    ensures LockAmount(Effective(req)) == FundsAsked(req) && (Bound(req) <==> Complete(req))
  {
  }

  lemma InsertedIs(user: UserId, req: Request, id: OrderId, now: int)
    ensures OrderOf(user, req, id, now) == Inserted(user, req, id, now)
    ensures LockAmount(Effective(req)) == FundsAsked(req) && (Bound(req) <==> Complete(req))
  {
    AskedIs(req);
  }

  lemma FundsAreIn(markets: Markets, user: UserId, req: Request)
    requires req.marketId in markets
    ensures SlotFor(user, LockAsset(markets[req.marketId], req.side)) == FundsSlot(markets, user, req)
  {
  }

  // --- Creating an order ---------------------------------------------------------------------

  predicate Funded(s: State, user: UserId, req: Request)
    requires req.marketId in s.markets
  {
    var k := FundsSlot(s.markets, user, req); k in s.funds.rows && s.funds.rows[k].available >= FundsAsked(req)
  }

  // Those funds moved from available to locked.
  function Moved(f: Funds, k: Slot, amount: real): Funds
    requires k in f.rows
  {
    f.(rows := f.rows[k := Account(f.rows[k].available - amount, f.rows[k].locked + amount)])
  }

  // What can be checked of a request without matching it.
  lemma AdmissibleIff(s: State, user: UserId, req: Request, id: OrderId, now: int)
    ensures Admissible(s, user, req, id, now) <==>
      && Complete(req) && req.marketId in s.markets && s.markets[req.marketId].active
      && (req.side == Buy ==> FundsAsked(req) > 0.0) && QuantityAsked(req) > 0.0 && PriceAsked(req) >= 0.0
      && id !in s.orders && Stamp(user, req.marketId, now) !in s.stamps
      && Funded(s, user, req)
  {
    InsertedIs(user, req, id, now);
    if req.marketId in s.markets { FundsAreIn(s.markets, user, req); }
  }

  // What the settlement of a creation can draw on.
  lemma BackingIs(s: State, user: UserId, req: Request, k: Slot)
    requires req.marketId in s.markets
    ensures Backing(s, user, req, k)
         == (if k in s.funds.rows then s.funds.rows[k].locked else 0.0)
          + if k == FundsSlot(s.markets, user, req) then FundsAsked(req) else 0.0
  {
    AskedIs(req);
    FundsAreIn(s.markets, user, req);
  }

  // The error of a request that is refused before its funds are looked at.
  function Refused(markets: Markets, req: Request): Option<Error> {
    if !Complete(req) then Some(BadRequest)
    else if req.marketId !in markets || !markets[req.marketId].active then Some(InvalidMarket)
    else if req.side == Buy && FundsAsked(req) <= 0.0 then Some(InvalidCost)
    else None
  }

  lemma CheckedIs(markets: Markets, req: Request)
    ensures Checked(markets, req) ==
      match Refused(markets, req)
      case Some(e) => Err(e)
      case None =>
        var market := markets[req.marketId];
        Ok(Charge(req.(price := PriceAsked(req), quantity := QuantityAsked(req)),
                  if req.side == Buy then market.quote else market.base, FundsAsked(req)))
  {
    AskedIs(req);
  }

  // The error of a creation whose transaction fails before its order is matched.
  function Unready(s: State, user: UserId, req: Request, id: OrderId, now: int): Option<Error>
    requires req.marketId in s.markets
  {
    if !Funded(s, user, req) then Some(NoRows)
    else if s.funds.rows[FundsSlot(s.markets, user, req)].locked + FundsAsked(req) < 0.0 then Some(CheckViolation)
    else if QuantityAsked(req) <= 0.0 || PriceAsked(req) < 0.0 then Some(CheckViolation)
    else if id in s.orders then Some(DuplicateKey)
    else if Cash(user) !in s.funds.rows then Some(ForeignKey)
    else if Stamp(user, req.marketId, now) in s.stamps then Some(DuplicateKey)
    else None
  }

  function Refusal(s: State, user: UserId, req: Request, id: OrderId, now: int): Option<Error> {
    if Refused(s.markets, req).Some? then Refused(s.markets, req) else Unready(s, user, req, id, now)
  }

  // A creation fails with that error; and without one its order, as it is inserted, is
  // matched and settled over the funds as they are locked.
  lemma CreateIs(mode: ReadMode, times: TimeRead, s: State, user: UserId, req: Request, id: OrderId, now: int)
    requires LiveBook(s.book)
    ensures match Refusal(s, user, req, id, now)
            case Some(e) => Create(mode, times, s, user, req, id, now) == Err(e)
            case None =>
              var o, f := Inserted(user, req, id, now),
                Moved(s.funds, FundsSlot(s.markets, user, req), FundsAsked(req));
              Create(mode, times, s, user, req, id, now)
              == Execute(mode, times, s, f, s.orders[id := o], s.stamps + {Stamp(user, req.marketId, now)}, o,
                         Pair(req.base, req.quote))
  {
    CheckedIs(s.markets, req);
    if Refused(s.markets, req) == None {
      InsertedIs(user, req, id, now);
      TransactIs(mode, times, s, user, req, Checked(s.markets, req).value, id, now);
    }
  }

  lemma TransactIs(mode: ReadMode, times: TimeRead, s: State, user: UserId, req: Request, charge: Charge, id: OrderId,
                   now: int)
    requires LiveBook(s.book) && req.marketId in s.markets && charge.amount == FundsAsked(req)
    requires SlotFor(user, charge.asset) == FundsSlot(s.markets, user, req)
    requires NewOrder(charge.req, user, id, now) == Inserted(user, req, id, now)
    ensures var pair := Pair(req.base, req.quote);
      Transact(mode, times, s, user, charge, pair, id, now) ==
        match Unready(s, user, req, id, now)
        case Some(e) => Err(e)
        case None =>
          var o, f := Inserted(user, req, id, now),
            Moved(s.funds, FundsSlot(s.markets, user, req), FundsAsked(req));
          Execute(mode, times, s, f, s.orders[id := o], s.stamps + {Stamp(user, req.marketId, now)}, o, pair)
  {
  }

  lemma ExecuteKeepsCore(mode: ReadMode, times: TimeRead, s: State, f: Funds, stamps: set<Stamp>, o: Order, pair: Pair,
                         t: State)
    requires LiveBook(s.book) && Execute(mode, times, s, f, s.orders[o.id := o], stamps, o, pair) == Ok(t)
    requires o.filled == 0.0 && o.quantity > 0.0 && o.price >= 0.0
    ensures o.id in t.orders && SameCore(o, t.orders[o.id]) && t.stamps == stamps && t.markets == s.markets
  {
    var view := AllAsRead(times, Levels(s.book, OppositeKey(o)));
    var r := Match(mode, o, view, pair);
    ReadBlind(times, Levels(s.book, OppositeKey(o)));
    MatchFacts(mode, o, view, pair);
    CoreStays(s.orders[o.id := o], r.updated, o.id);
  }

  lemma {:induction false} CoreStays(rows: map<OrderId, Order>, updated: seq<Order>, incoming: OrderId)
    requires incoming in rows
    ensures var next := UpdateRows(rows, updated, incoming); incoming in next && next[incoming] == rows[incoming]
    decreases |updated|
  {
    if updated != [] {
      CoreStays(if updated[0].id == incoming then rows else UpdateRow(rows, updated[0]), updated[1..], incoming);
    }
  }

  // The row of a creation that went through: everything but its status and its fill is as it
  // was asked for. Its funds were there, and the amount asked for was moved to locked.
  lemma CreateRecords(mode: ReadMode, times: TimeRead, s: State, user: UserId, req: Request, id: OrderId, now: int,
                      t: State)
    requires LiveBook(s.book) && Create(mode, times, s, user, req, id, now) == Ok(t)
    ensures Refusal(s, user, req, id, now) == None && id !in s.orders && id in t.orders
    ensures var row := t.orders[id];
      && row.id == id && row.userId == user && row.marketId == req.marketId && row.kind == req.kind
      && row.side == req.side && row.createdAt == now / 1000
      && row.price == (if req.kind == Market && req.side == Buy then req.amount
                       else if req.amount != 0.0 then req.amount else req.price)
      && row.quantity == (if req.kind == Market && req.side == Buy then 100000.0 else req.quantity)
    ensures t.stamps == s.stamps + {Stamp(user, req.marketId, now)} && t.markets == s.markets
  {
    CreateIs(mode, times, s, user, req, id, now);
    var f := Moved(s.funds, FundsSlot(s.markets, user, req), FundsAsked(req));
    ExecuteKeepsCore(mode, times, s, f, s.stamps + {Stamp(user, req.marketId, now)}, Inserted(user, req, id, now),
                     Pair(req.base, req.quote), t);
  }

  // --- With which error it fails ---------------------------------------------------------------

  lemma {:induction false} MakersFail(f: Funds, taker: Side, base: Asset, trades: seq<Trade>)
    requires Sound(f) && Tradable(f, base, trades)
    ensures SettleMakers(f, taker, trades).Err? ==> SettleMakers(f, taker, trades) == Err(NoRows)
    decreases |trades|
  {
    if trades != [] {
      var cost := FirstTrade(f, taker, trades);
      var first := FirstFails(f, taker, base, trades, cost);
      if first.Ok? { MakersFail(first.value, taker, base, trades[1..]); }
    }
  }

  lemma FirstFails(f: Funds, taker: Side, base: Asset, trades: seq<Trade>, cost: real) returns (first: Result<Funds>)
    requires Sound(f) && Tradable(f, base, trades) && trades != [] && cost == trades[0].price * trades[0].quantity
    ensures first == SettleMaker(f, taker, trades[0], cost) && (first.Err? ==> first == Err(NoRows))
    ensures first.Ok? ==> Sound(first.value) && Tradable(first.value, base, trades[1..])
  {
    assert trades[0] in trades;
    first := SettleMaker(f, taker, trades[0], cost);
    CostPositive(trades[0]);
    MakerSettlesIff(f, taker, trades[0], cost);
    if first.Ok? { TradableTail(f, first.value, base, trades); }
  }

  lemma TakerFails(f: Funds, o: Order, pair: Pair, volume: real, cost: real)
    requires Cash(o.userId) in f.rows && (volume > 0.0 ==> pair.base in f.assets)
    ensures SettleTaker(f, o, pair, volume, cost).Err? ==> SettleTaker(f, o, pair, volume, cost) == Err(NoRows)
  {
  }

  lemma SettleFails(f: Funds, o: Order, pair: Pair, trades: seq<Trade>)
    requires Sound(f) && Cash(o.userId) in f.rows && Tradable(f, pair.base, trades)
    ensures Settle(f, o, pair, trades).Err? ==> Settle(f, o, pair, trades) == Err(NoRows)
  {
    MakersFail(f, o.side, pair.base, trades);
    MakersSettleIff(f, o.side, pair.base, trades);
    var m := SettleMakers(f, o.side, trades);
    if m.Ok? {
      VolumeNeedsTrades(trades);
      TakerFails(m.value, o, pair, Volume(trades), Cost(trades));
    }
  }

  lemma {:induction false} InsertFails(assets: set<Asset>, pending: map<OrderId, Order>, trades: seq<Trade>)
    requires forall y :: y in trades ==> TradeOk(pending, Joined(pending, y))
    ensures InsertTrades(assets, pending, trades).Err? ==> InsertTrades(assets, pending, trades) == Err(ForeignKey)
  {
    if trades != [] {
      assert trades[0] in trades;
      assert forall y :: y in trades[1..] ==> y in trades;
      InsertFails(assets, pending, trades[1..]);
    }
  }

  lemma MatchFails(mode: ReadMode, s: State, assets: set<Asset>, o: Order, view: seq<Order>, pair: Pair, r: OrderResult)
    requires Valid(s) && o.id !in s.orders && o.filled == 0.0 && o.quantity > 0.0 && o.price >= 0.0
    requires view == Levels(s.book, OppositeKey(o)) && Live(view) && r == Match(mode, o, view, pair)
    ensures var x := InsertTrades(assets, s.orders[o.id := o], r.trades); x.Err? ==> x == Err(ForeignKey)
  {
    MatchFacts(mode, o, view, pair);
    NewTradesOk(mode, s, o, s.orders[o.id := o], view, pair, r);
    InsertFails(assets, s.orders[o.id := o], r.trades);
  }

  lemma ExecuteFails(mode: ReadMode, s: State, f: Funds, o: Order, stamps: set<Stamp>, pair: Pair)
    requires Valid(s) && LiveBook(s.book) && o.id !in s.orders && o.filled == 0.0 && o.quantity > 0.0 && o.price >= 0.0
    requires Kept(s.funds, f) && Cash(o.userId) in f.rows
    ensures var r := Match(mode, o, Levels(s.book, OppositeKey(o)), pair);
      var inserted := AllJoined(s.orders[o.id := o], r.trades);
      var x := Execute(mode, Decoded, s, f, s.orders[o.id := o], stamps, o, pair);
      x.Err? ==> x == Err(if inserted == [] || (pair.base in f.assets && pair.quote in f.assets) then NoRows
                          else ForeignKey)
  {
    var view := Levels(s.book, OppositeKey(o));
    var r := Match(mode, o, view, pair);
    MatchFails(mode, s, f.assets, o, view, pair, r);
    var inserted := MatchSettles(mode, s, f, o, view, pair, r);
    if inserted == [] || (pair.base in f.assets && pair.quote in f.assets) {
      SettleFails(f, r.incoming, pair, inserted);
    }
  }

  // A creation that is admissible fails for want of a registered asset, if its trades need
  // one, and otherwise because somebody has too little locked.
  lemma ValidCreateFails(mode: ReadMode, s: State, user: UserId, req: Request, id: OrderId, now: int)
    requires Valid(s) && LiveBook(s.book) && Admissible(s, user, req, id, now)
    requires Create(mode, Decoded, s, user, req, id, now).Err?
    ensures Create(mode, Decoded, s, user, req, id, now)
         == Err(if TradesFor(mode, s, user, req, id, now) == []
                   || (req.base in s.funds.assets && req.quote in s.funds.assets) then NoRows else ForeignKey)
  {
    var f := AdmissibleLocks(s, user, req, id, now);
    CreateExecutes(mode, Decoded, s, user, req, id, now, f);
    ExecuteFails(mode, s, f, OrderOf(user, req, id, now), s.stamps + {Stamp(user, req.marketId, now)},
                 Pair(req.base, req.quote));
  }

  // --- Cancelling one ----------------------------------------------------------------------------

  // What is left of an order: of a sell its base, of a buy the dollars for it.
  function LeftOf(o: Order): real {
    if o.side == Sell then o.quantity - o.filled else o.price * (o.quantity - o.filled)
  }

  function LeftIn(markets: Markets, o: Order): Slot
    requires o.marketId in markets
  {
    if o.side == Sell then Holding(o.userId, markets[o.marketId].base) else Cash(o.userId)
  }

  lemma LeftIs(markets: Markets, o: Order)
    requires o.marketId in markets
    ensures var done := o.(status := Cancelled);
      CancelSlot(markets, done) == LeftIn(markets, o) && CancelAmount(done) == LeftOf(o)
  {
  }

  // Whatever the status of the order: a cancellation goes through if and only if the order
  // and its market are known and what is left of it, if anything, is locked.
  lemma CancelIff(s: State, id: OrderId)
    ensures Cancel(s, id).Ok? <==>
      && id in s.orders && s.orders[id].marketId in s.markets
      && var k, left := LeftIn(s.markets, s.orders[id]), LeftOf(s.orders[id]);
         left <= 0.0 || (k in s.funds.rows && s.funds.rows[k].locked >= left)
    ensures Cancel(s, id).Err? ==> Cancel(s, id) == Err(NoRows)
  {
    if id in s.orders && s.orders[id].marketId in s.markets { LeftIs(s.markets, s.orders[id]); }
  }

  // Then the row is cancelled with its fill, what was left of the order is available again,
  // nothing else moves, and the order is gone from the book.
  lemma CancelReleases(s: State, id: OrderId, t: State)
    requires Consistent(s) && Cancel(s, id) == Ok(t)
    ensures id in s.orders && t.orders == s.orders[id := s.orders[id].(status := Cancelled)]
    ensures t.markets == s.markets && t.stamps == s.stamps && t.trades == s.trades
    ensures s.orders[id].marketId in s.markets
    ensures var k, left := LeftIn(s.markets, s.orders[id]), LeftOf(s.orders[id]);
      if left <= 0.0 then t.funds == s.funds
      else k in s.funds.rows && t.funds == Moved(s.funds, k, -left)
    ensures id !in t.book.details && forall key, e :: e in Index(t.book, key) ==> e.member != id
    ensures t.book.details == s.book.details - {id}
    ensures forall key, e: Entry :: e.member != id ==> (e in Index(t.book, key) <==> e in Index(s.book, key))
  {
    CancelIs(s, id, t);
    CancelConsistent(s, id, t);
    CancelledEntries(s, id, t);
  }

  lemma CancelIs(s: State, id: OrderId, t: State)
    requires Cancel(s, id) == Ok(t)
    ensures id in s.orders && s.orders[id].marketId in s.markets
    ensures t.orders == s.orders[id := s.orders[id].(status := Cancelled)]
    ensures t.markets == s.markets && t.stamps == s.stamps && t.trades == s.trades
    ensures var k, left := LeftIn(s.markets, s.orders[id]), LeftOf(s.orders[id]);
      if left <= 0.0 then t.funds == s.funds
      else k in s.funds.rows && t.funds == Moved(s.funds, k, -left)
    ensures s.orders[id].id == id ==> t.book.details == s.book.details - {id}
  {
    LeftIs(s.markets, s.orders[id]);
  }

  lemma CancelledEntries(s: State, id: OrderId, t: State)
    requires Consistent(s) && Valid(Stored(t)) && id in s.orders
    requires t.orders == s.orders[id := s.orders[id].(status := Cancelled)] && t.book.details == s.book.details - {id}
    ensures forall key, e :: e in Index(t.book, key) ==> e.member != id
    ensures forall key, e: Entry :: e.member != id ==> (e in Index(t.book, key) <==> e in Index(s.book, key))
  {
    CancelledRows(s, id, t);
    OtherEntries(Stored(s).orders, s.book, Stored(t).orders, t.book, id);
  }

  lemma CancelledRows(s: State, id: OrderId, t: State)
    requires Keyed(Stored(s).orders) && id in s.orders
    requires t.orders == s.orders[id := s.orders[id].(status := Cancelled)] && t.book.details == s.book.details - {id}
    ensures var before, after := Stored(s).orders, Stored(t).orders;
      && id in after && after[id].status == Cancelled && after.Keys == before.Keys
      && forall k :: k in before && k != id ==> after[k] == before[k]
  {
    forall k | k in s.orders && k != id ensures Stored(t).orders[k] == Stored(s).orders[k] {
      assert Stored(s).orders[k].id == k;
    }
  }

  lemma OtherEntries(orders: map<OrderId, Order>, b: Book, rows: map<OrderId, Order>, c: Book, id: OrderId)
    requires Agrees(orders, b) && Agrees(rows, c) && orders.Keys == rows.Keys
    requires id in rows && rows[id].status == Cancelled && forall k :: k in orders && k != id ==> rows[k] == orders[k]
    ensures forall key, e :: e in Index(c, key) ==> e.member != id
    ensures forall key, e: Entry :: e.member != id ==> (e in Index(c, key) <==> e in Index(b, key))
  {
    forall key, e: Entry
      ensures e in Index(c, key) ==> e.member != id
      ensures e.member != id ==> (e in Index(c, key) <==> e in Index(b, key))
    {
      OneEntry(orders, b, rows, c, key, e);
    }
  }

  // An index lists the resting rows, so the rows of two tables decide what their indexes share.
  lemma OneEntry(orders: map<OrderId, Order>, b: Book, rows: map<OrderId, Order>, c: Book, key: BookKey, e: Entry)
    requires Agrees(orders, b) && Agrees(rows, c) && orders.Keys == rows.Keys
    ensures e.member in rows && !rows[e.member].Resting() ==> e !in Index(c, key)
    ensures e.member in rows && rows[e.member] == orders[e.member] ==> (e in Index(c, key) <==> e in Index(b, key))
    ensures e.member !in rows ==> e !in Index(b, key) && e !in Index(c, key)
  {
    assert e in Index(c, key) <==> Listed(rows, key, e);
    assert e in Index(b, key) <==> Listed(orders, key, e);
  }

  // --- Depositing -----------------------------------------------------------------------------------

  // A deposit is added to what is available: of dollars, if the user is known; of an asset, to
  // the user's row for it, which it creates.
  lemma DepositIs(s: State, user: UserId, asset: Asset, amount: real)
    ensures Deposit(s, user, asset, amount) ==
      var k := if asset == "USD" then Cash(user) else Holding(user, asset);
      var row := if k in s.funds.rows then s.funds.rows[k] else Account(0.0, 0.0);
      if amount <= 0.0 then Err(BadRequest)
      else if asset == "USD" && k !in s.funds.rows then Ok(s)
      else if asset != "USD" && (Cash(user) !in s.funds.rows || asset !in s.funds.assets) then Err(ForeignKey)
      else Ok(s.(funds := s.funds.(rows := s.funds.rows[k := Account(row.available + amount, row.locked)])))
  {
  }
}
