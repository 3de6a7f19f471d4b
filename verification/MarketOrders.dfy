// Market orders: the amount is spent or handed back, and no lock is left behind,
// whichever way the book is read, unless the request names another base asset.

module MarketOrders {
  import opened Models
  import opened Ledger
  import opened OrderBook
  import opened Matching
  import opened Settlement
  import opened Exchange
  import opened ReadTimes
  import opened Demands
  import opened Creations
  import opened Solvency

  // The books of a market order's match: what its trades cost or took, and what it
  // returns, make up exactly what it locked.
  lemma MarketMatchBalances(mode: ReadMode, o: Order, view: seq<Order>, pair: Pair)
    requires Live(view) && o.kind == Market && o.filled == 0.0 && o.quantity > 0.0 && o.price >= 0.0
    ensures var r := Match(mode, o, view, pair);
      && (o.side == Buy ==> Cost(r.trades) + r.incoming.price == o.price && r.incoming.price >= 0.0)
      && (o.side == Sell ==> Volume(r.trades) + r.incoming.Remaining() == o.quantity && r.incoming.Remaining() >= 0.0)
      && (r.incoming.status == Filled || r.incoming.status == Cancelled)
      && r.incoming.userId == o.userId && r.incoming.side == o.side && r.incoming.kind == Market
  {
    MatchFacts(mode, o, view, pair);
  }

  // So of the slot that it locked its settlement asks exactly what it locked, if it asks
  // there at all.
  lemma MarketAsks(mode: ReadMode, s: State, user: UserId, req: Request, id: OrderId, now: int, k: Slot)
    requires LiveBook(s.book) && Admissible(s, user, req, id, now) && req.kind == Market && LocksOwn(s, req)
    requires k == LockedIn(s, user, req)
    ensures Asked(MatchFor(mode, s, user, req, id, now).incoming, req.base, TradesFor(mode, s, user, req, id, now), k)
         == if req.side == Buy || NamesBase(s, req) then LockAmount(Effective(req)) else 0.0
  {
    var o, view, pair := OrderOf(user, req, id, now), LevelsFor(s, user, req, id, now), Pair(req.base, req.quote);
    var r, trades := MatchFor(mode, s, user, req, id, now), TradesFor(mode, s, user, req, id, now);
    MarketMatchBalances(mode, o, view, pair);
    JoinedTotals(s.orders[id := o], r.trades);
    if req.side == Buy {
      CashNotAsked(trades, user);
    } else {
      HoldingsNotAsked(trades, user, s.markets[req.marketId].base);
    }
  }

  // A lock in another slot is asked of by nobody but the counterparties, the user's own
  // resting orders among them.
  lemma ForeignAsks(mode: ReadMode, s: State, user: UserId, req: Request, id: OrderId, now: int, k: Slot)
    requires LiveBook(s.book) && Admissible(s, user, req, id, now) && req.kind == Market && !LocksOwn(s, req)
    requires k == LockedIn(s, user, req)
    ensures var trades := TradesFor(mode, s, user, req, id, now);
      Asked(MatchFor(mode, s, user, req, id, now).incoming, req.base, trades, k) == MakersAsk(req.side, k, trades)
  {
    var o, view, pair := OrderOf(user, req, id, now), LevelsFor(s, user, req, id, now), Pair(req.base, req.quote);
    MarketMatchBalances(mode, o, view, pair);
  }

  // What stays locked of a market order that has gone through: of one that locks its own slot
  // nothing, if and only if it was a buy or named the base asset of its market, and otherwise
  // its whole quantity; of any other all but what its counterparties were asked for there.
  lemma MarketLeavesNoLock(mode: ReadMode, times: TimeRead, s: State, user: UserId, req: Request, id: OrderId, now: int,
                           t: State)
    requires Consistent(s) && LiveBook(s.book) && req.kind == Market
    requires Create(mode, times, s, user, req, id, now) == Ok(t)
    ensures req.marketId in s.markets && (req.side == Sell ==> req.quantity > 0.0)
    ensures var k, trades := LockedIn(s, user, req), TradesFor(mode, s, user, req, id, now);
      LockedAt(t.funds, k) == LockedAt(s.funds, k)
        + if !LocksOwn(s, req) then LockAmount(Effective(req)) - MakersAsk(req.side, k, trades)
          else if req.side == Buy || NamesBase(s, req) then 0.0 else req.quantity
  {
    CreatedWasAdmissible(mode, times, s, user, req, id, now);
    CreateSucceedsIff(mode, times, s, user, req, id, now);
    var k := LockedIn(s, user, req);
    if LocksOwn(s, req) {
      MarketAsks(mode, s, user, req, id, now, k);
    } else {
      ForeignAsks(mode, s, user, req, id, now, k);
    }
  }
}
