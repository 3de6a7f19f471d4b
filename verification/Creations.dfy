// What a creation does to the locks: when its request names the base asset of its market,
// and when it names another, which the handler does not check; and in markets in which the
// lock is taken in one slot and given back in another.

module Creations {
  import opened Models
  import opened Sums
  import opened Ledger
  import opened OrderBook
  import opened Matching
  import opened Execution
  import opened Settlement
  import opened Coverage
  import opened Exchange
  import opened Validity
  import opened LockCoverage
  import opened Demands

  // The assets of every market are registered, as the schema demands.
  ghost predicate Registered(s: State) {
    forall m :: m in s.markets ==> s.markets[m].base in s.funds.assets && s.markets[m].quote in s.funds.assets
  }

  // A buy locks the quote asset of its market, a sell the base asset; but settlements and
  // cancellations take from a buyer's dollars and from a seller's holding. The two are the
  // same slot for buys in markets quoted in dollars and for sells of anything but dollars.
  predicate LocksOwn(s: State, req: Request) {
    && req.marketId in s.markets
    && if req.side == Buy then s.markets[req.marketId].quote == USD else s.markets[req.marketId].base != USD
  }

  // --- The stages up to the match -----------------------------------------------------

  lemma MakersOf(s: State, o: Order, pending: map<OrderId, Order>, view: seq<Order>, base: Asset)
    requires Valid(s) && o.id !in s.orders && pending == s.orders[o.id := o]
    requires view == Levels(s.book, OppositeKey(o)) && HasBase(s.markets, o.marketId, base)
    ensures MakerView(s.markets, pending, view, Opposite(o.side), base)
    ensures Live(view) && forall i :: 0 <= i < |view| ==> view[i].id != o.id
  {
    ViewRows(s, o, pending, view);
    forall i, j | 0 <= i < j < |view| ensures view[i].id != view[j].id {
      assert Ahead(OppositeKey(o).side, view[i], view[j]);
    }
  }

  lemma PendingRests(s: State, o: Order, pending: map<OrderId, Order>, f: Funds)
    requires Valid(s) && o.id !in s.orders && pending == s.orders[o.id := o] && o.status == Pending
    requires Kept(s.funds, f) && Cash(o.userId) in f.rows
    ensures RestingRows(pending) && UsersKnown(f, pending) && SameCores(s.orders, pending)
    ensures forall t :: t in s.trades ==> TradeOk(pending, t)
  {
    ValidIsLive(s);
    forall t | t in s.trades ensures TradeOk(pending, t) { TradeStaysOk(s.orders, pending, t); }
  }

  // A pending row adds nothing to what has to be covered.
  lemma PendingWeighs(s: State, o: Order, pending: map<OrderId, Order>, u: UserId, a: Asset)
    requires Valid(s) && o.id !in s.orders && pending == s.orders[o.id := o] && o.status == Pending
    requires SameCores(s.orders, pending)
    ensures Sum(pending, BaseTerm(s.markets, u, a)) == Sum(s.orders, BaseTerm(s.markets, u, a))
    ensures Sum(pending, CashTerm(u)) == Sum(s.orders, CashTerm(u))
    ensures KeptBack(pending, s.trades)(u) == KeptBack(s.orders, s.trades)(u)
  {
    PendingTerms(s.markets, s.orders, o, u, a);
    KeptSame(s.orders, pending, s.trades, u);
  }

  lemma PendingTerms(markets: Markets, orders: map<OrderId, Order>, o: Order, u: UserId, a: Asset)
    requires o.status == Pending && o.id !in orders
    ensures Sum(orders[o.id := o], BaseTerm(markets, u, a)) == Sum(orders, BaseTerm(markets, u, a))
    ensures Sum(orders[o.id := o], CashTerm(u)) == Sum(orders, CashTerm(u))
  {
    RowWeighs(markets, orders, o, u, a);
  }

  // The lock of a new order comes on top of what covers the resting ones: a buy's
  // dollars, ...
  lemma CashOnTop(s: State, o: Order, pending: map<OrderId, Order>, f: Funds, amount: real)
    requires Valid(s) && Covered(s) && o.id !in s.orders && pending == s.orders[o.id := o] && o.status == Pending
    requires f == Post(s.funds, Cash(o.userId), -amount, amount) && SameCores(s.orders, pending)
    ensures HoldingsCovered(s.markets, f, pending)
    ensures CashLocked(f, pending, KeptBack(pending, s.trades), o.userId, amount)
  {
    forall u, a ensures LockedAt(f, Holding(u, a)) == Sum(pending, BaseTerm(s.markets, u, a)) {
      PendingWeighs(s, o, pending, u, a);
    }
    forall u
      ensures LockedAt(f, Cash(u))
           == Sum(pending, CashTerm(u)) + KeptBack(pending, s.trades)(u) + (if u == o.userId then amount else 0.0)
    {
      PendingWeighs(s, o, pending, u, USD);
    }
  }

  // ... a sell's holding.
  lemma HoldingOnTop(s: State, o: Order, pending: map<OrderId, Order>, f: Funds, base: Asset, amount: real)
    requires Valid(s) && Covered(s) && o.id !in s.orders && pending == s.orders[o.id := o] && o.status == Pending
    requires f == Post(s.funds, Holding(o.userId, base), -amount, amount) && SameCores(s.orders, pending)
    ensures HoldingsLocked(s.markets, f, pending, o.userId, base, amount)
  {
    forall u, a
      ensures LockedAt(f, Holding(u, a))
           == Sum(pending, BaseTerm(s.markets, u, a)) + (if u == o.userId && a == base then amount else 0.0)
    {
      PendingWeighs(s, o, pending, u, a);
    }
  }

  lemma CashBeside(s: State, o: Order, pending: map<OrderId, Order>, f: Funds)
    requires Valid(s) && Covered(s) && o.id !in s.orders && pending == s.orders[o.id := o] && o.status == Pending
    requires SameCores(s.orders, pending)
    requires forall u :: LockedAt(f, Cash(u)) == LockedAt(s.funds, Cash(u))
    ensures CashCovered(f, pending, KeptBack(pending, s.trades))
  {
    forall u ensures LockedAt(f, Cash(u)) == Sum(pending, CashTerm(u)) + KeptBack(pending, s.trades)(u) {
      PendingWeighs(s, o, pending, u, USD);
    }
  }

  // A new order with its funds locked and its row pending.
  ghost predicate Opened(s: State, o: Order, pair: Pair, f: Funds, k: Slot, amount: real) {
    && Valid(s) && o.id !in s.orders && o.status == Pending && o.filled == 0.0 && o.quantity > 0.0 && o.price >= 0.0
    && f == Post(s.funds, k, -amount, amount) && Kept(s.funds, f) && Cash(o.userId) in f.rows
    && k == (if o.side == Buy then Cash(o.userId) else Holding(o.userId, pair.base))
    && amount == LockOf(o)
    && HasBase(s.markets, o.marketId, pair.base) && pair.base in f.assets && pair.quote in f.assets
    && Live(Levels(s.book, OppositeKey(o)))
  }

  // The settlement uses the base asset that the request names, the lock that of the market.
  predicate NamesBase(s: State, req: Request) {
    req.marketId in s.markets && req.base == s.markets[req.marketId].base
  }

  lemma LockedOpens(s: State, user: UserId, req: Request, id: OrderId, now: int, f: Funds, pair: Pair) returns (k: Slot)
    requires Valid(s) && LiveBook(s.book) && LocksOwn(s, req) && Locked(s, user, req, id, now, f)
    requires pair.base == s.markets[req.marketId].base && pair.base in s.funds.assets && pair.quote in s.funds.assets
    ensures Opened(s, OrderOf(user, req, id, now), pair, f, k, LockAmount(Effective(req)))
  {
    var e := Effective(req);
    k := SlotFor(user, LockAsset(s.markets[e.marketId], e.side));
    assert f == Post(s.funds, k, -LockAmount(e), LockAmount(e));
    assert LockAmount(e) == LockOf(OrderOf(user, req, id, now));
  }

  lemma OpenedReady(mode: ReadMode, s: State, o: Order, pair: Pair, f: Funds, k: Slot, amount: real, r: OrderResult)
    requires Opened(s, o, pair, f, k, amount) && r == Match(mode, o, Levels(s.book, OppositeKey(o)), pair)
    ensures var pending := s.orders[o.id := o];
      && Ready(mode, s.markets, f, pending, o, Levels(s.book, OppositeKey(o)), pair, r)
      && InsertTrades(f.assets, pending, r.trades) == Ok(AllJoined(pending, r.trades))
  {
    var pending, view := s.orders[o.id := o], Levels(s.book, OppositeKey(o));
    MatchOutcome(mode, o, view, pair);
    MatchFacts(mode, o, view, pair);
    MakersOf(s, o, pending, view, pair.base);
    PendingRests(s, o, pending, f);
    NewTradesOk(mode, s, o, pending, view, pair, r);
    InsertTradesJoins(f.assets, pending, r.trades);
  }

  // A match with its lock in place settles, and leaves everything covered.
  lemma OpenedSettles(s: State, o: Order, pair: Pair, f: Funds, k: Slot, amount: real, view: seq<Order>, r: OrderResult)
    requires Opened(s, o, pair, f, k, amount) && Covered(s)
    requires Ready(Fresh, s.markets, f, s.orders[o.id := o], o, view, pair, r)
    ensures var pending := s.orders[o.id := o];
      var g, rows := Settle(f, r.incoming, pair, AllJoined(pending, r.trades)), RowsAfter(pending, r);
      && g.Ok?
      && HoldingsCovered(s.markets, g.value, rows)
      && CashCovered(g.value, rows, KeptBack(rows, s.trades + AllJoined(pending, r.trades)))
  {
    var pending := s.orders[o.id := o];
    PendingRests(s, o, pending, f);
    if o.side == Buy {
      CashOnTop(s, o, pending, f, amount);
      BuyCovered(s.markets, f, s.trades, pending, o, view, pair, r, amount);
    } else {
      HoldingOnTop(s, o, pending, f, pair.base, amount);
      CashBeside(s, o, pending, f);
      SellCovered(s.markets, f, s.trades, pending, o, view, pair, r);
    }
  }

  lemma OpenedCloses(s: State, o: Order, pair: Pair, f: Funds, k: Slot, amount: real, r: OrderResult)
    returns (inserted: seq<Trade>, g: Funds)
    requires Opened(s, o, pair, f, k, amount) && Covered(s)
    requires r == Match(Fresh, o, Levels(s.book, OppositeKey(o)), pair)
    ensures var pending := s.orders[o.id := o];
      && InsertTrades(f.assets, pending, r.trades) == Ok(inserted)
      && Settle(f, r.incoming, pair, inserted) == Ok(g)
      && HoldingsCovered(s.markets, g, RowsAfter(pending, r))
      && CashCovered(g, RowsAfter(pending, r), KeptBack(RowsAfter(pending, r), s.trades + inserted))
  {
    OpenedReady(Fresh, s, o, pair, f, k, amount, r);
    inserted := AllJoined(s.orders[o.id := o], r.trades);
    OpenedSettles(s, o, pair, f, k, amount, Levels(s.book, OppositeKey(o)), r);
    g := Settle(f, r.incoming, pair, inserted).value;
  }

  lemma OpenedCovers(s: State, o: Order, pair: Pair, f: Funds, k: Slot, amount: real, stamps: set<Stamp>)
    requires Opened(s, o, pair, f, k, amount) && Covered(s) && LiveBook(s.book)
    ensures var x := Execute(Fresh, Decoded, s, f, s.orders[o.id := o], stamps, o, pair);
      x.Ok? && Covered(x.value)
  {
    var r := Match(Fresh, o, Levels(s.book, OppositeKey(o)), pair);
    var inserted, g := OpenedCloses(s, o, pair, f, k, amount, r);
  }

  // --- Requests that meet nothing ---------------------------------------------------------------

  predicate Quiet(o: Order, view: seq<Order>) { view == [] || !Crosses(o, view[0]) }

  predicate Unmatched(o: Order) {
    o.filled == 0.0 && o.quantity > 0.0 && (o.kind == Market && o.side == Buy ==> o.price > 0.0)
  }

  // A quiet match makes no trade, whatever assets it is given; any other makes one.
  lemma QuietMatch(mode: ReadMode, o: Order, view: seq<Order>, pair: Pair, other: Pair)
    requires Live(view) && Unmatched(o)
    ensures Match(mode, o, view, pair).trades == [] <==> Quiet(o, view)
    ensures Quiet(o, view) ==> Match(mode, o, view, pair) == Match(mode, o, view, other)
    ensures Quiet(o, view) ==>
      var r := Match(mode, o, view, pair); r.updated == [] && r.incoming == o.(status := r.incoming.status)
  {
  }

  lemma QuietSettles(f: Funds, o: Order, pair: Pair, other: Pair)
    requires pair.base == other.base || !(o.kind == Market && o.side == Sell)
    ensures Settle(f, o, pair, []) == Settle(f, o, other, [])
  {
  }

  // So the assets that a quiet request names do not matter, but for what a market sell
  // gets back.
  lemma QuietExecutes(mode: ReadMode, times: TimeRead, s: State, f: Funds, orders: map<OrderId, Order>,
                      stamps: set<Stamp>, o: Order, pair: Pair, other: Pair)
    requires LiveBook(s.book) && Unmatched(o) && Quiet(o, Levels(s.book, OppositeKey(o)))
    requires pair.base == other.base || !(o.kind == Market && o.side == Sell)
    ensures Execute(mode, times, s, f, orders, stamps, o, pair) == Execute(mode, times, s, f, orders, stamps, o, other)
  {
    var view := AllAsRead(times, Levels(s.book, OppositeKey(o)));
    QuietMatch(mode, o, view, pair, other);
    QuietMatch(mode, o, view, other, pair);
    var r := Match(mode, o, view, pair);
    QuietSettles(f, r.incoming, pair, other);
  }

  // --- Requests that name another base asset ----------------------------------------------------

  lemma {:induction false} NotAsked(trades: seq<Trade>, u: UserId, a: Asset)
    requires forall t :: t in trades ==> t.base != a
    ensures MakersAsk(Buy, Holding(u, a), trades) == 0.0
  {
    if trades != [] {
      assert trades[0] in trades;
      assert forall t :: t in trades[1..] ==> t in trades;
      NotAsked(trades[1..], u, a);
      FirstAsks(Buy, Holding(u, a), trades, trades[0].price * trades[0].quantity);
    }
  }

  lemma {:induction false} CashNotAsked(trades: seq<Trade>, u: UserId)
    ensures MakersAsk(Buy, Cash(u), trades) == 0.0
  {
    if trades != [] { CashNotAsked(trades[1..], u); }
  }

  lemma {:induction false} HoldingsNotAsked(trades: seq<Trade>, u: UserId, a: Asset)
    ensures MakersAsk(Sell, Holding(u, a), trades) == 0.0
  {
    if trades != [] { HoldingsNotAsked(trades[1..], u, a); }
  }

  // A settlement in another asset takes nothing from what is locked in the market's.
  lemma MisnamedAsksNothing(o: Order, base: Asset, trades: seq<Trade>, u: UserId, a: Asset)
    requires base != a && forall t :: t in trades ==> t.base == base
    ensures Asked(o, base, trades, Holding(u, a)) == 0.0
  {
    if o.side == Buy { NotAsked(trades, u, a); } else { HoldingsNotAsked(trades, u, a); }
  }

  // The first level that a match reads rises.
  lemma FirstRises(mode: ReadMode, taker: Taker, view: seq<Order>, updated: seq<Order>, trades: seq<Trade>, pair: Pair,
                   orders: map<OrderId, Order>)
    requires trades != [] && Sweeps(mode, taker, view, updated, trades, pair)
    requires CoreView(orders, view, taker.id) && Keyed(orders) && DistinctIds(view)
    ensures view != [] && view[0].id in UpdateRows(orders, updated, taker.id)
    ensures IsBump(view[0], UpdateRows(orders, updated, taker.id)[view[0].id])
  {
    var hit := updated[1];
    var next, tail := orders[hit.id := hit], if mode == Stale then view else view[1..];
    UpdateRowsHead(orders, updated, taker.id);
    assert CoreView(next, tail, taker.id) by { assert forall i :: 0 <= i < |tail| ==> tail[i] in view; }
    RowsOfSweep(mode, taker, tail, updated[2..], trades[1..], pair, next);
    var row := UpdateRows(orders, updated, taker.id)[hit.id];
    if row != hit {
      var i :| 0 <= i < |tail| && IsBump(tail[i], row);
      assert tail[i] == view[if mode == Stale then i else i + 1];
    }
  }

  // The rows of a creation as far as one seller's claims go: the resting ones never rise.
  lemma ClaimsNeverRise(markets: Markets, orders: map<OrderId, Order>, rows: map<OrderId, Order>, view: seq<Order>,
                        u: UserId, a: Asset)
    requires rows.Keys == orders.Keys && Keyed(orders) && Keyed(rows)
    requires forall i :: 0 <= i < |view| ==> view[i].id in orders && orders[view[i].id] == view[i] && view[i].Resting()
    requires forall k :: k in orders ==> rows[k] == orders[k] || Bumped(view, rows[k])
    ensures forall k :: k in orders ==> BaseTerm(markets, u, a)(k, rows[k]) <= BaseTerm(markets, u, a)(k, orders[k])
  {
    forall k | k in orders ensures BaseTerm(markets, u, a)(k, rows[k]) <= BaseTerm(markets, u, a)(k, orders[k]) {
      if rows[k] != orders[k] {
        var i :| 0 <= i < |view| && IsBump(view[i], rows[k]);
      }
    }
  }

  // The rows of a creation, with those of the table before it.
  ghost predicate Settled(s: State, t: State, o: Order, view: seq<Order>) {
    && o.id !in s.orders && o.status == Pending && Keyed(s.orders)
    && (forall i :: 0 <= i < |view| ==>
          && view[i].id in s.orders && s.orders[view[i].id] == view[i]
          && view[i].Resting() && KeyOf(view[i]) == OppositeKey(o))
    && t.orders.Keys == s.orders.Keys + {o.id} && Keyed(t.orders)
    && SameCore(o, t.orders[o.id]) && t.markets == s.markets
    && (forall k :: k in s.orders ==> t.orders[k] == s.orders[k] || Bumped(view, t.orders[k]))
  }

  lemma RowOnTop(s: State, t: State, o: Order, view: seq<Order>, u: UserId, a: Asset)
    requires Settled(s, t, o, view)
    ensures Sum(t.orders, BaseTerm(s.markets, u, a))
         == Sum(t.orders - {o.id}, BaseTerm(s.markets, u, a)) + BaseTerm(s.markets, u, a)(o.id, t.orders[o.id])
    ensures (t.orders - {o.id}).Keys == s.orders.Keys
  {
    SumRemove(t.orders, o.id, BaseTerm(s.markets, u, a));
  }

  // A buy that trades lowers what its first seller is still owed in the market's base, ...
  lemma SellerOwedLess(s: State, t: State, o: Order, view: seq<Order>, base: Asset)
    requires Settled(s, t, o, view) && o.side == Buy && HasBase(s.markets, o.marketId, base)
    requires view != [] && view[0].id in t.orders && IsBump(view[0], t.orders[view[0].id])
    ensures var f := BaseTerm(s.markets, view[0].userId, base); Sum(t.orders, f) < Sum(s.orders, f)
  {
    var u, rows := view[0].userId, t.orders - {o.id};
    RowOnTop(s, t, o, view, u, base);
    ClaimsFall(s.markets, s.orders, rows, view, base);
  }

  lemma ClaimsFall(markets: Markets, orders: map<OrderId, Order>, rows: map<OrderId, Order>, view: seq<Order>,
                   base: Asset)
    requires rows.Keys == orders.Keys && Keyed(orders) && Keyed(rows) && view != []
    requires forall i :: 0 <= i < |view| ==> view[i].id in orders && orders[view[i].id] == view[i] && view[i].Resting()
    requires forall k :: k in orders ==> rows[k] == orders[k] || Bumped(view, rows[k])
    requires IsBump(view[0], rows[view[0].id]) && view[0].side == Sell && HasBase(markets, view[0].marketId, base)
    ensures var f := BaseTerm(markets, view[0].userId, base); Sum(rows, f) < Sum(orders, f)
  {
    ClaimsNeverRise(markets, orders, rows, view, view[0].userId, base);
    ClaimFalls(markets, view[0], rows[view[0].id], base);
    SumLess(orders, rows, view[0].id, BaseTerm(markets, view[0].userId, base));
  }

  lemma ClaimFalls(markets: Markets, l: Order, row: Order, base: Asset)
    requires IsBump(l, row) && l.Resting() && l.side == Sell && HasBase(markets, l.marketId, base)
    ensures BaseTerm(markets, l.userId, base)(l.id, row) < BaseTerm(markets, l.userId, base)(l.id, l)
  {
  }

  // Of terms that no level has, those of the new row are all that a creation adds.
  lemma NewTermAdds(s: State, t: State, o: Order, view: seq<Order>, f: (OrderId, Order) -> real)
    requires Settled(s, t, o, view)
    requires forall k: OrderId, row: Order :: row.side == Opposite(o.side) ==> f(k, row) == 0.0
    ensures Sum(t.orders, f) == Sum(s.orders, f) + f(o.id, t.orders[o.id])
  {
    var rows: map<OrderId, Order> := t.orders - {o.id};
    assert rows.Keys == s.orders.Keys;
    SumRemove(t.orders, o.id, f);
    forall k: OrderId | k in s.orders ensures f(k, rows[k]) == f(k, s.orders[k]) { OldTermStays(s, t, o, view, f, k); }
    SumAcross<OrderId, Order>(s.orders, rows, f);
  }

  lemma OldTermStays(s: State, t: State, o: Order, view: seq<Order>, f: (OrderId, Order) -> real, k: OrderId)
    requires Settled(s, t, o, view) && k in s.orders
    requires forall row: Order :: row.side == Opposite(o.side) ==> f(k, row) == 0.0
    ensures f(k, t.orders[k]) == f(k, s.orders[k])
  {
    if t.orders[k] != s.orders[k] {
      var i :| 0 <= i < |view| && IsBump(view[i], t.orders[k]);
    }
  }

  // ... and a sell adds what is left of it, if it rests.
  lemma SellerOwedMore(s: State, t: State, o: Order, view: seq<Order>, base: Asset)
    requires Settled(s, t, o, view) && o.side == Sell && HasBase(s.markets, o.marketId, base)
    ensures var f, last := BaseTerm(s.markets, o.userId, base), t.orders[o.id];
      Sum(t.orders, f) == Sum(s.orders, f) + if last.Resting() then last.Remaining() else 0.0
  {
    NewTermAdds(s, t, o, view, BaseTerm(s.markets, o.userId, base));
  }

  lemma RecordedSettled(mode: ReadMode, s: State, t: State, p: Stages)
    requires Valid(s) && Recorded(mode, s, t, p)
    ensures Settled(s, t, p.o, p.view) && DistinctIds(p.view) && CoreView(p.pending, p.view, p.o.id)
  {
    RecordedRows(mode, s, t, p);
    RecordedView(mode, s, t, p);
  }

  lemma RecordedView(mode: ReadMode, s: State, t: State, p: Stages)
    requires Valid(s) && Recorded(mode, s, t, p)
    ensures DistinctIds(p.view) && CoreView(p.pending, p.view, p.o.id)
    ensures forall i :: 0 <= i < |p.view| ==>
      && p.view[i].id in s.orders && s.orders[p.view[i].id] == p.view[i]
      && p.view[i].Resting() && KeyOf(p.view[i]) == OppositeKey(p.o)
  {
    ViewRows(s, p.o, p.pending, p.view);
    ListingIsDistinct(s.orders, OppositeKey(p.o), p.view);
  }

  // A creation that went through, its rows and what became of the first level it read.
  ghost predicate Took(s: State, t: State, o: Order, view: seq<Order>) {
    && Settled(s, t, o, view)
    && (t.orders[o.id].kind == Market ==> !t.orders[o.id].Resting())
    && (!Quiet(o, view) ==>
          && view[0].id in t.orders && IsBump(view[0], t.orders[view[0].id])
          && t.orders[o.id].filled > 0.0)
  }

  lemma CreatedTook(mode: ReadMode, s: State, user: UserId, req: Request, id: OrderId, now: int, t: State)
    returns (o: Order, view: seq<Order>)
    requires Valid(s) && LiveBook(s.book) && Create(mode, Decoded, s, user, req, id, now) == Ok(t)
    ensures o == OrderOf(user, req, id, now) && view == LevelsFor(s, user, req, id, now)
    ensures Took(s, t, o, view)
    ensures req.marketId in s.markets && o.marketId == req.marketId && o.kind == req.kind && o.side == req.side
    ensures o.userId == user
    ensures o.quantity > 0.0
  {
    var p := CreateStages(mode, s, user, req, id, now);
    StagesTook(mode, s, user, req, id, now, t, p);
    StagesOrder(mode, s, user, req, id, now, t, p);
    o, view := p.o, p.view;
  }

  lemma StagesOrder(mode: ReadMode, s: State, user: UserId, req: Request, id: OrderId, now: int, t: State, p: Stages)
    requires Created(mode, s, user, req, id, now, t, p)
    ensures p.o == OrderOf(user, req, id, now) && p.view == Levels(s.book, OppositeKey(p.o))
    ensures req.marketId in s.markets && p.o.marketId == req.marketId && p.o.kind == req.kind && p.o.side == req.side
    ensures p.o.userId == user && p.o.quantity > 0.0
  {
  }

  lemma StagesTook(mode: ReadMode, s: State, user: UserId, req: Request, id: OrderId, now: int, t: State, p: Stages)
    requires Valid(s) && Created(mode, s, user, req, id, now, t, p)
    ensures Took(s, t, p.o, p.view)
  {
    StagesRecord(mode, s, user, req, id, now, t, p);
    StagesUnmatched(mode, s, user, req, id, now, t, p);
    RecordedTook(mode, s, t, p);
  }

  lemma StagesUnmatched(mode: ReadMode, s: State, user: UserId, req: Request, id: OrderId, now: int, t: State,
                        p: Stages)
    requires Created(mode, s, user, req, id, now, t, p)
    ensures Unmatched(p.o)
  {
  }

  lemma RecordedTook(mode: ReadMode, s: State, t: State, p: Stages)
    requires Valid(s) && Recorded(mode, s, t, p) && Unmatched(p.o)
    ensures Took(s, t, p.o, p.view)
  {
    RecordedRows(mode, s, t, p);
    RecordedSettled(mode, s, t, p);
    RecordedStatus(mode, t, p);
    RecordedTrades(mode, s, t, p);
    if !Quiet(p.o, p.view) { RecordedRises(mode, s, t, p); }
  }

  lemma RecordedStatus(mode: ReadMode, t: State, p: Stages)
    requires MatchedAs(mode, p.o, p.view, p.pair, p.result) && p.o.id in t.orders
    requires t.orders[p.o.id] == p.o.(status := p.result.incoming.status, filled := p.result.incoming.filled)
    ensures t.orders[p.o.id].kind == Market ==> !t.orders[p.o.id].Resting()
    ensures t.orders[p.o.id].filled == p.result.incoming.filled
  {
  }

  lemma RecordedTrades(mode: ReadMode, s: State, t: State, p: Stages)
    requires Recorded(mode, s, t, p) && Unmatched(p.o)
    ensures p.result.trades == [] <==> Quiet(p.o, p.view)
  {
    QuietMatch(mode, p.o, p.view, p.pair, p.pair);
  }

  lemma RecordedRises(mode: ReadMode, s: State, t: State, p: Stages)
    requires Recorded(mode, s, t, p) && p.result.trades != [] && Keyed(s.orders)
    requires MatchedAs(mode, p.o, p.view, p.pair, p.result) && DistinctIds(p.view)
    requires CoreView(p.pending, p.view, p.o.id)
    ensures p.view != [] && p.view[0].id in t.orders && IsBump(p.view[0], t.orders[p.view[0].id])
    ensures p.result.incoming.filled > 0.0
  {
    FirstRises(mode, TakerOf(p.o), p.view, p.result.updated, p.result.trades, p.pair, p.pending);
    TradesHaveVolume(mode, TakerOf(p.o), p.view, p.result.updated, p.result.trades, p.pair);
  }

  lemma TradesHaveVolume(mode: ReadMode, taker: Taker, view: seq<Order>, updated: seq<Order>, trades: seq<Trade>,
                         pair: Pair)
    requires Sweeps(mode, taker, view, updated, trades, pair) && trades != []
    ensures Volume(trades) > 0.0
  {
    VolumeNonNegative(mode, taker, if mode == Stale then view else view[1..], updated[2..], trades[1..], pair);
    TotalsThen(trades[0], trades[1..]);
    assert trades == [trades[0]] + trades[1..];
  }

  lemma ListingIsDistinct(orders: map<OrderId, Order>, key: BookKey, view: seq<Order>)
    requires IsListing(orders, key, view)
    ensures DistinctIds(view)
  {
    forall i, j | 0 <= i < j < |view| ensures view[i].id != view[j].id {
      assert Ahead(key.side, view[i], view[j]);
    }
  }

  lemma TradesForBase(mode: ReadMode, s: State, user: UserId, req: Request, id: OrderId, now: int)
    requires Valid(s) && LiveBook(s.book) && Admissible(s, user, req, id, now)
    ensures forall t :: t in TradesFor(mode, s, user, req, id, now) ==> t.base == req.base
  {
    var o, view, pair := OrderOf(user, req, id, now), LevelsFor(s, user, req, id, now), Pair(req.base, req.quote);
    MatchFacts(mode, o, view, pair);
    NewTradesOk(mode, s, o, s.orders[id := o], view, pair, MatchFor(mode, s, user, req, id, now));
  }

  // What stays locked of a holding in the market's base when the request names another.
  lemma MisnamedLock(mode: ReadMode, s: State, user: UserId, req: Request, id: OrderId, now: int, t: State, u: UserId)
    requires Valid(s) && LiveBook(s.book) && LocksOwn(s, req) && Create(mode, Decoded, s, user, req, id, now) == Ok(t)
    requires !NamesBase(s, req)
    ensures Admissible(s, user, req, id, now)
    ensures var base := s.markets[req.marketId].base;
      LockedAt(t.funds, Holding(u, base))
      == LockedAt(s.funds, Holding(u, base))
       + if req.side == Sell && u == user then OrderOf(user, req, id, now).quantity else 0.0
  {
    CreatedWasAdmissible(mode, Decoded, s, user, req, id, now);
    ValidCreateSucceedsIff(mode, s, user, req, id, now);
    MisnamedNotAsked(mode, s, user, req, id, now, u);
    MisnamedBacking(s, user, req, id, now, u);
  }

  lemma MisnamedNotAsked(mode: ReadMode, s: State, user: UserId, req: Request, id: OrderId, now: int, u: UserId)
    requires Valid(s) && LiveBook(s.book) && Admissible(s, user, req, id, now) && !NamesBase(s, req)
    ensures var r, trades := MatchFor(mode, s, user, req, id, now), TradesFor(mode, s, user, req, id, now);
      Asked(r.incoming, req.base, trades, Holding(u, s.markets[req.marketId].base)) == 0.0
  {
    TradesForBase(mode, s, user, req, id, now);
    MatchIsOf(mode, s, user, req, id, now);
    var r, trades := MatchFor(mode, s, user, req, id, now), TradesFor(mode, s, user, req, id, now);
    MisnamedAsksNothing(r.incoming, req.base, trades, u, s.markets[req.marketId].base);
  }

  lemma MisnamedBacking(s: State, user: UserId, req: Request, id: OrderId, now: int, u: UserId)
    requires LocksOwn(s, req) && Admissible(s, user, req, id, now)
    ensures var base := s.markets[req.marketId].base;
      Backing(s, user, req, Holding(u, base))
      == LockedAt(s.funds, Holding(u, base))
       + if req.side == Sell && u == user then OrderOf(user, req, id, now).quantity else 0.0
  {
  }

  lemma MatchIsOf(mode: ReadMode, s: State, user: UserId, req: Request, id: OrderId, now: int)
    requires Valid(s) && LiveBook(s.book) && Admissible(s, user, req, id, now)
    ensures var i := MatchFor(mode, s, user, req, id, now).incoming;
      i.userId == user && i.side == req.side && i.kind == req.kind
  {
    MatchFacts(mode, OrderOf(user, req, id, now), LevelsFor(s, user, req, id, now), Pair(req.base, req.quote));
  }

  // A request that names another base asset leaves the locks uncovered if it trades, and
  // if it is a market sell even without a trade.
  lemma MisnamedUncovers(mode: ReadMode, s: State, user: UserId, req: Request, id: OrderId, now: int, t: State)
    requires Valid(s) && LiveBook(s.book) && Covered(s)
    requires Create(mode, Decoded, s, user, req, id, now) == Ok(t) && !NamesBase(s, req)
    requires (req.kind == Market && req.side == Sell)
          || !Quiet(OrderOf(user, req, id, now), LevelsFor(s, user, req, id, now))
    ensures !Covered(t)
  {
    if LocksOwn(s, req) {
      var o, view := CreatedTook(mode, s, user, req, id, now, t);
      var u := if req.side == Buy then view[0].userId else user;
      MisnamedLock(mode, s, user, req, id, now, t, u);
      TookUncovers(s, t, o, view, s.markets[req.marketId].base, u);
    } else {
      ForeignUncovers(mode, s, user, req, id, now, t);
    }
  }

  lemma TookUncovers(s: State, t: State, o: Order, view: seq<Order>, base: Asset, u: UserId)
    requires Took(s, t, o, view) && Covered(s) && HasBase(s.markets, o.marketId, base) && o.quantity > 0.0
    requires (o.kind == Market && o.side == Sell) || !Quiet(o, view)
    requires u == if o.side == Buy then view[0].userId else o.userId
    requires LockedAt(t.funds, Holding(u, base))
          == LockedAt(s.funds, Holding(u, base)) + if o.side == Sell && u == o.userId then o.quantity else 0.0
    ensures !Covered(t)
  {
    if o.side == Buy { MisnamedBuy(s, t, o, view, base); } else { MisnamedSell(s, t, o, view, base); }
  }

  lemma MisnamedBuy(s: State, t: State, o: Order, view: seq<Order>, base: Asset)
    requires Took(s, t, o, view) && Covered(s) && o.side == Buy && !Quiet(o, view)
    requires HasBase(s.markets, o.marketId, base)
    requires LockedAt(t.funds, Holding(view[0].userId, base)) == LockedAt(s.funds, Holding(view[0].userId, base))
    ensures !Covered(t)
  {
    SellerOwedLess(s, t, o, view, base);
  }

  lemma MisnamedSell(s: State, t: State, o: Order, view: seq<Order>, base: Asset)
    requires Took(s, t, o, view) && Covered(s) && o.side == Sell && HasBase(s.markets, o.marketId, base)
    requires o.quantity > 0.0
    requires o.kind == Market || !Quiet(o, view)
    requires LockedAt(t.funds, Holding(o.userId, base)) == LockedAt(s.funds, Holding(o.userId, base)) + o.quantity
    ensures !Covered(t)
  {
    SellerOwedMore(s, t, o, view, base);
  }

  // --- Locks in another slot ----------------------------------------------------------------------

  // The slot that a settlement takes from, on the side of the request.
  function PaidFrom(user: UserId, req: Request): Slot {
    if req.side == Buy then Cash(user) else Holding(user, req.base)
  }

  function LockedIn(s: State, user: UserId, req: Request): Slot
    requires req.marketId in s.markets
  {
    SlotFor(user, LockAsset(s.markets[req.marketId], req.side))
  }

  lemma MakersLeavePaid(req: Request, user: UserId, trades: seq<Trade>)
    ensures MakersAsk(req.side, PaidFrom(user, req), trades) == 0.0
  {
    if req.side == Buy { CashNotAsked(trades, user); } else { HoldingsNotAsked(trades, user, req.base); }
  }

  lemma ForeignBacking(s: State, user: UserId, req: Request)
    requires req.marketId in s.markets && !LocksOwn(s, req)
    ensures Backing(s, user, req, PaidFrom(user, req)) == LockedAt(s.funds, PaidFrom(user, req))
    ensures var k := LockedIn(s, user, req);
      Backing(s, user, req, k) == LockedAt(s.funds, k) + LockAmount(Effective(req))
  {
  }

  // What a creation leaves locked in one slot.
  lemma LeftLocked(mode: ReadMode, s: State, user: UserId, req: Request, id: OrderId, now: int, t: State, k: Slot)
    requires Valid(s) && LiveBook(s.book) && Create(mode, Decoded, s, user, req, id, now) == Ok(t)
    ensures Admissible(s, user, req, id, now) && LockAmount(Effective(req)) > 0.0
    ensures var i, trades := MatchFor(mode, s, user, req, id, now).incoming, TradesFor(mode, s, user, req, id, now);
      LockedAt(t.funds, k) == Backing(s, user, req, k) - Asked(i, req.base, trades, k)
  {
    CreatedWasAdmissible(mode, Decoded, s, user, req, id, now);
    ValidCreateSucceedsIff(mode, s, user, req, id, now);
  }

  // Then the settlement pays out of that slot without a lock, and the lock stays.
  lemma ForeignLocks(mode: ReadMode, s: State, user: UserId, req: Request, id: OrderId, now: int, t: State)
    returns (paid: real)
    requires Valid(s) && LiveBook(s.book) && Create(mode, Decoded, s, user, req, id, now) == Ok(t) && !LocksOwn(s, req)
    ensures Admissible(s, user, req, id, now) && LockAmount(Effective(req)) > 0.0 && paid >= 0.0
    ensures LockedAt(t.funds, PaidFrom(user, req)) == LockedAt(s.funds, PaidFrom(user, req)) - paid
    ensures paid == 0.0 ==> TradesFor(mode, s, user, req, id, now) == [] && req.kind == Limit
    ensures paid == 0.0 ==>
      var k := LockedIn(s, user, req); LockedAt(t.funds, k) == LockedAt(s.funds, k) + LockAmount(Effective(req))
  {
    LeftLocked(mode, s, user, req, id, now, t, PaidFrom(user, req));
    LeftLocked(mode, s, user, req, id, now, t, LockedIn(s, user, req));
    ForeignBacking(s, user, req);
    paid := ForeignPays(mode, s, user, req, id, now);
    if paid == 0.0 {
      MatchIsOf(mode, s, user, req, id, now);
      NothingAsked(MatchFor(mode, s, user, req, id, now).incoming, req.base, LockedIn(s, user, req));
    }
  }

  lemma NothingAsked(i: Order, base: Asset, k: Slot)
    requires i.kind == Limit
    ensures Asked(i, base, [], k) == 0.0
  {
  }

  lemma ForeignPays(mode: ReadMode, s: State, user: UserId, req: Request, id: OrderId, now: int) returns (paid: real)
    requires Valid(s) && LiveBook(s.book) && Admissible(s, user, req, id, now)
    ensures var i, trades := MatchFor(mode, s, user, req, id, now).incoming, TradesFor(mode, s, user, req, id, now);
      && paid == Asked(i, req.base, trades, PaidFrom(user, req)) >= 0.0
      && (paid == 0.0 ==> trades == [] && req.kind == Limit)
  {
    var o, view, pair := OrderOf(user, req, id, now), LevelsFor(s, user, req, id, now), Pair(req.base, req.quote);
    var r, trades := MatchFor(mode, s, user, req, id, now), TradesFor(mode, s, user, req, id, now);
    MatchPays(mode, o, view, pair, req.base, r);
    JoinedTotals(s.orders[id := o], r.trades);
    JoinedEmpty(s.orders[id := o], r.trades);
    MakersLeavePaid(req, user, trades);
    paid := Asked(r.incoming, req.base, trades, PaidFrom(user, req));
  }

  lemma MatchPays(mode: ReadMode, o: Order, view: seq<Order>, pair: Pair, base: Asset, r: OrderResult)
    requires Live(view) && o.filled == 0.0 && o.quantity > 0.0 && o.price >= 0.0
    requires o.kind == Market && o.side == Buy ==> o.price > 0.0
    requires r == Match(mode, o, view, pair)
    ensures var paid := TakerAsks(r.incoming, base, Volume(r.trades), Cost(r.trades), TakerSlot(o, base));
      paid >= 0.0 && (paid == 0.0 ==> r.trades == [] && o.kind == Limit)
    ensures r.incoming.userId == o.userId && r.incoming.side == o.side
  {
    MatchFacts(mode, o, view, pair);
    SweepPays(mode, TakerOf(o), view, r.updated, r.trades, pair);
  }

  lemma {:induction false} SweepPays(mode: ReadMode, taker: Taker, view: seq<Order>, updated: seq<Order>,
                                     trades: seq<Trade>, pair: Pair)
    requires Sweeps(mode, taker, view, updated, trades, pair) && Live(view)
    ensures Volume(trades) >= 0.0 && Cost(trades) >= 0.0
    ensures trades != [] ==> Volume(trades) > 0.0 && Cost(trades) > 0.0
    decreases |trades|
  {
    if trades != [] {
      assert LiveLevel(view[0]);
      SweepPays(mode, taker, if mode == Stale then view else view[1..], updated[2..], trades[1..], pair);
      CostPositive(trades[0]);
      TotalsThen(trades[0], trades[1..]);
      assert trades == [trades[0]] + trades[1..];
    }
  }

  lemma KeptNeverFalls(s: State, t: State, inserted: seq<Trade>, u: UserId)
    requires Valid(s) && Valid(t) && SameCores(s.orders, t.orders) && t.trades == s.trades + inserted
    ensures KeptBack(t.orders, t.trades)(u) >= KeptBack(s.orders, s.trades)(u)
    ensures inserted == [] ==> KeptBack(t.orders, t.trades)(u) == KeptBack(s.orders, s.trades)(u)
  {
    KeptSame(s.orders, t.orders, s.trades, u);
    TotalAppend(s.trades, inserted, KeptTerm(t.orders, u));
    forall x | x in inserted ensures TradeOk(t.orders, x) { assert x in t.trades; }
    KeptNonNegative(t.orders, inserted, u);
  }

  // A slot that is paid from without a lock holds less than the rows claim; ...
  lemma PaidUncovers(s: State, t: State, o: Order, view: seq<Order>, a: Asset, paid: real)
    requires Settled(s, t, o, view) && Covered(s) && paid > 0.0 && RestingRows(t.orders)
    requires KeptBack(t.orders, t.trades)(o.userId) >= KeptBack(s.orders, s.trades)(o.userId)
    requires var k := if o.side == Buy then Cash(o.userId) else Holding(o.userId, a);
      LockedAt(t.funds, k) == LockedAt(s.funds, k) - paid
    ensures !Covered(t)
  {
    if o.side == Buy { CashClaimsStay(s, t, o, view); } else { HoldingClaimsStay(s, t, o, view, a); }
    CoveredSlots(s, o.userId, a);
    if Covered(t) { CoveredSlots(t, o.userId, a); }
  }

  lemma CoveredSlots(s: State, u: UserId, a: Asset)
    requires Covered(s)
    ensures LockedAt(s.funds, Cash(u)) == Sum(s.orders, CashTerm(u)) + KeptBack(s.orders, s.trades)(u)
    ensures LockedAt(s.funds, Holding(u, a)) == Sum(s.orders, BaseTerm(s.markets, u, a))
  {
  }

  lemma CashClaimsStay(s: State, t: State, o: Order, view: seq<Order>)
    requires Settled(s, t, o, view) && RestingRows(t.orders) && o.side == Buy
    ensures Sum(t.orders, CashTerm(o.userId)) >= Sum(s.orders, CashTerm(o.userId))
  {
    NewTermAdds(s, t, o, view, CashTerm(o.userId));
    RestingClaims(o.id, t.orders[o.id], o.userId);
  }

  lemma HoldingClaimsStay(s: State, t: State, o: Order, view: seq<Order>, a: Asset)
    requires Settled(s, t, o, view) && RestingRows(t.orders) && o.side == Sell
    ensures Sum(t.orders, BaseTerm(s.markets, o.userId, a)) >= Sum(s.orders, BaseTerm(s.markets, o.userId, a))
  {
    NewTermAdds(s, t, o, view, BaseTerm(s.markets, o.userId, a));
  }

  lemma RestingClaims(id: OrderId, o: Order, u: UserId)
    requires o.Resting() ==> LiveLevel(o)
    ensures CashTerm(u)(id, o) >= 0.0
  {
  }

  // ... and one that a lock stays in without a claim, more.
  lemma LockUncovers(s: State, t: State, row: Order, a: Asset, amount: real)
    requires Covered(s) && t.markets == s.markets && row.id !in s.orders && t.orders == s.orders[row.id := row]
    requires KeptBack(t.orders, t.trades)(row.userId) == KeptBack(s.orders, s.trades)(row.userId) && amount > 0.0
    requires var k := if row.side == Buy then Holding(row.userId, a) else Cash(row.userId);
      LockedAt(t.funds, k) == LockedAt(s.funds, k) + amount
    ensures !Covered(t)
  {
    SumUpdate(s.orders, row.id, row, BaseTerm(s.markets, row.userId, a));
    SumUpdate(s.orders, row.id, row, CashTerm(row.userId));
  }

  lemma RecordedQuiet(mode: ReadMode, s: State, t: State, p: Stages)
    requires Recorded(mode, s, t, p) && Unmatched(p.o) && p.result.trades == []
    ensures p.o.id in t.orders && SameCore(p.o, t.orders[p.o.id]) && t.orders == s.orders[p.o.id := t.orders[p.o.id]]
  {
    QuietMatch(mode, p.o, p.view, p.pair, p.pair);
    assert RowsAfter(p.pending, p.result) == UpdateRow(p.pending, p.result.incoming);
  }

  lemma StagesTrades(mode: ReadMode, s: State, user: UserId, req: Request, id: OrderId, now: int, t: State, p: Stages)
    requires LiveBook(s.book) && Created(mode, s, user, req, id, now, t, p)
    ensures t.trades == s.trades + p.inserted && p.inserted == TradesFor(mode, s, user, req, id, now)
    ensures p.inserted == [] <==> p.result.trades == []
    ensures p.o.userId == user && p.o.side == req.side && t.markets == s.markets && req.marketId in s.markets
  {
    JoinedEmpty(p.pending, p.result.trades);
  }

  // So a creation with its lock in another slot leaves the locks uncovered, in both modes.
  lemma ForeignUncovers(mode: ReadMode, s: State, user: UserId, req: Request, id: OrderId, now: int, t: State)
    requires Valid(s) && LiveBook(s.book) && Covered(s) && Create(mode, Decoded, s, user, req, id, now) == Ok(t)
    requires !LocksOwn(s, req)
    ensures !Covered(t)
  {
    var paid := ForeignLocks(mode, s, user, req, id, now, t);
    CreateKeepsValid(mode, s, user, req, id, now);
    var p := CreateStages(mode, s, user, req, id, now);
    StagesTrades(mode, s, user, req, id, now, t, p);
    KeptNeverFalls(s, t, p.inserted, user);
    if paid > 0.0 {
      ForeignPaid(mode, s, user, req, id, now, t, p, paid);
    } else {
      ForeignQuiet(mode, s, user, req, id, now, t, p, LockAmount(Effective(req)));
    }
  }

  lemma ForeignPaid(mode: ReadMode, s: State, user: UserId, req: Request, id: OrderId, now: int, t: State, p: Stages,
                    paid: real)
    requires Valid(s) && Valid(t) && Covered(s) && Created(mode, s, user, req, id, now, t, p) && paid > 0.0
    requires p.o.userId == user && p.o.side == req.side
    requires KeptBack(t.orders, t.trades)(user) >= KeptBack(s.orders, s.trades)(user)
    requires LockedAt(t.funds, PaidFrom(user, req)) == LockedAt(s.funds, PaidFrom(user, req)) - paid
    ensures !Covered(t)
  {
    StagesRecord(mode, s, user, req, id, now, t, p);
    RecordedSettled(mode, s, t, p);
    ValidIsLive(t);
    PaidUncovers(s, t, p.o, p.view, req.base, paid);
  }

  lemma ForeignQuiet(mode: ReadMode, s: State, user: UserId, req: Request, id: OrderId, now: int, t: State, p: Stages,
                     amount: real)
    requires Covered(s) && Created(mode, s, user, req, id, now, t, p) && !LocksOwn(s, req) && amount > 0.0
    requires p.result.trades == [] && p.o.userId == user && p.o.side == req.side && t.markets == s.markets
    requires KeptBack(t.orders, t.trades)(user) == KeptBack(s.orders, s.trades)(user)
    requires LockedAt(t.funds, LockedIn(s, user, req)) == LockedAt(s.funds, LockedIn(s, user, req)) + amount
    ensures !Covered(t)
  {
    StagesRecord(mode, s, user, req, id, now, t, p);
    StagesUnmatched(mode, s, user, req, id, now, t, p);
    RecordedQuiet(mode, s, t, p);
    LockUncovers(s, t, t.orders[id], s.markets[req.marketId].quote, amount);
  }

  // --- The exact condition ----------------------------------------------------------------------

  // The lock is taken where it is given back; and the request names its market's base, or it
  // meets nothing and gets nothing back in the asset it names.
  predicate Harmless(s: State, req: Request, o: Order, view: seq<Order>) {
    LocksOwn(s, req) && (NamesBase(s, req) || (!(req.kind == Market && req.side == Sell) && Quiet(o, view)))
  }

  // The assets that the match of a harmless request might as well be given.
  function PairFor(s: State, req: Request): Pair
    requires req.marketId in s.markets
  {
    if NamesBase(s, req) && req.quote in s.funds.assets then Pair(req.base, req.quote)
    else Pair(s.markets[req.marketId].base, s.markets[req.marketId].quote)
  }

  lemma HarmlessCreates(s: State, user: UserId, req: Request, id: OrderId, now: int)
    requires Valid(s) && LiveBook(s.book) && Covered(s) && Registered(s) && Admissible(s, user, req, id, now)
    requires Harmless(s, req, OrderOf(user, req, id, now), LevelsFor(s, user, req, id, now))
    requires Quiet(OrderOf(user, req, id, now), LevelsFor(s, user, req, id, now)) || req.quote in s.funds.assets
    ensures Create(Fresh, Decoded, s, user, req, id, now).Ok?
    ensures Covered(Create(Fresh, Decoded, s, user, req, id, now).value)
  {
    var o, stamps := OrderOf(user, req, id, now), s.stamps + {Stamp(user, req.marketId, now)};
    var f := AdmissibleLocks(s, user, req, id, now);
    var k := LockedOpens(s, user, req, id, now, f, PairFor(s, req));
    CreateExecutes(Fresh, Decoded, s, user, req, id, now, f);
    OpenedCovers(s, o, PairFor(s, req), f, k, LockAmount(Effective(req)), stamps);
    if PairFor(s, req) != Pair(req.base, req.quote) {
      AdmissibleIsUnmatched(s, user, req, id, now);
      QuietExecutes(Fresh, Decoded, s, f, s.orders[id := o], stamps, o, Pair(req.base, req.quote), PairFor(s, req));
    }
  }

  lemma AdmissibleIsUnmatched(s: State, user: UserId, req: Request, id: OrderId, now: int)
    requires Admissible(s, user, req, id, now)
    ensures Unmatched(OrderOf(user, req, id, now))
    ensures var o := OrderOf(user, req, id, now); o.kind == req.kind && o.side == req.side
  {
  }

  lemma TradedIsRegistered(mode: ReadMode, s: State, user: UserId, req: Request, id: OrderId, now: int)
    requires Valid(s) && LiveBook(s.book) && Create(mode, Decoded, s, user, req, id, now).Ok?
    ensures Quiet(OrderOf(user, req, id, now), LevelsFor(s, user, req, id, now))
      || (req.base in s.funds.assets && req.quote in s.funds.assets)
  {
    ValidCreateSucceedsIff(mode, s, user, req, id, now);
    var o, view, pair := OrderOf(user, req, id, now), LevelsFor(s, user, req, id, now), Pair(req.base, req.quote);
    QuietMatch(mode, o, view, pair, pair);
    JoinedEmpty(s.orders[id := o], MatchFor(mode, s, user, req, id, now).trades);
  }

  // Reading fresh, a creation that goes through from a covered state leaves a covered one
  // if and only if its request is harmless.
  lemma ValidCreateCoveredIff(s: State, user: UserId, req: Request, id: OrderId, now: int, t: State)
    requires Valid(s) && LiveBook(s.book) && Covered(s) && Registered(s)
    requires Create(Fresh, Decoded, s, user, req, id, now) == Ok(t)
    ensures Covered(t) <==> Harmless(s, req, OrderOf(user, req, id, now), LevelsFor(s, user, req, id, now))
  {
    CreatedWasAdmissible(Fresh, Decoded, s, user, req, id, now);
    if Harmless(s, req, OrderOf(user, req, id, now), LevelsFor(s, user, req, id, now)) {
      TradedIsRegistered(Fresh, s, user, req, id, now);
      HarmlessCreates(s, user, req, id, now);
    } else if LocksOwn(s, req) {
      MisnamedUncovers(Fresh, s, user, req, id, now, t);
    } else {
      ForeignUncovers(Fresh, s, user, req, id, now, t);
    }
  }

  // And a harmless one goes through exactly when it is admissible and, if it trades, its
  // quote asset is registered.
  lemma ValidHarmlessSucceedsIff(s: State, user: UserId, req: Request, id: OrderId, now: int)
    requires Valid(s) && LiveBook(s.book) && Covered(s) && Registered(s)
    requires Harmless(s, req, OrderOf(user, req, id, now), LevelsFor(s, user, req, id, now))
    ensures Create(Fresh, Decoded, s, user, req, id, now).Ok? <==>
      && Admissible(s, user, req, id, now)
      && (Quiet(OrderOf(user, req, id, now), LevelsFor(s, user, req, id, now)) || req.quote in s.funds.assets)
  {
    if Create(Fresh, Decoded, s, user, req, id, now).Ok? {
      CreatedWasAdmissible(Fresh, Decoded, s, user, req, id, now);
      TradedIsRegistered(Fresh, s, user, req, id, now);
    }
    if Admissible(s, user, req, id, now)
      && (Quiet(OrderOf(user, req, id, now), LevelsFor(s, user, req, id, now)) || req.quote in s.funds.assets) {
      HarmlessCreates(s, user, req, id, now);
    }
  }
}
