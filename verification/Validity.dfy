// Every step keeps the state valid, whichever way the matching loop reads the book,
// and moves money without making any.

module Validity {
  import opened Models
  import opened Ledger
  import opened OrderBook
  import opened Matching
  import opened Settlement
  import opened Coverage
  import opened Exchange

  // The stages of a creation that went through.
  datatype Stages = Stages(
    o: Order,
    view: seq<Order>,
    pair: Pair,
    locked: Funds,
    pending: map<OrderId, Order>,
    result: OrderResult,
    inserted: seq<Trade>)

  ghost predicate Created(mode: ReadMode, s: State, user: UserId, req: Request, id: OrderId, now: int, t: State,
                          p: Stages) {
    var r := Effective(req);
    && Bound(req) && r.marketId in s.markets && s.markets[r.marketId].active
    && (r.side == Buy ==> LockAmount(r) > 0.0)
    && p.o == NewOrder(r, user, id, now) && p.o.quantity > 0.0 && p.o.price >= 0.0 && id !in s.orders
    && p.pair == Pair(req.base, req.quote)
    && LockBalance(s.funds, user, LockAsset(s.markets[r.marketId], r.side), LockAmount(r)) == Ok(p.locked)
    && Cash(user) in p.locked.rows
    && p.pending == s.orders[id := p.o] && Stamp(user, p.o.marketId, now) !in s.stamps
    && p.view == Levels(s.book, OppositeKey(p.o)) && Live(p.view)
    && p.result == Match(mode, p.o, p.view, p.pair)
    && p.inserted == AllJoined(p.pending, p.result.trades)
    && (forall x :: x in p.result.trades ==> InsertTrade(p.locked.assets, p.pending, x).Ok?)
    && Settle(p.locked, p.result.incoming, p.pair, p.inserted) == Ok(t.funds)
    && t == State(s.markets, t.funds, RowsAfter(p.pending, p.result), s.stamps + {Stamp(user, p.o.marketId, now)},
                  s.trades + p.inserted, ApplyToBook(s.book, p.result))
  }

  lemma CreateStages(mode: ReadMode, s: State, user: UserId, req: Request, id: OrderId, now: int) returns (p: Stages)
    requires LiveBook(s.book) && Create(mode, Decoded, s, user, req, id, now).Ok?
    ensures Created(mode, s, user, req, id, now, Create(mode, Decoded, s, user, req, id, now).value, p)
  {
    var r := Effective(req);
    var locked := LockBalance(s.funds, user, LockAsset(s.markets[r.marketId], r.side), LockAmount(r)).value;
    var o := NewOrder(r, user, id, now);
    var pending := InsertOrder(locked, s.orders, o).value;
    var pair := Pair(req.base, req.quote);
    var view := Levels(s.book, OppositeKey(o));
    var result := Match(mode, o, view, pair);
    InsertTradesJoins(locked.assets, pending, result.trades);
    p := Stages(o, view, pair, locked, pending, result, AllJoined(pending, result.trades));
  }

  // --- The trades of a sweep ----------------------------------------------------------

  predicate IsTradeOn(taker: Taker, level: Order, t: Trade, pair: Pair) {
    && 0.0 < t.quantity <= level.Remaining()
    && t == TradeOf(taker.id, taker.side, level, t.quantity, pair)
    && Within(taker, level.price)
  }

  ghost predicate TradesOn(taker: Taker, view: seq<Order>, t: Trade, pair: Pair) {
    exists i :: 0 <= i < |view| && IsTradeOn(taker, view[i], t, pair)
  }

  lemma {:induction false} SweepTrades(mode: ReadMode, taker: Taker, view: seq<Order>, updated: seq<Order>,
                                       trades: seq<Trade>, pair: Pair)
    requires Sweeps(mode, taker, view, updated, trades, pair)
    ensures forall t :: t in trades ==> TradesOn(taker, view, t, pair)
    decreases |trades|
  {
    if trades != [] {
      var tail := if mode == Stale then view else view[1..];
      SweepTrades(mode, taker, tail, updated[2..], trades[1..], pair);
      assert IsTradeOn(taker, view[0], trades[0], pair);
      forall t | t in trades ensures TradesOn(taker, view, t, pair) {
        if t != trades[0] {
          assert t in trades[1..];
          var i :| 0 <= i < |tail| && IsTradeOn(taker, tail[i], t, pair);
          assert IsTradeOn(taker, view[if mode == Stale then i else i + 1], t, pair);
        }
      }
    }
  }

  lemma {:induction false} JoinedMember(orders: map<OrderId, Order>, trades: seq<Trade>, x: Trade)
    requires x in AllJoined(orders, trades)
    ensures exists t :: t in trades && x == Joined(orders, t)
  {
    if x != Joined(orders, trades[0]) {
      JoinedMember(orders, trades[1..], x);
      var t :| t in trades[1..] && x == Joined(orders, t);
      assert t in trades;
    } else {
      assert trades[0] in trades;
    }
  }

  // --- The view of a creation ------------------------------------------------------------

  // The levels offered to a new order are the resting rows of the other side.
  lemma ViewRows(s: State, o: Order, pending: map<OrderId, Order>, view: seq<Order>)
    requires Valid(s) && o.id !in s.orders && pending == s.orders[o.id := o]
    requires view == Levels(s.book, OppositeKey(o))
    ensures IsListing(s.orders, OppositeKey(o), view)
    ensures CoreView(pending, view, o.id) && Live(view)
    ensures forall i :: 0 <= i < |view| ==>
      && view[i].id in s.orders && s.orders[view[i].id] == view[i] && view[i].Resting()
      && KeyOf(view[i]) == OppositeKey(o) && RowOk(s.markets, view[i].id, view[i])
  {
    LevelsAreListing(s.orders, s.book, OppositeKey(o));
    ListingRows(s.markets, s.orders, OppositeKey(o), view, o, pending);
  }

  lemma ListingRows(markets: Markets, orders: map<OrderId, Order>, key: BookKey, view: seq<Order>, o: Order,
                    pending: map<OrderId, Order>)
    requires IsListing(orders, key, view) && o.id !in orders && pending == orders[o.id := o]
    requires forall id :: id in orders ==> RowOk(markets, id, orders[id])
    ensures CoreView(pending, view, o.id) && Live(view)
    ensures forall i :: 0 <= i < |view| ==> RowOk(markets, view[i].id, view[i])
  {
    forall i | 0 <= i < |view|
      ensures pending[view[i].id] == view[i] && view[i].id != o.id
      ensures RowOk(markets, view[i].id, view[i]) && LiveLevel(view[i])
    {
      assert orders[view[i].id] == view[i];
    }
  }

  // A trade of a creation, once joined, is a good row of the trade table.
  lemma NewTradeOk(s: State, o: Order, pending: map<OrderId, Order>, view: seq<Order>, t: Trade, pair: Pair)
    requires Valid(s) && o.id !in s.orders && pending == s.orders[o.id := o]
    requires view == Levels(s.book, OppositeKey(o)) && TradesOn(TakerOf(o), view, t, pair)
    ensures TradeOk(pending, Joined(pending, t)) && t.base == pair.base
  {
    ViewRows(s, o, pending, view);
    var i :| 0 <= i < |view| && IsTradeOn(TakerOf(o), view[i], t, pair);
    assert LiveLevel(view[i]);
  }

  lemma NewTradesOk(mode: ReadMode, s: State, o: Order, pending: map<OrderId, Order>, view: seq<Order>, pair: Pair,
                    r: OrderResult)
    requires Valid(s) && o.id !in s.orders && pending == s.orders[o.id := o]
    requires view == Levels(s.book, OppositeKey(o))
    requires Sweeps(mode, TakerOf(o), view, r.updated, r.trades, pair)
    ensures forall x :: x in AllJoined(pending, r.trades) ==> TradeOk(pending, x) && x.base == pair.base
    ensures forall y :: y in r.trades ==>
      TradeOk(pending, Joined(pending, y)) && y.base == pair.base && y.quote == pair.quote
  {
    SweepTrades(mode, TakerOf(o), view, r.updated, r.trades, pair);
    forall y | y in r.trades
      ensures TradeOk(pending, Joined(pending, y)) && y.base == pair.base && y.quote == pair.quote
    {
      NewTradeOk(s, o, pending, view, y, pair);
    }
    forall x | x in AllJoined(pending, r.trades) ensures TradeOk(pending, x) && x.base == pair.base {
      JoinedMember(pending, r.trades, x);
    }
  }

  lemma LockedKnown(s: State, o: Order, pending: map<OrderId, Order>, a: Asset, amount: real, locked: Funds)
    requires Valid(s) && pending == s.orders[o.id := o] && LockBalance(s.funds, o.userId, a, amount) == Ok(locked)
    requires Cash(o.userId) in locked.rows
    ensures UsersKnown(locked, pending) && Sound(locked)
  {
    LockConserves(s.funds, o.userId, a, amount, CashColumn);
  }

  lemma InsertedSettleable(f: Funds, pending: map<OrderId, Order>, base: Asset, inserted: seq<Trade>)
    requires UsersKnown(f, pending) && forall x :: x in inserted ==> TradeOk(pending, x) && x.base == base
    ensures Settleable(f, base, inserted)
  {
  }

  lemma StagesSettleable(mode: ReadMode, s: State, user: UserId, req: Request, id: OrderId, now: int, t: State,
                         p: Stages)
    requires Valid(s) && Created(mode, s, user, req, id, now, t, p)
    ensures Sweeps(mode, TakerOf(p.o), p.view, p.result.updated, p.result.trades, p.pair)
    ensures UsersKnown(p.locked, p.pending) && Sound(p.locked)
    ensures Settleable(p.locked, p.pair.base, p.inserted)
    ensures forall x :: x in p.inserted ==> TradeOk(p.pending, x)
  {
    MatchFacts(mode, p.o, p.view, p.pair);
    NewTradesOk(mode, s, p.o, p.pending, p.view, p.pair, p.result);
    LockedKnown(s, p.o, p.pending, LockAsset(s.markets[p.o.marketId], p.o.side), LockAmount(Effective(req)), p.locked);
    InsertedSettleable(p.locked, p.pending, p.pair.base, p.inserted);
  }

  // Whatever the request, whatever the trades: a creation that goes through leaves
  // the total of every column as it was.
  lemma CreateConserves(mode: ReadMode, s: State, user: UserId, req: Request, id: OrderId, now: int, c: Column)
    requires Valid(s) && LiveBook(s.book) && Create(mode, Decoded, s, user, req, id, now).Ok?
    ensures var t := Create(mode, Decoded, s, user, req, id, now).value;
      Held(t.funds, c) == Held(s.funds, c) && Kept(s.funds, t.funds)
  {
    var t := Create(mode, Decoded, s, user, req, id, now).value;
    var p := CreateStages(mode, s, user, req, id, now);
    StagesSettleable(mode, s, user, req, id, now, t, p);
    LockConserves(s.funds, user, LockAsset(s.markets[p.o.marketId], p.o.side), LockAmount(Effective(req)), c);
    MatchFacts(mode, p.o, p.view, p.pair);
    SettleConserves(p.locked, p.result.incoming, p.pair, p.inserted, c);
  }

  // --- The rows of a creation ----------------------------------------------------------

  lemma BumpedRowOk(markets: Markets, view: seq<Order>, row: Order)
    requires forall i :: 0 <= i < |view| ==> RowOk(markets, view[i].id, view[i]) && view[i].Resting()
    requires Bumped(view, row)
    ensures RowOk(markets, row.id, row)
  {
  }

  // What the store needs to know of a match of the new order o.
  ghost predicate MatchedAs(mode: ReadMode, o: Order, view: seq<Order>, pair: Pair, r: OrderResult) {
    && Sweeps(mode, TakerOf(o), view, r.updated, r.trades, pair)
    && r.incoming.id == o.id && r.incoming.kind == o.kind && r.incoming.filled == Volume(r.trades) >= 0.0
    && match o.kind
       case Limit => r.incoming == o.(filled := r.incoming.filled, status := LimitStatus(r.incoming))
           && r.incoming.filled <= o.quantity
       case Market =>
         && (r.incoming.status == Filled || r.incoming.status == Cancelled)
         && (o.side == Sell ==> r.incoming.filled <= o.quantity)
  }

  lemma {:induction false} VolumeNonNegative(mode: ReadMode, taker: Taker, view: seq<Order>, updated: seq<Order>,
                                             trades: seq<Trade>, pair: Pair)
    requires Sweeps(mode, taker, view, updated, trades, pair)
    ensures Volume(trades) >= 0.0
    decreases |trades|
  {
    if trades != [] {
      VolumeNonNegative(mode, taker, if mode == Stale then view else view[1..], updated[2..], trades[1..], pair);
      TotalsThen(trades[0], trades[1..]);
      assert trades == [trades[0]] + trades[1..];
    }
  }

  lemma MatchOutcome(mode: ReadMode, o: Order, view: seq<Order>, pair: Pair)
    requires Live(view) && o.filled == 0.0 && o.quantity > 0.0 && o.price >= 0.0
    ensures MatchedAs(mode, o, view, pair, Match(mode, o, view, pair))
  {
    MatchFacts(mode, o, view, pair);
    var r := Match(mode, o, view, pair);
    VolumeNonNegative(mode, TakerOf(o), view, r.updated, r.trades, pair);
  }

  // The rows after the levels have been updated.
  lemma RowsSwept(mode: ReadMode, o: Order, view: seq<Order>, pair: Pair, r: OrderResult, orders: map<OrderId, Order>,
                  book: Book)
    requires Agrees(orders, book) && o.id !in orders && !o.Resting()
    requires CoreView(orders[o.id := o], view, o.id) && Sweeps(mode, TakerOf(o), view, r.updated, r.trades, pair)
    ensures var rows := UpdateRows(orders[o.id := o], r.updated, o.id);
      && rows.Keys == orders.Keys + {o.id} && rows[o.id] == o
      && (forall k :: k in orders ==> rows[k] == orders[k] || Bumped(view, rows[k]))
      && Agrees(rows, UpdateLevels(book, r.updated, o.id))
  {
    QuietRowAgrees(orders, book, o);
    SweepAgrees(mode, TakerOf(o), view, r.updated, r.trades, pair, orders[o.id := o], book);
    RowsOfSweep(mode, TakerOf(o), view, r.updated, r.trades, pair, orders[o.id := o]);
    var rows := UpdateRows(orders[o.id := o], r.updated, o.id);
    assert rows[o.id].id == o.id;
  }

  // The rows after a creation: those of the levels bumped, the new one as the match
  // left it, all others untouched; and the book follows.
  lemma RowsSettled(mode: ReadMode, o: Order, view: seq<Order>, pair: Pair, r: OrderResult, orders: map<OrderId, Order>,
                    book: Book)
    requires Agrees(orders, book) && o.id !in orders && o.status == Pending
    requires CoreView(orders[o.id := o], view, o.id) && MatchedAs(mode, o, view, pair, r)
    ensures var rows := RowsAfter(orders[o.id := o], r);
      && rows.Keys == orders.Keys + {o.id}
      && rows[o.id] == o.(status := r.incoming.status, filled := r.incoming.filled)
      && (forall k :: k in orders ==> rows[k] == orders[k] || Bumped(view, rows[k]))
      && Agrees(rows, ApplyToBook(book, r))
  {
    RowsSwept(mode, o, view, pair, r, orders, book);
    var rows := UpdateRows(orders[o.id := o], r.updated, o.id);
    var last := o.(status := r.incoming.status, filled := r.incoming.filled);
    assert RowsAfter(orders[o.id := o], r) == rows[o.id := last];
    var levels := UpdateLevels(book, r.updated, o.id);
    if o.kind == Limit && last.status != Filled {
      InsertAgrees(rows, levels, last);
    } else {
      QuietRowAgrees(rows, levels, last);
    }
  }

  // What a creation records: its match, in the rows and in the book.
  ghost predicate Recorded(mode: ReadMode, s: State, t: State, p: Stages) {
    && p.o.id !in s.orders && p.o.status == Pending && p.o.filled == 0.0 && p.o.quantity > 0.0 && p.o.price >= 0.0
    && p.o.marketId in s.markets && (p.o.kind == Limit ==> p.o.price > 0.0)
    && p.pending == s.orders[p.o.id := p.o] && p.view == Levels(s.book, OppositeKey(p.o)) && Live(p.view)
    && p.result == Match(mode, p.o, p.view, p.pair)
    && t.markets == s.markets && t.orders == RowsAfter(p.pending, p.result) && t.book == ApplyToBook(s.book, p.result)
  }

  lemma StagesRecord(mode: ReadMode, s: State, user: UserId, req: Request, id: OrderId, now: int, t: State, p: Stages)
    requires Created(mode, s, user, req, id, now, t, p)
    ensures Recorded(mode, s, t, p) && p.o.id == id && p.o.userId == user && Cash(user) in p.locked.rows
  {
  }

  lemma RecordedRows(mode: ReadMode, s: State, t: State, p: Stages)
    requires Valid(s) && Recorded(mode, s, t, p)
    ensures MatchedAs(mode, p.o, p.view, p.pair, p.result)
    ensures t.orders.Keys == s.orders.Keys + {p.o.id}
    ensures t.orders[p.o.id] == p.o.(status := p.result.incoming.status, filled := p.result.incoming.filled)
    ensures forall k :: k in s.orders ==> t.orders[k] == s.orders[k] || Bumped(p.view, t.orders[k])
    ensures Agrees(t.orders, t.book)
  {
    ViewRows(s, p.o, p.pending, p.view);
    MatchOutcome(mode, p.o, p.view, p.pair);
    RowsSettled(mode, p.o, p.view, p.pair, p.result, s.orders, s.book);
  }

  // The same for a whole creation.
  lemma CreatedRows(mode: ReadMode, s: State, user: UserId, req: Request, id: OrderId, now: int, t: State, p: Stages)
    requires Valid(s) && Created(mode, s, user, req, id, now, t, p)
    ensures MatchedAs(mode, p.o, p.view, p.pair, p.result)
    ensures t.orders.Keys == s.orders.Keys + {id}
    ensures t.orders[id] == p.o.(status := p.result.incoming.status, filled := p.result.incoming.filled)
    ensures forall k :: k in s.orders ==> t.orders[k] == s.orders[k] || Bumped(p.view, t.orders[k])
    ensures Agrees(t.orders, t.book)
  {
    StagesRecord(mode, s, user, req, id, now, t, p);
    RecordedRows(mode, s, t, p);
  }

  lemma NewRowOk(mode: ReadMode, markets: Markets, o: Order, view: seq<Order>, pair: Pair, r: OrderResult)
    requires MatchedAs(mode, o, view, pair, r)
    requires o.marketId in markets && o.quantity > 0.0 && o.price >= 0.0 && (o.kind == Limit ==> o.price > 0.0)
    ensures RowOk(markets, o.id, o.(status := r.incoming.status, filled := r.incoming.filled))
  {
  }

  ghost predicate RowsOk(markets: Markets, orders: map<OrderId, Order>) {
    forall id :: id in orders ==> RowOk(markets, id, orders[id])
  }

  lemma RowsStayOk(markets: Markets, orders: map<OrderId, Order>, rows: map<OrderId, Order>, id: OrderId,
                   view: seq<Order>)
    requires RowsOk(markets, orders) && rows.Keys == orders.Keys + {id}
    requires id in rows && RowOk(markets, id, rows[id])
    requires forall i :: 0 <= i < |view| ==> RowOk(markets, view[i].id, view[i]) && view[i].Resting()
    requires Keyed(rows)
    requires forall k :: k in orders ==> rows[k] == orders[k] || Bumped(view, rows[k])
    ensures RowsOk(markets, rows)
  {
    forall k | k in rows ensures RowOk(markets, k, rows[k]) {
      if k in orders && rows[k] != orders[k] { BumpedRowOk(markets, view, rows[k]); }
    }
  }

  // Rows keep what a trade depends on.
  ghost predicate SameCores(orders: map<OrderId, Order>, rows: map<OrderId, Order>) {
    orders.Keys <= rows.Keys && forall k :: k in orders ==> SameCore(orders[k], rows[k])
  }

  lemma BumpedSameCore(orders: map<OrderId, Order>, rows: map<OrderId, Order>, view: seq<Order>)
    requires orders.Keys <= rows.Keys && Keyed(orders) && Keyed(rows)
    requires forall i :: 0 <= i < |view| ==> view[i].id in orders && orders[view[i].id] == view[i]
    requires forall k :: k in orders ==> rows[k] == orders[k] || Bumped(view, rows[k])
    ensures SameCores(orders, rows)
  {
    forall k | k in orders ensures SameCore(orders[k], rows[k]) {
      if rows[k] != orders[k] {
        var i :| 0 <= i < |view| && IsBump(view[i], rows[k]);
      }
    }
  }

  lemma TradeStaysOk(orders: map<OrderId, Order>, rows: map<OrderId, Order>, t: Trade)
    requires SameCores(orders, rows) && TradeOk(orders, t)
    ensures TradeOk(rows, t)
  {
  }

  lemma CreateKeepsValid(mode: ReadMode, s: State, user: UserId, req: Request, id: OrderId, now: int)
    requires Valid(s) && LiveBook(s.book) && Create(mode, Decoded, s, user, req, id, now).Ok?
    ensures Valid(Create(mode, Decoded, s, user, req, id, now).value)
    ensures SameCores(s.orders, Create(mode, Decoded, s, user, req, id, now).value.orders)
  {
    var t := Create(mode, Decoded, s, user, req, id, now).value;
    CreateConserves(mode, s, user, req, id, now, CashColumn);
    var p := CreateStages(mode, s, user, req, id, now);
    StagesValid(mode, s, user, req, id, now, t, p);
  }

  lemma StagesRows(mode: ReadMode, s: State, user: UserId, req: Request, id: OrderId, now: int, t: State, p: Stages)
    requires Valid(s) && Created(mode, s, user, req, id, now, t, p)
    ensures RowsOk(s.markets, t.orders) && Agrees(t.orders, t.book)
    ensures SameCores(s.orders, t.orders) && SameCores(p.pending, t.orders)
  {
    StagesRecord(mode, s, user, req, id, now, t, p);
    RecordedRows(mode, s, t, p);
    RecordedRowsOk(mode, s, t, p);
  }

  lemma RecordedRowsOk(mode: ReadMode, s: State, t: State, p: Stages)
    requires Valid(s) && Recorded(mode, s, t, p)
    ensures RowsOk(s.markets, t.orders) && SameCores(s.orders, t.orders) && SameCores(p.pending, t.orders)
  {
    RecordedRows(mode, s, t, p);
    NewRowOk(mode, s.markets, p.o, p.view, p.pair, p.result);
    CreatedRowsOk(s, t, p.o, p.pending, p.view);
  }

  lemma CreatedRowsOk(s: State, t: State, o: Order, pending: map<OrderId, Order>, view: seq<Order>)
    requires Valid(s) && Agrees(t.orders, t.book) && o.id !in s.orders
    requires pending == s.orders[o.id := o] && view == Levels(s.book, OppositeKey(o))
    requires t.orders.Keys == s.orders.Keys + {o.id} && SameCore(o, t.orders[o.id])
    requires RowOk(s.markets, o.id, t.orders[o.id])
    requires forall k :: k in s.orders ==> t.orders[k] == s.orders[k] || Bumped(view, t.orders[k])
    ensures RowsOk(s.markets, t.orders)
    ensures SameCores(s.orders, t.orders) && SameCores(pending, t.orders)
  {
    ViewRows(s, o, pending, view);
    RowsStayOk(s.markets, s.orders, t.orders, o.id, view);
    BumpedSameCore(s.orders, t.orders, view);
  }

  lemma TradesStayOk(orders: map<OrderId, Order>, pending: map<OrderId, Order>, rows: map<OrderId, Order>,
                     trades: seq<Trade>, inserted: seq<Trade>)
    requires SameCores(orders, rows) && SameCores(pending, rows)
    requires forall x :: x in trades ==> TradeOk(orders, x)
    requires forall x :: x in inserted ==> TradeOk(pending, x)
    ensures forall x :: x in trades + inserted ==> TradeOk(rows, x)
  {
    forall x | x in trades + inserted ensures TradeOk(rows, x) {
      if x in trades { TradeStaysOk(orders, rows, x); } else { TradeStaysOk(pending, rows, x); }
    }
  }

  lemma UsersStayKnown(f: Funds, g: Funds, orders: map<OrderId, Order>, rows: map<OrderId, Order>, id: OrderId)
    requires UsersKnown(f, orders) && Kept(f, g) && SameCores(orders, rows) && rows.Keys == orders.Keys + {id}
    requires id in rows && Cash(rows[id].userId) in g.rows
    ensures UsersKnown(g, rows)
  {
  }

  lemma StagesUsers(mode: ReadMode, s: State, user: UserId, req: Request, id: OrderId, now: int, t: State, p: Stages)
    requires Valid(s) && Created(mode, s, user, req, id, now, t, p) && Kept(s.funds, t.funds)
    requires SameCores(s.orders, t.orders)
    ensures UsersKnown(t.funds, t.orders)
  {
    StagesRecord(mode, s, user, req, id, now, t, p);
    assert p.locked.rows.Keys == s.funds.rows.Keys;
    RecordedUsers(mode, s, t, p);
  }

  lemma RecordedUsers(mode: ReadMode, s: State, t: State, p: Stages)
    requires Valid(s) && Recorded(mode, s, t, p) && Kept(s.funds, t.funds) && SameCores(s.orders, t.orders)
    requires Cash(p.o.userId) in s.funds.rows
    ensures UsersKnown(t.funds, t.orders)
  {
    RecordedRows(mode, s, t, p);
    UsersStayKnown(s.funds, t.funds, s.orders, t.orders, p.o.id);
  }

  lemma StagesValid(mode: ReadMode, s: State, user: UserId, req: Request, id: OrderId, now: int, t: State, p: Stages)
    requires Valid(s) && Created(mode, s, user, req, id, now, t, p) && Kept(s.funds, t.funds)
    ensures Valid(t) && SameCores(s.orders, t.orders) && SameCores(p.pending, t.orders)
  {
    StagesRows(mode, s, user, req, id, now, t, p);
    StagesUsers(mode, s, user, req, id, now, t, p);
    StagesSettleable(mode, s, user, req, id, now, t, p);
    TradesStayOk(s.orders, p.pending, t.orders, s.trades, p.inserted);
  }
}
