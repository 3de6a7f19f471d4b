// The matching engine as it runs (internal/matching/matchingengine.go): its loops over
// the best level that the book serves, and the loops that apply a result to the tables
// and to the book, each against the function that specifies it.

module Engine {
  import opened Models
  import opened Ledger
  import opened OrderBook
  import opened Matching
  import opened Settlement
  import opened Exchange
  import opened Execution
  import opened ReadTimes
  import opened Uncrossed
  import opened Store

  // --- What one turn of a matching loop does -------------------------------------------

  // What the turns so far have appended, in front of what the rest will append.
  function After(updated: seq<Order>, trades: seq<Trade>, r: OrderResult): OrderResult {
    r.(updated := updated + r.updated, trades := trades + r.trades)
  }

  lemma AfterThen(updated: seq<Order>, trades: seq<Trade>, incoming: Order, hit: Order, trade: Trade, r: OrderResult)
    ensures After(updated, trades, Then(incoming, hit, trade, r))
         == After(updated + [incoming, hit], trades + [trade], r)
  {
    assert updated + ([incoming, hit] + r.updated) == updated + [incoming, hit] + r.updated;
    assert trades + ([trade] + r.trades) == trades + [trade] + r.trades;
  }

  lemma AfterNothing(updated: seq<Order>, trades: seq<Trade>, incoming: Order, rest: seq<Order>)
    ensures After(updated, trades, OrderResult(incoming, [], [], rest)) == OrderResult(incoming, updated, trades, rest)
  {
    assert updated + [] == updated && trades + [] == trades;
  }

  lemma SyncedLevels(rows: map<OrderId, Order>, book: Book, key: BookKey, met: Order)
    requires Agrees(rows, book) && Levels(book, key) != [] && IsBump(Levels(book, key)[0], met)
    requires Agrees(rows[met.id := met], Update(book, met))
    ensures Levels(Update(book, met), key) == NextView(Fresh, Levels(book, key), met)
  {
    var view := Levels(book, key);
    LevelsAreListing(rows, book, key);
    HitListing(rows, key, view, met);
    LevelsAreListing(rows[met.id := met], Update(book, met), key);
    ListingUnique(rows[met.id := met], key, Levels(Update(book, met), key), NextView(Fresh, view, met));
  }

  lemma HitIsOnRow(times: TimeRead, rows: map<OrderId, Order>, book: Book, key: BookKey, hit: Order)
    requires Agrees(rows, book) && Levels(book, key) != [] && IsBump(AsRead(times, Levels(book, key)[0]), hit)
    ensures hit.id in rows && KeyOf(rows[hit.id]) == KeyOf(hit)
    ensures hit.status == if Done(hit) then Filled else PartiallyFilled
    ensures IsBump(Levels(book, key)[0], hit.(createdAt := Levels(book, key)[0].createdAt))
  {
    LevelsAreListing(rows, book, key);
  }

  // Had the book been synced after each fill, the next read would serve exactly the view
  // that the fresh loop goes on with: this is what reading fresh means. A level that is left
  // resting with the zero time could move, but the fill that leaves it ends the loop.
  lemma SyncedReadIsFresh(times: TimeRead, rows: map<OrderId, Order>, book: Book, key: BookKey, hit: Order)
    requires Agrees(rows, book) && Levels(book, key) != [] && IsBump(AsRead(times, Levels(book, key)[0]), hit)
    ensures Agrees(rows[hit.id := hit], Update(book, hit))
    ensures times == Decoded || Done(hit) ==>
      AllAsRead(times, Levels(Update(book, hit), key)) == NextView(Fresh, AllAsRead(times, Levels(book, key)), hit)
  {
    var view := Levels(book, key);
    var met := hit.(createdAt := view[0].createdAt);
    HitIsOnRow(times, rows, book, key, hit);
    HitAgrees(rows, book, hit);
    if times == Decoded || Done(hit) {
      HitAgrees(rows, book, met);
      SyncedLevels(rows, book, key, met);
      assert Update(book, hit) == Update(book, met);
    }
  }

  // What the next turn finds.
  ghost predicate NextRead(mode: ReadMode, rows: map<OrderId, Order>, book: Book, hit: Order,
                           nextRows: map<OrderId, Order>, nextBook: Book) {
    match mode
    case Stale => nextBook == book && nextRows == rows
    case Fresh => nextBook == Update(book, hit) && nextRows == rows[hit.id := hit]
  }

  // The book agrees with some rows and, while the loop goes on, its reads serve the view.
  ghost predicate Serving(times: TimeRead, rows: map<OrderId, Order>, book: Book, key: BookKey, view: seq<Order>,
                          open: bool) {
    && Agrees(rows, book) && Live(view)
    && (open ==> view == AllAsRead(times, Levels(book, key)))
  }

  lemma ServingNext(mode: ReadMode, times: TimeRead, rows: map<OrderId, Order>, book: Book, key: BookKey,
                    view: seq<Order>, hit: Order, nextRows: map<OrderId, Order>, nextBook: Book, open: bool)
    requires Serving(times, rows, book, key, view, true) && view != [] && IsBump(view[0], hit)
    requires NextRead(mode, rows, book, hit, nextRows, nextBook) && Live(NextView(mode, view, hit))
    requires open && mode == Fresh ==> Done(hit)
    ensures Serving(times, nextRows, nextBook, key, NextView(mode, view, hit), open)
  {
    if mode == Fresh { SyncedReadIsFresh(times, rows, book, key, hit); }
  }

  // A loop between two turns: what it has appended, followed by what matching the order
  // as it stands against the view would append, is the whole result.
  ghost predicate Midway(mode: ReadMode, pair: Pair, all: OrderResult, view: seq<Order>, order: Order,
                         updated: seq<Order>, trades: seq<Trade>) {
    && Live(view)
    && all == After(updated, trades, MatchByQuantity(mode, order, view, pair))
  }

  ghost predicate MidwayBuy(mode: ReadMode, pair: Pair, all: OrderResult, view: seq<Order>, order: Order,
                            updated: seq<Order>, trades: seq<Trade>) {
    && Live(view) && order.kind == Market && order.side == Buy && order.price >= 0.0
    && all == After(updated, trades, MatchByBudget(mode, order, view, pair))
  }

  ghost function TurnsLeft(mode: ReadMode, order: Order, view: seq<Order>): nat {
    Rounds(mode, order.Remaining(), view, Portion(view))
  }

  ghost function BuyTurnsLeft(mode: ReadMode, order: Order, view: seq<Order>): nat {
    Rounds(mode, order.price, view, CostPortion(view))
  }

  lemma QuantityStarts(mode: ReadMode, times: TimeRead, pair: Pair, rows: map<OrderId, Order>, book: Book, key: BookKey,
                       order: Order)
    returns (view: seq<Order>, all: OrderResult)
    requires Agrees(rows, book) && Live(Levels(book, key))
    ensures view == AllAsRead(times, Levels(book, key)) && Serving(times, rows, book, key, view, true)
    ensures all == MatchByQuantity(mode, order, view, pair) && Midway(mode, pair, all, view, order, [], [])
  {
    view := AllAsRead(times, Levels(book, key));
    ReadBlind(times, Levels(book, key));
    all := MatchByQuantity(mode, order, view, pair);
    assert [] + all.updated == all.updated && [] + all.trades == all.trades;
  }

  lemma BuyStarts(mode: ReadMode, times: TimeRead, pair: Pair, rows: map<OrderId, Order>, book: Book, key: BookKey,
                  order: Order)
    returns (view: seq<Order>, all: OrderResult)
    requires Agrees(rows, book) && Live(Levels(book, key))
    requires order.kind == Market && order.side == Buy && order.price >= 0.0
    ensures view == AllAsRead(times, Levels(book, key)) && Serving(times, rows, book, key, view, true)
    ensures all == MatchByBudget(mode, order, view, pair) && MidwayBuy(mode, pair, all, view, order, [], [])
  {
    view := AllAsRead(times, Levels(book, key));
    ReadBlind(times, Levels(book, key));
    all := MatchByBudget(mode, order, view, pair);
    assert [] + all.updated == all.updated && [] + all.trades == all.trades;
  }

  lemma LimitResult(mode: ReadMode, o: Order, view: seq<Order>, pair: Pair, all: OrderResult)
    requires Live(view) && o.kind == Limit && all == MatchByQuantity(mode, o, view, pair)
    ensures Match(mode, o, view, pair) == all.(incoming := all.incoming.(status := LimitStatus(all.incoming)))
  {
  }

  lemma SellResult(mode: ReadMode, o: Order, view: seq<Order>, pair: Pair, all: OrderResult)
    requires Live(view) && o.kind == Market && o.side == Sell && all == MatchByQuantity(mode, o, view, pair)
    ensures Match(mode, o, view, pair) == all.(incoming := all.incoming.(status := MarketStatus(all.incoming)))
  {
  }

  lemma BuyResult(mode: ReadMode, o: Order, view: seq<Order>, pair: Pair, all: OrderResult)
    requires Live(view) && o.kind == Market && o.side == Buy
    requires all == MatchByBudget(mode, o.(quantity := INFINITE_QUANTITY), view, pair)
    ensures var last := if all.trades == [] then o else all.incoming;
      Match(mode, o, view, pair) == all.(incoming := last.(status := MarketStatus(last)))
  {
  }

  lemma QuantityTurn(mode: ReadMode, pair: Pair, all: OrderResult, view: seq<Order>, order: Order, updated: seq<Order>,
                     trades: seq<Trade>, incoming: Order, hit: Order, trade: Trade)
    requires Midway(mode, pair, all, view, order, updated, trades)
    requires order.filled < order.quantity && view != [] && Crosses(order, view[0])
    requires (incoming, hit, trade) == FillAgainstLevel(order, view[0], pair)
    ensures Midway(mode, pair, all, NextView(mode, view, hit), incoming, updated + [incoming, hit], trades + [trade])
    ensures incoming == order.(filled := incoming.filled) && IsBump(view[0], hit)
    ensures incoming.filled < incoming.quantity && mode == Fresh ==> Done(hit)
    ensures TurnsLeft(mode, incoming, NextView(mode, view, hit)) < TurnsLeft(mode, order, view)
  {
    FillProgress(mode, order, view, pair);
    assert LiveLevel(view[0]);
    AfterThen(updated, trades, incoming, hit, trade, MatchByQuantity(mode, incoming, NextView(mode, view, hit), pair));
  }

  // Both for one turn of the loop.
  lemma QuantityStep(mode: ReadMode, times: TimeRead, pair: Pair, all: OrderResult, rows: map<OrderId, Order>,
                     book: Book, key: BookKey, view: seq<Order>, order: Order, updated: seq<Order>, trades: seq<Trade>,
                     incoming: Order, hit: Order, trade: Trade, nextRows: map<OrderId, Order>, nextBook: Book)
    requires Midway(mode, pair, all, view, order, updated, trades) && Serving(times, rows, book, key, view, true)
    requires order.filled < order.quantity && view != [] && Crosses(order, view[0])
    requires (incoming, hit, trade) == FillAgainstLevel(order, view[0], pair)
    requires NextRead(mode, rows, book, hit, nextRows, nextBook)
    ensures Midway(mode, pair, all, NextView(mode, view, hit), incoming, updated + [incoming, hit], trades + [trade])
    ensures Serving(times, nextRows, nextBook, key, NextView(mode, view, hit), incoming.filled < incoming.quantity)
    ensures incoming == order.(filled := incoming.filled)
    ensures TurnsLeft(mode, incoming, NextView(mode, view, hit)) < TurnsLeft(mode, order, view)
  {
    QuantityTurn(mode, pair, all, view, order, updated, trades, incoming, hit, trade);
    ServingNext(mode, times, rows, book, key, view, hit, nextRows, nextBook, incoming.filled < incoming.quantity);
  }

  lemma QuantityEnds(mode: ReadMode, pair: Pair, all: OrderResult, view: seq<Order>, order: Order, updated: seq<Order>,
                     trades: seq<Trade>)
    requires Midway(mode, pair, all, view, order, updated, trades)
    requires !(order.filled < order.quantity) || view == [] || !Crosses(order, view[0])
    ensures all == OrderResult(order, updated, trades, view)
  {
    AfterNothing(updated, trades, order, view);
  }

  lemma BuyTurn(mode: ReadMode, pair: Pair, all: OrderResult, view: seq<Order>, order: Order, updated: seq<Order>,
                trades: seq<Trade>, incoming: Order, hit: Order, trade: Trade)
    requires MidwayBuy(mode, pair, all, view, order, updated, trades)
    requires order.price > 0.0 && view != [] && LiveLevel(view[0])
    requires (incoming, hit, trade) == FillForMarketBuy(order, view[0], pair)
    ensures MidwayBuy(mode, pair, all, NextView(mode, view, hit), incoming, updated + [incoming, hit], trades + [trade])
    ensures IsBump(view[0], hit) && (incoming.price > 0.0 ==> Done(hit))
    ensures BuyTurnsLeft(mode, incoming, NextView(mode, view, hit)) < BuyTurnsLeft(mode, order, view)
  {
    var i, h, t, next := BudgetRoundFacts(mode, order, view, pair);
    AfterThen(updated, trades, incoming, hit, trade, MatchByBudget(mode, incoming, next, pair));
  }

  lemma BuyEnds(mode: ReadMode, pair: Pair, all: OrderResult, view: seq<Order>, order: Order, updated: seq<Order>,
                trades: seq<Trade>)
    requires MidwayBuy(mode, pair, all, view, order, updated, trades)
    requires !(order.price > 0.0) || view == []
    ensures all == OrderResult(order, updated, trades, view)
  {
    AfterNothing(updated, trades, order, view);
  }

  // Trades inserted so far, in front of those still to come.
  function AfterInserted(inserted: seq<Trade>, r: Result<seq<Trade>>): Result<seq<Trade>> {
    match r
    case Ok(rest) => Ok(inserted + rest)
    case Err(e) => Err(e)
  }

  lemma NothingInserted(r: Result<seq<Trade>>)
    ensures AfterInserted([], r) == r
  {
    if r.Ok? { assert [] + r.value == r.value; }
  }

  lemma InsertedThen(inserted: seq<Trade>, first: Result<Trade>, rest: Result<seq<Trade>>)
    requires first.Ok?
    ensures AfterInserted(inserted, if rest.Ok? then Ok([first.value] + rest.value) else rest)
         == AfterInserted(inserted + [first.value], rest)
  {
    if rest.Ok? { assert inserted + ([first.value] + rest.value) == inserted + [first.value] + rest.value; }
  }

  class MatchingEngine {
    const rdb: RedisBook
    const db: OrderTable
    const balances: Balances

    constructor (rdb: RedisBook, db: OrderTable, balances: Balances)
      ensures this.rdb == rdb && this.db == db && this.balances == balances
    {
      this.rdb, this.db, this.balances := rdb, db, balances;
    }

    // fillAgainstLevel
    method Fill(incoming: Order, level: Order, pair: Pair) returns (after: Order, against: Order, trade: Trade)
      ensures (after, against, trade) == FillAgainstLevel(incoming, level, pair)
    {
      var quantity := Min(incoming.quantity - incoming.filled, level.quantity - level.filled);
      after := incoming.(filled := incoming.filled + quantity);
      against := level.(filled := level.filled + quantity);
      if against.filled == against.quantity {
        against := against.(status := Filled);
      } else {
        against := against.(status := PartiallyFilled);
      }
      if incoming.side == Buy {
        trade := Trade(incoming.id, level.id, level.price, quantity, pair.base, pair.quote, "", "");
      } else {
        trade := Trade(level.id, incoming.id, level.price, quantity, pair.base, pair.quote, "", "");
      }
    }

    // The book that the loop reads: the shared one, which nobody writes before the
    // commit, or one that is synced after every fill.
    method ReadFrom(mode: ReadMode) returns (book: RedisBook)
      ensures book.Contents() == rdb.Contents()
      ensures if mode == Stale then book == rdb else fresh(book)
    {
      if mode == Stale { book := rdb; } else { book := new RedisBook.Copy(rdb); }
    }

    // The read of the limit loop: the best level of the other side, if it crosses.
    method BestCrossing(times: TimeRead, book: RedisBook, order: Order) returns (best: Option<Order>)
      requires order.kind == Limit
      ensures var view := AllAsRead(times, Levels(book.Contents(), OppositeKey(order)));
        best == if view == [] || !Crosses(order, view[0]) then None else Some(view[0])
    {
      if order.side == Buy {
        best := book.BestLevel(times, order.marketId, Sell);
        if best.None? || best.value.price > order.price { return None; }
      } else {
        best := book.BestLevel(times, order.marketId, Buy);
        if best.None? || best.value.price < order.price { return None; }
      }
    }

    method MatchLimitOrders(mode: ReadMode, times: TimeRead, incoming: Order, pair: Pair,
                            ghost orders: map<OrderId, Order>)
      returns (result: OrderResult)
      requires incoming.kind == Limit && incoming.filled <= incoming.quantity
      requires Agrees(orders, rdb.Contents()) && LiveBook(rdb.Contents())
      ensures var view := old(AllAsRead(times, Levels(rdb.Contents(), OppositeKey(incoming))));
        Live(view) && SameEffect(result, Match(mode, incoming, view, pair))
    {
      var book := ReadFrom(mode);
      var order, updated, trades := incoming, [], [];
      ghost var key := OppositeKey(incoming);
      ghost var rows: map<OrderId, Order> := orders;
      ghost var view, all := QuantityStarts(mode, times, pair, rows, book.Contents(), key, order);
      ghost var first := view;
      while order.filled < order.quantity
        invariant order == incoming.(filled := order.filled)
        invariant if mode == Stale then book == rdb && unchanged(rdb) else fresh(book)
        invariant Midway(mode, pair, all, view, order, updated, trades)
        invariant Serving(times, rows, book.Contents(), key, view, order.filled < order.quantity)
        decreases TurnsLeft(mode, order, view)
      {
        ghost var before, held := book.Contents(), rows;
        var best := BestCrossing(times, book, order);
        if best.None? { break; }
        var after, against, trade := Fill(order, best.value, pair);
        if mode == Fresh {
          book.UpdateOrderInRedis(against);
          rows := rows[against.id := against];
        }
        QuantityStep(mode, times, pair, all, held, before, key, view, order, updated, trades, after, against, trade,
                     rows, book.Contents());
        view := NextView(mode, view, against);
        updated, trades := updated + [after, against], trades + [trade];
        order := after;
      }
      QuantityEnds(mode, pair, all, view, order, updated, trades);
      LimitResult(mode, incoming, first, pair, all);
      var status := if order.filled == order.quantity then Filled
                    else if order.filled > 0.0 then PartiallyFilled
                    else Open;
      result := OrderResult(order.(status := status), updated, trades, []);
    }

    // fillAgainstLevelForMarketBuy
    method FillMarketBuy(incoming: Order, level: Order, pair: Pair) returns (after: Order, against: Order, trade: Trade)
      requires level.price > 0.0
      ensures after == FillForMarketBuy(incoming, level, pair).0
      ensures against == FillForMarketBuy(incoming, level, pair).1
      ensures trade == FillForMarketBuy(incoming, level, pair).2
    {
      var quantity := Min(incoming.price / level.price, level.quantity - level.filled);
      after := incoming.(filled := incoming.filled + quantity);
      against := level.(filled := level.filled + quantity);
      if against.filled == against.quantity {
        against := against.(status := Filled);
      } else {
        against := against.(status := PartiallyFilled);
      }
      after := after.(price := incoming.price - level.price * quantity);
      trade := Trade(incoming.id, level.id, level.price, quantity, pair.base, pair.quote, "", "");
    }

    method MatchMarketOrders(mode: ReadMode, times: TimeRead, incoming: Order, pair: Pair,
                             ghost orders: map<OrderId, Order>)
      returns (result: OrderResult)
      requires incoming.kind == Market && incoming.filled <= incoming.quantity && incoming.price >= 0.0
      requires Agrees(orders, rdb.Contents()) && LiveBook(rdb.Contents())
      ensures var view := old(AllAsRead(times, Levels(rdb.Contents(), OppositeKey(incoming))));
        Live(view) && SameEffect(result, Match(mode, incoming, view, pair))
      ensures var whole := if incoming.side == Buy && result.trades != [] then 1000000000000000000.0
                           else incoming.quantity;
        result.incoming.status == if result.incoming.filled == whole then Filled else Cancelled
    {
      if incoming.side == Sell {
        result := MatchMarketSell(mode, times, incoming, pair, orders);
      } else {
        result := MatchMarketBuy(mode, times, incoming, pair, orders);
      }
    }

    method MatchMarketSell(mode: ReadMode, times: TimeRead, incoming: Order, pair: Pair,
                           ghost orders: map<OrderId, Order>)
      returns (result: OrderResult)
      requires incoming.kind == Market && incoming.side == Sell && incoming.filled <= incoming.quantity
      requires Agrees(orders, rdb.Contents()) && LiveBook(rdb.Contents())
      ensures var view := old(AllAsRead(times, Levels(rdb.Contents(), OppositeKey(incoming))));
        Live(view) && SameEffect(result, Match(mode, incoming, view, pair))
      ensures result.incoming.status == if result.incoming.filled == incoming.quantity then Filled else Cancelled
    {
      var book := ReadFrom(mode);
      var order, updated, trades := incoming, [], [];
      ghost var key := OppositeKey(incoming);
      ghost var rows: map<OrderId, Order> := orders;
      ghost var view, all := QuantityStarts(mode, times, pair, rows, book.Contents(), key, order);
      ghost var first := view;
      while order.filled < order.quantity
        invariant order == incoming.(filled := order.filled)
        invariant if mode == Stale then book == rdb && unchanged(rdb) else fresh(book)
        invariant Midway(mode, pair, all, view, order, updated, trades)
        invariant Serving(times, rows, book.Contents(), key, view, order.filled < order.quantity)
        decreases TurnsLeft(mode, order, view)
      {
        ghost var before, held := book.Contents(), rows;
        var best := book.BestLevel(times, order.marketId, Buy);
        if best.None? { break; }
        var after, against, trade := Fill(order, best.value, pair);
        if mode == Fresh {
          book.UpdateOrderInRedis(against);
          rows := rows[against.id := against];
        }
        QuantityStep(mode, times, pair, all, held, before, key, view, order, updated, trades, after, against, trade,
                     rows, book.Contents());
        view := NextView(mode, view, against);
        updated, trades := updated + [after, against], trades + [trade];
        order := after;
      }
      QuantityEnds(mode, pair, all, view, order, updated, trades);
      SellResult(mode, incoming, first, pair, all);
      var status := if order.filled == order.quantity then Filled else Cancelled;
      result := OrderResult(order.(status := status), updated, trades, []);
    }

    method MatchMarketBuy(mode: ReadMode, times: TimeRead, incoming: Order, pair: Pair,
                          ghost orders: map<OrderId, Order>)
      returns (result: OrderResult)
      requires incoming.kind == Market && incoming.side == Buy && incoming.price >= 0.0
      requires Agrees(orders, rdb.Contents()) && LiveBook(rdb.Contents())
      ensures var view := old(AllAsRead(times, Levels(rdb.Contents(), OppositeKey(incoming))));
        Live(view) && SameEffect(result, Match(mode, incoming, view, pair))
      ensures var whole := if result.trades != [] then 1000000000000000000.0 else incoming.quantity;
        result.incoming.status == if result.incoming.filled == whole then Filled else Cancelled
    {
      var book := ReadFrom(mode);
      var last := incoming;
      var order, updated, trades := incoming.(quantity := INFINITE_QUANTITY), [], [];
      ghost var key := OppositeKey(incoming);
      ghost var rows: map<OrderId, Order> := orders;
      ghost var view, all := BuyStarts(mode, times, pair, rows, book.Contents(), key, order);
      ghost var first := view;
      while order.price > 0.0
        invariant order == incoming.(quantity := INFINITE_QUANTITY, filled := order.filled, price := order.price)
        invariant last == if trades == [] then incoming else order
        invariant if mode == Stale then book == rdb && unchanged(rdb) else fresh(book)
        invariant MidwayBuy(mode, pair, all, view, order, updated, trades)
        invariant Serving(times, rows, book.Contents(), key, view, order.price > 0.0)
        decreases BuyTurnsLeft(mode, order, view)
      {
        ghost var before, held := book.Contents(), rows;
        var best := book.BestLevel(times, order.marketId, Sell);
        if best.None? { break; }
        assert LiveLevel(best.value);
        var after, against, trade := FillMarketBuy(order, best.value, pair);
        if mode == Fresh {
          book.UpdateOrderInRedis(against);
          rows := rows[against.id := against];
        }
        BuyTurn(mode, pair, all, view, order, updated, trades, after, against, trade);
        ServingNext(mode, times, held, before, key, view, against, rows, book.Contents(), after.price > 0.0);
        view := NextView(mode, view, against);
        updated, trades := updated + [after, against], trades + [trade];
        order, last := after, after;
      }
      BuyEnds(mode, pair, all, view, order, updated, trades);
      BuyResult(mode, incoming, first, pair, all);
      var status := if last.filled == last.quantity then Filled else Cancelled;
      result := OrderResult(last.(status := status), updated, trades, []);
    }

    // --- Applying a result ----------------------------------------------------------

    function Contents(): Tables
      reads this, db, balances
    {
      Tables(balances.Contents(), db.orders, db.trades)
    }

    method InsertAll(trades: seq<Trade>) returns (r: Result<seq<Trade>>)
      modifies db`trades
      ensures r == InsertTrades(balances.assets, db.orders, trades)
      ensures r.Ok? ==> db.trades == old(db.trades) + r.value
    {
      var inserted: seq<Trade> := [];
      NothingInserted(InsertTrades(balances.assets, db.orders, trades));
      assert trades[0..] == trades;
      for i := 0 to |trades|
        invariant InsertTrades(balances.assets, db.orders, trades)
               == AfterInserted(inserted, InsertTrades(balances.assets, db.orders, trades[i..]))
        invariant db.trades == old(db.trades) + inserted
        invariant db.orders == old(db.orders)
      {
        var first := db.InsertTradeTx(balances.assets, trades[i]);
        assert trades[i..][0] == trades[i] && trades[i..][1..] == trades[i + 1..];
        if first.Err? { return Err(first.error); }
        InsertedThen(inserted, first, InsertTrades(balances.assets, db.orders, trades[i + 1..]));
        inserted := inserted + [first.value];
      }
      assert trades[|trades|..] == [] && inserted + [] == inserted;
      r := Ok(inserted);
    }

    // Every updated order but the incoming one.
    method UpdateAll(updated: seq<Order>, incoming: OrderId)
      modifies db`orders
      ensures db.orders == UpdateRows(old(db.orders), updated, incoming)
    {
      for i := 0 to |updated|
        invariant UpdateRows(db.orders, updated[i..], incoming) == UpdateRows(old(db.orders), updated, incoming)
      {
        assert updated[i..][0] == updated[i] && updated[i..][1..] == updated[i + 1..];
        if updated[i].id == incoming { continue; }
        db.UpdateOrderStatusAndQuantityTx(updated[i]);
      }
      assert updated[|updated|..] == [];
    }

    // The resting side, trade by trade, with the totals for the incoming order.
    method SettleTrades(side: Side, trades: seq<Trade>) returns (r: Outcome, credit: real, debit: real)
      modifies balances
      ensures match old(SettleMakers(balances.Contents(), side, trades))
              case Ok(f) => r == Pass && balances.Contents() == f
              case Err(e) => r == Fail(e)
      ensures r == Pass ==>
        if side == Buy then credit == Volume(trades) && debit == Cost(trades)
        else credit == Cost(trades) && debit == Volume(trades)
    {
      credit, debit := 0.0, 0.0;
      for i := 0 to |trades|
        invariant SettleMakers(balances.Contents(), side, trades[i..])
             == old(SettleMakers(balances.Contents(), side, trades))
        invariant (if side == Buy then credit else debit) + Volume(trades[i..]) == Volume(trades)
        invariant (if side == Buy then debit else credit) + Cost(trades[i..]) == Cost(trades)
      {
        var trade := trades[i];
        var cost := trade.price * trade.quantity;
        ghost var before := balances.Contents();
        ghost var due := FirstTrade(before, side, trades[i..]);
        assert trades[i..][0] == trade && trades[i..][1..] == trades[i + 1..] && due == cost;
        r := SettleTrade(side, trade, cost);
        if r != Pass { return; }
        assert SettleMaker(before, side, trade, cost) == Ok(balances.Contents());
        if side == Buy {
          credit, debit := credit + trade.quantity, debit + cost;
        } else {
          credit, debit := credit + cost, debit + trade.quantity;
        }
      }
      assert trades[|trades|..] == [];
      r := Pass;
    }

    method SettleTrade(side: Side, trade: Trade, cost: real) returns (r: Outcome)
      modifies balances
      ensures match old(SettleMaker(balances.Contents(), side, trade, cost))
              case Ok(f) => r == Pass && balances.Contents() == f
              case Err(e) => r == Fail(e)
    {
      if side == Buy {
        r := balances.DebitTx(Holding(trade.seller, trade.base), trade.quantity);
        if r != Pass { return; }
        balances.CreditUSDTx(trade.seller, cost);
      } else {
        r := balances.CreditBalanceTx(trade.buyer, trade.base, trade.quantity);
        if r != Pass { return; }
        r := balances.DebitTx(Cash(trade.buyer), cost);
      }
    }

    method SettleIncoming(order: Order, pair: Pair, credit: real, debit: real) returns (r: Outcome)
      modifies balances
      ensures var volume := if order.side == Buy then credit else debit;
              var cost := if order.side == Buy then debit else credit;
              match old(SettleTaker(balances.Contents(), order, pair, volume, cost))
              case Ok(f) => r == Pass && balances.Contents() == f
              case Err(e) => r == Fail(e)
    {
      if order.side == Buy {
        r := balances.CreditBalanceTx(order.userId, pair.base, credit);
        if r != Pass { return; }
        r := balances.DebitTx(Cash(order.userId), debit);
        if r != Pass { return; }
        if order.kind == Market { r := balances.UnlockTx(Cash(order.userId), order.price); }
      } else {
        balances.CreditUSDTx(order.userId, credit);
        r := balances.DebitTx(Holding(order.userId, pair.base), debit);
        if r != Pass { return; }
        if order.kind == Market {
          r := balances.UnlockTx(Holding(order.userId, pair.base), order.quantity - order.filled);
        }
      }
    }

    // All of it inside the caller's transaction, which a failure rolls back.
    method ApplyOrderResultToDBTx(result: OrderResult, pair: Pair) returns (r: Outcome)
      modifies db`orders, db`trades, balances
      ensures match old(ApplyToTables(Contents(), result, pair))
              case Ok(t) => r == Pass && Contents() == t
              case Err(e) => r == Fail(e)
    {
      var inserted := InsertAll(result.trades);
      if inserted.Err? { return Fail(inserted.error); }
      UpdateAll(result.updated, result.incoming.id);
      db.UpdateOrderStatusAndQuantityTx(result.incoming);
      var credit, debit;
      r, credit, debit := SettleTrades(result.incoming.side, inserted.value);
      if r != Pass { return; }
      r := SettleIncoming(result.incoming, pair, credit, debit);
    }

    method ApplyOrderResultToRedis(result: OrderResult)
      modifies rdb
      ensures rdb.Contents() == ApplyToBook(old(rdb.Contents()), result)
    {
      var updated := result.updated;
      for i := 0 to |updated|
        invariant UpdateLevels(rdb.Contents(), updated[i..], result.incoming.id)
               == UpdateLevels(old(rdb.Contents()), updated, result.incoming.id)
      {
        assert updated[i..][0] == updated[i] && updated[i..][1..] == updated[i + 1..];
        if updated[i].id == result.incoming.id { continue; }
        rdb.UpdateOrderInRedis(updated[i]);
      }
      assert updated[|updated|..] == [];
      if result.incoming.status != Filled && result.incoming.kind == Limit {
        rdb.InserOrderToRedis(result.incoming);
      }
    }
  }
}
