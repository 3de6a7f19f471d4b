// Fill accounting: every order's recorded fill is the total of the trades that name
// it. Reading fresh this holds over all runs; reading stale a creation keeps it
// exactly when at most one trade is made.

module Accounting {
  import opened Models
  import opened Sums
  import opened Ledger
  import opened OrderBook
  import opened Matching
  import opened Execution
  import opened Settlement
  import opened Coverage
  import opened Exchange
  import opened Validity
  import opened Steps
  import opened ReadTimes
  import opened Runs
  import opened Creations

  function NamedTerm(id: OrderId): Trade -> real {
    (t: Trade) => if Names(t, id) then t.quantity else 0.0
  }

  function TradedOf(trades: seq<Trade>, id: OrderId): real { Total(trades, NamedTerm(id)) }

  ghost predicate Accounted(s: State) {
    forall id :: id in s.orders ==> s.orders[id].filled == TradedOf(s.trades, id)
  }

  lemma TradedThen(t: Trade, trades: seq<Trade>, id: OrderId)
    ensures TradedOf([t] + trades, id) == TradedOf(trades, id) + if Names(t, id) then t.quantity else 0.0
  {
    assert ([t] + trades)[1..] == trades;
  }

  lemma {:induction false} NotNamed(trades: seq<Trade>, id: OrderId)
    requires forall t :: t in trades ==> !Names(t, id)
    ensures TradedOf(trades, id) == 0.0
  {
    if trades != [] {
      assert trades[0] in trades;
      assert forall t :: t in trades[1..] ==> t in trades;
      NotNamed(trades[1..], id);
    }
  }

  lemma {:induction false} TradedJoined(orders: map<OrderId, Order>, trades: seq<Trade>, id: OrderId)
    ensures TradedOf(AllJoined(orders, trades), id) == TradedOf(trades, id)
  {
    if trades != [] {
      TradedJoined(orders, trades[1..], id);
      TradedThen(Joined(orders, trades[0]), AllJoined(orders, trades[1..]), id);
      TradedThen(trades[0], trades[1..], id);
      assert trades == [trades[0]] + trades[1..];
    }
  }

  // The levels are the current rows, each once, and none of them is the taker.
  ghost predicate ExactView(orders: map<OrderId, Order>, view: seq<Order>, taker: OrderId) {
    && DistinctIds(view)
    && forall i :: 0 <= i < |view| ==> view[i].id in orders && orders[view[i].id] == view[i] && view[i].id != taker
  }

  lemma ExactTail(orders: map<OrderId, Order>, view: seq<Order>, taker: OrderId, hit: Order)
    requires ExactView(orders, view, taker) && view != [] && hit.id == view[0].id
    ensures ExactView(orders[hit.id := hit], view[1..], taker)
  {
    forall i | 0 <= i < |view| - 1
      ensures view[1..][i].id in orders && orders[hit.id := hit][view[1..][i].id] == view[1..][i]
    {
      assert view[1..][i] == view[i + 1];
      assert view[0].id != view[i + 1].id;
    }
  }

  // Reading fresh, each row grows by exactly what is traded on it, and the trades name
  // the taker for their whole volume.
  lemma {:induction false} SweepFills(taker: Taker, view: seq<Order>, updated: seq<Order>, trades: seq<Trade>,
                                      pair: Pair, orders: map<OrderId, Order>, id: OrderId)
    requires Sweeps(Fresh, taker, view, updated, trades, pair)
    requires ExactView(orders, view, taker.id) && Keyed(orders) && id in orders && id != taker.id
    ensures var rows := UpdateRows(orders, updated, taker.id);
      id in rows && rows[id].filled == orders[id].filled + TradedOf(trades, id)
    decreases |trades|
  {
    if trades != [] {
      var hit := updated[1];
      var next := orders[hit.id := hit];
      UpdateRowsHead(orders, updated, taker.id);
      ExactTail(orders, view, taker.id, hit);
      SweepFills(taker, view[1..], updated[2..], trades[1..], pair, next, id);
      TradedThen(trades[0], trades[1..], id);
      assert trades == [trades[0]] + trades[1..];
    }
  }

  lemma {:induction false} TakerIsNamed(mode: ReadMode, taker: Taker, view: seq<Order>, updated: seq<Order>,
                                        trades: seq<Trade>, pair: Pair)
    requires Sweeps(mode, taker, view, updated, trades, pair)
    ensures TradedOf(trades, taker.id) == Volume(trades)
    decreases |trades|
  {
    if trades != [] {
      TakerIsNamed(mode, taker, if mode == Stale then view else view[1..], updated[2..], trades[1..], pair);
      TradedThen(trades[0], trades[1..], taker.id);
      TotalsThen(trades[0], trades[1..]);
      assert trades == [trades[0]] + trades[1..];
    }
  }

  // Reading stale, the row of the one level grows by the last trade only.
  lemma {:induction false} StaleSweepFills(taker: Taker, view: seq<Order>, updated: seq<Order>, trades: seq<Trade>,
                                           pair: Pair, orders: map<OrderId, Order>)
    requires Sweeps(Stale, taker, view, updated, trades, pair) && trades != []
    requires CoreView(orders, view, taker.id) && Keyed(orders)
    ensures var rows, last := UpdateRows(orders, updated, taker.id), trades[|trades| - 1];
      && view[0].id in rows && rows[view[0].id].filled == view[0].filled + last.quantity
      && TradedOf(trades, view[0].id) == Volume(trades) >= last.quantity > 0.0
      && (|trades| > 1 ==> Volume(trades) > last.quantity)
    decreases |trades|
  {
    var hit := updated[1];
    UpdateRowsHead(orders, updated, taker.id);
    TradedThen(trades[0], trades[1..], view[0].id);
    TotalsThen(trades[0], trades[1..]);
    assert trades == [trades[0]] + trades[1..];
    if |trades| > 1 {
      StaleSweepFills(taker, view, updated[2..], trades[1..], pair, orders[hit.id := hit]);
    }
  }

  // --- One creation ---------------------------------------------------------------------

  // A creation as far as fills are concerned.
  ghost predicate Filling(mode: ReadMode, s: State, o: Order, view: seq<Order>, pair: Pair, r: OrderResult, t: State) {
    && Valid(s) && o.id !in s.orders && o.status == Pending && o.filled == 0.0
    && ExactView(s.orders, view, o.id) && CoreView(s.orders[o.id := o], view, o.id)
    && MatchedAs(mode, o, view, pair, r)
    && t.orders == RowsAfter(s.orders[o.id := o], r)
    && t.trades == s.trades + AllJoined(s.orders[o.id := o], r.trades)
  }

  lemma CreateFills(mode: ReadMode, s: State, user: UserId, req: Request, id: OrderId, now: int, t: State)
    returns (p: Stages)
    requires Valid(s) && LiveBook(s.book) && Create(mode, Decoded, s, user, req, id, now) == Ok(t)
    ensures Created(mode, s, user, req, id, now, t, p) && p.o.id == id
    ensures Filling(mode, s, p.o, p.view, p.pair, p.result, t)
  {
    p := CreateStages(mode, s, user, req, id, now);
    CreatedFills(mode, s, user, req, id, now, t, p);
  }

  lemma CreatedFills(mode: ReadMode, s: State, user: UserId, req: Request, id: OrderId, now: int, t: State, p: Stages)
    requires Valid(s) && Created(mode, s, user, req, id, now, t, p)
    ensures Filling(mode, s, p.o, p.view, p.pair, p.result, t)
  {
    ViewRows(s, p.o, p.pending, p.view);
    MatchOutcome(mode, p.o, p.view, p.pair);
    ListingIsDistinct(s.orders, OppositeKey(p.o), p.view);
  }

  // The traded total of an order after the step, and of the new order.
  lemma TradedAfter(mode: ReadMode, s: State, o: Order, view: seq<Order>, pair: Pair, r: OrderResult, t: State,
                    k: OrderId)
    requires Filling(mode, s, o, view, pair, r, t)
    ensures TradedOf(t.trades, k) == TradedOf(s.trades, k) + TradedOf(r.trades, k)
    ensures k == o.id ==> TradedOf(s.trades, k) == 0.0 && TradedOf(r.trades, k) == Volume(r.trades)
  {
    TotalAppend(s.trades, AllJoined(s.orders[o.id := o], r.trades), NamedTerm(k));
    TradedJoined(s.orders[o.id := o], r.trades, k);
    if k == o.id {
      forall x | x in s.trades ensures !Names(x, k) { assert TradeOk(s.orders, x); }
      NotNamed(s.trades, k);
      TakerIsNamed(mode, TakerOf(o), view, r.updated, r.trades, pair);
    }
  }

  lemma RowsFilled(mode: ReadMode, s: State, o: Order, view: seq<Order>, pair: Pair, r: OrderResult, t: State)
    requires Filling(mode, s, o, view, pair, r, t)
    ensures t.orders.Keys == s.orders.Keys + {o.id} && t.orders[o.id].filled == Volume(r.trades)
    ensures forall k :: k in s.orders ==> t.orders[k] == UpdateRows(s.orders[o.id := o], r.updated, o.id)[k]
  {
    RowsOfSweep(mode, TakerOf(o), view, r.updated, r.trades, pair, s.orders[o.id := o]);
  }

  // Reading fresh, a creation keeps the accounts.
  lemma FillingFresh(s: State, o: Order, view: seq<Order>, pair: Pair, r: OrderResult, t: State)
    requires Filling(Fresh, s, o, view, pair, r, t) && Accounted(s)
    ensures Accounted(t)
  {
    RowsFilled(Fresh, s, o, view, pair, r, t);
    var pending := s.orders[o.id := o];
    forall k | k in t.orders ensures t.orders[k].filled == TradedOf(t.trades, k) {
      TradedAfter(Fresh, s, o, view, pair, r, t, k);
      if k != o.id { SweepFills(TakerOf(o), view, r.updated, r.trades, pair, pending, k); }
    }
  }

  // Reading stale, it keeps them exactly when it makes at most one trade.
  lemma FillingStale(s: State, o: Order, view: seq<Order>, pair: Pair, r: OrderResult, t: State)
    requires Filling(Stale, s, o, view, pair, r, t) && Accounted(s)
    ensures Accounted(t) <==> |r.trades| <= 1
  {
    RowsFilled(Stale, s, o, view, pair, r, t);
    var pending := s.orders[o.id := o];
    if |r.trades| > 1 {
      var k := view[0].id;
      TradedAfter(Stale, s, o, view, pair, r, t, k);
      StaleSweepFills(TakerOf(o), view, r.updated, r.trades, pair, pending);
    } else {
      SingleSweep(TakerOf(o), view, r.updated, r.trades, pair);
      forall k | k in t.orders ensures t.orders[k].filled == TradedOf(t.trades, k) {
        TradedAfter(Stale, s, o, view, pair, r, t, k);
        if k != o.id { SweepFills(TakerOf(o), view, r.updated, r.trades, pair, pending, k); }
      }
    }
  }

  // A single fill is the same sweep either way.
  lemma SingleSweep(taker: Taker, view: seq<Order>, updated: seq<Order>, trades: seq<Trade>, pair: Pair)
    requires Sweeps(Stale, taker, view, updated, trades, pair) && |trades| <= 1
    ensures Sweeps(Fresh, taker, view, updated, trades, pair)
  {
  }

  // --- The stale exchange against the fresh one -----------------------------------------------

  // Whether the first level read is all that a new order needs: nothing crosses, or
  // that level covers the whole order.
  predicate FirstReadSuffices(o: Order, view: seq<Order>) {
    if o.kind == Market && o.side == Buy then OneLevelAffords(o, view) else OneLevelSuffices(o, view)
  }

  lemma StaleMatches(o: Order, view: seq<Order>, pair: Pair)
    requires Live(view) && DistinctIds(view) && o.filled == 0.0 && o.quantity > 0.0 && o.price >= 0.0
    ensures |Match(Stale, o, view, pair).trades| <= 1 <==> FirstReadSuffices(o, view)
    ensures FirstReadSuffices(o, view) ==> SameEffect(Match(Stale, o, view, pair), Match(Fresh, o, view, pair))
  {
    if o.kind == Market && o.side == Buy {
      StaleBudgetEqualsFresh(o.(quantity := INFINITE_QUANTITY), view, pair);
    } else {
      StaleEqualsFresh(o, view, pair);
    }
  }

  // Only the effect of a match reaches the store.
  lemma SameEffectApplies(db: Tables, b: Book, r: OrderResult, q: OrderResult, pair: Pair)
    requires SameEffect(r, q)
    ensures ApplyToTables(db, r, pair) == ApplyToTables(db, q, pair) && ApplyToBook(b, r) == ApplyToBook(b, q)
  {
  }

  lemma ExecuteSame(times: TimeRead, s: State, f: Funds, orders: map<OrderId, Order>, stamps: set<Stamp>, o: Order,
                    pair: Pair)
    requires LiveBook(s.book)
    requires var seen := AllAsRead(times, Levels(s.book, OppositeKey(o)));
      SameEffect(Match(Stale, o, seen, pair), Match(Fresh, o, seen, pair))
    ensures Execute(Stale, times, s, f, orders, stamps, o, pair) == Execute(Fresh, times, s, f, orders, stamps, o, pair)
  {
    var seen := AllAsRead(times, Levels(s.book, OppositeKey(o)));
    SameEffectApplies(Tables(f, orders, s.trades), s.book, Match(Stale, o, seen, pair), Match(Fresh, o, seen, pair),
                      pair);
  }

  // The levels of a consistent state are live and distinct.
  lemma LevelsForAreDistinct(s: State, user: UserId, req: Request, id: OrderId, now: int)
    requires Consistent(s)
    ensures LiveBook(s.book)
    ensures Live(LevelsFor(s, user, req, id, now)) && DistinctIds(LevelsFor(s, user, req, id, now))
  {
    ConsistentIsLive(s);
    var key := OppositeKey(OrderOf(user, req, id, now));
    LevelsAreListing(Stored(s).orders, s.book, key);
    ListingIsDistinct(Stored(s).orders, key, Levels(s.book, key));
  }

  // Reading the times either way, the first level decides the same.
  lemma SeenSuffices(times: TimeRead, o: Order, view: seq<Order>)
    requires Live(view) && DistinctIds(view)
    ensures Live(AllAsRead(times, view)) && DistinctIds(AllAsRead(times, view))
    ensures FirstReadSuffices(o, AllAsRead(times, view)) == FirstReadSuffices(o, view)
  {
    ReadBlind(times, view);
  }

  lemma SufficientExecutes(times: TimeRead, s: State, f: Funds, stamps: set<Stamp>, o: Order, pair: Pair)
    requires LiveBook(s.book) && o.filled == 0.0
    requires var view := Levels(s.book, OppositeKey(o)); DistinctIds(view) && FirstReadSuffices(o, view)
    requires o.quantity > 0.0 && o.price >= 0.0
    ensures Execute(Stale, times, s, f, s.orders[o.id := o], stamps, o, pair)
         == Execute(Fresh, times, s, f, s.orders[o.id := o], stamps, o, pair)
  {
    SeenSuffices(times, o, Levels(s.book, OppositeKey(o)));
    StaleMatches(o, AllAsRead(times, Levels(s.book, OppositeKey(o))), pair);
    ExecuteSame(times, s, f, s.orders[o.id := o], stamps, o, pair);
  }

  // If the first read suffices, the stale creation is the fresh one, error or not.
  lemma SufficientReadIsFresh(times: TimeRead, s: State, user: UserId, req: Request, id: OrderId, now: int)
    requires Consistent(s) && LiveBook(s.book)
    requires FirstReadSuffices(OrderOf(user, req, id, now), LevelsFor(s, user, req, id, now))
    ensures Create(Stale, times, s, user, req, id, now) == Create(Fresh, times, s, user, req, id, now)
  {
    LevelsForAreDistinct(s, user, req, id, now);
    var charge, o := Checked(s.markets, req), OrderOf(user, req, id, now);
    if charge.Ok? {
      var f := LockBalance(s.funds, user, charge.value.asset, charge.value.amount);
      if f.Ok? && InsertOrder(f.value, s.orders, o).Ok? {
        SufficientExecutes(times, s, f.value, s.stamps + {Stamp(user, o.marketId, now)}, o, Pair(req.base, req.quote));
      }
    }
  }

  // Reading fresh, every creation keeps the accounts.
  lemma CreateAccounted(s: State, user: UserId, req: Request, id: OrderId, now: int, t: State)
    requires Valid(s) && LiveBook(s.book) && Accounted(s) && Create(Fresh, Decoded, s, user, req, id, now) == Ok(t)
    ensures Accounted(t)
  {
    var p := CreateFills(Fresh, s, user, req, id, now, t);
    FillingFresh(s, p.o, p.view, p.pair, p.result, t);
  }

  // A stale creation keeps them exactly when it makes at most one trade.
  lemma StaleAccounted(s: State, user: UserId, req: Request, id: OrderId, now: int, t: State)
    requires Valid(s) && LiveBook(s.book) && Accounted(s) && Create(Stale, Decoded, s, user, req, id, now) == Ok(t)
    ensures Accounted(t) <==> FirstReadSuffices(OrderOf(user, req, id, now), LevelsFor(s, user, req, id, now))
  {
    var p := CreateFills(Stale, s, user, req, id, now, t);
    FillingStale(s, p.o, p.view, p.pair, p.result, t);
    StaleMatches(p.o, p.view, p.pair);
  }

  // --- Any consistent state ---------------------------------------------------------------------

  lemma AccountedBlind(s: State, t: State)
    requires Alike(s, t)
    ensures Accounted(s) <==> Accounted(t)
  {
    forall k | k in s.orders ensures s.orders[k].filled == t.orders[k].filled {
      assert Blind(s.orders[k], t.orders[k]);
    }
  }

  lemma AnyCreateAccounted(times: TimeRead, s: State, user: UserId, req: Request, id: OrderId, now: int, t: State)
    requires Consistent(s) && LiveBook(s.book) && Accounted(s) && Create(Fresh, times, s, user, req, id, now) == Ok(t)
    ensures Accounted(t)
  {
    var k := CreateOnStored(Fresh, times, s, user, req, id, now, t);
    StoredIsAlike(s);
    AccountedBlind(s, Stored(s));
    CreateAccounted(Stored(s), user, req, id, now, k);
    AccountedBlind(k, t);
  }

  lemma AnyStaleAccounted(times: TimeRead, s: State, user: UserId, req: Request, id: OrderId, now: int, t: State)
    requires Consistent(s) && LiveBook(s.book) && Accounted(s) && Create(Stale, times, s, user, req, id, now) == Ok(t)
    ensures Accounted(t) <==> FirstReadSuffices(OrderOf(user, req, id, now), LevelsFor(s, user, req, id, now))
  {
    var k := CreateOnStored(Stale, times, s, user, req, id, now, t);
    StoredIsAlike(s);
    AccountedBlind(s, Stored(s));
    StaleAccounted(Stored(s), user, req, id, now, k);
    AccountedBlind(k, t);
  }

  // A stale creation that goes through keeps the accounts, and ends in the state the fresh
  // one ends in, if and only if the first level read is all it needs.
  lemma StaleCreateIff(times: TimeRead, s: State, user: UserId, req: Request, id: OrderId, now: int, t: State)
    requires Consistent(s) && LiveBook(s.book) && Accounted(s) && Create(Stale, times, s, user, req, id, now) == Ok(t)
    ensures Accounted(t) <==> FirstReadSuffices(OrderOf(user, req, id, now), LevelsFor(s, user, req, id, now))
    ensures Create(Fresh, times, s, user, req, id, now) == Ok(t)
       <==> FirstReadSuffices(OrderOf(user, req, id, now), LevelsFor(s, user, req, id, now))
  {
    AnyStaleAccounted(times, s, user, req, id, now, t);
    if FirstReadSuffices(OrderOf(user, req, id, now), LevelsFor(s, user, req, id, now)) {
      SufficientReadIsFresh(times, s, user, req, id, now);
    } else if Create(Fresh, times, s, user, req, id, now) == Ok(t) {
      AnyCreateAccounted(times, s, user, req, id, now, t);
    }
  }

  // --- Runs ---------------------------------------------------------------------------------------

  lemma StepAccounted(times: TimeRead, s: State, op: Op)
    requires Consistent(s) && LiveBook(s.book) && Accounted(s)
    ensures Accounted(Step(Fresh, times, s, op))
  {
    if op.CreateOp? {
      var r := Create(Fresh, times, s, op.user, op.req, op.id, op.now);
      if r.Ok? { AnyCreateAccounted(times, s, op.user, op.req, op.id, op.now, r.value); }
    }
  }

  // Over any run, each order's filled quantity is the total of the trades naming it.
  lemma {:induction false} RunAccounted(times: TimeRead, s: State, ops: seq<Op>)
    requires Consistent(s) && Accounted(s)
    ensures Accounted(Run(Fresh, times, s, ops))
    decreases |ops|
  {
    if ops != [] {
      StepConsistent(Fresh, times, s, ops[0]);
      StepAccounted(times, s, ops[0]);
      RunAccounted(times, Step(Fresh, times, s, ops[0]), ops[1..]);
    }
  }

  function SideFill(side: Side): (OrderId, Order) -> real {
    (id: OrderId, o: Order) => if o.side == side then o.filled else 0.0
  }

  function SideTraded(side: Side, trades: seq<Trade>): (OrderId, Order) -> real {
    (id: OrderId, o: Order) => if o.side == side then TradedOf(trades, id) else 0.0
  }

  // Each trade names one order of each side, so a side's orders add up to the volume.
  lemma {:induction false} SideTradesVolume(orders: map<OrderId, Order>, side: Side, trades: seq<Trade>)
    requires forall t :: t in trades ==> TradeOk(orders, t)
    ensures Sum(orders, SideTraded(side, trades)) == Volume(trades)
  {
    if trades == [] {
      forall id: OrderId, o: Order ensures SideTraded(side, [])(id, o) == 0.0 {
        assert TradedOf([], id) == 0.0;
      }
      SumZero(orders, SideTraded(side, []));
    } else {
      var t, rest := trades[0], trades[1..];
      assert t in trades;
      assert forall x :: x in rest ==> x in trades;
      SideTradesVolume(orders, side, rest);
      var id: OrderId := if side == Buy then t.buyOrderId else t.sellOrderId;
      assert trades == [t] + rest;
      forall j | j in orders
        ensures SideTraded(side, trades)(j, orders[j])
             == SideTraded(side, rest)(j, orders[j]) + (if j == id then t.quantity else 0.0)
      {
        TradedThen(t, rest, j);
      }
      SumPoint(orders, id, SideTraded(side, rest), SideTraded(side, trades));
      TotalsThen(t, rest);
    }
  }

  lemma {:induction false} SumZero(orders: map<OrderId, Order>, f: (OrderId, Order) -> real)
    requires forall id, o :: f(id, o) == 0.0
    ensures Sum(orders, f) == 0.0
    decreases |orders|
  {
    if |orders| != 0 { SumZero(orders - {Pick(orders)}, f); }
  }

  lemma FillsAreTraded(t: State, side: Side)
    requires Accounted(t)
    ensures Sum(t.orders, SideFill(side)) == Sum(t.orders, SideTraded(side, t.trades))
  {
    forall id: OrderId | id in t.orders
      ensures SideFill(side)(id, t.orders[id]) == SideTraded(side, t.trades)(id, t.orders[id])
    {
      assert t.orders[id].filled == TradedOf(t.trades, id);
    }
    SumSame(t.orders, SideFill(side), SideTraded(side, t.trades));
  }

  lemma ConsistentFills(t: State)
    requires Consistent(t)
    ensures forall x :: x in t.trades ==> TradeOk(t.orders, x)
    ensures forall id :: id in t.orders && !(t.orders[id].kind == Market && t.orders[id].side == Buy) ==>
              0.0 <= t.orders[id].filled <= t.orders[id].quantity
  {
    StoredIsAlike(t);
    forall x | x in t.trades ensures TradeOk(t.orders, x) { StoredTradeOk(t, x); }
    forall id | id in t.orders && !(t.orders[id].kind == Market && t.orders[id].side == Buy)
      ensures 0.0 <= t.orders[id].filled <= t.orders[id].quantity
    {
      assert RowOk(t.markets, id, Stored(t).orders[id]);
    }
  }

  lemma StoredTradeOk(t: State, x: Trade)
    requires Consistent(t) && x in t.trades
    ensures TradeOk(t.orders, x)
  {
    assert TradeOk(Stored(t).orders, x);
  }

  // Over any run the buys have filled as much as the sells, the volume of all trades,
  // and no limit order or market sell is filled beyond its quantity.
  lemma RunFillsBalance(times: TimeRead, s: State, ops: seq<Op>)
    requires Consistent(s) && Accounted(s)
    ensures var t := Run(Fresh, times, s, ops);
      && Sum(t.orders, SideFill(Buy)) == Volume(t.trades) == Sum(t.orders, SideFill(Sell))
      && (forall id :: id in t.orders && !(t.orders[id].kind == Market && t.orders[id].side == Buy) ==>
            0.0 <= t.orders[id].filled <= t.orders[id].quantity)
  {
    RunAccounted(times, s, ops);
    RunKeepsConsistent(Fresh, times, s, ops);
    var t := Run(Fresh, times, s, ops);
    ConsistentFills(t);
    SideTradesVolume(t.orders, Buy, t.trades);
    SideTradesVolume(t.orders, Sell, t.trades);
    FillsAreTraded(t, Buy);
    FillsAreTraded(t, Sell);
  }

  // --- When reading stale is reading fresh ---------------------------------------------------------

  // A run in which every creation finds all it needs in its first read.
  predicate Sufficient(s: State, op: Op) {
    match op
    case CreateOp(user, req, id, now) =>
      FirstReadSuffices(OrderOf(user, req, id, now), LevelsFor(s, user, req, id, now))
    case _ => true
  }

  ghost predicate SufficientRun(times: TimeRead, s: State, ops: seq<Op>)
    requires Consistent(s)
    decreases |ops|
  {
    ops == [] || (
      StepConsistent(Fresh, times, s, ops[0]);
      Sufficient(s, ops[0]) && SufficientRun(times, Step(Fresh, times, s, ops[0]), ops[1..]))
  }

  // On such a run reading stale passes through the very same states, so all that is proved of
  // fresh reading holds of it too.
  lemma {:induction false} SufficientRunsAgree(times: TimeRead, s: State, ops: seq<Op>)
    requires Consistent(s) && SufficientRun(times, s, ops)
    ensures Run(Stale, times, s, ops) == Run(Fresh, times, s, ops)
    decreases |ops|
  {
    if ops != [] {
      StepConsistent(Fresh, times, s, ops[0]);
      StepConsistent(Stale, times, s, ops[0]);
      SufficientStepsAgree(times, s, ops[0]);
      SufficientRunsAgree(times, Step(Fresh, times, s, ops[0]), ops[1..]);
    }
  }

  lemma SufficientStepsAgree(times: TimeRead, s: State, op: Op)
    requires Consistent(s) && LiveBook(s.book) && Sufficient(s, op)
    ensures Step(Stale, times, s, op) == Step(Fresh, times, s, op)
  {
    if op.CreateOp? { SufficientReadIsFresh(times, s, op.user, op.req, op.id, op.now); }
  }
}
