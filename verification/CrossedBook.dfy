// A run that crosses the book: ask 2 at 100, buy 1 at 100, ask 1 at 95, buy 1 at 97, within
// a few milliseconds and on a grid of whole dollars. The first ask, filled in part, comes
// back from the book without its time, and is served ahead of the cheaper one from then on.

module CrossedBook {
  import opened Models
  import opened Ledger
  import opened Score
  import opened OrderBook
  import opened Matching
  import opened Execution
  import opened Settlement
  import opened Exchange
  import opened ReadTimes
  import opened Runs
  import opened Demands
  import opened Creations
  import opened RoundTrips
  import opened Uncrossed

  const MARKET := "BTC-USD"
  const ASKS := BookKey(MARKET, Sell)
  const BIDS := BookKey(MARKET, Buy)

  // --- A creation that meets nothing --------------------------------------------------------

  lemma QuietResult(mode: ReadMode, o: Order, seen: seq<Order>, pair: Pair, r: OrderResult)
    requires Live(seen) && o.kind == Limit && o.filled == 0.0 && o.quantity > 0.0 && Quiet(o, seen)
    requires r == Match(mode, o, seen, pair)
    ensures r.trades == [] && r.updated == [] && r.incoming == o.(status := Open)
  {
    QuietMatch(mode, o, seen, pair, pair);
  }

  lemma QuietExecutesAs(mode: ReadMode, times: TimeRead, s: State, f: Funds, stamps: set<Stamp>, o: Order, pair: Pair)
    requires LiveBook(s.book) && o.kind == Limit && o.filled == 0.0 && o.quantity > 0.0
    requires Quiet(o, Levels(s.book, OppositeKey(o)))
    ensures var row := o.(status := Open);
      Execute(mode, times, s, f, s.orders[o.id := o], stamps, o, pair)
        == Ok(State(s.markets, f, s.orders[o.id := row], stamps, s.trades, Insert(s.book, row)))
  {
    var view, row := Levels(s.book, OppositeKey(o)), o.(status := Open);
    var seen := AllAsRead(times, view);
    ReadBlind(times, view);
    var r := Match(mode, o, seen, pair);
    QuietResult(mode, o, seen, pair, r);
    NothingSettles(f, s.orders[o.id := o], s.trades, r, pair);
    assert s.orders[o.id := o][o.id := row] == s.orders[o.id := row];
  }

  lemma RestsAsItCame(mode: ReadMode, times: TimeRead, s: State, user: UserId, req: Request, id: OrderId, now: int,
                      f: Funds)
    requires LiveBook(s.book) && req.kind == Limit && Admissible(s, user, req, id, now) && Cash(user) in f.rows
    requires LockBalance(s.funds, user, LockAsset(s.markets[req.marketId], req.side), LockAmount(Effective(req)))
         == Ok(f)
    requires Quiet(OrderOf(user, req, id, now), LevelsFor(s, user, req, id, now))
    ensures var o := OrderOf(user, req, id, now).(status := Open);
      Create(mode, times, s, user, req, id, now)
        == Ok(State(s.markets, f, s.orders[id := o], s.stamps + {Stamp(user, req.marketId, now)}, s.trades,
                    Insert(s.book, o)))
  {
    var o := OrderOf(user, req, id, now);
    CreateIsExecute(mode, times, s, user, req, id, now, f);
    QuietExecutesAs(mode, times, s, f, s.stamps + {Stamp(user, req.marketId, now)}, o, Pair(req.base, req.quote));
  }

  // --- A creation that takes a part of the best level -----------------------------------------

  lemma OneFill(mode: ReadMode, o: Order, view: seq<Order>, pair: Pair)
    requires Live(view) && view != [] && o.kind == Limit && Crosses(o, view[0])
    requires o.filled == 0.0 && 0.0 < o.quantity < view[0].Remaining()
    ensures var r := Match(mode, o, view, pair);
      && r.incoming == o.(filled := o.quantity, status := Filled)
      && r.updated == [o.(filled := o.quantity), Hit(view[0], o.quantity)]
      && r.trades == [TradeOf(o.id, o.side, view[0], o.quantity, pair)]
  {
    FillProgress(mode, o, view, pair);
    var (incoming, hit, trade) := FillAgainstLevel(o, view[0], pair);
    var next := NextView(mode, view, hit);
    assert incoming == o.(filled := o.quantity);
    assert MatchByQuantity(mode, incoming, next, pair) == OrderResult(incoming, [], [], next);
    assert MatchByQuantity(mode, o, view, pair) == Then(incoming, hit, trade, OrderResult(incoming, [], [], next));
  }

  lemma OneFillBook(b: Book, o: Order, hit: Order, r: OrderResult)
    requires r.updated == [o.(filled := o.quantity), hit] && r.incoming == o.(filled := o.quantity, status := Filled)
    requires hit.id != o.id
    ensures ApplyToBook(b, r) == Update(b, hit)
  {
    UpdateLevelsHead(b, r.updated, o.id);
  }

  // --- The run ------------------------------------------------------------------------------------

  function Limited(side: Side, price: real, quantity: real): Request {
    Request(MARKET, Limit, side, price, quantity, "BTC", USD, 0.0)
  }

  function At(i: int): int { 1000 * (BASE_TIME + i) }

  function Ops(): seq<Op> {
    [CreateOp("seller", Limited(Sell, 100.0, 2.0), 0, At(0)),
     CreateOp("buyer", Limited(Buy, 100.0, 1.0), 1, At(1)),
     CreateOp("seller", Limited(Sell, 95.0, 1.0), 2, At(2)),
     CreateOp("buyer", Limited(Buy, 97.0, 1.0), 3, At(3))]
  }

  function Money(sellerBtc: Account, sellerCash: Account, buyerBtc: Account, buyerCash: Account): Funds {
    Funds({"BTC", USD},
          map[Holding("seller", "BTC") := sellerBtc, Cash("seller") := sellerCash,
              Holding("buyer", "BTC") := buyerBtc, Cash("buyer") := buyerCash])
  }

  function Empty(): State {
    State(map[MARKET := MarketRow("BTC", USD, true)],
          Money(Account(3.0, 0.0), Account(0.0, 0.0), Account(0.0, 0.0), Account(1000.0, 0.0)), map[], {}, [], EMPTY)
  }

  // The orders as they come to rest, and the first ask as it is read and hit.
  function Resting(user: UserId, side: Side, price: real, quantity: real, i: nat): Order {
    Order(i, user, MARKET, Limit, side, price, quantity, Open, BASE_TIME + i, 0.0)
  }

  const FIRST := Resting("seller", Sell, 100.0, 2.0, 0)
  const SECOND := Resting("seller", Sell, 95.0, 1.0, 2)
  const BID := Resting("buyer", Buy, 97.0, 1.0, 3)
  const TAKER := Order(1, "buyer", MARKET, Limit, Buy, 100.0, 1.0, Filled, BASE_TIME + 1, 1.0)
  const REMNANT := FIRST.(createdAt := ZERO_TIME_MILLIS, status := PartiallyFilled, filled := 1.0)
  const TRADE := Trade(1, 0, 100.0, 1.0, "BTC", USD, "buyer", "seller")

  function AfterAsk(): State {
    State(Empty().markets, Money(Account(1.0, 2.0), Account(0.0, 0.0), Account(0.0, 0.0), Account(1000.0, 0.0)),
          map[0 := FIRST], {Stamp("seller", MARKET, At(0))}, [], Insert(EMPTY, FIRST))
  }

  function AfterBuy(): State {
    State(Empty().markets, Money(Account(1.0, 1.0), Account(100.0, 0.0), Account(1.0, 0.0), Account(900.0, 0.0)),
          map[0 := FIRST.(status := PartiallyFilled, filled := 1.0), 1 := TAKER],
          {Stamp("seller", MARKET, At(0)), Stamp("buyer", MARKET, At(1))}, [TRADE],
          Insert(Insert(EMPTY, FIRST), REMNANT))
  }

  function AfterSecond(): State {
    AfterBuy().(funds := Money(Account(0.0, 2.0), Account(100.0, 0.0), Account(1.0, 0.0), Account(900.0, 0.0)),
                orders := AfterBuy().orders[2 := SECOND],
                stamps := AfterBuy().stamps + {Stamp("seller", MARKET, At(2))},
                book := Insert(AfterBuy().book, SECOND))
  }

  function AfterBid(): State {
    AfterSecond().(funds := Money(Account(0.0, 2.0), Account(100.0, 0.0), Account(1.0, 0.0), Account(803.0, 97.0)),
                   orders := AfterSecond().orders[3 := BID],
                   stamps := AfterSecond().stamps + {Stamp("buyer", MARKET, At(3))},
                   book := Insert(AfterSecond().book, BID))
  }

  // --- The books ------------------------------------------------------------------------------------

  lemma AskBook()
    ensures Levels(Insert(EMPTY, FIRST), ASKS) == [FIRST] && Index(Insert(EMPTY, FIRST), ASKS) == [EntryOf(FIRST)]
  {
  }

  lemma RemnantBook()
    ensures Index(AfterBuy().book, ASKS) == [EntryOf(REMNANT)] && Index(AfterBuy().book, BIDS) == []
    ensures Levels(AfterBuy().book, BIDS) == []
  {
    AskBook();
  }

  // The remnant of the dearer ask is served first.
  lemma TwoAskBook()
    ensures Index(AfterSecond().book, ASKS) == [EntryOf(REMNANT), EntryOf(SECOND)]
    ensures Levels(AfterSecond().book, ASKS) == [REMNANT, SECOND]
  {
    RemnantBook();
    UndecodedTimeShiftsScore(100.0, FIRST.createdAt);
    assert !Before(EntryOf(SECOND), EntryOf(REMNANT));
    assert ZRem([EntryOf(REMNANT)], 2) == [EntryOf(REMNANT)];
    assert [EntryOf(REMNANT)][1..] == [];
    assert ZInsert([EntryOf(REMNANT)], EntryOf(SECOND)) == [EntryOf(REMNANT), EntryOf(SECOND)];
  }

  lemma BidBook()
    ensures Levels(AfterBid().book, ASKS) == [REMNANT, SECOND]
  {
    TwoAskBook();
  }

  // --- The steps ------------------------------------------------------------------------------------

  lemma Locks(f: Funds, user: UserId, asset: Asset, amount: real, g: Funds)
    requires SlotFor(user, asset) in f.rows && f.rows[SlotFor(user, asset)].available >= amount >= 0.0
    requires f.rows[SlotFor(user, asset)].locked >= 0.0
    requires g.assets == f.assets && g.rows == Post(f, SlotFor(user, asset), -amount, amount).rows
    ensures LockBalance(f, user, asset, amount) == Ok(g)
  {
  }

  // A limit request of one of the two, ready to be executed.
  ghost predicate Ready(s: State, user: UserId, req: Request, id: OrderId, now: int, f: Funds) {
    && Admissible(s, user, req, id, now) && Cash(user) in f.rows && req.kind == Limit
    && LockBalance(s.funds, user, LockAsset(s.markets[req.marketId], req.side), LockAmount(Effective(req))) == Ok(f)
  }

  lemma AskIsReady()
    ensures Ready(Empty(), "seller", Limited(Sell, 100.0, 2.0), 0, At(0), AfterAsk().funds)
  {
    Locks(Empty().funds, "seller", "BTC", 2.0, AfterAsk().funds);
  }

  lemma BuyIsReady()
    ensures Ready(AfterAsk(), "buyer", Limited(Buy, 100.0, 1.0), 1, At(1), LOCKED)
  {
    Locks(AfterAsk().funds, "buyer", USD, 100.0, LOCKED);
  }

  lemma SecondIsReady()
    ensures Ready(AfterBuy(), "seller", Limited(Sell, 95.0, 1.0), 2, At(2), AfterSecond().funds)
  {
    Locks(AfterBuy().funds, "seller", "BTC", 1.0, AfterSecond().funds);
  }

  lemma BidIsAdmissible()
    ensures Admissible(AfterSecond(), "buyer", Limited(Buy, 97.0, 1.0), 3, At(3))
  {
  }

  lemma BidIsReady()
    ensures Ready(AfterSecond(), "buyer", Limited(Buy, 97.0, 1.0), 3, At(3), AfterBid().funds)
  {
    BidIsAdmissible();
    Locks(AfterSecond().funds, "buyer", USD, 97.0, AfterBid().funds);
  }

  lemma RestedStep(mode: ReadMode, times: TimeRead, s: State, user: UserId, req: Request, id: OrderId, now: int,
                   f: Funds, row: Order, t: State)
    requires LiveBook(s.book) && Ready(s, user, req, id, now, f)
    requires Quiet(OrderOf(user, req, id, now), LevelsFor(s, user, req, id, now))
    requires row == OrderOf(user, req, id, now).(status := Open)
    requires t == s.(funds := f, orders := s.orders[id := row], stamps := s.stamps + {Stamp(user, req.marketId, now)},
                     book := Insert(s.book, row))
    ensures Step(mode, times, s, CreateOp(user, req, id, now)) == t
  {
    RestsAsItCame(mode, times, s, user, req, id, now, f);
  }

  lemma AskStep(mode: ReadMode)
    ensures LiveBook(EMPTY) && Step(mode, Undecoded, Empty(), Ops()[0]) == AfterAsk()
  {
    AskIsReady();
    assert Empty().orders[0 := FIRST] == AfterAsk().orders;
    assert Empty().stamps + {Stamp("seller", MARKET, At(0))} == AfterAsk().stamps;
    RestedStep(mode, Undecoded, Empty(), "seller", Limited(Sell, 100.0, 2.0), 0, At(0), AfterAsk().funds, FIRST,
               AfterAsk());
  }

  lemma SecondStep(mode: ReadMode)
    requires LiveBook(AfterBuy().book)
    ensures Step(mode, Undecoded, AfterBuy(), Ops()[2]) == AfterSecond()
  {
    RemnantBook();
    SecondIsReady();
    RestedStep(mode, Undecoded, AfterBuy(), "seller", Limited(Sell, 95.0, 1.0), 2, At(2), AfterSecond().funds, SECOND,
               AfterSecond());
  }

  lemma BidIsRow()
    ensures OrderOf("buyer", Limited(Buy, 97.0, 1.0), 3, At(3)).(status := Open) == BID
  {
  }

  // The loop sees 100 above 97 and ends.
  lemma BidStep(mode: ReadMode)
    requires LiveBook(AfterSecond().book)
    ensures Step(mode, Undecoded, AfterSecond(), Ops()[3]) == AfterBid()
  {
    TwoAskBook();
    BidIsReady();
    BidIsRow();
    RestedStep(mode, Undecoded, AfterSecond(), "buyer", Limited(Buy, 97.0, 1.0), 3, At(3), AfterBid().funds, BID,
               AfterBid());
  }

  lemma BuyMatch(mode: ReadMode) returns (r: OrderResult)
    ensures var o, view := OrderOf("buyer", Limited(Buy, 100.0, 1.0), 1, At(1)), AllAsRead(Undecoded, [FIRST]);
      && Live(view) && r == Match(mode, o, view, Pair("BTC", USD))
      && r.incoming == TAKER && r.updated == [o.(filled := 1.0), REMNANT]
      && r.trades == [TRADE.(buyer := "", seller := "")]
  {
    var o, view := OrderOf("buyer", Limited(Buy, 100.0, 1.0), 1, At(1)), AllAsRead(Undecoded, [FIRST]);
    assert view == [FIRST.(createdAt := ZERO_TIME_MILLIS)];
    OneFill(mode, o, view, Pair("BTC", USD));
    r := Match(mode, o, view, Pair("BTC", USD));
  }

  lemma Debits(f: Funds, k: Slot, amount: real, g: Funds)
    requires k in f.rows && f.rows[k].locked >= amount > 0.0
    requires g.assets == f.assets && g.rows == Post(f, k, 0.0, -amount).rows
    ensures Debit(f, k, amount) == Ok(g)
  {
  }

  const LOCKED := Money(Account(1.0, 2.0), Account(0.0, 0.0), Account(0.0, 0.0), Account(900.0, 100.0))
  const SOLD := Money(Account(1.0, 1.0), Account(0.0, 0.0), Account(0.0, 0.0), Account(900.0, 100.0))
  const PAID := Money(Account(1.0, 1.0), Account(100.0, 0.0), Account(0.0, 0.0), Account(900.0, 100.0))
  const BOUGHT := Money(Account(1.0, 1.0), Account(100.0, 0.0), Account(1.0, 0.0), Account(900.0, 100.0))

  lemma MakerSettles()
    ensures SettleMaker(LOCKED, Buy, TRADE, 100.0) == Ok(PAID)
  {
    Debits(LOCKED, Holding("seller", "BTC"), 1.0, SOLD);
    assert Post(SOLD, Cash("seller"), 100.0, 0.0).rows == PAID.rows;
  }

  lemma TakerSettles()
    ensures SettleTaker(PAID, TAKER, Pair("BTC", USD), 1.0, 100.0) == Ok(AfterBuy().funds)
  {
    assert Post(PAID, Holding("buyer", "BTC"), 1.0, 0.0).rows == BOUGHT.rows;
    Debits(BOUGHT, Cash("buyer"), 100.0, AfterBuy().funds);
  }

  lemma OneTrade(f: Funds, side: Side, t: Trade) returns (cost: real)
    ensures cost == t.price * t.quantity
    ensures SettleMakers(f, side, [t]) == SettleMaker(f, side, t, cost)
    ensures Volume([t]) == t.quantity && Cost([t]) == cost
  {
    var trades := [t];
    assert trades[0] == t && trades[1..] == [];
    cost := FirstTrade(f, side, trades);
  }

  lemma BuySettles()
    ensures Settle(LOCKED, TAKER, Pair("BTC", USD), [TRADE]) == Ok(AfterBuy().funds)
  {
    var cost := OneTrade(LOCKED, Buy, TRADE);
    assert cost == 100.0;
    MakerSettles();
    TakerSettles();
  }

  lemma OneInsert(assets: set<Asset>, orders: map<OrderId, Order>, t: Trade)
    requires InsertTrade(assets, orders, t).Ok?
    ensures InsertTrades(assets, orders, [t]) == Ok([InsertTrade(assets, orders, t).value])
  {
    var trades := [t];
    assert trades[0] == t && trades[1..] == [];
    assert [InsertTrade(assets, orders, t).value] + [] == [InsertTrade(assets, orders, t).value];
  }

  lemma OneUpdate(orders: map<OrderId, Order>, o: Order, hit: Order)
    requires hit.id != o.id
    ensures UpdateRows(orders, [o, hit], o.id) == UpdateRow(orders, hit)
  {
    assert [o, hit][1..] == [hit] && [hit][1..] == [];
    assert UpdateRows(orders, [hit], o.id) == UpdateRows(UpdateRow(orders, hit), [], o.id);
  }

  lemma BuyRows(o: Order)
    requires o == OrderOf("buyer", Limited(Buy, 100.0, 1.0), 1, At(1))
    ensures UpdateRow(UpdateRow(AfterAsk().orders[1 := o], REMNANT), TAKER) == AfterBuy().orders
  {
  }

  lemma BuyTables(r: OrderResult, o: Order)
    requires o == OrderOf("buyer", Limited(Buy, 100.0, 1.0), 1, At(1))
    requires r.incoming == TAKER && r.updated == [o.(filled := 1.0), REMNANT]
    requires r.trades == [TRADE.(buyer := "", seller := "")]
    ensures ApplyToTables(Tables(LOCKED, AfterAsk().orders[1 := o], []), r, Pair("BTC", USD))
         == Ok(Tables(AfterBuy().funds, AfterBuy().orders, [TRADE]))
  {
    var pending := AfterAsk().orders[1 := o];
    assert InsertTrade(LOCKED.assets, pending, TRADE.(buyer := "", seller := "")) == Ok(TRADE);
    OneInsert(LOCKED.assets, pending, TRADE.(buyer := "", seller := ""));
    OneUpdate(pending, o.(filled := 1.0), REMNANT);
    BuySettles();
    BuyRows(o);
    assert [] + [TRADE] == [TRADE];
  }

  lemma ExecuteIs(mode: ReadMode, times: TimeRead, s: State, f: Funds, orders: map<OrderId, Order>, stamps: set<Stamp>,
                  o: Order, pair: Pair, r: OrderResult, t: State)
    requires LiveBook(s.book) && r == Match(mode, o, AllAsRead(times, Levels(s.book, OppositeKey(o))), pair)
    requires ApplyToTables(Tables(f, orders, s.trades), r, pair) == Ok(Tables(t.funds, t.orders, t.trades))
    requires t.markets == s.markets && t.stamps == stamps && t.book == ApplyToBook(s.book, r)
    ensures Execute(mode, times, s, f, orders, stamps, o, pair) == Ok(t)
  {
  }

  lemma BuyBook(o: Order, r: OrderResult)
    requires r.updated == [o.(filled := 1.0), REMNANT] && r.incoming == o.(filled := 1.0, status := Filled)
    requires o.id == 1 && o.quantity == 1.0
    ensures ApplyToBook(AfterAsk().book, r) == AfterBuy().book
  {
    OneFillBook(AfterAsk().book, o, REMNANT, r);
    assert !Done(REMNANT);
  }

  lemma BuyView(o: Order)
    requires o == OrderOf("buyer", Limited(Buy, 100.0, 1.0), 1, At(1))
    ensures AllAsRead(Undecoded, Levels(AfterAsk().book, OppositeKey(o))) == AllAsRead(Undecoded, [FIRST])
  {
    AskBook();
  }

  lemma BuyExecutes(mode: ReadMode, o: Order)
    requires LiveBook(AfterAsk().book) && o == OrderOf("buyer", Limited(Buy, 100.0, 1.0), 1, At(1))
    ensures Execute(mode, Undecoded, AfterAsk(), LOCKED, AfterAsk().orders[1 := o], AfterBuy().stamps, o,
                    Pair("BTC", USD))
         == Ok(AfterBuy())
  {
    BuyView(o);
    var r := BuyMatch(mode);
    BuyTables(r, o);
    BuyBook(o, r);
    ExecuteIs(mode, Undecoded, AfterAsk(), LOCKED, AfterAsk().orders[1 := o], AfterBuy().stamps, o, Pair("BTC", USD),
              r, AfterBuy());
  }

  lemma ExecutedStep(mode: ReadMode, times: TimeRead, s: State, user: UserId, req: Request, id: OrderId, now: int,
                     f: Funds, stamps: set<Stamp>, t: State)
    requires LiveBook(s.book) && Ready(s, user, req, id, now, f)
    requires stamps == s.stamps + {Stamp(user, req.marketId, now)}
    requires var o := OrderOf(user, req, id, now);
      Execute(mode, times, s, f, s.orders[id := o], stamps, o, Pair(req.base, req.quote)) == Ok(t)
    ensures Step(mode, times, s, CreateOp(user, req, id, now)) == t
  {
    CreateIsExecute(mode, times, s, user, req, id, now, f);
  }

  lemma BuyStamps()
    ensures AfterBuy().stamps == AfterAsk().stamps + {Stamp("buyer", MARKET, At(1))}
  {
  }

  lemma BuyStep(mode: ReadMode)
    requires LiveBook(AfterAsk().book)
    ensures Step(mode, Undecoded, AfterAsk(), Ops()[1]) == AfterBuy()
  {
    var req := Limited(Buy, 100.0, 1.0);
    BuyIsReady();
    BuyStamps();
    BuyExecutes(mode, OrderOf("buyer", req, 1, At(1)));
    ExecutedStep(mode, Undecoded, AfterAsk(), "buyer", req, 1, At(1), LOCKED, AfterBuy().stamps, AfterBuy());
  }

  // --- The whole run ----------------------------------------------------------------------------------

  lemma RunThen(mode: ReadMode, times: TimeRead, s: State, ops: seq<Op>, t: State)
    requires Consistent(s) && LiveBook(s.book) && ops != [] && Step(mode, times, s, ops[0]) == t
    ensures Consistent(t) && LiveBook(t.book) && Run(mode, times, s, ops) == Run(mode, times, t, ops[1..])
  {
    StepConsistent(mode, times, s, ops[0]);
    ConsistentIsLive(t);
  }

  lemma EmptyIsValid()
    ensures Valid(Empty()) && Consistent(Empty()) && LiveBook(EMPTY)
  {
    assert Sound(Empty().funds);
    ValidIsConsistent(Empty());
    ConsistentIsLive(Empty());
  }

  lemma LastTwo(mode: ReadMode)
    requires Consistent(AfterBuy()) && LiveBook(AfterBuy().book)
    ensures Run(mode, Undecoded, AfterBuy(), Ops()[2..]) == AfterBid()
  {
    var ops := Ops()[2..];
    SecondStep(mode);
    assert ops[0] == Ops()[2] && ops[1..][0] == Ops()[3] && ops[1..][1..] == [];
    RunThen(mode, Undecoded, AfterBuy(), ops, AfterSecond());
    BidStep(mode);
    RunThen(mode, Undecoded, AfterSecond(), ops[1..], AfterBid());
  }

  lemma RunIs(mode: ReadMode)
    ensures Consistent(Empty()) && Run(mode, Undecoded, Empty(), Ops()) == AfterBid()
  {
    EmptyIsValid();
    var ops := Ops();
    AskStep(mode);
    RunThen(mode, Undecoded, Empty(), ops, AfterAsk());
    BuyStep(mode);
    assert ops[1..][0] == ops[1] && ops[1..][1..] == ops[2..];
    RunThen(mode, Undecoded, AfterAsk(), ops[1..], AfterBuy());
    LastTwo(mode);
  }

  lemma OpsAreOnGrid()
    ensures OnGrid(Decoded, Empty(), Ops(), 1.0, BASE_TIME, 3)
  {
    EmptyIsValid();
    assert 100.0 == Ticks(100, 1.0) && 95.0 == Ticks(95, 1.0) && 97.0 == Ticks(97, 1.0);
    forall op | op in Ops() ensures AlignedOp(op, 1.0, BASE_TIME, 3) {
    }
  }

  lemma BidIsAboveAsk()
    ensures var t := AfterBid();
      && 2 in t.orders && t.orders[2] == SECOND && 3 in t.orders && t.orders[3] == BID
      && !IsUncrossed(t.orders)
  {
    var orders := AfterBid().orders;
    assert orders[2] == SECOND && orders[3] == BID;
    assert Facing(orders[3], orders[2]);
  }

  // The bid stops at the ask of 100, and overlooks the one of 95.
  lemma BidOverlooks(mode: ReadMode)
    ensures Overlooks(mode, OrderOf("buyer", Limited(Buy, 97.0, 1.0), 3, At(3)), [REMNANT, SECOND])
  {
    var o, view := OrderOf("buyer", Limited(Buy, 97.0, 1.0), 3, At(3)), [REMNANT, SECOND];
    assert CrossingRun(o, view) == 0 && Crosses(o, view[1]);
  }

  // In either mode the run as written ends with a bid of 97 resting above an ask of 95, and
  // with an ask of 100 served ahead of it, although the prices are on the grid and the span
  // is short; with the times read back as they are stored, the same run crosses nothing.
  lemma UndecodedRunCrosses(mode: ReadMode)
    ensures OnGrid(Decoded, Empty(), Ops(), 1.0, BASE_TIME, 3)
    ensures var t := Run(mode, Undecoded, Empty(), Ops());
      && 2 in t.orders && t.orders[2] == SECOND && 3 in t.orders && t.orders[3] == BID
      && !IsUncrossed(t.orders)
      && Levels(t.book, ASKS) == [REMNANT, SECOND]
      && Overlooks(mode, OrderOf("buyer", Limited(Buy, 97.0, 1.0), 3, At(3)), Levels(t.book, ASKS))
    ensures IsUncrossed(Run(mode, Decoded, Empty(), Ops()).orders)
  {
    OpsAreOnGrid();
    RunUncrossed(mode, Decoded, Empty(), Ops(), 1.0, BASE_TIME, 3);
    RunIs(mode);
    BidBook();
    BidIsAboveAsk();
    BidOverlooks(mode);
  }
}
