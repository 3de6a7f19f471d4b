// A concrete state on which the exchange does what is not intended: one maker with two asks
// of 2 BTC at 10, and 2 ETH that are free; and one taker with 1000 dollars and 5 BTC.

module Counterexamples {
  import opened Models
  import opened Sums
  import opened Ledger
  import opened Score
  import opened OrderBook
  import opened Matching
  import opened Coverage
  import opened Exchange
  import opened ReadTimes
  import opened LockCoverage
  import opened Demands
  import opened Creations
  import opened Solvency
  import opened Accounting
  import opened StaleLocks
  import opened RoundTrips

  const KEY := BookKey("BTC-USD", Sell)

  function Ask(id: OrderId): Order {
    Order(id, "maker", "BTC-USD", Limit, Sell, 10.0, 2.0, Open, BASE_TIME + id, 0.0)
  }

  function TwoAsks(): map<OrderId, Order> { map[0 := Ask(0), 1 := Ask(1)] }

  function MakerFunds(): Funds {
    Funds({"BTC", "ETH", USD},
          map[Cash("maker") := Account(0.0, 0.0), Cash("taker") := Account(1000.0, 0.0),
              Holding("taker", "BTC") := Account(5.0, 0.0),
              Holding("maker", "BTC") := Account(0.0, 4.0), Holding("maker", "ETH") := Account(2.0, 0.0)])
  }

  function AllMarkets(): Markets {
    map["BTC-USD" := MarketRow("BTC", USD, true), "ETH-USD" := MarketRow("ETH", USD, true),
        "ETH-BTC" := MarketRow("ETH", "BTC", true)]
  }

  function Start(): State {
    State(AllMarkets(), MakerFunds(), TwoAsks(), {}, [],
          Book(map[KEY := [EntryOf(Ask(0)), EntryOf(Ask(1))]], TwoAsks()))
  }

  lemma StartAgrees()
    ensures Agrees(Start().orders, Start().book)
  {
    var b := Start().book;
    assert ScoreOf(Ask(0)) < ScoreOf(Ask(1));
    assert Index(b, KEY) == [EntryOf(Ask(0)), EntryOf(Ask(1))];
    forall key, e ensures e in Index(b, key) <==> Listed(TwoAsks(), key, e) {
    }
  }

  lemma TwoAsksSum(f: (OrderId, Order) -> real)
    ensures Sum(TwoAsks(), f) == f(0, Ask(0)) + f(1, Ask(1))
  {
    var none: map<OrderId, Order> := map[];
    SumUpdate(none, 0, Ask(0), f);
    SumUpdate(none[0 := Ask(0)], 1, Ask(1), f);
    assert TwoAsks() == none[0 := Ask(0)][1 := Ask(1)];
  }

  lemma StartRows()
    ensures Sound(MakerFunds()) && UsersKnown(MakerFunds(), TwoAsks())
    ensures forall id :: id in TwoAsks() ==> RowOk(AllMarkets(), id, TwoAsks()[id])
  {
  }

  lemma StartIsValid()
    ensures Valid(Start()) && Consistent(Start()) && LiveBook(Start().book)
  {
    StartAgrees();
    StartRows();
    ValidIsConsistent(Start());
    ConsistentIsLive(Start());
  }

  lemma StartHoldings(u: UserId, a: Asset)
    ensures LockedAt(MakerFunds(), Holding(u, a)) == Sum(TwoAsks(), BaseTerm(Start().markets, u, a))
  {
    TwoAsksSum(BaseTerm(Start().markets, u, a));
    assert Ask(0).Remaining() == 2.0 && Ask(1).Remaining() == 2.0;
  }

  lemma StartCash(u: UserId)
    ensures LockedAt(MakerFunds(), Cash(u)) == Sum(TwoAsks(), CashTerm(u)) + KeptBack(TwoAsks(), [])(u)
  {
    TwoAsksSum(CashTerm(u));
  }

  lemma StartIsCovered()
    ensures Covered(Start())
  {
    forall u, a { StartHoldings(u, a); }
    forall u { StartCash(u); }
  }

  lemma StartIsAccounted()
    ensures Accounted(Start()) && Registered(Start())
  {
  }

  // --- A creation reading stale ---------------------------------------------------------

  const BUY := Request("BTC-USD", Limit, Buy, 10.0, 3.0, "BTC", USD, 0.0)
  const NOW := 1000 * (BASE_TIME + 2)

  lemma BuyNeedsBoth()
    ensures var o, view := OrderOf("taker", BUY, 2, NOW), LevelsFor(Start(), "taker", BUY, 2, NOW);
      !FirstReadSuffices(o, view) && StaleAffords(Start(), "taker", BUY, o, view)
  {
    var z := Index(Start().book, KEY);
    assert z == [EntryOf(Ask(0)), EntryOf(Ask(1))];
    var view := LevelsFor(Start(), "taker", BUY, 2, NOW);
    assert OppositeKey(OrderOf("taker", BUY, 2, NOW)) == KEY;
    assert view[0] == Detail(Start().book, z[0].member) == Ask(0);
  }

  lemma BuyIsAdmissible()
    ensures Admissible(Start(), "taker", BUY, 2, NOW)
  {
    assert LockAmount(Effective(BUY)) == 30.0;
  }

  lemma BuyGoesThrough(times: TimeRead)
    requires Consistent(Start()) && LiveBook(Start().book)
    ensures Create(Stale, times, Start(), "taker", BUY, 2, NOW).Ok?
  {
    BuyNeedsBoth();
    BuyIsAdmissible();
    StaleCreateSucceedsIff(times, Start(), "taker", BUY, 2, NOW);
  }

  lemma Overread(times: TimeRead, s: State, user: UserId, req: Request, id: OrderId, now: int, t: State)
    requires Consistent(s) && LiveBook(s.book) && Covered(s) && Accounted(s) && Registered(s)
    requires Create(Stale, times, s, user, req, id, now) == Ok(t)
    requires !FirstReadSuffices(OrderOf(user, req, id, now), LevelsFor(s, user, req, id, now))
    ensures !Accounted(t) && !Covered(t)
  {
    StaleCreateIff(times, s, user, req, id, now, t);
    StaleCreateCoveredIff(times, s, user, req, id, now, t);
  }

  // A limit buy of 3 needs both asks. As written it is filled by the first one alone,
  // and goes through; the maker has then given up 3 while its rows show 1, and neither
  // the accounts nor the locks add up any more.
  lemma StaleCreateBreaks(times: TimeRead)
    ensures LiveBook(Start().book)
    ensures var r := Create(Stale, times, Start(), "taker", BUY, 2, NOW);
      r.Ok? && !Accounted(r.value) && !Covered(r.value)
  {
    StartIsValid();
    StartIsCovered();
    StartIsAccounted();
    BuyNeedsBoth();
    BuyGoesThrough(times);
    Overread(times, Start(), "taker", BUY, 2, NOW, Create(Stale, times, Start(), "taker", BUY, 2, NOW).value);
  }

  // --- A market sell that names another asset -----------------------------------------------

  const SELL := Request("ETH-USD", Market, Sell, 0.0, 2.0, "BTC", USD, 0.0)

  lemma SellIsAdmissible()
    ensures Admissible(Start(), "maker", SELL, 2, NOW)
    ensures !NamesBase(Start(), SELL) && LevelsFor(Start(), "maker", SELL, 2, NOW) == []
  {
    assert LockAmount(Effective(SELL)) == 2.0;
  }

  lemma SellIsAfforded(mode: ReadMode)
    requires LiveBook(Start().book)
    ensures Affords(mode, Start(), "maker", SELL, 2, NOW)
    ensures var r := MatchFor(mode, Start(), "maker", SELL, 2, NOW);
      var trades := TradesFor(mode, Start(), "maker", SELL, 2, NOW);
      forall k :: Asked(r.incoming, "BTC", trades, k) == if k == Holding("maker", "BTC") then 2.0 else 0.0
  {
    SellIsAdmissible();
    var o, pair := OrderOf("maker", SELL, 2, NOW), Pair("BTC", USD);
    QuietMatch(mode, o, [], pair, pair);
    var r, trades := MatchFor(mode, Start(), "maker", SELL, 2, NOW), TradesFor(mode, Start(), "maker", SELL, 2, NOW);
    assert r.incoming.quantity == 2.0 && r.incoming.filled == 0.0 && trades == [];
    forall k
      ensures Asked(r.incoming, "BTC", trades, k) == if k == Holding("maker", "BTC") then 2.0 else 0.0
      ensures Asked(r.incoming, "BTC", trades, k) <= Backing(Start(), "maker", SELL, k)
    {
    }
  }

  lemma HarmfulBreaks(times: TimeRead, s: State, user: UserId, req: Request, id: OrderId, now: int, t: State)
    requires Consistent(s) && LiveBook(s.book) && Covered(s) && Registered(s)
    requires Create(Fresh, times, s, user, req, id, now) == Ok(t)
    requires !Harmless(s, req, OrderOf(user, req, id, now), LevelsFor(s, user, req, id, now))
    ensures !Covered(t)
  {
    CreateCoveredIff(times, s, user, req, id, now, t);
  }

  lemma SellLocks(times: TimeRead, t: State)
    requires Consistent(Start()) && LiveBook(Start().book)
    requires Create(Fresh, times, Start(), "maker", SELL, 2, NOW) == Ok(t)
    ensures LockedAt(t.funds, Holding("maker", "ETH")) == 2.0 && LockedAt(t.funds, Holding("maker", "BTC")) == 2.0
  {
    SellIsAfforded(Fresh);
    SellIsBacked();
    CreateSucceedsIff(Fresh, times, Start(), "maker", SELL, 2, NOW);
  }

  lemma SellIsBacked()
    ensures Backing(Start(), "maker", SELL, Holding("maker", "ETH")) == 2.0
    ensures Backing(Start(), "maker", SELL, Holding("maker", "BTC")) == 4.0
  {
  }

  lemma SellGoesThrough(times: TimeRead)
    requires Consistent(Start()) && LiveBook(Start().book)
    ensures Create(Fresh, times, Start(), "maker", SELL, 2, NOW).Ok?
  {
    SellIsAdmissible();
    SellIsAfforded(Fresh);
    CreateSucceedsIff(Fresh, times, Start(), "maker", SELL, 2, NOW);
  }

  // On a market without bids, in which the lock was taken in ETH, it gets back BTC: the ETH
  // stays locked for nobody, and one of the asks has nothing behind it.
  lemma MisnamedSellBreaks(times: TimeRead)
    ensures LiveBook(Start().book)
    ensures var r := Create(Fresh, times, Start(), "maker", SELL, 2, NOW);
      && r.Ok? && !Covered(r.value)
      && LockedAt(r.value.funds, Holding("maker", "ETH")) == 2.0
      && LockedAt(r.value.funds, Holding("maker", "BTC")) == 2.0
  {
    StartIsValid();
    StartIsCovered();
    StartIsAccounted();
    SellGoesThrough(times);
    SellIsAdmissible();
    var t := Create(Fresh, times, Start(), "maker", SELL, 2, NOW).value;
    HarmfulBreaks(times, Start(), "maker", SELL, 2, NOW, t);
    SellLocks(times, t);
  }

  // --- A buy in a market not quoted in dollars ----------------------------------------------

  const BID := Request("ETH-BTC", Limit, Buy, 2.0, 1.0, "ETH", "BTC", 0.0)

  lemma BidIsAdmissible()
    ensures Admissible(Start(), "taker", BID, 2, NOW) && LockAmount(Effective(BID)) == 2.0
    ensures !LocksOwn(Start(), BID) && LevelsFor(Start(), "taker", BID, 2, NOW) == []
  {
  }

  lemma BidIsAfforded()
    requires LiveBook(Start().book)
    ensures Affords(Fresh, Start(), "taker", BID, 2, NOW)
  {
    BidIsAdmissible();
    var o, pair := OrderOf("taker", BID, 2, NOW), Pair("ETH", "BTC");
    QuietMatch(Fresh, o, [], pair, pair);
    var r, trades := MatchFor(Fresh, Start(), "taker", BID, 2, NOW), TradesFor(Fresh, Start(), "taker", BID, 2, NOW);
    assert r.incoming.kind == Limit && trades == [];
    forall k ensures Asked(r.incoming, "ETH", trades, k) <= Backing(Start(), "taker", BID, k) {
      NothingAsked(r.incoming, "ETH", k);
    }
  }

  lemma BidGoesThrough(times: TimeRead)
    requires Consistent(Start()) && LiveBook(Start().book)
    ensures Create(Fresh, times, Start(), "taker", BID, 2, NOW).Ok?
  {
    BidIsAdmissible();
    BidIsAfforded();
    CreateSucceedsIff(Fresh, times, Start(), "taker", BID, 2, NOW);
  }

  lemma BidIsStuck(t: State, o: Order)
    requires Untraded(Start(), t, o, 2.0) && o.marketId == "ETH-BTC" && o.userId == "taker" && o.side == Buy
    ensures LockedAt(t.funds, Holding("taker", "BTC")) == 2.0 && Cancel(t, o.id) == Err(NoRows)
  {
    UntradedAmount(o, 2.0);
  }

  // It locks BTC, and its cancellation asks for dollars: neither side of the lock is
  // covered, and the order cannot be cancelled.
  lemma ForeignBuyBreaks(times: TimeRead)
    ensures LiveBook(Start().book)
    ensures var r := Create(Fresh, times, Start(), "taker", BID, 2, NOW);
      && r.Ok? && !Covered(r.value)
      && LockedAt(r.value.funds, Holding("taker", "BTC")) == 2.0
      && Cancel(r.value, 2) == Err(NoRows)
  {
    StartIsValid();
    StartIsCovered();
    StartIsAccounted();
    BidIsAdmissible();
    BidGoesThrough(times);
    var t := Create(Fresh, times, Start(), "taker", BID, 2, NOW).value;
    HarmfulBreaks(times, Start(), "taker", BID, 2, NOW, t);
    QuietCreation(Fresh, times, Start(), "taker", BID, 2, NOW, t);
    BidIsStuck(t, OrderOf("taker", BID, 2, NOW).(status := Open));
  }

  // --- A second cancellation --------------------------------------------------------------

  lemma CancelUnlocks(s: State, id: OrderId, left: real)
    requires id in s.orders && s.orders[id].marketId == "BTC-USD" && s.markets == AllMarkets()
    requires s.orders[id].side == Sell && s.orders[id].userId == "maker"
    requires s.orders[id].Remaining() == 2.0
    requires Holding("maker", "BTC") in s.funds.rows && s.funds.rows[Holding("maker", "BTC")].locked == left
    ensures left < 2.0 ==> Cancel(s, id) == Err(NoRows)
    ensures left >= 2.0 ==>
      && Cancel(s, id).Ok?
      && var t := Cancel(s, id).value;
         && t.orders == s.orders[id := s.orders[id].(status := Cancelled)] && t.markets == s.markets
         && Holding("maker", "BTC") in t.funds.rows && t.funds.rows[Holding("maker", "BTC")].locked == left - 2.0
  {
    assert s.orders[id].(status := Cancelled).Remaining() == 2.0;
  }

  lemma CancelledOnce(s: State, id: OrderId)
    requires Consistent(s) && Covered(s) && Cancel(s, id).Ok? && s.orders[id].Resting()
    ensures Consistent(Cancel(s, id).value) && Covered(Cancel(s, id).value)
  {
    CancelCoveredIff(s, id);
    CancelConsistent(s, id, Cancel(s, id).value);
    TimesConsistent(Decoded, s, Cancel(s, id).value);
  }

  // The state after the first ask has been cancelled.
  ghost predicate Once(s: State) {
    && Consistent(s) && Covered(s) && s.markets == AllMarkets()
    && s.orders == TwoAsks()[0 := Ask(0).(status := Cancelled)]
    && Holding("maker", "BTC") in s.funds.rows && s.funds.rows[Holding("maker", "BTC")].locked == 2.0
  }

  lemma CancelledFirst()
    ensures Cancel(Start(), 0).Ok? && Once(Cancel(Start(), 0).value)
  {
    StartIsValid();
    StartIsCovered();
    FirstIsCancelled();
    CancelledOnce(Start(), 0);
  }

  lemma FirstIsCancelled()
    ensures Start().orders[0] == Ask(0) && Cancel(Start(), 0).Ok?
    ensures var t := Cancel(Start(), 0).value;
      && t.orders == TwoAsks()[0 := Ask(0).(status := Cancelled)] && t.markets == AllMarkets()
      && Holding("maker", "BTC") in t.funds.rows && t.funds.rows[Holding("maker", "BTC")].locked == 2.0
  {
    CancelUnlocks(Start(), 0, 4.0);
  }

  lemma CancelledAgain(once: State)
    requires Once(once)
    ensures Cancel(once, 0).Ok? && !Covered(Cancel(once, 0).value)
  {
    CancelUnlocks(once, 0, 2.0);
    CancelCoveredIff(once, 0);
  }

  lemma OtherIsStuck(once: State)
    requires Once(once) && Cancel(once, 0).Ok?
    ensures Cancel(Cancel(once, 0).value, 1) == Err(NoRows)
  {
    CancelUnlocks(once, 0, 2.0);
    CancelUnlocks(Cancel(once, 0).value, 1, 0.0);
  }

  // An order cancelled twice is paid out twice, at the expense of the maker's other
  // order, which can then not be cancelled at all.
  lemma CancelTwiceBreaks()
    ensures var once := Cancel(Start(), 0);
      && once.Ok? && Covered(once.value)
      && var twice := Cancel(once.value, 0);
         && twice.Ok? && !Covered(twice.value)
         && Cancel(twice.value, 1) == Err(NoRows)
  {
    CancelledFirst();
    CancelledAgain(Cancel(Start(), 0).value);
    OtherIsStuck(Cancel(Start(), 0).value);
  }
}
